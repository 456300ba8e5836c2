/** The property card used on the alert pages: a title, a headline value
    and a small chart whose single series colour comes from a colour name. */
module PropertyChart {
  import opened Wrappers

  /** The colour names a card may be given. */
  datatype ChartColor = Blue | Orange | Green | Red

  /** The chart's `colors` option: blue, orange and red have their own hex
      code; green and an absent colour both fall through to the last branch. */
  function Colors(color: Option<ChartColor>): (r: seq<string>)
    ensures |r| == 1
    ensures (color == Some(Blue)) <==> r == ["#00C2FF"]
    ensures (color == Some(Orange)) <==> r == ["#FF6B00"]
    ensures (color == Some(Red)) <==> r == ["#FF0000"]
    ensures (color == Some(Green) || color == None) <==> r == ["#0FFF00"]
  {
    match color
    case Some(Blue) => ["#00C2FF"]
    case Some(Orange) => ["#FF6B00"]
    case Some(Red) => ["#FF0000"]
    case _ => ["#0FFF00"]
  }

  /** Two colour choices draw the same colour exactly when they are equal or
      both fall through to the default. */
  lemma ColorsCollide(a: Option<ChartColor>, b: Option<ChartColor>)
    ensures Colors(a) == Colors(b) <==>
      a == b || ((a == Some(Green) || a == None) && (b == Some(Green) || b == None))
  {
  }

  /** `toUpperCase` on one character, for the ASCII letters. */
  function ToUpper(c: char): (u: char)
    ensures 'a' <= c <= 'z' ==> u as int == c as int - 32
    ensures !('a' <= c <= 'z') ==> u == c
    ensures !('a' <= u <= 'z')
  {
    if 'a' <= c <= 'z' then (c as int - 32) as char else c
  }

  /** `String(val)`: an absent value prints as "undefined". */
  function JsString(val: Option<string>): string {
    match val
    case None => "undefined"
    case Some(s) => s
  }

  /** `String(val).charAt(0).toUpperCase() + String(val).slice(1)`. */
  function CapitalizeFirstLetter(val: Option<string>): (r: string)
    ensures |r| == |JsString(val)|
    ensures |r| > 0 ==> r[0] == ToUpper(JsString(val)[0])
    ensures |r| > 0 ==> r[1..] == JsString(val)[1..]
  {
    var s := JsString(val);
    if s == "" then "" else [ToUpper(s[0])] + s[1..]
  }

  /** The headline text: an empty capitalized value is falsy and is replaced
      by "Loading...". */
  function DisplayText(val: Option<string>): string {
    var c := CapitalizeFirstLetter(val);
    if c == "" then "Loading..." else c
  }

  /** Capitalizing an already capitalized text changes nothing. */
  lemma CapitalizeIdempotent(val: Option<string>)
    ensures CapitalizeFirstLetter(Some(CapitalizeFirstLetter(val))) == CapitalizeFirstLetter(val)
  {
  }

  /** The placeholder is used exactly for the empty string; an absent value
      shows as "Undefined". */
  lemma DisplayFallback(val: Option<string>)
    ensures val == Some("") ==> DisplayText(val) == "Loading..."
    ensures val != Some("") ==> DisplayText(val) == CapitalizeFirstLetter(val)
    ensures val == None ==> DisplayText(val) == "Undefined"
  {
    if val == None {
      assert JsString(val) == "undefined";
      assert CapitalizeFirstLetter(val) == [ToUpper('u')] + "ndefined";
    }
  }
}
