/** What the two alert-management pages share: the readings pushed to them,
    the chart points they keep, and the rolling 20-point window each chart
    series is held in. */
module Telemetry {
  import opened Ints

  /** An update's value as it arrives: a number for measured quantities, a
      string for status fields. Nothing checks that a field gets the kind it
      expects, so a cell simply stores whichever arrives. */
  datatype Reading = Number(n: real) | Text(s: string)

  /** One chart point: the arrival time in milliseconds and the plotted value. */
  datatype Point = Point(x: int, y: Reading)

  /** The most points a series holds. */
  const WindowSize: nat := 20

  /** `s.slice(-k)` for k > 0: the last k elements, or all of them when
      there are fewer. */
  function KeepLast<T>(s: seq<T>, k: nat): (r: seq<T>)
    requires k > 0
    ensures |r| == Min(|s|, k)
    ensures r == s[|s| - |r|..]
  {
    if |s| <= k then s else s[|s| - k..]
  }

  /** `[...prev.slice(-19), p]`: the series after one more point arrives. */
  function Window<T>(prev: seq<T>, p: T): (r: seq<T>)
    ensures |r| == Min(|prev| + 1, WindowSize)
    ensures r[|r| - 1] == p
    ensures r[..|r| - 1] == prev[|prev| - (|r| - 1)..]
  {
    KeepLast(prev, WindowSize - 1) + [p]
  }

  /** A status string plotted as a point value: 1 for the one "good" status
      string, 0 for any other value. */
  function StatusSample(v: Reading, good: string): (y: Reading)
    ensures y == Number(1.0) <==> v == Text(good)
    ensures y == Number(0.0) <==> v != Text(good)
  {
    if v == Text(good) then Number(1.0) else Number(0.0)
  }

  /** The series obtained by feeding `points`, oldest first, to an initially
      empty series. */
  function Replay<T>(points: seq<T>): seq<T> {
    if points == [] then [] else Window(Replay(points[..|points| - 1]), points[|points| - 1])
  }

  /** Taking the last a and then the last b elements is taking the last b,
      when b <= a. */
  lemma KeepLastTwice<T>(s: seq<T>, a: nat, b: nat)
    requires 0 < b <= a
    ensures KeepLast(KeepLast(s, a), b) == KeepLast(s, b)
  {
  }

  /** A window pushed onto the newest twenty points of a history holds the
      newest twenty points of the history extended by the new point. */
  lemma WindowOfNewest<T>(history: seq<T>, p: T)
    ensures Window(KeepLast(history, WindowSize), p) == KeepLast(history + [p], WindowSize)
  {
    KeepLastTwice(history, WindowSize, WindowSize - 1);
    var ext := history + [p];
    assert ext[..|ext| - 1] == history;
    assert KeepLast(ext, WindowSize) == KeepLast(history, WindowSize - 1) + [p];
  }

  lemma AppendAssoc<T>(a: seq<T>, b: seq<T>, c: seq<T>)
    ensures (a + b) + c == a + (b + c)
  {
  }

  /** However many points have arrived, the series is exactly the newest
      twenty of them, in arrival order. */
  lemma {:induction false} ReplayKeepsNewest<T>(points: seq<T>)
    ensures Replay(points) == KeepLast(points, WindowSize)
  {
    if points != [] {
      var init, last := points[..|points| - 1], points[|points| - 1];
      ReplayKeepsNewest(init);
      WindowOfNewest(init, last);
      assert points == init + [last];
    }
  }
}
