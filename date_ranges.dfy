/** The date-range selector of the smart-building app: the four presets,
    the range each stands for, and the picker that closes a chosen range at
    the end of its last day. Dates are milliseconds since the epoch, and
    local time is taken to be UTC. */
module DateRanges {
  import opened Wrappers

  datatype RangePreset = Day | Week | Month | Year

  function PresetName(p: RangePreset): string {
    match p
    case Day => "Day"
    case Week => "Week"
    case Month => "Month"
    case Year => "Year"
  }

  /** A value the selector is given: a preset's name or a date range. */
  datatype SelectorValue = Name(name: string) | Range(start: int, end: int)

  /** `isRangePreset`: the value is one of the four preset names. */
  predicate IsRangePreset(v: SelectorValue) {
    v.Name? && (v.name == "Day" || v.name == "Week" || v.name == "Month" || v.name == "Year")
  }

  /** The test accepts exactly the names of the presets. */
  lemma IsRangePresetIff(v: SelectorValue)
    ensures IsRangePreset(v) <==> exists p :: v == Name(PresetName(p))
  {
    if IsRangePreset(v) {
      var p := if v.name == "Day" then Day else if v.name == "Week" then Week
               else if v.name == "Month" then Month else Year;
      assert v == Name(PresetName(p));
    }
  }

  /** `selectedPreset`: the preset the value names, none for a range. */
  function SelectedPreset(v: SelectorValue): (r: Option<RangePreset>)
    ensures r.Some? <==> IsRangePreset(v)
    ensures r.Some? ==> v == Name(PresetName(r.value))
  {
    if !IsRangePreset(v) then None
    else if v.name == "Day" then Some(Day)
    else if v.name == "Week" then Some(Week)
    else if v.name == "Month" then Some(Month)
    else Some(Year)
  }

  /** A preset's name selects that preset again. */
  lemma SelectedPresetOfName(p: RangePreset)
    ensures SelectedPreset(Name(PresetName(p))) == Some(p)
  {
  }

  const MsPerSecond: int := 1000
  const MsPerDay: int := 1000 * 60 * 60 * 24

  /** How far back each preset reaches, in milliseconds. */
  function PresetLength(p: RangePreset): int {
    match p
    case Day => 86_400_000
    case Week => 604_800_000
    case Month => 2_592_000_000
    case Year => 31_536_000_000
  }

  /** `presetToDateRange`, with the clock read once as `now`. */
  function PresetToDateRange(p: RangePreset, now: int): (r: (int, int))
    ensures r.1 == now
    ensures r.1 - r.0 == PresetLength(p)
  {
    match p
    case Day => (now - MsPerDay, now)
    case Week => (now - MsPerDay * 7, now)
    case Month => (now - MsPerDay * 30, now)
    case Year => (now - MsPerDay * 365, now)
  }

  /** Every preset range starts before it ends, and the longer presets
      start earlier. */
  lemma PresetRangesOrdered(now: int)
    ensures forall p :: PresetToDateRange(p, now).0 < PresetToDateRange(p, now).1
    ensures PresetToDateRange(Year, now).0 < PresetToDateRange(Month, now).0
    ensures PresetToDateRange(Month, now).0 < PresetToDateRange(Week, now).0
    ensures PresetToDateRange(Week, now).0 < PresetToDateRange(Day, now).0
  {
    forall p ensures PresetToDateRange(p, now).0 < PresetToDateRange(p, now).1 {
      assert PresetLength(p) > 0;
    }
  }

  // Calendar fields of a time value, each the floor quotient or remainder
  // of the next coarser one (Dafny's `/` and `%` floor for a positive divisor).
  function MsOf(t: int): int { t % 1000 }
  function TotalSeconds(t: int): int { t / 1000 }
  function SecondOf(t: int): int { TotalSeconds(t) % 60 }
  function TotalMinutes(t: int): int { TotalSeconds(t) / 60 }
  function MinuteOf(t: int): int { TotalMinutes(t) % 60 }
  function TotalHours(t: int): int { TotalMinutes(t) / 60 }
  function HourOf(t: int): int { TotalHours(t) % 24 }
  function DayOf(t: int): int { TotalHours(t) / 24 }

  /** `MakeDate(day, MakeTime(h, m, s, ms))`. */
  function MakeDate(day: int, h: int, m: int, s: int, ms: int): int {
    day * MsPerDay + h * 3_600_000 + m * 60_000 + s * MsPerSecond + ms
  }

  /** `setHours(h)`, `setMinutes(m)`, `setSeconds(s)` with one argument:
      the other fields are kept, out-of-range values carry over. */
  function SetHoursTime(t: int, h: int): int {
    MakeDate(DayOf(t), h, MinuteOf(t), SecondOf(t), MsOf(t))
  }

  function SetMinutesTime(t: int, m: int): int {
    MakeDate(DayOf(t), HourOf(t), m, SecondOf(t), MsOf(t))
  }

  function SetSecondsTime(t: int, s: int): int {
    MakeDate(DayOf(t), HourOf(t), MinuteOf(t), s, MsOf(t))
  }

  // Floor division by each unit size has a unique quotient and remainder.
  lemma DivMod1000(q: int, r: int)
    requires 0 <= r < 1000
    ensures (q * 1000 + r) / 1000 == q && (q * 1000 + r) % 1000 == r
  {
  }

  lemma DivMod60(q: int, r: int)
    requires 0 <= r < 60
    ensures (q * 60 + r) / 60 == q && (q * 60 + r) % 60 == r
  {
  }

  lemma DivMod24(q: int, r: int)
    requires 0 <= r < 24
    ensures (q * 24 + r) / 24 == q && (q * 24 + r) % 24 == r
  {
  }

  /** A date assembled from in-range fields has exactly those fields. */
  lemma MakeDateFields(day: int, h: int, m: int, s: int, ms: int)
    requires 0 <= h < 24 && 0 <= m < 60 && 0 <= s < 60 && 0 <= ms < 1000
    ensures var t := MakeDate(day, h, m, s, ms);
      DayOf(t) == day && HourOf(t) == h && MinuteOf(t) == m && SecondOf(t) == s && MsOf(t) == ms
  {
    var t := MakeDate(day, h, m, s, ms);
    var secs := ((day * 24 + h) * 60 + m) * 60 + s;
    assert t == secs * 1000 + ms;
    DivMod1000(secs, ms);
    var mins := (day * 24 + h) * 60 + m;
    DivMod60(mins, s);
    var hours := day * 24 + h;
    DivMod60(hours, m);
    DivMod24(day, h);
  }

  /** Every time value is assembled from its own fields, all in range. */
  lemma FieldsMakeDate(t: int)
    ensures 0 <= HourOf(t) < 24 && 0 <= MinuteOf(t) < 60 && 0 <= SecondOf(t) < 60 && 0 <= MsOf(t) < 1000
    ensures t == MakeDate(DayOf(t), HourOf(t), MinuteOf(t), SecondOf(t), MsOf(t))
  {
    assert t == TotalSeconds(t) * 1000 + MsOf(t);
    assert TotalSeconds(t) == TotalMinutes(t) * 60 + SecondOf(t);
    assert TotalMinutes(t) == TotalHours(t) * 60 + MinuteOf(t);
    assert TotalHours(t) == DayOf(t) * 24 + HourOf(t);
  }

  /** An in-range `setHours` changes the hour and nothing else. */
  lemma SetHoursFields(t: int, h: int)
    requires 0 <= h < 24
    ensures var u := SetHoursTime(t, h);
      DayOf(u) == DayOf(t) && HourOf(u) == h && MinuteOf(u) == MinuteOf(t) &&
      SecondOf(u) == SecondOf(t) && MsOf(u) == MsOf(t)
  {
    FieldsMakeDate(t);
    MakeDateFields(DayOf(t), h, MinuteOf(t), SecondOf(t), MsOf(t));
  }

  /** An in-range `setMinutes` changes the minute and nothing else. */
  lemma SetMinutesFields(t: int, m: int)
    requires 0 <= m < 60
    ensures var u := SetMinutesTime(t, m);
      DayOf(u) == DayOf(t) && HourOf(u) == HourOf(t) && MinuteOf(u) == m &&
      SecondOf(u) == SecondOf(t) && MsOf(u) == MsOf(t)
  {
    FieldsMakeDate(t);
    MakeDateFields(DayOf(t), HourOf(t), m, SecondOf(t), MsOf(t));
  }

  /** An in-range `setSeconds` changes the second and nothing else. */
  lemma SetSecondsFields(t: int, s: int)
    requires 0 <= s < 60
    ensures var u := SetSecondsTime(t, s);
      DayOf(u) == DayOf(t) && HourOf(u) == HourOf(t) && MinuteOf(u) == MinuteOf(t) &&
      SecondOf(u) == s && MsOf(u) == MsOf(t)
  {
    FieldsMakeDate(t);
    MakeDateFields(DayOf(t), HourOf(t), MinuteOf(t), s, MsOf(t));
  }

  /** The end date after `setHours(23)`, `setMinutes(59)`, `setSeconds(59)`. */
  function EndOfDay(t: int): int {
    SetSecondsTime(SetMinutesTime(SetHoursTime(t, 23), 59), 59)
  }

  /** The normalised end lies on the same day at 23:59:59 and keeps its
      milliseconds: it is the start of the last second of that day. */
  lemma EndOfDayFields(t: int)
    ensures var u := EndOfDay(t);
      DayOf(u) == DayOf(t) && HourOf(u) == 23 && MinuteOf(u) == 59 &&
      SecondOf(u) == 59 && MsOf(u) == MsOf(t)
    ensures EndOfDay(t) == DayOf(t) * MsPerDay + 86_399_000 + MsOf(t)
  {
    SetHoursFields(t, 23);
    var a := SetHoursTime(t, 23);
    SetMinutesFields(a, 59);
    var b := SetMinutesTime(a, 59);
    SetSecondsFields(b, 59);
  }

  /** Normalising an already normalised end changes nothing. */
  lemma EndOfDayIdempotent(t: int)
    ensures EndOfDay(EndOfDay(t)) == EndOfDay(t)
  {
    EndOfDayFields(t);
    EndOfDayFields(EndOfDay(t));
  }

  /** A mutable JavaScript `Date`. */
  class JsDate {
    var time: int

    constructor(t: int)
      ensures time == t
    {
      time := t;
    }

    method SetHours(h: int)
      modifies this
      ensures time == SetHoursTime(old(time), h)
    {
      time := SetHoursTime(time, h);
    }

    method SetMinutes(m: int)
      modifies this
      ensures time == SetMinutesTime(old(time), m)
    {
      time := SetMinutesTime(time, m);
    }

    method SetSeconds(s: int)
      modifies this
      ensures time == SetSecondsTime(old(time), s)
    {
      time := SetSecondsTime(time, s);
    }
  }

  /** The picker's state: the two ends chosen so far. */
  class RangeSelector {
    var startDate: JsDate?
    var endDate: JsDate?

    constructor()
      ensures startDate == null && endDate == null
    {
      startDate := null;
      endDate := null;
    }

    /** `onDateChange`: the end date, when there is one, is moved in place
        to 23:59:59 of its day; both ends are stored; the range is passed to
        `onChange` (returned here) exactly when both ends are set, start
        first. */
    method OnDateChange(start: JsDate?, end: JsDate?) returns (emitted: Option<(JsDate, JsDate)>)
      modifies this, end
      ensures startDate == start && endDate == end
      ensures end != null ==> end.time == EndOfDay(old(end.time))
      ensures emitted.Some? <==> start != null && end != null
      ensures emitted.Some? ==> emitted.value == (start, end)
    {
      if end != null {
        end.SetHours(23);
        end.SetMinutes(59);
        end.SetSeconds(59);
      }
      startDate := start;
      endDate := end;
      if start != null && end != null {
        emitted := Some((start, end));
      } else {
        emitted := None;
      }
    }
  }
}
