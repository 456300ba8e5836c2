/** The medical alert-management page: the tube status text, five charted
    fields each with a real-time cell and a 20-point series, the alarm
    sidebar and the page clock. */
module MedicalAlerts {
  import opened Wrappers
  import opened Ints
  import opened Telemetry
  import Clock

  /** The fields `handleUpdate` recognises. */
  datatype Field =
    | TubeStatus | TubeTemperature | TubeCurrent
    | GantryTemperature | CoolingSystem | SystemStatus

  /** The tag an update carries for each field. */
  function FieldName(f: Field): string {
    match f
    case TubeStatus => "tubeStatus"
    case TubeTemperature => "tubeTemperature"
    case TubeCurrent => "tubeCurrent"
    case GantryTemperature => "gantryTemperature"
    case CoolingSystem => "coolingSystem"
    case SystemStatus => "systemStatus"
  }

  /** The `switch` on an update's tag: the field it names, or nothing for
      the `default` branch. */
  function ParseField(tag: string): (r: Option<Field>)
    ensures r.Some? ==> FieldName(r.value) == tag
    ensures forall f :: FieldName(f) == tag ==> r == Some(f)
  {
    if tag == "tubeStatus" then Some(TubeStatus)
    else if tag == "tubeTemperature" then Some(TubeTemperature)
    else if tag == "tubeCurrent" then Some(TubeCurrent)
    else if tag == "gantryTemperature" then Some(GantryTemperature)
    else if tag == "coolingSystem" then Some(CoolingSystem)
    else if tag == "systemStatus" then Some(SystemStatus)
    else None
  }

  /** Only the tube status has no chart series. */
  predicate Charted(f: Field) {
    f != TubeStatus
  }

  /** An update pushed by the realtime client. */
  datatype Update = Update(field: string, value: Reading)

  /** Every state cell of the page. */
  datatype PageState = PageState(
    tubeStatus: Reading,
    tubeTemperature: seq<Point>,
    tubeCurrent: seq<Point>,
    gantryTemperature: seq<Point>,
    coolingSystem: seq<Point>,
    systemStatus: seq<Point>,
    realTimeTubeTemperature: Reading,
    realTimeTubeCurrent: Reading,
    realTimeGantryTemperature: Reading,
    realTimeCoolingSystem: Reading,
    realTimeSystemStatus: Reading,
    showSidebar: bool,
    time: string)

  /** The page as first rendered. */
  function Initial(): (s: PageState)
    ensures forall f :: Charted(f) ==> Series(s, f) == []
    ensures forall f :: f in {TubeTemperature, TubeCurrent, GantryTemperature} ==> RealTime(s, f) == Number(0.0)
    ensures forall f :: f in {TubeStatus, CoolingSystem, SystemStatus} ==> RealTime(s, f) == Text("")
    ensures !s.showSidebar && s.time == ""
  {
    PageState(Text(""), [], [], [], [], [], Number(0.0), Number(0.0), Number(0.0), Text(""), Text(""),
              false, "")
  }

  /** The chart series of a charted field. */
  function Series(s: PageState, f: Field): seq<Point>
    requires Charted(f)
  {
    match f
    case TubeTemperature => s.tubeTemperature
    case TubeCurrent => s.tubeCurrent
    case GantryTemperature => s.gantryTemperature
    case CoolingSystem => s.coolingSystem
    case SystemStatus => s.systemStatus
  }

  /** The cell holding a field's latest value as received. */
  function RealTime(s: PageState, f: Field): Reading {
    match f
    case TubeStatus => s.tubeStatus
    case TubeTemperature => s.realTimeTubeTemperature
    case TubeCurrent => s.realTimeTubeCurrent
    case GantryTemperature => s.realTimeGantryTemperature
    case CoolingSystem => s.realTimeCoolingSystem
    case SystemStatus => s.realTimeSystemStatus
  }

  /** The value plotted for an update: the reading itself for the measured
      quantities; 1 for a "Running" cooling system and a "ready" system
      status, 0 for any other status. */
  function Sample(f: Field, v: Reading): (y: Reading)
    ensures f in {TubeStatus, TubeTemperature, TubeCurrent, GantryTemperature} ==> y == v
    ensures f == CoolingSystem ==> (y == Number(1.0) <==> v == Text("Running"))
    ensures f == CoolingSystem ==> (y == Number(0.0) <==> v != Text("Running"))
    ensures f == SystemStatus ==> (y == Number(1.0) <==> v == Text("ready"))
    ensures f == SystemStatus ==> (y == Number(0.0) <==> v != Text("ready"))
  {
    match f
    case CoolingSystem => StatusSample(v, "Running")
    case SystemStatus => StatusSample(v, "ready")
    case _ => v
  }

  /** The state with a charted field's two cells replaced. */
  function SetField(s: PageState, f: Field, v: Reading, series: seq<Point>): PageState
    requires Charted(f)
  {
    match f
    case TubeTemperature => s.(realTimeTubeTemperature := v, tubeTemperature := series)
    case TubeCurrent => s.(realTimeTubeCurrent := v, tubeCurrent := series)
    case GantryTemperature => s.(realTimeGantryTemperature := v, gantryTemperature := series)
    case CoolingSystem => s.(realTimeCoolingSystem := v, coolingSystem := series)
    case SystemStatus => s.(realTimeSystemStatus := v, systemStatus := series)
  }

  /** `handleUpdate` at time `now`, on the whole page state. */
  function Apply(s: PageState, u: Update, now: int): PageState {
    match ParseField(u.field)
    case None => s
    case Some(TubeStatus) => s.(tubeStatus := u.value)
    case Some(f) => SetField(s, f, u.value, Window(Series(s, f), Point(now, Sample(f, u.value))))
  }

  /** An update whose tag names no field changes nothing. */
  lemma ApplyUnknownField(s: PageState, u: Update, now: int)
    requires ParseField(u.field) == None
    ensures Apply(s, u, now) == s
  {
  }

  /** A tube-status update only replaces the tube status text: every series
      and every other cell stays as it was. */
  lemma ApplyTubeStatus(s: PageState, u: Update, now: int)
    requires u.field == "tubeStatus"
    ensures RealTime(Apply(s, u, now), TubeStatus) == u.value
    ensures forall g :: Charted(g) ==> Series(Apply(s, u, now), g) == Series(s, g)
    ensures forall g :: g != TubeStatus ==> RealTime(Apply(s, u, now), g) == RealTime(s, g)
    ensures Apply(s, u, now).showSidebar == s.showSidebar && Apply(s, u, now).time == s.time
  {
    assert ParseField(u.field) == Some(TubeStatus);
  }

  /** An update to a charted field f sets f's real-time cell to the value as
      received and gives f's series the point (now, sample) after its last
      19 points. */
  lemma ApplyOwnField(s: PageState, u: Update, now: int, f: Field)
    requires ParseField(u.field) == Some(f) && Charted(f)
    ensures RealTime(Apply(s, u, now), f) == u.value
    ensures Series(Apply(s, u, now), f) == Window(Series(s, f), Point(now, Sample(f, u.value)))
    ensures |Series(Apply(s, u, now), f)| == Min(|Series(s, f)| + 1, WindowSize)
  {
    match f
    case TubeTemperature =>
    case TubeCurrent =>
    case GantryTemperature =>
    case CoolingSystem =>
    case SystemStatus =>
  }

  /** An update to field f leaves every other field's cells, the sidebar and
      the clock as they were. */
  lemma ApplyOtherFields(s: PageState, u: Update, now: int, f: Field, g: Field)
    requires ParseField(u.field) == Some(f) && g != f
    ensures Charted(g) ==> Series(Apply(s, u, now), g) == Series(s, g)
    ensures RealTime(Apply(s, u, now), g) == RealTime(s, g)
    ensures Apply(s, u, now).showSidebar == s.showSidebar
    ensures Apply(s, u, now).time == s.time
  {
    match f
    case TubeStatus =>
    case TubeTemperature =>
    case TubeCurrent =>
    case GantryTemperature =>
    case CoolingSystem =>
    case SystemStatus =>
  }

  /** A cooling-system update keeps the raw string as the real-time value
      and plots 1 exactly when it is "Running". */
  lemma ApplyCoolingPoint(s: PageState, u: Update, now: int)
    requires u.field == "coolingSystem"
    ensures RealTime(Apply(s, u, now), CoolingSystem) == u.value
    ensures var r := Series(Apply(s, u, now), CoolingSystem);
      |r| > 0 && r[|r| - 1].x == now &&
      (r[|r| - 1].y == Number(1.0) <==> u.value == Text("Running")) &&
      (r[|r| - 1].y == Number(0.0) <==> u.value != Text("Running"))
  {
    assert FieldName(CoolingSystem) == u.field;
    ApplyOwnField(s, u, now, CoolingSystem);
  }

  /** A system-status update plots 1 exactly when the status is "ready". */
  lemma ApplyStatusPoint(s: PageState, u: Update, now: int)
    requires u.field == "systemStatus"
    ensures var r := Series(Apply(s, u, now), SystemStatus);
      |r| > 0 && r[|r| - 1].x == now &&
      (r[|r| - 1].y == Number(1.0) <==> u.value == Text("ready")) &&
      (r[|r| - 1].y == Number(0.0) <==> u.value != Text("ready"))
  {
    assert FieldName(SystemStatus) == u.field;
    ApplyOwnField(s, u, now, SystemStatus);
  }

  /** Every series within the 20-point bound. */
  predicate WindowsBounded(s: PageState) {
    forall f :: Charted(f) ==> |Series(s, f)| <= WindowSize
  }

  /** An update keeps every series within the bound. */
  lemma ApplyKeepsWindowsBounded(s: PageState, u: Update, now: int)
    requires WindowsBounded(s)
    ensures WindowsBounded(Apply(s, u, now))
  {
    var r := Apply(s, u, now);
    forall g | Charted(g)
      ensures |Series(r, g)| <= WindowSize
    {
      match ParseField(u.field)
      case None =>
      case Some(f) =>
        if g == f {
          ApplyOwnField(s, u, now, f);
        } else {
          ApplyOtherFields(s, u, now, f, g);
        }
    }
  }

  /** The page after a run of updates, oldest first, each handled at its
      own arrival time. */
  function ApplyAll(s: PageState, us: seq<Update>, times: seq<int>): PageState
    requires |us| == |times|
    decreases |us|
  {
    if us == [] then s
    else Apply(ApplyAll(s, us[..|us| - 1], times[..|us| - 1]), us[|us| - 1], times[|us| - 1])
  }

  /** The chart points a run of updates to field f plots, oldest first. */
  function Stamped(f: Field, us: seq<Update>, times: seq<int>): (r: seq<Point>)
    requires |us| == |times|
    ensures |r| == |us|
    ensures forall i :: 0 <= i < |us| ==> r[i] == Point(times[i], Sample(f, us[i].value))
  {
    seq(|us|, i requires 0 <= i < |us| => Point(times[i], Sample(f, us[i].value)))
  }

  /** The last update of a run to field f slides f's window once more. */
  lemma ApplyAllLast(s: PageState, f: Field, us: seq<Update>, times: seq<int>)
    requires Charted(f) && |us| == |times| && |us| > 0 && us[|us| - 1].field == FieldName(f)
    ensures var before := ApplyAll(s, us[..|us| - 1], times[..|us| - 1]);
      && Series(ApplyAll(s, us, times), f) ==
           Window(Series(before, f), Point(times[|us| - 1], Sample(f, us[|us| - 1].value)))
      && RealTime(ApplyAll(s, us, times), f) == us[|us| - 1].value
  {
    var n := |us|;
    var before := ApplyAll(s, us[..n - 1], times[..n - 1]);
    assert ApplyAll(s, us, times) == Apply(before, us[n - 1], times[n - 1]);
    ApplyOwnField(before, us[n - 1], times[n - 1], f);
  }

  lemma StampedPush(f: Field, us: seq<Update>, times: seq<int>)
    requires |us| == |times| && |us| > 0
    ensures Stamped(f, us, times) ==
      Stamped(f, us[..|us| - 1], times[..|us| - 1]) + [Point(times[|us| - 1], Sample(f, us[|us| - 1].value))]
  {
  }

  /** After any run of updates to one field, that field's series is the
      newest twenty of its earlier points followed by the points the run
      plotted, and its real-time cell holds the last value received. */
  lemma {:induction false} ApplyAllKeepsNewest(s: PageState, f: Field, us: seq<Update>, times: seq<int>)
    requires Charted(f) && |us| == |times| && |Series(s, f)| <= WindowSize
    requires forall i :: 0 <= i < |us| ==> us[i].field == FieldName(f)
    ensures Series(ApplyAll(s, us, times), f) == KeepLast(Series(s, f) + Stamped(f, us, times), WindowSize)
    ensures RealTime(ApplyAll(s, us, times), f) == if us == [] then RealTime(s, f) else us[|us| - 1].value
    decreases |us|
  {
    if us == [] {
      assert Series(s, f) + Stamped(f, us, times) == Series(s, f);
    } else {
      var n := |us|;
      var init, tinit := us[..n - 1], times[..n - 1];
      var u, p := us[n - 1], Point(times[n - 1], Sample(f, us[n - 1].value));
      assert forall i :: 0 <= i < |init| ==> init[i].field == FieldName(f) by {
        forall i | 0 <= i < |init| ensures init[i].field == FieldName(f) {
          assert init[i] == us[i];
        }
      }
      ApplyAllKeepsNewest(s, f, init, tinit);
      ApplyAllLast(s, f, us, times);
      var older, run := Series(s, f), Stamped(f, init, tinit);
      WindowOfNewest(older + run, p);
      StampedPush(f, us, times);
      AppendAssoc(older, run, [p]);
    }
  }

  /** From the first render, a charted field's chart shows exactly the newest twenty
      points its updates plotted. */
  lemma ReplayFromInitial(f: Field, us: seq<Update>, times: seq<int>)
    requires Charted(f) && |us| == |times|
    requires forall i :: 0 <= i < |us| ==> us[i].field == FieldName(f)
    ensures Series(ApplyAll(Initial(), us, times), f) == KeepLast(Stamped(f, us, times), WindowSize)
  {
    ApplyAllKeepsNewest(Initial(), f, us, times);
    assert Series(Initial(), f) + Stamped(f, us, times) == Stamped(f, us, times);
  }

  /** Clicking the status card opens the sidebar only while the system
      status is "fault". */
  function ClickStatusCard(s: PageState): (r: PageState)
    ensures r.showSidebar == (s.showSidebar || s.realTimeSystemStatus == Text("fault"))
    ensures r == s.(showSidebar := r.showSidebar)
  {
    if s.realTimeSystemStatus == Text("fault") then s.(showSidebar := true) else s
  }

  /** The page component, its state cells as fields. */
  class MedicalAlertManagement {
    var tubeStatus: Reading
    var tubeTemperature: seq<Point>
    var tubeCurrent: seq<Point>
    var gantryTemperature: seq<Point>
    var coolingSystem: seq<Point>
    var systemStatus: seq<Point>
    var realTimeTubeTemperature: Reading
    var realTimeTubeCurrent: Reading
    var realTimeGantryTemperature: Reading
    var realTimeCoolingSystem: Reading
    var realTimeSystemStatus: Reading
    var showSidebar: bool
    var time: string

    function State(): PageState
      reads this
    {
      PageState(tubeStatus, tubeTemperature, tubeCurrent, gantryTemperature, coolingSystem,
        systemStatus, realTimeTubeTemperature, realTimeTubeCurrent, realTimeGantryTemperature,
        realTimeCoolingSystem, realTimeSystemStatus, showSidebar, time)
    }

    ghost predicate Valid()
      reads this
    {
      WindowsBounded(State())
    }

    constructor ()
      ensures Valid() && State() == Initial()
    {
      tubeStatus := Text("");
      tubeTemperature, tubeCurrent, gantryTemperature := [], [], [];
      coolingSystem, systemStatus := [], [];
      realTimeTubeTemperature, realTimeTubeCurrent := Number(0.0), Number(0.0);
      realTimeGantryTemperature, realTimeCoolingSystem := Number(0.0), Text("");
      realTimeSystemStatus := Text("");
      showSidebar, time := false, "";
    }

    /** Overwrites the two state cells of one charted field, the way each
        such branch of `handleUpdate` calls that field's two state setters. */
    method SetCells(f: Field, v: Reading, series: seq<Point>)
      requires Charted(f)
      modifies this
      ensures State() == SetField(old(State()), f, v, series)
    {
      match f
      case TubeTemperature => realTimeTubeTemperature, tubeTemperature := v, series;
      case TubeCurrent => realTimeTubeCurrent, tubeCurrent := v, series;
      case GantryTemperature => realTimeGantryTemperature, gantryTemperature := v, series;
      case CoolingSystem => realTimeCoolingSystem, coolingSystem := v, series;
      case SystemStatus => realTimeSystemStatus, systemStatus := v, series;
    }

    /** `handleUpdate`, with `Date.now()` passed in as `now`: the `switch`
        on the tag is `ParseField`; the tube status branch sets one cell and
        every other branch calls its field's two setters with the new value
        and the new window. */
    method HandleUpdate(u: Update, now: int)
      requires Valid()
      modifies this
      ensures Valid()
      ensures State() == Apply(old(State()), u, now)
    {
      ghost var before := State();
      match ParseField(u.field) {
        case Some(TubeStatus) =>
          tubeStatus := u.value;
        case Some(f) =>
          var series := Window(Series(State(), f), Point(now, Sample(f, u.value)));
          SetCells(f, u.value, series);
        case None =>
      }
      ApplyKeepsWindowsBounded(before, u, now);
    }

    /** The click handler of the status card. */
    method OnStatusCardClick()
      modifies this
      ensures State() == ClickStatusCard(old(State()))
    {
      if realTimeSystemStatus == Text("fault") {
        showSidebar := true;
      }
    }

    /** The sidebar's `onHide`. */
    method OnSidebarHide()
      modifies this
      ensures State() == old(State()).(showSidebar := false)
    {
      showSidebar := false;
    }

    /** `updateTime`, for the local hour and minute passed in. */
    method UpdateTime(hours: nat, minutes: nat)
      modifies this
      ensures State() == old(State()).(time := Clock.FormatClock(hours, minutes))
    {
      time := Clock.FormatClock(hours, minutes);
    }
  }
}
