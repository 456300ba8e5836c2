/** The industrial alert-management page: six telemetry fields pushed by
    the realtime client, each with a real-time cell and a 20-point chart
    series, plus the alarm sidebar and the page clock. */
module IndustrialAlerts {
  import opened Wrappers
  import opened Ints
  import opened Telemetry
  import Clock
  import PropertyChart

  /** The fields `handleUpdate` recognises. */
  datatype Field =
    | SuctionPressure | DischargePressure | EnergyConsumption
    | InternalHumidity | FanSpeed | SystemStatus

  /** The tag an update carries for each field. */
  function FieldName(f: Field): string {
    match f
    case SuctionPressure => "suctionPressure"
    case DischargePressure => "dischargePressure"
    case EnergyConsumption => "energyConsumption"
    case InternalHumidity => "internalHumidity"
    case FanSpeed => "fanSpeed"
    case SystemStatus => "systemStatus"
  }

  /** The `switch` on an update's tag: the field it names, or nothing for
      the `default` branch. */
  function ParseField(tag: string): (r: Option<Field>)
    ensures r.Some? ==> FieldName(r.value) == tag
    ensures forall f :: FieldName(f) == tag ==> r == Some(f)
  {
    if tag == "suctionPressure" then Some(SuctionPressure)
    else if tag == "dischargePressure" then Some(DischargePressure)
    else if tag == "energyConsumption" then Some(EnergyConsumption)
    else if tag == "internalHumidity" then Some(InternalHumidity)
    else if tag == "fanSpeed" then Some(FanSpeed)
    else if tag == "systemStatus" then Some(SystemStatus)
    else None
  }

  /** An update pushed by the realtime client. */
  datatype Update = Update(field: string, value: Reading)

  /** Every state cell of the page. */
  datatype PageState = PageState(
    suctionPressure: seq<Point>,
    dischargePressure: seq<Point>,
    energyConsumption: seq<Point>,
    internalHumidity: seq<Point>,
    fanSpeed: seq<Point>,
    systemStatus: seq<Point>,
    realTimeSuctionPressure: Reading,
    realTimeDischargePressure: Reading,
    realTimeEnergyConsumption: Reading,
    realTimeInternalHumidity: Reading,
    realTimeFanSpeed: Reading,
    realTimeSystemStatus: Reading,
    showSidebar: bool,
    time: string)

  /** The page as first rendered. */
  function Initial(): (s: PageState)
    ensures forall f :: Series(s, f) == []
    ensures forall f :: f != SystemStatus ==> RealTime(s, f) == Number(0.0)
    ensures RealTime(s, SystemStatus) == Text("")
    ensures !s.showSidebar && s.time == ""
  {
    PageState([], [], [], [], [], [], Number(0.0), Number(0.0), Number(0.0), Number(0.0), Number(0.0),
          Text(""), false, "")
  }

  /** The chart series of a field. */
  function Series(s: PageState, f: Field): seq<Point> {
    match f
    case SuctionPressure => s.suctionPressure
    case DischargePressure => s.dischargePressure
    case EnergyConsumption => s.energyConsumption
    case InternalHumidity => s.internalHumidity
    case FanSpeed => s.fanSpeed
    case SystemStatus => s.systemStatus
  }

  /** The real-time cell of a field. */
  function RealTime(s: PageState, f: Field): Reading {
    match f
    case SuctionPressure => s.realTimeSuctionPressure
    case DischargePressure => s.realTimeDischargePressure
    case EnergyConsumption => s.realTimeEnergyConsumption
    case InternalHumidity => s.realTimeInternalHumidity
    case FanSpeed => s.realTimeFanSpeed
    case SystemStatus => s.realTimeSystemStatus
  }

  /** The value plotted for an update: the reading itself, except that the
      system status plots 1 for "working" and 0 otherwise. */
  function Sample(f: Field, v: Reading): (y: Reading)
    ensures f != SystemStatus ==> y == v
    ensures f == SystemStatus ==> (y == Number(1.0) <==> v == Text("working"))
    ensures f == SystemStatus ==> (y == Number(0.0) <==> v != Text("working"))
  {
    if f == SystemStatus then StatusSample(v, "working") else v
  }

  /** The state with one field's two cells replaced. */
  function SetField(s: PageState, f: Field, v: Reading, series: seq<Point>): PageState {
    match f
    case SuctionPressure => s.(realTimeSuctionPressure := v, suctionPressure := series)
    case DischargePressure => s.(realTimeDischargePressure := v, dischargePressure := series)
    case EnergyConsumption => s.(realTimeEnergyConsumption := v, energyConsumption := series)
    case InternalHumidity => s.(realTimeInternalHumidity := v, internalHumidity := series)
    case FanSpeed => s.(realTimeFanSpeed := v, fanSpeed := series)
    case SystemStatus => s.(realTimeSystemStatus := v, systemStatus := series)
  }

  /** `handleUpdate` at time `now`, on the whole page state. */
  function Apply(s: PageState, u: Update, now: int): PageState {
    match ParseField(u.field)
    case None => s
    case Some(f) => SetField(s, f, u.value, Window(Series(s, f), Point(now, Sample(f, u.value))))
  }

  /** An update whose tag names no field changes nothing. */
  lemma ApplyUnknownField(s: PageState, u: Update, now: int)
    requires ParseField(u.field) == None
    ensures Apply(s, u, now) == s
  {
  }

  /** An update to field f sets f's real-time cell to the value and gives f's
      series the point (now, sample) after its last 19 points, so the series
      grows by one until it holds 20 points and then keeps 20. */
  lemma ApplyOwnField(s: PageState, u: Update, now: int, f: Field)
    requires ParseField(u.field) == Some(f)
    ensures RealTime(Apply(s, u, now), f) == u.value
    ensures Series(Apply(s, u, now), f) == Window(Series(s, f), Point(now, Sample(f, u.value)))
    ensures |Series(Apply(s, u, now), f)| == Min(|Series(s, f)| + 1, WindowSize)
  {
    match f
    case SuctionPressure =>
    case DischargePressure =>
    case EnergyConsumption =>
    case InternalHumidity =>
    case FanSpeed =>
    case SystemStatus =>
  }

  /** An update to field f leaves every other field's cells, the sidebar and
      the clock as they were. */
  lemma ApplyOtherFields(s: PageState, u: Update, now: int, f: Field, g: Field)
    requires ParseField(u.field) == Some(f) && g != f
    ensures Series(Apply(s, u, now), g) == Series(s, g)
    ensures RealTime(Apply(s, u, now), g) == RealTime(s, g)
    ensures Apply(s, u, now).showSidebar == s.showSidebar
    ensures Apply(s, u, now).time == s.time
  {
    match f
    case SuctionPressure =>
    case DischargePressure =>
    case EnergyConsumption =>
    case InternalHumidity =>
    case FanSpeed =>
    case SystemStatus =>
  }

  /** A system-status update plots 1 exactly when the status is "working",
      as the newest point of the status series, stamped with the update's
      time. */
  lemma ApplyStatusPoint(s: PageState, u: Update, now: int)
    requires u.field == "systemStatus"
    ensures var r := Series(Apply(s, u, now), SystemStatus);
      |r| > 0 && r[|r| - 1].x == now &&
      (r[|r| - 1].y == Number(1.0) <==> u.value == Text("working")) &&
      (r[|r| - 1].y == Number(0.0) <==> u.value != Text("working"))
  {
    assert FieldName(SystemStatus) == u.field;
    ApplyOwnField(s, u, now, SystemStatus);
  }

  /** Every series within the 20-point bound. */
  predicate WindowsBounded(s: PageState) {
    forall f :: |Series(s, f)| <= WindowSize
  }

  /** An update keeps every series within the bound. */
  lemma ApplyKeepsWindowsBounded(s: PageState, u: Update, now: int)
    requires WindowsBounded(s)
    ensures WindowsBounded(Apply(s, u, now))
  {
    var r := Apply(s, u, now);
    forall g
      ensures |Series(r, g)| <= WindowSize
    {
      match ParseField(u.field)
      case None =>
      case Some(f) =>
        if g == f {
          ApplyOwnField(s, u, now, f);
        } else {
          ApplyOtherFields(s, u, now, f, g);
        }
    }
  }

  /** The page after a run of updates, oldest first, each handled at its
      own arrival time. */
  function ApplyAll(s: PageState, us: seq<Update>, times: seq<int>): PageState
    requires |us| == |times|
    decreases |us|
  {
    if us == [] then s
    else Apply(ApplyAll(s, us[..|us| - 1], times[..|us| - 1]), us[|us| - 1], times[|us| - 1])
  }

  /** The chart points a run of updates to field f plots, oldest first. */
  function Stamped(f: Field, us: seq<Update>, times: seq<int>): (r: seq<Point>)
    requires |us| == |times|
    ensures |r| == |us|
    ensures forall i :: 0 <= i < |us| ==> r[i] == Point(times[i], Sample(f, us[i].value))
  {
    seq(|us|, i requires 0 <= i < |us| => Point(times[i], Sample(f, us[i].value)))
  }

  /** The last update of a run to field f slides f's window once more. */
  lemma ApplyAllLast(s: PageState, f: Field, us: seq<Update>, times: seq<int>)
    requires |us| == |times| && |us| > 0 && us[|us| - 1].field == FieldName(f)
    ensures var before := ApplyAll(s, us[..|us| - 1], times[..|us| - 1]);
      && Series(ApplyAll(s, us, times), f) ==
           Window(Series(before, f), Point(times[|us| - 1], Sample(f, us[|us| - 1].value)))
      && RealTime(ApplyAll(s, us, times), f) == us[|us| - 1].value
  {
    var n := |us|;
    var before := ApplyAll(s, us[..n - 1], times[..n - 1]);
    assert ApplyAll(s, us, times) == Apply(before, us[n - 1], times[n - 1]);
    ApplyOwnField(before, us[n - 1], times[n - 1], f);
  }

  lemma StampedPush(f: Field, us: seq<Update>, times: seq<int>)
    requires |us| == |times| && |us| > 0
    ensures Stamped(f, us, times) ==
      Stamped(f, us[..|us| - 1], times[..|us| - 1]) + [Point(times[|us| - 1], Sample(f, us[|us| - 1].value))]
  {
  }

  /** After any run of updates to one field, that field's series is the
      newest twenty of its earlier points followed by the points the run
      plotted, and its real-time cell holds the last value received. */
  lemma {:induction false} ApplyAllKeepsNewest(s: PageState, f: Field, us: seq<Update>, times: seq<int>)
    requires |us| == |times| && |Series(s, f)| <= WindowSize
    requires forall i :: 0 <= i < |us| ==> us[i].field == FieldName(f)
    ensures Series(ApplyAll(s, us, times), f) == KeepLast(Series(s, f) + Stamped(f, us, times), WindowSize)
    ensures RealTime(ApplyAll(s, us, times), f) == if us == [] then RealTime(s, f) else us[|us| - 1].value
    decreases |us|
  {
    if us == [] {
      assert Series(s, f) + Stamped(f, us, times) == Series(s, f);
    } else {
      var n := |us|;
      var init, tinit := us[..n - 1], times[..n - 1];
      var u, p := us[n - 1], Point(times[n - 1], Sample(f, us[n - 1].value));
      assert forall i :: 0 <= i < |init| ==> init[i].field == FieldName(f) by {
        forall i | 0 <= i < |init| ensures init[i].field == FieldName(f) {
          assert init[i] == us[i];
        }
      }
      ApplyAllKeepsNewest(s, f, init, tinit);
      ApplyAllLast(s, f, us, times);
      var older, run := Series(s, f), Stamped(f, init, tinit);
      WindowOfNewest(older + run, p);
      StampedPush(f, us, times);
      AppendAssoc(older, run, [p]);
    }
  }

  /** From the first render, a field's chart shows exactly the newest twenty
      points its updates plotted. */
  lemma ReplayFromInitial(f: Field, us: seq<Update>, times: seq<int>)
    requires |us| == |times|
    requires forall i :: 0 <= i < |us| ==> us[i].field == FieldName(f)
    ensures Series(ApplyAll(Initial(), us, times), f) == KeepLast(Stamped(f, us, times), WindowSize)
  {
    ApplyAllKeepsNewest(Initial(), f, us, times);
    assert Series(Initial(), f) + Stamped(f, us, times) == Stamped(f, us, times);
  }

  /** Clicking the status card opens the sidebar only while the system
      status is "fault". */
  function ClickStatusCard(s: PageState): (r: PageState)
    ensures r.showSidebar == (s.showSidebar || s.realTimeSystemStatus == Text("fault"))
    ensures r == s.(showSidebar := r.showSidebar)
  {
    if s.realTimeSystemStatus == Text("fault") then s.(showSidebar := true) else s
  }

  /** The colour name given to the status card. */
  function StatusCardColor(status: Reading): PropertyChart.ChartColor {
    if status == Text("fault") then PropertyChart.Red else PropertyChart.Green
  }

  /** The status card is drawn red exactly while the status is "fault", and
      in the default green otherwise. */
  lemma StatusCardColors(status: Reading)
    ensures PropertyChart.Colors(Some(StatusCardColor(status))) == ["#FF0000"] <==> status == Text("fault")
    ensures PropertyChart.Colors(Some(StatusCardColor(status))) == ["#0FFF00"] <==> status != Text("fault")
  {
  }

  /** The page component, its state cells as fields. */
  class IndustrialAlertManagement {
    var suctionPressure: seq<Point>
    var dischargePressure: seq<Point>
    var energyConsumption: seq<Point>
    var internalHumidity: seq<Point>
    var fanSpeed: seq<Point>
    var systemStatus: seq<Point>
    var realTimeSuctionPressure: Reading
    var realTimeDischargePressure: Reading
    var realTimeEnergyConsumption: Reading
    var realTimeInternalHumidity: Reading
    var realTimeFanSpeed: Reading
    var realTimeSystemStatus: Reading
    var showSidebar: bool
    var time: string

    function State(): PageState
      reads this
    {
      PageState(suctionPressure, dischargePressure, energyConsumption, internalHumidity,
        fanSpeed, systemStatus, realTimeSuctionPressure, realTimeDischargePressure,
        realTimeEnergyConsumption, realTimeInternalHumidity, realTimeFanSpeed,
        realTimeSystemStatus, showSidebar, time)
    }

    ghost predicate Valid()
      reads this
    {
      WindowsBounded(State())
    }

    constructor ()
      ensures Valid() && State() == Initial()
    {
      suctionPressure, dischargePressure, energyConsumption := [], [], [];
      internalHumidity, fanSpeed, systemStatus := [], [], [];
      realTimeSuctionPressure, realTimeDischargePressure := Number(0.0), Number(0.0);
      realTimeEnergyConsumption, realTimeInternalHumidity := Number(0.0), Number(0.0);
      realTimeFanSpeed, realTimeSystemStatus := Number(0.0), Text("");
      showSidebar, time := false, "";
    }

    /** Overwrites the two state cells of one field, the way each branch of
        `handleUpdate` calls that field's two state setters. */
    method SetCells(f: Field, v: Reading, series: seq<Point>)
      modifies this
      ensures State() == SetField(old(State()), f, v, series)
    {
      match f
      case SuctionPressure => realTimeSuctionPressure, suctionPressure := v, series;
      case DischargePressure => realTimeDischargePressure, dischargePressure := v, series;
      case EnergyConsumption => realTimeEnergyConsumption, energyConsumption := v, series;
      case InternalHumidity => realTimeInternalHumidity, internalHumidity := v, series;
      case FanSpeed => realTimeFanSpeed, fanSpeed := v, series;
      case SystemStatus => realTimeSystemStatus, systemStatus := v, series;
    }

    /** `handleUpdate`, with `Date.now()` passed in as `now`: the `switch`
        on the tag is `ParseField`, and every branch calls its field's two
        setters with the new value and the new window. */
    method HandleUpdate(u: Update, now: int)
      requires Valid()
      modifies this
      ensures Valid()
      ensures State() == Apply(old(State()), u, now)
    {
      ghost var before := State();
      match ParseField(u.field) {
        case Some(f) =>
          var series := Window(Series(State(), f), Point(now, Sample(f, u.value)));
          SetCells(f, u.value, series);
        case None =>
      }
      ApplyKeepsWindowsBounded(before, u, now);
    }

    /** The click handler of the status card. */
    method OnStatusCardClick()
      modifies this
      ensures State() == ClickStatusCard(old(State()))
    {
      if realTimeSystemStatus == Text("fault") {
        showSidebar := true;
      }
    }

    /** The sidebar's `onHide`. */
    method OnSidebarHide()
      modifies this
      ensures State() == old(State()).(showSidebar := false)
    {
      showSidebar := false;
    }

    /** `updateTime`, for the local hour and minute passed in. */
    method UpdateTime(hours: nat, minutes: nat)
      modifies this
      ensures State() == old(State()).(time := Clock.FormatClock(hours, minutes))
    {
      time := Clock.FormatClock(hours, minutes);
    }
  }
}
