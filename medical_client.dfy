/** The medical app's REST client: the patient overview and the medical
    reports of a device. */
module MedicalClient {
  import opened Wrappers
  import opened Astarte

  /** The overview record as Astarte stores it (`blood_type` in snake case). */
  datatype RawPatientOverview = RawPatientOverview(
    name: string, age: real, blood_type: string, height: real,
    phisician: string, weight: real, hospitalizationReason: string)

  /** The overview record the app works with. */
  datatype PatientOverviewData = PatientOverviewData(
    name: string, age: real, bloodType: string, height: real,
    phisician: string, weight: real, hospitalizationReason: string)

  /** A report as Astarte stores it; its date is still text. */
  datatype RawReport = RawReport(reportType: string, facility: string, date: string)

  /** The value of `new Date(text)`, kept opaque: the model does not parse dates. */
  datatype DateValue = DateFrom(text: string)

  /** A report the app works with. */
  datatype MedicalReport = MedicalReport(reportType: string, facility: string, date: DateValue)

  /** The `data` object of the reports interface; `report` may be absent. */
  datatype ReportsData = ReportsData(report: Option<seq<RawReport>>)

  const OverviewInterface: string := "com.oobe.patient.Overview"
  const ReportsInterface: string := "com.oobe.medical.Reports"

  function OverviewPath(cfg: ClientConfig, deviceId: string): string {
    InterfacePath(cfg.realm, deviceId, OverviewInterface)
  }

  function ReportsPath(cfg: ClientConfig, deviceId: string): string {
    InterfacePath(cfg.realm, deviceId, ReportsInterface)
  }

  /** Both reads address one device's interface, six segments deep. */
  lemma MedicalPaths(cfg: ClientConfig, deviceId: string)
    requires NoSlash(cfg.realm) && NoSlash(deviceId)
    ensures Split(OverviewPath(cfg, deviceId)) ==
      ["v1", cfg.realm, "devices", deviceId, "interfaces", "com.oobe.patient.Overview"]
    ensures Split(ReportsPath(cfg, deviceId)) ==
      ["v1", cfg.realm, "devices", deviceId, "interfaces", "com.oobe.medical.Reports"]
  {
    assert NoSlash(OverviewInterface);
    assert NoSlash(ReportsInterface);
    InterfacePathSegments(cfg.realm, deviceId, OverviewInterface);
    InterfacePathSegments(cfg.realm, deviceId, ReportsInterface);
  }

  /** The field-by-field copy that renames `blood_type` to `bloodType`. */
  function ToPatientOverview(raw: RawPatientOverview): (o: PatientOverviewData)
    ensures o.name == raw.name && o.age == raw.age && o.bloodType == raw.blood_type
    ensures o.height == raw.height && o.phisician == raw.phisician && o.weight == raw.weight
    ensures o.hospitalizationReason == raw.hospitalizationReason
  {
    PatientOverviewData(raw.name, raw.age, raw.blood_type, raw.height,
                        raw.phisician, raw.weight, raw.hospitalizationReason)
  }

  function FromPatientOverview(o: PatientOverviewData): RawPatientOverview {
    RawPatientOverview(o.name, o.age, o.bloodType, o.height,
                       o.phisician, o.weight, o.hospitalizationReason)
  }

  /** The copy loses nothing: it is undone by the reverse renaming. */
  lemma PatientOverviewRoundTrip(raw: RawPatientOverview, o: PatientOverviewData)
    ensures FromPatientOverview(ToPatientOverview(raw)) == raw
    ensures ToPatientOverview(FromPatientOverview(o)) == o
  {
  }

  /** `getPatientOverview`, with the HTTP call as `fetch`: a failed request
      is passed on; a reply with no body fails reading `data` of undefined,
      one whose body has no `data` fails reading `name` of undefined;
      otherwise the renamed record. */
  function GetPatientOverview(cfg: ClientConfig, deviceId: string,
                              fetch: Request -> Reply<RawPatientOverview>)
    : (r: Result<PatientOverviewData, ApiError>)
    ensures var reply := fetch(Request(OverviewPath(cfg, deviceId), map[]));
      && (reply.Failure? ==> r == Failure(reply.error))
      && (reply.Success? && reply.value.None? ==> r == Failure(ReadOfUndefined("data")))
      && (reply.Success? && reply.value.Some? && reply.value.value.data.None? ==>
            r == Failure(ReadOfUndefined("name")))
      && (r.Success? <==> reply.Success? && Payload(reply.value).Some?)
      && (r.Success? ==> r.value == ToPatientOverview(Payload(reply.value).value))
  {
    match fetch(Request(OverviewPath(cfg, deviceId), map[]))
    case Failure(e) => Failure(e)
    case Success(None) => Failure(ReadOfUndefined("data"))
    case Success(Some(Envelope(None))) => Failure(ReadOfUndefined("name"))
    case Success(Some(Envelope(Some(raw)))) => Success(ToPatientOverview(raw))
  }

  /** One report with its date text turned into a date. */
  function ToMedicalReport(raw: RawReport): MedicalReport {
    MedicalReport(raw.reportType, raw.facility, DateFrom(raw.date))
  }

  /** The `map` over the report list: same length, same order, and each
      entry keeps its type and facility and parses its own date. */
  function ProjectReports(raws: seq<RawReport>): (r: seq<MedicalReport>)
    ensures |r| == |raws|
    ensures forall i :: 0 <= i < |raws| ==>
      r[i].reportType == raws[i].reportType && r[i].facility == raws[i].facility &&
      r[i].date == DateFrom(raws[i].date)
  {
    if raws == [] then [] else [ToMedicalReport(raws[0])] + ProjectReports(raws[1..])
  }

  /** Projecting a concatenation projects each part. */
  lemma {:induction false} ProjectReportsAppend(a: seq<RawReport>, b: seq<RawReport>)
    ensures ProjectReports(a + b) == ProjectReports(a) + ProjectReports(b)
  {
    if a != [] {
      assert (a + b)[1..] == a[1..] + b;
      ProjectReportsAppend(a[1..], b);
    }
  }

  /** `getMedicalReports`, with the HTTP call as `fetch`: a failed request
      is passed on; a reply with no body fails reading `data`, a body without
      `data` fails reading `report`, a `data` without `report` fails reading
      `map`; otherwise the projected list. */
  function GetMedicalReports(cfg: ClientConfig, deviceId: string, fetch: Request -> Reply<ReportsData>)
    : (r: Result<seq<MedicalReport>, ApiError>)
    ensures var reply := fetch(Request(ReportsPath(cfg, deviceId), map[]));
      && (reply.Failure? ==> r == Failure(reply.error))
      && (reply.Success? && reply.value.None? ==> r == Failure(ReadOfUndefined("data")))
      && (reply.Success? && reply.value.Some? && reply.value.value.data.None? ==>
            r == Failure(ReadOfUndefined("report")))
      && (reply.Success? && Payload(reply.value).Some? && Payload(reply.value).value.report.None? ==>
            r == Failure(ReadOfUndefined("map")))
      && (r.Success? <==> reply.Success? && Payload(reply.value).Some? && Payload(reply.value).value.report.Some?)
      && (r.Success? ==> |r.value| == |Payload(reply.value).value.report.value|)
      && (r.Success? ==> forall i :: 0 <= i < |r.value| ==>
            r.value[i] == ToMedicalReport(Payload(reply.value).value.report.value[i]))
  {
    match fetch(Request(ReportsPath(cfg, deviceId), map[]))
    case Failure(e) => Failure(e)
    case Success(None) => Failure(ReadOfUndefined("data"))
    case Success(Some(Envelope(None))) => Failure(ReadOfUndefined("report"))
    case Success(Some(Envelope(Some(ReportsData(None))))) => Failure(ReadOfUndefined("map"))
    case Success(Some(Envelope(Some(ReportsData(Some(raws)))))) => Success(ProjectReports(raws))
  }
}
