/** The smart-building app's REST client: the camera ids of a device and
    the event history of one camera. */
module SmartBuildingClient {
  import opened Wrappers
  import opened Astarte

  datatype CameraEvent = PersonDetected | GroupOfPeople | Incident
  datatype Behavior = Entering | Leaving | Gathering

  /** One entry of a camera's history. The timestamp is a `Date`, which is
      absent only when the payload leaves it out. */
  datatype CameraHistoryData = CameraHistoryData(
    event: CameraEvent, behavior: Behavior, datetime: Option<int>, numberOfPeople: int)

  /** The arguments of a history read; dates are milliseconds. */
  datatype CameraHistoryParameters = CameraHistoryParameters(
    deviceId: string, cameraId: string,
    sinceAfter: Option<int>, since: Option<int>, to: Option<int>, limit: Option<int>)

  const HistoryInterface: string := "com.oobe.camera.History"

  function CameraIdsPath(cfg: ClientConfig, deviceId: string): string {
    InterfacePath(cfg.realm, deviceId, HistoryInterface)
  }

  function CameraHistoryPath(cfg: ClientConfig, deviceId: string, cameraId: string): string {
    CameraIdsPath(cfg, deviceId) + "/" + cameraId
  }

  /** The two paths share their first six segments; the history path adds
      the camera as the seventh. */
  lemma CameraPaths(cfg: ClientConfig, deviceId: string, cameraId: string)
    requires NoSlash(cfg.realm) && NoSlash(deviceId) && NoSlash(cameraId)
    ensures Split(CameraIdsPath(cfg, deviceId)) ==
      ["v1", cfg.realm, "devices", deviceId, "interfaces", "com.oobe.camera.History"]
    ensures Split(CameraHistoryPath(cfg, deviceId, cameraId)) ==
      Split(CameraIdsPath(cfg, deviceId)) + [cameraId]
  {
    assert NoSlash(HistoryInterface);
    InterfacePathSegments(cfg.realm, deviceId, HistoryInterface);
    ItemPathSegments(cfg.realm, deviceId, HistoryInterface, cameraId);
  }

  /** `getCameraIds`, with the HTTP call as `fetch`: one plain GET of the
      interface; the keys of the reply's payload, none when it is absent; a
      failure is passed on unchanged. */
  function GetCameraIds<V>(cfg: ClientConfig, deviceId: string, fetch: Request -> Reply<map<string, V>>)
    : (r: Result<set<string>, ApiError>)
    ensures var reply := fetch(Request(CameraIdsPath(cfg, deviceId), map[]));
      && (reply.Failure? ==> r == Failure(reply.error))
      && (reply.Success? && Payload(reply.value).Some? ==> r == Success(Payload(reply.value).value.Keys))
      && (reply.Success? && Payload(reply.value).None? ==> r == Success({}))
  {
    KeysOrEmpty(fetch(Request(CameraIdsPath(cfg, deviceId), map[])))
  }

  /** `getCameraHistory`, with the HTTP call as `fetch` and `toISOString`
      as `toIso`: the request it sends, and the payload list, the empty list
      when it is absent, or the failure unchanged. */
  method GetCameraHistory(cfg: ClientConfig, p: CameraHistoryParameters, toIso: int -> string,
                          fetch: Request -> Reply<seq<CameraHistoryData>>)
    returns (request: Request, r: Result<seq<CameraHistoryData>, ApiError>)
    ensures request.path == CameraHistoryPath(cfg, p.deviceId, p.cameraId)
    ensures IsTimeQuery(request.query, p.sinceAfter, p.since, p.to, p.limit, toIso)
    ensures var reply := fetch(request);
      && (reply.Failure? ==> r == Failure(reply.error))
      && (reply.Success? && Payload(reply.value).Some? ==> r == Success(Payload(reply.value).value))
      && (reply.Success? && Payload(reply.value).None? ==> r == Success([]))
  {
    var query := BuildQuery(p.sinceAfter, p.since, p.to, p.limit, toIso);
    request := Request(CameraHistoryPath(cfg, p.deviceId, p.cameraId), query);
    r := ListOrEmpty(fetch(request));
  }
}
