/** The industrial app's REST client: the inspected image ids of a device
    and the inspection data of one image. */
module IndustrialClient {
  import opened Wrappers
  import opened Astarte

  /** One inspection result. */
  datatype ImageData = ImageData(productName: string, drillError: real, shortCircuit: real, timestamp: int)

  /** The arguments of an inspection-data read; dates are milliseconds. */
  datatype ImageParameters = ImageParameters(
    deviceId: string, imageId: string,
    sinceAfter: Option<int>, since: Option<int>, to: Option<int>, limit: Option<int>)

  const InspectionInterface: string := "com.oobe.quality.Inspection"

  function ImagesIdsPath(cfg: ClientConfig, deviceId: string): string {
    InterfacePath(cfg.realm, deviceId, InspectionInterface)
  }

  function ImagesDataPath(cfg: ClientConfig, deviceId: string, imageId: string): string {
    ImagesIdsPath(cfg, deviceId) + "/" + imageId
  }

  /** The two paths share their first six segments; the data path adds the
      image as the seventh. */
  lemma ImagePaths(cfg: ClientConfig, deviceId: string, imageId: string)
    requires NoSlash(cfg.realm) && NoSlash(deviceId) && NoSlash(imageId)
    ensures Split(ImagesIdsPath(cfg, deviceId)) ==
      ["v1", cfg.realm, "devices", deviceId, "interfaces", "com.oobe.quality.Inspection"]
    ensures Split(ImagesDataPath(cfg, deviceId, imageId)) ==
      Split(ImagesIdsPath(cfg, deviceId)) + [imageId]
  {
    assert NoSlash(InspectionInterface);
    InterfacePathSegments(cfg.realm, deviceId, InspectionInterface);
    ItemPathSegments(cfg.realm, deviceId, InspectionInterface, imageId);
  }

  /** `getImagesIds`, with the HTTP call as `fetch`: one plain GET of the
      interface; the keys of the reply's payload, none when it is absent; a
      failure is passed on unchanged. */
  function GetImagesIds<V>(cfg: ClientConfig, deviceId: string, fetch: Request -> Reply<map<string, V>>)
    : (r: Result<set<string>, ApiError>)
    ensures var reply := fetch(Request(ImagesIdsPath(cfg, deviceId), map[]));
      && (reply.Failure? ==> r == Failure(reply.error))
      && (reply.Success? && Payload(reply.value).Some? ==> r == Success(Payload(reply.value).value.Keys))
      && (reply.Success? && Payload(reply.value).None? ==> r == Success({}))
  {
    KeysOrEmpty(fetch(Request(ImagesIdsPath(cfg, deviceId), map[])))
  }

  /** `getImagesData`, with the HTTP call as `fetch` and `toISOString` as
      `toIso`: the request it sends, and the payload list, the empty list
      when it is absent, or the failure unchanged. */
  method GetImagesData(cfg: ClientConfig, p: ImageParameters, toIso: int -> string,
                       fetch: Request -> Reply<seq<ImageData>>)
    returns (request: Request, r: Result<seq<ImageData>, ApiError>)
    ensures request.path == ImagesDataPath(cfg, p.deviceId, p.imageId)
    ensures IsTimeQuery(request.query, p.sinceAfter, p.since, p.to, p.limit, toIso)
    ensures var reply := fetch(request);
      && (reply.Failure? ==> r == Failure(reply.error))
      && (reply.Success? && Payload(reply.value).Some? ==> r == Success(Payload(reply.value).value))
      && (reply.Success? && Payload(reply.value).None? ==> r == Success([]))
  {
    var query := BuildQuery(p.sinceAfter, p.since, p.to, p.limit, toIso);
    request := Request(ImagesDataPath(cfg, p.deviceId, p.imageId), query);
    r := ListOrEmpty(fetch(request));
  }
}
