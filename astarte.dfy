/** What the three Astarte AppEngine REST clients share: the client
    configuration and its request headers, the interface paths, the query
    record of the time-filtered reads, the replies, and the fallbacks applied
    to a reply's `data`. The HTTP call itself is a parameter of each
    operation. */
module Astarte {
  import opened Wrappers
  import Decimal

  /** The constructor's arguments, kept unchanged for the client's life. */
  datatype ClientConfig = ClientConfig(astarteUrl: string, realm: string, token: string)

  /** The headers every request of a client carries. */
  function Headers(cfg: ClientConfig): (h: map<string, string>)
    ensures h.Keys == {"Authorization", "Content-Type"}
    ensures h["Authorization"] == "Bearer " + cfg.token
    ensures h["Content-Type"] == "application/json;charset=UTF-8"
  {
    map["Authorization" := "Bearer " + cfg.token, "Content-Type" := "application/json;charset=UTF-8"]
  }

  /** The token can be read back from the Authorization header. */
  lemma TokenFromHeader(cfg: ClientConfig)
    ensures var a := Headers(cfg)["Authorization"];
      |a| >= 7 && a[..7] == "Bearer " && a[7..] == cfg.token
  {
    var a := Headers(cfg)["Authorization"];
    assert a == "Bearer " + cfg.token;
  }

  /** A GET request relative to the AppEngine base URL. */
  datatype Request = Request(path: string, query: map<string, string>)

  /** Why an operation's promise is rejected: the HTTP call failed, or the
      reply handler read a property of `undefined`. Either is rethrown to the
      caller unchanged. */
  datatype ApiError = RequestFailed(reason: string) | ReadOfUndefined(property: string)

  /** The reply's JSON body, `{ data: ... }`, whose `data` may be absent. */
  datatype Envelope<T> = Envelope(data: Option<T>)

  /** The outcome of the HTTP call: a failure, or a response whose body may
      be absent. */
  type Reply<T> = Result<Option<Envelope<T>>, ApiError>

  /** `response.data?.data`: the payload, when both levels are present. */
  function Payload<T>(body: Option<Envelope<T>>): Option<T> {
    if body.Some? then body.value.data else None
  }

  /** `v1/<realm>/devices/<deviceId>/interfaces/<iface>`. */
  function InterfacePath(realm: string, deviceId: string, iface: string): string {
    "v1/" + realm + "/devices/" + deviceId + "/interfaces/" + iface
  }

  /** The segments of a path between its '/' separators. */
  function Split(s: string): (r: seq<string>)
    ensures |r| >= 1
  {
    if s == [] then [""]
    else if s[0] == '/' then [""] + Split(s[1..])
    else var rest := Split(s[1..]); [[s[0]] + rest[0]] + rest[1..]
  }

  predicate NoSlash(s: string) {
    '/' !in s
  }

  /** A text without a separator is one segment. */
  lemma {:induction false} SplitSegment(a: string)
    requires NoSlash(a)
    ensures Split(a) == [a]
  {
    if a != [] {
      assert a[0] in a;
      assert forall i :: 0 <= i < |a[1..]| ==> a[1..][i] == a[i + 1];
      SplitSegment(a[1..]);
      assert [a[0]] + a[1..] == a;
    }
  }

  /** A separator after a segment starts the next one. */
  lemma {:induction false} SplitJoin(a: string, b: string)
    requires NoSlash(a)
    ensures Split(a + "/" + b) == [a] + Split(b)
  {
    if a == [] {
      assert a + "/" + b == "/" + b;
      assert ("/" + b)[1..] == b;
    } else {
      assert a[0] in a;
      assert forall i :: 0 <= i < |a[1..]| ==> a[1..][i] == a[i + 1];
      assert (a + "/" + b)[1..] == a[1..] + "/" + b;
      SplitJoin(a[1..], b);
      assert [a[0]] + a[1..] == a;
    }
  }

  /** Segments joined with '/' between them. */
  function JoinPath(segments: seq<string>): string
    requires |segments| >= 1
  {
    if |segments| == 1 then segments[0] else segments[0] + "/" + JoinPath(segments[1..])
  }

  /** Joining segments that hold no '/' and splitting again gives them
      back. */
  lemma {:induction false} SplitJoinPath(segments: seq<string>)
    requires |segments| >= 1
    requires forall i :: 0 <= i < |segments| ==> NoSlash(segments[i])
    ensures Split(JoinPath(segments)) == segments
  {
    if |segments| == 1 {
      SplitSegment(segments[0]);
    } else {
      SplitJoin(segments[0], JoinPath(segments[1..]));
      SplitJoinPath(segments[1..]);
    }
  }

  /** An interface path is its six segments joined by '/'. */
  lemma InterfacePathIsJoin(realm: string, deviceId: string, iface: string)
    ensures InterfacePath(realm, deviceId, iface) ==
      JoinPath(["v1", realm, "devices", deviceId, "interfaces", iface])
  {
    var s := ["v1", realm, "devices", deviceId, "interfaces", iface];
    assert JoinPath(s[5..]) == iface;
    assert JoinPath(s[4..]) == "interfaces" + "/" + iface;
    assert JoinPath(s[3..]) == deviceId + "/" + ("interfaces" + "/" + iface);
    assert JoinPath(s[2..]) == "devices" + "/" + (deviceId + "/" + ("interfaces" + "/" + iface));
    assert JoinPath(s[1..]) == realm + "/" + ("devices" + "/" + (deviceId + "/" + ("interfaces" + "/" + iface)));
  }

  /** An interface path names the realm, the device and the interface as its
      second, fourth and sixth segments, when none of them holds a '/'. */
  lemma InterfacePathSegments(realm: string, deviceId: string, iface: string)
    requires NoSlash(realm) && NoSlash(deviceId) && NoSlash(iface)
    ensures Split(InterfacePath(realm, deviceId, iface)) ==
      ["v1", realm, "devices", deviceId, "interfaces", iface]
  {
    var s := ["v1", realm, "devices", deviceId, "interfaces", iface];
    InterfacePathIsJoin(realm, deviceId, iface);
    assert NoSlash("v1") && NoSlash("devices") && NoSlash("interfaces");
    SplitJoinPath(s);
  }

  /** A path below an interface adds the item as a seventh segment. */
  lemma ItemPathSegments(realm: string, deviceId: string, iface: string, item: string)
    requires NoSlash(realm) && NoSlash(deviceId) && NoSlash(iface) && NoSlash(item)
    ensures Split(InterfacePath(realm, deviceId, iface) + "/" + item) ==
      ["v1", realm, "devices", deviceId, "interfaces", iface, item]
  {
    InterfacePathSegments(realm, deviceId, iface);
    SplitSegment(item);
    SplitAppend(InterfacePath(realm, deviceId, iface), item);
  }

  /** Appending '/' and a segment to a path appends that segment. */
  lemma {:induction false} SplitAppend(p: string, item: string)
    requires NoSlash(item)
    ensures Split(p + "/" + item) == Split(p) + [item]
  {
    if p == [] {
      assert p + "/" + item == "/" + item;
      assert ("/" + item)[1..] == item;
      SplitSegment(item);
    } else {
      assert (p + "/" + item)[1..] == p[1..] + "/" + item;
      SplitAppend(p[1..], item);
    }
  }

  /** JavaScript truthiness of an optional number: absent and 0 are falsy. */
  predicate Truthy(n: Option<int>) {
    n.Some? && n.value != 0
  }

  /** What the query record of a time-filtered read holds: each date given
      under its own key, as its ISO string (`toIso` stands for
      `toISOString`); the limit, as its decimal string, only when it is
      truthy; and no other key. */
  ghost predicate IsTimeQuery(query: map<string, string>, sinceAfter: Option<int>, since: Option<int>,
                              to: Option<int>, limit: Option<int>, toIso: int -> string)
  {
    && query.Keys <= {"sinceAfter", "since", "to", "limit"}
    && ("sinceAfter" in query <==> sinceAfter.Some?)
    && ("since" in query <==> since.Some?)
    && ("to" in query <==> to.Some?)
    && ("limit" in query <==> Truthy(limit))
    && (sinceAfter.Some? ==> query["sinceAfter"] == toIso(sinceAfter.value))
    && (since.Some? ==> query["since"] == toIso(since.value))
    && (to.Some? ==> query["to"] == toIso(to.value))
    && (Truthy(limit) ==> query["limit"] == Decimal.IntToString(limit.value))
  }

  /** The description above fixes the query completely. */
  lemma TimeQueryUnique(q1: map<string, string>, q2: map<string, string>, sinceAfter: Option<int>,
                        since: Option<int>, to: Option<int>, limit: Option<int>, toIso: int -> string)
    requires IsTimeQuery(q1, sinceAfter, since, to, limit, toIso)
    requires IsTimeQuery(q2, sinceAfter, since, to, limit, toIso)
    ensures q1 == q2
  {
    assert q1.Keys == q2.Keys;
  }

  /** The query record of a time-filtered read, filled field by field with
      one conditional assignment per parameter. */
  method BuildQuery(sinceAfter: Option<int>, since: Option<int>, to: Option<int>, limit: Option<int>,
                    toIso: int -> string)
    returns (query: map<string, string>)
    ensures IsTimeQuery(query, sinceAfter, since, to, limit, toIso)
  {
    query := map[];
    if sinceAfter.Some? {
      query := query["sinceAfter" := toIso(sinceAfter.value)];
    }
    if since.Some? {
      query := query["since" := toIso(since.value)];
    }
    if to.Some? {
      query := query["to" := toIso(to.value)];
    }
    if limit.Some? && limit.value != 0 {
      query := query["limit" := Decimal.IntToString(limit.value)];
    }
  }

  /** `response.data?.data ?? []` under the promise's `catch`, which rethrows:
      the payload list, or the empty list when it is absent. */
  function ListOrEmpty<T>(reply: Reply<seq<T>>): (r: Result<seq<T>, ApiError>)
    ensures reply.Failure? ==> r == Failure(reply.error)
    ensures reply.Success? && Payload(reply.value).Some? ==> r == Success(Payload(reply.value).value)
    ensures reply.Success? && Payload(reply.value).None? ==> r == Success([])
  {
    match reply
    case Failure(e) => Failure(e)
    case Success(body) =>
      match Payload(body)
      case Some(items) => Success(items)
      case None => Success([])
  }

  /** `Object.keys(response.data?.data ?? {})`: the keys of the payload
      object, or none when it is absent. */
  function KeysOrEmpty<V>(reply: Reply<map<string, V>>): (r: Result<set<string>, ApiError>)
    ensures reply.Failure? ==> r == Failure(reply.error)
    ensures reply.Success? && Payload(reply.value).Some? ==> r == Success(Payload(reply.value).value.Keys)
    ensures reply.Success? && Payload(reply.value).None? ==> r == Success({})
  {
    match reply
    case Failure(e) => Failure(e)
    case Success(body) =>
      match Payload(body)
      case Some(entries) => Success(entries.Keys)
      case None => Success({})
  }
}
