/** The shared HTTP client every tool goes through: header construction,
    response classification, and the control-plane and data-plane request
    builders with their argument validation and method dispatch.

    The network and `urljoin` are not evaluated: the network is a parameter
    `net` mapping the request sent to what came back, and a URL is recorded as
    the `urljoin` application that produces it. */
module OpenApiClient {
  import opened Results
  import opened Assoc
  import opened Json
  import opened Errors
  import opened Text

  /** The resolved settings the client reads. */
  datatype Config = Config(
    cloudUri: string,
    clusterEndpoint: string,
    token: string,
    freeClusterRegion: string)

  datatype HttpMethod = GET | POST | DELETE

  function MethodName(m: HttpMethod): string
  {
    match m
    case GET => "GET"
    case POST => "POST"
    case DELETE => "DELETE"
  }

  /** The absolute URL `urljoin(base, reference)` resolves to. Reference
      resolution (section 5.2 of RFC 3986) is library code and is not modelled. */
  datatype Url = UrlJoin(base: string, reference: string)

  /** One outgoing HTTP request: the body is the JSON payload, if any. */
  datatype Request = Request(
    verb: HttpMethod,
    url: Url,
    params: Option<Json>,
    body: Option<Json>,
    headers: seq<(string, string)>)

  /** A received response. `statusReport` is the text `raise_for_status` would
      raise with; `decoded` is what `response.json()` would return or the text of
      the `ValueError` it would raise. */
  datatype HttpResponse = HttpResponse(
    status: int,
    statusReport: string,
    content: seq<byte>,
    decoded: Result<Json, string>)

  /** What the network did with a request. */
  datatype Exchange = Failed(reason: string) | Answered(response: HttpResponse)

  type Network = Request -> Exchange

  const JsonMediaType := "application/json"
  const DefaultBusinessMessage := "Unknown business error"
  const UriRequired := "uri is required and cannot be empty"
  const ClusterIdRequired := "cluster_id is required and cannot be empty"
  const RegionIdRequired := "region_id is required and cannot be empty"
  const ClusterIdPlaceholder := "{CLUSTER_ID}"
  const RegionPlaceholder := "{CLOUD_REGION}"

  /** `_get_headers()`: JSON accept and content type always, and a bearer
      credential exactly when a token is configured. */
  function Headers(token: string): (h: seq<(string, string)>)
    ensures DistinctKeys(h)
    ensures Lookup(h, "accept") == Some(JsonMediaType)
    ensures Lookup(h, "content-type") == Some(JsonMediaType)
    ensures Lookup(h, "Authorization") == (if token != "" then Some("Bearer " + token) else None)
    ensures forall k :: k in Keys(h) ==> k == "accept" || k == "content-type" || k == "Authorization"
  {
    var base := [("accept", JsonMediaType), ("content-type", JsonMediaType)];
    if token != "" then
      var h := base + [("Authorization", "Bearer " + token)];
      LookupAt(h, 2);
      h
    else base
  }

  /** `raise_for_status()` raises for the client-error and server-error classes. */
  predicate IsErrorStatus(status: int)
  {
    400 <= status < 600
  }

  /** `code != 0` is false: Python's `False == 0` makes `false` a zero code too. */
  predicate IsZeroCode(code: Json)
  {
    code == JNum(0) || code == JBool(false)
  }

  /** The business code is present and not zero. */
  predicate HasFailureCode(ms: seq<(string, Json)>)
  {
    "code" in Keys(ms) && !IsZeroCode(GetOr(ms, "code", JNull))
  }

  /** `str(json_data.get('message', 'Unknown business error'))`. */
  function BusinessMessage(ms: seq<(string, Json)>): string
  {
    PyStr(GetOr(ms, "message", JStr(DefaultBusinessMessage)))
  }

  /** `_parse_response(response)`. An empty body is an empty object whatever
      else holds; a body that does not decode is a parse error; an object with a
      non-zero code is a business error; otherwise the decoded value itself. */
  function ParseResponse(response: HttpResponse): (r: Result<Json, Error>)
    ensures |response.content| == 0 ==> r == Ok(JObj([]))
    ensures |response.content| > 0 && response.decoded.Err? ==>
      r.Err? && Message(r.error) == "Failed to parse response as JSON: " + response.decoded.error
    ensures |response.content| > 0 && response.decoded.Ok? && response.decoded.value.JObj? ==>
      var ms := response.decoded.value.members;
      && (r.Err? <==> HasFailureCode(ms))
      && (r.Err? ==> (Message(r.error) == "Business error: " +
            (if "message" in Keys(ms) then PyStr(GetOr(ms, "message", JNull)) else DefaultBusinessMessage)))
      && (r.Ok? ==> r.value == response.decoded.value)
    ensures r.Ok? ==> |response.content| == 0 || response.decoded == Ok(r.value)
  {
    if |response.content| == 0 then Ok(JObj([]))
    else
      match response.decoded
      case Err(detail) => Err(Unparseable(detail))
      case Ok(value) =>
        if value.JObj? && HasFailureCode(value.members) then Err(Business(BusinessMessage(value.members)))
        else Ok(value)
  }

  /** The common tail of `get`, `post` and `delete`: `raise_for_status()` first,
      `_parse_response` only after it. */
  function Receive(exchange: Exchange): (r: Result<Json, Error>)
    ensures exchange.Failed? ==> r == Err(Transport(exchange.reason))
    ensures exchange.Answered? && IsErrorStatus(exchange.response.status) ==>
      r == Err(HttpStatus(exchange.response.status, exchange.response.statusReport))
    ensures exchange.Answered? && !IsErrorStatus(exchange.response.status) ==>
      r == ParseResponse(exchange.response)
  {
    match exchange
    case Failed(reason) => Err(Transport(reason))
    case Answered(response) =>
      if IsErrorStatus(response.status) then Err(HttpStatus(response.status, response.statusReport))
      else ParseResponse(response)
  }

  /** An error status decides the outcome before the body is looked at: two
      responses with the same error status fail identically, whatever they carry,
      `{"code": 0}` included. */
  lemma StatusCheckedBeforeBody(a: HttpResponse, b: HttpResponse)
    requires IsErrorStatus(a.status)
    requires a.status == b.status && a.statusReport == b.statusReport
    ensures Receive(Answered(a)) == Receive(Answered(b))
    ensures Receive(Answered(a)).Err? && Receive(Answered(a)).error.HttpStatus?
  {
  }

  /** The request `get(url, params_map)` sends. */
  function GetRequest(token: string, url: Url, params: Option<Json>): Request
  {
    Request(GET, url, params, None, Headers(token))
  }

  /** The request `post(url, params_map, body_map)` sends. */
  function PostRequest(token: string, url: Url, params: Option<Json>, body: Option<Json>): Request
  {
    Request(POST, url, params, body, Headers(token))
  }

  /** The request `delete(url, params_map)` sends. */
  function DeleteRequest(token: string, url: Url, params: Option<Json>): Request
  {
    Request(DELETE, url, params, None, Headers(token))
  }

  /** `get`, `post` and `delete` once their request is built: send it and receive. */
  function Send(net: Network, request: Request): Result<Json, Error>
  {
    Receive(net(request))
  }

  /** The `method.upper() == ...` chain: which HTTP method a spelling selects. */
  function ParseMethod(verb: string): (m: Option<HttpMethod>)
    ensures m.Some? <==> (EqualIgnoringCase(verb, "GET") || EqualIgnoringCase(verb, "POST")
                          || EqualIgnoringCase(verb, "DELETE"))
    ensures m.Some? ==> EqualIgnoringCase(verb, MethodName(m.value))
  {
    var u := Upper(verb);
    UpperEqIffEqualIgnoringCase(verb, "GET");
    UpperEqIffEqualIgnoringCase(verb, "POST");
    UpperEqIffEqualIgnoringCase(verb, "DELETE");
    assert Upper("GET") == "GET" && Upper("POST") == "POST" && Upper("DELETE") == "DELETE";
    if u == "GET" then Some(GET)
    else if u == "POST" then Some(POST)
    else if u == "DELETE" then Some(DELETE)
    else None
  }

  /** The canonical upper-case spellings select their methods. */
  lemma ParsesMethodNames()
    ensures ParseMethod("GET") == Some(GET)
    ensures ParseMethod("POST") == Some(POST)
    ensures ParseMethod("DELETE") == Some(DELETE)
  {
    assert Upper("GET") == "GET" && Upper("POST") == "POST" && Upper("DELETE") == "DELETE";
  }

  /** The dispatch both request builders share: the request `get`, `post` or
      `delete` would send, or `ValueError("Unsupported method: ...")` quoting the
      method as the caller spelled it. Only `post` forwards the body. */
  function Dispatch(token: string, url: Url, params: Option<Json>, body: Option<Json>, verb: string)
    : (r: Result<Request, Error>)
    ensures r.Ok? <==> ParseMethod(verb).Some?
    ensures r.Err? ==> r.error == InvalidArgument("Unsupported method: " + verb)
    ensures r.Ok? ==> && r.value.verb == ParseMethod(verb).value
                      && r.value.url == url
                      && r.value.params == params
                      && r.value.headers == Headers(token)
                      && r.value.body == (if r.value.verb == POST then body else None)
  {
    match ParseMethod(verb)
    case Some(GET) => Ok(GetRequest(token, url, params))
    case Some(POST) => Ok(PostRequest(token, url, params, body))
    case Some(DELETE) => Ok(DeleteRequest(token, url, params))
    case None => Err(InvalidArgument("Unsupported method: " + verb))
  }

  /** The request `control_plane_api_request` sends: the uri is validated before
      anything else, then joined onto the configured cloud URI, then dispatched. */
  function ControlPlaneRequest(config: Config, uri: string, params: Option<Json>, body: Option<Json>,
                               verb: string): (r: Result<Request, Error>)
    ensures Blank(uri) ==> r == Err(InvalidArgument(UriRequired))
    ensures r.Ok? <==> !Blank(uri) && ParseMethod(verb).Some?
    ensures !Blank(uri) && r.Err? ==> r.error == InvalidArgument("Unsupported method: " + verb)
    ensures r.Ok? ==> && r.value.verb == ParseMethod(verb).value
                      && r.value.url == UrlJoin(config.cloudUri, uri)
                      && r.value.params == params
                      && r.value.headers == Headers(config.token)
                      && r.value.body == (if r.value.verb == POST then body else None)
  {
    if Blank(uri) then Err(InvalidArgument(UriRequired))
    else Dispatch(config.token, UrlJoin(config.cloudUri, uri), params, body, verb)
  }

  /** `control_plane_api_request(uri, params_map, body_map, method)`. */
  function ControlPlaneApiRequest(config: Config, net: Network, uri: string, params: Option<Json>,
                                  body: Option<Json>, verb: string): (r: Result<Json, Error>)
    ensures ControlPlaneRequest(config, uri, params, body, verb).Err? ==>
      r == Err(ControlPlaneRequest(config, uri, params, body, verb).error)
    ensures ControlPlaneRequest(config, uri, params, body, verb).Ok? ==>
      r == Receive(net(ControlPlaneRequest(config, uri, params, body, verb).value))
    ensures r.Ok? ==> var req := ControlPlaneRequest(config, uri, params, body, verb);
      req.Ok? && net(req.value).Answered? && !IsErrorStatus(net(req.value).response.status)
  {
    var request :- ControlPlaneRequest(config, uri, params, body, verb);
    Send(net, request)
  }

  /** The outcome depends on the network only through its answer to the one
      request the builder produces. */
  lemma ControlPlaneSendsOnly(config: Config, net1: Network, net2: Network, uri: string,
                              params: Option<Json>, body: Option<Json>, verb: string)
    requires ControlPlaneRequest(config, uri, params, body, verb).Ok? ==>
      net1(ControlPlaneRequest(config, uri, params, body, verb).value)
      == net2(ControlPlaneRequest(config, uri, params, body, verb).value)
    ensures ControlPlaneApiRequest(config, net1, uri, params, body, verb)
         == ControlPlaneApiRequest(config, net2, uri, params, body, verb)
  {
  }

  /** A blank uri fails the same way whatever the network, method or body:
      no request is built, let alone sent. */
  lemma ControlPlaneValidatesFirst(config: Config, net1: Network, net2: Network, uri: string,
                                   params: Option<Json>, body1: Option<Json>, body2: Option<Json>,
                                   verb1: string, verb2: string)
    requires Blank(uri)
    ensures ControlPlaneApiRequest(config, net1, uri, params, body1, verb1)
         == ControlPlaneApiRequest(config, net2, uri, params, body2, verb2)
         == Err(InvalidArgument(UriRequired))
  {
  }

  /** `config.cluster_endpoint.replace("{CLUSTER_ID}", cluster_id).replace("{CLOUD_REGION}", region_id)`. */
  function ClusterEndpoint(template: string, clusterId: string, regionId: string): string
  {
    ReplaceAll(ReplaceAll(template, ClusterIdPlaceholder, clusterId), RegionPlaceholder, regionId)
  }

  /** The endpoint is the template cut at every cluster placeholder and glued with
      the cluster id, that result cut at every region placeholder and glued with the
      region id; no cut piece holds its placeholder. A template with neither
      placeholder is used as it stands. */
  lemma ClusterEndpointSubstitutes(template: string, clusterId: string, regionId: string)
    ensures var first := Join(Split(template, ClusterIdPlaceholder), clusterId);
      ClusterEndpoint(template, clusterId, regionId) == Join(Split(first, RegionPlaceholder), regionId)
    ensures forall k :: 0 <= k < |Split(template, ClusterIdPlaceholder)| ==>
      !Contains(Split(template, ClusterIdPlaceholder)[k], ClusterIdPlaceholder)
    ensures var first := Join(Split(template, ClusterIdPlaceholder), clusterId);
      forall k :: 0 <= k < |Split(first, RegionPlaceholder)| ==>
        !Contains(Split(first, RegionPlaceholder)[k], RegionPlaceholder)
    ensures !Contains(template, ClusterIdPlaceholder) && !Contains(template, RegionPlaceholder) ==>
      ClusterEndpoint(template, clusterId, regionId) == template
  {
    ReplaceIsJoinOfSplit(template, ClusterIdPlaceholder, clusterId);
    var first := ReplaceAll(template, ClusterIdPlaceholder, clusterId);
    ReplaceIsJoinOfSplit(first, RegionPlaceholder, regionId);
    SplitPiecesFree(template, ClusterIdPlaceholder);
    SplitPiecesFree(first, RegionPlaceholder);
    if !Contains(template, ClusterIdPlaceholder) && !Contains(template, RegionPlaceholder) {
      ReplaceAbsent(template, ClusterIdPlaceholder, clusterId);
      ReplaceAbsent(template, RegionPlaceholder, regionId);
    }
  }

  /** The request `data_plane_api_request` sends. uri, then cluster_id, then
      region_id are checked; the first blank one names the error. */
  function DataPlaneRequest(config: Config, uri: string, clusterId: string, regionId: string,
                            params: Option<Json>, body: Option<Json>, verb: string)
    : (r: Result<Request, Error>)
    ensures Blank(uri) ==> r == Err(InvalidArgument(UriRequired))
    ensures !Blank(uri) && Blank(clusterId) ==> r == Err(InvalidArgument(ClusterIdRequired))
    ensures !Blank(uri) && !Blank(clusterId) && Blank(regionId) ==> r == Err(InvalidArgument(RegionIdRequired))
    ensures r.Ok? <==> !Blank(uri) && !Blank(clusterId) && !Blank(regionId) && ParseMethod(verb).Some?
    ensures !Blank(uri) && !Blank(clusterId) && !Blank(regionId) && r.Err? ==>
      r.error == InvalidArgument("Unsupported method: " + verb)
    ensures r.Ok? ==> && r.value.verb == ParseMethod(verb).value
                      && r.value.url == UrlJoin(ClusterEndpoint(config.clusterEndpoint, clusterId, regionId), uri)
                      && r.value.params == params
                      && r.value.headers == Headers(config.token)
                      && r.value.body == (if r.value.verb == POST then body else None)
  {
    if Blank(uri) then Err(InvalidArgument(UriRequired))
    else if Blank(clusterId) then Err(InvalidArgument(ClusterIdRequired))
    else if Blank(regionId) then Err(InvalidArgument(RegionIdRequired))
    else
      var endpoint := ClusterEndpoint(config.clusterEndpoint, clusterId, regionId);
      Dispatch(config.token, UrlJoin(endpoint, uri), params, body, verb)
  }

  /** `data_plane_api_request(uri, cluster_id, region_id, params_map, body_map, method)`. */
  function DataPlaneApiRequest(config: Config, net: Network, uri: string, clusterId: string,
                               regionId: string, params: Option<Json>, body: Option<Json>,
                               verb: string): (r: Result<Json, Error>)
    ensures DataPlaneRequest(config, uri, clusterId, regionId, params, body, verb).Err? ==>
      r == Err(DataPlaneRequest(config, uri, clusterId, regionId, params, body, verb).error)
    ensures DataPlaneRequest(config, uri, clusterId, regionId, params, body, verb).Ok? ==>
      r == Receive(net(DataPlaneRequest(config, uri, clusterId, regionId, params, body, verb).value))
    ensures r.Ok? ==> var req := DataPlaneRequest(config, uri, clusterId, regionId, params, body, verb);
      req.Ok? && net(req.value).Answered? && !IsErrorStatus(net(req.value).response.status)
  {
    var request :- DataPlaneRequest(config, uri, clusterId, regionId, params, body, verb);
    Send(net, request)
  }

  /** The outcome depends on the network only through its answer to the one
      request the builder produces. */
  lemma DataPlaneSendsOnly(config: Config, net1: Network, net2: Network, uri: string, clusterId: string,
                           regionId: string, params: Option<Json>, body: Option<Json>, verb: string)
    requires DataPlaneRequest(config, uri, clusterId, regionId, params, body, verb).Ok? ==>
      net1(DataPlaneRequest(config, uri, clusterId, regionId, params, body, verb).value)
      == net2(DataPlaneRequest(config, uri, clusterId, regionId, params, body, verb).value)
    ensures DataPlaneApiRequest(config, net1, uri, clusterId, regionId, params, body, verb)
         == DataPlaneApiRequest(config, net2, uri, clusterId, regionId, params, body, verb)
  {
  }

  /** With all three arguments present, a data-plane POST sends the given body
      and query to the uri joined onto the cluster's substituted endpoint. */
  lemma DataPlanePost(config: Config, uri: string, clusterId: string, regionId: string,
                      params: Option<Json>, body: Option<Json>)
    requires !Blank(uri) && !Blank(clusterId) && !Blank(regionId)
    ensures DataPlaneRequest(config, uri, clusterId, regionId, params, body, "POST")
         == Ok(PostRequest(config.token, UrlJoin(ClusterEndpoint(config.clusterEndpoint, clusterId, regionId), uri),
                           params, body))
  {
    ParsesMethodNames();
  }

  /** Each blank argument is reported by its own message, in the order uri,
      cluster id, region id, before anything is sent. */
  lemma DataPlaneRejectsBlank(config: Config, net: Network, uri: string, clusterId: string, regionId: string,
                              params: Option<Json>, body: Option<Json>, verb: string)
    requires Blank(uri) || Blank(clusterId) || Blank(regionId)
    ensures DataPlaneApiRequest(config, net, uri, clusterId, regionId, params, body, verb)
         == Err(InvalidArgument(if Blank(uri) then UriRequired
                                else if Blank(clusterId) then ClusterIdRequired
                                else RegionIdRequired))
  {
  }

  /** Once an argument is found blank, the arguments after it are not examined. */
  lemma DataPlaneValidationOrder(config: Config, net: Network, uri: string,
                                 clusterId1: string, clusterId2: string,
                                 regionId1: string, regionId2: string,
                                 params: Option<Json>, body: Option<Json>, verb: string)
    ensures Blank(uri) ==>
      DataPlaneApiRequest(config, net, uri, clusterId1, regionId1, params, body, verb)
      == DataPlaneApiRequest(config, net, uri, clusterId2, regionId2, params, body, verb)
    ensures !Blank(uri) && Blank(clusterId1) ==>
      DataPlaneApiRequest(config, net, uri, clusterId1, regionId1, params, body, verb)
      == DataPlaneApiRequest(config, net, uri, clusterId1, regionId2, params, body, verb)
  {
  }

  /** Only POST sends the body: for any other method the body argument makes no
      difference, and a POST sends exactly the body it was given. */
  lemma BodyOnlyForPost(config: Config, net: Network, uri: string, params: Option<Json>,
                        body1: Option<Json>, body2: Option<Json>, verb: string)
    ensures ParseMethod(verb) != Some(POST) ==>
      ControlPlaneApiRequest(config, net, uri, params, body1, verb)
      == ControlPlaneApiRequest(config, net, uri, params, body2, verb)
    ensures ParseMethod(verb) == Some(POST) && !Blank(uri) ==>
      ControlPlaneApiRequest(config, net, uri, params, body1, verb)
      == Send(net, PostRequest(config.token, UrlJoin(config.cloudUri, uri), params, body1))
  {
  }

  /** The data plane forwards the body the same way: for any other method than
      POST the body argument makes no difference, and with all three arguments
      present a POST sends exactly the body it was given. */
  lemma DataPlaneBodyOnlyForPost(config: Config, net: Network, uri: string, clusterId: string, regionId: string,
                                 params: Option<Json>, body1: Option<Json>, body2: Option<Json>, verb: string)
    ensures ParseMethod(verb) != Some(POST) ==>
      DataPlaneApiRequest(config, net, uri, clusterId, regionId, params, body1, verb)
      == DataPlaneApiRequest(config, net, uri, clusterId, regionId, params, body2, verb)
    ensures ParseMethod(verb) == Some(POST) && !Blank(uri) && !Blank(clusterId) && !Blank(regionId) ==>
      DataPlaneApiRequest(config, net, uri, clusterId, regionId, params, body1, verb)
      == Send(net, PostRequest(config.token, UrlJoin(ClusterEndpoint(config.clusterEndpoint, clusterId, regionId), uri),
                               params, body1))
  {
  }
}
