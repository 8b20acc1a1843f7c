/**
 * The generic request executor: URL construction, the zero-body rule, the Content-Type
 * default, the strict 200 check and the choice of decode target by declared response kind.
 * `DoRequest` is the imperative procedure; `Execute` is the function that specifies it.
 */
module ApiRequests {
  import opened Results
  import opened Values
  import opened Http

  const ContentType := "Content-Type"
  const ApplicationJson := "application/json"
  const BaseUrlRequired: Error := "ApiRequest.Config.BaseURL is required"

  const NonOkPrefix := "Non-OK HTTP status: "

  /**
   * The error for any status other than 200: a fixed prefix, then the status line
   * (e.g. "400 Bad Request") unchanged.
   */
  function NonOkStatus(status: string): (e: Error)
    ensures NonOkPrefix <= e && e[|NonOkPrefix|..] == status
  {
    NonOkPrefix + status
  }

  /** A handle on a structured logger; logging never affects control flow. */
  datatype Logger = Logger(id: nat)

  datatype ApiRequestConfig = ApiRequestConfig(baseURL: string, logger: Option<Logger>)

  /** A Go `map[string]string` of headers: a reference, so an update is seen by everyone holding it. */
  class HeaderMap {
    var entries: map<string, string>

    constructor (entries: map<string, string>)
      ensures this.entries == entries
    {
      this.entries := entries;
    }
  }

  /** `ApiRequest`: `headers == null` is a nil map and `config == None` a nil config pointer. */
  datatype ApiRequest = ApiRequest(
    verb: string,
    endpoint: string,
    headers: HeaderMap?,
    body: Value,
    config: Option<ApiRequestConfig>)

  /** The value of an `ApiRequest` at one moment: the header map by its contents (None when nil). */
  datatype RequestSpec = RequestSpec(
    verb: string,
    endpoint: string,
    headers: Option<map<string, string>>,
    body: Value,
    config: Option<ApiRequestConfig>)

  function SpecOf(req: ApiRequest): RequestSpec
    reads req.headers
  {
    RequestSpec(req.verb, req.endpoint,
                if req.headers == null then None else Some(req.headers.entries),
                req.body, req.config)
  }

  /** encoding/json: `marshal` may fail; `unmarshal(data, target)` returns the target as filled in, and the decode error if any. */
  datatype Json = Json(
    marshal: Value -> Result<Bytes>,
    unmarshal: (Bytes, Value) -> (Value, Option<Error>))

  predicate Configured(config: Option<ApiRequestConfig>)
  {
    config.Some? && config.value.baseURL != ""
  }

  /**
   * `GetUrl`: empty when there is no usable base URL, otherwise the base URL, one slash and
   * the endpoint, with no slash added or removed on either side.
   */
  function GetUrl(config: Option<ApiRequestConfig>, endpoint: string): (url: string)
    ensures url == "" <==> !Configured(config)
    ensures Configured(config) ==>
      var base := config.value.baseURL;
      && |url| == |base| + 1 + |endpoint|
      && url[..|base|] == base
      && url[|base|] == '/'
      && url[|base| + 1..] == endpoint
  {
    if !Configured(config) then "" else config.value.baseURL + "/" + endpoint
  }

  /**
   * The payload of a request body: none at all when the body is its type's zero value,
   * otherwise the marshalled bytes, or the marshalling error.
   */
  function EncodeBody(body: Value, marshal: Value -> Result<Bytes>): (r: Result<Option<Bytes>>)
    ensures r == Success(None) <==> IsZero(body)
    ensures r.Failure? ==> !IsZero(body) && marshal(body) == Failure(r.error)
    ensures r.Success? && r.value.Some? ==> marshal(body) == Success(r.value.value)
  {
    if IsZero(body) then Success(None)
    else match marshal(body)
      case Failure(e) => Failure(e)
      case Success(data) => Success(Some(data))
  }

  /**
   * The headers that go out: the caller's headers (a nil map counts as empty) plus
   * "Content-Type: application/json" when the exact key "Content-Type" is absent.
   */
  function WithDefaultContentType(headers: Option<map<string, string>>): (r: map<string, string>)
    ensures r.Keys == (if headers.Some? then headers.value.Keys else {}) + {ContentType}
    ensures headers.Some? ==> forall k :: k in headers.value ==> r[k] == headers.value[k]
    ensures headers.None? || ContentType !in headers.value ==> r[ContentType] == ApplicationJson
  {
    var m := if headers.Some? then headers.value else map[];
    if ContentType in m then m else m[ContentType := ApplicationJson]
  }

  /** Copies every header into the (initially empty) header map of the outgoing request, one key at a time. */
  method CopyHeaders(src: map<string, string>) returns (dst: map<string, string>)
    ensures dst == src
  {
    dst := map[];
    var pending := src.Keys;
    while pending != {}
      invariant pending <= src.Keys
      invariant dst.Keys == src.Keys - pending
      invariant forall k :: k in dst ==> dst[k] == src[k]
      decreases pending
    {
      var k :| k in pending;
      dst := dst[k := src[k]];
      pending := pending - {k};
    }
  }

  /**
   * The value the response body is decoded into, chosen by the declared response type:
   * a fresh empty map for a map type, a fresh pointer to a fresh empty map for a pointer to
   * a map, and the zero value for anything else.
   */
  function MakeTarget(t: ValueType): (target: Value)
    ensures HasType(target, t)
    ensures t == MapType ==> target == Map(map[])
    ensures t == PointerType(MapType) ==> target == Pointer(Map(map[]))
    ensures t != MapType && t != PointerType(MapType) ==> target == ZeroOf(t)
  {
    ZeroOfIsZero(t);
    match t
    case MapType => Map(map[])
    case PointerType(MapType) => Pointer(Map(map[]))
    case _ => ZeroOf(t)
  }

  /** One run of the executor: what it returns, and the request it sent, if it got that far. */
  datatype Exchange = Exchange(resp: Value, err: Option<Error>, sent: Option<Request>)

  function SentList(x: Exchange): seq<Request>
  {
    if x.sent.Some? then [x.sent.value] else []
  }

  /**
   * The executor as a function of the request, the declared response type, the codec, the
   * network and the number of requests the network has already seen.
   */
  function Execute(spec: RequestSpec, respType: ValueType, json: Json, net: Net, n: nat): (x: Exchange)
    // the configuration guard comes first: nothing is encoded, built or sent
    ensures !Configured(spec.config) ==> x == Exchange(ZeroOf(respType), Some(BaseUrlRequired), None)
    // whenever a call fails before decoding, the result is the zero response
    ensures x.sent.None? ==> x.err.Some? && x.resp == ZeroOf(respType)
    // what is sent: the joined URL, the defaulted headers, and a payload exactly when the body is not zero
    ensures x.sent.Some? ==>
      && Configured(spec.config)
      && x.sent.value.verb == spec.verb
      && x.sent.value.url == GetUrl(spec.config, spec.endpoint)
      && x.sent.value.headers == WithDefaultContentType(spec.headers)
      && (x.sent.value.body.None? <==> IsZero(spec.body))
      && (x.sent.value.body.Some? ==> json.marshal(spec.body) == Success(x.sent.value.body.value))
    // a body that cannot be marshalled stops the call before anything is sent
    ensures Configured(spec.config) && EncodeBody(spec.body, json.marshal).Failure? ==>
      x == Exchange(ZeroOf(respType), Some(EncodeBody(spec.body, json.marshal).error), None)
    // a configured, encodable request is sent exactly when http.NewRequest accepts its method and URL
    ensures Configured(spec.config) && EncodeBody(spec.body, json.marshal).Success? ==>
      var url := GetUrl(spec.config, spec.endpoint);
      && (net.newRequestError(spec.verb, url).Some? ==>
            x == Exchange(ZeroOf(respType), net.newRequestError(spec.verb, url), None))
      && (net.newRequestError(spec.verb, url).None? ==>
            x.sent == Some(Request(spec.verb, url, WithDefaultContentType(spec.headers),
                                   EncodeBody(spec.body, json.marshal).value)))
    // success only after a 200 reply
    ensures x.err.None? ==>
      x.sent.Some? && net.respond(n, x.sent.value).Response? && net.respond(n, x.sent.value).statusCode == 200
    // a transport failure or any other status gives the zero response and an error, and nothing is decoded
    ensures x.sent.Some? && net.respond(n, x.sent.value).TransportError? ==>
      x.resp == ZeroOf(respType) && x.err == Some(net.respond(n, x.sent.value).error)
    ensures x.sent.Some? && net.respond(n, x.sent.value).Response? && net.respond(n, x.sent.value).statusCode != 200 ==>
      x.resp == ZeroOf(respType) && x.err == Some(NonOkStatus(net.respond(n, x.sent.value).status))
    // a 200 whose body cannot be read gives the zero response and the read error
    ensures x.sent.Some? && net.respond(n, x.sent.value).Response? && net.respond(n, x.sent.value).statusCode == 200
            && net.respond(n, x.sent.value).body.Failure? ==>
      x.resp == ZeroOf(respType) && x.err == Some(net.respond(n, x.sent.value).body.error)
    // after a 200 with a readable body, the decoder's result and error are returned unchanged
    ensures x.sent.Some? && net.respond(n, x.sent.value).Response? && net.respond(n, x.sent.value).statusCode == 200
            && net.respond(n, x.sent.value).body.Success? ==>
      (x.resp, x.err) == json.unmarshal(net.respond(n, x.sent.value).body.value, MakeTarget(respType))
  {
    var zero := ZeroOf(respType);
    if !Configured(spec.config) then
      Exchange(zero, Some(BaseUrlRequired), None)
    else
      match EncodeBody(spec.body, json.marshal)
      case Failure(e) => Exchange(zero, Some(e), None)
      case Success(payload) => Dispatch(spec, payload, respType, json, net, n)
  }

  /** A configured request whose body encoded to `payload`: build it, send it, and receive the reply. */
  function Dispatch(spec: RequestSpec, payload: Option<Bytes>, respType: ValueType, json: Json, net: Net, n: nat): (x: Exchange)
    ensures x.sent.None? <==> net.newRequestError(spec.verb, GetUrl(spec.config, spec.endpoint)).Some?
    ensures x.sent.None? ==>
      x == Exchange(ZeroOf(respType), net.newRequestError(spec.verb, GetUrl(spec.config, spec.endpoint)), None)
    ensures x.sent.Some? ==>
      && x.sent.value == Request(spec.verb, GetUrl(spec.config, spec.endpoint), WithDefaultContentType(spec.headers), payload)
      && x == Receive(x.sent.value, net.respond(n, x.sent.value), respType, json)
  {
    var url := GetUrl(spec.config, spec.endpoint);
    match net.newRequestError(spec.verb, url)
    case Some(e) => Exchange(ZeroOf(respType), Some(e), None)
    case None =>
      var out := Request(spec.verb, url, WithDefaultContentType(spec.headers), payload);
      Receive(out, net.respond(n, out), respType, json)
  }

  /** What `DoRequest` makes of the transport's reply to the request `out` it sent. */
  function Receive(out: Request, reply: Reply, respType: ValueType, json: Json): (x: Exchange)
    ensures x.sent == Some(out)
    ensures x.err.None? ==> reply.Response? && reply.statusCode == 200 && reply.body.Success?
    ensures reply.TransportError? ==> x.resp == ZeroOf(respType) && x.err == Some(reply.error)
    ensures reply.Response? && reply.statusCode != 200 ==>
      x.resp == ZeroOf(respType) && x.err == Some(NonOkStatus(reply.status))
    ensures reply.Response? && reply.statusCode == 200 && reply.body.Failure? ==>
      x.resp == ZeroOf(respType) && x.err == Some(reply.body.error)
    ensures reply.Response? && reply.statusCode == 200 && reply.body.Success? ==>
      (x.resp, x.err) == json.unmarshal(reply.body.value, MakeTarget(respType))
  {
    var zero := ZeroOf(respType);
    match reply
    case TransportError(e) => Exchange(zero, Some(e), Some(out))
    case Response(code, status, body) =>
      if code != 200 then Exchange(zero, Some(NonOkStatus(status)), Some(out))
      else match body
        case Failure(e) => Exchange(zero, Some(e), Some(out))
        case Success(data) =>
          var (decoded, decodeErr) := json.unmarshal(data, MakeTarget(respType));
          Exchange(decoded, decodeErr, Some(out))
  }

  /**
   * `ApiRequest.DoRequest`. Besides what `Execute` describes, when the request gets as far
   * as being sent and the caller's (non-nil) header map has no "Content-Type", the default
   * is written into that map itself, where the caller sees it.
   */
  method DoRequest(req: ApiRequest, respType: ValueType, json: Json, wire: Network) returns (resp: Value, err: Option<Error>)
    modifies wire, req.headers
    ensures var x := Execute(old(SpecOf(req)), respType, json, wire.net, |old(wire.sent)|);
      && resp == x.resp && err == x.err
      && wire.sent == old(wire.sent) + SentList(x)
      && (req.headers != null ==>
            req.headers.entries ==
              if x.sent.Some? then WithDefaultContentType(Some(old(req.headers.entries)))
              else old(req.headers.entries))
  {
    var zero := ZeroOf(respType);
    ghost var spec := SpecOf(req);
    ghost var x := Execute(spec, respType, json, wire.net, |wire.sent|);
    if req.config.None? || req.config.value.baseURL == "" {
      return zero, Some(BaseUrlRequired);
    }

    var payload: Option<Bytes> := None;
    if !IsZero(req.body) {
      var data := json.marshal(req.body);
      if data.Failure? {
        assert x == Exchange(zero, Some(data.error), None);
        return zero, Some(data.error);
      }
      payload := Some(data.value);
    }
    assert EncodeBody(spec.body, json.marshal) == Success(payload);
    resp, err := Transmit(req, payload, respType, json, wire);
  }

  /**
   * The part of `DoRequest` after the body is encoded: build the request (which may fail),
   * default the Content-Type in the caller's header map, copy the headers over and send.
   */
  method Transmit(req: ApiRequest, payload: Option<Bytes>, respType: ValueType, json: Json, wire: Network)
    returns (resp: Value, err: Option<Error>)
    modifies wire, req.headers
    ensures var x := Dispatch(old(SpecOf(req)), payload, respType, json, wire.net, |old(wire.sent)|);
      && resp == x.resp && err == x.err
      && wire.sent == old(wire.sent) + SentList(x)
      && (req.headers != null ==>
            req.headers.entries ==
              if x.sent.Some? then WithDefaultContentType(Some(old(req.headers.entries)))
              else old(req.headers.entries))
  {
    var url := GetUrl(req.config, req.endpoint);
    var requestError := wire.net.newRequestError(req.verb, url);
    if requestError.Some? {
      return ZeroOf(respType), requestError;
    }
    var outgoing := PrepareHeaders(req.headers);
    var httpReq := Request(req.verb, url, outgoing, payload);
    resp, err := ReadReply(httpReq, respType, json, wire);
  }

  /**
   * The header step of `DoRequest`: a nil map is replaced by a new one, "Content-Type:
   * application/json" is written into the map (the caller's own, when it has one) unless a
   * Content-Type is already there, and the map is copied into the outgoing request.
   */
  method PrepareHeaders(headers: HeaderMap?) returns (outgoing: map<string, string>)
    modifies headers
    ensures outgoing == WithDefaultContentType(if headers == null then None else Some(old(headers.entries)))
    ensures headers != null ==> headers.entries == outgoing
  {
    var h := headers;
    if h == null {
      h := new HeaderMap(map[]);
    }
    if ContentType !in h.entries {
      h.entries := h.entries[ContentType := ApplicationJson];
    }
    outgoing := CopyHeaders(h.entries);
  }

  /** The sending step of `DoRequest`: one transport call, then the status, read and decode steps of `Receive`. */
  method ReadReply(httpReq: Request, respType: ValueType, json: Json, wire: Network) returns (resp: Value, err: Option<Error>)
    modifies wire
    ensures var x := Receive(httpReq, wire.net.respond(|old(wire.sent)|, httpReq), respType, json);
      resp == x.resp && err == x.err && wire.sent == old(wire.sent) + [httpReq]
  {
    var zero := ZeroOf(respType);
    var reply := wire.Do(httpReq);
    if reply.TransportError? {
      return zero, Some(reply.error);
    }
    if reply.statusCode != 200 {
      return zero, Some(NonOkStatus(reply.status));
    }
    if reply.body.Failure? {
      return zero, Some(reply.body.error);
    }
    var target := MakeTarget(respType);
    var (decoded, decodeErr) := json.unmarshal(reply.body.value, target);
    resp, err := decoded, decodeErr;
  }

  /**
   * How encoding/json fills a map-shaped target from a JSON object: the object's pairs are
   * stored into the map. The nil-pointer case stands only for a pointer-to-map target handed
   * over without allocation; `DoRequest` never does that, since for any other pointer type it
   * decodes through the address of its result and `json.Unmarshal` allocates.
   */
  function DecodeObjectInto(target: Value, obj: map<string, Value>): (Value, Option<Error>)
  {
    match target
    case Map(m) => (Map(m + obj), None)
    case Pointer(Map(m)) => (Pointer(Map(m + obj)), None)
    case NilPointer => (target, Some("json: Unmarshal(nil)"))
    case _ => (target, Some("json: cannot unmarshal object"))
  }

  /**
   * For a map or pointer-to-map response type, decoding a JSON object into the prepared
   * target never meets a nil target, and the resulting map holds exactly the object's pairs.
   */
  lemma MapTargetsHoldExactlyTheObject(t: ValueType, obj: map<string, Value>)
    requires t == MapType || t == PointerType(MapType)
    ensures DecodeObjectInto(MakeTarget(t), obj).1 == None
    ensures t == MapType ==> DecodeObjectInto(MakeTarget(t), obj).0 == Map(obj)
    ensures t == PointerType(MapType) ==> DecodeObjectInto(MakeTarget(t), obj).0 == Pointer(Map(obj))
  {
    assert map[] + obj == obj;
  }

  /** The zero value of any declared request type produces no payload at all. */
  lemma {:induction false} ZeroBodyHasNoPayload(t: ValueType, marshal: Value -> Result<Bytes>)
    ensures EncodeBody(ZeroOf(t), marshal) == Success(None)
  {
    ZeroOfIsZero(t);
  }

  /** The package's own URL case: "http://localhost" and "foo/bar" give "http://localhost/foo/bar". */
  lemma GetUrlJoinsBaseAndEndpoint()
    ensures GetUrl(Some(ApiRequestConfig("http://localhost", None)), "foo/bar") == "http://localhost/foo/bar"
  {
  }

  /**
   * The package's own success case: an empty-struct GET to the bare base URL, answered with
   * 200 and the object {"foo": "bar"}, decoded into a pointer to a map, yields a pointer to
   * exactly that map and no error; the zero body means no payload is sent.
   */
  lemma PointerToMapResponseHoldsTheObject(base: string, json: Json, net: Net, n: nat, data: Bytes)
    requires base != ""
    requires net.newRequestError("GET", base + "/") == None
    requires forall r :: net.respond(n, r) == Response(200, "200 OK", Success(data))
    requires forall t :: json.unmarshal(data, t) == DecodeObjectInto(t, map["foo" := Str("bar")])
    ensures var x := Execute(RequestSpec("GET", "", None, Struct([]), Some(ApiRequestConfig(base, None))),
                             PointerType(MapType), json, net, n);
      && x.err == None
      && x.resp == Pointer(Map(map["foo" := Str("bar")]))
      && x.sent.Some? && x.sent.value.body == None
  {
    var config := Some(ApiRequestConfig(base, None));
    assert GetUrl(config, "") == base + "/";
    assert EncodeBody(Struct([]), json.marshal) == Success(None);
    MapTargetsHoldExactlyTheObject(PointerType(MapType), map["foo" := Str("bar")]);
  }
}
