/**
 * The completion proxy of server/index.ts: `findLlm`, and the handler of
 * `POST /mcp/chat/completions`. The handler takes the routing field `llmName`
 * out of the request body, rejects a falsy one (400), resolves it in a freshly
 * loaded registry (404 when no entry has that name), forwards the rest of the
 * body to the entry's endpoint, and relays the upstream status and JSON body,
 * or answers 502 when the call or the parse of its reply fails.
 *
 * The outbound call is an input (`Transport`); the handler's result says what
 * response is sent and which request, if any, is forwarded.
 */
module Proxy {
  import opened Wrappers
  import opened Json
  import Registry

  const RoutingField: string := "llmName"

  const NameRequiredMessage: string := "`llmName` is required"

  const BadGatewayMessage: string := "Failed to reach the configured LLM"

  /** Headers of every forwarded request. */
  const JsonHeaders: map<string, string> := map["Content-Type" := "application/json"]

  /** The body `res.status(...).json({ error: message })` sends. */
  function ErrorBody(message: string): Json
  {
    JObject(map["error" := JString(message)])
  }

  /** The 404 message for a name whose interpolated text is `text`. */
  function NotFoundMessage(text: string): string
  {
    "LLM \"" + text + "\" not found"
  }

  // ---------------------------------------------------------------------------
  // findLlm
  // ---------------------------------------------------------------------------

  /** `e.name` on a registry element that is not `null`; `None` is `undefined`. */
  function NameOf(e: Json): Option<Json>
  {
    if e.JObject? then Get(e.fields, "name") else None
  }

  /** `e.endpoint` on a matched entry; `None` is `undefined`. */
  function EndpointOf(e: Json): Option<Json>
  {
    if e.JObject? then Get(e.fields, "endpoint") else None
  }

  /** The callback `e => e.name === name` returns true for `e`. */
  predicate Matches(e: Json, name: Json)
  {
    NameOf(e).Some? && StrictEquals(NameOf(e).value, name)
  }

  /** The callback returns false for `e` without throwing (`null.name` throws). */
  predicate Passes(e: Json, name: Json)
  {
    !e.JNull? && !Matches(e, name)
  }

  /** What `registry.find(...)` does: returns an element, returns `undefined`, or throws. */
  datatype Lookup =
    | Found(at: nat, entry: Json)
    | NotFound
    | Threw(at: nat)

  /**
   * `registry.find((e) => e.name === name)`: the first element, in registry
   * order, whose `name` strictly equals `name`. The search stops with a
   * TypeError at a `null` element that comes before any match.
   */
  function Find(registry: seq<Json>, name: Json): (r: Lookup)
    ensures r.Found? ==>
      && r.at < |registry| && r.entry == registry[r.at] && Matches(r.entry, name)
      && forall j :: 0 <= j < r.at ==> Passes(registry[j], name)
    ensures r.Threw? ==>
      && r.at < |registry| && registry[r.at].JNull?
      && forall j :: 0 <= j < r.at ==> Passes(registry[j], name)
    ensures r.NotFound? <==> forall j :: 0 <= j < |registry| ==> Passes(registry[j], name)
    decreases |registry|
  {
    if |registry| == 0 then NotFound
    else if registry[0].JNull? then Threw(0)
    else if Matches(registry[0], name) then Found(0, registry[0])
    else
      match Find(registry[1..], name)
      case Found(k, e) => Found(k + 1, e)
      case Threw(k) => Threw(k + 1)
      case NotFound => NotFound
  }

  /** The registry holds no `null` element, so `find` cannot throw on it. */
  predicate NullFree(registry: seq<Json>)
  {
    forall j :: 0 <= j < |registry| ==> !registry[j].JNull?
  }

  /**
   * On a registry without `null` elements the lookup finds an entry exactly
   * when some entry has the name, and the entry it finds comes no later than
   * any other entry with that name.
   */
  lemma FindNullFree(registry: seq<Json>, name: Json)
    requires NullFree(registry)
    ensures !Find(registry, name).Threw?
    ensures Find(registry, name).Found? <==> exists i :: 0 <= i < |registry| && Matches(registry[i], name)
    ensures forall i :: 0 <= i < |registry| && Matches(registry[i], name) ==>
      Find(registry, name).Found? && Find(registry, name).at <= i
  {
  }

  /** A lookup result on a registry, seen from a registry `offset` entries longer in front. */
  function Shift(r: Lookup, offset: nat): Lookup
  {
    match r
    case Found(k, e) => Found(offset + k, e)
    case Threw(k) => Threw(offset + k)
    case NotFound => NotFound
  }

  /** The result on `front + back` expected from the results on each part. */
  function Combine(front: Lookup, back: Lookup, frontLength: nat): Lookup
  {
    if front.NotFound? then Shift(back, frontLength) else front
  }

  /**
   * Entries appended after the one a name resolves to never change the
   * result; a name the front part does not resolve is looked up in the rest.
   */
  lemma {:induction false} FindAppend(front: seq<Json>, back: seq<Json>, name: Json)
    ensures Find(front + back, name) == Combine(Find(front, name), Find(back, name), |front|)
    decreases |front|
  {
    if |front| == 0 {
      assert front + back == back;
    } else if Passes(front[0], name) {
      FindAppend(front[1..], back, name);
      FindAppendSkip(front, back, name);
    } else {
      FindAppendStop(front, back, name);
    }
  }

  lemma FindAppendStop(front: seq<Json>, back: seq<Json>, name: Json)
    requires |front| > 0 && !Passes(front[0], name)
    ensures Find(front + back, name) == Find(front, name)
  {
    assert (front + back)[0] == front[0];
    FindStops(front + back, name);
    FindStops(front, name);
  }

  lemma FindAppendSkip(front: seq<Json>, back: seq<Json>, name: Json)
    requires |front| > 0 && Passes(front[0], name)
    requires Find(front[1..] + back, name) == Combine(Find(front[1..], name), Find(back, name), |front| - 1)
    ensures Find(front + back, name) == Combine(Find(front, name), Find(back, name), |front|)
  {
    var whole := front + back;
    assert whole[0] == front[0];
    assert whole[1..] == front[1..] + back;
    FindSkips(whole, name);
    FindSkips(front, name);
    ShiftCombine(Find(front[1..], name), Find(back, name), |front| - 1);
  }

  lemma ShiftCombine(front: Lookup, back: Lookup, frontLength: nat)
    ensures Shift(Combine(front, back, frontLength), 1) == Combine(Shift(front, 1), back, frontLength + 1)
  {
  }

  /** At an element that is `null` or matches, the search stops. */
  lemma FindStops(registry: seq<Json>, name: Json)
    requires |registry| > 0 && !Passes(registry[0], name)
    ensures Find(registry, name) == if registry[0].JNull? then Threw(0) else Found(0, registry[0])
  {
  }

  /** An element the callback passes over only shifts the result of the rest. */
  lemma FindSkips(registry: seq<Json>, name: Json)
    requires |registry| > 0 && Passes(registry[0], name)
    ensures Find(registry, name) == Shift(Find(registry[1..], name), 1)
  {
  }

  // ---------------------------------------------------------------------------
  // The POST /mcp/chat/completions handler
  // ---------------------------------------------------------------------------

  /**
   * What the awaited `fetch(...)` followed by `llmResponse.json()` produced:
   * the upstream status with its parsed body, or a thrown error (connection
   * refused, timeout, DNS failure, invalid URL, a body that is not JSON).
   */
  datatype Transport =
    | Ok(status: int, body: Json)
    | Fail(reason: string)

  /** The request `fetch` is asked to send. */
  datatype ForwardRequest = ForwardRequest(
    endpoint: Option<Json>,
    httpMethod: string,
    headers: map<string, string>,
    body: map<string, Json>)

  /**
   * How the handler ends: a response with a status and a JSON body, or a
   * TypeError that escapes the handler before any response is written.
   */
  datatype Outcome =
    | Respond(status: int, body: Json)
    | Crashed

  /** The response sent, and the request forwarded upstream, if any. */
  datatype Handled = Handled(response: Outcome, forwarded: Option<ForwardRequest>)

  /** `const { llmName, ...forwardPayload } = req.body`: the body without the routing field. */
  function ForwardPayload(body: map<string, Json>): (payload: map<string, Json>)
    ensures payload.Keys == body.Keys - {RoutingField}
    ensures forall k :: k in payload ==> payload[k] == body[k]
  {
    body - {RoutingField}
  }

  /**
   * Handles one request body. `source` is what the registry file read gave
   * (`findLlm` reloads the registry on every call); `transport` is what the
   * outbound call gives, and is ignored when nothing is forwarded.
   */
  function Handle(body: map<string, Json>, source: Registry.Source, transport: Transport): (r: Handled)
    ensures !Truthy(Get(body, RoutingField)) ==>
      r == Handled(Respond(400, ErrorBody(NameRequiredMessage)), None)
    ensures r.forwarded.Some? <==>
      Truthy(Get(body, RoutingField)) && Find(Registry.LoadRegistry(source), body[RoutingField]).Found?
    ensures r.forwarded.Some? ==>
      && r.forwarded.value.endpoint == EndpointOf(Find(Registry.LoadRegistry(source), body[RoutingField]).entry)
      && r.forwarded.value.httpMethod == "POST"
      && r.forwarded.value.headers == JsonHeaders
      && r.forwarded.value.body.Keys == body.Keys - {RoutingField}
      && forall k :: k in r.forwarded.value.body ==> r.forwarded.value.body[k] == body[k]
    ensures r.forwarded.Some? && transport.Ok? ==> r.response == Respond(transport.status, transport.body)
    ensures r.forwarded.Some? && transport.Fail? ==> r.response == Respond(502, ErrorBody(BadGatewayMessage))
  {
    var llmName := Get(body, RoutingField);
    if !Truthy(llmName) then
      Handled(Respond(400, ErrorBody(NameRequiredMessage)), None)
    else
      match Find(Registry.LoadRegistry(source), llmName.value)
      case Threw(_) => Handled(Crashed, None)
      case NotFound =>
        (match ToText(llmName.value)
         case Some(text) => Handled(Respond(404, ErrorBody(NotFoundMessage(text))), None)
         case None => Handled(Crashed, None))
      case Found(_, entry) =>
        var request := ForwardRequest(EndpointOf(entry), "POST", JsonHeaders, ForwardPayload(body));
        match transport
        case Ok(status, data) => Handled(Respond(status, data), Some(request))
        case Fail(_) => Handled(Respond(502, ErrorBody(BadGatewayMessage)), Some(request))
  }

  /**
   * A truthy name that no entry carries gets 404 with the name in the
   * message, and nothing is forwarded, whatever the transport would have done.
   */
  lemma UnknownStringName(body: map<string, Json>, source: Registry.Source, transport: Transport, name: string)
    requires RoutingField in body && body[RoutingField] == JString(name) && name != ""
    requires Find(Registry.LoadRegistry(source), JString(name)).NotFound?
    ensures Handle(body, source, transport) ==
      Handled(Respond(404, ErrorBody("LLM \"" + name + "\" not found")), None)
  {
  }

  /**
   * When nothing is forwarded the response does not depend on the transport:
   * no outbound call is made.
   */
  lemma NoForwardIgnoresTransport(body: map<string, Json>, source: Registry.Source, t1: Transport, t2: Transport)
    requires Handle(body, source, t1).forwarded.None?
    ensures Handle(body, source, t2) == Handle(body, source, t1)
  {
  }

  /** Every failure of the outbound call gives the same 502, whatever the reason. */
  lemma FailureReasonHidden(body: map<string, Json>, source: Registry.Source, reason1: string, reason2: string)
    ensures Handle(body, source, Fail(reason1)) == Handle(body, source, Fail(reason2))
  {
  }

  /** An upstream error status is relayed as it is, never turned into 502. */
  lemma UpstreamErrorRelayed(body: map<string, Json>, source: Registry.Source, data: Json)
    requires Handle(body, source, Ok(500, data)).forwarded.Some?
    ensures Handle(body, source, Ok(500, data)).response == Respond(500, data)
  {
  }

  /** The ways a request can end. */
  datatype Ending = BadRequest | UnknownName | Relayed | BadGateway | Escaped

  /** The shape of a handled request that ended in the way `e`. */
  predicate EndsAs(h: Handled, transport: Transport, e: Ending)
  {
    match e
    case BadRequest => h == Handled(Respond(400, ErrorBody(NameRequiredMessage)), None)
    case UnknownName => h.forwarded.None? && h.response.Respond? && h.response.status == 404
    case Relayed => h.forwarded.Some? && transport.Ok? && h.response == Respond(transport.status, transport.body)
    case BadGateway =>
      h.forwarded.Some? && transport.Fail? && h.response == Respond(502, ErrorBody(BadGatewayMessage))
    case Escaped => h == Handled(Crashed, None)
  }

  /** The shapes exclude each other: a handled request ends in at most one way. */
  lemma EndingsExclusive(h: Handled, transport: Transport, e1: Ending, e2: Ending)
    requires EndsAs(h, transport, e1) && EndsAs(h, transport, e2)
    ensures e1 == e2
  {
  }

  /**
   * Every request ends in one of the ways: 400, 404, the relayed upstream
   * reply, 502, or a TypeError that escapes the handler. The last happens
   * exactly when the registry holds a `null` before any match, or when an
   * unknown name is an object (possibly inside an array) with an own
   * `toString`.
   */
  lemma OutcomeClassification(body: map<string, Json>, source: Registry.Source, transport: Transport)
    ensures var h := Handle(body, source, transport);
      || EndsAs(h, transport, BadRequest)
      || EndsAs(h, transport, UnknownName)
      || EndsAs(h, transport, Relayed)
      || EndsAs(h, transport, BadGateway)
      || EndsAs(h, transport, Escaped)
    ensures var h := Handle(body, source, transport);
      var registry := Registry.LoadRegistry(source);
      EndsAs(h, transport, Escaped) <==>
        && Truthy(Get(body, RoutingField))
        && (|| Find(registry, body[RoutingField]).Threw?
            || (Find(registry, body[RoutingField]).NotFound? && CoercionThrows(body[RoutingField])))
  {
  }

  /** With no `null` in the registry and a string name, the handler always responds. */
  lemma NeverCrashes(body: map<string, Json>, source: Registry.Source, transport: Transport)
    requires NullFree(Registry.LoadRegistry(source))
    requires RoutingField in body ==> body[RoutingField].JString?
    ensures !EndsAs(Handle(body, source, transport), transport, Escaped)
  {
  }
}
