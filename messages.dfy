/** `api/messages.js`: the serverless `POST /api/messages` proxy. It checks
    the method, the configuration and two request fields, clamps
    `max_tokens`, and forwards the request to the resolved endpoint, relaying
    whatever comes back. The upstream call's outcome is an input. */
module Messages {
  import opened Json
  import opened Http
  import opened Resolve
  import Security

  const MaxTokensLimit := 8192
  const DefaultMaxTokens := 1400
  const AnthropicVersion := "2023-06-01"

  const MethodNotAllowedMsg := "Method not allowed"
  const NotConfiguredMsg := "Server is not configured. Set AI_GATEWAY_URL (plus gateway key) or ANTHROPIC_API_KEY."
  const MissingFieldsMsg := "Missing required fields: model, messages[]"
  const UnreachableMsg := "Failed to reach AI endpoint. Check your gateway URL or API key configuration."

  /** The parts of `req` the handler reads; `None` is an absent body. */
  datatype Request = Request(httpMethod: string, body: Option<Json>)

  /** `req.body || {}`. */
  function EffectiveBody(body: Option<Json>): Json
  {
    if Truthy(body) then body.value else Obj(map[])
  }

  /** The negation of the guard at the 400 reply: `model` is truthy and
      `messages` is a non-empty array. */
  predicate FieldsPresent(body: Json)
  {
    var messages := Prop(body, "messages");
    && Truthy(Prop(body, "model"))
    && messages.Some? && messages.value.Arr? && |messages.value.items| > 0
  }

  /** `safeMaxTokens`: an integer in 1..8192 is kept, anything else becomes
      1400. */
  function SafeMaxTokens(v: Option<Json>): (n: int)
    ensures 1 <= n <= MaxTokensLimit
    ensures IsInteger(v) && 0.0 < v.value.r <= MaxTokensLimit as real ==> Some(Num(n as real)) == v
    ensures !(IsInteger(v) && 0.0 < v.value.r <= MaxTokensLimit as real) ==> n == DefaultMaxTokens
  {
    if IsInteger(v) && 0.0 < v.value.r <= MaxTokensLimit as real then v.value.r.Floor
    else DefaultMaxTokens
  }

  /** The outbound headers: JSON, the API version, and the credential, if
      there is one, either as a bearer token (gateway in bearer mode) or as
      `x-api-key`. */
  function OutboundHeaders(ep: Endpoint): Headers
  {
    var fixed := map["Content-Type" := "application/json", "anthropic-version" := AnthropicVersion];
    var key := if ep.apiKey.Some? then ep.apiKey.value else "";
    if key == "" then fixed
    else if ep.mode == Gateway && ep.authMode == Bearer then fixed["Authorization" := "Bearer " + key]
    else fixed["x-api-key" := key]
  }

  /** One property of an object literal as `JSON.stringify` writes it: an
      `undefined` value leaves the key out. */
  function Defined(key: string, v: Option<Json>): map<string, Json>
  {
    if v.Some? then map[key := v.value] else map[]
  }

  /** `{ model, max_tokens: safeMaxTokens, system, messages }`. */
  function OutboundBody(body: Json): Json
  {
    Obj(Defined("model", Prop(body, "model"))
        + map["max_tokens" := Num(SafeMaxTokens(Prop(body, "max_tokens")) as real)]
        + Defined("system", Prop(body, "system"))
        + Defined("messages", Prop(body, "messages")))
  }

  /** The handler's reply to what the upstream call produced: a non-ok
      status and its body are relayed, an ok body is sent with the default
      status 200, and a failed call becomes a 502 with `failure`. */
  function RelayReply(up: Upstream, headers: Headers, failure: string): Reply
  {
    match up
    case Failed => Reply(502, headers, ErrorBody(failure))
    case Responded(status, data) => if StatusOk(status) then Reply(200, headers, data) else Reply(status, headers, data)
  }

  /** The route once the endpoint is resolved; a resolved endpoint has a
      URL unless it is unconfigured. */
  function Respond(req: Request, ep: Endpoint, up: Upstream): Exchange
    requires ep.mode != Unconfigured ==> ep.url.Some?
  {
    if req.httpMethod != "POST" then
      Exchange(Reply(405, HandlerHeaders["Allow" := "POST"], ErrorBody(MethodNotAllowedMsg)), None)
    else if ep.mode == Unconfigured then
      Exchange(Reply(500, HandlerHeaders, ErrorBody(NotConfiguredMsg)), None)
    else
      var body := EffectiveBody(req.body);
      if !FieldsPresent(body) then
        Exchange(Reply(400, HandlerHeaders, ErrorBody(MissingFieldsMsg)), None)
      else
        Exchange(RelayReply(up, HandlerHeaders, UnreachableMsg),
                 Some(Outbound(ep.url.value, OutboundHeaders(ep), OutboundBody(body))))
  }

  /** The whole route as a function of the request, the environment and the
      upstream outcome: the method check comes before resolving, which
      never fails, so resolving first changes nothing. */
  function MessagesRoute(req: Request, env: Env, up: Upstream): Exchange
  {
    Respond(req, ResolveEndpoint(env), up)
  }

  /** The handler, writing to the response object step by step; it returns
      the request it passed to `fetch`, if it made one. */
  method HandleMessages(req: Request, env: Env, up: Upstream, res: ServerResponse) returns (sent: Option<Outbound>)
    requires res.Pristine()
    modifies res
    ensures res.Holds(MessagesRoute(req, env, up).reply, old(res.headers))
    ensures sent == MessagesRoute(req, env, up).sent
  {
    SetHandlerHeaders(res);
    sent := None;
    if req.httpMethod != "POST" {
      res.SetHeader("Allow", "POST");
      assert res.headers == old(res.headers) + HandlerHeaders["Allow" := "POST"];
      res.Status(405);
      res.SendJson(ErrorBody(MethodNotAllowedMsg));
      return;
    }
    var ep := ResolveEndpoint(env);
    if ep.mode == Unconfigured {
      res.Status(500);
      res.SendJson(ErrorBody(NotConfiguredMsg));
      return;
    }
    var body := EffectiveBody(req.body);
    if !FieldsPresent(body) {
      res.Status(400);
      res.SendJson(ErrorBody(MissingFieldsMsg));
      return;
    }
    var headers := map["Content-Type" := "application/json", "anthropic-version" := AnthropicVersion];
    var key := if ep.apiKey.Some? then ep.apiKey.value else "";
    if key != "" {
      if ep.mode == Gateway && ep.authMode == Bearer {
        headers := headers["Authorization" := "Bearer " + key];
      } else {
        headers := headers["x-api-key" := key];
      }
    }
    sent := Some(Outbound(ep.url.value, headers, OutboundBody(body)));
    match up {
      case Failed =>
        res.Status(502);
        res.SendJson(ErrorBody(UnreachableMsg));
      case Responded(status, data) =>
        if !StatusOk(status) {
          res.Status(status);
          res.SendJson(data);
        } else {
          res.SendJson(data);
        }
    }
  }

  // ---------------------------------------------------------------------
  // Properties of the route
  // ---------------------------------------------------------------------

  /** The early exits, in order: a non-POST is refused whatever else holds,
      then a missing configuration, then missing fields; a request is
      forwarded exactly when it passes all three. */
  lemma EarlyExits(req: Request, env: Env, up: Upstream)
    ensures var x := MessagesRoute(req, env, up);
      && (req.httpMethod != "POST" ==>
            x == Exchange(Reply(405, HandlerHeaders["Allow" := "POST"], ErrorBody(MethodNotAllowedMsg)), None))
      && (req.httpMethod == "POST" && ResolveEndpoint(env).mode == Unconfigured ==>
            x == Exchange(Reply(500, HandlerHeaders, ErrorBody(NotConfiguredMsg)), None))
      && (req.httpMethod == "POST" && ResolveEndpoint(env).mode != Unconfigured
          && !FieldsPresent(EffectiveBody(req.body)) ==>
            x == Exchange(Reply(400, HandlerHeaders, ErrorBody(MissingFieldsMsg)), None))
      && (x.sent.Some? <==>
            req.httpMethod == "POST" && ResolveEndpoint(env).mode != Unconfigured
            && FieldsPresent(EffectiveBody(req.body)))
  {
  }

  /** A refused method and a missing configuration do not depend on the
      body or on the upstream. */
  lemma EarlyExitsIgnoreBody(req: Request, req': Request, env: Env, up: Upstream, up': Upstream)
    requires req.httpMethod == req'.httpMethod
    requires req.httpMethod != "POST" || ResolveEndpoint(env).mode == Unconfigured
    ensures MessagesRoute(req, env, up) == MessagesRoute(req', env, up')
  {
  }

  /** Every reply, on every path, carries `nosniff` and `no-referrer`;
      only the 405 adds a header of its own, `Allow: POST`. */
  lemma EveryReplyHardened(req: Request, ep: Endpoint, up: Upstream)
    requires ep.mode != Unconfigured ==> ep.url.Some?
    ensures var h := Respond(req, ep, up).reply.headers;
      && "X-Content-Type-Options" in h && h["X-Content-Type-Options"] == "nosniff"
      && "Referrer-Policy" in h && h["Referrer-Policy"] == "no-referrer"
      && ("Allow" in h <==> req.httpMethod != "POST")
  {
    var h := Respond(req, ep, up).reply.headers;
    if req.httpMethod != "POST" {
      assert h == HandlerHeaders["Allow" := "POST"];
    } else {
      assert h == HandlerHeaders;
    }
  }

  /** Once forwarded: the request goes to the resolved URL; a network or
      parse failure is a 502, an ok upstream body is sent with status 200,
      and any other status is relayed with its body. */
  lemma ForwardedOutcome(req: Request, env: Env, up: Upstream)
    requires MessagesRoute(req, env, up).sent.Some?
    ensures MessagesRoute(req, env, up).sent.value.url == ResolveEndpoint(env).url.value
    ensures up.Failed? ==> MessagesRoute(req, env, up).reply == Reply(502, HandlerHeaders, ErrorBody(UnreachableMsg))
    ensures up.Responded? ==> MessagesRoute(req, env, up).reply.body == up.body
    ensures up.Responded? && StatusOk(up.status) ==> MessagesRoute(req, env, up).reply.status == 200
    ensures up.Responded? && !StatusOk(up.status) ==> MessagesRoute(req, env, up).reply.status == up.status
  {
  }

  /** Exactly one credential header, and only when there is a key: a bearer
      `Authorization` for a gateway in bearer mode, `x-api-key` otherwise;
      the fixed headers are always there and nothing else is sent. */
  lemma CredentialHeaders(ep: Endpoint)
    ensures var h := OutboundHeaders(ep);
      var key := if ep.apiKey.Some? then ep.apiKey.value else "";
      && h["Content-Type"] == "application/json" && h["anthropic-version"] == AnthropicVersion
      && h.Keys <= {"Content-Type", "anthropic-version", "Authorization", "x-api-key"}
      && ("Authorization" in h <==> key != "" && ep.mode == Gateway && ep.authMode == Bearer)
      && ("x-api-key" in h <==> key != "" && !(ep.mode == Gateway && ep.authMode == Bearer))
      && !("Authorization" in h && "x-api-key" in h)
      && ("Authorization" in h ==> h["Authorization"] == "Bearer " + key)
      && ("x-api-key" in h ==> h["x-api-key"] == key)
  {
  }

  /** A forwarded request carries exactly the endpoint's outbound headers. */
  lemma SentHeaders(req: Request, ep: Endpoint, up: Upstream)
    requires ep.mode != Unconfigured ==> ep.url.Some?
    requires Respond(req, ep, up).sent.Some?
    ensures Respond(req, ep, up).sent.value.headers == OutboundHeaders(ep)
  {
  }

  /** The credential a gateway endpoint's headers carry. */
  predicate GatewayCredentialIn(h: Headers, key: string, scheme: AuthMode)
  {
    && (key == "" ==> "Authorization" !in h && "x-api-key" !in h)
    && (key != "" && scheme == Bearer ==> "Authorization" in h && h["Authorization"] == "Bearer " + key && "x-api-key" !in h)
    && (key != "" && scheme != Bearer ==> "x-api-key" in h && h["x-api-key"] == key && "Authorization" !in h)
  }

  lemma GatewayHeaders(env: Env)
    requires GatewayBase(env) != ""
    ensures GatewayCredentialIn(OutboundHeaders(ResolveEndpoint(env)),
                                if env.gatewayApiKey != "" then env.gatewayApiKey else env.anthropicApiKey,
                                AuthModeOf(env.gatewayAuthMode))
  {
    var ep := ResolveEndpoint(env);
    var key := if env.gatewayApiKey != "" then env.gatewayApiKey else env.anthropicApiKey;
    assert ep.mode == Gateway && ep.apiKey == Some(key) && ep.authMode == AuthModeOf(env.gatewayAuthMode) by {
      GatewayFields(env);
    }
    CredentialHeaders(ep);
  }

  /** For a gateway, the forwarded request carries the gateway key, or else
      the Anthropic key: as a bearer `Authorization` exactly when the
      configured scheme is bearer, as `x-api-key` otherwise, and no
      credential header at all when both keys are empty. */
  lemma GatewayCredentialSent(req: Request, env: Env, up: Upstream)
    requires GatewayBase(env) != "" && MessagesRoute(req, env, up).sent.Some?
    ensures GatewayCredentialIn(MessagesRoute(req, env, up).sent.value.headers,
                                if env.gatewayApiKey != "" then env.gatewayApiKey else env.anthropicApiKey,
                                AuthModeOf(env.gatewayAuthMode))
  {
    SentHeaders(req, ResolveEndpoint(env), up);
    GatewayHeaders(env);
  }

  /** In direct mode the Anthropic key always goes in `x-api-key`. */
  lemma DirectUsesApiKeyHeader(env: Env)
    requires ResolveEndpoint(env).mode == Direct
    ensures OutboundHeaders(ResolveEndpoint(env))["x-api-key"] == env.anthropicApiKey
    ensures "Authorization" !in OutboundHeaders(ResolveEndpoint(env))
  {
    DirectEndpoint(env);
  }

  /** The forwarded body has exactly `model`, `max_tokens`, `messages` and,
      when the client sent one, `system`; the first, third and fourth are the
      client's values and `max_tokens` is the clamped one. */
  lemma OutboundBodyShape(body: Json)
    requires FieldsPresent(body)
    ensures var r := OutboundBody(body);
      && r.Obj?
      && r.fields.Keys == {"model", "max_tokens", "messages"}
                          + (if Prop(body, "system").Some? then {"system"} else {})
      && r.fields["model"] == Prop(body, "model").value
      && r.fields["messages"] == Prop(body, "messages").value
      && r.fields["max_tokens"] == Num(SafeMaxTokens(Prop(body, "max_tokens")) as real)
      && (Prop(body, "system").Some? ==> r.fields["system"] == Prop(body, "system").value)
  {
  }

  /** The forwarded `max_tokens` is always an integer within 1..8192. */
  lemma ForwardedMaxTokensBounded(req: Request, env: Env, up: Upstream)
    requires MessagesRoute(req, env, up).sent.Some?
    ensures var b := MessagesRoute(req, env, up).sent.value.body;
      && b.Obj? && "max_tokens" in b.fields && b.fields["max_tokens"].Num?
      && 1.0 <= b.fields["max_tokens"].r <= MaxTokensLimit as real
      && IsInteger(Some(b.fields["max_tokens"]))
  {
    var body := EffectiveBody(req.body);
    OutboundBodyShape(body);
  }

  /** For a POST whose upstream does not itself answer 500, the route
      answers 500 exactly when the endpoint is unconfigured, and then with
      its configuration error. */
  lemma ConfigErrorIff(body: Option<Json>, ep: Endpoint, up: Upstream)
    requires ep.mode != Unconfigured ==> ep.url.Some?
    requires !(up.Responded? && up.status == 500)
    ensures ep.mode == Unconfigured <==> Respond(Request("POST", body), ep, up).reply.status == 500
    ensures ep.mode == Unconfigured
            <==> Respond(Request("POST", body), ep, up).reply == Reply(500, HandlerHeaders, ErrorBody(NotConfiguredMsg))
  {
    if ep.mode != Unconfigured && FieldsPresent(EffectiveBody(body)) {
      assert Respond(Request("POST", body), ep, up).reply == RelayReply(up, HandlerHeaders, UnreachableMsg);
    }
  }

  // ---------------------------------------------------------------------
  // The route and the validator
  // ---------------------------------------------------------------------

  /** Any body the shared validator accepts also passes the route's own,
      weaker, field check. */
  lemma ValidatedBodyHasFields(body: Option<Json>)
    requires Security.Validate(body) == Security.Ok
    ensures FieldsPresent(EffectiveBody(body))
  {
    Security.ValidateAcceptsExactlyWellFormed(body);
  }

  /** The converse fails: the route forwards a body whose model is a number,
      which the validator rejects. */
  lemma RouteCheckIsWeaker()
    ensures var b := Obj(map["model" := Num(1.0), "messages" := Arr([Null])]);
      && FieldsPresent(b)
      && Security.Validate(Some(b)) == Security.Err(Security.ModelMsg)
  {
    var b := Obj(map["model" := Num(1.0), "messages" := Arr([Null])]);
    assert Prop(b, "model") == Some(Num(1.0));
    assert Prop(b, "messages") == Some(Arr([Null]));
  }
}
