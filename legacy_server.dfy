/** `server.js`: the older Express server, which predates the gateway
    support. Its two API handlers read only `ANTHROPIC_API_KEY`, always
    target the public endpoint and set no security headers. */
module LegacyServer {
  import opened Json
  import opened Http
  import opened Resolve
  import Messages
  import Health

  const LegacyNotConfiguredMsg := "Server is not configured. Set the ANTHROPIC_API_KEY environment variable."
  const LegacyMissingFieldsMsg := "Missing required fields: model, messages"
  const LegacyUnreachableMsg := "Failed to reach Anthropic API. Check your network and API key."

  /** `{ status: 'ok', configured: !!ANTHROPIC_API_KEY }`. */
  function LegacyHealthReply(env: Env): Reply
  {
    Reply(200, map[], Obj(map["status" := Str("ok"), "configured" := Bool(env.anthropicApiKey != "")]))
  }

  predicate LegacyReportsConfigured(env: Env)
  {
    Prop(LegacyHealthReply(env).body, "configured") == Some(Bool(true))
  }

  method HandleLegacyHealth(env: Env, res: ServerResponse)
    requires res.Pristine()
    modifies res
    ensures res.Holds(LegacyHealthReply(env), old(res.headers))
  {
    var hasKey := env.anthropicApiKey != "";
    res.SendJson(Obj(map["status" := Str("ok"), "configured" := Bool(hasKey)]));
    assert res.headers == old(res.headers) + map[];
  }

  /** The negation of the guard at the 400 reply: `model` and `messages` are
      both truthy, whatever their types. */
  predicate LegacyFieldsPresent(body: Json)
  {
    Truthy(Prop(body, "model")) && Truthy(Prop(body, "messages"))
  }

  /** `{ model, max_tokens, system, messages }`, every value as the client
      sent it. */
  function LegacyOutboundBody(body: Json): Json
  {
    Obj(Messages.Defined("model", Prop(body, "model"))
        + Messages.Defined("max_tokens", Prop(body, "max_tokens"))
        + Messages.Defined("system", Prop(body, "system"))
        + Messages.Defined("messages", Prop(body, "messages")))
  }

  function LegacyOutboundHeaders(apiKey: string): Headers
  {
    map["Content-Type" := "application/json", "x-api-key" := apiKey,
        "anthropic-version" := Messages.AnthropicVersion]
  }

  /** The `POST /api/messages` route. `express.json()` in its default strict
      mode hands the handler an object or an array, or answers the request
      itself. */
  function LegacyMessagesRoute(body: Json, env: Env, up: Upstream): Exchange
    requires body.Obj? || body.Arr?
  {
    var apiKey := env.anthropicApiKey;
    if apiKey == "" then
      Exchange(Reply(500, map[], ErrorBody(LegacyNotConfiguredMsg)), None)
    else if !LegacyFieldsPresent(body) then
      Exchange(Reply(400, map[], ErrorBody(LegacyMissingFieldsMsg)), None)
    else
      Exchange(Messages.RelayReply(up, map[], LegacyUnreachableMsg),
               Some(Outbound(DirectUrl, LegacyOutboundHeaders(apiKey), LegacyOutboundBody(body))))
  }

  method HandleLegacyMessages(body: Json, env: Env, up: Upstream, res: ServerResponse)
    returns (sent: Option<Outbound>)
    requires body.Obj? || body.Arr?
    requires res.Pristine()
    modifies res
    ensures res.Holds(LegacyMessagesRoute(body, env, up).reply, old(res.headers))
    ensures sent == LegacyMessagesRoute(body, env, up).sent
  {
    assert old(res.headers) + map[] == old(res.headers);
    sent := None;
    var apiKey := env.anthropicApiKey;
    if apiKey == "" {
      res.Status(500);
      res.SendJson(ErrorBody(LegacyNotConfiguredMsg));
      return;
    }
    var model := Prop(body, "model");
    var messages := Prop(body, "messages");
    if !Truthy(model) || !Truthy(messages) {
      res.Status(400);
      res.SendJson(ErrorBody(LegacyMissingFieldsMsg));
      return;
    }
    sent := Some(Outbound(DirectUrl, LegacyOutboundHeaders(apiKey), LegacyOutboundBody(body)));
    match up {
      case Failed =>
        res.Status(502);
        res.SendJson(ErrorBody(LegacyUnreachableMsg));
      case Responded(status, data) =>
        if !StatusOk(status) {
          res.Status(status);
          res.SendJson(data);
        } else {
          res.SendJson(data);
        }
    }
  }

  // ---------------------------------------------------------------------
  // Properties
  // ---------------------------------------------------------------------

  /** The early exits: no key means 500 whatever the body, then a falsy
      `model` or `messages` means 400; otherwise the request goes to the
      public endpoint with the key in `x-api-key`. */
  lemma LegacyEarlyExits(body: Json, env: Env, up: Upstream)
    requires body.Obj? || body.Arr?
    ensures var x := LegacyMessagesRoute(body, env, up);
      && (env.anthropicApiKey == "" ==> x == Exchange(Reply(500, map[], ErrorBody(LegacyNotConfiguredMsg)), None))
      && (env.anthropicApiKey != "" && !LegacyFieldsPresent(body) ==>
            x == Exchange(Reply(400, map[], ErrorBody(LegacyMissingFieldsMsg)), None))
      && (x.sent.Some? <==> env.anthropicApiKey != "" && LegacyFieldsPresent(body))
      && (x.sent.Some? ==> x.sent.value.url == DirectUrl
                           && x.sent.value.headers["x-api-key"] == env.anthropicApiKey
                           && "Authorization" !in x.sent.value.headers)
  {
  }

  /** Once forwarded: a failed call or an unparsable answer is a 502 with
      the legacy message, an ok upstream body is sent with status 200, and
      any other status is relayed with its body; no header is added. */
  lemma LegacyForwardedOutcome(body: Json, env: Env, up: Upstream)
    requires body.Obj? || body.Arr?
    requires LegacyMessagesRoute(body, env, up).sent.Some?
    ensures var r := LegacyMessagesRoute(body, env, up).reply;
      && r.headers == map[]
      && (up.Failed? ==> r == Reply(502, map[], ErrorBody(LegacyUnreachableMsg)))
      && (up.Responded? ==> r.body == up.body)
      && (up.Responded? && StatusOk(up.status) ==> r.status == 200)
      && (up.Responded? && !StatusOk(up.status) ==> r.status == up.status)
  {
  }

  /** `max_tokens` is forwarded untouched: present exactly when the client
      sent it, with the client's value, unclamped. */
  lemma LegacyMaxTokensUnchanged(body: Json)
    ensures var r := LegacyOutboundBody(body);
      && r.Obj?
      && ("max_tokens" in r.fields <==> Prop(body, "max_tokens").Some?)
      && (Prop(body, "max_tokens").Some? ==> r.fields["max_tokens"] == Prop(body, "max_tokens").value)
  {
  }

  /** The legacy field check is weaker than the serverless one: whatever the
      serverless route forwards passes it, and an empty `messages` array
      passes it too although the serverless route refuses it. */
  lemma LegacyFieldCheckIsWeaker(body: Json)
    ensures Messages.FieldsPresent(body) ==> LegacyFieldsPresent(body)
    ensures var b := Obj(map["model" := Str("m"), "messages" := Arr([])]);
      LegacyFieldsPresent(b) && !Messages.FieldsPresent(b)
  {
    var b := Obj(map["model" := Str("m"), "messages" := Arr([])]);
    assert Prop(b, "model") == Some(Str("m"));
    assert Prop(b, "messages") == Some(Arr([]));
  }

  /** The legacy probe ignores the gateway settings. So a deployment with
      only a gateway URL is configured for the serverless probe and route,
      but the legacy probe says it is not and the legacy route answers
      500. */
  lemma GatewayOnlyDeployment(env: Env, body: Json, up: Upstream)
    requires GatewayBase(env) != "" && env.anthropicApiKey == ""
    requires body.Obj? || body.Arr?
    requires !(up.Responded? && up.status == 500)
    ensures Health.ReportsConfigured(env) && !LegacyReportsConfigured(env)
    ensures LegacyMessagesRoute(body, env, up).reply.status == 500
    ensures Messages.MessagesRoute(Messages.Request("POST", Some(body)), env, up).reply.status != 500
  {
    Health.ConfiguredIff(env);
    Health.HealthAgreesWithMessages(Some(body), env, up);
  }

  /** For an upstream that does not itself answer 500, the legacy probe
      reports `configured` exactly when the legacy route does not answer
      500. */
  lemma LegacyHealthAgreesWithRoute(env: Env, body: Json, up: Upstream)
    requires body.Obj? || body.Arr?
    requires !(up.Responded? && up.status == 500)
    ensures LegacyReportsConfigured(env) <==> LegacyMessagesRoute(body, env, up).reply.status != 500
  {
  }
}
