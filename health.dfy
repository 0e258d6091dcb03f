/** `api/health.js`: the serverless `GET /api/health` probe, which reports
    whether the resolver finds any usable configuration. */
module Health {
  import opened Json
  import opened Http
  import opened Resolve
  import Messages

  /** `{ status: 'ok', configured: mode !== 'unconfigured' }`. */
  function HealthBody(mode: Mode): Json
  {
    Obj(map["status" := Str("ok"), "configured" := Bool(mode != Unconfigured)])
  }

  /** The reply on every request, whatever its method: the default status,
      the two handler headers and the body above. */
  function HealthReply(env: Env): Reply
  {
    Reply(200, HandlerHeaders, HealthBody(ResolveEndpoint(env).mode))
  }

  /** The `configured` flag the probe reports. */
  predicate ReportsConfigured(env: Env)
  {
    Prop(HealthReply(env).body, "configured") == Some(Bool(true))
  }

  method HandleHealth(env: Env, res: ServerResponse)
    requires res.Pristine()
    modifies res
    ensures res.Holds(HealthReply(env), old(res.headers))
  {
    var ep := ResolveEndpoint(env);
    SetHandlerHeaders(res);
    res.SendJson(HealthBody(ep.mode));
  }

  /** The body has exactly `status`, always `"ok"`, and `configured`, a
      boolean that is true exactly when the mode is not unconfigured. */
  lemma HealthBodyShape(mode: Mode)
    ensures var b := HealthBody(mode);
      && b.Obj? && b.fields.Keys == {"status", "configured"}
      && b.fields["status"] == Str("ok")
      && b.fields["configured"] == Bool(mode != Unconfigured)
  {
  }

  /** The probe reports `configured` exactly when a gateway URL or an
      Anthropic key is set, and `configured: false` otherwise. */
  lemma ConfiguredIff(env: Env)
    ensures ReportsConfigured(env) <==> GatewayBase(env) != "" || env.anthropicApiKey != ""
    ensures !ReportsConfigured(env) ==> Prop(HealthReply(env).body, "configured") == Some(Bool(false))
  {
    ModeSelection(env);
  }

  /** A gateway URL alone, with no key of either kind, counts as
      configured. */
  lemma GatewayWithoutKeyIsConfigured(env: Env)
    requires GatewayBase(env) != "" && env.gatewayApiKey == "" && env.anthropicApiKey == ""
    ensures ReportsConfigured(env)
  {
    ModeSelection(env);
  }

  /** The probe and the messages route agree: for a POST whose upstream does
      not itself answer 500, the probe reports `configured` exactly when the
      route does not answer 500, and `configured: false` exactly when the
      route gives its configuration error. */
  lemma HealthAgreesWithMessages(body: Option<Json>, env: Env, up: Upstream)
    requires !(up.Responded? && up.status == 500)
    ensures ReportsConfigured(env)
            <==> Messages.MessagesRoute(Messages.Request("POST", body), env, up).reply.status != 500
    ensures !ReportsConfigured(env)
            <==> Messages.MessagesRoute(Messages.Request("POST", body), env, up).reply
                 == Reply(500, HandlerHeaders, ErrorBody(Messages.NotConfiguredMsg))
  {
    assert ReportsConfigured(env) <==> ResolveEndpoint(env).mode != Unconfigured;
    Messages.ConfigErrorIff(body, ResolveEndpoint(env), up);
  }
}
