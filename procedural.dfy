/**
 * The procedural copy of the pipeline in includes/helpers.php: `wc_sgtm_get_setting`, the
 * dispatcher `wc_sgtm_enviar_webhook_pedido_pago` with its per-order cooldown, the sender
 * `wc_sgtm_enviar_dados`, the recorder `wc_sgtm_processar_resposta_webhook`, the manual resend
 * with its AJAX handler, and the batch reprocess.
 */
module Procedural {
  import opened Wrappers
  import opened Php
  import opened Helpers
  import opened Orders
  import opened Meta
  import opened Payload
  import opened Delivery

  // ---------------------------------------------------------------------------------------------
  // wc_sgtm_get_setting
  // ---------------------------------------------------------------------------------------------

  /**
   * Where settings come from: the settings of the plugin `wc_sgtm_webhook_pro()` returns, when
   * that function exists, and the PHP constants that are defined.
   */
  datatype Config = Config(plugin: Option<map<string, Value>>, constants: map<string, Value>)

  /** The legacy constant that stands in for a setting. */
  function ConstantFor(key: string): Option<string> {
    if key == "webhook_enabled" then Some("SGTM_WEBHOOK_ENABLED")
    else if key == "webhook_url" then Some("SGTM_WEBHOOK_URL")
    else if key == "debug_mode" then Some("SGTM_DEBUG_MODE")
    else if key == "auth_token" then Some("SGTM_AUTH_TOKEN")
    else if key == "auth_key" then Some("SGTM_AUTH_KEY")
    else None
  }

  /** The value a setting falls back to when the caller's default is null. */
  function BuiltinDefault(key: string): Value {
    if key == "webhook_enabled" || key == "debug_mode" then Bool(false)
    else if key == "webhook_url" || key == "auth_token" || key == "auth_key" then Str("")
    else if key == "timeout" then Int(30)
    else if key == "validate_ssl" then Bool(true)
    else if key == "rate_limit_seconds" then Int(60)
    else Null
  }

  /** The plugin holds a non-null value for the setting. */
  predicate PluginSets(cfg: Config, key: string) {
    cfg.plugin.Some? && key in cfg.plugin.value && cfg.plugin.value[key] != Null
  }

  /** The setting has a legacy constant and that constant is defined. */
  predicate ConstantDefined(cfg: Config, key: string) {
    ConstantFor(key).Some? && ConstantFor(key).value in cfg.constants
  }

  /**
   * `wc_sgtm_get_setting($key, $default)`: a non-null plugin setting wins; otherwise the
   * setting's constant when it is defined; otherwise `$default ?? <built-in default>`.
   */
  function GetSetting(cfg: Config, key: string, default: Value): (r: Value)
    ensures PluginSets(cfg, key) ==> r == cfg.plugin.value[key]
    ensures !PluginSets(cfg, key) && ConstantDefined(cfg, key) ==> r == cfg.constants[ConstantFor(key).value]
    ensures !PluginSets(cfg, key) && !ConstantDefined(cfg, key) ==> r == if default != Null then default else BuiltinDefault(key)
  {
    if cfg.plugin.Some? && key in cfg.plugin.value && cfg.plugin.value[key] != Null then cfg.plugin.value[key]
    else
      var c := ConstantFor(key);
      if c.Some? && c.value in cfg.constants then cfg.constants[c.value]
      else if default != Null then default
      else BuiltinDefault(key)
  }

  /** The settings the plugin documents. */
  const KnownSettings: set<string> := {"webhook_enabled", "webhook_url", "debug_mode", "timeout",
    "validate_ssl", "auth_token", "auth_key", "rate_limit_seconds"}

  /**
   * Only a documented setting falls back to a built-in value, and that value is never null, so
   * a documented setting comes out null only from a constant defined as null. Timeout, SSL
   * verification and the cooldown have no constant: only the plugin or the caller sets them.
   */
  lemma GetSettingFallbacks(cfg: Config, key: string, default: Value)
    ensures key in KnownSettings && GetSetting(cfg, key, default) == Null ==>
      !PluginSets(cfg, key) && ConstantDefined(cfg, key) && cfg.constants[ConstantFor(key).value] == Null
    ensures key !in KnownSettings && !PluginSets(cfg, key) ==> GetSetting(cfg, key, default) == default
    ensures key in {"timeout", "validate_ssl", "rate_limit_seconds"} && !PluginSets(cfg, key) ==>
      GetSetting(cfg, key, default) == if default != Null then default else BuiltinDefault(key)
  {
  }

  /** A configuration with no plugin and no constants: every setting is the caller's default. */
  lemma GetSettingDefaults(cfg: Config, key: string, default: Value)
    requires cfg.plugin.None? && cfg.constants == map[]
    ensures GetSetting(cfg, key, default) == if default != Null then default else BuiltinDefault(key)
  {
  }

  /** The dispatcher's switch: `(bool) wc_sgtm_get_setting('webhook_enabled', false)`. */
  predicate Enabled(cfg: Config) {
    ToBool(GetSetting(cfg, "webhook_enabled", Bool(false)))
  }

  /** The cooldown: `(int) wc_sgtm_get_setting('rate_limit_seconds', 60)`. */
  function RateLimit(cfg: Config): int {
    ToInt(GetSetting(cfg, "rate_limit_seconds", Int(60)))
  }

  /** The settings the dispatcher reads come out as documented when nothing is configured. */
  lemma UnconfiguredSettings(cfg: Config)
    requires cfg.plugin.None? && cfg.constants == map[]
    ensures !Enabled(cfg) && RateLimit(cfg) == 60
    ensures ToInt(GetSetting(cfg, "timeout", Int(30))) == 30
    ensures ToBool(GetSetting(cfg, "validate_ssl", Bool(true)))
    ensures IsEmpty(GetSetting(cfg, "webhook_url", Str("")))
  {
  }

  // ---------------------------------------------------------------------------------------------
  // The cooldown
  // ---------------------------------------------------------------------------------------------

  /**
   * As written: the last attempt is stored as site-local wall-clock time (`current_time('mysql')`)
   * and read back with `strtotime`, which takes it as UTC; the elapsed time is `time()` minus that.
   */
  predicate CoolingAsWritten(last: Option<int>, now: int, limit: int) {
    last.Some? && now - last.value < limit
  }

  /**
   * The cooldown as intended: the elapsed time is the site-local time now minus the stored
   * site-local time of the last attempt, i.e. the seconds that actually passed.
   */
  predicate Cooling(last: Option<int>, now: int, tzOffset: int, limit: int) {
    last.Some? && (now + tzOffset) - last.value < limit
  }

  /** With the stored stamp of an attempt made at UTC time `t0`, the intended cooldown lasts exactly `limit` seconds. */
  lemma CoolingSpec(t0: int, now: int, tzOffset: int, limit: int)
    ensures Cooling(Some(t0 + tzOffset), now, tzOffset, limit) <==> now - t0 < limit
    ensures !Cooling(None, now, tzOffset, limit)
  {
  }

  /** As written, the cooldown after an attempt at UTC time `t0` lasts `limit + tzOffset` seconds instead. */
  lemma CoolingAsWrittenShift(t0: int, now: int, tzOffset: int, limit: int)
    ensures CoolingAsWritten(Some(t0 + tzOffset), now, limit) <==> now - t0 < limit + tzOffset
    ensures tzOffset == 0 ==> (CoolingAsWritten(Some(t0), now, limit) <==> Cooling(Some(t0), now, 0, limit))
  {
  }

  /**
   * West of UTC the cooldown never applies: at UTC-3 with the default 60 s, a second dispatch one
   * second after the first is let through as written, and held back as intended.
   */
  lemma CoolingAsWrittenWestOfUtc(t0: int)
    ensures !CoolingAsWritten(Some(t0 - 10800), t0 + 1, 60)
    ensures Cooling(Some(t0 - 10800), t0 + 1, -10800, 60)
  {
  }

  /** East of UTC it holds for hours: at UTC+3 a dispatch an hour later is still held back as written. */
  lemma CoolingAsWrittenEastOfUtc(t0: int)
    ensures CoolingAsWritten(Some(t0 + 10800), t0 + 3600, 60)
    ensures !Cooling(Some(t0 + 10800), t0 + 3600, 10800, 60)
  {
  }

  // ---------------------------------------------------------------------------------------------
  // The checks of wc_sgtm_enviar_webhook_pedido_pago
  // ---------------------------------------------------------------------------------------------

  /** The checks the procedural dispatcher makes, in order. */
  const ProceduralChecks: seq<Gate> := [Disabled, OrderMissing, NotPaid, AlreadySent, RateLimited]

  predicate ProceduralFails(cfg: Config, env: Env, m: Markers, id: int, g: Gate) {
    match g
    case Disabled => !Enabled(cfg)
    case OrderMissing => id !in env.orders
    case NotPaid => id in env.orders && !env.orders[id].paid
    case AlreadySent => m.sent.Some?
    case RateLimited => CoolingAsWritten(m.lastAttempt, env.now, RateLimit(cfg))
    case NoEndpoint => false
  }

  /** The check that stops the dispatch, if any. */
  function ProceduralGate(cfg: Config, env: Env, m: Markers, id: int): (g: Option<Gate>)
    ensures g.None? ==> id in env.orders && env.orders[id].paid && m.sent.None?
    ensures g.None? ==> !CoolingAsWritten(m.lastAttempt, env.now, RateLimit(cfg))
  {
    if !Enabled(cfg) then Some(Disabled)
    else if id !in env.orders then Some(OrderMissing)
    else if !env.orders[id].paid then Some(NotPaid)
    else if m.sent.Some? then Some(AlreadySent)
    else if CoolingAsWritten(m.lastAttempt, env.now, RateLimit(cfg)) then Some(RateLimited)
    else None
  }

  /** The gate is the first failing check in the order disabled, order, paid, sent, cooldown. */
  lemma ProceduralGateIsFirstFailure(cfg: Config, env: Env, m: Markers, id: int)
    ensures ProceduralGate(cfg, env, m, id).None? <==>
      forall k :: 0 <= k < |ProceduralChecks| ==> !ProceduralFails(cfg, env, m, id, ProceduralChecks[k])
    ensures ProceduralGate(cfg, env, m, id).Some? ==>
      exists k :: 0 <= k < |ProceduralChecks| && ProceduralChecks[k] == ProceduralGate(cfg, env, m, id).value
        && ProceduralFails(cfg, env, m, id, ProceduralChecks[k])
        && forall j :: 0 <= j < k ==> !ProceduralFails(cfg, env, m, id, ProceduralChecks[j])
  {
    var g := ProceduralGate(cfg, env, m, id);
    var k := if g == Some(Disabled) then 0 else if g == Some(OrderMissing) then 1
      else if g == Some(NotPaid) then 2 else if g == Some(AlreadySent) then 3 else 4;
    if g.None? {
      forall k | 0 <= k < |ProceduralChecks|
        ensures !ProceduralFails(cfg, env, m, id, ProceduralChecks[k])
      {
      }
    } else {
      assert ProceduralChecks[k] == g.value;
      assert ProceduralFails(cfg, env, m, id, ProceduralChecks[k]);
      assert forall j :: 0 <= j < k ==> !ProceduralFails(cfg, env, m, id, ProceduralChecks[j]);
    }
  }

  /**
   * The cooldown boundary: for an order every earlier check lets through, with the stamp of an
   * attempt made at UTC time `t0`, the dispatch is held back exactly while fewer than
   * `limit + tzOffset` seconds have passed, and one at that elapsed time proceeds.
   */
  lemma CooldownBoundary(cfg: Config, env: Env, m: Markers, id: int, t0: int)
    requires Enabled(cfg) && id in env.orders && env.orders[id].paid && m.sent.None?
    requires m.lastAttempt == Some(t0 + env.tzOffset)
    ensures ProceduralGate(cfg, env, m, id) == Some(RateLimited) <==> env.now - t0 < RateLimit(cfg) + env.tzOffset
    ensures env.now - t0 == RateLimit(cfg) + env.tzOffset ==> ProceduralGate(cfg, env, m, id).None?
  {
  }

  // ---------------------------------------------------------------------------------------------
  // wc_sgtm_enviar_dados
  // ---------------------------------------------------------------------------------------------

  const NoUrlMessage := "Webhook URL não configurada."

  /** `WC_SGTM_WEBHOOK_VERSION` when that constant is defined, else '1.x'. */
  function AgentVersion(cfg: Config): string {
    if "WC_SGTM_WEBHOOK_VERSION" in cfg.constants then ToStr(cfg.constants["WC_SGTM_WEBHOOK_VERSION"]) else "1.x"
  }

  /**
   * The headers of `wc_sgtm_enviar_dados`: each optional header goes in exactly when its value
   * is not PHP-empty.
   */
  function ProceduralHeaders(cfg: Config, opts: Options): (h: map<string, string>)
    ensures "Content-Type" in h && "User-Agent" in h && "Accept" in h
    ensures h["User-Agent"] == "WooCommerce-SGTM-Webhook/" + AgentVersion(cfg)
    ensures "Authorization" in h <==> !IsEmpty(GetSetting(cfg, "auth_token", Str("")))
    ensures "Authorization" in h ==> h["Authorization"] == "Bearer " + ToStr(GetSetting(cfg, "auth_token", Str("")))
    ensures "X-Webhook-Key" in h <==> !IsEmpty(GetSetting(cfg, "auth_key", Str("")))
    ensures "X-Webhook-Key" in h ==> h["X-Webhook-Key"] == ToStr(GetSetting(cfg, "auth_key", Str("")))
    ensures "X-Auth-Token" in h <==> !IsEmptyString(GetOption(opts, "sgtm_auth_token", ""))
    ensures "X-Client-ID" in h <==> !IsEmptyString(GetOption(opts, "sgtm_client_id", ""))
  {
    var base := map[
      "Content-Type" := "application/json; charset=utf-8",
      "User-Agent" := "WooCommerce-SGTM-Webhook/" + AgentVersion(cfg),
      "Accept" := "application/json"];
    var token := GetSetting(cfg, "auth_token", Str(""));
    var h1 := if IsEmpty(token) then base else base["Authorization" := "Bearer " + ToStr(token)];
    var key := GetSetting(cfg, "auth_key", Str(""));
    var h2 := if IsEmpty(key) then h1 else h1["X-Webhook-Key" := ToStr(key)];
    var optToken := GetOption(opts, "sgtm_auth_token", "");
    var h3 := if IsEmptyString(optToken) then h2 else h2["X-Auth-Token" := optToken];
    var clientId := GetOption(opts, "sgtm_client_id", "");
    if IsEmptyString(clientId) then h3 else h3["X-Client-ID" := clientId]
  }

  /** The POST of `wc_sgtm_enviar_dados`: timeout and SSL verification come from the settings. */
  function ProceduralRequest(cfg: Config, opts: Options, payload: Payload): (r: Request<Payload>)
    ensures r.url == ToStr(GetSetting(cfg, "webhook_url", Str(""))) && r.body == payload
    ensures r.timeout == ToInt(GetSetting(cfg, "timeout", Int(30)))
    ensures r.sslVerify == ToBool(GetSetting(cfg, "validate_ssl", Bool(true)))
    ensures r.headers == ProceduralHeaders(cfg, opts)
  {
    Request(
      ToStr(GetSetting(cfg, "webhook_url", Str(""))),
      ProceduralHeaders(cfg, opts),
      ToInt(GetSetting(cfg, "timeout", Int(30))),
      ToBool(GetSetting(cfg, "validate_ssl", Bool(true))),
      payload)
  }

  // ---------------------------------------------------------------------------------------------
  // wc_sgtm_processar_resposta_webhook
  // ---------------------------------------------------------------------------------------------

  /**
   * The procedural recorder at local time `at`: a 2xx reply sets the sent marker and stores the
   * reply but leaves any earlier error marker in place; any other reply leaves an error record and
   * stores no reply; a connection error leaves a connection-error record.
   */
  function ProceduralRecord(m: Markers, r: HttpResult, at: int): (out: Recorded)
    ensures out.delivered <==> r.Http? && IsSuccess(r.code)
    ensures out.markers.lastAttempt == m.lastAttempt
    ensures out.delivered ==> out.markers == m.(sent := Some(at), response := Some(ResponseRecord(r.code, Excerpt(r.body))))
    ensures out.delivered ==> out.markers.error == m.error
    ensures !out.delivered ==> out.markers.sent == m.sent && out.markers.response == m.response
    ensures r.ConnErr? ==> out.markers.error == Some(ConnectionError(at, r.message))
    ensures r.Http? && !out.delivered ==> out.markers.error == Some(HttpError(at, r.code, Excerpt(r.body)))
  {
    match r
    case ConnErr(msg) => Recorded(false, m.(error := Some(ConnectionError(at, msg))))
    case Http(code, body) =>
      if IsSuccess(code) then
        Recorded(true, m.(sent := Some(at), response := Some(ResponseRecord(code, Excerpt(body)))))
      else Recorded(false, m.(error := Some(HttpError(at, code, Excerpt(body)))))
  }

  /** The procedural recorder, on the meta store. */
  method ProcessResponse(meta: OrderMeta, id: int, r: HttpResult, at: int) returns (delivered: bool)
    modifies meta
    ensures delivered == ProceduralRecord(old(meta.Get(id)), r, at).delivered
    ensures meta.markers == old(meta.markers)[id := ProceduralRecord(old(meta.Get(id)), r, at).markers]
  {
    match r
    case ConnErr(msg) =>
      meta.SetError(id, ConnectionError(at, msg));
      delivered := false;
    case Http(code, body) =>
      if IsSuccess(code) {
        meta.SetSent(id, at);
        meta.SetResponse(id, ResponseRecord(code, Excerpt(body)));
        delivered := true;
      } else {
        meta.SetError(id, HttpError(at, code, Excerpt(body)));
        delivered := false;
      }
  }

  // ---------------------------------------------------------------------------------------------
  // wc_sgtm_enviar_webhook_pedido_pago
  // ---------------------------------------------------------------------------------------------

  /**
   * The part of a procedural dispatch after the checks, for a payload that was built: the last
   * attempt is stamped first; then an empty URL is refused with a connection-error record and
   * no request, and a configured one is POSTed and recorded.
   */
  function ProceduralSend(cfg: Config, env: Env, m: Markers, payload: Payload, res: HttpResult): (r: Run)
    ensures r.markers.lastAttempt == Some(Stamp(env))
    ensures r.attempt.Refused? || r.attempt.Posted?
    ensures r.attempt.Refused? <==> IsEmpty(GetSetting(cfg, "webhook_url", Str("")))
    ensures r.attempt.Refused? ==> r.markers == m.(lastAttempt := Some(Stamp(env)), error := Some(ConnectionError(Stamp(env), NoUrlMessage)))
    ensures r.attempt.Posted? ==>
      && r.attempt.request == ProceduralRequest(cfg, env.opts, payload)
      && r.attempt.delivered == (res.Http? && IsSuccess(res.code))
      && r.markers == ProceduralRecord(m.(lastAttempt := Some(Stamp(env))), res, Stamp(env)).markers
  {
    var stamped := m.(lastAttempt := Some(Stamp(env)));
    if IsEmpty(GetSetting(cfg, "webhook_url", Str(""))) then
      Run(Refused(NoUrlMessage), stamped.(error := Some(ConnectionError(Stamp(env), NoUrlMessage))))
    else
      var rec := ProceduralRecord(stamped, res, Stamp(env));
      Run(Posted(ProceduralRequest(cfg, env.opts, payload), rec.delivered), rec.markers)
  }

  /**
   * One procedural dispatch with markers `m`: a stopped dispatch writes nothing; an exception
   * while the payload is built leaves an untyped error record and no stamp; an order without a
   * creation date ends the request at the payload's last entry, before the stamp, and writes
   * nothing; otherwise the last attempt is stamped before the request, and a delivery leaves
   * any earlier error in place.
   */
  function ProceduralStep(cfg: Config, env: Env, m: Markers, id: int, t: Transport): (r: Run)
    ensures r.attempt.Skipped? <==> ProceduralGate(cfg, env, m, id).Some?
    ensures r.attempt.Skipped? ==> r.markers == m
    ensures r.attempt.Fatal? <==> ProceduralGate(cfg, env, m, id).None? && t.Returned? && env.orders[id].created.None?
    ensures r.attempt.Fatal? ==> r.markers == m
    ensures r.attempt.Raised? ==> r.markers == m.(error := Some(Untyped(Stamp(env), r.attempt.message)))
    ensures r.attempt.Refused? || r.attempt.Posted? ==> r.markers.lastAttempt == Some(Stamp(env)) && t.Returned?
    ensures r.attempt.Posted? ==> id in env.orders && env.orders[id].paid && m.sent.None?
    ensures r.markers.sent.Some? ==> r.markers.sent == m.sent || (r.attempt.Posted? && r.attempt.delivered)
    ensures r.attempt.Posted? && r.attempt.delivered ==> r.markers.error == m.error
  {
    var gate := ProceduralGate(cfg, env, m, id);
    if gate.Some? then Run(Skipped(gate.value), m)
    else
      match t
      case Threw(msg) => Run(Raised(msg), m.(error := Some(Untyped(Stamp(env), msg))))
      case Returned(res) =>
        if env.orders[id].created.None? then Run(Fatal, m)
        else ProceduralSend(cfg, env, m, OrderPayload(Procedural, env.sha, env.orders[id], env.site, env.now), res)
  }

  /** The sending half of the procedural dispatcher, on the meta store, for a payload already built. */
  method Send(meta: OrderMeta, cfg: Config, env: Env, id: int, payload: Payload, res: HttpResult) returns (attempt: Attempt)
    modifies meta
    ensures attempt == ProceduralSend(cfg, env, old(meta.Get(id)), payload, res).attempt
    ensures meta.markers == old(meta.markers)[id := ProceduralSend(cfg, env, old(meta.Get(id)), payload, res).markers]
  {
    meta.SetLastAttempt(id, Stamp(env));
    if IsEmpty(GetSetting(cfg, "webhook_url", Str(""))) {
      meta.SetError(id, ConnectionError(Stamp(env), NoUrlMessage));
      attempt := Refused(NoUrlMessage);
    } else {
      var delivered := ProcessResponse(meta, id, res, Stamp(env));
      attempt := Posted(ProceduralRequest(cfg, env.opts, payload), delivered);
    }
  }

  /** The procedural dispatcher, on the meta store. */
  method Dispatch(meta: OrderMeta, cfg: Config, env: Env, id: int, t: Transport) returns (attempt: Attempt)
    modifies meta
    ensures attempt == ProceduralStep(cfg, env, old(meta.Get(id)), id, t).attempt
    ensures attempt.Skipped? || attempt.Fatal? ==> meta.markers == old(meta.markers)
    ensures !attempt.Skipped? && !attempt.Fatal? ==> meta.markers == old(meta.markers)[id := ProceduralStep(cfg, env, old(meta.Get(id)), id, t).markers]
    ensures id in old(meta.markers) ==> meta.markers == old(meta.markers)[id := ProceduralStep(cfg, env, old(meta.Get(id)), id, t).markers]
  {
    if !Enabled(cfg) {
      return Skipped(Disabled);
    }
    if id !in env.orders {
      return Skipped(OrderMissing);
    }
    var order := env.orders[id];
    if !order.paid {
      return Skipped(NotPaid);
    }
    if meta.Get(id).sent.Some? {
      return Skipped(AlreadySent);
    }
    if CoolingAsWritten(meta.Get(id).lastAttempt, env.now, RateLimit(cfg)) {
      return Skipped(RateLimited);
    }
    match t
    case Threw(msg) =>
      meta.SetError(id, Untyped(Stamp(env), msg));
      attempt := Raised(msg);
    case Returned(res) =>
      if order.created.None? {
        return Fatal;
      }
      var payload := PrepareOrderData(Procedural, env.sha, order, env.site, env.now);
      attempt := Send(meta, cfg, env, id, payload, res);
  }

  // ---------------------------------------------------------------------------------------------
  // Repeated dispatches
  // ---------------------------------------------------------------------------------------------

  /** Dispatching one order for each event in turn, starting from markers `m`. */
  function ProceduralRun(cfg: Config, m: Markers, id: int, evs: seq<Event>): Tally
    decreases |evs|
  {
    if evs == [] then Tally(m, 0, 0)
    else
      var r := ProceduralStep(cfg, evs[0].env, m, id, evs[0].outcome);
      Count(ProceduralRun(cfg, r.markers, id, evs[1..]), r.attempt)
  }

  /** The sent marker makes this copy at-most-once as well: one delivery at most, none once it is set. */
  lemma {:induction false} ProceduralAtMostOnce(cfg: Config, m: Markers, id: int, evs: seq<Event>)
    ensures ProceduralRun(cfg, m, id, evs).deliveries <= if m.sent.None? then 1 else 0
    ensures m.sent.Some? ==> ProceduralRun(cfg, m, id, evs) == Tally(m, 0, 0)
    decreases |evs|
  {
    if evs != [] {
      var r := ProceduralStep(cfg, evs[0].env, m, id, evs[0].outcome);
      ProceduralAtMostOnce(cfg, r.markers, id, evs[1..]);
      if r.attempt.Posted? && r.attempt.delivered {
        assert r.markers.sent.Some?;
      }
    }
  }

  /**
   * Unlike the class-based copy, this one can leave a sent marker and an error marker side by
   * side: a 500 reply at `env`, followed at `later`, once the cooldown as written has run out,
   * by a 200 reply.
   */
  lemma ProceduralNotExclusive(cfg: Config, env: Env, later: Env, id: int)
    requires Enabled(cfg) && id in env.orders && env.orders[id].paid && env.orders[id].created.Some?
    requires id in later.orders && later.orders[id].paid && later.orders[id].created.Some?
    requires !IsEmpty(GetSetting(cfg, "webhook_url", Str("")))
    requires later.now - env.now >= RateLimit(cfg) + env.tzOffset
    ensures var first := ProceduralStep(cfg, env, NoMarkers, id, Returned(Http(500, "")));
      var second := ProceduralStep(cfg, later, first.markers, id, Returned(Http(200, "")));
      && Exclusive(first.markers)
      && second.attempt.Posted? && second.attempt.delivered
      && !Exclusive(second.markers)
  {
    var first := ProceduralStep(cfg, env, NoMarkers, id, Returned(Http(500, "")));
    assert first.markers.error.Some? && first.markers.sent.None?;
    assert first.markers.lastAttempt == Some(Stamp(env));
    assert !CoolingAsWritten(first.markers.lastAttempt, later.now, RateLimit(cfg));
  }

  /** With the cooldown as written switched off (`limit + tzOffset <= 0`), the two replies can even come at the same moment. */
  lemma ProceduralNotExclusiveAtOnce(cfg: Config, env: Env, id: int)
    requires Enabled(cfg) && id in env.orders && env.orders[id].paid && env.orders[id].created.Some?
    requires !IsEmpty(GetSetting(cfg, "webhook_url", Str("")))
    requires RateLimit(cfg) + env.tzOffset <= 0
    ensures var first := ProceduralStep(cfg, env, NoMarkers, id, Returned(Http(500, "")));
      var second := ProceduralStep(cfg, env, first.markers, id, Returned(Http(200, "")));
      second.attempt.Posted? && second.attempt.delivered && !Exclusive(second.markers)
  {
    ProceduralNotExclusive(cfg, env, env, id);
  }

  /**
   * The stamp an attempt leaves holds a later dispatch back, as written, while fewer than
   * `limit + tzOffset` seconds have passed; the intended cooldown would last `limit` seconds.
   */
  lemma {:induction false} CooldownBetweenEvents(cfg: Config, env: Env, id: int, m: Markers, t: Transport, later: Env)
    requires ProceduralStep(cfg, env, m, id, t).attempt.Posted? || ProceduralStep(cfg, env, m, id, t).attempt.Refused?
    ensures var next := ProceduralStep(cfg, env, m, id, t).markers;
      CoolingAsWritten(next.lastAttempt, later.now, RateLimit(cfg)) <==> later.now - env.now < RateLimit(cfg) + env.tzOffset
    ensures var next := ProceduralStep(cfg, env, m, id, t).markers;
      later.tzOffset == env.tzOffset ==>
        (Cooling(next.lastAttempt, later.now, later.tzOffset, RateLimit(cfg)) <==> later.now - env.now < RateLimit(cfg))
  {
    CoolingAsWrittenShift(env.now, later.now, env.tzOffset, RateLimit(cfg));
    CoolingSpec(env.now, later.now, env.tzOffset, RateLimit(cfg));
  }

  // ---------------------------------------------------------------------------------------------
  // wc_sgtm_reenviar_webhook_manual and wc_sgtm_reprocess_recent_orders
  // ---------------------------------------------------------------------------------------------

  const ResendKeys: seq<Key> := [SentKey, ErrorKey, ResponseKey, LastAttemptKey]
  const ReprocessKeys: seq<Key> := [SentKey, ErrorKey]

  /** The manual resend clears all four markers, so neither the sent marker nor the cooldown can stop it. */
  lemma ManualResendPasses(cfg: Config, env: Env, m: Markers, id: int, t: Transport)
    ensures var g := ProceduralGate(cfg, env, WithoutAll(m, ResendKeys), id);
      g != Some(AlreadySent) && g != Some(RateLimited)
    ensures Enabled(cfg) && id in env.orders && env.orders[id].paid ==>
      !ProceduralStep(cfg, env, WithoutAll(m, ResendKeys), id, t).attempt.Skipped?
  {
    WithoutAllSpec(m, ResendKeys);
  }

  /** `wc_sgtm_reenviar_webhook_manual`: delete the four markers, then dispatch. */
  method ManualResend(meta: OrderMeta, cfg: Config, env: Env, id: int, t: Transport) returns (attempt: Attempt)
    modifies meta
    ensures var cleared := WithoutAll(old(meta.Get(id)), ResendKeys);
      && attempt == ProceduralStep(cfg, env, cleared, id, t).attempt
      && meta.Get(id) == ProceduralStep(cfg, env, cleared, id, t).markers
      && forall j :: j != id ==> meta.Get(j) == old(meta.Get(j))
  {
    meta.DeleteAll(id, ResendKeys);
    attempt := Dispatch(meta, cfg, env, id, t);
  }

  /** What the `wp_ajax_wc_sgtm_reenviar_webhook` handler ends the request with. */
  datatype HandlerReply =
      /** the nonce or the capability check failed: an error reply with status 403 */
    | AccessDenied
      /** 'Webhook reenviado com sucesso!', sent after the dispatch returns, whatever it did */
    | ResendAcknowledged
      /** the posted id reads as 0: 'ID do pedido inválido' */
    | BadOrderId
      /** the dispatch raised an Error (an order without a creation date): no JSON reply */
    | HandlerDied

  /** The handler's reply and the markers of order `id` afterwards. */
  datatype HandlerRun = HandlerRun(reply: HandlerReply, markers: Markers)

  /**
   * The anonymous `wp_ajax_wc_sgtm_reenviar_webhook` handler, for the order `id` that
   * `intval($_POST['order_id'])` gives, with markers `m`: a failed check or an id of 0 writes
   * nothing; any other id is resent manually and acknowledged unless the dispatch raised an Error.
   */
  function ResendHandlerSpec(cfg: Config, env: Env, allowed: bool, id: int, m: Markers, t: Transport): (r: HandlerRun)
    ensures r.reply.AccessDenied? <==> !allowed
    ensures r.reply.BadOrderId? <==> allowed && id == 0
    ensures r.reply.AccessDenied? || r.reply.BadOrderId? ==> r.markers == m
    ensures var run := ProceduralStep(cfg, env, WithoutAll(m, ResendKeys), id, t);
      && (r.reply.HandlerDied? <==> allowed && id != 0 && run.attempt.Fatal?)
      && (r.reply.ResendAcknowledged? || r.reply.HandlerDied? ==> r.markers == run.markers)
  {
    if !allowed then HandlerRun(AccessDenied, m)
    else if id == 0 then HandlerRun(BadOrderId, m)
    else
      var run := ProceduralStep(cfg, env, WithoutAll(m, ResendKeys), id, t);
      HandlerRun(if run.attempt.Fatal? then HandlerDied else ResendAcknowledged, run.markers)
  }

  /** The acknowledgement says nothing about delivery: a 500 reply is acknowledged, leaving an error and no sent marker. */
  lemma AcknowledgedWithoutDelivery(cfg: Config, env: Env, id: int, m: Markers)
    requires id != 0 && Enabled(cfg) && id in env.orders && env.orders[id].paid && env.orders[id].created.Some?
    requires !IsEmpty(GetSetting(cfg, "webhook_url", Str("")))
    ensures var r := ResendHandlerSpec(cfg, env, true, id, m, Returned(Http(500, "")));
      r.reply.ResendAcknowledged? && r.markers.sent.None? && r.markers.error.Some?
  {
    WithoutAllSpec(m, ResendKeys);
  }

  /** Nor does it say that anything was attempted: with the webhook disabled the markers are only cleared. */
  lemma AcknowledgedWhenDisabled(cfg: Config, env: Env, id: int, m: Markers, t: Transport)
    requires id != 0 && !Enabled(cfg)
    ensures var r := ResendHandlerSpec(cfg, env, true, id, m, t);
      r.reply.ResendAcknowledged? && r.markers == WithoutAll(m, ResendKeys)
  {
  }

  /**
   * The handler on the meta store. `posted` is `$_POST['order_id']`, `Null` when the field is
   * missing; `allowed` is the outcome of the nonce and capability checks.
   */
  method ResendHandler(meta: OrderMeta, cfg: Config, env: Env, allowed: bool, posted: Value, t: Transport) returns (reply: HandlerReply)
    modifies meta
    ensures var id := ToInt(posted);
      var r := ResendHandlerSpec(cfg, env, allowed, id, old(meta.Get(id)), t);
      && reply == r.reply
      && meta.Get(id) == r.markers
      && forall j :: j != id ==> meta.Get(j) == old(meta.Get(j))
  {
    var id := ToInt(posted);
    if !allowed {
      return AccessDenied;
    }
    if id != 0 {
      var attempt := ManualResend(meta, cfg, env, id, t);
      if attempt.Fatal? {
        return HandlerDied;
      }
      return ResendAcknowledged;
    }
    return BadOrderId;
  }

  /** The batch reprocess only ever deletes the sent and error markers, so a recent attempt still holds the dispatch back. */
  lemma ReprocessKeepsCooldown(cfg: Config, env: Env, m: Markers, id: int, t: Transport)
    requires CoolingAsWritten(m.lastAttempt, env.now, RateLimit(cfg))
    ensures ProceduralStep(cfg, env, WithoutAll(m, ReprocessKeys), id, t).attempt.Skipped?
    ensures ProceduralStep(cfg, env, WithoutAll(m, ReprocessKeys), id, t).markers.lastAttempt == m.lastAttempt
  {
    WithoutAllSpec(m, ReprocessKeys);
  }

  /** The order statuses the reprocess query selects. */
  predicate Reprocessable(o: Order) {
    o.status == "completed" || o.status == "processing"
  }

  /** The orders, in the given order, whose status the reprocess query selects. */
  function Reprocessables(orders: seq<Order>): (r: seq<Order>)
    ensures forall o :: o in r ==> o in orders && Reprocessable(o)
    ensures forall o :: o in orders && Reprocessable(o) ==> o in r
  {
    if orders == [] then []
    else (if Reprocessable(orders[0]) then [orders[0]] else []) + Reprocessables(orders[1..])
  }

  /**
   * `wc_get_orders(['limit' => 10, 'status' => ['completed', 'processing'], 'orderby' => 'date',
   * 'order' => 'DESC'])` over the orders listed newest first: the first ten that qualify.
   */
  function RecentOrders(newestFirst: seq<Order>): (r: seq<Order>)
    ensures |r| <= 10
    ensures forall o :: o in r ==> o in newestFirst && Reprocessable(o)
    ensures |r| < 10 ==> forall o :: o in newestFirst && Reprocessable(o) ==> o in r
  {
    var all := Reprocessables(newestFirst);
    if |all| <= 10 then all
    else
      assert forall o :: o in all[..10] ==> o in all;
      all[..10]
  }

  /** The markers map once one order's sent and error markers are deleted. */
  function Cleared(store: map<int, Markers>, id: int): map<int, Markers> {
    store[id := WithoutAll(if id in store then store[id] else NoMarkers, ReprocessKeys)]
  }

  /** The markers map after one reprocessed order: its sent and error markers deleted, then a dispatch. */
  function ReprocessOne(cfg: Config, env: Env, store: map<int, Markers>, id: int, t: Transport): map<int, Markers> {
    var cleared := Cleared(store, id);
    cleared[id := ProceduralStep(cfg, env, cleared[id], id, t).markers]
  }

  /** Whether the dispatch of a reprocessed order raises an Error, ending the whole request. */
  predicate ReprocessDies(cfg: Config, env: Env, store: map<int, Markers>, id: int, t: Transport) {
    var cleared := Cleared(store, id);
    ProceduralStep(cfg, env, cleared[id], id, t).attempt.Fatal?
  }

  /** Where a batch reprocess stands: the markers, the orders counted, and whether the request has ended. */
  datatype Batch = Batch(store: map<int, Markers>, done: nat, died: bool)

  /**
   * The batch after reprocessing `batch` in order, each order answered by `reply`. An order
   * whose dispatch raises an Error ends the request: it is not counted and the orders after
   * it are not visited.
   */
  function ReprocessAll(cfg: Config, env: Env, store: map<int, Markers>, batch: seq<Order>, reply: int -> Transport): Batch
    decreases |batch|
  {
    if batch == [] then Batch(store, 0, false)
    else
      var before := ReprocessAll(cfg, env, store, batch[..|batch| - 1], reply);
      if before.died then before
      else
        var last := batch[|batch| - 1];
        var dies := ReprocessDies(cfg, env, before.store, last.id, reply(last.id));
        Batch(ReprocessOne(cfg, env, before.store, last.id, reply(last.id)), before.done + if dies then 0 else 1, dies)
  }

  /** A batch that ran to the end counted every order; one that died counted only those before the fatal one. */
  lemma {:induction false} ReprocessCounts(cfg: Config, env: Env, store: map<int, Markers>, batch: seq<Order>, reply: int -> Transport)
    ensures ReprocessAll(cfg, env, store, batch, reply).done <= |batch|
    ensures !ReprocessAll(cfg, env, store, batch, reply).died ==> ReprocessAll(cfg, env, store, batch, reply).done == |batch|
    ensures ReprocessAll(cfg, env, store, batch, reply).died ==> ReprocessAll(cfg, env, store, batch, reply).done < |batch|
    decreases |batch|
  {
    if batch != [] {
      ReprocessCounts(cfg, env, store, batch[..|batch| - 1], reply);
    }
  }

  /** Once the request has died, no later order of the batch changes anything. */
  lemma {:induction false} ReprocessDiedStays(cfg: Config, env: Env, store: map<int, Markers>, batch: seq<Order>, k: nat, reply: int -> Transport)
    requires k <= |batch|
    requires ReprocessAll(cfg, env, store, batch[..k], reply).died
    ensures ReprocessAll(cfg, env, store, batch, reply) == ReprocessAll(cfg, env, store, batch[..k], reply)
    decreases |batch| - k
  {
    if k < |batch| {
      var front := batch[..|batch| - 1];
      assert front[..k] == batch[..k];
      ReprocessDiedStays(cfg, env, store, front, k, reply);
    } else {
      assert batch[..k] == batch;
    }
  }

  /** One order of the batch: delete its sent and error markers, then dispatch it; `died` says the request ended. */
  method ReprocessOrder(meta: OrderMeta, cfg: Config, env: Env, id: int, t: Transport) returns (died: bool)
    modifies meta
    ensures meta.markers == ReprocessOne(cfg, env, old(meta.markers), id, t)
    ensures died == ReprocessDies(cfg, env, old(meta.markers), id, t)
  {
    ghost var cleared := Cleared(meta.markers, id);
    meta.DeleteAll(id, ReprocessKeys);
    assert meta.markers == cleared;
    var attempt := Dispatch(meta, cfg, env, id, t);
    died := attempt.Fatal?;
  }

  /** The `i`-th order of the batch, after the orders before it, which did not end the request. */
  method ReprocessNext(meta: OrderMeta, cfg: Config, env: Env, ghost store: map<int, Markers>, batch: seq<Order>, i: nat, reply: int -> Transport)
    returns (died: bool)
    requires i < |batch|
    requires !ReprocessAll(cfg, env, store, batch[..i], reply).died
    requires meta.markers == ReprocessAll(cfg, env, store, batch[..i], reply).store
    modifies meta
    ensures meta.markers == ReprocessAll(cfg, env, store, batch[..i + 1], reply).store
    ensures died == ReprocessAll(cfg, env, store, batch[..i + 1], reply).died
  {
    assert batch[..i + 1][..i] == batch[..i];
    died := ReprocessOrder(meta, cfg, env, batch[i].id, reply(batch[i].id));
  }

  /** The loop of the batch reprocess, over the orders it selected, until one ends the request. */
  method ReprocessBatch(meta: OrderMeta, cfg: Config, env: Env, batch: seq<Order>, reply: int -> Transport)
    returns (died: bool)
    modifies meta
    ensures meta.markers == ReprocessAll(cfg, env, old(meta.markers), batch, reply).store
    ensures died == ReprocessAll(cfg, env, old(meta.markers), batch, reply).died
  {
    var i := 0;
    died := false;
    while i < |batch| && !died
      invariant i <= |batch|
      invariant meta.markers == ReprocessAll(cfg, env, old(meta.markers), batch[..i], reply).store
      invariant died == ReprocessAll(cfg, env, old(meta.markers), batch[..i], reply).died
    {
      died := ReprocessNext(meta, cfg, env, old(meta.markers), batch, i, reply);
      i := i + 1;
    }
    if died {
      ReprocessDiedStays(cfg, env, old(meta.markers), batch, i, reply);
    } else {
      assert batch[..i] == batch;
    }
  }

  /**
   * `wc_sgtm_reprocess_recent_orders`: for each of the ten most recent completed or processing
   * orders, delete its sent and error markers and dispatch it. When every dispatch returns, the
   * notice counts every order visited; when one raises an Error the request ends there and no
   * notice is added.
   */
  method Reprocess(meta: OrderMeta, cfg: Config, env: Env, newestFirst: seq<Order>, reply: int -> Transport)
    returns (notice: Option<nat>)
    modifies meta
    ensures var b := ReprocessAll(cfg, env, old(meta.markers), RecentOrders(newestFirst), reply);
      && meta.markers == b.store
      && (notice.None? <==> b.died)
      && (notice.Some? ==> notice.value == b.done == |RecentOrders(newestFirst)| <= 10)
  {
    var batch := RecentOrders(newestFirst);
    var died := ReprocessBatch(meta, cfg, env, batch, reply);
    if died {
      notice := None;
    } else {
      ReprocessCounts(cfg, env, old(meta.markers), batch, reply);
      notice := Some(|batch|);
    }
  }
}
