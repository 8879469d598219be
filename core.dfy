/**
 * `WC_SGTM_Core` (includes/class-core.php), the dispatcher the plugin loads: the checks in front
 * of a dispatch, the request `send_data` builds, and the recorder `process_response`, which
 * keeps the order's markers.
 */
module Core {
  import opened Wrappers
  import opened Php
  import opened Helpers
  import opened Orders
  import opened Meta
  import opened Payload
  import opened Delivery

  // ---------------------------------------------------------------------------------------------
  // The checks of send_webhook
  // ---------------------------------------------------------------------------------------------

  /** The checks `send_webhook` makes, in order. */
  const CoreChecks: seq<Gate> := [Disabled, NoEndpoint, OrderMissing, AlreadySent, NotPaid]

  /** Whether one check stops the dispatch of order `id`, whose markers are `m`. */
  predicate CoreFails(env: Env, m: Markers, id: int, g: Gate) {
    match g
    case Disabled => !IsWebhookEnabled(env.opts)
    case NoEndpoint => IsEmptyString(BuildEndpoint(env.opts))
    case OrderMissing => id !in env.orders
    case AlreadySent => m.sent.Some?
    case NotPaid => id in env.orders && !env.orders[id].paid
    case RateLimited => false
  }

  /** The check that stops the dispatch, if any. */
  function CoreGate(env: Env, m: Markers, id: int): (g: Option<Gate>)
    ensures g.None? ==> id in env.orders && env.orders[id].paid && m.sent.None?
  {
    if !IsWebhookEnabled(env.opts) then Some(Disabled)
    else if IsEmptyString(BuildEndpoint(env.opts)) then Some(NoEndpoint)
    else if id !in env.orders then Some(OrderMissing)
    else if m.sent.Some? then Some(AlreadySent)
    else if !env.orders[id].paid then Some(NotPaid)
    else None
  }

  /** The gate is the first failing check in the order disabled, endpoint, order, sent, paid. */
  lemma CoreGateIsFirstFailure(env: Env, m: Markers, id: int)
    ensures CoreGate(env, m, id).None? <==> forall k :: 0 <= k < |CoreChecks| ==> !CoreFails(env, m, id, CoreChecks[k])
    ensures CoreGate(env, m, id).Some? ==>
      exists k :: 0 <= k < |CoreChecks| && CoreChecks[k] == CoreGate(env, m, id).value
        && CoreFails(env, m, id, CoreChecks[k]) && forall j :: 0 <= j < k ==> !CoreFails(env, m, id, CoreChecks[j])
  {
    var g := CoreGate(env, m, id);
    var k := if g == Some(Disabled) then 0 else if g == Some(NoEndpoint) then 1
      else if g == Some(OrderMissing) then 2 else if g == Some(AlreadySent) then 3 else 4;
    if g.None? {
      forall k | 0 <= k < |CoreChecks|
        ensures !CoreFails(env, m, id, CoreChecks[k])
      {
      }
    } else {
      assert CoreChecks[k] == g.value;
      assert CoreFails(env, m, id, CoreChecks[k]);
      assert forall j :: 0 <= j < k ==> !CoreFails(env, m, id, CoreChecks[j]);
    }
  }

  // ---------------------------------------------------------------------------------------------
  // send_data
  // ---------------------------------------------------------------------------------------------

  /** The headers of `send_data`: the bearer token goes in only when the stored token is not PHP-empty. */
  function CoreHeaders(token: string): (h: map<string, string>)
    ensures "Authorization" in h <==> !IsEmptyString(token)
    ensures "Authorization" in h ==> h["Authorization"] == "Bearer " + token
    ensures "Content-Type" in h && "User-Agent" in h && "Accept" in h
    ensures h["User-Agent"] == "WooCommerce-SGTM-Webhook/" + PluginVersion
  {
    var base := map[
      "Content-Type" := "application/json; charset=utf-8",
      "User-Agent" := "WooCommerce-SGTM-Webhook/" + PluginVersion,
      "Accept" := "application/json"];
    if IsEmptyString(token) then base else base["Authorization" := "Bearer " + token]
  }

  /** The POST `send_data` makes: to the built endpoint, 30 s timeout, SSL verified. */
  function CoreRequest(opts: Options, payload: Payload): (r: Request<Payload>)
    ensures r.url == BuildEndpoint(opts) && r.body == payload
    ensures r.timeout == 30 && r.sslVerify
    ensures r.headers == CoreHeaders(WebhookToken(opts))
  {
    Request(BuildEndpoint(opts), CoreHeaders(WebhookToken(opts)), 30, true, payload)
  }

  // ---------------------------------------------------------------------------------------------
  // process_response
  // ---------------------------------------------------------------------------------------------

  /**
   * `process_response` at local time `at`: every reply is stored (body cut to 500 characters); a
   * 2xx reply sets the sent marker and deletes the error; any other reply, and a connection error,
   * leave an error record and no sent marker of their own.
   */
  function CoreRecord(m: Markers, r: HttpResult, at: int): (out: Recorded)
    ensures out.delivered <==> r.Http? && IsSuccess(r.code)
    ensures out.markers.lastAttempt == m.lastAttempt
    ensures out.markers.response == if r.Http? then Some(ResponseRecord(r.code, Excerpt(r.body))) else m.response
    ensures out.delivered ==> out.markers.sent == Some(at) && out.markers.error == None
    ensures !out.delivered ==> out.markers.sent == m.sent
    ensures r.ConnErr? ==> out.markers.error == Some(ConnectionError(at, r.message))
    ensures r.Http? && !out.delivered ==> out.markers.error == Some(HttpError(at, r.code, Excerpt(r.body)))
  {
    match r
    case ConnErr(msg) => Recorded(false, m.(error := Some(ConnectionError(at, msg))))
    case Http(code, body) =>
      var stored := m.(response := Some(ResponseRecord(code, Excerpt(body))));
      if IsSuccess(code) then Recorded(true, stored.(sent := Some(at), error := None))
      else Recorded(false, stored.(error := Some(HttpError(at, code, Excerpt(body)))))
  }

  /** The recorder, on the meta store. */
  method ProcessResponse(meta: OrderMeta, id: int, r: HttpResult, at: int) returns (delivered: bool)
    modifies meta
    ensures delivered == CoreRecord(old(meta.Get(id)), r, at).delivered
    ensures meta.markers == old(meta.markers)[id := CoreRecord(old(meta.Get(id)), r, at).markers]
  {
    match r
    case ConnErr(msg) =>
      meta.SetError(id, ConnectionError(at, msg));
      delivered := false;
    case Http(code, body) =>
      meta.SetResponse(id, ResponseRecord(code, Excerpt(body)));
      if IsSuccess(code) {
        meta.SetSent(id, at);
        meta.Delete(id, ErrorKey);
        delivered := true;
      } else {
        meta.SetError(id, HttpError(at, code, Excerpt(body)));
        delivered := false;
      }
  }

  // ---------------------------------------------------------------------------------------------
  // send_webhook
  // ---------------------------------------------------------------------------------------------

  /**
   * `send_webhook($id)` with markers `m`: a stopped dispatch writes nothing; a POST is made only
   * for an existing, paid order with no sent marker, to the configured endpoint; an exception
   * leaves an 'exception' error record. An order without a creation date ends the request in
   * `prepare_order_data`, whatever the transport would have done, and writes nothing. The
   * last-attempt marker is never touched.
   */
  function CoreStep(env: Env, m: Markers, id: int, t: Transport): (r: Run)
    ensures r.attempt.Skipped? <==> CoreGate(env, m, id).Some?
    ensures r.attempt.Skipped? ==> r.markers == m
    ensures r.attempt.Fatal? <==> CoreGate(env, m, id).None? && env.orders[id].created.None?
    ensures r.attempt.Fatal? ==> r.markers == m
    ensures r.attempt.Posted? ==>
      && id in env.orders && env.orders[id].paid && m.sent.None?
      && r.attempt.request.url == BuildEndpoint(env.opts) && !IsEmptyString(r.attempt.request.url)
      && env.orders[id].created.Some?
      && r.attempt.request.body == OrderPayload(ClassBased, env.sha, env.orders[id], env.site, env.now)
    ensures r.attempt.Raised? ==> r.markers == m.(error := Some(Exception(Stamp(env), r.attempt.message)))
    ensures !r.attempt.Refused?
    ensures r.markers.lastAttempt == m.lastAttempt
    ensures r.markers.sent.Some? ==> r.markers.sent == m.sent || (r.attempt.Posted? && r.attempt.delivered)
    ensures Exclusive(m) ==> Exclusive(r.markers)
  {
    var gate := CoreGate(env, m, id);
    if gate.Some? then Run(Skipped(gate.value), m)
    else if env.orders[id].created.None? then Run(Fatal, m)
    else
      match t
      case Threw(msg) => Run(Raised(msg), m.(error := Some(Exception(Stamp(env), msg))))
      case Returned(res) =>
        var request := CoreRequest(env.opts, OrderPayload(ClassBased, env.sha, env.orders[id], env.site, env.now));
        var rec := CoreRecord(m, res, Stamp(env));
        Run(Posted(request, rec.delivered), rec.markers)
  }

  /** The dispatcher, on the meta store; the result says what it did. */
  method SendWebhook(meta: OrderMeta, env: Env, id: int, t: Transport) returns (attempt: Attempt)
    modifies meta
    ensures attempt == CoreStep(env, old(meta.Get(id)), id, t).attempt
    ensures attempt.Skipped? || attempt.Fatal? ==> meta.markers == old(meta.markers)
    ensures !attempt.Skipped? && !attempt.Fatal? ==> meta.markers == old(meta.markers)[id := CoreStep(env, old(meta.Get(id)), id, t).markers]
  {
    if !IsWebhookEnabled(env.opts) {
      return Skipped(Disabled);
    }
    if IsEmptyString(BuildEndpoint(env.opts)) {
      return Skipped(NoEndpoint);
    }
    if id !in env.orders {
      return Skipped(OrderMissing);
    }
    if meta.Get(id).sent.Some? {
      return Skipped(AlreadySent);
    }
    var order := env.orders[id];
    if !order.paid {
      return Skipped(NotPaid);
    }
    if order.created.None? {
      return Fatal;
    }
    match t
    case Threw(msg) =>
      meta.SetError(id, Exception(Stamp(env), msg));
      attempt := Raised(msg);
    case Returned(res) =>
      var payload := PrepareOrderData(ClassBased, env.sha, order, env.site, env.now);
      var request := CoreRequest(env.opts, payload);
      var delivered := ProcessResponse(meta, id, res, Stamp(env));
      attempt := Posted(request, delivered);
  }

  // ---------------------------------------------------------------------------------------------
  // Properties of repeated dispatches
  // ---------------------------------------------------------------------------------------------

  /** Dispatching one order for each event in turn, starting from markers `m`. */
  function CoreRun(m: Markers, id: int, evs: seq<Event>): Tally
    decreases |evs|
  {
    if evs == [] then Tally(m, 0, 0)
    else
      var r := CoreStep(evs[0].env, m, id, evs[0].outcome);
      var rest := CoreRun(r.markers, id, evs[1..]);
      Count(rest, r.attempt)
  }

  /**
   * At most once: whatever the events (settings changed, order paid later, replies failing),
   * an order is delivered at most once, never again once its sent marker is set, and an order
   * that already has a sent marker is never POSTed and keeps its markers.
   */
  lemma {:induction false} CoreAtMostOnce(m: Markers, id: int, evs: seq<Event>)
    ensures CoreRun(m, id, evs).deliveries <= if m.sent.None? then 1 else 0
    ensures m.sent.Some? ==> CoreRun(m, id, evs) == Tally(m, 0, 0)
    ensures m.sent.Some? ==> CoreRun(m, id, evs).markers.sent == m.sent
    decreases |evs|
  {
    if evs != [] {
      var r := CoreStep(evs[0].env, m, id, evs[0].outcome);
      CoreAtMostOnce(r.markers, id, evs[1..]);
      if r.attempt.Posted? && r.attempt.delivered {
        assert r.markers.sent.Some?;
      }
    }
  }

  /** Once set, the sent marker only ever stays; and exclusivity holds across any run. */
  lemma {:induction false} CoreRunExclusive(m: Markers, id: int, evs: seq<Event>)
    requires Exclusive(m)
    ensures Exclusive(CoreRun(m, id, evs).markers)
    ensures CoreRun(m, id, evs).deliveries > 0 ==> CoreRun(m, id, evs).markers.sent.Some?
    decreases |evs|
  {
    if evs != [] {
      var r := CoreStep(evs[0].env, m, id, evs[0].outcome);
      CoreRunExclusive(r.markers, id, evs[1..]);
      if r.markers.sent.Some? {
        CoreAtMostOnce(r.markers, id, evs[1..]);
      }
    }
  }
}
