/**
 * `WC_SGTM_Ajax::resend_webhook` (includes/class-ajax.php): the admin "resend" button. It checks
 * the request, clears three of the order's markers, runs the class-based dispatcher once and
 * reads the markers back to choose its JSON reply.
 */
module Ajax {
  import opened Wrappers
  import opened Php
  import opened Helpers
  import opened Meta
  import opened Delivery
  import opened Core

  const NoPermission := "Você não tem permissão para realizar esta ação."
  const InvalidId := "ID do pedido inválido."
  const OrderNotFound := "Pedido não encontrado."
  const Resent := "Webhook reenviado com sucesso!"
  const ResendFailed := "Falha ao reenviar webhook."

  /** The reply the handler ends with. */
  datatype Reply =
      /** `check_ajax_referer` failed: the request dies before anything else runs. */
    | NonceRejected
      /** `wp_send_json_error(['message' => ...], status)`. */
    | Failure(status: int, message: string)
      /** `wp_send_json_success(['message' => ..., 'sent_at' => ...])`. */
    | Success(message: string, sentAt: int)
      /** the dispatch raised an Error (an order without a creation date): the request ends with no JSON reply */
    | Died

  /** The markers the handler deletes: sent, error and response, but not the last attempt. */
  const ClearedKeys: seq<Key> := [SentKey, ErrorKey, ResponseKey]

  /** `isset($_POST['order_id']) ? intval($_POST['order_id']) : 0`. */
  function PostedOrderId(posted: Option<Value>): int {
    match posted
    case None => 0
    case Some(v) => ToInt(v)
  }

  /**
   * The failure message: the base text, then the record's 'error' entry when it has one, else
   * the first 100 characters of its 'body'; with no error record, the base text alone.
   */
  function FailureMessage(e: Option<ErrorRecord>): (r: string)
    ensures |r| >= |ResendFailed| && r[..|ResendFailed|] == ResendFailed
    ensures e.None? ==> r == ResendFailed
    ensures e.Some? && !e.value.HttpError? ==> r == ResendFailed + " " + e.value.message
    ensures e.Some? && e.value.HttpError? ==>
      var b := e.value.body;
      && |ResendFailed| < |r| <= |ResendFailed| + 101
      && |r| - |ResendFailed| - 1 <= |b|
      && r[|ResendFailed|..] == " " + b[..|r| - |ResendFailed| - 1]
      && (|b| >= 100 ==> |r| == |ResendFailed| + 101)
      && (|b| <= 100 ==> r == ResendFailed + " " + b)
  {
    match e
    case None => ResendFailed
    case Some(Exception(_, msg)) => ResendFailed + " " + msg
    case Some(Untyped(_, msg)) => ResendFailed + " " + msg
    case Some(ConnectionError(_, msg)) => ResendFailed + " " + msg
    case Some(HttpError(_, _, body)) =>
      var cut := Truncate(body, 100);
      assert (ResendFailed + " " + cut)[|ResendFailed|..] == " " + cut;
      ResendFailed + " " + cut
  }

  /** What the handler did: its reply and the markers it leaves on the posted order. */
  datatype Resend = Resend(reply: Reply, markers: Markers)

  /**
   * The handler, for the posted order whose markers are `m`: nonce, permission (403), order id
   * (400) and order (404) are checked in that order, none of them touching a marker; then the
   * sent, error and response markers are deleted and `send_webhook` runs once. When that run
   * ends the request, the handler never gets to reply and the markers stay deleted.
   */
  function ResendSpec(env: Env, nonceOk: bool, canManage: bool, posted: Option<Value>, m: Markers, t: Transport): (r: Resend)
    ensures var id := PostedOrderId(posted);
      && (r.reply == NonceRejected <==> !nonceOk)
      && (r.reply == Failure(403, NoPermission) <==> nonceOk && !canManage)
      && (r.reply == Failure(400, InvalidId) <==> nonceOk && canManage && id == 0)
      && (r.reply == Failure(404, OrderNotFound) <==> nonceOk && canManage && id != 0 && id !in env.orders)
      && (!nonceOk || !canManage || id == 0 || id !in env.orders ==> r.markers == m)
      && (r.reply == Died ==> r.markers == WithoutAll(m, ClearedKeys))
  {
    var id := PostedOrderId(posted);
    if !nonceOk then Resend(NonceRejected, m)
    else if !canManage then Resend(Failure(403, NoPermission), m)
    else if id == 0 then Resend(Failure(400, InvalidId), m)
    else if id !in env.orders then Resend(Failure(404, OrderNotFound), m)
    else
      var step := CoreStep(env, WithoutAll(m, ClearedKeys), id, t);
      var after := step.markers;
      if step.attempt.Fatal? then Resend(Died, after)
      else if after.sent.Some? then Resend(Success(Resent, after.sent.value), after)
      else Resend(Failure(500, FailureMessage(after.error)), after)
  }

  /**
   * The request dies exactly when the dispatch raised an Error. Otherwise success is reported
   * exactly when the dispatch left a sent marker, whose value is the `sent_at` of the reply;
   * since the marker was cleared first, that means this very dispatch POSTed and got a 2xx.
   * Otherwise the reply is a 500 with the failure message of the error marker left behind.
   * The last-attempt marker is neither cleared nor written.
   */
  lemma ResendResult(env: Env, nonceOk: bool, canManage: bool, posted: Option<Value>, m: Markers, t: Transport)
    requires nonceOk && canManage && PostedOrderId(posted) != 0 && PostedOrderId(posted) in env.orders
    ensures var r := ResendSpec(env, nonceOk, canManage, posted, m, t);
      var id := PostedOrderId(posted);
      var step := CoreStep(env, WithoutAll(m, ClearedKeys), id, t);
      && r.markers == step.markers
      && (r.reply == Died <==> step.attempt.Fatal?)
      && (r.reply == Died <==> env.orders[id].created.None? && IsWebhookEnabledIn(env) && env.orders[id].paid)
      && (r.reply.Success? <==> r.markers.sent.Some?)
      && (r.reply.Success? ==> r.reply.sentAt == Stamp(env) && step.attempt.Posted? && step.attempt.delivered)
      && (!r.reply.Success? && r.reply != Died ==> r.reply == Failure(500, FailureMessage(r.markers.error)))
      && r.markers.lastAttempt == m.lastAttempt
      && (IsWebhookEnabledIn(env) && env.orders[id].paid ==> !step.attempt.Skipped?)
  {
    var id := PostedOrderId(posted);
    WithoutAllSpec(m, ClearedKeys);
    var cleared := WithoutAll(m, ClearedKeys);
    var step := CoreStep(env, cleared, id, t);
    if step.markers.sent.Some? {
      assert step.attempt.Posted? && step.attempt.delivered;
      assert CoreRecord(cleared, t.result, Stamp(env)).markers == step.markers;
    }
  }

  /** The dispatcher's own two checks on the settings, which the handler does not make itself. */
  predicate IsWebhookEnabledIn(env: Env) {
    IsWebhookEnabled(env.opts) && !IsEmptyString(BuildEndpoint(env.opts))
  }

  /** The handler, on the meta store: only the posted order's markers can change. */
  method ResendWebhook(meta: OrderMeta, env: Env, nonceOk: bool, canManage: bool, posted: Option<Value>, t: Transport)
    returns (reply: Reply)
    modifies meta
    ensures var id := PostedOrderId(posted);
      var r := ResendSpec(env, nonceOk, canManage, posted, old(meta.Get(id)), t);
      && reply == r.reply
      && meta.Get(id) == r.markers
      && forall j :: j != id ==> meta.Get(j) == old(meta.Get(j))
  {
    if !nonceOk {
      return NonceRejected;
    }
    if !canManage {
      return Failure(403, NoPermission);
    }
    var id := PostedOrderId(posted);
    if id == 0 {
      return Failure(400, InvalidId);
    }
    if id !in env.orders {
      return Failure(404, OrderNotFound);
    }
    meta.DeleteAll(id, ClearedKeys);
    var attempt := SendWebhook(meta, env, id, t);
    if attempt.Fatal? {
      return Died;
    }
    var after := meta.Get(id);
    if after.sent.Some? {
      reply := Success(Resent, after.sent.value);
    } else {
      reply := Failure(500, FailureMessage(after.error));
    }
  }
}
