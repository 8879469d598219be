/**
 * `WC_SGTM_Webhook_Sender::send_webhook` (includes/class-wc-sgtm-webhook-sender.php): a
 * stand-alone sender that classifies the outcome of one POST into a result array and announces
 * it through the `wc_sgtm_webhook_sent` / `wc_sgtm_webhook_error` actions.
 */
module Sender {
  import opened Wrappers
  import opened Php
  import opened Delivery

  const NoUrl := "Webhook URL não configurada"

  /** `$settings[$key] ?? $default`: the default when the key is absent or holds null. */
  function Coalesce(settings: map<string, Value>, key: string, default: Value): (r: Value)
    ensures key in settings && settings[key] != Null ==> r == settings[key]
    ensures key !in settings || settings[key] == Null ==> r == default
  {
    if key in settings && settings[key] != Null then settings[key] else default
  }

  /** The POST the sender makes: the URL, `intval` of the timeout, and the JSON content type alone. */
  datatype SenderRequest = SenderRequest(url: string, timeout: int, headers: map<string, string>)

  /** An action fired with its two arguments: the order id and the details array. */
  datatype Hook =
      /** `do_action('wc_sgtm_webhook_sent', $order_id, ['response_code' => $code])` */
    | SentHook(orderId: Value, responseCode: int)
      /** `do_action('wc_sgtm_webhook_error', $order_id, ['code' => $code, 'error' => $error])` */
    | ErrorHook(orderId: Value, code: int, error: string)

  /** The returned array `{success, response_code, error}`; a null error is None. */
  datatype SendResult = SendResult(success: bool, responseCode: int, error: Option<string>)

  /** One call: the POST it made, if any, the actions it fired, and its result. */
  datatype SenderRun = SenderRun(request: Option<SenderRequest>, hooks: seq<Hook>, result: SendResult)

  /** `'HTTP ' . $code`. */
  function HttpError(code: int): string {
    "HTTP " + IntToString(code)
  }

  /**
   * `send_webhook($payload)` with settings `settings`, the payload's `custom_data.order_id`
   * (None when absent) and the transport's reply to the POST.
   *
   * An empty URL setting (absent, null, '' or '0') gives the fixed failure, with no POST and no
   * action. Otherwise: one POST with the `intval` timeout (30 when unset) and the JSON content
   * type; `success` holds exactly for a 2xx reply; `error` is null exactly on success, and is
   * the transport's message for a connection error and 'HTTP <code>' otherwise; the code is 0
   * for a connection error. Exactly one action fires, the sent action exactly on success, with
   * the order id defaulting to 0.
   */
  function SenderSend(settings: map<string, Value>, orderId: Option<Value>, reply: HttpResult): (r: SenderRun)
    ensures IsEmpty(Coalesce(settings, "webhook_url", Str(""))) <==> r.request.None?
    ensures r.request.None? ==> r == SenderRun(None, [], SendResult(false, 0, Some(NoUrl)))
    ensures r.request.Some? ==>
      var id := if orderId.Some? && orderId.value != Null then orderId.value else Int(0);
      && r.request.value.url == ToStr(settings["webhook_url"])
      && r.request.value.timeout == (if "timeout" in settings && settings["timeout"] != Null then ToInt(settings["timeout"]) else 30)
      && r.request.value.headers == map["Content-Type" := "application/json"]
      && (r.result.success <==> reply.Http? && IsSuccess(reply.code))
      && (r.result.error.None? <==> r.result.success)
      && r.result.responseCode == (if reply.Http? then reply.code else 0)
      && (reply.ConnErr? ==> r.result.error == Some(reply.message))
      && (reply.Http? && !r.result.success ==> r.result.error == Some("HTTP " + IntToString(reply.code)))
      && |r.hooks| == 1
      && (r.hooks[0].SentHook? <==> r.result.success)
      && r.hooks[0].orderId == id
      && (r.hooks[0].SentHook? ==> r.hooks[0].responseCode == r.result.responseCode)
      && (r.hooks[0].ErrorHook? ==> r.hooks[0].code == r.result.responseCode && Some(r.hooks[0].error) == r.result.error)
  {
    var url := Coalesce(settings, "webhook_url", Str(""));
    var id := if orderId.Some? && orderId.value != Null then orderId.value else Int(0);
    if IsEmpty(url) then SenderRun(None, [], SendResult(false, 0, Some(NoUrl)))
    else
      var request := SenderRequest(ToStr(url), ToInt(Coalesce(settings, "timeout", Int(30))),
        map["Content-Type" := "application/json"]);
      match reply
      case ConnErr(msg) => SenderRun(Some(request), [ErrorHook(id, 0, msg)], SendResult(false, 0, Some(msg)))
      case Http(code, _) =>
        if IsSuccess(code) then SenderRun(Some(request), [SentHook(id, code)], SendResult(true, code, None))
        else SenderRun(Some(request), [ErrorHook(id, code, HttpError(code))], SendResult(false, code, Some(HttpError(code))))
  }

  /** The error text of a failed HTTP reply reads back as its status code. */
  lemma HttpErrorNamesCode(code: PhpInt)
    ensures |HttpError(code)| > 5 && HttpError(code)[..5] == "HTTP "
    ensures ToInt(Str(HttpError(code)[5..])) == code
  {
    assert HttpError(code)[5..] == IntToString(code);
    IntToStringRoundTrip(code);
  }
}
