/**
 * The webhook markers both pipelines keep in each order's post meta: `_sgtm_webhook_sent`,
 * `_sgtm_webhook_error`, `_sgtm_webhook_response` and `_sgtm_webhook_last_attempt`.
 *
 * Times are the value `current_time('mysql')` writes, read back as seconds: the site-local
 * wall clock, which is the UTC time plus the site's offset.
 */
module Meta {
  import opened Wrappers

  /** The array stored under `_sgtm_webhook_error`. */
  datatype ErrorRecord =
      /** type 'exception': an exception caught by the class-based dispatcher. */
    | Exception(at: int, message: string)
      /** no 'type' key: an exception caught by the procedural dispatcher. */
    | Untyped(at: int, message: string)
      /** type 'connection_error': `wp_remote_post` returned a `WP_Error`. */
    | ConnectionError(at: int, message: string)
      /** type 'http_error': a reply outside 2xx, with its body cut to 500 characters. */
    | HttpError(at: int, code: int, body: string)

  /** The array stored under `_sgtm_webhook_response`. */
  datatype ResponseRecord = ResponseRecord(code: int, body: string)

  /** The four markers of one order; None is a meta key that is absent. */
  datatype Markers = Markers(
    sent: Option<int>,
    error: Option<ErrorRecord>,
    response: Option<ResponseRecord>,
    lastAttempt: Option<int>)

  const NoMarkers := Markers(None, None, None, None)

  /** A sent marker and an error marker are never both present. */
  predicate Exclusive(m: Markers) {
    !(m.sent.Some? && m.error.Some?)
  }

  /** The meta keys, for `delete_post_meta`. */
  datatype Key = SentKey | ErrorKey | ResponseKey | LastAttemptKey

  /** The markers after `delete_post_meta` of one key. */
  function Without(m: Markers, k: Key): (r: Markers)
    ensures k == SentKey ==> r.sent == None
    ensures k == ErrorKey ==> r.error == None
    ensures k == ResponseKey ==> r.response == None
    ensures k == LastAttemptKey ==> r.lastAttempt == None
  {
    match k
    case SentKey => m.(sent := None)
    case ErrorKey => m.(error := None)
    case ResponseKey => m.(response := None)
    case LastAttemptKey => m.(lastAttempt := None)
  }

  /** The markers after deleting each of `keys` in turn. */
  function WithoutAll(m: Markers, keys: seq<Key>): Markers
    decreases keys
  {
    if keys == [] then m else WithoutAll(Without(m, keys[0]), keys[1..])
  }

  /** Deleting a list of keys removes exactly those markers and keeps the others. */
  lemma {:induction false} WithoutAllSpec(m: Markers, keys: seq<Key>)
    ensures WithoutAll(m, keys).sent == if SentKey in keys then None else m.sent
    ensures WithoutAll(m, keys).error == if ErrorKey in keys then None else m.error
    ensures WithoutAll(m, keys).response == if ResponseKey in keys then None else m.response
    ensures WithoutAll(m, keys).lastAttempt == if LastAttemptKey in keys then None else m.lastAttempt
    decreases keys
  {
    if keys != [] {
      WithoutAllSpec(Without(m, keys[0]), keys[1..]);
      assert keys == [keys[0]] + keys[1..];
    }
  }

  /** The post meta of every order, as `get_post_meta` / `update_post_meta` / `delete_post_meta` see it. */
  class OrderMeta {
    var markers: map<int, Markers>

    constructor ()
      ensures markers == map[]
    {
      markers := map[];
    }

    /** The markers of one order; an order never written has none. */
    function Get(id: int): Markers
      reads this
    {
      if id in markers then markers[id] else NoMarkers
    }

    method SetSent(id: int, at: int)
      modifies this
      ensures markers == old(markers)[id := old(Get(id)).(sent := Some(at))]
    {
      markers := markers[id := Get(id).(sent := Some(at))];
    }

    method SetError(id: int, e: ErrorRecord)
      modifies this
      ensures markers == old(markers)[id := old(Get(id)).(error := Some(e))]
    {
      markers := markers[id := Get(id).(error := Some(e))];
    }

    method SetResponse(id: int, r: ResponseRecord)
      modifies this
      ensures markers == old(markers)[id := old(Get(id)).(response := Some(r))]
    {
      markers := markers[id := Get(id).(response := Some(r))];
    }

    method SetLastAttempt(id: int, at: int)
      modifies this
      ensures markers == old(markers)[id := old(Get(id)).(lastAttempt := Some(at))]
    {
      markers := markers[id := Get(id).(lastAttempt := Some(at))];
    }

    method Delete(id: int, k: Key)
      modifies this
      ensures markers == old(markers)[id := Without(old(Get(id)), k)]
    {
      markers := markers[id := Without(Get(id), k)];
    }

    /** Deletes each of `keys` in turn, as consecutive `delete_post_meta` calls do. */
    method DeleteAll(id: int, keys: seq<Key>)
      modifies this
      ensures markers == old(markers)[id := WithoutAll(old(Get(id)), keys)]
    {
      var i := 0;
      markers := markers[id := Get(id)];
      while i < |keys|
        invariant 0 <= i <= |keys|
        invariant markers == old(markers)[id := WithoutAll(old(Get(id)), keys[..i])]
      {
        WithoutAllSnoc(old(Get(id)), keys[..i], keys[i]);
        assert keys[..i + 1] == keys[..i] + [keys[i]];
        Delete(id, keys[i]);
        i := i + 1;
      }
      assert keys[..i] == keys;
    }
  }

  /** Deleting one more key after a list is deleting the extended list. */
  lemma {:induction false} WithoutAllSnoc(m: Markers, keys: seq<Key>, k: Key)
    ensures WithoutAll(m, keys + [k]) == Without(WithoutAll(m, keys), k)
    decreases keys
  {
    if keys != [] {
      assert (keys + [k])[1..] == keys[1..] + [k];
      WithoutAllSnoc(Without(m, keys[0]), keys[1..], k);
    }
  }
}
