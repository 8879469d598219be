/**
 * `WC_SGTM_Statistics_Manager` (includes/class-wc-sgtm-webhook-statistics-manager.php): the
 * `wc_sgtm_webhook_stats` table. Rows are appended by the sent and error listeners, deleted by
 * the retention cleanup and never modified; the success rate and the recent-logs query read it.
 */
module Statistics {
  import opened Wrappers
  import opened Php
  import opened Delivery
  import opened Sender

  /** One row of the table; `createdAt` is the stored time in seconds. */
  datatype StatRow = StatRow(
    orderId: int,
    eventType: string,
    status: string,
    responseCode: int,
    message: string,
    createdAt: int)

  const SentMessage := "Webhook enviado com sucesso"
  const DaySeconds := 86400

  /** `$response['response_code'] ?? $default`, stored through the `%d` format. */
  function ResponseCode(response: map<string, Value>, default: int): (c: int)
    ensures "response_code" !in response ==> c == default
    ensures "response_code" in response && response["response_code"] == Null ==> c == default
    ensures "response_code" in response && response["response_code"].Int? ==> c == response["response_code"].i
  {
    if "response_code" in response && response["response_code"] != Null then ToInt(response["response_code"]) else default
  }

  /** The row `register_webhook_sent` inserts: a 'purchase' success, code 200 unless the response says otherwise. */
  function SentRow(orderId: Value, response: map<string, Value>, at: int): (r: StatRow)
    ensures r.status == "success" && r.eventType == "purchase" && r.message == SentMessage
    ensures r.orderId == ToInt(orderId) && r.createdAt == at
    ensures "response_code" !in response ==> r.responseCode == 200
  {
    StatRow(ToInt(orderId), "purchase", "success", ResponseCode(response, 200), SentMessage, at)
  }

  /** The row `register_webhook_error` inserts: a 'purchase' error carrying the message, code 0 unless the response says otherwise. */
  function ErrorRow(orderId: Value, error: string, response: map<string, Value>, at: int): (r: StatRow)
    ensures r.status == "error" && r.eventType == "purchase" && r.message == error
    ensures r.orderId == ToInt(orderId) && r.createdAt == at
    ensures "response_code" !in response ==> r.responseCode == 0
  {
    StatRow(ToInt(orderId), "purchase", "error", ResponseCode(response, 0), error, at)
  }

  /** The rows created at or after `cutoff`, in table order: what `DELETE ... WHERE created_at < cutoff` keeps. */
  function Kept(rows: seq<StatRow>, cutoff: int): seq<StatRow> {
    if rows == [] then []
    else Kept(rows[..|rows| - 1], cutoff) + (if rows[|rows| - 1].createdAt >= cutoff then [rows[|rows| - 1]] else [])
  }

  /**
   * The cleanup deletes exactly the rows created before the cutoff: every row at or after the
   * cutoff stays as many times as it was in the table, and every older row is gone.
   */
  lemma {:induction false} KeptCount(rows: seq<StatRow>, cutoff: int, x: StatRow)
    ensures multiset(Kept(rows, cutoff))[x] == if x.createdAt >= cutoff then multiset(rows)[x] else 0
  {
    if rows != [] {
      var front := rows[..|rows| - 1];
      KeptCount(front, cutoff, x);
      assert rows == front + [rows[|rows| - 1]];
    }
  }

  /** The kept rows are all at or after the cutoff, and a table with no older row is kept whole. */
  lemma {:induction false} KeptBounds(rows: seq<StatRow>, cutoff: int)
    ensures forall k :: 0 <= k < |Kept(rows, cutoff)| ==> Kept(rows, cutoff)[k].createdAt >= cutoff
    ensures |Kept(rows, cutoff)| <= |rows|
    ensures (forall k :: 0 <= k < |rows| ==> rows[k].createdAt >= cutoff) ==> Kept(rows, cutoff) == rows
  {
    if rows != [] {
      var front := rows[..|rows| - 1];
      KeptBounds(front, cutoff);
      if forall k :: 0 <= k < |rows| ==> rows[k].createdAt >= cutoff {
        assert forall k :: 0 <= k < |front| ==> front[k] == rows[k];
        assert rows == front + [rows[|rows| - 1]];
      }
    }
  }

  /** `data_retention_days` with its default of 90 days. */
  function RetentionDays(setting: Option<Value>): int {
    match setting
    case None => 90
    case Some(v) => ToInt(v)
  }

  /** `strtotime("-N days")` as seconds. */
  function Cutoff(now: int, days: int): int {
    now - days * DaySeconds
  }

  // ---------------------------------------------------------------------------------------------
  // The success rate
  // ---------------------------------------------------------------------------------------------

  /** `$total > 0 ? round($successful / $total * 100) : 0`, rounding halves up as PHP does for positive values. */
  function SuccessRate(total: nat, successful: nat): int {
    if total == 0 then 0 else (200 * successful + total) / (2 * total)
  }

  /** A product grows with its second factor. */
  lemma MulMonotone(a: nat, b: int, c: int)
    requires b <= c
    ensures a * b <= a * c
  {
  }

  /**
   * The rate is the nearest whole percentage: within half a point of 100 × successful / total
   * (a tie goes up), 0 with no rows, and in 0..100 whenever the successful rows are among the
   * counted ones; all successful gives 100 and none gives 0.
   */
  lemma SuccessRateSpec(total: nat, successful: nat)
    ensures total == 0 ==> SuccessRate(total, successful) == 0
    ensures total > 0 ==>
      var r := SuccessRate(total, successful);
      && 2 * (100 * successful) - total < 2 * total * r <= 2 * (100 * successful) + total
    ensures successful <= total ==> 0 <= SuccessRate(total, successful) <= 100
    ensures total > 0 && successful == total ==> SuccessRate(total, successful) == 100
    ensures successful == 0 ==> SuccessRate(total, successful) == 0
  {
    if total > 0 {
      var d := 2 * total;
      var q := 200 * successful + total;
      var r := q / d;
      assert d * r <= q < d * r + d;
      assert 2 * total * r == d * r;
      if successful <= total {
        if r > 100 {
          MulMonotone(d, 101, r);
          assert false;
        }
      }
      if successful == total {
        assert d * 100 <= q < d * 101;
        if r < 100 {
          MulMonotone(d, r + 1, 100);
        }
      }
      if successful == 0 {
        if r > 0 {
          MulMonotone(d, 1, r);
        }
      }
    }
  }

  /** The rows with status 'success'. */
  function Successful(rows: seq<StatRow>): (r: seq<StatRow>)
    ensures |r| <= |rows|
  {
    if rows == [] then []
    else Successful(rows[..|rows| - 1]) + (if rows[|rows| - 1].status == "success" then [rows[|rows| - 1]] else [])
  }

  /** The 30-day success rate `get_enhanced_statistics` reports, over the rows created since `since`. */
  function WindowRate(rows: seq<StatRow>, since: int): (r: int)
    ensures 0 <= r <= 100
  {
    var window := Kept(rows, since);
    SuccessRateSpec(|window|, |Successful(window)|);
    SuccessRate(|window|, |Successful(window)|)
  }

  // ---------------------------------------------------------------------------------------------
  // get_recent_logs
  // ---------------------------------------------------------------------------------------------

  /** Newest first by `created_at`. */
  predicate NewestFirst(rows: seq<StatRow>) {
    forall i, j :: 0 <= i < j < |rows| ==> rows[i].createdAt >= rows[j].createdAt
  }

  /** Places a row into a newest-first list, after the rows at least as new. */
  function InsertByDate(x: StatRow, sorted: seq<StatRow>): (r: seq<StatRow>)
    ensures |r| == |sorted| + 1 && (r[0] == x || (sorted != [] && r[0] == sorted[0]))
  {
    if sorted == [] || sorted[0].createdAt <= x.createdAt then [x] + sorted
    else [sorted[0]] + InsertByDate(x, sorted[1..])
  }

  /** Inserting keeps a list newest first. */
  lemma {:induction false} InsertByDateSorted(x: StatRow, sorted: seq<StatRow>)
    requires NewestFirst(sorted)
    ensures NewestFirst(InsertByDate(x, sorted))
  {
    if sorted != [] && sorted[0].createdAt > x.createdAt {
      InsertByDateSorted(x, sorted[1..]);
      var rest := InsertByDate(x, sorted[1..]);
      assert rest[0].createdAt <= sorted[0].createdAt;
    }
  }

  /** Inserting adds exactly the row. */
  lemma {:induction false} InsertByDateCount(x: StatRow, sorted: seq<StatRow>)
    ensures multiset(InsertByDate(x, sorted)) == multiset(sorted) + multiset{x}
  {
    if sorted != [] && sorted[0].createdAt > x.createdAt {
      InsertByDateCount(x, sorted[1..]);
      assert sorted == [sorted[0]] + sorted[1..];
    }
  }

  /** `ORDER BY created_at DESC`. */
  function ByDateDesc(rows: seq<StatRow>): (r: seq<StatRow>)
    ensures NewestFirst(r) && multiset(r) == multiset(rows)
  {
    if rows == [] then []
    else
      var rest := ByDateDesc(rows[1..]);
      InsertByDateSorted(rows[0], rest);
      InsertByDateCount(rows[0], rest);
      assert multiset(rows) == multiset(rows[1..]) + multiset{rows[0]} by {
        assert rows == [rows[0]] + rows[1..];
      }
      InsertByDate(rows[0], rest)
  }

  /** `SELECT * ... ORDER BY created_at DESC LIMIT n`. */
  function NewestRows(rows: seq<StatRow>, limit: nat): seq<StatRow> {
    var sorted := ByDateDesc(rows);
    if |sorted| <= limit then sorted else sorted[..limit]
  }

  /** At most `limit` rows, all from the table, newest first, and as many as the table can give. */
  lemma NewestRowsShape(rows: seq<StatRow>, limit: nat)
    ensures var r := NewestRows(rows, limit);
      && |r| == (if |rows| <= limit then |rows| else limit)
      && NewestFirst(r)
      && multiset(r) <= multiset(rows)
  {
    var sorted := ByDateDesc(rows);
    assert |sorted| == |multiset(sorted)| == |rows|;
    if |sorted| > limit {
      assert sorted == sorted[..limit] + sorted[limit..];
      assert multiset(sorted) == multiset(sorted[..limit]) + multiset(sorted[limit..]);
    }
  }

  /** No row left out of the recent logs is newer than a row returned. */
  lemma NewestRowsAreNewest(rows: seq<StatRow>, limit: nat, y: StatRow, k: nat)
    requires y in rows && y !in NewestRows(rows, limit) && k < |NewestRows(rows, limit)|
    ensures y.createdAt <= NewestRows(rows, limit)[k].createdAt
  {
    var sorted := ByDateDesc(rows);
    assert y in multiset(sorted);
    var j :| 0 <= j < |sorted| && sorted[j] == y;
    NewestRowsKeepsHead(rows, limit, j);
  }

  /** The first `limit` positions of the sorted table are all returned. */
  lemma NewestRowsKeepsHead(rows: seq<StatRow>, limit: nat, j: int)
    ensures 0 <= j < |ByDateDesc(rows)| && j < limit ==> ByDateDesc(rows)[j] in NewestRows(rows, limit)
  {
    var sorted := ByDateDesc(rows);
    if 0 <= j < |sorted| && j < limit {
      assert NewestRows(rows, limit)[j] == sorted[j];
    }
  }

  // ---------------------------------------------------------------------------------------------
  // The table
  // ---------------------------------------------------------------------------------------------

  /** The table: whether it exists, and its rows in insertion order. */
  class StatsTable {
    var present: bool
    var rows: seq<StatRow>

    constructor ()
      ensures !present && rows == []
    {
      present := false;
      rows := [];
    }

    /** `$wpdb->insert`: one row appended; an insert into a missing table stores nothing. */
    method Insert(row: StatRow)
      modifies this
      ensures present == old(present)
      ensures rows == if present then old(rows) + [row] else old(rows)
    {
      if present {
        rows := rows + [row];
      }
    }

    /** `register_webhook_sent($order_id, $response)`. */
    method RegisterSent(orderId: Value, response: map<string, Value>, at: int)
      modifies this
      ensures present == old(present)
      ensures rows == if present then old(rows) + [SentRow(orderId, response, at)] else old(rows)
    {
      Insert(SentRow(orderId, response, at));
    }

    /** `register_webhook_error($order_id, $error, $response = array())`. */
    method RegisterError(orderId: Value, error: string, response: map<string, Value>, at: int)
      modifies this
      ensures present == old(present)
      ensures rows == if present then old(rows) + [ErrorRow(orderId, error, response, at)] else old(rows)
    {
      Insert(ErrorRow(orderId, error, response, at));
    }

    /** `cleanup_old_stats`: a no-op without the table; otherwise the rows older than the retention period go. */
    method Cleanup(retention: Option<Value>, now: int) returns (deleted: nat)
      modifies this
      ensures present == old(present)
      ensures !present ==> rows == old(rows) && deleted == 0
      ensures present ==> rows == Kept(old(rows), Cutoff(now, RetentionDays(retention)))
      ensures deleted == |old(rows)| - |rows|
    {
      if !present {
        return 0;
      }
      var cutoff := Cutoff(now, RetentionDays(retention));
      KeptBounds(rows, cutoff);
      var kept := Kept(rows, cutoff);
      deleted := |rows| - |kept|;
      rows := kept;
    }

    /** `create_stats_table`: nothing happens when the table present; otherwise it is created empty. */
    method CreateTable()
      modifies this
      ensures present
      ensures old(present) ==> rows == old(rows)
      ensures !old(present) ==> rows == []
    {
      if present {
        return;
      }
      present := true;
      rows := [];
    }

    /** `get_recent_logs($limit = 50)`: nothing without the table. */
    function RecentLogs(limit: nat): (r: seq<StatRow>)
      reads this
      ensures !present ==> r == []
      ensures |r| <= limit && NewestFirst(r) && multiset(r) <= multiset(rows)
    {
      if !present then [] else NewestRowsShape(rows, limit); NewestRows(rows, limit)
    }
  }

  // ---------------------------------------------------------------------------------------------
  // The sender's actions reaching the listeners
  // ---------------------------------------------------------------------------------------------

  /**
   * The row the table gets for one action of the stand-alone sender, as the listeners are
   * registered: the error action passes its details array as `$error` and no `$response`, so
   * the row's code is the default 0 and its message is whatever text the database layer makes
   * of an array (`arrayText`), the same for every error.
   */
  function HookRowAsWritten(h: Hook, at: int, arrayText: string): StatRow {
    match h
    case SentHook(id, code) => SentRow(id, map["response_code" := Int(code)], at)
    case ErrorHook(id, code, error) => ErrorRow(id, arrayText, map[], at)
  }

  /**
   * An HTTP 500 and an HTTP 404 reply: the sender reports two codes and two error texts, the rows
   * both say code 0 and carry the same message, so at least one of them does not hold its error text.
   */
  lemma HookRowAsWrittenLosesCode(settings: map<string, Value>, arrayText: string)
    requires "webhook_url" in settings && settings["webhook_url"] == Str("https://example.test/data")
    ensures var run500 := SenderSend(settings, Some(Int(7)), Http(500, ""));
      var run404 := SenderSend(settings, Some(Int(7)), Http(404, ""));
      var row500 := HookRowAsWritten(run500.hooks[0], 0, arrayText);
      var row404 := HookRowAsWritten(run404.hooks[0], 0, arrayText);
      && run500.result.responseCode == 500 && run404.result.responseCode == 404
      && row500.responseCode == 0 && row404.responseCode == 0
      && run500.result.error != run404.result.error
      && row500.message == row404.message
      && (Some(row500.message) != run500.result.error || Some(row404.message) != run404.result.error)
  {
    var run500 := SenderSend(settings, Some(Int(7)), Http(500, ""));
    var run404 := SenderSend(settings, Some(Int(7)), Http(404, ""));
    assert run500.hooks[0] == ErrorHook(Int(7), 500, HttpError(500));
    assert run404.hooks[0] == ErrorHook(Int(7), 404, HttpError(404));
    assert HttpError(500)[5] != HttpError(404)[5];
  }

  /** The row the listeners evidently mean to store: the error text and code out of the details array. */
  function HookRow(h: Hook, at: int): StatRow {
    match h
    case SentHook(id, code) => SentRow(id, map["response_code" := Int(code)], at)
    case ErrorHook(id, code, error) => ErrorRow(id, error, map["response_code" := Int(code)], at)
  }

  /**
   * With the details unpacked, the row agrees with the sender's own result: status 'success'
   * exactly on success, the same response code, and the error text as the message of an error row.
   */
  lemma HookRowAgrees(settings: map<string, Value>, orderId: Option<Value>, reply: HttpResult, at: int)
    requires !IsEmpty(Coalesce(settings, "webhook_url", Str("")))
    ensures var run := SenderSend(settings, orderId, reply);
      var row := HookRow(run.hooks[0], at);
      && (row.status == "success" <==> run.result.success)
      && row.responseCode == run.result.responseCode
      && (!run.result.success ==> Some(row.message) == run.result.error)
      && row.orderId == ToInt(run.hooks[0].orderId)
  {
  }

  /**
   * A listener receiving one of the sender's actions, as registered: the error listener gets the
   * details array in place of its message and no response.
   */
  method RecordHook(table: StatsTable, h: Hook, at: int, arrayText: string)
    modifies table
    ensures table.present == old(table.present)
    ensures table.rows == if table.present then old(table.rows) + [HookRowAsWritten(h, at, arrayText)] else old(table.rows)
  {
    match h
    case SentHook(id, code) => table.RegisterSent(id, map["response_code" := Int(code)], at);
    case ErrorHook(id, code, error) => table.RegisterError(id, arrayText, map[], at);
  }

  /** A successful send is recorded as written and as intended alike: only error rows differ. */
  lemma HookRowsAgreeOnSuccess(h: Hook, at: int, arrayText: string)
    requires h.SentHook?
    ensures HookRowAsWritten(h, at, arrayText) == HookRow(h, at)
    ensures HookRowAsWritten(h, at, arrayText).status == "success"
  {
  }
}
