/**
 * `WC_SGTM_Installer` (includes/class-wc-sgtm-webhook-installer.php): creates the statistics
 * table, records the installed version, and on an upgrade from before 2.0.0 migrates the sent
 * markers of recent orders into the table, one row per order that has none yet.
 */
module Installer {
  import opened Wrappers
  import opened Php
  import opened Statistics

  /** A version string split into its numeric parts: "2.0.0" is [2, 0, 0]. */
  type Version = seq<nat>

  /** The version `get_option('wc_sgtm_webhook_version', '1.0.0')` assumes when none is stored. */
  const FirstVersion: Version := [1, 0, 0]
  /** The release whose upgrade creates the table and migrates the legacy markers. */
  const MigrationVersion: Version := [2, 0, 0]

  /**
   * `version_compare($a, $b, '<')` on numeric versions: part by part from the left, and a version
   * that is a proper prefix of another ("1.0" against "1.0.0") is the older one.
   */
  predicate VersionLess(a: Version, b: Version) {
    if a == [] then b != []
    else if b == [] then false
    else a[0] < b[0] || (a[0] == b[0] && VersionLess(a[1..], b[1..]))
  }

  /** `version_compare` is a strict order: never `a < a`, never both ways, and transitive. */
  lemma {:induction false} VersionLessStrict(a: Version, b: Version, c: Version)
    ensures !VersionLess(a, a)
    ensures VersionLess(a, b) ==> !VersionLess(b, a)
    ensures VersionLess(a, b) && VersionLess(b, c) ==> VersionLess(a, c)
  {
    if a != [] && b != [] && c != [] {
      VersionLessStrict(a[1..], b[1..], c[1..]);
    } else if a != [] && b != [] {
      VersionLessStrict(a[1..], b[1..], []);
    } else if a != [] {
      VersionLessStrict(a[1..], [], []);
    }
  }

  /** One order the migration query returns: its id, its sent marker and its error marker. */
  datatype LegacyOrder = LegacyOrder(id: int, sentDate: int, error: string)

  /** Whether the table has a row for the order: `SELECT COUNT(*) ... WHERE order_id = %d`. */
  predicate HasRowFor(rows: seq<StatRow>, id: int) {
    exists k :: 0 <= k < |rows| && rows[k].orderId == id
  }

  /**
   * The row the migration inserts for an order: a 'success' with code 200 and the standard
   * message when the error marker is empty, else an 'error' with code 0 and the marker as its
   * message; created when the order was sent.
   */
  function MigrationRow(o: LegacyOrder): (r: StatRow)
    ensures r.orderId == o.id && r.eventType == "purchase" && r.createdAt == o.sentDate
    ensures r.status == "success" <==> IsEmptyString(o.error)
    ensures r.status == "success" ==> r.responseCode == 200 && r.message == SentMessage
    ensures r.status != "success" ==> r.status == "error" && r.responseCode == 0 && r.message == o.error
  {
    if IsEmptyString(o.error) then StatRow(o.id, "purchase", "success", 200, SentMessage, o.sentDate)
    else StatRow(o.id, "purchase", "error", 0, o.error, o.sentDate)
  }

  /** The table after the migration loop has visited `orders` in turn, starting from `rows`. */
  function Migrated(rows: seq<StatRow>, orders: seq<LegacyOrder>): seq<StatRow> {
    if orders == [] then rows
    else
      var before := Migrated(rows, orders[..|orders| - 1]);
      var o := orders[|orders| - 1];
      if HasRowFor(before, o.id) then before else before + [MigrationRow(o)]
  }

  /**
   * The migration only appends, at most one row per order visited; each appended row is the
   * migration row of one of the orders, and is the first row of its order id in the table, so
   * no order that had a row gets another and no order gets two.
   */
  lemma {:induction false} MigratedAppends(rows: seq<StatRow>, orders: seq<LegacyOrder>)
    ensures var m := Migrated(rows, orders);
      && |rows| <= |m| <= |rows| + |orders|
      && m[..|rows|] == rows
      && (forall k :: |rows| <= k < |m| ==> !HasRowFor(m[..k], m[k].orderId))
      && (forall k :: |rows| <= k < |m| ==> exists j :: 0 <= j < |orders| && m[k] == MigrationRow(orders[j]))
  {
    if orders != [] {
      var front := orders[..|orders| - 1];
      var before := Migrated(rows, front);
      var o := orders[|orders| - 1];
      MigratedAppends(rows, front);
      forall k | |rows| <= k < |before|
        ensures exists j :: 0 <= j < |orders| && before[k] == MigrationRow(orders[j])
      {
        var j :| 0 <= j < |front| && before[k] == MigrationRow(front[j]);
        assert front[j] == orders[j];
      }
      if !HasRowFor(before, o.id) {
        var m := before + [MigrationRow(o)];
        assert m[..|before|] == before;
        assert m[..|rows|] == before[..|rows|];
        forall k | |rows| <= k < |m|
          ensures !HasRowFor(m[..k], m[k].orderId)
        {
          if k < |before| {
            assert m[..k] == before[..k];
          }
        }
        assert m[|before|] == MigrationRow(orders[|orders| - 1]);
      }
    }
  }

  /** After the migration every order visited has a row in the table. */
  lemma {:induction false} MigratedCovers(rows: seq<StatRow>, orders: seq<LegacyOrder>, j: int)
    requires 0 <= j < |orders|
    ensures HasRowFor(Migrated(rows, orders), orders[j].id)
  {
    var front := orders[..|orders| - 1];
    var before := Migrated(rows, front);
    var o := orders[|orders| - 1];
    if j < |front| {
      MigratedCovers(rows, front, j);
      assert front[j] == orders[j];
      var k :| 0 <= k < |before| && before[k].orderId == orders[j].id;
      if !HasRowFor(before, o.id) {
        assert (before + [MigrationRow(o)])[k] == before[k];
      }
    } else if !HasRowFor(before, o.id) {
      assert (before + [MigrationRow(o)])[|before|].orderId == o.id;
    }
  }

  /** An order that already had a row gets no new one. */
  lemma MigratedSkipsExisting(rows: seq<StatRow>, orders: seq<LegacyOrder>, id: int, k: int)
    requires HasRowFor(rows, id)
    requires |rows| <= k < |Migrated(rows, orders)|
    ensures Migrated(rows, orders)[k].orderId != id
  {
    MigratedAppends(rows, orders);
    var m := Migrated(rows, orders);
    var i :| 0 <= i < |rows| && rows[i].orderId == id;
    assert m[..k][i] == rows[i];
  }

  /** With distinct order ids and none in the table yet, every order gets its row, in query order. */
  lemma {:induction false} MigratedAllNew(rows: seq<StatRow>, orders: seq<LegacyOrder>)
    requires forall i, j :: 0 <= i < j < |orders| ==> orders[i].id != orders[j].id
    requires forall j :: 0 <= j < |orders| ==> !HasRowFor(rows, orders[j].id)
    ensures Migrated(rows, orders) == rows + seq(|orders|, j requires 0 <= j < |orders| => MigrationRow(orders[j]))
  {
    if orders != [] {
      var front := orders[..|orders| - 1];
      var o := orders[|orders| - 1];
      MigratedAllNew(rows, front);
      var before := Migrated(rows, front);
      assert before == rows + seq(|front|, j requires 0 <= j < |front| => MigrationRow(front[j]));
      forall k | 0 <= k < |before|
        ensures before[k].orderId != o.id
      {
        if k < |rows| {
          assert before[k] == rows[k];
        } else {
          assert before[k] == MigrationRow(front[k - |rows|]);
          assert front[k - |rows|] == orders[k - |rows|];
        }
      }
      assert Migrated(rows, orders) == before + [MigrationRow(o)];
    }
  }

  /** The installer's state: the stored version option and the statistics table. */
  class Installer {
    var version: Option<Version>
    const table: StatsTable

    constructor (table: StatsTable)
      ensures this.table == table && version.None?
    {
      this.table := table;
      version := None;
    }

    /** `get_option('wc_sgtm_webhook_version', '1.0.0')`. */
    function InstalledVersion(): (v: Version)
      reads this
      ensures version.Some? ==> v == version.value
      ensures version.None? ==> v == FirstVersion
    {
      version.GetOr(FirstVersion)
    }

    /** `install`: the table is created if missing, then the current version is stored. */
    method Install(current: Version)
      modifies this, table
      ensures version == Some(current) && table.present
      ensures old(table.present) ==> table.rows == old(table.rows)
      ensures !old(table.present) ==> table.rows == []
    {
      table.CreateTable();
      version := Some(current);
    }

    /**
     * `migrate_legacy_data`: without the table nothing happens. Otherwise each order of the
     * query, in turn, gets its migration row unless the table already has a row for it (one
     * inserted earlier in the same loop included); `migrated` counts the rows inserted.
     */
    method MigrateLegacyData(orders: seq<LegacyOrder>) returns (migrated: nat)
      modifies table
      ensures table.present == old(table.present)
      ensures !old(table.present) ==> table.rows == old(table.rows)
      ensures old(table.present) ==> table.rows == Migrated(old(table.rows), orders)
      ensures migrated == |table.rows| - |old(table.rows)| && migrated <= |orders|
    {
      MigratedAppends(table.rows, orders);
      if !table.present || orders == [] {
        return 0;
      }
      ghost var start := table.rows;
      migrated := 0;
      var i := 0;
      while i < |orders|
        invariant 0 <= i <= |orders|
        invariant table.present
        invariant table.rows == Migrated(start, orders[..i])
        invariant migrated == |table.rows| - |start|
      {
        MigratedAppends(start, orders[..i]);
        assert orders[..i + 1][..i] == orders[..i];
        var o := orders[i];
        if !HasRowFor(table.rows, o.id) {
          table.Insert(MigrationRow(o));
          migrated := migrated + 1;
        }
        i := i + 1;
      }
      assert orders[..i] == orders;
    }

    /** `update($from)`: an installation from before 2.0.0 gets the table and the migration. */
    method Update(from: Version, orders: seq<LegacyOrder>)
      modifies table
      ensures !VersionLess(from, MigrationVersion) ==> table.present == old(table.present) && table.rows == old(table.rows)
      ensures VersionLess(from, MigrationVersion) ==>
        table.present && table.rows == Migrated(if old(table.present) then old(table.rows) else [], orders)
    {
      if VersionLess(from, MigrationVersion) {
        table.CreateTable();
        var _ := MigrateLegacyData(orders);
      }
    }

    /**
     * `check_update`: when the installed version is older than the current one, the upgrade
     * runs from it and the current version is stored; otherwise nothing changes.
     */
    method CheckUpdate(current: Version, orders: seq<LegacyOrder>)
      modifies this, table
      ensures var from := old(InstalledVersion());
        && (!VersionLess(from, current) ==>
              version == old(version) && table.present == old(table.present) && table.rows == old(table.rows))
        && (VersionLess(from, current) ==> version == Some(current))
        && (VersionLess(from, current) && VersionLess(from, MigrationVersion) ==>
              table.present && table.rows == Migrated(if old(table.present) then old(table.rows) else [], orders))
        && (VersionLess(from, current) && !VersionLess(from, MigrationVersion) ==>
              table.present == old(table.present) && table.rows == old(table.rows))
    {
      var installed := InstalledVersion();
      if VersionLess(installed, current) {
        Update(installed, orders);
        version := Some(current);
      }
    }
  }
}
