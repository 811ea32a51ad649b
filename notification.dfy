/**
 * Notification (app/app/Models/Notification.php): the notification list of
 * one user with a read flag per notification, the mark-as-read upsert on
 * notification_read_status, and the lookup of one notification by code, as
 * the statements they issue on the database. The read-status rows are also
 * given as an abstract table keyed by (notification code, user code), so
 * that what markAsRead does to that table can be stated directly.
 */
module NotificationSpec {
  import opened Text
  import opened Php
  import opened Db
  import Common

  // ---------------------------------------------------------------------
  // getNotificationsWithReadStatus

  /** The notifications addressed to the user, for the selected plant and the user's department, with is_read. */
  const BaseSql :=
      "SELECT nc.nc_title, nc.nc_content, nc.nc_created_datetime, nc.nc_created_by,\n"
    + "                    nc.nc_db_code, nc.nc_type,\n"
    + "                    CASE WHEN nrs.nrs_id IS NULL THEN 0\n"
    + "                        WHEN nrs.nrs_status = 1 THEN 1\n"
    + "                        ELSE 0\n"
    + "                    END AS is_read\n"
    + "                    FROM notification_center nc\n"
    + "                    LEFT JOIN notification_read_status nrs ON \n"
    + "                        nc.nc_db_code = nrs.nrs_nc_db_code AND \n"
    + "                        nrs.nrs_lu_db_code = :lu_db_code\n"
    + "                    WHERE \n"
    + "                        (nc.nc_recipient_list = '[]' OR \n"
    + "                        nc.nc_recipient_list LIKE :recipient_pattern)\n"
    + "                    AND (nc.nc_lp_plant_db_code = :selected_plant OR\n"
    + "                        nc.nc_lp_plant_db_code = '' OR\n"
    + "                        nc.nc_lp_plant_db_code IS NULL)\n"
    + "                    AND (nc.nc_lu_department = :user_department OR\n"
    + "                        nc.nc_lu_department = '' OR\n"
    + "                        nc.nc_lu_department IS NULL)\n"
    + "                    AND nc.nc_status = 1"

  const CountSql :=
      "SELECT COUNT(*) AS total,\n"
    + "            SUM(CASE WHEN nrs.nrs_nc_db_code IS NULL OR nrs.nrs_status = 0 THEN 1 ELSE 0 END) AS unread_count\n"
    + "            FROM notification_center nc\n"
    + "            LEFT JOIN notification_read_status nrs ON \n"
    + "                nc.nc_db_code = nrs.nrs_nc_db_code AND\n"
    + "                nrs.nrs_lu_db_code = :lu_db_code\n"
    + "            WHERE \n"
    + "                (nc.nc_recipient_list = '[]' OR \n"
    + "                nc.nc_recipient_list LIKE :recipient_pattern)\n"
    + "            AND (nc.nc_lp_plant_db_code = :selected_plant OR\n"
    + "                nc.nc_lp_plant_db_code = '' OR\n"
    + "                nc.nc_lp_plant_db_code IS NULL)\n"
    + "            AND (nc.nc_lu_department = :user_department OR\n"
    + "                nc.nc_lu_department = '' OR\n"
    + "                nc.nc_lu_department IS NULL)\n"
    + "            AND nc.nc_status = 1"

  /** The unreadOnly condition, appended to both queries. */
  const UnreadFilter := " AND (nrs.nrs_id IS NULL OR nrs.nrs_status = 0)"

  /** A base query with the unread condition when unreadOnly is set. */
  function Filtered(sql: string, unreadOnly: bool): string { if unreadOnly then sql + UnreadFilter else sql }

  function Offset(page: int, limit: int): int { (page - 1) * limit }

  /** The ORDER BY and OFFSET/FETCH tail of the data query. */
  function Window(page: int, limit: int): string
  {
    " \n             ORDER BY nc.nc_created_datetime DESC\n             OFFSET " + IntToString(Offset(page, limit)) + " ROWS\n             FETCH NEXT " + IntToString(limit) + " ROWS ONLY"
  }

  /** The four parameters both queries bind, in order; the recipient pattern is the user code between '%' signs. */
  function ListBinds(lu: Value, plant: Value, department: Value): seq<(string, Value)>
  {
    [(":lu_db_code", Bound(lu)), (":recipient_pattern", Str("%" + ToStr(lu) + "%")),
     (":selected_plant", Bound(plant)), (":user_department", Bound(department))]
  }

  /** The data query's text. */
  function DataSql(page: int, limit: int, unreadOnly: bool): string { Filtered(BaseSql, unreadOnly) + Window(page, limit) }

  function DataStatement(lu: Value, plant: Value, department: Value, page: int, limit: int, unreadOnly: bool): Statement
  {
    Statement(DataSql(page, limit, unreadOnly), ListBinds(lu, plant, department))
  }

  function CountStatement(lu: Value, plant: Value, department: Value, unreadOnly: bool): Statement
  {
    Statement(Filtered(CountSql, unreadOnly), ListBinds(lu, plant, department))
  }

  /** `$row[$key] ?? 0`, a missing row giving 0 as well. */
  function CountOf(row: Value, key: string): Value
  {
    if At(row, StrKey(key)) == Null then Int(0) else At(row, StrKey(key))
  }

  /** The array getNotificationsWithReadStatus returns, from the page's rows and the count row. */
  function Listing(rows: seq<Value>, count: Value, page: int, limit: int): Value
  {
    Arr([(StrKey("data"), Arr(Common.StrippedRows(ListOf(rows)))), (StrKey("total"), CountOf(count, "total")),
         (StrKey("unread_count"), CountOf(count, "unread_count")), (StrKey("page"), Int(page)), (StrKey("limit"), Int(limit))])
  }

  /** The result for the store's answers to the two queries. */
  function ListResult(store: Store, lu: Value, plant: Value, department: Value, page: int, limit: int, unreadOnly: bool): Value
  {
    Listing(store.rows(DataStatement(lu, plant, department, page, limit, unreadOnly)),
            FirstRow(store, CountStatement(lu, plant, department, unreadOnly)), page, limit)
  }

  // ---------------------------------------------------------------------
  // markAsRead

  const LookupSql :=
      "SELECT nrs_id, nrs_status FROM notification_read_status \n"
    + "                       WHERE nrs_nc_db_code = :nrs_nc_db_code \n"
    + "                       AND nrs_lu_db_code = :nrs_lu_db_code"

  const UpdateSql :=
      "UPDATE notification_read_status \n"
    + "                               SET nrs_status = 1, \n"
    + "                                   nrs_read_datetime = :nrs_read_datetime \n"
    + "                               WHERE nrs_nc_db_code = :nrs_nc_db_code \n"
    + "                               AND nrs_lu_db_code = :nrs_lu_db_code"

  const InsertSql :=
      "INSERT INTO notification_read_status (\n"
    + "                           nrs_db_code,\n"
    + "                           nrs_nc_db_code,\n"
    + "                           nrs_lu_db_code,\n"
    + "                           nrs_status,\n"
    + "                           nrs_read_datetime\n"
    + "                           ) VALUES (\n"
    + "                           :nrs_db_code,\n"
    + "                           :nrs_nc_db_code,\n"
    + "                           :nrs_lu_db_code,\n"
    + "                           1,\n"
    + "                           :nrs_read_datetime\n"
    + "                           )"

  /** The pair of codes a read-status row belongs to, bound under the given names. */
  function PairBinds(nc: Value, lu: Value): seq<(string, Value)>
  {
    [(":nrs_nc_db_code", Bound(nc)), (":nrs_lu_db_code", Bound(lu))]
  }

  function LookupStatement(nc: Value, lu: Value): Statement { Statement(LookupSql, PairBinds(nc, lu)) }

  /** The update to status 1; now is the current date and time. */
  function UpdateStatement(nc: Value, lu: Value, now: string): Statement
  {
    Statement(UpdateSql, [(":nrs_read_datetime", Str(now))] + PairBinds(nc, lu))
  }

  /** The insert of a new row with status 1; code is the generated db code. */
  function InsertStatement(code: Value, nc: Value, lu: Value, now: string): Statement
  {
    Statement(InsertSql, [(":nrs_db_code", Bound(code))] + PairBinds(nc, lu) + [(":nrs_read_datetime", Str(now))])
  }

  /** `$existingRecord['nrs_status'] != 1` */
  predicate Unread(row: Value) { !LooseEq(At(row, StrKey("nrs_status")), Int(1)) }

  /** The write markAsRead performs after its lookup, if any. */
  function MarkWrite(store: Store, nc: Value, lu: Value, code: Value, now: string): seq<Statement>
  {
    var row := FirstRow(store, LookupStatement(nc, lu));
    if !Truthy(row) then [InsertStatement(code, nc, lu, now)]
    else if Unread(row) then [UpdateStatement(nc, lu, now)]
    else []
  }

  function MarkStatements(store: Store, nc: Value, lu: Value, code: Value, now: string): seq<Statement>
  {
    [LookupStatement(nc, lu)] + MarkWrite(store, nc, lu, code, now)
  }

  /** markAsRead's result: the write's execute(), or true when there was nothing to write. */
  predicate MarkResult(store: Store, nc: Value, lu: Value, code: Value, now: string)
  {
    var w := MarkWrite(store, nc, lu, code, now);
    w == [] || store.succeeds(w[0])
  }

  // ---------------------------------------------------------------------
  // The read-status table

  /** One notification_read_status row. */
  datatype ReadStatus = ReadStatus(id: Value, dbCode: Value, status: Value, readAt: string)

  /** The rows, one per (notification code, user code). */
  type ReadTable = map<(Value, Value), ReadStatus>

  /** The columns the lookup selects. */
  function RowOf(s: ReadStatus): Value { Arr([(StrKey("nrs_id"), s.id), (StrKey("nrs_status"), s.status)]) }

  /** The store answers the lookup for (nc, lu) from the table. */
  predicate Mirrors(store: Store, t: ReadTable, nc: Value, lu: Value)
  {
    store.rows(LookupStatement(nc, lu)) == if (nc, lu) in t then [RowOf(t[(nc, lu)])] else []
  }

  /**
   * markAsRead on the table: an unread row becomes read at now, a read row
   * is left alone, a missing row is inserted read at now with the generated
   * code (newId is the identity the database assigns).
   */
  function MarkRead(t: ReadTable, nc: Value, lu: Value, code: Value, newId: Value, now: string): ReadTable
  {
    if (nc, lu) in t then
      var s := t[(nc, lu)];
      if !LooseEq(s.status, Int(1)) then t[(nc, lu) := s.(status := Int(1), readAt := now)] else t
    else t[(nc, lu) := ReadStatus(newId, code, Int(1), now)]
  }

  // ---------------------------------------------------------------------
  // getByCode

  const ByCodeSql := "SELECT TOP 1 * FROM notification_center WHERE nc_db_code = :nc_db_code"

  function ByCodeStatement(code: Value): Statement { Statement(ByCodeSql, [(":nc_db_code", Bound(code))]) }

  /** The row with its first prefix removed, or [] when there is none. */
  function ByCodeResult(store: Store, code: Value): Value
  {
    var row := FirstRow(store, ByCodeStatement(code));
    if Truthy(row) then Arr(Common.Rekeyed(EntriesOf(row), Common.AfterFirstUnderscore)) else Arr([])
  }

  // ---------------------------------------------------------------------
  // Properties

  /** A text with f appended or not, then w: it starts with the text, and with f after it exactly when appended. */
  lemma AppendShape(a: string, f: string, w: string, appended: bool)
    ensures var s := (if appended then a + f else a) + w;
      && IsPrefix(a, s)
      && (appended ==> IsPrefix(a + f, s))
      && (!appended ==> s == a + w)
  {
    var s := (if appended then a + f else a) + w;
    assert s[..|a|] == a;
    if appended {
      assert s[..|a + f|] == a + f;
    }
  }

  /**
   * The unread condition is on the data query exactly when asked for, right
   * after the shared conditions and before the ordering and window.
   */
  lemma UnreadOnData(page: int, limit: int, unreadOnly: bool)
    ensures var d := DataSql(page, limit, unreadOnly);
      && IsPrefix(BaseSql, d)
      && (unreadOnly ==> IsPrefix(BaseSql + UnreadFilter, d))
      && (!unreadOnly ==> d == BaseSql + Window(page, limit))
  {
    AppendShape(BaseSql, UnreadFilter, Window(page, limit), unreadOnly);
  }

  /** Likewise on the count query, where it comes last; both queries bind the same parameters. */
  lemma UnreadOnCount(lu: Value, plant: Value, department: Value, page: int, limit: int, unreadOnly: bool)
    ensures var c := CountStatement(lu, plant, department, unreadOnly).sql;
      && IsPrefix(CountSql, c)
      && (unreadOnly ==> IsSuffix(UnreadFilter, c))
      && (!unreadOnly ==> c == CountSql)
    ensures DataStatement(lu, plant, department, page, limit, unreadOnly).binds == CountStatement(lu, plant, department, unreadOnly).binds
  {
    var c := CountStatement(lu, plant, department, unreadOnly).sql;
    assert c[..|CountSql|] == CountSql;
    if unreadOnly {
      assert c[|c| - |UnreadFilter|..] == UnreadFilter;
    }
  }

  /** Appending a non-empty text changes the result, at the end or before a tail. */
  lemma AppendChanges(a: string, f: string, w: string)
    requires f != []
    ensures a + f + w != a + w && a + f != a
  {
    assert |a + f + w| != |a + w| && |a + f| != |a|;
  }

  /** The flag makes a difference to both queries. */
  lemma UnreadChangesBoth(lu: Value, plant: Value, department: Value, page: int, limit: int)
    ensures DataSql(page, limit, true) != DataSql(page, limit, false)
    ensures CountStatement(lu, plant, department, true) != CountStatement(lu, plant, department, false)
  {
    assert |UnreadFilter| > 0;
    AppendChanges(BaseSql, UnreadFilter, Window(page, limit));
    AppendChanges(CountSql, UnreadFilter, "");
  }

  /** Binding a name not bound yet appends it. */
  lemma BindNew(m: seq<(string, Value)>, k: string, v: Value)
    requires forall j :: 0 <= j < |m| ==> m[j].0 != k
    ensures Put(m, k, Bound(v)) == m + [(k, Bound(v))]
  {
    PosNone(m, k);
  }

  /** Page p starts (p-1)*limit rows in: page 1 at row 0, each page right after the one before. */
  lemma OffsetSpec(page: int, limit: int)
    ensures Offset(1, limit) == 0
    ensures Offset(page + 1, limit) == Offset(page, limit) + limit
    ensures page >= 1 && limit >= 0 ==> Offset(page, limit) >= 0
  {
    assert (page + 1 - 1) * limit == (page - 1) * limit + limit;
    if page >= 1 && limit >= 0 {
      assert (page - 1) * limit >= 0;
    }
  }

  /** total and unread_count are 0 when the count query returns no row (fetch gives false); page and limit are echoed; one data entry per row. */
  lemma ListCounts(rows: seq<Value>, count: Value, page: int, limit: int)
    ensures var r := Listing(rows, count, page, limit);
      && (count == Bool(false) ==> At(r, StrKey("total")) == Int(0) && At(r, StrKey("unread_count")) == Int(0))
      && At(r, StrKey("page")) == Int(page) && At(r, StrKey("limit")) == Int(limit)
      && |EntriesOf(At(r, StrKey("data")))| == |rows|
  {
    var r := Listing(rows, count, page, limit);
    PosUpTo(r.entries, StrKey("data"), 0);
    PosUpTo(r.entries, StrKey("total"), 1);
    PosUpTo(r.entries, StrKey("unread_count"), 2);
    PosUpTo(r.entries, StrKey("page"), 3);
    PosUpTo(r.entries, StrKey("limit"), 4);
  }

  /**
   * After markAsRead the pair has a read row; every other row is untouched;
   * an existing row keeps its id and code, a new one gets the generated code.
   */
  lemma MarkReadSpec(t: ReadTable, nc: Value, lu: Value, code: Value, newId: Value, now: string)
    ensures var t' := MarkRead(t, nc, lu, code, newId, now);
      && (nc, lu) in t' && LooseEq(t'[(nc, lu)].status, Int(1))
      && (forall k :: k != (nc, lu) ==> (k in t' <==> k in t))
      && (forall k :: k != (nc, lu) && k in t ==> t'[k] == t[k])
      && ((nc, lu) in t ==> t'[(nc, lu)].id == t[(nc, lu)].id && t'[(nc, lu)].dbCode == t[(nc, lu)].dbCode)
      && ((nc, lu) !in t ==> t'[(nc, lu)] == ReadStatus(newId, code, Int(1), now))
  {
  }

  /** A read row is not written again: marking it changes nothing, so marking twice is marking once. */
  lemma MarkReadIdempotent(t: ReadTable, nc: Value, lu: Value, code: Value, newId: Value, now: string,
                           code': Value, newId': Value, now': string)
    ensures (nc, lu) in t && LooseEq(t[(nc, lu)].status, Int(1)) ==> MarkRead(t, nc, lu, code, newId, now) == t
    ensures var t' := MarkRead(t, nc, lu, code, newId, now);
      MarkRead(t', nc, lu, code', newId', now') == t'
  {
    MarkReadSpec(t, nc, lu, code, newId, now);
  }

  /**
   * With the store answering the lookup from the table, markAsRead writes
   * exactly when the table changes: an update when the pair's row is
   * unread, an insert when there is no row, nothing (returning true) when
   * the row is read.
   */
  lemma MarkAsReadOnTable(store: Store, t: ReadTable, nc: Value, lu: Value, code: Value, newId: Value, now: string)
    requires Mirrors(store, t, nc, lu)
    ensures MarkWrite(store, nc, lu, code, now)
         == if MarkRead(t, nc, lu, code, newId, now) == t then []
            else if (nc, lu) in t then [UpdateStatement(nc, lu, now)]
            else [InsertStatement(code, nc, lu, now)]
    ensures MarkRead(t, nc, lu, code, newId, now) == t ==> MarkResult(store, nc, lu, code, now)
  {
    var t' := MarkRead(t, nc, lu, code, newId, now);
    if (nc, lu) in t {
      var s := t[(nc, lu)];
      assert FirstRow(store, LookupStatement(nc, lu)) == RowOf(s);
      PosUpTo(RowOf(s).entries, StrKey("nrs_status"), 1);
      if !LooseEq(s.status, Int(1)) {
        assert t'[(nc, lu)].status == Int(1);
        assert t' != t;
      }
    } else {
      assert (nc, lu) in t';
    }
  }

  /** A second markAsRead, on the table the first one left, only looks the row up and returns true. */
  lemma MarkTwice(store: Store, t: ReadTable, nc: Value, lu: Value, code: Value, newId: Value, now: string,
                  code': Value, now': string)
    requires Mirrors(store, MarkRead(t, nc, lu, code, newId, now), nc, lu)
    ensures MarkStatements(store, nc, lu, code', now') == [LookupStatement(nc, lu)]
    ensures MarkResult(store, nc, lu, code', now')
  {
    var t' := MarkRead(t, nc, lu, code, newId, now);
    MarkReadIdempotent(t, nc, lu, code, newId, now, code', newId, now');
    MarkAsReadOnTable(store, t', nc, lu, code', newId, now');
  }

  /** getByCode answers [] exactly when no row, or an empty one, has the code. */
  lemma ByCodeSpec(store: Store, code: Value)
    ensures var row := FirstRow(store, ByCodeStatement(code));
      ByCodeResult(store, code) == Arr([]) <==> !Truthy(row) || EntriesOf(row) == []
  {
    var row := FirstRow(store, ByCodeStatement(code));
    if Truthy(row) && EntriesOf(row) != [] {
      Common.RekeyedNonEmpty(EntriesOf(row), Common.AfterFirstUnderscore);
    }
  }
}

module NotificationModel {
  import opened Text
  import opened Php
  import opened Db
  import opened NotificationSpec
  import Common

  class Notification {
    const db: Database

    constructor (db: Database)
      ensures this.db == db
    {
      this.db := db;
    }

    /** The four binds of both listing queries, after a prepare. */
    method BindList(lu: Value, plant: Value, department: Value)
      requires db.current.binds == []
      modifies db
      ensures db.current == Statement(old(db.current.sql), ListBinds(lu, plant, department))
      ensures db.executed == old(db.executed)
    {
      var pattern := Str("%" + ToStr(lu) + "%");
      db.Bind(":lu_db_code", lu);
      BindNew(db.current.binds, ":recipient_pattern", pattern);
      db.Bind(":recipient_pattern", pattern);
      BindNew(db.current.binds, ":selected_plant", plant);
      db.Bind(":selected_plant", plant);
      BindNew(db.current.binds, ":user_department", department);
      db.Bind(":user_department", department);
    }

    /** The data query of one page. */
    method PageRows(lu: Value, plant: Value, department: Value, page: int, limit: int, unreadOnly: bool)
      returns (data: seq<Value>)
      modifies db
      ensures db.executed == old(db.executed) + [DataStatement(lu, plant, department, page, limit, unreadOnly)]
      ensures data == db.store.rows(DataStatement(lu, plant, department, page, limit, unreadOnly))
    {
      var baseQuery := BaseSql;
      if unreadOnly {
        baseQuery := baseQuery + UnreadFilter;
      }
      db.Prepare(baseQuery + Window(page, limit));
      BindList(lu, plant, department);
      var _ := db.Execute();
      data := db.FetchAll();
    }

    /** The count query. */
    method Counts(lu: Value, plant: Value, department: Value, unreadOnly: bool) returns (count: Value)
      modifies db
      ensures db.executed == old(db.executed) + [CountStatement(lu, plant, department, unreadOnly)]
      ensures count == FirstRow(db.store, CountStatement(lu, plant, department, unreadOnly))
    {
      var countQuery := CountSql;
      if unreadOnly {
        countQuery := countQuery + UnreadFilter;
      }
      db.Prepare(countQuery);
      BindList(lu, plant, department);
      var _ := db.Execute();
      count := db.Fetch();
    }

    /** The returned array: count fields default to 0, the rows lose their column prefixes. */
    static method Assemble(data: seq<Value>, count: Value, page: int, limit: int) returns (result: Value)
      ensures result == Listing(data, count, page, limit)
    {
      var total := At(count, StrKey("total"));
      if total == Null {
        total := Int(0);
      }
      var unread := At(count, StrKey("unread_count"));
      if unread == Null {
        unread := Int(0);
      }
      var stripped := Common.RemovePrefixFromKeys(ListOf(data));
      result := Arr([(StrKey("data"), Arr(stripped)), (StrKey("total"), total), (StrKey("unread_count"), unread),
                     (StrKey("page"), Int(page)), (StrKey("limit"), Int(limit))]);
    }

    /** getNotificationsWithReadStatus */
    method GetNotificationsWithReadStatus(lu: Value, plant: Value, department: Value, page: int, limit: int, unreadOnly: bool)
      returns (result: Value)
      modifies db
      ensures db.executed == old(db.executed)
           + [DataStatement(lu, plant, department, page, limit, unreadOnly)] + [CountStatement(lu, plant, department, unreadOnly)]
      ensures result == ListResult(db.store, lu, plant, department, page, limit, unreadOnly)
    {
      var data := PageRows(lu, plant, department, page, limit, unreadOnly);
      var count := Counts(lu, plant, department, unreadOnly);
      result := Assemble(data, count, page, limit);
    }

    /** The pair binds of markAsRead's statements, after the binds already made. */
    method BindPair(nc: Value, lu: Value)
      requires forall j :: 0 <= j < |db.current.binds| ==> |db.current.binds[j].0| != 15
      modifies db
      ensures db.current == old(db.current).(binds := old(db.current.binds) + PairBinds(nc, lu))
      ensures db.executed == old(db.executed)
    {
      BindNew(db.current.binds, ":nrs_nc_db_code", nc);
      db.Bind(":nrs_nc_db_code", nc);
      BindNew(db.current.binds, ":nrs_lu_db_code", lu);
      db.Bind(":nrs_lu_db_code", lu);
    }

    /** The lookup of the read-status row of (nc, lu). */
    method Lookup(nc: Value, lu: Value) returns (existing: Value)
      modifies db
      ensures db.executed == old(db.executed) + [LookupStatement(nc, lu)]
      ensures existing == FirstRow(db.store, LookupStatement(nc, lu))
    {
      db.Prepare(LookupSql);
      BindPair(nc, lu);
      assert [] + PairBinds(nc, lu) == PairBinds(nc, lu);
      var _ := db.Execute();
      existing := db.Fetch();
    }

    /** The update of an unread row to status 1 at now. */
    method Update(nc: Value, lu: Value, now: string) returns (ok: bool)
      modifies db
      ensures db.executed == old(db.executed) + [UpdateStatement(nc, lu, now)]
      ensures ok == db.store.succeeds(UpdateStatement(nc, lu, now))
    {
      db.Prepare(UpdateSql);
      db.Bind(":nrs_read_datetime", Str(now));
      assert db.current == Statement(UpdateSql, [(":nrs_read_datetime", Str(now))]);
      BindPair(nc, lu);
      ok := db.Execute();
    }

    /** The insert of a new row with status 1, read at now. */
    method Insert(code: Value, nc: Value, lu: Value, now: string) returns (ok: bool)
      modifies db
      ensures db.executed == old(db.executed) + [InsertStatement(code, nc, lu, now)]
      ensures ok == db.store.succeeds(InsertStatement(code, nc, lu, now))
    {
      db.Prepare(InsertSql);
      db.Bind(":nrs_db_code", code);
      assert db.current == Statement(InsertSql, [(":nrs_db_code", Bound(code))]);
      BindPair(nc, lu);
      BindNew(db.current.binds, ":nrs_read_datetime", Str(now));
      db.Bind(":nrs_read_datetime", Str(now));
      ok := db.Execute();
    }

    /** markAsRead: code is the db code generated for a new row, now the current date and time. */
    method MarkAsRead(nc: Value, lu: Value, code: Value, now: string) returns (ok: bool)
      modifies db
      ensures db.executed == old(db.executed) + MarkStatements(db.store, nc, lu, code, now)
      ensures ok == MarkResult(db.store, nc, lu, code, now)
    {
      var existing := Lookup(nc, lu);
      ghost var write := MarkWrite(db.store, nc, lu, code, now);
      if Truthy(existing) {
        if !LooseEq(At(existing, StrKey("nrs_status")), Int(1)) {
          assert write == [UpdateStatement(nc, lu, now)];
          ok := Update(nc, lu, now);
          return;
        }
        assert write == [];
        ok := true;
      } else {
        assert write == [InsertStatement(code, nc, lu, now)];
        ok := Insert(code, nc, lu, now);
      }
    }

    /** getByCode */
    method GetByCode(code: Value) returns (result: Value)
      modifies db
      ensures db.executed == old(db.executed) + [ByCodeStatement(code)]
      ensures result == ByCodeResult(db.store, code)
    {
      db.Prepare(ByCodeSql);
      db.Bind(":nc_db_code", code);
      assert db.current == ByCodeStatement(code);
      var _ := db.Execute();
      var row := db.Fetch();
      if Truthy(row) {
        var stripped := Common.RemoveFirstPrefix(EntriesOf(row));
        result := Arr(stripped);
      } else {
        result := Arr([]);
      }
    }
  }
}
