/**
 * NotificationCenter (app/app/Models/NotificationCenter.php): the paginated
 * listing queries, lookup by db code, insert, update and soft delete of
 * notification_center rows, as the statements they issue on the database.
 */
module NotificationCenterSpec {
  import opened Text
  import opened Php
  import opened Db
  import Common

  /** The columns a listing may be ordered by. */
  const AllowedColumns: seq<string> := ["nc_id", "nc_title", "nc_status", "nc_created_datetime", "nc_created_by"]

  /** The order column: a column outside the whitelist becomes nc_id (the loose in_array is equality on these names). */
  function Column(orderBy: string): string { if orderBy in AllowedColumns then orderBy else "nc_id" }

  /** The order direction: upper-cased, anything but ASC or DESC becomes DESC. */
  function Direction(d: string): string
  {
    var u := ToUpper(d);
    if u == "ASC" || u == "DESC" then u else "DESC"
  }

  function Offset(page: int, limit: int): int { (page - 1) * limit }

  const StatusAny := " WHERE nc_status > -1"
  const StatusIs := " WHERE nc_status = :status"
  const TypeIs := " AND nc_type = :nc_type"
  const TitleLike := " AND (nc_title LIKE :search)"

  /** `$status !== "*"` */
  predicate StatusFiltered(status: Value) { status != Str("*") }

  /** The where clause of both listing queries. */
  function Where(status: Value, typ: Value, search: Value): string
  {
    StatusClause(status) + (if Truthy(typ) then TypeIs else "") + (if Truthy(search) then TitleLike else "")
  }

  function StatusClause(status: Value): string { if StatusFiltered(status) then StatusIs else StatusAny }

  /** The parameters bound to both listing queries, in binding order. */
  function FilterBinds(status: Value, typ: Value, search: Value): seq<(string, Value)>
  {
    var b1 := if StatusFiltered(status) then Put([], ":status", Bound(Int(IntVal(status)))) else [];
    var b2 := if Truthy(typ) then Put(b1, ":nc_type", Bound(typ)) else b1;
    if Truthy(search) then Put(b2, ":search", Bound(Str("%" + ToStr(search) + "%"))) else b2
  }

  const SelectAll := "SELECT * FROM notification_center"
  const SelectCount := "SELECT COUNT(*) AS total FROM notification_center"

  /** The data query: the where clause, then the whitelisted order and the OFFSET/FETCH window. */
  function DataSql(page: int, limit: int, orderBy: string, direction: string, status: Value, typ: Value, search: Value): string
  {
    SelectAll + Where(status, typ, search) + Window(page, limit, orderBy, direction)
  }

  /** The ORDER BY and OFFSET/FETCH part of the data query. */
  function Window(page: int, limit: int, orderBy: string, direction: string): string
  {
    "  \n        ORDER BY " + Column(orderBy) + " " + Direction(direction)
    + "  \n        OFFSET " + IntToString(Offset(page, limit)) + " ROWS  \n        FETCH NEXT " + IntToString(limit) + " ROWS ONLY"
  }

  function DataStatement(page: int, limit: int, orderBy: string, direction: string, status: Value, typ: Value, search: Value): Statement
  {
    Statement(DataSql(page, limit, orderBy, direction, status, typ, search), FilterBinds(status, typ, search))
  }

  function CountStatement(status: Value, typ: Value, search: Value): Statement
  {
    Statement(SelectCount + Where(status, typ, search), FilterBinds(status, typ, search))
  }

  /** The array findAllWithPagination returns; V2 strips the column prefixes of the rows. */
  function PageResult(store: Store, page: int, limit: int, orderBy: string, direction: string,
                      status: Value, typ: Value, search: Value, strip: bool): Value
  {
    var rows := ListOf(store.rows(DataStatement(page, limit, orderBy, direction, status, typ, search)));
    var total := At(FirstRow(store, CountStatement(status, typ, search)), StrKey("total"));
    Arr([(StrKey("data"), Arr(if strip then Common.StrippedRows(rows) else rows)), (StrKey("total"), total),
         (StrKey("page"), Int(page)), (StrKey("limit"), Int(limit)), (StrKey("orderBy"), Str(Column(orderBy))),
         (StrKey("orderDirection"), Str(Direction(direction))), (StrKey("status"), status)])
  }

  // ---------------------------------------------------------------------
  // Single records

  const InsertSql :=
      "INSERT INTO notification_center (\n"
    + "            nc_db_code, \n"
    + "            nc_type, \n"
    + "            nc_title, \n"
    + "            nc_content,  \n"
    + "            nc_recipient_list,\n"
    + "            nc_lu_department,\n"
    + "            nc_lp_plant_db_code,\n"
    + "            nc_status, \n"
    + "            nc_created_datetime, \n"
    + "            nc_created_by\n"
    + "        ) VALUES (\n"
    + "            :nc_db_code,\n"
    + "            :nc_type, \n"
    + "            :nc_title, \n"
    + "            :nc_content, \n"
    + "            :nc_recipient_list,\n"
    + "            :nc_lu_department,\n"
    + "            :nc_lp_plant_db_code,\n"
    + "            :nc_status, \n"
    + "            :nc_created_datetime, \n"
    + "            :nc_created_by\n"
    + "        )"

  /** `foreach ($data as $key => $value) bind(':' . $key, $value)`, starting from b. */
  function BindEach(b: seq<(string, Value)>, data: Entries): seq<(string, Value)>
    decreases |data|
  {
    if data == [] then b else BindEach(Put(b, BindName(data, 0), Bound(data[0].1)), data[1..])
  }

  function InsertStatement(data: Entries): Statement { Statement(InsertSql, BindEach([], data)) }

  const ByCodeAny := "SELECT TOP 1 * FROM notification_center WHERE nc_db_code = :nc_db_code AND nc_status > -1"
  const ByCodeStatus := "SELECT TOP 1 * FROM notification_center WHERE nc_db_code = :nc_db_code AND nc_status = :nc_status"

  function ByCodeStatement(code: Value, status: Value): Statement
  {
    if StatusFiltered(status) then
      Statement(ByCodeStatus, Put(Put([], ":nc_status", Bound(Int(IntVal(status)))), ":nc_db_code", Bound(code)))
    else Statement(ByCodeAny, Put([], ":nc_db_code", Bound(code)))
  }

  /** findByCode: the row with its first prefix removed, or an empty array when none is found. */
  function ByCodeResult(store: Store, code: Value, status: Value): Value
  {
    var row := FirstRow(store, ByCodeStatement(code, status));
    if Truthy(row) then Arr(Common.Rekeyed(EntriesOf(row), Common.AfterFirstUnderscore)) else Arr([])
  }

  /** The SET list of update: `key = :key` for each data key, in the data's order. */
  function SetParts(data: Entries): (parts: seq<string>)
    ensures |parts| == |data|
  {
    seq(|data|, i requires 0 <= i < |data| => KeyText(data[i].0) + " = :" + KeyText(data[i].0))
  }

  function UpdateStatement(code: Value, data: Entries): Statement
  {
    Statement("UPDATE notification_center SET " + Implode(", ", SetParts(data)) + " WHERE nc_db_code = :nc_db_code",
              Put(BindEach([], data), ":nc_db_code", Bound(code)))
  }

  const SoftDeleteSql := "UPDATE notification_center SET nc_status = -1 WHERE nc_db_code = :nc_db_code"

  function DeleteStatement(code: Value): Statement { Statement(SoftDeleteSql, [(":nc_db_code", Bound(code))]) }

  // ---------------------------------------------------------------------
  // Properties

  /** Only whitelisted columns are ordered by, and a whitelisted one is kept. */
  lemma ColumnSpec(orderBy: string)
    ensures Column(orderBy) in AllowedColumns
    ensures Column(orderBy) == orderBy <==> orderBy in AllowedColumns
  {
  }

  /** The direction is ASC or DESC: the upper-cased request when that is one of them, else DESC. */
  lemma DirectionSpec(d: string)
    ensures Direction(d) == "ASC" || Direction(d) == "DESC"
    ensures ToUpper(d) == "ASC" ==> Direction(d) == "ASC"
    ensures ToUpper(d) != "ASC" ==> Direction(d) == "DESC"
  {
  }

  /**
   * Each filter binds exactly its own placeholder: :status (as an integer)
   * iff status is not '*', :nc_type iff type is truthy, and :search, as
   * '%search%', iff search is truthy.
   */
  lemma FilterBindsSpec(status: Value, typ: Value, search: Value)
    ensures var b := FilterBinds(status, typ, search);
      && Get(b, ":status") == (if StatusFiltered(status) then Some(Int(IntVal(status))) else None)
      && Get(b, ":nc_type") == (if Truthy(typ) then Some(typ) else None)
      && Get(b, ":search") == (if Truthy(search) then Some(Str("%" + ToStr(search) + "%")) else None)
  {
    var b1 := if StatusFiltered(status) then Put([], ":status", Bound(Int(IntVal(status)))) else [];
    var b2 := if Truthy(typ) then Put(b1, ":nc_type", Bound(typ)) else b1;
    if StatusFiltered(status) {
      GetPut([], ":status", Bound(Int(IntVal(status))), ":nc_type");
      GetPut([], ":status", Bound(Int(IntVal(status))), ":search");
    }
    if Truthy(typ) {
      GetPut(b1, ":nc_type", Bound(typ), ":status");
      GetPut(b1, ":nc_type", Bound(typ), ":nc_type");
      GetPut(b1, ":nc_type", Bound(typ), ":search");
    }
    if Truthy(search) {
      GetPut(b2, ":search", Bound(Str("%" + ToStr(search) + "%")), ":status");
      GetPut(b2, ":search", Bound(Str("%" + ToStr(search) + "%")), ":nc_type");
      GetPut(b2, ":search", Bound(Str("%" + ToStr(search) + "%")), ":search");
    }
  }

  /** The where clause starts with the status condition; the type and title conditions follow when present. */
  lemma WhereSpec(status: Value, typ: Value, search: Value)
    ensures IsPrefix(StatusClause(status), Where(status, typ, search))
    ensures StatusClause(status) == (if StatusFiltered(status) then StatusIs else StatusAny)
    ensures Truthy(typ) ==> IsPrefix(StatusClause(status) + TypeIs, Where(status, typ, search))
    ensures Truthy(search) ==> IsSuffix(TitleLike, Where(status, typ, search))
    ensures !Truthy(typ) && !Truthy(search) ==> Where(status, typ, search) == StatusClause(status)
  {
    ConcatEnds(StatusClause(status), if Truthy(typ) then TypeIs else "", if Truthy(search) then TitleLike else "");
    if !Truthy(typ) && !Truthy(search) {
      assert StatusClause(status) + "" + "" == StatusClause(status);
    }
  }

  /** The data and the count query share the where clause and the bindings. */
  lemma CountMatchesData(page: int, limit: int, orderBy: string, direction: string, status: Value, typ: Value, search: Value)
    ensures CountStatement(status, typ, search).binds == DataStatement(page, limit, orderBy, direction, status, typ, search).binds
    ensures CountStatement(status, typ, search).sql == SelectCount + Where(status, typ, search)
    ensures IsPrefix(SelectAll + Where(status, typ, search), DataStatement(page, limit, orderBy, direction, status, typ, search).sql)
  {
    ConcatEnds(SelectAll, Where(status, typ, search), Window(page, limit, orderBy, direction));
  }

  /** findByCode answers an array: empty exactly when no row (or an empty one) came back. */
  lemma ByCodeEmptyIffMissing(store: Store, code: Value, status: Value)
    ensures ByCodeResult(store, code, status).Arr?
    ensures var row := FirstRow(store, ByCodeStatement(code, status));
      ByCodeResult(store, code, status) == Arr([]) <==> !Truthy(row) || EntriesOf(row) == []
  {
    var row := FirstRow(store, ByCodeStatement(code, status));
    if Truthy(row) && EntriesOf(row) != [] {
      Common.RekeyedNonEmpty(EntriesOf(row), Common.AfterFirstUnderscore);
    }
  }

  /** '*' filters on nc_status > -1; any other status on nc_status = the integer of it. */
  lemma ByCodeStatusSpec(code: Value, status: Value)
    ensures ByCodeStatement(code, status).sql == (if StatusFiltered(status) then ByCodeStatus else ByCodeAny)
    ensures Get(ByCodeStatement(code, status).binds, ":nc_db_code") == Some(Bound(code))
    ensures Get(ByCodeStatement(code, status).binds, ":nc_status")
         == (if StatusFiltered(status) then Some(Int(IntVal(status))) else None)
  {
    var b := Put([], ":nc_status", Bound(Int(IntVal(status))));
    GetPut(b, ":nc_db_code", Bound(code), ":nc_db_code");
    GetPut(b, ":nc_db_code", Bound(code), ":nc_status");
    GetPut([], ":nc_db_code", Bound(code), ":nc_status");
  }

  /**
   * The k-th SET entry names the k-th data key; the row to update is bound
   * last, so :nc_db_code is always the code, even when the data has a
   * column of that name.
   */
  lemma UpdateSpec(code: Value, data: Entries, k: nat)
    requires k < |data|
    ensures SetParts(data)[k] == KeyText(data[k].0) + " = :" + KeyText(data[k].0)
    ensures Get(UpdateStatement(code, data).binds, ":nc_db_code") == Some(Bound(code))
  {
    GetPut(BindEach([], data), ":nc_db_code", Bound(code), ":nc_db_code");
  }

  /** The placeholder a column's value is bound under: a colon, then the column name. */
  function Placeholder(column: string): string { ":" + column }

  /** The name `foreach ($data as $key => $value)` binds the k-th entry under. */
  function BindName(data: Entries, k: nat): string
    requires k < |data|
  {
    Placeholder(KeyText(data[k].0))
  }

  /** An entry whose name no later entry repeats is bound to its value. */
  lemma {:induction false} BindEachAt(b: seq<(string, Value)>, data: Entries, k: nat)
    requires k < |data|
    requires forall j :: k < j < |data| ==> BindName(data, j) != BindName(data, k)
    ensures Get(BindEach(b, data), BindName(data, k)) == Some(Bound(data[k].1))
    decreases |data|
  {
    var b' := Put(b, BindName(data, 0), Bound(data[0].1));
    if k == 0 {
      GetPut(b, BindName(data, 0), Bound(data[0].1), BindName(data, 0));
      forall j | 0 <= j < |data[1..]| ensures BindName(data[1..], j) != BindName(data, 0) {
        assert BindName(data[1..], j) == BindName(data, j + 1);
      }
      BindEachUntouched(b', data[1..], BindName(data, 0));
    } else {
      forall j | k - 1 < j < |data[1..]| ensures BindName(data[1..], j) != BindName(data[1..], k - 1) {
        assert BindName(data[1..], j) == BindName(data, j + 1);
      }
      BindEachAt(b', data[1..], k - 1);
    }
  }

  /** A name no entry binds keeps the value it had. */
  lemma {:induction false} BindEachUntouched(b: seq<(string, Value)>, data: Entries, name: string)
    requires forall j :: 0 <= j < |data| ==> BindName(data, j) != name
    ensures Get(BindEach(b, data), name) == Get(b, name)
    decreases |data|
  {
    if data != [] {
      GetPut(b, BindName(data, 0), Bound(data[0].1), name);
      forall j | 0 <= j < |data[1..]| ensures BindName(data[1..], j) != name {
        assert BindName(data[1..], j) == BindName(data, j + 1);
      }
      BindEachUntouched(Put(b, BindName(data, 0), Bound(data[0].1)), data[1..], name);
    }
  }
}

module NotificationCenterModel {
  import opened Text
  import opened Php
  import opened Db
  import opened NotificationCenterSpec
  import Common

  class NotificationCenter {
    const db: Database

    constructor (db: Database)
      ensures this.db == db
    {
      this.db := db;
    }

    /** The three conditional binds both listing queries repeat. */
    method BindFilters(status: Value, typ: Value, search: Value)
      requires db.current.binds == []
      modifies db
      ensures db.current == Statement(old(db.current.sql), FilterBinds(status, typ, search))
      ensures db.executed == old(db.executed)
    {
      if StatusFiltered(status) {
        db.Bind(":status", Int(IntVal(status)));
      }
      if Truthy(typ) {
        db.Bind(":nc_type", typ);
      }
      if Truthy(search) {
        db.Bind(":search", Str("%" + ToStr(search) + "%"));
      }
    }

    /** findAllWithPagination, and findAllWithPaginationV2 when strip is set. */
    method FindAll(page: int, limit: int, orderBy: string, direction: string, status: Value, typ: Value, search: Value, strip: bool)
      returns (result: Value)
      modifies db
      ensures db.executed == old(db.executed)
        + [DataStatement(page, limit, orderBy, direction, status, typ, search), CountStatement(status, typ, search)]
      ensures result == PageResult(db.store, page, limit, orderBy, direction, status, typ, search, strip)
    {
      var data := Rows(page, limit, orderBy, direction, status, typ, search, strip);
      var total := Total(status, typ, search);
      result := Arr([(StrKey("data"), Arr(data)), (StrKey("total"), total),
                     (StrKey("page"), Int(page)), (StrKey("limit"), Int(limit)), (StrKey("orderBy"), Str(Column(orderBy))),
                     (StrKey("orderDirection"), Str(Direction(direction))), (StrKey("status"), status)]);
    }

    /** The data query of findAll, its rows stripped of their column prefixes when asked. */
    method Rows(page: int, limit: int, orderBy: string, direction: string, status: Value, typ: Value, search: Value, strip: bool)
      returns (data: Entries)
      modifies db
      ensures db.executed == old(db.executed) + [DataStatement(page, limit, orderBy, direction, status, typ, search)]
      ensures var rows := ListOf(db.store.rows(DataStatement(page, limit, orderBy, direction, status, typ, search)));
        data == if strip then Common.StrippedRows(rows) else rows
    {
      var rows := Query(DataSql(page, limit, orderBy, direction, status, typ, search), status, typ, search);
      data := ListOf(rows);
      if strip {
        data := Common.RemovePrefixFromKeys(data);
      }
    }

    /** The count query of findAll: the 'total' of its first row. */
    method Total(status: Value, typ: Value, search: Value) returns (total: Value)
      modifies db
      ensures db.executed == old(db.executed) + [CountStatement(status, typ, search)]
      ensures total == At(FirstRow(db.store, CountStatement(status, typ, search)), StrKey("total"))
    {
      db.Prepare(SelectCount + Where(status, typ, search));
      BindFilters(status, typ, search);
      var _ := db.Execute();
      var count := db.Fetch();
      total := At(count, StrKey("total"));
    }

    /** One listing query: prepare, bind the filters, execute, fetch all. */
    method Query(sql: string, status: Value, typ: Value, search: Value) returns (rows: seq<Value>)
      modifies db
      ensures db.current == Statement(sql, FilterBinds(status, typ, search))
      ensures db.executed == old(db.executed) + [db.current]
      ensures rows == db.store.rows(db.current)
    {
      db.Prepare(sql);
      BindFilters(status, typ, search);
      var _ := db.Execute();
      rows := db.FetchAll();
    }

    /** create: the insert, each data entry bound under ':' + key; the result is lastInsertId. */
    method Create(data: Entries) returns (id: Value)
      modifies db
      ensures db.executed == old(db.executed) + [InsertStatement(data)]
      ensures id == db.store.lastInsertId(db.executed)
    {
      db.Prepare(InsertSql);
      BindAll(data);
      var _ := db.Execute();
      id := db.LastInsertId();
    }

    /** The `foreach ($data as $key => $value)` bind loop. */
    method BindAll(data: Entries)
      modifies db
      ensures db.current == old(db.current).(binds := BindEach(old(db.current.binds), data))
      ensures db.executed == old(db.executed)
    {
      var i := 0;
      while i < |data|
        invariant 0 <= i <= |data|
        invariant db.current.sql == old(db.current.sql) && db.executed == old(db.executed)
        invariant BindEach(db.current.binds, data[i..]) == BindEach(old(db.current.binds), data)
      {
        assert data[i..][1..] == data[i + 1..];
        db.Bind(BindName(data, i), data[i].1);
        i := i + 1;
      }
    }

    /** findByCode */
    method FindByCode(code: Value, status: Value) returns (result: Value)
      modifies db
      ensures db.executed == old(db.executed) + [ByCodeStatement(code, status)]
      ensures result == ByCodeResult(db.store, code, status)
    {
      if StatusFiltered(status) {
        db.Prepare(ByCodeStatus);
        db.Bind(":nc_status", Int(IntVal(status)));
        db.Bind(":nc_db_code", code);
        var _ := db.Execute();
      } else {
        db.Prepare(ByCodeAny);
        db.Bind(":nc_db_code", code);
        var _ := db.Execute();
      }
      var row := db.Fetch();
      if Truthy(row) {
        var stripped := Common.RemoveFirstPrefix(EntriesOf(row));
        result := Arr(stripped);
      } else {
        result := Arr([]);
      }
    }

    /** update: the SET list built key by key, the data bound, then the code. */
    method Update(code: Value, data: Entries) returns (ok: bool)
      modifies db
      ensures db.executed == old(db.executed) + [UpdateStatement(code, data)]
      ensures ok == db.store.succeeds(UpdateStatement(code, data))
    {
      var setParts: seq<string> := [];
      var i := 0;
      while i < |data|
        invariant 0 <= i <= |data|
        invariant setParts == SetParts(data[..i])
      {
        setParts := setParts + [KeyText(data[i].0) + " = :" + KeyText(data[i].0)];
        i := i + 1;
      }
      assert data[..|data|] == data;
      db.Prepare("UPDATE notification_center SET " + Implode(", ", setParts) + " WHERE nc_db_code = :nc_db_code");
      BindAll(data);
      db.Bind(":nc_db_code", code);
      ok := db.Execute();
    }

    /** delete: a soft delete, nc_status set to -1. */
    method Delete(code: Value) returns (ok: bool)
      modifies db
      ensures db.executed == old(db.executed) + [DeleteStatement(code)]
      ensures ok == db.store.succeeds(DeleteStatement(code))
    {
      db.Prepare(SoftDeleteSql);
      db.Bind(":nc_db_code", code);
      assert Put([], ":nc_db_code", Bound(code)) == [(":nc_db_code", Bound(code))];
      ok := db.Execute();
    }
  }
}
