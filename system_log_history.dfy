/**
 * SystemLogHistory (app/app/Models/SystemLogHistory.php): the filtered,
 * paginated listing of system_log_history rows, joined in memory with the
 * plant list of the administration service, plus insert and the small
 * lookups, as the statements they issue on the database.
 */
module SystemLogHistorySpec {
  import opened Text
  import opened Php
  import opened Db
  import Common

  // ---------------------------------------------------------------------
  // Filter conditions

  /** How a filter value is bound: as it is, or inside a text affix. */
  datatype Binding = Raw | Wrapped(before: string, after: string)

  /** One `if (!empty($filters[key])) { $conditions[] = condition; $params[param] = ... }` block. */
  datatype Filter = Filter(key: string, condition: string, param: string, binding: Binding)

  const PlantFilter := Filter("plant_id", "slh_lp_plant_db_code = :plant_id", ":plant_id", Raw)
  const ModuleFilter := Filter("module", "slh_module = :module", ":module", Raw)
  const CreatedByFilter := Filter("created_by", "slh_created_by = :created_by", ":created_by", Raw)
  const DateFromFilter := Filter("date_from", "slh_created_datetime >= :date_from", ":date_from", Wrapped("", " 00:00:00"))
  const DateToFilter := Filter("date_to", "slh_created_datetime <= :date_to", ":date_to", Wrapped("", " 23:59:59"))
  const SearchFilter := Filter("search", "(slh_subject LIKE :search OR slh_content LIKE :search)", ":search", Wrapped("%", "%"))
  const IpFilter := Filter("ip_address", "slh_ip_address LIKE :ip_address", ":ip_address", Wrapped("%", "%"))

  /** The filter blocks, in the order the listing tests them. */
  const FilterTable: seq<Filter> := [PlantFilter, ModuleFilter, CreatedByFilter, DateFromFilter, DateToFilter, SearchFilter, IpFilter]

  /** `$filters[$key]`, null when absent. */
  function FilterValue(filters: Entries, key: string): Value { At(Arr(filters), StrKey(key)) }

  /** `!empty($filters[$key])` */
  predicate Applies(filters: Entries, f: Filter) { Truthy(FilterValue(filters, f.key)) }

  /** The value stored in `$params` for a filter value: date bounds get a time, search texts get '%' on both sides. */
  function BoundValue(b: Binding, v: Value): Value
  {
    match b
    case Raw => v
    case Wrapped(before, after) => Str(before + ToStr(v) + after)
  }

  /** The `$conditions` and `$params` arrays. */
  datatype Clauses = Clauses(conditions: seq<string>, params: seq<(string, Value)>)

  /** One filter block. */
  function Step(filters: Entries, f: Filter, c: Clauses): Clauses
  {
    if Applies(filters, f) then
      Clauses(c.conditions + [f.condition], Put(c.params, f.param, BoundValue(f.binding, FilterValue(filters, f.key))))
    else c
  }

  /** The filter blocks fs run in order, starting from c. */
  function Collect(filters: Entries, fs: seq<Filter>, c: Clauses): Clauses
    decreases |fs|
  {
    if fs == [] then c else Collect(filters, fs[1..], Step(filters, fs[0], c))
  }

  function Conditions(filters: Entries): Clauses { Collect(filters, FilterTable, Clauses([], [])) }

  /** `!empty($conditions) ? " WHERE " . implode(" AND ", $conditions) : ""` */
  function WhereClause(conditions: seq<string>): string
  {
    if conditions == [] then "" else " WHERE " + Implode(" AND ", conditions)
  }

  /** `foreach ($params as $key => $value) bind($key, $value)`, starting from b. */
  function BindList(b: seq<(string, Value)>, params: seq<(string, Value)>): seq<(string, Value)>
    decreases |params|
  {
    if params == [] then b else BindList(Put(b, params[0].0, Bound(params[0].1)), params[1..])
  }

  // ---------------------------------------------------------------------
  // The two listing queries

  const SelectAll := "SELECT * FROM system_log_history"
  const SelectCount := "SELECT COUNT(*) AS total FROM system_log_history"

  function Offset(page: int, limit: int): int { (page - 1) * limit }

  /** The data query: newest first, then the OFFSET/FETCH window. */
  function DataSql(page: int, limit: int, where: string): string
  {
    SelectAll + where + DataWindow(page, limit)
  }

  /** The ordering and the OFFSET/FETCH window that follow the where clause. */
  function DataWindow(page: int, limit: int): string
  {
    "  \n            ORDER BY slh_created_datetime DESC  \n            OFFSET " + IntToString(Offset(page, limit))
    + " ROWS  \n            FETCH NEXT " + IntToString(limit) + " ROWS ONLY"
  }

  function DataStatement(page: int, limit: int, filters: Entries): Statement
  {
    var c := Conditions(filters);
    Statement(DataSql(page, limit, WhereClause(c.conditions)), BindList([], c.params))
  }

  function CountStatement(filters: Entries): Statement
  {
    var c := Conditions(filters);
    Statement(SelectCount + WhereClause(c.conditions), BindList([], c.params))
  }

  // ---------------------------------------------------------------------
  // The plant code join

  /** The first plant whose plant_db_code is identical (`===`) to code. */
  function PlantOf(plants: Entries, code: Value): Option<Value>
    decreases |plants|
  {
    if plants == [] then None
    else if At(plants[0].1, StrKey("plant_db_code")) == code then Some(plants[0].1)
    else PlantOf(plants[1..], code)
  }

  /** `$matchedPlant ? $matchedPlant["plant_code"] : ''` */
  function PlantCode(plants: Entries, code: Value): Value
  {
    match PlantOf(plants, code)
    case Some(p) => if Truthy(p) then At(p, StrKey("plant_code")) else Str("")
    case None => Str("")
  }

  /** A fetched row with slh_lp_plant_code set from the plant list. */
  function WithPlantCode(row: Value, plants: Entries): Value
  {
    Arr(Put(EntriesOf(row), StrKey("slh_lp_plant_code"), PlantCode(plants, At(row, StrKey("slh_lp_plant_db_code")))))
  }

  function Processed(rows: seq<Value>, plants: Entries): (r: seq<Value>)
    ensures |r| == |rows|
  {
    seq(|rows|, i requires 0 <= i < |rows| => WithPlantCode(rows[i], plants))
  }

  /** The array findAllWithPagination returns. */
  function PageResult(store: Store, page: int, limit: int, filters: Entries, plantData: Value): Value
  {
    var rows := store.rows(DataStatement(page, limit, filters));
    var data := Common.StrippedRows(ListOf(Processed(rows, EntriesOf(plantData))));
    Arr([(StrKey("data"), Arr(data)), (StrKey("total"), At(FirstRow(store, CountStatement(filters)), StrKey("total"))),
         (StrKey("page"), Int(page)), (StrKey("limit"), Int(limit))])
  }

  // ---------------------------------------------------------------------
  // Single rows

  const InsertSql :=
      "INSERT INTO system_log_history (\n"
    + "            slh_lp_plant_db_code, \n"
    + "            slh_ip_address, \n"
    + "            slh_subject, \n"
    + "            slh_content, \n"
    + "            slh_module, \n"
    + "            slh_created_datetime, \n"
    + "            slh_created_by\n"
    + "        ) VALUES (\n"
    + "            :slh_lp_plant_db_code, \n"
    + "            :slh_ip_address, \n"
    + "            :slh_subject, \n"
    + "            :slh_content, \n"
    + "            :slh_module, \n"
    + "            :slh_created_datetime, \n"
    + "            :slh_created_by\n"
    + "        )"

  /** `foreach ($data as $key => $value) bind(':' . $key, $value)` */
  function InsertStatement(data: Entries): Statement
  {
    Statement(InsertSql, BindList([], seq(|data|, i requires 0 <= i < |data| => (":" + KeyText(data[i].0), data[i].1))))
  }

  const ByIdSql := "SELECT TOP 1 * FROM system_log_history WHERE slh_id = :id"

  function ByIdStatement(id: Value): Statement { Statement(ByIdSql, [(":id", Bound(id))]) }

  const ModulesSql := "SELECT DISTINCT slh_module FROM system_log_history ORDER BY slh_module"
  const UsersSql := "SELECT DISTINCT slh_created_by FROM system_log_history ORDER BY slh_created_by"

  // ---------------------------------------------------------------------
  // Properties

  /** Running one more block after the others. */
  lemma {:induction false} CollectSnoc(filters: Entries, fs: seq<Filter>, f: Filter, c: Clauses)
    ensures Collect(filters, fs + [f], c) == Step(filters, f, Collect(filters, fs, c))
    decreases |fs|
  {
    if fs != [] {
      assert (fs + [f])[1..] == fs[1..] + [f];
      CollectSnoc(filters, fs[1..], f, Step(filters, fs[0], c));
    }
  }

  /** Only the filters' own values decide the clauses: keys outside the table (lp_plant_db_code, say) are ignored. */
  lemma {:induction false} OnlyListedKeys(a: Entries, b: Entries, fs: seq<Filter>, c: Clauses)
    requires forall i :: 0 <= i < |fs| ==> FilterValue(a, fs[i].key) == FilterValue(b, fs[i].key)
    ensures Collect(a, fs, c) == Collect(b, fs, c)
    decreases |fs|
  {
    if fs != [] {
      assert Step(a, fs[0], c) == Step(b, fs[0], c);
      OnlyListedKeys(a, b, fs[1..], Step(a, fs[0], c));
    }
  }

  /**
   * Each block adds its condition exactly when its filter is non-empty, and
   * the conditions keep the order of the blocks: the conditions are those
   * of the applying filters, in table order.
   */
  lemma {:induction false} CollectConditions(filters: Entries, fs: seq<Filter>, c: Clauses)
    ensures Collect(filters, fs, c).conditions == c.conditions + Applying(filters, fs)
    decreases |fs|
  {
    if fs != [] {
      CollectConditions(filters, fs[1..], Step(filters, fs[0], c));
      assert Applying(filters, fs) == (if Applies(filters, fs[0]) then [fs[0].condition] else []) + Applying(filters, fs[1..]);
    }
  }

  /** The conditions of the applying filters, in order. */
  function Applying(filters: Entries, fs: seq<Filter>): seq<string>
    decreases |fs|
  {
    if fs == [] then [] else (if Applies(filters, fs[0]) then [fs[0].condition] else []) + Applying(filters, fs[1..])
  }

  /** With distinct parameter names, a filter's parameter is set exactly when it applies, to its bound value. */
  lemma {:induction false} CollectParams(filters: Entries, fs: seq<Filter>, c: Clauses, k: nat)
    requires k < |fs|
    requires forall i, j :: 0 <= i < j < |fs| ==> fs[i].param != fs[j].param
    requires forall i :: 0 <= i < |fs| ==> Get(c.params, fs[i].param) == None
    ensures Get(Collect(filters, fs, c).params, fs[k].param)
         == if Applies(filters, fs[k]) then Some(BoundValue(fs[k].binding, FilterValue(filters, fs[k].key))) else None
    decreases |fs|
  {
    var c' := Step(filters, fs[0], c);
    forall i | 0 <= i < |fs| ensures Get(c'.params, fs[i].param) == if i == 0 && Applies(filters, fs[0]) then Some(BoundValue(fs[0].binding, FilterValue(filters, fs[0].key))) else None {
      if Applies(filters, fs[0]) {
        GetPut(c.params, fs[0].param, BoundValue(fs[0].binding, FilterValue(filters, fs[0].key)), fs[i].param);
      }
    }
    if k == 0 {
      CollectUntouched(filters, fs[1..], c', fs[0].param);
    } else {
      CollectParams(filters, fs[1..], c', k - 1);
    }
  }

  /** A parameter no remaining block sets keeps its value. */
  lemma {:induction false} CollectUntouched(filters: Entries, fs: seq<Filter>, c: Clauses, param: string)
    requires forall i :: 0 <= i < |fs| ==> fs[i].param != param
    ensures Get(Collect(filters, fs, c).params, param) == Get(c.params, param)
    decreases |fs|
  {
    if fs != [] {
      var f := fs[0];
      if Applies(filters, f) {
        GetPut(c.params, f.param, BoundValue(f.binding, FilterValue(filters, f.key)), param);
      }
      CollectUntouched(filters, fs[1..], Step(filters, f, c), param);
    }
  }

  lemma DistinctParams()
    ensures forall i, j :: 0 <= i < j < |FilterTable| ==> FilterTable[i].param != FilterTable[j].param
  {
  }

  /**
   * For every filter of the table: its condition is in the where clause's
   * list exactly when the filter is non-empty, and its parameter is bound
   * to the value, the dates with their time of day, the search texts
   * between '%' signs.
   */
  lemma FilterSpec(filters: Entries, k: nat)
    requires k < |FilterTable|
    ensures var f := FilterTable[k];
      && Get(Conditions(filters).params, f.param)
         == (if Applies(filters, f) then Some(BoundValue(f.binding, FilterValue(filters, f.key))) else None)
      && Conditions(filters).conditions == Applying(filters, FilterTable)
  {
    DistinctParams();
    CollectParams(filters, FilterTable, Clauses([], []), k);
    CollectConditions(filters, FilterTable, Clauses([], []));
  }

  /** The bindings of the date and text filters. */
  lemma BindingExamples(v: Value)
    ensures BoundValue(DateFromFilter.binding, v) == Str(ToStr(v) + " 00:00:00")
    ensures BoundValue(DateToFilter.binding, v) == Str(ToStr(v) + " 23:59:59")
    ensures BoundValue(SearchFilter.binding, v) == Str("%" + ToStr(v) + "%")
    ensures BoundValue(IpFilter.binding, v) == Str("%" + ToStr(v) + "%")
    ensures BoundValue(PlantFilter.binding, v) == v
  {
    assert "" + ToStr(v) == ToStr(v);
  }

  /** The where clause is empty exactly when no filter of the table applies. */
  lemma {:induction false} WhereEmpty(filters: Entries, fs: seq<Filter>)
    ensures WhereClause(Applying(filters, fs)) == "" <==> forall i :: 0 <= i < |fs| ==> !Applies(filters, fs[i])
    decreases |fs|
  {
    if fs != [] {
      WhereEmpty(filters, fs[1..]);
      if Applies(filters, fs[0]) {
        assert Applying(filters, fs) != [];
        assert |" WHERE " + Implode(" AND ", Applying(filters, fs))| > 0;
      } else {
        assert forall i :: 1 <= i < |fs| ==> fs[i] == fs[1..][i - 1];
      }
    }
  }

  /** The count query uses the same where clause and the same bindings as the data query. */
  lemma CountMatchesData(page: int, limit: int, filters: Entries)
    ensures CountStatement(filters).binds == DataStatement(page, limit, filters).binds
    ensures var w := WhereClause(Conditions(filters).conditions);
      CountStatement(filters).sql == SelectCount + w && IsPrefix(SelectAll + w, DataStatement(page, limit, filters).sql)
  {
    var w := WhereClause(Conditions(filters).conditions);
    ConcatEnds(SelectAll, w, DataWindow(page, limit));
  }

  /** The first matching plant is a plant with the code, and no earlier plant has it; None means no plant has it. */
  lemma {:induction false} PlantOfSpec(plants: Entries, code: Value)
    ensures PlantOf(plants, code).None? <==> forall i :: 0 <= i < |plants| ==> At(plants[i].1, StrKey("plant_db_code")) != code
    ensures PlantOf(plants, code).Some? ==>
      exists i :: (0 <= i < |plants| && plants[i].1 == PlantOf(plants, code).value
        && At(plants[i].1, StrKey("plant_db_code")) == code
        && forall j :: 0 <= j < i ==> At(plants[j].1, StrKey("plant_db_code")) != code)
    decreases |plants|
  {
    if plants != [] && At(plants[0].1, StrKey("plant_db_code")) != code {
      PlantOfSpec(plants[1..], code);
      assert forall i :: 1 <= i < |plants| ==> plants[i] == plants[1..][i - 1];
      if PlantOf(plants, code).Some? {
        var i :| 0 <= i < |plants[1..]| && plants[1..][i].1 == PlantOf(plants, code).value
          && At(plants[1..][i].1, StrKey("plant_db_code")) == code
          && forall j :: 0 <= j < i ==> At(plants[1..][j].1, StrKey("plant_db_code")) != code;
        assert plants[i + 1].1 == PlantOf(plants, code).value;
      }
    } else if plants != [] {
      assert plants[0].1 == PlantOf(plants, code).value;
    }
  }

  /**
   * The join keeps the rows and their order; every row gains
   * slh_lp_plant_code, the plant_code of the first plant with its db code,
   * or '' when there is none; every other column is unchanged.
   */
  lemma JoinSpec(rows: seq<Value>, plants: Entries, i: nat, col: Key)
    requires i < |rows|
    ensures |Processed(rows, plants)| == |rows|
    ensures var row := Processed(rows, plants)[i];
      && At(row, StrKey("slh_lp_plant_code")) == PlantCode(plants, At(rows[i], StrKey("slh_lp_plant_db_code")))
      && (col != StrKey("slh_lp_plant_code") ==> At(row, col) == At(Arr(EntriesOf(rows[i])), col))
    ensures PlantOf(plants, At(rows[i], StrKey("slh_lp_plant_db_code"))).None? ==> At(Processed(rows, plants)[i], StrKey("slh_lp_plant_code")) == Str("")
  {
    var code := PlantCode(plants, At(rows[i], StrKey("slh_lp_plant_db_code")));
    GetPut(EntriesOf(rows[i]), StrKey("slh_lp_plant_code"), code, StrKey("slh_lp_plant_code"));
    GetPut(EntriesOf(rows[i]), StrKey("slh_lp_plant_code"), code, col);
  }

  /** The listing answers as many rows as the data query fetched, in the same order of keys. */
  lemma PageRows(store: Store, page: int, limit: int, filters: Entries, plantData: Value)
    ensures var rows := store.rows(DataStatement(page, limit, filters));
      var data := PageResult(store, page, limit, filters, plantData).entries[0].1;
      data.Arr? && |data.entries| == |rows| && KeysOf(data.entries) == KeysOf(ListOf(rows))
  {
    var rows := store.rows(DataStatement(page, limit, filters));
    var processed := ListOf(Processed(rows, EntriesOf(plantData)));
    assert KeysOf(processed) == KeysOf(ListOf(rows));
  }
}

module SystemLogHistoryModel {
  import opened Text
  import opened Php
  import opened Db
  import opened SystemLogHistorySpec
  import Common

  class SystemLogHistory {
    const db: Database

    constructor (db: Database)
      ensures this.db == db
    {
      this.db := db;
    }

    /** One filter block of findAllWithPagination. */
    static method AddFilter(filters: Entries, f: Filter, c: Clauses) returns (c': Clauses)
      ensures c' == Step(filters, f, c)
    {
      c' := c;
      var v := At(Arr(filters), StrKey(f.key));
      if Truthy(v) {
        var bound := match f.binding case Raw => v case Wrapped(before, after) => Str(before + ToStr(v) + after);
        c' := Clauses(c.conditions + [f.condition], Put(c.params, f.param, bound));
      }
    }

    /** The seven filter blocks, in the order they are written. */
    static method BuildConditions(filters: Entries) returns (c: Clauses)
      ensures c == Conditions(filters)
    {
      c := Clauses([], []);
      c := AddFilter(filters, PlantFilter, c);
      c := AddFilter(filters, ModuleFilter, c);
      c := AddFilter(filters, CreatedByFilter, c);
      c := AddFilter(filters, DateFromFilter, c);
      c := AddFilter(filters, DateToFilter, c);
      c := AddFilter(filters, SearchFilter, c);
      c := AddFilter(filters, IpFilter, c);
      Unrolled(filters);
    }

    /** The table run block by block. */
    static lemma Unrolled(filters: Entries)
      ensures Conditions(filters)
           == Step(filters, IpFilter, Step(filters, SearchFilter, Step(filters, DateToFilter, Step(filters, DateFromFilter,
                Step(filters, CreatedByFilter, Step(filters, ModuleFilter, Step(filters, PlantFilter, Clauses([], []))))))))
    {
      var t := FilterTable;
      var c0 := Clauses([], []);
      var c1 := Step(filters, PlantFilter, c0);
      var c2 := Step(filters, ModuleFilter, c1);
      var c3 := Step(filters, CreatedByFilter, c2);
      var c4 := Step(filters, DateFromFilter, c3);
      var c5 := Step(filters, DateToFilter, c4);
      var c6 := Step(filters, SearchFilter, c5);
      var c7 := Step(filters, IpFilter, c6);
      var t1 := [ModuleFilter, CreatedByFilter, DateFromFilter, DateToFilter, SearchFilter, IpFilter];
      var t2 := [CreatedByFilter, DateFromFilter, DateToFilter, SearchFilter, IpFilter];
      var t3 := [DateFromFilter, DateToFilter, SearchFilter, IpFilter];
      var t4 := [DateToFilter, SearchFilter, IpFilter];
      var t5 := [SearchFilter, IpFilter];
      var t6 := [IpFilter];
      assert t[1..] == t1 && t1[1..] == t2 && t2[1..] == t3 && t3[1..] == t4 && t4[1..] == t5 && t5[1..] == t6;
      assert Collect(filters, t, c0) == Collect(filters, t1, c1);
      assert Collect(filters, t1, c1) == Collect(filters, t2, c2);
      assert Collect(filters, t2, c2) == Collect(filters, t3, c3);
      assert Collect(filters, t3, c3) == Collect(filters, t4, c4);
      assert Collect(filters, t4, c4) == Collect(filters, t5, c5);
      assert Collect(filters, t5, c5) == Collect(filters, t6, c6);
      assert Collect(filters, t6, c6) == Collect(filters, t6[1..], c7);
      assert t6[1..] == [];
    }

    /** The bind loop both listing queries run. */
    method BindParams(params: seq<(string, Value)>)
      modifies db
      ensures db.current == old(db.current).(binds := BindList(old(db.current.binds), params))
      ensures db.executed == old(db.executed)
    {
      var i := 0;
      while i < |params|
        invariant 0 <= i <= |params|
        invariant db.current.sql == old(db.current.sql) && db.executed == old(db.executed)
        invariant BindList(db.current.binds, params[i..]) == BindList(old(db.current.binds), params)
      {
        assert params[i..][1..] == params[i + 1..];
        db.Bind(params[i].0, params[i].1);
        i := i + 1;
      }
    }

    /** The inner loop of the join: the first plant with the row's db code. */
    static method FindPlant(plants: Entries, code: Value) returns (matched: Value)
      ensures matched == match PlantOf(plants, code) case Some(p) => p case None => Null
    {
      matched := Null;
      var i := 0;
      while i < |plants|
        invariant 0 <= i <= |plants|
        invariant PlantOf(plants[i..], code) == PlantOf(plants, code)
      {
        assert plants[i..][1..] == plants[i + 1..];
        if At(plants[i].1, StrKey("plant_db_code")) == code {
          matched := plants[i].1;
          return;
        }
        i := i + 1;
      }
    }

    /** The outer loop of the join. */
    static method JoinPlants(rows: seq<Value>, plants: Entries) returns (processed: seq<Value>)
      ensures processed == Processed(rows, plants)
    {
      processed := [];
      var i := 0;
      while i < |rows|
        invariant 0 <= i <= |rows|
        invariant |processed| == i
        invariant forall j :: 0 <= j < i ==> processed[j] == WithPlantCode(rows[j], plants)
      {
        var row := rows[i];
        var matched := FindPlant(plants, At(row, StrKey("slh_lp_plant_db_code")));
        var code := if Truthy(matched) then At(matched, StrKey("plant_code")) else Str("");
        processed := processed + [Arr(Put(EntriesOf(row), StrKey("slh_lp_plant_code"), code))];
        i := i + 1;
      }
    }

    /** findAllWithPagination */
    method FindAll(page: int, limit: int, filters: Entries, plantData: Value) returns (result: Value)
      modifies db
      ensures db.executed == old(db.executed) + [DataStatement(page, limit, filters), CountStatement(filters)]
      ensures result == PageResult(db.store, page, limit, filters, plantData)
    {
      var c := BuildConditions(filters);
      var where := WhereClause(c.conditions);
      db.Prepare(DataSql(page, limit, where));
      BindParams(c.params);
      var _ := db.Execute();
      var rows := db.FetchAll();
      var processed := JoinPlants(rows, EntriesOf(plantData));
      var data := Common.RemovePrefixFromKeys(ListOf(processed));
      db.Prepare(SelectCount + where);
      BindParams(c.params);
      var _ := db.Execute();
      var count := db.Fetch();
      result := Arr([(StrKey("data"), Arr(data)), (StrKey("total"), At(count, StrKey("total"))),
                     (StrKey("page"), Int(page)), (StrKey("limit"), Int(limit))]);
    }

    /** create: each data entry bound under ':' + key; the result is lastInsertId. */
    method Create(data: Entries) returns (id: Value)
      modifies db
      ensures db.executed == old(db.executed) + [InsertStatement(data)]
      ensures id == db.store.lastInsertId(db.executed)
    {
      db.Prepare(InsertSql);
      var named := seq(|data|, i requires 0 <= i < |data| => (":" + KeyText(data[i].0), data[i].1));
      BindParams(named);
      var _ := db.Execute();
      id := db.LastInsertId();
    }

    /** findById: the row, or false. */
    method FindById(id: Value) returns (row: Value)
      modifies db
      ensures db.executed == old(db.executed) + [ByIdStatement(id)]
      ensures row == FirstRow(db.store, ByIdStatement(id))
    {
      db.Prepare(ByIdSql);
      db.Bind(":id", id);
      assert Put([], ":id", Bound(id)) == [(":id", Bound(id))];
      var _ := db.Execute();
      row := db.Fetch();
    }

    /** getUniqueModules */
    method UniqueModules() returns (rows: seq<Value>)
      modifies db
      ensures db.executed == old(db.executed) + [Statement(ModulesSql, [])]
      ensures rows == db.store.rows(Statement(ModulesSql, []))
    {
      db.Prepare(ModulesSql);
      var _ := db.Execute();
      rows := db.FetchAll();
    }

    /** getUniqueUsers */
    method UniqueUsers() returns (rows: seq<Value>)
      modifies db
      ensures db.executed == old(db.executed) + [Statement(UsersSql, [])]
      ensures rows == db.store.rows(Statement(UsersSql, []))
    {
      db.Prepare(UsersSql);
      var _ := db.Execute();
      rows := db.FetchAll();
    }
  }
}
