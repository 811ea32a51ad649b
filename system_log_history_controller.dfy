/**
 * SystemLogHistoryController
 * (app/app/Controllers/SystemLogHistoryController.php): the listing of
 * system_log_history rows with its page, limit and filter parameters, the
 * creation of one log entry, the lookup of one entry, and the distinct
 * modules and users. Only the listing checks a right (mes_system_log.read).
 * The administration service's plant list is a function of the
 * credentials. Each action is first given as a function of the request,
 * the response and the store's answers; the class below performs it.
 */
module SystemLogActions {
  import opened Text
  import opened Php
  import opened Db
  import opened RequestSpec
  import opened ResponseSpec
  import opened ValidatorSpec
  import opened SystemLogHistorySpec
  import AuthServices
  import Request
  import Response
  import SystemLogHistoryModel

  /** `$authInfo['user_access']['mes_system_log']['read']` is truthy, `$authInfo` being the body's 'user'. */
  predicate Allowed(q: ReqState)
  {
    Truthy(At(At(At(GetData(q, Some("user"), Null), StrKey("user_access")), StrKey("mes_system_log")), StrKey("read")))
  }

  // ---------------------------------------------------------------------
  // getAllLogs

  /** `(int) $value ?: $default`: the integer, or the default when it is 0. */
  function OrDefault(n: int, default: int): int { if n == 0 then default else n }

  function Page(q: ReqState): int { OrDefault(IntVal(Param(q, "page")), 1) }
  function Limit(q: ReqState): int { OrDefault(IntVal(Param(q, "limit")), 10) }

  const MaxLimit := 999999

  /** The page and limit checks pass. */
  predicate InWindow(q: ReqState) { Page(q) >= 1 && 1 <= Limit(q) <= MaxLimit }

  /** The `$filters` array: the plant id twice, the user id as created_by. */
  function LogFilters(q: ReqState): Entries
  {
    [(StrKey("plant_id"), Param(q, "plantId")), (StrKey("module"), Param(q, "module")),
     (StrKey("created_by"), Param(q, "userId")), (StrKey("date_from"), Param(q, "dateFrom")),
     (StrKey("date_to"), Param(q, "dateTo")), (StrKey("search"), Param(q, "search")),
     (StrKey("lp_plant_db_code"), Param(q, "plantId")), (StrKey("ip_address"), Param(q, "ipAddress"))]
  }

  /** The credentials passed to plantListToSelect. */
  function Credentials(q: ReqState): Value
  {
    Arr([(StrKey("accessUsername"), Param(q, "accessUsername")), (StrKey("accessToken"), Param(q, "accessToken"))])
  }

  /** The plant list: the service's data when it answered status_code '200', otherwise empty. */
  function PlantData(api: Value): Value
  {
    if AuthServices.Accepted(api) then At(api, StrKey("data")) else Arr([])
  }

  /** The response data: logs, total, page, limit and the number of pages. */
  function ListBody(result: Value, limit: int): Value
    requires limit > 0
  {
    var total := IntVal(At(result, StrKey("total")));
    Arr([(StrKey("logs"), At(result, StrKey("data"))), (StrKey("total"), Int(total)),
         (StrKey("page"), Int(IntVal(At(result, StrKey("page"))))), (StrKey("limit"), Int(IntVal(At(result, StrKey("limit"))))),
         (StrKey("pages"), Int(CeilDiv(total, limit)))])
  }

  function ListResult(store: Store, plants: Value -> Value, q: ReqState): Value
  {
    PageResult(store, Page(q), Limit(q), LogFilters(q), PlantData(plants(Credentials(q))))
  }

  /** The success response of the listing. */
  function LogsListed(store: Store, plants: Value -> Value, q: ReqState, r: RespState): RespState
    requires Limit(q) > 0
  {
    Success(r, ListBody(ListResult(store, plants, q), Limit(q)), Str("System logs retrieved successfully"), Int(200))
  }

  function ListResponse(store: Store, plants: Value -> Value, q: ReqState, r: RespState): RespState
  {
    if !Allowed(q) then Unauthorized(r, Str("Permission denied")) else Listing(store, plants, q, r)
  }

  /** The answer once the read right is granted: the page and limit checks, then the listing. */
  function Listing(store: Store, plants: Value -> Value, q: ReqState, r: RespState): RespState
  {
    if Page(q) < 1 then Error(r, Str("Page must be â‰¥ 1"), Int(400), Null) else Limited(store, plants, q, r)
  }

  /** The answer once the page passed: the limit check, then the listing. */
  function Limited(store: Store, plants: Value -> Value, q: ReqState, r: RespState): RespState
  {
    if Limit(q) < 1 || Limit(q) > MaxLimit then Error(r, Str("Limit must be between 1-999999"), Int(400), Null)
    else LogsListed(store, plants, q, r)
  }

  /** The data and count queries of the listing. */
  function Queries(q: ReqState): seq<Statement>
  {
    [DataStatement(Page(q), Limit(q), LogFilters(q)), CountStatement(LogFilters(q))]
  }

  function ListStatements(q: ReqState): seq<Statement>
  {
    if Allowed(q) then WindowQueries(q) else []
  }

  /** The queries once the read right is granted: none when page or limit is out of range. */
  function WindowQueries(q: ReqState): seq<Statement>
  {
    if InWindow(q) then Queries(q) else []
  }

  // ---------------------------------------------------------------------
  // createLog

  /** `['required', 'length' => [lo, hi]]` */
  function RequiredLengthRule(lo: int, hi: int): Entries
  {
    [(IntKey(0), Str("required")), (StrKey("length"), Bounds(lo, hi))]
  }

  const CreateRules: Rules := [
    (StrKey("plantId"), RequiredLengthRule(1, 2)), (StrKey("ipAddress"), RequiredLengthRule(7, 100)),
    (StrKey("subject"), RequiredLengthRule(3, 100)), (StrKey("content"), RequiredRule),
    (StrKey("module"), RequiredLengthRule(3, 30))]

  /**
   * The record createLog inserts; now is the current date and time. The
   * author is always 'system': the action reads `$authInfo['lu_name']`
   * without ever assigning `$authInfo`.
   */
  function NewLog(q: ReqState, now: string): Entries
  {
    LogRow(Param(q, "plantId"), Param(q, "ipAddress"), Param(q, "subject"), Param(q, "content"), Param(q, "module"), now)
  }

  /** The row createLog inserts for the given fields. */
  function LogRow(plant: Value, ip: Value, subject: Value, content: Value, moduleName: Value, now: string): Entries
  {
    [(StrKey("slh_lp_plant_db_code"), plant), (StrKey("slh_ip_address"), ip),
     (StrKey("slh_subject"), subject), (StrKey("slh_content"), content),
     (StrKey("slh_module"), moduleName), (StrKey("slh_created_datetime"), Str(now)),
     (StrKey("slh_created_by"), Str("system"))]
  }

  function CreateErrors(checks: Checks, q: ReqState): Errors { ValidateAll(All(q), CreateRules, [], checks) }

  /** The id lastInsertId gives after the insert, the statements in history having run before it. */
  function NewId(store: Store, history: seq<Statement>, q: ReqState, now: string): Value
  {
    store.lastInsertId(history + [InsertStatement(NewLog(q, now))])
  }

  /** The insert, then the lookup of the new row when it got an id. */
  function StoreStatements(store: Store, history: seq<Statement>, q: ReqState, now: string): seq<Statement>
  {
    [InsertStatement(NewLog(q, now))] + Fetched(NewId(store, history, q, now))
  }

  /** The lookup of the new row, run only when the insert gave an id. */
  function Fetched(id: Value): seq<Statement>
  {
    if Truthy(id) then [ByIdStatement(id)] else []
  }

  /** The response once the input is valid: the new row, or an error when the insert gave no id. */
  function StoreResponse(store: Store, history: seq<Statement>, q: ReqState, r: RespState, now: string): RespState
  {
    Stored(store, NewId(store, history, q, now), r)
  }

  /** The answer to an insert that gave the id: 500 when it is falsy, else the row under 'log'. */
  function Stored(store: Store, id: Value, r: RespState): RespState
  {
    if !Truthy(id) then Error(r, Str("Failed to create log entry"), Int(500), Null)
    else Created(r, Arr([(StrKey("log"), FirstRow(store, ByIdStatement(id)))]), Str("Log entry created successfully"))
  }

  /** No statement when the input is invalid. */
  function CreateStatements(store: Store, checks: Checks, history: seq<Statement>, q: ReqState, now: string): seq<Statement>
  {
    if CreateErrors(checks, q) != [] then [] else StoreStatements(store, history, q, now)
  }

  function CreateResponse(store: Store, checks: Checks, history: seq<Statement>, q: ReqState, r: RespState, now: string): RespState
  {
    if CreateErrors(checks, q) != [] then Invalid(r, CreateErrors(checks, q)) else StoreResponse(store, history, q, r, now)
  }

  // ---------------------------------------------------------------------
  // getLog, getUniqueModules, getUniqueUsers

  function LogStatement(q: ReqState): Statement { ByIdStatement(Param(q, "id")) }

  function GetResponse(store: Store, q: ReqState, r: RespState): RespState
  {
    var log := FirstRow(store, LogStatement(q));
    if !Truthy(log) then NotFound(r, Str("Log entry not found"))
    else Success(r, Arr([(StrKey("log"), log)]), Str("Log entry found"), Int(200))
  }

  function ModulesResponse(store: Store, r: RespState): RespState
  {
    Success(r, Arr([(StrKey("modules"), Arr(ListOf(store.rows(Statement(ModulesSql, [])))))]), Str("Modules retrieved successfully"), Int(200))
  }

  function UsersResponse(store: Store, r: RespState): RespState
  {
    Success(r, Arr([(StrKey("users"), Arr(ListOf(store.rows(Statement(UsersSql, [])))))]), Str("Users retrieved successfully"), Int(200))
  }

  // ---------------------------------------------------------------------
  // Properties

  /** Without the read right the listing answers 401 and queries nothing. */
  lemma ListGate(store: Store, plants: Value -> Value, q: ReqState, r: RespState)
    requires !Allowed(q)
    ensures ListResponse(store, plants, q, r) == Unauthorized(r, Str("Permission denied"))
    ensures ListStatements(q) == []
  {
  }

  /**
   * A missing, zero or non-numeric page means page 1, and likewise limit 10;
   * so only a negative page, or a negative limit or one above 999999, is
   * refused.
   */
  lemma PageLimitDefaults(q: ReqState)
    ensures Param(q, "page") == Null ==> Page(q) == 1
    ensures Param(q, "limit") == Null ==> Limit(q) == 10
    ensures Page(q) == (if IntVal(Param(q, "page")) == 0 then 1 else IntVal(Param(q, "page")))
    ensures Limit(q) == (if IntVal(Param(q, "limit")) == 0 then 10 else IntVal(Param(q, "limit")))
    ensures Page(q) >= 1 <==> IntVal(Param(q, "page")) >= 0
    ensures 1 <= Limit(q) <= MaxLimit <==> 0 <= IntVal(Param(q, "limit")) <= MaxLimit
  {
  }

  /**
   * The listing runs its two queries exactly when the right is granted and
   * page and limit pass; otherwise a refused page or limit answers 400 with
   * its own message. Both queries share the where clause and parameters.
   */
  lemma ListQueries(store: Store, plants: Value -> Value, q: ReqState, r: RespState)
    ensures ListStatements(q) != [] <==> Allowed(q) && InWindow(q)
    ensures Allowed(q) && Page(q) < 1 ==> ListResponse(store, plants, q, r) == Error(r, Str("Page must be â‰¥ 1"), Int(400), Null)
    ensures Allowed(q) && Page(q) >= 1 && !InWindow(q) ==>
      ListResponse(store, plants, q, r) == Error(r, Str("Limit must be between 1-999999"), Int(400), Null)
    ensures ListStatements(q) != [] ==>
      && ListStatements(q)[0].binds == ListStatements(q)[1].binds
      && ListStatements(q)[0].sql == DataSql(Page(q), Limit(q), WhereClause(Conditions(LogFilters(q)).conditions))
  {
    if ListStatements(q) != [] {
      CountMatchesData(Page(q), Limit(q), LogFilters(q));
    }
  }

  /**
   * Each filter block reads its request field: plantId for the plant,
   * userId for created_by, ipAddress for the IP address.
   */
  lemma LogFilterValues(q: ReqState)
    ensures FilterValue(LogFilters(q), "plant_id") == Param(q, "plantId")
    ensures FilterValue(LogFilters(q), "module") == Param(q, "module")
    ensures FilterValue(LogFilters(q), "created_by") == Param(q, "userId")
    ensures FilterValue(LogFilters(q), "date_from") == Param(q, "dateFrom")
    ensures FilterValue(LogFilters(q), "date_to") == Param(q, "dateTo")
    ensures FilterValue(LogFilters(q), "search") == Param(q, "search")
    ensures FilterValue(LogFilters(q), "ip_address") == Param(q, "ipAddress")
  {
    FilterValues(LogFilters(q), Param(q, "plantId"), Param(q, "module"), Param(q, "userId"), Param(q, "dateFrom"),
                 Param(q, "dateTo"), Param(q, "search"), Param(q, "ipAddress"));
    FilterTailValues(LogFilters(q), Param(q, "plantId"), Param(q, "module"), Param(q, "userId"), Param(q, "dateFrom"),
                     Param(q, "dateTo"), Param(q, "search"), Param(q, "ipAddress"));
  }

  /** The filters createdBy, dateFrom and the plant id and module resolve to, in the order getAllLogs builds them. */
  lemma FilterValues(f: Entries, plant: Value, moduleName: Value, user: Value, from: Value, to: Value, search: Value, ip: Value)
    requires f == [(StrKey("plant_id"), plant), (StrKey("module"), moduleName), (StrKey("created_by"), user),
                   (StrKey("date_from"), from), (StrKey("date_to"), to), (StrKey("search"), search),
                   (StrKey("lp_plant_db_code"), plant), (StrKey("ip_address"), ip)]
    ensures FilterValue(f, "plant_id") == plant && FilterValue(f, "module") == moduleName
    ensures FilterValue(f, "created_by") == user && FilterValue(f, "date_from") == from
  {
    FilterAt(f, "plant_id", 0);
    FilterAt(f, "module", 1);
    FilterAt(f, "created_by", 2);
    FilterAt(f, "date_from", 3);
  }

  /** The filters dateTo, search and ipAddress resolve to. */
  lemma FilterTailValues(f: Entries, plant: Value, moduleName: Value, user: Value, from: Value, to: Value, search: Value, ip: Value)
    requires f == [(StrKey("plant_id"), plant), (StrKey("module"), moduleName), (StrKey("created_by"), user),
                   (StrKey("date_from"), from), (StrKey("date_to"), to), (StrKey("search"), search),
                   (StrKey("lp_plant_db_code"), plant), (StrKey("ip_address"), ip)]
    ensures FilterValue(f, "date_to") == to && FilterValue(f, "search") == search
    ensures FilterValue(f, "ip_address") == ip
  {
    FilterAt(f, "date_to", 4);
    FilterAt(f, "search", 5);
    FilterAt(f, "ip_address", 7);
  }

  /** The value of the first entry under a key. */
  lemma FilterAt(filters: Entries, key: string, i: nat)
    requires i < |filters| && filters[i].0 == StrKey(key)
    requires forall j :: 0 <= j < i ==> filters[j].0 != StrKey(key)
    ensures FilterValue(filters, key) == filters[i].1
  {
    PosUpTo(filters, StrKey(key), i);
  }

  /** Without the plant list (any answer but status_code '200') every log's plant code is ''. */
  lemma PlantDataSpec(api: Value, code: Value)
    ensures AuthServices.Accepted(api) ==> PlantData(api) == At(api, StrKey("data"))
    ensures !AuthServices.Accepted(api) ==> PlantCode(EntriesOf(PlantData(api)), code) == Str("")
  {
  }

  /** The number of pages is the least that holds total rows at limit per page. */
  lemma PagesCover(result: Value, limit: int)
    requires limit > 0
    ensures At(ListBody(result, limit), StrKey("pages")).Int?
    ensures var total, p := IntVal(At(result, StrKey("total"))), At(ListBody(result, limit), StrKey("pages")).n;
      (p - 1) * limit < total <= p * limit
  {
    var total := IntVal(At(result, StrKey("total")));
    PosUpTo(ListBody(result, limit).entries, StrKey("pages"), 4);
    assert At(ListBody(result, limit), StrKey("pages")) == Int(CeilDiv(total, limit));
  }

  lemma UniqueCreateRules()
    ensures UniqueKeys(CreateRules)
  {
  }

  /** The messages validate records for the rule entry at index i of the rule array. */
  lemma CreateRuleErrors(checks: Checks, q: ReqState, i: nat)
    requires i < |CreateRules|
    ensures Get(CreateErrors(checks, q), CreateRules[i].0)
         == (var ms := EntryMessages(All(q), CreateRules[i].0, CreateRules[i].1, [], checks); if ms == [] then None else Some(ms))
  {
    UniqueCreateRules();
    PosUpTo(CreateRules, CreateRules[i].0, i);
    ValidateGet(All(q), CreateRules, [], checks, CreateRules[i].0);
  }

  /** The field's text is present and its length is within [lo, hi]. */
  predicate InRange(q: ReqState, field: string, lo: int, hi: int)
  {
    var v := FieldValue(All(q), StrKey(field));
    Filled(All(q), field) && lo <= |ToStr(v)| <= hi
  }

  /**
   * The errors for a length-checked field: the required message when it is
   * absent, null or '', the length message when it is out of range, none
   * otherwise.
   */
  lemma LengthFieldErrors(checks: Checks, q: ReqState, i: nat, field: string, lo: int, hi: int)
    requires i < |CreateRules| && CreateRules[i] == (StrKey(field), RequiredLengthRule(lo, hi))
    ensures Get(CreateErrors(checks, q), StrKey(field))
         == (var v := FieldValue(All(q), StrKey(field));
             if !Filled(All(q), field) then Some([RequiredMessage(field)])
             else if !InRange(q, field, lo, hi)
             then Some(["The " + field + " must be between " + IntToString(lo) + " and " + IntToString(hi) + " characters."])
             else None)
  {
    CreateRuleErrors(checks, q, i);
    RequiredLength(All(q), StrKey(field), lo, hi, checks);
  }

  /** The errors for a field that is only required. */
  lemma RequiredFieldErrors(checks: Checks, q: ReqState, i: nat, field: string)
    requires i < |CreateRules| && CreateRules[i] == (StrKey(field), RequiredRule)
    ensures Get(CreateErrors(checks, q), StrKey(field)) == if Filled(All(q), field) then None else Some([RequiredMessage(field)])
  {
    CreateRuleErrors(checks, q, i);
    RequiredOnly(All(q), StrKey(field), [], checks);
  }

  /** createLog's validation: plantId 1-2, ipAddress 7-100, subject 3-100 and module 3-30 characters, content filled. */
  lemma CreateFieldErrors(checks: Checks, q: ReqState)
    ensures Get(CreateErrors(checks, q), StrKey("plantId")) == None <==> InRange(q, "plantId", 1, 2)
    ensures Get(CreateErrors(checks, q), StrKey("ipAddress")) == None <==> InRange(q, "ipAddress", 7, 100)
    ensures Get(CreateErrors(checks, q), StrKey("subject")) == None <==> InRange(q, "subject", 3, 100)
    ensures Get(CreateErrors(checks, q), StrKey("module")) == None <==> InRange(q, "module", 3, 30)
    ensures Get(CreateErrors(checks, q), StrKey("content")) == if Filled(All(q), "content") then None else Some([RequiredMessage("content")])
  {
    LengthFieldErrors(checks, q, 0, "plantId", 1, 2);
    LengthFieldErrors(checks, q, 1, "ipAddress", 7, 100);
    LengthFieldErrors(checks, q, 2, "subject", 3, 100);
    LengthFieldErrors(checks, q, 4, "module", 3, 30);
    RequiredFieldErrors(checks, q, 3, "content");
  }

  /** The input createLog accepts. */
  predicate ValidLog(q: ReqState)
  {
    && InRange(q, "plantId", 1, 2) && InRange(q, "ipAddress", 7, 100) && InRange(q, "subject", 3, 100)
    && Filled(All(q), "content") && InRange(q, "module", 3, 30)
  }

  /** Validation passes exactly on valid input. */
  lemma CreateValidIff(checks: Checks, q: ReqState)
    ensures CreateErrors(checks, q) == [] <==> ValidLog(q)
  {
    var errs := CreateErrors(checks, q);
    UniqueCreateRules();
    ValidatePassesEntries(All(q), CreateRules, [], checks);
    CreateFieldErrors(checks, q);
    assert CreateRules[0].0 == StrKey("plantId") && CreateRules[1].0 == StrKey("ipAddress");
    assert CreateRules[2].0 == StrKey("subject") && CreateRules[3].0 == StrKey("content");
    assert CreateRules[4].0 == StrKey("module");
    if ValidLog(q) {
      forall i | 0 <= i < |CreateRules| ensures Get(errs, CreateRules[i].0) == None {
        assert i == 0 || i == 1 || i == 2 || i == 3 || i == 4;
      }
    }
  }

  /** createLog answers invalid input with 422 and the errors, and runs nothing. */
  lemma CreateRejects(store: Store, checks: Checks, history: seq<Statement>, q: ReqState, r: RespState, now: string)
    requires !ValidLog(q)
    ensures CreateStatements(store, checks, history, q, now) == []
    ensures CreateResponse(store, checks, history, q, r, now) == Invalid(r, CreateErrors(checks, q))
  {
    CreateValidIff(checks, q);
  }

  /**
   * createLog on valid input runs the insert; a falsy id answers 500
   * without the lookup, while an id answers the new row under 'log'.
   */
  lemma CreateStores(store: Store, checks: Checks, history: seq<Statement>, q: ReqState, r: RespState, now: string)
    requires ValidLog(q)
    ensures !Truthy(NewId(store, history, q, now)) ==>
      && CreateStatements(store, checks, history, q, now) == [InsertStatement(NewLog(q, now))]
      && CreateResponse(store, checks, history, q, r, now) == Error(r, Str("Failed to create log entry"), Int(500), Null)
    ensures Truthy(NewId(store, history, q, now)) ==>
      var id := NewId(store, history, q, now);
      && CreateStatements(store, checks, history, q, now) == [InsertStatement(NewLog(q, now)), ByIdStatement(id)]
      && CreateResponse(store, checks, history, q, r, now)
         == Created(r, Arr([(StrKey("log"), FirstRow(store, ByIdStatement(id)))]), Str("Log entry created successfully"))
  {
    CreateValidIff(checks, q);
  }

  /** Every log entry is recorded as created by 'system', whoever sent it. */
  lemma NewLogAuthor(plant: Value, ip: Value, subject: Value, content: Value, moduleName: Value, now: string)
    ensures Get(LogRow(plant, ip, subject, content, moduleName, now), StrKey("slh_created_by")) == Some(Str("system"))
  {
    PosUpTo(LogRow(plant, ip, subject, content, moduleName, now), StrKey("slh_created_by"), 6);
  }

  /** Every log entry carries the time it was created at. */
  lemma NewLogStamp(plant: Value, ip: Value, subject: Value, content: Value, moduleName: Value, now: string)
    ensures Get(LogRow(plant, ip, subject, content, moduleName, now), StrKey("slh_created_datetime")) == Some(Str(now))
  {
    PosUpTo(LogRow(plant, ip, subject, content, moduleName, now), StrKey("slh_created_datetime"), 5);
  }

  /** getLog answers the row under 'log' with code 200, or 404 when findById finds no row. */
  lemma GetSpec(store: Store, q: ReqState, r: RespState)
    ensures var log := FirstRow(store, LogStatement(q));
      GetResponse(store, q, r).content
      == if Truthy(log) then SuccessEnvelope(Arr([(StrKey("log"), log)]), Str("Log entry found"), Int(200))
         else ErrorEnvelope(Str("Log entry not found"), Int(404), Null)
    ensures store.rows(LogStatement(q)) == [] ==>
      GetResponse(store, q, r).content == ErrorEnvelope(Str("Log entry not found"), Int(404), Null)
  {
    var log := FirstRow(store, LogStatement(q));
    JsonSpec(r, SuccessEnvelope(Arr([(StrKey("log"), log)]), Str("Log entry found"), Int(200)), []);
    JsonSpec(r, ErrorEnvelope(Str("Log entry not found"), Int(404), Null), []);
  }

  class SystemLogHistoryController {
    const model: SystemLogHistoryModel.SystemLogHistory
    const checks: Checks
    /** plantListToSelect of the administration service. */
    const plants: Value -> Value

    constructor (model: SystemLogHistoryModel.SystemLogHistory, checks: Checks, plants: Value -> Value)
      ensures this.model == model && this.checks == checks && this.plants == plants
    {
      this.model := model;
      this.checks := checks;
      this.plants := plants;
    }

    /** getAllLogs */
    method GetAllLogs(request: Request.Request, response: Response.Response)
      modifies response, model.db
      ensures response.State() == ListResponse(model.db.store, plants, request.State(), old(response.State()))
      ensures model.db.executed == old(model.db.executed) + ListStatements(request.State())
    {
      if !Allowed(request.State()) {
        response.Unauthorized(Str("Permission denied"));
        return;
      }
      Paged(request, response);
    }

    /** getAllLogs once the read right is granted: the page and limit checks, the plant list, the listing. */
    method Paged(request: Request.Request, response: Response.Response)
      requires Allowed(request.State())
      modifies response, model.db
      ensures response.State() == Listing(model.db.store, plants, request.State(), old(response.State()))
      ensures model.db.executed == old(model.db.executed) + WindowQueries(request.State())
    {
      var page := Page(request.State());
      if page < 1 {
        response.Error(Str("Page must be â‰¥ 1"), Int(400), Null);
        return;
      }
      Bounded(request.State(), response, page);
    }

    /** getAllLogs once the page passed: the limit check, the plant list, the listing; q is the request's state. */
    method Bounded(q: ReqState, response: Response.Response, page: int)
      requires Allowed(q) && page == Page(q) && page >= 1
      modifies response, model.db
      ensures response.State() == Limited(model.db.store, plants, q, old(response.State()))
      ensures model.db.executed == old(model.db.executed) + WindowQueries(q)
    {
      var limit := Limit(q);
      var filters := LogFilters(q);
      if limit < 1 || limit > 999999 {
        response.Error(Str("Limit must be between 1-999999"), Int(400), Null);
        return;
      }
      Fetch(q, response, page, limit, filters);
    }

    /** getAllLogs once page and limit passed: the plant list, then the listing. */
    method Fetch(q: ReqState, response: Response.Response, page: int, limit: int, filters: Entries)
      requires page == Page(q) && limit == Limit(q) && filters == LogFilters(q)
      requires limit > 0
      modifies response, model.db
      ensures response.State() == LogsListed(model.db.store, plants, q, old(response.State()))
      ensures model.db.executed == old(model.db.executed) + Queries(q)
    {
      var api := plants(Credentials(q));
      var plantData := Arr([]);
      if LooseEq(At(api, StrKey("status_code")), Str("200")) {
        plantData := At(api, StrKey("data"));
      }
      assert plantData == PlantData(api);
      List(response, page, limit, filters, plantData);
    }

    /** The part of getAllLogs after the checks passed: the two queries and the response. */
    method List(response: Response.Response, page: int, limit: int, filters: Entries, plantData: Value)
      requires limit > 0
      modifies response, model.db
      ensures response.State()
           == Success(old(response.State()), ListBody(PageResult(model.db.store, page, limit, filters, plantData), limit),
                      Str("System logs retrieved successfully"), Int(200))
      ensures model.db.executed == old(model.db.executed) + [DataStatement(page, limit, filters), CountStatement(filters)]
    {
      var result := model.FindAll(page, limit, filters, plantData);
      var total := IntVal(At(result, StrKey("total")));
      var data := Arr([(StrKey("logs"), At(result, StrKey("data"))), (StrKey("total"), Int(total)),
                       (StrKey("page"), Int(IntVal(At(result, StrKey("page"))))), (StrKey("limit"), Int(IntVal(At(result, StrKey("limit"))))),
                       (StrKey("pages"), Int(CeilDiv(total, limit)))]);
      response.Success(data, Str("System logs retrieved successfully"), Int(200));
    }

    /** createLog: now is the current date and time. */
    method CreateLog(request: Request.Request, response: Response.Response, now: string)
      modifies response, model.db
      ensures response.State() == CreateResponse(model.db.store, checks, old(model.db.executed), request.State(), old(response.State()), now)
      ensures model.db.executed == old(model.db.executed) + CreateStatements(model.db.store, checks, old(model.db.executed), request.State(), now)
    {
      var errors := request.Validate(CreateRules, checks);
      if errors != [] {
        response.ValidationError(ErrorsValue(errors), Str(ValidationFailed));
        return;
      }
      Record(request, response, now);
    }

    /** The part of createLog after the input passed validation: the insert, then the new row. */
    method Record(request: Request.Request, response: Response.Response, now: string)
      modifies response, model.db
      ensures response.State() == StoreResponse(model.db.store, old(model.db.executed), request.State(), old(response.State()), now)
      ensures model.db.executed == old(model.db.executed) + StoreStatements(model.db.store, old(model.db.executed), request.State(), now)
    {
      ghost var before := model.db.executed;
      var id := model.Create(NewLog(request.State(), now));
      Report(response, id);
      Assoc(before, [InsertStatement(NewLog(request.State(), now))], Fetched(id));
    }

    /** The part of createLog after the insert that gave the id. */
    method Report(response: Response.Response, id: Value)
      modifies response, model.db
      ensures response.State() == Stored(model.db.store, id, old(response.State()))
      ensures model.db.executed == old(model.db.executed) + Fetched(id)
    {
      if !Truthy(id) {
        response.Error(Str("Failed to create log entry"), Int(500), Null);
        return;
      }
      var log := model.FindById(id);
      response.Created(Arr([(StrKey("log"), log)]), Str("Log entry created successfully"));
    }

    /** getLog */
    method GetLog(request: Request.Request, response: Response.Response)
      modifies response, model.db
      ensures response.State() == GetResponse(model.db.store, request.State(), old(response.State()))
      ensures model.db.executed == old(model.db.executed) + [LogStatement(request.State())]
    {
      var log := model.FindById(GetData(request.State(), Some("id"), Null));
      if !Truthy(log) {
        response.NotFound(Str("Log entry not found"));
        return;
      }
      response.Success(Arr([(StrKey("log"), log)]), Str("Log entry found"), Int(200));
    }

    /** getUniqueModules */
    method GetUniqueModules(response: Response.Response)
      modifies response, model.db
      ensures response.State() == ModulesResponse(model.db.store, old(response.State()))
      ensures model.db.executed == old(model.db.executed) + [Statement(ModulesSql, [])]
    {
      var modules := model.UniqueModules();
      response.Success(Arr([(StrKey("modules"), Arr(ListOf(modules)))]), Str("Modules retrieved successfully"), Int(200));
    }

    /** getUniqueUsers */
    method GetUniqueUsers(response: Response.Response)
      modifies response, model.db
      ensures response.State() == UsersResponse(model.db.store, old(response.State()))
      ensures model.db.executed == old(model.db.executed) + [Statement(UsersSql, [])]
    {
      var users := model.UniqueUsers();
      response.Success(Arr([(StrKey("users"), Arr(ListOf(users)))]), Str("Users retrieved successfully"), Int(200));
    }
  }
}
