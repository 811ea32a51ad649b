/**
 * NotificationCenterController
 * (app/app/Controllers/NotificationCenterController.php): the five actions
 * on notification_center records. Every action first checks the
 * notification_center right of the authenticated user, then works through
 * the NotificationCenter model. Each action is first given as a function of
 * the request, the response and the store's answers; the class below
 * performs it on the Request, the Response and the model's database.
 */
module NotificationCenterActions {
  import opened Text
  import opened Php
  import opened Db
  import opened RequestSpec
  import opened ResponseSpec
  import opened ValidatorSpec
  import opened NotificationCenterSpec
  import Request
  import Response
  import NotificationCenterModel
  import Common

  /** `$authInfo['user_access']['notification_center'][$right]` is truthy, `$authInfo` being the body's 'user'. */
  predicate Allowed(q: ReqState, right: string)
  {
    Truthy(At(At(At(GetData(q, Some("user"), Null), StrKey("user_access")), StrKey("notification_center")), StrKey(right)))
  }

  function Denied(r: RespState): RespState { Unauthorized(r, Str("Permission denied")) }

  // ---------------------------------------------------------------------
  // getAllNotificationCenter

  function Page(q: ReqState): int { IntVal(Param(q, "page")) }
  function Limit(q: ReqState): int { IntVal(Param(q, "limit")) }
  function StatusFilter(q: ReqState): Value { GetData(q, Some("status"), Str("*")) }

  const ListOrder := "nc_created_datetime"
  const ListDirection := "DESC"

  /** The page and limit checks pass: page at least 1, limit from 1 to 100. */
  predicate InWindow(q: ReqState) { Page(q) >= 1 && 1 <= Limit(q) <= 100 }

  function ListResult(store: Store, q: ReqState): Value
  {
    PageResult(store, Page(q), Limit(q), ListOrder, ListDirection, StatusFilter(q), Param(q, "type"), Param(q, "search"), true)
  }

  /** The response data: the rows, total, page, limit and the number of pages. */
  function ListBody(result: Value, limit: int): Value
    requires limit > 0
  {
    var total := IntVal(At(result, StrKey("total")));
    Arr([(StrKey("notificationCenter"), At(result, StrKey("data"))), (StrKey("total"), Int(total)),
         (StrKey("page"), Int(IntVal(At(result, StrKey("page"))))), (StrKey("limit"), Int(IntVal(At(result, StrKey("limit"))))),
         (StrKey("pages"), Int(CeilDiv(total, limit)))])
  }

  function ListResponse(store: Store, q: ReqState, r: RespState): RespState
  {
    if !Allowed(q, "read") then Denied(r) else Listing(store, q, r)
  }

  /** The response of the listing once the right is granted: the page and limit checks, then the page found. */
  function Listing(store: Store, q: ReqState, r: RespState): RespState
  {
    if Page(q) < 1 then Error(r, Str("Page must be ≥ 1"), Int(400), Null)
    else if Limit(q) < 1 || Limit(q) > 100 then Error(r, Str("Limit must be between 1-100"), Int(400), Null)
    else Success(r, ListBody(ListResult(store, q), Limit(q)), Str("Notification center records retrieved successfully"), Int(200))
  }

  function ListStatements(q: ReqState): seq<Statement>
  {
    if Allowed(q, "read") then WindowStatements(q) else []
  }

  /** The queries of the listing once the right is granted: the page and the count, when page and limit are in range. */
  function WindowStatements(q: ReqState): seq<Statement>
  {
    if InWindow(q) then
      [DataStatement(Page(q), Limit(q), ListOrder, ListDirection, StatusFilter(q), Param(q, "type"), Param(q, "search")),
       CountStatement(StatusFilter(q), Param(q, "type"), Param(q, "search"))]
    else []
  }

  // ---------------------------------------------------------------------
  // createNotificationCenter

  const TypeRule: Entries := [(IntKey(0), Str("required")), (StrKey("length"), Bounds(2, 20))]

  const CreateRules: Rules := [
    (StrKey("type"), TypeRule), (StrKey("title"), RequiredRule), (StrKey("content"), RequiredRule),
    (StrKey("recipientList"), RequiredRule), (StrKey("luDepartment"), []), (StrKey("lpPlantDbCode"), [])]

  /** `$authInfo['lu_name'] ?? 'system'` */
  function CreatedBy(q: ReqState): Value
  {
    var name := At(GetData(q, Some("user"), Null), StrKey("lu_name"));
    if name == Null then Str("system") else name
  }

  /** The record create inserts; the generated db code and the current time are inputs. */
  function NewRecord(q: ReqState, dbCode: Value, now: string): Entries
  {
    [(StrKey("nc_db_code"), dbCode), (StrKey("nc_type"), Param(q, "type")), (StrKey("nc_title"), Param(q, "title")),
     (StrKey("nc_content"), Param(q, "content")), (StrKey("nc_recipient_list"), Param(q, "recipientList")),
     (StrKey("nc_lu_department"), Param(q, "luDepartment")), (StrKey("nc_lp_plant_db_code"), Param(q, "lpPlantDbCode")),
     (StrKey("nc_status"), Int(1)), (StrKey("nc_created_datetime"), Str(now)), (StrKey("nc_created_by"), CreatedBy(q))]
  }

  function CreateErrors(checks: Checks, q: ReqState): Errors { ValidateAll(All(q), CreateRules, [], checks) }

  function CreateStatements(checks: Checks, q: ReqState, dbCode: Value, now: string): seq<Statement>
  {
    if Allowed(q, "write") then CreateWrite(checks, q, dbCode, now) else []
  }

  /** The insert create runs once the right is granted: only when the input is valid. */
  function CreateWrite(checks: Checks, q: ReqState, dbCode: Value, now: string): seq<Statement>
  {
    if CreateErrors(checks, q) == [] then [InsertStatement(NewRecord(q, dbCode, now))] else []
  }

  /** The response of create, after the statements in history were executed before it. */
  function CreateResponse(store: Store, checks: Checks, history: seq<Statement>, q: ReqState, r: RespState, dbCode: Value, now: string): RespState
  {
    if !Allowed(q, "write") then Denied(r) else CreateChecked(store, checks, history, q, r, dbCode, now)
  }

  /** The response of create once the right is granted: validation, then the insert's outcome. */
  function CreateChecked(store: Store, checks: Checks, history: seq<Statement>, q: ReqState, r: RespState, dbCode: Value, now: string): RespState
  {
    if CreateErrors(checks, q) != [] then Invalid(r, CreateErrors(checks, q))
    else Inserted(store, history, q, r, dbCode, now)
  }

  /** The response once the input is valid: the insert's outcome, read from the id it generated. */
  function Inserted(store: Store, history: seq<Statement>, q: ReqState, r: RespState, dbCode: Value, now: string): RespState
  {
    if !Truthy(store.lastInsertId(history + [InsertStatement(NewRecord(q, dbCode, now))])) then
      Error(r, Str("Failed to create notification center record"), Int(500), Null)
    else Created(r, Null, Str("Notification center record created successfully"))
  }

  // ---------------------------------------------------------------------
  // getNotificationCenter, and the lookup update and delete start with

  const Missing := "Notification center record not found"

  /** findByCode($request->getData('code')), with the default status '*'. */
  function Existing(store: Store, q: ReqState): Value { ByCodeResult(store, Param(q, "code"), Str("*")) }

  function LookupStatement(q: ReqState): Statement { ByCodeStatement(Param(q, "code"), Str("*")) }

  /** The right is granted and the record exists. */
  predicate Found(store: Store, q: ReqState, right: string) { Allowed(q, right) && Truthy(Existing(store, q)) }

  function GetResponse(store: Store, q: ReqState, r: RespState): RespState
  {
    if !Allowed(q, "read") then Denied(r)
    else if !Truthy(Existing(store, q)) then NotFound(r, Str(Missing))
    else Success(r, Arr([(StrKey("notificationCenter"), Existing(store, q))]), Str("Notification center record found"), Int(200))
  }

  function LookupStatements(q: ReqState, right: string): seq<Statement>
  {
    if Allowed(q, right) then [LookupStatement(q)] else []
  }

  // ---------------------------------------------------------------------
  // updateNotificationCenter

  /**
   * The status conversion before validation: when 'status' is present its
   * body value becomes the integer of the 'ncStatus' field.
   */
  function WithStatus(q: ReqState): ReqState
  {
    if HasInput(All(q), "status") then SetData(q, "status", Int(IntVal(Param(q, "ncStatus")))) else q
  }

  const UpdateRules: Rules := [
    (StrKey("type"), TypeRule), (StrKey("title"), RequiredRule), (StrKey("content"), RequiredRule),
    (StrKey("recipientList"), []), (StrKey("luDepartment"), []), (StrKey("lpPlantDbCode"), []),
    (StrKey("status"), [(IntKey(0), Str("required")), (IntKey(1), Str("numeric"))])]

  /** The request fields update copies, each with the column it is stored in. */
  const FieldMappings: seq<(string, string)> := [
    ("type", "nc_type"), ("title", "nc_title"), ("content", "nc_content"), ("recipientList", "nc_recipient_list"),
    ("luDepartment", "nc_lu_department"), ("lpPlantDbCode", "nc_lp_plant_db_code"), ("status", "nc_status")]

  /** `$data[$dbField] = getData($requestField)` for each mapped field the request has, in mapping order. */
  function Mapped(q: ReqState, fields: seq<(string, string)>): Entries
    decreases |fields|
  {
    if fields == [] then []
    else
      var init := Mapped(q, fields[..|fields| - 1]);
      var (field, column) := fields[|fields| - 1];
      if HasInput(All(q), field) then Put(init, StrKey(column), Param(q, field)) else init
  }

  function UpdateErrors(checks: Checks, q: ReqState): Errors { ValidateAll(All(WithStatus(q)), UpdateRules, [], checks) }

  function Changes(q: ReqState): Entries { Mapped(WithStatus(q), FieldMappings) }

  /** The statements update executes: the lookup, then the update when the record exists and the input is valid. */
  function UpdateStatements(store: Store, checks: Checks, q: ReqState): seq<Statement>
  {
    if Allowed(q, "write") then [LookupStatement(q)] + FoundWrite(store, checks, q) else []
  }

  /** The statements update runs after the lookup: the update, when the record exists and the input is valid. */
  function FoundWrite(store: Store, checks: Checks, q: ReqState): seq<Statement>
  {
    if Truthy(Existing(store, q)) then UpdateWrite(checks, q) else []
  }

  /** What update leaves in the request and the response. */
  function UpdateOutcome(store: Store, checks: Checks, q: ReqState, r: RespState): (ReqState, RespState)
  {
    if !Allowed(q, "write") then (q, Denied(r))
    else UpdateLooked(store, checks, q, r, Existing(store, q))
  }

  /** update once the right is granted, findByCode having answered found. */
  function UpdateLooked(store: Store, checks: Checks, q: ReqState, r: RespState, found: Value): (ReqState, RespState)
  {
    if !Truthy(found) then (q, NotFound(r, Str(Missing))) else UpdateFound(store, checks, q, r)
  }

  /** The part of update after the record was found: status conversion, validation, the write. */
  function UpdateFound(store: Store, checks: Checks, q: ReqState, r: RespState): (ReqState, RespState)
  {
    if UpdateErrors(checks, q) != [] then (WithStatus(q), Invalid(r, UpdateErrors(checks, q)))
    else Committed(store, Param(q, "code"), WithStatus(q), r)
  }

  /** The write of update on valid input s: on success the request is marked for the action log. */
  function Committed(store: Store, code: Value, s: ReqState, r: RespState): (ReqState, RespState)
  {
    if !store.succeeds(UpdateStatement(code, Mapped(s, FieldMappings))) then
      (s, Error(r, Str("Failed to update notification center record"), Int(500), Null))
    else
      (SetData(s, "log_status", Str("write")), Success(r, Null, Str("Notification center record updated successfully"), Int(200)))
  }

  /** The update statement, when the input is valid. */
  function UpdateWrite(checks: Checks, q: ReqState): seq<Statement>
  {
    if UpdateErrors(checks, q) == [] then [UpdateStatement(Param(q, "code"), Changes(q))] else []
  }

  // ---------------------------------------------------------------------
  // deleteNotificationCenter

  function DeleteStatements(store: Store, q: ReqState): seq<Statement>
  {
    if Allowed(q, "write") then [LookupStatement(q)] + FoundDelete(store, q) else []
  }

  /** The statement delete runs after the lookup: the soft delete, when the record exists. */
  function FoundDelete(store: Store, q: ReqState): seq<Statement>
  {
    if Truthy(Existing(store, q)) then [DeleteStatement(Param(q, "code"))] else []
  }

  function DeleteResponse(store: Store, q: ReqState, r: RespState): RespState
  {
    if !Allowed(q, "write") then Denied(r)
    else DeleteLooked(store, q, r, Existing(store, q))
  }

  /** delete once the right is granted, findByCode having answered found. */
  function DeleteLooked(store: Store, q: ReqState, r: RespState, found: Value): RespState
  {
    if !Truthy(found) then NotFound(r, Str(Missing)) else Deleted(store, q, r)
  }

  /** The response once the record was found: the delete's outcome. */
  function Deleted(store: Store, q: ReqState, r: RespState): RespState
  {
    if !store.succeeds(DeleteStatement(Param(q, "code"))) then
      Error(r, Str("Failed to delete notification center record"), Int(500), Null)
    else Success(r, Null, Str("Notification center record deleted successfully"), Int(200))
  }

  // ---------------------------------------------------------------------
  // Properties

  /** Without the right, every action answers 401 'Permission denied' and touches no table. */
  lemma PermissionGate(store: Store, checks: Checks, history: seq<Statement>, q: ReqState, r: RespState, dbCode: Value, now: string)
    ensures !Allowed(q, "read") ==> ListResponse(store, q, r) == Denied(r) && ListStatements(q) == []
    ensures !Allowed(q, "read") ==> GetResponse(store, q, r) == Denied(r) && LookupStatements(q, "read") == []
    ensures !Allowed(q, "write") ==>
      && CreateResponse(store, checks, history, q, r, dbCode, now) == Denied(r) && CreateStatements(checks, q, dbCode, now) == []
      && UpdateOutcome(store, checks, q, r) == (q, Denied(r)) && UpdateStatements(store, checks, q) == []
      && DeleteResponse(store, q, r) == Denied(r) && DeleteStatements(store, q) == []
  {
  }

  /**
   * The listing queries run exactly when the right is granted and page and
   * limit are in range; they read page (page-1)*limit onwards, newest first.
   */
  lemma ListQueries(q: ReqState)
    ensures ListStatements(q) != [] <==> Allowed(q, "read") && Page(q) >= 1 && 1 <= Limit(q) <= 100
    ensures Column(ListOrder) == "nc_created_datetime" && Direction(ListDirection) == "DESC"
  {
    assert ListOrder in AllowedColumns;
    assert ToUpper(ListDirection) == "DESC" by {
      assert UpperChar('D') == 'D' && UpperChar('E') == 'E' && UpperChar('S') == 'S' && UpperChar('C') == 'C';
      UpperFour('D', 'E', 'S', 'C');
    }
  }

  lemma UpperFour(a: char, b: char, c: char, d: char)
    requires UpperChar(a) == a && UpperChar(b) == b && UpperChar(c) == c && UpperChar(d) == d
    ensures ToUpper([a, b, c, d]) == [a, b, c, d]
  {
  }

  /**
   * A new record has status 1, the generated code, the current time and
   * its author's lu_name ('system' without one), each bound under its own
   * placeholder.
   */
  lemma NewRecordBinds(q: ReqState, dbCode: Value, now: string)
    ensures var b := InsertStatement(NewRecord(q, dbCode, now)).binds;
      && Get(b, Placeholder("nc_status")) == Some(Int(1))
      && Get(b, Placeholder("nc_created_datetime")) == Some(Str(now))
      && Get(b, Placeholder("nc_created_by")) == Some(Bound(CreatedBy(q)))
  {
    TailBinds(NewRecord(q, dbCode, now), "nc_status", "nc_created_datetime", "nc_created_by", Int(1), Str(now), CreatedBy(q));
  }

  /** The last three entries of a record, their columns of different lengths, are each bound under their own placeholder. */
  lemma TailBinds(data: Entries, a: string, b: string, c: string, x: Value, y: Value, z: Value)
    requires |data| >= 3 && |a| != |b| && |a| != |c| && |b| != |c|
    requires data[|data| - 3] == (StrKey(a), x) && data[|data| - 2] == (StrKey(b), y) && data[|data| - 1] == (StrKey(c), z)
    ensures Get(BindEach([], data), Placeholder(a)) == Some(Bound(x))
    ensures Get(BindEach([], data), Placeholder(b)) == Some(Bound(y))
    ensures Get(BindEach([], data), Placeholder(c)) == Some(Bound(z))
  {
    var n := |data|;
    forall j | n - 3 < j < n ensures |BindName(data, j)| != |Placeholder(a)| {
      assert j == n - 2 || j == n - 1;
    }
    forall j | n - 2 < j < n ensures |BindName(data, j)| != |Placeholder(b)| {
      assert j == n - 1;
    }
    EntryBound(data, |data| - 3, Placeholder(a), x);
    EntryBound(data, |data| - 2, Placeholder(b), y);
    EntryBound(data, |data| - 1, Placeholder(c), z);
  }

  /** An entry is bound under its name when every later name has another length. */
  lemma EntryBound(data: Entries, k: nat, name: string, v: Value)
    requires k < |data| && data[k].1 == v && BindName(data, k) == name
    requires forall j :: k < j < |data| ==> |BindName(data, j)| != |name|
    ensures Get(BindEach([], data), name) == Some(Bound(v))
  {
    BindEachAt([], data, k);
  }

  /** The record is inserted only when title, content and recipientList are all filled. */
  lemma CreateNeedsFields(checks: Checks, q: ReqState, field: string)
    requires field == "title" || field == "content" || field == "recipientList"
    requires !Filled(All(q), field)
    ensures CreateStatements(checks, q, Null, "") == []
    ensures Allowed(q, "write") ==> Get(CreateErrors(checks, q), StrKey(field)) == Some([RequiredMessage(field)])
  {
    UniqueCreateRules();
    var idx := if field == "title" then 1 else if field == "content" then 2 else 3;
    PosUpTo(CreateRules, StrKey(field), idx);
    RequiredMissing(All(q), CreateRules, [], checks, StrKey(field));
    assert CreateErrors(checks, q) != [];
  }

  lemma UniqueCreateRules()
    ensures UniqueKeys(CreateRules)
  {
    UniqueKeysOf(CreateRules);
  }

  /** Several keys, pairwise distinct, form a key-unique list. */
  lemma UniqueKeysOf(rules: Rules)
    requires forall i, j :: 0 <= i < j < |rules| ==> rules[i].0 != rules[j].0
    ensures UniqueKeys(rules)
  {
  }

  /** get answers the record under 'notificationCenter', or 404 when findByCode found nothing. */
  lemma GetSpec(store: Store, q: ReqState, r: RespState)
    requires Allowed(q, "read")
    ensures var row := FirstRow(store, LookupStatement(q));
      && (!Truthy(row) || EntriesOf(row) == [] ==> GetResponse(store, q, r) == NotFound(r, Str(Missing)))
      && (Truthy(row) && EntriesOf(row) != [] ==>
            GetResponse(store, q, r) == Success(r, Arr([(StrKey("notificationCenter"), Existing(store, q))]), Str("Notification center record found"), Int(200)))
  {
    ByCodeEmptyIffMissing(store, Param(q, "code"), Str("*"));
  }

  /**
   * The status stored by update is the integer of 'ncStatus' whenever
   * 'status' is present: the 'status' value itself is discarded.
   */
  lemma StatusFromNcStatus(q: ReqState)
    requires HasInput(All(q), "status")
    ensures Param(WithStatus(q), "status") == Int(IntVal(Param(q, "ncStatus")))
  {
    GetDataSetData(q, "status", Int(IntVal(Param(q, "ncStatus"))), "status", Null);
  }

  /** Only the mapped fields the request has are changed, each under its own column. */
  lemma {:induction false} MappedGet(q: ReqState, fields: seq<(string, string)>, k: nat)
    requires k < |fields|
    requires forall i, j :: 0 <= i < j < |fields| ==> fields[i].1 != fields[j].1
    ensures Get(Mapped(q, fields), StrKey(fields[k].1))
         == if HasInput(All(q), fields[k].0) then Some(Param(q, fields[k].0)) else None
    decreases |fields|
  {
    var init := fields[..|fields| - 1];
    var (field, column) := fields[|fields| - 1];
    GetPut(Mapped(q, init), StrKey(column), Param(q, field), StrKey(fields[k].1));
    if k < |fields| - 1 {
      MappedGet(q, init, k);
    } else {
      MappedAbsent(q, init, fields[k].1);
    }
  }

  /** A column no mapping names is never changed. */
  lemma {:induction false} MappedAbsent(q: ReqState, fields: seq<(string, string)>, column: string)
    requires forall i :: 0 <= i < |fields| ==> fields[i].1 != column
    ensures Get(Mapped(q, fields), StrKey(column)) == None
    decreases |fields|
  {
    if fields != [] {
      var init := fields[..|fields| - 1];
      GetPut(Mapped(q, init), StrKey(fields[|fields| - 1].1), Param(q, fields[|fields| - 1].0), StrKey(column));
      MappedAbsent(q, init, column);
    }
  }

  /**
   * The update writes nc_status exactly when the request has 'status', and
   * then the integer of 'ncStatus' (the body's keys being distinct, as
   * decoded input is).
   */
  lemma ChangesStatus(q: ReqState)
    requires UniqueKeys(q.data)
    ensures Get(Changes(q), StrKey("nc_status"))
         == if HasInput(All(q), "status") then Some(Int(IntVal(Param(q, "ncStatus")))) else None
  {
    DistinctColumns();
    MappedGet(WithStatus(q), FieldMappings, 6);
    if HasInput(All(q), "status") {
      StatusFromNcStatus(q);
      StatusKept(q, Int(IntVal(Param(q, "ncStatus"))));
    }
  }

  lemma DistinctColumns()
    ensures forall i, j :: 0 <= i < j < |FieldMappings| ==> FieldMappings[i].1 != FieldMappings[j].1
  {
  }

  /** With distinct body keys, a non-null 'status' written by setData is present in all(). */
  lemma StatusKept(q: ReqState, v: Value)
    requires UniqueKeys(q.data) && v != Null
    ensures HasInput(All(SetData(q, "status", v)), "status")
  {
    var q' := SetData(q, "status", v);
    assert KeyOf("status") == StrKey("status");
    Common.PutUnique(q.data, StrKey("status"), v);
    GetPut(q.data, StrKey("status"), v, StrKey("status"));
    LastGetIsGet(q'.data, StrKey("status"));
    AllPrecedence(q', "status");
  }

  /** A record findByCode does not find is neither updated nor deleted: only the lookup runs, and the answer is 404. */
  lemma MissingRecord(store: Store, checks: Checks, q: ReqState, r: RespState)
    requires Allowed(q, "write") && !Truthy(Existing(store, q))
    ensures UpdateStatements(store, checks, q) == [LookupStatement(q)]
    ensures UpdateOutcome(store, checks, q, r) == (q, NotFound(r, Str(Missing)))
    ensures DeleteStatements(store, q) == [LookupStatement(q)]
    ensures DeleteResponse(store, q, r) == NotFound(r, Str(Missing))
  {
  }

  /** A successful update marks the request for the action log with log_status 'write'. */
  lemma UpdateMarksLog(store: Store, checks: Checks, q: ReqState, r: RespState)
    requires Found(store, q, "write") && UpdateErrors(checks, q) == []
    requires store.succeeds(UpdateStatement(Param(q, "code"), Changes(q)))
    ensures Param(UpdateOutcome(store, checks, q, r).0, "log_status") == Str("write")
  {
    GetDataSetData(WithStatus(q), "log_status", Str("write"), "log_status", Null);
  }

  /** A found record with valid input is looked up, then updated with the mapped fields under its code. */
  lemma UpdateWrites(store: Store, checks: Checks, q: ReqState)
    requires Found(store, q, "write") && UpdateErrors(checks, q) == []
    ensures UpdateStatements(store, checks, q) == [LookupStatement(q), UpdateStatement(Param(q, "code"), Changes(q))]
  {
  }

  /** delete is a soft delete: the statement run sets nc_status to -1 for the record's code. */
  lemma DeleteIsSoft(store: Store, q: ReqState)
    requires Found(store, q, "write")
    ensures DeleteStatements(store, q) == [LookupStatement(q), DeleteStatement(Param(q, "code"))]
    ensures DeleteStatement(Param(q, "code")).sql == "UPDATE notification_center SET nc_status = -1 WHERE nc_db_code = :nc_db_code"
  {
  }

  class NotificationCenterController {
    const model: NotificationCenterModel.NotificationCenter
    const checks: Checks

    constructor (model: NotificationCenterModel.NotificationCenter, checks: Checks)
      ensures this.model == model && this.checks == checks
    {
      this.model := model;
      this.checks := checks;
    }

    /** The permission check every action starts with. */
    static function Granted(request: Request.Request, right: string): (b: bool)
      reads request
      ensures b == Allowed(request.State(), right)
    {
      var auth := GetData(request.State(), Some("user"), Null);
      Truthy(At(At(At(auth, StrKey("user_access")), StrKey("notification_center")), StrKey(right)))
    }

    /** getAllNotificationCenter */
    method GetAll(request: Request.Request, response: Response.Response)
      modifies response, model.db
      ensures response.State() == ListResponse(model.db.store, request.State(), old(response.State()))
      ensures model.db.executed == old(model.db.executed) + ListStatements(request.State())
    {
      if !Granted(request, "read") {
        response.Unauthorized(Str("Permission denied"));
        return;
      }
      List(request, response);
    }

    /** The listing once the right is granted: the page and limit checks, then the page and the count. */
    method List(request: Request.Request, response: Response.Response)
      modifies response, model.db
      ensures response.State() == Listing(model.db.store, request.State(), old(response.State()))
      ensures model.db.executed == old(model.db.executed) + WindowStatements(request.State())
    {
      var page := Page(request.State());
      var limit := Limit(request.State());
      if page < 1 {
        response.Error(Str("Page must be ≥ 1"), Int(400), Null);
        return;
      }
      if limit < 1 || limit > 100 {
        response.Error(Str("Limit must be between 1-100"), Int(400), Null);
        return;
      }
      var status := StatusFilter(request.State());
      var typ := Param(request.State(), "type");
      var search := Param(request.State(), "search");
      var result := model.FindAll(page, limit, ListOrder, ListDirection, status, typ, search, true);
      response.Success(ListBody(result, limit), Str("Notification center records retrieved successfully"), Int(200));
    }

    /** createNotificationCenter: dbCode is the generated db code, now the current date and time. */
    method Create(request: Request.Request, response: Response.Response, dbCode: Value, now: string)
      modifies response, model.db
      ensures response.State()
           == CreateResponse(model.db.store, checks, old(model.db.executed), request.State(), old(response.State()), dbCode, now)
      ensures model.db.executed == old(model.db.executed) + CreateStatements(checks, request.State(), dbCode, now)
    {
      if !Granted(request, "write") {
        response.Unauthorized(Str("Permission denied"));
        return;
      }
      Submit(request, response, dbCode, now);
    }

    /** create once the right is granted: validation, then the insert. */
    method Submit(request: Request.Request, response: Response.Response, dbCode: Value, now: string)
      modifies response, model.db
      ensures response.State()
           == CreateChecked(model.db.store, checks, old(model.db.executed), request.State(), old(response.State()), dbCode, now)
      ensures model.db.executed == old(model.db.executed) + CreateWrite(checks, request.State(), dbCode, now)
    {
      var errors := request.Validate(CreateRules, checks);
      if errors != [] {
        response.ValidationError(ErrorsValue(errors), Str(ValidationFailed));
        return;
      }
      Insert(request, response, dbCode, now);
    }

    /** The insert of create, once the input is valid. */
    method Insert(request: Request.Request, response: Response.Response, dbCode: Value, now: string)
      modifies response, model.db
      ensures response.State() == Inserted(model.db.store, old(model.db.executed), request.State(), old(response.State()), dbCode, now)
      ensures model.db.executed == old(model.db.executed) + [InsertStatement(NewRecord(request.State(), dbCode, now))]
    {
      var data := NewRecord(request.State(), dbCode, now);
      var id := model.Create(data);
      if !Truthy(id) {
        response.Error(Str("Failed to create notification center record"), Int(500), Null);
        return;
      }
      response.Created(Null, Str("Notification center record created successfully"));
    }

    /** getNotificationCenter */
    method Get(request: Request.Request, response: Response.Response)
      modifies response, model.db
      ensures response.State() == GetResponse(model.db.store, request.State(), old(response.State()))
      ensures model.db.executed == old(model.db.executed) + LookupStatements(request.State(), "read")
    {
      if !Granted(request, "read") {
        response.Unauthorized(Str("Permission denied"));
        return;
      }
      var code := Param(request.State(), "code");
      var found := model.FindByCode(code, Str("*"));
      if !Truthy(found) {
        response.NotFound(Str(Missing));
        return;
      }
      response.Success(Arr([(StrKey("notificationCenter"), found)]), Str("Notification center record found"), Int(200));
    }

    /** updateNotificationCenter */
    method Update(request: Request.Request, response: Response.Response)
      modifies request, response, model.db
      ensures (request.State(), response.State())
           == UpdateOutcome(model.db.store, checks, old(request.State()), old(response.State()))
      ensures model.db.executed == old(model.db.executed) + UpdateStatements(model.db.store, checks, old(request.State()))
    {
      if !Allowed(request.State(), "write") {
        response.Unauthorized(Str("Permission denied"));
        return;
      }
      ghost var before := model.db.executed;
      Amend(request, response);
      Assoc(before, [LookupStatement(old(request.State()))], FoundWrite(model.db.store, checks, old(request.State())));
    }

    /** update once the right is granted: the lookup, then the rest when the record exists. */
    method Amend(request: Request.Request, response: Response.Response)
      requires Allowed(request.State(), "write")
      modifies request, response, model.db
      ensures (request.State(), response.State())
           == UpdateLooked(model.db.store, checks, old(request.State()), old(response.State()), Existing(model.db.store, old(request.State())))
      ensures model.db.executed
           == old(model.db.executed) + [LookupStatement(old(request.State()))] + FoundWrite(model.db.store, checks, old(request.State()))
    {
      var code := Param(request.State(), "code");
      var found := model.FindByCode(code, Str("*"));
      if !Truthy(found) {
        response.NotFound(Str(Missing));
        return;
      }
      Apply(request, response, code);
    }

    /** The rest of update, once the record is found. */
    method Apply(request: Request.Request, response: Response.Response, code: Value)
      requires code == Param(request.State(), "code")
      modifies request, response, model.db
      ensures (request.State(), response.State())
           == UpdateFound(model.db.store, checks, old(request.State()), old(response.State()))
      ensures model.db.executed == old(model.db.executed) + UpdateWrite(checks, old(request.State()))
    {
      ConvertStatus(request);
      var errors := request.Validate(UpdateRules, checks);
      if errors != [] {
        response.ValidationError(ErrorsValue(errors), Str(ValidationFailed));
        return;
      }
      Commit(request, response, code);
    }

    /** A status in the input is replaced by the integer value of the ncStatus body field. */
    static method ConvertStatus(request: Request.Request)
      modifies request
      ensures request.State() == WithStatus(old(request.State()))
    {
      if HasInput(All(request.State()), "status") {
        request.SetData("status", Int(IntVal(GetData(request.State(), Some("ncStatus"), Null))));
      }
    }

    /** The write of update, once the input is valid. */
    method Commit(request: Request.Request, response: Response.Response, code: Value)
      modifies request, response, model.db
      ensures (request.State(), response.State()) == Committed(model.db.store, code, old(request.State()), old(response.State()))
      ensures model.db.executed == old(model.db.executed) + [UpdateStatement(code, Mapped(old(request.State()), FieldMappings))]
    {
      var data := MapFields(request);
      var success := model.Update(code, data);
      if !success {
        response.Error(Str("Failed to update notification center record"), Int(500), Null);
        return;
      }
      request.SetData("log_status", Str("write"));
      response.Success(Null, Str("Notification center record updated successfully"), Int(200));
    }

    /** The loop copying each mapped field the request has. */
    static method MapFields(request: Request.Request) returns (data: Entries)
      ensures data == Mapped(request.State(), FieldMappings)
    {
      data := [];
      var i := 0;
      while i < |FieldMappings|
        invariant 0 <= i <= |FieldMappings|
        invariant data == Mapped(request.State(), FieldMappings[..i])
      {
        assert FieldMappings[..i + 1][..i] == FieldMappings[..i];
        var (field, column) := FieldMappings[i];
        if HasInput(All(request.State()), field) {
          data := Put(data, StrKey(column), GetData(request.State(), Some(field), Null));
        }
        i := i + 1;
      }
      assert FieldMappings[..i] == FieldMappings;
    }

    /** deleteNotificationCenter */
    method Delete(request: Request.Request, response: Response.Response)
      modifies response, model.db
      ensures response.State() == DeleteResponse(model.db.store, request.State(), old(response.State()))
      ensures model.db.executed == old(model.db.executed) + DeleteStatements(model.db.store, request.State())
    {
      if !Allowed(request.State(), "write") {
        response.Unauthorized(Str("Permission denied"));
        return;
      }
      ghost var before := model.db.executed;
      Discard(request, response);
      Assoc(before, [LookupStatement(request.State())], FoundDelete(model.db.store, request.State()));
    }

    /** delete once the right is granted: the lookup, then the delete when the record exists. */
    method Discard(request: Request.Request, response: Response.Response)
      modifies response, model.db
      ensures response.State() == DeleteLooked(model.db.store, request.State(), old(response.State()), Existing(model.db.store, request.State()))
      ensures model.db.executed == old(model.db.executed) + [LookupStatement(request.State())] + FoundDelete(model.db.store, request.State())
    {
      var code := Param(request.State(), "code");
      var found := model.FindByCode(code, Str("*"));
      if !Truthy(found) {
        response.NotFound(Str(Missing));
        return;
      }
      Remove(request, response, code);
    }

    /** The rest of delete, once the record is found. */
    method Remove(request: Request.Request, response: Response.Response, code: Value)
      requires code == Param(request.State(), "code")
      modifies response, model.db
      ensures response.State() == Deleted(model.db.store, request.State(), old(response.State()))
      ensures model.db.executed == old(model.db.executed) + [DeleteStatement(code)]
    {
      var success := model.Delete(code);
      if !success {
        response.Error(Str("Failed to delete notification center record"), Int(500), Null);
        return;
      }
      response.Success(Null, Str("Notification center record deleted successfully"), Int(200));
    }
  }
}
