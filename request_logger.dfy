/**
 * RequestLoggerMiddleware (app/app/Middleware/RequestLoggerMiddleware.php):
 * the rest of the chain runs first; when the envelope of the response it
 * produced carries status_code 200, one system_log_history row is built
 * from the request and the response. The row is returned next to the
 * outcome instead of being inserted, and the clock is a parameter.
 */
module RequestLogger {
  import opened Text
  import opened Php
  import opened RequestSpec
  import opened ResponseSpec
  import opened RouterSpec
  import Request
  import Response

  /** `explode('/', trim($path, '/'))` */
  function Segments(path: Value): seq<string> { Explode('/', Trim(ToStr(path), {'/'})) }

  /**
   * A key of the first-level module table ('user', 'notification-center').
   * Both keys are non-numeric, so `isset($modules[$segment])` is string
   * equality.
   */
  predicate IsModuleKey(s: string) { s == "user" || s == "notification-center" }

  /** Index of the first module segment, or |segs| when there is none. */
  function FirstModule(segs: seq<string>): (i: nat)
    ensures i <= |segs|
    ensures i < |segs| ==> IsModuleKey(segs[i])
    ensures forall j :: 0 <= j < i ==> !IsModuleKey(segs[j])
  {
    if segs == [] then 0
    else if IsModuleKey(segs[0]) then 0
    else 1 + FirstModule(segs[1..])
  }

  /** `$modules[$segment]` of determineModule. */
  function ModuleName(key: string): string { if key == "user" then "user" else "notification_center" }

  /** What determineModule promises: the name of the first module segment, else 'general'. */
  function ModuleOf(segs: seq<string>): string
  {
    var i := FirstModule(segs);
    if i < |segs| then ModuleName(segs[i]) else "general"
  }

  /** The label of an action under a module, independently of the tree walk. */
  function ActionLabel(section: string, action: string): Option<string>
  {
    if section == "user" && action == "logout" then Some("Logout")
    else if section == "notification-center" && action == "create" then Some("Create Notification")
    else if section == "notification-center" && action == "update" then Some("Update Notification")
    else if section == "notification-center" && action == "delete" then Some("Delete Notification")
    else None
  }

  const GeneralAction := "General Action"

  /**
   * What determineSubject promises: the label when the path ends exactly
   * one segment after its first module segment and that segment is a known
   * action, else 'General Action'.
   */
  function SubjectOf(segs: seq<string>): string
  {
    var i := FirstModule(segs);
    if i + 2 == |segs| && ActionLabel(segs[i], segs[i + 1]).Some? then ActionLabel(segs[i], segs[i + 1]).value
    else GeneralAction
  }

  /** The nested `$modules` table of determineSubject: arrays of arrays with string leaves. */
  datatype Tree = Leaf(text: string) | Node(children: seq<(string, Tree)>)

  const UserActions: Tree := Node([("logout", Leaf("Logout"))])
  const CenterActions: Tree := Node([("create", Leaf("Create Notification")), ("update", Leaf("Update Notification")),
                                     ("delete", Leaf("Delete Notification"))])
  const Subjects: Tree := Node([("user", UserActions), ("notification-center", CenterActions)])

  /** `is_array($current) && isset($current[$segment])` gives the subtree. */
  function Lookup(t: Tree, key: string): Option<Tree>
  {
    if t.Leaf? then None else Child(t.children, key)
  }

  function Child(children: seq<(string, Tree)>, key: string): Option<Tree>
  {
    if children == [] then None
    else if children[0].0 == key then Some(children[0].1)
    else Child(children[1..], key)
  }

  /** The first step of the walk succeeds exactly on a module key, into a table of actions. */
  lemma RootStep(m: string)
    ensures Lookup(Subjects, m).Some? <==> IsModuleKey(m)
    ensures IsModuleKey(m) ==> Lookup(Subjects, m).value == (if m == "user" then UserActions else CenterActions)
  {
    var c := Subjects.children;
    assert Child(c, m) == if m == "user" then Some(UserActions) else Child(c[1..], m);
    assert Child(c[1..], m) == if m == "notification-center" then Some(CenterActions) else Child(c[1..][1..], m);
    assert c[1..][1..] == [];
  }

  /** The second step succeeds exactly on a known action, into the leaf carrying its label. */
  lemma ActionStep(m: string, a: string)
    requires IsModuleKey(m)
    ensures var t := Lookup(if m == "user" then UserActions else CenterActions, a);
      && (t.Some? <==> ActionLabel(m, a).Some?)
      && (t.Some? ==> t.value == Leaf(ActionLabel(m, a).value))
  {
    if m == "user" {
      var c := UserActions.children;
      assert Child(c, a) == if a == "logout" then Some(Leaf("Logout")) else Child(c[1..], a);
      assert c[1..] == [];
    } else {
      var c := CenterActions.children;
      assert Child(c, a) == if a == "create" then Some(Leaf("Create Notification")) else Child(c[1..], a);
      assert Child(c[1..], a) == if a == "update" then Some(Leaf("Update Notification")) else Child(c[2..], a);
      assert Child(c[2..], a) == if a == "delete" then Some(Leaf("Delete Notification")) else Child(c[3..], a);
      assert c[1..][1..] == c[2..] && c[2..][1..] == c[3..] && c[3..] == [];
    }
  }

  // ---------------------------------------------------------------------
  // The log row

  /** The row logRequest inserts. */
  datatype LogRow = LogRow(
    plantDbCode: Value, ipAddress: string, subject: string, content: Value,
    moduleName: string, createdDatetime: string, createdBy: Value)

  /** Who is logged: body 'username' on login, the reply's data.username on token verification, else accessUsername. */
  function Username(q: Req, r: Resp): Value
  {
    if HasText(q.path, "auth/login") then GetData(q, Some("username"), Null)
    else if HasText(q.path, "auth/verify-platform-access-token") then At(At(r.content, StrKey("data")), StrKey("username"))
    else GetData(q, Some("accessUsername"), Null)
  }

  /** `isset($v['message'])` on an array; '' otherwise. */
  function MessageIn(v: Value): Value
  {
    if v.Arr? && Isset(v.entries, StrKey("message")) then At(v, StrKey("message")) else Str("")
  }

  /** The message of the content: decoded first when the content is a string. */
  function ContentMessage(r: Resp, codecs: Codecs): Value
  {
    if r.content.Str? then MessageIn(codecs.jsonDecode(r.content.s)) else MessageIn(r.content)
  }

  const NoMessage := "No message provided"

  /** slh_content: the content's message, else the data slot's message when that one is empty, then `?: 'No message provided'`. */
  function Message(r: Resp, codecs: Codecs): Value
  {
    var m := ContentMessage(r, codecs);
    var m' := if IsEmpty(m) && r.data.Arr? && Isset(r.data.entries, StrKey("message")) then At(r.data, StrKey("message")) else m;
    if Truthy(m') then m' else Str(NoMessage)
  }

  function Row(q: Req, r: Resp, codecs: Codecs, now: string): LogRow
  {
    var segs := Segments(q.path);
    LogRow(GetData(q, Some("globalPlantDbCode"), Null), q.clientIp, SubjectOf(segs), Message(r, codecs),
           ModuleOf(segs), now, Username(q, r))
  }

  /** `$content['status_code'] == 200` on the envelope, not the HTTP status. */
  predicate Loggable(r: Resp) { LooseEq(At(r.content, StrKey("status_code")), Int(200)) }

  /** What handle returns, and the row it inserts, if any. */
  function Handled(q: Req, r: Resp, next: Next, codecs: Codecs, now: string): (Outcome, Option<LogRow>)
  {
    match next(q, r)
    case Done(q1, r1) => (Done(q1, r1), if Loggable(r1) then Some(Row(q1, r1, codecs, now)) else None)
    case Thrown(m) => (Thrown(m), None)
  }

  // ---------------------------------------------------------------------
  // Properties

  /**
   * next's outcome is returned as it is, and a row is written exactly when
   * next completed with an envelope whose status_code is loosely 200 --
   * whatever the HTTP status.
   */
  lemma PassThrough(q: Req, r: Resp, next: Next, codecs: Codecs, now: string)
    ensures Handled(q, r, next, codecs, now).0 == next(q, r)
    ensures Handled(q, r, next, codecs, now).1.Some? <==> next(q, r).Done? && Loggable(next(q, r).resp)
    ensures next(q, r).Done? && Loggable(next(q, r).resp) ==>
      Handled(q, r, next, codecs, now).1.value == Row(next(q, r).req, next(q, r).resp, codecs, now)
  {
  }

  /** A 500 HTTP status with a 200 envelope is logged; a 200 HTTP status with a 201 envelope is not. */
  lemma GateIgnoresHttpStatus(r: Resp)
    ensures Loggable(r.(statusCode := 500, content := Arr([(StrKey("status_code"), Int(200))])))
    ensures !Loggable(r.(statusCode := 200, content := Arr([(StrKey("status_code"), Int(201))])))
  {
  }

  /** The content of a row is never empty, and the sources are tried in order. */
  lemma MessageSpec(r: Resp, codecs: Codecs)
    ensures Truthy(Message(r, codecs))
    ensures Truthy(ContentMessage(r, codecs)) ==> Message(r, codecs) == ContentMessage(r, codecs)
    ensures !Truthy(ContentMessage(r, codecs)) && Truthy(MessageIn(r.data)) ==> Message(r, codecs) == MessageIn(r.data)
    ensures !Truthy(ContentMessage(r, codecs)) && !Truthy(MessageIn(r.data)) ==> Message(r, codecs) == Str(NoMessage)
  {
  }

  /** The module is one of three names, and 'general' exactly when no segment is a module key. */
  lemma ModuleOfSpec(segs: seq<string>)
    ensures ModuleOf(segs) in {"user", "notification_center", "general"}
    ensures ModuleOf(segs) == "general" <==> forall j :: 0 <= j < |segs| ==> !IsModuleKey(segs[j])
    ensures ModuleOf(segs) == "user" <==> exists i :: 0 <= i < |segs| && segs[i] == "user" && FirstModule(segs) == i
  {
    var i := FirstModule(segs);
    if i < |segs| {
      assert IsModuleKey(segs[i]);
    }
  }

  /** Example: …/notification-center/create is 'Create Notification', …/user/logout is 'Logout', a longer path is not. */
  lemma SubjectExamples(prefix: seq<string>)
    requires forall j :: 0 <= j < |prefix| ==> !IsModuleKey(prefix[j])
    ensures SubjectOf(prefix + ["notification-center", "create"]) == "Create Notification"
    ensures SubjectOf(prefix + ["user", "logout"]) == "Logout"
    ensures SubjectOf(prefix + ["user", "logout", "x"]) == GeneralAction
  {
    FirstPast(prefix, ["notification-center", "create"]);
    FirstPast(prefix, ["user", "logout"]);
    FirstPast(prefix, ["user", "logout", "x"]);
  }

  /** Segments free of module keys before a module key put the first module right after them. */
  lemma FirstPast(prefix: seq<string>, rest: seq<string>)
    requires forall j :: 0 <= j < |prefix| ==> !IsModuleKey(prefix[j])
    requires |rest| > 0 && IsModuleKey(rest[0])
    ensures FirstModule(prefix + rest) == |prefix|
  {
    var s := prefix + rest;
    var i := FirstModule(s);
    assert s[|prefix|] == rest[0];
  }

  /** The first module index, found by scanning. */
  method FindModule(segments: seq<string>) returns (i: nat)
    ensures i == FirstModule(segments)
  {
    i := 0;
    while i < |segments| && !IsModuleKey(segments[i])
      invariant i <= |segments|
      invariant forall j :: 0 <= j < i ==> !IsModuleKey(segments[j])
    {
      i := i + 1;
    }
  }

  /** determineModule: the first segment found in the module table gives the name. */
  method DetermineModule(path: Value) returns (name: string)
    ensures name == ModuleOf(Segments(path))
  {
    var segments := Segments(path);
    var i := FindModule(segments);
    if i < |segments| {
      name := ModuleName(segments[i]);
    } else {
      name := "general";
    }
  }

  /** The label a walk from the table's root along `relevant` ends on, else 'General Action'. */
  function WalkResult(relevant: seq<string>): string
  {
    if |relevant| == 2 && IsModuleKey(relevant[0]) && ActionLabel(relevant[0], relevant[1]).Some? then
      ActionLabel(relevant[0], relevant[1]).value
    else GeneralAction
  }

  /** The walk of determineSubject: one table step per segment, 'General Action' on a missing key or a non-leaf end. */
  method Walk(relevant: seq<string>) returns (subject: string)
    ensures subject == WalkResult(relevant)
  {
    var current := Subjects;
    var k := 0;
    while k < |relevant|
      invariant 0 <= k <= |relevant| && k <= 2
      invariant k == 0 ==> current == Subjects
      invariant k >= 1 ==> IsModuleKey(relevant[0])
      invariant k == 1 ==> current == (if relevant[0] == "user" then UserActions else CenterActions)
      invariant k == 2 ==> ActionLabel(relevant[0], relevant[1]).Some? && current == Leaf(ActionLabel(relevant[0], relevant[1]).value)
    {
      if k == 0 {
        RootStep(relevant[0]);
      } else if k == 1 {
        ActionStep(relevant[0], relevant[1]);
      }
      var child := Lookup(current, relevant[k]);
      if child.None? {
        return GeneralAction;
      }
      current := child.value;
      k := k + 1;
    }
    if current.Leaf? {
      subject := current.text;
    } else {
      subject := GeneralAction;
    }
  }

  /** determineSubject: start at the first module segment (or 0), then walk the table. */
  method DetermineSubject(path: Value) returns (subject: string)
    ensures subject == SubjectOf(Segments(path))
  {
    var segments := Segments(path);
    var first := FindModule(segments);
    var start := if first < |segments| then first else 0;
    subject := Walk(segments[start..]);
    SubjectIsWalk(segments);
  }

  /** Walking from the first module segment, or from 0 when there is none, gives the subject. */
  lemma SubjectIsWalk(segs: seq<string>)
    requires |segs| >= 1
    ensures var i := FirstModule(segs);
      SubjectOf(segs) == WalkResult(segs[if i < |segs| then i else 0..])
  {
    var i := FirstModule(segs);
    var rel := segs[if i < |segs| then i else 0..];
    assert rel[0] == segs[if i < |segs| then i else 0];
    if i < |segs| && |rel| == 2 {
      assert rel[1] == segs[i + 1];
    }
  }

  class RequestLoggerMiddleware {
    const codecs: Codecs

    constructor (codecs: Codecs)
      ensures this.codecs == codecs
    {
      this.codecs := codecs;
    }

    /** handle: next first, then logRequest on a 200 envelope; `now` is date('Y-m-d H:i:s'). */
    method Handle(request: Request.Request, response: Response.Response, next: Next, now: string)
      returns (o: Outcome, row: Option<LogRow>)
      modifies request, response
      ensures (o, row) == Handled(old(request.State()), old(response.State()), next, codecs, now)
      ensures o.Done? ==> request.State() == o.req && response.State() == o.resp
    {
      o := next(request.State(), response.State());
      row := None;
      if o.Thrown? {
        return;
      }
      request.Load(o.req);
      response.Load(o.resp);
      var q, r := request.State(), response.State();
      if Loggable(r) {
        var name := DetermineModule(q.path);
        var subject := DetermineSubject(q.path);
        row := Some(LogRow(GetData(q, Some("globalPlantDbCode"), Null), q.clientIp, subject, Message(r, codecs),
                           name, now, Username(q, r)));
      }
    }
  }
}
