/**
 * LoggingMiddleware (app/app/Middleware/LoggingMiddleware.php): the rest of
 * the chain runs first; for a 2xx HTTP status logRequest prepares the
 * parameters of a system_log_history insert whose execution is commented
 * out, so the response is returned as next produced it and nothing is
 * written. The prepared parameters are returned next to the outcome.
 */
module Logging {
  import opened Text
  import opened Php
  import opened RequestSpec
  import opened ResponseSpec
  import opened RouterSpec
  import Request
  import Response

  /** `explode('/', trim($path, '/'))` */
  function Parts(path: string): (parts: seq<string>)
    ensures |parts| >= 1
  {
    Explode('/', Trim(path, {'/'}))
  }

  /** `ucfirst($s)` */
  function Ucfirst(s: string): (r: string)
    ensures |r| == |s|
    ensures |s| > 0 ==> r[0] == UpperChar(s[0]) && r[1..] == s[1..]
  {
    if s == [] then s else [UpperChar(s[0])] + s[1..]
  }

  /**
   * The actions generateSubject gives context to. All are non-numeric, so
   * the loose in_array is string equality.
   */
  const RestActions: seq<string> := ["create", "update", "delete", "list", "get-by-code"]

  /** generateSubject */
  function Subject(verb: string, path: string): string
  {
    var parts := Parts(path);
    var action := parts[|parts| - 1];
    if action in RestActions then
      var resource := if |parts| - 2 >= 0 then parts[|parts| - 2] else "";
      Ucfirst(verb) + " " + resource + " " + action
    else Ucfirst(verb) + " " + path
  }

  /** The index determineModule reads: 2 after a leading 'api', 'v1' with more to follow, else 0. */
  function ModuleIndex(parts: seq<string>): nat
  {
    if |parts| > 2 && parts[0] == "api" && parts[1] == "v1" then 2 else 0
  }

  /** determineModule */
  function ModuleOf(path: string): string
  {
    var parts := Parts(path);
    var start := ModuleIndex(parts);
    if start < |parts| then parts[start] else "unknown"
  }

  /** `$user->id ?? $user['id'] ?? 'anonymous'` for a truthy user, else 'anonymous' (objects are not modelled). */
  function UserId(user: Value): Value
  {
    if Truthy(user) && user.Arr? && Isset(user.entries, StrKey("id")) then At(user, StrKey("id")) else Str("anonymous")
  }

  /** getPlantId: the first two characters of the body's plant_id, else of the user's, else '00'. */
  function PlantId(q: Req): string
  {
    var plantId := GetData(q, Some("plant_id"), Null);
    if Truthy(plantId) then Take(ToStr(plantId), 2)
    else
      var userPlant := if q.user.Arr? && Isset(q.user.entries, StrKey("plant_id")) then At(q.user, StrKey("plant_id")) else Null;
      if Truthy(q.user) && Truthy(userPlant) then Take(ToStr(userPlant), 2)
      else "00"
  }

  /** The fields sanitizeRequestData redacts. */
  const SensitiveFields: seq<string> := ["password", "password_confirmation", "token", "access_token", "refresh_token", "credit_card"]

  const Redacted := "***REDACTED***"

  /** One of the sensitive keys (all non-numeric, so `$data[$field]` is the string key). */
  predicate Sensitive(k: Key) { k.StrKey? && k.s in SensitiveFields }

  /** The parameters of the insert logRequest prepares (the JSON content and the clock are not modelled). */
  datatype LogParams = LogParams(plantId: Value, ipAddress: string, subject: string, moduleName: string, userId: Value)

  function Params(q: Req): LogParams
  {
    var path := ToStr(q.path);
    LogParams(GetData(q, Some("plant_id"), Null), q.clientIp, Subject(q.verb, path), ModuleOf(path), UserId(q.user))
  }

  predicate Successful(r: Resp) { 200 <= r.statusCode < 300 }

  /** What handle returns, and the parameters logRequest prepares, if any. */
  function Handled(q: Req, r: Resp, next: Next): (Outcome, Option<LogParams>)
  {
    match next(q, r)
    case Done(q1, r1) => (Done(q1, r1), if Successful(r1) then Some(Params(q1)) else None)
    case Thrown(m) => (Thrown(m), None)
  }

  // ---------------------------------------------------------------------
  // Properties

  /** next's outcome is returned unchanged, and a log is prepared exactly for a 2xx HTTP status. */
  lemma PassThrough(q: Req, r: Resp, next: Next)
    ensures Handled(q, r, next).0 == next(q, r)
    ensures Handled(q, r, next).1.Some? <==> next(q, r).Done? && 200 <= next(q, r).resp.statusCode < 300
  {
  }

  /** The module is always a segment of the path: 'unknown' is never produced by a missing segment. */
  lemma ModuleIsSegment(path: string)
    ensures var parts := Parts(path);
      && ModuleIndex(parts) < |parts|
      && ModuleOf(path) == parts[ModuleIndex(parts)]
    ensures var parts := Parts(path);
      |parts| > 2 && parts[0] == "api" && parts[1] == "v1" ==> ModuleOf(path) == parts[2]
    ensures var parts := Parts(path);
      !(|parts| > 2 && parts[0] == "api" && parts[1] == "v1") ==> ModuleOf(path) == parts[0]
  {
  }

  /** A RESTful last segment names the segment before it; any other gives the untrimmed path. */
  lemma SubjectSpec(verb: string, path: string)
    ensures var parts := Parts(path);
      var action := parts[|parts| - 1];
      && (action in RestActions && |parts| >= 2 ==>
            Subject(verb, path) == Ucfirst(verb) + " " + parts[|parts| - 2] + " " + action)
      && (action in RestActions && |parts| == 1 ==> Subject(verb, path) == Ucfirst(verb) + "  " + action)
      && (action !in RestActions ==> Subject(verb, path) == Ucfirst(verb) + " " + path)
  {
    var parts := Parts(path);
    var action := parts[|parts| - 1];
    if action in RestActions && |parts| == 1 {
      EmptyResource(Ucfirst(verb), action);
    }
  }

  lemma EmptyResource(head: string, action: string)
    ensures head + " " + "" + " " + action == head + "  " + action
  {
    assert head + " " + "" == head + " ";
    assert " " + " " == "  ";
  }

  /**
   * The plant id has at most two characters: a prefix of the body's
   * plant_id when that is truthy, else of the user's, else '00'.
   */
  lemma PlantIdSpec(q: Req)
    ensures |PlantId(q)| <= 2
    ensures var body := GetData(q, Some("plant_id"), Null);
      var user := At(q.user, StrKey("plant_id"));
      && (Truthy(body) ==> IsPrefix(PlantId(q), ToStr(body)))
      && (!Truthy(body) && Truthy(q.user) && Truthy(user) ==> IsPrefix(PlantId(q), ToStr(user)))
      && (!Truthy(body) && !(Truthy(q.user) && Truthy(user)) ==> PlantId(q) == "00")
  {
  }

  /**
   * The sanitised body: every entry keeps its key and position, a
   * sensitive key that was set now reads '***REDACTED***', and every other
   * key reads as before.
   */
  ghost predicate SanitizedFrom(r: Entries, data: Entries)
  {
    && |r| == |data| && (forall i :: 0 <= i < |r| ==> r[i].0 == data[i].0)
    && (forall k :: Get(r, k) == if Sensitive(k) && Isset(data, k) then Some(Str(Redacted)) else Get(data, k))
  }

  /** sanitizeRequestData: overwrite each set sensitive field of the copy, one field at a time. */
  method SanitizeRequestData(data: Entries) returns (r: Entries)
    ensures SanitizedFrom(r, data)
  {
    r := data;
    var i := 0;
    while i < |SensitiveFields|
      invariant 0 <= i <= |SensitiveFields|
      invariant |r| == |data| && forall j :: 0 <= j < |r| ==> r[j].0 == data[j].0
      invariant forall k :: Get(r, k) == (if k.StrKey? && k.s in SensitiveFields[..i] && Isset(data, k) then Some(Str(Redacted)) else Get(data, k))
    {
      var field := StrKey(SensitiveFields[i]);
      var before := r;
      if Isset(r, field) {
        r := Put(r, field, Str(Redacted));
        forall j | 0 <= j < |r| ensures r[j].0 == data[j].0 {
          assert r[j].0 == before[j].0;
        }
      }
      forall k
        ensures Get(r, k) == (if k.StrKey? && k.s in SensitiveFields[..i + 1] && Isset(data, k) then Some(Str(Redacted)) else Get(data, k))
      {
        GetPut(before, field, Str(Redacted), k);
        assert SensitiveFields[..i + 1] == SensitiveFields[..i] + [SensitiveFields[i]];
      }
      i := i + 1;
    }
    assert SensitiveFields[..i] == SensitiveFields;
  }

  class LoggingMiddleware {
    constructor ()
    {
    }

    /** handle: next, then logRequest for a 2xx status; the insert itself is commented out. */
    method Handle(request: Request.Request, response: Response.Response, next: Next)
      returns (o: Outcome, prepared: Option<LogParams>)
      modifies request, response
      ensures (o, prepared) == Handled(old(request.State()), old(response.State()), next)
      ensures o.Done? ==> request.State() == o.req && response.State() == o.resp
    {
      o := next(request.State(), response.State());
      prepared := None;
      if o.Thrown? {
        return;
      }
      request.Load(o.req);
      response.Load(o.resp);
      var statusCode := response.State().statusCode;
      if statusCode >= 200 && statusCode < 300 {
        prepared := Some(Params(request.State()));
      }
    }
  }
}
