/**
 * The collaborators of the authentication middleware and the steps
 * AuthMiddleware and BasicAuthMiddleware share: the user_login lookup, the
 * remote administration API (authCheck, verifySecondaryPassword,
 * returnPlatform) and the store of active connections (Context).
 */
module AuthServices {
  import opened Php
  import opened RequestSpec
  import opened ResponseSpec
  import opened RouterSpec
  import opened ValidatorSpec

  datatype Services = Services(
    /** UserLogin::findByToken($token) on the selected connection (None: the one in use): the row, or false */
    findByToken: (Option<Value>, Value) -> Value,
    /** Administration::returnPlatform() */
    platform: Value,
    /** Administration::authCheck($credentials): the decoded reply, with status_code, message and data */
    authCheck: Value -> Value,
    /** Administration::verifySecondaryPassword($credentials) */
    verifySecondaryPassword: Value -> Value,
    /** Context::getActiveConnection($username) */
    activeConnection: string -> Value,
    /** the rule predicates validate relies on */
    checks: Checks)

  /** `$request->getData($name)`: a body field, null when absent or ''. */
  function Field(q: Req, name: string): Value { GetData(q, Some(name), Null) }

  /** The payload of authCheck: the two credentials and the codes of the user_login row. */
  function Credentials(username: Value, token: Value, login: Value, platform: Value): Value
  {
    Arr([(StrKey("accessUsername"), username), (StrKey("accessToken"), token),
         (StrKey("plDbCode"), At(login, StrKey("ul_pl_db_code"))), (StrKey("luDbCode"), At(login, StrKey("ul_lu_db_code"))),
         (StrKey("platform"), platform)])
  }

  /** `$apiResult['status_code'] == '200'` */
  predicate Accepted(api: Value) { LooseEq(At(api, StrKey("status_code")), Str("200")) }

  /** The error reply of a rejected call: error($apiResult['message'], $apiResult['status_code']). */
  function Rejected(r: Resp, api: Value): Resp
  {
    Error(r, At(api, StrKey("message")), At(api, StrKey("status_code")), Null)
  }

  /** After the token lookup: authCheck, then body 'user' := the reply's data and next, or the error reply. */
  function CheckThenNext(sv: Services, username: Value, token: Value, login: Value, q: Req, r: Resp, next: Next): Outcome
  {
    var api := sv.authCheck(Credentials(username, token, login, sv.platform));
    if Accepted(api) then next(SetData(q, "user", At(api, StrKey("data"))), r)
    else Done(q, Rejected(r, api))
  }

  /** The authCheck payload carries the two credentials, the platform and the row's ul_pl_db_code and ul_lu_db_code. */
  lemma CredentialsSpec(username: Value, token: Value, login: Value, platform: Value)
    ensures var c := Credentials(username, token, login, platform);
      && At(c, StrKey("accessUsername")) == username && At(c, StrKey("accessToken")) == token
      && At(c, StrKey("plDbCode")) == At(login, StrKey("ul_pl_db_code"))
      && At(c, StrKey("luDbCode")) == At(login, StrKey("ul_lu_db_code"))
      && At(c, StrKey("platform")) == platform
      && |c.entries| == 5
  {
    var e := Credentials(username, token, login, platform).entries;
    assert e[0].0 == StrKey("accessUsername") && e[1].0 == StrKey("accessToken") && e[2].0 == StrKey("plDbCode");
    assert e[3].0 == StrKey("luDbCode") && e[4].0 == StrKey("platform");
    PosUpTo(e, StrKey("accessUsername"), 0);
    PosUpTo(e, StrKey("accessToken"), 1);
    PosUpTo(e, StrKey("plDbCode"), 2);
    PosUpTo(e, StrKey("luDbCode"), 3);
    PosUpTo(e, StrKey("platform"), 4);
  }

}

/** AuthMiddleware (app/app/Middleware/AuthMiddleware.php). */
module AuthMiddleware {
  import opened Php
  import opened RequestSpec
  import opened ResponseSpec
  import opened RouterSpec
  import opened AuthServices
  import Request
  import Response

  const AuthRequired := "Authentication required"
  const InvalidToken := "Invalid token"

  /** What handle returns. The second test `!$token || !$username` repeats the first and never decides. */
  function Handled(sv: Services, q: Req, r: Resp, next: Next): Outcome
  {
    var token := Field(q, "accessToken");
    var username := Field(q, "accessUsername");
    if IsEmpty(token) || IsEmpty(username) then Done(q, Unauthorized(r, Str(AuthRequired)))
    else
      var login := sv.findByToken(None, token);
      if !Truthy(login) then Done(q, Unauthorized(r, Str(InvalidToken)))
      else CheckThenNext(sv, username, token, login, q, r, next)
  }

  /** The request passes: both credentials non-empty, a user_login row for the token, and authCheck answers '200'. */
  predicate Authenticated(sv: Services, q: Req)
  {
    var token := Field(q, "accessToken");
    var username := Field(q, "accessUsername");
    var login := sv.findByToken(None, token);
    && !IsEmpty(token) && !IsEmpty(username) && Truthy(login)
    && Accepted(sv.authCheck(Credentials(username, token, login, sv.platform)))
  }

  /** The data authCheck returned for the request. */
  function UserData(sv: Services, q: Req): Value
  {
    var token := Field(q, "accessToken");
    var login := sv.findByToken(None, token);
    At(sv.authCheck(Credentials(Field(q, "accessUsername"), token, login, sv.platform)), StrKey("data"))
  }

  /**
   * An authenticated request reaches next with body 'user' set to the
   * authCheck data and every other body field as it was, and next's result is
   * the result.
   */
  lemma AuthenticatedNext(sv: Services, q: Req, r: Resp, next: Next)
    requires Authenticated(sv, q)
    ensures Handled(sv, q, r, next) == next(SetData(q, "user", UserData(sv, q)), r)
  {
  }

  /**
   * Any other request is answered without calling next: the result is the
   * same whatever next is, the request is unchanged and so is the HTTP
   * status. The reply is 401 'Authentication required' for a missing
   * credential, 401 'Invalid token' for an unknown token, and otherwise the
   * message and status_code authCheck returned.
   */
  lemma RejectedWithoutNext(sv: Services, q: Req, r: Resp, n1: Next, n2: Next)
    requires !Authenticated(sv, q)
    ensures Handled(sv, q, r, n1) == Handled(sv, q, r, n2)
    ensures var o := Handled(sv, q, r, n1);
      var token := Field(q, "accessToken");
      var login := sv.findByToken(None, token);
      var api := sv.authCheck(Credentials(Field(q, "accessUsername"), token, login, sv.platform));
      && o.Done? && o.req == q && o.resp.statusCode == r.statusCode
      && o.resp == (if IsEmpty(token) || IsEmpty(Field(q, "accessUsername")) then Unauthorized(r, Str(AuthRequired))
                    else if !Truthy(login) then Unauthorized(r, Str(InvalidToken))
                    else Rejected(r, api))
  {
  }

  class AuthMiddleware {
    const services: Services

    constructor (services: Services)
      ensures this.services == services
    {
      this.services := services;
    }

    /** handle: the early returns mutate the response; the accepted path sets 'user' on the request, then calls next. */
    method Handle(request: Request.Request, response: Response.Response, next: Next) returns (o: Outcome)
      modifies request, response
      ensures o == Handled(services, old(request.State()), old(response.State()), next)
      ensures o.Done? ==> request.State() == o.req && response.State() == o.resp
    {
      var token := GetData(request.State(), Some("accessToken"), Null);
      var username := GetData(request.State(), Some("accessUsername"), Null);
      if IsEmpty(token) || IsEmpty(username) {
        response.Unauthorized(Str(AuthRequired));
        return Done(request.State(), response.State());
      }
      var login := services.findByToken(None, token);
      if !Truthy(login) {
        response.Unauthorized(Str(InvalidToken));
        return Done(request.State(), response.State());
      }
      var credentials := Credentials(username, token, login, services.platform);
      var api := services.authCheck(credentials);
      if !Accepted(api) {
        response.Error(At(api, StrKey("message")), At(api, StrKey("status_code")), Null);
        return Done(request.State(), response.State());
      }
      request.SetData("user", At(api, StrKey("data")));
      o := next(request.State(), response.State());
      if o.Done? {
        request.Load(o.req);
        response.Load(o.resp);
      }
    }
  }
}

/** BasicAuthMiddleware (app/app/Middleware/BasicAuthMiddleware.php). */
module BasicAuthMiddleware {
  import opened Php
  import opened RequestSpec
  import opened ResponseSpec
  import opened RouterSpec
  import opened ValidatorSpec
  import opened AuthServices
  import Request
  import Response

  const InvalidToken := "Invalid token"

  /** validate(['accessUsername' => ['required'], 'accessToken' => ['required']]) */
  const CredentialRules: Rules := [(StrKey("accessUsername"), RequiredRule), (StrKey("accessToken"), RequiredRule)]

  /** The connection selected for the user: Context::getActiveConnection for a non-empty username, when non-empty. */
  function Connection(sv: Services, username: Value): Option<Value>
  {
    if IsEmpty(username) then None
    else
      var c := sv.activeConnection(ToStr(username));
      if IsEmpty(c) then None else Some(c)
  }

  /** What handle returns. */
  function Handled(sv: Services, q: Req, r: Resp, next: Next): Outcome
  {
    var errs := ValidateAll(All(q), CredentialRules, [], sv.checks);
    if errs != [] then Done(q, Invalid(r, errs))
    else
      var token := Field(q, "accessToken");
      var username := Field(q, "accessUsername");
      var login := sv.findByToken(Connection(sv, username), token);
      if !Truthy(login) then Done(q, Unauthorized(r, Str(InvalidToken)))
      else CheckThenNext(sv, username, token, login, q, r, next)
  }

  /** The lookup the token goes to. */
  function Login(sv: Services, q: Req): Value
  {
    sv.findByToken(Connection(sv, Field(q, "accessUsername")), Field(q, "accessToken"))
  }

  /** The reply of authCheck for the request. */
  function Api(sv: Services, q: Req): Value
  {
    sv.authCheck(Credentials(Field(q, "accessUsername"), Field(q, "accessToken"), Login(sv, q), sv.platform))
  }

  /** The request passes: both credentials present in all(), a user_login row, and authCheck answers '200'. */
  predicate Authenticated(sv: Services, q: Req)
  {
    && Filled(All(q), "accessUsername") && Filled(All(q), "accessToken")
    && Truthy(Login(sv, q)) && Accepted(Api(sv, q))
  }

  /**
   * Validation fails exactly when a credential is missing from route
   * parameters, query and body alike; then the reply is the 422 validation
   * error naming the missing ones, and next is not called.
   */
  lemma MissingCredential(sv: Services, q: Req, r: Resp, next: Next)
    requires !Filled(All(q), "accessUsername") || !Filled(All(q), "accessToken")
    ensures var errs := ValidateAll(All(q), CredentialRules, [], sv.checks);
      && errs != [] && Handled(sv, q, r, next) == Done(q, Invalid(r, errs))
  {
    TwoRequired(All(q), "accessUsername", "accessToken", sv.checks);
  }

  /** An authenticated request reaches next with body 'user' set to the authCheck data. */
  lemma AuthenticatedNext(sv: Services, q: Req, r: Resp, next: Next)
    requires Authenticated(sv, q)
    ensures Handled(sv, q, r, next) == next(SetData(q, "user", At(Api(sv, q), StrKey("data"))), r)
  {
    TwoRequired(All(q), "accessUsername", "accessToken", sv.checks);
  }

  /**
   * Once both credentials validate, an unknown token gives 401 'Invalid
   * token' and a refused authCheck its own message and status_code, and
   * next is not called.
   */
  lemma RejectedWithoutNext(sv: Services, q: Req, r: Resp, n1: Next, n2: Next)
    requires Filled(All(q), "accessUsername") && Filled(All(q), "accessToken")
    requires !Authenticated(sv, q)
    ensures Handled(sv, q, r, n1) == Handled(sv, q, r, n2)
    ensures Handled(sv, q, r, n1)
         == Done(q, if !Truthy(Login(sv, q)) then Unauthorized(r, Str(InvalidToken)) else Rejected(r, Api(sv, q)))
  {
    TwoRequired(All(q), "accessUsername", "accessToken", sv.checks);
  }

  /**
   * Validation reads all() but the token is read with getData, from the body
   * only: a token sent only in the query string passes validation and the
   * lookup is made with null.
   */
  lemma QueryTokenReadsNull(sv: Services, q: Req)
    requires Filled(All(q), "accessUsername") && Filled(All(q), "accessToken")
    requires Get(q.data, StrKey("accessToken")).None?
    ensures ValidateAll(All(q), CredentialRules, [], sv.checks) == []
    ensures Login(sv, q) == sv.findByToken(Connection(sv, Field(q, "accessUsername")), Null)
  {
    TwoRequired(All(q), "accessUsername", "accessToken", sv.checks);
    assert KeyOf("accessToken") == StrKey("accessToken");
  }

  class BasicAuthMiddleware {
    const services: Services

    constructor (services: Services)
      ensures this.services == services
    {
      this.services := services;
    }

    /** handle: the early returns mutate the response; the accepted path sets 'user' on the request, then calls next. */
    method Handle(request: Request.Request, response: Response.Response, next: Next) returns (o: Outcome)
      modifies request, response
      ensures o == Handled(services, old(request.State()), old(response.State()), next)
      ensures o.Done? ==> request.State() == o.req && response.State() == o.resp
    {
      var errors := request.Validate(CredentialRules, services.checks);
      if errors != [] {
        response.ValidationError(ErrorsValue(errors), Str(ValidationFailed));
        return Done(request.State(), response.State());
      }
      var token := GetData(request.State(), Some("accessToken"), Null);
      var username := GetData(request.State(), Some("accessUsername"), Null);
      var connection: Option<Value> := None;
      if !IsEmpty(username) {
        var active := services.activeConnection(ToStr(username));
        if !IsEmpty(active) {
          connection := Some(active);
        }
      }
      var login := services.findByToken(connection, token);
      if !Truthy(login) {
        response.Unauthorized(Str(InvalidToken));
        return Done(request.State(), response.State());
      }
      var api := services.authCheck(Credentials(username, token, login, services.platform));
      if !Accepted(api) {
        response.Error(At(api, StrKey("message")), At(api, StrKey("status_code")), Null);
        return Done(request.State(), response.State());
      }
      request.SetData("user", At(api, StrKey("data")));
      o := next(request.State(), response.State());
      if o.Done? {
        request.Load(o.req);
        response.Load(o.resp);
      }
    }
  }
}

/** VerifySecondaryPasswordMiddleware (app/app/Middleware/VerifySecondaryPasswordMiddleware.php). */
module VerifySecondaryPassword {
  import opened Php
  import opened RequestSpec
  import opened ResponseSpec
  import opened RouterSpec
  import opened ValidatorSpec
  import opened AuthServices
  import Request
  import Response

  const PasswordRules: Rules := [(StrKey("verifySecondaryPassword"), RequiredRule)]

  /** The payload of verifySecondaryPassword: the two credentials and the password, read from the body. */
  function Payload(q: Req): Value
  {
    Arr([(StrKey("accessUsername"), Field(q, "accessUsername")), (StrKey("accessToken"), Field(q, "accessToken")),
         (StrKey("verifySecondaryPassword"), Field(q, "verifySecondaryPassword"))])
  }

  /** What handle returns. */
  function Handled(sv: Services, q: Req, r: Resp, next: Next): Outcome
  {
    var errs := ValidateAll(All(q), PasswordRules, [], sv.checks);
    if errs != [] then Done(q, Invalid(r, errs))
    else
      var api := sv.verifySecondaryPassword(Payload(q));
      if Accepted(api) then next(q, r) else Done(q, Rejected(r, api))
  }

  /** A confirmed password hands the request and response to next untouched. */
  lemma ConfirmedNext(sv: Services, q: Req, r: Resp, next: Next)
    requires Filled(All(q), "verifySecondaryPassword")
    requires Accepted(sv.verifySecondaryPassword(Payload(q)))
    ensures Handled(sv, q, r, next) == next(q, r)
  {
    OneRequired(All(q), "verifySecondaryPassword", sv.checks);
  }

  /** A missing password: 422 with the one 'required' message for the field; next is not called. */
  lemma MissingPassword(sv: Services, q: Req, r: Resp, next: Next)
    requires !Filled(All(q), "verifySecondaryPassword")
    ensures Handled(sv, q, r, next)
         == Done(q, Invalid(r, [(StrKey("verifySecondaryPassword"), [RequiredMessage("verifySecondaryPassword")])]))
  {
    OneRequired(All(q), "verifySecondaryPassword", sv.checks);
  }

  /** A refused password: the reply carries the API's message and status_code; next is not called. */
  lemma RefusedPassword(sv: Services, q: Req, r: Resp, next: Next)
    requires Filled(All(q), "verifySecondaryPassword")
    requires !Accepted(sv.verifySecondaryPassword(Payload(q)))
    ensures Handled(sv, q, r, next) == Done(q, Rejected(r, sv.verifySecondaryPassword(Payload(q))))
  {
    OneRequired(All(q), "verifySecondaryPassword", sv.checks);
  }

  /** The payload carries exactly the body's username, token and password. */
  lemma PayloadSpec(q: Req)
    ensures var p := Payload(q);
      && |p.entries| == 3
      && At(p, StrKey("accessUsername")) == Field(q, "accessUsername")
      && At(p, StrKey("accessToken")) == Field(q, "accessToken")
      && At(p, StrKey("verifySecondaryPassword")) == Field(q, "verifySecondaryPassword")
  {
    var e := Payload(q).entries;
    assert e[0].0 == StrKey("accessUsername") && e[1].0 == StrKey("accessToken") && e[2].0 == StrKey("verifySecondaryPassword");
    PosUpTo(e, StrKey("accessUsername"), 0);
    PosUpTo(e, StrKey("accessToken"), 1);
    PosUpTo(e, StrKey("verifySecondaryPassword"), 2);
  }

  class VerifySecondaryPasswordMiddleware {
    const services: Services

    constructor (services: Services)
      ensures this.services == services
    {
      this.services := services;
    }

    /** handle: validation, then the API check; the request is passed on unchanged. */
    method Handle(request: Request.Request, response: Response.Response, next: Next) returns (o: Outcome)
      modifies request, response
      ensures o == Handled(services, old(request.State()), old(response.State()), next)
      ensures o.Done? ==> request.State() == o.req && response.State() == o.resp
    {
      var errors := request.Validate(PasswordRules, services.checks);
      if errors != [] {
        response.ValidationError(ErrorsValue(errors), Str(ValidationFailed));
        return Done(request.State(), response.State());
      }
      var api := services.verifySecondaryPassword(Payload(request.State()));
      if Accepted(api) {
        o := next(request.State(), response.State());
        if o.Done? {
          request.Load(o.req);
          response.Load(o.resp);
        }
      } else {
        response.Error(At(api, StrKey("message")), At(api, StrKey("status_code")), Null);
        o := Done(request.State(), response.State());
      }
    }
  }
}
