/**
 * The HTTP response builder (app/core/Response.php).
 *
 * A response holds a status code, an ordered header map, content, a content
 * type and a character set. Every builder mutates these; the JSON envelope
 * builders set the content type and the content but, because the status
 * assignment in `json` is commented out, never the status code. Each
 * operation is first given as a transition on a `RespState` value; the class
 * `Response` then performs the same steps on its fields.
 */
module ResponseSpec {
  import opened Text
  import opened Php
  import ValidatorSpec

  type Headers = seq<(string, Value)>

  datatype RespState = RespState(
    statusCode: int,
    headers: Headers,
    content: Value,
    contentType: string,
    charset: string,
    /** `$appConfig['environment']`, Null when there is no configuration */
    environment: Value,
    /** the extra data slot of getData/setData */
    data: Value)

  /** The state the constructor leaves: 200, text/html in UTF-8, empty content. */
  function Initial(environment: Value): RespState
  {
    RespState(200, [("Content-Type", Str("text/html; charset=UTF-8"))], Str(""), "text/html", "UTF-8", environment, Null)
  }

  /** `isset($this->headers[$name])` */
  predicate HeaderSet(h: Headers, name: string) { Get(h, name).Some? && Get(h, name).value != Null }

  // ---------------------------------------------------------------------
  // Status, headers, content type

  function SetStatusCode(r: RespState, code: int): RespState { r.(statusCode := code) }

  function SetContent(r: RespState, content: Value): RespState { r.(content := content) }

  /** setHeader($name, $value, $replace) */
  function SetHeader(r: RespState, name: string, value: Value, replace: bool): RespState
  {
    if replace || !HeaderSet(r.headers, name) then r.(headers := Put(r.headers, name, value)) else r
  }

  /** setHeaders($headers, $replace): setHeader for each entry, in order. */
  function SetHeaders(r: RespState, hs: Headers, replace: bool): RespState
    decreases |hs|
  {
    if hs == [] then r
    else SetHeader(SetHeaders(r, hs[..|hs| - 1], replace), hs[|hs| - 1].0, hs[|hs| - 1].1, replace)
  }

  function RemoveHeader(r: RespState, name: string): RespState { r.(headers := Remove(r.headers, name)) }

  function SetContentType(r: RespState, contentType: string): RespState
  {
    SetHeader(r.(contentType := contentType), "Content-Type", Str(contentType + "; charset=" + r.charset), true)
  }

  function SetCharset(r: RespState, charset: string): RespState
  {
    SetHeader(r.(charset := charset), "Content-Type", Str(r.contentType + "; charset=" + charset), true)
  }

  /**
   * setHeader: with replace the header takes the new value; without it the
   * header is written only when it is not set. No other header changes.
   */
  lemma SetHeaderSpec(r: RespState, name: string, value: Value, replace: bool, other: string)
    ensures var h := SetHeader(r, name, value, replace).headers;
      && Get(h, name) == (if replace || !HeaderSet(r.headers, name) then Some(value) else Get(r.headers, name))
      && (other != name ==> Get(h, other) == Get(r.headers, other))
    ensures var s := SetHeader(r, name, value, replace);
      s.statusCode == r.statusCode && s.content == r.content && s.contentType == r.contentType && s.charset == r.charset
  {
    GetPut(r.headers, name, value, name);
    GetPut(r.headers, name, value, other);
  }

  /** removeHeader deletes that header and keeps every other one. */
  lemma RemoveHeaderSpec(r: RespState, name: string, other: string)
    ensures Get(RemoveHeader(r, name).headers, name).None?
    ensures other != name ==> Get(RemoveHeader(r, name).headers, other) == Get(r.headers, other)
    ensures Has(RemoveHeader(r, name).headers, other) <==> other != name && Has(r.headers, other)
  {
    GetRemove(r.headers, name, name);
    GetRemove(r.headers, name, other);
    RemoveKeys(r.headers, name, other);
  }

  /** setHeaders leaves the status, content, content type and character set alone. */
  lemma {:induction false} SetHeadersKeeps(r: RespState, hs: Headers, replace: bool)
    ensures var s := SetHeaders(r, hs, replace);
      s.statusCode == r.statusCode && s.content == r.content && s.contentType == r.contentType
      && s.charset == r.charset && s.data == r.data && s.environment == r.environment
    decreases |hs|
  {
    if hs != [] {
      SetHeadersKeeps(r, hs[..|hs| - 1], replace);
    }
  }

  /** With replace, a header named in hs ends with the value of its last entry; other headers are untouched. */
  lemma {:induction false} SetHeadersLastWins(r: RespState, hs: Headers, name: string)
    ensures Get(SetHeaders(r, hs, true).headers, name)
         == if Get(Reverse(hs), name).Some? then Get(Reverse(hs), name) else Get(r.headers, name)
    decreases |hs|
  {
    if hs != [] {
      var init := hs[..|hs| - 1];
      SetHeadersLastWins(r, init, name);
      var last := hs[|hs| - 1];
      GetPut(SetHeaders(r, init, true).headers, last.0, last.1, name);
      assert Reverse(hs) == [last] + Reverse(init);
    }
  }

  function Reverse<T>(s: seq<T>): (r: seq<T>)
    ensures |r| == |s|
    decreases |s|
  {
    if s == [] then [] else [s[|s| - 1]] + Reverse(s[..|s| - 1])
  }

  /** The content type and the Content-Type header agree after either setter. */
  lemma ContentTypeHeader(r: RespState, contentType: string, charset: string)
    ensures var s := SetContentType(r, contentType);
      s.contentType == contentType && Get(s.headers, "Content-Type") == Some(Str(contentType + "; charset=" + r.charset))
    ensures var s := SetCharset(r, charset);
      s.charset == charset && Get(s.headers, "Content-Type") == Some(Str(r.contentType + "; charset=" + charset))
  {
    GetPut(r.headers, "Content-Type", Str(contentType + "; charset=" + r.charset), "Content-Type");
    GetPut(r.headers, "Content-Type", Str(r.contentType + "; charset=" + charset), "Content-Type");
  }

  // ---------------------------------------------------------------------
  // JSON envelopes

  /** A typed body: set the content type, the extra headers and the content (json, html, text, xml). */
  function Body(r: RespState, contentType: string, content: Value, headers: Headers): RespState
  {
    SetContent(SetHeaders(SetContentType(r, contentType), headers, true), content)
  }

  /** json($data, $statusCode, $headers): the status code argument is ignored. */
  function Json(r: RespState, data: Value, headers: Headers): RespState
  {
    Body(r, "application/json", data, headers)
  }

  function Html(r: RespState, html: Value, headers: Headers): RespState { Body(r, "text/html", html, headers) }
  function PlainText(r: RespState, text: Value, headers: Headers): RespState { Body(r, "text/plain", text, headers) }
  function Xml(r: RespState, xml: Value, headers: Headers): RespState { Body(r, "application/xml", xml, headers) }

  /** `{status_code, message}` followed by the named optional part when it is not null. */
  function Envelope(code: Value, message: Value, extraName: string, extra: Value): Value
  {
    Arr([(StrKey("status_code"), code), (StrKey("message"), message)]
        + (if extra != Null then [(StrKey(extraName), extra)] else []))
  }

  function SuccessEnvelope(data: Value, message: Value, code: Value): Value { Envelope(code, message, "data", data) }
  function ErrorEnvelope(message: Value, code: Value, errors: Value): Value { Envelope(code, message, "errors", errors) }

  /** The envelope holds status_code and message, and the optional part exactly when it is not null. */
  lemma EnvelopeFields(code: Value, message: Value, extraName: string, extra: Value)
    requires extraName != "status_code" && extraName != "message"
    ensures var e := Envelope(code, message, extraName, extra).entries;
      && Get(e, StrKey("status_code")) == Some(code)
      && Get(e, StrKey("message")) == Some(message)
      && (Has(e, StrKey(extraName)) <==> extra != Null)
      && (extra != Null ==> Get(e, StrKey(extraName)) == Some(extra))
      && |e| == (if extra != Null then 3 else 2)
  {
    var e := Envelope(code, message, extraName, extra).entries;
    assert e[0].0 == StrKey("status_code") && e[1].0 == StrKey("message");
    PosUpTo(e, StrKey("status_code"), 0);
    PosUpTo(e, StrKey("message"), 1);
    if extra != Null {
      PosUpTo(e, StrKey(extraName), 2);
    } else {
      PosNone(e, StrKey(extraName));
    }
  }

  function Success(r: RespState, data: Value, message: Value, code: Value): RespState
  {
    Json(r, SuccessEnvelope(data, message, code), [])
  }

  function Error(r: RespState, message: Value, code: Value, errors: Value): RespState
  {
    Json(r, ErrorEnvelope(message, code, errors), [])
  }

  /** methodNotAllowed / badRequest: an array with a set 'message' supplies the message and becomes the errors. */
  function ErrorFromMessage(r: RespState, message: Value, code: int): RespState
  {
    if message.Arr? && Isset(message.entries, StrKey("message")) then Error(r, At(message, StrKey("message")), Int(code), message)
    else Error(r, message, Int(code), Null)
  }

  function MethodNotAllowed(r: RespState, message: Value): RespState { ErrorFromMessage(r, message, 405) }
  function BadRequest(r: RespState, message: Value): RespState { ErrorFromMessage(r, message, 400) }
  function NotFound(r: RespState, message: Value): RespState { Error(r, message, Int(404), Null) }
  function Unauthorized(r: RespState, message: Value): RespState { Error(r, message, Int(401), Null) }
  function Forbidden(r: RespState, message: Value): RespState { Error(r, message, Int(403), Null) }
  function ServerError(r: RespState, message: Value): RespState { Error(r, message, Int(500), Null) }
  function Created(r: RespState, data: Value, message: Value): RespState { Success(r, data, message, Int(200)) }

  /** validationError: the errors are shown only in the development environment. */
  function ValidationError(r: RespState, errors: Entries, message: Value): RespState
  {
    if r.environment == Str("development") then Error(r, message, Int(422), Arr(errors))
    else Error(r, message, Int(422), Null)
  }

  const ValidationFailed := "Validation failed"

  /** validationError($errors) with the default message, for the errors of a validate. */
  function Invalid(r: RespState, errs: ValidatorSpec.Errors): RespState
  {
    ValidationError(r, ValidatorSpec.ErrorsValue(errs), Str(ValidationFailed))
  }

  function NoContent(r: RespState): RespState { SetContent(SetStatusCode(r, 204), Str("")) }

  function Redirect(r: RespState, url: string, code: int): RespState
  {
    SetContent(SetStatusCode(SetHeader(r, "Location", Str(url), true), code), Str(""))
  }

  function PermanentRedirect(r: RespState, url: string): RespState { Redirect(r, url, 301) }

  /** A JSON body: the content is the given value, the content type JSON, and the status is the old one. */
  lemma JsonSpec(r: RespState, data: Value, headers: Headers)
    ensures var s := Json(r, data, headers);
      s.statusCode == r.statusCode && s.content == data && s.contentType == "application/json"
      && s.charset == r.charset && s.environment == r.environment && s.data == r.data
  {
    SetHeadersKeeps(SetContentType(r, "application/json"), headers, true);
  }

  /** No envelope builder changes the status code. */
  lemma EnvelopesKeepStatus(r: RespState, data: Value, message: Value, code: Value, errors: Value, es: Entries)
    ensures Success(r, data, message, code).statusCode == r.statusCode
    ensures Error(r, message, code, errors).statusCode == r.statusCode
    ensures MethodNotAllowed(r, message).statusCode == r.statusCode
    ensures BadRequest(r, message).statusCode == r.statusCode
    ensures NotFound(r, message).statusCode == r.statusCode
    ensures Unauthorized(r, message).statusCode == r.statusCode
    ensures Forbidden(r, message).statusCode == r.statusCode
    ensures ServerError(r, message).statusCode == r.statusCode
    ensures Created(r, data, message).statusCode == r.statusCode
    ensures ValidationError(r, es, message).statusCode == r.statusCode
  {
    JsonSpec(r, SuccessEnvelope(data, message, code), []);
    JsonSpec(r, ErrorEnvelope(message, code, errors), []);
    JsonSpec(r, SuccessEnvelope(data, message, Int(200)), []);
    JsonSpec(r, ErrorEnvelope(message, Int(404), Null), []);
    JsonSpec(r, ErrorEnvelope(message, Int(401), Null), []);
    JsonSpec(r, ErrorEnvelope(message, Int(403), Null), []);
    JsonSpec(r, ErrorEnvelope(message, Int(500), Null), []);
    JsonSpec(r, ErrorEnvelope(message, Int(422), Null), []);
    JsonSpec(r, ErrorEnvelope(message, Int(422), Arr(es)), []);
    JsonSpec(r, ErrorEnvelope(message, Int(405), Null), []);
    JsonSpec(r, ErrorEnvelope(message, Int(400), Null), []);
    if message.Arr? {
      var m := At(message, StrKey("message"));
      JsonSpec(r, ErrorEnvelope(m, Int(405), message), []);
      JsonSpec(r, ErrorEnvelope(m, Int(400), message), []);
    }
  }

  /** The codes of the helper envelopes: 404, 401, 403, 500, 422, and 200 for created. */
  lemma EnvelopeCodes(r: RespState, data: Value, message: Value, es: Entries)
    ensures NotFound(r, message).content == ErrorEnvelope(message, Int(404), Null)
    ensures Unauthorized(r, message).content == ErrorEnvelope(message, Int(401), Null)
    ensures Forbidden(r, message).content == ErrorEnvelope(message, Int(403), Null)
    ensures ServerError(r, message).content == ErrorEnvelope(message, Int(500), Null)
    ensures Created(r, data, message).content == SuccessEnvelope(data, message, Int(200))
    ensures ValidationError(r, es, message).content
         == ErrorEnvelope(message, Int(422), if r.environment == Str("development") then Arr(es) else Null)
    ensures !message.Arr? ==> MethodNotAllowed(r, message).content == ErrorEnvelope(message, Int(405), Null)
    ensures !message.Arr? ==> BadRequest(r, message).content == ErrorEnvelope(message, Int(400), Null)
  {
    JsonSpec(r, ErrorEnvelope(message, Int(404), Null), []);
    JsonSpec(r, ErrorEnvelope(message, Int(401), Null), []);
    JsonSpec(r, ErrorEnvelope(message, Int(403), Null), []);
    JsonSpec(r, ErrorEnvelope(message, Int(500), Null), []);
    JsonSpec(r, SuccessEnvelope(data, message, Int(200)), []);
    JsonSpec(r, ErrorEnvelope(message, Int(422), Null), []);
    JsonSpec(r, ErrorEnvelope(message, Int(422), Arr(es)), []);
    JsonSpec(r, ErrorEnvelope(message, Int(405), Null), []);
    JsonSpec(r, ErrorEnvelope(message, Int(400), Null), []);
  }

  /** noContent and redirect are the builders that do set the status, and they empty the content. */
  lemma StatusSetters(r: RespState, url: string, code: int)
    ensures NoContent(r).statusCode == 204 && NoContent(r).content == Str("")
    ensures Redirect(r, url, code).statusCode == code && Redirect(r, url, code).content == Str("")
    ensures Get(Redirect(r, url, code).headers, "Location") == Some(Str(url))
    ensures PermanentRedirect(r, url).statusCode == 301
  {
    GetPut(r.headers, "Location", Str(url), "Location");
  }

  // ---------------------------------------------------------------------
  // CORS, caching, ETag

  /** enableCors($origin, $methods, $headers, $maxAge, $credentials) */
  function EnableCors(r: RespState, origin: Value, methods: seq<string>, headers: seq<string>, maxAge: int, credentials: bool): RespState
  {
    var r1 := SetHeader(r, "Access-Control-Allow-Origin", origin, true);
    var r2 := if credentials then SetHeader(r1, "Access-Control-Allow-Credentials", Str("true"), true) else r1;
    var r3 := if |methods| > 0 then SetHeader(r2, "Access-Control-Allow-Methods", Str(Implode(", ", methods)), true) else r2;
    var r4 := if |headers| > 0 then SetHeader(r3, "Access-Control-Allow-Headers", Str(Implode(", ", headers)), true) else r3;
    if maxAge > 0 then SetHeader(r4, "Access-Control-Max-Age", Int(maxAge), true) else r4
  }

  /** handlePreflightRequest: the CORS headers and empty content; the status is not touched. */
  function HandlePreflightRequest(r: RespState, origin: Value, methods: seq<string>, headers: seq<string>, maxAge: int, credentials: bool): RespState
  {
    SetContent(EnableCors(r, origin, methods, headers, maxAge, credentials), Str(""))
  }

  /** The value enableCors writes under a header name, or None for a header it leaves alone. */
  function CorsHeader(origin: Value, methods: seq<string>, headers: seq<string>, maxAge: int, credentials: bool, name: string): Option<Value>
  {
    if name == "Access-Control-Max-Age" && maxAge > 0 then Some(Int(maxAge))
    else if name == "Access-Control-Allow-Headers" && |headers| > 0 then Some(Str(Implode(", ", headers)))
    else if name == "Access-Control-Allow-Methods" && |methods| > 0 then Some(Str(Implode(", ", methods)))
    else if name == "Access-Control-Allow-Credentials" && credentials then Some(Str("true"))
    else if name == "Access-Control-Allow-Origin" then Some(origin)
    else None
  }

  /** After enableCors each header holds what the CORS table says, or its old value where the table is silent. */
  lemma EnableCorsHeaders(r: RespState, origin: Value, methods: seq<string>, headers: seq<string>, maxAge: int, credentials: bool, name: string)
    ensures Get(EnableCors(r, origin, methods, headers, maxAge, credentials).headers, name)
         == if CorsHeader(origin, methods, headers, maxAge, credentials, name).Some?
            then CorsHeader(origin, methods, headers, maxAge, credentials, name) else Get(r.headers, name)
    ensures EnableCors(r, origin, methods, headers, maxAge, credentials).statusCode == r.statusCode
  {
    var r1 := SetHeader(r, "Access-Control-Allow-Origin", origin, true);
    var r2 := if credentials then SetHeader(r1, "Access-Control-Allow-Credentials", Str("true"), true) else r1;
    var r3 := if |methods| > 0 then SetHeader(r2, "Access-Control-Allow-Methods", Str(Implode(", ", methods)), true) else r2;
    var r4 := if |headers| > 0 then SetHeader(r3, "Access-Control-Allow-Headers", Str(Implode(", ", headers)), true) else r3;
    var r5 := if maxAge > 0 then SetHeader(r4, "Access-Control-Max-Age", Int(maxAge), true) else r4;
    assert EnableCors(r, origin, methods, headers, maxAge, credentials) == r5;
    Stage(r, true, "Access-Control-Allow-Origin", origin, name);
    Stage(r1, credentials, "Access-Control-Allow-Credentials", Str("true"), name);
    Stage(r2, |methods| > 0, "Access-Control-Allow-Methods", Str(Implode(", ", methods)), name);
    Stage(r3, |headers| > 0, "Access-Control-Allow-Headers", Str(Implode(", ", headers)), name);
    Stage(r4, maxAge > 0, "Access-Control-Max-Age", Int(maxAge), name);
    assert "Access-Control-Allow-Headers"[21] == 'H' && "Access-Control-Allow-Methods"[21] == 'M';
  }

  /** One conditional setHeader step, seen from one header name. */
  lemma Stage(r: RespState, cond: bool, name: string, value: Value, n: string)
    ensures Get((if cond then SetHeader(r, name, value, true) else r).headers, n)
         == if cond && n == name then Some(value) else Get(r.headers, n)
  {
    GetPut(r.headers, name, value, n);
  }

  /**
   * A preflight response carries the CORS headers of enableCors (the origin,
   * 'true' credentials when asked, the methods and headers joined by ", "
   * when there are any, the max age when positive) and empty content; the
   * status is the old one.
   */
  lemma PreflightSpec(r: RespState, origin: Value, methods: seq<string>, headers: seq<string>, maxAge: int, credentials: bool)
    ensures var s := HandlePreflightRequest(r, origin, methods, headers, maxAge, credentials);
      && s.statusCode == r.statusCode && s.content == Str("")
      && Get(s.headers, "Access-Control-Allow-Origin") == Some(origin)
      && (credentials ==> Get(s.headers, "Access-Control-Allow-Credentials") == Some(Str("true")))
      && (|methods| > 0 ==> Get(s.headers, "Access-Control-Allow-Methods") == Some(Str(Implode(", ", methods))))
      && (|headers| > 0 ==> Get(s.headers, "Access-Control-Allow-Headers") == Some(Str(Implode(", ", headers))))
      && (maxAge > 0 ==> Get(s.headers, "Access-Control-Max-Age") == Some(Int(maxAge)))
  {
    EnableCorsHeaders(r, origin, methods, headers, maxAge, credentials, "Access-Control-Allow-Origin");
    EnableCorsHeaders(r, origin, methods, headers, maxAge, credentials, "Access-Control-Allow-Credentials");
    EnableCorsHeaders(r, origin, methods, headers, maxAge, credentials, "Access-Control-Allow-Methods");
    EnableCorsHeaders(r, origin, methods, headers, maxAge, credentials, "Access-Control-Allow-Headers");
    EnableCorsHeaders(r, origin, methods, headers, maxAge, credentials, "Access-Control-Max-Age");
  }

  /** setHeader with replace, for every header name at once. */
  lemma SetHeaderReplace(r: RespState, name: string, value: Value)
    ensures forall other :: Get(SetHeader(r, name, value, true).headers, other) == if other == name then Some(value) else Get(r.headers, other)
  {
    forall other ensures Get(SetHeader(r, name, value, true).headers, other) == if other == name then Some(value) else Get(r.headers, other) {
      GetPut(r.headers, name, value, other);
    }
  }

  /** The Cache-Control directives setCache writes, in order. */
  function CacheDirectives(maxAge: int, public: bool, mustRevalidate: bool): seq<string>
  {
    [if public then "public" else "private"]
      + (if maxAge > 0 then ["max-age=" + IntToString(maxAge)] else ["no-cache", "no-store"])
      + (if mustRevalidate then ["must-revalidate"] else [])
  }

  /** The Cache-Control value: the directives separated by ", ". */
  function CacheControl(maxAge: int, public: bool, mustRevalidate: bool): string
  {
    Implode(", ", CacheDirectives(maxAge, public, mustRevalidate))
  }

  /**
   * setCache($maxAge, $public, $mustRevalidate). `expiresAt` is the HTTP date
   * of now + maxAge, which the source reads from the clock.
   */
  function SetCache(r: RespState, maxAge: int, public: bool, mustRevalidate: bool, expiresAt: string): RespState
  {
    var r1 := SetHeader(r, "Cache-Control", Str(CacheControl(maxAge, public, mustRevalidate)), true);
    SetHeader(r1, "Expires", Str(if maxAge > 0 then expiresAt + " GMT" else "0"), true)
  }

  function NoCache(r: RespState, expiresAt: string): RespState { SetCache(r, 0, false, true, expiresAt) }

  /**
   * The directives start with the visibility; max-age=N appears exactly for a
   * positive max age and no-cache, no-store exactly otherwise; must-revalidate
   * appears exactly when asked for, last.
   */
  lemma CacheDirectivesSpec(maxAge: int, public: bool, mustRevalidate: bool)
    ensures var d := CacheDirectives(maxAge, public, mustRevalidate);
      && d[0] == (if public then "public" else "private")
      && (("max-age=" + IntToString(maxAge)) in d <==> maxAge > 0)
      && ("no-store" in d <==> maxAge <= 0) && ("no-cache" in d <==> maxAge <= 0)
      && ("must-revalidate" in d <==> mustRevalidate)
      && (mustRevalidate ==> d[|d| - 1] == "must-revalidate")
      && |d| == (if maxAge > 0 then 2 else 3) + (if mustRevalidate then 1 else 0)
  {
    var m := "max-age=" + IntToString(maxAge);
    assert m[0] == 'm' && m[1] == 'a';
  }

  /** The text the source builds with `.=` is the directives joined by ", ". */
  lemma CacheControlText(maxAge: int, public: bool, mustRevalidate: bool)
    ensures var vis := if public then "public" else "private";
      var m := "max-age=" + IntToString(maxAge);
      CacheControl(maxAge, public, mustRevalidate)
      == if maxAge > 0 && mustRevalidate then vis + ", " + m + ", " + "must-revalidate"
         else if maxAge > 0 then vis + ", " + m
         else if mustRevalidate then vis + ", " + "no-cache" + ", " + "no-store" + ", " + "must-revalidate"
         else vis + ", " + "no-cache" + ", " + "no-store"
  {
    var vis := if public then "public" else "private";
    var m := "max-age=" + IntToString(maxAge);
    if maxAge > 0 {
      if mustRevalidate {
        assert CacheDirectives(maxAge, public, mustRevalidate) == [vis, m, "must-revalidate"];
        Implode3(", ", vis, m, "must-revalidate");
      } else {
        assert CacheDirectives(maxAge, public, mustRevalidate) == [vis, m];
        Implode2(", ", vis, m);
      }
    } else {
      if mustRevalidate {
        assert CacheDirectives(maxAge, public, mustRevalidate) == [vis, "no-cache", "no-store", "must-revalidate"];
        Implode4(", ", vis, "no-cache", "no-store", "must-revalidate");
      } else {
        assert CacheDirectives(maxAge, public, mustRevalidate) == [vis, "no-cache", "no-store"];
        Implode3(", ", vis, "no-cache", "no-store");
      }
    }
  }

  lemma Implode2(sep: string, a: string, b: string)
    ensures Implode(sep, [a, b]) == a + sep + b
  {
    assert [a, b][1..] == [b];
  }

  lemma Implode3(sep: string, a: string, b: string, c: string)
    ensures Implode(sep, [a, b, c]) == a + sep + b + sep + c
  {
    assert [a, b, c][1..] == [b, c];
    Implode2(sep, b, c);
  }

  lemma Implode4(sep: string, a: string, b: string, c: string, d: string)
    ensures Implode(sep, [a, b, c, d]) == a + sep + b + sep + c + sep + d
  {
    assert [a, b, c, d][1..] == [b, c, d];
    Implode3(sep, b, c, d);
  }

  /** noCache writes the directives private, no-cache, no-store, must-revalidate and expires at "0". */
  lemma NoCacheHeaders(r: RespState, expiresAt: string)
    ensures Get(NoCache(r, expiresAt).headers, "Cache-Control") == Some(Str(Implode(", ", ["private", "no-cache", "no-store", "must-revalidate"])))
    ensures Get(NoCache(r, expiresAt).headers, "Expires") == Some(Str("0"))
  {
    var cc := CacheControl(0, false, true);
    assert CacheDirectives(0, false, true) == ["private", "no-cache", "no-store", "must-revalidate"];
    var r1 := SetHeader(r, "Cache-Control", Str(cc), true);
    GetPut(r.headers, "Cache-Control", Str(cc), "Cache-Control");
    GetPut(r1.headers, "Expires", Str("0"), "Cache-Control");
    GetPut(r1.headers, "Expires", Str("0"), "Expires");
  }

  /** setEtag: a quoted entity tag, prefixed by W/ when weak (section 8.8.3 of RFC 9110). */
  function EtagValue(etag: string, weak: bool): string
  {
    (if weak then "W/" else "") + "\"" + etag + "\""
  }

  function SetEtag(r: RespState, etag: string, weak: bool): RespState
  {
    SetHeader(r, "ETag", Str(EtagValue(etag, weak)), true)
  }

  /** A strong tag is the quoted value; a weak one adds W/ in front. */
  lemma EtagShape(etag: string, weak: bool)
    ensures var e := EtagValue(etag, weak);
      && (weak <==> IsPrefix("W/", e))
      && IsSuffix("\"", e)
      && e[if weak then 3 else 1..|e| - 1] == etag
  {
    var e := EtagValue(etag, weak);
    if !weak {
      assert e[0] == '"';
      assert !IsPrefix("W/", e);
    }
  }

  // ---------------------------------------------------------------------
  // paginate

  /**
   * `max(1, ceil($total / $perPage))`: at least 1, and enough pages of
   * perPage for total items (a negative perPage divides the same way, so it
   * gives page 1 for a non-negative total). None for a zero perPage, where
   * the division throws DivisionByZeroError.
   */
  function LastPage(total: int, perPage: int): (last: Option<int>)
    ensures last.None? <==> perPage == 0
    ensures last.Some? ==> last.value >= 1
    ensures perPage > 0 ==> total <= last.value * perPage && (last.value > 1 ==> (last.value - 1) * perPage < total)
    ensures perPage < 0 ==> -total <= last.value * -perPage && (last.value > 1 ==> (last.value - 1) * -perPage < -total)
    ensures perPage < 0 && total >= 0 ==> last == Some(1)
  {
    if perPage == 0 then None
    else
      var c := if perPage > 0 then CeilDiv(total, perPage) else CeilDiv(-total, -perPage);
      Some(if c < 1 then 1 else c)
  }

  /** The envelope paginate builds; page links come from pageUrl(page, perPage). */
  function PaginateEnvelope(items: Value, total: int, perPage: int, currentPage: int, meta: Entries,
                            pageUrl: (int, int) -> string): Value
    requires perPage != 0
  {
    var last := LastPage(total, perPage).value;
    Arr([
      (StrKey("data"), items),
      (StrKey("meta"), Arr(MergeAll([(StrKey("current_page"), Int(currentPage)), (StrKey("last_page"), Int(last)),
                                     (StrKey("per_page"), Int(perPage)), (StrKey("total"), Int(total))] + meta))),
      (StrKey("links"), Arr([
        (StrKey("first"), Str(pageUrl(1, perPage))),
        (StrKey("last"), Str(pageUrl(last, perPage))),
        (StrKey("prev"), if currentPage > 1 then Str(pageUrl(currentPage - 1, perPage)) else Null),
        (StrKey("next"), if currentPage < last then Str(pageUrl(currentPage + 1, perPage)) else Null)]))])
  }

  /** paginate: the envelope sent as JSON, or None where the page count divides by zero and throws. */
  function Paginate(r: RespState, items: Value, total: int, perPage: int, currentPage: int, meta: Entries,
                    pageUrl: (int, int) -> string): Option<RespState>
  {
    if perPage == 0 then None
    else Some(Json(r, PaginateEnvelope(items, total, perPage, currentPage, meta, pageUrl), []))
  }

  /** paginate throws exactly for a zero perPage; otherwise the envelope is the JSON content and the status is kept. */
  lemma PaginateOutcome(r: RespState, items: Value, total: int, perPage: int, currentPage: int, meta: Entries,
                        pageUrl: (int, int) -> string)
    ensures var p := Paginate(r, items, total, perPage, currentPage, meta, pageUrl);
      && (p.None? <==> perPage == 0)
      && (p.Some? ==> p.value.content == PaginateEnvelope(items, total, perPage, currentPage, meta, pageUrl)
                      && p.value.contentType == "application/json" && p.value.statusCode == r.statusCode)
  {
    if perPage != 0 {
      JsonSpec(r, PaginateEnvelope(items, total, perPage, currentPage, meta, pageUrl), []);
    }
  }

  /** prev is null exactly on the first page and next exactly on the last one. */
  lemma PaginateLinks(items: Value, total: int, perPage: int, currentPage: int, meta: Entries, pageUrl: (int, int) -> string)
    requires perPage != 0
    ensures var links := At(At(PaginateEnvelope(items, total, perPage, currentPage, meta, pageUrl), StrKey("links")), StrKey("prev"));
      links == Null <==> currentPage <= 1
    ensures var next := At(At(PaginateEnvelope(items, total, perPage, currentPage, meta, pageUrl), StrKey("links")), StrKey("next"));
      next == Null <==> currentPage >= LastPage(total, perPage).value
    ensures At(At(PaginateEnvelope(items, total, perPage, currentPage, meta, pageUrl), StrKey("links")), StrKey("last"))
         == Str(pageUrl(LastPage(total, perPage).value, perPage))
  {
    var e := PaginateEnvelope(items, total, perPage, currentPage, meta, pageUrl);
    PosUpTo(e.entries, StrKey("links"), 2);
    var l := At(e, StrKey("links"));
    PosUpTo(l.entries, StrKey("prev"), 2);
    PosUpTo(l.entries, StrKey("next"), 3);
    PosUpTo(l.entries, StrKey("last"), 1);
  }
}

/**
 * The Response object: the same operations performed on its fields, each
 * proved to make the transition ResponseSpec defines.
 */
module Response {
  import opened Text
  import opened Php
  import opened ResponseSpec

  class Response {
    var statusCode: int
    var headers: Headers
    var content: Value
    var contentType: string
    var charset: string
    var environment: Value
    var data: Value

    function State(): RespState
      reads this
    {
      RespState(statusCode, headers, content, contentType, charset, environment, data)
    }

    method Load(s: RespState)
      modifies this
      ensures State() == s
    {
      statusCode, headers, content, contentType, charset, environment, data
        := s.statusCode, s.headers, s.content, s.contentType, s.charset, s.environment, s.data;
    }

    constructor (environment: Value)
      ensures State() == Initial(environment)
    {
      statusCode := 200;
      contentType := "text/html";
      charset := "UTF-8";
      headers := [("Content-Type", Str("text/html; charset=UTF-8"))];
      content := Str("");
      this.environment := environment;
      data := Null;
    }

    method SetStatusCode(code: int)
      modifies this
      ensures State() == ResponseSpec.SetStatusCode(old(State()), code)
    {
      statusCode := code;
    }

    method SetContent(c: Value)
      modifies this
      ensures State() == ResponseSpec.SetContent(old(State()), c)
    {
      content := c;
    }

    method SetHeader(name: string, value: Value, replace: bool)
      modifies this
      ensures State() == ResponseSpec.SetHeader(old(State()), name, value, replace)
    {
      if replace || !HeaderSet(headers, name) {
        headers := Put(headers, name, value);
      }
    }

    method SetHeaders(hs: Headers, replace: bool)
      modifies this
      ensures State() == ResponseSpec.SetHeaders(old(State()), hs, replace)
    {
      var i := 0;
      while i < |hs|
        invariant 0 <= i <= |hs|
        invariant State() == ResponseSpec.SetHeaders(old(State()), hs[..i], replace)
      {
        assert hs[..i + 1][..i] == hs[..i];
        SetHeader(hs[i].0, hs[i].1, replace);
        i := i + 1;
      }
      assert hs[..|hs|] == hs;
    }

    method RemoveHeader(name: string)
      modifies this
      ensures State() == ResponseSpec.RemoveHeader(old(State()), name)
    {
      headers := Remove(headers, name);
    }

    /** getHeader($name, $default) */
    function GetHeader(name: string, default: Value): (v: Value)
      reads this
      ensures HeaderSet(headers, name) ==> v == Get(headers, name).value
      ensures !HeaderSet(headers, name) ==> v == default
    {
      if HeaderSet(headers, name) then Get(headers, name).value else default
    }

    method SetContentType(ct: string)
      modifies this
      ensures State() == ResponseSpec.SetContentType(old(State()), ct)
    {
      contentType := ct;
      SetHeader("Content-Type", Str(ct + "; charset=" + charset), true);
    }

    method SetCharset(cs: string)
      modifies this
      ensures State() == ResponseSpec.SetCharset(old(State()), cs)
    {
      charset := cs;
      SetHeader("Content-Type", Str(contentType + "; charset=" + cs), true);
    }

    method Json(body: Value, hs: Headers)
      modifies this
      ensures State() == ResponseSpec.Json(old(State()), body, hs)
    {
      SetContentType("application/json");
      SetHeaders(hs, true);
      SetContent(body);
    }

    method Success(d: Value, message: Value, code: Value)
      modifies this
      ensures State() == ResponseSpec.Success(old(State()), d, message, code)
    {
      Json(SuccessEnvelope(d, message, code), []);
    }

    method Error(message: Value, code: Value, errors: Value)
      modifies this
      ensures State() == ResponseSpec.Error(old(State()), message, code, errors)
    {
      Json(ErrorEnvelope(message, code, errors), []);
    }

    method MethodNotAllowed(message: Value)
      modifies this
      ensures State() == ResponseSpec.MethodNotAllowed(old(State()), message)
    {
      if message.Arr? && Isset(message.entries, StrKey("message")) {
        Error(At(message, StrKey("message")), Int(405), message);
      } else {
        Error(message, Int(405), Null);
      }
    }

    method BadRequest(message: Value)
      modifies this
      ensures State() == ResponseSpec.BadRequest(old(State()), message)
    {
      if message.Arr? && Isset(message.entries, StrKey("message")) {
        Error(At(message, StrKey("message")), Int(400), message);
      } else {
        Error(message, Int(400), Null);
      }
    }

    method ValidationError(errors: Entries, message: Value)
      modifies this
      ensures State() == ResponseSpec.ValidationError(old(State()), errors, message)
    {
      if environment == Str("development") {
        Error(message, Int(422), Arr(errors));
      } else {
        Error(message, Int(422), Null);
      }
    }

    method NotFound(message: Value)
      modifies this
      ensures State() == ResponseSpec.NotFound(old(State()), message)
    {
      Error(message, Int(404), Null);
    }

    method Unauthorized(message: Value)
      modifies this
      ensures State() == ResponseSpec.Unauthorized(old(State()), message)
    {
      Error(message, Int(401), Null);
    }

    method Forbidden(message: Value)
      modifies this
      ensures State() == ResponseSpec.Forbidden(old(State()), message)
    {
      Error(message, Int(403), Null);
    }

    method ServerError(message: Value)
      modifies this
      ensures State() == ResponseSpec.ServerError(old(State()), message)
    {
      Error(message, Int(500), Null);
    }

    method Created(d: Value, message: Value)
      modifies this
      ensures State() == ResponseSpec.Created(old(State()), d, message)
    {
      Success(d, message, Int(200));
    }

    method NoContent()
      modifies this
      ensures State() == ResponseSpec.NoContent(old(State()))
    {
      SetStatusCode(204);
      SetContent(Str(""));
    }

    method Redirect(url: string, code: int)
      modifies this
      ensures State() == ResponseSpec.Redirect(old(State()), url, code)
    {
      SetHeader("Location", Str(url), true);
      SetStatusCode(code);
      SetContent(Str(""));
    }

    method EnableCors(origin: Value, methods: seq<string>, hs: seq<string>, maxAge: int, credentials: bool)
      modifies this
      ensures State() == ResponseSpec.EnableCors(old(State()), origin, methods, hs, maxAge, credentials)
    {
      SetHeader("Access-Control-Allow-Origin", origin, true);
      if credentials {
        SetHeader("Access-Control-Allow-Credentials", Str("true"), true);
      }
      if |methods| > 0 {
        SetHeader("Access-Control-Allow-Methods", Str(Implode(", ", methods)), true);
      }
      if |hs| > 0 {
        SetHeader("Access-Control-Allow-Headers", Str(Implode(", ", hs)), true);
      }
      if maxAge > 0 {
        SetHeader("Access-Control-Max-Age", Int(maxAge), true);
      }
    }

    method HandlePreflightRequest(origin: Value, methods: seq<string>, hs: seq<string>, maxAge: int, credentials: bool)
      modifies this
      ensures State() == ResponseSpec.HandlePreflightRequest(old(State()), origin, methods, hs, maxAge, credentials)
    {
      EnableCors(origin, methods, hs, maxAge, credentials);
      SetContent(Str(""));
    }

    method SetCache(maxAge: int, public: bool, mustRevalidate: bool, expiresAt: string)
      modifies this
      ensures State() == ResponseSpec.SetCache(old(State()), maxAge, public, mustRevalidate, expiresAt)
    {
      CacheControlText(maxAge, public, mustRevalidate);
      var cacheControl := if public then "public" else "private";
      if maxAge > 0 {
        cacheControl := cacheControl + ", " + ("max-age=" + IntToString(maxAge));
      } else {
        cacheControl := cacheControl + ", " + "no-cache" + ", " + "no-store";
      }
      if mustRevalidate {
        cacheControl := cacheControl + ", " + "must-revalidate";
      }
      SetHeader("Cache-Control", Str(cacheControl), true);
      if maxAge > 0 {
        SetHeader("Expires", Str(expiresAt + " GMT"), true);
      } else {
        SetHeader("Expires", Str("0"), true);
      }
    }

    method SetEtag(etag: string, weak: bool)
      modifies this
      ensures State() == ResponseSpec.SetEtag(old(State()), etag, weak)
    {
      SetHeader("ETag", Str((if weak then "W/" else "") + "\"" + etag + "\""), true);
    }

    /** paginate: thrown reports the DivisionByZeroError of a zero perPage, which leaves the response as it was. */
    method Paginate(items: Value, total: int, perPage: int, currentPage: int, meta: Entries, pageUrl: (int, int) -> string)
      returns (thrown: bool)
      modifies this
      ensures thrown <==> perPage == 0
      ensures ResponseSpec.Paginate(old(State()), items, total, perPage, currentPage, meta, pageUrl)
           == if thrown then None else Some(State())
      ensures thrown ==> State() == old(State())
    {
      if perPage == 0 {
        return true;
      }
      Json(PaginateEnvelope(items, total, perPage, currentPage, meta, pageUrl), []);
      thrown := false;
    }

    method SetData(d: Value)
      modifies this
      ensures State() == old(State()).(data := d)
    {
      data := d;
    }
  }
}
