/**
 * SecurityHeadersMiddleware (app/app/Middleware/SecurityHeadersMiddleware.php):
 * the rest of the chain runs first, then seven headers are set, each with
 * replace, on the response it produced.
 */
module SecurityHeaders {
  import opened Text
  import opened Php
  import opened ResponseSpec
  import opened RouterSpec
  import Request
  import Response

  /** The eleven Content-Security-Policy directives, in order. */
  const CspDirectives: seq<string> := [
    "default-src 'self'", "script-src 'self' 'unsafe-inline' 'unsafe-eval'", "style-src 'self' 'unsafe-inline'",
    "img-src 'self' data:", "font-src 'self'", "connect-src 'self'", "media-src 'self'", "object-src 'none'",
    "frame-src 'self'", "base-uri 'self'", "form-action 'self'"]

  const Xss := "1; mode=block"
  const NoSniff := "nosniff"
  const SameOrigin := "SAMEORIGIN"
  const FeaturePolicy := "geolocation 'self'; microphone 'none'; camera 'none'"
  const ReferrerPolicy := "strict-origin-when-cross-origin"
  const PermissionsPolicy := "camera=(), microphone=(), geolocation=(self)"

  /** The headers handle sets, one setHeader call after the other. */
  function Secure(r: RespState): RespState
  {
    var r1 := SetHeader(r, "X-XSS-Protection", Str(Xss), true);
    var r2 := SetHeader(r1, "X-Content-Type-Options", Str(NoSniff), true);
    var r3 := SetHeader(r2, "X-Frame-Options", Str(SameOrigin), true);
    var r4 := SetHeader(r3, "Feature-Policy", Str(FeaturePolicy), true);
    var r5 := SetHeader(r4, "Content-Security-Policy", Str(Implode("; ", CspDirectives)), true);
    var r6 := SetHeader(r5, "Referrer-Policy", Str(ReferrerPolicy), true);
    SetHeader(r6, "Permissions-Policy", Str(PermissionsPolicy), true)
  }

  /** What handle($request, $response, $next) returns. */
  function Handled(q: Req, r: Resp, next: Next): Outcome
  {
    match next(q, r)
    case Done(q1, r1) => Done(q1, Secure(r1))
    case Thrown(e) => Thrown(e)
  }

  /** The value each security header gets, as an independent table; None for every other header name. */
  function SecurityValue(name: string): Option<Value>
  {
    if name == "X-XSS-Protection" then Some(Str(Xss))
    else if name == "X-Content-Type-Options" then Some(Str(NoSniff))
    else if name == "X-Frame-Options" then Some(Str(SameOrigin))
    else if name == "Feature-Policy" then Some(Str(FeaturePolicy))
    else if name == "Content-Security-Policy" then Some(Str(Implode("; ", CspDirectives)))
    else if name == "Referrer-Policy" then Some(Str(ReferrerPolicy))
    else if name == "Permissions-Policy" then Some(Str(PermissionsPolicy))
    else None
  }

  /**
   * After Secure, each security header has its fixed value and every other
   * header, the status, the content, the content type and the charset are
   * those of the response next produced.
   */
  lemma SecureSpec(r: RespState, name: string)
    ensures Get(Secure(r).headers, name) == if SecurityValue(name).Some? then SecurityValue(name) else Get(r.headers, name)
    ensures var s := Secure(r);
      s.statusCode == r.statusCode && s.content == r.content && s.contentType == r.contentType && s.charset == r.charset
  {
    var r1 := SetHeader(r, "X-XSS-Protection", Str(Xss), true);
    var r2 := SetHeader(r1, "X-Content-Type-Options", Str(NoSniff), true);
    var r3 := SetHeader(r2, "X-Frame-Options", Str(SameOrigin), true);
    var r4 := SetHeader(r3, "Feature-Policy", Str(FeaturePolicy), true);
    var r5 := SetHeader(r4, "Content-Security-Policy", Str(Implode("; ", CspDirectives)), true);
    var r6 := SetHeader(r5, "Referrer-Policy", Str(ReferrerPolicy), true);
    SetHeaderSpec(r, "X-XSS-Protection", Str(Xss), true, name);
    SetHeaderSpec(r1, "X-Content-Type-Options", Str(NoSniff), true, name);
    SetHeaderSpec(r2, "X-Frame-Options", Str(SameOrigin), true, name);
    SetHeaderSpec(r3, "Feature-Policy", Str(FeaturePolicy), true, name);
    SetHeaderSpec(r4, "Content-Security-Policy", Str(Implode("; ", CspDirectives)), true, name);
    SetHeaderSpec(r5, "Referrer-Policy", Str(ReferrerPolicy), true, name);
    SetHeaderSpec(r6, "Permissions-Policy", Str(PermissionsPolicy), true, name);
  }

  /**
   * handle calls next once and returns its response, with the security
   * headers set and nothing else changed; Strict-Transport-Security is not
   * among them, and an exception from next passes through.
   */
  lemma HandledSpec(q: Req, r: Resp, next: Next, name: string)
    ensures var o := Handled(q, r, next);
      match next(q, r)
      case Done(q1, r1) =>
        && o.Done? && o.req == q1
        && Get(o.resp.headers, name) == (if SecurityValue(name).Some? then SecurityValue(name) else Get(r1.headers, name))
        && o.resp.statusCode == r1.statusCode && o.resp.content == r1.content
      case Thrown(e) => o == Thrown(e)
    ensures SecurityValue("Strict-Transport-Security") == None
  {
    match next(q, r)
    case Done(q1, r1) => SecureSpec(r1, name);
    case Thrown(e) =>
  }

  /** The policy has the eleven directives, starting with default-src and ending with form-action. */
  lemma CspShape()
    ensures |CspDirectives| == 11
    ensures IsPrefix("default-src 'self'; ", Implode("; ", CspDirectives))
  {
    var rest := Implode("; ", CspDirectives[1..]);
    assert Implode("; ", CspDirectives) == "default-src 'self'" + "; " + rest;
    assert ("default-src 'self'" + "; " + rest)[..20] == "default-src 'self'; ";
  }

  class SecurityHeadersMiddleware {
    constructor ()
    {
    }

    /** handle: next on the two objects, then the seven setHeader calls on the response it left. */
    method Handle(request: Request.Request, response: Response.Response, next: Next) returns (o: Outcome)
      modifies request, response
      ensures o == Handled(old(request.State()), old(response.State()), next)
      ensures o.Done? ==> request.State() == o.req && response.State() == o.resp
    {
      var after := next(request.State(), response.State());
      if after.Thrown? {
        return after;
      }
      request.Load(after.req);
      response.Load(after.resp);
      response.SetHeader("X-XSS-Protection", Str(Xss), true);
      response.SetHeader("X-Content-Type-Options", Str(NoSniff), true);
      response.SetHeader("X-Frame-Options", Str(SameOrigin), true);
      response.SetHeader("Feature-Policy", Str(FeaturePolicy), true);
      response.SetHeader("Content-Security-Policy", Str(Implode("; ", CspDirectives)), true);
      response.SetHeader("Referrer-Policy", Str(ReferrerPolicy), true);
      response.SetHeader("Permissions-Policy", Str(PermissionsPolicy), true);
      o := Done(request.State(), response.State());
    }
  }
}
