/**
 * Request normalisation (app/core/Request.php) as values.
 *
 * The superglobals a request is built from are one immutable Input record;
 * json_decode, parse_str, base64_decode, filter_var(FILTER_VALIDATE_IP) and
 * the path part of parse_url are the fields of a Codecs record.
 */
module RequestSpec {
  import opened Text
  import opened Php

  /**
   * What initialize() reads: $_SERVER, $_POST, $_GET, the request headers
   * as parseHeaders leaves them (lower-case names), the raw body and the
   * accepted media types as parseAcceptHeader orders them.
   */
  datatype Input = Input(server: Entries, post: Entries, get: Entries, headers: Entries, raw: string, accepts: seq<string>)

  datatype Codecs = Codecs(
    /** json_decode($raw, true) */
    jsonDecode: string -> Value,
    /** parse_str($raw, $out) */
    parseStr: string -> Entries,
    /** base64_decode: None for false */
    base64Decode: string -> Option<string>,
    /** filter_var($ip, FILTER_VALIDATE_IP) !== false */
    isValidIp: string -> bool,
    /** parse_url($uri, PHP_URL_PATH) */
    urlPath: string -> Value)

  /** The fields of a Request that the core reads and writes. */
  datatype ReqState = ReqState(
    verb: string, uri: string, path: Value, query: Entries, headers: Entries,
    contentType: Value, isJson: bool, clientIp: string, accepts: seq<string>,
    data: Entries, rawContent: string, params: Entries, user: Value, route: Value)

  /** `strpos($v, $needle) !== false`, with null read as ''. */
  predicate HasText(v: Value, needle: string) { Contains(ToStr(v), needle) }

  // ---------------------------------------------------------------------
  // initialize

  /** The method after override: only a POST is overridden, by `_method` before the header, both upper-cased. */
  function EffectiveMethod(input: Input): string
  {
    var m := ToStr(Lookup(input.server, "REQUEST_METHOD", Str("GET")));
    if m != "POST" then m
    else if Isset(input.post, KeyOf("_method")) then ToUpper(ToStr(Lookup(input.post, "_method", Null)))
    else if Isset(input.server, KeyOf("HTTP_X_HTTP_METHOD_OVERRIDE"))
    then ToUpper(ToStr(Lookup(input.server, "HTTP_X_HTTP_METHOD_OVERRIDE", Null)))
    else m
  }

  /** getHeader($name, $default): the lower-cased name looked up. */
  function HeaderOf(headers: Entries, name: string, default: Value): Value
  {
    Lookup(headers, ToLower(name), default)
  }

  /** parseRequestData: the body chosen by content type, re-parsed for an empty PUT, PATCH or DELETE. */
  function BodyData(verb: string, contentType: Value, isJson: bool, input: Input, codecs: Codecs): Entries
  {
    var d :=
      if isJson then
        (var j := codecs.jsonDecode(input.raw); if j.Arr? then j.entries else [])
      else if HasText(contentType, "application/x-www-form-urlencoded") then codecs.parseStr(input.raw)
      else input.post;
    if verb in ["PUT", "PATCH", "DELETE"] && |d| == 0 then codecs.parseStr(input.raw) else d
  }

  /** The keys detectClientIp consults, in order. */
  const IpKeys: seq<string> := ["HTTP_CLIENT_IP", "HTTP_X_FORWARDED_FOR", "HTTP_X_FORWARDED",
    "HTTP_X_CLUSTER_CLIENT_IP", "HTTP_FORWARDED_FOR", "HTTP_FORWARDED", "REMOTE_ADDR"]

  /** The candidate address in a server value: its first comma-separated entry, trimmed. */
  function IpCandidate(v: Value): string
  {
    Trim(Explode(',', ToStr(v))[0], Blanks)
  }

  /** Whether the key, if set, yields a valid candidate. */
  predicate IpFrom(server: Entries, key: string, codecs: Codecs)
  {
    Isset(server, KeyOf(key)) && codecs.isValidIp(IpCandidate(Get(server, KeyOf(key)).value))
  }

  /** detectClientIp over the given keys. */
  function FirstValidIp(server: Entries, keys: seq<string>, codecs: Codecs): string
    decreases |keys|
  {
    if keys == [] then "0.0.0.0"
    else if IpFrom(server, keys[0], codecs) then IpCandidate(Get(server, KeyOf(keys[0])).value)
    else FirstValidIp(server, keys[1..], codecs)
  }

  /** When no key yields a valid candidate, detectClientIp falls back to '0.0.0.0'. */
  lemma {:induction false} FirstValidIpNone(server: Entries, keys: seq<string>, codecs: Codecs)
    requires forall i :: 0 <= i < |keys| ==> !IpFrom(server, keys[i], codecs)
    ensures FirstValidIp(server, keys, codecs) == "0.0.0.0"
    decreases |keys|
  {
    if keys != [] {
      assert !IpFrom(server, keys[0], codecs);
      forall i | 0 <= i < |keys| - 1 ensures !IpFrom(server, keys[1..][i], codecs) {
        assert keys[1..][i] == keys[i + 1];
      }
      FirstValidIpNone(server, keys[1..], codecs);
    }
  }

  /** Keys that yield no valid candidate are passed over. */
  lemma {:induction false} SkipInvalid(server: Entries, keys: seq<string>, codecs: Codecs, i: nat)
    requires i <= |keys|
    requires forall j :: 0 <= j < i ==> !IpFrom(server, keys[j], codecs)
    ensures FirstValidIp(server, keys, codecs) == FirstValidIp(server, keys[i..], codecs)
    decreases i
  {
    if i > 0 {
      SkipInvalid(server, keys, codecs, i - 1);
      assert keys[i - 1..][0] == keys[i - 1];
      assert keys[i - 1..][1..] == keys[i..];
    }
  }

  /**
   * The address detectClientIp returns is the candidate of the first key
   * that yields a valid one, every earlier key yielding none.
   */
  lemma FirstValidIpFound(server: Entries, keys: seq<string>, codecs: Codecs, i: nat)
    requires i < |keys| && IpFrom(server, keys[i], codecs)
    requires forall j :: 0 <= j < i ==> !IpFrom(server, keys[j], codecs)
    ensures FirstValidIp(server, keys, codecs) == IpCandidate(Get(server, KeyOf(keys[i])).value)
  {
    SkipInvalid(server, keys, codecs, i);
    assert keys[i..][0] == keys[i];
  }

  /** initialize(): the request as the constructor leaves it, before routing. */
  function Initialize(input: Input, codecs: Codecs): ReqState
  {
    var verb := EffectiveMethod(input);
    var uri := ToStr(Lookup(input.server, "REQUEST_URI", Str("/")));
    var contentType := HeaderOf(input.headers, "Content-Type", Null);
    var isJson := HasText(contentType, "application/json");
    ReqState(verb, uri, codecs.urlPath(uri), input.get, input.headers, contentType, isJson,
             FirstValidIp(input.server, IpKeys, codecs), input.accepts,
             BodyData(verb, contentType, isJson, input, codecs), input.raw, [], Null, Null)
  }

  /** Method override: `_method` wins over the header, both upper-cased, and only a POST is overridden. */
  lemma MethodOverride(input: Input, codecs: Codecs)
    ensures Lookup(input.server, "REQUEST_METHOD", Null) != Str("POST") && Isset(input.server, KeyOf("REQUEST_METHOD"))
      ==> EffectiveMethod(input) == ToStr(Get(input.server, KeyOf("REQUEST_METHOD")).value)
    ensures !Isset(input.server, KeyOf("REQUEST_METHOD")) ==> EffectiveMethod(input) == "GET"
    ensures Lookup(input.server, "REQUEST_METHOD", Null) == Str("POST") && Isset(input.post, KeyOf("_method"))
      ==> EffectiveMethod(input) == ToUpper(ToStr(Get(input.post, KeyOf("_method")).value))
    ensures Initialize(input, codecs).verb == EffectiveMethod(input)
  {
  }

  /**
   * Body selection: JSON decodes the raw body (a non-array giving []);
   * urlencoded parses it; everything else uses the POST fields; an empty
   * body of a PUT, PATCH or DELETE is re-parsed as urlencoded.
   */
  lemma BodySelection(verb: string, contentType: Value, isJson: bool, input: Input, codecs: Codecs)
    ensures var d := BodyData(verb, contentType, isJson, input, codecs);
      && (isJson && codecs.jsonDecode(input.raw).Arr? && |codecs.jsonDecode(input.raw).entries| > 0
          ==> d == codecs.jsonDecode(input.raw).entries)
      && (isJson && !codecs.jsonDecode(input.raw).Arr? && verb !in ["PUT", "PATCH", "DELETE"] ==> d == [])
      && (!isJson && !HasText(contentType, "application/x-www-form-urlencoded") && |input.post| > 0 ==> d == input.post)
      && (verb in ["PUT", "PATCH", "DELETE"] && isJson && !codecs.jsonDecode(input.raw).Arr?
          ==> d == codecs.parseStr(input.raw))
      && (!isJson && HasText(contentType, "application/x-www-form-urlencoded") ==> d == codecs.parseStr(input.raw))
  {
  }

  // ---------------------------------------------------------------------
  // Accessors

  /** getData($name, $default): everything for null or '', else the value when set and not ''. */
  function GetData(r: ReqState, name: Option<string>, default: Value): Value
  {
    if name.None? || name.value == "" then Arr(r.data)
    else if Isset(r.data, KeyOf(name.value)) && Get(r.data, KeyOf(name.value)).value != Str("") then
      Get(r.data, KeyOf(name.value)).value
    else default
  }

  /** `$request->getData($name)`, with no default. */
  function Param(q: ReqState, name: string): Value { GetData(q, Some(name), Null) }

  /** setData($name, $value) */
  function SetData(r: ReqState, name: string, value: Value): ReqState
  {
    r.(data := Put(r.data, KeyOf(name), value))
  }

  function SetParams(r: ReqState, params: Entries): ReqState { r.(params := params) }
  function SetUser(r: ReqState, user: Value): ReqState { r.(user := user) }
  function SetRoute(r: ReqState, route: Value): ReqState { r.(route := route) }

  /**
   * setData then getData returns the value unless it reads as absent (null
   * or ''), and every other body key keeps its value.
   */
  lemma GetDataSetData(r: ReqState, name: string, value: Value, other: string, default: Value)
    requires name != ""
    ensures GetData(SetData(r, name, value), Some(name), default)
         == if value == Null || value == Str("") then default else value
    ensures KeyOf(other) != KeyOf(name) ==>
      Get(SetData(r, name, value).data, KeyOf(other)) == Get(r.data, KeyOf(other))
    ensures SetData(r, name, value).verb == r.verb && SetData(r, name, value).params == r.params
  {
    GetPut(r.data, KeyOf(name), value, KeyOf(name));
    GetPut(r.data, KeyOf(name), value, KeyOf(other));
  }

  /** getData treats a stored '' like a missing key. */
  lemma EmptyStringAbsent(r: ReqState, name: string, default: Value)
    requires name != "" && Get(r.data, KeyOf(name)) == Some(Str(""))
    ensures GetData(r, Some(name), default) == default
  {
  }

  function GetQuery(r: ReqState, name: string, default: Value): Value { Lookup(r.query, name, default) }

  /** input($name): the first of params, query and body where the key is set. */
  function InputOf(r: ReqState, name: string, default: Value): Value
  {
    var k := KeyOf(name);
    if Isset(r.params, k) then Get(r.params, k).value
    else if Isset(r.query, k) then Get(r.query, k).value
    else if Isset(r.data, k) then Get(r.data, k).value
    else default
  }

  /** all(): array_merge(params, query, body). */
  function All(r: ReqState): Entries { MergeAll(r.params + r.query + r.data) }

  /**
   * For a string key, all() takes the body's value over the query's over
   * the params', the reverse of input()'s order.
   */
  lemma AllPrecedence(r: ReqState, s: string)
    ensures Get(All(r), StrKey(s))
         == if LastGet(r.data, StrKey(s)).Some? then LastGet(r.data, StrKey(s))
            else if LastGet(r.query, StrKey(s)).Some? then LastGet(r.query, StrKey(s))
            else LastGet(r.params, StrKey(s))
  {
    MergeAllStrKey(r.params + r.query + r.data, s);
    LastGetAppend(r.params + r.query, r.data, StrKey(s));
    LastGetAppend(r.params, r.query, StrKey(s));
  }

  /** With 'x' set in both params and body, input gives the params' value and all() the body's. */
  lemma InputAllDisagree(r: ReqState, a: Value, b: Value)
    requires r.params == [(StrKey("x"), a)] && r.query == [] && r.data == [(StrKey("x"), b)]
    requires a != Null
    ensures InputOf(r, "x", Null) == a
    ensures Get(All(r), StrKey("x")) == Some(b)
  {
    assert !IsCanonicalInt("x");
    AllPrecedence(r, "x");
  }

  /** has($name): isset in all(). */
  predicate HasInput(all: Entries, name: string) { Isset(all, KeyOf(name)) }

  /** only($keys), as its loop builds it. */
  function OnlyOf(all: Entries, keys: seq<string>): Entries
    decreases |keys|
  {
    if keys == [] then []
    else
      var acc := OnlyOf(all, keys[..|keys| - 1]);
      var k := KeyOf(keys[|keys| - 1]);
      if Isset(all, k) then Put(acc, k, Get(all, k).value) else acc
  }

  predicate Listed(keys: seq<string>, k: Key) { exists i :: 0 <= i < |keys| && KeyOf(keys[i]) == k }

  /** only keeps exactly the listed keys that are set in all(), with their values. */
  lemma {:induction false} OnlySpec(all: Entries, keys: seq<string>, k: Key)
    ensures Get(OnlyOf(all, keys), k) == if Listed(keys, k) && Isset(all, k) then Get(all, k) else None
    decreases |keys|
  {
    if keys != [] {
      var init := keys[..|keys| - 1];
      OnlySpec(all, init, k);
      var kk := KeyOf(keys[|keys| - 1]);
      if Isset(all, kk) {
        GetPut(OnlyOf(all, init), kk, Get(all, kk).value, k);
      }
      if Listed(keys, k) && kk != k {
        var i :| 0 <= i < |keys| && KeyOf(keys[i]) == k;
        assert i < |init| && init[i] == keys[i];
      }
      if Listed(init, k) {
        var i :| 0 <= i < |init| && KeyOf(init[i]) == k;
        assert keys[i] == init[i];
      }
    }
  }

  /** except($keys), as its loop builds it. */
  function ExceptOf(all: Entries, keys: seq<string>): Entries
    decreases |keys|
  {
    if keys == [] then all else Remove(ExceptOf(all, keys[..|keys| - 1]), KeyOf(keys[|keys| - 1]))
  }

  /** except removes the listed keys and keeps every other entry of all(). */
  lemma {:induction false} ExceptSpec(all: Entries, keys: seq<string>, k: Key)
    ensures Get(ExceptOf(all, keys), k) == if Listed(keys, k) then None else Get(all, k)
    decreases |keys|
  {
    if keys != [] {
      var init := keys[..|keys| - 1];
      ExceptSpec(all, init, k);
      GetRemove(ExceptOf(all, init), KeyOf(keys[|keys| - 1]), k);
      if Listed(keys, k) && KeyOf(keys[|keys| - 1]) != k {
        var i :| 0 <= i < |keys| && KeyOf(keys[i]) == k;
        assert i < |init| && init[i] == keys[i];
      }
      if Listed(init, k) {
        var i :| 0 <= i < |init| && KeyOf(init[i]) == k;
        assert keys[i] == init[i];
      }
    }
  }

  // ---------------------------------------------------------------------
  // Credentials and content negotiation

  /** getBearerToken(): body 'accessToken' when the key exists, even when null. */
  function BearerToken(r: ReqState): Value
  {
    if KeyExists(r.data, StrKey("accessToken")) then Get(r.data, StrKey("accessToken")).value else Null
  }

  /**
   * getBearerToken reads the body key itself, not through getData: a missing
   * key gives null, and a stored value, null and '' included, comes back as it is.
   */
  lemma BearerTokenSpec(r: ReqState, v: Value)
    ensures !KeyExists(r.data, StrKey("accessToken")) ==> BearerToken(r) == Null
    ensures BearerToken(SetData(r, "accessToken", v)) == v
  {
    assert KeyOf("accessToken") == StrKey("accessToken");
    GetPut(r.data, StrKey("accessToken"), v, StrKey("accessToken"));
  }

  /**
   * getBasicAuth(): for an Authorization value 'Basic <b64>' whose decoding
   * contains ':', the text before the first ':' and the text after it.
   */
  function BasicAuth(r: ReqState, codecs: Codecs): Option<(string, string)>
  {
    var h := HeaderOf(r.headers, "Authorization", Null);
    if IsEmpty(h) || !IsPrefix("Basic ", ToStr(h)) then None
    else match codecs.base64Decode(ToStr(h)[6..])
      case None => None
      case Some(c) =>
        var i := IndexOf(c, ':');
        if i == |c| then None else Some((c[..i], c[i + 1..]))
  }

  /**
   * The user-id and password of section 2 of RFC 7617: a decoded value
   * user-id ':' password, with no ':' in the user-id, splits back into the
   * two; a password may itself contain ':'.
   */
  lemma BasicAuthRoundTrip(r: ReqState, codecs: Codecs, encoded: string, user: string, password: string)
    requires HeaderOf(r.headers, "Authorization", Null) == Str("Basic " + encoded)
    requires codecs.base64Decode(encoded) == Some(user + ":" + password)
    requires ':' !in user
    ensures BasicAuth(r, codecs) == Some((user, password))
  {
    var h := "Basic " + encoded;
    assert h[..6] == "Basic ";
    assert h[6..] == encoded;
    var c := user + ":" + password;
    assert c[|user|] == ':';
    forall j | 0 <= j < |user| ensures c[j] != ':' { assert c[j] == user[j]; }
    assert IndexOf(c, ':') == |user|;
    assert c[..|user|] == user;
    assert c[|user| + 1..] == password;
  }

  /** Credentials found always come from a decoded value user ':' password with no ':' in user. */
  lemma BasicAuthSplit(r: ReqState, codecs: Codecs)
    requires BasicAuth(r, codecs).Some?
    ensures var h := ToStr(HeaderOf(r.headers, "Authorization", Null));
      var (u, p) := BasicAuth(r, codecs).value;
      && IsPrefix("Basic ", h) && ':' !in u
      && codecs.base64Decode(h[6..]) == Some(u + ":" + p)
  {
    var h := ToStr(HeaderOf(r.headers, "Authorization", Null));
    var c := codecs.base64Decode(h[6..]).value;
    var i := IndexOf(c, ':');
    assert c == c[..i] + ":" + c[i + 1..];
    assert ':' !in c[..i] by {
      forall j | 0 <= j < i ensures c[..i][j] != ':' { assert c[..i][j] == c[j]; }
    }
  }

  /** `in_array($s, $list)` on a list of strings. */
  predicate InStrings(s: string, list: seq<string>)
  {
    exists i :: 0 <= i < |list| && LooseEq(Str(s), Str(list[i]))
  }

  /** accepts($contentType): anything, the exact type, or its type with any subtype. */
  predicate Accepts(r: ReqState, contentType: string)
  {
    InStrings("*/*", r.accepts) || InStrings(contentType, r.accepts)
    || InStrings(Explode('/', contentType)[0] + "/*", r.accepts)
  }

  /** A wildcard entry accepts any type. */
  lemma AcceptsAny(r: ReqState, contentType: string)
    requires "*/*" in r.accepts
    ensures Accepts(r, contentType)
  {
    var i :| 0 <= i < |r.accepts| && r.accepts[i] == "*/*";
    assert LooseEq(Str("*/*"), Str(r.accepts[i]));
  }

  /** An entry naming the type exactly accepts it. */
  lemma AcceptsExact(r: ReqState, contentType: string)
    requires contentType in r.accepts
    ensures Accepts(r, contentType)
  {
    var i :| 0 <= i < |r.accepts| && r.accepts[i] == contentType;
    assert LooseEq(Str(contentType), Str(r.accepts[i]));
  }

  /** The type with a wildcard subtype accepts every subtype of that type. */
  lemma AcceptsFamily(r: ReqState, t: string, sub: string)
    requires '/' !in t && t + "/*" in r.accepts
    ensures Accepts(r, t + "/" + sub)
  {
    MainType(t, sub);
    var i :| 0 <= i < |r.accepts| && r.accepts[i] == t + "/*";
    assert LooseEq(Str(t + "/*"), Str(r.accepts[i]));
  }

  /** The part before the first '/' of "t/sub" is t. */
  lemma MainType(t: string, sub: string)
    requires '/' !in t
    ensures Explode('/', t + "/" + sub)[0] == t
  {
    var s := t + "/" + sub;
    assert s[|t|] == '/';
    forall j | 0 <= j < |t| ensures s[j] != '/' { assert s[j] == t[j]; }
    assert IndexOf(s, '/') == |t|;
    assert s[..|t|] == t;
  }

  // ---------------------------------------------------------------------
  // Pagination, sorting, filtering

  function Max(a: int, b: int): int { if a >= b then a else b }
  function Min(a: int, b: int): int { if a <= b then a else b }

  /** getPaginationParams: page, limit and offset from the query. */
  function PaginationParams(r: ReqState, defaultPage: Value, defaultLimit: Value, maxLimit: int): (int, int, int)
  {
    var page := Max(1, IntVal(GetQuery(r, "page", defaultPage)));
    var limit := Min(maxLimit, Max(1, IntVal(GetQuery(r, "limit", defaultLimit))));
    (page, limit, (page - 1) * limit)
  }

  /** page is at least 1, limit between 1 and maxLimit (when maxLimit allows it) and offset skips the earlier pages. */
  lemma PaginationBounds(r: ReqState, defaultPage: Value, defaultLimit: Value, maxLimit: int)
    ensures var (page, limit, offset) := PaginationParams(r, defaultPage, defaultLimit, maxLimit);
      && page >= 1 && limit <= maxLimit && (maxLimit >= 1 ==> limit >= 1)
      && offset == (page - 1) * limit
      && (1 <= IntVal(GetQuery(r, "page", defaultPage)) ==> page == IntVal(GetQuery(r, "page", defaultPage)))
      && (1 <= IntVal(GetQuery(r, "limit", defaultLimit)) <= maxLimit ==> limit == IntVal(GetQuery(r, "limit", defaultLimit)))
  {
  }

  /** getSortParams: the sort field and the lower-cased direction, each falling back to its default. */
  function SortParams(r: ReqState, defaultField: Value, defaultDirection: Value, allowed: seq<Value>): (Value, Value)
  {
    var field := GetQuery(r, "sort", defaultField);
    var direction := ToLower(ToStr(GetQuery(r, "direction", defaultDirection)));
    var f := if |allowed| > 0 && !InArrayLoose(field, allowed) then defaultField else field;
    var d := if !InArrayLoose(Str(direction), [Str("asc"), Str("desc")]) then defaultDirection else Str(direction);
    (f, d)
  }

  /** The field is allowed or the default; the direction is 'asc', 'desc' or the default. */
  lemma SortBounds(r: ReqState, defaultField: Value, defaultDirection: Value, allowed: seq<Value>)
    ensures var (f, d) := SortParams(r, defaultField, defaultDirection, allowed);
      && (f == defaultField || |allowed| == 0 || InArrayLoose(f, allowed))
      && (d == defaultDirection || d == Str("asc") || d == Str("desc"))
  {
    var direction := ToLower(ToStr(GetQuery(r, "direction", defaultDirection)));
    if InArrayLoose(Str(direction), [Str("asc"), Str("desc")]) {
      var i :| 0 <= i < 2 && LooseEq(Str(direction), [Str("asc"), Str("desc")][i]);
      if i == 0 { WordLoose(direction, "asc"); } else { WordLoose(direction, "desc"); }
    }
  }

  /** The query keys getFilterParams never passes on. */
  const ReservedKeys: seq<Value> := [Str("page"), Str("limit"), Str("sort"), Str("direction")]

  /** The reserved keys as keys: exact text, since no integer key equals a word. */
  predicate IsReserved(k: Key)
  {
    k.StrKey? && (k.s == "page" || k.s == "limit" || k.s == "sort" || k.s == "direction")
  }

  /** `in_array($key, ['page', 'limit', 'sort', 'direction'])` holds exactly for the four keys. */
  lemma ReservedSpec(k: Key)
    ensures InArrayLoose(KeyValue(k), ReservedKeys) <==> IsReserved(k)
  {
    var v, ws := KeyValue(k), ReservedKeys;
    assert InArrayLoose(v, ws) <==> LooseEq(v, ws[0]) || LooseEq(v, ws[1]) || LooseEq(v, ws[2]) || LooseEq(v, ws[3]) by {
      if InArrayLoose(v, ws) {
        var i :| 0 <= i < |ws| && LooseEq(v, ws[i]);
        assert i == 0 || i == 1 || i == 2 || i == 3;
      }
    }
    match k
    case IntKey(n) =>
      WordNotIntLoose(n, "page"); WordNotIntLoose(n, "limit"); WordNotIntLoose(n, "sort"); WordNotIntLoose(n, "direction");
    case StrKey(s) =>
      WordLoose(s, "page"); WordLoose(s, "limit"); WordLoose(s, "sort"); WordLoose(s, "direction");
  }

  /** Whether getFilterParams keeps a query key: not reserved and, for a non-empty allowed list, listed. */
  predicate FilterKeeps(k: Key, allowed: seq<Value>)
  {
    !IsReserved(k) && (|allowed| == 0 || InArrayLoose(KeyValue(k), allowed))
  }

  /** FilterKeeps as a value, so that the loop and its specification name the same filter. */
  function Keeper(allowed: seq<Value>): Key -> bool
  {
    k => FilterKeeps(k, allowed)
  }

  /** The loop of getFilterParams over the first n query entries, keeping the keys keep accepts. */
  function FilterPrefix(query: Entries, n: nat, keep: Key -> bool): Entries
    requires n <= |query|
  {
    if n == 0 then []
    else
      var acc := FilterPrefix(query, n - 1, keep);
      if keep(query[n - 1].0) then Put(acc, query[n - 1].0, query[n - 1].1) else acc
  }

  /** getFilterParams($allowedFilters) */
  function FilterParams(query: Entries, allowed: seq<Value>): Entries
  {
    FilterPrefix(query, |query|, Keeper(allowed))
  }

  /** The filters are exactly the kept query entries, with their values. */
  lemma {:induction false} FilterPrefixSpec(query: Entries, n: nat, keep: Key -> bool, k: Key)
    requires n <= |query| && UniqueKeys(query)
    ensures Get(FilterPrefix(query, n, keep), k) == if keep(k) then Get(query[..n], k) else None
  {
    if n > 0 {
      FilterPrefixSpec(query, n - 1, keep, k);
      var e := query[n - 1];
      assert query[..n][..n - 1] == query[..n - 1];
      GetLast(query[..n], k);
      if keep(e.0) {
        GetPut(FilterPrefix(query, n - 1, keep), e.0, e.1, k);
      }
    }
  }

  /**
   * A query key reaches the filters exactly when it is not one of page,
   * limit, sort and direction and, for a non-empty allowed list, is listed.
   */
  lemma FilterSpec(query: Entries, allowed: seq<Value>, k: Key)
    requires UniqueKeys(query)
    ensures Get(FilterParams(query, allowed), k)
         == if !InArrayLoose(KeyValue(k), ReservedKeys) && (|allowed| == 0 || InArrayLoose(KeyValue(k), allowed))
            then Get(query, k) else None
  {
    ReservedSpec(k);
    FilterPrefixSpec(query, |query|, Keeper(allowed), k);
    assert query[..|query|] == query;
  }

  /** getSearchQuery($name): the query value, or null when it is empty. */
  function SearchQuery(r: ReqState, name: string): Value
  {
    var q := GetQuery(r, name, Null);
    if IsEmpty(q) then Null else q
  }
}

/** The Request object: the normalised input plus what routing and middleware attach. */
module Request {
  import opened Text
  import opened Php
  import opened RequestSpec
  import ValidatorSpec
  import Validator

  class Request {
    var verb: string
    var uri: string
    var path: Value
    var query: Entries
    var headers: Entries
    var contentType: Value
    var isJson: bool
    var clientIp: string
    var accepts: seq<string>
    var data: Entries
    var rawContent: string
    var params: Entries
    var user: Value
    var route: Value

    function State(): ReqState
      reads this
    {
      ReqState(verb, uri, path, query, headers, contentType, isJson, clientIp, accepts, data, rawContent, params, user, route)
    }

    /** Takes over the fields of a request state (a `$next` that returned a changed request). */
    method Load(s: ReqState)
      modifies this
      ensures State() == s
    {
      LoadTransport(s);
      LoadDerived(s);
    }

    method LoadTransport(s: ReqState)
      modifies this
      ensures verb == s.verb && uri == s.uri && path == s.path && query == s.query && headers == s.headers
      ensures contentType == s.contentType && isJson == s.isJson
      ensures clientIp == old(clientIp) && accepts == old(accepts) && data == old(data) && rawContent == old(rawContent)
      ensures params == old(params) && user == old(user) && route == old(route)
    {
      verb, uri, path, query, headers, contentType, isJson := s.verb, s.uri, s.path, s.query, s.headers, s.contentType, s.isJson;
    }

    method LoadDerived(s: ReqState)
      modifies this
      ensures clientIp == s.clientIp && accepts == s.accepts && data == s.data && rawContent == s.rawContent
      ensures params == s.params && user == s.user && route == s.route
      ensures verb == old(verb) && uri == old(uri) && path == old(path) && query == old(query) && headers == old(headers)
      ensures contentType == old(contentType) && isJson == old(isJson)
    {
      clientIp, accepts, data, rawContent, params, user, route := s.clientIp, s.accepts, s.data, s.rawContent, s.params, s.user, s.route;
    }

    /** The constructor: initialize() over the input record. */
    constructor (input: Input, codecs: Codecs)
      ensures State() == Initialize(input, codecs)
    {
      var m := EffectiveMethod(input);
      var u := ToStr(Lookup(input.server, "REQUEST_URI", Str("/")));
      var ct := HeaderOf(input.headers, "Content-Type", Null);
      var json := HasText(ct, "application/json");
      var ip := DetectClientIp(input.server, codecs);
      verb := m;
      uri := u;
      path := codecs.urlPath(u);
      query := input.get;
      headers := input.headers;
      contentType := ct;
      isJson := json;
      clientIp := ip;
      accepts := input.accepts;
      data := BodyData(m, ct, json, input, codecs);
      rawContent := input.raw;
      params := [];
      user := Null;
      route := Null;
    }

    /** detectClientIp(): the keys tried in order. */
    static method DetectClientIp(server: Entries, codecs: Codecs) returns (ip: string)
      ensures ip == FirstValidIp(server, IpKeys, codecs)
    {
      var i := 0;
      while i < |IpKeys|
        invariant 0 <= i <= |IpKeys|
        invariant FirstValidIp(server, IpKeys[i..], codecs) == FirstValidIp(server, IpKeys, codecs)
      {
        var key := IpKeys[i];
        if Isset(server, KeyOf(key)) {
          var candidate := IpCandidate(Get(server, KeyOf(key)).value);
          if codecs.isValidIp(candidate) {
            return candidate;
          }
        }
        assert IpKeys[i..][1..] == IpKeys[i + 1..];
        i := i + 1;
      }
      return "0.0.0.0";
    }

    method SetData(name: string, value: Value)
      modifies this
      ensures State() == RequestSpec.SetData(old(State()), name, value)
    {
      var allData := data;
      allData := Put(allData, KeyOf(name), value);
      data := allData;
    }

    method SetParams(p: Entries)
      modifies this
      ensures State() == RequestSpec.SetParams(old(State()), p)
    {
      params := p;
    }

    method SetUser(u: Value)
      modifies this
      ensures State() == RequestSpec.SetUser(old(State()), u)
    {
      user := u;
    }

    method SetRoute(r: Value)
      modifies this
      ensures State() == RequestSpec.SetRoute(old(State()), r)
    {
      route := r;
    }

    /** only($keys) */
    method Only(keys: seq<string>) returns (result: Entries)
      ensures result == OnlyOf(All(State()), keys)
    {
      var allInputs := All(State());
      result := [];
      var i := 0;
      while i < |keys|
        invariant 0 <= i <= |keys|
        invariant result == OnlyOf(allInputs, keys[..i])
      {
        assert keys[..i + 1][..i] == keys[..i];
        var k := KeyOf(keys[i]);
        if Isset(allInputs, k) {
          result := Put(result, k, Get(allInputs, k).value);
        }
        i := i + 1;
      }
      assert keys[..i] == keys;
    }

    /** except($keys) */
    method Except(keys: seq<string>) returns (result: Entries)
      ensures result == ExceptOf(All(State()), keys)
    {
      result := All(State());
      var i := 0;
      while i < |keys|
        invariant 0 <= i <= |keys|
        invariant result == ExceptOf(All(State()), keys[..i])
      {
        assert keys[..i + 1][..i] == keys[..i];
        result := Remove(result, KeyOf(keys[i]));
        i := i + 1;
      }
      assert keys[..i] == keys;
    }

    /** hasAll($names): false at the first name not set. */
    method HasAll(names: seq<string>) returns (b: bool)
      ensures b <==> forall i :: 0 <= i < |names| ==> HasInput(All(State()), names[i])
    {
      var allInputs := All(State());
      var i := 0;
      while i < |names|
        invariant 0 <= i <= |names|
        invariant forall j :: 0 <= j < i ==> HasInput(allInputs, names[j])
      {
        if !Isset(allInputs, KeyOf(names[i])) {
          return false;
        }
        i := i + 1;
      }
      return true;
    }

    /** hasAny($names): true at the first name set. */
    method HasAny(names: seq<string>) returns (b: bool)
      ensures b <==> exists i :: 0 <= i < |names| && HasInput(All(State()), names[i])
    {
      var allInputs := All(State());
      var i := 0;
      while i < |names|
        invariant 0 <= i <= |names|
        invariant forall j :: 0 <= j < i ==> !HasInput(allInputs, names[j])
      {
        if Isset(allInputs, KeyOf(names[i])) {
          return true;
        }
        i := i + 1;
      }
      return false;
    }

    /** validate($rules): a fresh Validator run over all(), its errors returned. */
    method Validate(rules: ValidatorSpec.Rules, checks: ValidatorSpec.Checks) returns (errors: ValidatorSpec.Errors)
      ensures errors == ValidatorSpec.ValidateAll(All(State()), rules, [], checks)
    {
      var validator := new Validator.Validator();
      var _ := validator.Validate(All(State()), rules, checks);
      errors := validator.errors;
    }

    /** getFilterParams($allowedFilters) */
    method GetFilterParams(allowed: seq<Value>) returns (filters: Entries)
      ensures filters == FilterParams(query, allowed)
    {
      var q := query;
      var keep := Keeper(allowed);
      filters := [];
      var i := 0;
      while i < |q|
        invariant 0 <= i <= |q|
        invariant filters == FilterPrefix(q, i, keep)
      {
        var e := q[i];
        if keep(e.0) {
          filters := Put(filters, e.0, e.1);
        }
        i := i + 1;
      }
    }
  }
}
