/**
 * The router and dispatcher (app/core/Router.php).
 *
 * RouterSpec is the router's state as a value and every operation as a
 * function of it: registration (routes, groups, middleware, patterns,
 * handlers), lookup, the middleware chain and dispatch. Route handlers and
 * middleware are function values over the request and response states; a
 * group's callback is the list of registration calls it makes. The class
 * Router in module Router holds the same state in fields and is specified
 * by these functions.
 */
module RouterSpec {
  import opened Text
  import opened Php
  import opened RouteTemplate
  import RequestSpec
  import ResponseSpec

  type Req = RequestSpec.ReqState
  type Resp = ResponseSpec.RespState

  /** What running a handler leaves: the request and the response, or the message of an exception. */
  datatype Outcome = Done(req: Req, resp: Resp) | Thrown(message: string)

  /** The `$next` closure a middleware receives. */
  type Next = (Req, Resp) -> Outcome

  /** A middleware's handle($request, $response, $next). */
  type Middleware = (Req, Resp, Next) -> Outcome

  /** A callable handler, given the request, the response and the extra arguments. */
  type Callable = (Req, Resp, seq<Value>) -> Outcome

  /** A route handler: a "Controller@action" string or a callable. */
  datatype Handler = Action(text: string) | Call(run: Callable)

  /** An entry of a middleware list: a name (alias or class name) or a callable. */
  datatype MwRef = MwName(name: string) | MwCall(run: Middleware)

  /** A middleware argument: `is_array($m) ? $m : [$m]`. */
  datatype MwArg = One(item: MwRef) | Many(items: seq<MwRef>)

  function MwList(arg: MwArg): seq<MwRef>
  {
    match arg
    case One(m) => [m]
    case Many(ms) => ms
  }

  /** What class_exists and method_exists say about a class and one of its methods. */
  datatype Lookup<T> = NoClass | NoMethod | Found(f: T)

  /** The application's classes: middleware classes with `handle`, controllers with their actions. */
  datatype Classes = Classes(
    middleware: string -> Lookup<Middleware>,
    actions: (string, string) -> Lookup<Callable>)

  datatype Result<T> = Ok(value: T) | Err(message: string)

  /** One entry of `$routes[$method]`. */
  datatype RouteEntry = RouteEntry(route: string, template: Option<seq<Part>>, handler: Handler, middleware: seq<MwRef>)

  /** One entry of `$namedRoutes`. */
  datatype NamedRoute = NamedRoute(verb: string, route: string, template: Option<seq<Part>>, handler: Handler)

  datatype RouterState = RouterState(
    routes: seq<(string, seq<RouteEntry>)>,
    named: seq<(string, NamedRoute)>,
    prefix: string,
    groupMiddleware: seq<MwRef>,
    globalMiddleware: seq<MwRef>,
    aliases: seq<(string, string)>,
    basePath: string,
    patterns: Patterns,
    notFound: Handler,
    methodNotAllowed: Handler,
    lastMethod: Option<string>)

  /** `$methods`, in their declared order. */
  const Methods: seq<string> := ["GET", "POST", "PUT", "PATCH", "DELETE", "OPTIONS"]

  /** The texts of a list value's elements. */
  function TextsOf(v: Value): seq<string>
  {
    var es := EntriesOf(v);
    seq(|es|, i requires 0 <= i < |es| => ToStr(es[i].1))
  }

  /** The constructor's not-found handler: a 404 envelope naming the request path. */
  function DefaultNotFound(q: Req, r: Resp, args: seq<Value>): Outcome
  {
    Done(q, ResponseSpec.NotFound(r, Str("Route not found: " + ToStr(q.path))))
  }

  /** The constructor's method-not-allowed handler: `Allow` with the allowed methods, then a 405 envelope. */
  function DefaultMethodNotAllowed(q: Req, r: Resp, args: seq<Value>): Outcome
  {
    var allowed := if |args| > 0 then TextsOf(args[0]) else [];
    var r1 := ResponseSpec.SetHeader(r, "Allow", Str(Implode(", ", allowed)), true);
    Done(q, ResponseSpec.Error(r1, Str("Method not allowed: " + q.verb), Int(405), Null))
  }

  /** new Router($basePath) */
  function Initial(basePath: string): RouterState
  {
    RouterState(
      routes := [("GET", []), ("POST", []), ("PUT", []), ("PATCH", []), ("DELETE", []), ("OPTIONS", [])],
      named := [], prefix := "", groupMiddleware := [], globalMiddleware := [], aliases := [],
      basePath := basePath, patterns := DefaultPatterns,
      notFound := Call(DefaultNotFound), methodNotAllowed := Call(DefaultMethodNotAllowed),
      lastMethod := None)
  }

  /** The routes registered for a method (none when the method has no list). */
  function RoutesFor(s: RouterState, verb: string): seq<RouteEntry>
  {
    match Get(s.routes, verb)
    case None => []
    case Some(list) => list
  }

  // ---------------------------------------------------------------------
  // Registration

  /** The path addRoute stores: group prefix, '/', the trimmed route, normalised. */
  function RoutePath(s: RouterState, route: string): string
  {
    NormalizePath(s.basePath, s.prefix + "/" + Trim(route, {'/'}))
  }

  /** The entry addRoute appends, which inherits the current group middleware. */
  function EntryFor(s: RouterState, route: string, handler: Handler): RouteEntry
  {
    var path := RoutePath(s, route);
    RouteEntry(path, Compile(path, s.patterns), handler, s.groupMiddleware)
  }

  /** addRoute($method, $route, $handler, $name) */
  function AddRoute(s: RouterState, verb: string, route: string, handler: Handler, name: Option<string>): RouterState
  {
    var e := EntryFor(s, route, handler);
    var named := if name.Some? then Put(s.named, name.value, NamedRoute(verb, e.route, e.template, handler)) else s.named;
    s.(routes := Put(s.routes, verb, RoutesFor(s, verb) + [e]), named := named, lastMethod := Some(verb))
  }

  /**
   * addRoute appends one entry to the method's list and changes no other
   * list; the entry's path is normalised and it carries the group
   * middleware; the method becomes the last method, and the name, when
   * given, is bound to the route.
   */
  lemma AddRouteSpec(s: RouterState, verb: string, route: string, handler: Handler, name: Option<string>, other: string)
    ensures var t := AddRoute(s, verb, route, handler, name);
      && RoutesFor(t, verb) == RoutesFor(s, verb) + [EntryFor(s, route, handler)]
      && (other != verb ==> RoutesFor(t, other) == RoutesFor(s, other))
      && t.lastMethod == Some(verb)
      && t.prefix == s.prefix && t.groupMiddleware == s.groupMiddleware && t.globalMiddleware == s.globalMiddleware
      && (name.Some? ==> Get(t.named, name.value) == Some(NamedRoute(verb, RoutePath(s, route), Compile(RoutePath(s, route), s.patterns), handler)))
      && (name.None? ==> t.named == s.named)
    ensures EntryFor(s, route, handler).middleware == s.groupMiddleware
    ensures var p := EntryFor(s, route, handler).route;
      |p| >= 1 && p[0] == '/' && '?' !in p && (p == "/" || p[|p| - 1] != '/')
  {
    var t := AddRoute(s, verb, route, handler, name);
    GetPut(s.routes, verb, RoutesFor(s, verb) + [EntryFor(s, route, handler)], verb);
    GetPut(s.routes, verb, RoutesFor(s, verb) + [EntryFor(s, route, handler)], other);
    if name.Some? {
      GetPut(s.named, name.value, NamedRoute(verb, RoutePath(s, route), Compile(RoutePath(s, route), s.patterns), handler), name.value);
    }
    NormalizePathShape(s.basePath, s.prefix + "/" + Trim(route, {'/'}));
  }

  /** map($methods, ...): addRoute for each method, uppercased, in order. */
  function MapRoutes(s: RouterState, verbs: seq<string>, route: string, handler: Handler, name: Option<string>): RouterState
    decreases |verbs|
  {
    if verbs == [] then s
    else AddRoute(MapRoutes(s, verbs[..|verbs| - 1], route, handler, name), ToUpper(verbs[|verbs| - 1]), route, handler, name)
  }

  lemma MapRoutesStep(s: RouterState, verbs: seq<string>, i: nat, route: string, handler: Handler, name: Option<string>)
    requires i < |verbs|
    ensures MapRoutes(s, verbs[..i + 1], route, handler, name)
         == AddRoute(MapRoutes(s, verbs[..i], route, handler, name), ToUpper(verbs[i]), route, handler, name)
  {
    assert verbs[..i + 1][..i] == verbs[..i];
  }

  /** One action of resource/apiResource: its name, method, route suffix and controller method. */
  datatype ResourceAction = ResourceAction(action: string, verb: string, suffix: string, controllerMethod: string)

  /** The seven actions of `resource`, in their declared order. */
  const ResourceActions: seq<ResourceAction> := [
    ResourceAction("index", "GET", "", "index"),
    ResourceAction("create", "GET", "/create", "create"),
    ResourceAction("store", "POST", "", "store"),
    ResourceAction("show", "GET", "/:id", "show"),
    ResourceAction("edit", "GET", "/:id/edit", "edit"),
    ResourceAction("update", "PUT", "/:id", "update"),
    ResourceAction("destroy", "DELETE", "/:id", "destroy")]

  /** The five actions of `apiResource`. */
  const ApiResourceActions: seq<ResourceAction> := [
    ResourceAction("index", "GET", "", "index"),
    ResourceAction("store", "POST", "", "store"),
    ResourceAction("show", "GET", "/:id", "show"),
    ResourceAction("update", "PUT", "/:id", "update"),
    ResourceAction("destroy", "DELETE", "/:id", "destroy")]

  /** `($only && !in_array($action, $only)) || ($except && in_array($action, $except))`; an absent option is None. */
  predicate Skipped(action: string, only: Option<seq<Value>>, except: Option<seq<Value>>)
  {
    (only.Some? && |only.value| > 0 && !InArrayLoose(Str(action), only.value)) ||
    (except.Some? && |except.value| > 0 && InArrayLoose(Str(action), except.value))
  }

  /** The loop of resource/apiResource over a prefix of its action table. */
  function AddResource(s: RouterState, actions: seq<ResourceAction>, name: string, controller: string,
                       only: Option<seq<Value>>, except: Option<seq<Value>>): RouterState
    decreases |actions|
  {
    if actions == [] then s
    else
      var s1 := AddResource(s, actions[..|actions| - 1], name, controller, only, except);
      var a := actions[|actions| - 1];
      if Skipped(a.action, only, except) then s1
      else AddRoute(s1, a.verb, "/" + name + a.suffix, Action(controller + "@" + a.controllerMethod), Some(name + "." + a.action))
  }

  /** The attributes of a group: `prefix` ('' when absent) and `middleware` (None when not set). */
  datatype GroupAttrs = GroupAttrs(prefix: string, middleware: Option<MwArg>)

  /** The registration calls a callback can make on the router. */
  datatype Command =
    | DoRoute(verb: string, route: string, handler: Handler, name: Option<string>)
    | DoMap(verbs: seq<string>, route: string, handler: Handler, name: Option<string>)
    | DoAny(route: string, handler: Handler, name: Option<string>)
    | DoResource(resource: string, controller: string, only: Option<seq<Value>>, except: Option<seq<Value>>)
    | DoApiResource(resource: string, controller: string, only: Option<seq<Value>>, except: Option<seq<Value>>)
    | DoGroup(attrs: GroupAttrs, body: seq<Command>)
    | DoWithMiddleware(arg: MwArg)
    | DoPattern(key: string, regex: string)
    | DoPatterns(table: Patterns)
    | DoGlobalMiddleware(arg: MwArg)
    | DoRegisterMiddleware(table: seq<(string, string)>)
    | DoNotFoundHandler(handler: Handler)
    | DoMethodNotAllowedHandler(handler: Handler)
    | DoBasePath(basePath: string)

  function CmdSize(c: Command): nat
  {
    match c
    case DoGroup(_, body) => 1 + CmdsSize(body)
    case _ => 1
  }

  function CmdsSize(cs: seq<Command>): nat
  {
    if cs == [] then 0 else CmdSize(cs[0]) + CmdsSize(cs[1..])
  }

  /** The state inside a group: prefix extended by '/' and the trimmed prefix, middleware appended. */
  function EnterGroup(s: RouterState, attrs: GroupAttrs): RouterState
  {
    var gm := if attrs.middleware.Some? then s.groupMiddleware + MwList(attrs.middleware.value) else s.groupMiddleware;
    s.(prefix := s.prefix + "/" + Trim(attrs.prefix, {'/'}), groupMiddleware := gm)
  }

  /** group($attributes, $callback): the callback runs in the group's scope, then prefix and middleware are restored. */
  function GroupRun(s: RouterState, attrs: GroupAttrs, body: seq<Command>): RouterState
    decreases CmdsSize(body), 2
  {
    var inner := Run(EnterGroup(s, attrs), body);
    inner.(prefix := s.prefix, groupMiddleware := s.groupMiddleware)
  }

  /** withMiddleware($m): the last route of the last method gets $m appended to its middleware. */
  function WithMiddleware(s: RouterState, arg: MwArg): RouterState
  {
    if s.lastMethod.None? then s
    else
      var list := RoutesFor(s, s.lastMethod.value);
      if list == [] then s
      else
        var last := list[|list| - 1];
        var list' := list[..|list| - 1] + [last.(middleware := last.middleware + MwList(arg))];
        s.(routes := Put(s.routes, s.lastMethod.value, list'))
  }

  /** array_merge of a string-keyed table: later keys overwrite in place, new keys are appended. */
  function MergeTable<V>(base: seq<(string, V)>, extra: seq<(string, V)>): seq<(string, V)>
    decreases |extra|
  {
    if extra == [] then base
    else Put(MergeTable(base, extra[..|extra| - 1]), extra[|extra| - 1].0, extra[|extra| - 1].1)
  }

  function Exec(s: RouterState, c: Command): RouterState
    decreases CmdSize(c), 0
  {
    match c
    case DoRoute(verb, route, handler, name) => AddRoute(s, verb, route, handler, name)
    case DoMap(verbs, route, handler, name) => MapRoutes(s, verbs, route, handler, name)
    case DoAny(route, handler, name) => MapRoutes(s, Methods, route, handler, name)
    case DoResource(n, controller, only, except) => AddResource(s, ResourceActions, n, controller, only, except)
    case DoApiResource(n, controller, only, except) => AddResource(s, ApiResourceActions, n, controller, only, except)
    case DoGroup(attrs, body) => GroupRun(s, attrs, body)
    case DoWithMiddleware(arg) => WithMiddleware(s, arg)
    case DoPattern(key, regex) => s.(patterns := Put(s.patterns, key, regex))
    case DoPatterns(table) => s.(patterns := MergeTable(s.patterns, table))
    case DoGlobalMiddleware(arg) => s.(globalMiddleware := s.globalMiddleware + MwList(arg))
    case DoRegisterMiddleware(table) => s.(aliases := MergeTable(s.aliases, table))
    case DoNotFoundHandler(h) => s.(notFound := h)
    case DoMethodNotAllowedHandler(h) => s.(methodNotAllowed := h)
    case DoBasePath(b) => s.(basePath := b)
  }

  /** The calls of a callback, in order. */
  function Run(s: RouterState, cs: seq<Command>): RouterState
    decreases CmdsSize(cs), 1
  {
    if cs == [] then s else Run(Exec(s, cs[0]), cs[1..])
  }

  /** The three kinds of call the route file ends with, each made by Exec. */
  lemma ExecNotFound(s: RouterState, h: Handler)
    ensures Exec(s, DoNotFoundHandler(h)) == s.(notFound := h)
  {
  }

  lemma ExecRoute(s: RouterState, verb: string, route: string, h: Handler)
    ensures Exec(s, DoRoute(verb, route, h, None)) == AddRoute(s, verb, route, h, None)
  {
  }

  lemma ExecGroup(s: RouterState, c: Command)
    requires c.DoGroup?
    ensures Exec(s, c) == GroupRun(s, c.attrs, c.body)
  {
  }

  /**
   * A group leaves the prefix and group middleware as they were, whatever
   * its callback does, so a route registered after it is the route that
   * would have been registered without it (given the same patterns and
   * base path).
   */
  lemma GroupRestores(s: RouterState, attrs: GroupAttrs, body: seq<Command>, route: string, handler: Handler)
    ensures GroupRun(s, attrs, body).prefix == s.prefix
    ensures GroupRun(s, attrs, body).groupMiddleware == s.groupMiddleware
    ensures var t := GroupRun(s, attrs, body);
      t.patterns == s.patterns && t.basePath == s.basePath ==> EntryFor(t, route, handler) == EntryFor(s, route, handler)
  {
  }

  /** A callback of one call makes that call. */
  lemma RunOne(s: RouterState, c: Command)
    ensures Run(s, [c]) == Exec(s, c)
  {
    assert [c][1..] == [];
  }

  /**
   * A route registered directly inside a group gets the prefix
   * `prefix + '/' + trim(group prefix)` and the group middleware after the
   * inherited middleware; the method's earlier routes stay as they were.
   */
  lemma GroupRoute(s: RouterState, attrs: GroupAttrs, verb: string, route: string, handler: Handler, name: Option<string>)
    ensures var t := GroupRun(s, attrs, [DoRoute(verb, route, handler, name)]);
      RoutesFor(t, verb) == RoutesFor(s, verb) + [EntryFor(EnterGroup(s, attrs), route, handler)]
    ensures var e := EntryFor(EnterGroup(s, attrs), route, handler);
      && e.route == NormalizePath(s.basePath, s.prefix + "/" + Trim(attrs.prefix, {'/'}) + "/" + Trim(route, {'/'}))
      && e.middleware == s.groupMiddleware + (if attrs.middleware.Some? then MwList(attrs.middleware.value) else [])
  {
    var g := EnterGroup(s, attrs);
    RunOne(g, DoRoute(verb, route, handler, name));
    AddRouteSpec(g, verb, route, handler, name, verb);
  }

  /**
   * A group without a prefix still appends '/', so inside a prefixed group
   * its routes get a doubled slash that normalizePath keeps: "/api" plus an
   * unprefixed group plus "/me" is stored as "/api//me", which a request
   * for "/api/me" does not match.
   */
  lemma UnprefixedGroupDoublesSlash(s: RouterState, route: string, handler: Handler)
    requires s.basePath == "" && IsNormal(s.prefix)
    requires Trim(route, {'/'}) != [] && '?' !in route
    ensures EntryFor(EnterGroup(s, GroupAttrs("", None)), route, handler).route == s.prefix + "//" + Trim(route, {'/'})
  {
    NormalizeEmptySegment(s.prefix, route);
  }

  /**
   * withMiddleware appends to the middleware of the last route of the last
   * method and changes nothing else: not that route's other fields, not the
   * method's other routes, not the other methods' routes.
   */
  lemma WithMiddlewareSpec(s: RouterState, arg: MwArg, other: string)
    ensures var t := WithMiddleware(s, arg);
      && t.lastMethod == s.lastMethod && t.named == s.named && t.prefix == s.prefix
      && t.groupMiddleware == s.groupMiddleware && t.globalMiddleware == s.globalMiddleware
      && (s.lastMethod.None? || other != s.lastMethod.value ==> RoutesFor(t, other) == RoutesFor(s, other))
    ensures s.lastMethod.Some? ==>
      var t := WithMiddleware(s, arg);
      var old_ := RoutesFor(s, s.lastMethod.value);
      var new_ := RoutesFor(t, s.lastMethod.value);
      && |new_| == |old_|
      && (forall i :: 0 <= i < |old_| - 1 ==> new_[i] == old_[i])
      && (|old_| > 0 ==>
            var o := old_[|old_| - 1];
            new_[|old_| - 1] == RouteEntry(o.route, o.template, o.handler, o.middleware + MwList(arg)))
  {
    if s.lastMethod.Some? {
      var m := s.lastMethod.value;
      var list := RoutesFor(s, m);
      if list != [] {
        var last := list[|list| - 1];
        var list' := list[..|list| - 1] + [last.(middleware := last.middleware + MwList(arg))];
        GetPut(s.routes, m, list', m);
        GetPut(s.routes, m, list', other);
      }
    }
  }

  // ---------------------------------------------------------------------
  // Lookup

  /** preg_match of a route's compiled pattern; a pattern that does not compile matches nothing. */
  function RouteMatch(e: RouteEntry, path: string, custom: (string, string) -> bool): Option<Captures>
  {
    match e.template
    case None => None
    case Some(ps) => Match(ps, path, custom)
  }

  /** The index of the first route that matches, or |list| when none does. */
  function FirstMatch(list: seq<RouteEntry>, path: string, custom: (string, string) -> bool): (i: nat)
    ensures i <= |list|
    ensures forall j :: 0 <= j < i ==> RouteMatch(list[j], path, custom).None?
    ensures i < |list| ==> RouteMatch(list[i], path, custom).Some?
    decreases |list|
  {
    if list == [] then 0
    else if RouteMatch(list[0], path, custom).Some? then 0
    else 1 + FirstMatch(list[1..], path, custom)
  }

  /** The named captures as `$params`: string keys, string values, in group order. */
  function ParamsOf(caps: Captures): (m: Entries)
    ensures |m| == |caps| && forall i :: 0 <= i < |caps| ==> m[i] == (StrKey(caps[i].0), Str(caps[i].1))
  {
    seq(|caps|, i requires 0 <= i < |caps| => (StrKey(caps[i].0), Str(caps[i].1)))
  }

  /** findRoute($method, $path): the first matching route of the method, with its parameters. */
  function FindRoute(s: RouterState, verb: string, path: string, custom: (string, string) -> bool): Option<(RouteEntry, Entries)>
  {
    var list := RoutesFor(s, verb);
    var i := FirstMatch(list, path, custom);
    if i < |list| then Some((list[i], ParamsOf(RouteMatch(list[i], path, custom).value))) else None
  }

  /**
   * findRoute tries the method's routes in registration order: the result
   * is a route that matches and every route before it fails to match; no
   * result means no route of the method matches.
   */
  lemma FindRouteSpec(s: RouterState, verb: string, path: string, custom: (string, string) -> bool)
    ensures var list := RoutesFor(s, verb);
      match FindRoute(s, verb, path, custom)
      case None => forall j :: 0 <= j < |list| ==> RouteMatch(list[j], path, custom).None?
      case Some(found) =>
        exists i :: 0 <= i < |list| && list[i] == found.0 && RouteMatch(list[i], path, custom).Some?
          && found.1 == ParamsOf(RouteMatch(list[i], path, custom).value)
          && forall j :: 0 <= j < i ==> RouteMatch(list[j], path, custom).None?
  {
    var list := RoutesFor(s, verb);
    var i := FirstMatch(list, path, custom);
    if i < |list| {
      assert list[i] == FindRoute(s, verb, path, custom).value.0;
    }
  }

  /** Every route of the list was compiled from a text with no parameter and no optional part. */
  predicate LiteralRoutes(list: seq<RouteEntry>)
  {
    forall j :: 0 <= j < |list| ==> list[j].template == Some(Lits(list[j].route))
  }

  /**
   * Among literal routes findRoute picks the first one whose text is the
   * path, with no parameters, and finds nothing when no text is the path.
   */
  lemma FindLiteral(s: RouterState, verb: string, path: string, custom: (string, string) -> bool)
    requires LiteralRoutes(RoutesFor(s, verb))
    ensures var list := RoutesFor(s, verb);
      forall i :: 0 <= i < |list| && list[i].route == path && (forall j :: 0 <= j < i ==> list[j].route != path) ==>
        FindRoute(s, verb, path, custom) == Some((list[i], []))
    ensures var list := RoutesFor(s, verb);
      (forall j :: 0 <= j < |list| ==> list[j].route != path) <==> FindRoute(s, verb, path, custom).None?
  {
    var list := RoutesFor(s, verb);
    forall j | 0 <= j < |list| ensures RouteMatch(list[j], path, custom).Some? <==> list[j].route == path {
      MatchLiteral(list[j].route, path, custom);
    }
    var k := FirstMatch(list, path, custom);
    if k < |list| {
      MatchLiteral(list[k].route, path, custom);
      assert ParamsOf([]) == [];
    }
  }

  /** The methods among vs, other than OPTIONS, with a route that matches the path, in the order of vs. */
  function AllowedAmong(s: RouterState, vs: seq<string>, path: string, custom: (string, string) -> bool): (r: seq<string>)
    ensures forall m :: m in r <==> m in vs && m != "OPTIONS" && FindRoute(s, m, path, custom).Some?
    ensures |r| <= |vs|
    decreases |vs|
  {
    if vs == [] then []
    else
      var rest := AllowedAmong(s, vs[..|vs| - 1], path, custom);
      var m := vs[|vs| - 1];
      assert forall x :: x in vs <==> x in vs[..|vs| - 1] || x == m;
      if m != "OPTIONS" && FindRoute(s, m, path, custom).Some? then rest + [m] else rest
  }

  /** getAllowedMethods($path) */
  function AllowedMethods(s: RouterState, path: string, custom: (string, string) -> bool): seq<string>
  {
    AllowedAmong(s, Methods, path, custom)
  }

  /** a is b with some elements left out: same order, no element added. */
  predicate SubsequenceOf<T(==)>(a: seq<T>, b: seq<T>)
    decreases |b|
  {
    if b == [] then a == []
    else
      || (a != [] && a[|a| - 1] == b[|b| - 1] && SubsequenceOf(a[..|a| - 1], b[..|b| - 1]))
      || SubsequenceOf(a, b[..|b| - 1])
  }

  /**
   * The allowed methods come in the order of the methods probed, each at
   * most once when the probed methods are distinct.
   */
  lemma {:induction false} AllowedOrder(s: RouterState, vs: seq<string>, path: string, custom: (string, string) -> bool)
    ensures SubsequenceOf(AllowedAmong(s, vs, path, custom), vs)
    ensures Distinct(vs) ==> Distinct(AllowedAmong(s, vs, path, custom))
    decreases |vs|
  {
    if vs != [] {
      var init := vs[..|vs| - 1];
      AllowedOrder(s, init, path, custom);
      var rest := AllowedAmong(s, init, path, custom);
      var r := AllowedAmong(s, vs, path, custom);
      if r != rest {
        assert r == rest + [vs[|vs| - 1]];
        assert r[..|r| - 1] == rest;
      }
      if Distinct(vs) {
        assert Distinct(init);
        if r != rest {
          var m := vs[|vs| - 1];
          assert forall k :: 0 <= k < |init| ==> init[k] == vs[k] && vs[k] != m;
          assert m !in init;
          assert m !in rest;
          forall i, j | 0 <= i < j < |r| ensures r[i] != r[j] {
            if j == |r| - 1 {
              assert r[j] == m;
              assert r[i] == rest[i] && rest[i] in rest;
            } else {
              assert r[i] == rest[i] && r[j] == rest[j];
            }
          }
        }
      }
    }
  }

  /** GET, POST, PUT, PATCH, DELETE, OPTIONS are distinct, so each allowed method is listed once, in that order. */
  lemma AllowedMethodsOrder(s: RouterState, path: string, custom: (string, string) -> bool)
    ensures SubsequenceOf(AllowedMethods(s, path, custom), Methods)
    ensures Distinct(AllowedMethods(s, path, custom))
    ensures "OPTIONS" !in AllowedMethods(s, path, custom)
  {
    assert Distinct(Methods);
    AllowedOrder(s, Methods, path, custom);
  }

  /** An OPTIONS request's allowed list does not depend on the routes registered for OPTIONS. */
  lemma AllowedIgnoresOptions(s: RouterState, optionsRoutes: seq<RouteEntry>, path: string, custom: (string, string) -> bool)
    ensures AllowedMethods(s.(routes := Put(s.routes, "OPTIONS", optionsRoutes)), path, custom) == AllowedMethods(s, path, custom)
  {
    var t := s.(routes := Put(s.routes, "OPTIONS", optionsRoutes));
    forall m | m in Methods && m != "OPTIONS" ensures FindRoute(t, m, path, custom) == FindRoute(s, m, path, custom) {
      GetPut(s.routes, "OPTIONS", optionsRoutes, m);
      assert RoutesFor(t, m) == RoutesFor(s, m);
    }
    AllowedSame(s, t, Methods, path, custom);
  }

  lemma {:induction false} AllowedSame(s: RouterState, t: RouterState, vs: seq<string>, path: string, custom: (string, string) -> bool)
    requires forall m :: m in vs && m != "OPTIONS" ==> FindRoute(t, m, path, custom) == FindRoute(s, m, path, custom)
    ensures AllowedAmong(t, vs, path, custom) == AllowedAmong(s, vs, path, custom)
    decreases |vs|
  {
    if vs != [] {
      AllowedSame(s, t, vs[..|vs| - 1], path, custom);
    }
  }

  // ---------------------------------------------------------------------
  // Middleware and handlers

  /** An alias resolved through routeMiddleware, then the class with its `handle`. */
  function Resolve(s: RouterState, m: MwRef, classes: Classes): Result<Middleware>
  {
    match m
    case MwCall(f) => Ok(f)
    case MwName(n) =>
      var cls := match Get(s.aliases, n) case Some(c) => c case None => n;
      match classes.middleware(cls)
      case NoClass => Err("Middleware not found: " + cls)
      case NoMethod => Err("Middleware must have a handle method: " + cls)
      case Found(f) => Ok(f)
  }

  /** executeMiddleware: the first middleware runs with a `$next` that runs the rest and then the final `$next`. */
  function ExecuteMiddleware(s: RouterState, mws: seq<MwRef>, q: Req, r: Resp, next: Next, classes: Classes): Outcome
    decreases |mws|
  {
    if mws == [] then next(q, r)
    else match Resolve(s, mws[0], classes)
      case Err(e) => Thrown(e)
      case Ok(f) => f(q, r, (q1: Req, r1: Resp) => ExecuteMiddleware(s, mws[1..], q1, r1, next, classes))
  }

  /** A middleware that returns what `$next` returns and does nothing else. */
  ghost predicate PassThrough(f: Middleware)
  {
    forall q: Req, r: Resp, n: Next :: f(q, r, n) == n(q, r)
  }

  /** With an empty list, or one whose every entry passes through, the result is the final handler's. */
  lemma {:induction false} ChainPassThrough(s: RouterState, mws: seq<MwRef>, q: Req, r: Resp, next: Next, classes: Classes)
    requires forall i :: 0 <= i < |mws| ==> Resolve(s, mws[i], classes).Ok? && PassThrough(Resolve(s, mws[i], classes).value)
    ensures ExecuteMiddleware(s, mws, q, r, next, classes) == next(q, r)
    decreases |mws|
  {
    if mws != [] {
      var f := Resolve(s, mws[0], classes).value;
      var rest := (q1: Req, r1: Resp) => ExecuteMiddleware(s, mws[1..], q1, r1, next, classes);
      assert f(q, r, rest) == rest(q, r);
      ChainPassThrough(s, mws[1..], q, r, next, classes);
    }
  }

  /** A middleware whose result does not depend on `$next` (here: for this request and response). */
  ghost predicate IgnoresNext(f: Middleware, q: Req, r: Resp)
  {
    forall n: Next :: f(q, r, n) == f(q, r, (q1: Req, r1: Resp) => Done(q1, r1))
  }

  /**
   * A middleware that does not call `$next` decides the result alone: the
   * middleware after it and the route handler make no difference.
   */
  lemma ChainShortCircuit(s: RouterState, first: MwRef, rest: seq<MwRef>, rest': seq<MwRef>,
                          q: Req, r: Resp, next: Next, next': Next, classes: Classes)
    requires Resolve(s, first, classes).Ok? && IgnoresNext(Resolve(s, first, classes).value, q, r)
    ensures ExecuteMiddleware(s, [first] + rest, q, r, next, classes) == ExecuteMiddleware(s, [first] + rest', q, r, next', classes)
  {
    var f := Resolve(s, first, classes).value;
    assert ([first] + rest)[0] == first && ([first] + rest)[1..] == rest;
    assert ([first] + rest')[0] == first && ([first] + rest')[1..] == rest';
    var n1 := (q1: Req, r1: Resp) => ExecuteMiddleware(s, rest, q1, r1, next, classes);
    var n2 := (q1: Req, r1: Resp) => ExecuteMiddleware(s, rest', q1, r1, next', classes);
    assert f(q, r, n1) == f(q, r, (q1: Req, r1: Resp) => Done(q1, r1));
    assert f(q, r, n2) == f(q, r, (q1: Req, r1: Resp) => Done(q1, r1));
  }

  /** A name that resolves to no class stops the chain with "Middleware not found", before anything after it runs. */
  lemma ChainMissingClass(s: RouterState, name: string, rest: seq<MwRef>, q: Req, r: Resp, next: Next, classes: Classes)
    requires Get(s.aliases, name).None? && classes.middleware(name).NoClass?
    ensures ExecuteMiddleware(s, [MwName(name)] + rest, q, r, next, classes) == Thrown("Middleware not found: " + name)
  {
    assert ([MwName(name)] + rest)[0] == MwName(name);
  }

  /** executeHandler: a callable is called; "C@a" names the action a of App\Controllers\C (or of C when namespaced). */
  function ExecuteHandler(h: Handler, q: Req, r: Resp, args: seq<Value>, classes: Classes): Outcome
  {
    match h
    case Call(f) => f(q, r, args)
    case Action(text) =>
      var parts := Explode('@', text);
      var controller := if '\\' in parts[0] then parts[0] else "App\\Controllers\\" + parts[0];
      var action := if |parts| >= 2 then parts[1] else "";
      match classes.actions(controller, action)
      case NoClass => Thrown("Controller not found: " + controller)
      case NoMethod => Thrown("Action not found: " + action + " in " + controller)
      case Found(f) => f(q, r, args)
  }

  // ---------------------------------------------------------------------
  // Dispatch

  /** handleOptionsRequest: not found without allowed methods; otherwise the preflight answer listing them and OPTIONS. */
  function HandleOptions(s: RouterState, q: Req, r: Resp, path: string, classes: Classes, custom: (string, string) -> bool): Outcome
  {
    var allowed := AllowedMethods(s, path, custom);
    if allowed == [] then ExecuteHandler(s.notFound, q, r, [], classes)
    else
      var methods := if "OPTIONS" in allowed then allowed else allowed + ["OPTIONS"];
      var origin := RequestSpec.HeaderOf(q.headers, "Origin", Str("*"));
      Done(q, ResponseSpec.HandlePreflightRequest(r, origin, methods, ["Content-Type", "Authorization"], 86400, true))
  }

  /** The closure dispatch gives the middleware chain as its last step: the route's handler. */
  function HandlerNext(h: Handler, classes: Classes): Next
  {
    (q2: Req, r2: Resp) => ExecuteHandler(h, q2, r2, [], classes)
  }

  /** dispatch($request, $response) */
  function Dispatch(s: RouterState, q: Req, r: Resp, classes: Classes, custom: (string, string) -> bool): Outcome
  {
    var path := NormalizePath(s.basePath, ToStr(q.path));
    if q.verb == "OPTIONS" then HandleOptions(s, q, r, path, classes, custom)
    else match FindRoute(s, q.verb, path, custom)
      case Some(found) =>
        var q1 := RequestSpec.SetParams(q, found.1);
        ExecuteMiddleware(s, s.globalMiddleware + found.0.middleware, q1, r, HandlerNext(found.0.handler, classes), classes)
      case None =>
        var allowed := AllowedMethods(s, path, custom);
        if allowed != [] then ExecuteHandler(s.methodNotAllowed, q, r, [StrList(allowed)], classes)
        else ExecuteHandler(s.notFound, q, r, [], classes)
  }

  /**
   * A matched route runs the global middleware, then the route's own, then
   * its handler, on the request with the route's parameters; with no
   * middleware at all the handler's result is the result.
   */
  lemma DispatchMatched(s: RouterState, q: Req, r: Resp, classes: Classes, custom: (string, string) -> bool)
    requires q.verb != "OPTIONS"
    requires FindRoute(s, q.verb, NormalizePath(s.basePath, ToStr(q.path)), custom).Some?
    ensures var found := FindRoute(s, q.verb, NormalizePath(s.basePath, ToStr(q.path)), custom).value;
      var q1 := q.(params := found.1);
      && Dispatch(s, q, r, classes, custom) ==
           ExecuteMiddleware(s, s.globalMiddleware + found.0.middleware, q1, r, HandlerNext(found.0.handler, classes), classes)
      && (s.globalMiddleware + found.0.middleware == [] ==>
            Dispatch(s, q, r, classes, custom) == ExecuteHandler(found.0.handler, q1, r, [], classes))
  {
  }

  /**
   * On a router without a base path, a normal path equal to the text of a
   * literal route (and to no earlier route of its method) runs the global
   * middleware, the route's middleware and its handler, with no parameters.
   */
  lemma DispatchLiteral(s: RouterState, q: Req, r: Resp, classes: Classes, custom: (string, string) -> bool, i: nat)
    requires s.basePath == "" && q.verb != "OPTIONS" && IsNormal(ToStr(q.path))
    requires LiteralRoutes(RoutesFor(s, q.verb))
    requires i < |RoutesFor(s, q.verb)| && RoutesFor(s, q.verb)[i].route == ToStr(q.path)
    requires forall j :: 0 <= j < i ==> RoutesFor(s, q.verb)[j].route != ToStr(q.path)
    ensures var e := RoutesFor(s, q.verb)[i];
      Dispatch(s, q, r, classes, custom)
        == ExecuteMiddleware(s, s.globalMiddleware + e.middleware, q.(params := []), r, HandlerNext(e.handler, classes), classes)
  {
    var path := ToStr(q.path);
    NormalizeKeeps(path);
    FindLiteral(s, q.verb, path, custom);
    assert FindRoute(s, q.verb, path, custom) == Some((RoutesFor(s, q.verb)[i], []));
    DispatchMatched(s, q, r, classes, custom);
  }

  lemma NoneIn<T>(xs: seq<T>)
    requires forall x :: x !in xs
    ensures xs == []
  {
    HeadIn(xs);
  }

  lemma HeadIn<T>(xs: seq<T>)
    ensures xs != [] ==> xs[0] in xs
  {
  }

  /** No method has a literal route whose text is the path: the not-found handler runs, whatever the method. */
  lemma DispatchNoLiteral(s: RouterState, q: Req, r: Resp, classes: Classes, custom: (string, string) -> bool)
    requires forall m :: LiteralRoutes(RoutesFor(s, m))
    requires var path := NormalizePath(s.basePath, ToStr(q.path));
      forall m, j :: 0 <= j < |RoutesFor(s, m)| ==> RoutesFor(s, m)[j].route != path
    ensures Dispatch(s, q, r, classes, custom) == ExecuteHandler(s.notFound, q, r, [], classes)
  {
    var path := NormalizePath(s.basePath, ToStr(q.path));
    forall m ensures FindRoute(s, m, path, custom).None? {
      FindLiteral(s, m, path, custom);
    }
    var allowed := AllowedMethods(s, path, custom);
    assert forall m :: m !in allowed;
    NoneIn(allowed);
    DispatchNotFound(s, q, r, classes, custom);
  }

  /** A list without repetitions whose every element is m, and which holds m, is [m]. */
  lemma OnlyElement(xs: seq<string>, m: string)
    requires Distinct(xs) && m in xs && forall x :: x in xs ==> x == m
    ensures xs == [m]
  {
    HeadIn(xs);
    SecondIn(xs);
  }

  lemma SecondIn<T>(xs: seq<T>)
    ensures |xs| > 1 ==> xs[1] in xs
  {
  }

  /**
   * A normal path that only method m has a literal route for, requested with
   * another method: the allowed list is exactly [m] and the 405 handler runs.
   */
  lemma DispatchOtherMethod(s: RouterState, q: Req, r: Resp, classes: Classes, custom: (string, string) -> bool, m: string, i: nat)
    requires s.basePath == "" && q.verb != "OPTIONS" && IsNormal(ToStr(q.path))
    requires forall v :: LiteralRoutes(RoutesFor(s, v))
    requires m in Methods && m != "OPTIONS" && m != q.verb
    requires i < |RoutesFor(s, m)| && RoutesFor(s, m)[i].route == ToStr(q.path)
    requires forall v, j :: v != m && 0 <= j < |RoutesFor(s, v)| ==> RoutesFor(s, v)[j].route != ToStr(q.path)
    ensures AllowedMethods(s, ToStr(q.path), custom) == [m]
    ensures Dispatch(s, q, r, classes, custom) == ExecuteHandler(s.methodNotAllowed, q, r, [StrList([m])], classes)
  {
    var path := ToStr(q.path);
    NormalizeKeeps(path);
    forall v ensures FindRoute(s, v, path, custom).Some? <==> v == m {
      FindLiteral(s, v, path, custom);
    }
    var allowed := AllowedMethods(s, path, custom);
    AllowedMethodsOrder(s, path, custom);
    OnlyElement(allowed, m);
    DispatchFallback(s, q, r, classes, custom);
  }

  /** The text of the Allow header the default 405 handler writes. */
  lemma TextsOfStrList(ms: seq<string>)
    ensures TextsOf(StrList(ms)) == ms
  {
    var es := EntriesOf(StrList(ms));
    assert |es| == |ms|;
    forall i | 0 <= i < |ms| ensures ToStr(es[i].1) == ms[i] {
      assert es[i].1 == Str(ms[i]);
    }
  }

  /** The method is not registered for the path but another one is: the 405 handler runs with the allowed list. */
  lemma DispatchFallback(s: RouterState, q: Req, r: Resp, classes: Classes, custom: (string, string) -> bool)
    requires q.verb != "OPTIONS"
    requires var path := NormalizePath(s.basePath, ToStr(q.path));
      FindRoute(s, q.verb, path, custom).None? && AllowedMethods(s, path, custom) != []
    ensures Dispatch(s, q, r, classes, custom)
         == ExecuteHandler(s.methodNotAllowed, q, r, [StrList(AllowedMethods(s, NormalizePath(s.basePath, ToStr(q.path)), custom))], classes)
  {
  }

  /**
   * The constructor's 405 handler: `Allow` lists the allowed methods joined
   * by ", ", the content is the 405 error envelope naming the method, and
   * the status stays as it was.
   */
  lemma DefaultMethodNotAllowedSpec(q: Req, r: Resp, allowed: seq<string>)
    ensures var o := DefaultMethodNotAllowed(q, r, [StrList(allowed)]);
      && o.Done? && o.req == q
      && Get(o.resp.headers, "Allow") == Some(Str(Implode(", ", allowed)))
      && o.resp.statusCode == r.statusCode
      && o.resp.content == ResponseSpec.ErrorEnvelope(Str("Method not allowed: " + q.verb), Int(405), Null)
  {
    TextsOfStrList(allowed);
    var r1 := ResponseSpec.SetHeader(r, "Allow", Str(Implode(", ", allowed)), true);
    ResponseSpec.SetHeaderSpec(r, "Allow", Str(Implode(", ", allowed)), true, "Allow");
    var r2 := r1.(contentType := "application/json");
    ResponseSpec.SetHeaderSpec(r2, "Content-Type", Str("application/json" + "; charset=" + r1.charset), true, "Allow");
    var r3 := ResponseSpec.SetContentType(r1, "application/json");
    assert r3 == ResponseSpec.SetHeader(r2, "Content-Type", Str("application/json" + "; charset=" + r1.charset), true);
    assert Get(r3.headers, "Allow") == Get(r1.headers, "Allow");
    assert ResponseSpec.SetHeaders(r3, [], true) == r3;
    ResponseSpec.JsonSpec(r1, ResponseSpec.ErrorEnvelope(Str("Method not allowed: " + q.verb), Int(405), Null), []);
  }

  /** No method has a route for the path: the not-found handler runs (for OPTIONS requests too). */
  lemma DispatchNotFound(s: RouterState, q: Req, r: Resp, classes: Classes, custom: (string, string) -> bool)
    requires var path := NormalizePath(s.basePath, ToStr(q.path));
      (q.verb == "OPTIONS" || FindRoute(s, q.verb, path, custom).None?) && AllowedMethods(s, path, custom) == []
    ensures Dispatch(s, q, r, classes, custom) == ExecuteHandler(s.notFound, q, r, [], classes)
    ensures s.notFound == Call(DefaultNotFound) ==>
      Dispatch(s, q, r, classes, custom) == Done(q, ResponseSpec.NotFound(r, Str("Route not found: " + ToStr(q.path))))
  {
  }

  /**
   * An OPTIONS request is answered from the other methods' routes alone:
   * with some allowed method it is the preflight answer whose
   * Access-Control-Allow-Methods lists them and then OPTIONS, and routes
   * registered for OPTIONS play no part.
   */
  lemma DispatchOptions(s: RouterState, q: Req, r: Resp, classes: Classes, custom: (string, string) -> bool, optionsRoutes: seq<RouteEntry>)
    requires q.verb == "OPTIONS"
    requires AllowedMethods(s, NormalizePath(s.basePath, ToStr(q.path)), custom) != []
    ensures var allowed := AllowedMethods(s, NormalizePath(s.basePath, ToStr(q.path)), custom);
      && Dispatch(s, q, r, classes, custom) == Done(q, ResponseSpec.HandlePreflightRequest(r,
           RequestSpec.HeaderOf(q.headers, "Origin", Str("*")), allowed + ["OPTIONS"], ["Content-Type", "Authorization"], 86400, true))
    ensures Dispatch(s.(routes := Put(s.routes, "OPTIONS", optionsRoutes)), q, r, classes, custom) == Dispatch(s, q, r, classes, custom)
  {
    var path := NormalizePath(s.basePath, ToStr(q.path));
    var allowed := AllowedMethods(s, path, custom);
    assert "OPTIONS" !in allowed;
    AllowedIgnoresOptions(s, optionsRoutes, path, custom);
  }

  // ---------------------------------------------------------------------
  // url

  /** url($name, $params): an exception for an unknown name, else the base path and the rewritten route. */
  function Url(s: RouterState, name: string, params: Entries): Result<string>
  {
    match Get(s.named, name)
    case None => Err("Route not found: " + name)
    case Some(nr) => Ok(s.basePath + UrlPath(nr.route, params))
  }

  /**
   * url fails exactly for names that were never bound; a bound route with no
   * placeholders and no optional segments comes back as base path + route.
   */
  lemma UrlSpec(s: RouterState, name: string, params: Entries)
    ensures Url(s, name, params).Err? <==> Get(s.named, name).None?
    ensures Url(s, name, params).Err? ==> Url(s, name, params).message == "Route not found: " + name
    ensures Get(s.named, name).Some? && params == [] && ':' !in Get(s.named, name).value.route && '[' !in Get(s.named, name).value.route ==>
      Url(s, name, params) == Ok(s.basePath + Get(s.named, name).value.route)
  {
    if Get(s.named, name).Some? && params == [] {
      var route := Get(s.named, name).value.route;
      if ':' !in route && '[' !in route {
        StripParamsPlain(route);
        StripOptionalPlain(route);
      }
    }
  }

  /** A route named by addRoute is found by url under that name. */
  lemma UrlAfterAddRoute(s: RouterState, verb: string, route: string, handler: Handler, name: string)
    ensures Url(AddRoute(s, verb, route, handler, Some(name)), name, []) == Ok(s.basePath + UrlPath(RoutePath(s, route), []))
  {
    AddRouteSpec(s, verb, route, handler, Some(name), verb);
  }
}

/**
 * The router object. Its fields are those of Router.php; every method is
 * specified by the RouterSpec function for the same operation.
 */
module Router {
  import opened Text
  import opened Php
  import opened RouteTemplate
  import opened RouterSpec

  class Router {
    var routes: seq<(string, seq<RouteEntry>)>
    var named: seq<(string, NamedRoute)>
    var prefix: string
    var groupMiddleware: seq<MwRef>
    var globalMiddleware: seq<MwRef>
    var aliases: seq<(string, string)>
    var basePath: string
    var patterns: Patterns
    var notFound: Handler
    var methodNotAllowed: Handler
    var lastMethod: Option<string>

    function State(): RouterState
      reads this
    {
      RouterState(routes, named, prefix, groupMiddleware, globalMiddleware, aliases, basePath, patterns,
                  notFound, methodNotAllowed, lastMethod)
    }

    constructor (basePath: string)
      ensures State() == Initial(basePath)
    {
      routes := [("GET", []), ("POST", []), ("PUT", []), ("PATCH", []), ("DELETE", []), ("OPTIONS", [])];
      named := [];
      prefix := "";
      groupMiddleware := [];
      globalMiddleware := [];
      aliases := [];
      this.basePath := basePath;
      patterns := DefaultPatterns;
      notFound := Call(DefaultNotFound);
      methodNotAllowed := Call(DefaultMethodNotAllowed);
      lastMethod := None;
    }

    method AddRoute(verb: string, route: string, handler: Handler, name: Option<string>)
      modifies this
      ensures State() == RouterSpec.AddRoute(old(State()), verb, route, handler, name)
    {
      var e := EntryFor(State(), route, handler);
      var list := RoutesFor(State(), verb);
      routes := Php.Put(routes, verb, list + [e]);
      lastMethod := Some(verb);
      if name.Some? {
        named := Php.Put(named, name.value, NamedRoute(verb, e.route, e.template, handler));
      }
    }

    method Get(route: string, handler: Handler, name: Option<string>)
      modifies this
      ensures State() == RouterSpec.AddRoute(old(State()), "GET", route, handler, name)
    {
      AddRoute("GET", route, handler, name);
    }

    method Post(route: string, handler: Handler, name: Option<string>)
      modifies this
      ensures State() == RouterSpec.AddRoute(old(State()), "POST", route, handler, name)
    {
      AddRoute("POST", route, handler, name);
    }

    method Put(route: string, handler: Handler, name: Option<string>)
      modifies this
      ensures State() == RouterSpec.AddRoute(old(State()), "PUT", route, handler, name)
    {
      AddRoute("PUT", route, handler, name);
    }

    method Patch(route: string, handler: Handler, name: Option<string>)
      modifies this
      ensures State() == RouterSpec.AddRoute(old(State()), "PATCH", route, handler, name)
    {
      AddRoute("PATCH", route, handler, name);
    }

    method Delete(route: string, handler: Handler, name: Option<string>)
      modifies this
      ensures State() == RouterSpec.AddRoute(old(State()), "DELETE", route, handler, name)
    {
      AddRoute("DELETE", route, handler, name);
    }

    method Options(route: string, handler: Handler, name: Option<string>)
      modifies this
      ensures State() == RouterSpec.AddRoute(old(State()), "OPTIONS", route, handler, name)
    {
      AddRoute("OPTIONS", route, handler, name);
    }

    /** map($methods, $route, $handler, $name) */
    method Map(verbs: seq<string>, route: string, handler: Handler, name: Option<string>)
      modifies this
      ensures State() == MapRoutes(old(State()), verbs, route, handler, name)
    {
      ghost var s0 := State();
      var i := 0;
      while i < |verbs|
        invariant 0 <= i <= |verbs|
        invariant State() == MapRoutes(s0, verbs[..i], route, handler, name)
      {
        MapRoutesStep(s0, verbs, i, route, handler, name);
        var verb := ToUpper(verbs[i]);
        AddRoute(verb, route, handler, name);
        i := i + 1;
      }
      assert verbs[..i] == verbs;
    }

    method Any(route: string, handler: Handler, name: Option<string>)
      modifies this
      ensures State() == MapRoutes(old(State()), Methods, route, handler, name)
    {
      Map(Methods, route, handler, name);
    }

    /** The loop shared by resource and apiResource. */
    method AddActions(actions: seq<ResourceAction>, resource: string, controller: string,
                      only: Option<seq<Value>>, except: Option<seq<Value>>)
      modifies this
      ensures State() == AddResource(old(State()), actions, resource, controller, only, except)
    {
      var i := 0;
      while i < |actions|
        invariant 0 <= i <= |actions|
        invariant State() == AddResource(old(State()), actions[..i], resource, controller, only, except)
      {
        assert actions[..i + 1][..i] == actions[..i];
        var a := actions[i];
        if !Skipped(a.action, only, except) {
          AddRoute(a.verb, "/" + resource + a.suffix, Action(controller + "@" + a.controllerMethod), Some(resource + "." + a.action));
        }
        i := i + 1;
      }
      assert actions[..i] == actions;
    }

    method Resource(resource: string, controller: string, only: Option<seq<Value>>, except: Option<seq<Value>>)
      modifies this
      ensures State() == AddResource(old(State()), ResourceActions, resource, controller, only, except)
    {
      AddActions(ResourceActions, resource, controller, only, except);
    }

    method ApiResource(resource: string, controller: string, only: Option<seq<Value>>, except: Option<seq<Value>>)
      modifies this
      ensures State() == AddResource(old(State()), ApiResourceActions, resource, controller, only, except)
    {
      AddActions(ApiResourceActions, resource, controller, only, except);
    }

    /** group($attributes, $callback): save, extend, run the callback, restore. */
    method Group(attrs: GroupAttrs, body: seq<Command>)
      modifies this
      ensures State() == GroupRun(old(State()), attrs, body)
      decreases CmdsSize(body), 2
    {
      var previousPrefix := prefix;
      var previousMiddleware := groupMiddleware;
      prefix := prefix + "/" + Trim(attrs.prefix, {'/'});
      if attrs.middleware.Some? {
        groupMiddleware := groupMiddleware + MwList(attrs.middleware.value);
      }
      assert State() == EnterGroup(old(State()), attrs);
      Run(body);
      prefix := previousPrefix;
      groupMiddleware := previousMiddleware;
    }

    /** The body of a callback, one call after the other. */
    method Run(cs: seq<Command>)
      modifies this
      ensures State() == RouterSpec.Run(old(State()), cs)
      decreases CmdsSize(cs), 1
    {
      if cs != [] {
        Exec(cs[0]);
        Run(cs[1..]);
      }
    }

    method Exec(c: Command)
      modifies this
      ensures State() == RouterSpec.Exec(old(State()), c)
      decreases CmdSize(c), 0
    {
      if c.DoGroup? {
        Group(c.attrs, c.body);
      } else if c.DoRoute? || c.DoMap? || c.DoAny? || c.DoResource? || c.DoApiResource? {
        ExecAdd(c);
      } else {
        ExecSetting(c);
      }
    }

    /** The calls that register routes. */
    method ExecAdd(c: Command)
      requires c.DoRoute? || c.DoMap? || c.DoAny? || c.DoResource? || c.DoApiResource?
      modifies this
      ensures State() == RouterSpec.Exec(old(State()), c)
    {
      match c
      case DoRoute(verb, route, handler, name) => AddRoute(verb, route, handler, name);
      case DoMap(verbs, route, handler, name) => Map(verbs, route, handler, name);
      case DoAny(route, handler, name) => Any(route, handler, name);
      case DoResource(n, controller, only, except) => Resource(n, controller, only, except);
      case DoApiResource(n, controller, only, except) => ApiResource(n, controller, only, except);
    }

    /** The calls that change the scope or the configuration. */
    method ExecSetting(c: Command)
      requires !(c.DoGroup? || c.DoRoute? || c.DoMap? || c.DoAny? || c.DoResource? || c.DoApiResource?)
      modifies this
      ensures State() == RouterSpec.Exec(old(State()), c)
    {
      match c
      case DoWithMiddleware(arg) => WithMiddleware(arg);
      case DoPattern(key, regex) => Pattern(key, regex);
      case DoPatterns(table) => Patterns(table);
      case DoGlobalMiddleware(arg) => AddGlobalMiddleware(arg);
      case DoRegisterMiddleware(table) => RegisterMiddleware(table);
      case DoNotFoundHandler(h) => SetNotFoundHandler(h);
      case DoMethodNotAllowedHandler(h) => SetMethodNotAllowedHandler(h);
      case DoBasePath(b) => SetBasePath(b);
    }

    /** withMiddleware($middleware), editing the last route in place. */
    method WithMiddleware(arg: MwArg)
      modifies this
      ensures State() == RouterSpec.WithMiddleware(old(State()), arg)
    {
      if lastMethod.Some? {
        var list := RoutesFor(State(), lastMethod.value);
        if |list| > 0 {
          var last := list[|list| - 1];
          list := list[..|list| - 1] + [last.(middleware := last.middleware + MwList(arg))];
          routes := Php.Put(routes, lastMethod.value, list);
        }
      }
    }

    method Pattern(key: string, regex: string)
      modifies this
      ensures State() == old(State()).(patterns := Php.Put(old(patterns), key, regex))
    {
      patterns := Php.Put(patterns, key, regex);
    }

    method Patterns(table: RouteTemplate.Patterns)
      modifies this
      ensures State() == old(State()).(patterns := MergeTable(old(patterns), table))
    {
      patterns := MergeTable(patterns, table);
    }

    method AddGlobalMiddleware(arg: MwArg)
      modifies this
      ensures State() == old(State()).(globalMiddleware := old(globalMiddleware) + MwList(arg))
    {
      globalMiddleware := globalMiddleware + MwList(arg);
    }

    method RegisterMiddleware(table: seq<(string, string)>)
      modifies this
      ensures State() == old(State()).(aliases := MergeTable(old(aliases), table))
    {
      aliases := MergeTable(aliases, table);
    }

    method SetNotFoundHandler(h: Handler)
      modifies this
      ensures State() == old(State()).(notFound := h)
    {
      notFound := h;
    }

    method SetMethodNotAllowedHandler(h: Handler)
      modifies this
      ensures State() == old(State()).(methodNotAllowed := h)
    {
      methodNotAllowed := h;
    }

    method SetBasePath(b: string)
      modifies this
      ensures State() == old(State()).(basePath := b)
    {
      basePath := b;
    }

    /** findRoute: the loop over the method's routes, returning at the first match. */
    method FindRoute(verb: string, path: string, custom: (string, string) -> bool) returns (r: Option<(RouteEntry, Entries)>)
      ensures r == RouterSpec.FindRoute(State(), verb, path, custom)
    {
      var list := RoutesFor(State(), verb);
      var i := 0;
      while i < |list|
        invariant 0 <= i <= |list|
        invariant forall j :: 0 <= j < i ==> RouteMatch(list[j], path, custom).None?
        invariant FirstMatch(list, path, custom) >= i
      {
        var m := RouteMatch(list[i], path, custom);
        if m.Some? {
          return Some((list[i], ParamsOf(m.value)));
        }
        i := i + 1;
      }
      return None;
    }

    /** getAllowedMethods: every method of `$methods` except OPTIONS whose routes match. */
    method GetAllowedMethods(path: string, custom: (string, string) -> bool) returns (allowed: seq<string>)
      ensures allowed == AllowedMethods(State(), path, custom)
    {
      allowed := [];
      var i := 0;
      while i < |Methods|
        invariant 0 <= i <= |Methods|
        invariant allowed == AllowedAmong(State(), Methods[..i], path, custom)
      {
        var m := Methods[i];
        assert Methods[..i + 1][..i] == Methods[..i];
        if m != "OPTIONS" {
          var found := FindRoute(m, path, custom);
          if found.Some? {
            allowed := allowed + [m];
          }
        }
        i := i + 1;
      }
      assert Methods[..i] == Methods;
    }

    /** url($name, $params): the substitution loop over the parameters, then the two removals. */
    method Url(name: string, params: Entries) returns (r: Result<string>)
      ensures r == RouterSpec.Url(State(), name, params)
    {
      var nr := Php.Get(named, name);
      if nr.None? {
        return Err("Route not found: " + name);
      }
      var route := nr.value.route;
      var i := 0;
      while i < |params|
        invariant 0 <= i <= |params|
        invariant Substitute(route, params[i..]) == Substitute(nr.value.route, params)
      {
        route := StrReplace(":" + KeyText(params[i].0), ToStr(params[i].1), route);
        assert params[i..][1..] == params[i + 1..];
        i := i + 1;
      }
      route := StripParams(route);
      route := StripOptional(route);
      return Ok(basePath + route);
    }
  }
}
