/**
 * The application's route table (app/config/routes.php): the registration
 * calls it makes on a fresh router, and what the resulting router does with
 * the requests the table is about.
 *
 * Each `post`/`get` call followed by an optional `withMiddleware` is a Reg;
 * each group of the "/api/v1" group is a Block. json_encode and time() are
 * parameters of the two closures that use them.
 */
module RoutesConfig {
  import opened Text
  import opened Php
  import opened RouteTemplate
  import opened RouterSpec
  import ResponseSpec
  import Router

  /** One `$router->post/get(route, 'Controller@action')`, with the list given to `withMiddleware` ([] when not called). */
  datatype Reg = Reg(verb: string, route: string, action: string, middleware: seq<string>)

  /** One `$router->group(['prefix' => ..., 'middleware' => ...], callback)` whose callback only registers routes. */
  datatype Block = Block(prefix: string, middleware: Option<MwArg>, regs: seq<Reg>)

  function Names(ns: seq<string>): (ms: seq<MwRef>)
    ensures |ms| == |ns| && forall i :: 0 <= i < |ns| ==> ms[i] == MwName(ns[i])
  {
    seq(|ns|, i requires 0 <= i < |ns| => MwName(ns[i]))
  }

  function RegCalls(r: Reg): seq<Command>
  {
    [DoRoute(r.verb, r.route, Action(r.action), None)]
      + (if r.middleware == [] then [] else [DoWithMiddleware(Many(Names(r.middleware)))])
  }

  function Calls(rs: seq<Reg>): seq<Command>
    decreases |rs|
  {
    if rs == [] then [] else RegCalls(rs[0]) + Calls(rs[1..])
  }

  function BlockAttrs(b: Block): GroupAttrs { GroupAttrs(b.prefix, b.middleware) }

  function Blocks(bs: seq<Block>): seq<Command>
    decreases |bs|
  {
    if bs == [] then [] else [DoGroup(BlockAttrs(bs[0]), Calls(bs[0].regs))] + Blocks(bs[1..])
  }

  const AuthAlias := "App\\Middleware\\AuthMiddleware"
  const BasicAlias := "App\\Middleware\\BasicAuthMiddleware"
  const VerifyPwAlias := "App\\Middleware\\VerifySecondaryPasswordMiddleware"
  const LogAlias := "App\\Middleware\\RequestLoggerMiddleware"

  /** registerMiddleware's table. */
  const Aliases: seq<(string, string)> := [("auth", AuthAlias), ("basic", BasicAlias), ("verifyPw", VerifyPwAlias), ("log", LogAlias)]

  /** `$v1BasePath`: the empty `$basePath` followed by "/api/v1". */
  const V1Prefix := "/api/v1"

  const HealthPath := "/health"

  // The registrations, one constant each, in file order.
  const Login := Reg("POST", "/login", "UserController@login", ["log"])
  const Logout := Reg("POST", "/logout", "UserController@logout", ["log"])
  const VerifyToken := Reg("POST", "/verify-platform-access-token", "UserController@validatePlatformAccessToken", ["log"])
  const IssueToken := Reg("POST", "/get-platform-access-token", "UserController@generatePlatformAccessToken", ["basic"])
  const VerifyRedirect := Reg("POST", "/verify-redirect", "UserController@validatePlatformAccessToken", [])
  const BuildingList := Reg("POST", "/building-list-to-select", "PlatformController@getBuildingToSelect", ["basic"])
  const SiteList := Reg("POST", "/site-list-to-select", "PlatformController@getSiteListToSelect", ["basic"])
  const EntityList := Reg("POST", "/entity-list-to-select", "PlatformController@getEntityToSelect", ["basic"])
  const PlantList := Reg("POST", "/plant-list-to-select", "PlatformController@getPlantListToSelect", ["basic"])
  const WarehouseList := Reg("POST", "/all-warehouse-list-to-select", "PlatformController@getWarehouseListToSelect", [])
  const PlatformList := Reg("POST", "/get-platform-list", "PlatformController@getPlatformList", ["basic"])
  const UserList := Reg("POST", "/user-list-to-select", "PlatformController@getUserListToSelect", ["basic"])
  const UserPlants := Reg("POST", "/get-user-plant-list", "PlatformController@getUserPlantList", ["basic"])
  const UserWarehouses := Reg("POST", "/get-user-warehouse-list", "PlatformController@getUserWarehouseList", ["basic"])
  const UserEntities := Reg("POST", "/get-user-entity-list", "PlatformController@getUserEntityList", ["basic"])
  const UserProfile := Reg("POST", "/get-user-profile", "PlatformController@getBasicProfile", ["basic"])
  const UpdateUserEntity := Reg("POST", "/update-user-entity", "UserController@updateUserEntity", ["basic"])
  const SystemLogs := Reg("POST", "/list", "SystemLogHistoryController@getAllLogs", ["auth"])
  const Me := Reg("GET", "/me", "AuthController@me", [])

  const AuthRegs := [Login, Logout, VerifyToken, IssueToken, VerifyRedirect]
  const UserRegs := [PlatformList, UserList, UserPlants, UserWarehouses, UserEntities, UserProfile, UpdateUserEntity]

  /** The groups inside the "/api/v1" group, in file order. */
  const AuthBlock := Block("auth", None, AuthRegs)
  const BuildingBlock := Block("building", None, [BuildingList])
  const SiteBlock := Block("site", None, [SiteList])
  const EntityBlock := Block("entity", None, [EntityList])
  const PlantBlock := Block("plant", None, [PlantList])
  const WarehouseBlock := Block("warehouse", None, [WarehouseList])
  const UserBlock := Block("user", None, UserRegs)
  const SystemLogBlock := Block("system-log", None, [SystemLogs])
  const MeBlock := Block("auth", Some(One(MwName("auth"))), [Me])

  const V1Blocks: seq<Block> := [
    AuthBlock, BuildingBlock, SiteBlock, EntityBlock, PlantBlock, WarehouseBlock, UserBlock, SystemLogBlock, MeBlock]

  /** The body the custom not-found handler encodes. */
  const NotFoundBody: Value := Arr([
    (StrKey("success"), Bool(false)), (StrKey("message"), Str("Resource not found")),
    (StrKey("error"), Str("Not Found")), (StrKey("status_code"), Int(404))])

  /** The body of GET /health, with the time of the request. */
  function HealthBody(now: int): Value
  {
    Arr([(StrKey("status"), Str("ok")), (StrKey("timestamp"), Int(now))])
  }

  /** setStatusCode, then setContent(json_encode(body)), then setHeader('Content-Type', 'application/json'). */
  function JsonReply(r: ResponseSpec.RespState, code: int, encoded: string): ResponseSpec.RespState
  {
    ResponseSpec.SetHeader(ResponseSpec.SetContent(ResponseSpec.SetStatusCode(r, code), Str(encoded)),
                           "Content-Type", Str("application/json"), true)
  }

  function NotFoundHandler(encode: Value -> string): Handler
  {
    Call((q: Req, r: Resp, args: seq<Value>) => Done(q, JsonReply(r, 404, encode(NotFoundBody))))
  }

  function HealthHandler(encode: Value -> string, now: int): Handler
  {
    Call((q: Req, r: Resp, args: seq<Value>) => Done(q, JsonReply(r, 200, encode(HealthBody(now)))))
  }

  /** The route file's calls, in order, for a given "/api/v1" prefix, groups and health path. */
  function TableOf(encode: Value -> string, now: int, v1: string, bs: seq<Block>, hp: string): seq<Command>
  {
    [DoGlobalMiddleware(Many([])),
     DoRegisterMiddleware(Aliases),
     DoGroup(GroupAttrs(v1, None), Blocks(bs)),
     DoNotFoundHandler(NotFoundHandler(encode)),
     DoRoute("GET", hp, HealthHandler(encode, now), None)]
  }

  /** The route file's calls. */
  function Table(encode: Value -> string, now: int): seq<Command>
  {
    TableOf(encode, now, V1Prefix, V1Blocks, HealthPath)
  }

  /** The router the route file returns. */
  function Configured(encode: Value -> string, now: int): RouterState
  {
    Run(Initial(""), Table(encode, now))
  }

  /** The route file as it runs: a new router, then its calls one after the other. */
  method Configure(encode: Value -> string, now: int) returns (router: Router.Router)
    ensures router.State() == Configured(encode, now)
  {
    router := new Router.Router("");
    router.Run(Table(encode, now));
  }

  // ---------------------------------------------------------------------
  // What registration calls do, in general

  lemma {:induction false} RunAppend(s: RouterState, a: seq<Command>, b: seq<Command>)
    ensures Run(s, a + b) == Run(Run(s, a), b)
    decreases |a|
  {
    if a == [] {
      assert a + b == b;
    } else {
      assert (a + b)[0] == a[0] && (a + b)[1..] == a[1..] + b;
      assert Run(s, a + b) == Run(Exec(s, a[0]), a[1..] + b);
      RunAppend(Exec(s, a[0]), a[1..], b);
    }
  }

  /** The fields that only the scoping and configuration calls change. */
  ghost predicate Keeps(s: RouterState, t: RouterState)
  {
    t.prefix == s.prefix && t.groupMiddleware == s.groupMiddleware && t.basePath == s.basePath
    && t.patterns == s.patterns && t.globalMiddleware == s.globalMiddleware && t.aliases == s.aliases
    && t.notFound == s.notFound && t.methodNotAllowed == s.methodNotAllowed
  }

  /** The entry a Reg adds in state s. */
  function EntryOf(s: RouterState, r: Reg): RouteEntry
  {
    var e := EntryFor(s, r.route, Action(r.action));
    e.(middleware := e.middleware + Names(r.middleware))
  }

  /** The entries the Regs add to a method's list, in order. */
  function Registered(s: RouterState, rs: seq<Reg>, verb: string): seq<RouteEntry>
    decreases |rs|
  {
    if rs == [] then []
    else (if rs[0].verb == verb then [EntryOf(s, rs[0])] else []) + Registered(s, rs[1..], verb)
  }

  /** What a Reg's calls amount to: addRoute, then withMiddleware when it has a list. */
  function RegEffect(s: RouterState, r: Reg): RouterState
  {
    var s1 := AddRoute(s, r.verb, r.route, Action(r.action), None);
    if r.middleware == [] then s1 else WithMiddleware(s1, Many(Names(r.middleware)))
  }

  lemma RegRun(s: RouterState, r: Reg)
    ensures Run(s, RegCalls(r)) == RegEffect(s, r)
  {
    var c := DoRoute(r.verb, r.route, Action(r.action), None);
    var s1 := AddRoute(s, r.verb, r.route, Action(r.action), None);
    RunRoute(s, r.verb, r.route, Action(r.action));
    if r.middleware != [] {
      var d := DoWithMiddleware(Many(Names(r.middleware)));
      assert RegCalls(r) == [c] + [d];
      RunAppend(s, [c], [d]);
      RunWith(s1, Many(Names(r.middleware)));
    } else {
      assert RegCalls(r) == [c];
    }
  }

  lemma RunRoute(s: RouterState, verb: string, route: string, h: Handler)
    ensures Run(s, [DoRoute(verb, route, h, None)]) == AddRoute(s, verb, route, h, None)
  {
    RunOne(s, DoRoute(verb, route, h, None));
  }

  lemma RunWith(s: RouterState, arg: MwArg)
    ensures Run(s, [DoWithMiddleware(arg)]) == WithMiddleware(s, arg)
  {
    RunOne(s, DoWithMiddleware(arg));
  }

  lemma AddRouteRoutes(s: RouterState, r: Reg, verb: string)
    ensures var t := AddRoute(s, r.verb, r.route, Action(r.action), None);
      && RoutesFor(t, verb) == RoutesFor(s, verb) + (if r.verb == verb then [EntryFor(s, r.route, Action(r.action))] else [])
      && Keeps(s, t) && t.lastMethod == Some(r.verb)
  {
    var e := EntryFor(s, r.route, Action(r.action));
    GetPut(s.routes, r.verb, RoutesFor(s, r.verb) + [e], verb);
  }

  lemma WithMiddlewareRoutes(s: RouterState, arg: MwArg, verb: string)
    requires s.lastMethod.Some? && RoutesFor(s, s.lastMethod.value) != []
    ensures var t := WithMiddleware(s, arg);
      var list := RoutesFor(s, s.lastMethod.value);
      var last := list[|list| - 1];
      && RoutesFor(t, verb) == (if verb == s.lastMethod.value then list[..|list| - 1] + [last.(middleware := last.middleware + MwList(arg))] else RoutesFor(s, verb))
      && Keeps(s, t)
  {
    var m := s.lastMethod.value;
    var list := RoutesFor(s, m);
    var last := list[|list| - 1];
    GetPut(s.routes, m, list[..|list| - 1] + [last.(middleware := last.middleware + MwList(arg))], verb);
  }

  /** A registration without withMiddleware adds one entry, with the group middleware. */
  lemma RegPlain(s: RouterState, r: Reg, verb: string)
    requires r.middleware == []
    ensures RoutesFor(RegEffect(s, r), verb) == RoutesFor(s, verb) + (if r.verb == verb then [EntryOf(s, r)] else [])
    ensures Keeps(s, RegEffect(s, r))
  {
    EntryOfNoList(s, r);
    assert RegEffect(s, r) == AddRoute(s, r.verb, r.route, Action(r.action), None);
    AddRouteRoutes(s, r, verb);
  }

  lemma EntryOfNoList(s: RouterState, r: Reg)
    requires r.middleware == []
    ensures EntryOf(s, r) == EntryFor(s, r.route, Action(r.action))
  {
    var e := EntryFor(s, r.route, Action(r.action));
    assert Names(r.middleware) == [];
    assert e.middleware + [] == e.middleware;
  }

  /** A registration followed by withMiddleware adds one entry, with the group middleware and then the given list. */
  lemma RegWith(s: RouterState, r: Reg, verb: string)
    requires r.middleware != []
    ensures RoutesFor(RegEffect(s, r), verb) == RoutesFor(s, verb) + (if r.verb == verb then [EntryOf(s, r)] else [])
    ensures Keeps(s, RegEffect(s, r))
  {
    var h := Action(r.action);
    var s1 := AddRoute(s, r.verb, r.route, h, None);
    AddRouteRoutes(s, r, verb);
    AddRouteRoutes(s, r, r.verb);
    var arg := Many(Names(r.middleware));
    WithMiddlewareRoutes(s1, arg, verb);
    var list := RoutesFor(s1, r.verb);
    assert list == RoutesFor(s, r.verb) + [EntryFor(s, r.route, h)];
    assert list[..|list| - 1] == RoutesFor(s, r.verb);
  }

  /** What a list of Regs amounts to: their effects one after the other. */
  function CallsEffect(s: RouterState, rs: seq<Reg>): RouterState
    decreases |rs|
  {
    if rs == [] then s else CallsEffect(RegEffect(s, rs[0]), rs[1..])
  }

  lemma {:induction false} CallsRun(s: RouterState, rs: seq<Reg>)
    ensures Run(s, Calls(rs)) == CallsEffect(s, rs)
    decreases |rs|
  {
    if rs == [] {
      assert Calls(rs) == [];
    } else {
      assert Calls(rs) == RegCalls(rs[0]) + Calls(rs[1..]);
      RunAppend(s, RegCalls(rs[0]), Calls(rs[1..]));
      RegRun(s, rs[0]);
      CallsRun(RegEffect(s, rs[0]), rs[1..]);
    }
  }

  lemma {:induction false} CallsSpec(s: RouterState, rs: seq<Reg>, verb: string)
    ensures var t := CallsEffect(s, rs);
      RoutesFor(t, verb) == RoutesFor(s, verb) + Registered(s, rs, verb) && Keeps(s, t)
    decreases |rs|
  {
    if rs == [] {
      assert RoutesFor(s, verb) + [] == RoutesFor(s, verb);
    } else {
      var s1 := RegEffect(s, rs[0]);
      var x := if rs[0].verb == verb then [EntryOf(s, rs[0])] else [];
      assert RoutesFor(s1, verb) == RoutesFor(s, verb) + x && Keeps(s, s1) by {
        if rs[0].middleware == [] {
          RegPlain(s, rs[0], verb);
        } else {
          RegWith(s, rs[0], verb);
        }
      }
      var t := CallsEffect(s1, rs[1..]);
      assert RoutesFor(t, verb) == RoutesFor(s1, verb) + Registered(s1, rs[1..], verb) && Keeps(s1, t) by {
        CallsSpec(s1, rs[1..], verb);
      }
      assert Registered(s1, rs[1..], verb) == Registered(s, rs[1..], verb) by {
        RegisteredSame(s, s1, rs[1..], verb);
      }
      assert Registered(s, rs, verb) == x + Registered(s, rs[1..], verb);
      var a, b := RoutesFor(s, verb), Registered(s, rs[1..], verb);
      Assoc(a, x, b);
      assert CallsEffect(s, rs) == t;
    }
  }

  /** The entries depend only on the fields Keeps preserves. */
  lemma {:induction false} RegisteredSame(s: RouterState, t: RouterState, rs: seq<Reg>, verb: string)
    requires Keeps(s, t)
    ensures Registered(t, rs, verb) == Registered(s, rs, verb)
    decreases |rs|
  {
    if rs != [] {
      RegisteredSame(s, t, rs[1..], verb);
    }
  }

  /** A group of registrations adds their entries with the group's prefix and middleware, then restores the scope. */
  lemma BlockSpec(s: RouterState, b: Block, verb: string)
    ensures var t := GroupRun(s, BlockAttrs(b), Calls(b.regs));
      RoutesFor(t, verb) == RoutesFor(s, verb) + Registered(EnterGroup(s, BlockAttrs(b)), b.regs, verb) && Keeps(s, t)
  {
    var g := EnterGroup(s, BlockAttrs(b));
    CallsRun(g, b.regs);
    CallsSpec(g, b.regs, verb);
  }

  /** The entries of the groups, one group after the other. */
  function AllRegistered(s: RouterState, bs: seq<Block>, verb: string): seq<RouteEntry>
    decreases |bs|
  {
    if bs == [] then [] else Registered(EnterGroup(s, BlockAttrs(bs[0])), bs[0].regs, verb) + AllRegistered(s, bs[1..], verb)
  }

  /** What a list of groups amounts to. */
  function BlocksEffect(s: RouterState, bs: seq<Block>): RouterState
    decreases |bs|
  {
    if bs == [] then s else BlocksEffect(GroupRun(s, BlockAttrs(bs[0]), Calls(bs[0].regs)), bs[1..])
  }

  lemma {:induction false} BlocksRun(s: RouterState, bs: seq<Block>)
    ensures Run(s, Blocks(bs)) == BlocksEffect(s, bs)
    decreases |bs|
  {
    if bs == [] {
      assert Blocks(bs) == [];
    } else {
      var c := DoGroup(BlockAttrs(bs[0]), Calls(bs[0].regs));
      assert Blocks(bs) == [c] + Blocks(bs[1..]);
      RunCons(s, c, Blocks(bs[1..]));
      ExecGroup(s, c);
      BlocksRun(GroupRun(s, BlockAttrs(bs[0]), Calls(bs[0].regs)), bs[1..]);
    }
  }

  lemma {:induction false} BlocksSpec(s: RouterState, bs: seq<Block>, verb: string)
    ensures var t := BlocksEffect(s, bs);
      RoutesFor(t, verb) == RoutesFor(s, verb) + AllRegistered(s, bs, verb) && Keeps(s, t)
    decreases |bs|
  {
    if bs == [] {
      assert RoutesFor(s, verb) + [] == RoutesFor(s, verb);
    } else {
      var s1 := GroupRun(s, BlockAttrs(bs[0]), Calls(bs[0].regs));
      var x := Registered(EnterGroup(s, BlockAttrs(bs[0])), bs[0].regs, verb);
      assert RoutesFor(s1, verb) == RoutesFor(s, verb) + x && Keeps(s, s1) by {
        BlockSpec(s, bs[0], verb);
      }
      var t := BlocksEffect(s1, bs[1..]);
      assert RoutesFor(t, verb) == RoutesFor(s1, verb) + AllRegistered(s1, bs[1..], verb) && Keeps(s1, t) by {
        BlocksSpec(s1, bs[1..], verb);
      }
      assert AllRegistered(s1, bs[1..], verb) == AllRegistered(s, bs[1..], verb) by {
        AllRegisteredSame(s, s1, bs[1..], verb);
      }
      assert AllRegistered(s, bs, verb) == x + AllRegistered(s, bs[1..], verb);
      var a, b := RoutesFor(s, verb), AllRegistered(s, bs[1..], verb);
      Assoc(a, x, b);
      assert BlocksEffect(s, bs) == t;
    }
  }

  lemma {:induction false} AllRegisteredSame(s: RouterState, t: RouterState, bs: seq<Block>, verb: string)
    requires Keeps(s, t)
    ensures AllRegistered(t, bs, verb) == AllRegistered(s, bs, verb)
    decreases |bs|
  {
    if bs != [] {
      RegisteredSame(EnterGroup(s, BlockAttrs(bs[0])), EnterGroup(t, BlockAttrs(bs[0])), bs[0].regs, verb);
      AllRegisteredSame(s, t, bs[1..], verb);
    }
  }

  // ---------------------------------------------------------------------
  // The entries of this file: plain routes under plain prefixes

  /** No '?', ':' or '[': nothing for normalizePath to cut and nothing for compilation to rewrite. */
  predicate NoSpecial(s: string)
  {
    forall i :: 0 <= i < |s| ==> s[i] != '?' && s[i] != ':' && s[i] != '['
  }

  /** One leading '/' and no trailing one. */
  predicate Slashed(route: string)
  {
    |route| >= 2 && route[0] == '/' && route[1] != '/' && route[|route| - 1] != '/'
  }

  /** A route with no placeholder and no optional part, which normalizePath leaves alone. */
  predicate PlainRoute(route: string)
  {
    Slashed(route) && NoSpecial(route)
  }

  lemma PlainRouteSpec(route: string)
    requires PlainRoute(route)
    ensures IsNormal(route) && ':' !in route && '[' !in route
  {
  }

  /** A group prefix with no slash at its ends. */
  predicate PlainSegment(seg: string)
  {
    seg != [] && seg[0] != '/' && seg[|seg| - 1] != '/' && NoSpecial(seg)
  }

  /** A scope in which addRoute only joins: no base path, and an empty or plain prefix. */
  predicate PlainScope(s: RouterState)
  {
    s.basePath == "" && (s.prefix == "" || PlainRoute(s.prefix))
  }

  predicate PlainRegs(rs: seq<Reg>)
  {
    forall i :: 0 <= i < |rs| ==> PlainRoute(rs[i].route)
  }

  predicate PlainBlocks(bs: seq<Block>)
  {
    forall i :: 0 <= i < |bs| ==> PlainSegment(bs[i].prefix) && PlainRegs(bs[i].regs)
  }

  /** The entry of a plain route: the prefix joined to it, matched literally. */
  function Entry(prefix: string, gm: seq<MwRef>, r: Reg): RouteEntry
  {
    RouteEntry(prefix + r.route, Some(Lits(prefix + r.route)), Action(r.action), gm + Names(r.middleware))
  }

  /** The middleware a group attribute adds. */
  function MwOf(m: Option<MwArg>): seq<MwRef>
  {
    if m.Some? then MwList(m.value) else []
  }

  /** The entries of a list of Regs under a prefix, for one method. */
  function Expect(prefix: string, gm: seq<MwRef>, rs: seq<Reg>, verb: string): seq<RouteEntry>
    decreases |rs|
  {
    if rs == [] then []
    else (if rs[0].verb == verb then [Entry(prefix, gm, rs[0])] else []) + Expect(prefix, gm, rs[1..], verb)
  }

  /** The entries of a list of groups under a prefix, for one method. */
  function AllExpect(prefix: string, gm: seq<MwRef>, bs: seq<Block>, verb: string): seq<RouteEntry>
    decreases |bs|
  {
    if bs == [] then []
    else (Expect(prefix + "/" + bs[0].prefix, gm + MwOf(bs[0].middleware), bs[0].regs, verb)
          + AllExpect(prefix, gm, bs[1..], verb))
  }

  /** In a plain scope addRoute stores prefix + route, compiled to a literal pattern. */
  lemma EntryOfPlain(s: RouterState, r: Reg)
    requires PlainScope(s) && PlainRoute(r.route)
    ensures EntryOf(s, r) == Entry(s.prefix, s.groupMiddleware, r)
  {
    PlainRouteSpec(r.route);
    if s.prefix != "" {
      PlainRouteSpec(s.prefix);
    }
    JoinNormal(s.prefix, r.route);
    var p := s.prefix + r.route;
    CompileLiteral(p, s.patterns);
  }

  lemma {:induction false} RegisteredPlain(s: RouterState, rs: seq<Reg>, verb: string)
    requires PlainScope(s) && PlainRegs(rs)
    ensures Registered(s, rs, verb) == Expect(s.prefix, s.groupMiddleware, rs, verb)
    decreases |rs|
  {
    if rs != [] {
      var x := if rs[0].verb == verb then [EntryOf(s, rs[0])] else [];
      var y := if rs[0].verb == verb then [Entry(s.prefix, s.groupMiddleware, rs[0])] else [];
      assert x == y by {
        assert PlainRoute(rs[0].route);
        EntryOfPlain(s, rs[0]);
      }
      assert Registered(s, rs[1..], verb) == Expect(s.prefix, s.groupMiddleware, rs[1..], verb) by {
        assert PlainRegs(rs[1..]) by {
          forall i | 0 <= i < |rs[1..]| ensures PlainRoute(rs[1..][i].route) {
            assert rs[1..][i] == rs[i + 1];
          }
        }
        RegisteredPlain(s, rs[1..], verb);
      }
      assert Registered(s, rs, verb) == x + Registered(s, rs[1..], verb);
      assert Expect(s.prefix, s.groupMiddleware, rs, verb) == y + Expect(s.prefix, s.groupMiddleware, rs[1..], verb);
    }
  }

  /** '/' and a plain segment after an empty or plain prefix make a plain route. */
  lemma SegmentJoin(prefix: string, seg: string)
    requires prefix == "" || PlainRoute(prefix)
    requires PlainSegment(seg)
    ensures PlainRoute(prefix + "/" + seg)
  {
    var p := prefix + "/" + seg;
    if prefix == "" {
      assert p[1] == seg[0];
    } else {
      assert p[1] == prefix[1];
    }
    assert p[|p| - 1] == seg[|seg| - 1];
    forall i | 0 <= i < |p| ensures p[i] != '?' && p[i] != ':' && p[i] != '[' {
      if i < |prefix| {
        assert p[i] == prefix[i];
      } else if i > |prefix| {
        assert p[i] == seg[i - |prefix| - 1];
      }
    }
  }

  /** A plain group extends a plain scope by '/' and the segment. */
  lemma EnterSegment(s: RouterState, b: Block)
    requires PlainScope(s) && PlainSegment(b.prefix)
    ensures var g := EnterGroup(s, BlockAttrs(b));
      && g.prefix == s.prefix + "/" + b.prefix && PlainScope(g)
      && g.groupMiddleware == s.groupMiddleware + MwOf(b.middleware)
  {
    TrimSegment(b.prefix);
    SegmentJoin(s.prefix, b.prefix);
  }

  lemma {:induction false} AllRegisteredPlain(s: RouterState, bs: seq<Block>, verb: string)
    requires PlainScope(s) && PlainBlocks(bs)
    ensures AllRegistered(s, bs, verb) == AllExpect(s.prefix, s.groupMiddleware, bs, verb)
    decreases |bs|
  {
    if bs != [] {
      EnterSegment(s, bs[0]);
      RegisteredPlain(EnterGroup(s, BlockAttrs(bs[0])), bs[0].regs, verb);
      AllRegisteredPlain(s, bs[1..], verb);
    }
  }

  /** The "/api/v1" group at top level: its groups' entries, joined under the prefix. */
  lemma GroupBlocks(s: RouterState, v1: string, bs: seq<Block>, verb: string)
    requires PlainScope(s) && s.prefix == "" && PlainRoute(v1) && PlainBlocks(bs)
    ensures var t := GroupRun(s, GroupAttrs(v1, None), Blocks(bs));
      RoutesFor(t, verb) == RoutesFor(s, verb) + AllExpect(v1, s.groupMiddleware, bs, verb) && Keeps(s, t)
  {
    var g := EnterGroup(s, GroupAttrs(v1, None));
    EnterTop(s, v1);
    BlocksRun(g, bs);
    BlocksSpec(g, bs, verb);
    AllRegisteredPlain(g, bs, verb);
  }

  /** Entering a top-level group with a plain prefix and no middleware only sets the prefix. */
  lemma EnterTop(s: RouterState, v1: string)
    requires s.prefix == "" && PlainRoute(v1)
    ensures EnterGroup(s, GroupAttrs(v1, None)) == s.(prefix := v1)
  {
    PlainRouteSpec(v1);
    TrimRoute(v1);
    var p := s.prefix + "/" + Trim(v1, {'/'});
    assert p == v1 by {
      assert s.prefix + "/" == "/";
      assert "/" + v1[1..] == v1;
    }
    assert EnterGroup(s, GroupAttrs(v1, None)) == s.(prefix := p);
  }

  lemma AddRouteRoutesOf(s: RouterState, m: string, route: string, h: Handler, verb: string)
    ensures var t := AddRoute(s, m, route, h, None);
      RoutesFor(t, verb) == RoutesFor(s, verb) + (if verb == m then [EntryFor(s, route, h)] else []) && Keeps(s, t)
  {
    GetPut(s.routes, m, RoutesFor(s, m) + [EntryFor(s, route, h)], verb);
  }

  /** A top-level plain route with a closure handler. */
  lemma TopRoute(s: RouterState, m: string, hp: string, h: Handler, verb: string)
    requires PlainScope(s) && s.prefix == "" && PlainRoute(hp)
    ensures var t := AddRoute(s, m, hp, h, None);
      && RoutesFor(t, verb) == RoutesFor(s, verb) + (if verb == m then [RouteEntry(hp, Some(Lits(hp)), h, s.groupMiddleware)] else [])
      && Keeps(s, t)
  {
    AddRouteRoutesOf(s, m, hp, h, verb);
    PlainRouteSpec(hp);
    JoinNormal("", hp);
    assert "" + hp == hp;
    assert RoutePath(s, hp) == hp;
    CompileLiteral(hp, s.patterns);
    assert EntryFor(s, hp, h) == RouteEntry(hp, Some(Lits(hp)), h, s.groupMiddleware);
  }

  /** array_merge into an empty table of a table with distinct keys gives that table. */
  lemma {:induction false} MergeFresh<V>(t: seq<(string, V)>)
    requires UniqueKeys(t)
    ensures MergeTable([], t) == t
    decreases |t|
  {
    if t != [] {
      var n := |t| - 1;
      var init := t[..n];
      assert UniqueKeys(init) by {
        forall i, j | 0 <= i < j < |init| ensures init[i].0 != init[j].0 {
          assert init[i] == t[i] && init[j] == t[j];
        }
      }
      MergeFresh(init);
      assert !Has(init, t[n].0);
      assert MergeTable([], t) == Put(init, t[n].0, t[n].1);
      assert init + [(t[n].0, t[n].1)] == t;
    }
  }

  lemma RunCons(s: RouterState, c: Command, cs: seq<Command>)
    ensures Run(s, [c] + cs) == Run(Exec(s, c), cs)
  {
    assert ([c] + cs)[0] == c && ([c] + cs)[1..] == cs;
  }

  /** The state after the route file's calls, each call applied to the state the previous one left. */
  function TableEffect(s0: RouterState, encode: Value -> string, now: int, v1: string, bs: seq<Block>, hp: string): RouterState
  {
    var s1 := s0.(globalMiddleware := s0.globalMiddleware + MwList(Many([])));
    var s2 := s1.(aliases := MergeTable(s1.aliases, Aliases));
    var s3 := GroupRun(s2, GroupAttrs(v1, None), Blocks(bs));
    var s4 := s3.(notFound := NotFoundHandler(encode));
    AddRoute(s4, "GET", hp, HealthHandler(encode, now), None)
  }

  /** The route file's calls on a router with an empty scope and no middleware. */
  lemma TableEffectSpec(s0: RouterState, encode: Value -> string, now: int, v1: string, bs: seq<Block>, hp: string, verb: string)
    requires PlainScope(s0) && s0.prefix == "" && s0.groupMiddleware == [] && s0.globalMiddleware == [] && s0.aliases == []
    requires PlainRoute(v1) && PlainBlocks(bs) && PlainRoute(hp)
    ensures var t := TableEffect(s0, encode, now, v1, bs, hp);
      && RoutesFor(t, verb) == RoutesFor(s0, verb) + AllExpect(v1, [], bs, verb)
           + (if verb == "GET" then [RouteEntry(hp, Some(Lits(hp)), HealthHandler(encode, now), [])] else [])
      && t.globalMiddleware == [] && t.aliases == Aliases && t.notFound == NotFoundHandler(encode)
      && t.methodNotAllowed == s0.methodNotAllowed && t.basePath == "" && t.patterns == s0.patterns
  {
    var s1 := s0.(globalMiddleware := s0.globalMiddleware + MwList(Many([])));
    assert s1.globalMiddleware == [];
    var s2 := s1.(aliases := MergeTable(s1.aliases, Aliases));
    MergeFresh(Aliases);
    var s3 := GroupRun(s2, GroupAttrs(v1, None), Blocks(bs));
    GroupBlocks(s2, v1, bs, verb);
    var s4 := s3.(notFound := NotFoundHandler(encode));
    TopRoute(s4, "GET", hp, HealthHandler(encode, now), verb);
  }

  /** The last three calls of the route file: the "/api/v1" group, the not-found handler, GET /health. */
  lemma TableRunTail(s2: RouterState, encode: Value -> string, now: int, v1: string, bs: seq<Block>, hp: string)
    ensures Run(s2, [DoGroup(GroupAttrs(v1, None), Blocks(bs)), DoNotFoundHandler(NotFoundHandler(encode)),
                     DoRoute("GET", hp, HealthHandler(encode, now), None)])
         == AddRoute(GroupRun(s2, GroupAttrs(v1, None), Blocks(bs)).(notFound := NotFoundHandler(encode)),
                     "GET", hp, HealthHandler(encode, now), None)
  {
    var c2 := DoGroup(GroupAttrs(v1, None), Blocks(bs));
    var c3 := DoNotFoundHandler(NotFoundHandler(encode));
    var c4 := DoRoute("GET", hp, HealthHandler(encode, now), None);
    var s3 := GroupRun(s2, GroupAttrs(v1, None), Blocks(bs));
    var s4 := s3.(notFound := NotFoundHandler(encode));
    Run3(s2, c2, c3, c4);
    ExecGroup(s2, c2);
    ExecNotFound(s3, NotFoundHandler(encode));
    ExecRoute(s4, "GET", hp, HealthHandler(encode, now));
  }

  /** A callback of three calls makes them in order. */
  lemma Run3(s: RouterState, a: Command, b: Command, c: Command)
    ensures Run(s, [a, b, c]) == Exec(Exec(Exec(s, a), b), c)
  {
    assert [a, b, c] == [a] + [b, c];
    RunCons(s, a, [b, c]);
    assert [b, c] == [b] + [c];
    RunCons(Exec(s, a), b, [c]);
    RunOne(Exec(Exec(s, a), b), c);
  }

  /** The route file's calls amount to TableEffect. */
  lemma TableRunIs(s0: RouterState, encode: Value -> string, now: int, v1: string, bs: seq<Block>, hp: string)
    ensures Run(s0, TableOf(encode, now, v1, bs, hp)) == TableEffect(s0, encode, now, v1, bs, hp)
  {
    var c0 := DoGlobalMiddleware(Many([]));
    var c1 := DoRegisterMiddleware(Aliases);
    var rest := [DoGroup(GroupAttrs(v1, None), Blocks(bs)), DoNotFoundHandler(NotFoundHandler(encode)),
                 DoRoute("GET", hp, HealthHandler(encode, now), None)];
    var s1 := s0.(globalMiddleware := s0.globalMiddleware + MwList(Many([])));
    var s2 := s1.(aliases := MergeTable(s1.aliases, Aliases));
    assert TableOf(encode, now, v1, bs, hp) == [c0] + ([c1] + rest);
    assert Exec(s0, c0) == s1;
    RunCons(s0, c0, [c1] + rest);
    assert Exec(s1, c1) == s2;
    RunCons(s1, c1, rest);
    TableRunTail(s2, encode, now, v1, bs, hp);
  }

  predicate PlainBlock(b: Block) { PlainSegment(b.prefix) && PlainRegs(b.regs) }

  // The checks of the literal routes, in groups small enough to stay cheap.

  lemma SlashedAll()
    ensures Slashed(Login.route) && Slashed(Logout.route) && Slashed(VerifyToken.route) && Slashed(IssueToken.route)
    ensures Slashed(VerifyRedirect.route) && Slashed(BuildingList.route) && Slashed(SiteList.route) && Slashed(EntityList.route)
    ensures Slashed(PlantList.route) && Slashed(WarehouseList.route)
  {
  }

  lemma SlashedUser()
    ensures Slashed(PlatformList.route) && Slashed(UserList.route) && Slashed(UserPlants.route) && Slashed(UserWarehouses.route)
    ensures Slashed(UserEntities.route) && Slashed(UserProfile.route) && Slashed(UpdateUserEntity.route)
    ensures Slashed(SystemLogs.route) && Slashed(Me.route) && Slashed(V1Prefix) && Slashed(HealthPath)
  {
  }

  lemma NoSpecialAuth1()
    ensures NoSpecial(Login.route) && NoSpecial(Logout.route)
  {
  }

  lemma NoSpecialAuth2()
    ensures NoSpecial(VerifyToken.route)
  {
  }

  lemma NoSpecialAuth3()
    ensures NoSpecial(IssueToken.route) && NoSpecial(VerifyRedirect.route)
  {
  }

  lemma NoSpecialAuth()
    ensures NoSpecial(Login.route) && NoSpecial(Logout.route) && NoSpecial(VerifyToken.route) && NoSpecial(IssueToken.route) && NoSpecial(VerifyRedirect.route)
  {
    NoSpecialAuth1();
    NoSpecialAuth2();
    NoSpecialAuth3();
  }

  lemma NoSpecialLists()
    ensures NoSpecial(BuildingList.route) && NoSpecial(SiteList.route)
  {
  }

  lemma NoSpecialMoreLists1()
    ensures NoSpecial(EntityList.route) && NoSpecial(PlantList.route)
  {
  }

  lemma NoSpecialMoreLists2()
    ensures NoSpecial(WarehouseList.route)
  {
  }

  lemma NoSpecialMoreLists()
    ensures NoSpecial(EntityList.route) && NoSpecial(PlantList.route) && NoSpecial(WarehouseList.route)
  {
    NoSpecialMoreLists1();
    NoSpecialMoreLists2();
  }

  lemma NoSpecialUser1()
    ensures NoSpecial(PlatformList.route) && NoSpecial(UserList.route)
  {
  }

  lemma NoSpecialUser2()
    ensures NoSpecial(UserPlants.route)
  {
  }

  lemma NoSpecialUser3()
    ensures NoSpecial(UserWarehouses.route)
  {
  }

  lemma NoSpecialUser()
    ensures NoSpecial(PlatformList.route) && NoSpecial(UserList.route) && NoSpecial(UserPlants.route) && NoSpecial(UserWarehouses.route)
  {
    NoSpecialUser1();
    NoSpecialUser2();
    NoSpecialUser3();
  }

  lemma NoSpecialRest1()
    ensures NoSpecial(UserEntities.route) && NoSpecial(UserProfile.route)
  {
  }

  lemma NoSpecialRest2()
    ensures NoSpecial(UpdateUserEntity.route)
  {
  }

  lemma NoSpecialRest3()
    ensures NoSpecial(SystemLogs.route) && NoSpecial(Me.route)
  {
  }

  lemma NoSpecialRest4()
    ensures NoSpecial(V1Prefix) && NoSpecial(HealthPath)
  {
  }

  lemma NoSpecialRest()
    ensures NoSpecial(UserEntities.route) && NoSpecial(UserProfile.route) && NoSpecial(UpdateUserEntity.route) && NoSpecial(SystemLogs.route) && NoSpecial(Me.route) && NoSpecial(V1Prefix) && NoSpecial(HealthPath)
  {
    NoSpecialRest1();
    NoSpecialRest2();
    NoSpecialRest3();
    NoSpecialRest4();
  }

  lemma PlainSegments()
    ensures PlainSegment("auth") && PlainSegment("building") && PlainSegment("site") && PlainSegment("entity")
    ensures PlainSegment("plant") && PlainSegment("warehouse") && PlainSegment("user") && PlainSegment("system-log")
  {
  }

  /** The route file's groups are plain, and so are "/api/v1" and "/health". */
  lemma V1Plain()
    ensures PlainBlocks(V1Blocks) && PlainRoute(V1Prefix) && PlainRoute(HealthPath)
  {
    SlashedAll();
    SlashedUser();
    NoSpecialAuth();
    NoSpecialLists();
    NoSpecialMoreLists();
    NoSpecialUser();
    NoSpecialRest();
    PlainSegments();
    assert PlainRegs(AuthRegs) && PlainRegs(UserRegs);
    forall i | 0 <= i < |V1Blocks| ensures PlainSegment(V1Blocks[i].prefix) && PlainRegs(V1Blocks[i].regs) {
      assert PlainBlock(V1Blocks[i]);
    }
  }


  // ---------------------------------------------------------------------
  // The routes of the configured router

  lemma {:induction false} ExpectLiteral(prefix: string, gm: seq<MwRef>, rs: seq<Reg>, verb: string)
    ensures LiteralRoutes(Expect(prefix, gm, rs, verb))
    decreases |rs|
  {
    if rs != [] {
      ExpectLiteral(prefix, gm, rs[1..], verb);
    }
  }

  lemma {:induction false} AllExpectLiteral(prefix: string, gm: seq<MwRef>, bs: seq<Block>, verb: string)
    ensures LiteralRoutes(AllExpect(prefix, gm, bs, verb))
    decreases |bs|
  {
    if bs != [] {
      ExpectLiteral(prefix + "/" + bs[0].prefix, gm + MwOf(bs[0].middleware), bs[0].regs, verb);
      AllExpectLiteral(prefix, gm, bs[1..], verb);
    }
  }

  /** The route of GET /health. */
  function HealthEntry(hp: string, encode: Value -> string, now: int): RouteEntry
  {
    RouteEntry(hp, Some(Lits(hp)), HealthHandler(encode, now), [])
  }

  /** The routes of the router the route file returns, for any plain prefix, groups and health path. */
  lemma TableRoutes(s0: RouterState, encode: Value -> string, now: int, v1: string, bs: seq<Block>, hp: string, verb: string)
    requires PlainScope(s0) && s0.prefix == "" && s0.groupMiddleware == [] && s0.globalMiddleware == [] && s0.aliases == []
    requires RoutesFor(s0, verb) == []
    requires PlainRoute(v1) && PlainBlocks(bs) && PlainRoute(hp)
    ensures var c := Run(s0, TableOf(encode, now, v1, bs, hp));
      && RoutesFor(c, verb) == AllExpect(v1, [], bs, verb) + (if verb == "GET" then [HealthEntry(hp, encode, now)] else [])
      && LiteralRoutes(RoutesFor(c, verb))
  {
    var c := Run(s0, TableOf(encode, now, v1, bs, hp));
    var list := AllExpect(v1, [], bs, verb);
    var tail := if verb == "GET" then [HealthEntry(hp, encode, now)] else [];
    assert RoutesFor(c, verb) == list + tail by {
      var t := TableEffect(s0, encode, now, v1, bs, hp);
      TableRunIs(s0, encode, now, v1, bs, hp);
      TableEffectSpec(s0, encode, now, v1, bs, hp, verb);
      assert RoutesFor(t, verb) == [] + list + tail;
      assert [] + list == list;
    }
    assert LiteralRoutes(list + tail) by {
      AllExpectLiteral(v1, [], bs, verb);
      assert LiteralRoutes(tail);
    }
  }

  /** The rest of the router the route file returns. */
  lemma TableFields(s0: RouterState, encode: Value -> string, now: int, v1: string, bs: seq<Block>, hp: string)
    requires PlainScope(s0) && s0.prefix == "" && s0.groupMiddleware == [] && s0.globalMiddleware == [] && s0.aliases == []
    requires PlainRoute(v1) && PlainBlocks(bs) && PlainRoute(hp)
    ensures var c := Run(s0, TableOf(encode, now, v1, bs, hp));
      && c.globalMiddleware == [] && c.aliases == Aliases && c.notFound == NotFoundHandler(encode)
      && c.methodNotAllowed == s0.methodNotAllowed && c.basePath == ""
  {
    TableRunIs(s0, encode, now, v1, bs, hp);
    TableEffectSpec(s0, encode, now, v1, bs, hp, "GET");
  }

  /** A new router has no routes and an empty scope. */
  lemma InitialEmpty(verb: string)
    ensures var s0 := Initial("");
      && PlainScope(s0) && s0.prefix == "" && s0.groupMiddleware == [] && s0.globalMiddleware == [] && s0.aliases == []
      && RoutesFor(s0, verb) == []
  {
    var s0 := Initial("");
    assert forall k :: 0 <= k < |s0.routes| ==> s0.routes[k].1 == [];
  }

  /**
   * The router routes.php returns: no global middleware, the four aliases,
   * the custom not-found handler, the constructor's 405 handler, and for
   * each method the "/api/v1" routes in file order, then GET /health.
   */
  lemma ConfiguredRoutes(encode: Value -> string, now: int, verb: string)
    ensures var c := Configured(encode, now);
      && RoutesFor(c, verb) == AllExpect(V1Prefix, [], V1Blocks, verb) + (if verb == "GET" then [HealthEntry(HealthPath, encode, now)] else [])
      && LiteralRoutes(RoutesFor(c, verb))
      && c.globalMiddleware == [] && c.aliases == Aliases && c.notFound == NotFoundHandler(encode)
      && c.methodNotAllowed == Call(DefaultMethodNotAllowed) && c.basePath == ""
  {
    V1Plain();
    InitialEmpty(verb);
    TableRoutes(Initial(""), encode, now, V1Prefix, V1Blocks, HealthPath, verb);
    TableFields(Initial(""), encode, now, V1Prefix, V1Blocks, HealthPath);
  }

  lemma ExpectCons(prefix: string, gm: seq<MwRef>, r: Reg, rs: seq<Reg>, verb: string)
    ensures Expect(prefix, gm, [r] + rs, verb) == (if r.verb == verb then [Entry(prefix, gm, r)] else []) + Expect(prefix, gm, rs, verb)
  {
    assert ([r] + rs)[0] == r && ([r] + rs)[1..] == rs;
  }

  lemma AllExpectCons(prefix: string, gm: seq<MwRef>, b: Block, bs: seq<Block>, verb: string)
    ensures AllExpect(prefix, gm, [b] + bs, verb)
         == Expect(prefix + "/" + b.prefix, gm + MwOf(b.middleware), b.regs, verb) + AllExpect(prefix, gm, bs, verb)
  {
    assert ([b] + bs)[0] == b && ([b] + bs)[1..] == bs;
  }

  /** The entries of Regs under a prefix, one each, in order. */
  function Entries(prefix: string, gm: seq<MwRef>, rs: seq<Reg>): (es: seq<RouteEntry>)
    ensures |es| == |rs| && forall i :: 0 <= i < |rs| ==> es[i] == Entry(prefix, gm, rs[i])
  {
    seq(|rs|, i requires 0 <= i < |rs| => Entry(prefix, gm, rs[i]))
  }

  /** Every Reg of the list is for one method. */
  predicate AllVerb(rs: seq<Reg>, v: string)
  {
    forall i :: 0 <= i < |rs| ==> rs[i].verb == v
  }

  /** The Regs of one method give one entry each, in order, and none for another method. */
  lemma {:induction false} ExpectVerb(prefix: string, gm: seq<MwRef>, rs: seq<Reg>, v: string, verb: string)
    requires AllVerb(rs, v)
    ensures Expect(prefix, gm, rs, verb) == if verb == v then Entries(prefix, gm, rs) else []
    decreases |rs|
  {
    if rs != [] {
      assert AllVerb(rs[1..], v) by {
        forall i | 0 <= i < |rs| - 1 ensures rs[1..][i].verb == v {
          assert rs[1..][i] == rs[i + 1];
        }
      }
      ExpectVerb(prefix, gm, rs[1..], v, verb);
    }
  }

  /** The prefix of a group inside "/api/v1". */
  function Scope(seg: string): string { V1Prefix + "/" + seg }

  lemma V1Verbs()
    ensures AllVerb(AuthRegs, "POST") && AllVerb(UserRegs, "POST") && AllVerb([Me], "GET")
    ensures AllVerb([BuildingList], "POST") && AllVerb([SiteList], "POST") && AllVerb([EntityList], "POST")
    ensures AllVerb([PlantList], "POST") && AllVerb([WarehouseList], "POST") && AllVerb([SystemLogs], "POST")
  {
  }

  /** The POST routes of the "/api/v1" group, in file order: auth, building, site, entity ... */
  function V1PostFirst(): seq<RouteEntry>
  {
    Entries(Scope("auth"), [], AuthRegs) + (Entries(Scope("building"), [], [BuildingList])
      + (Entries(Scope("site"), [], [SiteList]) + Entries(Scope("entity"), [], [EntityList])))
  }

  /** ... then plant, warehouse, user and system-log. */
  function V1PostLast(): seq<RouteEntry>
  {
    Entries(Scope("plant"), [], [PlantList]) + (Entries(Scope("warehouse"), [], [WarehouseList])
      + (Entries(Scope("user"), [], UserRegs) + Entries(Scope("system-log"), [], [SystemLogs])))
  }

  lemma {:induction false} AllExpectAppend(prefix: string, gm: seq<MwRef>, a: seq<Block>, b: seq<Block>, verb: string)
    ensures AllExpect(prefix, gm, a + b, verb) == AllExpect(prefix, gm, a, verb) + AllExpect(prefix, gm, b, verb)
    decreases |a|
  {
    if a == [] {
      assert a + b == b;
    } else {
      assert (a + b)[0] == a[0] && (a + b)[1..] == a[1..] + b;
      AllExpectAppend(prefix, gm, a[1..], b, verb);
      Assoc(Expect(prefix + "/" + a[0].prefix, gm + MwOf(a[0].middleware), a[0].regs, verb),
            AllExpect(prefix, gm, a[1..], verb), AllExpect(prefix, gm, b, verb));
    }
  }

  /** Groups whose routes are all for one method register nothing for another. */
  lemma {:induction false} AllExpectOther(prefix: string, gm: seq<MwRef>, bs: seq<Block>, v: string, verb: string)
    requires forall i :: 0 <= i < |bs| ==> AllVerb(bs[i].regs, v)
    requires verb != v
    ensures AllExpect(prefix, gm, bs, verb) == []
    decreases |bs|
  {
    if bs != [] {
      ExpectVerb(prefix + "/" + bs[0].prefix, gm + MwOf(bs[0].middleware), bs[0].regs, v, verb);
      assert forall i :: 0 <= i < |bs| - 1 ==> bs[1..][i] == bs[i + 1];
      AllExpectOther(prefix, gm, bs[1..], v, verb);
    }
  }

  /** The groups of "/api/v1" before the last one, all of POST routes. */
  const V1First := [AuthBlock, BuildingBlock, SiteBlock, EntityBlock]
  const V1Last := [PlantBlock, WarehouseBlock, UserBlock, SystemLogBlock]
  const V1Front := V1First + V1Last

  lemma V1Split()
    ensures V1Blocks == V1Front + [MeBlock]
    ensures forall i :: 0 <= i < |V1Front| ==> AllVerb(V1Front[i].regs, "POST")
    ensures AllVerb(MeBlock.regs, "GET")
  {
    V1Verbs();
  }

  /** The POST routes of "/api/v1": the groups' routes in file order, with no group middleware. */
  lemma V1Post()
    ensures AllExpect(V1Prefix, [], V1Blocks, "POST") == V1PostFirst() + V1PostLast()
  {
    V1Split();
    V1Verbs();
    AllExpectAppend(V1Prefix, [], V1Front, [MeBlock], "POST");
    AllExpectAppend(V1Prefix, [], V1First, V1Last, "POST");
    ExpectVerb(Scope("auth"), [] + MwOf(MeBlock.middleware), [Me], "GET", "POST");
    AllExpectCons(V1Prefix, [], MeBlock, [], "POST");
    V1FirstPost();
    V1LastPost();
  }

  lemma V1FirstPost()
    ensures AllExpect(V1Prefix, [], V1First, "POST") == V1PostFirst()
  {
    V1Verbs();
    var v := "POST";
    ExpectVerb(Scope("auth"), [], AuthRegs, v, v);
    ExpectVerb(Scope("building"), [], [BuildingList], v, v);
    ExpectVerb(Scope("site"), [], [SiteList], v, v);
    ExpectVerb(Scope("entity"), [], [EntityList], v, v);
    AllExpectCons(V1Prefix, [], EntityBlock, [], v);
    assert [EntityBlock] + [] == [EntityBlock];
    assert V1Prefix + "/" + EntityBlock.prefix == Scope("entity");
    assert [] + MwOf(EntityBlock.middleware) == [];
    assert EntityBlock.regs == [EntityList];
    assert AllExpect(V1Prefix, [], [], v) == [];
    assert AllExpect(V1Prefix, [], [EntityBlock], v) == Entries(Scope("entity"), [], [EntityList]);
    AllExpectCons(V1Prefix, [], SiteBlock, [EntityBlock], v);
    AllExpectCons(V1Prefix, [], BuildingBlock, [SiteBlock, EntityBlock], v);
    AllExpectCons(V1Prefix, [], AuthBlock, [BuildingBlock, SiteBlock, EntityBlock], v);
  }

  lemma V1LastPost()
    ensures AllExpect(V1Prefix, [], V1Last, "POST") == V1PostLast()
  {
    V1Verbs();
    var v := "POST";
    ExpectVerb(Scope("plant"), [], [PlantList], v, v);
    ExpectVerb(Scope("warehouse"), [], [WarehouseList], v, v);
    ExpectVerb(Scope("user"), [], UserRegs, v, v);
    ExpectVerb(Scope("system-log"), [], [SystemLogs], v, v);
    AllExpectCons(V1Prefix, [], SystemLogBlock, [], v);
    assert [SystemLogBlock] + [] == [SystemLogBlock];
    assert V1Prefix + "/" + SystemLogBlock.prefix == Scope("system-log");
    assert [] + MwOf(SystemLogBlock.middleware) == [];
    assert SystemLogBlock.regs == [SystemLogs];
    assert AllExpect(V1Prefix, [], [], v) == [];
    assert AllExpect(V1Prefix, [], [SystemLogBlock], v) == Entries(Scope("system-log"), [], [SystemLogs]);
    AllExpectCons(V1Prefix, [], UserBlock, [SystemLogBlock], v);
    AllExpectCons(V1Prefix, [], WarehouseBlock, [UserBlock, SystemLogBlock], v);
    AllExpectCons(V1Prefix, [], PlantBlock, [WarehouseBlock, UserBlock, SystemLogBlock], v);
  }

  /** The one GET route of "/api/v1": /api/v1/auth/me, with the last group's 'auth'. */
  lemma V1Get()
    ensures AllExpect(V1Prefix, [], V1Blocks, "GET") == [Entry(Scope("auth"), [MwName("auth")], Me)]
  {
    V1Split();
    AllExpectAppend(V1Prefix, [], V1Front, [MeBlock], "GET");
    AllExpectOther(V1Prefix, [], V1Front, "POST", "GET");
    assert [] + MwOf(MeBlock.middleware) == [MwName("auth")];
    ExpectVerb(Scope("auth"), [MwName("auth")], [Me], "GET", "GET");
    AllExpectCons(V1Prefix, [], MeBlock, [], "GET");
  }

  /** "/api/v1" registers nothing for PUT, PATCH, DELETE or OPTIONS. */
  lemma V1Other(verb: string)
    requires verb != "GET" && verb != "POST"
    ensures AllExpect(V1Prefix, [], V1Blocks, verb) == []
  {
    V1Split();
    AllExpectAppend(V1Prefix, [], V1Front, [MeBlock], verb);
    AllExpectOther(V1Prefix, [], V1Front, "POST", verb);
    AllExpectOther(V1Prefix, [], [MeBlock], "GET", verb);
  }


  // ---------------------------------------------------------------------
  // What the configured router does with the requests the route file is about

  /** /api/v1/auth/me, with the 'auth' middleware of its group. */
  function MeEntry(): RouteEntry { Entry(Scope("auth"), [MwName("auth")], Me) }

  /** The method tables and handlers of the router the route file returns. */
  ghost predicate ConfiguredShape(c: RouterState, encode: Value -> string, now: int)
  {
    && (forall verb :: RoutesFor(c, verb) ==
          if verb == "POST" then V1PostFirst() + V1PostLast()
          else if verb == "GET" then [MeEntry(), HealthEntry(HealthPath, encode, now)]
          else [])
    && (forall verb :: LiteralRoutes(RoutesFor(c, verb)))
    && c.globalMiddleware == [] && c.aliases == Aliases && c.notFound == NotFoundHandler(encode)
    && c.methodNotAllowed == Call(DefaultMethodNotAllowed) && c.basePath == ""
  }

  /**
   * routes.php leaves the router with the 18 POST routes of "/api/v1" in
   * file order, GET /api/v1/auth/me then GET /health, nothing for the other
   * methods, no global middleware, the four aliases and the custom 404.
   */
  lemma ConfiguredIsShape(encode: Value -> string, now: int)
    ensures ConfiguredShape(Configured(encode, now), encode, now)
  {
    var c := Configured(encode, now);
    forall verb ensures RoutesFor(c, verb) ==
          if verb == "POST" then V1PostFirst() + V1PostLast()
          else if verb == "GET" then [MeEntry(), HealthEntry(HealthPath, encode, now)]
          else [] {
      ConfiguredRoutes(encode, now, verb);
      if verb == "POST" {
        V1Post();
      } else if verb == "GET" {
        V1Get();
      } else {
        V1Other(verb);
      }
    }
    forall verb ensures LiteralRoutes(RoutesFor(c, verb)) {
      ConfiguredRoutes(encode, now, verb);
    }
    ConfiguredRoutes(encode, now, "GET");
  }

  /** Where login, verify-redirect and the warehouse list sit in the configured router's POST table. */
  lemma ConfiguredPost(encode: Value -> string, now: int)
    ensures var c := Configured(encode, now);
      var t := RoutesFor(c, "POST");
      && |t| == 18
      && t[0] == Entry(Scope("auth"), [], Login)
      && t[4] == Entry(Scope("auth"), [], VerifyRedirect)
      && t[9] == Entry(Scope("warehouse"), [], WarehouseList)
      && (forall j :: 0 <= j < 4 ==> |t[j].route| != |Scope("auth") + VerifyRedirect.route|)
      && (forall j :: 0 <= j < 9 ==> |t[j].route| != |Scope("warehouse") + WarehouseList.route|)
      && LiteralRoutes(t) && c.globalMiddleware == [] && c.basePath == ""
  {
    ConfiguredRoutes(encode, now, "POST");
    V1Post();
    PostTable();
  }

  /** The configured router's GET routes: /api/v1/auth/me, then /health. */
  lemma ConfiguredGet(encode: Value -> string, now: int)
    ensures var c := Configured(encode, now);
      && RoutesFor(c, "GET") == [MeEntry(), HealthEntry(HealthPath, encode, now)]
      && LiteralRoutes(RoutesFor(c, "GET")) && c.globalMiddleware == [] && c.basePath == ""
  {
    ConfiguredRoutes(encode, now, "GET");
    V1Get();
  }

  /** The configured router has no route for any other method. */
  lemma ConfiguredOther(encode: Value -> string, now: int, verb: string)
    requires verb != "GET" && verb != "POST"
    ensures RoutesFor(Configured(encode, now), verb) == []
  {
    ConfiguredRoutes(encode, now, verb);
    V1Other(verb);
  }

  lemma AliasesGet()
    ensures Get(Aliases, "auth") == Some(AuthAlias) && Get(Aliases, "basic") == Some(BasicAlias)
    ensures Get(Aliases, "verifyPw") == Some(VerifyPwAlias) && Get(Aliases, "log") == Some(LogAlias)
  {
    PosUpTo(Aliases, "auth", 0);
    PosUpTo(Aliases, "basic", 1);
    PosUpTo(Aliases, "verifyPw", 2);
    PosUpTo(Aliases, "log", 3);
  }

  /** The aliases and handlers of the configured router. */
  lemma ConfiguredHandlers(encode: Value -> string, now: int)
    ensures var c := Configured(encode, now);
      && c.globalMiddleware == []
      && Get(c.aliases, "auth") == Some(AuthAlias) && Get(c.aliases, "basic") == Some(BasicAlias)
      && Get(c.aliases, "verifyPw") == Some(VerifyPwAlias) && Get(c.aliases, "log") == Some(LogAlias)
      && c.notFound == NotFoundHandler(encode) && c.methodNotAllowed == Call(DefaultMethodNotAllowed)
  {
    ConfiguredRoutes(encode, now, "GET");
    AliasesGet();
  }

  /** The POST table: where login, verify-redirect and the warehouse list sit in it. */
  lemma PostTable()
    ensures var t := V1PostFirst() + V1PostLast();
      && |t| == 18
      && t[0] == Entry(Scope("auth"), [], Login)
      && t[4] == Entry(Scope("auth"), [], VerifyRedirect)
      && t[9] == Entry(Scope("warehouse"), [], WarehouseList)
      && (forall j :: 0 <= j < 4 ==> |t[j].route| != |Scope("auth") + VerifyRedirect.route|)
      && (forall j :: 0 <= j < 9 ==> |t[j].route| != |Scope("warehouse") + WarehouseList.route|)
  {
  }

  lemma LoginPath()
    ensures Scope("auth") + Login.route == "/api/v1/auth/login" && IsNormal("/api/v1/auth/login")
  {
  }

  /** A router whose first POST route is login, as routes.php registers it. */
  lemma LoginAt(c: RouterState, q: Req, r: Resp, classes: Classes, custom: (string, string) -> bool)
    requires c.basePath == "" && c.globalMiddleware == [] && LiteralRoutes(RoutesFor(c, "POST"))
    requires |RoutesFor(c, "POST")| > 0 && RoutesFor(c, "POST")[0] == Entry(Scope("auth"), [], Login)
    requires q.verb == "POST" && ToStr(q.path) == "/api/v1/auth/login"
    ensures Dispatch(c, q, r, classes, custom)
         == ExecuteMiddleware(c, [MwName("log")], q.(params := []), r, HandlerNext(Action("UserController@login"), classes), classes)
  {
    var e := RoutesFor(c, "POST")[0];
    assert Dispatch(c, q, r, classes, custom)
        == ExecuteMiddleware(c, c.globalMiddleware + e.middleware, q.(params := []), r, HandlerNext(e.handler, classes), classes) by {
      LoginPath();
      DispatchLiteral(c, q, r, classes, custom, 0);
    }
    assert c.globalMiddleware + e.middleware == [MwName("log")];
  }

  /** POST /api/v1/auth/login runs the 'log' middleware, then UserController@login. */
  lemma LoginRoute(encode: Value -> string, now: int, q: Req, r: Resp, classes: Classes, custom: (string, string) -> bool)
    requires q.verb == "POST" && ToStr(q.path) == "/api/v1/auth/login"
    ensures var c := Configured(encode, now);
      Dispatch(c, q, r, classes, custom)
        == ExecuteMiddleware(c, [MwName("log")], q.(params := []), r, HandlerNext(Action("UserController@login"), classes), classes)
  {
    ConfiguredPost(encode, now);
    LoginAt(Configured(encode, now), q, r, classes, custom);
  }

  lemma MePath()
    ensures Scope("auth") + Me.route == "/api/v1/auth/me" && IsNormal("/api/v1/auth/me")
  {
  }

  /** A router whose first GET route is /api/v1/auth/me, as routes.php registers it. */
  lemma MeAt(c: RouterState, q: Req, r: Resp, classes: Classes, custom: (string, string) -> bool)
    requires c.basePath == "" && c.globalMiddleware == [] && LiteralRoutes(RoutesFor(c, "GET"))
    requires |RoutesFor(c, "GET")| > 0 && RoutesFor(c, "GET")[0] == MeEntry()
    requires q.verb == "GET" && ToStr(q.path) == "/api/v1/auth/me"
    ensures Dispatch(c, q, r, classes, custom)
         == ExecuteMiddleware(c, [MwName("auth")], q.(params := []), r, HandlerNext(Action("AuthController@me"), classes), classes)
  {
    var e := RoutesFor(c, "GET")[0];
    assert Dispatch(c, q, r, classes, custom)
        == ExecuteMiddleware(c, c.globalMiddleware + e.middleware, q.(params := []), r, HandlerNext(e.handler, classes), classes) by {
      MePath();
      DispatchLiteral(c, q, r, classes, custom, 0);
    }
    assert c.globalMiddleware + e.middleware == [MwName("auth")];
  }

  /** GET /api/v1/auth/me runs the 'auth' middleware its group gives it, then AuthController@me. */
  lemma MeRoute(encode: Value -> string, now: int, q: Req, r: Resp, classes: Classes, custom: (string, string) -> bool)
    requires q.verb == "GET" && ToStr(q.path) == "/api/v1/auth/me"
    ensures var c := Configured(encode, now);
      Dispatch(c, q, r, classes, custom)
        == ExecuteMiddleware(c, [MwName("auth")], q.(params := []), r, HandlerNext(Action("AuthController@me"), classes), classes)
  {
    ConfiguredGet(encode, now);
    MeAt(Configured(encode, now), q, r, classes, custom);
  }

  lemma V1PrefixPlain()
    ensures PlainRoute(V1Prefix)
  {
  }

  /** A plain route in a plain group of "/api/v1" is a path normalizePath leaves alone. */
  lemma ScopedNormal(seg: string, route: string)
    requires PlainSegment(seg) && PlainRoute(route)
    ensures IsNormal(Scope(seg) + route)
  {
    V1PrefixPlain();
    SegmentJoin(V1Prefix, seg);
    PlainRouteSpec(Scope(seg));
    PlainRouteSpec(route);
    JoinIsNormal(Scope(seg), route);
  }

  lemma VerifyRedirectPath()
    ensures Scope("auth") + VerifyRedirect.route == "/api/v1/auth/verify-redirect"
  {
    assert Scope("auth") == "/api/v1/auth";
    assert VerifyRedirect.route == "/verify-redirect";
    assert "/api/v1/auth" + "/verify-redirect" == "/api/v1/auth/verify-redirect";
  }

  lemma VerifyRedirectNormal()
    ensures IsNormal(Scope("auth") + VerifyRedirect.route)
  {
    SlashedAll();
    NoSpecialAuth();
    PlainSegments();
    ScopedNormal("auth", VerifyRedirect.route);
  }

  /** A router whose fifth POST route is verify-redirect, after four routes of other lengths. */
  lemma VerifyRedirectAt(c: RouterState, q: Req, r: Resp, classes: Classes, custom: (string, string) -> bool)
    requires c.basePath == "" && c.globalMiddleware == [] && LiteralRoutes(RoutesFor(c, "POST"))
    requires |RoutesFor(c, "POST")| > 4 && RoutesFor(c, "POST")[4] == Entry(Scope("auth"), [], VerifyRedirect)
    requires forall j :: 0 <= j < 4 ==> |RoutesFor(c, "POST")[j].route| != |Scope("auth") + VerifyRedirect.route|
    requires q.verb == "POST" && ToStr(q.path) == "/api/v1/auth/verify-redirect"
    ensures Dispatch(c, q, r, classes, custom)
         == ExecuteHandler(Action("UserController@validatePlatformAccessToken"), q.(params := []), r, [], classes)
  {
    var e := RoutesFor(c, "POST")[4];
    assert Dispatch(c, q, r, classes, custom)
        == ExecuteMiddleware(c, c.globalMiddleware + e.middleware, q.(params := []), r, HandlerNext(e.handler, classes), classes) by {
      VerifyRedirectPath();
      VerifyRedirectNormal();
      DispatchLiteral(c, q, r, classes, custom, 4);
    }
    assert c.globalMiddleware + e.middleware == [];
  }

  /** Every route of the configured router is literal. */
  lemma ConfiguredLiteral(encode: Value -> string, now: int)
    ensures var c := Configured(encode, now);
      forall verb :: LiteralRoutes(RoutesFor(c, verb))
  {
    forall verb ensures LiteralRoutes(RoutesFor(Configured(encode, now), verb)) {
      ConfiguredRoutes(encode, now, verb);
    }
  }

  lemma GetLengths(encode: Value -> string, now: int)
    ensures |MeEntry().route| == 15 && |HealthEntry(HealthPath, encode, now).route| == 7
  {
  }

  /**
   * A router whose only route for /api/v1/auth/login is the POST one, with
   * the constructor's 405 handler: any other method is refused with status
   * unchanged, `Allow: POST` and the 405 envelope naming the method.
   */
  lemma LoginOtherAt(c: RouterState, q: Req, r: Resp, classes: Classes, custom: (string, string) -> bool)
    requires c.basePath == "" && c.methodNotAllowed == Call(DefaultMethodNotAllowed)
    requires forall v :: LiteralRoutes(RoutesFor(c, v))
    requires |RoutesFor(c, "POST")| > 0 && RoutesFor(c, "POST")[0] == Entry(Scope("auth"), [], Login)
    requires forall v, j :: v != "POST" && 0 <= j < |RoutesFor(c, v)| ==> |RoutesFor(c, v)[j].route| != 18
    requires q.verb != "POST" && q.verb != "OPTIONS" && ToStr(q.path) == "/api/v1/auth/login"
    ensures AllowedMethods(c, ToStr(q.path), custom) == ["POST"]
    ensures var o := Dispatch(c, q, r, classes, custom);
      && o.Done? && o.req == q && o.resp.statusCode == r.statusCode
      && Get(o.resp.headers, "Allow") == Some(Str("POST"))
      && o.resp.content == ResponseSpec.ErrorEnvelope(Str("Method not allowed: " + q.verb), Int(405), Null)
  {
    var path := ToStr(q.path);
    assert IsNormal(path) && RoutesFor(c, "POST")[0].route == path && |path| == 18 by {
      LoginPath();
    }
    assert forall v, j :: v != "POST" && 0 <= j < |RoutesFor(c, v)| ==> RoutesFor(c, v)[j].route != path;
    assert "POST" in Methods;
    assert AllowedMethods(c, path, custom) == ["POST"]
        && Dispatch(c, q, r, classes, custom) == DefaultMethodNotAllowed(q, r, [StrList(["POST"])]) by {
      DispatchOtherMethod(c, q, r, classes, custom, "POST", 0);
    }
    AllowPost(q, r);
  }

  /** The constructor's 405 handler given the allowed list [POST]. */
  lemma AllowPost(q: Req, r: Resp)
    ensures var o := DefaultMethodNotAllowed(q, r, [StrList(["POST"])]);
      && o.Done? && o.req == q && o.resp.statusCode == r.statusCode
      && Get(o.resp.headers, "Allow") == Some(Str("POST"))
      && o.resp.content == ResponseSpec.ErrorEnvelope(Str("Method not allowed: " + q.verb), Int(405), Null)
  {
    DefaultMethodNotAllowedSpec(q, r, ["POST"]);
    assert Implode(", ", ["POST"]) == "POST";
  }

  /** The configured shape meets what LoginOtherAt asks of a router. */
  lemma ShapeLoginOther(c: RouterState, encode: Value -> string, now: int)
    requires ConfiguredShape(c, encode, now)
    ensures c.basePath == "" && c.methodNotAllowed == Call(DefaultMethodNotAllowed)
    ensures forall v :: LiteralRoutes(RoutesFor(c, v))
    ensures |RoutesFor(c, "POST")| > 0 && RoutesFor(c, "POST")[0] == Entry(Scope("auth"), [], Login)
    ensures forall v, j :: v != "POST" && 0 <= j < |RoutesFor(c, v)| ==> |RoutesFor(c, v)[j].route| != 18
  {
    PostTable();
    assert RoutesFor(c, "POST") == V1PostFirst() + V1PostLast();
    forall j | 0 <= j < |RoutesFor(c, "GET")| ensures |RoutesFor(c, "GET")[j].route| != 18 {
      GetLengths(encode, now);
      assert RoutesFor(c, "GET") == [MeEntry(), HealthEntry(HealthPath, encode, now)];
      assert j == 0 || j == 1;
    }
    forall v | v != "POST" && v != "GET" ensures RoutesFor(c, v) == [] {
    }
  }

  /** GET /api/v1/auth/login is refused: 405 with `Allow: POST`. */
  lemma LoginGetRoute(encode: Value -> string, now: int, q: Req, r: Resp, classes: Classes, custom: (string, string) -> bool)
    requires q.verb == "GET" && ToStr(q.path) == "/api/v1/auth/login"
    ensures var o := Dispatch(Configured(encode, now), q, r, classes, custom);
      && o.Done? && o.req == q && o.resp.statusCode == r.statusCode
      && Get(o.resp.headers, "Allow") == Some(Str("POST"))
      && o.resp.content == ResponseSpec.ErrorEnvelope(Str("Method not allowed: " + q.verb), Int(405), Null)
  {
    ConfiguredIsShape(encode, now);
    ShapeLoginOther(Configured(encode, now), encode, now);
    LoginOtherAt(Configured(encode, now), q, r, classes, custom);
  }

  /** POST /api/v1/auth/verify-redirect has no middleware: UserController@validatePlatformAccessToken runs at once. */
  lemma VerifyRedirectRoute(encode: Value -> string, now: int, q: Req, r: Resp, classes: Classes, custom: (string, string) -> bool)
    requires q.verb == "POST" && ToStr(q.path) == "/api/v1/auth/verify-redirect"
    ensures Dispatch(Configured(encode, now), q, r, classes, custom)
         == ExecuteHandler(Action("UserController@validatePlatformAccessToken"), q.(params := []), r, [], classes)
  {
    ConfiguredPost(encode, now);
    VerifyRedirectAt(Configured(encode, now), q, r, classes, custom);
  }

  lemma WarehousePath()
    ensures Scope("warehouse") + WarehouseList.route == "/api/v1/warehouse/all-warehouse-list-to-select"
  {
    WarehouseParts();
    WarehouseJoin();
  }

  lemma WarehouseParts()
    ensures Scope("warehouse") == "/api/v1/warehouse" && WarehouseList.route == "/all-warehouse-list-to-select"
  {
  }

  lemma WarehouseJoin()
    ensures "/api/v1/warehouse" + "/all-warehouse-list-to-select" == "/api/v1/warehouse/all-warehouse-list-to-select"
  {
  }

  lemma WarehouseNormal()
    ensures IsNormal(Scope("warehouse") + WarehouseList.route)
  {
    SlashedAll();
    NoSpecialMoreLists();
    PlainSegments();
    ScopedNormal("warehouse", WarehouseList.route);
  }

  /** A router whose tenth POST route is the warehouse list, after nine routes of other lengths. */
  lemma WarehouseAt(c: RouterState, q: Req, r: Resp, classes: Classes, custom: (string, string) -> bool)
    requires c.basePath == "" && c.globalMiddleware == [] && LiteralRoutes(RoutesFor(c, "POST"))
    requires |RoutesFor(c, "POST")| > 9 && RoutesFor(c, "POST")[9] == Entry(Scope("warehouse"), [], WarehouseList)
    requires forall j :: 0 <= j < 9 ==> |RoutesFor(c, "POST")[j].route| != |Scope("warehouse") + WarehouseList.route|
    requires q.verb == "POST" && ToStr(q.path) == "/api/v1/warehouse/all-warehouse-list-to-select"
    ensures Dispatch(c, q, r, classes, custom)
         == ExecuteHandler(Action("PlatformController@getWarehouseListToSelect"), q.(params := []), r, [], classes)
  {
    var e := RoutesFor(c, "POST")[9];
    assert Dispatch(c, q, r, classes, custom)
        == ExecuteMiddleware(c, c.globalMiddleware + e.middleware, q.(params := []), r, HandlerNext(e.handler, classes), classes) by {
      WarehousePath();
      WarehouseNormal();
      DispatchLiteral(c, q, r, classes, custom, 9);
    }
    assert c.globalMiddleware + e.middleware == [];
  }

  /** POST /api/v1/warehouse/all-warehouse-list-to-select has no middleware: the controller runs at once. */
  lemma WarehouseRoute(encode: Value -> string, now: int, q: Req, r: Resp, classes: Classes, custom: (string, string) -> bool)
    requires q.verb == "POST" && ToStr(q.path) == "/api/v1/warehouse/all-warehouse-list-to-select"
    ensures Dispatch(Configured(encode, now), q, r, classes, custom)
         == ExecuteHandler(Action("PlatformController@getWarehouseListToSelect"), q.(params := []), r, [], classes)
  {
    ConfiguredPost(encode, now);
    WarehouseAt(Configured(encode, now), q, r, classes, custom);
  }

  // ---------------------------------------------------------------------
  // The health route and the custom 404

  /** The reply both closures of routes.php build: the status, the encoded body and a JSON Content-Type, other headers kept. */
  lemma JsonReplySpec(r: ResponseSpec.RespState, code: int, encoded: string, other: string)
    ensures var o := JsonReply(r, code, encoded);
      && o.statusCode == code && o.content == Str(encoded)
      && Get(o.headers, "Content-Type") == Some(Str("application/json"))
      && (other != "Content-Type" ==> Get(o.headers, other) == Get(r.headers, other))
      && o.contentType == r.contentType && o.charset == r.charset
  {
    var r2 := ResponseSpec.SetContent(ResponseSpec.SetStatusCode(r, code), Str(encoded));
    ResponseSpec.SetHeaderSpec(r2, "Content-Type", Str("application/json"), true, other);
  }

  lemma HealthNormal()
    ensures IsNormal("/health")
  {
  }

  /** A router whose second GET route is /health, after a route of another length. */
  lemma HealthAt(c: RouterState, encode: Value -> string, now: int, q: Req, r: Resp, classes: Classes, custom: (string, string) -> bool)
    requires c.basePath == "" && c.globalMiddleware == [] && LiteralRoutes(RoutesFor(c, "GET"))
    requires |RoutesFor(c, "GET")| > 1 && RoutesFor(c, "GET")[1] == HealthEntry(HealthPath, encode, now)
    requires |RoutesFor(c, "GET")[0].route| != 7
    requires q.verb == "GET" && ToStr(q.path) == "/health"
    ensures Dispatch(c, q, r, classes, custom) == Done(q.(params := []), JsonReply(r, 200, encode(HealthBody(now))))
  {
    var e := RoutesFor(c, "GET")[1];
    assert Dispatch(c, q, r, classes, custom)
        == ExecuteMiddleware(c, c.globalMiddleware + e.middleware, q.(params := []), r, HandlerNext(e.handler, classes), classes) by {
      HealthNormal();
      DispatchLiteral(c, q, r, classes, custom, 1);
    }
    assert c.globalMiddleware + e.middleware == [];
    assert ExecuteMiddleware(c, [], q.(params := []), r, HandlerNext(e.handler, classes), classes)
        == ExecuteHandler(HealthHandler(encode, now), q.(params := []), r, [], classes);
  }

  /** GET /health answers 200 with {"status": "ok", "timestamp": now} as JSON. */
  lemma HealthRoute(encode: Value -> string, now: int, q: Req, r: Resp, classes: Classes, custom: (string, string) -> bool)
    requires q.verb == "GET" && ToStr(q.path) == "/health"
    ensures Dispatch(Configured(encode, now), q, r, classes, custom) == Done(q.(params := []), JsonReply(r, 200, encode(HealthBody(now))))
  {
    ConfiguredGet(encode, now);
    GetLengths(encode, now);
    HealthAt(Configured(encode, now), encode, now, q, r, classes, custom);
  }

  /** Every route of the list starts with p. */
  predicate RoutesUnder(list: seq<RouteEntry>, p: string)
  {
    forall j :: 0 <= j < |list| ==> IsPrefix(p, list[j].route)
  }

  lemma EntriesUnder(seg: string, gm: seq<MwRef>, rs: seq<Reg>)
    ensures RoutesUnder(Entries(Scope(seg), gm, rs), V1Prefix + "/")
  {
    var es := Entries(Scope(seg), gm, rs);
    forall j | 0 <= j < |es| ensures IsPrefix(V1Prefix + "/", es[j].route) {
      assert es[j].route == (V1Prefix + "/") + (seg + rs[j].route);
    }
  }

  lemma UnderAppend(a: seq<RouteEntry>, b: seq<RouteEntry>, p: string)
    requires RoutesUnder(a, p) && RoutesUnder(b, p)
    ensures RoutesUnder(a + b, p)
  {
    forall j | 0 <= j < |a + b| ensures IsPrefix(p, (a + b)[j].route) {
      if j < |a| {
        assert (a + b)[j] == a[j];
      } else {
        assert (a + b)[j] == b[j - |a|];
      }
    }
  }

  /** Every POST route and GET /api/v1/auth/me live under "/api/v1/". */
  lemma V1Under()
    ensures RoutesUnder(V1PostFirst() + V1PostLast(), V1Prefix + "/")
    ensures RoutesUnder([MeEntry()], V1Prefix + "/")
  {
    var p := V1Prefix + "/";
    EntriesUnder("auth", [], AuthRegs);
    EntriesUnder("building", [], [BuildingList]);
    EntriesUnder("site", [], [SiteList]);
    EntriesUnder("entity", [], [EntityList]);
    EntriesUnder("plant", [], [PlantList]);
    EntriesUnder("warehouse", [], [WarehouseList]);
    EntriesUnder("user", [], UserRegs);
    EntriesUnder("system-log", [], [SystemLogs]);
    UnderAppend(Entries(Scope("site"), [], [SiteList]), Entries(Scope("entity"), [], [EntityList]), p);
    UnderAppend(Entries(Scope("building"), [], [BuildingList]),
      Entries(Scope("site"), [], [SiteList]) + Entries(Scope("entity"), [], [EntityList]), p);
    UnderAppend(Entries(Scope("auth"), [], AuthRegs), Entries(Scope("building"), [], [BuildingList])
      + (Entries(Scope("site"), [], [SiteList]) + Entries(Scope("entity"), [], [EntityList])), p);
    UnderAppend(Entries(Scope("user"), [], UserRegs), Entries(Scope("system-log"), [], [SystemLogs]), p);
    UnderAppend(Entries(Scope("warehouse"), [], [WarehouseList]),
      Entries(Scope("user"), [], UserRegs) + Entries(Scope("system-log"), [], [SystemLogs]), p);
    UnderAppend(Entries(Scope("plant"), [], [PlantList]), Entries(Scope("warehouse"), [], [WarehouseList])
      + (Entries(Scope("user"), [], UserRegs) + Entries(Scope("system-log"), [], [SystemLogs])), p);
    UnderAppend(V1PostFirst(), V1PostLast(), p);
    EntriesUnder("auth", [MwName("auth")], [Me]);
    assert [MeEntry()] == Entries(Scope("auth"), [MwName("auth")], [Me]);
  }

  /** In the configured shape no route is a path outside "/api/v1/" other than /health. */
  lemma ShapeNoRoute(c: RouterState, encode: Value -> string, now: int, path: string)
    requires ConfiguredShape(c, encode, now)
    requires !IsPrefix(V1Prefix + "/", path) && path != HealthPath
    ensures forall v, j :: 0 <= j < |RoutesFor(c, v)| ==> RoutesFor(c, v)[j].route != path
  {
    V1Under();
    forall v, j | 0 <= j < |RoutesFor(c, v)| ensures RoutesFor(c, v)[j].route != path {
      if v == "POST" {
        assert IsPrefix(V1Prefix + "/", RoutesFor(c, v)[j].route);
      } else if v == "GET" && j == 0 {
        assert RoutesFor(c, v)[j] == [MeEntry()][0];
      }
    }
  }

  /**
   * A router with the custom 404 handler and no literal route for the
   * normalized path: whatever the method, the reply is the 404 JSON body
   * with status 404 and a JSON Content-Type.
   */
  lemma NotFoundAt(c: RouterState, encode: Value -> string, q: Req, r: Resp, classes: Classes, custom: (string, string) -> bool)
    requires c.notFound == NotFoundHandler(encode)
    requires forall v :: LiteralRoutes(RoutesFor(c, v))
    requires var path := NormalizePath(c.basePath, ToStr(q.path));
      forall v, j :: 0 <= j < |RoutesFor(c, v)| ==> RoutesFor(c, v)[j].route != path
    ensures Dispatch(c, q, r, classes, custom) == Done(q, JsonReply(r, 404, encode(NotFoundBody)))
  {
    DispatchNoLiteral(c, q, r, classes, custom);
  }

  /** A path that normalizes to neither "/api/v1/..." nor "/health" gets the custom 404, for every method. */
  lemma NotFoundRoute(encode: Value -> string, now: int, q: Req, r: Resp, classes: Classes, custom: (string, string) -> bool)
    requires var path := NormalizePath("", ToStr(q.path));
      !IsPrefix("/api/v1/", path) && path != "/health"
    ensures Dispatch(Configured(encode, now), q, r, classes, custom) == Done(q, JsonReply(r, 404, encode(NotFoundBody)))
  {
    ConfiguredIsShape(encode, now);
    ShapeNotFound(Configured(encode, now), encode, now, q, r, classes, custom);
  }

  lemma ShapeNotFound(c: RouterState, encode: Value -> string, now: int, q: Req, r: Resp, classes: Classes, custom: (string, string) -> bool)
    requires ConfiguredShape(c, encode, now)
    requires var path := NormalizePath("", ToStr(q.path));
      !IsPrefix("/api/v1/", path) && path != "/health"
    ensures Dispatch(c, q, r, classes, custom) == Done(q, JsonReply(r, 404, encode(NotFoundBody)))
  {
    assert V1Prefix + "/" == "/api/v1/";
    ShapeNoRoute(c, encode, now, NormalizePath(c.basePath, ToStr(q.path)));
    NotFoundAt(c, encode, q, r, classes, custom);
  }
}
