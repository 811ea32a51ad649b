/**
 * Route templates of the router (app/core/Router.php).
 *
 * A template such as "/users/:id[/edit]" is compiled in two text passes:
 * first every "[/x]" becomes an optional group, then every ":name" (the name
 * running up to the next '/') becomes a named capture whose regex is looked
 * up in the pattern table. The compiled pattern is kept here as a sequence of
 * parts instead of PCRE text, and `Match` states what `preg_match` of the
 * anchored pattern decides about a path and which named captures it reports.
 * A template whose PCRE text would not compile (a capture name that is not a
 * valid group name, or two captures with one name) compiles to None: PHP's
 * `preg_match` then fails for every path.
 *
 * The module also holds normalizePath and the three text rewrites of `url`.
 */
module RouteTemplate {
  import opened Text
  import opened Php

  /** One piece of a compiled template. */
  datatype Part =
    | Lit(c: char)                        // a character matched literally
    | Param(name: string, cls: RxClass)   // `(?P<name>regex)`
    | Opt(body: seq<Part>)                // `(?:/...)?`

  /** The default regexes by name; every other regex text is one registered by the application. */
  datatype RxClass = AnyC | IdC | SlugC | UuidC | AlphaC | AlnumC | NumberC | CustomC(regex: string)

  /** The result of the first pass: characters and optional groups. */
  datatype Chunk = Ch(c: char) | Group(inner: string)

  // ---------------------------------------------------------------------
  // Pass 1: `\[\/(.+?)\]` becomes `(?:/$1)?`

  /**
   * Where the lazy `.+?` of a "[/" at the start of s stops: the first ']'
   * at index j or later whose inner text s[2..] before it holds no newline.
   */
  function CloseFrom(s: string, j: nat): (r: Option<nat>)
    requires j >= 3
    ensures r.Some? ==> j <= r.value < |s| && s[r.value] == ']'
    ensures r.Some? ==> forall k :: j <= k < r.value ==> s[k] != ']'
    ensures r.Some? ==> forall k :: j - 1 <= k < r.value ==> s[k] != '\n'
    decreases |s| - j
  {
    if j >= |s| || s[j - 1] == '\n' then None
    else if s[j] == ']' then Some(j)
    else CloseFrom(s, j + 1)
  }

  /** The index of the ']' closing an optional segment that opens s, if one does. */
  function OptionalClose(s: string): (r: Option<nat>)
    ensures r.Some? ==> 3 <= r.value < |s| && s[0] == '[' && s[1] == '/' && s[r.value] == ']'
  {
    if |s| >= 3 && s[0] == '[' && s[1] == '/' then CloseFrom(s, 3) else None
  }

  /** preg_replace_callback for optional segments: scanned left to right, a replaced group is not rescanned. */
  function OptionalPass(s: string): (r: seq<Chunk>)
    decreases |s|
  {
    if s == [] then []
    else match OptionalClose(s)
      case Some(j) => [Group(s[2..j])] + OptionalPass(s[j + 1..])
      case None => [Ch(s[0])] + OptionalPass(s[1..])
  }

  /** Text with no '[' passes through the first pass as plain characters. */
  lemma {:induction false} OptionalPassPlain(s: string)
    requires '[' !in s
    ensures OptionalPass(s) == seq(|s|, i requires 0 <= i < |s| => Ch(s[i]))
    decreases |s|
  {
    if s != [] {
      assert '[' !in s[1..];
      OptionalPassPlain(s[1..]);
    }
  }

  // ---------------------------------------------------------------------
  // Pass 2: `:([^\/]+)` becomes `(?P<name>regex)`

  /** The default patterns of the router, in their declaration order. */
  const AnyRx := "[^/]+"
  const IdRx := "[0-9]+"
  const SlugRx := "[a-z0-9-]+"
  const UuidRx := "[0-9a-f]{8}-[0-9a-f]{4}-[0-9a-f]{4}-[0-9a-f]{4}-[0-9a-f]{12}"
  const AlphaRx := "[a-zA-Z]+"
  const AlnumRx := "[a-zA-Z0-9]+"
  const NumberRx := "[0-9]+(\\.[0-9]+)?"

  type Patterns = seq<(string, string)>

  const DefaultPatterns: Patterns := [
    (":any", AnyRx), (":id", IdRx), (":slug", SlugRx), (":uuid", UuidRx),
    (":alpha", AlphaRx), (":alphanumeric", AlnumRx), (":number", NumberRx)]

  /** substr($key, 1) */
  function Tail1(key: string): string { if |key| >= 1 then key[1..] else "" }

  /** The regex for a capture name: the first table entry whose key is the name, with or without its first character. */
  function PatternFor(name: string, patterns: Patterns): (rx: string)
    ensures (exists i :: 0 <= i < |patterns| && (name == patterns[i].0 || name == Tail1(patterns[i].0))) ||
            rx == AnyRx
    decreases |patterns|
  {
    if patterns == [] then AnyRx
    else if name == patterns[0].0 || name == Tail1(patterns[0].0) then patterns[0].1
    else PatternFor(name, patterns[1..])
  }

  /**
   * The name lookup: the regex of the first entry whose key or key-less-first-
   * character equals the name, and `[^/]+` when no entry does.
   */
  lemma {:induction false} PatternForSpec(name: string, patterns: Patterns)
    ensures forall i :: 0 <= i < |patterns| && (name == patterns[i].0 || name == Tail1(patterns[i].0)) &&
                (forall j :: 0 <= j < i ==> name != patterns[j].0 && name != Tail1(patterns[j].0))
              ==> PatternFor(name, patterns) == patterns[i].1
    ensures (forall i :: 0 <= i < |patterns| ==> name != patterns[i].0 && name != Tail1(patterns[i].0))
              ==> PatternFor(name, patterns) == AnyRx
    decreases |patterns|
  {
    if patterns != [] {
      PatternForSpec(name, patterns[1..]);
      forall i | 0 <= i < |patterns| && (name == patterns[i].0 || name == Tail1(patterns[i].0)) &&
                 (forall j :: 0 <= j < i ==> name != patterns[j].0 && name != Tail1(patterns[j].0))
        ensures PatternFor(name, patterns) == patterns[i].1
      {
        if i > 0 {
          assert patterns[1..][i - 1] == patterns[i];
          assert forall j :: 0 <= j < i - 1 ==> patterns[1..][j] == patterns[j + 1];
        }
      }
      if forall i :: 0 <= i < |patterns| ==> name != patterns[i].0 && name != Tail1(patterns[i].0) {
        assert forall i :: 0 <= i < |patterns| - 1 ==> patterns[1..][i] == patterns[i + 1];
      }
    }
  }

  /** With the default table, "id" and ":id" both take `[0-9]+`. */
  lemma DefaultIdPattern()
    ensures PatternFor("id", DefaultPatterns) == IdRx && PatternFor(":id", DefaultPatterns) == IdRx
    ensures ClassOf(IdRx) == IdC
  {
    assert IdRx[1] != AnyRx[1];
    assert Tail1(":any") == "any";
    assert Tail1(":id") == "id";
    assert DefaultPatterns[1..][0] == (":id", IdRx);
  }

  /** A PCRE group name: a letter or '_' first, then letters, digits and '_', at most 32 characters. */
  predicate ValidGroupName(name: string)
  {
    1 <= |name| <= 32 && !IsDigit(name[0]) &&
    forall i :: 0 <= i < |name| ==> IsAlnum(name[i]) || name[i] == '_'
  }

  /** How many chunks at the front of cs are characters other than '/'. */
  function NameRun(cs: seq<Chunk>): (n: nat)
    ensures n <= |cs|
    ensures forall i :: 0 <= i < n ==> cs[i].Ch? && cs[i].c != '/'
    ensures n < |cs| ==> !(cs[n].Ch? && cs[n].c != '/')
  {
    if cs != [] && cs[0].Ch? && cs[0].c != '/' then 1 + NameRun(cs[1..]) else 0
  }

  function CharsOf(cs: seq<Chunk>): (s: string)
    requires forall i :: 0 <= i < |cs| ==> cs[i].Ch?
    ensures |s| == |cs| && forall i :: 0 <= i < |cs| ==> s[i] == cs[i].c
  {
    seq(|cs|, i requires 0 <= i < |cs| => cs[i].c)
  }

  function Cons<T>(x: T, rest: Option<seq<T>>): Option<seq<T>>
  {
    match rest
    case None => None
    case Some(xs) => Some([x] + xs)
  }

  /**
   * The second pass over the chunks. `closed` says that the text is the
   * inside of an optional group, so that what follows it is the group's
   * closing `)?`. A name runs over every character up to the next '/';
   * when it would run into the text `(?:` of a group or `)?` of its close,
   * it holds a character no group name may hold and the pattern fails to
   * compile (None).
   */
  function Scan(cs: seq<Chunk>, closed: bool, patterns: Patterns): Option<seq<Part>>
    decreases if closed then 0 else 1, |cs|
  {
    if cs == [] then Some([])
    else match cs[0]
      case Group(inner) =>
        if closed then None
        else
          var inside := seq(|inner|, i requires 0 <= i < |inner| => Ch(inner[i]));
          (match Scan(inside, true, patterns)
           case None => None
           case Some(body) => Cons(Opt([Lit('/')] + body), Scan(cs[1..], closed, patterns)))
      case Ch(c) =>
        if c != ':' then Cons(Lit(c), Scan(cs[1..], closed, patterns))
        else
          var rest := cs[1..];
          var n := NameRun(rest);
          if n < |rest| && rest[n].Group? then None
          else if n == |rest| && closed then None
          else if n == 0 then Cons(Lit(':'), Scan(rest, closed, patterns))
          else
            var name := CharsOf(rest[..n]);
            if !ValidGroupName(name) then None
            else Cons(Param(name, ClassOf(PatternFor(name, patterns))), Scan(rest[n..], closed, patterns))
  }

  /** The capture names of a compiled template, in the order of their groups. */
  function NamesOf(ps: seq<Part>): seq<string>
    decreases ps
  {
    if ps == [] then []
    else match ps[0]
      case Lit(_) => NamesOf(ps[1..])
      case Param(n, _) => [n] + NamesOf(ps[1..])
      case Opt(body) => NamesOf(body) + NamesOf(ps[1..])
  }

  predicate Distinct(ns: seq<string>) { forall i, j :: 0 <= i < j < |ns| ==> ns[i] != ns[j] }

  /** compileRoutePattern: None when PCRE would reject the pattern (two groups of one name). */
  function Compile(route: string, patterns: Patterns): Option<seq<Part>>
  {
    match Scan(OptionalPass(route), false, patterns)
    case None => None
    case Some(ps) => if Distinct(NamesOf(ps)) then Some(ps) else None
  }

  function Lits(s: string): (ps: seq<Part>)
    ensures |ps| == |s| && forall i :: 0 <= i < |s| ==> ps[i] == Lit(s[i])
  {
    seq(|s|, i requires 0 <= i < |s| => Lit(s[i]))
  }

  lemma {:induction false} ScanPlain(s: string, closed: bool, patterns: Patterns)
    requires ':' !in s
    ensures Scan(seq(|s|, i requires 0 <= i < |s| => Ch(s[i])), closed, patterns) == Some(Lits(s))
    decreases |s|
  {
    var cs := seq(|s|, i requires 0 <= i < |s| => Ch(s[i]));
    if s != [] {
      assert ':' !in s[1..];
      ScanPlain(s[1..], closed, patterns);
      assert cs[1..] == seq(|s[1..]|, i requires 0 <= i < |s[1..]| => Ch(s[1..][i]));
      assert Lits(s) == [Lit(s[0])] + Lits(s[1..]);
    }
  }

  lemma {:induction false} NamesOfLits(s: string)
    ensures NamesOf(Lits(s)) == []
    decreases |s|
  {
    if s != [] {
      assert Lits(s)[1..] == Lits(s[1..]);
      NamesOfLits(s[1..]);
    }
  }

  /** A template without ':' and '[' compiles to its own characters, matched literally. */
  lemma CompileLiteral(route: string, patterns: Patterns)
    requires ':' !in route && '[' !in route
    ensures Compile(route, patterns) == Some(Lits(route))
  {
    OptionalPassPlain(route);
    ScanPlain(route, false, patterns);
    NamesOfLits(route);
  }

  function Chs(s: string): (cs: seq<Chunk>)
    ensures |cs| == |s| && forall i :: 0 <= i < |s| ==> cs[i] == Ch(s[i])
  {
    seq(|s|, i requires 0 <= i < |s| => Ch(s[i]))
  }

  lemma {:induction false} OptionalPassAppendPlain(a: string, t: string)
    requires '[' !in a
    ensures OptionalPass(a + t) == Chs(a) + OptionalPass(t)
    decreases |a|
  {
    if a != [] {
      assert (a + t)[1..] == a[1..] + t;
      assert '[' !in a[1..];
      OptionalPassAppendPlain(a[1..], t);
      assert Chs(a) == [Ch(a[0])] + Chs(a[1..]);
      assert OptionalClose(a + t) == None;
    } else {
      assert a + t == t;
    }
  }

  lemma {:induction false} CloseFromScan(s: string, j: nat, e: nat)
    requires 3 <= j <= e < |s| && s[e] == ']'
    requires forall k :: j <= k < e ==> s[k] != ']'
    requires forall k :: j - 1 <= k < e ==> s[k] != '\n'
    ensures CloseFrom(s, j) == Some(e)
    decreases e - j
  {
    if j < e {
      CloseFromScan(s, j + 1, e);
    }
  }

  /** A "[/x]" with x non-empty and free of ']' and newlines is one optional group. */
  lemma OptionalPassGroup(x: string, rest: string)
    requires |x| >= 1 && ']' !in x && '\n' !in x
    ensures OptionalPass("[/" + x + "]" + rest) == [Group(x)] + OptionalPass(rest)
  {
    var s := "[/" + x + "]" + rest;
    var e := 2 + |x|;
    assert s[e] == ']';
    assert forall k :: 2 <= k < e ==> s[k] == x[k - 2];
    CloseFromScan(s, 3, e);
    assert s[2..e] == x;
    assert s[e + 1..] == rest;
  }

  function Prepend<T>(xs: seq<T>, rest: Option<seq<T>>): Option<seq<T>>
  {
    match rest
    case None => None
    case Some(ys) => Some(xs + ys)
  }

  lemma {:induction false} ScanAppendPlain(a: string, cs: seq<Chunk>, closed: bool, patterns: Patterns)
    requires ':' !in a
    ensures Scan(Chs(a) + cs, closed, patterns) == Prepend(Lits(a), Scan(cs, closed, patterns))
    decreases |a|
  {
    if a != [] {
      assert (Chs(a) + cs)[1..] == Chs(a[1..]) + cs;
      assert ':' !in a[1..];
      ScanAppendPlain(a[1..], cs, closed, patterns);
      assert Lits(a) == [Lit(a[0])] + Lits(a[1..]);
      assert (Chs(a) + cs)[0] == Ch(a[0]);
      assert Scan(Chs(a) + cs, closed, patterns) == Cons(Lit(a[0]), Scan(Chs(a[1..]) + cs, closed, patterns));
      match Scan(cs, closed, patterns) {
        case None =>
        case Some(ys) => assert [Lit(a[0])] + (Lits(a[1..]) + ys) == Lits(a) + ys;
      }
    } else {
      assert Chs(a) + cs == cs;
      match Scan(cs, closed, patterns) {
        case None =>
        case Some(ys) => assert Lits(a) + ys == ys;
      }
    }
  }

  /** One step of the second pass at a ':' that starts a parameter. */
  lemma ScanParamStep(rest: seq<Chunk>, closed: bool, patterns: Patterns)
    requires 0 < NameRun(rest)
    requires NameRun(rest) < |rest| ==> !rest[NameRun(rest)].Group?
    requires NameRun(rest) == |rest| ==> !closed
    requires ValidGroupName(CharsOf(rest[..NameRun(rest)]))
    ensures var name := CharsOf(rest[..NameRun(rest)]);
      Scan([Ch(':')] + rest, closed, patterns) ==
      Cons(Param(name, ClassOf(PatternFor(name, patterns))), Scan(rest[NameRun(rest)..], closed, patterns))
  {
    assert ([Ch(':')] + rest)[1..] == rest;
  }

  /** A name that is a valid group name, at the very end of a template, is one parameter. */
  lemma ScanParamAtEnd(name: string, patterns: Patterns)
    requires ValidGroupName(name)
    ensures Scan([Ch(':')] + Chs(name), false, patterns) == Some([Param(name, ClassOf(PatternFor(name, patterns)))])
  {
    var rest := Chs(name);
    assert NameRun(rest) == |name| by {
      assert forall i :: 0 <= i < |name| ==> name[i] != '/';
      NameRunAll(rest);
    }
    assert CharsOf(rest[..|name|]) == name by {
      assert rest[..|name|] == rest;
    }
    ScanParamStep(rest, false, patterns);
    assert rest[|name|..] == [];
    var p := Param(name, ClassOf(PatternFor(name, patterns)));
    assert Scan([Ch(':')] + rest, false, patterns) == Cons(p, Scan([], false, patterns));
    var none: seq<Part> := [];
    assert [p] + none == [p];
    assert Cons(p, Some(none)) == Some([p]);
  }

  lemma {:induction false} NameRunAll(cs: seq<Chunk>)
    requires forall i :: 0 <= i < |cs| ==> cs[i].Ch? && cs[i].c != '/'
    ensures NameRun(cs) == |cs|
    decreases |cs|
  {
    if cs != [] {
      NameRunAll(cs[1..]);
    }
  }

  lemma {:induction false} NamesOfAppend(a: seq<Part>, b: seq<Part>)
    ensures NamesOf(a + b) == NamesOf(a) + NamesOf(b)
    decreases |a|
  {
    if a != [] {
      assert (a + b)[1..] == a[1..] + b;
      NamesOfAppend(a[1..], b);
    } else {
      assert a + b == b;
    }
  }

  /**
   * `:name` at the end of a literal route takes the regex the table gives
   * the name (`[^/]+` when it has none).
   */
  lemma CompileParam(lit: string, name: string, patterns: Patterns)
    requires ':' !in lit && '[' !in lit
    requires ValidGroupName(name)
    ensures Compile(lit + ":" + name, patterns) == Some(Lits(lit) + [Param(name, ClassOf(PatternFor(name, patterns)))])
  {
    var route := lit + ":" + name;
    var tail := ":" + name;
    assert route == lit + tail;
    assert '[' !in tail by {
      assert forall i :: 0 <= i < |name| ==> name[i] != '[';
    }
    OptionalPassAppendPlain(lit, tail);
    OptionalPassPlain(tail);
    assert Chs(tail) == [Ch(':')] + Chs(name);
    assert OptionalPass(tail) == Chs(tail);
    ScanAppendPlain(lit, Chs(tail), false, patterns);
    ScanParamAtEnd(name, patterns);
    NamesOfAppend(Lits(lit), [Param(name, ClassOf(PatternFor(name, patterns)))]);
    NamesOfLits(lit);
    assert NamesOf([Param(name, ClassOf(PatternFor(name, patterns)))]) == [name];
  }

  /** One step of the second pass at an optional group, outside any group. */
  lemma ScanGroupStep(x: string, cs: seq<Chunk>, patterns: Patterns)
    ensures Scan([Group(x)] + cs, false, patterns) ==
      match Scan(Chs(x), true, patterns)
      case None => None
      case Some(body) => Cons(Opt([Lit('/')] + body), Scan(cs, false, patterns))
  {
    assert ([Group(x)] + cs)[1..] == cs;
    assert Chs(x) == seq(|x|, i requires 0 <= i < |x| => Ch(x[i]));
  }

  /** "[/x]" at the end of a literal route becomes an optional group matching "/x". */
  lemma CompileOptional(lit: string, x: string, patterns: Patterns)
    requires ':' !in lit && '[' !in lit
    requires |x| >= 1 && ']' !in x && '\n' !in x && ':' !in x
    ensures Compile(lit + "[/" + x + "]", patterns) == Some(Lits(lit) + [Opt([Lit('/')] + Lits(x))])
  {
    var tail := "[/" + x + "]";
    assert lit + tail == lit + "[/" + x + "]";
    var opt := Opt([Lit('/')] + Lits(x));
    var none: seq<Chunk> := [];
    var noParts: seq<Part> := [];
    assert OptionalPass(lit + tail) == Chs(lit) + [Group(x)] by {
      OptionalPassAppendPlain(lit, tail);
      OptionalPassGroup(x, "");
      assert tail + "" == tail;
      assert OptionalPass("") == none;
    }
    assert Scan([Group(x)], false, patterns) == Some([opt]) by {
      ScanGroupStep(x, none, patterns);
      assert [Group(x)] + none == [Group(x)];
      ScanPlain(x, true, patterns);
      assert Chs(x) == seq(|x|, i requires 0 <= i < |x| => Ch(x[i]));
      assert Scan(none, false, patterns) == Some(noParts);
      assert [opt] + noParts == [opt];
    }
    assert Scan(Chs(lit) + [Group(x)], false, patterns) == Some(Lits(lit) + [opt]) by {
      ScanAppendPlain(lit, [Group(x)], false, patterns);
    }
    assert NamesOf(Lits(lit) + [opt]) == [] by {
      NamesOfAppend(Lits(lit), [opt]);
      NamesOfLits(lit);
      NamesOfLits(x);
      NamesOfAppend([Lit('/')], Lits(x));
      assert [opt][1..] == noParts;
    }
  }

  /**
   * A parameter that ends an optional group does not compile: its name runs
   * on into the group's closing `)?` and is no group name.
   */
  lemma CompileOptionalParamBroken(lit: string, y: string, name: string, patterns: Patterns)
    requires ':' !in lit && '[' !in lit
    requires ':' !in y && ']' !in y && '\n' !in y
    requires '/' !in name && ']' !in name && '\n' !in name
    ensures Compile(lit + "[/" + y + ":" + name + "]", patterns) == None
  {
    var x := y + ":" + name;
    var tail := "[/" + x + "]";
    var none: seq<Chunk> := [];
    assert lit + tail == lit + "[/" + y + ":" + name + "]";
    assert ']' !in x && '\n' !in x by {
      assert forall i :: 0 <= i < |x| ==> x[i] == (if i < |y| then y[i] else if i == |y| then ':' else name[i - |y| - 1]);
    }
    assert OptionalPass(lit + tail) == Chs(lit) + [Group(x)] by {
      OptionalPassAppendPlain(lit, tail);
      OptionalPassGroup(x, "");
      assert tail + "" == tail;
      assert OptionalPass("") == none;
    }
    var param := [Ch(':')] + Chs(name);
    assert Scan(param, true, patterns) == None by {
      NameRunAll(Chs(name));
      assert param[1..] == Chs(name);
    }
    assert Scan(Chs(x), true, patterns) == None by {
      assert Chs(x) == Chs(y) + param;
      ScanAppendPlain(y, param, true, patterns);
    }
    assert Scan([Group(x)], false, patterns) == None by {
      ScanGroupStep(x, none, patterns);
      assert [Group(x)] + none == [Group(x)];
    }
    ScanAppendPlain(lit, [Group(x)], false, patterns);
  }

  /** The instances with the default table: "/users/:id", "/users[/all]", and the broken "/users[/:id]". */
  lemma CompileExamples()
    ensures Compile("/users/:id", DefaultPatterns) == Some(Lits("/users/") + [Param("id", IdC)])
    ensures Compile("/users[/all]", DefaultPatterns) == Some(Lits("/users") + [Opt([Lit('/')] + Lits("all"))])
    ensures Compile("/users[/:id]", DefaultPatterns) == None
  {
    CompileIdExample();
    CompileAllExample();
    CompileBrokenExample();
  }

  lemma CompileIdExample()
    ensures Compile("/users/:id", DefaultPatterns) == Some(Lits("/users/") + [Param("id", IdC)])
  {
    DefaultIdPattern();
    assert ValidGroupName("id");
    CompileParam("/users/", "id", DefaultPatterns);
    assert "/users/" + ":" + "id" == "/users/:id";
  }

  lemma CompileAllExample()
    ensures Compile("/users[/all]", DefaultPatterns) == Some(Lits("/users") + [Opt([Lit('/')] + Lits("all"))])
  {
    CompileOptional("/users", "all", DefaultPatterns);
    assert "/users" + "[/" + "all" + "]" == "/users[/all]";
  }

  lemma CompileBrokenExample()
    ensures Compile("/users[/:id]", DefaultPatterns) == None
  {
    assert ValidGroupName("id");
    CompileOptionalParamBroken("/users", "", "id", DefaultPatterns);
    assert "/users" + "[/" + "" + ":" + "id" + "]" == "/users[/:id]";
  }

  // ---------------------------------------------------------------------
  // Matching

  /** The length of the leading run of characters other than '/'. */
  function SegLen(s: string): (k: nat)
    ensures k <= |s| && (forall i :: 0 <= i < k ==> s[i] != '/') && (k < |s| ==> s[k] == '/')
  {
    IndexOf(s, '/')
  }

  predicate IsLowerHex(c: char) { IsDigit(c) || 'a' <= c <= 'f' }

  predicate Slugish(c: char) { IsLower(c) || IsDigit(c) || c == '-' }

  predicate IsAlnumChar(c: char) { IsAlnum(c) }

  predicate IsDigitChar(c: char) { IsDigit(c) }

  /** `[0-9]+(\.[0-9]+)?` on a whole segment */
  predicate IsNumberText(seg: string)
  {
    var dot := IndexOf(seg, '.');
    dot >= 1 && AllChars(seg[..dot], IsDigitChar) &&
    (dot == |seg| || (dot + 1 < |seg| && AllChars(seg[dot + 1..], IsDigitChar)))
  }

  /** The 8-4-4-4-12 lowercase-hex layout */
  predicate IsUuidText(seg: string)
  {
    |seg| == 36 &&
    forall i :: 0 <= i < 36 ==> if i == 8 || i == 13 || i == 18 || i == 23 then seg[i] == '-' else IsLowerHex(seg[i])
  }

  function ClassOf(regex: string): RxClass
  {
    if regex == AnyRx then AnyC
    else if regex == IdRx then IdC
    else if regex == SlugRx then SlugC
    else if regex == UuidRx then UuidC
    else if regex == AlphaRx then AlphaC
    else if regex == AlnumRx then AlnumC
    else if regex == NumberRx then NumberC
    else CustomC(regex)
  }

  /**
   * Whether a named pattern's regex matches the whole non-empty segment.
   * The default regexes are written out; a regex registered with `pattern`
   * is decided by the `custom` oracle.
   */
  predicate ClassMatches(cls: RxClass, seg: string, custom: (string, string) -> bool)
  {
    match cls
    case AnyC => |seg| >= 1 && '/' !in seg
    case IdC => |seg| >= 1 && AllChars(seg, IsDigitChar)
    case SlugC => |seg| >= 1 && AllChars(seg, Slugish)
    case UuidC => IsUuidText(seg)
    case AlphaC => |seg| >= 1 && AllChars(seg, IsAlpha)
    case AlnumC => |seg| >= 1 && AllChars(seg, IsAlnumChar)
    case NumberC => IsNumberText(seg)
    case CustomC(regex) => custom(regex, seg)
  }

  type Captures = seq<(string, string)>

  /** The body of an optional group matched at the front of s: the captures and what is left of s. */
  function MatchFront(body: seq<Part>, s: string, custom: (string, string) -> bool): (r: Option<(Captures, string)>)
    ensures r.Some? ==> |r.value.1| <= |s|
    decreases |body|
  {
    if body == [] then Some(([], s))
    else match body[0]
      case Lit(c) =>
        if |s| > 0 && s[0] == c then MatchFront(body[1..], s[1..], custom) else None
      case Param(n, rx) =>
        var k := SegLen(s);
        if k >= 1 && ClassMatches(rx, s[..k], custom) then
          match MatchFront(body[1..], s[k..], custom)
          case None => None
          case Some(rest) => Some(([(n, s[..k])] + rest.0, rest.1))
        else None
      case Opt(_) => None
  }

  /** The groups of a skipped optional part, each reported as '' (PCRE's unset group). */
  function Unset(body: seq<Part>): (r: Captures)
    ensures |r| == |NamesOf(body)|
    ensures forall i :: 0 <= i < |r| ==> r[i] == (NamesOf(body)[i], "")
  {
    seq(|NamesOf(body)|, i requires 0 <= i < |NamesOf(body)| => (NamesOf(body)[i], ""))
  }

  /**
   * The outcome of skipping an optional part before a rest that matched
   * with captures `more`. preg_match lists the groups up to the last one
   * that took part: the skipped groups appear as '' when a later group
   * took part, and are left out at the end of the list.
   */
  function SkipGroup(body: seq<Part>, rest: Option<Captures>): Option<Captures>
  {
    match rest
    case None => None
    case Some(more) => Some((if more == [] then [] else Unset(body)) + more)
  }

  /**
   * preg_match of the anchored pattern against the whole of s, with the
   * named captures in group order. A parameter takes the whole segment up
   * to the next '/', and an optional group is tried first and skipped when
   * the rest does not match after it, as PCRE backtracks.
   */
  function Match(ps: seq<Part>, s: string, custom: (string, string) -> bool): Option<Captures>
    decreases |ps|
  {
    if ps == [] then (if s == [] then Some([]) else None)
    else match ps[0]
      case Lit(c) =>
        if |s| > 0 && s[0] == c then Match(ps[1..], s[1..], custom) else None
      case Param(n, rx) =>
        var k := SegLen(s);
        if k >= 1 && ClassMatches(rx, s[..k], custom) then Cons((n, s[..k]), Match(ps[1..], s[k..], custom))
        else None
      case Opt(body) =>
        match MatchFront(body, s, custom)
        case Some((cap, s')) =>
          (match Match(ps[1..], s', custom)
           case Some(more) => Some(cap + more)
           case None => SkipGroup(body, Match(ps[1..], s, custom)))
        case None => SkipGroup(body, Match(ps[1..], s, custom))
  }

  /** Anchored at both ends: a literal template matches exactly its own text, and reports no captures. */
  lemma {:induction false} MatchLiteral(t: string, s: string, custom: (string, string) -> bool)
    ensures Match(Lits(t), s, custom).Some? <==> s == t
    ensures Match(Lits(t), s, custom).Some? ==> Match(Lits(t), s, custom).value == []
    decreases |t|
  {
    if t != [] {
      assert Lits(t)[1..] == Lits(t[1..]);
      if |s| > 0 && s[0] == t[0] {
        MatchLiteral(t[1..], s[1..], custom);
        if s[1..] == t[1..] {
          assert s == [s[0]] + s[1..];
          assert t == [t[0]] + t[1..];
        }
      } else {
        assert s != t;
      }
    }
  }

  /** One step of matching at a literal character. */
  lemma MatchLitStep(c: char, ps: seq<Part>, s: string, custom: (string, string) -> bool)
    ensures Match([Lit(c)] + ps, [c] + s, custom) == Match(ps, s, custom)
  {
    assert ([Lit(c)] + ps)[1..] == ps;
    assert ([c] + s)[1..] == s;
  }

  /** "/:id" matches "/" + seg, with id = seg, exactly when the segment is a non-empty run of digits. */
  lemma MatchIdExample(custom: (string, string) -> bool, seg: string)
    requires '/' !in seg
    ensures Match([Lit('/'), Param("id", IdC)], "/" + seg, custom).Some? <==> |seg| >= 1 && AllChars(seg, IsDigitChar)
    ensures Match([Lit('/'), Param("id", IdC)], "/" + seg, custom).Some? ==>
              Match([Lit('/'), Param("id", IdC)], "/" + seg, custom).value == [("id", seg)]
  {
    MatchLitStep('/', [Param("id", IdC)], seg, custom);
    assert [Lit('/')] + [Param("id", IdC)] == [Lit('/'), Param("id", IdC)];
    assert ['/'] + seg == "/" + seg;
    MatchIdSegment(custom, seg);
  }

  /** One step of matching at a parameter. */
  lemma MatchParamStep(n: string, rx: RxClass, ps: seq<Part>, s: string, custom: (string, string) -> bool)
    ensures var k := SegLen(s);
      Match([Param(n, rx)] + ps, s, custom) ==
      if k >= 1 && ClassMatches(rx, s[..k], custom) then Cons((n, s[..k]), Match(ps, s[k..], custom)) else None
  {
    assert ([Param(n, rx)] + ps)[1..] == ps;
  }

  lemma MatchIdSegment(custom: (string, string) -> bool, seg: string)
    requires '/' !in seg
    ensures Match([Param("id", IdC)], seg, custom).Some? <==> |seg| >= 1 && AllChars(seg, IsDigitChar)
    ensures Match([Param("id", IdC)], seg, custom).Some? ==> Match([Param("id", IdC)], seg, custom).value == [("id", seg)]
  {
    MatchParamStep("id", IdC, [], seg, custom);
    assert [Param("id", IdC)] + [] == [Param("id", IdC)];
    assert SegLen(seg) == |seg|;
    assert seg[..|seg|] == seg;
    assert seg[|seg|..] == [];
  }

  lemma {:induction false} MatchFrontLits(w: string, u: string, custom: (string, string) -> bool)
    ensures MatchFront(Lits(w), u, custom) == if IsPrefix(w, u) then Some(([], u[|w|..])) else None
    decreases |w|
  {
    if w != [] {
      assert Lits(w)[1..] == Lits(w[1..]);
      if |u| > 0 && u[0] == w[0] {
        MatchFrontLits(w[1..], u[1..], custom);
        assert IsPrefix(w, u) <==> IsPrefix(w[1..], u[1..]) by {
          if IsPrefix(w[1..], u[1..]) {
            assert u[..|w|] == [u[0]] + u[1..][..|w| - 1];
            assert w == [w[0]] + w[1..];
          }
        }
        if IsPrefix(w, u) {
          assert u[1..][|w| - 1..] == u[|w|..];
        }
      }
    } else {
      assert u[0..] == u;
    }
  }

  lemma {:induction false} MatchLitsPrefix(t: string, ps: seq<Part>, s: string, custom: (string, string) -> bool)
    ensures Match(Lits(t) + ps, s, custom) == if IsPrefix(t, s) then Match(ps, s[|t|..], custom) else None
    decreases |t|
  {
    if t != [] {
      assert (Lits(t) + ps)[1..] == Lits(t[1..]) + ps;
      if |s| > 0 && s[0] == t[0] {
        MatchLitsPrefix(t[1..], ps, s[1..], custom);
        assert IsPrefix(t, s) <==> IsPrefix(t[1..], s[1..]) by {
          if IsPrefix(t[1..], s[1..]) {
            assert s[..|t|] == [s[0]] + s[1..][..|t| - 1];
            assert t == [t[0]] + t[1..];
          }
        }
        if IsPrefix(t, s) {
          assert s[1..][|t| - 1..] == s[|t|..];
        }
      }
    } else {
      assert Lits(t) + ps == ps;
      assert s[0..] == s;
    }
  }

  /**
   * A literal template ending in an optional "[/x]" matches exactly the
   * path without the segment and the path with it, with no captures.
   */
  lemma MatchOptionalTail(t: string, x: string, s: string, custom: (string, string) -> bool)
    ensures Match(Lits(t) + [Opt([Lit('/')] + Lits(x))], s, custom).Some? <==> s == t || s == t + "/" + x
    ensures Match(Lits(t) + [Opt([Lit('/')] + Lits(x))], s, custom).Some? ==>
              Match(Lits(t) + [Opt([Lit('/')] + Lits(x))], s, custom).value == []
  {
    var w := "/" + x;
    assert Lits(w) == [Lit('/')] + Lits(x);
    assert t + w == t + "/" + x;
    MatchOptionalGroupTail(t, w, s, custom);
  }

  /** A literal template ending in an optional literal group matches the path without and with the group's text. */
  lemma MatchOptionalGroupTail(t: string, w: string, s: string, custom: (string, string) -> bool)
    ensures Match(Lits(t) + [Opt(Lits(w))], s, custom).Some? <==> s == t || s == t + w
    ensures Match(Lits(t) + [Opt(Lits(w))], s, custom).Some? ==> Match(Lits(t) + [Opt(Lits(w))], s, custom).value == []
  {
    MatchLitsPrefix(t, [Opt(Lits(w))], s, custom);
    if IsPrefix(t, s) {
      var u := s[|t|..];
      assert s == t + u;
      MatchOptionalRest(w, u, custom);
      assert s == t + w <==> u == w;
    } else {
      assert s != t && s != t + w;
    }
  }

  /** An optional literal group alone matches the empty text and its own text, with no captures. */
  lemma MatchOptionalRest(w: string, u: string, custom: (string, string) -> bool)
    ensures Match([Opt(Lits(w))], u, custom).Some? <==> u == "" || u == w
    ensures Match([Opt(Lits(w))], u, custom).Some? ==> Match([Opt(Lits(w))], u, custom).value == []
  {
    var opt := [Opt(Lits(w))];
    MatchFrontLits(w, u, custom);
    assert opt[1..] == [];
    if IsPrefix(w, u) {
      assert u == w + u[|w|..];
    }
  }

  /**
   * An optional group whose body does not match is skipped: the template
   * matches as its rest does, and the group's names are reported as ''
   * exactly when the rest reports some capture.
   */
  lemma MatchSkippedGroup(body: seq<Part>, rest: seq<Part>, s: string, custom: (string, string) -> bool)
    requires MatchFront(body, s, custom).None?
    ensures Match([Opt(body)] + rest, s, custom).Some? <==> Match(rest, s, custom).Some?
    ensures Match(rest, s, custom).Some? && Match(rest, s, custom).value == [] ==>
              Match([Opt(body)] + rest, s, custom).value == []
    ensures Match(rest, s, custom).Some? && Match(rest, s, custom).value != [] ==>
              Match([Opt(body)] + rest, s, custom).value == Unset(body) + Match(rest, s, custom).value
  {
    assert ([Opt(body)] + rest)[1..] == rest;
  }

  /** A group "[/:n" + w + "]" with w non-empty cannot match a single segment: the text ends where w is needed. */
  lemma ParamGroupFails(n: string, rx: RxClass, w: string, seg: string, custom: (string, string) -> bool)
    requires |w| >= 1 && '/' !in seg
    ensures MatchFront([Lit('/'), Param(n, rx)] + Lits(w), "/" + seg, custom).None?
  {
    var body := [Lit('/'), Param(n, rx)] + Lits(w);
    var tail := [Param(n, rx)] + Lits(w);
    assert body[0] == Lit('/') && body[1..] == tail;
    assert ("/" + seg)[0] == '/' && ("/" + seg)[1..] == seg;
    assert MatchFront(body, "/" + seg, custom) == MatchFront(tail, seg, custom);
    assert tail[0] == Param(n, rx) && tail[1..] == Lits(w);
    assert SegLen(seg) == |seg| && seg[|seg|..] == [];
    MatchFrontLits(w, [], custom);
  }

  /** "/:m" matches "/" + seg, with m = seg, for any non-empty segment. */
  lemma MatchAnySegment(m: string, seg: string, custom: (string, string) -> bool)
    requires |seg| >= 1 && '/' !in seg
    ensures Match([Lit('/'), Param(m, AnyC)], "/" + seg, custom) == Some([(m, seg)])
  {
    MatchLitStep('/', [Param(m, AnyC)], seg, custom);
    assert [Lit('/')] + [Param(m, AnyC)] == [Lit('/'), Param(m, AnyC)];
    assert ['/'] + seg == "/" + seg;
    MatchAnyParam(m, seg, custom);
  }

  lemma MatchAnyParam(n: string, seg: string, custom: (string, string) -> bool)
    requires |seg| >= 1 && '/' !in seg
    ensures Match([Param(n, AnyC)], seg, custom) == Some([(n, seg)])
  {
    MatchParamStep(n, AnyC, [], seg, custom);
    assert [Param(n, AnyC)] + [] == [Param(n, AnyC)];
    assert SegLen(seg) == |seg|;
    assert seg[..|seg|] == seg;
    assert seg[|seg|..] == [];
    assert ClassMatches(AnyC, seg, custom);
    assert Match([], seg[|seg|..], custom) == Some([]);
    assert [(n, seg)] + [] == [(n, seg)];
  }

  /** The group "[/:n" + w + "]", w literal, holds the one name n. */
  lemma ParamGroupUnset(n: string, rx: RxClass, w: string)
    ensures Unset([Lit('/'), Param(n, rx)] + Lits(w)) == [(n, "")]
  {
    var head := [Lit('/'), Param(n, rx)];
    NamesOfAppend(head, Lits(w));
    NamesOfLits(w);
    assert head[1..] == [Param(n, rx)];
    assert NamesOf(head) == [n];
  }

  /**
   * "t[/:id/edit]/:x" on t + "/" + seg: the optional group is skipped, and
   * since x took part after it, id is reported as '' before x.
   */
  lemma MatchUnsetExample(t: string, seg: string, custom: (string, string) -> bool)
    requires |seg| >= 1 && '/' !in seg
    ensures Match(Lits(t) + [Opt([Lit('/'), Param("id", IdC)] + Lits("/edit")), Lit('/'), Param("x", AnyC)], t + "/" + seg, custom)
            == Some([("id", ""), ("x", seg)])
  {
    var ps := [Opt([Lit('/'), Param("id", IdC)] + Lits("/edit"))] + [Lit('/'), Param("x", AnyC)];
    assert ps == [Opt([Lit('/'), Param("id", IdC)] + Lits("/edit")), Lit('/'), Param("x", AnyC)];
    var s := t + "/" + seg;
    MatchLitsPrefix(t, ps, s, custom);
    assert IsPrefix(t, s) && s[|t|..] == "/" + seg;
    MatchSkipParamGroup("id", IdC, "/edit", "x", seg, custom);
  }

  /** A skipped group before a rest that captured something is reported as '' ahead of those captures. */
  lemma MatchSkipThenCapture(body: seq<Part>, rest: seq<Part>, s: string, cap: Captures, custom: (string, string) -> bool)
    requires MatchFront(body, s, custom).None? && Match(rest, s, custom) == Some(cap) && cap != []
    ensures Match([Opt(body)] + rest, s, custom) == Some(Unset(body) + cap)
  {
    MatchSkippedGroup(body, rest, s, custom);
  }

  /** "[/:n" + w + "]/:m" on "/" + seg: the group is skipped, and n is reported as '' before m. */
  lemma MatchSkipParamGroup(n: string, rx: RxClass, w: string, m: string, seg: string, custom: (string, string) -> bool)
    requires |w| >= 1 && |seg| >= 1 && '/' !in seg
    ensures Match([Opt([Lit('/'), Param(n, rx)] + Lits(w))] + [Lit('/'), Param(m, AnyC)], "/" + seg, custom)
            == Some([(n, ""), (m, seg)])
  {
    var body := [Lit('/'), Param(n, rx)] + Lits(w);
    var rest := [Lit('/'), Param(m, AnyC)];
    ParamGroupFails(n, rx, w, seg, custom);
    MatchAnySegment(m, seg, custom);
    ParamGroupUnset(n, rx, w);
    MatchSkipThenCapture(body, rest, "/" + seg, [(m, seg)], custom);
    assert [(n, "")] + [(m, seg)] == [(n, ""), (m, seg)];
  }

  // ---------------------------------------------------------------------
  // normalizePath

  /** PHP's `empty` on a string */
  predicate EmptyText(s: string) { s == "" || s == "0" }

  /**
   * normalizePath: a non-empty base path at the front is cut off, then the
   * query string, the leading slashes are replaced by one, the trailing
   * slashes are dropped, and an empty result becomes "/".
   */
  function NormalizePath(basePath: string, path: string): string
  {
    var p1 := if !EmptyText(basePath) && IsPrefix(basePath, path) then path[|basePath|..] else path;
    var p2 := p1[..IndexOf(p1, '?')];
    var p3 := "/" + LTrim(p2, {'/'});
    var p4 := RTrim(p3, {'/'});
    if EmptyText(p4) then "/" else p4
  }

  /** A trimmed text is a slice of the original, with no '/' at either end. */
  lemma TrimSlice(route: string)
    ensures var t := Trim(route, {'/'});
      (t == [] || (t[0] != '/' && t[|t| - 1] != '/')) && forall i :: 0 <= i < |t| ==> t[i] in route
  {
    var l := LTrim(route, {'/'});
    var t := RTrim(l, {'/'});
    forall i | 0 <= i < |t| ensures t[i] in route {
      assert t[i] == l[i];
      assert l[i] == route[|route| - |l| + i];
    }
  }

  /** A path normalizePath leaves alone: one leading '/', no '?', no trailing '/', not just "/". */
  predicate IsNormal(path: string)
  {
    |path| >= 2 && path[0] == '/' && path[1] != '/' && path[|path| - 1] != '/' &&
    forall i :: 0 <= i < |path| ==> path[i] != '?'
  }

  /** normalizePath leaves alone a path that is already normal. */
  lemma NormalizeKeeps(path: string)
    requires IsNormal(path)
    ensures NormalizePath("", path) == path
  {
    NormalizeLong(path);
  }

  /**
   * Joining a normal prefix, an empty segment and a route keeps the doubled
   * slash: normalizePath only strips slashes at the two ends.
   */
  lemma NormalizeEmptySegment(prefix: string, route: string)
    requires IsNormal(prefix)
    requires Trim(route, {'/'}) != [] && '?' !in route
    ensures NormalizePath("", prefix + "/" + Trim("", {'/'}) + "/" + Trim(route, {'/'})) == prefix + "//" + Trim(route, {'/'})
  {
    var t := Trim(route, {'/'});
    var p := prefix + "//" + t;
    var q := prefix + "/" + Trim("", {'/'}) + "/" + t;
    assert q == p by {
      assert Trim("", {'/'}) == "";
      assert prefix + "/" + "" + "/" + t == p;
    }
    assert t[|t| - 1] != '/' && forall i :: 0 <= i < |t| ==> t[i] != '?' by {
      TrimSlice(route);
    }
    NormalizeDoubleSlash(prefix, t);
  }

  /** A normal prefix, a doubled slash and a normal tail make a path that normalizePath leaves alone. */
  lemma NormalizeDoubleSlash(prefix: string, t: string)
    requires IsNormal(prefix)
    requires t != [] && t[|t| - 1] != '/' && forall i :: 0 <= i < |t| ==> t[i] != '?'
    ensures NormalizePath("", prefix + "//" + t) == prefix + "//" + t
  {
    DoubleSlashNormal(prefix, t);
    NormalizeKeeps(prefix + "//" + t);
  }

  lemma DoubleSlashNormal(prefix: string, t: string)
    requires IsNormal(prefix)
    requires t != [] && t[|t| - 1] != '/' && forall i :: 0 <= i < |t| ==> t[i] != '?'
    ensures IsNormal(prefix + "//" + t)
  {
    var p := prefix + "//" + t;
    assert p[|p| - 1] == t[|t| - 1];
    forall i | 0 <= i < |p| ensures p[i] != '?' {
      if i >= |prefix| + 2 { assert p[i] == t[i - |prefix| - 2]; }
    }
  }

  /** A segment without a '/' at either end is its own trim. */
  lemma TrimSegment(seg: string)
    requires seg != [] && seg[0] != '/' && seg[|seg| - 1] != '/'
    ensures Trim(seg, {'/'}) == seg
  {
  }

  /** A normal route loses exactly its leading '/' to trim. */
  lemma TrimRoute(route: string)
    requires IsNormal(route)
    ensures Trim(route, {'/'}) == route[1..]
  {
    assert LTrim(route, {'/'}) == LTrim(route[1..], {'/'});
    TrimSegment(route[1..]);
  }

  /**
   * A normal route appended to a normal prefix (or to no prefix) as addRoute
   * does it: the result is the plain concatenation, and it is normal again.
   */
  lemma JoinNormal(prefix: string, route: string)
    requires prefix == "" || IsNormal(prefix)
    requires IsNormal(route)
    ensures NormalizePath("", prefix + "/" + Trim(route, {'/'})) == prefix + route
    ensures IsNormal(prefix + route)
  {
    TrimRoute(route);
    var p := prefix + route;
    assert prefix + "/" + route[1..] == p by {
      assert route == [route[0]] + route[1..];
    }
    JoinIsNormal(prefix, route);
    NormalizeKeeps(p);
  }

  lemma JoinIsNormal(prefix: string, route: string)
    requires prefix == "" || IsNormal(prefix)
    requires IsNormal(route)
    ensures IsNormal(prefix + route)
  {
    var p := prefix + route;
    if prefix != "" {
      assert p[1] == prefix[1];
    }
    assert p[|p| - 1] == route[|route| - 1];
    forall i | 0 <= i < |p| ensures p[i] != '?' {
      if i >= |prefix| {
        assert p[i] == route[i - |prefix|];
      }
    }
  }

  /** A normalised path starts with exactly one '/', holds no '?', and is "/" or ends in something other than '/'. */
  lemma NormalizePathShape(basePath: string, path: string)
    ensures var r := NormalizePath(basePath, path);
      && |r| >= 1 && r[0] == '/'
      && '?' !in r
      && (r == "/" || (r[|r| - 1] != '/' && r[1] != '/'))
  {
    var p1 := if !EmptyText(basePath) && IsPrefix(basePath, path) then path[|basePath|..] else path;
    var p2 := p1[..IndexOf(p1, '?')];
    var l := LTrim(p2, {'/'});
    var p3 := "/" + l;
    var p4 := RTrim(p3, {'/'});
    assert '?' !in p2;
    assert '?' !in p3 by {
      assert forall i :: 0 <= i < |l| ==> l[i] == p2[|p2| - |l| + i];
    }
    if !EmptyText(p4) {
      assert p4 == p3[..|p4|];
      assert p4[0] == '/';
      if |p4| == 1 {
        assert p4 == "/";
      } else {
        assert p4[1] == l[0];
      }
    }
  }

  /** A path of normalised shape is its own normal form. */
  lemma NormalizeFixed(r: string)
    requires |r| >= 1 && r[0] == '/' && '?' !in r
    requires r == "/" || (r[|r| - 1] != '/' && r[1] != '/')
    ensures NormalizePath("", r) == r
  {
    if r == "/" {
      NormalizeRoot();
    } else {
      assert forall i :: 0 <= i < |r| ==> r[i] != '?';
      NormalizeLong(r);
    }
  }

  lemma NormalizeRoot()
    ensures NormalizePath("", "/") == "/"
  {
    var r := "/";
    assert IndexOf(r, '?') == 1 by { assert r[1..] == []; }
    assert r[..1] == r;
    assert LTrim(r, {'/'}) == "" by { assert r[1..] == []; }
    assert r + "" == r;
    assert RTrim(r, {'/'}) == "" by { assert r[..0] == []; }
  }

  lemma NormalizeLong(r: string)
    requires IsNormal(r)
    ensures NormalizePath("", r) == r
  {
    var p2 := r[..IndexOf(r, '?')];
    assert p2 == r by {
      NoQuery(r);
    }
    var p3 := "/" + LTrim(p2, {'/'});
    assert p3 == r by {
      LTrimLead(r);
      assert "/" + r[1..] == r;
    }
    assert RTrim(p3, {'/'}) == r by {
      RTrimKeep(r);
    }
    assert !EmptyText(r);
  }

  lemma NoQuery(r: string)
    requires forall i :: 0 <= i < |r| ==> r[i] != '?'
    ensures r[..IndexOf(r, '?')] == r
  {
    assert IndexOf(r, '?') == |r|;
  }

  /** ltrim of a text with exactly one leading '/' drops that '/'. */
  lemma LTrimLead(r: string)
    requires |r| >= 1 && r[0] == '/' && (|r| == 1 || r[1] != '/')
    ensures LTrim(r, {'/'}) == r[1..]
  {
    assert LTrim(r, {'/'}) == LTrim(r[1..], {'/'});
  }

  lemma RTrimKeep(r: string)
    requires r != [] && r[|r| - 1] != '/'
    ensures RTrim(r, {'/'}) == r
  {
  }

  /** Without a base path, normalising twice gives what normalising once gives. */
  lemma NormalizePathIdempotent(path: string)
    ensures NormalizePath("", NormalizePath("", path)) == NormalizePath("", path)
  {
    NormalizePathShape("", path);
    NormalizeFixed(NormalizePath("", path));
  }

  // ---------------------------------------------------------------------
  // url

  /** str_replace($search, $replace, $s) for a non-empty search text */
  function StrReplace(search: string, replace: string, s: string): string
    requires |search| > 0
    decreases |s|
  {
    if IsPrefix(search, s) then replace + StrReplace(search, replace, s[|search|..])
    else if s == [] then []
    else [s[0]] + StrReplace(search, replace, s[1..])
  }

  /** A text that does not hold the search text at any position is left unchanged. */
  lemma {:induction false} StrReplaceAbsent(search: string, replace: string, s: string)
    requires |search| > 0
    requires forall i :: 0 <= i <= |s| ==> !IsPrefix(search, s[i..])
    ensures StrReplace(search, replace, s) == s
    decreases |s|
  {
    assert s[0..] == s;
    if s != [] {
      forall i | 0 <= i <= |s[1..]| ensures !IsPrefix(search, s[1..][i..]) {
        assert s[1..][i..] == s[i + 1..];
      }
      StrReplaceAbsent(search, replace, s[1..]);
    }
  }

  /** The length of the leading run of characters other than '/'. */
  function RunLen(s: string): (n: nat)
    ensures n <= |s| && (forall i :: 0 <= i < n ==> s[i] != '/') && (n < |s| ==> s[n] == '/')
  {
    IndexOf(s, '/')
  }

  /** preg_replace('/:([^\/]+)/', '', $s): every ':' followed by a name loses itself and the name. */
  function StripParams(s: string): (r: string)
    ensures forall i :: 0 <= i < |r| - 1 && r[i] == ':' ==> r[i + 1] == '/'
    ensures |r| <= |s|
    decreases |s|
  {
    if s == [] then []
    else if s[0] == ':' && RunLen(s[1..]) > 0 then
      StripParams(s[1 + RunLen(s[1..])..])
    else
      [s[0]] + StripParams(s[1..])
  }

  /** preg_replace('/\[\/(.+?)\]/', '', $s): every optional segment is removed. */
  function StripOptional(s: string): (r: string)
    ensures |r| <= |s|
    decreases |s|
  {
    if s == [] then []
    else match OptionalClose(s)
      case Some(j) => StripOptional(s[j + 1..])
      case None => [s[0]] + StripOptional(s[1..])
  }

  /** Text with no '[' has no optional segment to remove. */
  lemma {:induction false} StripOptionalPlain(s: string)
    requires '[' !in s
    ensures StripOptional(s) == s
    decreases |s|
  {
    if s != [] {
      assert '[' !in s[1..];
      StripOptionalPlain(s[1..]);
    }
  }

  /** Text with no ':' has no parameter to remove. */
  lemma {:induction false} StripParamsPlain(s: string)
    requires ':' !in s
    ensures StripParams(s) == s
    decreases |s|
  {
    if s != [] {
      assert ':' !in s[1..];
      StripParamsPlain(s[1..]);
    }
  }

  /** The given parameters substituted one after the other, in the array's order. */
  function Substitute(route: string, params: Entries): string
    decreases |params|
  {
    if params == [] then route
    else Substitute(StrReplace(":" + KeyText(params[0].0), ToStr(params[0].1), route), params[1..])
  }

  /** The path url() builds for a route, before the base path. */
  function UrlPath(route: string, params: Entries): string
  {
    StripOptional(StripParams(Substitute(route, params)))
  }
}
