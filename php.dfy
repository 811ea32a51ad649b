/**
 * PHP values and the array semantics the framework relies on.
 *
 * A PHP array is an ordered association list: assignment to an existing key
 * replaces the value in place, assignment to a new key appends, `unset`
 * removes, and `array_merge` renumbers integer keys while later string keys
 * overwrite earlier ones. Floats and objects are not part of this model.
 */
module Php {
  import opened Text

  datatype Option<T> = None | Some(value: T)

  datatype Key = IntKey(n: int) | StrKey(s: string)

  datatype Value =
    | Null
    | Bool(b: bool)
    | Int(n: int)
    | Str(s: string)
    | Arr(entries: seq<(Key, Value)>)

  type Entries = seq<(Key, Value)>

  // ---------------------------------------------------------------------
  // Association lists

  /** Position of the first entry whose key is k, or |m| when there is none. */
  function Pos<K(==), V>(m: seq<(K, V)>, k: K): (i: nat)
    ensures i <= |m|
    ensures i < |m| ==> m[i].0 == k
  {
    if m == [] then 0 else if m[0].0 == k then 0 else 1 + Pos(m[1..], k)
  }

  /** No entry before Pos(m, k) has key k. */
  lemma {:induction false} PosFirst<K, V>(m: seq<(K, V)>, k: K)
    ensures forall j :: 0 <= j < Pos(m, k) ==> m[j].0 != k
    decreases |m|
  {
    if m != [] && m[0].0 != k {
      PosFirst(m[1..], k);
      assert forall j :: 1 <= j < Pos(m, k) ==> m[j] == m[1..][j - 1];
    }
  }

  predicate Has<K(==), V>(m: seq<(K, V)>, k: K) { Pos(m, k) < |m| }

  /** `$m[$k] ?? absent` */
  function Get<K(==), V>(m: seq<(K, V)>, k: K): Option<V>
  {
    var i := Pos(m, k);
    if i < |m| then Some(m[i].1) else None
  }

  /** `$m[$k] = $v`: replace in place when the key exists, otherwise append. */
  function Put<K(==), V>(m: seq<(K, V)>, k: K, v: V): (r: seq<(K, V)>)
    ensures Has(m, k) ==> |r| == |m|
    ensures !Has(m, k) ==> r == m + [(k, v)]
  {
    var i := Pos(m, k);
    if i < |m| then m[i := (k, v)] else m + [(k, v)]
  }

  /** `unset($m[$k])` */
  function Remove<K(==), V>(m: seq<(K, V)>, k: K): (r: seq<(K, V)>)
    ensures |r| <= |m|
  {
    if m == [] then [] else if m[0].0 == k then Remove(m[1..], k) else [m[0]] + Remove(m[1..], k)
  }

  function KeysOf<K, V>(m: seq<(K, V)>): (ks: seq<K>)
    ensures |ks| == |m| && forall i :: 0 <= i < |m| ==> ks[i] == m[i].0
  {
    seq(|m|, i requires 0 <= i < |m| => m[i].0)
  }

  predicate UniqueKeys<K(==), V>(m: seq<(K, V)>)
  {
    forall i, j :: 0 <= i < j < |m| ==> m[i].0 != m[j].0
  }

  lemma GetPut<K, V>(m: seq<(K, V)>, k: K, v: V, k': K)
    ensures Get(Put(m, k, v), k') == if k' == k then Some(v) else Get(m, k')
  {
    var r := Put(m, k, v);
    var i := Pos(m, k);
    PosFirst(m, k);
    if i < |m| {
      if k' == k {
        assert Pos(r, k') == i by { PosUpTo(r, k', i); }
      } else {
        var j := Pos(m, k');
        PosAgree(m, r, k', i);
      }
    } else {
      if k' == k {
        PosUpTo(r, k', |m|);
      } else {
        PosAgree(m, r, k', |m|);
      }
    }
  }

  /** If position i holds k and nothing before it does, Pos finds i. */
  lemma {:induction false} PosUpTo<K, V>(m: seq<(K, V)>, k: K, i: nat)
    requires i < |m| && m[i].0 == k
    requires forall j :: 0 <= j < i ==> m[j].0 != k
    ensures Pos(m, k) == i
  {
    if i > 0 {
      PosUpTo(m[1..], k, i - 1);
    }
  }

  /**
   * Two lists that agree on every key except at position p, where neither
   * holds k', locate k' at the same place.
   */
  lemma PosAgree<K, V>(m: seq<(K, V)>, r: seq<(K, V)>, k': K, p: nat)
    requires |m| <= |r| && p <= |m|
    requires forall j :: 0 <= j < |m| && j != p ==> r[j] == m[j]
    requires p < |m| ==> m[p].0 != k' && r[p].0 != k'
    requires |r| > |m| ==> |r| == |m| + 1 && r[|m|].0 != k'
    ensures Get(r, k') == Get(m, k')
  {
    var i := Pos(m, k');
    PosFirst(m, k');
    if i < |m| {
      PosUpTo(r, k', i);
    } else {
      assert forall j :: 0 <= j < |r| ==> r[j].0 != k';
      PosNone(r, k');
    }
  }

  lemma PosNone<K, V>(m: seq<(K, V)>, k: K)
    requires forall j :: 0 <= j < |m| ==> m[j].0 != k
    ensures Pos(m, k) == |m|
  {
  }

  /** In a list with distinct keys, the last entry is the only one with its key. */
  lemma GetLast<K, V>(m: seq<(K, V)>, k: K)
    requires UniqueKeys(m) && m != []
    ensures Get(m, k) == if m[|m| - 1].0 == k then Some(m[|m| - 1].1) else Get(m[..|m| - 1], k)
    ensures m[|m| - 1].0 == k ==> Get(m[..|m| - 1], k) == None
    ensures UniqueKeys(m[..|m| - 1])
  {
    var init := m[..|m| - 1];
    if m[|m| - 1].0 == k {
      forall j | 0 <= j < |init| ensures init[j].0 != k { assert init[j] == m[j]; }
      PosNone(init, k);
      PosUpTo(m, k, |m| - 1);
    } else {
      PosAgree(init, m, k, |init|);
    }
  }

  lemma {:induction false} GetRemove<K, V>(m: seq<(K, V)>, k: K, k': K)
    ensures Get(Remove(m, k), k') == if k' == k then None else Get(m, k')
  {
    if m != [] {
      GetRemove(m[1..], k, k');
    }
  }

  lemma {:induction false} RemoveKeys<K, V>(m: seq<(K, V)>, k: K, k': K)
    ensures Has(Remove(m, k), k') <==> Has(m, k') && k' != k
  {
    if m != [] {
      RemoveKeys(m[1..], k, k');
    }
  }

  // ---------------------------------------------------------------------
  // array_merge

  function IntKeyCount(m: Entries): nat
  {
    if m == [] then 0 else IntKeyCount(m[..|m| - 1]) + (if m[|m| - 1].0.IntKey? then 1 else 0)
  }

  /** One step of array_merge: integer keys are renumbered and appended, string keys are assigned. */
  function MergeEntry(acc: Entries, e: (Key, Value)): Entries
  {
    if e.0.IntKey? then acc + [(IntKey(IntKeyCount(acc)), e.1)] else Put(acc, e.0, e.1)
  }

  /** array_merge($a1, $a2, ...) is MergeAll($a1 + $a2 + ...). */
  function MergeAll(xs: Entries): Entries
    decreases |xs|
  {
    if xs == [] then [] else MergeEntry(MergeAll(xs[..|xs| - 1]), xs[|xs| - 1])
  }

  /** The key `$m[] = $v` uses: one past the largest integer key, and 0 when there is none below 0. */
  function NextIndex(m: Entries): (n: int)
    ensures n >= 0
    ensures forall i :: 0 <= i < |m| && m[i].0.IntKey? ==> m[i].0.n < n
    decreases |m|
  {
    if m == [] then 0
    else
      var r := NextIndex(m[..|m| - 1]);
      var k := m[|m| - 1].0;
      if k.IntKey? && k.n >= r then k.n + 1 else r
  }

  /** `$m[] = $v` */
  function Append(m: Entries, v: Value): (r: Entries)
    ensures r == m + [(IntKey(NextIndex(m)), v)]
  {
    PosNone(m, IntKey(NextIndex(m)));
    Put(m, IntKey(NextIndex(m)), v)
  }

  /** The value of the last entry whose key is k. */
  function LastGet(xs: Entries, k: Key): Option<Value>
    decreases |xs|
  {
    if xs == [] then None
    else if xs[|xs| - 1].0 == k then Some(xs[|xs| - 1].1)
    else LastGet(xs[..|xs| - 1], k)
  }

  /** For a string key, array_merge keeps the value of the key's last occurrence. */
  lemma {:induction false} MergeAllStrKey(xs: Entries, s: string)
    ensures Get(MergeAll(xs), StrKey(s)) == LastGet(xs, StrKey(s))
    decreases |xs|
  {
    if xs != [] {
      var init := xs[..|xs| - 1];
      var e := xs[|xs| - 1];
      MergeAllStrKey(init, s);
      var acc := MergeAll(init);
      if e.0.IntKey? {
        PosAgree(acc, acc + [(IntKey(IntKeyCount(acc)), e.1)], StrKey(s), |acc|);
      } else {
        GetPut(acc, e.0, e.1, StrKey(s));
      }
    }
  }

  lemma {:induction false} LastGetAppend(a: Entries, b: Entries, k: Key)
    ensures LastGet(a + b, k) == if LastGet(b, k).Some? then LastGet(b, k) else LastGet(a, k)
    decreases |b|
  {
    if b == [] {
      assert a + b == a;
    } else {
      assert (a + b)[..|a + b| - 1] == a + b[..|b| - 1];
      LastGetAppend(a, b[..|b| - 1], k);
    }
  }

  lemma {:induction false} LastGetIsGet(m: Entries, k: Key)
    requires UniqueKeys(m)
    ensures LastGet(m, k) == Get(m, k)
    decreases |m|
  {
    if m != [] {
      var init := m[..|m| - 1];
      LastGetIsGet(init, k);
      if m[|m| - 1].0 == k {
        PosUpTo(m, k, |m| - 1);
      } else {
        PosAgree(init, m, k, |init|);
      }
    }
  }

  // ---------------------------------------------------------------------
  // Keys from strings

  /** A string PHP turns into an integer array key (a canonical decimal integer). */
  predicate IsCanonicalInt(s: string)
  {
    s == "0"
    || (|s| > 0 && '1' <= s[0] <= '9' && AllChars(s[1..], IsDigit))
    || (|s| > 1 && s[0] == '-' && '1' <= s[1] <= '9' && AllChars(s[2..], IsDigit))
  }

  /** The array key PHP uses for a string offset. */
  function KeyOf(s: string): Key
  {
    if IsCanonicalInt(s) then
      IntKey(if s[0] == '-' then -(DigitsValue(s[1..]) as int) else DigitsValue(s))
    else StrKey(s)
  }

  /** The string form of a key, as it appears when a key is interpolated. */
  function KeyText(k: Key): string
  {
    match k
    case IntKey(n) => IntToString(n)
    case StrKey(s) => s
  }

  // ---------------------------------------------------------------------
  // Reading values

  function EntriesOf(v: Value): Entries { if v.Arr? then v.entries else [] }

  /** `$v[$k] ?? null`, with a non-array base giving null. */
  function At(v: Value, k: Key): Value
  {
    if v.Arr? then (match Get(v.entries, k) case Some(x) => x case None => Null) else Null
  }

  function AtName(v: Value, name: string): Value { At(v, KeyOf(name)) }

  /** `isset($m[$k])` */
  predicate Isset(m: Entries, k: Key) { Get(m, k).Some? && Get(m, k).value != Null }

  /** `$m[$name] ?? $default` */
  function Lookup(m: Entries, name: string, default: Value): Value
  {
    if Isset(m, KeyOf(name)) then Get(m, KeyOf(name)).value else default
  }

  /** Conversion to bool: null, false, 0, '', '0' and [] are false. */
  predicate Truthy(v: Value)
  {
    match v
    case Null => false
    case Bool(b) => b
    case Int(n) => n != 0
    case Str(s) => s != "" && s != "0"
    case Arr(e) => |e| > 0
  }

  /** `empty($v)` for a variable that exists (an absent one reads as null). */
  predicate IsEmpty(v: Value) { !Truthy(v) }

  /** `(string) $v`; an array converts to "Array". */
  function ToStr(v: Value): string
  {
    match v
    case Null => ""
    case Bool(b) => if b then "1" else ""
    case Int(n) => IntToString(n)
    case Str(s) => s
    case Arr(_) => "Array"
  }

  /** Whitespace PHP allows around a numeric string. */
  const NumericBlanks: set<char> := {' ', '\t', '\n', '\r', '\U{B}', '\U{C}'}

  function StripSign(s: string): string
  {
    if |s| > 0 && (s[0] == '+' || s[0] == '-') then s[1..] else s
  }

  predicate IsExponentTail(e: string)
  {
    e == [] || (|e| > 1 && (e[0] == 'e' || e[0] == 'E')
                && |StripSign(e[1..])| > 0 && AllChars(StripSign(e[1..]), IsDigit))
  }

  /** Digits with an optional fraction and exponent, or a fraction alone. */
  predicate IsUnsignedNumber(u: string)
  {
    var m := DigitPrefix(u);
    var rest := u[|m|..];
    if |rest| > 0 && rest[0] == '.' then
      var f := DigitPrefix(rest[1..]);
      (|m| > 0 || |f| > 0) && IsExponentTail(rest[1 + |f|..])
    else
      |m| > 0 && IsExponentTail(rest)
  }

  /** `is_numeric` on a string. */
  predicate IsNumericString(s: string)
  {
    IsUnsignedNumber(StripSign(Trim(s, NumericBlanks)))
  }

  /** `is_numeric($v)`: integers and numeric strings. */
  predicate IsNumeric(v: Value)
  {
    v.Int? || (v.Str? && IsNumericString(v.s))
  }

  /** The value of a numeric string with no fraction and no exponent. */
  function IntegerString(s: string): Option<int>
  {
    var t := Trim(s, NumericBlanks);
    var u := StripSign(t);
    if |u| > 0 && AllChars(u, IsDigit) then
      Some(if |t| > 0 && t[0] == '-' then -(DigitsValue(u) as int) else DigitsValue(u))
    else None
  }

  /** `(int) $v`: a string converts by its leading integer. */
  function IntVal(v: Value): int
  {
    match v
    case Null => 0
    case Bool(b) => if b then 1 else 0
    case Int(n) => n
    case Str(s) =>
      var t := LTrim(s, NumericBlanks);
      var neg := |t| > 0 && t[0] == '-';
      var d := DigitPrefix(StripSign(t));
      if neg then -(DigitsValue(d) as int) else DigitsValue(d)
    case Arr(e) => if |e| == 0 then 0 else 1
  }

  /** The value `foreach` gives a key: an integer or a string. */
  function KeyValue(k: Key): Value
  {
    match k
    case IntKey(n) => Int(n)
    case StrKey(s) => Str(s)
  }

  /**
   * The array key a value used as an offset denotes (`$m[$v]`): strings as
   * KeyOf, booleans as 0/1, null as ''. None for an array, which is an
   * illegal offset.
   */
  function OffsetKey(v: Value): Option<Key>
  {
    match v
    case Null => Some(StrKey(""))
    case Bool(b) => Some(IntKey(if b then 1 else 0))
    case Int(n) => Some(IntKey(n))
    case Str(s) => Some(KeyOf(s))
    case Arr(_) => None
  }

  /**
   * `$a == $b` under PHP 8's rules: null and booleans compare as booleans
   * (null equals ''), an integer equals a numeric string of the same value
   * and is otherwise compared as text, two numeric strings compare by value.
   * Numeric strings with a fraction or an exponent compare as text, and
   * arrays by identity of their entries.
   */
  predicate LooseEq(a: Value, b: Value)
  {
    match (a, b)
    case (Null, Null) => true
    case (Null, Str(t)) => t == ""
    case (Str(s), Null) => s == ""
    case (Bool(x), _) => x == Truthy(b)
    case (_, Bool(y)) => Truthy(a) == y
    case (Null, _) => !Truthy(b)
    case (_, Null) => !Truthy(a)
    case (Int(x), Int(y)) => x == y
    case (Int(x), Str(t)) => if IsNumericString(t) then IntegerString(t) == Some(x) else IntToString(x) == t
    case (Str(s), Int(y)) => if IsNumericString(s) then IntegerString(s) == Some(y) else IntToString(y) == s
    case (Str(s), Str(t)) =>
      if IsNumericString(s) && IsNumericString(t) && IntegerString(s).Some? && IntegerString(t).Some?
      then IntegerString(s) == IntegerString(t)
      else s == t
    case (Arr(x), Arr(y)) => x == y
    case _ => false
  }

  /** `in_array($v, $list)` without strict. */
  predicate InArrayLoose(v: Value, list: seq<Value>)
  {
    exists i :: 0 <= i < |list| && LooseEq(v, list[i])
  }

  /** A string equals a word that starts with a letter exactly when they are the same text. */
  lemma WordLoose(s: string, w: string)
    requires |w| > 0 && IsLower(w[0])
    ensures LooseEq(Str(s), Str(w)) <==> s == w
  {
    WordNotInteger(w);
  }

  /** No integer equals a word that starts with a letter. */
  lemma WordNotIntLoose(x: int, w: string)
    requires |w| > 0 && IsLower(w[0])
    ensures !LooseEq(Int(x), Str(w))
  {
    WordNotInteger(w);
    var t := IntToString(x);
    assert t[0] == '-' || IsDigit(t[0]);
  }

  lemma WordNotInteger(w: string)
    requires |w| > 0 && IsLower(w[0])
    ensures IntegerString(w) == None
  {
    assert w[0] !in NumericBlanks;
    assert LTrim(w, NumericBlanks) == w;
    var t := Trim(w, NumericBlanks);
    assert t == RTrim(w, NumericBlanks);
    if |t| > 0 {
      assert t[0] == w[0];
      assert StripSign(t) == t;
      assert !IsDigit(t[0]);
    }
  }

  /** A word that starts with a letter is not numeric. */
  lemma WordNotNumeric(w: string)
    requires |w| > 0 && IsLower(w[0])
    ensures !IsNumericString(w)
  {
    WordNotInteger(w);
    var t := Trim(w, NumericBlanks);
    if |t| > 0 {
      assert t[0] == w[0];
      assert StripSign(t) == t;
      assert DigitPrefix(t) == [];
    }
  }

  /** A list value `[v0, v1, ...]` with keys 0, 1, .... */
  function ListOf(vs: seq<Value>): (r: Entries)
    ensures |r| == |vs| && forall i :: 0 <= i < |vs| ==> r[i] == (IntKey(i), vs[i])
  {
    seq(|vs|, i requires 0 <= i < |vs| => (IntKey(i), vs[i]))
  }

  function StrList(ss: seq<string>): Value
  {
    Arr(ListOf(seq(|ss|, i requires 0 <= i < |ss| => Str(ss[i]))))
  }

  /** The values of an array, in order. */
  function ValuesOf(m: Entries): (vs: seq<Value>)
    ensures |vs| == |m| && forall i :: 0 <= i < |m| ==> vs[i] == m[i].1
  {
    seq(|m|, i requires 0 <= i < |m| => m[i].1)
  }

  /** `array_key_exists` */
  predicate KeyExists(m: Entries, k: Key) { Has(m, k) }

  /** Integer ceiling of a / b for a positive b (PHP's `ceil($a / $b)` for integers). */
  function CeilDiv(a: int, b: int): (q: int)
    requires b > 0
    ensures (q - 1) * b < a <= q * b
  {
    if a % b == 0 then a / b else a / b + 1
  }
}
