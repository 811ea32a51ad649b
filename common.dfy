/**
 * Column-prefix stripping for database rows (app/core/Common.php).
 *
 * Columns are named `<table prefix>_<name>`. removePrefixFromKeys renames the
 * keys of every row of a result set; removeFirstPrefix renames the keys of a
 * single row. Both rebuild the row by assignment, so when two keys rename to
 * the same new key the later value overwrites the earlier one in the earlier
 * key's position.
 */
module Common {
  import opened Text
  import opened Php

  /** The key removePrefixFromKeys gives a column: the text after the first '_', unless that text is empty or '0'. */
  function StrippedKey(k: Key): Key
  {
    match k
    case IntKey(_) => k
    case StrKey(s) =>
      var i := IndexOf(s, '_');
      if i == |s| then k
      else
        var rest := s[i + 1..];
        if Truthy(Str(rest)) then KeyOf(rest) else k
  }

  /** The key removeFirstPrefix gives a column: the text after the first '_', whatever it is. */
  function AfterFirstUnderscore(k: Key): Key
  {
    match k
    case IntKey(_) => k
    case StrKey(s) =>
      var i := IndexOf(s, '_');
      if i == |s| then k else KeyOf(s[i + 1..])
  }

  /** The row built by assigning each value, in order, under its renamed key. */
  function Rekeyed(row: Entries, rename: Key -> Key): Entries
    decreases |row|
  {
    if row == [] then []
    else
      var last := row[|row| - 1];
      Put(Rekeyed(row[..|row| - 1], rename), rename(last.0), last.1)
  }

  /** removePrefixFromKeys as a value: every row rekeyed, non-array rows becoming empty arrays. */
  function StrippedRows(data: Entries): (r: Entries)
    ensures |r| == |data|
  {
    seq(|data|, i requires 0 <= i < |data| => (data[i].0, Arr(Rekeyed(EntriesOf(data[i].1), StrippedKey))))
  }

  /** The value of the last entry of row whose renamed key is k. */
  function LastRenamed(row: Entries, rename: Key -> Key, k: Key): Option<Value>
    decreases |row|
  {
    if row == [] then None
    else if rename(row[|row| - 1].0) == k then Some(row[|row| - 1].1)
    else LastRenamed(row[..|row| - 1], rename, k)
  }

  /** After renaming, each new key holds the value of the last column that renamed to it. */
  lemma {:induction false} RekeyedLastWins(row: Entries, rename: Key -> Key, k: Key)
    ensures Get(Rekeyed(row, rename), k) == LastRenamed(row, rename, k)
    decreases |row|
  {
    if row != [] {
      var init := row[..|row| - 1];
      RekeyedLastWins(init, rename, k);
      GetPut(Rekeyed(init, rename), rename(row[|row| - 1].0), row[|row| - 1].1, k);
    }
  }

  /** The renamed row holds exactly the renamed keys, each once. */
  lemma {:induction false} RekeyedKeys(row: Entries, rename: Key -> Key, k: Key)
    ensures Has(Rekeyed(row, rename), k) <==> exists i :: 0 <= i < |row| && rename(row[i].0) == k
    ensures UniqueKeys(Rekeyed(row, rename))
    decreases |row|
  {
    if row != [] {
      var init := row[..|row| - 1];
      var last := row[|row| - 1];
      RekeyedKeys(init, rename, k);
      var acc := Rekeyed(init, rename);
      GetPut(acc, rename(last.0), last.1, k);
      PutUnique(acc, rename(last.0), last.1);
      if Has(Rekeyed(row, rename), k) && rename(last.0) != k {
        var i :| 0 <= i < |init| && rename(init[i].0) == k;
        assert row[i] == init[i];
      }
      if exists i :: 0 <= i < |row| && rename(row[i].0) == k {
        var i :| 0 <= i < |row| && rename(row[i].0) == k;
        if i < |init| { assert init[i] == row[i]; }
      }
    }
  }

  lemma PutUnique(m: Entries, k: Key, v: Value)
    requires UniqueKeys(m)
    ensures UniqueKeys(Put(m, k, v))
  {
    var r := Put(m, k, v);
    PosFirst(m, k);
    if !Has(m, k) {
      assert forall j :: 0 <= j < |m| ==> m[j].0 != k;
    }
  }

  /** A column name without '_' keeps its name under both renamings. */
  lemma NoUnderscoreKept(s: string)
    requires '_' !in s
    ensures StrippedKey(StrKey(s)) == StrKey(s)
    ensures AfterFirstUnderscore(StrKey(s)) == StrKey(s)
  {
    assert IndexOf(s, '_') == |s|;
  }

  /**
   * A column `prefix_rest` with no '_' in prefix is renamed to `rest` when
   * rest is truthy, keeps its name when rest is '' or '0' under
   * removePrefixFromKeys, and is always renamed to `rest` by removeFirstPrefix.
   */
  lemma {:induction false} PrefixRenamed(prefix: string, rest: string)
    requires '_' !in prefix
    ensures StrippedKey(StrKey(prefix + "_" + rest))
         == if rest != "" && rest != "0" then KeyOf(rest) else StrKey(prefix + "_" + rest)
    ensures AfterFirstUnderscore(StrKey(prefix + "_" + rest)) == KeyOf(rest)
  {
    var s := prefix + "_" + rest;
    assert s[|prefix|] == '_';
    forall j | 0 <= j < |prefix| ensures s[j] != '_' { assert s[j] == prefix[j]; }
    PosOfUnderscore(s, |prefix|);
    assert s[|prefix| + 1..] == rest;
  }

  lemma PosOfUnderscore(s: string, i: nat)
    requires i < |s| && s[i] == '_' && forall j :: 0 <= j < i ==> s[j] != '_'
    ensures IndexOf(s, '_') == i
  {
  }

  /** Rebuilding a non-empty row never leaves it empty. */
  lemma {:induction false} RekeyedNonEmpty(row: Entries, rename: Key -> Key)
    requires row != []
    ensures Rekeyed(row, rename) != []
  {
    var init := Rekeyed(row[..|row| - 1], rename);
    var k := rename(row[|row| - 1].0);
    GetPut(init, k, row[|row| - 1].1, k);
  }

  /**
   * removePrefixFromKeys: rows keep their keys, count and order; each row is
   * rebuilt column by column.
   */
  method RemovePrefixFromKeys(data: Entries) returns (r: Entries)
    ensures r == StrippedRows(data)
    ensures KeysOf(r) == KeysOf(data)
  {
    r := [];
    var i := 0;
    while i < |data|
      invariant 0 <= i <= |data|
      invariant |r| == i
      invariant forall j :: 0 <= j < i ==> r[j] == StrippedRows(data)[j]
    {
      var item := RekeyRow(EntriesOf(data[i].1), StrippedKey);
      r := r + [(data[i].0, Arr(item))];
      i := i + 1;
    }
  }

  /** removeFirstPrefix */
  method RemoveFirstPrefix(row: Entries) returns (r: Entries)
    ensures r == Rekeyed(row, AfterFirstUnderscore)
  {
    r := RekeyRow(row, AfterFirstUnderscore);
  }

  /** The inner loop shared by both: assign each value under its renamed key. */
  method RekeyRow(row: Entries, rename: Key -> Key) returns (r: Entries)
    ensures r == Rekeyed(row, rename)
  {
    r := [];
    var i := 0;
    while i < |row|
      invariant 0 <= i <= |row|
      invariant r == Rekeyed(row[..i], rename)
    {
      assert row[..i + 1][..i] == row[..i];
      r := Put(r, rename(row[i].0), row[i].1);
      i := i + 1;
    }
    assert row[..|row|] == row;
  }

  /** Worked example on a notification_center row. */
  lemma ExampleNotificationRow(row: Entries)
    requires row == [(StrKey("nc_id"), Int(7)), (StrKey("nc_title"), Str("t"))]
    ensures Rekeyed(row, StrippedKey) == [(StrKey("id"), Int(7)), (StrKey("title"), Str("t"))]
  {
    NotificationColumns();
    RekeyedPair(row[0], row[1], StrippedKey);
    AppendNew([(StrKey("id"), Int(7))], StrKey("title"), Str("t"));
  }

  lemma NotificationColumns()
    ensures StrippedKey(StrKey("nc_id")) == StrKey("id") && StrippedKey(StrKey("nc_title")) == StrKey("title")
  {
    StripsTo("nc", "id", "nc_id");
    StripsTo("nc", "title", "nc_title");
  }

  lemma RekeyedPair(a: (Key, Value), b: (Key, Value), rename: Key -> Key)
    ensures Rekeyed([a, b], rename) == Put([(rename(a.0), a.1)], rename(b.0), b.1)
  {
    assert [a, b][..1] == [a];
    assert [a][..0] == [];
    var none: Entries := [];
    assert Rekeyed(none, rename) == none;
    assert Rekeyed([a], rename) == Put(none, rename(a.0), a.1);
    assert Put(none, rename(a.0), a.1) == [(rename(a.0), a.1)] by { assert none + [(rename(a.0), a.1)] == [(rename(a.0), a.1)]; }
  }

  lemma AppendNew(m: Entries, k: Key, v: Value)
    requires m == [(StrKey("id"), Int(7))] && k == StrKey("title")
    ensures Put(m, k, v) == m + [(k, v)]
  {
    assert Pos(m, k) == 1;
  }

  lemma StripsTo(prefix: string, rest: string, column: string)
    requires '_' !in prefix && rest != "" && rest != "0" && !IsCanonicalInt(rest)
    requires column == prefix + "_" + rest
    ensures StrippedKey(StrKey(column)) == StrKey(rest)
  {
    PrefixRenamed(prefix, rest);
  }
}
