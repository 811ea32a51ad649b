/**
 * The pure parts of the application logger (app/utils/Logger.php): the
 * level filter, placeholder interpolation, the entry layout, and the gate in
 * `log`. The log file and PHP's error log are modelled as the lists of lines
 * written to them; the clock, the request id and `$_SERVER['REMOTE_ADDR']`
 * are parameters, and `json_encode` is the parameter `encode`.
 */
module Logger {
  import opened Text
  import opened Php

  const Error := "ERROR"
  const Warning := "WARNING"
  const Info := "INFO"
  const Debug := "DEBUG"

  /** The rank of a level in shouldLog's table; None for a level the table does not list. */
  function Rank(level: string): Option<nat>
  {
    if level == Debug then Some(1)
    else if level == Info then Some(2)
    else if level == Warning then Some(3)
    else if level == Error then Some(4)
    else None
  }

  /** shouldLog($level) under minimum level minLevel */
  predicate ShouldLog(level: string, minLevel: string)
  {
    match (Rank(level), Rank(minLevel))
    case (Some(l), Some(m)) => l >= m
    case _ => true
  }

  /**
   * DEBUG < INFO < WARNING < ERROR: a known level is logged exactly when it
   * ranks at or above a known minimum, and an unknown level or minimum is
   * always logged.
   */
  lemma ShouldLogOrder(level: string, minLevel: string)
    ensures Rank(Debug) == Some(1) && Rank(Info) == Some(2) && Rank(Warning) == Some(3) && Rank(Error) == Some(4)
    ensures Rank(level).None? || Rank(minLevel).None? ==> ShouldLog(level, minLevel)
    ensures Rank(level).Some? && Rank(minLevel).Some? ==>
      (ShouldLog(level, minLevel) <==> Rank(level).value >= Rank(minLevel).value)
    ensures ShouldLog(Error, minLevel)
    ensures ShouldLog(level, Debug)
  {
  }

  /** Raising the level never turns logging off. */
  lemma ShouldLogMonotone(level: string, higher: string, minLevel: string)
    requires Rank(level).Some? && Rank(higher).Some? && Rank(level).value <= Rank(higher).value
    ensures ShouldLog(level, minLevel) ==> ShouldLog(higher, minLevel)
  {
  }

  /** With the default minimum INFO, only DEBUG messages are dropped. */
  lemma DefaultMinimum(level: string)
    ensures !ShouldLog(level, Info) <==> level == Debug
  {
  }

  // ---------------------------------------------------------------------
  // interpolate

  type Replacements = seq<(string, string)>

  /** The replacement text for one context value: arrays JSON-encoded, everything else cast to string. */
  function ReplacementText(v: Value, encode: Value -> string): string
  {
    if v.Arr? then encode(v) else ToStr(v)
  }

  /** The `$replace` array interpolate builds: `{key}` maps to the value's text, in context order. */
  function ReplaceTable(context: Entries, encode: Value -> string): (r: Replacements)
    ensures |r| == |context|
  {
    seq(|context|, i requires 0 <= i < |context| =>
      ("{" + KeyText(context[i].0) + "}", ReplacementText(context[i].1, encode)))
  }

  /** The loop in interpolate that fills `$replace`. */
  method BuildReplace(context: Entries, encode: Value -> string) returns (replace: Replacements)
    ensures replace == ReplaceTable(context, encode)
  {
    replace := [];
    var i := 0;
    while i < |context|
      invariant 0 <= i <= |context|
      invariant replace == ReplaceTable(context[..i], encode)
    {
      var kv := context[i];
      assert context[..i + 1] == context[..i] + [kv];
      replace := replace + [("{" + KeyText(kv.0) + "}", ReplacementText(kv.1, encode))];
      i := i + 1;
    }
    assert context[..i] == context;
  }

  /** Index of the longest non-empty key of rep that starts s, the first of equal length winning. */
  function LongestKey(s: string, rep: Replacements): (r: Option<nat>)
    ensures r.Some? ==> r.value < |rep| && |rep[r.value].0| > 0 && IsPrefix(rep[r.value].0, s)
    ensures r.None? ==> forall i :: 0 <= i < |rep| && |rep[i].0| > 0 ==> !IsPrefix(rep[i].0, s)
    ensures r.Some? ==> forall i :: 0 <= i < |rep| && |rep[i].0| > 0 && IsPrefix(rep[i].0, s) ==> |rep[i].0| <= |rep[r.value].0|
    decreases |rep|
  {
    if rep == [] then None
    else
      var rest := LongestKey(s, rep[..|rep| - 1]);
      var last := rep[|rep| - 1].0;
      if |last| > 0 && IsPrefix(last, s) && (rest.None? || |rep[rest.value].0| < |last|) then Some(|rep| - 1)
      else rest
  }

  /**
   * strtr($s, $rep): scanning left to right, the longest key that starts at
   * the current position is replaced and scanning resumes after it, so the
   * replacement text is never scanned again.
   */
  function Strtr(s: string, rep: Replacements): string
    decreases |s|
  {
    if s == [] then []
    else match LongestKey(s, rep)
      case Some(i) => rep[i].1 + Strtr(s[|rep[i].0|..], rep)
      case None => [s[0]] + Strtr(s[1..], rep)
  }

  /** interpolate($message, $context) */
  function Interpolate(message: string, context: Entries, encode: Value -> string): string
  {
    Strtr(message, ReplaceTable(context, encode))
  }

  /** Every key of interpolate's table opens with '{'. */
  lemma ReplaceTableBraced(context: Entries, encode: Value -> string)
    ensures forall i :: 0 <= i < |context| ==> var key := ReplaceTable(context, encode)[i].0; |key| > 0 && key[0] == '{'
  {
  }

  /** Text with no '{' is left as it is: no placeholder can start anywhere in it. */
  lemma {:induction false} StrtrNoBrace(s: string, rep: Replacements)
    requires forall i :: 0 <= i < |rep| ==> |rep[i].0| > 0 && rep[i].0[0] == '{'
    requires forall j :: 0 <= j < |s| ==> s[j] != '{'
    ensures Strtr(s, rep) == s
    decreases |s|
  {
    if s != [] {
      var r := LongestKey(s, rep);
      if r.Some? {
        assert false;
      }
      StrtrNoBrace(s[1..], rep);
    }
  }

  /** An empty context leaves the message unchanged. */
  lemma {:induction false} StrtrEmpty(s: string)
    ensures Strtr(s, []) == s
    decreases |s|
  {
    if s != [] {
      StrtrEmpty(s[1..]);
    }
  }

  /**
   * A placeholder whose key is the longest one that matches at the front is
   * replaced, and the scan continues behind it: the replacement text is not
   * itself interpolated.
   */
  lemma StrtrStep(key: string, rest: string, rep: Replacements, i: nat)
    requires i < |rep| && rep[i].0 == key && |key| > 0
    requires forall j :: 0 <= j < |rep| && |rep[j].0| > 0 && IsPrefix(rep[j].0, key + rest) ==> |rep[j].0| <= |key|
    requires forall j :: 0 <= j < |rep| && j != i ==> rep[j].0 != key
    ensures Strtr(key + rest, rep) == rep[i].1 + Strtr(rest, rep)
  {
    var s := key + rest;
    assert IsPrefix(key, s) by { assert s[..|key|] == key; }
    var r := LongestKey(s, rep);
    assert r.Some?;
    var k := rep[r.value].0;
    assert |k| == |key|;
    assert k == s[..|k|] == key;
    assert r.value == i;
    assert s[|key|..] == rest;
  }

  /** Replacing "{a}" by "{b}" leaves "{b}" in the text even when "{b}" has a replacement too. */
  lemma NoRescanExample(rep: Replacements)
    requires rep == [("{a}", "{b}"), ("{b}", "x")]
    ensures Strtr("{a}", rep) == "{b}"
  {
    assert "{a}" == "{a}" + "";
    StrtrStep("{a}", "", rep, 0);
  }

  // ---------------------------------------------------------------------
  // formatLogEntry and log

  /** formatLogEntry: the interpolated message after four bracketed fields, then the JSON context when there is one. */
  function FormatLogEntry(timestamp: string, level: string, requestId: string, remoteAddr: Option<string>,
                          message: string, context: Entries, encode: Value -> string): string
  {
    var ip := if remoteAddr.Some? then remoteAddr.value else "unknown";
    var contextText := if |context| > 0 then " " + encode(Arr(context)) else "";
    "[" + timestamp + "] [" + level + "] [" + requestId + "] [" + ip + "] "
      + Interpolate(message, context, encode) + contextText
  }

  /** With no context the entry is the four fields followed by the message verbatim. */
  lemma FormatNoContext(timestamp: string, level: string, requestId: string, remoteAddr: Option<string>,
                        message: string, encode: Value -> string)
    ensures FormatLogEntry(timestamp, level, requestId, remoteAddr, message, [], encode)
         == "[" + timestamp + "] [" + level + "] [" + requestId + "] ["
            + (if remoteAddr.Some? then remoteAddr.value else "unknown") + "] " + message
  {
    assert ReplaceTable([], encode) == [];
    StrtrEmpty(message);
  }

  /** With a context, the entry ends in a space and the encoded context. */
  lemma FormatWithContext(timestamp: string, level: string, requestId: string, remoteAddr: Option<string>,
                          message: string, context: Entries, encode: Value -> string)
    requires |context| > 0
    ensures IsSuffix(" " + encode(Arr(context)), FormatLogEntry(timestamp, level, requestId, remoteAddr, message, context, encode))
    ensures IsPrefix("[" + timestamp + "] [" + level + "] [", FormatLogEntry(timestamp, level, requestId, remoteAddr, message, context, encode))
  {
    var e := FormatLogEntry(timestamp, level, requestId, remoteAddr, message, context, encode);
    var p := "[" + timestamp + "] [" + level + "] [";
    assert e[..|p|] == p;
  }

  /**
   * A logger with its minimum level. The log file and the PHP error log are
   * the lists of entries written to them.
   */
  class Logger {
    var minLevel: string
    var useErrorLog: bool
    var fileLines: seq<string>
    var errorLog: seq<string>

    constructor (minLevel: string, useErrorLog: bool)
      ensures this.minLevel == minLevel && this.useErrorLog == useErrorLog
      ensures fileLines == [] && errorLog == []
    {
      this.minLevel := minLevel;
      this.useErrorLog := useErrorLog;
      fileLines := [];
      errorLog := [];
    }

    /**
     * log($level, $message, $context): nothing is written and false is
     * returned when the level is filtered out; otherwise the entry plus a
     * newline is appended to the file, the entry to the error log when that
     * is enabled, and the result is whether the file write succeeded.
     */
    method Log(level: string, message: string, context: Entries,
                 timestamp: string, requestId: string, remoteAddr: Option<string>,
                 encode: Value -> string, fileWriteOk: bool) returns (ok: bool)
      modifies this
      ensures minLevel == old(minLevel) && useErrorLog == old(useErrorLog)
      ensures !ShouldLog(level, minLevel) ==> !ok && fileLines == old(fileLines) && errorLog == old(errorLog)
      ensures ShouldLog(level, minLevel) ==>
        var entry := FormatLogEntry(timestamp, level, requestId, remoteAddr, message, context, encode);
        && ok == fileWriteOk
        && fileLines == old(fileLines) + (if fileWriteOk then [entry + "\n"] else [])
        && errorLog == old(errorLog) + (if useErrorLog then [entry] else [])
    {
      if !ShouldLog(level, minLevel) {
        return false;
      }
      var entry := FormatLogEntry(timestamp, level, requestId, remoteAddr, message, context, encode);
      if fileWriteOk {
        fileLines := fileLines + [entry + "\n"];
      }
      if useErrorLog {
        errorLog := errorLog + [entry];
      }
      ok := fileWriteOk;
    }
  }
}
