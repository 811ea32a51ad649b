/**
 * The validation rule engine (app/utils/Validator.php) as values.
 *
 * validate() walks the rule array field by field and rule by rule and
 * appends one message per failed rule to `$errors[$field]`. The predicates
 * PHP delegates to filter_var, DateTime and PCRE are the fields of a Checks
 * record; the callbacks registered with addRule are function values.
 */
module ValidatorSpec {
  import opened Text
  import opened Php

  /** `$errors`: per field, the messages in the order they were added. */
  type Errors = seq<(Key, seq<string>)>

  /** A callback registered with addRule: (value, rule parameter, all data) to result. */
  type CustomRule = (Value, Value, Entries) -> Value
  type CustomRules = seq<(Key, CustomRule)>

  /** `$rules`: field name to that field's rule array. */
  type Rules = seq<(Key, Entries)>

  /** The rule predicates that rest on filter_var, DateTime or PCRE. */
  datatype Checks = Checks(
    email: Value -> bool,
    url: Value -> bool,
    /** filter_var($v, FILTER_VALIDATE_INT): the integer, or None for false */
    filterInt: Value -> Option<int>,
    /** whether filter_var($v, FILTER_VALIDATE_FLOAT) is truthy */
    floatTruthy: Value -> bool,
    date: Value -> bool,
    /** preg_match($pattern, $value) is truthy */
    regex: (Value, Value) -> bool,
    alpha: Value -> bool,
    alphaNum: Value -> bool,
    alphaDash: Value -> bool,
    /** the sign of (float)$s - $n, for numeric strings with a fraction or an exponent */
    compare: (string, int) -> int)

  /** getErrors() as a PHP array: field to list of messages. */
  function ErrorsValue(errs: Errors): (r: Entries)
    ensures |r| == |errs| && forall i :: 0 <= i < |errs| ==> r[i] == (errs[i].0, StrList(errs[i].1))
  {
    seq(|errs|, i requires 0 <= i < |errs| => (errs[i].0, StrList(errs[i].1)))
  }

  function MessagesOf(errs: Errors, field: Key): seq<string>
  {
    match Get(errs, field)
    case Some(ms) => ms
    case None => []
  }

  /** addError: start the field's list when it has none, then append. */
  function AddError(errs: Errors, field: Key, msg: string): Errors
  {
    Put(errs, field, MessagesOf(errs, field) + [msg])
  }

  /** addError appends to the field's list and leaves every other field alone. */
  lemma AddErrorSpec(errs: Errors, field: Key, msg: string, k: Key)
    ensures MessagesOf(AddError(errs, field, msg), k)
         == if k == field then MessagesOf(errs, field) + [msg] else MessagesOf(errs, k)
    ensures Has(AddError(errs, field, msg), k) <==> k == field || Has(errs, k)
  {
    GetPut(errs, field, MessagesOf(errs, field) + [msg], k);
  }

  /** Adding each of msgs in turn. */
  function AddAll(errs: Errors, field: Key, msgs: seq<string>): Errors
    decreases |msgs|
  {
    if msgs == [] then errs
    else AddError(AddAll(errs, field, msgs[..|msgs| - 1]), field, msgs[|msgs| - 1])
  }

  lemma AddAllSnoc(errs: Errors, field: Key, msgs: seq<string>, m: string)
    ensures AddAll(errs, field, msgs + [m]) == AddError(AddAll(errs, field, msgs), field, m)
  {
    assert (msgs + [m])[..|msgs|] == msgs;
  }

  /** A run of addError calls for one field appends its messages in order and touches nothing else. */
  lemma {:induction false} AddAllSpec(errs: Errors, field: Key, msgs: seq<string>, k: Key)
    ensures Get(AddAll(errs, field, msgs), k)
         == if k == field && msgs != [] then Some(MessagesOf(errs, field) + msgs) else Get(errs, k)
    decreases |msgs|
  {
    if msgs != [] {
      var init := msgs[..|msgs| - 1];
      var m := msgs[|msgs| - 1];
      var acc := AddAll(errs, field, init);
      AddAllSpec(errs, field, init, k);
      AddAllSpec(errs, field, init, field);
      assert MessagesOf(acc, field) == MessagesOf(errs, field) + init by {
        if init == [] { assert acc == errs; }
      }
      GetPut(acc, field, MessagesOf(acc, field) + [m], k);
      assert init + [m] == msgs;
      assert MessagesOf(errs, field) + init + [m] == MessagesOf(errs, field) + msgs;
    }
  }

  // ---------------------------------------------------------------------
  // applyRule

  /** The case labels of applyRule's switch, in their order, and its default. */
  datatype Builtin =
    | Required | Email | Url | Numeric | Integer | Float | Boolean | Date | Min | Max
    | Between | Length | In | NotIn | Regex | Same | Different | Alpha | AlphaNum | AlphaDash
    | Unknown

  /** The branch `switch ($rule)` takes: the first label the rule loosely equals. */
  function LooseCase(rule: Value): Builtin
  {
    if LooseEq(rule, Str("required")) then Required
    else if LooseEq(rule, Str("email")) then Email
    else if LooseEq(rule, Str("url")) then Url
    else if LooseEq(rule, Str("numeric")) then Numeric
    else if LooseEq(rule, Str("integer")) then Integer
    else if LooseEq(rule, Str("float")) then Float
    else if LooseEq(rule, Str("boolean")) then Boolean
    else if LooseEq(rule, Str("date")) then Date
    else if LooseEq(rule, Str("min")) then Min
    else if LooseEq(rule, Str("max")) then Max
    else if LooseEq(rule, Str("between")) then Between
    else if LooseEq(rule, Str("length")) then Length
    else if LooseEq(rule, Str("in")) then In
    else if LooseEq(rule, Str("not_in")) then NotIn
    else if LooseEq(rule, Str("regex")) then Regex
    else if LooseEq(rule, Str("same")) then Same
    else if LooseEq(rule, Str("different")) then Different
    else if LooseEq(rule, Str("alpha")) then Alpha
    else if LooseEq(rule, Str("alpha_num")) then AlphaNum
    else if LooseEq(rule, Str("alpha_dash")) then AlphaDash
    else Unknown
  }

  /** The label a rule name selects by plain text equality. */
  function NamedCase(s: string): Builtin
  {
    if s == "required" then Required
    else if s == "email" then Email
    else if s == "url" then Url
    else if s == "numeric" then Numeric
    else if s == "integer" then Integer
    else if s == "float" then Float
    else if s == "boolean" then Boolean
    else if s == "date" then Date
    else if s == "min" then Min
    else if s == "max" then Max
    else if s == "between" then Between
    else if s == "length" then Length
    else if s == "in" then In
    else if s == "not_in" then NotIn
    else if s == "regex" then Regex
    else if s == "same" then Same
    else if s == "different" then Different
    else if s == "alpha" then Alpha
    else if s == "alpha_num" then AlphaNum
    else if s == "alpha_dash" then AlphaDash
    else Unknown
  }

  /**
   * The branch applyRule takes for a rule: a rule written as a string selects
   * its label by text equality, any other value by loose comparison.
   */
  function CaseOf(rule: Value): Builtin
  {
    match rule
    case Str(s) => NamedCase(s)
    case _ => LooseCase(rule)
  }

  /**
   * CaseOf is the switch's loose comparison: no label is numeric, so a string
   * loosely equals a label only when it is that label. The rule value `true`
   * loosely equals the first label and is treated as 'required'.
   */
  lemma CaseOfLoose(rule: Value)
    ensures CaseOf(rule) == LooseCase(rule)
    ensures CaseOf(Bool(true)) == Required
  {
    if rule.Str? {
      var s := rule.s;
      WordLoose(s, "required"); WordLoose(s, "email"); WordLoose(s, "url"); WordLoose(s, "numeric");
      WordLoose(s, "integer"); WordLoose(s, "float"); WordLoose(s, "boolean"); WordLoose(s, "date");
      WordLoose(s, "min"); WordLoose(s, "max"); WordLoose(s, "between"); WordLoose(s, "length");
      WordLoose(s, "in"); WordLoose(s, "not_in"); WordLoose(s, "regex"); WordLoose(s, "same");
      WordLoose(s, "different"); WordLoose(s, "alpha"); WordLoose(s, "alpha_num"); WordLoose(s, "alpha_dash");
    }
  }

  /** `$value !== null && $value !== ''`: the guard of every rule except required, same and different. */
  predicate Present(v: Value) { v != Null && v != Str("") }

  /** `$value < $n` for a numeric value and an integer bound. */
  predicate NumLess(v: Value, n: int, checks: Checks)
  {
    match v
    case Int(i) => i < n
    case Str(s) => (match IntegerString(s) case Some(i) => i < n case None => checks.compare(s, n) < 0)
    case _ => false
  }

  /** `$value > $n` for a numeric value and an integer bound. */
  predicate NumGreater(v: Value, n: int, checks: Checks)
  {
    match v
    case Int(i) => i > n
    case Str(s) => (match IntegerString(s) case Some(i) => i > n case None => checks.compare(s, n) > 0)
    case _ => false
  }

  /** `(array) $ruleValue` as a list of values. */
  function AsList(rv: Value): seq<Value>
  {
    match rv
    case Arr(e) => ValuesOf(e)
    case Null => []
    case _ => [rv]
  }

  /** The list in the in/not_in messages: the values joined by ", ", or the scalar itself. */
  function Listed(rv: Value): string
  {
    if rv.Arr? then
      var vs := ValuesOf(rv.entries);
      Implode(", ", seq(|vs|, i requires 0 <= i < |vs| => ToStr(vs[i])))
    else ToStr(rv)
  }

  /** `$data[$ruleValue] ?? null` */
  function OtherValue(data: Entries, rv: Value): Value
  {
    match OffsetKey(rv)
    case Some(k) => (match Get(data, k) case Some(v) => v case None => Null)
    case None => Null
  }

  /** The min rule: too short a string, or too small a number. */
  function MinError(f: string, value: Value, rv: Value, checks: Checks): Option<string>
  {
    var n := IntVal(rv);
    if !Present(value) then None
    else if value.Str? && |value.s| < n then Some("The " + f + " must be at least " + ToStr(rv) + " characters.")
    else if IsNumeric(value) && NumLess(value, n, checks) then Some("The " + f + " must be at least " + ToStr(rv) + ".")
    else None
  }

  /** The max rule: too long a string, or too large a number. */
  function MaxError(f: string, value: Value, rv: Value, checks: Checks): Option<string>
  {
    var n := IntVal(rv);
    if !Present(value) then None
    else if value.Str? && |value.s| > n then Some("The " + f + " may not be greater than " + ToStr(rv) + " characters.")
    else if IsNumeric(value) && NumGreater(value, n, checks) then Some("The " + f + " may not be greater than " + ToStr(rv) + ".")
    else None
  }

  /** The between rule on [lo, hi]: the length of a string, or the value of a number. */
  function BetweenError(f: string, value: Value, rv: Value, checks: Checks): Option<string>
  {
    var lo := At(rv, IntKey(0));
    var hi := At(rv, IntKey(1));
    if !Present(value) then None
    else if value.Str? then
      if |value.s| < IntVal(lo) || |value.s| > IntVal(hi)
      then Some("The " + f + " must be between " + ToStr(lo) + " and " + ToStr(hi) + " characters.") else None
    else if IsNumeric(value) then
      if NumLess(value, IntVal(lo), checks) || NumGreater(value, IntVal(hi), checks)
      then Some("The " + f + " must be between " + ToStr(lo) + " and " + ToStr(hi) + ".") else None
    else None
  }

  /** The length rule on [lo, hi]: the length of the text form. */
  function LengthError(f: string, value: Value, rv: Value, checks: Checks): Option<string>
  {
    var lo := At(rv, IntKey(0));
    var hi := At(rv, IntKey(1));
    var len := |ToStr(value)|;
    if Present(value) && (len < IntVal(lo) || len > IntVal(hi))
    then Some("The " + f + " must be between " + ToStr(lo) + " and " + ToStr(hi) + " characters.") else None
  }

  /** The message a built-in rule records for a field, or None when it passes. */
  function BuiltinError(kind: Builtin, field: Key, value: Value, rule: Value, rv: Value, data: Entries, checks: Checks): Option<string>
  {
    var f := KeyText(field);
    match kind
    case Required =>
      if Truthy(rv) && (value == Null || value == Str("")) then Some("The " + f + " field is required.") else None
    case Email =>
      if Present(value) && !checks.email(value) then Some("The " + f + " must be a valid email address.") else None
    case Url =>
      if Present(value) && !checks.url(value) then Some("The " + f + " must be a valid URL.") else None
    case Numeric =>
      if Present(value) && !IsNumeric(value) then Some("The " + f + " must be numeric.") else None
    case Integer =>
      var r := checks.filterInt(value);
      if Present(value) && (r.None? || r.value == 0) then Some("The " + f + " must be an integer.") else None
    case Float =>
      if Present(value) && !checks.floatTruthy(value) then Some("The " + f + " must be a float.") else None
    case Boolean =>
      if Present(value) && value !in [Bool(true), Bool(false), Int(0), Int(1), Str("0"), Str("1")]
      then Some("The " + f + " must be a boolean.") else None
    case Date =>
      if Present(value) && !checks.date(value) then Some("The " + f + " must be a valid date.") else None
    case Min => MinError(f, value, rv, checks)
    case Max => MaxError(f, value, rv, checks)
    case Between => BetweenError(f, value, rv, checks)
    case Length => LengthError(f, value, rv, checks)
    case In =>
      if Present(value) && value !in AsList(rv) then Some("The " + f + " must be one of the following: " + Listed(rv) + ".") else None
    case NotIn =>
      if Present(value) && value in AsList(rv) then Some("The " + f + " may not be one of the following: " + Listed(rv) + ".") else None
    case Regex =>
      if Present(value) && !checks.regex(rv, value) then Some("The " + f + " format is invalid.") else None
    case Same =>
      if value != OtherValue(data, rv) then Some("The " + f + " and " + ToStr(rv) + " must match.") else None
    case Different =>
      if value == OtherValue(data, rv) then Some("The " + f + " and " + ToStr(rv) + " must be different.") else None
    case Alpha =>
      if Present(value) && !checks.alpha(value) then Some("The " + f + " may only contain letters.") else None
    case AlphaNum =>
      if Present(value) && !checks.alphaNum(value) then Some("The " + f + " may only contain letters and numbers.") else None
    case AlphaDash =>
      if Present(value) && !checks.alphaDash(value)
      then Some("The " + f + " may only contain letters, numbers, dashes and underscores.") else None
    case Unknown =>
      Some("Unknown validation rule: " + ToStr(rule) + ".")
  }

  /** The custom rule registered under a rule's name, if any. */
  function CustomFor(custom: CustomRules, rule: Value): Option<CustomRule>
  {
    match OffsetKey(rule)
    case Some(k) => Get(custom, k)
    case None => None
  }

  /** applyRule: the message it records, or None when the rule passes. A custom rule comes first. */
  function RuleError(field: Key, value: Value, rule: Value, rv: Value, data: Entries,
                     custom: CustomRules, checks: Checks): Option<string>
  {
    match CustomFor(custom, rule)
    case Some(cb) =>
      var result := cb(value, rv, data);
      if result == Bool(true) then None
      else if result.Str? then Some(result.s)
      else Some("The " + KeyText(field) + " field is invalid.")
    case None => BuiltinError(CaseOf(rule), field, value, rule, rv, data, checks)
  }

  /** The (rule, parameter) pair of one rule entry: a numeric key makes the value the rule, with parameter true. */
  function Normalized(k: Key, v: Value): (Value, Value)
  {
    if IsNumeric(KeyValue(k)) then (v, Bool(true)) else (KeyValue(k), v)
  }

  /** The messages one field's rules record, in rule order. */
  function FieldMessages(field: Key, value: Value, fieldRules: Entries, data: Entries,
                         custom: CustomRules, checks: Checks): seq<string>
    decreases |fieldRules|
  {
    if fieldRules == [] then []
    else
      var (rule, rv) := Normalized(fieldRules[|fieldRules| - 1].0, fieldRules[|fieldRules| - 1].1);
      var e := RuleError(field, value, rule, rv, data, custom, checks);
      FieldMessages(field, value, fieldRules[..|fieldRules| - 1], data, custom, checks)
        + (if e.Some? then [e.value] else [])
  }

  /** One more rule adds its message, if any, after those of the rules before it. */
  lemma FieldMessagesStep(field: Key, value: Value, fieldRules: Entries, j: nat, data: Entries,
                          custom: CustomRules, checks: Checks)
    requires j < |fieldRules|
    ensures var (rule, rv) := Normalized(fieldRules[j].0, fieldRules[j].1);
      var e := RuleError(field, value, rule, rv, data, custom, checks);
      FieldMessages(field, value, fieldRules[..j + 1], data, custom, checks)
      == FieldMessages(field, value, fieldRules[..j], data, custom, checks) + (if e.Some? then [e.value] else [])
  {
    assert fieldRules[..j + 1][..j] == fieldRules[..j];
  }

  /** hasRule($rules, $rule): the name loosely among the values, or present as a key. */
  predicate HasRule(fieldRules: Entries, name: string)
  {
    InArrayLoose(Str(name), ValuesOf(fieldRules)) || KeyExists(fieldRules, KeyOf(name))
  }

  /** A field validate() passes over: not set in the data and without a 'required' rule. */
  predicate Skipped(data: Entries, field: Key, fieldRules: Entries)
  {
    !Isset(data, field) && !HasRule(fieldRules, "required")
  }

  /** `$data[$field] ?? null` */
  function FieldValue(data: Entries, field: Key): Value
  {
    match Get(data, field) case Some(v) => v case None => Null
  }

  /** The messages validate() records for one entry of the rule array. */
  function EntryMessages(data: Entries, field: Key, fieldRules: Entries, custom: CustomRules, checks: Checks): seq<string>
  {
    if Skipped(data, field, fieldRules) then []
    else FieldMessages(field, FieldValue(data, field), fieldRules, data, custom, checks)
  }

  /** `$errors` after validate($data, $rules), which starts from no errors. */
  function ValidateAll(data: Entries, rules: Rules, custom: CustomRules, checks: Checks): Errors
    decreases |rules|
  {
    if rules == [] then []
    else
      var (field, fieldRules) := rules[|rules| - 1];
      AddAll(ValidateAll(data, rules[..|rules| - 1], custom, checks), field,
             EntryMessages(data, field, fieldRules, custom, checks))
  }

  /** The messages a field ends up with: those of its own rule entry, none when it has none. */
  function MessagesFor(data: Entries, rules: Rules, field: Key, custom: CustomRules, checks: Checks): seq<string>
  {
    match Get(rules, field)
    case Some(fieldRules) => EntryMessages(data, field, fieldRules, custom, checks)
    case None => []
  }

  /**
   * After validate, a field has an entry in the errors exactly when one of
   * its rules failed, and the entry lists that field's messages in rule
   * order; messages of different fields never mix.
   */
  lemma {:induction false} ValidateGet(data: Entries, rules: Rules, custom: CustomRules, checks: Checks, k: Key)
    requires UniqueKeys(rules)
    ensures Get(ValidateAll(data, rules, custom, checks), k)
         == (var ms := MessagesFor(data, rules, k, custom, checks); if ms == [] then None else Some(ms))
    decreases |rules|
  {
    if rules != [] {
      var init := rules[..|rules| - 1];
      var last := rules[|rules| - 1];
      var acc := ValidateAll(data, init, custom, checks);
      var ms := EntryMessages(data, last.0, last.1, custom, checks);
      assert ValidateAll(data, rules, custom, checks) == AddAll(acc, last.0, ms);
      GetLast(rules, k);
      ValidateGet(data, init, custom, checks, k);
      AddAllSpec(acc, last.0, ms, k);
      if k == last.0 {
        assert MessagesOf(acc, k) == [];
        assert [] + ms == ms;
      }
    }
  }

  /** validate() passes exactly when no field of the rule array has a message. */
  lemma ValidatePasses(data: Entries, rules: Rules, custom: CustomRules, checks: Checks)
    requires UniqueKeys(rules)
    ensures ValidateAll(data, rules, custom, checks) == []
        <==> forall k :: MessagesFor(data, rules, k, custom, checks) == []
  {
    var errs := ValidateAll(data, rules, custom, checks);
    if errs == [] {
      forall k ensures MessagesFor(data, rules, k, custom, checks) == [] {
        ValidateGet(data, rules, custom, checks, k);
      }
    } else {
      var k := errs[0].0;
      PosUpTo(errs, k, 0);
      ValidateGet(data, rules, custom, checks, k);
    }
  }

  /** validate() passes exactly when no field of the rule array has an entry in the errors. */
  lemma ValidatePassesEntries(data: Entries, rules: Rules, custom: CustomRules, checks: Checks)
    requires UniqueKeys(rules)
    ensures ValidateAll(data, rules, custom, checks) == []
        <==> forall i :: 0 <= i < |rules| ==> Get(ValidateAll(data, rules, custom, checks), rules[i].0) == None
  {
    var errs := ValidateAll(data, rules, custom, checks);
    if errs != [] {
      var k := errs[0].0;
      PosUpTo(errs, k, 0);
      ValidateGet(data, rules, custom, checks, k);
      var i := Pos(rules, k);
      assert i < |rules| && rules[i].0 == k;
    }
  }

  /** A field that is not set and carries no 'required' rule records no message, whatever its other rules are. */
  lemma SkippedField(data: Entries, rules: Rules, custom: CustomRules, checks: Checks, k: Key, fieldRules: Entries)
    requires UniqueKeys(rules) && Get(rules, k) == Some(fieldRules)
    requires !Isset(data, k) && !HasRule(fieldRules, "required")
    ensures Get(ValidateAll(data, rules, custom, checks), k) == None
  {
    ValidateGet(data, rules, custom, checks, k);
  }

  /**
   * A field whose only rule is the parameterless 'required' (written `['required']`)
   * fails with the required message when it is absent, null or ''.
   */
  lemma RequiredMissing(data: Entries, rules: Rules, custom: CustomRules, checks: Checks, k: Key)
    requires UniqueKeys(rules) && Get(rules, k) == Some([(IntKey(0), Str("required"))])
    requires CustomFor(custom, Str("required")) == None
    requires FieldValue(data, k) == Null || FieldValue(data, k) == Str("")
    ensures Get(ValidateAll(data, rules, custom, checks), k) == Some(["The " + KeyText(k) + " field is required."])
  {
    var fr := [(IntKey(0), Str("required"))];
    var v := FieldValue(data, k);
    var msg := "The " + KeyText(k) + " field is required.";
    assert HasRule(fr, "required") by { assert LooseEq(Str("required"), ValuesOf(fr)[0]); }
    assert Normalized(IntKey(0), Str("required")) == (Str("required"), Bool(true));
    assert CaseOf(Str("required")) == Required;
    assert RuleError(k, v, Str("required"), Bool(true), data, custom, checks) == Some(msg);
    assert FieldMessages(k, v, fr, data, custom, checks) == [msg] by { assert fr[..0] == []; }
    assert MessagesFor(data, rules, k, custom, checks) == [msg];
    ValidateGet(data, rules, custom, checks, k);
  }

  /** A field whose rule array is `['required']` records the required message exactly when its value is null, absent or ''. */
  lemma RequiredOnly(data: Entries, field: Key, custom: CustomRules, checks: Checks)
    requires CustomFor(custom, Str("required")) == None
    ensures EntryMessages(data, field, [(IntKey(0), Str("required"))], custom, checks)
         == if Present(FieldValue(data, field)) then [] else ["The " + KeyText(field) + " field is required."]
  {
    var fr := [(IntKey(0), Str("required"))];
    var v := FieldValue(data, field);
    var msg := "The " + KeyText(field) + " field is required.";
    assert HasRule(fr, "required") by { assert LooseEq(Str("required"), ValuesOf(fr)[0]); }
    assert Normalized(IntKey(0), Str("required")) == (Str("required"), Bool(true));
    assert CaseOf(Str("required")) == Required;
    assert RuleError(field, v, Str("required"), Bool(true), data, custom, checks) == if Present(v) then None else Some(msg);
    assert fr[..0] == [];
  }

  /** A custom rule overrides the built-in of the same name: only its callback's result decides. */
  lemma CustomFirst(field: Key, value: Value, name: string, rv: Value, data: Entries,
                    custom: CustomRules, checks: Checks, cb: CustomRule)
    requires Get(custom, KeyOf(name)) == Some(cb)
    ensures RuleError(field, value, Str(name), rv, data, custom, checks).None? <==> cb(value, rv, data) == Bool(true)
    ensures cb(value, rv, data).Str? ==> RuleError(field, value, Str(name), rv, data, custom, checks) == Some(cb(value, rv, data).s)
  {
  }

  /** A rule name that is none of the built-in labels and has no custom rule is reported as unknown. */
  lemma UnknownRule(field: Key, value: Value, name: string, rv: Value, data: Entries, custom: CustomRules, checks: Checks)
    requires NamedCase(name) == Unknown && CustomFor(custom, Str(name)) == None
    ensures RuleError(field, value, Str(name), rv, data, custom, checks) == Some("Unknown validation rule: " + name + ".")
  {
  }

  /** Every rule but required, same and different passes on a null or empty value. */
  lemma AbsentPasses(kind: Builtin, field: Key, value: Value, rule: Value, rv: Value, data: Entries, checks: Checks)
    requires !Present(value)
    requires kind != Required && kind != Same && kind != Different && kind != Unknown
    ensures BuiltinError(kind, field, value, rule, rv, data, checks) == None
  {
    if kind in {Email, Url, Numeric, Integer, Float, Boolean, Date} {
      AbsentPassesFormat(kind, field, value, rule, rv, data, checks);
    } else if kind in {Min, Max, Between, Length} {
      AbsentPassesSize(kind, field, value, rule, rv, data, checks);
    } else {
      AbsentPassesOther(kind, field, value, rule, rv, data, checks);
    }
  }

  lemma AbsentPassesFormat(kind: Builtin, field: Key, value: Value, rule: Value, rv: Value, data: Entries, checks: Checks)
    requires !Present(value) && kind in {Email, Url, Numeric, Integer, Float, Boolean, Date}
    ensures BuiltinError(kind, field, value, rule, rv, data, checks) == None
  {
  }

  lemma AbsentPassesSize(kind: Builtin, field: Key, value: Value, rule: Value, rv: Value, data: Entries, checks: Checks)
    requires !Present(value) && kind in {Min, Max, Between, Length}
    ensures BuiltinError(kind, field, value, rule, rv, data, checks) == None
  {
  }

  lemma AbsentPassesOther(kind: Builtin, field: Key, value: Value, rule: Value, rv: Value, data: Entries, checks: Checks)
    requires !Present(value) && kind in {In, NotIn, Regex, Alpha, AlphaNum, AlphaDash}
    ensures BuiltinError(kind, field, value, rule, rv, data, checks) == None
  {
  }

  /**
   * min on a string that is not numeric is a length check; on an integer it
   * is a value check.
   */
  lemma MinRule(field: Key, value: Value, n: int, data: Entries, checks: Checks)
    requires Present(value)
    ensures value.Str? && !IsNumericString(value.s) ==>
      (BuiltinError(Min, field, value, Str("min"), Int(n), data, checks).Some? <==> |value.s| < n)
    ensures value.Int? ==>
      (BuiltinError(Min, field, value, Str("min"), Int(n), data, checks).Some? <==> value.n < n)
  {
  }

  /**
   * min on a numeric string at least n characters long is decided by value
   * alone: "0" (one character, numeric, value 0) passes the length test of
   * ['min' => 1] and fails the numeric one.
   */
  lemma MinNumeric(f: string, v: Value, n: int, checks: Checks)
    requires Present(v) && v.Str? && |v.s| >= n && IsNumeric(v) && NumLess(v, n, checks)
    ensures MinError(f, v, Int(n), checks) == Some("The " + f + " must be at least " + ToStr(Int(n)) + ".")
  {
  }

  /** "0" is a numeric string whose integer value is 0, so it is below a minimum of 1. */
  lemma NumericZero(checks: Checks)
    ensures IsNumericString("0") && IntegerString("0") == Some(0) && NumLess(Str("0"), 1, checks)
  {
    ZeroTrimmed();
    ZeroDigits();
  }

  lemma ZeroTrimmed()
    ensures Trim("0", NumericBlanks) == "0"
  {
    assert LTrim("0", NumericBlanks) == "0";
    assert RTrim("0", NumericBlanks) == "0";
  }

  lemma ZeroDigits()
    ensures DigitPrefix("0") == "0" && AllChars("0", IsDigit) && DigitsValue("0") == 0
  {
    assert DigitPrefix([]) == [];
    assert "0"[1..] == [];
    assert "0"[..0] == [];
  }

  /** The pair `[lo, hi]` of a between or length rule. */
  function Bounds(lo: int, hi: int): Value { Arr(ListOf([Int(lo), Int(hi)])) }

  /** length [lo, hi] fails exactly when the text form of a present value is shorter than lo or longer than hi. */
  lemma LengthRule(field: Key, value: Value, lo: int, hi: int, data: Entries, checks: Checks)
    ensures BuiltinError(Length, field, value, Str("length"), Bounds(lo, hi), data, checks)
         == if Present(value) && (|ToStr(value)| < lo || |ToStr(value)| > hi)
            then Some("The " + KeyText(field) + " must be between " + IntToString(lo) + " and " + IntToString(hi) + " characters.")
            else None
  {
    var rv := Bounds(lo, hi);
    assert rv.entries == [(IntKey(0), Int(lo)), (IntKey(1), Int(hi))];
    PosUpTo(rv.entries, IntKey(0), 0);
    PosUpTo(rv.entries, IntKey(1), 1);
    assert At(rv, IntKey(0)) == Int(lo) && At(rv, IntKey(1)) == Int(hi);
  }

  /**
   * A field with the rules `['required', 'length' => [lo, hi]]` records the
   * required message when its value is absent, null or '', and otherwise the
   * length message when its text is shorter than lo or longer than hi.
   */
  lemma RequiredLength(data: Entries, field: Key, lo: int, hi: int, checks: Checks)
    ensures EntryMessages(data, field, [(IntKey(0), Str("required")), (StrKey("length"), Bounds(lo, hi))], [], checks)
         == (var v := FieldValue(data, field);
             if !Present(v) then ["The " + KeyText(field) + " field is required."]
             else if |ToStr(v)| < lo || |ToStr(v)| > hi
             then ["The " + KeyText(field) + " must be between " + IntToString(lo) + " and " + IntToString(hi) + " characters."]
             else [])
  {
    assert NamedCase("length") == Length;
    WordNotNumeric("length");
    RequiredAnd(data, field, "length", lo, hi, checks);
  }

  /** The messages of an optional error: none, or the one. */
  function Messages(e: Option<string>): (r: seq<string>)
    ensures |r| <= 1
  {
    if e.Some? then [e.value] else []
  }

  /** The messages a rule entry records: its rule's message, if any. */
  function EntryError(field: Key, value: Value, entry: (Key, Value), data: Entries, custom: CustomRules, checks: Checks): Option<string>
  {
    var (rule, rv) := Normalized(entry.0, entry.1);
    RuleError(field, value, rule, rv, data, custom, checks)
  }

  /** A single rule records its message, if any. */
  lemma OneRule(field: Key, value: Value, entry: (Key, Value), data: Entries, custom: CustomRules, checks: Checks)
    ensures FieldMessages(field, value, [entry], data, custom, checks) == Messages(EntryError(field, value, entry, data, custom, checks))
  {
    assert [entry][..0] == [];
  }

  /** Two rules record the first rule's message, if any, then the second's. */
  lemma TwoRules(field: Key, value: Value, fr: Entries, data: Entries, custom: CustomRules, checks: Checks)
    requires |fr| == 2
    ensures FieldMessages(field, value, fr, data, custom, checks)
         == Messages(EntryError(field, value, fr[0], data, custom, checks)) + Messages(EntryError(field, value, fr[1], data, custom, checks))
  {
    assert fr[..1] == [fr[0]];
    OneRule(field, value, fr[0], data, custom, checks);
  }

  lemma RequiredAnd(data: Entries, field: Key, name: string, lo: int, hi: int, checks: Checks)
    requires NamedCase(name) == Length && !IsNumericString(name)
    ensures EntryMessages(data, field, [(IntKey(0), Str("required")), (StrKey(name), Bounds(lo, hi))], [], checks)
         == (var v := FieldValue(data, field);
             if !Present(v) then ["The " + KeyText(field) + " field is required."]
             else if |ToStr(v)| < lo || |ToStr(v)| > hi
             then ["The " + KeyText(field) + " must be between " + IntToString(lo) + " and " + IntToString(hi) + " characters."]
             else [])
  {
    var fr := [(IntKey(0), Str("required")), (StrKey(name), Bounds(lo, hi))];
    var v := FieldValue(data, field);
    assert HasRule(fr, "required") by { assert LooseEq(Str("required"), ValuesOf(fr)[0]); }
    assert Normalized(fr[0].0, fr[0].1) == (Str("required"), Bool(true));
    assert Normalized(fr[1].0, fr[1].1) == (Str(name), Bounds(lo, hi));
    TwoRules(field, v, fr, data, [], checks);
    RequiredRuleError(field, v, data, checks);
    LengthRuleError(field, v, name, lo, hi, data, checks);
  }

  /** The rule 'required' fails exactly on an absent, null or '' value. */
  lemma RequiredRuleError(field: Key, v: Value, data: Entries, checks: Checks)
    ensures RuleError(field, v, Str("required"), Bool(true), data, [], checks)
         == if Present(v) then None else Some("The " + KeyText(field) + " field is required.")
  {
    assert CaseOf(Str("required")) == Required;
  }

  /** The rule 'length' as written in a rule array, with no custom rule of that name. */
  lemma LengthRuleError(field: Key, v: Value, name: string, lo: int, hi: int, data: Entries, checks: Checks)
    requires NamedCase(name) == Length
    ensures RuleError(field, v, Str(name), Bounds(lo, hi), data, [], checks)
         == if Present(v) && (|ToStr(v)| < lo || |ToStr(v)| > hi)
            then Some("The " + KeyText(field) + " must be between " + IntToString(lo) + " and " + IntToString(hi) + " characters.")
            else None
  {
    var rv := Bounds(lo, hi);
    assert CustomFor([], Str(name)) == None;
    assert RuleError(field, v, Str(name), rv, data, [], checks) == LengthError(KeyText(field), v, rv, checks);
    assert BuiltinError(Length, field, v, Str("length"), rv, data, checks) == LengthError(KeyText(field), v, rv, checks);
    LengthRule(field, v, lo, hi, data, checks);
  }

  /** length measures the text form, so the integer 12345 is five characters long. */
  lemma LengthOfInteger(field: Key, data: Entries, checks: Checks)
    ensures BuiltinError(Length, field, Int(12345), Str("length"), Bounds(1, 3), data, checks)
         == Some("The " + KeyText(field) + " must be between 1 and 3 characters.")
  {
    assert BuiltinError(Length, field, Int(12345), Str("length"), Bounds(1, 3), data, checks)
        == Some("The " + KeyText(field) + " must be between " + IntToString(1) + " and " + IntToString(3) + " characters.") by {
      FiveDigits();
      LengthRule(field, Int(12345), 1, 3, data, checks);
    }
    LengthMessage(KeyText(field));
  }

  lemma FiveDigits()
    ensures |ToStr(Int(12345))| == 5
  {
    assert IntToString(12345) == "12345";
  }

  lemma LengthMessage(f: string)
    ensures "The " + f + " must be between " + IntToString(1) + " and " + IntToString(3) + " characters."
         == "The " + f + " must be between 1 and 3 characters."
  {
    assert IntToString(1) == "1" && IntToString(3) == "3";
    var a := "The " + f;
    assert a + " must be between " + "1" + " and " + "3" + " characters."
        == a + (" must be between " + "1" + " and " + "3" + " characters.");
    assert " must be between " + "1" + " and " + "3" + " characters." == " must be between 1 and 3 characters.";
  }

  /** in and not_in compare strictly: the integer 1 is not in ['1'], and with a value both never fail together. */
  lemma InStrict(field: Key, data: Entries, checks: Checks)
    ensures BuiltinError(In, field, Int(1), Str("in"), Arr(ListOf([Str("1")])), data, checks).Some?
  {
    assert AsList(Arr(ListOf([Str("1")]))) == [Str("1")];
  }

  lemma InNotInExclusive(field: Key, value: Value, rv: Value, data: Entries, checks: Checks)
    ensures Present(value) ==>
      (BuiltinError(In, field, value, Str("in"), rv, data, checks).Some?
       <==> BuiltinError(NotIn, field, value, Str("not_in"), rv, data, checks).None?)
  {
  }

  /**
   * same and different look at `$data[$other] ?? null` even when the value
   * is null: with both null, same passes and different fails.
   */
  lemma SameDifferentNull(field: Key, other: string, data: Entries, checks: Checks)
    requires !Has(data, KeyOf(other))
    ensures BuiltinError(Same, field, Null, Str("same"), Str(other), data, checks) == None
    ensures BuiltinError(Different, field, Null, Str("different"), Str(other), data, checks)
         == Some("The " + KeyText(field) + " and " + other + " must be different.")
  {
  }

  /** filter_var gives 0 for "0", which is falsy, so the integer rule rejects zero. */
  lemma IntegerRejectsZero(field: Key, value: Value, data: Entries, checks: Checks)
    requires Present(value) && checks.filterInt(value) == Some(0)
    ensures BuiltinError(Integer, field, value, Str("integer"), Bool(true), data, checks).Some?
  {
  }

  // ---------------------------------------------------------------------
  // isValidUsername, isValidPassword, isValidPhone

  predicate UsernameChar(c: char) { IsAlnum(c) || c == '_' }

  predicate UsernameBody(s: string) { 3 <= |s| <= 20 && AllChars(s, UsernameChar) }

  /** `/^[a-zA-Z0-9_]{3,20}$/`: `$` also matches before one final newline. */
  predicate IsValidUsername(s: string)
  {
    UsernameBody(s) || (|s| > 0 && s[|s| - 1] == '\n' && UsernameBody(s[..|s| - 1]))
  }

  /** Without a newline the pattern is a length and character-class test; one trailing newline is accepted. */
  lemma UsernameSpec(s: string)
    ensures '\n' !in s ==> (IsValidUsername(s) <==> 3 <= |s| <= 20 && forall i :: 0 <= i < |s| ==> UsernameChar(s[i]))
    ensures UsernameBody(s) ==> IsValidUsername(s + "\n")
    ensures IsValidUsername(s) ==> 3 <= |s| <= 21
  {
    if '\n' !in s && |s| > 0 {
      assert s[|s| - 1] in s;
    }
    if UsernameBody(s) {
      assert (s + "\n")[..|s|] == s;
    }
  }

  predicate HasLower(p: string) { exists i :: 0 <= i < |p| && IsLower(p[i]) }
  predicate HasUpper(p: string) { exists i :: 0 <= i < |p| && IsUpper(p[i]) }
  predicate HasDigit(p: string) { exists i :: 0 <= i < |p| && IsDigit(p[i]) }
  predicate HasSymbol(p: string) { exists i :: 0 <= i < |p| && !IsAlnum(p[i]) }

  /**
   * isValidPassword as written: `$requireMixed && !lower || !upper` groups as
   * `($requireMixed && !lower) || !upper`, so the uppercase test applies
   * even when mixed case is not required.
   */
  predicate IsValidPasswordAsWritten(p: string, minLength: int, requireMixed: bool, requireNumbers: bool, requireSymbols: bool)
  {
    !(|p| < minLength)
    && !((requireMixed && !HasLower(p)) || !HasUpper(p))
    && !(requireNumbers && !HasDigit(p))
    && !(requireSymbols && !HasSymbol(p))
  }

  /** isValidPassword with the mixed-case test guarded by requireMixed as a whole. */
  predicate IsValidPassword(p: string, minLength: int, requireMixed: bool, requireNumbers: bool, requireSymbols: bool)
  {
    !(|p| < minLength)
    && !(requireMixed && (!HasLower(p) || !HasUpper(p)))
    && !(requireNumbers && !HasDigit(p))
    && !(requireSymbols && !HasSymbol(p))
  }

  /** As written, no password without an uppercase letter is accepted, whatever the flags. */
  lemma AsWrittenNeedsUpper(p: string, minLength: int, requireMixed: bool, requireNumbers: bool, requireSymbols: bool)
    requires IsValidPasswordAsWritten(p, minLength, requireMixed, requireNumbers, requireSymbols)
    ensures HasUpper(p)
  {
  }

  /** "password1" with requireMixed off: rejected as written, accepted by the corrected test. */
  lemma PasswordCounterexample()
    ensures !IsValidPasswordAsWritten("password1", 8, false, true, false)
    ensures IsValidPassword("password1", 8, false, true, false)
  {
    var p := "password1";
    assert IsDigit(p[8]);
    assert !HasUpper(p) by {
      forall i | 0 <= i < |p| ensures !IsUpper(p[i]) { }
    }
  }

  /**
   * The corrected test: each requirement that is switched on must hold, and
   * switching a requirement off never rejects a password it accepted.
   */
  lemma PasswordRequirements(p: string, minLength: int, requireMixed: bool, requireNumbers: bool, requireSymbols: bool)
    ensures IsValidPassword(p, minLength, requireMixed, requireNumbers, requireSymbols) ==>
      |p| >= minLength
      && (requireMixed ==> HasLower(p) && HasUpper(p))
      && (requireNumbers ==> HasDigit(p))
      && (requireSymbols ==> HasSymbol(p))
    ensures IsValidPassword(p, minLength, requireMixed, requireNumbers, requireSymbols) ==>
      IsValidPassword(p, minLength, false, requireNumbers, requireSymbols)
      && IsValidPassword(p, minLength, requireMixed, false, requireSymbols)
      && IsValidPassword(p, minLength, requireMixed, requireNumbers, false)
    ensures IsValidPasswordAsWritten(p, minLength, requireMixed, requireNumbers, requireSymbols) ==>
      IsValidPassword(p, minLength, requireMixed, requireNumbers, requireSymbols)
  {
  }

  predicate PhoneChar(c: char) { IsDigit(c) || c == '+' }

  /** `preg_replace('/[^0-9+]/', '', $phone)` */
  function PhoneChars(s: string): (r: string)
    ensures AllChars(r, PhoneChar) && |r| <= |s|
  {
    if s == [] then [] else (if PhoneChar(s[0]) then [s[0]] else []) + PhoneChars(s[1..])
  }

  /** `/^\+?[0-9]{10,15}$/` on text made only of digits and '+'. */
  predicate PhoneShape(t: string)
  {
    var d := if |t| > 0 && t[0] == '+' then t[1..] else t;
    10 <= |d| <= 15 && AllChars(d, IsDigit)
  }

  /** isValidPhone */
  predicate IsValidPhone(s: string) { PhoneShape(PhoneChars(s)) }

  /** The digits of a string, in order. */
  function Digits(s: string): string
  {
    if s == [] then [] else (if IsDigit(s[0]) then [s[0]] else []) + Digits(s[1..])
  }

  lemma {:induction false} PhoneCharsIdempotent(s: string)
    ensures PhoneChars(PhoneChars(s)) == PhoneChars(s)
    ensures Digits(PhoneChars(s)) == Digits(s)
  {
    if s != [] {
      PhoneCharsIdempotent(s[1..]);
      var head := if PhoneChar(s[0]) then [s[0]] else [];
      PhoneCharsConcat(head, PhoneChars(s[1..]));
      DigitsConcat(head, PhoneChars(s[1..]));
    }
  }

  lemma {:induction false} PhoneCharsConcat(a: string, b: string)
    ensures PhoneChars(a + b) == PhoneChars(a) + PhoneChars(b)
  {
    if a != [] {
      assert (a + b)[1..] == a[1..] + b;
      PhoneCharsConcat(a[1..], b);
    } else {
      assert a + b == b;
    }
  }

  lemma {:induction false} DigitsConcat(a: string, b: string)
    ensures Digits(a + b) == Digits(a) + Digits(b)
  {
    if a != [] {
      assert (a + b)[1..] == a[1..] + b;
      DigitsConcat(a[1..], b);
    } else {
      assert a + b == b;
    }
  }

  lemma {:induction false} DigitsOfDigits(s: string)
    requires AllChars(s, IsDigit)
    ensures Digits(s) == s
  {
    if s != [] {
      DigitsOfDigits(s[1..]);
    }
  }

  /**
   * Formatting characters never matter: a number is valid exactly when its
   * digits-and-plus form is, and a valid number has 10 to 15 digits.
   */
  lemma PhoneSpec(s: string)
    ensures IsValidPhone(s) <==> IsValidPhone(PhoneChars(s))
    ensures IsValidPhone(s) ==> 10 <= |Digits(s)| <= 15
  {
    PhoneCharsIdempotent(s);
    var t := PhoneChars(s);
    if IsValidPhone(s) {
      var d := if |t| > 0 && t[0] == '+' then t[1..] else t;
      DigitsOfDigits(d);
      if |t| > 0 && t[0] == '+' {
        assert t == [t[0]] + d;
        DigitsConcat([t[0]], d);
      }
    }
  }

  // ---------------------------------------------------------------------
  // sanitizeData

  /**
   * The first n entries of data as sanitizeData builds them: outside a
   * non-empty field list values are copied, strings are escaped, nested
   * arrays are sanitised with no field list, anything else is copied.
   */
  function SanitizedPrefix(data: Entries, n: nat, fields: seq<Value>, escape: string -> string): Entries
    requires n <= |data|
    decreases Arr(data), n
  {
    if n == 0 then []
    else
      var (k, v) := data[n - 1];
      var nv :=
        if |fields| > 0 && !InArrayLoose(KeyValue(k), fields) then v
        else if v.Str? then Str(escape(v.s))
        else if v.Arr? then Arr(SanitizedPrefix(v.entries, |v.entries|, [], escape))
        else v;
      Put(SanitizedPrefix(data, n - 1, fields, escape), k, nv)
  }

  function SanitizeData(data: Entries, fields: seq<Value>, escape: string -> string): Entries
  {
    SanitizedPrefix(data, |data|, fields, escape)
  }

  /** The value sanitizeData stores for one entry. */
  function SanitizedValue(k: Key, v: Value, fields: seq<Value>, escape: string -> string): Value
  {
    if |fields| > 0 && !InArrayLoose(KeyValue(k), fields) then v
    else if v.Str? then Str(escape(v.s))
    else if v.Arr? then Arr(SanitizeData(v.entries, [], escape))
    else v
  }

  /**
   * sanitizeData keeps every key in its place and stores at each the
   * sanitised value of the entry there.
   */
  lemma {:induction false} SanitizeSpec(data: Entries, n: nat, fields: seq<Value>, escape: string -> string)
    requires n <= |data| && UniqueKeys(data)
    ensures |SanitizedPrefix(data, n, fields, escape)| == n
    ensures forall i :: 0 <= i < n ==>
      SanitizedPrefix(data, n, fields, escape)[i] == (data[i].0, SanitizedValue(data[i].0, data[i].1, fields, escape))
    decreases n
  {
    if n > 0 {
      SanitizeSpec(data, n - 1, fields, escape);
      var acc := SanitizedPrefix(data, n - 1, fields, escape);
      var k := data[n - 1].0;
      forall j | 0 <= j < |acc| ensures acc[j].0 != k { assert acc[j].0 == data[j].0; }
      PosNone(acc, k);
      var r := SanitizedPrefix(data, n, fields, escape);
      assert r == acc + [(k, SanitizedValue(k, data[n - 1].1, fields, escape))];
      forall i | 0 <= i < n ensures r[i] == (data[i].0, SanitizedValue(data[i].0, data[i].1, fields, escape)) {
        if i < n - 1 {
          assert r[i] == acc[i];
        }
      }
    }
  }

  /** sanitizeData preserves the key set and order; keys outside a non-empty field list keep their value. */
  lemma SanitizeKeys(data: Entries, fields: seq<Value>, escape: string -> string)
    requires UniqueKeys(data)
    ensures KeysOf(SanitizeData(data, fields, escape)) == KeysOf(data)
    ensures forall i :: 0 <= i < |data| && |fields| > 0 && !InArrayLoose(KeyValue(data[i].0), fields) ==>
      SanitizeData(data, fields, escape)[i] == data[i]
  {
    SanitizeSpec(data, |data|, fields, escape);
  }

  /** A `['required']` rule entry. */
  const RequiredRule: Entries := [(IntKey(0), Str("required"))]

  /** A field is filled when validate's 'required' passes on it. */
  predicate Filled(data: Entries, name: string) { Present(FieldValue(data, StrKey(name))) }

  function RequiredMessage(name: string): string { "The " + name + " field is required." }

  /** With one 'required' field, validate passes exactly when the field is filled, and otherwise reports that field. */
  lemma OneRequired(data: Entries, name: string, checks: Checks)
    ensures var errs := ValidateAll(data, [(StrKey(name), RequiredRule)], [], checks);
      && (errs == [] <==> Filled(data, name))
      && (!Filled(data, name) ==> errs == [(StrKey(name), [RequiredMessage(name)])])
  {
    var rules := [(StrKey(name), RequiredRule)];
    assert rules[..0] == [];
    RequiredOnly(data, StrKey(name), [], checks);
    var k, m := StrKey(name), RequiredMessage(name);
    assert KeyText(k) == name;
    assert AddAll([], k, [m]) == AddError([], k, m) by {
      AddAllSnoc([], k, [], m);
      assert [] + [m] == [m];
    }
    assert AddError([], k, m) == [(k, [m])] by {
      assert MessagesOf([], k) == [];
      assert Put([], k, [m]) == [(k, [m])];
    }
  }

  /** With two 'required' fields, validate passes exactly when both are filled. */
  lemma TwoRequired(data: Entries, a: string, b: string, checks: Checks)
    ensures ValidateAll(data, [(StrKey(a), RequiredRule), (StrKey(b), RequiredRule)], [], checks) == []
        <==> Filled(data, a) && Filled(data, b)
  {
    var rules := [(StrKey(a), RequiredRule), (StrKey(b), RequiredRule)];
    assert rules[..1] == [(StrKey(a), RequiredRule)];
    OneRequired(data, a, checks);
    RequiredOnly(data, StrKey(b), [], checks);
    var first := ValidateAll(data, rules[..1], [], checks);
    assert ValidateAll(data, rules, [], checks) == AddAll(first, StrKey(b), EntryMessages(data, StrKey(b), RequiredRule, [], checks));
    if !Filled(data, b) {
      assert AddAll(first, StrKey(b), [RequiredMessage(b)]) == AddError(first, StrKey(b), RequiredMessage(b));
      assert |Put(first, StrKey(b), MessagesOf(first, StrKey(b)) + [RequiredMessage(b)])| > 0 by {
        GetPut(first, StrKey(b), MessagesOf(first, StrKey(b)) + [RequiredMessage(b)], StrKey(b));
      }
    }
  }
}

/** The Validator object: its error list and custom rules, updated by its methods. */
module Validator {
  import opened Text
  import opened Php
  import ValidatorSpec

  class Validator {
    var errors: ValidatorSpec.Errors
    var customRules: ValidatorSpec.CustomRules
    var customMessages: Entries

    constructor ()
      ensures errors == [] && customRules == [] && customMessages == []
    {
      errors := [];
      customRules := [];
      customMessages := [];
    }

    /** hasErrors(): `!empty($this->errors)` */
    predicate HasErrors()
      reads this
    {
      errors != []
    }

    method ResetErrors()
      modifies this
      ensures errors == [] && customRules == old(customRules) && customMessages == old(customMessages)
    {
      errors := [];
    }

    method AddError(field: Key, msg: string)
      modifies this
      ensures errors == ValidatorSpec.AddError(old(errors), field, msg)
      ensures customRules == old(customRules) && customMessages == old(customMessages)
    {
      var ms := ValidatorSpec.MessagesOf(errors, field);
      errors := Put(errors, field, ms + [msg]);
    }

    /** addRule($name, $callback) */
    method AddRule(name: string, callback: ValidatorSpec.CustomRule)
      modifies this
      ensures customRules == Put(old(customRules), KeyOf(name), callback)
      ensures errors == old(errors) && customMessages == old(customMessages)
    {
      customRules := Put(customRules, KeyOf(name), callback);
    }

    /** setMessages($messages): stored, and read by no rule. */
    method SetMessages(messages: Entries)
      modifies this
      ensures customMessages == messages && errors == old(errors) && customRules == old(customRules)
    {
      customMessages := messages;
    }

    /** applyRule: records the rule's message when it fails and says whether it passed. */
    method ApplyRule(field: Key, value: Value, rule: Value, rv: Value, data: Entries, checks: ValidatorSpec.Checks)
      returns (passed: bool)
      modifies this
      ensures var e := ValidatorSpec.RuleError(field, value, rule, rv, data, old(customRules), checks);
        && passed == e.None?
        && errors == (if e.Some? then ValidatorSpec.AddError(old(errors), field, e.value) else old(errors))
      ensures customRules == old(customRules) && customMessages == old(customMessages)
    {
      var e := ValidatorSpec.RuleError(field, value, rule, rv, data, customRules, checks);
      if e.Some? {
        AddError(field, e.value);
        return false;
      }
      return true;
    }

    /**
     * validate($data, $rules): the errors are reset, then every rule of
     * every field not skipped is applied in order; the result is whether no
     * error was recorded.
     */
    method Validate(data: Entries, rules: ValidatorSpec.Rules, checks: ValidatorSpec.Checks) returns (passed: bool)
      modifies this
      ensures errors == ValidatorSpec.ValidateAll(data, rules, customRules, checks)
      ensures passed <==> errors == []
      ensures customRules == old(customRules) && customMessages == old(customMessages)
    {
      ResetErrors();
      var i := 0;
      while i < |rules|
        invariant 0 <= i <= |rules|
        invariant errors == ValidatorSpec.ValidateAll(data, rules[..i], customRules, checks)
        invariant customRules == old(customRules) && customMessages == old(customMessages)
      {
        var (field, fieldRules) := rules[i];
        assert rules[..i + 1][..i] == rules[..i];
        if !ValidatorSpec.Skipped(data, field, fieldRules) {
          var value := ValidatorSpec.FieldValue(data, field);
          ApplyFieldRules(field, value, fieldRules, data, checks);
        }
        i := i + 1;
      }
      assert rules[..i] == rules;
      passed := !HasErrors();
    }

    /** The inner loop of validate: each rule of one field in turn. */
    method ApplyFieldRules(field: Key, value: Value, fieldRules: Entries, data: Entries, checks: ValidatorSpec.Checks)
      modifies this
      ensures errors == ValidatorSpec.AddAll(old(errors), field,
                          ValidatorSpec.FieldMessages(field, value, fieldRules, data, customRules, checks))
      ensures customRules == old(customRules) && customMessages == old(customMessages)
    {
      var j := 0;
      while j < |fieldRules|
        invariant 0 <= j <= |fieldRules|
        invariant errors == ValidatorSpec.AddAll(old(errors), field,
                              ValidatorSpec.FieldMessages(field, value, fieldRules[..j], data, customRules, checks))
        invariant customRules == old(customRules) && customMessages == old(customMessages)
      {
        var (rule, rv) := ValidatorSpec.Normalized(fieldRules[j].0, fieldRules[j].1);
        ghost var before := ValidatorSpec.FieldMessages(field, value, fieldRules[..j], data, customRules, checks);
        ValidatorSpec.FieldMessagesStep(field, value, fieldRules, j, data, customRules, checks);
        var e := ValidatorSpec.RuleError(field, value, rule, rv, data, customRules, checks);
        var _ := ApplyRule(field, value, rule, rv, data, checks);
        if e.Some? {
          ValidatorSpec.AddAllSnoc(old(errors), field, before, e.value);
        } else {
          assert before + [] == before;
        }
        j := j + 1;
      }
      assert fieldRules[..j] == fieldRules;
    }

    /** sanitizeData($data, $fields): the copy built entry by entry, nested arrays by a recursive call. */
    method SanitizeData(data: Entries, fields: seq<Value>, escape: string -> string) returns (r: Entries)
      ensures r == ValidatorSpec.SanitizeData(data, fields, escape)
      decreases Arr(data)
    {
      r := [];
      var i := 0;
      while i < |data|
        invariant 0 <= i <= |data|
        invariant r == ValidatorSpec.SanitizedPrefix(data, i, fields, escape)
      {
        var (k, v) := data[i];
        var nv := v;
        if |fields| > 0 && !InArrayLoose(KeyValue(k), fields) {
          nv := v;
        } else if v.Str? {
          nv := Str(escape(v.s));
        } else if v.Arr? {
          assert v == data[i].1;
          var inner := SanitizeData(v.entries, [], escape);
          nv := Arr(inner);
        }
        r := Put(r, k, nv);
        i := i + 1;
      }
    }
  }
}
