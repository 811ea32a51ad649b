/**
 * The JSON view (app/app/Views/JsonView.php) as values: the state its
 * setters build, the envelope render() encodes, and what send() does to the
 * wrapped Response. json_encode is the parameter `encode` (None for false),
 * json_last_error_msg the parameter `lastError`, the clock the parameter
 * `timestamp`, and `parse_url($url, PHP_URL_QUERY)` the parameter `urlQuery`.
 */
module JsonViewSpec {
  import opened Text
  import opened Php
  import ResponseSpec

  const JsonUnescapedSlashes: bv64 := 64
  const JsonPrettyPrint: bv64 := 128
  const JsonUnescapedUnicode: bv64 := 256

  datatype ViewState = ViewState(
    prettyPrint: bool, encodingOptions: bv64, data: Value, meta: Entries, links: Entries,
    errors: Entries, message: Value, statusCode: int, isError: bool)

  /** The constructor: unescaped slashes and Unicode, plus pretty printing when asked for. */
  function Initial(prettyPrint: bool): ViewState
  {
    var options := JsonUnescapedSlashes | JsonUnescapedUnicode;
    ViewState(prettyPrint, if prettyPrint then options | JsonPrettyPrint else options,
              Arr([]), [], [], [], Str(""), 200, false)
  }

  // ---------------------------------------------------------------------
  // Encoding options

  /** The options with the pretty-print bit set (`|=`) or cleared (`&= ~`). */
  function PrettyBit(options: bv64, on: bool): bv64
  {
    if on then options | JsonPrettyPrint else options & !JsonPrettyPrint
  }

  /** setPrettyPrint($prettyPrint) */
  function SetPrettyPrint(v: ViewState, prettyPrint: Value): ViewState
  {
    var p := Truthy(prettyPrint);
    v.(prettyPrint := p, encodingOptions := PrettyBit(v.encodingOptions, p))
  }

  /** setEncodingOptions($options) */
  function SetEncodingOptions(v: ViewState, options: bv64): ViewState
  {
    v.(encodingOptions := if v.prettyPrint then options | JsonPrettyPrint else options)
  }

  /** Setting the pretty-print bit leaves the others alone. */
  lemma SetBit(x: bv64)
    ensures (x | JsonPrettyPrint) & !JsonPrettyPrint == x & !JsonPrettyPrint
    ensures (x | JsonPrettyPrint) & JsonPrettyPrint != 0
  {
  }

  /** Clearing the pretty-print bit leaves the others alone. */
  lemma ClearBit(x: bv64)
    ensures (x & !JsonPrettyPrint) & !JsonPrettyPrint == x & !JsonPrettyPrint
    ensures (x & !JsonPrettyPrint) & JsonPrettyPrint == 0
  {
  }

  /** The constructor's options: both flags always, the pretty-print bit exactly when asked for. */
  lemma InitialOptions(prettyPrint: bool)
    ensures Initial(prettyPrint).encodingOptions & JsonUnescapedSlashes != 0
    ensures Initial(prettyPrint).encodingOptions & JsonUnescapedUnicode != 0
    ensures (Initial(prettyPrint).encodingOptions & JsonPrettyPrint != 0) <==> prettyPrint
  {
    var options: bv64 := JsonUnescapedSlashes | JsonUnescapedUnicode;
    assert options == 320;
    if prettyPrint {
      assert options | JsonPrettyPrint == 448;
    }
  }

  /** setPrettyPrint sets or clears the pretty-print bit and leaves every other bit as it was. */
  lemma PrettyPrintBit(v: ViewState, prettyPrint: Value)
    ensures var o := SetPrettyPrint(v, prettyPrint).encodingOptions;
      && ((o & JsonPrettyPrint != 0) <==> Truthy(prettyPrint))
      && o & !JsonPrettyPrint == v.encodingOptions & !JsonPrettyPrint
    ensures SetPrettyPrint(v, prettyPrint).prettyPrint == Truthy(prettyPrint)
  {
    if Truthy(prettyPrint) { SetBit(v.encodingOptions); } else { ClearBit(v.encodingOptions); }
  }

  /** setEncodingOptions keeps the given bits and adds the pretty-print bit back while pretty printing is on. */
  lemma EncodingOptionsBits(v: ViewState, options: bv64)
    ensures var o := SetEncodingOptions(v, options).encodingOptions;
      && o & !JsonPrettyPrint == options & !JsonPrettyPrint
      && ((o & JsonPrettyPrint != 0) <==> v.prettyPrint || options & JsonPrettyPrint != 0)
  {
    if v.prettyPrint { SetBit(options); }
  }

  // ---------------------------------------------------------------------
  // Data, meta, links

  function SetData(v: ViewState, data: Value): ViewState { v.(data := data) }

  /** addData($key, $value): into the data array, or a new one-entry array when data is not an array. */
  function AddData(v: ViewState, key: string, value: Value): ViewState
  {
    v.(data := if v.data.Arr? then Arr(Put(v.data.entries, KeyOf(key), value)) else Arr([(KeyOf(key), value)]))
  }

  function SetMeta(v: ViewState, meta: Entries): ViewState { v.(meta := meta) }
  function AddMeta(v: ViewState, key: string, value: Value): ViewState { v.(meta := Put(v.meta, KeyOf(key), value)) }
  function SetLinks(v: ViewState, links: Entries): ViewState { v.(links := links) }
  function AddLink(v: ViewState, key: string, url: Value): ViewState { v.(links := Put(v.links, KeyOf(key), url)) }

  /** addData stores the value under its key and keeps the other entries of an array; a scalar is replaced. */
  lemma AddDataSpec(v: ViewState, key: string, value: Value, other: Key)
    ensures var d := AddData(v, key, value).data;
      && d.Arr? && Get(d.entries, KeyOf(key)) == Some(value)
      && (other != KeyOf(key) ==> Get(d.entries, other) == if v.data.Arr? then Get(v.data.entries, other) else None)
  {
    if v.data.Arr? {
      GetPut(v.data.entries, KeyOf(key), value, KeyOf(key));
      GetPut(v.data.entries, KeyOf(key), value, other);
    }
  }

  /** A page figure, `$pagination[$name] ?? $default`, as it is given. */
  function PageFigure(pagination: Entries, name: string, default: int): Value
  {
    Lookup(pagination, name, Int(default))
  }

  /**
   * The number a page figure compares and counts as: an integer, or a string
   * holding one, which PHP compares and adds to by its value. None for the
   * other values (booleans, arrays, other strings).
   */
  function PageValue(v: Value): Option<int>
  {
    match v
    case Int(n) => Some(n)
    case Str(t) => IntegerString(t)
    case _ => None
  }

  /** Both page figures are numbers the model computes with. */
  predicate PageFigures(pagination: Entries)
  {
    PageValue(PageFigure(pagination, "current_page", 1)).Some? && PageValue(PageFigure(pagination, "last_page", 1)).Some?
  }

  function PageOf(pagination: Entries, name: string, default: int): int
    requires PageValue(PageFigure(pagination, name, default)).Some?
  {
    PageValue(PageFigure(pagination, name, default)).value
  }


  /** One link of setPaginationLinks. */
  function PageLink(base: string, queryChar: string, page: string, perPage: string): string
  {
    base + queryChar + "page=" + page + "&per_page=" + perPage
  }

  /** One named link entry. */
  function Link(name: string, base: string, queryChar: string, page: string, perPage: string): (Key, Value)
  {
    (StrKey(name), Str(PageLink(base, queryChar, page, perPage)))
  }

  /** The four links for given figures: first, prev, next, last, in that order. */
  function LinkList(base: string, q: string, current: int, last: int, lastText: string, per: string): Entries
  {
    [Link("first", base, q, "1", per)]
    + (if current > 1 then [Link("prev", base, q, IntToString(current - 1), per)] else [])
    + (if current < last then [Link("next", base, q, IntToString(current + 1), per)] else [])
    + [Link("last", base, q, lastText, per)]
  }

  /** The links setPaginationLinks builds, before they are merged. */
  function PaginationLinks(baseUrl: string, pagination: Entries, urlQuery: string -> Value): Entries
    requires PageFigures(pagination)
  {
    var base := RTrim(baseUrl, {'?', '&'});
    var q := if Truthy(urlQuery(base)) then "&" else "?";
    LinkList(base, q, PageOf(pagination, "current_page", 1), PageOf(pagination, "last_page", 1),
             ToStr(PageFigure(pagination, "last_page", 1)), ToStr(Lookup(pagination, "per_page", Int(15))))
  }

  /** The 'pagination' meta entry: the figures as they are given. */
  function PaginationMeta(pagination: Entries): Value
  {
    Arr([(StrKey("total"), Lookup(pagination, "total", Int(0))),
         (StrKey("count"), Lookup(pagination, "count", Int(0))),
         (StrKey("per_page"), Lookup(pagination, "per_page", Int(15))),
         (StrKey("current_page"), PageFigure(pagination, "current_page", 1)),
         (StrKey("total_pages"), PageFigure(pagination, "last_page", 1))])
  }

  /**
   * setPaginationLinks($baseUrl, $pagination): the links merged over the
   * existing ones, and the meta entry. None when a page figure is not a
   * number the model computes with.
   */
  function SetPaginationLinks(v: ViewState, baseUrl: string, pagination: Entries, urlQuery: string -> Value): Option<ViewState>
  {
    if PageFigures(pagination) then
      Some(AddMeta(v.(links := MergeAll(v.links + PaginationLinks(baseUrl, pagination, urlQuery))),
                   "pagination", PaginationMeta(pagination)))
    else None
  }

  /** The value a link list gives a string key. */
  function LinkOf(links: Entries, name: string): Option<Value> { Get(links, StrKey(name)) }

  /** array_merge over a list with distinct keys: a string key takes the added value when there is one. */
  lemma MergeOver(existing: Entries, added: Entries, s: string)
    requires UniqueKeys(existing)
    ensures Get(MergeAll(existing + added), StrKey(s))
         == if LastGet(added, StrKey(s)).Some? then LastGet(added, StrKey(s)) else Get(existing, StrKey(s))
  {
    MergeAllStrKey(existing + added, s);
    LastGetAppend(existing, added, StrKey(s));
    LastGetIsGet(existing, StrKey(s));
  }

  /** The last value of a key in a list of at most one entry. */
  lemma LastGetOptional(xs: Entries, k: Key)
    requires |xs| <= 1
    ensures LastGet(xs, k) == if |xs| == 1 && xs[0].0 == k then Some(xs[0].1) else None
  {
    if |xs| == 1 {
      assert xs[..0] == [];
    }
  }

  /** Which link of the four setPaginationLinks builds a key gets. */
  lemma AddedLinks(baseUrl: string, pagination: Entries, urlQuery: string -> Value, s: string)
    requires PageFigures(pagination)
    ensures var base := RTrim(baseUrl, {'?', '&'});
      var q := if Truthy(urlQuery(base)) then "&" else "?";
      var current := PageOf(pagination, "current_page", 1);
      var last := PageOf(pagination, "last_page", 1);
      var per := ToStr(Lookup(pagination, "per_page", Int(15)));
      var lastText := ToStr(PageFigure(pagination, "last_page", 1));
      LastGet(PaginationLinks(baseUrl, pagination, urlQuery), StrKey(s))
      == if s == "last" then Some(Str(PageLink(base, q, lastText, per)))
         else if s == "next" && current < last then Some(Str(PageLink(base, q, IntToString(current + 1), per)))
         else if s == "prev" && current > 1 then Some(Str(PageLink(base, q, IntToString(current - 1), per)))
         else if s == "first" then Some(Str(PageLink(base, q, "1", per)))
         else None
  {
    var base := RTrim(baseUrl, {'?', '&'});
    var q := if Truthy(urlQuery(base)) then "&" else "?";
    var current := PageOf(pagination, "current_page", 1);
    var last := PageOf(pagination, "last_page", 1);
    var per := ToStr(Lookup(pagination, "per_page", Int(15)));
    var first := [Link("first", base, q, "1", per)];
    var prev := if current > 1 then [Link("prev", base, q, IntToString(current - 1), per)] else [];
    var next := if current < last then [Link("next", base, q, IntToString(current + 1), per)] else [];
    var lastLink := [Link("last", base, q, ToStr(PageFigure(pagination, "last_page", 1)), per)];
    var k := StrKey(s);
    assert PaginationLinks(baseUrl, pagination, urlQuery) == first + prev + next + lastLink;
    LastGetAppend(first + prev + next, lastLink, k);
    LastGetAppend(first + prev, next, k);
    LastGetAppend(first, prev, k);
    LastGetOptional(first, k);
    LastGetOptional(prev, k);
    LastGetOptional(next, k);
    LastGetOptional(lastLink, k);
  }

  /**
   * first and last are always set; prev exactly when the current page is
   * past the first and next exactly when it is before the last; an existing
   * link the new ones do not replace (a stale prev or next included) stays.
   * The last link carries the last page as given, an integer string as it
   * is written.
   */
  lemma PaginationLinksSpec(v: ViewState, baseUrl: string, pagination: Entries, urlQuery: string -> Value, other: string)
    requires PageFigures(pagination)
    requires UniqueKeys(v.links)
    ensures SetPaginationLinks(v, baseUrl, pagination, urlQuery).Some?
    ensures var links := SetPaginationLinks(v, baseUrl, pagination, urlQuery).value.links;
      var base := RTrim(baseUrl, {'?', '&'});
      var q := if Truthy(urlQuery(base)) then "&" else "?";
      var current := PageOf(pagination, "current_page", 1);
      var last := PageOf(pagination, "last_page", 1);
      var per := ToStr(Lookup(pagination, "per_page", Int(15)));
      && LinkOf(links, "first") == Some(Str(PageLink(base, q, "1", per)))
      && LinkOf(links, "last") == Some(Str(PageLink(base, q, ToStr(PageFigure(pagination, "last_page", 1)), per)))
      && LinkOf(links, "prev") == (if current > 1 then Some(Str(PageLink(base, q, IntToString(current - 1), per)))
                                   else LinkOf(v.links, "prev"))
      && LinkOf(links, "next") == (if current < last then Some(Str(PageLink(base, q, IntToString(current + 1), per)))
                                   else LinkOf(v.links, "next"))
      && (other !in ["first", "prev", "next", "last"] ==> LinkOf(links, other) == LinkOf(v.links, other))
  {
    var added := PaginationLinks(baseUrl, pagination, urlQuery);
    assert SetPaginationLinks(v, baseUrl, pagination, urlQuery).value.links == MergeAll(v.links + added);
    MergeOver(v.links, added, "first");
    MergeOver(v.links, added, "last");
    MergeOver(v.links, added, "prev");
    MergeOver(v.links, added, "next");
    MergeOver(v.links, added, other);
    AddedLinks(baseUrl, pagination, urlQuery, "first");
    AddedLinks(baseUrl, pagination, urlQuery, "last");
    AddedLinks(baseUrl, pagination, urlQuery, "prev");
    AddedLinks(baseUrl, pagination, urlQuery, "next");
    AddedLinks(baseUrl, pagination, urlQuery, other);
  }

  /**
   * setPaginationLinks succeeds exactly when both page figures are numbers
   * the model computes with, and then stores the figures under 'pagination'
   * in the meta.
   */
  lemma PaginationMetaSpec(v: ViewState, baseUrl: string, pagination: Entries, urlQuery: string -> Value)
    ensures SetPaginationLinks(v, baseUrl, pagination, urlQuery).Some? <==> PageFigures(pagination)
    ensures PageFigures(pagination)
        ==> Get(SetPaginationLinks(v, baseUrl, pagination, urlQuery).value.meta, StrKey("pagination")) == Some(PaginationMeta(pagination))
  {
    assert KeyOf("pagination") == StrKey("pagination");
    GetPut(v.meta, StrKey("pagination"), PaginationMeta(pagination), StrKey("pagination"));
  }

  /**
   * A current page given as an integer string builds the same links as the
   * integer it holds.
   */
  lemma IntegerStringCurrentPage(baseUrl: string, pagination: Entries, urlQuery: string -> Value, t: string)
    requires PageFigures(pagination) && IntegerString(t).Some?
    ensures var asText := Put(pagination, KeyOf("current_page"), Str(t));
      var asInt := Put(pagination, KeyOf("current_page"), Int(IntegerString(t).value));
      && PageFigures(asText) && PageFigures(asInt)
      && PaginationLinks(baseUrl, asText, urlQuery) == PaginationLinks(baseUrl, asInt, urlQuery)
  {
    var n := IntegerString(t).value;
    var asText := Put(pagination, KeyOf("current_page"), Str(t));
    var asInt := Put(pagination, KeyOf("current_page"), Int(n));
    PutCurrentPage(pagination, Str(t));
    PutCurrentPage(pagination, Int(n));
    assert PageOf(asText, "current_page", 1) == n == PageOf(asInt, "current_page", 1);
  }

  /** Setting the current page leaves the other figures as they were. */
  lemma PutCurrentPage(pagination: Entries, v: Value)
    requires v != Null
    ensures var m := Put(pagination, KeyOf("current_page"), v);
      && PageFigure(m, "current_page", 1) == v
      && PageFigure(m, "last_page", 1) == PageFigure(pagination, "last_page", 1)
      && Lookup(m, "per_page", Int(15)) == Lookup(pagination, "per_page", Int(15))
  {
    assert KeyOf("current_page") == StrKey("current_page");
    assert KeyOf("last_page") == StrKey("last_page");
    assert KeyOf("per_page") == StrKey("per_page");
    GetPut(pagination, StrKey("current_page"), v, StrKey("current_page"));
    GetPut(pagination, StrKey("current_page"), v, StrKey("last_page"));
    GetPut(pagination, StrKey("current_page"), v, StrKey("per_page"));
  }

  /** The figures default to total 0, 15 per page, page 1 of 1. */
  lemma PaginationDefaults(pagination: Entries)
    ensures !Isset(pagination, KeyOf("total")) ==> At(PaginationMeta(pagination), StrKey("total")) == Int(0)
    ensures !Isset(pagination, KeyOf("per_page")) ==> At(PaginationMeta(pagination), StrKey("per_page")) == Int(15)
    ensures !Isset(pagination, KeyOf("current_page")) ==> At(PaginationMeta(pagination), StrKey("current_page")) == Int(1)
    ensures !Isset(pagination, KeyOf("last_page")) ==> At(PaginationMeta(pagination), StrKey("total_pages")) == Int(1)
  {
    var m := PaginationMeta(pagination).entries;
    PosUpTo(m, StrKey("total"), 0);
    PosUpTo(m, StrKey("per_page"), 2);
    PosUpTo(m, StrKey("current_page"), 3);
    PosUpTo(m, StrKey("total_pages"), 4);
  }

  // ---------------------------------------------------------------------
  // Errors and outcomes

  /** setErrors($errors) */
  function SetErrors(v: ViewState, errors: Entries): ViewState
  {
    v.(errors := errors, isError := errors != [])
  }

  /**
   * The messages addError leaves under a field that held existing (an empty
   * list when unset): an array of messages is merged onto them and any other
   * message appended. None when PHP raises an error: merging onto a value
   * that is not an array, or appending to a string, a number or true.
   */
  function Updated(existing: Value, message: Value): Option<Value>
  {
    if message.Arr? then
      (if existing.Arr? then Some(Arr(MergeAll(existing.entries + message.entries))) else None)
    else match existing
      case Arr(es) => Some(Arr(Append(es, message)))
      case Bool(false) => Some(Arr([(IntKey(0), message)]))
      case _ => None
  }

  /** addError($field, $message) */
  function AddError(v: ViewState, field: string, message: Value): Option<ViewState>
  {
    var k := KeyOf(field);
    var existing := if Isset(v.errors, k) then Get(v.errors, k).value else Arr([]);
    match Updated(existing, message)
    case None => None
    case Some(u) => Some(v.(errors := Put(v.errors, k, u), isError := true))
  }

  /** setErrors makes the view an error exactly when there are errors. */
  lemma SetErrorsSpec(v: ViewState, errors: Entries)
    ensures SetErrors(v, errors).isError <==> |errors| > 0
    ensures SetErrors(v, errors).errors == errors && SetErrors(v, errors).data == v.data
  {
  }

  /**
   * addError on an unset field stores the one message (or the renumbered
   * list of messages); on a field holding a list it appends after the
   * existing ones. It always marks the view as an error and leaves other
   * fields' errors alone.
   */
  lemma AddErrorSpec(v: ViewState, field: string, message: Value, other: Key)
    ensures AddError(v, field, message).Some? ==>
      var w := AddError(v, field, message).value;
      && w.isError
      && (other != KeyOf(field) ==> Get(w.errors, other) == Get(v.errors, other))
      && w.data == v.data && w.message == v.message && w.statusCode == v.statusCode
    ensures !Isset(v.errors, KeyOf(field)) && !message.Arr? ==>
      AddError(v, field, message) == Some(v.(errors := Put(v.errors, KeyOf(field), Arr([(IntKey(0), message)])), isError := true))
    ensures !Isset(v.errors, KeyOf(field)) && message.Arr? ==>
      AddError(v, field, message) == Some(v.(errors := Put(v.errors, KeyOf(field), Arr(MergeAll(message.entries))), isError := true))
    ensures Isset(v.errors, KeyOf(field)) && Get(v.errors, KeyOf(field)).value.Arr? && !message.Arr? ==>
      var es := Get(v.errors, KeyOf(field)).value.entries;
      AddError(v, field, message) == Some(v.(errors := Put(v.errors, KeyOf(field), Arr(es + [(IntKey(NextIndex(es)), message)])), isError := true))
    ensures Isset(v.errors, KeyOf(field)) && Get(v.errors, KeyOf(field)).value.Str? ==> AddError(v, field, message).None?
  {
    var k := KeyOf(field);
    var existing := if Isset(v.errors, k) then Get(v.errors, k).value else Arr([]);
    match Updated(existing, message)
    case None =>
    case Some(u) =>
      GetPut(v.errors, k, u, other);
    if !Isset(v.errors, k) {
      var none: Entries := [];
      if message.Arr? {
        assert none + message.entries == message.entries;
      }
      assert NextIndex(none) == 0;
      assert Append(none, message) == [(IntKey(0), message)];
    }
  }

  /** success($data, $message, $statusCode) */
  function Success(v: ViewState, data: Value, message: Value, statusCode: int): ViewState
  {
    v.(data := data, message := message, statusCode := statusCode, isError := false, errors := [])
  }

  /** error($message, $statusCode, $errors) */
  function Error(v: ViewState, message: Value, statusCode: int, errors: Entries): ViewState
  {
    v.(message := message, statusCode := statusCode, isError := true, errors := errors, data := Null)
  }

  function ValidationError(v: ViewState, errors: Entries, message: Value): ViewState { Error(v, message, 422, errors) }
  function NotFound(v: ViewState, message: Value): ViewState { Error(v, message, 404, []) }
  function Unauthorized(v: ViewState, message: Value): ViewState { Error(v, message, 401, []) }
  function Forbidden(v: ViewState, message: Value): ViewState { Error(v, message, 403, []) }
  function ServerError(v: ViewState, message: Value): ViewState { Error(v, message, 500, []) }

  function SetMessage(v: ViewState, message: Value): ViewState { v.(message := message) }
  function SetStatusCode(v: ViewState, code: int): ViewState { v.(statusCode := code) }
  function SetIsError(v: ViewState, isError: Value): ViewState { v.(isError := Truthy(isError)) }

  /**
   * success clears the errors and the error flag; every error outcome sets
   * the flag, replaces the errors and drops the data, so a rendered error
   * never carries data. Meta, links and options are untouched.
   */
  lemma OutcomesSpec(v: ViewState, data: Value, message: Value, code: int, errors: Entries)
    ensures var s := Success(v, data, message, code);
      !s.isError && s.errors == [] && s.data == data && s.statusCode == code
      && s.meta == v.meta && s.links == v.links && s.encodingOptions == v.encodingOptions
    ensures var e := Error(v, message, code, errors);
      e.isError && e.errors == errors && e.data == Null && e.statusCode == code
      && e.meta == v.meta && e.links == v.links && e.encodingOptions == v.encodingOptions
    ensures ValidationError(v, errors, message).statusCode == 422 && NotFound(v, message).statusCode == 404
    ensures Unauthorized(v, message).statusCode == 401 && Forbidden(v, message).statusCode == 403
    ensures ServerError(v, message).statusCode == 500
    ensures !Has(Envelope(Error(v, message, code, errors), ""), StrKey("data"))
  {
    EnvelopeMessageData(Error(v, message, code, errors), "");
  }

  // ---------------------------------------------------------------------
  // render and send

  /** `$r[$key] = $value` when cond holds. */
  function PutIf(r: Entries, cond: bool, key: string, value: Value): Entries
  {
    if cond then Put(r, StrKey(key), value) else r
  }

  /** The array render() encodes, the clock reading being timestamp. */
  function Envelope(v: ViewState, timestamp: string): Entries
  {
    var r := Put([], StrKey("success"), Bool(!v.isError));
    var r := PutIf(r, !IsEmpty(v.message), "message", v.message);
    var r := PutIf(r, !v.isError && v.data != Null, "data", v.data);
    var r := PutIf(r, v.errors != [], "errors", Arr(v.errors));
    var r := PutIf(r, v.meta != [], "meta", Arr(v.meta));
    var r := PutIf(r, v.links != [], "links", Arr(v.links));
    Put(r, StrKey("timestamp"), Str(timestamp))
  }

  /** Whether a key is one of the envelope's. */
  predicate EnvelopeKey(k: Key)
  {
    k in [StrKey("success"), StrKey("message"), StrKey("data"), StrKey("errors"), StrKey("meta"), StrKey("links"), StrKey("timestamp")]
  }

  /** What the envelope holds under a key, assignment by assignment. */
  function EnvelopeField(v: ViewState, timestamp: string, k: Key): Option<Value>
  {
    if k == StrKey("timestamp") then Some(Str(timestamp))
    else if k == StrKey("links") && v.links != [] then Some(Arr(v.links))
    else if k == StrKey("meta") && v.meta != [] then Some(Arr(v.meta))
    else if k == StrKey("errors") && v.errors != [] then Some(Arr(v.errors))
    else if k == StrKey("data") && !v.isError && v.data != Null then Some(v.data)
    else if k == StrKey("message") && !IsEmpty(v.message) then Some(v.message)
    else if k == StrKey("success") then Some(Bool(!v.isError))
    else None
  }

  /** One conditional assignment: the key gets the value when cond holds, and nothing else changes. */
  lemma PutIfGet(r: Entries, cond: bool, key: string, value: Value, k: Key)
    ensures Get(PutIf(r, cond, key, value), k) == if cond && k == StrKey(key) then Some(value) else Get(r, k)
  {
    if cond { GetPut(r, StrKey(key), value, k); }
  }

  lemma EnvelopeGet(v: ViewState, timestamp: string, k: Key)
    ensures Get(Envelope(v, timestamp), k) == EnvelopeField(v, timestamp, k)
  {
    var r0: Entries := Put([], StrKey("success"), Bool(!v.isError));
    var r1 := PutIf(r0, !IsEmpty(v.message), "message", v.message);
    var r2 := PutIf(r1, !v.isError && v.data != Null, "data", v.data);
    var r3 := PutIf(r2, v.errors != [], "errors", Arr(v.errors));
    var r4 := PutIf(r3, v.meta != [], "meta", Arr(v.meta));
    var r5 := PutIf(r4, v.links != [], "links", Arr(v.links));
    assert Envelope(v, timestamp) == Put(r5, StrKey("timestamp"), Str(timestamp));
    GetPut([], StrKey("success"), Bool(!v.isError), k);
    PutIfGet(r0, !IsEmpty(v.message), "message", v.message, k);
    PutIfGet(r1, !v.isError && v.data != Null, "data", v.data, k);
    PutIfGet(r2, v.errors != [], "errors", Arr(v.errors), k);
    PutIfGet(r3, v.meta != [], "meta", Arr(v.meta), k);
    PutIfGet(r4, v.links != [], "links", Arr(v.links), k);
    GetPut(r5, StrKey("timestamp"), Str(timestamp), k);
  }

  /** The envelope always has success = !isError and the timestamp. */
  lemma EnvelopeAlways(v: ViewState, timestamp: string)
    ensures var e := Envelope(v, timestamp);
      && Get(e, StrKey("success")) == Some(Bool(!v.isError))
      && Get(e, StrKey("timestamp")) == Some(Str(timestamp))
  {
    EnvelopeAt(v, timestamp, "success");
    EnvelopeAt(v, timestamp, "timestamp");
  }

  /** The envelope has the message iff it is non-empty, and the data iff the view is not an error and the data is not null. */
  lemma EnvelopeMessageData(v: ViewState, timestamp: string)
    ensures var e := Envelope(v, timestamp);
      && Get(e, StrKey("message")) == (if !IsEmpty(v.message) then Some(v.message) else None)
      && Get(e, StrKey("data")) == (if !v.isError && v.data != Null then Some(v.data) else None)
  {
    EnvelopeAt(v, timestamp, "message");
    EnvelopeAt(v, timestamp, "data");
  }

  /** The envelope has errors, meta and links each exactly when they are non-empty. */
  lemma EnvelopeExtras(v: ViewState, timestamp: string)
    ensures var e := Envelope(v, timestamp);
      && Get(e, StrKey("errors")) == (if v.errors != [] then Some(Arr(v.errors)) else None)
      && Get(e, StrKey("meta")) == (if v.meta != [] then Some(Arr(v.meta)) else None)
      && Get(e, StrKey("links")) == (if v.links != [] then Some(Arr(v.links)) else None)
  {
    EnvelopeAt(v, timestamp, "errors");
    EnvelopeAt(v, timestamp, "meta");
    EnvelopeAt(v, timestamp, "links");
  }

  /** EnvelopeGet at one named key. */
  lemma EnvelopeAt(v: ViewState, timestamp: string, name: string)
    ensures Get(Envelope(v, timestamp), StrKey(name)) == EnvelopeField(v, timestamp, StrKey(name))
  {
    EnvelopeGet(v, timestamp, StrKey(name));
  }

  /** The envelope has no key besides its seven. */
  lemma EnvelopeOnlyKeys(v: ViewState, timestamp: string, k: Key)
    requires !EnvelopeKey(k)
    ensures Get(Envelope(v, timestamp), k) == None
  {
    EnvelopeGet(v, timestamp, k);
  }

  /**
   * render(): the encoded envelope; when encoding fails, the encoded error
   * envelope (false when that fails too) and status 500 on the view.
   */
  function Render(v: ViewState, timestamp: string, encode: (Value, bv64) -> Option<string>, lastError: string): (ViewState, Value)
  {
    match encode(Arr(Envelope(v, timestamp)), v.encodingOptions)
    case Some(json) => (v, Str(json))
    case None =>
      (v.(statusCode := 500), match encode(Fallback(timestamp, lastError), v.encodingOptions) case Some(json) => Str(json) case None => Bool(false))
  }

  /** The error envelope render() encodes when the view's own envelope does not encode. */
  function Fallback(timestamp: string, lastError: string): Value
  {
    Arr([(StrKey("success"), Bool(false)),
         (StrKey("message"), Str("JSON encoding error: " + lastError)),
         (StrKey("timestamp"), Str(timestamp))])
  }

  /**
   * send(): the Content-Type header, the view's status code and the
   * rendered content on the response. The status code is taken before
   * rendering, so the 500 of a failed encoding stays on the view.
   */
  function Send(v: ViewState, r: ResponseSpec.RespState, timestamp: string,
                encode: (Value, bv64) -> Option<string>, lastError: string): (ViewState, ResponseSpec.RespState)
  {
    var r := ResponseSpec.SetHeader(r, "Content-Type", Str("application/json; charset=utf-8"), true);
    var r := ResponseSpec.SetStatusCode(r, v.statusCode);
    var (w, json) := Render(v, timestamp, encode, lastError);
    (w, ResponseSpec.SetContent(r, json))
  }

  /**
   * render() changes nothing when the envelope encodes; otherwise the view
   * turns into a 500 and the output is the encoded fallback, an error
   * envelope naming the encoder's message.
   */
  lemma RenderSpec(v: ViewState, timestamp: string, encode: (Value, bv64) -> Option<string>, lastError: string)
    ensures encode(Arr(Envelope(v, timestamp)), v.encodingOptions).Some? ==>
      Render(v, timestamp, encode, lastError) == (v, Str(encode(Arr(Envelope(v, timestamp)), v.encodingOptions).value))
    ensures encode(Arr(Envelope(v, timestamp)), v.encodingOptions).None? ==>
      var (w, out) := Render(v, timestamp, encode, lastError);
      && w == v.(statusCode := 500)
      && (out.Str? ==> (exists fallback ::
            && encode(fallback, v.encodingOptions) == Some(out.s)
            && At(fallback, StrKey("success")) == Bool(false)
            && At(fallback, StrKey("message")) == Str("JSON encoding error: " + lastError)))
  {
    if encode(Arr(Envelope(v, timestamp)), v.encodingOptions).None? {
      var fallback := Fallback(timestamp, lastError);
      PosUpTo(fallback.entries, StrKey("success"), 0);
      PosUpTo(fallback.entries, StrKey("message"), 1);
    }
  }

  /**
   * send() sets Content-Type to JSON in UTF-8, the status the view had
   * before rendering, and the rendered output as content; nothing else on
   * the response changes. When encoding fails the view's 500 is therefore
   * not on the response.
   */
  lemma SendSpec(v: ViewState, r: ResponseSpec.RespState, timestamp: string,
                 encode: (Value, bv64) -> Option<string>, lastError: string)
    ensures var (w, r') := Send(v, r, timestamp, encode, lastError);
      && r'.statusCode == v.statusCode
      && Get(r'.headers, "Content-Type") == Some(Str("application/json; charset=utf-8"))
      && (forall n :: n != "Content-Type" ==> Get(r'.headers, n) == Get(r.headers, n))
      && r'.content == Render(v, timestamp, encode, lastError).1
      && w == Render(v, timestamp, encode, lastError).0
      && r'.contentType == r.contentType && r'.charset == r.charset && r'.data == r.data
  {
    forall n ensures Get(Put(r.headers, "Content-Type", Str("application/json; charset=utf-8")), n)
                  == if n == "Content-Type" then Some(Str("application/json; charset=utf-8")) else Get(r.headers, n) {
      GetPut(r.headers, "Content-Type", Str("application/json; charset=utf-8"), n);
    }
  }

  /** responseWithPagination's state change on the view: data, status, then the pagination links. */
  function WithPagination(v: ViewState, data: Entries, pagination: Entries, baseUrl: string, statusCode: int,
                          urlQuery: string -> Value): Option<ViewState>
  {
    SetPaginationLinks(v.(data := Arr(data), statusCode := statusCode), baseUrl, pagination, urlQuery)
  }

  /** array_map($transformer, $data) over one array: the keys kept, each value transformed. */
  function MapValues(data: Entries, transformer: Value -> Value): (r: Entries)
    ensures |r| == |data|
    ensures forall i :: 0 <= i < |data| ==> r[i] == (data[i].0, transformer(data[i].1))
  {
    seq(|data|, i requires 0 <= i < |data| => (data[i].0, transformer(data[i].1)))
  }
}

/** The JsonView object: its fields, each setter proved to make the transition JsonViewSpec defines. */
module JsonView {
  import opened Text
  import opened Php
  import ResponseSpec
  import Response
  import opened JsonViewSpec

  class JsonView {
    var prettyPrint: bool
    var encodingOptions: bv64
    var data: Value
    var meta: Entries
    var links: Entries
    var errors: Entries
    var message: Value
    var statusCode: int
    var isError: bool
    /** The Response send() writes to. */
    const response: Response.Response

    function State(): ViewState
      reads this
    {
      ViewState(prettyPrint, encodingOptions, data, meta, links, errors, message, statusCode, isError)
    }

    constructor (response: Response.Response, prettyPrint: bool)
      ensures State() == Initial(prettyPrint) && this.response == response
    {
      this.response := response;
      this.prettyPrint := prettyPrint;
      var options := JsonUnescapedSlashes | JsonUnescapedUnicode;
      if prettyPrint {
        options := options | JsonPrettyPrint;
      }
      encodingOptions := options;
      data := Arr([]);
      meta := [];
      links := [];
      errors := [];
      message := Str("");
      statusCode := 200;
      isError := false;
    }

    method SetPrettyPrint(p: Value)
      modifies this
      ensures State() == JsonViewSpec.SetPrettyPrint(old(State()), p)
    {
      prettyPrint := Truthy(p);
      encodingOptions := PrettyBit(encodingOptions, prettyPrint);
    }

    method SetEncodingOptions(options: bv64)
      modifies this
      ensures State() == JsonViewSpec.SetEncodingOptions(old(State()), options)
    {
      encodingOptions := options;
      if prettyPrint {
        encodingOptions := encodingOptions | JsonPrettyPrint;
      }
    }

    method SetData(d: Value)
      modifies this
      ensures State() == JsonViewSpec.SetData(old(State()), d)
    {
      data := d;
    }

    method AddData(key: string, value: Value)
      modifies this
      ensures State() == JsonViewSpec.AddData(old(State()), key, value)
    {
      if data.Arr? {
        data := Arr(Put(data.entries, KeyOf(key), value));
      } else {
        data := Arr([(KeyOf(key), value)]);
      }
    }

    method SetMeta(m: Entries)
      modifies this
      ensures State() == JsonViewSpec.SetMeta(old(State()), m)
    {
      meta := m;
    }

    method AddMeta(key: string, value: Value)
      modifies this
      ensures State() == JsonViewSpec.AddMeta(old(State()), key, value)
    {
      meta := Put(meta, KeyOf(key), value);
    }

    method SetLinks(l: Entries)
      modifies this
      ensures State() == JsonViewSpec.SetLinks(old(State()), l)
    {
      links := l;
    }

    method AddLink(key: string, url: Value)
      modifies this
      ensures State() == JsonViewSpec.AddLink(old(State()), key, url)
    {
      links := Put(links, KeyOf(key), url);
    }

    /**
     * setPaginationLinks($baseUrl, $pagination); covered is false, and
     * nothing changes, when a page figure is not a number the model
     * computes with.
     */
    method SetPaginationLinks(baseUrl: string, pagination: Entries, urlQuery: string -> Value) returns (covered: bool)
      modifies this
      ensures covered <==> PageFigures(pagination)
      ensures JsonViewSpec.SetPaginationLinks(old(State()), baseUrl, pagination, urlQuery)
           == if covered then Some(State()) else None
      ensures !covered ==> State() == old(State())
    {
      if !PageFigures(pagination) {
        return false;
      }
      covered := true;
      var added := BuildPaginationLinks(baseUrl, pagination, urlQuery);
      links := MergeAll(links + added);
      AddMeta("pagination", PaginationMeta(pagination));
    }

    /** The four links of setPaginationLinks, each appended when its page exists. */
    static method BuildPaginationLinks(baseUrl: string, pagination: Entries, urlQuery: string -> Value) returns (added: Entries)
      requires PageFigures(pagination)
      ensures added == PaginationLinks(baseUrl, pagination, urlQuery)
    {
      var base := RTrim(baseUrl, {'?', '&'});
      var q := if Truthy(urlQuery(base)) then "&" else "?";
      var current := PageOf(pagination, "current_page", 1);
      var last := PageOf(pagination, "last_page", 1);
      var lastText := ToStr(PageFigure(pagination, "last_page", 1));
      var per := ToStr(Lookup(pagination, "per_page", Int(15)));
      assert PaginationLinks(baseUrl, pagination, urlQuery) == LinkList(base, q, current, last, lastText, per);
      ghost var prev := if current > 1 then [Link("prev", base, q, IntToString(current - 1), per)] else [];
      ghost var next := if current < last then [Link("next", base, q, IntToString(current + 1), per)] else [];
      added := [Link("first", base, q, "1", per)];
      if current > 1 {
        added := added + [Link("prev", base, q, IntToString(current - 1), per)];
      }
      assert added == [Link("first", base, q, "1", per)] + prev;
      if current < last {
        added := added + [Link("next", base, q, IntToString(current + 1), per)];
      }
      assert added == [Link("first", base, q, "1", per)] + prev + next;
      added := added + [Link("last", base, q, lastText, per)];
    }

    method SetErrors(es: Entries)
      modifies this
      ensures State() == JsonViewSpec.SetErrors(old(State()), es)
    {
      errors := es;
      isError := es != [];
    }

    /** addError($field, $message); false, with nothing changed, where PHP raises an error. */
    method AddError(field: string, msg: Value) returns (ok: bool)
      modifies this
      ensures ok <==> JsonViewSpec.AddError(old(State()), field, msg).Some?
      ensures ok ==> State() == JsonViewSpec.AddError(old(State()), field, msg).value
      ensures !ok ==> State() == old(State())
    {
      var k := KeyOf(field);
      var existing := if Isset(errors, k) then Get(errors, k).value else Arr([]);
      var u := Updated(existing, msg);
      if u.None? {
        return false;
      }
      errors := Put(errors, k, u.value);
      isError := true;
      return true;
    }

    method SetMessage(m: Value)
      modifies this
      ensures State() == JsonViewSpec.SetMessage(old(State()), m)
    {
      message := m;
    }

    method SetStatusCode(code: int)
      modifies this
      ensures State() == JsonViewSpec.SetStatusCode(old(State()), code)
    {
      statusCode := code;
    }

    method SetIsError(e: Value)
      modifies this
      ensures State() == JsonViewSpec.SetIsError(old(State()), e)
    {
      isError := Truthy(e);
    }

    method Success(d: Value, m: Value, code: int)
      modifies this
      ensures State() == JsonViewSpec.Success(old(State()), d, m, code)
    {
      data := d;
      message := m;
      statusCode := code;
      isError := false;
      errors := [];
    }

    method Error(m: Value, code: int, es: Entries)
      modifies this
      ensures State() == JsonViewSpec.Error(old(State()), m, code, es)
    {
      message := m;
      statusCode := code;
      isError := true;
      errors := es;
      data := Null;
    }

    method ValidationError(es: Entries, m: Value)
      modifies this
      ensures State() == JsonViewSpec.ValidationError(old(State()), es, m)
    {
      Error(m, 422, es);
    }

    method NotFound(m: Value)
      modifies this
      ensures State() == JsonViewSpec.NotFound(old(State()), m)
    {
      Error(m, 404, []);
    }

    method Unauthorized(m: Value)
      modifies this
      ensures State() == JsonViewSpec.Unauthorized(old(State()), m)
    {
      Error(m, 401, []);
    }

    method Forbidden(m: Value)
      modifies this
      ensures State() == JsonViewSpec.Forbidden(old(State()), m)
    {
      Error(m, 403, []);
    }

    method ServerError(m: Value)
      modifies this
      ensures State() == JsonViewSpec.ServerError(old(State()), m)
    {
      Error(m, 500, []);
    }

    /** The array render() encodes, assembled field by field. */
    method BuildEnvelope(timestamp: string) returns (r: Entries)
      ensures r == Envelope(State(), timestamp)
    {
      r := Put([], StrKey("success"), Bool(!isError));
      r := PutIf(r, !IsEmpty(message), "message", message);
      r := PutIf(r, !isError && data != Null, "data", data);
      r := PutIf(r, errors != [], "errors", Arr(errors));
      r := PutIf(r, meta != [], "meta", Arr(meta));
      r := PutIf(r, links != [], "links", Arr(links));
      r := Put(r, StrKey("timestamp"), Str(timestamp));
    }

    /** render(): the envelope encoded; on failure the encoded fallback and status 500. */
    method Render(timestamp: string, encode: (Value, bv64) -> Option<string>, lastError: string) returns (json: Value)
      modifies this
      ensures (State(), json) == JsonViewSpec.Render(old(State()), timestamp, encode, lastError)
    {
      var r := BuildEnvelope(timestamp);
      var out := encode(Arr(r), encodingOptions);
      if out.Some? {
        json := Str(out.value);
      } else {
        var second := encode(Fallback(timestamp, lastError), encodingOptions);
        json := if second.Some? then Str(second.value) else Bool(false);
        statusCode := 500;
      }
    }

    /** send(): header, status and rendered content onto the response; the output itself is not modelled. */
    method Send(timestamp: string, encode: (Value, bv64) -> Option<string>, lastError: string)
      modifies this, response
      ensures (State(), response.State()) == JsonViewSpec.Send(old(State()), old(response.State()), timestamp, encode, lastError)
    {
      response.SetHeader("Content-Type", Str("application/json; charset=utf-8"), true);
      response.SetStatusCode(statusCode);
      var json := Render(timestamp, encode, lastError);
      response.SetContent(json);
    }

    /** response($data, $statusCode, $headers): each header set with replacement, then send(). */
    method Respond(d: Value, code: int, hs: ResponseSpec.Headers,
                   timestamp: string, encode: (Value, bv64) -> Option<string>, lastError: string)
      modifies this, response
      ensures (State(), response.State())
           == JsonViewSpec.Send(old(State()).(data := d, statusCode := code),
                                ResponseSpec.SetHeaders(old(response.State()), hs, true), timestamp, encode, lastError)
    {
      data := d;
      statusCode := code;
      ghost var v := State();
      response.SetHeaders(hs, true);
      assert State() == v;
      Send(timestamp, encode, lastError);
    }

    /** responseWithTransformer($data, $transformer, ...) */
    method RespondWithTransformer(d: Value, transformer: Value -> Value, code: int, hs: ResponseSpec.Headers,
                                  timestamp: string, encode: (Value, bv64) -> Option<string>, lastError: string)
      modifies this, response
      ensures (State(), response.State())
           == JsonViewSpec.Send(old(State()).(data := transformer(d), statusCode := code),
                                ResponseSpec.SetHeaders(old(response.State()), hs, true), timestamp, encode, lastError)
    {
      Respond(transformer(d), code, hs, timestamp, encode, lastError);
    }

    /**
     * responseWithPagination($data, $pagination, $baseUrl, ...): when a page
     * figure is outside the model the data and status are already set and
     * nothing is sent.
     */
    method RespondWithPagination(d: Entries, pagination: Entries, baseUrl: string, code: int, hs: ResponseSpec.Headers,
                                 urlQuery: string -> Value,
                                 timestamp: string, encode: (Value, bv64) -> Option<string>, lastError: string)
      returns (covered: bool)
      modifies this, response
      ensures covered <==> PageFigures(pagination)
      ensures covered ==>
                (State(), response.State())
                == JsonViewSpec.Send(WithPagination(old(State()), d, pagination, baseUrl, code, urlQuery).value,
                                     ResponseSpec.SetHeaders(old(response.State()), hs, true), timestamp, encode, lastError)
      ensures !covered ==> State() == old(State()).(data := Arr(d), statusCode := code) && response.State() == old(response.State())
    {
      ghost var v0 := State();
      data := Arr(d);
      statusCode := code;
      covered := SetPaginationLinks(baseUrl, pagination, urlQuery);
      if !covered {
        return;
      }
      ghost var v1 := State();
      assert Some(v1) == WithPagination(v0, d, pagination, baseUrl, code, urlQuery);
      response.SetHeaders(hs, true);
      assert State() == v1;
      Send(timestamp, encode, lastError);
    }

    /** responseWithPaginationAndTransformer: the items mapped through the transformer first. */
    method RespondWithPaginationAndTransformer(d: Entries, pagination: Entries, baseUrl: string, transformer: Value -> Value,
                                               code: int, hs: ResponseSpec.Headers, urlQuery: string -> Value,
                                               timestamp: string, encode: (Value, bv64) -> Option<string>, lastError: string)
      returns (covered: bool)
      modifies this, response
      ensures covered <==> PageFigures(pagination)
      ensures covered ==>
                (State(), response.State())
                == JsonViewSpec.Send(WithPagination(old(State()), MapValues(d, transformer), pagination, baseUrl, code, urlQuery).value,
                                     ResponseSpec.SetHeaders(old(response.State()), hs, true), timestamp, encode, lastError)
      ensures !covered ==>
                State() == old(State()).(data := Arr(MapValues(d, transformer)), statusCode := code)
                && response.State() == old(response.State())
    {
      covered := RespondWithPagination(MapValues(d, transformer), pagination, baseUrl, code, hs, urlQuery, timestamp, encode, lastError);
    }
  }
}
