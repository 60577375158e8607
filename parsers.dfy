/** torequests/parsers.py: `get_one`, `SimpleParser.ensure_list`, the
    parsers' argument rules, JSON-path normalisation, and the step-by-step
    `parse` chain. lxml, jsonpath, json and `re` are abstract functions
    collected in `Libs`. */
module Parsers {

  import opened PyValues

  // ---------------------------------------------------------------------------
  // get_one / ensure_list / const_parser

  /** `get_one(seq, default, skip_string_iter)`: string-like input is returned
      as is when `skip` is set; a truthy iterable gives its first item (an
      exhausted iterator raises StopIteration); anything else gives
      `default`. */
  function GetOne(v: Value, default: Value, skip: bool): (r: Result<Value>)
    ensures skip && IsStringLike(v) ==> r == Ok(v)
    ensures !(skip && IsStringLike(v)) && Truthy(v) && IsIterable(v) && Iterate(v).value != [] ==> r == Ok(Iterate(v).value[0])
    ensures !(skip && IsStringLike(v)) && (!Truthy(v) || !IsIterable(v)) ==> r == Ok(default)
    ensures r.Err? <==> !(skip && IsStringLike(v)) && Truthy(v) && IsIterable(v) && Iterate(v).value == []
    ensures r.Err? ==> v == VIter([]) && r.error.cls == "StopIteration"
  {
    if skip && IsStringLike(v) then Ok(v)
    else if Truthy(v) && IsIterable(v) then
      var items := Iterate(v).value;
      if items == [] then Err(Exc("StopIteration", {"Exception", "BaseException"}, [])) else Ok(items[0])
    else Ok(default)
  }

  /** `ensure_list(obj)`: falsy gives [], a str or bytes gives [obj], anything
      else `list(obj)` (a TypeError when it is not iterable). */
  function EnsureList(v: Value): (r: Result<seq<Value>>)
    ensures !Truthy(v) ==> r == Ok([])
    ensures Truthy(v) && IsStringLike(v) ==> r == Ok([v])
    ensures Truthy(v) && !IsStringLike(v) ==> r == Iterate(v)
  {
    if !Truthy(v) then Ok([])
    else if IsStringLike(v) then Ok([v])
    else Iterate(v)
  }

  /** A list passes through `ensure_list` unchanged, so applying it twice is
      the same as applying it once. */
  lemma EnsureListOfList(items: seq<Value>)
    ensures EnsureList(VList(items)) == Ok(items)
  {
  }

  lemma EnsureListIdempotent(v: Value)
    requires EnsureList(v).Ok?
    ensures EnsureList(VList(EnsureList(v).value)) == EnsureList(v)
  {
    EnsureListOfList(EnsureList(v).value);
  }

  /** `const_parser(scode, *args)`. */
  function ConstParser(scode: Value, args: seq<Value>): (r: Value)
    ensures args != [] ==> r == args[0]
    ensures args == [] ==> r == scode
  {
    if args != [] then args[0] else scode
  }

  // ---------------------------------------------------------------------------
  // JSON-path normalisation

  /** `re.sub('^JSON\.?|^\$?\.?', '$.', path)`: the first alternative wins
      when the path starts with JSON; the second always matches (possibly
      empty) at the start. */
  function JsonPathPrefix(p: string): (r: string)
    ensures |r| >= 2 && r[..2] == "$."
  {
    if |p| >= 4 && p[..4] == "JSON" then
      "$." + (if |p| > 4 && p[4] == '.' then p[5..] else p[4..])
    else
      var a := if p != [] && p[0] == '$' then 1 else 0;
      var b := if |p| > a && p[a] == '.' then a + 1 else a;
      "$." + p[b..]
  }

  /** `re.sub('\.$', '', s)`: `$` also matches before a final newline, so a
      '.' is removed at the very end or just before a trailing "\n". */
  function DropTrailingDot(s: string): (r: string)
    ensures s != [] && s[|s| - 1] == '.' ==> r == s[..|s| - 1]
    ensures |s| >= 2 && s[|s| - 2..] == ".\n" ==> r == s[..|s| - 2] + "\n"
    ensures |r| == |s| || |r| == |s| - 1
  {
    if s != [] && s[|s| - 1] == '.' then s[..|s| - 1]
    else if |s| >= 2 && s[|s| - 2] == '.' && s[|s| - 1] == '\n' then s[..|s| - 2] + "\n"
    else s
  }

  function NormalizeJsonPath(p: string): (r: string)
    ensures r != [] && r[0] == '$'
    ensures |r| == |JsonPathPrefix(p)| || |r| == |JsonPathPrefix(p)| - 1
  {
    DropTrailingDot(JsonPathPrefix(p))
  }

  /** Every normalised path starts with '$', and with "$." unless nothing
      but an optional newline follows the prefix. */
  lemma NormalizedStart(p: string)
    ensures NormalizeJsonPath(p) != [] && NormalizeJsonPath(p)[0] == '$'
    ensures JsonPathPrefix(p)[2..] != "" && JsonPathPrefix(p)[2..] != "\n" ==>
              |NormalizeJsonPath(p)| >= 2 && NormalizeJsonPath(p)[..2] == "$."
  {
    var s := JsonPathPrefix(p);
    assert s == "$." + s[2..];
  }

  /** A leading 'JSON.' and a leading '$.' normalise alike. */
  lemma JsonPathDotted(q: string)
    ensures NormalizeJsonPath("JSON." + q) == NormalizeJsonPath("$." + q)
  {
    assert JsonPathPrefix("JSON." + q) == "$." + q by {
      var j := "JSON." + q;
      assert |j| > 4 && j[..4] == "JSON" && j[4] == '.';
      assert j[5..] == q;
    }
    assert JsonPathPrefix("$." + q) == "$." + q by {
      var d := "$." + q;
      assert d[0] == '$';
      assert !(|d| >= 4 && d[..4] == "JSON") by {
        if |d| >= 4 {
          assert d[..4][0] == '$';
        }
      }
      assert d[1] == '.' && d[2..] == q;
    }
  }

  /** A leading 'JSON' and a leading '$' normalise alike. */
  lemma JsonPathBare(q: string)
    ensures NormalizeJsonPath("JSON" + q) == NormalizeJsonPath("$" + q)
  {
    var j := "JSON" + q;
    var d := "$" + q;
    assert j[..4] == "JSON";
    assert d[0] == '$' && !(|d| >= 4 && d[..4] == "JSON");
    if |q| > 0 && q[0] == '.' {
      assert j[4] == '.' && j[5..] == q[1..];
      assert d[1] == '.' && d[2..] == q[1..];
      assert JsonPathPrefix(j) == "$." + q[1..] == JsonPathPrefix(d);
    } else {
      assert j[4..] == q;
      assert !(|d| > 1 && d[1] == '.') && d[1..] == q;
      assert JsonPathPrefix(j) == "$." + q == JsonPathPrefix(d);
    }
  }

  /** A path without a prefix is read as one relative to the root. */
  lemma JsonPathRelative(q: string)
    requires q == [] || (q[0] != '$' && q[0] != '.' && !(|q| >= 4 && q[..4] == "JSON"))
    ensures NormalizeJsonPath(q) == NormalizeJsonPath("$." + q)
  {
    var d := "$." + q;
    assert d[0] == '$' && d[1] == '.' && d[2..] == q;
    assert !(|d| >= 4 && d[..4] == "JSON") by {
      if |d| >= 4 {
        assert d[..4][0] == '$';
      }
    }
    assert JsonPathPrefix(d) == d;
    assert JsonPathPrefix(q) == d;
  }

  /** One trailing '.' is removed; a path with no trailing '.' or newline
      comes back as "$." followed by it. */
  lemma JsonPathTrailingDot(q: string)
    requires q != [] && q[0] != '$' && q[0] != '.' && !(|q| >= 4 && q[..4] == "JSON")
    requires q[|q| - 1] != '.' && q[|q| - 1] != '\n'
    ensures NormalizeJsonPath(q) == "$." + q
    ensures NormalizeJsonPath(q + ".") == "$." + q
  {
    var q1 := q + ".";
    assert q1[..|q|] == q && q1[0] == q[0];
    assert !(|q1| >= 4 && q1[..4] == "JSON") by {
      if |q| >= 4 {
        assert q1[..4] == q[..4];
      } else if |q| == 3 {
        assert q1[3] == '.';
      }
    }
    PlainPrefix(q);
    PlainPrefix(q1);
    var d := "$." + q;
    assert d[|d| - 1] == q[|q| - 1];
    assert DropTrailingDot(d) == d;
    var d1 := "$." + q1;
    assert d1[|d1| - 1] == '.' && d1[..|d1| - 1] == d;
  }

  /** A path that starts with neither '$', '.' nor "JSON" gets "$." in front. */
  lemma PlainPrefix(p: string)
    requires p != [] && p[0] != '$' && p[0] != '.' && !(|p| >= 4 && p[..4] == "JSON")
    ensures JsonPathPrefix(p) == "$." + p
  {
    assert p[0..] == p;
  }

  // ---------------------------------------------------------------------------
  // Parsers

  /** The foreign libraries: `json.loads`, jsonpath `find`, lxml's
      `cssselect`/`xpath` after `fromstring`, `tostring(item, method=...)`,
      and the functions of the `re` module by name. */
  datatype Libs = Libs(
    jsonLoads: Value -> Result<Value>,
    jsonFind: (string, Value) -> Result<seq<Value>>,
    cssSelect: (Value, Value) -> Result<Value>,
    xpath: (Value, Value) -> Result<Value>,
    toString: (Value, Value) -> Value,
    reHas: string -> bool,
    reCall: (string, seq<Value>) -> Result<Value>)

  /** What `getattr(self, name + '_parser')` finds: one of the five parser
      methods, the lxml parser object stored as `_html_parser` or
      `_xml_parser`, or the bound method `_choose_parser`. */
  datatype ParserKind = JsonParser | ReParser | HtmlParser | XmlParser | ConstKind | ParserObject | ChooseKind

  /** The names that resolve. */
  const PARSER_NAMES: set<string> := {"json", "re", "html", "xml", "const", "_html", "_xml", "_choose"}

  /** `getattr(self, '%s_parser' % name)`. */
  function ChooseParser(name: string): (r: Result<ParserKind>)
    ensures r.Ok? <==> name in PARSER_NAMES
    ensures r.Err? ==> r.error.cls == "AttributeError"
    ensures name == "_html" || name == "_xml" ==> r == Ok(ParserObject)
    ensures name == "_choose" ==> r == Ok(ChooseKind)
  {
    if name == "json" then Ok(JsonParser)
    else if name == "re" then Ok(ReParser)
    else if name == "html" then Ok(HtmlParser)
    else if name == "xml" then Ok(XmlParser)
    else if name == "const" then Ok(ConstKind)
    else if name == "_html" || name == "_xml" then Ok(ParserObject)
    else if name == "_choose" then Ok(ChooseKind)
    else Err(Builtin("AttributeError", "'SimpleParser' object has no attribute '" + name + "_parser'"))
  }

  const ALLOWED_METHODS: seq<Value> := [VStr("text"), VStr("html"), VStr("xml")]

  /** The shared head of `html_parser` and `xml_parser`: exactly two
      arguments (selector, method), and a method of 'text', 'html' or 'xml'. */
  function CheckMarkupArgs(args: seq<Value>): (r: Result<(Value, Value)>)
    ensures r.Ok? <==> |args| == 2 && args[1] in ALLOWED_METHODS
    ensures |args| != 2 ==> r.Err? && r.error.cls == "ValueError"
    ensures |args| == 2 && args[1] !in ALLOWED_METHODS ==> r.Err? && r.error.cls == "AssertionError"
    ensures r.Ok? ==> r.value == (args[0], args[1])
  {
    if |args| != 2 then Err(Builtin("ValueError", "wrong number of values to unpack (expected 2)"))
    else if args[1] !in ALLOWED_METHODS then Err(Builtin("AssertionError", "method allow: ('text', 'html', 'xml')"))
    else Ok((args[0], args[1]))
  }

  function ToStrings(items: seq<Value>, outputMethod: Value, toString: (Value, Value) -> Value): (r: seq<Value>)
    ensures |r| == |items| && forall i :: 0 <= i < |items| ==> r[i] == toString(items[i], outputMethod)
  {
    seq(|items|, i requires 0 <= i < |items| => toString(items[i], outputMethod))
  }

  /** `html_parser` / `xml_parser`: select with the first argument, then
      serialise each element with the checked method. */
  function MarkupParser(select: (Value, Value) -> Result<Value>, toString: (Value, Value) -> Value,
                        scode: Value, args: seq<Value>): (r: Result<Value>)
    ensures CheckMarkupArgs(args).Err? ==> r == Err(CheckMarkupArgs(args).error)
    ensures r.Ok? ==> r.value.VList?
  {
    match CheckMarkupArgs(args)
    case Err(e) => Err(e)
    case Ok((selector, outputMethod)) =>
      match select(scode, selector)
      case Err(e) => Err(e)
      case Ok(found) =>
        match EnsureList(found)
        case Err(e) => Err(e)
        case Ok(items) => Ok(VList(ToStrings(items, outputMethod, toString)))
  }

  /** `json_parser(scode, json_path)`: str/bytes input is decoded first,
      then the normalised path is looked up. */
  function JsonParserCall(libs: Libs, scode: Value, args: seq<Value>): (r: Result<Value>)
    ensures |args| != 1 ==> r.Err? && r.error.cls == "TypeError"
    ensures r.Ok? ==> r.value.VList? && args[0].VStr?
  {
    if |args| != 1 then Err(Builtin("TypeError", "json_parser() takes 3 positional arguments"))
    else
      var doc := if IsStringLike(scode) then libs.jsonLoads(scode) else Ok(scode);
      match doc
      case Err(e) => Err(e)
      case Ok(d) =>
        if !args[0].VStr? then Err(Builtin("TypeError", "expected string or bytes-like object"))
        else
          match libs.jsonFind(NormalizeJsonPath(args[0].s), d)
          case Err(e) => Err(e)
          case Ok(found) => Ok(VList(found))
  }

  /** `re_parser` as written: `args[1:] + [scode]` adds a list to a tuple, so
      every call that gets that far raises TypeError. */
  function ReParserAsWritten(libs: Libs, scode: Value, args: seq<Value>): (r: Result<Value>)
    ensures r.Err?
  {
    if args == [] then Err(Builtin("IndexError", "tuple index out of range"))
    else if !args[0].VStr? then Err(Builtin("TypeError", "attribute name must be string"))
    else if !libs.reHas(args[0].s) then Err(Builtin("AttributeError", "module 're' has no attribute"))
    else Err(Builtin("TypeError", "can only concatenate tuple (not \"list\") to tuple"))
  }

  /** `re_parser` as evidently intended: call `re.<args[0]>(*args[1:], scode)`
      and pass the result through `ensure_list`. */
  function ReParserCall(libs: Libs, scode: Value, args: seq<Value>): (r: Result<Value>)
    ensures r.Ok? ==> r.value.VList?
    ensures (args != [] && args[0].VStr? && libs.reHas(args[0].s) && libs.reCall(args[0].s, args[1..] + [scode]).Ok?)
              ==> r == MapList(EnsureList(libs.reCall(args[0].s, args[1..] + [scode]).value))
  {
    if args == [] then Err(Builtin("IndexError", "tuple index out of range"))
    else if !args[0].VStr? then Err(Builtin("TypeError", "attribute name must be string"))
    else if !libs.reHas(args[0].s) then Err(Builtin("AttributeError", "module 're' has no attribute"))
    else
      match libs.reCall(args[0].s, args[1..] + [scode])
      case Err(e) => Err(e)
      case Ok(v) => MapList(EnsureList(v))
  }

  function MapList(r: Result<seq<Value>>): (m: Result<Value>)
    ensures m.Ok? ==> m.value.VList?
  {
    match r
    case Ok(items) => Ok(VList(items))
    case Err(e) => Err(e)
  }

  /** With a callable `re` function the corrected parser returns a list where
      the one written fails. */
  lemma ReParserDiffers(libs: Libs, scode: Value, name: string, rest: seq<Value>)
    requires libs.reHas(name)
    requires libs.reCall(name, rest + [scode]).Ok? && EnsureList(libs.reCall(name, rest + [scode]).value).Ok?
    ensures ReParserAsWritten(libs, scode, [VStr(name)] + rest).Err?
    ensures ReParserAsWritten(libs, scode, [VStr(name)] + rest).error.cls == "TypeError"
    ensures ReParserCall(libs, scode, [VStr(name)] + rest).Ok?
  {
    assert ([VStr(name)] + rest)[1..] == rest;
  }

  /** The bound parser method `_choose_parser(name)` returns, an opaque
      object to the rest of the chain. */
  const BOUND_PARSER: Value := VObject(-1)

  /** Calling the chosen parser on one input. The lxml parser objects are
      not callable. `_choose_parser` takes the input as the name to look
      up, so extra arguments are a TypeError. A str input names the
      attribute it spells; any other input is treated as naming none (a
      1-tuple holding a str would name that str, but lists and tuples are one
      value here). */
  function CallParser(libs: Libs, kind: ParserKind, scode: Value, args: seq<Value>): (r: Result<Value>)
    ensures kind == ParserObject ==> r.Err? && r.error.cls == "TypeError"
    ensures kind == ChooseKind && args != [] ==> r.Err? && r.error.cls == "TypeError"
    ensures kind == ChooseKind && args == [] ==>
      (r.Ok? <==> scode.VStr? && scode.s in PARSER_NAMES) && (r.Ok? ==> r.value == BOUND_PARSER)
    ensures kind == ConstKind ==> r == Ok(ConstParser(scode, args))
  {
    match kind
    case JsonParser => JsonParserCall(libs, scode, args)
    case ReParser => ReParserCall(libs, scode, args)
    case HtmlParser => MarkupParser(libs.cssSelect, libs.toString, scode, args)
    case XmlParser => MarkupParser(libs.xpath, libs.toString, scode, args)
    case ConstKind => Ok(ConstParser(scode, args))
    case ParserObject => Err(Builtin("TypeError", "'HTMLParser' object is not callable"))
    case ChooseKind =>
      if args != [] then Err(Builtin("TypeError", "_choose_parser() takes 2 positional arguments"))
      else if scode.VStr? then
        match ChooseParser(scode.s)
        case Err(e) => Err(e)
        case Ok(_) => Ok(BOUND_PARSER)
      else Err(Builtin("AttributeError", "'SimpleParser' object has no attribute"))
  }

  // ---------------------------------------------------------------------------
  // The parse chain

  /** One element of `args_chain`: `[one_to_many, parser_name, *parse_args]`. */
  datatype Step = Step(mode: string, name: string, args: seq<Value>)

  /** `re.match('^[1n]-[1n]$', mode)`; `$` also accepts one trailing newline. */
  predicate ModeOk(m: string) {
    (|m| == 3 || (|m| == 4 && m[3] == '\n')) && (m[0] == '1' || m[0] == 'n') && m[1] == '-' && (m[2] == '1' || m[2] == 'n')
  }

  /** Of the three-character modes exactly 1-1, 1-n, n-1 and n-n pass. */
  lemma ModesAccepted(m: string)
    requires |m| == 3
    ensures ModeOk(m) <==> m in {"1-1", "1-n", "n-1", "n-n"}
  {
    if ModeOk(m) {
      assert m == [m[0], m[1], m[2]];
    }
  }

  function StopIteration(): Exc {
    Exc("StopIteration", {"Exception", "BaseException"}, [])
  }

  /** 'n-1' as written: `get_one` of the lazy `map` object, which is always
      truthy, so an empty input raises StopIteration from `next`. Only the
      first item is parsed. */
  function NToOneAsWritten(libs: Libs, kind: ParserKind, items: seq<Value>, args: seq<Value>, default: Value): (r: Result<Value>)
    ensures items == [] ==> r == Err(StopIteration())
    ensures items != [] ==> r == CallParser(libs, kind, items[0], args)
  {
    if items == [] then Err(StopIteration()) else CallParser(libs, kind, items[0], args)
  }

  /** 'n-1' as evidently intended (and as it behaves where `map` returns a
      list): an empty input gives `default`. */
  function NToOne(libs: Libs, kind: ParserKind, items: seq<Value>, args: seq<Value>, default: Value): (r: Result<Value>)
    ensures items == [] ==> r == Ok(default)
    ensures items != [] ==> r == CallParser(libs, kind, items[0], args)
  {
    if items == [] then Ok(default) else CallParser(libs, kind, items[0], args)
  }

  /** On an empty input the step as written raises; the corrected one returns
      the default. */
  lemma NToOneEmpty(libs: Libs, kind: ParserKind, args: seq<Value>, default: Value)
    ensures NToOneAsWritten(libs, kind, [], args, default).Err?
    ensures NToOneAsWritten(libs, kind, [], args, default).error.cls == "StopIteration"
    ensures NToOne(libs, kind, [], args, default) == Ok(default)
  {
  }

  /** `get_one(parser(item, *args))` for one item of an 'n-n' step. */
  function ItemOne(libs: Libs, kind: ParserKind, item: Value, args: seq<Value>, default: Value): Result<Value> {
    match CallParser(libs, kind, item, args)
    case Err(e) => Err(e)
    case Ok(parsed) => GetOne(parsed, default, true)
  }

  /** 'n-n': `[get_one(i) for i in map(parser, scode)]`, parsing and taking
      `get_one` item by item; it succeeds exactly when every item does, and
      otherwise fails with the error of the first item that fails. */
  function NToN(libs: Libs, kind: ParserKind, items: seq<Value>, args: seq<Value>, default: Value): (r: Result<seq<Value>>)
    ensures r.Ok? ==> |r.value| == |items|
    ensures r.Ok? ==> forall i :: 0 <= i < |items| ==>
              CallParser(libs, kind, items[i], args).Ok? &&
              GetOne(CallParser(libs, kind, items[i], args).value, default, true) == Ok(r.value[i])
    ensures r.Ok? <==> forall i :: 0 <= i < |items| ==> ItemOne(libs, kind, items[i], args, default).Ok?
    ensures r.Ok? ==> forall i :: 0 <= i < |items| ==> ItemOne(libs, kind, items[i], args, default) == Ok(r.value[i])
    ensures r.Err? ==> exists k :: FirstFailure(libs, kind, items, args, default, k, r.error)
    decreases |items|
  {
    if items == [] then Ok([])
    else match ItemOne(libs, kind, items[0], args, default)
      case Err(e) =>
        assert FirstFailure(libs, kind, items, args, default, 0, e);
        Err(e)
      case Ok(one) =>
        match NToN(libs, kind, items[1..], args, default)
        case Err(e) =>
          FailureCons(libs, kind, items, args, default, e);
          Err(e)
        case Ok(rest) =>
          SuccessCons(libs, kind, items, args, default, one, rest);
          Ok([one] + rest)
  }

  /** Item `k` is the first of `items` to fail, and it fails with `e`. */
  predicate FirstFailure(libs: Libs, kind: ParserKind, items: seq<Value>, args: seq<Value>, default: Value, k: int, e: Exc) {
    && 0 <= k < |items| && ItemOne(libs, kind, items[k], args, default) == Err(e)
    && forall j :: 0 <= j < k ==> ItemOne(libs, kind, items[j], args, default).Ok?
  }

  lemma FailureCons(libs: Libs, kind: ParserKind, items: seq<Value>, args: seq<Value>, default: Value, e: Exc)
    requires items != [] && ItemOne(libs, kind, items[0], args, default).Ok?
    requires exists k :: FirstFailure(libs, kind, items[1..], args, default, k, e)
    ensures exists k :: FirstFailure(libs, kind, items, args, default, k, e)
  {
    var k :| FirstFailure(libs, kind, items[1..], args, default, k, e);
    assert items[k + 1] == items[1..][k];
    forall j | 1 <= j < k + 1 ensures ItemOne(libs, kind, items[j], args, default).Ok? {
      assert items[j] == items[1..][j - 1];
    }
    assert FirstFailure(libs, kind, items, args, default, k + 1, e);
  }

  lemma SuccessCons(libs: Libs, kind: ParserKind, items: seq<Value>, args: seq<Value>, default: Value, one: Value, rest: seq<Value>)
    requires items != [] && ItemOne(libs, kind, items[0], args, default) == Ok(one)
    requires |rest| == |items| - 1
    requires forall i :: 0 <= i < |items| - 1 ==> ItemOne(libs, kind, items[1..][i], args, default) == Ok(rest[i])
    ensures forall i :: 0 <= i < |items| ==> ItemOne(libs, kind, items[i], args, default) == Ok(([one] + rest)[i])
  {
    forall i | 1 <= i < |items| ensures ItemOne(libs, kind, items[i], args, default) == Ok(([one] + rest)[i]) {
      assert items[i] == items[1..][i - 1];
    }
  }

  /** One pass of the `for arg in args_chain` loop body. The mode is checked
      first, then the parser is looked up. An 'n' input maps the parser over
      the items; a '1' input gives the parser `get_one(scode)`, except that the
      json parser gets the whole input. A '1' output takes `get_one`; 'n-n'
      keeps one value per item; '1-n' (and a trailing-newline output) is
      `list(result)`. */
  function RunStep(libs: Libs, scode: Value, step: Step, default: Value): (r: Result<Value>)
    ensures !ModeOk(step.mode) ==> r.Err? && r.error.cls == "AssertionError"
    ensures ModeOk(step.mode) && ChooseParser(step.name).Err? ==> r.Err? && r.error.cls == "AttributeError"
    // An 'n' input: the parser maps over the items; 'n-1' parses only the
    // first, 'n-n' keeps `get_one` of each parsed item.
    ensures ModeOk(step.mode) && ChooseParser(step.name).Ok? && step.mode[0] == 'n' ==>
      var kind := ChooseParser(step.name).value;
      && (Iterate(scode).Err? ==> r == Err(Iterate(scode).error))
      && (Iterate(scode).Ok? && step.mode[2..] == "1" ==> r == NToOne(libs, kind, Iterate(scode).value, step.args, default))
      && (Iterate(scode).Ok? && step.mode[2..] != "1" ==>
            r == match NToN(libs, kind, Iterate(scode).value, step.args, default)
                 case Err(e) => Err(e)
                 case Ok(values) => Ok(VList(values)))
      && (Iterate(scode).Ok? && step.mode[2..] != "1" && r.Ok? ==>
            var items := Iterate(scode).value;
            && r.value.VList? && |r.value.items| == |items|
            && forall i :: 0 <= i < |items| ==>
                 CallParser(libs, kind, items[i], step.args).Ok? &&
                 GetOne(CallParser(libs, kind, items[i], step.args).value, default, true) == Ok(r.value.items[i]))
    // A '1' input: the parser gets `get_one(scode)` (the json parser the
    // whole input); a '1' output takes `get_one` of what it returns, any
    // other output `list()` of it.
    ensures ModeOk(step.mode) && ChooseParser(step.name).Ok? && step.mode[0] == '1' ==>
      var kind := ChooseParser(step.name).value;
      var input := if step.name == "json" then Ok(scode) else GetOne(scode, default, true);
      && (input.Err? ==> r == Err(input.error))
      && (input.Ok? && CallParser(libs, kind, input.value, step.args).Err? ==>
            r == Err(CallParser(libs, kind, input.value, step.args).error))
      && (input.Ok? && CallParser(libs, kind, input.value, step.args).Ok? && step.mode[2..] == "1" ==>
            r == GetOne(CallParser(libs, kind, input.value, step.args).value, default, true))
      && (input.Ok? && CallParser(libs, kind, input.value, step.args).Ok? && step.mode[2..] != "1" ==>
            r == MapList(Iterate(CallParser(libs, kind, input.value, step.args).value)))
  {
    if !ModeOk(step.mode) then Err(Builtin("AssertionError", "one_to_many should be one of 1-n, n-n, n-1"))
    else
      var inputs, outputs := step.mode[0], step.mode[2..];
      match ChooseParser(step.name)
      case Err(e) => Err(e)
      case Ok(kind) =>
        if inputs == 'n' then
          match Iterate(scode)
          case Err(e) => Err(e)
          case Ok(items) =>
            if outputs == "1" then NToOne(libs, kind, items, step.args, default)
            else
              match NToN(libs, kind, items, step.args, default)
              case Err(e) => Err(e)
              case Ok(values) => Ok(VList(values))
        else
          var input := if step.name == "json" then Ok(scode) else GetOne(scode, default, true);
          match input
          case Err(e) => Err(e)
          case Ok(arg) =>
            match CallParser(libs, kind, arg, step.args)
            case Err(e) => Err(e)
            case Ok(parsed) =>
              if outputs == "1" then GetOne(parsed, default, true)
              else MapList(Iterate(parsed))
  }

  /** Reference definition of the chain: the steps applied in order, the
      first failure ending it. */
  function RunChain(libs: Libs, scode: Value, steps: seq<Step>, default: Value): (r: Result<Value>)
    decreases |steps|
  {
    if steps == [] then Ok(scode)
    else match RunStep(libs, scode, steps[0], default)
      case Err(e) => Err(e)
      case Ok(next) => RunChain(libs, next, steps[1..], default)
  }

  /** The chain runs its first step, then the rest of the chain on what that
      step returned. */
  lemma ChainStep(libs: Libs, current: Value, rest: seq<Step>, default: Value, next: Result<Value>)
    requires rest != [] && next == RunStep(libs, current, rest[0], default)
    ensures next.Err? ==> RunChain(libs, current, rest, default) == Err(next.error)
    ensures next.Ok? ==> RunChain(libs, current, rest, default) == RunChain(libs, next.value, rest[1..], default)
  {
  }

  /** An empty chain returns its input, and a failing chain fails with an
      error one of its steps raised. */
  lemma {:induction false} ChainFailure(libs: Libs, scode: Value, steps: seq<Step>, default: Value)
    ensures steps == [] ==> RunChain(libs, scode, steps, default) == Ok(scode)
    ensures RunChain(libs, scode, steps, default).Err? ==>
      exists k, v :: 0 <= k < |steps| && RunStep(libs, v, steps[k], default) == Err(RunChain(libs, scode, steps, default).error)
    decreases |steps|
  {
    if steps != [] {
      var next := RunStep(libs, scode, steps[0], default);
      ChainStep(libs, scode, steps, default, next);
      if next.Ok? {
        ChainFailure(libs, next.value, steps[1..], default);
        var rest := RunChain(libs, next.value, steps[1..], default);
        if rest.Err? {
          var k, v :| 0 <= k < |steps[1..]| && RunStep(libs, v, steps[1..][k], default) == Err(rest.error);
          assert steps[k + 1] == steps[1..][k];
        }
      }
    }
  }

  /** Running two chains one after the other is running their concatenation. */
  lemma {:induction false} ChainAppend(libs: Libs, scode: Value, a: seq<Step>, b: seq<Step>, default: Value)
    ensures RunChain(libs, scode, a + b, default)
         == match RunChain(libs, scode, a, default)
            case Err(e) => Err(e)
            case Ok(mid) => RunChain(libs, mid, b, default)
    decreases |a|
  {
    if a == [] {
      assert a + b == b;
    } else {
      assert (a + b)[0] == a[0] && (a + b)[1..] == a[1..] + b;
      var next := RunStep(libs, scode, a[0], default);
      ChainStep(libs, scode, a + b, default, next);
      ChainStep(libs, scode, a, default, next);
      if next.Ok? {
        ChainAppend(libs, next.value, a[1..], b, default);
      }
    }
  }

  /** A step with a bad mode fails the whole chain once it is reached. */
  lemma BadModeStops(libs: Libs, scode: Value, steps: seq<Step>, default: Value, k: nat)
    requires k < |steps| && !ModeOk(steps[k].mode)
    ensures RunChain(libs, scode, steps, default).Err?
  {
    assert steps == steps[..k] + steps[k..];
    ChainAppend(libs, scode, steps[..k], steps[k..], default);
    match RunChain(libs, scode, steps[..k], default)
    case Err(_) =>
    case Ok(mid) => BadModeFirst(libs, mid, steps[k..], default);
  }

  /** A chain whose first step has a bad mode fails. */
  lemma BadModeFirst(libs: Libs, scode: Value, steps: seq<Step>, default: Value)
    requires steps != [] && !ModeOk(steps[0].mode)
    ensures RunChain(libs, scode, steps, default).Err?
  {
    ChainStep(libs, scode, steps, default, RunStep(libs, scode, steps[0], default));
  }

  /** `['1-1', 'const', x]` yields `get_one(x)`, and `['1-n', 'const', x]`
      yields `list(x)`, whatever the input. */
  lemma ConstSteps(libs: Libs, scode: Value, x: Value, default: Value)
    ensures GetOne(scode, default, true).Ok? ==>
              RunStep(libs, scode, Step("1-1", "const", [x]), default) == GetOne(x, default, true)
    ensures GetOne(scode, default, true).Ok? ==>
              RunStep(libs, scode, Step("1-n", "const", [x]), default)
              == match Iterate(x) case Ok(items) => Ok(VList(items)) case Err(e) => Err(e)
  {
    assert ModeOk("1-1") && ModeOk("1-n");
    assert "1-1"[2..] == "1" && "1-n"[2..] == "n";
  }

  /** '1-n' always produces a list; 'n-n' produces one value per input item. */
  lemma StepShapes(libs: Libs, scode: Value, name: string, args: seq<Value>, default: Value)
    ensures RunStep(libs, scode, Step("1-n", name, args), default).Ok? ==>
              RunStep(libs, scode, Step("1-n", name, args), default).value.VList?
    ensures RunStep(libs, scode, Step("n-n", name, args), default).Ok? ==>
              Iterate(scode).Ok? &&
              RunStep(libs, scode, Step("n-n", name, args), default) .value.VList? &&
              |RunStep(libs, scode, Step("n-n", name, args), default).value.items| == |Iterate(scode).value|
  {
    assert ModeOk("1-n") && ModeOk("n-n");
    assert "1-n"[2..] == "n" && "n-n"[2..] == "n";
  }

  /** Every item is a str. */
  predicate AllStr(items: seq<Value>) {
    forall i :: 0 <= i < |items| ==> items[i].VStr?
  }

  /** The texts of items that are all str. */
  function Texts(items: seq<Value>): (ts: seq<string>)
    requires AllStr(items)
    ensures |ts| == |items| && forall i :: 0 <= i < |items| ==> ts[i] == items[i].s
  {
    seq(|items|, i requires 0 <= i < |items| => items[i].s)
  }

  /** `join_with.join(scode)` when `join_with` is truthy: the items of
      `scode` joined with the separator, a TypeError when one of them is not
      a str, and the error of iterating a value that is not iterable. */
  function JoinResult(scode: Value, joinWith: string): (r: Result<Value>)
    ensures joinWith == [] ==> r == Ok(scode)
    ensures joinWith != [] && r.Ok? ==> r.value.VStr? && Iterate(scode).Ok?
    ensures joinWith != [] && Iterate(scode).Err? ==> r == Err(Iterate(scode).error)
    ensures joinWith != [] && Iterate(scode).Ok? && AllStr(Iterate(scode).value) ==>
              r == Ok(VStr(Join(Texts(Iterate(scode).value), joinWith)))
    ensures joinWith != [] && Iterate(scode).Ok? && !AllStr(Iterate(scode).value) ==>
              r.Err? && r.error.cls == "TypeError"
  {
    if joinWith == [] then Ok(scode)
    else match Iterate(scode)
      case Err(e) => Err(e)
      case Ok(items) =>
        if AllStr(items) then Ok(VStr(Join(Texts(items), joinWith)))
        else Err(Builtin("TypeError", "sequence item: expected str instance"))
  }

  /** With a one-character separator that no item contains, splitting the
      joined text gives the items back. */
  lemma JoinSplits(scode: Value, sep: char)
    requires Iterate(scode).Ok? && Iterate(scode).value != []
    requires forall i :: 0 <= i < |Iterate(scode).value| ==>
               Iterate(scode).value[i].VStr? && sep !in Iterate(scode).value[i].s
    ensures JoinResult(scode, [sep]).Ok?
    ensures Split(JoinResult(scode, [sep]).value.s, sep) == Texts(Iterate(scode).value)
  {
    JoinSplitRoundTrip(Texts(Iterate(scode).value), sep);
  }

  lemma {:induction false} JoinSplitRoundTrip(parts: seq<string>, sep: char)
    requires parts != [] && forall i :: 0 <= i < |parts| ==> sep !in parts[i]
    ensures Split(Join(parts, [sep]), sep) == parts
    decreases |parts|
  {
    if |parts| == 1 {
      assert Find(parts[0], sep).None?;
    } else {
      var tail := parts[1..];
      assert forall i :: 0 <= i < |tail| ==> tail[i] == parts[i + 1];
      JoinSplitRoundTrip(tail, sep);
      JoinSplitCons(parts[0], tail, sep);
      assert [parts[0]] + tail == parts;
    }
  }

  /** One more part in front of a joined text that splits back. */
  lemma JoinSplitCons(head: string, tail: seq<string>, sep: char)
    requires tail != [] && sep !in head && Split(Join(tail, [sep]), sep) == tail
    ensures Split(Join([head] + tail, [sep]), sep) == [head] + tail
  {
    var parts := [head] + tail;
    assert parts[0] == head && parts[1..] == tail;
    var rest := Join(tail, [sep]);
    var s := head + [sep] + rest;
    assert Join(parts, [sep]) == s;
    FindAfter(head, sep, rest);
    SplitAt(s, sep, |head|);
    assert s[..|head|] == head && s[|head| + 1..] == rest;
  }

  lemma SplitAt(s: string, sep: char, k: nat)
    requires Find(s, sep) == Some(k)
    ensures k < |s| && Split(s, sep) == [s[..k]] + Split(s[k + 1..], sep)
  {
  }

  /** The first `c` in `a + [c] + b` is right after `a` when `a` has none. */
  lemma {:induction false} FindAfter(a: string, c: char, b: string)
    requires c !in a
    ensures Find(a + [c] + b, c) == Some(|a|)
    decreases |a|
  {
    if a != [] {
      assert (a + [c] + b)[1..] == a[1..] + [c] + b;
      FindAfter(a[1..], c, b);
    }
  }

  /** `SimpleParser.parse(scode, args_chain, join_with, default)`: the loop
      reassigns `scode` step by step, then the result is joined. */
  method Parse(libs: Libs, scode: Value, chain: seq<Step>, joinWith: string, default: Value) returns (r: Result<Value>)
    ensures r == match RunChain(libs, scode, chain, default)
                 case Err(e) => Err(e)
                 case Ok(v) => JoinResult(v, joinWith)
  {
    var current := scode;
    var i := 0;
    while i < |chain|
      invariant 0 <= i <= |chain|
      invariant RunChain(libs, scode, chain, default) == RunChain(libs, current, chain[i..], default)
    {
      var next := RunStep(libs, current, chain[i], default);
      ChainStep(libs, current, chain[i..], default, next);
      assert chain[i..][1..] == chain[i + 1..];
      if next.Err? {
        return Err(next.error);
      }
      current := next.value;
      i := i + 1;
    }
    assert chain[i..] == [];
    r := JoinResult(current, joinWith);
  }
}
