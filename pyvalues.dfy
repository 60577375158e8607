/** Python values, exceptions and the small pieces of str/int behaviour that the
    torequests core relies on, modelled as plain datatypes and functions. */
module PyValues {

  datatype Option<+T> = None | Some(value: T) {
    function GetOr(default: T): T {
      match this
      case Some(v) => v
      case None => default
    }
  }

  newtype byte = x: int | 0 <= x < 256

  /** An exception object: its class name, the names of the classes it derives
      from, and the repr text of each element of its `args` tuple. */
  datatype Exc = Exc(cls: string, bases: set<string>, args: seq<string>)

  /** `isinstance(e, C)` for a class name `C`. */
  predicate IsInstance(e: Exc, c: string) {
    c == e.cls || c in e.bases
  }

  /** A builtin exception raised with one message argument. */
  function Builtin(cls: string, message: string): (e: Exc)
    ensures e.cls == cls && IsInstance(e, "Exception")
  {
    Exc(cls, {"Exception", "BaseException"}, ["'" + message + "'"])
  }

  /** A call that either returns a value or raises. */
  datatype Result<+T> = Ok(value: T) | Err(error: Exc) {
    predicate IsFailure() { Err? }
    function PropagateFailure<U>(): Result<U>
      requires Err?
    {
      Err(error)
    }
    function Extract(): T
      requires Ok?
    {
      value
    }
  }

  /** The Python objects that flow through the parser chain and request
      keyword arguments. `VList` stands for lists and tuples, `VIter` for lazy
      iterators such as a `map` object, `VDict` for an insertion-ordered dict. */
  datatype Value =
    | VNone
    | VBool(b: bool)
    | VInt(i: int)
    | VStr(s: string)
    | VBytes(bytes: seq<byte>)
    | VList(items: seq<Value>)
    | VDict(entries: seq<(Value, Value)>)
    | VIter(items: seq<Value>)
    | VTimeout(connect: Value, read: Value)
    | VObject(id: int)

  /** `bool(v)`: empty containers, zero, None and False are falsy; iterators
      and other objects are always truthy. */
  predicate Truthy(v: Value) {
    match v
    case VNone => false
    case VBool(b) => b
    case VInt(i) => i != 0
    case VStr(s) => s != []
    case VBytes(b) => b != []
    case VList(xs) => xs != []
    case VDict(es) => es != []
    case VIter(_) => true
    case VTimeout(_, _) => true
    case VObject(_) => true
  }

  /** `isinstance(v, (str, bytes, bytearray))`. */
  predicate IsStringLike(v: Value) {
    v.VStr? || v.VBytes?
  }

  /** `hasattr(v, '__iter__')`. */
  predicate IsIterable(v: Value) {
    v.VStr? || v.VBytes? || v.VList? || v.VDict? || v.VIter?
  }

  function DictKeys(es: seq<(Value, Value)>): (ks: seq<Value>)
    ensures |ks| == |es| && forall i :: 0 <= i < |es| ==> ks[i] == es[i].0
  {
    seq(|es|, i requires 0 <= i < |es| => es[i].0)
  }

  /** `list(v)`: what iterating over `v` yields, or the TypeError Python raises. */
  function Iterate(v: Value): (r: Result<seq<Value>>)
    ensures r.Ok? <==> IsIterable(v)
    ensures v.VList? || v.VIter? ==> r == Ok(v.items)
    ensures v.VStr? ==> r.Ok? && |r.value| == |v.s| && forall i :: 0 <= i < |v.s| ==> r.value[i] == VStr([v.s[i]])
  {
    match v
    case VStr(s) => Ok(seq(|s|, i requires 0 <= i < |s| => VStr([s[i]])))
    case VBytes(b) => Ok(seq(|b|, i requires 0 <= i < |b| => VInt(b[i] as int)))
    case VList(xs) => Ok(xs)
    case VIter(xs) => Ok(xs)
    case VDict(es) => Ok(DictKeys(es))
    case _ => Err(Builtin("TypeError", "object is not iterable"))
  }

  /** Decimal digits of a natural number, as `str(n)` prints them. */
  function DecimalDigits(n: nat): (s: string)
    ensures |s| >= 1
    ensures forall i :: 0 <= i < |s| ==> '0' <= s[i] <= '9'
  {
    if n < 10 then [Digit(n)] else DecimalDigits(n / 10) + [Digit(n % 10)]
  }

  function Digit(d: nat): (c: char)
    requires d < 10
    ensures '0' <= c <= '9' && (c as int) - ('0' as int) == d
  {
    (('0' as int) + d) as char
  }

  /** `str(i)` for an integer. */
  function IntRepr(i: int): (s: string)
    ensures |s| >= 1
  {
    if i < 0 then "-" + DecimalDigits(-i) else DecimalDigits(i)
  }

  /** How `format`/`%s` prints an optional integer (None prints as "None"). */
  function OptIntRepr(o: Option<int>): string {
    match o
    case None => "None"
    case Some(i) => IntRepr(i)
  }

  /** repr of a tuple whose elements have the given repr texts: "()",
      "(a,)" or "(a, b)". */
  function TupleRepr(items: seq<string>): (s: string)
    ensures |s| >= 2 && s[0] == '(' && s[|s| - 1] == ')'
  {
    if |items| == 1 then "(" + items[0] + ",)" else "(" + Join(items, ", ") + ")"
  }

  function Join(items: seq<string>, sep: string): string {
    if items == [] then "" else if |items| == 1 then items[0] else items[0] + sep + Join(items[1..], sep)
  }

  /** The characters `str.isspace()` accepts, which `str.strip()` removes:
      the ASCII controls tab to carriage return and the file, group, record
      and unit separators, space, next line, no-break space, and the
      Unicode space separators. */
  predicate IsSpace(c: char) {
    || '\U{9}' <= c <= '\U{d}'
    || '\U{1c}' <= c <= '\U{20}'
    || c == '\U{85}' || c == '\U{a0}' || c == '\U{1680}'
    || '\U{2000}' <= c <= '\U{200a}'
    || c == '\U{2028}' || c == '\U{2029}' || c == '\U{202f}' || c == '\U{205f}' || c == '\U{3000}'
  }

  function StripLeft(s: string): (r: string)
    ensures |r| <= |s| && r == s[|s| - |r|..]
    ensures r == [] || !IsSpace(r[0])
  {
    if s != [] && IsSpace(s[0]) then StripLeft(s[1..]) else s
  }

  function StripRight(s: string): (r: string)
    ensures |r| <= |s| && r == s[..|r|]
    ensures r == [] || !IsSpace(r[|r| - 1])
  {
    if s != [] && IsSpace(s[|s| - 1]) then StripRight(s[..|s| - 1]) else s
  }

  /** `s.strip()`: no leading or trailing whitespace is left, and what is left
      is a contiguous piece of `s`. */
  function Strip(s: string): (r: string)
    ensures r == [] || (!IsSpace(r[0]) && !IsSpace(r[|r| - 1]))
    ensures exists i, j :: 0 <= i <= j <= |s| && r == s[i..j]
  {
    var l := StripLeft(s);
    var r := StripRight(l);
    assert r == s[|s| - |l|..][..|r|] == s[|s| - |l|..|s| - |l| + |r|];
    r
  }

  /** ASCII `str.lower()`. */
  function Lower(s: string): (r: string)
    ensures |r| == |s|
    ensures forall i :: 0 <= i < |s| ==> !('A' <= r[i] <= 'Z')
  {
    seq(|s|, i requires 0 <= i < |s| =>
      if 'A' <= s[i] <= 'Z' then ((s[i] as int) + 32) as char else s[i])
  }

  /** Index of the first occurrence of `c` in `s`, if any. */
  function Find(s: string, c: char): (r: Option<nat>)
    ensures r.Some? ==> r.value < |s| && s[r.value] == c && c !in s[..r.value]
    ensures r.None? ==> c !in s
  {
    if s == [] then None
    else if s[0] == c then Some(0)
    else match Find(s[1..], c)
      case None => None
      case Some(k) => Some(k + 1)
  }

  /** `s.split(sep)` for a one-character separator. */
  function Split(s: string, sep: char): (parts: seq<string>)
    ensures |parts| >= 1
    ensures forall i :: 0 <= i < |parts| ==> sep !in parts[i]
    decreases |s|
  {
    match Find(s, sep)
    case None => [s]
    case Some(k) => [s[..k]] + Split(s[k + 1..], sep)
  }

  lemma {:induction false} SplitJoin(s: string, sep: char)
    ensures Join(Split(s, sep), [sep]) == s
    decreases |s|
  {
    match Find(s, sep)
    case None =>
    case Some(k) =>
      var rest := Split(s[k + 1..], sep);
      var parts := [s[..k]] + rest;
      assert Split(s, sep) == parts;
      assert parts[1..] == rest && |parts| > 1;
      assert Join(parts, [sep]) == s[..k] + [sep] + Join(rest, [sep]);
      SplitJoin(s[k + 1..], sep);
      assert s == s[..k] + [sep] + s[k + 1..];
  }
}
