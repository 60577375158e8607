/** torequests/exceptions.py: the falsy, non-callable `CommonException` and
    `FailureException`, which wraps an error exactly once. */
module Exceptions {

  import opened PyValues
  import opened Dicts

  /** A `CommonException` (or a subclass such as `ImportErrorModule`,
      named by `cls`) carrying the `str` of its `name`. */
  datatype CommonException = CommonException(cls: string, name: string) {

    /** `__bool__` / `__nonzero__`. */
    predicate Truthy()
      ensures !Truthy()
    {
      false
    }

    /** `"%s: %s" % (class name, name)`. */
    function Str(): (s: string)
      ensures |s| == |cls| + |name| + 2
      ensures s[..|cls|] == cls && s[|cls|..|cls| + 2] == ": " && s[|cls| + 2..] == name
    {
      cls + ": " + name
    }

    /** `"%s('%s',)" % (class name, name)`. */
    function Repr(): (s: string)
      ensures |s| == |cls| + |name| + 5
      ensures s[..|cls|] == cls && s[|cls|..|cls| + 2] == "('" && s[|cls| + 2..|s| - 3] == name && s[|s| - 3..] == "',)"
    {
      cls + "('" + name + "',)"
    }

    /** `__call__` raises TypeError naming the instance by its repr. */
    function Call(args: seq<Value>): (r: Result<Value>)
      ensures r.Err? && r.error.cls == "TypeError"
      ensures r.error == Builtin("TypeError", Repr() + " object is not callable")
    {
      Err(Builtin("TypeError", Repr() + " object is not callable"))
    }
  }

  /** Two exceptions of one class with the same repr carry the same name:
      the repr determines the name. */
  lemma ReprDeterminesName(a: CommonException, b: CommonException)
    requires a.cls == b.cls && a.Repr() == b.Repr()
    ensures a.name == b.name
  {
    assert a.name == a.Repr()[|a.cls| + 2..|a.Repr()| - 3];
    assert b.name == b.Repr()[|b.cls| + 2..|b.Repr()| - 3];
  }

  /** `name or self.error.__class__.__name__`. */
  function FailureName(error: Exc, name: Option<string>): (r: string)
    ensures name.Some? && name.value != [] ==> r == name.value
    ensures name.None? || name.value == [] ==> r == error.cls
  {
    if name.Some? && name.value != [] then name.value else error.cls
  }

  /** What `FailureException(...)` is given: an existing instance or any
      other error. */
  datatype WrapArg = Wrapped(failure: FailureException) | Plain(error: Exc)

  class FailureException {
    /** The original error; never itself a FailureException. */
    var error: Exc
    var name: string
    var ok: bool
    /** The `request` attribute a request session attaches after a failure. */
    var request: Option<Dict<Value>>

    /** `__new__` + `__init__` on a plain error. */
    constructor Create(error: Exc, name: Option<string>)
      ensures this.error == error && this.name == FailureName(error, name)
      ensures !ok && request.None?
    {
      this.error := error;
      this.name := FailureName(error, name);
      this.ok := false;
      this.request := None;
    }

    /** `__init__` run again on an instance that `__new__` handed back: the
        error stays the original one, the name is recomputed (a previous
        custom name is lost when none is given) and other attributes, which
        live in the shared `__dict__`, are kept. */
    method Reinit(name: Option<string>)
      modifies this
      ensures error == old(error) && this.name == FailureName(error, name)
      ensures !ok && request == old(request)
    {
      this.name := FailureName(error, name);
      this.ok := false;
    }

    /** `FailureException(arg, name)`: an existing instance comes back as the
        same object, re-initialised; anything else is wrapped in a fresh one. */
    static method Wrap(arg: WrapArg, name: Option<string>) returns (f: FailureException)
      modifies if arg.Wrapped? then {arg.failure} else {}
      ensures arg.Wrapped? ==> f == arg.failure && f.error == old(arg.failure.error) && f.request == old(arg.failure.request)
      ensures arg.Plain? ==> fresh(f) && f.error == arg.error && f.request.None?
      ensures f.name == FailureName(f.error, name) && !f.ok
    {
      if arg.Wrapped? {
        arg.failure.Reinit(name);
        f := arg.failure;
      } else {
        f := new FailureException.Create(arg.error, name);
      }
    }

    predicate Truthy()
      reads this
      ensures !Truthy()
    {
      false
    }

    /** `"%s: %s%s" % (class name, name, error.args)`. */
    function Str(): (s: string)
      reads this
      ensures s == "FailureException: " + name + TupleRepr(error.args)
      ensures s[|s| - 1] == ')'
    {
      "FailureException: " + name + TupleRepr(error.args)
    }

    function Repr(): (s: string)
      reads this
      ensures s == "<FailureException [" + name + "]>"
    {
      "<FailureException [" + name + "]>"
    }

    /** The `text` property is `str(self)`, so it starts with
        'FailureException'. */
    function Text(): (s: string)
      reads this
      ensures s == Str()
      ensures |s| >= 16 && s[..16] == "FailureException"
    {
      Str()
    }

    /** Inherited `__call__`. */
    function Call(args: seq<Value>): (r: Result<Value>)
      reads this
      ensures r.Err? && r.error.cls == "TypeError"
    {
      Err(Builtin("TypeError", Repr() + " object is not callable"))
    }
  }

  /** Wrapping the same error twice: the second call returns the first
      object, still wrapping the original error. */
  method WrapTwice(e: Exc, name: Option<string>) returns (first: FailureException, second: FailureException)
    ensures second == first && second.error == e && second.name == FailureName(e, None)
  {
    first := FailureException.Wrap(Plain(e), name);
    second := FailureException.Wrap(Wrapped(first), None);
  }
}
