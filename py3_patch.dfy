/** torequests/_py3_patch.py: the synchronous branch of the `retry`
    decorator and the status predicates and cached encoding of
    `NewResponse`. */
module Py3Patch {

  import opened PyValues
  import opened Attempts

  /** What a decorated call ends in: a value, the caught error handed back
      as a value, or an exception raised to the caller. */
  datatype Completion = Returned(value: Value) | ReturnedError(error: Exc) | Raised(error: Exc)

  /** Reading `error` when `range(tries)` ran no attempt. */
  function Unbound(): (e: Exc)
    ensures e.cls == "UnboundLocalError"
  {
    Builtin("UnboundLocalError", "local variable 'error' referenced before assignment")
  }

  /** How `retry_sync` turns the end of its loop into a completion. */
  function RetryCompletion(end: Ending, catchException: bool): (c: Completion)
    ensures end.Success? ==> c == Returned(end.value)
    ensures end.Escaped? ==> c == Raised(end.error)
    ensures end.Exhausted? ==> c == (if catchException then ReturnedError(end.last) else Raised(end.last))
    ensures end.NeverTried? ==> c == Raised(Unbound())
  {
    match end
    case Success(v, _) => Returned(v)
    case Escaped(e, _) => Raised(e)
    case Exhausted(e, _) => if catchException then ReturnedError(e) else Raised(e)
    case NeverTried => Raised(Unbound())
  }

  /** `retry(tries, exceptions, catch_exception)(function)(...)` for a
      synchronous function whose i-th call does `calls(i)`. */
  method RetrySync(calls: nat -> Outcome, tries: int, exceptions: seq<string>, catchException: bool)
    returns (c: Completion)
    ensures c == RetryCompletion(Run(calls, exceptions, tries), catchException)
  {
    var bound: nat := if tries <= 0 then 0 else tries;
    var i: nat := 0;
    var error: Option<Exc> := None;
    while i < bound
      invariant i <= bound
      invariant i == 0 <==> error.None?
      invariant tries > 0 ==> Run(calls, exceptions, tries) == RunFrom(calls, exceptions, bound, i, error)
    {
      var o := calls(i);
      if o.Returns? {
        return Returned(o.value);
      }
      if !Caught(o.error, exceptions) {
        return Raised(o.error);
      }
      error := Some(o.error);
      i := i + 1;
    }
    if error.None? {
      return Raised(Unbound());
    }
    if catchException {
      return ReturnedError(error.value);
    }
    return Raised(error.value);
  }

  /** A retried function that keeps failing the same caught way hands back
      (or raises) the error of its last attempt. */
  lemma RetryAllFail(calls: nat -> Outcome, tries: int, exceptions: seq<string>, catchException: bool)
    requires tries > 0 && AllCaught(calls, exceptions, tries)
    ensures var e := calls(tries - 1).error;
      RetryCompletion(Run(calls, exceptions, tries), catchException) == if catchException then ReturnedError(e) else Raised(e)
  {
    AllFail(calls, exceptions, tries);
  }

  /** An error outside `exceptions` in the first attempt is raised at once,
      even with `catch_exception` set. */
  lemma RetryUncaught(calls: nat -> Outcome, tries: int, exceptions: seq<string>, catchException: bool)
    requires tries > 0 && calls(0).Raises? && !Caught(calls(0).error, exceptions)
    ensures RetryCompletion(Run(calls, exceptions, tries), catchException) == Raised(calls(0).error)
  {
  }

  /** `NewResponse`: an aiohttp response with a status, its headers and the
      lazily computed `_encoding`. */
  class NewResponse {
    const status: int
    const headers: seq<(string, string)>
    var encodingCache: Option<string>

    constructor (status: int, headers: seq<(string, string)>)
      ensures this.status == status && this.headers == headers && encodingCache.None?
    {
      this.status := status;
      this.headers := headers;
      this.encodingCache := None;
    }

    /** `status in range(200, 400)`. */
    predicate Ok()
      reads this
      ensures Ok() <==> 200 <= status < 400
    {
      200 <= status < 400
    }

    /** `__bool__` is `ok`. */
    predicate Truthy()
      reads this
      ensures Truthy() <==> Ok()
    {
      Ok()
    }

    /** `"location" in self.headers` (header names compare case-insensitively). */
    predicate HasLocation()
      reads this
    {
      exists i :: 0 <= i < |headers| && Lower(headers[i].0) == "location"
    }

    /** `is_redirect`. */
    predicate IsRedirect()
      reads this
      ensures IsRedirect() <==> HasLocation() && 300 <= status < 400
    {
      HasLocation() && 300 <= status < 400
    }

    /** `__repr__`. */
    function Repr(): (s: string)
      reads this
      ensures s == "<NewResponse [" + IntRepr(status) + "]>"
    {
      "<NewResponse [" + IntRepr(status) + "]>"
    }

    /** Reading `encoding`: a missing or empty cached value is replaced by
        what `get_encoding()` returns now (`detected`). */
    method Encoding(detected: Option<string>) returns (enc: Option<string>)
      modifies this
      ensures old(encodingCache).Some? && old(encodingCache).value != [] ==> enc == old(encodingCache) && encodingCache == old(encodingCache)
      ensures old(encodingCache).None? || old(encodingCache).value == [] ==> enc == detected && encodingCache == detected
    {
      if encodingCache.None? || encodingCache.value == [] {
        encodingCache := detected;
      }
      enc := encodingCache;
    }

    /** Assigning `encoding`. */
    method SetEncoding(e: Option<string>)
      modifies this
      ensures encodingCache == e
    {
      encodingCache := e;
    }
  }

  /** A redirect is always a truthy response. */
  lemma RedirectIsOk(r: NewResponse)
    requires r.IsRedirect()
    ensures r.Truthy()
  {
  }

  /** Once an encoding has been read and was non-empty, a second read
      returns it again, whatever `get_encoding()` would say then. */
  method EncodingCached(r: NewResponse, first: Option<string>, second: Option<string>) returns (a: Option<string>, b: Option<string>)
    modifies r
    ensures a.Some? && a.value != [] ==> b == a
  {
    a := r.Encoding(first);
    b := r.Encoding(second);
  }
}
