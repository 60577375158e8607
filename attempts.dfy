/** The bounded retry loop that `retry` (torequests/_py3_patch.py),
    `tPool.request` (torequests/main.py) and the two `Requests._request`
    coroutines (torequests/dummy.py, torequests/aiohttp_dummy.py) share:

        for _ in range(tries):
            try: return attempt()
            except <caught classes> as err: error = err

    The attempts are an oracle: `calls(i)` is what the i-th attempt does. */
module Attempts {

  import opened PyValues
  import opened Exceptions

  /** What one call does: return a value or raise. */
  datatype Outcome = Returns(value: Value) | Raises(error: Exc)

  /** `except (C1, C2, ...)` matches `e`. */
  predicate Caught(e: Exc, catches: seq<string>) {
    exists i :: 0 <= i < |catches| && IsInstance(e, catches[i])
  }

  predicate CaughtRaise(o: Outcome, catches: seq<string>) {
    o.Raises? && Caught(o.error, catches)
  }

  /** The first k attempts all raised an exception the loop catches. */
  predicate AllCaught(calls: nat -> Outcome, catches: seq<string>, k: nat) {
    forall j :: 0 <= j < k ==> CaughtRaise(calls(j), catches)
  }

  /** How the loop ends, and after how many attempts. */
  datatype Ending =
    | Success(value: Value, attempts: nat)  // an attempt returned
    | Escaped(error: Exc, attempts: nat)    // an attempt raised something not caught
    | Exhausted(last: Exc, attempts: nat)   // every attempt raised and was caught
    | NeverTried                            // `range(tries)` was empty

  function RunFrom(calls: nat -> Outcome, catches: seq<string>, tries: nat, i: nat, last: Option<Exc>): Ending
    requires i <= tries
    decreases tries - i
  {
    if i == tries then
      if last.Some? then Exhausted(last.value, i) else NeverTried
    else
      match calls(i)
      case Returns(v) => Success(v, i + 1)
      case Raises(e) =>
        if Caught(e, catches) then RunFrom(calls, catches, tries, i + 1, Some(e)) else Escaped(e, i + 1)
  }

  /** The loop for `range(tries)`; a count below one runs no attempt. */
  function Run(calls: nat -> Outcome, catches: seq<string>, tries: int): Ending {
    if tries <= 0 then NeverTried else RunFrom(calls, catches, tries, 0, None)
  }

  /** What a loop started after i caught attempts ends with. */
  lemma {:induction false} RunFromSpec(calls: nat -> Outcome, catches: seq<string>, tries: nat, i: nat, last: Option<Exc>)
    requires i <= tries && AllCaught(calls, catches, i)
    requires i == 0 ==> last.None?
    requires i > 0 ==> last == Some(calls(i - 1).error)
    ensures var r := RunFrom(calls, catches, tries, i, last);
      && (r.Success? ==> i < r.attempts <= tries && calls(r.attempts - 1) == Returns(r.value) && AllCaught(calls, catches, r.attempts - 1))
      && (r.Escaped? ==> i < r.attempts <= tries && calls(r.attempts - 1) == Raises(r.error) && !Caught(r.error, catches)
                         && AllCaught(calls, catches, r.attempts - 1))
      && (r.Exhausted? ==> 0 < r.attempts == tries && AllCaught(calls, catches, tries) && r.last == calls(tries - 1).error)
      && (r.NeverTried? ==> tries == 0)
    decreases tries - i
  {
    if i < tries && CaughtRaise(calls(i), catches) {
      RunFromSpec(calls, catches, tries, i + 1, Some(calls(i).error));
    }
  }

  /** The loop's result, described without the loop: at most `tries`
      attempts; it stops at the first attempt that returns (that value) or
      raises something uncaught (that error, raised at once); when every
      attempt is caught the last error is kept; with no attempt at all
      there is none. */
  lemma RunSpec(calls: nat -> Outcome, catches: seq<string>, tries: int)
    ensures var r := Run(calls, catches, tries);
      && (r.Success? ==> 1 <= r.attempts <= tries && calls(r.attempts - 1) == Returns(r.value) && AllCaught(calls, catches, r.attempts - 1))
      && (r.Escaped? ==> 1 <= r.attempts <= tries && calls(r.attempts - 1) == Raises(r.error) && !Caught(r.error, catches)
                         && AllCaught(calls, catches, r.attempts - 1))
      && (r.Exhausted? ==> r.attempts == tries && AllCaught(calls, catches, tries) && r.last == calls(tries - 1).error)
      && (r.NeverTried? <==> tries <= 0)
  {
    if tries > 0 {
      RunFromSpec(calls, catches, tries, 0, None);
    }
  }

  /** When every one of a positive number of attempts is caught, the loop
      runs out, keeping the last error. */
  lemma AllFail(calls: nat -> Outcome, catches: seq<string>, tries: int)
    requires tries > 0 && AllCaught(calls, catches, tries)
    ensures Run(calls, catches, tries) == Exhausted(calls(tries - 1).error, tries)
  {
    RunSpec(calls, catches, tries);
  }

  /** A first attempt that returns is the answer, whatever comes later. */
  lemma FirstSuccess(calls: nat -> Outcome, catches: seq<string>, tries: int)
    requires tries > 0 && calls(0).Returns?
    ensures Run(calls, catches, tries) == Success(calls(0).value, 1)
  {
  }

  /** What a retried request coroutine ends in: a response, a fresh
      FailureException handed back or raised, or an error raised as is. */
  datatype Reply =
    | Response(response: Value)
    | Failure(failure: FailureException)
    | RaisedFailure(failure: FailureException)
    | RaisedError(error: Exc)
}
