/** torequests/aiohttp_dummy.py: the lite `Requests` wrapper around an
    aiohttp session: validator-driven retry, the failure value, callbacks,
    `head`'s default and closing. */
module AiohttpDummy {

  import opened PyValues
  import opened Dicts
  import opened Attempts
  import opened Exceptions

  /** The default `retry_exceptions`. */
  const RETRY_EXCEPTIONS: seq<string> := ["ClientError", "Error", "TimeoutError", "ValidationError"]

  /** `ValidationError(response_validator.__name__)`. */
  function ValidationFailed(validatorName: string): (e: Exc)
    ensures e.cls == "ValidationError" && Caught(e, RETRY_EXCEPTIONS)
  {
    var e := Builtin("ValidationError", validatorName);
    assert IsInstance(e, RETRY_EXCEPTIONS[3]);
    e
  }

  /** The `error = Exception()` the loop starts with. */
  function InitialError(): Exc {
    Exc("Exception", {"BaseException"}, [])
  }

  /** The validator lets the response through: there is none, or its
      (awaited) verdict is truthy. */
  predicate Accepts(validator: Option<Value -> Outcome>, resp: Value) {
    validator.None? || (validator.value(resp).Returns? && Truthy(validator.value(resp).value))
  }

  /** One pass of the loop body: the session request (`response`); then the
      validator, whose falsy verdict raises ValidationError; only then, for
      an accepted response, `await resp.read()` and `resp.release()`, where
      `read(resp)` is the error reading the body raises, if any. */
  function AttemptOutcome(response: Outcome, validator: Option<Value -> Outcome>, validatorName: string,
                          read: Value -> Option<Exc>): (o: Outcome)
    ensures response.Raises? ==> o == response
    ensures response.Returns? && validator.Some? && validator.value(response.value).Raises? ==>
              o == validator.value(response.value)
    ensures response.Returns? && !Accepts(validator, response.value) && validator.value(response.value).Returns? ==>
              o == Raises(ValidationFailed(validatorName))
    ensures response.Returns? && Accepts(validator, response.value) ==>
              o == if read(response.value).Some? then Raises(read(response.value).value) else response
  {
    if response.Raises? then response
    else
      var verdict := if validator.None? then Returns(VBool(true)) else validator.value(response.value);
      match verdict
      case Raises(e) => Raises(e)
      case Returns(v) =>
        if !Truthy(v) then Raises(ValidationFailed(validatorName))
        else if read(response.value).Some? then Raises(read(response.value).value)
        else response
  }

  function Validated(calls: nat -> Outcome, validator: Option<Value -> Outcome>, validatorName: string,
                     read: Value -> Option<Exc>): nat -> Outcome {
    (i: nat) => AttemptOutcome(calls(i), validator, validatorName, read)
  }

  /** The error a FailureException is built from when the loop ends
      without success. */
  function LastError(end: Ending): Exc
    requires end.Exhausted? || end.NeverTried?
  {
    if end.Exhausted? then end.last else InitialError()
  }

  /** What calling the callback does: it returns a plain value, returns an
      awaitable whose awaited outcome is given, or raises. */
  datatype CallbackValue = PlainValue(value: Value) | Awaitable(awaited: Outcome) | CallbackRaised(raised: Exc)

  /** What `request` ends in. */
  datatype Delivery =
    | Delivered(reply: Reply)     // no callback: the `_request` result itself
    | CallbackGave(value: Value)  // the callback's (awaited) value
    | Propagated(error: Exc)      // `_request` or the callback raised
    | PropagatedFailure(failure: FailureException)  // `_request` raised its failure

  class Requests {
    const catchException: bool
    const retryExceptions: seq<string>
    /** Whether `self.session` was ever set. */
    const hasSession: bool
    var sessionClosed: bool

    /** The object left behind when `__init__` raises before a session is set. */
    constructor Partial(catchException: bool)
      ensures !hasSession && this.catchException == catchException && !sessionClosed
    {
      this.catchException := catchException;
      this.retryExceptions := RETRY_EXCEPTIONS;
      this.hasSession := false;
      this.sessionClosed := false;
    }

    constructor Ready(catchException: bool, retryExceptions: seq<string>, sessionClosed: bool)
      ensures hasSession && this.catchException == catchException && this.retryExceptions == retryExceptions
      ensures this.sessionClosed == sessionClosed
    {
      this.catchException := catchException;
      this.retryExceptions := retryExceptions;
      this.hasSession := true;
      this.sessionClosed := sessionClosed;
    }

    /** `Requests(session, catch_exception, retry_exceptions)`: refused with
        RuntimeError unless an event loop is running; otherwise the given
        session (its closed state) or a new open one. */
    static method Create(loopRunning: bool, givenSessionClosed: Option<bool>, catchException: bool, retryExceptions: seq<string>)
      returns (r: Result<Requests>)
      ensures !loopRunning ==> r.Err? && r.error.cls == "RuntimeError"
      ensures loopRunning ==> r.Ok? && fresh(r.value) && r.value.hasSession
      ensures loopRunning ==> r.value.catchException == catchException && r.value.retryExceptions == retryExceptions
      ensures loopRunning ==> r.value.sessionClosed == givenSessionClosed.GetOr(false)
    {
      if !loopRunning {
        return Err(Builtin("RuntimeError", "Please init Requests in a running loop."));
      }
      var q := new Requests.Ready(catchException, retryExceptions, givenSessionClosed.GetOr(false));
      return Ok(q);
    }

    /** The `closed` property. */
    predicate Closed()
      reads this
      ensures !hasSession ==> Closed()
      ensures hasSession ==> (Closed() <==> sessionClosed)
    {
      !hasSession || sessionClosed
    }

    /** `close()`: True at once when already closed; otherwise the session's
        close, whose None comes back (also when it fails and is logged). */
    method Close(closeFails: bool) returns (r: Value)
      modifies this
      ensures old(Closed()) ==> r == VBool(true) && sessionClosed == old(sessionClosed)
      ensures !old(Closed()) ==> r == VNone && sessionClosed == !closeFails
    {
      if Closed() {
        return VBool(true);
      }
      if !closeFails {
        sessionClosed := true;
      }
      return VNone;
    }

    /** `_request(...)`: the i-th session request does `calls(i)`, and
        reading a response's body does `read`. */
    method Request(calls: nat -> Outcome, retry: int, validator: Option<Value -> Outcome>, validatorName: string,
                   read: Value -> Option<Exc>)
      returns (r: Reply)
      ensures var end := Run(Validated(calls, validator, validatorName, read), retryExceptions, retry + 1);
        && (end.Success? ==> r == Response(end.value))
        && (end.Escaped? ==> r == RaisedError(end.error))
        && (!end.Success? && !end.Escaped? && catchException ==>
              r.Failure? && fresh(r.failure) && r.failure.error == LastError(end) && r.failure.name == LastError(end).cls)
        && (!end.Success? && !end.Escaped? && !catchException ==>
              r.RaisedFailure? && fresh(r.failure) && r.failure.error == LastError(end) && r.failure.name == LastError(end).cls)
    {
      var attempt := Validated(calls, validator, validatorName, read);
      var error := InitialError();
      var last: Option<Exc> := None;
      var i := 0;
      var bound: nat := if retry + 1 <= 0 then 0 else retry + 1;
      while i < bound
        invariant i <= bound
        invariant i == 0 <==> last.None?
        invariant last.None? ==> error == InitialError()
        invariant last.Some? ==> error == last.value
        invariant retry + 1 > 0 ==> Run(attempt, retryExceptions, retry + 1) == RunFrom(attempt, retryExceptions, bound, i, last)
      {
        var outcome := attempt(i);
        if outcome.Returns? {
          return Response(outcome.value);
        }
        if !Caught(outcome.error, retryExceptions) {
          return RaisedError(outcome.error);
        }
        error := outcome.error;
        last := Some(error);
        i := i + 1;
      }
      var failure := FailureException.Wrap(Plain(error), None);
      if catchException {
        return Failure(failure);
      }
      return RaisedFailure(failure);
    }
  }

  /** `request(...)`: `_request`, then the callback, if any, on whatever it
      returned, failure values included; an awaitable callback result is
      awaited, and an exception the callback or the awaited value raises
      propagates. */
  function Deliver(r: Reply, callback: Option<Reply -> CallbackValue>): (d: Delivery)
    ensures r.RaisedError? ==> d == Propagated(r.error)
    ensures r.RaisedFailure? ==> d == PropagatedFailure(r.failure)
    ensures (r.Response? || r.Failure?) && callback.None? ==> d == Delivered(r)
    ensures (r.Response? || r.Failure?) && callback.Some? && callback.value(r).PlainValue? ==> d == CallbackGave(callback.value(r).value)
    ensures (r.Response? || r.Failure?) && callback.Some? && callback.value(r).Awaitable? ==>
              d == (if callback.value(r).awaited.Returns? then CallbackGave(callback.value(r).awaited.value)
                    else Propagated(callback.value(r).awaited.error))
    ensures (r.Response? || r.Failure?) && callback.Some? && callback.value(r).CallbackRaised? ==>
              d == Propagated(callback.value(r).raised)
  {
    if r.RaisedError? then Propagated(r.error)
    else if r.RaisedFailure? then PropagatedFailure(r.failure)
    else if callback.None? then Delivered(r)
    else
      match callback.value(r)
      case PlainValue(v) => CallbackGave(v)
      case Awaitable(o) => if o.Returns? then CallbackGave(o.value) else Propagated(o.error)
      case CallbackRaised(e) => Propagated(e)
  }

  /** A validator that rejects every response, with every request
      answering, ends in a failure wrapping ValidationError after
      retry + 1 attempts, whatever reading the bodies would have done. */
  lemma RejectingValidator(calls: nat -> Outcome, retry: int, validator: Value -> Outcome, validatorName: string,
                           read: Value -> Option<Exc>)
    requires retry >= 0
    requires forall i: nat :: calls(i).Returns? && validator(calls(i).value).Returns? && !Truthy(validator(calls(i).value).value)
    ensures Run(Validated(calls, Some(validator), validatorName, read), RETRY_EXCEPTIONS, retry + 1)
              == Exhausted(ValidationFailed(validatorName), retry + 1)
  {
    var attempt := Validated(calls, Some(validator), validatorName, read);
    assert AllCaught(attempt, RETRY_EXCEPTIONS, retry + 1) by {
      forall j | 0 <= j < retry + 1 ensures CaughtRaise(attempt(j), RETRY_EXCEPTIONS) {
        assert attempt(j) == Raises(ValidationFailed(validatorName));
      }
    }
    AllFail(attempt, RETRY_EXCEPTIONS, retry + 1);
    assert attempt(retry) == Raises(ValidationFailed(validatorName));
  }

  /** An accepted first response whose body reads is returned. */
  lemma AcceptingValidator(calls: nat -> Outcome, retry: int, validator: Value -> Outcome, validatorName: string,
                           read: Value -> Option<Exc>)
    requires retry >= 0 && calls(0).Returns?
    requires validator(calls(0).value).Returns? && Truthy(validator(calls(0).value).value)
    requires read(calls(0).value).None?
    ensures Run(Validated(calls, Some(validator), validatorName, read), RETRY_EXCEPTIONS, retry + 1) == Success(calls(0).value, 1)
  {
    var attempt := Validated(calls, Some(validator), validatorName, read);
    assert attempt(0) == calls(0);
  }

  /** A validator that raises something not retried ends the loop at once,
      before the body is read. */
  lemma ValidatorErrorEscapes(calls: nat -> Outcome, retry: int, validator: Value -> Outcome, validatorName: string,
                              read: Value -> Option<Exc>)
    requires retry >= 0 && calls(0).Returns?
    requires validator(calls(0).value).Raises? && !Caught(validator(calls(0).value).error, RETRY_EXCEPTIONS)
    ensures Run(Validated(calls, Some(validator), validatorName, read), RETRY_EXCEPTIONS, retry + 1)
              == Escaped(validator(calls(0).value).error, 1)
  {
    var attempt := Validated(calls, Some(validator), validatorName, read);
    assert attempt(0) == validator(calls(0).value);
  }

  /** `head(...)` passes `allow_redirects`, False unless given. */
  function HeadKwargs(kwargs: Dict<Value>, allowRedirects: Option<bool>): (r: Dict<Value>)
    ensures Get(r, "allow_redirects") == Some(VBool(allowRedirects.GetOr(false)))
    ensures forall k :: k != "allow_redirects" ==> Get(r, k) == Get(kwargs, k)
  {
    Set(kwargs, "allow_redirects", VBool(allowRedirects.GetOr(false)))
  }
}
