/** torequests/main.py: shutdown rejection in `Pool.submit`, the
    timeout-return policy of `NewFuture.x`, and the retry / fail_return
    rule and adapter size of `tPool`. */
module MainPool {

  import opened PyValues
  import opened Dicts
  import opened Attempts

  /** `timeout_return`: a callable (called with the future's arguments, and
      itself truthy or not, as the falsy `Null` is) or any other value. */
  datatype TimeoutReturn =
    | CallableReturn(call: (seq<Value>, Dict<Value>) -> Outcome, truthy: bool)
    | PlainReturn(value: Value)

  /** `not self._timeout_return`. */
  predicate Falsy(t: TimeoutReturn) {
    match t
    case CallableReturn(_, truthy) => !truthy
    case PlainReturn(v) => !Truthy(v)
  }

  /** What `self.result(self._timeout)` finds: the finished call's outcome,
      or a call still running when the timeout passes. */
  datatype Wait = Finished(outcome: Outcome) | StillRunning

  /** A future created by `Pool.submit`. */
  datatype NewFuture = NewFuture(timeout: Option<int>, timeoutReturn: TimeoutReturn, args: seq<Value>, kwargs: Dict<Value>)

  /** The `%s` text of the future's arguments, given how the positional
      tuple and the keyword dict print. */
  function TimeoutText(argsText: string, kwargsText: string): string {
    "TimeoutError: " + argsText + ", " + kwargsText
  }

  /** `x` once the policy applies (a TimeoutError was caught): a falsy
      `timeout_return` gives the text, a callable one is called, anything
      else is returned as is. */
  function TimeoutPolicy(f: NewFuture, argsText: string, kwargsText: string): (o: Outcome)
    ensures Falsy(f.timeoutReturn) ==> o == Returns(VStr(TimeoutText(argsText, kwargsText)))
    ensures !Falsy(f.timeoutReturn) && f.timeoutReturn.CallableReturn? ==> o == f.timeoutReturn.call(f.args, f.kwargs)
    ensures !Falsy(f.timeoutReturn) && f.timeoutReturn.PlainReturn? ==> o == Returns(f.timeoutReturn.value)
  {
    if Falsy(f.timeoutReturn) then Returns(VStr(TimeoutText(argsText, kwargsText)))
    else match f.timeoutReturn
      case CallableReturn(call, _) => call(f.args, f.kwargs)
      case PlainReturn(v) => Returns(v)
  }

  /** The `x` property: the result, with any TimeoutError (the wait timing
      out, or the call itself raising one) replaced by the policy. */
  function X(f: NewFuture, w: Wait, argsText: string, kwargsText: string): (o: Outcome)
    ensures w.Finished? && w.outcome.Returns? ==> o == w.outcome
    ensures w.Finished? && w.outcome.Raises? && !IsInstance(w.outcome.error, "TimeoutError") ==> o == w.outcome
    ensures w.StillRunning? ==> o == TimeoutPolicy(f, argsText, kwargsText)
    ensures w.Finished? && w.outcome.Raises? && IsInstance(w.outcome.error, "TimeoutError") ==> o == TimeoutPolicy(f, argsText, kwargsText)
  {
    if w.StillRunning? || (w.outcome.Raises? && IsInstance(w.outcome.error, "TimeoutError")) then
      TimeoutPolicy(f, argsText, kwargsText)
    else
      w.outcome
  }

  /** A queued call: its future, the function's name and its arguments. */
  datatype WorkItem = WorkItem(future: NewFuture, func: string, args: seq<Value>, kwargs: Dict<Value>)

  /** `Pool`: a thread pool whose futures share a timeout policy. */
  class Pool {
    const n: Option<int>
    const timeout: Option<int>
    const timeoutReturn: TimeoutReturn
    var shutdown: bool
    var queue: seq<WorkItem>

    constructor Init(n: Option<int>, timeout: Option<int>, timeoutReturn: TimeoutReturn)
      ensures this.n == n && this.timeout == timeout && this.timeoutReturn == timeoutReturn
      ensures !shutdown && queue == []
    {
      this.n := n;
      this.timeout := timeout;
      this.timeoutReturn := timeoutReturn;
      shutdown := false;
      queue := [];
    }

    /** `Pool(n, timeout, timeout_return)`: the executor refuses a worker
        count that is not positive; `None` leaves it at the executor's
        default. */
    static method Create(n: Option<int>, timeout: Option<int>, timeoutReturn: TimeoutReturn) returns (r: Result<Pool>)
      ensures n.Some? && n.value <= 0 ==> r.Err? && r.error.cls == "ValueError"
      ensures !(n.Some? && n.value <= 0) ==> r.Ok? && fresh(r.value)
      ensures r.Ok? ==> r.value.n == n && r.value.timeout == timeout && r.value.timeoutReturn == timeoutReturn
      ensures r.Ok? ==> !r.value.shutdown && r.value.queue == []
    {
      if n.Some? && n.value <= 0 {
        return Err(WorkersError());
      }
      var p := new Pool.Init(n, timeout, timeoutReturn);
      return Ok(p);
    }

    /** `submit`: RuntimeError after shutdown, otherwise a new future whose
        work item joins the queue. */
    method Submit(func: string, args: seq<Value>, kwargs: Dict<Value>) returns (r: Result<NewFuture>)
      modifies this
      ensures shutdown == old(shutdown)
      ensures old(shutdown) ==> r.Err? && r.error.cls == "RuntimeError" && queue == old(queue)
      ensures !old(shutdown) ==> r == Ok(NewFuture(timeout, timeoutReturn, args, kwargs))
      ensures !old(shutdown) ==> queue == old(queue) + [WorkItem(r.value, func, args, kwargs)]
    {
      if shutdown {
        return Err(Builtin("RuntimeError", "cannot schedule new futures after shutdown"));
      }
      var future := NewFuture(timeout, timeoutReturn, args, kwargs);
      queue := queue + [WorkItem(future, func, args, kwargs)];
      return Ok(future);
    }

    /** `close` / `shutdown`. */
    method Close()
      modifies this
      ensures shutdown && queue == old(queue)
    {
      shutdown := true;
    }
  }

  /** Once closed, a pool accepts nothing more. */
  method SubmitAfterClose(p: Pool, func: string) returns (r: Result<NewFuture>)
    modifies p
    ensures r.Err? && r.error.cls == "RuntimeError"
  {
    p.Close();
    r := p.Submit(func, [], []);
  }

  /** What `ThreadPoolExecutor` raises for a worker count that is not
      positive. */
  function WorkersError(): (e: Exc)
    ensures e.cls == "ValueError" && IsInstance(e, "Exception")
  {
    Builtin("ValueError", "max_workers must be greater than 0")
  }

  /** `n or 10`. */
  function PoolSize(n: Option<int>): (size: int)
    ensures n.Some? && n.value != 0 ==> size == n.value
    ensures n.None? || n.value == 0 ==> size == 10
  {
    if n.Some? && n.value != 0 then n.value else 10
  }

  /** `fail_return`: a callable given the url and the last error, or a value. */
  datatype FailReturn = CallableFail(call: (string, Exc) -> Outcome) | PlainFail(value: Value)

  /** What `request` returns once its loop has ended. */
  function RequestResult(end: Ending, url: string, fail: FailReturn): (o: Outcome)
    ensures end.Success? ==> o == Returns(end.value)
    ensures end.Escaped? ==> o == Raises(end.error)
    ensures end.Exhausted? && fail.CallableFail? ==> o == fail.call(url, end.last)
    ensures !end.Success? && !end.Escaped? && fail.PlainFail? ==> o == Returns(fail.value)
    ensures end.NeverTried? && fail.CallableFail? ==> o.Raises? && o.error.cls == "UnboundLocalError"
  {
    match end
    case Success(v, _) => Returns(v)
    case Escaped(e, _) => Raises(e)
    case Exhausted(e, _) => if fail.CallableFail? then fail.call(url, e) else Returns(fail.value)
    case NeverTried =>
      if fail.CallableFail? then Raises(Builtin("UnboundLocalError", "local variable 'error' referenced before assignment"))
      else Returns(fail.value)
  }

  /** `time.sleep(delay)` then the request: a negative delay makes the
      sleep itself raise ValueError. */
  function Attempt(calls: nat -> Outcome, delay: int): (a: nat -> Outcome)
    ensures delay >= 0 ==> forall i: nat :: a(i) == calls(i)
    ensures delay < 0 ==> forall i: nat :: a(i) == Raises(SleepError())
  {
    (i: nat) => if delay < 0 then Raises(SleepError()) else calls(i)
  }

  function SleepError(): (e: Exc)
    ensures e.cls == "ValueError" && IsInstance(e, "Exception")
  {
    Builtin("ValueError", "sleep length must be non-negative")
  }

  /** `tPool`: a pool plus a session whose adapters hold `PoolSize(n)`
      connections. */
  class TPool {
    const pool: Pool
    const poolSize: int
    var sessionClosed: bool

    constructor Init(n: Option<int>, pool: Pool)
      ensures this.pool == pool && poolSize == PoolSize(n) && !sessionClosed
    {
      this.pool := pool;
      poolSize := PoolSize(n);
      sessionClosed := false;
    }

    /** `tPool(n, session, timeout, timeout_return)`: the pool is built
        first, so a worker count that is not positive fails before
        `n or 10` sizes the adapters. */
    static method Create(n: Option<int>, timeout: Option<int>, timeoutReturn: TimeoutReturn) returns (r: Result<TPool>)
      ensures n.Some? && n.value <= 0 ==> r.Err? && r.error.cls == "ValueError"
      ensures !(n.Some? && n.value <= 0) ==> r.Ok? && fresh(r.value) && fresh(r.value.pool)
      ensures r.Ok? ==> r.value.poolSize == PoolSize(n) && r.value.poolSize > 0 && !r.value.sessionClosed
      ensures r.Ok? ==> r.value.pool.n == n && !r.value.pool.shutdown
      ensures r.Ok? ==> r.value.pool.timeout == timeout && r.value.pool.timeoutReturn == timeoutReturn
    {
      var p := Pool.Create(n, timeout, timeoutReturn);
      if p.Err? {
        return Err(p.error);
      }
      var t := new TPool.Init(n, p.value);
      return Ok(t);
    }

    method Close()
      modifies this, pool
      ensures sessionClosed && pool.shutdown
    {
      sessionClosed := true;
      pool.Close();
    }

    /** `request(url, mode, retry, delay, fail_return)`, where the i-th
        session request does `calls(i)`; any Exception is retried. */
    method Request(url: string, calls: nat -> Outcome, retry: int, delay: int, fail: FailReturn) returns (o: Outcome)
      ensures o == RequestResult(Run(Attempt(calls, delay), ["Exception"], retry + 1), url, fail)
    {
      var attempt := Attempt(calls, delay);
      var i := 0;
      var error: Option<Exc> := None;
      var bound: nat := if retry + 1 <= 0 then 0 else retry + 1;
      while i < bound
        invariant i <= bound
        invariant i == 0 <==> error.None?
        invariant retry + 1 > 0 ==> Run(attempt, ["Exception"], retry + 1) == RunFrom(attempt, ["Exception"], bound, i, error)
      {
        var outcome := attempt(i);
        if outcome.Returns? {
          return outcome;
        }
        if !IsInstance(outcome.error, "Exception") {
          assert !Caught(outcome.error, ["Exception"]);
          return outcome;
        }
        assert Caught(outcome.error, ["Exception"]) by {
          assert IsInstance(outcome.error, ["Exception"][0]);
        }
        error := Some(outcome.error);
        i := i + 1;
      }
      if fail.PlainFail? {
        return Returns(fail.value);
      }
      if error.None? {
        return Raises(Builtin("UnboundLocalError", "local variable 'error' referenced before assignment"));
      }
      return fail.call(url, error.value);
    }
  }

  /** `tPool.request` makes at most retry + 1 attempts and returns the first
      response; with every attempt failing it gives `fail_return`'s answer
      for the last error. */
  lemma RequestSpec(url: string, calls: nat -> Outcome, retry: int, delay: int, fail: FailReturn)
    ensures var end := Run(Attempt(calls, delay), ["Exception"], retry + 1);
      && (end.Success? ==> 1 <= end.attempts <= retry + 1 && delay >= 0 && calls(end.attempts - 1) == Returns(end.value))
      && (retry >= 0 && delay < 0 ==>
            RequestResult(end, url, fail) == (if fail.CallableFail? then fail.call(url, SleepError()) else Returns(fail.value)))
  {
    var attempt := Attempt(calls, delay);
    RunSpec(attempt, ["Exception"], retry + 1);
    if retry >= 0 && delay < 0 {
      assert AllCaught(attempt, ["Exception"], retry + 1) by {
        forall j | 0 <= j < retry + 1 ensures CaughtRaise(attempt(j), ["Exception"]) {
          assert attempt(j) == Raises(SleepError());
          assert IsInstance(attempt(j).error, ["Exception"][0]);
        }
      }
      AllFail(attempt, ["Exception"], retry + 1);
    }
  }
}
