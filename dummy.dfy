/** torequests/dummy.py: `NewTask`'s callback result, the task views of
    `Loop`, and the per-request bookkeeping of the asyncio `Requests`:
    frequency choice, keyword normalisation, retry and the failure value,
    the frequency table and closing. */
module Dummy {

  import opened PyValues
  import opened Dicts
  import opened Attempts
  import opened Exceptions
  import opened FrequencyRules
  import opened AsyncTools

  // ---------------------------------------------------------------- NewTask

  datatype TaskState = Pending | Cancelled | Finished

  /** A done-callback, seen through the task's outcome: it returns a value
      or raises (the loop then logs the error and carries on). */
  type Callback = Outcome -> Outcome

  /** The `callback` argument: none, one callable, or a list/tuple/set. */
  datatype CallbackArg = NoCallback | OneCallback(f: Callback) | ManyCallbacks(fs: seq<Callback>)

  /** The callbacks that update `_callback_result`, in registration order. */
  function CallbackList(c: CallbackArg): (fs: seq<Callback>)
    ensures c.NoCallback? ==> fs == []
    ensures c.OneCallback? ==> fs == [c.f]
    ensures c.ManyCallbacks? ==> fs == c.fs
  {
    match c
    case NoCallback => []
    case OneCallback(f) => [f]
    case ManyCallbacks(fs) => fs
  }

  /** `_callback_result` after the callbacks ran, in order, on outcome `o`:
      each one that returns stores its value. */
  function AfterCallbacks(fs: seq<Callback>, o: Outcome, current: Option<Value>): Option<Value>
    decreases |fs|
  {
    if fs == [] then current
    else AfterCallbacks(fs[1..], o, if fs[0](o).Returns? then Some(fs[0](o).value) else current)
  }

  lemma {:induction false} CallbacksAllRaise(fs: seq<Callback>, o: Outcome, current: Option<Value>)
    requires forall j :: 0 <= j < |fs| ==> fs[j](o).Raises?
    ensures AfterCallbacks(fs, o, current) == current
    decreases |fs|
  {
    if fs != [] {
      assert forall j :: 0 <= j < |fs| - 1 ==> fs[1..][j] == fs[j + 1];
      CallbacksAllRaise(fs[1..], o, current);
    }
  }

  /** The value left is the one stored by the last callback that returned. */
  lemma {:induction false} CallbackLastReturning(fs: seq<Callback>, o: Outcome, current: Option<Value>, j: nat)
    requires j < |fs| && fs[j](o).Returns?
    requires forall k :: j < k < |fs| ==> fs[k](o).Raises?
    ensures AfterCallbacks(fs, o, current) == Some(fs[j](o).value)
    decreases |fs|
  {
    var next := if fs[0](o).Returns? then Some(fs[0](o).value) else current;
    assert forall k :: 0 <= k < |fs| - 1 ==> fs[1..][k] == fs[k + 1];
    if j == 0 {
      CallbacksAllRaise(fs[1..], o, next);
    } else {
      CallbackLastReturning(fs[1..], o, next, j - 1);
    }
  }

  function CancelledError(): Exc {
    Exc("CancelledError", {"BaseException"}, [])
  }

  class NewTask {
    const callbacks: seq<Callback>
    var state: TaskState
    /** What `result()` gives once the task is done. */
    var outcome: Outcome
    /** `_callback_result`; None is the `NotSet` marker. */
    var callbackResult: Option<Value>

    constructor (callback: CallbackArg)
      ensures callbacks == CallbackList(callback) && state == Pending && callbackResult.None?
    {
      callbacks := CallbackList(callback);
      state := Pending;
      outcome := Raises(Builtin("InvalidStateError", "Result is not set."));
      callbackResult := None;
    }

    /** The loop runs the done-callbacks in order. */
    method RunCallbacks()
      modifies this
      ensures state == old(state) && outcome == old(outcome)
      ensures callbackResult == AfterCallbacks(callbacks, outcome, old(callbackResult))
    {
      var i := 0;
      while i < |callbacks|
        invariant i <= |callbacks| && state == old(state) && outcome == old(outcome)
        invariant AfterCallbacks(callbacks, outcome, old(callbackResult)) == AfterCallbacks(callbacks[i..], outcome, callbackResult)
      {
        var o := callbacks[i](outcome);
        if o.Returns? {
          callbackResult := Some(o.value);
        }
        assert callbacks[i..][1..] == callbacks[i + 1..];
        i := i + 1;
      }
    }

    /** The coroutine finishes with outcome `o` (or is cancelled). */
    method Complete(o: Outcome, cancelled: bool)
      requires state == Pending
      modifies this
      ensures state == (if cancelled then Cancelled else Finished)
      ensures outcome == (if cancelled then Raises(CancelledError()) else o)
      ensures callbackResult == AfterCallbacks(callbacks, outcome, old(callbackResult))
    {
      state := if cancelled then Cancelled else Finished;
      outcome := if cancelled then Raises(CancelledError()) else o;
      RunCallbacks();
    }

    /** `callback_result` (and `cx`): a pending task is run to completion
        first (ending in `ifPending`); `run_until_complete` re-raises what
        the coroutine raised, after the done-callbacks ran. Otherwise the
        value the last returning callback stored, or `result()` when none
        did. */
    method CallbackResult(ifPending: Outcome) returns (r: Outcome)
      modifies this
      ensures old(state) != Pending ==> state == old(state) && outcome == old(outcome) && callbackResult == old(callbackResult)
      ensures old(state) == Pending ==> state == Finished && outcome == ifPending
      ensures old(state) == Pending ==> callbackResult == AfterCallbacks(callbacks, ifPending, old(callbackResult))
      ensures old(state) == Pending && ifPending.Raises? ==> r == ifPending
      ensures !(old(state) == Pending && ifPending.Raises?) ==>
                r == if callbackResult.Some? then Returns(callbackResult.value) else outcome
    {
      if state == Pending {
        Complete(ifPending, false);
        if ifPending.Raises? {
          return ifPending;
        }
      }
      r := if callbackResult.Some? then Returns(callbackResult.value) else outcome;
    }

    /** `x`: `result()` after running a pending task to completion. */
    method X(ifPending: Outcome) returns (r: Outcome)
      modifies this
      ensures old(state) == Pending ==> state == Finished && outcome == ifPending
      ensures old(state) != Pending ==> state == old(state) && outcome == old(outcome)
      ensures r == outcome
    {
      if state == Pending {
        Complete(ifPending, false);
      }
      r := outcome;
    }
  }

  /** With no callback, `callback_result` is `result()`. */
  method NoCallbackResult(o: Outcome) returns (r: Outcome)
    ensures r == o
  {
    var t := new NewTask(NoCallback);
    r := t.CallbackResult(o);
  }

  /** A coroutine that raises wins over a value a callback stored. */
  method PendingRaiseWins(e: Exc, v: Value) returns (r: Outcome)
    ensures r == Raises(e)
  {
    var t := new NewTask(OneCallback(o => Returns(v)));
    r := t.CallbackResult(Raises(e));
  }

  // ------------------------------------------------------------------- Loop

  datatype TaskRecord = TaskRecord(id: int, state: TaskState)

  /** `todo_tasks`: the tasks still pending, in the order `all_tasks` lists them. */
  function TodoTasks(all: seq<TaskRecord>): (r: seq<TaskRecord>)
    ensures forall i :: 0 <= i < |r| ==> r[i].state == Pending
  {
    if all == [] then []
    else (if all[0].state == Pending then [all[0]] else []) + TodoTasks(all[1..])
  }

  /** `done_tasks`: the tasks no longer pending. */
  function DoneTasks(all: seq<TaskRecord>): (r: seq<TaskRecord>)
    ensures forall i :: 0 <= i < |r| ==> r[i].state != Pending
  {
    if all == [] then []
    else (if all[0].state != Pending then [all[0]] else []) + DoneTasks(all[1..])
  }

  /** Every task is in exactly one of the two views. */
  lemma {:induction false} TasksPartition(all: seq<TaskRecord>)
    ensures multiset(TodoTasks(all)) + multiset(DoneTasks(all)) == multiset(all)
    ensures |TodoTasks(all)| + |DoneTasks(all)| == |all|
  {
    if all != [] {
      TasksPartition(all[1..]);
      assert all == [all[0]] + all[1..];
    }
  }

  // ------------------------------------------------------ request arguments

  /** A timeout that is neither a number, a tuple or list, None nor a
      ClientTimeout. */
  predicate BadTimeout(t: Value) {
    t.VStr? || t.VBytes? || t.VDict? || t.VIter? || t.VObject?
  }

  /** `timeout` as aiohttp wants it: a number becomes the same connect and
      read timeout, a tuple or list gives connect and read, None and a
      ClientTimeout pass, anything else is a ValueError. */
  function NormalizeTimeout(kwargs: Dict<Value>): (r: Result<Dict<Value>>)
    ensures !HasKey(kwargs, "timeout") ==> r == Ok(kwargs)
    ensures Get(kwargs, "timeout") == Some(VNone) || (HasKey(kwargs, "timeout") && Get(kwargs, "timeout").value.VTimeout?) ==> r == Ok(kwargs)
    ensures HasKey(kwargs, "timeout") && Get(kwargs, "timeout").value.VInt? ==>
      var t := Get(kwargs, "timeout").value; r.Ok? && Get(r.value, "timeout") == Some(VTimeout(t, t))
    ensures HasKey(kwargs, "timeout") && Get(kwargs, "timeout").value.VList? ==>
      var items := Get(kwargs, "timeout").value.items;
      (|items| >= 2 ==> r.Ok? && Get(r.value, "timeout") == Some(VTimeout(items[0], items[1])))
      && (|items| < 2 ==> r.Err? && r.error.cls == "IndexError")
    ensures HasKey(kwargs, "timeout") && BadTimeout(Get(kwargs, "timeout").value) ==> r.Err? && r.error.cls == "ValueError"
    ensures r.Ok? ==> forall k :: k != "timeout" ==> Get(r.value, k) == Get(kwargs, k)
  {
    match Get(kwargs, "timeout")
    case None => Ok(kwargs)
    case Some(t) =>
      if t.VInt? || t.VBool? then Ok(Set(kwargs, "timeout", VTimeout(t, t)))
      else if t.VList? then
        if |t.items| < 2 then Err(Builtin("IndexError", "tuple index out of range"))
        else Ok(Set(kwargs, "timeout", VTimeout(t.items[0], t.items[1])))
      else if t.VNone? || t.VTimeout? then Ok(kwargs)
      else Err(Builtin("ValueError", "Bad timeout type"))
  }

  /** `kwargs["ssl"] = kwargs.pop("verify")` when `verify` is given. */
  function RenameVerify(kwargs: Dict<Value>): (r: Dict<Value>)
    ensures !HasKey(kwargs, "verify") ==> r == kwargs
    ensures HasKey(kwargs, "verify") ==> Get(r, "ssl") == Get(kwargs, "verify")
    ensures HasKey(kwargs, "verify") && WellFormed(kwargs) ==> !HasKey(r, "verify")
    ensures forall k :: k != "verify" && k != "ssl" ==> Get(r, k) == Get(kwargs, k)
  {
    if !HasKey(kwargs, "verify") then kwargs
    else
      var (v, rest) := PopOr(kwargs, "verify", VNone);
      SetKeys(rest, "ssl", v);
      Set(rest, "ssl", v)
  }

  /** `d[key]` on a dict value. */
  function LookupValue(es: seq<(Value, Value)>, key: Value): (r: Option<Value>)
    ensures r.Some? ==> exists i :: 0 <= i < |es| && es[i] == (key, r.value)
    ensures r.None? ==> forall i :: 0 <= i < |es| ==> es[i].0 != key
  {
    if es == [] then None
    else if es[0].0 == key then Some(es[0].1)
    else
      var r := LookupValue(es[1..], key);
      assert forall i :: 1 <= i < |es| ==> es[i] == es[1..][i - 1];
      r
  }

  /** `kwargs["proxy"] = "%s://%s" % (scheme, kwargs['proxies'][scheme])`;
      `str` is how `%s` prints the proxy value. */
  function AddProxy(kwargs: Dict<Value>, scheme: string, str: Value -> string): (r: Result<Dict<Value>>)
    ensures !HasKey(kwargs, "proxies") ==> r == Ok(kwargs)
    ensures HasKey(kwargs, "proxies") && Get(kwargs, "proxies").value.VDict? ==>
      var p := LookupValue(Get(kwargs, "proxies").value.entries, VStr(scheme));
      && (p.Some? ==> r.Ok? && Get(r.value, "proxy") == Some(VStr(scheme + "://" + str(p.value))))
      && (p.None? ==> r.Err? && r.error.cls == "KeyError")
    ensures HasKey(kwargs, "proxies") && !Get(kwargs, "proxies").value.VDict? ==> r.Err? && r.error.cls == "TypeError"
    ensures r.Ok? ==> forall k :: k != "proxy" ==> Get(r.value, k) == Get(kwargs, k)
  {
    match Get(kwargs, "proxies")
    case None => Ok(kwargs)
    case Some(ps) =>
      if !ps.VDict? then Err(Builtin("TypeError", "proxies is not subscriptable by a scheme"))
      else
        match LookupValue(ps.entries, VStr(scheme))
        case None => Err(Builtin("KeyError", scheme))
        case Some(p) => Ok(Set(kwargs, "proxy", VStr(scheme + "://" + str(p))))
  }

  /** The keyword arguments handed to the session, with the popped
      `referer_info` and `encoding` (None when absent). */
  datatype Prepared = Prepared(kwargs: Dict<Value>, refererInfo: Value, encoding: Value)

  /** `kwargs["url"] = url; kwargs["method"] = method`. */
  function WithTarget(kwargs: Dict<Value>, url: string, verb: string): (r: Dict<Value>)
    ensures Get(r, "url") == Some(VStr(url)) && Get(r, "method") == Some(VStr(verb))
    ensures forall k :: k != "url" && k != "method" ==> Get(r, k) == Get(kwargs, k)
  {
    Set(Set(kwargs, "url", VStr(url)), "method", VStr(verb))
  }

  /** `kwargs.pop("referer_info", None)`, then `kwargs.pop("encoding", None)`. */
  function PopExtras(kwargs: Dict<Value>): (p: Prepared)
    ensures p.refererInfo == Get(kwargs, "referer_info").GetOr(VNone)
    ensures p.encoding == Get(kwargs, "encoding").GetOr(VNone)
    ensures forall k :: k != "referer_info" && k != "encoding" ==> Get(p.kwargs, k) == Get(kwargs, k)
  {
    var (referer, k1) := PopOr(kwargs, "referer_info", VNone);
    var (encoding, k2) := PopOr(k1, "encoding", VNone);
    Prepared(k2, referer, encoding)
  }

  /** The keyword handling of `_request` before its loop, for the stripped
      url; `scheme` is what `urlparse` gives for it. */
  function PrepareKwargs(kwargs: Dict<Value>, url: string, verb: string, scheme: string, str: Value -> string): (r: Result<Prepared>)
    ensures NormalizeTimeout(kwargs).Err? ==> r == Err(NormalizeTimeout(kwargs).error)
    ensures NormalizeTimeout(kwargs).Ok? ==> r.Ok? == AddProxy(RenameVerify(NormalizeTimeout(kwargs).value), scheme, str).Ok?
  {
    match NormalizeTimeout(kwargs)
    case Err(e) => Err(e)
    case Ok(k1) =>
      match AddProxy(RenameVerify(k1), scheme, str)
      case Err(e) => Err(e)
      case Ok(k3) => Ok(PopExtras(WithTarget(k3, Strip(url), verb)))
  }

  /** The session gets the stripped url and the method. */
  lemma PrepareTarget(kwargs: Dict<Value>, url: string, verb: string, scheme: string, str: Value -> string)
    ensures var r := PrepareKwargs(kwargs, url, verb, scheme, str);
      r.Ok? ==> Get(r.value.kwargs, "url") == Some(VStr(Strip(url))) && Get(r.value.kwargs, "method") == Some(VStr(verb))
  {
    var r := PrepareKwargs(kwargs, url, verb, scheme, str);
    if r.Ok? {
      var k3 := AddProxy(RenameVerify(NormalizeTimeout(kwargs).value), scheme, str).value;
      var k4 := WithTarget(k3, Strip(url), verb);
      assert r.value == PopExtras(k4);
      assert "url" != "referer_info" && "url" != "encoding" && "method" != "referer_info" && "method" != "encoding";
      assert Get(r.value.kwargs, "url") == Get(k4, "url");
      assert Get(r.value.kwargs, "method") == Get(k4, "method");
    }
  }

  /** `referer_info` and `encoding` are taken out, keeping the caller's values. */
  lemma PrepareExtras(kwargs: Dict<Value>, url: string, verb: string, scheme: string, str: Value -> string)
    ensures var r := PrepareKwargs(kwargs, url, verb, scheme, str);
      r.Ok? ==> r.value.refererInfo == Get(kwargs, "referer_info").GetOr(VNone) && r.value.encoding == Get(kwargs, "encoding").GetOr(VNone)
  {
    var r := PrepareKwargs(kwargs, url, verb, scheme, str);
    if r.Ok? {
      var k1 := NormalizeTimeout(kwargs).value;
      var k2 := RenameVerify(k1);
      var k3 := AddProxy(k2, scheme, str).value;
      var k4 := WithTarget(k3, Strip(url), verb);
      assert r.value == PopExtras(k4);
      StagesKeep(kwargs, k1, k2, k3, k4, scheme, str, url, verb, "referer_info");
      StagesKeep(kwargs, k1, k2, k3, k4, scheme, str, url, verb, "encoding");
    }
  }

  lemma TimeoutKeeps(kwargs: Dict<Value>, k: string)
    requires NormalizeTimeout(kwargs).Ok? && k != "timeout"
    ensures Get(NormalizeTimeout(kwargs).value, k) == Get(kwargs, k)
  {
  }

  lemma ProxyKeeps(kwargs: Dict<Value>, scheme: string, str: Value -> string, k: string)
    requires AddProxy(kwargs, scheme, str).Ok? && k != "proxy"
    ensures Get(AddProxy(kwargs, scheme, str).value, k) == Get(kwargs, k)
  {
  }

  lemma TargetKeeps(kwargs: Dict<Value>, url: string, verb: string, k: string)
    requires k != "url" && k != "method"
    ensures Get(WithTarget(kwargs, url, verb), k) == Get(kwargs, k)
  {
  }

  lemma ExtrasKeep(kwargs: Dict<Value>, k: string)
    requires k != "referer_info" && k != "encoding"
    ensures Get(PopExtras(kwargs).kwargs, k) == Get(kwargs, k)
  {
  }

  /** A key no stage before PopExtras touches has its caller's value. */
  lemma StagesKeep(kwargs: Dict<Value>, k1: Dict<Value>, k2: Dict<Value>, k3: Dict<Value>, k4: Dict<Value>,
                   scheme: string, str: Value -> string, url: string, verb: string, k: string)
    requires NormalizeTimeout(kwargs) == Ok(k1) && k2 == RenameVerify(k1)
    requires AddProxy(k2, scheme, str) == Ok(k3) && k4 == WithTarget(k3, Strip(url), verb)
    requires k != "timeout" && k != "verify" && k != "ssl" && k != "proxy" && k != "url" && k != "method"
    ensures Get(k4, k) == Get(kwargs, k)
  {
    TimeoutKeeps(kwargs, k);
    ProxyKeeps(k2, scheme, str, k);
    TargetKeeps(k3, Strip(url), verb, k);
  }

  /** A `verify` argument reaches the session as `ssl`. */
  lemma PrepareVerify(kwargs: Dict<Value>, url: string, verb: string, scheme: string, str: Value -> string)
    ensures var r := PrepareKwargs(kwargs, url, verb, scheme, str);
      r.Ok? && HasKey(kwargs, "verify") ==> Get(r.value.kwargs, "ssl") == Get(kwargs, "verify")
  {
    var r := PrepareKwargs(kwargs, url, verb, scheme, str);
    if r.Ok? {
      var k1 := NormalizeTimeout(kwargs).value;
      var k2 := RenameVerify(k1);
      var k3 := AddProxy(k2, scheme, str).value;
      var k4 := WithTarget(k3, Strip(url), verb);
      assert r.value == PopExtras(k4);
      assert Get(k1, "verify") == Get(kwargs, "verify") by {
        TimeoutKeeps(kwargs, "verify");
      }
      assert Get(k3, "ssl") == Get(k2, "ssl") by {
        ProxyKeeps(k2, scheme, str, "ssl");
      }
      assert Get(k4, "ssl") == Get(k3, "ssl") by {
        TargetKeeps(k3, Strip(url), verb, "ssl");
      }
      ExtrasKeep(k4, "ssl");
    }
  }

  /** Every other keyword reaches the session unchanged. */
  lemma PrepareFrame(kwargs: Dict<Value>, url: string, verb: string, scheme: string, str: Value -> string, k: string)
    requires k != "timeout" && k != "verify" && k != "ssl" && k != "proxy"
    requires k != "url" && k != "method" && k != "referer_info" && k != "encoding"
    ensures var r := PrepareKwargs(kwargs, url, verb, scheme, str);
      r.Ok? ==> Get(r.value.kwargs, k) == Get(kwargs, k)
  {
    var r := PrepareKwargs(kwargs, url, verb, scheme, str);
    if r.Ok? {
      var k1 := NormalizeTimeout(kwargs).value;
      var k2 := RenameVerify(k1);
      var k3 := AddProxy(k2, scheme, str).value;
      var k4 := WithTarget(k3, Strip(url), verb);
      assert r.value == PopExtras(k4);
      assert Get(r.value.kwargs, k) == Get(k4, k);
      assert Get(k4, k) == Get(k3, k);
      assert Get(k3, k) == Get(k2, k);
      assert Get(k2, k) == Get(k1, k);
    }
  }

  /** The `request` a failure carries: the session kwargs with `retry` and
      any truthy `referer_info` / `encoding` put back. */
  function FailureRequest(p: Prepared, retry: int): (r: Dict<Value>)
    ensures Get(r, "retry") == Some(VInt(retry))
    ensures Truthy(p.refererInfo) ==> Get(r, "referer_info") == Some(p.refererInfo)
    ensures Truthy(p.encoding) ==> Get(r, "encoding") == Some(p.encoding)
    ensures forall k :: k != "retry" && k != "referer_info" && k != "encoding" ==> Get(r, k) == Get(p.kwargs, k)
  {
    var k1 := Set(p.kwargs, "retry", VInt(retry));
    var k2 := if Truthy(p.refererInfo) then Set(k1, "referer_info", p.refererInfo) else k1;
    if Truthy(p.encoding) then Set(k2, "encoding", p.encoding) else k2
  }

  /** The classes `_request` retries on. */
  const RETRY_ON: seq<string> := ["ClientError", "Error"]

  /** `catch_exception`, unless the older `return_exceptions` is given. */
  function CatchException(catchException: bool, returnExceptions: Option<bool>): (b: bool)
    ensures returnExceptions.Some? ==> b == returnExceptions.value
    ensures returnExceptions.None? ==> b == catchException
  {
    returnExceptions.GetOr(catchException)
  }

  /** What `frequencies` is given as. */
  datatype FrequenciesArg =
    | NotDict(v: Value)                          // None, or any value that is not a dict
    | GivenDict(entries: seq<(string, FrequencyArg)>)

  /** `if not frequencies: return {}` on the argument. */
  predicate FrequenciesTruthy(a: FrequenciesArg) {
    if a.NotDict? then Truthy(a.v) else a.entries != []
  }

  /** `if self.default_host_frequency:`, where a controller object is
      truthy exactly when it is limited. */
  predicate DefaultTruthy(d: Option<FrequencyArg>) {
    d.Some? && (if d.value.Instance? then d.value.f.hasGen else Truthy(d.value.v))
  }

  /** The entry `made` stands for the host entry `given`: the same host,
      the instance itself, or a controller built from the given arguments. */
  predicate Made(given: (string, FrequencyArg), made: (string, AsyncFrequency)) {
    && made.0 == given.0
    && (given.1.Instance? ==> made.1 == given.1.f)
    && (given.1.Args? ==> FromValue(given.1.v) == Ok((made.1.n, made.1.interval)))
  }

  /** The controllers built from arguments are distinct objects: no two
      hosts given as arguments share a rate limit. */
  predicate Separate(given: seq<(string, FrequencyArg)>, made: Dict<AsyncFrequency>)
    requires |given| <= |made|
  {
    forall i, j :: 0 <= i < j < |given| && given[i].1.Args? && given[j].1.Args? ==> made[i].1 != made[j].1
  }

  lemma SeparateSnoc(given: seq<(string, FrequencyArg)>, made: Dict<AsyncFrequency>,
                     g: (string, FrequencyArg), m: (string, AsyncFrequency))
    requires |given| == |made| && Separate(given, made)
    requires g.1.Args? ==> forall j :: 0 <= j < |made| ==> made[j].1 != m.1
    ensures Separate(given + [g], made + [m])
  {
    var given', made' := given + [g], made + [m];
    forall i, j | 0 <= i < j < |given'| && given'[i].1.Args? && given'[j].1.Args?
      ensures made'[i].1 != made'[j].1
    {
      if j < |given| {
        assert given'[i] == given[i] && given'[j] == given[j];
      }
    }
  }

  /** `ensure_frequencies`: nothing for a falsy argument, ValueError for a
      non-dict, otherwise each host's value through `ensure_frequency`. */
  method EnsureFrequencies(a: FrequenciesArg) returns (r: Result<Dict<AsyncFrequency>>)
    ensures !FrequenciesTruthy(a) ==> r == Ok([])
    ensures FrequenciesTruthy(a) && a.NotDict? ==> r.Err? && r.error.cls == "ValueError"
    ensures a.GivenDict? && r.Ok? ==> |r.value| == |a.entries| && forall i :: 0 <= i < |a.entries| ==> Made(a.entries[i], r.value[i])
    ensures a.GivenDict? && r.Err? ==> exists i :: 0 <= i < |a.entries| && a.entries[i].1.Args? && FromValue(a.entries[i].1.v) == Err(r.error)
    ensures a.GivenDict? && r.Ok? ==> forall i :: 0 <= i < |a.entries| && a.entries[i].1.Args? ==>
              fresh(r.value[i].1) && r.value[i].1.grants == []
    ensures a.GivenDict? && r.Ok? ==> Separate(a.entries, r.value)
  {
    if !FrequenciesTruthy(a) {
      return Ok([]);
    }
    if a.NotDict? {
      return Err(Builtin("ValueError", "frequencies should be dict"));
    }
    var es := a.entries;
    var out: Dict<AsyncFrequency> := [];
    var i := 0;
    while i < |es|
      invariant i <= |es| && |out| == i
      invariant forall j :: 0 <= j < i ==> Made(es[j], out[j])
      invariant forall j :: 0 <= j < i && es[j].1.Args? ==> fresh(out[j].1) && out[j].1.grants == []
      invariant Separate(es[..i], out)
    {
      var f := EnsureFrequency(es[i].1);
      if f.Err? {
        return Err(f.error);
      }
      var entry := (es[i].0, f.value);
      assert Made(es[i], entry);
      assert es[i].1.Args? ==> fresh(entry.1) && entry.1.grants == [] && forall j :: 0 <= j < i ==> out[j].1 != entry.1;
      SeparateSnoc(es[..i], out, es[i], entry);
      assert es[..i + 1] == es[..i] + [es[i]];
      ghost var before := out;
      out := out + [entry];
      assert out[i] == entry && forall j :: 0 <= j < i ==> out[j] == before[j];
      i := i + 1;
    }
    assert es[..i] == es;
    return Ok(out);
  }

  /** The session's lifecycle as `Requests` sees it. */
  datatype SessionState = NoSession | OpenSession | ClosedSession

  class Requests {
    const n: Option<int>
    const interval: int
    const catchException: bool
    const defaultHostFrequency: Option<FrequencyArg>
    const globalFrequency: AsyncFrequency
    var frequencies: Dict<AsyncFrequency>
    var session: SessionState
    var closed: bool

    constructor Init(n: Option<int>, interval: int, catchException: bool, frequencies: Dict<AsyncFrequency>,
                     defaultHostFrequency: Option<FrequencyArg>, session: SessionState)
      ensures this.n == n && this.interval == interval && this.catchException == catchException
      ensures this.frequencies == frequencies && this.defaultHostFrequency == defaultHostFrequency
      ensures fresh(globalFrequency) && globalFrequency.n == n && globalFrequency.interval == interval
      ensures this.session == session && !closed
    {
      this.n := n;
      this.interval := interval;
      this.catchException := catchException;
      this.frequencies := frequencies;
      this.defaultHostFrequency := defaultHostFrequency;
      this.globalFrequency := new AsyncFrequency(n, interval);
      this.session := session;
      this.closed := false;
    }

    /** `Requests(n, interval, session, catch_exception, frequencies,
        default_host_frequency, return_exceptions=...)`. */
    static method Create(n: Option<int>, interval: int, haveSession: bool, catchException: bool, frequencies: FrequenciesArg,
                         defaultHostFrequency: Option<FrequencyArg>, returnExceptions: Option<bool>)
      returns (r: Result<Requests>)
      ensures r.Ok? ==> fresh(r.value) && r.value.catchException == CatchException(catchException, returnExceptions)
      ensures r.Ok? ==> r.value.n == n && r.value.interval == interval && !r.value.closed
      ensures r.Ok? ==> r.value.session == (if haveSession then OpenSession else NoSession)
      ensures r.Ok? ==> r.value.defaultHostFrequency == defaultHostFrequency
      ensures r.Ok? ==> fresh(r.value.globalFrequency) && r.value.globalFrequency.n == n && r.value.globalFrequency.interval == interval
      ensures !FrequenciesTruthy(frequencies) ==> r.Ok? && r.value.frequencies == []
      ensures FrequenciesTruthy(frequencies) && frequencies.NotDict? ==> r.Err? && r.error.cls == "ValueError"
      ensures frequencies.GivenDict? && r.Ok? ==>
        |r.value.frequencies| == |frequencies.entries| &&
        forall i :: 0 <= i < |frequencies.entries| ==> Made(frequencies.entries[i], r.value.frequencies[i])
      ensures frequencies.GivenDict? && r.Ok? ==>
        && (forall i :: 0 <= i < |frequencies.entries| && frequencies.entries[i].1.Args? ==>
              fresh(r.value.frequencies[i].1) && r.value.frequencies[i].1.grants == [])
        && Separate(frequencies.entries, r.value.frequencies)
      ensures frequencies.GivenDict? && r.Err? ==>
        exists i :: 0 <= i < |frequencies.entries| && frequencies.entries[i].1.Args? &&
                    FromValue(frequencies.entries[i].1.v) == Err(r.error)
    {
      var fs := EnsureFrequencies(frequencies);
      if fs.Err? {
        return Err(fs.error);
      }
      var q := new Requests.Init(n, interval, CatchException(catchException, returnExceptions), fs.value,
                                 defaultHostFrequency, if haveSession then OpenSession else NoSession);
      return Ok(q);
    }

    /** The frequency `_request` uses for `host`: the host's own when it is
        truthy; otherwise, with a truthy `default_host_frequency`, one built
        from it and stored with `setdefault` (an entry already there, even
        a falsy one, wins); otherwise the global one. */
    method ChooseFrequency(host: string) returns (r: Result<AsyncFrequency>)
      modifies this
      ensures var own := Get(old(frequencies), host);
        own.Some? && own.value.hasGen ==> r == Ok(own.value) && frequencies == old(frequencies)
      ensures var own := Get(old(frequencies), host);
        !(own.Some? && own.value.hasGen) && !DefaultTruthy(defaultHostFrequency) ==>
          r == Ok(globalFrequency) && frequencies == old(frequencies)
      ensures var own := Get(old(frequencies), host);
        !(own.Some? && own.value.hasGen) && DefaultTruthy(defaultHostFrequency) && r.Ok? && own.Some? ==>
          r == Ok(own.value) && frequencies == old(frequencies)
      ensures !HasKey(old(frequencies), host) && DefaultTruthy(defaultHostFrequency) && r.Ok? ==>
        frequencies == old(frequencies) + [(host, r.value)]
      ensures !HasKey(old(frequencies), host) && DefaultTruthy(defaultHostFrequency) && r.Ok? && defaultHostFrequency.value.Instance? ==>
        r.value == defaultHostFrequency.value.f
      ensures !HasKey(old(frequencies), host) && DefaultTruthy(defaultHostFrequency) && r.Ok? && defaultHostFrequency.value.Args? ==>
        && fresh(r.value) && r.value.grants == []
        && FromValue(defaultHostFrequency.value.v) == Ok((r.value.n, r.value.interval))
      ensures var own := Get(old(frequencies), host);
        !(own.Some? && own.value.hasGen) && DefaultTruthy(defaultHostFrequency) ==>
          (r.Err? <==> defaultHostFrequency.value.Args? && FromValue(defaultHostFrequency.value.v).Err?)
      ensures r.Err? ==> frequencies == old(frequencies)
      ensures r.Ok? ==> Get(frequencies, host) == Get(old(frequencies), host) || Get(frequencies, host) == Some(r.value)
    {
      var own := Get(frequencies, host);
      if own.Some? && own.value.hasGen {
        return Ok(own.value);
      }
      if !DefaultTruthy(defaultHostFrequency) {
        return Ok(globalFrequency);
      }
      var made := EnsureFrequency(defaultHostFrequency.value);
      if made.Err? {
        return Err(made.error);
      }
      if own.Some? {
        return Ok(own.value);
      }
      SetKeys(frequencies, host, made.value);
      Dicts.KeysCons<AsyncFrequency>([(host, made.value)]);
      frequencies := frequencies + [(host, made.value)];
      AppendGet(old(frequencies), host, made.value);
      return Ok(made.value);
    }

    /** `update_frequency`: the new table's entries replace or extend the
        current ones; other hosts keep theirs. */
    method UpdateFrequency(a: FrequenciesArg) returns (r: Result<()>)
      modifies this
      ensures !FrequenciesTruthy(a) ==> r == Ok(()) && frequencies == old(frequencies)
      ensures FrequenciesTruthy(a) && a.NotDict? ==> r.Err? && r.error.cls == "ValueError"
      ensures a.GivenDict? && r.Err? ==>
        exists i :: 0 <= i < |a.entries| && a.entries[i].1.Args? && FromValue(a.entries[i].1.v) == Err(r.error)
      ensures r.Err? ==> frequencies == old(frequencies)
      ensures a.GivenDict? && r.Ok? ==> exists added: Dict<AsyncFrequency> ::
        (&& |added| == |a.entries|
         && (forall i :: 0 <= i < |a.entries| ==> Made(a.entries[i], added[i]))
         && (forall i :: 0 <= i < |a.entries| && a.entries[i].1.Args? ==> fresh(added[i].1) && added[i].1.grants == [])
         && Separate(a.entries, added)
         && frequencies == Update(old(frequencies), added)
         && forall host :: !HasKey(added, host) ==> Get(frequencies, host) == Get(old(frequencies), host))
    {
      var added := EnsureFrequencies(a);
      if added.Err? {
        return Err(added.error);
      }
      forall host | !HasKey(added.value, host)
        ensures Get(Update(frequencies, added.value), host) == Get(frequencies, host)
      {
        UpdateGet(frequencies, added.value, host);
      }
      frequencies := Update(frequencies, added.value);
      return Ok(());
    }

    /** `set_frequency(host, n, interval)`: a new controller from `n or
        self.n` and the given (or the session's) interval, stored for the
        host. */
    method SetFrequency(host: string, n': Option<int>, interval': Option<int>) returns (f: AsyncFrequency)
      modifies this
      ensures fresh(f) && f.n == (if Limited(n') then n' else n) && f.interval == interval'.GetOr(interval)
      ensures Get(frequencies, host) == Some(f)
      ensures forall h :: h != host ==> Get(frequencies, h) == Get(old(frequencies), h)
    {
      f := new AsyncFrequency(if Limited(n') then n' else n, interval'.GetOr(interval));
      frequencies := Set(frequencies, host, f);
    }

    /** The retry loop of `_request` and the failure value it ends in; the
        i-th session request does `calls(i)`. */
    method Retry(p: Prepared, retry: int, calls: nat -> Outcome) returns (r: Reply)
      ensures var end := Run(calls, RETRY_ON, retry + 1);
        && (end.Success? ==> r == Response(end.value))
        && (end.Escaped? ==> r == RaisedError(end.error))
        && (end.NeverTried? ==> r.RaisedError? && r.error.cls == "UnboundLocalError")
        && (end.Exhausted? && catchException ==>
              r.Failure? && fresh(r.failure) && r.failure.error == end.last && r.failure.name == end.last.cls
              && r.failure.request == Some(FailureRequest(p, retry)))
        && (end.Exhausted? && !catchException ==>
              r.RaisedFailure? && fresh(r.failure) && r.failure.error == end.last && r.failure.request == Some(FailureRequest(p, retry)))
    {
      var i := 0;
      var error: Option<Exc> := None;
      var bound: nat := if retry + 1 <= 0 then 0 else retry + 1;
      while i < bound
        invariant i <= bound
        invariant i == 0 <==> error.None?
        invariant retry + 1 > 0 ==> Run(calls, RETRY_ON, retry + 1) == RunFrom(calls, RETRY_ON, bound, i, error)
      {
        var outcome := calls(i);
        if outcome.Returns? {
          return Response(outcome.value);
        }
        if !Caught(outcome.error, RETRY_ON) {
          return RaisedError(outcome.error);
        }
        error := Some(outcome.error);
        i := i + 1;
      }
      if error.None? {
        return RaisedError(Builtin("UnboundLocalError", "local variable 'error' referenced before assignment"));
      }
      var failure := FailureException.Wrap(Plain(error.value), None);
      failure.request := Some(FailureRequest(p, retry));
      if catchException {
        return Failure(failure);
      }
      return RaisedFailure(failure);
    }

    /** `close()`: nothing once closed; otherwise the session (created if
        there was none) is closed and `_closed` set, unless that fails, in
        which case the error is logged and nothing is marked. */
    method Close(fails: bool)
      modifies this
      ensures old(closed) ==> closed && session == old(session)
      ensures !old(closed) && fails ==> !closed && session == old(session)
      ensures !old(closed) && !fails ==> closed && session == ClosedSession
    {
      if closed {
        return;
      }
      if fails {
        return;
      }
      session := ClosedSession;
      closed := true;
    }
  }

  lemma AppendGet<V>(d: Dict<V>, k: string, v: V)
    requires !HasKey(d, k)
    ensures Get(d + [(k, v)], k) == Some(v)
    ensures forall k' :: k' != k ==> Get(d + [(k, v)], k') == Get(d, k')
  {
    AppendSet(d, k, v);
  }

  /** For a new key, `Set` appends. */
  lemma {:induction false} AppendSet<V>(d: Dict<V>, k: string, v: V)
    requires !HasKey(d, k)
    ensures Set(d, k, v) == d + [(k, v)]
  {
    if d != [] {
      KeysCons(d);
      AppendSet(d[1..], k, v);
      assert d == [d[0]] + d[1..];
      ConcatAssoc([d[0]], d[1..], [(k, v)]);
    }
  }

  /** Choosing twice for one host gives the same controller: whatever the
      first call stored is reused. */
  method ChooseTwice(q: Requests, host: string) returns (first: Result<AsyncFrequency>, second: Result<AsyncFrequency>)
    modifies q
    ensures first.Ok? && second.Ok? ==> first == second
  {
    ghost var before := q.frequencies;
    first := q.ChooseFrequency(host);
    if first.Ok? && !HasKey(before, host) && DefaultTruthy(q.defaultHostFrequency) {
      AppendGet(before, host, first.value);
    }
    second := q.ChooseFrequency(host);
  }

  /** Closing twice: the second call changes nothing. */
  method CloseTwice(q: Requests, fails: bool)
    modifies q
    ensures q.closed && (!old(q.closed) ==> q.session == ClosedSession)
  {
    q.Close(false);
    q.Close(fails);
  }
}
