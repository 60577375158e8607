/** The scheduling rule shared by `Frequency` (frequency_controller/sync_tools.py)
    and `AsyncFrequency` (frequency_controller/async_tools.py), on an abstract
    integer clock, and the argument binding behind `ensure_frequency`. */
module FrequencyRules {

  import opened PyValues
  import opened Dicts

  /** `if n:` on the `n` argument, which is None or an integer. */
  predicate Limited(n: Option<int>) {
    n.Some? && n.value != 0
  }

  /** One acquisition: the clock reading the generator takes first, and how
      far the clock has run past the requested sleep (or past that first
      reading) when the second reading becomes the grant. */
  datatype Request = Request(now: int, late: nat)

  /** The body of one generator step for a slot last granted at `prev`:
      sleep until `prev + interval` when that is still ahead, then read the
      clock again. */
  function Grant(prev: int, interval: int, r: Request): (t: int)
    ensures t >= prev + interval && t >= r.now
    ensures r.now - prev >= interval ==> t == r.now + r.late
    ensures r.now - prev < interval ==> t == prev + interval + r.late
  {
    if r.now - prev < interval then prev + interval + r.late else r.now + r.late
  }

  /** `enumerate(q)` inside `while 1`: after slot n-1 the generator starts
      over at slot 0. */
  function NextIndex(n: nat, p: nat): (q: nat)
    requires p < n
    ensures q < n
  {
    if p + 1 == n then 0 else p + 1
  }

  /** The slot the k-th acquisition (counting from 0) uses. */
  function Index(n: nat, k: nat): (p: nat)
    requires n > 0
    ensures p < n
  {
    if k == 0 then 0 else NextIndex(n, Index(n, k - 1))
  }

  lemma MulAtLeast(d: int, n: int)
    requires d >= 1 && n > 0
    ensures d * n >= n
    decreases d
  {
    if d > 1 {
      MulAtLeast(d - 1, n);
      assert d * n == (d - 1) * n + n;
    }
  }

  lemma ModUnique(a: int, n: int, q: int, r: int)
    requires n > 0 && 0 <= r < n && a == q * n + r
    ensures a % n == r
  {
    var q2, r2 := a / n, a % n;
    assert a == q2 * n + r2;
    assert (q - q2) * n == r2 - r;
    if q > q2 {
      MulAtLeast(q - q2, n);
    } else if q < q2 {
      MulAtLeast(q2 - q, n);
    }
  }

  /** k is a whole number of rounds plus the slot it lands on. */
  lemma {:induction false} IndexRounds(n: nat, k: nat) returns (rounds: nat)
    requires n > 0
    ensures k == rounds * n + Index(n, k)
  {
    if k == 0 {
      rounds := 0;
    } else {
      var before := IndexRounds(n, k - 1);
      if Index(n, k - 1) + 1 == n {
        rounds := before + 1;
        assert rounds * n == before * n + n;
      } else {
        rounds := before;
      }
    }
  }

  /** Round robin: the k-th acquisition uses slot `k mod n`. */
  lemma IndexIsMod(n: nat, k: nat)
    requires n > 0
    ensures Index(n, k) == k % n
  {
    var rounds := IndexRounds(n, k);
    ModUnique(k, n, rounds, Index(n, k));
  }

  /** The list `q` after the grants `g`: it starts as `[0] * n` and grant k
      is written into slot `Index(n, k)`. */
  function Ring(n: nat, g: seq<int>): (q: seq<int>)
    requires n > 0
    ensures |q| == n
  {
    if g == [] then seq(n, _ => 0)
    else Ring(n, g[..|g| - 1])[Index(n, |g| - 1) := g[|g| - 1]]
  }

  /** The slot `t` steps behind slot `p`, wrapping around. */
  function Back(n: nat, p: nat, t: nat): (b: nat)
    requires p < n && 1 <= t <= n
    ensures b < n
  {
    if p >= t then p - t else p + n - t
  }

  /** The slot written t acquisitions ago holds that grant, or 0 when fewer
      than t acquisitions happened. */
  lemma {:induction false} RingRecent(n: nat, g: seq<int>, t: nat)
    requires n > 0 && 1 <= t <= n
    ensures Ring(n, g)[Back(n, Index(n, |g|), t)] == if |g| >= t then g[|g| - t] else 0
    decreases |g|
  {
    if g != [] {
      var h := g[..|g| - 1];
      var p := Index(n, |h|);
      assert Ring(n, g) == Ring(n, h)[p := g[|g| - 1]];
      if t > 1 {
        assert Back(n, Index(n, |g|), t) == Back(n, p, t - 1) != p;
        RingRecent(n, h, t - 1);
      }
    }
  }

  /** The slot the next acquisition reads holds the grant from n
      acquisitions ago, or 0. */
  lemma RingSlot(n: nat, g: seq<int>)
    requires n > 0
    ensures Ring(n, g)[Index(n, |g|)] == if |g| >= n then g[|g| - n] else 0
  {
    RingRecent(n, g, n);
  }

  /** The grants the generator yields for a series of acquisitions. */
  function Schedule(n: nat, interval: int, reqs: seq<Request>): (g: seq<int>)
    requires n > 0
    ensures |g| == |reqs|
  {
    if reqs == [] then []
    else
      var g := Schedule(n, interval, reqs[..|reqs| - 1]);
      g + [Grant(Ring(n, g)[Index(n, |g|)], interval, reqs[|reqs| - 1])]
  }

  lemma {:induction false} SchedulePrefix(n: nat, interval: int, reqs: seq<Request>, m: nat)
    requires n > 0 && m <= |reqs|
    ensures Schedule(n, interval, reqs[..m]) == Schedule(n, interval, reqs)[..m]
    decreases |reqs|
  {
    if m < |reqs| {
      var init := reqs[..|reqs| - 1];
      assert init[..m] == reqs[..m];
      SchedulePrefix(n, interval, init, m);
    } else {
      assert reqs[..m] == reqs;
    }
  }

  /** The grant time of slot k's previous use, as the generator sees it. */
  function Previous(n: nat, g: seq<int>, k: nat): int
    requires k < |g|
  {
    if k >= n then g[k - n] else 0
  }

  /** Grant k sleeps against grant k - n (the first n grants against the
      initial zeros): it is at least `interval` after it, never before the
      request, and no later than the first of those times plus the clock's
      lateness. */
  lemma ScheduleLast(n: nat, interval: int, reqs: seq<Request>)
    requires n > 0 && reqs != []
    ensures var g := Schedule(n, interval, reqs);
      g[|g| - 1] == Grant(Previous(n, g, |g| - 1), interval, reqs[|reqs| - 1])
  {
    var g := Schedule(n, interval, reqs);
    var h := Schedule(n, interval, reqs[..|reqs| - 1]);
    RingSlot(n, h);
    assert g[..|g| - 1] == h;
  }

  lemma ScheduleGrant(n: nat, interval: int, reqs: seq<Request>, k: nat)
    requires n > 0 && k < |reqs|
    ensures var g := Schedule(n, interval, reqs);
      g[k] == Grant(Previous(n, g, k), interval, reqs[k])
    ensures var g := Schedule(n, interval, reqs);
      g[k] >= Previous(n, g, k) + interval && g[k] >= reqs[k].now
  {
    var g := Schedule(n, interval, reqs);
    var front := reqs[..k + 1];
    SchedulePrefix(n, interval, reqs, k + 1);
    ScheduleLast(n, interval, front);
    var h := Schedule(n, interval, front);
    assert h == g[..k + 1];
    assert Previous(n, h, k) == Previous(n, g, k);
  }

  /** Two slots, one second apart, five acquisitions arriving together at
      time T with no clock lateness: grants T, T, T+1, T+1, T+2. */
  lemma TwoPerSecond(t: int)
    requires t >= 1
    ensures Schedule(2, 1, seq(5, _ => Request(t, 0))) == [t, t, t + 1, t + 1, t + 2]
  {
    var reqs := seq(5, _ => Request(t, 0));
    var g := Schedule(2, 1, reqs);
    ScheduleGrant(2, 1, reqs, 0);
    ScheduleGrant(2, 1, reqs, 1);
    ScheduleGrant(2, 1, reqs, 2);
    ScheduleGrant(2, 1, reqs, 3);
    ScheduleGrant(2, 1, reqs, 4);
  }

  /** How an `n` argument is passed back out by `to_list` / `to_dict`. */
  function NValue(n: Option<int>): Value {
    match n
    case None => VNone
    case Some(i) => VInt(i)
  }

  /** `[n, interval]`. */
  function ListForm(n: Option<int>, interval: int): Value {
    VList([NValue(n), VInt(interval)])
  }

  /** `{'n': n, 'interval': interval}`. */
  function DictForm(n: Option<int>, interval: int): Value {
    VDict([(VStr("n"), NValue(n)), (VStr("interval"), VInt(interval))])
  }

  function AsN(v: Value): Result<Option<int>> {
    match v
    case VNone => Ok(None)
    case VInt(i) => Ok(Some(i))
    case VBool(b) => Ok(Some(if b then 1 else 0))
    case _ => Err(Builtin("TypeError", "n is not an integer"))
  }

  function AsInterval(v: Value): Result<int> {
    match v
    case VInt(i) => Ok(i)
    case VBool(b) => Ok(if b then 1 else 0)
    case _ => Err(Builtin("TypeError", "interval is not an integer"))
  }

  /** Binding `cls(*args, **kwargs)` to the signature `(n=None, interval=0)`. */
  function BindArgs(args: seq<Value>, kwargs: Dict<Value>): (r: Result<(Option<int>, int)>)
    ensures |args| > 2 ==> r.Err? && r.error.cls == "TypeError"
    ensures (exists i :: 0 <= i < |kwargs| && kwargs[i].0 != "n" && kwargs[i].0 != "interval") ==> r.Err? && r.error.cls == "TypeError"
    ensures (|args| >= 1 && HasKey(kwargs, "n")) || (|args| >= 2 && HasKey(kwargs, "interval")) ==> r.Err?
    ensures r.Ok? && |args| == 2 ==> AsN(args[0]) == Ok(r.value.0) && AsInterval(args[1]) == Ok(r.value.1)
    ensures r.Ok? && args == [] && !HasKey(kwargs, "interval") ==> r.value.1 == 0
    ensures r.Ok? && args == [] && !HasKey(kwargs, "n") ==> r.value.0.None?
  {
    if |args| > 2 then Err(Builtin("TypeError", "takes from 1 to 3 positional arguments"))
    else if exists i :: 0 <= i < |kwargs| && kwargs[i].0 != "n" && kwargs[i].0 != "interval" then
      Err(Builtin("TypeError", "got an unexpected keyword argument"))
    else if |args| >= 1 && HasKey(kwargs, "n") then
      Err(Builtin("TypeError", "got multiple values for argument 'n'"))
    else if |args| >= 2 && HasKey(kwargs, "interval") then
      Err(Builtin("TypeError", "got multiple values for argument 'interval'"))
    else
      var nv := if |args| >= 1 then args[0] else Get(kwargs, "n").GetOr(VNone);
      var iv := if |args| >= 2 then args[1] else Get(kwargs, "interval").GetOr(VInt(0));
      match AsN(nv)
      case Err(e) => Err(e)
      case Ok(n) =>
        match AsInterval(iv)
        case Err(e) => Err(e)
        case Ok(interval) => Ok((n, interval))
  }

  /** The keys of a `**` argument must be strings. */
  function Keywords(es: seq<(Value, Value)>): (r: Result<Dict<Value>>)
    ensures r.Ok? <==> forall i :: 0 <= i < |es| ==> es[i].0.VStr?
    ensures r.Ok? ==> Keys(r.value) == seq(|es|, i requires 0 <= i < |es| => es[i].0.s)
    ensures r.Ok? ==> |r.value| == |es| && forall i :: 0 <= i < |es| ==> r.value[i].1 == es[i].1
  {
    if es == [] then Ok([])
    else if !es[0].0.VStr? then Err(Builtin("TypeError", "keywords must be strings"))
    else
      match Keywords(es[1..])
      case Err(e) =>
        var j :| 0 <= j < |es[1..]| && !es[1..][j].0.VStr?;
        assert es[j + 1] == es[1..][j];
        Err(e)
      case Ok(d) =>
        KeywordsCons(es, d);
        Ok([(es[0].0.s, es[0].1)] + d)
  }

  /** The first keyword in front of the bound rest keeps `Keywords`' promise. */
  lemma KeywordsCons(es: seq<(Value, Value)>, d: Dict<Value>)
    requires es != [] && forall i :: 0 <= i < |es| ==> es[i].0.VStr?
    requires Keys(d) == seq(|es| - 1, i requires 0 <= i < |es| - 1 => es[1..][i].0.s)
    requires |d| == |es| - 1 && forall i :: 0 <= i < |es| - 1 ==> d[i].1 == es[1..][i].1
    ensures var kw := [(es[0].0.s, es[0].1)] + d;
      && Keys(kw) == seq(|es|, i requires 0 <= i < |es| => es[i].0.s)
      && |kw| == |es| && forall i :: 0 <= i < |es| ==> kw[i].1 == es[i].1
  {
    var kw := [(es[0].0.s, es[0].1)] + d;
    var want := seq(|es|, i requires 0 <= i < |es| => es[i].0.s);
    forall i | 0 <= i < |es|
      ensures Keys(kw)[i] == want[i] && kw[i].1 == es[i].1
    {
      if i > 0 {
        assert kw[i] == d[i - 1] && es[i] == es[1..][i - 1];
        assert Keys(d)[i - 1] == d[i - 1].0;
      }
    }
  }


  /** `ensure_frequency` on anything that is not already a controller: a
      dict is spread as keyword arguments, anything else as positional
      arguments. */
  function FromValue(v: Value): (r: Result<(Option<int>, int)>)
    ensures !v.VDict? && !IsIterable(v) ==> r.Err? && r.error.cls == "TypeError"
  {
    if v.VDict? then
      match Keywords(v.entries)
      case Err(e) => Err(e)
      case Ok(kw) => BindArgs([], kw)
    else
      match Iterate(v)
      case Err(e) => Err(e)
      case Ok(args) => BindArgs(args, [])
  }

  /** `cls(*frequency.to_list())` rebuilds the same settings. */
  lemma ListRoundTrip(n: Option<int>, interval: int)
    ensures FromValue(ListForm(n, interval)) == Ok((n, interval))
  {
  }

  /** `cls(**frequency.to_dict())` rebuilds the same settings. */
  lemma DictRoundTrip(n: Option<int>, interval: int)
    ensures FromValue(DictForm(n, interval)) == Ok((n, interval))
  {
    var es := DictForm(n, interval).entries;
    var kw := [("n", NValue(n)), ("interval", VInt(interval))];
    var last: seq<(Value, Value)> := [(VStr("interval"), VInt(interval))];
    assert Keywords(last[1..]) == Ok([]);
    var d: Dict<Value> := [];
    assert [(last[0].0.s, last[0].1)] + d == kw[1..];
    assert Keywords(last) == Ok(kw[1..]);
    assert es[1..] == last;
    assert [(es[0].0.s, es[0].1)] + kw[1..] == kw;
    assert Keywords(es) == Ok(kw);
    assert Keys(kw) == ["n", "interval"];
    assert Get(kw, "n") == Some(NValue(n));
    assert Get(kw, "interval") == Some(VInt(interval));
  }
}
