/** frequency_controller/sync_tools.py: `Frequency`, a controller that lets
    at most `n` acquisitions through every `interval` time units. */
module SyncTools {

  import opened PyValues
  import opened FrequencyRules

  /** What `with frequency:` does on entry. */
  datatype Entry =
    | Unlimited        // `n` is falsy: `__enter__` is the no-op `__exit__`
    | Spins            // `n` is negative: `[0] * n` is empty and the generator loops forever
    | Granted(at: int) // the time the generator yields

  class Frequency {
    const n: Option<int>
    const interval: int
    const repr: string
    /** Whether the generator object `gen` exists. */
    const hasGen: bool
    /** The generator's list `q` of last grant times, one per slot. */
    const slots: array<int>
    /** The slot the generator reads next. */
    var index: nat
    ghost var requests: seq<Request>
    ghost var grants: seq<int>

    ghost predicate Valid()
      reads this, slots
    {
      && hasGen == Limited(n)
      && (hasGen && n.value > 0 ==>
            && slots.Length == n.value
            && |grants| == |requests|
            && index == Index(n.value, |grants|)
            && grants == Schedule(n.value, interval, requests)
            && slots[..] == Ring(n.value, grants))
    }

    /** `__init__`. */
    constructor (n: Option<int>, interval: int)
      ensures this.n == n && this.interval == interval
      ensures repr == "Frequency(" + OptIntRepr(n) + ", " + IntRepr(interval) + ")"
      ensures hasGen == Limited(n)
      ensures requests == [] && grants == []
      ensures Valid() && fresh(slots)
    {
      this.n := n;
      this.interval := interval;
      this.repr := "Frequency(" + OptIntRepr(n) + ", " + IntRepr(interval) + ")";
      this.hasGen := Limited(n);
      var size := if Limited(n) && n.value > 0 then n.value else 0;
      this.slots := new int[size](_ => 0);
      this.index := 0;
      this.requests := [];
      this.grants := [];
      new;
      assert slots[..] == seq(size, _ => 0);
    }

    /** `to_list()`. */
    function ToList(): (v: Value)
      reads this
      ensures FromValue(v) == Ok((n, interval))
      ensures v == VList([NValue(n), VInt(interval)])
    {
      ListRoundTrip(n, interval);
      ListForm(n, interval)
    }

    /** `to_dict()`. */
    function ToDict(): (v: Value)
      reads this
      ensures FromValue(v) == Ok((n, interval))
      ensures v.VDict? && |v.entries| == 2 && v.entries[0] == (VStr("n"), NValue(n)) && v.entries[1] == (VStr("interval"), VInt(interval))
    {
      DictRoundTrip(n, interval);
      DictForm(n, interval)
    }

    /** `__bool__`: true exactly when a generator exists, that is when `n`
        is truthy. */
    predicate Truthy()
      reads this, slots
      requires Valid()
      ensures Truthy() <==> Limited(n)
    {
      hasGen
    }

    /** `__enter__` for one acquisition: the clock reads `now` when the
        generator resumes and runs `late` past the sleep it asks for. */
    method Enter(now: int, late: nat) returns (e: Entry)
      requires Valid()
      modifies this, slots
      ensures Valid()
      ensures !Limited(n) ==> e == Unlimited
      ensures Limited(n) && n.value < 0 ==> e == Spins
      ensures !Limited(n) || n.value < 0 ==> requests == old(requests) && grants == old(grants)
      ensures Limited(n) && n.value > 0 ==>
        && requests == old(requests) + [Request(now, late)]
        && grants == Schedule(n.value, interval, requests)
        && e == Granted(grants[|grants| - 1])
    {
      if !hasGen {
        return Unlimited;
      }
      if n.value < 0 {
        return Spins;
      }
      var t := Next(now, late);
      e := Granted(t);
    }

    /** One `next()` of the generator: read the current slot, grant, store the
        grant in the slot and move to the next one. */
    method Next(now: int, late: nat) returns (t: int)
      requires Valid() && hasGen && n.value > 0
      modifies this, slots
      ensures Valid()
      ensures requests == old(requests) + [Request(now, late)]
      ensures grants == Schedule(n.value, interval, requests) && t == grants[|grants| - 1]
    {
      ghost var g0 := grants;
      var prev := slots[index];
      RingSlot(n.value, g0);
      t := if now - prev < interval then prev + interval + late else now + late;
      assert t == Grant(prev, interval, Request(now, late));
      slots[index] := t;
      requests := requests + [Request(now, late)];
      grants := grants + [t];
      assert requests[..|requests| - 1] == old(requests);
      index := NextIndex(n.value, index);
    }

    /** `__str__` and `__repr__`. */
    function Str(): (s: string)
      reads this
      ensures s == repr
    {
      repr
    }
  }

  /** What `ensure_frequency` is given. */
  datatype FrequencyArg = Instance(f: Frequency) | Args(v: Value)

  /** `Frequency.ensure_frequency`: an instance comes back unchanged; a dict
      becomes keyword arguments and anything else positional arguments. */
  method EnsureFrequency(arg: FrequencyArg) returns (r: Result<Frequency>)
    ensures arg.Instance? ==> r == Ok(arg.f)
    ensures arg.Args? && FromValue(arg.v).Err? ==> r == Err(FromValue(arg.v).error)
    ensures arg.Args? && FromValue(arg.v).Ok? ==>
      && r.Ok? && fresh(r.value) && r.value.Valid()
      && (r.value.n, r.value.interval) == FromValue(arg.v).value
      && r.value.grants == []
  {
    if arg.Instance? {
      return Ok(arg.f);
    }
    var settings := FromValue(arg.v);
    if settings.Err? {
      return Err(settings.error);
    }
    var f := new Frequency(settings.value.0, settings.value.1);
    return Ok(f);
  }
}
