/** Python dicts keyed by strings, kept as association lists so that insertion
    order (which `dict` preserves) is part of the model. */
module Dicts {

  import opened PyValues

  type Dict<V> = seq<(string, V)>

  function Keys<V>(d: Dict<V>): (ks: seq<string>)
    ensures |ks| == |d| && forall i :: 0 <= i < |d| ==> ks[i] == d[i].0
  {
    seq(|d|, i requires 0 <= i < |d| => d[i].0)
  }

  /** Keys are pairwise distinct, as in every dict. */
  predicate WellFormed<V>(d: Dict<V>) {
    forall i, j :: 0 <= i < j < |d| ==> d[i].0 != d[j].0
  }

  predicate HasKey<V>(d: Dict<V>, k: string) {
    k in Keys(d)
  }

  lemma KeysCons<V>(d: Dict<V>)
    requires d != []
    ensures Keys(d) == [d[0].0] + Keys(d[1..])
  {
  }

  /** `d.get(k)`. */
  function Get<V>(d: Dict<V>, k: string): (r: Option<V>)
    ensures r.Some? <==> HasKey(d, k)
  {
    if d == [] then None
    else if d[0].0 == k then Some(d[0].1)
    else Get(d[1..], k)
  }

  /** In a dict, the value of an entry is what `get` finds for its key. */
  lemma {:induction false} GetEntry<V>(d: Dict<V>, i: nat)
    requires WellFormed(d) && i < |d|
    ensures Get(d, d[i].0) == Some(d[i].1)
    decreases i
  {
    if i > 0 {
      assert d[0].0 != d[i].0;
      var rest := d[1..];
      assert WellFormed(rest) by {
        forall a, b | 0 <= a < b < |rest| ensures rest[a].0 != rest[b].0 {
          assert rest[a] == d[a + 1] && rest[b] == d[b + 1];
        }
      }
      assert rest[i - 1] == d[i];
      GetEntry(rest, i - 1);
    }
  }

  /** `d[k] = v`: an existing key keeps its position, a new one goes last. */
  function Set<V>(d: Dict<V>, k: string, v: V): (r: Dict<V>)
    ensures Get(r, k) == Some(v)
    ensures forall k' :: k' != k ==> Get(r, k') == Get(d, k')
  {
    if d == [] then [(k, v)]
    else if d[0].0 == k then [(k, v)] + d[1..]
    else [d[0]] + Set(d[1..], k, v)
  }

  lemma TakeSnoc<T>(s: seq<T>, i: nat)
    requires i < |s|
    ensures s[..i + 1] == s[..i] + [s[i]]
  {
  }

  lemma ConcatAssoc<T>(a: seq<T>, b: seq<T>, c: seq<T>)
    ensures a + b + c == a + (b + c)
  {
  }

  /** Setting a key never changes the order of the keys already there. */
  lemma {:induction false} SetKeys<V>(d: Dict<V>, k: string, v: V)
    ensures HasKey(d, k) ==> Keys(Set(d, k, v)) == Keys(d)
    ensures !HasKey(d, k) ==> Keys(Set(d, k, v)) == Keys(d) + [k]
  {
    if d == [] {
      assert Keys(Set(d, k, v)) == [k];
    } else {
      var r := Set(d, k, v);
      KeysCons(d);
      KeysCons(r);
      if d[0].0 == k {
        assert r[1..] == d[1..];
      } else {
        assert r[1..] == Set(d[1..], k, v);
        assert HasKey(d, k) <==> HasKey(d[1..], k);
        SetKeys(d[1..], k, v);
        ConcatAssoc([d[0].0], Keys(d[1..]), [k]);
      }
    }
  }

  /** `d.pop(k)`: the value and the dict without `k`, or KeyError. */
  function Pop<V>(d: Dict<V>, k: string): (r: Result<(V, Dict<V>)>)
    ensures r.Ok? <==> HasKey(d, k)
    ensures r.Ok? ==> Some(r.value.0) == Get(d, k)
    ensures r.Ok? && WellFormed(d) ==> !HasKey(r.value.1, k)
    ensures r.Ok? ==> forall k' :: k' != k ==> Get(r.value.1, k') == Get(d, k')
    ensures r.Err? ==> r.error.cls == "KeyError"
  {
    if d == [] then Err(Builtin("KeyError", k))
    else if d[0].0 == k then
      assert WellFormed(d) ==> !HasKey(d[1..], k);
      Ok((d[0].1, d[1..]))
    else
      match Pop(d[1..], k)
      case Err(e) => Err(e)
      case Ok((v, rest)) => Ok((v, [d[0]] + rest))
  }

  /** `d.pop(k, default)`. */
  function PopOr<V>(d: Dict<V>, k: string, default: V): (r: (V, Dict<V>))
    ensures r.0 == Get(d, k).GetOr(default)
    ensures forall k' :: k' != k ==> Get(r.1, k') == Get(d, k')
    ensures WellFormed(d) ==> !HasKey(r.1, k)
  {
    match Pop(d, k)
    case Ok(p) => p
    case Err(_) => (default, d)
  }

  /** `d.update(e)`: every entry of `e` is set in turn. */
  function Update<V>(d: Dict<V>, e: Dict<V>): (r: Dict<V>)
    decreases |e|
  {
    if e == [] then d else Update(Set(d, e[0].0, e[0].1), e[1..])
  }

  /** After `d.update(e)` the keys of `e` map to their last value in `e` and
      every other key keeps its value from `d`. */
  lemma {:induction false} UpdateGet<V>(d: Dict<V>, e: Dict<V>, k: string)
    ensures !HasKey(e, k) ==> Get(Update(d, e), k) == Get(d, k)
    ensures HasKey(e, k) ==> Get(Update(d, e), k).Some?
    decreases |e|
  {
    if e != [] {
      KeysCons(e);
      UpdateGet(Set(d, e[0].0, e[0].1), e[1..], k);
    }
  }

  /** `dict(pairs)`, or a loop doing `d[k] = v` for each pair in turn. */
  function FromPairs<V>(ps: seq<(string, V)>): (d: Dict<V>)
    decreases |ps|
  {
    if ps == [] then [] else Set(FromPairs(ps[..|ps| - 1]), ps[|ps| - 1].0, ps[|ps| - 1].1)
  }

  lemma FromPairsSnoc<V>(ps: seq<(string, V)>, p: (string, V))
    ensures FromPairs(ps + [p]) == Set(FromPairs(ps), p.0, p.1)
  {
    assert (ps + [p])[..|ps|] == ps;
  }

  /** The last pair with a given key decides its value; keys that never occur
      are absent. */
  lemma {:induction false} FromPairsGet<V>(ps: seq<(string, V)>, i: nat)
    requires i < |ps|
    requires forall j :: i < j < |ps| ==> ps[j].0 != ps[i].0
    ensures Get(FromPairs(ps), ps[i].0) == Some(ps[i].1)
    decreases |ps|
  {
    if i < |ps| - 1 {
      FromPairsGet(ps[..|ps| - 1], i);
    }
  }

  lemma {:induction false} FromPairsAbsent<V>(ps: seq<(string, V)>, k: string)
    requires forall j :: 0 <= j < |ps| ==> ps[j].0 != k
    ensures Get(FromPairs(ps), k) == None
    decreases |ps|
  {
    if ps != [] {
      var init := ps[..|ps| - 1];
      assert forall j :: 0 <= j < |init| ==> init[j].0 != k by {
        forall j | 0 <= j < |init| ensures init[j].0 != k {
          assert init[j] == ps[j];
        }
      }
      FromPairsAbsent(init, k);
      assert ps[|ps| - 1].0 != k;
    }
  }
}
