/** torequests/utils.py: sequence slicing, `itertools_chain`, the timestamp
    normalisation in `ttime`, `Curl.parse` after tokenisation, `Null` and the
    falsy `FailureException`. */
module Utils {

  import opened PyValues
  import opened Dicts

  // ---------------------------------------------------------------------------
  // itertools_chain

  /** Concatenation of a sequence of sequences. */
  function Flatten<T>(xss: seq<seq<T>>): seq<T>
    decreases |xss|
  {
    if xss == [] then [] else Flatten(xss[..|xss| - 1]) + xss[|xss| - 1]
  }

  lemma {:induction false} FlattenAppend<T>(a: seq<seq<T>>, b: seq<seq<T>>)
    ensures Flatten(a + b) == Flatten(a) + Flatten(b)
    decreases |b|
  {
    if b == [] {
      assert a + b == a;
    } else {
      var ab, front, last := a + b, b[..|b| - 1], b[|b| - 1];
      assert ab[..|ab| - 1] == a + front && ab[|ab| - 1] == last;
      assert Flatten(ab) == Flatten(a + front) + last;
      FlattenAppend(a, front);
      assert Flatten(b) == Flatten(front) + last;
    }
  }

  lemma FlattenCons<T>(x: seq<T>, rest: seq<seq<T>>)
    ensures Flatten([x] + rest) == x + Flatten(rest)
  {
    FlattenAppend([x], rest);
    assert Flatten([x]) == Flatten([]) + x;
  }

  /** `itertools_chain(*iterables)`: the generator's two nested loops yield the
      elements of every iterable in turn. */
  method Chain<T>(iterables: seq<seq<T>>) returns (out: seq<T>)
    ensures out == Flatten(iterables)
  {
    out := [];
    var i := 0;
    while i < |iterables|
      invariant 0 <= i <= |iterables|
      invariant out == Flatten(iterables[..i])
    {
      var it := iterables[i];
      var j := 0;
      while j < |it|
        invariant 0 <= j <= |it|
        invariant out == Flatten(iterables[..i]) + it[..j]
      {
        out := out + [it[j]];
        j := j + 1;
      }
      assert iterables[..i + 1][..i] == iterables[..i];
      i := i + 1;
    }
    assert iterables[..i] == iterables;
  }

  // ---------------------------------------------------------------------------
  // slice_by_size / slice_into_pieces

  /** Reference definition of the chunks: consecutive runs of `size` items,
      the last one holding what remains; nothing for a size below 1. */
  function Chunks<T>(s: seq<T>, size: int): seq<seq<T>>
    decreases |s|
  {
    if size <= 0 || s == [] then []
    else if |s| <= size then [s]
    else [s[..size]] + Chunks(s[size..], size)
  }

  /** The chunks concatenate back to the input. */
  lemma {:induction false} ChunksFlatten<T>(s: seq<T>, size: int)
    requires size > 0
    ensures Flatten(Chunks(s, size)) == s
    decreases |s|
  {
    if s == [] {
    } else if |s| <= size {
      FlattenCons(s, []);
    } else {
      ChunksFlatten(s[size..], size);
      FlattenCons(s[..size], Chunks(s[size..], size));
      assert s == s[..size] + s[size..];
    }
  }

  /** No chunk is empty, every chunk but the last has exactly `size` items,
      and the last has between 1 and `size` items. */
  lemma {:induction false} ChunksShape<T>(s: seq<T>, size: int)
    requires size > 0
    ensures var cs := Chunks(s, size);
      (forall i :: 0 <= i < |cs| ==> 1 <= |cs[i]| <= size) &&
      (forall i :: 0 <= i < |cs| - 1 ==> |cs[i]| == size)
    decreases |s|
  {
    if s != [] && |s| > size {
      ChunksShape(s[size..], size);
      var cs := Chunks(s, size);
      assert forall i :: 1 <= i < |cs| ==> cs[i] == Chunks(s[size..], size)[i - 1];
    }
  }

  /** There are ceil(|s| / size) chunks: all but the last are full, so
      (count - 1) * size < |s| <= count * size. */
  lemma {:induction false} ChunksCount<T>(s: seq<T>, size: int)
    requires size > 0
    ensures |Chunks(s, size)| * size >= |s|
    ensures s != [] ==> (|Chunks(s, size)| - 1) * size < |s|
    decreases |s|
  {
    if s != [] && |s| > size {
      ChunksCount(s[size..], size);
      var c := |Chunks(s[size..], size)|;
      assert |Chunks(s, size)| == c + 1;
      assert (c + 1) * size == c * size + size;
    }
  }

  /** The padded stream `itertools_chain(seq, [filling] * size)`. The
      filler is the `null` object; an input item that is `null` itself
      (`isNull`) cannot be told from it, so both are written None. */
  function Padded<T>(s: seq<T>, size: nat, isNull: T -> bool): (p: seq<Option<T>>)
    ensures |p| == |s| + size
  {
    seq(|s| + size, i requires 0 <= i < |s| + size => if i < |s| && !isNull(s[i]) then Some(s[i]) else None)
  }

  /** `tuple(i for i in it if i is not filling)`. */
  function Unfilled<T>(t: seq<Option<T>>): (r: seq<T>)
    ensures |r| <= |t|
    decreases |t|
  {
    if t == [] then []
    else if t[0].Some? then [t[0].value] + Unfilled(t[1..])
    else Unfilled(t[1..])
  }

  /** The items of `s` that are not `null`, in order. */
  function WithoutNull<T>(s: seq<T>, isNull: T -> bool): (r: seq<T>)
    ensures |r| <= |s|
    ensures (forall i :: 0 <= i < |s| ==> !isNull(s[i])) ==> r == s
    ensures forall i :: 0 <= i < |r| ==> !isNull(r[i])
    decreases |s|
  {
    if s == [] then [] else (if isNull(s[0]) then [] else [s[0]]) + WithoutNull(s[1..], isNull)
  }

  lemma {:induction false} WithoutNullAppend<T>(a: seq<T>, b: seq<T>, isNull: T -> bool)
    ensures WithoutNull(a + b, isNull) == WithoutNull(a, isNull) + WithoutNull(b, isNull)
    decreases |a|
  {
    if a == [] {
      assert a + b == b;
    } else {
      assert (a + b)[1..] == a[1..] + b;
      WithoutNullAppend(a[1..], b, isNull);
    }
  }

  /** What `slice_by_size` yields from the chunks of the input: each chunk
      without its `null` items, the chunks left empty dropped. */
  function Kept<T>(cs: seq<seq<T>>, isNull: T -> bool): seq<seq<T>>
    decreases |cs|
  {
    if cs == [] then []
    else
      var w := WithoutNull(cs[0], isNull);
      (if w == [] then [] else [w]) + Kept(cs[1..], isNull)
  }

  lemma KeptCons<T>(c: seq<T>, rest: seq<seq<T>>, isNull: T -> bool)
    ensures Kept([c] + rest, isNull)
         == (if WithoutNull(c, isNull) == [] then [] else [WithoutNull(c, isNull)]) + Kept(rest, isNull)
  {
    assert ([c] + rest)[0] == c && ([c] + rest)[1..] == rest;
  }

  lemma {:induction false} UnfilledPrefix<T>(t: seq<Option<T>>, x: seq<T>, isNull: T -> bool)
    requires |x| <= |t|
    requires forall j :: 0 <= j < |x| ==> t[j] == (if isNull(x[j]) then None else Some(x[j]))
    requires forall j :: |x| <= j < |t| ==> t[j].None?
    ensures Unfilled(t) == WithoutNull(x, isNull)
    decreases |t|
  {
    if t != [] {
      if x == [] {
        UnfilledPrefix(t[1..], x, isNull);
      } else {
        UnfilledPrefix(t[1..], x[1..], isNull);
      }
    }
  }

  /** Where the tuple starting at `pos` ends once the filler is dropped. */
  function PieceEnd(len: nat, size: nat, pos: nat): nat {
    if pos + size <= len then pos + size else len
  }

  /** One tuple of `zip(*(stream,) * size)` after the filler is taken out:
      the input's slice from `pos`, without its `null` items. */
  lemma PieceOfPadded<T>(s: seq<T>, size: nat, pos: nat, isNull: T -> bool)
    requires size > 0 && pos <= |s|
    ensures Unfilled(Padded(s, size, isNull)[pos..pos + size]) == WithoutNull(s[pos..PieceEnd(|s|, size, pos)], isNull)
  {
    UnfilledPrefix(Padded(s, size, isNull)[pos..pos + size], s[pos..PieceEnd(|s|, size, pos)], isNull);
  }

  lemma {:induction false} AllFiller<T>(t: seq<Option<T>>)
    requires forall j :: 0 <= j < |t| ==> t[j].None?
    ensures Unfilled(t) == []
    decreases |t|
  {
    if t != [] {
      AllFiller(t[1..]);
    }
  }

  lemma ChunksFrom<T>(s: seq<T>, size: nat, pos: nat)
    requires size > 0 && pos < |s|
    ensures Chunks(s[pos..], size)
         == [s[pos..PieceEnd(|s|, size, pos)]] + Chunks(s[PieceEnd(|s|, size, pos)..], size)
  {
    var r := s[pos..];
    if |r| > size {
      assert r[..size] == s[pos..pos + size];
      assert r[size..] == s[pos + size..];
    } else {
      assert r == s[pos..|s|];
      assert s[|s|..] == [];
    }
  }

  /** What is still to be yielded from position `pos` of the input. */
  function Ahead<T>(s: seq<T>, size: nat, pos: nat, isNull: T -> bool): seq<seq<T>> {
    if pos <= |s| then Kept(Chunks(s[pos..], size), isNull) else []
  }

  lemma AheadFromStart<T>(s: seq<T>, size: nat, isNull: T -> bool)
    ensures Ahead(s, size, 0, isNull) == Kept(Chunks(s, size), isNull)
  {
    assert s[0..] == s;
  }

  /** One tuple of the zip: the `null`-free items from `pos`, when
      non-empty, are the next chunk to yield. */
  lemma SliceStep<T>(s: seq<T>, size: nat, pos: nat, next: nat, isNull: T -> bool)
    requires size > 0 && pos <= |s| && next == pos + size
    ensures var piece := Unfilled(Padded(s, size, isNull)[pos..pos + size]);
      Ahead(s, size, pos, isNull) == (if piece != [] then [piece] else []) + Ahead(s, size, next, isNull)
  {
    if pos < |s| {
      PieceOfPadded(s, size, pos, isNull);
      SliceStepWithin(s, size, pos, next, isNull);
    } else {
      AllFiller(Padded(s, size, isNull)[pos..pos + size]);
      assert s[pos..] == [];
    }
  }

  lemma SliceStepWithin<T>(s: seq<T>, size: nat, pos: nat, next: nat, isNull: T -> bool)
    requires size > 0 && pos < |s| && next == pos + size
    ensures var piece := WithoutNull(s[pos..PieceEnd(|s|, size, pos)], isNull);
      Ahead(s, size, pos, isNull) == (if piece != [] then [piece] else []) + Ahead(s, size, next, isNull)
  {
    var end := PieceEnd(|s|, size, pos);
    ChunksFrom(s, size, pos);
    KeptCons(s[pos..end], Chunks(s[end..], size), isNull);
    if next > |s| {
      assert s[end..] == [];
    }
  }

  /** One pass of the loop in `SliceBySize` keeps its invariant: what was
      yielded plus what is ahead is everything. */
  lemma YieldStep<T>(before: seq<seq<T>>, after: seq<seq<T>>, piece: seq<T>,
                     ahead: seq<seq<T>>, rest: seq<seq<T>>, all: seq<seq<T>>)
    requires before + ahead == all
    requires ahead == (if piece != [] then [piece] else []) + rest
    requires after == if piece != [] then before + [piece] else before
    ensures after + rest == all
  {
    if piece != [] {
      assert before + [piece] + rest == before + ([piece] + rest);
    } else {
      assert [] + rest == rest;
    }
  }

  /** `slice_by_size(seq, size)`: zip `size` references to one iterator over
      the padded stream, strip the filler from each tuple and yield the
      non-empty ones. */
  method SliceBySize<T>(s: seq<T>, size: int, isNull: T -> bool) returns (chunks: seq<seq<T>>)
    ensures chunks == Kept(Chunks(s, size), isNull)
  {
    chunks := [];
    if size <= 0 {
      // `zip()` with no arguments yields nothing.
      return;
    }
    var stream := Padded(s, size, isNull);
    ghost var all := Ahead(s, size, 0, isNull);
    AheadFromStart(s, size, isNull);
    var pos: nat := 0;
    while pos + size <= |stream|
      invariant pos <= |s| + size
      invariant chunks + Ahead(s, size, pos, isNull) == all
      decreases |stream| - pos
    {
      var piece := Unfilled(stream[pos..pos + size]);
      ghost var before := chunks;
      if piece != [] {
        chunks := chunks + [piece];
      }
      var next := pos + size;
      SliceStep(s, size, pos, next, isNull);
      YieldStep(before, chunks, piece, Ahead(s, size, pos, isNull), Ahead(s, size, next, isNull), all);
      pos := next;
    }
    assert chunks + [] == chunks;
  }

  /** Without `null` items the yielded chunks are exactly the chunks. */
  lemma {:induction false} KeptChunks<T>(s: seq<T>, size: int, isNull: T -> bool)
    requires size > 0 && forall i :: 0 <= i < |s| ==> !isNull(s[i])
    ensures Kept(Chunks(s, size), isNull) == Chunks(s, size)
    decreases |s|
  {
    if s != [] && |s| > size {
      KeptChunks(s[size..], size, isNull);
      var cs := Chunks(s, size);
      assert cs[0] == s[..size] && cs[1..] == Chunks(s[size..], size);
    }
  }

  lemma {:induction false} KeptFlatten<T>(cs: seq<seq<T>>, isNull: T -> bool)
    ensures Flatten(Kept(cs, isNull)) == WithoutNull(Flatten(cs), isNull)
    decreases |cs|
  {
    if cs != [] {
      KeptFlatten(cs[1..], isNull);
      assert cs == [cs[0]] + cs[1..];
      FlattenCons(cs[0], cs[1..]);
      WithoutNullAppend(cs[0], Flatten(cs[1..]), isNull);
      KeptCons(cs[0], cs[1..], isNull);
      var w := WithoutNull(cs[0], isNull);
      var k := Kept(cs[1..], isNull);
      assert WithoutNull(Flatten(cs), isNull) == w + Flatten(k);
      if w == [] {
        assert Kept(cs, isNull) == k;
      } else {
        assert Kept(cs, isNull) == [w] + k;
        FlattenCons(w, k);
      }
    }
  }

  /** The chunks yielded hold exactly the input's items that are not
      `null`, in order. */
  lemma SliceBySizeItems<T>(s: seq<T>, size: int, isNull: T -> bool)
    requires size > 0
    ensures Flatten(Kept(Chunks(s, size), isNull)) == WithoutNull(s, isNull)
  {
    KeptFlatten(Chunks(s, size), isNull);
    ChunksFlatten(s, size);
  }

  /** Python's `//` and `%` (floor division) on integers. */
  function FloorDiv(a: int, b: int): int
    requires b != 0
  {
    if b > 0 then a / b else (-a) / (-b)
  }

  function FloorMod(a: int, b: int): (r: int)
    requires b != 0
    ensures a == FloorDiv(a, b) * b + r
    ensures b > 0 ==> 0 <= r < b
    ensures b < 0 ==> b < r <= 0
  {
    a - FloorDiv(a, b) * b
  }

  /** The chunk size `slice_into_pieces` computes: ceil(length / n). */
  function PieceSize(length: nat, n: int): int
    requires n != 0
  {
    if FloorMod(length, n) == 0 then FloorDiv(length, n) else FloorDiv(length, n) + 1
  }

  /** `slice_into_pieces(seq, n)`; n == 0 raises ZeroDivisionError. */
  method SliceIntoPieces<T>(s: seq<T>, n: int, isNull: T -> bool) returns (r: Result<seq<seq<T>>>)
    ensures n == 0 <==> r.Err?
    ensures r.Err? ==> r.error.cls == "ZeroDivisionError"
    ensures n != 0 ==> r == Ok(Kept(Chunks(s, PieceSize(|s|, n)), isNull))
  {
    if n == 0 {
      return Err(Builtin("ZeroDivisionError", "integer division or modulo by zero"));
    }
    var length := |s|;
    var size := if FloorMod(length, n) == 0 then FloorDiv(length, n) else FloorDiv(length, n) + 1;
    var pieces := SliceBySize(s, size, isNull);
    r := Ok(pieces);
  }

  /** For n > 0 and a non-empty input the piece size is positive and n pieces
      of it cover the input. */
  lemma PieceSizeCovers(length: nat, n: int)
    requires n > 0 && length > 0
    ensures PieceSize(length, n) >= 1 && PieceSize(length, n) * n >= length
  {
    var q, r := length / n, length % n;
    assert FloorDiv(length, n) == q;
    assert FloorMod(length, n) == r;
    assert length == q * n + r;
    if r != 0 {
      assert (q + 1) * n == q * n + n;
    }
  }

  /** For n > 0 the pieces are at most n and concatenate back to the input. */
  lemma PiecesBound<T>(s: seq<T>, n: int)
    requires n > 0
    ensures |Chunks(s, PieceSize(|s|, n))| <= n
    ensures Flatten(Chunks(s, PieceSize(|s|, n))) == s
  {
    if s != [] {
      var size := PieceSize(|s|, n);
      PieceSizeCovers(|s|, n);
      ChunksCount(s, size);
      ChunksFlatten(s, size);
      var c := |Chunks(s, size)|;
      assert (c - 1) * size < n * size;
      MulLess(c - 1, n, size);
    }
  }

  lemma MulLess(a: int, b: int, c: int)
    requires c > 0 && a * c < b * c
    ensures a < b
  {
    assert (b - a) * c == b * c - a * c;
  }

  /** A negative n gives a piece size of at most 0, so nothing is yielded. */
  lemma NegativePieces<T>(s: seq<T>, n: int)
    requires n < 0
    ensures Chunks(s, PieceSize(|s|, n)) == []
  {
    if |s| > 0 {
      var m := -n;
      var q, r := (-|s|) / m, (-|s|) % m;
      assert q * m + r == -|s|;
      assert FloorDiv(|s|, n) == q;
      assert PieceSize(|s|, n) <= 0;
    }
  }

  /** `slice_into_pieces(range(10), 3)` gives pieces of 4, 4 and 2 items. */
  lemma TenIntoThree(s: seq<int>)
    requires |s| == 10
    ensures Chunks(s, PieceSize(|s|, 3)) == [s[..4], s[4..8], s[8..]]
  {
    assert PieceSize(10, 3) == 4;
    assert Chunks(s[8..], 4) == [s[8..]];
    assert s[4..][..4] == s[4..8] && s[4..][4..] == s[8..];
    assert Chunks(s[4..], 4) == [s[4..8]] + Chunks(s[8..], 4);
  }

  // ---------------------------------------------------------------------------
  // ttime: `int(str(timestamp).split('.')[0][:10])`

  /** `Config.TIMEZONE`, the default time-zone compensation in hours. */
  const TIMEZONE: int := 8

  function Pow10(k: nat): (p: nat)
    ensures p >= 1
  {
    if k == 0 then 1 else 10 * Pow10(k - 1)
  }

  predicate AllDigits(s: string) {
    forall i :: 0 <= i < |s| ==> '0' <= s[i] <= '9'
  }

  /** The number a string of decimal digits denotes. */
  function DigitsValue(s: string): nat
    requires AllDigits(s)
    decreases |s|
  {
    if s == [] then 0 else 10 * DigitsValue(s[..|s| - 1]) + ((s[|s| - 1] as int) - ('0' as int))
  }

  /** A base-10 digit string in which single underscores may separate
      digits, as `int()` accepts it. */
  predicate Grouped(s: string) {
    && s != [] && '0' <= s[0] <= '9' && '0' <= s[|s| - 1] <= '9'
    && (forall i :: 0 <= i < |s| ==> '0' <= s[i] <= '9' || s[i] == '_')
    && (forall i :: 0 <= i < |s| - 1 ==> s[i] == '_' ==> s[i + 1] != '_')
  }

  /** The digits of a grouped literal, underscores removed. */
  function Ungrouped(s: string): (r: string)
    requires forall i :: 0 <= i < |s| ==> '0' <= s[i] <= '9' || s[i] == '_'
    ensures AllDigits(r)
    ensures AllDigits(s) ==> r == s
    decreases |s|
  {
    if s == [] then [] else (if s[0] == '_' then [] else [s[0]]) + Ungrouped(s[1..])
  }

  /** A grouped literal after one '-' or '+'. */
  predicate SignedGrouped(t: string) {
    |t| > 1 && (t[0] == '-' || t[0] == '+') && Grouped(t[1..])
  }

  /** `int(text)` for a base-10 literal: surrounding whitespace, one sign and
      underscores between digits are allowed, anything else is a
      ValueError. */
  function ParseInt(text: string): (r: Result<int>)
    ensures r.Err? ==> r.error.cls == "ValueError"
    ensures r.Ok? <==> Grouped(Strip(text)) || SignedGrouped(Strip(text))
  {
    var t := Strip(text);
    if SignedGrouped(t) then
      var magnitude: int := DigitsValue(Ungrouped(t[1..]));
      Ok(if t[0] == '-' then -magnitude else magnitude)
    else if Grouped(t) then Ok(DigitsValue(Ungrouped(t)))
    else Err(Builtin("ValueError", "invalid literal for int() with base 10"))
  }

  /** A grouped literal with nothing around it reads as its digits. */
  lemma ParseGrouped(s: string)
    requires Grouped(s)
    ensures ParseInt(s) == Ok(DigitsValue(Ungrouped(s)))
  {
    NoSpaceStrip(s);
  }

  /** An underscore between two digit runs does not change the value
      `int()` reads. */
  lemma UnderscoreIgnored(a: string, b: string)
    requires a != [] && b != [] && AllDigits(a) && AllDigits(b)
    ensures ParseInt(a + "_" + b) == ParseInt(a + b)
  {
    JoinGrouped(a, b);
    ParseGrouped(a + "_" + b);
    assert Grouped(a + b);
    ParseGrouped(a + b);
  }

  lemma JoinGrouped(a: string, b: string)
    requires a != [] && b != [] && AllDigits(a) && AllDigits(b)
    ensures Grouped(a + "_" + b) && Ungrouped(a + "_" + b) == a + b
  {
    var s := a + "_" + b;
    JoinAt(a, b);
    assert s[0] == a[0] && s[|s| - 1] == b[|b| - 1];
    JoinCharacters(a, b);
    JoinSingleUnderscore(a, b);
    JoinUngrouped(a, b);
  }

  lemma JoinCharacters(a: string, b: string)
    requires AllDigits(a) && AllDigits(b)
    ensures var s := a + "_" + b; forall i :: 0 <= i < |s| ==> '0' <= s[i] <= '9' || s[i] == '_'
  {
    var s := a + "_" + b;
    JoinAt(a, b);
    forall i | 0 <= i < |s|
      ensures '0' <= s[i] <= '9' || s[i] == '_'
    {
      if i < |a| {
        assert s[i] == a[i];
      } else if i > |a| {
        assert s[i] == b[i - |a| - 1];
      }
    }
  }

  lemma JoinSingleUnderscore(a: string, b: string)
    requires b != [] && AllDigits(a) && AllDigits(b)
    ensures var s := a + "_" + b; forall i :: 0 <= i < |s| - 1 ==> s[i] == '_' ==> s[i + 1] != '_'
  {
    var s := a + "_" + b;
    JoinAt(a, b);
    forall i | 0 <= i < |s| - 1
      ensures s[i] == '_' ==> s[i + 1] != '_'
    {
      if i < |a| {
        assert s[i] == a[i];
      } else if i > |a| {
        assert s[i] == b[i - |a| - 1];
      } else {
        assert s[i + 1] == b[0];
      }
    }
  }

  /** Where the characters of `a + "_" + b` come from. */
  lemma JoinAt(a: string, b: string)
    ensures var s := a + "_" + b;
      && |s| == |a| + 1 + |b|
      && (forall i :: 0 <= i < |a| ==> s[i] == a[i])
      && s[|a|] == '_'
      && (forall i :: 0 <= i < |b| ==> s[|a| + 1 + i] == b[i])
  {
  }

  lemma JoinUngrouped(a: string, b: string)
    requires AllDigits(a) && AllDigits(b)
    ensures Ungrouped(a + "_" + b) == a + b
  {
    var u: string := "_";
    var tail := u + b;
    assert forall i :: 0 <= i < |tail| ==> '0' <= tail[i] <= '9' || tail[i] == '_';
    assert a + "_" + b == a + tail;
    UngroupedAppend(a, tail);
    assert tail[0] == '_' && tail[1..] == b;
    assert Ungrouped(tail) == Ungrouped(b);
  }

  lemma {:induction false} UngroupedAppend(x: string, y: string)
    requires forall i :: 0 <= i < |x| ==> '0' <= x[i] <= '9' || x[i] == '_'
    requires forall i :: 0 <= i < |y| ==> '0' <= y[i] <= '9' || y[i] == '_'
    ensures Ungrouped(x + y) == Ungrouped(x) + Ungrouped(y)
    decreases |x|
  {
    if x != [] {
      assert (x + y)[1..] == x[1..] + y;
      UngroupedAppend(x[1..], y);
    } else {
      assert x + y == y;
    }
  }

  /** A string with no whitespace at either end is its own `strip()`. */
  lemma NoSpaceStrip(s: string)
    requires forall i :: 0 <= i < |s| ==> '0' <= s[i] <= '9' || s[i] == '_'
    ensures Strip(s) == s
  {
  }

  /** The whole seconds `ttime` formats, from the text `str(timestamp)`:
      the integer part, cut to its first 10 characters. */
  function TimestampSeconds(text: string): (r: Result<int>)
    ensures r.Err? ==> r.error.cls == "ValueError"
    ensures var whole := Split(text, '.')[0];
      whole != [] && AllDigits(whole) ==> r == Ok(DigitsValue(if |whole| <= 10 then whole else whole[..10]))
  {
    var whole := Split(text, '.')[0];
    var head := if |whole| <= 10 then whole else whole[..10];
    if whole != [] && AllDigits(whole) then
      ParseDigitString(head);
      ParseInt(head)
    else ParseInt(head)
  }

  /** A non-empty run of decimal digits reads as the number it denotes. */
  lemma ParseDigitString(w: string)
    requires w != [] && AllDigits(w)
    ensures ParseInt(w) == Ok(DigitsValue(w))
  {
    assert Grouped(w);
    ParseGrouped(w);
  }

  /** `ttime(timestamp, tzone, fail)`. `timestamp` is the text `str()` gives
      for the argument (None when it is not passed), `now` the text of
      `time.time()`, `localOffset` `time.timezone`, and `strftime` formats a
      local time or fails. The integer conversion sits outside the `try`, so a
      malformed timestamp raises; a formatting failure returns `fail`. */
  function Ttime(timestamp: Option<string>, now: string, tzone: Option<int>, localOffset: int,
                 fail: string, strftime: int -> Option<string>): (r: Result<string>)
    ensures r.Err? <==> TimestampSeconds(TtimeText(timestamp, now)).Err?
    ensures r.Err? ==> r.error.cls == "ValueError"
    ensures r.Ok? ==>
              || r.value == fail
              || strftime(TimestampSeconds(TtimeText(timestamp, now)).value + (localOffset + TtimeZone(tzone) * 3600)) == Some(r.value)
    ensures var seconds := TimestampSeconds(TtimeText(timestamp, now));
      seconds.Ok? && strftime(seconds.value + (localOffset + TtimeZone(tzone) * 3600)).None? ==> r == Ok(fail)
    ensures var seconds := TimestampSeconds(TtimeText(timestamp, now));
      seconds.Ok? && strftime(seconds.value + (localOffset + TtimeZone(tzone) * 3600)).Some? ==>
        r == Ok(strftime(seconds.value + (localOffset + TtimeZone(tzone) * 3600)).value)
  {
    FormatSeconds(TimestampSeconds(TtimeText(timestamp, now)), localOffset + TtimeZone(tzone) * 3600, fail, strftime)
  }

  /** `str(timestamp)`, or the current time's text when none is given. */
  function TtimeText(timestamp: Option<string>, now: string): string {
    if timestamp.Some? then timestamp.value else now
  }

  /** `tzone`, defaulting to `Config.TIMEZONE`. */
  function TtimeZone(tzone: Option<int>): int {
    if tzone.None? then TIMEZONE else tzone.value
  }

  /** The seconds shifted by the zone compensation and formatted, or the
      conversion's error. */
  function FormatSeconds(seconds: Result<int>, shift: int, fail: string, strftime: int -> Option<string>): (r: Result<string>)
    ensures r.Err? <==> seconds.Err?
    ensures r.Err? ==> r.error == seconds.error
    ensures r.Ok? ==> r.value == fail || strftime(seconds.value + shift) == Some(r.value)
    ensures seconds.Ok? && strftime(seconds.value + shift).None? ==> r == Ok(fail)
    ensures seconds.Ok? && strftime(seconds.value + shift).Some? ==> r == Ok(strftime(seconds.value + shift).value)
  {
    match seconds
    case Err(e) => Err(e)
    case Ok(t) => Ok(FormatLocal(t + shift, fail, strftime))
  }

  /** The `try` around `strftime(fmt, localtime(t))`. */
  function FormatLocal(t: int, fail: string, strftime: int -> Option<string>): string {
    match strftime(t)
    case Some(s) => s
    case None => fail
  }

  lemma {:induction false} DigitsRoundTrip(n: nat)
    ensures DigitsValue(DecimalDigits(n)) == n
    decreases n
  {
    var d := DecimalDigits(n);
    if n >= 10 {
      DigitsRoundTrip(n / 10);
      assert d[..|d| - 1] == DecimalDigits(n / 10);
    }
  }

  lemma {:induction false} DigitsLength(n: nat, k: nat)
    requires n < Pow10(k)
    ensures |DecimalDigits(n)| <= k || (n == 0 && k == 0)
    decreases k
  {
    if n >= 10 {
      DigitsLength(n / 10, k - 1);
    }
  }

  lemma {:induction false} DigitsLengthBelow(n: nat, k: nat)
    requires Pow10(k) <= n
    ensures |DecimalDigits(n)| > k
    decreases k
  {
    if k > 0 {
      DigitsLengthBelow(n / 10, k - 1);
    }
  }

  /** `int(str(n)) == n`. */
  lemma ParseDigits(n: nat)
    ensures ParseInt(DecimalDigits(n)) == Ok(n)
  {
    DigitsRoundTrip(n);
    ParseDigitString(DecimalDigits(n));
  }

  lemma NoDotInDigits(n: nat, frac: string)
    ensures Split(DecimalDigits(n), '.')[0] == DecimalDigits(n)
    ensures Split(DecimalDigits(n) + "." + frac, '.')[0] == DecimalDigits(n)
  {
    var d := DecimalDigits(n);
    assert '.' !in d;
    var t := d + "." + frac;
    assert t[|d|] == '.' && t[..|d|] == d;
  }

  /** A timestamp of at most 10 digits, written with or without a fraction,
      converts to itself. */
  lemma ShortTimestamp(m: nat, frac: string)
    requires m < Pow10(10)
    ensures TimestampSeconds(DecimalDigits(m)) == Ok(m)
    ensures TimestampSeconds(DecimalDigits(m) + "." + frac) == Ok(m)
  {
    DigitsLength(m, 10);
    NoDotInDigits(m, frac);
    ParseDigits(m);
  }

  lemma Pow10Values()
    ensures Pow10(10) == 10000000000 && Pow10(13) == 10000000000000
  {
    assert Pow10(5) == 100000;
    assert Pow10(10) == 10000000000;
  }

  /** Dropping the last digit of a number of two or more digits. */
  lemma DropDigit(n: nat)
    requires n >= 10
    ensures DecimalDigits(n)[..|DecimalDigits(n)| - 1] == DecimalDigits(n / 10)
  {
  }

  lemma FirstTenOfThirteen(m: nat)
    requires |DecimalDigits(m)| == 13
    ensures DecimalDigits(m)[..10] == DecimalDigits(m / 1000)
  {
    var d := DecimalDigits(m);
    DropDigit(m);
    assert d[..12] == DecimalDigits(m / 10);
    DropDigit(m / 10);
    assert m / 10 / 10 == m / 100;
    DropDigit(m / 100);
    assert m / 100 / 10 == m / 1000;
    assert d[..10] == d[..12][..11][..10];
  }

  /** A millisecond timestamp (13 digits) converts to its seconds value. */
  lemma MillisecondSeconds(m: nat)
    requires Pow10(12) <= m < Pow10(13)
    ensures TimestampSeconds(DecimalDigits(m)) == Ok(m / 1000)
  {
    DigitsLength(m, 13);
    DigitsLengthBelow(m, 12);
    var d := DecimalDigits(m);
    NoDotInDigits(m, "");
    FirstTenOfThirteen(m);
    ParseDigits(m / 1000);
  }

  /** `ttime` depends on its timestamp only through the whole seconds. */
  lemma SameSeconds(a: string, b: string, now: string, tzone: Option<int>, localOffset: int,
                    fail: string, strftime: int -> Option<string>)
    requires TimestampSeconds(a) == TimestampSeconds(b)
    ensures Ttime(Some(a), now, tzone, localOffset, fail, strftime)
         == Ttime(Some(b), now, tzone, localOffset, fail, strftime)
  {
  }

  /** So `ttime` formats a millisecond timestamp as it formats `m // 1000`. */
  lemma MillisecondTimestamp(m: nat, now: string, tzone: Option<int>, localOffset: int,
                             fail: string, strftime: int -> Option<string>)
    requires Pow10(12) <= m < Pow10(13)
    ensures Ttime(Some(DecimalDigits(m)), now, tzone, localOffset, fail, strftime)
         == Ttime(Some(DecimalDigits(m / 1000)), now, tzone, localOffset, fail, strftime)
  {
    MillisecondSeconds(m);
    Pow10Values();
    ShortTimestamp(m / 1000, "");
    SameSeconds(DecimalDigits(m), DecimalDigits(m / 1000), now, tzone, localOffset, fail, strftime);
  }

  // ---------------------------------------------------------------------------
  // Curl.parse, after shlex/argparse have tokenised the command

  /** The argparse namespace (`verb` is `args.method`): `-I`, `-X` (default 'get'), `-A`, `-u`, `-d`,
      `--data-binary` and the `-H` list, in order. */
  datatype CurlArgs = CurlArgs(url: string, head: bool, verb: string, userAgent: Option<string>,
                               user: Option<string>, data: Option<string>, dataBinary: Option<string>,
                               headers: seq<string>)

  const FORM_TYPE: string := "application/x-www-form-urlencoded"
  const JSON_TYPE: string := "application/json"

  datatype RequestBody = NoBody | Form(fields: Dict<string>) | Json(value: Value) | Raw(bytes: seq<byte>)

  /** The keyword arguments `Curl.parse` builds for `requests.request`;
      `headers` and `auth` are keys that may be absent, `verb` is `method`. */
  datatype CurlRequest = CurlRequest(url: string, headers: Option<Dict<string>>,
                                     auth: Option<(string, string)>, body: RequestBody, verb: string)

  /** `s.split(c, 1)`: the text before the first `c` and, when there is one,
      the text after it. */
  function SplitOnce(s: string, c: char): (r: (string, Option<string>))
    ensures r.1.None? <==> c !in s
    ensures r.1.None? ==> r.0 == s
    ensures r.1.Some? ==> s == r.0 + [c] + r.1.value && c !in r.0
  {
    match Find(s, c)
    case None => (s, None)
    case Some(k) =>
      assert s == s[..k] + [c] + s[k + 1..];
      (s[..k], Some(s[k + 1..]))
  }

  predicate HasColon(h: string) {
    ':' in h
  }

  /** Every header holds a ':'. */
  predicate AllColons(hs: seq<string>)
    decreases |hs|
  {
    hs == [] || (AllColons(hs[..|hs| - 1]) && HasColon(hs[|hs| - 1]))
  }

  lemma {:induction false} AllColonsPrefix(hs: seq<string>, n: nat)
    requires n <= |hs|
    ensures AllColons(hs) ==> AllColons(hs[..n])
    decreases |hs|
  {
    if n < |hs| {
      AllColonsPrefix(hs[..|hs| - 1], n);
      assert hs[..|hs| - 1][..n] == hs[..n];
    } else {
      assert hs[..n] == hs;
    }
  }

  lemma {:induction false} AllColonsIndex(hs: seq<string>)
    ensures AllColons(hs) <==> forall i :: 0 <= i < |hs| ==> HasColon(hs[i])
    decreases |hs|
  {
    if hs != [] {
      AllColonsIndex(hs[..|hs| - 1]);
    }
  }

  /** `key, value = header.split(":", 1)` then `value.strip()`. */
  function HeaderPair(h: string): (string, string) {
    var (k, v) := SplitOnce(h, ':');
    (k, Strip(v.GetOr("")))
  }

  function HeaderPairs(hs: seq<string>): (ps: seq<(string, string)>)
    ensures |ps| == |hs| && forall i {:trigger ps[i]} :: 0 <= i < |hs| ==> ps[i] == HeaderPair(hs[i])
  {
    seq(|hs|, i requires 0 <= i < |hs| => HeaderPair(hs[i]))
  }

  const UNPACK_ERROR: string := "not enough values to unpack (expected 2, got 1)"

  /** One pass of the header loop: split at the first ':' and store the
      stripped value, or fail to unpack. */
  function AddHeader(d: Dict<string>, h: string): Result<Dict<string>> {
    if HasColon(h) then Ok(Set(d, HeaderPair(h).0, HeaderPair(h).1))
    else Err(Builtin("ValueError", UNPACK_ERROR))
  }

  /** The header loop run over a list of headers, header by header. */
  function HeaderFold(hs: seq<string>): Result<Dict<string>>
    decreases |hs|
  {
    if hs == [] then Ok([])
    else match HeaderFold(hs[..|hs| - 1])
      case Err(e) => Err(e)
      case Ok(d) => AddHeader(d, hs[|hs| - 1])
  }

  /** The loop fails exactly when some header has no ':'; otherwise every key
      ends up with the stripped value of its last header. */
  lemma {:induction false} HeaderFoldSpec(hs: seq<string>)
    ensures HeaderFold(hs).Err? <==> !AllColons(hs)
    ensures HeaderFold(hs).Err? ==> HeaderFold(hs).error.cls == "ValueError"
    ensures HeaderFold(hs).Ok? ==> HeaderFold(hs).value == FromPairs(HeaderPairs(hs))
    decreases |hs|
  {
    if hs != [] {
      var init := hs[..|hs| - 1];
      HeaderFoldSpec(init);
      var ps := HeaderPairs(hs);
      assert ps[..|hs| - 1] == HeaderPairs(init);
    }
  }

  /** Once a prefix fails, the whole loop fails with the same error. */
  lemma {:induction false} HeaderFoldStop(hs: seq<string>, i: nat)
    requires i <= |hs| && HeaderFold(hs[..i]).Err?
    ensures HeaderFold(hs) == HeaderFold(hs[..i])
    decreases |hs|
  {
    if i == |hs| {
      assert hs[..i] == hs;
    } else {
      var init := hs[..|hs| - 1];
      assert init[..i] == hs[..i];
      HeaderFoldStop(init, i);
    }
  }

  /** The `for header in args.header` loop. A header without ':' cannot be
      unpacked into two names (ValueError); otherwise every key ends up with
      the stripped value of its last header, and no other key is present. */
  method ParseHeaders(hs: seq<string>) returns (r: Result<Dict<string>>)
    ensures r.Err? <==> !AllColons(hs)
    ensures r.Err? ==> r.error.cls == "ValueError"
    ensures r.Ok? ==> r.value == FromPairs(HeaderPairs(hs))
  {
    var headers: Dict<string> := [];
    var i := 0;
    while i < |hs|
      invariant 0 <= i <= |hs|
      invariant HeaderFold(hs[..i]) == Ok(headers)
    {
      assert hs[..i + 1][..i] == hs[..i];
      if !HasColon(hs[i]) {
        HeaderFoldStop(hs, i + 1);
        HeaderFoldSpec(hs);
        return Err(Builtin("ValueError", UNPACK_ERROR));
      }
      var pair := HeaderPair(hs[i]);
      headers := Set(headers, pair.0, pair.1);
      i := i + 1;
    }
    assert hs[..i] == hs;
    HeaderFoldSpec(hs);
    r := Ok(headers);
  }

  /** Every header key ends up with the stripped value of its last header. */
  lemma HeadersLastWins(hs: seq<string>, i: nat)
    requires i < |hs|
    requires forall j :: i < j < |hs| ==> HeaderPair(hs[j]).0 != HeaderPair(hs[i]).0
    ensures Get(FromPairs(HeaderPairs(hs)), HeaderPair(hs[i]).0) == Some(HeaderPair(hs[i]).1)
  {
    FromPairsGet(HeaderPairs(hs), i);
  }

  /** `tuple(args.user.split(':', 1) + [''])[:2]`: the password defaults to ''. */
  function Auth(user: string): (r: (string, string))
    ensures ':' in user ==> user == r.0 + ":" + r.1 && ':' !in r.0
    ensures ':' !in user ==> r == (user, "")
  {
    var (name, password) := SplitOnce(user, ':');
    (name, password.GetOr(""))
  }

  /** One form field `i`: `i.split('=')[0]` and `unquote_plus(i.split('=')[1])`,
      an IndexError when `i` holds no '='. */
  function FormField(item: string, unquotePlus: string -> string): (r: Result<(string, string)>)
    ensures r.Ok? <==> '=' in item
    ensures r.Ok? ==> r.value == (Split(item, '=')[0], unquotePlus(Split(item, '=')[1]))
  {
    var parts := Split(item, '=');
    if |parts| < 2 then
      assert parts == [item];
      Err(Builtin("IndexError", "list index out of range"))
    else Ok((parts[0], unquotePlus(parts[1])))
  }

  /** Every '&'-separated item holds an '='. */
  predicate WellFormedForm(items: seq<string>) {
    forall i :: 0 <= i < |items| ==> '=' in items[i]
  }

  function FormFieldList(items: seq<string>, unquotePlus: string -> string): (r: Result<seq<(string, string)>>)
    ensures r.Ok? <==> WellFormedForm(items)
    ensures r.Ok? ==> |r.value| == |items| && forall i :: 0 <= i < |items| ==> Ok(r.value[i]) == FormField(items[i], unquotePlus)
    decreases |items|
  {
    if items == [] then Ok([])
    else match FormField(items[0], unquotePlus)
      case Err(e) => Err(e)
      case Ok(f) =>
        match FormFieldList(items[1..], unquotePlus)
        case Err(e) =>
          assert exists i :: 1 <= i < |items| && '=' !in items[i] by {
            var i :| 0 <= i < |items[1..]| && '=' !in items[1..][i];
            assert items[i + 1] == items[1..][i];
          }
          Err(e)
        case Ok(fs) =>
          assert forall i :: 1 <= i < |items| ==> items[i] == items[1..][i - 1];
          Ok([f] + fs)
  }

  /** The form branch: `dict([... for i in data.split('&')])`, keyed by the
      text before each pair's first '='. */
  function FormData(data: string, unquotePlus: string -> string): (r: Result<Dict<string>>)
    ensures r.Ok? <==> WellFormedForm(Split(data, '&'))
    ensures r.Err? ==> r.error.cls == "IndexError"
  {
    var items := Split(data, '&');
    match FormFieldList(items, unquotePlus)
    case Err(e) =>
      FormFieldErr(items, unquotePlus);
      Err(e)
    case Ok(fields) => Ok(FromPairs(fields))
  }

  lemma {:induction false} FormFieldErr(items: seq<string>, unquotePlus: string -> string)
    requires FormFieldList(items, unquotePlus).Err?
    ensures FormFieldList(items, unquotePlus).error.cls == "IndexError"
    decreases |items|
  {
    if FormField(items[0], unquotePlus).Ok? {
      FormFieldErr(items[1..], unquotePlus);
    }
  }

  /** Each field of well-formed form data maps to the unquoted value of the
      last pair with its key. */
  lemma FormDataGet(data: string, unquotePlus: string -> string, i: nat)
    requires FormData(data, unquotePlus).Ok?
    requires i < |Split(data, '&')|
    requires forall j :: i < j < |Split(data, '&')| ==> Split(Split(data, '&')[j], '=')[0] != Split(Split(data, '&')[i], '=')[0]
    ensures Get(FormData(data, unquotePlus).value, Split(Split(data, '&')[i], '=')[0])
         == Some(unquotePlus(Split(Split(data, '&')[i], '=')[1]))
  {
    var items := Split(data, '&');
    var fields := FormFieldList(items, unquotePlus).value;
    assert forall j :: 0 <= j < |items| ==> fields[j] == FormField(items[j], unquotePlus).value;
    FromPairsGet(fields, i);
  }

  /** `t in s` for two str values. */
  predicate IsSubstring(t: string, s: string)
    decreases |s|
  {
    t <= s || (s != [] && IsSubstring(t, s[1..]))
  }

  lemma {:induction false} SubstringAt(t: string, s: string, i: nat)
    requires i + |t| <= |s| && s[i..i + |t|] == t
    ensures IsSubstring(t, s)
    decreases i
  {
    if i > 0 {
      assert s[1..][i - 1..i - 1 + |t|] == t;
      SubstringAt(t, s[1..], i - 1);
    }
  }

  /** The JSON test as written at utils.py:133: `('application/json')` is a
      parenthesised str, not a tuple, so `in` is a substring test, and a
      missing Content-Type (None) raises TypeError. */
  function JsonTestAsWritten(contentType: Option<string>): (r: Result<bool>)
    ensures contentType.None? <==> r.Err?
    ensures r.Err? ==> r.error.cls == "TypeError"
  {
    match contentType
    case None => Err(Builtin("TypeError", "'in <string>' requires string as left operand, not NoneType"))
    case Some(t) => Ok(IsSubstring(t, JSON_TYPE))
  }

  function MapForm(r: Result<Dict<string>>): (m: Result<RequestBody>)
    ensures r.Ok? ==> m == Ok(Form(r.value))
    ensures r.Err? ==> m == Err(r.error)
  {
    match r
    case Ok(fields) => Ok(Form(fields))
    case Err(e) => Err(e)
  }

  function MapJson(r: Result<Value>): (m: Result<RequestBody>)
    ensures r.Ok? ==> m == Ok(Json(r.value))
    ensures r.Err? ==> m == Err(r.error)
  {
    match r
    case Ok(v) => Ok(Json(v))
    case Err(e) => Err(e)
  }

  function MapRaw(r: Result<seq<byte>>): (m: Result<RequestBody>)
    ensures r.Ok? ==> m == Ok(Raw(r.value))
    ensures r.Err? ==> m == Err(r.error)
  {
    match r
    case Ok(b) => Ok(Raw(b))
    case Err(e) => Err(e)
  }

  /** The data branch as written: form data, then the substring JSON test. */
  function DataBodyAsWritten(headers: Dict<string>, data: string, unquotePlus: string -> string,
                         jsonLoads: string -> Result<Value>, encode: string -> Result<seq<byte>>): (r: Result<RequestBody>)
    ensures Get(headers, "Content-Type").None? ==> r.Err? && r.error.cls == "TypeError"
    ensures r.Ok? && r.value.Json? ==>
      Get(headers, "Content-Type").Some? && IsSubstring(Get(headers, "Content-Type").value, JSON_TYPE)
  {
    var contentType := Get(headers, "Content-Type");
    if contentType == Some(FORM_TYPE) then MapForm(FormData(data, unquotePlus))
    else match JsonTestAsWritten(contentType)
      case Err(e) => Err(e)
      case Ok(isJson) => if isJson then MapJson(jsonLoads(data)) else MapRaw(encode(data))
  }

  /** The data branch as evidently intended: Content-Type equal to
      'application/json' selects `json.loads`, and any other or no
      Content-Type sends the encoded bytes. */
  function DataBody(headers: Dict<string>, data: string, unquotePlus: string -> string,
                jsonLoads: string -> Result<Value>, encode: string -> Result<seq<byte>>): (r: Result<RequestBody>)
    ensures r.Ok? && r.value.Form? ==> FormData(data, unquotePlus) == Ok(r.value.fields)
    ensures r.Ok? && r.value.Json? ==> jsonLoads(data) == Ok(r.value.value)
    ensures r.Ok? && r.value.Raw? ==> encode(data) == Ok(r.value.bytes)
    ensures r.Err? ==> FormData(data, unquotePlus) == Err(r.error) || jsonLoads(data) == Err(r.error) || encode(data) == Err(r.error)
  {
    var contentType := Get(headers, "Content-Type");
    if contentType == Some(FORM_TYPE) then MapForm(FormData(data, unquotePlus))
    else if contentType == Some(JSON_TYPE) then MapJson(jsonLoads(data))
    else MapRaw(encode(data))
  }

  /** The data branch as written and as intended agree whenever a
      Content-Type is given that is 'application/json' or no part of it. */
  lemma DataBodyAgrees(headers: Dict<string>, data: string, unquotePlus: string -> string,
                       jsonLoads: string -> Result<Value>, encode: string -> Result<seq<byte>>)
    requires Get(headers, "Content-Type").Some?
    requires Get(headers, "Content-Type").value == JSON_TYPE || !IsSubstring(Get(headers, "Content-Type").value, JSON_TYPE)
    ensures DataBodyAsWritten(headers, data, unquotePlus, jsonLoads, encode) == DataBody(headers, data, unquotePlus, jsonLoads, encode)
  {
    assert IsSubstring(JSON_TYPE, JSON_TYPE);
  }

  /** As written, `curl -d ...` with no Content-Type header fails with a
      TypeError; the corrected branch sends the encoded data. */
  lemma CurlDataWithoutContentType(headers: Dict<string>, data: string, unquotePlus: string -> string,
                                   jsonLoads: string -> Result<Value>, encode: string -> Result<seq<byte>>)
    requires !HasKey(headers, "Content-Type")
    ensures DataBodyAsWritten(headers, data, unquotePlus, jsonLoads, encode).Err?
    ensures DataBodyAsWritten(headers, data, unquotePlus, jsonLoads, encode).error.cls == "TypeError"
    ensures DataBody(headers, data, unquotePlus, jsonLoads, encode) == MapRaw(encode(data))
  {
  }

  /** As written, a Content-Type such as 'json' (a piece of
      'application/json') is decoded as JSON. */
  lemma CurlJsonSubstring(data: string, unquotePlus: string -> string,
                          jsonLoads: string -> Result<Value>, encode: string -> Result<seq<byte>>)
    ensures DataBodyAsWritten([("Content-Type", "json")], data, unquotePlus, jsonLoads, encode) == MapJson(jsonLoads(data))
    ensures DataBody([("Content-Type", "json")], data, unquotePlus, jsonLoads, encode) == MapRaw(encode(data))
  {
    SubstringAt("json", JSON_TYPE, 12);
  }

  /** The corrected branch: the body kind follows the Content-Type exactly,
      and it never fails except in the form parser, the JSON decoder or the
      encoder. */
  lemma BodyKind(headers: Dict<string>, data: string, unquotePlus: string -> string,
                 jsonLoads: string -> Result<Value>, encode: string -> Result<seq<byte>>)
    ensures var r := DataBody(headers, data, unquotePlus, jsonLoads, encode);
      var ct := Get(headers, "Content-Type");
      (r.Ok? && r.value.Form? <==> ct == Some(FORM_TYPE) && FormData(data, unquotePlus).Ok?) &&
      (r.Ok? && r.value.Json? <==> ct == Some(JSON_TYPE) && jsonLoads(data).Ok?) &&
      (r.Ok? && r.value.Raw? <==> ct != Some(FORM_TYPE) && ct != Some(JSON_TYPE) && encode(data).Ok?) &&
      !(r.Ok? && r.value.NoBody?)
  {
  }

  /** `args.data or args.data_binary`, when truthy. */
  function CurlData(args: CurlArgs): (d: Option<string>)
    ensures d.Some? ==> d.value != []
    ensures d.None? <==> (args.data.None? || args.data.value == []) && (args.dataBinary.None? || args.dataBinary.value == [])
  {
    if args.data.Some? && args.data.value != [] then args.data
    else if args.dataBinary.Some? && args.dataBinary.value != [] then args.dataBinary
    else None
  }

  /** `-A` sets `User-Agent`, overriding a `-H` header of that name. */
  function WithAgent(headers: Dict<string>, userAgent: Option<string>): (r: Dict<string>)
    ensures userAgent.Some? && userAgent.value != [] ==> Get(r, "User-Agent") == userAgent
    ensures forall k :: k != "User-Agent" ==> Get(r, k) == Get(headers, k)
    ensures userAgent.None? || userAgent.value == [] ==> r == headers
    ensures r == [] <==> headers == [] && (userAgent.None? || userAgent.value == [])
  {
    if userAgent.Some? && userAgent.value != [] then
      var r := Set(headers, "User-Agent", userAgent.value);
      SetKeys(headers, "User-Agent", userAgent.value);
      assert |Keys(r)| > 0;
      r
    else headers
  }

  /** `if headers: requests_args['headers'] = headers`. */
  function NonEmpty(d: Dict<string>): Option<Dict<string>> {
    if d != [] then Some(d) else None
  }

  lemma HeadersPresent(hs: seq<string>, userAgent: Option<string>)
    ensures WithAgent(FromPairs(HeaderPairs(hs)), userAgent) != []
        <==> hs != [] || (userAgent.Some? && userAgent.value != [])
  {
    if hs != [] {
      HeadersLastWins(hs, |hs| - 1);
    }
  }

  /** The method after `-I` and the data branch, lower-cased: data beats
      `-I`, which beats `-X`. */
  function CurlVerb(args: CurlArgs): (v: string)
    ensures CurlData(args).Some? ==> v == "post"
    ensures CurlData(args).None? && args.head ==> v == "head"
    ensures CurlData(args).None? && !args.head ==> v == Lower(args.verb)
    ensures forall i :: 0 <= i < |v| ==> !('A' <= v[i] <= 'Z')
  {
    var verb := if CurlData(args).Some? then "post" else if args.head then "head" else args.verb;
    assert Lower("post") == "post" && Lower("head") == "head";
    Lower(verb)
  }

  /** `Curl.parse` after tokenisation. A header without ':' is a ValueError;
      with data present the body follows the Content-Type (and can fail in
      the form parser, the JSON decoder or the encoder). */
  method Parse(args: CurlArgs, unquotePlus: string -> string, jsonLoads: string -> Result<Value>,
               encode: string -> Result<seq<byte>>) returns (r: Result<CurlRequest>)
    ensures !AllColons(args.headers) ==> r.Err? && r.error.cls == "ValueError"
    ensures r.Ok? ==> AllColons(args.headers)
    ensures r.Ok? ==> r.value.url == args.url
    ensures r.Ok? ==> r.value.headers == NonEmpty(WithAgent(FromPairs(HeaderPairs(args.headers)), args.userAgent))
    ensures r.Ok? ==> r.value.auth == if args.user.Some? && args.user.value != [] then Some(Auth(args.user.value)) else None
    ensures r.Ok? ==> r.value.verb == CurlVerb(args)
    ensures AllColons(args.headers) && CurlData(args).None? ==> r.Ok? && r.value.body == NoBody
    ensures AllColons(args.headers) && CurlData(args).Some? ==>
              var b := DataBody(WithAgent(FromPairs(HeaderPairs(args.headers)), args.userAgent),
                            CurlData(args).value, unquotePlus, jsonLoads, encode);
              (b.Ok? ==> r.Ok? && r.value.body == b.value) && (b.Err? ==> r == Err(b.error))
  {
    var parsedHeaders := ParseHeaders(args.headers);
    if parsedHeaders.Err? {
      return Err(parsedHeaders.error);
    }
    var headers := parsedHeaders.value;
    if args.userAgent.Some? && args.userAgent.value != [] {
      headers := Set(headers, "User-Agent", args.userAgent.value);
    }
    assert headers == WithAgent(FromPairs(HeaderPairs(args.headers)), args.userAgent);
    var headersArg := if headers != [] then Some(headers) else None;
    var verb := args.verb;
    if args.head {
      verb := "head";
    }
    var auth := if args.user.Some? && args.user.value != [] then Some(Auth(args.user.value)) else None;
    var data := CurlData(args);
    var body := NoBody;
    if data.Some? {
      verb := "post";
      var b := DataBody(headers, data.value, unquotePlus, jsonLoads, encode);
      if b.Err? {
        return Err(b.error);
      }
      body := b.value;
    }
    r := Ok(CurlRequest(args.url, headersArg, auth, body, Lower(verb)));
  }

  // ---------------------------------------------------------------------------
  // Null and the falsy FailureException

  /** An object as seen by the operations `Null` overrides: the `null`
      singleton or any other Python value. */
  datatype Obj = NullObj | Plain(v: Value)

  /** The operations `Null` answers: calling, attribute get/set/delete and
      item access. */
  datatype Access =
    | Call(args: seq<Value>)
    | GetAttr(name: string)
    | SetAttr(name: string, value: Value)
    | GetItem(key: Value)
    | DelAttr(name: string)

  /** The result of one access; `other` stands for whatever a non-Null
      object does. */
  function Apply(o: Obj, a: Access, other: (Value, Access) -> Obj): (r: Obj)
    ensures o.NullObj? ==> r == NullObj
    ensures o.Plain? ==> r == other(o.v, a)
  {
    match o
    case NullObj => NullObj
    case Plain(v) => other(v, a)
  }

  function ApplyAll(o: Obj, accesses: seq<Access>, other: (Value, Access) -> Obj): Obj
    decreases |accesses|
  {
    if accesses == [] then o else ApplyAll(Apply(o, accesses[0], other), accesses[1..], other)
  }

  /** `bool(o)` and `str(o)`; `strOf` is the str of a non-Null value. */
  predicate ObjTruthy(o: Obj) {
    match o
    case NullObj => false
    case Plain(v) => Truthy(v)
  }

  function ObjStr(o: Obj, strOf: Value -> string): (s: string)
    ensures o.NullObj? ==> s == ""
  {
    match o
    case NullObj => ""
    case Plain(v) => strOf(v)
  }

  /** Any chain of calls, attribute and item accesses on `null` gives `null`
      back, which is falsy and prints (str and repr) as "". */
  lemma {:induction false} NullAbsorbs(accesses: seq<Access>, other: (Value, Access) -> Obj, strOf: Value -> string)
    ensures ApplyAll(NullObj, accesses, other) == NullObj
    ensures !ObjTruthy(ApplyAll(NullObj, accesses, other))
    ensures ObjStr(ApplyAll(NullObj, accesses, other), strOf) == ""
    decreases |accesses|
  {
    if accesses != [] {
      NullAbsorbs(accesses[1..], other, strOf);
    }
  }

  /** repr of an exception on Python 3.7+: `Cls(arg, ...)`. */
  function ExcRepr(e: Exc): string {
    e.cls + "(" + Join(e.args, ", ") + ")"
  }

  /** utils.FailureException: wraps an error, is falsy, and prints as its
      repr, `FailureException(<repr of the error>)`. */
  class FailureException {
    const error: Exc
    const ok: bool

    constructor(error: Exc)
      ensures this.error == error && !ok
    {
      this.error := error;
      this.ok := false;
    }

    predicate Truthy()
      reads this
      ensures !Truthy()
    {
      false
    }

    function Repr(): (s: string)
      reads this
      ensures |s| > |"FailureException("| && s[..|"FailureException("|] == "FailureException("
    {
      "FailureException(" + ExcRepr(error) + ")"
    }

    function Str(): (s: string)
      reads this
      ensures s == Repr()
    {
      Repr()
    }
  }
}
