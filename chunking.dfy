/** `chunky`: the record stream cut into batches of at most `n` records, taken one after
    another from a shared iterator with `islice`. */
module Chunking {

  function Min(a: int, b: int): int { if a <= b then a else b }

  /** The batches `chunky(rows, n)` yields, in order. `islice(it, 0)` is always empty, so
      with `n == 0` the very first batch is empty and nothing is yielded. */
  function Chunks<T>(s: seq<T>, n: nat): (cs: seq<seq<T>>)
    ensures forall i :: 0 <= i < |cs| ==> 0 < |cs[i]| <= n
    ensures forall i :: 0 <= i < |cs| - 1 ==> |cs[i]| == n
    ensures n > 0 && s != [] ==> cs != [] && cs[0] == s[..Min(n, |s|)]
    decreases |s|
  {
    if n == 0 || s == [] then []
    else [s[..Min(n, |s|)]] + Chunks(s[Min(n, |s|)..], n)
  }

  /** All batches joined back together. */
  function Flatten<T>(cs: seq<seq<T>>): seq<T> {
    if cs == [] then [] else cs[0] + Flatten(cs[1..])
  }

  lemma {:induction false} FlattenAppend<T>(a: seq<seq<T>>, b: seq<seq<T>>)
    ensures Flatten(a + b) == Flatten(a) + Flatten(b)
  {
    if a != [] {
      assert (a + b)[1..] == a[1..] + b;
      FlattenAppend(a[1..], b);
    } else {
      assert a + b == b;
    }
  }

  /** Joining the batches gives back exactly the records, in their order. */
  lemma {:induction false} ChunksRoundTrip<T>(s: seq<T>, n: nat)
    requires n > 0
    ensures Flatten(Chunks(s, n)) == s
    decreases |s|
  {
    if s != [] {
      var m := Min(n, |s|);
      ChunksRoundTrip(s[m..], n);
      assert s == s[..m] + s[m..];
    }
  }

  /** There are `ceil(|s| / n)` batches. */
  lemma {:induction false} ChunkCount<T>(s: seq<T>, n: nat)
    requires n > 0
    ensures |Chunks(s, n)| == (|s| + n - 1) / n
    decreases |s|
  {
    if s != [] {
      var m := Min(n, |s|);
      ChunkCount(s[m..], n);
      if |s| <= n {
        DivUnique(|s| + n - 1, n, 1, |s| - 1);
      } else {
        var x := |s| - 1;
        DivUnique(x + n, n, x / n + 1, x % n);
      }
    }
  }

  lemma MulAtLeast(d: int, n: int)
    requires d >= 1 && n > 0
    ensures d * n >= n
  {
  }

  /** Euclidean division is determined by quotient and remainder. */
  lemma DivUnique(x: int, n: int, q: int, r: int)
    requires n > 0 && 0 <= r < n && x == q * n + r
    ensures x / n == q
  {
    var q0, r0 := x / n, x % n;
    assert x == q0 * n + r0;
    assert (q - q0) * n == r0 - r;
    if q > q0 {
      MulAtLeast(q - q0, n);
    } else if q < q0 {
      MulAtLeast(q0 - q, n);
    }
  }

  /** The batch after the first `p` records, when `p` is where a batch ends. */
  lemma ChunksFrom<T>(s: seq<T>, p: nat, n: nat)
    requires n > 0 && p < |s|
    ensures Chunks(s[p..], n) == [s[p..p + Min(n, |s| - p)]] + Chunks(s[p + Min(n, |s| - p)..], n)
  {
    var t := s[p..];
    var m := Min(n, |t|);
    assert t[..m] == s[p..p + m];
    assert t[m..] == s[p + m..];
  }

  /** One step of `chunky` over the records from position `p` on, where batch `i` of the
      whole list starts: the next `islice` is empty exactly when every batch has been
      taken, and otherwise it is batch `i`. */
  lemma NextChunk<T>(s: seq<T>, n: nat, cs: seq<seq<T>>, i: nat, p: nat, data: seq<T>)
    requires n > 0 && cs == Chunks(s, n) && i <= |cs| && p <= |s|
    requires cs[i..] == Chunks(s[p..], n)
    requires data == s[p..][..Min(n, |s| - p)]
    ensures data == [] ==> p == |s| && i == |cs| && cs[..i] == cs
    ensures data != [] ==> i < |cs| && cs[i] == data && cs[i + 1..] == Chunks(s[p + |data|..], n)
    ensures data != [] ==> cs[..i + 1] == cs[..i] + [data]
  {
    if p < |s| {
      ChunksFrom(s, p, n);
      assert data == s[p..p + Min(n, |s| - p)];
      assert cs[i..][1..] == cs[i + 1..];
    }
  }

  /** The iterator `iter(rows)` that `chunky` advances: the records and how many of them
      have been consumed. */
  class RowIterator<T> {
    const rows: seq<T>
    var pos: nat

    ghost predicate Valid()
      reads this
    {
      pos <= |rows|
    }

    /** The records not consumed yet. */
    ghost function Remaining(): seq<T>
      reads this
      requires Valid()
    {
      rows[pos..]
    }

    constructor (rows: seq<T>)
      ensures Valid() && this.rows == rows && pos == 0
    {
      this.rows := rows;
      pos := 0;
    }

    /** `list(islice(it, n))`: the next (at most) `n` records, consumed one by one. */
    method Take(n: nat) returns (chunk: seq<T>)
      requires Valid()
      modifies this
      ensures Valid()
      ensures chunk == old(Remaining())[..Min(n, |old(Remaining())|)]
      ensures pos == old(pos) + |chunk|
    {
      chunk := [];
      ghost var start := pos;
      while |chunk| < n && pos < |rows|
        invariant start <= pos <= |rows|
        invariant |chunk| <= n
        invariant chunk == rows[start..pos]
        decreases |rows| - pos
      {
        chunk := chunk + [rows[pos]];
        pos := pos + 1;
      }
    }
  }
}
