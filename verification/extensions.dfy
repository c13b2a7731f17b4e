/** The list and string helpers of `Extensions`: `ChunkBy` and `TrimEnd`. */
module Extensions {
  import opened Outcomes

  /** Concatenation of a list of lists, in order. */
  function Flatten<T>(xss: seq<seq<T>>): seq<T>
  {
    if xss == [] then [] else xss[0] + Flatten(xss[1..])
  }

  lemma {:induction false} FlattenAppend<T>(xss: seq<seq<T>>, yss: seq<seq<T>>)
    ensures Flatten(xss + yss) == Flatten(xss) + Flatten(yss)
  {
    if xss == [] {
      assert xss + yss == yss;
    } else {
      assert (xss + yss)[1..] == xss[1..] + yss;
      FlattenAppend(xss[1..], yss);
    }
  }

  /** (x + n) / n == x / n + 1: one more full chunk. */
  lemma DivAddDivisor(x: nat, n: nat)
    requires n > 0
    ensures (x + n) / n == x / n + 1
  {
    var q, r := x / n, x % n;
    assert x == q * n + r;
    assert x + n == (q + 1) * n + r;
    DivUnique(x + n, n, q + 1, r);
  }

  lemma DivUnique(x: nat, n: nat, q: nat, r: nat)
    requires n > 0 && r < n && x == q * n + r
    ensures x / n == q && x % n == r
  {
    var q', r' := x / n, x % n;
    assert x == q' * n + r';
    if q' < q {
      assert q * n == q' * n + (q - q') * n;
      MulAtLeast(q - q', n);
    } else if q' > q {
      assert q' * n == q * n + (q' - q) * n;
      MulAtLeast(q' - q, n);
    }
  }

  lemma {:induction false} MulAtLeast(d: nat, n: nat)
    requires d >= 1
    ensures d * n >= n
    decreases d
  {
    if d > 1 {
      MulAtLeast(d - 1, n);
      assert d * n == (d - 1) * n + n;
    }
  }

  /**
   * Splits `source` into consecutive groups of `chunkSize` elements; the
   * last group holds what is left. The source groups element i under the
   * key i / chunkSize, which is why `chunkSize` must be positive.
   */
  function ChunkBy<T>(source: seq<T>, chunkSize: nat): (chunks: seq<seq<T>>)
    requires chunkSize > 0
    ensures forall k :: 0 <= k < |chunks| ==> 0 < |chunks[k]| <= chunkSize
    ensures forall k :: 0 <= k < |chunks| - 1 ==> |chunks[k]| == chunkSize
    ensures source == [] ==> chunks == []
    ensures 0 < |source| <= chunkSize ==> chunks == [source]
    decreases |source|
  {
    if |source| == 0 then []
    else if |source| <= chunkSize then [source]
    else [source[..chunkSize]] + ChunkBy(source[chunkSize..], chunkSize)
  }

  /** There are ceil(|source| / chunkSize) groups. */
  lemma {:induction false} ChunkByCount<T>(source: seq<T>, chunkSize: nat)
    requires chunkSize > 0
    ensures |ChunkBy(source, chunkSize)| == (|source| + chunkSize - 1) / chunkSize
    decreases |source|
  {
    if |source| == 0 {
      DivUnique(chunkSize - 1, chunkSize, 0, chunkSize - 1);
    } else if |source| <= chunkSize {
      DivUnique(|source| + chunkSize - 1, chunkSize, 1, |source| - 1);
    } else {
      ChunkByCount(source[chunkSize..], chunkSize);
      DivAddDivisor(|source| - 1, chunkSize);
    }
  }

  /** Flattening the chunks gives back the source, in order. */
  lemma {:induction false} ChunkByFlattens<T>(source: seq<T>, chunkSize: nat)
    requires chunkSize > 0
    ensures Flatten(ChunkBy(source, chunkSize)) == source
    decreases |source|
  {
    if |source| == 0 {
    } else if |source| <= chunkSize {
      assert Flatten([source]) == source + Flatten([]);
    } else {
      var rest := ChunkBy(source[chunkSize..], chunkSize);
      ChunkByFlattens(source[chunkSize..], chunkSize);
      assert ChunkBy(source, chunkSize)[1..] == rest;
      assert source[..chunkSize] + source[chunkSize..] == source;
    }
  }

  /**
   * The grouping key of the source: element i lands in group i / chunkSize,
   * at position i % chunkSize of that group.
   */
  lemma {:induction false} ChunkByGroupsByIndex<T>(source: seq<T>, chunkSize: nat, i: nat)
    requires chunkSize > 0 && i < |source|
    ensures i / chunkSize < |ChunkBy(source, chunkSize)|
    ensures i % chunkSize < |ChunkBy(source, chunkSize)[i / chunkSize]|
    ensures ChunkBy(source, chunkSize)[i / chunkSize][i % chunkSize] == source[i]
    decreases |source|
  {
    if i < chunkSize {
      DivUnique(i, chunkSize, 0, i);
    } else {
      DivUnique(i, chunkSize, (i - chunkSize) / chunkSize + 1, (i - chunkSize) % chunkSize);
      ChunkByGroupsByIndex(source[chunkSize..], chunkSize, i - chunkSize);
    }
  }

  /** Ordinal `string.EndsWith`: the empty suffix ends every string. */
  predicate EndsWith(s: string, suffix: string)
  {
    |suffix| <= |s| && s[|s| - |suffix|..] == suffix
  }

  /** `k` copies of `s`, one after the other. */
  function Repeat(s: string, k: nat): string
  {
    if k == 0 then [] else Repeat(s, k - 1) + s
  }

  /** What `TrimEnd(s, suffix, removeAll: true)` leaves: every trailing copy removed. */
  function TrimAll(s: string, suffix: string): (r: string)
    requires suffix != []
    ensures !EndsWith(r, suffix)
    ensures |r| <= |s| && r == s[..|r|]
    decreases |s|
  {
    if EndsWith(s, suffix) then TrimAll(s[..|s| - |suffix|], suffix) else s
  }

  /** What `TrimEnd(s, suffix, removeAll: false)` leaves: at most one trailing copy removed. */
  function TrimOnce(s: string, suffix: string): (r: string)
    ensures s == r || s == r + suffix
    ensures s == r <==> !EndsWith(s, suffix) || suffix == []
  {
    if EndsWith(s, suffix) then s[..|s| - |suffix|] else s
  }

  /** How many trailing copies of the suffix TrimAll removes. */
  function TrimmedCopies(s: string, suffix: string): nat
    requires suffix != []
    decreases |s|
  {
    if EndsWith(s, suffix) then TrimmedCopies(s[..|s| - |suffix|], suffix) + 1 else 0
  }

  /** The input is what TrimAll keeps followed by the removed copies of the suffix. */
  lemma {:induction false} TrimAllRemovesCopies(s: string, suffix: string)
    requires suffix != []
    ensures s == TrimAll(s, suffix) + Repeat(suffix, TrimmedCopies(s, suffix))
    decreases |s|
  {
    if EndsWith(s, suffix) {
      var shorter := s[..|s| - |suffix|];
      var k := TrimmedCopies(shorter, suffix);
      TrimAllRemovesCopies(shorter, suffix);
      assert s == shorter + suffix;
      assert Repeat(suffix, k + 1) == Repeat(suffix, k) + suffix;
      assert TrimAll(s, suffix) == TrimAll(shorter, suffix);
    }
  }

  /**
   * TrimAll is the only way to write the input as a string that does not end
   * with the suffix followed by copies of the suffix.
   */
  lemma {:induction false} TrimAllUnique(s: string, suffix: string, r: string, k: nat)
    requires suffix != []
    requires s == r + Repeat(suffix, k) && !EndsWith(r, suffix)
    ensures TrimAll(s, suffix) == r
    decreases k
  {
    if k == 0 {
      assert s == r;
    } else {
      assert s == (r + Repeat(suffix, k - 1)) + suffix;
      assert EndsWith(s, suffix);
      assert s[..|s| - |suffix|] == r + Repeat(suffix, k - 1);
      TrimAllUnique(s[..|s| - |suffix|], suffix, r, k - 1);
    }
  }

  /** The loop condition of `TrimEnd` as the source writes it. */
  predicate TrimEndGuard(input: Option<string>, trimSuffix: Option<string>): (continues: bool)
    ensures continues <==>
      (input.Some? && trimSuffix.Some? && TrimOnce(input.value, trimSuffix.value) + trimSuffix.value == input.value)
  {
    input.Some? && trimSuffix.Some? && EndsWith(input.value, trimSuffix.value)
  }

  /** One pass of the loop body of `TrimEnd` as the source writes it: one copy cut off the end. */
  function TrimEndPass(input: string, trimSuffix: string): (r: string)
    requires EndsWith(input, trimSuffix)
    ensures r + trimSuffix == input
  {
    input[..|input| - |trimSuffix|]
  }

  /**
   * Every string ends with the empty suffix and a pass that cuts off the
   * empty suffix changes nothing: with `removeAll` the loop as written
   * repeats the same state forever.
   */
  lemma EmptySuffixNeverExits(s: string)
    ensures TrimEndGuard(Some(s), Some(""))
    ensures TrimEndPass(s, "") == s
  {
    assert s[|s| - 0..] == "";
  }

  /**
   * Removes the trailing copies of `trimSuffix` from `input` (all of them,
   * or just the outermost one); a null input or suffix leaves the input as
   * it is, and so does an empty suffix, on which the loop as written spins.
   */
  method TrimEnd(input: Option<string>, trimSuffix: Option<string>, removeAll: bool) returns (r: Option<string>)
    ensures input.None? || trimSuffix.None? ==> r == input
    ensures trimSuffix == Some("") ==> r == input
    ensures input.Some? && trimSuffix.Some? && trimSuffix.value != "" && removeAll ==>
      r == Some(TrimAll(input.value, trimSuffix.value))
    ensures input.Some? && trimSuffix.Some? && !removeAll ==>
      r == Some(TrimOnce(input.value, trimSuffix.value))
  {
    r := input;
    while TrimEndGuard(r, trimSuffix) && trimSuffix.value != ""
      invariant r.Some? <==> input.Some?
      invariant trimSuffix.None? || trimSuffix == Some("") || !removeAll ==> r == input
      invariant removeAll && r.Some? && trimSuffix.Some? && trimSuffix.value != "" ==>
        TrimAll(r.value, trimSuffix.value) == TrimAll(input.value, trimSuffix.value)
      decreases if r.Some? then |r.value| else 0
    {
      r := Some(TrimEndPass(r.value, trimSuffix.value));
      if !removeAll {
        return;
      }
    }
  }
}
