/** The array methods the pages use on their lists: `filter`, `map` and
    `slice`, with the facts about them the pages rely on. */
module ListOps {

  /** `s.filter(f)`. */
  function Filter<T>(s: seq<T>, f: T -> bool): (r: seq<T>)
    ensures |r| <= |s|
    ensures forall i :: 0 <= i < |r| ==> r[i] in s && f(r[i])
    ensures forall i :: 0 <= i < |s| && f(s[i]) ==> s[i] in r
  {
    if s == [] then [] else (if f(s[0]) then [s[0]] else []) + Filter(s[1..], f)
  }

  /** `s.map(f)`. */
  function Map<A, B>(s: seq<A>, f: A -> B): (r: seq<B>)
    ensures |r| == |s|
    ensures forall i :: 0 <= i < |s| ==> r[i] == f(s[i])
  {
    if s == [] then [] else [f(s[0])] + Map(s[1..], f)
  }

  /** `idx` lists, in increasing order, positions of `b` holding the
      elements of `a`. */
  ghost predicate Embedding<T>(a: seq<T>, b: seq<T>, idx: seq<nat>) {
    && |idx| == |a|
    && (forall k :: 0 <= k < |idx| ==> idx[k] < |b| && a[k] == b[idx[k]])
    && (forall k, l :: 0 <= k < l < |idx| ==> idx[k] < idx[l])
  }

  /** `a` is `b` with some elements left out, the rest in their order. */
  ghost predicate Subsequence<T>(a: seq<T>, b: seq<T>) {
    exists idx :: Embedding(a, b, idx)
  }

  /** An embedding into the tail of `b` is one into `b`, one position on. */
  lemma ShiftEmbedding<T>(a: seq<T>, b: seq<T>, idx: seq<nat>) returns (shifted: seq<nat>)
    requires b != [] && Embedding(a, b[1..], idx)
    ensures Embedding(a, b, shifted)
    ensures |shifted| == |idx| && forall k :: 0 <= k < |idx| ==> shifted[k] == idx[k] + 1
  {
    shifted := seq(|idx|, k requires 0 <= k < |idx| => idx[k] + 1);
    forall k | 0 <= k < |shifted| ensures shifted[k] < |b| && a[k] == b[shifted[k]] {
      assert b[1..][idx[k]] == b[idx[k] + 1];
    }
  }

  /** Matching the head of `b` extends an embedding into its tail. */
  lemma ConsEmbedding<T>(a: seq<T>, b: seq<T>, idx: seq<nat>) returns (full: seq<nat>)
    requires b != [] && Embedding(a, b[1..], idx)
    ensures Embedding([b[0]] + a, b, full)
  {
    var shifted := ShiftEmbedding(a, b, idx);
    full := [0] + shifted;
    var a' := [b[0]] + a;
    forall k | 0 <= k < |full| ensures full[k] < |b| && a'[k] == b[full[k]] {
      if k > 0 {
        assert full[k] == shifted[k - 1] && a'[k] == a[k - 1];
      }
    }
    forall k, l | 0 <= k < l < |full| ensures full[k] < full[l] {
      if k > 0 {
        assert full[k] == shifted[k - 1] && full[l] == shifted[l - 1];
      }
    }
  }

  /** A filtered list is an order-preserving subsequence of the list. */
  lemma {:induction false} FilterIsSubsequence<T>(s: seq<T>, f: T -> bool)
    ensures Subsequence(Filter(s, f), s)
  {
    if s == [] {
      assert Embedding(Filter(s, f), s, []);
    } else {
      FilterIsSubsequence(s[1..], f);
      var tail := Filter(s[1..], f);
      var idx :| Embedding(tail, s[1..], idx);
      if f(s[0]) {
        var full := ConsEmbedding(tail, s, idx);
        assert Filter(s, f) == [s[0]] + tail;
      } else {
        var shifted := ShiftEmbedding(tail, s, idx);
        assert Filter(s, f) == tail;
      }
    }
  }

  /** Filtering distributes over concatenation. */
  lemma {:induction false} FilterAppend<T>(a: seq<T>, b: seq<T>, f: T -> bool)
    ensures Filter(a + b, f) == Filter(a, f) + Filter(b, f)
  {
    if a == [] {
      assert a + b == b;
    } else {
      assert (a + b)[1..] == a[1..] + b;
      FilterAppend(a[1..], b, f);
    }
  }

  /** A filter every element passes keeps the whole list. */
  lemma {:induction false} FilterKeepsAll<T>(s: seq<T>, f: T -> bool)
    requires forall i :: 0 <= i < |s| ==> f(s[i])
    ensures Filter(s, f) == s
  {
    if s != [] {
      FilterKeepsAll(s[1..], f);
      assert [s[0]] + s[1..] == s;
    }
  }

  /** Two filters in a row are one filter on the conjunction. */
  lemma {:induction false} FilterTwice<T>(s: seq<T>, f: T -> bool, g: T -> bool, h: T -> bool)
    requires forall x :: h(x) == (f(x) && g(x))
    ensures Filter(Filter(s, f), g) == Filter(s, h)
  {
    if s != [] {
      FilterTwice(s[1..], f, g, h);
      var head := if f(s[0]) then [s[0]] else [];
      FilterAppend(head, Filter(s[1..], f), g);
      if f(s[0]) {
        assert head[1..] == [];
      }
    }
  }

  /** One position of `s.slice(start, end)` per JavaScript: a negative
      position counts from the end, and both are clamped to the list. */
  function SlicePosition(len: nat, x: int): (r: nat)
    ensures r <= len
    ensures 0 <= x ==> r == if x < len then x else len
  {
    if x < 0 then (if len + x < 0 then 0 else len + x) else if x < len then x else len
  }

  /** `s.slice(start, end)`; empty when the clamped start is not before the
      clamped end. */
  function Slice<T>(s: seq<T>, start: int, end: int): (r: seq<T>)
    ensures |r| <= |s|
    ensures forall i :: 0 <= i < |r| ==> r[i] in s
  {
    var a := SlicePosition(|s|, start);
    var b := SlicePosition(|s|, end);
    if a < b then s[a..b] else []
  }

  /** For non-negative bounds the slice is the clamped window of `s`. */
  lemma SliceWindow<T>(s: seq<T>, start: nat, end: nat)
    requires start <= end
    ensures var b := if end < |s| then end else |s|;
      && |Slice(s, start, end)| <= end - start
      && (start <= |s| ==> Slice(s, start, end) == s[start..b])
      && (start >= |s| ==> Slice(s, start, end) == [])
  {
  }
}
