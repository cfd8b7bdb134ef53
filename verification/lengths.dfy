/** The recommended sequence length of `analyze_corpus` and `prepare_dicts_if_need`:
    `sorted([len(seq) for seq in corpus])[int(0.95 * len(corpus))]`. */
module Lengths {
  import opened Results

  /** Sentence lengths in corpus order. */
  function Lengths(corpus: seq<seq<string>>): (r: seq<nat>)
    ensures |r| == |corpus|
    ensures forall i :: 0 <= i < |corpus| ==> r[i] == |corpus[i]|
  {
    if corpus == [] then [] else [|corpus[0]|] + Lengths(corpus[1..])
  }

  /** `int(0.95 * n)` with exact arithmetic in place of the floating-point product. */
  function PercentileIndex(n: nat): (k: nat)
    ensures n > 0 ==> k < n
  {
    95 * n / 100
  }

  predicate Ascending(r: seq<nat>)
  {
    forall i, j :: 0 <= i < j < |r| ==> r[i] <= r[j]
  }

  /** Number of elements of `s` strictly below `v`. */
  function CountBelow(s: seq<nat>, v: nat): nat
  {
    if s == [] then 0 else (if s[0] < v then 1 else 0) + CountBelow(s[1..], v)
  }

  /** Number of elements of `s` at most `v`. */
  function CountAtMost(s: seq<nat>, v: nat): nat
  {
    if s == [] then 0 else (if s[0] <= v then 1 else 0) + CountAtMost(s[1..], v)
  }

  /** Where an ascending insertion sort puts `x` among the sorted `r`. */
  function AscendingPoint(x: nat, r: seq<nat>): (k: nat)
    ensures k <= |r|
    ensures forall i :: 0 <= i < k ==> r[i] < x
    ensures k < |r| ==> x <= r[k]
  {
    if r == [] || x <= r[0] then 0 else 1 + AscendingPoint(x, r[1..])
  }

  lemma {:induction false} CountsOfConcat(a: seq<nat>, b: seq<nat>, v: nat)
    ensures CountBelow(a + b, v) == CountBelow(a, v) + CountBelow(b, v)
    ensures CountAtMost(a + b, v) == CountAtMost(a, v) + CountAtMost(b, v)
  {
    if a == [] {
      assert a + b == b;
    } else {
      assert (a + b)[1..] == a[1..] + b;
      CountsOfConcat(a[1..], b, v);
    }
  }

  /** Python's `sorted` on lengths, as an insertion sort. */
  function SortLengths(s: seq<nat>): (r: seq<nat>)
    ensures multiset(r) == multiset(s)
    ensures Ascending(r)
  {
    if s == [] then []
    else
      var rest := SortLengths(s[1..]);
      var k := AscendingPoint(s[0], rest);
      assert s == [s[0]] + s[1..];
      SortedInsertion(s[0], rest, k);
      rest[..k] + [s[0]] + rest[k..]
  }

  lemma InsertedAt(x: nat, r: seq<nat>, k: nat, i: nat)
    requires k <= |r| && i <= |r|
    ensures (r[..k] + [x] + r[k..])[i] == (if i < k then r[i] else if i == k then x else r[i - 1])
  {
  }

  lemma SortedInsertion(x: nat, r: seq<nat>, k: nat)
    requires Ascending(r) && k == AscendingPoint(x, r)
    ensures Ascending(r[..k] + [x] + r[k..])
    ensures multiset(r[..k] + [x] + r[k..]) == multiset{x} + multiset(r)
  {
    var out := r[..k] + [x] + r[k..];
    assert r == r[..k] + r[k..];
    forall i, j | 0 <= i < j < |out|
      ensures out[i] <= out[j]
    {
      InsertedAt(x, r, k, i);
      InsertedAt(x, r, k, j);
      if i == k && k < |r| {
        assert r[k] <= r[j - 1];
      }
    }
  }

  /** Sorting moves lengths around but keeps how many lie below or at a bound. */
  lemma {:induction false} SortKeepsCounts(s: seq<nat>, v: nat)
    ensures CountBelow(SortLengths(s), v) == CountBelow(s, v)
    ensures CountAtMost(SortLengths(s), v) == CountAtMost(s, v)
  {
    if s != [] {
      var rest := SortLengths(s[1..]);
      var k := AscendingPoint(s[0], rest);
      assert SortLengths(s) == rest[..k] + [s[0]] + rest[k..];
      SortKeepsCounts(s[1..], v);
      InsertKeepsCounts(s[0], rest, k, v);
    }
  }

  /** Inserting `x` anywhere adds its own contribution to each count. */
  lemma InsertKeepsCounts(x: nat, r: seq<nat>, k: nat, v: nat)
    requires k <= |r|
    ensures CountBelow(r[..k] + [x] + r[k..], v) == CountBelow([x], v) + CountBelow(r, v)
    ensures CountAtMost(r[..k] + [x] + r[k..], v) == CountAtMost([x], v) + CountAtMost(r, v)
  {
    assert r == r[..k] + r[k..];
    CountsOfConcat(r[..k] + [x], r[k..], v);
    CountsOfConcat(r[..k], [x], v);
    CountsOfConcat(r[..k], r[k..], v);
  }

  /** In an ascending sequence, at most k elements lie below the element at position k. */
  lemma {:induction false} BelowBound(r: seq<nat>, k: nat, v: nat)
    requires Ascending(r) && k < |r| && v <= r[k]
    ensures CountBelow(r, v) <= k
  {
    if k > 0 {
      BelowBound(r[1..], k - 1, v);
    } else if |r| > 1 {
      BelowBound(r[1..], 0, v);
    }
  }

  /** In an ascending sequence, at least k + 1 elements are at most the element at position k. */
  lemma {:induction false} AtMostBound(r: seq<nat>, k: nat, v: nat)
    requires Ascending(r) && k < |r| && r[k] <= v
    ensures CountAtMost(r, v) >= k + 1
  {
    if k > 0 {
      AtMostBound(r[1..], k - 1, v);
    }
  }

  /** The recommended length of one corpus; an empty corpus raises IndexError on `[][0]`. */
  function RecommendedLength(corpus: seq<seq<string>>): (r: Result<nat>)
    ensures r.Failure? <==> corpus == []
    ensures r.Failure? ==> r.error == IndexOutOfRange(0)
    ensures r.Success? ==> r.value in Lengths(corpus)
    ensures r.Success? ==>
      var k := PercentileIndex(|corpus|);
      CountBelow(Lengths(corpus), r.value) <= k < CountAtMost(Lengths(corpus), r.value)
  {
    if corpus == [] then Failure(IndexOutOfRange(0))
    else
      var sorted := SortLengths(Lengths(corpus));
      var k := PercentileIndex(|corpus|);
      assert sorted[k] in multiset(Lengths(corpus));
      SortKeepsCounts(Lengths(corpus), sorted[k]);
      BelowBound(sorted, k, sorted[k]);
      AtMostBound(sorted, k, sorted[k]);
      Success(sorted[k])
  }

  /** The recommended length of each corpus of a tuple, failing on the first empty one. */
  function RecommendedLengths(corpora: seq<seq<seq<string>>>): (r: Result<seq<nat>>)
    ensures r.Success? <==> forall i :: 0 <= i < |corpora| ==> corpora[i] != []
    ensures r.Failure? ==> r.error == IndexOutOfRange(0)
    ensures r.Success? ==> |r.value| == |corpora|
    ensures r.Success? ==> forall i :: 0 <= i < |corpora| ==> RecommendedLength(corpora[i]) == Success(r.value[i])
  {
    if corpora == [] then Success([])
    else
      TailIndices(corpora);
      var head := RecommendedLength(corpora[0]);
      var tail := RecommendedLengths(corpora[1..]);
      if head.Failure? then Failure(head.error)
      else if tail.Failure? then Failure(tail.error)
      else
        ConsLengths(corpora, head.value, tail.value);
        Success([head.value] + tail.value)
  }

  /** The lengths of a tuple are the head's length followed by the tail's. */
  lemma ConsLengths(corpora: seq<seq<seq<string>>>, head: nat, tail: seq<nat>)
    requires corpora != [] && RecommendedLength(corpora[0]) == Success(head)
    requires |tail| == |corpora| - 1
    requires forall i :: 0 <= i < |tail| ==> RecommendedLength(corpora[1..][i]) == Success(tail[i])
    ensures forall i :: 0 <= i < |corpora| ==> RecommendedLength(corpora[i]) == Success(([head] + tail)[i])
  {
    forall i | 1 <= i < |corpora|
      ensures RecommendedLength(corpora[i]) == Success(([head] + tail)[i])
    {
      assert corpora[i] == corpora[1..][i - 1];
      assert ([head] + tail)[i] == tail[i - 1];
    }
  }

  lemma TailIndices(corpora: seq<seq<seq<string>>>)
    requires corpora != []
    ensures forall i :: 1 <= i < |corpora| ==> corpora[i] == corpora[1..][i - 1]
  {
  }
}
