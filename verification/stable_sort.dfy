/** `sorted(token2count.items(), key=itemgetter(1), reverse=True)`: a stable sort of the
    tally's keys by descending count. Python's sort is stable also when `reverse=True`, so
    tokens with equal counts keep the order they had in the tally. */
module StableSort {
  import opened Seqs

  /** Every element of `s` has a count. */
  predicate Counted(s: seq<string>, counts: map<string, nat>)
  {
    forall x :: x in s ==> x in counts
  }

  predicate Descending(r: seq<string>, counts: map<string, nat>)
    requires Counted(r, counts)
  {
    forall i, j :: 0 <= i < j < |r| ==> counts[r[i]] >= counts[r[j]]
  }

  /** The place a stable descending sort gives `x` in front of the already sorted `r`
      (whose elements all came after `x`): behind every strictly larger count only. */
  function InsertionPoint(x: string, r: seq<string>, counts: map<string, nat>): (k: nat)
    requires x in counts && Counted(r, counts)
    ensures k <= |r|
    ensures forall i :: 0 <= i < k ==> counts[r[i]] > counts[x]
    ensures k < |r| ==> counts[r[k]] <= counts[x]
  {
    if r == [] || counts[r[0]] <= counts[x] then 0
    else 1 + InsertionPoint(x, r[1..], counts)
  }

  function Insert(x: string, r: seq<string>, counts: map<string, nat>): seq<string>
    requires x in counts && Counted(r, counts)
  {
    var k := InsertionPoint(x, r, counts);
    r[..k] + [x] + r[k..]
  }

  lemma InsertKeepsDescending(x: string, r: seq<string>, counts: map<string, nat>)
    requires x in counts && Counted(r, counts) && Descending(r, counts)
    ensures multiset(Insert(x, r, counts)) == multiset(r) + multiset{x}
    ensures Counted(Insert(x, r, counts), counts)
    ensures Descending(Insert(x, r, counts), counts)
  {
    var out := Insert(x, r, counts);
    InsertPermutes(x, r, counts);
    forall i, j | 0 <= i < j < |out|
      ensures counts[out[i]] >= counts[out[j]]
    {
      InsertPairDescending(x, r, counts, i, j);
    }
  }

  lemma InsertPermutes(x: string, r: seq<string>, counts: map<string, nat>)
    requires x in counts && Counted(r, counts)
    ensures multiset(Insert(x, r, counts)) == multiset(r) + multiset{x}
    ensures Counted(Insert(x, r, counts), counts)
  {
    var k := InsertionPoint(x, r, counts);
    assert r == r[..k] + r[k..];
    assert multiset(Insert(x, r, counts)) == multiset(r[..k]) + multiset{x} + multiset(r[k..]);
  }

  /** One pair of positions of the inserted sequence is in descending order. */
  lemma InsertPairDescending(x: string, r: seq<string>, counts: map<string, nat>, i: nat, j: nat)
    requires x in counts && Counted(r, counts) && Descending(r, counts)
    requires i < j <= |r|
    ensures counts[Insert(x, r, counts)[i]] >= counts[Insert(x, r, counts)[j]]
  {
    var k := InsertionPoint(x, r, counts);
    InsertIndex(x, r, counts, i);
    InsertIndex(x, r, counts, j);
    if i == k && k < |r| {
      assert counts[r[k]] >= counts[r[j - 1]];
    }
  }

  /** Stable insertion sort by descending count. */
  function SortByCount(s: seq<string>, counts: map<string, nat>): (r: seq<string>)
    requires Counted(s, counts)
    ensures multiset(r) == multiset(s)
    ensures Counted(r, counts)
    ensures Descending(r, counts)
  {
    if s == [] then []
    else
      assert s == [s[0]] + s[1..];
      var rest := SortByCount(s[1..], counts);
      InsertKeepsDescending(s[0], rest, counts);
      Insert(s[0], rest, counts)
  }

  /** `a` is ordered before `b`: a strictly larger count, or an equal count and an
      earlier position in `order`. */
  predicate Precedes(a: string, b: string, counts: map<string, nat>, order: seq<string>)
  {
    && a in counts && b in counts && a in order && b in order
    && (counts[a] > counts[b] || (counts[a] == counts[b] && IndexOf(order, a) < IndexOf(order, b)))
  }

  /** Every earlier element of `r` precedes every later one. */
  ghost predicate Ranked(r: seq<string>, counts: map<string, nat>, order: seq<string>)
  {
    forall i, j :: 0 <= i < j < |r| ==> Precedes(r[i], r[j], counts, order)
  }

  /** Dropping the head of a distinct sequence keeps the relative order of the rest. */
  lemma PrecedesInTail(a: string, b: string, counts: map<string, nat>, s: seq<string>)
    requires Distinct(s) && s != []
    requires Precedes(a, b, counts, s[1..])
    ensures Precedes(a, b, counts, s)
  {
    assert a != s[0] by {
      var i := IndexOf(s[1..], a);
      assert s[i + 1] == a;
    }
    assert b != s[0] by {
      var i := IndexOf(s[1..], b);
      assert s[i + 1] == b;
    }
  }

  /** Where each element of `r` ends up after inserting `x`. */
  lemma InsertIndex(x: string, r: seq<string>, counts: map<string, nat>, i: nat)
    requires x in counts && Counted(r, counts)
    requires i <= |r|
    ensures |Insert(x, r, counts)| == |r| + 1
    ensures var k := InsertionPoint(x, r, counts);
      Insert(x, r, counts)[i] == (if i < k then r[i] else if i == k then x else r[i - 1])
  {
    var k := InsertionPoint(x, r, counts);
    var front := r[..k] + [x];
    assert Insert(x, r, counts) == front + r[k..];
    if i <= k {
      assert (front + r[k..])[i] == front[i];
    } else {
      assert (front + r[k..])[i] == r[k..][i - k - 1];
    }
  }

  /** The head of a distinct sequence precedes any later element with no larger count. */
  lemma HeadPrecedes(s: seq<string>, y: string, counts: map<string, nat>)
    requires Distinct(s) && s != [] && y in s[1..]
    requires s[0] in counts && y in counts && counts[s[0]] >= counts[y]
    ensures Precedes(s[0], y, counts, s)
  {
    var i := IndexOf(s[1..], y);
    assert s[i + 1] == y;
  }

  /** Inserting the head of `s` into the sorted tail keeps the stable order. */
  lemma InsertKeepsRanked(s: seq<string>, rest: seq<string>, counts: map<string, nat>)
    requires Distinct(s) && s != [] && s[0] in counts
    requires Counted(rest, counts) && Descending(rest, counts)
    requires forall y :: y in rest ==> y in s[1..]
    requires Ranked(rest, counts, s[1..])
    ensures Ranked(Insert(s[0], rest, counts), counts, s)
  {
    var x := s[0];
    var k := InsertionPoint(x, rest, counts);
    var out := Insert(x, rest, counts);
    forall i, j | 0 <= i < j < |out|
      ensures Precedes(out[i], out[j], counts, s)
    {
      InsertIndex(x, rest, counts, i);
      InsertIndex(x, rest, counts, j);
      if j == k {
        assert counts[rest[i]] > counts[x];
      } else if i == k {
        var y := rest[j - 1];
        assert counts[rest[k]] >= counts[y];
        HeadPrecedes(s, y, counts);
      } else {
        var ii := if i < k then i else i - 1;
        var jj := if j < k then j else j - 1;
        assert Precedes(rest[ii], rest[jj], counts, s[1..]);
        PrecedesInTail(rest[ii], rest[jj], counts, s);
      }
    }
  }

  /** The sort is stable: on a distinct input, equal counts keep their input order. */
  lemma {:induction false} SortIsStable(s: seq<string>, counts: map<string, nat>)
    requires Counted(s, counts) && Distinct(s)
    ensures Ranked(SortByCount(s, counts), counts, s)
  {
    if s != [] {
      var t := s[1..];
      assert s == [s[0]] + t;
      var rest := SortByCount(t, counts);
      SortIsStable(t, counts);
      forall y | y in rest
        ensures y in t
      {
        assert y in multiset(rest);
      }
      InsertKeepsRanked(s, rest, counts);
    }
  }
}
