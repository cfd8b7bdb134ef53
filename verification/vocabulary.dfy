/** The vocabulary builders `_build_token_dict` (base processor) and `_build_label_dict`
    (labeling processor): one algorithm parameterised by the reserved prefix. */
module Vocabulary {
  import opened Seqs
  import opened Counting
  import opened StableSort

  const Pad: string := "<PAD>"
  const Unk: string := "<UNK>"
  const Bos: string := "<BOS>"
  const Eos: string := "<EOS>"

  /** Seed of the token map: padding, unknown, sentence start, sentence end at 0, 1, 2, 3. */
  const TokenReserved: seq<string> := [Pad, Unk, Bos, Eos]

  /** Seed of the label map: padding at 0. */
  const LabelReserved: seq<string> := [Pad]

  /** A forward map (`token2idx` / `label2idx`) and its inverse (`idx2token` / `idx2label`). */
  datatype Vocab = Vocab(toIndex: map<string, nat>, toEntry: map<nat, string>)

  /** `for token in ts: if token not in m: m[token] = len(m)`. */
  function Assign(m: map<string, nat>, ts: seq<string>): map<string, nat>
    decreases |ts|
  {
    if ts == [] then m
    else Assign(if ts[0] in m then m else m[ts[0] := |m|], ts[1..])
  }

  /** The strings Assign adds to a map whose keys are `seen`, in the order it adds them. */
  function Fresh(seen: set<string>, ts: seq<string>): seq<string>
    decreases |ts|
  {
    if ts == [] then []
    else if ts[0] in seen then Fresh(seen, ts[1..])
    else [ts[0]] + Fresh(seen + {ts[0]}, ts[1..])
  }

  /** `entries[i]` is the key with index `i`, for every index and every key. */
  ghost predicate IndexedBy(m: map<string, nat>, entries: seq<string>)
  {
    && |m| == |entries|
    && (forall i :: 0 <= i < |entries| ==> entries[i] in m && m[entries[i]] == i)
    && (forall t :: t in m ==> m[t] < |entries| && entries[m[t]] == t)
  }

  /** `dict([(value, key) for key, value in m.items()])`, with the keys visited in their
      insertion order `order`; when two keys share an index the later one wins. */
  function Invert(m: map<string, nat>, order: seq<string>): (r: map<nat, string>)
    requires forall t :: t in order ==> t in m
    ensures forall i :: i in r ==> r[i] in order && m[r[i]] == i
    ensures forall t :: t in order ==> m[t] in r
  {
    if order == [] then map[]
    else
      var last := order[|order| - 1];
      Invert(m, order[..|order| - 1])[m[last] := last]
  }

  /** The tally's keys, most frequent first, ties in first-occurrence order. */
  function SortedTokens(corpora: seq<seq<seq<string>>>): seq<string>
  {
    var tally := CountTokens(Flatten(corpora));
    SortByCount(tally.order, tally.counts)
  }

  /** The keys of the built map in insertion order, i.e. in index order. */
  function Entries(reserved: seq<string>, corpora: seq<seq<seq<string>>>): seq<string>
  {
    Fresh({}, reserved + SortedTokens(corpora))
  }

  /** The shared builder: seed with `reserved`, count over every token of every sentence
      of every corpus, sort, number the new tokens densely, and invert. */
  function Build(reserved: seq<string>, corpora: seq<seq<seq<string>>>): (v: Vocab)
    ensures forall t :: t in reserved ==> t in v.toIndex
    ensures forall i :: i in v.toEntry ==> v.toEntry[i] in v.toIndex && v.toIndex[v.toEntry[i]] == i
    ensures forall t :: t in v.toIndex ==> v.toIndex[t] in v.toEntry && v.toEntry[v.toIndex[t]] == t
  {
    var m := Assign(map[], reserved + SortedTokens(corpora));
    var entries := Entries(reserved, corpora);
    EntriesAssigned(reserved, corpora);
    var r := Invert(m, entries);
    forall t | t in m
      ensures m[t] in r && r[m[t]] == t
    {
      assert entries[m[t]] == t;
    }
    forall t | t in reserved
      ensures t in m
    {
      FreshElems({}, reserved + SortedTokens(corpora));
    }
    Vocab(m, r)
  }

  /** The built map is indexed by the entries, in order. */
  lemma EntriesAssigned(reserved: seq<string>, corpora: seq<seq<seq<string>>>)
    ensures IndexedBy(Assign(map[], reserved + SortedTokens(corpora)), Entries(reserved, corpora))
  {
    AssignFromEmpty(reserved + SortedTokens(corpora));
  }

  /** Assign on an empty map numbers the fresh strings 0, 1, 2, ... in order. */
  lemma AssignFromEmpty(ts: seq<string>)
    ensures IndexedBy(Assign(map[], ts), Fresh({}, ts))
  {
    var empty: map<string, nat> := map[];
    AssignIndexes(empty, [], ts);
    assert empty.Keys == {};
    assert [] + Fresh({}, ts) == Fresh({}, ts);
  }

  function TokenVocab(corpora: seq<seq<seq<string>>>): Vocab
  {
    Build(TokenReserved, corpora)
  }

  function LabelVocab(corpora: seq<seq<seq<string>>>): Vocab
  {
    Build(LabelReserved, corpora)
  }

  // ---------------------------------------------------------------------------
  // Assign numbers each new string with the next index

  /** Adding a new key at index len(m) extends the index order by that key. */
  lemma AddIndexed(m: map<string, nat>, entries: seq<string>, t: string)
    requires IndexedBy(m, entries) && t !in m
    ensures IndexedBy(m[t := |m|], entries + [t])
  {
    var m' := m[t := |m|];
    var entries' := entries + [t];
    assert |m'| == |m| + 1;
    forall i | 0 <= i < |entries'|
      ensures entries'[i] in m' && m'[entries'[i]] == i
    {
      if i < |entries| {
        assert entries'[i] == entries[i];
        assert entries[i] != t;
      }
    }
  }

  lemma {:induction false} AssignIndexes(m: map<string, nat>, entries: seq<string>, ts: seq<string>)
    requires IndexedBy(m, entries)
    ensures IndexedBy(Assign(m, ts), entries + Fresh(m.Keys, ts))
    decreases |ts|
  {
    if ts != [] {
      var t := ts[0];
      if t in m {
        AssignIndexes(m, entries, ts[1..]);
      } else {
        var m' := m[t := |m|];
        AddIndexed(m, entries, t);
        AssignIndexes(m', entries + [t], ts[1..]);
        FreshStep(m, entries, ts);
      }
    }
  }

  /** Assigning a new first string extends the index order by it, then by the rest. */
  lemma FreshStep(m: map<string, nat>, entries: seq<string>, ts: seq<string>)
    requires ts != [] && ts[0] !in m
    ensures entries + [ts[0]] + Fresh(m[ts[0] := |m|].Keys, ts[1..]) == entries + Fresh(m.Keys, ts)
  {
    assert m[ts[0] := |m|].Keys == m.Keys + {ts[0]};
  }

  lemma {:induction false} FreshElems(seen: set<string>, ts: seq<string>)
    ensures forall x :: x in Fresh(seen, ts) <==> x in ts && x !in seen
    decreases |ts|
  {
    if ts != [] {
      FreshElems(seen, ts[1..]);
      FreshElems(seen + {ts[0]}, ts[1..]);
      assert ts == [ts[0]] + ts[1..];
    }
  }

  /** Fresh strings of a concatenation: those of the first part, then those of the second
      part that the first did not add. */
  lemma {:induction false} FreshAppend(seen: set<string>, a: seq<string>, b: seq<string>)
    ensures Fresh(seen, a + b) == Fresh(seen, a) + Fresh(seen + Elems(a), b)
    decreases |a|
  {
    if a == [] {
      assert a + b == b;
      assert seen + Elems(a) == seen;
    } else {
      assert (a + b)[0] == a[0];
      assert (a + b)[1..] == a[1..] + b;
      if a[0] in seen {
        FreshAppend(seen, a[1..], b);
        assert seen + Elems(a) == seen + Elems(a[1..]) by {
          assert a == [a[0]] + a[1..];
        }
      } else {
        FreshAppend(seen + {a[0]}, a[1..], b);
        assert seen + Elems(a) == seen + {a[0]} + Elems(a[1..]) by {
          assert a == [a[0]] + a[1..];
        }
      }
    }
  }

  lemma {:induction false} FreshOfDistinct(seen: set<string>, ts: seq<string>)
    requires Distinct(ts)
    requires forall x :: x in ts ==> x !in seen
    ensures Fresh(seen, ts) == ts
    decreases |ts|
  {
    if ts != [] {
      assert ts[0] !in Elems(ts[1..]);
      FreshOfDistinct(seen + {ts[0]}, ts[1..]);
    }
  }

  /** Fresh keeps a subsequence, so it keeps any stable order. */
  lemma {:induction false} FreshKeepsRanked(seen: set<string>, ts: seq<string>, counts: map<string, nat>, order: seq<string>)
    requires Ranked(ts, counts, order)
    ensures Ranked(Fresh(seen, ts), counts, order)
    decreases |ts|
  {
    if ts != [] {
      var tail := ts[1..];
      assert Ranked(tail, counts, order) by {
        forall i, j | 0 <= i < j < |tail|
          ensures Precedes(tail[i], tail[j], counts, order)
        {
          assert tail[i] == ts[i + 1] && tail[j] == ts[j + 1];
        }
      }
      if ts[0] in seen {
        FreshKeepsRanked(seen, tail, counts, order);
      } else {
        var rest := Fresh(seen + {ts[0]}, tail);
        FreshKeepsRanked(seen + {ts[0]}, tail, counts, order);
        FreshElems(seen + {ts[0]}, tail);
        var out := [ts[0]] + rest;
        forall i, j | 0 <= i < j < |out|
          ensures Precedes(out[i], out[j], counts, order)
        {
          if i == 0 {
            assert out[j] in tail;
            var q :| 0 <= q < |tail| && tail[q] == out[j];
            assert Precedes(ts[0], ts[q + 1], counts, order);
          } else {
            assert out[i] == rest[i - 1] && out[j] == rest[j - 1];
          }
        }
      }
    }
  }

  /** Inverting a map along its index order gives back the index order. */
  lemma {:induction false} InvertIndexed(m: map<string, nat>, entries: seq<string>)
    requires forall i :: 0 <= i < |entries| ==> entries[i] in m && m[entries[i]] == i
    ensures forall i: nat :: i in Invert(m, entries) <==> i < |entries|
    ensures forall i :: 0 <= i < |entries| ==> Invert(m, entries)[i] == entries[i]
  {
    if entries != [] {
      var prev := entries[..|entries| - 1];
      InvertIndexed(m, prev);
    }
  }

  /** For a map with distinct indices the inverse does not depend on the key order, so a
      reload that lists the keys in any order rebuilds the same inverse. */
  lemma InvertOrderIrrelevant(m: map<string, nat>, order1: seq<string>, order2: seq<string>)
    requires forall a, b :: a in m && b in m && m[a] == m[b] ==> a == b
    requires forall t :: t in order1 <==> t in m
    requires forall t :: t in order2 <==> t in m
    ensures Invert(m, order1) == Invert(m, order2)
  {
    var r1, r2 := Invert(m, order1), Invert(m, order2);
    forall i | i in r1
      ensures i in r2 && r2[i] == r1[i]
    {
      assert m[r1[i]] in r2;
    }
    forall i | i in r2
      ensures i in r1
    {
      assert m[r2[i]] in r1;
    }
  }

  // ---------------------------------------------------------------------------
  // Properties of the built vocabulary

  lemma BuildIndexed(reserved: seq<string>, corpora: seq<seq<seq<string>>>)
    ensures IndexedBy(Build(reserved, corpora).toIndex, Entries(reserved, corpora))
  {
    EntriesAssigned(reserved, corpora);
  }

  lemma IndexedKeys(m: map<string, nat>, entries: seq<string>)
    requires IndexedBy(m, entries)
    ensures forall t :: t in m <==> t in entries
  {
    forall t | t in entries
      ensures t in m
    {
      var i :| 0 <= i < |entries| && entries[i] == t;
    }
  }

  /** The sorted tokens are the tokens of the corpora, each once. */
  lemma SortedTokensElems(corpora: seq<seq<seq<string>>>)
    ensures forall t :: t in SortedTokens(corpora) <==> t in Flatten(corpora)
  {
    var tally := CountTokens(Flatten(corpora));
    var sorted := SortedTokens(corpora);
    assert multiset(sorted) == multiset(tally.order);
    forall t
      ensures t in sorted <==> t in tally.order
    {
      assert t in sorted <==> t in multiset(sorted);
      assert t in tally.order <==> t in multiset(tally.order);
    }
  }

  /** The keys are exactly the reserved strings plus every token of every sentence. */
  lemma BuildKeys(reserved: seq<string>, corpora: seq<seq<seq<string>>>)
    ensures forall t :: t in Build(reserved, corpora).toIndex <==> t in reserved || t in Flatten(corpora)
  {
    var m := Build(reserved, corpora).toIndex;
    var ts := reserved + SortedTokens(corpora);
    BuildIndexed(reserved, corpora);
    IndexedKeys(m, Entries(reserved, corpora));
    FreshElems({}, ts);
    SortedTokensElems(corpora);
  }

  /** The inverse map is the exact inverse of the forward map, and the indices are
      exactly 0 .. size - 1: each index names one key and each key one index. */
  lemma BuildIsBijection(reserved: seq<string>, corpora: seq<seq<seq<string>>>)
    ensures var v := Build(reserved, corpora);
      && (forall i: nat :: i in v.toEntry <==> i < |v.toIndex|)
      && (forall t :: t in v.toIndex ==> v.toIndex[t] in v.toEntry && v.toEntry[v.toIndex[t]] == t)
      && (forall i :: i in v.toEntry ==> v.toEntry[i] in v.toIndex && v.toIndex[v.toEntry[i]] == i)
  {
    BuildIndexed(reserved, corpora);
    var v := Build(reserved, corpora);
    InvertIndexed(v.toIndex, Entries(reserved, corpora));
  }

  /** Every index lies below the size of the map, and no two keys share one. */
  lemma BuildIsDense(reserved: seq<string>, corpora: seq<seq<seq<string>>>)
    ensures var m := Build(reserved, corpora).toIndex;
      && (forall t :: t in m ==> m[t] < |m|)
      && (forall i: nat :: i < |m| ==> i in m.Values)
      && (forall a, b :: a in m && b in m && m[a] == m[b] ==> a == b)
  {
    BuildIsBijection(reserved, corpora);
    var v := Build(reserved, corpora);
    forall i: nat | i < |v.toIndex|
      ensures i in v.toIndex.Values
    {
      assert i in v.toEntry;
      assert v.toIndex[v.toEntry[i]] == i;
    }
  }

  /** With distinct reserved strings, the index order is the reserved prefix followed by
      the sorted tokens that are not reserved. */
  lemma EntriesSplit(reserved: seq<string>, corpora: seq<seq<seq<string>>>)
    requires Distinct(reserved)
    ensures Entries(reserved, corpora) == reserved + Fresh(Elems(reserved), SortedTokens(corpora))
  {
    var sorted := SortedTokens(corpora);
    FreshAppend({}, reserved, sorted);
    FreshOfDistinct({}, reserved);
    assert {} + Elems(reserved) == Elems(reserved);
  }

  /** The reserved strings occupy the first indices, whatever the corpus contains. */
  lemma BuildReserved(reserved: seq<string>, corpora: seq<seq<seq<string>>>)
    requires Distinct(reserved)
    ensures var m := Build(reserved, corpora).toIndex;
      forall i :: 0 <= i < |reserved| ==> reserved[i] in m && m[reserved[i]] == i
  {
    var entries := Entries(reserved, corpora);
    BuildIndexed(reserved, corpora);
    EntriesSplit(reserved, corpora);
    forall i | 0 <= i < |reserved|
      ensures entries[i] == reserved[i]
    {
    }
  }

  /** The sorted tokens that are not reserved, in the order they receive indices. */
  function Added(reserved: seq<string>, corpora: seq<seq<seq<string>>>): seq<string>
  {
    Fresh(Elems(reserved), SortedTokens(corpora))
  }

  lemma AddedRanked(reserved: seq<string>, corpora: seq<seq<seq<string>>>)
    ensures var tally := CountTokens(Flatten(corpora));
      Ranked(Added(reserved, corpora), tally.counts, tally.order)
  {
    var tally := CountTokens(Flatten(corpora));
    SortIsStable(tally.order, tally.counts);
    FreshKeepsRanked(Elems(reserved), SortedTokens(corpora), tally.counts, tally.order);
  }

  /** A non-reserved key sits in the added part, at its index minus the reserved prefix. */
  lemma AddedPosition(reserved: seq<string>, corpora: seq<seq<seq<string>>>, a: string)
    requires Distinct(reserved)
    requires a in Build(reserved, corpora).toIndex && a !in reserved
    ensures var m := Build(reserved, corpora).toIndex;
      && |reserved| <= m[a] < |reserved| + |Added(reserved, corpora)|
      && Added(reserved, corpora)[m[a] - |reserved|] == a
  {
    var m := Build(reserved, corpora).toIndex;
    var entries := Entries(reserved, corpora);
    BuildIndexed(reserved, corpora);
    EntriesSplit(reserved, corpora);
    assert entries[m[a]] == a;
  }

  /** The frequency order of the non-reserved tokens: a strictly larger pooled count gives
      a strictly smaller index; equal counts keep the order of first occurrence; and every
      reserved index comes first. */
  lemma BuildOrder(reserved: seq<string>, corpora: seq<seq<seq<string>>>, a: string, b: string)
    requires Distinct(reserved)
    requires a in Flatten(corpora) && b in Flatten(corpora)
    requires a !in reserved && b !in reserved
    ensures var m := Build(reserved, corpora).toIndex;
      && a in m && b in m
      && |reserved| <= m[a]
      && (Occurrences(Flatten(corpora), a) > Occurrences(Flatten(corpora), b) ==> m[a] < m[b])
      && (Occurrences(Flatten(corpora), a) == Occurrences(Flatten(corpora), b) ==>
            (m[a] < m[b] <==> IndexOf(Flatten(corpora), a) < IndexOf(Flatten(corpora), b)))
  {
    var flat := Flatten(corpora);
    var tally := CountTokens(flat);
    var m := Build(reserved, corpora).toIndex;
    var added := Added(reserved, corpora);
    BuildKeys(reserved, corpora);
    BuildIsDense(reserved, corpora);
    AddedPosition(reserved, corpora, a);
    AddedPosition(reserved, corpora, b);
    AddedRanked(reserved, corpora);
    OrderFollowsFirstOccurrence(flat, a, b);
    var i, j := m[a] - |reserved|, m[b] - |reserved|;
    if i < j {
      assert Precedes(added[i], added[j], tally.counts, tally.order);
    } else if j < i {
      assert Precedes(added[j], added[i], tally.counts, tally.order);
    }
  }

  // ---------------------------------------------------------------------------
  // The two concrete builders

  /** `<PAD>`, `<UNK>`, `<BOS>`, `<EOS>` get 0, 1, 2, 3 for every corpus, even one that
      contains those strings. */
  lemma TokenReservedDistinct()
    ensures Distinct(TokenReserved)
  {
    assert Pad[1] == 'P' && Unk[1] == 'U' && Bos[1] == 'B' && Eos[1] == 'E';
  }

  lemma TokenReservedSlots(corpora: seq<seq<seq<string>>>)
    ensures var m := TokenVocab(corpora).toIndex;
      && Pad in m && Unk in m && Bos in m && Eos in m
      && m[Pad] == 0 && m[Unk] == 1 && m[Bos] == 2 && m[Eos] == 3
  {
    TokenReservedDistinct();
    BuildReserved(TokenReserved, corpora);
    assert TokenReserved[0] == Pad && TokenReserved[1] == Unk;
    assert TokenReserved[2] == Bos && TokenReserved[3] == Eos;
  }

  /** `<PAD>` gets 0 in every label map. */
  lemma LabelPadSlot(corpora: seq<seq<seq<string>>>)
    ensures Pad in LabelVocab(corpora).toIndex && LabelVocab(corpora).toIndex[Pad] == 0
    ensures 0 in LabelVocab(corpora).toEntry && LabelVocab(corpora).toEntry[0] == Pad
  {
    BuildReserved(LabelReserved, corpora);
    BuildIsBijection(LabelReserved, corpora);
  }
}
