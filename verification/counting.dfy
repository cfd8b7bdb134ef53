/** The counting pass of the vocabulary builders: Python's `token2count` dict,
    whose keys keep insertion order, filled by `token2count[t] = token2count.get(t, 0) + 1`. */
module Counting {
  import opened Seqs

  /** A count per token, plus the order in which the tokens were first inserted. */
  datatype Tally = Tally(order: seq<string>, counts: map<string, nat>)

  /** One `get(token, 0) + 1` update: a known token keeps its place, a new one is appended. */
  function Bump(t: Tally, token: string): Tally
  {
    if token in t.counts then Tally(t.order, t.counts[token := t.counts[token] + 1])
    else Tally(t.order + [token], t.counts[token := 1])
  }

  /** The tally of a token stream, folding Bump from left to right. */
  function CountTokens(tokens: seq<string>): (t: Tally)
    ensures Distinct(t.order)
    ensures forall x :: x in t.order <==> x in tokens
    ensures t.counts.Keys == Elems(tokens)
    ensures forall x :: x in tokens ==> t.counts[x] == Occurrences(tokens, x)
  {
    if tokens == [] then Tally([], map[])
    else
      var prev := tokens[..|tokens| - 1];
      var last := tokens[|tokens| - 1];
      assert tokens == prev + [last];
      OccurrencesPositive(prev, last);
      Bump(CountTokens(prev), last)
  }

  /** The insertion order of the tally is the order of first occurrence in the stream. */
  lemma {:induction false} OrderFollowsFirstOccurrence(tokens: seq<string>, a: string, b: string)
    requires a in tokens && b in tokens
    ensures a in CountTokens(tokens).order && b in CountTokens(tokens).order
    ensures IndexOf(CountTokens(tokens).order, a) < IndexOf(CountTokens(tokens).order, b)
        <==> IndexOf(tokens, a) < IndexOf(tokens, b)
  {
    var prev := tokens[..|tokens| - 1];
    var last := tokens[|tokens| - 1];
    assert tokens == prev + [last];
    var before := CountTokens(prev).order;
    var after := CountTokens(tokens).order;
    if a in prev && b in prev {
      OrderFollowsFirstOccurrence(prev, a, b);
      IndexOfAppend(prev, [last], a);
      IndexOfAppend(prev, [last], b);
      if last in prev {
        assert after == before;
      } else {
        assert after == before + [last];
        IndexOfAppend(before, [last], a);
        IndexOfAppend(before, [last], b);
      }
    } else {
      // `a` or `b` is the last token and occurs nowhere before it
      assert after == before + [last];
      IndexOfLast(prev, last);
      IndexOfLast(before, last);
      if a in prev {
        IndexOfAppend(prev, [last], a);
        IndexOfAppend(before, [last], a);
      }
      if b in prev {
        IndexOfAppend(prev, [last], b);
        IndexOfAppend(before, [last], b);
      }
    }
  }
}
