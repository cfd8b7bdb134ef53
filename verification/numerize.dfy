/** The numerizers of the labeling processor: tolerant token lookup, strict label lookup,
    and the reverse lookup of label indices with optional per-sample truncation. */
module Numerize {
  import opened Seqs
  import opened Results
  import opened Vocabulary
  import opened Padding

  /** The index a token gets: its own, or that of `<UNK>`. */
  function TokenOrUnk(toIndex: map<string, nat>, t: string): nat
    requires Unk in toIndex
  {
    if t in toIndex then toIndex[t] else toIndex[Unk]
  }

  /** `numerize_token_sequences`: `token2idx['<UNK>']` is read once per sequence, so it
      raises only when there is a sequence and the map has no `<UNK>`. */
  function NumerizeTokens(toIndex: map<string, nat>, seqs: seq<seq<string>>): (r: Result<seq<seq<nat>>>)
    ensures r.Success? <==> seqs == [] || Unk in toIndex
    ensures r.Failure? ==> r.error == UnknownKey(Unk)
    ensures r.Success? ==> |r.value| == |seqs|
    ensures r.Success? ==> forall i :: 0 <= i < |seqs| ==> |r.value[i]| == |seqs[i]|
    ensures r.Success? ==> forall i, j :: 0 <= i < |seqs| && 0 <= j < |seqs[i]| ==>
      (seqs[i][j] in toIndex ==> r.value[i][j] == toIndex[seqs[i][j]]) &&
      (seqs[i][j] !in toIndex ==> r.value[i][j] == toIndex[Unk])
  {
    if seqs == [] then Success([])
    else if Unk !in toIndex then Failure(UnknownKey(Unk))
    else Success(seq(|seqs|, i requires 0 <= i < |seqs| =>
                   seq(|seqs[i]|, j requires 0 <= j < |seqs[i]| => TokenOrUnk(toIndex, seqs[i][j]))))
  }

  /** `[label2idx[label] for label in seq]`: the first label without an index raises. */
  function LookupLabels(toIndex: map<string, nat>, s: seq<string>): (r: Result<seq<nat>>)
    ensures r.Success? <==> forall j :: 0 <= j < |s| ==> s[j] in toIndex
    ensures r.Success? ==> |r.value| == |s| && forall j :: 0 <= j < |s| ==> r.value[j] == toIndex[s[j]]
    ensures r.Failure? ==> r.error.UnknownKey? && r.error.key in s && r.error.key !in toIndex
  {
    if s == [] then Success([])
    else if s[0] !in toIndex then Failure(UnknownKey(s[0]))
    else
      var rest := LookupLabels(toIndex, s[1..]);
      if rest.Failure? then Failure(rest.error)
      else Success([toIndex[s[0]]] + rest.value)
  }

  /** `numerize_label_sequences`: strict, no substitution for a missing label. */
  function NumerizeLabels(toIndex: map<string, nat>, seqs: seq<seq<string>>): (r: Result<seq<seq<nat>>>)
    ensures r.Success? <==> forall i, j :: 0 <= i < |seqs| && 0 <= j < |seqs[i]| ==> seqs[i][j] in toIndex
    ensures r.Success? ==> |r.value| == |seqs|
    ensures r.Success? ==> forall i :: 0 <= i < |seqs| ==> |r.value[i]| == |seqs[i]|
    ensures r.Success? ==> forall i, j :: 0 <= i < |seqs| && 0 <= j < |seqs[i]| ==> r.value[i][j] == toIndex[seqs[i][j]]
    ensures r.Failure? ==> r.error.UnknownKey? && r.error.key !in toIndex
    ensures r.Failure? ==> exists i :: 0 <= i < |seqs| && r.error.key in seqs[i]
  {
    if seqs == [] then Success([])
    else
      var first := LookupLabels(toIndex, seqs[0]);
      if first.Failure? then Failure(first.error)
      else
        var rest := NumerizeLabels(toIndex, seqs[1..]);
        if rest.Failure? then
          var i :| 0 <= i < |seqs[1..]| && rest.error.key in seqs[1..][i];
          assert rest.error.key in seqs[i + 1];
          Failure(rest.error)
        else
          assert forall i :: 1 <= i < |seqs| ==> seqs[i] == seqs[1..][i - 1];
          Success([first.value] + rest.value)
  }

  /** `[idx2label[idx] for idx in seq]`: the first index without a label raises. */
  function LookupIndices(toEntry: map<nat, string>, s: seq<nat>): (r: Result<seq<string>>)
    ensures r.Success? <==> forall j :: 0 <= j < |s| ==> s[j] in toEntry
    ensures r.Success? ==> |r.value| == |s| && forall j :: 0 <= j < |s| ==> r.value[j] == toEntry[s[j]]
    ensures r.Failure? ==> r.error.UnknownIndex? && r.error.missing in s && r.error.missing !in toEntry
  {
    if s == [] then Success([])
    else if s[0] !in toEntry then Failure(UnknownIndex(s[0]))
    else
      var rest := LookupIndices(toEntry, s[1..]);
      if rest.Failure? then Failure(rest.error)
      else Success([toEntry[s[0]]] + rest.value)
  }

  /** Length of Python's `labels[:n]` for a list of length `len`; a negative `n` counts from the end. */
  function SliceLength(len: nat, n: int): (k: nat)
    ensures k <= len
    ensures n >= 0 ==> k == Min(n, len)
    ensures n < 0 ==> k == Max(0, len + n)
  {
    if n >= 0 then (if n <= len then n else len)
    else if len + n >= 0 then len + n else 0
  }

  /** `reverse_numerize_label_sequences` over the samples from position `index` of the
      input on. `lengths` holds the remaining per-sample lengths, or None when the call
      keeps whole sequences. */
  function ReverseFrom(toEntry: map<nat, string>, seqs: seq<seq<nat>>, lengths: Option<seq<int>>, index: nat): (r: Result<seq<seq<string>>>)
    ensures r.Success? <==>
      && (forall i, j :: 0 <= i < |seqs| && 0 <= j < |seqs[i]| ==> seqs[i][j] in toEntry)
      && (lengths.None? || |seqs| <= |lengths.value|)
    ensures r.Success? ==> |r.value| == |seqs|
    ensures r.Success? ==> forall i :: 0 <= i < |seqs| ==>
      && |r.value[i]| == (if lengths.None? then |seqs[i]| else SliceLength(|seqs[i]|, lengths.value[i]))
      && forall j :: 0 <= j < |r.value[i]| ==> r.value[i][j] == toEntry[seqs[i][j]]
    ensures r.Failure? ==>
      || (r.error.UnknownIndex? && r.error.missing !in toEntry)
      || (r.error.IndexOutOfRange? && lengths.Some? && r.error.position >= index + |lengths.value|)
  {
    if seqs == [] then Success([])
    else
      var labels := LookupIndices(toEntry, seqs[0]);
      if labels.Failure? then Failure(labels.error)
      else if lengths.Some? && lengths.value == [] then Failure(IndexOutOfRange(index))
      else
        var kept := if lengths.None? then labels.value
                    else labels.value[..SliceLength(|labels.value|, lengths.value[0])];
        var more := if lengths.None? then None else Some(lengths.value[1..]);
        var rest := ReverseFrom(toEntry, seqs[1..], more, index + 1);
        if rest.Failure? then Failure(rest.error)
        else Success([kept] + rest.value)
  }

  /** `reverse_numerize_label_sequences`: an index without a label raises KeyError; with
      truthy `lengths`, a sample past the end of `lengths` raises IndexError. */
  function ReverseNumerize(toEntry: map<nat, string>, seqs: seq<seq<nat>>, lengths: seq<int>): (r: Result<seq<seq<string>>>)
    ensures r.Success? <==>
      && (forall i, j :: 0 <= i < |seqs| && 0 <= j < |seqs[i]| ==> seqs[i][j] in toEntry)
      && (lengths == [] || |seqs| <= |lengths|)
    ensures r.Success? ==> |r.value| == |seqs|
    ensures r.Success? ==> forall i :: 0 <= i < |seqs| ==>
      && |r.value[i]| == (if lengths == [] then |seqs[i]| else SliceLength(|seqs[i]|, lengths[i]))
      && forall j :: 0 <= j < |r.value[i]| ==> r.value[i][j] == toEntry[seqs[i][j]]
    ensures r.Failure? ==>
      || (r.error.UnknownIndex? && r.error.missing !in toEntry)
      || (r.error.IndexOutOfRange? && lengths != [] && r.error.position >= |lengths|)
  {
    ReverseFrom(toEntry, seqs, if lengths == [] then None else Some(lengths), 0)
  }

  // ---------------------------------------------------------------------------
  // Numerizing with a built vocabulary

  /** With a built token map, token numerization never fails, keeps the shape, and every
      index reads back as the token itself, or as `<UNK>` (index 1) for an unseen token. */
  lemma TokensAgainstBuiltVocab(corpora: seq<seq<seq<string>>>, seqs: seq<seq<string>>)
    ensures var v := TokenVocab(corpora);
      var r := NumerizeTokens(v.toIndex, seqs);
      && r.Success?
      && |r.value| == |seqs|
      && forall i, j :: 0 <= i < |seqs| && 0 <= j < |seqs[i]| ==>
           && r.value[i][j] in v.toEntry
           && v.toEntry[r.value[i][j]] == (if seqs[i][j] in v.toIndex then seqs[i][j] else Unk)
           && (seqs[i][j] !in v.toIndex ==> r.value[i][j] == 1)
  {
    TokenReservedSlots(corpora);
    BuildIsBijection(TokenReserved, corpora);
  }

  /** `toEntry` reads every index of `toIndex` back as its key. */
  ghost predicate InvertsOn(toIndex: map<string, nat>, toEntry: map<nat, string>)
  {
    forall t :: t in toIndex ==> toIndex[t] in toEntry && toEntry[toIndex[t]] == t
  }

  lemma BuiltLabelsInvert(corpora: seq<seq<seq<string>>>)
    ensures InvertsOn(LabelVocab(corpora).toIndex, LabelVocab(corpora).toEntry)
    ensures 0 in LabelVocab(corpora).toEntry
  {
    BuildIsBijection(LabelReserved, corpora);
    LabelPadSlot(corpora);
  }

  /** Known labels, each an index of `toIndex`. */
  ghost predicate Known(toIndex: map<string, nat>, seqs: seq<seq<string>>)
  {
    forall i, j :: 0 <= i < |seqs| && 0 <= j < |seqs[i]| ==> seqs[i][j] in toIndex
  }

  lemma {:induction false} RoundTripWith(toIndex: map<string, nat>, toEntry: map<nat, string>, seqs: seq<seq<string>>)
    requires InvertsOn(toIndex, toEntry) && Known(toIndex, seqs)
    ensures NumerizeLabels(toIndex, seqs).Success?
    ensures ReverseNumerize(toEntry, NumerizeLabels(toIndex, seqs).value, []) == Success(seqs)
  {
    var ids := NumerizeLabels(toIndex, seqs).value;
    var back := ReverseNumerize(toEntry, ids, []);
    assert back.Success?;
    forall i | 0 <= i < |seqs|
      ensures back.value[i] == seqs[i]
    {
    }
    assert back.value == seqs;
  }

  lemma {:induction false} PaddedRoundTripWith(toIndex: map<string, nat>, toEntry: map<nat, string>, seqs: seq<seq<string>>, maxlen: nat)
    requires InvertsOn(toIndex, toEntry) && 0 in toEntry && Known(toIndex, seqs)
    requires forall i :: 0 <= i < |seqs| ==> |seqs[i]| <= maxlen
    ensures NumerizeLabels(toIndex, seqs).Success?
    ensures ReverseNumerize(toEntry, PadRows(NumerizeLabels(toIndex, seqs).value, maxlen),
                            seq(|seqs|, i requires 0 <= i < |seqs| => |seqs[i]|)) == Success(seqs)
  {
    var ids := NumerizeLabels(toIndex, seqs).value;
    var padded := PadRows(ids, maxlen);
    var lengths := seq(|seqs|, i requires 0 <= i < |seqs| => |seqs[i]|);
    var back := ReverseNumerize(toEntry, padded, lengths);
    assert forall i, j :: 0 <= i < |padded| && 0 <= j < |padded[i]| ==> padded[i][j] in toEntry;
    assert back.Success?;
    forall i | 0 <= i < |seqs|
      ensures back.value[i] == seqs[i]
    {
      assert SliceLength(|padded[i]|, lengths[i]) == |seqs[i]|;
    }
    assert back.value == seqs;
  }

  /** Reverse numerization without lengths undoes label numerization. */
  lemma LabelRoundTrip(corpora: seq<seq<seq<string>>>, seqs: seq<seq<string>>)
    requires Known(LabelVocab(corpora).toIndex, seqs)
    ensures NumerizeLabels(LabelVocab(corpora).toIndex, seqs).Success?
    ensures ReverseNumerize(LabelVocab(corpora).toEntry, NumerizeLabels(LabelVocab(corpora).toIndex, seqs).value, [])
            == Success(seqs)
  {
    BuiltLabelsInvert(corpora);
    RoundTripWith(LabelVocab(corpora).toIndex, LabelVocab(corpora).toEntry, seqs);
  }

  /** Numerize, pad to `maxlen`, then reverse with the original lengths: the padding is
      stripped and the original labels come back. */
  lemma PaddedLabelRoundTrip(corpora: seq<seq<seq<string>>>, seqs: seq<seq<string>>, maxlen: nat)
    requires Known(LabelVocab(corpora).toIndex, seqs)
    requires forall i :: 0 <= i < |seqs| ==> |seqs[i]| <= maxlen
    ensures NumerizeLabels(LabelVocab(corpora).toIndex, seqs).Success?
    ensures var v := LabelVocab(corpora);
      var padded := PadRows(NumerizeLabels(v.toIndex, seqs).value, maxlen);
      ReverseNumerize(v.toEntry, padded, seq(|seqs|, i requires 0 <= i < |seqs| => |seqs[i]|)) == Success(seqs)
  {
    BuiltLabelsInvert(corpora);
    PaddedRoundTripWith(LabelVocab(corpora).toIndex, LabelVocab(corpora).toEntry, seqs, maxlen);
  }
}
