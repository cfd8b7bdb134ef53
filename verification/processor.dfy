/** The processor object: its two vocabularies and `dataset_info`, the build-once
    `analyze_corpus` / `prepare_dicts_if_need`, the cache load, and `_process_sequence`
    behind `process_x_dataset` / `process_y_dataset`. */
module Processor {
  import opened Seqs
  import opened Results
  import opened Vocabulary
  import opened Lengths
  import opened Numerize
  import opened Padding

  /** `dataset_info`; an entry is None until the operation that writes it has run. */
  datatype DatasetInfo = DatasetInfo(
    recommendLens: Option<seq<nat>>,   // 'RECOMMEND_LEN', one per corpus
    recommendSeqLen: Option<nat>,      // 'recommend_seq_len'
    tokenCount: Option<nat>)           // 'token_count'

  /** The processor's state: token2idx / idx2token, label2idx / idx2label, dataset_info. */
  datatype State = State(tokens: Vocab, labels: Vocab, info: DatasetInfo)

  /** A freshly constructed processor: every map empty, `dataset_info` too. */
  function Init(): (p: State)
    ensures |p.tokens.toIndex| == 0 && |p.labels.toIndex| == 0
    ensures |p.tokens.toEntry| == 0 && |p.labels.toEntry| == 0
    ensures p.info.recommendLens.None? && p.info.recommendSeqLen.None? && p.info.tokenCount.None?
  {
    State(Vocab(map[], map[]), Vocab(map[], map[]), DatasetInfo(None, None, None))
  }

  function BuildTokenDict(p: State, corpora: seq<seq<seq<string>>>): (q: State)
    ensures q.tokens == TokenVocab(corpora) && q.labels == p.labels
    ensures q.info == p.info.(tokenCount := Some(|q.tokens.toIndex|))
  {
    var v := TokenVocab(corpora);
    p.(tokens := v, info := p.info.(tokenCount := Some(|v.toIndex|)))
  }

  function BuildLabelDict(p: State, corpora: seq<seq<seq<string>>>): (q: State)
    ensures q.labels == LabelVocab(corpora) && q.tokens == p.tokens && q.info == p.info
  {
    p.(labels := LabelVocab(corpora))
  }

  /** The build-once guard shared by `analyze_corpus` and `prepare_dicts_if_need`:
      each map is built only while it is empty. */
  function BuildIfEmpty(p: State, corpora: seq<seq<seq<string>>>, labels: seq<seq<seq<string>>>): (q: State)
    ensures |p.tokens.toIndex| > 0 ==> q.tokens == p.tokens && q.info.tokenCount == p.info.tokenCount
    ensures |p.tokens.toIndex| == 0 ==> q.tokens == TokenVocab(corpora) && q.info.tokenCount == Some(|q.tokens.toIndex|)
    ensures |p.labels.toIndex| > 0 ==> q.labels == p.labels
    ensures |p.labels.toIndex| == 0 ==> q.labels == LabelVocab(labels)
    ensures q.info.recommendLens == p.info.recommendLens && q.info.recommendSeqLen == p.info.recommendSeqLen
  {
    var withTokens := if |p.tokens.toIndex| == 0 then BuildTokenDict(p, corpora) else p;
    if |withTokens.labels.toIndex| == 0 then BuildLabelDict(withTokens, labels) else withTokens
  }

  /** A built vocabulary is never empty, so a second build-once call leaves it alone. */
  lemma BuiltVocabsNonEmpty(corpora: seq<seq<seq<string>>>, labels: seq<seq<seq<string>>>)
    ensures |TokenVocab(corpora).toIndex| > 0 && |LabelVocab(labels).toIndex| > 0
  {
    TokenReservedSlots(corpora);
    LabelPadSlot(labels);
  }

  /** `analyze_corpus`: the recommended length of every corpus, then the guarded builds.
      An empty corpus raises before anything is written. */
  function AnalyzeCorpus(p: State, corpora: seq<seq<seq<string>>>, labels: seq<seq<seq<string>>>): (r: Result<State>)
    ensures r.Success? <==> forall i :: 0 <= i < |corpora| ==> corpora[i] != []
    ensures r.Failure? ==> r.error == IndexOutOfRange(0)
    ensures r.Success? ==> r.value.info.recommendLens.Some?
    ensures r.Success? ==> var lens := r.value.info.recommendLens.value;
      |lens| == |corpora| && forall i :: 0 <= i < |corpora| ==> RecommendedLength(corpora[i]) == Success(lens[i])
    ensures r.Success? ==> |r.value.tokens.toIndex| > 0 && |r.value.labels.toIndex| > 0
    ensures r.Success? && |p.tokens.toIndex| > 0 ==> r.value.tokens == p.tokens && r.value.info.tokenCount == p.info.tokenCount
    ensures r.Success? && |p.tokens.toIndex| == 0 ==>
      r.value.tokens == TokenVocab(corpora) && r.value.info.tokenCount == Some(|r.value.tokens.toIndex|)
    ensures r.Success? ==> r.value.info.recommendSeqLen == p.info.recommendSeqLen
    ensures r.Success? && |p.labels.toIndex| > 0 ==> r.value.labels == p.labels
    ensures r.Success? && |p.labels.toIndex| == 0 ==> r.value.labels == LabelVocab(labels)
  {
    var rec := RecommendedLengths(corpora);
    if rec.Failure? then Failure(rec.error)
    else
      BuiltVocabsNonEmpty(corpora, labels);
      Success(BuildIfEmpty(p.(info := p.info.(recommendLens := Some(rec.value))), corpora, labels))
  }

  // ---------------------------------------------------------------------------
  // prepare_dicts_if_need

  /** `prepare_dicts_if_need` as intended: one corpus, wrapped into a one-element tuple
      before the guarded builds, like `analyze_corpus` does. */
  function PrepareDictsIfNeed(p: State, corpus: seq<seq<string>>, labels: seq<seq<string>>): (r: Result<State>)
    ensures r.Success? <==> corpus != []
    ensures r.Failure? ==> r.error == IndexOutOfRange(0)
    ensures r.Success? ==> r.value.info.recommendSeqLen == Some(RecommendedLength(corpus).value)
    ensures r.Success? ==> r.value.info.recommendLens == p.info.recommendLens
    ensures r.Success? && |p.tokens.toIndex| > 0 ==> r.value.tokens == p.tokens && r.value.info.tokenCount == p.info.tokenCount
    ensures r.Success? && |p.tokens.toIndex| == 0 ==>
      r.value.tokens == TokenVocab([corpus]) && r.value.info.tokenCount == Some(|r.value.tokens.toIndex|)
    ensures r.Success? && |p.labels.toIndex| > 0 ==> r.value.labels == p.labels
    ensures r.Success? && |p.labels.toIndex| == 0 ==> r.value.labels == LabelVocab([labels])
  {
    var rec := RecommendedLength(corpus);
    if rec.Failure? then Failure(rec.error)
    else Success(BuildIfEmpty(p.(info := p.info.(recommendSeqLen := Some(rec.value))), [corpus], [labels]))
  }

  /** How the three-level builders see an unwrapped corpus: sentences become the outer
      level, token strings the sentences, and their characters the tokens. */
  function CharSplit(corpus: seq<seq<string>>): seq<seq<seq<string>>>
  {
    seq(|corpus|, i requires 0 <= i < |corpus| =>
      seq(|corpus[i]|, j requires 0 <= j < |corpus[i]| =>
        seq(|corpus[i][j]|, k requires 0 <= k < |corpus[i][j]| => [corpus[i][j][k]])))
  }

  /** `prepare_dicts_if_need` as written: it hands the unwrapped corpus and labels to the
      builders, which iterate three levels deep. */
  function PrepareDictsAsWritten(p: State, corpus: seq<seq<string>>, labels: seq<seq<string>>): (r: Result<State>)
    ensures r.Success? <==> corpus != []
    ensures r.Success? && |p.tokens.toIndex| == 0 ==> r.value.tokens == TokenVocab(CharSplit(corpus))
    ensures r.Success? && |p.labels.toIndex| == 0 ==> r.value.labels == LabelVocab(CharSplit(labels))
  {
    var rec := RecommendedLength(corpus);
    if rec.Failure? then Failure(rec.error)
    else Success(BuildIfEmpty(p.(info := p.info.(recommendSeqLen := Some(rec.value))), CharSplit(corpus), CharSplit(labels)))
  }

  lemma {:induction false} InFlatten(corpora: seq<seq<seq<string>>>, x: string)
    ensures x in Flatten(corpora) <==> exists i, j :: 0 <= i < |corpora| && 0 <= j < |corpora[i]| && x in corpora[i][j]
  {
    if corpora != [] {
      InFlatten(corpora[1..], x);
      InConcat(corpora[0], x);
      if exists i, j :: 0 <= i < |corpora| && 0 <= j < |corpora[i]| && x in corpora[i][j] {
        var i, j :| 0 <= i < |corpora| && 0 <= j < |corpora[i]| && x in corpora[i][j];
        if i > 0 {
          assert x in corpora[1..][i - 1][j];
        }
      }
      if x in Flatten(corpora[1..]) {
        var i, j :| 0 <= i < |corpora[1..]| && 0 <= j < |corpora[1..][i]| && x in corpora[1..][i][j];
        assert x in corpora[i + 1][j];
      }
    }
  }

  /** As written, every label the builder indexes besides `<PAD>` is one character long. */
  lemma AsWrittenLabelsAreCharacters(labels: seq<seq<string>>, t: string)
    requires t in LabelVocab(CharSplit(labels)).toIndex
    ensures t == Pad || |t| == 1
  {
    var split := CharSplit(labels);
    BuildKeys(LabelReserved, split);
    if t !in LabelReserved {
      InFlatten(split, t);
      var i, j :| 0 <= i < |split| && 0 <= j < |split[i]| && t in split[i][j];
      var k :| 0 <= k < |split[i][j]| && split[i][j][k] == t;
    }
  }

  /** The as-written preparation cannot numerize its own training labels once a label has
      more than one character: `B-ORG` is split into `B`, `-`, `O`, `R`, `G`. */
  lemma AsWrittenRejectsTrainingLabels()
    ensures var r := PrepareDictsAsWritten(Init(), [["EU", "rejects"]], [["B-ORG", "O"]]);
      && r.Success?
      && NumerizeLabels(r.value.labels.toIndex, [["B-ORG", "O"]]) == Failure(UnknownKey("B-ORG"))
  {
    var r := PrepareDictsAsWritten(Init(), [["EU", "rejects"]], [["B-ORG", "O"]]);
    var m := r.value.labels.toIndex;
    if "B-ORG" in m {
      AsWrittenLabelsAreCharacters([["B-ORG", "O"]], "B-ORG");
    }
    assert [["B-ORG", "O"]][0] == ["B-ORG", "O"];
  }

  /** Intended behaviour: after preparing a fresh processor, every training token has its
      own index and every training label numerizes. */
  lemma PreparedDictsCoverTrainingData(corpus: seq<seq<string>>, labels: seq<seq<string>>)
    requires corpus != []
    ensures var r := PrepareDictsIfNeed(Init(), corpus, labels);
      && r.Success?
      && (forall i, j :: 0 <= i < |corpus| && 0 <= j < |corpus[i]| ==> corpus[i][j] in r.value.tokens.toIndex)
      && NumerizeLabels(r.value.labels.toIndex, labels).Success?
  {
    var r := PrepareDictsIfNeed(Init(), corpus, labels);
    BuildKeys(TokenReserved, [corpus]);
    BuildKeys(LabelReserved, [labels]);
    forall i, j | 0 <= i < |corpus| && 0 <= j < |corpus[i]|
      ensures corpus[i][j] in r.value.tokens.toIndex
    {
      InFlatten([corpus], corpus[i][j]);
      assert corpus[i][j] in [corpus][0][i];
    }
    forall i, j | 0 <= i < |labels| && 0 <= j < |labels[i]|
      ensures labels[i][j] in r.value.labels.toIndex
    {
      InFlatten([labels], labels[i][j]);
      assert labels[i][j] in [labels][0][i];
    }
  }

  // ---------------------------------------------------------------------------
  // load_cached_processor, without the file reads

  /** A forward map read back from its cache document, with its keys in document order,
      and the inverse derived from it. */
  function LoadVocab(toIndex: map<string, nat>, order: seq<string>): (v: Vocab)
    requires forall t :: t in order <==> t in toIndex
    ensures v.toIndex == toIndex
    ensures forall i :: i in v.toEntry ==> v.toEntry[i] in toIndex && toIndex[v.toEntry[i]] == i
    ensures forall t :: t in toIndex ==> toIndex[t] in v.toEntry
  {
    Vocab(toIndex, Invert(toIndex, order))
  }

  /** `load_cached_processor`: a fresh processor with both vocabularies loaded together. */
  function LoadCached(tokenIndex: map<string, nat>, tokenOrder: seq<string>,
                      labelIndex: map<string, nat>, labelOrder: seq<string>): (p: State)
    requires forall t :: t in tokenOrder <==> t in tokenIndex
    requires forall t :: t in labelOrder <==> t in labelIndex
    ensures p.tokens.toIndex == tokenIndex && p.labels.toIndex == labelIndex
    ensures forall i :: i in p.tokens.toEntry ==> p.tokens.toEntry[i] in tokenIndex && tokenIndex[p.tokens.toEntry[i]] == i
    ensures forall t :: t in tokenIndex ==> tokenIndex[t] in p.tokens.toEntry
    ensures forall i :: i in p.labels.toEntry ==> p.labels.toEntry[i] in labelIndex && labelIndex[p.labels.toEntry[i]] == i
    ensures forall t :: t in labelIndex ==> labelIndex[t] in p.labels.toEntry
    ensures p.tokens == LoadVocab(tokenIndex, tokenOrder) && p.labels == LoadVocab(labelIndex, labelOrder)
    ensures p.info == Init().info
  {
    State(LoadVocab(tokenIndex, tokenOrder), LoadVocab(labelIndex, labelOrder), Init().info)
  }

  /** Reloading a built vocabulary, whatever order its keys are read in, reproduces both
      the forward and the inverse map. */
  lemma ReloadBuiltVocab(reserved: seq<string>, corpora: seq<seq<seq<string>>>, order: seq<string>)
    requires forall t :: t in order <==> t in Build(reserved, corpora).toIndex
    ensures LoadVocab(Build(reserved, corpora).toIndex, order) == Build(reserved, corpora)
  {
    var v := Build(reserved, corpora);
    BuildIndexed(reserved, corpora);
    IndexedKeys(v.toIndex, Entries(reserved, corpora));
    BuildIsDense(reserved, corpora);
    InvertOrderIrrelevant(v.toIndex, order, Entries(reserved, corpora));
  }

  /** Save then load after `analyze_corpus` on a fresh processor restores both vocabularies. */
  lemma SaveLoadRoundTrip(corpora: seq<seq<seq<string>>>, labels: seq<seq<seq<string>>>,
                          tokenOrder: seq<string>, labelOrder: seq<string>)
    requires AnalyzeCorpus(Init(), corpora, labels).Success?
    requires forall t :: t in tokenOrder <==> t in AnalyzeCorpus(Init(), corpora, labels).value.tokens.toIndex
    requires forall t :: t in labelOrder <==> t in AnalyzeCorpus(Init(), corpora, labels).value.labels.toIndex
    ensures var q := AnalyzeCorpus(Init(), corpora, labels).value;
      var loaded := LoadCached(q.tokens.toIndex, tokenOrder, q.labels.toIndex, labelOrder);
      loaded.tokens == q.tokens && loaded.labels == q.labels
  {
    ReloadBuiltVocab(TokenReserved, corpora, tokenOrder);
    ReloadBuiltVocab(LabelReserved, labels, labelOrder);
  }

  // ---------------------------------------------------------------------------
  // _process_sequence

  /** Which numerizer `_process_sequence` is handed. */
  datatype Kind = TokenKind | LabelKind

  function NumerizeWith(p: State, kind: Kind, rows: seq<seq<string>>): Result<seq<seq<nat>>>
  {
    match kind
    case TokenKind => NumerizeTokens(p.tokens.toIndex, rows)
    case LabelKind => NumerizeLabels(p.labels.toIndex, rows)
  }

  /** The samples at the given positions, in the given order. */
  function Select(dataset: seq<seq<string>>, subset: seq<nat>): (r: Result<seq<seq<string>>>)
    ensures r.Success? <==> forall k :: 0 <= k < |subset| ==> subset[k] < |dataset|
    ensures r.Success? ==> |r.value| == |subset| && forall k :: 0 <= k < |subset| ==> r.value[k] == dataset[subset[k]]
    ensures r.Failure? ==> r.error.IndexOutOfRange? && r.error.position >= |dataset|
  {
    if subset == [] then Success([])
    else if subset[0] >= |dataset| then Failure(IndexOutOfRange(subset[0]))
    else
      var rest := Select(dataset, subset[1..]);
      if rest.Failure? then rest
      else Success([dataset[subset[0]]] + rest.value)
  }

  function Target(dataset: seq<seq<string>>, subset: Option<seq<nat>>): Result<seq<seq<string>>>
  {
    match subset
    case None => Success(dataset)
    case Some(positions) => Select(dataset, positions)
  }

  /** One partition: select, numerize, pad to `maxlen`. */
  function PartitionArray(p: State, kind: Kind, dataset: seq<seq<string>>, maxlen: nat, subset: Option<seq<nat>>): (r: Result<seq<seq<nat>>>)
    ensures r.Success? <==> Target(dataset, subset).Success? && NumerizeWith(p, kind, Target(dataset, subset).value).Success?
    ensures r.Success? ==> |r.value| == (if subset.None? then |dataset| else |subset.value|)
    ensures r.Success? ==> forall i :: 0 <= i < |r.value| ==> |r.value[i]| == maxlen
    ensures r.Success? ==> r.value == PadRows(NumerizeWith(p, kind, Target(dataset, subset).value).value, maxlen)
  {
    var target := Target(dataset, subset);
    if target.Failure? then Failure(target.error)
    else
      var ids := NumerizeWith(p, kind, target.value);
      if ids.Failure? then Failure(ids.error)
      else Success(PadRows(ids.value, maxlen))
  }

  function ProcessFrom(p: State, kind: Kind, data: seq<seq<seq<string>>>, maxlens: seq<nat>,
                       subset: Option<seq<nat>>, index: nat): (r: Result<seq<seq<seq<nat>>>>)
    requires |maxlens| == |data| && index <= |data|
    decreases |data| - index
    ensures r.Success? <==> forall i :: index <= i < |data| ==> PartitionArray(p, kind, data[i], maxlens[i], subset).Success?
    ensures r.Success? ==> |r.value| == |data| - index
    ensures r.Success? ==> forall i :: index <= i < |data| ==>
      r.value[i - index] == PartitionArray(p, kind, data[i], maxlens[i], subset).value
  {
    if index == |data| then Success([])
    else
      var first := PartitionArray(p, kind, data[index], maxlens[index], subset);
      if first.Failure? then Failure(first.error)
      else
        var rest := ProcessFrom(p, kind, data, maxlens, subset, index + 1);
        if rest.Failure? then rest
        else Success([first.value] + rest.value)
  }

  /** The result of `_process_sequence`: the bare array for one partition, a tuple otherwise. */
  datatype Arrays = Single(rows: seq<seq<nat>>) | Several(arrays: seq<seq<seq<nat>>>)

  function Partitions(a: Arrays): seq<seq<seq<nat>>>
  {
    match a
    case Single(rows) => [rows]
    case Several(arrays) => arrays
  }

  /** `_process_sequence` with one explicit `maxlen` per partition. */
  function ProcessSequence(p: State, kind: Kind, data: seq<seq<seq<string>>>, maxlens: seq<nat>,
                           subset: Option<seq<nat>>): (r: Result<Arrays>)
    requires |maxlens| == |data|
    ensures r.Success? <==> forall i :: 0 <= i < |data| ==> PartitionArray(p, kind, data[i], maxlens[i], subset).Success?
    ensures r.Success? ==> (r.value.Single? <==> |data| == 1)
    ensures r.Success? ==> |Partitions(r.value)| == |data|
    ensures r.Success? ==> forall i :: 0 <= i < |data| ==>
      Partitions(r.value)[i] == PartitionArray(p, kind, data[i], maxlens[i], subset).value
  {
    var all := ProcessFrom(p, kind, data, maxlens, subset, 0);
    if all.Failure? then Failure(all.error)
    else if |all.value| == 1 then Success(Single(all.value[0]))
    else Success(Several(all.value))
  }

  /** `process_x_dataset`: `_process_sequence` with the tolerant token numerizer. */
  function ProcessX(p: State, data: seq<seq<seq<string>>>, maxlens: seq<nat>, subset: Option<seq<nat>>): (r: Result<Arrays>)
    requires |maxlens| == |data|
    ensures r.Success? <==> forall i :: 0 <= i < |data| ==> PartitionArray(p, TokenKind, data[i], maxlens[i], subset).Success?
    ensures r.Success? ==> (r.value.Single? <==> |data| == 1) && |Partitions(r.value)| == |data|
    ensures r.Success? ==> forall i :: 0 <= i < |data| ==>
      Partitions(r.value)[i] == PadRows(NumerizeTokens(p.tokens.toIndex, Target(data[i], subset).value).value, maxlens[i])
  {
    ProcessSequence(p, TokenKind, data, maxlens, subset)
  }

  /** `process_y_dataset` up to, not including, the one-hot expansion: `_process_sequence`
      with the strict label numerizer. */
  function ProcessYIndices(p: State, data: seq<seq<seq<string>>>, maxlens: seq<nat>, subset: Option<seq<nat>>): (r: Result<Arrays>)
    requires |maxlens| == |data|
    ensures r.Success? <==> forall i :: 0 <= i < |data| ==> PartitionArray(p, LabelKind, data[i], maxlens[i], subset).Success?
    ensures r.Success? ==> (r.value.Single? <==> |data| == 1) && |Partitions(r.value)| == |data|
    ensures r.Success? ==> forall i :: 0 <= i < |data| ==>
      Partitions(r.value)[i] == PadRows(NumerizeLabels(p.labels.toIndex, Target(data[i], subset).value).value, maxlens[i])
  {
    ProcessSequence(p, LabelKind, data, maxlens, subset)
  }

  /** Once the token map holds `<UNK>`, `process_x_dataset` over whole partitions always
      succeeds; partition i is a `len(data[i]) x maxlens[i]` array holding each token's
      index (or that of `<UNK>`) followed by zeros. */
  lemma ProcessXArrays(p: State, data: seq<seq<seq<string>>>, maxlens: seq<nat>)
    requires |maxlens| == |data| && Unk in p.tokens.toIndex
    ensures ProcessX(p, data, maxlens, None).Success?
    ensures var parts := Partitions(ProcessX(p, data, maxlens, None).value);
      && |parts| == |data|
      && forall i, k :: 0 <= i < |data| && 0 <= k < |data[i]| ==>
           && |parts[i][k]| == maxlens[i]
           && forall j :: 0 <= j < maxlens[i] ==>
                parts[i][k][j] == (if j < |data[i][k]| then TokenOrUnk(p.tokens.toIndex, data[i][k][j]) else 0)
  {
    var parts := Partitions(ProcessX(p, data, maxlens, None).value);
    forall i, k | 0 <= i < |data| && 0 <= k < |data[i]|
      ensures |parts[i][k]| == maxlens[i]
      ensures forall j :: 0 <= j < maxlens[i] ==>
                parts[i][k][j] == (if j < |data[i][k]| then TokenOrUnk(p.tokens.toIndex, data[i][k][j]) else 0)
    {
      var ids := NumerizeTokens(p.tokens.toIndex, data[i]).value;
      assert parts[i] == PadRows(ids, maxlens[i]);
    }
  }

  /** `process_y_dataset` over whole partitions succeeds exactly when every label of every
      partition has an index. */
  lemma ProcessYSucceedsIffKnown(p: State, data: seq<seq<seq<string>>>, maxlens: seq<nat>)
    requires |maxlens| == |data|
    ensures ProcessYIndices(p, data, maxlens, None).Success? <==>
      forall i, k, j :: 0 <= i < |data| && 0 <= k < |data[i]| && 0 <= j < |data[i][k]| ==> data[i][k][j] in p.labels.toIndex
  {
    if ProcessYIndices(p, data, maxlens, None).Success? {
      forall i, k, j | 0 <= i < |data| && 0 <= k < |data[i]| && 0 <= j < |data[i][k]|
        ensures data[i][k][j] in p.labels.toIndex
      {
        assert PartitionArray(p, LabelKind, data[i], maxlens[i], None).Success?;
      }
    }
  }

  /** The sample a partition's row k comes from: row k itself, or the one at `subset[k]`. */
  function Sample(dataset: seq<seq<string>>, subset: Option<seq<nat>>, k: nat): seq<string>
    requires subset.None? ==> k < |dataset|
    requires subset.Some? ==> k < |subset.value| && subset.value[k] < |dataset|
  {
    if subset.None? then dataset[k] else dataset[subset.value[k]]
  }

  /** The index a numerizer gives one string: `<UNK>`'s for an unseen token, the label's own
      for a known label. */
  function CellOf(p: State, kind: Kind, x: string): nat
  {
    match kind
    case TokenKind =>
      if x in p.tokens.toIndex then p.tokens.toIndex[x]
      else if Unk in p.tokens.toIndex then p.tokens.toIndex[Unk] else 0
    case LabelKind => if x in p.labels.toIndex then p.labels.toIndex[x] else 0
  }

  /** Row k of a processed partition is the numerized sample it was selected from,
      post-padded or post-truncated to `maxlen`. */
  lemma PartitionContents(p: State, kind: Kind, dataset: seq<seq<string>>, maxlen: nat, subset: Option<seq<nat>>)
    requires PartitionArray(p, kind, dataset, maxlen, subset).Success?
    ensures var rows := PartitionArray(p, kind, dataset, maxlen, subset).value;
      && |rows| == (if subset.None? then |dataset| else |subset.value|)
      && forall k, j :: 0 <= k < |rows| && 0 <= j < maxlen ==>
           && (subset.Some? ==> subset.value[k] < |dataset|)
           && rows[k][j] == (if j < |Sample(dataset, subset, k)| then CellOf(p, kind, Sample(dataset, subset, k)[j]) else 0)
  {
    var target := Target(dataset, subset).value;
    var ids := NumerizeWith(p, kind, target).value;
    var rows := PartitionArray(p, kind, dataset, maxlen, subset).value;
    assert rows == PadRows(ids, maxlen);
    forall k, j | 0 <= k < |rows| && 0 <= j < maxlen
      ensures subset.Some? ==> subset.value[k] < |dataset|
      ensures rows[k][j] == (if j < |Sample(dataset, subset, k)| then CellOf(p, kind, Sample(dataset, subset, k)[j]) else 0)
    {
      assert target[k] == Sample(dataset, subset, k);
    }
  }

  /** Once every label is known, `process_y_dataset` over whole partitions succeeds and
      partition i is a `len(data[i]) x maxlens[i]` array of label indices followed by zeros. */
  lemma ProcessYArrays(p: State, data: seq<seq<seq<string>>>, maxlens: seq<nat>)
    requires |maxlens| == |data|
    requires forall i, k, j :: 0 <= i < |data| && 0 <= k < |data[i]| && 0 <= j < |data[i][k]| ==> data[i][k][j] in p.labels.toIndex
    ensures ProcessYIndices(p, data, maxlens, None).Success?
    ensures var parts := Partitions(ProcessYIndices(p, data, maxlens, None).value);
      && |parts| == |data|
      && forall i, k :: 0 <= i < |data| && 0 <= k < |data[i]| ==>
           && |parts[i][k]| == maxlens[i]
           && forall j :: 0 <= j < maxlens[i] ==>
                parts[i][k][j] == (if j < |data[i][k]| then p.labels.toIndex[data[i][k][j]] else 0)
  {
    ProcessYSucceedsIffKnown(p, data, maxlens);
    var parts := Partitions(ProcessYIndices(p, data, maxlens, None).value);
    forall i, k | 0 <= i < |data| && 0 <= k < |data[i]|
      ensures |parts[i][k]| == maxlens[i]
      ensures forall j :: 0 <= j < maxlens[i] ==>
                parts[i][k][j] == (if j < |data[i][k]| then p.labels.toIndex[data[i][k][j]] else 0)
    {
      var ids := NumerizeLabels(p.labels.toIndex, data[i]).value;
      assert parts[i] == PadRows(ids, maxlens[i]);
    }
  }
}
