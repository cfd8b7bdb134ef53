# Kashgari sequence-labeling pre-processor, modelled in Dafny

This project models the vocabulary and numerization core of Kashgari's
`BaseProcessor` and `LabelingProcessor`. The processor turns tokenized corpora into
fixed-length integer arrays for a sequence-labeling model. It does five things:

- It builds a token vocabulary (`token2idx` / `idx2token`) and a label vocabulary
  (`label2idx` / `idx2label`) once, from the training partitions.
- It computes a recommended sequence length per partition (the 95th-percentile length).
- It numerizes tokens tolerantly: an unseen token becomes `<UNK>`.
- It numerizes labels strictly: an unseen label raises `KeyError`.
- It post-pads or post-truncates rows to a fixed length, and maps predicted label
  indices back to label strings.

Everything is pure: immutable `seq` and `map` values, and functions that return a
`Result` where Python raises.

Modules, one file each:

- `Results`: the `Error` and `Result` types. They stand for Python's `KeyError` on a
  string key, `KeyError` on an integer key, and `IndexError`.
- `Seqs`: sequence helpers. `Flatten` gives the corpus → sentence → token order in which
  the builders visit a tuple of corpora.
- `Counting`: the `token2count` dict. It keeps a count per token and the insertion order
  of its keys.
- `StableSort`: `sorted(..., key=count, reverse=True)` as a stable insertion sort.
- `Vocabulary`: the builder shared by `_build_token_dict` and `_build_label_dict`,
  parameterised by the reserved prefix (`<PAD> <UNK> <BOS> <EOS>` or `<PAD>`), and its
  theorems.
- `Lengths`: the recommended length.
- `Padding`: post-padding and post-truncation with 0.
- `Numerize`: the three numerizers and the round trips.
- `Processor`: the processor state, the build-once guard of `analyze_corpus` and
  `prepare_dicts_if_need`, the inverse-map step of `load_cached_processor`, and
  `_process_sequence`.

## Model

| member | source | states |
|---|---|---|
| Processor.Init | kashgari/pre_processors/base_processor.py:29-43 | a new processor has empty `token2idx`, `idx2token`, `label2idx` and `idx2label`, and an empty `dataset_info` |
| Counting.CountTokens | kashgari/pre_processors/base_processor.py:102-107 | the pooled count of every token equals its number of occurrences over all sentences of all corpora; the keys are exactly the tokens seen, each inserted once |
| Counting.OrderFollowsFirstOccurrence | kashgari/pre_processors/base_processor.py:102-107 | the dict's key order is the order of first occurrence in corpus traversal (both directions) |
| StableSort.SortByCount | kashgari/pre_processors/base_processor.py:109-113 | the sorted keys are a permutation of the tally's keys, in non-increasing count order |
| StableSort.SortIsStable | kashgari/pre_processors/base_processor.py:109-113 | the sort is stable: a strictly larger count comes first, and equal counts keep their order in the tally |
| Vocabulary.Build | kashgari/pre_processors/base_processor.py:88-120 | the shared builder (seed, count, sort, assign, invert): every reserved string is a key, and the forward and inverse maps undo each other on every key and every index |
| Vocabulary.AssignIndexes | kashgari/pre_processors/base_processor.py:115-117 | `m[t] = len(m)` for each absent key numbers the new keys consecutively after the existing ones, in order |
| Vocabulary.Invert | kashgari/pre_processors/base_processor.py:120 | the inverse has an entry for every key's index, and each entry names a key that carries that index (on any map, even one with shared indices) |
| Vocabulary.InvertOrderIrrelevant | kashgari/pre_processors/base_processor.py:76-82 | for a map with distinct indices, the inverse is the same whatever order the keys are read in |
| Vocabulary.BuildKeys | kashgari/pre_processors/base_processor.py:95-117 | the keys of the built map are exactly the reserved strings plus every token of every sentence of every corpus |
| Vocabulary.BuildReserved | kashgari/pre_processors/base_processor.py:95-100 | the i-th reserved string has index i for every corpus, including corpora that contain it |
| Vocabulary.BuildIsDense | kashgari/pre_processors/base_processor.py:115-117 | the indices are exactly 0 .. size-1 and no two keys share one |
| Vocabulary.BuildIsBijection | kashgari/pre_processors/base_processor.py:115-120 | `idx2token[token2idx[t]] == t` for every key, `token2idx[idx2token[i]] == i` for every index, and the inverse's indices are exactly 0 .. size-1 |
| Vocabulary.BuildOrder | kashgari/pre_processors/base_processor.py:102-117 | for non-reserved tokens, a strictly larger pooled count gives a strictly smaller index; equal counts give indices in first-occurrence order (both directions); every reserved index comes first |
| Vocabulary.TokenReservedSlots | kashgari/pre_processors/base_processor.py:95-100 | `<PAD>`, `<UNK>`, `<BOS>`, `<EOS>` map to 0, 1, 2, 3 for every corpus |
| Vocabulary.LabelPadSlot | kashgari/pre_processors/labeling_processor.py:44-65 | `<PAD>` maps to 0 in every label map, and `idx2label[0]` is `<PAD>` |
| Lengths.SortLengths | kashgari/pre_processors/base_processor.py:56 | `sorted` of the lengths is an ascending permutation of them |
| Lengths.RecommendedLength | kashgari/pre_processors/base_processor.py:56 | an empty corpus raises IndexError; otherwise the result is one of the sentence lengths, and it is the k-th smallest for k = ⌊0.95·n⌋: at most k lengths lie below it and more than k lie at or below it |
| Lengths.RecommendedLengths | kashgari/pre_processors/base_processor.py:54-57 | one recommended length per corpus of the tuple; fails exactly when some corpus is empty |
| Processor.BuildTokenDict | kashgari/pre_processors/base_processor.py:119-122 | `dataset_info['token_count']` is the size of the built token map; labels are untouched |
| Processor.BuildLabelDict | kashgari/pre_processors/labeling_processor.py:36-66 | installs the label vocabulary built from the labels, leaving the token maps and `dataset_info` untouched |
| Processor.BuildIfEmpty | kashgari/pre_processors/base_processor.py:59-62 | a non-empty map is left unchanged (build-once guard); an empty one is replaced by the built vocabulary |
| Processor.AnalyzeCorpus | kashgari/pre_processors/base_processor.py:50-62 | fails (IndexError) exactly when a corpus is empty; on success records one recommended length per corpus, builds each map only if it was empty, setting `token_count` exactly when the token map is built; leaves `recommend_seq_len` alone and both maps non-empty |
| Processor.PrepareDictsIfNeed | kashgari/pre_processors/labeling_processor.py:98-107 | fails exactly on an empty corpus; records the recommended length and leaves `RECOMMEND_LEN` alone; builds each map only when it is empty, from the corpus wrapped as a one-corpus tuple, setting `token_count` exactly when the token map is built |
| Processor.PreparedDictsCoverTrainingData | kashgari/pre_processors/labeling_processor.py:98-107 | after preparing a fresh processor, every training token is a key of the token map and the training labels numerize without error |
| Processor.PrepareDictsAsWritten | kashgari/pre_processors/labeling_processor.py:98-107 | as written, the builders receive the unwrapped corpus, so the vocabularies are built over characters |
| Processor.AsWrittenLabelsAreCharacters | kashgari/pre_processors/labeling_processor.py:104-107 | as written, every label key other than `<PAD>` is a single character |
| Processor.AsWrittenRejectsTrainingLabels | kashgari/pre_processors/labeling_processor.py:104-107 | as written, preparing on labels `[["B-ORG", "O"]]` yields a label map on which numerizing those same labels raises KeyError('B-ORG') |
| Processor.LoadVocab | kashgari/pre_processors/base_processor.py:76-82 | a loaded map keeps its keys and gets an inverse that sends every index back to a key with that index |
| Processor.LoadCached | kashgari/pre_processors/base_processor.py:73-86 | a loaded processor holds the two loaded forward maps, each with the inverse derived from it (every index goes back to a key carrying it, and every key's index has an entry), and an empty `dataset_info` |
| Processor.ReloadBuiltVocab | kashgari/pre_processors/base_processor.py:76-82 | reloading a built vocabulary, with its keys in any order, reproduces both the forward and the inverse map |
| Processor.SaveLoadRoundTrip | kashgari/pre_processors/base_processor.py:64-86 | saving and loading the maps built by `analyze_corpus` restores both vocabularies |
| Padding.PadRows | kashgari/pre_processors/labeling_processor.py:143 | every row has length exactly maxlen; position j holds the input's j-th element when j is below the input length and 0 otherwise |
| Padding.PadRowsIdempotent | kashgari/pre_processors/labeling_processor.py:143 | padding an already padded array changes nothing |
| Padding.PadRowsRecoverable | kashgari/pre_processors/labeling_processor.py:143 | a row no longer than maxlen is the prefix of its padded row |
| Numerize.NumerizeTokens | kashgari/pre_processors/labeling_processor.py:68-75 | shape preserved; a known token maps to its index and an unknown one to the index of `<UNK>`; raises KeyError('<UNK>') exactly when there is a sequence and the map lacks `<UNK>` |
| Numerize.TokensAgainstBuiltVocab | kashgari/pre_processors/labeling_processor.py:68-75 | with a built token map, numerization never fails, and every index reads back as the token itself or as `<UNK>` (index 1) for an unseen token |
| Numerize.LookupLabels | kashgari/pre_processors/labeling_processor.py:81 | one sequence numerizes iff every label is a key; the error names a label of the sequence that is not a key |
| Numerize.NumerizeLabels | kashgari/pre_processors/labeling_processor.py:77-82 | succeeds iff every label of every sequence is a key, then maps each label to its index with the shape kept; otherwise KeyError on a label that is not a key, with no substitution |
| Numerize.LookupIndices | kashgari/pre_processors/labeling_processor.py:91-92 | one sequence of indices reverses iff every index is in `idx2label`; the error names a missing index |
| Numerize.ReverseNumerize | kashgari/pre_processors/labeling_processor.py:84-96 | succeeds iff every index is known and, when lengths are given, there is one per sample; output i is the prefix of the label sequence of length min(lengths[i], len) (Python slice length for negative values), or all of it without lengths; a failure is KeyError on an index with no label or IndexError on a position past the end of `lengths` |
| Numerize.LabelRoundTrip | kashgari/pre_processors/labeling_processor.py:77-96 | reverse-numerizing the label numerization of known labels, without lengths, returns the original labels |
| Numerize.PaddedLabelRoundTrip | kashgari/pre_processors/labeling_processor.py:77-96 | numerizing, padding to maxlen and reversing with the original lengths returns the original labels |
| Processor.Select | kashgari/pre_processors/labeling_processor.py:137-138 | the subset is the samples at the given positions, in the given order; that an out-of-range position raises IndexError is an assumption about `utils.get_list_subset`, which is not part of this model |
| Processor.PartitionArray | kashgari/pre_processors/labeling_processor.py:136-144 | one partition succeeds iff selection and numerization do; it is the numerized selection post-padded or post-truncated to maxlen, one row per selected sample |
| Processor.PartitionContents | kashgari/pre_processors/labeling_processor.py:136-143 | cell (k, j) of a partition is the index of element j of the sample row k was selected from (row k, or `subset[k]`), or 0 past the end of that sample |
| Processor.ProcessSequence | kashgari/pre_processors/labeling_processor.py:129-148 | succeeds iff every partition does; one partition gives the bare array and any other count gives a tuple with one array per partition, in order |
| Processor.ProcessX | kashgari/pre_processors/labeling_processor.py:109-116 | succeeds iff every partition numerizes tolerantly; partition i is the token numerization of its (selected) samples padded to maxlens[i]; the bare array for one partition |
| Processor.ProcessXArrays | kashgari/pre_processors/labeling_processor.py:109-116 | when the token map has `<UNK>`, `process_x_dataset` over whole partitions succeeds, and cell (i, k, j) holds the index of token j of sample k (or `<UNK>`'s) when j is within the sample, else 0 |
| Processor.ProcessYIndices | kashgari/pre_processors/labeling_processor.py:118-125 | succeeds iff every partition numerizes strictly; partition i is the label numerization of its (selected) samples padded to maxlens[i]; the bare array for one partition |
| Processor.ProcessYArrays | kashgari/pre_processors/labeling_processor.py:118-125 | when every label is known, `process_y_dataset` over whole partitions succeeds and cell (i, k, j) holds the index of label j of sample k when j is within the sample, else 0 |
| Processor.ProcessYSucceedsIffKnown | kashgari/pre_processors/labeling_processor.py:118-125 | the label arrays of `process_y_dataset` are produced exactly when every label of every partition is a key of the label map |

## Left out

- File I/O is not modelled: `save_dicts` writing JSON, directory creation, and the JSON reads of `load_cached_processor`. `LoadVocab` and `LoadCached` take the parsed map and its key order as parameters. A missing or malformed cache document is therefore not modelled.
- The one-hot expansion `to_categorical` in `process_y_dataset` is a Keras call producing float arrays. `ProcessYIndices` stops at the padded index arrays.
- ProcessSequence: requires one explicit maxlen per partition. `utils.get_tuple_item` is not part of this model, and neither is Keras's `maxlen=None` default (longest row).
- ProcessSequence and AnalyzeCorpus: take the partitions (or corpora) as a tuple already; a bare corpus is passed as a one-element tuple. `utils.wrap_as_tuple` is not part of this model.
- Select: `utils.get_list_subset` is not part of this model. It is modelled as "the samples at the given positions", and raising IndexError on an out-of-range position is an assumption: the utility may instead skip such positions. Negative Python indices are not modelled.
- PercentileIndex: `int(0.95 * n)` is computed as ⌊95·n/100⌋ in exact arithmetic. The binary floating-point product and its truncation are not modelled.
- ReverseNumerize: indices are natural numbers, so a negative index (on which `idx2label[idx]` raises KeyError) cannot be passed.
- Padding.PadRows: indices are unbounded naturals. The int32 dtype of `pad_sequences` is not modelled.
- ReverseNumerize: `lengths` is a list of integers, and `None` and `[]` both mean "no truncation" because both are falsy. The truthiness of a numpy array is not modelled. When both an unknown index and a missing length occur, the contract says that one of the two errors is raised but not which.
- Logging, `info()`, the `NotImplementedError` stubs of the base class, and the `__main__` demo blocks carry no modellable behaviour.
- The unused `self.token2count` attribute set in `__init__` is not modelled. The builders count in a local dict, which `Counting.Tally` models.
- Concurrency is not modelled: the processor is single-threaded, and the build-once guard is only an emptiness check.

## Findings

`prepare_dicts_if_need` (labeling_processor.py:104-107) passes its single corpus and
label list straight to `_build_token_dict` and `_build_label_dict`. Those builders
iterate three levels: corpora, then sentences, then tokens. For an unwrapped
`List[List[str]]` the three levels become sentences, token strings and characters, so
both vocabularies are built over single characters. `analyze_corpus`
(base_processor.py:53) wraps its corpus into a tuple first; `prepare_dicts_if_need`
does not. The intended reading follows from the source itself:
`_build_token_dict` declares its corpus as a tuple (base_processor.py:88), both builders
loop corpus → sentence → token (base_processor.py:103-105, labeling_processor.py:49-51),
and `analyze_corpus`, the other caller, wraps first. The demo in labeling_processor.py
(lines 152-156) hides the problem, because its corpus is character-tokenized already,
so only its multi-character labels break. The model builds from the wrapped corpus in
`PrepareDictsIfNeed` and models the code as written in `PrepareDictsAsWritten`.

| source | as written | input that shows it | evidently intended | confidence | as-written member | corrected member |
|---|---|---|---|---|---|---|
| kashgari/pre_processors/labeling_processor.py:104-107 | `_build_token_dict(corpus)` and `_build_label_dict(labels)` receive an unwrapped corpus, so the maps are built over characters | corpus `[["EU", "rejects"]]`, labels `[["B-ORG", "O"]]`: the label map holds `<PAD>`, `O`, `B`, `-`, `R`, `G`, and numerizing `[["B-ORG", "O"]]` raises KeyError('B-ORG') | build from `(corpus,)` and `(labels,)`, as `analyze_corpus` does | high, not executed | Processor.AsWrittenRejectsTrainingLabels | Processor.PreparedDictsCoverTrainingData |
