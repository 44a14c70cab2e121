# PNaCoS NER metric: a Dafny model

This project models the computational core of the PNaCoS code-switching NER metric and proves properties of that model. The metric counts the sentences, texts and tokens of a corpus that contain words in a foreign alphabet that no detected named entity excuses. The model covers three parts of the repository:

- **`code_switching_ner_metric.py`**, class `CodeSwitchingNERMetric`. The parts modelled are:
  - the interval merger `mergeIntervals`, which sorts in place and then merges with a stack;
  - `merge_preds`;
  - the foreign-run finder `find_non_vocab_words_starts`;
  - the inclusive overlap test `is_proper_name`;
  - the sentence and token counters;
  - the detector fold `get_all_ner_preds_sentences`;
  - the corpus fold `calculate`, with its three ratios.

  The Dafny modules are `Intervals` (intervals.dfy), `ForeignRuns` (foreign_runs.dfy) and `CodeSwitchingMetric` (metric.dfy).
- **`arabiner/utils/ent_morph.py`**. The parts modelled are:
  - the mutable `EntityMorphed` record and `set_entity_morphed`;
  - the B/I merger `merge_BI_entities`, which appends the words of each absorbed `I-` entity to the open `B-` entity object;
  - the relation builder `add_edge` / `make_all_relations`;
  - the validator `check_in_range`.

  The Dafny modules are `EntMorph` (ent_morph.dfy) and `EntRelations` (relations.dfy).
- **`preprocessing.py`**: `Preprocessor.remove_html`, one pass of `re.sub('<[^<]+?>', '', text)`, and `preprocess`. The Dafny module is `Preprocessing` (preprocessing.dfy).

`Common` (common.dfy) holds the shared pieces: `Option`, a `Result` whose error is Python's `IndexError`, list flattening (`sum(xs, [])`), subsequences, and Python slicing.

Each piece takes the source's own form:

- **Imperative code becomes methods with loops and specification functions.**
  - `mergeIntervals` works on an `array` that is sorted in place. The top of the stack is widened in place, just as `stack[-1][-1] = ...` writes into the caller's list.
  - `merge_BI_entities` mutates `EntityMorphed` objects, which are a class.
  - The counters of `calc_*`, `calculate`, `get_all_ner_preds_sentences` and `make_all_relations` are loops.

  Each method is proved equal to a specification function on values. The properties are proved about those functions.
- **Pure code becomes functions.** This covers `find_non_vocab_words_starts`, `is_proper_name`, `merge_preds`, `check_in_range` and `remove_html`.

The quirks of the code are modelled as written:

- a sentence run is tested with its *start* as both ends;
- tokens are checked against the spans of all sentences, flattened together;
- `total_num_texts` counts texts that come out empty after preprocessing;
- a text is broken by its sentence count alone;
- `zip` stops at the shorter list;
- `sentences[i]` and `ner_preds[i]` raise when the lists are shorter, which the model returns as `IndexError`.

## Model

| member | source | states |
|---|---|---|
| Intervals.SortInPlace | code_switching_ner_metric.py:40 | `intervals.sort()` leaves the array sorted by Python's list order (start, then end) and a permutation of its old contents |
| Intervals.SortSpecSorted | code_switching_ner_metric.py:40 | the reference insertion sort returns a sorted sequence; its own contract says it is a permutation of its input |
| Intervals.SortedUnique | code_switching_ner_metric.py:40 | two sorted permutations of the same intervals are equal, so the in-place sort agrees with the reference sort |
| Intervals.MergeIntervals | code_switching_ner_metric.py:35-51 | returns exactly the stack the specification computes from the original list (empty for an empty list); leaves the caller's list exactly as the loop's list over the sorted intervals |
| Intervals.MergeIntervalsList | code_switching_ner_metric.py:40-50 | the caller's list after the call: one head position per merged interval holds that merged interval, and every other position holds the sorted interval |
| Intervals.ScanSorted | code_switching_ner_metric.py:41-51 | the stack loop over the sorted array returns `MergeSorted` of it and leaves the array exactly as `ScanObjects` describes |
| Intervals.ScanStep | code_switching_ner_metric.py:44-50 | one iteration takes the stack, the top's position and the whole array from the state after `i` intervals to the state after `i + 1` |
| Intervals.ScanObjects | code_switching_ner_metric.py:41-50 | the loop on list objects: one head position per stack entry, each one before the last head, all within the list; the list keeps its length |
| Intervals.ScanObjectsStack | code_switching_ner_metric.py:41-50 | the stack built on list objects equals the value-level `MergeSorted` |
| Intervals.ScanObjectsPlaced | code_switching_ner_metric.py:47-50 | each head position holds its stack entry, widened in place; every other position keeps its interval |
| Intervals.MergeIntervalsProps | code_switching_ner_metric.py:37-51 | the output is sorted; each interval starts strictly after its predecessor ends; it is no longer than the input; it is empty iff the input is; it covers exactly the same integer points |
| Intervals.MergeIntervalsIdempotent | code_switching_ner_metric.py:35-51 | merging the merged list again returns it unchanged |
| Intervals.MergeIntervalsMeets | code_switching_ner_metric.py:47-48 | a closed query `[s, e]` meets a merged interval iff it meets an input interval |
| Intervals.MergeTouching | code_switching_ner_metric.py:47-48 | touching intervals `[3,5]`, `[1,3]` coalesce into `[1,5]` |
| Intervals.MergeSortedShape | code_switching_ner_metric.py:44-50 | on sorted input the stack is sorted and separated |
| Intervals.MergeSortedCovers | code_switching_ner_metric.py:44-50 | the stack covers the same points as the scanned intervals |
| Intervals.MergeSortedFixpoint | code_switching_ner_metric.py:44-50 | a separated list is scanned into itself |
| Intervals.MergeSortedLength | code_switching_ner_metric.py:43-50 | the stack is never longer than the input, and is non-empty for non-empty input |
| Intervals.MeetsSymmetric | code_switching_ner_metric.py:95 | the inclusive overlap test is symmetric in query and entity |
| ForeignRuns.RunEnd | code_switching_ner_metric.py:84 | the greedy `+` stops at the first character outside the class, or at the end |
| ForeignRuns.RunsFromShape | code_switching_ner_metric.py:87-89 | the `finditer` scan yields runs that are non-empty, in bounds, increasing with a gap, made of foreign characters, and maximal at both ends |
| ForeignRuns.RunsFromComplete | code_switching_ner_metric.py:87-89 | every foreign character lies inside some run |
| ForeignRuns.NonVocabRunsShape | code_switching_ner_metric.py:77-89 | `find_non_vocab_words_starts`, modelled by the function `ForeignRuns.FindNonVocabWordsStarts`, returns non-empty, disjoint, increasing runs within the text, made only of word characters that are not digits, not `_` and not in the alphabet, and maximal; every such character is in a run |
| ForeignRuns.NoRunsIffNative | code_switching_ner_metric.py:77-89 | no run is returned iff the text has no foreign character |
| ForeignRuns.RunStartIff | code_switching_ner_metric.py:84-89 | `j` starts a run iff `text[j]` is foreign and `text[j-1]` is not |
| CodeSwitchingMetric.NewMetric | code_switching_ner_metric.py:7-14 | the metric keeps its detectors and sentence splitter; its alphabet is the one given, or the Ukrainian default when the argument is omitted |
| CodeSwitchingMetric.DefaultAlphabetNative | code_switching_ner_metric.py:10 | with the default alphabet, a sentence is never counted as broken, whatever the predictions, when each character is a letter of that alphabet, a space, a digit, `_` or a non-word character such as punctuation (the alphabet has `ь` but not capital `Ь`) |
| CodeSwitchingMetric.IsProperName | code_switching_ner_metric.py:92-98 | true iff some span has `s <= end` and `start <= e` (touching counts); false on an empty list |
| CodeSwitchingMetric.IsProperNameSymmetric | code_switching_ner_metric.py:95 | swapping query and span gives the same answer |
| CodeSwitchingMetric.MergePreds | code_switching_ner_metric.py:54-75 | `[]` iff the predictions are empty; otherwise one span per interval of `mergeIntervals` on the predictions, with that interval's start and end, no more than there are predictions, separated, each with `text == sentence[start:end]` under Python slicing and no label |
| CodeSwitchingMetric.MergePredsExcuse | code_switching_ner_metric.py:59-75 | a query with `s <= e` is excused by the merged spans iff it is excused by a raw prediction |
| CodeSwitchingMetric.MergePredsCovers | code_switching_ner_metric.py:63-75 | the merged spans cover the same points as the raw predictions |
| CodeSwitchingMetric.NonProperRuns | code_switching_ner_metric.py:110-118 | keeps exactly the runs whose start point meets no span, with the start passed as the end |
| CodeSwitchingMetric.SentenceBrokenIff | code_switching_ner_metric.py:105-121 | a sentence is broken iff some foreign run begins at a position outside every span's closed interval |
| CodeSwitchingMetric.BrokenSentenceCountProps | code_switching_ner_metric.py:101-123 | the count over `n` pairs is at most `n`, and is zero iff no sentence among them is broken |
| CodeSwitchingMetric.CalcSentencesNumBroken | code_switching_ner_metric.py:101-123 | the loop counts the broken sentences of the `zip` and returns at most `min(len(sentences), len(merged))` |
| CodeSwitchingMetric.BrokenTokenTextsProps | code_switching_ner_metric.py:127-143 | the broken texts are the token texts with some deleted, in token order, at most one per token; a text is listed iff some broken token has it |
| CodeSwitchingMetric.TokenBrokenIff | code_switching_ner_metric.py:131-141 | a token is broken iff it has a foreign character and its `[start, end]` meets no span of any sentence |
| CodeSwitchingMetric.CalcTokenLevelNumBroken | code_switching_ner_metric.py:127-143 | `num == len(broken_tokens) <= len(tokens)`, and the list is the broken token texts in order |
| CodeSwitchingMetric.ExtendPreds | code_switching_ner_metric.py:29-30 | `ner_preds[i] += model_preds[i]` succeeds iff the detector returned no more lists than there are, and keeps the number of lists |
| CodeSwitchingMetric.ExtendInPlace | code_switching_ner_metric.py:29-30 | the index loop computes `ExtendPreds`, raising on the first index past the end |
| CodeSwitchingMetric.ApplyModulesOk | code_switching_ner_metric.py:26-30 | the detector loop, modelled by the recursive function `CodeSwitchingMetric.ApplyModules`, runs without error iff none returns more lists than there are sentence predictions; then there is one list per sentence |
| CodeSwitchingMetric.ApplyModulesContents | code_switching_ner_metric.py:26-30 | a prediction is in sentence `i`'s list iff it was there already or some detector gave it for sentence `i` |
| CodeSwitchingMetric.ApplyModulesStopsOnError | code_switching_ner_metric.py:26-30 | once `ner_preds[i] += model_preds[i]` raises `IndexError` for one detector's output, the whole call raises |
| CodeSwitchingMetric.GetAllNerPredsSentences | code_switching_ner_metric.py:16-33 | returns the sentence splitter's sentences and tokens with every detector's lists appended per sentence, or `IndexError` |
| CodeSwitchingMetric.MergeAll | code_switching_ner_metric.py:158-163 | the comprehension raises iff there are more prediction lists than sentences; otherwise one merged list per prediction list |
| CodeSwitchingMetric.CountText | code_switching_ner_metric.py:156-185 | the body of the loop for a non-empty text computes that text's five counter increments, or raises |
| CodeSwitchingMetric.TallyText | code_switching_ner_metric.py:153-185 | one pass of the loop takes the counters over the first `n` texts to those over `n+1` |
| CodeSwitchingMetric.Calculate | code_switching_ner_metric.py:146-195 | the report is built from the counters folded over all texts, with `total_num_texts == len(texts)`, or `IndexError` |
| CodeSwitchingMetric.TallyBounds | code_switching_ner_metric.py:153-185 | broken sentences never exceed sentences, broken texts never exceed texts, broken tokens never exceed tokens |
| CodeSwitchingMetric.CalculateRatios | code_switching_ner_metric.py:187-195 | each ratio is `-1.0` when its total is 0 and lies in `[0, 1]` otherwise; `total_num_texts == len(texts)` |
| CodeSwitchingMetric.RatioBounds | code_switching_ner_metric.py:188 | `a / b if b else -1.0` lies in `[0, 1]` when `a <= b` and `b > 0` |
| CodeSwitchingMetric.CalculateEmpty | code_switching_ner_metric.py:149-195 | empty input gives zero counts and all ratios `-1.0` |
| CodeSwitchingMetric.TallySkipsEmpty | code_switching_ner_metric.py:154-156 | a text that is empty after preprocessing adds nothing to any counter |
| CodeSwitchingMetric.AllEmptyTexts | code_switching_ner_metric.py:151-156 | texts that are all empty after preprocessing still count in `total_num_texts`, so the texts ratio is `0.0` while the other two are `-1.0` |
| CodeSwitchingMetric.TallyStopsOnError | code_switching_ner_metric.py:153-163 | once a text raises, `calculate` raises |
| CodeSwitchingMetric.TallyStep | code_switching_ner_metric.py:154-185 | an empty text leaves the counters unchanged; any other text adds its counts or raises |
| EntMorph.EntityMorphed.constructor | arabiner/utils/ent_morph.py:9-14 | a new entity keeps its text and labels and has empty stem, lemma and pos |
| EntMorph.EntityMorphed.SetMorph | arabiner/utils/ent_morph.py:16-19 | sets exactly stem, lemma and pos |
| EntMorph.SetEntityMorphed | arabiner/utils/ent_morph.py:60-70 | always returns 0; changes nothing without analyses; otherwise copies only the `pos`, `lex` and `stem` keys present in the first analysis; text and labels stay |
| EntMorph.BLabels | arabiner/utils/ent_morph.py:78 | lists exactly the labels that start with `B-` |
| EntMorph.BLabelsOrder | arabiner/utils/ent_morph.py:78-82 | the filter keeps the labels' order, so `b_labels[0]` is the first `B-` label of the list |
| EntMorph.LookingFor | arabiner/utils/ent_morph.py:82 | `"I" + b[1:]` has the same length and suffix as the `B-` label |
| EntMorph.MergeBIEntities | arabiner/utils/ent_morph.py:72-100 | returns the entities that are not absorbed, in order; each kept entity's text, stem and lemma gain the absorbed entities' words after a space; tags and pos stay |
| EntMorph.MergeLoop | arabiner/utils/ent_morph.py:76-99 | the loop lists exactly the kept entities and leaves each entity's words as the specification's `Grown` |
| EntMorph.MergeStep | arabiner/utils/ent_morph.py:77-99 | one iteration keeps the state, the listed entities and the entities' words in step with the specification |
| EntMorph.AbsorbInto | arabiner/utils/ent_morph.py:87-91 | appending to the open entity changes that entity's words only |
| EntMorph.KeptProps | arabiner/utils/ent_morph.py:72-100 | kept indices are strictly increasing, and an entity is kept iff it is not absorbed |
| EntMorph.AbsorbedIff | arabiner/utils/ent_morph.py:86-91 | an entity is absorbed iff an earlier kept `B-` entity is open and its `I-` label is among the entity's labels |
| EntMorph.MergeRules | arabiner/utils/ent_morph.py:79-99 | a matching `I-` label wins over a new `B-`; neither closes the open entity; a `B-` that is not absorbed opens; nothing is absorbed while closed |
| EntMorph.OwnerFacts | arabiner/utils/ent_morph.py:79-98 | the open entity is an earlier kept `B-` entity, and every entity after it so far was absorbed into it |
| EntMorph.AbsorbedUnchanged | arabiner/utils/ent_morph.py:87-91 | an absorbed entity's own words are never changed |
| EntMorph.MergeExample | arabiner/utils/ent_morph.py:72-100 | `[B-PERS] [I-PERS] []` keeps entities 0 and 2, and entity 0 becomes "Ali Hassan" |
| EntMorph.CheckInRange | arabiner/utils/ent_morph.py:128-139 | reports nothing iff `0 <= s <= e < len(a)`; otherwise the first failing check, in the order s, e, order, length |
| EntRelations.MorphOf | arabiner/utils/ent_morph.py:168 | the `deepcopy` snapshot holds the entity's stem, labels and pos |
| EntRelations.AddEdge | arabiner/utils/ent_morph.py:149-158 | the row is `[src.stem, dst.stem, rel, src.labels[0], dst.labels[0], sentiment]`; without a verb the relation is `co` and the sentiment is empty, otherwise the verb's stem with the predictor's sentiment; `_2_` is appended exactly on together edges |
| EntRelations.Step | arabiner/utils/ent_morph.py:166-184 | one element adds at most one edge and keeps every node slot tagged |
| EntRelations.ScanShape | arabiner/utils/ent_morph.py:163-184 | a destination needs a source and no pending verb; edges plus filled node slots never exceed the tagged non-verb elements seen |
| EntRelations.ListRelationsCount | arabiner/utils/ent_morph.py:162-186 | a sentence yields no edge without tagged non-verb elements, and fewer edges than it has of them |
| EntRelations.FinalEdgeIsCo | arabiner/utils/ent_morph.py:185-186 | the edge added after a sentence is always `co_2_` with empty sentiment |
| EntRelations.ListRelationsFrom | arabiner/utils/ent_morph.py:162-186 | every edge joins two tagged non-verb elements of its own sentence, through a verb of that sentence or none |
| EntRelations.AllRelationsMembers | arabiner/utils/ent_morph.py:160-187 | an edge is in the result iff some sentence yields it |
| EntRelations.AllRelationsWithinSentence | arabiner/utils/ent_morph.py:160-187 | no edge crosses sentence lists |
| EntRelations.MakeAllRelations | arabiner/utils/ent_morph.py:160-187 | the nested loops return each sentence's edges, concatenated in order |
| EntRelations.RelateSentence | arabiner/utils/ent_morph.py:162-186 | the inner loop and the final together edge append exactly the sentence's edges |
| EntRelations.ScanStep | arabiner/utils/ent_morph.py:166-184 | the slot updates of one element match the specification's step |
| EntRelations.ExampleVerbBetween | arabiner/utils/ent_morph.py:176-183 | node, verb, node yields one verb edge with the predictor's sentiment |
| EntRelations.ExampleCoTogether | arabiner/utils/ent_morph.py:185-186 | two nodes without a verb yield one `co_2_` edge |
| EntRelations.ExampleVerbAfter | arabiner/utils/ent_morph.py:167-172 | a verb after two nodes yields a `_2_` edge |
| Preprocessing.TagLenIsTag | preprocessing.py:7 | the lazy scanner finds a match of length `n` at a `<` iff the first `n` characters are `<`, at least one character other than `<`, and the first `>` after it |
| Preprocessing.RemoveHtml | preprocessing.py:5-7 | the output is never longer than the input |
| Preprocessing.Preprocess | preprocessing.py:9-14 | `preprocess` only removes HTML: never longer, and a text without `<` comes back unchanged |
| Preprocessing.RemoveHtmlDeletes | preprocessing.py:7 | the output is the input with some characters deleted, in order |
| Preprocessing.RemoveHtmlNoTag | preprocessing.py:7 | a text without `<` is returned unchanged |
| Preprocessing.TagDeleted | preprocessing.py:7 | characters before the first `<` are kept, the leftmost tag is deleted and the scan resumes after it |
| Preprocessing.NonTagKept | preprocessing.py:7 | a character that opens no tag is kept |
| Preprocessing.ExampleFirstTag | preprocessing.py:7 | `"<a>b>"` becomes `"b>"` |
| Preprocessing.ExampleEmptyBrackets | preprocessing.py:7 | `"<>"` is kept |
| Preprocessing.ExampleNestedOpen | preprocessing.py:7 | one pass over `"<<a>b>"` gives `"<b>"` |
| Common.PySlice | code_switching_ner_metric.py:72 | `sentence[start:end]` is the plain slice for in-range bounds, empty when `end <= start`, and always some contiguous slice |
| Common.FlattenMembership | code_switching_ner_metric.py:131 | an element is in `sum(lists, [])` iff it is in one of the lists |

## Left out

- Printing, `__str__`/`__repr__` and the `__main__` demo are not modelled; they only produce output.
- `WojoodNER` is not modelled: it loads a checkpoint and runs neural inference.
- `process_sentence`, `process_all_sentences`, `print_entities` and `read_file` are not modelled: they drive the external tagger and disambiguator, a progress display, printing and file I/O.
- ner_utils.py, arabiner/utils/vis_1.py, app.py, loaders.py and formats.py are not part of this model.
- The NER detectors and `sentence_ner.pred_ner_sents` are abstract functions in the configuration. Their spans are plain integers; no offset convention is assumed.
- The sentiment analyser's `predict` is an abstract `string -> string` parameter.
- The character classes behind `\w`, `\d` and `\s` are abstract predicates, with no Unicode tables. Any regex escaping of the alphabet is assumed correct.
- Ratios are exact `real` quotients, not IEEE floats.
- `check_in_range` prints its message and returns `None`. The model returns which check failed instead of the text.
- `deepcopy` in `make_all_relations` becomes a value snapshot of the stem, labels and pos. Text and lemma are not copied, because no edge reads them.
- The list `broken_tokens` is computed but not part of the report, as in the source.
- CodeSwitchingMetric.GetAllNerPredsSentences: a detector returning more lists than there are sentences makes `ner_preds[i] += model_preds[i]` raise `IndexError` part-way, after some lists were already extended in place. The model returns only `IndexError`, because `calculate` lets the exception escape and nothing observes those lists.
- CodeSwitchingMetric.ExtendInPlace: it builds a new list of lists. The inner lists of `ner_preds` are not modelled as shared objects.
- EntMorph.MergeBIEntities: it requires the list to hold distinct objects. A list holding the same object twice is not modelled.
- EntRelations.AddEdge: it requires both nodes to have a label, where the source would raise on `labels[0]`. The scanner only places tagged entities in node slots, so no call breaks this.
- CodeSwitchingMetric.MergePredsExcuse: it is stated for queries with `s <= e`. Every query the source makes has that form.
