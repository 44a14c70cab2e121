/** `CodeSwitchingNERMetric`: how many sentences, texts and tokens contain
    foreign-alphabet words that no named entity excuses. The named-entity
    detectors are abstract functions supplied with the configuration. */
module CodeSwitchingMetric {
  import opened Common
  import opened Intervals
  import opened ForeignRuns
  import Preprocessing

  /** The constructor's default `origin_alphabet` (Ukrainian letters). */
  const DefaultOriginAlphabet: string :=
    "АаБбВвГгҐґДдЕеЄєЖжЗзИиІіЇїЙйКкЛлМмНнОоПпРрСсТтУуФфХхЦцЧчШшЩщьЮюЯя"

  /** One detector prediction `{"start", "end", ...}`; only the offsets are used. */
  datatype Pred = Pred(start: int, end: int, entityLabel: string)

  /** One merged prediction `{"start", "end", "text"}`: no label. */
  datatype Span = Span(start: int, end: int, text: string)

  /** One token dict `{"text", "start", "end"}`. */
  datatype Token = Token(text: string, start: int, end: int)

  /** What `sentence_ner.pred_ner_sents` returns: predictions per sentence,
      the sentences and the tokens of the whole text. */
  datatype SentenceSplit = SentenceSplit(preds: seq<seq<Pred>>, sentences: seq<string>, tokens: seq<Token>)

  /** A detector maps a list of sentences to a list of prediction lists. */
  type Detector = seq<string> -> seq<seq<Pred>>

  /** The metric object: its alphabet, its character classes and its detectors. */
  datatype Config = Config(
    originAlphabet: string,
    classes: CharClasses,
    nerModules: seq<Detector>,
    sentenceNer: string -> SentenceSplit)

  /** `CodeSwitchingNERMetric(ner_modules, sentence_ner, origin_alphabet)`;
      `None` stands for the omitted argument, which defaults to Ukrainian. */
  function NewMetric(nerModules: seq<Detector>, sentenceNer: string -> SentenceSplit, classes: CharClasses,
                     originAlphabet: Option<string>): (cfg: Config)
    ensures cfg.nerModules == nerModules && cfg.sentenceNer == sentenceNer && cfg.classes == classes
    ensures originAlphabet.Some? ==> cfg.originAlphabet == originAlphabet.value
    ensures originAlphabet.None? ==> cfg.originAlphabet == DefaultOriginAlphabet
  {
    Config(if originAlphabet.Some? then originAlphabet.value else DefaultOriginAlphabet, classes, nerModules, sentenceNer)
  }

  /** The report of `calculate`. */
  datatype Report = Report(
    brokenSentencesRatio: real,
    brokenTextsRatio: real,
    totalNumTexts: nat,
    totalNumSentences: nat,
    brokenTokensRatio: real,
    totalNumTokens: nat)

  function Min(a: nat, b: nat): nat
  {
    if a <= b then a else b
  }

  // ---------------------------------------------------------------------
  // is_proper_name

  /** `is_proper_name(s, e, preds)`: the closed interval `[s, e]` meets the
      closed interval of some prediction; touching counts. */
  function IsProperName(s: int, e: int, preds: seq<Span>): (r: bool)
    ensures r <==> exists k :: 0 <= k < |preds| && s <= preds[k].end && preds[k].start <= e
  {
    if |preds| == 0 then false
    else if !(e < preds[0].start || s > preds[0].end) then true
    else
      assert forall k :: 1 <= k < |preds| ==> preds[1..][k - 1] == preds[k];
      IsProperName(s, e, preds[1..])
  }

  /** The overlap test is symmetric in the query and the prediction. */
  lemma IsProperNameSymmetric(s: int, e: int, p: Span, t: string)
    ensures IsProperName(s, e, [p]) == IsProperName(p.start, p.end, [Span(s, e, t)])
  {
  }

  // ---------------------------------------------------------------------
  // merge_preds

  function PredIntervals(preds: seq<Pred>): (r: seq<Interval>)
    ensures |r| == |preds|
    ensures forall k :: 0 <= k < |r| ==> r[k] == Interval(preds[k].start, preds[k].end)
  {
    seq(|preds|, k requires 0 <= k < |preds| => Interval(preds[k].start, preds[k].end))
  }

  /** `merge_preds(sentence, preds)`: one span per merged interval, with the
      text Python's `sentence[start:end]` selects. */
  function MergePreds(sentence: string, preds: seq<Pred>): (r: seq<Span>)
    ensures |r| <= |preds|
    ensures r == [] <==> preds == []
    ensures forall k :: 0 <= k < |r| ==> r[k].text == PySlice(sentence, r[k].start, r[k].end)
    ensures forall k :: 0 <= k < |r| - 1 ==> r[k].end < r[k + 1].start
    ensures var m := MergeIntervalsSpec(PredIntervals(preds));
      |r| == |m| && forall k :: 0 <= k < |r| ==> r[k].start == m[k].start && r[k].end == m[k].end
  {
    MergeIntervalsProps(PredIntervals(preds));
    if |preds| == 0 then []
    else
      var m := MergeIntervalsSpec(PredIntervals(preds));
      seq(|m|, k requires 0 <= k < |m| => Span(m[k].start, m[k].end, PySlice(sentence, m[k].start, m[k].end)))
  }

  /** A query `[s, e]` with `s <= e` is excused by the merged spans exactly
      when it is excused by one of the raw predictions. */
  lemma MergePredsExcuse(sentence: string, preds: seq<Pred>, s: int, e: int)
    requires s <= e
    ensures IsProperName(s, e, MergePreds(sentence, preds)) <==>
      exists k :: 0 <= k < |preds| && s <= preds[k].end && preds[k].start <= e
  {
    if |preds| > 0 {
      var ivs := PredIntervals(preds);
      var m := MergeIntervalsSpec(ivs);
      var r := MergePreds(sentence, preds);
      MergeIntervalsMeets(ivs, s, e);
      if IsProperName(s, e, r) {
        var k :| 0 <= k < |r| && s <= r[k].end && r[k].start <= e;
        assert Meets(s, e, m[k]);
        var j :| 0 <= j < |ivs| && Meets(s, e, ivs[j]);
        assert s <= preds[j].end && preds[j].start <= e;
      }
      if exists k :: 0 <= k < |preds| && s <= preds[k].end && preds[k].start <= e {
        var j :| 0 <= j < |preds| && s <= preds[j].end && preds[j].start <= e;
        assert Meets(s, e, ivs[j]);
        var k :| 0 <= k < |m| && Meets(s, e, m[k]);
        assert s <= r[k].end && r[k].start <= e;
      }
    }
  }

  /** The merged spans cover exactly the integer points the predictions cover. */
  lemma MergePredsCovers(sentence: string, preds: seq<Pred>, x: int)
    ensures (exists k :: 0 <= k < |MergePreds(sentence, preds)| &&
               MergePreds(sentence, preds)[k].start <= x <= MergePreds(sentence, preds)[k].end)
      <==> (exists k :: 0 <= k < |preds| && preds[k].start <= x <= preds[k].end)
  {
    if |preds| > 0 {
      var ivs := PredIntervals(preds);
      var m := MergeIntervalsSpec(ivs);
      var r := MergePreds(sentence, preds);
      MergeIntervalsProps(ivs);
      assert Covers(m, x) <==> Covers(ivs, x);
      if exists k :: 0 <= k < |r| && r[k].start <= x <= r[k].end {
        var k :| 0 <= k < |r| && r[k].start <= x <= r[k].end;
        assert Contains(m[k], x);
        var j :| 0 <= j < |ivs| && Contains(ivs[j], x);
        assert preds[j].start <= x <= preds[j].end;
      }
      if exists k :: 0 <= k < |preds| && preds[k].start <= x <= preds[k].end {
        var j :| 0 <= j < |preds| && preds[j].start <= x <= preds[j].end;
        assert Contains(ivs[j], x);
        var k :| 0 <= k < |m| && Contains(m[k], x);
        assert r[k].start <= x <= r[k].end;
      }
    }
  }

  // ---------------------------------------------------------------------
  // calc_sentences_num_broken

  /** `find_non_vocab_words_starts` with the metric's alphabet. */
  function ForeignRunsOf(cfg: Config, text: string): seq<Run>
  {
    FindNonVocabWordsStarts(cfg.originAlphabet, cfg.classes, text)
  }

  /** The comprehension `non_proper_names_substrings_ranges`: the runs whose
      START point meets no span (the run's start is passed as both ends). */
  function NonProperRuns(runs: seq<Run>, preds: seq<Span>): (r: seq<Run>)
    ensures |r| <= |runs|
    ensures forall x :: x in r <==> x in runs && !IsProperName(x.start, x.start, preds)
  {
    if |runs| == 0 then []
    else
      var init := NonProperRuns(runs[..|runs| - 1], preds);
      var last := runs[|runs| - 1];
      assert runs == runs[..|runs| - 1] + [last];
      if !IsProperName(last.start, last.start, preds) then init + [last] else init
  }

  /** A sentence counts as broken when that list is non-empty. */
  predicate SentenceBroken(cfg: Config, sentence: string, preds: seq<Span>)
  {
    |NonProperRuns(ForeignRunsOf(cfg, sentence), preds)| > 0
  }

  /** A position where a foreign run begins. */
  predicate RunStartAt(cfg: Config, text: string, j: int)
  {
    0 <= j < |text| && Foreign(cfg.originAlphabet, cfg.classes, text[j])
    && (j == 0 || !Foreign(cfg.originAlphabet, cfg.classes, text[j - 1]))
  }

  /** A sentence is broken exactly when some foreign run begins at a position
      outside the closed interval of every span; where the run ends plays no role. */
  lemma SentenceBrokenIff(cfg: Config, sentence: string, preds: seq<Span>)
    ensures SentenceBroken(cfg, sentence, preds) <==>
      exists j :: RunStartAt(cfg, sentence, j) &&
        forall k :: 0 <= k < |preds| ==> !(preds[k].start <= j <= preds[k].end)
  {
    if SentenceBroken(cfg, sentence, preds) {
      var j := BrokenWitness(cfg, sentence, preds);
      assert forall k :: 0 <= k < |preds| ==> !(preds[k].start <= j <= preds[k].end);
    }
    if exists j :: RunStartAt(cfg, sentence, j) &&
        forall k :: 0 <= k < |preds| ==> !(preds[k].start <= j <= preds[k].end) {
      var j :| RunStartAt(cfg, sentence, j) &&
        forall k :: 0 <= k < |preds| ==> !(preds[k].start <= j <= preds[k].end);
      UnexcusedStartBreaks(cfg, sentence, preds, j);
    }
  }

  lemma BrokenWitness(cfg: Config, sentence: string, preds: seq<Span>) returns (j: int)
    requires SentenceBroken(cfg, sentence, preds)
    ensures RunStartAt(cfg, sentence, j) && !IsProperName(j, j, preds)
  {
    var runs := ForeignRunsOf(cfg, sentence);
    var x := NonProperRuns(runs, preds)[0];
    assert x in runs && !IsProperName(x.start, x.start, preds);
    j := x.start;
    RunStartIff(cfg.originAlphabet, cfg.classes, sentence, j);
  }
  /** A metric built with the default alphabet never counts a sentence as
      broken, whatever the predictions, when each of its characters is a
      letter of that alphabet, a space, a digit, `_` or no word character at
      all (punctuation). The default alphabet has the small soft sign `ь`
      but not the capital `Ь`, so a word containing `Ь` is not covered. */
  lemma DefaultAlphabetNative(nerModules: seq<Detector>, sentenceNer: string -> SentenceSplit, classes: CharClasses,
                              sentence: string, preds: seq<Span>)
    requires forall m :: 0 <= m < |sentence| ==>
      || sentence[m] in DefaultOriginAlphabet
      || classes.isSpace(sentence[m])
      || !classes.isWord(sentence[m])
      || classes.isDigit(sentence[m])
      || sentence[m] == '_'
    ensures !SentenceBroken(NewMetric(nerModules, sentenceNer, classes, None), sentence, preds)
  {
    var cfg := NewMetric(nerModules, sentenceNer, classes, None);
    NoRunsIffNative(cfg.originAlphabet, cfg.classes, sentence);
  }


  lemma UnexcusedStartBreaks(cfg: Config, sentence: string, preds: seq<Span>, j: int)
    requires RunStartAt(cfg, sentence, j) && !IsProperName(j, j, preds)
    ensures SentenceBroken(cfg, sentence, preds)
  {
    var runs := ForeignRunsOf(cfg, sentence);
    RunStartIff(cfg.originAlphabet, cfg.classes, sentence, j);
    var i :| 0 <= i < |runs| && runs[i].start == j;
    assert runs[i] in NonProperRuns(runs, preds);
  }

  /** Broken sentences among the first `n` (sentence, spans) pairs. */
  function BrokenSentenceCount(cfg: Config, sentences: seq<string>, merged: seq<seq<Span>>, n: nat): nat
    requires n <= |sentences| && n <= |merged|
  {
    if n == 0 then 0
    else
      var prev := BrokenSentenceCount(cfg, sentences, merged, n - 1);
      if SentenceBroken(cfg, sentences[n - 1], merged[n - 1]) then prev + 1 else prev
  }

  /** The count is at most `n`, and it is zero exactly when none of the
      first `n` sentences is broken. */
  lemma {:induction false} BrokenSentenceCountProps(cfg: Config, sentences: seq<string>, merged: seq<seq<Span>>, n: nat)
    requires n <= |sentences| && n <= |merged|
    ensures BrokenSentenceCount(cfg, sentences, merged, n) <= n
    ensures BrokenSentenceCount(cfg, sentences, merged, n) == 0 <==>
      forall i :: 0 <= i < n ==> !SentenceBroken(cfg, sentences[i], merged[i])
  {
    if n > 0 {
      BrokenSentenceCountProps(cfg, sentences, merged, n - 1);
    }
  }

  /** `calc_sentences_num_broken(sentences, merged_ner_preds)`: `zip` stops
      at the shorter list. */
  method CalcSentencesNumBroken(cfg: Config, sentences: seq<string>, merged: seq<seq<Span>>) returns (num: nat)
    ensures num == BrokenSentenceCount(cfg, sentences, merged, Min(|sentences|, |merged|))
    ensures num <= Min(|sentences|, |merged|)
  {
    var n := Min(|sentences|, |merged|);
    num := 0;
    var i := 0;
    while i < n
      invariant i <= n
      invariant num == BrokenSentenceCount(cfg, sentences, merged, i)
    {
      var bad := NonProperRuns(ForeignRunsOf(cfg, sentences[i]), merged[i]);
      if |bad| > 0 {
        num := num + 1;
      }
      i := i + 1;
    }
    BrokenSentenceCountProps(cfg, sentences, merged, n);
  }

  // ---------------------------------------------------------------------
  // calc_token_level_num_broken

  /** A token is broken when it holds a foreign run and its `[start, end]`
      meets no span of the flattened list. */
  predicate TokenBroken(cfg: Config, tok: Token, all: seq<Span>)
  {
    ForeignRunsOf(cfg, tok.text) != [] && !IsProperName(tok.start, tok.end, all)
  }

  /** The texts of the broken tokens, in token order. */
  function BrokenTokenTexts(cfg: Config, tokens: seq<Token>, all: seq<Span>): seq<string>
  {
    if |tokens| == 0 then []
    else
      var init := BrokenTokenTexts(cfg, tokens[..|tokens| - 1], all);
      var last := tokens[|tokens| - 1];
      if TokenBroken(cfg, last, all) then init + [last.text] else init
  }

  function TextsOf(tokens: seq<Token>): (r: seq<string>)
    ensures |r| == |tokens|
    ensures forall k :: 0 <= k < |r| ==> r[k] == tokens[k].text
  {
    seq(|tokens|, k requires 0 <= k < |tokens| => tokens[k].text)
  }

  /** The broken texts are the token texts with some deleted, in order; a text
      is listed exactly when some token carrying it is broken. */
  lemma {:induction false} BrokenTokenTextsProps(cfg: Config, tokens: seq<Token>, all: seq<Span>)
    ensures IsSubseq(BrokenTokenTexts(cfg, tokens, all), TextsOf(tokens))
    ensures |BrokenTokenTexts(cfg, tokens, all)| <= |tokens|
    ensures forall x :: x in BrokenTokenTexts(cfg, tokens, all) <==>
      exists i :: 0 <= i < |tokens| && tokens[i].text == x && TokenBroken(cfg, tokens[i], all)
  {
    if |tokens| > 0 {
      var init := tokens[..|tokens| - 1];
      var last := tokens[|tokens| - 1];
      BrokenTokenTextsProps(cfg, init, all);
      var b := BrokenTokenTexts(cfg, init, all);
      assert TextsOf(tokens) == TextsOf(init) + [last.text];
      if TokenBroken(cfg, last, all) {
        SubseqRefl([last.text]);
        SubseqAppend(b, TextsOf(init), [last.text], [last.text]);
      } else {
        SubseqOfEmpty([last.text]);
        SubseqAppend(b, TextsOf(init), [], [last.text]);
        assert b + [] == b;
      }
      SubseqLength(BrokenTokenTexts(cfg, tokens, all), TextsOf(tokens));
      forall x ensures x in BrokenTokenTexts(cfg, tokens, all) <==>
        exists i :: 0 <= i < |tokens| && tokens[i].text == x && TokenBroken(cfg, tokens[i], all)
      {
        if exists i :: 0 <= i < |tokens| && tokens[i].text == x && TokenBroken(cfg, tokens[i], all) {
          var i :| 0 <= i < |tokens| && tokens[i].text == x && TokenBroken(cfg, tokens[i], all);
          if i < |tokens| - 1 {
            assert init[i] == tokens[i];
          }
        }
        if x in b {
          var i :| 0 <= i < |init| && init[i].text == x && TokenBroken(cfg, init[i], all);
          assert tokens[i] == init[i];
        }
      }
    }
  }

  /** Against the flattened predictions of all sentences, a token is broken
      exactly when it has a foreign character and meets no span of any sentence. */
  lemma TokenBrokenIff(cfg: Config, tok: Token, merged: seq<seq<Span>>)
    ensures TokenBroken(cfg, tok, Flatten(merged)) <==>
      (exists m :: 0 <= m < |tok.text| && Foreign(cfg.originAlphabet, cfg.classes, tok.text[m]))
      && forall i, k :: 0 <= i < |merged| && 0 <= k < |merged[i]| ==>
           !(tok.start <= merged[i][k].end && merged[i][k].start <= tok.end)
  {
    NoRunsIffNative(cfg.originAlphabet, cfg.classes, tok.text);
    var all := Flatten(merged);
    if IsProperName(tok.start, tok.end, all) {
      var k :| 0 <= k < |all| && tok.start <= all[k].end && all[k].start <= tok.end;
      FlattenMembership(merged, all[k]);
      var i :| 0 <= i < |merged| && all[k] in merged[i];
      var j :| 0 <= j < |merged[i]| && merged[i][j] == all[k];
    }
    if exists i, k :: 0 <= i < |merged| && 0 <= k < |merged[i]| &&
         tok.start <= merged[i][k].end && merged[i][k].start <= tok.end {
      var i, k :| 0 <= i < |merged| && 0 <= k < |merged[i]| &&
         tok.start <= merged[i][k].end && merged[i][k].start <= tok.end;
      FlattenMembership(merged, merged[i][k]);
      var j :| 0 <= j < |all| && all[j] == merged[i][k];
    }
  }

  /** `calc_token_level_num_broken(tokens, merged_ner_preds)`. */
  method CalcTokenLevelNumBroken(cfg: Config, tokens: seq<Token>, merged: seq<seq<Span>>)
    returns (num: nat, broken: seq<string>)
    ensures num == |broken| <= |tokens|
    ensures broken == BrokenTokenTexts(cfg, tokens, Flatten(merged))
  {
    num := 0;
    broken := [];
    var all := Flatten(merged);
    var i := 0;
    while i < |tokens|
      invariant i <= |tokens|
      invariant num == |broken|
      invariant broken == BrokenTokenTexts(cfg, tokens[..i], all)
    {
      assert tokens[..i + 1][..i] == tokens[..i];
      var tok := tokens[i];
      if ForeignRunsOf(cfg, tok.text) != [] {
        if !IsProperName(tok.start, tok.end, all) {
          num := num + 1;
          broken := broken + [tok.text];
        }
      }
      i := i + 1;
    }
    assert tokens[..|tokens|] == tokens;
    BrokenTokenTextsProps(cfg, tokens, all);
  }

  // ---------------------------------------------------------------------
  // get_all_ner_preds_sentences

  /** `ner_preds[i] += model_preds[i]` for every `i` of `model_preds`; an
      index past the end of `ner_preds` raises. */
  function ExtendPreds(preds: seq<seq<Pred>>, mp: seq<seq<Pred>>): (r: Result<seq<seq<Pred>>>)
    ensures r.Ok? <==> |mp| <= |preds|
    ensures r.Ok? ==> |r.value| == |preds|
  {
    if |mp| > |preds| then IndexError
    else Ok(seq(|preds|, i requires 0 <= i < |preds| => if i < |mp| then preds[i] + mp[i] else preds[i]))
  }

  /** The predictions after the first `|modules|` detectors have run. */
  function ApplyModules(preds: seq<seq<Pred>>, modules: seq<Detector>, sentences: seq<string>): Result<seq<seq<Pred>>>
  {
    if |modules| == 0 then Ok(preds)
    else match ApplyModules(preds, modules[..|modules| - 1], sentences)
      case IndexError => IndexError
      case Ok(p) => ExtendPreds(p, modules[|modules| - 1](sentences))
  }

  /** Some detector gave prediction `p` for sentence `i`. */
  predicate Gave(modules: seq<Detector>, sentences: seq<string>, i: nat, p: Pred)
  {
    exists j :: 0 <= j < |modules| && i < |modules[j](sentences)| && p in modules[j](sentences)[i]
  }

  /** The detectors run without error exactly when none returns more lists than
      there are sentence predictions, and then there is one list per sentence. */
  lemma {:induction false} ApplyModulesOk(preds: seq<seq<Pred>>, modules: seq<Detector>, sentences: seq<string>)
    ensures ApplyModules(preds, modules, sentences).Ok? <==>
      forall j :: 0 <= j < |modules| ==> |modules[j](sentences)| <= |preds|
    ensures ApplyModules(preds, modules, sentences).Ok? ==> |ApplyModules(preds, modules, sentences).value| == |preds|
  {
    if |modules| > 0 {
      var init := modules[..|modules| - 1];
      ApplyModulesOk(preds, init, sentences);
      assert forall j :: 0 <= j < |init| ==> init[j] == modules[j];
    }
  }

  /** Without error, each sentence's list holds exactly its own predictions and
      those some detector gave for that sentence. */
  lemma {:induction false} ApplyModulesContents(preds: seq<seq<Pred>>, modules: seq<Detector>, sentences: seq<string>)
    ensures ApplyModules(preds, modules, sentences).Ok? ==>
      var out := ApplyModules(preds, modules, sentences).value;
      |out| == |preds| && forall i: nat, p :: i < |preds| ==> (p in out[i] <==> p in preds[i] || Gave(modules, sentences, i, p))
  {
    if |modules| > 0 {
      var init := modules[..|modules| - 1];
      var mp := modules[|modules| - 1](sentences);
      ApplyModulesContents(preds, init, sentences);
      var res := ApplyModules(preds, modules, sentences);
      if res.Ok? {
        var mid := ApplyModules(preds, init, sentences).value;
        var out := res.value;
        assert res == ExtendPreds(mid, mp);
        forall i: nat, p | i < |preds|
          ensures p in out[i] <==> p in preds[i] || Gave(modules, sentences, i, p)
        {
          GaveSnoc(modules, sentences, i, p);
          if i < |mp| {
            assert out[i] == mid[i] + mp[i];
          } else {
            assert out[i] == mid[i];
          }
        }
      }
    }
  }

  lemma GaveSnoc(modules: seq<Detector>, sentences: seq<string>, i: nat, p: Pred)
    requires |modules| > 0
    ensures var last := modules[|modules| - 1](sentences);
      Gave(modules, sentences, i, p) <==>
      Gave(modules[..|modules| - 1], sentences, i, p) || (i < |last| && p in last[i])
  {
    var init := modules[..|modules| - 1];
    if Gave(modules, sentences, i, p) {
      var j :| 0 <= j < |modules| && i < |modules[j](sentences)| && p in modules[j](sentences)[i];
      if j < |init| {
        assert init[j] == modules[j];
      }
    }
    if Gave(init, sentences, i, p) {
      var j :| 0 <= j < |init| && i < |init[j](sentences)| && p in init[j](sentences)[i];
      assert init[j] == modules[j];
    }
  }

  /** `get_all_ner_preds_sentences(text)`. */
  method GetAllNerPredsSentences(cfg: Config, text: string) returns (res: Result<SentenceSplit>)
    ensures res == (var split := cfg.sentenceNer(text);
                    match ApplyModules(split.preds, cfg.nerModules, split.sentences)
                    case IndexError => IndexError
                    case Ok(p) => Ok(SentenceSplit(p, split.sentences, split.tokens)))
  {
    var split := cfg.sentenceNer(text);
    var nerPreds := split.preds;
    var sentences := split.sentences;
    var m := 0;
    while m < |cfg.nerModules|
      invariant m <= |cfg.nerModules|
      invariant ApplyModules(split.preds, cfg.nerModules[..m], sentences) == Ok(nerPreds)
    {
      var modelPreds := cfg.nerModules[m](sentences);
      var extended := ExtendInPlace(nerPreds, modelPreds);
      ApplyModulesSnoc(split.preds, cfg.nerModules, sentences, m);
      if extended.IndexError? {
        ApplyModulesStopsOnError(split.preds, cfg.nerModules, sentences, m + 1);
        return IndexError;
      }
      nerPreds := extended.value;
      m := m + 1;
    }
    assert cfg.nerModules[..m] == cfg.nerModules;
    return Ok(SentenceSplit(nerPreds, sentences, split.tokens));
  }

  /** The inner loop: `ner_preds[i] += model_preds[i]` for each `i`, raising
      IndexError at the first `i` past the end of `ner_preds`. */
  method ExtendInPlace(preds: seq<seq<Pred>>, mp: seq<seq<Pred>>) returns (r: Result<seq<seq<Pred>>>)
    ensures r == ExtendPreds(preds, mp)
  {
    var out := preds;
    var i := 0;
    while i < |mp|
      invariant i <= |mp| && i <= |preds| && |out| == |preds|
      invariant forall k :: 0 <= k < |preds| ==> out[k] == if k < i then preds[k] + mp[k] else preds[k]
    {
      if i >= |out| {
        return IndexError;
      }
      out := out[i := out[i] + mp[i]];
      i := i + 1;
    }
    assert out == ExtendPreds(preds, mp).value;
    return Ok(out);
  }

  /** Running one more detector extends the predictions so far. */
  lemma ApplyModulesSnoc(preds: seq<seq<Pred>>, modules: seq<Detector>, sentences: seq<string>, m: nat)
    requires m < |modules|
    ensures ApplyModules(preds, modules[..m + 1], sentences) ==
      match ApplyModules(preds, modules[..m], sentences)
      case IndexError => IndexError
      case Ok(p) => ExtendPreds(p, modules[m](sentences))
  {
    assert modules[..m + 1][..m] == modules[..m];
    assert modules[..m + 1][m] == modules[m];
  }

  /** Once a prefix of the detectors fails, the whole run fails. */
  lemma {:induction false} ApplyModulesStopsOnError(preds: seq<seq<Pred>>, modules: seq<Detector>, sentences: seq<string>, n: nat)
    requires n <= |modules|
    requires ApplyModules(preds, modules[..n], sentences).IndexError?
    ensures ApplyModules(preds, modules, sentences).IndexError?
    decreases |modules| - n
  {
    if n < |modules| {
      assert modules[..n + 1][..n] == modules[..n];
      ApplyModulesStopsOnError(preds, modules, sentences, n + 1);
    } else {
      assert modules[..n] == modules;
    }
  }

  // ---------------------------------------------------------------------
  // calculate

  /** The counters one text contributes. */
  datatype Counts = Counts(brokenSentences: nat, sentences: nat, brokenTexts: nat, brokenTokens: nat, tokens: nat)

  const NoCounts := Counts(0, 0, 0, 0, 0)

  function AddCounts(a: Counts, b: Counts): Counts
  {
    Counts(a.brokenSentences + b.brokenSentences, a.sentences + b.sentences, a.brokenTexts + b.brokenTexts,
           a.brokenTokens + b.brokenTokens, a.tokens + b.tokens)
  }

  /** The comprehension `merged_ner_preds`: `sentences[i]` raises when there are
      more prediction lists than sentences. */
  function MergeAll(sentences: seq<string>, preds: seq<seq<Pred>>): (r: Result<seq<seq<Span>>>)
    ensures r.Ok? <==> |preds| <= |sentences|
    ensures r.Ok? ==> |r.value| == |preds|
  {
    if |preds| > |sentences| then IndexError
    else Ok(seq(|preds|, i requires 0 <= i < |preds| => MergePreds(sentences[i], preds[i])))
  }

  /** What one raw text adds to the counters. */
  function TextCounts(cfg: Config, raw: string): Result<Counts>
  {
    var text := Preprocessing.Preprocess(raw);
    if |text| == 0 then Ok(NoCounts) else SplitCounts(cfg, text)
  }

  /** What a preprocessed, non-empty text adds to the counters; a text counts
      as broken by its sentence count alone. */
  function SplitCounts(cfg: Config, text: string): Result<Counts>
  {
    var split := cfg.sentenceNer(text);
    match ApplyModules(split.preds, cfg.nerModules, split.sentences)
    case IndexError => IndexError
    case Ok(preds) =>
      match MergeAll(split.sentences, preds)
      case IndexError => IndexError
      case Ok(merged) =>
        var bs := BrokenSentenceCount(cfg, split.sentences, merged, Min(|split.sentences|, |merged|));
        var bt := |BrokenTokenTexts(cfg, split.tokens, Flatten(merged))|;
        Ok(Counts(bs, |split.sentences|, if bs > 0 then 1 else 0, bt, |split.tokens|))
  }

  /** The counters after the texts, left to right. */
  function Tally(cfg: Config, texts: seq<string>): Result<Counts>
  {
    if |texts| == 0 then Ok(NoCounts)
    else match Tally(cfg, texts[..|texts| - 1])
      case IndexError => IndexError
      case Ok(c) =>
        match TextCounts(cfg, texts[|texts| - 1])
        case IndexError => IndexError
        case Ok(d) => Ok(AddCounts(c, d))
  }

  /** `a / b if b else -1.0`. */
  function Ratio(n: nat, d: nat): real
  {
    if d != 0 then n as real / d as real else -1.0
  }

  function ReportOf(c: Counts, numTexts: nat): Report
  {
    Report(Ratio(c.brokenSentences, c.sentences), Ratio(c.brokenTexts, numTexts), numTexts,
           c.sentences, Ratio(c.brokenTokens, c.tokens), c.tokens)
  }

  /** `calculate(texts)`. */
  method Calculate(cfg: Config, texts: seq<string>) returns (res: Result<Report>)
    ensures res == match Tally(cfg, texts)
                   case IndexError => IndexError
                   case Ok(c) => Ok(ReportOf(c, |texts|))
  {
    var totalNumSentences: nat, totalNumTokens: nat := 0, 0;
    var numBrokenSentences: nat, numBrokenTexts: nat, numBrokenTokens: nat := 0, 0, 0;
    var totalNumTexts := |texts|;
    assert texts[..0] == [];
    var n := 0;
    while n < |texts|
      invariant n <= |texts|
      invariant Tally(cfg, texts[..n]) ==
        Ok(Counts(numBrokenSentences, totalNumSentences, numBrokenTexts, numBrokenTokens, totalNumTokens))
    {
      var got := TallyText(cfg, texts, n,
        Counts(numBrokenSentences, totalNumSentences, numBrokenTexts, numBrokenTokens, totalNumTokens));
      if got.IndexError? {
        TallyStopsOnError(cfg, texts, n + 1);
        return IndexError;
      }
      numBrokenSentences, totalNumSentences := got.value.brokenSentences, got.value.sentences;
      numBrokenTexts, numBrokenTokens, totalNumTokens := got.value.brokenTexts, got.value.brokenTokens, got.value.tokens;
      n := n + 1;
    }
    assert texts[..|texts|] == texts;
    var c := Counts(numBrokenSentences, totalNumSentences, numBrokenTexts, numBrokenTokens, totalNumTokens);
    return Ok(ReportOf(c, totalNumTexts));
  }

  /** One pass of the loop of `calculate`: preprocess `texts[n]` and, unless
      it comes out empty, add its counts to the running `before`. */
  method TallyText(cfg: Config, texts: seq<string>, n: nat, before: Counts) returns (res: Result<Counts>)
    requires n < |texts| && Tally(cfg, texts[..n]) == Ok(before)
    ensures res == Tally(cfg, texts[..n + 1])
  {
    var text := Preprocessing.Preprocess(texts[n]);
    TallyStep(cfg, texts, n);
    if |text| > 0 {
      var got := CountText(cfg, text);
      if got.IndexError? {
        return IndexError;
      }
      var d := got.value;
      res := Ok(AddCounts(before, d));
    } else {
      res := Ok(before);
    }
  }

  /** The body of the loop of `calculate` for a text that is not empty after
      preprocessing: what it adds to each counter. */
  method CountText(cfg: Config, text: string) returns (res: Result<Counts>)
    requires |text| > 0
    ensures res == SplitCounts(cfg, text)
  {
    var got := GetAllNerPredsSentences(cfg, text);
    if got.IndexError? {
      return IndexError;
    }
    var split := got.value;
    var mergedOrError := MergeAll(split.sentences, split.preds);
    if mergedOrError.IndexError? {
      return IndexError;
    }
    var merged := mergedOrError.value;
    var textNumBrokenSentences := CalcSentencesNumBroken(cfg, split.sentences, merged);
    var numBrokenTexts := 0;
    if textNumBrokenSentences > 0 {
      numBrokenTexts := 1;
    }
    var textNumBrokenWords, brokenTokens := CalcTokenLevelNumBroken(cfg, split.tokens, merged);
    return Ok(Counts(textNumBrokenSentences, |split.sentences|, numBrokenTexts, textNumBrokenWords, |split.tokens|));
  }

  /** One more text: an empty one leaves the counters alone, any other adds
      its counts or raises. */
  lemma TallyStep(cfg: Config, texts: seq<string>, n: nat)
    requires n < |texts|
    ensures Preprocessing.Preprocess(texts[n]) == "" ==> Tally(cfg, texts[..n + 1]) == Tally(cfg, texts[..n])
    ensures Preprocessing.Preprocess(texts[n]) != "" && Tally(cfg, texts[..n]).Ok? ==>
      Tally(cfg, texts[..n + 1]) ==
        match SplitCounts(cfg, Preprocessing.Preprocess(texts[n]))
        case IndexError => IndexError
        case Ok(d) => Ok(AddCounts(Tally(cfg, texts[..n]).value, d))
  {
    assert texts[..n + 1][..n] == texts[..n];
    assert texts[..n + 1][n] == texts[n];
    if Preprocessing.Preprocess(texts[n]) == "" {
      match Tally(cfg, texts[..n])
      case IndexError =>
      case Ok(c) => assert AddCounts(c, NoCounts) == c;
    }
  }

  /** Once a prefix of the texts raises, the whole call raises. */
  lemma {:induction false} TallyStopsOnError(cfg: Config, texts: seq<string>, n: nat)
    requires n <= |texts|
    requires Tally(cfg, texts[..n]).IndexError?
    ensures Tally(cfg, texts).IndexError?
    decreases |texts| - n
  {
    if n < |texts| {
      assert texts[..n + 1][..n] == texts[..n];
      TallyStopsOnError(cfg, texts, n + 1);
    } else {
      assert texts[..n] == texts;
    }
  }

  /** Broken counts never exceed their totals; at most one broken text per text. */
  lemma {:induction false} TallyBounds(cfg: Config, texts: seq<string>)
    ensures Tally(cfg, texts).Ok? ==>
      var c := Tally(cfg, texts).value;
      c.brokenSentences <= c.sentences && c.brokenTexts <= |texts| && c.brokenTokens <= c.tokens
  {
    if |texts| > 0 {
      TallyBounds(cfg, texts[..|texts| - 1]);
      var raw := texts[|texts| - 1];
      var text := Preprocessing.Preprocess(raw);
      if |text| > 0 {
        var split := cfg.sentenceNer(text);
        var ap := ApplyModules(split.preds, cfg.nerModules, split.sentences);
        if ap.Ok? && MergeAll(split.sentences, ap.value).Ok? {
          var merged := MergeAll(split.sentences, ap.value).value;
          BrokenSentenceCountProps(cfg, split.sentences, merged, Min(|split.sentences|, |merged|));
          BrokenTokenTextsProps(cfg, split.tokens, Flatten(merged));
        }
      }
    }
  }

  /** Every ratio of a report is `-1.0` when its total is zero and lies in
      `[0, 1]` otherwise; `total_num_texts` is the number of input texts. */
  lemma CalculateRatios(cfg: Config, texts: seq<string>)
    ensures Tally(cfg, texts).Ok? ==>
      var r := ReportOf(Tally(cfg, texts).value, |texts|);
      && r.totalNumTexts == |texts|
      && (r.totalNumSentences == 0 ==> r.brokenSentencesRatio == -1.0)
      && (r.totalNumSentences != 0 ==> 0.0 <= r.brokenSentencesRatio <= 1.0)
      && (|texts| == 0 ==> r.brokenTextsRatio == -1.0)
      && (|texts| != 0 ==> 0.0 <= r.brokenTextsRatio <= 1.0)
      && (r.totalNumTokens == 0 ==> r.brokenTokensRatio == -1.0)
      && (r.totalNumTokens != 0 ==> 0.0 <= r.brokenTokensRatio <= 1.0)
  {
    TallyBounds(cfg, texts);
    if Tally(cfg, texts).Ok? {
      var c := Tally(cfg, texts).value;
      RatioBounds(c.brokenSentences, c.sentences);
      RatioBounds(c.brokenTexts, |texts|);
      RatioBounds(c.brokenTokens, c.tokens);
    }
  }

  lemma RatioBounds(n: nat, d: nat)
    requires n <= d
    ensures d == 0 ==> Ratio(n, d) == -1.0
    ensures d != 0 ==> 0.0 <= Ratio(n, d) <= 1.0
  {
    if d != 0 {
      assert n as real <= d as real;
    }
  }

  /** An empty list of texts gives every ratio `-1.0` and every count 0. */
  lemma CalculateEmpty(cfg: Config)
    ensures Tally(cfg, []) == Ok(NoCounts)
    ensures ReportOf(NoCounts, 0) == Report(-1.0, -1.0, 0, 0, -1.0, 0)
  {
  }

  /** A text that is empty after preprocessing adds nothing to any counter
      (it still counts in `total_num_texts`). */
  lemma TallySkipsEmpty(cfg: Config, texts: seq<string>, raw: string)
    requires Preprocessing.Preprocess(raw) == ""
    ensures Tally(cfg, texts + [raw]) == Tally(cfg, texts)
  {
    var all := texts + [raw];
    assert all[..|texts|] == texts && all[|texts|] == raw;
    assert TextCounts(cfg, raw) == Ok(NoCounts);
    match Tally(cfg, texts)
    case IndexError =>
    case Ok(c) => assert AddCounts(c, NoCounts) == c;
  }

  /** Texts that are all empty after preprocessing leave every counter at
      zero, which gives zero broken texts over `len(texts)` and `-1.0` for the
      sentence and token ratios. */
  lemma {:induction false} AllEmptyTexts(cfg: Config, texts: seq<string>)
    requires forall k :: 0 <= k < |texts| ==> Preprocessing.Preprocess(texts[k]) == ""
    ensures Tally(cfg, texts) == Ok(NoCounts)
    ensures |texts| > 0 ==> ReportOf(NoCounts, |texts|) == Report(-1.0, 0.0, |texts|, 0, -1.0, 0)
  {
    if |texts| > 0 {
      var init := texts[..|texts| - 1];
      var last := texts[|texts| - 1];
      assert init + [last] == texts;
      assert forall k :: 0 <= k < |init| ==> init[k] == texts[k];
      AllEmptyTexts(cfg, init);
      TallySkipsEmpty(cfg, init, last);
      ZeroRatio(|texts|);
    }
  }

  lemma ZeroRatio(d: nat)
    requires d > 0
    ensures Ratio(0, d) == 0.0
  {
  }
}
