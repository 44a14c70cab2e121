/** `CodeSwitchingNERMetric.find_non_vocab_words_starts`: the maximal runs
    matched by the character class `[^<alphabet>\s\W\d_]+`. */
module ForeignRuns {

  /** Python's Unicode character classes, left abstract: `\w`, `\d`, `\s`. */
  datatype CharClasses = CharClasses(isWord: char -> bool, isDigit: char -> bool, isSpace: char -> bool)

  /** A character the class accepts: a word character that is not a digit,
      not `_`, not whitespace and not in the native alphabet. */
  predicate Foreign(alphabet: string, cc: CharClasses, c: char)
  {
    c !in alphabet && !cc.isSpace(c) && cc.isWord(c) && !cc.isDigit(c) && c != '_'
  }

  /** `(m.start(), m.end())` of one match. */
  datatype Run = Run(start: nat, end: nat)

  /** End of the run of `q`-characters that starts at `j`. */
  function RunEnd(t: string, j: nat, q: char -> bool): (r: nat)
    requires j <= |t|
    ensures j <= r <= |t|
    ensures forall m :: j <= m < r ==> q(t[m])
    ensures r == |t| || !q(t[r])
    decreases |t| - j
  {
    if j == |t| || !q(t[j]) then j else RunEnd(t, j + 1, q)
  }

  /** `re.finditer` over `t[i..]` for a one-or-more repetition of a
      character class: maximal runs, left to right. */
  function RunsFrom(t: string, i: nat, q: char -> bool): seq<Run>
    requires i <= |t|
    decreases |t| - i
  {
    if i == |t| then []
    else if !q(t[i]) then RunsFrom(t, i + 1, q)
    else
      var e := RunEnd(t, i, q);
      [Run(i, e)] + RunsFrom(t, e, q)
  }

  /** Runs lie in `[i, |t|]`, are non-empty, increasing with gaps, made of
      accepted characters, and maximal on both sides. */
  predicate RunsShape(t: string, i: nat, q: char -> bool, r: seq<Run>)
  {
    && RunsBounded(t, i, r)
    && RunsGapped(r)
    && RunsAccepted(t, q, r)
    && RunsEndMaximal(t, q, r)
    && RunsStartMaximal(t, i, q, r)
  }

  predicate RunsBounded(t: string, i: nat, r: seq<Run>)
  {
    forall k :: 0 <= k < |r| ==> i <= r[k].start < r[k].end <= |t|
  }

  predicate RunsGapped(r: seq<Run>)
  {
    forall k :: 0 <= k < |r| - 1 ==> r[k].end < r[k + 1].start
  }

  predicate RunsAccepted(t: string, q: char -> bool, r: seq<Run>)
  {
    forall k, m :: 0 <= k < |r| && r[k].start <= m < r[k].end && m < |t| ==> q(t[m])
  }

  predicate RunsEndMaximal(t: string, q: char -> bool, r: seq<Run>)
  {
    forall k :: 0 <= k < |r| && r[k].end < |t| ==> !q(t[r[k].end])
  }

  predicate RunsStartMaximal(t: string, i: nat, q: char -> bool, r: seq<Run>)
  {
    forall k :: 0 <= k < |r| && i < r[k].start <= |t| ==> !q(t[r[k].start - 1])
  }

  lemma {:induction false} RunsFromShape(t: string, i: nat, q: char -> bool)
    requires i <= |t|
    ensures RunsShape(t, i, q, RunsFrom(t, i, q))
    decreases |t| - i
  {
    if i < |t| {
      if !q(t[i]) {
        RunsFromShape(t, i + 1, q);
        assert RunsFrom(t, i, q) == RunsFrom(t, i + 1, q);
        var r := RunsFrom(t, i, q);
        assert RunsStartMaximal(t, i, q, r) by {
          forall k | 0 <= k < |r| && i < r[k].start <= |t| ensures !q(t[r[k].start - 1]) {
            if r[k].start == i + 1 {
              assert !q(t[i]);
            }
          }
        }
      } else {
        var e := RunEnd(t, i, q);
        RunsFromShape(t, e, q);
        var rest := RunsFrom(t, e, q);
        assert RunsFrom(t, i, q) == [Run(i, e)] + rest;
        ConsBounded(t, i, e, rest);
        RestAfterGap(t, e, q, rest);
        ConsGapped(t, i, e, q, rest);
        ConsAccepted(t, i, e, q, rest);
        ConsEndMaximal(t, i, e, q, rest);
        ConsStartMaximal(t, i, e, q, rest);
      }
    }
  }

  lemma ConsBounded(t: string, i: nat, e: nat, rest: seq<Run>)
    requires i < e <= |t|
    requires RunsBounded(t, e, rest)
    ensures RunsBounded(t, i, [Run(i, e)] + rest)
  {
    var r := [Run(i, e)] + rest;
    forall k | 0 <= k < |r| ensures i <= r[k].start < r[k].end <= |t| {
      if k > 0 { assert r[k] == rest[k - 1]; }
    }
  }

  /** Runs found from `e`, where `t[e]` is rejected, start after `e`. */
  lemma RestAfterGap(t: string, e: nat, q: char -> bool, rest: seq<Run>)
    requires e < |t| ==> !q(t[e])
    requires RunsBounded(t, e, rest) && RunsAccepted(t, q, rest)
    ensures forall k :: 0 <= k < |rest| ==> rest[k].start > e
  {
    forall k | 0 <= k < |rest| ensures rest[k].start > e {
      if rest[k].start == e {
        assert false;
      }
    }
  }

  lemma ConsGapped(t: string, i: nat, e: nat, q: char -> bool, rest: seq<Run>)
    requires forall k :: 0 <= k < |rest| ==> rest[k].start > e
    requires RunsGapped(rest)
    ensures RunsGapped([Run(i, e)] + rest)
  {
    var r := [Run(i, e)] + rest;
    forall k | 0 <= k < |r| - 1 ensures r[k].end < r[k + 1].start {
      if k > 0 { assert r[k] == rest[k - 1]; }
      assert r[k + 1] == rest[k];
    }
  }

  lemma ConsAccepted(t: string, i: nat, e: nat, q: char -> bool, rest: seq<Run>)
    requires i < e <= |t|
    requires forall m :: i <= m < e ==> q(t[m])
    requires RunsAccepted(t, q, rest)
    ensures RunsAccepted(t, q, [Run(i, e)] + rest)
  {
    var r := [Run(i, e)] + rest;
    forall k, m | 0 <= k < |r| && r[k].start <= m < r[k].end && m < |t| ensures q(t[m]) {
      if k > 0 { assert r[k] == rest[k - 1]; }
    }
  }

  lemma ConsEndMaximal(t: string, i: nat, e: nat, q: char -> bool, rest: seq<Run>)
    requires e < |t| ==> !q(t[e])
    requires RunsEndMaximal(t, q, rest)
    ensures RunsEndMaximal(t, q, [Run(i, e)] + rest)
  {
    var r := [Run(i, e)] + rest;
    forall k | 0 <= k < |r| && r[k].end < |t| ensures !q(t[r[k].end]) {
      if k > 0 { assert r[k] == rest[k - 1]; }
    }
  }

  lemma ConsStartMaximal(t: string, i: nat, e: nat, q: char -> bool, rest: seq<Run>)
    requires forall k :: 0 <= k < |rest| ==> rest[k].start > e
    requires RunsStartMaximal(t, e, q, rest)
    ensures RunsStartMaximal(t, i, q, [Run(i, e)] + rest)
  {
    var r := [Run(i, e)] + rest;
    forall k | 0 <= k < |r| && i < r[k].start <= |t| ensures !q(t[r[k].start - 1]) {
      assert k > 0;
      assert r[k] == rest[k - 1];
    }
  }

  /** Every accepted character lies in some run. */
  lemma {:induction false} RunsFromComplete(t: string, i: nat, q: char -> bool, m: nat)
    requires i <= m < |t| && q(t[m])
    ensures exists k :: 0 <= k < |RunsFrom(t, i, q)| && RunsFrom(t, i, q)[k].start <= m < RunsFrom(t, i, q)[k].end
    decreases |t| - i
  {
    if !q(t[i]) {
      assert m != i;
      RunsFromComplete(t, i + 1, q, m);
      assert RunsFrom(t, i, q) == RunsFrom(t, i + 1, q);
    } else {
      var e := RunEnd(t, i, q);
      var r := RunsFrom(t, i, q);
      if m < e {
        assert r[0] == Run(i, e);
      } else {
        RunsFromComplete(t, e, q, m);
        var rest := RunsFrom(t, e, q);
        var k :| 0 <= k < |rest| && rest[k].start <= m < rest[k].end;
        assert r[k + 1] == rest[k];
      }
    }
  }

  /** The runs of foreign characters in `text`, in order. */
  function FindNonVocabWordsStarts(alphabet: string, cc: CharClasses, text: string): seq<Run>
  {
    RunsFrom(text, 0, c => Foreign(alphabet, cc, c))
  }

  /** The runs are non-empty, inside the text, in increasing order with gaps
      between them, made only of foreign characters and maximal on both sides,
      and every foreign character lies in one of them. */
  lemma NonVocabRunsShape(alphabet: string, cc: CharClasses, text: string)
    ensures var r := FindNonVocabWordsStarts(alphabet, cc, text);
      && (forall k :: 0 <= k < |r| ==> r[k].start < r[k].end <= |text|)
      && (forall k :: 0 <= k < |r| - 1 ==> r[k].end < r[k + 1].start)
      && (forall k, m :: 0 <= k < |r| && r[k].start <= m < r[k].end ==> Foreign(alphabet, cc, text[m]))
      && (forall k :: 0 <= k < |r| ==> r[k].end == |text| || !Foreign(alphabet, cc, text[r[k].end]))
      && (forall k :: 0 <= k < |r| ==> r[k].start == 0 || !Foreign(alphabet, cc, text[r[k].start - 1]))
      && (forall m :: 0 <= m < |text| && Foreign(alphabet, cc, text[m]) ==>
            exists k :: 0 <= k < |r| && r[k].start <= m < r[k].end)
  {
    var q := c => Foreign(alphabet, cc, c);
    RunsFromShape(text, 0, q);
    forall m | 0 <= m < |text| && q(text[m])
      ensures exists k :: 0 <= k < |RunsFrom(text, 0, q)| && RunsFrom(text, 0, q)[k].start <= m < RunsFrom(text, 0, q)[k].end
    {
      RunsFromComplete(text, 0, q, m);
    }
  }

  /** A text has a run exactly when it has a foreign character. */
  lemma NoRunsIffNative(alphabet: string, cc: CharClasses, text: string)
    ensures FindNonVocabWordsStarts(alphabet, cc, text) == [] <==>
      forall m :: 0 <= m < |text| ==> !Foreign(alphabet, cc, text[m])
  {
    NonVocabRunsShape(alphabet, cc, text);
    var r := FindNonVocabWordsStarts(alphabet, cc, text);
    if r != [] {
      assert Foreign(alphabet, cc, text[r[0].start]);
    }
  }

  /** The position `j` starts a run exactly when it holds a foreign character
      that no foreign character precedes. */
  lemma RunStartIff(alphabet: string, cc: CharClasses, text: string, j: int)
    ensures (exists k :: 0 <= k < |FindNonVocabWordsStarts(alphabet, cc, text)|
                         && FindNonVocabWordsStarts(alphabet, cc, text)[k].start == j)
      <==> (0 <= j < |text| && Foreign(alphabet, cc, text[j]) && (j == 0 || !Foreign(alphabet, cc, text[j - 1])))
  {
    NonVocabRunsShape(alphabet, cc, text);
    var r := FindNonVocabWordsStarts(alphabet, cc, text);
    if 0 <= j < |text| && Foreign(alphabet, cc, text[j]) && (j == 0 || !Foreign(alphabet, cc, text[j - 1])) {
      var k :| 0 <= k < |r| && r[k].start <= j < r[k].end;
    }
  }
}
