/** `arabiner/utils/ent_morph.py`: entities with morphological fields, the
    merge of `B-`/`I-` tagged entities, and the range validator. */
module EntMorph {
  import opened Common

  /** `EntityMorphed`: a token's text, its non-`O` tags and the stem, lemma and
      part of speech the morphological analysis fills in. */
  class EntityMorphed {
    // `lemmaText` is the Python attribute `lemma` (a keyword here).
    var text: string
    var labels: seq<string>
    var stem: string
    var lemmaText: string
    var pos: string

    constructor (text: string, labels: seq<string>)
      ensures this.text == text && this.labels == labels
      ensures stem == "" && lemmaText == "" && pos == ""
    {
      this.text := text;
      this.labels := labels;
      stem := "";
      lemmaText := "";
      pos := "";
    }

    /** `set_morph(stem, lemma, pos)`. */
    method SetMorph(stem: string, lemmaText: string, pos: string)
      modifies this
      ensures this.stem == stem && this.lemmaText == lemmaText && this.pos == pos
      ensures text == old(text) && labels == old(labels)
    {
      this.stem := stem;
      this.lemmaText := lemmaText;
      this.pos := pos;
    }
  }

  /** `set_entity_morphed(entity_morphed, disambiguate)`: copy `pos`, `lex`
      and `stem` from the first analysis when present; always returns 0. Each
      analysis is its feature dictionary. */
  method SetEntityMorphed(em: EntityMorphed, analyses: seq<map<string, string>>) returns (r: int)
    modifies em
    ensures r == 0
    ensures em.text == old(em.text) && em.labels == old(em.labels)
    ensures |analyses| == 0 ==> em.pos == old(em.pos) && em.lemmaText == old(em.lemmaText) && em.stem == old(em.stem)
    ensures |analyses| > 0 ==>
      && em.pos == (if "pos" in analyses[0] then analyses[0]["pos"] else old(em.pos))
      && em.lemmaText == (if "lex" in analyses[0] then analyses[0]["lex"] else old(em.lemmaText))
      && em.stem == (if "stem" in analyses[0] then analyses[0]["stem"] else old(em.stem))
  {
    if |analyses| == 0 {
      return 0;
    }
    var analysis := analyses[0];
    if "pos" in analysis {
      em.pos := analysis["pos"];
    }
    if "lex" in analysis {
      em.lemmaText := analysis["lex"];
    }
    if "stem" in analysis {
      em.stem := analysis["stem"];
    }
    return 0;
  }

  // ---------------------------------------------------------------------
  // merge_BI_entities: specification over the labels

  /** `label.startswith('B-')`. */
  predicate IsBLabel(l: string)
  {
    |l| >= 2 && l[0] == 'B' && l[1] == '-'
  }

  /** `[b for b in labels if b.startswith('B-')]`. */
  function BLabels(labels: seq<string>): (r: seq<string>)
    ensures forall k :: 0 <= k < |r| ==> IsBLabel(r[k])
    ensures forall l :: l in r <==> l in labels && IsBLabel(l)
  {
    if |labels| == 0 then []
    else
      var rest := BLabels(labels[1..]);
      assert forall l :: l in labels <==> l == labels[0] || l in labels[1..];
      if IsBLabel(labels[0]) then [labels[0]] + rest else rest
  }

  /** The filter keeps the `B-` tags in their order, so its first element,
      the `b_labels[0]` the merge reads, is the first `B-` tag of the list. */
  lemma {:induction false} BLabelsOrder(labels: seq<string>)
    ensures IsSubseq(BLabels(labels), labels)
    ensures BLabels(labels) != [] ==>
      exists j :: 0 <= j < |labels| && BLabels(labels)[0] == labels[j] && (forall i :: 0 <= i < j ==> !IsBLabel(labels[i]))
  {
    if |labels| > 0 {
      var rest := BLabels(labels[1..]);
      BLabelsOrder(labels[1..]);
      if IsBLabel(labels[0]) {
        assert BLabels(labels) == [labels[0]] + rest;
        assert ([labels[0]] + rest)[1..] == rest;
      } else {
        assert BLabels(labels) == rest;
        if rest != [] {
          var j :| 0 <= j < |labels[1..]| && rest[0] == labels[1..][j] && (forall i :: 0 <= i < j ==> !IsBLabel(labels[1..][i]));
          assert rest[0] == labels[j + 1];
          forall i | 0 <= i < j + 1 ensures !IsBLabel(labels[i]) {
            if i > 0 {
              assert labels[i] == labels[1..][i - 1];
            }
          }
        }
      }
    }
  }

  /** `"I" + b_label[1:]`: the continuation tag of a `B-` tag. */
  function LookingFor(b: string): (r: string)
    requires IsBLabel(b)
    ensures |r| == |b| && r[0] == 'I' && r[1..] == b[1..]
  {
    "I" + b[1..]
  }

  /** `prevEnt`/`lookingFor`: nothing open, or the index of the open entity and
      the tag that continues it. */
  datatype BIState = Closed | Open(owner: nat, lookingFor: string)

  /** Entity tags `ls` continue the open entity of state `st`. */
  predicate Continues(st: BIState, ls: seq<string>)
  {
    st.Open? && st.lookingFor in ls
  }

  /** One step of the loop, for the entity at index `n` with tags `ls`: a
      continuation keeps the state, otherwise the entity's first `B-` tag
      opens it, or nothing is open. */
  function Next(st: BIState, ls: seq<string>, n: nat): BIState
  {
    if Continues(st, ls) then st
    else
      var bs := BLabels(ls);
      if |bs| > 0 then Open(n, LookingFor(bs[0])) else Closed
  }

  /** The state after the first `n` entities, given every entity's labels. */
  function StateAfter(labels: seq<seq<string>>, n: nat): BIState
    requires n <= |labels|
  {
    if n == 0 then Closed else Next(StateAfter(labels, n - 1), labels[n - 1], n - 1)
  }

  /** Entity `k` is folded into the open entity instead of being listed. */
  predicate Absorbed(labels: seq<seq<string>>, k: nat)
    requires k < |labels|
  {
    Continues(StateAfter(labels, k), labels[k])
  }

  /** The indices of the listed entities among the first `n`. */
  function Kept(labels: seq<seq<string>>, n: nat): (r: seq<nat>)
    requires n <= |labels|
    ensures |r| <= n && forall a :: 0 <= a < |r| ==> r[a] < n
  {
    if n == 0 then []
    else
      var prev := Kept(labels, n - 1);
      if Absorbed(labels, n - 1) then prev else prev + [n - 1]
  }

  /** The three fields the merge extends. */
  datatype Words = Words(text: string, stem: string, lemmaText: string)

  /** `w` with each of `v`'s fields appended after a space. */
  function Join(w: Words, v: Words): Words
  {
    Words(w.text + (" " + v.text), w.stem + (" " + v.stem), w.lemmaText + (" " + v.lemmaText))
  }

  /** Entity `k`'s fields once the first `n` entities are processed: its own
      words joined, in order, with those of each entity absorbed into it. */
  function Grown(words: seq<Words>, labels: seq<seq<string>>, k: nat, n: nat): Words
    requires k < |words| == |labels| && n <= |labels|
  {
    if n == 0 then words[k]
    else
      var prev := Grown(words, labels, k, n - 1);
      if Absorbed(labels, n - 1) && StateAfter(labels, n - 1).owner == k then Join(prev, words[n - 1]) else prev
  }

  /** The open entity precedes, is listed, carries a `B-` tag whose
      continuation is awaited, and every entity since it was absorbed into it. */
  lemma {:induction false} OwnerFacts(labels: seq<seq<string>>, n: nat)
    requires n <= |labels|
    ensures StateAfter(labels, n).Open? ==>
      var o := StateAfter(labels, n).owner;
      && o < n
      && !Absorbed(labels, o)
      && |BLabels(labels[o])| > 0
      && StateAfter(labels, n).lookingFor == LookingFor(BLabels(labels[o])[0])
      && forall j :: o < j < n ==> Absorbed(labels, j) && StateAfter(labels, j).owner == o
  {
    if n > 0 {
      OwnerFacts(labels, n - 1);
      var st := StateAfter(labels, n - 1);
      if !(st.Open? && st.lookingFor in labels[n - 1]) && |BLabels(labels[n - 1])| > 0 {
        assert StateAfter(labels, n).owner == n - 1;
      }
    }
  }

  /** An entity is absorbed exactly when an earlier, listed entity with a `B-`
      tag is open and this entity carries that tag's `I-` continuation. */
  lemma AbsorbedIff(labels: seq<seq<string>>, k: nat)
    requires k < |labels|
    ensures Absorbed(labels, k) <==>
      exists o :: 0 <= o < k && !Absorbed(labels, o) && |BLabels(labels[o])| > 0
        && StateAfter(labels, k) == Open(o, LookingFor(BLabels(labels[o])[0]))
        && LookingFor(BLabels(labels[o])[0]) in labels[k]
  {
    OwnerFacts(labels, k);
  }

  /** The order of the checks: a continuation wins over a new `B-` tag, an
      entity with neither closes the open one, and a stray `I-` entity with
      nothing open is listed on its own. */
  lemma MergeRules(labels: seq<seq<string>>, k: nat)
    requires k < |labels|
    ensures var st := StateAfter(labels, k);
      st.Open? && st.lookingFor in labels[k] ==> Absorbed(labels, k) && StateAfter(labels, k + 1) == st
    ensures var st := StateAfter(labels, k);
      st.Open? && st.lookingFor !in labels[k] && |BLabels(labels[k])| == 0 ==>
        !Absorbed(labels, k) && StateAfter(labels, k + 1) == Closed
    ensures StateAfter(labels, k).Closed? ==> !Absorbed(labels, k)
    ensures !Absorbed(labels, k) && |BLabels(labels[k])| > 0 ==>
      StateAfter(labels, k + 1) == Open(k, LookingFor(BLabels(labels[k])[0]))
  {
  }

  /** The listed indices increase strictly, so each listed entity appears
      once and in input order; an index is listed exactly when it is not absorbed. */
  lemma {:induction false} KeptProps(labels: seq<seq<string>>, n: nat)
    requires n <= |labels|
    ensures forall a, b :: 0 <= a < b < |Kept(labels, n)| ==> Kept(labels, n)[a] < Kept(labels, n)[b]
    ensures forall k :: 0 <= k < n ==> (k in Kept(labels, n) <==> !Absorbed(labels, k))
  {
    if n > 0 {
      KeptProps(labels, n - 1);
    }
  }

  /** Nothing is appended to entity `k` before it is reached. */
  lemma {:induction false} GrownBefore(words: seq<Words>, labels: seq<seq<string>>, k: nat, n: nat)
    requires k < |words| == |labels| && n <= |labels| && n <= k + 1
    ensures Grown(words, labels, k, n) == words[k]
  {
    if n > 0 {
      GrownBefore(words, labels, k, n - 1);
      OwnerFacts(labels, n - 1);
    }
  }

  /** An absorbed entity keeps its own fields: only listed entities grow. */
  lemma {:induction false} AbsorbedUnchanged(words: seq<Words>, labels: seq<seq<string>>, k: nat, n: nat)
    requires k < |words| == |labels| && n <= |labels| && Absorbed(labels, k)
    ensures Grown(words, labels, k, n) == words[k]
  {
    if n > k + 1 {
      AbsorbedUnchanged(words, labels, k, n - 1);
      OwnerFacts(labels, n - 1);
    } else {
      GrownBefore(words, labels, k, n);
    }
  }

  function WordsOf(e: EntityMorphed): Words
    reads e
  {
    Words(e.text, e.stem, e.lemmaText)
  }

  function WordsSeq(ents: seq<EntityMorphed>): (r: seq<Words>)
    reads ents
    ensures |r| == |ents| && forall k :: 0 <= k < |ents| ==> r[k] == WordsOf(ents[k])
  {
    seq(|ents|, k requires 0 <= k < |ents| reads ents => WordsOf(ents[k]))
  }

  function PosSeq(ents: seq<EntityMorphed>): (r: seq<string>)
    reads ents
    ensures |r| == |ents| && forall k :: 0 <= k < |ents| ==> r[k] == ents[k].pos
  {
    seq(|ents|, k requires 0 <= k < |ents| reads ents => ents[k].pos)
  }

  /** Entity `e` has tags `ls`, part of speech `p` and words `w`. */
  predicate Holds(e: EntityMorphed, ls: seq<string>, p: string, w: Words)
    reads e
  {
    e.labels == ls && e.pos == p && WordsOf(e) == w
  }

  function LabelsOf(ents: seq<EntityMorphed>): (r: seq<seq<string>>)
    reads ents
    ensures |r| == |ents| && forall k :: 0 <= k < |ents| ==> r[k] == ents[k].labels
  {
    seq(|ents|, k requires 0 <= k < |ents| reads ents => ents[k].labels)
  }

  // ---------------------------------------------------------------------
  // merge_BI_entities: the in-place merge

  /** Every entity `k` has tags `labels[k]`, part of speech `poss[k]` and words
      `grown[k]`. */
  predicate AllHold(ents: seq<EntityMorphed>, labels: seq<seq<string>>, poss: seq<string>, grown: seq<Words>)
    requires |ents| == |labels| == |poss| == |grown|
    reads ents
  {
    forall k :: 0 <= k < |ents| ==> Holds(ents[k], labels[k], poss[k], grown[k])
  }

  /** The ghost state after `i` entities agrees with the specification. */
  predicate Tracked(labels: seq<seq<string>>, words: seq<Words>, i: nat, st: BIState, kept: seq<nat>, grown: seq<Words>)
    requires i <= |labels| == |words|
  {
    st == StateAfter(labels, i) && kept == Kept(labels, i) && grown == GrownAll(words, labels, i)
  }

  /** `merged` lists the entities at the indices `kept`. */
  predicate Listed(ents: seq<EntityMorphed>, kept: seq<nat>, merged: seq<EntityMorphed>)
  {
    |merged| == |kept| && forall a :: 0 <= a < |merged| ==> kept[a] < |ents| && merged[a] == ents[kept[a]]
  }

  /** `prevEnt` and `lookingFor` represent the state `st`. */
  predicate OpenAt(ents: seq<EntityMorphed>, i: nat, st: BIState, prevEnt: EntityMorphed?, lookingFor: Option<string>)
  {
    && (st.Closed? <==> prevEnt == null)
    && (st.Open? ==> st.owner < i <= |ents| && prevEnt == ents[st.owner] && lookingFor == Some(st.lookingFor))
  }

  /** No entity occurs twice in the list. */
  predicate Distinct(ents: seq<EntityMorphed>)
  {
    forall a, b :: 0 <= a < |ents| && 0 <= b < |ents| && a != b ==> ents[a] != ents[b]
  }

  /** `Distinct`, stated one entity at a time: the same property in a
      recursive form, which the merge loop's proofs unfold one step at a time
      instead of instantiating a quantifier over pairs. */
  predicate Unique(ents: seq<EntityMorphed>)
    decreases |ents|
  {
    ents == [] || (ents[0] !in ents[1..] && Unique(ents[1..]))
  }

  lemma {:induction false} DistinctUnique(ents: seq<EntityMorphed>)
    ensures Distinct(ents) <==> Unique(ents)
    decreases |ents|
  {
    if ents != [] {
      DistinctUnique(ents[1..]);
      if Distinct(ents) {
        forall a, b | 0 <= a < |ents| - 1 && 0 <= b < |ents| - 1 && a != b
          ensures ents[1..][a] != ents[1..][b]
        {
          assert ents[a + 1] != ents[b + 1];
        }
        assert ents[0] !in ents[1..];
      }
      if Unique(ents) {
        forall a, b | 0 <= a < |ents| && 0 <= b < |ents| && a != b
          ensures ents[a] != ents[b]
        {
          if a == 0 {
            assert ents[b] == ents[1..][b - 1];
          } else if b == 0 {
            assert ents[a] == ents[1..][a - 1];
          } else {
            assert ents[a] == ents[1..][a - 1] && ents[b] == ents[1..][b - 1];
          }
        }
      }
    }
  }

  /** `merge_BI_entities(ent_list)`: lists the entities that are not absorbed,
      in order, and appends each absorbed entity's text, stem and lemma (after a
      space) to the entity it is absorbed into. Tags and part of speech stay. */
  method MergeBIEntities(ents: seq<EntityMorphed>) returns (merged: seq<EntityMorphed>)
    requires Distinct(ents)
    modifies ents
    ensures var kept := Kept(old(LabelsOf(ents)), |ents|);
      |merged| == |kept| && forall a :: 0 <= a < |kept| ==> merged[a] == ents[kept[a]]
    ensures forall k :: 0 <= k < |ents| ==> ents[k].labels == old(ents[k].labels) && ents[k].pos == old(ents[k].pos)
    ensures forall k :: 0 <= k < |ents| ==>
      WordsOf(ents[k]) == Grown(old(WordsSeq(ents)), old(LabelsOf(ents)), k, |ents|)
  {
    ghost var labels := LabelsOf(ents);
    ghost var words := WordsSeq(ents);
    ghost var poss := PosSeq(ents);
    ghost var kept, grown;
    DistinctUnique(ents);
    merged, kept, grown := MergeLoop(ents, labels, words, poss);
    GrownEnd(ents, labels, words, poss, grown);
  }

  /** The loop of `merge_BI_entities`, over entities whose tags, words and
      parts of speech were `labels`, `words` and `poss` on entry. */
  method MergeLoop(ents: seq<EntityMorphed>, ghost labels: seq<seq<string>>, ghost words: seq<Words>,
                   ghost poss: seq<string>)
    returns (merged: seq<EntityMorphed>, ghost kept: seq<nat>, ghost grown: seq<Words>)
    requires Unique(ents)
    requires |ents| == |labels| == |words| == |poss|
    requires AllHold(ents, labels, poss, words)
    modifies ents
    ensures kept == Kept(labels, |ents|) && Listed(ents, kept, merged)
    ensures grown == GrownAll(words, labels, |ents|) && |grown| == |ents| && AllHold(ents, labels, poss, grown)
  {
    ghost var st := Closed;
    kept := [];
    grown := words;
    merged := [];
    var prevEnt: EntityMorphed? := null;
    var lookingFor: Option<string> := None;
    GrownStart(words, labels);
    var i := 0;
    while i < |ents|
      invariant i <= |ents| && Tracked(labels, words, i, st, kept, grown) && AllHold(ents, labels, poss, grown)
        && Listed(ents, kept, merged) && OpenAt(ents, i, st, prevEnt, lookingFor)
    {
      prevEnt, lookingFor, merged, st, kept, grown :=
        MergeStep(ents, i, prevEnt, lookingFor, merged, labels, words, poss, st, kept, grown);
      i := i + 1;
    }
  }

  /** One pass of the loop of `merge_BI_entities`, over entity `i`. */
  method MergeStep(ents: seq<EntityMorphed>, i: nat, prevEnt: EntityMorphed?, lookingFor: Option<string>,
                   merged: seq<EntityMorphed>, ghost labels: seq<seq<string>>, ghost words: seq<Words>,
                   ghost poss: seq<string>, ghost st: BIState, ghost kept: seq<nat>, ghost grown: seq<Words>)
    returns (prevEnt': EntityMorphed?, lookingFor': Option<string>, merged': seq<EntityMorphed>,
             ghost st': BIState, ghost kept': seq<nat>, ghost grown': seq<Words>)
    requires Unique(ents)
    requires i < |ents| == |labels| == |words| == |poss|
    requires Tracked(labels, words, i, st, kept, grown) && AllHold(ents, labels, poss, grown)
    requires Listed(ents, kept, merged) && OpenAt(ents, i, st, prevEnt, lookingFor)
    modifies ents
    ensures Tracked(labels, words, i + 1, st', kept', grown') && AllHold(ents, labels, poss, grown')
    ensures Listed(ents, kept', merged') && OpenAt(ents, i + 1, st', prevEnt', lookingFor')
  {
    prevEnt', lookingFor', merged' := prevEnt, lookingFor, merged;
    kept', grown' := kept, grown;
    var ent := ents[i];
    assert Holds(ents[i], labels[i], poss[i], grown[i]);
    var bLabels := BLabels(ent.labels);
    if prevEnt != null && lookingFor.Some? && lookingFor.value in ent.labels {
      // the continuation of the open entity: absorb
      ghost var o := st.owner;
      AbsorbStep(labels, words, i, st, kept, grown);
      AbsorbInto(prevEnt, ent, ents, labels, poss, grown, o, i);
      grown' := grown[o := Join(grown[o], grown[i])];
    } else {
      if |bLabels| > 0 {
        // a new `B-` entity opens
        prevEnt' := ent;
        lookingFor' := Some(LookingFor(bLabels[0]));
      } else if prevEnt != null {
        // neither: the open entity closes
        prevEnt' := null;
        lookingFor' := None;
      }
      KeepStep(ents, labels, words, i, st, kept, grown, merged, prevEnt', lookingFor');
      merged' := merged + [ent];
      kept' := kept + [i];
    }
    st' := Next(st, labels[i], i);
  }

  /** An absorption keeps the state and the listed indices and joins entity
      `i`'s words to the open entity's. */
  lemma AbsorbStep(labels: seq<seq<string>>, words: seq<Words>, i: nat, st: BIState, kept: seq<nat>, grown: seq<Words>)
    requires i < |labels| == |words|
    requires Tracked(labels, words, i, st, kept, grown)
    requires Continues(st, labels[i])
    ensures st.owner < i && grown[i] == words[i] && Next(st, labels[i], i) == st
    ensures Tracked(labels, words, i + 1, Next(st, labels[i], i), kept, grown[st.owner := Join(grown[st.owner], grown[i])])
  {
    StateStep(labels, i);
    GrownBefore(words, labels, i, i);
    GrownAbsorbAll(words, labels, i);
  }

  /** A listed entity is appended to `merged` and becomes the open entity when
      it carries a `B-` tag. */
  lemma KeepStep(ents: seq<EntityMorphed>, labels: seq<seq<string>>, words: seq<Words>, i: nat,
                 st: BIState, kept: seq<nat>, grown: seq<Words>, merged: seq<EntityMorphed>,
                 prevEnt: EntityMorphed?, lookingFor: Option<string>)
    requires i < |ents| == |labels| == |words|
    requires Tracked(labels, words, i, st, kept, grown) && Listed(ents, kept, merged)
    requires !Continues(st, labels[i])
    requires |BLabels(labels[i])| > 0 ==> prevEnt == ents[i] && lookingFor == Some(LookingFor(BLabels(labels[i])[0]))
    requires |BLabels(labels[i])| == 0 ==> prevEnt == null
    ensures Tracked(labels, words, i + 1, Next(st, labels[i], i), kept + [i], grown)
    ensures Listed(ents, kept + [i], merged + [ents[i]])
    ensures OpenAt(ents, i + 1, Next(st, labels[i], i), prevEnt, lookingFor)
  {
    StateStep(labels, i);
    GrownKeepAll(words, labels, i);
  }

  /** The grown words after the last entity are the specification's. */
  lemma GrownEnd(ents: seq<EntityMorphed>, labels: seq<seq<string>>, words: seq<Words>, poss: seq<string>, grown: seq<Words>)
    requires |ents| == |labels| == |words| == |poss|
    requires grown == GrownAll(words, labels, |ents|) && AllHold(ents, labels, poss, grown)
    ensures forall k :: 0 <= k < |ents| ==> ents[k].labels == labels[k] && ents[k].pos == poss[k]
    ensures forall k :: 0 <= k < |ents| ==> WordsOf(ents[k]) == Grown(words, labels, k, |ents|)
  {
  }

  /** The three `+=` statements of an absorption of entity `i` into the
      open entity `prev`, at index `o`: only `prev` changes. */
  method AbsorbInto(prev: EntityMorphed, ent: EntityMorphed, ents: seq<EntityMorphed>,
                    ghost labels: seq<seq<string>>, ghost poss: seq<string>, ghost grown: seq<Words>,
                    ghost o: nat, ghost i: nat)
    requires Unique(ents)
    requires o < i < |ents| == |labels| == |poss| == |grown|
    requires prev == ents[o] && ent == ents[i]
    requires AllHold(ents, labels, poss, grown)
    modifies prev
    ensures AllHold(ents, labels, poss, grown[o := Join(grown[o], grown[i])])
  {
    DistinctUnique(ents);
    assert Holds(ents[i], labels[i], poss[i], grown[i]);
    prev.text := prev.text + (" " + ent.text);
    prev.stem := prev.stem + (" " + ent.stem);
    prev.lemmaText := prev.lemmaText + (" " + ent.lemmaText);
    forall k | 0 <= k < |ents|
      ensures Holds(ents[k], labels[k], poss[k], grown[o := Join(grown[o], grown[i])][k])
    {
      if k != o {
        assert ents[k] != prev;
      }
    }
  }

  /** One step of the state and of the listed indices. */
  lemma StateStep(labels: seq<seq<string>>, i: nat)
    requires i < |labels|
    ensures StateAfter(labels, i + 1) == Next(StateAfter(labels, i), labels[i], i)
    ensures Kept(labels, i + 1) == if Absorbed(labels, i) then Kept(labels, i) else Kept(labels, i) + [i]
  {
  }

  /** Every entity's fields once the first `n` entities are processed. */
  function GrownAll(words: seq<Words>, labels: seq<seq<string>>, n: nat): (r: seq<Words>)
    requires |words| == |labels| && n <= |labels|
    ensures |r| == |words| && forall k :: 0 <= k < |r| ==> r[k] == Grown(words, labels, k, n)
  {
    seq(|words|, k requires 0 <= k < |words| => Grown(words, labels, k, n))
  }

  lemma GrownStart(words: seq<Words>, labels: seq<seq<string>>)
    requires |words| == |labels|
    ensures GrownAll(words, labels, 0) == words
  {
  }

  lemma GrownAbsorbAll(words: seq<Words>, labels: seq<seq<string>>, i: nat)
    requires i < |labels| == |words|
    requires Absorbed(labels, i)
    ensures StateAfter(labels, i).owner < i
    ensures var o := StateAfter(labels, i).owner; var g := GrownAll(words, labels, i);
      GrownAll(words, labels, i + 1) == g[o := Join(g[o], words[i])]
  {
    GrownAbsorb(words, labels, i);
  }

  lemma GrownKeepAll(words: seq<Words>, labels: seq<seq<string>>, i: nat)
    requires i < |labels| == |words|
    requires !Absorbed(labels, i)
    ensures GrownAll(words, labels, i + 1) == GrownAll(words, labels, i)
  {
    forall k | 0 <= k < |words| ensures Grown(words, labels, k, i + 1) == Grown(words, labels, k, i) {
      GrownKeep(words, labels, i, k);
    }
  }

  /** An absorption at `i` joins entity `i`'s words to its owner's; no
      other entity changes. */
  lemma GrownAbsorb(words: seq<Words>, labels: seq<seq<string>>, i: nat)
    requires i < |labels| == |words|
    requires Absorbed(labels, i)
    ensures StateAfter(labels, i).owner < i
    ensures forall k :: 0 <= k < |words| && k != StateAfter(labels, i).owner ==>
      Grown(words, labels, k, i + 1) == Grown(words, labels, k, i)
    ensures var o := StateAfter(labels, i).owner;
      Grown(words, labels, o, i + 1) == Join(Grown(words, labels, o, i), words[i])
  {
    OwnerFacts(labels, i);
  }

  /** A listed entity changes nobody's words. */
  lemma GrownKeep(words: seq<Words>, labels: seq<seq<string>>, i: nat, k: nat)
    requires i < |labels| == |words| && k < |words|
    requires !Absorbed(labels, i)
    ensures Grown(words, labels, k, i + 1) == Grown(words, labels, k, i)
  {
  }

  /** `B-PERS`, `I-PERS`, then an untagged token: the first two become one
      listed entity "Ali Hassan", the third is listed as it is. */
  lemma MergeExample()
    ensures var labels := [["B-PERS"], ["I-PERS"], []];
      && Kept(labels, 3) == [0, 2]
      && var words := [Words("Ali", "Ali", "Ali"), Words("Hassan", "Hassan", "Hassan"), Words("went", "go", "go")];
         Grown(words, labels, 0, 3) == Words("Ali Hassan", "Ali Hassan", "Ali Hassan")
  {
    var labels := [["B-PERS"], ["I-PERS"], []];
    assert IsBLabel("B-PERS");
    assert BLabels(["B-PERS"]) == ["B-PERS"];
    assert LookingFor("B-PERS") == "I-PERS";
    assert StateAfter(labels, 1) == Open(0, "I-PERS");
    assert BLabels(["I-PERS"]) == [] by {
      assert !IsBLabel("I-PERS");
    }
    assert StateAfter(labels, 2) == Open(0, "I-PERS");
  }

  // ---------------------------------------------------------------------
  // check_in_range

  /** Which message `check_in_range` prints. */
  datatype RangeError = FromNegative | ToNegative | FromAfterTo | ToBeyondLength(length: nat)

  /** `check_in_range(s, e, a)`: the first failing check, in the order `s`,
      `e`, `s <= e`, `e < len(a)`, or nothing when all pass. */
  function CheckInRange<T>(s: int, e: int, a: seq<T>): (r: Option<RangeError>)
    ensures r.None? <==> 0 <= s <= e < |a|
    ensures r == Some(FromNegative) <==> s < 0
    ensures r == Some(ToNegative) <==> 0 <= s && e < 0
    ensures r == Some(FromAfterTo) <==> 0 <= s && 0 <= e && s > e
    ensures r.Some? && r.value.ToBeyondLength? <==> 0 <= s <= e && e >= |a|
    ensures r.Some? && r.value.ToBeyondLength? ==> r.value.length == |a|
  {
    if s < 0 then Some(FromNegative)
    else if e < 0 then Some(ToNegative)
    else if s > e then Some(FromAfterTo)
    else if e >= |a| then Some(ToBeyondLength(|a|))
    else None
  }
}
