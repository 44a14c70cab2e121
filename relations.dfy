/** `arabiner/utils/ent_morph.py`, `add_edge` and `make_all_relations`: the
    relation graph built from the merged, morphologically analysed entities of
    each sentence. Entities are deep-copied into the scanner's slots, so the
    scanner works on value snapshots of the objects it reads. */
module EntRelations {
  import opened Common
  import opened EntMorph

  /** The fields of an `EntityMorphed` that the relation scan reads. */
  datatype Morph = Morph(stem: string, labels: seq<string>, pos: string)

  /** `deepcopy(element)`, restricted to the fields the scan reads. */
  function MorphOf(e: EntityMorphed): (m: Morph)
    reads e
    ensures m.stem == e.stem && m.labels == e.labels && m.pos == e.pos
  {
    Morph(e.stem, e.labels, e.pos)
  }

  /** Snapshots of one sentence's entities, in order. */
  function Morphs(es: seq<EntityMorphed>): (r: seq<Morph>)
    reads es
    ensures |r| == |es| && forall j :: 0 <= j < |es| ==> r[j] == MorphOf(es[j])
  {
    seq(|es|, j requires 0 <= j < |es| reads es => MorphOf(es[j]))
  }

  /** Snapshots of every sentence's entities. */
  function MorphLists(full: seq<seq<EntityMorphed>>): (r: seq<seq<Morph>>)
    reads set k, j | 0 <= k < |full| && 0 <= j < |full[k]| :: full[k][j]
    ensures |r| == |full| && forall k :: 0 <= k < |full| ==> r[k] == Morphs(full[k])
  {
    seq(|full|, k requires 0 <= k < |full| reads if 0 <= k < |full| then full[k] else [] => Morphs(full[k]))
  }

  /** One row of `all_relations`: source stem, destination stem, relation,
      source tag, destination tag and the predicted sentiment. */
  datatype Edge = Edge(source: string, target: string, relation: string,
                       sourceLabel: string, targetLabel: string, sentiment: string)

  /** An entity that can be a node: not a verb and carrying at least one tag. */
  predicate IsEndpoint(m: Morph)
  {
    m.pos != "verb" && |m.labels| > 0
  }

  /** `add_edge`: the relation is `co` without a verb and the verb's stem
      otherwise, suffixed `_2_` for an edge closed by a later verb or by the
      end of the sentence; the sentiment is asked of the analyser (here the
      parameter `predict`) only when there is a verb. The tags are the first
      of each node's tags, which the source reads unguarded. */
  function AddEdge(predict: string -> string, src: Morph, dst: Morph, rel: Option<Morph>,
                   together: bool): (r: Edge)
    requires |src.labels| > 0 && |dst.labels| > 0
    ensures r.source == src.stem && r.target == dst.stem
    ensures r.sourceLabel == src.labels[0] && r.targetLabel == dst.labels[0]
    ensures rel.None? ==> r.sentiment == "" && r.relation == (if together then "co_2_" else "co")
    ensures rel.Some? ==> r.sentiment == predict(src.stem + " " + rel.value.stem + " " + dst.stem)
    ensures rel.Some? ==> r.relation == (if together then rel.value.stem + "_2_" else rel.value.stem)
  {
    var relation := if rel.None? then "co" else rel.value.stem;
    var sentiment := if rel.Some? then predict(src.stem + " " + rel.value.stem + " " + dst.stem) else "";
    Edge(src.stem, dst.stem, if together then relation + "_2_" else relation,
         src.labels[0], dst.labels[0], sentiment)
  }

  /** The scanner's `sourceNode`, `destinationNode` and `relationNode`. */
  datatype Slots = Slots(src: Option<Morph>, dst: Option<Morph>, rel: Option<Morph>)

  /** A node slot holds, when full, an entity with a tag. */
  predicate Tagged(o: Option<Morph>)
  {
    o.Some? ==> |o.value.labels| > 0
  }

  predicate SlotsOk(s: Slots)
  {
    Tagged(s.src) && Tagged(s.dst)
  }

  /** The slots after a scan and the edges it appended so far. */
  datatype Scanned = Scanned(slots: Slots, edges: seq<Edge>)

  /** One pass of the inner loop of `make_all_relations` on entity `m`. */
  function Step(predict: string -> string, s: Slots, m: Morph): (r: Scanned)
    requires SlotsOk(s)
    ensures SlotsOk(r.slots) && |r.edges| <= 1
  {
    if m.pos == "verb" then
      if s.src.Some? && s.dst.Some? then
        Scanned(Slots(s.dst, None, Some(m)), [AddEdge(predict, s.src.value, s.dst.value, Some(m), true)])
      else
        Scanned(Slots(s.src, s.dst, Some(m)), [])
    else if |m.labels| == 0 then
      Scanned(s, [])
    else if s.src.None? then
      Scanned(Slots(Some(m), s.dst, s.rel), [])
    else if s.rel.Some? then
      Scanned(Slots(Some(m), None, None), [AddEdge(predict, s.src.value, m, s.rel, false)])
    else
      Scanned(Slots(s.src, Some(m), s.rel), [])
  }

  /** The inner loop run over the first `n` entities of a sentence. */
  function Scan(predict: string -> string, es: seq<Morph>, n: nat): (r: Scanned)
    requires n <= |es|
    ensures SlotsOk(r.slots)
  {
    if n == 0 then Scanned(Slots(None, None, None), [])
    else
      var p := Scan(predict, es, n - 1);
      var q := Step(predict, p.slots, es[n - 1]);
      Scanned(q.slots, p.edges + q.edges)
  }

  /** The edge added after a sentence when both node slots are still full. */
  function Final(predict: string -> string, s: Slots): (r: seq<Edge>)
    requires SlotsOk(s)
    ensures |r| <= 1
  {
    if s.src.Some? && s.dst.Some? then [AddEdge(predict, s.src.value, s.dst.value, s.rel, true)] else []
  }

  /** The edges one sentence contributes. */
  function ListRelations(predict: string -> string, es: seq<Morph>): seq<Edge>
  {
    var p := Scan(predict, es, |es|);
    p.edges + Final(predict, p.slots)
  }

  /** Each sentence's edges, in sentence order. */
  function PerSentence(predict: string -> string, lists: seq<seq<Morph>>): (r: seq<seq<Edge>>)
    ensures |r| == |lists| && forall k :: 0 <= k < |lists| ==> r[k] == ListRelations(predict, lists[k])
  {
    seq(|lists|, k requires 0 <= k < |lists| => ListRelations(predict, lists[k]))
  }

  /** `make_all_relations`: the sentences' edges, sentence after sentence. */
  function AllRelations(predict: string -> string, lists: seq<seq<Morph>>): seq<Edge>
  {
    Flatten(PerSentence(predict, lists))
  }

  /** Adding one sentence appends its edges. */
  lemma AllRelationsSnoc(predict: string -> string, lists: seq<seq<Morph>>, k: nat)
    requires k < |lists|
    ensures AllRelations(predict, lists[..k + 1]) ==
      AllRelations(predict, lists[..k]) + ListRelations(predict, lists[k])
  {
    var xss := PerSentence(predict, lists[..k + 1]);
    assert xss[..k] == PerSentence(predict, lists[..k]);
  }

  /** Number of possible nodes among the first `n` entities. */
  function Endpoints(es: seq<Morph>, n: nat): nat
    requires n <= |es|
  {
    if n == 0 then 0 else Endpoints(es, n - 1) + (if IsEndpoint(es[n - 1]) then 1 else 0)
  }

  function Present(o: Option<Morph>): nat
  {
    if o.Some? then 1 else 0
  }

  /** The scanner's slots fill in order: no destination without a source,
      no pending verb beside a destination, and every edge or filled slot
      has used up a node of its own. */
  lemma {:induction false} ScanShape(predict: string -> string, es: seq<Morph>, n: nat)
    requires n <= |es|
    ensures var p := Scan(predict, es, n);
      && (p.slots.src.None? ==> p.slots.dst.None? && p.edges == [])
      && (p.slots.dst.Some? ==> p.slots.rel.None?)
      && |p.edges| + Present(p.slots.src) + Present(p.slots.dst) <= Endpoints(es, n)
  {
    if n > 0 {
      ScanShape(predict, es, n - 1);
      var p := Scan(predict, es, n - 1);
      StepShape(predict, p.slots, es[n - 1]);
    }
  }

  /** One step keeps the slots in order and spends a node per edge or slot. */
  lemma StepShape(predict: string -> string, s: Slots, m: Morph)
    requires SlotsOk(s) && (s.src.None? ==> s.dst.None?) && (s.dst.Some? ==> s.rel.None?)
    ensures var q := Step(predict, s, m);
      && (q.slots.src.None? ==> q.slots.dst.None? && q.edges == [])
      && (q.slots.dst.Some? ==> q.slots.rel.None?)
      && |q.edges| + Present(q.slots.src) + Present(q.slots.dst)
           <= Present(s.src) + Present(s.dst) + (if IsEndpoint(m) then 1 else 0)
  {
  }

  /** A sentence with no node yields no edge, and one with `c` nodes yields
      fewer than `c` edges. */
  lemma ListRelationsCount(predict: string -> string, es: seq<Morph>)
    ensures Endpoints(es, |es|) == 0 ==> ListRelations(predict, es) == []
    ensures Endpoints(es, |es|) > 0 ==> |ListRelations(predict, es)| < Endpoints(es, |es|)
  {
    ScanShape(predict, es, |es|);
  }

  /** The edge that closes a sentence never carries a verb: it is a `co_2_`
      edge and the sentiment analyser is not consulted for it. */
  lemma FinalEdgeIsCo(predict: string -> string, es: seq<Morph>)
    ensures var p := Scan(predict, es, |es|);
      forall e :: e in Final(predict, p.slots) ==> e.relation == "co_2_" && e.sentiment == ""
  {
    ScanShape(predict, es, |es|);
  }

  /** `a` is a node of sentence `es`. */
  predicate Node(es: seq<Morph>, a: Morph)
  {
    a in es && IsEndpoint(a)
  }

  /** `rel`, when present, is a verb of sentence `es`. */
  predicate VerbIn(es: seq<Morph>, rel: Option<Morph>)
  {
    rel.Some? ==> rel.value in es && rel.value.pos == "verb"
  }

  /** `e` is what `add_edge` builds from two nodes and possibly a verb of `es`. */
  ghost predicate EdgeFrom(predict: string -> string, es: seq<Morph>, e: Edge)
  {
    exists a, b, rel, together ::
      Node(es, a) && Node(es, b) && VerbIn(es, rel) && e == AddEdge(predict, a, b, rel, together)
  }

  lemma EdgeFromIntro(predict: string -> string, es: seq<Morph>, a: Morph, b: Morph,
                      rel: Option<Morph>, together: bool)
    requires Node(es, a) && Node(es, b) && VerbIn(es, rel)
    ensures EdgeFrom(predict, es, AddEdge(predict, a, b, rel, together))
  {
  }

  /** Every slot holds an entity of the sentence of the right kind, and every
      edge appended so far joins two nodes of that sentence. */
  lemma {:induction false} ScanFrom(predict: string -> string, es: seq<Morph>, n: nat)
    requires n <= |es|
    ensures SlotsFrom(es, Scan(predict, es, n).slots)
    ensures forall e :: e in Scan(predict, es, n).edges ==> EdgeFrom(predict, es, e)
  {
    if n > 0 {
      ScanFrom(predict, es, n - 1);
      var p := Scan(predict, es, n - 1);
      var q := Step(predict, p.slots, es[n - 1]);
      StepFrom(predict, es, p.slots, es[n - 1]);
      assert Scan(predict, es, n).edges == p.edges + q.edges;
    }
  }

  /** Every filled slot holds an entity of the sentence of the right kind. */
  predicate SlotsFrom(es: seq<Morph>, s: Slots)
  {
    && (s.src.Some? ==> Node(es, s.src.value))
    && (s.dst.Some? ==> Node(es, s.dst.value))
    && VerbIn(es, s.rel)
  }

  lemma StepFrom(predict: string -> string, es: seq<Morph>, s: Slots, m: Morph)
    requires SlotsOk(s) && SlotsFrom(es, s) && m in es
    ensures SlotsFrom(es, Step(predict, s, m).slots)
    ensures forall e :: e in Step(predict, s, m).edges ==> EdgeFrom(predict, es, e)
  {
    if m.pos == "verb" {
      if s.src.Some? && s.dst.Some? {
        EdgeFromIntro(predict, es, s.src.value, s.dst.value, Some(m), true);
      }
    } else if |m.labels| > 0 && s.src.Some? && s.rel.Some? {
      EdgeFromIntro(predict, es, s.src.value, m, s.rel, false);
    }
  }

  /** Every edge of a sentence joins two of its nodes. */
  lemma ListRelationsFrom(predict: string -> string, es: seq<Morph>)
    ensures forall e :: e in ListRelations(predict, es) ==> EdgeFrom(predict, es, e)
  {
    ScanFrom(predict, es, |es|);
    var p := Scan(predict, es, |es|);
    if p.slots.src.Some? && p.slots.dst.Some? {
      EdgeFromIntro(predict, es, p.slots.src.value, p.slots.dst.value, p.slots.rel, true);
    }
  }

  /** An edge is in the result iff one sentence produced it. */
  lemma AllRelationsMembers(predict: string -> string, lists: seq<seq<Morph>>, e: Edge)
    ensures e in AllRelations(predict, lists) <==>
      exists k :: 0 <= k < |lists| && e in ListRelations(predict, lists[k])
  {
    FlattenMembership(PerSentence(predict, lists), e);
  }

  /** No edge joins entities of two different sentences. */
  lemma AllRelationsWithinSentence(predict: string -> string, lists: seq<seq<Morph>>)
    ensures forall e :: e in AllRelations(predict, lists) ==>
      exists k :: 0 <= k < |lists| && EdgeFrom(predict, lists[k], e)
  {
    forall e | e in AllRelations(predict, lists)
      ensures exists k :: 0 <= k < |lists| && EdgeFrom(predict, lists[k], e)
    {
      AllRelationsMembers(predict, lists, e);
      var k :| 0 <= k < |lists| && e in ListRelations(predict, lists[k]);
      ListRelationsFrom(predict, lists[k]);
    }
  }

  function Ali(): Morph { Morph("Ali", ["B-PERS"], "noun_prop") }
  function Visited(): Morph { Morph("zAr", [], "verb") }
  function Paris(): Morph { Morph("bAris", ["B-GPE"], "noun_prop") }

  /** A verb between two nodes relates them, with the analyser's sentiment. */
  lemma ExampleVerbBetween(predict: string -> string)
    ensures ListRelations(predict, [Ali(), Visited(), Paris()]) ==
      [Edge("Ali", "bAris", "zAr", "B-PERS", "B-GPE", predict("Ali zAr bAris"))]
  {
    var es := [Ali(), Visited(), Paris()];
    assert "Ali" + " " + "zAr" + " " + "bAris" == "Ali zAr bAris";
    assert Scan(predict, es, 1).slots == Slots(Some(Ali()), None, None);
    assert Scan(predict, es, 2) == Scanned(Slots(Some(Ali()), None, Some(Visited())), []);
    assert Scan(predict, es, 3) ==
      Scanned(Slots(Some(Paris()), None, None), [AddEdge(predict, Ali(), Paris(), Some(Visited()), false)]);
  }

  /** Two nodes with no verb between them are joined by `co_2_` at the end. */
  lemma ExampleCoTogether(predict: string -> string)
    ensures ListRelations(predict, [Ali(), Paris()]) ==
      [Edge("Ali", "bAris", "co_2_", "B-PERS", "B-GPE", "")]
  {
    var es := [Ali(), Paris()];
    assert Scan(predict, es, 1).slots == Slots(Some(Ali()), None, None);
    assert Scan(predict, es, 2) == Scanned(Slots(Some(Ali()), Some(Paris()), None), []);
  }

  /** A verb after two nodes closes a `_2_` edge named after it. */
  lemma ExampleVerbAfter(predict: string -> string)
    ensures ListRelations(predict, [Ali(), Paris(), Visited()]) ==
      [Edge("Ali", "bAris", "zAr_2_", "B-PERS", "B-GPE", predict("Ali zAr bAris"))]
  {
    var es := [Ali(), Paris(), Visited()];
    assert "Ali" + " " + "zAr" + " " + "bAris" == "Ali zAr bAris";
    assert "zAr" + "_2_" == "zAr_2_";
    assert Scan(predict, es, 1).slots == Slots(Some(Ali()), None, None);
    assert Scan(predict, es, 2) == Scanned(Slots(Some(Ali()), Some(Paris()), None), []);
    assert Scan(predict, es, 3) ==
      Scanned(Slots(Some(Paris()), None, Some(Visited())), [AddEdge(predict, Ali(), Paris(), Some(Visited()), true)]);
  }

  /** `make_all_relations(full_entity_morphed_list, sentiment_analyzer)`. */
  method MakeAllRelations(full: seq<seq<EntityMorphed>>, predict: string -> string)
    returns (all: seq<Edge>)
    ensures all == AllRelations(predict, MorphLists(full))
  {
    ghost var lists := MorphLists(full);
    all := [];
    var k := 0;
    while k < |full|
      invariant k <= |full|
      invariant all == AllRelations(predict, lists[..k])
    {
      all := RelateNext(predict, full, lists, k, all);
      k := k + 1;
    }
    assert lists[..k] == lists;
  }

  /** One pass of the outer loop of `make_all_relations`, over sentence `k`. */
  method RelateNext(predict: string -> string, full: seq<seq<EntityMorphed>>, ghost lists: seq<seq<Morph>>,
                    k: nat, all0: seq<Edge>)
    returns (all: seq<Edge>)
    requires k < |full| == |lists| && lists[k] == Morphs(full[k])
    requires all0 == AllRelations(predict, lists[..k])
    ensures all == AllRelations(predict, lists[..k + 1])
  {
    all := RelateSentence(predict, full[k], all0);
    AllRelationsSnoc(predict, lists, k);
  }

  /** The body of the outer loop of `make_all_relations`: scan one sentence,
      appending its edges to `all_relations`. */
  method RelateSentence(predict: string -> string, es: seq<EntityMorphed>, all0: seq<Edge>)
    returns (all: seq<Edge>)
    ensures all == all0 + ListRelations(predict, Morphs(es))
  {
    ghost var ms := Morphs(es);
    all := all0;
    var src: Option<Morph>, dst: Option<Morph>, rel: Option<Morph> := None, None, None;
    var j := 0;
    while j < |es|
      invariant j <= |es| == |ms|
      invariant Slots(src, dst, rel) == Scan(predict, ms, j).slots
      invariant all == all0 + Scan(predict, ms, j).edges
    {
      src, dst, rel, all := ScanStep(predict, ms, j, MorphOf(es[j]), src, dst, rel, all0, all);
      j := j + 1;
    }
    ghost var p := Scan(predict, ms, |ms|);
    assert Slots(src, dst, rel) == p.slots && all == all0 + p.edges;
    if src.Some? && dst.Some? {
      all := all + [AddEdge(predict, src.value, dst.value, rel, true)];
    }
    assert all == all0 + (p.edges + Final(predict, p.slots));
  }

  /** The body of the inner loop of `make_all_relations` on entity `m`, the
      `j`-th of the sentence: a verb fills the relation slot, an entity without
      tags is skipped, any other entity fills the source or the destination. */
  method ScanStep(predict: string -> string, ghost ms: seq<Morph>, ghost j: nat, m: Morph,
                  src0: Option<Morph>, dst0: Option<Morph>, rel0: Option<Morph>, ghost base: seq<Edge>,
                  all0: seq<Edge>)
    returns (src: Option<Morph>, dst: Option<Morph>, rel: Option<Morph>, all: seq<Edge>)
    requires j < |ms| && m == ms[j]
    requires Slots(src0, dst0, rel0) == Scan(predict, ms, j).slots && all0 == base + Scan(predict, ms, j).edges
    ensures Slots(src, dst, rel) == Scan(predict, ms, j + 1).slots
    ensures all == base + Scan(predict, ms, j + 1).edges
  {
    ghost var q := Step(predict, Slots(src0, dst0, rel0), m);
    src, dst, rel, all := src0, dst0, rel0, all0;
    if m.pos == "verb" {
      rel := Some(m);
      if src.Some? && dst.Some? {
        all := all + [AddEdge(predict, src.value, dst.value, rel, true)];
        src := dst;
        dst := None;
      }
    } else if |m.labels| == 0 {
    } else {
      if src.None? {
        src := Some(m);
      } else {
        dst := Some(m);
        if rel.Some? {
          all := all + [AddEdge(predict, src.value, dst.value, rel, false)];
          src := dst;
          rel := None;
          dst := None;
        }
      }
    }
    assert Slots(src, dst, rel) == q.slots && all == all0 + q.edges;
  }
}
