/** `CodeSwitchingNERMetric.mergeIntervals`: sort `[start, end]` pairs in place
    and coalesce overlapping or touching closed intervals with a stack. */
module Intervals {

  /** A Python `[start, end]` list; both ends are inclusive for coverage. */
  datatype Interval = Interval(start: int, end: int)

  /** Python's ordering of two-element lists: by start, then by end. */
  predicate Le(a: Interval, b: Interval)
  {
    a.start < b.start || (a.start == b.start && a.end <= b.end)
  }

  predicate Sorted(s: seq<Interval>)
  {
    forall i, j :: 0 <= i < j < |s| ==> Le(s[i], s[j])
  }

  /** Each interval starts strictly after its predecessor ends. */
  predicate Separated(s: seq<Interval>)
  {
    forall k :: 0 <= k < |s| - 1 ==> s[k].end < s[k + 1].start
  }

  /** The integer point `x` lies in the closed interval. */
  predicate Contains(iv: Interval, x: int)
  {
    iv.start <= x <= iv.end
  }

  predicate Covers(s: seq<Interval>, x: int)
  {
    exists k :: 0 <= k < |s| && Contains(s[k], x)
  }

  /** The inclusive overlap test `not (e < start or s > end)` used to excuse
      a foreign substring `[s, e]` by an entity. */
  predicate Meets(s: int, e: int, iv: Interval)
  {
    !(e < iv.start || s > iv.end)
  }

  predicate MeetsAny(s: int, e: int, ivs: seq<Interval>)
  {
    exists k :: 0 <= k < |ivs| && Meets(s, e, ivs[k])
  }

  /** The overlap test does not depend on which interval is the query. */
  lemma MeetsSymmetric(s: int, e: int, iv: Interval)
    ensures Meets(s, e, iv) == Meets(iv.start, iv.end, Interval(s, e))
  {
  }

  // ---------------------------------------------------------------------
  // Specification: sorting

  function Insert(x: Interval, s: seq<Interval>): (r: seq<Interval>)
    ensures |r| == |s| + 1
    ensures multiset(r) == multiset(s) + multiset{x}
    ensures forall y :: y in r ==> y == x || y in s
  {
    if s == [] then [x]
    else if Le(x, s[0]) then [x] + s
    else
      assert s == [s[0]] + s[1..];
      [s[0]] + Insert(x, s[1..])
  }

  /** The order `list.sort()` leaves the intervals in. */
  function SortSpec(s: seq<Interval>): (r: seq<Interval>)
    ensures |r| == |s|
    ensures multiset(r) == multiset(s)
  {
    if s == [] then []
    else
      assert s == [s[0]] + s[1..];
      Insert(s[0], SortSpec(s[1..]))
  }

  lemma {:induction false} InsertSorted(x: Interval, s: seq<Interval>)
    requires Sorted(s)
    ensures Sorted(Insert(x, s))
  {
    if s != [] && !Le(x, s[0]) {
      InsertSorted(x, s[1..]);
      var r := Insert(x, s[1..]);
      assert forall y :: y in r ==> Le(s[0], y);
    }
  }

  /** `SortSpec` returns a sorted permutation of its input. */
  lemma {:induction false} SortSpecSorted(s: seq<Interval>)
    ensures Sorted(SortSpec(s))
  {
    if s != [] {
      SortSpecSorted(s[1..]);
      InsertSorted(s[0], SortSpec(s[1..]));
    }
  }

  /** Two sorted permutations of the same multiset are equal (Le is a total
      order, and equal intervals are identical values). */
  lemma {:induction false} SortedUnique(a: seq<Interval>, b: seq<Interval>)
    requires Sorted(a) && Sorted(b) && multiset(a) == multiset(b)
    ensures a == b
    decreases |a|
  {
    assert |a| == |multiset(a)| == |multiset(b)| == |b|;
    if a != [] {
      SortedHeads(a, b);
      SortedTail(a);
      SortedTail(b);
      SortedUnique(a[1..], b[1..]);
      assert a == [a[0]] + a[1..] && b == [b[0]] + b[1..];
    }
  }

  /** Two sorted permutations start alike and continue as permutations. */
  lemma SortedHeads(a: seq<Interval>, b: seq<Interval>)
    requires Sorted(a) && Sorted(b) && multiset(a) == multiset(b) && a != [] && b != []
    ensures a[0] == b[0] && multiset(a[1..]) == multiset(b[1..])
  {
    assert b[0] in multiset(a) && a[0] in multiset(b);
    SortedHeadMin(a, b[0]);
    SortedHeadMin(b, a[0]);
    TailMultiset(a);
    TailMultiset(b);
  }

  lemma TailMultiset(a: seq<Interval>)
    requires a != []
    ensures multiset(a[1..]) == multiset(a) - multiset{a[0]}
  {
    assert a == [a[0]] + a[1..];
  }

  /** The head of a sorted sequence is below every element. */
  lemma SortedHeadMin(a: seq<Interval>, x: Interval)
    requires Sorted(a) && x in a
    ensures Le(a[0], x)
  {
    var i :| 0 <= i < |a| && a[i] == x;
    if i > 0 {
      assert Le(a[0], a[i]);
    }
  }

  lemma SortedTail(a: seq<Interval>)
    requires Sorted(a) && a != []
    ensures Sorted(a[1..])
  {
    var t := a[1..];
    forall i, j | 0 <= i < j < |t|
      ensures Le(t[i], t[j])
    {
      assert t[i] == a[i + 1] && t[j] == a[j + 1];
    }
  }

  // ---------------------------------------------------------------------
  // Specification: the stack scan

  /** One iteration of the loop: extend the top of the stack when the next
      interval starts inside it, otherwise push. */
  function Step(stack: seq<Interval>, iv: Interval): seq<Interval>
  {
    if stack != [] && stack[|stack| - 1].start <= iv.start <= stack[|stack| - 1].end then
      var top := stack[|stack| - 1];
      stack[..|stack| - 1] + [Interval(top.start, if top.end >= iv.end then top.end else iv.end)]
    else
      stack + [iv]
  }

  /** The stack after scanning `s` left to right. */
  function MergeSorted(s: seq<Interval>): seq<Interval>
  {
    if s == [] then [] else Step(MergeSorted(s[..|s| - 1]), s[|s| - 1])
  }

  /** What `mergeIntervals` returns for a list of intervals. */
  function MergeIntervalsSpec(s: seq<Interval>): seq<Interval>
  {
    MergeSorted(SortSpec(s))
  }

  lemma StepCovers(stack: seq<Interval>, iv: Interval, x: int)
    ensures Covers(Step(stack, iv), x) <==> Covers(stack, x) || Contains(iv, x)
  {
    var r := Step(stack, iv);
    if stack != [] && stack[|stack| - 1].start <= iv.start <= stack[|stack| - 1].end {
      var n := |stack| - 1;
      assert forall k :: 0 <= k < n ==> r[k] == stack[k];
      if Covers(stack, x) {
        var k :| 0 <= k < |stack| && Contains(stack[k], x);
        assert Contains(r[k], x);
      }
      if Contains(iv, x) {
        assert Contains(r[n], x);
      }
      if Covers(r, x) {
        var k :| 0 <= k < |r| && Contains(r[k], x);
        if k == n && !Contains(stack[n], x) {
          assert Contains(iv, x);
        }
      }
    } else {
      if Covers(stack, x) {
        var k :| 0 <= k < |stack| && Contains(stack[k], x);
        assert Contains(r[k], x);
      }
      if Contains(iv, x) {
        assert Contains(r[|stack|], x);
      }
    }
  }

  lemma StepMeets(stack: seq<Interval>, iv: Interval, s: int, e: int)
    requires s <= e
    ensures MeetsAny(s, e, Step(stack, iv)) <==> MeetsAny(s, e, stack) || Meets(s, e, iv)
  {
    var r := Step(stack, iv);
    if stack != [] && stack[|stack| - 1].start <= iv.start <= stack[|stack| - 1].end {
      var n := |stack| - 1;
      assert forall k :: 0 <= k < n ==> r[k] == stack[k];
      if MeetsAny(s, e, stack) {
        var k :| 0 <= k < |stack| && Meets(s, e, stack[k]);
        assert Meets(s, e, r[k]);
      }
      if Meets(s, e, iv) {
        assert Meets(s, e, r[n]);
      }
      if MeetsAny(s, e, r) {
        var k :| 0 <= k < |r| && Meets(s, e, r[k]);
        if k == n && !Meets(s, e, stack[n]) {
          assert Meets(s, e, iv);
        }
      }
    } else {
      if MeetsAny(s, e, stack) {
        var k :| 0 <= k < |stack| && Meets(s, e, stack[k]);
        assert Meets(s, e, r[k]);
      }
      if Meets(s, e, iv) {
        assert Meets(s, e, r[|stack|]);
      }
    }
  }

  /** The scan keeps exactly the covered points of its input. */
  lemma {:induction false} MergeSortedCovers(s: seq<Interval>, x: int)
    ensures Covers(MergeSorted(s), x) <==> Covers(s, x)
  {
    if s != [] {
      var init := s[..|s| - 1];
      MergeSortedCovers(init, x);
      StepCovers(MergeSorted(init), s[|s| - 1], x);
      if Covers(init, x) {
        var k :| 0 <= k < |init| && Contains(init[k], x);
        assert Contains(s[k], x);
      }
      if Covers(s, x) {
        var k :| 0 <= k < |s| && Contains(s[k], x);
        if k < |init| {
          assert Contains(init[k], x);
        }
      }
    }
  }

  /** An interval `[s, e]` meets some merged interval iff it meets some input. */
  lemma {:induction false} MergeSortedMeets(src: seq<Interval>, s: int, e: int)
    requires s <= e
    ensures MeetsAny(s, e, MergeSorted(src)) <==> MeetsAny(s, e, src)
  {
    if src != [] {
      var init := src[..|src| - 1];
      MergeSortedMeets(init, s, e);
      StepMeets(MergeSorted(init), src[|src| - 1], s, e);
      if MeetsAny(s, e, init) {
        var k :| 0 <= k < |init| && Meets(s, e, init[k]);
        assert Meets(s, e, src[k]);
      }
      if MeetsAny(s, e, src) {
        var k :| 0 <= k < |src| && Meets(s, e, src[k]);
        if k < |init| {
          assert Meets(s, e, init[k]);
        }
      }
    }
  }

  lemma {:induction false} MergeSortedLength(s: seq<Interval>)
    ensures |MergeSorted(s)| <= |s|
    ensures s != [] ==> MergeSorted(s) != []
  {
    if s != [] {
      MergeSortedLength(s[..|s| - 1]);
    }
  }

  /** On sorted input the top of the stack is no greater than the last
      interval read. */
  lemma {:induction false} MergeSortedTop(s: seq<Interval>)
    requires Sorted(s) && s != []
    ensures MergeSorted(s) != [] && Le(MergeSorted(s)[|MergeSorted(s)| - 1], s[|s| - 1])
  {
    var init := s[..|s| - 1];
    var iv := s[|s| - 1];
    var st := MergeSorted(init);
    assert MergeSorted(s) == Step(st, iv);
    if init != [] {
      SortedInit(s);
      MergeSortedTop(init);
      assert Le(init[|init| - 1], iv);
      LeTrans(st[|st| - 1], init[|init| - 1], iv);
    }
    StepTop(st, iv);
  }

  lemma SortedInit(s: seq<Interval>)
    requires Sorted(s) && s != []
    ensures Sorted(s[..|s| - 1])
  {
    var init := s[..|s| - 1];
    forall i, j | 0 <= i < j < |init|
      ensures Le(init[i], init[j])
    {
      assert init[i] == s[i] && init[j] == s[j];
    }
  }

  lemma LeTrans(a: Interval, b: Interval, c: Interval)
    requires Le(a, b) && Le(b, c)
    ensures Le(a, c)
  {
  }

  /** A step after intervals no greater than `iv` leaves a top no greater than `iv`. */
  lemma StepTop(st: seq<Interval>, iv: Interval)
    requires st == [] || Le(st[|st| - 1], iv)
    ensures Step(st, iv) != [] && Le(Step(st, iv)[|Step(st, iv)| - 1], iv)
  {
  }

  /** On sorted input the stack is sorted and separated. */
  lemma {:induction false} MergeSortedShape(s: seq<Interval>)
    requires Sorted(s)
    ensures Sorted(MergeSorted(s)) && Separated(MergeSorted(s))
  {
    if s != [] {
      var init := s[..|s| - 1];
      var iv := s[|s| - 1];
      assert Sorted(init);
      MergeSortedShape(init);
      var st := MergeSorted(init);
      var r := Step(st, iv);
      if st != [] {
        MergeSortedTop(init);
        var top := st[|st| - 1];
        assert Le(top, iv) by {
          assert Le(init[|init| - 1], iv);
        }
        if top.start <= iv.start <= top.end {
          StepExtendShape(st, iv);
        } else {
          StepPushShape(st, iv);
        }
      }
    }
  }

  lemma StepExtendShape(st: seq<Interval>, iv: Interval)
    requires Sorted(st) && Separated(st) && st != []
    requires st[|st| - 1].start <= iv.start <= st[|st| - 1].end
    ensures Sorted(Step(st, iv)) && Separated(Step(st, iv))
  {
    var n := |st| - 1;
    var top := st[n];
    var nt := Interval(top.start, if top.end >= iv.end then top.end else iv.end);
    var r := Step(st, iv);
    assert r == st[..n] + [nt];
    forall i, j | 0 <= i < j < |r| ensures Le(r[i], r[j]) {
      if j == n {
        assert Le(st[i], top);
      } else {
        assert Le(st[i], st[j]);
      }
    }
    forall k | 0 <= k < |r| - 1 ensures r[k].end < r[k + 1].start {
      assert r[k] == st[k];
      assert r[k + 1].start == st[k + 1].start;
    }
  }

  lemma StepPushShape(st: seq<Interval>, iv: Interval)
    requires Sorted(st) && Separated(st) && st != []
    requires Le(st[|st| - 1], iv)
    requires !(st[|st| - 1].start <= iv.start <= st[|st| - 1].end)
    ensures Sorted(Step(st, iv)) && Separated(Step(st, iv))
  {
    var top := st[|st| - 1];
    var r := Step(st, iv);
    assert r == st + [iv];
    forall i, j | 0 <= i < j < |r| ensures Le(r[i], r[j]) {
      if j == |st| {
        assert Le(st[i], top);
      } else {
        assert Le(st[i], st[j]);
      }
    }
  }

  /** A sorted, separated list is a fixed point of the scan. */
  lemma {:induction false} MergeSortedFixpoint(s: seq<Interval>)
    requires Separated(s)
    ensures MergeSorted(s) == s
  {
    if s != [] {
      var init := s[..|s| - 1];
      assert Separated(init);
      MergeSortedFixpoint(init);
      assert s == init + [s[|s| - 1]];
    }
  }

  // ---------------------------------------------------------------------
  // Properties of mergeIntervals

  /** Output sorted by start (then end), each interval starting strictly after
      its predecessor ends, never longer than the input, empty exactly on
      empty input, and covering the same integer points. */
  lemma MergeIntervalsProps(s: seq<Interval>)
    ensures var m := MergeIntervalsSpec(s);
      && Sorted(m) && Separated(m)
      && |m| <= |s|
      && (m == [] <==> s == [])
      && forall x :: Covers(m, x) <==> Covers(s, x)
  {
    var t := SortSpec(s);
    SortSpecSorted(s);
    MergeSortedShape(t);
    MergeSortedLength(t);
    forall x ensures Covers(MergeSorted(t), x) <==> Covers(s, x) {
      MergeSortedCovers(t, x);
      PermutationCovers(t, s, x);
    }
  }

  /** Merging the output of a merge returns it unchanged. */
  lemma MergeIntervalsIdempotent(s: seq<Interval>)
    ensures MergeIntervalsSpec(MergeIntervalsSpec(s)) == MergeIntervalsSpec(s)
  {
    var m := MergeIntervalsSpec(s);
    MergeIntervalsProps(s);
    SortSpecSorted(m);
    SortedUnique(SortSpec(m), m);
    MergeSortedFixpoint(m);
  }

  /** Merged intervals excuse exactly the intervals the inputs excuse. */
  lemma MergeIntervalsMeets(src: seq<Interval>, s: int, e: int)
    requires s <= e
    ensures MeetsAny(s, e, MergeIntervalsSpec(src)) <==> MeetsAny(s, e, src)
  {
    var t := SortSpec(src);
    SortSpecSorted(src);
    MergeSortedMeets(t, s, e);
    if MeetsAny(s, e, t) {
      var k :| 0 <= k < |t| && Meets(s, e, t[k]);
      assert t[k] in multiset(src);
    }
    if MeetsAny(s, e, src) {
      var k :| 0 <= k < |src| && Meets(s, e, src[k]);
      assert src[k] in multiset(t);
    }
  }

  /** Touching intervals coalesce. */
  lemma MergeTouching()
    ensures MergeIntervalsSpec([Interval(3, 5), Interval(1, 3)]) == [Interval(1, 5)]
  {
    assert SortSpec([Interval(3, 5), Interval(1, 3)]) == [Interval(1, 3), Interval(3, 5)];
    assert [Interval(1, 3), Interval(3, 5)][..1] == [Interval(1, 3)];
  }

  lemma PermutationCovers(a: seq<Interval>, b: seq<Interval>, x: int)
    requires multiset(a) == multiset(b)
    ensures Covers(a, x) <==> Covers(b, x)
  {
    if Covers(a, x) {
      var k :| 0 <= k < |a| && Contains(a[k], x);
      assert a[k] in multiset(b);
    }
    if Covers(b, x) {
      var k :| 0 <= k < |b| && Contains(b[k], x);
      assert b[k] in multiset(a);
    }
  }

  // ---------------------------------------------------------------------
  // Implementation

  method Swap(a: array<Interval>, i: int, j: int)
    requires 0 <= i < a.Length && 0 <= j < a.Length
    modifies a
    ensures a[i] == old(a[j]) && a[j] == old(a[i])
    ensures forall m :: 0 <= m < a.Length && m != i && m != j ==> a[m] == old(a[m])
    ensures multiset(a[..]) == old(multiset(a[..]))
  {
    a[i], a[j] := a[j], a[i];
  }

  /** `intervals.sort()`, as an insertion sort. */
  method SortInPlace(a: array<Interval>)
    modifies a
    ensures Sorted(a[..])
    ensures multiset(a[..]) == old(multiset(a[..]))
  {
    if a.Length == 0 { return; }
    var i := 1;
    while i < a.Length
      invariant 1 <= i <= a.Length
      invariant Sorted(a[..i])
      invariant multiset(a[..]) == old(multiset(a[..]))
    {
      var j := i;
      while j > 0 && !Le(a[j - 1], a[j])
        invariant 0 <= j <= i
        invariant forall p, q :: 0 <= p < q <= i && p != j && q != j ==> Le(a[p], a[q])
        invariant forall q :: j < q <= i ==> Le(a[j], a[q])
        invariant multiset(a[..]) == old(multiset(a[..]))
      {
        Swap(a, j - 1, j);
        j := j - 1;
      }
      i := i + 1;
    }
  }

  /** The next interval starts inside the top of the stack, so the loop widens
      the top instead of pushing. */
  predicate Extends(stack: seq<Interval>, iv: Interval)
  {
    stack != [] && stack[|stack| - 1].start <= iv.start <= stack[|stack| - 1].end
  }

  /** The loop as it runs on list objects: the stack, the positions in the
      list of the objects on the stack, and the list itself, into which
      widening the top writes. */
  datatype ObjectScan = ObjectScan(stack: seq<Interval>, heads: seq<nat>, list: seq<Interval>)

  predicate WellFormed(r: ObjectScan)
  {
    && |r.heads| == |r.stack|
    && (forall g :: 0 <= g < |r.heads| ==> r.heads[g] < |r.list|)
    && (forall g :: 0 <= g < |r.heads| - 1 ==> r.heads[g] < r.heads[|r.heads| - 1])
  }

  /** One iteration on list objects, for the interval `iv` at position `pos`. */
  function ScanNext(r: ObjectScan, iv: Interval, pos: nat): (r': ObjectScan)
    requires WellFormed(r) && pos == |r.list|
    ensures WellFormed(r') && |r'.list| == pos + 1 && r'.stack != []
    ensures r'.stack == Step(r.stack, iv)
  {
    if Extends(r.stack, iv) then
      var n := |r.stack|;
      var top := r.stack[n - 1];
      var m := Interval(top.start, if top.end >= iv.end then top.end else iv.end);
      ObjectScan(r.stack[..n - 1] + [m], r.heads, r.list[r.heads[n - 1] := m] + [iv])
    else
      ObjectScan(r.stack + [iv], r.heads + [pos], r.list + [iv])
  }

  /** The loop over the whole list `s`. */
  function ScanObjects(s: seq<Interval>): (r: ObjectScan)
    ensures WellFormed(r) && |r.list| == |s|
    ensures s != [] ==> r.stack != []
  {
    if s == [] then ObjectScan([], [], [])
    else ScanNext(ScanObjects(s[..|s| - 1]), s[|s| - 1], |s| - 1)
  }

  /** The stack the loop builds on objects is the value-level `MergeSorted`. */
  lemma {:induction false} ScanObjectsStack(s: seq<Interval>)
    ensures ScanObjects(s).stack == MergeSorted(s)
  {
    if s != [] {
      ScanObjectsStack(s[..|s| - 1]);
    }
  }

  /** Each head position of `w` holds its stack entry and every other
      position of `w` keeps the interval of `s`. */
  predicate Placed(h: seq<nat>, w: seq<Interval>, st: seq<Interval>, s: seq<Interval>)
  {
    && |h| == |st| && |w| == |s|
    && (forall g :: 0 <= g < |h| ==> h[g] < |w| && w[h[g]] == st[g])
    && (forall k :: 0 <= k < |s| && k !in h ==> w[k] == s[k])
  }

  /** After the loop, each head position of the list holds its merged stack
      entry and every other position keeps its interval. */
  lemma {:induction false} ScanObjectsPlaced(s: seq<Interval>)
    ensures var r := ScanObjects(s); Placed(r.heads, r.list, r.stack, s)
  {
    if s != [] {
      var init := s[..|s| - 1];
      ScanObjectsPlaced(init);
      var r := ScanObjects(init);
      var r' := ScanObjects(s);
      if Extends(r.stack, s[|s| - 1]) {
        PlacedExtend(r.heads, r.list, r.stack, s, r'.stack[|r.stack| - 1], r'.list, r'.stack);
      } else {
        PlacedPush(r.heads, r.list, r.stack, s, r'.heads, r'.list, r'.stack);
      }
    }
  }

  lemma PlacedExtend(h: seq<nat>, w: seq<Interval>, st: seq<Interval>, s: seq<Interval>, m: Interval,
                      w2: seq<Interval>, st2: seq<Interval>)
    requires s != [] && Placed(h, w, st, s[..|s| - 1]) && st != []
    requires forall g :: 0 <= g < |h| - 1 ==> h[g] < h[|h| - 1]
    requires w2 == w[h[|h| - 1] := m] + [s[|s| - 1]] && st2 == st[..|st| - 1] + [m]
    ensures Placed(h, w2, st2, s)
  {
    var n := |h|;
    var init := s[..|s| - 1];
    forall g | 0 <= g < n ensures h[g] < |w2| && w2[h[g]] == st2[g] {
      if g < n - 1 {
        assert h[g] < h[n - 1];
      }
    }
    forall k | 0 <= k < |s| && k !in h ensures w2[k] == s[k] {
      if k < |init| {
        assert w[k] == init[k];
      }
    }
  }

  lemma PlacedPush(h: seq<nat>, w: seq<Interval>, st: seq<Interval>, s: seq<Interval>,
                   h2: seq<nat>, w2: seq<Interval>, st2: seq<Interval>)
    requires s != [] && Placed(h, w, st, s[..|s| - 1])
    requires h2 == h + [|s| - 1] && w2 == w + [s[|s| - 1]] && st2 == st + [s[|s| - 1]]
    ensures Placed(h2, w2, st2, s)
  {
    var init := s[..|s| - 1];
    forall k | 0 <= k < |s| && k !in h2 ensures w2[k] == s[k] {
      assert k !in h;
      assert w[k] == init[k];
    }
  }

  /** The caller's list after `mergeIntervals`: sorted, with each merged
      interval written into the list object that started its group, and
      every other entry as sorting left it. */
  lemma MergeIntervalsList(s: seq<Interval>)
    ensures var r, m := ScanObjects(SortSpec(s)), MergeIntervalsSpec(s);
      && |r.list| == |s| && |r.heads| == |m|
      && (forall g :: 0 <= g < |m| ==> r.heads[g] < |s| && r.list[r.heads[g]] == m[g])
      && (forall k :: 0 <= k < |s| && k !in r.heads ==> r.list[k] == SortSpec(s)[k])
  {
    ScanObjectsPlaced(SortSpec(s));
    ScanObjectsStack(SortSpec(s));
  }

  /** `mergeIntervals(intervals)`. The list is sorted in place; the top of the
      stack is the very list object stored in `intervals`, so widening its end
      also writes into the caller's list, which ends up as the loop's list. */
  method MergeIntervals(a: array<Interval>) returns (stack: seq<Interval>)
    modifies a
    ensures stack == MergeIntervalsSpec(old(a[..]))
    ensures a[..] == ScanObjects(SortSpec(old(a[..]))).list
  {
    if a.Length == 0 {
      return [];
    }
    ghost var input := a[..];
    SortInPlace(a);
    SortSpecSorted(input);
    SortedUnique(a[..], SortSpec(input));
    stack := ScanSorted(a);
  }

  /** The loop of `mergeIntervals` over the sorted list. */
  method ScanSorted(a: array<Interval>) returns (stack: seq<Interval>)
    requires a.Length > 0
    modifies a
    ensures stack == MergeSorted(old(a[..]))
    ensures a[..] == ScanObjects(old(a[..])).list
  {
    ghost var sorted := a[..];
    stack := [a[0]];
    var top: nat := 0;
    LoopStart(sorted);
    var i := 1;
    while i < a.Length
      invariant 1 <= i <= a.Length == |sorted|
      invariant LoopState(sorted, i, a[..], top, stack)
    {
      top, stack := ScanStep(a, sorted, i, top, stack);
      i := i + 1;
    }
    LoopEnd(sorted, a[..], top, stack);
    ScanObjectsStack(sorted);
  }

  /** After `i` intervals of `sorted`, the list is `w`, the stack is `stack`
      and its top is the list object at `top`. */
  predicate LoopState(sorted: seq<Interval>, i: nat, w: seq<Interval>, top: nat, stack: seq<Interval>)
  {
    && 0 < i <= |sorted| == |w|
    && var r := ScanObjects(sorted[..i]);
    && stack == r.stack && top == r.heads[|r.heads| - 1]
    && w[..i] == r.list && w[i..] == sorted[i..]
  }

  lemma LoopStart(sorted: seq<Interval>)
    requires sorted != []
    ensures LoopState(sorted, 1, sorted, 0, [sorted[0]])
  {
    assert sorted[..1][..0] == [];
  }

  lemma LoopEnd(sorted: seq<Interval>, w: seq<Interval>, top: nat, stack: seq<Interval>)
    requires LoopState(sorted, |sorted|, w, top, stack)
    ensures stack == ScanObjects(sorted).stack && w == ScanObjects(sorted).list
  {
    assert sorted[..|sorted|] == sorted;
    assert w[..|sorted|] == w;
  }

  /** One pass of the loop: widen the top of the stack, which is the list
      object `a[top]`, or push `a[i]`. */
  method ScanStep(a: array<Interval>, ghost sorted: seq<Interval>, i: nat, top0: nat, stack0: seq<Interval>)
    returns (top: nat, stack: seq<Interval>)
    requires i < a.Length
    requires LoopState(sorted, i, a[..], top0, stack0)
    modifies a
    ensures LoopState(sorted, i + 1, a[..], top, stack)
  {
    ghost var before := a[..];
    TopPlaced(sorted, i, before, top0, stack0);
    top, stack := top0, stack0;
    var iv := a[i];
    if a[top].start <= iv.start <= a[top].end {
      a[top] := Interval(a[top].start, if a[top].end >= iv.end then a[top].end else iv.end);
      stack := stack[..|stack| - 1] + [a[top]];
      assert a[..] == before[top0 := a[top0]];
      ExtendState(sorted, i, before, top0, stack0, a[top0]);
    } else {
      stack := stack + [iv];
      top := i;
      PushState(sorted, i, before, top0, stack0);
    }
  }

  /** The top of the stack is the list object at `top`, and the next interval
      is still unchanged in the list. */
  lemma TopPlaced(sorted: seq<Interval>, i: nat, w: seq<Interval>, top: nat, stack: seq<Interval>)
    requires i < |sorted| && LoopState(sorted, i, w, top, stack)
    ensures top < i && w[top] == stack[|stack| - 1] && w[i] == sorted[i]
  {
    ScanObjectsPlaced(sorted[..i]);
    assert w[top] == w[..i][top];
    assert w[i] == w[i..][0];
  }

  /** The loop's state after `i + 1` intervals is one `ScanNext` further. */
  lemma ScanObjectsSnoc(s: seq<Interval>, i: nat)
    requires i < |s|
    ensures ScanObjects(s[..i + 1]) == ScanNext(ScanObjects(s[..i]), s[i], i)
  {
    assert s[..i + 1][..i] == s[..i];
  }

  /** Widening the top at `top` takes the state to one more interval. */
  lemma ExtendState(sorted: seq<Interval>, i: nat, w: seq<Interval>, top: nat, stack: seq<Interval>, x: Interval)
    requires i < |sorted| && LoopState(sorted, i, w, top, stack)
    requires Extends(stack, sorted[i]) && x == Step(stack, sorted[i])[|stack| - 1]
    ensures LoopState(sorted, i + 1, w[top := x], top, stack[..|stack| - 1] + [x])
  {
    ScanObjectsSnoc(sorted, i);
    TopPlaced(sorted, i, w, top, stack);
    UpdatePrefix(w, top, x, i);
    assert w[i + 1..] == w[i..][1..] && sorted[i + 1..] == sorted[i..][1..];
  }

  /** Pushing `sorted[i]` takes the state to one more interval. */
  lemma PushState(sorted: seq<Interval>, i: nat, w: seq<Interval>, top: nat, stack: seq<Interval>)
    requires i < |sorted| && LoopState(sorted, i, w, top, stack)
    requires !Extends(stack, sorted[i])
    ensures LoopState(sorted, i + 1, w, i, stack + [sorted[i]])
  {
    var r := ScanObjects(sorted[..i]);
    ScanObjectsSnoc(sorted, i);
    TopPlaced(sorted, i, w, top, stack);
    PushFacts(sorted, i, w, r, ScanObjects(sorted[..i + 1]));
  }

  lemma PushFacts(sorted: seq<Interval>, i: nat, w: seq<Interval>, r: ObjectScan, r': ObjectScan)
    requires i < |sorted| == |w| && w[..i] == r.list && w[i..] == sorted[i..]
    requires r' == ObjectScan(r.stack + [sorted[i]], r.heads + [i], r.list + [sorted[i]])
    ensures w[..i + 1] == r'.list && w[i + 1..] == sorted[i + 1..] && r'.heads[|r'.heads| - 1] == i
  {
    assert w[i] == w[i..][0];
    assert w[..i + 1] == w[..i] + [w[i]];
    assert w[i + 1..] == w[i..][1..] && sorted[i + 1..] == sorted[i..][1..];
  }

  lemma UpdatePrefix(b: seq<Interval>, j: nat, x: Interval, n: nat)
    requires j < n < |b|
    ensures b[j := x][..n + 1] == b[..n][j := x] + [b[n]]
    ensures b[j := x][n + 1..] == b[n + 1..]
  {
  }
}
