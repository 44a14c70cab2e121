/** Small value types and Python list/str semantics shared by the model. */
module Common {

  /** Python's `None` or a present value. */
  datatype Option<T> = None | Some(value: T)

  /** A call that either returns a value or raises Python's IndexError (the only
      exception the modelled code can raise on its own). */
  datatype Result<T> = Ok(value: T) | IndexError

  /** `sum(list_of_lists, [])`: the lists concatenated in order. */
  function Flatten<T>(xss: seq<seq<T>>): seq<T>
  {
    if |xss| == 0 then [] else Flatten(xss[..|xss| - 1]) + xss[|xss| - 1]
  }

  /** An element is in the flattened list iff it is in one of the lists. */
  lemma {:induction false} FlattenMembership<T>(xss: seq<seq<T>>, x: T)
    ensures x in Flatten(xss) <==> exists i :: 0 <= i < |xss| && x in xss[i]
  {
    if |xss| > 0 {
      var init := xss[..|xss| - 1];
      FlattenMembership(init, x);
      assert forall i :: 0 <= i < |init| ==> init[i] == xss[i];
      if x in xss[|xss| - 1] {
        assert x in Flatten(xss);
      }
    }
  }

  /** `a` is obtained from `b` by deleting elements (order kept). */
  predicate IsSubseq<T(==)>(a: seq<T>, b: seq<T>)
    decreases |b|
  {
    a == [] ||
    (b != [] && ((a[0] == b[0] && IsSubseq(a[1..], b[1..])) || IsSubseq(a, b[1..])))
  }

  lemma {:induction false} SubseqLength<T>(a: seq<T>, b: seq<T>)
    requires IsSubseq(a, b)
    ensures |a| <= |b|
    ensures forall x :: x in a ==> x in b
    decreases |b|
  {
    if a != [] {
      if a[0] == b[0] && IsSubseq(a[1..], b[1..]) {
        SubseqLength(a[1..], b[1..]);
        forall x | x in a ensures x in b {
          if x != a[0] {
            assert x in a[1..];
          }
        }
      } else {
        SubseqLength(a, b[1..]);
      }
    }
  }

  lemma {:induction false} SubseqSkipPrefix<T>(x: seq<T>, b: seq<T>, y: seq<T>)
    requires IsSubseq(x, y)
    ensures IsSubseq(x, b + y)
    decreases |b|
  {
    if b != [] {
      SubseqSkipPrefix(x, b[1..], y);
      assert (b + y)[1..] == b[1..] + y;
      assert b + y != [] && IsSubseq(x, (b + y)[1..]);
    } else {
      assert b + y == y;
    }
  }

  lemma {:induction false} SubseqAppend<T>(a: seq<T>, b: seq<T>, x: seq<T>, y: seq<T>)
    requires IsSubseq(a, b) && IsSubseq(x, y)
    ensures IsSubseq(a + x, b + y)
    decreases |b| + |y|
  {
    if a == [] {
      assert a + x == x;
      SubseqSkipPrefix(x, b, y);
    } else {
      assert (a + x)[0] == a[0];
      assert (a + x)[1..] == a[1..] + x;
      assert (b + y)[0] == b[0];
      assert (b + y)[1..] == b[1..] + y;
      if a[0] == b[0] && IsSubseq(a[1..], b[1..]) {
        SubseqAppend(a[1..], b[1..], x, y);
      } else {
        SubseqAppend(a, b[1..], x, y);
      }
    }
  }

  lemma {:induction false} SubseqOfEmpty<T>(b: seq<T>)
    ensures IsSubseq([], b)
  {
  }

  lemma {:induction false} SubseqRefl<T>(b: seq<T>)
    ensures IsSubseq(b, b)
    decreases |b|
  {
    if b != [] {
      SubseqRefl(b[1..]);
    }
  }

  /** Python's `s[i:j]` for a step of 1: negative indices count from the end,
      both bounds are clamped to `[0, len(s)]`, and a reversed range is empty. */
  function PySlice<T>(s: seq<T>, i: int, j: int): (r: seq<T>)
    ensures |r| <= |s|
    ensures 0 <= i <= j <= |s| ==> r == s[i..j]
    ensures 0 <= j <= i ==> r == []
    ensures exists lo, hi :: 0 <= lo <= hi <= |s| && r == s[lo..hi]
  {
    var lo := PyIndex(i, |s|);
    var hi := PyIndex(j, |s|);
    if lo < hi then s[lo..hi] else s[lo..lo]
  }

  /** Normalisation of one slice bound against a length `n`. */
  function PyIndex(i: int, n: nat): (k: nat)
    ensures k <= n
    ensures 0 <= i <= n ==> k == i
    ensures -(n as int) <= i < 0 ==> k == i + n
  {
    if i < 0 then (if i + n < 0 then 0 else i + n)
    else if i > n then n
    else i
  }
}
