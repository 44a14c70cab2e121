/** `Preprocessor`: one pass of `re.sub('<[^<]+?>', '', text)`. */
module Preprocessing {
  import opened Common

  /** A substring the pattern `<[^<]+?>` matches: `<`, at least one character
      other than `<`, and the first `>` after that character. */
  predicate IsTag(g: string)
  {
    && |g| >= 3
    && g[0] == '<'
    && g[|g| - 1] == '>'
    && (forall m :: 1 <= m < |g| ==> g[m] != '<')
    && (forall m :: 2 <= m < |g| - 1 ==> g[m] != '>')
  }

  /** The lazy `[^<]+?>` tail from position `k` on: the index of the first `>`
      at or after `k`, unless a `<` or the end of the text comes first. */
  function FindClose(s: string, k: nat): (r: Option<nat>)
    requires k <= |s|
    ensures r.Some? ==> k <= r.value < |s|
    decreases |s| - k
  {
    if k == |s| then None
    else if s[k] == '>' then Some(k)
    else if s[k] == '<' then None
    else FindClose(s, k + 1)
  }

  /** A found `>` is the first `>`, with no `<` before it. */
  lemma {:induction false} FindCloseFound(s: string, k: nat)
    requires k <= |s| && FindClose(s, k).Some?
    ensures s[FindClose(s, k).value] == '>'
    ensures forall m :: k <= m < FindClose(s, k).value ==> s[m] != '<' && s[m] != '>'
    decreases |s| - k
  {
    if s[k] != '>' {
      FindCloseFound(s, k + 1);
    }
  }

  /** When no `>` closes the tail, a `<` comes before every `>`. */
  lemma {:induction false} FindCloseMissing(s: string, k: nat, j: nat)
    requires k <= j < |s| && s[j] == '>' && FindClose(s, k).None?
    ensures exists m :: k <= m < j && s[m] == '<'
    decreases |s| - k
  {
    if s[k] != '<' {
      FindCloseMissing(s, k + 1, j);
    }
  }

  /** The length of the match starting at the `<` that begins `s`, if any. */
  function TagLen(s: string): (r: Option<nat>)
    requires |s| > 0 && s[0] == '<'
    ensures r.Some? ==> 3 <= r.value <= |s|
  {
    if |s| >= 2 && s[1] != '<' then
      match FindClose(s, 2)
      case Some(j) => Some(j + 1)
      case None => None
    else None
  }

  /** The scanner agrees with the pattern: a match of length `n` starts the
      text exactly when its first `n` characters form a tag. */
  lemma TagLenIsTag(s: string, n: nat)
    requires |s| > 0 && s[0] == '<'
    ensures TagLen(s) == Some(n) <==> n <= |s| && IsTag(s[..n])
  {
    if |s| >= 2 && FindClose(s, 2).Some? {
      FindCloseFound(s, 2);
    }
    if n <= |s| && IsTag(s[..n]) {
      var g := s[..n];
      assert forall m :: 0 <= m < n ==> g[m] == s[m];
      assert s[1] != '<' && s[n - 1] == '>';
      if FindClose(s, 2).None? {
        FindCloseMissing(s, 2, n - 1);
      }
    }
  }

  /** `re.sub` scanning the rest of the text `s`: a match at its start is
      deleted, otherwise the first character is kept and the scan moves on. */
  function Strip(s: string): string
    decreases |s|
  {
    if |s| == 0 then ""
    else if s[0] == '<' && TagLen(s).Some? then Strip(s[TagLen(s).value..])
    else [s[0]] + Strip(s[1..])
  }

  /** `Preprocessor.remove_html`. */
  function RemoveHtml(t: string): (r: string)
    ensures |r| <= |t|
  {
    StripDeletes(t);
    SubseqLength(Strip(t), t);
    Strip(t)
  }

  /** `Preprocessor.preprocess`: HTML removal is its only step. */
  function Preprocess(t: string): (r: string)
    ensures |r| <= |t|
    ensures (forall k :: 0 <= k < |t| ==> t[k] != '<') ==> r == t
  {
    RemoveHtmlNoTag(t);
    RemoveHtml(t)
  }

  lemma StripTag(s: string)
    requires |s| > 0 && s[0] == '<' && TagLen(s).Some?
    ensures Strip(s) == Strip(s[TagLen(s).value..])
  {
  }

  lemma StripKeep(s: string)
    requires |s| > 0 && !(s[0] == '<' && TagLen(s).Some?)
    ensures Strip(s) == [s[0]] + Strip(s[1..])
  {
  }

  lemma {:induction false} StripDeletes(s: string)
    ensures IsSubseq(Strip(s), s)
    decreases |s|
  {
    if |s| > 0 {
      if s[0] == '<' && TagLen(s).Some? {
        var n := TagLen(s).value;
        StripTag(s);
        StripDeletes(s[n..]);
        SkipStep(s, n, Strip(s[n..]));
      } else {
        StripKeep(s);
        StripDeletes(s[1..]);
        KeepStep(s, Strip(s[1..]));
      }
    }
  }

  lemma SkipStep(s: string, n: nat, r: string)
    requires n <= |s| && IsSubseq(r, s[n..])
    ensures IsSubseq(r, s)
  {
    assert s == s[..n] + s[n..];
    SubseqSkipPrefix(r, s[..n], s[n..]);
  }

  lemma KeepStep(s: string, r: string)
    requires |s| > 0 && IsSubseq(r, s[1..])
    ensures IsSubseq([s[0]] + r, s)
  {
    assert s == [s[0]] + s[1..];
    SubseqRefl([s[0]]);
    SubseqAppend([s[0]], [s[0]], r, s[1..]);
  }

  /** The output only deletes characters of the input, in order. */
  lemma RemoveHtmlDeletes(t: string)
    ensures IsSubseq(RemoveHtml(t), t)
  {
    StripDeletes(t);
  }

  lemma {:induction false} StripNoTag(s: string)
    requires forall k :: 0 <= k < |s| ==> s[k] != '<'
    ensures Strip(s) == s
    decreases |s|
  {
    if |s| > 0 {
      StripKeep(s);
      StripNoTag(s[1..]);
      assert s == [s[0]] + s[1..];
    }
  }

  /** A text without `<` is returned unchanged. */
  lemma RemoveHtmlNoTag(t: string)
    ensures (forall k :: 0 <= k < |t| ==> t[k] != '<') ==> RemoveHtml(t) == t
  {
    if forall k :: 0 <= k < |t| ==> t[k] != '<' {
      StripNoTag(t);
    }
  }

  /** Characters before the first `<` are kept. */
  lemma {:induction false} StripPrefixKept(u: string, w: string)
    requires forall k :: 0 <= k < |u| ==> u[k] != '<'
    ensures Strip(u + w) == u + Strip(w)
    decreases |u|
  {
    if |u| > 0 {
      var s := u + w;
      assert s[0] == u[0] && s[1..] == u[1..] + w;
      StripKeep(s);
      StripPrefixKept(u[1..], w);
      assert u == [u[0]] + u[1..];
      assert [u[0]] + (u[1..] + Strip(w)) == ([u[0]] + u[1..]) + Strip(w);
    } else {
      assert u + w == w;
    }
  }

  /** Characters before the first `<` are kept, the leftmost tag is deleted,
      and scanning resumes right after it. */
  lemma TagDeleted(u: string, g: string, v: string)
    requires forall k :: 0 <= k < |u| ==> u[k] != '<'
    requires IsTag(g)
    ensures RemoveHtml(u + g + v) == u + RemoveHtml(v)
  {
    var s := g + v;
    assert s[..|g|] == g;
    TagLenIsTag(s, |g|);
    StripTag(s);
    assert s[|g|..] == v;
    assert u + g + v == u + s;
    StripPrefixKept(u, s);
  }

  /** A character that does not open a tag is kept. */
  lemma NonTagKept(c: char, v: string)
    requires c != '<' || forall k :: 1 <= k <= |v| + 1 ==> !IsTag(([c] + v)[..k])
    ensures RemoveHtml([c] + v) == [c] + RemoveHtml(v)
  {
    var s := [c] + v;
    if c == '<' && TagLen(s).Some? {
      TagLenIsTag(s, TagLen(s).value);
      assert false;
    }
    StripKeep(s);
    assert s[1..] == v;
  }

  /** Only the first tag of `"<a>b>"` is deleted: the later `>` opens nothing. */
  lemma ExampleFirstTag()
    ensures RemoveHtml("<a>b>") == "b>"
  {
    TagDeleted("", "<a>", "b>");
    assert "" + "<a>" + "b>" == "<a>b>";
    RemoveHtmlNoTag("b>");
  }

  /** `"<>"` is no tag: the pattern needs a character between the brackets. */
  lemma ExampleEmptyBrackets()
    ensures RemoveHtml("<>") == "<>"
  {
    RemoveHtmlNoTag(">");
    NonTagKept('<', ">");
    assert ['<'] + ">" == "<>";
  }

  /** A tag cannot contain `<`, so in `"<<a>b>"` only `"<a>"` is deleted. */
  lemma ExampleNestedOpen()
    ensures RemoveHtml("<<a>b>") == "<b>"
  {
    ExampleFirstTag();
    forall k | 1 <= k <= |"<a>b>"| + 1 ensures !IsTag((['<'] + "<a>b>")[..k]) {
      if k >= 2 {
        assert (['<'] + "<a>b>")[..k][1] == '<';
      }
    }
    NonTagKept('<', "<a>b>");
    assert ['<'] + "<a>b>" == "<<a>b>";
  }
}
