/**
 Literal first-occurrence replacement, the behaviour of Ruby's `String#sub!`
 called with a string pattern, and what repeated replacement does to a URL
 template whose placeholders are `{name}` tokens.
 */
module Substitution {
  import opened Wrappers

  predicate OccursAt(s: string, pat: string, i: nat)
  {
    i + |pat| <= |s| && s[i..i + |pat|] == pat
  }

  /** The first position at or after `from` where `pat` occurs literally. */
  function FirstIndex(s: string, pat: string, from: nat): (r: Option<nat>)
    requires from <= |s|
    ensures r.Some? ==> from <= r.value && OccursAt(s, pat, r.value)
    ensures r.Some? ==> forall j :: from <= j < r.value ==> !OccursAt(s, pat, j)
    ensures r.None? ==> forall j :: from <= j <= |s| ==> !OccursAt(s, pat, j)
    decreases |s| - from
  {
    if OccursAt(s, pat, from) then Some(from)
    else if from == |s| then None
    else FirstIndex(s, pat, from + 1)
  }

  /** `s.sub!(pat, rep)`: the first literal occurrence of `pat` is replaced by
      `rep` and everything around it is kept; without an occurrence nothing
      changes. */
  function Sub(s: string, pat: string, rep: string): (r: string)
    ensures (forall j :: 0 <= j <= |s| ==> !OccursAt(s, pat, j)) ==> r == s
    ensures forall i: nat :: OccursAt(s, pat, i) && (forall j :: 0 <= j < i ==> !OccursAt(s, pat, j)) ==>
      r == s[..i] + rep + s[i + |pat|..]
  {
    match FirstIndex(s, pat, 0)
    case None => s
    case Some(i) => s[..i] + rep + s[i + |pat|..]
  }

  /** When the text before an occurrence cannot start the pattern, that
      occurrence is the one replaced. */
  lemma SubFirstToken(pre: string, pat: string, post: string, rep: string)
    requires |pat| > 0 && pat[0] !in pre
    ensures Sub(pre + pat + post, pat, rep) == pre + rep + post
  {
    var s := pre + pat + post;
    assert s[|pre|..|pre| + |pat|] == pat;
    forall j | 0 <= j < |pre|
      ensures !OccursAt(s, pat, j)
    {
      assert s[j] == pre[j] != pat[0];
      assert s[j..j + |pat|][0] == s[j];
    }
    assert s[..|pre|] == pre;
    assert s[|pre| + |pat|..] == post;
  }

  /** A text without the pattern's first character holds no occurrence of it,
      so `sub!` leaves it alone. */
  lemma SubAbsent(s: string, pat: string, rep: string)
    requires |pat| > 0 && pat[0] !in s
    ensures forall j :: 0 <= j <= |s| ==> !OccursAt(s, pat, j)
    ensures Sub(s, pat, rep) == s
  {
    forall j | 0 <= j <= |s|
      ensures !OccursAt(s, pat, j)
    {
      if j + |pat| <= |s| {
        assert s[j..j + |pat|][0] == s[j];
      }
    }
  }

  /** segs[0] + fills[0] + segs[1] + ... + fills[k-1] + segs[k]. */
  function Fill(segs: seq<string>, fills: seq<string>): string
    requires |segs| == |fills| + 1
    decreases |fills|
  {
    if fills == [] then segs[0]
    else Fill(segs[..|segs| - 1], fills[..|fills| - 1]) + fills[|fills| - 1] + segs[|segs| - 1]
  }

  /** Filling around one chosen gap splits into the part before it and the part after it. */
  lemma {:induction false} FillSplit(segs: seq<string>, a: seq<string>, x: string, b: seq<string>)
    requires |segs| == |a| + |b| + 2
    ensures Fill(segs, a + [x] + b) == Fill(segs[..|a| + 1], a) + x + Fill(segs[|a| + 1..], b)
    decreases |b|
  {
    var f := a + [x] + b;
    var n := |segs|;
    if b == [] {
      assert f[..|f| - 1] == a;
      assert segs[..n - 1] == segs[..|a| + 1];
    } else {
      var segs' := segs[..n - 1];
      var b' := b[..|b| - 1];
      assert f[..|f| - 1] == a + [x] + b';
      FillSplit(segs', a, x, b');
      assert segs'[..|a| + 1] == segs[..|a| + 1];
      var tail := segs[|a| + 1..];
      assert tail[..|tail| - 1] == segs'[|a| + 1..];
      assert Fill(tail, b) == Fill(segs'[|a| + 1..], b') + b[|b| - 1] + segs[n - 1];
    }
  }

  /** A text assembled from pieces none of which holds `c` does not hold `c`. */
  lemma {:induction false} FillAvoids(segs: seq<string>, fills: seq<string>, c: char)
    requires |segs| == |fills| + 1
    requires forall i :: 0 <= i < |segs| ==> c !in segs[i]
    requires forall i :: 0 <= i < |fills| ==> c !in fills[i]
    ensures c !in Fill(segs, fills)
    decreases |fills|
  {
    if fills != [] {
      FillAvoids(segs[..|segs| - 1], fills[..|fills| - 1], c);
    }
  }

  /** Replacing the first `{`-led token of a text whose earlier pieces hold no
      `{` fills exactly that token's gap. */
  lemma FillStep(segs: seq<string>, a: seq<string>, tok: string, b: seq<string>, text: string)
    requires |segs| == |a| + |b| + 2
    requires |tok| > 0 && tok[0] == '{'
    requires forall i :: 0 <= i < |segs| ==> '{' !in segs[i]
    requires forall i :: 0 <= i < |a| ==> '{' !in a[i]
    ensures Sub(Fill(segs, a + [tok] + b), tok, text) == Fill(segs, a + [text] + b)
  {
    FillSplit(segs, a, tok, b);
    FillSplit(segs, a, text, b);
    var pre := Fill(segs[..|a| + 1], a);
    var post := Fill(segs[|a| + 1..], b);
    FillAvoids(segs[..|a| + 1], a, '{');
    SubFirstToken(pre, tok, post, text);
  }

  /** Splicing facts about a sequence made of a prefix of one sequence and a
      suffix of another, kept generic so that the elements stay opaque. */
  lemma Splice<T>(xs: seq<T>, ys: seq<T>, j: nat)
    requires 0 < j <= |xs| && j <= |ys|
    ensures xs[..j - 1] + ys[j - 1..] == xs[..j - 1] + [ys[j - 1]] + ys[j..]
    ensures xs[..j - 1] + [xs[j - 1]] + ys[j..] == xs[..j] + ys[j..]
  {
    assert ys[j - 1..] == [ys[j - 1]] + ys[j..];
    assert xs[..j] == xs[..j - 1] + [xs[j - 1]];
  }

  lemma Whole<T>(xs: seq<T>, ys: seq<T>)
    requires |xs| == |ys|
    ensures xs[..|xs|] == xs
    ensures xs[..|xs|] + ys[|xs|..] == xs
  {
  }

  /** Replacing the first remaining token of a partly filled template fills one more gap. */
  lemma FillAdvance(segs: seq<string>, texts: seq<string>, tokens: seq<string>, j: nat)
    requires |segs| == |texts| + 1 && |texts| == |tokens| && 0 < j <= |texts|
    requires forall i :: 0 <= i < |segs| ==> '{' !in segs[i]
    requires forall i :: 0 <= i < |texts| ==> '{' !in texts[i]
    requires |tokens[j - 1]| > 0 && tokens[j - 1][0] == '{'
    ensures Sub(Fill(segs, texts[..j - 1] + tokens[j - 1..]), tokens[j - 1], texts[j - 1]) ==
      Fill(segs, texts[..j] + tokens[j..])
  {
    Splice(texts, tokens, j);
    var a := texts[..j - 1];
    assert forall i :: 0 <= i < |a| ==> '{' !in a[i];
    FillStep(segs, a, tokens[j - 1], tokens[j..], texts[j - 1]);
  }
}
