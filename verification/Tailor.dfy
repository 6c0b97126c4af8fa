/** Splitting a tailoring result into its two sections. */
module Tailor {
  import opened Wrappers
  import opened Text

  const GAP_HEADING := "## Gap analysis"
  const RESUME_HEADING := "## Tailored resume"

  datatype Split = Split(gapAnalysis: string, content: string)

  /** `replace` with a string pattern: only the first occurrence goes. */
  function RemoveFirst(s: string, p: string): string {
    match IndexOf(s, p)
    case None => s
    case Some(i) => s[..i] + s[i + |p|..]
  }

  function SplitTailorResult(result: string): Split {
    match IndexOf(result, RESUME_HEADING)
    case None => Split("", Trim(result))
    case Some(i) => Split(Trim(RemoveFirst(result[..i], GAP_HEADING)), Trim(result[i + |RESUME_HEADING|..]))
  }

  // ---- Every text ----

  /** `p` stands between `a` and `b`, and nowhere earlier in the whole. */
  ghost predicate FirstBetween(a: string, p: string, b: string) {
    forall i: nat :: i < |a| ==> !OccursAt(a + p + b, p, i)
  }

  /** `r` is the gap analysis before the heading of a model's answer, and the resume after it, without their blank
      ends; an answer without that heading is all resume. */
  ghost predicate SplitsInto(s: string, r: Split) {
    if !Contains(s, "## Tailored resume") then r.gapAnalysis == "" && IsTrimmed(s, r.content)
    else exists a, b ::
      s == a + "## Tailored resume" + b && FirstBetween(a, "## Tailored resume", b) && IsTrimmed(b, r.content) &&
      IsGapAnalysis(a, r.gapAnalysis)
  }

  /** What stands before the resume loses its own heading, the first time it is there. */
  ghost predicate IsGapAnalysis(a: string, gap: string) {
    if !Contains(a, "## Gap analysis") then IsTrimmed(a, gap)
    else exists x, y ::
      a == x + "## Gap analysis" + y && FirstBetween(x, "## Gap analysis", y) && IsTrimmed(x + y, gap)
  }

  lemma CutAtFirst(s: string, p: string)
    ensures IndexOf(s, p).None? <==> !Contains(s, p)
    ensures IndexOf(s, p).Some? ==>
      var i := IndexOf(s, p).value;
      s == s[..i] + p + s[i + |p|..] && FirstBetween(s[..i], p, s[i + |p|..])
  {
    if IndexOf(s, p).Some? {
      var i := IndexOf(s, p).value;
      assert s == s[..i] + s[i..i + |p|] + s[i + |p|..];
      assert Contains(s, p);
    }
  }

  lemma FirstIsThere(a: string, p: string, b: string)
    requires FirstBetween(a, p, b)
    ensures IndexOf(a + p + b, p) == Some(|a|) && (a + p + b)[..|a|] == a && (a + p + b)[|a| + |p|..] == b
  {
    var s := a + p + b;
    assert s[|a|..|a| + |p|] == p;
    SamePosition(s, p, |a|);
  }

  lemma GapAnalysisExactly(a: string, gap: string)
    ensures gap == Trim(RemoveFirst(a, GAP_HEADING)) <==> IsGapAnalysis(a, gap)
  {
    hide Trim, IndexOf, FirstBetween, IsTrimmed;
    CutAtFirst(a, GAP_HEADING);
    if !Contains(a, GAP_HEADING) {
      TrimExactly(a, gap);
    } else {
      var i := IndexOf(a, GAP_HEADING).value;
      TrimExactly(a[..i] + a[i + |GAP_HEADING|..], gap);
      if IsGapAnalysis(a, gap) {
        var x, y :|
          a == x + "## Gap analysis" + y && FirstBetween(x, "## Gap analysis", y) && IsTrimmed(x + y, gap);
        FirstIsThere(x, GAP_HEADING, y);
      }
    }
  }

  /** The split does this to every text, and nothing else. */
  lemma SplitExactly(s: string, r: Split)
    ensures r == SplitTailorResult(s) <==> SplitsInto(s, r)
  {
    hide Trim, IndexOf, FirstBetween, IsTrimmed, RemoveFirst, IsGapAnalysis;
    CutAtFirst(s, RESUME_HEADING);
    if !Contains(s, RESUME_HEADING) {
      TrimExactly(s, r.content);
    } else {
      var i := IndexOf(s, RESUME_HEADING).value;
      var a, b := s[..i], s[i + |RESUME_HEADING|..];
      TrimExactly(b, r.content);
      GapAnalysisExactly(a, r.gapAnalysis);
      if SplitsInto(s, r) {
        var x, y :|
          s == x + "## Tailored resume" + y && FirstBetween(x, "## Tailored resume", y) && IsTrimmed(y, r.content) &&
          IsGapAnalysis(x, r.gapAnalysis);
        FirstIsThere(x, RESUME_HEADING, y);
      }
    }
  }

  // ---- The document that is asked for ----

  /** A document with two headed sections, a blank line between them. */
  function Sections(first: string, gap: string, second: string, content: string): string {
    first + "\n" + (gap + "\n" + ("\n" + (second + "\n" + content)))
  }

  /** The document the model is asked for. */
  function Document(gap: string, content: string): string {
    Sections(GAP_HEADING, gap, RESUME_HEADING, content)
  }

  predicate OneLine(p: string) { p != "" && '\n' !in p && !IsSpace(p[0]) && !IsSpace(p[|p| - 1]) }

  lemma HeadingsAreLines()
    ensures OneLine(GAP_HEADING) && OneLine(RESUME_HEADING)
    ensures forall i: nat :: !OccursAt(GAP_HEADING, RESUME_HEADING, i)
  {
    forall i: nat ensures !OccursAt(GAP_HEADING, RESUME_HEADING, i) {
      assert |GAP_HEADING| < |RESUME_HEADING|;
    }
  }

  /** A heading cannot straddle a line break: in a + "\n" + b it lies within a or within b. */
  lemma WithinOneSide(a: string, b: string, p: string, i: nat)
    requires OneLine(p)
    ensures OccursAt(a + "\n" + b, p, i) <==>
            OccursAt(a, p, i) || (i > |a| && OccursAt(b, p, i - |a| - 1))
  {
    var s := a + "\n" + b;
    if i + |p| <= |a| {
      assert s[i..i + |p|] == a[i..i + |p|];
    } else if i > |a| {
      if i + |p| <= |s| { assert s[i..i + |p|] == b[i - |a| - 1..i - |a| - 1 + |p|]; }
    } else if i + |p| <= |s| {
      assert s[i..i + |p|][|a| - i] == '\n';
    }
  }

  lemma {:induction false} TrimIsInside(s: string)
    ensures exists pre, post :: s == pre + Trim(s) + post && Blank(pre) && Blank(post)
  {
    var pre := TrimStartSplits(s);
    var post := TrimEndSplits(TrimStart(s));
    assert s == pre + Trim(s) + post;
  }

  lemma OccursInside(pre: string, t: string, post: string, p: string, i: nat)
    requires i + |p| <= |t|
    ensures OccursAt(pre + t + post, p, |pre| + i) <==> OccursAt(t, p, i)
  {
    assert (pre + t + post)[|pre| + i..|pre| + i + |p|] == t[i..i + |p|];
  }

  /** An occurrence in blank-padded text lies in the text. */
  lemma NotInBlank(pre: string, t: string, post: string, p: string, i: nat)
    requires OneLine(p) && Blank(pre) && Blank(post) && OccursAt(pre + t + post, p, i)
    ensures |pre| <= i && i + |p| <= |pre| + |t|
  {
    var s := pre + t + post;
    assert s[i] == s[i..i + |p|][0] && s[i + |p| - 1] == s[i..i + |p|][|p| - 1];
  }

  /** Trimming neither hides nor reveals a heading. */
  lemma TrimKeepsHeadings(s: string, p: string)
    requires OneLine(p)
    ensures Contains(Trim(s), p) <==> Contains(s, p)
  {
    TrimIsInside(s);
    var pre, post :| s == pre + Trim(s) + post && Blank(pre) && Blank(post);
    var t := Trim(s);
    if Contains(t, p) {
      var i: nat :| i <= |t| && OccursAt(t, p, i);
      OccursInside(pre, t, post, p, i);
    }
    if Contains(s, p) {
      var i: nat :| i <= |s| && OccursAt(s, p, i);
      NotInBlank(pre, t, post, p, i);
      OccursInside(pre, t, post, p, i - |pre|);
      assert OccursAt(t, p, i - |pre|);
    }
  }

  lemma SamePosition(s: string, p: string, i: nat)
    requires OccursAt(s, p, i) && forall j: nat :: j < i ==> !OccursAt(s, p, j)
    ensures IndexOf(s, p) == Some(i)
  {}

  /** A first line without the heading shifts where the heading is found. */
  lemma ShiftedPosition(first: string, rest: string, p: string, here: nat)
    requires OneLine(p) && (forall i: nat :: !OccursAt(first, p, i)) && IndexOf(rest, p) == Some(here)
    ensures IndexOf(first + "\n" + rest, p) == Some(|first| + 1 + here)
  {
    hide OneLine, OccursAt, IndexOf;
    WithinOneSide(first, rest, p, |first| + 1 + here);
    forall i: nat | i < |first| + 1 + here ensures !OccursAt(first + "\n" + rest, p, i) {
      WithinOneSide(first, rest, p, i);
    }
    SamePosition(first + "\n" + rest, p, |first| + 1 + here);
  }

  lemma PositionOnNextLine(p: string, content: string)
    requires OneLine(p)
    ensures IndexOf("\n" + (p + "\n" + content), p) == Some(1)
  {
    hide IndexOf;
    var last := p + "\n" + content;
    assert OccursAt(last, p, 0);
    SamePosition(last, p, 0);
    assert forall i: nat :: !OccursAt("", p, i);
    ShiftedPosition("", last, p, 0);
    assert "" + "\n" + last == "\n" + last;
  }

  /** An occurrence before a line break comes first, whatever follows. */
  lemma PositionBeforeBreak(gap: string, rest: string, p: string, i: nat)
    requires OneLine(p) && IndexOf(gap, p) == Some(i)
    ensures IndexOf(gap + "\n" + rest, p) == Some(i)
  {
    hide OneLine, OccursAt, IndexOf;
    forall j: nat | j <= i ensures OccursAt(gap + "\n" + rest, p, j) <==> OccursAt(gap, p, j) {
      WithinOneSide(gap, rest, p, j);
      InBounds(gap, p, i);
    }
    SamePosition(gap + "\n" + rest, p, i);
  }

  lemma InBounds(s: string, p: string, i: nat)
    requires OccursAt(s, p, i)
    ensures i <= |s|
  {}

  /** Where the heading after the gap text is found: in the gap text if it occurs there. */
  lemma PositionAfterGap(gap: string, p: string, content: string)
    requires OneLine(p)
    ensures IndexOf(gap + "\n" + ("\n" + (p + "\n" + content)), p) ==
            Some(match IndexOf(gap, p) case Some(i) => i case None => |gap| + 2)
  {
    hide OneLine, OccursAt, IndexOf;
    var rest := "\n" + (p + "\n" + content);
    match IndexOf(gap, p)
    case None =>
      PositionOnNextLine(p, content);
      ShiftedPosition(gap, rest, p, 1);
    case Some(i) => PositionBeforeBreak(gap, rest, p, i);
  }

  /** Where the second heading of a document is found. */
  lemma HeadingPosition(first: string, gap: string, p: string, content: string)
    requires OneLine(p) && forall i: nat :: !OccursAt(first, p, i)
    ensures IndexOf(Sections(first, gap, p, content), p) ==
            Some(|first| + 1 + (match IndexOf(gap, p) case Some(i) => i case None => |gap| + 2))
  {
    hide OneLine, OccursAt, IndexOf;
    var rest := gap + "\n" + ("\n" + (p + "\n" + content));
    PositionAfterGap(gap, p, content);
    ShiftedPosition(first, rest, p, IndexOf(rest, p).value);
  }

  lemma RemovesHeading(heading: string, rest: string)
    ensures RemoveFirst(heading + rest, heading) == rest
  {
    assert OccursAt(heading + rest, heading, 0);
    SamePosition(heading + rest, heading, 0);
    assert (heading + rest)[|heading|..] == rest;
  }

  /** Cutting a document at its second heading. */
  lemma CutAfterGap(first: string, gap: string, p: string, content: string)
    ensures var d, at := Sections(first, gap, p, content), |first| + 1 + |gap| + 2;
            at + |p| <= |d| && d[..at] == first + ("\n" + gap + "\n\n") && d[at + |p|..] == "\n" + content
  {
    var left, right := first + ("\n" + gap + "\n\n"), p + ("\n" + content);
    assert Sections(first, gap, p, content) == left + right;
    assert right[|p|..] == "\n" + content;
  }

  /** Cutting a document inside its gap text. */
  lemma CutInGap(first: string, gap: string, p: string, content: string, i: nat)
    requires i <= |gap|
    ensures var d, at := Sections(first, gap, p, content), |first| + 1 + i;
            at <= |d| && d[..at] == first + ("\n" + gap[..i])
  {
    assert gap == gap[..i] + gap[i..];
  }

  lemma TrimAfterHeading(heading: string, s: string, post: string)
    requires Blank(post)
    ensures Trim(RemoveFirst(heading + ("\n" + s + post), heading)) == Trim(s)
    ensures post == "" ==> Trim(RemoveFirst(heading + ("\n" + s), heading)) == Trim(s) && Trim("\n" + s) == Trim(s)
  {
    RemovesHeading(heading, "\n" + s + post);
    TrimIgnoresBlankEnds("\n", s, post);
    if post == "" { assert "\n" + s + post == "\n" + s; }
  }

  lemma SplitAfterGap(first: string, gap: string, p: string, content: string, d: string, at: nat)
    requires d == Sections(first, gap, p, content) && at == |first| + 1 + |gap| + 2
    ensures at + |p| <= |d| && Trim(RemoveFirst(d[..at], first)) == Trim(gap) && Trim(d[at + |p|..]) == Trim(content)
  {
    CutAfterGap(first, gap, p, content);
    TrimAfterHeading(first, gap, "\n\n");
    TrimAfterHeading("", content, "");
  }

  lemma CutPast(first: string, before: string, after: string, p: string, content: string)
    ensures Sections(first, before + after, p, content) ==
            (first + "\n" + before) + (after + "\n" + ("\n" + (p + "\n" + content)))
  {
    var rest := "\n" + (p + "\n" + content);
    assert (before + after) + "\n" + rest == before + (after + "\n" + rest);
    assert first + "\n" + (before + (after + "\n" + rest)) == (first + "\n" + before) + (after + "\n" + rest);
  }

  lemma SplitInGap(first: string, gap: string, p: string, content: string, d: string, i: nat)
    requires d == Sections(first, gap, p, content) && i + |p| <= |gap|
    ensures |first| + 1 + i + |p| <= |d| && Trim(RemoveFirst(d[..|first| + 1 + i], first)) == Trim(gap[..i])
    ensures d[|first| + 1 + i + |p|..] == gap[i + |p|..] + "\n" + ("\n" + (p + "\n" + content))
  {
    hide Trim, RemoveFirst, Sections;
    CutInGap(first, gap, p, content, i);
    TrimAfterHeading(first, gap[..i], "");
    assert gap == gap[..i + |p|] + gap[i + |p|..];
    CutPast(first, gap[..i + |p|], gap[i + |p|..], p, content);
  }

  lemma SecondHeadingSpelled(after: string, content: string)
    ensures after + "\n" + ("\n" + (RESUME_HEADING + "\n" + content)) ==
            after + "\n\n## Tailored resume\n" + content
  {
    assert "\n\n## Tailored resume\n" == "\n" + ("\n" + (RESUME_HEADING + "\n"));
    assert "\n" + ("\n" + (RESUME_HEADING + "\n" + content)) == "\n" + ("\n" + (RESUME_HEADING + "\n")) + content;
  }

  /** What the split yields for any gap text and any content. */
  lemma SplitOfDocument(gap: string, content: string)
    ensures IndexOf(gap, "## Tailored resume").None? ==>
      SplitTailorResult(Document(gap, content)) == Split(Trim(gap), Trim(content))
    ensures IndexOf(gap, "## Tailored resume").Some? ==>
      var i := IndexOf(gap, "## Tailored resume").value;
      SplitTailorResult(Document(gap, content)) ==
        Split(Trim(gap[..i]), Trim(gap[i + 18..] + "\n\n## Tailored resume\n" + content))
  {
    hide Trim, RemoveFirst, Sections, IndexOf;
    HeadingsAreLines();
    HeadingPosition(GAP_HEADING, gap, RESUME_HEADING, content);
    var d := Document(gap, content);
    match IndexOf(gap, RESUME_HEADING)
    case None => SplitAfterGap(GAP_HEADING, gap, RESUME_HEADING, content, d, |GAP_HEADING| + 1 + |gap| + 2);
    case Some(i) =>
      SplitInGap(GAP_HEADING, gap, RESUME_HEADING, content, d, i);
      SecondHeadingSpelled(gap[i + 18..], content);
  }

  /** The round trip holds exactly when the gap text does not itself contain the second heading;
      the content may repeat either heading. */
  lemma RoundTripExactly(gap: string, content: string)
    ensures SplitTailorResult(Document(gap, content)) == Split(Trim(gap), Trim(content)) <==>
            !Contains(gap, RESUME_HEADING)
  {
    hide Trim, IsSpace;
    SplitOfDocument(gap, content);
    HeadingsAreLines();
    if IndexOf(gap, RESUME_HEADING).Some? { PrefixTrimsApart(gap, RESUME_HEADING, IndexOf(gap, RESUME_HEADING).value); }
  }

  lemma PrefixTrimsApart(gap: string, p: string, i: nat)
    requires OneLine(p) && IndexOf(gap, p) == Some(i)
    ensures Contains(gap, p) && Trim(gap[..i]) != Trim(gap)
  {
    hide Trim, IsSpace;
    TrimKeepsHeadings(gap, p);
    TrimKeepsHeadings(gap[..i], p);
    assert !Contains(gap[..i], p) by {
      forall j: nat ensures !OccursAt(gap[..i], p, j) {
        if j + |p| <= i { OccursInside("", gap[..i], gap[i..], p, j); }
        assert "" + gap[..i] + gap[i..] == gap;
      }
    }
  }
}
