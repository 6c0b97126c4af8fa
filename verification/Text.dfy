/** The string operations the services use: trimming, searching, joining. */
module Text {
  import opened Wrappers

  /** The characters `String.prototype.trim` removes. */
  predicate IsSpace(c: char) {
    c in {' ', '\t', '\n', '\r', '\U{000B}', '\U{000C}', '\U{00A0}', '\U{1680}', '\U{2028}', '\U{2029}', '\U{202F}',
          '\U{205F}', '\U{3000}', '\U{FEFF}'} || '\U{2000}' <= c <= '\U{200A}'
  }

  function TrimStart(s: string): string {
    if s != "" && IsSpace(s[0]) then TrimStart(s[1..]) else s
  }

  function TrimEnd(s: string): string {
    if s != "" && IsSpace(s[|s| - 1]) then TrimEnd(s[..|s| - 1]) else s
  }

  function Trim(s: string): string { TrimEnd(TrimStart(s)) }

  ghost predicate Blank(s: string) { forall i :: 0 <= i < |s| ==> IsSpace(s[i]) }

  /** Blank text around a string does not change what trimming leaves. */
  lemma {:induction false} TrimStartSkips(pre: string, s: string)
    requires Blank(pre)
    ensures TrimStart(pre + s) == TrimStart(s)
  {
    if pre == "" {
      assert pre + s == s;
    } else {
      assert (pre + s)[1..] == pre[1..] + s;
      TrimStartSkips(pre[1..], s);
    }
  }

  lemma {:induction false} TrimEndSkips(s: string, post: string)
    requires Blank(post)
    ensures TrimEnd(s + post) == TrimEnd(s)
  {
    if post == "" {
      assert s + post == s;
    } else {
      assert (s + post)[..|s + post| - 1] == s + post[..|post| - 1];
      TrimEndSkips(s, post[..|post| - 1]);
    }
  }

  /** `TrimStart` drops a blank prefix and nothing else. */
  lemma {:induction false} TrimStartSplits(s: string) returns (pre: string)
    ensures s == pre + TrimStart(s) && Blank(pre)
    ensures TrimStart(s) == "" || !IsSpace(TrimStart(s)[0])
  {
    if s != "" && IsSpace(s[0]) {
      var rest := TrimStartSplits(s[1..]);
      pre := [s[0]] + rest;
    } else {
      pre := "";
    }
  }

  lemma {:induction false} TrimEndSplits(s: string) returns (post: string)
    ensures s == TrimEnd(s) + post && Blank(post)
    ensures TrimEnd(s) == "" || !IsSpace(TrimEnd(s)[|TrimEnd(s)| - 1])
  {
    if s != "" && IsSpace(s[|s| - 1]) {
      var rest := TrimEndSplits(s[..|s| - 1]);
      post := rest + [s[|s| - 1]];
    } else {
      post := "";
    }
  }

  lemma {:induction false} BlankTrimsToNothing(s: string)
    requires Blank(s)
    ensures TrimStart(s) == "" && TrimEnd(s) == ""
  {
    if s != "" {
      BlankTrimsToNothing(s[1..]);
      BlankTrimsToNothing(s[..|s| - 1]);
    }
  }

  lemma TrimIgnoresBlankEnds(pre: string, s: string, post: string)
    requires Blank(pre) && Blank(post)
    ensures Trim(pre + s + post) == Trim(s)
  {
    assert pre + s + post == pre + (s + post);
    TrimStartSkips(pre, s + post);
    var a := TrimStartSplits(s);
    if TrimStart(s) == "" {
      TrimStartSkips(s, post);
      BlankTrimsToNothing(post);
    } else {
      assert s + post == a + (TrimStart(s) + post);
      TrimStartSkips(a, TrimStart(s) + post);
      assert TrimStart(TrimStart(s) + post) == TrimStart(s) + post;
      TrimEndSkips(TrimStart(s), post);
    }
  }

  // ---- What trimming leaves, told without trimming ----

  /** White space and line terminators of ECMAScript, by code point. */
  ghost predicate Whitespace(c: char) {
    9 <= c as int <= 13 || c as int in {32, 0xA0, 0x1680, 0x2028, 0x2029, 0x202F, 0x205F, 0x3000, 0xFEFF} ||
    0x2000 <= c as int <= 0x200A
  }

  ghost predicate OnlyWhitespace(s: string) { forall i :: 0 <= i < |s| ==> Whitespace(s[i]) }

  ghost predicate NoBlankEnds(t: string) { t != "" ==> !Whitespace(t[0]) && !Whitespace(t[|t| - 1]) }

  /** `t` is `s` without its blank ends. */
  ghost predicate IsTrimmed(s: string, t: string) {
    NoBlankEnds(t) && exists pre, post :: s == pre + t + post && OnlyWhitespace(pre) && OnlyWhitespace(post)
  }

  lemma SpacesAreWhitespace()
    ensures forall c :: IsSpace(c) <==> Whitespace(c)
  {}

  lemma NothingToTrim(t: string)
    requires NoBlankEnds(t)
    ensures Trim(t) == t
  {
    SpacesAreWhitespace();
  }

  lemma TrimExactly(s: string, t: string)
    ensures t == Trim(s) <==> IsTrimmed(s, t)
  {
    hide IsSpace, Whitespace;
    SpacesAreWhitespace();
    if t == Trim(s) {
      var pre := TrimStartSplits(s);
      var post := TrimEndSplits(TrimStart(s));
      assert s == pre + t + post;
      assert NoBlankEnds(t) by {
        if t != "" { assert t[0] == (t + post)[0] == TrimStart(s)[0]; }
      }
      assert OnlyWhitespace(pre) && OnlyWhitespace(post);
    }
    if IsTrimmed(s, t) {
      var pre, post :| s == pre + t + post && OnlyWhitespace(pre) && OnlyWhitespace(post);
      TrimIgnoresBlankEnds(pre, t, post);
      NothingToTrim(t);
    }
  }

  // ---- Searching ----

  /** `p` occurs in `s` at position `i`. */
  predicate OccursAt(s: string, p: string, i: nat) { i + |p| <= |s| && s[i..i + |p|] == p }

  lemma ShiftOccurrence(s: string, p: string, i: nat)
    requires s != ""
    ensures OccursAt(s, p, i + 1) <==> OccursAt(s[1..], p, i)
  {
    if i + 1 + |p| <= |s| { assert s[i + 1..i + 1 + |p|] == s[1..][i..i + |p|]; }
  }

  predicate Contains(s: string, p: string) { exists i: nat :: i <= |s| && OccursAt(s, p, i) }

  /** `indexOf`: the first occurrence. */
  function IndexOf(s: string, p: string): (r: Option<nat>)
    ensures r.Some? ==> OccursAt(s, p, r.value) && forall i: nat :: i < r.value ==> !OccursAt(s, p, i)
    ensures r.None? ==> forall i: nat :: !OccursAt(s, p, i)
  {
    if |s| < |p| then None
    else if s[..|p|] == p then Some(0)
    else
      assert forall i: nat :: OccursAt(s, p, i + 1) <==> OccursAt(s[1..], p, i) by {
        forall i: nat ensures OccursAt(s, p, i + 1) <==> OccursAt(s[1..], p, i) { ShiftOccurrence(s, p, i); }
      }
      assert !OccursAt(s, p, 0);
      assert forall i: nat :: OccursAt(s, p, i) ==> i > 0 && OccursAt(s[1..], p, i - 1) by {
        forall i: nat | OccursAt(s, p, i) ensures i > 0 && OccursAt(s[1..], p, i - 1) { ShiftOccurrence(s, p, i - 1); }
      }
      match IndexOf(s[1..], p)
      case None => None
      case Some(i) => Some(i + 1)
  }

  function Join(parts: seq<string>, separator: string): string {
    if parts == [] then ""
    else if |parts| == 1 then parts[0]
    else parts[0] + separator + Join(parts[1..], separator)
  }

  /** Every line with its line break. */
  ghost function Terminated(lines: seq<string>): string {
    if lines == [] then "" else Terminated(lines[..|lines| - 1]) + lines[|lines| - 1] + "\n"
  }

  lemma {:induction false} TerminatedFromTheFront(first: string, rest: seq<string>)
    ensures Terminated([first] + rest) == first + "\n" + Terminated(rest)
  {
    if rest == [] {
      assert [first] + rest == [first] && [first][..0] == [];
    } else {
      var n := |rest| - 1;
      assert ([first] + rest)[..n + 1] == [first] + rest[..n];
      TerminatedFromTheFront(first, rest[..n]);
    }
  }

  /** Joining lines with line breaks is writing each with its own, but for the last. */
  lemma {:induction false} JoinedLines(lines: seq<string>)
    requires lines != []
    ensures Join(lines, "\n") + "\n" == Terminated(lines)
  {
    TerminatedFromTheFront(lines[0], lines[1..]);
    assert lines == [lines[0]] + lines[1..];
    if |lines| > 1 { JoinedLines(lines[1..]); }
  }
}
