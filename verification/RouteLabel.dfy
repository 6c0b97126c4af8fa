/** Metric labels for paths: two left-to-right replacement passes, one for UUIDs and one for digits. */
module RouteLabel {

  predicate IsDigit(c: char) { '0' <= c <= '9' }

  predicate IsHex(c: char) { IsDigit(c) || 'a' <= c <= 'f' || 'A' <= c <= 'F' }

  const UUID_LENGTH: nat := 36

  /** 8-4-4-4-12 hexadecimal digits, in either case. */
  predicate UuidChar(c: char, i: nat) { if i in {8, 13, 18, 23} then c == '-' else IsHex(c) }

  predicate UuidAt(s: string) { |s| >= UUID_LENGTH && forall i :: 0 <= i < UUID_LENGTH ==> UuidChar(s[i], i) }

  predicate DigitAt(s: string) { s != "" && IsDigit(s[0]) }

  function DropDigits(s: string): (r: string)
    ensures |r| <= |s|
  {
    if DigitAt(s) then DropDigits(s[1..]) else s
  }

  function UuidPass(s: string): string
    decreases |s|
  {
    if s == "" then ""
    else if s[0] == '/' && UuidAt(s[1..]) then "/:id" + UuidPass(s[1 + UUID_LENGTH..])
    else [s[0]] + UuidPass(s[1..])
  }

  function DigitPass(s: string): string
    decreases |s|
  {
    if s == "" then ""
    else if s[0] == '/' && DigitAt(s[1..]) then "/:n" + DigitPass(DropDigits(s[1..]))
    else [s[0]] + DigitPass(s[1..])
  }

  function Label(path: string): string { DigitPass(UuidPass(path)) }

  // ---- Ids, character by character ----

  ghost predicate Digit(c: char) { 48 <= c as int <= 57 }

  /** Thirty-two hexadecimal digits in either case, with dashes after the 8th, 12th, 16th and 20th. */
  ghost predicate LooksLikeUuid(s: string) {
    |s| >= 36 && s[8] == s[13] == s[18] == s[23] == '-' &&
    forall i :: 0 <= i < 36 && i != 8 && i != 13 && i != 18 && i != 23 ==>
      Digit(s[i]) || 97 <= s[i] as int <= 102 || 65 <= s[i] as int <= 70
  }

  ghost predicate StartsWithDigit(s: string) { s != "" && Digit(s[0]) }

  /** A leading UUID becomes `:id`, otherwise the longest leading number becomes `:n`; the rest stays. */
  ghost predicate Becomes(segment: string, became: string) {
    if LooksLikeUuid(segment) then became == ":id" + segment[36..]
    else if StartsWithDigit(segment) then
      exists n ::
        1 <= n <= |segment| && (forall i :: 0 <= i < n ==> Digit(segment[i])) &&
        !StartsWithDigit(segment[n..]) && became == ":n" + segment[n..]
    else became == segment
  }

  lemma IdsAreRecognised(s: string)
    ensures UuidAt(s) <==> LooksLikeUuid(s)
    ensures DigitAt(s) <==> StartsWithDigit(s)
  {
    if UuidAt(s) {
      assert UuidChar(s[8], 8) && UuidChar(s[13], 13) && UuidChar(s[18], 18) && UuidChar(s[23], 23);
      forall i | 0 <= i < 36 && i != 8 && i != 13 && i != 18 && i != 23
        ensures Digit(s[i]) || 97 <= s[i] as int <= 102 || 65 <= s[i] as int <= 70 {
        assert UuidChar(s[i], i);
      }
    }
    if LooksLikeUuid(s) {
      forall i | 0 <= i < UUID_LENGTH ensures UuidChar(s[i], i) {}
    }
  }

  lemma {:induction false} NumberEnds(s: string) returns (n: nat)
    ensures n <= |s| && (forall i :: 0 <= i < n ==> Digit(s[i])) && !StartsWithDigit(s[n..]) && DropDigits(s) == s[n..]
    ensures StartsWithDigit(s) ==> n >= 1
  {
    if DigitAt(s) {
      var m := NumberEnds(s[1..]);
      n := m + 1;
      forall i | 0 <= i < n ensures Digit(s[i]) { if i > 0 { assert s[i] == s[1..][i - 1]; } }
      assert s[n..] == s[1..][m..];
    } else {
      n := 0;
      assert s[0..] == s;
    }
  }

  lemma SegmentBecomes(segment: string)
    ensures Becomes(segment, SegmentLabel(segment))
  {
    hide UuidAt, LooksLikeUuid, DropDigits;
    IdsAreRecognised(segment);
    UuidsAreLong(segment);
    if !UuidAt(segment) && DigitAt(segment) { var _ := NumberEnds(segment); }
  }

  lemma UuidsAreLong(s: string)
    ensures LooksLikeUuid(s) ==> |s| >= 36
  {}

  // ---- Paths as segments ----

  /** What stands before the first slash, and what stands after each slash. */
  datatype Split = Split(first: string, segments: seq<string>)

  predicate NoSlash(s: string) { '/' !in s }

  predicate WellSplit(p: Split) { NoSlash(p.first) && forall i :: 0 <= i < |p.segments| ==> NoSlash(p.segments[i]) }

  function SplitPath(s: string): Split {
    if s == "" then Split("", [])
    else
      var r := SplitPath(s[1..]);
      if s[0] == '/' then Split("", [r.first] + r.segments) else Split([s[0]] + r.first, r.segments)
  }

  function Tail(segments: seq<string>): string {
    if segments == [] then "" else "/" + segments[0] + Tail(segments[1..])
  }

  function Path(p: Split): string { p.first + Tail(p.segments) }

  lemma {:induction false} PathOfSplit(s: string)
    ensures Path(SplitPath(s)) == s && WellSplit(SplitPath(s))
  {
    if s != "" {
      var r := SplitPath(s[1..]);
      PathOfSplit(s[1..]);
      assert s == [s[0]] + Path(r);
      if s[0] == '/' {
        assert ([r.first] + r.segments)[1..] == r.segments;
        assert "/" + r.first + Tail(r.segments) == "/" + Path(r);
      } else {
        assert [s[0]] + r.first + Tail(r.segments) == [s[0]] + Path(r);
      }
    }
  }

  lemma {:induction false} SplitOfPath(p: Split)
    requires WellSplit(p)
    ensures SplitPath(Path(p)) == p
    decreases |p.segments|, |p.first|
  {
    var s := Path(p);
    if p.first != "" {
      var q := Split(p.first[1..], p.segments);
      SplitOfPath(q);
      assert s[0] == p.first[0] && s[1..] == Path(q);
      assert p.first[0] in p.first;
    } else if p.segments != [] {
      var q := Split(p.segments[0], p.segments[1..]);
      SplitOfPath(q);
      assert s[0] == '/' && s[1..] == Path(q);
      assert [q.first] + q.segments == p.segments;
    }
  }

  // ---- Segment by segment ----

  /** What becomes of one segment. */
  function SegmentLabel(segment: string): string {
    if UuidAt(segment) then ":id" + segment[UUID_LENGTH..]
    else if DigitAt(segment) then ":n" + DropDigits(segment)
    else segment
  }

  function Labels(segments: seq<string>): (r: seq<string>)
    ensures |r| == |segments| && forall i :: 0 <= i < |r| ==> r[i] == SegmentLabel(segments[i])
  {
    if segments == [] then [] else [SegmentLabel(segments[0])] + Labels(segments[1..])
  }

  /** Text that ends, or goes on with a slash. */
  predicate Rest(s: string) { s == "" || s[0] == '/' }

  lemma UuidStopsAtSlash(segment: string, rest: string)
    requires NoSlash(segment) && Rest(rest)
    ensures UuidAt(segment + rest) <==> UuidAt(segment)
    ensures DigitAt(segment + rest) <==> DigitAt(segment)
  {
    var s := segment + rest;
    assert forall i :: 0 <= i < |segment| ==> s[i] == segment[i];
    if |segment| < UUID_LENGTH && rest != "" { assert s[|segment|] == '/' && !UuidChar('/', |segment|); }
  }

  lemma {:induction false} PassesCopy(text: string, rest: string)
    requires NoSlash(text)
    ensures UuidPass(text + rest) == text + UuidPass(rest) && DigitPass(text + rest) == text + DigitPass(rest)
  {
    if text == "" {
      assert text + rest == rest;
    } else {
      assert text[0] in text;
      PassesCopy(text[1..], rest);
      assert (text + rest)[0] == text[0] && (text + rest)[1..] == text[1..] + rest;
      Unshift(text, UuidPass(rest));
      Unshift(text, DigitPass(rest));
    }
  }

  lemma Unshift(text: string, more: string)
    requires text != ""
    ensures [text[0]] + (text[1..] + more) == text + more
  {}

  lemma {:induction false} DropDigitsStops(segment: string, rest: string)
    requires NoSlash(segment) && Rest(rest)
    ensures DropDigits(segment + rest) == DropDigits(segment) + rest && NoSlash(DropDigits(segment))
    ensures !DigitAt(DropDigits(segment))
  {
    if DigitAt(segment) {
      assert (segment + rest)[0] == segment[0] && (segment + rest)[1..] == segment[1..] + rest;
      DropDigitsStops(segment[1..], rest);
    } else {
      UuidStopsAtSlash(segment, rest);
    }
  }

  function UuidLabel(segment: string): string { if UuidAt(segment) then ":id" + segment[UUID_LENGTH..] else segment }

  function DigitLabel(segment: string): string { if DigitAt(segment) then ":n" + DropDigits(segment) else segment }

  lemma UuidSegment(segment: string, rest: string)
    requires NoSlash(segment) && Rest(rest)
    ensures UuidPass("/" + segment + rest) == "/" + UuidLabel(segment) + UuidPass(rest) && NoSlash(UuidLabel(segment))
  {
    hide UuidAt, NoSlash;
    var s := "/" + segment + rest;
    assert s[0] == '/' && s[1..] == segment + rest;
    UuidStopsAtSlash(segment, rest);
    if UuidAt(segment) {
      assert |segment| >= UUID_LENGTH by { UuidIsLong(segment); }
      var more := segment[UUID_LENGTH..];
      assert s[1 + UUID_LENGTH..] == more + rest;
      assert NoSlash(more) && NoSlash(":id" + more) by { NoSlashInTail(segment, UUID_LENGTH, ":id"); }
      PassesCopy(more, rest);
      Assemble("/:id", "/", ":id", more, UuidPass(rest));
    } else {
      PassesCopy(segment, rest);
      Assemble("/", "/", "", segment, UuidPass(rest));
      assert "" + segment == segment;
    }
  }

  lemma UuidIsLong(s: string)
    requires UuidAt(s)
    ensures |s| >= UUID_LENGTH
  {}

  lemma NoSlashInTail(s: string, n: nat, mark: string)
    requires NoSlash(s) && n <= |s| && NoSlash(mark)
    ensures NoSlash(s[n..]) && NoSlash(mark + s[n..])
  {}

  lemma Assemble(both: string, a: string, b: string, more: string, end: string)
    requires both == a + b
    ensures both + (more + end) == a + (b + more) + end
  {}

  lemma DigitSegment(segment: string, rest: string)
    requires NoSlash(segment) && Rest(rest)
    ensures DigitPass("/" + segment + rest) == "/" + DigitLabel(segment) + DigitPass(rest)
    ensures NoSlash(DigitLabel(segment))
  {
    hide NoSlash, DigitAt, DropDigits;
    var s := "/" + segment + rest;
    assert s[0] == '/' && s[1..] == segment + rest;
    UuidStopsAtSlash(segment, rest);
    if DigitAt(segment) {
      var more := DropDigits(segment);
      DropDigitsStops(segment, rest);
      PassesCopy(more, rest);
      assert NoSlash(":n" + more) by { Concat(":n", more); }
      Assemble("/:n", "/", ":n", more, DigitPass(rest));
    } else {
      PassesCopy(segment, rest);
      Assemble("/", "/", "", segment, DigitPass(rest));
      assert "" + segment == segment;
    }
  }

  lemma Concat(a: string, b: string)
    requires '/' !in a && NoSlash(b)
    ensures NoSlash(a + b)
  {}

  lemma MarksAreNotDigits(more: string)
    ensures !DigitAt(":id" + more) && !DigitAt(":n" + more) && !UuidAt(":id" + more) && !UuidAt(":n" + more)
  {
    assert !UuidChar(':', 0);
  }

  lemma OnePassAfterTheOther(segment: string)
    ensures DigitLabel(UuidLabel(segment)) == SegmentLabel(segment)
  {
    hide DigitAt, UuidAt, DropDigits;
    if UuidAt(segment) {
      assert |segment| >= UUID_LENGTH by { UuidIsLong(segment); } MarksAreNotDigits(segment[UUID_LENGTH..]);
    }
  }

  lemma TailIsRest(segments: seq<string>)
    ensures Rest(Tail(segments))
  {}

  /** The passes work segment by segment. */
  lemma {:induction false} PassesOnTail(segments: seq<string>) returns (between: seq<string>)
    requires forall i :: 0 <= i < |segments| ==> NoSlash(segments[i])
    ensures UuidPass(Tail(segments)) == Tail(between) && DigitPass(Tail(between)) == Tail(Labels(segments))
    ensures forall i :: 0 <= i < |segments| ==> NoSlash(Labels(segments)[i])
  {
    hide NoSlash, SegmentLabel, UuidLabel, DigitLabel;
    if segments == [] {
      between := [];
    } else {
      var rest := PassesOnTail(segments[1..]);
      between := [UuidLabel(segments[0])] + rest;
      assert between[1..] == rest;
      TailIsRest(segments[1..]);
      TailIsRest(rest);
      UuidSegment(segments[0], Tail(segments[1..]));
      DigitSegment(UuidLabel(segments[0]), Tail(rest));
      OnePassAfterTheOther(segments[0]);
      assert Labels(segments)[1..] == Labels(segments[1..]);
      forall i | 0 <= i < |segments| ensures NoSlash(Labels(segments)[i]) {
        if i > 0 { assert Labels(segments)[i] == Labels(segments[1..])[i - 1]; }
      }
    }
  }

  /** Both passes together relabel each segment on its own and leave the rest of the path alone. */
  lemma LabelIsSegmentwise(path: string)
    ensures var p := SplitPath(path);
      Label(path) == Path(Split(p.first, Labels(p.segments))) && WellSplit(Split(p.first, Labels(p.segments))) &&
      forall i :: 0 <= i < |p.segments| ==> Becomes(p.segments[i], Labels(p.segments)[i])
  {
    hide NoSlash, SegmentLabel, SplitPath, Becomes;
    var p := SplitPath(path);
    forall i | 0 <= i < |p.segments| ensures Becomes(p.segments[i], Labels(p.segments)[i]) {
      SegmentBecomes(p.segments[i]);
    }
    PathOfSplit(path);
    var between := PassesOnTail(p.segments);
    PassesCopy(p.first, Tail(p.segments));
    PassesCopy(p.first, Tail(between));
  }

  /** Two paths get the same label exactly when they agree before the first slash, have as many segments, and
      their segments get the same labels. */
  lemma SameLabelExactly(a: string, b: string)
    ensures Label(a) == Label(b) <==>
      SplitPath(a).first == SplitPath(b).first && Labels(SplitPath(a).segments) == Labels(SplitPath(b).segments)
  {
    hide Label, SplitPath, Labels, Path, WellSplit, Becomes;
    LabelIsSegmentwise(a);
    LabelIsSegmentwise(b);
    SplitOfPath(Split(SplitPath(a).first, Labels(SplitPath(a).segments)));
    SplitOfPath(Split(SplitPath(b).first, Labels(SplitPath(b).segments)));
  }

  ghost predicate IsUuid(segment: string) { |segment| == 36 && LooksLikeUuid(segment) }

  ghost predicate IsNumber(segment: string) { segment != "" && forall i :: 0 <= i < |segment| ==> Digit(segment[i]) }

  lemma {:induction false} NumbersVanish(segment: string)
    requires segment == "" || IsNumber(segment)
    ensures DropDigits(segment) == ""
  {
    if segment != "" { NumbersVanish(segment[1..]); }
  }

  lemma NumberIsNoUuid(segment: string)
    requires IsNumber(segment)
    ensures !UuidAt(segment)
  {
    assert |segment| > 8 ==> Digit(segment[8]) && !UuidChar(segment[8], 8);
  }

  /** Ids do not multiply labels: paths that differ only in whole UUID segments, or in whole numbers, share one. */
  lemma IdsShareALabel(a: string, b: string)
    requires var p, q := SplitPath(a), SplitPath(b);
      p.first == q.first && |p.segments| == |q.segments| &&
      forall i :: 0 <= i < |p.segments| ==>
        p.segments[i] == q.segments[i] || (IsUuid(p.segments[i]) && IsUuid(q.segments[i])) ||
          (IsNumber(p.segments[i]) && IsNumber(q.segments[i]))
    ensures Label(a) == Label(b)
  {
    hide Label, SplitPath, UuidAt, IsNumber, IsUuid, SegmentLabel, Becomes;
    var p, q := SplitPath(a), SplitPath(b);
    SameLabelExactly(a, b);
    forall i | 0 <= i < |p.segments| ensures SegmentLabel(p.segments[i]) == SegmentLabel(q.segments[i]) {
      if p.segments[i] != q.segments[i] { WholeIds(p.segments[i]); WholeIds(q.segments[i]); }
    }
    assert Labels(p.segments) == Labels(q.segments);
  }

  lemma WholeIds(segment: string)
    ensures IsUuid(segment) ==> SegmentLabel(segment) == ":id"
    ensures IsNumber(segment) ==> SegmentLabel(segment) == ":n" && !IsUuid(segment)
  {
    hide UuidAt, LooksLikeUuid;
    IdsAreRecognised(segment);
    if IsUuid(segment) { assert segment[UUID_LENGTH..] == ""; }
    if IsNumber(segment) { NumberIsNoUuid(segment); NumbersVanish(segment); }
  }

  // ---- What labels look like ----

  predicate Settled(segment: string) { !UuidAt(segment) && !DigitAt(segment) }

  lemma LabelsAreSettled(segment: string)
    ensures Settled(SegmentLabel(segment)) && SegmentLabel(SegmentLabel(segment)) == SegmentLabel(segment)
  {
    hide UuidAt, DigitAt, DropDigits;
    if UuidAt(segment) {
      assert |segment| >= UUID_LENGTH by { UuidIsLong(segment); }
      MarksAreNotDigits(segment[UUID_LENGTH..]);
    } else if DigitAt(segment) {
      MarksAreNotDigits(DropDigits(segment));
    }
  }

  /** Labelling a label changes nothing. */
  lemma LabelIsIdempotent(path: string)
    ensures Label(Label(path)) == Label(path)
  {
    hide Label, SplitPath, SegmentLabel, Path, WellSplit, Becomes;
    var p := SplitPath(path);
    LabelIsSegmentwise(path);
    SplitOfPath(Split(p.first, Labels(p.segments)));
    LabelIsSegmentwise(Label(path));
    forall i | 0 <= i < |p.segments| ensures SegmentLabel(Labels(p.segments)[i]) == Labels(p.segments)[i] {
      LabelsAreSettled(p.segments[i]);
    }
    assert Labels(Labels(p.segments)) == Labels(p.segments);
  }

  lemma SlashIsLater(text: string, rest: string, i: nat)
    requires NoSlash(text) && i < |text + rest| && (text + rest)[i] == '/'
    ensures i >= |text| && rest[i - |text|] == '/' && (text + rest)[i + 1..] == rest[i - |text| + 1..]
  {
    assert forall k :: 0 <= k < |text| ==> text[k] in text;
  }

  lemma {:induction false} NoIdLeftInTail(segments: seq<string>, i: nat)
    requires forall k :: 0 <= k < |segments| ==> NoSlash(segments[k]) && Settled(segments[k])
    requires i < |Tail(segments)| && Tail(segments)[i] == '/'
    ensures Settled(Tail(segments)[i + 1..])
  {
    hide UuidAt, DigitAt;
    var s, first, rest := Tail(segments), segments[0], Tail(segments[1..]);
    assert s == "/" + first + rest;
    if i == 0 {
      assert s[1..] == first + rest;
      TailIsRest(segments[1..]);
      UuidStopsAtSlash(first, rest);
    } else {
      assert s[1..] == first + rest && s[1..][i - 1] == s[i] && s[1..][i..] == s[i + 1..];
      SlashIsLater(first, rest, i - 1);
      NoIdLeftInTail(segments[1..], i - 1 - |first|);
    }
  }

  /** No slash of a label is followed by a UUID or a digit. */
  lemma NoIdLeft(path: string, i: nat)
    requires i < |Label(path)| && Label(path)[i] == '/'
    ensures !LooksLikeUuid(Label(path)[i + 1..]) && !StartsWithDigit(Label(path)[i + 1..])
  {
    hide Label, SplitPath, SegmentLabel, UuidAt, DigitAt, LooksLikeUuid, StartsWithDigit, Becomes;
    IdsAreRecognised(Label(path)[i + 1..]);
    var p := SplitPath(path);
    LabelIsSegmentwise(path);
    var labels := Labels(p.segments);
    forall k | 0 <= k < |labels| ensures Settled(labels[k]) { LabelsAreSettled(p.segments[k]); }
    var s := Label(path);
    SlashIsLater(p.first, Tail(labels), i);
    NoIdLeftInTail(labels, i - |p.first|);
  }

  function Slashes(s: string): nat { if s == "" then 0 else (if s[0] == '/' then 1 else 0) + Slashes(s[1..]) }

  lemma {:induction false} SlashesAreSegments(s: string)
    ensures Slashes(s) == |SplitPath(s).segments|
  {
    if s != "" { SlashesAreSegments(s[1..]); }
  }

  /** A label has as many slashes as its path. */
  lemma SlashesAreKept(path: string)
    ensures Slashes(Label(path)) == Slashes(path)
  {
    hide Label, SplitPath, SegmentLabel, Path, WellSplit, Slashes, Becomes;
    LabelIsSegmentwise(path);
    SplitOfPath(Split(SplitPath(path).first, Labels(SplitPath(path).segments)));
    SlashesAreSegments(path);
    SlashesAreSegments(Label(path));
  }
}
