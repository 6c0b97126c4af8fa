/** The browser's hand-written reader of the event stream: cut the decoded text at blank lines, however
    the network chunked it, and read each frame's lines. */
module Sse {
  import opened Wrappers
  import opened Text

  datatype SseMessage = SseMessage(event: string, data: string)

  const BLANK_LINE := "\n\n"

  // ---- Framing ----

  predicate BreakAt(s: string, i: nat) { i + 1 < |s| && s[i] == '\n' && s[i + 1] == '\n' }

  lemma BlankLineIsTwoBreaks(s: string, i: nat)
    ensures OccursAt(s, BLANK_LINE, i) <==> BreakAt(s, i)
  {
    if i + 2 <= |s| { assert s[i..i + 2] == [s[i], s[i + 1]]; }
  }

  /** Where the next frame ends. */
  function NextBreak(s: string): (r: Option<nat>)
    ensures r.Some? ==> BreakAt(s, r.value) && forall i: nat :: i < r.value ==> !BreakAt(s, i)
    ensures r.None? ==> forall i: nat :: !BreakAt(s, i)
  {
    hide BreakAt, OccursAt;
    assert forall i: nat :: OccursAt(s, BLANK_LINE, i) <==> BreakAt(s, i) by {
      forall i: nat ensures OccursAt(s, BLANK_LINE, i) <==> BreakAt(s, i) { BlankLineIsTwoBreaks(s, i); }
    }
    IndexOf(s, BLANK_LINE)
  }

  /** The complete frames of a text, and what is left after the last blank line. */
  datatype Cut = Cut(frames: seq<string>, rest: string)

  function CutFrames(s: string): Cut
    decreases |s|
  {
    hide IndexOf, OccursAt;
    match NextBreak(s)
    case None => Cut([], s)
    case Some(i) =>
      var more := CutFrames(s[i + 2..]);
      Cut([s[..i]] + more.frames, more.rest)
  }

  function Rejoin(frames: seq<string>): string {
    if frames == [] then "" else frames[0] + BLANK_LINE + Rejoin(frames[1..])
  }

  function Concat(chunks: seq<string>): string {
    if chunks == [] then "" else Concat(chunks[..|chunks| - 1]) + chunks[|chunks| - 1]
  }

  lemma FirstBreak(s: string, i: nat)
    requires BreakAt(s, i) && forall j: nat :: j < i ==> !BreakAt(s, j)
    ensures NextBreak(s) == Some(i)
  {
    hide BreakAt, NextBreak;
  }

  /** More text after a blank line does not move it. */
  lemma BlankLineStays(a: string, b: string, i: nat)
    requires NextBreak(a) == Some(i)
    ensures NextBreak(a + b) == Some(i) && (a + b)[..i] == a[..i] && (a + b)[i + 2..] == a[i + 2..] + b
  {
    hide NextBreak;
    assert forall j: nat :: j <= i ==> (BreakAt(a + b, j) <==> BreakAt(a, j));
    FirstBreak(a + b, i);
  }

  lemma CutUnfolds(s: string, i: nat)
    requires NextBreak(s) == Some(i)
    ensures i + 2 <= |s|
    ensures CutFrames(s) == Cut([s[..i]] + CutFrames(s[i + 2..]).frames, CutFrames(s[i + 2..]).rest)
  {
    hide NextBreak;
  }

  lemma NothingToCut(s: string)
    requires NextBreak(s) == None
    ensures CutFrames(s) == Cut([], s)
  {
    hide NextBreak;
  }

  /** Cutting is insensitive to chunking: cut what there is, then cut the rest with what comes next. */
  lemma {:induction false} CutExtends(a: string, b: string)
    ensures CutFrames(a + b).frames == CutFrames(a).frames + CutFrames(CutFrames(a).rest + b).frames
    ensures CutFrames(a + b).rest == CutFrames(CutFrames(a).rest + b).rest
    decreases |a|
  {
    hide NextBreak, CutFrames, BreakAt;
    match NextBreak(a) {
      case None => NothingToCut(a);
      case Some(i) =>
        CutUnfolds(a, i);
        BlankLineStays(a, b, i);
        CutUnfolds(a + b, i);
        CutExtends(a[i + 2..], b);
    }
  }

  lemma SplitAtBreak(s: string, i: nat)
    requires BreakAt(s, i)
    ensures s == s[..i] + BLANK_LINE + s[i + 2..]
  {}

  lemma RejoinUnfolds(first: string, more: seq<string>)
    ensures Rejoin([first] + more) == first + BLANK_LINE + Rejoin(more)
  {
    assert ([first] + more)[1..] == more;
  }

  /** Frames and separators consumed, plus the buffer, are the input: nothing is lost or invented. */
  lemma {:induction false} CutRejoins(s: string)
    ensures Rejoin(CutFrames(s).frames) + CutFrames(s).rest == s
    ensures NextBreak(CutFrames(s).rest) == None
    decreases |s|
  {
    hide NextBreak, CutFrames, BreakAt;
    match NextBreak(s) {
      case None =>
        NothingToCut(s);
      case Some(i) =>
        CutUnfolds(s, i);
        CutRejoins(s[i + 2..]);
        RejoinUnfolds(s[..i], CutFrames(s[i + 2..]).frames);
        SplitAtBreak(s, i);
        Regroup(s[..i], BLANK_LINE, Rejoin(CutFrames(s[i + 2..]).frames), CutFrames(s[i + 2..]).rest);
    }
  }

  lemma Regroup(a: string, b: string, c: string, d: string)
    ensures a + b + c + d == a + b + (c + d)
  {}

  // ---- One frame ----

  predicate StartsWith(s: string, p: string) { p <= s }

  function SplitLines(s: string): seq<string>
    decreases |s|
  {
    match IndexOf(s, "\n")
    case None => [s]
    case Some(i) => [s[..i]] + SplitLines(s[i + 1..])
  }

  datatype Fields = Fields(event: string, dataLines: seq<string>)

  function ReadLine(f: Fields, line: string): Fields {
    if StartsWith(line, ":") then f
    else if StartsWith(line, "event:") then f.(event := Trim(line[6..]))
    else if StartsWith(line, "data:") then f.(dataLines := f.dataLines + [Trim(line[5..])])
    else f
  }

  function ReadLines(f: Fields, lines: seq<string>): Fields {
    if lines == [] then f else ReadLine(ReadLines(f, lines[..|lines| - 1]), lines[|lines| - 1])
  }

  function Parsed(raw: string): Option<SseMessage> {
    var f := ReadLines(Fields("message", []), SplitLines(raw));
    if f.dataLines == [] then None else Some(SseMessage(f.event, Join(f.dataLines, "\n")))
  }

  method ParseEvent(raw: string) returns (r: Option<SseMessage>)
    ensures r == Parsed(raw)
  {
    var event := "message";
    var dataLines: seq<string> := [];
    var lines := SplitLines(raw);
    for i := 0 to |lines|
      invariant Fields(event, dataLines) == ReadLines(Fields("message", []), lines[..i])
    {
      var line := lines[i];
      assert lines[..i + 1][..i] == lines[..i];
      if StartsWith(line, ":") { continue; }
      if StartsWith(line, "event:") { event := Trim(line[6..]); }
      else if StartsWith(line, "data:") { dataLines := dataLines + [Trim(line[5..])]; }
    }
    assert lines[..|lines|] == lines;
    r := if |dataLines| > 0 then Some(SseMessage(event, Join(dataLines, "\n"))) else None;
  }

  // ---- What a frame means, line by line ----

  ghost predicate AreLines(raw: string, lines: seq<string>) {
    Terminated(lines) == raw + "\n" && forall i :: 0 <= i < |lines| ==> '\n' !in lines[i]
  }

  /** The last `event:` line names the event; without one it is a message. */
  ghost function EventNamed(lines: seq<string>): string {
    if lines == [] then "message"
    else if "event:" <= lines[|lines| - 1] then Trim(lines[|lines| - 1][6..])
    else EventNamed(lines[..|lines| - 1])
  }

  /** What the `data:` lines carry, in order. */
  ghost function DataCarried(lines: seq<string>): seq<string> {
    if lines == [] then []
    else
      var last := lines[|lines| - 1];
      DataCarried(lines[..|lines| - 1]) + (if "data:" <= last then [Trim(last[5..])] else [])
  }

  lemma NoBreakBefore(raw: string, n: nat)
    requires n <= |raw| && forall i: nat :: i < n ==> !OccursAt(raw, "\n", i)
    ensures '\n' !in raw[..n]
  {
    forall i | 0 <= i < n ensures raw[i] != '\n' { NotABreak(raw, i); }
  }

  lemma NotABreak(raw: string, i: nat)
    requires i < |raw| && !OccursAt(raw, "\n", i)
    ensures raw[i] != '\n'
  {
    assert raw[i..i + 1] == [raw[i]];
  }

  lemma {:induction false} LinesOfRaw(raw: string)
    ensures AreLines(raw, SplitLines(raw))
    decreases |raw|
  {
    hide IndexOf, OccursAt, Terminated;
    match IndexOf(raw, "\n")
    case None =>
      TerminatedFromTheFront(raw, []);
      assert [raw] + [] == [raw] && Terminated([]) == "" by { NoLines(); }
      assert '\n' !in raw by {
        NoBreakBefore(raw, |raw|);
        assert raw[..|raw|] == raw;
      }
    case Some(i) =>
      OneBreak(raw, i);
      var rest := SplitLines(raw[i + 1..]);
      LinesOfRaw(raw[i + 1..]);
      TerminatedFromTheFront(raw[..i], rest);
      NoBreakBefore(raw, i);
  }

  lemma NoLines()
    ensures Terminated([]) == ""
  {}

  lemma OneBreak(raw: string, i: nat)
    requires OccursAt(raw, "\n", i)
    ensures i < |raw|
    ensures raw == raw[..i] + "\n" + raw[i + 1..]
  {
    assert raw[i..i + 1] == "\n";
  }

  lemma {:induction false} LinesAreRead(lines: seq<string>)
    ensures ReadLines(Fields("message", []), lines) == Fields(EventNamed(lines), DataCarried(lines))
  {
    hide Trim;
    if lines != [] {
      LinesAreRead(lines[..|lines| - 1]);
      var last := lines[|lines| - 1];
      if StartsWith(last, ":") { assert last[0] == ':'; }
      if "event:" <= last { assert last[0] == 'e'; }
      if "data:" <= last { assert last[0] == 'd'; }
    }
  }

  /** Any frame, not only the server's: it is dropped when it carries no data; otherwise its data lines are joined by
      line breaks, and comments and other fields are ignored. */
  lemma ParsedMeans(raw: string) returns (lines: seq<string>)
    ensures AreLines(raw, lines)
    ensures match Parsed(raw)
      case None => DataCarried(lines) == []
      case Some(m) =>
        DataCarried(lines) != [] && Terminated(DataCarried(lines)) == m.data + "\n" && m.event == EventNamed(lines)
  {
    hide Trim, SplitLines, Terminated;
    lines := SplitLines(raw);
    LinesOfRaw(raw);
    LinesAreRead(lines);
    if DataCarried(lines) != [] { JoinedLines(DataCarried(lines)); }
  }

  function Messages(frames: seq<string>): seq<SseMessage> {
    if frames == [] then []
    else
      var last := Parsed(frames[|frames| - 1]);
      Messages(frames[..|frames| - 1]) + (if last.Some? then [last.value] else [])
  }

  lemma MessagesGrow(frames: seq<string>, raw: string)
    ensures Messages(frames + [raw]) == Messages(frames) + (if Parsed(raw).Some? then [Parsed(raw).value] else [])
  {
    hide Parsed;
    assert (frames + [raw])[..|frames|] == frames;
  }

  lemma {:induction false} MessagesAdd(a: seq<string>, b: seq<string>)
    ensures Messages(a + b) == Messages(a) + Messages(b)
  {
    hide Parsed;
    if b == [] {
      assert a + b == a;
    } else {
      var n := |b| - 1;
      MessagesAdd(a, b[..n]);
      assert a + b == (a + b[..n]) + [b[n]] && b == b[..n] + [b[n]];
      MessagesGrow(a + b[..n], b[n]);
      MessagesGrow(b[..n], b[n]);
    }
  }

  /** The inner loop of `streamEvents`: yield every frame the buffer completes. */
  method Drain(buffered: string) returns (events: seq<SseMessage>, buffer: string)
    ensures events == Messages(CutFrames(buffered).frames) && buffer == CutFrames(buffered).rest
  {
    hide NextBreak, CutFrames, BreakAt, Parsed, Messages;
    buffer, events := buffered, [];
    ghost var frames: seq<string> := [];
    assert Messages(frames) == [] by { NoMessages(); }
    var boundary := NextBreak(buffer);
    while boundary.Some?
      invariant boundary == NextBreak(buffer) && events == Messages(frames)
      invariant CutFrames(buffered).frames == frames + CutFrames(buffer).frames
      invariant CutFrames(buffered).rest == CutFrames(buffer).rest
      decreases |buffer|
    {
      CutUnfolds(buffer, boundary.value);
      var raw := buffer[..boundary.value];
      buffer := buffer[boundary.value + 2..];
      var message := ParseEvent(raw);
      MessagesGrow(frames, raw);
      frames := frames + [raw];
      if message.Some? { events := events + [message.value]; }
      boundary := NextBreak(buffer);
    }
    NothingToCut(buffer);
    assert frames + [] == frames;
  }

  lemma NoMessages()
    ensures Messages([]) == []
  {}

  lemma ConcatGrows(chunks: seq<string>, i: nat)
    requires i < |chunks|
    ensures Concat(chunks[..i + 1]) == Concat(chunks[..i]) + chunks[i]
  {
    assert chunks[..i + 1][..i] == chunks[..i];
  }

  /** `streamEvents`: whatever the chunks, the events are those of the complete frames of the whole text, and
      the buffer is its incomplete end. */
  method StreamEvents(chunks: seq<string>) returns (events: seq<SseMessage>, buffer: string)
    ensures events == Messages(CutFrames(Concat(chunks)).frames)
    ensures Rejoin(CutFrames(Concat(chunks)).frames) + buffer == Concat(chunks) && NextBreak(buffer) == None
  {
    hide NextBreak, CutFrames, BreakAt, Parsed, Messages;
    buffer, events := "", [];
    NoMessages();
    NoBreakInNothing();
    NothingToCut("");
    for i := 0 to |chunks|
      invariant events == Messages(CutFrames(Concat(chunks[..i])).frames)
      invariant buffer == CutFrames(Concat(chunks[..i])).rest
    {
      ConcatGrows(chunks, i);
      CutExtends(Concat(chunks[..i]), chunks[i]);
      MessagesAdd(CutFrames(Concat(chunks[..i])).frames, CutFrames(buffer + chunks[i]).frames);
      var more: seq<SseMessage>;
      more, buffer := Drain(buffer + chunks[i]);
      events := events + more;
    }
    assert chunks[..|chunks|] == chunks;
    CutRejoins(Concat(chunks));
  }

  // ---- What the server writes ----

  /** A task frame carries one line of JSON; a heartbeat is a comment. */
  datatype Item = Task(json: string) | Heartbeat

  predicate JsonLine(s: string) { s != "" && '\n' !in s && s[0] == '{' && s[|s| - 1] == '}' }

  predicate Writable(items: seq<Item>) { forall i :: 0 <= i < |items| && items[i].Task? ==> JsonLine(items[i].json) }

  function Raw(item: Item): string {
    match item
    case Task(json) => "event: task" + ("\n" + ("data: " + json))
    case Heartbeat => ": ping"
  }

  function Wire(items: seq<Item>): string {
    if items == [] then "" else Raw(items[0]) + BLANK_LINE + Wire(items[1..])
  }

  function Sent(items: seq<Item>): seq<SseMessage> {
    if items == [] then []
    else
      var last := items[|items| - 1];
      Sent(items[..|items| - 1]) + (if last.Task? then [SseMessage("task", last.json)] else [])
  }

  /** How many of the items are complete in the first `n` characters written. */
  function CompleteItems(items: seq<Item>, n: nat): (k: nat)
    ensures k <= |items|
  {
    if items == [] || n < |Raw(items[0])| + 2 then 0
    else 1 + CompleteItems(items[1..], n - |Raw(items[0])| - 2)
  }

  function Raws(items: seq<Item>): seq<string> {
    if items == [] then [] else [Raw(items[0])] + Raws(items[1..])
  }

  /** A text without line breaks next to each other or at its end. */
  ghost predicate Compact(s: string) {
    s != "" && s[|s| - 1] != '\n' && forall i :: 0 <= i < |s| - 1 ==> s[i] != '\n' || s[i + 1] != '\n'
  }

  lemma RawIsCompact(item: Item)
    requires item.Task? ==> JsonLine(item.json)
    ensures Compact(Raw(item))
  {
    if item.Task? {
      var head, tail := "event: task", "data: " + item.json;
      assert tail[|tail| - 1] == item.json[|item.json| - 1];
      forall i | 0 <= i < |tail| ensures tail[i] != '\n' { if i >= 6 { assert tail[i] == item.json[i - 6]; } }
      TwoLinesAreCompact(head, tail);
    }
  }

  lemma TwoLinesAreCompact(head: string, tail: string)
    requires '\n' !in head && tail != "" && forall i :: 0 <= i < |tail| ==> tail[i] != '\n'
    ensures Compact(head + ("\n" + tail))
  {
    var s := head + ("\n" + tail);
    forall i | 0 <= i < |s| && s[i] == '\n' ensures i == |head| {}
  }

  /** A compact frame followed by its separator is cut off exactly there, and not before it is complete. */
  lemma CutOneFrame(raw: string, p: string, rest: string)
    requires Compact(raw) && p <= raw + BLANK_LINE + rest
    ensures |p| < |raw| + 2 ==> NextBreak(p) == None
    ensures |p| >= |raw| + 2 ==> NextBreak(p) == Some(|raw|) && p[..|raw|] == raw && p[|raw| + 2..] <= rest
  {
    hide NextBreak;
    var whole := raw + BLANK_LINE + rest;
    assert forall j: nat :: j < |raw| && j < |p| ==> p[j] == raw[j];
    assert forall j: nat :: j < |raw| ==> !BreakAt(p, j);
    if |p| >= |raw| + 2 {
      assert p[|raw|] == whole[|raw|] && p[|raw| + 1] == whole[|raw| + 1];
      FirstBreak(p, |raw|);
    } else {
      assert forall j: nat :: |raw| <= j ==> !BreakAt(p, j);
    }
  }

  lemma RawsUnfold(items: seq<Item>, k: nat)
    requires items != [] && k <= |items| - 1
    ensures Raws(items[..k + 1]) == [Raw(items[0])] + Raws(items[1..][..k])
  {
    hide Raw;
    assert items[..k + 1][1..] == items[1..][..k];
  }

  /** However far the server's text has arrived, it is cut into the frames that are complete. */
  lemma {:induction false} CutWire(items: seq<Item>, p: string)
    requires Writable(items) && p <= Wire(items)
    ensures CutFrames(p).frames == Raws(items[..CompleteItems(items, |p|)])
    decreases |items|
  {
    hide NextBreak, CutFrames, BreakAt, Raw, Compact;
    if items == [] {
      assert NextBreak(p) == None by { assert p == ""; NoBreakInNothing(); }
      NothingToCut(p);
    } else {
      RawIsCompact(items[0]);
      var raw, rest := Raw(items[0]), Wire(items[1..]);
      CutOneFrame(raw, p, rest);
      if |p| >= |raw| + 2 {
        CutWire(items[1..], p[|raw| + 2..]);
        CutUnfolds(p, |raw|);
        RawsUnfold(items, CompleteItems(items[1..], |p| - |raw| - 2));
      } else {
        NothingToCut(p);
      }
    }
  }

  lemma NoBreakInNothing()
    ensures NextBreak("") == None
  {}

  lemma SplitTwoLines(head: string, tail: string)
    requires '\n' !in head && '\n' !in tail
    ensures SplitLines(head + ("\n" + tail)) == [head, tail]
  {
    var s := head + ("\n" + tail);
    LineBreakAt(s, |head|);
    assert s[..|head|] == head && s[|head| + 1..] == tail;
    OneLineOnly(tail);
  }

  lemma LineBreakAt(s: string, i: nat)
    requires i < |s| && s[i] == '\n' && forall j :: 0 <= j < i ==> s[j] != '\n'
    ensures IndexOf(s, "\n") == Some(i)
  {
    assert OccursAt(s, "\n", i);
    forall j: nat | j < i ensures !OccursAt(s, "\n", j) { assert s[j..j + 1][0] == s[j]; }
  }

  lemma OneLineOnly(s: string)
    requires '\n' !in s
    ensures SplitLines(s) == [s]
  {
    forall i: nat | i < |s| ensures !OccursAt(s, "\n", i) { NotThere(s, i); }
    assert IndexOf(s, "\n") == None;
  }

  lemma NotThere(s: string, i: nat)
    requires i < |s| && s[i] != '\n'
    ensures !OccursAt(s, "\n", i)
  {
    assert s[i..i + 1][0] == s[i];
  }

  lemma TrimmedJson(json: string)
    requires JsonLine(json)
    ensures Trim(" " + json) == json && Trim(json) == json
  {
    assert (" " + json)[1..] == json && IsSpace(' ') && !IsSpace('{') && !IsSpace('}');
    assert TrimStart(json) == json && TrimEnd(json) == json;
    assert TrimStart(" " + json) == TrimStart(json);
  }

  /** Each frame the server writes is read back as what it carried. */
  lemma ParsedRaw(item: Item)
    requires item.Task? ==> JsonLine(item.json)
    ensures Parsed(Raw(item)) == match item case Task(json) => Some(SseMessage("task", json)) case Heartbeat => None
  {
    match item {
      case Heartbeat =>
        OneLineOnly(": ping");
        ReadOne(Fields("message", []), ": ping");
        assert StartsWith(": ping", ":");
      case Task(json) =>
        SplitTwoLines("event: task", "data: " + json);
        ReadTwo(Fields("message", []), "event: task", "data: " + json);
        ReadEventLine(Fields("message", []));
        ReadDataLine(Fields("task", []), json);
    }
  }

  lemma ReadOne(f: Fields, line: string)
    ensures ReadLines(f, [line]) == ReadLine(f, line)
  {
    assert [line][..0] == [];
  }

  lemma ReadTwo(f: Fields, a: string, b: string)
    ensures ReadLines(f, [a, b]) == ReadLine(ReadLine(f, a), b)
  {
    assert [a, b][..1] == [a];
    ReadOne(f, a);
  }

  lemma ReadEventLine(f: Fields)
    ensures ReadLine(f, "event: task") == f.(event := "task")
  {
    var line := "event: task";
    assert line[0] == 'e' && !StartsWith(line, ":") && line[..6] == "event:" && line[6..] == " task";
    assert " task"[1..] == "task" && IsSpace(' ') && !IsSpace('t') && !IsSpace('k');
    assert TrimStart("task") == "task" && TrimEnd("task") == "task";
    assert TrimStart(" task") == TrimStart("task");
  }

  lemma ReadDataLine(f: Fields, json: string)
    requires JsonLine(json)
    ensures ReadLine(f, "data: " + json) == f.(dataLines := f.dataLines + [json])
  {
    var line := "data: " + json;
    assert line[0] == 'd' && !StartsWith(line, ":") && !StartsWith(line, "event:");
    assert line[..5] == "data:" && line[5..] == " " + json;
    TrimmedJson(json);
  }

  lemma {:induction false} MessagesOfRaws(items: seq<Item>)
    requires Writable(items)
    ensures Messages(Raws(items)) == Sent(items)
  {
    if items != [] {
      var n := |items| - 1;
      MessagesOfRaws(items[..n]);
      ParsedRaw(items[n]);
      RawsAt(items, n);
      assert Raws(items)[..n] == Raws(items[..n]);
    }
  }

  lemma {:induction false} RawsAt(items: seq<Item>, n: nat)
    requires n <= |items|
    ensures |Raws(items)| == |items| && Raws(items)[..n] == Raws(items[..n])
    ensures forall i :: 0 <= i < |items| ==> Raws(items)[i] == Raw(items[i])
  {
    if items != [] {
      RawsAt(items[1..], if n > 0 then n - 1 else 0);
      if n > 0 { assert items[..n][1..] == items[1..][..n - 1]; }
    }
  }

  /** The round trip: for everything the server writes, however much of it has arrived and however it was
      chunked, the reader has yielded the events of exactly the complete frames, in order, unchanged. */
  lemma RoundTrip(items: seq<Item>, chunks: seq<string>)
    requires Writable(items) && Concat(chunks) <= Wire(items)
    ensures Messages(CutFrames(Concat(chunks)).frames) == Sent(items[..CompleteItems(items, |Concat(chunks)|)])
  {
    var p := Concat(chunks);
    hide NextBreak, CutFrames, Raw, Messages, Sent;
    CutWire(items, p);
    MessagesOfRaws(items[..CompleteItems(items, |p|)]);
  }

  /** When everything has arrived, every event has been yielded and the buffer is empty. */
  lemma {:induction false} AllArrived(items: seq<Item>)
    requires Writable(items)
    ensures CompleteItems(items, |Wire(items)|) == |items| && CutFrames(Wire(items)).rest == ""
  {
    hide NextBreak, CutFrames, BreakAt, Raw, Compact;
    if items == [] {
      NoBreakInNothing();
      NothingToCut("");
    } else {
      AllArrived(items[1..]);
      RawIsCompact(items[0]);
      CutOneFrame(Raw(items[0]), Wire(items), Wire(items[1..]));
      CutUnfolds(Wire(items), |Raw(items[0])|);
      assert Wire(items)[|Raw(items[0])| + 2..] == Wire(items[1..]);
    }
  }
}
