/** The logger's sanitizer, over arbitrary and possibly cyclic object graphs without Error values. */
module Sanitizer {
  datatype Leaf = Null | Undefined | Bool(b: bool) | Number(n: real) | Text(s: string)

  /** A value as the caller passes it; big integers and dates are known by the string they become. */
  datatype Value = Plainly(leaf: Leaf) | BigInt(digits: string) | Date(iso: string) | Ref(id: nat)

  datatype Kind = Array | Record

  datatype Slot = Slot(key: string, value: Value)

  /** An array's slots have no key. */
  datatype Object = Object(kind: Kind, slots: seq<Slot>)

  predicate Known(h: map<nat, Object>, v: Value) { v.Ref? ==> v.id in h }

  predicate Closed(h: map<nat, Object>) {
    forall id, i :: id in h && 0 <= i < |h[id].slots| ==> Known(h, h[id].slots[i].value)
  }

  type Heap = h: map<nat, Object> | Closed(h) witness map[]

  /** What is written: `from` is the object a node copies. */
  datatype Output = Atom(leaf: Leaf) | Node(from: nat, kind: Kind, slots: seq<OutputSlot>)

  datatype OutputSlot = OutputSlot(key: string, value: Output)

  const DEPTH_LIMIT: nat := 8

  const REDACTED := Atom(Text("[redacted]"))
  const CIRCULAR := Atom(Text("[circular]"))
  const TOO_DEEP := Atom(Text("[depth-limit]"))

  /** `toLowerCase`, as far as it can produce an ASCII letter: the Kelvin sign's lower case is k. */
  function LowerCase(c: char): char {
    if 'A' <= c <= 'Z' then c + 32 as char else if c == '\U{212A}' then 'k' else c
  }

  function ToLower(s: string): string { if s == "" then "" else [LowerCase(s[0])] + ToLower(s[1..]) }

  const REDACTED_KEYS := {
    "password", "passwordhash", "token", "accesstoken", "refreshtoken", "authorization", "cookie", "apikey", "api_key",
    "anthropic_api_key", "jwt_secret", "secret", "s3_secret_key"
  }

  predicate Redacts(kind: Kind, key: string) { kind.Record? && ToLower(key) in REDACTED_KEYS }

  // ---- Secrets, letter by letter ----

  /** `letter` is a small letter, a digit or `_`, and `c` a way to write it. */
  ghost predicate SameLetter(c: char, letter: char) {
    c == letter || ('a' <= letter <= 'z' && c as int + 32 == letter as int) || (letter == 'k' && c == '\U{212A}')
  }

  ghost predicate SameUpToCase(key: string, name: string) {
    |key| == |name| && forall i :: 0 <= i < |name| ==> SameLetter(key[i], name[i])
  }

  /** A key that names a secret, in whatever case. */
  ghost predicate Secret(key: string) {
    SameUpToCase(key, "password") || SameUpToCase(key, "passwordhash") || SameUpToCase(key, "token") ||
    SameUpToCase(key, "accesstoken") || SameUpToCase(key, "refreshtoken") || SameUpToCase(key, "authorization") ||
    SameUpToCase(key, "cookie") || SameUpToCase(key, "apikey") || SameUpToCase(key, "api_key") ||
    SameUpToCase(key, "anthropic_api_key") || SameUpToCase(key, "jwt_secret") || SameUpToCase(key, "secret") ||
    SameUpToCase(key, "s3_secret_key")
  }

  ghost predicate Hidden(kind: Kind, key: string) { kind == Record && Secret(key) }

  ghost predicate SmallLetters(name: string) {
    forall i :: 0 <= i < |name| ==> 'a' <= name[i] <= 'z' || name[i] == '_' || name[i] == '3'
  }

  lemma {:induction false} LowersTo(key: string, name: string)
    requires SmallLetters(name)
    ensures ToLower(key) == name <==> SameUpToCase(key, name)
  {
    if key != "" && name != "" {
      LowersTo(key[1..], name[1..]);
      assert name == [name[0]] + name[1..];
      if SameUpToCase(key[1..], name[1..]) && SameLetter(key[0], name[0]) {
        forall i | 0 <= i < |name| ensures SameLetter(key[i], name[i]) {
          if i > 0 { assert SameLetter(key[1..][i - 1], name[1..][i - 1]); }
        }
      }
      if SameUpToCase(key, name) {
        forall i | 0 <= i < |name| - 1 ensures SameLetter(key[1..][i], name[1..][i]) {
          assert SameLetter(key[i + 1], name[i + 1]);
        }
      }
    }
  }

  lemma TheNamesAreSmall()
    ensures SmallLetters("password") && SmallLetters("passwordhash") && SmallLetters("token")
    ensures SmallLetters("accesstoken") && SmallLetters("refreshtoken") && SmallLetters("authorization")
    ensures SmallLetters("cookie") && SmallLetters("apikey") && SmallLetters("api_key")
    ensures SmallLetters("anthropic_api_key") && SmallLetters("jwt_secret") && SmallLetters("secret")
    ensures SmallLetters("s3_secret_key")
  {}

  /** Exactly the slots of records whose key names a secret are redacted. */
  lemma SecretsAreRedacted(kind: Kind, key: string)
    ensures Redacts(kind, key) <==> Hidden(kind, key)
  {
    hide ToLower, SameUpToCase, SmallLetters;
    TheNamesAreSmall();
    LowersTo(key, "password"); LowersTo(key, "passwordhash"); LowersTo(key, "token");
    LowersTo(key, "accesstoken"); LowersTo(key, "refreshtoken"); LowersTo(key, "authorization");
    LowersTo(key, "cookie"); LowersTo(key, "apikey"); LowersTo(key, "api_key");
    LowersTo(key, "anthropic_api_key"); LowersTo(key, "jwt_secret"); LowersTo(key, "secret");
    LowersTo(key, "s3_secret_key");
  }

  // ---- What `sanitize` computes ----

  datatype Done = Done(out: Output, seen: set<nat>)

  datatype DoneSlots = DoneSlots(slots: seq<OutputSlot>, seen: set<nat>)

  function Room(depth: nat): nat { if depth < DEPTH_LIMIT then DEPTH_LIMIT - depth else 0 }

  predicate AllKnown(h: Heap, slots: seq<Slot>) { forall i :: 0 <= i < |slots| ==> Known(h, slots[i].value) }

  function Sanitized(h: Heap, v: Value, seen: set<nat>, depth: nat): Done
    requires Known(h, v)
    decreases Room(depth), 0
  {
    match v
    case Plainly(leaf) => Done(Atom(leaf), seen)
    case BigInt(digits) => Done(Atom(Text(digits)), seen)
    case Date(iso) => Done(Atom(Text(iso)), seen)
    case Ref(id) =>
      if depth >= DEPTH_LIMIT then Done(TOO_DEEP, seen)
      else if id in seen then Done(CIRCULAR, seen)
      else
        var d := SanitizedSlots(h, h[id].kind, h[id].slots, seen + {id}, depth + 1);
        Done(Node(id, h[id].kind, d.slots), d.seen)
  }

  function SanitizedSlots(h: Heap, kind: Kind, slots: seq<Slot>, seen: set<nat>, depth: nat): DoneSlots
    requires AllKnown(h, slots)
    decreases Room(depth), 1 + |slots|
  {
    if slots == [] then DoneSlots([], seen)
    else
      var last := slots[|slots| - 1];
      var before := SanitizedSlots(h, kind, slots[..|slots| - 1], seen, depth);
      var d := if Redacts(kind, last.key) then Done(REDACTED, before.seen)
               else Sanitized(h, last.value, before.seen, depth);
      DoneSlots(before.slots + [OutputSlot(last.key, d.out)], d.seen)
  }

  // ---- Depth and redaction ----

  /** Nodes stand at depths below the limit only. */
  ghost predicate Shallow(out: Output, depth: nat) {
    out.Node? ==> depth < 8 && forall i :: 0 <= i < |out.slots| ==> Shallow(out.slots[i].value, depth + 1)
  }

  /** No secret, at any depth, holds anything but the mark. */
  ghost predicate Clean(out: Output) {
    out.Node? ==> forall i :: 0 <= i < |out.slots| ==>
      (Hidden(out.kind, out.slots[i].key) ==> out.slots[i].value == Atom(Text("[redacted]"))) &&
      Clean(out.slots[i].value)
  }

  /** Every node has the kind and the keys of the object it copies. */
  ghost predicate Copies(h: Heap, out: Output) {
    out.Atom? ||
    (out.from in h && out.kind == h[out.from].kind && |out.slots| == |h[out.from].slots| &&
     forall i :: 0 <= i < |out.slots| ==> out.slots[i].key == h[out.from].slots[i].key && Copies(h, out.slots[i].value))
  }

  ghost predicate Good(h: Heap, out: Output, depth: nat) { Shallow(out, depth) && Clean(out) && Copies(h, out) }

  ghost predicate GoodSlots(h: Heap, kind: Kind, slots: seq<Slot>, outs: seq<OutputSlot>, depth: nat) {
    |outs| == |slots| &&
    forall i :: 0 <= i < |outs| ==> outs[i].key == slots[i].key && Good(h, outs[i].value, depth) &&
                                    (Hidden(kind, outs[i].key) ==> outs[i].value == Atom(Text("[redacted]")))
  }

  lemma {:induction false} SanitizedIsGood(h: Heap, v: Value, seen: set<nat>, depth: nat)
    requires Known(h, v)
    ensures Good(h, Sanitized(h, v, seen, depth).out, depth)
    decreases Room(depth), 0
  {
    hide Redacts, Hidden;
    if v.Ref? && depth < DEPTH_LIMIT && v.id !in seen {
      SlotsAreGood(h, h[v.id].kind, h[v.id].slots, seen + {v.id}, depth + 1);
    }
  }

  lemma {:induction false} SlotsAreGood(h: Heap, kind: Kind, slots: seq<Slot>, seen: set<nat>, depth: nat)
    requires AllKnown(h, slots)
    ensures GoodSlots(h, kind, slots, SanitizedSlots(h, kind, slots, seen, depth).slots, depth)
    decreases Room(depth), 1 + |slots|
  {
    hide Redacts, Hidden, Sanitized, Shallow, Clean, Copies;
    if slots != [] {
      var n := |slots| - 1;
      SlotsAreGood(h, kind, slots[..n], seen, depth);
      SecretsAreRedacted(kind, slots[n].key);
      MarkIsGood(h, depth);
      if !Redacts(kind, slots[n].key) {
        SanitizedIsGood(h, slots[n].value, SanitizedSlots(h, kind, slots[..n], seen, depth).seen, depth);
      }
    }
  }

  lemma MarkIsGood(h: Heap, depth: nat)
    ensures Good(h, REDACTED, depth)
  {}

  // ---- Every object once ----

  /** The objects a result copies, in the order they are met. */
  function Expansions(out: Output): seq<nat> {
    match out
    case Atom(_) => []
    case Node(from, _, slots) => [from] + SlotExpansions(slots)
  }

  function SlotExpansions(slots: seq<OutputSlot>): seq<nat> {
    if slots == [] then [] else SlotExpansions(slots[..|slots| - 1]) + Expansions(slots[|slots| - 1].value)
  }

  ghost predicate Distinct(ids: seq<nat>) { forall i, j :: 0 <= i < j < |ids| ==> ids[i] != ids[j] }

  function Elements(ids: seq<nat>): set<nat> { set id | id in ids }

  lemma DistinctConcat(a: seq<nat>, b: seq<nat>)
    ensures Distinct(a + b) <==> Distinct(a) && Distinct(b) && Elements(a) !! Elements(b)
    ensures Elements(a + b) == Elements(a) + Elements(b)
  {
    var ab := a + b;
    if Distinct(ab) {
      assert forall i :: 0 <= i < |a| ==> ab[i] == a[i];
      assert forall j :: 0 <= j < |b| ==> ab[|a| + j] == b[j];
      forall i, j | 0 <= i < |a| && 0 <= j < |b| ensures a[i] != b[j] { assert ab[i] == a[i] && ab[|a| + j] == b[j]; }
    }
    if Distinct(a) && Distinct(b) && Elements(a) !! Elements(b) {
      forall i, j | 0 <= i < j < |ab| ensures ab[i] != ab[j] {
        if i < |a| <= j { assert a[i] in Elements(a) && b[j - |a|] in Elements(b); }
      }
    }
  }

  /** What was expanded on the way from one set of seen objects to another. */
  ghost predicate Fresh(ids: seq<nat>, before: set<nat>, after: set<nat>) {
    Distinct(ids) && Elements(ids) !! before && after == before + Elements(ids)
  }

  lemma FreshThen(a: seq<nat>, b: seq<nat>, x: set<nat>, y: set<nat>, z: set<nat>)
    requires Fresh(a, x, y) && Fresh(b, y, z)
    ensures Fresh(a + b, x, z)
  {
    DistinctConcat(a, b);
  }

  lemma FreshOne(id: nat, seen: set<nat>)
    requires id !in seen
    ensures Fresh([id], seen, seen + {id})
  {
    assert Elements([id]) == {id};
  }

  lemma FreshNone(seen: set<nat>)
    ensures Fresh([], seen, seen)
  {}

  /** Exactly the newly seen objects are expanded, each once. */
  lemma {:induction false} ExpandsOnce(h: Heap, v: Value, seen: set<nat>, depth: nat)
    requires Known(h, v)
    ensures var d := Sanitized(h, v, seen, depth); Fresh(Expansions(d.out), seen, d.seen)
    decreases Room(depth), 0
  {
    hide Fresh, SlotExpansions;
    FreshNone(seen);
    if v.Ref? && depth < DEPTH_LIMIT && v.id !in seen {
      var d := SanitizedSlots(h, h[v.id].kind, h[v.id].slots, seen + {v.id}, depth + 1);
      SlotsExpandOnce(h, h[v.id].kind, h[v.id].slots, seen + {v.id}, depth + 1);
      FreshOne(v.id, seen);
      FreshThen([v.id], SlotExpansions(d.slots), seen, seen + {v.id}, d.seen);
    }
  }

  lemma SlotExpansionsGrow(slots: seq<OutputSlot>, last: OutputSlot)
    ensures SlotExpansions(slots + [last]) == SlotExpansions(slots) + Expansions(last.value)
  {
    hide Expansions;
    assert (slots + [last])[..|slots|] == slots;
  }

  lemma {:induction false} SlotsExpandOnce(h: Heap, kind: Kind, slots: seq<Slot>, seen: set<nat>, depth: nat)
    requires AllKnown(h, slots)
    ensures var d := SanitizedSlots(h, kind, slots, seen, depth); Fresh(SlotExpansions(d.slots), seen, d.seen)
    decreases Room(depth), 1 + |slots|
  {
    hide Fresh, Sanitized, Redacts;
    if slots == [] {
      FreshNone(seen);
    } else {
      var n := |slots| - 1;
      var before := SanitizedSlots(h, kind, slots[..n], seen, depth);
      SlotsExpandOnce(h, kind, slots[..n], seen, depth);
      var d := if Redacts(kind, slots[n].key) then Done(REDACTED, before.seen)
               else Sanitized(h, slots[n].value, before.seen, depth);
      if Redacts(kind, slots[n].key) {
        FreshNone(before.seen);
      } else {
        ExpandsOnce(h, slots[n].value, before.seen, depth);
      }
      SlotExpansionsGrow(before.slots, OutputSlot(slots[n].key, d.out));
      FreshThen(SlotExpansions(before.slots), Expansions(d.out), seen, before.seen, d.seen);
    }
  }

  // ---- Slot by slot ----

  /** What is written for a value, told without the walk: a slot is written knowing the objects on the way to it
      and those expanded in the slots before it, and no others. */
  ghost predicate Written(h: Heap, v: Value, seen: set<nat>, depth: nat, out: Output)
    requires Known(h, v)
    decreases if depth < 8 then 8 - depth else 0
  {
    match v
    case Plainly(leaf) => out == Atom(leaf)
    case BigInt(digits) => out == Atom(Text(digits))
    case Date(iso) => out == Atom(Text(iso))
    case Ref(id) =>
      if depth >= 8 then out == Atom(Text("[depth-limit]"))
      else if id in seen then out == Atom(Text("[circular]"))
      else
        out.Node? && out.from == id && out.kind == h[id].kind && |out.slots| == |h[id].slots| &&
        forall i :: 0 <= i < |out.slots| ==> (out.slots[i].key == h[id].slots[i].key &&
          if Hidden(out.kind, out.slots[i].key) then out.slots[i].value == Atom(Text("[redacted]"))
          else Written(h, h[id].slots[i].value, seen + {id} + Elements(SlotExpansions(out.slots[..i])), depth + 1,
                       out.slots[i].value))
  }

  ghost predicate WrittenAt(h: Heap, kind: Kind, slots: seq<Slot>, seen: set<nat>, depth: nat, outs: seq<OutputSlot>,
                            i: nat)
    requires AllKnown(h, slots) && i < |slots| == |outs|
  {
    outs[i].key == slots[i].key &&
    if Hidden(kind, outs[i].key) then outs[i].value == Atom(Text("[redacted]"))
    else Written(h, slots[i].value, seen + Elements(SlotExpansions(outs[..i])), depth, outs[i].value)
  }

  lemma {:induction false} SanitizedIsWritten(h: Heap, v: Value, seen: set<nat>, depth: nat)
    requires Known(h, v)
    ensures Written(h, v, seen, depth, Sanitized(h, v, seen, depth).out)
    decreases Room(depth), 0
  {
    hide Hidden, Redacts, SanitizedSlots, SlotExpansions;
    if v.Ref? && depth < DEPTH_LIMIT && v.id !in seen {
      var o, start := h[v.id], seen + {v.id};
      SlotsAreWritten(h, o.kind, o.slots, start, depth + 1);
      var outs := SanitizedSlots(h, o.kind, o.slots, start, depth + 1).slots;
      forall i | 0 <= i < |outs| ensures outs[i].key == o.slots[i].key && if Hidden(o.kind, outs[i].key)
        then outs[i].value == Atom(Text("[redacted]"))
        else Written(h, o.slots[i].value, start + Elements(SlotExpansions(outs[..i])), depth + 1, outs[i].value)
      {
        assert WrittenAt(h, o.kind, o.slots, start, depth + 1, outs, i);
      }
    }
  }

  lemma WrittenBefore(h: Heap, kind: Kind, slots: seq<Slot>, seen: set<nat>, depth: nat, outs: seq<OutputSlot>, n: nat,
                      i: nat)
    requires AllKnown(h, slots) && i < n <= |slots| == |outs|
    requires WrittenAt(h, kind, slots[..n], seen, depth, outs[..n], i)
    ensures WrittenAt(h, kind, slots, seen, depth, outs, i)
  {
    hide Hidden, Written, SlotExpansions;
    assert outs[..n][..i] == outs[..i];
  }

  lemma LastIsWritten(h: Heap, kind: Kind, slots: seq<Slot>, seen: set<nat>, depth: nat)
    requires AllKnown(h, slots) && slots != []
    ensures var outs := SanitizedSlots(h, kind, slots, seen, depth).slots;
      |outs| == |slots| ==> WrittenAt(h, kind, slots, seen, depth, outs, |slots| - 1)
    decreases Room(depth), |slots|
  {
    hide Hidden, Redacts, Sanitized, Written, SlotExpansions;
    var n := |slots| - 1;
    var before := SanitizedSlots(h, kind, slots[..n], seen, depth);
    SlotsExpandOnce(h, kind, slots[..n], seen, depth);
    SecretsAreRedacted(kind, slots[n].key);
    if !Redacts(kind, slots[n].key) { SanitizedIsWritten(h, slots[n].value, before.seen, depth); }
    var outs := SanitizedSlots(h, kind, slots, seen, depth).slots;
    if |outs| == |slots| { assert outs[..n] == before.slots; }
  }

  lemma {:induction false} SlotsAreWritten(h: Heap, kind: Kind, slots: seq<Slot>, seen: set<nat>, depth: nat)
    requires AllKnown(h, slots)
    ensures var outs := SanitizedSlots(h, kind, slots, seen, depth).slots;
      |outs| == |slots| && forall i: nat :: i < |outs| ==> WrittenAt(h, kind, slots, seen, depth, outs, i)
    decreases Room(depth), 1 + |slots|
  {
    hide Redacts, Sanitized, WrittenAt;
    if slots != [] {
      var n := |slots| - 1;
      var before, outs := SanitizedSlots(h, kind, slots[..n], seen, depth).slots,
                          SanitizedSlots(h, kind, slots, seen, depth).slots;
      SlotsAreWritten(h, kind, slots[..n], seen, depth);
      LastIsWritten(h, kind, slots, seen, depth);
      assert outs[..n] == before;
      forall i: nat | i < n ensures WrittenAt(h, kind, slots, seen, depth, outs, i) {
        WrittenBefore(h, kind, slots, seen, depth, outs, n, i);
      }
    }
  }

  // ---- The size of the output ----

  function Size(out: Output): nat { 1 + if out.Node? then SlotsSize(out.slots) else 0 }

  function SlotsSize(slots: seq<OutputSlot>): nat {
    if slots == [] then 0 else SlotsSize(slots[..|slots| - 1]) + Size(slots[|slots| - 1].value)
  }

  /** The slots of a list of objects, counted once for each time an object is listed. */
  function SlotTotal(h: Heap, ids: seq<nat>): nat {
    if ids == [] then 0
    else SlotTotal(h, ids[..|ids| - 1]) + (if ids[|ids| - 1] in h then |h[ids[|ids| - 1]].slots| else 0)
  }

  lemma {:induction false} TotalConcat(h: Heap, a: seq<nat>, b: seq<nat>)
    ensures SlotTotal(h, a + b) == SlotTotal(h, a) + SlotTotal(h, b)
  {
    if b == [] {
      assert a + b == a;
    } else {
      assert (a + b)[..|a + b| - 1] == a + b[..|b| - 1];
      TotalConcat(h, a, b[..|b| - 1]);
    }
  }

  lemma {:induction false} SizeIsSlots(h: Heap, out: Output)
    requires Copies(h, out)
    ensures Size(out) == 1 + SlotTotal(h, Expansions(out))
    decreases out, if out.Node? then |out.slots| + 1 else 0
  {
    if out.Node? {
      SlotsSizeIsSlots(h, out, |out.slots|);
      assert out.slots[..|out.slots|] == out.slots;
      TotalConcat(h, [out.from], SlotExpansions(out.slots));
      assert [out.from][..0] == [];
      assert SlotTotal(h, [out.from]) == |out.slots|;
    }
  }

  lemma {:induction false} SlotsSizeIsSlots(h: Heap, out: Output, n: nat)
    requires out.Node? && Copies(h, out) && n <= |out.slots|
    ensures SlotsSize(out.slots[..n]) == n + SlotTotal(h, SlotExpansions(out.slots[..n]))
    decreases out, n
  {
    hide Expansions, Size;
    if n > 0 {
      SlotsSizeIsSlots(h, out, n - 1);
      SizeIsSlots(h, out.slots[n - 1].value);
      assert out.slots[..n][..n - 1] == out.slots[..n - 1];
      TotalConcat(h, SlotExpansions(out.slots[..n - 1]), Expansions(out.slots[n - 1].value));
    }
  }

  lemma Without(all: seq<nat>, i: nat)
    requires i < |all|
    ensures all == all[..i] + [all[i]] + all[i + 1..]
  {}

  lemma {:induction false} TotalOfSome(h: Heap, ids: seq<nat>, all: seq<nat>)
    requires Distinct(ids) && Elements(ids) <= Elements(all)
    ensures SlotTotal(h, ids) <= SlotTotal(h, all)
  {
    hide SlotTotal;
    if ids == [] {
      TotalConcat(h, ids, ids);
      assert ids + ids == ids;
    } else {
      var init, last := ids[..|ids| - 1], ids[|ids| - 1];
      assert ids == init + [last] && last in Elements(ids);
      var i :| 0 <= i < |all| && all[i] == last;
      var rest := all[..i] + all[i + 1..];
      Without(all, i);
      DistinctConcat(init, [last]);
      TakeOut(all, i);
      TotalOfSome(h, init, rest);
      TotalConcat(h, init, [last]);
      TotalConcat(h, all[..i] + [all[i]], all[i + 1..]);
      TotalConcat(h, all[..i], [all[i]]);
      TotalConcat(h, all[..i], all[i + 1..]);
    }
  }

  lemma TakeOut(all: seq<nat>, i: nat)
    requires i < |all|
    ensures Elements(all) - {all[i]} <= Elements(all[..i] + all[i + 1..])
  {
    forall id | id in Elements(all) && id != all[i] ensures id in all[..i] + all[i + 1..] {
      var j :| 0 <= j < |all| && all[j] == id;
      if j < i { assert (all[..i] + all[i + 1..])[j] == id; } else { assert (all[..i] + all[i + 1..])[j - 1] == id; }
    }
  }

  /** The output is linear in the graph, however much of it is shared or cyclic: each slot of each expanded
      object is one node, and no object is expanded twice. */
  lemma OutputIsLinear(h: Heap, v: Value, all: seq<nat>)
    requires Known(h, v) && forall id :: id in h ==> id in all
    ensures var out := Sanitized(h, v, {}, 0).out;
      Distinct(Expansions(out)) && Size(out) == 1 + SlotTotal(h, Expansions(out)) && Size(out) <= 1 + SlotTotal(h, all)
  {
    hide Sanitized, Expansions, Size, SlotTotal, Shallow, Clean;
    var out := Sanitized(h, v, {}, 0).out;
    ExpandsOnce(h, v, {}, 0);
    SanitizedIsGood(h, v, {}, 0);
    SizeIsSlots(h, out);
    CopiedFromHeap(h, out);
    TotalOfSome(h, Expansions(out), all);
  }

  lemma {:induction false} CopiedFromHeap(h: Heap, out: Output)
    requires Copies(h, out)
    ensures forall id :: id in Expansions(out) ==> id in h
    decreases out, if out.Node? then |out.slots| + 1 else 0
  {
    if out.Node? {
      SlotsFromHeap(h, out, |out.slots|);
      assert out.slots[..|out.slots|] == out.slots;
    }
  }

  lemma {:induction false} SlotsFromHeap(h: Heap, out: Output, n: nat)
    requires out.Node? && Copies(h, out) && n <= |out.slots|
    ensures forall id :: id in SlotExpansions(out.slots[..n]) ==> id in h
    decreases out, n
  {
    hide Expansions;
    if n > 0 {
      SlotsFromHeap(h, out, n - 1);
      CopiedFromHeap(h, out.slots[n - 1].value);
      assert out.slots[..n][..n - 1] == out.slots[..n - 1];
    }
  }

  // ---- What is left unchanged ----

  /** `out` reads the same as `v`. */
  ghost predicate Mirrors(h: Heap, v: Value, out: Output)
    decreases out
  {
    match out
    case Atom(leaf) => v == Plainly(leaf)
    case Node(from, kind, slots) =>
      v == Ref(from) && from in h && kind == h[from].kind && |slots| == |h[from].slots| &&
      forall i :: 0 <= i < |slots| ==>
        slots[i].key == h[from].slots[i].key && Mirrors(h, h[from].slots[i].value, slots[i].value)
  }

  const MARK: Value := Plainly(Text("[redacted]"))

  /** JSON within the depth limit, with nothing to redact. */
  ghost predicate PlainJson(h: Heap, v: Value, depth: nat)
    decreases Room(depth)
  {
    v.Plainly? || (v.Ref? && v.id in h && depth < 8 &&
    forall i :: 0 <= i < |h[v.id].slots| ==>
      if Hidden(h[v.id].kind, h[v.id].slots[i].key) then h[v.id].slots[i].value == MARK
      else PlainJson(h, h[v.id].slots[i].value, depth + 1))
  }

  /** The objects met when a value is written out as a tree, down to the depth limit. */
  function Met(h: Heap, v: Value, depth: nat): seq<nat>
    decreases Room(depth), 0
  {
    if v.Ref? && v.id in h && depth < DEPTH_LIMIT then [v.id] + SlotsMet(h, h[v.id].slots, depth + 1) else []
  }

  function SlotsMet(h: Heap, slots: seq<Slot>, depth: nat): seq<nat>
    decreases Room(depth), 1 + |slots|
  {
    if slots == [] then [] else SlotsMet(h, slots[..|slots| - 1], depth) + Met(h, slots[|slots| - 1].value, depth)
  }

  /** What mirrors a value within the limits shows that the value was plain, and expands what it meets. */
  lemma {:induction false} MirrorIsPlain(h: Heap, v: Value, out: Output, depth: nat)
    requires Mirrors(h, v, out) && Shallow(out, depth) && Clean(out)
    ensures PlainJson(h, v, depth) && Met(h, v, depth) == Expansions(out)
    decreases out, if out.Node? then |out.slots| + 1 else 0
  {
    hide Hidden;
    if out.Node? {
      forall i | 0 <= i < |out.slots| ensures PlainJson(h, h[v.id].slots[i].value, depth + 1) {
        MirrorIsPlain(h, h[v.id].slots[i].value, out.slots[i].value, depth + 1);
      }
      SlotsMetAreExpanded(h, out, |out.slots|, depth);
      assert out.slots[..|out.slots|] == out.slots && h[v.id].slots[..|out.slots|] == h[v.id].slots;
    }
  }

  lemma {:induction false} SlotsMetAreExpanded(h: Heap, out: Output, n: nat, depth: nat)
    requires out.Node? && Mirrors(h, Ref(out.from), out) && Shallow(out, depth) && Clean(out) && n <= |out.slots|
    ensures SlotsMet(h, h[out.from].slots[..n], depth + 1) == SlotExpansions(out.slots[..n])
    decreases out, n
  {
    hide Hidden, Expansions, Met, PlainJson;
    if n > 0 {
      SlotsMetAreExpanded(h, out, n - 1, depth);
      MirrorIsPlain(h, h[out.from].slots[n - 1].value, out.slots[n - 1].value, depth + 1);
      assert out.slots[..n][..n - 1] == out.slots[..n - 1];
      assert h[out.from].slots[..n][..n - 1] == h[out.from].slots[..n - 1];
    }
  }

  lemma {:induction false} PlainIsMirrored(h: Heap, v: Value, seen: set<nat>, depth: nat)
    requires PlainJson(h, v, depth) && Known(h, v) && Distinct(Met(h, v, depth)) && Elements(Met(h, v, depth)) !! seen
    ensures Mirrors(h, v, Sanitized(h, v, seen, depth).out)
    decreases Room(depth), 0
  {
    hide Hidden, SanitizedSlots, SlotsMet;
    if v.Ref? {
      var o := h[v.id];
      DistinctConcat([v.id], SlotsMet(h, o.slots, depth + 1));
      assert v.id in Elements([v.id]);
      assert o.slots[..|o.slots|] == o.slots;
      SlotsAreMirrored(h, v.id, |o.slots|, seen + {v.id}, depth + 1);
      SlotsAreGood(h, o.kind, o.slots, seen + {v.id}, depth + 1);
    }
  }

  ghost predicate PlainSlot(h: Heap, kind: Kind, slot: Slot, depth: nat) {
    if Hidden(kind, slot.key) then slot.value == MARK else PlainJson(h, slot.value, depth)
  }

  /** The first `n` slots of an object come out as they are, and exactly the objects they meet become seen. */
  lemma {:induction false} SlotsAreMirrored(h: Heap, id: nat, n: nat, seen: set<nat>, depth: nat)
    requires id in h && n <= |h[id].slots| && forall i :: 0 <= i < n ==> PlainSlot(h, h[id].kind, h[id].slots[i], depth)
    requires Distinct(SlotsMet(h, h[id].slots[..n], depth)) && Elements(SlotsMet(h, h[id].slots[..n], depth)) !! seen
    ensures var d := SanitizedSlots(h, h[id].kind, h[id].slots[..n], seen, depth);
      |d.slots| == n && d.seen == seen + Elements(SlotsMet(h, h[id].slots[..n], depth)) &&
      forall i :: 0 <= i < n ==> Mirrors(h, h[id].slots[i].value, d.slots[i].value)
    decreases Room(depth), 1 + n
  {
    hide Redacts, Hidden, Sanitized, Met, PlainJson, Mirrors;
    var o := h[id];
    if n > 0 {
      var last := o.slots[n - 1];
      assert o.slots[..n][..n - 1] == o.slots[..n - 1];
      var met, more := SlotsMet(h, o.slots[..n - 1], depth), Met(h, last.value, depth);
      DistinctConcat(met, more);
      SlotsAreMirrored(h, id, n - 1, seen, depth);
      var before := SanitizedSlots(h, o.kind, o.slots[..n - 1], seen, depth);
      assert PlainSlot(h, o.kind, last, depth);
      SecretsAreRedacted(o.kind, last.key);
      if Redacts(o.kind, last.key) {
        TheMarkMirrors(h, depth);
      } else {
        LastSlot(h, last.value, before.seen, depth);
      }
    } else {
      assert o.slots[..0] == [];
    }
  }

  lemma TheMarkMirrors(h: Heap, depth: nat)
    ensures Mirrors(h, MARK, REDACTED) && Met(h, MARK, depth) == []
  {}

  lemma {:induction false} LastSlot(h: Heap, v: Value, seen: set<nat>, depth: nat)
    requires PlainJson(h, v, depth) && Known(h, v) && Distinct(Met(h, v, depth)) && Elements(Met(h, v, depth)) !! seen
    ensures var d := Sanitized(h, v, seen, depth); Mirrors(h, v, d.out) && d.seen == seen + Elements(Met(h, v, depth))
    decreases Room(depth), 1
  {
    hide PlainJson, Met, Mirrors, Sanitized, Shallow, Clean, Copies;
    PlainIsMirrored(h, v, seen, depth);
    SanitizedIsGood(h, v, seen, depth);
    MirrorIsPlain(h, v, Sanitized(h, v, seen, depth).out, depth);
    ExpandsOnce(h, v, seen, depth);
  }

  /** A value is logged unchanged exactly when it is JSON within the depth limit, has nothing to redact, and
      is a tree: no object is met twice. A shared object is called circular even where nothing is. */
  lemma UnchangedExactly(h: Heap, v: Value)
    requires Known(h, v)
    ensures Mirrors(h, v, Sanitized(h, v, {}, 0).out) <==> PlainJson(h, v, 0) && Distinct(Met(h, v, 0))
  {
    hide PlainJson, Met, Mirrors, Sanitized, Shallow, Clean, Copies;
    var out := Sanitized(h, v, {}, 0).out;
    SanitizedIsGood(h, v, {}, 0);
    ExpandsOnce(h, v, {}, 0);
    if Mirrors(h, v, out) { MirrorIsPlain(h, v, out, 0); }
    if PlainJson(h, v, 0) && Distinct(Met(h, v, 0)) { PlainIsMirrored(h, v, {}, 0); }
  }

  // ---- The procedure ----

  class WeakSet {
    var members: set<nat>

    constructor ()
      ensures members == {}
    {
      members := {};
    }

    predicate Has(id: nat)
      reads this
    {
      id in members
    }

    method Add(id: nat)
      modifies this
      ensures members == old(members) + {id}
    {
      members := members + {id};
    }
  }

  lemma SlotStep(h: Heap, kind: Kind, slots: seq<Slot>, n: nat, seen: set<nat>, depth: nat)
    requires AllKnown(h, slots) && n < |slots|
    ensures
      var before := SanitizedSlots(h, kind, slots[..n], seen, depth);
      var d := if Redacts(kind, slots[n].key) then Done(REDACTED, before.seen)
               else Sanitized(h, slots[n].value, before.seen, depth);
      SanitizedSlots(h, kind, slots[..n + 1], seen, depth) ==
        DoneSlots(before.slots + [OutputSlot(slots[n].key, d.out)], d.seen)
  {
    hide Redacts, Sanitized;
    assert slots[..n + 1][..n] == slots[..n];
  }

  /** `sanitize`, with the set of seen objects shared by the whole walk. */
  method Sanitize(h: Heap, value: Value, seen: WeakSet, depth: nat) returns (out: Output)
    requires Known(h, value)
    modifies seen
    ensures Done(out, seen.members) == Sanitized(h, value, old(seen.members), depth)
    ensures Written(h, value, old(seen.members), depth, out)
    ensures Fresh(Expansions(out), old(seen.members), seen.members)
    decreases Room(depth)
  {
    hide SanitizedSlots, Redacts, Written, Fresh, Expansions;
    SanitizedIsWritten(h, value, seen.members, depth);
    ExpandsOnce(h, value, seen.members, depth);
    match value {
      case Plainly(leaf) => return Atom(leaf);
      case BigInt(digits) => return Atom(Text(digits));
      case Date(iso) => return Atom(Text(iso));
      case Ref(id) =>
        if depth >= DEPTH_LIMIT { return TOO_DEEP; }
        if seen.Has(id) { return CIRCULAR; }
        seen.Add(id);
        ghost var start := seen.members;
        var slots, items: seq<OutputSlot> := h[id].slots, [];
        NoSlots(h, h[id].kind, start, depth + 1);
        assert slots[..0] == [];
        if h[id].kind.Array? {
          for i := 0 to |slots|
            invariant DoneSlots(items, seen.members) == SanitizedSlots(h, Array, slots[..i], start, depth + 1)
          {
            SlotStep(h, Array, slots, i, start, depth + 1);
            ArraysKeepAll(slots[i].key);
            var item := Sanitize(h, slots[i].value, seen, depth + 1);
            items := items + [OutputSlot(slots[i].key, item)];
          }
        } else {
          for i := 0 to |slots|
            invariant DoneSlots(items, seen.members) == SanitizedSlots(h, Record, slots[..i], start, depth + 1)
          {
            SlotStep(h, Record, slots, i, start, depth + 1);
            var item := REDACTED;
            if !Redacts(Record, slots[i].key) { item := Sanitize(h, slots[i].value, seen, depth + 1); }
            items := items + [OutputSlot(slots[i].key, item)];
          }
        }
        assert slots[..|slots|] == slots;
        return Node(id, h[id].kind, items);
    }
  }

  lemma NoSlots(h: Heap, kind: Kind, seen: set<nat>, depth: nat)
    ensures SanitizedSlots(h, kind, [], seen, depth) == DoneSlots([], seen)
  {}

  lemma ArraysKeepAll(key: string)
    ensures !Redacts(Array, key)
  {}
}
