/** Uploaded files: an object in storage and a row that points at it, kept in step by the order of the writes.
    Each storage call and each row write is one step; any number of uploads and removals interleave, and each
    may fail or be cut short at any step. */
module Files {
  import opened Wrappers
  import Sets

  /** `nonce` is the random part of the key; the upload with that number also owns the row id. */
  datatype Key = Key(user: string, nonce: nat)

  datatype Blob = Blob(body: string, contentType: string)

  datatype Row = Row(user: string, jobId: Option<string>, filename: string, contentType: string, size: nat, key: Key)

  datatype Phase =
    | Putting(row: Row, blob: Blob)
    | Stored(row: Row)
    | Checked(user: string, id: nat, target: Key)
    | Dropping(target: Key)

  /** `waste` lists the objects each fault left behind; `lost` the uploads whose row was written although the
      write threw; `sent` what each upload was called with. */
  datatype State = State(
    rows: map<nat, Row>, objects: map<Key, Blob>, pending: map<nat, Phase>, ops: set<nat>, waste: seq<Key>,
    lost: set<nat>, sent: map<nat, Blob>)

  const EMPTY := State(map[], map[], map[], {}, [], {}, map[])

  /** A call that throws may or may not have taken effect. */
  datatype Outcome = Done | Failed | DoneButThrew

  datatype Act =
    | Begin(op: nat, row: Row, blob: Blob)
    | Put(op: nat, outcome: Outcome)
    | Insert(op: nat, outcome: Outcome)
    | Check(op: nat, user: string, id: nat)
    | Delete(op: nat, outcome: Outcome)
    | Drop(op: nat, gone: bool)
    | Crash(op: nat)

  predicate Describes(row: Row, blob: Blob) { row.contentType == blob.contentType && row.size == |blob.body| }

  predicate Owned(s: State, user: string, id: nat) { id in s.rows && s.rows[id].user == user }

  predicate Enabled(s: State, a: Act) {
    match a
    case Begin(op, row, blob) => op !in s.ops && row.key == Key(row.user, op) && Describes(row, blob)
    case Put(op, _) => op in s.pending && s.pending[op].Putting?
    case Insert(op, _) => op in s.pending && s.pending[op].Stored?
    case Check(op, user, id) => op !in s.ops && Owned(s, user, id)
    case Delete(op, _) => op in s.pending && s.pending[op].Checked?
    case Drop(op, _) => op in s.pending && s.pending[op].Dropping?
    case Crash(op) => op in s.pending
  }

  function End(s: State, op: nat): State { s.(pending := s.pending - {op}) }

  /** The object an operation is answerable for, if any. */
  function Holds(p: Phase): Option<Key> {
    match p
    case Stored(row) => Some(row.key)
    case Dropping(target) => Some(target)
    case _ => None
  }

  function Abandon(s: State, op: nat, key: Key): State { End(s, op).(waste := s.waste + [key]) }

  function Apply(s: State, a: Act): State
    requires Enabled(s, a)
  {
    match a
    case Begin(op, row, blob) =>
      s.(pending := s.pending[op := Putting(row, blob)], ops := s.ops + {op}, sent := s.sent[op := blob])
    case Put(op, outcome) =>
      var p := s.pending[op];
      var stored := s.objects[p.row.key := p.blob];
      (match outcome
       case Done => s.(objects := stored, pending := s.pending[op := Stored(p.row)])
       case Failed => End(s, op)
       case DoneButThrew => Abandon(s, op, p.row.key).(objects := stored))
    case Insert(op, outcome) =>
      var row := s.pending[op].row;
      (match outcome
       case Done => End(s, op).(rows := s.rows[op := row])
       case Failed => s.(pending := s.pending[op := Dropping(row.key)])
       case DoneButThrew =>
         s.(rows := s.rows[op := row], lost := s.lost + {op}, pending := s.pending[op := Dropping(row.key)]))
    case Check(op, user, id) =>
      s.(pending := s.pending[op := Checked(user, id, s.rows[id].key)], ops := s.ops + {op})
    case Delete(op, outcome) =>
      var p := s.pending[op];
      if p.id !in s.rows || outcome.Failed? then End(s, op)
      else
        var t := s.(rows := s.rows - {p.id});
        if outcome.Done? then t.(pending := s.pending[op := Dropping(p.target)]) else Abandon(t, op, p.target)
    case Drop(op, gone) =>
      var key := s.pending[op].target;
      if gone then End(s, op).(objects := s.objects - {key}) else Abandon(s, op, key)
    case Crash(op) =>
      match Holds(s.pending[op])
      case Some(key) => Abandon(s, op, key)
      case None => End(s, op)
  }

  predicate Legal(s: State, acts: seq<Act>)
    decreases |acts|
  {
    acts == [] || (Enabled(s, acts[0]) && Legal(Apply(s, acts[0]), acts[1..]))
  }

  function Exec(s: State, acts: seq<Act>): State
    requires Legal(s, acts)
    decreases |acts|
  {
    if acts == [] then s else Exec(Apply(s, acts[0]), acts[1..])
  }

  // ---- What every run keeps ----

  /** No row under this number can be written any more. */
  predicate Past(s: State, n: nat) {
    n in s.ops && (n in s.pending ==> !s.pending[n].Putting? && !s.pending[n].Stored?)
  }

  /** The object is in storage, and is what the upload that drew its key was called with. */
  predicate HasObject(s: State, row: Row) {
    row.key in s.objects && row.key.nonce in s.sent && s.objects[row.key] == s.sent[row.key.nonce] &&
    Describes(row, s.objects[row.key])
  }

  predicate RowOk(s: State, n: nat)
    requires n in s.rows
  {
    Past(s, n) && s.rows[n].key == Key(s.rows[n].user, n) &&
    (HasObject(s, s.rows[n]) || (s.rows[n].key !in s.objects && n in s.lost)) &&
    (n in s.pending ==> s.pending[n] == Dropping(s.rows[n].key))
  }

  predicate PhaseOk(s: State, op: nat)
    requires op in s.pending
  {
    op in s.ops &&
    match s.pending[op]
    case Putting(row, blob) =>
      row.key == Key(row.user, op) && op in s.sent && s.sent[op] == blob && Describes(row, blob)
    case Stored(row) => row.key == Key(row.user, op) && HasObject(s, row)
    case Checked(user, id, key) => Past(s, id) && key == Key(user, id) && (id in s.rows ==> s.rows[id].key == key)
    case Dropping(key) =>
      Past(s, key.nonce) &&
      (key.nonce in s.rows ==> op == key.nonce && key.nonce in s.lost && s.rows[key.nonce].key == key)
  }

  /** Objects that some operation in flight is answerable for. */
  ghost function Held(s: State): set<Key> {
    set op | op in s.pending && Holds(s.pending[op]).Some? :: Holds(s.pending[op]).value
  }

  ghost predicate Rowed(s: State, k: Key) { k.nonce in s.rows && s.rows[k.nonce].key == k }

  ghost predicate ObjectOk(s: State, k: Key)
    requires k in s.objects
  {
    k.nonce in s.ops && (Rowed(s, k) || k in Held(s) || k in s.waste)
  }

  ghost predicate Inv(s: State) {
    (forall n :: n in s.rows ==> RowOk(s, n)) && (forall op :: op in s.pending ==> PhaseOk(s, op)) &&
    (forall k :: k in s.objects ==> ObjectOk(s, k))
  }

  lemma RowsObjectStays(s: State, a: Act, n: nat)
    requires Enabled(s, a) && (a.op in s.pending ==> PhaseOk(s, a.op)) && n in s.rows && RowOk(s, n)
    requires n in Apply(s, a).rows
    ensures var t := Apply(s, a); HasObject(t, t.rows[n]) || (t.rows[n].key !in t.objects && n in t.lost)
  {
    hide Describes;
  }

  lemma OldRowStays(s: State, a: Act, n: nat)
    requires Enabled(s, a) && (a.op in s.pending ==> PhaseOk(s, a.op)) && n in s.rows && RowOk(s, n)
    requires n in Apply(s, a).rows
    ensures RowOk(Apply(s, a), n)
  {
    hide Describes, HasObject;
    RowsObjectStays(s, a, n);
  }

  lemma NewRowIsOk(s: State, a: Act, n: nat)
    requires Enabled(s, a) && (a.op in s.pending ==> PhaseOk(s, a.op)) && n !in s.rows && n in Apply(s, a).rows
    ensures RowOk(Apply(s, a), n)
  {
    hide Describes;
  }

  lemma StepKeepsRows(s: State, a: Act, n: nat)
    requires Inv(s) && Enabled(s, a) && n in Apply(s, a).rows
    ensures RowOk(Apply(s, a), n)
  {
    hide ObjectOk, RowOk, PhaseOk, Apply, Enabled;
    if n in s.rows { OldRowStays(s, a, n); } else { NewRowIsOk(s, a, n); }
  }

  lemma PastStays(s: State, a: Act, n: nat)
    requires Enabled(s, a) && Past(s, n)
    ensures Past(Apply(s, a), n) && (n in Apply(s, a).rows ==> n in s.rows && Apply(s, a).rows[n] == s.rows[n])
    ensures n in s.lost ==> n in Apply(s, a).lost
  {}

  /** Only the operation that holds an object, or a remover of its row, takes it away. */
  lemma UploadedObjectStays(s: State, a: Act, op: nat)
    requires Enabled(s, a) && a.op != op && op in s.pending && s.pending[op].Stored? && PhaseOk(s, op)
    requires a.op in s.pending ==> PhaseOk(s, a.op)
    ensures HasObject(Apply(s, a), s.pending[op].row)
  {
    hide Describes;
  }

  lemma OtherPhasesStay(s: State, a: Act, op: nat)
    requires Enabled(s, a) && a.op != op && op in s.pending && PhaseOk(s, op)
    requires (a.op in s.pending ==> PhaseOk(s, a.op))
    ensures op in Apply(s, a).pending && PhaseOk(Apply(s, a), op)
  {
    OtherOpStays(s, a, op);
    match s.pending[op] {
      case Putting(_, _) =>
      case Stored(_) => UploadedObjectStays(s, a, op);
      case Checked(_, id, _) => PastStays(s, a, id);
      case Dropping(key) => PastStays(s, a, key.nonce);
    }
    hide Describes, Apply, Enabled, HasObject, Past;
  }

  lemma ActorsPhaseIsOk(s: State, a: Act)
    requires Enabled(s, a) && a.op in Apply(s, a).pending && (a.op in s.pending ==> PhaseOk(s, a.op))
    requires a.op in s.rows ==> RowOk(s, a.op)
    requires a.Check? ==> RowOk(s, a.id)
    ensures PhaseOk(Apply(s, a), a.op)
  {
    hide Describes;
  }

  lemma StepKeepsPhases(s: State, a: Act, op: nat)
    requires Inv(s) && Enabled(s, a) && op in Apply(s, a).pending
    ensures PhaseOk(Apply(s, a), op)
  {
    hide PhaseOk, RowOk, ObjectOk;
    if op == a.op {
      ActorsPhaseIsOk(s, a);
    } else {
      assert op in s.pending by { hide PhaseOk; OtherOpStays(s, a, op); }
      OtherPhasesStay(s, a, op);
    }
  }

  /** An object kept without its row is held or wasted. */
  lemma Accounted(s: State, a: Act, k: Key)
    requires Enabled(s, a) && (a.op in s.pending ==> PhaseOk(s, a.op)) && (a.op in s.rows ==> RowOk(s, a.op))
    requires k in Apply(s, a).objects && (k in s.objects ==> k.nonce in s.ops)
    requires k in s.objects ==>
      Rowed(s, k) || k in s.waste || exists op :: op in s.pending && Holds(s.pending[op]) == Some(k)
    ensures
      var t := Apply(s, a);
      k.nonce in t.ops &&
      (Rowed(t, k) || k in t.waste || exists op :: op in t.pending && Holds(t.pending[op]) == Some(k))
  {
    hide Describes;
    var t := Apply(s, a);
    if op :| k in s.objects && op in s.pending && Holds(s.pending[op]) == Some(k) {
      if op != a.op { OtherOpStays(s, a, op); assert op in t.pending && Holds(t.pending[op]) == Some(k); }
    }
    assert a.op in t.pending && Holds(t.pending[a.op]) == Some(k) ==>
      exists op :: op in t.pending && Holds(t.pending[op]) == Some(k);
  }

  lemma StepKeepsObjects(s: State, a: Act, k: Key)
    requires Inv(s) && Enabled(s, a) && k in Apply(s, a).objects
    ensures ObjectOk(Apply(s, a), k)
  {
    hide PhaseOk, RowOk, Held, Apply, Enabled, Rowed;
    if k in s.objects {
      assert ObjectOk(s, k);
      if k in Held(s) { Holder(s, k); }
    }
    Accounted(s, a, k);
    var t := Apply(s, a);
    if op :| op in t.pending && Holds(t.pending[op]) == Some(k) { HeldBy(t, op); }
  }

  lemma HeldBy(s: State, op: nat)
    requires op in s.pending && Holds(s.pending[op]).Some?
    ensures Holds(s.pending[op]).value in Held(s)
  {}

  lemma Holder(s: State, k: Key)
    requires k in Held(s)
    ensures exists op :: op in s.pending && Holds(s.pending[op]) == Some(k)
  {}

  lemma {:induction false} RunKeepsInv(s: State, acts: seq<Act>)
    requires Inv(s) && Legal(s, acts)
    ensures Inv(Exec(s, acts))
    decreases |acts|
  {
    hide RowOk, PhaseOk, ObjectOk, Apply, Enabled;
    if acts != [] {
      var t := Apply(s, acts[0]);
      forall n | n in t.rows ensures RowOk(t, n) { StepKeepsRows(s, acts[0], n); }
      forall op | op in t.pending ensures PhaseOk(t, op) { StepKeepsPhases(s, acts[0], op); }
      forall k | k in t.objects ensures ObjectOk(t, k) { StepKeepsObjects(s, acts[0], k); }
      RunKeepsInv(t, acts[1..]);
    }
  }

  // ---- Every row's object exists ----

  lemma {:induction false} GoneStays(s: State, acts: seq<Act>, n: nat)
    requires Legal(s, acts) && Past(s, n) && n !in s.rows
    ensures n !in Exec(s, acts).rows
    decreases |acts|
  {
    hide Apply, Enabled, Past;
    if acts != [] {
      PastStays(s, acts[0], n);
      GoneStays(Apply(s, acts[0]), acts[1..], n);
    }
  }

  predicate Intact(s: State, n: nat) { n in s.rows ==> HasObject(s, s.rows[n]) }

  /** One step takes a row's object away only if it is the clean-up of the upload that made the row. */
  lemma IntactStep(s: State, a: Act, n: nat)
    requires Enabled(s, a) && (a.op in s.pending ==> PhaseOk(s, a.op)) && (n in s.rows ==> RowOk(s, n))
    requires n in Apply(s, a).rows
    ensures Intact(Apply(s, a), n) <==> Intact(s, n) && a != Drop(n, true)
  {
    hide Describes;
  }

  lemma DroppedIsGone(s: State, n: nat)
    requires Inv(s) && Enabled(s, Drop(n, true)) && n !in s.rows
    ensures Past(Apply(s, Drop(n, true)), n)
  {
    assert PhaseOk(s, n);
  }

  lemma DeletedIsPast(s: State, a: Act, n: nat)
    requires Inv(s) && Enabled(s, a) && n in s.rows && n !in Apply(s, a).rows
    ensures Past(Apply(s, a), n)
  {
    hide PhaseOk, ObjectOk;
    assert RowOk(s, n);
    PastStays(s, a, n);
  }

  lemma {:induction false} IntactRun(s: State, acts: seq<Act>, n: nat)
    requires Inv(s) && Legal(s, acts) && n in Exec(s, acts).rows
    ensures HasObject(Exec(s, acts), Exec(s, acts).rows[n]) <==> Intact(s, n) && Drop(n, true) !in acts
    decreases |acts|
  {
    hide RowOk, PhaseOk, ObjectOk, Apply, Enabled, Past, HasObject;
    if acts != [] {
      var a, t := acts[0], Apply(s, acts[0]);
      OneStepKeepsInv(s, a);
      IntactRun(t, acts[1..], n);
      if n in t.rows {
        assert a.op in s.pending ==> PhaseOk(s, a.op);
        IntactStep(s, a, n);
      } else if n in s.rows {
        DeletedIsPast(s, a, n);
        GoneStays(t, acts[1..], n);
      } else if a == Drop(n, true) {
        DroppedIsGone(s, n);
        GoneStays(t, acts[1..], n);
      }
      assert acts == [a] + acts[1..];
    }
  }

  /** Over every interleaving, every throwing call and every crash: a row's object is in storage, and is the one
      uploaded with it, exactly unless the clean-up of that very upload took it away; and that can only have
      happened when writing the row threw although it was written. */
  lemma EveryRowHasItsObject(acts: seq<Act>, n: nat)
    requires Legal(EMPTY, acts) && n in Exec(EMPTY, acts).rows
    ensures var s := Exec(EMPTY, acts);
      s.rows[n].key == Key(s.rows[n].user, n) && (HasObject(s, s.rows[n]) <==> Drop(n, true) !in acts) &&
      (n !in s.lost ==> HasObject(s, s.rows[n]))
  {
    hide Legal, Exec, HasObject, Past;
    RunKeepsInv(EMPTY, acts);
    IntactRun(EMPTY, acts, n);
    assert RowOk(Exec(EMPTY, acts), n);
  }

  /** It does happen: from any stored upload, a row written although the write threw and a successful clean-up. */
  lemma LostInsertBreaksTheRow(s: State, op: nat)
    requires op in s.pending && s.pending[op].Stored?
    ensures
      var acts := [Insert(op, DoneButThrew), Drop(op, true)];
      Legal(s, acts) && op in Exec(s, acts).rows && !HasObject(Exec(s, acts), Exec(s, acts).rows[op])
  {
    var first, second := Insert(op, DoneButThrew), Drop(op, true);
    var t := Apply(s, first);
    assert [first, second][1..] == [second] && [second][1..] == [];
    assert Legal(t, [second]);
    assert Exec(t, [second]) == Apply(t, second);
  }

  // ---- Every object without a row is accounted for ----

  ghost function Orphans(s: State): set<Key> { set k | k in s.objects && !Rowed(s, k) }

  ghost function Wasted(s: State): set<Key> { set k | k in s.waste }

  lemma {:induction false} ListBound(keys: seq<Key>, items: set<Key>)
    requires forall k :: k in items ==> k in keys
    ensures |items| <= |keys|
    decreases |keys|
  {
    if keys != [] {
      ListBound(keys[1..], items - {keys[0]});
    } else {
      assert items == {};
    }
  }

  lemma {:induction false} HeldBound(pending: map<nat, Phase>, held: set<Key>)
    requires held == set op | op in pending && Holds(pending[op]).Some? :: Holds(pending[op]).value
    ensures |held| <= |pending|
    decreases |pending|
  {
    if held != {} {
      var k :| k in held;
      var op :| op in pending && Holds(pending[op]) == Some(k);
      var rest := pending - {op};
      var fewer := set o | o in rest && Holds(rest[o]).Some? :: Holds(rest[o]).value;
      HeldBound(rest, fewer);
      forall x | x in held ensures x in fewer + {k} {
        var o :| o in pending && Holds(pending[o]) == Some(x);
        if o != op { assert o in rest && rest[o] == pending[o]; }
      }
      UnionBound(held, fewer, {k});
      assert |rest| == |pending| - 1;
    }
  }

  lemma UnionBound(a: set<Key>, b: set<Key>, c: set<Key>)
    requires a <= b + c
    ensures |a| <= |b| + |c|
  {
    Sets.SubsetSize(a, b + c);
    assert |b + c| <= |b| + |c|;
  }

  /** An object without a row belongs to an operation in flight or was left by a counted fault; there are never
      more of them than both together. */
  lemma OrphansAreCounted(acts: seq<Act>)
    requires Legal(EMPTY, acts)
    ensures
      var s := Exec(EMPTY, acts);
      Orphans(s) <= Held(s) + Wasted(s) && |Orphans(s)| <= |s.pending| + |s.waste|
  {
    hide Legal, Exec, RowOk, PhaseOk;
    var s := Exec(EMPTY, acts);
    RunKeepsInv(EMPTY, acts);
    assert Orphans(s) <= Held(s) + Wasted(s) by {
      hide Held;
      forall k | k in Orphans(s) ensures k in Held(s) + Wasted(s) { assert ObjectOk(s, k); }
    }
    HeldBound(s.pending, Held(s));
    ListBound(s.waste, Wasted(s));
    UnionBound(Orphans(s), Held(s), Wasted(s));
  }

  /** Once all operations have ended, and nothing was left behind by a fault, the stored objects are exactly those
      of the rows whose own clean-up did not take them away. */
  lemma QuietStorageMatchesRows(acts: seq<Act>)
    requires Legal(EMPTY, acts) && Exec(EMPTY, acts).pending == map[] && Exec(EMPTY, acts).waste == []
    ensures var s := Exec(EMPTY, acts); s.objects.Keys == set n | n in s.rows && Drop(n, true) !in acts :: s.rows[n].key
  {
    hide Legal, Exec, PhaseOk, Past;
    var s := Exec(EMPTY, acts);
    RunKeepsInv(EMPTY, acts);
    forall n | n in s.rows ensures s.rows[n].key in s.objects <==> Drop(n, true) !in acts {
      EveryRowHasItsObject(acts, n);
      assert RowOk(s, n);
    }
    forall k | k in s.objects ensures exists n :: n in s.rows && Drop(n, true) !in acts && s.rows[n].key == k {
      assert ObjectOk(s, k);
      assert Held(s) == {};
    }
  }

  // ---- Ownership ----

  /** On whose behalf an act runs. */
  function UserOf(s: State, a: Act): string
    requires Enabled(s, a)
  {
    match a
    case Begin(_, row, _) => row.user
    case Check(_, user, _) => user
    case _ =>
      match s.pending[a.op]
      case Putting(row, _) => row.user
      case Stored(row) => row.user
      case Checked(user, _, _) => user
      case Dropping(key) => key.user
  }

  predicate NeverBy(user: string, s: State, acts: seq<Act>)
    requires Legal(s, acts)
    decreases |acts|
  {
    acts == [] || (UserOf(s, acts[0]) != user && NeverBy(user, Apply(s, acts[0]), acts[1..]))
  }

  ghost predicate SameFor(user: string, s: State, t: State) {
    (forall n :: Owned(s, user, n) <==> Owned(t, user, n)) &&
    (forall n :: Owned(s, user, n) && Owned(t, user, n) ==> s.rows[n] == t.rows[n]) &&
    (forall k: Key :: k.user == user ==> (k in s.objects <==> k in t.objects)) &&
    (forall k: Key :: k.user == user && k in s.objects && k in t.objects ==> s.objects[k] == t.objects[k])
  }

  lemma OthersRow(user: string, s: State, a: Act, n: nat)
    requires Enabled(s, a) && UserOf(s, a) != user && (a.op in s.pending ==> PhaseOk(s, a.op))
    requires (n in s.rows ==> RowOk(s, n))
    ensures Owned(s, user, n) <==> Owned(Apply(s, a), user, n)
    ensures Owned(s, user, n) ==> Apply(s, a).rows[n] == s.rows[n]
  {
    hide Describes;
  }

  lemma OthersObject(user: string, s: State, a: Act, k: Key)
    requires Enabled(s, a) && UserOf(s, a) != user && (a.op in s.pending ==> PhaseOk(s, a.op)) && k.user == user
    ensures k in s.objects <==> k in Apply(s, a).objects
    ensures k in s.objects ==> Apply(s, a).objects[k] == s.objects[k]
  {
    hide Describes;
  }

  lemma OthersStep(user: string, s: State, a: Act)
    requires Inv(s) && Enabled(s, a) && UserOf(s, a) != user
    ensures SameFor(user, s, Apply(s, a))
  {
    hide PhaseOk, RowOk, ObjectOk, Apply, Enabled, UserOf;
    var t := Apply(s, a);
    forall n ensures (Owned(s, user, n) <==> Owned(t, user, n)) && (Owned(s, user, n) ==> t.rows[n] == s.rows[n]) {
      OthersRow(user, s, a, n);
    }
    forall k: Key | k.user == user
      ensures (k in s.objects <==> k in t.objects) && (k in s.objects ==> t.objects[k] == s.objects[k])
    {
      OthersObject(user, s, a, k);
    }
  }

  lemma SameForThrough(user: string, s: State, t: State, u: State)
    requires SameFor(user, s, t) && SameFor(user, t, u)
    ensures SameFor(user, s, u)
  {}

  /** What other users do, in any interleaving, leaves a user's rows and objects as they were. */
  lemma {:induction false} OthersLeaveFilesAlone(user: string, s: State, acts: seq<Act>)
    requires Inv(s) && Legal(s, acts) && NeverBy(user, s, acts)
    ensures SameFor(user, s, Exec(s, acts))
    decreases |acts|
  {
    hide Inv, Apply, Enabled, SameFor;
    if acts != [] {
      var t := Apply(s, acts[0]);
      OthersStep(user, s, acts[0]);
      OneStepKeepsInv(s, acts[0]);
      OthersLeaveFilesAlone(user, t, acts[1..]);
      SameForThrough(user, s, t, Exec(t, acts[1..]));
    } else {
      SameForSelf(user, s);
    }
  }

  lemma SameForSelf(user: string, s: State)
    ensures SameFor(user, s, s)
  {}

  lemma OneStepKeepsInv(s: State, a: Act)
    requires Inv(s) && Enabled(s, a)
    ensures Inv(Apply(s, a))
  {
    hide Apply, Enabled, Inv;
    assert Legal(Apply(s, a), [a][1..]);
    assert Exec(Apply(s, a), [a][1..]) == Apply(s, a);
    RunKeepsInv(s, [a]);
  }

  // ---- The service ----

  ghost predicate CanReach(s: State, t: State) { exists acts :: Legal(s, acts) && Exec(s, acts) == t }

  lemma CanReachSelf(s: State)
    ensures CanReach(s, s)
  {
    assert Legal(s, []) && Exec(s, []) == s;
  }

  lemma {:induction false} RunAppend(s: State, xs: seq<Act>, a: Act)
    requires Legal(s, xs) && Enabled(Exec(s, xs), a)
    ensures Legal(s, xs + [a]) && Exec(s, xs + [a]) == Apply(Exec(s, xs), a)
    decreases |xs|
  {
    hide Apply, Enabled;
    if xs == [] {
      assert [] + [a] == [a] && [a][1..] == [];
      assert Legal(Apply(s, a), [a][1..]);
    } else {
      assert (xs + [a])[1..] == xs[1..] + [a];
      RunAppend(Apply(s, xs[0]), xs[1..], a);
    }
  }

  lemma OneMore(s: State, t: State, a: Act)
    requires CanReach(s, t) && Enabled(t, a)
    ensures CanReach(s, Apply(t, a))
  {
    hide Apply, Enabled, Legal, Exec;
    var xs :| Legal(s, xs) && Exec(s, xs) == t;
    RunAppend(s, xs, a);
  }

  datatype Error = BadType | TooLarge | NotFound | Unavailable

  const MAX_BYTES: nat := 10 * 1024 * 1024

  const CONTENT_TYPES := {
    "application/pdf", "application/vnd.openxmlformats-officedocument.wordprocessingml.document", "application/msword",
    "text/plain", "text/markdown"
  }

  /** PDF, Word in both formats, plain text and Markdown. */
  ghost predicate Accepted(contentType: string) {
    contentType == "application/pdf" || contentType == "text/plain" || contentType == "text/markdown" ||
    contentType == "application/msword" ||
    contentType == "application/vnd.openxmlformats-officedocument.wordprocessingml.document"
  }

  /** Another operation's act does not move this one. */
  lemma OtherOpStays(s: State, a: Act, op: nat)
    requires Enabled(s, a) && a.op != op
    ensures op in s.ops ==> op in Apply(s, a).ops
    ensures op in s.pending ==> op in Apply(s, a).pending && Apply(s, a).pending[op] == s.pending[op]
    ensures op !in s.pending ==> op !in Apply(s, a).pending
  {}

  /** Rows that are gone for good stay gone. */
  ghost predicate StaysGone(s: State, t: State) {
    forall n :: Past(s, n) && n !in s.rows ==> Past(t, n) && n !in t.rows
  }

  lemma StaysGoneOn(s: State, t: State, a: Act)
    requires StaysGone(s, t) && Enabled(t, a)
    ensures StaysGone(s, Apply(t, a))
  {
    hide Past, Apply, Enabled;
    forall n | Past(s, n) && n !in s.rows ensures Past(Apply(t, a), n) && n !in Apply(t, a).rows { PastStays(t, a, n); }
  }

  lemma SelfStaysGone(s: State)
    ensures StaysGone(s, s)
  {}

  lemma ReachedInv(s: State, t: State)
    requires Inv(s) && CanReach(s, t)
    ensures Inv(t)
  {
    hide Inv, Legal, Exec;
    var acts :| Legal(s, acts) && Exec(s, acts) == t;
    RunKeepsInv(s, acts);
  }

  lemma NotYetARow(s: State, op: nat)
    requires Inv(s) && op in s.pending && s.pending[op].Stored?
    ensures op !in s.rows && op in s.ops
  {
    hide ObjectOk;
    assert op in s.rows ==> RowOk(s, op);
    assert PhaseOk(s, op);
  }

  lemma NothingStoredYet(s: State, op: nat, user: string)
    requires Inv(s) && op !in s.ops
    ensures Key(user, op) !in s.objects
  {
    hide RowOk, PhaseOk;
    assert Key(user, op) in s.objects ==> ObjectOk(s, Key(user, op));
  }

  lemma CheckedIsPast(s: State, op: nat)
    requires Inv(s) && op in s.pending && s.pending[op].Checked?
    ensures Past(s, s.pending[op].id)
  {
    hide RowOk, ObjectOk;
    assert PhaseOk(s, op);
  }

  class FilesService {
    var rows: map<nat, Row>
    var objects: map<Key, Blob>
    var pending: map<nat, Phase>
    var ops: set<nat>
    var waste: seq<Key>
    var lost: set<nat>
    var sent: map<nat, Blob>

    function World(): State
      reads this
    {
      State(rows, objects, pending, ops, waste, lost, sent)
    }

    constructor ()
      ensures World() == EMPTY && Inv(World())
    {
      rows, objects, pending, ops, waste, lost, sent := map[], map[], map[], {}, [], {}, map[];
    }

    /** `storage.put`. */
    method PutObject(op: nat, outcome: Outcome, ghost start: State)
      requires op in pending && pending[op].Putting? && CanReach(start, World())
      modifies this`objects, this`pending, this`waste
      ensures World() == Apply(old(World()), Put(op, outcome)) && CanReach(start, World())
    {
      hide CanReach;
      OneMore(start, World(), Put(op, outcome));
      var row, blob := pending[op].row, pending[op].blob;
      if !outcome.Failed? { objects := objects[row.key := blob]; }
      if outcome.DoneButThrew? { waste := waste + [row.key]; }
      pending := if outcome.Done? then pending[op := Stored(row)] else pending - {op};
    }

    /** Starts an upload by storing its object. */
    method Store(op: nat, row: Row, blob: Blob, outcome: Outcome, ghost start: State)
      requires op !in ops && row.key == Key(row.user, op) && Describes(row, blob) && CanReach(start, World())
      modifies this`objects, this`pending, this`waste, this`ops, this`sent
      ensures CanReach(start, World())
      ensures outcome.Done? ==>
        op in pending && pending[op] == Stored(row) && objects == old(objects)[row.key := blob] && waste == old(waste)
      ensures outcome.Failed? ==> objects == old(objects)
      ensures sent == old(sent)[op := blob]
    {
      hide CanReach;
      OneMore(start, World(), Begin(op, row, blob));
      pending, ops, sent := pending[op := Putting(row, blob)], ops + {op}, sent[op := blob];
      PutObject(op, outcome, start);
    }

    /** `resumeFile.create`. */
    method CreateRow(op: nat, outcome: Outcome, ghost start: State)
      requires op in pending && pending[op].Stored? && CanReach(start, World())
      modifies this`rows, this`pending, this`lost
      ensures World() == Apply(old(World()), Insert(op, outcome)) && CanReach(start, World())
    {
      hide CanReach;
      OneMore(start, World(), Insert(op, outcome));
      var row := pending[op].row;
      if !outcome.Failed? { rows := rows[op := row]; }
      if outcome.DoneButThrew? { lost := lost + {op}; }
      pending := if outcome.Done? then pending - {op} else pending[op := Dropping(row.key)];
    }

    /** `resumeFile.delete`: throws when the row is gone. */
    method DeleteRow(op: nat, outcome: Outcome, ghost start: State) returns (ok: bool)
      requires op in pending && pending[op].Checked? && CanReach(start, World())
      modifies this`rows, this`pending, this`waste
      ensures World() == Apply(old(World()), Delete(op, outcome)) && CanReach(start, World())
      ensures ok == (old(pending)[op].id in old(rows) && outcome.Done?)
    {
      hide CanReach;
      OneMore(start, World(), Delete(op, outcome));
      var id, target := pending[op].id, pending[op].target;
      ok := id in rows && outcome.Done?;
      if id !in rows || outcome.Failed? {
        pending := pending - {op};
        return;
      }
      rows := rows - {id};
      if outcome.DoneButThrew? { waste := waste + [target]; }
      pending := if outcome.Done? then pending[op := Dropping(target)] else pending - {op};
    }

    /** `storage.remove`, whose failure is swallowed. */
    method RemoveObject(op: nat, gone: bool, ghost start: State)
      requires op in pending && pending[op].Dropping? && CanReach(start, World())
      modifies this`objects, this`pending, this`waste
      ensures World() == Apply(old(World()), Drop(op, gone)) && CanReach(start, World())
    {
      hide CanReach;
      OneMore(start, World(), Drop(op, gone));
      var target := pending[op].target;
      if gone { objects := objects - {target}; } else { waste := waste + [target]; }
      pending := pending - {op};
    }

    /** Lets other operations run between two steps of this one. */
    method Interleave(others: seq<Act>, op: nat, ghost start: State)
      requires op in pending && CanReach(start, World())
      modifies this
      ensures CanReach(start, World()) && op in pending && pending[op] == old(pending[op])
      ensures StaysGone(old(World()), World())
      ensures others == [] ==> World() == old(World())
    {
      hide CanReach, Enabled, Apply, StaysGone;
      SelfStaysGone(World());
      for i := 0 to |others|
        invariant CanReach(start, World()) && op in pending && pending[op] == old(pending[op])
        invariant StaysGone(old(World()), World())
        invariant i == 0 ==> World() == old(World())
      {
        if others[i].op != op && Enabled(World(), others[i]) {
          OtherOpStays(World(), others[i], op);
          OneMore(start, World(), others[i]);
          StaysGoneOn(old(World()), World(), others[i]);
          var t := Apply(World(), others[i]);
          rows, objects, pending, ops := t.rows, t.objects, t.pending, t.ops;
          waste, lost, sent := t.waste, t.lost, t.sent;
        }
      }
    }

    /** `upload`: object first, then row; a row that cannot be written takes its object back. `op` is the random
        number drawn for the key and the row; `put`, `insert` and `gone` say how the three calls end. */
    method Upload(op: nat, user: string, jobId: Option<string>, filename: string, blob: Blob,
                  put: Outcome, insert: Outcome, gone: bool, during: seq<Act>, meanwhile: seq<Act>)
      returns (r: Result<Row, Error>)
      requires Inv(World()) && op !in ops
      modifies this
      ensures CanReach(old(World()), World()) && Inv(World())
      ensures !Accepted(blob.contentType) ==> r == Err(BadType) && World() == old(World())
      ensures Accepted(blob.contentType) && |blob.body| > 10_485_760 ==> r == Err(TooLarge) && World() == old(World())
      ensures r.Ok? <==> Accepted(blob.contentType) && |blob.body| <= 10_485_760 && put.Done? && insert.Done?
      ensures r.Ok? && during == [] ==> Key(user, op) in objects && objects == old(objects)[Key(user, op) := blob]
      ensures r.Ok? ==>
        r.value == Row(user, jobId, filename, blob.contentType, |blob.body|, Key(user, op)) && op in rows &&
        rows[op] == r.value
      ensures r == Err(Unavailable) && put.Done? && insert.Failed? && gone ==> op !in rows && Key(user, op) !in objects
      ensures r == Err(Unavailable) && !put.DoneButThrew? && insert.Failed? && gone && during == meanwhile == [] ==>
        rows == old(rows) && objects == old(objects)
    {
      hide CanReach, Inv, StaysGone;
      ghost var start := World();
      CanReachSelf(start);
      if blob.contentType !in CONTENT_TYPES { return Err(BadType); }
      if |blob.body| > MAX_BYTES { return Err(TooLarge); }
      NothingStoredYet(start, op, user);
      var key := Key(user, op);
      var row := Row(user, jobId, filename, blob.contentType, |blob.body|, key);
      Store(op, row, blob, put, start);
      if !put.Done? {
        ReachedInv(start, World());
        return Err(Unavailable);
      }
      Interleave(during, op, start);
      var ok := Record(op, insert, gone, meanwhile, start);
      return if ok then Ok(row) else Err(Unavailable);
    }

    /** Writes the row of a stored object, or takes the object back. */
    method Record(op: nat, insert: Outcome, gone: bool, meanwhile: seq<Act>, ghost start: State) returns (ok: bool)
      requires Inv(start) && CanReach(start, World()) && op in pending && pending[op].Stored?
      modifies this
      ensures CanReach(start, World()) && Inv(World()) && ok == insert.Done?
      ensures ok ==> op in rows && rows[op] == old(pending)[op].row && objects == old(objects)
      ensures insert.Failed? && gone ==> op !in rows && old(pending)[op].row.key !in objects
      ensures insert.Failed? && gone && meanwhile == [] ==>
        rows == old(rows) && objects == old(objects) - {old(pending)[op].row.key}
    {
      hide CanReach, Inv, StaysGone;
      ReachedInv(start, World());
      NotYetARow(World(), op);
      CreateRow(op, insert, start);
      if !insert.Done? {
        ghost var before := World();
        Interleave(meanwhile, op, start);
        if insert.Failed? { GoneIsGone(before, World(), op); }
        RemoveObject(op, gone, start);
      }
      ReachedInv(start, World());
      return insert.Done?;
    }

    /** `remove`: the ownership gate, then the row, then the object; a failed clean-up is swallowed. */
    method Remove(op: nat, user: string, id: nat, delete: Outcome, gone: bool, during: seq<Act>, meanwhile: seq<Act>)
      returns (r: Result<(), Error>)
      requires Inv(World()) && op !in ops
      modifies this
      ensures CanReach(old(World()), World()) && Inv(World())
      ensures r == Err(NotFound) <==> !Owned(old(World()), user, id)
      ensures r == Err(NotFound) ==> World() == old(World())
      ensures r.Ok? ==> id !in rows && (gone ==> old(rows)[id].key !in objects)
      ensures r.Ok? && during == meanwhile == [] ==>
        rows == old(rows) - {id} && objects == (if gone then old(objects) - {old(rows)[id].key} else old(objects))
      ensures r.Err? && delete.Failed? && during == meanwhile == [] ==> rows == old(rows) && objects == old(objects)
    {
      hide CanReach, Inv, StaysGone;
      ghost var start := World();
      CanReachSelf(start);
      if !Owned(World(), user, id) { return Err(NotFound); }
      OneMore(start, World(), Check(op, user, id));
      pending, ops := pending[op := Checked(user, id, rows[id].key)], ops + {op};
      Interleave(during, op, start);
      ReachedInv(start, World());
      CheckedIsPast(World(), op);
      PastStays(World(), Delete(op, delete), id);
      var ok := DeleteRow(op, delete, start);
      if ok {
        ghost var before := World();
        Interleave(meanwhile, op, start);
        GoneIsGone(before, World(), id);
        RemoveObject(op, gone, start);
      }
      ReachedInv(start, World());
      return if ok then Ok(()) else Err(Unavailable);
    }
  }

  lemma GoneIsGone(s: State, t: State, n: nat)
    requires StaysGone(s, t) && Past(s, n) && n !in s.rows
    ensures n !in t.rows
  {}
}
