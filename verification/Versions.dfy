/** resume-service's tailored resumes: an append-only table whose version numbers are
    allocated optimistically (read the maximum, insert maximum + 1, let the unique index
    on (user, job, version) decide, retry on a collision). */
module Versions {
  import opened Wrappers
  import Sets

  const VERSION_RETRIES: nat := 5

  datatype Key = Key(user: string, job: string)

  datatype Body = Body(key: Key, gapAnalysis: string, content: string)

  /** One committed row. `writer` identifies the call that inserted it. */
  datatype Row = Row(writer: nat, body: Body, version: nat)

  // ---- The table ----

  /** The highest version among the first `n` rows for `k`, 0 for no row. */
  function LatestAmong(rows: seq<Row>, k: Key, n: nat): nat
    requires n <= |rows|
  {
    if n == 0 then 0
    else
      var m, r := LatestAmong(rows, k, n - 1), rows[n - 1];
      if r.body.key == k && r.version > m then r.version else m
  }

  /** `findFirst` ordered by version, descending. */
  function Latest(rows: seq<Row>, k: Key): nat { LatestAmong(rows, k, |rows|) }

  /** The unique index refuses a second row with the same user, job and version. */
  predicate Taken(rows: seq<Row>, k: Key, v: nat) {
    exists i :: 0 <= i < |rows| && rows[i].body.key == k && rows[i].version == v
  }

  /** How many of the first `n` rows are for `k`. */
  function Count(rows: seq<Row>, k: Key, n: nat): nat
    requires n <= |rows|
  {
    if n == 0 then 0 else Count(rows, k, n - 1) + (if rows[n - 1].body.key == k then 1 else 0)
  }

  /** In commit order, the rows of each user and job are numbered 1, 2, 3, ... */
  ghost predicate Contiguous(rows: seq<Row>) {
    forall i :: 0 <= i < |rows| ==> Numbered(rows, i)
  }

  ghost predicate Numbered(rows: seq<Row>, i: nat)
    requires i < |rows|
  {
    rows[i].version == Count(rows, rows[i].body.key, i) + 1
  }

  lemma {:induction false} CountMonotone(rows: seq<Row>, k: Key, m: nat, n: nat)
    requires m <= n <= |rows|
    ensures Count(rows, k, m) <= Count(rows, k, n)
    decreases n
  {
    if m < n { CountMonotone(rows, k, m, n - 1); }
  }

  lemma {:induction false} CountFrame(rows: seq<Row>, more: seq<Row>, k: Key, n: nat)
    requires n <= |rows| && rows <= more
    ensures Count(more, k, n) == Count(rows, k, n)
    decreases n
  {
    if n > 0 { CountFrame(rows, more, k, n - 1); }
  }

  lemma {:induction false} TakenAmong(rows: seq<Row>, k: Key, v: nat, n: nat)
    requires Contiguous(rows) && n <= |rows|
    ensures (exists i :: 0 <= i < n && rows[i].body.key == k && rows[i].version == v) <==> 1 <= v <= Count(rows, k, n)
    ensures LatestAmong(rows, k, n) == Count(rows, k, n)
    decreases n
  {
    if n > 0 {
      TakenAmong(rows, k, v, n - 1);
      assert Numbered(rows, n - 1);
    }
  }

  /** Under contiguity a version is taken exactly when it is at most the number of rows,
      and the highest version is that number. */
  lemma TakenExactlyUpToCount(rows: seq<Row>, k: Key, v: nat)
    requires Contiguous(rows)
    ensures Taken(rows, k, v) <==> 1 <= v <= Count(rows, k, |rows|)
    ensures Latest(rows, k) == Count(rows, k, |rows|)
  {
    TakenAmong(rows, k, v, |rows|);
  }

  // ---- Reading the history ----

  function InsertDescending(r: Row, sorted: seq<Row>): seq<Row> {
    if sorted == [] || r.version >= sorted[0].version then [r] + sorted
    else [sorted[0]] + InsertDescending(r, sorted[1..])
  }

  /** The first `n` rows' matches for `k`, ordered by version, descending. */
  function ListAmong(rows: seq<Row>, k: Key, n: nat): seq<Row>
    requires n <= |rows|
  {
    if n == 0 then []
    else if rows[n - 1].body.key == k then InsertDescending(rows[n - 1], ListAmong(rows, k, n - 1))
    else ListAmong(rows, k, n - 1)
  }

  /** The rows of a user and job, newest version first. */
  function ListTailored(rows: seq<Row>, k: Key): seq<Row> { ListAmong(rows, k, |rows|) }

  lemma {:induction false} ListAmongCountsDown(rows: seq<Row>, k: Key, n: nat)
    requires Contiguous(rows) && n <= |rows|
    ensures var list, c := ListAmong(rows, k, n), Count(rows, k, n);
            |list| == c &&
            forall i :: 0 <= i < c ==> list[i].version == c - i && list[i].body.key == k && list[i] in rows
    decreases n
  {
    if n > 0 {
      ListAmongCountsDown(rows, k, n - 1);
      assert Numbered(rows, n - 1);
      if rows[n - 1].body.key == k {
        assert ListAmong(rows, k, n) == [rows[n - 1]] + ListAmong(rows, k, n - 1);
      }
    }
  }

  /** On a contiguous table the listing is n, n - 1, ..., 1, holding the rows as committed. */
  lemma ListingCountsDown(rows: seq<Row>, k: Key)
    requires Contiguous(rows)
    ensures var list, n := ListTailored(rows, k), Count(rows, k, |rows|);
            |list| == n &&
            forall i :: 0 <= i < n ==> list[i].version == n - i && list[i].body.key == k && list[i] in rows
  {
    ListAmongCountsDown(rows, k, |rows|);
  }

  // ---- Any number of writers at once ----

  /** Where a call to `createTailored` stands between two database calls. `readAt` records how
      many rows were committed when the version was derived. */
  datatype Pc =
    | Reading(tries: nat)
    | Inserting(tries: nat, version: nat, readAt: nat)
    | Won(version: nat)
    | Conflict
    | Broken

  /** `since` records how many rows were committed at the call's first read. */
  datatype Writer = Writer(body: Body, since: nat, pc: Pc)

  /** `base` rows were there before any of these writers started. */
  datatype State = State(base: nat, rows: seq<Row>, writers: seq<Writer>)

  /** Throw: a database call fails with anything but a unique-constraint violation. */
  datatype Act = Read(w: nat) | Insert(w: nat) | Throw(w: nat)

  predicate Enabled(s: State, a: Act) {
    a.w < |s.writers| &&
    match a
    case Read(w) => s.writers[w].pc.Reading?
    case Insert(w) => s.writers[w].pc.Inserting?
    case Throw(w) => s.writers[w].pc.Reading? || s.writers[w].pc.Inserting?
  }

  function Apply(s: State, a: Act): State
    requires Enabled(s, a)
  {
    var me := s.writers[a.w];
    match a
    case Read(w) =>
      var first := if me.pc.tries == 0 then |s.rows| else me.since;
      var version := Latest(s.rows, me.body.key) + 1;
      s.(writers := s.writers[w := Writer(me.body, first, Inserting(me.pc.tries, version, |s.rows|))])
    case Insert(w) =>
      if Taken(s.rows, me.body.key, me.pc.version) then
        var pc := if me.pc.tries + 1 < VERSION_RETRIES then Reading(me.pc.tries + 1) else Conflict;
        s.(writers := s.writers[w := me.(pc := pc)])
      else
        State(s.base, s.rows + [Row(w, me.body, me.pc.version)], s.writers[w := me.(pc := Won(me.pc.version))])
    case Throw(w) => s.(writers := s.writers[w := me.(pc := Broken)])
  }

  predicate Legal(s: State, acts: seq<Act>)
    decreases |acts|
  {
    acts == [] || (Enabled(s, acts[0]) && Legal(Apply(s, acts[0]), acts[1..]))
  }

  function Exec(s: State, acts: seq<Act>): State
    requires Legal(s, acts)
    decreases |acts|
  {
    if acts == [] then s else Exec(Apply(s, acts[0]), acts[1..])
  }

  ghost predicate Initial(s: State) {
    s.base == |s.rows| && Contiguous(s.rows) &&
    forall w :: 0 <= w < |s.writers| ==> s.writers[w].pc == Reading(0)
  }

  /** How many rows for `k` were committed from position `from` up to position `to`. */
  function Between(rows: seq<Row>, k: Key, from: nat, upto: nat): int
    requires from <= |rows| && upto <= |rows|
  {
    Count(rows, k, upto) - Count(rows, k, from)
  }

  ghost predicate WriterOk(s: State, w: nat)
    requires w < |s.writers|
  {
    var me, k := s.writers[w], s.writers[w].body.key;
    match me.pc
    case Reading(tries) =>
      tries < VERSION_RETRIES &&
      (tries > 0 ==> s.base <= me.since <= |s.rows| && Between(s.rows, k, me.since, |s.rows|) >= tries)
    case Inserting(tries, version, readAt) =>
      tries < VERSION_RETRIES && s.base <= me.since <= readAt <= |s.rows| &&
      version == Count(s.rows, k, readAt) + 1 && Between(s.rows, k, me.since, readAt) >= tries
    case Won(version) =>
      exists i :: s.base <= i < |s.rows| && s.rows[i] == Row(w, me.body, version)
    case Conflict =>
      s.base <= me.since <= |s.rows| && Between(s.rows, k, me.since, |s.rows|) >= VERSION_RETRIES
    case Broken => true
  }

  /** The row at position `i`, committed by a writer of this run, is that writer's one row. */
  ghost predicate RowOk(s: State, i: nat)
    requires i < |s.rows|
  {
    s.rows[i].writer < |s.writers| && s.writers[s.rows[i].writer].body == s.rows[i].body &&
    s.writers[s.rows[i].writer].pc == Won(s.rows[i].version)
  }

  ghost predicate Inv(s: State) {
    s.base <= |s.rows| && Contiguous(s.rows) &&
    (forall i :: s.base <= i < |s.rows| ==> RowOk(s, i)) &&
    (forall i, j :: s.base <= i < j < |s.rows| ==> s.rows[i].writer != s.rows[j].writer) &&
    (forall w :: 0 <= w < |s.writers| ==> WriterOk(s, w))
  }

  lemma InitialInv(s: State)
    requires Initial(s)
    ensures Inv(s)
  {}

  /** Appending keeps every other call's bookkeeping. */
  lemma OthersKeep(s: State, s': State, w: nat, u: nat)
    requires Inv(s) && u < |s.writers| && u != w
    requires s'.base == s.base && |s'.writers| == |s.writers| && s'.writers[u] == s.writers[u]
    requires s.rows <= s'.rows
    ensures WriterOk(s', u)
  {
    assert WriterOk(s, u);
    var me, k := s.writers[u], s.writers[u].body.key;
    CountMonotone(s'.rows, k, |s.rows|, |s'.rows|);
    CountFrame(s.rows, s'.rows, k, |s.rows|);
    if me.since <= |s.rows| { CountFrame(s.rows, s'.rows, k, me.since); }
    if me.pc.Inserting? { CountFrame(s.rows, s'.rows, k, me.pc.readAt); }
    if me.pc.Won? {
      var i :| s.base <= i < |s.rows| && s.rows[i] == Row(u, me.body, me.pc.version);
      assert s'.rows[i] == Row(u, me.body, me.pc.version);
    }
  }

  lemma {:induction false} LastFor(rows: seq<Row>, k: Key, from: nat, upto: nat) returns (i: nat)
    requires from <= upto <= |rows| && Between(rows, k, from, upto) >= 1
    ensures from <= i < upto && rows[i].body.key == k
    decreases upto
  {
    if rows[upto - 1].body.key == k { i := upto - 1; } else { i := LastFor(rows, k, from, upto - 1); }
  }

  ghost predicate RivalCommitted(s: State, w: nat, from: nat)
    requires w < |s.writers|
  {
    exists i :: from <= i < |s.rows| && s.rows[i].body.key == s.writers[w].body.key && s.rows[i].writer != w
  }

  /** The unique index fires exactly when another call's row for the same user and job was
      committed between this call's read and its insert. */
  lemma CollisionMeansRival(s: State, w: nat)
    requires Inv(s) && w < |s.writers| && s.writers[w].pc.Inserting?
    ensures var me := s.writers[w];
            Taken(s.rows, me.body.key, me.pc.version) <==> RivalCommitted(s, w, me.pc.readAt)
    ensures var me := s.writers[w];
            me.pc.readAt <= |s.rows| &&
            (Taken(s.rows, me.body.key, me.pc.version) <==> Between(s.rows, me.body.key, me.pc.readAt, |s.rows|) >= 1)
  {
    assert WriterOk(s, w);
    var me := s.writers[w];
    var k, r := me.body.key, me.pc.readAt;
    TakenExactlyUpToCount(s.rows, k, me.pc.version);
    if Between(s.rows, k, r, |s.rows|) >= 1 {
      var i := LastFor(s.rows, k, r, |s.rows|);
      assert RowOk(s, i);
    }
    if RivalCommitted(s, w, r) {
      var i :| r <= i < |s.rows| && s.rows[i].body.key == k && s.rows[i].writer != w;
      CountMonotone(s.rows, k, r, i);
      CountMonotone(s.rows, k, i + 1, |s.rows|);
    }
  }

  lemma ReadKeepsInv(s: State, w: nat)
    requires Inv(s) && Enabled(s, Read(w))
    ensures Inv(Apply(s, Read(w)))
  {
    var s' := Apply(s, Read(w));
    assert WriterOk(s, w);
    TakenExactlyUpToCount(s.rows, s.writers[w].body.key, 0);
    forall u | 0 <= u < |s.writers| ensures WriterOk(s', u) {
      if u != w { OthersKeep(s, s', w, u); }
    }
    forall i | s.base <= i < |s.rows| ensures RowOk(s', i) { assert RowOk(s, i); }
  }

  lemma AppendKeepsContiguous(rows: seq<Row>, r: Row)
    requires Contiguous(rows) && r.version == Count(rows, r.body.key, |rows|) + 1
    ensures Contiguous(rows + [r])
  {
    var more := rows + [r];
    forall i | 0 <= i < |more| ensures Numbered(more, i) {
      if i < |rows| { assert Numbered(rows, i); }
      CountFrame(rows, more, more[i].body.key, i);
    }
  }

  /** A row numbered one above the latest continues the sequence. */
  lemma NextKeepsContiguous(rows: seq<Row>, r: Row)
    requires Contiguous(rows) && r.version == Latest(rows, r.body.key) + 1
    ensures Contiguous(rows + [r])
  {
    TakenExactlyUpToCount(rows, r.body.key, 0);
    AppendKeepsContiguous(rows, r);
  }

  /** Whatever happened since its read, a call that is not refused commits the version one above the latest: reading
      and inserting amount to one step. */
  lemma CommitsAreNext(s: State, w: nat)
    requires Inv(s) && Enabled(s, Insert(w)) && !Taken(s.rows, s.writers[w].body.key, s.writers[w].pc.version)
    ensures s.writers[w].pc.version == Latest(s.rows, s.writers[w].body.key) + 1
  {
    hide Contiguous, Taken, Latest, Count;
    assert WriterOk(s, w);
    var me := s.writers[w];
    CollisionMeansRival(s, w);
    CountMonotone(s.rows, me.body.key, me.pc.readAt, |s.rows|);
    TakenExactlyUpToCount(s.rows, me.body.key, 0);
  }

  lemma InsertKeepsInv(s: State, w: nat)
    requires Inv(s) && Enabled(s, Insert(w))
    ensures Inv(Apply(s, Insert(w)))
  {
    var s' := Apply(s, Insert(w));
    assert WriterOk(s, w);
    var me, n := s.writers[w], |s.rows|;
    CollisionMeansRival(s, w);
    if !Taken(s.rows, me.body.key, me.pc.version) {
      CountMonotone(s.rows, me.body.key, me.pc.readAt, n);
      AppendKeepsContiguous(s.rows, Row(w, me.body, me.pc.version));
      assert s'.rows[n] == Row(w, me.body, me.pc.version);
    }
    forall i | s.base <= i < |s'.rows| ensures RowOk(s', i) { if i < n { assert RowOk(s, i); } }
    forall i | s.base <= i < n ensures s.rows[i].writer != w { assert RowOk(s, i); }
    forall u | 0 <= u < |s.writers| ensures WriterOk(s', u) {
      if u != w { OthersKeep(s, s', w, u); }
    }
  }

  lemma StepKeepsInv(s: State, a: Act)
    requires Inv(s) && Enabled(s, a)
    ensures Inv(Apply(s, a))
    ensures s.rows <= Apply(s, a).rows && Apply(s, a).base == s.base
    ensures |Apply(s, a).writers| == |s.writers|
  {
    match a
    case Read(w) => ReadKeepsInv(s, w);
    case Insert(w) => InsertKeepsInv(s, w);
    case Throw(w) =>
      var s' := Apply(s, a);
      forall u | 0 <= u < |s.writers| ensures WriterOk(s', u) { if u != w { OthersKeep(s, s', w, u); } }
      forall i | s.base <= i < |s.rows| ensures RowOk(s', i) { assert RowOk(s, i); }
  }

  /** Contiguity and immutability over whole runs: rows are only ever appended, and every
      reachable table numbers each user's and job's rows 1..n. */
  lemma {:induction false} RunKeepsInv(s: State, acts: seq<Act>)
    requires Inv(s) && Legal(s, acts)
    ensures Inv(Exec(s, acts)) && s.rows <= Exec(s, acts).rows
    ensures Exec(s, acts).base == s.base && |Exec(s, acts).writers| == |s.writers|
    decreases |acts|
  {
    if acts != [] {
      StepKeepsInv(s, acts[0]);
      RunKeepsInv(Apply(s, acts[0]), acts[1..]);
    }
  }

  lemma LaterRowsAreNewer(rows: seq<Row>, i: nat, j: nat)
    requires Contiguous(rows) && i < j < |rows| && rows[i].body.key == rows[j].body.key
    ensures rows[i].version < rows[j].version
  {
    assert Numbered(rows, i) && Numbered(rows, j);
    CountMonotone(rows, rows[i].body.key, i + 1, j);
  }

  /** The versions stored for a user and job are exactly 1..n, each once and in commit order,
      in every reachable state. */
  lemma VersionsAreExactlyOneToN(s: State, acts: seq<Act>, k: Key, v: nat)
    requires Initial(s) && Legal(s, acts)
    ensures Taken(Exec(s, acts).rows, k, v) <==> 1 <= v <= Count(Exec(s, acts).rows, k, |Exec(s, acts).rows|)
    ensures Ascending(Exec(s, acts).rows)
  {
    InitialInv(s);
    RunKeepsInv(s, acts);
    var rows := Exec(s, acts).rows;
    TakenExactlyUpToCount(rows, k, v);
    forall i, j | 0 <= i < j < |rows| && rows[i].body.key == rows[j].body.key
      ensures rows[i].version < rows[j].version
    {
      LaterRowsAreNewer(rows, i, j);
    }
  }

  ghost predicate Ascending(rows: seq<Row>) {
    forall i, j :: 0 <= i < j < |rows| && rows[i].body.key == rows[j].body.key ==> rows[i].version < rows[j].version
  }

  ghost predicate WonBy(t: State, w: nat, v: nat) {
    w < |t.writers| && t.writers[w].pc == Won(v)
  }

  /** Calls that succeed for the same user and job got different versions, and each one's row
      holds what that call sent. */
  lemma WinnersDiffer(s: State, acts: seq<Act>, w: nat, v: nat, u: nat, x: nat)
    requires Initial(s) && Legal(s, acts) && WonBy(Exec(s, acts), w, v) && WonBy(Exec(s, acts), u, x)
    requires w != u && Exec(s, acts).writers[w].body.key == Exec(s, acts).writers[u].body.key
    ensures v != x && Row(w, Exec(s, acts).writers[w].body, v) in Exec(s, acts).rows
  {
    var t := Exec(s, acts);
    InitialInv(s);
    RunKeepsInv(s, acts);
    assert WriterOk(t, w) && WriterOk(t, u);
    var i :| t.base <= i < |t.rows| && t.rows[i] == Row(w, t.writers[w].body, v);
    var j :| t.base <= j < |t.rows| && t.rows[j] == Row(u, t.writers[u].body, x);
    if i < j { LaterRowsAreNewer(t.rows, i, j); } else { LaterRowsAreNewer(t.rows, j, i); }
  }

  // ---- Progress ----

  /** The calls whose rows for `k` sit at positions `from` up to `upto`. */
  ghost function Committers(rows: seq<Row>, k: Key, from: nat, upto: nat): set<nat>
    requires upto <= |rows|
  {
    set i | from <= i < upto && rows[i].body.key == k :: rows[i].writer
  }

  lemma {:induction false} CommittersAreDistinct(rows: seq<Row>, k: Key, from: nat, upto: nat)
    requires from <= upto <= |rows|
    requires forall i, j :: from <= i < j < |rows| ==> rows[i].writer != rows[j].writer
    ensures |Committers(rows, k, from, upto)| == Between(rows, k, from, upto)
    decreases upto
  {
    if from < upto {
      CommittersAreDistinct(rows, k, from, upto - 1);
      var before, last := Committers(rows, k, from, upto - 1), rows[upto - 1];
      if last.body.key == k {
        assert Committers(rows, k, from, upto) == before + {last.writer};
      } else {
        assert Committers(rows, k, from, upto) == before;
      }
    }
  }

  /** A call that ends in CONFLICT was beaten by at least five other calls, each of which
      committed a row for the same user and job after this call's first read. */
  lemma ConflictNeedsFiveRivals(s: State, w: nat)
    requires Inv(s) && w < |s.writers| && s.writers[w].pc == Conflict
    ensures var rivals := Committers(s.rows, s.writers[w].body.key, s.writers[w].since, |s.rows|);
            |rivals| >= 5 && w !in rivals &&
            forall u :: u in rivals ==> u < |s.writers| && s.writers[u].pc.Won?
  {
    assert WriterOk(s, w);
    var k, from := s.writers[w].body.key, s.writers[w].since;
    CommittersAreDistinct(s.rows, k, from, |s.rows|);
    forall u | u in Committers(s.rows, k, from, |s.rows|) ensures u != w && u < |s.writers| && s.writers[u].pc.Won? {
      var i :| from <= i < |s.rows| && s.rows[i].body.key == k && s.rows[i].writer == u;
      assert RowOk(s, i);
    }
  }

  /** The other calls for the same user and job. */
  ghost function Rivals(s: State, w: nat): set<nat>
    requires w < |s.writers|
  {
    set u | 0 <= u < |s.writers| && u != w && s.writers[u].body.key == s.writers[w].body.key
  }

  /** What is to be written never changes. */
  lemma {:induction false} BodiesStay(s: State, acts: seq<Act>)
    requires Legal(s, acts)
    ensures |Exec(s, acts).writers| == |s.writers|
    ensures forall u :: 0 <= u < |s.writers| ==> Exec(s, acts).writers[u].body == s.writers[u].body
    decreases |acts|
  {
    if acts != [] { BodiesStay(Apply(s, acts[0]), acts[1..]); }
  }

  /** A call with at most four rivals never ends in CONFLICT, however many calls for other jobs there are and
      whatever the interleaving. So with at most five writers of one user and job, none does. */
  lemma FewRivalsNeverConflict(s: State, acts: seq<Act>, w: nat)
    requires Initial(s) && Legal(s, acts) && w < |s.writers| && |Rivals(s, w)| <= 4
    ensures w < |Exec(s, acts).writers| && Exec(s, acts).writers[w].pc != Conflict
  {
    InitialInv(s);
    RunKeepsInv(s, acts);
    BodiesStay(s, acts);
    var t := Exec(s, acts);
    if t.writers[w].pc == Conflict {
      ConflictNeedsFiveRivals(t, w);
      var k, from := t.writers[w].body.key, t.writers[w].since;
      var winners := Committers(t.rows, k, from, |t.rows|);
      forall u | u in winners ensures u in Rivals(s, w) {
        var i :| from <= i < |t.rows| && t.rows[i].body.key == k && t.rows[i].writer == u;
        WinnersHaveTheKey(t, w, i);
      }
      Sets.SubsetSize(winners, Rivals(s, w));
    }
  }

  lemma WinnersHaveTheKey(s: State, w: nat, i: nat)
    requires Inv(s) && w < |s.writers| && WriterOk(s, w) && s.writers[w].pc == Conflict
    requires s.writers[w].since <= i < |s.rows| && s.rows[i].body.key == s.writers[w].body.key
    ensures s.rows[i].writer < |s.writers| && s.writers[s.rows[i].writer].body.key == s.writers[w].body.key
  {
    assert RowOk(s, i);
  }

  predicate NoThrow(acts: seq<Act>) { forall i :: 0 <= i < |acts| ==> !acts[i].Throw? }

  predicate Finished(w: Writer) { !w.pc.Reading? && !w.pc.Inserting? }

  lemma {:induction false} NobodyBreaks(s: State, acts: seq<Act>, w: nat)
    requires Legal(s, acts) && NoThrow(acts) && w < |s.writers| && s.writers[w].pc != Broken
    ensures w < |Exec(s, acts).writers| && Exec(s, acts).writers[w].pc != Broken
    decreases |acts|
  {
    if acts != [] { NobodyBreaks(Apply(s, acts[0]), acts[1..], w); }
  }

  /** When no database call fails, a call with at most four rivals that has finished has succeeded. */
  lemma FewRivalsAllSucceed(s: State, acts: seq<Act>, w: nat)
    requires Initial(s) && Legal(s, acts) && NoThrow(acts) && w < |s.writers| && |Rivals(s, w)| <= 4
    ensures var t := Exec(s, acts); w < |t.writers| && (Finished(t.writers[w]) ==> t.writers[w].pc.Won?)
  {
    FewRivalsNeverConflict(s, acts, w);
    NobodyBreaks(s, acts, w);
  }

  // ---- Five rivals can starve a call ----

  lemma ExecFour(s: State, a: Act, b: Act, c: Act, d: Act)
    requires Enabled(s, a) && Enabled(Apply(s, a), b) && Enabled(Apply(Apply(s, a), b), c)
    requires Enabled(Apply(Apply(Apply(s, a), b), c), d)
    ensures Legal(s, [a, b, c, d]) && Exec(s, [a, b, c, d]) == Apply(Apply(Apply(Apply(s, a), b), c), d)
  {
    var s1 := Apply(s, a);
    var s2 := Apply(s1, b);
    var s3 := Apply(s2, c);
    assert [a, b, c, d][1..] == [b, c, d] && [b, c, d][1..] == [c, d] && [c, d][1..] == [d];
    assert Legal(s3, [d]) && Exec(s3, [d]) == Apply(s3, d);
    assert Legal(s2, [c, d]) && Exec(s2, [c, d]) == Apply(s3, d);
    assert Legal(s1, [b, c, d]) && Exec(s1, [b, c, d]) == Apply(s3, d);
  }

  lemma {:induction false} ExecAppend(s: State, xs: seq<Act>, ys: seq<Act>)
    requires Legal(s, xs) && Legal(Exec(s, xs), ys)
    ensures Legal(s, xs + ys) && Exec(s, xs + ys) == Exec(Exec(s, xs), ys)
    decreases |xs|
  {
    if xs == [] {
      assert xs + ys == ys;
    } else {
      assert (xs + ys)[1..] == xs[1..] + ys;
      ExecAppend(Apply(s, xs[0]), xs[1..], ys);
    }
  }

  /** One round against writer `w`: it reads, its rival reads and commits, and it collides. */
  lemma LosingRound(s: State, w: nat, u: nat)
    requires Inv(s) && w < |s.writers| && u < |s.writers| && u != w && s.writers[w].pc.Reading?
    requires s.writers[u].pc.Reading?
    requires s.writers[u].body.key == s.writers[w].body.key
    ensures Legal(s, [Read(w), Read(u), Insert(u), Insert(w)])
    ensures var t := Exec(s, [Read(w), Read(u), Insert(u), Insert(w)]);
      Inv(t) && |t.writers| == |s.writers| && t.writers[w].body == s.writers[w].body &&
      (forall v :: 0 <= v < |s.writers| && v != w && v != u ==> t.writers[v] == s.writers[v]) &&
      t.writers[w].pc ==
        if s.writers[w].pc.tries + 1 < VERSION_RETRIES then Reading(s.writers[w].pc.tries + 1) else Conflict
  {
    hide Inv, WriterOk, Contiguous, Taken, Latest, Count;
    var s1 := Apply(s, Read(w));
    StepKeepsInv(s, Read(w));
    var s2 := Apply(s1, Read(u));
    StepKeepsInv(s1, Read(u));
    CollisionMeansRival(s2, u);
    var s3 := Apply(s2, Insert(u));
    StepKeepsInv(s2, Insert(u));
    assert s3.rows[|s2.rows|].writer == u && s3.rows[|s2.rows|].body.key == s.writers[w].body.key;
    CollisionMeansRival(s3, w);
    assert RivalCommitted(s3, w, |s.rows|);
    StepKeepsInv(s3, Insert(w));
    ExecFour(s, Read(w), Read(u), Insert(u), Insert(w));
  }

  /** Some run in which no database call fails leads from `s` to `t`. */
  ghost predicate RunsTo(s: State, t: State) { exists acts :: Legal(s, acts) && NoThrow(acts) && Exec(s, acts) == t }

  lemma RunsOn(s: State, t: State, more: seq<Act>)
    requires RunsTo(s, t) && Legal(t, more) && NoThrow(more)
    ensures RunsTo(s, Exec(t, more))
  {
    var acts :| Legal(s, acts) && NoThrow(acts) && Exec(s, acts) == t;
    ExecAppend(s, acts, more);
    assert NoThrow(acts + more);
  }

  /** As long as enough rivals have not begun, round after round is lost. */
  lemma {:induction false} Starve(s: State, t: State, w: nat, rivals: set<nat>) returns (u: State)
    requires RunsTo(s, t) && Inv(t) && w < |t.writers| && t.writers[w].pc.Reading?
    requires t.writers[w].pc.tries < VERSION_RETRIES && |rivals| >= VERSION_RETRIES - t.writers[w].pc.tries
    requires forall v :: v in rivals ==> v in Rivals(t, w) && t.writers[v].pc == Reading(0)
    ensures RunsTo(s, u) && w < |u.writers| && u.writers[w].pc == Conflict
    decreases VERSION_RETRIES - t.writers[w].pc.tries
  {
    hide Inv, RunsTo;
    var v :| v in rivals;
    var round := [Read(w), Read(v), Insert(v), Insert(w)];
    LosingRound(t, w, v);
    RunsOn(s, t, round);
    u := Exec(t, round);
    if t.writers[w].pc.tries + 1 < VERSION_RETRIES { u := Starve(s, u, w, rivals - {v}); }
  }

  ghost predicate CanConflict(s: State, w: nat) {
    exists t :: RunsTo(s, t) && w < |t.writers| && t.writers[w].pc == Conflict
  }

  /** Exactly when five retries are not enough: from any table, a call can end in CONFLICT, without any database call
      failing, if and only if at least five other calls are for the same user and job. */
  lemma ConflictExactly(s: State, w: nat)
    requires Initial(s) && w < |s.writers|
    ensures CanConflict(s, w) <==> |Rivals(s, w)| >= 5
  {
    if |Rivals(s, w)| >= 5 {
      InitialInv(s);
      assert Legal(s, []) && NoThrow([]) && Exec(s, []) == s;
      var t := Starve(s, s, w, Rivals(s, w));
    } else if CanConflict(s, w) {
      var t :| RunsTo(s, t) && w < |t.writers| && t.writers[w].pc == Conflict;
      var acts :| Legal(s, acts) && NoThrow(acts) && Exec(s, acts) == t;
      FewRivalsNeverConflict(s, acts, w);
    }
  }

  // ---- The call itself ----

  datatype Outcome = Created(row: Row) | Conflicted | Thrown

  /** What surrounds one database call: the steps other calls take first, and whether it throws. */
  datatype Turn = Turn(others: seq<Act>, throws: bool)

  /** Some run leads from `s` to `t`. */
  ghost predicate Reaches(s: State, t: State) {
    exists acts :: Legal(s, acts) && Exec(s, acts) == t
  }

  lemma ReachesSelf(s: State)
    ensures Reaches(s, s)
  {
    assert Legal(s, []) && Exec(s, []) == s;
  }

  lemma ReachesOneMore(s: State, t: State, a: Act)
    requires Reaches(s, t) && Enabled(t, a)
    ensures Reaches(s, Apply(t, a))
  {
    var acts :| Legal(s, acts) && Exec(s, acts) == t;
    assert [a][1..] == [];
    ExecAppend(s, acts, [a]);
  }

  lemma ReachesThrough(s: State, t: State, u: State)
    requires Reaches(s, t) && Reaches(t, u)
    ensures Reaches(s, u)
  {
    var xs :| Legal(s, xs) && Exec(s, xs) == t;
    var ys :| Legal(t, ys) && Exec(t, ys) == u;
    ExecAppend(s, xs, ys);
  }

  lemma ReachesKeepsInv(s: State, t: State)
    requires Inv(s) && Reaches(s, t)
    ensures Inv(t) && s.rows <= t.rows && t.base == s.base && |t.writers| == |s.writers|
  {
    var acts :| Legal(s, acts) && Exec(s, acts) == t;
    RunKeepsInv(s, acts);
  }

  lemma Step(s: State, t: State, a: Act)
    requires Inv(s) && Inv(t) && Reaches(s, t) && Enabled(t, a)
    ensures Inv(Apply(t, a)) && Reaches(s, Apply(t, a)) && |Apply(t, a).writers| == |t.writers| && s.rows <= t.rows
  {
    ReachesKeepsInv(s, t);
    StepKeepsInv(t, a);
    ReachesOneMore(s, t, a);
  }

  /** What holds when call `w` returns in `t`, having started in `s`. */
  lemma Finish(s: State, t: State, w: nat)
    requires Inv(s) && Reaches(s, t) && w < |s.writers|
    ensures Inv(t) && s.rows <= t.rows && |t.writers| == |s.writers|
    ensures !t.writers[w].pc.Won? ==> forall i :: t.base <= i < |t.rows| ==> t.rows[i].writer != w
    ensures |s.rows| < |t.rows| ==> t.rows[|t.rows| - 1] !in s.rows
  {
    ReachesKeepsInv(s, t);
    if !t.writers[w].pc.Won? { NoRowUnlessWon(t, w); }
    if |s.rows| < |t.rows| {
      NewestIsNew(t.rows);
      assert s.rows <= t.rows[..|t.rows| - 1];
    }
  }

  class ResumeService {
    var base: nat
    var rows: seq<Row>
    var writers: seq<Writer>

    function World(): State
      reads this
    {
      State(base, rows, writers)
    }

    /** Lets other calls run: steps of call `w`, and steps nobody can take, are skipped. */
    method Interleave(w: nat, others: seq<Act>)
      requires Inv(World()) && w < |writers|
      modifies this
      ensures Inv(World()) && Reaches(old(World()), World())
      ensures |writers| == old(|writers|) && writers[w] == old(writers[w])
    {
      ReachesSelf(World());
      for i := 0 to |others|
        invariant Inv(World()) && Reaches(old(World()), World())
        invariant |writers| == old(|writers|) && writers[w] == old(writers[w])
      {
        var s := World();
        if others[i].w != w && Enabled(s, others[i]) {
          ReachesOneMore(old(World()), s, others[i]);
          StepKeepsInv(s, others[i]);
          var t := Apply(s, others[i]);
          rows, writers := t.rows, t.writers;
        }
      }
    }

    /** The call gives up because a database call threw something else than a collision. */
    method GiveUp(w: nat)
      requires Inv(World()) && Enabled(World(), Throw(w))
      modifies this`writers
      ensures World() == Apply(old(World()), Throw(w)) && |writers| == old(|writers|)
      ensures writers[w] == old(writers[w]).(pc := Broken)
    {
      writers := writers[w := writers[w].(pc := Broken)];
    }

    /** `findFirst`, newest version first; the next version is one more. */
    method DeriveVersion(w: nat) returns (version: nat)
      requires Inv(World()) && Enabled(World(), Read(w))
      modifies this`writers
      ensures World() == Apply(old(World()), Read(w)) && |writers| == old(|writers|)
      ensures writers[w].pc == Inserting(old(writers[w]).pc.tries, version, |rows|)
      ensures writers[w].body == old(writers[w].body)
    {
      var me := writers[w];
      version := Latest(rows, me.body.key) + 1;
      writers := writers[w := Writer(me.body, if me.pc.tries == 0 then |rows| else me.since,
                                     Inserting(me.pc.tries, version, |rows|))];
    }

    /** `create`: refused when the unique index already holds the version. */
    method TryCreate(w: nat, version: nat) returns (created: bool)
      requires Inv(World()) && Enabled(World(), Insert(w)) && version == writers[w].pc.version
      modifies this`rows, this`writers
      ensures World() == Apply(old(World()), Insert(w)) && |writers| == old(|writers|)
      ensures writers[w].body == old(writers[w].body)
      ensures writers[w].pc == if created then Won(version)
                               else if old(writers[w]).pc.tries + 1 >= VERSION_RETRIES then Conflict
                               else Reading(old(writers[w]).pc.tries + 1)
      ensures created == !Taken(old(rows), writers[w].body.key, version)
      ensures created ==> rows == old(rows) + [Row(w, writers[w].body, version)]
    {
      var me := writers[w];
      created := !Taken(rows, me.body.key, version);
      if created {
        rows := rows + [Row(w, me.body, version)];
        writers := writers[w := me.(pc := Won(version))];
      } else {
        var tries := me.pc.tries + 1;
        writers := writers[w := me.(pc := if tries < VERSION_RETRIES then Reading(tries) else Conflict)];
      }
    }

    /** `createTailored` for call `w`, under any interleaving and any failing database calls. The
        call is a run of the system above, so everything proved of runs holds of it. */
    method CreateTailored(w: nat, onRead: nat -> Turn, onInsert: nat -> Turn) returns (r: Outcome)
      requires Inv(World()) && w < |writers| && writers[w].pc == Reading(0)
      modifies this
      ensures Inv(World()) && Reaches(old(World()), World()) && old(rows) <= rows
      ensures |writers| == old(|writers|) && writers[w].body == old(writers[w].body)
      ensures r.Created? ==> r.row == Row(w, writers[w].body, r.row.version) && r.row in rows && r.row !in old(rows)
      ensures r.Created? <==> writers[w].pc.Won?
      ensures r.Conflicted? <==> writers[w].pc == Conflict
      ensures !r.Created? ==> forall i :: base <= i < |rows| ==> rows[i].writer != w
    {
      hide Apply, Inv;
      ghost var start := World();
      ReachesSelf(start);
      for attempt := 0 to VERSION_RETRIES
        invariant Inv(World()) && Reaches(start, World())
        invariant |writers| == |start.writers| && writers[w].body == start.writers[w].body
        invariant writers[w].pc == if attempt < VERSION_RETRIES then Reading(attempt) else Conflict
      {
        ghost var before := World();
        Interleave(w, onRead(attempt).others);
        ReachesThrough(start, before, World());
        if onRead(attempt).throws {
          Step(start, World(), Throw(w));
          GiveUp(w);
          r := Thrown;
          Finish(start, World(), w);
          return;
        }
        Step(start, World(), Read(w));
        var version := DeriveVersion(w);

        before := World();
        Interleave(w, onInsert(attempt).others);
        ReachesThrough(start, before, World());
        if onInsert(attempt).throws {
          Step(start, World(), Throw(w));
          GiveUp(w);
          r := Thrown;
          Finish(start, World(), w);
          return;
        }
        Step(start, World(), Insert(w));
        var created := TryCreate(w, version);
        if created {
          r := Created(Row(w, writers[w].body, version));
          Finish(start, World(), w);
          return;
        }
      }
      r := Conflicted;
      Finish(start, World(), w);
    }
  }

  lemma NewestIsNew(rows: seq<Row>)
    requires Contiguous(rows) && rows != []
    ensures rows[|rows| - 1] !in rows[..|rows| - 1]
  {
    forall i | 0 <= i < |rows| - 1 ensures rows[i] != rows[|rows| - 1] {
      if rows[i].body.key == rows[|rows| - 1].body.key { LaterRowsAreNewer(rows, i, |rows| - 1); }
    }
  }

  lemma NoRowUnlessWon(s: State, w: nat)
    requires Inv(s) && w < |s.writers| && !s.writers[w].pc.Won?
    ensures forall i :: s.base <= i < |s.rows| ==> s.rows[i].writer != w
  {
    forall i | s.base <= i < |s.rows| ensures s.rows[i].writer != w { assert RowOk(s, i); }
  }
}
