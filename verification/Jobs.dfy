/** The jobs service: every operation checks ownership first and writes afterwards, in a separate step.
    A single statement or a transaction is one step; deleting a job cascades to its events and artifacts. */
module Jobs {
  import opened Wrappers

  datatype Stage = Saved | Applied | RecruiterCall | PhoneScreen | Technical | Onsite | Offer | Rejected

  datatype ArtifactType = Research | InterviewPrep

  datatype Fields = Fields(company: string, title: string, location: Option<string>, link: Option<string>, jd: string,
                           notes: string)

  /** An absent member is not touched; a stage may be sent and is ignored. */
  datatype Patch = Patch(company: Option<string>, title: Option<string>, location: Option<Option<string>>,
                         link: Option<Option<string>>,
                         jd: Option<string>, notes: Option<string>, stage: Option<Stage>)

  datatype Job = Job(user: string, fields: Fields, stage: Stage)

  datatype Event = Event(jobId: nat, stage: Stage)

  datatype ArtifactKey = ArtifactKey(jobId: nat, kind: ArtifactType)

  datatype Intent = Edit(patch: Patch) | Remove | Move(stage: Stage) | Put(kind: ArtifactType, content: string)

  /** An operation that has passed the ownership gate and not yet written. */
  datatype Pending = Pending(user: string, id: nat, intent: Intent)

  /** `creators` remembers who created every id, deleted or not: ids are never used twice. */
  datatype State = State(
    jobs: map<nat, Job>, events: seq<Event>, artifacts: map<ArtifactKey, string>, pending: map<nat, Pending>,
    creators: map<nat, string>)

  const EMPTY := State(map[], [], map[], map[], map[])

  datatype Act =
    | Create(id: nat, user: string, fields: Fields, stage: Stage)
    | Gate(op: nat, user: string, id: nat, intent: Intent)
    | Write(op: nat)
    | Throw(op: nat)

  predicate Owned(s: State, user: string, id: nat) { id in s.jobs && s.jobs[id].user == user }

  predicate Enabled(s: State, a: Act) {
    match a
    case Create(id, _, _, _) => id !in s.creators
    case Gate(op, user, id, _) => op !in s.pending && Owned(s, user, id)
    case Write(op) => op in s.pending
    case Throw(op) => op in s.pending
  }

  function Pick<T>(change: Option<T>, was: T): T { if change.Some? then change.value else was }

  function Merge(f: Fields, p: Patch): Fields {
    Fields(Pick(p.company, f.company), Pick(p.title, f.title), Pick(p.location, f.location), Pick(p.link, f.link),
           Pick(p.jd, f.jd), Pick(p.notes, f.notes))
  }

  ghost predicate IsSet<T>(change: Option<T>, was: T, becomes: T) {
    match change
    case None => becomes == was
    case Some(sent) => becomes == sent
  }

  /** Every field sent is taken over, the others stay, and so do the owner and the stage. */
  ghost predicate IsUpdated(was: Job, p: Patch, becomes: Job) {
    IsSet(p.company, was.fields.company, becomes.fields.company) &&
    IsSet(p.title, was.fields.title, becomes.fields.title) &&
    IsSet(p.location, was.fields.location, becomes.fields.location) &&
    IsSet(p.link, was.fields.link, becomes.fields.link) &&
    IsSet(p.jd, was.fields.jd, becomes.fields.jd) &&
    IsSet(p.notes, was.fields.notes, becomes.fields.notes) &&
    becomes.user == was.user && becomes.stage == was.stage
  }

  lemma MergeUpdates(job: Job, p: Patch)
    ensures IsUpdated(job, p, job.(fields := Merge(job.fields, p)))
  {}

  function WithoutJob(events: seq<Event>, id: nat): seq<Event> {
    if events == [] then []
    else
      var last := events[|events| - 1];
      WithoutJob(events[..|events| - 1], id) + (if last.jobId == id then [] else [last])
  }

  function ArtifactsWithout(artifacts: map<ArtifactKey, string>, id: nat): map<ArtifactKey, string> {
    map k | k in artifacts && k.jobId != id :: artifacts[k]
  }

  /** The write that follows the gate. On a job deleted meanwhile it throws and changes nothing. */
  function Written(s: State, p: Pending): State {
    if p.id !in s.jobs then s
    else
      match p.intent
      case Edit(patch) => s.(jobs := s.jobs[p.id := s.jobs[p.id].(fields := Merge(s.jobs[p.id].fields, patch))])
      case Remove =>
        s.(jobs := s.jobs - {p.id}, events := WithoutJob(s.events, p.id),
           artifacts := ArtifactsWithout(s.artifacts, p.id))
      case Move(stage) =>
        s.(jobs := s.jobs[p.id := s.jobs[p.id].(stage := stage)], events := s.events + [Event(p.id, stage)])
      case Put(kind, content) => s.(artifacts := s.artifacts[ArtifactKey(p.id, kind) := content])
  }

  /** Moving a job to the stage the gate finds it in is a no-op. */
  predicate AlreadyThere(s: State, id: nat, intent: Intent) {
    intent.Move? && id in s.jobs && s.jobs[id].stage == intent.stage
  }

  function Apply(s: State, a: Act): State
    requires Enabled(s, a)
  {
    match a
    case Create(id, user, fields, stage) =>
      s.(jobs := s.jobs[id := Job(user, fields, stage)], events := s.events + [Event(id, stage)],
         creators := s.creators[id := user])
    case Gate(op, user, id, intent) =>
      if AlreadyThere(s, id, intent) then s else s.(pending := s.pending[op := Pending(user, id, intent)])
    case Write(op) => Written(s, s.pending[op]).(pending := s.pending - {op})
    case Throw(op) => s.(pending := s.pending - {op})
  }

  predicate Legal(s: State, acts: seq<Act>)
    decreases |acts|
  {
    acts == [] || (Enabled(s, acts[0]) && Legal(Apply(s, acts[0]), acts[1..]))
  }

  function Exec(s: State, acts: seq<Act>): State
    requires Legal(s, acts)
    decreases |acts|
  {
    if acts == [] then s else Exec(Apply(s, acts[0]), acts[1..])
  }

  // ---- Histories ----

  function History(events: seq<Event>, id: nat): seq<Stage> {
    if events == [] then []
    else
      var last := events[|events| - 1];
      History(events[..|events| - 1], id) + (if last.jobId == id then [last.stage] else [])
  }

  lemma HistoryGrows(events: seq<Event>, e: Event, id: nat)
    ensures History(events + [e], id) == History(events, id) + (if e.jobId == id then [e.stage] else [])
  {
    assert (events + [e])[..|events|] == events;
  }

  lemma {:induction false} HistoryWithout(events: seq<Event>, gone: nat, id: nat)
    ensures History(WithoutJob(events, gone), id) == if id == gone then [] else History(events, id)
  {
    if events != [] {
      var init, last := events[..|events| - 1], events[|events| - 1];
      HistoryWithout(init, gone, id);
      assert WithoutJob(init, gone) + [] == WithoutJob(init, gone);
      HistoryGrows(WithoutJob(init, gone), last, id);
    }
  }

  lemma {:induction false} NoHistoryNoEvent(events: seq<Event>, id: nat)
    ensures History(events, id) == [] <==> forall i :: 0 <= i < |events| ==> events[i].jobId != id
  {
    if events != [] {
      var init := events[..|events| - 1];
      NoHistoryNoEvent(init, id);
      if History(events, id) == [] {
        forall i | 0 <= i < |events| ensures events[i].jobId != id { if i < |init| { assert init[i].jobId != id; } }
      }
      if forall i :: 0 <= i < |events| ==> events[i].jobId != id {
        forall i | 0 <= i < |init| ensures init[i].jobId != id { assert init[i] == events[i]; }
      }
    }
  }

  predicate EndsIn(history: seq<Stage>, stage: Stage) { history != [] && history[|history| - 1] == stage }

  // ---- What every run keeps ----

  ghost predicate JobOk(s: State, id: nat) {
    (id in s.jobs ==>
       id in s.creators && s.creators[id] == s.jobs[id].user && EndsIn(History(s.events, id), s.jobs[id].stage)) &&
    (id !in s.jobs ==> History(s.events, id) == [])
  }

  ghost predicate Inv(s: State) {
    (forall id :: JobOk(s, id)) && (forall k :: k in s.artifacts ==> k.jobId in s.jobs) &&
    (forall op :: op in s.pending ==>
       s.pending[op].id in s.creators && s.creators[s.pending[op].id] == s.pending[op].user)
  }

  lemma StepHistory(s: State, a: Act, id: nat)
    requires Enabled(s, a)
    ensures
      var t, was := Apply(s, a), History(s.events, id);
      History(t.events, id) ==
      if a.Create? && a.id == id then was + [a.stage]
      else if a.Write? && s.pending[a.op].id == id && id in s.jobs && s.pending[a.op].intent.Remove? then []
      else if a.Write? && s.pending[a.op].id == id && id in s.jobs && s.pending[a.op].intent.Move?
      then was + [s.pending[a.op].intent.stage]
      else was
  {
    hide History, WithoutJob, Merge;
    match a {
      case Create(_, _, _, _) => HistoryGrows(s.events, Event(a.id, a.stage), id);
      case Write(op) =>
        var p := s.pending[op];
        if p.id in s.jobs && p.intent.Move? { HistoryGrows(s.events, Event(p.id, p.intent.stage), id); }
        if p.id in s.jobs && p.intent.Remove? { HistoryWithout(s.events, p.id, id); }
      case _ =>
    }
  }

  lemma StepKeepsJob(s: State, a: Act, id: nat)
    requires Inv(s) && Enabled(s, a)
    ensures JobOk(Apply(s, a), id)
  {
    hide History, WithoutJob, Merge;
    assert JobOk(s, id);
    StepHistory(s, a, id);
  }

  lemma StepKeepsInv(s: State, a: Act)
    requires Inv(s) && Enabled(s, a)
    ensures Inv(Apply(s, a))
  {
    hide History, WithoutJob, Merge;
    var t := Apply(s, a);
    if a.Gate? { assert JobOk(s, a.id); }
    assert forall id :: JobOk(t, id) by {
      hide Inv;
      forall id ensures JobOk(t, id) { StepKeepsJob(s, a, id); }
    }
    hide JobOk;
  }

  lemma {:induction false} RunKeepsInv(s: State, acts: seq<Act>)
    requires Inv(s) && Legal(s, acts)
    ensures Inv(Exec(s, acts))
    decreases |acts|
  {
    hide Inv, Apply, Enabled;
    if acts != [] {
      StepKeepsInv(s, acts[0]);
      RunKeepsInv(Apply(s, acts[0]), acts[1..]);
    }
  }

  lemma Runs(acts: seq<Act>)
    requires Legal(EMPTY, acts)
    ensures Inv(Exec(EMPTY, acts))
  {
    RunKeepsInv(EMPTY, acts);
  }

  /** At any interleaving: a job's history is not empty and ends in the job's stage. */
  lemma HistoryEndsInStage(acts: seq<Act>, id: nat)
    requires Legal(EMPTY, acts) && id in Exec(EMPTY, acts).jobs
    ensures var s := Exec(EMPTY, acts); EndsIn(History(s.events, id), s.jobs[id].stage)
  {
    hide Legal, Exec, History;
    Runs(acts);
    assert JobOk(Exec(EMPTY, acts), id);
  }

  /** No event or artifact outlives its job, however the writes of others race with its deletion. */
  lemma NoOrphanRows(acts: seq<Act>)
    requires Legal(EMPTY, acts)
    ensures var s := Exec(EMPTY, acts);
      (forall i :: 0 <= i < |s.events| ==> s.events[i].jobId in s.jobs) &&
      (forall k :: k in s.artifacts ==> k.jobId in s.jobs)
  {
    hide Legal, Exec, History;
    Runs(acts);
    var s := Exec(EMPTY, acts);
    forall i | 0 <= i < |s.events| ensures s.events[i].jobId in s.jobs {
      assert JobOk(s, s.events[i].jobId);
      NoHistoryNoEvent(s.events, s.events[i].jobId);
    }
  }

  /** A deleted job is never back. */
  lemma {:induction false} GoneStaysGone(s: State, acts: seq<Act>, id: nat)
    requires Legal(s, acts) && id in s.creators && id !in s.jobs
    ensures id !in Exec(s, acts).jobs
    decreases |acts|
  {
    hide Merge, WithoutJob;
    if acts != [] { GoneStaysGone(Apply(s, acts[0]), acts[1..], id); }
  }

  /** While a job exists its history only grows, and it keeps its owner. */
  lemma {:induction false} HistoryIsAppendOnly(s: State, acts: seq<Act>, id: nat)
    requires Inv(s) && Legal(s, acts) && id in s.jobs && id in Exec(s, acts).jobs
    ensures History(s.events, id) <= History(Exec(s, acts).events, id) && Exec(s, acts).jobs[id].user == s.jobs[id].user
    decreases |acts|
  {
    hide History, WithoutJob, Merge;
    if acts != [] {
      var t := Apply(s, acts[0]);
      assert JobOk(s, id);
      StepKeepsInv(s, acts[0]);
      StepHistory(s, acts[0], id);
      if id !in t.jobs { GoneStaysGone(t, acts[1..], id); }
      HistoryIsAppendOnly(t, acts[1..], id);
    }
  }

  // ---- Other users' rows ----

  function UserOf(s: State, a: Act): string
    requires Enabled(s, a)
  {
    match a
    case Create(_, user, _, _) => user
    case Gate(_, user, _, _) => user
    case Write(op) => s.pending[op].user
    case Throw(op) => s.pending[op].user
  }

  predicate NeverBy(user: string, s: State, acts: seq<Act>)
    requires Legal(s, acts)
    decreases |acts|
  {
    acts == [] || (UserOf(s, acts[0]) != user && NeverBy(user, Apply(s, acts[0]), acts[1..]))
  }

  predicate SameArtifact(s: State, t: State, k: ArtifactKey) {
    (k in s.artifacts <==> k in t.artifacts) &&
    (k in s.artifacts && k in t.artifacts ==> s.artifacts[k] == t.artifacts[k])
  }

  /** The job, its history and its artifacts are the same in both states. */
  predicate SameJob(s: State, t: State, id: nat) {
    id in s.jobs && id in t.jobs && s.jobs[id] == t.jobs[id] && History(s.events, id) == History(t.events, id) &&
    SameArtifact(s, t, ArtifactKey(id, Research)) && SameArtifact(s, t, ArtifactKey(id, InterviewPrep))
  }

  lemma OthersStep(user: string, s: State, a: Act, id: nat)
    requires Inv(s) && Enabled(s, a) && UserOf(s, a) != user && Owned(s, user, id)
    ensures SameJob(s, Apply(s, a), id)
  {
    hide History, WithoutJob, Merge;
    assert JobOk(s, id);
    StepHistory(s, a, id);
  }

  /** Check-then-act is safe although it is not atomic: nothing other users do, at any interleaving, touches
      a user's jobs, events or artifacts, or adds a job to them. */
  lemma {:induction false} OthersLeaveJobsAlone(user: string, s: State, acts: seq<Act>)
    requires Inv(s) && Legal(s, acts) && NeverBy(user, s, acts)
    ensures forall id :: Owned(s, user, id) ==> SameJob(s, Exec(s, acts), id)
    ensures forall id :: Owned(Exec(s, acts), user, id) ==> Owned(s, user, id)
    decreases |acts|
  {
    hide Inv, Apply, Enabled, History, WithoutJob, Merge;
    if acts != [] {
      var t := Apply(s, acts[0]);
      StepKeepsInv(s, acts[0]);
      OthersLeaveJobsAlone(user, t, acts[1..]);
      forall id | Owned(s, user, id) ensures SameJob(s, Exec(s, acts), id) {
        OthersStep(user, s, acts[0], id);
        assert Owned(t, user, id) && SameJob(t, Exec(t, acts[1..]), id);
      }
      forall id | Owned(t, user, id) ensures Owned(s, user, id) { NothingAppears(user, s, acts[0], id); }
    }
  }

  lemma NothingAppears(user: string, s: State, a: Act, id: nat)
    requires Enabled(s, a) && UserOf(s, a) != user && Owned(Apply(s, a), user, id)
    ensures Owned(s, user, id)
  {
    hide History, WithoutJob, Merge;
  }

  // ---- Repeated stages ----

  predicate NoRepeats(history: seq<Stage>) { forall i :: 0 <= i < |history| - 1 ==> history[i] != history[i + 1] }

  /** Exactly when a move repeats a stage: at the moment it is written, the job is already there. */
  lemma MoveRepeatsExactly(s: State, op: nat)
    requires Inv(s) && Enabled(s, Write(op)) && s.pending[op].intent.Move? && s.pending[op].id in s.jobs
    requires NoRepeats(History(s.events, s.pending[op].id))
    ensures NoRepeats(History(Apply(s, Write(op)).events, s.pending[op].id)) <==>
      !AlreadyThere(s, s.pending[op].id, s.pending[op].intent)
  {
    hide History, WithoutJob, Merge;
    var id := s.pending[op].id;
    assert JobOk(s, id);
    StepHistory(s, Write(op), id);
    var was, now := History(s.events, id), History(Apply(s, Write(op)).events, id);
    assert now == was + [s.pending[op].intent.stage] && now[|was| - 1] == was[|was| - 1];
    if NoRepeats(now) { assert now[|was| - 1] != now[|was|]; }
  }

  lemma OneStageRepeatsNothing(stage: Stage)
    ensures NoRepeats([stage])
  {}

  lemma NothingRepeatsNothing()
    ensures NoRepeats([])
  {}

  /** The act writes a stage that the job already has. */
  predicate Rewrites(s: State, a: Act, id: nat) {
    a.Write? && a.op in s.pending && s.pending[a.op].id == id && AlreadyThere(s, id, s.pending[a.op].intent)
  }

  /** One step repeats a stage in a job's history exactly if it writes the stage the job already has. */
  lemma RepeatStep(s: State, a: Act, id: nat)
    requires Inv(s) && Enabled(s, a) && NoRepeats(History(s.events, id))
    ensures NoRepeats(History(Apply(s, a).events, id)) <==> !Rewrites(s, a, id)
  {
    hide History, WithoutJob, Merge, NoRepeats;
    StepHistory(s, a, id);
    NothingRepeatsNothing();
    if a.Create? && a.id == id {
      assert JobOk(s, id);
      assert History(s.events, id) + [a.stage] == [a.stage];
      OneStageRepeatsNothing(a.stage);
    } else if a.Write? && s.pending[a.op].id == id && id in s.jobs && s.pending[a.op].intent.Move? {
      MoveRepeatsExactly(s, a.op);
    }
  }

  predicate NeverRewrites(s: State, acts: seq<Act>, id: nat)
    requires Legal(s, acts)
    decreases |acts|
  {
    acts == [] || (!Rewrites(s, acts[0], id) && NeverRewrites(Apply(s, acts[0]), acts[1..], id))
  }

  lemma PrefixRepeats(was: seq<Stage>, now: seq<Stage>)
    requires was <= now && NoRepeats(now)
    ensures NoRepeats(was)
  {}

  lemma {:induction false} RepeatsInRun(s: State, acts: seq<Act>, id: nat)
    requires Inv(s) && Legal(s, acts) && NoRepeats(History(s.events, id)) && id in Exec(s, acts).jobs
    ensures NoRepeats(History(Exec(s, acts).events, id)) <==> NeverRewrites(s, acts, id)
    decreases |acts|
  {
    hide Inv, Apply, Enabled, History, NoRepeats, Rewrites;
    if acts != [] {
      var t := Apply(s, acts[0]);
      StepKeepsInv(s, acts[0]);
      RepeatStep(s, acts[0], id);
      if Rewrites(s, acts[0], id) {
        assert id in t.jobs by { RewriteKeepsJob(s, acts[0], id); }
        HistoryIsAppendOnly(t, acts[1..], id);
        if NoRepeats(History(Exec(s, acts).events, id)) {
          PrefixRepeats(History(t.events, id), History(Exec(s, acts).events, id));
        }
      } else {
        RepeatsInRun(t, acts[1..], id);
      }
    }
  }

  lemma RewriteKeepsJob(s: State, a: Act, id: nat)
    requires Enabled(s, a) && Rewrites(s, a, id)
    ensures id in Apply(s, a).jobs
  {
    hide WithoutJob, Merge;
  }

  /** In every run, the history of a job that still exists repeats a stage exactly if some move was written when
      the job was already there. */
  lemma HistoryRepeatsExactly(acts: seq<Act>, id: nat)
    requires Legal(EMPTY, acts) && id in Exec(EMPTY, acts).jobs
    ensures NoRepeats(History(Exec(EMPTY, acts).events, id)) <==> NeverRewrites(EMPTY, acts, id)
  {
    hide Legal, Exec, NeverRewrites;
    EmptyIsEmpty();
    RepeatsInRun(EMPTY, acts, id);
  }

  lemma EmptyIsEmpty()
    ensures Inv(EMPTY) && forall id :: NoRepeats(History(EMPTY.events, id))
  {}

  /** The stage changes of one job do not overlap; everything else may. */
  predicate MovesInTurn(s: State, acts: seq<Act>, id: nat)
    requires Legal(s, acts)
    decreases |acts|
  {
    acts == [] ||
    ((acts[0].Gate? && acts[0].id == id && acts[0].intent.Move? ==> !MovePending(s, id)) &&
     MovesInTurn(Apply(s, acts[0]), acts[1..], id))
  }

  predicate MovePending(s: State, id: nat) { exists op :: op in s.pending && Moves(s, op, id) }

  predicate Moves(s: State, op: nat, id: nat)
    requires op in s.pending
  {
    s.pending[op].id == id && s.pending[op].intent.Move?
  }

  /** At most one move of the job is pending, and it leads away from where the job is. */
  ghost predicate OneMove(s: State, id: nat) {
    (forall op, other :: op in s.pending && other in s.pending && Moves(s, op, id) && Moves(s, other, id) ==>
       op == other) &&
    (forall op :: op in s.pending && Moves(s, op, id) ==> !AlreadyThere(s, id, s.pending[op].intent))
  }

  lemma OneMoveStep(s: State, a: Act, id: nat)
    requires Inv(s) && OneMove(s, id) && Enabled(s, a)
    requires a.Gate? && a.id == id && a.intent.Move? ==> !MovePending(s, id)
    ensures OneMove(Apply(s, a), id) && !Rewrites(s, a, id)
  {
    hide History, WithoutJob, Merge, JobOk;
  }

  lemma {:induction false} InTurnNeverRewrites(s: State, acts: seq<Act>, id: nat)
    requires Inv(s) && OneMove(s, id) && NoRepeats(History(s.events, id)) && Legal(s, acts) && MovesInTurn(s, acts, id)
    ensures NoRepeats(History(Exec(s, acts).events, id))
    decreases |acts|
  {
    hide Inv, OneMove, Apply, Enabled, History, NoRepeats, Rewrites, MovePending;
    if acts != [] {
      StepKeepsInv(s, acts[0]);
      OneMoveStep(s, acts[0], id);
      RepeatStep(s, acts[0], id);
      InTurnNeverRewrites(Apply(s, acts[0]), acts[1..], id);
    }
  }

  /** When the stage changes of one job do not overlap, its history never repeats a stage, whatever else interleaves. */
  lemma MovesInTurnNeverRepeat(acts: seq<Act>, id: nat)
    requires Legal(EMPTY, acts) && MovesInTurn(EMPTY, acts, id)
    ensures NoRepeats(History(Exec(EMPTY, acts).events, id))
  {
    hide Legal, MovesInTurn, Exec, History, NoRepeats;
    EmptyIsEmpty();
    InTurnNeverRewrites(EMPTY, acts, id);
  }

  /** Two requests for the same new stage that pass the gate together both append it. */
  lemma RacingMovesRepeat(s: State, user: string, id: nat, stage: Stage, one: nat, two: nat) returns (acts: seq<Act>)
    requires Inv(s) && Owned(s, user, id) && s.jobs[id].stage != stage && one != two && one !in s.pending
    requires two !in s.pending
    ensures Legal(s, acts) && !NoRepeats(History(Exec(s, acts).events, id))
  {
    hide History, WithoutJob, Merge, Inv;
    var a0, a1, a2, a3 := Gate(one, user, id, Move(stage)), Gate(two, user, id, Move(stage)), Write(one), Write(two);
    var s1 := Apply(s, a0);
    var s2 := Apply(s1, a1);
    var s3 := Apply(s2, a2);
    var s4 := Apply(s3, a3);
    acts := [a0] + ([a1] + ([a2] + ([a3] + [])));
    StepHistory(s2, a2, id);
    StepHistory(s3, a3, id);
    var now, n := History(s4.events, id), |History(s2.events, id)|;
    assert now[n] == stage && now[n + 1] == stage;
    hide Apply, Enabled;
    OneStep(s3, a3, []);
    OneStep(s2, a2, [a3] + []);
    OneStep(s1, a1, [a2] + ([a3] + []));
    OneStep(s, a0, [a1] + ([a2] + ([a3] + [])));
  }

  lemma OneStep(s: State, a: Act, rest: seq<Act>)
    requires Enabled(s, a) && Legal(Apply(s, a), rest)
    ensures Legal(s, [a] + rest) && Exec(s, [a] + rest) == Exec(Apply(s, a), rest)
  {
    hide Apply, Enabled;
    assert ([a] + rest)[1..] == rest;
  }

  // ---- The service ----

  ghost predicate CanReach(s: State, t: State) { exists acts :: Legal(s, acts) && Exec(s, acts) == t }

  lemma CanReachSelf(s: State)
    ensures CanReach(s, s)
  {
    assert Legal(s, []) && Exec(s, []) == s;
  }

  lemma {:induction false} RunAppend(s: State, xs: seq<Act>, a: Act)
    requires Legal(s, xs) && Enabled(Exec(s, xs), a)
    ensures Legal(s, xs + [a]) && Exec(s, xs + [a]) == Apply(Exec(s, xs), a)
    decreases |xs|
  {
    hide Apply, Enabled;
    if xs == [] {
      assert [] + [a] == [a] + [];
      OneStep(s, a, []);
    } else {
      assert (xs + [a])[1..] == xs[1..] + [a];
      RunAppend(Apply(s, xs[0]), xs[1..], a);
    }
  }

  lemma OneMore(s: State, t: State, a: Act)
    requires CanReach(s, t) && Enabled(t, a)
    ensures CanReach(s, Apply(t, a))
  {
    hide Apply, Enabled, Legal, Exec;
    var xs :| Legal(s, xs) && Exec(s, xs) == t;
    RunAppend(s, xs, a);
  }

  datatype Error = NotFound | WriteFailed

  class JobsService {
    var jobs: map<nat, Job>
    var events: seq<Event>
    var artifacts: map<ArtifactKey, string>
    var pending: map<nat, Pending>
    var creators: map<nat, string>

    function World(): State
      reads this
    {
      State(jobs, events, artifacts, pending, creators)
    }

    constructor ()
      ensures World() == EMPTY
    {
      jobs, events, artifacts, pending, creators := map[], [], map[], map[], map[];
    }

    /** Lets other operations run between the gate and the write of operation `op`. */
    method Interleave(others: seq<Act>, op: nat, ghost start: State)
      requires op in pending && CanReach(start, World())
      modifies this
      ensures CanReach(start, World()) && op in pending && pending[op] == old(pending[op])
      ensures others == [] ==> World() == old(World())
    {
      hide CanReach, WithoutJob, Merge;
      for i := 0 to |others|
        invariant CanReach(start, World()) && op in pending && pending[op] == old(pending[op])
        invariant i == 0 ==> World() == old(World())
      {
        var a := others[i];
        if Enabled(World(), a) && !(a.Write? && a.op == op) && !(a.Throw? && a.op == op) {
          OneMore(start, World(), a);
          var t := Apply(World(), a);
          jobs, events, artifacts, pending, creators := t.jobs, t.events, t.artifacts, t.pending, t.creators;
        }
      }
    }

    /** `create`: the job and its first history entry in one statement. */
    method Create(id: nat, user: string, fields: Fields, stage: Stage) returns (job: Job)
      requires id !in creators
      modifies this
      ensures CanReach(old(World()), World())
      ensures jobs == old(jobs)[id := job] && job == Job(user, fields, stage)
      ensures events == old(events) + [Event(id, stage)]
      ensures artifacts == old(artifacts) && pending == old(pending)
    {
      hide CanReach;
      CanReachSelf(World());
      OneMore(World(), World(), Act.Create(id, user, fields, stage));
      job := Job(user, fields, stage);
      jobs, events, creators := jobs[id := job], events + [Event(id, stage)], creators[id := user];
    }

    /** `assertOwned`, the one gate: someone else's job is reported as not found. */
    method AssertOwned(user: string, id: nat) returns (r: Result<Job, Error>)
      ensures r == if Owned(World(), user, id) then Ok(jobs[id]) else Err(NotFound)
    {
      if id in jobs && jobs[id].user == user { return Ok(jobs[id]); }
      return Err(NotFound);
    }

    /** Passes the gate, then lets others run before the write. */
    method Enter(op: nat, user: string, id: nat, intent: Intent, others: seq<Act>, ghost start: State)
      requires CanReach(start, World()) && op !in pending && Owned(World(), user, id)
      requires !AlreadyThere(World(), id, intent)
      modifies this
      ensures CanReach(start, World()) && op in pending && pending[op] == Pending(user, id, intent)
      ensures others == [] ==> World() == old(World()).(pending := old(pending)[op := Pending(user, id, intent)])
    {
      hide CanReach;
      OneMore(start, World(), Gate(op, user, id, intent));
      pending := pending[op := Pending(user, id, intent)];
      Interleave(others, op, start);
    }

    /** `update`: the stage in the patch is dropped. */
    method Update(op: nat, user: string, id: nat, patch: Patch, others: seq<Act>) returns (r: Result<Job, Error>)
      requires op !in pending
      modifies this
      ensures CanReach(old(World()), World())
      ensures r == Err(NotFound) <==> !Owned(old(World()), user, id)
      ensures r == Err(NotFound) ==> World() == old(World())
      ensures r.Ok? ==> id in jobs && r.value == jobs[id]
      ensures r.Ok? && others == [] ==>
        jobs == old(jobs)[id := r.value] && events == old(events) && artifacts == old(artifacts)
      ensures r.Ok? && others == [] ==> IsUpdated(old(jobs)[id], patch, r.value)
      ensures others == [] && Owned(old(World()), user, id) ==> r.Ok?
    {
      hide CanReach, Merge, WithoutJob, IsUpdated;
      ghost var start := World();
      CanReachSelf(start);
      var current := AssertOwned(user, id);
      if current.Err? { return Err(NotFound); }
      Enter(op, user, id, Edit(patch), others, start);
      OneMore(start, World(), Write(op));
      pending := pending - {op};
      if id !in jobs { return Err(WriteFailed); }
      MergeUpdates(jobs[id], patch);
      jobs := jobs[id := jobs[id].(fields := Merge(jobs[id].fields, patch))];
      return Ok(jobs[id]);
    }

    /** `remove`: events and artifacts go with the job. */
    method Remove(op: nat, user: string, id: nat, others: seq<Act>) returns (r: Result<(), Error>)
      requires op !in pending
      modifies this
      ensures CanReach(old(World()), World())
      ensures r == Err(NotFound) <==> !Owned(old(World()), user, id)
      ensures r == Err(NotFound) ==> World() == old(World())
      ensures Owned(old(World()), user, id) ==> id !in jobs
      ensures r.Ok? && others == [] ==>
        jobs == old(jobs) - {id} && events == WithoutJob(old(events), id) &&
        artifacts == ArtifactsWithout(old(artifacts), id)
    {
      hide CanReach, Merge, WithoutJob;
      ghost var start := World();
      CanReachSelf(start);
      var current := AssertOwned(user, id);
      if current.Err? { return Err(NotFound); }
      Enter(op, user, id, Intent.Remove, others, start);
      OneMore(start, World(), Write(op));
      pending := pending - {op};
      if id !in jobs { return Err(WriteFailed); }
      jobs, events, artifacts := jobs - {id}, WithoutJob(events, id), ArtifactsWithout(artifacts, id);
      return Ok(());
    }

    /** `changeStage`: the row and its history entry in one transaction, unless the gate finds it there already. */
    method ChangeStage(op: nat, user: string, id: nat, stage: Stage, others: seq<Act>) returns (r: Result<Job, Error>)
      requires op !in pending
      modifies this
      ensures CanReach(old(World()), World())
      ensures r == Err(NotFound) <==> !Owned(old(World()), user, id)
      ensures r == Err(NotFound) || AlreadyThere(old(World()), id, Move(stage)) ==> World() == old(World())
      ensures r.Ok? ==> id in jobs && r.value == jobs[id] && r.value.stage == stage
      ensures r.Ok? && World() != old(World()) ==> events != [] && events[|events| - 1] == Event(id, stage)
      ensures r.Ok? && others == [] && !AlreadyThere(old(World()), id, Move(stage)) ==>
        jobs == old(jobs)[id := old(jobs)[id].(stage := stage)] && events == old(events) + [Event(id, stage)] &&
        artifacts == old(artifacts)
      ensures others == [] && Owned(old(World()), user, id) ==> r.Ok?
    {
      hide CanReach, Merge, WithoutJob;
      ghost var start := World();
      CanReachSelf(start);
      var current := AssertOwned(user, id);
      if current.Err? { return Err(NotFound); }
      if current.value.stage == stage { return current; }
      Enter(op, user, id, Move(stage), others, start);
      r := AppendAndMove(op, stage, start);
    }

    /** The transaction of `changeStage`: the history entry and the new stage, or neither. */
    method AppendAndMove(op: nat, stage: Stage, ghost start: State) returns (r: Result<Job, Error>)
      requires CanReach(start, World()) && op in pending && pending[op].intent == Move(stage)
      modifies this
      ensures CanReach(start, World()) && pending == old(pending) - {op} && artifacts == old(artifacts)
      ensures var id := old(pending)[op].id;
        if id in old(jobs) then
          r.Ok? && events == old(events) + [Event(id, stage)] &&
          jobs == old(jobs)[id := old(jobs)[id].(stage := stage)] && r.value == jobs[id]
        else r == Err(WriteFailed) && jobs == old(jobs) && events == old(events)
    {
      hide CanReach, Merge, WithoutJob;
      var id := pending[op].id;
      OneMore(start, World(), Write(op));
      pending := pending - {op};
      if id !in jobs { return Err(WriteFailed); }
      events := events + [Event(id, stage)];
      jobs := jobs[id := jobs[id].(stage := stage)];
      return Ok(jobs[id]);
    }

    /** `putArtifact`: replaces the current one of its kind. */
    method PutArtifact(op: nat, user: string, id: nat, kind: ArtifactType, content: string, others: seq<Act>)
      returns (r: Result<string, Error>)
      requires op !in pending
      modifies this
      ensures CanReach(old(World()), World())
      ensures r == Err(NotFound) <==> !Owned(old(World()), user, id)
      ensures r == Err(NotFound) ==> World() == old(World())
      ensures r.Ok? ==>
        r.value == content && id in jobs && ArtifactKey(id, kind) in artifacts &&
        artifacts[ArtifactKey(id, kind)] == content
      ensures r.Ok? && others == [] ==>
        jobs == old(jobs) && events == old(events) && artifacts == old(artifacts)[ArtifactKey(id, kind) := content]
    {
      hide CanReach, Merge, WithoutJob;
      ghost var start := World();
      CanReachSelf(start);
      var current := AssertOwned(user, id);
      if current.Err? { return Err(NotFound); }
      Enter(op, user, id, Put(kind, content), others, start);
      OneMore(start, World(), Write(op));
      pending := pending - {op};
      if id !in jobs { return Err(WriteFailed); }
      artifacts := artifacts[ArtifactKey(id, kind) := content];
      return Ok(content);
    }
  }
}
