/** The life of one generation task: created and queued by an HTTP request, processed by the worker
    in one or more attempts. Every database call, publish and model call is one step, so other
    requests may interleave anywhere; only one attempt holds the job at a time. */
module Tasks {
  import opened Wrappers
  import opened HttpClient
  import opened Generation

  /** AI_MAX_ATTEMPTS bounds both the queue's attempts and the worker's own count. */
  datatype Config = Config(maxAttempts: nat)

  datatype Kind = RESEARCH | INTERVIEW_PREP | RESUME_TAILOR

  /** Tailored resumes are posted, the two artifacts are put. */
  function DeliveryVerb(kind: Kind): Verb { if kind == RESUME_TAILOR then POST else PUT }

  datatype Status = QUEUED | RUNNING | SUCCEEDED | FAILED

  predicate IsTerminal(s: Status) { s in {SUCCEEDED, FAILED} }

  /** The row in `generation_tasks`. */
  datatype Row = Row(status: Status, result: Option<Generated>, error: Option<string>)

  /** What goes out on the task's channel. */
  datatype Event = Event(status: Status, result: Option<string>, error: Option<string>)

  /** The queue's view. `made` counts the attempts finished before this one. */
  datatype Job = Unqueued | Waiting(made: nat) | Active(made: nat) | Completed | GaveUp

  /** The creating request, between its steps. */
  datatype Creator =
    | Charging | Inserting | Enqueuing | Created
    | Compensating | Marking | Abandoned | Refused

  /** The attempt, between its steps. `Thrown` is an exception on its way to the queue. */
  datatype Pc =
    | Asleep
    | Loading
    | MarkingRunning(existing: Option<Generated>)
    | TellingRunning(existing: Option<Generated>)
    | Generating
    | Persisting(g: Generated)
    | Delivering(g: Generated)
    | Settling(g: Generated)
    | TellingSuccess(g: Generated)
    | Returned
    | Failing(message: string)
    | TellingFailure(message: string)
    | Refunding
    | Thrown(unrecoverable: bool)

  /** `delivered` lists what the owner carried out for this task, in order. The counters record
      history: model generations, refunds, attempts started, and attempts that failed although the
      owner had carried the delivery out. */
  datatype Task = Task(
    kind: Kind, creator: Creator, row: Option<Row>, job: Job, pc: Pc,
    channel: seq<Event>, delivered: seq<string>,
    generations: nat, refunds: nat, attempts: nat, late: nat)

  function NewTask(kind: Kind): Task {
    Task(kind, Charging, None, Unqueued, Asleep, [], [], 0, 0, 0, 0)
  }

  const COULD_NOT_QUEUE := "Could not queue this generation."

  /** `ok` is false when the call throws; then it did not take effect. Two calls may take effect and
      still throw: `Enqueue` (`stored`), and a delivery (inside its replies). */
  datatype Act =
    | Charge(admitted: bool)
    | Insert(ok: bool)
    | Enqueue(ok: bool, stored: bool)
    | Compensate(ok: bool)
    | MarkUnqueued(ok: bool)
    | Pickup
    | Load(ok: bool)
    | MarkRunning(ok: bool)
    | TellRunning(ok: bool)
    | Generate(outcome: Result<Generated, Failure>)
    | Persist(ok: bool)
    | Deliver(replies: seq<Reply>)
    | MarkSucceeded(ok: bool)
    | TellSucceeded(ok: bool)
    | Complete
    | MarkFailed(ok: bool)
    | TellFailed(ok: bool)
    | Refund(ok: bool)
    | Requeue
    | Crash(requeued: bool)

  predicate RepliesOk(kind: Kind, replies: seq<Reply>) {
    |replies| >= MaxAttempts(DeliveryVerb(kind), None) &&
    forall i :: 0 <= i < |replies| && IsOk(replies[i]) ==> replies[i].committed
  }

  predicate Enabled(t: Task, a: Act) {
    match a
    case Charge(_) => t.creator == Charging
    case Insert(_) => t.creator == Inserting
    case Enqueue(ok, stored) => t.creator == Enqueuing && (ok ==> stored)
    case Compensate(_) => t.creator == Compensating
    case MarkUnqueued(_) => t.creator == Marking && t.row.Some?
    case Pickup => t.job.Waiting? && t.pc == Asleep
    case Load(_) => t.pc == Loading
    case MarkRunning(_) => t.pc.MarkingRunning? && t.row.Some?
    case TellRunning(_) => t.pc.TellingRunning?
    case Generate(_) => t.pc == Generating && t.job.Active?
    case Persist(_) => t.pc.Persisting? && t.row.Some? && t.job.Active?
    case Deliver(replies) => t.pc.Delivering? && t.job.Active? && RepliesOk(t.kind, replies)
    case MarkSucceeded(_) => t.pc.Settling? && t.row.Some? && t.job.Active?
    case TellSucceeded(_) => t.pc.TellingSuccess? && t.job.Active?
    case Complete => t.pc == Returned
    case MarkFailed(_) => t.pc.Failing? && t.row.Some?
    case TellFailed(_) => t.pc.TellingFailure?
    case Refund(_) => t.pc == Refunding
    case Requeue => t.pc.Thrown? && t.job.Active?
    case Crash(_) => t.pc != Asleep && t.job.Active?
  }

  /** The worker's catch block: rethrow for another attempt, or settle the failure. */
  function Caught(c: Config, made: nat, f: Failure): Pc {
    var d := DescribeFailure(f);
    var attemptsLeft := c.maxAttempts - (made + 1);
    if d.retryable && attemptsLeft > 0 then Thrown(false) else Failing(d.message)
  }

  function Repeat(text: string, n: nat): seq<string> { if n == 0 then [] else Repeat(text, n - 1) + [text] }

  /** One delivery request: every fetch the owner carried out counts. */
  function AfterDelivery(c: Config, t: Task, replies: seq<Reply>): Task
    requires t.pc.Delivering? && t.job.Active? && RepliesOk(t.kind, replies)
  {
    var n := Fetches(DeliveryVerb(t.kind), replies);
    var commits := Committed(replies, n);
    var delivered := t.delivered + Repeat(t.pc.g.text, commits);
    match Verdict(replies[n - 1])
    case Ok(_) => t.(delivered := delivered, pc := Settling(t.pc.g))
    case Err(e) =>
      t.(delivered := delivered, pc := Caught(c, t.job.made, Delivery(e)),
         late := t.late + (if commits > 0 then 1 else 0))
  }

  function ApplyCreator(t: Task, a: Act): Task
    requires Enabled(t, a) && (a.Charge? || a.Insert? || a.Enqueue? || a.Compensate? || a.MarkUnqueued?)
  {
    match a
    case Charge(admitted) => t.(creator := if admitted then Inserting else Refused)
    case Insert(ok) =>
      if ok then t.(creator := Enqueuing, row := Some(Row(QUEUED, None, None))) else t.(creator := Compensating)
    case Enqueue(ok, stored) =>
      t.(creator := if ok then Created else Compensating, job := if stored then Waiting(0) else t.job)
    case Compensate(ok) =>
      t.(creator := if t.row.Some? then Marking else Abandoned, refunds := t.refunds + (if ok then 1 else 0))
    case MarkUnqueued(ok) =>
      t.(creator := Abandoned,
         row := if ok then Some(t.row.value.(status := FAILED, error := Some(COULD_NOT_QUEUE))) else t.row)
  }

  function ApplyWorker(c: Config, t: Task, a: Act): Task
    requires Enabled(t, a) && !(a.Charge? || a.Insert? || a.Enqueue? || a.Compensate? || a.MarkUnqueued?)
  {
    match a
    case Pickup => t.(job := Active(t.job.made), pc := Loading, attempts := t.attempts + 1)
    case Load(ok) =>
      t.(pc := if !ok then Thrown(false) else if t.row.Some? then MarkingRunning(t.row.value.result) else Thrown(true))
    case MarkRunning(ok) =>
      if ok then t.(row := Some(t.row.value.(status := RUNNING, error := None)), pc := TellingRunning(t.pc.existing))
      else t.(pc := Thrown(false))
    case TellRunning(ok) =>
      if !ok then t.(pc := Thrown(false))
      else t.(channel := t.channel + [Event(RUNNING, None, None)],
              pc := if t.pc.existing.Some? then Delivering(t.pc.existing.value) else Generating)
    case Generate(outcome) =>
      t.(generations := t.generations + 1,
         pc := match outcome case Ok(g) => Persisting(g) case Err(f) => Caught(c, t.job.made, f))
    case Persist(ok) =>
      if ok then t.(row := Some(t.row.value.(result := Some(t.pc.g))), pc := Delivering(t.pc.g))
      else t.(pc := Caught(c, t.job.made, Unexpected))
    case Deliver(replies) => AfterDelivery(c, t, replies)
    case MarkSucceeded(ok) =>
      if ok then t.(row := Some(t.row.value.(status := SUCCEEDED, error := None)), pc := TellingSuccess(t.pc.g))
      else t.(pc := Caught(c, t.job.made, Unexpected), late := t.late + 1)
    case TellSucceeded(ok) =>
      if ok then t.(channel := t.channel + [Event(SUCCEEDED, Some(t.pc.g.text), None)], pc := Returned)
      else t.(pc := Caught(c, t.job.made, Unexpected), late := t.late + 1)
    case Complete => t.(job := Completed, pc := Asleep)
    case MarkFailed(ok) =>
      if ok then t.(row := Some(t.row.value.(status := FAILED, error := Some(t.pc.message))),
                    pc := TellingFailure(t.pc.message))
      else t.(pc := Thrown(false))
    case TellFailed(ok) =>
      if ok then t.(channel := t.channel + [Event(FAILED, None, Some(t.pc.message))], pc := Refunding)
      else t.(pc := Thrown(false))
    case Refund(ok) => t.(refunds := t.refunds + (if ok then 1 else 0), pc := Thrown(true))
    case Requeue =>
      t.(pc := Asleep,
         job := if !t.pc.unrecoverable && t.job.made + 1 < c.maxAttempts then Waiting(t.job.made + 1) else GaveUp)
    case Crash(requeued) => t.(pc := Asleep, job := if requeued then Waiting(t.job.made) else GaveUp)
  }

  function Apply(c: Config, t: Task, a: Act): Task
    requires Enabled(t, a)
  {
    if a.Charge? || a.Insert? || a.Enqueue? || a.Compensate? || a.MarkUnqueued? then ApplyCreator(t, a)
    else ApplyWorker(c, t, a)
  }

  predicate Legal(c: Config, t: Task, acts: seq<Act>)
    decreases |acts|
  {
    acts == [] || (Enabled(t, acts[0]) && Legal(c, Apply(c, t, acts[0]), acts[1..]))
  }

  function Exec(c: Config, t: Task, acts: seq<Act>): Task
    requires Legal(c, t, acts)
    decreases |acts|
  {
    if acts == [] then t else Exec(c, Apply(c, t, acts[0]), acts[1..])
  }

  lemma {:induction false} ExecAppend(c: Config, t: Task, xs: seq<Act>, ys: seq<Act>)
    requires Legal(c, t, xs) && Legal(c, Exec(c, t, xs), ys)
    ensures Legal(c, t, xs + ys) && Exec(c, t, xs + ys) == Exec(c, Exec(c, t, xs), ys)
    decreases |xs|
  {
    if xs == [] {
      assert xs + ys == ys;
    } else {
      assert (xs + ys)[1..] == xs[1..] + ys;
      ExecAppend(c, Apply(c, t, xs[0]), xs[1..], ys);
    }
  }

  // ======== Whatever fails or crashes ========

  ghost predicate StoredIs(t: Task, g: Option<Generated>) { t.row.Some? && t.row.value.result == g }

  ghost predicate PcAgreesWithRow(t: Task) {
    match t.pc
    case MarkingRunning(e) => StoredIs(t, e)
    case TellingRunning(e) => StoredIs(t, e)
    case Generating => StoredIs(t, None)
    case Persisting(_) => StoredIs(t, None)
    case Delivering(g) => StoredIs(t, Some(g))
    case Settling(g) => StoredIs(t, Some(g)) && g.text in t.delivered
    case TellingSuccess(g) => StoredIs(t, Some(g)) && g.text in t.delivered
    case _ => true
  }

  /** A success that anyone can see has been carried out by the owner, with that very text. */
  ghost predicate SuccessIsDelivered(t: Task) {
    (t.row.Some? && t.row.value.status == SUCCEEDED ==>
      t.row.value.result.Some? && t.row.value.result.value.text in t.delivered) &&
    forall i :: 0 <= i < |t.channel| && t.channel[i].status == SUCCEEDED ==>
      t.row.Some? && t.row.value.result.Some? && t.row.value.result.value.text in t.delivered &&
      t.channel[i].result == Some(t.row.value.result.value.text)
  }

  /** Whatever the owner carried out is the stored result. */
  ghost predicate OnlyTheResultIsDelivered(t: Task) {
    t.delivered != [] ==>
      t.row.Some? && t.row.value.result.Some? &&
      forall i :: 0 <= i < |t.delivered| ==> t.delivered[i] == t.row.value.result.value.text
  }

  ghost predicate AnyInv(t: Task) {
    PcAgreesWithRow(t) && SuccessIsDelivered(t) && OnlyTheResultIsDelivered(t) &&
    (t.creator in {Charging, Inserting, Refused} ==> t.row.None? && t.job.Unqueued?) &&
    (t.creator == Enqueuing ==> StoredIs(t, None) && t.job.Unqueued?) &&
    (t.job.Unqueued? ==> t.pc == Asleep) && (!t.job.Unqueued? ==> t.row.Some?) &&
    (t.pc == Asleep <==> !t.job.Active?) &&
    (t.job.Unqueued? && t.row.Some? ==> t.row.value.result.None?)
  }

  lemma {:induction false} RepeatHolds(text: string, n: nat)
    ensures |Repeat(text, n)| == n && forall i :: 0 <= i < n ==> Repeat(text, n)[i] == text
  {
    if n > 0 { RepeatHolds(text, n - 1); }
  }

  lemma DeliverStep(c: Config, t: Task, replies: seq<Reply>)
    requires Enabled(t, Deliver(replies))
    ensures Apply(c, t, Deliver(replies)) == AfterDelivery(c, t, replies)
  {
    hide AfterDelivery, ApplyCreator, RepliesOk;
  }

  /** What a delivery does to the task, whatever the owner answers. */
  lemma DeliverEffect(c: Config, t: Task, replies: seq<Reply>)
    requires Enabled(t, Deliver(replies))
    ensures var u, g := Apply(c, t, Deliver(replies)), t.pc.g;
      t.delivered <= u.delivered && t.late <= u.late <= t.late + 1 &&
      (forall i :: |t.delivered| <= i < |u.delivered| ==> u.delivered[i] == g.text) &&
      ((u.pc == Settling(g) && u.late == t.late && |u.delivered| > |t.delivered|) ||
       ((exists e :: u.pc == Caught(c, t.job.made, Delivery(e))) &&
        (u.late == t.late <==> u.delivered == t.delivered))) &&
      |u.delivered| <= |t.delivered| + 3 && (t.kind == RESUME_TAILOR ==> |u.delivered| <= |t.delivered| + 1) &&
      u == t.(delivered := u.delivered, late := u.late, pc := u.pc)
  {
    hide Apply, Caught;
    DeliverStep(c, t, replies);
    var v := DeliveryVerb(t.kind);
    DecidingIsFirst(replies, 0, MaxAttempts(v, None));
    var n := Fetches(v, replies);
    RequestCommits(v, replies);
    RepeatHolds(t.pc.g.text, Committed(replies, n));
  }

  /** What no step undoes. */
  ghost predicate Keeps(t: Task, u: Task) {
    t.delivered <= u.delivered && t.channel <= u.channel && (t.row.Some? ==> u.row.Some?) && t.kind == u.kind &&
    (t.row.Some? && t.row.value.result.Some? ==>
       u.row.value.result == t.row.value.result && u.generations == t.generations)
  }

  lemma AnyDeliverStep(c: Config, t: Task, replies: seq<Reply>)
    requires AnyInv(t) && Enabled(t, Deliver(replies))
    ensures AnyInv(Apply(c, t, Deliver(replies))) && Keeps(t, Apply(c, t, Deliver(replies)))
  {
    DeliverEffect(c, t, replies);
    AnyAfterDelivery(c, t, Apply(c, t, Deliver(replies)));
  }

  lemma AnyAfterDelivery(c: Config, t: Task, u: Task)
    requires AnyInv(t) && t.pc.Delivering? && t.job.Active? && t.delivered <= u.delivered
    requires u == t.(delivered := u.delivered, late := u.late, pc := u.pc)
    requires forall i :: |t.delivered| <= i < |u.delivered| ==> u.delivered[i] == t.pc.g.text
    requires (u.pc == Settling(t.pc.g) && |u.delivered| > |t.delivered|) ||
             exists e :: u.pc == Caught(c, t.job.made, Delivery(e))
    ensures AnyInv(u) && Keeps(t, u)
  {
    forall i | 0 <= i < |u.delivered| ensures u.delivered[i] == t.pc.g.text {
      if i < |t.delivered| { assert u.delivered[i] == t.delivered[i]; }
    }
    if |u.delivered| > |t.delivered| { assert u.delivered[|u.delivered| - 1] == t.pc.g.text; }
  }

  lemma AnyCreatorStep(c: Config, t: Task, a: Act)
    requires AnyInv(t) && Enabled(t, a) && (a.Charge? || a.Insert? || a.Enqueue? || a.Compensate? || a.MarkUnqueued?)
    ensures AnyInv(Apply(c, t, a)) && Keeps(t, Apply(c, t, a))
  {}

  lemma AnyAttemptStep(c: Config, t: Task, a: Act)
    requires AnyInv(t) && Enabled(t, a)
    requires a.Pickup? || a.Load? || a.MarkRunning? || a.TellRunning? || a.Generate? || a.Persist?
    ensures AnyInv(Apply(c, t, a)) && Keeps(t, Apply(c, t, a))
  {}

  lemma AnySettleStep(c: Config, t: Task, a: Act)
    requires AnyInv(t) && Enabled(t, a)
    requires a.MarkSucceeded? || a.TellSucceeded? || a.Complete? || a.MarkFailed? || a.TellFailed? || a.Refund? ||
             a.Requeue? || a.Crash?
    ensures AnyInv(Apply(c, t, a)) && Keeps(t, Apply(c, t, a))
  {}

  lemma AnyStep(c: Config, t: Task, a: Act)
    requires AnyInv(t) && Enabled(t, a)
    ensures AnyInv(Apply(c, t, a)) && Keeps(t, Apply(c, t, a))
  {
    hide AnyInv, Keeps, Apply;
    if a.Charge? || a.Insert? || a.Enqueue? || a.Compensate? || a.MarkUnqueued? {
      AnyCreatorStep(c, t, a);
    } else if a.Pickup? || a.Load? || a.MarkRunning? || a.TellRunning? || a.Generate? || a.Persist? {
      AnyAttemptStep(c, t, a);
    } else if a.Deliver? {
      AnyDeliverStep(c, t, a.replies);
    } else {
      AnySettleStep(c, t, a);
    }
  }

  /** A stored result is never replaced, and the model is never called again for it: in every run,
      including runs with crashes and failing calls at any point. */
  lemma {:induction false} ResultIsWriteOnce(c: Config, t: Task, acts: seq<Act>)
    requires AnyInv(t) && Legal(c, t, acts)
    ensures AnyInv(Exec(c, t, acts)) && t.delivered <= Exec(c, t, acts).delivered
    ensures t.row.Some? ==> Exec(c, t, acts).row.Some?
    ensures t.row.Some? && t.row.value.result.Some? ==>
      Exec(c, t, acts).row.value.result == t.row.value.result && Exec(c, t, acts).generations == t.generations
    decreases |acts|
  {
    hide Apply, AnyInv;
    if acts != [] {
      AnyStep(c, t, acts[0]);
      ResultIsWriteOnce(c, Apply(c, t, acts[0]), acts[1..]);
    }
  }

  /** Delivery before success, in every reachable state of every run: a SUCCEEDED row, and every
      SUCCEEDED event ever published, carries a text that the owner has already carried out. */
  lemma DeliveredBeforeSuccess(c: Config, kind: Kind, acts: seq<Act>)
    requires Legal(c, NewTask(kind), acts)
    ensures SuccessIsDelivered(Exec(c, NewTask(kind), acts))
  {
    ResultIsWriteOnce(c, NewTask(kind), acts);
  }

  // ======== Without crashes, and with status updates and publishes that succeed ========

  /** Reading the row, the RUNNING and FAILED updates and the publishes succeed. Generation, delivery,
      storing the result, the SUCCEEDED update, creating the row, queueing and refunding may still fail,
      as long as a call that throws did not take effect. */
  predicate Quiet(a: Act) {
    match a
    case Crash(_) => false
    case Enqueue(ok, stored) => ok == stored
    case Load(ok) => ok
    case MarkRunning(ok) => ok
    case TellRunning(ok) => ok
    case TellSucceeded(ok) => ok
    case MarkFailed(ok) => ok
    case TellFailed(ok) => ok
    case _ => true
  }

  ghost predicate AllQuiet(acts: seq<Act>) { forall i :: 0 <= i < |acts| ==> Quiet(acts[i]) }

  /** No terminal event so far, and nothing but RUNNING. */
  ghost predicate OnlyRunning(channel: seq<Event>) {
    forall i :: 0 <= i < |channel| ==> channel[i] == Event(RUNNING, None, None)
  }

  /** What the worker tells when it settles the row. */
  function FinalEvent(row: Row): Event {
    if row.status != SUCCEEDED then Event(FAILED, None, row.error)
    else Event(SUCCEEDED, match row.result case Some(g) => Some(g.text) case None => None, None)
  }

  /** Exactly one terminal event, the last, telling what the row says. */
  ghost predicate EndsWith(channel: seq<Event>, row: Row) {
    channel != [] && OnlyRunning(channel[..|channel| - 1]) && IsTerminal(row.status) &&
    channel[|channel| - 1] == FinalEvent(row)
  }

  /** The task is still on its way: nobody has been told an end, and nothing was given back. */
  ghost predicate Underway(t: Task, status: Status) {
    t.creator == Created && t.row.Some? && t.row.value.status == status && OnlyRunning(t.channel) && t.refunds == 0
  }

  /** The task has ended: one terminal event, agreeing with the row. */
  ghost predicate Told(t: Task, status: Status) {
    t.creator == Created && t.row.Some? && t.row.value.status == status && EndsWith(t.channel, t.row.value) &&
    t.refunds <= 1 &&
    (status == SUCCEEDED ==> t.refunds == 0 && t.row.value.error == None && t.row.value.result.Some?) &&
    (status == FAILED ==> t.row.value.error.Some?)
  }

  /** No attempt has got as far as announcing itself, or an earlier one has. */
  ghost predicate Waits(t: Task) { Underway(t, QUEUED) || Underway(t, RUNNING) }

  /** Before it is queued, a task has no worker, no events, and is refunded only when abandoned. */
  ghost predicate Before(t: Task) {
    t.pc == Asleep && t.channel == [] && t.delivered == [] && t.attempts == 0 && t.late == 0 && t.generations == 0 &&
    (match t.creator
     case Charging => t.row.None? && t.refunds == 0
     case Inserting => t.row.None? && t.refunds == 0
     case Refused => t.row.None? && t.refunds == 0
     case Enqueuing => t.row == Some(Row(QUEUED, None, None)) && t.refunds == 0
     case Created => false
     case Compensating => (t.row.Some? ==> t.row == Some(Row(QUEUED, None, None))) && t.refunds == 0
     case Marking => t.row == Some(Row(QUEUED, None, None)) && t.refunds <= 1
     case Abandoned => (t.row.Some? ==> t.row.value.status in {QUEUED, FAILED}) && t.refunds <= 1)
  }

  ghost predicate DuringAttempt(c: Config, t: Task, made: nat) {
    match t.pc
    case Asleep => false
    case Loading => Waits(t)
    case MarkingRunning(_) => Waits(t)
    case TellingRunning(_) => Underway(t, RUNNING)
    case Generating => Underway(t, RUNNING)
    case Persisting(_) => Underway(t, RUNNING)
    case Delivering(_) => Underway(t, RUNNING)
    case Settling(_) => Underway(t, RUNNING)
    case TellingSuccess(g) => Underway(t, SUCCEEDED) && t.row.value == Row(SUCCEEDED, Some(g), None)
    case Returned => Told(t, SUCCEEDED)
    case Failing(_) => Underway(t, RUNNING)
    case TellingFailure(message) => Underway(t, FAILED) && t.row.value.error == Some(message)
    case Refunding => Told(t, FAILED) && t.refunds == 0
    case Thrown(unrecoverable) =>
      if unrecoverable then Told(t, FAILED) else Waits(t) && made + 1 < c.maxAttempts
  }

  /** The owner has carried the current attempt's delivery out and nothing has failed since. */
  predicate DeliveredNow(t: Task) {
    t.pc.Settling? || t.pc.TellingSuccess? || t.pc == Returned || t.job == Completed
  }

  /** Attempts that are over or have failed. */
  function Spent(t: Task): nat {
    match t.job
    case Unqueued => 0
    case Waiting(made) => made
    case Active(made) =>
      if t.pc.Failing? || t.pc.TellingFailure? || t.pc == Refunding || t.pc.Thrown? then made + 1 else made
    case Completed => t.attempts - (if t.attempts > 0 then 1 else 0)
    case GaveUp => t.attempts
  }

  ghost predicate QuietInv(c: Config, t: Task) {
    AnyInv(t) &&
    (match t.job
     case Unqueued => Before(t)
     case Waiting(made) => made < c.maxAttempts && t.attempts == made && Waits(t)
     case Active(made) => made < c.maxAttempts && t.attempts == made + 1 && DuringAttempt(c, t, made)
     case Completed => Told(t, SUCCEEDED) && 1 <= t.attempts <= c.maxAttempts
     case GaveUp => Told(t, FAILED) && 1 <= t.attempts <= c.maxAttempts) &&
    t.late <= Spent(t) &&
    (t.kind == RESUME_TAILOR ==> |t.delivered| == t.late + (if DeliveredNow(t) then 1 else 0))
  }

  lemma QuietCreatorStep(c: Config, t: Task, a: Act)
    requires c.maxAttempts >= 1 && QuietInv(c, t) && Enabled(t, a) && Quiet(a)
    requires a.Charge? || a.Insert? || a.Enqueue? || a.Compensate? || a.MarkUnqueued?
    ensures QuietInv(c, Apply(c, t, a)) && Apply(c, t, a).kind == t.kind
  {
    hide PcAgreesWithRow, SuccessIsDelivered, OnlyTheResultIsDelivered;
    AnyStep(c, t, a);
  }

  lemma QuietAttemptStep(c: Config, t: Task, a: Act)
    requires c.maxAttempts >= 1 && QuietInv(c, t) && Enabled(t, a) && Quiet(a)
    requires a.Pickup? || a.Load? || a.MarkRunning? || a.TellRunning? || a.Generate? || a.Persist?
    ensures QuietInv(c, Apply(c, t, a)) && Apply(c, t, a).kind == t.kind
  {
    hide PcAgreesWithRow, SuccessIsDelivered, OnlyTheResultIsDelivered;
    AnyStep(c, t, a);
  }

  lemma QuietDeliverStep(c: Config, t: Task, a: Act)
    requires c.maxAttempts >= 1 && QuietInv(c, t) && Enabled(t, a) && a.Deliver?
    ensures QuietInv(c, Apply(c, t, a)) && Apply(c, t, a).kind == t.kind
  {
    AnyStep(c, t, a);
    DeliverEffect(c, t, a.replies);
    QuietAfterDelivery(c, t, Apply(c, t, a), a.replies);
  }

  lemma QuietAfterDelivery(c: Config, t: Task, u: Task, replies: seq<Reply>)
    requires c.maxAttempts >= 1 && QuietInv(c, t) && t.pc.Delivering? && t.job.Active? && AnyInv(u)
    requires u == t.(delivered := u.delivered, late := u.late, pc := u.pc)
    requires (u.pc == Settling(t.pc.g) && u.late == t.late && |u.delivered| > |t.delivered|) ||
             ((exists e :: u.pc == Caught(c, t.job.made, Delivery(e))) && t.late <= u.late <= t.late + 1 &&
              (u.late == t.late <==> u.delivered == t.delivered))
    requires t.delivered <= u.delivered && (t.kind == RESUME_TAILOR ==> |u.delivered| <= |t.delivered| + 1)
    ensures QuietInv(c, u)
  {
    hide SuccessIsDelivered, OnlyTheResultIsDelivered;
  }

  lemma QuietTellSuccess(c: Config, t: Task)
    requires c.maxAttempts >= 1 && QuietInv(c, t) && Enabled(t, TellSucceeded(true))
    ensures QuietInv(c, Apply(c, t, TellSucceeded(true))) && Apply(c, t, TellSucceeded(true)).kind == t.kind
  {
    hide PcAgreesWithRow, SuccessIsDelivered, OnlyTheResultIsDelivered;
    AnyStep(c, t, TellSucceeded(true));
    assert (t.channel + [Event(SUCCEEDED, Some(t.pc.g.text), None)])[..|t.channel|] == t.channel;
  }

  lemma QuietTellFailure(c: Config, t: Task)
    requires c.maxAttempts >= 1 && QuietInv(c, t) && Enabled(t, TellFailed(true))
    ensures QuietInv(c, Apply(c, t, TellFailed(true))) && Apply(c, t, TellFailed(true)).kind == t.kind
  {
    hide PcAgreesWithRow, SuccessIsDelivered, OnlyTheResultIsDelivered;
    AnyStep(c, t, TellFailed(true));
    assert (t.channel + [Event(FAILED, None, Some(t.pc.message))])[..|t.channel|] == t.channel;
  }

  lemma QuietSettleStep(c: Config, t: Task, a: Act)
    requires c.maxAttempts >= 1 && QuietInv(c, t) && Enabled(t, a) && Quiet(a)
    requires a.MarkSucceeded? || a.Complete? || a.MarkFailed? || a.Refund? || a.Requeue?
    ensures QuietInv(c, Apply(c, t, a)) && Apply(c, t, a).kind == t.kind
  {
    hide SuccessIsDelivered, OnlyTheResultIsDelivered;
    AnyStep(c, t, a);
  }

  lemma QuietStep(c: Config, t: Task, a: Act)
    requires c.maxAttempts >= 1 && QuietInv(c, t) && Enabled(t, a) && Quiet(a)
    ensures QuietInv(c, Apply(c, t, a)) && Apply(c, t, a).kind == t.kind
  {
    hide Apply, QuietInv;
    if a.Charge? || a.Insert? || a.Enqueue? || a.Compensate? || a.MarkUnqueued? {
      QuietCreatorStep(c, t, a);
    } else if a.Pickup? || a.Load? || a.MarkRunning? || a.TellRunning? || a.Generate? || a.Persist? {
      QuietAttemptStep(c, t, a);
    } else if a.Deliver? {
      QuietDeliverStep(c, t, a);
    } else if a.TellSucceeded? {
      QuietTellSuccess(c, t);
    } else if a.TellFailed? {
      QuietTellFailure(c, t);
    } else {
      QuietSettleStep(c, t, a);
    }
  }

  lemma NewIsQuiet(c: Config, kind: Kind)
    ensures QuietInv(c, NewTask(kind))
  {}

  lemma {:induction false} QuietRun(c: Config, t: Task, acts: seq<Act>)
    requires c.maxAttempts >= 1 && QuietInv(c, t) && Legal(c, t, acts) && AllQuiet(acts)
    ensures QuietInv(c, Exec(c, t, acts)) && Exec(c, t, acts).kind == t.kind
    decreases |acts|
  {
    hide Apply, QuietInv;
    if acts != [] {
      QuietStep(c, t, acts[0]);
      QuietRun(c, Apply(c, t, acts[0]), acts[1..]);
    }
  }

  // ---- Terminal states are absorbing ----

  ghost predicate Ended(t: Task) { t.row.Some? && IsTerminal(t.row.value.status) }

  /** No step leaves a terminal status, rewrites its result or error, or takes back an event. */
  lemma TerminalIsAbsorbing(c: Config, t: Task, a: Act)
    requires c.maxAttempts >= 1 && QuietInv(c, t) && Enabled(t, a) && Quiet(a) && Ended(t)
    ensures Apply(c, t, a).row == t.row
    ensures EndsWith(t.channel, t.row.value) ==> Apply(c, t, a).channel == t.channel
  {}

  lemma {:induction false} TerminalStays(c: Config, t: Task, acts: seq<Act>)
    requires c.maxAttempts >= 1 && QuietInv(c, t) && Legal(c, t, acts) && AllQuiet(acts) && Ended(t)
    ensures Exec(c, t, acts).row == t.row
    decreases |acts|
  {
    hide Apply, QuietInv;
    if acts != [] {
      TerminalIsAbsorbing(c, t, acts[0]);
      QuietStep(c, t, acts[0]);
      TerminalStays(c, Apply(c, t, acts[0]), acts[1..]);
    }
  }

  /** The queue and the worker agree: the queue never gives up on a row still RUNNING, never holds a
      settled one for another attempt, and never starts more than AI_MAX_ATTEMPTS attempts; a task
      is refunded at most once, and only with its row FAILED or its creation abandoned. */
  lemma QueueAgreesWithRow(c: Config, kind: Kind, acts: seq<Act>)
    requires c.maxAttempts >= 1 && Legal(c, NewTask(kind), acts) && AllQuiet(acts)
    ensures var t := Exec(c, NewTask(kind), acts);
      (t.job == GaveUp ==> Ended(t) && t.row.value.status == FAILED && EndsWith(t.channel, t.row.value)) &&
      (t.job == Completed ==> Ended(t) && t.row.value.status == SUCCEEDED && EndsWith(t.channel, t.row.value)) &&
      (t.job.Waiting? ==> !Ended(t)) && t.attempts <= c.maxAttempts &&
      t.refunds <= 1 &&
      (t.refunds == 1 ==> (t.row.Some? && t.row.value.status == FAILED) || t.creator in {Marking, Abandoned})
  {
    hide Apply, AnyInv;
    NewIsQuiet(c, kind);
    QuietRun(c, NewTask(kind), acts);
  }

  // ---- Termination ----

  predicate Settled(t: Task) { t.creator in {Created, Abandoned, Refused} && t.job in {Unqueued, Completed, GaveUp} }

  function Left(pc: Pc): nat {
    match pc
    case Asleep => 0
    case Loading => 15
    case MarkingRunning(_) => 14
    case TellingRunning(_) => 13
    case Generating => 12
    case Persisting(_) => 11
    case Delivering(_) => 10
    case Settling(_) => 9
    case TellingSuccess(_) => 8
    case Returned => 7
    case Failing(_) => 6
    case TellingFailure(_) => 5
    case Refunding => 4
    case Thrown(_) => 3
  }

  /** A bound on the steps the task can still take. */
  function Fuel(c: Config, t: Task): int {
    match t.job
    case Unqueued =>
      (match t.creator
       case Charging => 5
       case Inserting => 4
       case Enqueuing => 3
       case Compensating => 2
       case Marking => 1
       case _ => 0) + (if t.creator in {Charging, Inserting, Enqueuing} then 20 * c.maxAttempts else 0)
    case Waiting(made) => 20 * (c.maxAttempts - made)
    case Active(made) => 20 * (c.maxAttempts - made - 1) + Left(t.pc)
    case Completed => 0
    case GaveUp => 0
  }

  lemma FuelIsNat(c: Config, t: Task)
    requires QuietInv(c, t)
    ensures Fuel(c, t) >= 0
  {}

  predicate PcMatchesJob(t: Task) { (t.pc == Asleep <==> !t.job.Active?) && (t.job.Unqueued? || t.creator == Created) }

  lemma PcFromInv(c: Config, t: Task)
    requires QuietInv(c, t)
    ensures PcMatchesJob(t)
  {}

  lemma CreatorFuelDrops(c: Config, t: Task, a: Act)
    requires PcMatchesJob(t) && Enabled(t, a) && Quiet(a)
    requires a.Charge? || a.Insert? || a.Enqueue? || a.Compensate? || a.MarkUnqueued?
    ensures Fuel(c, Apply(c, t, a)) < Fuel(c, t)
  {}

  lemma AttemptFuelDrops(c: Config, t: Task, a: Act)
    requires PcMatchesJob(t) && Enabled(t, a) && Quiet(a)
    requires a.Pickup? || a.Load? || a.MarkRunning? || a.TellRunning? || a.Generate? || a.Persist? || a.Deliver?
    ensures Fuel(c, Apply(c, t, a)) < Fuel(c, t)
  {
    hide ApplyCreator, DescribeFailure, Committed, Verdict, Fetches, Repeat;
  }

  lemma SettleFuelDrops(c: Config, t: Task, a: Act)
    requires PcMatchesJob(t) && Enabled(t, a) && Quiet(a) && (t.job.Active? ==> t.job.made < c.maxAttempts)
    requires a.MarkSucceeded? || a.TellSucceeded? || a.Complete? || a.MarkFailed? || a.TellFailed? || a.Refund? ||
             a.Requeue?
    ensures Fuel(c, Apply(c, t, a)) < Fuel(c, t)
  {
    hide ApplyCreator, DescribeFailure;
  }

  lemma FuelDrops(c: Config, t: Task, a: Act)
    requires QuietInv(c, t) && Enabled(t, a) && Quiet(a)
    ensures Fuel(c, Apply(c, t, a)) < Fuel(c, t)
  {
    hide Apply, Fuel;
    PcFromInv(c, t);
    if a.Charge? || a.Insert? || a.Enqueue? || a.Compensate? || a.MarkUnqueued? {
      CreatorFuelDrops(c, t, a);
    } else if a.Pickup? || a.Load? || a.MarkRunning? || a.TellRunning? || a.Generate? || a.Persist? || a.Deliver? {
      AttemptFuelDrops(c, t, a);
    } else {
      SettleFuelDrops(c, t, a);
    }
  }

  /** Some step is possible until the task has settled. */
  lemma NeverStuck(c: Config, t: Task) returns (a: Act)
    requires c.maxAttempts >= 1 && QuietInv(c, t) && !Settled(t)
    ensures Enabled(t, a) && Quiet(a)
  {
    match t.job
    case Unqueued =>
      a := match t.creator
        case Charging => Charge(true)
        case Inserting => Insert(true)
        case Enqueuing => Enqueue(true, true)
        case Compensating => Compensate(true)
        case _ => MarkUnqueued(true);
    case Waiting(_) => a := Pickup;
    case Active(_) =>
      a := match t.pc
        case Loading => Load(true)
        case MarkingRunning(_) => MarkRunning(true)
        case TellingRunning(_) => TellRunning(true)
        case Generating => Generate(Err(Unexpected))
        case Persisting(_) => Persist(true)
        case Delivering(_) => Deliver([Lost(false), Lost(false), Lost(false)])
        case Settling(_) => MarkSucceeded(true)
        case TellingSuccess(_) => TellSucceeded(true)
        case Returned => Complete
        case Failing(_) => MarkFailed(true)
        case TellingFailure(_) => TellFailed(true)
        case Refunding => Refund(true)
        case _ => Requeue;
    case Completed =>
    case GaveUp =>
  }

  /** Every run is finite: it takes at most 20 * AI_MAX_ATTEMPTS + 5 steps, whatever is generated or delivered. */
  lemma {:induction false} RunsAreBounded(c: Config, t: Task, acts: seq<Act>)
    requires c.maxAttempts >= 1 && QuietInv(c, t) && Legal(c, t, acts) && AllQuiet(acts)
    ensures |acts| <= Fuel(c, t)
    decreases |acts|
  {
    hide Apply, QuietInv;
    if acts == [] {
      FuelIsNat(c, t);
    } else {
      FuelDrops(c, t, acts[0]);
      QuietStep(c, t, acts[0]);
      RunsAreBounded(c, Apply(c, t, acts[0]), acts[1..]);
    }
  }

  /** A run that has stopped, having queued its task, has ended it: exactly one terminal event was
      published, the last, and it says what the row says. */
  lemma StoppedRunsHaveEnded(c: Config, kind: Kind, acts: seq<Act>)
    requires c.maxAttempts >= 1 && Legal(c, NewTask(kind), acts) && AllQuiet(acts)
    requires forall a :: Quiet(a) ==> !Enabled(Exec(c, NewTask(kind), acts), a)
    ensures |acts| <= 20 * c.maxAttempts + 5
    ensures var t := Exec(c, NewTask(kind), acts);
      Settled(t) && (t.creator == Created ==> Ended(t) && EndsWith(t.channel, t.row.value))
  {
    hide Apply, AnyInv;
    NewIsQuiet(c, kind);
    QuietRun(c, NewTask(kind), acts);
    RunsAreBounded(c, NewTask(kind), acts);
    var t := Exec(c, NewTask(kind), acts);
    if !Settled(t) { var a := NeverStuck(c, t); }
  }

  // ---- Duplicated deliveries ----

  /** A tailoring task creates at most AI_MAX_ATTEMPTS versions, at least one if it succeeded, and
      exactly one if it succeeded and no attempt failed after its delivery had been carried out. */
  lemma DuplicationIsBounded(c: Config, acts: seq<Act>)
    requires c.maxAttempts >= 1 && Legal(c, NewTask(RESUME_TAILOR), acts) && AllQuiet(acts)
    ensures var t := Exec(c, NewTask(RESUME_TAILOR), acts);
      |t.delivered| <= c.maxAttempts &&
      (t.row.Some? && t.row.value.status == SUCCEEDED ==> |t.delivered| == t.late + 1)
  {
    hide Apply, PcAgreesWithRow, SuccessIsDelivered, OnlyTheResultIsDelivered;
    NewIsQuiet(c, RESUME_TAILOR);
    QuietRun(c, NewTask(RESUME_TAILOR), acts);
  }
}