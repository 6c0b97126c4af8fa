/** The code that drives a task: the creating request and the worker's `process`, statement by
    statement. Each method is proved to be a run of the task's steps, so everything proved of all
    runs holds of it. */
module Worker {
  import opened Wrappers
  import opened HttpClient
  import opened Generation
  import opened Tasks

  /** Some run leads from `s` to `t`. */
  ghost predicate Reaches(c: Config, s: Task, t: Task) {
    exists acts :: Legal(c, s, acts) && Exec(c, s, acts) == t
  }

  lemma ReachesSelf(c: Config, s: Task)
    ensures Reaches(c, s, s)
  {
    assert Legal(c, s, []) && Exec(c, s, []) == s;
  }

  lemma OneMore(c: Config, s: Task, t: Task, a: Act)
    requires Reaches(c, s, t) && Enabled(t, a)
    ensures Reaches(c, s, Apply(c, t, a))
  {
    var acts :| Legal(c, s, acts) && Exec(c, s, acts) == t;
    assert [a][1..] == [];
    ExecAppend(c, s, acts, [a]);
  }

  /** How the calls made during one attempt turn out; `true` where the call succeeds. */
  datatype Outcomes = Outcomes(
    loaded: bool, running: bool, tellRunning: bool, generated: Result<Generated, Failure>, stored: bool,
    replies: seq<Reply>,
    succeeded: bool, tellSucceeded: bool, failed: bool, tellFailed: bool, refunded: bool)

  // ---- How an attempt has to end, told from the outcomes of its calls ----

  /** Everything went well, or what the user is told and whether another attempt could help. */
  datatype AttemptEnd = Fine | Passing(message: string) | Final(message: string)

  /** Throttling and trouble on the other side pass; what the provider or the service refuses does not. */
  ghost function FailureEnd(f: Failure): AttemptEnd {
    match f
    case AppError(message) => Final(message)
    case Delivery(error) => StatusEnd(error.status)
    case ProviderRateLimit => Passing("The AI service is busy right now. Please try again shortly.")
    case ProviderAuthentication => Final("The AI service is not configured correctly.")
    case ProviderConnection => Passing("Could not reach the AI service. Please try again.")
    case ProviderStatus(None) => Passing("The AI service returned an error. Please try again.")
    case ProviderStatus(Some(status)) =>
      if status >= 500 then Passing("The AI service returned an error. Please try again.")
      else Final("The AI service returned an error. Please try again.")
    case Unexpected => Passing("Generation failed unexpectedly. Please try again.")
  }

  ghost function StatusEnd(status: nat): AttemptEnd {
    if status == 429 || status >= 500 then Passing("Generated, but could not be saved. Please try again.")
    else Final("Generated, but could not be saved. Please try again.")
  }

  /** A tailored resume is posted once; an artifact is put up to three times, until the answer is not busy. */
  ghost function LastReply(kind: Kind, replies: seq<Reply>): Reply
    requires RepliesLongEnough(kind, replies)
  {
    if kind == RESUME_TAILOR || !Busy(replies[0]) then replies[0]
    else if !Busy(replies[1]) then replies[1] else replies[2]
  }

  ghost function DeliveryEnd(last: Reply): AttemptEnd {
    match last
    case Lost(_) => StatusEnd(502)
    case Aborted(_) => StatusEnd(502)
    case Response(status, _, valid, _) =>
      if status == 204 || (200 <= status < 300 && valid) then Fine
      else if 200 <= status < 300 then StatusEnd(502) else StatusEnd(status)
  }

  /** The first call that goes wrong decides. */
  ghost function EndOfAttempt(kind: Kind, existing: Option<Generated>, o: Outcomes): AttemptEnd
    requires RepliesLongEnough(kind, o.replies)
  {
    if existing.None? && o.generated.Err? then FailureEnd(o.generated.error)
    else if existing.None? && !o.stored then FailureEnd(Unexpected)
    else if DeliveryEnd(LastReply(kind, o.replies)) != Fine then DeliveryEnd(LastReply(kind, o.replies))
    else if o.succeeded && o.tellSucceeded then Fine
    else FailureEnd(Unexpected)
  }

  /** The result the row holds after the attempt. */
  ghost function StoredAfter(existing: Option<Generated>, o: Outcomes): Option<Generated> {
    if existing.Some? then existing else if o.generated.Ok? && o.stored then Some(o.generated.value) else None
  }

  /** The result the row holds before attempt `i`, having held `first` before attempt 0. */
  ghost function StoredBefore(first: Option<Generated>, o: nat -> Outcomes, i: nat): Option<Generated> {
    if i == 0 then first else StoredAfter(StoredBefore(first, o, i - 1), o(i - 1))
  }

  /** What was thrown is classified as the attempt had to end. */
  ghost predicate EndsAs(end: AttemptEnd, thrown: Option<Failure>) {
    match end
    case Fine => thrown.None?
    case Passing(message) => thrown.Some? && DescribeFailure(thrown.value) == Description(message, true)
    case Final(message) => thrown.Some? && DescribeFailure(thrown.value) == Description(message, false)
  }

  lemma FailuresAreClassified(f: Failure)
    ensures EndsAs(FailureEnd(f), Some(f)) && FailureEnd(f) != Fine
  {}

  lemma NothingThrown()
    ensures EndsAs(Fine, None)
  {}

  ghost predicate RepliesLongEnough(kind: Kind, replies: seq<Reply>) {
    |replies| >= if kind == RESUME_TAILOR then 1 else 3
  }

  lemma EnoughReplies(kind: Kind, replies: seq<Reply>)
    requires RepliesOk(kind, replies)
    ensures RepliesLongEnough(kind, replies)
  {}

  lemma VerdictDecides(last: Reply)
    ensures var v := Verdict(last);
      (v.Ok? <==> DeliveryEnd(last) == Fine) && (v.Err? ==> DeliveryEnd(last) == FailureEnd(Delivery(v.error)))
  {}

  /** The delivery's last reply decides, and tells the worker how its attempt ends. */
  lemma LastReplyDecides(kind: Kind, replies: seq<Reply>)
    requires RepliesOk(kind, replies) && RepliesLongEnough(kind, replies)
    ensures var v := Verdict(replies[Fetches(DeliveryVerb(kind), replies) - 1]);
      var end := DeliveryEnd(LastReply(kind, replies));
      (v.Ok? <==> end == Fine) && (v.Err? ==> end == FailureEnd(Delivery(v.error)))
  {
    hide Verdict, DeliveryEnd, FailureEnd;
    DecidingIsFirst(replies, 0, MaxAttempts(DeliveryVerb(kind), None));
    VerdictDecides(LastReply(kind, replies));
  }

  /** Reads, status updates and publishes succeed; generating, storing and delivering may fail. */
  predicate AllSucceed(kind: Kind, o: Outcomes) {
    RepliesOk(kind, o.replies) && o.loaded && o.running && o.tellRunning && o.tellSucceeded && o.failed && o.tellFailed
  }

  /** How the calls made while creating a task turn out. */
  datatype Creation = Creation(
    admitted: bool, inserted: bool, queued: bool, queuedAnyway: bool, refunded: bool, marked: bool)

  datatype CreateResult = Accepted | RateLimited | Rethrown

  class GenerationTask {
    const kind: Kind
    var row: Option<Row>
    var job: Job
    var channel: seq<Event>
    var delivered: seq<string>
    var refunds: nat
    ghost var creator: Creator
    ghost var pc: Pc
    ghost var generations: nat
    ghost var attempts: nat
    ghost var late: nat

    ghost function World(): Task
      reads this
    {
      Task(kind, creator, row, job, pc, channel, delivered, generations, refunds, attempts, late)
    }

    /** The row says SUCCEEDED, and the owner has carried its text out. */
    predicate ShowsSuccess()
      reads this
    {
      row.Some? && row.value.status == SUCCEEDED && row.value.error == None && row.value.result.Some? &&
      row.value.result.value.text in delivered
    }

    constructor (kind: Kind)
      ensures World() == NewTask(kind)
    {
      this.kind := kind;
      row, job, channel, delivered, refunds := None, Unqueued, [], [], 0;
      creator, pc, generations, attempts, late := Charging, Asleep, 0, 0, 0;
    }

    /** `TasksService.create`: charge, record, enqueue; give the charge back if recording or queueing throws. */
    method Create(c: Config, o: Creation) returns (r: CreateResult)
      requires World() == NewTask(kind)
      modifies this
      ensures Reaches(c, old(World()), World())
      ensures r == RateLimited <==> !o.admitted
      ensures r == Accepted <==> o.admitted && o.inserted && o.queued
      ensures r == Accepted ==> row == Some(Row(QUEUED, None, None)) && job == Waiting(0) && refunds == 0
      ensures r == RateLimited ==> row.None? && job == Unqueued && refunds == 0
      ensures r == Rethrown ==>
        refunds == (if o.refunded then 1 else 0) &&
        job == (if o.inserted && o.queuedAnyway then Waiting(0) else Unqueued)
      ensures r == Rethrown ==> row == if !o.inserted then None
        else if o.marked then Some(Row(FAILED, None, Some("Could not queue this generation.")))
        else Some(Row(QUEUED, None, None))
    {
      hide ApplyWorker, Reaches;
      ghost var start := World();
      ReachesSelf(c, start);
      OneMore(c, start, World(), Charge(o.admitted));
      if !o.admitted {
        creator := Refused;
        return RateLimited;
      }
      creator := Inserting;
      OneMore(c, start, World(), Insert(o.inserted));
      if o.inserted {
        row := Some(Row(QUEUED, None, None));
        creator := Enqueuing;
        OneMore(c, start, World(), Enqueue(o.queued, o.queued || o.queuedAnyway));
        if o.queued || o.queuedAnyway { job := Waiting(0); }
        if o.queued {
          creator := Created;
          return Accepted;
        }
      }
      creator := Compensating;
      OneMore(c, start, World(), Compensate(o.refunded));
      if o.refunded { refunds := refunds + 1; }
      if row.None? {
        creator := Abandoned;
      } else {
        creator := Marking;
        OneMore(c, start, World(), MarkUnqueued(o.marked));
        if o.marked { row := Some(row.value.(status := FAILED, error := Some(COULD_NOT_QUEUE))); }
        creator := Abandoned;
      }
      return Rethrown;
    }

    /** `DeliveryService.deliver`: one request to the owner; every fetch the owner carried out counts. */
    method DeliverTo(c: Config, ghost start: Task, g: Generated, replies: seq<Reply>) returns (r: Result<(), HttpError>)
      requires Reaches(c, start, World()) && pc == Delivering(g) && job.Active? && RepliesOk(kind, replies)
      modifies this`delivered, this`pc, this`late
      ensures World() == Apply(c, old(World()), Deliver(replies)) && Reaches(c, start, World())
      ensures r.Ok? ==> pc == Settling(g) && g.text in delivered && late == old(late)
      ensures r.Err? ==> pc == Caught(c, job.made, Delivery(r.error))
      ensures RepliesLongEnough(kind, replies)
      ensures var end := DeliveryEnd(LastReply(kind, replies));
        (r.Ok? <==> end == Fine) && (r.Err? ==> end == FailureEnd(Delivery(r.error)))
    {
      hide Apply, Reaches, Caught, LastReply, DeliveryEnd, FailureEnd;
      EnoughReplies(kind, replies);
      LastReplyDecides(kind, replies);
      OneMore(c, start, World(), Deliver(replies));
      DeliverEffect(c, World(), replies);
      DeliverStep(c, World(), replies);
      DecidingIsFirst(replies, 0, MaxAttempts(DeliveryVerb(kind), None));
      var n := Fetches(DeliveryVerb(kind), replies);
      r := Verdict(replies[n - 1]);
      var commits := Committed(replies, n);
      ghost var after := Apply(c, World(), Deliver(replies));
      delivered := delivered + Repeat(g.text, commits);
      pc, late := after.pc, after.late;
      if r.Ok? { assert delivered[|delivered| - 1] == g.text; }
    }

    /** Reuses the stored result, or asks the model and stores its answer before anything else. */
    method ObtainResult(c: Config, ghost start: Task, existing: Option<Generated>, o: Outcomes)
      returns (r: Result<Generated, Failure>)
      requires Reaches(c, start, World()) && job.Active? && row.Some? && row.value.result == existing
      requires pc == if existing.Some? then Delivering(existing.value) else Generating
      modifies this`row, this`pc, this`generations
      ensures Reaches(c, start, World()) && row.Some? && row.value == old(row.value).(result := row.value.result)
      ensures r.Ok? ==> row.value.result == Some(r.value) && pc == Delivering(r.value)
      ensures r.Err? ==> pc == Caught(c, job.made, r.error) && row.value.result.None?
      ensures existing.Some? ==> r == Ok(existing.value) && generations == old(generations)
      ensures existing.None? ==> generations == old(generations) + 1
      ensures existing.None? ==> r == if o.generated.Ok? && !o.stored then Err(Unexpected) else o.generated
    {
      hide ApplyCreator, Reaches;
      if existing.Some? { return Ok(existing.value); }
      OneMore(c, start, World(), Tasks.Generate(o.generated));
      generations := generations + 1;
      if o.generated.Err? {
        pc := Caught(c, job.made, o.generated.error);
        return Err(o.generated.error);
      }
      var result := o.generated.value;
      pc := Persisting(result);
      OneMore(c, start, World(), Persist(o.stored));
      if !o.stored {
        pc := Caught(c, job.made, Unexpected);
        return Err(Unexpected);
      }
      row := Some(row.value.(result := Some(result)));
      pc := Delivering(result);
      return Ok(result);
    }

    /** Marks the delivered task SUCCEEDED and tells its channel. */
    method SettleSuccess(c: Config, ghost start: Task, g: Generated, o: Outcomes) returns (thrown: Option<Failure>)
      requires Reaches(c, start, World()) && job.Active? && row.Some? && pc == Settling(g)
      modifies this`row, this`channel, this`pc, this`late
      ensures Reaches(c, start, World()) && row.Some? && row.value.result == old(row.value.result)
      ensures thrown == if o.succeeded && o.tellSucceeded then None else Some(Unexpected)
      ensures thrown.None? ==> pc == Returned && row.value == old(row.value).(status := SUCCEEDED, error := None)
      ensures thrown.None? ==> channel == old(channel) + [Event(SUCCEEDED, Some(g.text), None)]
      ensures thrown.Some? ==> pc == Caught(c, job.made, Unexpected) && channel == old(channel)
      ensures !o.succeeded ==> row == old(row)
    {
      hide ApplyCreator, Reaches;
      OneMore(c, start, World(), MarkSucceeded(o.succeeded));
      if !o.succeeded {
        pc, late := Caught(c, job.made, Unexpected), late + 1;
        return Some(Unexpected);
      }
      row := Some(row.value.(status := SUCCEEDED, error := None));
      pc := TellingSuccess(g);
      OneMore(c, start, World(), TellSucceeded(o.tellSucceeded));
      if !o.tellSucceeded {
        pc, late := Caught(c, job.made, Unexpected), late + 1;
        return Some(Unexpected);
      }
      channel := channel + [Event(SUCCEEDED, Some(g.text), None)];
      pc := Returned;
      return None;
    }

    /** The try block: generate unless a result is stored, store it, deliver it, and only then mark
        the task SUCCEEDED. Returns what was thrown, if anything. */
    method GenerateAndDeliver(c: Config, ghost start: Task, existing: Option<Generated>, o: Outcomes)
      returns (thrown: Option<Failure>)
      requires Reaches(c, start, World()) && job.Active? && row.Some? && row.value.result == existing
      requires pc == (if existing.Some? then Delivering(existing.value) else Generating) && RepliesOk(kind, o.replies)
      modifies this`row, this`channel, this`delivered, this`pc, this`generations, this`late
      ensures Reaches(c, start, World()) && row.Some?
      ensures thrown.None? ==> pc == Returned && ShowsSuccess()
      ensures thrown.None? ==> channel == old(channel) + [Event(SUCCEEDED, Some(row.value.result.value.text), None)]
      ensures thrown.Some? ==> pc == Caught(c, job.made, thrown.value) && channel == old(channel)
      ensures existing.Some? ==> row.value.result == existing && generations == old(generations)
      ensures row.value.result == StoredAfter(existing, o)
      ensures RepliesLongEnough(kind, o.replies) && EndsAs(EndOfAttempt(kind, existing, o), thrown)
      ensures thrown.Some? && o.tellSucceeded ==> row.value == old(row).value.(result := row.value.result)
    {
      hide ApplyCreator, Reaches, LastReply, DeliveryEnd, FailureEnd, DescribeFailure, EndsAs;
      EnoughReplies(kind, o.replies);
      forall f ensures EndsAs(FailureEnd(f), Some(f)) && FailureEnd(f) != Fine { FailuresAreClassified(f); }
      NothingThrown();
      var result := ObtainResult(c, start, existing, o);
      if result.Err? { return Some(result.error); }
      var delivery := DeliverTo(c, start, result.value, o.replies);
      if delivery.Err? { return Some(Delivery(delivery.error)); }
      thrown := SettleSuccess(c, start, result.value, o);
    }

    /** Marks the row RUNNING and says so; a call that throws here is not caught. */
    method Announce(c: Config, ghost start: Task, stored: Option<Generated>, o: Outcomes) returns (ok: bool)
      requires Reaches(c, start, World()) && row.Some? && pc == MarkingRunning(stored)
      modifies this`row, this`channel, this`pc
      ensures Reaches(c, start, World()) && row.Some? && row.value.result == old(row.value.result)
      ensures ok == (o.running && o.tellRunning)
      ensures ok ==>
        row.value.status == RUNNING && row.value.error == None && channel == old(channel) + [Event(RUNNING, None, None)]
      ensures pc == if !ok then Thrown(false) else if stored.Some? then Delivering(stored.value) else Generating
    {
      hide ApplyCreator, Reaches;
      OneMore(c, start, World(), MarkRunning(o.running));
      if !o.running {
        pc := Thrown(false);
        return false;
      }
      row := Some(row.value.(status := RUNNING, error := None));
      pc := TellingRunning(stored);
      OneMore(c, start, World(), TellRunning(o.tellRunning));
      if !o.tellRunning {
        pc := Thrown(false);
        return false;
      }
      channel := channel + [Event(RUNNING, None, None)];
      pc := if stored.Some? then Delivering(stored.value) else Generating;
      return true;
    }

    /** `findUnique`, outside the try: None is a read that threw. */
    method FindUnique(c: Config, o: Outcomes) returns (read: Option<Option<Row>>)
      requires pc == Loading
      modifies this`pc
      ensures Reaches(c, old(World()), World())
      ensures read == if o.loaded then Some(row) else None
      ensures pc ==
        if !o.loaded then Thrown(false) else if row.Some? then MarkingRunning(row.value.result) else Thrown(true)
    {
      hide ApplyCreator, Reaches;
      ReachesSelf(c, World());
      OneMore(c, World(), World(), Load(o.loaded));
      if !o.loaded {
        pc := Thrown(false);
        return None;
      }
      pc := if row.Some? then MarkingRunning(row.value.result) else Thrown(true);
      return Some(row);
    }

    /** `process`. Returns None, or the exception's kind: unrecoverable or not. */
    method Process(c: Config, attemptsMade: nat, o: Outcomes) returns (thrown: Option<bool>)
      requires pc == Loading && job == Active(attemptsMade) && RepliesOk(kind, o.replies)
      modifies this`row, this`channel, this`delivered, this`refunds, this`pc, this`generations, this`late
      ensures Reaches(c, old(World()), World())
      ensures thrown.None? <==> pc == Returned
      ensures thrown.Some? ==> pc == Thrown(thrown.value)
      ensures !o.loaded ==>
        thrown == Some(false) && row == old(row) && channel == old(channel) && generations == old(generations)
      ensures o.loaded && old(row).None? ==> thrown == Some(true) && row == None && refunds == old(refunds)
      ensures row.Some? == old(row).Some?
      ensures thrown.None? ==> ShowsSuccess() && refunds == old(refunds)
      ensures thrown.None? ==>
        channel == old(channel) + [Event(RUNNING, None, None)] +
          [Event(SUCCEEDED, Some(row.value.result.value.text), None)]
      ensures thrown == Some(true) && row.Some? ==> row.value.status == FAILED && row.value.error.Some?
      ensures thrown == Some(true) && row.Some? ==>
        channel == old(channel) + [Event(RUNNING, None, None)] + [Event(FAILED, None, row.value.error)]
      ensures thrown == Some(true) && row.Some? ==> refunds == old(refunds) + (if o.refunded then 1 else 0)
      ensures thrown == Some(false) ==> refunds == old(refunds)
      ensures thrown == Some(false) && o.loaded && o.running && o.tellRunning && o.failed && o.tellFailed ==>
        attemptsMade + 1 < c.maxAttempts && channel == old(channel) + [Event(RUNNING, None, None)]
      ensures old(row).Some? && old(row).value.result.Some? ==>
        row.value.result == old(row).value.result && generations == old(generations)
      ensures o.loaded && o.running && o.tellRunning && old(row).Some? ==>
        row.value.result == StoredAfter(old(row).value.result, o)
      ensures o.loaded && o.running && o.tellRunning && old(row).Some? ==>
        (EndOfAttempt(kind, old(row).value.result, o) == Fine <==> thrown.None?)
      ensures o.loaded && o.running && o.tellRunning && old(row).Some? ==>
        EndOfAttempt(kind, old(row).value.result, o).Passing? && attemptsMade + 1 < c.maxAttempts ==>
        thrown == Some(false) && channel == old(channel) + [Event(RUNNING, None, None)] && refunds == old(refunds) &&
        (o.tellSucceeded ==> row.value.status == RUNNING && row.value.error == None)
      ensures o.loaded && o.running && o.tellRunning && old(row).Some? && o.failed && o.tellFailed ==>
        var end := EndOfAttempt(kind, old(row).value.result, o);
        end.Final? || (end.Passing? && attemptsMade + 1 >= c.maxAttempts) ==>
        thrown == Some(true) && row.value.status == FAILED && row.value.error == Some(end.message)
    {
      hide Apply, Reaches, DescribeFailure, FailureEnd, DeliveryEnd, LastReply, EndOfAttempt, StoredAfter;
      ghost var start := World();
      var read := FindUnique(c, o);
      if read.None? { return Some(false); }
      var existing := read.value;
      if existing.None? { return Some(true); }
      var announced := Announce(c, start, existing.value.result, o);
      if !announced { return Some(false); }

      var failure := GenerateAndDeliver(c, start, existing.value.result, o);
      if failure.None? { return None; }

      var d := DescribeFailure(failure.value);
      var attemptsLeft := c.maxAttempts - (attemptsMade + 1);
      if d.retryable && attemptsLeft > 0 { return Some(false); }
      thrown := SettleFailure(c, start, d.message, o);
    }

    /** The end of the catch block: the failure is final, so record it, tell it and refund it. */
    method SettleFailure(c: Config, ghost start: Task, message: string, o: Outcomes) returns (thrown: Option<bool>)
      requires Reaches(c, start, World()) && pc == Failing(message) && row.Some? && job.Active?
      modifies this`row, this`channel, this`refunds, this`pc
      ensures Reaches(c, start, World()) && thrown.Some? && pc == Thrown(thrown.value) && row.Some?
      ensures row.value.result == old(row.value.result)
      ensures thrown == Some(o.failed && o.tellFailed)
      ensures thrown == Some(true) ==> row.value.status == FAILED && row.value.error == Some(message)
      ensures thrown == Some(true) ==> channel == old(channel) + [Event(FAILED, None, Some(message))]
      ensures thrown == Some(true) ==> refunds == old(refunds) + (if o.refunded then 1 else 0)
      ensures thrown == Some(false) ==> refunds == old(refunds)
    {
      hide ApplyCreator, Reaches;
      OneMore(c, start, World(), MarkFailed(o.failed));
      if !o.failed {
        pc := Thrown(false);
        return Some(false);
      }
      row := Some(row.value.(status := FAILED, error := Some(message)));
      pc := TellingFailure(message);
      OneMore(c, start, World(), TellFailed(o.tellFailed));
      if !o.tellFailed {
        pc := Thrown(false);
        return Some(false);
      }
      channel := channel + [Event(FAILED, None, Some(message))];
      pc := Refunding;
      OneMore(c, start, World(), Refund(o.refunded));
      if o.refunded { refunds := refunds + 1; }
      pc := Thrown(true);
      return Some(true);
    }

    /** How attempt `i` has to end. */
    ghost function EndOf(first: Option<Generated>, o: nat -> Outcomes, i: nat): AttemptEnd
      requires forall j: nat :: AllSucceed(kind, o(j))
    {
      assert AllSucceed(kind, o(i));
      EnoughReplies(kind, o(i).replies);
      EndOfAttempt(kind, StoredBefore(first, o, i), o(i))
    }

    /** The queue: it calls `process`, completes the job when that returns, and otherwise queues
        another attempt while the error is recoverable and attempts are left. */
    method RunJob(c: Config, o: nat -> Outcomes)
      requires c.maxAttempts >= 1 && QuietInv(c, World()) && job == Waiting(0)
      requires forall i: nat :: AllSucceed(kind, o(i))
      modifies this`row, this`job, this`channel, this`delivered, this`refunds, this`pc, this`generations
      modifies this`attempts, this`late
      ensures Reaches(c, old(World()), World())
      ensures job in {Completed, GaveUp} && row.Some? && EndsWith(channel, row.value) && attempts <= c.maxAttempts
      ensures job == Completed ==> ShowsSuccess() && refunds == 0
      ensures job == GaveUp ==> row.value.status == FAILED && refunds <= 1
      ensures attempts >= 1 && forall i: nat :: i < attempts - 1 ==> EndOf(old(row).value.result, o, i).Passing?
      ensures attempts < c.maxAttempts ==> !EndOf(old(row).value.result, o, attempts - 1).Passing?
      ensures job == Completed <==> EndOf(old(row).value.result, o, attempts - 1) == Fine
      ensures job == GaveUp ==> row.value.error == Some(EndOf(old(row).value.result, o, attempts - 1).message)
    {
      hide Reaches, ApplyCreator, ApplyWorker, EndOfAttempt, StoredAfter;
      ghost var start := World();
      ReachesSelf(c, start);
      while job.Waiting?
        invariant Reaches(c, start, World())
        invariant job.Waiting? || job in {Completed, GaveUp}
        invariant job.Waiting? ==>
          pc == Asleep && job.made < c.maxAttempts && attempts == job.made && OnlyRunning(channel) && refunds == 0
        invariant row.Some? && (!job.Waiting? ==> EndsWith(channel, row.value) && attempts <= c.maxAttempts)
        invariant !job.Waiting? ==> attempts >= 1
        invariant job.Waiting? ==> row.value.result == StoredBefore(old(row).value.result, o, job.made)
        invariant forall i: nat :: i < (if job.Waiting? then attempts else attempts - 1) ==>
          EndOf(old(row).value.result, o, i).Passing?
        invariant !job.Waiting? && attempts < c.maxAttempts ==> !EndOf(old(row).value.result, o, attempts - 1).Passing?
        invariant job == Completed ==> EndOf(old(row).value.result, o, attempts - 1) == Fine
        invariant job == GaveUp ==> EndOf(old(row).value.result, o, attempts - 1) != Fine
        invariant job == GaveUp ==> row.value.error == Some(EndOf(old(row).value.result, o, attempts - 1).message)
        invariant job == Completed ==> ShowsSuccess() && refunds == 0
        invariant job == GaveUp ==> row.value.status == FAILED && refunds <= 1
        decreases if job.Waiting? then c.maxAttempts - job.made else 0
      {
        RunAttempt(c, start, job.made, o(job.made));
      }
    }

    /** One call of `process`, and what the queue makes of its outcome. */
    method RunAttempt(c: Config, ghost start: Task, made: nat, o: Outcomes)
      requires Reaches(c, start, World()) && job == Waiting(made) && pc == Asleep && made < c.maxAttempts && row.Some?
      requires AllSucceed(kind, o)
      modifies this`row, this`job, this`channel, this`delivered, this`refunds, this`pc, this`generations
      modifies this`attempts, this`late
      ensures Reaches(c, start, World()) && pc == Asleep && row.Some?
      ensures job == Waiting(made + 1) || job in {Completed, GaveUp}
      ensures attempts == old(attempts) + 1
      ensures job.Waiting? ==>
        made + 1 < c.maxAttempts && channel == old(channel) + [Event(RUNNING, None, None)] && refunds == old(refunds)
      ensures job == Completed ==> ShowsSuccess() && refunds == old(refunds)
      ensures job == GaveUp ==> row.value.status == FAILED && refunds <= old(refunds) + 1
      ensures OnlyRunning(old(channel)) && !job.Waiting? ==> EndsWith(channel, row.value)
      ensures row.value.result == StoredAfter(old(row).value.result, o) && RepliesLongEnough(kind, o.replies)
      ensures var end := EndOfAttempt(kind, old(row).value.result, o);
        (job == Completed <==> end == Fine) && (job.Waiting? <==> end.Passing? && made + 1 < c.maxAttempts) &&
        (job == GaveUp ==> row.value.error == Some(end.message))
    {
      hide ApplyCreator, Reaches, EndOfAttempt, StoredAfter, EndsWith;
      OneMore(c, start, World(), Pickup);
      job, pc, attempts := Active(made), Loading, attempts + 1;
      ghost var before := World();
      var thrown := Process(c, made, o);
      ReachesThrough(c, start, before, World());
      QueueVerdict(c, start, made, thrown);
      if thrown != Some(false) && OnlyRunning(before.channel) {
        ToldLast(before.channel, channel[|channel| - 1], row.value);
      }
    }

    method QueueVerdict(c: Config, ghost start: Task, made: nat, thrown: Option<bool>)
      requires Reaches(c, start, World()) && job == Active(made)
      requires pc == match thrown case None => Returned case Some(unrecoverable) => Thrown(unrecoverable)
      modifies this`job, this`pc
      ensures Reaches(c, start, World()) && pc == Asleep
      ensures job == if thrown.None? then Completed
                     else if !thrown.value && made + 1 < c.maxAttempts then Waiting(made + 1) else GaveUp
    {
      hide ApplyCreator, Reaches;
      if thrown.None? {
        OneMore(c, start, World(), Complete);
        job := Completed;
      } else {
        OneMore(c, start, World(), Requeue);
        job := if !thrown.value && made + 1 < c.maxAttempts then Waiting(made + 1) else GaveUp;
      }
      pc := Asleep;
    }
  }

  /** One RUNNING event and one terminal event that agrees with the row. */
  lemma ToldLast(channel: seq<Event>, last: Event, row: Row)
    requires OnlyRunning(channel) && IsTerminal(row.status)
    requires last == FinalEvent(row)
    ensures EndsWith(channel + [Event(RUNNING, None, None)] + [last], row)
  {
    var all := channel + [Event(RUNNING, None, None)] + [last];
    assert all[..|all| - 1] == channel + [Event(RUNNING, None, None)];
  }

  lemma ReachesThrough(c: Config, s: Task, t: Task, u: Task)
    requires Reaches(c, s, t) && Reaches(c, t, u)
    ensures Reaches(c, s, u)
  {
    var xs :| Legal(c, s, xs) && Exec(c, s, xs) == t;
    var ys :| Legal(c, t, ys) && Exec(c, t, ys) == u;
    ExecAppend(c, s, xs, ys);
  }
}
