/** Watching one task: the event stream handler, the event bus between the worker and the handler, and
    the browser, which reads the stream and falls back to polling. All of them interleave freely with
    the task's own steps. */
module Observer {
  import opened Wrappers
  import opened Generation
  import opened Tasks

  const MAX_POLLS: nat := 400
  const GENERATION_FAILED := "Generation failed."

  datatype Frame = TaskFrame(event: Event) | Ping

  /** `Snapshot`: the row has been read, the response not yet begun. */
  datatype Handler = Unrequested | Snapshot(row: Row) | Streaming | Finished

  datatype Outcome = Result(text: string) | TaskError(message: string) | Timeout | Transport | Cancelled

  /** `Reading`: how many frames of the stream the browser has taken. `Deciding`: it has an outcome and has not yet
      looked whether it was cancelled meanwhile. */
  datatype Client = Reading(seen: nat) | Polling(polls: nat) | Deciding(outcome: Outcome) | Done(outcome: Outcome)

  /** `emitted`: how many of the channel's events the bus has dispatched. `subscriptions`,
      `unsubscriptions` and `timersCleared` count what the handler did. */
  datatype World = World(
    task: Task, emitted: nat, handler: Handler, frames: seq<Frame>,
    subscriptions: nat, unsubscriptions: nat, timersCleared: nat, client: Client, cancelled: bool, asked: bool)

  datatype Act =
    | TaskStep(act: Tasks.Act)
    | Emit
    | ReadRow
    | OpenStream
    | Heartbeat
    | LifetimeOver
    | Disconnect
    | TakeFrame
    | StreamEnds
    | StreamBreaks
    | Poll
    | PollFails
    | Finish
    | Cancel
    | RunAgain

  /** What the handler replays, and what it forwards, is the same shape. */
  function Replay(row: Row): Event {
    Event(row.status, match row.result case Some(g) => Some(g.text) case None => None, row.error)
  }

  /** The browser's reading of a terminal event or row. */
  function OutcomeOf(e: Event): Outcome {
    if e.status == SUCCEEDED then Result(match e.result case Some(text) => text case None => "")
    else TaskError(match e.error case Some(message) => message case None => GENERATION_FAILED)
  }

  predicate Enabled(w: World, a: Act) {
    match a
    case TaskStep(act) => Tasks.Enabled(w.task, act)
    case Emit => w.emitted < |w.task.channel|
    case ReadRow => w.handler == Unrequested && w.task.row.Some?
    case OpenStream => w.handler.Snapshot?
    case Heartbeat => w.handler == Streaming
    case LifetimeOver => w.handler == Streaming
    case Disconnect => w.handler == Streaming || w.handler == Finished
    case TakeFrame => w.client.Reading? && w.client.seen < |w.frames|
    case StreamEnds => w.client.Reading? && w.handler == Finished && w.client.seen == |w.frames|
    case StreamBreaks => w.client.Reading?
    case Poll => w.client.Polling? && w.task.row.Some?
    case PollFails => w.client.Polling? && w.client.polls < MAX_POLLS
    case Finish => w.client.Deciding?
    case Cancel => true
    case RunAgain => true
  }

  /** `close`: only the first call does anything. */
  function Close(w: World): World {
    if w.handler != Streaming then w
    else w.(handler := Finished, unsubscriptions := w.unsubscriptions + 1, timersCleared := w.timersCleared + 1)
  }

  function Settle(w: World, o: Outcome): World { w.(client := Deciding(o)) }

  /** The listener: forward the event, and close after a terminal one. */
  function Forward(w: World, e: Event): World {
    if w.handler != Streaming then w
    else
      var sent := w.(frames := w.frames + [TaskFrame(e)]);
      if IsTerminal(e.status) then Close(sent) else sent
  }

  function Apply(c: Config, w: World, a: Act): World
    requires Enabled(w, a)
  {
    match a
    case TaskStep(act) => w.(task := Tasks.Apply(c, w.task, act))
    case Emit => Forward(w, w.task.channel[w.emitted]).(emitted := w.emitted + 1)
    case ReadRow => w.(handler := Snapshot(w.task.row.value))
    case OpenStream =>
      var sent := w.(frames := [TaskFrame(Replay(w.handler.row))]);
      if IsTerminal(w.handler.row.status) then sent.(handler := Finished)
      else sent.(handler := Streaming, subscriptions := w.subscriptions + 1)
    case Heartbeat => w.(frames := w.frames + [Ping])
    case LifetimeOver => Close(w)
    case Disconnect => Close(w)
    case TakeFrame =>
      var f := w.frames[w.client.seen];
      if f.TaskFrame? && IsTerminal(f.event.status) then Settle(w, OutcomeOf(f.event))
      else w.(client := Reading(w.client.seen + 1))
    case StreamEnds => if w.cancelled then Settle(w, Cancelled) else w.(client := Polling(0))
    case StreamBreaks => if w.cancelled then Settle(w, Cancelled) else w.(client := Polling(0))
    case Poll =>
      if w.client.polls >= MAX_POLLS then Settle(w, Timeout)
      else if w.cancelled then Settle(w, Cancelled)
      else if IsTerminal(w.task.row.value.status) then Settle(w, OutcomeOf(Replay(w.task.row.value)))
      else w.(client := Polling(w.client.polls + 1))
    case PollFails => Settle(w, if w.cancelled then Cancelled else Transport)
    case Finish => w.(client := Done(if w.cancelled then Cancelled else w.client.outcome))
    case Cancel => w.(cancelled := true, asked := true)
    case RunAgain => w.(cancelled := false)
  }

  predicate Legal(c: Config, w: World, acts: seq<Act>)
    decreases |acts|
  {
    acts == [] || (Enabled(w, acts[0]) && Legal(c, Apply(c, w, acts[0]), acts[1..]))
  }

  function Exec(c: Config, w: World, acts: seq<Act>): World
    requires Legal(c, w, acts)
    decreases |acts|
  {
    if acts == [] then w else Exec(c, Apply(c, w, acts[0]), acts[1..])
  }

  /** The task's own steps are quiet; its watchers do what they like. */
  predicate QuietSteps(acts: seq<Act>) { forall i :: 0 <= i < |acts| && acts[i].TaskStep? ==> Quiet(acts[i].act) }

  /** The browser starts once its task has been created; the bus may lag behind the channel. */
  ghost predicate Initial(c: Config, w: World) {
    c.maxAttempts >= 1 && QuietInv(c, w.task) && w.task.creator == Created && Begins(w)
  }

  /** Nobody watches yet. */
  predicate Begins(w: World) {
    w.emitted <= |w.task.channel| && w.handler == Unrequested && w.frames == [] &&
    w.subscriptions == 0 && w.unsubscriptions == 0 && w.timersCleared == 0 && w.client == Reading(0) &&
    !w.cancelled && !w.asked
  }

  // ---- The invariant ----

  /** The event says what the task's row says, now and, the status being terminal, forever. */
  ghost predicate Truthful(e: Event, t: Task) {
    t.row.Some? && e.status == t.row.value.status &&
    (e.status == SUCCEEDED ==> t.row.value.result.Some? && e.result == Some(t.row.value.result.value.text)) &&
    (e.status == FAILED ==> e.error.Some? && e.error == t.row.value.error)
  }

  ghost predicate ChannelOk(t: Task) {
    forall i :: 0 <= i < |t.channel| ==>
      t.channel[i].status == RUNNING || (IsTerminal(t.channel[i].status) && Truthful(t.channel[i], t))
  }

  predicate Final(f: Frame) { f.TaskFrame? && IsTerminal(f.event.status) }

  /** The replay is first, only it may say QUEUED, and nothing follows a terminal frame. */
  ghost predicate FramesOk(w: World) {
    (forall i :: 0 <= i < |w.frames| && Final(w.frames[i]) ==>
      i == |w.frames| - 1 && w.handler == Finished && Truthful(w.frames[i].event, w.task)) &&
    (forall i :: 0 < i < |w.frames| && w.frames[i].TaskFrame? ==> w.frames[i].event.status != QUEUED)
  }

  ghost predicate HandlerOk(w: World) {
    (w.handler == Unrequested || w.handler.Snapshot? <==> w.frames == []) &&
    (w.frames != [] ==> w.frames[0].TaskFrame?) &&
    (w.handler.Snapshot? && IsTerminal(w.handler.row.status) ==> Truthful(Replay(w.handler.row), w.task)) &&
    w.subscriptions <= 1 && (w.handler == Streaming ==> w.subscriptions == 1) &&
    (w.handler == Unrequested || w.handler.Snapshot? ==> w.subscriptions == 0) &&
    w.unsubscriptions == w.timersCleared == (if w.handler == Finished then w.subscriptions else 0)
  }

  ghost predicate ClientOk(w: World) {
    match w.client
    case Reading(seen) => seen <= |w.frames| && forall i :: 0 <= i < seen ==> !Final(w.frames[i])
    case Polling(polls) => polls <= MAX_POLLS
    case Deciding(o) => OutcomeOk(w.task, o)
    case Done(o) => OutcomeOk(w.task, o)
  }

  ghost predicate OutcomeOk(t: Task, o: Outcome) {
    match o
    case Result(text) =>
      t.row.Some? && t.row.value.status == SUCCEEDED && t.row.value.result.Some? &&
      t.row.value.result.value.text == text
    case TaskError(message) => t.row.Some? && t.row.value.status == FAILED && t.row.value.error == Some(message)
    case _ => true
  }

  ghost predicate Inv(c: Config, w: World) {
    c.maxAttempts >= 1 && QuietInv(c, w.task) && w.task.creator == Created && w.task.row.Some? &&
    w.emitted <= |w.task.channel| &&
    FramesOk(w) && HandlerOk(w) && ClientOk(w)
  }

  /** What the task's own invariant says about its channel and its row. */
  lemma TaskFacts(c: Config, t: Task)
    requires QuietInv(c, t) && t.creator == Created
    ensures t.row.Some? && ChannelOk(t)
    ensures Ended(t) ==> Truthful(Replay(t.row.value), t)
  {
    hide PcAgreesWithRow, SuccessIsDelivered, OnlyTheResultIsDelivered;
    if t.channel != [] {
      var last := |t.channel| - 1;
      forall i | 0 <= i < last ensures t.channel[i] == t.channel[..last][i] {}
    }
  }

  lemma TaskStepKeepsInv(c: Config, w: World, a: Tasks.Act)
    requires Inv(c, w) && Enabled(w, TaskStep(a)) && Quiet(a)
    ensures Inv(c, Apply(c, w, TaskStep(a)))
  {
    hide Tasks.Apply, QuietInv;
    var u := Tasks.Apply(c, w.task, a);
    QuietStep(c, w.task, a);
    StepKeepsCreator(c, w.task, a);
    if Ended(w.task) { TerminalIsAbsorbing(c, w.task, a); }
  }

  lemma StepKeepsCreator(c: Config, t: Task, a: Tasks.Act)
    requires t.creator == Created && t.row.Some? && Tasks.Enabled(t, a)
    ensures Tasks.Apply(c, t, a).creator == Created && Tasks.Apply(c, t, a).row.Some?
    ensures |t.channel| <= |Tasks.Apply(c, t, a).channel|
  {}

  lemma HandlerStepKeepsInv(c: Config, w: World, a: Act)
    requires Inv(c, w) && Enabled(w, a)
    requires a.Emit? || a.ReadRow? || a.OpenStream? || a.Heartbeat? || a.LifetimeOver? || a.Disconnect?
    ensures Inv(c, Apply(c, w, a))
  {
    hide QuietInv;
    TaskFacts(c, w.task);
  }

  lemma OnlyTheClientMoved(w: World, v: World)
    requires v == w.(client := v.client, cancelled := v.cancelled, asked := v.asked)
    ensures FramesOk(v) <==> FramesOk(w)
    ensures HandlerOk(v) <==> HandlerOk(w)
  {}

  lemma FinalIsTruthful(w: World, i: nat)
    requires FramesOk(w) && i < |w.frames| && Final(w.frames[i])
    ensures Truthful(w.frames[i].event, w.task)
  {}

  lemma ClientStepKeepsInv(c: Config, w: World, a: Act)
    requires Inv(c, w) && Enabled(w, a)
    requires a.TakeFrame? || a.StreamEnds? || a.StreamBreaks? || a.Poll? || a.PollFails? || a.Finish? || a.Cancel? ||
             a.RunAgain?
    ensures Inv(c, Apply(c, w, a))
  {
    hide QuietInv, FramesOk, HandlerOk, ChannelOk;
    TaskFacts(c, w.task);
    OnlyTheClientMoved(w, Apply(c, w, a));
    if a.TakeFrame? && Final(w.frames[w.client.seen]) { FinalIsTruthful(w, w.client.seen); }
  }

  lemma StepKeepsInv(c: Config, w: World, a: Act)
    requires Inv(c, w) && Enabled(w, a) && (a.TaskStep? ==> Quiet(a.act))
    ensures Inv(c, Apply(c, w, a))
  {
    hide Inv, Apply;
    if a.TaskStep? {
      TaskStepKeepsInv(c, w, a.act);
    } else if a.Emit? || a.ReadRow? || a.OpenStream? || a.Heartbeat? || a.LifetimeOver? || a.Disconnect? {
      HandlerStepKeepsInv(c, w, a);
    } else {
      ClientStepKeepsInv(c, w, a);
    }
  }

  lemma {:induction false} RunKeepsInv(c: Config, w: World, acts: seq<Act>)
    requires Inv(c, w) && Legal(c, w, acts) && QuietSteps(acts)
    ensures Inv(c, Exec(c, w, acts))
    decreases |acts|
  {
    hide Inv, Apply;
    if acts != [] {
      StepKeepsInv(c, w, acts[0]);
      RunKeepsInv(c, Apply(c, w, acts[0]), acts[1..]);
    }
  }

  lemma InitialInv(c: Config, w: World)
    requires Initial(c, w)
    ensures Inv(c, w)
  {
    hide QuietInv;
    TaskFacts(c, w.task);
  }

  // ---- What the browser reports ----

  /** The browser's outcome refines the row of a quiet task, over every interleaving: a result or a task failure
      it reports is the row's own, terminal result or error. Nothing else is possible but cancellation,
      a timeout or a transport error. */
  lemma OutcomeIsTheRows(c: Config, w: World, acts: seq<Act>)
    requires Initial(c, w) && Legal(c, w, acts) && QuietSteps(acts) && Exec(c, w, acts).client.Done?
    ensures var v := Exec(c, w, acts);
      match v.client.outcome
      case Result(text) => Ended(v.task) && v.task.row.value.status == SUCCEEDED &&
                           v.task.row.value.result.Some? && text == v.task.row.value.result.value.text
      case TaskError(message) => Ended(v.task) && v.task.row.value.status == FAILED &&
        v.task.row.value.error == Some(message)
      case Cancelled => v.asked
      case _ => true
  {
    hide QuietInv, Apply;
    InitialInv(c, w);
    RunKeepsInv(c, w, acts);
    CancelledOnlyIfAsked(c, w, acts);
  }

  ghost predicate CancelOk(w: World) {
    w.client == Done(Cancelled) || w.client == Deciding(Cancelled) || w.cancelled ==> w.asked
  }

  lemma CancelStep(c: Config, w: World, a: Act)
    requires CancelOk(w) && Enabled(w, a)
    ensures CancelOk(Apply(c, w, a))
  {
    hide Tasks.Apply;
  }

  lemma {:induction false} CancelledOnlyIfAsked(c: Config, w: World, acts: seq<Act>)
    requires CancelOk(w) && Legal(c, w, acts)
    ensures CancelOk(Exec(c, w, acts))
    decreases |acts|
  {
    hide Apply, CancelOk;
    if acts != [] {
      CancelStep(c, w, acts[0]);
      CancelledOnlyIfAsked(c, Apply(c, w, acts[0]), acts[1..]);
    }
  }

  // ---- What the browser reports, whatever fails or crashes ----

  /** The text is the task's stored result, and its owner has carried it out. */
  ghost predicate Carried(t: Task, text: string) {
    t.row.Some? && t.row.value.result.Some? && text == t.row.value.result.value.text && text in t.delivered
  }

  /** What claims success tells a result that was carried out. */
  ghost predicate Backed(e: Event, t: Task) { e.status == SUCCEEDED ==> e.result.Some? && Carried(t, e.result.value) }

  ghost predicate Claims(o: Outcome, t: Task) { o.Result? ==> Carried(t, o.text) }

  ghost predicate AllBacked(w: World) {
    AnyInv(w.task) && w.emitted <= |w.task.channel| &&
    (w.handler.Snapshot? ==> Backed(Replay(w.handler.row), w.task)) &&
    (forall i :: 0 <= i < |w.frames| && w.frames[i].TaskFrame? ==> Backed(w.frames[i].event, w.task)) &&
    (w.client.Reading? ==> w.client.seen <= |w.frames|) &&
    (w.handler == Unrequested || w.handler.Snapshot? ==> w.frames == []) &&
    (w.client.Deciding? || w.client.Done? ==> Claims(w.client.outcome, w.task))
  }

  lemma CarriedStays(t: Task, u: Task, text: string)
    requires Keeps(t, u) && Carried(t, text)
    ensures Carried(u, text)
  {
    var i :| 0 <= i < |t.delivered| && t.delivered[i] == text;
    assert u.delivered[i] == text;
  }

  lemma BackedFacts(t: Task)
    requires AnyInv(t)
    ensures t.row.Some? ==> Backed(Replay(t.row.value), t)
    ensures forall i :: 0 <= i < |t.channel| ==> Backed(t.channel[i], t)
  {
    hide PcAgreesWithRow, OnlyTheResultIsDelivered;
  }

  lemma AnyTaskStepIsBacked(c: Config, w: World, a: Tasks.Act)
    requires AllBacked(w) && Enabled(w, TaskStep(a))
    ensures AllBacked(Apply(c, w, TaskStep(a)))
  {
    hide Tasks.Apply, AnyInv, Carried;
    var t, u := w.task, Tasks.Apply(c, w.task, a);
    AnyStep(c, t, a);
    forall text | Carried(t, text) ensures Carried(u, text) { CarriedStays(t, u, text); }
    assert |t.channel| <= |u.channel|;
  }

  lemma HandlerStepIsBacked(c: Config, w: World, a: Act)
    requires AllBacked(w) && Enabled(w, a)
    requires a.Emit? || a.ReadRow? || a.OpenStream? || a.Heartbeat? || a.LifetimeOver? || a.Disconnect?
    ensures AllBacked(Apply(c, w, a))
  {
    hide AnyInv, Backed, Claims, Replay;
    BackedFacts(w.task);
  }

  lemma OutcomeIsBacked(e: Event, t: Task)
    requires Backed(e, t)
    ensures Claims(OutcomeOf(e), t)
  {}

  lemma ClientStepIsBacked(c: Config, w: World, a: Act)
    requires AllBacked(w) && Enabled(w, a)
    requires a.TakeFrame? || a.StreamEnds? || a.StreamBreaks? || a.Poll? || a.PollFails? || a.Finish? || a.Cancel? ||
             a.RunAgain?
    ensures AllBacked(Apply(c, w, a))
  {
    hide AnyInv, Backed, Replay, OutcomeOf, Carried;
    BackedFacts(w.task);
    if a.TakeFrame? && w.frames[w.client.seen].TaskFrame? { OutcomeIsBacked(w.frames[w.client.seen].event, w.task); }
    if a.Poll? { OutcomeIsBacked(Replay(w.task.row.value), w.task); }
  }

  lemma {:induction false} AnyRunIsBacked(c: Config, w: World, acts: seq<Act>)
    requires AllBacked(w) && Legal(c, w, acts)
    ensures AllBacked(Exec(c, w, acts))
    decreases |acts|
  {
    hide AllBacked, Apply;
    if acts != [] {
      match acts[0] {
        case TaskStep(act) => AnyTaskStepIsBacked(c, w, act);
        case Emit => HandlerStepIsBacked(c, w, acts[0]);
        case ReadRow => HandlerStepIsBacked(c, w, acts[0]);
        case OpenStream => HandlerStepIsBacked(c, w, acts[0]);
        case Heartbeat => HandlerStepIsBacked(c, w, acts[0]);
        case LifetimeOver => HandlerStepIsBacked(c, w, acts[0]);
        case Disconnect => HandlerStepIsBacked(c, w, acts[0]);
        case _ => ClientStepIsBacked(c, w, acts[0]);
      }
      AnyRunIsBacked(c, Apply(c, w, acts[0]), acts[1..]);
    }
  }

  /** A client that sees SUCCEEDED can rely on the content being persisted: over every run, crashes and faults of
      every kind included, a result the browser reports is the stored one, and the owner has carried it out. */
  lemma ReportedResultWasDelivered(c: Config, w: World, acts: seq<Act>)
    requires AnyInv(w.task) && Begins(w) && Legal(c, w, acts) && Exec(c, w, acts).client.Done?
    ensures var v := Exec(c, w, acts); v.client.outcome.Result? ==> Carried(v.task, v.client.outcome.text)
  {
    hide AnyInv, Apply, Carried;
    AnyRunIsBacked(c, w, acts);
  }

  // ---- What the stream carries ----

  function Rank(s: Status): nat { match s case QUEUED => 0 case RUNNING => 1 case _ => 2 }

  /** In every reachable state: what was sent first is the replay of the row, a terminal frame is the last and the
      stream has ended with it, an open stream is subscribed, and one that subscribed and has ended unsubscribed and
      cleared its timers exactly once. */
  lemma HandlerIsTidy(c: Config, w: World, acts: seq<Act>)
    requires Initial(c, w) && Legal(c, w, acts) && QuietSteps(acts)
    ensures var v := Exec(c, w, acts);
      (v.frames != [] ==> v.frames[0].TaskFrame?) &&
      (forall i :: 0 <= i < |v.frames| && Final(v.frames[i]) ==> i == |v.frames| - 1 && v.handler == Finished) &&
      (v.handler == Finished ==> v.frames != [] && v.unsubscriptions == v.timersCleared == v.subscriptions <= 1) &&
      (v.handler == Streaming ==> v.unsubscriptions == v.timersCleared == 0 && v.subscriptions == 1)
  {
    hide QuietInv, Apply;
    InitialInv(c, w);
    RunKeepsInv(c, w, acts);
  }

  /** Along the stream, statuses never go down. */
  lemma StatusesNeverGoDown(c: Config, w: World, acts: seq<Act>, i: nat, j: nat)
    requires Initial(c, w) && Legal(c, w, acts) && QuietSteps(acts) && i < j < |Exec(c, w, acts).frames|
    ensures var f := Exec(c, w, acts).frames;
      f[i].TaskFrame? && f[j].TaskFrame? ==> Rank(f[i].event.status) <= Rank(f[j].event.status)
  {
    hide QuietInv, Apply;
    InitialInv(c, w);
    RunKeepsInv(c, w, acts);
  }

  // ---- Missed events ----

  /** The stream has missed the terminal event: the bus has nothing left for it. */
  ghost predicate Missed(w: World) {
    (w.handler == Streaming || (w.handler == Finished && forall i :: 0 <= i < |w.frames| ==> !Final(w.frames[i]))) &&
    Ended(w.task) && EndsWith(w.task.channel, w.task.row.value) && w.emitted == |w.task.channel|
  }

  lemma MissedStays(c: Config, w: World, a: Act)
    requires Inv(c, w) && Missed(w) && Enabled(w, a) && (a.TaskStep? ==> Quiet(a.act))
    ensures Missed(Apply(c, w, a))
  {
    hide QuietInv, EndsWith, Tasks.Apply, Ended, HandlerOk, ClientOk;
    if a.TaskStep? {
      TerminalIsAbsorbing(c, w.task, a.act);
      AbsorbedStaysEnded(w.task, Tasks.Apply(c, w.task, a.act));
    }
  }

  lemma NothingFinalSent(c: Config, w: World)
    requires Inv(c, w) && Missed(w)
    ensures forall i :: 0 <= i < |w.frames| ==> !Final(w.frames[i])
  {
    hide QuietInv, EndsWith, Ended, HandlerOk, ClientOk;
  }

  /** Once the bus has dispatched the terminal event, a stream that is still open will never carry it. */
  lemma {:induction false} MissedEventNeverStreams(c: Config, w: World, acts: seq<Act>)
    requires Inv(c, w) && Legal(c, w, acts) && QuietSteps(acts) && Missed(w)
    ensures forall i :: 0 <= i < |Exec(c, w, acts).frames| ==> !Final(Exec(c, w, acts).frames[i])
    decreases |acts|
  {
    hide Inv, Missed, Apply;
    if acts == [] {
      NothingFinalSent(c, w);
    } else {
      StepKeepsInv(c, w, acts[0]);
      MissedStays(c, w, acts[0]);
      MissedEventNeverStreams(c, Apply(c, w, acts[0]), acts[1..]);
    }
  }

  lemma AbsorbedStaysEnded(t: Task, u: Task)
    requires Ended(t) && u.row == t.row
    ensures Ended(u)
  {}

  ghost predicate CanReach(c: Config, w: World, v: World) { exists acts :: Legal(c, w, acts) && Exec(c, w, acts) == v }

  lemma {:induction false} ExecAppend(c: Config, w: World, xs: seq<Act>, ys: seq<Act>)
    requires Legal(c, w, xs) && Legal(c, Exec(c, w, xs), ys)
    ensures Legal(c, w, xs + ys) && Exec(c, w, xs + ys) == Exec(c, Exec(c, w, xs), ys)
    decreases |xs|
  {
    hide Apply, Enabled;
    if xs == [] {
      assert xs + ys == ys;
    } else {
      assert (xs + ys)[1..] == xs[1..] + ys;
      ExecAppend(c, Apply(c, w, xs[0]), xs[1..], ys);
    }
  }

  lemma Here(c: Config, w: World)
    ensures CanReach(c, w, w)
  {
    assert Legal(c, w, []) && Exec(c, w, []) == w;
  }

  lemma Then(c: Config, w: World, v: World, a: Act)
    requires CanReach(c, w, v) && Enabled(v, a)
    ensures CanReach(c, w, Apply(c, v, a))
  {
    hide Apply, Enabled;
    var acts :| Legal(c, w, acts) && Exec(c, w, acts) == v;
    assert [a][1..] == [];
    ExecAppend(c, w, acts, [a]);
  }

  /** Nothing about the task is in question any more, and the browser still waits. */
  ghost predicate Awaiting(c: Config, w: World) {
    Inv(c, w) && Ended(w.task) && !w.cancelled &&
    (w.client.Reading? || (w.client.Polling? && w.client.polls < MAX_POLLS))
  }

  /** A missed event costs nothing but time: wherever the stream stands when the task has ended, the
      browser can still get the row's outcome, without any further step of the task. */
  lemma EndedTaskIsStillObserved(c: Config, w: World) returns (v: World)
    requires Awaiting(c, w)
    ensures CanReach(c, w, v) && v.task == w.task && v.client == Done(OutcomeOf(Replay(w.task.row.value)))
  {
    hide QuietInv, Tasks.Apply, CanReach, Inv;
    v := w;
    Here(c, w);
    if w.client.Reading? {
      v := StreamCanEnd(c, w);
      v := DrainStream(c, w, v);
    }
    v := LastSteps(c, w, v);
  }

  /** Polling once, and looking for a cancellation once. */
  lemma LastSteps(c: Config, w: World, v: World) returns (u: World)
    requires CanReach(c, w, v) && Ended(v.task) && !v.cancelled
    requires (v.client.Polling? && v.client.polls < MAX_POLLS) ||
             v.client == Deciding(OutcomeOf(Replay(v.task.row.value)))
    ensures CanReach(c, w, u) && u.task == v.task && u.client == Done(OutcomeOf(Replay(v.task.row.value)))
  {
    hide QuietInv, Tasks.Apply, CanReach, Inv;
    u := v;
    if u.client.Polling? {
      Then(c, w, u, Poll);
      u := Apply(c, u, Poll);
    }
    Then(c, w, u, Finish);
    u := Apply(c, u, Finish);
  }

  /** The handler can always get to the end of the stream: at the latest, the stream's lifetime is over. */
  lemma StreamCanEnd(c: Config, w: World) returns (v: World)
    requires Awaiting(c, w) && w.client.Reading?
    ensures CanReach(c, w, v) && Awaiting(c, v) && v.task == w.task && v.client == w.client && v.handler == Finished
  {
    hide QuietInv, Tasks.Apply, CanReach, Inv;
    Here(c, w);
    v := w;
    assert w.task.row.Some?;
    if v.handler == Unrequested {
      Then(c, w, v, ReadRow);
      StepKeepsInv(c, v, ReadRow);
      v := Apply(c, v, ReadRow);
    }
    if v.handler.Snapshot? {
      Then(c, w, v, OpenStream);
      StepKeepsInv(c, v, OpenStream);
      v := Apply(c, v, OpenStream);
    }
    if v.handler == Streaming {
      Then(c, w, v, LifetimeOver);
      StepKeepsInv(c, v, LifetimeOver);
      v := Apply(c, v, LifetimeOver);
    }
  }

  /** Reading an ended stream to its end gives the outcome, or starts polling. */
  lemma {:induction false} DrainStream(c: Config, w: World, v: World) returns (u: World)
    requires CanReach(c, w, v) && Awaiting(c, v) && v.client.Reading? && v.handler == Finished
    ensures CanReach(c, w, u) && u.task == v.task && !u.cancelled && Inv(c, u)
    ensures u.client == Polling(0) || u.client == Deciding(OutcomeOf(Replay(v.task.row.value)))
    decreases |v.frames| - v.client.seen
  {
    hide QuietInv, Tasks.Apply, CanReach;
    var seen := v.client.seen;
    if seen == |v.frames| {
      Then(c, w, v, StreamEnds);
      StepKeepsInv(c, v, StreamEnds);
      u := Apply(c, v, StreamEnds);
    } else {
      Then(c, w, v, TakeFrame);
      StepKeepsInv(c, v, TakeFrame);
      u := Apply(c, v, TakeFrame);
      if !Final(v.frames[seen]) { u := DrainStream(c, w, u); }
    }
  }
}
