/** The code that watches a task, as written: the stream handler with its `closed` flag and timers, and
    the browser's stream loop, poll loop and `run`. */
module Browser {
  import opened Wrappers
  import opened Tasks
  import opened Observer

  /** The handler of one `/ai/tasks/:id/stream` request. */
  class TaskStream {
    var frames: seq<Frame>
    var subscribed: bool
    var closed: bool
    var timers: bool
    var unsubscriptions: nat
    var timersCleared: nat
    var subscriptions: nat

    /** The fields, as the observed world sees them. */
    ghost predicate Shows(w: World)
      reads this
    {
      frames == w.frames && subscriptions == w.subscriptions && unsubscriptions == w.unsubscriptions &&
      timersCleared == w.timersCleared &&
      match w.handler
      case Streaming => subscribed && timers && !closed
      case Finished => !subscribed && !timers && closed
      case _ => !subscribed && !timers && !closed
    }

    /** `stream`, once the row has been read: replay it, then subscribe unless it was terminal. */
    method Open(c: Config, row: Row, ghost w: World)
      requires Shows(w) && w.handler == Snapshot(row)
      modifies this
      ensures Shows(Observer.Apply(c, w, OpenStream))
    {
      frames := [TaskFrame(Replay(row))];
      if IsTerminal(row.status) {
        closed := true;
        return;
      }
      subscribed, subscriptions, timers := true, subscriptions + 1, true;
    }

    method CloseStream(ghost w: World)
      requires Shows(w) && (w.handler == Streaming || w.handler == Finished)
      modifies this
      ensures Shows(Close(w)) && frames == old(frames)
    {
      if closed { return; }
      closed := true;
      timers, timersCleared := false, timersCleared + 1;
      subscribed, unsubscriptions := false, unsubscriptions + 1;
    }

    /** The subscription's listener. */
    method OnEvent(e: Event, ghost w: World)
      requires Shows(w) && (w.handler == Streaming || w.handler == Finished)
      modifies this
      ensures Shows(Forward(w, e))
    {
      if closed { return; }
      frames := frames + [TaskFrame(e)];
      if IsTerminal(e.status) { CloseStream(w.(frames := w.frames + [TaskFrame(e)])); }
    }

    method OnHeartbeat(c: Config, ghost w: World)
      requires Shows(w) && w.handler == Streaming
      modifies this
      ensures Shows(Observer.Apply(c, w, Heartbeat))
    {
      if !closed { frames := frames + [Ping]; }
    }
  }

  // ---- The browser ----

  /** One turn of the poll loop: whether the caller had given up, and what the request answered, None if it failed. */
  datatype PollSeen = PollSeen(cancelled: bool, row: Option<Row>)

  /** All that one call of `run` gets to see: the frames of the stream, its polls, and whether it had been cancelled
      when the stream failed and when it was about to show its outcome. */
  datatype Seen = Seen(frames: seq<Frame>, afterStream: bool, polls: seq<PollSeen>, atEnd: bool)

  /** The first terminal frame decides. */
  function StreamVerdict(frames: seq<Frame>): Option<Outcome> {
    if frames == [] then None
    else if Final(frames[0]) then Some(OutcomeOf(frames[0].event)) else StreamVerdict(frames[1..])
  }

  /** The first poll that finds the task ended, fails or is not made decides, within the polls that are left. */
  function PollVerdict(polls: seq<PollSeen>, left: nat): Outcome
    requires left <= |polls|
    decreases left
  {
    if left == 0 then Timeout
    else if polls[0].cancelled then Cancelled
    else if polls[0].row.None? then Transport
    else if IsTerminal(polls[0].row.value.status) then OutcomeOf(Replay(polls[0].row.value))
    else PollVerdict(polls[1..], left - 1)
  }

  /** How a call of `run` that sees this ends. */
  function RunVerdict(e: Seen): Outcome
    requires |e.polls| >= MAX_POLLS
  {
    if e.atEnd then Cancelled
    else
      match StreamVerdict(e.frames)
      case Some(o) => o
      case None => if e.afterStream then Cancelled else PollVerdict(e.polls, MAX_POLLS)
  }

  // ---- How a call ends, told from what was seen ----

  predicate Over(status: Status) { status == SUCCEEDED || status == FAILED }

  /** What a task that ended amounts to for the caller. */
  ghost predicate Amounts(status: Status, text: Option<string>, error: Option<string>, o: Outcome) {
    match o
    case Result(shown) => status == SUCCEEDED && shown == (if text.Some? then text.value else "")
    case TaskError(shown) => status == FAILED && shown == (if error.Some? then error.value else "Generation failed.")
    case _ => false
  }

  /** The first frame that says the task is over, if there is one. */
  ghost predicate StreamDecides(frames: seq<Frame>, r: Option<Outcome>) {
    if r.None? then forall i :: 0 <= i < |frames| && frames[i].TaskFrame? ==> !Over(frames[i].event.status)
    else
      exists i ::
        0 <= i < |frames| && frames[i].TaskFrame? &&
        (forall j :: 0 <= j < i && frames[j].TaskFrame? ==> !Over(frames[j].event.status)) &&
        Amounts(frames[i].event.status, frames[i].event.result, frames[i].event.error, r.value)
  }

  ghost predicate GoesOn(p: PollSeen) { !p.cancelled && p.row.Some? && !Over(p.row.value.status) }

  ghost predicate PollDecides(p: PollSeen, o: Outcome) {
    if p.cancelled then o == Cancelled
    else
      match p.row
      case None => o == Transport
      case Some(row) =>
        Amounts(row.status, if row.result.Some? then Some(row.result.value.text) else None, row.error, o)
  }

  /** The first poll that does not go on decides; four hundred that go on are a timeout. */
  ghost predicate PollsDecide(polls: seq<PollSeen>, o: Outcome) {
    exists i: nat :: DecidedAt(polls, i, o)
  }

  ghost predicate DecidedAt(polls: seq<PollSeen>, i: nat, o: Outcome) {
    i <= 400 && i <= |polls| && (forall j :: 0 <= j < i ==> GoesOn(polls[j])) &&
    if i == 400 then o == Timeout else i < |polls| && PollDecides(polls[i], o)
  }

  /** The stream decides if it can, and the polls otherwise, unless the caller had given up when it mattered. */
  ghost predicate RunDecides(e: Seen, o: Outcome) {
    if e.atEnd then o == Cancelled
    else if StreamDecides(e.frames, None) then if e.afterStream then o == Cancelled else PollsDecide(e.polls, o)
    else StreamDecides(e.frames, Some(o))
  }

  lemma EndsAmountToOutcomes(e: Event)
    ensures IsTerminal(e.status) <==> Over(e.status)
    ensures Over(e.status) ==> Amounts(e.status, e.result, e.error, OutcomeOf(e))
  {}

  lemma {:induction false} NoFinalNoVerdict(frames: seq<Frame>, i: nat)
    requires i <= |frames| && forall j :: 0 <= j < i ==> !Final(frames[j])
    ensures StreamVerdict(frames) == StreamVerdict(frames[i..])
    decreases i
  {
    if i > 0 {
      NoFinalNoVerdict(frames, i - 1);
      assert frames[i - 1..][1..] == frames[i..];
    }
  }

  /** `awaitViaStream`: None is the exception for a stream that ended without a terminal frame. */
  method AwaitViaStream(frames: seq<Frame>) returns (r: Option<Outcome>)
    ensures r == StreamVerdict(frames)
    ensures r.None? <==> forall i :: 0 <= i < |frames| ==> !Final(frames[i])
    ensures StreamDecides(frames, r) && (r.Some? ==> !StreamDecides(frames, None))
  {
    hide Amounts, OutcomeOf, Over;
    for i := 0 to |frames|
      invariant forall j :: 0 <= j < i ==> !Final(frames[j])
      invariant forall j :: 0 <= j < i && frames[j].TaskFrame? ==> !Over(frames[j].event.status)
    {
      if frames[i].Ping? { continue; }
      var event := frames[i].event;
      EndsAmountToOutcomes(event);
      if IsTerminal(event.status) {
        NoFinalNoVerdict(frames, i);
        assert Final(frames[i]);
        return Some(OutcomeOf(event));
      }
    }
    NoFinalNoVerdict(frames, |frames|);
    return None;
  }

  /** `awaitViaPolling`, at most 400 times: Cancelled when the caller has given up, Transport when a poll fails. */
  method AwaitViaPolling(polls: seq<PollSeen>) returns (r: Outcome)
    requires |polls| >= 400
    ensures r == PollVerdict(polls, 400)
    ensures PollsDecide(polls, r)
  {
    hide Amounts, OutcomeOf, Over;
    for poll := 0 to MAX_POLLS
      invariant forall j :: 0 <= j < poll ==> GoesOn(polls[j])
      invariant PollVerdict(polls, MAX_POLLS) == PollVerdict(polls[poll..], MAX_POLLS - poll)
    {
      if polls[poll].cancelled {
        assert DecidedAt(polls, poll, Cancelled);
        return Cancelled;
      }
      var task := polls[poll].row;
      if task.None? {
        assert DecidedAt(polls, poll, Transport);
        return Transport;
      }
      EndsAmountToOutcomes(Replay(task.value));
      if IsTerminal(task.value.status) {
        assert DecidedAt(polls, poll, OutcomeOf(Replay(task.value)));
        return OutcomeOf(Replay(task.value));
      }
      assert polls[poll..][1..] == polls[poll + 1..];
    }
    assert DecidedAt(polls, 400, Timeout);
    return Timeout;
  }

  const TAKING_LONGER := "This is taking longer than expected. Check back shortly."

  datatype Phase = Idle | QueuedPhase | RunningPhase
  datatype Via = Sse | ByPolling

  class UseGeneration {
    var running: bool
    var error: Option<string>
    var phase: Phase
    var transport: Option<Via>

    method Reset()
      modifies this
      ensures !running && error.None? && phase == Idle && transport.None?
    {
      running, error, phase, transport := false, None, Idle, None;
    }

    /** `run`, once the task has been created: it prefers the stream and polls when that fails. The hook's
        state and the returned text show how that ended. After a cancellation the state is left as it is, which
        is idle if it was a `reset`, and as it was while running if the component was unmounted. */
    method Run(e: Seen, reset: bool, transportError: string) returns (text: Option<string>, ghost how: Outcome)
      requires |e.polls| >= 400
      modifies this
      ensures how == RunVerdict(e) && RunDecides(e, how)
      ensures how == Cancelled ==>
        running == !reset && text.None? && error.None? && (reset ==> phase == Idle && transport.None?)
      ensures how != Cancelled ==> !running && phase == Idle && transport.None?
      ensures match how
        case Result(t) => text == Some(t) && error.None?
        case TaskError(message) => text.None? && error == Some(message)
        case Timeout => text.None? && error == Some("This is taking longer than expected. Check back shortly.")
        case Transport => text.None? && error == Some(transportError)
        case Cancelled => true
    {
      hide StreamDecides, PollsDecide, StreamVerdict, PollVerdict;
      running, error, phase, transport, text, how := true, None, QueuedPhase, Some(Sse), None, Cancelled;
      var outcome := Cancelled;
      var streamed := AwaitViaStream(e.frames);
      if streamed.Some? {
        outcome := streamed.value;
      } else {
        if e.afterStream {
          if reset { Reset(); }
          return;
        }
        transport := Some(ByPolling);
        outcome := AwaitViaPolling(e.polls);
      }
      if e.atEnd || outcome == Cancelled {
        if reset { Reset(); }
        return;
      }
      how := outcome;
      running, phase, transport := false, Idle, None;
      match outcome {
        case Result(t) => text := Some(t);
        case TaskError(message) => error := Some(message);
        case Timeout => error := Some(TAKING_LONGER);
        case Transport => error := Some(transportError);
        case Cancelled =>
      }
    }
  }

  // ---- A call of `run` among everything else ----

  /** What a step of the observed system lets `run` see, before what it sees later. */
  function SeeingStep(w: World, a: Observer.Act, later: Seen): Seen
    requires Observer.Enabled(w, a)
  {
    match a
    case TakeFrame => later.(frames := [w.frames[w.client.seen]] + later.frames)
    case StreamEnds => later.(afterStream := w.cancelled)
    case StreamBreaks => later.(afterStream := w.cancelled)
    case Poll =>
      if w.client.polls >= MAX_POLLS then later
      else later.(polls := [PollSeen(w.cancelled, Some(w.task.row.value))] + later.polls)
    case PollFails => later.(polls := [PollSeen(w.cancelled, None)] + later.polls)
    case Finish => later.(atEnd := w.cancelled)
    case _ => later
  }

  /** What `run` sees of a run of the observed system; polls it never makes are filled in. */
  function SeenBy(c: Config, w: World, acts: seq<Observer.Act>): (e: Seen)
    requires Observer.Legal(c, w, acts)
    ensures |e.polls| >= MAX_POLLS && (!w.client.Reading? ==> e.frames == [])
    decreases |acts|
  {
    if acts == [] then Seen([], false, seq(MAX_POLLS, i => PollSeen(false, None)), false)
    else SeeingStep(w, acts[0], SeenBy(c, Observer.Apply(c, w, acts[0]), acts[1..]))
  }

  /** How `run` ends from where it stands, given what it still sees. */
  function VerdictFrom(client: Client, e: Seen): Outcome
    requires |e.polls| >= MAX_POLLS && (client.Polling? ==> client.polls <= MAX_POLLS)
  {
    match client
    case Reading(_) => RunVerdict(e)
    case Polling(polls) => if e.atEnd then Cancelled else PollVerdict(e.polls, MAX_POLLS - polls)
    case Deciding(o) => if e.atEnd then Cancelled else o
    case Done(o) => o
  }

  lemma VerdictStep(c: Config, w: World, a: Observer.Act, later: Seen)
    requires Observer.Enabled(w, a) && |later.polls| >= MAX_POLLS && (w.client.Polling? ==> w.client.polls <= MAX_POLLS)
    requires !Observer.Apply(c, w, a).client.Reading? ==> later.frames == []
    ensures var v, e := Observer.Apply(c, w, a), SeeingStep(w, a, later);
      |e.polls| >= MAX_POLLS && (v.client.Polling? ==> v.client.polls <= MAX_POLLS) &&
      VerdictFrom(w.client, e) == VerdictFrom(v.client, later)
  {
    hide Tasks.Apply;
  }

  lemma {:induction false} VerdictOfRun(c: Config, w: World, acts: seq<Observer.Act>)
    requires Observer.Legal(c, w, acts) && Observer.Exec(c, w, acts).client.Done?
    requires (w.client.Polling? ==> w.client.polls <= MAX_POLLS)
    ensures VerdictFrom(w.client, SeenBy(c, w, acts)) == Observer.Exec(c, w, acts).client.outcome
    decreases |acts|
  {
    hide Observer.Apply, Observer.Enabled, VerdictFrom, SeeingStep;
    if acts == [] {
      DoneIsDone(w.client, SeenBy(c, w, acts));
    } else {
      var v := Observer.Apply(c, w, acts[0]);
      VerdictStep(c, w, acts[0], SeenBy(c, v, acts[1..]));
      VerdictOfRun(c, v, acts[1..]);
    }
  }

  lemma DoneIsDone(client: Client, e: Seen)
    requires client.Done? && |e.polls| >= MAX_POLLS
    ensures VerdictFrom(client, e) == client.outcome
  {}

  /** `run` refines the task's row: given what a run of worker, bus, handler and browser lets it see, it ends as that
      run's browser does; so a result or task failure it reports is the row's own, terminal result or error, and
      otherwise it was cancelled, ran out of polls, or lost the transport. */
  lemma RunReportsTheRow(c: Config, w: World, acts: seq<Observer.Act>)
    requires Initial(c, w) && Observer.Legal(c, w, acts) && QuietSteps(acts) && Observer.Exec(c, w, acts).client.Done?
    ensures var v, how := Observer.Exec(c, w, acts), RunVerdict(SeenBy(c, w, acts));
      how == v.client.outcome &&
      match how
      case Result(text) => Ended(v.task) && v.task.row.value.status == SUCCEEDED &&
                           v.task.row.value.result.Some? && text == v.task.row.value.result.value.text
      case TaskError(message) => Ended(v.task) && v.task.row.value.status == FAILED &&
        v.task.row.value.error == Some(message)
      case Cancelled => v.asked
      case _ => true
  {
    hide Observer.Legal, Observer.Exec, QuietInv, RunVerdict, SeenBy;
    VerdictOfRun(c, w, acts);
    OutcomeIsTheRows(c, w, acts);
  }

  /** And whatever fails or crashes, a result it reports is the stored one, and was carried out by the owner. */
  lemma RunReportsDelivered(c: Config, w: World, acts: seq<Observer.Act>)
    requires AnyInv(w.task) && Begins(w) && Observer.Legal(c, w, acts) && Observer.Exec(c, w, acts).client.Done?
    ensures var v, how := Observer.Exec(c, w, acts), RunVerdict(SeenBy(c, w, acts));
      how == v.client.outcome && (how.Result? ==> Carried(v.task, how.text))
  {
    hide Observer.Legal, Observer.Exec, AnyInv, RunVerdict, SeenBy, Carried;
    VerdictOfRun(c, w, acts);
    ReportedResultWasDelivered(c, w, acts);
  }
}
