/** Where the guarantees of a task stop: the single failing calls that break them, and exactly when. */
module TaskFaults {
  import opened Wrappers
  import opened HttpClient
  import opened Generation
  import opened Tasks

  /** A run without further faults leads from `t` to `u`. */
  ghost predicate CanReach(c: Config, t: Task, u: Task) {
    exists acts :: Legal(c, t, acts) && AllQuiet(acts) && Exec(c, t, acts) == u
  }

  lemma Here(c: Config, t: Task)
    ensures CanReach(c, t, t)
  {
    assert Legal(c, t, []) && AllQuiet([]) && Exec(c, t, []) == t;
  }

  lemma Next(c: Config, t: Task, u: Task, a: Act)
    requires CanReach(c, t, u) && Enabled(u, a) && Quiet(a)
    ensures CanReach(c, t, Apply(c, u, a))
  {
    var acts :| Legal(c, t, acts) && AllQuiet(acts) && Exec(c, t, acts) == u;
    assert [a][1..] == [];
    ExecAppend(c, t, acts, [a]);
  }

  ghost predicate CanChangeStatus(c: Config, t: Task) {
    exists u :: CanReach(c, t, u) && t.row.Some? && u.row.Some? && u.row.value.status != t.row.value.status
  }

  /** From a settled row whose job waits for another attempt, that attempt overwrites the status with RUNNING. */
  lemma AttemptOverwrites(c: Config, t: Task, u: Task)
    requires CanReach(c, t, u) && u.job.Waiting? && u.pc == Asleep && Ended(t) && u.row == t.row
    ensures CanChangeStatus(c, t)
  {
    hide ApplyCreator, AnyInv, CanReach;
    var u1 := Apply(c, u, Pickup);
    Next(c, t, u, Pickup);
    var u2 := Apply(c, u1, Load(true));
    Next(c, t, u1, Load(true));
    Next(c, t, u2, MarkRunning(true));
    assert Apply(c, u2, MarkRunning(true)).row.value.status == RUNNING;
  }

  lemma RetryOverwrites(c: Config, t: Task)
    requires t.pc == Thrown(false) && t.job.Active? && t.job.made + 1 < c.maxAttempts && Ended(t)
    ensures CanChangeStatus(c, t)
  {
    hide ApplyCreator, AnyInv, CanReach;
    Here(c, t);
    Next(c, t, t, Requeue);
    AttemptOverwrites(c, t, Apply(c, t, Requeue));
  }

  /** If the SUCCEEDED event cannot be published, the row does not stay SUCCEEDED: it goes back to
      RUNNING on the retry, or to FAILED on the last attempt. */
  lemma UnpublishedSuccessIsUndone(c: Config, t: Task)
    requires c.maxAttempts >= 1 && QuietInv(c, t) && Enabled(t, TellSucceeded(false))
    ensures Ended(Apply(c, t, TellSucceeded(false))) && CanChangeStatus(c, Apply(c, t, TellSucceeded(false)))
  {
    hide ApplyCreator, AnyInv, CanReach;
    var u := Apply(c, t, TellSucceeded(false));
    if u.pc == Thrown(false) {
      RetryOverwrites(c, u);
    } else {
      Here(c, u);
      Next(c, u, u, MarkFailed(true));
      assert Apply(c, u, MarkFailed(true)).row.value.status == FAILED;
    }
  }

  /** If the FAILED event cannot be published, the row is reopened exactly when the queue has an
      attempt left for it. */
  lemma UnpublishedFailureReopens(c: Config, t: Task)
    requires c.maxAttempts >= 1 && QuietInv(c, t) && Enabled(t, TellFailed(false))
    ensures CanChangeStatus(c, Apply(c, t, TellFailed(false))) <==> t.job.made + 1 < c.maxAttempts
  {
    var u := Apply(c, t, TellFailed(false));
    if t.job.made + 1 < c.maxAttempts {
      RetryOverwrites(c, u);
    } else if CanChangeStatus(c, u) {
      var v :| CanReach(c, u, v) && v.row.Some? && v.row.value.status != u.row.value.status;
      var acts :| Legal(c, u, acts) && AllQuiet(acts) && Exec(c, u, acts) == v;
      GivenUpStays(c, u, acts);
    }
  }

  /** Once its last attempt has thrown, a task keeps the row it has. */
  lemma GivenUpStays(c: Config, t: Task, acts: seq<Act>)
    requires t.creator == Created && t.pc == Thrown(false) && t.job.Active? && t.job.made + 1 >= c.maxAttempts
    requires Legal(c, t, acts) && AllQuiet(acts)
    ensures Exec(c, t, acts).row == t.row
  {
    if acts == [] {
    } else {
      assert Quiet(acts[0]);
      NothingLeft(c, Apply(c, t, Requeue), acts[1..]);
    }
  }

  lemma NothingLeft(c: Config, t: Task, acts: seq<Act>)
    requires t.creator == Created && t.pc == Asleep && t.job == GaveUp && Legal(c, t, acts) && AllQuiet(acts)
    ensures acts == []
  {}

  /** If the attempt dies after the row was settled, the row is reopened exactly when the queue runs the job again. */
  lemma CrashAfterSettlingReopens(c: Config, t: Task, requeued: bool)
    requires c.maxAttempts >= 1 && QuietInv(c, t) && Ended(t) && Enabled(t, Crash(requeued))
    ensures CanChangeStatus(c, Apply(c, t, Crash(requeued))) <==> requeued
  {
    hide AnyInv, CanReach;
    var u := Apply(c, t, Crash(requeued));
    if requeued {
      Here(c, u);
      AttemptOverwrites(c, u, u);
    } else if CanChangeStatus(c, u) {
      var v :| CanReach(c, u, v) && v.row.Some? && v.row.value.status != u.row.value.status;
      StuckHere(c, u, v);
    }
  }

  lemma StuckHere(c: Config, t: Task, u: Task)
    requires t.creator == Created && t.pc == Asleep && t.job == GaveUp && CanReach(c, t, u)
    ensures u == t
  {
    var acts :| Legal(c, t, acts) && AllQuiet(acts) && Exec(c, t, acts) == u;
    NothingLeft(c, t, acts);
  }

  // ---- Calls outside the worker's try block ----

  /** The queue can give up with the row not settled. */
  ghost predicate CanStrand(c: Config, t: Task) { exists u :: CanReach(c, t, u) && u.job == GaveUp && !Ended(u) }

  /** Reading the row, the RUNNING update and its publish, and the FAILED update. */
  predicate Uncaught(a: Act) {
    a == Load(false) || a == MarkRunning(false) || a == TellRunning(false) || a == MarkFailed(false)
  }

  /** If such a call throws, the queue can give up on a row still QUEUED or RUNNING exactly when no attempt is left. */
  lemma UncaughtThrowStrands(c: Config, t: Task, a: Act)
    requires c.maxAttempts >= 1 && QuietInv(c, t) && Enabled(t, a) && Uncaught(a)
    ensures CanStrand(c, Apply(c, t, a)) <==> t.job.made + 1 >= c.maxAttempts
  {
    hide CanReach;
    var u := Apply(c, t, a);
    assert !Ended(u) && u.pc == Thrown(false) && u.job == t.job && t.creator == Created;
    if t.job.made + 1 >= c.maxAttempts {
      Here(c, u);
      Next(c, u, u, Requeue);
      assert Apply(c, u, Requeue).job == GaveUp;
    } else {
      RetryIsQuiet(c, t, a);
      if CanStrand(c, u) {
        var v :| CanReach(c, u, v) && v.job == GaveUp && !Ended(v);
        StaysQuiet(c, u, v);
      }
    }
  }

  lemma RetryIsQuiet(c: Config, t: Task, a: Act)
    requires c.maxAttempts >= 1 && QuietInv(c, t) && Enabled(t, a) && Uncaught(a) && t.job.made + 1 < c.maxAttempts
    ensures QuietInv(c, Apply(c, t, a))
  {}

  lemma StaysQuiet(c: Config, t: Task, u: Task)
    requires c.maxAttempts >= 1 && QuietInv(c, t) && CanReach(c, t, u)
    ensures QuietInv(c, u) && (u.job == GaveUp ==> Ended(u)) && u.refunds <= 1
  {
    hide AnyInv;
    var acts :| Legal(c, t, acts) && AllQuiet(acts) && Exec(c, t, acts) == u;
    QuietRun(c, t, acts);
  }

  // ---- Refunds ----

  /** A waiting task whose next attempt is declined, by the model or by the owner, is refunded by the worker. */
  lemma RefusedAttempt(c: Config, s: Task, t: Task) returns (u: Task)
    requires CanReach(c, s, t) && t.job.Waiting? && t.pc == Asleep && t.row.Some?
    ensures CanReach(c, s, u) && u.refunds == t.refunds + 1
  {
    hide CanReach;
    var working := AttemptStarts(c, s, t);
    var failing := Declined(c, s, working);
    u := FailureSettles(c, s, failing);
  }

  lemma AttemptStarts(c: Config, s: Task, t: Task) returns (u: Task)
    requires CanReach(c, s, t) && t.job.Waiting? && t.pc == Asleep && t.row.Some?
    ensures CanReach(c, s, u) && (u.pc == Generating || u.pc.Delivering?) && u.job.Active? && u.row.Some?
    ensures u.refunds == t.refunds
  {
    hide ApplyCreator, AnyInv, CanReach;
    var t1 := Apply(c, t, Pickup);
    Next(c, s, t, Pickup);
    var t2 := Apply(c, t1, Load(true));
    Next(c, s, t1, Load(true));
    var t3 := Apply(c, t2, MarkRunning(true));
    Next(c, s, t2, MarkRunning(true));
    u := Apply(c, t3, TellRunning(true));
    Next(c, s, t3, TellRunning(true));
  }

  lemma FailureSettles(c: Config, s: Task, t: Task) returns (u: Task)
    requires CanReach(c, s, t) && t.pc.Failing? && t.job.Active? && t.row.Some?
    ensures CanReach(c, s, u) && u.refunds == t.refunds + 1
  {
    hide ApplyCreator, AnyInv, CanReach;
    var t1 := Apply(c, t, MarkFailed(true));
    Next(c, s, t, MarkFailed(true));
    var t2 := Apply(c, t1, TellFailed(true));
    Next(c, s, t1, TellFailed(true));
    u := Apply(c, t2, Refund(true));
    Next(c, s, t2, Refund(true));
  }

  /** Without a result the model declines; with one the owner answers 400. */
  lemma Declined(c: Config, s: Task, t: Task) returns (u: Task)
    requires CanReach(c, s, t) && (t.pc == Generating || t.pc.Delivering?) && t.job.Active? && t.row.Some?
    ensures CanReach(c, s, u) && u.pc.Failing? && u.job == t.job && u.row == t.row && u.refunds == t.refunds
  {
    hide CanReach;
    if t.pc == Generating {
      var decline := Generate(Err(AppError("declined")));
      u := Apply(c, t, decline);
      Next(c, s, t, decline);
    } else {
      var no := Response(400, None, true, false);
      var refuse := Deliver([no, no, no]);
      DecidingIsFirst([no, no, no], 0, MaxAttempts(DeliveryVerb(t.kind), None));
      u := Apply(c, t, refuse);
      Next(c, s, t, refuse);
    }
  }

  ghost predicate CanRefundAgain(c: Config, t: Task, had: nat) {
    exists u :: CanReach(c, t, u) && u.refunds > had
  }

  /** The creating request gives the charge back when queueing throws. The charge can then be given
      back a second time exactly when the queue had taken the job all the same. */
  lemma LostAcknowledgementRefundsTwice(c: Config, t: Task, stored: bool)
    requires c.maxAttempts >= 1 && QuietInv(c, t) && t.creator == Enqueuing
    ensures CanRefundAgain(c, Apply(c, t, Enqueue(false, stored)), 1) <==> stored
  {
    hide CanReach, AnyInv;
    var u := Apply(c, t, Enqueue(false, stored));
    Here(c, u);
    if stored {
      var v1 := Apply(c, u, Compensate(true));
      Next(c, u, u, Compensate(true));
      var v2 := Apply(c, v1, MarkUnqueued(true));
      Next(c, u, v1, MarkUnqueued(true));
      var v := RefusedAttempt(c, u, v2);
      assert v.refunds == 2;
    } else {
      QuietStep(c, t, Enqueue(false, false));
      if CanRefundAgain(c, u, 1) {
        var v :| CanReach(c, u, v) && v.refunds > 1;
        StaysQuiet(c, u, v);
      }
    }
  }

  /** The row the request then marked FAILED is reopened exactly when the queue had taken the job. */
  lemma LostAcknowledgementReopens(c: Config, t: Task, stored: bool, refunded: bool)
    requires c.maxAttempts >= 1 && QuietInv(c, t) && t.creator == Enqueuing
    ensures
      var u := Apply(c, Apply(c, t, Enqueue(false, stored)), Compensate(refunded));
      Enabled(u, MarkUnqueued(true)) && Ended(Apply(c, u, MarkUnqueued(true))) &&
      (CanChangeStatus(c, Apply(c, u, MarkUnqueued(true))) <==> stored)
  {
    hide CanReach, AnyInv;
    var u := Apply(c, Apply(c, t, Enqueue(false, stored)), Compensate(refunded));
    var v := Apply(c, u, MarkUnqueued(true));
    Here(c, v);
    if stored {
      AttemptOverwrites(c, v, v);
    } else if CanChangeStatus(c, v) {
      var w :| CanReach(c, v, w) && w.row.Some? && w.row.value.status != v.row.value.status;
      NothingToDo(c, v, w);
    }
  }

  lemma NothingToDo(c: Config, t: Task, u: Task)
    requires t.creator == Abandoned && t.job == Unqueued && t.pc == Asleep && CanReach(c, t, u)
    ensures u == t
  {
    var acts :| Legal(c, t, acts) && AllQuiet(acts) && Exec(c, t, acts) == u;
    assert acts == [];
  }

  /** If the worker dies after its refund, the charge can be given back again exactly when the queue runs the
      job again. */
  lemma CrashAfterRefundRefundsTwice(c: Config, t: Task, requeued: bool)
    requires c.maxAttempts >= 1 && QuietInv(c, t) && t.pc == Refunding
    ensures
      var u := Apply(c, Apply(c, t, Refund(true)), Crash(requeued));
      u.refunds == 1 && (CanRefundAgain(c, u, 1) <==> requeued)
  {
    var u := Apply(c, Apply(c, t, Refund(true)), Crash(requeued));
    hide CanReach, AnyInv;
    Here(c, u);
    if requeued {
      var v := RefusedAttempt(c, u, u);
    } else if CanRefundAgain(c, u, 1) {
      var v :| CanReach(c, u, v) && v.refunds > 1;
      StuckHere(c, u, v);
    }
  }
}
