/** Many tasks charging and refunding one set of daily counters. */
module Billing {
  import opened Wrappers
  import opened Tasks
  import Quota
  import Sets

  datatype Config = Config(tasks: Tasks.Config, quota: Quota.Config)

  datatype Entry = Entry(user: string, task: Task)

  /** Task ids are also the ids of their charges. */
  datatype System = System(tasks: map<nat, Entry>, quota: Quota.State)

  /** Background: the clock, the expiry a charge still has to set, the deletion a refund still has to do. */
  datatype Act =
    | Arrive(id: nat, user: string, kind: Kind)
    | Do(id: nat, act: Tasks.Act)
    | Background(command: Quota.Act)

  predicate GivesBack(a: Tasks.Act) { a == Compensate(true) || a == Refund(true) }

  /** `consume` admits by the counter; it may throw after counting when the key has no expiry yet. */
  predicate ChargeFits(c: Config, s: System, user: string, admitted: bool) {
    if Quota.Remaining(c.quota, s.quota, user) > 0
    then admitted || Quota.Expiry(s.quota, Quota.Today(s.quota, user)).None?
    else !admitted
  }

  predicate Enabled(c: Config, s: System, a: Act) {
    match a
    case Arrive(id, _, _) => id !in s.tasks && id !in s.quota.charges
    case Do(id, act) =>
      id in s.tasks && Tasks.Enabled(s.tasks[id].task, act) &&
      (act.Charge? ==> id !in s.quota.charges && ChargeFits(c, s, s.tasks[id].user, act.admitted)) &&
      (GivesBack(act) ==> Quota.Refundable(s.quota, id))
    case Background(act) => (act.Expire? || act.Del? || act.Tick?) && Quota.Enabled(s.quota, act)
  }

  function Apply(c: Config, s: System, a: Act): System
    requires Enabled(c, s, a)
  {
    match a
    case Arrive(id, user, kind) => s.(tasks := s.tasks[id := Entry(user, NewTask(kind))])
    case Do(id, act) =>
      var e := s.tasks[id];
      var quota :=
        if act.Charge? then Quota.Apply(c.quota, s.quota, Quota.Incr(id, e.user))
        else if GivesBack(act) then Quota.Apply(c.quota, s.quota, Quota.Decr(id))
        else s.quota;
      System(s.tasks[id := Entry(e.user, Tasks.Apply(c.tasks, e.task, act))], quota)
    case Background(act) => s.(quota := Quota.Apply(c.quota, s.quota, act))
  }

  /** No fault of the kinds listed for quiet tasks. */
  predicate Calm(a: Act) { a.Do? ==> Quiet(a.act) }

  predicate CalmRun(c: Config, s: System, acts: seq<Act>)
    decreases |acts|
  {
    acts == [] || (Enabled(c, s, acts[0]) && Calm(acts[0]) && CalmRun(c, Apply(c, s, acts[0]), acts[1..]))
  }

  function Exec(c: Config, s: System, acts: seq<Act>): System
    requires CalmRun(c, s, acts)
    decreases |acts|
  {
    if acts == [] then s else Exec(c, Apply(c, s, acts[0]), acts[1..])
  }

  function Start(now: nat): System { System(map[], Quota.Fresh(now)) }

  /** The counters' record of a task agrees with the task. */
  ghost predicate Agrees(s: System, id: nat)
    requires id in s.tasks
  {
    var e := s.tasks[id];
    if e.task.creator == Charging then id !in s.quota.charges && e.task.refunds == 0
    else
      id in s.quota.charges && s.quota.charges[id].user == e.user &&
      (e.task.creator != Refused ==> s.quota.charges[id].admitted) &&
      (s.quota.charges[id].refundedOn.Some? <==> e.task.refunds > 0)
  }

  ghost predicate TasksOk(c: Config, s: System) {
    (forall id :: id in s.tasks ==> QuietInv(c.tasks, s.tasks[id].task) && Agrees(s, id)) &&
    (forall id :: id in s.quota.charges ==> id in s.tasks)
  }

  ghost predicate Inv(c: Config, s: System) { Quota.Inv(c.quota, s.quota) && TasksOk(c, s) }

  /** What a quiet step does to the facts the counters depend on. */
  lemma CreatorAndRefunds(c: Tasks.Config, t: Task, a: Tasks.Act)
    requires QuietInv(c, t) && Tasks.Enabled(t, a) && Quiet(a)
    ensures var u := Tasks.Apply(c, t, a);
      (u.creator == Charging <==> t.creator == Charging && !a.Charge?) &&
      (u.creator == Refused <==> t.creator == Refused || a == Charge(false)) &&
      u.refunds == t.refunds + (if GivesBack(a) then 1 else 0) &&
      (GivesBack(a) ==> t.refunds == 0 && t.creator !in {Charging, Refused})
  {
    hide PcAgreesWithRow, SuccessIsDelivered, OnlyTheResultIsDelivered;
  }

  /** Giving a charge back is never refused: when a task is about to be refunded, its charge is
      admitted and has not been given back. */
  lemma RefundIsAlwaysDue(c: Config, s: System, id: nat, a: Tasks.Act)
    requires Inv(c, s) && id in s.tasks && Tasks.Enabled(s.tasks[id].task, a) && GivesBack(a)
    ensures Enabled(c, s, Do(id, a))
  {
    hide Tasks.Enabled, Tasks.Apply, Quota.Inv;
    assert QuietInv(c.tasks, s.tasks[id].task) && Agrees(s, id);
    CreatorAndRefunds(c.tasks, s.tasks[id].task, a);
  }

  lemma DoKeepsInv(c: Config, s: System, id: nat, a: Tasks.Act)
    requires c.tasks.maxAttempts >= 1 && Inv(c, s) && Enabled(c, s, Do(id, a)) && Quiet(a)
    ensures Inv(c, Apply(c, s, Do(id, a)))
  {
    hide Tasks.Apply, QuietInv, Quota.Inv;
    var t := Apply(c, s, Do(id, a));
    assert Agrees(s, id);
    CreatorAndRefunds(c.tasks, s.tasks[id].task, a);
    QuietStep(c.tasks, s.tasks[id].task, a);
    if a.Charge? { Quota.IncrKeepsInv(c.quota, s.quota, id, s.tasks[id].user); }
    if GivesBack(a) { Quota.DecrKeepsInv(c.quota, s.quota, id); }
    forall u | u in t.tasks ensures QuietInv(c.tasks, t.tasks[u].task) && Agrees(t, u) {
      assert QuietInv(c.tasks, s.tasks[u].task) && Agrees(s, u);
    }
  }

  lemma StepKeepsInv(c: Config, s: System, a: Act)
    requires c.tasks.maxAttempts >= 1 && Inv(c, s) && Enabled(c, s, a) && Calm(a)
    ensures Inv(c, Apply(c, s, a))
  {
    hide QuietInv, Quota.Inv;
    match a
    case Do(id, act) => DoKeepsInv(c, s, id, act);
    case Arrive(id, user, kind) =>
      NewIsQuiet(c.tasks, kind);
      var t := Apply(c, s, a);
      forall u | u in t.tasks ensures QuietInv(c.tasks, t.tasks[u].task) && Agrees(t, u) {
        if u != id { assert QuietInv(c.tasks, s.tasks[u].task) && Agrees(s, u); }
      }
    case Background(act) =>
      Quota.StepKeepsInv(c.quota, s.quota, act);
      var t := Apply(c, s, a);
      forall u | u in t.tasks ensures QuietInv(c.tasks, t.tasks[u].task) && Agrees(t, u) {
        assert QuietInv(c.tasks, s.tasks[u].task) && Agrees(s, u);
      }
  }

  lemma {:induction false} RunKeepsInv(c: Config, s: System, acts: seq<Act>)
    requires c.tasks.maxAttempts >= 1 && Inv(c, s) && CalmRun(c, s, acts)
    ensures Inv(c, Exec(c, s, acts))
    decreases |acts|
  {
    hide Inv, Apply;
    if acts != [] {
      StepKeepsInv(c, s, acts[0]);
      RunKeepsInv(c, Apply(c, s, acts[0]), acts[1..]);
    }
  }

  /** The user's tasks charged on a day and not refunded. */
  ghost function Unrefunded(s: System, user: string, day: nat): set<nat> {
    set id | id in s.tasks && s.tasks[id].user == user && s.tasks[id].task.creator !in {Charging, Refused} &&
             s.tasks[id].task.refunds == 0 && id in s.quota.charges && s.quota.charges[id].day == day
  }

  /** Over any interleaving of tasks, attempts, refunds and clock ticks, a user's unrefunded tasks of a
      day exceed the cap by at most the refunds of earlier days that landed on that day and the units that
      overtaken deletions forgot. */
  lemma UnrefundedTasksWithinCap(c: Config, now: nat, acts: seq<Act>, user: string, day: nat)
    requires c.tasks.maxAttempts >= 1 && CalmRun(c, Start(now), acts)
    ensures var s := Exec(c, Start(now), acts);
            |Unrefunded(s, user, day)| <=
            c.quota.cap + |Quota.FromEarlierDays(s.quota, user, day)| + Quota.Forgotten(s.quota, Quota.Key(user, day))
  {
    hide QuietInv, Apply;
    Quota.FreshInv(c.quota, now);
    RunKeepsInv(c, Start(now), acts);
    var s := Exec(c, Start(now), acts);
    assert Quota.CapOk(c.quota, s.quota, user, day);
    forall id | id in Unrefunded(s, user, day) ensures id in Quota.Open(s.quota, user, day) { assert Agrees(s, id); }
    Sets.SubsetSize(Unrefunded(s, user, day), Quota.Open(s.quota, user, day));
  }
}
