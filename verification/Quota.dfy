/** The per-user daily cap: Redis counters, one per user and UTC day, that expire on their own.
    Each Redis command or MULTI block is one step; other requests may run between two of them. */
module Quota {
  import opened Wrappers

  /** Times are milliseconds since the epoch. */
  const DAY_MS: nat := 86_400_000

  function Day(now: nat): nat { now / DAY_MS }

  /** A whole number of seconds from now, at least a minute, that reaches the end of the UTC day and no second more. */
  ghost predicate ExpiresWithTheDay(now: nat, expires: nat) {
    var midnight := (now / 86_400_000 + 1) * 86_400_000;
    expires >= midnight && expires >= now + 60_000 && (expires - now) % 1_000 == 0 &&
    (expires == now + 60_000 || expires - 1_000 < midnight)
  }

  function SecondsUntilUtcMidnight(now: nat): (seconds: nat)
    ensures ExpiresWithTheDay(now, now + 1_000 * seconds)
    ensures seconds >= 60 && now + 1_000 * seconds >= (Day(now) + 1) * DAY_MS
  {
    var left := (Day(now) + 1) * DAY_MS - now;
    var ceiling := (left + 999) / 1_000;
    if ceiling < 60 then 60 else ceiling
  }

  datatype Key = Key(user: string, day: nat)

  datatype Entry = Entry(value: int, expires: Option<nat>)

  /** One call of `consume`: its day, whether it was admitted, and the day its refund landed on. */
  datatype Charge = Charge(user: string, day: nat, admitted: bool, refundedOn: Option<nat>)

  /** `deleting` holds the refunds that saw a negative counter and have not yet deleted it; `forgotten` counts
      the units that deletions took from counters that were no longer negative. */
  datatype State = State(
    now: nat, store: map<Key, Entry>, charges: map<nat, Charge>, deleting: map<nat, Key>, forgotten: map<Key, nat>)

  datatype Config = Config(cap: nat)

  predicate Live(s: State, k: Key) {
    k in s.store && (s.store[k].expires.None? || s.now < s.store[k].expires.value)
  }

  /** What a command finds under a key; an expired key counts as missing. */
  function Value(s: State, k: Key): int { if Live(s, k) then s.store[k].value else 0 }

  function Expiry(s: State, k: Key): Option<nat> { if Live(s, k) then s.store[k].expires else None }

  function Forgotten(s: State, k: Key): nat { if k in s.forgotten then s.forgotten[k] else 0 }

  function Today(s: State, user: string): Key { Key(user, Day(s.now)) }

  datatype Act =
    | Incr(id: nat, user: string)
    | Expire(key: Key)
    | Decr(id: nat)
    | Del(id: nat)
    | Tick(ms: nat)

  predicate Refundable(s: State, id: nat) {
    id in s.charges && s.charges[id].admitted && s.charges[id].refundedOn.None?
  }

  predicate Enabled(s: State, a: Act) {
    match a
    case Incr(id, _) => id !in s.charges
    case Expire(key) => Live(s, key)
    case Decr(id) => Refundable(s, id)
    case Del(id) => id in s.deleting
    case Tick(_) => true
  }

  function Apply(c: Config, s: State, a: Act): State
    requires Enabled(s, a)
  {
    match a
    case Incr(id, user) =>
      var k := Today(s, user);
      var used := Value(s, k) + 1;
      s.(store := s.store[k := Entry(used, Expiry(s, k))],
         charges := s.charges[id := Charge(user, k.day, used <= c.cap, None)])
    case Expire(key) =>
      s.(store := s.store[key := Entry(s.store[key].value, Some(s.now + 1_000 * SecondsUntilUtcMidnight(s.now)))])
    case Decr(id) =>
      var k := Today(s, s.charges[id].user);
      var remaining := Value(s, k) - 1;
      s.(store := s.store[k := Entry(remaining, Expiry(s, k))],
         charges := s.charges[id := s.charges[id].(refundedOn := Some(k.day))],
         deleting := if remaining < 0 then s.deleting[id := k] else s.deleting)
    case Del(id) =>
      var k := s.deleting[id];
      s.(store := s.store - {k}, deleting := s.deleting - {id},
         forgotten := if Value(s, k) > 0 then s.forgotten[k := Forgotten(s, k) + Value(s, k)] else s.forgotten)
    case Tick(ms) => s.(now := s.now + ms)
  }

  predicate Legal(c: Config, s: State, acts: seq<Act>)
    decreases |acts|
  {
    acts == [] || (Enabled(s, acts[0]) && Legal(c, Apply(c, s, acts[0]), acts[1..]))
  }

  function Exec(c: Config, s: State, acts: seq<Act>): State
    requires Legal(c, s, acts)
    decreases |acts|
  {
    if acts == [] then s else Exec(c, Apply(c, s, acts[0]), acts[1..])
  }

  // ---- What the counter stands for ----

  /** Admitted charges of a user and day not given back. */
  ghost function Open(s: State, user: string, day: nat): set<nat> {
    set id | id in s.charges && s.charges[id].user == user && s.charges[id].day == day &&
             s.charges[id].admitted && s.charges[id].refundedOn.None?
  }

  ghost function Rejected(s: State, user: string, day: nat): set<nat> {
    set id | id in s.charges && s.charges[id].user == user && s.charges[id].day == day && !s.charges[id].admitted
  }

  /** Charges of earlier days whose refunds landed on this day. */
  ghost function FromEarlierDays(s: State, user: string, day: nat): set<nat> {
    set id | id in s.charges && s.charges[id].user == user && s.charges[id].day < day &&
      s.charges[id].refundedOn == Some(day)
  }

  ghost predicate StoreOk(s: State) {
    forall k :: k in s.store ==>
      k.day <= Day(s.now) && (s.store[k].expires.Some? ==> s.store[k].expires.value >= (k.day + 1) * DAY_MS)
  }

  /** Nothing is deleted or forgotten ahead of its day. */
  ghost predicate DeletionsOk(s: State) {
    (forall id :: id in s.deleting ==> s.deleting[id].day <= Day(s.now)) &&
    (forall k :: k in s.forgotten ==> k.day <= Day(s.now))
  }

  ghost predicate ChargesOk(s: State) {
    (forall id :: id in s.charges ==> s.charges[id].day <= Day(s.now)) &&
    (forall id :: id in s.charges && s.charges[id].refundedOn.Some? ==>
      s.charges[id].admitted && s.charges[id].day <= s.charges[id].refundedOn.value <= Day(s.now))
  }

  /** Today's counter covers the open and the rejected charges, short of it only by refunds of earlier days
      and by what deletions forgot; without those it is exact. */
  ghost predicate CounterOk(s: State, user: string) {
    var d := Day(s.now);
    Value(s, Key(user, d)) + |FromEarlierDays(s, user, d)| + Forgotten(s, Key(user, d)) >=
      |Open(s, user, d)| + |Rejected(s, user, d)| &&
    (FromEarlierDays(s, user, d) == {} && Forgotten(s, Key(user, d)) == 0 ==>
       Value(s, Key(user, d)) == |Open(s, user, d)| + |Rejected(s, user, d)|)
  }

  ghost predicate CapOk(c: Config, s: State, user: string, day: nat) {
    |Open(s, user, day)| <= c.cap + |FromEarlierDays(s, user, day)| + Forgotten(s, Key(user, day))
  }

  ghost predicate Inv(c: Config, s: State) {
    StoreOk(s) && ChargesOk(s) && DeletionsOk(s) && (forall user :: CounterOk(s, user)) &&
    (forall user, day :: CapOk(c, s, user, day))
  }

  function Fresh(now: nat): State { State(now, map[], map[], map[], map[]) }

  lemma FreshInv(c: Config, now: nat)
    ensures Inv(c, Fresh(now))
  {
    var s := Fresh(now);
    forall user, day
      ensures Open(s, user, day) == {} && Rejected(s, user, day) == {} && FromEarlierDays(s, user, day) == {}
    {
    }
  }

  /** A counter never expires during its own day. */
  lemma TodayIsLive(s: State, k: Key)
    requires StoreOk(s) && k in s.store && k.day == Day(s.now)
    ensures Live(s, k)
  {
    assert s.now < (k.day + 1) * DAY_MS;
  }

  lemma SetsAfterIncr(c: Config, s: State, id: nat, user: string, u: string, day: nat)
    requires Enabled(s, Incr(id, user))
    ensures var t, here := Apply(c, s, Incr(id, user)), u == user && day == Day(s.now);
      FromEarlierDays(t, u, day) == FromEarlierDays(s, u, day) &&
      Open(t, u, day) == (if here && t.charges[id].admitted then Open(s, u, day) + {id} else Open(s, u, day)) &&
      Rejected(t, u, day) ==
        (if here && !t.charges[id].admitted then Rejected(s, u, day) + {id} else Rejected(s, u, day))
    ensures id !in Open(s, u, day) && id !in Rejected(s, u, day)
  {}

  /** What an increment does to the counters of the current day, and to the bookkeeping. */
  lemma IncrEffect(c: Config, s: State, id: nat, user: string)
    requires StoreOk(s) && ChargesOk(s) && DeletionsOk(s) && Enabled(s, Incr(id, user))
    ensures var t, was := Apply(c, s, Incr(id, user)), Value(s, Today(s, user));
      StoreOk(t) && ChargesOk(t) && DeletionsOk(t) && t.now == s.now && t.forgotten == s.forgotten &&
      (t.charges[id].admitted <==> was < c.cap) &&
      forall u :: Value(t, Key(u, Day(s.now))) == Value(s, Key(u, Day(s.now))) + (if u == user then 1 else 0)
  {
    var t, key := Apply(c, s, Incr(id, user)), Today(s, user);
    if key in s.store { TodayIsLive(s, key); }
    assert StoreOk(t);
    TodayIsLive(t, key);
  }

  lemma IncrKeepsInv(c: Config, s: State, id: nat, user: string)
    requires Inv(c, s) && Enabled(s, Incr(id, user))
    ensures Inv(c, Apply(c, s, Incr(id, user)))
  {
    hide Apply, Open, Rejected, FromEarlierDays, Value, StoreOk, ChargesOk, DeletionsOk;
    var t := Apply(c, s, Incr(id, user));
    IncrEffect(c, s, id, user);
    var d := Day(s.now);
    forall u ensures CounterOk(t, u) {
      assert CounterOk(s, u);
      SetsAfterIncr(c, s, id, user, u, d);
    }
    forall u, day ensures CapOk(c, t, u, day) {
      assert CapOk(c, s, u, day) && CounterOk(s, u);
      SetsAfterIncr(c, s, id, user, u, day);
    }
  }

  lemma SetsAfterDecr(c: Config, s: State, id: nat, u: string, day: nat)
    requires Enabled(s, Decr(id))
    ensures var t, charge := Apply(c, s, Decr(id)), s.charges[id];
      Rejected(t, u, day) == Rejected(s, u, day) &&
      Open(t, u, day) == (if u == charge.user && day == charge.day then Open(s, u, day) - {id} else Open(s, u, day)) &&
      FromEarlierDays(t, u, day) ==
        (if u == charge.user && charge.day < day == Day(s.now) then FromEarlierDays(s, u, day) + {id}
         else FromEarlierDays(s, u, day))
    ensures id in Open(s, s.charges[id].user, s.charges[id].day) && id !in FromEarlierDays(s, u, day)
  {}

  /** What a decrement does to the counters of the current day, and to the bookkeeping. */
  lemma DecrEffect(c: Config, s: State, id: nat)
    requires StoreOk(s) && ChargesOk(s) && DeletionsOk(s) && Enabled(s, Decr(id))
    ensures var t, key := Apply(c, s, Decr(id)), Today(s, s.charges[id].user);
      StoreOk(t) && ChargesOk(t) && DeletionsOk(t) && t.now == s.now && t.forgotten == s.forgotten &&
      s.charges[id].day <= Day(s.now) &&
      forall u :: Value(t, Key(u, Day(s.now))) == Value(s, Key(u, Day(s.now))) - (if u == key.user then 1 else 0)
  {
    var t, key := Apply(c, s, Decr(id)), Today(s, s.charges[id].user);
    if key in s.store { TodayIsLive(s, key); }
    assert StoreOk(t);
    TodayIsLive(t, key);
  }

  lemma DecrKeepsInv(c: Config, s: State, id: nat)
    requires Inv(c, s) && Enabled(s, Decr(id))
    ensures Inv(c, Apply(c, s, Decr(id)))
  {
    hide Apply, Open, Rejected, FromEarlierDays, Value, StoreOk, ChargesOk, DeletionsOk;
    var t := Apply(c, s, Decr(id));
    DecrEffect(c, s, id);
    var d := Day(s.now);
    forall u ensures CounterOk(t, u) {
      assert CounterOk(s, u);
      SetsAfterDecr(c, s, id, u, d);
    }
    forall u, day ensures CapOk(c, t, u, day) {
      assert CapOk(c, s, u, day);
      SetsAfterDecr(c, s, id, u, day);
    }
  }

  lemma StoreOnlyKeepsSets(c: Config, s: State, t: State)
    requires t.charges == s.charges && forall k :: Forgotten(t, k) >= Forgotten(s, k)
    ensures forall u, day :: Open(t, u, day) == Open(s, u, day) && Rejected(t, u, day) == Rejected(s, u, day)
    ensures forall u, day :: FromEarlierDays(t, u, day) == FromEarlierDays(s, u, day)
    ensures (forall u, day :: CapOk(c, s, u, day)) ==> forall u, day :: CapOk(c, t, u, day)
  {
    forall u, day | CapOk(c, s, u, day) ensures CapOk(c, t, u, day) {
      assert Open(t, u, day) == Open(s, u, day) && FromEarlierDays(t, u, day) == FromEarlierDays(s, u, day);
    }
  }

  /** A deletion adds what it finds above zero to what was forgotten. */
  lemma DelEffect(c: Config, s: State, id: nat, k: Key)
    requires Enabled(s, Del(id))
    ensures var t, gone, was := Apply(c, s, Del(id)), s.deleting[id], Value(s, k);
      Value(t, k) == (if k == gone then 0 else was) &&
      Forgotten(t, k) == Forgotten(s, k) + (if k == gone && was > 0 then was else 0)
  {}

  lemma DelKeepsInv(c: Config, s: State, id: nat)
    requires Inv(c, s) && Enabled(s, Del(id))
    ensures Inv(c, Apply(c, s, Del(id)))
  {
    hide Value, Forgotten, Open, Rejected, FromEarlierDays;
    var t := Apply(c, s, Del(id));
    forall k ensures Forgotten(t, k) >= Forgotten(s, k) { DelEffect(c, s, id, k); }
    StoreOnlyKeepsSets(c, s, t);
    forall u ensures CounterOk(t, u) {
      assert CounterOk(s, u);
      DelEffect(c, s, id, Key(u, Day(s.now)));
    }
  }

  lemma ExpireKeepsInv(c: Config, s: State, k: Key)
    requires Inv(c, s) && Enabled(s, Expire(k))
    ensures Inv(c, Apply(c, s, Expire(k)))
  {
    var t := Apply(c, s, Expire(k));
    StoreOnlyKeepsSets(c, s, t);
    forall u ensures CounterOk(t, u) {
      assert CounterOk(s, u);
      var today := Key(u, Day(s.now));
      if today in t.store { TodayIsLive(t, today); }
    }
  }

  lemma TickKeepsInv(c: Config, s: State, ms: nat)
    requires Inv(c, s)
    ensures Inv(c, Apply(c, s, Tick(ms)))
  {
    var t := Apply(c, s, Tick(ms));
    assert Day(s.now) <= Day(t.now) by { DayMonotone(s.now, t.now); }
    StoreOnlyKeepsSets(c, s, t);
    forall u ensures CounterOk(t, u) {
      assert CounterOk(s, u);
      var today := Key(u, Day(t.now));
      if Day(t.now) == Day(s.now) {
        if today in s.store { TodayIsLive(s, today); TodayIsLive(t, today); }
      } else {
        assert Open(s, u, Day(t.now)) == {} && Rejected(s, u, Day(t.now)) == {};
        assert FromEarlierDays(s, u, Day(t.now)) == {};
        assert Forgotten(s, today) == 0;
      }
    }
  }

  lemma DayMonotone(a: nat, b: nat)
    requires a <= b
    ensures Day(a) <= Day(b)
  {}

  lemma StepKeepsInv(c: Config, s: State, a: Act)
    requires Inv(c, s) && Enabled(s, a)
    ensures Inv(c, Apply(c, s, a))
  {
    match a
    case Incr(id, user) => IncrKeepsInv(c, s, id, user);
    case Expire(key) => ExpireKeepsInv(c, s, key);
    case Decr(id) => DecrKeepsInv(c, s, id);
    case Del(id) => DelKeepsInv(c, s, id);
    case Tick(ms) => TickKeepsInv(c, s, ms);
  }

  /** The quota bound, over every run: a day's admitted charges not given back exceed the cap by at most the
      refunds of earlier days' charges that landed on that day and the units that deletions forgot. */
  lemma {:induction false} QuotaBound(c: Config, s: State, acts: seq<Act>, user: string, day: nat)
    requires Inv(c, s) && Legal(c, s, acts)
    ensures Inv(c, Exec(c, s, acts))
    ensures var t := Exec(c, s, acts);
      |Open(t, user, day)| <= c.cap + |FromEarlierDays(t, user, day)| + Forgotten(t, Key(user, day))
    decreases |acts|
  {
    hide Apply, Enabled, Open, FromEarlierDays, Forgotten;
    if acts == [] {
      assert CapOk(c, s, user, day);
    } else {
      StepKeepsInv(c, s, acts[0]);
      QuotaBound(c, Apply(c, s, acts[0]), acts[1..], user, day);
    }
  }

  // ---- Without late refunds ----

  /** Deletions are due, and units forgotten, only on keys that a refund of an earlier day's charge landed on. */
  ghost predicate OnlyLate(s: State) {
    (forall id :: id in s.deleting ==> FromEarlierDays(s, s.deleting[id].user, s.deleting[id].day) != {}) &&
    (forall k: Key :: k in s.forgotten ==> FromEarlierDays(s, k.user, k.day) != {})
  }

  lemma LateRefundsStay(c: Config, s: State, a: Act, user: string, day: nat)
    requires Enabled(s, a)
    ensures FromEarlierDays(s, user, day) <= FromEarlierDays(Apply(c, s, a), user, day)
  {}

  /** A refund that sees a negative counter is late, or a late one landed before it. */
  lemma NegativeMeansLate(c: Config, s: State, id: nat)
    requires Inv(c, s) && Enabled(s, Decr(id)) && Value(s, Today(s, s.charges[id].user)) <= 0
    ensures FromEarlierDays(Apply(c, s, Decr(id)), s.charges[id].user, Day(s.now)) != {} ||
            Forgotten(s, Today(s, s.charges[id].user)) > 0
  {
    hide Open, Rejected, FromEarlierDays, Value, StoreOk, DeletionsOk;
    var user, d := s.charges[id].user, Day(s.now);
    SetsAfterDecr(c, s, id, user, d);
    assert CounterOk(s, user);
    assert s.charges[id].day <= d;
    if s.charges[id].day == d { assert id in Open(s, user, d); }
  }

  lemma StepKeepsOnlyLate(c: Config, s: State, a: Act)
    requires Inv(c, s) && OnlyLate(s) && Enabled(s, a)
    ensures OnlyLate(Apply(c, s, a))
  {
    hide FromEarlierDays, Inv;
    var t := Apply(c, s, a);
    forall user, day ensures FromEarlierDays(s, user, day) <= FromEarlierDays(t, user, day) {
      LateRefundsStay(c, s, a, user, day);
    }
    if a.Decr? && Value(s, Today(s, s.charges[a.id].user)) <= 0 {
      NegativeMeansLate(c, s, a.id);
    }
  }

  lemma {:induction false} RunKeepsOnlyLate(c: Config, s: State, acts: seq<Act>)
    requires Inv(c, s) && OnlyLate(s) && Legal(c, s, acts)
    ensures Inv(c, Exec(c, s, acts)) && OnlyLate(Exec(c, s, acts))
    decreases |acts|
  {
    hide Inv, OnlyLate, Apply, Enabled;
    if acts != [] {
      StepKeepsInv(c, s, acts[0]);
      StepKeepsOnlyLate(c, s, acts[0]);
      RunKeepsOnlyLate(c, Apply(c, s, acts[0]), acts[1..]);
    }
  }

  lemma Runs(c: Config, start: nat, acts: seq<Act>)
    requires Legal(c, Fresh(start), acts)
    ensures Inv(c, Exec(c, Fresh(start), acts)) && OnlyLate(Exec(c, Fresh(start), acts))
  {
    FreshInv(c, start);
    RunKeepsOnlyLate(c, Fresh(start), acts);
  }

  /** Over every run, for every user and day that no refund of an earlier day's charge has landed on: the open
      charges are within the cap, no deletion is due and nothing was forgotten, and today's counter is exactly
      the open and the rejected charges. */
  lemma NoLateRefundKeepsTheCap(c: Config, start: nat, acts: seq<Act>, user: string, day: nat)
    requires Legal(c, Fresh(start), acts) && FromEarlierDays(Exec(c, Fresh(start), acts), user, day) == {}
    ensures var s := Exec(c, Fresh(start), acts);
      |Open(s, user, day)| <= c.cap && Forgotten(s, Key(user, day)) == 0 &&
      (forall id :: id in s.deleting ==> s.deleting[id] != Key(user, day)) &&
      (day == Day(s.now) ==> Value(s, Key(user, day)) == |Open(s, user, day)| + |Rejected(s, user, day)|)
  {
    hide Legal, Exec, Open, Rejected, FromEarlierDays, Value;
    Runs(c, start, acts);
    var s := Exec(c, Fresh(start), acts);
    assert CapOk(c, s, user, day) && CounterOk(s, user);
  }

  // ---- Deletions that are not overtaken ----

  /** While a deletion of this key is due, nobody is charged on it. */
  predicate Undisturbed(c: Config, s: State, acts: seq<Act>, k: Key)
    requires Legal(c, s, acts)
    decreases |acts|
  {
    acts == [] ||
    ((acts[0].Incr? && Today(s, acts[0].user) == k ==> !DeletionDue(s, k)) &&
     Undisturbed(c, Apply(c, s, acts[0]), acts[1..], k))
  }

  predicate DeletionDue(s: State, k: Key) { exists id :: id in s.deleting && s.deleting[id] == k }

  ghost predicate DueIsNegative(s: State, k: Key) { DeletionDue(s, k) ==> Value(s, k) <= 0 }

  lemma UndisturbedStep(c: Config, s: State, a: Act, k: Key)
    requires StoreOk(s) && Enabled(s, a) && DueIsNegative(s, k)
    requires a.Incr? && Today(s, a.user) == k ==> !DeletionDue(s, k)
    ensures DueIsNegative(Apply(c, s, a), k) && Forgotten(Apply(c, s, a), k) == Forgotten(s, k)
  {
    var t := Apply(c, s, a);
    if a.Del? && s.deleting[a.id] == k { assert DeletionDue(s, k); }
    if DeletionDue(t, k) {
      var id :| id in t.deleting && t.deleting[id] == k;
      if id in s.deleting && s.deleting[id] == k { assert DeletionDue(s, k); }
      if a.Decr? && Today(s, s.charges[a.id].user) == k && k in s.store { TodayIsLive(s, k); }
    }
  }

  lemma {:induction false} UndisturbedRun(c: Config, s: State, acts: seq<Act>, k: Key)
    requires Inv(c, s) && Legal(c, s, acts) && Undisturbed(c, s, acts, k) && DueIsNegative(s, k)
    ensures Forgotten(Exec(c, s, acts), k) == Forgotten(s, k)
    decreases |acts|
  {
    hide Apply, Enabled, DueIsNegative, DeletionDue, Forgotten, ChargesOk, DeletionsOk, StoreOk, CounterOk, CapOk;
    if acts != [] {
      UndisturbedStep(c, s, acts[0], k);
      StepKeepsInv(c, s, acts[0]);
      UndisturbedRun(c, Apply(c, s, acts[0]), acts[1..], k);
    }
  }

  /** When no charge slips in between the DECR and the DEL of a refund on a user's day, nothing of that day is
      forgotten, whatever happens to other users and days; so its open charges exceed the cap by at most the
      refunds of earlier days that landed on it. */
  lemma UndisturbedRefundsForgetNothing(c: Config, start: nat, acts: seq<Act>, user: string, day: nat)
    requires Legal(c, Fresh(start), acts) && Undisturbed(c, Fresh(start), acts, Key(user, day))
    ensures var s := Exec(c, Fresh(start), acts);
      Forgotten(s, Key(user, day)) == 0 && |Open(s, user, day)| <= c.cap + |FromEarlierDays(s, user, day)|
  {
    hide Legal, Undisturbed, Exec, Open, FromEarlierDays, Inv;
    FreshInv(c, start);
    UndisturbedRun(c, Fresh(start), acts, Key(user, day));
    QuotaBound(c, Fresh(start), acts, user, day);
  }

  // ---- What a user is told ----

  ghost predicate IdsBelow(s: State, n: nat) { forall id :: id in s.charges ==> id < n }

  function Remaining(c: Config, s: State, user: string): nat {
    if c.cap - Value(s, Today(s, user)) > 0 then c.cap - Value(s, Today(s, user)) else 0
  }

  /** `n` charges of one user, made at once. */
  function Burst(first: nat, n: nat, user: string): seq<Act>
    decreases n
  {
    if n == 0 then [] else [Incr(first, user)] + Burst(first + 1, n - 1, user)
  }

  function Min(a: nat, b: nat): nat { if a <= b then a else b }

  /** The remaining generations are a promise: of the user's next charges exactly that many are admitted. */
  lemma {:induction false} RemainingIsAPromise(c: Config, s: State, first: nat, n: nat, user: string)
    requires StoreOk(s) && ChargesOk(s) && DeletionsOk(s) && IdsBelow(s, first)
    ensures Legal(c, s, Burst(first, n, user))
    ensures |Open(Exec(c, s, Burst(first, n, user)), user, Day(s.now))| ==
      |Open(s, user, Day(s.now))| + Min(n, Remaining(c, s, user))
    decreases n
  {
    hide Open, Rejected, FromEarlierDays, Value, StoreOk, ChargesOk, DeletionsOk;
    if n > 0 {
      var a, rest := Incr(first, user), Burst(first + 1, n - 1, user);
      var t := Apply(c, s, a);
      assert ([a] + rest)[1..] == rest;
      IncrEffect(c, s, first, user);
      SetsAfterIncr(c, s, first, user, user, Day(s.now));
      RemainingIsAPromise(c, t, first + 1, n - 1, user);
    }
  }

  // ---- Where the cap alone is not enough ----

  lemma {:induction false} ExecAppend(c: Config, s: State, xs: seq<Act>, ys: seq<Act>)
    requires Legal(c, s, xs) && Legal(c, Exec(c, s, xs), ys)
    ensures Legal(c, s, xs + ys) && Exec(c, s, xs + ys) == Exec(c, Exec(c, s, xs), ys)
    decreases |xs|
  {
    if xs == [] {
      assert xs + ys == ys;
    } else {
      assert (xs + ys)[1..] == xs[1..] + ys;
      ExecAppend(c, Apply(c, s, xs[0]), xs[1..], ys);
    }
  }

  ghost predicate Reaches(c: Config, s: State, t: State) { exists acts :: Legal(c, s, acts) && Exec(c, s, acts) == t }

  lemma ReachesSelf(c: Config, s: State)
    ensures Reaches(c, s, s)
  {
    assert Legal(c, s, []) && Exec(c, s, []) == s;
  }

  lemma OneMore(c: Config, s: State, t: State, a: Act)
    requires Reaches(c, s, t) && Enabled(t, a)
    ensures Reaches(c, s, Apply(c, t, a))
  {
    var acts :| Legal(c, s, acts) && Exec(c, s, acts) == t;
    assert [a][1..] == [];
    ExecAppend(c, s, acts, [a]);
  }

  // ---- Exactly when a day can be overrun ----

  /** Admitted charges of earlier days not given back: their refunds would be late. */
  ghost function EarlierOpen(s: State, user: string, day: nat): set<nat> {
    set id | id in s.charges && s.charges[id].user == user && s.charges[id].day < day &&
             s.charges[id].admitted && s.charges[id].refundedOn.None?
  }

  lemma EarlierAfterIncr(c: Config, s: State, id: nat, user: string, u: string)
    requires Enabled(s, Incr(id, user))
    ensures EarlierOpen(Apply(c, s, Incr(id, user)), u, Day(s.now)) == EarlierOpen(s, u, Day(s.now))
  {}

  lemma EarlierAfterDecr(c: Config, s: State, id: nat, u: string)
    requires Enabled(s, Decr(id))
    ensures var e := EarlierOpen(s, u, Day(s.now));
      EarlierOpen(Apply(c, s, Decr(id)), u, Day(s.now)) ==
        (if u == s.charges[id].user && s.charges[id].day < Day(s.now) then e - {id} else e)
    ensures s.charges[id].day < Day(s.now) ==> id in EarlierOpen(s, s.charges[id].user, Day(s.now))
  {}

  /** As long as the late refunds still possible are outweighed by the day's rejections, the counter is exact. */
  ghost predicate Balanced(c: Config, s: State, user: string) {
    var d := Day(s.now);
    var late := |FromEarlierDays(s, user, d)|;
    Value(s, Key(user, d)) == |Open(s, user, d)| + |Rejected(s, user, d)| - late &&
    |EarlierOpen(s, user, d)| + late <= |Rejected(s, user, d)| &&
    |Open(s, user, d)| <= c.cap && (forall id :: id in s.deleting ==> s.deleting[id] != Key(user, d))
  }

  lemma BalancedIncr(c: Config, s: State, id: nat, user: string, u: string)
    requires Inv(c, s) && Balanced(c, s, u) && Enabled(s, Incr(id, user))
    ensures Balanced(c, Apply(c, s, Incr(id, user)), u)
  {
    hide Open, Rejected, FromEarlierDays, EarlierOpen, Value, StoreOk, ChargesOk, DeletionsOk;
    IncrEffect(c, s, id, user);
    SetsAfterIncr(c, s, id, user, u, Day(s.now));
    EarlierAfterIncr(c, s, id, user, u);
  }

  lemma BalancedDecr(c: Config, s: State, id: nat, u: string)
    requires Inv(c, s) && Balanced(c, s, u) && Enabled(s, Decr(id))
    ensures Balanced(c, Apply(c, s, Decr(id)), u)
  {
    hide Open, Rejected, FromEarlierDays, EarlierOpen, Value, StoreOk, ChargesOk, DeletionsOk;
    DecrEffect(c, s, id);
    SetsAfterDecr(c, s, id, u, Day(s.now));
    EarlierAfterDecr(c, s, id, u);
  }

  lemma BalancedRest(c: Config, s: State, a: Act, u: string)
    requires Inv(c, s) && Balanced(c, s, u) && Enabled(s, a) && (a.Expire? || a.Del? || a.Tick?)
    requires Day(Apply(c, s, a).now) == Day(s.now)
    ensures Balanced(c, Apply(c, s, a), u)
  {
    var t, k := Apply(c, s, a), Key(u, Day(s.now));
    assert t.charges == s.charges;
    assert Value(t, k) == Value(s, k) by {
      StepKeepsInv(c, s, a);
      if k in s.store { TodayIsLive(s, k); }
      if k in t.store { TodayIsLive(t, k); }
    }
    hide Value, StoreOk, ChargesOk, DeletionsOk;
    assert EarlierOpen(t, u, k.day) == EarlierOpen(s, u, k.day) && Open(t, u, k.day) == Open(s, u, k.day);
    assert Rejected(t, u, k.day) == Rejected(s, u, k.day);
    assert FromEarlierDays(t, u, k.day) == FromEarlierDays(s, u, k.day);
  }

  lemma {:induction false} ClockGoesOn(c: Config, s: State, acts: seq<Act>)
    requires Legal(c, s, acts)
    ensures Exec(c, s, acts).now >= s.now
    decreases |acts|
  {
    if acts != [] { ClockGoesOn(c, Apply(c, s, acts[0]), acts[1..]); }
  }

  lemma {:induction false} BalancedRun(c: Config, s: State, acts: seq<Act>, user: string)
    requires Inv(c, s) && Balanced(c, s, user) && Legal(c, s, acts) && Day(Exec(c, s, acts).now) == Day(s.now)
    ensures Balanced(c, Exec(c, s, acts), user)
    decreases |acts|
  {
    hide Inv, Balanced, Apply, Enabled;
    if acts != [] {
      var a, t := acts[0], Apply(c, s, acts[0]);
      ClockGoesOn(c, t, acts[1..]);
      StepTime(c, s, a);
      DayMonotone(s.now, t.now);
      DayMonotone(t.now, Exec(c, s, acts).now);
      StepKeepsInv(c, s, a);
      match a {
        case Incr(id, u) => BalancedIncr(c, s, id, u, user);
        case Decr(id) => BalancedDecr(c, s, id, user);
        case _ => BalancedRest(c, s, a, user);
      }
      BalancedRun(c, t, acts[1..], user);
    }
  }

  lemma StepTime(c: Config, s: State, a: Act)
    requires Enabled(s, a)
    ensures Apply(c, s, a).now >= s.now
  {}

  /** Before its day is over, some run leaves the user with more open charges than the cap. */
  ghost predicate CanOverrun(c: Config, s: State, user: string) {
    exists t :: Reaches(c, s, t) && Day(t.now) == Day(s.now) && |Open(t, user, Day(s.now))| > c.cap
  }

  lemma {:induction false} SomeBound(ids: set<nat>) returns (n: nat)
    ensures forall id :: id in ids ==> id < n
  {
    if ids == {} {
      n := 0;
    } else {
      var id :| id in ids;
      var m := SomeBound(ids - {id});
      n := if id < m then m else id + 1;
      forall i | i in ids ensures i < n { if i != id { assert i in ids - {id}; } }
    }
  }

  /** Gives back `n` charges of earlier days, one after the other, as long as the counter stays at zero or above. */
  lemma {:induction false} RefundLate(c: Config, s0: State, s: State, user: string, n: nat) returns (t: State)
    requires Inv(c, s) && Reaches(c, s0, s) && n <= |EarlierOpen(s, user, Day(s.now))| && n <= Value(s, Today(s, user))
    ensures Inv(c, t) && Reaches(c, s0, t) && t.now == s.now && t.charges.Keys == s.charges.Keys
    ensures var d := Day(s.now);
      Value(t, Key(user, d)) == Value(s, Key(user, d)) - n && |Open(t, user, d)| == |Open(s, user, d)| &&
      |EarlierOpen(t, user, d)| == |EarlierOpen(s, user, d)| - n
    decreases n
  {
    hide Reaches, Inv, Open, Rejected, FromEarlierDays, EarlierOpen, Value;
    if n == 0 {
      t := s;
    } else {
      var id :| id in EarlierOpen(s, user, Day(s.now));
      assert Refundable(s, id) && s.charges[id].user == user && s.charges[id].day < Day(s.now) by {
        EarlierIsRefundable(s, user, id);
      }
      DecrFromInv(c, s, id);
      EarlierAfterDecr(c, s, id, user);
      SetsAfterDecr(c, s, id, user, Day(s.now));
      StepKeepsInv(c, s, Decr(id));
      OneMore(c, s0, s, Decr(id));
      t := RefundLate(c, s0, Apply(c, s, Decr(id)), user, n - 1);
    }
  }

  lemma EarlierIsRefundable(s: State, user: string, id: nat)
    requires id in EarlierOpen(s, user, Day(s.now))
    ensures Refundable(s, id) && s.charges[id].user == user && s.charges[id].day < Day(s.now)
  {}

  lemma DecrFromInv(c: Config, s: State, id: nat)
    requires Inv(c, s) && Enabled(s, Decr(id))
    ensures var u, d := s.charges[id].user, Day(s.now);
      Value(Apply(c, s, Decr(id)), Key(u, d)) == Value(s, Key(u, d)) - 1 &&
      Apply(c, s, Decr(id)).charges.Keys == s.charges.Keys
  {
    DecrEffect(c, s, id);
    assert Apply(c, s, Decr(id)).charges.Keys == s.charges.Keys;
  }

  /** Exactly when the daily cap can be overrun: from every reachable state, for every user whom no late refund has
      reached today, if and only if the user's unrefunded charges of earlier days outnumber today's rejections. */
  lemma OverrunExactly(c: Config, start: nat, acts: seq<Act>, user: string)
    requires c.cap >= 1 && Legal(c, Fresh(start), acts)
    requires var s := Exec(c, Fresh(start), acts); FromEarlierDays(s, user, Day(s.now)) == {}
    ensures var s := Exec(c, Fresh(start), acts);
      CanOverrun(c, s, user) <==> |EarlierOpen(s, user, Day(s.now))| > |Rejected(s, user, Day(s.now))|
  {
    hide Legal, Exec, Open, Rejected, FromEarlierDays, EarlierOpen, Value, Inv, Reaches;
    var s := Exec(c, Fresh(start), acts);
    Runs(c, start, acts);
    NoLateRefundKeepsTheCap(c, start, acts, user, Day(s.now));
    if |EarlierOpen(s, user, Day(s.now))| > |Rejected(s, user, Day(s.now))| {
      var t := Overrun(c, s, user);
    } else if CanOverrun(c, s, user) {
      var t :| Reaches(c, s, t) && Day(t.now) == Day(s.now) && |Open(t, user, Day(s.now))| > c.cap;
      StaysBalanced(c, s, t, user);
    }
  }

  lemma StaysBalanced(c: Config, s: State, t: State, user: string)
    requires Inv(c, s) && Balanced(c, s, user) && Reaches(c, s, t) && Day(t.now) == Day(s.now)
    ensures |Open(t, user, Day(s.now))| <= c.cap
  {
    hide Inv, Legal, Exec;
    var acts :| Legal(c, s, acts) && Exec(c, s, acts) == t;
    BalancedRun(c, s, acts, user);
  }

  /** One late refund more than there were rejections makes room for one charge more than the cap. */
  lemma Overrun(c: Config, s: State, user: string) returns (t: State)
    requires c.cap >= 1 && Inv(c, s) && |EarlierOpen(s, user, Day(s.now))| > |Rejected(s, user, Day(s.now))|
    requires var d := Day(s.now);
      Value(s, Key(user, d)) == |Open(s, user, d)| + |Rejected(s, user, d)| && |Open(s, user, d)| <= c.cap
    ensures Reaches(c, s, t) && t.now == s.now && |Open(t, user, Day(s.now))| == c.cap + 1
  {
    hide Inv, Open, Rejected, FromEarlierDays, EarlierOpen, Value, Reaches;
    ReachesSelf(c, s);
    var d := Day(s.now);
    var open, rejected := |Open(s, user, d)|, |Rejected(s, user, d)|;
    var first := SomeBound(s.charges.Keys);
    t := RefundLate(c, s, s, user, rejected);
    if open == 0 {
      t := AdmitMany(c, s, t, user, first, 1);
      first := first + 1;
    }
    t := RefundLate(c, s, t, user, 1);
    t := AdmitMany(c, s, t, user, first, c.cap - Value(t, Key(user, d)));
  }

  /** `n` more charges of one user, all admitted. */
  lemma {:induction false} AdmitMany(c: Config, s0: State, s: State, user: string, first: nat, n: nat)
    returns (t: State)
    requires Inv(c, s) && Reaches(c, s0, s) && IdsBelow(s, first) && Value(s, Today(s, user)) + n <= c.cap
    ensures Inv(c, t) && Reaches(c, s0, t) && t.now == s.now && IdsBelow(t, first + n) && t.deleting == s.deleting
    ensures var d := Day(s.now);
      |Open(t, user, d)| == |Open(s, user, d)| + n && |EarlierOpen(t, user, d)| == |EarlierOpen(s, user, d)| &&
      |FromEarlierDays(t, user, d)| == |FromEarlierDays(s, user, d)| &&
      Value(t, Key(user, d)) == Value(s, Key(user, d)) + n
    decreases n
  {
    hide Reaches, Inv, Open, Rejected, FromEarlierDays, EarlierOpen, Value;
    if n == 0 {
      t := s;
    } else {
      var u := Apply(c, s, Incr(first, user));
      OneMore(c, s0, s, Incr(first, user));
      StepKeepsInv(c, s, Incr(first, user));
      IncrFromInv(c, s, first, user);
      SetsAfterIncr(c, s, first, user, user, Day(s.now));
      EarlierAfterIncr(c, s, first, user, user);
      t := AdmitMany(c, s0, u, user, first + 1, n - 1);
    }
  }

  lemma IncrFromInv(c: Config, s: State, id: nat, user: string)
    requires Inv(c, s) && Enabled(s, Incr(id, user))
    ensures var t, was := Apply(c, s, Incr(id, user)), Value(s, Today(s, user));
      Value(t, Today(s, user)) == was + 1 && (t.charges[id].admitted <==> was < c.cap)
  {
    IncrEffect(c, s, id, user);
  }

  // ---- Charges that deletions forget ----

  /** When charges slip in between a late refund's DECR and its DEL, the deletion forgets them: for every
      cap there is a run with one late refund and 2 * cap + 1 open charges. */
  lemma RacingDeleteForgetsCharges(c: Config, user: string) returns (s: State)
    requires c.cap >= 1
    ensures Reaches(c, Fresh(0), s) && |FromEarlierDays(s, user, 1)| == 1 && |Open(s, user, 1)| == 2 * c.cap + 1
  {
    hide Inv, Open, FromEarlierDays, EarlierOpen, Value, Reaches;
    s := LateDecrement(c, user);
    s := AdmitMany(c, Fresh(0), s, user, 1, c.cap + 1);
    s := DeleteCounter(c, Fresh(0), s, user);
    s := AdmitMany(c, Fresh(0), s, user, c.cap + 2, c.cap);
  }

  /** A charge of day 0 whose refund has just taken day 1's missing counter to -1. */
  lemma LateDecrement(c: Config, user: string) returns (s: State)
    requires c.cap >= 1
    ensures Inv(c, s) && Reaches(c, Fresh(0), s) && Day(s.now) == 1 && IdsBelow(s, 1)
    ensures s.deleting == map[0 := Key(user, 1)]
    ensures Value(s, Key(user, 1)) == -1 && |Open(s, user, 1)| == 0 && |FromEarlierDays(s, user, 1)| == 1
  {
    hide Reaches, Inv;
    var s0 := Fresh(0);
    FreshInv(c, 0);
    ReachesSelf(c, s0);
    var s1 := Apply(c, s0, Incr(0, user));
    OneMore(c, s0, s0, Incr(0, user));
    StepKeepsInv(c, s0, Incr(0, user));
    var s2 := Apply(c, s1, Tick(DAY_MS));
    OneMore(c, s0, s1, Tick(DAY_MS));
    StepKeepsInv(c, s1, Tick(DAY_MS));
    s := Apply(c, s2, Decr(0));
    OneMore(c, s0, s2, Decr(0));
    StepKeepsInv(c, s2, Decr(0));
    assert Open(s, user, 1) == {} && FromEarlierDays(s, user, 1) == {0};
  }

  lemma DeleteCounter(c: Config, s0: State, s: State, user: string) returns (t: State)
    requires Inv(c, s) && Reaches(c, s0, s) && s.deleting == map[0 := Key(user, 1)]
    ensures Inv(c, t) && Reaches(c, s0, t) && t.now == s.now && t.charges == s.charges && Value(t, Key(user, 1)) == 0
    ensures |Open(t, user, 1)| == |Open(s, user, 1)| && |FromEarlierDays(t, user, 1)| == |FromEarlierDays(s, user, 1)|
  {
    hide Reaches, Inv;
    t := Apply(c, s, Del(0));
    StepKeepsInv(c, s, Del(0));
    forall k ensures Forgotten(t, k) >= Forgotten(s, k) { DelEffect(c, s, 0, k); }
    StoreOnlyKeepsSets(c, s, t);
    OneMore(c, s0, s, Del(0));
  }

  // ---- The service itself ----

  /** How `consume` ends: it may also throw, when the expiry cannot be set; the unit stays charged. */
  datatype Consumed = Admitted | Capped | Threw

  /** An act of another request than `id`. */
  predicate Others(a: Act, id: nat) { !((a.Incr? || a.Decr? || a.Del?) && a.id == id) }

  class QuotaService {
    const c: Config
    var now: nat
    var store: map<Key, Entry>
    var charges: map<nat, Charge>
    var deleting: map<nat, Key>
    var forgotten: map<Key, nat>

    function World(): State
      reads this
    {
      State(now, store, charges, deleting, forgotten)
    }

    constructor (c: Config, now: nat)
      ensures this.c == c && World() == Fresh(now) && Inv(c, World())
    {
      this.c, this.now, store, charges, deleting, forgotten := c, now, map[], map[], map[], map[];
      new;
      FreshInv(c, now);
    }

    /** Lets other requests' commands run; commands nobody can issue are skipped. */
    method Interleave(id: nat, others: seq<Act>)
      requires id in charges
      modifies this
      ensures Reaches(c, old(World()), World()) && (others == [] ==> World() == old(World()))
      ensures id in charges && charges[id] == old(charges)[id]
      ensures (id in deleting <==> id in old(deleting)) && (id in deleting ==> deleting[id] == old(deleting)[id])
    {
      hide Reaches;
      ReachesSelf(c, World());
      for i := 0 to |others|
        invariant Reaches(c, old(World()), World()) && (i == 0 ==> World() == old(World()))
        invariant id in charges && charges[id] == old(charges)[id]
        invariant (id in deleting <==> id in old(deleting)) && (id in deleting ==> deleting[id] == old(deleting)[id])
      {
        var s := World();
        if Enabled(s, others[i]) && Others(others[i], id) {
          OneMore(c, old(World()), s, others[i]);
          var t := Apply(c, s, others[i]);
          now, store, charges, deleting, forgotten := t.now, t.store, t.charges, t.deleting, t.forgotten;
        }
      }
    }

    /** `expire`, which does nothing when the counter is gone. */
    method SetExpiry(key: Key, ghost start: State)
      requires Reaches(c, start, World())
      modifies this`store
      ensures Reaches(c, start, World())
      ensures !Live(old(World()), key) ==> store == old(store)
      ensures Live(old(World()), key) ==>
        key in store && store == old(store)[key := store[key]] && store[key].value == old(store)[key].value &&
        store[key].expires.Some? && ExpiresWithTheDay(now, store[key].expires.value)
    {
      hide Reaches, ExpiresWithTheDay;
      if Live(World(), key) {
        OneMore(c, start, World(), Expire(key));
        store := store[key := Entry(store[key].value, Some(now + 1_000 * SecondsUntilUtcMidnight(now)))];
      }
    }

    /** `consume`: count first, reject if that went over. The key gets its expiry when it has none; when that
        throws, the request fails with its unit charged. */
    method Consume(id: nat, user: string, expireThrows: bool, others: seq<Act>) returns (r: Consumed)
      requires id !in charges
      modifies this
      ensures Reaches(c, old(World()), World())
      ensures r == Threw <==> expireThrows && Expiry(old(World()), Key(user, Day(old(now)))).None?
      ensures r == Admitted <==> r != Threw && Remaining(c, old(World()), user) > 0
      ensures id in charges && charges[id] == Charge(user, Day(old(now)), Remaining(c, old(World()), user) > 0, None)
      ensures others == [] && r == Threw ==> World() == Apply(c, old(World()), Incr(id, user))
      ensures others == [] && r != Threw ==>
        now == old(now) && deleting == old(deleting) && forgotten == old(forgotten) &&
        charges == old(charges)[id := charges[id]]
      ensures others == [] && r != Threw ==>
        var key := Key(user, Day(now));
        key in store && store == old(store)[key := store[key]] &&
        store[key].value == Value(old(World()), key) + 1 && store[key].expires.Some? &&
        (if Expiry(old(World()), key).Some? then store[key].expires == Expiry(old(World()), key)
         else ExpiresWithTheDay(now, store[key].expires.value))
    {
      hide Reaches, ExpiresWithTheDay;
      ghost var start := World();
      ReachesSelf(c, start);
      var key := Key(user, Day(now));
      OneMore(c, start, start, Incr(id, user));
      var used, ttl := Value(World(), key) + 1, Expiry(World(), key);
      store := store[key := Entry(used, ttl)];
      charges := charges[id := Charge(user, key.day, used <= c.cap, None)];
      if ttl.None? {
        ghost var before := World();
        Interleave(id, others);
        ReachesThrough(c, start, before, World());
        if expireThrows { return Threw; }
        SetExpiry(key, start);
      }
      if used > c.cap { return Capped; }
      return Admitted;
    }

    /** `refund`: give one unit back, and drop a counter that went negative. */
    method GiveBack(id: nat, others: seq<Act>)
      requires Refundable(World(), id) && id !in deleting
      modifies this
      ensures Reaches(c, old(World()), World())
      ensures id in charges && charges[id] == old(charges)[id].(refundedOn := Some(Day(old(now)))) && id !in deleting
      ensures var s, key := old(World()), Key(old(charges)[id].user, Day(old(now)));
        (Value(s, key) > 0 ==> World() == Apply(c, s, Decr(id))) && (Value(s, key) <= 0 ==> Value(World(), key) == 0)
      ensures others == [] ==>
        var t := Apply(c, old(World()), Decr(id));
        World() == if id in t.deleting then Apply(c, t, Del(id)) else t
    {
      hide Reaches;
      ghost var start := World();
      ReachesSelf(c, start);
      var key := Key(charges[id].user, Day(now));
      OneMore(c, start, start, Decr(id));
      var remaining, ttl := Value(World(), key) - 1, Expiry(World(), key);
      store := store[key := Entry(remaining, ttl)];
      charges := charges[id := charges[id].(refundedOn := Some(key.day))];
      if remaining < 0 {
        deleting := deleting[id := key];
        ghost var before := World();
        Interleave(id, others);
        ReachesThrough(c, start, before, World());
        OneMore(c, start, World(), Del(id));
        var found := Value(World(), key);
        if found > 0 { forgotten := forgotten[key := Forgotten(World(), key) + found]; }
        store, deleting := store - {key}, deleting - {id};
      }
    }
  }

  lemma ReachesThrough(c: Config, s: State, t: State, u: State)
    requires Reaches(c, s, t) && Reaches(c, t, u)
    ensures Reaches(c, s, u)
  {
    var xs :| Legal(c, s, xs) && Exec(c, s, xs) == t;
    var ys :| Legal(c, t, ys) && Exec(c, t, ys) == u;
    ExecAppend(c, s, xs, ys);
  }
}
