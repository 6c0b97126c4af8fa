/** The gateway's fixed-window rate limiter, counted in Redis keys that expire by themselves.
    MULTI INCR EXPIRE is one step; a request reads the clock before it and again after it. */
module RateLimit {
  import opened Wrappers

  datatype Class = Auth | Api

  datatype Identity = Ip(address: string) | User(id: string)

  datatype Settings = Settings(authMax: nat, apiMax: nat, window: nat)

  type Config = c: Settings | c.authMax > 0 && c.apiMax > 0 && c.window > 0 witness Settings(20, 300, 60)

  function Limit(c: Config, cls: Class): nat { if cls.Auth? then c.authMax else c.apiMax }

  // ---- Windows ----

  /** Times are milliseconds; the window is configured in seconds. */
  function WindowMs(c: Config): nat { 1_000 * c.window }

  function Bucket(c: Config, at: nat): nat { at / 1_000 / c.window }

  lemma DivideBounds(x: nat, d: nat)
    requires d > 0
    ensures x / d * d <= x < x / d * d + d
  {}

  lemma Regroup(b: nat, w: nat)
    ensures b * (1_000 * w) == 1_000 * (b * w) && (b + 1) * (1_000 * w) == 1_000 * (b * w) + 1_000 * w
  {}

  /** A window runs from one multiple of its length to the next. */
  lemma BucketBounds(c: Config, at: nat)
    ensures Bucket(c, at) * WindowMs(c) <= at < (Bucket(c, at) + 1) * WindowMs(c)
    ensures Bucket(c, at) * c.window <= at / 1_000 < Bucket(c, at) * c.window + c.window
  {
    DivideBounds(at / 1_000, c.window);
    Regroup(Bucket(c, at), c.window);
  }

  lemma Ordered(a: nat, b: nat, w: nat)
    requires a * w < (b + 1) * w
    ensures a <= b
  {
    if a > b { Monotone(b + 1, a, w); }
  }

  lemma Monotone(a: nat, b: nat, w: nat)
    requires a <= b
    ensures a * w <= b * w
  {}

  lemma Next(b: nat, w: nat)
    ensures (b + 1) * w == b * w + w
  {}

  lemma BucketUnique(c: Config, at: nat, b: nat)
    requires b * WindowMs(c) <= at < (b + 1) * WindowMs(c)
    ensures Bucket(c, at) == b
  {
    hide WindowMs, Bucket;
    BucketBounds(c, at);
    Ordered(b, Bucket(c, at), WindowMs(c));
    Ordered(Bucket(c, at), b, WindowMs(c));
  }

  lemma BucketsGrow(c: Config, a: nat, b: nat)
    requires a <= b
    ensures Bucket(c, a) <= Bucket(c, b)
  {
    hide WindowMs, Bucket;
    BucketBounds(c, a);
    BucketBounds(c, b);
    Ordered(Bucket(c, a), Bucket(c, b), WindowMs(c));
  }

  /** An interval of one window's length meets at most two windows. */
  lemma TwoWindowsAtMost(c: Config, lo: nat, at: nat)
    requires lo <= at < lo + WindowMs(c)
    ensures Bucket(c, at) == Bucket(c, lo) || Bucket(c, at) == Bucket(c, lo) + 1
  {
    hide WindowMs, Bucket;
    BucketsGrow(c, lo, at);
    BucketBounds(c, lo);
    BucketBounds(c, at);
    Next(Bucket(c, lo) + 1, WindowMs(c));
    Ordered(Bucket(c, at), Bucket(c, lo) + 1, WindowMs(c));
  }

  // ---- The counters ----

  datatype Key = Key(cls: Class, identity: Identity, bucket: nat)

  datatype Entry = Entry(value: nat, expires: nat)

  /** A counted request: its key, when it was counted, and what came of it. */
  datatype Arrival = Arrival(key: Key, at: nat, used: nat, allowed: bool)

  datatype State = State(now: nat, store: map<Key, Entry>, log: seq<Arrival>)

  function Fresh(now: nat): State { State(now, map[], []) }

  predicate Live(s: State, k: Key) { k in s.store && s.now < s.store[k].expires }

  /** What INCR finds; an expired key counts as missing. */
  function Value(s: State, k: Key): nat { if Live(s, k) then s.store[k].value else 0 }

  /** A request that read the clock at `readAt` is counted now. */
  datatype Act = Request(cls: Class, identity: Identity, readAt: nat) | Tick(ms: nat)

  predicate Enabled(s: State, a: Act) { a.Request? ==> a.readAt <= s.now }

  function KeyOf(c: Config, a: Act): Key
    requires a.Request?
  {
    Key(a.cls, a.identity, Bucket(c, a.readAt))
  }

  function Apply(c: Config, s: State, a: Act): State {
    match a
    case Tick(ms) => s.(now := s.now + ms)
    case Request(cls, identity, readAt) =>
      var k := KeyOf(c, a);
      var used := Value(s, k) + 1;
      State(s.now, s.store[k := Entry(used, s.now + WindowMs(c))],
            s.log + [Arrival(k, s.now, used, used <= Limit(c, cls))])
  }

  predicate Legal(c: Config, s: State, acts: seq<Act>)
    decreases |acts|
  {
    acts == [] || (Enabled(s, acts[0]) && Legal(c, Apply(c, s, acts[0]), acts[1..]))
  }

  function Exec(c: Config, s: State, acts: seq<Act>): State
    decreases |acts|
  {
    if acts == [] then s else Exec(c, Apply(c, s, acts[0]), acts[1..])
  }

  /** Every request is counted in the window it chose. */
  predicate Prompt(c: Config, s: State, acts: seq<Act>)
    decreases |acts|
  {
    acts == [] ||
    (Enabled(s, acts[0]) && (acts[0].Request? ==> Bucket(c, acts[0].readAt) == Bucket(c, s.now)) &&
     Prompt(c, Apply(c, s, acts[0]), acts[1..]))
  }

  // ---- What the log says ----

  function Count(log: seq<Arrival>, k: Key): nat {
    if log == [] then 0
    else Count(log[..|log| - 1], k) + (if log[|log| - 1].key == k then 1 else 0)
  }

  function Admitted(log: seq<Arrival>, k: Key): nat {
    if log == [] then 0
    else Admitted(log[..|log| - 1], k) + (if log[|log| - 1].key == k && log[|log| - 1].allowed then 1 else 0)
  }

  predicate Between(a: Arrival, cls: Class, identity: Identity, lo: nat, hi: nat) {
    a.key.cls == cls && a.key.identity == identity && a.allowed && lo <= a.at < hi
  }

  function AdmittedBetween(log: seq<Arrival>, cls: Class, identity: Identity, lo: nat, hi: nat): nat {
    if log == [] then 0
    else
      var last := if Between(log[|log| - 1], cls, identity, lo, hi) then 1 else 0;
      AdmittedBetween(log[..|log| - 1], cls, identity, lo, hi) + last
  }

  /** How often the counting of a key started at one. */
  function Starts(log: seq<Arrival>, k: Key): nat {
    if log == [] then 0
    else Starts(log[..|log| - 1], k) + (if log[|log| - 1].key == k && log[|log| - 1].used == 1 then 1 else 0)
  }

  /** When a key was last counted. */
  function Last(log: seq<Arrival>, k: Key): nat {
    if log == [] then 0
    else if log[|log| - 1].key == k then log[|log| - 1].at
    else Last(log[..|log| - 1], k)
  }

  lemma LogGrows(log: seq<Arrival>, a: Arrival, k: Key)
    ensures Count(log + [a], k) == Count(log, k) + (if a.key == k then 1 else 0)
    ensures Admitted(log + [a], k) == Admitted(log, k) + (if a.key == k && a.allowed then 1 else 0)
    ensures Starts(log + [a], k) == Starts(log, k) + (if a.key == k && a.used == 1 then 1 else 0)
    ensures Last(log + [a], k) == if a.key == k then a.at else Last(log, k)
  {
    assert (log + [a])[..|log|] == log;
  }

  // ---- What every run keeps ----

  /** A key lives one window past its last request, whatever its own window. */
  ghost predicate TtlOk(c: Config, s: State) {
    forall k :: (k in s.store <==> Count(s.log, k) > 0) &&
                (k in s.store ==> 0 < s.store[k].value && s.store[k].expires == Last(s.log, k) + WindowMs(c))
  }

  lemma StepKeepsTtl(c: Config, s: State, a: Act)
    requires TtlOk(c, s) && Enabled(s, a)
    ensures TtlOk(c, Apply(c, s, a))
  {
    hide Bucket, WindowMs, Count, Last, Admitted, Value;
    if a.Request? {
      var t := Apply(c, s, a);
      forall k ensures Count(t.log, k) == Count(s.log, k) + (if KeyOf(c, a) == k then 1 else 0) &&
                       Last(t.log, k) == if KeyOf(c, a) == k then s.now else Last(s.log, k) {
        LogGrows(s.log, t.log[|s.log|], k);
      }
    }
  }

  lemma {:induction false} RunKeepsTtl(c: Config, s: State, acts: seq<Act>)
    requires TtlOk(c, s) && Legal(c, s, acts)
    ensures TtlOk(c, Exec(c, s, acts))
    decreases |acts|
  {
    hide TtlOk, Apply;
    if acts != [] {
      StepKeepsTtl(c, s, acts[0]);
      RunKeepsTtl(c, Apply(c, s, acts[0]), acts[1..]);
    }
  }

  lemma FreshOk(c: Config, now: nat)
    ensures TtlOk(c, Fresh(now)) && CountsOk(c, Fresh(now))
  {}

  /** Exactly when counting starts over: a full window has passed since the key was last counted. */
  lemma CountStartsOverWhenLate(c: Config, start: nat, acts: seq<Act>, a: Act)
    requires Legal(c, Fresh(start), acts) && a.Request? && Enabled(Exec(c, Fresh(start), acts), a)
    requires Count(Exec(c, Fresh(start), acts).log, KeyOf(c, a)) > 0
    ensures
      var s := Exec(c, Fresh(start), acts);
      var t := Apply(c, s, a);
      t.log[|s.log|].used == 1 <==> s.now >= Last(s.log, KeyOf(c, a)) + WindowMs(c)
  {
    hide Bucket, WindowMs, Count, Last, Legal, Exec;
    FreshOk(c, start);
    RunKeepsTtl(c, Fresh(start), acts);
  }

  // ---- Exactly when a window's count is right ----

  function Min(a: nat, b: nat): nat { if a <= b then a else b }

  /** What a key's counter, arrivals, admissions and starts have to do with each other in every run. */
  ghost predicate KeyCounted(c: Config, s: State, k: Key) {
    var starts, count, admitted, limit := Starts(s.log, k), Count(s.log, k), Admitted(s.log, k), Limit(c, k.cls);
    (k !in s.store ==> starts == 0 && count == 0 && admitted == 0) &&
    (k in s.store ==>
      starts >= 1 && 1 <= s.store[k].value <= count &&
      admitted <= (starts - 1) * limit + Min(s.store[k].value, limit) &&
      (if starts == 1 then s.store[k].value == count && admitted == Min(count, limit)
       else s.store[k].value < count && admitted <= count && admitted >= Min(count, limit + 1)))
  }

  lemma OneMoreStart(starts: nat, limit: nat)
    requires starts >= 1
    ensures starts * limit == (starts - 1) * limit + limit
  {}

  lemma StepKeepsCounted(c: Config, s: State, a: Act, k: Key)
    requires KeyCounted(c, s, k) && Enabled(s, a)
    ensures KeyCounted(c, Apply(c, s, a), k)
  {
    hide Bucket, WindowMs, Count, Admitted, Starts, Last;
    if a.Request? {
      LogGrows(s.log, Apply(c, s, a).log[|s.log|], k);
      if k in s.store { OneMoreStart(Starts(s.log, k), Limit(c, k.cls)); }
    }
  }

  lemma {:induction false} RunKeepsCounted(c: Config, s: State, acts: seq<Act>, k: Key)
    requires KeyCounted(c, s, k) && Legal(c, s, acts)
    ensures KeyCounted(c, Exec(c, s, acts), k)
    decreases |acts|
  {
    hide KeyCounted, Apply, Enabled;
    if acts != [] {
      StepKeepsCounted(c, s, acts[0], k);
      RunKeepsCounted(c, Apply(c, s, acts[0]), acts[1..], k);
    }
  }

  /** In every run, an identity and class is admitted min(arrivals, limit) times in a window exactly when the
      window's count started only once or its arrivals fit the limit anyway. Otherwise it is admitted more often than
      the limit, though never more than the limit for each start. CountStartsOverWhenLate says when counting
      starts again. */
  lemma WindowIsExact(c: Config, start: nat, acts: seq<Act>, k: Key)
    requires Legal(c, Fresh(start), acts)
    ensures var log := Exec(c, Fresh(start), acts).log;
      (Admitted(log, k) == Min(Count(log, k), Limit(c, k.cls)) <==>
       Starts(log, k) <= 1 || Count(log, k) <= Limit(c, k.cls)) &&
      (Admitted(log, k) > Limit(c, k.cls) <==> Starts(log, k) > 1 && Count(log, k) > Limit(c, k.cls)) &&
      Admitted(log, k) <= Starts(log, k) * Limit(c, k.cls)
  {
    hide Legal, Exec, Count, Admitted, Starts;
    CountedFromTheStart(c, start, k);
    RunKeepsCounted(c, Fresh(start), acts, k);
    var s := Exec(c, Fresh(start), acts);
    if k in s.store { OneMoreStart(Starts(s.log, k), Limit(c, k.cls)); }
  }

  lemma CountedFromTheStart(c: Config, start: nat, k: Key)
    ensures KeyCounted(c, Fresh(start), k)
  {}

  // ---- What prompt runs keep ----

  /** The counter is the number of arrivals, and it outlives its window. */
  ghost predicate KeyOk(c: Config, s: State, k: Key) {
    (k in s.store ==> s.store[k].value == Count(s.log, k) && (k.bucket + 1) * WindowMs(c) <= s.store[k].expires) &&
    (k !in s.store ==> Count(s.log, k) == 0) &&
    Admitted(s.log, k) == Min(Count(s.log, k), Limit(c, k.cls))
  }

  ghost predicate CountsOk(c: Config, s: State) {
    (forall k :: KeyOk(c, s, k)) &&
    (forall i :: 0 <= i < |s.log| ==> s.log[i].at <= s.now && Bucket(c, s.log[i].at) == s.log[i].key.bucket)
  }

  lemma ValueIsCount(c: Config, s: State, k: Key)
    requires KeyOk(c, s, k) && Bucket(c, s.now) == k.bucket
    ensures Value(s, k) == Count(s.log, k)
    ensures k in s.store ==> Live(s, k)
  {
    hide Bucket, WindowMs, Count, Admitted;
    BucketBounds(c, s.now);
  }

  lemma StepKeepsKey(c: Config, s: State, a: Act, k: Key)
    requires KeyOk(c, s, k) && a.Request? && Bucket(c, a.readAt) == Bucket(c, s.now)
    ensures KeyOk(c, Apply(c, s, a), k)
  {
    hide Bucket, WindowMs, Count, Admitted, Value, Last;
    var t := Apply(c, s, a);
    LogGrows(s.log, t.log[|s.log|], k);
    if k == KeyOf(c, a) {
      ValueIsCount(c, s, k);
      BucketBounds(c, s.now);
      Next(k.bucket, WindowMs(c));
    }
  }

  lemma {:induction false} RunKeepsCounts(c: Config, s: State, acts: seq<Act>)
    requires CountsOk(c, s) && Prompt(c, s, acts)
    ensures CountsOk(c, Exec(c, s, acts))
    decreases |acts|
  {
    hide KeyOk, Bucket, Value, WindowMs;
    if acts != [] {
      var t := Apply(c, s, acts[0]);
      forall k ensures KeyOk(c, t, k) {
        if acts[0].Request? { StepKeepsKey(c, s, acts[0], k); } else { TickKeepsKey(c, s, acts[0], k); }
      }
      RunKeepsCounts(c, t, acts[1..]);
    }
  }

  lemma TickKeepsKey(c: Config, s: State, a: Act, k: Key)
    requires KeyOk(c, s, k) && a.Tick?
    ensures KeyOk(c, Apply(c, s, a), k)
  {}

  lemma PromptRuns(c: Config, start: nat, acts: seq<Act>)
    requires Prompt(c, Fresh(start), acts)
    ensures CountsOk(c, Exec(c, Fresh(start), acts))
  {
    FreshOk(c, start);
    RunKeepsCounts(c, Fresh(start), acts);
  }

  lemma AllPromptIsExact(c: Config, start: nat, acts: seq<Act>, k: Key)
    requires Prompt(c, Fresh(start), acts)
    ensures var log := Exec(c, Fresh(start), acts).log; Admitted(log, k) == Min(Count(log, k), Limit(c, k.cls))
  {
    hide Prompt, Exec, Count, Admitted;
    PromptRuns(c, start, acts);
    assert KeyOk(c, Exec(c, Fresh(start), acts), k);
  }

  lemma AllPromptNeverExpires(c: Config, start: nat, acts: seq<Act>, k: Key)
    requires Prompt(c, Fresh(start), acts)
    ensures
      var s := Exec(c, Fresh(start), acts);
      Bucket(c, s.now) == k.bucket && Count(s.log, k) > 0 ==> Live(s, k) && s.store[k].value == Count(s.log, k)
  {
    hide Prompt, Exec, Count, Admitted, Bucket;
    PromptRuns(c, start, acts);
    var s := Exec(c, Fresh(start), acts);
    assert KeyOk(c, s, k);
    if Bucket(c, s.now) == k.bucket { ValueIsCount(c, s, k); }
  }

  lemma {:induction false} IntervalMeetsTwoWindows(c: Config, log: seq<Arrival>, cls: Class, identity: Identity,
                                                   lo: nat)
    requires forall i :: 0 <= i < |log| ==> Bucket(c, log[i].at) == log[i].key.bucket
    ensures AdmittedBetween(log, cls, identity, lo, lo + WindowMs(c)) <=
            Admitted(log, Key(cls, identity, Bucket(c, lo))) + Admitted(log, Key(cls, identity, Bucket(c, lo) + 1))
  {
    hide Bucket, WindowMs;
    if log != [] {
      IntervalMeetsTwoWindows(c, log[..|log| - 1], cls, identity, lo);
      var a := log[|log| - 1];
      if Between(a, cls, identity, lo, lo + WindowMs(c)) { TwoWindowsAtMost(c, lo, a.at); }
    }
  }

  lemma AllPromptSlides(c: Config, start: nat, acts: seq<Act>, cls: Class, identity: Identity, lo: nat)
    requires Prompt(c, Fresh(start), acts)
    ensures AdmittedBetween(Exec(c, Fresh(start), acts).log, cls, identity, lo, lo + WindowMs(c)) <= 2 * Limit(c, cls)
  {
    hide Prompt, Exec, Count, Admitted, Bucket, AdmittedBetween, WindowMs;
    PromptRuns(c, start, acts);
    var s := Exec(c, Fresh(start), acts);
    assert KeyOk(c, s, Key(cls, identity, Bucket(c, lo))) && KeyOk(c, s, Key(cls, identity, Bucket(c, lo) + 1));
    IntervalMeetsTwoWindows(c, s.log, cls, identity, lo);
  }

  // ---- The bounds are the best possible, and promptness is needed ----

  predicate PromptAct(c: Config, s: State, a: Act) {
    Enabled(s, a) && (a.Request? ==> Bucket(c, a.readAt) == Bucket(c, s.now))
  }

  lemma OneStep(c: Config, s: State, a: Act, rest: seq<Act>)
    ensures Exec(c, s, [a] + rest) == Exec(c, Apply(c, s, a), rest)
    ensures Legal(c, s, [a] + rest) <==> Enabled(s, a) && Legal(c, Apply(c, s, a), rest)
    ensures Prompt(c, s, [a] + rest) <==> PromptAct(c, s, a) && Prompt(c, Apply(c, s, a), rest)
  {
    hide Apply, Bucket, Enabled;
    assert ([a] + rest)[1..] == rest;
  }

  lemma {:induction false} RunThen(c: Config, s: State, xs: seq<Act>, ys: seq<Act>)
    ensures Exec(c, s, xs + ys) == Exec(c, Exec(c, s, xs), ys)
    ensures Legal(c, s, xs + ys) <==> Legal(c, s, xs) && Legal(c, Exec(c, s, xs), ys)
    ensures Prompt(c, s, xs + ys) <==> Prompt(c, s, xs) && Prompt(c, Exec(c, s, xs), ys)
    decreases |xs|
  {
    hide Apply, Bucket, Enabled;
    if xs == [] {
      assert xs + ys == ys;
    } else {
      assert (xs + ys)[1..] == xs[1..] + ys;
      RunThen(c, Apply(c, s, xs[0]), xs[1..], ys);
    }
  }

  function Repeat(a: Act, n: nat): seq<Act> { if n == 0 then [] else [a] + Repeat(a, n - 1) }

  lemma BetweenGrows(log: seq<Arrival>, a: Arrival, cls: Class, identity: Identity, lo: nat, hi: nat)
    ensures AdmittedBetween(log + [a], cls, identity, lo, hi) ==
            AdmittedBetween(log, cls, identity, lo, hi) + (if Between(a, cls, identity, lo, hi) then 1 else 0)
  {
    hide Between;
    assert (log + [a])[..|log|] == log;
  }

  /** `n` requests at once, within the limit: all are admitted. */
  lemma {:induction false} Burst(c: Config, s: State, a: Act, n: nat, lo: nat, hi: nat)
    requires a.Request? && Enabled(s, a) && Value(s, KeyOf(c, a)) + n <= Limit(c, a.cls)
    ensures Legal(c, s, Repeat(a, n)) && (Bucket(c, a.readAt) == Bucket(c, s.now) ==> Prompt(c, s, Repeat(a, n)))
    ensures var t, k := Exec(c, s, Repeat(a, n)), KeyOf(c, a);
      t.now == s.now && Admitted(t.log, k) == Admitted(s.log, k) + n &&
      (forall j :: j != k ==> (j in t.store <==> j in s.store)) &&
      (n > 0 ==> k in t.store && t.store[k].expires == s.now + WindowMs(c)) &&
      AdmittedBetween(t.log, a.cls, a.identity, lo, hi) ==
        AdmittedBetween(s.log, a.cls, a.identity, lo, hi) + (if lo <= s.now < hi then n else 0)
    decreases n
  {
    hide Bucket, Admitted, AdmittedBetween, Count, Last, Starts;
    if n > 0 {
      var t, k := Apply(c, s, a), KeyOf(c, a);
      LogGrows(s.log, t.log[|s.log|], k);
      BetweenGrows(s.log, t.log[|s.log|], a.cls, a.identity, lo, hi);
      Burst(c, t, a, n - 1, lo, hi);
      OneStep(c, s, a, Repeat(a, n - 1));
    }
  }

  /** After `ms` milliseconds in which nothing happens, as many requests of one client as the limit allows. */
  function Volley(c: Config, ms: nat, a: Act): seq<Act>
    requires a.Request?
  {
    [Tick(ms)] + Repeat(a, Limit(c, a.cls))
  }

  lemma VolleyIsAdmitted(c: Config, s: State, ms: nat, a: Act, lo: nat, hi: nat)
    requires a.Request? && a.readAt <= s.now + ms && !Live(s.(now := s.now + ms), KeyOf(c, a))
    ensures Legal(c, s, Volley(c, ms, a))
    ensures (Bucket(c, a.readAt) == Bucket(c, s.now + ms) ==> Prompt(c, s, Volley(c, ms, a)))
    ensures var t, k := Exec(c, s, Volley(c, ms, a)), KeyOf(c, a);
      t.now == s.now + ms && Admitted(t.log, k) == Admitted(s.log, k) + Limit(c, a.cls) &&
      (forall j :: j != k ==> (j in t.store <==> j in s.store)) && k in t.store &&
      t.store[k].expires == t.now + WindowMs(c) &&
      AdmittedBetween(t.log, a.cls, a.identity, lo, hi) ==
        AdmittedBetween(s.log, a.cls, a.identity, lo, hi) + (if lo <= t.now < hi then Limit(c, a.cls) else 0)
  {
    hide Bucket, AdmittedBetween, Admitted, WindowMs;
    var t := Apply(c, s, Tick(ms));
    Burst(c, t, a, Limit(c, a.cls), lo, hi);
    OneStep(c, s, Tick(ms), Repeat(a, Limit(c, a.cls)));
  }

  lemma NothingYet(cls: Class, identity: Identity, lo: nat, hi: nat)
    ensures AdmittedBetween([], cls, identity, lo, hi) == 0 && forall k :: Admitted([], k) == 0
  {}

  /** Twice the limit is reached within a millisecond of a window's edge, for every limit, class and identity. */
  lemma TwiceTheLimitIsReached(c: Config, cls: Class, identity: Identity) returns (acts: seq<Act>)
    ensures Prompt(c, Fresh(0), acts)
    ensures AdmittedBetween(Exec(c, Fresh(0), acts).log, cls, identity, WindowMs(c) - 1, WindowMs(c) + 1) ==
      2 * Limit(c, cls)
  {
    var w := WindowMs(c);
    var first, second := Request(cls, identity, w - 1), Request(cls, identity, w);
    BucketUnique(c, w - 1, 0);
    BucketUnique(c, w, 1);
    hide Exec, Prompt, Legal, Bucket, AdmittedBetween, Admitted, Volley, Apply;
    NothingYet(cls, identity, w - 1, w + 1);
    VolleyIsAdmitted(c, Fresh(0), w - 1, first, w - 1, w + 1);
    var s1 := Exec(c, Fresh(0), Volley(c, w - 1, first));
    assert KeyOf(c, first).bucket == 0 && KeyOf(c, second).bucket == 1 && KeyOf(c, second) !in s1.store;
    hide WindowMs, Limit, KeyOf;
    VolleyIsAdmitted(c, s1, 1, second, w - 1, w + 1);
    acts := Volley(c, w - 1, first) + Volley(c, 1, second);
    RunThen(c, Fresh(0), Volley(c, w - 1, first), Volley(c, 1, second));
  }

  /** Requests that read the clock in one window and are counted after it can be admitted over the limit, for every
      limit, class and identity: the counter they should have met has expired. */
  lemma LateCountOverAdmits(c: Config, cls: Class, identity: Identity) returns (acts: seq<Act>)
    ensures Legal(c, Fresh(0), acts)
    ensures Admitted(Exec(c, Fresh(0), acts).log, Key(cls, identity, 0)) == 2 * Limit(c, cls)
  {
    var w := WindowMs(c);
    var first, second := Request(cls, identity, 0), Request(cls, identity, w - 1);
    BucketUnique(c, 0, 0);
    BucketUnique(c, w - 1, 0);
    hide Exec, Prompt, Legal, Bucket, AdmittedBetween, Admitted, Volley, Apply;
    NothingYet(cls, identity, 0, 0);
    VolleyIsAdmitted(c, Fresh(0), 0, first, 0, 0);
    VolleyIsAdmitted(c, Exec(c, Fresh(0), Volley(c, 0, first)), w, second, 0, 0);
    acts := Volley(c, 0, first) + Volley(c, w, second);
    RunThen(c, Fresh(0), Volley(c, 0, first), Volley(c, w, second));
  }

  // ---- Other clients ----

  predicate Concerns(a: Act, cls: Class, identity: Identity) { a.Tick? || (a.cls == cls && a.identity == identity) }

  /** The run with other clients' requests left out. */
  function Own(acts: seq<Act>, cls: Class, identity: Identity): seq<Act> {
    if acts == [] then []
    else (if Concerns(acts[0], cls, identity) then [acts[0]] else []) + Own(acts[1..], cls, identity)
  }

  function OwnLog(log: seq<Arrival>, cls: Class, identity: Identity): seq<Arrival> {
    if log == [] then []
    else OwnLog(log[..|log| - 1], cls, identity) +
         (if log[|log| - 1].key.cls == cls && log[|log| - 1].key.identity == identity then [log[|log| - 1]] else [])
  }

  /** Two states one client cannot tell apart. */
  ghost predicate SameFor(s: State, t: State, cls: Class, identity: Identity) {
    s.now == t.now && OwnLog(s.log, cls, identity) == OwnLog(t.log, cls, identity) &&
    forall b :: SameEntry(s, t, Key(cls, identity, b))
  }

  predicate SameEntry(s: State, t: State, k: Key) {
    Value(s, k) == Value(t, k) && (Live(s, k) <==> Live(t, k)) &&
    (Live(s, k) && Live(t, k) ==> s.store[k] == t.store[k])
  }

  lemma OwnLogGrows(log: seq<Arrival>, a: Arrival, cls: Class, identity: Identity)
    ensures OwnLog(log + [a], cls, identity) ==
      OwnLog(log, cls, identity) + (if a.key.cls == cls && a.key.identity == identity then [a] else [])
  {
    assert (log + [a])[..|log|] == log;
  }

  lemma StepStaysSame(c: Config, s: State, t: State, a: Act, cls: Class, identity: Identity)
    requires SameFor(s, t, cls, identity)
    ensures SameFor(Apply(c, s, a), if Concerns(a, cls, identity) then Apply(c, t, a) else t, cls, identity)
  {
    hide Bucket, WindowMs, OwnLog;
    if a.Request? {
      OwnLogGrows(s.log, Apply(c, s, a).log[|s.log|], cls, identity);
      OwnLogGrows(t.log, Apply(c, t, a).log[|t.log|], cls, identity);
    }
  }

  lemma {:induction false} RunStaysSame(c: Config, s: State, t: State, acts: seq<Act>, cls: Class, identity: Identity)
    requires SameFor(s, t, cls, identity)
    ensures SameFor(Exec(c, s, acts), Exec(c, t, Own(acts, cls, identity)), cls, identity)
    decreases |acts|
  {
    hide SameFor, Apply;
    if acts != [] {
      var a, rest := acts[0], Own(acts[1..], cls, identity);
      StepStaysSame(c, s, t, a, cls, identity);
      if Concerns(a, cls, identity) {
        RunStaysSame(c, Apply(c, s, a), Apply(c, t, a), acts[1..], cls, identity);
        OneStep(c, t, a, rest);
      } else {
        RunStaysSame(c, Apply(c, s, a), t, acts[1..], cls, identity);
        assert Own(acts, cls, identity) == [] + rest == rest;
      }
    }
  }

  /** One noisy client cannot spend another's allowance: leaving everybody else's requests out of a run
      changes nothing about what happens to a client's own. */
  lemma OthersDoNotMatter(c: Config, start: nat, acts: seq<Act>, cls: Class, identity: Identity)
    ensures OwnLog(Exec(c, Fresh(start), acts).log, cls, identity) ==
            OwnLog(Exec(c, Fresh(start), Own(acts, cls, identity)).log, cls, identity)
  {
    hide OwnLog, Exec, Own;
    assert SameFor(Fresh(start), Fresh(start), cls, identity);
    RunStaysSame(c, Fresh(start), Fresh(start), acts, cls, identity);
  }

  // ---- One client whose requests are prompt ----

  /** The client's own requests are counted in the windows they chose; other clients' may be late. */
  predicate PromptFor(c: Config, s: State, acts: seq<Act>, cls: Class, identity: Identity)
    decreases |acts|
  {
    acts == [] ||
    ((Concerns(acts[0], cls, identity) ==> PromptAct(c, s, acts[0])) &&
     PromptFor(c, Apply(c, s, acts[0]), acts[1..], cls, identity))
  }

  lemma {:induction false} OwnIsPrompt(c: Config, s: State, t: State, acts: seq<Act>, cls: Class, identity: Identity)
    requires s.now == t.now && PromptFor(c, s, acts, cls, identity)
    ensures Prompt(c, t, Own(acts, cls, identity))
    decreases |acts|
  {
    hide Bucket, WindowMs, Value;
    if acts != [] {
      var a, rest := acts[0], Own(acts[1..], cls, identity);
      if Concerns(a, cls, identity) {
        OwnIsPrompt(c, Apply(c, s, a), Apply(c, t, a), acts[1..], cls, identity);
        OneStep(c, t, a, rest);
      } else {
        OwnIsPrompt(c, Apply(c, s, a), t, acts[1..], cls, identity);
        assert Own(acts, cls, identity) == [] + rest == rest;
      }
    }
  }

  /** A client's counts can be read off its own log. */
  lemma {:induction false} CountsInOwnLog(log: seq<Arrival>, k: Key, lo: nat, hi: nat)
    ensures var own := OwnLog(log, k.cls, k.identity);
      Count(own, k) == Count(log, k) && Admitted(own, k) == Admitted(log, k) &&
      AdmittedBetween(own, k.cls, k.identity, lo, hi) == AdmittedBetween(log, k.cls, k.identity, lo, hi)
  {
    if log != [] {
      var init, last := log[..|log| - 1], log[|log| - 1];
      CountsInOwnLog(init, k, lo, hi);
      var own := OwnLog(init, k.cls, k.identity);
      LogGrows(own, last, k);
      BetweenGrows(own, last, k.cls, k.identity, lo, hi);
      assert own + [] == own;
    }
  }

  /** A client whose requests are prompt fares as in a run of its own requests only, which is prompt. */
  lemma AsIfAlone(c: Config, start: nat, acts: seq<Act>, k: Key, lo: nat, hi: nat)
    requires PromptFor(c, Fresh(start), acts, k.cls, k.identity)
    ensures var own := Own(acts, k.cls, k.identity);
      var s, t := Exec(c, Fresh(start), acts), Exec(c, Fresh(start), own);
      Prompt(c, Fresh(start), own) && SameFor(s, t, k.cls, k.identity) &&
      Count(s.log, k) == Count(t.log, k) && Admitted(s.log, k) == Admitted(t.log, k) &&
      AdmittedBetween(s.log, k.cls, k.identity, lo, hi) == AdmittedBetween(t.log, k.cls, k.identity, lo, hi)
  {
    hide OwnLog, Exec, Own, Prompt, PromptFor, Count, Admitted, AdmittedBetween, Value;
    OwnIsPrompt(c, Fresh(start), Fresh(start), acts, k.cls, k.identity);
    assert SameFor(Fresh(start), Fresh(start), k.cls, k.identity);
    RunStaysSame(c, Fresh(start), Fresh(start), acts, k.cls, k.identity);
    CountsInOwnLog(Exec(c, Fresh(start), acts).log, k, lo, hi);
    CountsInOwnLog(Exec(c, Fresh(start), Own(acts, k.cls, k.identity)).log, k, lo, hi);
  }

  /** A client whose requests are counted in the windows they chose is admitted exactly min(arrivals, limit) times in
      each window, however late other clients' requests are. */
  lemma PromptWindowIsExact(c: Config, start: nat, acts: seq<Act>, k: Key)
    requires PromptFor(c, Fresh(start), acts, k.cls, k.identity)
    ensures var log := Exec(c, Fresh(start), acts).log; Admitted(log, k) == Min(Count(log, k), Limit(c, k.cls))
  {
    hide Exec, Own, Prompt, PromptFor, Count, Admitted, AdmittedBetween, SameFor;
    AsIfAlone(c, start, acts, k, 0, 0);
    AllPromptIsExact(c, start, Own(acts, k.cls, k.identity), k);
  }

  /** No counter of such a client expires inside its own window. */
  lemma NoExpiryInsideTheWindow(c: Config, start: nat, acts: seq<Act>, k: Key)
    requires PromptFor(c, Fresh(start), acts, k.cls, k.identity)
    ensures
      var s := Exec(c, Fresh(start), acts);
      Bucket(c, s.now) == k.bucket && Count(s.log, k) > 0 ==> Live(s, k) && s.store[k].value == Count(s.log, k)
  {
    hide Exec, Own, Prompt, PromptFor, Count, Admitted, AdmittedBetween, Bucket, OwnLog, Value;
    AsIfAlone(c, start, acts, k, 0, 0);
    AllPromptNeverExpires(c, start, Own(acts, k.cls, k.identity), k);
    var b := k.bucket;
    assert k == Key(k.cls, k.identity, b);
  }

  /** Such a client is admitted at most twice the limit in any interval of one window's length. */
  lemma SlidingBound(c: Config, start: nat, acts: seq<Act>, cls: Class, identity: Identity, lo: nat)
    requires PromptFor(c, Fresh(start), acts, cls, identity)
    ensures AdmittedBetween(Exec(c, Fresh(start), acts).log, cls, identity, lo, lo + WindowMs(c)) <= 2 * Limit(c, cls)
  {
    hide Exec, Own, Prompt, PromptFor, Count, Admitted, AdmittedBetween, SameFor, WindowMs;
    AsIfAlone(c, start, acts, Key(cls, identity, 0), lo, lo + WindowMs(c));
    AllPromptSlides(c, start, Own(acts, cls, identity), cls, identity, lo);
  }

  // ---- The answer ----

  datatype Answer = Answer(allowed: bool, limit: nat, remaining: nat, reset: int, retryAfter: Option<int>)

  /** The clock is read again for the reset header, and once more for Retry-After. */
  function AnswerTo(c: Config, counted: Arrival, resetAt: nat, retryAt: nat): Answer {
    var limit := Limit(c, counted.key.cls);
    var end := (counted.key.bucket + 1) * c.window;
    Answer(counted.used <= limit, limit, if counted.used <= limit then limit - counted.used else 0,
           end - resetAt / 1_000,
           if counted.used > limit then Some(if end - retryAt / 1_000 > 1 then end - retryAt / 1_000 else 1) else None)
  }

  lemma SecondsInBucket(c: Config, at: nat, b: nat)
    ensures Bucket(c, at) == b <==> b * c.window <= at / 1_000 < (b + 1) * c.window
  {
    hide Bucket;
    var seconds := at / 1_000;
    BucketBounds(c, at);
    Next(b, c.window);
    Next(Bucket(c, at), c.window);
    if b * c.window <= seconds < (b + 1) * c.window {
      Ordered(b, Bucket(c, at), c.window);
      Ordered(Bucket(c, at), b, c.window);
    }
  }

  /** The reset header lies in [1, window] exactly when the clock is still in the request's window. */
  lemma ResetInRange(c: Config, counted: Arrival, resetAt: nat, retryAt: nat)
    ensures 1 <= AnswerTo(c, counted, resetAt, retryAt).reset <= c.window <==> Bucket(c, resetAt) == counted.key.bucket
  {
    hide Bucket;
    SecondsInBucket(c, resetAt, counted.key.bucket);
    Next(counted.key.bucket, c.window);
  }

  /** A rejected client that waits Retry-After seconds is in a later window; one that waits a second less,
      when told to wait more than one, is not. */
  lemma RetryAfterIsRight(c: Config, counted: Arrival, resetAt: nat, retryAt: nat)
    requires Bucket(c, retryAt) >= counted.key.bucket && AnswerTo(c, counted, resetAt, retryAt).retryAfter.Some?
    ensures var wait := AnswerTo(c, counted, resetAt, retryAt).retryAfter.value;
      wait >= 1 && Bucket(c, retryAt + 1_000 * wait) > counted.key.bucket &&
      (wait > 1 ==> Bucket(c, retryAt + 1_000 * (wait - 1)) == counted.key.bucket)
  {
    hide Bucket;
    var wait := AnswerTo(c, counted, resetAt, retryAt).retryAfter.value;
    var b := counted.key.bucket;
    Next(b, c.window);
    assert (retryAt + 1_000 * wait) / 1_000 == retryAt / 1_000 + wait;
    BucketsGrow(c, retryAt, retryAt + 1_000 * wait);
    SecondsInBucket(c, retryAt + 1_000 * wait, b);
    if wait > 1 {
      assert (retryAt + 1_000 * (wait - 1)) / 1_000 == retryAt / 1_000 + wait - 1;
      BucketBounds(c, retryAt);
      Monotone(b, Bucket(c, retryAt), c.window);
      SecondsInBucket(c, retryAt + 1_000 * (wait - 1), b);
    }
  }

  lemma {:induction false} TimeGoesOn(c: Config, s: State, acts: seq<Act>)
    ensures s.now <= Exec(c, s, acts).now
    decreases |acts|
  {
    hide Bucket, Value;
    if acts != [] { TimeGoesOn(c, Apply(c, s, acts[0]), acts[1..]); }
  }

  /** As long as a counter lives it counts on, and what is left of the limit is given to whoever comes first. */
  lemma {:induction false} CountsOn(c: Config, s: State, acts: seq<Act>, k: Key)
    requires Live(s, k) && s.store[k].expires <= s.now + WindowMs(c)
    requires Exec(c, s, acts).now < s.store[k].expires
    ensures
      var t := Exec(c, s, acts);
      var left := if s.store[k].value <= Limit(c, k.cls) then Limit(c, k.cls) - s.store[k].value else 0;
      Count(t.log, k) >= Count(s.log, k) &&
      Admitted(t.log, k) == Admitted(s.log, k) + Min(Count(t.log, k) - Count(s.log, k), left)
    decreases |acts|
  {
    hide Bucket, Admitted, Count, WindowMs, Starts, Last;
    if acts != [] {
      var t := Apply(c, s, acts[0]);
      TimeGoesOn(c, t, acts[1..]);
      if acts[0].Request? { LogGrows(s.log, t.log[|s.log|], k); }
      CountsOn(c, t, acts[1..], k);
    }
  }

  /** RateLimit-Remaining is a promise: of all the client's requests that choose the same window and are counted
      within a window's length, exactly as many as the header says are admitted, whatever happens in between. */
  lemma RemainingIsAPromise(c: Config, s: State, a: Act, acts: seq<Act>, resetAt: nat, retryAt: nat)
    requires a.Request? && Exec(c, Apply(c, s, a), acts).now < s.now + 1_000 * c.window
    ensures
      var k, t, u := KeyOf(c, a), Apply(c, s, a), Exec(c, Apply(c, s, a), acts);
      var header := AnswerTo(c, t.log[|s.log|], resetAt, retryAt).remaining;
      Count(u.log, k) >= Count(t.log, k) &&
      Admitted(u.log, k) == Admitted(t.log, k) + Min(Count(u.log, k) - Count(t.log, k), header)
  {
    hide Bucket, Admitted, Count, Exec, Value;
    CountsOn(c, Apply(c, s, a), acts, KeyOf(c, a));
  }

  // ---- The middleware ----

  datatype HttpRequest = HttpRequest(verb: string, path: string, userId: Option<string>, ip: string)

  const PUBLIC_PATHS := {"/api/auth/register", "/api/auth/login", "/api/auth/refresh"}

  function UpperCase(c: char): char { if 'a' <= c <= 'z' then c - 32 as char else c }

  function ToUpper(s: string): string { if s == "" then "" else [UpperCase(s[0])] + ToUpper(s[1..]) }

  predicate IsPublicRoute(verb: string, path: string) { ToUpper(verb) == "POST" && path in PUBLIC_PATHS }

  predicate Limited(r: HttpRequest) { "/api/" <= r.path }

  function ClassOf(r: HttpRequest): Class { if IsPublicRoute(r.verb, r.path) then Auth else Api }

  /** Users are charged as users, except on the routes that hand out sessions. */
  function IdentityOf(r: HttpRequest): Identity {
    if ClassOf(r).Auth? || r.userId.None? || r.userId.value == "" then Ip(r.ip) else User(r.userId.value)
  }

  // ---- Who is limited how, letter by letter ----

  /** An HTTP verb is ASCII text. */
  ghost predicate SaysPost(verb: string) {
    |verb| == 4 && verb[0] in {'P', 'p'} && verb[1] in {'O', 'o'} && verb[2] in {'S', 's'} && verb[3] in {'T', 't'}
  }

  ghost predicate AsksForSession(r: HttpRequest) {
    SaysPost(r.verb) && (r.path == "/api/auth/register" || r.path == "/api/auth/login" || r.path == "/api/auth/refresh")
  }

  ghost function ClientOf(r: HttpRequest): Identity {
    if r.userId.Some? && |r.userId.value| > 0 then User(r.userId.value) else Ip(r.ip)
  }

  /** Requests for a session count for their address, all others for their user if there is one. */
  ghost predicate CountedAs(c: Config, r: HttpRequest, counted: Arrival) {
    if AsksForSession(r) then counted.key.cls == Auth && counted.key.identity == Ip(r.ip)
    else counted.key.cls == Api && counted.key.identity == ClientOf(r)
  }

  /** What is told: the limit of that class, what is left of it, and whether it was passed. */
  ghost predicate Tells(c: Config, r: HttpRequest, used: nat, answer: Answer) {
    answer.limit == (if AsksForSession(r) then c.authMax else c.apiMax) &&
    (answer.allowed <==> used <= answer.limit) && (answer.retryAfter.Some? <==> used > answer.limit) &&
    (if used < answer.limit then used + answer.remaining == answer.limit else answer.remaining == 0)
  }

  lemma VerbsAreCompared(verb: string)
    ensures ToUpper(verb) == "POST" <==> SaysPost(verb)
  {
    var upper := ToUpper(verb);
    if |verb| == 4 {
      assert upper == [UpperCase(verb[0]), UpperCase(verb[1]), UpperCase(verb[2]), UpperCase(verb[3])] by {
        assert ToUpper(verb[1..]) == [UpperCase(verb[1])] + ToUpper(verb[2..]);
        assert ToUpper(verb[2..]) == [UpperCase(verb[2])] + ToUpper(verb[3..]);
        assert ToUpper(verb[3..]) == [UpperCase(verb[3])] + ToUpper(verb[4..]);
      }
    } else {
      UpperKeepsLength(verb);
    }
  }

  lemma {:induction false} UpperKeepsLength(s: string)
    ensures |ToUpper(s)| == |s|
  {
    if s != "" { UpperKeepsLength(s[1..]); }
  }

  /** The class and identity of a request are those of the client it comes from. */
  lemma ClassesAreRight(c: Config, r: HttpRequest, counted: Arrival)
    requires counted.key.cls == ClassOf(r) && counted.key.identity == IdentityOf(r)
    ensures CountedAs(c, r, counted) && Limit(c, ClassOf(r)) == if AsksForSession(r) then c.authMax else c.apiMax
  {
    hide ToUpper, SaysPost;
    VerbsAreCompared(r.verb);
  }

  ghost predicate CanReach(c: Config, s: State, t: State) { exists acts :: Legal(c, s, acts) && Exec(c, s, acts) == t }

  lemma CanReachSelf(c: Config, s: State)
    ensures CanReach(c, s, s)
  {
    assert Legal(c, s, []) && Exec(c, s, []) == s;
  }

  lemma {:induction false} RunAppend(c: Config, s: State, xs: seq<Act>, a: Act)
    requires Legal(c, s, xs) && Enabled(Exec(c, s, xs), a)
    ensures Legal(c, s, xs + [a]) && Exec(c, s, xs + [a]) == Apply(c, Exec(c, s, xs), a)
    decreases |xs|
  {
    hide Apply, Enabled;
    if xs == [] {
      assert [] + [a] == [a] && [a][1..] == [];
    } else {
      assert (xs + [a])[1..] == xs[1..] + [a];
      RunAppend(c, Apply(c, s, xs[0]), xs[1..], a);
    }
  }

  lemma OneMore(c: Config, s: State, t: State, a: Act)
    requires CanReach(c, s, t) && Enabled(t, a)
    ensures CanReach(c, s, Apply(c, t, a))
  {
    hide Apply, Enabled, Legal, Exec;
    var xs :| Legal(c, s, xs) && Exec(c, s, xs) == t;
    RunAppend(c, s, xs, a);
  }

  class RateLimiter {
    const c: Config
    var now: nat
    var store: map<Key, Entry>
    var log: seq<Arrival>

    function World(): State
      reads this
    {
      State(now, store, log)
    }

    constructor (c: Config, now: nat)
      ensures this.c == c && World() == Fresh(now)
    {
      this.c, this.now, store, log := c, now, map[], [];
    }

    /** Lets time pass and other requests be counted; those that read the clock in the future are skipped. */
    method Interleave(others: seq<Act>, ghost start: State)
      requires CanReach(c, start, World())
      modifies this
      ensures CanReach(c, start, World()) && old(log) <= log && old(now) <= now
      ensures others == [] ==> World() == old(World())
    {
      hide CanReach;
      for i := 0 to |others|
        invariant CanReach(c, start, World()) && old(log) <= log && old(now) <= now
        invariant i == 0 ==> World() == old(World())
      {
        if Enabled(World(), others[i]) {
          OneMore(c, start, World(), others[i]);
          var t := Apply(c, World(), others[i]);
          now, store, log := t.now, t.store, t.log;
        }
      }
    }

    /** `rateLimit`: None is a path that is not limited. `before` runs between the first clock reading and the
        transaction, `after` between the transaction and the second reading, and `lag` passes before the third. */
    method Handle(r: HttpRequest, before: seq<Act>, after: seq<Act>, lag: nat) returns (answer: Option<Answer>)
      modifies this
      ensures CanReach(c, old(World()), World()) && old(log) <= log
      ensures !("/api/" <= r.path) ==> answer == None && World() == old(World())
      ensures "/api/" <= r.path ==> now >= lag && exists i ::
        |old(log)| <= i < |log| && CountedAs(c, r, log[i]) && log[i].key.bucket == Bucket(c, old(now)) &&
        answer == Some(AnswerTo(c, log[i], now - lag, now)) && Tells(c, r, log[i].used, answer.value)
      ensures "/api/" <= r.path && before == after == [] && lag == 0 ==>
        exists a: Act :: a.Request? && a.readAt == old(now) && World() == Apply(c, old(World()), a)
    {
      hide CanReach, Bucket, ClassOf, IdentityOf, Value, AsksForSession, ClientOf;
      ghost var start := World();
      CanReachSelf(c, start);
      if !Limited(r) { return None; }
      var cls, readAt := ClassOf(r), now;
      var limit := Limit(c, cls);
      var bucket := Bucket(c, readAt);
      var key := Key(cls, IdentityOf(r), bucket);
      Interleave(before, start);

      OneMore(c, start, World(), Request(cls, IdentityOf(r), readAt));
      var used := Value(World(), key) + 1;
      store := store[key := Entry(used, now + WindowMs(c))];
      log := log + [Arrival(key, now, used, used <= limit)];
      ghost var i := |log| - 1;
      Interleave(after, start);

      var reset := (bucket + 1) * c.window - now / 1_000;
      var remaining := if limit - used > 0 then limit - used else 0;
      OneMore(c, start, World(), Tick(lag));
      now := now + lag;
      if used > limit {
        var retryAfter := (bucket + 1) * c.window - now / 1_000;
        answer := Some(Answer(false, limit, remaining, reset, Some(if retryAfter > 1 then retryAfter else 1)));
      } else {
        answer := Some(Answer(true, limit, remaining, reset, None));
      }
      ClassesAreRight(c, r, log[i]);
      assert log[i].key == key && answer == Some(AnswerTo(c, log[i], now - lag, now));
      assert CountedAs(c, r, log[i]) && Tells(c, r, log[i].used, answer.value);
    }
  }
}
