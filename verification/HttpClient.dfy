/** The HTTP client the services call each other with: a bounded retry loop around `fetch`. */
module HttpClient {
  import opened Wrappers

  datatype Verb = GET | POST | PATCH | PUT | DELETE

  datatype ErrorCode =
    | BAD_REQUEST | UNAUTHORIZED | FORBIDDEN | NOT_FOUND | CONFLICT
    | PAYLOAD_TOO_LARGE | RATE_LIMITED | UPSTREAM_ERROR | INTERNAL

  datatype HttpError = HttpError(code: ErrorCode, status: nat) {
    /** Throttling, and trouble upstream or in transport. */
    predicate Retryable() { status == 429 || status >= 500 }
  }

  function StatusToErrorCode(status: nat): ErrorCode {
    match status
    case 400 => BAD_REQUEST
    case 401 => UNAUTHORIZED
    case 403 => FORBIDDEN
    case 404 => NOT_FOUND
    case 409 => CONFLICT
    case 429 => RATE_LIMITED
    case _ => if status >= 500 then UPSTREAM_ERROR else INTERNAL
  }

  /** What one `fetch` meets. `committed`: the callee carried the request out, whatever came back.
      `envelope`: the error code found in the body, if any. `valid`: the payload fits the schema. */
  datatype Reply =
    | Response(status: nat, envelope: Option<ErrorCode>, valid: bool, committed: bool)
    | Lost(committed: bool)
    | Aborted(committed: bool)

  predicate IsOk(r: Reply) { r.Response? && 200 <= r.status < 300 }

  /** The failures the loop retries while attempts are left. A payload that does not fit its schema
      is not among them, although its error says 502. */
  predicate Transient(r: Reply) {
    match r
    case Response(status, _, _, _) => !IsOk(r) && HttpError(INTERNAL, status).Retryable()
    case Lost(_) => true
    case Aborted(_) => false
  }

  /** What the caller gets when the loop stops at this reply. */
  function Verdict(r: Reply): Result<(), HttpError> {
    match r
    case Response(status, envelope, valid, _) =>
      if IsOk(r) then
        if status == 204 || valid then Ok(()) else Err(HttpError(UPSTREAM_ERROR, 502))
      else
        Err(HttpError(if envelope.Some? then envelope.value else StatusToErrorCode(status), status))
    case Lost(_) => Err(HttpError(UPSTREAM_ERROR, 502))
    case Aborted(_) => Err(HttpError(INTERNAL, 502))
  }

  const DEFAULT_RETRIES: nat := 2

  predicate Idempotent(v: Verb) { v in {GET, PUT, DELETE} }

  function MaxAttempts(v: Verb, retries: Option<nat>): nat {
    1 + (if retries.Some? then retries.value else if Idempotent(v) then DEFAULT_RETRIES else 0)
  }

  /** The fetch the loop stops at, having got as far as fetch `i`: the first that is not transient, or the last
      allowed. */
  function Deciding(replies: seq<Reply>, i: nat, max: nat): nat
    requires i < max <= |replies|
    decreases max - i
  {
    if i + 1 == max || !Transient(replies[i]) then i else Deciding(replies, i + 1, max)
  }

  lemma {:induction false} DecidingIsFirst(replies: seq<Reply>, i: nat, max: nat)
    requires i < max <= |replies|
    ensures var d := Deciding(replies, i, max);
      i <= d < max && (forall j :: i <= j < d ==> Transient(replies[j])) &&
      (d + 1 < max ==> !Transient(replies[d]))
    decreases max - i
  {
    if i + 1 < max && Transient(replies[i]) { DecidingIsFirst(replies, i + 1, max); }
  }

  /** How many fetches a request makes. */
  function Fetches(v: Verb, replies: seq<Reply>): (n: nat)
    requires |replies| >= MaxAttempts(v, None)
    ensures 1 <= n <= MaxAttempts(v, None) && n <= |replies|
  {
    DecidingIsFirst(replies, 0, MaxAttempts(v, None));
    Deciding(replies, 0, MaxAttempts(v, None)) + 1
  }

  function Committed(replies: seq<Reply>, n: nat): nat
    requires n <= |replies|
  {
    if n == 0 then 0 else Committed(replies, n - 1) + (if replies[n - 1].committed then 1 else 0)
  }

  lemma {:induction false} CommittedAtMost(replies: seq<Reply>, n: nat)
    requires n <= |replies|
    ensures Committed(replies, n) <= n
    ensures n > 0 && replies[n - 1].committed ==> Committed(replies, n) > 0
  {
    if n > 0 { CommittedAtMost(replies, n - 1); }
  }

  /** A POST is carried out at most once per request; the idempotent methods of section 9.2.2 of
      RFC 9110 at most three times. A request that succeeds was carried out. */
  lemma RequestCommits(v: Verb, replies: seq<Reply>)
    requires |replies| >= MaxAttempts(v, None)
    requires forall i :: 0 <= i < |replies| && IsOk(replies[i]) ==> replies[i].committed
    ensures Fetches(v, replies) <= MaxAttempts(v, None)
    ensures v == POST ==> Committed(replies, Fetches(v, replies)) <= 1
    ensures Committed(replies, Fetches(v, replies)) <= 3
    ensures Verdict(replies[Fetches(v, replies) - 1]).Ok? ==> Committed(replies, Fetches(v, replies)) > 0
  {
    DecidingIsFirst(replies, 0, MaxAttempts(v, None));
    CommittedAtMost(replies, Fetches(v, replies));
  }

  // ---- Backoff ----

  function Pow2(n: nat): nat { if n == 0 then 1 else 2 * Pow2(n - 1) }

  /** Exponential, capped at five seconds. */
  function Ceiling(baseMs: nat, attempt: nat): nat
    requires attempt > 0
  {
    if baseMs * Pow2(attempt - 1) < 5_000 then baseMs * Pow2(attempt - 1) else 5_000
  }

  lemma Share(draw: real, whole: real)
    requires 0.0 <= draw <= 1.0 && 0.0 <= whole
    ensures 0.0 <= draw * whole <= whole
  {
    Product(draw, whole);
    Product(1.0 - draw, whole);
    assert (1.0 - draw) * whole == whole - draw * whole;
  }

  lemma Product(x: real, y: real)
    requires 0.0 <= x && 0.0 <= y
    ensures 0.0 <= x * y
  {}

  function Smaller(a: nat, b: nat): nat { if a < b then a else b }

  /** The first ceiling is the base, each next one twice the one before, and none is above five seconds. */
  lemma CeilingDoubles(baseMs: nat, attempt: nat)
    requires attempt > 0
    ensures Ceiling(baseMs, 1) == Smaller(baseMs, 5_000)
    ensures Ceiling(baseMs, attempt + 1) == Smaller(2 * Ceiling(baseMs, attempt), 5_000)
  {
    var p := Pow2(attempt - 1);
    assert Pow2(attempt) == 2 * p;
    assert baseMs * (2 * p) == 2 * (baseMs * p);
    assert Pow2(0) == 1;
  }

  ghost predicate IsShare(part: real, draw: real, whole: nat) { part == draw * whole as real }

  /** Every wait is the drawn share of its attempt's ceiling, and so within five seconds. */
  ghost predicate WaitsFit(waits: seq<real>, baseMs: nat, draws: seq<real>)
    requires |waits| <= |draws|
  {
    forall i :: 0 <= i < |waits| ==> IsShare(waits[i], draws[i], Ceiling(baseMs, i + 1)) && 0.0 <= waits[i] <= 5_000.0
  }

  lemma ShareFits(draw: real, whole: nat)
    requires 0.0 <= draw <= 1.0
    ensures IsShare(draw * whole as real, draw, whole) && 0.0 <= draw * whole as real <= whole as real
  {
    Share(draw, whole as real);
  }

  /** Full jitter: a random share of the ceiling. */
  function Backoff(baseMs: nat, attempt: nat, draw: real): (wait: real)
    requires attempt > 0 && 0.0 <= draw < 1.0
    ensures IsShare(wait, draw, Ceiling(baseMs, attempt)) && 0.0 <= wait <= Ceiling(baseMs, attempt) as real
  {
    hide IsShare, Ceiling;
    var ceiling := Ceiling(baseMs, attempt);
    ShareFits(draw, ceiling);
    draw * ceiling as real
  }

  // ---- A request, by the status numbers its replies carry ----

  /** Lost on the way, or answered 429 or 500 and above. */
  ghost predicate Busy(r: Reply) { r.Lost? || (r.Response? && (r.status == 429 || r.status >= 500)) }

  /** What a request whose last reply is this tells its caller. */
  ghost predicate Tells(last: Reply, r: Result<(), HttpError>) {
    match last
    case Lost(_) => r == Err(HttpError(UPSTREAM_ERROR, 502))
    case Aborted(_) => r == Err(HttpError(INTERNAL, 502))
    case Response(status, envelope, valid, _) =>
      (status == 204 ==> r == Ok(())) &&
      (200 <= status < 300 && status != 204 ==> r == if valid then Ok(()) else Err(HttpError(UPSTREAM_ERROR, 502))) &&
      (status < 200 || status >= 300 ==>
         r.Err? && r.error.status == status && TellsCode(status, envelope, r.error.code))
  }

  /** The body's code goes first; without one, the status decides. */
  ghost predicate TellsCode(status: nat, envelope: Option<ErrorCode>, code: ErrorCode) {
    (envelope.Some? ==> code == envelope.value) &&
    (envelope.None? ==>
       (status == 400 ==> code == BAD_REQUEST) && (status == 401 ==> code == UNAUTHORIZED) &&
       (status == 403 ==> code == FORBIDDEN) && (status == 404 ==> code == NOT_FOUND) &&
       (status == 409 ==> code == CONFLICT) && (status == 429 ==> code == RATE_LIMITED) &&
       (status >= 500 ==> code == UPSTREAM_ERROR) &&
       (status < 500 && status !in {400, 401, 403, 404, 409, 429} ==> code == INTERNAL))
  }

  /** The retry loop. `replies[i]` is what fetch `i` meets, `draws[i]` the random draw after it. */
  method Request(v: Verb, retries: Option<nat>, replies: seq<Reply>, baseMs: nat, draws: seq<real>)
    returns (r: Result<(), HttpError>, fetches: nat, waits: seq<real>)
    requires |replies| >= MaxAttempts(v, retries) && |draws| >= |replies|
    requires forall i :: 0 <= i < |draws| ==> 0.0 <= draws[i] < 1.0
    ensures 1 <= fetches <= MaxAttempts(v, retries) && fetches == Deciding(replies, 0, MaxAttempts(v, retries)) + 1
    ensures forall i :: 0 <= i < fetches - 1 ==> Transient(replies[i])
    ensures fetches < MaxAttempts(v, retries) ==> !Transient(replies[fetches - 1])
    ensures r == Verdict(replies[fetches - 1])
    ensures forall i :: 0 <= i < fetches - 1 ==> Busy(replies[i])
    ensures retries.None? && v in {POST, PATCH} ==> fetches == 1
    ensures retries.None? && v in {GET, PUT, DELETE} ==> fetches <= 3 && (fetches < 3 ==> !Busy(replies[fetches - 1]))
    ensures retries.Some? ==>
      fetches <= 1 + retries.value && (fetches <= retries.value ==> !Busy(replies[fetches - 1]))
    ensures Tells(replies[fetches - 1], r)
    ensures |waits| == fetches - 1 && WaitsFit(waits, baseMs, draws)
  {
    hide IsShare;
    var maxAttempts := MaxAttempts(v, retries);
    DecidingIsFirst(replies, 0, maxAttempts);
    waits := [];
    fetches := 0;
    var attempt := 1;
    while attempt <= maxAttempts
      invariant 1 <= attempt <= maxAttempts && fetches == attempt - 1 == |waits|
      invariant Deciding(replies, 0, maxAttempts) == Deciding(replies, fetches, maxAttempts)
      invariant WaitsFit(waits, baseMs, draws)
      decreases maxAttempts - attempt
    {
      var reply := replies[fetches];
      fetches := fetches + 1;
      match reply {
        case Response(status, envelope, valid, _) =>
          if !(200 <= status < 300) {
            var error := HttpError(if envelope.Some? then envelope.value else StatusToErrorCode(status), status);
            if error.Retryable() && attempt < maxAttempts {
              waits := waits + [Backoff(baseMs, attempt, draws[attempt - 1])];
              attempt := attempt + 1;
              continue;
            }
            return Err(error), fetches, waits;
          }
          if status == 204 { return Ok(()), fetches, waits; }
          if !valid { return Err(HttpError(UPSTREAM_ERROR, 502)), fetches, waits; }
          return Ok(()), fetches, waits;
        case Lost(_) =>
          if attempt < maxAttempts {
            waits := waits + [Backoff(baseMs, attempt, draws[attempt - 1])];
            attempt := attempt + 1;
            continue;
          }
          return Err(HttpError(UPSTREAM_ERROR, 502)), fetches, waits;
        case Aborted(_) =>
          return Err(HttpError(INTERNAL, 502)), fetches, waits;
      }
    }
    assert false;
  }
}
