/** The host-scoped circuit breaker that reacts to HTTP 429 (networkcapture/ratelimit.go). */
module RateLimit {
  import opened Text

  // Times are nanoseconds since Go's zero time, so the zero time.Time is 0.
  const SECOND: int := 1_000_000_000
  const FALLBACK: int := 30 * SECOND
  const MAXIMUM: int := 15 * 60 * SECOND
  const JITTER_CAP: int := 5 * SECOND
  const UNIX_EPOCH_SECONDS: int := 62_135_596_800

  datatype Header = Header(name: string, value: string)

  datatype Circuit = Circuit(blockedUntil: int, failures: nat, halfOpen: bool)

  datatype Decision = Decision(blockedUntil: int, delay: int, source: string, failures: nat)

  const NO_DECISION := Decision(0, 0, "", 0)

  // ---------------------------------------------------------------- deadlines

  /** The trimmed value of the first header with that name, or "". */
  function FirstHeader(headers: seq<Header>, name: string): string {
    if headers == [] then ""
    else if EqualFold(headers[0].name, name) then Trim(headers[0].value)
    else FirstHeader(headers[1..], name)
  }

  /** Reset headers hold an epoch when they have ten digits and a relative delay otherwise. */
  function ResetDeadline(now: int, headers: seq<Header>, name: string): Option<int> {
    var parsed := ParseInt64(FirstHeader(headers, name));
    if parsed.None? || parsed.value < 0 then None
    else if parsed.value >= 1_000_000_000 then Some(Wrap64(parsed.value + UNIX_EPOCH_SECONDS) * SECOND)
    else Some(now + parsed.value * SECOND)
  }

  /** The provider's own deadline and the header it came from; `httpDate` parses an HTTP date. */
  function RetryDeadline(now: int, headers: seq<Header>, httpDate: string -> Option<int>): Option<(int, string)> {
    var retryAfter := FirstHeader(headers, "retry-after");
    var seconds := ParseInt64(retryAfter);
    if retryAfter != "" && seconds.Some? && seconds.value >= 0 then
      Some((now + Wrap64(seconds.value * SECOND), "retry-after"))
    else if retryAfter != "" && httpDate(retryAfter).Some? then
      Some((httpDate(retryAfter).value, "retry-after"))
    else
      match ResetDeadline(now, headers, "ratelimit-reset")
      case Some(at) => Some((at, "ratelimit-reset"))
      case None =>
        match ResetDeadline(now, headers, "x-ratelimit-reset")
        case Some(at) => Some((at, "x-ratelimit-reset"))
        case None => None
  }

  // ------------------------------------------------------------------ backoff

  function Pow2(n: nat): (r: int)
    ensures r >= 1
  {
    if n == 0 then 1 else 2 * Pow2(n - 1)
  }

  /** The un-jittered delay before the n-th reopening: doubling from 30 s, at most 15 min. */
  function BaseDelay(failures: nat): int
    requires failures >= 1
  {
    Min(FALLBACK * Pow2(Min(failures - 1, 20)), MAXIMUM)
  }

  function JitterMaximum(failures: nat): int
    requires failures >= 1
  {
    Min(BaseDelay(failures) / 5, JITTER_CAP)
  }

  function FallbackDelay(failures: nat, jitter: int): int
    requires failures >= 1
  {
    Min(BaseDelay(failures) + jitter, MAXIMUM)
  }

  // ---------------------------------------------------- one key, one event

  datatype Kind =
    | Allow
    | Blocked
    | TooMany(retry: Option<int>, jitter: int)
    | Success
    | Failure(jitter: int)

  datatype Event = Event(key: string, now: int, kind: Kind)

  predicate Refused(c: Option<Circuit>, now: int) {
    c.Some? && (now < c.value.blockedUntil || c.value.halfOpen)
  }

  /** A grant that reserves the single probe of an expired block. */
  predicate Probe(c: Option<Circuit>, e: Event) {
    e.kind.Allow? && c.Some? && !Refused(c, e.now)
  }

  /** A 429 outside an active block, or the failure of the outstanding probe. */
  predicate Escalates(c: Option<Circuit>, e: Event) {
    match e.kind
    case TooMany(_, _) => c.None? || c.value.halfOpen || c.value.blockedUntil <= e.now
    case Failure(_) => c.Some? && c.value.halfOpen
    case _ => false
  }

  predicate Closes(c: Option<Circuit>, e: Event) {
    e.kind.Success? && c.Some? && c.value.halfOpen
  }

  function Reopened(c: Option<Circuit>, now: int, retry: Option<int>, jitter: int): Circuit {
    var failures := (if c.Some? then c.value.failures else 0) + 1;
    var until := if retry.Some? && retry.value > now then retry.value else now + FallbackDelay(failures, jitter);
    Circuit(until, failures, false)
  }

  /** What one event does to the circuit of its own key. */
  function Next(c: Option<Circuit>, e: Event): Option<Circuit> {
    match e.kind
    case Allow => if Probe(c, e) then Some(c.value.(halfOpen := true)) else c
    case Blocked => c
    case TooMany(retry, jitter) =>
      if Escalates(c, e) then Some(Reopened(c, e.now, retry, jitter))
      else if retry.Some? && retry.value > c.value.blockedUntil then Some(c.value.(blockedUntil := retry.value))
      else c
    case Success => if Closes(c, e) then None else c
    case Failure(jitter) => if Escalates(c, e) then Some(Reopened(c, e.now, None, jitter)) else c
  }

  // -------------------------------------------------------------- the gate

  type States = map<string, Circuit>

  function Lookup(states: States, key: string): Option<Circuit> {
    if key in states then Some(states[key]) else None
  }

  function Store(states: States, key: string, c: Option<Circuit>): States {
    if c.Some? then states[key := c.value] else states - {key}
  }

  lemma StoreLookup(states: States, key: string)
    ensures Store(states, key, Lookup(states, key)) == states
  {
  }

  function GateNext(states: States, e: Event): States {
    Store(states, e.key, Next(Lookup(states, e.key), e))
  }

  function Normalized(key: string): string {
    Lower(Trim(key))
  }

  /** Time.Sub saturates at the limits of a 64-bit duration; negative delays become zero. */
  function DelayUntil(until: int, now: int): int {
    if until - now > INT64_MAX then INT64_MAX else if until < now then 0 else until - now
  }

  function DecisionFrom(now: int, c: Circuit, source: string): Decision {
    Decision(c.blockedUntil, DelayUntil(c.blockedUntil, now), source, c.failures)
  }

  /** Where the deadline reported after a 429 came from. */
  function Source429(c: Option<Circuit>, now: int, deadline: Option<(int, string)>): string {
    var active := c.Some? && now < c.value.blockedUntil && !c.value.halfOpen;
    var floor := if active then c.value.blockedUntil else now;
    if deadline.Some? && deadline.value.0 > floor then deadline.value.1
    else if active then "active_circuit"
    else "exponential_fallback"
  }

  class RateLimitGate {
    var states: States
    const httpDate: string -> Option<int>

    constructor (httpDate: string -> Option<int>)
      ensures states == map[]
      ensures this.httpDate == httpDate
    {
      states := map[];
      this.httpDate := httpDate;
    }

    /** Reserves the only half-open request once a block has expired. */
    method Allow(rawKey: string, now: int) returns (allowed: bool, decision: Decision)
      modifies this`states
      ensures allowed == !Refused(Lookup(old(states), Normalized(rawKey)), now)
      ensures states == GateNext(old(states), Event(Normalized(rawKey), now, Kind.Allow))
      ensures Normalized(rawKey) in old(states) ==>
                decision == DecisionFrom(now, old(states)[Normalized(rawKey)], "circuit")
      ensures Normalized(rawKey) !in old(states) ==> decision == NO_DECISION
    {
      hide Normalized;
      var key := Normalized(rawKey);
      if key !in states {
        StoreLookup(states, key);
        return true, NO_DECISION;
      }
      var state := states[key];
      decision := DecisionFrom(now, state, "circuit");
      if now < state.blockedUntil || state.halfOpen {
        StoreLookup(states, key);
        return false, decision;
      }
      states := states[key := state.(halfOpen := true)];
      return true, decision;
    }

    /** Reports an active deadline without reserving the probe. */
    method Blocked(rawKey: string, now: int) returns (blocked: bool, decision: Decision)
      ensures blocked == Refused(Lookup(states, Normalized(rawKey)), now)
      ensures Normalized(rawKey) in states ==> decision == DecisionFrom(now, states[Normalized(rawKey)], "circuit")
      ensures Normalized(rawKey) !in states ==> decision == NO_DECISION
    {
      hide Normalized;
      var key := Normalized(rawKey);
      if key !in states {
        return false, NO_DECISION;
      }
      var state := states[key];
      return now < state.blockedUntil || state.halfOpen, DecisionFrom(now, state, "circuit");
    }

    /** Opens or extends the circuit; `jitter` is what the random source answers. */
    method Observe429(rawKey: string, now: int, headers: seq<Header>, jitter: int) returns (decision: Decision)
      requires 0 <= now
      modifies this`states
      ensures states == GateNext(old(states), Observed429(Normalized(rawKey), now, headers, jitter, httpDate))
      ensures Normalized(rawKey) in states
      ensures var before := Lookup(old(states), Normalized(rawKey));
              decision == DecisionFrom(now, states[Normalized(rawKey)],
                                       Source429(before, now, RetryDeadline(now, headers, httpDate)))
    {
      hide Normalized, RetryDeadline, Pow2;
      var key := Normalized(rawKey);
      if key !in states {
        states := states[key := Circuit(0, 0, false)];
      }
      var state := states[key];
      var deadline := RetryDeadline(now, headers, httpDate);
      if now < state.blockedUntil && !state.halfOpen {
        if deadline.Some? && deadline.value.0 > state.blockedUntil {
          state := state.(blockedUntil := deadline.value.0);
          states := states[key := state];
          return DecisionFrom(now, state, deadline.value.1);
        }
        StoreLookup(states, key);
        return DecisionFrom(now, state, "active_circuit");
      }
      state := state.(failures := state.failures + 1);
      var retryAt, source;
      if deadline.None? || deadline.value.0 <= now {
        var delay := FALLBACK * Pow2(Min(state.failures - 1, 20));
        if delay > MAXIMUM || delay < 0 {
          delay := MAXIMUM;
        }
        delay := Min(delay + jitter, MAXIMUM);
        retryAt, source := now + delay, "exponential_fallback";
      } else {
        retryAt, source := deadline.value.0, deadline.value.1;
      }
      state := state.(blockedUntil := retryAt, halfOpen := false);
      states := states[key := state];
      return DecisionFrom(now, state, source);
    }

    /** Closes a half-open circuit; ordinary successes change nothing. */
    method ObserveSuccess(rawKey: string, now: int) returns (closed: bool)
      modifies this`states
      ensures closed == Closes(Lookup(old(states), Normalized(rawKey)), Event(Normalized(rawKey), now, Success))
      ensures states == GateNext(old(states), Event(Normalized(rawKey), now, Success))
    {
      hide Normalized;
      var key := Normalized(rawKey);
      if key !in states || !states[key].halfOpen {
        StoreLookup(states, key);
        return false;
      }
      states := states - {key};
      return true;
    }

    /** Reopens a half-open circuit whose probe failed before any response. */
    method ObserveFailure(rawKey: string, now: int, jitter: int) returns (decision: Decision, observed: bool)
      modifies this`states
      ensures states == GateNext(old(states), Event(Normalized(rawKey), now, Failure(jitter)))
      ensures observed ==
              Escalates(Lookup(old(states), Normalized(rawKey)), Event(Normalized(rawKey), now, Failure(jitter)))
      ensures observed ==> Normalized(rawKey) in states &&
                           decision == DecisionFrom(now, states[Normalized(rawKey)], "half_open_transport_failure")
      ensures !observed ==> decision == NO_DECISION
    {
      hide Normalized, Pow2;
      var key := Normalized(rawKey);
      if key !in states || !states[key].halfOpen {
        StoreLookup(states, key);
        return NO_DECISION, false;
      }
      var state := states[key];
      state := state.(failures := state.failures + 1);
      var delay := FALLBACK * Pow2(Min(state.failures - 1, 20));
      if delay > MAXIMUM || delay < 0 {
        delay := MAXIMUM;
      }
      delay := Min(delay + jitter, MAXIMUM);
      state := state.(blockedUntil := now + delay, halfOpen := false);
      states := states[key := state];
      return DecisionFrom(now, state, "half_open_transport_failure"), true;
    }
  }

  function Observed429(
    key: string, now: int, headers: seq<Header>, jitter: int, httpDate: string -> Option<int>): Event
  {
    var deadline := RetryDeadline(now, headers, httpDate);
    Event(key, now, TooMany(if deadline.Some? then Some(deadline.value.0) else None, jitter))
  }
}
