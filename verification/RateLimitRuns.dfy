/** What the circuit breaker guarantees over whole runs of gate events. */
module RateLimitRuns {
  import opened Text
  import opened RateLimit

  /** The circuit of one key after a run of that key's events. */
  function After(es: seq<Event>): Option<Circuit> {
    if es == [] then None else Next(After(es[..|es| - 1]), es[|es| - 1])
  }

  /** The whole gate after a run of events on any keys. */
  function GateAfter(es: seq<Event>): States {
    if es == [] then map[] else GateNext(GateAfter(es[..|es| - 1]), es[|es| - 1])
  }

  function OnKey(es: seq<Event>, key: string): seq<Event> {
    if es == [] then []
    else
      var before := OnKey(es[..|es| - 1], key);
      if es[|es| - 1].key == key then before + [es[|es| - 1]] else before
  }

  /** Keys do not influence each other: the gate projects to one circuit per key. */
  lemma {:induction false} KeysAreIndependent(es: seq<Event>, key: string)
    ensures Lookup(GateAfter(es), key) == After(OnKey(es, key))
  {
    if es != [] {
      var before, e := es[..|es| - 1], es[|es| - 1];
      KeysAreIndependent(before, key);
      if e.key == key {
        assert OnKey(es, key)[..|OnKey(before, key)|] == OnKey(before, key);
      }
    }
  }

  // ---------------------------------------------------------- admissible runs

  /** A monotone clock. */
  ghost predicate Clock(es: seq<Event>) {
    && (forall i :: 0 <= i < |es| ==> 0 <= es[i].now)
    && (forall i, j :: 0 <= i < j < |es| ==> es[i].now <= es[j].now)
  }

  /** The jitter source answers within the range it was asked for. */
  predicate JitterWithin(c: Option<Circuit>, e: Event) {
    var failures := (if c.Some? then c.value.failures else 0) + 1;
    match e.kind
    case TooMany(_, jitter) => 0 <= jitter <= JitterMaximum(failures)
    case Failure(jitter) => 0 <= jitter <= JitterMaximum(failures)
    case _ => true
  }

  ghost predicate Run(es: seq<Event>) {
    && Clock(es)
    && forall i :: 0 <= i < |es| ==> JitterWithin(After(es[..i]), es[i])
  }

  lemma RunPrefix(es: seq<Event>, n: nat)
    requires Run(es) && n <= |es|
    ensures Run(es[..n])
  {
    forall i | 0 <= i < n ensures JitterWithin(After(es[..n][..i]), es[..n][i]) {
      assert es[..n][..i] == es[..i];
    }
  }

  lemma AfterStep(es: seq<Event>, n: nat)
    requires n < |es|
    ensures After(es[..n + 1]) == Next(After(es[..n]), es[n])
  {
    assert es[..n + 1][..n] == es[..n];
  }

  // ------------------------------------------------------------------ backoff

  lemma Pow2Monotone(a: nat, b: nat)
    requires a <= b
    ensures Pow2(a) <= Pow2(b)
  {
    if a < b { Pow2Monotone(a, b - 1); }
  }

  lemma Pow2Five()
    ensures Pow2(5) == 32
  {
    assert Pow2(3) == 8;
  }

  /** The exponent cap of 20 is never visible: the delay is min(30 s * 2^(n-1), 15 min). */
  lemma BaseDelayIsCappedDoubling(failures: nat)
    requires failures >= 1
    ensures BaseDelay(failures) == Min(FALLBACK * Pow2(failures - 1), MAXIMUM)
    ensures FALLBACK <= BaseDelay(failures) <= MAXIMUM
  {
    if failures > 21 {
      Pow2Five();
      Pow2Monotone(5, 20);
      Pow2Monotone(5, failures - 1);
    }
  }

  lemma BaseDelayDoubles(failures: nat)
    requires failures >= 1
    ensures BaseDelay(failures + 1) == Min(2 * BaseDelay(failures), MAXIMUM)
  {
    BaseDelayIsCappedDoubling(failures);
    BaseDelayIsCappedDoubling(failures + 1);
    var delay := FALLBACK * Pow2(failures - 1);
    assert FALLBACK * Pow2(failures) == 2 * delay;
  }

  /** Every fallback delay stays within its bounds, and adversarial jitter cannot make a later one shorter. */
  lemma FallbackDelaysGrow(failures: nat, jitter: int, laterJitter: int)
    requires failures >= 1
    requires 0 <= jitter <= JitterMaximum(failures) && 0 <= laterJitter
    ensures BaseDelay(failures) <= FallbackDelay(failures, jitter) <= MAXIMUM
    ensures FallbackDelay(failures, jitter) <= FallbackDelay(failures + 1, laterJitter)
  {
    BaseDelayIsCappedDoubling(failures);
    BaseDelayDoubles(failures);
    hide BaseDelay, Pow2;
  }

  // ------------------------------------------------------- step-wise invariant

  /** A half-open circuit has passed its deadline, and every circuit records a failure. */
  predicate Sound(c: Option<Circuit>, now: int) {
    c.Some? ==> c.value.failures >= 1 && (c.value.halfOpen ==> c.value.blockedUntil <= now)
  }

  lemma StepKeeps(c: Option<Circuit>, e: Event)
    requires Sound(c, e.now) && JitterWithin(c, e)
    ensures Sound(Next(c, e), e.now)
    ensures c.Some? && !Closes(c, e) ==>
              Next(c, e).Some? && c.value.blockedUntil <= Next(c, e).value.blockedUntil
    ensures c.Some? && Escalates(c, e) ==> c.value.blockedUntil < Next(c, e).value.blockedUntil
    ensures Escalates(c, e) ==> e.now < Next(c, e).value.blockedUntil
  {
    if Escalates(c, e) {
      BaseDelayIsCappedDoubling(Next(c, e).value.failures);
    }
  }

  lemma {:induction false} RunSound(es: seq<Event>, now: int)
    requires Run(es)
    requires es != [] ==> es[|es| - 1].now <= now
    ensures Sound(After(es), now)
  {
    if es != [] {
      var n := |es| - 1;
      RunPrefix(es, n);
      RunSound(es[..n], es[n].now);
      StepKeeps(After(es[..n]), es[n]);
    }
  }

  // ------------------------------------------------- deadlines over whole runs

  /** No probe success between positions i and j of the run. */
  ghost predicate NoClose(es: seq<Event>, i: nat, j: nat)
    requires i <= j <= |es|
  {
    forall k :: i <= k < j ==> !Closes(After(es[..k]), es[k])
  }

  /** Until a probe succeeds the deadline of a circuit never decreases. */
  lemma {:induction false} DeadlineNeverShrinks(es: seq<Event>, i: nat, j: nat)
    requires Run(es) && i <= j <= |es|
    requires After(es[..i]).Some? && NoClose(es, i, j)
    ensures After(es[..j]).Some?
    ensures After(es[..i]).value.blockedUntil <= After(es[..j]).value.blockedUntil
    decreases j
  {
    hide Next, JitterWithin, Sound, Closes, After;
    if i < j {
      DeadlineNeverShrinks(es, i, j - 1);
      RunPrefix(es, j - 1);
      RunSound(es[..j - 1], es[j - 1].now);
      StepKeeps(After(es[..j - 1]), es[j - 1]);
      AfterStep(es, j - 1);
    }
  }

  /** Each escalation strictly raises every earlier deadline, and lies in the future. */
  lemma EscalationRaisesDeadline(es: seq<Event>, i: nat, k: nat, j: nat)
    requires Run(es) && i <= k < j <= |es|
    requires After(es[..i]).Some? && NoClose(es, i, j)
    requires Escalates(After(es[..k]), es[k])
    ensures After(es[..j]).Some?
    ensures After(es[..i]).value.blockedUntil < After(es[..j]).value.blockedUntil
    ensures es[k].now < After(es[..j]).value.blockedUntil
  {
    hide Next, JitterWithin, Sound, Closes, Escalates, After;
    DeadlineNeverShrinks(es, i, k);
    RunPrefix(es, k);
    RunSound(es[..k], es[k].now);
    StepKeeps(After(es[..k]), es[k]);
    AfterStep(es, k);
    DeadlineNeverShrinks(es, k + 1, j);
  }

  /** No request is granted before a deadline the provider set, unless a probe succeeded in between. */
  lemma GrantsRespectDeadlines(es: seq<Event>, i: nat, j: nat)
    requires Run(es) && i <= j < |es|
    requires After(es[..i]).Some? && NoClose(es, i, j)
    requires es[j].kind.Allow? && !Refused(After(es[..j]), es[j].now)
    ensures After(es[..i]).value.blockedUntil <= es[j].now
  {
    DeadlineNeverShrinks(es, i, j);
  }

  /** What ends a half-open period. */
  predicate Resolves(c: Option<Circuit>, e: Event) {
    Escalates(c, e) || Closes(c, e)
  }

  lemma {:induction false} HalfOpenUntilResolved(es: seq<Event>, i: nat, j: nat)
    requires i < j <= |es|
    requires Probe(After(es[..i]), es[i])
    requires forall k :: i < k < j ==> !Resolves(After(es[..k]), es[k])
    ensures After(es[..j]).Some? && After(es[..j]).value.halfOpen
    decreases j
  {
    hide After, Resolves, Probe;
    AfterStep(es, j - 1);
    if i + 1 < j {
      HalfOpenUntilResolved(es, i, j - 1);
      HalfOpenStep(After(es[..j - 1]), es[j - 1]);
    } else {
      ProbeOpens(After(es[..i]), es[i]);
    }
    hide Next;
  }

  lemma HalfOpenStep(c: Option<Circuit>, e: Event)
    requires c.Some? && c.value.halfOpen && !Resolves(c, e)
    ensures Next(c, e).Some? && Next(c, e).value.halfOpen
  {
  }

  lemma ProbeOpens(c: Option<Circuit>, e: Event)
    requires Probe(c, e)
    ensures Next(c, e).Some? && Next(c, e).value.halfOpen
  {
  }

  /** At most one probe is outstanding: between two there is a success, a 429, or a failed probe. */
  lemma ProbesAreSeparated(es: seq<Event>, i: nat, j: nat)
    requires i < j < |es|
    requires Probe(After(es[..i]), es[i]) && Probe(After(es[..j]), es[j])
    ensures exists k :: i < k < j && Resolves(After(es[..k]), es[k]) &&
                        (es[k].kind.Success? || es[k].kind.TooMany? || es[k].kind.Failure?)
  {
    if forall k :: i < k < j ==> !Resolves(After(es[..k]), es[k]) {
      HalfOpenUntilResolved(es, i, j);
      assert false;
    }
  }

  function EscalationsSinceClose(es: seq<Event>): nat {
    if es == [] then 0
    else
      var before, c, e := EscalationsSinceClose(es[..|es| - 1]), After(es[..|es| - 1]), es[|es| - 1];
      if Closes(c, e) then 0 else if Escalates(c, e) then before + 1 else before
  }

  /** The failure counter is exactly the number of escalations since the circuit last closed. */
  lemma {:induction false} FailuresCountEscalations(es: seq<Event>)
    ensures EscalationsSinceClose(es) == if After(es).Some? then After(es).value.failures else 0
  {
    if es != [] {
      FailuresCountEscalations(es[..|es| - 1]);
    }
  }

  // ------------------------------------------------ probes are exponentially rare

  /** The sum of min(30 s * 2^(i-1), 15 min) for i from 1 to n. */
  function TotalBackoff(n: nat): int {
    if n == 0 then 0 else TotalBackoff(n - 1) + Min(FALLBACK * Pow2(n - 1), MAXIMUM)
  }

  lemma TotalBackoffMonotone(a: nat, b: nat)
    requires a <= b
    ensures TotalBackoff(a) <= TotalBackoff(b)
  {
    if a < b { TotalBackoffMonotone(a, b - 1); }
  }

  function ProbeCount(es: seq<Event>): nat {
    if es == [] then 0
    else ProbeCount(es[..|es| - 1]) + if Probe(After(es[..|es| - 1]), es[|es| - 1]) then 1 else 0
  }

  /** When the first 429 of the run arrived. */
  function FirstTooMany(es: seq<Event>): Option<int> {
    if es == [] then None
    else
      var before := FirstTooMany(es[..|es| - 1]);
      if before.Some? then before
      else if es[|es| - 1].kind.TooMany? then Some(es[|es| - 1].now)
      else None
  }

  /** The event offers no usable provider deadline. */
  predicate WithoutDeadline(e: Event) {
    e.kind.TooMany? && e.kind.retry.Some? ==> e.kind.retry.value <= e.now
  }

  ghost predicate FallbackRun(es: seq<Event>) {
    && Run(es)
    && NoClose(es, 0, |es|)
    && forall i :: 0 <= i < |es| && Escalates(After(es[..i]), es[i]) ==> WithoutDeadline(es[i])
  }

  lemma FallbackRunPrefix(es: seq<Event>)
    requires FallbackRun(es) && es != []
    ensures FallbackRun(es[..|es| - 1])
  {
    var before := es[..|es| - 1];
    RunPrefix(es, |es| - 1);
    forall i | 0 <= i < |before| ensures before[..i] == es[..i] && before[i] == es[i] {
    }
  }

  /** The pace of the circuit: its deadline has been pushed out by every delay so far. */
  predicate Paced(c: Option<Circuit>, firstTooMany: Option<int>, probes: nat) {
    match c
    case None => firstTooMany.None? && probes == 0
    case Some(c) =>
      && firstTooMany.Some?
      && firstTooMany.value + TotalBackoff(c.failures) <= c.blockedUntil
      && probes + (if c.halfOpen then 0 else 1) <= c.failures
  }

  lemma PacedStep(c: Option<Circuit>, e: Event, first: Option<int>, probes: nat)
    requires Sound(c, e.now) && JitterWithin(c, e) && !Closes(c, e)
    requires Escalates(c, e) ==> WithoutDeadline(e)
    requires Paced(c, first, probes)
    ensures Paced(Next(c, e),
                  if first.None? && e.kind.TooMany? then Some(e.now) else first,
                  if Probe(c, e) then probes + 1 else probes)
  {
    if Escalates(c, e) {
      var failures := (if c.Some? then c.value.failures else 0) + 1;
      BaseDelayIsCappedDoubling(failures);
      assert TotalBackoff(failures) == TotalBackoff(failures - 1) + BaseDelay(failures);
      hide TotalBackoff, BaseDelay;
    }
  }

  lemma {:induction false} RunIsPaced(es: seq<Event>)
    requires FallbackRun(es)
    ensures Paced(After(es), FirstTooMany(es), ProbeCount(es))
  {
    if es != [] {
      var before, e := es[..|es| - 1], es[|es| - 1];
      FallbackRunPrefix(es);
      RunIsPaced(before);
      RunSound(before, e.now);
      hide Next, JitterWithin, Sound, Paced;
      PacedStep(After(before), e, FirstTooMany(before), ProbeCount(before));
    }
  }

  /** With fallback delays only, the n-th probe without a success comes no earlier than the
      first n doubled delays after the first 429. */
  lemma ProbesAreExponentiallyRare(es: seq<Event>)
    requires FallbackRun(es) && es != []
    requires Probe(After(es[..|es| - 1]), es[|es| - 1])
    ensures FirstTooMany(es).Some?
    ensures FirstTooMany(es).value + TotalBackoff(ProbeCount(es)) <= es[|es| - 1].now
  {
    FallbackRunPrefix(es);
    var before := es[..|es| - 1];
    RunIsPaced(before);
    TotalBackoffMonotone(ProbeCount(es), After(before).value.failures);
  }
}
