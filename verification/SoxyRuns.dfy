/** Any number of acquisitions and leases sharing one Soxy client, one step for each remote call, each answer and
    each Lease.Close (internal/egress/egress.go, soxy.go). */
module SoxyRuns {
  import opened Text
  import opened Soxy

  /** Where one call of Manager.Acquire stands, and afterwards the lease it made. */
  datatype Pc =
    | Listing                                     // the listing call is out
    | Choosing(slots: seq<Slot>)
    | Creating(slots: seq<Slot>, slotId: Id)      // the create call is out
    | CreatingDefault                             // the create call without a slot is out
    | Rejecting(id: Id)                           // decoded, but not ready: about to release
    | Checking(session: Session)                  // about to look at its proxy
    | Discarding(session: Session)                // its proxy is invalid: about to release
    | LeaseOpen(session: Session)
    | LeaseReleased(session: Session)             // Lease.Close has attempted the release
    | Failed(error: Error)

  /** `own` are the calls this acquisition has made to get its session. */
  datatype Caller = Caller(scan: bool, pc: Pc, own: seq<Call>)

  datatype State = State(callers: seq<Caller>, log: seq<Call>)

  datatype Step =
    | Arrive(scan: bool)
    | ListAnswered(caller: nat, answer: Result<seq<Slot>, Failure>)
    | Draw(caller: nat, index: nat)
    | DrawFails(caller: nat)
    | RunOut(caller: nat)
    | CreateAnswered(caller: nat, outcome: Result<Session, Failure>)
    | ReleaseRejected(caller: nat)
    | CheckProxy(caller: nat)
    | ReleaseDiscarded(caller: nat)
    | CloseLease(caller: nat)

  function Available(slots: seq<Slot>): seq<Slot> {
    if slots == [] then []
    else
      var before := Available(slots[..|slots| - 1]);
      if SlotAvailable(slots[|slots| - 1]) then before + [slots[|slots| - 1]] else before
  }

  predicate CallerCan(x: Caller, step: Step) {
    match step
    case Arrive(_) => true
    case ListAnswered(_, _) => x.pc.Listing?
    case Draw(_, index) => x.pc.Choosing? && index < |x.pc.slots|
    case DrawFails(_) => x.pc.Choosing? && x.pc.slots != []
    case RunOut(_) => x.pc.Choosing? && x.pc.slots == []
    case CreateAnswered(_, _) => x.pc.Creating? || x.pc.CreatingDefault?
    case ReleaseRejected(_) => x.pc.Rejecting?
    case CheckProxy(_) => x.pc.Checking?
    case ReleaseDiscarded(_) => x.pc.Discarding?
    case CloseLease(_) => x.pc.LeaseOpen?
  }

  predicate Enabled(s: State, step: Step) {
    step.Arrive? || (step.caller < |s.callers| && CallerCan(s.callers[step.caller], step))
  }

  /** What createSession makes of an answer. */
  function Answered(outcome: Result<Session, Failure>): Pc {
    match outcome
    case Err(e) => Failed(Service(e))
    case Ok(session) =>
      if SessionUsable(session) then Checking(session)
      else if session.id.Named? then Rejecting(session.id)
      else Failed(NotReady)
  }

  function NextPc(x: Caller, step: Step): Pc
    requires CallerCan(x, step)
  {
    match step
    case Arrive(_) => x.pc
    case ListAnswered(_, answer) =>
      if answer.Err? then Failed(Service(answer.error))
      else if Available(answer.value) == [] then Failed(NoProxyCapacity)
      else Choosing(Available(answer.value))
    case Draw(_, index) =>
      var slots := x.pc.slots;
      Creating(slots[index := slots[|slots| - 1]][..|slots| - 1], slots[index].id)
    case DrawFails(_) => Failed(RandomFailed)
    case RunOut(_) => Failed(NoProxyCapacity)
    case CreateAnswered(_, outcome) =>
      if x.pc.Creating? && Busy(outcome) then Choosing(x.pc.slots) else Answered(outcome)
    case ReleaseRejected(_) => Failed(NotReady)
    case CheckProxy(_) => if ProxyValid(x.pc.session.proxy) then LeaseOpen(x.pc.session) else Discarding(x.pc.session)
    case ReleaseDiscarded(_) => Failed(InvalidProxy)
    case CloseLease(_) => LeaseReleased(x.pc.session)
  }

  /** The remote call a step concludes or makes. */
  function CallOf(x: Caller, step: Step): seq<Call>
    requires CallerCan(x, step)
  {
    match step
    case ListAnswered(_, answer) => [ListCall(answer)]
    case CreateAnswered(_, outcome) => [CreateCall(if x.pc.Creating? then x.pc.slotId else Blank, outcome)]
    case ReleaseRejected(_) => [ReleaseCall(x.pc.id)]
    case ReleaseDiscarded(_) => [ReleaseCall(x.pc.session.id)]
    case CloseLease(_) => [ReleaseCall(x.pc.session.id)]
    case _ => []
  }

  function NextCaller(x: Caller, step: Step): Caller
    requires CallerCan(x, step)
  {
    var own := if step.ReleaseDiscarded? || step.CloseLease? then x.own else x.own + CallOf(x, step);
    x.(pc := NextPc(x, step), own := own)
  }

  function Next(s: State, step: Step): State
    requires Enabled(s, step)
  {
    match step
    case Arrive(scan) =>
      s.(callers := s.callers + [Caller(scan, if scan then Listing else CreatingDefault, [])])
    case _ =>
      var x := s.callers[step.caller];
      State(s.callers[step.caller := NextCaller(x, step)], s.log + CallOf(x, step))
  }

  ghost predicate Run(states: seq<State>, steps: seq<Step>) {
    && |states| == |steps| + 1
    && states[0] == State([], [])
    && forall i :: 0 <= i < |steps| ==> Enabled(states[i], steps[i]) && states[i + 1] == Next(states[i], steps[i])
  }

  lemma RunStep(states: seq<State>, steps: seq<Step>, i: nat)
    requires Run(states, steps) && i < |steps|
    ensures Enabled(states[i], steps[i]) && states[i + 1] == Next(states[i], steps[i])
  {
  }

  // ---------------------------------------------------------------- ownership

  /** The session in the hands of an acquisition, or of the unreleased lease it made. */
  function Owns(pc: Pc): multiset<Id> {
    match pc
    case Rejecting(id) => multiset{id}
    case Checking(session) => multiset{session.id}
    case Discarding(session) => multiset{session.id}
    case LeaseOpen(session) => multiset{session.id}
    case _ => multiset{}
  }

  function Owned(callers: seq<Caller>): multiset<Id> {
    if callers == [] then multiset{} else Owned(callers[..|callers| - 1]) + Owns(callers[|callers| - 1].pc)
  }

  /** The ids of all sessions ever decoded, and of all releases ever attempted. */
  function DecodedIds(log: seq<Call>): multiset<Id> {
    if log == [] then multiset{}
    else
      var id := DecodedId(log[|log| - 1]);
      DecodedIds(log[..|log| - 1]) + if id.Named? then multiset{id} else multiset{}
  }

  function ReleasedIds(log: seq<Call>): multiset<Id> {
    if log == [] then multiset{}
    else
      ReleasedIds(log[..|log| - 1]) +
      if log[|log| - 1].ReleaseCall? then multiset{log[|log| - 1].sessionId} else multiset{}
  }

  /** Every session is with one owner or has had its release attempted, and what is outstanding is what is owned. */
  ghost predicate Ledger(s: State) {
    && DecodedIds(s.log) == Owned(s.callers) + ReleasedIds(s.log)
    && Outstanding(s.log) == Owned(s.callers)
  }

  lemma LogOneMore(log: seq<Call>, call: Call)
    ensures DecodedIds(log + [call]) ==
            DecodedIds(log) + if DecodedId(call).Named? then multiset{DecodedId(call)} else multiset{}
    ensures ReleasedIds(log + [call]) ==
            ReleasedIds(log) + if call.ReleaseCall? then multiset{call.sessionId} else multiset{}
    ensures Outstanding(log + [call]) == AfterCall(Outstanding(log), call)
  {
    assert (log + [call])[..|log|] == log;
    OutstandingOne(log, call);
  }

  lemma AddBoth(a': multiset<Id>, o: multiset<Id>, a: multiset<Id>, n: multiset<Id>, z: multiset<Id>)
    requires a' + o == a + n
    ensures (a' + z) + o == (a + z) + n
  {
    assert (a' + z) + o == (a' + o) + z == (a + n) + z == (a + z) + n;
  }

  lemma UpdateSplit(before: seq<Caller>, last: Caller, i: nat, x: Caller)
    requires i <= |before|
    ensures (before + [last])[i := x] == if i < |before| then before[i := x] + [last] else before + [x]
  {
  }

  lemma {:induction false} OwnedUpdate(callers: seq<Caller>, i: nat, x: Caller)
    requires i < |callers|
    ensures Owned(callers[i := x]) + Owns(callers[i].pc) == Owned(callers) + Owns(x.pc)
    decreases |callers|
  {
    hide Owns, Owned;
    var n := |callers| - 1;
    var before, last := callers[..n], callers[n];
    assert callers == before + [last];
    UpdateSplit(before, last, i, x);
    OwnedAppend(before, last);
    if i < n {
      OwnedUpdate(before, i, x);
      OwnedAppend(before[i := x], last);
      AddBoth(Owned(before[i := x]), Owns(before[i].pc), Owned(before), Owns(x.pc), Owns(last.pc));
    } else {
      OwnedAppend(before, x);
      Swap(Owned(before), Owns(x.pc), Owns(last.pc));
    }
  }

  lemma Swap(a: multiset<Id>, b: multiset<Id>, c: multiset<Id>)
    ensures (a + b) + c == (a + c) + b
  {
  }

  lemma OwnedAppend(callers: seq<Caller>, x: Caller)
    ensures Owned(callers + [x]) == Owned(callers) + Owns(x.pc)
  {
    assert (callers + [x])[..|callers|] == callers;
  }

  /** What a step takes over from the service, and what it gives back. */
  function Taken(x: Caller, step: Step): multiset<Id>
    requires CallerCan(x, step)
  {
    if step.CreateAnswered? && step.outcome.Ok? && step.outcome.value.id.Named? then multiset{step.outcome.value.id}
    else multiset{}
  }

  function Given(x: Caller, step: Step): multiset<Id>
    requires CallerCan(x, step)
  {
    if step.ReleaseRejected? || step.ReleaseDiscarded? || step.CloseLease? then Owns(x.pc) else multiset{}
  }

  lemma CallerBalance(x: Caller, step: Step)
    requires CallerCan(x, step) && !step.Arrive?
    ensures Owns(NextPc(x, step)) + Given(x, step) == Owns(x.pc) + Taken(x, step)
    ensures Given(x, step) <= Owns(x.pc)
  {
    if step.CreateAnswered? {
      CreatedBalance(x, step);
    } else if step.ReleaseRejected? || step.ReleaseDiscarded? || step.CloseLease? {
      ReleaseBalance(x, step);
    } else {
      OtherBalance(x, step);
    }
    hide Owns, NextPc, Taken, Given, CallerCan;
  }

  lemma CreatedBalance(x: Caller, step: Step)
    requires CallerCan(x, step) && step.CreateAnswered?
    ensures Owns(x.pc) == multiset{} && Given(x, step) == multiset{}
    ensures Owns(NextPc(x, step)) == Taken(x, step)
  {
    AnswerBalance(step.outcome);
    hide Answered, SessionUsable, Busy;
  }

  lemma ReleaseBalance(x: Caller, step: Step)
    requires CallerCan(x, step) && (step.ReleaseRejected? || step.ReleaseDiscarded? || step.CloseLease?)
    ensures Owns(NextPc(x, step)) == multiset{} && Taken(x, step) == multiset{}
    ensures Given(x, step) == Owns(x.pc)
  {
  }

  lemma OtherBalance(x: Caller, step: Step)
    requires CallerCan(x, step) && !step.Arrive? && !step.CreateAnswered?
    requires !(step.ReleaseRejected? || step.ReleaseDiscarded? || step.CloseLease?)
    ensures Given(x, step) == multiset{} == Taken(x, step)
    ensures Owns(NextPc(x, step)) == Owns(x.pc)
  {
    hide Available, ProxyValid;
  }

  lemma AnswerBalance(outcome: Result<Session, Failure>)
    ensures Owns(Answered(outcome)) ==
            if outcome.Ok? && outcome.value.id.Named? then multiset{outcome.value.id} else multiset{}
    ensures Busy(outcome) ==> outcome.Err?
  {
  }

  lemma LogBalance(x: Caller, step: Step, log: seq<Call>)
    requires CallerCan(x, step) && !step.Arrive?
    ensures DecodedIds(log + CallOf(x, step)) == DecodedIds(log) + Taken(x, step)
    ensures ReleasedIds(log + CallOf(x, step)) == ReleasedIds(log) + Given(x, step)
    ensures Outstanding(log + CallOf(x, step)) == Outstanding(log) + Taken(x, step) - Given(x, step)
  {
    var calls := CallOf(x, step);
    CallBalance(x, step);
    hide CallOf, Taken, Given, CallerCan, DecodedIds, ReleasedIds, Outstanding;
    if calls == [] {
      assert log + calls == log;
    } else {
      LogOneMore(log, calls[0]);
    }
  }

  lemma CallBalance(x: Caller, step: Step)
    requires CallerCan(x, step) && !step.Arrive?
    ensures var calls := CallOf(x, step);
            && (calls == [] ==> Taken(x, step) == multiset{} == Given(x, step))
            && (calls != [] ==>
                  && calls == [calls[0]]
                  && Taken(x, step) ==
                     (if DecodedId(calls[0]).Named? then multiset{DecodedId(calls[0])} else multiset{})
                  && Given(x, step) == (if calls[0].ReleaseCall? then multiset{calls[0].sessionId} else multiset{}))
  {
    if step.CreateAnswered? {
      assert CallOf(x, step) == [CreateCall(if x.pc.Creating? then x.pc.slotId else Blank, step.outcome)];
      assert Given(x, step) == multiset{};
      hide CallOf, CallerCan, Owns;
    } else if step.ReleaseRejected? || step.ReleaseDiscarded? || step.CloseLease? {
      ReleaseCalls(x, step);
      hide CallOf, CallerCan, Owns, Taken, Given;
    } else {
      assert Taken(x, step) == multiset{} == Given(x, step);
      hide CallerCan, Owns, Taken, Given;
    }
  }

  lemma ReleaseCalls(x: Caller, step: Step)
    requires CallerCan(x, step) && (step.ReleaseRejected? || step.ReleaseDiscarded? || step.CloseLease?)
    ensures exists id :: CallOf(x, step) == [ReleaseCall(id)] && Given(x, step) == multiset{id}
    ensures Taken(x, step) == multiset{}
  {
    var id := if x.pc.Rejecting? then x.pc.id else x.pc.session.id;
    assert CallOf(x, step) == [ReleaseCall(id)] && Given(x, step) == multiset{id};
  }

  lemma Balance(owned: multiset<Id>, owned': multiset<Id>, had: multiset<Id>, has: multiset<Id>,
                given: multiset<Id>, taken: multiset<Id>, released: multiset<Id>)
    requires owned' + had == owned + has && has + given == had + taken && given <= had
    ensures owned' + given == owned + taken
    ensures owned + taken - given == owned'
    ensures owned + released + taken == owned' + (released + given)
  {
    assert forall id :: owned'[id] + had[id] == (owned' + had)[id] == (owned + has)[id] == owned[id] + has[id];
    assert forall id :: has[id] + given[id] == (has + given)[id] == (had + taken)[id] == had[id] + taken[id];
    assert forall id :: owned'[id] + given[id] == owned[id] + taken[id];
  }

  lemma StepShape(s: State, step: Step)
    requires Enabled(s, step) && !step.Arrive?
    ensures var x := s.callers[step.caller];
            && CallerCan(x, step)
            && Next(s, step).callers == s.callers[step.caller := NextCaller(x, step)]
            && Next(s, step).log == s.log + CallOf(x, step)
            && NextCaller(x, step).pc == NextPc(x, step)
  {
    hide CallerCan, CallOf, NextPc;
  }

  lemma ArriveKeepsLedger(s: State, step: Step)
    requires Ledger(s) && step.Arrive?
    ensures Ledger(Next(s, step))
  {
    hide Owned, DecodedIds, ReleasedIds, Outstanding, CallerCan, NextPc, CallOf;
    var x := Caller(step.scan, if step.scan then Listing else CreatingDefault, []);
    OwnedAppend(s.callers, x);
    assert Owns(x.pc) == multiset{};
  }

  lemma StepKeepsLedger(s: State, step: Step)
    requires Ledger(s) && Enabled(s, step)
    ensures Ledger(Next(s, step))
  {
    if step.Arrive? {
      ArriveKeepsLedger(s, step);
    } else {
      StepShape(s, step);
      hide *;
      var x, s' := s.callers[step.caller], Next(s, step);
      var y := NextCaller(x, step);
      OwnedUpdate(s.callers, step.caller, y);
      CallerBalance(x, step);
      LogBalance(x, step, s.log);
      Balance(Owned(s.callers), Owned(s'.callers), Owns(x.pc), Owns(y.pc), Given(x, step), Taken(x, step),
              ReleasedIds(s.log));
      LedgerMoves(s, s', Taken(x, step), Given(x, step));
    }
  }

  lemma LedgerMoves(s: State, s': State, taken: multiset<Id>, given: multiset<Id>)
    requires Ledger(s)
    requires DecodedIds(s'.log) == DecodedIds(s.log) + taken
    requires ReleasedIds(s'.log) == ReleasedIds(s.log) + given
    requires Outstanding(s'.log) == Outstanding(s.log) + taken - given
    requires Owned(s.callers) + taken - given == Owned(s'.callers)
    requires Owned(s.callers) + ReleasedIds(s.log) + taken == Owned(s'.callers) + (ReleasedIds(s.log) + given)
    ensures Ledger(s')
  {
    hide Owned, DecodedIds, ReleasedIds, Outstanding;
  }

  /**
   * In every interleaving of acquisitions and Lease.Close calls, whatever the service answers: each session decoded
   * with an id is with exactly one acquisition or unreleased lease, or has had its one release attempted.
   */
  lemma {:induction false} SessionsAreOwned(states: seq<State>, steps: seq<Step>, i: nat)
    requires Run(states, steps) && i < |states|
    ensures Ledger(states[i])
  {
    if i == 0 {
      assert Ledger(State([], []));
    } else {
      hide Run, Ledger, Enabled, Next;
      SessionsAreOwned(states, steps, i - 1);
      RunStep(states, steps, i - 1);
      StepKeepsLedger(states[i - 1], steps[i - 1]);
    }
  }

  predicate AtRest(pc: Pc) {
    pc.Failed? || pc.LeaseReleased?
  }

  lemma {:induction false} RestingOwnNothing(callers: seq<Caller>)
    requires forall x :: x in callers ==> AtRest(x.pc)
    ensures Owned(callers) == multiset{}
  {
    if callers != [] {
      RestingOwnNothing(callers[..|callers| - 1]);
      assert callers[|callers| - 1] in callers;
    }
  }

  /** When every acquisition has failed or its lease was closed, a release was attempted for exactly every session. */
  lemma NoSessionLeaks(states: seq<State>, steps: seq<Step>, i: nat)
    requires Run(states, steps) && i < |states|
    requires forall x :: x in states[i].callers ==> AtRest(x.pc)
    ensures ReleasedIds(states[i].log) == DecodedIds(states[i].log)
    ensures Outstanding(states[i].log) == multiset{}
  {
    SessionsAreOwned(states, steps, i);
    RestingOwnNothing(states[i].callers);
  }

  // -------------------------------------- every acquisition searches as alone

  /** A listing and busy answers so far, with these ids still to try. */
  predicate Searching(own: seq<Call>, untried: multiset<Id>) {
    && own != [] && own[0].ListCall? && own[0].answer.Ok?
    && Available(own[0].answer.value) != []
    && AllBusy(own[1..])
    && AttemptedIds(own[1..]) + untried == AvailableIds(own[0].answer.value)
  }

  /** What one acquisition's own calls say about its result. */
  predicate Concluded(scan: bool, own: seq<Call>, r: Result<Session, Error>) {
    if scan then RandomSearch([], own, r)
    else
      && own != [] && own[0].CreateCall? && own[0].slotId.Blank?
      && Concludes(own[0].outcome, own[1..], r)
  }

  /** The calls of an acquisition whose last answer ended its search. */
  ghost predicate AnsweredLast(scan: bool, own: seq<Call>, outcome: Result<Session, Failure>) {
    if scan then
      exists before: seq<Call>, untried: multiset<Id>, slotId: Id ::
        Searching(before, untried) && slotId in untried && own == before + [CreateCall(slotId, outcome)]
    else own == [CreateCall(Blank, outcome)]
  }

  ghost predicate CallerOk(x: Caller) {
    match x.pc
    case Listing => x.scan && x.own == []
    case Choosing(slots) => x.scan && Searching(x.own, Ids(slots))
    case Creating(slots, slotId) => x.scan && Searching(x.own, Ids(slots) + multiset{slotId})
    case CreatingDefault => !x.scan && x.own == []
    case Rejecting(id) =>
      exists session: Session ::
        session.id == id && id.Named? && !SessionUsable(session) && AnsweredLast(x.scan, x.own, Ok(session))
    case Checking(session) => Concluded(x.scan, x.own, Ok(session))
    case Discarding(session) => Concluded(x.scan, x.own, Ok(session))
    case LeaseOpen(session) => Concluded(x.scan, x.own, Ok(session)) && ProxyValid(session.proxy)
    case LeaseReleased(session) => Concluded(x.scan, x.own, Ok(session)) && ProxyValid(session.proxy)
    case Failed(e) =>
      if e.InvalidProxy? then exists session: Session :: Concluded(x.scan, x.own, Ok(session))
      else Concluded(x.scan, x.own, Err(e))
  }

  lemma {:induction false} AvailableHasIds(slots: seq<Slot>)
    ensures Ids(Available(slots)) == AvailableIds(slots)
    ensures Available(slots) == [] <==> AvailableIds(slots) == multiset{}
  {
    hide SlotAvailable;
    if slots != [] {
      var before, last := slots[..|slots| - 1], slots[|slots| - 1];
      AvailableHasIds(before);
      if SlotAvailable(last) {
        IdsOne(Available(before), last);
      }
      hide Ids;
    }
  }

  lemma OwnSplit(own: seq<Call>)
    requires own != []
    ensures [] + own == own == [own[0]] + own[1..]
  {
  }

  /** The listing an acquisition searches. */
  lemma SearchListed(own: seq<Call>, untried: multiset<Id>)
    requires Searching(own, untried)
    ensures Soxy.Listed([], [own[0]], Ok(Available(own[0].answer.value)))
    ensures AttemptedIds(own[1..]) + untried == Ids(Available(own[0].answer.value))
  {
    AvailableHasIds(own[0].answer.value);
  }

  lemma SearchEnds(own: seq<Call>, untried: multiset<Id>, call: Call, after: seq<Call>, r: Result<Session, Error>)
    requires Searching(own, untried)
    requires call.CreateCall? && !Busy(call.outcome) && Concludes(call.outcome, after, r) && call.slotId in untried
    ensures RandomSearch([], own + ([call] + after), r)
  {
    hide RandomSearch, Concludes, Busy;
    SearchListed(own, untried);
    OwnSplit(own);
    AttemptEnds([], [own[0]], Available(own[0].answer.value), own[1..], untried, call, after, r);
  }

  lemma ListingKeeps(x: Caller, answer: Result<seq<Slot>, Failure>)
    requires x.scan && x.own == []
    ensures var own := [ListCall(answer)];
            if answer.Err? then RandomSearch([], own, Err(Service(answer.error)))
            else if Available(answer.value) == [] then RandomSearch([], own, Err(NoProxyCapacity))
            else Searching(own, Ids(Available(answer.value)))
  {
    var own := [ListCall(answer)];
    assert own[1..] == [] && own[0 + 1..] == [];
    if answer.Ok? {
      AvailableHasIds(answer.value);
      NothingAttempted();
    }
  }

  lemma DrawKeeps(own: seq<Call>, slots: seq<Slot>, index: nat)
    requires Searching(own, Ids(slots)) && index < |slots|
    ensures Searching(own, Ids(slots[index := slots[|slots| - 1]][..|slots| - 1]) + multiset{slots[index].id})
  {
    SwapRemove(slots, index);
  }

  lemma SearchStops(own: seq<Call>, slots: seq<Slot>)
    requires Searching(own, Ids(slots))
    ensures slots != [] ==> RandomSearch([], own, Err(RandomFailed))
    ensures slots == [] ==> RandomSearch([], own, Err(NoProxyCapacity))
  {
    hide RandomSearch;
    SearchListed(own, Ids(slots));
    OwnSplit(own);
    var offered := Available(own[0].answer.value);
    if slots != [] {
      RandomStops([], [own[0]], offered, own[1..], slots);
    } else {
      NoIds();
      SlotsRunOut([], [own[0]], offered, own[1..]);
    }
  }

  lemma BusyKeeps(own: seq<Call>, slots: seq<Slot>, slotId: Id, outcome: Result<Session, Failure>)
    requires Searching(own, Ids(slots) + multiset{slotId}) && Busy(outcome)
    ensures Searching(own + [CreateCall(slotId, outcome)], Ids(slots))
  {
    var call := CreateCall(slotId, outcome);
    hide Ids, AvailableIds, Busy;
    assert (own + [call])[1..] == own[1..] + [call];
    AttemptedOneMore(own[1..], call);
    assert AttemptedIds(own[1..]) + multiset{slotId} + Ids(slots)
        == AttemptedIds(own[1..]) + (Ids(slots) + multiset{slotId});
  }

  /** An answer that ends the search: what createSession returns for it concludes the acquisition. */
  lemma AnswerEnds(scan: bool, own: seq<Call>, outcome: Result<Session, Failure>, after: seq<Call>,
                   r: Result<Session, Error>)
    requires AnsweredLast(scan, own, outcome) && Concludes(outcome, after, r)
    requires !(scan && Busy(outcome))
    ensures Concluded(scan, own + after, r)
  {
    hide RandomSearch, Searching, Concludes, Busy;
    if scan {
      var before, untried, slotId :|
        Searching(before, untried) && slotId in untried && own == before + [CreateCall(slotId, outcome)];
      SearchEnds(before, untried, CreateCall(slotId, outcome), after, r);
      CallsAssociate(before, [CreateCall(slotId, outcome)], after);
    } else {
      assert (own + after)[1..] == after && (own + after)[0] == own[0];
    }
  }

  lemma AnswerIsOk(y: Caller, outcome: Result<Session, Failure>)
    requires y.pc == Answered(outcome) && AnsweredLast(y.scan, y.own, outcome) && !(y.scan && Busy(outcome))
    ensures CallerOk(y)
  {
    hide RandomSearch, Searching, Busy, AnsweredLast, Concluded;
    assert y.own + [] == y.own;
    if outcome.Err? {
      AnswerEnds(y.scan, y.own, outcome, [], Err(Service(outcome.error)));
    } else if SessionUsable(outcome.value) {
      AnswerEnds(y.scan, y.own, outcome, [], Ok(outcome.value));
    } else if outcome.value.id.Blank? {
      AnswerEnds(y.scan, y.own, outcome, [], Err(NotReady));
    } else {
      assert outcome == Ok(outcome.value);
    }
  }

  lemma AnswerKeeps(x: Caller, outcome: Result<Session, Failure>)
    requires CallerOk(x) && (x.pc.Creating? || x.pc.CreatingDefault?) && !(x.pc.Creating? && Busy(outcome))
    ensures CallerOk(NextCaller(x, CreateAnswered(0, outcome)))
  {
    AnswerArrives(x, outcome);
    var y := NextCaller(x, CreateAnswered(0, outcome));
    hide CallerOk, NextCaller, Answered, AnsweredLast, Busy;
    AnswerIsOk(y, outcome);
  }

  lemma AnswerArrives(x: Caller, outcome: Result<Session, Failure>)
    requires CallerOk(x) && (x.pc.Creating? || x.pc.CreatingDefault?) && !(x.pc.Creating? && Busy(outcome))
    ensures var y := NextCaller(x, CreateAnswered(0, outcome));
            && y.pc == Answered(outcome) && y.scan == x.scan == x.pc.Creating?
            && AnsweredLast(y.scan, y.own, outcome)
  {
    hide Searching, Answered, Ids;
    if x.pc.Creating? {
      var untried := Ids(x.pc.slots) + multiset{x.pc.slotId};
      assert Searching(x.own, untried) && x.pc.slotId in untried;
      assert NextCaller(x, CreateAnswered(0, outcome)).own == x.own + [CreateCall(x.pc.slotId, outcome)];
    } else {
      assert [] + [CreateCall(Blank, outcome)] == [CreateCall(Blank, outcome)];
    }
  }

  lemma RejectedKeeps(x: Caller)
    requires CallerOk(x) && x.pc.Rejecting?
    ensures CallerOk(NextCaller(x, ReleaseRejected(0)))
  {
    var session: Session :|
      session.id == x.pc.id && session.id.Named? && !SessionUsable(session) && AnsweredLast(x.scan, x.own, Ok(session));
    AnswerEnds(x.scan, x.own, Ok(session), [ReleaseCall(x.pc.id)], Err(NotReady));
    hide RandomSearch, Searching, Concludes, Busy, AnsweredLast;
  }

  lemma ProxyKeeps(x: Caller, step: Step)
    requires CallerOk(x) && CallerCan(x, step) && (step.CheckProxy? || step.ReleaseDiscarded? || step.CloseLease?)
    ensures CallerOk(NextCaller(x, step))
  {
    hide Concluded, ProxyValid;
    var session := x.pc.session;
    assert x.own + [] == x.own;
    assert Concluded(x.scan, x.own, Ok(session));
  }

  lemma SearchStepKeeps(x: Caller, step: Step)
    requires CallerOk(x) && CallerCan(x, step)
    requires step.ListAnswered? || step.Draw? || step.DrawFails? || step.RunOut?
    ensures CallerOk(NextCaller(x, step))
  {
    hide RandomSearch, Searching, Available, Ids;
    if step.ListAnswered? {
      ListingKeeps(x, step.answer);
      assert x.own + [ListCall(step.answer)] == [ListCall(step.answer)];
    } else {
      assert x.own + [] == x.own;
      if step.Draw? {
        DrawKeeps(x.own, x.pc.slots, step.index);
      } else {
        SearchStops(x.own, x.pc.slots);
      }
    }
  }

  lemma CallerStepKeeps(x: Caller, step: Step)
    requires CallerOk(x) && CallerCan(x, step) && !step.Arrive?
    ensures CallerOk(NextCaller(x, step))
  {
    if step.CreateAnswered? {
      assert NextCaller(x, step) == NextCaller(x, CreateAnswered(0, step.outcome));
      if x.pc.Creating? && Busy(step.outcome) {
        BusyKeeps(x.own, x.pc.slots, x.pc.slotId, step.outcome);
      } else {
        AnswerKeeps(x, step.outcome);
      }
    } else if step.ReleaseRejected? {
      assert NextCaller(x, step) == NextCaller(x, ReleaseRejected(0));
      RejectedKeeps(x);
    } else if step.CheckProxy? || step.ReleaseDiscarded? || step.CloseLease? {
      ProxyKeeps(x, step);
    } else {
      SearchStepKeeps(x, step);
    }
    hide Searching, Concluded, AnsweredLast;
  }

  /** However acquisitions interleave, each one's own calls are a search, and its result is theirs. */
  lemma {:induction false} EachSearchesAlone(states: seq<State>, steps: seq<Step>, i: nat, c: nat)
    requires Run(states, steps) && i < |states| && c < |states[i].callers|
    ensures CallerOk(states[i].callers[c])
  {
    RunStepBack(states, steps, i);
    var s, step := states[i - 1], steps[i - 1];
    hide Run, CallerOk, CallerCan, NextCaller;
    if c < |s.callers| {
      EachSearchesAlone(states, steps, i - 1, c);
      if !step.Arrive? && step.caller == c {
        CallerStepKeeps(s.callers[c], step);
      }
    } else {
      NewCallerOk(step.scan);
    }
  }

  lemma RunStepBack(states: seq<State>, steps: seq<Step>, i: nat)
    requires Run(states, steps) && i < |states| && states[i].callers != []
    ensures i > 0 && Enabled(states[i - 1], steps[i - 1]) && states[i] == Next(states[i - 1], steps[i - 1])
  {
  }

  lemma NewCallerOk(scan: bool)
    ensures CallerOk(Caller(scan, if scan then Listing else CreatingDefault, []))
  {
  }

  /** After the listing, no slot was tried more often than it was offered. */
  predicate WithinOffer(own: seq<Call>) {
    && own != [] && own[0].ListCall?
    && if own[0].answer.Err? then |own| == 1
       else AttemptedIds(own[1..]) <= AvailableIds(own[0].answer.value)
  }

  /** Every slot offered was tried and answered 409 or 404. */
  predicate Exhausted(own: seq<Call>) {
    own != [] && own[0].ListCall? && own[0].answer.Ok? && AllBusy(own[1..])
    && AttemptedIds(own[1..]) == AvailableIds(own[0].answer.value)
  }

  /** The last call created this ready session, and every slot tried before it answered 409 or 404. */
  predicate FirstCreated(own: seq<Call>, session: Session) {
    && SessionUsable(session) && |own| >= 2 && AllBusy(own[1..|own| - 1])
    && own[|own| - 1].CreateCall? && own[|own| - 1].outcome == Ok(session)
  }

  lemma SearchWithinOffer(own: seq<Call>, r: Result<Session, Error>)
    requires RandomSearch([], own, r)
    ensures WithinOffer(own)
    ensures r.Ok? ==> FirstCreated(own, r.value)
    ensures r == Err(NoProxyCapacity) ==> Exhausted(own)
  {
    if own[0].answer.Ok? {
      var offered, search := AvailableIds(own[0].answer.value), own[1..];
      SlotsAreTriedOnce(offered, search, r);
      if r.Ok? {
        FirstSessionWins(offered, search, r.value);
        assert own[1..|own| - 1] == search[..|search| - 1];
      } else if r.error.NoProxyCapacity? {
        CapacityErrorMeansAllBusy(offered, search);
      }
    }
  }

  lemma AnswerWithinOffer(own: seq<Call>, outcome: Result<Session, Failure>)
    requires AnsweredLast(true, own, outcome)
    ensures WithinOffer(own)
  {
    var before: seq<Call>, untried: multiset<Id>, slotId :|
      Searching(before, untried) && slotId in untried && own == before + [CreateCall(slotId, outcome)];
    hide AttemptedIds, AvailableIds, AllBusy, Available;
    var call := CreateCall(slotId, outcome);
    OfferTaken(before, untried, call);
  }

  lemma OfferTaken(before: seq<Call>, untried: multiset<Id>, call: Call)
    requires Searching(before, untried) && call.CreateCall? && call.slotId in untried
    ensures WithinOffer(before + [call])
  {
    hide AttemptedIds, AvailableIds, AllBusy, Available;
    var own := before + [call];
    assert own[0] == before[0] && own[1..] == before[1..] + [call];
    AttemptedOneMore(before[1..], call);
    PartOfSum(AttemptedIds(before[1..]), untried, call.slotId);
  }

  lemma PartOfSum(a: multiset<Id>, b: multiset<Id>, id: Id)
    requires id in b
    ensures a + multiset{id} <= a + b
  {
  }

  /**
   * So the promises of the search hold for every scan's acquisition in every interleaving: past its listing it has
   * tried no slot more often than it was offered; missing capacity means that every offered slot answered 409 or
   * 404; and the session of its lease is a ready one with a valid proxy, the first that its own calls created and
   * the last thing they did.
   */
  lemma SearchPromises(states: seq<State>, steps: seq<Step>, i: nat, c: nat)
    requires Run(states, steps) && i < |states| && c < |states[i].callers|
    requires states[i].callers[c].scan
    ensures var x := states[i].callers[c];
            && (if x.pc.Listing? then x.own == [] else WithinOffer(x.own))
            && (x.pc == Failed(NoProxyCapacity) ==> Exhausted(x.own))
            && (x.pc.Checking? || x.pc.Discarding? ==> FirstCreated(x.own, x.pc.session))
            && (x.pc.LeaseOpen? || x.pc.LeaseReleased? ==>
                  FirstCreated(x.own, x.pc.session) && ProxyValid(x.pc.session.proxy))
  {
    EachSearchesAlone(states, steps, i, c);
    var x := states[i].callers[c];
    hide Run;
    PromisesOfOne(x);
  }

  lemma PromisesOfOne(x: Caller)
    requires x.scan && CallerOk(x)
    ensures if x.pc.Listing? then x.own == [] else WithinOffer(x.own)
    ensures x.pc == Failed(NoProxyCapacity) ==> Exhausted(x.own)
    ensures x.pc.Checking? || x.pc.Discarding? || x.pc.LeaseOpen? || x.pc.LeaseReleased? ==>
              FirstCreated(x.own, x.pc.session)
    ensures x.pc.LeaseOpen? || x.pc.LeaseReleased? ==> ProxyValid(x.pc.session.proxy)
  {
    hide RandomSearch, FirstCreated, Exhausted, ProxyValid, SessionUsable, AnsweredLast;
    match x.pc {
      case Listing => hide WithinOffer;
      case Choosing(_) =>
      case Creating(_, _) =>
      case CreatingDefault =>
      case Rejecting(_) =>
        var session: Session :|
          session.id == x.pc.id && session.id.Named? && !SessionUsable(session) &&
          AnsweredLast(x.scan, x.own, Ok(session));
        AnswerWithinOffer(x.own, Ok(session));
      case Checking(session) => SearchWithinOffer(x.own, Ok(session));
      case Discarding(session) => SearchWithinOffer(x.own, Ok(session));
      case LeaseOpen(session) => SearchWithinOffer(x.own, Ok(session));
      case LeaseReleased(session) => SearchWithinOffer(x.own, Ok(session));
      case Failed(e) =>
        if e.InvalidProxy? {
          var session: Session :| Concluded(x.scan, x.own, Ok(session));
          SearchWithinOffer(x.own, Ok(session));
        } else {
          SearchWithinOffer(x.own, Err(e));
        }
    }
  }
}
