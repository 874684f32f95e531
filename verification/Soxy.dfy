/** Taking an egress lease: proxy policy, the swap-remove search over Soxy slots, and what becomes of
    every session the remote service hands out (internal/egress/egress.go, soxy.go). */
module Soxy {
  import opened Text

  /** An identifier sent or received as a string; the empty string is Blank. */
  datatype Id = Blank | Named(name: string)

  datatype Slot = Slot(id: Id, status: string, currentIp: string)

  /** `parses` tells whether the assembled proxy URL is accepted by ParseProxy. */
  datatype Proxy = Proxy(host: string, port: int, parses: bool)

  datatype Session = Session(id: Id, status: string, ready: bool, proxy: Proxy)

  /** A failed call: an unexpected HTTP status, or no usable response at all. */
  datatype Failure = Api(status: int) | Transport

  datatype Error =
    | NoProxyCapacity | UnknownPolicy | UnknownPurpose | RandomFailed | NotReady | InvalidProxy
    | Service(failure: Failure)

  /** One call to the service and what it answered. */
  datatype Call =
    | ListCall(answer: Result<seq<Slot>, Failure>)
    | CreateCall(slotId: Id, outcome: Result<Session, Failure>)
    | ReleaseCall(sessionId: Id)

  // -------------------------------------------------------- session ownership

  /** The id of the session a call decoded, or Blank. */
  function DecodedId(call: Call): Id {
    if call.CreateCall? && call.outcome.Ok? then call.outcome.value.id else Blank
  }

  function AfterCall(owned: multiset<Id>, call: Call): multiset<Id> {
    if call.ReleaseCall? then owned - multiset{call.sessionId}
    else if DecodedId(call).Named? then owned + multiset{DecodedId(call)}
    else owned
  }

  /** Sessions decoded with an id whose release has not been attempted. */
  function Outstanding(calls: seq<Call>): multiset<Id> {
    if calls == [] then multiset{} else AfterCall(Outstanding(calls[..|calls| - 1]), calls[|calls| - 1])
  }

  lemma OutstandingOne(calls: seq<Call>, call: Call)
    ensures Outstanding(calls + [call]) == AfterCall(Outstanding(calls), call)
  {
    assert (calls + [call])[..|calls|] == calls;
  }

  /** A session that was created and then released leaves nothing outstanding. */
  lemma CreatedThenReleased(calls: seq<Call>, slotId: Id, session: Session)
    requires session.id.Named?
    ensures Outstanding(calls + [CreateCall(slotId, Ok(session)), ReleaseCall(session.id)]) == Outstanding(calls)
  {
    hide Outstanding;
    var created := calls + [CreateCall(slotId, Ok(session))];
    OutstandingOne(calls, CreateCall(slotId, Ok(session)));
    OutstandingOne(created, ReleaseCall(session.id));
    assert created + [ReleaseCall(session.id)]
        == calls + [CreateCall(slotId, Ok(session)), ReleaseCall(session.id)];
  }

  // ------------------------------------------------------------ the slot search

  predicate SlotAvailable(slot: Slot) {
    slot.id.Named? && slot.status == "available" && slot.currentIp != ""
  }

  function AvailableIds(slots: seq<Slot>): multiset<Id> {
    if slots == [] then multiset{}
    else AvailableIds(slots[..|slots| - 1])
         + if SlotAvailable(slots[|slots| - 1]) then multiset{slots[|slots| - 1].id} else multiset{}
  }

  function Ids(slots: seq<Slot>): multiset<Id> {
    if slots == [] then multiset{} else Ids(slots[..|slots| - 1]) + multiset{slots[|slots| - 1].id}
  }

  lemma IdsOne(slots: seq<Slot>, slot: Slot)
    ensures Ids(slots + [slot]) == Ids(slots) + multiset{slot.id}
  {
    assert (slots + [slot])[..|slots|] == slots;
  }

  lemma NoIds()
    ensures Ids([]) == multiset{} && AvailableIds([]) == multiset{}
  {
  }

  lemma AvailableOne(slots: seq<Slot>, i: nat)
    requires i < |slots|
    ensures AvailableIds(slots[..i + 1]) ==
            AvailableIds(slots[..i]) + if SlotAvailable(slots[i]) then multiset{slots[i].id} else multiset{}
  {
    assert slots[..i + 1][..i] == slots[..i];
  }

  lemma {:induction false} IdsUpdate(slots: seq<Slot>, index: nat, slot: Slot)
    requires index < |slots|
    ensures slots[index].id in Ids(slots)
    ensures Ids(slots[index := slot]) == Ids(slots) - multiset{slots[index].id} + multiset{slot.id}
    decreases |slots|
  {
    var n := |slots| - 1;
    if index < n {
      IdsUpdate(slots[..n], index, slot);
      assert slots[index := slot][..n] == slots[..n][index := slot];
    } else {
      assert slots[index := slot][..n] == slots[..n];
    }
  }

  /** Overwriting an element by the last and dropping the last removes just that element. */
  lemma SwapRemove(slots: seq<Slot>, index: nat)
    requires index < |slots|
    ensures slots[index].id in Ids(slots)
    ensures Ids(slots[index := slots[|slots| - 1]][..|slots| - 1]) == Ids(slots) - multiset{slots[index].id}
  {
    var last := slots[|slots| - 1];
    var overwritten := slots[index := last];
    IdsUpdate(slots, index, last);
    IdsLast(overwritten);
    hide Ids;
    CancelOne(Ids(overwritten[..|slots| - 1]), Ids(slots) - multiset{slots[index].id}, last.id);
  }

  lemma IdsLast(slots: seq<Slot>)
    requires slots != []
    ensures Ids(slots) == Ids(slots[..|slots| - 1]) + multiset{slots[|slots| - 1].id}
  {
  }

  lemma CancelOne(a: multiset<Id>, b: multiset<Id>, id: Id)
    requires a + multiset{id} == b + multiset{id}
    ensures a == b
  {
    assert a == (a + multiset{id}) - multiset{id} == (b + multiset{id}) - multiset{id} == b;
  }

  predicate SessionUsable(session: Session) {
    session.id.Named? && session.status == "active" && session.ready
  }

  /** The answers after which the search goes on with another slot. */
  predicate Busy(outcome: Result<Session, Failure>) {
    outcome.Err? && outcome.error.Api? && (outcome.error.status == 409 || outcome.error.status == 404)
  }

  predicate ConflictOrMissing(e: Error) {
    e.Service? && e.failure.Api? && (e.failure.status == 409 || e.failure.status == 404)
  }

  /** What createSession makes of an answer, and the clean-up call it issues. */
  predicate Concludes(outcome: Result<Session, Failure>, after: seq<Call>, r: Result<Session, Error>) {
    match outcome
    case Err(e) => r == Err(Service(e)) && after == []
    case Ok(session) =>
      if SessionUsable(session) then r == Ok(session) && after == []
      else r == Err(NotReady) && after == if session.id.Blank? then [] else [ReleaseCall(session.id)]
  }

  /** The calls of the search, given the ids not yet tried: a run of busy answers for distinct untried
      slots, ended by the first other answer, by the random source, or by running out of slots. */
  predicate Search(untried: multiset<Id>, calls: seq<Call>, r: Result<Session, Error>)
    decreases |calls|
  {
    if calls == [] then
      r == Err(if untried == multiset{} then NoProxyCapacity else RandomFailed)
    else
      match calls[0]
      case CreateCall(id, outcome) =>
        && id in untried
        && if Busy(outcome) then Search(untried - multiset{id}, calls[1..], r)
           else Concludes(outcome, calls[1..], r)
      case _ => false
  }

  function AttemptedIds(calls: seq<Call>): multiset<Id> {
    if calls == [] then multiset{}
    else (if calls[0].CreateCall? then multiset{calls[0].slotId} else multiset{}) + AttemptedIds(calls[1..])
  }

  predicate AllBusy(calls: seq<Call>) {
    forall i :: 0 <= i < |calls| ==> calls[i].CreateCall? && Busy(calls[i].outcome)
  }

  lemma AttemptedFirst(calls: seq<Call>)
    requires calls != [] && calls[0].CreateCall?
    ensures AttemptedIds(calls) == multiset{calls[0].slotId} + AttemptedIds(calls[1..])
  {
  }

  lemma SearchBusyFirst(untried: multiset<Id>, calls: seq<Call>, r: Result<Session, Error>)
    requires calls != [] && calls[0].CreateCall? && Busy(calls[0].outcome)
    requires calls[0].slotId in untried && Search(untried - multiset{calls[0].slotId}, calls[1..], r)
    ensures Search(untried, calls, r)
  {
  }

  lemma TakeFirst(all: multiset<Id>, id: Id, rest: multiset<Id>)
    requires multiset{id} + rest <= all
    ensures id in all && rest <= all - multiset{id}
    ensures all - (multiset{id} + rest) == all - multiset{id} - rest
  {
  }

  lemma DropFirst(busy: seq<Call>, calls: seq<Call>)
    requires busy != []
    ensures (busy + calls)[1..] == busy[1..] + calls
  {
  }

  /** A run of busy answers in front of a search is a longer search. */
  lemma {:induction false} SearchAfterBusy(
    untried: multiset<Id>, busy: seq<Call>, calls: seq<Call>, r: Result<Session, Error>)
    requires AllBusy(busy) && AttemptedIds(busy) <= untried
    requires Search(untried - AttemptedIds(busy), calls, r)
    ensures Search(untried, busy + calls, r)
    decreases |busy|
  {
    if busy == [] {
      assert busy + calls == calls && untried - AttemptedIds(busy) == untried;
    } else {
      AttemptedFirst(busy);
      hide AttemptedIds, Search, Busy;
      TakeFirst(untried, busy[0].slotId, AttemptedIds(busy[1..]));
      SearchAfterBusy(untried - multiset{busy[0].slotId}, busy[1..], calls, r);
      DropFirst(busy, calls);
      SearchBusyFirst(untried, busy + calls, r);
    }
  }

  lemma {:induction false} AttemptedOneMore(busy: seq<Call>, call: Call)
    requires call.CreateCall?
    ensures AttemptedIds(busy + [call]) == AttemptedIds(busy) + multiset{call.slotId}
  {
    if busy != [] {
      AttemptedOneMore(busy[1..], call);
      assert (busy + [call])[1..] == busy[1..] + [call];
    }
  }

  /** Each available slot is tried at most as often as it was offered: once, when ids are distinct. */
  lemma {:induction false} SlotsAreTriedOnce(untried: multiset<Id>, calls: seq<Call>, r: Result<Session, Error>)
    requires Search(untried, calls, r)
    ensures AttemptedIds(calls) <= untried
    decreases |calls|
  {
    if calls != [] {
      var id := calls[0].slotId;
      if Busy(calls[0].outcome) {
        SlotsAreTriedOnce(untried - multiset{id}, calls[1..], r);
      } else if |calls| > 1 {
        assert calls[1..] == [ReleaseCall(calls[0].outcome.value.id)];
        assert AttemptedIds(calls[1..]) == multiset{};
      }
    }
  }

  /** The search reports missing capacity only after every available slot answered 409 or 404. */
  lemma {:induction false} CapacityErrorMeansAllBusy(untried: multiset<Id>, calls: seq<Call>)
    requires Search(untried, calls, Err(NoProxyCapacity))
    ensures AllBusy(calls) && AttemptedIds(calls) == untried
    decreases |calls|
  {
    if calls != [] {
      assert Busy(calls[0].outcome);
      CapacityErrorMeansAllBusy(untried - multiset{calls[0].slotId}, calls[1..]);
    }
  }

  /** A successful search returns the first session created: everything before it was busy. */
  lemma {:induction false} FirstSessionWins(untried: multiset<Id>, calls: seq<Call>, session: Session)
    requires Search(untried, calls, Ok(session))
    ensures calls != [] && AllBusy(calls[..|calls| - 1])
    ensures calls[|calls| - 1].CreateCall? && calls[|calls| - 1].outcome == Ok(session)
    ensures SessionUsable(session)
    decreases |calls|
  {
    if Busy(calls[0].outcome) {
      FirstSessionWins(untried - multiset{calls[0].slotId}, calls[1..], session);
      assert calls[..|calls| - 1] == [calls[0]] + calls[1..][..|calls| - 2];
    }
  }

  /** The search leaves exactly the session it returns outstanding. */
  lemma {:induction false} SearchLeavesOnlyItsResult(
    before: seq<Call>, untried: multiset<Id>, calls: seq<Call>, r: Result<Session, Error>)
    requires Search(untried, calls, r)
    ensures Outstanding(before + calls) ==
            if r.Ok? then Outstanding(before) + multiset{r.value.id} else Outstanding(before)
    decreases |calls|
  {
    if calls == [] {
      assert before + calls == before;
    } else {
      OutstandingOne(before, calls[0]);
      hide Outstanding;
      Reassociate(before, calls);
      if Busy(calls[0].outcome) {
        SearchLeavesOnlyItsResult(before + [calls[0]], untried - multiset{calls[0].slotId}, calls[1..], r);
      } else {
        ConclusionLeavesOnlyItsResult(before, calls[0].slotId, calls[0].outcome, calls[1..], r);
      }
    }
  }

  lemma Reassociate(before: seq<Call>, calls: seq<Call>)
    requires calls != []
    ensures before + [calls[0]] + calls[1..] == before + calls
  {
  }

  lemma ConclusionLeavesOnlyItsResult(
    before: seq<Call>, slotId: Id, outcome: Result<Session, Failure>, after: seq<Call>, r: Result<Session, Error>)
    requires Concludes(outcome, after, r)
    ensures Outstanding(before + [CreateCall(slotId, outcome)] + after) ==
            if r.Ok? then Outstanding(before) + multiset{r.value.id} else Outstanding(before)
  {
    OutstandingOne(before, CreateCall(slotId, outcome));
    hide Outstanding;
    if after == [] {
      assert before + [CreateCall(slotId, outcome)] + after == before + [CreateCall(slotId, outcome)];
    } else {
      CreatedThenReleased(before, slotId, outcome.value);
      assert before + [CreateCall(slotId, outcome)] + after
          == before + [CreateCall(slotId, outcome), ReleaseCall(outcome.value.id)];
    }
  }

  // --------------------------------------------------- the search as a whole

  /** The calls of one random acquisition: a listing, then a search over what it offered. */
  predicate RandomSearch(before: seq<Call>, calls: seq<Call>, r: Result<Session, Error>) {
    var n := |before|;
    && n < |calls| && before <= calls
    && calls[n].ListCall?
    && if calls[n].answer.Err? then r == Err(Service(calls[n].answer.error)) && calls[n + 1..] == []
       else Search(AvailableIds(calls[n].answer.value), calls[n + 1..], r)
  }

  predicate Listed(before: seq<Call>, listing: seq<Call>, r: Result<seq<Slot>, Error>) {
    && |listing| == |before| + 1 && before <= listing && listing[|before|].ListCall?
    && var answer := listing[|before|].answer;
       if answer.Err? then r == Err(Service(answer.error))
       else if AvailableIds(answer.value) == multiset{} then r == Err(NoProxyCapacity)
       else r.Ok? && r.value != [] && Ids(r.value) == AvailableIds(answer.value)
  }

  lemma ListingFailed(before: seq<Call>, listing: seq<Call>, e: Error)
    requires Listed(before, listing, Err(e))
    ensures RandomSearch(before, listing, Err(e))
  {
    assert listing[|before| + 1..] == [];
  }

  lemma NothingAttempted()
    ensures AttemptedIds([]) == multiset{}
  {
  }

  lemma SearchFinished(before: seq<Call>, listing: seq<Call>, slots: seq<Slot>, calls: seq<Call>,
                       r: Result<Session, Error>)
    requires Listed(before, listing, Ok(slots)) && Search(Ids(slots), calls, r)
    ensures RandomSearch(before, listing + calls, r)
  {
    hide Search, Ids, AvailableIds;
    assert (listing + calls)[|before| + 1..] == calls;
  }

  lemma RandomStops(before: seq<Call>, listing: seq<Call>, offered: seq<Slot>, busy: seq<Call>, left: seq<Slot>)
    requires Listed(before, listing, Ok(offered)) && AllBusy(busy)
    requires AttemptedIds(busy) + Ids(left) == Ids(offered) && left != []
    ensures RandomSearch(before, listing + busy, Err(RandomFailed))
  {
    var last := |left| - 1;
    assert left[last].id in Ids(left);
    hide Ids, AttemptedIds, RandomSearch, Listed;
    assert Ids(offered) - AttemptedIds(busy) == Ids(left);
    SearchAfterBusy(Ids(offered), busy, [], Err(RandomFailed));
    assert busy + [] == busy;
    SearchFinished(before, listing, offered, busy, Err(RandomFailed));
  }

  lemma SlotsRunOut(before: seq<Call>, listing: seq<Call>, offered: seq<Slot>, busy: seq<Call>)
    requires Listed(before, listing, Ok(offered)) && AllBusy(busy)
    requires AttemptedIds(busy) == Ids(offered)
    ensures RandomSearch(before, listing + busy, Err(NoProxyCapacity))
  {
    hide Ids, AttemptedIds, RandomSearch, Listed;
    assert Ids(offered) - AttemptedIds(busy) == multiset{};
    SearchAfterBusy(Ids(offered), busy, [], Err(NoProxyCapacity));
    assert busy + [] == busy;
    SearchFinished(before, listing, offered, busy, Err(NoProxyCapacity));
  }

  lemma SearchConcludes(left: multiset<Id>, call: Call, after: seq<Call>, r: Result<Session, Error>)
    requires call.CreateCall? && !Busy(call.outcome) && Concludes(call.outcome, after, r) && call.slotId in left
    ensures Search(left, [call] + after, r)
  {
    assert ([call] + after)[1..] == after;
  }

  lemma AttemptEnds(before: seq<Call>, listing: seq<Call>, offered: seq<Slot>, busy: seq<Call>, left: multiset<Id>,
                    call: Call, after: seq<Call>, r: Result<Session, Error>)
    requires Listed(before, listing, Ok(offered)) && AllBusy(busy)
    requires call.CreateCall? && !Busy(call.outcome) && Concludes(call.outcome, after, r)
    requires AttemptedIds(busy) + left == Ids(offered) && call.slotId in left
    ensures RandomSearch(before, listing + busy + ([call] + after), r)
  {
    SearchConcludes(left, call, after, r);
    hide *;
    TakeAway(Ids(offered), AttemptedIds(busy), left);
    SearchAfterBusy(Ids(offered), busy, [call] + after, r);
    SearchFinished(before, listing, offered, busy + ([call] + after), r);
    CallsAssociate(listing, busy, [call] + after);
  }

  lemma TakeAway(all: multiset<Id>, taken: multiset<Id>, left: multiset<Id>)
    requires taken + left == all
    ensures all - taken == left && taken <= all
  {
  }

  lemma CallsAssociate(a: seq<Call>, b: seq<Call>, c: seq<Call>)
    ensures a + b + c == a + (b + c)
  {
  }

  /** createSession passes on a busy answer and turns nothing else into one. */
  lemma BusyConcludes(outcome: Result<Session, Failure>, after: seq<Call>, r: Result<Session, Error>)
    requires Concludes(outcome, after, r)
    ensures Busy(outcome) <==> r.Err? && ConflictOrMissing(r.error)
    ensures Busy(outcome) ==> after == []
  {
  }

  lemma SplitAt(before: seq<Call>, calls: seq<Call>)
    requires |before| < |calls| && before <= calls
    ensures calls == before + [calls[|before|]] + calls[|before| + 1..]
    ensures calls[|before| + 1..] == [] ==> calls == before + [calls[|before|]]
  {
  }

  /** A random acquisition leaves exactly the session it returns outstanding, and that session is usable. */
  lemma RandomSearchOwnsItsResult(before: seq<Call>, calls: seq<Call>, r: Result<Session, Error>)
    requires RandomSearch(before, calls, r)
    ensures Outstanding(calls) == if r.Ok? then Outstanding(before) + multiset{r.value.id} else Outstanding(before)
    ensures r.Ok? ==> SessionUsable(r.value)
  {
    var listed, search := calls[|before|], calls[|before| + 1..];
    hide Outstanding, Search, AfterCall;
    SplitAt(before, calls);
    ListingOwnsNothing(before, listed);
    if listed.answer.Ok? {
      var untried := AvailableIds(listed.answer.value);
      SearchLeavesOnlyItsResult(before + [listed], untried, search, r);
      if r.Ok? {
        FirstSessionWins(untried, search, r.value);
      }
    }
  }

  lemma ListingOwnsNothing(before: seq<Call>, listed: Call)
    requires listed.ListCall?
    ensures Outstanding(before + [listed]) == Outstanding(before)
  {
    OutstandingOne(before, listed);
  }

  // ------------------------------------------------------------------ programs

  /** The remote service: it may answer anything; every call is recorded. */
  class Remote {
    var calls: seq<Call>

    constructor ()
      ensures calls == []
    {
      calls := [];
    }

    method List() returns (answer: Result<seq<Slot>, Failure>)
      modifies this
      ensures calls == old(calls) + [ListCall(answer)]
    {
      answer := *;
      calls := calls + [ListCall(answer)];
    }

    method Create(slotId: Id) returns (outcome: Result<Session, Failure>)
      modifies this
      ensures calls == old(calls) + [CreateCall(slotId, outcome)]
    {
      outcome := *;
      calls := calls + [CreateCall(slotId, outcome)];
    }

    method Release(sessionId: Id)
      modifies this
      ensures calls == old(calls) + [ReleaseCall(sessionId)]
    {
      calls := calls + [ReleaseCall(sessionId)];
    }
  }

  /** A lease without remote inventory, or one that owns a Soxy session. */
  datatype Lease = Direct | Static(proxy: string) | Managed(session: Session)

  predicate ProxyValid(proxy: Proxy) {
    proxy.host != "" && 1 <= proxy.port <= 65535 && proxy.parses
  }

  class Manager {
    const proxies: seq<string>
    const scanProxies: seq<string>
    const remote: Remote?          // null without a Soxy client

    constructor (proxies: seq<string>, scanProxies: seq<string>, remote: Remote?)
      ensures this.proxies == proxies && this.scanProxies == scanProxies && this.remote == remote
    {
      this.proxies := proxies;
      this.scanProxies := scanProxies;
      this.remote := remote;
    }

    /** An index below `size`, unless the random source fails. */
    method RandomIndex(size: nat) returns (index: Option<nat>)
      requires size > 0
      ensures index.Some? ==> index.value < size
    {
      var draw: Option<nat> := *;
      index := if draw.Some? then Some(draw.value % size) else None;
    }

    method AvailableSlots() returns (r: Result<seq<Slot>, Error>)
      requires remote != null
      modifies remote
      ensures Listed(old(remote.calls), remote.calls, r)
    {
      var answer := remote.List();
      if answer.Err? {
        return Err(Service(answer.error));
      }
      var slots := answer.value;
      var available: seq<Slot> := [];
      hide Ids, AvailableIds, SlotAvailable;
      NoIds();
      ghost var listing := remote.calls;
      for i := 0 to |slots|
        invariant remote.calls == listing
        invariant Ids(available) == AvailableIds(slots[..i])
        invariant available == [] <==> Ids(available) == multiset{}
      {
        AvailableOne(slots, i);
        if SlotAvailable(slots[i]) {
          IdsOne(available, slots[i]);
          available := available + [slots[i]];
        }
      }
      assert slots[..|slots|] == slots;
      if available == [] {
        return Err(NoProxyCapacity);
      }
      return Ok(available);
    }

    method CreateSession(slotId: Id) returns (r: Result<Session, Error>)
      requires remote != null
      modifies remote
      ensures |old(remote.calls)| < |remote.calls| && old(remote.calls) < remote.calls
      ensures var n := |old(remote.calls)|;
              && remote.calls[n].CreateCall? && remote.calls[n].slotId == slotId
              && Concludes(remote.calls[n].outcome, remote.calls[n + 1..], r)
    {
      var outcome := remote.Create(slotId);
      if outcome.Err? {
        return Err(Service(outcome.error));
      }
      var session := outcome.value;
      if session.id.Blank? || session.status != "active" || !session.ready {
        if session.id.Named? {
          remote.Release(session.id);
        }
        return Err(NotReady);
      }
      return Ok(session);
    }

    /** Tries available slots in random order until one yields a session or a real error. */
    method AcquireRandomSoxySession() returns (r: Result<Session, Error>)
      requires remote != null
      modifies remote
      ensures RandomSearch(old(remote.calls), remote.calls, r)
    {
      hide RandomSearch, Search, AttemptedIds, AvailableIds, Ids, Concludes, Busy;
      ghost var start := remote.calls;
      var listed := AvailableSlots();
      ghost var listing := remote.calls;
      if listed.Err? {
        ListingFailed(start, listing, listed.error);
        return Err(listed.error);
      }
      ghost var all := Ids(listed.value);
      var slots := listed.value;
      ghost var busy: seq<Call> := [];
      NothingAttempted();
      NoIds();
      while slots != []
        invariant remote.calls == listing + busy
        invariant AllBusy(busy)
        invariant AttemptedIds(busy) + Ids(slots) == all
        decreases |slots|
      {
        var index := RandomIndex(|slots|);
        if index.None? {
          r := Err(RandomFailed);
          RandomStops(start, listing, listed.value, busy, slots);
          return;
        }
        var slot := slots[index.value];
        ghost var untried := Ids(slots);
        SwapRemove(slots, index.value);
        slots := slots[index.value := slots[|slots| - 1]][..|slots| - 1];
        ghost var before := remote.calls;
        r := CreateSession(slot.id);
        ghost var call := remote.calls[|before|];
        ghost var after := remote.calls[|before| + 1..];
        assert remote.calls == listing + busy + ([call] + after);
        var keepTrying := r.Err? && ConflictOrMissing(r.error);
        BusyConcludes(call.outcome, after, r);
        if !keepTrying {
          AttemptEnds(start, listing, listed.value, busy, untried, call, after, r);
          return;
        }
        assert remote.calls == listing + (busy + [call]);
        AttemptedOneMore(busy, call);
        busy := busy + [call];
      }
      SlotsRunOut(start, listing, listed.value, busy);
      r := Err(NoProxyCapacity);
    }

    /** A session for this purpose: any free slot for scans, the service's choice for sessions. */
    method CreateFor(purpose: Purpose) returns (created: Result<Session, Error>)
      requires remote != null && !purpose.OtherPurpose?
      modifies remote
      ensures Outstanding(remote.calls) ==
              if created.Ok? then Outstanding(old(remote.calls)) + multiset{created.value.id}
              else Outstanding(old(remote.calls))
      ensures created.Ok? ==> SessionUsable(created.value)
    {
      hide RandomSearch, Outstanding;
      ghost var start := remote.calls;
      if purpose.ScanPurpose? {
        created := AcquireRandomSoxySession();
        RandomSearchOwnsItsResult(start, remote.calls, created);
      } else {
        created := CreateSession(Blank);
        ghost var n := |start|;
        ConclusionLeavesOnlyItsResult(start, Blank, remote.calls[n].outcome, remote.calls[n + 1..], created);
        assert remote.calls == start + [CreateCall(Blank, remote.calls[n].outcome)] + remote.calls[n + 1..];
      }
    }

    /** Policy order: standard proxies, then legacy scan proxies for scans, then direct, then Soxy. */
    method Acquire(purpose: Purpose) returns (r: Result<Lease, Error>)
      modifies if remote == null then {} else {remote}
      ensures purpose.OtherPurpose? ==> r == Err(UnknownPurpose)
      ensures purpose.OtherPurpose? && remote != null ==> remote.calls == old(remote.calls)
      ensures r.Ok? && !r.value.Static? ==> proxies == [] && (purpose.ScanPurpose? ==> scanProxies == [])
      ensures r.Ok? && r.value.Direct? ==> remote == null
      ensures remote != null && (proxies != [] || (purpose.ScanPurpose? && scanProxies != [])) ==>
                remote.calls == old(remote.calls)
      ensures r.Ok? && r.value.Static? ==>
                r.value.proxy in proxies || (proxies == [] && purpose.ScanPurpose? && r.value.proxy in scanProxies)
      ensures r.Ok? && r.value.Managed? ==>
                remote != null && SessionUsable(r.value.session) && ProxyValid(r.value.session.proxy)
      ensures remote != null ==>
                Outstanding(remote.calls) ==
                if r.Ok? && r.value.Managed? then Outstanding(old(remote.calls)) + multiset{r.value.session.id}
                else Outstanding(old(remote.calls))
    {
      if purpose.OtherPurpose? {
        return Err(UnknownPurpose);
      }
      if |proxies| > 0 {
        var index := RandomIndex(|proxies|);
        if index.None? { return Err(RandomFailed); }
        return Ok(Static(proxies[index.value]));
      }
      if purpose.ScanPurpose? && |scanProxies| > 0 {
        var index := RandomIndex(|scanProxies|);
        if index.None? { return Err(RandomFailed); }
        return Ok(Static(scanProxies[index.value]));
      }
      if remote == null {
        return Ok(Direct);
      }
      hide Outstanding;
      var created := CreateFor(purpose);
      if created.Err? {
        return Err(created.error);
      }
      var session := created.value;
      if !ProxyValid(session.proxy) {
        OutstandingOne(remote.calls, ReleaseCall(session.id));
        remote.Release(session.id);
        return Err(InvalidProxy);
      }
      return Ok(Managed(session));
    }

    /** Assignments may only name the default scan policy, and only for scans. */
    method AcquireForPolicy(purpose: Purpose, policyId: string) returns (r: Result<Lease, Error>)
      modifies if remote == null then {} else {remote}
      ensures !purpose.ScanPurpose? || Trim(policyId) != "scan_default" ==>
                r == Err(UnknownPolicy) && (remote != null ==> remote.calls == old(remote.calls))
      ensures r.Ok? && !r.value.Static? ==> proxies == [] && scanProxies == []
      ensures remote != null ==>
                Outstanding(remote.calls) ==
                if r.Ok? && r.value.Managed? then Outstanding(old(remote.calls)) + multiset{r.value.session.id}
                else Outstanding(old(remote.calls))
    {
      if !purpose.ScanPurpose? {
        return Err(UnknownPolicy);
      }
      if Trim(policyId) != "scan_default" {
        return Err(UnknownPolicy);
      }
      r := Acquire(purpose);
    }

    /** The release function of a managed lease, as Lease.Close calls it: the session is no longer owned. */
    method ReleaseLease(lease: Lease)
      requires lease.Managed? ==> remote != null
      modifies if remote == null then {} else {remote}
      ensures remote != null && lease.Managed? ==>
                Outstanding(remote.calls) == Outstanding(old(remote.calls)) - multiset{lease.session.id}
    {
      if lease.Managed? {
        OutstandingOne(remote.calls, ReleaseCall(lease.session.id));
        remote.Release(lease.session.id);
      }
    }
  }
}
