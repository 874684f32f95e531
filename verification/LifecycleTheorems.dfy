/** The promises of the browser lifecycle, for every interleaving of any number of tasks. */
module LifecycleTheorems {
  import opened Text
  import opened Lifecycle
  import opened LifecycleTask
  import opened LifecycleRuns

  // ------------------------------------------------------------- conservation

  /** Each slot is either free, once, or held by exactly one task. */
  lemma SlotsAreConserved(states: seq<State>, steps: seq<Step>, i: nat, n: nat)
    requires Run(states, steps) && i < |states|
    requires n < CAPACITY
    ensures |states[i].slots| <= CAPACITY
    ensures multiset(states[i].slots)[n] <= 1
    ensures n in states[i].slots <==> !exists t: TaskId :: HoldsSlot(states[i], t, n)
    ensures forall t: TaskId, u: TaskId :: HoldsSlot(states[i], t, n) && HoldsSlot(states[i], u, n) ==> t == u
  {
    RunKeepsInv(states, steps, i);
    hide TasksOk, SessionOk, TokensConserved, PoolPhaseOk, LeasesOk;
    var s := states[i];
    DistinctBelow(s.slots, {0, 1, 2});
    OccursOnce(s.slots, n);
  }

  lemma {:induction false} DistinctBelow(slots: seq<nat>, range: set<nat>)
    requires forall k :: 0 <= k < |slots| ==> slots[k] in range
    requires forall k, l :: 0 <= k < l < |slots| ==> slots[k] != slots[l]
    ensures |slots| <= |range|
  {
    if slots != [] {
      DistinctBelow(slots[1..], range - {slots[0]});
    }
  }

  lemma {:induction false} OccursOnce(slots: seq<nat>, n: nat)
    requires forall k, l :: 0 <= k < l < |slots| ==> slots[k] != slots[l]
    ensures multiset(slots)[n] <= 1
    ensures multiset(slots)[n] == 1 <==> n in slots
  {
    if slots != [] {
      assert slots == [slots[0]] + slots[1..];
      OccursOnce(slots[1..], n);
    }
  }

  /** The session token is free or with exactly one task. */
  lemma SessionTokenIsConserved(states: seq<State>, steps: seq<Step>, i: nat)
    requires Run(states, steps) && i < |states|
    ensures states[i].sessions <= 1
    ensures states[i].sessions == 1 <==> !exists t: TaskId :: HoldsSession(states[i], t)
    ensures forall t: TaskId, u: TaskId :: HoldsSession(states[i], t) && HoldsSession(states[i], u) ==> t == u
  {
    RunKeepsInv(states, steps, i);
  }

  /** Pool tokens in the channel and with openings or active adapters always add up to the capacity. */
  lemma PoolTokensAreConserved(states: seq<State>, steps: seq<Step>, i: nat)
    requires Run(states, steps) && i < |states|
    ensures states[i].poolTokens + |TokenHolders(states[i].tasks)| == CAPACITY
    ensures ActiveSet(states[i]) <= TokenHolders(states[i].tasks)
    ensures forall t :: t in TokenHolders(states[i].tasks) - ActiveSet(states[i]) ==>
                          TokenWithOpen(states[i].tasks[t].pc)
  {
    RunKeepsInv(states, steps, i);
    hide Run;
    forall t | t in states[i].tasks
      ensures states[i].tasks[t].inActive ==> states[i].tasks[t].poolToken
      ensures states[i].tasks[t].poolToken && !states[i].tasks[t].inActive ==> TokenWithOpen(states[i].tasks[t].pc)
    {
      hide TasksOk;
      TasksAt(states[i], t);
    }
  }

  /** No send of a token ever blocks: the channel has room whenever one is given back. */
  lemma ReturnsFindRoom(states: seq<State>, steps: seq<Step>, i: nat)
    requires Run(states, steps) && i < |steps| && steps[i].Act?
    ensures steps[i].action.ReturnSlot? || steps[i].action.HookSlot? ==> |states[i].slots| < CAPACITY
    ensures states[i + 1].sessions > states[i].sessions ==> states[i].sessions < 1
    ensures states[i + 1].poolTokens > states[i].poolTokens ==> states[i].poolTokens < CAPACITY
  {
    RunKeepsInv(states, steps, i);
    RunKeepsInv(states, steps, i + 1);
    var s, t, a := states[i], steps[i].task, steps[i].action;
    hide Run, SlotsOk, PoolPhaseOk, LeasesOk;
    assert Enabled(s, steps[i]) by { RunStep(states, steps, i); }
    if a.ReturnSlot? || a.HookSlot? {
      hide Next, SessionOk, TokensConserved;
      var x := s.tasks[t];
      SlotMoveShape(s, x, a);
      hide TasksOk, Can, Allowed;
      HeldSlotLeavesRoom(s, t, x.slot.value);
    }
  }

  lemma RunStep(states: seq<State>, steps: seq<Step>, i: nat)
    requires Run(states, steps) && i < |steps|
    ensures Enabled(states[i], steps[i]) && states[i + 1] == Next(states[i], steps[i])
  {
  }

  lemma HeldSlotLeavesRoom(s: State, t: TaskId, n: nat)
    requires SlotsOk(s) && HoldsSlot(s, t, n)
    ensures |s.slots| < CAPACITY
  {
    DistinctBelow(s.slots, {0, 1, 2} - {n});
  }

  /** A slot goes back once per task, after the task's own lease is closed, its scan profile removed
      and its browser stopped. */
  lemma SlotReturnsLast(states: seq<State>, steps: seq<Step>, i: nat)
    requires Run(states, steps) && i < |steps| && steps[i].Act?
    requires steps[i].action.ReturnSlot? || steps[i].action.HookSlot?
    ensures var x := states[i].tasks[steps[i].task];
            && x.slotReturns == 0
            && !x.lease.LeaseOpen?
            && !x.profile.Scratch?
            && !x.browser.Live?
  {
    RunKeepsInv(states, steps, i);
    RunStep(states, steps, i);
    hide Run, Next, SlotsOk, SessionOk, TokensConserved, PoolPhaseOk, LeasesOk, Allowed, TaskOk, Can;
    ReturningTask(states[i].tasks[steps[i].task], steps[i].action);
  }

  lemma ReturningTask(x: Task, a: Action)
    requires TaskOk(x) && Can(x, a) && (a.ReturnSlot? || a.HookSlot?)
    ensures x.slotReturns == 0 && !x.lease.LeaseOpen? && !x.profile.Scratch? && !x.browser.Live?
  {
  }

  // -------------------------------------------------------------- exclusivity

  /** A live browser works on the account profile. */
  predicate UsesAccount(s: State, t: TaskId) {
    t in s.tasks && s.tasks[t].browser.Live? && s.tasks[t].profile.Account?
  }

  lemma LiveTaskFacts(x: Task)
    requires TaskOk(x) && x.browser.Live?
    ensures x.profile.Account? ==> x.session
    ensures x.purpose.ScanPurpose? ==> x.profile.Scratch?
    ensures x.purpose.SessionPurpose? ==> x.profile.Account?
    ensures !x.purpose.OtherPurpose?
    ensures x.opening || x.inActive || x.pc.Initialising?
    ensures x.slot.Some?
    ensures PastPool(x.pc)
  {
  }

  /** At most one live browser uses the account profile, and it holds the session token and a slot. */
  lemma AccountProfileIsExclusive(states: seq<State>, steps: seq<Step>, i: nat, t: TaskId, u: TaskId)
    requires Run(states, steps) && i < |states|
    requires UsesAccount(states[i], t) && UsesAccount(states[i], u)
    ensures t == u
    ensures HoldsSession(states[i], t) && states[i].sessions == 0
    ensures states[i].tasks[t].slot.Some?
  {
    RunKeepsInv(states, steps, i);
    hide Run, SlotsOk, TokensConserved, PoolPhaseOk, LeasesOk, TaskOk;
    LiveTaskFacts(states[i].tasks[t]);
    LiveTaskFacts(states[i].tasks[u]);
    assert HoldsSession(states[i], t) && HoldsSession(states[i], u);
  }

  /** Scans run in their own fresh directory; a purpose that is neither scan nor session never runs. */
  lemma ProfilesFollowPurposes(states: seq<State>, steps: seq<Step>, i: nat, t: TaskId)
    requires Run(states, steps) && i < |states|
    requires t in states[i].tasks && states[i].tasks[t].browser.Live?
    ensures states[i].tasks[t].purpose.ScanPurpose? ==> states[i].tasks[t].profile.Scratch?
    ensures states[i].tasks[t].purpose.SessionPurpose? ==> states[i].tasks[t].profile.Account?
    ensures !states[i].tasks[t].purpose.OtherPurpose?
  {
    RunKeepsInv(states, steps, i);
    hide Run, TaskOk;
    LiveTaskFacts(states[i].tasks[t]);
  }

  /** Two live scans never share a directory. */
  lemma ScansHaveTheirOwnDirectory(states: seq<State>, steps: seq<Step>, i: nat, t: TaskId, u: TaskId)
    requires Run(states, steps) && i < |states| && t != u
    requires t in states[i].tasks && states[i].tasks[t].browser.Live? && states[i].tasks[t].purpose.ScanPurpose?
    requires u in states[i].tasks && states[i].tasks[u].browser.Live? && states[i].tasks[u].purpose.ScanPurpose?
    ensures states[i].tasks[t].profile.Scratch? && states[i].tasks[u].profile.Scratch?
    ensures states[i].tasks[t].profile != states[i].tasks[u].profile
  {
    ProfilesFollowPurposes(states, steps, i, t);
    ProfilesFollowPurposes(states, steps, i, u);
    RunKeepsInv(states, steps, i);
    hide Run, TasksOk, SlotsOk, SessionOk, TokensConserved, PoolPhaseOk, LeasesOk, SnapshotOk;
    var s := states[i];
    assert InDir(s, t, s.tasks[t].profile.dir);
    assert InDir(s, u, s.tasks[u].profile.dir);
  }

  // --------------------------------------------------------------- close hooks

  /** Each hook runs at most once and only with the browser stopped; once the adapter is closed and
      Open has returned, each has run exactly once. */
  lemma HooksRunOnce(states: seq<State>, steps: seq<Step>, i: nat, t: TaskId)
    requires Run(states, steps) && i < |states| && t in states[i].tasks
    ensures var x := states[i].tasks[t];
            && x.poolHookRuns <= 1 && x.factoryHookRuns <= 1 && x.slotReturns <= 1
            && (x.poolHookRuns + x.factoryHookRuns > 0 || x.poolHook.Inline? || x.factoryHook.Inline? || !x.body.Idle?
                ==> !x.browser.Live?)
            && (x.phase.AdapterClosed? && x.pc.Returned? ==> x.poolHookRuns == x.factoryHookRuns == x.slotReturns == 1)
  {
    RunKeepsInv(states, steps, i);
    hide Run, SlotsOk, SessionOk, TokensConserved, PoolPhaseOk, LeasesOk;
    assert TaskOk(states[i].tasks[t]);
  }

  // --------------------------------------------------------------- quiescence

  lemma PoolClosedStep(s: State, step: Step)
    requires Enabled(s, step) && s.pool.PoolClosed?
    ensures Next(s, step).pool.PoolClosed?
  {
    hide Can, Do, NextTask, Shared, Allowed;
    match step {
      case Act(t, a) => CloseFrame(s, s.tasks[t], a);
      case _ =>
    }
  }

  lemma {:induction false} PoolStaysClosed(states: seq<State>, steps: seq<Step>, i: nat, j: nat)
    requires Run(states, steps) && i <= j < |states|
    requires states[i].pool.PoolClosed?
    ensures states[j].pool.PoolClosed?
  {
    hide Next, Enabled;
    if i < j {
      PoolStaysClosed(states, steps, i, j - 1);
      RunStep(states, steps, j - 1);
      PoolClosedStep(states[j - 1], steps[j - 1]);
    }
  }

  lemma ClosedPoolRefuses(s: State)
    requires PoolIsClosed(s)
    ensures forall t: TaskId :: !Enabled(s, Act(t, BeginOpening)) && !Enabled(s, Act(t, EnterActive))
  {
  }

  lemma LeavingIsOpening(s: State)
    requires TasksOk(s) && forall t :: t in s.tasks ==> !s.tasks[t].opening
    ensures forall t: TaskId :: !Enabled(s, Act(t, LeavePool))
  {
    hide TaskOk, Allowed, Can;
    forall t: TaskId ensures !Enabled(s, Act(t, LeavePool)) {
      if t in s.tasks && Can(s.tasks[t], LeavePool) {
        TasksAt(s, t);
        LeavingTaskIsOpening(s.tasks[t]);
      }
    }
  }

  lemma LeavingTaskIsOpening(x: Task)
    requires TaskOk(x) && Can(x, LeavePool)
    ensures x.opening
  {
  }

  /** After BrowserPool.Close has returned, for good: pool.active is empty, no adapter the pool created
      is live, no opening is in flight, and none can start or succeed. */
  lemma ClosedPoolIsQuiet(states: seq<State>, steps: seq<Step>, i: nat, j: nat)
    requires Run(states, steps) && i <= j < |states|
    requires states[i].pool.PoolClosed?
    ensures ActiveSet(states[j]) == {}
    ensures forall t :: t in states[j].tasks ==> !states[j].tasks[t].browser.Live?
    ensures forall t :: t in states[j].tasks ==> !states[j].tasks[t].opening
    ensures forall t: TaskId :: !Enabled(states[j], Act(t, BeginOpening)) && !Enabled(states[j], Act(t, EnterActive))
    ensures forall t: TaskId :: !Enabled(states[j], Act(t, LeavePool))
  {
    PoolStaysClosed(states, steps, i, j);
    RunKeepsInv(states, steps, j);
    var s := states[j];
    hide Run, SlotsOk, SessionOk, TokensConserved, LeasesOk, Next, Enabled, TaskOk;
    ClosedPoolRefuses(s);
    LeavingIsOpening(s);
    forall t | t in s.tasks ensures !s.tasks[t].browser.Live? && !s.tasks[t].opening {
      ClosedPoolTask(s.tasks[t]);
    }
  }

  lemma ClosedPoolTask(x: Task)
    requires TaskOk(x) && !x.opening && !x.inActive
    ensures !x.browser.Live?
  {
  }

  /** At most one session lease is open, and after Factory.Close none is, once no leaseForTask is in flight. */
  lemma SessionLeasesAreExclusive(states: seq<State>, steps: seq<Step>, i: nat)
    requires Run(states, steps) && i < |states|
    ensures forall a: nat, b: nat :: LeaseIsOpen(states[i], a) && LeaseIsOpen(states[i], b) ==> a == b
    ensures states[i].factory.FactoryClosed? &&
            (forall t :: t in states[i].tasks ==> !ManagingLease(states[i].tasks[t].pc))
            ==> forall a: nat :: !LeaseIsOpen(states[i], a)
  {
    RunKeepsInv(states, steps, i);
    var s := states[i];
    hide Run, SlotsOk, TokensConserved, PoolPhaseOk;
    HandImpliesManaging(s);
    forall t: TaskId, u: TaskId, a: nat, b: nat | InHand(s, t, a) && InHand(s, u, b) ensures t == u {
      hide TaskOk;
      ManagerFacts(s.tasks[t]);
      ManagerFacts(s.tasks[u]);
      assert HoldsSession(s, t) && HoldsSession(s, u);
    }
  }

  /** After Factory.Close has returned no browser of any task is live. */
  lemma ClosedFactoryIsQuiet(states: seq<State>, steps: seq<Step>, i: nat, t: TaskId)
    requires Run(states, steps) && i < |states|
    requires states[i].factory.FactoryClosed? && t in states[i].tasks
    ensures !states[i].tasks[t].browser.Live?
  {
    RunKeepsInv(states, steps, i);
    hide Run, SlotsOk, SessionOk, TokensConserved, LeasesOk, TaskOk;
    var x := states[i].tasks[t];
    if x.browser.Live? {
      LiveTaskFacts(x);
      ClosedPoolTask(x);
      assert false;
    }
  }

  /** A task that has failed, or whose adapter was handed out and has been closed. */
  predicate AtRest(x: Task) {
    x.pc.Failed? || (x.pc.Returned? && x.phase.AdapterClosed?)
  }

  lemma RestingTaskHoldsNothing(x: Task)
    requires TaskOk(x) && AtRest(x)
    ensures x.slot.None? && !x.session && !x.poolToken && !x.opening && !x.inActive
    ensures !x.lease.LeaseOpen? && !x.profile.Scratch? && !x.browser.Live?
  {
  }

  /** When every task is at rest, everything is back: all slots, the session token, all pool tokens. */
  lemma NothingLeaks(states: seq<State>, steps: seq<Step>, i: nat)
    requires Run(states, steps) && i < |states|
    requires forall t :: t in states[i].tasks ==> AtRest(states[i].tasks[t])
    ensures multiset(states[i].slots) == multiset{0, 1, 2}
    ensures states[i].sessions == 1
    ensures states[i].poolTokens == CAPACITY
    ensures forall t :: t in states[i].tasks ==>
              var x := states[i].tasks[t];
              !x.lease.LeaseOpen? && !x.profile.Scratch? && !x.browser.Live?
  {
    RunKeepsInv(states, steps, i);
    var s := states[i];
    hide Run, PoolPhaseOk, LeasesOk, AtRest;
    forall t | t in s.tasks
      ensures s.tasks[t].slot.None? && !s.tasks[t].session && !s.tasks[t].poolToken
      ensures !s.tasks[t].lease.LeaseOpen? && !s.tasks[t].profile.Scratch? && !s.tasks[t].browser.Live?
    {
      hide TaskOk;
      RestingTaskHoldsNothing(s.tasks[t]);
    }
    assert TokenHolders(s.tasks) == {};
    assert forall t: TaskId, n: nat :: !HoldsSlot(s, t, n);
    assert forall t: TaskId :: !HoldsSession(s, t);
    forall n: nat ensures multiset(s.slots)[n] == multiset{0 as nat, 1, 2}[n] {
      OccursOnce(s.slots, n);
    }
  }

  // ------------------------------------------------------------------ progress

  predicate Closing(x: Task) {
    x.phase.Stopping? || x.phase.BrowserGone? || x.phase.RunningHooks?
  }

  /** The next statement of the goroutine inside adapter.closeOnce. */
  function CloserAction(x: Task): Action
    requires Closing(x)
  {
    if x.phase.Stopping? then StopBrowser
    else if x.phase.BrowserGone? then TakeHooks
    else if x.poolHook.Taken? then RunPoolHook
    else if !x.factoryHook.Taken? then EndClose
    else
      match x.body
      case Idle => StartFactoryHook
      case LeaseNext => HookLease
      case ProfileNext => HookProfile
      case SlotNext => HookSlot
      case _ => HookSession
  }

  /** What Adapter.Close still has to do. */
  function CloseWork(x: Task): nat {
    match x.phase
    case Stopping => 9
    case BrowserGone => 8
    case RunningHooks =>
      1 + (if x.poolHook.Taken? then 1 else 0)
      + (if !x.factoryHook.Taken? then 0
         else match x.body
              case Idle => 5
              case LeaseNext => 4
              case ProfileNext => 3
              case SlotNext => 2
              case _ => 1)
    case _ => 0
  }

  lemma CloserMoves(x: Task, slot: nat, detached: Option<nat>, factoryClosed: bool)
    requires TaskOk(x) && Closing(x)
    ensures Can(x, CloserAction(x))
    ensures CloseWork(Do(x, CloserAction(x), slot, detached, factoryClosed)) < CloseWork(x)
  {
  }

  lemma OthersDoNotDelay(x: Task, a: Action, slot: nat, detached: Option<nat>, factoryClosed: bool)
    requires TaskOk(x) && Can(x, a) && Closing(x)
    ensures CloseWork(Do(x, a, slot, detached, factoryClosed)) <= CloseWork(x)
  {
    hide TaskOk, Can, Do, CloseWork, Closing;
    if FactoryAction(a) {
      FactoryDoesNotDelay(x, a, slot, detached, factoryClosed);
    } else if PoolAction(a) {
      PoolDoesNotDelay(x, a, slot, detached, factoryClosed);
    } else {
      RestDoesNotDelay(x, a, slot, detached, factoryClosed);
    }
  }

  lemma FactoryDoesNotDelay(x: Task, a: Action, slot: nat, detached: Option<nat>, factoryClosed: bool)
    requires FactoryAction(a)
    ensures CloseWork(Do(x, a, slot, detached, factoryClosed)) <= CloseWork(x)
  {
    hide DoPool, DoClose;
  }

  lemma PoolDoesNotDelay(x: Task, a: Action, slot: nat, detached: Option<nat>, factoryClosed: bool)
    requires TaskOk(x) && Can(x, a) && Closing(x) && PoolAction(a)
    ensures CloseWork(Do(x, a, slot, detached, factoryClosed)) <= CloseWork(x)
  {
    hide DoFactory, DoClose;
    hide TokensOk, LeaseAndProfileOk;
  }

  lemma RestDoesNotDelay(x: Task, a: Action, slot: nat, detached: Option<nat>, factoryClosed: bool)
    requires TaskOk(x) && Can(x, a) && Closing(x) && !FactoryAction(a) && !PoolAction(a)
    ensures CloseWork(Do(x, a, slot, detached, factoryClosed)) <= CloseWork(x)
  {
    hide DoFactory, DoPool;
    hide TokensOk, LeaseAndProfileOk, BrowserOk;
  }

  /** What the goroutine inside Adapter.Close may have to wait for: running captures, or an extend call. */
  predicate CloserWaits(s: State, t: TaskId) {
    && t in s.tasks
    && ((s.tasks[t].phase.Stopping? && s.captures[t] > 0) || (s.tasks[t].body.LeaseNext? && t in s.scanExtends))
  }

  lemma CloserIsReady(s: State, t: TaskId)
    requires t in s.tasks && TaskOk(s.tasks[t]) && Closing(s.tasks[t])
    ensures Enabled(s, Act(t, CloserAction(s.tasks[t]))) || CloserWaits(s, t)
  {
    var x := s.tasks[t];
    CloserMoves(x, if s.slots == [] then 0 else s.slots[0], s.sessionLease, FactoryIsClosed(s));
    hide TaskOk, Can;
  }

  /** Once an adapter is closing, captures of its browser only end. */
  lemma ClosingGainsNoCapture(s: State, step: Step, t: TaskId)
    requires t in s.tasks && Closing(s.tasks[t]) && Enabled(s, step)
    ensures Next(s, step).captures[t] <= s.captures[t]
  {
    if step.Act? {
      CaptureFrame(s, s.tasks[step.task], step.action);
    }
    hide Do, Can, Shared, NextTask, Allowed;
  }

  lemma CaptureFrame(s: State, x: Task, a: Action)
    ensures Shared(s, x, a).captures == s.captures
  {
  }

  /** Adapter.Close ends as soon as the captures it waits for end and the extend call it waits for returns: its
      goroutine can take its next step, or is waiting for just that; each of its steps leaves strictly less to do;
      no other step of the task adds work, and no step adds a capture. */
  lemma CloseTerminates(states: seq<State>, steps: seq<Step>, i: nat, t: TaskId)
    requires Run(states, steps) && i < |states|
    requires t in states[i].tasks && Closing(states[i].tasks[t])
    ensures var s, x := states[i], states[i].tasks[t];
            && (Enabled(s, Act(t, CloserAction(x))) || CloserWaits(s, t))
            && CloseWork(NextTask(s, x, CloserAction(x))) < CloseWork(x)
            && (forall a: Action :: Enabled(s, Act(t, a)) ==> CloseWork(NextTask(s, x, a)) <= CloseWork(x))
            && (forall step: Step :: Enabled(s, step) ==> Next(s, step).captures[t] <= s.captures[t])
  {
    RunKeepsInv(states, steps, i);
    var s, x := states[i], states[i].tasks[t];
    hide Run, SlotsOk, SessionOk, TokensConserved, PoolPhaseOk, LeasesOk, DirsOk, SnapshotOk;
    TasksAt(s, t);
    CloserIsReady(s, t);
    forall step: Step | Enabled(s, step) ensures Next(s, step).captures[t] <= s.captures[t] {
      ClosingGainsNoCapture(s, step, t);
    }
    hide TaskOk, Can, Do, CloseWork, Next, CloserWaits, CloserAction, Allowed, Undisturbed, TasksOk;
    var slot := if s.slots == [] then 0 else s.slots[0];
    CloserMoves(x, slot, s.sessionLease, FactoryIsClosed(s));
    forall a: Action | Enabled(s, Act(t, a)) ensures CloseWork(NextTask(s, x, a)) <= CloseWork(x) {
      OthersDoNotDelay(x, a, slot, s.sessionLease, FactoryIsClosed(s));
    }
  }
}
