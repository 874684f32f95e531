/** Conservation, exclusivity and quiescence of browser tasks over every run. */
module LifecycleRuns {
  import opened Text
  import opened Lifecycle
  import opened LifecycleTask

  // --------------------------------------------------------------- invariants

  ghost predicate TasksOk(s: State) {
    forall t :: t in s.tasks ==> TaskOk(s.tasks[t])
  }

  predicate HoldsSlot(s: State, t: TaskId, n: nat) {
    t in s.tasks && s.tasks[t].slot == Some(n)
  }

  predicate HoldsSession(s: State, t: TaskId) {
    t in s.tasks && s.tasks[t].session
  }

  /** Free slots and held slots are together exactly 0, 1 and 2, each once. */
  ghost predicate SlotsOk(s: State) {
    && (forall i :: 0 <= i < |s.slots| ==> s.slots[i] < CAPACITY)
    && (forall i, j :: 0 <= i < j < |s.slots| ==> s.slots[i] != s.slots[j])
    && (forall t: TaskId, n: nat :: HoldsSlot(s, t, n) ==> n < CAPACITY && n !in s.slots)
    && (forall t: TaskId, u: TaskId, n: nat :: HoldsSlot(s, t, n) && HoldsSlot(s, u, n) ==> t == u)
    && (forall n: nat :: n < CAPACITY && n !in s.slots ==> exists t: TaskId :: HoldsSlot(s, t, n))
  }

  /** The session token is in its channel or with exactly one task. */
  ghost predicate SessionOk(s: State) {
    && s.sessions <= 1
    && (s.sessions == 1 ==> forall t: TaskId :: !HoldsSession(s, t))
    && (s.sessions == 0 ==> exists t: TaskId :: HoldsSession(s, t))
    && (forall t: TaskId, u: TaskId :: HoldsSession(s, t) && HoldsSession(s, u) ==> t == u)
  }

  function TokenHolders(tasks: map<TaskId, Task>): set<TaskId> {
    set t | t in tasks && tasks[t].poolToken
  }

  ghost predicate TokensConserved(s: State) {
    s.poolTokens + |TokenHolders(s.tasks)| == CAPACITY
  }

  predicate PastPool(pc: Pc) {
    pc.AtProfile? || pc.AtPoolToken? || TokenWithOpen(pc) || MayRun(pc)
  }

  /** What the pool's Close has achieved so far. */
  ghost predicate PoolPhaseOk(s: State) {
    && (forall t :: t in s.tasks && PastPool(s.tasks[t].pc) ==> s.poolExists)
    && (PoolIsClosed(s) ==> FactoryIsClosed(s) && s.poolExists)
    && (s.pool.PoolDraining? || s.pool.PoolStopping? ==>
          forall t :: t in s.tasks && s.tasks[t].inActive ==> t in s.pool.adapters)
    && (s.pool.PoolStopping? || s.pool.PoolClosed? ==> forall t :: t in s.tasks ==> !s.tasks[t].opening)
    && (s.pool.PoolClosed? ==> forall t :: t in s.tasks ==> !s.tasks[t].inActive)
    && (s.factory.FactoryLeaving? || s.factory.FactoryClosed? ==> s.poolExists ==> s.pool.PoolClosed?)
  }

  /** The session lease a task is responsible for while it replaces the published one. */
  function Hand(pc: Pc): Option<nat> {
    match pc
    case ClosingOld(id) => Some(id)
    case Installing(id) => Some(id)
    case Dropping(id) => Some(id)
    case _ => None
  }

  predicate InHand(s: State, t: TaskId, id: nat) {
    t in s.tasks && Hand(s.tasks[t].pc) == Some(id)
  }

  /** Every open session lease is the published one or in the hands of the task replacing it. */
  ghost predicate LeasesOk(s: State) {
    && (forall id: nat :: LeaseIsOpen(s, id) ==> s.sessionLease == Some(id) || exists t: TaskId :: InHand(s, t, id))
    && (forall t :: t in s.tasks && ManagingLease(s.tasks[t].pc) ==> s.sessionLease.None?)
    && (forall t: TaskId, id: nat :: InHand(s, t, id) ==> id in s.leases)
    && (s.sessionLease.Some? ==> s.sessionLease.value in s.leases)
    && (s.factory.FactoryFlagged? || s.factory.FactoryLeaving? ==>
          s.sessionLease.None? || s.sessionLease == s.factory.lease)
    && (s.factory.FactoryClosed? && s.sessionLease.Some? ==> !LeaseIsOpen(s, s.sessionLease.value))
  }

  /** The adapters Close has to close exist. */
  ghost predicate SnapshotOk(s: State) {
    s.pool.PoolDraining? || s.pool.PoolStopping? ==>
      forall t :: t in s.pool.adapters ==> t in s.tasks && !s.tasks[t].phase.NoAdapter?
  }

  predicate InDir(s: State, t: TaskId, d: nat) {
    t in s.tasks && s.tasks[t].profile == Scratch(d)
  }

  /** No two tasks share a scan profile directory, and those of all tasks are in use. */
  ghost predicate DirsOk(s: State) {
    && (forall t: TaskId, d: nat :: InDir(s, t, d) ==> d in s.dirs)
    && (forall t: TaskId, u: TaskId, d: nat :: InDir(s, t, d) && InDir(s, u, d) ==> t == u)
  }

  ghost predicate Inv(s: State) {
    && TasksOk(s)
    && SlotsOk(s)
    && SessionOk(s)
    && TokensConserved(s)
    && PoolPhaseOk(s)
    && LeasesOk(s)
    && DirsOk(s)
    && SnapshotOk(s)
  }

  lemma InitialInv()
    ensures Inv(Initial())
  {
    assert TokenHolders(Initial().tasks) == {};
  }

  // ---------------------------------------------------------------- each step

  lemma StepKeepsTasks(s: State, step: Step)
    requires TasksOk(s) && Enabled(s, step)
    ensures TasksOk(Next(s, step))
  {
    hide TaskOk, Do, Can, Shared;
    match step {
      case Act(t, a) =>
        ActionKeepsTask(s.tasks[t], a, if s.slots == [] then 0 else s.slots[0], s.sessionLease, FactoryIsClosed(s));
      case Arrive(t, purpose) => NewTaskOk(purpose);
      case _ =>
    }
  }

  predicate MovesSlot(a: Action) {
    a.TakeSlot? || a.ReturnSlot? || a.HookSlot?
  }

  predicate MovesSession(a: Action) {
    a.TakeSession? || a.ReturnEarlySession? || a.ReturnSession? || a.HookSession?
  }

  predicate MovesProfile(a: Action) {
    a.UseProfile? || a.RemoveProfile? || a.HookProfile?
  }

  predicate MovesToken(a: Action) {
    a.TakePoolToken? || a.ReturnFailedToken? || a.RunPoolHookInline? || a.RunPoolHook?
  }

  /** What an action of Factory.Open leaves alone. */
  lemma FactoryFrame(x: Task, a: Action, slot: nat, detached: Option<nat>, factoryClosed: bool)
    ensures var y := DoFactory(x, a, slot, detached, factoryClosed);
            && (!MovesSlot(a) ==> y.slot == x.slot)
            && (!MovesSession(a) ==> y.session == x.session)
  {
  }

  lemma FactoryProfileFrame(x: Task, a: Action, slot: nat, detached: Option<nat>, factoryClosed: bool)
    ensures var y := DoFactory(x, a, slot, detached, factoryClosed);
            (!MovesProfile(a) ==> y.profile == x.profile) && y.phase == x.phase
  {
  }

  lemma FactoryPoolFrame(x: Task, a: Action, slot: nat, detached: Option<nat>, factoryClosed: bool)
    ensures var y := DoFactory(x, a, slot, detached, factoryClosed);
            y.poolToken == x.poolToken && y.inActive == x.inActive && y.opening == x.opening
  {
  }

  /** What an action of NewAdapter leaves alone. */
  lemma PoolFrame(x: Task, a: Action)
    ensures var y := DoPool(x, a);
            && y.slot == x.slot && y.session == x.session
            && (!MovesToken(a) ==> y.poolToken == x.poolToken)
            && (y.inActive && !x.inActive ==> a.EnterActive?)
            && (y.opening && !x.opening ==> a.BeginOpening?)
  {
  }

  lemma PoolProfileFrame(x: Task, a: Action)
    ensures var y := DoPool(x, a);
            y.profile == x.profile && (y.phase.NoAdapter? ==> x.phase.NoAdapter?)
  {
  }

  /** What unwinding and closing leave alone. */
  lemma CleanupFrame(x: Task, a: Action)
    ensures var y := DoClose(x, a);
            && (!MovesSlot(a) ==> y.slot == x.slot)
            && (!MovesSession(a) ==> y.session == x.session)
            && (!MovesToken(a) ==> y.poolToken == x.poolToken)
            && (y.inActive ==> x.inActive) && y.opening == x.opening
  {
  }

  lemma CleanupProfileFrame(x: Task, a: Action)
    ensures var y := DoClose(x, a);
            (!MovesProfile(a) ==> y.profile == x.profile) && (y.phase.NoAdapter? ==> x.phase.NoAdapter?)
  {
  }

  /** Which fields of a task an action can change at all. */
  lemma ActionFrame(s: State, x: Task, a: Action)
    ensures var y := NextTask(s, x, a);
            && (!MovesSlot(a) ==> y.slot == x.slot)
            && (!MovesSession(a) ==> y.session == x.session)
            && (!MovesToken(a) ==> y.poolToken == x.poolToken)
            && (y.inActive && !x.inActive ==> a.EnterActive?)
            && (y.opening && !x.opening ==> a.BeginOpening?)
  {
    hide DoFactory, DoPool, DoClose, FactoryAction, PoolAction;
    var slot := if s.slots == [] then 0 else s.slots[0];
    FactoryFrame(x, a, slot, s.sessionLease, FactoryIsClosed(s));
    FactoryPoolFrame(x, a, slot, s.sessionLease, FactoryIsClosed(s));
    PoolFrame(x, a);
    CleanupFrame(x, a);
  }

  lemma ActionProfileFrame(s: State, x: Task, a: Action)
    ensures var y := NextTask(s, x, a);
            (!MovesProfile(a) ==> y.profile == x.profile) && (y.phase.NoAdapter? ==> x.phase.NoAdapter?)
  {
    hide DoFactory, DoPool, DoClose, FactoryAction, PoolAction;
    FactoryProfileFrame(x, a, if s.slots == [] then 0 else s.slots[0], s.sessionLease, FactoryIsClosed(s));
    PoolProfileFrame(x, a);
    CleanupProfileFrame(x, a);
  }

  lemma SlotChannelFrame(s: State, x: Task, a: Action)
    requires !MovesSlot(a)
    ensures Shared(s, x, a).slots == s.slots
  {
  }

  lemma SlotsUntouched(s: State, s': State)
    requires SlotsOk(s) && s'.slots == s.slots
    requires forall t, n :: HoldsSlot(s', t, n) <==> HoldsSlot(s, t, n)
    ensures SlotsOk(s')
  {
    hide HoldsSlot;
  }

  lemma StepKeepsSlots(s: State, step: Step)
    requires TasksOk(s) && SlotsOk(s) && Enabled(s, step)
    ensures SlotsOk(Next(s, step))
  {
    var s' := Next(s, step);
    if step.Act? && MovesSlot(step.action) {
      SlotMoves(s, step.task, step.action);
    } else {
      SlotHoldersKept(s, step);
      hide SlotsOk, TasksOk, HoldsSlot, Next, Enabled;
      SlotsUntouched(s, s');
    }
  }

  lemma SlotHoldersKept(s: State, step: Step)
    requires Enabled(s, step) && !(step.Act? && MovesSlot(step.action))
    ensures Next(s, step).slots == s.slots
    ensures forall t, n :: HoldsSlot(Next(s, step), t, n) <==> HoldsSlot(s, t, n)
  {
    hide Do, Can, Shared, NextTask, Allowed, MovesSlot;
    if step.Act? {
      ActionFrame(s, s.tasks[step.task], step.action);
      SlotChannelFrame(s, s.tasks[step.task], step.action);
    }
  }

  /** Who holds which slot is the same in both states, except for one task. */
  ghost predicate SameHoldersExcept(s: State, s': State, t: TaskId) {
    && t in s.tasks && t in s'.tasks
    && s'.tasks == s.tasks[t := s'.tasks[t]]
  }

  lemma SlotTaken(s: State, s': State, t: TaskId)
    requires SlotsOk(s) && s.slots != [] && SameHoldersExcept(s, s', t)
    requires s.tasks[t].slot.None? && s'.tasks[t].slot == Some(s.slots[0]) && s'.slots == s.slots[1..]
    ensures SlotsOk(s')
  {
    var n := s.slots[0];
    assert HoldsSlot(s', t, n);
    assert forall u: TaskId, m: nat :: u != t ==> (HoldsSlot(s', u, m) <==> HoldsSlot(s, u, m));
    assert forall m: nat :: m in s'.slots <==> m in s.slots && m != n by {
      assert s.slots == [n] + s'.slots;
    }
  }

  lemma SlotReturned(s: State, s': State, t: TaskId, n: nat)
    requires SlotsOk(s) && SameHoldersExcept(s, s', t)
    requires s.tasks[t].slot == Some(n) && s'.tasks[t].slot.None? && s'.slots == s.slots + [n]
    ensures SlotsOk(s')
  {
    assert HoldsSlot(s, t, n);
    assert forall u: TaskId, m: nat :: u != t ==> (HoldsSlot(s', u, m) <==> HoldsSlot(s, u, m));
    assert forall m: nat :: m in s'.slots <==> m in s.slots || m == n;
  }

  lemma SlotMoveShape(s: State, x: Task, a: Action)
    requires TaskOk(x) && Can(x, a) && Allowed(s, x, a) && MovesSlot(a)
    ensures a.TakeSlot? ==> s.slots != [] && x.slot.None? && NextTask(s, x, a).slot == Some(s.slots[0])
                            && Shared(s, x, a).slots == s.slots[1..]
    ensures !a.TakeSlot? ==> x.slot.Some? && NextTask(s, x, a).slot.None?
                             && Shared(s, x, a).slots == s.slots + [x.slot.value]
  {
  }

  lemma SlotMoves(s: State, t: TaskId, a: Action)
    requires TasksOk(s) && SlotsOk(s) && Enabled(s, Act(t, a)) && MovesSlot(a)
    ensures SlotsOk(Next(s, Act(t, a)))
  {
    hide TaskOk, Can, Shared, NextTask, Allowed, SlotsOk;
    var s', x := Next(s, Act(t, a)), s.tasks[t];
    SlotMoveShape(s, x, a);
    if a.TakeSlot? {
      SlotTaken(s, s', t);
    } else {
      SlotReturned(s, s', t, x.slot.value);
    }
  }

  lemma SessionChannelFrame(s: State, x: Task, a: Action)
    requires !MovesSession(a)
    ensures Shared(s, x, a).sessions == s.sessions
  {
  }

  lemma SessionMoveShape(s: State, x: Task, a: Action)
    requires TaskOk(x) && Can(x, a) && Allowed(s, x, a) && MovesSession(a)
    ensures a.TakeSession? ==> !x.session && NextTask(s, x, a).session && s.sessions > 0
                               && Shared(s, x, a).sessions == s.sessions - 1
    ensures !a.TakeSession? ==> !NextTask(s, x, a).session
                                && Shared(s, x, a).sessions == s.sessions + (if x.session then 1 else 0)
  {
  }

  lemma SessionMoved(s: State, s': State, t: TaskId)
    requires SessionOk(s) && SameHoldersExcept(s, s', t)
    requires s'.sessions + (if s'.tasks[t].session then 1 else 0) == s.sessions + (if s.tasks[t].session then 1 else 0)
    ensures SessionOk(s')
  {
    assert forall u: TaskId :: u != t ==> (HoldsSession(s', u) <==> HoldsSession(s, u));
    assert HoldsSession(s, t) == s.tasks[t].session && HoldsSession(s', t) == s'.tasks[t].session;
  }

  lemma StepKeepsSession(s: State, step: Step)
    requires TasksOk(s) && SessionOk(s) && Enabled(s, step)
    ensures SessionOk(Next(s, step))
  {
    hide TaskOk, Can, Shared, NextTask, Allowed;
    var s' := Next(s, step);
    if step.Act? && MovesSession(step.action) {
      SessionMoveShape(s, s.tasks[step.task], step.action);
      hide SessionOk;
      SessionMoved(s, s', step.task);
    } else {
      assert s'.sessions == s.sessions && forall t: TaskId :: HoldsSession(s', t) <==> HoldsSession(s, t) by {
        if step.Act? {
          ActionFrame(s, s.tasks[step.task], step.action);
          SessionChannelFrame(s, s.tasks[step.task], step.action);
        }
      }
    }
  }

  /** Replacing one task changes the number of pool-token holders by at most that task. */
  lemma HoldersAfter(tasks: map<TaskId, Task>, t: TaskId, x: Task)
    ensures TokenHolders(tasks[t := x]) ==
            if x.poolToken then TokenHolders(tasks) + {t} else TokenHolders(tasks) - {t}
  {
  }

  lemma NotHolder(tasks: map<TaskId, Task>, t: TaskId)
    requires t !in tasks
    ensures t !in TokenHolders(tasks)
  {
  }

  /** A task's pool token comes out of the channel or goes back into it. */
  lemma TokenMoves(s: State, x: Task, a: Action)
    requires TaskOk(x) && Can(x, a) && Allowed(s, x, a)
    ensures Shared(s, x, a).poolTokens + (if NextTask(s, x, a).poolToken then 1 else 0)
            == s.poolTokens + (if x.poolToken then 1 else 0)
  {
    hide NextTask, Shared, TaskOk, Can, Allowed;
    if MovesToken(a) {
      TokenMoveShape(s, x, a);
    } else {
      TokenChannelFrame(s, x, a);
      ActionFrame(s, x, a);
    }
  }

  lemma TokenMoveShape(s: State, x: Task, a: Action)
    requires TaskOk(x) && Can(x, a) && Allowed(s, x, a) && MovesToken(a)
    ensures Shared(s, x, a).poolTokens + (if NextTask(s, x, a).poolToken then 1 else 0)
            == s.poolTokens + (if x.poolToken then 1 else 0)
  {
    TokenInTask(x, a);
    TokenInChannel(s, x, a);
    hide TaskOk, Can, Allowed, Shared, DoFactory, DoPool, DoClose;
  }

  lemma TokenInTask(x: Task, a: Action)
    requires TaskOk(x) && Can(x, a)
    ensures a.TakePoolToken? ==> !x.poolToken && DoPool(x, a).poolToken
    ensures a.ReturnFailedToken? ==> x.poolToken && !DoPool(x, a).poolToken
    ensures a.RunPoolHookInline? ==> DoPool(x, a).poolToken == (x.poolToken && !x.inActive)
    ensures a.RunPoolHook? ==> DoClose(x, a).poolToken == (x.poolToken && !x.inActive)
    ensures x.inActive ==> x.poolToken
  {
    hide TokensOk, LeaseAndProfileOk, BrowserOk, FactoryHookOk;
  }

  lemma TokenInChannel(s: State, x: Task, a: Action)
    requires Allowed(s, x, a)
    ensures a.TakePoolToken? ==> s.poolTokens > 0 && Shared(s, x, a).poolTokens == s.poolTokens - 1
    ensures a.ReturnFailedToken? ==> Shared(s, x, a).poolTokens == s.poolTokens + 1
    ensures a.RunPoolHookInline? || a.RunPoolHook? ==>
              Shared(s, x, a).poolTokens == s.poolTokens + (if x.inActive then 1 else 0)
  {
  }

  lemma TokenChannelFrame(s: State, x: Task, a: Action)
    requires !MovesToken(a)
    ensures Shared(s, x, a).poolTokens == s.poolTokens
  {
  }

  lemma StepKeepsTokens(s: State, step: Step)
    requires TasksOk(s) && TokensConserved(s) && Enabled(s, step)
    ensures TokensConserved(Next(s, step))
  {
    hide TaskOk, Do, Can, Shared, NextTask, Allowed, TokenHolders;
    match step {
      case Act(t, a) =>
        TokenMoves(s, s.tasks[t], a);
        HoldersAfter(s.tasks, t, NextTask(s, s.tasks[t], a));
        HoldersAfter(s.tasks, t, s.tasks[t]);
        assert s.tasks[t := s.tasks[t]] == s.tasks;
      case Arrive(t, purpose) =>
        HoldersAfter(s.tasks, t, NewTask(purpose));
        assert t !in TokenHolders(s.tasks) by { NotHolder(s.tasks, t); }
      case _ =>
    }
  }

  // ------------------------------------------------------------ the two closes

  /** How an action can move a task with respect to the pool. */
  ghost predicate MovesWithinPool(s: State, x: Task, a: Action) {
    && (PastPool(NextTask(s, x, a).pc) ==> PastPool(x.pc) || a.UsePool?)
    && (NextTask(s, x, a).inActive && !x.inActive ==> !PoolIsClosed(s))
    && (NextTask(s, x, a).opening && !x.opening ==> !PoolIsClosed(s))
  }

  lemma PoolShape(s: State, x: Task, a: Action)
    requires Can(x, a) && Allowed(s, x, a)
    ensures MovesWithinPool(s, x, a)
  {
    ActionFrame(s, x, a);
    PastPoolFrame(s, x, a);
    if a.EnterActive? || a.BeginOpening? {
      EnteringNeedsOpenPool(s, x, a);
    }
    hide Can, Allowed, NextTask, PastPool;
  }

  lemma EnteringNeedsOpenPool(s: State, x: Task, a: Action)
    requires Allowed(s, x, a) && (a.EnterActive? || a.BeginOpening?)
    ensures !PoolIsClosed(s)
  {
  }

  lemma PastPoolFrame(s: State, x: Task, a: Action)
    requires Can(x, a)
    ensures PastPool(NextTask(s, x, a).pc) ==> PastPool(x.pc) || a.UsePool?
  {
    FactoryPcFrame(x, a, if s.slots == [] then 0 else s.slots[0], s.sessionLease, FactoryIsClosed(s));
    if PoolAction(a) {
      PoolActionsStartPastPool(x, a);
    }
    CleanupPcFrame(x, a);
    if a.UseProfile? {
      assert x.pc.AtProfile?;
    }
    hide Can, DoFactory, DoPool, DoClose, PoolAction, FactoryAction;
  }

  lemma PoolActionsStartPastPool(x: Task, a: Action)
    requires Can(x, a) && PoolAction(a)
    ensures PastPool(x.pc) && !ManagingLease(x.pc)
  {
  }

  lemma FactoryPcFrame(x: Task, a: Action, slot: nat, detached: Option<nat>, factoryClosed: bool)
    ensures var y := DoFactory(x, a, slot, detached, factoryClosed);
            PastPool(y.pc) ==> a.UsePool? || a.UseProfile? || y.pc == x.pc
  {
  }

  lemma CleanupPcFrame(x: Task, a: Action)
    ensures PastPool(DoClose(x, a).pc) ==> PastPool(x.pc)
  {
  }

  /** Actions leave both Close methods where they are; only UsePool creates the pool. */
  lemma CloseFrame(s: State, x: Task, a: Action)
    requires Allowed(s, x, a)
    ensures Shared(s, x, a).poolExists == (s.poolExists || a.UsePool?)
    ensures a.UsePool? ==> !FactoryIsClosed(s)
    ensures Shared(s, x, a).pool == s.pool && Shared(s, x, a).factory == s.factory
    ensures Shared(s, x, a).tasks == s.tasks
  {
  }

  /** A task whose adapter is closed and whose opening is over has left pool.active. */
  lemma ClosedHasLeft(x: Task)
    requires TaskOk(x) && x.phase.AdapterClosed? && !x.opening
    ensures !x.inActive
  {
  }

  lemma ActiveHaveAdapters(s: State)
    requires TasksOk(s)
    ensures forall t :: t in ActiveSet(s) ==> t in s.tasks && !s.tasks[t].phase.NoAdapter?
  {
    forall t | t in ActiveSet(s) ensures !s.tasks[t].phase.NoAdapter? {
      ActiveHasAdapter(s.tasks[t]);
    }
  }

  lemma ActiveHasAdapter(x: Task)
    requires TaskOk(x) && x.inActive
    ensures !x.phase.NoAdapter?
  {
  }

  lemma NewTaskOutsidePool(purpose: Purpose)
    ensures var x := NewTask(purpose); !PastPool(x.pc) && !x.inActive && !x.opening && !ManagingLease(x.pc)
  {
  }

  lemma StepKeepsPoolPhase(s: State, step: Step)
    requires TasksOk(s) && PoolPhaseOk(s) && Enabled(s, step)
    ensures PoolPhaseOk(Next(s, step))
  {
    hide TaskOk, Can, Shared, NextTask, Allowed, PastPool, NewTask, Undisturbed;
    match step {
      case Act(t, a) =>
        PoolShape(s, s.tasks[t], a);
        CloseFrame(s, s.tasks[t], a);
      case Arrive(t, purpose) => NewTaskOutsidePool(purpose);
      case PoolCloseAdapter(t) => ClosedHasLeft(s.tasks[t]);
      case _ =>
    }
  }

  // ------------------------------------------------------------ session leases

  predicate TouchesLease(a: Action) {
    a.DetachSessionLease? || a.CloseOldLease? || a.AcquireSessionLease? || a.InstallLease? || a.DropLease?
  }

  lemma LeaseFrame(s: State, x: Task, a: Action)
    requires !TouchesLease(a)
    ensures Shared(s, x, a).leases == s.leases && Shared(s, x, a).sessionLease == s.sessionLease
    ensures Shared(s, x, a).factory == s.factory
  {
  }

  ghost predicate LeavesManaging(x: Task, y: Task) {
    && (ManagingLease(y.pc) ==> y.pc == x.pc)
    && (ManagingLease(x.pc) && !x.pc.Acquiring? ==> y.pc == x.pc || !x.phase.NoAdapter?)
  }

  lemma LeasePcFrame(s: State, x: Task, a: Action)
    requires Can(x, a) && !TouchesLease(a)
    ensures LeavesManaging(x, NextTask(s, x, a))
  {
    hide Can, LeavesManaging, DoFactory, DoPool, DoClose, FactoryAction, PoolAction;
    if FactoryAction(a) {
      LeasePcFactory(x, a, if s.slots == [] then 0 else s.slots[0], s.sessionLease, FactoryIsClosed(s));
    } else if PoolAction(a) {
      LeasePcPool(x, a);
    } else {
      LeasePcCleanup(x, a);
    }
  }

  lemma LeasePcFactory(x: Task, a: Action, slot: nat, detached: Option<nat>, factoryClosed: bool)
    requires Can(x, a) && !TouchesLease(a) && FactoryAction(a)
    ensures LeavesManaging(x, DoFactory(x, a, slot, detached, factoryClosed))
  {
    FactoryActionsAtLease(x, a);
    hide Can, FactoryAction;
  }

  lemma FactoryActionsAtLease(x: Task, a: Action)
    requires Can(x, a) && !TouchesLease(a) && FactoryAction(a)
    ensures ManagingLease(x.pc) ==> x.pc.Acquiring?
  {
  }

  lemma LeasePcPool(x: Task, a: Action)
    requires Can(x, a) && PoolAction(a)
    ensures LeavesManaging(x, DoPool(x, a))
  {
    PoolActionsStartPastPool(x, a);
    hide Can, PoolAction, PastPool;
  }

  lemma LeasePcCleanup(x: Task, a: Action)
    requires Can(x, a) && !FactoryAction(a) && !PoolAction(a)
    ensures LeavesManaging(x, DoClose(x, a))
  {
    hide FactoryAction, PoolAction;
  }

  lemma ManagerFacts(x: Task)
    requires TaskOk(x) && (ManagingLease(x.pc) || (x.pc.AtLease? && x.purpose.SessionPurpose?))
    ensures x.session && x.phase.NoAdapter?
  {
  }

  /** Only the holder of the session token replaces the session lease. */
  lemma OnlyManager(s: State, t: TaskId)
    requires TasksOk(s) && SessionOk(s) && HoldsSession(s, t)
    ensures forall u :: u in s.tasks && u != t ==> !ManagingLease(s.tasks[u].pc)
  {
    hide TaskOk;
    forall u | u in s.tasks && u != t ensures !ManagingLease(s.tasks[u].pc) {
      assert HoldsSession(s, u) == s.tasks[u].session;
      if ManagingLease(s.tasks[u].pc) {
        ManagerFacts(s.tasks[u]);
      }
    }
  }

  /** What the five lease actions do to the leases and to what the task has in hand. */
  ghost predicate LeaseMoved(s: State, x: Task, a: Action, y: Task, s': State) {
    var hand, hand' := Hand(x.pc), Hand(y.pc);
    match a
    case DetachSessionLease =>
      hand.None? && hand' == s.sessionLease && s'.leases == s.leases && s'.sessionLease.None?
    case AcquireSessionLease(id) =>
      id !in s.leases && hand.None? && hand' == Some(id) && s'.leases == s.leases[id := true]
      && s'.sessionLease == s.sessionLease
    case InstallLease =>
      && hand.Some? && s'.leases == s.leases
      && (FactoryIsClosed(s) ==> hand' == hand && s'.sessionLease == s.sessionLease)
      && (!FactoryIsClosed(s) ==> hand'.None? && s'.sessionLease == hand && !ManagingLease(y.pc))
    case _ =>
      hand.Some? && hand'.None? && s'.leases == s.leases[hand.value := false] && s'.sessionLease == s.sessionLease
  }

  lemma LeaseShape(s: State, x: Task, a: Action)
    requires Can(x, a) && Allowed(s, x, a) && TouchesLease(a)
    ensures LeaseMoved(s, x, a, NextTask(s, x, a), Shared(s, x, a))
    ensures ManagingLease(x.pc) || (x.pc.AtLease? && x.purpose.SessionPurpose?)
    ensures a.DetachSessionLease? || ManagingLease(x.pc)
  {
    LeaseActionStarts(x, a);
    LeaseInTask(x, a, if s.slots == [] then 0 else s.slots[0], s.sessionLease, FactoryIsClosed(s));
    LeaseInState(s, x, a);
    hide Can, Allowed, Shared, DoFactory, DoPool, DoClose, Hand, ManagingLease;
  }

  lemma LeaseActionStarts(x: Task, a: Action)
    requires Can(x, a) && TouchesLease(a)
    ensures a.DetachSessionLease? ==> x.pc.AtLease? && x.purpose.SessionPurpose? && Hand(x.pc).None?
    ensures a.CloseOldLease? ==> x.pc.ClosingOld? && Hand(x.pc) == Some(x.pc.stale)
    ensures a.AcquireSessionLease? ==> x.pc.Acquiring? && Hand(x.pc).None?
    ensures a.InstallLease? ==> x.pc.Installing? && Hand(x.pc) == Some(x.pc.made)
    ensures a.DropLease? ==> x.pc.Dropping? && Hand(x.pc) == Some(x.pc.made)
    ensures a.DetachSessionLease? || ManagingLease(x.pc)
  {
  }

  lemma LeaseInTask(x: Task, a: Action, slot: nat, detached: Option<nat>, factoryClosed: bool)
    requires TouchesLease(a)
    ensures var pc := DoFactory(x, a, slot, detached, factoryClosed).pc;
            && (a.DetachSessionLease? ==> Hand(pc) == detached)
            && (a.CloseOldLease? ==> Hand(pc).None?)
            && (a.AcquireSessionLease? ==> Hand(pc) == Some(a.id))
            && (a.InstallLease? && x.pc.Installing? ==>
                  if factoryClosed then Hand(pc) == Some(x.pc.made) else Hand(pc).None? && !ManagingLease(pc))
            && (a.DropLease? ==> Hand(pc).None?)
  {
  }

  lemma LeaseInState(s: State, x: Task, a: Action)
    requires Allowed(s, x, a) && TouchesLease(a)
    ensures var s' := Shared(s, x, a);
            && (a.DetachSessionLease? ==> s'.leases == s.leases && s'.sessionLease.None?)
            && (a.CloseOldLease? && x.pc.ClosingOld? ==> s'.leases == s.leases[x.pc.stale := false])
            && (a.AcquireSessionLease? ==> a.id !in s.leases && s'.leases == s.leases[a.id := true])
            && (a.InstallLease? && x.pc.Installing? ==>
                  s'.leases == s.leases &&
                  s'.sessionLease == if FactoryIsClosed(s) then s.sessionLease else Some(x.pc.made))
            && (a.DropLease? && x.pc.Dropping? ==> s'.leases == s.leases[x.pc.made := false])
            && (!a.DetachSessionLease? && !a.InstallLease? ==> s'.sessionLease == s.sessionLease)
  {
  }

  lemma LeaseMoves(s: State, t: TaskId, a: Action)
    requires Inv(s) && Enabled(s, Act(t, a)) && TouchesLease(a)
    ensures LeasesOk(Next(s, Act(t, a)))
  {
    hide TaskOk, Can, Shared, NextTask, Allowed, SlotsOk, SessionOk, TokensConserved, PoolPhaseOk, TasksOk, Hand;
    var s', x := Next(s, Act(t, a)), s.tasks[t];
    TasksAt(s, t);
    LeaseShape(s, x, a);
    CloseFrame(s, x, a);
    ManagerFacts(x);
    assert HoldsSession(s, t);
    OnlyManager(s, t);
    HandImpliesManaging(s);
    assert forall u: TaskId, id: nat :: u != t ==> (InHand(s', u, id) <==> InHand(s, u, id));
    assert forall u: TaskId, id: nat :: InHand(s, u, id) ==> u == t;
    assert forall id: nat :: InHand(s, t, id) <==> Hand(x.pc) == Some(id);
    assert forall id: nat :: InHand(s', t, id) <==> Hand(s'.tasks[t].pc) == Some(id);
  }

  lemma HandImpliesManaging(s: State)
    ensures forall t: TaskId, id: nat :: InHand(s, t, id) ==> ManagingLease(s.tasks[t].pc)
  {
  }

  lemma TasksAt(s: State, t: TaskId)
    requires TasksOk(s) && t in s.tasks
    ensures TaskOk(s.tasks[t])
  {
  }

  lemma StepKeepsLeases(s: State, step: Step)
    requires Inv(s) && Enabled(s, step)
    ensures LeasesOk(Next(s, step))
  {
    hide TaskOk, Can, Shared, NextTask, Allowed, SlotsOk, SessionOk, TokensConserved, PoolPhaseOk, TasksOk, NewTask;
    var s' := Next(s, step);
    if step.Act? && TouchesLease(step.action) {
      LeaseMoves(s, step.task, step.action);
    } else {
      if step.Act? {
        TasksAt(s, step.task);
        LeaseFrame(s, s.tasks[step.task], step.action);
        LeasePcFrame(s, s.tasks[step.task], step.action);
        if ManagingLease(s.tasks[step.task].pc) { ManagerFacts(s.tasks[step.task]); }
      } else if step.Arrive? {
        NewTaskOutsidePool(step.purpose);
      }
      assert forall t: TaskId, id: nat :: InHand(s', t, id) <==> InHand(s, t, id);
    }
  }

  /** Every step keeps the invariant. */
  lemma StepKeepsInv(s: State, step: Step)
    requires Inv(s) && Enabled(s, step)
    ensures Inv(Next(s, step))
  {
    StepKeepsTasks(s, step);
    StepKeepsSlots(s, step);
    StepKeepsSession(s, step);
    StepKeepsTokens(s, step);
    StepKeepsPoolPhase(s, step);
    StepKeepsLeases(s, step);
    StepKeepsDirs(s, step);
    StepKeepsSnapshot(s, step);
  }

  lemma StepKeepsSnapshot(s: State, step: Step)
    requires TasksOk(s) && SnapshotOk(s) && Enabled(s, step)
    ensures SnapshotOk(Next(s, step))
  {
    hide TaskOk, Can, Shared, NextTask, Allowed, NewTask, Undisturbed;
    match step {
      case Act(t, a) =>
        ActionProfileFrame(s, s.tasks[t], a);
        CloseFrame(s, s.tasks[t], a);
      case PoolFlag => ActiveHaveAdapters(s);
      case _ =>
    }
  }

  // ------------------------------------------------------- profile directories

  lemma DirsChannelFrame(s: State, x: Task, a: Action)
    requires !MovesProfile(a)
    ensures Shared(s, x, a).dirs == s.dirs
  {
  }

  lemma DirMoveShape(s: State, x: Task, a: Action)
    requires Allowed(s, x, a) && MovesProfile(a)
    ensures var p, q, s' := x.profile, NextTask(s, x, a).profile, Shared(s, x, a);
            if a.UseProfile? then
              && (q.Scratch? ==> q.dir !in s.dirs && s'.dirs == s.dirs + {q.dir})
              && (!q.Scratch? ==> s'.dirs == s.dirs)
            else !q.Scratch? && s'.dirs == if p.Scratch? then s.dirs - {p.dir} else s.dirs
  {
    hide DoPool;
  }

  lemma DirMoved(s: State, s': State, t: TaskId)
    requires DirsOk(s) && SameHoldersExcept(s, s', t)
    requires var p, q := s.tasks[t].profile, s'.tasks[t].profile;
             if q.Scratch? then q.dir !in s.dirs && s'.dirs == s.dirs + {q.dir}
             else s'.dirs == s.dirs || (p.Scratch? && s'.dirs == s.dirs - {p.dir})
    ensures DirsOk(s')
  {
    assert forall u: TaskId, d: nat :: u != t ==> (InDir(s', u, d) <==> InDir(s, u, d));
    assert forall d: nat :: InDir(s, t, d) <==> s.tasks[t].profile == Scratch(d);
    assert forall d: nat :: InDir(s', t, d) <==> s'.tasks[t].profile == Scratch(d);
  }

  lemma StepKeepsDirs(s: State, step: Step)
    requires DirsOk(s) && Enabled(s, step)
    ensures DirsOk(Next(s, step))
  {
    var s' := Next(s, step);
    hide Do, Can, Shared, NextTask, Allowed, MovesProfile;
    if step.Act? && MovesProfile(step.action) {
      DirMoveShape(s, s.tasks[step.task], step.action);
      hide DirsOk;
      DirMoved(s, s', step.task);
    } else {
      if step.Act? {
        ActionProfileFrame(s, s.tasks[step.task], step.action);
        DirsChannelFrame(s, s.tasks[step.task], step.action);
      }
      assert s'.dirs == s.dirs;
      assert forall t: TaskId, d: nat :: InDir(s', t, d) <==> InDir(s, t, d);
    }
  }

  lemma {:induction false} RunKeepsInv(states: seq<State>, steps: seq<Step>, i: nat)
    requires Run(states, steps) && i < |states|
    ensures Inv(states[i])
  {
    if i == 0 {
      InitialInv();
    } else {
      RunKeepsInv(states, steps, i - 1);
      StepKeepsInv(states[i - 1], steps[i - 1]);
    }
  }
}
