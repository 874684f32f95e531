/** Why the two Close methods end: what they wait for, and how much is left of it. */
module LifecycleProgress {
  import opened Text
  import opened Lifecycle
  import opened LifecycleTask
  import opened LifecycleRuns
  import opened LifecycleTheorems

  // ---------------------------------------------------------- no step is blocked

  /** What the pool's Close is waiting for: an opening in flight, or an adapter of its snapshot. */
  predicate Awaited(s: State, t: TaskId) {
    && t in s.tasks
    && ((s.pool.PoolDraining? && s.tasks[t].opening) || (s.pool.PoolStopping? && t in s.pool.adapters))
  }

  /** A step of the two Close methods, or of a task they wait for. */
  predicate Serves(s: State, step: Step) {
    || step.PoolFlag? || step.PoolWait? || step.PoolCloseAdapter? || step.PoolReturn?
    || step.FactoryAfterPool? || step.FactoryCloseLease?
    || (step.Act? && Awaited(s, step.task))
  }

  /** The next statement of a NewAdapter call while the pool is closed. */
  function OpeningAction(x: Task): Action {
    match x.pc
    case Launching => StartBrowser
    case Initialising => FinishInitialise
    case Launched => RefuseActive
    case ClosingSelf => if x.phase.AdapterClosed? then SelfClosed else BeginClose
    case AddingPoolHook => AddPoolHook
    case RunningPoolHook => RunPoolHookInline
    case LeavingPool => LeavePool
    case _ => DoneFailedOpening
  }

  lemma OpeningCan(x: Task)
    requires TaskOk(x) && x.opening && !(x.pc.ClosingSelf? && Closing(x))
    ensures Can(x, OpeningAction(x))
  {
    hide TokensOk, LeaseAndProfileOk, FactoryHookOk;
  }

  lemma OpeningIsReady(s: State, t: TaskId)
    requires t in s.tasks && TaskOk(s.tasks[t]) && s.tasks[t].opening && PoolIsClosed(s)
    ensures (exists a :: Enabled(s, Act(t, a))) || CloserWaits(s, t)
  {
    var x := s.tasks[t];
    if x.pc.ClosingSelf? && Closing(x) {
      hide TaskOk, Closing, CloserAction, Enabled;
      CloserIsReady(s, t);
    } else {
      OpeningCan(x);
      hide TaskOk, Can, Closing;
      assert Enabled(s, Act(t, OpeningAction(x)));
    }
  }

  lemma SnapshotIsReady(s: State, t: TaskId)
    requires t in s.tasks && TaskOk(s.tasks[t]) && !s.tasks[t].phase.NoAdapter?
    ensures s.tasks[t].phase.AdapterClosed? || (exists a :: Enabled(s, Act(t, a))) || CloserWaits(s, t)
  {
    var x := s.tasks[t];
    if Closing(x) {
      hide TaskOk, CloserAction, Enabled;
      CloserIsReady(s, t);
    } else if x.phase.Up? {
      hide TaskOk;
      assert Enabled(s, Act(t, BeginClose));
    }
  }

  /** Neither Close method can hang on anything but a running capture, an extend call, or an external call of a task
      it waits for: while one is in progress, one of its own steps or of a task it waits for can be taken, or a closer
      it waits for waits for captures or an extend call, or the session lease has an extend call out. */
  lemma ClosingMovesOn(states: seq<State>, steps: seq<Step>, i: nat)
    requires Run(states, steps) && i < |states|
    requires states[i].factory.FactoryFlagged? || states[i].factory.FactoryLeaving?
    ensures var s := states[i];
            || (exists step :: Enabled(s, step) && Serves(s, step))
            || (exists t: TaskId :: Awaited(s, t) && CloserWaits(s, t))
            || (s.factory.lease.Some? && s.factory.lease.value in s.extending)
  {
    RunKeepsInv(states, steps, i);
    var s := states[i];
    hide Run, SlotsOk, SessionOk, TokensConserved, LeasesOk, DirsOk, TaskOk;
    if s.factory.FactoryLeaving? {
      if s.factory.lease.None? || s.factory.lease.value !in s.extending {
        assert Enabled(s, FactoryCloseLease) && Serves(s, FactoryCloseLease);
      }
    } else if !s.poolExists || s.pool.PoolClosed? {
      assert Enabled(s, FactoryAfterPool) && Serves(s, FactoryAfterPool);
    } else {
      PoolMovesOn(s);
    }
  }

  lemma PoolMovesOn(s: State)
    requires TasksOk(s) && SnapshotOk(s) && s.factory.FactoryFlagged? && s.poolExists && !s.pool.PoolClosed?
    ensures (exists step :: Enabled(s, step) && Serves(s, step)) ||
            (exists t: TaskId :: Awaited(s, t) && CloserWaits(s, t))
  {
    hide TaskOk;
    match s.pool {
      case PoolOpen => assert Enabled(s, PoolFlag) && Serves(s, PoolFlag);
      case PoolDraining(_) =>
        if forall t :: t in s.tasks ==> !s.tasks[t].opening {
          assert Enabled(s, PoolWait) && Serves(s, PoolWait);
        } else {
          var t :| t in s.tasks && s.tasks[t].opening;
          TasksAt(s, t);
          OpeningIsReady(s, t);
          TaskServes(s, t);
        }
      case PoolStopping(adapters) =>
        if adapters == {} {
          assert Enabled(s, PoolReturn) && Serves(s, PoolReturn);
        } else {
          var t :| t in adapters;
          TasksAt(s, t);
          SnapshotIsReady(s, t);
          if s.tasks[t].phase.AdapterClosed? {
            assert Enabled(s, PoolCloseAdapter(t)) && Serves(s, PoolCloseAdapter(t));
          } else {
            TaskServes(s, t);
          }
        }
      case _ =>
    }
  }

  lemma TaskServes(s: State, t: TaskId)
    requires Awaited(s, t) && ((exists a :: Enabled(s, Act(t, a))) || CloserWaits(s, t))
    ensures (exists step :: Enabled(s, step) && Serves(s, step)) ||
            (exists u: TaskId :: Awaited(s, u) && CloserWaits(s, u))
  {
    hide Enabled, CloserWaits;
    if exists a :: Enabled(s, Act(t, a)) {
      var a :| Enabled(s, Act(t, a));
      assert Serves(s, Act(t, a));
    }
  }

  // ------------------------------------------------------- and all lead to the end

  /** The statements of Open from here on, at most. */
  function OpenLeft(x: Task): nat {
    match x.pc
    case AtSession => 23
    case AtSlot => 22
    case AtEgress => 21
    case AtLease => 20
    case ClosingOld(_) => 19
    case Acquiring => 18
    case Installing(_) => 17
    case Dropping(_) => 16
    case AtPool => 15
    case AtProfile => 14
    case AtPoolToken => 13
    case Preparing => 12
    case Launching => 11
    case Initialising => 10
    case Launched => 9
    case AddingPoolHook => 8
    case RunningPoolHook => 7
    case ClosingSelf => 7
    case LeavingPool => 6
    case AddingFactoryHook => 5
    case RunningFactoryHook =>
      (match x.body
       case LeaseNext => 4
       case ProfileNext => 3
       case SlotNext => 2
       case _ => 1)
    case PoolFailing => 6
    case TokenFailing => 5
    case UnwindProfile => 4
    case UnwindLease => 3
    case UnwindSlot => 2
    case UnwindSession => 1
    case ReleasingSession => 1
    case Returned => 0
    case Failed => 0
  }

  /** The statements of Open and of Adapter.Close that a task has left, at most. */
  function Work(x: Task): nat {
    OpenLeft(x) + AdapterLeft(x)
  }

  function AdapterLeft(x: Task): nat {
    if x.phase.NoAdapter? then 11 else if x.phase.Up? then 10 else CloseWork(x)
  }

  lemma FactoryShrinksWork(x: Task, a: Action, slot: nat, detached: Option<nat>, factoryClosed: bool)
    requires Can(x, a) && FactoryAction(a)
    ensures Work(DoFactory(x, a, slot, detached, factoryClosed)) < Work(x)
  {
  }

  lemma StartShrinksOpen(x: Task, a: Action)
    requires Can(x, a) && (TokenAction(a) || BeginAction(a) || BrowserAction(a))
    ensures OpenLeft(DoPool(x, a)) < OpenLeft(x)
  {
  }

  lemma EntryShrinksOpen(x: Task, a: Action)
    requires Can(x, a) && (ActiveAction(a) || LeaveAction(a))
    ensures OpenLeft(DoPool(x, a)) < OpenLeft(x)
  {
  }

  lemma HookShrinksOpen(x: Task, a: Action)
    requires Can(x, a) && (AddHookAction(a) || InlineHookAction(a))
    ensures OpenLeft(DoPool(x, a)) < OpenLeft(x)
  {
  }

  lemma PoolShrinksOpen(x: Task, a: Action)
    requires Can(x, a) && PoolAction(a)
    ensures OpenLeft(DoPool(x, a)) < OpenLeft(x)
  {
    hide Can, DoPool, OpenLeft;
    if TokenAction(a) || BeginAction(a) || BrowserAction(a) {
      StartShrinksOpen(x, a);
    } else if ActiveAction(a) || LeaveAction(a) {
      EntryShrinksOpen(x, a);
    } else {
      HookShrinksOpen(x, a);
    }
  }

  lemma PoolKeepsAdapter(x: Task, a: Action)
    requires Can(x, a) && PoolAction(a) && (x.pc.Initialising? ==> x.phase.NoAdapter?)
    ensures AdapterLeft(DoPool(x, a)) <= AdapterLeft(x)
  {
  }

  lemma PoolShrinksWork(x: Task, a: Action)
    requires Can(x, a) && PoolAction(a) && (x.pc.Initialising? ==> x.phase.NoAdapter?)
    ensures Work(DoPool(x, a)) < Work(x)
  {
    hide Can, DoPool, OpenLeft, AdapterLeft, PoolAction;
    PoolShrinksOpen(x, a);
    PoolKeepsAdapter(x, a);
  }

  lemma CloseShrinksWork(x: Task, a: Action)
    requires Can(x, a) && !FactoryAction(a) && !PoolAction(a)
    requires x.factoryHook.Inline? <==> x.pc.RunningFactoryHook?
    ensures Work(DoClose(x, a)) < Work(x)
  {
  }

  lemma InitialisingAndInline(x: Task)
    requires TaskOk(x)
    ensures x.pc.Initialising? ==> x.phase.NoAdapter?
    ensures x.factoryHook.Inline? <==> x.pc.RunningFactoryHook?
  {
    hide TokensOk, LeaseAndProfileOk, PoolOk;
  }

  lemma WorkIsBounded(x: Task)
    ensures Work(x) <= 34
  {
  }

  /** Whatever a task does next, it has strictly less to do afterwards: no task goes round in circles. */
  lemma ActionShrinksWork(x: Task, a: Action, slot: nat, detached: Option<nat>, factoryClosed: bool)
    requires TaskOk(x) && Can(x, a)
    ensures Work(Do(x, a, slot, detached, factoryClosed)) < Work(x)
    ensures Work(x) <= 34
  {
    InitialisingAndInline(x);
    WorkIsBounded(x);
    hide Work, TaskOk, DoFactory, DoPool, DoClose, Can, FactoryAction, PoolAction;
    if FactoryAction(a) {
      FactoryShrinksWork(x, a, slot, detached, factoryClosed);
    } else if PoolAction(a) {
      PoolShrinksWork(x, a);
    } else {
      CloseShrinksWork(x, a);
    }
  }

  /** The tasks whose steps bring a closing pool nearer its end. */
  predicate Concerns(s: State, t: TaskId) {
    && t in s.tasks
    && ((s.pool.PoolDraining? && (s.tasks[t].opening || t in s.pool.adapters))
        || (s.pool.PoolStopping? && t in s.pool.adapters))
  }

  /** One unit for each such task and each statement it has left. */
  function Units(s: State): set<(TaskId, nat)> {
    set t, k: nat | t in s.tasks && 0 <= k <= Work(s.tasks[t]) && Concerns(s, t) :: (t, k)
  }

  /** The statements Factory.Close and BrowserPool.Close have left. */
  function Stage(s: State): nat {
    match s.factory
    case FactoryOpen => 6
    case FactoryFlagged(_) =>
      if !s.poolExists then 2
      else (match s.pool
            case PoolOpen => 5
            case PoolDraining(_) => 4
            case PoolStopping(_) => 3
            case PoolClosed => 2)
    case FactoryLeaving(_) => 1
    case FactoryClosed => 0
  }

  /** What is left to do until Factory.Close returns. */
  function CloseLeft(s: State): nat {
    Stage(s) + |Units(s)|
  }

  /** The factory is closed, and its pool, if it has one. */
  predicate Settled(s: State) {
    FactoryIsClosed(s) && (s.poolExists ==> PoolIsClosed(s))
  }

  lemma {:induction false} SubsetSize<T>(a: set<T>, b: set<T>)
    requires a <= b
    ensures |a| <= |b|
    ensures a != b ==> |a| < |b|
  {
    var rest := b - a;
    assert b == a + rest && a !! rest;
    if a != b {
      assert rest != {};
    }
  }

  /** Once both are closed, a task's action leaves the Close methods alone and starts no opening. */
  lemma ActionWhileSettled(s: State, t: TaskId, a: Action)
    requires TasksOk(s) && Enabled(s, Act(t, a)) && Settled(s)
    ensures var s', x, y := Next(s, Act(t, a)), s.tasks[t], NextTask(s, s.tasks[t], a);
            && s'.tasks == s.tasks[t := y] && s'.pool == s.pool && s'.factory == s.factory
            && s'.poolExists == s.poolExists
            && (PoolIsClosed(s) && y.opening ==> x.opening)
            && Work(y) < Work(x)
  {
    hide TaskOk, Can, Shared, NextTask, Allowed, Undisturbed, Work, PastPool;
    CloseFrame(s, s.tasks[t], a);
    PoolShape(s, s.tasks[t], a);
    TaskShrinks(s, t, a);
  }

  lemma TaskShrinks(s: State, t: TaskId, a: Action)
    requires t in s.tasks && TaskOk(s.tasks[t]) && Can(s.tasks[t], a)
    ensures Work(NextTask(s, s.tasks[t], a)) < Work(s.tasks[t])
  {
    hide TaskOk, Can, Do, Work;
    ActionShrinksWork(s.tasks[t], a, if s.slots == [] then 0 else s.slots[0], s.sessionLease, FactoryIsClosed(s));
  }

  lemma ActionShrinksUnits(s: State, t: TaskId, a: Action)
    requires TasksOk(s) && Enabled(s, Act(t, a)) && Settled(s)
    ensures Units(Next(s, Act(t, a))) <= Units(s)
    ensures Concerns(s, t) ==> Units(Next(s, Act(t, a))) != Units(s)
  {
    hide Next, TasksOk, Work, NextTask, Units, Concerns, Settled, Can, Allowed, Undisturbed;
    ActionWhileSettled(s, t, a);
    PoolIdle(s);
    SmallerTask(s, Next(s, Act(t, a)), t, NextTask(s, s.tasks[t], a));
  }

  lemma PoolIdle(s: State)
    requires Settled(s)
    ensures s.pool.PoolDraining? ==> PoolIsClosed(s)
  {
  }

  lemma SmallerTask(s: State, s': State, t: TaskId, y: Task)
    requires t in s.tasks && s'.tasks == s.tasks[t := y] && s'.pool == s.pool
    requires s.pool.PoolDraining? && y.opening ==> s.tasks[t].opening
    requires Work(y) < Work(s.tasks[t])
    ensures Units(s') <= Units(s)
    ensures Concerns(s, t) ==> Units(s') != Units(s)
  {
    hide Work;
    forall u, k | (u, k) in Units(s') ensures (u, k) in Units(s) {
      assert s'.tasks[u] == if u == t then y else s.tasks[u];
    }
    if Concerns(s, t) {
      var last := Work(s.tasks[t]);
      assert (t, last) in Units(s) && (t, last) !in Units(s');
    }
  }

  predicate CloseStep(step: Step) {
    step.PoolFlag? || step.PoolWait? || step.PoolCloseAdapter? || step.PoolReturn? || step.FactoryAfterPool?
    || step.FactoryCloseLease?
  }

  lemma CloseStepShrinks(s: State, step: Step)
    requires SnapshotOk(s) && PoolPhaseOk(s) && Enabled(s, step) && Settled(s) && CloseStep(step)
    ensures Units(Next(s, step)) <= Units(s) && Stage(Next(s, step)) <= Stage(s)
    ensures Stage(Next(s, step)) < Stage(s) || Units(Next(s, step)) != Units(s)
  {
    hide Work;
    if step.PoolCloseAdapter? {
      assert (step.task, 0) in Units(s) && (step.task, 0) !in Units(Next(s, step));
    }
  }

  lemma OtherStepKeepsUnits(s: State, step: Step)
    requires SnapshotOk(s) && Enabled(s, step) && Settled(s) && !CloseStep(step) && !step.Act?
    ensures Units(Next(s, step)) <= Units(s) && Stage(Next(s, step)) == Stage(s)
  {
    hide Work;
  }

  /**
   * Once the factory and its pool are flagged as closed, they stay so, and a natural number says how much is left
   * until Factory.Close returns: each step of the two Close methods and of a task they wait for lowers it, and
   * no step of anything else raises it.
   */
  lemma EveryStepHelps(s: State, step: Step)
    requires Inv(s) && Enabled(s, step) && Settled(s)
    ensures Settled(Next(s, step))
    ensures CloseLeft(Next(s, step)) <= CloseLeft(s)
    ensures Serves(s, step) ==> CloseLeft(Next(s, step)) < CloseLeft(s)
  {
    StaysSettled(s, step);
    var s' := Next(s, step);
    hide TasksOk, SlotsOk, SessionOk, TokensConserved, PoolPhaseOk, LeasesOk, DirsOk, SnapshotOk, Units;
    if step.Act? {
      ActionWhileSettled(s, step.task, step.action);
      ActionShrinksUnits(s, step.task, step.action);
    } else if CloseStep(step) {
      CloseStepShrinks(s, step);
    } else {
      OtherStepKeepsUnits(s, step);
    }
    hide Enabled, Next, Settled;
    SubsetSize(Units(s'), Units(s));
  }

  lemma StaysSettled(s: State, step: Step)
    requires TasksOk(s) && Enabled(s, step) && Settled(s)
    ensures Settled(Next(s, step))
  {
    hide TasksOk, Can, Shared, NextTask, Allowed, Undisturbed, Work;
    if step.Act? {
      ActionWhileSettled(s, step.task, step.action);
    }
  }

  /** Between Factory.Close setting its flag and the pool setting its own, the only such step is the latter. */
  lemma PoolFlagComesFirst(s: State, step: Step)
    requires Enabled(s, step) && FactoryIsClosed(s) && PoolPhaseOk(s) && !Settled(s) && Serves(s, step)
    ensures step.PoolFlag? && Settled(Next(s, step))
  {
    hide Can, Allowed, Undisturbed;
  }

  /** How many steps of a run, from one state to a later one, were steps of Close or of a task it waited for. */
  ghost function Served(states: seq<State>, steps: seq<Step>, i: nat, j: nat): nat
    requires i <= j <= |steps| <= |states|
  {
    if i == j then 0
    else Served(states, steps, i, j - 1) + if Serves(states[j - 1], steps[j - 1]) then 1 else 0
  }

  /**
   * Whatever else runs, only so many of these steps are ever taken as CloseLeft says when the pool is flagged; and
   * what was taken is gone from what is left. As one of them can be taken while Factory.Close has not returned,
   * unless captures or extend calls are in the way, Factory.Close returns.
   */
  lemma {:induction false} CloseIsBounded(states: seq<State>, steps: seq<Step>, i: nat, j: nat)
    requires Run(states, steps) && i <= j < |states| && Settled(states[i])
    ensures Settled(states[j])
    ensures Served(states, steps, i, j) + CloseLeft(states[j]) <= CloseLeft(states[i])
  {
    hide Inv, Settled, CloseLeft, Serves, Enabled, Next;
    if i < j {
      RunKeepsInv(states, steps, j - 1);
      StepOfRun(states, steps, j - 1);
      CloseIsBounded(states, steps, i, j - 1);
      hide Run;
      EveryStepHelps(states[j - 1], steps[j - 1]);
    }
  }

  lemma StepOfRun(states: seq<State>, steps: seq<Step>, i: nat)
    requires Run(states, steps) && i < |steps|
    ensures Enabled(states[i], steps[i]) && states[i + 1] == Next(states[i], steps[i])
  {
  }

  /** What is left once Factory.Close has returned: nothing. */
  lemma NothingLeft(s: State)
    requires Inv(s) && Settled(s)
    ensures CloseLeft(s) == 0 <==> s.factory.FactoryClosed?
  {
    hide TasksOk, SlotsOk, SessionOk, TokensConserved, LeasesOk, DirsOk, SnapshotOk, Work;
    if s.factory.FactoryClosed? {
      assert Units(s) == {};
    }
  }
}
