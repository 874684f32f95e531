/** Browser tasks as a transition system: one step per critical section, channel operation or
    external call of Factory.Open, leaseForTask, BrowserPool.NewAdapter, Adapter.Close and the two
    Close methods, freely interleaved over any number of tasks. */
module Lifecycle {
  import opened Text

  type TaskId = nat

  const CAPACITY: nat := 3

  /** Where one call of Factory.Open stands. */
  datatype Pc =
    | AtSession                   // waiting for the session token
    | AtSlot                      // waiting for a factory slot
    | ReleasingSession            // gave up while waiting for a slot
    | AtEgress                    // holds a slot; about to read the egress manager
    | AtLease                     // about to take a lease
    | ClosingOld(stale: nat)       // closing a session lease that cannot be reused
    | Acquiring                   // acquiring a new session lease
    | Installing(made: nat)      // about to publish it
    | Dropping(made: nat)        // the factory closed meanwhile
    | AtPool
    | AtProfile
    | AtPoolToken
    | Preparing                   // holds a pool token
    | Launching                   // counted as an opening
    | Initialising                // the browser process runs, no adapter yet
    | Launched                    // newAdapter returned an adapter
    | ClosingSelf                 // the pool closed meanwhile: adapter.Close()
    | AddingPoolHook              // entered in pool.active
    | RunningPoolHook             // the adapter was already closed: run the hook here
    | LeavingPool
    | AddingFactoryHook
    | RunningFactoryHook
    | Returned
    | PoolFailing                 // deferred openings.Done()
    | TokenFailing                // deferred return of the pool token
    | UnwindProfile
    | UnwindLease
    | UnwindSlot
    | UnwindSession
    | Failed

  datatype Own = NoLease | LeaseOpen | LeaseClosed
  datatype Profile = NoProfile | Account | Scratch(dir: nat) | Removed
  datatype Browser = NoBrowser | Live | Stopped

  /** Progress of the goroutine that won adapter.closeOnce. */
  datatype Phase = NoAdapter | Up | Stopping | BrowserGone | RunningHooks | AdapterClosed

  /** A close hook: handed over, copied by the closer, running in AddCloseHook's caller, or done. */
  datatype Hook = Unset | Registered | Taken | Inline | Ran

  /** Next statement of the factory's close hook. */
  datatype Body = Idle | LeaseNext | ProfileNext | SlotNext | SessionNext | Finished

  datatype Task = Task(
    purpose: Purpose,
    pc: Pc,
    session: bool,             // holds the session token
    slot: Option<nat>,         // holds this factory slot
    lease: Own,                // the task's own (scan) lease
    profile: Profile,
    poolToken: bool,           // holds a pool token, itself or through pool.active
    opening: bool,             // counted in pool.openings
    inActive: bool,            // its adapter is in pool.active
    browser: Browser,
    phase: Phase,
    poolHook: Hook,
    factoryHook: Hook,
    body: Body,
    poolHookRuns: nat,         // history: completed runs of each hook, slot returns
    factoryHookRuns: nat,
    slotReturns: nat)

  function NewTask(purpose: Purpose): Task {
    Task(purpose, if purpose.SessionPurpose? then AtSession else AtSlot, false, None, NoLease, NoProfile,
         false, false, false, NoBrowser, NoAdapter, Unset, Unset, Idle, 0, 0, 0)
  }

  /** BrowserPool.Close, called once by Factory.Close. */
  datatype PoolPhase =
    | PoolOpen
    | PoolDraining(adapters: set<TaskId>)   // closed flag set, snapshot taken, waiting for openings
    | PoolStopping(adapters: set<TaskId>)   // closing what is left of the snapshot
    | PoolClosed

  datatype FactoryPhase =
    | FactoryOpen
    | FactoryFlagged(lease: Option<nat>)    // closed flag set, snapshots taken
    | FactoryLeaving(lease: Option<nat>)    // the pool has been closed
    | FactoryClosed

  datatype State = State(
    tasks: map<TaskId, Task>,
    slots: seq<nat>,                 // the channel of free slots, in order
    sessions: nat,                   // session tokens in their channel
    poolExists: bool,
    poolTokens: nat,                 // pool tokens in their channel
    pool: PoolPhase,
    factory: FactoryPhase,
    sessionLease: Option<nat>,
    leases: map<nat, bool>,          // session leases ever acquired, and whether each is open
    extending: set<nat>,             // session leases with an extend call out
    scanExtends: set<TaskId>,        // tasks whose own lease has an extend call out
    captures: multiset<TaskId>,      // network captures running, by the task whose browser made them
    dirs: set<nat>)                  // scan profile directories in use

  function Initial(): State {
    State(map[], [0, 1, 2], 1, false, CAPACITY, PoolOpen, FactoryOpen, None, map[], {}, {}, multiset{}, {})
  }

  // ---------------------------------------------------------------- actions

  datatype Action =
    // Factory.Open
    | TakeSession | GiveUpSession | TakeSlot | GiveUpSlot | ReturnEarlySession
    | ReadEgress | FailEgress
    | AcquireScanLease | ReuseSessionLease | DetachSessionLease | CloseOldLease
    | AcquireSessionLease(id: nat) | InstallLease | DropLease | FailLease
    | UsePool | FailPool | UseProfile(dir: nat) | FailProfile
    // BrowserPool.NewAdapter
    | TakePoolToken | FailPoolToken | BeginOpening | FailPreparing
    | StartBrowser | FailLaunch | FailInitialise | FinishInitialise
    | EnterActive | RefuseActive | SelfClosed
    | AddPoolHook | RunPoolHookInline | LeavePool
    | DoneFailedOpening | ReturnFailedToken
    | AddFactoryHook
    // deferred clean-ups of a failing Open
    | RemoveProfile | CloseLease | ReturnSlot | ReturnSession
    // Adapter.Close
    | BeginClose | StopBrowser | TakeHooks | RunPoolHook | StartFactoryHook
    | HookLease | HookProfile | HookSlot | HookSession | EndClose

  predicate HookRunning(x: Task) {
    x.pc.RunningFactoryHook? || (x.phase.RunningHooks? && x.factoryHook.Taken?)
  }

  /** When an action of a task may happen, as far as the task itself decides. */
  predicate Can(x: Task, a: Action) {
    match a
    case TakeSession => x.pc.AtSession?
    case GiveUpSession => x.pc.AtSession?
    case TakeSlot => x.pc.AtSlot?
    case GiveUpSlot => x.pc.AtSlot?
    case ReturnEarlySession => x.pc.ReleasingSession?
    case ReadEgress => x.pc.AtEgress?
    case FailEgress => x.pc.AtEgress?
    case AcquireScanLease => x.pc.AtLease? && x.purpose.ScanPurpose?
    case ReuseSessionLease => x.pc.AtLease? && x.purpose.SessionPurpose?
    case DetachSessionLease => x.pc.AtLease? && x.purpose.SessionPurpose?
    case CloseOldLease => x.pc.ClosingOld?
    case AcquireSessionLease(_) => x.pc.Acquiring?
    case InstallLease => x.pc.Installing?
    case DropLease => x.pc.Dropping?
    case FailLease => (x.pc.AtLease? && !x.purpose.SessionPurpose?) || x.pc.Acquiring?
    case UsePool => x.pc.AtPool?
    case FailPool => x.pc.AtPool?
    case UseProfile(_) => x.pc.AtProfile?
    case FailProfile => x.pc.AtProfile?
    case TakePoolToken => x.pc.AtPoolToken?
    case FailPoolToken => x.pc.AtPoolToken?
    case BeginOpening => x.pc.Preparing?
    case FailPreparing => x.pc.Preparing?
    case StartBrowser => x.pc.Launching?
    case FailLaunch => x.pc.Launching?
    case FailInitialise => x.pc.Initialising?
    case FinishInitialise => x.pc.Initialising?
    case EnterActive => x.pc.Launched?
    case RefuseActive => x.pc.Launched?
    case SelfClosed => x.pc.ClosingSelf? && x.phase.AdapterClosed?
    case AddPoolHook => x.pc.AddingPoolHook?
    case RunPoolHookInline => x.pc.RunningPoolHook?
    case LeavePool => x.pc.LeavingPool?
    case DoneFailedOpening => x.pc.PoolFailing?
    case ReturnFailedToken => x.pc.TokenFailing?
    case AddFactoryHook => x.pc.AddingFactoryHook?
    case RemoveProfile => x.pc.UnwindProfile?
    case CloseLease => x.pc.UnwindLease?
    case ReturnSlot => x.pc.UnwindSlot?
    case ReturnSession => x.pc.UnwindSession?
    case BeginClose => x.phase.Up?
    case StopBrowser => x.phase.Stopping?
    case TakeHooks => x.phase.BrowserGone?
    case RunPoolHook => x.phase.RunningHooks? && x.poolHook.Taken?
    case StartFactoryHook =>
      x.phase.RunningHooks? && !x.poolHook.Taken? && x.factoryHook.Taken? && x.body.Idle?
    case HookLease => HookRunning(x) && x.body.LeaseNext?
    case HookProfile => HookRunning(x) && x.body.ProfileNext?
    case HookSlot => HookRunning(x) && x.body.SlotNext?
    case HookSession => HookRunning(x) && x.body.SessionNext?
    case EndClose => x.phase.RunningHooks? && !x.poolHook.Taken? && !x.factoryHook.Taken?
  }

  predicate HooksTakenAlready(x: Task) {
    x.phase.RunningHooks? || x.phase.AdapterClosed?
  }

  function Copied(h: Hook): Hook {
    if h.Registered? then Taken else h
  }

  /** releaseAdapter: leave pool.active and give the token back, if still there. */
  function ReleasedFromPool(x: Task): Task {
    x.(inActive := false, poolToken := x.poolToken && !x.inActive, poolHook := Ran, poolHookRuns := x.poolHookRuns + 1)
  }

  /** The actions of Factory.Open before it turns to the pool. */
  predicate FactoryAction(a: Action) {
    a.TakeSession? || a.GiveUpSession? || a.TakeSlot? || a.GiveUpSlot? || a.ReturnEarlySession?
    || a.ReadEgress? || a.FailEgress? || a.AcquireScanLease? || a.ReuseSessionLease? || a.DetachSessionLease?
    || a.CloseOldLease? || a.AcquireSessionLease? || a.InstallLease? || a.DropLease? || a.FailLease?
    || a.UsePool? || a.FailPool? || a.UseProfile? || a.FailProfile?
  }

  /** The actions of BrowserPool.NewAdapter, and handing over the factory's own hook. */
  predicate PoolAction(a: Action) {
    a.TakePoolToken? || a.FailPoolToken? || a.BeginOpening? || a.FailPreparing? || a.StartBrowser?
    || a.FailLaunch? || a.FailInitialise? || a.FinishInitialise? || a.EnterActive? || a.RefuseActive?
    || a.SelfClosed? || a.AddPoolHook? || a.RunPoolHookInline? || a.LeavePool? || a.DoneFailedOpening?
    || a.ReturnFailedToken? || a.AddFactoryHook?
  }

  /** `slot` is what the slot channel delivered, `detached` the previous session lease. */
  function DoFactory(x: Task, a: Action, slot: nat, detached: Option<nat>, factoryClosed: bool): Task {
    match a
    case TakeSession => x.(pc := AtSlot, session := true)
    case GiveUpSession => x.(pc := Failed)
    case TakeSlot => x.(pc := AtEgress, slot := Some(slot))
    case GiveUpSlot => x.(pc := ReleasingSession)
    case ReturnEarlySession => x.(pc := Failed, session := false)
    case ReadEgress => x.(pc := AtLease)
    case FailEgress => x.(pc := UnwindProfile)
    case AcquireScanLease => x.(pc := AtPool, lease := LeaseOpen)
    case ReuseSessionLease => x.(pc := AtPool)
    case DetachSessionLease => x.(pc := if detached.Some? then ClosingOld(detached.value) else Acquiring)
    case CloseOldLease => x.(pc := Acquiring)
    case AcquireSessionLease(id) => x.(pc := Installing(id))
    case InstallLease => if x.pc.Installing? && factoryClosed then x.(pc := Dropping(x.pc.made)) else x.(pc := AtPool)
    case DropLease => x.(pc := UnwindProfile)
    case FailLease => x.(pc := UnwindProfile)
    case UsePool => x.(pc := AtProfile)
    case FailPool => x.(pc := UnwindProfile)
    case UseProfile(dir) =>
      x.(pc := AtPoolToken, profile := if x.purpose.ScanPurpose? then Scratch(dir) else Account)
    case FailProfile => x.(pc := UnwindProfile)
    case _ => x
  }

  function DoPool(x: Task, a: Action): Task {
    match a
    case TakePoolToken => x.(pc := Preparing, poolToken := true)
    case FailPoolToken => x.(pc := UnwindProfile)
    case BeginOpening => x.(pc := Launching, opening := true)
    case FailPreparing => x.(pc := TokenFailing)
    case StartBrowser => x.(pc := Initialising, browser := Live)
    case FailLaunch => x.(pc := PoolFailing)
    case FailInitialise => x.(pc := PoolFailing, browser := Stopped)
    case FinishInitialise => x.(pc := Launched, phase := Up)
    case EnterActive => x.(pc := AddingPoolHook, inActive := true)
    case RefuseActive => x.(pc := ClosingSelf)
    case SelfClosed => x.(pc := PoolFailing)
    case AddPoolHook =>
      if HooksTakenAlready(x) then x.(pc := RunningPoolHook, poolHook := Inline)
      else x.(pc := LeavingPool, poolHook := Registered)
    case RunPoolHookInline => ReleasedFromPool(x).(pc := LeavingPool)
    case LeavePool => x.(pc := AddingFactoryHook, opening := false)
    case DoneFailedOpening => x.(pc := TokenFailing, opening := false)
    case ReturnFailedToken => x.(pc := UnwindProfile, poolToken := false)
    case AddFactoryHook =>
      if HooksTakenAlready(x) then x.(pc := RunningFactoryHook, factoryHook := Inline, body := LeaseNext)
      else x.(pc := Returned, factoryHook := Registered)
    case _ => x
  }

  /** The clean-ups of a failing Open, and Adapter.Close with its hooks. */
  function DoClose(x: Task, a: Action): Task {
    match a
    case RemoveProfile => x.(pc := UnwindLease, profile := if x.profile.Scratch? then Removed else x.profile)
    case CloseLease => x.(pc := UnwindSlot, lease := if x.lease.LeaseOpen? then LeaseClosed else x.lease)
    case ReturnSlot => x.(pc := UnwindSession, slot := None, slotReturns := x.slotReturns + 1)
    case ReturnSession => x.(pc := Failed, session := false)
    case BeginClose => x.(phase := Stopping)
    case StopBrowser => x.(phase := BrowserGone, browser := Stopped)
    case TakeHooks =>
      x.(phase := RunningHooks, poolHook := Copied(x.poolHook), factoryHook := Copied(x.factoryHook))
    case RunPoolHook => ReleasedFromPool(x)
    case StartFactoryHook => x.(body := LeaseNext)
    case HookLease => x.(body := ProfileNext, lease := if x.lease.LeaseOpen? then LeaseClosed else x.lease)
    case HookProfile => x.(body := SlotNext, profile := if x.profile.Scratch? then Removed else x.profile)
    case HookSlot => x.(body := SessionNext, slot := None, slotReturns := x.slotReturns + 1)
    case HookSession =>
      x.(body := Finished, session := false, factoryHook := Ran, factoryHookRuns := x.factoryHookRuns + 1,
         pc := if x.pc.RunningFactoryHook? then Returned else x.pc)
    case EndClose => x.(phase := AdapterClosed)
    case _ => x
  }

  /** The task after an action. */
  function Do(x: Task, a: Action, slot: nat, detached: Option<nat>, factoryClosed: bool): Task {
    if FactoryAction(a) then DoFactory(x, a, slot, detached, factoryClosed)
    else if PoolAction(a) then DoPool(x, a)
    else DoClose(x, a)
  }

  // ------------------------------------------------------------- global steps

  datatype Step =
    | Arrive(task: TaskId, purpose: Purpose)
    | Act(task: TaskId, action: Action)
    | FactoryFlag                    // Factory.Close: set closed, copy pool and lease
    | PoolFlag                       // BrowserPool.Close: set closed, copy active
    | PoolWait                       // openings.Wait() returns
    | PoolCloseAdapter(task: TaskId) // one adapter.Close() of the loop returns
    | PoolReturn
    | FactoryAfterPool
    | FactoryCloseLease
    | SessionExtend(lease: nat)      // the renewal loop of a session lease
    | SessionExtended(lease: nat)
    | ScanExtend(task: TaskId)       // the renewal loop of a task's own lease
    | ScanExtended(task: TaskId)
    | CaptureBegins(task: TaskId)    // request handlers of a task's browser
    | CaptureEnds(task: TaskId)

  predicate FactoryIsClosed(s: State) { !s.factory.FactoryOpen? }

  predicate PoolIsClosed(s: State) { !s.pool.PoolOpen? }

  predicate LeaseIsOpen(s: State, id: nat) {
    id in s.leases && s.leases[id]
  }

  /** What the shared state adds to the guard of an action. */
  predicate Allowed(s: State, x: Task, a: Action) {
    match a
    case TakeSession => s.sessions > 0
    case TakeSlot => s.slots != []
    case ReadEgress => !FactoryIsClosed(s)
    case ReuseSessionLease => s.sessionLease.Some? && LeaseIsOpen(s, s.sessionLease.value)
    case CloseOldLease => x.pc.ClosingOld? ==> x.pc.stale !in s.extending
    case AcquireSessionLease(id) => id !in s.leases
    case DropLease => x.pc.Dropping? ==> x.pc.made !in s.extending
    case UseProfile(dir) => x.purpose.ScanPurpose? ==> dir !in s.dirs
    case UsePool => !FactoryIsClosed(s)
    case TakePoolToken => s.poolTokens > 0
    case BeginOpening => !PoolIsClosed(s)
    case EnterActive => !PoolIsClosed(s)
    case RefuseActive => PoolIsClosed(s)
    case _ => true
  }

  /** Closing waits for running captures before the browser stops, and for an extend call before a lease closes. */
  predicate Undisturbed(s: State, t: TaskId, a: Action) {
    match a
    case StopBrowser => s.captures[t] == 0
    case CloseLease => t !in s.scanExtends
    case HookLease => t !in s.scanExtends
    case _ => true
  }

  function ActiveSet(s: State): set<TaskId> {
    set t | t in s.tasks && s.tasks[t].inActive
  }

  predicate Enabled(s: State, step: Step) {
    match step
    case Arrive(t, _) => t !in s.tasks
    case Act(t, a) => t in s.tasks && Can(s.tasks[t], a) && Allowed(s, s.tasks[t], a) && Undisturbed(s, t, a)
    case FactoryFlag => s.factory.FactoryOpen?
    case PoolFlag => s.factory.FactoryFlagged? && s.poolExists && s.pool.PoolOpen?
    case PoolWait => s.pool.PoolDraining? && forall t :: t in s.tasks ==> !s.tasks[t].opening
    case PoolCloseAdapter(t) =>
      s.pool.PoolStopping? && t in s.pool.adapters && t in s.tasks && s.tasks[t].phase.AdapterClosed?
    case PoolReturn => s.pool.PoolStopping? && s.pool.adapters == {}
    case FactoryAfterPool => s.factory.FactoryFlagged? && (s.poolExists ==> s.pool.PoolClosed?)
    case FactoryCloseLease =>
      s.factory.FactoryLeaving? && (s.factory.lease.Some? ==> s.factory.lease.value !in s.extending)
    case SessionExtend(id) => LeaseIsOpen(s, id) && id !in s.extending
    case SessionExtended(id) => id in s.extending
    case ScanExtend(t) => t in s.tasks && s.tasks[t].lease.LeaseOpen? && t !in s.scanExtends
    case ScanExtended(t) => t in s.scanExtends
    case CaptureBegins(t) => t in s.tasks && s.tasks[t].phase.Up?
    case CaptureEnds(t) => s.captures[t] > 0
  }

  function CloseLeaseIn(leases: map<nat, bool>, id: nat): map<nat, bool> {
    leases[id := false]
  }

  function NextTask(s: State, x: Task, a: Action): Task {
    Do(x, a, if s.slots == [] then 0 else s.slots[0], s.sessionLease, FactoryIsClosed(s))
  }

  /** How an action changes the shared state. */
  function Shared(s: State, x: Task, a: Action): State {
    match a
    case TakeSession => s.(sessions := if s.sessions == 0 then 0 else s.sessions - 1)
    case TakeSlot => s.(slots := if s.slots == [] then [] else s.slots[1..])
    case ReturnEarlySession => if x.session then s.(sessions := s.sessions + 1) else s
    case ReturnSession => if x.session then s.(sessions := s.sessions + 1) else s
    case HookSession => if x.session then s.(sessions := s.sessions + 1) else s
    case ReturnSlot => if x.slot.Some? then s.(slots := s.slots + [x.slot.value]) else s
    case HookSlot => if x.slot.Some? then s.(slots := s.slots + [x.slot.value]) else s
    case DetachSessionLease => s.(sessionLease := None)
    case CloseOldLease => if x.pc.ClosingOld? then s.(leases := CloseLeaseIn(s.leases, x.pc.stale)) else s
    case AcquireSessionLease(id) => s.(leases := s.leases[id := true])
    case InstallLease =>
      if x.pc.Installing? && !FactoryIsClosed(s) then s.(sessionLease := Some(x.pc.made)) else s
    case DropLease => if x.pc.Dropping? then s.(leases := CloseLeaseIn(s.leases, x.pc.made)) else s
    case UsePool => s.(poolExists := true)
    case UseProfile(dir) => if x.purpose.ScanPurpose? then s.(dirs := s.dirs + {dir}) else s
    case RemoveProfile => if x.profile.Scratch? then s.(dirs := s.dirs - {x.profile.dir}) else s
    case HookProfile => if x.profile.Scratch? then s.(dirs := s.dirs - {x.profile.dir}) else s
    case TakePoolToken => s.(poolTokens := if s.poolTokens == 0 then 0 else s.poolTokens - 1)
    case ReturnFailedToken => s.(poolTokens := s.poolTokens + 1)
    case RunPoolHookInline => if x.inActive then s.(poolTokens := s.poolTokens + 1) else s
    case RunPoolHook => if x.inActive then s.(poolTokens := s.poolTokens + 1) else s
    case _ => s
  }

  function Next(s: State, step: Step): State
    requires Enabled(s, step)
  {
    match step
    case Arrive(t, purpose) => s.(tasks := s.tasks[t := NewTask(purpose)])
    case Act(t, a) => Shared(s, s.tasks[t], a).(tasks := s.tasks[t := NextTask(s, s.tasks[t], a)])
    case FactoryFlag => s.(factory := FactoryFlagged(s.sessionLease))
    case PoolFlag => s.(pool := PoolDraining(ActiveSet(s)))
    case PoolWait => s.(pool := PoolStopping(s.pool.adapters))
    case PoolCloseAdapter(t) => s.(pool := PoolStopping(s.pool.adapters - {t}))
    case PoolReturn => s.(pool := PoolClosed)
    case FactoryAfterPool => s.(factory := FactoryLeaving(s.factory.lease))
    case FactoryCloseLease =>
      var lease := s.factory.lease;
      s.(factory := FactoryClosed, leases := if lease.Some? then CloseLeaseIn(s.leases, lease.value) else s.leases)
    case SessionExtend(id) => s.(extending := s.extending + {id})
    case SessionExtended(id) => s.(extending := s.extending - {id})
    case ScanExtend(t) => s.(scanExtends := s.scanExtends + {t})
    case ScanExtended(t) => s.(scanExtends := s.scanExtends - {t})
    case CaptureBegins(t) => s.(captures := s.captures + multiset{t})
    case CaptureEnds(t) => s.(captures := s.captures - multiset{t})
  }

  /** A run: states joined by enabled steps, from the initial state. */
  ghost predicate Run(states: seq<State>, steps: seq<Step>) {
    && |states| == |steps| + 1
    && states[0] == Initial()
    && forall i :: 0 <= i < |steps| ==> Enabled(states[i], steps[i]) && states[i + 1] == Next(states[i], steps[i])
  }
}
