/** What every reachable task satisfies on its own. */
module LifecycleTask {
  import opened Text
  import opened Lifecycle

  /** Program points at which Open itself is responsible for the factory slot. */
  predicate SlotWithOpen(pc: Pc) {
    !(pc.AtSession? || pc.AtSlot? || pc.ReleasingSession? || pc.RunningFactoryHook? || pc.Returned?
      || pc.UnwindSession? || pc.Failed?)
  }

  predicate HandedOver(pc: Pc) {
    pc.RunningFactoryHook? || pc.Returned?
  }

  /** Program points at which NewAdapter itself is responsible for a pool token. */
  predicate TokenWithOpen(pc: Pc) {
    pc.Preparing? || pc.Launching? || pc.Initialising? || pc.Launched? || pc.ClosingSelf? || pc.PoolFailing?
    || pc.TokenFailing?
  }

  predicate CountedOpening(pc: Pc) {
    pc.Launching? || pc.Initialising? || pc.Launched? || pc.ClosingSelf? || pc.AddingPoolHook?
    || pc.RunningPoolHook? || pc.LeavingPool? || pc.PoolFailing?
  }

  /** Program points after the adapter entered pool.active. */
  predicate Entered(pc: Pc) {
    pc.AddingPoolHook? || pc.RunningPoolHook? || pc.LeavingPool? || pc.AddingFactoryHook? || HandedOver(pc)
  }

  /** Program points at which the browser process may run in the task's profile. */
  predicate MayRun(pc: Pc) {
    pc.Initialising? || pc.Launched? || pc.ClosingSelf? || Entered(pc)
  }

  predicate Unwinding(pc: Pc) {
    pc.UnwindProfile? || pc.UnwindLease? || pc.UnwindSlot? || pc.UnwindSession? || pc.Failed?
    || pc.PoolFailing? || pc.TokenFailing?
  }

  predicate ManagingLease(pc: Pc) {
    pc.ClosingOld? || pc.Acquiring? || pc.Installing? || pc.Dropping?
  }

  predicate BeforePool(pc: Pc) {
    pc.AtSession? || pc.AtSlot? || pc.ReleasingSession? || pc.AtEgress? || pc.AtLease? || ManagingLease(pc)
  }

  /** Who answers for the factory slot and the session token. */
  predicate TokensOk(x: Task) {
    && (x.slot.Some? <==>
        SlotWithOpen(x.pc) || (HandedOver(x.pc) && !x.body.SessionNext? && !x.body.Finished?))
    && (x.session <==>
        x.purpose.SessionPurpose? &&
        (x.pc.AtSlot? || x.pc.ReleasingSession? || x.pc.UnwindSession? || SlotWithOpen(x.pc)
         || (HandedOver(x.pc) && !x.body.Finished?)))
    && x.slotReturns == (if x.pc.UnwindSession? || x.body.SessionNext? || x.body.Finished? then 1
                         else if x.pc.Failed? then x.slotReturns else 0)
    && x.slotReturns <= 1
    && (x.slotReturns == 1 ==> x.slot.None?)
  }

  /** The own lease and the scan profile are gone before the slot is given back. */
  predicate LeaseAndProfileOk(x: Task) {
    && (x.lease.LeaseOpen? ==>
        x.purpose.ScanPurpose? &&
        ((SlotWithOpen(x.pc) && !x.pc.UnwindSlot?) || (HandedOver(x.pc) && (x.body.Idle? || x.body.LeaseNext?))))
    && (x.profile.Scratch? ==>
        (SlotWithOpen(x.pc) && !x.pc.UnwindLease? && !x.pc.UnwindSlot?)
        || (HandedOver(x.pc) && (x.body.Idle? || x.body.LeaseNext? || x.body.ProfileNext?)))
    && (x.profile.Scratch? || x.profile.Removed? ==> x.purpose.ScanPurpose?)
    && (x.profile.Removed? ==>
        x.pc.UnwindLease? || x.pc.UnwindSlot? || x.pc.UnwindSession? || x.pc.Failed?
        || x.body.SlotNext? || x.body.SessionNext? || x.body.Finished?)
    && (x.profile.Account? ==> x.purpose.SessionPurpose?)
    && (x.purpose.OtherPurpose? ==> BeforePool(x.pc) || Unwinding(x.pc))
    && (x.purpose.OtherPurpose? ==> !CountedOpening(x.pc) && !TokenWithOpen(x.pc))
    && (x.pc.ClosingOld? || x.pc.Acquiring? || x.pc.Installing? || x.pc.Dropping? ==> x.purpose.SessionPurpose?)
    && (x.pc.AtPoolToken? || TokenWithOpen(x.pc) || MayRun(x.pc) ==> !x.profile.NoProfile?)
    && ((x.pc.AtPoolToken? || TokenWithOpen(x.pc) || MayRun(x.pc)) && x.purpose.SessionPurpose? ==> x.profile.Account?)
    && (x.pc.AtSession? ==> x.purpose.SessionPurpose?)
  }

  /** The browser process lives only between its start and the closer's browser step. */
  predicate BrowserOk(x: Task) {
    && (x.browser.Live? <==> x.pc.Initialising? || x.phase.Up? || x.phase.Stopping?)
    && (x.pc.Launched? || x.pc.ClosingSelf? || Entered(x.pc) ==> !x.phase.NoAdapter?)
    && (!x.phase.NoAdapter? && !x.phase.AdapterClosed? ==> x.pc.Launched? || x.pc.ClosingSelf? || Entered(x.pc))
    && (x.pc.Initialising? ==> x.phase.NoAdapter?)
    && (BeforePool(x.pc) || x.pc.AtPool? || x.pc.AtProfile? || x.pc.AtPoolToken? || x.pc.Preparing? || x.pc.Launching?
        ==> x.phase.NoAdapter? && x.browser.NoBrowser?)
  }

  /** Pool membership, the pool token and the pool's own close hook. */
  predicate PoolOk(x: Task) {
    && (x.opening <==> CountedOpening(x.pc))
    && (x.inActive <==> Entered(x.pc) && !x.poolHook.Ran?)
    && (x.poolToken <==> TokenWithOpen(x.pc) || x.inActive)
    && (x.poolHook.Unset? <==> !Entered(x.pc) || x.pc.AddingPoolHook?)
    && (x.poolHook.Inline? <==> x.pc.RunningPoolHook?)
    && (x.poolHook.Registered? ==> !HooksTakenAlready(x))
    && (x.poolHook.Taken? ==> x.phase.RunningHooks?)
    && (x.poolHook.Inline? || x.poolHook.Ran? ==> HooksTakenAlready(x))
    && x.poolHookRuns == (if x.poolHook.Ran? then 1 else 0)
  }

  /** The factory's close hook and how far it has come. */
  predicate FactoryHookOk(x: Task) {
    && (x.factoryHook.Unset? <==> !HandedOver(x.pc))
    && (x.factoryHook.Inline? <==> x.pc.RunningFactoryHook?)
    && (x.factoryHook.Registered? ==> !HooksTakenAlready(x))
    && (x.factoryHook.Taken? ==> x.phase.RunningHooks?)
    && (x.factoryHook.Inline? || x.factoryHook.Ran? ==> HooksTakenAlready(x))
    && (x.factoryHook.Unset? || x.factoryHook.Registered? ==> x.body.Idle?)
    && (x.factoryHook.Inline? ==> !x.body.Idle? && !x.body.Finished?)
    && (x.factoryHook.Taken? ==> !x.body.Finished?)
    && (x.factoryHook.Taken? && !x.body.Idle? ==> !x.poolHook.Taken?)
    && (x.factoryHook.Ran? <==> x.body.Finished?)
    && x.factoryHookRuns == (if x.factoryHook.Ran? then 1 else 0)
  }

  predicate TaskOk(x: Task) {
    && TokensOk(x)
    && LeaseAndProfileOk(x)
    && BrowserOk(x)
    && PoolOk(x)
    && FactoryHookOk(x)
  }

  lemma NewTaskOk(purpose: Purpose)
    ensures TaskOk(NewTask(purpose))
  {
  }

  predicate WaitAction(a: Action) {
    a.TakeSession? || a.GiveUpSession? || a.TakeSlot?
  }

  lemma WaitKeepsTask(x: Task, a: Action, slot: nat, detached: Option<nat>, factoryClosed: bool)
    requires TaskOk(x) && Can(x, a) && WaitAction(a)
    ensures TaskOk(DoFactory(x, a, slot, detached, factoryClosed))
  {
  }

  predicate GiveUpAction(a: Action) {
    a.GiveUpSlot? || a.ReturnEarlySession?
  }

  lemma GiveUpKeepsTask(x: Task, a: Action, slot: nat, detached: Option<nat>, factoryClosed: bool)
    requires TaskOk(x) && Can(x, a) && GiveUpAction(a)
    ensures TaskOk(DoFactory(x, a, slot, detached, factoryClosed))
  {
  }

  predicate PrepareAction(a: Action) {
    a.ReadEgress? || a.FailEgress? || a.UsePool?
  }

  lemma PrepareKeepsTask(x: Task, a: Action, slot: nat, detached: Option<nat>, factoryClosed: bool)
    requires TaskOk(x) && Can(x, a) && PrepareAction(a)
    ensures TaskOk(DoFactory(x, a, slot, detached, factoryClosed))
  {
  }

  predicate ProfileAction(a: Action) {
    a.FailPool? || a.UseProfile? || a.FailProfile?
  }

  lemma ProfileKeepsTask(x: Task, a: Action, slot: nat, detached: Option<nat>, factoryClosed: bool)
    requires TaskOk(x) && Can(x, a) && ProfileAction(a)
    ensures TaskOk(DoFactory(x, a, slot, detached, factoryClosed))
  {
  }

  predicate LeaseAction(a: Action) {
    a.AcquireScanLease? || a.ReuseSessionLease? || a.DetachSessionLease? || a.CloseOldLease?
  }

  lemma LeaseKeepsTask(x: Task, a: Action, slot: nat, detached: Option<nat>, factoryClosed: bool)
    requires TaskOk(x) && Can(x, a) && LeaseAction(a)
    ensures TaskOk(DoFactory(x, a, slot, detached, factoryClosed))
  {
  }

  predicate NewLeaseAction(a: Action) {
    a.AcquireSessionLease? || a.InstallLease? || a.DropLease? || a.FailLease?
  }

  lemma NewLeaseKeepsTask(x: Task, a: Action, slot: nat, detached: Option<nat>, factoryClosed: bool)
    requires TaskOk(x) && Can(x, a) && NewLeaseAction(a)
    ensures TaskOk(DoFactory(x, a, slot, detached, factoryClosed))
  {
  }

  predicate TokenAction(a: Action) {
    a.TakePoolToken? || a.FailPoolToken? || a.ReturnFailedToken?
  }

  lemma TokenKeepsTask(x: Task, a: Action)
    requires TaskOk(x) && Can(x, a) && TokenAction(a)
    ensures TaskOk(DoPool(x, a))
  {
  }

  predicate BeginAction(a: Action) {
    a.BeginOpening? || a.FailPreparing?
  }

  lemma BeginKeepsTask(x: Task, a: Action)
    requires TaskOk(x) && Can(x, a) && BeginAction(a)
    ensures TaskOk(DoPool(x, a))
  {
  }

  predicate BrowserAction(a: Action) {
    a.StartBrowser? || a.FailLaunch? || a.FailInitialise? || a.FinishInitialise?
  }

  lemma BrowserKeepsTask(x: Task, a: Action)
    requires TaskOk(x) && Can(x, a) && BrowserAction(a)
    ensures TaskOk(DoPool(x, a))
  {
  }

  predicate ActiveAction(a: Action) {
    a.EnterActive? || a.RefuseActive?
  }

  lemma ActiveKeepsTask(x: Task, a: Action)
    requires TaskOk(x) && Can(x, a) && ActiveAction(a)
    ensures TaskOk(DoPool(x, a))
  {
  }

  predicate LeaveAction(a: Action) {
    a.SelfClosed? || a.LeavePool?
  }

  lemma LeaveKeepsTask(x: Task, a: Action)
    requires TaskOk(x) && Can(x, a) && LeaveAction(a)
    ensures TaskOk(DoPool(x, a))
  {
  }

  predicate AddHookAction(a: Action) {
    a.AddPoolHook? || a.AddFactoryHook?
  }

  lemma AddHookKeepsTask(x: Task, a: Action)
    requires TaskOk(x) && Can(x, a) && AddHookAction(a)
    ensures TaskOk(DoPool(x, a))
  {
  }

  predicate InlineHookAction(a: Action) {
    a.RunPoolHookInline? || a.DoneFailedOpening?
  }

  lemma InlineHookKeepsTask(x: Task, a: Action)
    requires TaskOk(x) && Can(x, a) && InlineHookAction(a)
    ensures TaskOk(DoPool(x, a))
  {
  }

  predicate DiscardAction(a: Action) {
    a.RemoveProfile? || a.CloseLease?
  }

  lemma DiscardKeepsTask(x: Task, a: Action)
    requires TaskOk(x) && Can(x, a) && DiscardAction(a)
    ensures TaskOk(DoClose(x, a))
  {
  }

  predicate UnwindAction(a: Action) {
    a.ReturnSlot?
  }

  lemma UnwindKeepsTask(x: Task, a: Action)
    requires TaskOk(x) && Can(x, a) && UnwindAction(a)
    ensures TaskOk(DoClose(x, a))
  {
  }

  predicate LastAction(a: Action) {
    a.ReturnSession? || a.HookSession?
  }

  lemma LastKeepsTask(x: Task, a: Action)
    requires TaskOk(x) && Can(x, a) && LastAction(a)
    ensures TaskOk(DoClose(x, a))
  {
  }

  predicate CloseAction(a: Action) {
    a.BeginClose? || a.StopBrowser? || a.TakeHooks?
  }

  lemma CloseKeepsTask(x: Task, a: Action)
    requires TaskOk(x) && Can(x, a) && CloseAction(a)
    ensures TaskOk(DoClose(x, a))
  {
  }

  predicate RunHooksAction(a: Action) {
    a.RunPoolHook? || a.StartFactoryHook? || a.EndClose?
  }

  lemma RunHooksKeepsTask(x: Task, a: Action)
    requires TaskOk(x) && Can(x, a) && RunHooksAction(a)
    ensures TaskOk(DoClose(x, a))
  {
  }

  predicate HookBodyAction(a: Action) {
    a.HookLease? || a.HookProfile? || a.HookSlot?
  }

  lemma HookBodyKeepsTask(x: Task, a: Action)
    requires TaskOk(x) && Can(x, a) && HookBodyAction(a)
    ensures TaskOk(DoClose(x, a))
  {
  }

  lemma FactoryKeepsTask(x: Task, a: Action, slot: nat, detached: Option<nat>, factoryClosed: bool)
    requires TaskOk(x) && Can(x, a) && FactoryAction(a)
    ensures TaskOk(DoFactory(x, a, slot, detached, factoryClosed))
  {
    hide TaskOk, DoFactory, Can;
    if WaitAction(a) {
      WaitKeepsTask(x, a, slot, detached, factoryClosed);
    } else if GiveUpAction(a) {
      GiveUpKeepsTask(x, a, slot, detached, factoryClosed);
    } else if PrepareAction(a) {
      PrepareKeepsTask(x, a, slot, detached, factoryClosed);
    } else if ProfileAction(a) {
      ProfileKeepsTask(x, a, slot, detached, factoryClosed);
    } else if LeaseAction(a) {
      LeaseKeepsTask(x, a, slot, detached, factoryClosed);
    } else {
      NewLeaseKeepsTask(x, a, slot, detached, factoryClosed);
    }
  }

  lemma PoolKeepsTask(x: Task, a: Action)
    requires TaskOk(x) && Can(x, a) && PoolAction(a)
    ensures TaskOk(DoPool(x, a))
  {
    hide TaskOk, DoPool, Can;
    if TokenAction(a) {
      TokenKeepsTask(x, a);
    } else if BeginAction(a) {
      BeginKeepsTask(x, a);
    } else if BrowserAction(a) {
      BrowserKeepsTask(x, a);
    } else if ActiveAction(a) {
      ActiveKeepsTask(x, a);
    } else if LeaveAction(a) {
      LeaveKeepsTask(x, a);
    } else if AddHookAction(a) {
      AddHookKeepsTask(x, a);
    } else {
      InlineHookKeepsTask(x, a);
    }
  }

  lemma CleanupKeepsTask(x: Task, a: Action)
    requires TaskOk(x) && Can(x, a) && !FactoryAction(a) && !PoolAction(a)
    ensures TaskOk(DoClose(x, a))
  {
    hide TaskOk, DoClose, Can;
    if DiscardAction(a) {
      DiscardKeepsTask(x, a);
    } else if UnwindAction(a) {
      UnwindKeepsTask(x, a);
    } else if LastAction(a) {
      LastKeepsTask(x, a);
    } else if CloseAction(a) {
      CloseKeepsTask(x, a);
    } else if RunHooksAction(a) {
      RunHooksKeepsTask(x, a);
    } else {
      HookBodyKeepsTask(x, a);
    }
  }

  /** Every action keeps the task invariant. */
  lemma ActionKeepsTask(x: Task, a: Action, slot: nat, detached: Option<nat>, factoryClosed: bool)
    requires TaskOk(x) && Can(x, a)
    ensures TaskOk(Do(x, a, slot, detached, factoryClosed))
  {
    hide TaskOk, DoFactory, DoPool, DoClose, Can, FactoryAction, PoolAction;
    if FactoryAction(a) {
      FactoryKeepsTask(x, a, slot, detached, factoryClosed);
    } else if PoolAction(a) {
      PoolKeepsTask(x, a);
    } else {
      CleanupKeepsTask(x, a);
    }
  }
}
