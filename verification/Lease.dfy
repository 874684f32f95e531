/** One egress lease under Close, its renewal loop, failure reports and cancellation of its parent,
    interleaved in any order (internal/egress/egress.go). */
module Lease {
  import opened Text

  datatype Cause = ClosedByOwner | ParentDone | EgressQuarantined | LeaseRenewal

  /** The renewal goroutine. */
  datatype Keeper =
    | NoKeeper       // the lease has nothing to extend
    | Selecting      // waiting for the context or the timer
    | Extending      // inside the extend call
    | Exited         // `done` is closed

  datatype Closing = NotClosed | Waiting | Releasing | Released

  datatype Event =
    | ExtendStarted | ExtendSucceeded | ExtendFailed | RenewalAbandoned
    | ReleaseStarted
    | ReportStarted | ReportAccepted | ReportRefused

  datatype Config = Config(canExtend: bool, canRelease: bool, canReport: bool, maxErrors: nat)

  datatype State = State(
    cause: Option<Cause>,         // context.Cause of the lease
    keeper: Keeper,
    failures: nat,                // consecutiveFailures
    closing: Closing,
    reporting: bool,              // a reporter is inside reportMu, in the remote call
    quarantined: bool,
    log: seq<Event>)              // history of remote calls and their outcomes

  function Initial(c: Config): State {
    State(None, if c.canExtend then Selecting else NoKeeper, 0, NotClosed, false, false, [])
  }

  datatype Step =
    | CancelParent
    | SeeDone | TimerFires | ExtendOk | ExtendErr
    | BeginClose | BeginRelease | EndRelease
    | BeginReport | AcceptReport | RefuseReport

  predicate Enabled(c: Config, s: State, step: Step) {
    match step
    case CancelParent => true
    case SeeDone => s.keeper.Selecting? && s.cause.Some?
    case TimerFires => s.keeper.Selecting?
    case ExtendOk => s.keeper.Extending?
    case ExtendErr => s.keeper.Extending?
    case BeginClose => s.closing.NotClosed?
    case BeginRelease => s.closing.Waiting? && (s.keeper.NoKeeper? || s.keeper.Exited?)
    case EndRelease => s.closing.Releasing?
    case BeginReport => c.canReport && !s.reporting && !s.quarantined
    case AcceptReport => s.reporting
    case RefuseReport => s.reporting
  }

  /** Cancelling an already cancelled context keeps its first cause. */
  function Cancelled(s: State, cause: Cause): State {
    if s.cause.Some? then s else s.(cause := Some(cause))
  }

  function Logged(s: State, e: Event): State {
    s.(log := s.log + [e])
  }

  function Next(c: Config, s: State, step: Step): State
    requires Enabled(c, s, step)
  {
    match step
    case CancelParent => Cancelled(s, ParentDone)
    case SeeDone => s.(keeper := Exited)
    case TimerFires => Logged(s, ExtendStarted).(keeper := Extending)
    case ExtendOk => Logged(s, ExtendSucceeded).(keeper := Selecting, failures := 0)
    case ExtendErr =>
      var s := Logged(s, ExtendFailed).(failures := s.failures + 1);
      if s.failures >= c.maxErrors then Logged(Cancelled(s, LeaseRenewal), RenewalAbandoned).(keeper := Exited)
      else s.(keeper := Selecting)
    case BeginClose => Cancelled(s, ClosedByOwner).(closing := Waiting)
    case BeginRelease =>
      if c.canRelease then Logged(s, ReleaseStarted).(closing := Releasing) else s.(closing := Released)
    case EndRelease => s.(closing := Released)
    case BeginReport => Logged(s, ReportStarted).(reporting := true)
    case AcceptReport =>
      Logged(Cancelled(s, EgressQuarantined), ReportAccepted).(reporting := false, quarantined := true)
    case RefuseReport => Logged(s, ReportRefused).(reporting := false)
  }

  ghost predicate Run(c: Config, states: seq<State>, steps: seq<Step>) {
    && c.maxErrors >= 1
    && |states| == |steps| + 1
    && states[0] == Initial(c)
    && forall i :: 0 <= i < |steps| ==> Enabled(c, states[i], steps[i]) && states[i + 1] == Next(c, states[i], steps[i])
  }

  // --------------------------------------------------------- reading the log

  function Count(log: seq<Event>, e: Event): nat {
    if log == [] then 0
    else Count(log[..|log| - 1], e) + if log[|log| - 1] == e then 1 else 0
  }

  /** Failed extends since the last successful one. */
  function TrailingFailures(log: seq<Event>): nat {
    if log == [] then 0
    else
      match log[|log| - 1]
      case ExtendFailed => TrailingFailures(log[..|log| - 1]) + 1
      case ExtendSucceeded => 0
      case _ => TrailingFailures(log[..|log| - 1])
  }

  lemma LogOneMore(log: seq<Event>, e: Event)
    ensures Count(log + [e], ReleaseStarted) == Count(log, ReleaseStarted) + if e.ReleaseStarted? then 1 else 0
    ensures Count(log + [e], ReportAccepted) == Count(log, ReportAccepted) + if e.ReportAccepted? then 1 else 0
    ensures Count(log + [e], RenewalAbandoned) == Count(log, RenewalAbandoned) + if e.RenewalAbandoned? then 1 else 0
    ensures TrailingFailures(log + [e]) == (match e
                                            case ExtendFailed => TrailingFailures(log) + 1
                                            case ExtendSucceeded => 0
                                            case _ => TrailingFailures(log))
  {
    assert (log + [e])[..|log|] == log;
  }

  /** The remote call a step makes or concludes, if any; abandoning the renewal is logged after it. */
  function EventOf(c: Config, step: Step): Option<Event> {
    match step
    case TimerFires => Some(ExtendStarted)
    case ExtendOk => Some(ExtendSucceeded)
    case ExtendErr => Some(ExtendFailed)
    case BeginRelease => if c.canRelease then Some(ReleaseStarted) else None
    case BeginReport => Some(ReportStarted)
    case AcceptReport => Some(ReportAccepted)
    case RefuseReport => Some(ReportRefused)
    case _ => None
  }

  lemma LogAfter(c: Config, s: State, step: Step)
    requires Enabled(c, s, step)
    ensures var logged := s.log + (if EventOf(c, step).Some? then [EventOf(c, step).value] else []);
            var abandons := step.ExtendErr? && s.failures + 1 >= c.maxErrors;
            Next(c, s, step).log == if abandons then logged + [RenewalAbandoned] else logged
  {
  }

  /** How a step changes what the log says. */
  lemma CountsAfter(c: Config, s: State, step: Step)
    requires Enabled(c, s, step)
    ensures var log' := Next(c, s, step).log;
            var abandons := step.ExtendErr? && s.failures + 1 >= c.maxErrors;
            && Count(log', ReleaseStarted) ==
               Count(s.log, ReleaseStarted) + (if step.BeginRelease? && c.canRelease then 1 else 0)
            && Count(log', ReportAccepted) == Count(s.log, ReportAccepted) + (if step.AcceptReport? then 1 else 0)
            && Count(log', RenewalAbandoned) == Count(s.log, RenewalAbandoned) + (if abandons then 1 else 0)
            && TrailingFailures(log') == (if step.ExtendErr? then TrailingFailures(s.log) + 1
                                          else if step.ExtendOk? then 0
                                          else TrailingFailures(s.log))
  {
    LogAfter(c, s, step);
    hide Next, Count, TrailingFailures;
    if EventOf(c, step).Some? {
      LogOneMore(s.log, EventOf(c, step).value);
      LogOneMore(s.log + [EventOf(c, step).value], RenewalAbandoned);
    } else {
      assert s.log + [] == s.log;
    }
  }

  // --------------------------------------------------------------- invariant

  predicate PhaseOk(c: Config, s: State) {
    && (s.closing.Releasing? || s.closing.Released? ==> s.keeper.NoKeeper? || s.keeper.Exited?)
    && (!s.closing.NotClosed? ==> s.cause.Some?)
    && (s.keeper.NoKeeper? <==> !c.canExtend)
    && (s.closing.Releasing? ==> c.canRelease)
  }

  predicate CloseOk(c: Config, s: State) {
    && PhaseOk(c, s)
    && Count(s.log, ReleaseStarted) == (if s.closing.Releasing? || (s.closing.Released? && c.canRelease) then 1 else 0)
  }

  predicate RenewalOk(c: Config, s: State) {
    && s.failures == TrailingFailures(s.log)
    && (s.failures >= c.maxErrors <==> Count(s.log, RenewalAbandoned) == 1)
    && Count(s.log, RenewalAbandoned) <= 1
    && s.failures <= c.maxErrors
    && (Count(s.log, RenewalAbandoned) == 1 ==> s.keeper.Exited? && s.cause.Some?)
    && (s.cause == Some(LeaseRenewal) ==> Count(s.log, RenewalAbandoned) == 1)
  }

  predicate ReportOk(s: State) {
    && Count(s.log, ReportAccepted) == (if s.quarantined then 1 else 0)
    && (s.quarantined ==> !s.reporting && s.cause.Some?)
  }

  lemma StepKeepsClose(c: Config, s: State, step: Step)
    requires CloseOk(c, s) && Enabled(c, s, step)
    ensures CloseOk(c, Next(c, s, step))
  {
    CountsAfter(c, s, step);
    StepKeepsPhase(c, s, step);
    ClosingAfter(c, s, step);
    hide Count, TrailingFailures, Next;
  }

  lemma StepKeepsPhase(c: Config, s: State, step: Step)
    requires PhaseOk(c, s) && Enabled(c, s, step)
    ensures PhaseOk(c, Next(c, s, step))
  {
  }

  lemma ClosingAfter(c: Config, s: State, step: Step)
    requires Enabled(c, s, step)
    ensures Next(c, s, step).closing ==
            (match step
             case BeginClose => Waiting
             case BeginRelease => if c.canRelease then Releasing else Released
             case EndRelease => Released
             case _ => s.closing)
  {
  }

  lemma StepKeepsRenewal(c: Config, s: State, step: Step)
    requires c.maxErrors >= 1 && RenewalOk(c, s) && Enabled(c, s, step)
    ensures RenewalOk(c, Next(c, s, step))
  {
    CountsAfter(c, s, step);
    hide Count, TrailingFailures;
  }

  lemma StepKeepsReport(c: Config, s: State, step: Step)
    requires ReportOk(s) && Enabled(c, s, step)
    ensures ReportOk(Next(c, s, step))
  {
    CountsAfter(c, s, step);
    hide Count, TrailingFailures;
  }

  lemma {:induction false} RunKeeps(c: Config, states: seq<State>, steps: seq<Step>, i: nat)
    requires Run(c, states, steps) && i < |states|
    ensures CloseOk(c, states[i]) && RenewalOk(c, states[i]) && ReportOk(states[i])
  {
    if i > 0 {
      RunKeeps(c, states, steps, i - 1);
      StepKeepsClose(c, states[i - 1], steps[i - 1]);
      StepKeepsRenewal(c, states[i - 1], steps[i - 1]);
      StepKeepsReport(c, states[i - 1], steps[i - 1]);
    }
  }

  // ---------------------------------------------------------------- theorems

  lemma {:induction false} KeeperStaysGone(c: Config, states: seq<State>, steps: seq<Step>, i: nat, j: nat)
    requires Run(c, states, steps) && i <= j < |states|
    requires states[i].keeper.NoKeeper? || states[i].keeper.Exited?
    ensures states[j].keeper == states[i].keeper
  {
    if i < j {
      KeeperStaysGone(c, states, steps, i, j - 1);
    }
  }

  /** The remote session is released at most once, and no extend call starts once a release has. */
  lemma ReleaseIsLast(c: Config, states: seq<State>, steps: seq<Step>, i: nat, j: nat)
    requires Run(c, states, steps) && i <= j < |steps|
    requires steps[i].BeginRelease?
    ensures Count(states[j + 1].log, ReleaseStarted) <= 1
    ensures !steps[j].TimerFires?
    ensures i < j ==> !steps[j].BeginRelease?
  {
    RunKeeps(c, states, steps, i + 1);
    RunKeeps(c, states, steps, j + 1);
    KeeperStaysGone(c, states, steps, i, j);
    CloseAdvances(c, states, steps, i + 1, j);
  }

  lemma {:induction false} CloseAdvances(c: Config, states: seq<State>, steps: seq<Step>, i: nat, j: nat)
    requires Run(c, states, steps) && i <= j + 1 && i < |states| && j < |steps|
    requires states[i].closing.Releasing? || states[i].closing.Released?
    ensures i <= j ==> states[j].closing.Releasing? || states[j].closing.Released?
  {
    if i < j {
      CloseAdvances(c, states, steps, i, j - 1);
    }
  }

  /** The renewal loop gives up exactly when the last maxErrors extends all failed. */
  lemma RenewalIsAbandonedExactly(c: Config, states: seq<State>, steps: seq<Step>, i: nat)
    requires Run(c, states, steps) && i < |states|
    ensures Count(states[i].log, RenewalAbandoned) == 1 <==> TrailingFailures(states[i].log) == c.maxErrors
    ensures TrailingFailures(states[i].log) <= c.maxErrors
    ensures states[i].cause == Some(LeaseRenewal) ==> TrailingFailures(states[i].log) == c.maxErrors
  {
    RunKeeps(c, states, steps, i);
  }

  /** A lease that nobody had cancelled before is cancelled with the renewal error when the loop gives up. */
  lemma AbandonedLeaseIsCancelled(c: Config, states: seq<State>, steps: seq<Step>, i: nat)
    requires Run(c, states, steps) && i < |steps| && steps[i].ExtendErr?
    ensures TrailingFailures(states[i].log) + 1 == c.maxErrors && states[i].cause.None? ==>
              states[i + 1].cause == Some(LeaseRenewal) && states[i + 1].keeper.Exited?
    ensures TrailingFailures(states[i].log) + 1 < c.maxErrors ==>
              states[i + 1].cause == states[i].cause && states[i + 1].keeper.Selecting?
  {
    RunKeeps(c, states, steps, i);
  }

  /** At most one provider failure is accepted; a refused report leaves the lease open to another. */
  lemma ReportsAreAcceptedOnce(c: Config, states: seq<State>, steps: seq<Step>, i: nat)
    requires Run(c, states, steps) && i < |states|
    ensures Count(states[i].log, ReportAccepted) <= 1
    ensures Count(states[i].log, ReportAccepted) == 1 ==> states[i].cause.Some? && !Enabled(c, states[i], BeginReport)
    ensures c.canReport && !states[i].reporting && Count(states[i].log, ReportAccepted) == 0
            ==> Enabled(c, states[i], BeginReport)
  {
    RunKeeps(c, states, steps, i);
  }

  /** The first cancellation cause is never replaced. */
  lemma {:induction false} FirstCauseStays(c: Config, states: seq<State>, steps: seq<Step>, i: nat, j: nat)
    requires Run(c, states, steps) && i <= j < |states|
    requires states[i].cause.Some?
    ensures states[j].cause == states[i].cause
  {
    if i < j {
      FirstCauseStays(c, states, steps, i, j - 1);
    }
  }

  /** Close cannot hang on the renewal loop: it may release, or the loop can leave, or an extend call is out. */
  lemma CloseWaitsOnlyForTheKeeper(c: Config, states: seq<State>, steps: seq<Step>, i: nat)
    requires Run(c, states, steps) && i < |states| && states[i].closing.Waiting?
    ensures Enabled(c, states[i], BeginRelease) || Enabled(c, states[i], SeeDone) || Enabled(c, states[i], ExtendOk)
  {
    RunKeeps(c, states, steps, i);
  }

  /** The pause before a failed renewal is tried again: a tenth of the interval, between 1 ms and 5 s. */
  function RenewalRetryDelay(interval: int): (delay: int)
    requires interval >= 0
    ensures 1_000_000 <= delay <= 5_000_000_000
    ensures 10_000_000 <= interval <= 50_000_000_000 ==> delay <= interval && 10 * delay <= interval < 10 * delay + 10
  {
    var delay := interval / 10;
    if delay < 1_000_000 then 1_000_000 else if delay > 5_000_000_000 then 5_000_000_000 else delay
  }
}
