/** Adapter.Close, AddCloseHook and the network-capture gate for any number of hooks, captures and
    concurrent callers (internal/provider/cgv/browser.go, http_logging.go). */
module AdapterHooks {

  type HookId = nat
  type CaptureId = nat

  /** Progress inside adapter.closeOnce. */
  datatype ClosePhase =
    | Open
    | StoppingCapture      // stopNetworkCapture: about to set the closing flag
    | WaitingCaptures      // flag set, networkCaptureWG.Wait()
    | StoppingBrowser      // stopNetworkCapture has returned
    | BrowserStopped       // about to copy the hooks under lifecycleMu
    | RunningHooks
    | Closed

  datatype State = State(
    phase: ClosePhase,
    browserLive: bool,
    captureClosing: bool,             // networkCaptureClosing
    captures: set<CaptureId>,         // the wait group
    closed: bool,
    registered: seq<HookId>,          // adapter.closeHooks
    copied: seq<HookId>,              // the closer's copy, still to run
    late: set<HookId>,                // refused by the closed flag, to be run by their own callers
    given: set<HookId>,               // history: every hook handed to AddCloseHook
    ran: multiset<HookId>,            // history: completed hook runs
    ranLive: bool)                    // history: some hook ran while the browser was live

  function Initial(): State {
    State(Open, true, false, {}, false, [], [], {}, {}, multiset{}, false)
  }

  datatype Step =
    | AddHook(hook: HookId)
    | RunLate(hook: HookId)
    | BeginCapture(capture: CaptureId)
    | EndCapture(capture: CaptureId)
    | CallClose
    | FlagCapture
    | CapturesDone
    | StopBrowser
    | CopyHooks
    | RunCopied
    | FinishClose

  predicate Enabled(s: State, step: Step) {
    match step
    case AddHook(h) => h !in s.given
    case RunLate(h) => h in s.late
    case BeginCapture(c) => c !in s.captures && !s.captureClosing
    case EndCapture(c) => c in s.captures
    case CallClose => s.phase.Open?
    case FlagCapture => s.phase.StoppingCapture?
    case CapturesDone => s.phase.WaitingCaptures? && s.captures == {}
    case StopBrowser => s.phase.StoppingBrowser?
    case CopyHooks => s.phase.BrowserStopped?
    case RunCopied => s.phase.RunningHooks? && s.copied != []
    case FinishClose => s.phase.RunningHooks? && s.copied == []
  }

  function Next(s: State, step: Step): State
    requires Enabled(s, step)
  {
    match step
    case AddHook(h) =>
      var s := s.(given := s.given + {h});
      if s.closed then s.(late := s.late + {h}) else s.(registered := s.registered + [h])
    case RunLate(h) => s.(late := s.late - {h}, ran := s.ran + multiset{h}, ranLive := s.ranLive || s.browserLive)
    case BeginCapture(c) => s.(captures := s.captures + {c})
    case EndCapture(c) => s.(captures := s.captures - {c})
    case CallClose => s.(phase := StoppingCapture)
    case FlagCapture => s.(phase := WaitingCaptures, captureClosing := true)
    case CapturesDone => s.(phase := StoppingBrowser)
    case StopBrowser => s.(phase := BrowserStopped, browserLive := false)
    case CopyHooks => s.(phase := RunningHooks, closed := true, copied := s.registered, registered := [])
    case RunCopied =>
      s.(copied := s.copied[1..], ran := s.ran + multiset{s.copied[0]}, ranLive := s.ranLive || s.browserLive)
    case FinishClose => s.(phase := Closed)
  }

  ghost predicate Run(states: seq<State>, steps: seq<Step>) {
    && |states| == |steps| + 1
    && states[0] == Initial()
    && forall i :: 0 <= i < |steps| ==> Enabled(states[i], steps[i]) && states[i + 1] == Next(states[i], steps[i])
  }

  /** stopNetworkCapture has returned. */
  predicate CaptureStopped(s: State) {
    !(s.phase.Open? || s.phase.StoppingCapture? || s.phase.WaitingCaptures?)
  }

  /** Every hook handed over is in exactly one place, once. */
  predicate HooksConserved(s: State) {
    multiset(s.registered) + multiset(s.copied) + multiset(s.late) + s.ran == multiset(s.given)
  }

  predicate PhaseOk(s: State) {
    && s.closed == (s.phase.RunningHooks? || s.phase.Closed?)
    && s.browserLive == (s.phase.StoppingBrowser? || !CaptureStopped(s))
    && (s.closed ==> s.registered == [])
    && (!s.closed ==> s.copied == [] && s.late == {} && s.ran == multiset{})
    && (s.phase.Closed? ==> s.copied == [])
    && s.captureClosing == !(s.phase.Open? || s.phase.StoppingCapture?)
    && (CaptureStopped(s) ==> s.captures == {})
    && !s.ranLive
  }

  lemma AddConserves(s: State, h: HookId)
    requires HooksConserved(s) && h !in s.given
    ensures HooksConserved(Next(s, AddHook(h)))
  {
    assert multiset(s.given + {h}) == multiset(s.given) + multiset{h};
    assert multiset(s.given)[h] == 0;
    assert multiset(s.late)[h] == 0;
    assert multiset(s.late + {h}) == multiset(s.late) + multiset{h};
  }

  lemma LateConserves(s: State, h: HookId)
    requires HooksConserved(s) && h in s.late
    ensures HooksConserved(Next(s, RunLate(h)))
  {
    assert multiset(s.late) == multiset(s.late - {h}) + multiset{h};
  }

  lemma CopiedConserves(s: State)
    requires HooksConserved(s) && Enabled(s, RunCopied)
    ensures HooksConserved(Next(s, RunCopied))
  {
    assert s.copied == [s.copied[0]] + s.copied[1..];
  }

  lemma StepConserves(s: State, step: Step)
    requires HooksConserved(s) && PhaseOk(s) && Enabled(s, step)
    ensures HooksConserved(Next(s, step))
  {
    match step {
      case AddHook(h) => AddConserves(s, h);
      case RunLate(h) => LateConserves(s, h);
      case RunCopied => CopiedConserves(s);
      case _ =>
    }
  }

  lemma StepKeepsPhase(s: State, step: Step)
    requires PhaseOk(s) && Enabled(s, step)
    ensures PhaseOk(Next(s, step))
  {
  }

  lemma {:induction false} RunKeeps(states: seq<State>, steps: seq<Step>, i: nat)
    requires Run(states, steps) && i < |states|
    ensures HooksConserved(states[i]) && PhaseOk(states[i])
  {
    if i > 0 {
      RunKeeps(states, steps, i - 1);
      StepConserves(states[i - 1], steps[i - 1]);
      StepKeepsPhase(states[i - 1], steps[i - 1]);
    }
  }

  /** However AddCloseHook, Close and the watcher interleave: no hook runs twice, none while the browser is
      live, and once Close has finished exactly the hooks whose own callers are still about to run them are missing. */
  lemma EveryHookRunsOnce(states: seq<State>, steps: seq<Step>, i: nat)
    requires Run(states, steps) && i < |states|
    ensures forall h :: states[i].ran[h] <= 1
    ensures forall h :: h in states[i].ran ==> h in states[i].given
    ensures !states[i].ranLive
    ensures states[i].ran != multiset{} || states[i].late != {} ==> !states[i].browserLive
    ensures states[i].phase.Closed? ==> states[i].ran == multiset(states[i].given - states[i].late)
  {
    RunKeeps(states, steps, i);
    var s := states[i];
    var elsewhere := multiset(s.registered) + multiset(s.copied) + multiset(s.late);
    assert forall h :: multiset(s.given)[h] <= 1;
    assert forall h :: s.ran[h] + elsewhere[h] == multiset(s.given)[h];
    if s.phase.Closed? {
      forall h: HookId ensures s.ran[h] == multiset(s.given - s.late)[h] {
        assert elsewhere[h] == multiset(s.late)[h];
      }
    }
  }

  /** Once stopNetworkCapture has returned no capture is running, and none ever begins again. */
  lemma {:induction false} CapturesStayStopped(states: seq<State>, steps: seq<Step>, i: nat, j: nat)
    requires Run(states, steps) && i <= j < |states|
    requires CaptureStopped(states[i])
    ensures CaptureStopped(states[j])
    ensures states[j].captures == {}
    ensures forall c: CaptureId :: !Enabled(states[j], BeginCapture(c))
  {
    RunKeeps(states, steps, j);
    if i < j {
      CapturesStayStopped(states, steps, i, j - 1);
    }
  }

  /** The order of Close: the browser outlives every capture, and hooks come after the browser. */
  lemma BrowserStopsAfterCaptures(states: seq<State>, steps: seq<Step>, i: nat)
    requires Run(states, steps) && i < |states|
    ensures !states[i].browserLive ==> states[i].captures == {} && CaptureStopped(states[i])
  {
    RunKeeps(states, steps, i);
  }
}
