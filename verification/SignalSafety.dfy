/** Whose command groups are ever signalled: those of runs with a stored cancellation request, or of
    runs whose monitor failed to wait for its command. */
module SignalSafety {
  import opened Wrappers
  import opened Primitives
  import opened Transitions
  import opened Runs
  import opened Store
  import opened Protocol
  import opened RunMoves
  import opened RunSafety
  import opened RunOwnership

  /** A monitor after its wait, with a command that was marked as running. */
  predicate WaitDone(c: Client) {
    c.MonObserve? || ((c.MonRecordRead? || c.MonRecordWrite?) && c.run.commandIdentity.Some?)
  }

  /** A canceller that has found the leader alive. */
  predicate Cleared(c: Client) {
    c.CanTerm? || c.CanGrace? || c.CanLastLook? || c.CanKill?
  }

  /** What stands behind a run: a stored request, a wait that went well, a wait that failed. */
  datatype Backing = Backing(requested: set<RunId>, reaped: set<RunId>, unreaped: set<RunId>)
  {
    predicate Waited(r: RunId) { r in reaped || r in unreaped }
    predicate Excuses(r: RunId) { r in requested || r in unreaped }
  }

  ghost predicate ClientBacked(c: Client, b: Backing) {
    && (IsSignalling(c) && c.run.state.RunCancelRequested? ==> c.run.id in b.requested)
    && (WaitDone(c) ==> b.Waited(c.run.id))
    && (Cleared(c) ==> b.Excuses(c.run.id))
  }

  /** A finished run that has a process was waited for: nobody but its monitor finishes it. */
  ghost predicate FinishedWereWaited(s: StoreState, b: Backing) {
    forall r :: r in s.runs && s.runs[r].state.IsTerminal() && s.runs[r].commandIdentity.Some? ==> b.Waited(r)
  }

  function BackingOf(w: World): (r: Backing) {
    Backing(w.requested, w.reaped, w.unreaped)
  }

  ghost predicate SignalInv(w: World) {
    && FinishedWereWaited(w.store, BackingOf(w))
    && (forall c :: c in w.clients ==> ClientBacked(w.clients[c], BackingOf(w)))
    && (forall i | 0 <= i < |w.signals| :: BackingOf(w).Excuses(w.signals[i].run))
  }

  // ----- the acting client

  function AfterEffect(b: Backing, e: Effect): (r: Backing) {
    Backing(
      if e.requested.Some? then b.requested + {e.requested.value} else b.requested,
      if e.waited.Some? && e.waited.value.status.Ended? then b.reaped + {e.waited.value.run} else b.reaped,
      if e.waited.Some? && !e.waited.value.status.Ended? then b.unreaped + {e.waited.value.run} else b.unreaped)
  }

  ghost predicate EffectBacked(b: Backing, e: Effect) {
    && (e.next.Some? ==> ClientBacked(e.next.value, AfterEffect(b, e)))
    && (e.sent.Some? ==> b.Excuses(e.sent.value.run))
  }

  lemma TerminalStays(a: RunState, b: RunState)
    requires RunReaches(a, b) && a.IsTerminal()
    ensures a == b
  {}

  /** The first look decides: a leader that was waited for is not found alive, so a finished run
      passes it only when its wait had failed. */
  lemma FirstLookIsExcused(s: StoreState, c: Client, b: Backing)
    requires RunClientOk(s, c) && c.CanSignal? && ClientBacked(c, b) && FinishedWereWaited(s, b)
    requires c.run.id !in b.reaped
    ensures b.Excuses(c.run.id)
  {
    assert RunSeen(s, c.run);
    if c.run.state.IsTerminal() { TerminalStays(c.run.state, s.runs[c.run.id].state); }
    hide RunReaches, SameIdentity;
  }

  /** Looking and signalling. */
  lemma SignalStepIsBacked(s: StoreState, c: Client, ch: Choice, b: Backing)
    requires RunClientOk(s, c) && IsSignalling(c) && ClientBacked(c, b) && FinishedWereWaited(s, b)
    requires Inspects(c) && ch.inspection.Alive? ==> c.run.id !in b.reaped
    ensures EffectBacked(b, CanStep(s, c, ch))
  {
    if c.CanSignal? && ch.inspection.Alive? { FirstLookIsExcused(s, c, b); }
    assert CanStep(s, c, ch) == GroupStep(s, c, ch);
    hide RunClientOk, FinishedWereWaited, CanStep;
  }

  lemma RequestedRowIsBacked(s: StoreState, run: Run, requested: set<RunId>)
    requires RunsOk(s) && RequestedOk(s, requested)
    ensures var plan := PlanRequest(s, run.id, run.claimToken);
      plan.AlreadyRequested? && plan.run.state.RunCancelRequested? ==> plan.run.id in requested
  {}

  lemma CommitReadIsBacked(s: StoreState, c: Client, ch: Choice, b: Backing)
    requires RunsOk(s) && c.CanCommitRead? && RequestedOk(s, b.requested)
    ensures EffectBacked(b, CanStep(s, c, ch))
  {
    RequestedRowIsBacked(s, c.run, b.requested);
    hide RunsOk, PlanRequest, RequestedOk;
  }

  lemma CommitWriteIsBacked(s: StoreState, c: Client, ch: Choice, b: Backing)
    requires c.CanCommitWrite?
    ensures EffectBacked(b, CanStep(s, c, ch))
  {
    hide WriteRequested;
  }

  lemma OtherCancellersAreBacked(s: StoreState, c: Client, ch: Choice, b: Backing)
    requires !IsSupervisor(c) && !IsMonitor(c) && !IsSignalling(c) && !c.CanCommitRead? && !c.CanCommitWrite?
    ensures EffectBacked(b, CanStep(s, c, ch))
  {
    hide LoadJob, LoadRun, LoadClaimed, JobTransitioned, Reason.Text, LatestActiveRun, PlanTerminal, TerminalWrite;
  }

  lemma SupervisorsAreBacked(s: StoreState, c: Client, ch: Choice, b: Backing)
    requires IsSupervisor(c)
    ensures EffectBacked(b, DueStep(s, c, ch))
  {
    hide LoadJob, JobTransitioned, Reason.Text, RunClaimed, PlanTerminal, TerminalWrite;
  }

  /** A monitor records an outcome for a run with a process only after its wait. */
  lemma RecordReadIsBacked(s: StoreState, c: Client, ch: Choice, b: Backing)
    requires RunsOk(s) && RunClientOk(s, c) && Owned(s, c) && c.MonRecordRead? && ClientBacked(c, b)
    ensures EffectBacked(b, MonStep(s, c, ch))
  {
    PlanIsSeen(s, c.run.id, c.run.claimToken, c.finishedAt, c.outcome);
    hide RunsOk, RunSeen, RunClientOk, PlanTerminal;
  }

  lemma MonitorsAreBacked(s: StoreState, c: Client, ch: Choice, b: Backing)
    requires RunClientOk(s, c) && IsMonitor(c) && !c.MonRecordRead? && ClientBacked(c, b)
    ensures EffectBacked(b, MonStep(s, c, ch))
  {
    hide RunSeen, LoadJob, LoadRun, LoadClaimed, Started, WriteRunning, TerminalWrite, FinishJob, CompletionOutcome;
  }

  lemma StepIsBacked(s: StoreState, c: Client, ch: Choice, b: Backing)
    requires RunsOk(s) && RunClientOk(s, c) && Owned(s, c) && RequestedOk(s, b.requested)
    requires ClientBacked(c, b) && FinishedWereWaited(s, b)
    requires Inspects(c) && ch.inspection.Alive? ==> c.run.id !in b.reaped
    ensures EffectBacked(b, Act(s, c, ch))
  {
    ActOf(s, c, ch);
    hide Act, DueStep, MonStep, CanStep, RunsOk, RunClientOk, Owned, ClientBacked, EffectBacked, RequestedOk;
    if IsSupervisor(c) { SupervisorsAreBacked(s, c, ch, b); }
    else if c.MonRecordRead? { RecordReadIsBacked(s, c, ch, b); }
    else if IsMonitor(c) { MonitorsAreBacked(s, c, ch, b); }
    else if IsSignalling(c) { SignalStepIsBacked(s, c, ch, b); }
    else if c.CanCommitRead? { CommitReadIsBacked(s, c, ch, b); }
    else if c.CanCommitWrite? { CommitWriteIsBacked(s, c, ch, b); }
    else { OtherCancellersAreBacked(s, c, ch, b); }
  }

  // ----- the whole system

  lemma MoreBacking(c: Client, b: Backing, e: Effect)
    requires ClientBacked(c, b)
    ensures ClientBacked(c, AfterEffect(b, e))
  {}

  lemma MoveKeepsWaited(s: StoreState, s': StoreState, c: Client, ch: Choice, m: Move, b: Backing)
    requires RunClientOk(s, c) && Owned(s, c) && Moves(s, s', m) && (m.Stay? || m == MoveOf(c, ch))
    requires ClientBacked(c, b) && FinishedWereWaited(s, b)
    ensures FinishedWereWaited(s', b)
  {
    if m.Finish? && Owner(c) != Some(m.r) { ForeignFinishHasNoProcess(s, c, ch); }
    hide RunClientOk;
  }

  /** What the step did is backed by the runs, requests and waits on record before it. */
  lemma ActorIsBacked(mode: Mode, w: World, e: Event)
    requires RunInv(w) && OwnInv(w) && SignalInv(w) && e.Step? && Enabled(mode, w, e)
    ensures EffectBacked(BackingOf(w), Act(w.store, w.clients[e.client], e.choice))
    ensures FinishedWereWaited(Apply(w, e).store, BackingOf(w))
  {
    hide Act, Apply, RunClientOk, Owned, Moves, RunsOk, ClientBacked, FinishedWereWaited, EffectBacked;
    var c, b := w.clients[e.client], BackingOf(w);
    ClientInv(w, e.client);
    StepIsBacked(w.store, c, e.choice, b);
    var m := StepHasMove(w, e);
    MoveKeepsWaited(w.store, Apply(w, e).store, c, e.choice, m, b);
  }

  lemma SignalsAddUp(w: World, e: Event)
    requires e.Step? && e.client in w.clients
    ensures var effect := Act(w.store, w.clients[e.client], e.choice);
      && BackingOf(Apply(w, e)) == AfterEffect(BackingOf(w), effect)
      && Apply(w, e).signals == w.signals + if effect.sent.Some? then [effect.sent.value] else []
  {
    hide Act;
  }

  lemma StepKeepsSignals(mode: Mode, w: World, e: Event)
    requires RunInv(w) && OwnInv(w) && SignalInv(w) && e.Step? && Enabled(mode, w, e)
    ensures SignalInv(Apply(w, e))
    ensures var sent := Act(w.store, w.clients[e.client], e.choice).sent;
      sent.Some? ==> BackingOf(w).Excuses(sent.value.run)
  {
    hide Act, Apply, RunInv, OwnInv, ClientBacked;
    var c, w', b := w.clients[e.client], Apply(w, e), BackingOf(w);
    var effect := Act(w.store, c, e.choice);
    ActorIsBacked(mode, w, e);
    SignalsAddUp(w, e);
    OnlyMonitorsAreSpawned(w.store, c, e.choice);
    AfterStep(w, e);
    forall d | d in w'.clients ensures ClientBacked(w'.clients[d], BackingOf(w')) {
      if d == e.child && effect.spawned == Some(w'.clients[d]) { NewMonitorIsBacked(c, BackingOf(w')); }
      else if effect.next != Some(w'.clients[d]) { MoreBacking(w.clients[d], b, effect); }
    }
  }

  lemma NewMonitorIsBacked(c: Client, b: Backing)
    ensures c.DueSpawn? ==> ClientBacked(MonLoadJob(c.job.id, c.run.id), b)
  {}

  lemma OtherEventsKeepSignals(mode: Mode, w: World, e: Event)
    requires SignalInv(w) && Enabled(mode, w, e) && !e.Step?
    ensures SignalInv(Apply(w, e))
  {
    assert Apply(w, e).store.runs == w.store.runs;
  }

  lemma NextKeepsSignals(mode: Mode, before: World, after: World)
    requires RunInv(before) && OwnInv(before) && SignalInv(before) && Next(mode, before, after)
    ensures SignalInv(after)
  {
    hide RunInv, OwnInv, SignalInv, Apply;
    var e := EventBetween(mode, before, after);
    if e.Step? { StepKeepsSignals(mode, before, e); } else { OtherEventsKeepSignals(mode, before, e); }
  }

  lemma NoSignalsYet(w: World)
    requires Initial(w)
    ensures SignalInv(w)
  {}

  lemma {:induction false} TraceKeepsSignals(mode: Mode, ws: seq<World>, j: nat)
    requires Trace(mode, ws) && !mode.strays && j < |ws|
    ensures SignalInv(ws[j])
  {
    hide RunInv, OwnInv, SignalInv, Initial, Next;
    if j == 0 {
      NoSignalsYet(ws[0]);
    } else {
      TraceKeepsSignals(mode, ws, j - 1);
      TraceKeepsRuns(mode, ws, j - 1);
      TraceKeepsOwners(mode, ws, j - 1);
      NextKeepsSignals(mode, ws[j - 1], ws[j]);
    }
  }

  // ----- results

  /** Step `j` delivers a signal to the command group of run `r`. */
  ghost predicate Delivers(ws: seq<World>, j: nat, r: RunId)
    requires j + 1 < |ws|
  {
    |ws[j].signals| < |ws[j + 1].signals| && ws[j + 1].signals[|ws[j].signals|].run == r
  }

  lemma OneSignalAStep(w: World, e: Event)
    requires e.Step? ==> e.client in w.clients
    ensures var after := Apply(w, e).signals;
      && w.signals <= after
      && (|w.signals| < |after| ==>
            && e.Step?
            && var sent := Act(w.store, w.clients[e.client], e.choice).sent;
              sent.Some? && after == w.signals + [sent.value])
  {
    hide Act, JobCreated;
  }

  /** With only the monitors that the supervisors start: every delivered TERM or KILL goes to a run
      whose cancellation request was stored before, or to one whose monitor tried to wait for the
      command and failed. */
  lemma SignalsFollowRequests(mode: Mode, ws: seq<World>, j: nat, r: RunId)
    requires Trace(mode, ws) && !mode.strays && j + 1 < |ws| && Delivers(ws, j, r)
    ensures WasRequested(ws, j, r) || r in ws[j].unreaped
  {
    TraceKeepsRuns(mode, ws, j);
    TraceKeepsOwners(mode, ws, j);
    TraceKeepsSignals(mode, ws, j);
    RequestedMeansWasRequested(mode, ws, j, r);
    hide RunInv, OwnInv, SignalInv, Apply, Act, WasRequested;
    var e := EventBetween(mode, ws[j], ws[j + 1]);
    OneSignalAStep(ws[j], e);
    StepKeepsSignals(mode, ws[j], e);
  }

  /** Nothing is on record as unreaped while waiting never fails. */
  lemma {:induction false} ReliableWaits(mode: Mode, ws: seq<World>, j: nat)
    requires Trace(mode, ws) && mode.reliable && j < |ws|
    ensures ws[j].unreaped == {}
  {
    if j > 0 {
      ReliableWaits(mode, ws, j - 1);
      var e := EventBetween(mode, ws[j - 1], ws[j]);
      if e.Step? { OnlyWaitsFail(ws[j - 1].store, ws[j - 1].clients[e.client], e.choice); }
      hide Act, JobCreated;
    }
  }

  predicate WaitsOnly(c: Client, ch: Choice, e: Effect) {
    e.waited.Some? ==> c.MonWait? && e.waited.value == Waited(c.run.id, ch.status, ch.captureFailed)
  }

  lemma MonitorsWait(s: StoreState, c: Client, ch: Choice)
    requires IsMonitor(c)
    ensures WaitsOnly(c, ch, MonStep(s, c, ch))
  {
    hide LoadJob, LoadRun, LoadClaimed, Started, WriteRunning;
    hide PlanTerminal, TerminalWrite, FinishJob, CompletionOutcome;
  }

  lemma SupervisorsNeverWait(s: StoreState, c: Client, ch: Choice)
    requires IsSupervisor(c)
    ensures WaitsOnly(c, ch, DueStep(s, c, ch))
  {
    hide LoadJob, JobTransitioned, RunClaimed, PlanTerminal, TerminalWrite, Reason.Text;
  }

  lemma CancellersNeverWait(s: StoreState, c: Client, ch: Choice)
    requires !IsSupervisor(c) && !IsMonitor(c)
    ensures WaitsOnly(c, ch, CanStep(s, c, ch))
  {
    hide LoadJob, LoadRun, LoadClaimed, JobTransitioned, PlanRequest, WriteRequested, PlanTerminal, TerminalWrite;
    hide LatestActiveRun, Reason.Text;
  }

  lemma OnlyWaitsFail(s: StoreState, c: Client, ch: Choice)
    ensures WaitsOnly(c, ch, Act(s, c, ch))
  {
    ActOf(s, c, ch);
    hide Act, DueStep, MonStep, CanStep, WaitsOnly;
    if IsSupervisor(c) {
      SupervisorsNeverWait(s, c, ch);
    } else if IsMonitor(c) {
      MonitorsWait(s, c, ch);
    } else {
      CancellersNeverWait(s, c, ch);
    }
  }

  /** The promise: in every run of the system, a signal comes after the stored request. */
  ghost predicate SignalsAreBacked(mode: Mode) {
    forall ws, j, r :: Trace(mode, ws) && 0 <= j && j + 1 < |ws| && Delivers(ws, j, r) ==> WasRequested(ws, j, r)
  }

  lemma TameSystemsKeepThePromise(mode: Mode)
    requires mode.reliable && !mode.strays
    ensures SignalsAreBacked(mode)
  {
    forall ws, j: nat, r | Trace(mode, ws) && j + 1 < |ws| && Delivers(ws, j, r) ensures WasRequested(ws, j, r) {
      SignalsFollowRequests(mode, ws, j, r);
      ReliableWaits(mode, ws, j);
    }
  }
}
