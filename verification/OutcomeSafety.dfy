/** Which outcome a run gets: the one that the reported end of its command calls for. */
module OutcomeSafety {
  import opened Wrappers
  import opened Primitives
  import opened Transitions
  import opened Runs
  import opened Store
  import opened Protocol
  import opened RunMoves
  import opened RunSafety
  import opened RunOwnership
  import opened SignalSafety

  /** What is on record about the waits and the requests. */
  datatype Ledger = Ledger(reports: map<RunId, Report>, requested: set<RunId>)
  {
    /** The report about the run calls for the outcome. The request counts at the moment when the
        monitor looked, after the wait: one that was stored before the wait does, and one that counts
        was stored. */
    ghost predicate Explains(r: RunId, outcome: RunOutcome) {
      && r in reports
      && exists asked: bool ::
          && CallsFor(reports[r].status, reports[r].captureFailed, asked, outcome)
          && (reports[r].asked ==> asked) && (asked ==> r in requested)
    }
  }

  function LedgerOf(w: World): (r: Ledger) {
    Ledger(w.reports, w.requested)
  }

  /** Without a process a run can only fail, or be cancelled before its start. */
  predicate EndsUnstarted(outcome: RunOutcome) {
    outcome.Failed? || outcome.Cancelled?
  }

  /** A monitor between its wait and its write holds what was reported. */
  ghost predicate Faithful(c: Client, l: Ledger) {
    && (c.MonObserve? ==>
        && c.run.id in l.reports
        && l.reports[c.run.id].status == c.status && l.reports[c.run.id].captureFailed == c.captureFailed
        && (l.reports[c.run.id].asked ==> c.run.id in l.requested))
    && (c.MonRecordRead? || c.MonRecordWrite? ==>
        if c.run.commandIdentity.Some? then l.Explains(c.run.id, c.outcome) else EndsUnstarted(c.outcome))
  }

  ghost predicate RowFaithful(run: Run, l: Ledger) {
    run.state.IsTerminal() ==>
      && run.outcome.Some?
      && if run.commandIdentity.Some? then l.Explains(run.id, run.outcome.value) else EndsUnstarted(run.outcome.value)
  }

  ghost predicate RowsFaithful(s: StoreState, l: Ledger) {
    forall r :: r in s.runs ==> RowFaithful(s.runs[r], l)
  }

  ghost predicate OutcomeInv(w: World) {
    RowsFaithful(w.store, LedgerOf(w)) && forall c :: c in w.clients ==> Faithful(w.clients[c], LedgerOf(w))
  }

  // ----- the ledger grows

  function AfterEntry(l: Ledger, e: Effect): (r: Ledger) {
    Ledger(
      if e.waited.Some? then l.reports[e.waited.value.run := ReportOf(e.waited.value, l.requested)] else l.reports,
      if e.requested.Some? then l.requested + {e.requested.value} else l.requested)
  }

  /** A new entry changes nothing about the other runs. */
  lemma OthersStayExplained(l: Ledger, e: Effect, r: RunId, outcome: RunOutcome)
    requires l.Explains(r, outcome) && (e.waited.Some? ==> e.waited.value.run != r)
    ensures AfterEntry(l, e).Explains(r, outcome)
  {
    hide CallsFor;
    var asked :| CallsFor(l.reports[r].status, l.reports[r].captureFailed, asked, outcome)
      && (l.reports[r].asked ==> asked) && (asked ==> r in l.requested);
    var l' := AfterEntry(l, e);
    assert CallsFor(l'.reports[r].status, l'.reports[r].captureFailed, asked, outcome);
  }

  lemma OthersStayFaithful(l: Ledger, e: Effect, c: Client)
    requires Faithful(c, l) && (e.waited.Some? && Owner(c).Some? ==> e.waited.value.run != Owner(c).value)
    ensures Faithful(c, AfterEntry(l, e))
  {
    hide Ledger.Explains;
    if (c.MonRecordRead? || c.MonRecordWrite?) && c.run.commandIdentity.Some? {
      OthersStayExplained(l, e, c.run.id, c.outcome);
    }
  }

  lemma RowStaysFaithful(l: Ledger, e: Effect, run: Run)
    requires RowFaithful(run, l) && (e.waited.Some? ==> e.waited.value.run != run.id || !run.state.IsTerminal())
    ensures RowFaithful(run, AfterEntry(l, e))
  {
    hide Ledger.Explains;
    if run.state.IsTerminal() && run.commandIdentity.Some? {
      OthersStayExplained(l, e, run.id, run.outcome.value);
    }
  }

  // ----- the acting client

  ghost predicate NextFaithful(l: Ledger, e: Effect) {
    e.next.Some? ==> Faithful(e.next.value, AfterEntry(l, e))
  }

  lemma WaitIsEntered(s: StoreState, c: Client, ch: Choice, l: Ledger)
    requires c.MonWait?
    ensures NextFaithful(l, MonStep(s, c, ch))
  {}

  /** The look after the wait finds the run as the cancellers have left it. */
  lemma LookFindsRequest(s: StoreState, c: Client, requested: set<RunId>)
    requires RunsOk(s) && RequestedOk(s, requested) && Owned(s, c) && c.MonObserve?
    ensures var current := LoadRun(s, c.run.id);
      current.Ok? && (current.value.state.RunCancelRequested? <==> c.run.id in requested)
  {
    UnfinishedReadsBack(s.runs[c.run.id]);
    hide Rehydrate;
  }

  lemma LookIsFaithful(s: StoreState, c: Client, ch: Choice, l: Ledger)
    requires RunsOk(s) && RequestedOk(s, l.requested) && RunPhase(c) && Owned(s, c) && c.MonObserve? && Faithful(c, l)
    ensures NextFaithful(l, MonStep(s, c, ch))
  {
    LookFindsRequest(s, c, l.requested);
    hide RunsOk, RequestedOk, Owned, LoadRun, CallsFor, CompletionOutcome;
    var asked := c.run.id in l.requested;
    OutcomeIsCalledFor(c.status, c.captureFailed, asked, CompletionOutcome(c.status, c.captureFailed, asked));
  }

  lemma RecordReadIsFaithful(s: StoreState, c: Client, ch: Choice, l: Ledger)
    requires RunsOk(s) && RunClientOk(s, c) && Owned(s, c) && c.MonRecordRead? && Faithful(c, l)
    ensures NextFaithful(l, MonStep(s, c, ch))
  {
    PlanIsSeen(s, c.run.id, c.run.claimToken, c.finishedAt, c.outcome);
    hide RunsOk, RunSeen, RunClientOk, PlanTerminal, WithOutcome, Ledger.Explains;
  }

  lemma OtherMonitorsAreFaithful(s: StoreState, c: Client, ch: Choice, l: Ledger)
    requires RunPhase(c) && IsMonitor(c) && !c.MonWait? && !c.MonObserve? && !c.MonRecordRead?
    ensures NextFaithful(l, MonStep(s, c, ch))
  {
    hide LoadJob, LoadRun, LoadClaimed, Started, WriteRunning, TerminalWrite, FinishJob, Ledger.Explains;
  }

  lemma SupervisorsAreFaithful(s: StoreState, c: Client, ch: Choice, l: Ledger)
    requires IsSupervisor(c)
    ensures NextFaithful(l, DueStep(s, c, ch))
  {
    hide LoadJob, JobTransitioned, Reason.Text, RunClaimed, PlanTerminal, TerminalWrite, Ledger.Explains;
  }

  lemma CancellersAreFaithful(s: StoreState, c: Client, ch: Choice, l: Ledger)
    requires !IsSupervisor(c) && !IsMonitor(c)
    ensures NextFaithful(l, CanStep(s, c, ch))
  {
    hide LoadJob, LoadRun, LoadClaimed, JobTransitioned, PlanRequest, WriteRequested, PlanTerminal, TerminalWrite;
    hide LatestActiveRun, Reason.Text, Ledger.Explains;
  }

  lemma StepIsFaithful(s: StoreState, c: Client, ch: Choice, l: Ledger)
    requires RunsOk(s) && RunClientOk(s, c) && Owned(s, c) && RequestedOk(s, l.requested) && Faithful(c, l)
    ensures NextFaithful(l, Act(s, c, ch))
  {
    ActOf(s, c, ch);
    assert RunPhase(c);
    hide Act, DueStep, MonStep, CanStep, RunsOk, RunClientOk, RunPhase, Owned, RequestedOk, Faithful, NextFaithful;
    if IsSupervisor(c) { SupervisorsAreFaithful(s, c, ch, l); }
    else if c.MonWait? { WaitIsEntered(s, c, ch, l); }
    else if c.MonObserve? { LookIsFaithful(s, c, ch, l); }
    else if c.MonRecordRead? { RecordReadIsFaithful(s, c, ch, l); }
    else if IsMonitor(c) { OtherMonitorsAreFaithful(s, c, ch, l); }
    else { CancellersAreFaithful(s, c, ch, l); }
  }

  // ----- the rows

  lemma OnlyOwnersWait(s: StoreState, c: Client, ch: Choice)
    requires Owned(s, c)
    ensures var e := Act(s, c, ch);
      e.waited.Some? ==> Owner(c) == Some(e.waited.value.run) && e.waited.value.run in s.runs
                         && !s.runs[e.waited.value.run].state.IsTerminal() && MoveOf(c, ch).Stay?
  {
    OnlyWaitsFail(s, c, ch);
    hide Act;
  }

  lemma WrittenOutcome(s: StoreState, c: Client, ch: Choice)
    requires RunsOk(s) && RunClientOk(s, c) && IsTerminalWrite(c) && !s.runs[c.run.id].state.IsTerminal()
    ensures c.run.id in Act(s, c, ch).store.runs
    ensures Act(s, c, ch).store.runs[c.run.id].outcome == Some(OutcomeToWrite(c))
  {
    ActOf(s, c, ch);
    StaleTerminalWriteIsLegal(s, c.run, c.finishedAt, OutcomeToWrite(c));
    hide RunsOk, RunSeen, TerminalWrite, WithOutcome, Act;
  }

  /** The supervisor's and the canceller's own ends are for runs that never got a process. */
  lemma NoProcessYet(s: StoreState, c: Client, ch: Choice)
    requires RunClientOk(s, c) && Owned(s, c) && (c.DueFailWrite? || c.CanRecordWrite?)
    ensures s.runs[c.run.id].commandIdentity.None?
  {
    if c.CanRecordWrite? { ForeignFinishHasNoProcess(s, c, ch); }
  }

  lemma FinishIsFaithful(s: StoreState, c: Client, ch: Choice, l: Ledger)
    requires RunsOk(s) && RunClientOk(s, c) && Owned(s, c) && Faithful(c, l)
    requires MoveOf(c, ch).Finish? && Moves(s, Act(s, c, ch).store, MoveOf(c, ch))
    ensures RowFaithful(Act(s, c, ch).store.runs[MoveOf(c, ch).r], l)
  {
    WrittenOutcome(s, c, ch);
    if !c.MonRecordWrite? { NoProcessYet(s, c, ch); }
    hide Act, RunClientOk, Consistent, Ledger.Explains, RunSeen, TerminalWrite, WithOutcome;
  }

  lemma MoveKeepsRows(s: StoreState, s': StoreState, m: Move, l: Ledger, e: Effect)
    requires RunsOk(s) && Moves(s, s', m) && RowsFaithful(s, l)
    requires m.Finish? ==> RowFaithful(s'.runs[m.r], l)
    requires e.waited.Some? ==>
      e.waited.value.run in s.runs && !s.runs[e.waited.value.run].state.IsTerminal() && m.Stay?
    ensures RowsFaithful(s', AfterEntry(l, e))
  {
    hide Consistent, Ledger.Explains, AfterEntry;
    forall r | r in s'.runs ensures RowFaithful(s'.runs[r], AfterEntry(l, e)) {
      if RowFaithful(s'.runs[r], l) { RowStaysFaithful(l, e, s'.runs[r]); }
    }
  }

  // ----- the whole system

  lemma LedgerAddsUp(w: World, e: Event)
    requires e.Step? && e.client in w.clients
    ensures LedgerOf(Apply(w, e)) == AfterEntry(LedgerOf(w), Act(w.store, w.clients[e.client], e.choice))
  {
    hide Act;
  }

  lemma NewMonitorIsFaithful(c: Client, l: Ledger)
    ensures c.DueSpawn? ==> Faithful(MonLoadJob(c.job.id, c.run.id), l)
  {}

  lemma StepKeepsRows(w: World, e: Event)
    requires RunInv(w) && OwnInv(w) && OutcomeInv(w) && e.Step? && e.client in w.clients
    ensures RowsFaithful(Apply(w, e).store, LedgerOf(Apply(w, e)))
  {
    hide Act, Apply, RunClientOk, Owned, Moves, RunsOk, Faithful, RowsFaithful, RowFaithful, AfterEntry, MoveOf;
    var c := w.clients[e.client];
    var effect := Act(w.store, c, e.choice);
    ClientInv(w, e.client);
    AfterEffects(w, e);
    LedgerAddsUp(w, e);
    OnlyOwnersWait(w.store, c, e.choice);
    var m := StepHasMove(w, e);
    if m.Finish? { FinishIsFaithful(w.store, c, e.choice, LedgerOf(w)); }
    MoveKeepsRows(w.store, effect.store, m, LedgerOf(w), effect);
  }

  lemma AfterEffects(w: World, e: Event)
    requires e.Step? && e.client in w.clients
    ensures Apply(w, e).store == Act(w.store, w.clients[e.client], e.choice).store
  {
    hide Act;
  }

  lemma StepKeepsOutcomes(w: World, e: Event)
    requires RunInv(w) && OwnInv(w) && OutcomeInv(w) && e.Step? && e.client in w.clients && e.child !in w.clients
    ensures OutcomeInv(Apply(w, e))
  {
    StepKeepsRows(w, e);
    hide Act, Apply, RunInv, Owned, RowsFaithful, Faithful, AfterEntry, RunClientOk, RunsOk, RequestedOk;
    var c, w' := w.clients[e.client], Apply(w, e);
    var effect := Act(w.store, c, e.choice);
    LedgerAddsUp(w, e);
    AfterStep(w, e);
    OnlyMonitorsAreSpawned(w.store, c, e.choice);
    ActorIsFaithful(w, e);
    forall d | d in w'.clients ensures Faithful(w'.clients[d], LedgerOf(w')) {
      if d == e.child && effect.spawned == Some(w'.clients[d]) { NewMonitorIsFaithful(c, LedgerOf(w')); }
      else if effect.next != Some(w'.clients[d]) { OthersStayFaithful(LedgerOf(w), effect, w.clients[d]); }
    }
  }

  lemma ActorIsFaithful(w: World, e: Event)
    requires RunInv(w) && OwnInv(w) && OutcomeInv(w) && e.Step? && e.client in w.clients
    ensures var c := w.clients[e.client];
      var effect := Act(w.store, c, e.choice);
      && NextFaithful(LedgerOf(w), effect)
      && (effect.waited.Some? ==> Owner(c) == Some(effect.waited.value.run))
  {
    hide Act, RunClientOk, Owned, RunsOk, Faithful, NextFaithful, RowsFaithful;
    ClientInv(w, e.client);
    StepIsFaithful(w.store, w.clients[e.client], e.choice, LedgerOf(w));
    OnlyOwnersWait(w.store, w.clients[e.client], e.choice);
  }

  lemma OtherEventsKeepOutcomes(mode: Mode, w: World, e: Event)
    requires OutcomeInv(w) && Enabled(mode, w, e) && !e.Step?
    ensures OutcomeInv(Apply(w, e))
  {
    assert Apply(w, e).store.runs == w.store.runs;
    hide Ledger.Explains;
  }

  lemma NextKeepsOutcomes(mode: Mode, before: World, after: World)
    requires RunInv(before) && OwnInv(before) && OutcomeInv(before) && Next(mode, before, after)
    ensures OutcomeInv(after)
  {
    hide RunInv, OwnInv, OutcomeInv, Apply;
    var e := EventBetween(mode, before, after);
    if e.Step? { StepKeepsOutcomes(before, e); } else { OtherEventsKeepOutcomes(mode, before, e); }
  }

  lemma NothingReportedYet(w: World)
    requires Initial(w)
    ensures OutcomeInv(w)
  {}

  lemma {:induction false} TraceKeepsOutcomes(mode: Mode, ws: seq<World>, i: nat)
    requires Trace(mode, ws) && !mode.strays && i < |ws|
    ensures OutcomeInv(ws[i])
  {
    hide RunInv, OwnInv, OutcomeInv, Initial, Next;
    if i == 0 {
      NothingReportedYet(ws[0]);
    } else {
      TraceKeepsOutcomes(mode, ws, i - 1);
      TraceKeepsRuns(mode, ws, i - 1);
      TraceKeepsOwners(mode, ws, i - 1);
      NextKeepsOutcomes(mode, ws[i - 1], ws[i]);
    }
  }

  // ----- results

  /** With only the monitors that the supervisors start: a finished run that had a process was waited
      for, and its outcome is the one its report calls for. The request counts as the monitor found
      it after the wait, so every request stored before the wait counts, and none that was not stored. */
  lemma OutcomeMatchesReport(mode: Mode, ws: seq<World>, i: nat, r: RunId) returns (asked: bool)
    requires Trace(mode, ws) && !mode.strays && i < |ws| && r in ws[i].store.runs
    requires ws[i].store.runs[r].state.IsTerminal() && ws[i].store.runs[r].commandIdentity.Some?
    ensures r in ws[i].reports && ws[i].store.runs[r].outcome.Some?
    ensures var report := ws[i].reports[r];
      && CallsFor(report.status, report.captureFailed, asked, ws[i].store.runs[r].outcome.value)
      && (report.asked ==> asked) && (asked ==> WasRequested(ws, i, r))
  {
    TraceKeepsOutcomes(mode, ws, i);
    TraceKeepsRuns(mode, ws, i);
    RequestedMeansWasRequested(mode, ws, i, r);
    var run, l := ws[i].store.runs[r], LedgerOf(ws[i]);
    assert run.id == r && RowFaithful(run, l);
    hide WasRequested, Trace, RunClientOk, CallsFor, Consistent;
    asked :| CallsFor(l.reports[r].status, l.reports[r].captureFailed, asked, run.outcome.value)
      && (l.reports[r].asked ==> asked) && (asked ==> r in l.requested);
  }
}
