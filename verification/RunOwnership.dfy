/** One monitor per run: who may finish a run, and why the monitor's outcome is always accepted.

    Monitors are started only by the supervisor that claimed the run, so each unfinished claim has
    at most one owner: that supervisor, or the monitor it started. */
module RunOwnership {
  import opened Wrappers
  import opened Primitives
  import opened Transitions
  import opened Jobs
  import opened Runs
  import opened Store
  import opened Protocol
  import opened RunMoves
  import opened RunSafety

  function Owner(c: Client): (r: Option<RunId>) {
    if c.DueRunning? || c.DueSpawn? || c.DueFailRead? || c.DueFailWrite?
       || c.MonCheck? || c.MonPrepare? || c.MonMarkRead?
       || c.MonMarkWrite? || c.MonWait? || c.MonObserve? || c.MonRecordRead? || c.MonRecordWrite?
    then Some(c.run.id)
    else if c.MonLoadJob? || c.MonLoadRun? then Some(c.runId)
    else None
  }

  /** Has this owner's command been marked as running? */
  predicate AfterMark(c: Client) {
    c.MonWait? || c.MonObserve? || ((c.MonRecordRead? || c.MonRecordWrite?) && c.run.commandIdentity.Some?)
  }

  /** What the owner knows about its run, whatever the cancellers do meanwhile. */
  predicate OwnerPhase(c: Client, current: Run) {
    if AfterMark(c) then
      && current.commandIdentity.Some?
      && (current.state.RunRunning? || current.state.RunCancelRequested?)
      && ((c.MonRecordRead? || c.MonRecordWrite?) && c.outcome.Cancelled? ==> current.state.RunCancelRequested?)
    else current.commandIdentity.None?
  }

  ghost predicate Owned(s: StoreState, c: Client) {
    Owner(c).Some? ==> Owner(c).value in s.runs && OwnerPhase(c, s.runs[Owner(c).value])
  }

  ghost predicate OwnInv(w: World) {
    && (forall c :: c in w.clients ==> Owned(w.store, w.clients[c]))
    && (forall c, d :: c in w.clients && d in w.clients && c != d && Owner(w.clients[c]).Some?
          ==> Owner(w.clients[c]) != Owner(w.clients[d]))
  }

  /** Only an owner starts or finishes its run, except that a canceller may finish a run that never
      got a process. */
  lemma ForeignFinishHasNoProcess(s: StoreState, c: Client, ch: Choice)
    requires RunClientOk(s, c) && MoveOf(c, ch).Finish? && Owner(c) != Some(MoveOf(c, ch).r)
    ensures c.CanRecordWrite? && s.runs[c.run.id].commandIdentity.None?
  {
    SeenKeepsIdentity(s, c.run);
  }

  lemma MoveKeepsOthers(s: StoreState, s': StoreState, c: Client, ch: Choice, m: Move, d: Client)
    requires RunClientOk(s, c) && Moves(s, s', m) && (m.Stay? || m == MoveOf(c, ch))
    requires Owned(s, d) && (Owner(c).Some? ==> Owner(c) != Owner(d))
    ensures Owned(s', d)
  {
    if m.Finish? && Owner(c) != Some(m.r) { ForeignFinishHasNoProcess(s, c, ch); }
    hide RunClientOk;
  }

  // ----- the acting client

  /** The program that goes on owns what it owned before, a run it has just created, or nothing. */
  ghost predicate NextOwned(s: StoreState, c: Client, e: Effect, newId: RunId) {
    e.next.Some? ==>
      && Owned(e.store, e.next.value)
      && (|| Owner(e.next.value) == Owner(c)
          || Owner(e.next.value).None?
          || (c.DueClaim? && Owner(e.next.value) == Some(newId) && newId !in s.runs))
  }

  /** A started monitor takes the run over from the supervisor, which ends. */
  ghost predicate SpawnOwned(c: Client, e: Effect) {
    e.spawned.Some? ==> Owned(e.store, e.spawned.value) && Owner(e.spawned.value) == Owner(c) && e.next.None?
  }

  lemma DueKeepsOwned(s: StoreState, c: Client, ch: Choice)
    requires RunsOk(s) && RunClientOk(s, c) && Owned(s, c) && IsSupervisor(c)
    ensures NextOwned(s, c, DueStep(s, c, ch), ch.runId) && SpawnOwned(c, DueStep(s, c, ch))
  {
    hide RunsOk, RunClientOk, Owned, NextOwned, SpawnOwned, DueStep;
    if c.DueClaim? { ClaimIsOwned(s, c, ch); }
    else if c.DueFailRead? { FailReadIsOwned(s, c, ch); }
    else if c.DueFailWrite? { FailWriteIsOwned(s, c, ch); }
    else { OtherDueIsOwned(s, c, ch); }
  }

  lemma FailReadIsOwned(s: StoreState, c: Client, ch: Choice)
    requires RunsOk(s) && RunClientOk(s, c) && Owned(s, c) && c.DueFailRead?
    ensures NextOwned(s, c, DueStep(s, c, ch), ch.runId) && SpawnOwned(c, DueStep(s, c, ch))
  {
    PlanIsSeen(s, c.run.id, c.run.claimToken, c.finishedAt, SPAWN_FAILED);
    hide RunsOk, RunSeen, RunPhase, PlanTerminal;
  }

  lemma FailWriteIsOwned(s: StoreState, c: Client, ch: Choice)
    requires c.DueFailWrite?
    ensures NextOwned(s, c, DueStep(s, c, ch), ch.runId) && SpawnOwned(c, DueStep(s, c, ch))
  {
    hide TerminalWrite;
  }

  lemma OtherDueIsOwned(s: StoreState, c: Client, ch: Choice)
    requires Owned(s, c) && IsSupervisor(c) && !c.DueClaim? && !c.DueFailRead? && !c.DueFailWrite?
    ensures NextOwned(s, c, DueStep(s, c, ch), ch.runId) && SpawnOwned(c, DueStep(s, c, ch))
  {
    hide Reason.Text, LoadJob, JobTransitioned, RunClaimed, PlanTerminal, TerminalWrite;
    StaysOwned(s, c, ch);
  }

  lemma StaysOwned(s: StoreState, c: Client, ch: Choice)
    requires Owned(s, c) && IsSupervisor(c)
    ensures MoveOf(c, ch).Stay? ==> DueStep(s, c, ch).store.runs == s.runs
  {
    hide DueStep, Act;
    ActOf(s, c, ch);
    if MoveOf(c, ch).Stay? { JobWritesKeepRuns(s, c, ch); }
  }

  lemma ClaimIsOwned(s: StoreState, c: Client, ch: Choice)
    requires c.DueClaim?
    ensures NextOwned(s, c, DueStep(s, c, ch), ch.runId) && SpawnOwned(c, DueStep(s, c, ch))
  {
    ClaimInserts(s, c, ch);
  }

  lemma MonKeepsOwned(s: StoreState, c: Client, ch: Choice)
    requires RunsOk(s) && RunClientOk(s, c) && Owned(s, c) && IsMonitor(c)
    ensures NextOwned(s, c, MonStep(s, c, ch), ch.runId) && MonStep(s, c, ch).spawned.None?
  {
    hide RunsOk, RunClientOk, Owned, NextOwned, MonStep;
    if c.MonMarkWrite? { MarkIsOwned(s, c, ch); }
    else if c.MonRecordRead? { RecordReadIsOwned(s, c, ch); }
    else if c.MonRecordWrite? { RecordWriteIsOwned(s, c, ch); }
    else if c.MonLoadRun? { MonLoadRunIsOwned(s, c, ch); }
    else { OtherMonIsOwned(s, c, ch); }
  }

  lemma RecordWriteIsOwned(s: StoreState, c: Client, ch: Choice)
    requires c.MonRecordWrite?
    ensures NextOwned(s, c, MonStep(s, c, ch), ch.runId) && MonStep(s, c, ch).spawned.None?
  {
    hide TerminalWrite;
  }

  lemma MarkReadIsOwned(s: StoreState, c: Client, ch: Choice)
    requires RunsOk(s) && RunClientOk(s, c) && Owned(s, c) && c.MonMarkRead?
    ensures NextOwned(s, c, MonStep(s, c, ch), ch.runId) && MonStep(s, c, ch).spawned.None?
  {
    ClaimedIsSeen(s, c.run.id, c.run.claimToken);
    hide RunsOk, RunSeen, LoadClaimed, Started;
  }

  lemma QuietMonIsOwned(s: StoreState, c: Client, ch: Choice)
    requires RunsOk(s) && RunClientOk(s, c) && Owned(s, c) && IsMonitor(c)
    requires !c.MonMarkRead? && !c.MonMarkWrite? && !c.MonRecordRead? && !c.MonRecordWrite? && !c.MonLoadRun?
    ensures NextOwned(s, c, MonStep(s, c, ch), ch.runId) && MonStep(s, c, ch).spawned.None?
  {
    hide RunsOk, RunSeen, LoadJob, LoadClaimed, FinishJob, Started;
  }

  lemma OtherMonIsOwned(s: StoreState, c: Client, ch: Choice)
    requires RunsOk(s) && RunClientOk(s, c) && Owned(s, c) && IsMonitor(c)
    requires !c.MonMarkWrite? && !c.MonRecordRead? && !c.MonRecordWrite? && !c.MonLoadRun?
    ensures NextOwned(s, c, MonStep(s, c, ch), ch.runId) && MonStep(s, c, ch).spawned.None?
  {
    hide RunsOk, RunClientOk, Owned, NextOwned, MonStep;
    if c.MonMarkRead? { MarkReadIsOwned(s, c, ch); } else { QuietMonIsOwned(s, c, ch); }
  }

  lemma MonLoadRunIsOwned(s: StoreState, c: Client, ch: Choice)
    requires RunsOk(s) && c.MonLoadRun? && Owned(s, c)
    ensures NextOwned(s, c, MonStep(s, c, ch), ch.runId) && MonStep(s, c, ch).spawned.None?
  {
    LoadedIsSeen(s, c.runId);
    hide LoadRun, RunsOk, RunSeen;
  }

  lemma MarkIsOwned(s: StoreState, c: Client, ch: Choice)
    requires RunsOk(s) && RunClientOk(s, c) && Owned(s, c) && c.MonMarkWrite?
    ensures NextOwned(s, c, MonStep(s, c, ch), ch.runId) && MonStep(s, c, ch).spawned.None?
  {
    MarkWrites(s, c.run, c.facts);
    hide RunsOk, RunSeen;
  }

  lemma RecordReadIsOwned(s: StoreState, c: Client, ch: Choice)
    requires RunsOk(s) && RunClientOk(s, c) && Owned(s, c) && c.MonRecordRead?
    ensures NextOwned(s, c, MonStep(s, c, ch), ch.runId) && MonStep(s, c, ch).spawned.None?
  {
    PlanIsSeen(s, c.run.id, c.run.claimToken, c.finishedAt, c.outcome);
    hide RunsOk, RunSeen, PlanTerminal, RunClientOk, WithOutcome, OutcomeState;
  }

  lemma StepKeepsOwned(s: StoreState, c: Client, ch: Choice)
    requires RunsOk(s) && RunClientOk(s, c) && Owned(s, c)
    ensures NextOwned(s, c, Act(s, c, ch), ch.runId) && SpawnOwned(c, Act(s, c, ch))
  {
    OnlyMonitorsAreSpawned(s, c, ch);
    CancellersOwnNothing(s, c, ch);
    hide RunsOk, RunClientOk, Owned, DueStep, MonStep, CanStep;
    if IsSupervisor(c) { DueKeepsOwned(s, c, ch); }
    else if IsMonitor(c) { MonKeepsOwned(s, c, ch); }
  }

  lemma CancellersOwnNothing(s: StoreState, c: Client, ch: Choice)
    ensures !IsSupervisor(c) && !IsMonitor(c) ==>
      var e := Act(s, c, ch); e.next.Some? ==> Owner(e.next.value).None? && Owned(e.store, e.next.value)
  {}

  // ----- the whole system

  lemma StepKeepsOwners(w: World, e: Event)
    requires RunInv(w) && OwnInv(w) && e.Step? && e.client in w.clients && e.child !in w.clients
    ensures OwnInv(Apply(w, e))
  {
    hide Act, RunClientOk, Owned, Moves, RunsOk, RequestedOk, RunInv;
    var c, w' := w.clients[e.client], Apply(w, e);
    ClientInv(w, e.client);
    var m := StepHasMove(w, e);
    StepKeepsOwned(w.store, c, e.choice);
    forall d | d in w.clients && d != e.client ensures Owned(w'.store, w.clients[d]) {
      MoveKeepsOthers(w.store, w'.store, c, e.choice, m, w.clients[d]);
    }
    FreshIsUnowned(w, e.choice.runId);
  }

  lemma ClientInv(w: World, client: ClientId)
    requires RunInv(w) && client in w.clients
    ensures RunsOk(w.store) && RunClientOk(w.store, w.clients[client])
  {}

  lemma FreshIsUnowned(w: World, r: RunId)
    requires OwnInv(w)
    ensures r !in w.store.runs ==> forall c :: c in w.clients ==> Owner(w.clients[c]) != Some(r)
  {}

  lemma OtherEventsKeepOwners(mode: Mode, w: World, e: Event)
    requires RunInv(w) && OwnInv(w) && Enabled(mode, w, e) && !e.Step? && !mode.strays
    ensures OwnInv(Apply(w, e))
  {
    var w' := Apply(w, e);
    assert w'.store.runs == w.store.runs;
    forall c | c in w'.clients ensures Owned(w'.store, w'.clients[c]) {
      if c in w.clients { assert Owned(w.store, w.clients[c]); }
    }
  }

  lemma NextKeepsOwners(mode: Mode, before: World, after: World)
    requires RunInv(before) && OwnInv(before) && Next(mode, before, after) && !mode.strays
    ensures OwnInv(after)
  {
    hide RunInv, OwnInv;
    var e := EventBetween(mode, before, after);
    if e.Step? { StepKeepsOwners(before, e); } else { OtherEventsKeepOwners(mode, before, e); }
  }

  lemma NobodyOwnsYet(w: World)
    requires Initial(w)
    ensures OwnInv(w)
  {}

  lemma {:induction false} TraceKeepsOwners(mode: Mode, ws: seq<World>, i: nat)
    requires Trace(mode, ws) && !mode.strays && i < |ws|
    ensures OwnInv(ws[i])
  {
    hide RunInv, OwnInv, Initial, Next;
    if i == 0 {
      NobodyOwnsYet(ws[0]);
    } else {
      TraceKeepsOwners(mode, ws, i - 1);
      TraceKeepsRuns(mode, ws, i - 1);
      NextKeepsOwners(mode, ws[i - 1], ws[i]);
    }
  }

  /** Two live programs never own the same run: each claimed run has at most one monitor. */
  lemma OneMonitorPerRun(mode: Mode, ws: seq<World>, i: nat, c: ClientId, d: ClientId)
    requires Trace(mode, ws) && !mode.strays && i < |ws|
    requires c in ws[i].clients && d in ws[i].clients && Owner(ws[i].clients[c]).Some?
    requires Owner(ws[i].clients[c]) == Owner(ws[i].clients[d])
    ensures c == d
  {
    TraceKeepsOwners(mode, ws, i);
  }

  /** Once the command is marked as running, the monitor is the only writer that can finish the run. */
  lemma OnlyTheMonitorFinishes(mode: Mode, ws: seq<World>, i: nat, e: Event, r: RunId)
    requires Trace(mode, ws) && !mode.strays && i + 1 < |ws|
    requires Enabled(mode, ws[i], e) && ws[i + 1] == Apply(ws[i], e)
    requires r in ws[i].store.runs && !ws[i].store.runs[r].state.IsTerminal()
    requires ws[i].store.runs[r].commandIdentity.Some?
    requires r in ws[i + 1].store.runs && ws[i + 1].store.runs[r].state.IsTerminal()
    ensures e.Step? && ws[i].clients[e.client].MonRecordWrite? && ws[i].clients[e.client].run.id == r
    ensures ws[i + 1].store.runs[r].outcome == Some(ws[i].clients[e.client].outcome)
  {
    TraceKeepsOwners(mode, ws, i);
    TraceKeepsRuns(mode, ws, i);
    if e.Step? {
      var c := ws[i].clients[e.client];
      var m := StepHasMove(ws[i], e);
      assert RunClientOk(ws[i].store, c) && Owned(ws[i].store, c);
      FinishNamesItsRun(ws[i].store, ws[i + 1].store, m, r);
      if Owner(c) != Some(r) { ForeignFinishHasNoProcess(ws[i].store, c, e.choice); }
      RecordedIsTheHeldOutcome(ws[i].store, c, e.choice);
      hide RunInv, OwnInv, Act, Moves;
    }
  }

  lemma FinishNamesItsRun(s: StoreState, s': StoreState, m: Move, r: RunId)
    requires Moves(s, s', m) && r in s.runs && !s.runs[r].state.IsTerminal()
    requires r in s'.runs && s'.runs[r].state.IsTerminal()
    ensures m == Finish(r)
  {}

  lemma RecordedIsTheHeldOutcome(s: StoreState, c: Client, ch: Choice)
    requires RunsOk(s) && RunClientOk(s, c) && c.MonRecordWrite? && !s.runs[c.run.id].state.IsTerminal()
    ensures c.run.id in Act(s, c, ch).store.runs
    ensures Act(s, c, ch).store.runs[c.run.id].outcome == Some(c.outcome)
  {
    ActOf(s, c, ch);
    StaleTerminalWriteIsLegal(s, c.run, c.finishedAt, c.outcome);
    hide RunsOk, RunSeen, TerminalWrite;
  }

  // ----- clocks

  /** Every recorded or remembered moment is at most the latest clock reading. */
  ghost predicate TimesOk(w: World) {
    && (forall r :: r in w.store.runs ==> w.store.runs[r].createdAt <= w.clock)
    && (forall c :: c in w.clients ==> ClientTimesOk(w.clients[c], w.clock))
  }

  predicate ClientTimesOk(c: Client, clock: UtcTimestamp) {
    && (c.DueWaiting? || c.DueStarting? || c.DueClaim? ==> c.now <= clock)
    && (c.MonObserve? || c.MonRecordRead? || c.MonRecordWrite? ==> c.run.createdAt <= c.finishedAt)
  }

  lemma StepKeepsTimes(s: StoreState, c: Client, ch: Choice, clock: UtcTimestamp)
    requires RunsOk(s) && RunClientOk(s, c) && ClientTimesOk(c, clock) && clock <= ch.now
    requires HoldsRun(c) ==> c.run.createdAt <= clock
    ensures var e := Act(s, c, ch);
      && (e.next.Some? ==> ClientTimesOk(e.next.value, ch.now))
      && (c.DueClaim? && ch.runId in e.store.runs && ch.runId !in s.runs ==> e.store.runs[ch.runId].createdAt <= ch.now)
  {
    ActOf(s, c, ch);
    hide Act, RunsOk, RunClientOk, ClientTimesOk, DueStep, MonStep, CanStep;
    if IsSupervisor(c) {
      DueKeepsTimes(s, c, ch, clock);
    } else if c.MonRecordRead? {
      FinishIsAfterCreation(c, clock);
      RecordReadKeepsTimes(s, c, ch);
    } else if IsMonitor(c) {
      MonKeepsTimes(s, c, ch, clock);
    } else {
      CancellersRememberNoTimes(s, c, ch);
    }
  }

  lemma FinishIsAfterCreation(c: Client, clock: UtcTimestamp)
    requires ClientTimesOk(c, clock) && c.MonRecordRead?
    ensures c.run.createdAt <= c.finishedAt
  {}

  lemma DueKeepsTimes(s: StoreState, c: Client, ch: Choice, clock: UtcTimestamp)
    requires ClientTimesOk(c, clock) && clock <= ch.now && IsSupervisor(c)
    ensures var e := DueStep(s, c, ch);
      && (e.next.Some? ==> ClientTimesOk(e.next.value, ch.now))
      && (c.DueClaim? && ch.runId in e.store.runs && ch.runId !in s.runs ==> e.store.runs[ch.runId].createdAt <= ch.now)
  {
    if c.DueClaim? { ClaimInserts(s, c, ch); }
    hide Reason.Text, LoadJob, JobTransitioned, PlanTerminal, TerminalWrite, RunClaimed, Moves;
  }

  lemma MonKeepsTimes(s: StoreState, c: Client, ch: Choice, clock: UtcTimestamp)
    requires ClientTimesOk(c, clock) && clock <= ch.now && IsMonitor(c) && !c.MonRecordRead?
    requires HoldsRun(c) ==> c.run.createdAt <= clock
    ensures var e := MonStep(s, c, ch); e.next.Some? ==> ClientTimesOk(e.next.value, ch.now)
  {
    hide Reason.Text, LoadJob, LoadRun, LoadClaimed, WriteRunning, TerminalWrite, FinishJob, Started;
  }

  lemma CancellersRememberNoTimes(s: StoreState, c: Client, ch: Choice)
    requires !IsSupervisor(c) && !IsMonitor(c)
    ensures var e := CanStep(s, c, ch); e.next.Some? ==> ClientTimesOk(e.next.value, ch.now)
  {}

  lemma RecordReadKeepsTimes(s: StoreState, c: Client, ch: Choice)
    requires RunsOk(s) && RunClientOk(s, c) && c.MonRecordRead? && c.run.createdAt <= c.finishedAt
    ensures var e := MonStep(s, c, ch); e.next.Some? ==> ClientTimesOk(e.next.value, ch.now)
  {
    PlanIsSeen(s, c.run.id, c.run.claimToken, c.finishedAt, c.outcome);
    hide PlanTerminal, RunsOk;
  }

  lemma MoveKeepsCreation(s: StoreState, s': StoreState, m: Move, clock: UtcTimestamp)
    requires Moves(s, s', m)
    requires forall r :: r in s.runs ==> s.runs[r].createdAt <= clock
    requires m.Insert? ==> s'.runs[m.r].createdAt <= clock
    ensures forall r :: r in s'.runs ==> s'.runs[r].createdAt <= clock
  {}

  lemma HeldRunIsOld(w: World, client: ClientId)
    requires RunInv(w) && TimesOk(w) && client in w.clients
    ensures HoldsRun(w.clients[client]) ==> w.clients[client].run.createdAt <= w.clock
  {
    assert RunClientOk(w.store, w.clients[client]);
  }

  /** Who is there after a step: the others as before, the stepping client further on, the child. */
  lemma AfterStep(w: World, e: Event)
    requires e.Step? && e.client in w.clients && e.child !in w.clients
    ensures var w' := Apply(w, e);
      var effect := Act(w.store, w.clients[e.client], e.choice);
      && w'.store == effect.store && w'.clock == e.choice.now
      && forall d :: d in w'.clients ==>
          || (d != e.client && d in w.clients && w'.clients[d] == w.clients[d])
          || (d == e.client && effect.next == Some(w'.clients[d]))
          || (d == e.child && effect.spawned == Some(w'.clients[d]))
  {
    hide Act;
  }

  lemma LaterTimesOk(c: Client, early: UtcTimestamp, late: UtcTimestamp)
    requires ClientTimesOk(c, early) && early <= late
    ensures ClientTimesOk(c, late)
  {}

  lemma NewMonitorHasNoTimes(c: Client, ch: Choice)
    ensures c.DueSpawn? ==> ClientTimesOk(MonLoadJob(c.job.id, c.run.id), ch.now)
  {}

  lemma NextKeepsTimes(mode: Mode, w: World, e: Event)
    requires RunInv(w) && TimesOk(w) && Enabled(mode, w, e) && mode.steady
    ensures TimesOk(Apply(w, e))
  {
    var w' := Apply(w, e);
    if e.Step? {
      var c := w.clients[e.client];
      hide Act, RunClientOk, RunsOk, RequestedOk, RunInv, Moves, ClientTimesOk, MoveOf, Apply;
      HeldRunIsOld(w, e.client);
      var m := StepHasMove(w, e);
      ClientInv(w, e.client);
      StepKeepsTimes(w.store, c, e.choice, w.clock);
      OnlyMonitorsAreSpawned(w.store, c, e.choice);
      NewMonitorHasNoTimes(c, e.choice);
      AfterStep(w, e);
      if m.Insert? { InsertedIsThere(w.store, w'.store, m.r); }
      MoveKeepsCreation(w.store, w'.store, m, w'.clock);
      forall d | d in w'.clients ensures ClientTimesOk(w'.clients[d], w'.clock) {
        if d != e.client && d != e.child { LaterTimesOk(w.clients[d], w.clock, w'.clock); }
      }
    } else {
      OtherEventsKeepRuns(mode, w, e);
    }
  }

  lemma NoTimesYet(w: World)
    requires Initial(w)
    ensures TimesOk(w)
  {}

  lemma {:induction false} TraceKeepsTimes(mode: Mode, ws: seq<World>, i: nat)
    requires Trace(mode, ws) && mode.steady && i < |ws|
    ensures TimesOk(ws[i])
  {
    hide RunInv, TimesOk, Initial, Next, Apply, Enabled;
    if i == 0 {
      NoTimesYet(ws[0]);
    } else {
      TraceKeepsTimes(mode, ws, i - 1);
      TraceKeepsRuns(mode, ws, i - 1);
      var e := EventBetween(mode, ws[i - 1], ws[i]);
      NextKeepsTimes(mode, ws[i - 1], e);
    }
  }

  lemma UnfinishedReadsBack(run: Run)
    requires Consistent(run) && !run.state.IsTerminal()
    ensures Rehydrate(run).Ok?
  {}

  /** With a clock that does not go back, the outcome a monitor brings for a command it started is
      never refused, neither by the check on the row it reads back nor by the guarded write: the
      outcome is a legal edge from whatever the cancellers have left the run in. */
  lemma MonitorOutcomeIsAccepted(mode: Mode, ws: seq<World>, i: nat, client: ClientId)
    requires Trace(mode, ws) && !mode.strays && mode.steady && i < |ws|
    requires client in ws[i].clients
    requires ws[i].clients[client].MonRecordRead? || ws[i].clients[client].MonRecordWrite?
    requires ws[i].clients[client].run.commandIdentity.Some?
    ensures var c, s := ws[i].clients[client], ws[i].store;
      && c.run.id in s.runs && RunLegal(s.runs[c.run.id].state, OutcomeState(c.outcome))
      && (c.MonRecordRead? ==> PlanTerminal(s, c.run.id, c.run.claimToken, c.finishedAt, c.outcome).WriteOutcome?)
      && (c.MonRecordWrite? ==> TerminalWrite(s, c.run, c.finishedAt, c.outcome).Some?)
  {
    TraceKeepsRuns(mode, ws, i);
    TraceKeepsOwners(mode, ws, i);
    TraceKeepsTimes(mode, ws, i);
    var c, s := ws[i].clients[client], ws[i].store;
    assert RunClientOk(s, c) && Owned(s, c) && RunSeen(s, c.run) && ClientTimesOk(c, ws[i].clock);
    var current := s.runs[c.run.id];
    UnfinishedReadsBack(current);
    OutcomeTableAgrees(current, c.finishedAt, c.outcome);
    hide RunInv, OwnInv, TimesOk;
    if c.MonRecordWrite? { StaleTerminalWriteIsLegal(s, c.run, c.finishedAt, c.outcome); }
  }
}
