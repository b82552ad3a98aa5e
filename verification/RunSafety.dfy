/** Whole-run safety of runs: one outcome, one writer, no start after a cancellation, and what a
    signal may rely on. */
module RunSafety {
  import opened Wrappers
  import opened Primitives
  import opened Transitions
  import opened Jobs
  import opened Runs
  import opened Store
  import opened Protocol
  import opened RunMoves

  // ----- one step of one client

  lemma StoredIsSeen(s: StoreState, r: RunId)
    requires RunsOk(s) && r in s.runs
    ensures RunSeen(s, s.runs[r]) && s.runs[r].id == r
  {}

  lemma LoadedIsSeen(s: StoreState, r: RunId)
    requires RunsOk(s)
    ensures LoadRun(s, r).Ok? ==>
      r in s.runs && LoadRun(s, r).value == s.runs[r] && RunSeen(s, s.runs[r]) && s.runs[r].id == r
  {}

  lemma ClaimedIsSeen(s: StoreState, r: RunId, token: ClaimToken)
    requires RunsOk(s)
    ensures LoadClaimed(s, r, token).Ok? ==>
      r in s.runs && LoadClaimed(s, r, token).value == s.runs[r] && s.runs[r].id == r && RunSeen(s, s.runs[r])
                                             && (s.runs[r].state.RunStarting? ==> s.runs[r].commandIdentity.None?)
  {}

  lemma PlanIsSeen(s: StoreState, r: RunId, token: ClaimToken, finishedAt: UtcTimestamp, outcome: RunOutcome)
    requires RunsOk(s)
    ensures PlanTerminal(s, r, token, finishedAt, outcome).WriteOutcome? ==>
      && r in s.runs && RunSeen(s, s.runs[r]) && s.runs[r].id == r
      && !s.runs[r].state.IsTerminal() && WithOutcome(s.runs[r], finishedAt, outcome).Ok?
  {}

  lemma LatestIsSeen(s: StoreState, job: JobId)
    requires RunsOk(s)
    ensures LatestActiveRun(s, job).Some? ==> RunSeen(s, LatestActiveRun(s, job).value)
  {
    if exists r :: IsLatestActive(s.runs, job, r) {
      var r: RunId :| IsLatestActive(s.runs, job, r) && LatestActiveRun(s, job) == Some(s.runs[r]);
      StoredIsSeen(s, r);
    }
  }

  lemma SeenKeepsIdentity(s: StoreState, run: Run)
    requires RunSeen(s, run) && !run.state.RunStarting?
    ensures s.runs[run.id].commandIdentity == run.commandIdentity
  {}

  lemma DueClaimsRun(s: StoreState, c: Client, ch: Choice)
    requires RunsOk(s) && c.DueClaim?
    ensures DueStep(s, c, ch).next.Some? ==> RunClientOk(DueStep(s, c, ch).store, DueStep(s, c, ch).next.value)
  {
    ClaimInserts(s, c, ch);
    hide RunsOk, RunSeen, RunClaimed, Moves;
    var e := DueStep(s, c, ch);
    if e.next.Some? {
      MoveKeepsRunsOk(s, e.store, Insert(ch.runId));
      InsertedIsThere(s, e.store, ch.runId);
      StoredIsSeen(e.store, ch.runId);
    }
  }

  lemma DueFails(s: StoreState, c: Client, ch: Choice)
    requires RunsOk(s) && RunClientOk(s, c) && (c.DueFailRead? || c.DueFailWrite?)
    ensures DueStep(s, c, ch).next.Some? ==> RunClientOk(DueStep(s, c, ch).store, DueStep(s, c, ch).next.value)
  {
    hide RunsOk, RunSeen, TerminalWrite, PlanTerminal, WithOutcome;
    if c.DueFailRead? { PlanIsSeen(s, c.run.id, c.run.claimToken, c.finishedAt, SPAWN_FAILED); }
  }

  lemma DueMovesJob(s: StoreState, c: Client, ch: Choice)
    requires RunsOk(s) && RunClientOk(s, c) && IsSupervisor(c) && !c.DueClaim? && !c.DueFailRead? && !c.DueFailWrite?
    ensures DueStep(s, c, ch).next.Some? ==> RunClientOk(DueStep(s, c, ch).store, DueStep(s, c, ch).next.value)
  {
    ActOf(s, c, ch);
    hide RunsOk, RunSeen, Reason.Text, LoadJob, JobTransitioned, Act;
    JobWritesKeepSeen(s, c, ch);
  }

  lemma DueKeepsRunClient(s: StoreState, c: Client, ch: Choice)
    requires RunsOk(s) && RunClientOk(s, c) && IsSupervisor(c)
    ensures DueStep(s, c, ch).next.Some? ==> RunClientOk(DueStep(s, c, ch).store, DueStep(s, c, ch).next.value)
  {
    hide RunsOk, RunClientOk, DueStep;
    match c
    case DueClaim(_, _) => DueClaimsRun(s, c, ch);
    case DueFailRead(_, _, _) => DueFails(s, c, ch);
    case DueFailWrite(_, _, _) => DueFails(s, c, ch);
    case _ => DueMovesJob(s, c, ch);
  }

  lemma InsertedIsThere(s: StoreState, s': StoreState, r: RunId)
    requires Moves(s, s', Insert(r))
    ensures r in s'.runs
  {}

  lemma JobWritesKeepSeen(s: StoreState, c: Client, ch: Choice)
    requires HoldsRun(c) ==> RunSeen(s, c.run)
    ensures MoveOf(c, ch).Stay? && HoldsRun(c) ==> RunSeen(Act(s, c, ch).store, c.run)
  {
    if MoveOf(c, ch).Stay? { JobWritesKeepRuns(s, c, ch); }
  }

  lemma MonReadsRun(s: StoreState, c: Client, ch: Choice)
    requires RunsOk(s) && RunClientOk(s, c) && (c.MonLoadRun? || c.MonCheck?)
    ensures MonStep(s, c, ch).next.Some? ==> RunClientOk(MonStep(s, c, ch).store, MonStep(s, c, ch).next.value)
  {
    hide RunsOk, RunSeen, LoadRun, LoadClaimed;
    if c.MonLoadRun? { LoadedIsSeen(s, c.runId); } else { ClaimedIsSeen(s, c.run.id, c.run.claimToken); }
  }

  lemma MonRecordsRun(s: StoreState, c: Client, ch: Choice)
    requires RunsOk(s) && RunClientOk(s, c) && (c.MonRecordRead? || c.MonRecordWrite?)
    ensures MonStep(s, c, ch).next.Some? ==> RunClientOk(MonStep(s, c, ch).store, MonStep(s, c, ch).next.value)
  {
    hide RunsOk, RunSeen, TerminalWrite, PlanTerminal, WithOutcome;
    if c.MonRecordRead? { PlanIsSeen(s, c.run.id, c.run.claimToken, c.finishedAt, c.outcome); }
  }

  lemma MonWatches(s: StoreState, c: Client, ch: Choice)
    requires RunsOk(s) && RunClientOk(s, c)
    requires c.MonLoadJob? || c.MonPrepare? || c.MonWait? || c.MonObserve? || c.MonFinishLoad? || c.MonFinishWrite?
    ensures MonStep(s, c, ch).next.Some? ==> RunClientOk(MonStep(s, c, ch).store, MonStep(s, c, ch).next.value)
  {
    hide RunsOk, RunSeen, FinishJob, CompletionOutcome, LoadJob, LoadRun;
  }

  lemma MonKeepsRunClient(s: StoreState, c: Client, ch: Choice)
    requires RunsOk(s) && RunClientOk(s, c) && IsMonitor(c)
    ensures MonStep(s, c, ch).next.Some? ==> RunClientOk(MonStep(s, c, ch).store, MonStep(s, c, ch).next.value)
  {
    hide RunsOk, RunClientOk, MonStep;
    match c
    case MonLoadRun(_, _) => MonReadsRun(s, c, ch);
    case MonCheck(_, _) => MonReadsRun(s, c, ch);
    case MonMarkRead(_, _, _) => MarkReadIsSeen(s, c, ch);
    case MonMarkWrite(_, _, _) => MarkWriteIsSeen(s, c, ch);
    case MonRecordRead(_, _, _, _) => MonRecordsRun(s, c, ch);
    case MonRecordWrite(_, _, _, _) => MonRecordsRun(s, c, ch);
    case _ => MonWatches(s, c, ch);
  }

  lemma MarkReadIsSeen(s: StoreState, c: Client, ch: Choice)
    requires RunsOk(s) && RunClientOk(s, c) && c.MonMarkRead?
    ensures MonStep(s, c, ch).next.Some? ==> RunClientOk(MonStep(s, c, ch).store, MonStep(s, c, ch).next.value)
  {
    hide RunsOk, RunSeen, LoadClaimed;
    ClaimedIsSeen(s, c.run.id, c.run.claimToken);
  }

  lemma MarkWriteIsSeen(s: StoreState, c: Client, ch: Choice)
    requires RunsOk(s) && RunClientOk(s, c) && c.MonMarkWrite?
    ensures MonStep(s, c, ch).next.Some? ==> RunClientOk(MonStep(s, c, ch).store, MonStep(s, c, ch).next.value)
  {
    hide RunsOk, RunSeen, Moves, WriteRunning;
    var e := MonStep(s, c, ch);
    MarkWrites(s, c.run, c.facts);
    if e.next.Some? {
      MoveKeepsRunsOk(s, e.store, Mark(c.run.id));
      MarkedIsThere(s, e.store, c.run.id);
      StoredIsSeen(e.store, c.run.id);
    }
  }

  lemma MarkedIsThere(s: StoreState, s': StoreState, r: RunId)
    requires Moves(s, s', Mark(r))
    ensures r in s'.runs && s'.runs[r].state.RunRunning?
  {}

  lemma RequestedIsThere(s: StoreState, s': StoreState, r: RunId)
    requires Moves(s, s', Request(r))
    ensures r in s'.runs && s'.runs[r].state.RunCancelRequested?
  {}

  lemma CommitWriteIsSeen(s: StoreState, c: Client, ch: Choice)
    requires RunsOk(s) && RunClientOk(s, c) && c.CanCommitWrite?
    ensures CanStep(s, c, ch).next.Some? ==> RunClientOk(CanStep(s, c, ch).store, CanStep(s, c, ch).next.value)
  {
    hide RunsOk, RunSeen, Moves, WriteRequested;
    var e := CanStep(s, c, ch);
    RequestWrites(s, c.run);
    if e.next.Some? {
      MoveKeepsRunsOk(s, e.store, Request(c.run.id));
      RequestedIsThere(s, e.store, c.run.id);
      StoredIsSeen(e.store, c.run.id);
    }
  }

  /** Cancellers that stand before a statement which only reads. */
  lemma CanReadsRun(s: StoreState, c: Client, ch: Choice)
    requires RunsOk(s) && RunClientOk(s, c) && (c.CanRunLoad? || c.CanCommitRead?)
    ensures CanStep(s, c, ch).next.Some? ==> RunClientOk(CanStep(s, c, ch).store, CanStep(s, c, ch).next.value)
  {
    hide RunsOk, RunSeen, TerminalWrite, WriteRequested, WithOutcome;
    LoadedIsSeen(s, c.run.id);
  }

  /** Looking at processes and signalling them leaves the store and the held row alone. */
  lemma CanSignalsRun(s: StoreState, c: Client, ch: Choice)
    requires RunClientOk(s, c) && IsSignalling(c)
    ensures CanStep(s, c, ch).next.Some? ==> RunClientOk(CanStep(s, c, ch).store, CanStep(s, c, ch).next.value)
  {
    hide RunSeen;
  }

  lemma CanRecordsRun(s: StoreState, c: Client, ch: Choice)
    requires RunsOk(s) && RunClientOk(s, c) && (c.CanRecordRead? || c.CanRecordWrite?)
    ensures CanStep(s, c, ch).next.Some? ==> RunClientOk(CanStep(s, c, ch).store, CanStep(s, c, ch).next.value)
  {
    hide RunsOk, RunSeen, TerminalWrite, Moves, WriteRequested, LatestActiveRun;
    hide JobTransitioned, Reason.Text, LoadJob, WithOutcome, PlanTerminal;
    var run, e := c.run, CanStep(s, c, ch);
    if c.CanRecordRead? {
      PlanIsSeen(s, run.id, run.claimToken, ch.now, CANCELLED_EARLY);
      SeenKeepsIdentity(s, run);
    } else {
      StaleTerminalWriteIsLegal(s, run, c.finishedAt, CANCELLED_EARLY);
      if e.next.Some? { MoveKeepsSeen(s, e.store, Finish(run.id), run); }
    }
  }

  lemma CanAsks(s: StoreState, c: Client, ch: Choice)
    requires RunsOk(s) && RunClientOk(s, c)
    requires c.CanResolve? || c.CanActive? || c.CanRequest? || c.CanReload? || c.CanNoRun? || c.CanPoll?
             || c.CanFinishLoad? || c.CanFinishWrite?
    ensures CanStep(s, c, ch).next.Some? ==> RunClientOk(CanStep(s, c, ch).store, CanStep(s, c, ch).next.value)
  {
    hide RunsOk, RunSeen, LatestActiveRun, JobTransitioned, Reason.Text, LoadJob, Act;
    if c.CanActive? { LatestIsSeen(s, c.job.id); }
    if c.CanRequest? { RequestKeepsSeen(s, c, ch); }
  }

  lemma CanKeepsRunClient(s: StoreState, c: Client, ch: Choice)
    requires RunsOk(s) && RunClientOk(s, c) && !IsSupervisor(c) && !IsMonitor(c)
    ensures CanStep(s, c, ch).next.Some? ==> RunClientOk(CanStep(s, c, ch).store, CanStep(s, c, ch).next.value)
  {
    hide RunsOk, RunClientOk, CanStep;
    if IsSignalling(c) { CanSignalsRun(s, c, ch); }
    else if c.CanCommitWrite? { CommitWriteIsSeen(s, c, ch); }
    else if c.CanRunLoad? || c.CanCommitRead? { CanReadsRun(s, c, ch); }
    else if c.CanRecordRead? || c.CanRecordWrite? { CanRecordsRun(s, c, ch); }
    else { CanAsks(s, c, ch); }
  }

  lemma RequestKeepsSeen(s: StoreState, c: Client, ch: Choice)
    requires c.CanRequest? && (c.active.Some? ==> RunSeen(s, c.active.value))
    ensures c.active.Some? ==> RunSeen(CanStep(s, c, ch).store, c.active.value)
  {
    JobWritesKeepRuns(s, c, ch);
  }

  lemma StepKeepsRunClient(s: StoreState, c: Client, ch: Choice)
    requires RunsOk(s) && RunClientOk(s, c)
    ensures var e := Act(s, c, ch);
      && (e.next.Some? ==> RunClientOk(e.store, e.next.value))
      && (e.spawned.Some? ==> RunClientOk(e.store, e.spawned.value))
  {
    OnlyMonitorsAreSpawned(s, c, ch);
    hide RunsOk, RunSeen, DueStep, MonStep, CanStep;
    if IsSupervisor(c) { DueKeepsRunClient(s, c, ch); }
    else if IsMonitor(c) { MonKeepsRunClient(s, c, ch); }
    else { CanKeepsRunClient(s, c, ch); }
  }

  // ----- the whole system

  /** Exactly the runs that are or once were CancelRequested. */
  ghost predicate RequestedOk(s: StoreState, requested: set<RunId>) {
    && (forall r :: r in requested ==>
          r in s.runs && (s.runs[r].state.RunCancelRequested? || s.runs[r].state.IsTerminal()))
    && (forall r :: r in s.runs && (s.runs[r].state.RunCancelRequested? || s.runs[r].state.RunCancelled?) ==>
        r in requested)
  }

  ghost predicate RunInv(w: World) {
    && RunsOk(w.store)
    && RequestedOk(w.store, w.requested)
    && forall c :: c in w.clients ==> RunClientOk(w.store, w.clients[c])
  }

  lemma MoveKeepsRequested(s: StoreState, s': StoreState, m: Move, requested: set<RunId>)
    requires Moves(s, s', m) && RequestedOk(s, requested)
    ensures RequestedOk(s', if m.Request? then requested + {m.r} else requested)
  {}

  /** The step of a client, seen from the run table. */
  ghost predicate StepIs(w: World, w': World, e: Event, m: Move) {
    && e.Step? && e.client in w.clients
    && (m.Stay? || m == MoveOf(w.clients[e.client], e.choice))
    && Moves(w.store, w'.store, m)
    && w'.requested == (if m.Request? then w.requested + {m.r} else w.requested)
  }

  lemma StepHasMove(w: World, e: Event) returns (m: Move)
    requires RunInv(w) && e.Step? && e.client in w.clients
    ensures StepIs(w, Apply(w, e), e, m)
  {
    var c := w.clients[e.client];
    StepMakesMove(w.store, c, e.choice);
    hide Act, Moves, RunClientOk, RunsOk;
    m := if Moves(w.store, Act(w.store, c, e.choice).store, MoveOf(c, e.choice)) then MoveOf(c, e.choice) else Stay;
  }

  lemma NextKeepsRuns(mode: Mode, w: World, e: Event)
    requires RunInv(w) && Enabled(mode, w, e)
    ensures RunInv(Apply(w, e))
  {
    var w' := Apply(w, e);
    if e.Step? {
      var m := StepHasMove(w, e);
      StepKeepsRunClient(w.store, w.clients[e.client], e.choice);
      hide Act, Moves, RunClientOk, RunsOk;
      MoveKeepsRunsOk(w.store, w'.store, m);
      MoveKeepsRequested(w.store, w'.store, m, w.requested);
      forall c | c in w'.clients ensures RunClientOk(w'.store, w'.clients[c]) {
        if c != e.client && c != e.child { MoveKeepsClient(w.store, w'.store, m, w.clients[c]); }
      }
    } else {
      OtherEventsKeepRuns(mode, w, e);
      hide RunClientOk, RunsOk, JobCreated;
    }
  }

  /** Submissions, arrivals and stops leave every run and every held row alone. */
  lemma OtherEventsKeepRuns(mode: Mode, w: World, e: Event)
    requires RunInv(w) && Enabled(mode, w, e) && !e.Step?
    ensures Apply(w, e).store.runs == w.store.runs && RunInv(Apply(w, e))
  {
    var w' := Apply(w, e);
    assert w'.store.runs == w.store.runs;
    forall c | c in w'.clients ensures RunClientOk(w'.store, w'.clients[c]) {
      if c in w.clients && w'.clients[c] == w.clients[c] { assert RunClientOk(w.store, w.clients[c]); }
    }
  }

  lemma NextRuns(mode: Mode, before: World, after: World)
    requires RunInv(before) && Next(mode, before, after)
    ensures RunInv(after)
  {
    hide RunInv;
    var e := EventBetween(mode, before, after);
    NextKeepsRuns(mode, before, e);
  }

  lemma InitialRuns(w: World)
    requires Initial(w)
    ensures RunInv(w)
  {}

  lemma {:induction false} TraceKeepsRuns(mode: Mode, ws: seq<World>, i: nat)
    requires Trace(mode, ws) && i < |ws|
    ensures RunInv(ws[i])
  {
    hide RunInv, Next, Initial;
    if i == 0 {
      InitialRuns(ws[0]);
    } else {
      TraceKeepsRuns(mode, ws, i - 1);
      NextRuns(mode, ws[i - 1], ws[i]);
    }
  }

  // ----- results that hold in every mode

  /** Every later row is reached from the earlier one along the run table, and a state that comes
      back means nothing at all has changed. */
  ghost predicate RunsLater(s: StoreState, s': StoreState) {
    forall r :: r in s.runs ==> RunSeen(s', s.runs[r])
  }

  lemma MoveIsRunsLater(s: StoreState, s': StoreState, m: Move)
    requires RunsOk(s) && Moves(s, s', m)
    ensures RunsLater(s, s')
  {
    forall r | r in s.runs ensures RunSeen(s', s.runs[r]) {
      StoredIsSeen(s, r);
      MoveKeepsSeen(s, s', m, s.runs[r]);
    }
  }

  lemma RunsLaterTransitive(a: StoreState, b: StoreState, c: StoreState)
    requires RunsOk(a) && RunsLater(a, b) && RunsLater(b, c)
    ensures RunsLater(a, c)
  {
    forall r | r in a.runs ensures RunSeen(c, a.runs[r]) {
      assert RunSeen(b, a.runs[r]) && RunSeen(c, b.runs[r]);
    }
  }

  lemma NextIsRunsLater(mode: Mode, before: World, after: World)
    requires RunInv(before) && Next(mode, before, after)
    ensures RunsLater(before.store, after.store)
  {
    var e := EventBetween(mode, before, after);
    hide Enabled;
    if e.Step? {
      var m := StepHasMove(before, e);
      hide Apply, Moves;
      MoveIsRunsLater(before.store, after.store, m);
    } else {
      forall r | r in before.store.runs ensures RunSeen(after.store, before.store.runs[r]) {
        StoredIsSeen(before.store, r);
      }
    }
  }

  lemma RunsLaterReflexive(s: StoreState)
    requires RunsOk(s)
    ensures RunsLater(s, s)
  {
    forall r | r in s.runs ensures RunSeen(s, s.runs[r]) { StoredIsSeen(s, r); }
  }

  lemma {:induction false} TraceIsRunsLater(mode: Mode, ws: seq<World>, i: nat, j: nat)
    requires Trace(mode, ws) && i <= j < |ws|
    ensures RunsLater(ws[i].store, ws[j].store)
    decreases j
  {
    hide Next, Initial, RunsLater, RequestedOk, RunClientOk, RunsOk;
    TraceKeepsRuns(mode, ws, i);
    if i == j {
      RunsLaterReflexive(ws[i].store);
    } else {
      TraceIsRunsLater(mode, ws, i, j - 1);
      TraceKeepsRuns(mode, ws, j - 1);
      NextIsRunsLater(mode, ws[j - 1], ws[j]);
      RunsLaterTransitive(ws[i].store, ws[j - 1].store, ws[j].store);
    }
  }

  /** At most one terminal outcome: in every run of the system, a finished run's row is never
      written again by anyone, and every row only ever moves forward along the run table. */
  lemma FinishedRunsAreFrozen(mode: Mode, ws: seq<World>, i: nat, j: nat, r: RunId)
    requires Trace(mode, ws) && i <= j < |ws| && r in ws[i].store.runs
    ensures r in ws[j].store.runs
    ensures LegalChain(ws[i].store.runs[r].state, ws[j].store.runs[r].state)
    ensures ws[i].store.runs[r].state.IsTerminal() ==> ws[j].store.runs[r] == ws[i].store.runs[r]
  {
    TraceIsRunsLater(mode, ws, i, j);
    TraceKeepsRuns(mode, ws, i);
    assert RunSeen(ws[j].store, ws[i].store.runs[r]);
    ReachesIsChain(ws[i].store.runs[r].state, ws[j].store.runs[r].state);
  }

  /** A cancellation stored before the command was spawned keeps the run from ever running: its
      state never becomes Running and no process is ever attached to it. */
  lemma CancelBeforeSpawnExcludesRunning(mode: Mode, ws: seq<World>, i: nat, j: nat, r: RunId)
    requires Trace(mode, ws) && i <= j < |ws| && r in ws[i].store.runs
    requires ws[i].store.runs[r].state.RunCancelRequested?
    ensures r in ws[j].store.runs
    ensures ws[j].store.runs[r].state.RunCancelRequested? || ws[j].store.runs[r].state.IsTerminal()
    ensures ws[j].store.runs[r].commandIdentity == ws[i].store.runs[r].commandIdentity
    ensures ws[j].store.runs[r].startedAt == ws[i].store.runs[r].startedAt
  {
    TraceIsRunsLater(mode, ws, i, j);
    TraceKeepsRuns(mode, ws, i);
    assert RunSeen(ws[j].store, ws[i].store.runs[r]);
  }

  // ----- requests

  /** Some state of the run so far had run `r` CancelRequested. */
  ghost predicate WasRequested(ws: seq<World>, j: nat, r: RunId)
    requires j < |ws|
  {
    exists i :: 0 <= i <= j && RequestedIn(ws[i], r)
  }

  ghost predicate RequestedIn(w: World, r: RunId) {
    r in w.store.runs && w.store.runs[r].state.RunCancelRequested?
  }

  lemma NextRequests(mode: Mode, before: World, after: World, r: RunId)
    requires RunInv(before) && Next(mode, before, after)
    ensures r in after.requested <==> r in before.requested || RequestedIn(after, r)
  {
    NextRuns(mode, before, after);
    var e := EventBetween(mode, before, after);
    if e.Step? {
      var m := StepHasMove(before, e);
      hide Apply, Act, RunClientOk;
      if m.Request? { RequestedIsThere(before.store, after.store, m.r); }
    }
  }

  lemma {:induction false} RequestedMeansWasRequested(mode: Mode, ws: seq<World>, j: nat, r: RunId)
    requires Trace(mode, ws) && j < |ws|
    ensures r in ws[j].requested <==> WasRequested(ws, j, r)
    decreases j
  {
    hide Next, RunInv, RequestedIn;
    if j == 0 {
      NothingRequestedInitially(ws[0], r);
    } else {
      RequestedMeansWasRequested(mode, ws, j - 1, r);
      TraceKeepsRuns(mode, ws, j - 1);
      NextRequests(mode, ws[j - 1], ws[j], r);
    }
  }

  lemma NothingRequestedInitially(w: World, r: RunId)
    requires Initial(w)
    ensures r !in w.requested && !RequestedIn(w, r)
  {}
}
