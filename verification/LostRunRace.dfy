/** Two runs of the system in which a cancellation loses a run, and with them the exact condition. */
module LostRunRace {
  import opened Wrappers
  import opened Primitives
  import opened Transitions
  import opened Jobs
  import opened Runs
  import opened Store
  import opened Protocol
  import opened RunMoves
  import opened SignalRace
  import LostRuns

  /** The store after a job step of one of the programs below. */
  function Stepped(s: StoreState, state: JobState, revision: Counter, to: JobState, actor: Actor, reason: Reason)
    : (r: StoreState)
    requires revision < 100
  {
    Committed(s, JobAt(to, revision + 1), state, actor, reason.Text())
  }

  lemma Steps(s: StoreState, state: JobState, revision: Counter, to: JobState, actor: Actor, reason: Reason)
    requires 4 in s.jobs && s.jobs[4] == JobAt(state, revision) && revision < 100 && state in JobSources(to, false)
    ensures JobTransitioned(s, 4, revision, to, false, actor, reason.Text(), 0)
         == (Stepped(s, state, revision, to, actor, reason), Ok(JobAt(to, revision + 1)))
  {
    ReasonIsValid(reason);
    TransitionIsExact(s, 4, revision, to, false, actor, reason.Text(), 0);
    hide JobTransitioned, Reason.Text, ValidReason, JobSources, Committed;
  }

  lemma SteppedRows(s: StoreState, state: JobState, revision: Counter, to: JobState, actor: Actor, reason: Reason)
    requires revision < 100
    ensures var s' := Stepped(s, state, revision, to, actor, reason);
      && s'.runs == s.runs && 4 in s'.jobs && s'.jobs[4] == JobAt(to, revision + 1)
      && HistoryOf(s', 4) == HistoryOf(s, 4) + [HistoryRow(state, to, 0, actor, reason.Text(), revision + 1)]
  {
    hide Reason.Text;
  }

  // ----- the canceller looks too early

  lemma CancellerFindsNoRun(s: StoreState)
    requires 4 in s.jobs && s.jobs[4] == JobAt(Starting, 3) && s.runs == map[]
    ensures Act(s, CanResolve(4), Later(true)) == Go(s, CanActive(JobAt(Starting, 3)))
    ensures Act(s, CanActive(JobAt(Starting, 3)), Later(true)) == Go(s, CanRequest(JobAt(Starting, 3), None, 8))
  {
    ActOf(s, CanResolve(4), Later(true));
    ActOf(s, CanActive(JobAt(Starting, 3)), Later(true));
    hide Act;
  }

  /** The job is about to be claimed and the canceller has found no run; then the claim goes through. */
  lemma ClaimComesLate(mode: Mode) returns (w: World)
    ensures Quiet(mode, w)
    ensures w.clients
         == map[1 := DueRunning(JobAt(Starting, 3), CLAIMED, 0), 2 := CanRequest(JobAt(Starting, 3), None, 8)]
    ensures 4 in w.store.jobs && w.store.jobs[4] == JobAt(Starting, 3) && w.store.runs == map[5 := CLAIMED]
  {
    hide Act, Quiet;
    w := JobIsStarted(mode);
    w := Join(mode, w, 2, CanResolve(4));
    CancellerFindsNoRun(w.store);
    w := Walk(mode, w, 2, true, w.store, CanActive(JobAt(Starting, 3)));
    w := Walk(mode, w, 2, true, w.store, CanRequest(JobAt(Starting, 3), None, 8));
    ClaimsFirstRun(w.store);
    w := Walk(mode, w, 1, true, w.store.(runs := map[5 := CLAIMED]), DueRunning(JobAt(Starting, 3), CLAIMED, 0));
    assert w.clients
        == map[1 := DueRunning(JobAt(Starting, 3), CLAIMED, 0), 2 := CanRequest(JobAt(Starting, 3), None, 8)];
  }

  /** Meanwhile the supervisor goes on to Running, and the canceller's request is refused once. */
  lemma RequestIsRefused(s: StoreState)
    requires 4 in s.jobs && s.jobs[4] == JobAt(Running, 4)
    ensures Act(s, CanRequest(JobAt(Starting, 3), None, 8), Later(true))
         == Go(s, CanReload(JobAt(Starting, 3), None, 7))
  {
    TransitionIsExact(s, 4, 3, CancelRequested, false, Cli, CancelAsked.Text(), 0);
    ActOf(s, CanRequest(JobAt(Starting, 3), None, 8), Later(true));
    hide Act, JobTransitioned, Reason.Text, CanMove, CanTransition;
  }

  lemma JobIsReloaded(s: StoreState)
    requires 4 in s.jobs && s.jobs[4] == JobAt(Running, 4)
    ensures Act(s, CanReload(JobAt(Starting, 3), None, 7), Later(true))
         == Go(s, CanRequest(JobAt(Running, 4), None, 7))
  {
    ActOf(s, CanReload(JobAt(Starting, 3), None, 7), Later(true));
    hide Act;
  }

  lemma SupervisorGoesOn(mode: Mode) returns (w: World)
    ensures Quiet(mode, w) && 2 in w.clients && w.clients[2] == CanRequest(JobAt(Running, 4), None, 7)
    ensures 4 in w.store.jobs && w.store.jobs[4] == JobAt(Running, 4) && w.store.runs == map[5 := CLAIMED]
  {
    hide Act, Quiet, JobTransitioned, Reason.Text;
    w := ClaimComesLate(mode);
    CommitsRunning(w.store);
    w := WalkJob(mode, w, 1, Starting, 3, Running, Supervisor, MonitorClaimed, DueSpawn(JobAt(Running, 4), CLAIMED));
    RequestIsRefused(w.store);
    JobIsReloaded(w.store);
    w := Walk(mode, w, 2, true, w.store, CanReload(JobAt(Starting, 3), None, 7));
    w := Walk(mode, w, 2, true, w.store, CanRequest(JobAt(Running, 4), None, 7));
  }

  // ----- and closes the job

  lemma RequestGoesThrough(s: StoreState, state: JobState, revision: Counter, left: nat)
    requires 4 in s.jobs && s.jobs[4] == JobAt(state, revision) && revision < 99 && left > 0
    requires state.Starting? || state.Running?
    ensures Act(s, CanRequest(JobAt(state, revision), None, left), Later(true))
         == Go(Stepped(s, state, revision, CancelRequested, Cli, CancelAsked),
               CanNoRun(JobAt(CancelRequested, revision + 1), 0))
  {
    Steps(s, state, revision, CancelRequested, Cli, CancelAsked);
    ActOf(s, CanRequest(JobAt(state, revision), None, left), Later(true));
    hide Act, JobTransitioned, Reason.Text, Stepped;
  }

  lemma CloseGoesThrough(s: StoreState, revision: Counter)
    requires 4 in s.jobs && s.jobs[4] == JobAt(CancelRequested, revision) && revision < 100
    ensures Act(s, CanNoRun(JobAt(CancelRequested, revision), 0), Later(true))
         == Quit(Stepped(s, CancelRequested, revision, JobState.Cancelled, Cli, CancelledEarly))
  {
    Steps(s, CancelRequested, revision, JobState.Cancelled, Cli, CancelledEarly);
    ActOf(s, CanNoRun(JobAt(CancelRequested, revision), 0), Later(true));
    hide Act, JobTransitioned, Reason.Text, Stepped;
  }

  lemma LastStep(mode: Mode, w: World, client: ClientId, store: StoreState) returns (after: World)
    requires Quiet(mode, w) && client in w.clients && !w.clients[client].MonWait?
    requires Act(w.store, w.clients[client], Later(true)) == Quit(store)
    ensures Reached(mode, after) && after.store == store
  {
    hide Act, Initial, Reached;
    after := Apply(w, Step(client, Later(true), 9));
    ReachesNext(mode, w, Step(client, Later(true), 9));
  }

  lemma CancellerCloses(mode: Mode, w: World, state: JobState, revision: Counter, left: nat) returns (after: World)
    requires Quiet(mode, w) && 2 in w.clients && w.clients[2] == CanRequest(JobAt(state, revision), None, left)
    requires 4 in w.store.jobs && w.store.jobs[4] == JobAt(state, revision) && revision < 90 && left > 0
    requires w.store.runs == map[5 := CLAIMED] && (state.Starting? || state.Running?)
    ensures Reached(mode, after) && LostRuns.Lost(after.store, 4, 5, state)
  {
    var s := w.store;
    var asked := Stepped(s, state, revision, CancelRequested, Cli, CancelAsked);
    var closed := Stepped(asked, CancelRequested, revision + 1, JobState.Cancelled, Cli, CancelledEarly);
    RequestGoesThrough(s, state, revision, left);
    SteppedRows(s, state, revision, CancelRequested, Cli, CancelAsked);
    CloseGoesThrough(asked, revision + 1);
    SteppedRows(asked, CancelRequested, revision + 1, JobState.Cancelled, Cli, CancelledEarly);
    ClosedIsLost(s, asked, closed, state, revision);
    hide Act, Quiet, Reached, Stepped, Reason.Text, LostRuns.Lost;
    var requested := Walk(mode, w, 2, true, asked, CanNoRun(JobAt(CancelRequested, revision + 1), 0));
    after := LastStep(mode, requested, 2, closed);
  }

  lemma ClosedIsLost(s: StoreState, asked: StoreState, closed: StoreState, state: JobState, revision: Counter)
    requires revision < 90 && s.runs == map[5 := CLAIMED]
    requires asked == Stepped(s, state, revision, CancelRequested, Cli, CancelAsked)
    requires closed == Stepped(asked, CancelRequested, revision + 1, JobState.Cancelled, Cli, CancelledEarly)
    ensures LostRuns.Lost(closed, 4, 5, state)
  {
    SteppedRows(s, state, revision, CancelRequested, Cli, CancelAsked);
    SteppedRows(asked, CancelRequested, revision + 1, JobState.Cancelled, Cli, CancelledEarly);
    LostRuns.TextOfEarly();
    hide Stepped, Reason.Text;
    var rows := HistoryOf(closed, 4);
    assert rows[|rows| - 1].reason == CancelledEarly.Text() && rows[|rows| - 1].to.Cancelled?;
    assert rows[|rows| - 2] == HistoryRow(state, CancelRequested, 0, Cli, CancelAsked.Text(), revision + 1);
  }

  // ----- the exact condition

  /** A request made in this state can lose a run: at some moment of some run of the system. */
  ghost predicate LosesRun(mode: Mode, from: JobState) {
    exists w: World, id: JobId, r: RunId :: Reached(mode, w) && LostRuns.Lost(w.store, id, r, from)
  }

  lemma LateClaimIsLost(mode: Mode)
    ensures LosesRun(mode, Starting) && LosesRun(mode, Running)
  {
    hide Quiet, Reached, LostRuns.Lost;
    var w := ClaimComesLate(mode);
    w := CancellerCloses(mode, w, Starting, 3, 8);
    var v := SupervisorGoesOn(mode);
    v := CancellerCloses(mode, v, Running, 4, 7);
  }

  lemma LossIsLate(mode: Mode, w: World, id: JobId, r: RunId, from: JobState)
    requires Reached(mode, w) && LostRuns.Lost(w.store, id, r, from)
    ensures from.Starting? || from.Running?
  {
    hide Trace, LostRuns.ClosedEarly, HistoryOf;
    var ws :| |ws| > 0 && Trace(mode, ws) && ws[|ws| - 1] == w;
    var found := LostRuns.OnlyEarlyCancelLosesRuns(mode, ws, |ws| - 1, id, r);
  }

  /** A canceller that found no active run loses one exactly if it asks for the job in Starting or Running.
      In these two states that has happened in some run of the system, in every mode, even with a steady
      clock, reliable waits and no monitor started by hand. In every other state it never happens. */
  lemma RunsAreLostExactly(mode: Mode, from: JobState)
    ensures LosesRun(mode, from) <==> from.Starting? || from.Running?
  {
    hide Reached, LostRuns.Lost;
    LateClaimIsLost(mode);
    if LosesRun(mode, from) {
      var w: World, id: JobId, r: RunId :| Reached(mode, w) && LostRuns.Lost(w.store, id, r, from);
      LossIsLate(mode, w, id, r, from);
    }
  }
}
