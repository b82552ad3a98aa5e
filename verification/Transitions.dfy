/** The legal edges of jobs and runs (`src/domain/state.rs`, `src/domain/transition.rs`). */
module Transitions {
  import opened Wrappers

  datatype JobState =
    | Scheduled | Waiting | Starting | Running | CancelRequested
    | Succeeded | Failed | Cancelled | Interrupted | Missed
  {
    predicate IsTerminal() {
      Succeeded? || Failed? || Cancelled? || Interrupted? || Missed?
    }
  }

  datatype RunState =
    | RunStarting | RunRunning | RunCancelRequested
    | RunSucceeded | RunFailed | RunCancelled | RunInterrupted
  {
    predicate IsTerminal() {
      RunSucceeded? || RunFailed? || RunCancelled? || RunInterrupted?
    }
  }

  datatype Actor = Cli | Supervisor | Monitor

  datatype Transition<S> = Transition(from: S, to: S, actor: Actor, reason: string)

  datatype TransitionError = Illegal | InvalidReason | CancellationNotCommitted

  function Checked<S>(from: S, to: S, actor: Actor, reason: string, legal: bool)
    : (r: Result<Transition<S>, TransitionError>)
  {
    if !legal then Err(Illegal)
    else if reason == "" || '\0' in reason then Err(InvalidReason)
    else Ok(Transition(from, to, actor, reason))
  }

  /** Edges open to every job. */
  predicate OneShotLegal(from: JobState, to: JobState) {
    match from
    case Scheduled => to.Waiting? || to.CancelRequested? || to.Missed?
    case Waiting => to.Starting? || to.CancelRequested? || to.Missed?
    case Starting => to.Running? || to.Failed? || to.CancelRequested? || to.Interrupted?
    case Running => to.Succeeded? || to.Failed? || to.CancelRequested? || to.Interrupted?
    case CancelRequested => to.Cancelled? || to.Succeeded? || to.Failed? || to.Interrupted?
    case _ => false
  }

  /** Extra edges of a recurring job, all back to `Waiting`. */
  predicate RecurringLegal(from: JobState, to: JobState) {
    && to.Waiting?
    && (from.Starting? || from.Running? || from.Succeeded? || from.Failed?
        || from.Interrupted? || from.Missed?)
  }

  function JobTransition(from: JobState, to: JobState, recurring: bool, actor: Actor, reason: string)
    : (r: Result<Transition<JobState>, TransitionError>)
  {
    Checked(from, to, actor, reason, OneShotLegal(from, to) || (recurring && RecurringLegal(from, to)))
  }

  predicate RunLegal(from: RunState, to: RunState) {
    match from
    case RunStarting => to.RunRunning? || to.RunFailed? || to.RunCancelRequested? || to.RunInterrupted?
    case RunRunning => to.RunSucceeded? || to.RunFailed? || to.RunCancelRequested? || to.RunInterrupted?
    case RunCancelRequested => to.RunCancelled? || to.RunSucceeded? || to.RunFailed? || to.RunInterrupted?
    case _ => false
  }

  function RunTransition(from: RunState, to: RunState, actor: Actor, reason: string)
    : (r: Result<Transition<RunState>, TransitionError>)
  {
    Checked(from, to, actor, reason, RunLegal(from, to))
  }

  datatype Completion =
    | Exit(code: int) | Signal(number: int) | Failure | InterruptedByUnknown | TerminatedByCancellation

  function CompleteRun(current: RunState, completion: Completion): (r: Result<RunState, TransitionError>) {
    if completion.TerminatedByCancellation? && !current.RunCancelRequested? then
      Err(CancellationNotCommitted)
    else
      var target := match completion
        case Exit(code) => if code == 0 then RunSucceeded else RunFailed
        case Signal(_) => RunFailed
        case Failure => RunFailed
        case InterruptedByUnknown => RunInterrupted
        case TerminatedByCancellation => RunCancelled;
      match RunTransition(current, target, Monitor, "command completion")
      case Ok(t) => Ok(t.to)
      case Err(e) => Err(e)
  }

  // ----- facts about the tables

  predicate ValidReason(reason: string) {
    reason != "" && '\0' !in reason
  }

  /** The states from which each job state can be entered: the table read from its other side. */
  function JobSources(to: JobState, recurring: bool): (r: set<JobState>) {
    match to
    case Scheduled => {}
    case Waiting =>
      if recurring then {Scheduled, Starting, Running, Succeeded, Failed, Interrupted, Missed} else {Scheduled}
    case Starting => {Waiting}
    case Running => {Starting}
    case CancelRequested => {Scheduled, Waiting, Starting, Running}
    case Succeeded => {Running, CancelRequested}
    case Failed => {Starting, Running, CancelRequested}
    case Cancelled => {CancelRequested}
    case Interrupted => {Starting, Running, CancelRequested}
    case Missed => {Scheduled, Waiting}
  }

  /** Exactly which job edges are open, to whom, and which error meets the others first. */
  lemma JobEdgesAreExact(from: JobState, to: JobState, recurring: bool, actor: Actor, reason: string)
    ensures var r := JobTransition(from, to, recurring, actor, reason);
      && (r.Ok? <==> from in JobSources(to, recurring) && ValidReason(reason))
      && (r.Ok? ==> r.value == Transition(from, to, actor, reason))
      && (from !in JobSources(to, recurring) <==> r == Err(Illegal))
      && (from in JobSources(to, recurring) && !ValidReason(reason) <==> r == Err(InvalidReason))
  {}

  /** The same for runs. */
  function RunSources(to: RunState): (r: set<RunState>) {
    match to
    case RunStarting => {}
    case RunRunning => {RunStarting}
    case RunCancelRequested => {RunStarting, RunRunning}
    case RunSucceeded => {RunRunning, RunCancelRequested}
    case RunFailed => {RunStarting, RunRunning, RunCancelRequested}
    case RunCancelled => {RunCancelRequested}
    case RunInterrupted => {RunStarting, RunRunning, RunCancelRequested}
  }

  lemma RunEdgesAreExact(from: RunState, to: RunState, actor: Actor, reason: string)
    ensures var r := RunTransition(from, to, actor, reason);
      && (r.Ok? <==> from in RunSources(to) && ValidReason(reason))
      && (r.Ok? ==> r.value == Transition(from, to, actor, reason))
      && (from !in RunSources(to) <==> r == Err(Illegal))
      && (from in RunSources(to) && !ValidReason(reason) <==> r == Err(InvalidReason))
  {}

  /** Position of a job state along a one-shot life; every one-shot edge climbs it. */
  function Rank(s: JobState): (r: nat)
    ensures r <= 5
  {
    match s
    case Scheduled => 0
    case Waiting => 1
    case Starting => 2
    case Running => 3
    case CancelRequested => 4
    case _ => 5
  }

  lemma OneShotEdgesClimb(from: JobState, to: JobState)
    requires OneShotLegal(from, to)
    ensures Rank(from) < Rank(to)
    ensures !from.IsTerminal()
  {}

  /** How far a run has come; writers only ever move it forward. */
  predicate RunReaches(from: RunState, to: RunState) {
    || from == to
    || (from.RunStarting? && !to.RunStarting?)
    || (from.RunRunning? && (to.RunCancelRequested? || to.IsTerminal()))
    || (from.RunCancelRequested? && to.IsTerminal())
  }

  /** `RunReaches` is exactly "some chain of legal edges leads there". */
  least predicate LegalChain(from: RunState, to: RunState) {
    from == to || exists mid :: RunLegal(from, mid) && LegalChain(mid, to)
  }

  lemma ChainFromEdge(from: RunState, mid: RunState, to: RunState)
    requires RunLegal(from, mid) && LegalChain(mid, to)
    ensures LegalChain(from, to)
  {}

  least lemma ChainReaches(from: RunState, to: RunState)
    requires LegalChain(from, to)
    ensures RunReaches(from, to)
  {
    if from != to {
      var mid :| RunLegal(from, mid) && LegalChain(mid, to);
      ChainReaches(mid, to);
    }
  }

  lemma ReachesIsChain(from: RunState, to: RunState)
    ensures RunReaches(from, to) <==> LegalChain(from, to)
  {
    if RunReaches(from, to) && from != to {
      assert LegalChain(to, to);
      if RunLegal(from, to) {
        ChainFromEdge(from, to, to);
      } else {
        var mid := if from.RunStarting? && to.RunSucceeded? then RunRunning else RunCancelRequested;
        ChainFromEdge(mid, to, to);
        ChainFromEdge(from, mid, to);
      }
    }
    if LegalChain(from, to) { ChainReaches(from, to); }
  }

  /** A terminal target that was legal from an older, still unfinished state of the run stays
      legal from any later unfinished state: validating against a stale row is safe. */
  lemma StaleTerminalTargetStaysLegal(seen: RunState, current: RunState, target: RunState)
    requires RunReaches(seen, current) && !current.IsTerminal()
    requires target.IsTerminal() && RunLegal(seen, target)
    ensures RunLegal(current, target)
  {}
}
