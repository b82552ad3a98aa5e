/** How the canceller signals a command group (`src/infrastructure/process/cancel.rs`). */
module Signalling {
  import opened Wrappers
  import opened Primitives
  import opened Jobs
  import opened Runs
  import opened Store
  import opened Protocol
  import opened Programs
  import Group = GroupCancellation

  lemma CanActs(s: StoreState, c: Client, oracle: Oracle, s0: StoreState, c0: Client, n: nat, deeds: seq<Deed>)
    requires Solo(s0, c0, oracle, n) == Place(s, Some(c), deeds) && !IsSupervisor(c) && !IsMonitor(c)
    ensures var e := CanStep(s, c, oracle(c));
      && Solo(s0, c0, oracle, n + 1) == Place(e.store, e.next, deeds + Deeds(e))
      && (Deeds(e) == [] ==> Solo(s0, c0, oracle, n + 1) == Place(e.store, e.next, deeds))
  {
    ActOf(s, c, oracle(c));
    hide Act, CanStep, Solo, Deeds;
    Onward(s0, c0, oracle, n, s, c, deeds);
  }

  /** The answers that an oracle gives to one group cancellation with at most `looks` looks in the
      grace loop. */
  function PollsFrom(job: JobSnapshot, run: Run, oracle: Oracle, deadline: nat, look: nat, looks: nat)
    : (r: seq<Group.Poll>)
    decreases looks
  {
    if looks == 0 then []
    else
      var ch := oracle(CanGrace(job, run, deadline, look));
      [Group.Poll(ch.inspection, ch.instant, ch.again)] + PollsFrom(job, run, oracle, deadline, look + 1, looks - 1)
  }

  function AnswersFrom(job: JobSnapshot, run: Run, oracle: Oracle, looks: nat): (r: Group.Answers) {
    var term := oracle(CanTerm(job, run));
    Group.Answers(
      oracle(CanSignal(job, run)).inspection, term.answer, term.instant,
      PollsFrom(job, run, oracle, term.instant + term.grace, 0, looks),
      oracle(CanLastLook(job, run)).inspection, oracle(CanKill(job, run)).answer)
  }

  /** Where a canceller stands after its group cancellation: waiting for the run, done after an
      error, or still in the grace loop when the looks ran out. */
  function StandsAfter(outcome: Group.Outcome, job: JobSnapshot, run: Run, deadline: nat, looks: nat)
    : (r: Option<Client>)
  {
    match outcome
    case Done(_) => Some(CanPoll(job, run.id))
    case Failed(_) => None
    case Waiting => Some(CanGrace(job, run, deadline, looks))
  }

  function SentBy(e: Group.Event, run: RunId): (r: seq<Deed>) {
    if e == Group.Term(Group.Delivered) then [DidSignal(Sent(run, false))]
    else if e == Group.Kill(Group.Delivered) then [DidSignal(Sent(run, true))]
    else []
  }

  /** The delivered signals of a record. */
  function SentIn(log: seq<Group.Event>, run: RunId): (r: seq<Deed>)
    decreases |log|
  {
    if log == [] then [] else SentBy(log[0], run) + SentIn(log[1..], run)
  }

  lemma SentShort(a: Group.Event, b: Group.Event, run: RunId)
    ensures SentIn([a], run) == SentBy(a, run)
    ensures SentIn([a, b], run) == SentBy(a, run) + SentBy(b, run)
  {
    hide SentBy;
    assert [a][1..] == [] && [b][1..] == [] && [a, b][1..] == [b];
    assert SentIn([b], run) == SentBy(b, run);
  }

  lemma {:induction false} SentJoins(a: seq<Group.Event>, b: seq<Group.Event>, run: RunId)
    ensures SentIn(a + b, run) == SentIn(a, run) + SentIn(b, run)
    decreases |a|
  {
    if a == [] {
      assert a + b == b;
    } else {
      assert (a + b)[1..] == a[1..] + b;
      SentJoins(a[1..], b, run);
    }
  }

  lemma {:induction false} WatchingSendsNothing(events: seq<Group.Event>, run: RunId)
    requires Group.OnlyWatches(events)
    ensures SentIn(events, run) == []
    decreases |events|
  {
    if events != [] {
      assert events[0].Asked? || events[0].Clock?;
      assert forall i | 0 <= i < |events[1..]| :: events[1..][i] == events[i + 1];
      WatchingSendsNothing(events[1..], run);
    }
  }

  /** One look of the grace loop. */
  lemma GraceLook(s: StoreState, job: JobSnapshot, run: Run, oracle: Oracle, deadline: nat, look: nat)
    ensures var ch := oracle(CanGrace(job, run, deadline, look));
      Solo(s, CanGrace(job, run, deadline, look), oracle, 1)
      == Place(s, if ch.inspection.InspectionFailed? then None
                  else if !ch.inspection.Alive? then Some(CanPoll(job, run.id))
                  else if ch.instant >= deadline then Some(CanLastLook(job, run))
                  else Some(CanGrace(job, run, deadline, look + 1)), [])
  {
    var c := CanGrace(job, run, deadline, look);
    OneStep(s, c, oracle);
    ActOf(s, c, oracle(c));
    hide Solo, Act;
  }

  /** The verdict, one look at a time. */
  lemma GraceUnfolds(job: JobSnapshot, run: Run, oracle: Oracle, deadline: nat, look: nat, looks: nat)
    requires looks > 0
    ensures var ch := oracle(CanGrace(job, run, deadline, look));
      var polls := PollsFrom(job, run, oracle, deadline, look, looks);
      Group.Grace(polls, deadline).0
      == match ch.inspection
         case InspectionFailed => Some(Group.Failed(Group.Inspecting))
         case Dead => Some(Group.Done(Group.TerminatedDuringGrace))
         case Reused => Some(Group.Done(Group.IdentityChanged))
         case Alive =>
           if ch.instant >= deadline then None
           else Group.Grace(PollsFrom(job, run, oracle, deadline, look + 1, looks - 1), deadline).0
  {
    var polls := PollsFrom(job, run, oracle, deadline, look, looks);
    assert polls[1..] == PollsFrom(job, run, oracle, deadline, look + 1, looks - 1);
  }

  lemma NoLooks(job: JobSnapshot, run: Run, oracle: Oracle, deadline: nat, look: nat)
    ensures Group.Grace(PollsFrom(job, run, oracle, deadline, look, 0), deadline).0 == Some(Group.Waiting)
  {}

  function AfterGrace(verdict: Option<Group.Outcome>, job: JobSnapshot, run: Run, deadline: nat, looks: nat)
    : (r: Option<Client>)
  {
    if verdict.None? then Some(CanLastLook(job, run)) else StandsAfter(verdict.value, job, run, deadline, looks)
  }

  /** The grace loop of a canceller that runs alone is the grace loop of the call. */
  lemma {:induction false} GraceAlone(s: StoreState, job: JobSnapshot, run: Run, oracle: Oracle, deadline: nat,
                                      look: nat, looks: nat)
    returns (steps: nat)
    ensures var verdict := Group.Grace(PollsFrom(job, run, oracle, deadline, look, looks), deadline).0;
      Solo(s, CanGrace(job, run, deadline, look), oracle, steps)
      == Place(s, AfterGrace(verdict, job, run, deadline, look + looks), [])
    decreases looks
  {
    hide Solo, Act, Group.Grace, PollsFrom;
    var c := CanGrace(job, run, deadline, look);
    if looks == 0 {
      NoStep(s, c, oracle);
      NoLooks(job, run, oracle, deadline, look);
      steps := 0;
    } else {
      GraceLook(s, job, run, oracle, deadline, look);
      GraceUnfolds(job, run, oracle, deadline, look, looks);
      steps := 1;
      if oracle(c).inspection.Alive? && oracle(c).instant < deadline {
        var more := GraceAlone(s, job, run, oracle, deadline, look + 1, looks - 1);
        SoloJoins(s, c, oracle, 1, more);
        steps := 1 + more;
      }
    }
  }

  /** What a record of the call delivers, part by part. */
  lemma RecordSends(answers: Group.Answers, group: int, grace: nat, run: RunId)
    ensures var log := Group.Conduct(answers, group, grace).1;
      SentIn(log, run)
      == if !answers.first.Alive? || group == 0 || !answers.term.Delivered? then []
         else if answers.start + grace > Group.INSTANT_MAX || Group.Grace(answers.polls, answers.start + grace).0.Some?
         then [DidSignal(Sent(run, false))]
         else [DidSignal(Sent(run, false))] + SentIn(Group.Finale(answers).1, run)
  {
    hide SentIn, Group.Grace, Group.Finale, Group.GraceRule;
    var asked, term, clock := Group.Asked(answers.first), Group.Term(answers.term), Group.Clock(answers.start);
    SentShort(asked, term, run);
    SentShort(clock, clock, run);
    SentJoins([asked, term], [clock], run);
    assert [asked] + [term] == [asked, term] && [asked, term] + [clock] == [asked, term, clock];
    if answers.first.Alive? && group != 0 && answers.term.Delivered? && answers.start + grace <= Group.INSTANT_MAX {
      var events, rest := Group.Grace(answers.polls, answers.start + grace).1, Group.Finale(answers).1;
      GraceSendsNothing(answers.polls, answers.start + grace, run);
      SentJoins(Group.Opening(answers.start), events, run);
      SentJoins(Group.Opening(answers.start) + events, rest, run);
    }
  }

  lemma GraceSendsNothing(polls: seq<Group.Poll>, deadline: nat, run: RunId)
    ensures SentIn(Group.Grace(polls, deadline).1, run) == []
  {
    Group.GraceIsLawful(polls, deadline);
    WatchingSendsNothing(Group.Grace(polls, deadline).1, run);
  }

  /** The whole group cancellation of a canceller that runs alone is the call itself: same result,
      and exactly the delivered signals of its record. */
  lemma GroupAlone(s: StoreState, job: JobSnapshot, run: Run, oracle: Oracle, looks: nat) returns (steps: nat)
    requires run.commandIdentity.Some?
    ensures var term := oracle(CanTerm(job, run));
      var (outcome, log) :=
        Group.Conduct(AnswersFrom(job, run, oracle, looks), run.commandIdentity.value.processGroupId, term.grace);
      Solo(s, CanSignal(job, run), oracle, steps)
      == Place(s, StandsAfter(outcome, job, run, term.instant + term.grace, looks), SentIn(log, run.id))
  {
    hide Solo, Act, Group.Grace, PollsFrom, Group.Finale, SentIn;
    var c, term := CanSignal(job, run), oracle(CanTerm(job, run));
    var group := run.commandIdentity.value.processGroupId;
    RecordSends(AnswersFrom(job, run, oracle, looks), group, term.grace, run.id);
    FirstLook(s, job, run, oracle);
    steps := 1;
    if oracle(c).inspection.Alive? && group != 0 {
      TermStep(s, job, run, oracle);
      SoloJoins(s, c, oracle, 1, 1);
      steps := 2;
      if term.answer.Delivered? && term.instant + term.grace <= Group.INSTANT_MAX {
        var more := AfterTermAlone(s, job, run, oracle, looks);
        SoloJoins(s, c, oracle, 2, more);
        steps := 2 + more;
      }
    }
  }

  lemma FirstLook(s: StoreState, job: JobSnapshot, run: Run, oracle: Oracle)
    requires run.commandIdentity.Some?
    ensures var ch := oracle(CanSignal(job, run));
      Solo(s, CanSignal(job, run), oracle, 1)
      == Place(s, if ch.inspection.InspectionFailed? then None
                  else if !ch.inspection.Alive? then Some(CanPoll(job, run.id))
                  else if run.commandIdentity.value.processGroupId == 0 then None
                  else Some(CanTerm(job, run)), [])
  {
    var c := CanSignal(job, run);
    OneStep(s, c, oracle);
    ActOf(s, c, oracle(c));
    hide Solo, Act;
  }

  lemma TermStep(s: StoreState, job: JobSnapshot, run: Run, oracle: Oracle)
    ensures var ch := oracle(CanTerm(job, run));
      Solo(s, CanTerm(job, run), oracle, 1)
      == match ch.answer
         case NoSuchProcess => Place(s, Some(CanPoll(job, run.id)), [])
         case Refused(_) => Place(s, None, [])
         case Delivered =>
           Place(s, if ch.instant + ch.grace > Group.INSTANT_MAX then None
                 else Some(CanGrace(job, run, ch.instant + ch.grace, 0)),
                 [DidSignal(Sent(run.id, false))])
  {
    var c := CanTerm(job, run);
    OneStep(s, c, oracle);
    ActOf(s, c, oracle(c));
    hide Solo, Act;
  }

  /** The grace loop and what follows it. */
  lemma AfterTermAlone(s: StoreState, job: JobSnapshot, run: Run, oracle: Oracle, looks: nat) returns (steps: nat)
    ensures var term := oracle(CanTerm(job, run));
      var deadline, answers := term.instant + term.grace, AnswersFrom(job, run, oracle, looks);
      var (verdict, events) := Group.Grace(answers.polls, deadline);
      Solo(s, CanGrace(job, run, deadline, 0), oracle, steps)
      == if verdict.Some? then Place(s, StandsAfter(verdict.value, job, run, deadline, looks), [])
         else Place(s, StandsAfter(Group.Finale(answers).0, job, run, deadline, looks),
                    SentIn(Group.Finale(answers).1, run.id))
  {
    hide Solo, Act, Group.Grace, PollsFrom;
    var term := oracle(CanTerm(job, run));
    var deadline := term.instant + term.grace;
    steps := GraceAlone(s, job, run, oracle, deadline, 0, looks);
    if Group.Grace(AnswersFrom(job, run, oracle, looks).polls, deadline).0.None? {
      var more := FinaleAlone(s, job, run, oracle, looks, deadline);
      SoloJoins(s, CanGrace(job, run, deadline, 0), oracle, steps, more);
      steps := steps + more;
    }
  }

  lemma FinaleAlone(s: StoreState, job: JobSnapshot, run: Run, oracle: Oracle, looks: nat, deadline: nat)
    returns (steps: nat)
    ensures var (outcome, events) := Group.Finale(AnswersFrom(job, run, oracle, looks));
      Solo(s, CanLastLook(job, run), oracle, steps)
      == Place(s, StandsAfter(outcome, job, run, deadline, looks), SentIn(events, run.id))
  {
    hide Solo, Act, PollsFrom, SentIn;
    var c, d := CanLastLook(job, run), CanKill(job, run);
    LastLook(s, job, run, oracle);
    SentShort(Group.Asked(oracle(c).inspection), Group.Kill(oracle(d).answer), run.id);
    steps := 1;
    if oracle(c).inspection.Alive? {
      KillStep(s, job, run, oracle);
      SoloJoins(s, c, oracle, 1, 1);
      steps := 2;
    }
  }

  lemma LastLook(s: StoreState, job: JobSnapshot, run: Run, oracle: Oracle)
    ensures var ch := oracle(CanLastLook(job, run));
      Solo(s, CanLastLook(job, run), oracle, 1)
      == Place(s, if ch.inspection.InspectionFailed? then None
                  else if !ch.inspection.Alive? then Some(CanPoll(job, run.id))
                  else Some(CanKill(job, run)), [])
  {
    var c := CanLastLook(job, run);
    OneStep(s, c, oracle);
    ActOf(s, c, oracle(c));
    hide Solo, Act;
  }

  lemma KillStep(s: StoreState, job: JobSnapshot, run: Run, oracle: Oracle)
    ensures Solo(s, CanKill(job, run), oracle, 1)
         == match oracle(CanKill(job, run)).answer
            case NoSuchProcess => Place(s, Some(CanPoll(job, run.id)), [])
            case Refused(_) => Place(s, None, [])
            case Delivered => Place(s, Some(CanPoll(job, run.id)), [DidSignal(Sent(run.id, true))])
  {
    var c := CanKill(job, run);
    OneStep(s, c, oracle);
    ActOf(s, c, oracle(c));
    hide Solo, Act;
  }

  lemma {:induction false} RecordsOnlySignals(log: seq<Group.Event>, run: RunId)
    ensures forall d | d in SentIn(log, run) :: d.DidSignal? && d.sent.run == run
    decreases |log|
  {
    if log != [] { RecordsOnlySignals(log[1..], run); }
  }

  /** Signals the command group of a run, by `cancel_validated_group`. */
  method SignalGroup(store: JobStore, job: JobSnapshot, run: Run, oracle: Oracle, looks: nat)
    returns (r: Option<Client>, ghost steps: nat, ghost deeds: seq<Deed>)
    requires run.commandIdentity.Some?
    ensures Solo(store.State(), CanSignal(job, run), oracle, steps) == Place(store.State(), r, deeds)
    ensures r.None? || r.value == CanPoll(job, run.id) || r.value.CanGrace?
    ensures forall d | d in deeds :: d.DidSignal? && d.sent.run == run.id
  {
    hide Solo, Group.Conduct, SentIn, AnswersFrom;
    var term := oracle(CanTerm(job, run));
    var answers := AnswersFrom(job, run, oracle, looks);
    var outcome, log := Group.CancelValidatedGroup(answers, run.commandIdentity.value.processGroupId, term.grace);
    steps := GroupAlone(store.State(), job, run, oracle, looks);
    r := StandsAfter(outcome, job, run, term.instant + term.grace, looks);
    deeds := SentIn(log, run.id);
    RecordsOnlySignals(log, run.id);
  }
}
