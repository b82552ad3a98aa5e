/** TERM, a grace interval, then KILL (`src/infrastructure/process/cancel.rs`). */
module GroupCancellation {
  import opened Wrappers
  import opened Primitives

  // The range of the monotonic clock is the platform's; the model takes 64-bit nanoseconds.
  const INSTANT_MAX: int := U64_MAX

  datatype Inspection = Alive | Dead | Reused | InspectionFailed

  datatype SignalAnswer = Delivered | NoSuchProcess | Refused(errno: int)

  datatype CancellationResult = AlreadyDead | IdentityChanged | TerminatedDuringGrace | KilledAfterGrace

  datatype CancellationError = Inspecting | InvalidProcessGroup | InvalidGrace | Signalling(errno: int)

  /** `Waiting` means that the script of polls ended inside the grace loop. */
  datatype Outcome = Done(result: CancellationResult) | Failed(error: CancellationError) | Waiting

  /** One turn of the grace loop: the inspector's answer and two clock readings. */
  datatype Poll = Poll(inspection: Inspection, now: nat, again: nat)

  /** Every answer the system gives, in order. None of them is restricted in any way. */
  datatype Answers = Answers(
    first: Inspection, term: SignalAnswer, start: nat, polls: seq<Poll>, last: Inspection, kill: SignalAnswer)

  datatype Event =
    | Asked(inspection: Inspection) | Term(answer: SignalAnswer) | Clock(now: nat) | Kill(answer: SignalAnswer)

  // ----- what any record of events must satisfy

  /** TERM is sent only right after the opening inspection found the group alive. */
  predicate TermRule(log: seq<Event>) {
    forall i | 0 <= i < |log| :: log[i].Term? ==> i == 1 && log[0] == Asked(Alive)
  }

  predicate GraceIsOver(log: seq<Event>, grace: nat, i: int) {
    && 2 < i < |log| && log[2].Clock? && log[i].Clock? && log[i].now >= log[2].now + grace
  }

  /** KILL comes last, right after a fresh "alive", after a delivered TERM and after a reading of the
      clock that is past the deadline. */
  ghost predicate KillRule(log: seq<Event>, grace: nat) {
    forall i | 0 <= i < |log| :: log[i].Kill? ==>
      && i == |log| - 1 && i > 2 && log[i - 1] == Asked(Alive) && log[1] == Term(Delivered)
      && exists j :: j < i - 1 && GraceIsOver(log, grace, j)
  }

  /** Nothing at all follows an answer other than "alive". */
  predicate NothingAfterChange(log: seq<Event>) {
    forall i | 0 <= i < |log| :: log[i].Asked? && !log[i].inspection.Alive? ==> i == |log| - 1
  }

  predicate WasDelivered(log: seq<Event>) {
    exists i | 0 <= i < |log| :: log[i] == Term(Delivered) || log[i] == Kill(Delivered)
  }

  /** What each outcome says about the record: exactly when it is reported. */
  predicate OutcomeRule(log: seq<Event>, group: int, grace: nat, outcome: Outcome) {
    && |log| > 0
    && var end := log[|log| - 1];
      && (outcome == Done(AlreadyDead) <==> !WasDelivered(log) && (end == Asked(Dead) || end == Term(NoSuchProcess)))
      && (outcome == Done(IdentityChanged) <==> end == Asked(Reused))
      && (outcome == Done(TerminatedDuringGrace)
          <==> WasDelivered(log) && (end == Asked(Dead) || end == Kill(NoSuchProcess)))
      && (outcome == Done(KilledAfterGrace) <==> end == Kill(Delivered))
      && (outcome == Failed(Inspecting) <==> end == Asked(InspectionFailed))
      && (outcome == Failed(InvalidProcessGroup) <==> group == 0 && log == [Asked(Alive)])
      && (outcome == Failed(InvalidGrace) <==> |log| == 3 && end.Clock? && end.now + grace > INSTANT_MAX)
      && (outcome.Failed? && outcome.error.Signalling? ==>
            end == Term(Refused(outcome.error.errno)) || end == Kill(Refused(outcome.error.errno)))
      && (outcome.Waiting? ==> |log| >= 3 && log[1] == Term(Delivered))
      && ((end.Term? || end.Kill?) && end.answer.Refused? ==> outcome == Failed(Signalling(end.answer.errno)))
  }

  // ----- the call as a function of the answers

  /** What the grace loop sees and says; no verdict means that the interval is over. */
  function Grace(polls: seq<Poll>, deadline: nat): (r: (Option<Outcome>, seq<Event>))
    decreases |polls|
  {
    if polls == [] then (Some(Waiting), [])
    else
      var poll := polls[0];
      var seen := Asked(poll.inspection);
      match poll.inspection
      case InspectionFailed => (Some(Failed(Inspecting)), [seen])
      case Dead => (Some(Done(TerminatedDuringGrace)), [seen])
      case Reused => (Some(Done(IdentityChanged)), [seen])
      case Alive =>
        if poll.now >= deadline then (None, [seen, Clock(poll.now)])
        else
          var (verdict, events) := Grace(polls[1..], deadline);
          (verdict, [seen, Clock(poll.now), Clock(poll.again)] + events)
  }

  /** The last look and the KILL. */
  function Finale(answers: Answers): (r: (Outcome, seq<Event>)) {
    match answers.last
    case InspectionFailed => (Failed(Inspecting), [Asked(answers.last)])
    case Dead => (Done(TerminatedDuringGrace), [Asked(answers.last)])
    case Reused => (Done(IdentityChanged), [Asked(answers.last)])
    case Alive =>
      var events := [Asked(answers.last), Kill(answers.kill)];
      match answers.kill
      case Delivered => (Done(KilledAfterGrace), events)
      case NoSuchProcess => (Done(TerminatedDuringGrace), events)
      case Refused(errno) => (Failed(Signalling(errno)), events)
  }

  function Conduct(answers: Answers, group: int, grace: nat): (r: (Outcome, seq<Event>)) {
    var asked := [Asked(answers.first)];
    match answers.first
    case InspectionFailed => (Failed(Inspecting), asked)
    case Dead => (Done(AlreadyDead), asked)
    case Reused => (Done(IdentityChanged), asked)
    case Alive =>
      if group == 0 then (Failed(InvalidProcessGroup), asked)
      else
        var sent := asked + [Term(answers.term)];
        match answers.term
        case NoSuchProcess => (Done(AlreadyDead), sent)
        case Refused(errno) => (Failed(Signalling(errno)), sent)
        case Delivered =>
          if answers.start + grace > INSTANT_MAX then (Failed(InvalidGrace), sent + [Clock(answers.start)])
          else
            var (verdict, events) := Grace(answers.polls, answers.start + grace);
            var log := Opening(answers.start) + events;
            if verdict.Some? then (verdict.value, log)
            else var (outcome, rest) := Finale(answers); (outcome, log + rest)
  }

  /** Only answers of the inspector and readings of the clock. */
  predicate OnlyWatches(events: seq<Event>) {
    forall i | 0 <= i < |events| :: events[i].Asked? || events[i].Clock?
  }

  predicate AllAlive(events: seq<Event>) {
    forall i | 0 <= i < |events| :: events[i].Asked? ==> events[i].inspection.Alive?
  }

  /** Three events a poll: its inspection and its two clock readings. */
  predicate EventOfPoll(e: Event, polls: seq<Poll>, i: nat) {
    && i / 3 < |polls|
    && e == if i % 3 == 0 then Asked(polls[i / 3].inspection)
            else if i % 3 == 1 then Clock(polls[i / 3].now)
            else Clock(polls[i / 3].again)
  }

  /** The events of the grace loop are the polls' answers, one after the other. */
  predicate Watched(events: seq<Event>, polls: seq<Poll>) {
    forall i | 0 <= i < |events| :: EventOfPoll(events[i], polls, i)
  }

  /** The record invents nothing: every entry is the answer given at that point. */
  ghost predicate TellsAnswers(log: seq<Event>, answers: Answers) {
    && log[..Min(|log|, 3)] <= [Asked(answers.first), Term(answers.term), Clock(answers.start)]
    && (|log| > 3 ==> exists n :: 3 <= n <= |log| && TellsGrace(log, answers, n))
  }

  predicate TellsGrace(log: seq<Event>, answers: Answers, n: nat)
    requires 3 <= n <= |log|
  {
    Watched(log[3..n], answers.polls) && log[n..] <= [Asked(answers.last), Kill(answers.kill)]
  }

  ghost predicate GraceRule(polls: seq<Poll>, deadline: nat, verdict: Option<Outcome>, events: seq<Event>) {
    && OnlyWatches(events) && Watched(events, polls)
    && (verdict.None? ==>
        AllAlive(events) && |events| > 0 && events[|events| - 1].Clock? && events[|events| - 1].now >= deadline)
    && (verdict == Some(Waiting) ==>
          AllAlive(events) && forall i | 0 <= i < |polls| :: polls[i].inspection.Alive? && polls[i].now < deadline)
    && (verdict.Some? && !verdict.value.Waiting? ==> EndsOnChange(events, verdict.value))
  }

  /** Alive at every look but the last, whose answer is the verdict. */
  predicate EndsOnChange(events: seq<Event>, verdict: Outcome) {
    && |events| > 0 && AllAlive(events[..|events| - 1])
    && events[|events| - 1].Asked? && !events[|events| - 1].inspection.Alive?
    && verdict == (match events[|events| - 1].inspection
                   case Dead => Done(TerminatedDuringGrace)
                   case Reused => Done(IdentityChanged)
                   case _ => Failed(Inspecting))
  }

  lemma {:induction false} GraceIsLawful(polls: seq<Poll>, deadline: nat)
    ensures GraceRule(polls, deadline, Grace(polls, deadline).0, Grace(polls, deadline).1)
    decreases |polls|
  {
    if polls != [] {
      if polls[0].inspection.Alive? && polls[0].now < deadline {
        GraceIsLawful(polls[1..], deadline);
        LookAgain(polls, deadline, Grace(polls[1..], deadline).0, Grace(polls[1..], deadline).1);
        hide GraceRule;
      } else {
        var events := Grace(polls, deadline).1;
        assert events[..|events| - 1] == [] || events[..|events| - 1] == [Asked(Alive)];
      }
    }
  }

  /** A look that found the group alive before the deadline, in front of a lawful rest. */
  lemma LookAgain(polls: seq<Poll>, deadline: nat, verdict: Option<Outcome>, rest: seq<Event>)
    requires polls != [] && GraceRule(polls[1..], deadline, verdict, rest)
    requires polls[0].inspection.Alive? && polls[0].now < deadline
    ensures GraceRule(polls, deadline, verdict, [Asked(Alive), Clock(polls[0].now), Clock(polls[0].again)] + rest)
  {
    var head := [Asked(Alive), Clock(polls[0].now), Clock(polls[0].again)];
    WatchedGoesOn(polls, head, rest);
    AliveGoesOn(head, rest);
    hide Watched;
    assert verdict == Some(Waiting) ==> forall i | 0 < i < |polls| :: polls[i] == polls[1..][i - 1];
    if |rest| > 0 {
      assert (head + rest)[..|head + rest| - 1] == head + rest[..|rest| - 1];
      AliveGoesOn(head, rest[..|rest| - 1]);
    }
    hide AllAlive;
  }

  lemma AliveGoesOn(head: seq<Event>, rest: seq<Event>)
    requires AllAlive(head) && OnlyWatches(head)
    ensures AllAlive(rest) ==> AllAlive(head + rest)
    ensures OnlyWatches(rest) ==> OnlyWatches(head + rest)
  {}

  lemma WatchedGoesOn(polls: seq<Poll>, head: seq<Event>, rest: seq<Event>)
    requires polls != [] && Watched(rest, polls[1..])
    requires head == [Asked(polls[0].inspection), Clock(polls[0].now), Clock(polls[0].again)]
    ensures Watched(head + rest, polls)
  {
    forall i | 0 <= i < |head + rest| ensures EventOfPoll((head + rest)[i], polls, i) {
      if i >= 3 {
        ThirdsShift(i);
        assert EventOfPoll(rest[i - 3], polls[1..], i - 3);
      }
    }
  }

  lemma ThirdsShift(i: int)
    ensures (i - 3) / 3 == i / 3 - 1 && (i - 3) % 3 == i % 3
  {}

  /** The grace loop. It ends without a verdict only at a reading past the deadline, with the group
      alive at every look. */
  method WatchDuringGrace(polls: seq<Poll>, deadline: nat) returns (verdict: Option<Outcome>, events: seq<Event>)
    ensures (verdict, events) == Grace(polls, deadline)
    ensures GraceRule(polls, deadline, verdict, events)
  {
    GraceIsLawful(polls, deadline);
    hide GraceRule;
    events := [];
    assert polls[0..] == polls;
    for at := 0 to |polls|
      invariant Grace(polls, deadline).0 == Grace(polls[at..], deadline).0
      invariant Grace(polls, deadline).1 == events + Grace(polls[at..], deadline).1
    {
      var poll := polls[at];
      ghost var before := events;
      assert polls[at..][0] == poll && polls[at..][1..] == polls[at + 1..];
      events := events + [Asked(poll.inspection)];
      match poll.inspection
      case InspectionFailed => return Some(Failed(Inspecting)), events;
      case Dead => return Some(Done(TerminatedDuringGrace)), events;
      case Reused => return Some(Done(IdentityChanged)), events;
      case Alive =>
        events := events + [Clock(poll.now)];
        assert events == before + [Asked(poll.inspection), Clock(poll.now)];
        if poll.now >= deadline {
          return None, events;
        }
        events := events + [Clock(poll.again)];
    }
    assert polls[|polls|..] == [] && events + [] == events;
    return Some(Waiting), events;
  }

  /** TERM, the grace loop, one last look, KILL, against all possible answers. */
  method CancelValidatedGroup(answers: Answers, group: int, grace: nat) returns (outcome: Outcome, log: seq<Event>)
    ensures TermRule(log) && KillRule(log, grace) && NothingAfterChange(log)
    ensures (outcome, log) == Conduct(answers, group, grace)
    ensures OutcomeRule(log, group, grace, outcome) && TellsAnswers(log, answers)
    ensures outcome.Waiting? ==> forall i | 0 <= i < |answers.polls| ::
      answers.polls[i].inspection.Alive? && answers.polls[i].now < answers.start + grace
  {
    log := [Asked(answers.first)];
    match answers.first
    case InspectionFailed => return Failed(Inspecting), log;
    case Dead => return Done(AlreadyDead), log;
    case Reused => return Done(IdentityChanged), log;
    case Alive =>
    if group == 0 {
      return Failed(InvalidProcessGroup), log;
    }
    log := log + [Term(answers.term)];
    match answers.term
    case NoSuchProcess => return Done(AlreadyDead), log;
    case Refused(errno) => return Failed(Signalling(errno)), log;
    case Delivered =>
    log := log + [Clock(answers.start)];
    if answers.start + grace > INSTANT_MAX {
      return Failed(InvalidGrace), log;
    }
    outcome, log := AfterTerm(answers, grace);
  }

  /** The rest of the call once TERM was delivered and the clock read. */
  method AfterTerm(answers: Answers, grace: nat) returns (outcome: Outcome, log: seq<Event>)
    requires answers.first.Alive? && answers.term.Delivered? && answers.start + grace <= INSTANT_MAX
    ensures TermRule(log) && KillRule(log, grace) && NothingAfterChange(log)
    ensures forall group | group != 0 :: (outcome, log) == Conduct(answers, group, grace)
    ensures (forall group | group != 0 :: OutcomeRule(log, group, grace, outcome)) && TellsAnswers(log, answers)
    ensures outcome.Waiting? ==> forall i | 0 <= i < |answers.polls| ::
      answers.polls[i].inspection.Alive? && answers.polls[i].now < answers.start + grace
  {
    hide OutcomeRule, TermRule, KillRule, NothingAfterChange, TellsAnswers, Watched, OnlyWatches, AllAlive;
    var verdict, events := WatchDuringGrace(answers.polls, answers.start + grace);
    if verdict.Some? {
      Tells(answers, events, []);
      GraceVerdict(answers.start, grace, events, verdict.value);
      log := Opening(answers.start) + events;
      assert Opening(answers.start) + events + [] == log;
      return verdict.value, log;
    }
    var rest;
    outcome, rest := AfterGrace(answers, grace, events);
    Tells(answers, events, rest);
    log := Opening(answers.start) + events + rest;
  }

  /** The record so far when the grace loop begins. */
  function Opening(start: nat): (r: seq<Event>) {
    [Asked(Alive), Term(Delivered), Clock(start)]
  }

  lemma Tells(answers: Answers, events: seq<Event>, rest: seq<Event>)
    requires answers.first.Alive? && answers.term.Delivered? && Watched(events, answers.polls)
    requires rest <= [Asked(answers.last), Kill(answers.kill)]
    ensures TellsAnswers(Opening(answers.start) + events + rest, answers)
  {
    var log := Opening(answers.start) + events + rest;
    var n := 3 + |events|;
    assert log[..3] == Opening(answers.start) && log[3..n] == events && log[n..] == rest;
    hide Watched;
    assert TellsGrace(log, answers, n);
  }

  /** What a verdict of the grace loop means for the whole record. */
  lemma GraceVerdict(start: nat, grace: nat, events: seq<Event>, verdict: Outcome)
    requires OnlyWatches(events) && start + grace <= INSTANT_MAX
    requires verdict == Waiting ==> AllAlive(events)
    requires verdict != Waiting ==> EndsOnChange(events, verdict)
    ensures var log := Opening(start) + events;
      TermRule(log) && KillRule(log, grace) && NothingAfterChange(log) && forall group | group != 0 ::
        OutcomeRule(log, group, grace, verdict)
  {
    var log := Opening(start) + events;
    assert log[1] == Term(Delivered);
    if verdict != Waiting { assert forall i | 0 <= i < |events| - 1 :: events[i] == events[..|events| - 1][i]; }
  }

  /** The last look and the KILL, once the grace interval is over. `rest` is what this adds. */
  method AfterGrace(answers: Answers, grace: nat, events: seq<Event>) returns (outcome: Outcome, rest: seq<Event>)
    requires answers.start + grace <= INSTANT_MAX && OnlyWatches(events) && AllAlive(events)
    requires |events| > 0 && events[|events| - 1].Clock? && events[|events| - 1].now >= answers.start + grace
    ensures var log := Opening(answers.start) + events + rest;
      && TermRule(log) && KillRule(log, grace) && NothingAfterChange(log)
      && forall group | group != 0 :: OutcomeRule(log, group, grace, outcome)
    ensures (outcome, rest) == Finale(answers)
    ensures !outcome.Waiting? && rest <= [Asked(answers.last), Kill(answers.kill)]
  {
    rest := [Asked(answers.last)];
    ghost var log := Opening(answers.start) + events + rest;
    assert log[1] == Term(Delivered);
    match answers.last
    case InspectionFailed => return Failed(Inspecting), rest;
    case Dead => return Done(TerminatedDuringGrace), rest;
    case Reused => return Done(IdentityChanged), rest;
    case Alive =>
    rest := [Asked(answers.last), Kill(answers.kill)];
    log := Opening(answers.start) + events + rest;
    assert log[1] == Term(Delivered) && GraceIsOver(log, grace, |log| - 3);
    match answers.kill
    case Delivered => return Done(KilledAfterGrace), rest;
    case NoSuchProcess => return Done(TerminatedDuringGrace), rest;
    case Refused(errno) => return Failed(Signalling(errno)), rest;
  }
}
