/** Reaping the supervisor's monitor processes (`src/supervisor/children.rs`). */
module Children {
  import opened Wrappers

  type Pid = nat
  type Child = nat

  datatype ReapError = Os(code: int) | StillRunning

  datatype Notice = Exited(pid: Pid) | NoneLeft | NoticeFailed(error: ReapError)

  datatype Answer = Finished | Live | WaitFailed(error: ReapError)

  /** The outside world: what the notifier or a child's own wait says, depending in any way on how
      much has happened before. */
  datatype Outside = Outside(notice: nat -> Notice, answer: (nat, Pid) -> Answer)

  /** `Probed` follows a notification; `Swept` is part of a pass over all children. */
  datatype Event = Noticed(notice: Notice) | Probed(pid: Pid, answer: Answer) | Swept(pid: Pid, answer: Answer)

  function ErrorOf(e: Event): (r: Option<ReapError>) {
    match e
    case Noticed(NoticeFailed(error)) => Some(error)
    case Probed(_, WaitFailed(error)) => Some(error)
    case Probed(_, Live) => Some(StillRunning)
    case Swept(_, WaitFailed(error)) => Some(error)
    case _ => None
  }

  function FirstError(log: seq<Event>): (r: Option<ReapError>)
    decreases |log|
  {
    if log == [] then None
    else if FirstError(log[..|log| - 1]).Some? then FirstError(log[..|log| - 1])
    else ErrorOf(log[|log| - 1])
  }

  /** The event is what the outside said when `i` things had happened before. */
  predicate Honest(e: Event, outside: Outside, i: nat) {
    match e
    case Noticed(notice) => notice == outside.notice(i)
    case Probed(pid, answer) => answer == outside.answer(i, pid)
    case Swept(pid, answer) => answer == outside.answer(i, pid)
  }

  predicate Truthful(log: seq<Event>, outside: Outside) {
    forall i | 0 <= i < |log| :: Honest(log[i], outside, i)
  }

  predicate Reported(log: seq<Event>, pid: Pid) {
    Probed(pid, Finished) in log || Swept(pid, Finished) in log
  }

  function WithoutReported(children: map<Pid, Child>, log: seq<Event>): (r: map<Pid, Child>) {
    map pid | pid in children && !Reported(log, pid) :: children[pid]
  }

  /** A pass over everything is owed after a notice about somebody else's child and after a failed wait. */
  predicate SweepOwed(owned: map<Pid, Child>, log: seq<Event>) {
    exists i | 0 <= i < |log| ::
      || (log[i].Noticed? && log[i].notice.Exited? && log[i].notice.pid !in WithoutReported(owned, log[..i]))
      || (log[i].Probed? && log[i].answer.WaitFailed?)
  }

  predicate LookedAt(log: seq<Event>, pid: Pid) {
    exists i | 0 <= i < |log| :: log[i].Swept? && log[i].pid == pid && !log[i].answer.Finished?
  }

  lemma FirstErrorGrows(log: seq<Event>, e: Event)
    ensures FirstError(log + [e]) == if FirstError(log).Some? then FirstError(log) else ErrorOf(e)
  {
    assert (log + [e])[..|log|] == log;
  }

  lemma KeepingReported(children: map<Pid, Child>, log: seq<Event>, e: Event)
    ensures WithoutReported(children, log + [e])
         == WithoutReported(children, log)
            - (if (e.Probed? || e.Swept?) && e.answer.Finished? then {e.pid} else {})
  {
    forall pid ensures Reported(log + [e], pid)
      <==> Reported(log, pid) || ((e.Probed? || e.Swept?) && e.answer.Finished? && e.pid == pid) {}
  }

  lemma NothingHappened(owned: map<Pid, Child>)
    ensures WithoutReported(owned, []) == owned && FirstError([]) == None && !SweepOwed(owned, [])
  {}

  /** A pass over all children, of whom `rest` still have to be asked and `kept` are still owned. */
  ghost predicate SweepSoFar(before: seq<Event>, log: seq<Event>, rest: set<Pid>, kept: set<Pid>) {
    && before <= log
    && (forall i | |before| <= i < |log| :: log[i].Swept? && forall pid | pid in rest :: log[i].pid < pid)
    && (forall i, k | |before| <= i < k < |log| :: log[i].pid < log[k].pid)
    && (forall pid | pid in kept && pid !in rest :: LookedAt(log, pid))
  }

  lemma SweepGoesOn(before: seq<Event>, log: seq<Event>, rest: set<Pid>, kept: set<Pid>, pid: Pid, answer: Answer)
    requires SweepSoFar(before, log, rest, kept) && pid in rest && forall q | q in rest :: pid <= q
    ensures SweepSoFar(before, log + [Swept(pid, answer)], rest - {pid},
                       if answer.Finished? then kept - {pid} else kept)
  {
    var longer, left := log + [Swept(pid, answer)], if answer.Finished? then kept - {pid} else kept;
    assert longer[|log|] == Swept(pid, answer);
    forall q | q in left && q !in rest - {pid} ensures LookedAt(longer, q) {
      if q != pid { StillLookedAt(log, Swept(pid, answer), q); }
    }
  }

  class MonitorChildren {
    var children: map<Pid, Child>

    constructor (children: map<Pid, Child>)
      ensures this.children == children
    {
      this.children := children;
    }

    /** Asks every child once, in ascending order, removes exactly those that report finished, and
        returns the first failure. `log` continues an earlier record. */
    method ReapFinished(outside: Outside, ghost owned: map<Pid, Child>, before: seq<Event>)
      returns (r: Option<ReapError>, log: seq<Event>)
      requires Truthful(before, outside) && children == WithoutReported(owned, before)
      modifies this
      ensures before <= log && Truthful(log, outside)
      ensures forall i | |before| <= i < |log| :: log[i].Swept?
      ensures forall i, k | |before| <= i < k < |log| :: log[i].pid < log[k].pid
      ensures children == WithoutReported(owned, log)
      ensures forall pid | pid in children :: LookedAt(log, pid)
      ensures FirstError(log) == if FirstError(before).Some? then FirstError(before) else r
    {
      hide LookedAt, WithoutReported, FirstError, Reported;
      log, r := before, None;
      var rest := children.Keys;
      while rest != {}
        invariant Truthful(log, outside) && rest <= children.Keys
        invariant SweepSoFar(before, log, rest, children.Keys)
        invariant children == WithoutReported(owned, log)
        invariant FirstError(log) == if FirstError(before).Some? then FirstError(before) else r
        decreases |rest|
      {
        var pid := Least(rest);
        var answer := outside.answer(|log|, pid);
        FirstErrorGrows(log, Swept(pid, answer));
        KeepingReported(owned, log, Swept(pid, answer));
        SweepGoesOn(before, log, rest, children.Keys, pid, answer);
        log := log + [Swept(pid, answer)];
        rest := rest - {pid};
        match answer
        case Finished =>
          assert (children - {pid}).Keys == children.Keys - {pid};
          children := children - {pid};
        case Live => assert children - {} == children;
        case WaitFailed(error) =>
          assert children - {} == children;
          if r.None? { r := Some(error); }
      }
    }

    /** Removes exactly the children whose own wait reported finished. After a stray notice or a
        failed wait, every child that remains has been asked and was not finished. The first thing
        that went wrong is the error returned. */
    method ReapReady(outside: Outside) returns (r: Option<ReapError>, log: seq<Event>)
      modifies this
      ensures Truthful(log, outside)
      ensures children == WithoutReported(old(children), log)
      ensures r == FirstError(log)
      ensures SweepOwed(old(children), log) ==> forall pid | pid in children :: LookedAt(log, pid)
      ensures r.None? && !SweepOwed(old(children), log) ==>
        children == map[] || (log != [] && log[|log| - 1] == Noticed(NoneLeft))
    {
      hide LookedAt, WithoutReported, FirstError, Reported, SweepOwed;
      log := [];
      ghost var owned := children;
      NothingHappened(owned);
      while children != map[]
        invariant Truthful(log, outside) && children == WithoutReported(owned, log)
        invariant FirstError(log) == None && !SweepOwed(owned, log)
        decreases |children|
      {
        var notice := outside.notice(|log|);
        Booked(owned, log, Noticed(notice));
        log := log + [Noticed(notice)];
        match notice
        case NoticeFailed(error) => return Some(error), log;
        case NoneLeft => return None, log;
        case Exited(pid) =>
        if pid !in children {
          ghost var stray := log;
          r, log := ReapFinished(outside, owned, log);
          StillOwed(owned, stray, log);
          return r, log;
        }
        var answer := outside.answer(|log|, pid);
        Booked(owned, log, Probed(pid, answer));
        log := log + [Probed(pid, answer)];
        match answer
        case Finished => Forget(pid);
        case Live => return Some(StillRunning), log;
        case WaitFailed(error) =>
          var _, after := ReapFinished(outside, owned, log);
          return Some(error), after;
      }
      r := None;
    }

    method Forget(pid: Pid)
      requires pid in children
      modifies this
      ensures children == old(children) - {pid} && |children| < |old(children)|
    {
      assert (children - {pid}).Keys == children.Keys - {pid};
      children := children - {pid};
      assert |children.Keys| < |old(children).Keys|;
    }
  }

  /** What one more event changes in the three accounts kept over the record. */
  lemma Booked(owned: map<Pid, Child>, log: seq<Event>, e: Event)
    ensures FirstError(log + [e]) == if FirstError(log).Some? then FirstError(log) else ErrorOf(e)
    ensures WithoutReported(owned, log + [e])
         == if (e.Probed? || e.Swept?) && e.answer.Finished? then WithoutReported(owned, log) - {e.pid}
            else WithoutReported(owned, log)
    ensures SweepOwed(owned, log + [e]) <==>
      || SweepOwed(owned, log)
      || (e.Noticed? && e.notice.Exited? && e.notice.pid !in WithoutReported(owned, log))
      || (e.Probed? && e.answer.WaitFailed?)
  {
    FirstErrorGrows(log, e);
    KeepingReported(owned, log, e);
    SweepOwedGrows(owned, log, e);
  }

  lemma StillOwed(owned: map<Pid, Child>, log: seq<Event>, longer: seq<Event>)
    requires SweepOwed(owned, log) && log <= longer
    ensures SweepOwed(owned, longer)
  {
    assert forall i | 0 <= i < |log| :: longer[i] == log[i] && longer[..i] == log[..i];
  }

  lemma StillLookedAt(log: seq<Event>, e: Event, pid: Pid)
    requires LookedAt(log, pid)
    ensures LookedAt(log + [e], pid)
  {
    var i :| 0 <= i < |log| && log[i].Swept? && log[i].pid == pid && !log[i].answer.Finished?;
    assert (log + [e])[i] == log[i];
  }

  lemma SweepOwedGrows(owned: map<Pid, Child>, log: seq<Event>, e: Event)
    ensures SweepOwed(owned, log + [e]) <==>
      || SweepOwed(owned, log)
      || (e.Noticed? && e.notice.Exited? && e.notice.pid !in WithoutReported(owned, log))
      || (e.Probed? && e.answer.WaitFailed?)
  {
    var longer := log + [e];
    assert longer[..|log|] == log && longer[|log|] == e;
    assert forall i | 0 <= i < |log| :: longer[i] == log[i] && longer[..i] == log[..i];
  }

  method Least(pids: set<Pid>) returns (least: Pid)
    requires pids != {}
    ensures least in pids && forall pid | pid in pids :: least <= pid
  {
    least :| least in pids;
    var rest := pids - {least};
    while rest != {}
      invariant least in pids && rest <= pids && forall pid | pid in pids && pid !in rest :: least <= pid
      decreases |rest|
    {
      var pid :| pid in rest;
      rest := rest - {pid};
      if pid < least { least := pid; }
    }
  }
}
