/** The supervisor's event loop (`src/supervisor/loop_driver.rs`) against a plain map scheduler. */
module EventLoop {
  import opened Wrappers
  import opened Primitives
  import opened Deadlines
  import opened Heap

  type Nanos = nat

  /** How long to block, `None` meaning without a limit. A span that does not fit 64 bits is cut. */
  function WaitUntil(now: ElapsedInstant, deadline: Option<ElapsedInstant>, idleTimeout: Option<Nanos>)
    : (r: Option<Nanos>)
  {
    match deadline
    case None => idleTimeout
    case Some(due) =>
      var span := Min(Max(due - now, 0), U64_MAX);
      Some(if idleTimeout.Some? then Min(span, idleTimeout.value) else span)
  }

  /** The wait ends no later than the deadline, or at once when that has passed; with no idle limit
      and a span that fits, it ends exactly there. It is the longest wait within three bounds, the
      deadline, the idle limit and what 64 bits can say: it meets one of them. */
  lemma WaitNeverPassesDeadline(now: ElapsedInstant, due: ElapsedInstant, idleTimeout: Option<Nanos>)
    ensures var wait := WaitUntil(now, Some(due), idleTimeout);
      && wait.Some?
      && now + wait.value <= Max(now, due)
      && wait.value <= U64_MAX && (idleTimeout.Some? ==> wait.value <= idleTimeout.value)
      && (idleTimeout.None? && due - now <= U64_MAX ==> now + wait.value == Max(now, due))
      && (now + wait.value == Max(now, due) || Some(wait.value) == idleTimeout || wait.value == U64_MAX)
    ensures WaitUntil(now, None, idleTimeout) == idleTimeout
  {}

  datatype DeadlineReconciliationError = Overflow

  /** Maps a wall-clock due time onto the elapsed clock. */
  function ReconcileWallSchedule(wallNow: UtcTimestamp, elapsedNow: ElapsedInstant, due: UtcTimestamp)
    : (r: Result<ElapsedInstant, DeadlineReconciliationError>)
  {
    var remaining := due - wallNow;
    if remaining <= 0 then Ok(elapsedNow)
    else if elapsedNow + remaining <= U128_MAX then Ok(elapsedNow + remaining)
    else Err(Overflow)
  }

  // ----- the environment

  datatype Message = Schedule(jobId: JobId, deadline: ElapsedInstant) | Shutdown | Disconnected

  datatype Reception = Received(message: Message) | TimedOut

  /** What one turn of the loop gets from outside: two clock readings and the channel's answer to a
      wait with a limit, or to one without. */
  datatype Turn = Turn(first: ElapsedInstant, second: ElapsedInstant, timed: Reception, blocking: Message)

  datatype Exit = Stopped | IdledOut | StillRunning

  datatype Batch = Batch(jobs: seq<JobId>, at: ElapsedInstant)

  // ----- the plain scheduler

  /** One deadline as it entered the scheduler; `origin` numbers the entries. */
  datatype Item = Item(jobId: JobId, deadline: ElapsedInstant, origin: nat)

  datatype Delivery = Delivery(item: Item, at: ElapsedInstant)

  /** A map from job to its current item, with a record of every message received, of everything that
      entered, was delivered, or was replaced (and by which later entry), and of the batches. */
  datatype Scheduler = Scheduler(
    pending: map<JobId, Item>, received: seq<Message>, entered: seq<Item>, delivered: seq<Delivery>,
    replaced: map<nat, nat>, log: seq<Batch>)

  ghost function Untag(pending: map<JobId, Item>): (r: Pending) {
    map j | j in pending :: pending[j].deadline
  }

  function Enter(s: Scheduler, jobId: JobId, deadline: ElapsedInstant): (r: Scheduler) {
    var item := Item(jobId, deadline, |s.entered|);
    s.(pending := s.pending[jobId := item], entered := s.entered + [item],
       replaced := if jobId in s.pending then s.replaced[s.pending[jobId].origin := item.origin] else s.replaced)
  }

  function Hear(s: Scheduler, message: Message): (r: Scheduler) {
    s.(received := s.received + [message])
  }

  ghost function Deliver(s: Scheduler, now: ElapsedInstant): (r: Scheduler) {
    var batch := DueBatch(Untag(s.pending), now);
    BatchIsExact(Untag(s.pending), now);
    s.(pending := map j | j in s.pending && s.pending[j].deadline > now :: s.pending[j],
       delivered := s.delivered + seq(|batch|, k requires 0 <= k < |batch| => Delivery(s.pending[batch[k]], now)),
       log := s.log + [Batch(batch, now)])
  }

  ghost function Earliest(m: Pending): (r: Option<ElapsedInstant>) {
    if m == map[] then None else Some(m[NextJob(m)])
  }

  ghost function Turned(s: Scheduler, turn: Turn, idleTimeout: Option<Nanos>): (r: (Scheduler, Exit)) {
    if SomeDue(Untag(s.pending), turn.first) then (Deliver(s, turn.first), StillRunning)
    else
      var wait := WaitUntil(turn.second, Earliest(Untag(s.pending)), idleTimeout);
      match (if wait.Some? then turn.timed else Received(turn.blocking))
      case Received(Schedule(jobId, deadline)) =>
        (Enter(Hear(s, Schedule(jobId, deadline)), jobId, deadline), StillRunning)
      case Received(message) => (Hear(s, message), Stopped)
      case TimedOut => (s, if s.pending == map[] then IdledOut else StillRunning)
  }

  ghost function PlainLoop(s: Scheduler, script: seq<Turn>, idleTimeout: Option<Nanos>): (r: (Scheduler, Exit))
    decreases |script|
  {
    if script == [] then (s, StillRunning)
    else
      var (after, exit) := Turned(s, script[0], idleTimeout);
      if exit.StillRunning? then PlainLoop(after, script[1..], idleTimeout) else (after, exit)
  }

  // ----- the loop itself

  lemma EarliestIs(m: Pending, next: Option<ElapsedInstant>)
    requires next.None? <==> m == map[]
    requires next.Some? ==> (exists j :: j in m && m[j] == next.value) && forall j :: j in m ==> next.value <= m[j]
    ensures next == Earliest(m)
  {
    if next.Some? {
      var j :| j in m && m[j] == next.value;
      assert j == NextJob(m) || Before(m, NextJob(m), j);
    }
  }

  lemma EnterUntagged(s: Scheduler, jobId: JobId, deadline: ElapsedInstant)
    ensures Untag(Enter(s, jobId, deadline).pending) == Untag(s.pending)[jobId := deadline]
    ensures Enter(s, jobId, deadline).log == s.log && Enter(s, jobId, deadline).received == s.received
  {}

  lemma DeliverUntagged(s: Scheduler, now: ElapsedInstant)
    ensures Untag(Deliver(s, now).pending) == Undue(Untag(s.pending), now)
    ensures Deliver(s, now).log == s.log + [Batch(DueBatch(Untag(s.pending), now), now)]
    ensures Deliver(s, now).received == s.received
    ensures DueBatch(Untag(s.pending), now) == [] <==> !SomeDue(Untag(s.pending), now)
    ensures !SomeDue(Untag(s.pending), now) ==> Undue(Untag(s.pending), now) == Untag(s.pending)
  {
    BatchIsExact(Untag(s.pending), now);
    var m := Untag(s.pending);
    if m == map[] || m[NextJob(m)] > now {
      forall j | j in m ensures m[j] > now { assert j == NextJob(m) || Before(m, NextJob(m), j); }
    } else {
      assert NextJob(m) in m;
    }
  }

  // ----- what becomes of every deadline

  ghost predicate Held(s: Scheduler, o: nat) {
    exists j :: j in s.pending && s.pending[j].origin == o
  }

  ghost predicate Delivered(s: Scheduler, o: nat) {
    exists d :: 0 <= d < |s.delivered| && s.delivered[d].item.origin == o
  }

  ghost predicate Sound(s: Scheduler) {
    && (forall o | 0 <= o < |s.entered| :: s.entered[o].origin == o)
    && (forall j | j in s.pending :: s.pending[j].jobId == j && s.pending[j] in s.entered)
    && (forall d | 0 <= d < |s.delivered| ::
          s.delivered[d].item in s.entered && s.delivered[d].item.deadline <= s.delivered[d].at)
    && (forall d, e | 0 <= d < e < |s.delivered| :: s.delivered[d].item.origin != s.delivered[e].item.origin)
    && (forall o | o in s.replaced ::
          o < s.replaced[o] < |s.entered| && s.entered[o].jobId == s.entered[s.replaced[o]].jobId)
  }

  /** Every entry has exactly one fate. */
  ghost predicate Accounted(s: Scheduler) {
    && Sound(s)
    && (forall j | j in s.pending :: s.pending[j].origin !in s.replaced && !Delivered(s, s.pending[j].origin))
    && (forall d | 0 <= d < |s.delivered| :: s.delivered[d].item.origin !in s.replaced)
    && (forall o: nat | o < |s.entered| :: Held(s, o) || Delivered(s, o) || o in s.replaced)
  }

  lemma OriginsNameItems(s: Scheduler, a: Item, b: Item)
    requires Sound(s) && a in s.entered && b in s.entered && a.origin == b.origin
    ensures a == b
  {}

  lemma EnterKeepsAccounts(s: Scheduler, jobId: JobId, deadline: ElapsedInstant)
    requires Accounted(s)
    ensures Accounted(Enter(s, jobId, deadline))
  {
    var s' := Enter(s, jobId, deadline);
    assert forall o | 0 <= o < |s.entered| :: s'.entered[o] == s.entered[o];
    assert s'.entered[|s.entered|] == s'.pending[jobId];
    forall j | j in s'.pending ensures s'.pending[j].jobId == j && s'.pending[j] in s'.entered
                                       && s'.pending[j].origin !in s'.replaced && !Delivered(s', s'.pending[j].origin) {
      if j != jobId && jobId in s.pending {
        if s.pending[j].origin == s.pending[jobId].origin { OriginsNameItems(s, s.pending[j], s.pending[jobId]); }
      }
    }
    forall d | 0 <= d < |s'.delivered| ensures s'.delivered[d].item.origin !in s'.replaced {
      if jobId in s.pending { assert !Delivered(s, s.pending[jobId].origin); }
    }
    forall o: nat | o < |s'.entered| ensures Held(s', o) || Delivered(s', o) || o in s'.replaced {
      if o == |s.entered| {
        assert s'.pending[jobId].origin == o;
      } else if Held(s, o) {
        var j :| j in s.pending && s.pending[j].origin == o;
        if j != jobId { assert j in s'.pending && s'.pending[j].origin == o; }
      } else if Delivered(s, o) {
        var d :| 0 <= d < |s.delivered| && s.delivered[d].item.origin == o;
        assert s'.delivered[d].item.origin == o;
      }
    }
  }

  /** What one delivery does: the items of the due jobs move to the end of the record, one by one. */
  ghost predicate MovesBatch(s: Scheduler, batch: seq<JobId>, now: ElapsedInstant, s': Scheduler) {
    && s'.entered == s.entered && s'.received == s.received && s'.replaced == s.replaced
    && |s'.delivered| == |s.delivered| + |batch|
    && (forall d | 0 <= d < |s.delivered| :: s'.delivered[d] == s.delivered[d])
    && (forall k | 0 <= k < |batch| :: batch[k] in s.pending && s.pending[batch[k]].deadline <= now)
    && (forall d | |s.delivered| <= d < |s'.delivered| ::
          s'.delivered[d] == Delivery(s.pending[batch[d - |s.delivered|]], now))
    && (forall i, k | 0 <= i < k < |batch| :: batch[i] != batch[k])
    && (forall j | j in s'.pending :: j in s.pending && s.pending[j].deadline > now && s'.pending[j] == s.pending[j])
    && (forall j | j in s.pending && j !in s'.pending :: j in batch)
  }

  lemma DeliveryMovesBatch(s: Scheduler, now: ElapsedInstant)
    ensures MovesBatch(s, DueBatch(Untag(s.pending), now), now, Deliver(s, now))
  {
    var m := Untag(s.pending);
    var batch, s' := DueBatch(m, now), Deliver(s, now);
    BatchIsExact(m, now);
    hide DueBatch;
    assert forall k | 0 <= k < |batch| :: batch[k] in batch;
    forall i, k | 0 <= i < k < |batch| ensures batch[i] != batch[k] { assert Before(m, batch[i], batch[k]); }
  }

  lemma MovedStaysSound(s: Scheduler, batch: seq<JobId>, now: ElapsedInstant, s': Scheduler)
    requires Accounted(s) && MovesBatch(s, batch, now, s')
    ensures Sound(s')
    ensures forall d | 0 <= d < |s'.delivered| :: s'.delivered[d].item.origin !in s'.replaced
  {
    forall d, e | 0 <= d < e < |s'.delivered| ensures s'.delivered[d].item.origin != s'.delivered[e].item.origin {
      if e >= |s.delivered| {
        var late := batch[e - |s.delivered|];
        if d < |s.delivered| {
          assert !Delivered(s, s.pending[late].origin);
        } else {
          var early := batch[d - |s.delivered|];
          if s.pending[early].origin == s.pending[late].origin {
            OriginsNameItems(s, s.pending[early], s.pending[late]);
          }
        }
      }
    }
  }

  lemma MovedKeepsTheRest(s: Scheduler, batch: seq<JobId>, now: ElapsedInstant, s': Scheduler, j: JobId)
    requires Accounted(s) && MovesBatch(s, batch, now, s') && j in s'.pending
    ensures s'.pending[j].origin !in s'.replaced && !Delivered(s', s'.pending[j].origin)
  {
    assert !Delivered(s, s.pending[j].origin);
    forall d | 0 <= d < |s'.delivered| ensures s'.delivered[d].item.origin != s.pending[j].origin {
      if d >= |s.delivered| {
        var k := batch[d - |s.delivered|];
        if s.pending[k].origin == s.pending[j].origin { OriginsNameItems(s, s.pending[k], s.pending[j]); }
      }
    }
  }

  lemma MovedAccountsForAll(s: Scheduler, batch: seq<JobId>, now: ElapsedInstant, s': Scheduler, o: nat)
    requires Accounted(s) && MovesBatch(s, batch, now, s') && o < |s'.entered|
    ensures Held(s', o) || Delivered(s', o) || o in s'.replaced
  {
    if Held(s, o) {
      var j :| j in s.pending && s.pending[j].origin == o;
      if j in s'.pending {
        assert s'.pending[j].origin == o;
      } else {
        var k :| 0 <= k < |batch| && batch[k] == j;
        assert s'.delivered[|s.delivered| + k].item.origin == o;
      }
    } else if Delivered(s, o) {
      var d :| 0 <= d < |s.delivered| && s.delivered[d].item.origin == o;
      assert s'.delivered[d].item.origin == o;
    }
  }

  lemma DeliverKeepsAccounts(s: Scheduler, now: ElapsedInstant)
    requires Accounted(s)
    ensures Accounted(Deliver(s, now)) && s.entered == Deliver(s, now).entered
  {
    var batch, s' := DueBatch(Untag(s.pending), now), Deliver(s, now);
    DeliveryMovesBatch(s, now);
    MovedStaysSound(s, batch, now, s');
    forall j | j in s'.pending ensures s'.pending[j].origin !in s'.replaced && !Delivered(s', s'.pending[j].origin) {
      MovedKeepsTheRest(s, batch, now, s', j);
    }
    forall o: nat | o < |s'.entered| ensures Held(s', o) || Delivered(s', o) || o in s'.replaced {
      MovedAccountsForAll(s, batch, now, s', o);
    }
    assert s'.entered == s.entered;
    hide Deliver, DueBatch, MovesBatch, Sound, Held, Delivered;
  }

  // ----- what entered

  /** The deadlines that the Schedule messages ask for, in order. */
  function Schedules(messages: seq<Message>): (r: seq<(JobId, ElapsedInstant)>) {
    if messages == [] then []
    else
      var last := messages[|messages| - 1];
      Schedules(messages[..|messages| - 1]) + (if last.Schedule? then [(last.jobId, last.deadline)] else [])
  }

  function Entries(entered: seq<Item>): (r: seq<(JobId, ElapsedInstant)>) {
    seq(|entered|, i requires 0 <= i < |entered| => (entered[i].jobId, entered[i].deadline))
  }

  /** Exactly the first deadlines and those of the messages received have entered, in this order. */
  ghost predicate Complete(s: Scheduler, first: seq<(JobId, ElapsedInstant)>) {
    Entries(s.entered) == first + Schedules(s.received)
  }

  lemma HearingIsComplete(s: Scheduler, first: seq<(JobId, ElapsedInstant)>, message: Message)
    requires Complete(s, first)
    ensures !message.Schedule? ==> Complete(Hear(s, message), first)
    ensures message.Schedule? ==> Complete(Enter(Hear(s, message), message.jobId, message.deadline), first)
  {
    assert (s.received + [message])[..|s.received|] == s.received;
    assert Schedules(s.received + [message])
        == Schedules(s.received) + (if message.Schedule? then [(message.jobId, message.deadline)] else []);
    hide Schedules;
    if message.Schedule? {
      var s' := Enter(Hear(s, message), message.jobId, message.deadline);
      assert Entries(s'.entered) == Entries(s.entered) + [(message.jobId, message.deadline)];
    }
  }

  lemma TurnIsComplete(s: Scheduler, turn: Turn, idleTimeout: Option<Nanos>, first: seq<(JobId, ElapsedInstant)>)
    requires Complete(s, first)
    ensures Complete(Turned(s, turn, idleTimeout).0, first)
  {
    DeliveryMovesBatch(s, turn.first);
    assert Complete(Deliver(s, turn.first), first) by { hide Deliver, DueBatch, Entries, Schedules; }
    hide Deliver, DueBatch, Enter, Hear, WaitUntil, Complete;
    if turn.timed.Received? { HearingIsComplete(s, first, turn.timed.message); }
    HearingIsComplete(s, first, turn.blocking);
  }

  /** Over every script: the deadlines that entered are exactly those that were there at the start and
      those of the Schedule messages received, and each of them is delivered exactly once and not
      before it is due, or replaced by a later one for the same job, or still held at the end. Three
      fates, never two of them. */
  lemma {:induction false} EveryDeadlineHasOneFate(
    s: Scheduler, script: seq<Turn>, idleTimeout: Option<Nanos>, first: seq<(JobId, ElapsedInstant)>)
    requires Accounted(s) && Complete(s, first)
    ensures Accounted(PlainLoop(s, script, idleTimeout).0)
    ensures Complete(PlainLoop(s, script, idleTimeout).0, first)
    decreases |script|
  {
    if script != [] {
      var (after, exit) := Turned(s, script[0], idleTimeout);
      TurnKeepsAccounts(s, script[0], idleTimeout);
      TurnIsComplete(s, script[0], idleTimeout, first);
      hide Accounted, Complete, Turned;
      if exit.StillRunning? { EveryDeadlineHasOneFate(after, script[1..], idleTimeout, first); }
    }
  }

  lemma HearingKeepsAccounts(s: Scheduler, message: Message)
    requires Accounted(s)
    ensures Accounted(Hear(s, message))
  {
    var s' := Hear(s, message);
    assert forall o: nat :: Held(s', o) <==> Held(s, o);
    assert forall o: nat :: Delivered(s', o) <==> Delivered(s, o);
    hide Held, Delivered;
  }

  lemma TurnKeepsAccounts(s: Scheduler, turn: Turn, idleTimeout: Option<Nanos>)
    requires Accounted(s)
    ensures Accounted(Turned(s, turn, idleTimeout).0)
  {
    hide Accounted, Hear, Enter, Deliver, WaitUntil;
    DeliverKeepsAccounts(s, turn.first);
    if turn.timed.Received? { MessageKeepsAccounts(s, turn.timed.message); }
    MessageKeepsAccounts(s, turn.blocking);
  }

  lemma MessageKeepsAccounts(s: Scheduler, message: Message)
    requires Accounted(s)
    ensures Accounted(Hear(s, message))
    ensures message.Schedule? ==> Accounted(Enter(Hear(s, message), message.jobId, message.deadline))
  {
    hide Accounted, Hear, Enter;
    HearingKeepsAccounts(s, message);
    if message.Schedule? { EnterKeepsAccounts(Hear(s, message), message.jobId, message.deadline); }
  }

  /** The loop leaves on a timeout only when nothing is pending. */
  lemma {:induction false} IdleExitMeansEmpty(s: Scheduler, script: seq<Turn>, idleTimeout: Option<Nanos>)
    requires PlainLoop(s, script, idleTimeout).1.IdledOut?
    ensures PlainLoop(s, script, idleTimeout).0.pending == map[]
    decreases |script|
  {
    if script != [] {
      var (after, exit) := Turned(s, script[0], idleTimeout);
      if exit.StillRunning? { IdleExitMeansEmpty(after, script[1..], idleTimeout); }
    }
  }

  function Listing(batch: Batch): (r: seq<(JobId, ElapsedInstant)>) {
    seq(|batch.jobs|, k requires 0 <= k < |batch.jobs| => (batch.jobs[k], batch.at))
  }

  function Flattened(log: seq<Batch>): (r: seq<(JobId, ElapsedInstant)>) {
    if log == [] then [] else Flattened(log[..|log| - 1]) + Listing(log[|log| - 1])
  }

  function Deliveries(delivered: seq<Delivery>): (r: seq<(JobId, ElapsedInstant)>) {
    seq(|delivered|, d requires 0 <= d < |delivered| => (delivered[d].item.jobId, delivered[d].at))
  }

  /** The recorded deliveries are the batches handed out, job by job and in the same order. */
  lemma {:induction false} LogListsDeliveries(s: Scheduler, script: seq<Turn>, idleTimeout: Option<Nanos>)
    requires Accounted(s) && Deliveries(s.delivered) == Flattened(s.log)
    ensures var end := PlainLoop(s, script, idleTimeout).0; Deliveries(end.delivered) == Flattened(end.log)
    decreases |script|
  {
    if script != [] {
      var (after, exit) := Turned(s, script[0], idleTimeout);
      TurnKeepsAccounts(s, script[0], idleTimeout);
      TurnExtendsLog(s, script[0], idleTimeout);
      hide Accounted, Turned, Deliveries, Flattened;
      if exit.StillRunning? { LogListsDeliveries(after, script[1..], idleTimeout); }
    }
  }

  lemma TurnExtendsLog(s: Scheduler, turn: Turn, idleTimeout: Option<Nanos>)
    requires Accounted(s) && Deliveries(s.delivered) == Flattened(s.log)
    ensures var after := Turned(s, turn, idleTimeout).0; Deliveries(after.delivered) == Flattened(after.log)
  {
    hide Accounted, Deliver, Deliveries, Flattened, WaitUntil, Earliest, SomeDue, Untag;
    DeliverExtendsLog(s, turn.first);
  }

  lemma MovedIsListed(s: Scheduler, batch: seq<JobId>, now: ElapsedInstant, s': Scheduler)
    requires Sound(s) && MovesBatch(s, batch, now, s')
    ensures Deliveries(s'.delivered) == Deliveries(s.delivered) + Listing(Batch(batch, now))
  {
    forall d | |s.delivered| <= d < |s'.delivered|
      ensures Deliveries(s'.delivered)[d] == Listing(Batch(batch, now))[d - |s.delivered|]
    {
      assert batch[d - |s.delivered|] in s.pending;
    }
  }

  lemma DeliverExtendsLog(s: Scheduler, now: ElapsedInstant)
    requires Accounted(s) && Deliveries(s.delivered) == Flattened(s.log)
    ensures Deliveries(Deliver(s, now).delivered) == Flattened(Deliver(s, now).log)
  {
    var batch, s' := DueBatch(Untag(s.pending), now), Deliver(s, now);
    DeliveryMovesBatch(s, now);
    MovedIsListed(s, batch, now, s');
    assert s'.log[..|s'.log| - 1] == s.log && s'.log[|s'.log| - 1] == Batch(batch, now);
    hide DueBatch, Deliver, MovesBatch, Deliveries, Listing, Accounted;
  }

  // ----- turn by turn

  /** The message a turn brings when nothing is due: it is waited for without a limit only when nothing
      is pending and there is no idle limit. */
  function Brings(turn: Turn, nothingPending: bool, idleTimeout: Option<Nanos>): (r: Option<Message>) {
    if nothingPending && idleTimeout.None? then Some(turn.blocking)
    else if turn.timed.Received? then Some(turn.timed.message)
    else None
  }

  lemma {:induction false} LoopGoesOn(s: Scheduler, script: seq<Turn>, turn: Turn, idleTimeout: Option<Nanos>)
    requires PlainLoop(s, script, idleTimeout).1.StillRunning?
    ensures PlainLoop(s, script + [turn], idleTimeout)
         == Turned(PlainLoop(s, script, idleTimeout).0, turn, idleTimeout)
    decreases |script|
  {
    hide Turned;
    if script == [] {
      var (after, exit) := Turned(s, turn, idleTimeout);
      assert (script + [turn])[1..] == [] && PlainLoop(after, [], idleTimeout) == (after, StillRunning);
    } else {
      assert (script + [turn])[1..] == script[1..] + [turn];
      LoopGoesOn(Turned(s, script[0], idleTimeout).0, script[1..], turn, idleTimeout);
    }
  }

  predicate IsDue(s: Scheduler, j: JobId, now: ElapsedInstant) {
    j in s.pending && s.pending[j].deadline <= now
  }

  ghost predicate WasDue(s: Scheduler, d: Delivery, now: ElapsedInstant) {
    exists j :: IsDue(s, j, now) && d == Delivery(s.pending[j], now)
  }

  ghost predicate FindsDue(s: Scheduler, now: ElapsedInstant) {
    exists j :: IsDue(s, j, now)
  }

  lemma FindsWhatIsDue(s: Scheduler, now: ElapsedInstant)
    ensures SomeDue(Untag(s.pending), now) <==> FindsDue(s, now)
  {
    var m := Untag(s.pending);
    if SomeDue(m, now) {
      var j :| j in m && m[j] <= now;
      assert IsDue(s, j, now);
    }
    if FindsDue(s, now) {
      var j :| IsDue(s, j, now);
      assert m[j] <= now;
    }
  }

  /** A turn that finds something due delivers all of it and nothing else, and hears nothing. */
  ghost predicate DeliversAllDue(s: Scheduler, after: Scheduler, now: ElapsedInstant) {
    && after.received == s.received && after.entered == s.entered
    && (forall j :: j in after.pending <==> j in s.pending && !IsDue(s, j, now))
    && (forall j | j in after.pending :: after.pending[j] == s.pending[j])
    && (forall j | IsDue(s, j, now) :: Delivery(s.pending[j], now) in after.delivered)
    && s.delivered <= after.delivered
    && (forall d | |s.delivered| <= d < |after.delivered| :: WasDue(s, after.delivered[d], now))
  }

  /** A turn that finds nothing due delivers nothing and takes its message in. */
  ghost predicate TakesMessage(s: Scheduler, after: Scheduler, exit: Exit, message: Option<Message>) {
    && after.delivered == s.delivered
    && after.received == s.received + (if message.Some? then [message.value] else [])
    && (exit.Stopped? <==> message.Some? && !message.value.Schedule?)
    && (exit.IdledOut? <==> message.None? && s.pending == map[])
    && if message.Some? && message.value.Schedule? then
         && Untag(after.pending) == Untag(s.pending)[message.value.jobId := message.value.deadline]
         && |after.entered| == |s.entered| + 1
       else after.pending == s.pending && after.entered == s.entered
  }

  lemma MovedIsWhole(s: Scheduler, batch: seq<JobId>, now: ElapsedInstant, s': Scheduler)
    requires MovesBatch(s, batch, now, s')
    ensures DeliversAllDue(s, s', now)
  {
    forall j | IsDue(s, j, now) ensures Delivery(s.pending[j], now) in s'.delivered {
      assert j in batch;
      var k :| 0 <= k < |batch| && batch[k] == j;
      assert s'.delivered[|s.delivered| + k] == Delivery(s.pending[j], now);
    }
    forall d | |s.delivered| <= d < |s'.delivered|
      ensures WasDue(s, s'.delivered[d], now)
    {
      assert IsDue(s, batch[d - |s.delivered|], now);
    }
  }

  /** At every turn of every run: whatever is due at the turn's first reading is delivered in this very
      turn, all of it and with this reading; only when nothing is due is a message taken in, and none is
      lost. A stop is a stop message, and the end by a timeout needs that nothing is pending. */
  lemma EveryTurnCounts(s: Scheduler, script: seq<Turn>, turn: Turn, idleTimeout: Option<Nanos>)
    requires PlainLoop(s, script, idleTimeout).1.StillRunning?
    ensures var before := PlainLoop(s, script, idleTimeout).0;
      var (after, exit) := PlainLoop(s, script + [turn], idleTimeout);
      if FindsDue(before, turn.first)
      then exit.StillRunning? && DeliversAllDue(before, after, turn.first)
      else TakesMessage(before, after, exit, Brings(turn, before.pending == map[], idleTimeout))
  {
    LoopGoesOn(s, script, turn, idleTimeout);
    var before := PlainLoop(s, script, idleTimeout).0;
    hide PlainLoop;
    TurnCounts(before, turn, idleTimeout);
    hide Turned, DeliversAllDue, TakesMessage, FindsDue;
  }

  lemma TurnCounts(s: Scheduler, turn: Turn, idleTimeout: Option<Nanos>)
    ensures var (after, exit) := Turned(s, turn, idleTimeout);
      if FindsDue(s, turn.first)
      then exit.StillRunning? && DeliversAllDue(s, after, turn.first)
      else TakesMessage(s, after, exit, Brings(turn, s.pending == map[], idleTimeout))
  {
    var m := Untag(s.pending);
    assert m == map[] <==> s.pending == map[] by { assert m.Keys == s.pending.Keys; }
    FindsWhatIsDue(s, turn.first);
    if SomeDue(m, turn.first) {
      DeliveryMovesBatch(s, turn.first);
      MovedIsWhole(s, DueBatch(m, turn.first), turn.first, Deliver(s, turn.first));
      hide DeliversAllDue, Deliver, Untag, DueBatch, MovesBatch;
    } else {
      var brought := Brings(turn, s.pending == map[], idleTimeout);
      assert WaitUntil(turn.second, Earliest(m), idleTimeout).Some? <==> !(s.pending == map[] && idleTimeout.None?);
      hide Untag, Earliest, WaitUntil, SomeDue, Deliver;
      if brought.Some? && brought.value.Schedule? {
        EnterUntagged(Hear(s, brought.value), brought.value.jobId, brought.value.deadline);
      }
    }
  }

  // ----- the start

  /** A scheduler that has just taken over the deadlines of the listed jobs, in this order. */
  function TakeOver(m: Pending, jobs: seq<JobId>): (r: Scheduler)
    requires forall j | j in jobs :: j in m
  {
    if jobs == [] then Scheduler(map[], [], [], [], map[], [])
    else
      var last := jobs[|jobs| - 1];
      Enter(TakeOver(m, jobs[..|jobs| - 1]), last, m[last])
  }

  /** Nothing has happened to the scheduler but that the jobs' deadlines entered, in this order. */
  ghost predicate TakenOver(s: Scheduler, m: Pending, jobs: seq<JobId>)
    requires forall j | j in jobs :: j in m
  {
    && (forall j :: j in s.pending <==> j in jobs) && (forall j | j in s.pending :: s.pending[j].deadline == m[j])
    && s.received == [] && s.delivered == [] && s.log == [] && s.replaced == map[]
    && |s.entered| == |jobs|
    && forall i | 0 <= i < |jobs| :: s.entered[i].jobId == jobs[i] && s.entered[i].deadline == m[jobs[i]]
  }

  lemma TakingOneMore(s: Scheduler, m: Pending, jobs: seq<JobId>, last: JobId)
    requires (forall j | j in jobs :: j in m) && TakenOver(s, m, jobs) && last in m && last !in jobs
    ensures TakenOver(Enter(s, last, m[last]), m, jobs + [last])
  {}

  lemma {:induction false} TakeOverIsExact(m: Pending, jobs: seq<JobId>)
    requires forall j | j in jobs :: j in m
    requires forall i, j | 0 <= i < j < |jobs| :: jobs[i] != jobs[j]
    ensures TakenOver(TakeOver(m, jobs), m, jobs) && Accounted(TakeOver(m, jobs))
  {
    if jobs != [] {
      var init, last := jobs[..|jobs| - 1], jobs[|jobs| - 1];
      assert jobs == init + [last];
      TakeOverIsExact(m, init);
      var s := TakeOver(m, init);
      hide Accounted, Enter, TakenOver;
      EnterKeepsAccounts(s, last, m[last]);
      TakingOneMore(s, m, init, last);
    }
  }

  /** The start for any deadlines at all. */
  ghost function StartOf(m: Pending): (r: Scheduler) {
    BatchIsExact(m, U128_MAX);
    TakeOver(m, DueBatch(m, U128_MAX))
  }

  /** `entries` lists the deadlines of `m`, each job once. */
  ghost predicate Enumerates(m: Pending, entries: seq<(JobId, ElapsedInstant)>) {
    && (forall i | 0 <= i < |entries| :: entries[i].0 in m && m[entries[i].0] == entries[i].1)
    && (forall i, j | 0 <= i < j < |entries| :: entries[i].0 != entries[j].0)
    && (forall j :: j in m ==> exists i :: 0 <= i < |entries| && entries[i].0 == j)
  }

  lemma ListingEnumerates(m: Pending, jobs: seq<JobId>, entries: seq<(JobId, ElapsedInstant)>)
    requires Ascending(m, jobs) && forall j :: j in m ==> j in jobs
    requires |entries| == |jobs| && forall i | 0 <= i < |jobs| :: entries[i] == (jobs[i], m[jobs[i]])
    ensures Enumerates(m, entries)
  {
    forall i, j | 0 <= i < j < |entries| ensures entries[i].0 != entries[j].0 { assert Before(m, jobs[i], jobs[j]); }
    forall j | j in m ensures exists i :: 0 <= i < |entries| && entries[i].0 == j {
      assert j in jobs;
      var i :| 0 <= i < |jobs| && jobs[i] == j;
      assert entries[i].0 == j;
    }
  }

  lemma NothingReceivedYet(s: Scheduler)
    requires s.received == []
    ensures Complete(s, Entries(s.entered))
  {
    assert Schedules([]) == [] && Entries(s.entered) + [] == Entries(s.entered);
    hide Entries;
  }

  lemma StartIsExact(m: Pending)
    ensures var s := StartOf(m);
      && Untag(s.pending) == m && Accounted(s) && Enumerates(m, Entries(s.entered)) && Complete(s, Entries(s.entered))
      && s.received == [] && s.log == [] && s.delivered == []
  {
    hide DueBatch, TakeOver, Accounted, StartOf, Ascending, Enumerates, Complete, Untag;
    var jobs := StartJobs(m);
    TakeOverIsExact(m, jobs);
    var s := TakeOver(m, jobs);
    UntagsTo(s, m);
    ListingEnumerates(m, jobs, Entries(s.entered));
    NothingReceivedYet(s);
  }

  lemma StartJobs(m: Pending) returns (jobs: seq<JobId>)
    ensures Ascending(m, jobs) && (forall j :: j in jobs <==> j in m) && StartOf(m) == TakeOver(m, jobs)
    ensures forall i, j | 0 <= i < j < |jobs| :: jobs[i] != jobs[j]
  {
    jobs := DueBatch(m, U128_MAX);
    BatchIsExact(m, U128_MAX);
    hide DueBatch, TakeOver;
    forall i, j | 0 <= i < j < |jobs| ensures jobs[i] != jobs[j] { assert Before(m, jobs[i], jobs[j]); }
  }

  lemma UntagsTo(s: Scheduler, m: Pending)
    requires forall j :: j in s.pending <==> j in m
    requires forall j | j in s.pending :: s.pending[j].deadline == m[j]
    ensures Untag(s.pending) == m
  {}

  // ----- the loop itself

  /** What a whole run of the loop guarantees about the deadlines it was given, the messages it
      received and the batches it handed out. */
  ghost predicate Fates(before: Pending, end: Scheduler, received: seq<Message>, log: seq<Batch>) {
    && end.received == received && end.log == log && Accounted(end)
    && (exists first :: Enumerates(before, first) && Complete(end, first))
    && Deliveries(end.delivered) == Flattened(log)
  }

  lemma LoopDecidesFates(m: Pending, script: seq<Turn>, idleTimeout: Option<Nanos>)
    ensures var end := PlainLoop(StartOf(m), script, idleTimeout).0; Fates(m, end, end.received, end.log)
  {
    var s := StartOf(m);
    StartIsExact(m);
    EveryDeadlineHasOneFate(s, script, idleTimeout, Entries(s.entered));
    assert Deliveries(s.delivered) == Flattened(s.log);
    LogListsDeliveries(s, script, idleTimeout);
    hide StartOf, PlainLoop, Accounted, Enumerates, Complete, Deliveries, Flattened;
  }

  /** The heap-driven loop does exactly what the plain scheduler does on every script of clocks and
      messages: the same messages received, the same batches at the same readings, the same exit, the
      same deadlines left. So each deadline in the heap at the start, and each one received, has
      exactly one fate, and a timeout ends the loop only when nothing is pending. */
  method RunLoop(heap: DeadlineHeap, script: seq<Turn>, idleTimeout: Option<Nanos>)
    returns (log: seq<Batch>, received: seq<Message>, exit: Exit, ghost end: Scheduler)
    requires heap.Valid()
    modifies heap
    ensures heap.Valid() && heap.Contents() == Untag(end.pending)
    ensures (end, exit) == PlainLoop(StartOf(old(heap.Contents())), script, idleTimeout)
    ensures Fates(old(heap.Contents()), end, received, log)
    ensures exit.IdledOut? ==> heap.Contents() == map[]
  {
    hide Ordered, Indexed, Content, DueBatch, Undue, Enter, Hear, WaitUntil, NextJob, Earliest, Deliver, StartOf, Fates;
    ghost var before, start := heap.Contents(), StartOf(heap.Contents());
    StartIsExact(before);
    LoopDecidesFates(before, script, idleTimeout);
    log, received, exit := [], [], StillRunning;
    var at := 0;
    ghost var s := start;
    while at < |script|
      invariant 0 <= at <= |script| && heap.Valid() && heap.Contents() == Untag(s.pending)
      invariant log == s.log && received == s.received
      invariant PlainLoop(s, script[at..], idleTimeout) == PlainLoop(start, script, idleTimeout)
    {
      var turn := script[at];
      ghost var rest := script[at..];
      assert rest[0] == turn && rest[1..] == script[at + 1..];
      at := at + 1;
      DeliverUntagged(s, turn.first);
      var due := heap.PopDue(turn.first);
      if due != [] {
        log := log + [Batch(due, turn.first)];
        s := Deliver(s, turn.first);
        continue;
      }
      ghost var undelivered := Untag(s.pending);
      var empty := heap.IsEmpty();
      var next := heap.NextDeadline();
      EarliestIs(undelivered, next);
      assert empty <==> s.pending == map[] by { assert undelivered.Keys == s.pending.Keys; }
      var wait := WaitUntil(turn.second, next, idleTimeout);
      var event := if wait.Some? then turn.timed else Received(turn.blocking);
      if event.TimedOut? {
        if empty { return log, received, IdledOut, s; }
        continue;
      }
      received := received + [event.message];
      HeardUntagged(s, event.message);
      s := Hear(s, event.message);
      match event.message
      case Schedule(jobId, deadline) =>
        heap.Upsert(jobId, deadline);
        EnterUntagged(s, jobId, deadline);
        s := Enter(s, jobId, deadline);
      case Shutdown => return log, received, Stopped, s;
      case Disconnected => return log, received, Stopped, s;
    }
    return log, received, StillRunning, s;
  }

  lemma HeardUntagged(s: Scheduler, message: Message)
    ensures Hear(s, message).pending == s.pending && Hear(s, message).log == s.log
    ensures Hear(s, message).received == s.received + [message]
  {}
}
