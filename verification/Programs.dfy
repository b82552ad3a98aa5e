/** What it means that a program runs alone. The programs themselves (`Supervising`, `Monitoring`,
    `Signalling`, `Cancelling`) are imperative bodies over the store object, each proved to take exactly
    the steps of its protocol client. */
module Programs {
  import opened Wrappers
  import opened Primitives
  import opened Transitions
  import opened Jobs
  import opened Runs
  import opened Store
  import opened Protocol

  /** What the outside world decides, as a function of where the program stands. */
  type Oracle = Client -> Choice

  /** Everything a step does besides reading: what is stored under a claim, asked for, waited for,
      signalled and started. */
  datatype Deed =
    | DidClaim(claim: Claim) | DidRequest(run: RunId) | DidWait(wait: Waited) | DidSignal(sent: Sent)
    | DidStart(program: Client)

  function Deeds(e: Effect): (r: seq<Deed>) {
    (if e.claim.Some? then [DidClaim(e.claim.value)] else [])
    + (if e.requested.Some? then [DidRequest(e.requested.value)] else [])
    + (if e.waited.Some? then [DidWait(e.waited.value)] else [])
    + (if e.sent.Some? then [DidSignal(e.sent.value)] else [])
    + (if e.spawned.Some? then [DidStart(e.spawned.value)] else [])
  }

  /** The store, where the program stands in it (nowhere when it is done), and what it has done. */
  datatype Place = Place(store: StoreState, at: Option<Client>, deeds: seq<Deed>)

  /** The first `n` steps of a client that nobody interrupts. */
  ghost function Solo(s: StoreState, c: Client, oracle: Oracle, n: nat): (r: Place)
    decreases n
  {
    if n == 0 then Place(s, Some(c), [])
    else
      var e := Act(s, c, oracle(c));
      if e.next.None? then Place(e.store, None, Deeds(e))
      else
        var rest := Solo(e.store, e.next.value, oracle, n - 1);
        Place(rest.store, rest.at, Deeds(e) + rest.deeds)
  }

  lemma {:induction false} SoloJoins(s: StoreState, c: Client, oracle: Oracle, a: nat, b: nat)
    requires Solo(s, c, oracle, a).at.Some?
    ensures var mid := Solo(s, c, oracle, a);
      var rest := Solo(mid.store, mid.at.value, oracle, b);
      Solo(s, c, oracle, a + b) == Place(rest.store, rest.at, mid.deeds + rest.deeds)
    decreases a
  {
    hide Act, Deeds;
    var mid := Solo(s, c, oracle, a);
    var rest := Solo(mid.store, mid.at.value, oracle, b);
    if a == 0 {
      assert [] + rest.deeds == rest.deeds;
    } else {
      var e := Act(s, c, oracle(c));
      SoloJoins(e.store, e.next.value, oracle, a - 1, b);
      var later := Solo(e.store, e.next.value, oracle, a - 1).deeds;
      assert Deeds(e) + (later + rest.deeds) == (Deeds(e) + later) + rest.deeds;
    }
  }

  lemma NoStep(s: StoreState, c: Client, oracle: Oracle)
    ensures Solo(s, c, oracle, 0) == Place(s, Some(c), [])
  {}

  lemma OneStep(s: StoreState, c: Client, oracle: Oracle)
    ensures var e := Act(s, c, oracle(c)); Solo(s, c, oracle, 1) == Place(e.store, e.next, Deeds(e))
  {
    hide Act, Deeds;
    var e := Act(s, c, oracle(c));
    if e.next.Some? { assert Deeds(e) + Solo(e.store, e.next.value, oracle, 0).deeds == Deeds(e); }
  }

  /** One more step of a program whose first `n` steps are known. */
  lemma Onward(s: StoreState, c: Client, oracle: Oracle, n: nat, here: StoreState, at: Client, deeds: seq<Deed>)
    requires Solo(s, c, oracle, n) == Place(here, Some(at), deeds)
    ensures var e := Act(here, at, oracle(at));
      && Solo(s, c, oracle, n + 1) == Place(e.store, e.next, deeds + Deeds(e))
      && (Deeds(e) == [] ==> Solo(s, c, oracle, n + 1) == Place(e.store, e.next, deeds))
  {
    hide Act, Solo, Deeds;
    SoloJoins(s, c, oracle, n, 1);
    OneStep(here, at, oracle);
    assert deeds + [] == deeds;
  }

  // ----- shared steps

  lemma PlanThenWrite(s: StoreState, id: RunId, token: ClaimToken, finishedAt: UtcTimestamp, outcome: RunOutcome)
    ensures var plan := PlanTerminal(s, id, token, finishedAt, outcome);
      plan.WriteOutcome? ==>
        id in s.runs && TerminalWrite(s, s.runs[id], finishedAt, outcome) == WriteTerminal(s, plan.run)
  {}

  lemma RunsDecideLoads(s: StoreState, s': StoreState, run: Run)
    requires s'.runs == s.runs
    ensures LoadClaimed(s', run.id, run.claimToken) == LoadClaimed(s, run.id, run.claimToken)
  {}

  lemma ClaimedRow(s: StoreState, id: RunId, token: ClaimToken)
    ensures LoadClaimed(s, id, token).Ok? ==>
      id in s.runs && LoadClaimed(s, id, token).value == s.runs[id] && s.runs[id].claimToken == token
  {}

  /** The stored row can take the edge now: it is readable, not moved on, and the clock is not behind. */
  predicate CanCommit(s: StoreState, id: JobId, expected: Counter, to: JobState, now: UtcTimestamp) {
    Expected(s, id, expected) && s.jobs[id].updatedAt <= now && s.jobs[id].state in JobSources(to, false)
  }

  function Onto(job: JobSnapshot, to: JobState, now: UtcTimestamp): (r: JobSnapshot)
    requires job.revision < U64_MAX
  {
    job.(revision := job.revision + 1, state := to, updatedAt := now)
  }

  lemma TransitionResult(
    s: StoreState, id: JobId, expected: Counter, to: JobState, actor: Actor, reason: string, now: UtcTimestamp)
    ensures var (s', r) := JobTransitioned(s, id, expected, to, false, actor, reason, now);
      && s'.runs == s.runs && (r.Err? ==> s' == s)
      && (r.Ok? ==> id in s.jobs && r.value.id == s.jobs[id].id && r.value.state == to)
      && (r.Ok? && s.jobs[id].id == id ==> id in s'.jobs && s'.jobs[id] == r.value)
  {}

  /** One job transition of a program, from the row it holds. */
  method Transit(store: JobStore, job: JobSnapshot, to: JobState, actor: Actor, reason: Reason, now: UtcTimestamp)
    returns (r: Result<JobSnapshot, StoreError>)
    requires store.Valid()
    modifies store
    ensures store.Valid() && store.runs == old(store.runs)
    ensures (store.State(), r)
      == JobTransitioned(old(store.State()), job.id, job.revision, to, false, actor, reason.Text(), now)
    ensures r.Ok? <==> CanCommit(old(store.State()), job.id, job.revision, to, now)
    ensures r.Err? ==> store.State() == old(store.State())
    ensures r.Ok? ==>
      r.value == Onto(old(store.jobs)[job.id], to, now) && store.jobs == old(store.jobs)[job.id := r.value]
    ensures r.Ok? ==>
      store.State() == Committed(old(store.State()), r.value, old(store.jobs)[job.id].state, actor, reason.Text())
  {
    hide JobTransitioned, Reason.Text, ValidReason;
    ReasonIsValid(reason);
    r := store.TransitionJob(job.id, job.revision, to, false, actor, reason.Text(), now);
  }
}
