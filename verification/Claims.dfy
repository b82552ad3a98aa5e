/** Which runs can exist at all, and how they are numbered: the claims and the run table agree. */
module Claims {
  import opened Wrappers
  import opened Primitives
  import opened Transitions
  import opened Jobs
  import opened Runs
  import opened Store
  import opened Protocol
  import opened RunMoves
  import opened RunSafety
  import JobSafety

  ghost predicate ClaimedBy(claims: seq<Claim>, run: Run) {
    exists i :: 0 <= i < |claims| && claims[i].run == run.id && claims[i].job == run.jobId
  }

  predicate SameOccurrence(a: Run, b: Run) {
    a.jobId == b.jobId && a.scheduledFor == b.scheduledFor
  }

  ghost predicate ClaimsOk(runs: map<RunId, Run>, claims: seq<Claim>) {
    && (forall r :: r in runs ==> ClaimedBy(claims, runs[r]))
    && (forall i | 0 <= i < |claims| :: claims[i].run in runs)
    && (forall r, q :: r in runs && q in runs && SameOccurrence(runs[r], runs[q]) ==> r == q)
  }

  /** How often the job was claimed. */
  function CountOf(claims: seq<Claim>, job: JobId): (n: nat)
    ensures n <= |claims|
  {
    if claims == [] then 0
    else
      var last := |claims| - 1;
      CountOf(claims[..last], job) + if claims[last].job == job then 1 else 0
  }

  /** The run of a claim is numbered by the claims of the same job before it. */
  predicate Numbered(runs: map<RunId, Run>, claims: seq<Claim>, i: nat)
    requires i < |claims|
  {
    && claims[i].run in runs && runs[claims[i].run].jobId == claims[i].job
    && runs[claims[i].run].sequence == CountOf(claims[..i], claims[i].job) + 1
  }

  predicate InOrder(runs: map<RunId, Run>, claims: seq<Claim>) {
    forall i | 0 <= i < |claims| :: Numbered(runs, claims, i)
  }

  // ----- counting claims

  lemma {:induction false} CountGrows(claims: seq<Claim>, job: JobId, i: nat)
    requires i <= |claims|
    ensures CountOf(claims[..i], job) <= CountOf(claims, job)
    ensures i < |claims| && claims[i].job == job ==> CountOf(claims[..i], job) < CountOf(claims, job)
  {
    if i < |claims| {
      var front := claims[..|claims| - 1];
      CountGrows(front, job, i);
      assert front[..i] == claims[..i];
    } else {
      assert claims[..i] == claims;
    }
  }

  /** Every number up to the count belongs to exactly one claim; here is the claim. */
  lemma {:induction false} ClaimNumbered(claims: seq<Claim>, job: JobId, n: nat) returns (i: nat)
    requires 1 <= n <= CountOf(claims, job)
    ensures i < |claims| && claims[i].job == job && CountOf(claims[..i], job) + 1 == n
  {
    var last := |claims| - 1;
    if claims[last].job == job && n == CountOf(claims, job) {
      i := last;
    } else {
      i := ClaimNumbered(claims[..last], job, n);
      assert claims[..last][..i] == claims[..i];
    }
  }

  // ----- one step

  /** What a claim that went through has done to the store. */
  ghost predicate NewClaim(s: StoreState, s': StoreState, claim: Claim) {
    && Moves(s, s', Insert(claim.run)) && claim.job == s'.runs[claim.run].jobId
    && !OccurrenceClaimed(s.runs, claim.job, s'.runs[claim.run].scheduledFor)
    && s'.runs[claim.run].sequence == HighestSequence(s.runs, claim.job) + 1
  }

  lemma ClaimedIsNew(s: StoreState, job: JobId, due: UtcTimestamp, now: UtcTimestamp, id: RunId, token: ClaimToken)
    ensures var (s', r) := RunClaimed(s, job, due, now, id, token);
      && (r.Ok? ==> forall revision :: NewClaim(s, s', Claim(id, job, revision)))
      && (r.Err? ==> s' == s)
  {
    hide OccurrenceClaimed, HighestSequence;
  }

  lemma ClaimIsNew(s: StoreState, c: Client, ch: Choice)
    ensures var e := Act(s, c, ch);
      && (e.claim.Some? ==> c.DueClaim? && e.claim.value.run == ch.runId && NewClaim(s, e.store, e.claim.value))
      && (e.claim.None? && c.DueClaim? ==> e.store == s)
  {
    hide NewClaim, RunClaimed;
    if c.DueClaim? {
      ActOf(s, c, ch);
      hide Act;
      ClaimedIsNew(s, c.job.id, c.job.nextDue, c.now, ch.runId, ch.token);
    }
  }

  lemma NewOccurrence(s: StoreState, s': StoreState, claim: Claim)
    requires NewClaim(s, s', claim)
    ensures forall r :: r in s.runs && s.runs[r].jobId == claim.job ==>
      s.runs[r].scheduledFor != s'.runs[claim.run].scheduledFor
  {}

  lemma InsertKeepsClaims(s: StoreState, s': StoreState, claims: seq<Claim>, claim: Claim)
    requires ClaimsOk(s.runs, claims) && RunsOk(s) && NewClaim(s, s', claim)
    ensures ClaimsOk(s'.runs, claims + [claim])
  {
    hide OccurrenceClaimed, HighestSequence;
    var claims' := claims + [claim];
    forall i | 0 <= i < |claims'| ensures claims'[i].run in s'.runs {}
    forall r | r in s'.runs ensures ClaimedBy(claims', s'.runs[r]) {
      if r == claim.run {
        assert claims'[|claims|] == claim;
      } else {
        assert ClaimedBy(claims, s.runs[r]);
        var i :| 0 <= i < |claims| && claims[i].run == s.runs[r].id && claims[i].job == s.runs[r].jobId;
        assert claims'[i] == claims[i];
      }
    }
    hide ClaimedBy;
    NewOccurrence(s, s', claim);
  }

  /** The highest number given out so far is the number of claims. */
  lemma HighestIsCount(s: StoreState, claims: seq<Claim>, job: JobId)
    requires ClaimsOk(s.runs, claims) && InOrder(s.runs, claims) && RunsOk(s)
    ensures HighestSequence(s.runs, job) == CountOf(claims, job)
  {
    forall r | r in s.runs && s.runs[r].jobId == job ensures 1 <= s.runs[r].sequence <= CountOf(claims, job) {
      assert ClaimedBy(claims, s.runs[r]);
      var i :| 0 <= i < |claims| && claims[i].run == r && claims[i].job == job;
      assert Numbered(s.runs, claims, i);
      CountGrows(claims, job, i);
    }
    if CountOf(claims, job) > 0 {
      var i := ClaimNumbered(claims, job, CountOf(claims, job));
      assert Numbered(s.runs, claims, i);
      assert IsLatest(s.runs, job, claims[i].run);
    }
  }

  lemma InsertKeepsOrder(s: StoreState, s': StoreState, claims: seq<Claim>, claim: Claim)
    requires ClaimsOk(s.runs, claims) && InOrder(s.runs, claims) && RunsOk(s) && NewClaim(s, s', claim)
    ensures InOrder(s'.runs, claims + [claim])
  {
    HighestIsCount(s, claims, claim.job);
    hide OccurrenceClaimed, HighestSequence, CountOf;
    var claims' := claims + [claim];
    forall i | 0 <= i < |claims'| ensures Numbered(s'.runs, claims', i) {
      if i < |claims| {
        assert Numbered(s.runs, claims, i);
        assert claims'[..i] == claims[..i];
      } else {
        assert claims'[..i] == claims;
      }
    }
  }

  lemma IdentitiesStay(s: StoreState, s': StoreState, m: Move)
    requires RunsOk(s) && Moves(s, s', m) && !m.Insert?
    ensures s'.runs.Keys == s.runs.Keys
    ensures forall r :: r in s.runs ==> s'.runs[r].id == r && SameIdentity(s.runs[r], s'.runs[r])
  {
    hide Consistent;
  }

  lemma OtherMoveKeepsClaims(s: StoreState, s': StoreState, m: Move, claims: seq<Claim>)
    requires ClaimsOk(s.runs, claims) && RunsOk(s) && Moves(s, s', m) && !m.Insert?
    ensures ClaimsOk(s'.runs, claims)
    ensures InOrder(s.runs, claims) ==> InOrder(s'.runs, claims)
  {
    IdentitiesStay(s, s', m);
    hide Moves, RunsOk, CountOf;
    forall r | r in s'.runs ensures ClaimedBy(claims, s'.runs[r]) {
      assert ClaimedBy(claims, s.runs[r]);
    }
    if InOrder(s.runs, claims) {
      forall i | 0 <= i < |claims| ensures Numbered(s'.runs, claims, i) {
        assert Numbered(s.runs, claims, i);
      }
    }
  }

  /** The claims made so far, and the run table they have filled. */
  ghost predicate ClaimInv(w: World) {
    ClaimsOk(w.store.runs, w.claims) && InOrder(w.store.runs, w.claims)
  }

  lemma StepKeepsClaims(w: World, e: Event)
    requires RunInv(w) && ClaimInv(w) && e.Step? && e.client in w.clients
    ensures ClaimInv(Apply(w, e))
  {
    var m := StepHasMove(w, e);
    ClaimIsNew(w.store, w.clients[e.client], e.choice);
    var effect := Act(w.store, w.clients[e.client], e.choice);
    hide Act, Moves, NewClaim, ClaimsOk, InOrder, MoveOf, RunsOk;
    if effect.claim.Some? {
      InsertKeepsClaims(w.store, effect.store, w.claims, effect.claim.value);
      InsertKeepsOrder(w.store, effect.store, w.claims, effect.claim.value);
    } else if m.Insert? {
      assert effect.store.runs == w.store.runs;
    } else {
      OtherMoveKeepsClaims(w.store, effect.store, m, w.claims);
    }
  }

  lemma NextKeepsClaims(mode: Mode, w: World, e: Event)
    requires RunInv(w) && ClaimInv(w) && Enabled(mode, w, e)
    ensures ClaimInv(Apply(w, e))
  {
    if e.Step? {
      hide ClaimInv;
      StepKeepsClaims(w, e);
    } else {
      OtherEventsKeepRuns(mode, w, e);
    }
  }

  lemma NoClaimsYet(w: World)
    requires Initial(w)
    ensures ClaimInv(w)
  {}

  lemma {:induction false} TraceKeepsClaims(mode: Mode, ws: seq<World>, i: nat)
    requires Trace(mode, ws) && i < |ws|
    ensures ClaimInv(ws[i])
  {
    hide RunInv, ClaimInv, Initial, Next, Apply, Enabled;
    if i == 0 {
      NoClaimsYet(ws[0]);
    } else {
      TraceKeepsClaims(mode, ws, i - 1);
      TraceKeepsRuns(mode, ws, i - 1);
      var e := EventBetween(mode, ws[i - 1], ws[i]);
      NextKeepsClaims(mode, ws[i - 1], e);
    }
  }

  // ----- results

  predicate IsRecurring(s: StoreState, id: JobId) {
    id in s.jobs && s.jobs[id].schedule.RecurringInterval?
  }

  /** No occurrence of a job is ever run twice, and a one-shot job has at most one run in its life.
      Every run belongs to a stored job. */
  lemma EachOccurrenceRunsOnce(mode: Mode, ws: seq<World>, i: nat, r: RunId, q: RunId)
    requires Trace(mode, ws) && i < |ws| && r in ws[i].store.runs && q in ws[i].store.runs
    requires ws[i].store.runs[r].jobId == ws[i].store.runs[q].jobId
    ensures ws[i].store.runs[r].jobId in ws[i].store.jobs
    ensures ws[i].store.runs[r].scheduledFor == ws[i].store.runs[q].scheduledFor ==> r == q
    ensures !IsRecurring(ws[i].store, ws[i].store.runs[r].jobId) ==> r == q
  {
    TraceKeepsClaims(mode, ws, i);
    TraceKeepsRuns(mode, ws, i);
    JobSafety.TraceKeepsJobs(mode, ws, i);
    hide Trace, RunClientOk, InOrder, JobSafety.JobClientOk, JobSafety.RestrainedStore;
    var a, b := ws[i].store.runs[r], ws[i].store.runs[q];
    assert ClaimedBy(ws[i].claims, a) && ClaimedBy(ws[i].claims, b);
    var k :| 0 <= k < |ws[i].claims| && ws[i].claims[k].run == a.id && ws[i].claims[k].job == a.jobId;
    assert JobSafety.StartedRow(ws[i].store, a.jobId, ws[i].claims[k].revision);
    if !IsRecurring(ws[i].store, a.jobId) { JobSafety.OneShotClaimedAtMostOnce(mode, ws, i, a.jobId); }
  }

  lemma LaterClaimIsHigher(runs: map<RunId, Run>, claims: seq<Claim>, a: nat, b: nat)
    requires InOrder(runs, claims) && a < b < |claims| && claims[a].job == claims[b].job
    ensures claims[a].run in runs && claims[b].run in runs
    ensures runs[claims[a].run].sequence < runs[claims[b].run].sequence
  {
    hide CountOf;
    assert Numbered(runs, claims, a) && Numbered(runs, claims, b);
    CountGrows(claims[..b], claims[b].job, a);
    assert claims[..b][..a] == claims[..a];
  }

  /** The claim a run came from. */
  lemma ClaimOf(s: StoreState, claims: seq<Claim>, r: RunId) returns (k: nat)
    requires ClaimsOk(s.runs, claims) && InOrder(s.runs, claims) && RunsOk(s) && r in s.runs
    ensures k < |claims| && claims[k].run == r && claims[k].job == s.runs[r].jobId && Numbered(s.runs, claims, k)
  {
    hide CountOf;
    assert ClaimedBy(claims, s.runs[r]);
    var i :| 0 <= i < |claims| && claims[i].run == r && claims[i].job == s.runs[r].jobId;
    k := i;
  }

  lemma SequencesDiffer(s: StoreState, claims: seq<Claim>, r: RunId, q: RunId)
    requires ClaimsOk(s.runs, claims) && InOrder(s.runs, claims) && RunsOk(s)
    requires r in s.runs && q in s.runs && r != q && s.runs[r].jobId == s.runs[q].jobId
    ensures s.runs[r].sequence != s.runs[q].sequence
  {
    var a := ClaimOf(s, claims, r);
    var b := ClaimOf(s, claims, q);
    hide ClaimsOk, InOrder, Numbered, CountOf;
    if a < b { LaterClaimIsHigher(s.runs, claims, a, b); } else { LaterClaimIsHigher(s.runs, claims, b, a); }
  }

  /** The runs of a job are numbered 1, 2, 3, ... without a gap and without a repeat, in the order in
      which they were claimed. */
  ghost predicate NumberedInOrder(runs: map<RunId, Run>, claims: seq<Claim>, job: JobId) {
    && (forall a, b | 0 <= a < b < |claims| :: claims[a].job == claims[b].job == job ==>
          && claims[a].run in runs && claims[b].run in runs
          && runs[claims[a].run].sequence < runs[claims[b].run].sequence)
    && (forall r, q :: r in runs && q in runs && runs[r].jobId == runs[q].jobId == job && r != q ==>
          runs[r].sequence != runs[q].sequence)
    && (forall r :: r in runs && runs[r].jobId == job ==> 1 <= runs[r].sequence <= CountOf(claims, job))
    && (forall n :: 1 <= n <= CountOf(claims, job) ==> HasNumber(runs, job, n))
  }

  ghost predicate HasNumber(runs: map<RunId, Run>, job: JobId, n: int) {
    exists r :: r in runs && runs[r].jobId == job && runs[r].sequence == n
  }

  lemma OrderNumbersRuns(s: StoreState, claims: seq<Claim>, job: JobId)
    requires ClaimsOk(s.runs, claims) && InOrder(s.runs, claims) && RunsOk(s)
    ensures NumberedInOrder(s.runs, claims, job)
  {
    hide ClaimsOk, InOrder, RunsOk, CountOf;
    var runs := s.runs;
    forall a, b | 0 <= a < b < |claims| && claims[a].job == claims[b].job == job
      ensures claims[a].run in runs && claims[b].run in runs
      ensures runs[claims[a].run].sequence < runs[claims[b].run].sequence
    {
      LaterClaimIsHigher(runs, claims, a, b);
    }
    forall r, q | r in runs && q in runs && runs[r].jobId == runs[q].jobId == job && r != q
      ensures runs[r].sequence != runs[q].sequence
    {
      SequencesDiffer(s, claims, r, q);
    }
    forall r | r in runs && runs[r].jobId == job ensures 1 <= runs[r].sequence <= CountOf(claims, job) {
      var k := ClaimOf(s, claims, r);
      CountGrows(claims, job, k);
    }
    forall n | 1 <= n <= CountOf(claims, job) ensures HasNumber(runs, job, n) {
      NumberIsThere(runs, claims, job, n);
    }
  }

  lemma NumberIsThere(runs: map<RunId, Run>, claims: seq<Claim>, job: JobId, n: nat)
    requires InOrder(runs, claims) && 1 <= n <= CountOf(claims, job)
    ensures HasNumber(runs, job, n)
  {
    var k := ClaimNumbered(claims, job, n);
    assert Numbered(runs, claims, k);
  }

  /** So it is at every moment of every run of the system, whoever else claims at the same time. */
  lemma SequencesFollowClaims(mode: Mode, ws: seq<World>, i: nat, job: JobId)
    requires Trace(mode, ws) && i < |ws|
    ensures NumberedInOrder(ws[i].store.runs, ws[i].claims, job)
  {
    TraceKeepsClaims(mode, ws, i);
    TraceKeepsRuns(mode, ws, i);
    OrderNumbersRuns(ws[i].store, ws[i].claims, job);
  }
}
