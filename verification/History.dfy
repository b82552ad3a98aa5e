/** What the transition table says about a job, under any callers of the store. */
module History {
  import opened Wrappers
  import opened Primitives
  import opened Transitions
  import opened Jobs
  import opened Store

  function StateAfter(rows: seq<HistoryRow>, k: nat): (r: JobState)
    requires k <= |rows|
  {
    if k == 0 then Scheduled else rows[k - 1].to
  }

  function TimeAfter(createdAt: UtcTimestamp, rows: seq<HistoryRow>, k: nat): (r: UtcTimestamp)
    requires k <= |rows|
  {
    if k == 0 then createdAt else rows[k - 1].at
  }

  predicate RowFollows(createdAt: UtcTimestamp, rows: seq<HistoryRow>, k: nat)
    requires k < |rows|
  {
    && rows[k].revision == k + 2
    && rows[k].from == StateAfter(rows, k)
    && (OneShotLegal(rows[k].from, rows[k].to) || RecurringLegal(rows[k].from, rows[k].to))
    && TimeAfter(createdAt, rows, k) <= rows[k].at
  }

  /** The rows are one unbroken legal path from `Scheduled` that ends in the stored job. */
  ghost predicate LegalHistory(job: JobSnapshot, rows: seq<HistoryRow>) {
    && job.revision == |rows| + 1
    && (forall k | 0 <= k < |rows| :: RowFollows(job.createdAt, rows, k))
    && job.state == StateAfter(rows, |rows|)
    && job.updatedAt == TimeAfter(job.createdAt, rows, |rows|)
  }

  ghost predicate LegalStore(s: StoreState) {
    && (forall id :: id in s.jobs ==> s.jobs[id].id == id && LegalHistory(s.jobs[id], HistoryOf(s, id)))
    && (forall id :: id in s.history ==> id in s.jobs)
  }

  datatype StoreCall =
    | Create(job: JobSnapshot)
    | Transit(id: JobId, expected: Counter, to: JobState, recurring: bool, actor: Actor, reason: string,
              now: UtcTimestamp)
    | Advance(id: JobId, expected: Counter, now: UtcTimestamp)

  /** The new state, and whether the call committed. */
  function Perform(s: StoreState, call: StoreCall): (r: (StoreState, bool)) {
    match call
    case Create(job) => var (after, r) := JobCreated(s, job); (after, r.Ok?)
    case Transit(id, expected, to, recurring, actor, reason, now) =>
      var (after, r) := JobTransitioned(s, id, expected, to, recurring, actor, reason, now); (after, r.Ok?)
    case Advance(id, expected, now) =>
      var (after, r) := RecurringAdvanced(s, id, expected, now); (after, r.Ok?)
  }

  function PerformAll(s: StoreState, calls: seq<StoreCall>): (r: StoreState)
    decreases |calls|
  {
    if calls == [] then s else PerformAll(Perform(s, calls[0]).0, calls[1..])
  }

  /** Jobs enter the store as `Job::new` makes them; the other calls are unrestricted. */
  predicate CreatesNewborns(calls: seq<StoreCall>) {
    forall k | 0 <= k < |calls| :: calls[k].Create? ==> IsNewborn(calls[k].job)
  }

  lemma TimesGrow(job: JobSnapshot, rows: seq<HistoryRow>, k: nat)
    requires LegalHistory(job, rows) && k <= |rows|
    ensures job.createdAt <= TimeAfter(job.createdAt, rows, k)
  {
    if k > 0 {
      TimesGrow(job, rows, k - 1);
      assert RowFollows(job.createdAt, rows, k - 1);
    }
  }

  /** `after` is `before` moved along one legal edge, whichever call did it. */
  predicate OneEdge(before: JobSnapshot, after: JobSnapshot) {
    && after == before.(
      revision := after.revision, state := after.state, updatedAt := after.updatedAt, nextDue := after.nextDue)
    && after.revision == before.revision + 1
    && before.updatedAt <= after.updatedAt
    && (OneShotLegal(before.state, after.state) || RecurringLegal(before.state, after.state))
  }

  predicate AddsRow(before: JobSnapshot, after: JobSnapshot, rows: seq<HistoryRow>, rows': seq<HistoryRow>) {
    && |rows'| == |rows| + 1
    && rows'[..|rows|] == rows
    && var row := rows'[|rows|];
      row.from == before.state && row.to == after.state && row.at == after.updatedAt && row.revision == after.revision
  }

  /** One committed move: one job takes one edge, gains the matching row, and nothing else changes. */
  ghost predicate OneMove(s: StoreState, s': StoreState, id: JobId) {
    && id in s.jobs && id in s'.jobs && id in s'.history
    && OneEdge(s.jobs[id], s'.jobs[id])
    && s'.jobs == s.jobs[id := s'.jobs[id]]
    && s'.history == s.history[id := s'.history[id]]
    && AddsRow(s.jobs[id], s'.jobs[id], HistoryOf(s, id), s'.history[id])
  }

  lemma CommitIsOneMove(s: StoreState, before: JobSnapshot, after: JobSnapshot, actor: Actor, reason: string)
    requires before.id in s.jobs && s.jobs[before.id] == before && OneEdge(before, after)
    ensures OneMove(s, Commit(s, before, after, actor, reason), before.id)
  {}

  lemma RowsStayLegal(before: JobSnapshot, after: JobSnapshot, rows: seq<HistoryRow>, rows': seq<HistoryRow>)
    requires LegalHistory(before, rows) && OneEdge(before, after) && AddsRow(before, after, rows, rows')
    ensures LegalHistory(after, rows')
  {
    forall k | 0 <= k < |rows'| ensures RowFollows(after.createdAt, rows', k) {
      assert forall m | 0 <= m < |rows| :: rows'[m] == rows[m];
      if k < |rows| { assert RowFollows(before.createdAt, rows, k); }
    }
  }

  lemma MoveKeepsLegal(s: StoreState, s': StoreState, id: JobId)
    requires LegalStore(s) && OneMove(s, s', id)
    ensures LegalStore(s')
  {
    hide LegalHistory, OneEdge, AddsRow;
    forall other | other in s'.jobs
      ensures s'.jobs[other].id == other && LegalHistory(s'.jobs[other], HistoryOf(s', other))
    {
      if other == id {
        RowsStayLegal(s.jobs[id], s'.jobs[id], HistoryOf(s, id), s'.history[id]);
        EdgeKeepsId(s.jobs[id], s'.jobs[id]);
      } else {
        assert HistoryOf(s', other) == HistoryOf(s, other);
      }
    }
  }

  lemma EdgeKeepsId(before: JobSnapshot, after: JobSnapshot)
    requires OneEdge(before, after)
    ensures after.id == before.id
  {}

  lemma PerformKeepsLegal(s: StoreState, call: StoreCall)
    requires LegalStore(s) && (call.Create? ==> IsNewborn(call.job))
    ensures LegalStore(Perform(s, call).0)
  {
    var s' := Perform(s, call).0;
    if !Perform(s, call).1 { return; }
    match call
    case Create(job) =>
      forall id | id in s'.jobs ensures s'.jobs[id].id == id && LegalHistory(s'.jobs[id], HistoryOf(s', id)) {
        assert HistoryOf(s', id) == HistoryOf(s, id);
      }
    case Transit(id, _, _, _, actor, reason, _) =>
      CommitIsOneMove(s, s.jobs[id], s'.jobs[id], actor, reason);
      MoveKeepsLegal(s, s', id);
    case Advance(id, _, _) =>
      CommitIsOneMove(s, s.jobs[id], s'.jobs[id], Monitor, ADVANCE_REASON);
      MoveKeepsLegal(s, s', id);
  }

  /** Any interleaving of store calls, by any number of writers, leaves every job with one legal
      path, consecutive revisions, times that never go back, and a row that repeats the path's end. */
  lemma {:induction false} EveryHistoryIsLegal(s: StoreState, calls: seq<StoreCall>)
    requires LegalStore(s) && CreatesNewborns(calls)
    ensures LegalStore(PerformAll(s, calls))
    decreases |calls|
  {
    if calls != [] {
      PerformKeepsLegal(s, calls[0]);
      EveryHistoryIsLegal(Perform(s, calls[0]).0, calls[1..]);
    }
  }

  // ----- the compare-and-swap

  predicate Writes(call: StoreCall, id: JobId, revision: Counter) {
    || (call.Transit? && call.id == id && call.expected == revision)
    || (call.Advance? && call.id == id && call.expected == revision)
  }

  function RevisionOf(s: StoreState, id: JobId): (r: nat) {
    if id in s.jobs then s.jobs[id].revision else 0
  }

  lemma RevisionGrows(s: StoreState, call: StoreCall, id: JobId)
    requires LegalStore(s) && (call.Create? ==> IsNewborn(call.job))
    ensures RevisionOf(s, id) <= RevisionOf(Perform(s, call).0, id)
    ensures forall r: Counter :: Writes(call, id, r) ==>
      (Perform(s, call).1 ==> RevisionOf(s, id) == r < RevisionOf(Perform(s, call).0, id))
    ensures !Perform(s, call).1 ==> Perform(s, call).0 == s
  {}

  lemma {:induction false} RevisionNeverFalls(s: StoreState, calls: seq<StoreCall>, id: JobId)
    requires LegalStore(s) && CreatesNewborns(calls)
    ensures RevisionOf(s, id) <= RevisionOf(PerformAll(s, calls), id)
    decreases |calls|
  {
    if calls != [] {
      RevisionGrows(s, calls[0], id);
      PerformKeepsLegal(s, calls[0]);
      RevisionNeverFalls(Perform(s, calls[0]).0, calls[1..], id);
    }
  }

  /** Did call number `k` of the run commit? */
  predicate CommittedAt(s: StoreState, calls: seq<StoreCall>, k: nat)
    requires k < |calls|
  {
    Perform(PerformAll(s, calls[..k]), calls[k]).1
  }

  lemma {:induction false} PerformSplit(s: StoreState, before: seq<StoreCall>, after: seq<StoreCall>)
    ensures PerformAll(s, before + after) == PerformAll(PerformAll(s, before), after)
    decreases |before|
  {
    if before == [] {
      assert before + after == after;
    } else {
      assert (before + after)[1..] == before[1..] + after;
      PerformSplit(Perform(s, before[0]).0, before[1..], after);
    }
  }

  lemma PerformFirst(s: StoreState, calls: seq<StoreCall>)
    requires calls != []
    ensures PerformAll(s, calls) == PerformAll(Perform(s, calls[0]).0, calls[1..])
  {
    hide Perform;
  }

  /** After the commit no later call brings the old revision back. */
  lemma CommittedStaysPast(s: StoreState, call: StoreCall, rest: seq<StoreCall>, id: JobId, revision: Counter)
    requires LegalStore(s) && CreatesNewborns([call]) && CreatesNewborns(rest)
    requires Writes(call, id, revision) && Perform(s, call).1
    ensures revision < RevisionOf(PerformAll(Perform(s, call).0, rest), id)
  {
    hide LegalStore, PerformAll, Perform, RevisionOf;
    assert [call][0] == call;
    RevisionGrows(s, call, id);
    PerformKeepsLegal(s, call);
    RevisionNeverFalls(Perform(s, call).0, rest, id);
  }

  lemma CommitMovesOn(s: StoreState, calls: seq<StoreCall>, i: nat, j: nat, id: JobId, revision: Counter)
    requires LegalStore(s) && CreatesNewborns(calls)
    requires i < j <= |calls| && Writes(calls[i], id, revision) && CommittedAt(s, calls, i)
    ensures revision < RevisionOf(PerformAll(s, calls[..j]), id)
  {
    hide LegalStore, PerformAll, Perform, RevisionOf, Writes;
    var first, rest := PerformAll(s, calls[..i]), calls[i..j];
    PerformFirst(first, rest);
    EveryHistoryIsLegal(s, calls[..i]);
    CommittedStaysPast(first, calls[i], rest[1..], id, revision);
    PerformSplit(s, calls[..i], rest);
    assert calls[..j] == calls[..i] + rest;
  }

  /** Of all the writers that hold the same revision of a job, at most one ever commits. */
  lemma OneWriterPerRevision(s: StoreState, calls: seq<StoreCall>, i: nat, j: nat, id: JobId, revision: Counter)
    requires LegalStore(s) && CreatesNewborns(calls)
    requires i < j < |calls| && Writes(calls[i], id, revision) && Writes(calls[j], id, revision)
    ensures !(CommittedAt(s, calls, i) && CommittedAt(s, calls, j))
  {
    if CommittedAt(s, calls, i) {
      CommitMovesOn(s, calls, i, j, id, revision);
      EveryHistoryIsLegal(s, calls[..j]);
      RevisionGrows(PerformAll(s, calls[..j]), calls[j], id);
    }
  }
}
