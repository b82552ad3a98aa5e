/** The plain view of pending deadlines: a map from job to due time, and the batch it owes. */
module Deadlines {
  import opened Primitives

  type Pending = map<JobId, ElapsedInstant>

  /** The total order of deliveries: due time first, then job. */
  predicate Before(m: Pending, a: JobId, b: JobId)
    requires a in m && b in m
  {
    m[a] < m[b] || (m[a] == m[b] && a < b)
  }

  ghost predicate IsNext(m: Pending, j: JobId) {
    j in m && forall k :: k in m ==> k == j || Before(m, j, k)
  }

  ghost predicate SomeDue(m: Pending, now: ElapsedInstant) {
    exists j :: j in m && m[j] <= now
  }

  lemma {:induction false} NextExists(m: Pending)
    requires m != map[]
    ensures exists j :: IsNext(m, j)
    decreases |m|
  {
    var k :| k in m;
    var rest := m - {k};
    if rest == map[] {
      forall q | q in m ensures q == k { assert q in rest || q == k; }
      assert IsNext(m, k);
    } else {
      assert |rest.Keys| < |m.Keys| by { assert rest.Keys == m.Keys - {k}; }
      NextExists(rest);
      var j :| IsNext(rest, j);
      var best := if Before(m, k, j) then k else j;
      forall q | q in m ensures q == best || Before(m, best, q) {
        if q != k { assert q in rest; }
      }
      assert IsNext(m, best);
    }
  }

  lemma NextIsUnique(m: Pending, a: JobId, b: JobId)
    requires IsNext(m, a) && IsNext(m, b)
    ensures a == b
  {
    assert a == b || Before(m, a, b);
  }

  ghost function NextJob(m: Pending): (j: JobId)
    requires m != map[]
    ensures IsNext(m, j)
  {
    NextExists(m);
    var j :| IsNext(m, j);
    j
  }

  /** The batch a scheduler owes at `now`: again and again the next job, while it is due. */
  ghost function DueBatch(m: Pending, now: ElapsedInstant): (r: seq<JobId>)
    decreases |m|
  {
    if m == map[] || m[NextJob(m)] > now then []
    else
      assert (m - {NextJob(m)}).Keys == m.Keys - {NextJob(m)};
      assert |(m - {NextJob(m)}).Keys| < |m.Keys|;
      [NextJob(m)] + DueBatch(m - {NextJob(m)}, now)
  }

  ghost function Undue(m: Pending, now: ElapsedInstant): (r: Pending) {
    map j | j in m && m[j] > now :: m[j]
  }

  lemma BatchStep(m: Pending, now: ElapsedInstant, j: JobId)
    requires IsNext(m, j) && m[j] <= now
    ensures DueBatch(m, now) == [j] + DueBatch(m - {j}, now)
    ensures Undue(m, now) == Undue(m - {j}, now)
  {
    NextIsUnique(m, j, NextJob(m));
  }

  lemma BatchEnd(m: Pending, now: ElapsedInstant)
    requires forall j :: j in m ==> m[j] > now
    ensures DueBatch(m, now) == [] && Undue(m, now) == m
  {}

  ghost predicate Ascending(m: Pending, batch: seq<JobId>) {
    && (forall i | 0 <= i < |batch| :: batch[i] in m)
    && (forall i, j | 0 <= i < j < |batch| :: Before(m, batch[i], batch[j]))
  }

  lemma PrependingNext(m: Pending, now: ElapsedInstant, j: JobId, rest: seq<JobId>)
    requires IsNext(m, j) && m[j] <= now
    requires forall k :: k in rest <==> k in m && k != j && m[k] <= now
    requires Ascending(m - {j}, rest)
    ensures forall k :: k in [j] + rest <==> k in m && m[k] <= now
    ensures Ascending(m, [j] + rest)
  {
    var batch := [j] + rest;
    assert forall k | 0 <= k < |rest| :: batch[k + 1] == rest[k];
    forall i, k | 0 <= i < k < |batch| ensures batch[i] in m && batch[k] in m && Before(m, batch[i], batch[k]) {
      assert batch[k] == rest[k - 1] && rest[k - 1] in m - {j};
      if i > 0 { assert batch[i] == rest[i - 1] && Before(m - {j}, rest[i - 1], rest[k - 1]); }
    }
  }

  /** The batch holds exactly the due jobs, each once, in strictly ascending delivery order. */
  lemma {:induction false} BatchIsExact(m: Pending, now: ElapsedInstant)
    ensures forall j :: j in DueBatch(m, now) <==> j in m && m[j] <= now
    ensures Ascending(m, DueBatch(m, now))
    decreases |m|
  {
    if m != map[] {
      var j := NextJob(m);
      if m[j] <= now {
        var rest := m - {j};
        assert rest.Keys == m.Keys - {j} && |rest.Keys| < |m.Keys|;
        BatchIsExact(rest, now);
        BatchStep(m, now, j);
        hide DueBatch, Ascending;
        PrependingNext(m, now, j, DueBatch(rest, now));
      } else {
        forall k | k in m ensures m[k] > now { assert k == j || Before(m, j, k); }
      }
    }
  }

  /** The front of such a list is the next job of all, and the others are such a list without it. */
  lemma FrontIsNext(m: Pending, now: ElapsedInstant, first: JobId, rest: seq<JobId>)
    requires forall j :: j in [first] + rest <==> j in m && m[j] <= now
    requires Ascending(m, [first] + rest)
    ensures IsNext(m, first) && Ascending(m - {first}, rest)
    ensures forall j :: j in rest <==> j in m && j != first && m[j] <= now
  {
    var batch := [first] + rest;
    assert batch[0] == first && forall i | 0 <= i < |rest| :: batch[i + 1] == rest[i];
    forall j | j in rest ensures j in m && j != first && Before(m, first, j) {
      var i :| 0 <= i < |rest| && rest[i] == j;
      assert Before(m, batch[0], batch[i + 1]);
    }
    forall j | j in m ensures j == first || Before(m, first, j) {
      if m[j] <= now { assert j in batch; }
    }
    TailAscends(m, first, rest);
  }

  lemma TailAscends(m: Pending, first: JobId, rest: seq<JobId>)
    requires Ascending(m, [first] + rest) && first !in rest
    ensures Ascending(m - {first}, rest)
  {
    var batch := [first] + rest;
    forall i | 0 <= i < |rest| ensures rest[i] in m - {first} {
      assert batch[i + 1] == rest[i] && rest[i] in rest;
    }
    forall i, j | 0 <= i < j < |rest| ensures Before(m - {first}, rest[i], rest[j]) {
      assert Before(m, batch[i + 1], batch[j + 1]);
    }
  }

  /** Any list with those two properties is the batch. */
  lemma {:induction false} BatchIsUnique(m: Pending, now: ElapsedInstant, batch: seq<JobId>)
    requires forall j :: j in batch <==> j in m && m[j] <= now
    requires Ascending(m, batch)
    ensures batch == DueBatch(m, now)
    decreases |m|
  {
    if batch == [] {
      assert m == map[] || NextJob(m) in m;
    } else {
      var first, rest := batch[0], batch[1..];
      assert first in batch && batch == [first] + rest;
      FrontIsNext(m, now, first, rest);
      NextIsUnique(m, first, NextJob(m));
      var m' := m - {first};
      assert m'.Keys == m.Keys - {first} && |m'.Keys| < |m.Keys|;
      hide Ascending, IsNext;
      BatchIsUnique(m', now, rest);
    }
  }
}
