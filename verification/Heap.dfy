/** The indexed deadline heap (`src/supervisor/heap.rs`). */
module Heap {
  import opened Wrappers
  import opened Primitives
  import opened Deadlines

  datatype Entry = Entry(due: ElapsedInstant, jobId: JobId)

  predicate ComesBefore(left: Entry, right: Entry) {
    left.due < right.due || (left.due == right.due && left.jobId < right.jobId)
  }

  function Parent(index: int): (p: int)
    ensures index > 0 ==> 0 <= p < index
  {
    (index - 1) / 2
  }

  lemma ChildrenOf(index: nat, i: nat)
    ensures Parent(2 * index + 1) == index && Parent(2 * index + 2) == index
    ensures i > 0 && Parent(i) == index ==> i == 2 * index + 1 || i == 2 * index + 2
  {}

  /** Heap order everywhere except between `hole` and its parent. */
  ghost predicate OrderedButAbove(es: seq<Entry>, hole: int) {
    && (forall i | 0 < i < |es| && i != hole :: !ComesBefore(es[i], es[Parent(i)]))
    && (forall i | 0 < i < |es| && Parent(i) == hole && hole > 0 :: !ComesBefore(es[i], es[Parent(hole)]))
  }

  /** Heap order everywhere except between `hole` and its children. */
  ghost predicate OrderedButBelow(es: seq<Entry>, hole: int) {
    && (forall i | 0 < i < |es| && Parent(i) != hole :: !ComesBefore(es[i], es[Parent(i)]))
    && (forall i | 0 < i < |es| && Parent(i) == hole && hole > 0 :: !ComesBefore(es[i], es[Parent(hole)]))
  }

  ghost predicate Ordered(es: seq<Entry>) {
    forall i | 0 < i < |es| :: !ComesBefore(es[i], es[Parent(i)])
  }

  /** `positions` is the exact inverse of `entries`, so no job appears twice. */
  ghost predicate Indexed(es: seq<Entry>, positions: map<JobId, nat>) {
    && (forall i | 0 <= i < |es| :: es[i].jobId in positions && positions[es[i].jobId] == i)
    && (forall j | j in positions :: positions[j] < |es| && es[positions[j]].jobId == j)
  }

  ghost function Content(es: seq<Entry>, positions: map<JobId, nat>): (r: Pending)
    requires Indexed(es, positions)
  {
    map j | j in positions :: es[positions[j]].due
  }

  lemma {:induction false} RootIsFirst(es: seq<Entry>, i: nat)
    requires Ordered(es) && i < |es|
    ensures !ComesBefore(es[i], es[0])
  {
    if i > 0 { RootIsFirst(es, Parent(i)); }
  }

  lemma RootIsNext(es: seq<Entry>, positions: map<JobId, nat>)
    requires Indexed(es, positions) && Ordered(es) && |es| > 0
    ensures IsNext(Content(es, positions), es[0].jobId)
    ensures forall j :: j in Content(es, positions) ==> es[0].due <= Content(es, positions)[j]
  {
    var m := Content(es, positions);
    forall j | j in m ensures es[0].due <= m[j] && (j == es[0].jobId || Before(m, es[0].jobId, j)) {
      RootIsFirst(es, positions[j]);
    }
  }

  lemma OrderIsTotal(a: Entry, b: Entry, c: Entry)
    ensures !(ComesBefore(a, b) && ComesBefore(b, a))
    ensures !ComesBefore(a, b) && !ComesBefore(b, c) ==> !ComesBefore(a, c)
  {}

  /** After one entry of an ordered heap is replaced, and the tail perhaps cut off, only that entry
      can be out of place, and its children still respect its parent. */
  ghost predicate OrderedAround(es: seq<Entry>, hole: int) {
    && (forall i | 0 < i < |es| && i != hole && Parent(i) != hole :: !ComesBefore(es[i], es[Parent(i)]))
    && (forall i | 0 < i < |es| && Parent(i) == hole && hole > 0 :: !ComesBefore(es[i], es[Parent(hole)]))
  }

  lemma AppendingOneEntry(es: seq<Entry>, positions: map<JobId, nat>, e: Entry)
    requires Indexed(es, positions) && Ordered(es) && e.jobId !in positions
    ensures var es', positions' := es + [e], positions[e.jobId := |es|];
      && Indexed(es', positions') && OrderedButAbove(es', |es|)
      && Content(es', positions') == Content(es, positions)[e.jobId := e.due]
  {
    var es', positions' := es + [e], positions[e.jobId := |es|];
    assert Content(es', positions') == Content(es, positions)[e.jobId := e.due];
  }

  lemma UpdatingOneEntry(es: seq<Entry>, positions: map<JobId, nat>, jobId: JobId, due: ElapsedInstant)
    requires Indexed(es, positions) && jobId in positions
    ensures positions[jobId] < |es|
    ensures var es' := es[positions[jobId] := Entry(due, jobId)];
      Indexed(es', positions) && Content(es', positions) == Content(es, positions)[jobId := due]
  {
    var es' := es[positions[jobId] := Entry(due, jobId)];
    assert Content(es', positions) == Content(es, positions)[jobId := due];
  }

  lemma ReplacingOneEntry(es: seq<Entry>, es': seq<Entry>, index: int)
    requires Ordered(es) && 0 <= index < |es'| <= |es|
    requires forall i | 0 <= i < |es'| && i != index :: es'[i] == es[i]
    ensures OrderedAround(es', index)
  {
    hide Parent;
    forall i | 0 < i < |es'| && i != index && Parent(i) != index ensures !ComesBefore(es'[i], es'[Parent(i)]) {
    }
    forall i | 0 < i < |es'| && Parent(i) == index && index > 0 ensures !ComesBefore(es'[i], es'[Parent(index)]) {
      OrderIsTotal(es[i], es[index], es[Parent(index)]);
    }
  }

  lemma SwappingKeepsIndex(es: seq<Entry>, positions: map<JobId, nat>, left: nat, right: nat)
    requires Indexed(es, positions) && left < |es| && right < |es|
    ensures var es' := es[left := es[right]][right := es[left]];
      var positions' := positions[es'[left].jobId := left][es'[right].jobId := right];
      Indexed(es', positions') && Content(es', positions') == Content(es, positions)
  {
    var es' := es[left := es[right]][right := es[left]];
    var positions' := positions[es'[left].jobId := left][es'[right].jobId := right];
    forall j | j in positions'
      ensures j in positions && positions'[j] < |es'| && es'[positions'[j]] == es[positions[j]]
    {
      if j != es'[left].jobId && j != es'[right].jobId { assert positions[j] != left && positions[j] != right; }
    }
  }

  lemma RootIsDue(es: seq<Entry>, positions: map<JobId, nat>, now: ElapsedInstant)
    requires Indexed(es, positions) && Ordered(es) && |es| > 0 && es[0].due <= now
    ensures var m, j := Content(es, positions), es[0].jobId;
      j in m && DueBatch(m, now) == [j] + DueBatch(m - {j}, now) && Undue(m, now) == Undue(m - {j}, now)
  {
    RootIsNext(es, positions);
    BatchStep(Content(es, positions), now, es[0].jobId);
    hide DueBatch, Undue;
  }

  lemma NothingIsDue(es: seq<Entry>, positions: map<JobId, nat>, now: ElapsedInstant)
    requires Indexed(es, positions) && Ordered(es) && (|es| > 0 ==> es[0].due > now)
    ensures DueBatch(Content(es, positions), now) == [] && Undue(Content(es, positions), now) == Content(es, positions)
  {
    if |es| > 0 { RootIsNext(es, positions); }
    BatchEnd(Content(es, positions), now);
    hide DueBatch, Undue;
  }

  lemma ContentNamesJobs(es: seq<Entry>, positions: map<JobId, nat>, jobId: JobId)
    requires Indexed(es, positions)
    ensures jobId in positions <==> jobId in Content(es, positions)
    ensures jobId in positions ==> positions[jobId] < |es| && es[positions[jobId]].jobId == jobId
    ensures jobId !in positions ==> Content(es, positions) - {jobId} == Content(es, positions)
  {}

  lemma CutIsInOrder(es: seq<Entry>, es': seq<Entry>)
    requires Ordered(es) && es' <= es
    ensures Ordered(es')
  {}

  /** Dropping the job at `index` by moving the last entry there keeps the two structures inverse. */
  lemma RemovalKeepsIndex(es: seq<Entry>, positions: map<JobId, nat>, index: nat)
    requires Indexed(es, positions) && index < |es| - 1
    ensures var last := es[|es| - 1];
      var es' := es[..|es| - 1][index := last];
      var positions' := (positions - {es[index].jobId})[last.jobId := index];
      Indexed(es', positions') && Content(es', positions') == Content(es, positions) - {es[index].jobId}
  {
    var last := es[|es| - 1];
    var es' := es[..|es| - 1][index := last];
    var positions' := (positions - {es[index].jobId})[last.jobId := index];
    assert last.jobId != es[index].jobId;
    forall j | j in positions' ensures positions'[j] < |es'| && es'[positions'[j]].jobId == j {
      if j != last.jobId { assert j in positions && positions[j] != |es| - 1; }
    }
    forall i | 0 <= i < |es'| ensures es'[i].jobId in positions' && positions'[es'[i].jobId] == i {
      if i != index { assert es'[i] == es[i]; }
    }
    forall j ensures j in positions' <==> j in positions && j != es[index].jobId {}
    forall j | j in positions' ensures es'[positions'[j]].due == es[positions[j]].due {}
  }

  lemma PoppingKeepsIndex(es: seq<Entry>, positions: map<JobId, nat>)
    requires Indexed(es, positions) && |es| > 0
    ensures var last := es[|es| - 1];
      var es', positions' := es[..|es| - 1], positions - {last.jobId};
      Indexed(es', positions') && Content(es', positions') == Content(es, positions) - {last.jobId}
  {
    var last := es[|es| - 1];
    var es', positions' := es[..|es| - 1], positions - {last.jobId};
    forall j | j in positions' ensures positions'[j] < |es'| && es'[positions'[j]].jobId == j {
      assert j in positions && positions[j] != |es| - 1;
    }
    forall i | 0 <= i < |es'| ensures es'[i].jobId in positions' && positions'[es'[i].jobId] == i {
      assert es'[i] == es[i] && es[i].jobId != last.jobId;
    }
  }

  lemma RisingKeepsOrder(es: seq<Entry>, es': seq<Entry>, index: int)
    requires 0 < index < |es| && OrderedButAbove(es, index) && ComesBefore(es[index], es[Parent(index)])
    requires 0 <= Parent(index) < index
    requires es' == es[index := es[Parent(index)]][Parent(index) := es[index]]
    ensures OrderedButAbove(es', Parent(index))
  {
    hide Parent;
    var p := Parent(index);
    forall i | 0 < i < |es'| && i != p ensures !ComesBefore(es'[i], es'[Parent(i)]) {
      if Parent(i) == p { OrderIsTotal(es[i], es[p], es[index]); }
    }
    forall i | 0 < i < |es'| && Parent(i) == p && p > 0 ensures !ComesBefore(es'[i], es'[Parent(p)]) {
      OrderIsTotal(es[i], es[p], es[Parent(p)]);
    }
  }

  lemma SinkingKeepsOrder(es: seq<Entry>, es': seq<Entry>, index: int, child: int)
    requires 0 <= index < child < |es| && Parent(child) == index
    requires OrderedButBelow(es, index) && ComesBefore(es[child], es[index])
    requires forall i | 0 < i < |es| && Parent(i) == index :: !ComesBefore(es[i], es[child])
    requires es' == es[index := es[child]][child := es[index]]
    ensures OrderedButBelow(es', child)
  {
    hide Parent;
    forall i | 0 < i < |es'| && Parent(i) != child ensures !ComesBefore(es'[i], es'[Parent(i)]) {
      if i == child { OrderIsTotal(es[child], es[index], es[child]); }
    }
    forall i | 0 < i < |es'| && Parent(i) == child && child > 0 ensures !ComesBefore(es'[i], es'[Parent(child)]) {
    }
  }

  lemma LeafIsInOrder(es: seq<Entry>, index: nat)
    requires OrderedButBelow(es, index) && 2 * index + 1 >= |es|
    ensures Ordered(es)
  {
    forall i: nat | 0 < i < |es| ensures !ComesBefore(es[i], es[Parent(i)]) { ChildrenOf(index, i); }
  }

  lemma SettledIsInOrder(es: seq<Entry>, index: nat, child: nat)
    requires OrderedButBelow(es, index) && index < |es| && 2 * index + 1 <= child < |es| && child <= 2 * index + 2
    requires child == 2 * index + 2 ==> !ComesBefore(es[2 * index + 1], es[child])
    requires child == 2 * index + 1 && 2 * index + 2 < |es| ==> !ComesBefore(es[2 * index + 2], es[child])
    requires !ComesBefore(es[child], es[index])
    ensures Ordered(es)
  {
    forall i: nat | 0 < i < |es| ensures !ComesBefore(es[i], es[Parent(i)]) {
      ChildrenOf(index, i);
      OrderIsTotal(es[i], es[child], es[index]);
    }
  }

  lemma ChildComesFirst(es: seq<Entry>, index: nat, child: nat)
    requires 2 * index + 1 <= child < |es| && child <= 2 * index + 2
    requires child == 2 * index + 2 ==> !ComesBefore(es[2 * index + 1], es[child])
    requires child == 2 * index + 1 && 2 * index + 2 < |es| ==> !ComesBefore(es[2 * index + 2], es[child])
    ensures Parent(child) == index
    ensures forall i: nat | 0 < i < |es| && Parent(i) == index :: !ComesBefore(es[i], es[child])
  {
    forall i: nat | 0 < i < |es| && Parent(i) == index ensures !ComesBefore(es[i], es[child]) {
      ChildrenOf(index, i);
      OrderIsTotal(es[i], es[child], es[child]);
    }
  }

  class DeadlineHeap {
    var entries: seq<Entry>
    var positions: map<JobId, nat>

    ghost predicate Consistent()
      reads this
    {
      Indexed(entries, positions)
    }

    ghost predicate Valid()
      reads this
    {
      Consistent() && Ordered(entries)
    }

    ghost function Contents(): (r: Pending)
      reads this
      requires Consistent()
    {
      Content(entries, positions)
    }

    constructor ()
      ensures Valid() && Contents() == map[]
    {
      entries, positions := [], map[];
    }

    method Upsert(jobId: JobId, due: ElapsedInstant)
      requires Valid()
      modifies this
      ensures Valid() && Contents() == old(Contents())[jobId := due]
    {
      hide Indexed, Content, Ordered, OrderedAround, OrderedButAbove;
      ContentNamesJobs(entries, positions, jobId);
      if jobId !in positions {
        AppendingOneEntry(entries, positions, Entry(due, jobId));
        var index := |entries|;
        entries := entries + [Entry(due, jobId)];
        positions := positions[jobId := index];
        SiftUp(index);
        return;
      }
      UpdatingOneEntry(entries, positions, jobId, due);
      var index := positions[jobId];
      entries := entries[index := Entry(due, jobId)];
      ReplacingOneEntry(old(entries), entries, index);
      Restore(index);
    }

    /** Moves a changed entry up or down, whichever it needs. */
    method Restore(index: nat)
      requires Consistent() && index < |entries|
      requires OrderedAround(entries, index)
      modifies this
      ensures Valid() && Contents() == old(Contents()) && |entries| == |old(entries)|
    {
      if index > 0 && ComesBefore(entries[index], entries[Parent(index)]) {
        SiftUp(index);
      } else {
        SiftDown(index);
      }
    }

    method Remove(jobId: JobId) returns (removed: bool)
      requires Valid()
      modifies this
      ensures Valid()
      ensures removed <==> jobId in old(Contents())
      ensures Contents() == old(Contents()) - {jobId}
      ensures removed ==> |entries| == |old(entries)| - 1
      ensures !removed ==> entries == old(entries)
    {
      hide Indexed, Content, Ordered, OrderedAround;
      ContentNamesJobs(entries, positions, jobId);
      if jobId !in positions {
        return false;
      }
      var index := positions[jobId];
      PoppingKeepsIndex(entries, positions);
      if index < |entries| - 1 { RemovalKeepsIndex(entries, positions, index); }
      ghost var es, ps := entries, positions;
      positions := positions - {jobId};
      var last := entries[|entries| - 1];
      entries := entries[..|entries| - 1];
      if index == |entries| {
        assert positions == ps - {last.jobId};
        CutIsInOrder(es, entries);
        return true;
      }
      entries := entries[index := last];
      positions := positions[last.jobId := index];
      assert Consistent() && Contents() == Content(es, ps) - {jobId};
      ReplacingOneEntry(es, entries, index);
      Restore(index);
      return true;
    }

    method NextDeadline() returns (next: Option<ElapsedInstant>)
      requires Valid()
      ensures next.None? <==> Contents() == map[]
      ensures next.Some? ==> (exists j :: j in Contents() && Contents()[j] == next.value)
                             && forall j :: j in Contents() ==> next.value <= Contents()[j]
    {
      if |entries| == 0 {
        return None;
      }
      assert entries[0].jobId in Contents();
      RootIsNext(entries, positions);
      return Some(entries[0].due);
    }

    /** Delivers exactly the batch the plain map owes and leaves exactly the rest. */
    method PopDue(now: ElapsedInstant) returns (due: seq<JobId>)
      requires Valid()
      modifies this
      ensures Valid()
      ensures due == DueBatch(old(Contents()), now)
      ensures Contents() == Undue(old(Contents()), now)
    {
      hide Indexed, Content, Ordered, DueBatch, Undue;
      due := [];
      ghost var whole := Contents();
      while |entries| > 0 && entries[0].due <= now
        invariant Valid()
        invariant due + DueBatch(Contents(), now) == DueBatch(whole, now)
        invariant Undue(Contents(), now) == Undue(whole, now)
        decreases |entries|
      {
        var jobId := entries[0].jobId;
        RootIsDue(entries, positions, now);
        ghost var rest := DueBatch(Contents() - {jobId}, now);
        assert due + ([jobId] + rest) == due + [jobId] + rest;
        var removed := Remove(jobId);
        due := due + [jobId];
      }
      NothingIsDue(entries, positions, now);
    }

    method IsEmpty() returns (empty: bool)
      requires Valid()
      ensures empty <==> Contents() == map[]
    {
      empty := |entries| == 0;
      assert !empty ==> entries[0].jobId in Contents();
    }

    method Swap(left: nat, right: nat)
      requires Consistent() && left < |entries| && right < |entries|
      modifies this
      ensures Consistent() && Contents() == old(Contents())
      ensures entries == old(entries)[left := old(entries)[right]][right := old(entries)[left]]
    {
      SwappingKeepsIndex(entries, positions, left, right);
      hide Indexed, Content;
      entries := entries[left := entries[right]][right := entries[left]];
      positions := positions[entries[left].jobId := left];
      positions := positions[entries[right].jobId := right];
    }

    method SiftUp(start: nat)
      requires Consistent() && start < |entries| && OrderedButAbove(entries, start)
      modifies this
      ensures Valid() && Contents() == old(Contents()) && |entries| == |old(entries)|
    {
      var index := start;
      while index > 0
        invariant 0 <= index < |entries| == |old(entries)| && Consistent() && Contents() == old(Contents())
        invariant OrderedButAbove(entries, index)
      {
        var parent := Parent(index);
        if !ComesBefore(entries[index], entries[parent]) {
          return;
        }
        ghost var before := entries;
        Swap(index, parent);
        RisingKeepsOrder(before, entries, index);
        index := parent;
      }
    }

    method SiftDown(start: nat)
      requires Consistent() && start < |entries| && OrderedButBelow(entries, start)
      modifies this
      ensures Valid() && Contents() == old(Contents()) && |entries| == |old(entries)|
    {
      hide Ordered, OrderedButBelow, Indexed, Content, Parent;
      var index := start;
      while true
        invariant 0 <= index < |entries| == |old(entries)| && Consistent() && Contents() == old(Contents())
        invariant OrderedButBelow(entries, index)
        decreases |entries| - index
      {
        var left := index * 2 + 1;
        if left >= |entries| {
          LeafIsInOrder(entries, index);
          return;
        }
        var right := left + 1;
        var child := if right < |entries| && ComesBefore(entries[right], entries[left]) then right else left;
        if !ComesBefore(entries[child], entries[index]) {
          SettledIsInOrder(entries, index, child);
          return;
        }
        ghost var before := entries;
        ChildComesFirst(before, index, child);
        Swap(index, child);
        SinkingKeepsOrder(before, entries, index, child);
        index := child;
      }
    }
  }
}
