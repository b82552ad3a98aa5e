/** Bounded capture of one output stream (`src/run_monitor/capture.rs`). */
module Capture {
  import opened Wrappers
  import opened Primitives

  type Byte = b: int | 0 <= b < 256

  const BUFFER_SIZE: nat := 16 * 1024
  const USIZE_MAX: int := U64_MAX

  type Size = n: int | 0 <= n <= USIZE_MAX

  datatype IoError = WriteZero | Other(code: int)

  function SaturatingAdd(a: Size, b: Size): (r: Size) {
    Min(a + b, USIZE_MAX)
  }

  function SaturatingSub(a: Size, b: Size): (r: Size) {
    Max(a - b, 0)
  }

  class CaptureBudget {
    const cap: Size
    var written: Size
    var discarded: Size

    constructor (cap: Size)
      requires cap > 0
      ensures this.cap == cap && written == 0 && discarded == 0
    {
      this.cap, written, discarded := cap, 0, 0;
    }

    static method New(cap: Size) returns (r: Result<CaptureBudget, ()>)
      ensures r.Ok? <==> cap > 0
      ensures r.Ok? ==> fresh(r.value) && r.value.cap == cap && r.value.written == 0 && r.value.discarded == 0
    {
      if cap == 0 {
        return Err(());
      }
      var budget := new CaptureBudget(cap);
      return Ok(budget);
    }

    function Remaining(): (r: Size)
      reads this
    {
      SaturatingSub(cap, written)
    }

    method RecordChunk(count: Size, consumed: Size)
      modifies this
      ensures written == Min(old(written) + count, USIZE_MAX)
      ensures discarded == Min(old(discarded) + Max(consumed - count, 0), USIZE_MAX)
    {
      written := SaturatingAdd(written, count);
      discarded := SaturatingAdd(discarded, SaturatingSub(consumed, count));
    }
  }

  // ----- the environment

  /** What the pipe delivers: non-empty reads of any sizes up to the buffer's, then its end or an error. */
  datatype Source = Source(chunks: seq<seq<Byte>>, failure: Option<IoError>)

  ghost predicate FitsBuffer(source: Source) {
    forall i | 0 <= i < |source.chunks| :: 0 < |source.chunks[i]| <= BUFFER_SIZE
  }

  function Bytes(chunks: seq<seq<Byte>>): (r: seq<Byte>) {
    if chunks == [] then [] else Bytes(chunks[..|chunks| - 1]) + chunks[|chunks| - 1]
  }

  datatype WriteAnswer = Accept(count: nat) | Reject(error: IoError)

  /** A writer that answers each call as its script says: it takes some front part of what it is
      given, possibly nothing, or fails. It remembers what it took and how it refused. It may not be
      called again after it refused, so every caller below has to prove that it does not. */
  class Sink {
    const answers: nat -> WriteAnswer
    const flushFailure: Option<IoError>
    var calls: nat
    var content: seq<Byte>
    var refusals: seq<IoError>

    constructor (answers: nat -> WriteAnswer, flushFailure: Option<IoError>)
      ensures this.answers == answers && this.flushFailure == flushFailure
      ensures calls == 0 && content == [] && refusals == []
    {
      this.answers, this.flushFailure := answers, flushFailure;
      calls, content, refusals := 0, [], [];
    }

    method Write(bytes: seq<Byte>) returns (r: Result<nat, IoError>)
      requires bytes != [] && refusals == []
      modifies this
      ensures r.Ok? ==> r.value <= |bytes| && content == old(content) + bytes[..r.value]
      ensures r.Ok? && r.value > 0 ==> refusals == old(refusals)
      ensures r.Ok? && r.value == 0 ==> refusals == old(refusals) + [WriteZero]
      ensures r.Err? ==> content == old(content) && refusals == old(refusals) + [r.error]
      ensures answers(old(calls)).Reject? ==> r == Err(answers(old(calls)).error)
    {
      var answer := answers(calls);
      calls := calls + 1;
      match answer
      case Reject(e) =>
        refusals := refusals + [e];
        return Err(e);
      case Accept(count) =>
        var taken := Min(count, |bytes|);
        content := content + bytes[..taken];
        if taken == 0 { refusals := refusals + [WriteZero]; }
        return Ok(taken);
    }
  }

  datatype Summary = Summary(written: Size, discarded: Size)

  lemma BytesGrow(chunks: seq<seq<Byte>>, at: nat)
    requires at < |chunks|
    ensures Bytes(chunks[..at + 1]) == Bytes(chunks[..at]) + chunks[at]
  {
    assert chunks[..at + 1][..at] == chunks[..at];
  }

  lemma {:induction false} BytesOnlyGrow(chunks: seq<seq<Byte>>, at: nat)
    requires at <= |chunks|
    ensures Bytes(chunks[..at]) <= Bytes(chunks)
    decreases |chunks| - at
  {
    if at == |chunks| {
      assert chunks[..at] == chunks;
    } else {
      BytesGrow(chunks, at);
      BytesOnlyGrow(chunks, at + 1);
    }
  }

  predicate RejectsFirst(sink: Sink, call: nat) {
    sink.answers(call).Reject?
  }

  /** Hands the allowed front part of the buffer to the sink, however many calls that takes. */
  method WriteAllowed(sink: Sink, buffer: array<Byte>, allowed: nat) returns (written: nat, error: Option<IoError>)
    requires allowed <= buffer.Length && (allowed > 0 ==> sink.refusals == [])
    modifies sink
    ensures written <= allowed && sink.content == old(sink.content) + buffer[..written]
    ensures error.None? ==> written == allowed && sink.refusals == old(sink.refusals)
    ensures error.Some? ==> sink.refusals == old(sink.refusals) + [error.value]
    ensures allowed == 0 ==> error.None? && sink.calls == old(sink.calls)
    ensures allowed > 0 && RejectsFirst(sink, old(sink.calls)) ==>
      written == 0 && error == Some(sink.answers(old(sink.calls)).error)
  {
    written, error := 0, None;
    while written < allowed
      invariant written == 0 ==> sink.calls == old(sink.calls)
      invariant written > 0 ==> !RejectsFirst(sink, old(sink.calls))
      invariant 0 <= written <= allowed
      invariant sink.content == old(sink.content) + buffer[..written]
      invariant sink.refusals == old(sink.refusals)
    {
      var piece := buffer[written..allowed];
      var result := sink.Write(piece);
      match result
      case Ok(0) => return written, Some(WriteZero);
      case Ok(count) =>
        assert buffer[..written] + piece[..count] == buffer[..written + count];
        written := written + count;
      case Err(e) => return written, Some(e);
    }
  }

  lemma NothingRead(chunks: seq<seq<Byte>>)
    ensures Bytes(chunks[..0]) == []
  {}

  lemma NextChunk(chunks: seq<seq<Byte>>, at: nat, total: nat)
    requires at < |chunks| && total == |Bytes(chunks[..at])| && total <= |Bytes(chunks)|
    ensures total + |chunks[at]| <= |Bytes(chunks)| && Bytes(chunks)[total..total + |chunks[at]|] == chunks[at]
    ensures Bytes(chunks[..at + 1]) == Bytes(chunks)[..total + |chunks[at]|]
  {
    BytesGrow(chunks, at);
    BytesOnlyGrow(chunks, at + 1);
    assert Bytes(chunks[..at + 1]) == Bytes(chunks)[..total + |chunks[at]|];
    assert Bytes(chunks[..at + 1])[total..] == chunks[at];
  }

  lemma FrontContinues(input: seq<Byte>, total: nat, chunk: seq<Byte>, kept: nat, count: nat)
    requires kept <= total <= |input| && total + |chunk| <= |input| && input[total..total + |chunk|] == chunk
    requires count <= |chunk| && (count > 0 ==> kept == total)
    ensures input[..kept] + chunk[..count] == input[..kept + count]
  {}

  /** Where a drain stands: what the sink holds and how it refused, and the counters. */
  datatype Progress = Progress(content: seq<Byte>, refusals: seq<IoError>, written: int, discarded: int)

  /** After the first `total` bytes of the input: exactly a front part of them is in the sink, all of
      them up to the cap unless a write was refused, and the others are counted. */
  ghost predicate OnTrack(p: Progress, cap: int, input: seq<Byte>, total: nat) {
    && total <= |input| && 0 <= p.written <= Min(cap, total) && p.content == input[..p.written]
    && p.discarded == Min(total - p.written, USIZE_MAX)
    && |p.refusals| <= 1 && (p.refusals == [] ==> p.written == Min(cap, total))
  }

  function FirstOf(refusals: seq<IoError>): (r: Option<IoError>) {
    if refusals == [] then None else Some(refusals[0])
  }

  /** What one chunk does. */
  ghost predicate Consumes(p: Progress, p': Progress, cap: int, chunk: seq<Byte>, count: nat) {
    && count <= (if p.refusals == [] then Min(Max(cap - p.written, 0), |chunk|) else 0)
    && p'.content == p.content + chunk[..count]
    && p'.written == p.written + count && p'.discarded == Min(p.discarded + |chunk| - count, USIZE_MAX)
    && (p.refusals != [] ==> p'.refusals == p.refusals)
    && |p'.refusals| <= 1 && (p'.refusals == [] ==> count == Min(Max(cap - p.written, 0), |chunk|))
  }

  lemma ConsumingStaysOnTrack(p: Progress, p': Progress, cap: int, input: seq<Byte>, total: nat, chunk: seq<Byte>,
                              count: nat)
    requires OnTrack(p, cap, input, total) && Consumes(p, p', cap, chunk, count)
    requires total + |chunk| <= |input| && input[total..total + |chunk|] == chunk
    ensures OnTrack(p', cap, input, total + |chunk|)
  {
    FrontContinues(input, total, chunk, p.written, count);
  }

  function Room(budget: CaptureBudget, firstError: Option<IoError>, read: nat): (r: nat)
    reads budget
  {
    if firstError.None? then Min(budget.Remaining(), read) else 0
  }

  /** One turn of the loop: a chunk lands in the buffer, its allowed front part is written, and the
      counters take note of all of it. */
  method DrainChunk(chunk: seq<Byte>, buffer: array<Byte>, sink: Sink, budget: CaptureBudget,
                    firstError: Option<IoError>)
    returns (written: nat, error: Option<IoError>)
    requires |chunk| <= buffer.Length <= USIZE_MAX && budget.written <= budget.cap
    requires firstError.None? ==> sink.refusals == []
    modifies buffer, sink, budget
    ensures written <= old(Room(budget, firstError, |chunk|)) && sink.content == old(sink.content) + chunk[..written]
    ensures budget.written == old(budget.written) + written
    ensures budget.discarded == Min(old(budget.discarded) + |chunk| - written, USIZE_MAX)
    ensures firstError.Some? ==> error == firstError && sink.refusals == old(sink.refusals)
    ensures firstError.None? ==> sink.refusals == if error.None? then [] else [error.value]
    ensures error.None? ==> written == old(Room(budget, firstError, |chunk|))
    ensures old(Room(budget, firstError, |chunk|)) > 0 && RejectsFirst(sink, old(sink.calls)) ==>
      written == 0 && error == Some(sink.answers(old(sink.calls)).error)
  {
    forall i | 0 <= i < |chunk| { buffer[i] := chunk[i]; }
    ghost var loaded := buffer[..];
    assert loaded[..|chunk|] == chunk;
    var allowed := Room(budget, firstError, |chunk|);
    var refused;
    written, refused := WriteAllowed(sink, buffer, allowed);
    assert buffer[..written] == loaded[..written] == chunk[..written];
    error := if refused.Some? then refused else firstError;
    budget.RecordChunk(written, |chunk|);
  }

  /** For every chunking, every pattern of short writes and every failure: the sink receives exactly
      the first `written` bytes of the input, never more than the cap, and all of them up to the cap
      unless a write was refused; the rest is counted as discarded until that counter is full. The
      whole input is consumed in any case, and a refused writer is never written to again. A read
      error is reported even over an earlier refusal, a flush error only when nothing else failed. */
  method DrainStream(source: Source, sink: Sink, budget: CaptureBudget)
    returns (summary: Summary, error: Option<IoError>)
    requires FitsBuffer(source) && sink.refusals == []
    requires budget.cap > 0 && budget.written == 0 && budget.discarded == 0
    modifies sink, budget
    ensures var input := Bytes(source.chunks);
      && summary.written <= Min(budget.cap, |input|)
      && sink.content == old(sink.content) + input[..summary.written]
      && (sink.refusals == [] ==> summary.written == Min(budget.cap, |input|))
      && summary.discarded == Min(|input| - summary.written, USIZE_MAX)
    ensures |sink.refusals| <= 1
    ensures Bytes(source.chunks) != [] && RejectsFirst(sink, old(sink.calls)) ==>
      summary.written == 0 && sink.refusals == [sink.answers(old(sink.calls)).error]
    ensures error == if source.failure.Some? then source.failure
                     else if sink.refusals != [] then Some(sink.refusals[0])
                     else sink.flushFailure
  {
    hide Bytes, OnTrack;
    NothingRead(source.chunks);
    var buffer := new Byte[BUFFER_SIZE];
    var firstError: Option<IoError> := None;
    var at := 0;
    ghost var input, total, first, base := Bytes(source.chunks), 0, sink.calls, sink.content;
    ghost var p := Progress([], [], 0, 0);
    StartIsOnTrack(budget.cap, input);
    while true
      invariant 0 <= at <= |source.chunks| && total == |Bytes(source.chunks[..at])| <= |input|
      invariant sink.content == base + p.content
      invariant p == Progress(p.content, sink.refusals, budget.written, budget.discarded)
      invariant OnTrack(p, budget.cap, input, total) && 0 <= p.written <= budget.cap
      invariant |sink.refusals| <= 1 && firstError == FirstOf(sink.refusals)
      invariant at == 0 ==> sink.calls == first && budget.written == 0 && sink.refusals == []
      invariant at > 0 && RejectsFirst(sink, first) ==>
        budget.written == 0 && sink.refusals == [sink.answers(first).error]
      decreases |source.chunks| - at
    {
      if at == |source.chunks| {
        if source.failure.Some? { firstError := source.failure; }
        break;
      }
      var chunk := source.chunks[at];
      assert 0 < |chunk| <= BUFFER_SIZE;
      NextChunk(source.chunks, at, total);
      var count, error := DrainChunk(chunk, buffer, sink, budget, firstError);
      assert base + p.content + chunk[..count] == base + (p.content + chunk[..count]);
      ghost var p' := Progress(p.content + chunk[..count], sink.refusals, budget.written, budget.discarded);
      ConsumingStaysOnTrack(p, p', budget.cap, input, total, chunk, count);
      TrackBounds(p', budget.cap, input, total + |chunk|);
      firstError, p := error, p';
      at, total := at + 1, total + |chunk|;
    }
    assert source.chunks[..at] == source.chunks;
    TrackEnds(p, budget.cap, input);
    if sink.flushFailure.Some? && firstError.None? { firstError := sink.flushFailure; }
    return Summary(budget.written, budget.discarded), firstError;
  }

  lemma StartIsOnTrack(cap: Size, input: seq<Byte>)
    ensures OnTrack(Progress([], [], 0, 0), cap, input, 0)
  {}

  lemma TrackBounds(p: Progress, cap: int, input: seq<Byte>, total: nat)
    requires OnTrack(p, cap, input, total)
    ensures 0 <= p.written <= cap && |p.refusals| <= 1 && total <= |input|
  {}

  lemma TrackEnds(p: Progress, cap: int, input: seq<Byte>)
    requires OnTrack(p, cap, input, |input|)
    ensures p.written <= Min(cap, |input|) && p.content == input[..p.written]
    ensures (p.refusals == [] ==> p.written == Min(cap, |input|)) && p.discarded == Min(|input| - p.written, USIZE_MAX)
  {}

  /** A concrete case: one byte arrives, the writer fails, then the reader fails. The write error came
      first and is not the one reported. */
  method ReadErrorHidesWriteError() returns (error: Option<IoError>, refusals: seq<IoError>)
    ensures refusals == [Other(1)] && error == Some(Other(2))
  {
    var sink := new Sink(_ => Reject(Other(1)), None);
    var budget := new CaptureBudget(5);
    var source := Source([[7]], Some(Other(2)));
    assert source.chunks[..0] == [] && Bytes(source.chunks) == [7];
    var _, reported := DrainStream(source, sink, budget);
    return reported, sink.refusals;
  }
}
