/** Why a text is not a duration: the first thing in it that stops the reading. */
module DurationErrors {
  import opened Wrappers
  import opened Primitives
  import opened DurationCodec

  /** Components at the front of a text that goes on: also the last may be followed by white space. */
  predicate Begins(parts: seq<Part>, rank: nat) {
    && (forall i | 0 <= i < |parts| :: GoodPart(parts[i]) && RankOf(parts[i].unit) < rank)
    && (forall i, j | 0 <= i < j < |parts| :: RankOf(parts[i].unit) > RankOf(parts[j].unit))
  }

  /** The next component has to have a lower rank than this. */
  function RankAfter(parts: seq<Part>, rank: nat): (r: nat) {
    if parts == [] then rank else RankOf(parts[|parts| - 1].unit)
  }

  /** What comes after a part and its gap. */
  predicate Follows(p: Part, left: string) {
    if left == "" then p.gap == "" else !IsAsciiSpace(left[0])
  }

  /** No component can be read at the front of `s`, and this is the first of the reasons. */
  predicate Stuck(s: string, rank: nat, total: nat, e: DurationError) {
    var n := DigitCount(s);
    if n == 0 then e.ExpectedNumber?
    else if Number(s[..n]) > U64_MAX then e.Overflow?
    else if n == |s| || s[n] !in "hms" then e.ExpectedUnit?
    else if s[n] == 'h' && Number(s[..n]) == 0 then e.ZeroHours?
    else if RankOf(s[n]) >= rank then e.UnitOrder?
    else e.Overflow? && total + Worth(Part(s[..n], s[n], "")) > U64_MAX
  }

  /** All of `parts` can be read and nothing after them: either the text ends there with a sum out of
      range, or the rest begins with something else. */
  predicate StopsAt(s: string, parts: seq<Part>, rest: string, rank: nat, total: nat, e: DurationError) {
    && Begins(parts, rank) && s == Written(parts) + rest && total + Sum(parts) <= U64_MAX
    && (parts != [] ==> Follows(parts[|parts| - 1], rest))
    && if rest == "" then e.OutOfRange? && !(1 <= total + Sum(parts) <= MAX_DURATION_SECONDS)
       else Stuck(rest, RankAfter(parts, rank), total + Sum(parts), e)
  }

  lemma ComponentIsStuck(s: string, rank: nat, total: nat, e: DurationError)
    requires total <= U64_MAX
    ensures ReadComponent(s, rank, total) == Err(e) <==> Stuck(s, rank, total, e)
  {
    hide Number, DigitCount, IsDigit;
  }

  lemma PartInFront(p: Part, tail: seq<Part>, rank: nat)
    requires GoodPart(p) && RankOf(p.unit) < rank && Begins(tail, RankOf(p.unit))
    ensures Begins([p] + tail, rank) && RankAfter([p] + tail, rank) == RankAfter(tail, RankOf(p.unit))
    ensures ([p] + tail)[|tail|] == if tail == [] then p else tail[|tail| - 1]
  {
    hide GoodPart, RankOf;
  }

  lemma PartAddsUp(p: Part, tail: seq<Part>)
    requires GoodPart(p) && forall i | 0 <= i < |tail| :: GoodPart(tail[i])
    ensures (forall i | 0 <= i < |tail| + 1 :: GoodPart(([p] + tail)[i])) && Sum([p] + tail) == Worth(p) + Sum(tail)
    ensures Written([p] + tail) == p.digits + [p.unit] + p.gap + Written(tail)
  {
    assert ([p] + tail)[0] == p && ([p] + tail)[1..] == tail;
    hide GoodPart, Worth;
  }

  lemma PartOff(parts: seq<Part>, rank: nat)
    requires parts != [] && Begins(parts, rank)
    ensures GoodPart(parts[0]) && RankOf(parts[0].unit) < rank && Begins(parts[1..], RankOf(parts[0].unit))
    ensures Sum(parts) == Worth(parts[0]) + Sum(parts[1..])
    ensures Written(parts) == parts[0].digits + [parts[0].unit] + parts[0].gap + Written(parts[1..])
    ensures RankAfter(parts, rank) == RankAfter(parts[1..], RankOf(parts[0].unit))
    ensures parts[1..] != [] ==> Written(parts[1..]) != "" && !IsAsciiSpace(Written(parts[1..])[0])
  {
    WrittenStartsWithDigit(parts[1..]);
    hide Number;
  }

  lemma TotalFits(s: string, rank: nat, total: nat)
    requires ReadComponent(s, rank, total).Ok?
    ensures ReadComponent(s, rank, total).value.1 <= U64_MAX
    ensures var left := ReadComponent(s, rank, total).value.2;
      0 < |left| <= |s| ==> left[|left| - 1] == s[|s| - 1]
  {
    hide Number, DigitCount;
  }

  /** A text that does not end in white space is read up to where it stops. */
  lemma {:induction false} ReadingStops(s: string, rank: nat, total: nat) returns (parts: seq<Part>, rest: string)
    requires total <= U64_MAX && Read(s, rank, total).Err? && (s != "" ==> !IsAsciiSpace(s[|s| - 1]))
    ensures StopsAt(s, parts, rest, rank, total, Read(s, rank, total).error)
    decreases |s|
  {
    parts, rest := [], s;
    assert Written([]) == "" && Sum([]) == 0 && "" + s == s;
    hide Written, Sum, Worth, Begins, IsAsciiSpace, Number, DigitCount, SpaceCount, ReadComponent, Read, Stuck;
    if s == "" {
      ReadEnds(rank, total);
      assert Begins([], rank) by { NothingBegins(rank); }
    } else {
      ReadUnfolds(s, rank, total);
      if ReadComponent(s, rank, total).Err? {
        ComponentIsStuck(s, rank, total, ReadComponent(s, rank, total).error);
        assert Begins([], rank) by { NothingBegins(rank); }
      } else {
        parts, rest := PartThenStops(s, rank, total);
      }
    }
  }

  lemma BegunIsGood(parts: seq<Part>, rank: nat)
    requires Begins(parts, rank)
    ensures forall i | 0 <= i < |parts| :: GoodPart(parts[i])
  {}

  lemma NothingBegins(rank: nat)
    ensures Begins([], rank)
  {}

  lemma AllCounted(s: string)
    ensures s != "" && SpaceCount(s) == |s| ==> IsAsciiSpace(s[|s| - 1])
  {}

  lemma NoGapToTheEnd(s: string, rank: nat, total: nat)
    requires ReadComponent(s, rank, total).Ok? && s != "" && !IsAsciiSpace(s[|s| - 1])
    ensures var left := ReadComponent(s, rank, total).value.2;
      left != "" ==> SpaceCount(left) < |left|
  {
    TotalFits(s, rank, total);
    ComponentRead(s, rank, total, "");
    var left := ReadComponent(s, rank, total).value.2;
    hide IsAsciiSpace, ReadComponent, SpaceCount, DigitCount, Number;
    AllCounted(left);
  }

  lemma PartThenStops(s: string, rank: nat, total: nat) returns (parts: seq<Part>, rest: string)
    requires total <= U64_MAX && Read(s, rank, total).Err? && s != "" && !IsAsciiSpace(s[|s| - 1])
    requires ReadComponent(s, rank, total).Ok?
    ensures StopsAt(s, parts, rest, rank, total, Read(s, rank, total).error)
    decreases |s|, 0
  {
    hide Written, Sum, Worth, Begins, AllDigits, AllSpaces, RankOf, IsAsciiSpace, Number, DigitCount, SpaceCount;
    hide ReadComponent, Read, Stuck;
    NoGapToTheEnd(s, rank, total);
    TotalFits(s, rank, total);
    var p, left := FirstPartRead(s, rank, total);
    assert left != "" ==> left[|left| - 1] == s[|s| - 1];
    var tail;
    tail, rest := ReadingStops(left, RankOf(p.unit), total + Worth(p));
    BegunIsGood(tail, RankOf(p.unit));
    PartInFront(p, tail, rank);
    PartAddsUp(p, tail);
    NoParts(rank);
    parts := [p] + tail;
    assert s == Written(parts) + rest;
  }

  lemma OnePartReached(p: Part, tail: string, rest: string, rank: nat, total: nat)
    requires GoodPart(p) && RankOf(p.unit) < rank && Worth(p) + total <= U64_MAX && Follows(p, tail + rest)
    ensures Read(p.digits + [p.unit] + p.gap + tail + rest, rank, total)
         == Read(tail + rest, RankOf(p.unit), total + Worth(p))
  {
    hide Read, Worth, GoodPart, IsAsciiSpace, RankOf;
    assert p.digits + [p.unit] + p.gap + tail + rest == p.digits + [p.unit] + p.gap + (tail + rest);
    ReadsOne(p, tail + rest, rank, total);
  }

  lemma TailFollows(parts: seq<Part>, rest: string, rank: nat)
    requires parts != [] && Begins(parts, rank) && Follows(parts[|parts| - 1], rest)
    ensures forall i | 0 <= i < |parts| :: GoodPart(parts[i])
    ensures Follows(parts[0], Written(parts[1..]) + rest)
    ensures parts[1..] != [] ==> Follows(parts[1..][|parts| - 2], rest)
  {
    PartOff(parts, rank);
    NoParts(rank);
    hide Written, IsAsciiSpace, GoodPart;
  }

  /** Reading goes through all of `parts` and on to the rest. */
  lemma {:induction false} ReadingReaches(parts: seq<Part>, rest: string, rank: nat, total: nat)
    requires Begins(parts, rank) && (parts != [] ==> Follows(parts[|parts| - 1], rest))
    requires (forall i | 0 <= i < |parts| :: GoodPart(parts[i])) && total + Sum(parts) <= U64_MAX
    ensures Read(Written(parts) + rest, rank, total) == Read(rest, RankAfter(parts, rank), total + Sum(parts))
    decreases |parts|
  {
    NoParts(rank);
    hide Read, Written, Sum, Worth, Begins, Follows, AllDigits, AllSpaces, RankOf, Number;
    if parts != [] {
      PartOff(parts, rank);
      TailFollows(parts, rest, rank);
      var p, tail := parts[0], parts[1..];
      OnePartReached(p, Written(tail), rest, rank, total);
      ReadingReaches(tail, rest, RankOf(p.unit), total + Worth(p));
    } else {
      assert Written(parts) + rest == rest;
    }
  }

  lemma StoppedReading(s: string, parts: seq<Part>, rest: string, e: DurationError)
    requires StopsAt(s, parts, rest, 4, 0, e)
    ensures Read(s, 4, 0) == Err(e)
  {
    hide Written, Sum, GoodPart, IsAsciiSpace, Stuck, Read, ReadComponent;
    ReadingReaches(parts, rest, 4, 0);
    if rest == "" {
      ReadEnds(RankAfter(parts, 4), Sum(parts));
    } else {
      ComponentIsStuck(rest, RankAfter(parts, 4), Sum(parts), e);
      ReadUnfolds(rest, RankAfter(parts, 4), Sum(parts));
    }
  }

  /** Exactly when each error is reported: nothing but white space, or the first thing that stops the
      reading after some components that could be read. */
  lemma RefusalIsExact(text: string, e: DurationError)
    ensures Parse(text) == Err(e)
       <==> if Trim(text) == "" then e.Empty? else exists parts, rest :: StopsAt(Trim(text), parts, rest, 4, 0, e)
  {
    var s := Trim(text);
    hide Trim, Read, StopsAt;
    if s != "" {
      if Read(s, 4, 0) == Err(e) {
        TrailingGapNeverHappens(text, |s| - 1);
        LastIsNoSpace(s);
        var parts, rest := ReadingStops(s, 4, 0);
      }
      if parts, rest :| StopsAt(s, parts, rest, 4, 0, e) { StoppedReading(s, parts, rest, e); }
    }
  }

  lemma LastIsNoSpace(s: string)
    requires s != "" && SpaceCount(s[|s| - 1..]) < 1
    ensures !IsAsciiSpace(s[|s| - 1])
  {}
}
