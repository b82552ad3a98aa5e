/** Durations such as `1h30m15s` (`src/domain/duration.rs`). */
module DurationCodec {
  import opened Wrappers
  import opened Primitives

  datatype DurationError = Empty | ExpectedNumber | ExpectedUnit | UnitOrder | ZeroHours | Overflow | OutOfRange

  function New(seconds: int): (r: Result<DurationSeconds, DurationError>) {
    if 1 <= seconds <= MAX_DURATION_SECONDS then Ok(seconds) else Err(OutOfRange)
  }

  // ----- characters

  predicate IsDigit(c: char) {
    '0' <= c <= '9'
  }

  /** Tab, line feed, form feed, carriage return and space; not the vertical tab. */
  predicate IsAsciiSpace(c: char) {
    c == '\t' || c == '\n' || c == '\U{C}' || c == '\r' || c == ' '
  }

  /** The characters that trimming removes: those with the Unicode property White_Space. */
  predicate IsSpace(c: char) {
    || '\t' <= c <= '\r' || c == ' ' || c == '\U{85}' || c == '\U{A0}' || c == '\U{1680}'
    || '\U{2000}' <= c <= '\U{200A}' || c == '\U{2028}' || c == '\U{2029}' || c == '\U{202F}'
    || c == '\U{205F}' || c == '\U{3000}'
  }

  function TrimStart(s: string): (r: string) {
    if s != "" && IsSpace(s[0]) then TrimStart(s[1..]) else s
  }

  function TrimEnd(s: string): (r: string) {
    if s != "" && IsSpace(s[|s| - 1]) then TrimEnd(s[..|s| - 1]) else s
  }

  function Trim(s: string): (r: string) { TrimEnd(TrimStart(s)) }

  predicate AllWhite(s: string) {
    forall i | 0 <= i < |s| :: IsSpace(s[i])
  }

  /** Nothing, or a text that neither begins nor ends with white space. */
  predicate Tight(s: string) {
    s != "" ==> !IsSpace(s[0]) && !IsSpace(s[|s| - 1])
  }

  lemma {:induction false} StartIsCut(s: string) returns (a: string)
    ensures s == a + TrimStart(s) && AllWhite(a) && (TrimStart(s) != "" ==> !IsSpace(TrimStart(s)[0]))
    decreases |s|
  {
    a := "";
    if s != "" && IsSpace(s[0]) {
      var front := StartIsCut(s[1..]);
      a := [s[0]] + front;
      assert s == [s[0]] + s[1..];
    }
  }

  lemma {:induction false} EndIsCut(s: string) returns (b: string)
    ensures s == TrimEnd(s) + b && AllWhite(b) && (TrimEnd(s) != "" ==> !IsSpace(TrimEnd(s)[|TrimEnd(s)| - 1]))
    decreases |s|
  {
    b := "";
    if s != "" && IsSpace(s[|s| - 1]) {
      var back := EndIsCut(s[..|s| - 1]);
      b := back + [s[|s| - 1]];
      assert s == s[..|s| - 1] + [s[|s| - 1]];
    }
  }

  /** Trimming leaves the middle of the text between two runs of white space. */
  lemma TrimIsMiddle(s: string) returns (a: string, b: string)
    ensures s == a + Trim(s) + b && AllWhite(a) && AllWhite(b) && Tight(Trim(s))
  {
    hide IsSpace;
    a := StartIsCut(s);
    b := EndIsCut(TrimStart(s));
    assert s == a + (Trim(s) + b);
    if Trim(s) != "" { assert Trim(s)[0] == TrimStart(s)[0]; }
  }

  /** There is only one such middle. */
  lemma MiddleIsUnique(a: string, m: string, b: string, c: string, n: string, d: string)
    requires a + m + b == c + n + d && AllWhite(a) && AllWhite(b) && AllWhite(c) && AllWhite(d) && Tight(m) && Tight(n)
    ensures m == n
  {
    hide IsSpace;
    var s := a + m + b;
    assert forall i | 0 <= i < |a| :: s[i] == a[i];
    assert forall i | 0 <= i < |b| :: s[|a| + |m| + i] == b[i];
    assert forall i | 0 <= i < |c| :: s[i] == c[i];
    assert forall i | 0 <= i < |d| :: s[|c| + |n| + i] == d[i];
    if m != "" { assert s[|a|] == m[0] && s[|a| + |m| - 1] == m[|m| - 1]; }
    if n != "" { assert s[|c|] == n[0] && s[|c| + |n| - 1] == n[|n| - 1]; }
    assert m == s[|a|..|a| + |m|] && n == s[|c|..|c| + |n|];
  }

  /** So trimming is the only way to cut a text like that. */
  lemma TrimIsUnique(a: string, m: string, b: string)
    requires AllWhite(a) && AllWhite(b) && Tight(m)
    ensures Trim(a + m + b) == m
  {
    var c, d := TrimIsMiddle(a + m + b);
    MiddleIsUnique(a, m, b, c, Trim(a + m + b), d);
  }

  function DigitCount(s: string): (n: nat)
    ensures n <= |s| && forall i | 0 <= i < n :: IsDigit(s[i])
    ensures n < |s| ==> !IsDigit(s[n])
  {
    if s != "" && IsDigit(s[0]) then 1 + DigitCount(s[1..]) else 0
  }

  function SpaceCount(s: string): (n: nat)
    ensures n <= |s| && forall i | 0 <= i < n :: IsAsciiSpace(s[i])
    ensures n < |s| ==> !IsAsciiSpace(s[n])
  {
    if s != "" && IsAsciiSpace(s[0]) then 1 + SpaceCount(s[1..]) else 0
  }

  predicate AllDigits(s: string) {
    forall i | 0 <= i < |s| :: IsDigit(s[i])
  }

  predicate AllSpaces(s: string) {
    forall i | 0 <= i < |s| :: IsAsciiSpace(s[i])
  }

  function Number(digits: string): (r: nat)
    requires AllDigits(digits)
    decreases |digits|
  {
    if digits == "" then 0
    else assert IsDigit(digits[|digits| - 1]); Number(digits[..|digits| - 1]) * 10 + (digits[|digits| - 1] - '0') as int
  }

  function ParseU64(digits: string): (r: Result<nat, DurationError>)
    requires AllDigits(digits)
  {
    if Number(digits) <= U64_MAX then Ok(Number(digits)) else Err(Overflow)
  }

  datatype Unit = Unit(rank: nat, multiplier: nat)

  function UnitOf(c: char, number: nat): (r: Result<Unit, DurationError>) {
    if c == 'h' then (if number == 0 then Err(ZeroHours) else Ok(Unit(3, 3600)))
    else if c == 'm' then Ok(Unit(2, 60))
    else if c == 's' then Ok(Unit(1, 1))
    else Err(ExpectedUnit)
  }

  // ----- reading, as a function of what is left

  /** One component at the front of `s`: the unit's rank, the new total, and what follows. */
  function ReadComponent(s: string, previousRank: nat, total: nat): (r: Result<(nat, nat, string), DurationError>) {
    var n := DigitCount(s);
    if n == 0 then Err(ExpectedNumber)
    else
      match ParseU64(s[..n])
      case Err(e) => Err(e)
      case Ok(number) =>
        if n == |s| then Err(ExpectedUnit)
        else
          match UnitOf(s[n], number)
          case Err(e) => Err(e)
          case Ok(unit) =>
            if unit.rank >= previousRank then Err(UnitOrder)
            else
              match CheckedMul(number, unit.multiplier, U64_MAX)
              case None => Err(Overflow)
              case Some(component) =>
                match CheckedAdd(total, component, U64_MAX)
                case None => Err(Overflow)
                case Some(sum) => Ok((unit.rank, sum, s[n + 1..]))
  }

  function Read(s: string, previousRank: nat, total: nat): (r: Result<DurationSeconds, DurationError>)
    decreases |s|
  {
    if s == "" then New(total)
    else
      match ReadComponent(s, previousRank, total)
      case Err(e) => Err(e)
      case Ok((rank, sum, rest)) =>
        if rest != "" && SpaceCount(rest) == |rest| then Err(ExpectedNumber)
        else Read(rest[SpaceCount(rest)..], rank, sum)
  }

  function Parse(text: string): (r: Result<DurationSeconds, DurationError>) {
    if Trim(text) == "" then Err(Empty) else Read(Trim(text), 4, 0)
  }

  lemma ReadEnds(previousRank: nat, total: nat)
    ensures Read("", previousRank, total) == New(total)
  {}

  lemma ReadUnfolds(s: string, previousRank: nat, total: nat)
    requires s != ""
    ensures Read(s, previousRank, total)
            == match ReadComponent(s, previousRank, total)
               case Err(e) => Err(e)
               case Ok((rank, sum, rest)) =>
                 if rest != "" && SpaceCount(rest) == |rest| then Err(ExpectedNumber)
                 else Read(rest[SpaceCount(rest)..], rank, sum)
  {}

  /** The index loop. */
  method FromStr(text: string) returns (r: Result<DurationSeconds, DurationError>)
    ensures r == Parse(text)
  {
    hide Read, Trim, Number, DigitCount, SpaceCount, IsDigit, UnitOf;
    var input := Trim(text);
    if input == "" {
      return Err(Empty);
    }
    var index, previousRank: nat, total: nat := 0, 4, 0;
    while index < |input|
      invariant 0 <= index <= |input|
      invariant Read(input[index..], previousRank, total) == Read(input, 4, 0)
    {
      ghost var left := input[index..];
      ReadUnfolds(left, previousRank, total);
      var numberStart := index;
      var digitCount := DigitCount(input[index..]);
      if digitCount == 0 {
        return Err(ExpectedNumber);
      }
      index := index + digitCount;
      assert input[numberStart..index] == left[..digitCount];
      var number := ParseU64(input[numberStart..index]);
      if number.Err? {
        return Err(Overflow);
      }
      if index == |input| {
        return Err(ExpectedUnit);
      }
      assert input[index] == left[digitCount];
      var unit := UnitOf(input[index], number.value);
      index := index + 1;
      assert input[index..] == left[digitCount + 1..];
      if unit.Err? {
        return Err(unit.error);
      }
      if unit.value.rank >= previousRank {
        return Err(UnitOrder);
      }
      var component := CheckedMul(number.value, unit.value.multiplier, U64_MAX);
      if component.None? {
        return Err(Overflow);
      }
      var sum := CheckedAdd(total, component.value, U64_MAX);
      if sum.None? {
        return Err(Overflow);
      }
      assert ReadComponent(left, previousRank, total) == Ok((unit.value.rank, sum.value, input[index..]));
      hide ReadComponent;
      previousRank, total := unit.value.rank, sum.value;
      if index < |input| && IsAsciiSpace(input[index]) {
        var spaces := SpaceCount(input[index..]);
        assert input[index + spaces..] == input[index..][spaces..];
        index := index + spaces;
        if index == |input| {
          return Err(ExpectedNumber);
        }
      }
    }
    assert input[index..] == "";
    ReadEnds(previousRank, total);
    return New(total);
  }

  // ----- printing

  function DigitChar(d: nat): (r: char)
    requires d < 10
  {
    '0' + d as char
  }

  function Decimal(n: nat): (s: string)
    ensures s != ""
  {
    if n < 10 then [DigitChar(n)] else Decimal(n / 10) + [DigitChar(n % 10)]
  }

  function Display(d: DurationSeconds): (r: string) {
    var hours, minutes, seconds := d / 3600, d % 3600 / 60, d % 60;
    (if hours > 0 then Decimal(hours) + "h" else "")
    + (if minutes > 0 then Decimal(minutes) + "m" else "")
    + (if seconds > 0 then Decimal(seconds) + "s" else "")
  }

  // ----- the grammar

  /** A component as written: its digits, its unit, and the white space that follows it. */
  datatype Part = Part(digits: string, unit: char, gap: string)

  function RankOf(unit: char): (r: nat) {
    if unit == 'h' then 3 else if unit == 'm' then 2 else 1
  }

  function SecondsIn(unit: char): (r: nat) {
    if unit == 'h' then 3600 else if unit == 'm' then 60 else 1
  }

  function Worth(p: Part): (r: nat)
    requires AllDigits(p.digits)
  {
    Number(p.digits) * SecondsIn(p.unit)
  }

  predicate GoodPart(p: Part) {
    && p.digits != "" && AllDigits(p.digits) && AllSpaces(p.gap)
    && (p.unit == 'h' || p.unit == 'm' || p.unit == 's')
    && (p.unit == 'h' ==> Number(p.digits) != 0)
  }

  /** Units in the order h, m, s, each at most once, below `rank`; no gap after the last. */
  predicate Grammatical(parts: seq<Part>, rank: nat) {
    && (forall i | 0 <= i < |parts| :: GoodPart(parts[i]) && RankOf(parts[i].unit) < rank)
    && (forall i, j | 0 <= i < j < |parts| :: RankOf(parts[i].unit) > RankOf(parts[j].unit))
    && (parts != [] ==> parts[|parts| - 1].gap == "")
  }

  function Written(parts: seq<Part>): (r: string) {
    if parts == [] then "" else parts[0].digits + [parts[0].unit] + parts[0].gap + Written(parts[1..])
  }

  function Sum(parts: seq<Part>): (r: nat)
    requires forall i | 0 <= i < |parts| :: GoodPart(parts[i])
  {
    if parts == [] then 0 else assert GoodPart(parts[0]); Worth(parts[0]) + Sum(parts[1..])
  }

  ghost predicate Denotes(text: string, seconds: int) {
    exists parts :: parts != [] && Grammatical(parts, 4) && Trim(text) == Written(parts) && Sum(parts) == seconds
  }

  // ----- reading what is written

  lemma {:induction false} CountsDigits(digits: string, rest: string)
    requires AllDigits(digits) && (rest == "" || !IsDigit(rest[0]))
    ensures DigitCount(digits + rest) == |digits|
  {
    var whole := digits + rest;
    assert forall i | 0 <= i < |digits| :: whole[i] == digits[i] && IsDigit(whole[i]);
    assert rest != "" ==> !IsDigit(whole[|digits|]);
    hide IsDigit;
  }

  lemma {:induction false} CountsSpaces(gap: string, rest: string)
    requires AllSpaces(gap) && (rest == "" || !IsAsciiSpace(rest[0]))
    ensures SpaceCount(gap + rest) == |gap|
  {
    var whole := gap + rest;
    assert forall i | 0 <= i < |gap| :: whole[i] == gap[i] && IsAsciiSpace(whole[i]);
    assert rest != "" ==> !IsAsciiSpace(whole[|gap|]);
    hide IsAsciiSpace;
  }

  lemma WrittenStartsWithDigit(parts: seq<Part>)
    requires forall i | 0 <= i < |parts| :: GoodPart(parts[i])
    ensures parts != [] ==> Written(parts) != "" && IsDigit(Written(parts)[0])
  {
    if parts != [] {
      assert GoodPart(parts[0]);
      assert Written(parts)[0] == parts[0].digits[0];
    }
  }

  lemma TailIsGrammatical(parts: seq<Part>, rank: nat)
    requires parts != [] && Grammatical(parts, rank)
    ensures GoodPart(parts[0]) && RankOf(parts[0].unit) < rank && (parts[1..] == [] ==> parts[0].gap == "")
    ensures Grammatical(parts[1..], RankOf(parts[0].unit))
    ensures Sum(parts) == Worth(parts[0]) + Sum(parts[1..])
    ensures Written(parts) == parts[0].digits + [parts[0].unit] + parts[0].gap + Written(parts[1..])
    ensures parts[1..] == [] ==> Written(parts[1..]) == ""
    ensures parts[1..] != [] ==> Written(parts[1..]) != "" && !IsAsciiSpace(Written(parts[1..])[0])
  {
    WrittenStartsWithDigit(parts[1..]);
    hide Number;
  }

  lemma PartGoesInFront(p: Part, tail: seq<Part>, rank: nat)
    requires GoodPart(p) && RankOf(p.unit) < rank && Grammatical(tail, RankOf(p.unit)) && (tail == [] ==> p.gap == "")
    ensures Grammatical([p] + tail, rank)
    ensures Sum([p] + tail) == Worth(p) + Sum(tail)
    ensures Written([p] + tail) == p.digits + [p.unit] + p.gap + Written(tail)
  {
    assert ([p] + tail)[1..] == tail;
    hide Number;
  }

  lemma NoParts(rank: nat)
    ensures Grammatical([], rank) && Written([]) == "" && Sum([]) == 0
  {}

  lemma ReadsPart(p: Part, rest: string, rank: nat, total: nat)
    requires GoodPart(p) && RankOf(p.unit) < rank && Worth(p) + total <= U64_MAX
    ensures ReadComponent(p.digits + [p.unit] + rest, rank, total)
         == Ok((RankOf(p.unit), total + Worth(p), rest))
  {
    var s := p.digits + [p.unit] + rest;
    assert s == p.digits + ([p.unit] + rest);
    CountsDigits(p.digits, [p.unit] + rest);
    assert s[..|p.digits|] == p.digits && s[|p.digits|] == p.unit && s[|p.digits| + 1..] == rest;
    NumberFits(p, total);
    hide Number, DigitCount;
  }

  lemma NumberFits(p: Part, total: nat)
    requires GoodPart(p) && Worth(p) + total <= U64_MAX
    ensures Number(p.digits) <= U64_MAX
  {}

  lemma ReadsOne(p: Part, rest: string, rank: nat, total: nat)
    requires GoodPart(p) && RankOf(p.unit) < rank && Worth(p) + total <= U64_MAX
    requires if rest == "" then p.gap == "" else !IsAsciiSpace(rest[0])
    ensures Read(p.digits + [p.unit] + p.gap + rest, rank, total)
         == Read(rest, RankOf(p.unit), total + Worth(p))
  {
    hide Read, ReadComponent, Number, SpaceCount, Worth, IsDigit, IsAsciiSpace;
    var left := p.gap + rest;
    assert p.digits + [p.unit] + p.gap + rest == p.digits + [p.unit] + left;
    ReadsPart(p, left, rank, total);
    CountsSpaces(p.gap, rest);
    ReadUnfolds(p.digits + [p.unit] + left, rank, total);
    assert left[|p.gap|..] == rest;
  }

  lemma {:induction false} ReadsParts(parts: seq<Part>, rank: nat, total: nat)
    requires Grammatical(parts, rank) && 1 <= total + Sum(parts) <= MAX_DURATION_SECONDS
    ensures Read(Written(parts), rank, total) == Ok(total + Sum(parts))
    decreases |parts|
  {
    hide Read, Number, Grammatical, IsAsciiSpace, IsDigit, Worth, Written, Sum;
    if parts == [] {
      NoParts(rank);
      ReadEnds(rank, total);
    } else {
      var p, rest := parts[0], Written(parts[1..]);
      TailIsGrammatical(parts, rank);
      ReadsOne(p, rest, rank, total);
      ReadsParts(parts[1..], RankOf(p.unit), total + Worth(p));
    }
  }

  /** A component that was read: its digits and unit, for a part with any gap. */
  lemma ComponentRead(s: string, rank: nat, total: nat, gap: string)
    requires ReadComponent(s, rank, total).Ok? && AllSpaces(gap)
    ensures var n := DigitCount(s);
      && 0 < n < |s|
      && var p := Part(s[..n], s[n], gap);
        && GoodPart(p) && RankOf(p.unit) < rank
        && ReadComponent(s, rank, total) == Ok((RankOf(p.unit), total + Worth(p), s[n + 1..]))
  {
    hide Number, DigitCount, IsDigit, IsAsciiSpace;
  }

  lemma Rejoined(s: string, n: nat, k: nat)
    requires n < |s| && k <= |s| - n - 1
    ensures s == s[..n] + [s[n]] + s[n + 1..][..k] + s[n + 1..][k..]
  {
    var left := s[n + 1..];
    assert left == left[..k] + left[k..];
    assert s == (s[..n] + [s[n]]) + left;
  }

  lemma GapSplits(left: string)
    ensures var k := SpaceCount(left);
      k <= |left| && AllSpaces(left[..k]) && (left[k..] == "" ==> k == |left| && left[..k] == left)
  {}

  /** The part that is read at the front of a text, and what follows it. */
  lemma FirstPartRead(s: string, rank: nat, total: nat) returns (p: Part, rest: string)
    requires s != "" && ReadComponent(s, rank, total).Ok?
    requires var left := ReadComponent(s, rank, total).value.2; left != "" ==> SpaceCount(left) < |left|
    ensures GoodPart(p) && RankOf(p.unit) < rank && s == p.digits + [p.unit] + p.gap + rest && |rest| < |s|
    ensures if rest == "" then p.gap == "" else !IsAsciiSpace(rest[0])
    ensures ReadComponent(s, rank, total).value.1 == total + Worth(p)
    ensures Read(s, rank, total) == Read(rest, RankOf(p.unit), total + Worth(p))
  {
    ReadUnfolds(s, rank, total);
    hide *;
    var n, left := DigitCount(s), ReadComponent(s, rank, total).value.2;
    var k := SpaceCount(left);
    GapSplits(left);
    ComponentRead(s, rank, total, left[..k]);
    Rejoined(s, n, k);
    rest := left[k..];
    p := Part(s[..n], s[n], left[..k]);
    assert left == s[n + 1..];
  }

  /** What was read could have been written: the parts of a successful reading. */
  lemma {:induction false} PartsRead(s: string, rank: nat, total: nat) returns (parts: seq<Part>)
    requires Read(s, rank, total).Ok?
    ensures Grammatical(parts, rank) && Written(parts) == s && total + Sum(parts) == Read(s, rank, total).value
    ensures 1 <= Read(s, rank, total).value <= MAX_DURATION_SECONDS && (s != "" ==> parts != [])
    decreases |s|
  {
    hide Read, Number, Grammatical, Worth, Written, Sum;
    if s == "" {
      parts := [];
      NoParts(rank);
      ReadEnds(rank, total);
    } else {
      ReadUnfolds(s, rank, total);
      var p, rest := FirstPartRead(s, rank, total);
      var tail := PartsRead(rest, RankOf(p.unit), total + Worth(p));
      if tail == [] { NoParts(rank); }
      PartGoesInFront(p, tail, rank);
      parts := [p] + tail;
    }
  }

  lemma WrittenIsNotEmpty(parts: seq<Part>, rank: nat)
    requires parts != [] && Grammatical(parts, rank)
    ensures Written(parts) != ""
  {
    WrittenStartsWithDigit(parts);
  }

  /** The accepted language: exactly the texts of the grammar whose sum is in range, with that sum as
      their value. */
  lemma ParseAcceptsGrammar(text: string, seconds: DurationSeconds)
    ensures Parse(text) == Ok(seconds) <==> Denotes(text, seconds)
  {
    hide Read, Trim, Written, Sum;
    if Parse(text) == Ok(seconds) {
      var parts := PartsRead(Trim(text), 4, 0);
      assert Denotes(text, seconds);
    }
    if Denotes(text, seconds) {
      var parts :| parts != [] && Grammatical(parts, 4) && Trim(text) == Written(parts) && Sum(parts) == seconds;
      ReadsParts(parts, 4, 0);
      WrittenIsNotEmpty(parts, 4);
    }
  }

  // ----- what is printed

  lemma {:induction false} DecimalReads(n: nat)
    ensures AllDigits(Decimal(n)) && Number(Decimal(n)) == n
    decreases n
  {
    if n >= 10 {
      DecimalReads(n / 10);
      var s := Decimal(n);
      assert s[..|s| - 1] == Decimal(n / 10);
    } else {
      assert Decimal(n)[..0] == "";
    }
  }

  lemma DecimalIsAPart(n: nat, unit: char)
    requires n > 0 && (unit == 'h' || unit == 'm' || unit == 's')
    ensures var p := Part(Decimal(n), unit, ""); GoodPart(p) && Worth(p) == n * SecondsIn(unit)
  {
    DecimalReads(n);
    hide Decimal, Number;
  }

  lemma HigherRank(parts: seq<Part>, low: nat, high: nat)
    requires Grammatical(parts, low) && low <= high
    ensures Grammatical(parts, high)
  {}

  /** One unit as printing treats it: left out when zero, otherwise put in front. */
  lemma UnitPrinted(n: nat, unit: char, tail: seq<Part>) returns (parts: seq<Part>)
    requires (unit == 'h' || unit == 'm' || unit == 's') && Grammatical(tail, RankOf(unit))
    ensures Grammatical(parts, RankOf(unit) + 1) && Sum(parts) == n * SecondsIn(unit) + Sum(tail)
    ensures Written(parts) == (if n > 0 then Decimal(n) + [unit] else "") + Written(tail)
    ensures parts == if n > 0 then [Part(Decimal(n), unit, "")] + tail else tail
  {
    hide Decimal, Worth, SecondsIn, RankOf, Written, Sum, Grammatical, GoodPart;
    if n == 0 {
      HigherRank(tail, RankOf(unit), RankOf(unit) + 1);
      parts := tail;
    } else {
      var p := Part(Decimal(n), unit, "");
      DecimalIsAPart(n, unit);
      PartGoesInFront(p, tail, RankOf(unit) + 1);
      parts := [p] + tail;
      assert Decimal(n) + [unit] + "" + Written(tail) == Decimal(n) + [unit] + Written(tail);
    }
  }

  lemma RestOfMinute(minutes: nat, rest: nat)
    ensures (minutes * 60 + rest) % 60 == rest % 60
  {}

  lemma SplitsIntoUnits(d: DurationSeconds)
    ensures d / 3600 * 3600 + d % 3600 / 60 * 60 + d % 60 == d
  {
    var rest := d % 3600;
    RestOfMinute(d / 3600 * 60, rest);
    assert d == d / 3600 * 60 * 60 + rest && rest == rest / 60 * 60 + rest % 60;
  }

  /** No component is zero, and below the hours there are less than sixty. */
  predicate Normal(p: Part)
    requires AllDigits(p.digits)
  {
    0 < Number(p.digits) && (p.unit != 'h' ==> Number(p.digits) < 60)
  }

  lemma PrintedIsNormal(n: nat, unit: char)
    requires n > 0 && (unit != 'h' ==> n < 60)
    ensures AllDigits(Decimal(n)) && Normal(Part(Decimal(n), unit, ""))
  {
    DecimalReads(n);
    hide Decimal, Number;
  }

  predicate AllNormal(parts: seq<Part>) {
    forall i | 0 <= i < |parts| :: AllDigits(parts[i].digits) && Normal(parts[i])
  }

  /** A unit as it is printed. */
  function Unitary(n: nat, unit: char): (r: string) {
    if n > 0 then Decimal(n) + [unit] else ""
  }

  lemma UnitInFront(n: nat, unit: char, tail: seq<Part>) returns (parts: seq<Part>)
    requires (unit == 'h' || unit == 'm' || unit == 's') && Grammatical(tail, RankOf(unit)) && AllNormal(tail)
    requires unit != 'h' ==> n < 60
    ensures Grammatical(parts, RankOf(unit) + 1) && AllNormal(parts) && Sum(parts) == n * SecondsIn(unit) + Sum(tail)
    ensures Written(parts) == Unitary(n, unit) + Written(tail)
  {
    hide Decimal, Written, Sum, Grammatical, Number, Normal, AllDigits;
    parts := UnitPrinted(n, unit, tail);
    if n > 0 { PrintedIsNormal(n, unit); }
  }

  lemma UnitsPrinted(hours: nat, minutes: nat, seconds: nat) returns (parts: seq<Part>)
    requires minutes < 60 && seconds < 60
    ensures AllNormal(parts)
    ensures Grammatical(parts, 4) && Sum(parts) == hours * 3600 + minutes * 60 + seconds
    ensures Written(parts) == Unitary(hours, 'h') + Unitary(minutes, 'm') + Unitary(seconds, 's')
  {
    NoParts(1);
    assert AllNormal([]);
    hide Written, Sum, Grammatical, AllNormal, Unitary;
    var a := UnitInFront(seconds, 's', []);
    var b := UnitInFront(minutes, 'm', a);
    parts := UnitInFront(hours, 'h', b);
    assert Written(a) == Unitary(seconds, 's');
  }

  /** What is printed is a text of the grammar, and it denotes the printed value. */
  lemma DisplayIsGrammatical(d: DurationSeconds) returns (parts: seq<Part>)
    ensures Grammatical(parts, 4) && Written(parts) == Display(d) && Sum(parts) == d
    ensures AllNormal(parts)
  {
    SplitsIntoUnits(d);
    hide Decimal, Written, Sum, Grammatical, AllNormal;
    parts := UnitsPrinted(d / 3600, d % 3600 / 60, d % 60);
  }

  lemma EndsWithUnit(parts: seq<Part>)
    requires parts != [] && Grammatical(parts, 4)
    ensures var w := Written(parts); w != "" && IsDigit(w[0]) && !IsSpace(w[|w| - 1])
    decreases |parts|
  {
    WrittenStartsWithDigit(parts);
    TailIsGrammatical(parts, 4);
    if |parts| > 1 {
      HigherRank(parts[1..], RankOf(parts[0].unit), 4);
      EndsWithUnit(parts[1..]);
    }
  }

  lemma NothingToTrim(s: string)
    requires s != "" && !IsSpace(s[0]) && !IsSpace(s[|s| - 1])
    ensures Trim(s) == s
  {}

  /** Every duration survives being printed and read. */
  lemma DisplayReadsBack(d: DurationSeconds)
    ensures Parse(Display(d)) == Ok(d)
  {
    var parts := DisplayIsGrammatical(d);
    NoParts(4);
    if parts != [] {
      EndsWithUnit(parts);
      NothingToTrim(Display(d));
      hide Display, Grammatical, Written, Sum, Trim, IsSpace, IsDigit;
      assert Denotes(Display(d), d);
      ParseAcceptsGrammar(Display(d), d);
    }
  }

  /** Printing is canonical: whatever accepted text is printed again, all texts of one value print
      alike, and printing a second time changes nothing. */
  lemma ReprintingIsIdempotent(text: string)
    requires Parse(text).Ok?
    ensures Parse(Display(Parse(text).value)) == Parse(text)
    ensures Display(Parse(Display(Parse(text).value)).value) == Display(Parse(text).value)
  {
    DisplayReadsBack(Parse(text).value);
  }

  lemma AsciiSpaceIsSpace(c: char)
    ensures IsAsciiSpace(c) ==> IsSpace(c)
  {}

  lemma {:induction false} TrimmedEnd(s: string)
    ensures TrimEnd(s) != "" ==> !IsSpace(TrimEnd(s)[|TrimEnd(s)| - 1])
    decreases |s|
  {
    if s != "" && IsSpace(s[|s| - 1]) { TrimmedEnd(s[..|s| - 1]); }
  }

  /** The loop's check for a gap that runs to the end of the input never fires: trimmed input does
      not end in white space, so at no position is everything that is left white space. */
  lemma TrailingGapNeverHappens(text: string, index: nat)
    requires index < |Trim(text)|
    ensures SpaceCount(Trim(text)[index..]) < |Trim(text)| - index
  {
    var s := Trim(text);
    TrimmedEnd(TrimStart(text));
    AsciiSpaceIsSpace(s[|s| - 1]);
    assert s[index..][|s| - 1 - index] == s[|s| - 1];
    hide IsAsciiSpace, IsSpace, Trim;
  }
}
