/** Identifiers as 26 Crockford Base32 characters (`src/domain/id.rs`). */
module IdentifierCodec {
  import opened Wrappers
  import opened Primitives

  const ENCODED_LEN: nat := 26

  type U128 = v: int | 0 <= v <= U128_MAX
  type Digit = d: int | 0 <= d < 32

  datatype IdentifierError = IdentifierError

  /** The alphabet: the ten digits, then the lower-case letters without i, l, o and u. */
  function DigitByte(digit: int): (r: Option<char>) {
    if 0 <= digit <= 9 then Some('0' + digit as char)
    else if 10 <= digit <= 17 then Some('a' + (digit - 10) as char)
    else if 18 <= digit <= 19 then Some('j' + (digit - 18) as char)
    else if 20 <= digit <= 21 then Some('m' + (digit - 20) as char)
    else if 22 <= digit <= 26 then Some('p' + (digit - 22) as char)
    else if 27 <= digit <= 31 then Some('v' + (digit - 27) as char)
    else None
  }

  function LowerCase(c: char): (r: char) {
    if 'A' <= c <= 'Z' then c - 'A' + 'a' else c
  }

  function DigitOf(c: char): (r: Result<Digit, IdentifierError>) {
    var lower := LowerCase(c);
    if '0' <= lower <= '9' then Ok((c - '0') as int)
    else if 'a' <= lower <= 'h' then Ok((lower - 'a') as int + 10)
    else if 'j' <= lower <= 'k' then Ok((lower - 'j') as int + 18)
    else if 'm' <= lower <= 'n' then Ok((lower - 'm') as int + 20)
    else if 'p' <= lower <= 't' then Ok((lower - 'p') as int + 22)
    else if 'v' <= lower <= 'z' then Ok((lower - 'v') as int + 27)
    else Err(IdentifierError)
  }

  /** One step of the fold. */
  function Step(decoded: U128, c: char): (r: Result<U128, IdentifierError>) {
    match DigitOf(c)
    case Err(e) => Err(e)
    case Ok(digit) =>
      match CheckedMul(decoded, 32, U128_MAX)
      case None => Err(IdentifierError)
      case Some(current) =>
        match CheckedAdd(current, digit, U128_MAX)
        case None => Err(IdentifierError)
        case Some(next) => Ok(next)
  }

  function Fold(decoded: U128, s: string): (r: Result<U128, IdentifierError>)
    decreases |s|
  {
    if s == "" then Ok(decoded)
    else
      match Step(decoded, s[0])
      case Err(e) => Err(e)
      case Ok(next) => Fold(next, s[1..])
  }

  function Decode(value: string): (r: Result<U128, IdentifierError>) {
    if |value| != ENCODED_LEN then Err(IdentifierError) else Fold(0, value)
  }

  // ----- the numbers behind the text

  /** The lowest `n` base-32 digits of `v`, most significant first. */
  function Digits(v: nat, n: nat): (ds: seq<Digit>)
    ensures |ds| == n
    decreases n
  {
    if n == 0 then [] else Digits(v / 32, n - 1) + [v % 32]
  }

  function Value(ds: seq<Digit>): (r: nat)
    decreases |ds|
  {
    if ds == [] then 0 else Value(ds[..|ds| - 1]) * 32 + ds[|ds| - 1]
  }

  function Text(ds: seq<Digit>): (r: string) {
    seq(|ds|, i requires 0 <= i < |ds| => DigitByte(ds[i]).value)
  }

  lemma TextInFront(d: Digit, ds: seq<Digit>)
    ensures Text([d] + ds) == [DigitByte(d).value] + Text(ds)
  {}

  predicate InAlphabet(c: char) {
    DigitOf(c).Ok?
  }

  predicate AllInAlphabet(s: string) {
    forall i | 0 <= i < |s| :: InAlphabet(s[i])
  }

  function DigitsOf(s: string): (ds: seq<Digit>)
    requires AllInAlphabet(s)
  {
    seq(|s|, i requires 0 <= i < |s| => assert InAlphabet(s[i]); DigitOf(s[i]).value)
  }

  function Lowered(s: string): (r: string) {
    seq(|s|, i requires 0 <= i < |s| => LowerCase(s[i]))
  }

  function Pow32(n: nat): (r: nat) {
    if n == 0 then 1 else 32 * Pow32(n - 1)
  }

  // ----- encoding

  /** Fills the buffer from its last byte to its first. No digit is ever out of range, so encoding
      always succeeds. */
  method Encode(value: U128) returns (r: Result<seq<char>, IdentifierError>)
    ensures r == Ok(Text(Digits(value, ENCODED_LEN)))
  {
    var remaining: int := value;
    var encoded := new char[ENCODED_LEN](_ => '0');
    var at: int := ENCODED_LEN;
    ghost var tail: seq<Digit> := [];
    while at > 0
      invariant 0 <= at <= ENCODED_LEN && 0 <= remaining
      invariant tail == Digits(value, ENCODED_LEN)[at..]
      invariant Digits(value, ENCODED_LEN)[..at] == Digits(remaining, at)
      invariant encoded[at..] == Text(tail)
    {
      at := at - 1;
      var digit := DigitByte(remaining % 32);
      if digit.None? {
        return Err(IdentifierError);
      }
      encoded[at] := digit.value;
      ghost var all := Digits(value, ENCODED_LEN);
      assert all[..at + 1][..at] == all[..at] && Digits(remaining, at + 1)[..at] == Digits(remaining / 32, at);
      assert all[at] == all[..at + 1][at] == remaining % 32;
      assert all[at..] == [all[at]] + tail;
      TextInFront(all[at], tail);
      assert encoded[at..] == [encoded[at]] + encoded[at + 1..];
      tail := all[at..];
      remaining := remaining / 32;
    }
    assert tail == Digits(value, ENCODED_LEN);
    return Ok(encoded[..]);
  }

  // ----- the alphabet

  const ALPHABET: string := "0123456789abcdefghjkmnpqrstvwxyz"
  const UPPER_ALPHABET: string := "0123456789ABCDEFGHJKMNPQRSTVWXYZ"

  /** The digits are written as these 32 symbols, in this order, and read in either case. */
  lemma SymbolsAreTheAlphabet(d: Digit, c: char)
    ensures |ALPHABET| == |UPPER_ALPHABET| == 32
    ensures DigitByte(d) == Some(ALPHABET[d])
    ensures DigitOf(c) == Ok(d) <==> c == ALPHABET[d] || c == UPPER_ALPHABET[d]
  {
    DigitIsSymbol(d);
    CaseOfSymbol(d, c);
    CaseDoesNotMatter(c);
    AlphabetIsInverse(d, d, c);
    hide DigitByte, DigitOf, LowerCase;
  }

  lemma DigitIsSymbol(d: Digit)
    ensures DigitByte(d) == Some(ALPHABET[d])
  {}

  lemma CaseOfSymbol(d: Digit, c: char)
    ensures LowerCase(c) == ALPHABET[d] <==> c == ALPHABET[d] || c == UPPER_ALPHABET[d]
  {}

  lemma CaseDoesNotMatter(c: char)
    ensures DigitOf(LowerCase(c)) == DigitOf(c)
  {}

  lemma AlphabetIsInverse(d: Digit, e: Digit, c: char)
    ensures DigitByte(d).Some? && DigitOf(DigitByte(d).value) == Ok(d)
    ensures LowerCase(DigitByte(d).value) == DigitByte(d).value
    ensures DigitOf(c).Ok? ==> DigitByte(DigitOf(c).value) == Some(LowerCase(c))
    ensures DigitByte(d).value < DigitByte(e).value <==> d < e
  {}

  /** The check after the multiplication can never fire: a product of 32 leaves room for a digit. */
  lemma CheckedAddNeverFails(decoded: U128, digit: Digit)
    ensures var product := CheckedMul(decoded, 32, U128_MAX);
      product.Some? ==> CheckedAdd(product.value, digit, U128_MAX).Some?
  {}

  // ----- values

  /** The same value, accumulated from the front as the fold does. */
  function Running(decoded: nat, ds: seq<Digit>): (r: nat)
    decreases |ds|
  {
    if ds == [] then decoded else Running(decoded * 32 + ds[0], ds[1..])
  }

  lemma {:induction false} RunningGrows(decoded: nat, ds: seq<Digit>)
    ensures Running(decoded, ds) >= decoded
    decreases |ds|
  {
    if ds != [] { RunningGrows(decoded * 32 + ds[0], ds[1..]); }
  }

  lemma {:induction false} RunningEnds(decoded: nat, ds: seq<Digit>, d: Digit)
    ensures Running(decoded, ds + [d]) == Running(decoded, ds) * 32 + d
    decreases |ds|
  {
    if ds == [] {
      assert Running(decoded * 32 + d, []) == decoded * 32 + d;
      assert (ds + [d])[1..] == [];
    } else {
      assert (ds + [d])[1..] == ds[1..] + [d];
      RunningEnds(decoded * 32 + ds[0], ds[1..], d);
    }
  }

  lemma {:induction false} RunningIsValue(ds: seq<Digit>)
    ensures Running(0, ds) == Value(ds)
    decreases |ds|
  {
    if ds != [] {
      RunningIsValue(ds[..|ds| - 1]);
      RunningEnds(0, ds[..|ds| - 1], ds[|ds| - 1]);
      assert ds == ds[..|ds| - 1] + [ds[|ds| - 1]];
    }
  }

  lemma {:induction false} ValueOfDigits(v: nat, n: nat)
    requires v < Pow32(n)
    ensures Value(Digits(v, n)) == v
    decreases n
  {
    if n > 0 {
      ValueOfDigits(v / 32, n - 1);
      assert Digits(v, n)[..n - 1] == Digits(v / 32, n - 1);
    }
  }

  lemma {:induction false} DigitsOfValue(ds: seq<Digit>)
    ensures Digits(Value(ds), |ds|) == ds
    decreases |ds|
  {
    if ds != [] { DigitsOfValue(ds[..|ds| - 1]); }
  }

  lemma {:induction false} ValueIsBounded(ds: seq<Digit>)
    ensures Value(ds) < Pow32(|ds|)
    decreases |ds|
  {
    if ds != [] { ValueIsBounded(ds[..|ds| - 1]); }
  }

  lemma Pow32Of26()
    ensures U128_MAX < Pow32(26)
  {
    Pow32Adds(13, 13);
    Pow32Adds(6, 7);
    Pow32Adds(3, 3);
    Pow32Adds(3, 4);
    assert Pow32(3) == 32768 && Pow32(4) == 1048576;
  }

  lemma {:induction false} Pow32Adds(a: nat, b: nat)
    ensures Pow32(a + b) == Pow32(a) * Pow32(b)
    decreases a
  {
    if a > 0 { Pow32Adds(a - 1, b); }
  }

  // ----- the fold

  /** The fold succeeds exactly on symbols of the alphabet whose value still fits, and then it
      returns that value. */
  lemma {:induction false} FoldIsValue(decoded: U128, s: string)
    ensures Fold(decoded, s).Ok? <==> AllInAlphabet(s) && Running(decoded, DigitsOf(s)) <= U128_MAX
    ensures Fold(decoded, s).Ok? ==> Fold(decoded, s).value == Running(decoded, DigitsOf(s))
    decreases |s|
  {
    if s != "" {
      AlphabetSplits(s);
      if InAlphabet(s[0]) {
        var digit := DigitOf(s[0]).value;
        CheckedAddNeverFails(decoded, digit);
        if AllInAlphabet(s) {
          assert DigitsOf(s)[1..] == DigitsOf(s[1..]);
          RunningGrows(decoded * 32 + digit, DigitsOf(s[1..]));
        }
        hide DigitOf, AllInAlphabet;
        if decoded * 32 <= U128_MAX { FoldIsValue(decoded * 32 + digit, s[1..]); }
      }
    }
  }

  lemma AlphabetSplits(s: string)
    requires s != ""
    ensures AllInAlphabet(s) <==> InAlphabet(s[0]) && AllInAlphabet(s[1..])
  {
    assert forall i | 0 < i < |s| :: s[i] == s[1..][i - 1];
  }

  // ----- the results

  /** Exactly which texts are identifiers. */
  lemma DecodeAccepts(s: string)
    ensures Decode(s).Ok? <==> |s| == 26 && AllInAlphabet(s) && Value(DigitsOf(s)) <= U128_MAX
    ensures Decode(s).Ok? ==> Decode(s).value == Value(DigitsOf(s))
  {
    if |s| == 26 { FoldIsValue(0, s); }
    if AllInAlphabet(s) { RunningIsValue(DigitsOf(s)); }
  }

  lemma TextReadsBack(ds: seq<Digit>)
    ensures AllInAlphabet(Text(ds)) && DigitsOf(Text(ds)) == ds
  {
    forall i | 0 <= i < |ds| ensures InAlphabet(Text(ds)[i]) && DigitOf(Text(ds)[i]) == Ok(ds[i]) {
      AlphabetIsInverse(ds[i], ds[i], Text(ds)[i]);
    }
  }

  lemma TextOfDigits(s: string)
    requires AllInAlphabet(s)
    ensures Text(DigitsOf(s)) == Lowered(s)
  {
    forall i | 0 <= i < |s| ensures Text(DigitsOf(s))[i] == Lowered(s)[i] {
      assert InAlphabet(s[i]);
      AlphabetIsInverse(0, 0, s[i]);
    }
  }

  /** Every 128-bit value survives being written and read. */
  lemma DecodeEncodes(v: U128)
    ensures Decode(Text(Digits(v, 26))) == Ok(v)
  {
    Pow32Of26();
    ValueOfDigits(v, 26);
    TextReadsBack(Digits(v, 26));
    DecodeAccepts(Text(Digits(v, 26)));
  }

  /** Every accepted text survives being read and written, up to letter case. */
  lemma EncodeDecodes(s: string)
    requires Decode(s).Ok?
    ensures Text(Digits(Decode(s).value, 26)) == Lowered(s)
  {
    DecodeAccepts(s);
    DigitsOfValue(DigitsOf(s));
    TextOfDigits(s);
  }

  ghost predicate LexLess(a: string, b: string) {
    exists k :: 0 <= k < |a| && k < |b| && a[..k] == b[..k] && a[k] < b[k]
  }

  ghost predicate DigitsLess(a: seq<Digit>, b: seq<Digit>) {
    exists k :: 0 <= k < |a| && k < |b| && a[..k] == b[..k] && a[k] < b[k]
  }

  lemma {:induction false} ValueOrder(a: seq<Digit>, b: seq<Digit>)
    requires |a| == |b| && DigitsLess(a, b)
    ensures Value(a) < Value(b)
    decreases |a|
  {
    var k :| 0 <= k < |a| && a[..k] == b[..k] && a[k] < b[k];
    var a', b' := a[..|a| - 1], b[..|b| - 1];
    if k == |a| - 1 {
      assert a' == b';
    } else {
      assert a'[..k] == a[..k] && b'[..k] == b[..k] && a'[k] == a[k] && b'[k] == b[k];
      ValueOrder(a', b');
    }
  }

  lemma {:induction false} OneIsLess(a: seq<Digit>, b: seq<Digit>)
    requires |a| == |b| && a != b
    ensures DigitsLess(a, b) || DigitsLess(b, a)
    decreases |a|
  {
    var a', b' := a[..|a| - 1], b[..|b| - 1];
    if a' == b' {
      assert a == a' + [a[|a| - 1]] && b == b' + [b[|b| - 1]];
      assert a[..|a| - 1] == b[..|b| - 1] && a[|a| - 1] != b[|b| - 1];
    } else {
      OneIsLess(a', b');
      if k :| 0 <= k < |a'| && a'[..k] == b'[..k] && a'[k] != b'[k] {
        assert a[..k] == b[..k] && a[k] != b[k];
      }
    }
  }

  lemma TextOrder(a: seq<Digit>, b: seq<Digit>)
    requires |a| == |b|
    ensures LexLess(Text(a), Text(b)) <==> DigitsLess(a, b)
  {
    forall i | 0 <= i < |a| ensures Text(a)[i] < Text(b)[i] <==> a[i] < b[i] { AlphabetIsInverse(a[i], b[i], '0'); }
    if k :| 0 <= k < |a| && a[..k] == b[..k] && a[k] < b[k] {
      assert forall i | 0 <= i < k :: a[i] == a[..k][i] == b[i];
      assert Text(a)[..k] == Text(b)[..k];
    }
    if k :| 0 <= k < |Text(a)| && Text(a)[..k] == Text(b)[..k] && Text(a)[k] < Text(b)[k] {
      forall i | 0 <= i < k ensures a[i] == b[i] {
        assert Text(a)[i] == Text(a)[..k][i] == Text(b)[i];
        AlphabetIsInverse(a[i], b[i], Text(a)[i]);
        AlphabetIsInverse(b[i], a[i], Text(a)[i]);
      }
      assert a[..k] == b[..k];
    }
  }

  /** Sorting the texts sorts the values. */
  lemma TextOrderIsNumeric(v: U128, w: U128)
    ensures LexLess(Text(Digits(v, 26)), Text(Digits(w, 26))) <==> v < w
  {
    Pow32Of26();
    ValueOfDigits(v, 26);
    ValueOfDigits(w, 26);
    var a, b := Digits(v, 26), Digits(w, 26);
    TextOrder(a, b);
    if DigitsLess(a, b) { ValueOrder(a, b); }
    if v < w {
      OneIsLess(a, b);
      if DigitsLess(b, a) { ValueOrder(b, a); }
    }
  }
}
