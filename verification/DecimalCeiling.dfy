/**
 `scaled_requirement_text` of crates/policy-memorial/src/lib.rs: the exact ceiling of a tenth of a
 decimal string of any length, carried through the digits in place.
 */
module DecimalCeiling {
  import opened Wrappers
  import opened Text

  predicate AllDigits(s: seq<char>) {
    forall i | 0 <= i < |s| :: IsDigit(s[i])
  }

  function Digit(c: char): int {
    c as int - '0' as int
  }

  function Value(s: seq<char>): int {
    if s == [] then 0 else Value(s[..|s| - 1]) * 10 + Digit(s[|s| - 1])
  }

  function Pow10(n: nat): (p: int)
    ensures p >= 1
  {
    if n == 0 then 1 else 10 * Pow10(n - 1)
  }

  /** A decimal numeral with no superfluous leading zero. */
  predicate Canonical(s: seq<char>) {
    s != [] && AllDigits(s) && (|s| == 1 || s[0] != '0')
  }

  lemma {:induction false} ValueOfConcat(a: seq<char>, b: seq<char>)
    ensures Value(a + b) == Value(a) * Pow10(|b|) + Value(b)
  {
    if b == [] {
      assert a + b == a;
    } else {
      var init, last := b[..|b| - 1], b[|b| - 1];
      assert (a + b)[..|a + b| - 1] == a + init;
      ValueOfConcat(a, init);
      assert (Value(a) * Pow10(|init|) + Value(init)) * 10 + Digit(last)
          == Value(a) * (10 * Pow10(|init|)) + (Value(init) * 10 + Digit(last));
    }
  }

  lemma {:induction false} ValueRange(s: seq<char>)
    requires AllDigits(s)
    ensures 0 <= Value(s) < Pow10(|s|)
  {
    if s != [] {
      ValueRange(s[..|s| - 1]);
    }
  }

  lemma ValueOfLeading(s: seq<char>)
    requires AllDigits(s) && s != []
    ensures s[0] != '0' <==> Value(s) >= Pow10(|s| - 1)
  {
    hide Value;
    var first, rest := s[..1], s[1..];
    assert s == first + rest && first == [s[0]];
    ValueOfConcat(first, rest);
    ValueRange(rest);
    ValueOfOne(s[0]);
    var d, p := Digit(s[0]), Pow10(|rest|);
    if d >= 1 {
      Distribute(1, d - 1, p);
      assert (d - 1) * p >= 0;
    }
  }

  lemma ValueOfOne(c: char)
    ensures Value([c]) == Digit(c)
  {
    assert [c][..0] == [];
  }

  /** Canonical numerals are determined by their value. */
  lemma {:induction false} CanonicalUnique(a: seq<char>, b: seq<char>)
    requires Canonical(a) && Canonical(b) && Value(a) == Value(b)
    ensures a == b
  {
    ValueOfLeading(a);
    ValueOfLeading(b);
    ValueRange(a);
    ValueRange(b);
    if |a| < |b| {
      Pow10Grows(|a|, |b| - 1);
    } else if |b| < |a| {
      Pow10Grows(|b|, |a| - 1);
    } else {
      SameLengthUnique(a, b);
    }
  }

  lemma {:induction false} Pow10Grows(m: nat, n: nat)
    requires m <= n
    ensures Pow10(m) <= Pow10(n)
  {
    if m < n {
      Pow10Grows(m, n - 1);
    }
  }

  lemma {:induction false} SameLengthUnique(a: seq<char>, b: seq<char>)
    requires AllDigits(a) && AllDigits(b) && |a| == |b| && Value(a) == Value(b)
    ensures a == b
  {
    if a != [] {
      var n := |a| - 1;
      assert Digit(a[n]) == Value(a) % 10 && Digit(b[n]) == Value(b) % 10;
      SameLengthUnique(a[..n], b[..n]);
      assert a == a[..n] + [a[n]] && b == b[..n] + [b[n]];
    }
  }

  /** `trim_start_matches('0')`. */
  method StripZeros(s: seq<char>) returns (t: seq<char>)
    requires AllDigits(s)
    ensures AllDigits(t) && Value(t) == Value(s)
    ensures t == [] || t[0] != '0'
  {
    var i := 0;
    while i < |s| && s[i] == '0'
      invariant i <= |s| && Value(s[..i]) == 0
    {
      assert s[..i + 1][..i] == s[..i];
      i := i + 1;
    }
    assert s == s[..i] + s[i..];
    ValueOfConcat(s[..i], s[i..]);
    t := s[i..];
  }

  function DigitChar(d: int): (c: char)
    requires 0 <= d < 10
    ensures IsDigit(c) && Digit(c) == d
  {
    (d + '0' as int) as char
  }

  lemma IncrementStep(c: char, oldTail: seq<char>, tail: seq<char>, carry: int)
    requires IsDigit(c) && |tail| == |oldTail| && 0 <= carry <= 1
    requires carry * Pow10(|tail|) + Value(tail) == Value(oldTail) + 1
    ensures var value := Digit(c) + carry;
      value / 10 * (10 * Pow10(|tail|)) + Value([DigitChar(value % 10)] + tail) == Value([c] + oldTail) + 1
  {
    hide Value, Pow10, DigitChar;
    var d := Digit(c);
    var unit := (d + carry) % 10;
    PrependDigit(c, d, oldTail);
    PrependDigit(DigitChar(unit), unit, tail);
    CarryOut(d, carry, Pow10(|tail|), Value(oldTail), Value(tail), Value([c] + oldTail), Value([DigitChar(unit)] + tail));
  }

  /** `CarryArithmetic` with the values before and after the step under names of their own. */
  lemma CarryOut(d: int, carry: int, p: int, oldTail: int, tail: int, before: int, after: int)
    requires carry * p + tail == oldTail + 1
    requires before == d * p + oldTail && after == (d + carry) % 10 * p + tail
    ensures (d + carry) / 10 * (10 * p) + after == before + 1
  {
    CarryArithmetic(d, carry, p, oldTail, tail);
  }

  lemma PrependDigit(c: char, d: int, tail: seq<char>)
    requires Digit(c) == d
    ensures Value([c] + tail) == d * Pow10(|tail|) + Value(tail)
  {
    ValueOfConcat([c], tail);
    ValueOfOne(c);
  }

  lemma CarryArithmetic(d: int, carry: int, p: int, oldTail: int, tail: int)
    requires carry * p + tail == oldTail + 1
    ensures (d + carry) / 10 * (10 * p) + ((d + carry) % 10 * p + tail) == d * p + oldTail + 1
  {
    var q, r := (d + carry) / 10, (d + carry) % 10;
    Distribute(q * 10, r, p);
    Distribute(d, carry, p);
    assert q * 10 + r == d + carry;
    Regroup(q, p);
  }

  lemma Pow10Step(n: nat)
    ensures Pow10(n + 1) == 10 * Pow10(n)
  {
  }

  lemma EmptyNumeral()
    ensures Value([]) == 0 && Pow10(0) == 1
  {
  }

  lemma Regroup(q: int, p: int)
    ensures q * (10 * p) == (q * 10) * p
  {
  }

  lemma Distribute(a: int, b: int, p: int)
    ensures (a + b) * p == a * p + b * p
  {
  }

  /**
   Adds one to the numeral in `digits`, in place, from the last digit on; reports the carry out of
   the first digit. It runs on through as many nines as there are.
   */
  method Increment(digits: array<char>) returns (carry: int)
    requires AllDigits(digits[..])
    modifies digits
    ensures AllDigits(digits[..]) && (carry == 0 || carry == 1)
    ensures carry * Pow10(digits.Length) + Value(digits[..]) == old(Value(digits[..])) + 1
  {
    hide Value, Pow10, DigitChar;
    EmptyNumeral();
    ghost var before := digits[..];
    var n := digits.Length;
    var i := n;
    carry := 1;
    while i > 0 && carry != 0
      invariant 0 <= i <= n && (carry == 0 || carry == 1)
      invariant AllDigits(digits[..]) && digits[..i] == before[..i]
      invariant carry * Pow10(n - i) + Value(digits[i..]) == Value(before[i..]) + 1
    {
      ghost var tail := digits[i..];
      assert before[i - 1] == digits[..i][i - 1];
      var value := Digit(digits[i - 1]) + carry;
      IncrementStep(before[i - 1], before[i..], tail, carry);
      Pow10Step(n - i);
      digits[i - 1] := DigitChar(value % 10);
      carry := value / 10;
      i := i - 1;
      assert digits[i..] == [digits[i]] + tail;
      assert before[i..] == [before[i]] + before[i + 1..];
    }
    assert digits[..] == digits[..i] + digits[i..];
    assert before == before[..i] + before[i..];
    ValueOfConcat(digits[..i], digits[i..]);
    ValueOfConcat(before[..i], before[i..]);
    if carry != 0 {
      assert digits[..] == digits[0..] && before == before[0..];
    }
  }

  /**
   The result is the canonical numeral of ceil(N / 10) when the trimmed text is a non-empty digit
   string N, and nothing otherwise; by `CanonicalUnique` this determines it.
   */
  method ScaledRequirementText(official: string) returns (r: Option<string>)
    ensures r.Some? <==> Trim(official) != "" && AllDigits(Trim(official))
    ensures r.Some? ==> Canonical(r.value) && Value(r.value) == (Value(Trim(official)) + 9) / 10
  {
    hide Trim, Pow10;
    var value := Trim(official);
    if value == "" || exists i | 0 <= i < |value| :: !IsDigit(value[i]) {
      return None;
    }
    var canonical := StripZeros(value);
    if canonical == [] {
      ValueOfOne('0');
      return Some("0");
    }
    var split := |canonical| - 1;
    var quotient, remainder := canonical[..split], canonical[split];
    var scaled := if quotient == [] then "0" else quotient;
    assert AllDigits(quotient) && Value(canonical) == Value(quotient) * 10 + Digit(remainder);
    assert Value(scaled) == Value(quotient) by {
      ValueOfOne('0');
    }
    assert Canonical(scaled) by {
      assert quotient != [] ==> quotient[0] == canonical[0];
    }
    if remainder != '0' {
      scaled := PlusOne(scaled);
    }
    r := Some(scaled);
  }

  method PlusOne(numeral: seq<char>) returns (r: seq<char>)
    requires Canonical(numeral)
    ensures Canonical(r) && Value(r) == Value(numeral) + 1
  {
    hide Value, Pow10;
    EmptyNumeral();
    var digits := new char[|numeral|](i requires 0 <= i < |numeral| => numeral[i]);
    assert digits[..] == numeral;
    var carry := Increment(digits);
    r := digits[..];
    if carry != 0 {
      ValueOfConcat(['1'], r);
      ValueOfOne('1');
      r := ['1'] + r;
    } else if |numeral| > 1 {
      ValueOfLeading(numeral);
      ValueOfLeading(r);
    }
  }
}
