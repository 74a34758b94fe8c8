// Exact decimal rendering of an amount counted in a chain's smallest unit.
module Decimal {
  import opened Domain
  import opened Tables

  // Digit strings.

  predicate IsDigit(c: char) { '0' <= c <= '9' }

  predicate AllDigits(s: string) { forall i :: 0 <= i < |s| ==> IsDigit(s[i]) }

  function DigitValue(c: char): nat
    requires IsDigit(c)
  {
    c as int - '0' as int
  }

  function Digit(n: nat): char
    requires n < 10
  {
    ('0' as int + n) as char
  }

  function Value(s: string): nat
    requires AllDigits(s)
  {
    if s == "" then 0 else 10 * Value(s[..|s| - 1]) + DigitValue(s[|s| - 1])
  }

  function Numeral(n: nat): string {
    if n < 10 then [Digit(n)] else Numeral(n / 10) + [Digit(n % 10)]
  }

  function Pow10(n: nat): nat
    ensures Pow10(n) >= 1
  {
    if n == 0 then 1 else 10 * Pow10(n - 1)
  }

  function Zeros(n: nat): string { seq(n, _ => '0') }

  // A digit string with no leading zero, or zero itself.
  predicate Plain(s: string) {
    s != "" && AllDigits(s) && (|s| > 1 ==> s[0] != '0')
  }

  lemma {:induction false} ShiftByTen(high: nat, scale: nat, low: nat, digit: nat)
    ensures 10 * (high * scale + low) + digit == high * (10 * scale) + (10 * low + digit)
  {}

  lemma {:induction false} ValueOfConcat(a: string, b: string)
    requires AllDigits(a) && AllDigits(b)
    ensures AllDigits(a + b) && Value(a + b) == Value(a) * Pow10(|b|) + Value(b)
  {
    if b == "" {
      assert a + b == a;
    } else {
      var front := b[..|b| - 1];
      ValueOfConcat(a, front);
      assert (a + b)[..|a + b| - 1] == a + front && (a + b)[|a + b| - 1] == b[|b| - 1];
      ShiftByTen(Value(a), Pow10(|front|), Value(front), DigitValue(b[|b| - 1]));
    }
  }

  lemma {:induction false} ZerosAreWorthless(n: nat)
    ensures AllDigits(Zeros(n)) && Value(Zeros(n)) == 0
  {
    if n > 0 {
      ZerosAreWorthless(n - 1);
      assert Zeros(n)[..n - 1] == Zeros(n - 1);
    }
  }

  lemma {:induction false} PowIsMonotone(a: nat, b: nat)
    requires a <= b
    ensures Pow10(a) <= Pow10(b)
    decreases b
  {
    if a < b { PowIsMonotone(a, b - 1); }
  }

  lemma {:induction false} ValueIsBounded(s: string)
    requires AllDigits(s)
    ensures Value(s) < Pow10(|s|)
    ensures s != "" && s[0] != '0' ==> Value(s) >= Pow10(|s| - 1)
  {
    if s != "" { ValueIsBounded(s[..|s| - 1]); }
  }

  lemma {:induction false} NumeralHasItsValue(n: nat)
    ensures Plain(Numeral(n)) && Value(Numeral(n)) == n
    ensures n > 0 ==> Numeral(n)[0] != '0'
  {
    if n >= 10 {
      NumeralHasItsValue(n / 10);
      assert Numeral(n)[..|Numeral(n)| - 1] == Numeral(n / 10);
    }
  }

  lemma {:induction false} NumeralIsOnlyOne(s: string)
    requires Plain(s)
    ensures Numeral(Value(s)) == s
  {
    var front := s[..|s| - 1];
    if |s| > 1 {
      NumeralIsOnlyOne(front);
      ValueIsBounded(front);
      assert s == front + [s[|s| - 1]];
    } else {
      assert Value(front) == 0;
    }
  }

  lemma {:induction false} NumeralLength(n: nat, k: nat)
    ensures |Numeral(n)| > k <==> n >= Pow10(k) || k == 0
  {
    NumeralHasItsValue(n);
    ValueIsBounded(Numeral(n));
    if |Numeral(n)| <= k {
      PowIsMonotone(|Numeral(n)|, k);
    } else {
      PowIsMonotone(k, |Numeral(n)| - 1);
    }
  }

  // Digit strings of one length and one value are one string.
  lemma {:induction false} ValueDecidesDigits(a: string, b: string)
    requires AllDigits(a) && AllDigits(b) && |a| == |b| && Value(a) == Value(b)
    ensures a == b
  {
    if a != "" {
      ValueDecidesDigits(a[..|a| - 1], b[..|b| - 1]);
      assert a == a[..|a| - 1] + [a[|a| - 1]] && b == b[..|b| - 1] + [b[|b| - 1]];
    }
  }

  // Integers as text.

  function IntText(n: int): string {
    if n < 0 then "-" + Numeral(-n) else Numeral(n)
  }

  function ParseInt(s: string): Option<int> {
    var digits := if s != "" && (s[0] == '-' || s[0] == '+') then s[1..] else s;
    if digits == "" || !AllDigits(digits) then None
    else if s[0] == '-' then Some(0 - Value(digits)) else Some(Value(digits))
  }

  lemma {:induction false} IntTextParses(n: int)
    ensures ParseInt(IntText(n)) == Some(n)
  {
    NumeralHasItsValue(if n < 0 then -n else n);
  }

  // The printer.

  function TrimZeros(s: string): string {
    if s != "" && s[|s| - 1] == '0' then TrimZeros(s[..|s| - 1]) else s
  }

  function Padded(digits: string, decimals: nat): string {
    if |digits| <= decimals then Zeros(decimals + 1 - |digits|) + digits else digits
  }

  function Joined(whole: string, fraction: string): string {
    if fraction == "" then whole else whole + "." + fraction
  }

  function Render(digits: string, decimals: nat): string {
    var padded := Padded(digits, decimals);
    var point := |padded| - decimals;
    var whole, fraction := padded[..point], TrimZeros(padded[point..]);
    Joined(whole, fraction)
  }

  function FormatAtomic(raw: string, decimals: nat): string {
    var value := ParseInt(raw);
    if value.None? || decimals == 0 then raw else Render(IntText(value.value), decimals)
  }

  function Decimals(chain: Chain): nat {
    match chain
    case Bitcoin => 8
    case Ethereum => 18
    case Arbitrum => 18
    case BSC => 18
    case Solana => 9
    case Tron => 6
  }

  // The reader: an independent account of what a decimal text means.

  function PointFrom(s: string, i: nat): (p: nat)
    requires i <= |s|
    ensures i <= p <= |s| && (p < |s| ==> s[p] == '.') && forall j :: i <= j < p ==> s[j] != '.'
    decreases |s| - i
  {
    if i == |s| || s[i] == '.' then i else PointFrom(s, i + 1)
  }

  function PointAt(s: string): nat { PointFrom(s, 0) }

  function Whole(s: string): string { s[..PointAt(s)] }

  function Fraction(s: string): string { if PointAt(s) < |s| then s[PointAt(s) + 1..] else "" }

  predicate IsDecimal(s: string) {
    && Whole(s) != "" && AllDigits(Whole(s)) && AllDigits(Fraction(s))
    && (PointAt(s) < |s| ==> Fraction(s) != "")
  }

  // The digits of a text once its point has moved right by the given number of places.
  function Shifted(s: string, decimals: nat): string
    requires IsDecimal(s) && |Fraction(s)| <= decimals
  {
    Whole(s) + (Fraction(s) + Zeros(decimals - |Fraction(s)|))
  }

  // The number a text denotes, in units of 10^-decimals; None when it is no decimal or too precise.
  function Unsigned(s: string, decimals: nat): Option<int> {
    if !IsDecimal(s) || |Fraction(s)| > decimals then None else Some(Value(Shifted(s, decimals)))
  }

  function Scaled(s: string, decimals: nat): Option<int> {
    if s != "" && s[0] == '-' then
      var magnitude := Unsigned(s[1..], decimals);
      if magnitude.None? then None else Some(0 - magnitude.value)
    else Unsigned(s, decimals)
  }

  // No superfluous zero at either end, and at most the given precision.
  predicate Canonical(s: string, decimals: nat) {
    && IsDecimal(s) && Plain(Whole(s)) && |Fraction(s)| <= decimals
    && (Fraction(s) != "" ==> Fraction(s)[|Fraction(s)| - 1] != '0')
  }

  // The reader and the printer both cut their texts into pieces. Proofs that need no more than the result of one of
  // them keep it folded.

  ghost predicate ReadsAs(text: string, decimals: nat, result: Option<int>) {
    forall depth {:trigger Looking(depth)} :: Looking(depth) && depth == 1 ==> Scaled(text, decimals) == result
  }

  // The text is the canonical decimal of a natural number.
  ghost predicate IsExact(text: string, decimals: nat, n: nat) {
    forall depth {:trigger Looking(depth)} :: Looking(depth) && depth == 2 ==>
      Canonical(text, decimals) && Unsigned(text, decimals) == Some(n) && Scaled(text, decimals) == Some(n)
  }

  // The text is what is displayed for an integer.
  ghost predicate Prints(value: int, decimals: nat, text: string) {
    forall depth {:trigger Looking(depth)} :: Looking(depth) && depth == 3 ==>
      FormatAtomic(IntText(value), decimals) == text
  }

  lemma {:induction false} PrintsRendering(value: int, decimals: nat, text: string)
    requires decimals > 0
    ensures Prints(value, decimals, text) <==> Render(IntText(value), decimals) == text
  {
    IntTextParses(value);
    assert Looking(3);
  }

  lemma {:induction false} ExactMeans(text: string, decimals: nat, n: nat)
    requires IsExact(text, decimals, n)
    ensures Canonical(text, decimals) && Unsigned(text, decimals) == Some(n) && ReadsAs(text, decimals, Some(n))
  {
    assert Looking(2);
  }

  lemma {:induction false} ExactReads(text: string, decimals: nat, n: nat)
    requires IsExact(text, decimals, n)
    ensures ReadsAs(text, decimals, Some(n))
  {
    assert Looking(2);
  }

  lemma {:induction false} ReadsOnce(text: string, decimals: nat, a: Option<int>, b: Option<int>)
    requires ReadsAs(text, decimals, a) && ReadsAs(text, decimals, b)
    ensures a == b
  {
    assert Looking(1);
  }

  lemma {:induction false} CanonicalIsExact(text: string, decimals: nat)
    requires Canonical(text, decimals)
    ensures Unsigned(text, decimals).Some? && Unsigned(text, decimals).value >= 0
    ensures IsExact(text, decimals, Unsigned(text, decimals).value)
  {
    DigitsHaveNoPoint(Whole(text));
  }

  // Text built from a whole part and a fraction reads back as those parts.

  lemma {:induction false} PointIsFirst(s: string, i: nat, p: nat)
    requires i <= p <= |s| && (p < |s| ==> s[p] == '.') && forall j :: i <= j < p ==> s[j] != '.'
    ensures PointFrom(s, i) == p
    decreases p - i
  {
    if i < p { PointIsFirst(s, i + 1, p); }
  }

  lemma {:induction false} JoinedSplits(whole: string, fraction: string)
    requires '.' !in whole
    ensures Whole(Joined(whole, fraction)) == whole && Fraction(Joined(whole, fraction)) == fraction
    ensures PointAt(Joined(whole, fraction)) < |Joined(whole, fraction)| <==> fraction != ""
  {
    PointIsFirst(Joined(whole, fraction), 0, |whole|);
  }

  lemma {:induction false} SplitsJoin(s: string)
    requires PointAt(s) < |s| ==> Fraction(s) != ""
    ensures s == Joined(Whole(s), Fraction(s)) && '.' !in Whole(s)
  {}

  lemma {:induction false} TrimDropsZeros(s: string)
    ensures |TrimZeros(s)| <= |s| && s == TrimZeros(s) + Zeros(|s| - |TrimZeros(s)|)
    ensures TrimZeros(s) != "" ==> TrimZeros(s)[|TrimZeros(s)| - 1] != '0'
  {
    if s != "" && s[|s| - 1] == '0' {
      var front := s[..|s| - 1];
      TrimDropsZeros(front);
      assert Zeros(|s| - |TrimZeros(s)|) == Zeros(|front| - |TrimZeros(front)|) + "0";
      assert s == front + "0";
    }
  }

  lemma {:induction false} TrimKeepsOthers(s: string, i: nat)
    requires i < |s| && s[i] != '0'
    ensures i < |TrimZeros(s)| && TrimZeros(s)[i] == s[i]
  {
    if s[|s| - 1] == '0' { TrimKeepsOthers(s[..|s| - 1], i); }
  }

  lemma {:induction false} TrimIsOnlyOne(s: string, n: nat)
    requires s != "" ==> s[|s| - 1] != '0'
    ensures TrimZeros(s + Zeros(n)) == s
  {
    if n == 0 {
      assert s + Zeros(0) == s;
    } else {
      TrimIsOnlyOne(s, n - 1);
      assert (s + Zeros(n))[..|s + Zeros(n)| - 1] == s + Zeros(n - 1);
    }
  }

  lemma {:induction false} PaddingIsWorthless(n: nat, decimals: nat)
    ensures var padded := Padded(Numeral(n), decimals);
            && |padded| > decimals && AllDigits(padded) && Value(padded) == n
            && (|padded| > decimals + 1 ==> padded[0] != '0')
  {
    NumeralHasItsValue(n);
    if |Numeral(n)| <= decimals {
      var zeros := Zeros(decimals + 1 - |Numeral(n)|);
      ZerosAreWorthless(|zeros|);
      ValueOfConcat(zeros, Numeral(n));
    }
  }

  // Appending zeros to a fraction scales it.
  lemma {:induction false} ZerosScale(s: string, n: nat)
    requires AllDigits(s)
    ensures AllDigits(s + Zeros(n)) && Value(s + Zeros(n)) == Value(s) * Pow10(n)
  {
    ZerosAreWorthless(n);
    ValueOfConcat(s, Zeros(n));
  }

  lemma {:induction false} DigitsHaveNoPoint(s: string)
    requires AllDigits(s)
    ensures '.' !in s && '-' !in s
  {}

  lemma {:induction false} JoinedIsRead(whole: string, fraction: string, zeros: nat)
    requires whole != "" && AllDigits(whole) && AllDigits(fraction) && AllDigits(whole + (fraction + Zeros(zeros)))
    ensures Unsigned(Joined(whole, fraction), |fraction| + zeros) == Some(Value(whole + (fraction + Zeros(zeros))))
    ensures Scaled(Joined(whole, fraction), |fraction| + zeros) == Unsigned(Joined(whole, fraction), |fraction| + zeros)
    ensures Plain(whole) && (fraction != "" ==> fraction[|fraction| - 1] != '0') ==>
              Canonical(Joined(whole, fraction), |fraction| + zeros)
  {
    DigitsHaveNoPoint(whole);
    JoinedSplits(whole, fraction);
    assert Joined(whole, fraction)[0] == whole[0];
  }

  // The value of all digits, cut after the whole part and with the last zeros of the fraction dropped.
  lemma {:induction false} ValueOfParts(whole: string, fraction: string, zeros: nat)
    requires AllDigits(whole) && AllDigits(fraction)
    ensures AllDigits(whole + (fraction + Zeros(zeros)))
    ensures Value(whole + (fraction + Zeros(zeros)))
         == Value(whole) * Pow10(|fraction| + zeros) + Value(fraction) * Pow10(zeros)
  {
    ZerosScale(fraction, zeros);
    ValueOfConcat(whole, fraction + Zeros(zeros));
  }

  // What the reader's result means: the whole part and the fraction, each at its power of ten.
  lemma {:induction false} ReadingIsScaling(s: string, decimals: nat)
    requires Unsigned(s, decimals).Some?
    ensures Unsigned(s, decimals).value
         == Value(Whole(s)) * Pow10(decimals) + Value(Fraction(s)) * Pow10(decimals - |Fraction(s)|)
  {
    ValueOfParts(Whole(s), Fraction(s), decimals - |Fraction(s)|);
  }

  // Reading the rendering of a natural number gives the number back, and the rendering is canonical.
  lemma {:induction false} RenderIsExact(n: nat, decimals: nat)
    requires decimals > 0
    ensures IsExact(Render(Numeral(n), decimals), decimals, n)
  {
    PaddingIsWorthless(n, decimals);
    PartsAreExact(Padded(Numeral(n), decimals), decimals, n, Render(Numeral(n), decimals));
  }

  lemma {:induction false} PartsAreExact(padded: string, decimals: nat, n: nat, text: string)
    requires AllDigits(padded) && |padded| > decimals && (|padded| > decimals + 1 ==> padded[0] != '0')
    requires var point := |padded| - decimals;
             n == Value(padded) && text == Joined(padded[..point], TrimZeros(padded[point..]))
    ensures IsExact(text, decimals, n)
  {
    var point := |padded| - decimals;
    DigitsSplit(padded, point);
    TrimmedAreRead(padded[..point], padded[point..]);
  }

  lemma {:induction false} TrimmedAreRead(whole: string, rest: string)
    requires Plain(whole) && AllDigits(rest) && AllDigits(whole + rest)
    ensures IsExact(Joined(whole, TrimZeros(rest)), |rest|, Value(whole + rest))
  {
    TrimDropsZeros(rest);
    TrimKeepsDigits(rest);
    PartsAreRead(whole, TrimZeros(rest), |rest| - |TrimZeros(rest)|);
  }

  lemma {:induction false} TrimKeepsDigits(s: string)
    requires AllDigits(s)
    ensures AllDigits(TrimZeros(s))
  {
    TrimDropsZeros(s);
    DigitsSplit(s, |TrimZeros(s)|);
  }

  lemma {:induction false} DigitsSplit(s: string, n: nat)
    requires AllDigits(s) && n <= |s|
    ensures AllDigits(s[..n]) && AllDigits(s[n..]) && s == s[..n] + s[n..]
  {}

  lemma {:induction false} PartsAreRead(whole: string, fraction: string, zeros: nat)
    requires Plain(whole) && AllDigits(fraction) && (fraction != "" ==> fraction[|fraction| - 1] != '0')
    ensures AllDigits(whole + (fraction + Zeros(zeros)))
    ensures IsExact(Joined(whole, fraction), |fraction| + zeros, Value(whole + (fraction + Zeros(zeros))))
  {
    ValueOfParts(whole, fraction, zeros);
    JoinedIsRead(whole, fraction, zeros);
  }

  lemma {:induction false} DisplayIsExact(n: nat, decimals: nat, text: string)
    requires decimals > 0 && Prints(n, decimals, text)
    ensures IsExact(text, decimals, n)
  {
    PrintsRendering(n, decimals, text);
    RenderIsExact(n, decimals);
  }

  // The other way round: a canonical text is the display of the number it denotes.

  lemma {:induction false} ExactTextSplits(text: string, decimals: nat, n: nat)
    returns (whole: string, fraction: string)
    requires IsExact(text, decimals, n)
    ensures Plain(whole) && AllDigits(fraction) && |fraction| <= decimals
    ensures fraction != "" ==> fraction[|fraction| - 1] != '0'
    ensures AllDigits(whole + (fraction + Zeros(decimals - |fraction|)))
    ensures text == Joined(whole, fraction) && n == Value(whole + (fraction + Zeros(decimals - |fraction|)))
  {
    assert Looking(2);
    SplitsJoin(text);
    whole, fraction := Whole(text), Fraction(text);
  }

  lemma {:induction false} ExactTextIsDisplayed(text: string, decimals: nat, n: nat)
    requires decimals > 0 && IsExact(text, decimals, n)
    ensures Prints(n, decimals, text)
  {
    var whole, fraction := ExactTextSplits(text, decimals, n);
    PartsAreRendered(whole, fraction, decimals);
    PrintsRendering(n, decimals, text);
  }

  lemma {:induction false} PartsAreRendered(whole: string, fraction: string, decimals: nat)
    requires Plain(whole) && AllDigits(fraction) && |fraction| <= decimals && decimals > 0
    requires fraction != "" ==> fraction[|fraction| - 1] != '0'
    ensures var all := whole + (fraction + Zeros(decimals - |fraction|));
            AllDigits(all) && Render(Numeral(Value(all)), decimals) == Joined(whole, fraction)
  {
    var rest := fraction + Zeros(decimals - |fraction|);
    PaddedIsWhole(whole, rest, decimals);
    assert (whole + rest)[..|whole|] == whole && (whole + rest)[|whole|..] == rest;
    TrimIsOnlyOne(fraction, decimals - |fraction|);
  }

  // Printer and reader are inverse to each other: a text is the display of a natural number
  // exactly if it has no superfluous zeros, at most the given decimals, and denotes that number.
  lemma {:induction false} DisplayIff(n: nat, decimals: nat, text: string)
    requires decimals > 0
    ensures Prints(n, decimals, text) <==> Canonical(text, decimals) && Unsigned(text, decimals) == Some(n)
  {
    if Prints(n, decimals, text) {
      DisplayIsExact(n, decimals, text);
      ExactMeans(text, decimals, n);
    }
    if Canonical(text, decimals) && Unsigned(text, decimals) == Some(n) {
      CanonicalIsDisplayed(text, decimals);
    }
  }

  // Every canonical text is the display of the number it denotes.
  lemma {:induction false} CanonicalIsDisplayed(text: string, decimals: nat)
    requires decimals > 0 && Canonical(text, decimals)
    ensures Unsigned(text, decimals).Some? && Prints(Unsigned(text, decimals).value, decimals, text)
  {
    CanonicalIsExact(text, decimals);
    ExactTextIsDisplayed(text, decimals, Unsigned(text, decimals).value);
  }

  lemma {:induction false} PaddedIsWhole(whole: string, rest: string, decimals: nat)
    requires Plain(whole) && AllDigits(rest) && |rest| == decimals > 0 && AllDigits(whole + rest)
    ensures Padded(Numeral(Value(whole + rest)), decimals) == whole + rest
  {
    var digits := whole + rest;
    var n := Value(digits);
    if whole[0] != '0' {
      NumeralIsOnlyOne(digits);
    } else {
      assert whole == "0";
      var padded := Padded(Numeral(n), decimals);
      PaddingIsWorthless(n, decimals);
      ValueOfConcat(whole, rest);
      ValueIsBounded(rest);
      if |padded| > decimals + 1 {
        NumeralLength(n, decimals);
      }
      ValueDecidesDigits(padded, digits);
    }
  }

  // Two amounts never share a display.
  lemma {:induction false} DisplayIsInjective(a: nat, b: nat, decimals: nat, text: string)
    requires decimals > 0 && Prints(a, decimals, text) && Prints(b, decimals, text)
    ensures a == b
  {
    DisplayIsExact(a, decimals, text);
    DisplayIsExact(b, decimals, text);
    ExactOnce(text, decimals, a, b);
  }

  lemma {:induction false} ExactOnce(text: string, decimals: nat, a: nat, b: nat)
    requires IsExact(text, decimals, a) && IsExact(text, decimals, b)
    ensures a == b
  {
    assert Looking(2);
  }

  // Negative amounts: what the printer does with them, and when it is wrong.

  lemma {:induction false} SignStaysInFront(digits: string, decimals: nat)
    requires |digits| > decimals > 0
    ensures Render("-" + digits, decimals) == "-" + Render(digits, decimals)
  {
    var point := |digits| - decimals;
    LongIsCut("-" + digits, decimals);
    LongIsCut(digits, decimals);
    SignIsCut(digits, point);
    SignJoins(digits[..point], TrimZeros(digits[point..]));
  }

  lemma {:induction false} LongIsCut(digits: string, decimals: nat)
    requires |digits| > decimals
    ensures var point := |digits| - decimals;
            Render(digits, decimals) == Joined(digits[..point], TrimZeros(digits[point..]))
  {}

  lemma {:induction false} SignIsCut(digits: string, point: nat)
    requires point <= |digits|
    ensures ("-" + digits)[point + 1..] == digits[point..] && ("-" + digits)[..point + 1] == "-" + digits[..point]
  {}

  lemma {:induction false} SignJoins(whole: string, fraction: string)
    ensures Joined("-" + whole, fraction) == "-" + Joined(whole, fraction)
  {}

  lemma {:induction false} SignIsRead(text: string, decimals: nat, n: nat)
    requires IsExact(text, decimals, n)
    ensures ReadsAs("-" + text, decimals, Some(0 - n))
  {
    assert Looking(2);
    assert ("-" + text)[1..] == text;
  }

  lemma {:induction false} LargeNegativeIsSigned(n: nat, decimals: nat)
    requires decimals > 0 && n >= Pow10(decimals)
    ensures ReadsAs(Render("-" + Numeral(n), decimals), decimals, Some(0 - n))
  {
    NumeralLength(n, decimals);
    SignStaysInFront(Numeral(n), decimals);
    RenderIsExact(n, decimals);
    SignIsRead(Render(Numeral(n), decimals), decimals, n);
  }

  lemma {:induction false} SignInFractionIsUnreadable(fraction: string, at: nat, decimals: nat)
    requires at < |fraction| && fraction[at] == '-'
    ensures ReadsAs(Joined("0", fraction), decimals, None)
  {
    JoinedSplits("0", fraction);
    assert !AllDigits(fraction);
  }

  lemma {:induction false} SignAloneIsUnreadable(fraction: string, decimals: nat)
    ensures ReadsAs(Joined("-", fraction), decimals, None)
  {
    var text := Joined("-", fraction);
    assert text[1..] == if fraction == "" then "" else "." + fraction;
    assert Whole(text[1..]) == "";
  }

  // A sign among the padded digits leaves no number at all.
  lemma {:induction false} SmallNegativeIsUnreadable(n: nat, decimals: nat)
    requires decimals > 0 && 0 < n < Pow10(decimals)
    ensures ReadsAs(Render("-" + Numeral(n), decimals), decimals, None)
  {
    NumeralLength(n, decimals);
    NumeralHasItsValue(n);
    if |Numeral(n)| == decimals {
      WholeIsSign(Numeral(n), decimals);
    } else {
      PaddedSign(Numeral(n), decimals);
    }
  }

  lemma {:induction false} WholeIsSign(digits: string, decimals: nat)
    requires |digits| == decimals
    ensures ReadsAs(Render("-" + digits, decimals), decimals, None)
  {
    assert ("-" + digits)[..1] == "-";
    SignAloneIsUnreadable(TrimZeros(("-" + digits)[1..]), decimals);
  }

  lemma {:induction false} PaddedSign(digits: string, decimals: nat)
    requires 0 < |digits| < decimals
    ensures ReadsAs(Render("-" + digits, decimals), decimals, None)
  {
    var padded := Padded("-" + digits, decimals);
    var at := decimals - 1 - |digits|;
    assert padded[..1] == "0" && padded[1..][at] == '-';
    TrimKeepsOthers(padded[1..], at);
    SignInFractionIsUnreadable(TrimZeros(padded[1..]), at, decimals);
  }

  // Exactly when the display of an integer is right: when it is not negative, or has more digits than decimals.
  lemma {:induction false} DisplayIsRightIff(value: int, decimals: nat, text: string)
    requires decimals > 0 && Prints(value, decimals, text)
    ensures ReadsAs(text, decimals, Some(value)) <==> value >= 0 || value <= 0 - Pow10(decimals)
  {
    if value >= 0 {
      DisplayIsExact(value, decimals, text);
      ExactReads(text, decimals, value);
    } else {
      NegativeDisplayIsRightIff(-value, text, decimals);
    }
  }

  lemma {:induction false} NegativeDisplayIsRightIff(n: nat, text: string, decimals: nat)
    requires decimals > 0 && n > 0 && Prints(0 - n, decimals, text)
    ensures ReadsAs(text, decimals, Some(0 - n)) <==> n >= Pow10(decimals)
  {
    PrintsRendering(0 - n, decimals, text);
    assert IntText(0 - n) == "-" + Numeral(n);
    NegativeIsRightIff(n, text, decimals);
  }

  lemma {:induction false} NegativeIsRightIff(n: nat, text: string, decimals: nat)
    requires decimals > 0 && n > 0 && text == Render("-" + Numeral(n), decimals)
    ensures ReadsAs(text, decimals, Some(0 - n)) <==> n >= Pow10(decimals)
  {
    if n >= Pow10(decimals) {
      LargeNegativeIsSigned(n, decimals);
    } else {
      SmallNegativeIsUnreadable(n, decimals);
      if ReadsAs(text, decimals, Some(0 - n)) {
        ReadsOnce(text, decimals, Some(0 - n), None);
      }
    }
  }

  // For example, five satoshi owed.
  lemma {:induction false} DisplayOfADebt()
    ensures FormatAtomic("-5", Decimals(Bitcoin)) == "0.000000-5" && ReadsAs("0.000000-5", Decimals(Bitcoin), None)
  {
    DebtIsInteger();
    RenderedDebt();
    DebtIsUnreadable();
  }

  lemma {:induction false} DebtIsInteger()
    ensures ParseInt("-5") == Some(-5)
  {
    assert Value("5") == 5 by { assert "5"[..0] == ""; }
  }

  lemma {:induction false} DebtIsUnreadable()
    ensures ReadsAs("0.000000-5", 8, None)
  {
    assert Joined("0", "000000-5") == "0.000000-5";
    SignInFractionIsUnreadable("000000-5", 6, 8);
  }

  lemma {:induction false} RenderedDebt()
    ensures Render("-5", 8) == "0.000000-5"
  {
    assert Zeros(7) == "0000000";
    assert Padded("-5", 8) == "0000000-5";
    assert "0000000-5"[..1] == "0" && "0000000-5"[1..] == "000000-5";
  }

  // How many of a chain's smallest units make one coin.
  function UnitsPerCoin(chain: Chain): nat {
    match chain
    case Bitcoin => 100_000_000
    case Ethereum => 1_000_000_000_000_000_000
    case Arbitrum => 1_000_000_000_000_000_000
    case BSC => 1_000_000_000_000_000_000
    case Solana => 1_000_000_000
    case Tron => 1_000_000
  }

  lemma {:induction false} CoinIsPower(chain: Chain)
    ensures UnitsPerCoin(chain) == Pow10(Decimals(chain)) && Decimals(chain) > 0
  {
    assert Pow10(6) == 1_000_000;
    assert Pow10(9) == 1_000 * Pow10(6);
    assert Pow10(12) == 1_000 * Pow10(9);
    assert Pow10(15) == 1_000 * Pow10(12);
    assert Pow10(18) == 1_000 * Pow10(15);
  }

  // One coin is displayed as one.
  lemma {:induction false} OneCoinIsOne(chain: Chain)
    ensures Prints(UnitsPerCoin(chain), Decimals(chain), "1")
  {
    CoinIsPower(chain);
    OneIsPower(Decimals(chain));
    DisplayIff(UnitsPerCoin(chain), Decimals(chain), "1");
  }

  lemma {:induction false} OneIsPower(decimals: nat)
    ensures Canonical("1", decimals) && Unsigned("1", decimals) == Some(Pow10(decimals))
  {
    assert AllDigits("1") && Value("1") == 1 by { assert "1"[..0] == ""; }
    assert PointAt("1") == 1 && Whole("1") == "1" && Fraction("1") == "";
    ValueOfParts("1", "", decimals);
  }

  // A stored finding is positive, so its display determines the stored amount and nothing else could be displayed.
  lemma {:induction false} FindingDisplayIsExact(chain: Chain, stored: Stored, text: string)
    requires stored.atomic > 0
    ensures Prints(stored.atomic, Decimals(chain), text)
       <==> Canonical(text, Decimals(chain)) && Unsigned(text, Decimals(chain)) == Some(stored.atomic)
  {
    DisplayIff(stored.atomic, Decimals(chain), text);
  }
}
