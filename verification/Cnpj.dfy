/** CNPJ spelling and check digits. */
module Cnpj {
  import opened Base
  import Naming

  const CNPJ_LENGTH := 14

  const FIRST_WEIGHTS: seq<int> := [5, 4, 3, 2, 9, 8, 7, 6, 5, 4, 3, 2]
  const SECOND_WEIGHTS: seq<int> := [6, 5, 4, 3, 2, 9, 8, 7, 6, 5, 4, 3, 2]

  /** A CNPJ as it turns up: text, or a number that YAML made of unquoted digits. */
  datatype Spelling = Text(s: string) | Number(n: int)

  /** What counts as a decimal character; every table agrees on ASCII. */
  ghost predicate Decimals(decimal: char -> bool) {
    && (forall c :: Naming.IsDigit(c) ==> decimal(c))
    && !decimal('.') && !decimal('/') && !decimal('-')
  }

  function Keep(decimal: char -> bool, s: string): (r: string)
    ensures forall c :: c in r ==> decimal(c)
  {
    if s == "" then "" else Keep(decimal, s[..|s| - 1]) + (if decimal(s[|s| - 1]) then [s[|s| - 1]] else "")
  }

  function ZeroFill(digits: string): (r: string)
    ensures |r| == if |digits| < CNPJ_LENGTH then CNPJ_LENGTH else |digits|
    ensures forall c :: c in r ==> c == '0' || c in digits
    decreases CNPJ_LENGTH - |digits|
  {
    if |digits| < CNPJ_LENGTH then ZeroFill("0" + digits) else digits
  }

  function Raw(value: Spelling): string {
    match value
    case Text(s) => s
    case Number(n) => Naming.IntText(n)
  }

  function Normalize(decimal: char -> bool, value: Option<Spelling>): (r: Option<string>)
    ensures r.Some? ==> |r.value| == CNPJ_LENGTH && forall c :: c in r.value ==> c == '0' || decimal(c)
  {
    if value.None? then None
    else
      var digits := Keep(decimal, Raw(value.value));
      if digits == "" || |ZeroFill(digits)| != CNPJ_LENGTH then None else Some(ZeroFill(digits))
  }

  function FormatMasked(decimal: char -> bool, value: Option<Spelling>): Option<string> {
    match Normalize(decimal, value)
    case None => None
    case Some(d) => Some(d[..2] + "." + d[2..5] + "." + d[5..8] + "/" + d[8..12] + "-" + d[12..])
  }

  predicate Same(decimal: char -> bool, left: Option<Spelling>, right: Option<Spelling>) {
    Normalize(decimal, left).Some? && Normalize(decimal, left) == Normalize(decimal, right)
  }

  lemma {:induction false} KeepConcat(decimal: char -> bool, a: string, b: string)
    ensures Keep(decimal, a + b) == Keep(decimal, a) + Keep(decimal, b)
  {
    if b == "" {
      assert a + b == a;
    } else {
      KeepConcat(decimal, a, b[..|b| - 1]);
      assert (a + b)[..|a + b| - 1] == a + b[..|b| - 1];
    }
  }

  lemma {:induction false} KeepAll(decimal: char -> bool, s: string)
    requires AllDecimal(decimal, s)
    ensures Keep(decimal, s) == s
  {
    if s != "" {
      KeepAll(decimal, s[..|s| - 1]);
      assert s == s[..|s| - 1] + [s[|s| - 1]];
    }
  }

  lemma KeepSeparator(decimal: char -> bool, c: char)
    requires !decimal(c)
    ensures Keep(decimal, [c]) == ""
  {
    assert [c][..0] == "";
  }

  /** Masking is only a spelling: it never changes which CNPJ is meant. */
  lemma MaskRoundTrip(decimal: char -> bool, value: Option<Spelling>)
    requires Decimals(decimal)
    ensures FormatMasked(decimal, value).Some? <==> Normalize(decimal, value).Some?
    ensures FormatMasked(decimal, value).Some? ==>
      Normalize(decimal, Some(Text(FormatMasked(decimal, value).value))) == Normalize(decimal, value)
    ensures Normalize(decimal, value).Some? ==> Same(decimal, value, Some(Text(FormatMasked(decimal, value).value)))
  {
    if Normalize(decimal, value).Some? {
      var d := Normalize(decimal, value).value;
      forall k | 0 <= k < |d| ensures decimal(d[k]) {
        assert d[k] == '0' || d[k] in Keep(decimal, Raw(value.value));
      }
      MaskKeepsDigits(decimal, d);
    }
  }

  predicate AllDecimal(decimal: char -> bool, s: string) {
    forall k :: 0 <= k < |s| ==> decimal(s[k])
  }

  lemma MaskKeepsDigits(decimal: char -> bool, d: string)
    requires Decimals(decimal) && |d| == CNPJ_LENGTH && AllDecimal(decimal, d)
    ensures Keep(decimal, d[..2] + "." + d[2..5] + "." + d[5..8] + "/" + d[8..12] + "-" + d[12..]) == d
  {
    hide Keep;
    KeepFirst(decimal, d);
    var m1 := d[..2] + "." + d[2..5];
    var m2 := m1 + "." + d[5..8];
    var m3 := m2 + "/" + d[8..12];
    Joined(decimal, d, d[..2], 2, '.', 5);
    Joined(decimal, d, m1, 5, '.', 8);
    Joined(decimal, d, m2, 8, '/', 12);
    Joined(decimal, d, m3, 12, '-', 14);
    assert d[12..14] == d[12..] && d[..14] == d;
  }

  lemma KeepFirst(decimal: char -> bool, d: string)
    requires |d| == CNPJ_LENGTH && AllDecimal(decimal, d)
    ensures Keep(decimal, d[..2]) == d[..2]
  {
    KeepAll(decimal, d[..2]);
  }

  lemma KeepSlice(decimal: char -> bool, d: string, from: nat, to: nat)
    requires from <= to <= |d| && AllDecimal(decimal, d)
    ensures Keep(decimal, d[from..to]) == d[from..to]
  {
    KeepAll(decimal, d[from..to]);
  }

  /** One more separator and one more group of digits: only the digits are kept. */
  lemma Joined(decimal: char -> bool, d: string, masked: string, from: nat, separator: char, to: nat)
    requires from <= to <= |d| && AllDecimal(decimal, d) && !decimal(separator)
    requires Keep(decimal, masked) == d[..from]
    ensures Keep(decimal, masked + [separator] + d[from..to]) == d[..to]
  {
    hide Keep;
    KeepConcat(decimal, masked + [separator], d[from..to]);
    KeepConcat(decimal, masked, [separator]);
    KeepSeparator(decimal, separator);
    KeepSlice(decimal, d, from, to);
    assert d[..from] + "" == d[..from];
    assert d[..from] + d[from..to] == d[..to];
  }

  // -------------------------------------------------------------- check digits

  ghost predicate DigitSeq(ds: seq<int>) {
    |ds| == CNPJ_LENGTH && forall k :: 0 <= k < |ds| ==> 0 <= ds[k] <= 9
  }

  function Weighted(ds: seq<int>, ws: seq<int>): int
    requires |ds| == |ws|
  {
    if ds == [] then 0
    else Weighted(ds[..|ds| - 1], ws[..|ws| - 1]) + ds[|ds| - 1] * ws[|ws| - 1]
  }

  function CheckDigit(total: int): (digit: int)
    ensures 0 <= digit <= 9
  {
    if total % 11 < 2 then 0 else 11 - total % 11
  }

  predicate Repunit(ds: seq<int>) {
    forall k :: 0 <= k < |ds| ==> ds[k] == ds[0]
  }

  function FirstSum(ds: seq<int>): int
    requires |ds| == CNPJ_LENGTH
  {
    Weighted(ds[..12], FIRST_WEIGHTS)
  }

  /** The second digit is computed over the base and the first digit *computed*. */
  function SecondSum(ds: seq<int>): int
    requires |ds| == CNPJ_LENGTH
  {
    Weighted(ds[..12] + [CheckDigit(FirstSum(ds))], SECOND_WEIGHTS)
  }

  /** The arithmetic of the two check digits, on digits as numbers. */
  predicate ChecksOut(ds: seq<int>)
    requires |ds| == CNPJ_LENGTH
  {
    && !Repunit(ds)
    && ds[12] == CheckDigit(FirstSum(ds))
    && ds[13] == CheckDigit(SecondSum(ds))
  }

  lemma {:induction false} WeightedChange(ds: seq<int>, ws: seq<int>, i: nat, d: int)
    requires |ds| == |ws| && i < |ds|
    ensures Weighted(ds[i := d], ws) == Weighted(ds, ws) + ws[i] * (d - ds[i])
  {
    var n := |ds| - 1;
    if i == n {
      assert ds[i := d][..n] == ds[..n];
      assert d * ws[n] == ds[n] * ws[n] + ws[n] * (d - ds[n]);
    } else {
      assert ds[i := d][..n] == ds[..n][i := d];
      WeightedChange(ds[..n], ws[..n], i, d);
    }
  }

  /** Two equal check digits after changing one position: the arithmetic core. */
  lemma EqualDigits(total: int, w: int, delta: int)
    requires 1 <= w <= 10 && delta != 0 && -9 <= delta <= 9
    requires CheckDigit(total) == CheckDigit(total + w * delta)
    ensures total % 11 < 2 && (total + w * delta) % 11 < 2
  {
    NoMultiple(w, delta);
    SameRemainder(total, w * delta);
  }

  lemma NoMultiple(w: int, delta: int)
    requires 1 <= w <= 10 && delta != 0 && -9 <= delta <= 9
    ensures (w * delta) % 11 != 0
  {
    if w == 1 { } else if w == 2 { } else if w == 3 { } else if w == 4 { } else if w == 5 { }
    else if w == 6 { } else if w == 7 { } else if w == 8 { } else if w == 9 { } else { assert w == 10; }
  }

  lemma SameRemainder(total: int, change: int)
    requires change % 11 != 0
    ensures total % 11 != (total + change) % 11
  {
  }

  lemma ModularFactor(k: int, delta: int)
    requires delta != 0 && -9 <= delta <= 9 && (k * delta) % 11 == 0
    ensures k % 11 == 0
  {
    var q, r := k / 11, k % 11;
    assert k * delta == 11 * (q * delta) + r * delta;
    assert (r * delta) % 11 == 0;
    if r != 0 {
      NoMultiple(r, delta);
    }
  }

  /** Both changes can be +-1 modulo 11 only when the weights are equal or opposite modulo 11. */
  lemma OppositeWeights(w1: int, w2: int, delta: int)
    requires delta != 0 && -9 <= delta <= 9
    requires (w1 * delta) % 11 in {1, 10} && (w2 * delta) % 11 in {1, 10}
    ensures (w1 + w2) % 11 == 0 || (w1 - w2) % 11 == 0
  {
    UnitRemainders(w1 * delta, w2 * delta);
    Distribute(w1, w2, delta);
    if ((w1 + w2) * delta) % 11 == 0 {
      ModularFactor(w1 + w2, delta);
    } else {
      ModularFactor(w1 - w2, delta);
    }
  }

  lemma UnitRemainders(u: int, v: int)
    requires u % 11 in {1, 10} && v % 11 in {1, 10}
    ensures (u + v) % 11 == 0 || (u - v) % 11 == 0
  {
    if u % 11 == v % 11 {
      ElevenTimes(u / 11 - v / 11);
      assert u - v == 11 * (u / 11 - v / 11);
    } else {
      ElevenTimes(u / 11 + v / 11 + 1);
      assert u + v == 11 * (u / 11 + v / 11 + 1);
    }
  }

  lemma ElevenTimes(k: int)
    ensures (11 * k) % 11 == 0
  {
  }

  lemma Distribute(a: int, b: int, c: int)
    ensures (a + b) * c == a * c + b * c && (a - b) * c == a * c - b * c
  {
  }

  lemma NearZero(s: int, change: int)
    requires s % 11 < 2 && (s + change) % 11 < 2 && change % 11 != 0
    ensures change % 11 in {1, 10}
  {
  }

  predicate BlindSpot(i: nat) { i == 0 || i == 4 || i == 8 }

  /** The weights of one position add up to 11 exactly at the three blind spots. */
  lemma WeightTable(i: nat)
    requires i < 12
    ensures 1 <= FIRST_WEIGHTS[i] <= 9 && 1 <= SECOND_WEIGHTS[i] <= 9
    ensures (FIRST_WEIGHTS[i] - SECOND_WEIGHTS[i]) % 11 != 0
    ensures (FIRST_WEIGHTS[i] + SECOND_WEIGHTS[i]) % 11 == 0 <==> BlindSpot(i)
  {
    if i < 6 { } else { assert 6 <= i < 12; }
  }

  /** How the two sums move when one base digit changes and the first check digit does not. */
  lemma SumsMove(x: seq<int>, i: nat, d: int)
    requires |x| == CNPJ_LENGTH && i < 12
    ensures FirstSum(x[i := d]) == FirstSum(x) + FIRST_WEIGHTS[i] * (d - x[i])
    ensures CheckDigit(FirstSum(x[i := d])) == CheckDigit(FirstSum(x)) ==>
              SecondSum(x[i := d]) == SecondSum(x) + SECOND_WEIGHTS[i] * (d - x[i])
  {
    var y := x[i := d];
    assert y[..12] == x[..12][i := d];
    WeightedChange(x[..12], FIRST_WEIGHTS, i, d);
    var first := CheckDigit(FirstSum(x));
    assert (x[..12] + [first])[i := d] == x[..12][i := d] + [first];
    WeightedChange(x[..12] + [first], SECOND_WEIGHTS, i, d);
  }

  lemma CheckDigitsUntouched(x: seq<int>, i: nat, d: int)
    requires |x| == CNPJ_LENGTH && 12 <= i < 14
    ensures FirstSum(x[i := d]) == FirstSum(x) && SecondSum(x[i := d]) == SecondSum(x)
  {
    assert x[i := d][..12] == x[..12];
  }

  /** The four remainders a typo must leave below 2 to go unnoticed. */
  predicate RemaindersLow(x: seq<int>, y: seq<int>)
    requires |x| == |y| == CNPJ_LENGTH
  {
    FirstSum(x) % 11 < 2 && FirstSum(y) % 11 < 2 && SecondSum(x) % 11 < 2 && SecondSum(y) % 11 < 2
  }

  /**
   Single-digit typos: replacing one digit of a valid CNPJ by another gives a valid
   one exactly when a base digit changed, all four mod-11 remainders are 0 or 1 and
   the result is not a repunit -- and that can only happen at index 0, 4 or 8.
   */
  lemma SingleDigitTypo(x: seq<int>, i: nat, d: int)
    requires DigitSeq(x) && ChecksOut(x)
    requires i < CNPJ_LENGTH && 0 <= d <= 9 && d != x[i]
    ensures ChecksOut(x[i := d]) <==> i < 12 && RemaindersLow(x, x[i := d]) && !Repunit(x[i := d])
    ensures ChecksOut(x[i := d]) ==> BlindSpot(i)
  {
    var y := x[i := d];
    if i >= 12 {
      CheckDigitsUntouched(x, i, d);
    } else {
      SumsMove(x, i, d);
      WeightTable(i);
      assert y[12] == x[12] && y[13] == x[13];
      if ChecksOut(y) {
        TypoIsInBlindSpot(x, i, d);
      }
    }
  }

  lemma TypoIsInBlindSpot(x: seq<int>, i: nat, d: int)
    requires DigitSeq(x) && i < 12 && 0 <= d <= 9 && d != x[i]
    requires CheckDigit(FirstSum(x[i := d])) == CheckDigit(FirstSum(x))
    requires CheckDigit(SecondSum(x[i := d])) == CheckDigit(SecondSum(x))
    ensures RemaindersLow(x, x[i := d]) && BlindSpot(i)
  {
    hide FirstSum, SecondSum, CheckDigit, Repunit, ChecksOut, Weighted;
    var delta, w1, w2 := d - x[i], FIRST_WEIGHTS[i], SECOND_WEIGHTS[i];
    SumsMove(x, i, d);
    WeightTable(i);
    EqualDigits(FirstSum(x), w1, delta);
    EqualDigits(SecondSum(x), w2, delta);
    NoMultiple(w1, delta);
    NoMultiple(w2, delta);
    NearZero(FirstSum(x), w1 * delta);
    NearZero(SecondSum(x), w2 * delta);
    OppositeWeights(w1, w2, delta);
  }

  // --------------------------------------------------------- validity, as text

  predicate AllDigits(text: string) {
    forall k :: 0 <= k < |text| ==> Naming.IsDigit(text[k])
  }

  function DigitsOf(text: string): (ds: seq<int>)
    requires AllDigits(text)
    ensures |ds| == |text| && forall k :: 0 <= k < |ds| ==> ds[k] == Naming.DigitValue(text[k])
  {
    seq(|text|, k requires 0 <= k < |text| => Naming.DigitValue(text[k]))
  }

  /** `is_valid` on a spelling in ASCII digits: normalise, refuse repunits, compare the last two characters. */
  predicate IsValid(value: Option<Spelling>) {
    var digits := Normalize(Naming.IsDigit, value);
    && digits.Some?
    && !(forall k :: 0 <= k < CNPJ_LENGTH ==> digits.value[k] == digits.value[0])
    && var ds := DigitsOf(digits.value);
       digits.value[12..] == [Naming.Digit(CheckDigit(FirstSum(ds))), Naming.Digit(CheckDigit(SecondSum(ds)))]
  }

  lemma ValidText(text: string)
    requires |text| == CNPJ_LENGTH && AllDigits(text)
    ensures Normalize(Naming.IsDigit, Some(Text(text))) == Some(text)
    ensures IsValid(Some(Text(text))) <==> ChecksOut(DigitsOf(text))
  {
    hide FirstSum, SecondSum, CheckDigit;
    KeepAll(Naming.IsDigit, text);
    var ds := DigitsOf(text);
    var first, second := CheckDigit(FirstSum(ds)), CheckDigit(SecondSum(ds));
    assert text[12..] == [text[12], text[13]];
    SameDigit(text[12], first);
    SameDigit(text[13], second);
    assert forall k :: 0 <= k < CNPJ_LENGTH ==> (text[k] == text[0] <==> ds[k] == ds[0]) by {
      forall k | 0 <= k < CNPJ_LENGTH ensures text[k] == text[0] <==> ds[k] == ds[0] {
        SameDigit(text[k], ds[0]);
        SameDigit(text[0], ds[0]);
      }
    }
  }

  lemma SameDigit(c: char, n: int)
    requires Naming.IsDigit(c) && 0 <= n <= 9
    ensures c == Naming.Digit(n) <==> Naming.DigitValue(c) == n
  {
  }

  /**
   Typos in what a human types: two CNPJs in ASCII digits that differ in one place are
   both valid only if that place is index 0, 4 or 8 and both remainders are 0 or 1 --
   and that, short of a repunit, is all it takes.
   */
  lemma TypoInText(x: string, y: string, i: nat)
    requires |x| == |y| == CNPJ_LENGTH && AllDigits(x) && AllDigits(y) && i < CNPJ_LENGTH
    requires x[i] != y[i] && forall k :: 0 <= k < CNPJ_LENGTH && k != i ==> x[k] == y[k]
    requires IsValid(Some(Text(x)))
    ensures IsValid(Some(Text(y))) ==> BlindSpot(i)
    ensures IsValid(Some(Text(y))) <==>
      i < 12 && RemaindersLow(DigitsOf(x), DigitsOf(y)) && !Repunit(DigitsOf(y))
  {
    hide ChecksOut, IsValid, RemaindersLow, Repunit;
    ValidText(x);
    ValidText(y);
    var d := Naming.DigitValue(y[i]);
    SameDigit(x[i], d);
    SameDigit(y[i], d);
    assert DigitsOf(y) == DigitsOf(x)[i := d];
    SingleDigitTypo(DigitsOf(x), i, d);
  }

  lemma {:induction false} WeightedZeros(n: nat, ws: seq<int>)
    requires |ws| == n
    ensures Weighted(seq(n, _ => 0), ws) == 0
  {
    if n > 0 {
      assert seq(n, _ => 0)[..n - 1] == seq(n - 1, _ => 0);
      WeightedZeros(n - 1, ws[..n - 1]);
    }
  }

  /** All three blind spots are real: one CNPJ, and at each of them a second valid one. */
  lemma EveryBlindSpotIsReal(i: nat) returns (x: seq<int>, d: int)
    requires BlindSpot(i)
    ensures DigitSeq(x) && ChecksOut(x) && 0 <= d <= 9 && d != x[i] && ChecksOut(x[i := d])
  {
    x, d := [0, 0, 0, 0, 0, 0, 0, 0, 0, 0, 3, 7, 0, 0], if i == 4 then 6 else 2;
    hide Weighted, CheckDigit;
    ThirtySeven(x);
    SumsMove(x, i, d);
    assert CheckDigit(23) == 0 && CheckDigit(33) == 0 && CheckDigit(45) == 0 && CheckDigit(77) == 0 by {
      CheckDigitsOfExample();
    }
    assert x[10] != x[12] && x[i := d][10] != x[i := d][12];
    SingleDigitTypo(x, i, d);
  }

  lemma CheckDigitsOfExample()
    ensures CheckDigit(23) == 0 && CheckDigit(33) == 0 && CheckDigit(45) == 0 && CheckDigit(77) == 0
  {
  }

  lemma ThirtySeven(x: seq<int>)
    requires x == [0, 0, 0, 0, 0, 0, 0, 0, 0, 0, 3, 7, 0, 0]
    ensures FirstSum(x) == 23 && SecondSum(x) == 33
  {
    hide Weighted;
    var zeros := seq(12, _ => 0);
    WeightedZeros(12, FIRST_WEIGHTS);
    WeightedChange(zeros, FIRST_WEIGHTS, 10, 3);
    WeightedChange(zeros[10 := 3], FIRST_WEIGHTS, 11, 7);
    assert x[..12] == zeros[10 := 3][11 := 7];
    CheckDigitsOfExample();
    var more := seq(13, _ => 0);
    WeightedZeros(13, SECOND_WEIGHTS);
    WeightedChange(more, SECOND_WEIGHTS, 10, 3);
    WeightedChange(more[10 := 3], SECOND_WEIGHTS, 11, 7);
    assert x[..12] + [0] == more[10 := 3][11 := 7];
  }
}
