/**
  The card and bank-account control sums, and exactly which typing errors they catch.
 */
module Checksums {
  import opened Texts

  type Digit = d: int | 0 <= d <= 9

  predicate AllDigits(s: string) { forall i :: 0 <= i < |s| ==> IsDigit(s[i]) }

  function DigitOf(c: char): Digit
    requires IsDigit(c)
  {
    c as int - '0' as int
  }

  function Digits(s: string): (d: seq<Digit>)
    requires AllDigits(s)
    ensures |d| == |s|
    ensures forall i :: 0 <= i < |s| ==> d[i] == DigitOf(s[i])
  {
    seq(|s|, i requires 0 <= i < |s| => DigitOf(s[i]))
  }

  /** A text with its spaces and hyphens removed. */
  function Strip(s: string): string {
    if s == [] then []
    else if s[0] == ' ' || s[0] == '-' then Strip(s[1..])
    else [s[0]] + Strip(s[1..])
  }

  /** Two sums with the same rest are both multiples of ten exactly when their parts differ
      by one. */
  lemma {:induction false} SameModulo(rest: int, a: int, b: int)
    requires (rest + a) % 10 == 0
    ensures (rest + b) % 10 == 0 <==> (a - b) % 10 == 0
  {
  }

  // ---- Luhn

  /** What the digit at distance `i` from the right adds: every second one is doubled. */
  function LuhnTerm(d: Digit, i: nat): Digit {
    if i % 2 == 0 then d else if 2 * d > 9 then 2 * d - 9 else 2 * d
  }

  /** The sum over `s` when `i` digits stand to its right. */
  function LuhnFrom(s: seq<Digit>, i: nat): nat
    decreases |s|
  {
    if s == [] then 0 else LuhnTerm(s[|s| - 1], i) + LuhnFrom(s[..|s| - 1], i + 1)
  }

  predicate LuhnValid(s: seq<Digit>) { LuhnFrom(s, 0) % 10 == 0 }

  lemma {:induction false} LuhnSplits(a: seq<Digit>, b: seq<Digit>, i: nat)
    ensures LuhnFrom(a + b, i) == LuhnFrom(b, i) + LuhnFrom(a, i + |b|)
    decreases |b|
  {
    if b == [] {
      assert a + b == a;
    } else {
      var n := |b| - 1;
      assert (a + b)[..|a + b| - 1] == a + b[..n] && (a + b)[|a + b| - 1] == b[n];
      LuhnSplits(a, b[..n], i + 1);
    }
  }

  lemma {:induction false} LuhnAround(a: seq<Digit>, x: Digit, b: seq<Digit>)
    ensures LuhnFrom(a + [x] + b, 0) == LuhnFrom(b, 0) + LuhnTerm(x, |b|) + LuhnFrom(a, |b| + 1)
  {
    LuhnSplits(a + [x], b, 0);
    assert (a + [x])[..|a|] == a;
  }

  function PairTerm(x: Digit, y: Digit, i: nat): int {
    (LuhnTerm(y, i) as int) + LuhnTerm(x, i + 1)
  }

  lemma {:induction false} LuhnAroundTwo(a: seq<Digit>, x: Digit, y: Digit, b: seq<Digit>)
    ensures LuhnFrom((a + [x]) + [y] + b, 0) == LuhnFrom(b, 0) + LuhnFrom(a, |b| + 2) + PairTerm(x, y, |b|)
  {
    LuhnAround(a + [x], y, b);
    LuhnSplits(a, [x], |b| + 1);
  }

  lemma {:induction false} TermsDiffer(x: Digit, y: Digit, i: nat)
    ensures ((LuhnTerm(x, i) as int) - LuhnTerm(y, i)) % 10 == 0 <==> x == y
  {
  }

  lemma {:induction false} SwappedTermsDiffer(x: Digit, y: Digit, i: nat)
    ensures (PairTerm(x, y, i) - PairTerm(y, x, i)) % 10 == 0 <==>
            x == y || (x == 0 && y == 9) || (x == 9 && y == 0)
  {
  }

  /** What each place counts, said of the sum itself: the last digit once, the one before it as the
      sum of the digits of its double, and any two digits more on the right change nothing of what
      those to their left count. */
  lemma {:induction false} LuhnPlaces(s: seq<Digit>, x: Digit, y: Digit)
    ensures LuhnFrom([], 0) == 0 && LuhnFrom([y], 0) == y
    ensures LuhnFrom(s + [x, y], 0) == LuhnFrom(s, 0) + (2 * x / 10 + 2 * x % 10) + y
  {
    LuhnAroundTwo(s, x, y, []);
    assert (s + [x]) + [y] + [] == s + [x, y];
    TwoOver(s, 0);
  }

  lemma {:induction false} TwoOver(s: seq<Digit>, i: nat)
    ensures LuhnFrom(s, i + 2) == LuhnFrom(s, i)
    decreases |s|
  {
    if s != [] {
      TwoOver(s[..|s| - 1], i + 1);
    }
  }

  /** Every change of a single digit is caught, at any place in a string of any length. */
  lemma {:induction false} LuhnCatchesSubstitution(s: seq<Digit>, p: nat, x: Digit)
    requires p < |s| && LuhnValid(s)
    ensures LuhnValid(s[p := x]) <==> x == s[p]
  {
    var a, b := s[..p], s[p + 1..];
    assert s == a + [s[p]] + b && s[p := x] == a + [x] + b;
    LuhnAround(a, s[p], b);
    LuhnAround(a, x, b);
    SameModulo(LuhnFrom(b, 0) + LuhnFrom(a, |b| + 1), LuhnTerm(s[p], |b|), LuhnTerm(x, |b|));
    TermsDiffer(s[p], x, |b|);
  }

  /** Every swap of two neighbours is caught, except of equal digits and of 0 with 9. */
  lemma {:induction false} LuhnCatchesSwap(s: seq<Digit>, p: nat)
    requires p + 1 < |s| && LuhnValid(s)
    ensures LuhnValid(s[p := s[p + 1]][p + 1 := s[p]]) <==>
            s[p] == s[p + 1] || (s[p] == 0 && s[p + 1] == 9) || (s[p] == 9 && s[p + 1] == 0)
  {
    var a, b, x, y := s[..p], s[p + 2..], s[p], s[p + 1];
    assert s == (a + [x]) + [y] + b;
    assert s[p := y][p + 1 := x] == (a + [y]) + [x] + b;
    LuhnAroundTwo(a, x, y, b);
    LuhnAroundTwo(a, y, x, b);
    SameModulo(LuhnFrom(b, 0) + LuhnFrom(a, |b| + 2), PairTerm(x, y, |b|), PairTerm(y, x, |b|));
    SwappedTermsDiffer(x, y, |b|);
  }

  /** Grouping removed, 13 to 19 digits, and a sum that is a multiple of ten. */
  predicate LuhnAccepts(s: string) {
    AllDigits(Strip(s)) && 13 <= |Strip(s)| <= 19 && LuhnValid(Digits(Strip(s)))
  }

  /** The card check as the code runs it, right to left. */
  method LuhnOk(s: string) returns (ok: bool)
    ensures ok <==> LuhnAccepts(s)
  {
    var text := Strip(s);
    if !AllDigits(text) || !(13 <= |text| <= 19) {
      return false;
    }
    var digits := Digits(text);
    var total := 0;
    assert digits[..|digits|] == digits;
    for i := 0 to |digits|
      invariant total + LuhnFrom(digits[..|digits| - i], i) == LuhnFrom(digits, 0)
    {
      var rest := digits[..|digits| - i];
      assert rest[..|rest| - 1] == digits[..|digits| - (i + 1)];
      var d: int := digits[|digits| - 1 - i];
      if i % 2 == 1 {
        d := d * 2;
        if d > 9 {
          d := d - 9;
        }
      }
      total := total + d;
    }
    return total % 10 == 0;
  }

  // ---- the bank account key

  function Weight(i: nat): int {
    if i % 3 == 0 then 7 else if i % 3 == 1 then 1 else 3
  }

  /** The weighted sum of `s` when `i` digits stand to its left. */
  function KeyFrom(s: seq<Digit>, i: nat): nat
    decreases |s|
  {
    if s == [] then 0 else Weight(i) * s[0] + KeyFrom(s[1..], i + 1)
  }

  predicate KeyValid(s: seq<Digit>) { KeyFrom(s, 0) % 10 == 0 }

  lemma {:induction false} KeySplits(a: seq<Digit>, b: seq<Digit>, i: nat)
    ensures KeyFrom(a + b, i) == KeyFrom(a, i) + KeyFrom(b, i + |a|)
    decreases |a|
  {
    if a == [] {
      assert a + b == b;
    } else {
      assert (a + b)[0] == a[0] && (a + b)[1..] == a[1..] + b;
      KeySplits(a[1..], b, i + 1);
    }
  }

  lemma {:induction false} KeyAround(a: seq<Digit>, x: Digit, b: seq<Digit>)
    ensures KeyFrom(a + ([x] + b), 0) == KeyFrom(a, 0) + Weight(|a|) * x + KeyFrom(b, |a| + 1)
  {
    KeySplits(a, [x] + b, 0);
    assert ([x] + b)[1..] == b;
  }

  /** What each place counts: the first digit seven times, the next once, the next three times, and
      so on from there. */
  lemma {:induction false} KeyPlaces(s: seq<Digit>, x: Digit, y: Digit, z: Digit)
    ensures KeyFrom([], 0) == 0 && KeyFrom([x], 0) == 7 * x && KeyFrom([x, y], 0) == 7 * x + y
    ensures KeyFrom([x, y, z] + s, 0) == 7 * x + y + 3 * z + KeyFrom(s, 0)
  {
    KeyAround([], x, [y]);
    assert [] + ([x] + [y]) == [x, y];
    KeyAround([x, y], z, s);
    assert [x, y] + ([z] + s) == [x, y, z] + s;
    ThreeOver(s, 0);
  }

  lemma {:induction false} ThreeOver(s: seq<Digit>, i: nat)
    ensures KeyFrom(s, i + 3) == KeyFrom(s, i)
    decreases |s|
  {
    if s != [] {
      ThreeOver(s[1..], i + 1);
      assert Weight(i + 3) == Weight(i);
    }
  }

  lemma {:induction false} WeightedDiffer(x: int, y: int, i: nat)
    requires 0 <= x <= 9 && 0 <= y <= 9
    ensures (Weight(i) * x - Weight(i) * y) % 10 == 0 <==> x == y
  {
    assert Weight(i) == 7 || Weight(i) == 1 || Weight(i) == 3;
  }

  lemma {:induction false} SwappedWeightedDiffer(x: int, y: int, i: nat)
    requires 0 <= x <= 9 && 0 <= y <= 9
    ensures (Weight(i) * x + Weight(i + 1) * y - Weight(i) * y - Weight(i + 1) * x) % 10 == 0 <==> FiveApart(x, y)
  {
    if i % 3 == 0 {
      assert Weight(i) == 7 && Weight(i + 1) == 1;
    } else if i % 3 == 1 {
      assert Weight(i) == 1 && Weight(i + 1) == 3;
    } else {
      assert Weight(i) == 3 && Weight(i + 1) == 7;
    }
  }

  predicate FiveApart(x: int, y: int) { x == y || x - y == 5 || y - x == 5 }

  /** Every change of a single digit is caught. */
  lemma {:induction false} KeyCatchesSubstitution(s: seq<Digit>, p: nat, x: Digit)
    requires p < |s| && KeyValid(s)
    ensures KeyValid(s[p := x]) <==> x == s[p]
  {
    var a, b := s[..p], s[p + 1..];
    assert s == a + ([s[p]] + b) && s[p := x] == a + ([x] + b);
    KeyAround(a, s[p], b);
    KeyAround(a, x, b);
    SameModulo(KeyFrom(a, 0) + KeyFrom(b, p + 1), Weight(p) * s[p], Weight(p) * x);
    WeightedDiffer(s[p], x, p);
  }

  /** Every swap of two neighbours is caught, except of digits equal or five apart. */
  lemma {:induction false} KeyCatchesSwap(s: seq<Digit>, p: nat)
    requires p + 1 < |s| && KeyValid(s)
    ensures KeyValid(s[p := s[p + 1]][p + 1 := s[p]]) <==> FiveApart(s[p], s[p + 1])
  {
    var a, b, x, y := s[..p], s[p + 2..], s[p], s[p + 1];
    assert s == a + ([x] + ([y] + b));
    assert s[p := y][p + 1 := x] == a + ([y] + ([x] + b));
    KeyAround(a, x, [y] + b);
    KeyAround(a, y, [x] + b);
    assert ([y] + b)[1..] == b && ([x] + b)[1..] == b;
    SameModulo(KeyFrom(a, 0) + KeyFrom(b, p + 2), Weight(p) * x + Weight(p + 1) * y, Weight(p) * y + Weight(p + 1) * x);
    SwappedWeightedDiffer(x, y, p);
  }

  /** The last three characters, or all of a shorter text. */
  function LastThree(s: string): string {
    if |s| >= 3 then s[|s| - 3..] else s
  }

  method BankAccountKeyOk(account: string, bik: string) returns (ok: bool)
    ensures var combined := LastThree(bik) + account;
            ok <==> |combined| == 23 && AllDigits(combined) && KeyValid(Digits(combined))
  {
    var combined := LastThree(bik) + account;
    if |combined| != 23 || !AllDigits(combined) {
      return false;
    }
    var digits := Digits(combined);
    var total := 0;
    for i := 0 to 23
      invariant total + KeyFrom(digits[i..], i) == KeyFrom(digits, 0)
    {
      assert digits[i..][1..] == digits[i + 1..];
      total := total + Weight(i) * digits[i];
    }
    return total % 10 == 0;
  }
}
