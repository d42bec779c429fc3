/** Sequence numbers as the client compares them: decimal strings, whose order is that of the numbers they print. */
module SequenceNumbers {

  function Pow10(n: nat): (p: nat)
    ensures p > 0
  {
    if n == 0 then 1 else 10 * Pow10(n - 1)
  }

  lemma MoreTimes(x: nat, y: nat, p: nat)
    requires x > y
    ensures x * p >= y * p + p
  {
    assert x * p == y * p + (x - y) * p;
    assert (x - y) * p == p + (x - y - 1) * p;
  }

  lemma LessTimes(x: nat, y: nat, p: nat)
    requires x < y
    ensures x * p + p <= y * p
  {
    MoreTimes(y, x, p);
  }

  lemma TenTimes(x: nat, p: nat)
    ensures x * (10 * p) == 10 * (x * p)
  {
  }

  predicate IsDigit(c: char) {
    '0' <= c <= '9'
  }

  function DigitOf(c: char): (d: nat)
    requires IsDigit(c)
    ensures d < 10
  {
    (c - '0') as int
  }

  predicate IsDigits(s: string) {
    s != "" && forall i :: 0 <= i < |s| ==> IsDigit(s[i])
  }

  /** The number that digits print. */
  function Num(s: string): (v: nat)
    requires forall i :: 0 <= i < |s| ==> IsDigit(s[i])
    ensures v < Pow10(|s|)
  {
    if s == "" then 0
    else
      LessTimes(DigitOf(s[0]), 10, Pow10(|s| - 1));
      DigitOf(s[0]) * Pow10(|s| - 1) + Num(s[1..])
  }

  /** White space and line ends, as the client's language has them. */
  predicate IsBlank(c: char) {
    var n := c as int;
    || 9 <= n <= 13 || n == 32 || n == 0xa0 || n == 0x1680 || 0x2000 <= n <= 0x200a || n == 0x2028 || n == 0x2029
    || n == 0x202f || n == 0x205f || n == 0x3000 || n == 0xfeff
  }

  predicate AllBlank(s: string) {
    forall i :: 0 <= i < |s| ==> IsBlank(s[i])
  }

  function Trimmed(s: string): string {
    if s == "" then s
    else if IsBlank(s[0]) then Trimmed(s[1..])
    else if IsBlank(s[|s| - 1]) then Trimmed(s[..|s| - 1])
    else s
  }

  /** Digits with blanks before and after them count as what they print, and anything else as nought. */
  function Value(s: string): nat {
    if IsDigits(Trimmed(s)) then Num(Trimmed(s)) else 0
  }

  lemma {:induction false} BlanksDoNotCount(before: string, digits: string, after: string)
    requires AllBlank(before) && IsDigits(digits) && AllBlank(after)
    ensures Trimmed(before + digits + after) == digits && Value(before + digits + after) == Num(digits)
    decreases |before| + |after|
  {
    var s := before + digits + after;
    if before != "" {
      assert s[1..] == before[1..] + digits + after;
      BlanksDoNotCount(before[1..], digits, after);
    } else if after != "" {
      assert s[0] == digits[0] && s[..|s| - 1] == before + digits + after[..|after| - 1];
      BlanksDoNotCount(before, digits, after[..|after| - 1]);
    } else {
      assert s == digits;
    }
  }

  // ----- Normal form -----

  function Stripped(s: string): (r: string)
    requires IsDigits(s)
    ensures IsDigits(r) && Num(r) == Num(s)
    ensures |r| == 1 || r[0] != '0'
  {
    if |s| > 1 && s[0] == '0' then Stripped(s[1..]) else s
  }

  function NormalizeSeq(s: string): (r: string)
    ensures IsDigits(r) && Num(r) == Value(s)
    ensures |r| == 1 || r[0] != '0'
  {
    if !IsDigits(Trimmed(s)) then "0" else Stripped(Trimmed(s))
  }

  /** Strings of one length are ordered by their first difference. */
  predicate Greater(a: string, b: string)
    requires |a| == |b|
  {
    a != "" && (a[0] > b[0] || (a[0] == b[0] && Greater(a[1..], b[1..])))
  }

  function CompareSeq(left: string, right: string): int {
    var (a, b) := (NormalizeSeq(left), NormalizeSeq(right));
    if |a| != |b| then (if |a| > |b| then 1 else -1)
    else if a == b then 0
    else if Greater(a, b) then 1 else -1
  }

  // ----- The order is numeric -----

  lemma {:induction false} Pow10Grows(m: nat, n: nat)
    requires m <= n
    ensures Pow10(m) <= Pow10(n)
    decreases n
  {
    if m < n {
      Pow10Grows(m, n - 1);
    }
  }

  lemma NumFirst(s: string)
    requires IsDigits(s)
    ensures Num(s) == DigitOf(s[0]) * Pow10(|s| - 1) + Num(s[1..])
  {
  }

  lemma LeadingDigit(d: nat, p: nat, rest: nat, less: nat)
    requires d > 0 && less < p
    ensures d * p + rest > less
  {
    MoreTimes(d, 0, p);
  }

  /** Of numbers without idle zeros, the longer is the greater. */
  lemma LongerIsGreater(a: string, b: string)
    requires IsDigits(a) && IsDigits(b) && |a| > |b| && a[0] != '0'
    ensures Num(a) > Num(b)
  {
    hide Num, Pow10;
    Pow10Grows(|b|, |a| - 1);
    NumFirst(a);
    LeadingDigit(DigitOf(a[0]), Pow10(|a| - 1), Num(a[1..]), Num(b));
  }

  lemma {:induction false} GreaterIsGreater(a: string, b: string)
    requires |a| == |b| && (forall i :: 0 <= i < |a| ==> IsDigit(a[i]) && IsDigit(b[i]))
    ensures Greater(a, b) <==> Num(a) > Num(b)
    ensures a == b <==> Num(a) == Num(b)
  {
    if a != "" {
      var p := Pow10(|a| - 1);
      GreaterIsGreater(a[1..], b[1..]);
      assert a == [a[0]] + a[1..] && b == [b[0]] + b[1..];
      assert Num(a) == DigitOf(a[0]) * p + Num(a[1..]) && Num(b) == DigitOf(b[0]) * p + Num(b[1..]);
      hide Pow10, Num;
      if a[0] > b[0] {
        MoreTimes(DigitOf(a[0]), DigitOf(b[0]), p);
      } else if a[0] < b[0] {
        MoreTimes(DigitOf(b[0]), DigitOf(a[0]), p);
      }
    }
  }

  /** Comparing two strings compares their values, whatever zeros they begin with and whatever blanks are around them. */
  lemma CompareIsNumeric(left: string, right: string)
    ensures CompareSeq(left, right) == if Value(left) > Value(right) then 1 else if Value(left) == Value(right) then 0 else -1
  {
    var a, b := NormalizeSeq(left), NormalizeSeq(right);
    if |a| > |b| {
      LongerIsGreater(a, b);
    } else if |a| < |b| {
      LongerIsGreater(b, a);
    } else {
      GreaterIsGreater(a, b);
    }
  }

  // ----- Numbers as the publisher prints them -----

  function Digit(d: nat): (c: char)
    requires d < 10
    ensures IsDigit(c) && DigitOf(c) == d
  {
    '0' + d as char
  }

  function Decimal(n: nat): (s: string)
    ensures IsDigits(s)
  {
    if n < 10 then [Digit(n)] else Decimal(n / 10) + [Digit(n % 10)]
  }

  lemma {:induction false} NumAppend(s: string, c: char)
    requires (forall i :: 0 <= i < |s| ==> IsDigit(s[i])) && IsDigit(c)
    ensures Num(s + [c]) == 10 * Num(s) + DigitOf(c)
  {
    if s == "" {
      assert s + [c] == [c] && [c][1..] == "";
    } else {
      assert (s + [c])[1..] == s[1..] + [c];
      NumAppend(s[1..], c);
      var (p, d) := (Pow10(|s| - 1), DigitOf(s[0]));
      assert Pow10(|s|) == 10 * p;
      assert Num(s + [c]) == d * Pow10(|s|) + Num(s[1..] + [c]) && Num(s) == d * p + Num(s[1..]);
      hide Pow10, Num;
      TenTimes(d, p);
    }
  }

  lemma {:induction false} DecimalPrints(n: nat)
    ensures Value(Decimal(n)) == n
  {
    BlanksDoNotCount("", Decimal(n), "");
    assert "" + Decimal(n) + "" == Decimal(n);
    if n >= 10 {
      DecimalPrints(n / 10);
      BlanksDoNotCount("", Decimal(n / 10), "");
      assert "" + Decimal(n / 10) + "" == Decimal(n / 10);
      NumAppend(Decimal(n / 10), Digit(n % 10));
    } else {
      assert [Digit(n)][1..] == "";
    }
  }

  /** The client's filter passes just the deltas whose number is above the one it has. */
  lemma FilterIsNumeric(number: nat, had: nat)
    ensures CompareSeq(Decimal(number), NormalizeSeq(Decimal(had))) <= 0 <==> number <= had
  {
    DecimalPrints(number);
    DecimalPrints(had);
    BlanksDoNotCount("", NormalizeSeq(Decimal(had)), "");
    assert "" + NormalizeSeq(Decimal(had)) + "" == NormalizeSeq(Decimal(had));
    CompareIsNumeric(Decimal(number), NormalizeSeq(Decimal(had)));
  }
}
