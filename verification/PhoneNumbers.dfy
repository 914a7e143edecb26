/**
 The load test's phone numbers (k6/fixture.js): iteration and virtual user packed side by side into the
 decimal digits of one number.
 */
module PhoneNumbers {
  import opened Wrappers

  function Pow10(k: nat): (p: nat)
    ensures p >= 1
  {
    if k == 0 then 1 else 10 * Pow10(k - 1)
  }

  // ---------------------------------------------------------------- decimal strings

  predicate IsDigits(s: string) { forall k :: 0 <= k < |s| ==> '0' <= s[k] <= '9' }

  function DigitOf(d: nat): char
    requires d < 10
  {
    '0' + d as char
  }

  /** n.toString(). */
  function ToString(n: nat): (s: string)
    ensures IsDigits(s) && s != ""
  {
    if n < 10 then [DigitOf(n)] else ToString(n / 10) + [DigitOf(n % 10)]
  }

  /** parseInt(s, 10) of a string of digits. */
  function ParseInt(s: string): nat
    requires IsDigits(s)
  {
    if s == "" then 0 else 10 * ParseInt(s[..|s| - 1]) + (s[|s| - 1] - '0') as int
  }

  function Zeros(x: nat): (s: string)
    ensures |s| == x && IsDigits(s) && forall k :: 0 <= k < x ==> s[k] == '0'
  {
    seq(x, _ => '0')
  }

  /** decimalPadZeroLeft: Array(x) throws for a negative x, and s.slice(-0) is the whole of s. */
  function DecimalPadZeroLeft(n: nat, x: int): (r: Option<string>)
    ensures r.Some? ==> IsDigits(r.value)
  {
    if x < 0 then None
    else
      var s := Zeros(x) + ToString(n);
      Some(if x == 0 then s else s[|s| - x..])
  }

  /** Math.ceil(Math.log10(n)) without rounding error: the least d with n <= 10^d. */
  function MinimumNumberOfDecimalDigits(n: nat): (d: nat)
    requires n >= 1
    ensures n <= Pow10(d) && (d > 0 ==> Pow10(d - 1) < n)
  {
    LeastFrom(n, 0)
  }

  function LeastFrom(n: nat, d: nat): (r: nat)
    requires d == 0 || Pow10(d - 1) < n
    ensures n <= Pow10(r) && (r > 0 ==> Pow10(r - 1) < n)
    decreases n - Pow10(d)
  {
    if n <= Pow10(d) then d else LeastFrom(n, d + 1)
  }

  function DecimalDropRight(n: nat, x: nat): int { n / Pow10(x) }

  // ---------------------------------------------------------------- the number

  /** makeNationalPhoneNumberForSignup; None is a thrown error.  `low < high` is what parseRange lets pass. */
  function MakeNumber(low: nat, high: nat, totalVU: nat, currentVU: nat, iteration: nat): Option<nat>
    requires low < high && totalVU >= 1
  {
    var rangeValue := high - low;
    var digitsForVU := MinimumNumberOfDecimalDigits(totalVU);
    var digitsForIteration: int := MinimumNumberOfDecimalDigits(rangeValue) - digitsForVU;
    if iteration > DecimalDropRight(rangeValue, digitsForVU) then None
    else
      var iterationPart := DecimalPadZeroLeft(iteration, digitsForIteration);
      var vuPart := DecimalPadZeroLeft(currentVU, digitsForVU);
      if iterationPart.None? || vuPart.None? then None
      else
        var value := ParseInt(iterationPart.value + vuPart.value);
        if value > rangeValue then None else Some(low + value)
  }

  // ---------------------------------------------------------------- what the helpers compute

  lemma TenTimes(a: nat, p: nat, f: nat)
    ensures 10 * (a * p + f) == a * (10 * p) + 10 * f
  {
  }

  lemma ParseSnoc(s: string, c: char)
    requires IsDigits(s) && '0' <= c <= '9'
    ensures IsDigits(s + [c]) && ParseInt(s + [c]) == 10 * ParseInt(s) + (c - '0') as int
  {
    assert (s + [c])[..|s|] == s;
  }

  lemma {:induction false} ParseAppend(a: string, b: string)
    requires IsDigits(a) && IsDigits(b)
    ensures IsDigits(a + b) && ParseInt(a + b) == ParseInt(a) * Pow10(|b|) + ParseInt(b)
  {
    if b == "" {
      assert a + b == a;
    } else {
      var front, last := b[..|b| - 1], b[|b| - 1];
      ParseAppend(a, front);
      ParseSnoc(a + front, last);
      ParseSnoc(front, last);
      assert b == front + [last] && a + b == a + front + [last];
      TenTimes(ParseInt(a), Pow10(|front|), ParseInt(front));
    }
  }

  lemma {:induction false} ParseBelow(s: string)
    requires IsDigits(s)
    ensures ParseInt(s) < Pow10(|s|)
  {
    if s != "" { ParseBelow(s[..|s| - 1]); }
  }

  lemma {:induction false} ParseToString(n: nat)
    ensures ParseInt(ToString(n)) == n
  {
    if n >= 10 {
      ParseToString(n / 10);
      var s := ToString(n);
      assert s[..|s| - 1] == ToString(n / 10);
    }
  }

  lemma {:induction false} ParseZeros(x: nat)
    ensures ParseInt(Zeros(x)) == 0
  {
    if x > 0 {
      ParseZeros(x - 1);
      assert Zeros(x)[..x - 1] == Zeros(x - 1);
    }
  }

  /** With at least one digit asked for, padding keeps exactly the low x digits. */
  lemma PaddedValue(n: nat, x: nat)
    requires x >= 1
    ensures var p := DecimalPadZeroLeft(n, x); p.Some? && |p.value| == x && ParseInt(p.value) == n % Pow10(x)
  {
    hide ParseInt, ToString;
    var s := Zeros(x) + ToString(n);
    var head, tail := s[..|s| - x], s[|s| - x..];
    assert s == head + tail;
    ParseAppend(head, tail);
    ParseAppend(Zeros(x), ToString(n));
    ParseZeros(x);
    ParseToString(n);
    ParseBelow(tail);
    LowDigits(ParseInt(head), Pow10(x), ParseInt(tail), n);
  }

  lemma AtLeast(k: int, p: nat)
    requires k >= 1
    ensures k * p >= p
  {
  }

  lemma LowDigits(q: nat, p: nat, r: nat, n: nat)
    requires n == q * p + r && r < p
    ensures n % p == r && n / p == q
  {
    var a, b := n / p, n % p;
    assert n == a * p + b && 0 <= b < p;
    assert (q - a) * p == b - r;
    if q > a { AtLeast(q - a, p); }
    if a > q { AtLeast(a - q, p); }
  }

  /** With no digits asked for, nothing is cut. */
  lemma UnpaddedValue(n: nat)
    ensures var p := DecimalPadZeroLeft(n, 0); p.Some? && ParseInt(p.value) == n && (n < 10 ==> |p.value| == 1)
  {
    ParseToString(n);
    assert Zeros(0) + ToString(n) == ToString(n);
  }

  lemma {:induction false} PowMonotone(a: nat, b: nat)
    requires a <= b
    ensures Pow10(a) <= Pow10(b)
  {
    if a < b { PowMonotone(a, b - 1); }
  }

  lemma {:induction false} PowSplit(a: nat, b: nat)
    ensures Pow10(a + b) == Pow10(a) * Pow10(b)
  {
    if a > 0 { PowSplit(a - 1, b); }
  }

  // ---------------------------------------------------------------- packing

  /** The two parts as numbers: cut to their digits, unless no digit was asked for. */
  function IterationPart(iteration: nat, e: nat): int { if e >= 1 then iteration % Pow10(e) else iteration }

  function VUPart(vu: nat, d: nat): int { if d >= 1 then vu % Pow10(d) else vu }

  /** What the user's part takes up; without a digit of its own user 1 still prints one. */
  function Width(d: nat): nat { Pow10(if d >= 1 then d else 1) }

  lemma PackedValue(iteration: nat, e: nat, vu: nat, d: nat)
    requires d == 0 ==> vu < 10
    ensures var a, b := DecimalPadZeroLeft(iteration, e), DecimalPadZeroLeft(vu, d);
      && a.Some? && b.Some?
      && ParseInt(a.value + b.value) == IterationPart(iteration, e) * Width(d) + VUPart(vu, d)
      && 0 <= IterationPart(iteration, e) && 0 <= VUPart(vu, d) < Width(d)
  {
    hide DecimalPadZeroLeft, ParseInt;
    if e >= 1 { PaddedValue(iteration, e); } else { UnpaddedValue(iteration); }
    if d >= 1 { PaddedValue(vu, d); } else { UnpaddedValue(vu); assert Pow10(1) == 10; }
    ParseAppend(DecimalPadZeroLeft(iteration, e).value, DecimalPadZeroLeft(vu, d).value);
    ParseBelow(DecimalPadZeroLeft(vu, d).value);
  }

  lemma SplitApart(x: int, y: int, w: nat, p: int, q: int)
    requires x * w + p == y * w + q && 0 <= p < w && 0 <= q < w
    ensures x == y && p == q
  {
    assert (x - y) * w == q - p;
    if x > y { AtLeast(x - y, w); }
    if y > x {
      assert (y - x) * w == p - q;
      AtLeast(y - x, w);
    }
  }

  lemma SmallMod(v: nat, p: nat)
    requires 1 <= v <= p
    ensures v % p == if v == p then 0 else v
  {
    if v == p { LowDigits(1, p, 0, v); } else { LowDigits(0, p, v, v); }
  }

  /** The users 1 .. totalVU have different parts, even when the last one's digits are all cut to zero. */
  lemma UsersDiffer(v: nat, w: nat, totalVU: nat, d: nat)
    requires 1 <= v <= totalVU && 1 <= w <= totalVU && totalVU <= Pow10(d) && VUPart(v, d) == VUPart(w, d)
    ensures v == w
  {
    if d >= 1 {
      SmallMod(v, Pow10(d));
      SmallMod(w, Pow10(d));
    }
  }

  /** The largest iteration the guard lets pass keeps all its digits, unless the range is exactly a power
      of ten. */
  lemma GuardKeepsIteration(rangeValue: nat, d: nat, e: nat)
    requires 1 <= rangeValue <= Pow10(d + e)
    ensures DecimalDropRight(rangeValue, d) < Pow10(e) <==> rangeValue != Pow10(d + e)
  {
    PowSplit(e, d);
    var q, p := Pow10(e), Pow10(d);
    if rangeValue == q * p {
      LowDigits(q, p, 0, rangeValue);
    } else {
      Quotient(rangeValue, p, q);
    }
  }

  lemma Quotient(n: nat, p: nat, q: nat)
    requires p >= 1 && n < q * p
    ensures n / p < q
  {
    var a, b := n / p, n % p;
    assert n == a * p + b && 0 <= b < p;
    if a >= q {
      MulMonotone(q, a, p);
    }
  }

  lemma MulMonotone(q: int, a: int, p: nat)
    requires q <= a
    ensures q * p <= a * p
  {
  }

  /** Some pair of different (iteration, user) gets one number. */
  ghost predicate Collides(low: nat, high: nat, totalVU: nat)
    requires low < high && totalVU >= 1
  {
    exists i: nat, v: nat, j: nat, w: nat :: 1 <= v <= totalVU && 1 <= w <= totalVU && Same(low, high, totalVU, i, v, j, w) && (i != j || v != w)
  }

  ghost predicate Same(low: nat, high: nat, totalVU: nat, i: nat, v: nat, j: nat, w: nat)
    requires low < high && totalVU >= 1
  {
    MakeNumber(low, high, totalVU, v, i).Some? && MakeNumber(low, high, totalVU, v, i) == MakeNumber(low, high, totalVU, w, j)
  }

  /** Every allocated number lies in the range. */
  lemma NumbersInRange(low: nat, high: nat, totalVU: nat, vu: nat, iteration: nat)
    requires low < high && totalVU >= 1 && MakeNumber(low, high, totalVU, vu, iteration).Some?
    ensures low <= MakeNumber(low, high, totalVU, vu, iteration).value <= high
  {
  }

  lemma NumberIsPacked(low: nat, high: nat, totalVU: nat, vu: nat, iteration: nat)
    requires low < high && 1 <= vu <= totalVU && MakeNumber(low, high, totalVU, vu, iteration).Some?
    ensures var d, D := MinimumNumberOfDecimalDigits(totalVU), MinimumNumberOfDecimalDigits(high - low);
      && d <= D && iteration <= DecimalDropRight(high - low, d)
      && MakeNumber(low, high, totalVU, vu, iteration) == Some(low + (IterationPart(iteration, D - d) * Width(d) + VUPart(vu, d)))
      && 0 <= VUPart(vu, d) < Width(d)
  {
    hide DecimalPadZeroLeft, ParseInt, DecimalDropRight, IterationPart, VUPart, Width;
    var d, D := MinimumNumberOfDecimalDigits(totalVU), MinimumNumberOfDecimalDigits(high - low);
    if D < d { Negative(iteration, (D as int) - d); } else {
      if d == 0 { assert Pow10(0) == 1; }
      PackedValue(iteration, D - d, vu, d);
    }
  }

  /** What a number is made of: the iteration and the user side by side, on top of the range's low end.  There is
      none if the users need more digits than the range has, the iteration is past the last one, or the number
      falls out of the range. */
  lemma NumberMeans(low: nat, high: nat, totalVU: nat, vu: nat, iteration: nat)
    requires low < high && 1 <= vu <= totalVU
    ensures var d, D := MinimumNumberOfDecimalDigits(totalVU), MinimumNumberOfDecimalDigits(high - low);
      var r := MakeNumber(low, high, totalVU, vu, iteration);
      if D < d || iteration > (high - low) / Pow10(d) then r.None?
      else
        var packed := (if D > d then iteration % Pow10(D - d) else iteration) * (if d > 0 then Pow10(d) else 10) + (if d > 0 then vu % Pow10(d) else vu);
        r == if packed <= high - low then Some(low + packed) else None
  {
    hide DecimalPadZeroLeft, ParseInt, MinimumNumberOfDecimalDigits;
    var d, D := MinimumNumberOfDecimalDigits(totalVU), MinimumNumberOfDecimalDigits(high - low);
    assert Pow10(1) == 10;
    if D < d { Negative(iteration, (D as int) - d); } else {
      if d == 0 { assert Pow10(0) == 1; }
      PackedValue(iteration, D - d, vu, d);
    }
  }

  lemma Negative(n: nat, x: int)
    requires x < 0
    ensures DecimalPadZeroLeft(n, x).None?
  {
  }

  /** Different (iteration, user) get different numbers, for every range and number of users, unless the
      range is exactly a power of ten with more digits than the users need; then iteration 10^d wraps
      onto iteration 0. */
  lemma AllocationIsInjective(low: nat, high: nat, totalVU: nat)
    requires low < high && totalVU >= 1
    ensures var d, D := MinimumNumberOfDecimalDigits(totalVU), MinimumNumberOfDecimalDigits(high - low);
      Collides(low, high, totalVU) <==> high - low == Pow10(D) && D > d
  {
    hide MakeNumber, DecimalDropRight, IterationPart, VUPart, Width, MinimumNumberOfDecimalDigits;
    var d, D := MinimumNumberOfDecimalDigits(totalVU), MinimumNumberOfDecimalDigits(high - low);
    if high - low == Pow10(D) && D > d {
      WrapsOntoZero(low, high, totalVU);
      assert Same(low, high, totalVU, 0, 1, Pow10(D - d), 1);
    } else {
      forall i: nat, v: nat, j: nat, w: nat | 1 <= v <= totalVU && 1 <= w <= totalVU && Same(low, high, totalVU, i, v, j, w)
        ensures i == j && v == w
      {
        NoCollision(low, high, totalVU, i, v, j, w);
      }
    }
  }

  lemma NoCollision(low: nat, high: nat, totalVU: nat, i: nat, v: nat, j: nat, w: nat)
    requires low < high && 1 <= v <= totalVU && 1 <= w <= totalVU && Same(low, high, totalVU, i, v, j, w)
    requires var d, D := MinimumNumberOfDecimalDigits(totalVU), MinimumNumberOfDecimalDigits(high - low);
      high - low != Pow10(D) || D <= d
    ensures i == j && v == w
  {
    hide MakeNumber, DecimalDropRight, VUPart, Width, MinimumNumberOfDecimalDigits, Pow10;
    var d, D := MinimumNumberOfDecimalDigits(totalVU), MinimumNumberOfDecimalDigits(high - low);
    NumberIsPacked(low, high, totalVU, v, i);
    NumberIsPacked(low, high, totalVU, w, j);
    SplitApart(IterationPart(i, D - d), IterationPart(j, D - d), Width(d), VUPart(v, d), VUPart(w, d));
    UsersDiffer(v, w, totalVU, d);
    if D > d {
      GuardKeepsIteration(high - low, d, D - d);
      assert d + (D - d) == D;
      LowDigits(0, Pow10(D - d), i, i);
      LowDigits(0, Pow10(D - d), j, j);
    }
  }

  lemma WrapsOntoZero(low: nat, high: nat, totalVU: nat)
    requires low < high && totalVU >= 1
    requires var d, D := MinimumNumberOfDecimalDigits(totalVU), MinimumNumberOfDecimalDigits(high - low);
      high - low == Pow10(D) && D > d
    ensures var e := MinimumNumberOfDecimalDigits(high - low) - MinimumNumberOfDecimalDigits(totalVU);
      Pow10(e) != 0 && Same(low, high, totalVU, 0, 1, Pow10(e), 1)
  {
    hide DecimalPadZeroLeft, ParseInt, MinimumNumberOfDecimalDigits, Pow10, Width;
    var d, D := MinimumNumberOfDecimalDigits(totalVU), MinimumNumberOfDecimalDigits(high - low);
    var e := D - d;
    PowSplit(e, d);
    LowDigits(Pow10(e), Pow10(d), 0, high - low);
    PackedValue(0, e, 1, d);
    PackedValue(Pow10(e), e, 1, d);
    LowDigits(0, Pow10(e), 0, 0);
    LowDigits(1, Pow10(e), 0, Pow10(e));
    SmallUser(d);
  }

  lemma SmallUser(d: nat)
    ensures VUPart(1, d) <= 1
  {
    if d >= 1 { SmallMod(1, Pow10(d)); }
  }
}
