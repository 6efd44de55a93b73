/** The parts of Go's `strconv` package the core calls: Itoa (also what `%d` prints),
    Atoi on a 64-bit platform, and ParseBool; plus the 64-bit wrap-around of Go's `int`. */
module Strconv {
  import opened Wrappers

  const MinInt64: int := -0x8000_0000_0000_0000
  const MaxInt64: int := 0x7fff_ffff_ffff_ffff

  /** Go's `int` arithmetic: the mathematical value reduced into [MinInt64, MaxInt64]. */
  function Wrap64(x: int): (r: int)
    ensures MinInt64 <= r <= MaxInt64
    ensures MinInt64 <= x <= MaxInt64 ==> r == x
    ensures (r - x) % 0x1_0000_0000_0000_0000 == 0
  {
    (x - MinInt64) % 0x1_0000_0000_0000_0000 + MinInt64
  }

  predicate IsDigit(c: char) {
    '0' <= c <= '9'
  }

  predicate AllDigits(s: string) {
    forall i :: 0 <= i < |s| ==> IsDigit(s[i])
  }

  function DigitChar(d: int): (c: char)
    requires 0 <= d < 10
    ensures IsDigit(c)
  {
    "0123456789"[d]
  }

  function DigitValue(c: char): (d: nat)
    requires IsDigit(c)
    ensures d < 10 && DigitChar(d) == c
  {
    (c as int) - ('0' as int)
  }

  /** The decimal digits of a natural number, no leading zeros. */
  function NatDigits(n: nat): (r: string)
    ensures |r| >= 1 && AllDigits(r)
    ensures r[0] == '0' ==> n == 0
  {
    if n < 10 then [DigitChar(n)] else NatDigits(n / 10) + [DigitChar(n % 10)]
  }

  /** strconv.Itoa: decimal, with a leading '-' for negative numbers. */
  function Itoa(n: int): (r: string)
    ensures |r| >= 1
    ensures n >= 0 <==> AllDigits(r)
  {
    if n < 0 then
      var r := "-" + NatDigits(-n);
      assert !IsDigit(r[0]);
      r
    else NatDigits(n)
  }

  /** The value of a string of decimal digits. */
  function DigitsValue(s: string): nat
    requires AllDigits(s)
  {
    if s == [] then 0 else DigitsValue(s[..|s| - 1]) * 10 + DigitValue(s[|s| - 1])
  }

  const SyntaxError := "invalid syntax"
  const RangeError := "value out of range"

  const MaxUint64: int := 0xffff_ffff_ffff_ffff

  /** The length of the run of decimal digits that `s` starts with. */
  function DigitRun(s: string): (n: nat)
    ensures n <= |s| && AllDigits(s[..n])
    ensures n < |s| ==> !IsDigit(s[n])
  {
    if |s| == 0 || !IsDigit(s[0]) then 0
    else
      var m := DigitRun(s[1..]);
      assert s[..1 + m] == [s[0]] + s[1..][..m];
      1 + m
  }

  /** The value of a sign and a digit string, read digit by digit as Go's parser does: a range
      error as soon as the digits read so far exceed the largest `uint64`, even when a
      non-digit follows; otherwise a syntax error unless there is at least one digit and
      nothing else, and a range error outside the 64-bit `int` range. */
  function SignedValue(negative: bool, digits: string): (r: Result<int>)
    ensures r.Ok? ==> MinInt64 <= r.value <= MaxInt64 && |digits| >= 1 && AllDigits(digits)
  {
    if |digits| == 0 then Err(SyntaxError)
    else
      var run := DigitRun(digits);
      if DigitsValue(digits[..run]) > MaxUint64 then Err(RangeError)
      else if run < |digits| then Err(SyntaxError)
      else
        assert digits[..run] == digits;
        var v: int := if negative then 0 - (DigitsValue(digits) as int) else DigitsValue(digits);
        if v < MinInt64 || v > MaxInt64 then Err(RangeError) else Ok(v)
  }

  /** A text made of digits is one run. */
  lemma DigitRunOfDigits(s: string)
    requires AllDigits(s)
    ensures DigitRun(s) == |s| && s[..DigitRun(s)] == s
  {
  }

  /** The syntax Atoi accepts: an optional '+' or '-', then one or more decimal digits. */
  predicate IntSyntax(s: string) {
    |s| >= 1 && (AllDigits(s) || ((s[0] == '-' || s[0] == '+') && |s| >= 2 && AllDigits(s[1..])))
  }

  /** The number such a text denotes: its digits' value, negated after a '-'. */
  function IntValue(s: string): int
    requires IntSyntax(s)
  {
    if AllDigits(s) then DigitsValue(s)
    else if s[0] == '-' then -(DigitsValue(s[1..]) as int)
    else DigitsValue(s[1..])
  }

  /** The text after an optional leading sign. */
  function Unsigned(s: string): string {
    if |s| > 0 && (s[0] == '-' || s[0] == '+') then s[1..] else s
  }

  /** The leading digits (after the sign) already exceed the largest `uint64`. */
  predicate Overflows(s: string) {
    var u := Unsigned(s);
    DigitsValue(u[..DigitRun(u)]) > MaxUint64
  }

  /** strconv.Atoi: a text is accepted exactly when it has the integer syntax and denotes a value
      that fits a 64-bit `int`, and then that value is returned. Otherwise the error is a range
      error when the leading digits overflow (whatever follows them) or the well-formed value is
      out of range, and a syntax error in every other case. */
  function Atoi(s: string): (r: Result<int>)
    ensures r.Ok? <==> IntSyntax(s) && MinInt64 <= IntValue(s) <= MaxInt64
    ensures r.Ok? ==> r.value == IntValue(s)
    ensures Overflows(s) ==> r == Err(RangeError)
    ensures !IntSyntax(s) && !Overflows(s) ==> r == Err(SyntaxError)
    ensures IntSyntax(s) && !(MinInt64 <= IntValue(s) <= MaxInt64) ==> r == Err(RangeError)
  {
    if |s| > 0 && (s[0] == '-' || s[0] == '+') then
      assert !AllDigits(s) by { assert !IsDigit(s[0]); }
      if AllDigits(s[1..]) then DigitRunOfDigits(s[1..]); SignedValue(s[0] == '-', s[1..])
      else SignedValue(s[0] == '-', s[1..])
    else if AllDigits(s) then DigitRunOfDigits(s); SignedValue(false, s)
    else SignedValue(false, s)
  }

  /** Texts that are not canonical still parse: a '+' sign, leading zeros, "-0". */
  lemma AtoiExamples()
    ensures Atoi("+5") == Ok(5) && Atoi("007") == Ok(7) && Atoi("-0") == Ok(0)
  {
    assert "007"[..2] == "00" && "00"[..1] == "0";
    assert DigitsValue("0") == 0 && DigitsValue("00") == 0 && DigitsValue("007") == 7;
    assert IntSyntax("007") && IntValue("007") == 7;
    assert "+5"[1..] == "5" && !IsDigit("+5"[0]);
    assert IntSyntax("+5") && IntValue("+5") == 5;
    assert "-0"[1..] == "0" && !IsDigit("-0"[0]);
    assert IntSyntax("-0") && IntValue("-0") == 0;
  }

  /** A bare sign, an empty text and a stray character after a few digits are syntax errors. */
  lemma AtoiSyntaxErrors()
    ensures Atoi("") == Err(SyntaxError) && Atoi("+") == Err(SyntaxError) && Atoi("1a") == Err(SyntaxError)
  {
    assert "+"[1..] == "";
    assert DigitRun("1a") == 1 && "1a"[..1] == "1";
  }

  function Pow10(k: nat): (p: nat)
    ensures p >= 1
  {
    if k == 0 then 1 else 10 * Pow10(k - 1)
  }

  /** A prefix of a digit string is worth no more than the whole. */
  lemma {:induction false} DigitsValuePrefix(s: string, i: nat)
    requires AllDigits(s) && i <= |s|
    ensures AllDigits(s[..i]) && DigitsValue(s[..i]) <= DigitsValue(s)
  {
    if i < |s| {
      DigitsValuePrefix(s[..|s| - 1], i);
      assert s[..|s| - 1][..i] == s[..i];
    } else {
      assert s[..i] == s;
    }
  }

  /** A digit string is worth at least its leading digit times the place of that digit. */
  lemma {:induction false} DigitsValueLead(s: string)
    requires AllDigits(s) && |s| >= 1
    ensures DigitsValue(s) >= DigitValue(s[0]) * Pow10(|s| - 1)
  {
    if |s| >= 2 {
      var init := s[..|s| - 1];
      DigitsValueLead(init);
      assert init[0] == s[0];
      calc {
        DigitsValue(s);
      >= DigitsValue(init) * 10;
      >= DigitValue(s[0]) * Pow10(|s| - 2) * 10;
      == DigitValue(s[0]) * Pow10(|s| - 1);
      }
    }
  }

  /** Digits that overflow `uint64` make a range error whatever text follows them: Go's parser
      reports the overflow before it reaches the first non-digit. */
  lemma OverflowBeforeStrayText(d: string, t: string)
    requires AllDigits(d) && DigitsValue(d) > MaxUint64
    ensures Atoi(d + t) == Err(RangeError)
  {
    var s := d + t;
    assert |d| >= 1;
    assert IsDigit(s[0]);
    assert Unsigned(s) == s;
    var run := DigitRun(s);
    DigitsValuePrefix(s[..run], |d|);
    assert s[..run][..|d|] == d;
  }

  /** The case in point: twenty nines and a stray letter is a range error, not a syntax error. */
  lemma AtoiOverflowExample()
    ensures Atoi("99999999999999999999x") == Err(RangeError)
  {
    var d := "99999999999999999999";
    // the place of the leading nine, 10^19, one power at a time
    DigitsValueLead(d);
    assert Pow10(1) == 10;
    assert Pow10(2) == 100;
    assert Pow10(3) == 1000;
    assert Pow10(4) == 10000;
    assert Pow10(5) == 100000;
    assert Pow10(6) == 1000000;
    assert Pow10(7) == 10000000;
    assert Pow10(8) == 100000000;
    assert Pow10(9) == 1000000000;
    assert Pow10(10) == 10000000000;
    assert Pow10(11) == 100000000000;
    assert Pow10(12) == 1000000000000;
    assert Pow10(13) == 10000000000000;
    assert Pow10(14) == 100000000000000;
    assert Pow10(15) == 1000000000000000;
    assert Pow10(16) == 10000000000000000;
    assert Pow10(17) == 100000000000000000;
    assert Pow10(18) == 1000000000000000000;
    assert Pow10(19) == 10000000000000000000;
    OverflowBeforeStrayText(d, "x");
    assert d + "x" == "99999999999999999999x";
  }

  lemma {:induction false} DigitsOfNat(n: nat)
    ensures DigitsValue(NatDigits(n)) == n
  {
    if n >= 10 {
      var s := NatDigits(n);
      DigitsOfNat(n / 10);
      assert s[..|s| - 1] == NatDigits(n / 10);
    }
  }

  lemma AtoiOfNatDigits(n: nat)
    requires n <= MaxInt64
    ensures Atoi(NatDigits(n)) == Ok(n)
  {
    var s := NatDigits(n);
    DigitsOfNat(n);
    assert IntSyntax(s) && IntValue(s) == n;
  }

  lemma AtoiOfNegative(n: int)
    requires MinInt64 <= n < 0
    ensures Atoi("-" + NatDigits(-n)) == Ok(n)
  {
    var d := NatDigits(-n);
    var s := "-" + d;
    DigitsOfNat(-n);
    assert s[0] == '-' && s[1..] == d;
    assert !AllDigits(s) by { assert !IsDigit(s[0]); }
    assert IntSyntax(s) && IntValue(s) == n;
  }

  /** Atoi reads back what Itoa writes, for every 64-bit value. */
  lemma AtoiItoa(n: int)
    requires MinInt64 <= n <= MaxInt64
    ensures Atoi(Itoa(n)) == Ok(n)
  {
    if n < 0 {
      AtoiOfNegative(n);
    } else {
      AtoiOfNatDigits(n);
    }
  }

  /** strconv.ParseBool: the six spellings of true, the six of false, an error otherwise. */
  function ParseBool(s: string): (r: Result<bool>)
    ensures r == Ok(true) <==> s in {"1", "t", "T", "TRUE", "true", "True"}
    ensures r == Ok(false) <==> s in {"0", "f", "F", "FALSE", "false", "False"}
  {
    if s in {"1", "t", "T", "TRUE", "true", "True"} then Ok(true)
    else if s in {"0", "f", "F", "FALSE", "false", "False"} then Ok(false)
    else Err(SyntaxError)
  }
}
