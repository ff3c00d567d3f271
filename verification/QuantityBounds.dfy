/**
The bound on quantity texts that keeps parsing them cheap: a length, and the size of the first
decimal exponent, read by a scanner that never computes it.
 */
module QuantityBounds {
  import opened DecimalText
  import opened Wrappers

  const MAX_EXPONENT := 9999
  const MAX_EXPONENT_DIGITS := 4
  const MAX_LENGTH := 64

  predicate IsMark(c: char) { c == 'e' || c == 'E' }

  // ----- The exponent a text names -------------------------------------------------------------------

  /** The text after the first e or E, if there is one. */
  function AfterMark(s: string): Option<string> {
    if s == "" then None else if IsMark(s[0]) then Some(s[1..]) else AfterMark(s[1..])
  }

  function Unsigned(s: string): string {
    if s != "" && (s[0] == '+' || s[0] == '-') then s[1..] else s
  }

  /** The leading run of digits. */
  function DigitRun(s: string): string {
    if s == "" || !IsDigit(s[0]) then "" else [s[0]] + DigitRun(s[1..])
  }

  predicate Digits(s: string) { forall k :: 0 <= k < |s| ==> IsDigit(s[k]) }

  function Number(s: string): (n: nat)
    requires Digits(s)
  {
    if s == "" then 0 else 10 * Number(s[..|s| - 1]) + (s[|s| - 1] as int - '0' as int)
  }

  lemma {:induction false} RunDigits(s: string)
    ensures Digits(DigitRun(s))
  {
    if s != "" && IsDigit(s[0]) { RunDigits(s[1..]); }
  }

  /** The magnitude of the exponent: 0 when the text has none. */
  function Exponent(s: string): nat {
    match AfterMark(s)
    case None => 0
    case Some(t) =>
      RunDigits(Unsigned(t));
      Number(DigitRun(Unsigned(t)))
  }

  /** A text without an exponent has exponent 0. */
  lemma {:induction false} NoExponent(value: string)
    requires forall k :: 0 <= k < |value| ==> value[k] != 'e' && value[k] != 'E'
    ensures Exponent(value) == 0
  {
    if value != "" { NoMark(value); }
  }

  lemma {:induction false} NoMark(value: string)
    requires forall k :: 0 <= k < |value| ==> value[k] != 'e' && value[k] != 'E'
    ensures AfterMark(value) == None
  {
    if value != "" { NoMark(value[1..]); }
  }

  lemma {:induction false} FirstMark(front: string, mark: char, rest: string)
    requires forall k :: 0 <= k < |front| ==> front[k] != 'e' && front[k] != 'E'
    requires mark == 'e' || mark == 'E'
    ensures AfterMark(front + [mark] + rest) == Some(rest)
  {
    var s := front + [mark] + rest;
    if front == "" {
      assert s[0] == mark && s[1..] == rest;
    } else {
      assert s[0] == front[0] && s[1..] == front[1..] + [mark] + rest;
      FirstMark(front[1..], mark, rest);
    }
  }

  lemma {:induction false} RunThen(digits: string, rest: string)
    requires forall k :: 0 <= k < |digits| ==> '0' <= digits[k] <= '9'
    requires rest == "" || !('0' <= rest[0] <= '9')
    ensures DigitRun(digits + rest) == digits
  {
    if digits == "" {
      assert digits + rest == rest;
    } else {
      assert (digits + rest)[1..] == digits[1..] + rest;
      RunThen(digits[1..], rest);
    }
  }

  lemma {:induction false} NumberReads(s: string)
    requires Digits(s)
    ensures Number(s) == ReadDecimal(s)
  {
    if s != "" { NumberReads(s[..|s| - 1]); }
  }

  /**
  The exponent of a text: after the first e or E, in either case, perhaps one sign, then the digits up to the
  first character that is none.
   */
  lemma {:induction false} ExponentRead(front: string, mark: char, sign: string, digits: string, rest: string)
    requires forall k :: 0 <= k < |front| ==> front[k] != 'e' && front[k] != 'E'
    requires (mark == 'e' || mark == 'E') && sign in {"", "+", "-"}
    requires forall k :: 0 <= k < |digits| ==> '0' <= digits[k] <= '9'
    requires rest == "" || !('0' <= rest[0] <= '9' || (sign == digits == "" && rest[0] in {'+', '-'}))
    ensures Exponent(front + [mark] + (sign + digits + rest)) == ReadDecimal(digits)
  {
    hide AfterMark, DigitRun;
    var tail := sign + digits + rest;
    FirstMark(front, mark, tail);
    assert Unsigned(tail) == digits + rest by {
      if sign != "" {
        assert tail[0] == sign[0] && tail[1..] == digits + rest;
      } else {
        assert tail == digits + rest;
        assert tail != "" ==> tail[0] == if digits != "" then digits[0] else rest[0];
      }
    }
    RunThen(digits, rest);
    NumberReads(digits);
  }

  // ----- Counting significant digits ---------------------------------------------------------------------

  function Stripped(s: string): string {
    if s != "" && s[0] == '0' then Stripped(s[1..]) else s
  }

  function Pow10(n: nat): (p: nat)
    ensures p >= 1
  {
    if n == 0 then 1 else 10 * Pow10(n - 1)
  }

  lemma {:induction false} StrippedRun(s: string)
    ensures DigitRun(Stripped(s)) == Stripped(DigitRun(s))
  {
    if s != "" && s[0] == '0' { StrippedRun(s[1..]); }
  }

  lemma {:induction false} StrippedDigits(s: string)
    requires Digits(s)
    ensures Digits(Stripped(s)) && Number(Stripped(s)) == Number(s)
    ensures Stripped(s) != "" ==> Stripped(s)[0] != '0'
    decreases |s|
  {
    if s != "" && s[0] == '0' {
      StrippedDigits(s[1..]);
      LeadingDigit(s);
    }
  }

  /** The place value of a first digit. */
  lemma {:induction false} LeadingDigit(s: string)
    requires Digits(s) && s != ""
    ensures Number(s) == (s[0] as int - '0' as int) * Pow10(|s| - 1) + Number(s[1..])
  {
    if |s| > 1 {
      var front := s[..|s| - 1];
      LeadingDigit(front);
      assert s[1..][..|s| - 2] == front[1..];
      TenTimes(s[0] as int - '0' as int, Pow10(|s| - 2), Number(front[1..]));
    }
  }

  lemma {:induction false} TenTimes(d: int, p: int, r: int)
    ensures 10 * (d * p + r) == d * (10 * p) + 10 * r
  {
  }

  lemma {:induction false} NumberBelow(s: string)
    requires Digits(s)
    ensures Number(s) < Pow10(|s|)
  {
    if s != "" { NumberBelow(s[..|s| - 1]); }
  }

  lemma {:induction false} PowersGrow(m: nat, n: nat)
    requires m <= n
    ensures Pow10(m) <= Pow10(n)
  {
    if m < n { PowersGrow(m, n - 1); }
  }

  /** A number's size is told by its significant digits: n of them or fewer exactly when it is below 10^n. */
  lemma {:induction false} DigitsBound(s: string, n: nat)
    requires Digits(s)
    ensures |Stripped(s)| <= n <==> Number(s) < Pow10(n)
  {
    var t := Stripped(s);
    StrippedDigits(s);
    NumberBelow(t);
    if |t| <= n {
      PowersGrow(|t|, n);
    } else {
      LeadingDigit(t);
      PowersGrow(n, |t| - 1);
      AtLeast(t[0] as int - '0' as int, Pow10(|t| - 1));
    }
  }

  lemma {:induction false} AtLeast(d: int, p: int)
    requires d >= 1 && p >= 1
    ensures d * p >= p
  {
  }

  // ----- The scanner --------------------------------------------------------------------------------------------

  /** What one more character does to each of the three scans. */
  lemma {:induction false} ScanStep(value: string, i: nat)
    requires i <= |value|
    ensures AfterMark(value[i..])
         == if i == |value| then None else if IsMark(value[i]) then Some(value[i + 1..]) else AfterMark(value[i + 1..])
    ensures Stripped(value[i..]) == if i < |value| && value[i] == '0' then Stripped(value[i + 1..]) else value[i..]
    ensures |DigitRun(value[i..])| == if i < |value| && IsDigit(value[i]) then 1 + |DigitRun(value[i + 1..])| else 0
  {
    if i < |value| { assert value[i..][0] == value[i] && value[i..][1..] == value[i + 1..]; }
  }

  /** The number of significant exponent digits, and whether there are any. */
  method ExponentDigits(value: string) returns (digits: nat, ok: bool)
    ensures ok <==> digits > 0
    ensures digits == match AfterMark(value) case None => 0 case Some(t) => |Stripped(DigitRun(Unsigned(t)))|
  {
    hide AfterMark, Stripped, DigitRun, IsMark, IsDigit;
    var i := 0;
    assert value[0..] == value;
    ScanStep(value, 0);
    while i < |value| && !IsMark(value[i])
      invariant i <= |value| && AfterMark(value[i..]) == AfterMark(value)
    {
      ScanStep(value, i);
      i := i + 1;
    }
    ScanStep(value, i);
    if i == |value| {
      return 0, false;
    }
    i := i + 1;
    ghost var t := value[i..];
    assert AfterMark(value) == Some(t);
    if i < |value| && (value[i] == '+' || value[i] == '-') {
      i := i + 1;
    }
    assert value[i..] == Unsigned(t);
    while i < |value| && value[i] == '0'
      invariant i <= |value| && Stripped(value[i..]) == Stripped(Unsigned(t))
    {
      ScanStep(value, i);
      i := i + 1;
    }
    ScanStep(value, i);
    ghost var rest := value[i..];
    digits := 0;
    while i < |value| && IsDigit(value[i])
      invariant i <= |value| && digits + |DigitRun(value[i..])| == |DigitRun(rest)|
    {
      ScanStep(value, i);
      digits := digits + 1;
      i := i + 1;
    }
    ScanStep(value, i);
    StrippedRun(Unsigned(t));
    ok := digits > 0;
  }

  /** The bound on the count is the bound on the number: at most four significant digits is at most 9999. */
  lemma {:induction false} CountIsValue(value: string)
    ensures var t := AfterMark(value);
            Exponent(value) <= 9999 <==>
              t.None? || |Stripped(DigitRun(Unsigned(t.value)))| <= MAX_EXPONENT_DIGITS
  {
    if AfterMark(value).Some? {
      var run := DigitRun(Unsigned(AfterMark(value).value));
      RunDigits(Unsigned(AfterMark(value).value));
      DigitsBound(run, MAX_EXPONENT_DIGITS);
      assert Pow10(4) == 10 * Pow10(3) && Pow10(3) == 10 * Pow10(2) && Pow10(2) == 10 * Pow10(1);
    }
  }

  /** Accepted exactly when the text is short and its first exponent small, whatever its leading zeros or its tail. */
  method CheckQuantityBounds(value: string) returns (accepted: bool)
    ensures accepted <==> |value| <= 64 && Exponent(value) <= 9999
  {
    hide Exponent, AfterMark, Stripped, DigitRun;
    if |value| > MAX_LENGTH {
      return false;
    }
    var digits, ok := ExponentDigits(value);
    CountIsValue(value);
    if ok && digits > MAX_EXPONENT_DIGITS {
      return false;
    }
    accepted := true;
  }
}
