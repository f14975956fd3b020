/** `strconv.Itoa` and `strconv.Atoi` for Go's 64-bit `int`, the encoding of hook IDs in the status. */
module Numerals {
  import opened Outcomes

  const MAX_INT64: int := 0x7fff_ffff_ffff_ffff
  const MIN_INT64: int := -0x8000_0000_0000_0000

  predicate IsInt64(n: int) { MIN_INT64 <= n <= MAX_INT64 }

  predicate IsDigit(c: char) { '0' <= c <= '9' }

  function DigitChar(d: nat): char
    requires d < 10
  {
    ('0' as int + d) as char
  }

  function Digits(n: nat): (s: string)
    ensures s != ""
  {
    if n < 10 then [DigitChar(n)] else Digits(n / 10) + [DigitChar(n % 10)]
  }

  function Itoa(n: int): string {
    if n < 0 then "-" + Digits(-n) else Digits(n)
  }

  /** The value of a digit string, or nothing when a character is not a digit. */
  function DigitsValue(s: string): Option<nat> {
    if s == "" then Some(0)
    else
      var c := s[|s| - 1];
      match DigitsValue(s[..|s| - 1])
      case None => None
      case Some(v) => if IsDigit(c) then Some(10 * v + (c as int - '0' as int)) else None
  }

  /** An optional sign, at least one digit, and a value in range; anything else is an error. */
  function Atoi(s: string): (r: Option<int>)
    ensures r.Some? ==> IsInt64(r.value)
  {
    var negative := s != "" && s[0] == '-';
    var digits := if s != "" && (s[0] == '-' || s[0] == '+') then s[1..] else s;
    if digits == "" then None
    else
      match DigitsValue(digits)
      case None => None
      case Some(v) =>
        var n: int := if negative then 0 - v else v;
        if IsInt64(n) then Some(n) else None
  }

  lemma {:induction false} DigitsRoundTrip(n: nat)
    ensures DigitsValue(Digits(n)) == Some(n)
    ensures IsDigit(Digits(n)[0])
  {
    var s := Digits(n);
    if n < 10 {
      assert s[..|s| - 1] == "";
      assert DigitsValue("") == Some(0);
    } else {
      DigitsRoundTrip(n / 10);
      assert s[..|s| - 1] == Digits(n / 10);
    }
  }

  /** Decimal notation: the digit of each place from its table, the higher places before it, and a minus sign in front. */
  lemma ItoaAppends(m: int, d: int)
    requires 0 <= m && 0 <= d < 10
    ensures Itoa(d) == ["0123456789"[d]]
    ensures m > 0 ==> Itoa(10 * m + d) == Itoa(m) + ["0123456789"[d]]
    ensures m > 0 ==> Itoa(-m) == "-" + Itoa(m)
  {
    DigitTable(d);
    assert (10 * m + d) / 10 == m && (10 * m + d) % 10 == d;
  }

  lemma DigitTable(d: nat)
    requires d < 10
    ensures DigitChar(d) == "0123456789"[d]
  {
  }

  /** Every 64-bit hook ID survives being stored as a string. */
  lemma AtoiItoa(n: int)
    requires IsInt64(n)
    ensures Atoi(Itoa(n)) == Some(n)
    ensures Itoa(n) != ""
  {
    if n < 0 {
      DigitsRoundTrip(-n);
      AtoiSigned(Digits(-n), n);
    } else {
      DigitsRoundTrip(n);
    }
  }

  /** The value that is read: ten times what precedes the last digit, and that digit. */
  lemma AtoiAppends(t: string, d: int)
    requires 0 <= d < 10
    ensures Atoi(["0123456789"[d]]) == Some(d)
    ensures t != "" && IsDigit(t[0]) && Atoi(t).Some? ==>
      var n := 10 * Atoi(t).value + d; Atoi(t + ["0123456789"[d]]) == if IsInt64(n) then Some(n) else None
  {
    var c := "0123456789"[d];
    assert [c][..0] == "" && DigitsValue("") == Some(0);
    var s := t + [c];
    assert s[..|s| - 1] == t;
    if t != "" { assert s[0] == t[0]; }
  }

  /** One sign may precede the digits, and nothing but digits may follow. */
  lemma AtoiForms(t: string)
    requires t != "" && IsDigit(t[0])
    ensures Atoi("+" + t) == Atoi(t)
    ensures Atoi(t).Some? ==> Atoi("-" + t) == Some(-Atoi(t).value)
    ensures Atoi("") == None && Atoi("+") == None && Atoi("-") == None
    ensures (exists i :: 0 <= i < |t| && !IsDigit(t[i])) ==> Atoi(t) == None
  {
    assert ("+" + t)[1..] == t && ("-" + t)[1..] == t;
    DigitsOnly(t);
  }

  lemma {:induction false} DigitsOnly(s: string)
    ensures DigitsValue(s).Some? <==> forall i :: 0 <= i < |s| ==> IsDigit(s[i])
  {
    if s != "" { DigitsOnly(s[..|s| - 1]); }
  }

  lemma AtoiSigned(digits: string, n: int)
    requires n < 0 && digits != "" && DigitsValue(digits) == Some(-n) && IsInt64(n)
    ensures Atoi("-" + digits) == Some(n)
  {
    assert ("-" + digits)[1..] == digits && ("-" + digits)[0] == '-';
  }

  lemma ItoaInjective(m: int, n: int)
    requires IsInt64(m) && IsInt64(n) && Itoa(m) == Itoa(n)
    ensures m == n
  {
    AtoiItoa(m);
    AtoiItoa(n);
  }
}
