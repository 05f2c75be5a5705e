/** Decimal text of machine integers: printing, and parsing with the errors parsing can give. */
module Decimal {
  import opened Options

  const MIN_INT: int := -0x8000_0000_0000_0000
  const MAX_INT: int := 0x7FFF_FFFF_FFFF_FFFF

  predicate IsInt(n: int) {
    MIN_INT <= n <= MAX_INT
  }

  predicate IsDigit(c: char) {
    '0' <= c <= '9'
  }

  function Digits(n: nat): (s: string)
    ensures s != [] && forall i :: 0 <= i < |s| ==> IsDigit(s[i])
  {
    if n < 10 then ['0' + n as char] else Digits(n / 10) + ['0' + (n % 10) as char]
  }

  function Itoa(n: int): string {
    if n < 0 then "-" + Digits(-n) else Digits(n)
  }

  function Value(s: string): nat
    requires forall i :: 0 <= i < |s| ==> IsDigit(s[i])
  {
    if s == [] then 0
    else
      assert IsDigit(s[|s| - 1]);
      10 * Value(s[..|s| - 1]) + (s[|s| - 1] as int - '0' as int)
  }

  /** At least one digit and nothing else. */
  function ParseDigits(s: string): Option<nat> {
    if s == [] || exists i :: 0 <= i < |s| && !IsDigit(s[i]) then None else Some(Value(s))
  }

  function InRange(n: int): Option<int> {
    if IsInt(n) then Some(n) else None
  }

  /** An optional sign, then digits, within range; anything else is an error. */
  function Atoi(s: string): Option<int> {
    if s != [] && s[0] == '-' then
      match ParseDigits(s[1..])
      case Some(n) => InRange(-(n as int))
      case None => None
    else
      match ParseDigits(if s != [] && s[0] == '+' then s[1..] else s)
      case Some(n) => InRange(n)
      case None => None
  }

  lemma {:induction false} ValueOfDigits(n: nat)
    ensures Value(Digits(n)) == n
    decreases n
  {
    var s := Digits(n);
    if n < 10 {
      assert s[..|s| - 1] == [];
    } else {
      ValueOfDigits(n / 10);
      assert s[..|s| - 1] == Digits(n / 10);
      assert s[|s| - 1] == '0' + (n % 10) as char;
    }
  }

  lemma DigitsParse(n: nat)
    ensures ParseDigits(Digits(n)) == Some(n) && Digits(n)[0] != '-' && Digits(n)[0] != '+'
  {
    ValueOfDigits(n);
    assert IsDigit(Digits(n)[0]);
  }

  lemma AtoiInvertsItoa(n: int)
    requires IsInt(n)
    ensures Atoi(Itoa(n)) == Some(n)
  {
    if n < 0 {
      DigitsParse(-n);
      assert Itoa(n)[1..] == Digits(-n);
    } else {
      DigitsParse(n);
    }
  }

  // ---------- what the texts look like ----------

  /** Most significant digit first, no leading zeros, a minus sign for negative numbers. */
  lemma ItoaIsDecimal(n: int, digit: int)
    requires n > 0 && 0 <= digit < 10
    ensures Itoa(digit) == ['0' + digit as char]
    ensures Itoa(10 * n + digit) == Itoa(n) + ['0' + digit as char]
    ensures Itoa(-n) == "-" + Itoa(n)
  {
    assert (10 * n + digit) / 10 == n && (10 * n + digit) % 10 == digit;
  }

  lemma ValueAppend(s: string, c: char)
    requires (forall i :: 0 <= i < |s| ==> IsDigit(s[i])) && IsDigit(c)
    ensures Value(s + [c]) == 10 * Value(s) + (c as int - '0' as int)
  {
    assert (s + [c])[..|s|] == s;
  }

  lemma AtoiOfDigits(s: string)
    requires s != [] && forall i :: 0 <= i < |s| ==> IsDigit(s[i])
    ensures Atoi(s) == InRange(Value(s))
  {
    assert IsDigit(s[0]) && ParseDigits(s) == Some(Value(s));
  }

  lemma AtoiReadsOneDigit(c: char)
    requires '0' <= c <= '9'
    ensures Atoi([c]) == Some(c as int - '0' as int)
  {
    AtoiOfDigits([c]);
    ValueAppend("", c);
    assert "" + [c] == [c];
  }

  /** One more digit at the end is the next decimal place; past 64 bits there is no result. */
  lemma AtoiReadsDigits(s: string, c: char)
    requires s != [] && (forall i :: 0 <= i < |s| ==> '0' <= s[i] <= '9') && '0' <= c <= '9'
    ensures Atoi(s + [c]) ==
            match Atoi(s)
            case Some(n) =>
              var m := 10 * n + (c as int - '0' as int); if m <= 9223372036854775807 then Some(m) else None
            case None => None
  {
    AtoiOfDigits(s);
    AtoiOfDigits(s + [c]);
    ValueAppend(s, c);
    InRangeGrows(Value(s), c as int - '0' as int);
  }

  lemma InRangeGrows(n: nat, digit: nat)
    ensures InRange(10 * n + digit) ==
            match InRange(n)
            case Some(k) => if 10 * k + digit <= 9223372036854775807 then Some(10 * k + digit) else None
            case None => None
  {
  }

  /** One sign may come first. */
  lemma AtoiReadsSign(s: string)
    requires s != [] && forall i :: 0 <= i < |s| ==> '0' <= s[i] <= '9'
    ensures Atoi("+" + s) == Atoi(s)
    ensures Atoi(s).Some? ==> Atoi(s).value >= 0 && Atoi("-" + s) == Some(-Atoi(s).value)
  {
    assert ("+" + s)[1..] == s && ("-" + s)[1..] == s;
  }

  /** Anything but digits behind at most one sign is an error, the empty text among it. */
  lemma AtoiRejects(s: string)
    requires var rest := if s != [] && (s[0] == '-' || s[0] == '+') then s[1..] else s;
             rest == [] || exists i :: 0 <= i < |rest| && !('0' <= rest[i] <= '9')
    ensures Atoi(s) == None
  {
    var rest := if s != [] && (s[0] == '-' || s[0] == '+') then s[1..] else s;
    if i :| 0 <= i < |rest| && !('0' <= rest[i] <= '9') {
      assert !IsDigit(rest[i]);
    }
  }
}
