/** The pieces of Go's strings and strconv packages that names are made with. */
module Strings {

  datatype Option<+T> = None | Some(value: T)

  /** The last element of strings.Split(s, string(sep)). */
  function LastToken(s: string, sep: char): string {
    if s == [] || s[|s| - 1] == sep then [] else LastToken(s[..|s| - 1], sep) + [s[|s| - 1]]
  }

  lemma {:induction false} LastTokenIs(s: string, sep: char)
    ensures var r := LastToken(s, sep);
      && sep !in r
      && |r| <= |s| && r == s[|s| - |r|..]
      && (|r| < |s| ==> s[|s| - |r| - 1] == sep)
  {
    if s != [] && s[|s| - 1] != sep { LastTokenIs(s[..|s| - 1], sep); }
  }

  lemma {:induction false} LastTokenOf(a: string, b: string, sep: char)
    requires sep !in b
    ensures LastToken(a + [sep] + b, sep) == b
  {
    var s := a + [sep] + b;
    if b != [] {
      var n := |b| - 1;
      assert s[..|s| - 1] == a + [sep] + b[..n];
      LastTokenOf(a, b[..n], sep);
    }
  }

  /** strings.TrimSuffix(s, "-"): one dash at most. */
  function TrimDash(s: string): string {
    if s != [] && s[|s| - 1] == '-' then s[..|s| - 1] else s
  }

  /** A dash at the end is trimmed once, and nothing else is. */
  lemma TrimDashIs(s: string)
    ensures TrimDash(s + "-") == s
    ensures s == [] || s[|s| - 1] != '-' ==> TrimDash(s) == s
  {
  }

  // ---------- strconv ----------

  const MAX_INT := 0x7FFF_FFFF_FFFF_FFFF
  const MIN_INT := 0 - MAX_INT - 1

  function Digit(d: nat): char
    requires d < 10
  {
    "0123456789"[d]
  }

  /** The value of a string of decimal digits; the empty string counts as 0. */
  function Digits(s: string): Option<nat> {
    if s == [] then Some(0)
    else
      var last := s[|s| - 1];
      match Digits(s[..|s| - 1])
      case None => None
      case Some(n) => if '0' <= last <= '9' then Some(10 * n + (last - '0') as nat) else None
  }

  /** strconv.Itoa, for the non-negative numbers that generations are. */
  function Itoa(n: nat): string {
    if n < 10 then [Digit(n)] else Itoa(n / 10) + [Digit(n % 10)]
  }

  /** strconv.Atoi on a 64-bit platform: an optional sign, decimal digits, and a range check. */
  function Atoi(s: string): Option<int> {
    if s == [] then None
    else if s[0] == '-' then
      (match Unsigned(s[1..]) case None => None case Some(n) => if n <= MAX_INT + 1 then Some(0 - n) else None)
    else
      (match Unsigned(if s[0] == '+' then s[1..] else s)
       case None => None
       case Some(n) => if n <= MAX_INT then Some(n) else None)
  }

  function Unsigned(s: string): Option<int> {
    if s == [] then None else match Digits(s) case None => None case Some(n) => Some(n)
  }

  /** strconv.Itoa of any int. */
  function ItoaSigned(n: int): string {
    if n >= 0 then Itoa(n) else "-" + Itoa(0 - n)
  }

  lemma {:induction false} DigitsOfItoa(n: nat)
    ensures Digits(Itoa(n)) == Some(n)
    ensures Itoa(n) != [] && forall i :: 0 <= i < |Itoa(n)| ==> '0' <= Itoa(n)[i] <= '9'
  {
    if n >= 10 {
      DigitsOfItoa(n / 10);
      assert Itoa(n)[..|Itoa(n)| - 1] == Itoa(n / 10);
    } else {
      assert Itoa(n)[..0] == [];
    }
  }

  /** Parsing a printed generation gives it back, as long as Go's int can hold it. */
  lemma AtoiItoa(n: nat)
    requires n <= MAX_INT
    ensures Atoi(Itoa(n)) == Some(n)
  {
    DigitsOfItoa(n);
  }

  /** Generations are compared as strings; that is the same as comparing the numbers. */
  lemma ItoaInjective(n: nat, m: nat)
    ensures Itoa(n) == Itoa(m) <==> n == m
  {
    DigitsOfItoa(n);
    DigitsOfItoa(m);
  }

  lemma ItoaNoDash(n: nat)
    ensures Itoa(n) != [] && '-' !in Itoa(n) && Itoa(n)[|Itoa(n)| - 1] != '-'
  {
    DigitsOfItoa(n);
  }

  // ---------- in decimal ----------

  predicate AllDigits(s: string) {
    forall i :: 0 <= i < |s| ==> '0' <= s[i] <= '9'
  }

  function Power(n: nat): nat {
    if n == 0 then 1 else 10 * Power(n - 1)
  }

  /** Each digit counts for a power of ten, by its distance from the right. */
  function Decimal(s: string): nat
    requires AllDigits(s)
  {
    if s == [] then 0 else (s[0] - '0') as nat * Power(|s| - 1) + Decimal(s[1..])
  }

  lemma TimesTen(c: nat, n: nat)
    ensures c * (10 * n) == 10 * (c * n)
  {
  }

  lemma {:induction false} OneMoreDigit(s: string, d: char)
    requires AllDigits(s) && '0' <= d <= '9'
    ensures AllDigits(s + [d]) && Decimal(s + [d]) == 10 * Decimal(s) + (d - '0') as nat
  {
    var t := s + [d];
    if s == [] {
      assert t[1..] == [] && Decimal([]) == 0 && Power(0) == 1;
    } else {
      var c, n := (s[0] - '0') as nat, Power(|s| - 1);
      assert t[1..] == s[1..] + [d];
      OneMoreDigit(s[1..], d);
      TimesTen(c, n);
      assert Power(|s|) == 10 * n;
      assert Decimal(s) == c * n + Decimal(s[1..]);
      assert Decimal(t) == c * (10 * n) + Decimal(t[1..]);
    }
  }

  lemma {:induction false} DigitsAreDecimal(s: string)
    ensures Digits(s) == if AllDigits(s) then Some(Decimal(s)) else None
  {
    if s != [] {
      var n := |s| - 1;
      DigitsAreDecimal(s[..n]);
      assert s == s[..n] + [s[n]];
      if AllDigits(s) { OneMoreDigit(s[..n], s[n]); }
    }
  }

  /** A printed generation is a decimal numeral of its value, without leading zeros. */
  lemma ItoaIsDecimal(n: nat)
    ensures AllDigits(Itoa(n)) && Decimal(Itoa(n)) == n
    ensures Itoa(n) != [] && (n > 0 ==> Itoa(n)[0] != '0') && (n == 0 ==> Itoa(n) == "0")
  {
    DigitsOfItoa(n);
    DigitsAreDecimal(Itoa(n));
    if n > 0 { NoLeadingZero(n); }
  }

  lemma {:induction false} NoLeadingZero(n: nat)
    requires n > 0
    ensures Itoa(n) != [] && Itoa(n)[0] != '0'
  {
    if n >= 10 { NoLeadingZero(n / 10); }
  }

  /** What parses: one sign at most, then decimal digits, at least one, of a value that 64 bits can hold. */
  lemma AtoiIs(s: string)
    ensures var signed := s != [] && (s[0] == '-' || s[0] == '+');
      var digits := if signed then s[1..] else s;
      Atoi(s) ==
        if digits == [] || !AllDigits(digits) then None
        else
          var n := if signed && s[0] == '-' then 0 - Decimal(digits) else Decimal(digits);
          if -0x8000_0000_0000_0000 <= n <= 0x7FFF_FFFF_FFFF_FFFF then Some(n) else None
  {
    DigitsAreDecimal(if s != [] && (s[0] == '-' || s[0] == '+') then s[1..] else s);
  }

  lemma SignedIsParsed(n: int)
    requires -0x8000_0000_0000_0000 <= n <= 0x7FFF_FFFF_FFFF_FFFF
    ensures Atoi(ItoaSigned(n)) == Some(n)
  {
    DigitsOfItoa(if n >= 0 then n else 0 - n);
    hide Itoa, Digits;
    if n < 0 { assert ("-" + Itoa(0 - n))[1..] == Itoa(0 - n); }
  }
}
