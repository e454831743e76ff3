/** Decimal numbers as Go prints them with %d and reads them back with Atoi and Sscanf. */
module Decimal {
  import opened Wrappers

  predicate IsDigit(c: char) {
    '0' <= c <= '9'
  }

  function DigitValue(c: char): nat
    requires IsDigit(c)
  {
    c as int - '0' as int
  }

  function DigitChar(d: nat): char
    requires d < 10
  {
    ('0' as int + d) as char
  }

  predicate AllDigits(s: string) {
    forall i :: 0 <= i < |s| ==> IsDigit(s[i])
  }

  function Value(s: string): nat
    requires AllDigits(s)
  {
    if s == [] then 0 else 10 * Value(s[..|s| - 1]) + DigitValue(s[|s| - 1])
  }

  /** A natural number printed with %d. */
  function Render(n: nat): (s: string)
    ensures s != [] && AllDigits(s) && Value(s) == n
  {
    if n < 10 then [DigitChar(n)] else Render(n / 10) + [DigitChar(n % 10)]
  }

  /** An integer printed with %d. */
  function Format(n: int): string {
    if n < 0 then "-" + Render(-n) else Render(n)
  }

  function Signed(sign: char, n: nat): int {
    if sign == '-' then 0 - n as int else n
  }

  /** strconv.Atoi, None standing for its error. */
  function Atoi(s: string): Option<int> {
    if s != [] && (s[0] == '-' || s[0] == '+') then
      if |s| > 1 && AllDigits(s[1..]) then Some(Signed(s[0], Value(s[1..]))) else None
    else if s != [] && AllDigits(s) then Some(Value(s))
    else None
  }

  lemma AtoiReadsFormat(n: int)
    ensures Atoi(Format(n)) == Some(n)
  {
    if n < 0 {
      assert Format(n)[1..] == Render(-n);
    } else {
      assert IsDigit(Render(n)[0]);
    }
  }

  lemma FormatInjective(m: int, n: int)
    requires Format(m) == Format(n)
    ensures m == n
  {
    AtoiReadsFormat(m);
    AtoiReadsFormat(n);
  }

  /** The digits at the front of `s`. */
  function LeadingDigits(s: string): (d: string)
    ensures AllDigits(d) && d <= s
    ensures |d| < |s| ==> !IsDigit(s[|d|])
  {
    if s != [] && IsDigit(s[0]) then [s[0]] + LeadingDigits(s[1..]) else []
  }

  /** Sscanf's %d: an optional sign, then at least one digit; whatever follows is not looked at. */
  function ScanInt(s: string): Option<int> {
    if s != [] && (s[0] == '-' || s[0] == '+') then
      var d := LeadingDigits(s[1..]);
      if d == [] then None else Some(Signed(s[0], Value(d)))
    else
      var d := LeadingDigits(s);
      if d == [] then None else Some(Value(d))
  }

  /** Sscanf(s, prefix + "%d"). */
  function ScanAfter(prefix: string, s: string): Option<int> {
    if prefix <= s then ScanInt(s[|prefix|..]) else None
  }

  lemma {:induction false} DigitsLeadThemselves(s: string)
    requires AllDigits(s)
    ensures LeadingDigits(s) == s
  {
    if s != [] {
      DigitsLeadThemselves(s[1..]);
    }
  }

  lemma ScanReadsRender(prefix: string, n: nat)
    ensures ScanAfter(prefix, prefix + Render(n)) == Some(n)
  {
    var s := prefix + Render(n);
    assert s[|prefix|..] == Render(n);
    assert IsDigit(Render(n)[0]);
    DigitsLeadThemselves(Render(n));
  }
}
