/** Decimal printing and parsing as strconv and fmt do it, with their inverses. */
module Decimal {
  import opened Base

  function DigitChar(d: nat): (c: char)
    requires d < 10
  {
    '0' + d as char
  }

  predicate IsDigit(c: char) {
    '0' <= c <= '9'
  }

  predicate AllDigits(s: string) {
    forall i :: 0 <= i < |s| ==> IsDigit(s[i])
  }

  /** strconv.FormatUint(n, 10) */
  function Format(n: nat): (s: string)
    ensures s != "" && AllDigits(s)
  {
    if n < 10 then [DigitChar(n)] else Format(n / 10) + [DigitChar(n % 10)]
  }

  /** strconv.Itoa, strconv.FormatInt(i, 10) and the %d verb */
  function FormatInt(i: int): (s: string) {
    if i < 0 then "-" + Format(-i) else Format(i)
  }

  function Value(s: string): (v: nat)
    requires AllDigits(s)
  {
    if s == "" then 0
    else Value(s[..|s| - 1]) * 10 + (s[|s| - 1] as int - '0' as int)
  }

  /** strconv.ParseUint(s, 10, 64): digits only, no sign, below 2^64. */
  function ParseUint(s: string): Option<U64> {
    if s == "" || !AllDigits(s) || Value(s) >= TWO64 then None else Some(Value(s))
  }

  /** strconv.Atoi on a 64-bit platform: an optional sign, then digits, within int64. */
  function Atoi(s: string): Option<int> {
    var negative := s != "" && s[0] == '-';
    var digits := if s != "" && (s[0] == '-' || s[0] == '+') then s[1..] else s;
    if digits == "" || !AllDigits(digits) then None
    else
      var v: int := if negative then 0 - Value(digits) else Value(digits);
      if -TWO63 <= v < TWO63 then Some(v) else None
  }

  function DigitRun(s: string): (n: nat)
    ensures n <= |s| && AllDigits(s[..n])
    ensures n < |s| ==> !IsDigit(s[n])
  {
    if s == "" || !IsDigit(s[0]) then 0 else 1 + DigitRun(s[1..])
  }

  /** fmt.Sscanf(s, "%d", &x) without leading white space: an optional sign and the longest run of
      digits; whatever follows the run is ignored. */
  function Scan(s: string): Option<int> {
    var signed := s != "" && (s[0] == '-' || s[0] == '+');
    var rest := if signed then s[1..] else s;
    var digits := rest[..DigitRun(rest)];
    if digits == "" then None
    else
      var v: int := if signed && s[0] == '-' then 0 - Value(digits) else Value(digits);
      if -TWO63 <= v < TWO63 then Some(v) else None
  }

  /** The only spelling Format ever produces: no leading zero except in "0" itself. */
  predicate Canonical(s: string) {
    s != "" && AllDigits(s) && (s[0] == '0' ==> |s| == 1)
  }

  lemma {:induction false} ValueOfFormat(n: nat)
    ensures Value(Format(n)) == n
  {
    if n >= 10 {
      ValueOfFormat(n / 10);
      assert Format(n)[..|Format(n)| - 1] == Format(n / 10);
    }
  }

  lemma {:induction false} ValuePositive(s: string)
    requires Canonical(s) && s != "0"
    ensures Value(s) > 0
  {
    if |s| > 1 {
      ValuePositive(s[..|s| - 1]);
    } else {
      assert s[..0] == "";
      assert s == [s[0]] && s[0] != '0';
    }
  }

  lemma {:induction false} FormatOfValue(s: string)
    requires Canonical(s)
    ensures Format(Value(s)) == s
  {
    var front, last := s[..|s| - 1], s[|s| - 1];
    assert s == front + [last];
    if |s| == 1 {
      assert front == "";
    } else {
      assert front != "0";
      ValuePositive(front);
      FormatOfValue(front);
      assert Value(s) / 10 == Value(front);
    }
  }

  lemma {:induction false} FormatIsCanonical(n: nat)
    ensures Canonical(Format(n)) && (n > 0 ==> Format(n)[0] != '0')
  {
    if n >= 10 {
      FormatIsCanonical(n / 10);
    }
  }

  /** Printing and parsing are inverse exactly on the spellings Format produces. */
  lemma CanonicalExactly(s: string)
    ensures Canonical(s) <==> (s != "" && AllDigits(s) && Format(Value(s)) == s)
  {
    if Canonical(s) {
      FormatOfValue(s);
    } else if s != "" && AllDigits(s) {
      FormatIsCanonical(Value(s));
    }
  }

  function Pow10(i: nat): nat {
    if i == 0 then 1 else 10 * Pow10(i - 1)
  }

  /** A printed number has as many digits as it needs to base 10. */
  lemma {:induction false} FormatWidth(n: nat)
    ensures n < Pow10(|Format(n)|) && (n > 0 ==> Pow10(|Format(n)| - 1) <= n)
  {
    if n >= 10 {
      FormatWidth(n / 10);
      var w := |Format(n / 10)|;
      assert Pow10(w) == 10 * Pow10(w - 1);
    } else {
      assert Pow10(1) == 10;
    }
  }

  lemma FormatInjective(a: nat, b: nat)
    requires Format(a) == Format(b)
    ensures a == b
  {
    ValueOfFormat(a);
    ValueOfFormat(b);
  }

  lemma {:induction false} DigitRunOfDigits(s: string)
    requires AllDigits(s)
    ensures DigitRun(s) == |s|
  {
    if s != "" {
      DigitRunOfDigits(s[1..]);
    }
  }

  /** Every number the engine persists is read back unchanged by each of the three parsers,
      exactly within that parser's range. */
  lemma PrintParse(n: nat)
    ensures ParseUint(Format(n)) == if n < TWO64 then Some(n) else None
    ensures Atoi(Format(n)) == if n < TWO63 then Some(n) else None
    ensures Scan(Format(n)) == if n < TWO63 then Some(n) else None
  {
    ValueOfFormat(n);
    var s := Format(n);
    DigitRunOfDigits(s);
    assert s[..|s|] == s;
    assert IsDigit(s[0]);
  }

  lemma PrintParseInt(i: int)
    requires -TWO63 <= i < TWO63
    ensures Atoi(FormatInt(i)) == Some(i)
  {
    var n: nat := if i < 0 then -i else i;
    PrintParse(n);
    ValueOfFormat(n);
    var s := FormatInt(i);
    if i < 0 {
      assert s[1..] == Format(n);
    } else {
      assert IsDigit(s[0]);
    }
  }

  // ---------------------------------------------------------------- what the parsers accept

  function Zeros(z: nat): string {
    seq(z, _ => '0')
  }

  /** s spells v in decimal, with any number of leading zeros. */
  ghost predicate Spells(s: string, v: nat) {
    exists z: nat :: s == Zeros(z) + Format(v)
  }

  lemma {:induction false} LeadingZero(s: string)
    requires AllDigits(s)
    ensures AllDigits("0" + s) && Value("0" + s) == Value(s)
  {
    var all := "0" + s;
    if s == "" {
      assert all[..0] == "";
    } else {
      var i := |s| - 1;
      LeadingZero(s[..i]);
      assert all[..i + 1] == "0" + s[..i];
    }
  }

  lemma {:induction false} LeadingZeros(z: nat, v: nat)
    ensures AllDigits(Zeros(z) + Format(v)) && Value(Zeros(z) + Format(v)) == v
  {
    if z == 0 {
      assert Zeros(0) + Format(v) == Format(v);
      ValueOfFormat(v);
    } else {
      LeadingZeros(z - 1, v);
      LeadingZero(Zeros(z - 1) + Format(v));
      assert Zeros(z) + Format(v) == "0" + (Zeros(z - 1) + Format(v));
    }
  }

  lemma {:induction false} Stripped(s: string)
    requires s != "" && AllDigits(s)
    ensures Spells(s, Value(s))
  {
    if s[0] == '0' && |s| > 1 {
      var rest := s[1..];
      Stripped(rest);
      var z: nat :| rest == Zeros(z) + Format(Value(rest));
      LeadingZero(rest);
      assert s == "0" + rest;
      assert s == Zeros(z + 1) + Format(Value(s));
    } else {
      FormatOfValue(s);
      assert s == Zeros(0) + Format(Value(s));
    }
  }

  /** Digits have the value v exactly when they spell it. */
  lemma ValueExactly(s: string, v: nat)
    ensures s != "" && AllDigits(s) && Value(s) == v <==> Spells(s, v)
  {
    if s != "" && AllDigits(s) {
      Stripped(s);
    }
    if z: nat :| s == Zeros(z) + Format(v) {
      LeadingZeros(z, v);
    }
  }

  /** ParseUint reads v exactly from what spells it, when it fits 64 bits. */
  lemma ParseUintExactly(s: string, v: nat)
    ensures ParseUint(s) == Some(v) <==> v < TWO64 && Spells(s, v)
  {
    ValueExactly(s, v);
  }

  ghost predicate SpellsInt(s: string, v: int) {
    || (v >= 0 && (Spells(s, v) || (s != "" && s[0] == '+' && Spells(s[1..], v))))
    || (v <= 0 && s != "" && s[0] == '-' && Spells(s[1..], -v))
  }

  /** Atoi reads v exactly from what spells it with at most one sign, when it fits 64 bits. */
  lemma AtoiExactly(s: string, v: int)
    ensures Atoi(s) == Some(v) <==> -TWO63 <= v < TWO63 && SpellsInt(s, v)
  {
    if v >= 0 {
      ValueExactly(s, v);
    }
    if s != "" {
      var magnitude: nat := if v < 0 then -v else v;
      ValueExactly(s[1..], magnitude);
    }
    hide Value, Spells;
  }

  /** The length of the sign and the digits at the front of s. */
  function Front(s: string): (n: nat)
    ensures n <= |s|
  {
    var signed := s != "" && (s[0] == '-' || s[0] == '+');
    if signed then 1 + DigitRun(s[1..]) else DigitRun(s)
  }

  lemma {:induction false} RunUnique(s: string, m: nat)
    requires m <= |s| && AllDigits(s[..m]) && (m < |s| ==> !IsDigit(s[m]))
    ensures m == DigitRun(s)
  {
    if m > 0 {
      assert s[..m][0] == s[0];
      assert s[..m][1..] == s[1..][..m - 1];
      RunUnique(s[1..], m - 1);
    }
  }

  lemma ScanIsAtoi(s: string)
    ensures Scan(s) == Atoi(s[..Front(s)]) && (Front(s) < |s| ==> !IsDigit(s[Front(s)]))
  {
    hide Value;
    var n := Front(s);
    if s != "" && (s[0] == '-' || s[0] == '+') {
      assert s[..n][1..] == s[1..][..n - 1];
    } else if n > 0 {
      assert s[..n][0] == s[0];
    }
  }

  lemma FrontUnique(s: string, n: nat)
    requires n <= |s| && Atoi(s[..n]).Some? && (n < |s| ==> !IsDigit(s[n]))
    ensures n == Front(s)
  {
    hide Value;
    var t := s[..n];
    assert t[0] == s[0];
    if s[0] == '-' || s[0] == '+' {
      assert t[1..] == s[1..][..n - 1];
      RunUnique(s[1..], n - 1);
    } else {
      RunUnique(s, n);
    }
  }

  /** Sscanf reads what Atoi reads from the front of s, up to the first character that is not a digit. */
  lemma ScanExactly(s: string, v: int)
    ensures Scan(s) == Some(v) <==> exists n: nat :: n <= |s| && Atoi(s[..n]) == Some(v) && (n < |s| ==> !IsDigit(s[n]))
  {
    ScanIsAtoi(s);
    if n: nat :| n <= |s| && Atoi(s[..n]) == Some(v) && (n < |s| ==> !IsDigit(s[n])) {
      FrontUnique(s, n);
    }
    hide Scan, Atoi;
  }
}
