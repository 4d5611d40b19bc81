/**
 * The parts of Go's `strings` and `strconv` packages the probe relies on.
 * A Go string (and a `[]byte` converted with `string(...)`) is a sequence of bytes;
 * here every `char` stands for one byte.
 */
module GoStrings {
  import opened Common

  /** strings.HasPrefix */
  predicate HasPrefix(s: string, prefix: string) {
    |prefix| <= |s| && s[..|prefix|] == prefix
  }

  /** `sub` occurs in `s` at some position. */
  ghost predicate IsSubstring(sub: string, s: string) {
    exists i :: 0 <= i <= |s| && HasPrefix(s[i..], sub)
  }

  /** strings.Contains, by scanning the start positions from left to right. */
  function Contains(s: string, sub: string): bool
    decreases |s|
  {
    HasPrefix(s, sub) || (s != [] && Contains(s[1..], sub))
  }

  lemma {:induction false} ContainsIsSubstring(s: string, sub: string)
    ensures Contains(s, sub) <==> IsSubstring(sub, s)
    decreases |s|
  {
    if HasPrefix(s, sub) {
      assert s[0..] == s;
    } else if s != [] {
      ContainsIsSubstring(s[1..], sub);
      if Contains(s[1..], sub) {
        var i :| 0 <= i <= |s[1..]| && HasPrefix(s[1..][i..], sub);
        assert s[1..][i..] == s[i + 1..];
      }
      if IsSubstring(sub, s) {
        var i :| 0 <= i <= |s| && HasPrefix(s[i..], sub);
        assert i != 0 by { assert s[0..] == s; }
        assert s[1..][i - 1..] == s[i..];
      }
    }
  }

  /** Only the empty string occurs in the empty string. */
  lemma EmptyHasOnlyEmptySubstring(sub: string)
    ensures IsSubstring(sub, "") <==> sub == ""
  {
    if sub == "" {
      assert HasPrefix(""[0..], sub);
    }
  }

  /** The middle part of a concatenation occurs in it. */
  lemma SubstringOfConcat(a: string, b: string, c: string)
    ensures IsSubstring(b, a + b + c)
  {
    var s := a + b + c;
    assert s[|a|..][..|b|] == b;
    assert HasPrefix(s[|a|..], b);
  }

  /** A string never occurs in a shorter one. */
  lemma ShorterHasNoSubstring(sub: string, s: string)
    requires |s| < |sub|
    ensures !IsSubstring(sub, s)
  {
  }

  predicate IsDigit(c: char) { '0' <= c <= '9' }

  predicate AllDigits(s: string) {
    forall i :: 0 <= i < |s| ==> IsDigit(s[i])
  }

  function Pow10(k: nat): (r: nat)
    ensures r >= 1
  {
    if k == 0 then 1 else 10 * Pow10(k - 1)
  }

  /** The value of a string of decimal digits, most significant first. */
  function DigitsValue(s: string): nat
    requires AllDigits(s)
    decreases |s|
  {
    if s == [] then 0 else DigitsValue(s[..|s| - 1]) * 10 + (s[|s| - 1] as int - '0' as int)
  }

  function DigitChar(d: int): (c: char)
    requires 0 <= d < 10
    ensures IsDigit(c) && c as int - '0' as int == d
  {
    ('0' as int + d) as char
  }

  /** The shortest decimal spelling of `n`. */
  function NatDigits(n: nat): (s: string)
    ensures |s| >= 1 && AllDigits(s)
    decreases n
  {
    if n < 10 then [DigitChar(n)] else NatDigits(n / 10) + [DigitChar(n % 10)]
  }

  /** strconv.Itoa: decimal with a leading '-' for negative numbers. */
  function Itoa(n: int): string {
    if n < 0 then "-" + NatDigits(-n) else NatDigits(n)
  }

  /** A decimal integer with an optional leading '-'; the inverse of Itoa. */
  function ParseInt(s: string): Option<int> {
    if |s| > 1 && s[0] == '-' && AllDigits(s[1..]) then Some(0 - DigitsValue(s[1..]))
    else if |s| > 0 && AllDigits(s) then Some(DigitsValue(s))
    else None
  }

  lemma {:induction false} NatDigitsValue(n: nat)
    ensures DigitsValue(NatDigits(n)) == n
    decreases n
  {
    if n >= 10 {
      var d := NatDigits(n / 10);
      var s := d + [DigitChar(n % 10)];
      assert s[..|s| - 1] == d;
      NatDigitsValue(n / 10);
    }
  }

  /** Reading back what strconv.Itoa writes gives the number again. */
  lemma ItoaNegative(n: int)
    requires n < 0
    ensures ParseInt(Itoa(n)) == Some(n)
  {
    var d := NatDigits(-n);
    NatDigitsValue(-n);
    assert ("-" + d)[1..] == d;
  }

  lemma ItoaNonNegative(n: nat)
    ensures ParseInt(Itoa(n)) == Some(n)
  {
    assert IsDigit(NatDigits(n)[0]);
    NatDigitsValue(n);
  }

  /** ParseInt inverts Itoa. */
  lemma ItoaRoundTrip(n: int)
    ensures ParseInt(Itoa(n)) == Some(n)
  {
    if n < 0 {
      ItoaNegative(n);
    } else {
      ItoaNonNegative(n);
    }
  }

  lemma AllDigitsConcat(a: string, b: string)
    requires AllDigits(a) && AllDigits(b)
    ensures AllDigits(a + b)
  {
    forall i | 0 <= i < |a + b| ensures IsDigit((a + b)[i]) {
      if i >= |a| { assert (a + b)[i] == b[i - |a|]; }
    }
  }

  function Zeros(k: nat): (s: string)
    ensures |s| == k && AllDigits(s)
  {
    if k == 0 then [] else Zeros(k - 1) + ['0']
  }

  /** Leading zeros do not change the value. */
  lemma {:induction false} LeadingZerosValue(k: nat, d: string)
    requires AllDigits(d)
    ensures AllDigits(Zeros(k) + d) && DigitsValue(Zeros(k) + d) == DigitsValue(d)
    decreases |d|
  {
    var z := Zeros(k);
    AllDigitsConcat(z, d);
    if d == [] {
      assert z + d == z;
      ZerosValue(k);
    } else {
      var d' := d[..|d| - 1];
      assert (z + d)[..|z + d| - 1] == z + d';
      assert (z + d)[|z + d| - 1] == d[|d| - 1];
      LeadingZerosValue(k, d');
    }
  }

  lemma {:induction false} ZerosValue(k: nat)
    ensures DigitsValue(Zeros(k)) == 0
  {
    if k > 0 {
      var s := Zeros(k);
      assert s[..|s| - 1] == Zeros(k - 1);
      ZerosValue(k - 1);
    }
  }

  lemma {:induction false} NatDigitsLength(n: nat, k: nat)
    requires 1 <= k && n < Pow10(k)
    ensures |NatDigits(n)| <= k
    decreases k
  {
    if n >= 10 {
      assert k > 1;
      assert n / 10 < Pow10(k - 1);
      NatDigitsLength(n / 10, k - 1);
    }
  }
}
