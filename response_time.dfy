/**
 * Reading the router's sub-interval out of a log line: the first submatch of the
 * regular expression `response_time:([^ ]+)` and its value as a Go duration in seconds.
 */
module ResponseTime {
  import opened Common
  import opened GoStrings
  import opened GoTime

  const KEY: string := "response_time:"

  /** A match of `response_time:([^ ]+)` starts at `i`: the key, then at least one non-space. */
  predicate MatchAt(s: string, i: int) {
    0 <= i && i + |KEY| < |s| && s[i..i + |KEY|] == KEY && s[i + |KEY|] != ' '
  }

  predicate NoSpaces(w: string) {
    forall k :: 0 <= k < |w| ==> w[k] != ' '
  }

  /** The leftmost match start at or after `from`. */
  function FindFrom(s: string, from: nat): (r: Option<nat>)
    ensures r.Some? ==> from <= r.value && MatchAt(s, r.value)
    ensures r.Some? ==> forall j :: from <= j < r.value ==> !MatchAt(s, j)
    ensures r.None? ==> forall j :: from <= j ==> !MatchAt(s, j)
    decreases |s| - from
  {
    if from + |KEY| >= |s| then None
    else if MatchAt(s, from) then Some(from)
    else FindFrom(s, from + 1)
  }

  /** The longest run of non-space characters starting at `from` (the greedy `[^ ]+`). */
  function Run(s: string, from: nat): (r: string)
    requires from <= |s|
    ensures from + |r| <= |s| && r == s[from..from + |r|]
    ensures NoSpaces(r)
    ensures from + |r| == |s| || s[from + |r|] == ' '
    decreases |s| - from
  {
    if from < |s| && s[from] != ' ' then [s[from]] + Run(s, from + 1) else []
  }

  /**
   * `w` is the submatch of the match at `i`: no match starts before `i`, and `w` is the
   * whole non-space run after the key (the regexp is leftmost, and `[^ ]+` is greedy).
   */
  predicate LeftmostSubmatch(msg: string, i: int, w: string) {
    && MatchAt(msg, i) && (forall j :: 0 <= j < i ==> !MatchAt(msg, j))
    && var start := i + |KEY|;
    |w| >= 1 && start + |w| <= |msg| && w == msg[start..start + |w|]
    && NoSpaces(w) && (start + |w| == |msg| || msg[start + |w|] == ' ')
  }

  /**
   * regexp's FindSubmatch(...)[1]: present exactly when the pattern matches somewhere,
   * and then the submatch of the leftmost match.
   */
  function Submatch(msg: string): (r: Option<string>)
    ensures r.Some? <==> exists i :: MatchAt(msg, i)
    ensures r.Some? ==> exists i :: LeftmostSubmatch(msg, i, r.value)
  {
    match FindFrom(msg, 0)
    case Some(i) =>
      var w := Run(msg, i + |KEY|);
      assert w != [] by { assert msg[i + |KEY|] != ' '; }
      assert LeftmostSubmatch(msg, i, w);
      Some(w)
    case None => None
  }

  /** A run that is followed by a space is exactly the word in front of that space. */
  lemma RunOfWord(s: string, from: nat, w: string)
    requires from + |w| < |s| && s[from..from + |w|] == w && NoSpaces(w) && s[from + |w|] == ' '
    ensures Run(s, from) == w
  {
  }

  /** The position of the first '.', or the length when there is none. */
  function IndexOfDot(s: string): (n: nat)
    ensures n <= |s| && (forall k :: 0 <= k < n ==> s[k] != '.') && (n < |s| ==> s[n] == '.')
  {
    if s == [] then 0 else if s[0] == '.' then 0 else 1 + IndexOfDot(s[1..])
  }

  /** Unsigned decimal seconds `digits[.digits]` with at least one digit and at most nine after the dot, in nanoseconds. */
  function ParseUnsignedSeconds(b: string): Option<int> {
    var d := IndexOfDot(b);
    var whole := b[..d];
    var frac := if d < |b| then b[d + 1..] else "";
    if AllDigits(whole) && AllDigits(frac) && |whole| + |frac| > 0 && |frac| <= 9 then
      AllDigitsConcat(frac, Zeros(9 - |frac|));
      Some(DigitsValue(whole) * NANOS_PER_SECOND + DigitsValue(frac + Zeros(9 - |frac|)))
    else None
  }

  /** A leading sign, if any: whether it is '-', and the text after it. */
  function SplitSign(t: string): (bool, string) {
    if |t| > 0 && (t[0] == '-' || t[0] == '+') then (t[0] == '-', t[1..]) else (false, t)
  }

  function Negated(neg: bool, r: Option<int>): Option<int> {
    match r
    case Some(v) => Some(if neg then -v else v)
    case None => None
  }

  /**
   * time.ParseDuration(t + "s") for a token `t` of optionally signed decimal seconds: one
   * leading sign is stripped, the rest is parsed, and a '-' negates it. None is a parse error.
   */
  function ParseSeconds(t: string): Option<int> {
    var (neg, body) := SplitSign(t);
    Negated(neg, ParseUnsignedSeconds(body))
  }

  /**
   * The `respTime` of a log line: None when the pattern does not match (indexing the
   * missing submatch panics); otherwise the parsed duration, or 0 when parsing fails
   * (the parse error is discarded).
   */
  function RespTime(msg: string): Option<int> {
    match Submatch(msg)
    case None => None
    case Some(tok) => Some(ParseSeconds(tok).GetOr(0))
  }

  /** Nine decimal digits with leading zeros. */
  function Pad9(r: nat): (s: string)
    requires r < NANOS_PER_SECOND
    ensures |s| == 9 && AllDigits(s) && DigitsValue(s) == r
  {
    var d := NatDigits(r);
    assert Pow10(9) == NANOS_PER_SECOND;
    NatDigitsLength(r, 9);
    NatDigitsValue(r);
    LeadingZerosValue(9 - |d|, d);
    Zeros(9 - |d|) + d
  }

  /** `seconds.nanoseconds` for a non-negative duration. */
  function UnsignedSeconds(a: nat): string {
    NatDigits(a / NANOS_PER_SECOND) + "." + Pad9(a % NANOS_PER_SECOND)
  }

  /** A duration written as `[-]seconds.nanoseconds`, the form a router could log. */
  function FormatSeconds(ns: int): string {
    if ns < 0 then "-" + UnsignedSeconds(-ns) else UnsignedSeconds(ns)
  }

  /** The unsigned text is the whole-second digits, a dot, and nine fraction digits. */
  lemma UnsignedShape(a: nat)
    ensures var w := NatDigits(a / NANOS_PER_SECOND); var f := Pad9(a % NANOS_PER_SECOND); var u := UnsignedSeconds(a);
      && IndexOfDot(u) == |w| && u[..|w|] == w && u[|w| + 1..] == f
  {
    var w := NatDigits(a / NANOS_PER_SECOND);
    var f := Pad9(a % NANOS_PER_SECOND);
    var u := w + "." + f;
    assert u[|w|] == '.';
    forall k | 0 <= k < |w| ensures u[k] == w[k] && u[k] != '.' {
      assert IsDigit(w[k]);
    }
    assert u[..|w|] == w;
    assert u[|w| + 1..] == f;
  }

  lemma UnsignedNoSpaces(a: nat)
    ensures NoSpaces(UnsignedSeconds(a)) && IsDigit(UnsignedSeconds(a)[0])
  {
    var w := NatDigits(a / NANOS_PER_SECOND);
    var f := Pad9(a % NANOS_PER_SECOND);
    var u := w + "." + f;
    forall k | 0 <= k < |u| ensures u[k] != ' ' {
      if k < |w| {
        assert IsDigit(w[k]);
      } else if k > |w| {
        assert u[k] == f[k - |w| - 1];
        assert IsDigit(f[k - |w| - 1]);
      }
    }
    assert IsDigit(w[0]);
  }

  lemma UnsignedRoundTrip(a: nat)
    ensures ParseUnsignedSeconds(UnsignedSeconds(a)) == Some(a)
  {
    var w := NatDigits(a / NANOS_PER_SECOND);
    var f := Pad9(a % NANOS_PER_SECOND);
    UnsignedShape(a);
    NatDigitsValue(a / NANOS_PER_SECOND);
    assert f + Zeros(0) == f;
    assert DigitsValue(w) * NANOS_PER_SECOND + DigitsValue(f) == a;
  }

  lemma SplitNegative(u: string)
    ensures SplitSign("-" + u) == (true, u)
  {
    assert ("-" + u)[1..] == u;
  }

  /** A '-' in front negates what the rest parses to. */
  lemma NegatedParse(u: string, v: int)
    requires ParseUnsignedSeconds(u) == Some(v)
    ensures ParseSeconds("-" + u) == Some(-v)
  {
    SplitNegative(u);
    assert ParseSeconds("-" + u) == Negated(true, ParseUnsignedSeconds(u));
  }

  lemma NegatedNoSpaces(u: string)
    requires NoSpaces(u)
    ensures NoSpaces("-" + u)
  {
    forall k | 0 <= k < |"-" + u| ensures ("-" + u)[k] != ' ' {
      if k > 0 { assert ("-" + u)[k] == u[k - 1]; }
    }
  }

  /**
   * An unsigned text that starts with a digit parses to its value as it is, and to the
   * negated value behind a '-'.
   */
  lemma SignedParse(u: string, v: nat)
    requires ParseUnsignedSeconds(u) == Some(v) && NoSpaces(u) && |u| > 0 && IsDigit(u[0])
    ensures ParseSeconds(u) == Some(v) && ParseSeconds("-" + u) == Some(-(v as int))
    ensures NoSpaces("-" + u)
  {
    assert u[0] != '-' && u[0] != '+';
    NegatedParse(u, v);
    NegatedNoSpaces(u);
  }

  /** Every formatted duration parses back to itself. */
  lemma ParseFormatRoundTrip(ns: int)
    ensures ParseSeconds(FormatSeconds(ns)) == Some(ns)
    ensures NoSpaces(FormatSeconds(ns)) && |FormatSeconds(ns)| > 0
  {
    var a: nat := if ns < 0 then -ns else ns;
    var u := UnsignedSeconds(a);
    UnsignedRoundTrip(a);
    UnsignedNoSpaces(a);
    SignedParse(u, a);
  }

  /**
   * When no match starts inside `p`, the submatch of `p`, the key, a word and a space is
   * that word: the leftmost match is the one right after `p`, and the greedy run stops at the space.
   */
  lemma SubmatchAfter(p: string, w: string, rest: string)
    requires |w| > 0 && NoSpaces(w)
    requires forall j :: 0 <= j < |p| ==> !MatchAt(p + KEY + w + " " + rest, j)
    ensures Submatch(p + KEY + w + " " + rest) == Some(w)
  {
    var msg := p + KEY + w + " " + rest;
    var start := |p| + |KEY|;
    assert msg[|p|..start] == KEY;
    assert msg[start] == w[0];
    assert MatchAt(msg, |p|);
    assert FindFrom(msg, 0) == Some(|p|);
    assert msg[start..start + |w|] == w;
    RunOfWord(msg, start, w);
  }

  /** A line that starts with the key and a word gives that word as the submatch. */
  lemma SubmatchOfLeadingWord(w: string, rest: string)
    requires |w| > 0 && NoSpaces(w)
    ensures Submatch(KEY + w + " " + rest) == Some(w)
  {
    assert "" + KEY + w + " " + rest == KEY + w + " " + rest;
    SubmatchAfter("", w, rest);
  }

  /**
   * A log line whose leftmost `response_time:` token is a formatted duration yields that
   * duration, whatever text without a match comes before it.
   */
  lemma ResponseTimeOfFormattedLine(p: string, ns: int, rest: string)
    requires forall j :: 0 <= j < |p| ==> !MatchAt(p + KEY + FormatSeconds(ns) + " " + rest, j)
    ensures RespTime(p + KEY + FormatSeconds(ns) + " " + rest) == Some(ns)
  {
    ParseFormatRoundTrip(ns);
    SubmatchAfter(p, FormatSeconds(ns), rest);
  }

  /**
   * A token that does not start with a digit, a '.' or a sign is not a duration: its
   * whole-second part holds a non-digit.
   */
  lemma NonNumericTokenFails(w: string)
    requires |w| > 0 && !IsDigit(w[0]) && w[0] != '.' && w[0] != '-' && w[0] != '+'
    ensures ParseSeconds(w) == None
  {
    assert SplitSign(w) == (false, w);
    assert IndexOfDot(w) > 0;
  }

  /** Tokens that start like a number can still fail: a unit in the token, or a second dot. */
  lemma DigitLedTokensFail()
    ensures ParseSeconds("1x") == None && ParseSeconds("0.5.5") == None
  {
    assert IndexOfDot("1x") == 2 && "1x"[..2] == "1x" && !IsDigit("1x"[1]);
    assert IndexOfDot("0.5.5") == 1 && "0.5.5"[2..] == "5.5" && !IsDigit("5.5"[1]);
  }

  /**
   * The parse error is discarded: a line whose leftmost token does not parse has a
   * response time of 0, not an error.
   */
  lemma MalformedTokenIsZero(p: string, w: string, rest: string)
    requires |w| > 0 && NoSpaces(w) && ParseSeconds(w) == None
    requires forall j :: 0 <= j < |p| ==> !MatchAt(p + KEY + w + " " + rest, j)
    ensures RespTime(p + KEY + w + " " + rest) == Some(0)
  {
    SubmatchAfter(p, w, rest);
  }

  /** The router line `response_time:1x /a` has a response time of 0. */
  lemma UnitInTokenIsZero()
    ensures RespTime(KEY + "1x" + " " + "/a") == Some(0)
  {
    DigitLedTokensFail();
    SubmatchOfLeadingWord("1x", "/a");
  }
}
