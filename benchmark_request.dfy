/**
 * One latency probe: issue a request whose path carries the probe's GUID, collect the
 * router's two envelopes for it from the channel, and derive the latency breakdown.
 *
 * checkMessage and the arithmetic of Do are pure and are the functions CheckMessage and
 * Breakdown. grabMessages and Do change state and are methods of the class
 * BenchmarkRequest, proved equal to the functions Grab (its receive loop against Take) and
 * DoSpec.
 */
module Request {
  import opened Common
  import opened GoStrings
  import opened GoTime
  import opened Events
  import opened Clock
  import opened ResponseTime
  import opened Response

  // ---------------------------------------------------------------------------
  // checkMessage

  /** The text of an envelope that is searched for the GUID. */
  function ToCheck(e: Envelope): string {
    match e.event
    case HttpStartStopEvent(h) => h.uri
    case LogMessageEvent(l) => l.message
    case OtherEvent(_) => ""
  }

  /** checkMessage: searches the envelope's text for the GUID. */
  function CheckMessage(guid: string, e: Envelope): bool {
    Contains(ToCheck(e), guid)
  }

  /**
   * An envelope belongs to the probe exactly when the GUID occurs in the URI of its
   * HttpStartStop or the text of its LogMessage; an envelope of another type has no text
   * and matches only the empty GUID.
   */
  lemma CheckMessageMeaning(guid: string, e: Envelope)
    ensures CheckMessage(guid, e) <==> match e.event
      case HttpStartStopEvent(h) => IsSubstring(guid, h.uri)
      case LogMessageEvent(l) => IsSubstring(guid, l.message)
      case OtherEvent(_) => guid == ""
  {
    ContainsIsSubstring(ToCheck(e), guid);
    EmptyHasOnlyEmptySubstring(guid);
  }

  function Matches(guid: string): Envelope -> bool {
    e => CheckMessage(guid, e)
  }

  /** The envelopes of `s` that belong to the probe, in arrival order. */
  function Matching(guid: string, s: seq<Envelope>): seq<Envelope> {
    Filter(s, Matches(guid))
  }

  lemma MatchingCons(guid: string, s: seq<Envelope>)
    requires s != []
    ensures Matching(guid, s) == (if CheckMessage(guid, s[0]) then [s[0]] else []) + Matching(guid, s[1..])
  {
  }

  // ---------------------------------------------------------------------------
  // grabMessages, first loop: receive until two envelopes have matched

  datatype Taken = Taken(kept: seq<Envelope>, rest: seq<Envelope>)

  /**
   * Receiving from `s` until `k` envelopes have matched: the matching envelopes kept and
   * what is left in the channel. Running out of envelopes is the deadline firing.
   */
  function Take(guid: string, s: seq<Envelope>, k: nat): Taken
    decreases |s|
  {
    if k == 0 then Taken([], s)
    else if s == [] then Taken([], [])
    else if CheckMessage(guid, s[0]) then
      var t := Take(guid, s[1..], k - 1);
      Taken([s[0]] + t.kept, t.rest)
    else Take(guid, s[1..], k)
  }

  /** What is kept is the first `k` matching envelopes (all of them when fewer arrive). */
  lemma {:induction false} TakeKeepsFirstMatches(guid: string, s: seq<Envelope>, k: nat)
    ensures Take(guid, s, k).kept == Matching(guid, s)[..Min(k, |Matching(guid, s)|)]
    decreases |s|
  {
    if k > 0 && s != [] {
      MatchingCons(guid, s);
      var m' := Matching(guid, s[1..]);
      if CheckMessage(guid, s[0]) {
        TakeKeepsFirstMatches(guid, s[1..], k - 1);
        assert ([s[0]] + m')[..Min(k, 1 + |m'|)] == [s[0]] + m'[..Min(k - 1, |m'|)];
      } else {
        TakeKeepsFirstMatches(guid, s[1..], k);
        assert Matching(guid, s) == m';
      }
    }
  }

  /** What is left in the channel is a suffix of it. */
  lemma {:induction false} TakeRestIsSuffix(guid: string, s: seq<Envelope>, k: nat)
    ensures var t := Take(guid, s, k);
      |t.rest| <= |s| && t.rest == s[|s| - |t.rest|..]
    decreases |s|
  {
    if k > 0 && s != [] {
      var k' := if CheckMessage(guid, s[0]) then k - 1 else k;
      TakeRestIsSuffix(guid, s[1..], k');
      var r := Take(guid, s[1..], k').rest;
      assert s[1..][|s[1..]| - |r|..] == s[|s| - |r|..];
    }
  }

  lemma MatchingPrefixCons(guid: string, s: seq<Envelope>, n: nat)
    requires 1 <= n <= |s|
    ensures Matching(guid, s[..n]) == (if CheckMessage(guid, s[0]) then [s[0]] else []) + Matching(guid, s[1..][..n - 1])
  {
    assert s[..n][0] == s[0] && s[..n][1..] == s[1..][..n - 1];
    MatchingCons(guid, s[..n]);
  }

  /** The kept envelopes are the matching envelopes of the consumed prefix. */
  lemma {:induction false} TakeKeepsMatchesOfPrefix(guid: string, s: seq<Envelope>, k: nat)
    ensures |Take(guid, s, k).rest| <= |s|
    ensures Take(guid, s, k).kept == Matching(guid, s[..|s| - |Take(guid, s, k).rest|])
    decreases |s|
  {
    TakeRestIsSuffix(guid, s, k);
    if k == 0 {
      assert s[..0] == [];
    } else if s != [] {
      var k' := if CheckMessage(guid, s[0]) then k - 1 else k;
      TakeKeepsMatchesOfPrefix(guid, s[1..], k');
      TakeRestIsSuffix(guid, s[1..], k');
      var t' := Take(guid, s[1..], k');
      var n' := |s[1..]| - |t'.rest|;
      MatchingPrefixCons(guid, s, n' + 1);
    }
  }

  /**
   * At most `k` envelopes are kept; the whole channel is drained when fewer match, and
   * when `k` match the last envelope consumed is the k-th match, so nothing after it is read.
   */
  lemma {:induction false} TakeStopsAtKthMatch(guid: string, s: seq<Envelope>, k: nat)
    ensures var t := Take(guid, s, k); var n := |s| - |t.rest|;
      && |t.kept| <= k
      && (|t.kept| < k ==> t.rest == [])
      && (|t.kept| == k > 0 ==> 0 < n <= |s| && CheckMessage(guid, s[n - 1]))
    decreases |s|
  {
    TakeRestIsSuffix(guid, s, k);
    if k > 0 && s != [] {
      var k' := if CheckMessage(guid, s[0]) then k - 1 else k;
      TakeStopsAtKthMatch(guid, s[1..], k');
      var n' := |s[1..]| - |Take(guid, s[1..], k').rest|;
      if n' > 0 {
        assert s[1..][n' - 1] == s[n' + 1 - 1];
      }
    }
  }

  /** Receiving consumes a prefix of the channel and leaves the rest in place. */
  lemma TakeConsumesPrefix(guid: string, s: seq<Envelope>, k: nat)
    ensures var t := Take(guid, s, k); var n := |s| - |t.rest|;
      && |t.rest| <= |s| && t.rest == s[n..] && t.kept == Matching(guid, s[..n])
      && |t.kept| <= k
      && (|t.kept| < k ==> t.rest == [])
      && (|t.kept| == k > 0 ==> n > 0 && CheckMessage(guid, s[n - 1]))
  {
    TakeRestIsSuffix(guid, s, k);
    TakeKeepsMatchesOfPrefix(guid, s, k);
    TakeStopsAtKthMatch(guid, s, k);
  }

  /** Every kept envelope belongs to the probe. */
  lemma KeptEnvelopesMatch(guid: string, s: seq<Envelope>, k: nat)
    ensures forall i :: 0 <= i < |Take(guid, s, k).kept| ==> CheckMessage(guid, Take(guid, s, k).kept[i])
  {
    TakeKeepsFirstMatches(guid, s, k);
    FilterSound(s, Matches(guid));
  }

  // ---------------------------------------------------------------------------
  // grabMessages, second loop: route the kept envelopes into the two slots

  /** The position of the first envelope of another type, or the length when there is none. */
  function FirstInvalid(msgs: seq<Envelope>): (n: nat)
    ensures n <= |msgs|
    ensures forall i :: 0 <= i < n ==> !msgs[i].event.OtherEvent?
    ensures n < |msgs| ==> msgs[n].event.OtherEvent?
  {
    if msgs == [] then 0
    else if msgs[0].event.OtherEvent? then 0
    else 1 + FirstInvalid(msgs[1..])
  }

  /** The HttpStartStop slot after writing each HttpStartStop of `msgs` into it, starting from `slot`. */
  function LastStartStop(msgs: seq<Envelope>, slot: Option<HttpStartStop>): Option<HttpStartStop>
    decreases |msgs|
  {
    if msgs == [] then slot
    else match msgs[|msgs| - 1].event
      case HttpStartStopEvent(h) => Some(h)
      case _ => LastStartStop(msgs[..|msgs| - 1], slot)
  }

  /** The LogMessage slot after writing each LogMessage of `msgs` into it, starting from `slot`. */
  function LastLogMessage(msgs: seq<Envelope>, slot: Option<LogMessage>): Option<LogMessage>
    decreases |msgs|
  {
    if msgs == [] then slot
    else match msgs[|msgs| - 1].event
      case LogMessageEvent(l) => Some(l)
      case _ => LastLogMessage(msgs[..|msgs| - 1], slot)
  }

  /** With no HttpStartStop among `msgs` the slot keeps its value. */
  lemma {:induction false} LastStartStopNone(msgs: seq<Envelope>, slot: Option<HttpStartStop>)
    requires forall i :: 0 <= i < |msgs| ==> !msgs[i].event.HttpStartStopEvent?
    ensures LastStartStop(msgs, slot) == slot
    decreases |msgs|
  {
    if msgs != [] {
      var init := msgs[..|msgs| - 1];
      assert forall i :: 0 <= i < |init| ==> init[i] == msgs[i];
      LastStartStopNone(init, slot);
    }
  }

  /** Last wins: the slot holds the HttpStartStop at `i` when no later envelope is one. */
  lemma {:induction false} LastStartStopAt(msgs: seq<Envelope>, slot: Option<HttpStartStop>, i: nat)
    requires i < |msgs| && msgs[i].event.HttpStartStopEvent?
    requires forall j :: i < j < |msgs| ==> !msgs[j].event.HttpStartStopEvent?
    ensures LastStartStop(msgs, slot) == Some(msgs[i].event.httpStartStop)
    decreases |msgs|
  {
    if i < |msgs| - 1 {
      var init := msgs[..|msgs| - 1];
      assert forall j :: 0 <= j < |init| ==> init[j] == msgs[j];
      LastStartStopAt(init, slot, i);
    }
  }

  /** With no LogMessage among `msgs` the slot keeps its value. */
  lemma {:induction false} LastLogMessageNone(msgs: seq<Envelope>, slot: Option<LogMessage>)
    requires forall i :: 0 <= i < |msgs| ==> !msgs[i].event.LogMessageEvent?
    ensures LastLogMessage(msgs, slot) == slot
    decreases |msgs|
  {
    if msgs != [] {
      var init := msgs[..|msgs| - 1];
      assert forall i :: 0 <= i < |init| ==> init[i] == msgs[i];
      LastLogMessageNone(init, slot);
    }
  }

  /** Last wins: the slot holds the LogMessage at `i` when no later envelope is one. */
  lemma {:induction false} LastLogMessageAt(msgs: seq<Envelope>, slot: Option<LogMessage>, i: nat)
    requires i < |msgs| && msgs[i].event.LogMessageEvent?
    requires forall j :: i < j < |msgs| ==> !msgs[j].event.LogMessageEvent?
    ensures LastLogMessage(msgs, slot) == Some(msgs[i].event.logMessage)
    decreases |msgs|
  {
    if i < |msgs| - 1 {
      var init := msgs[..|msgs| - 1];
      assert forall j :: 0 <= j < |init| ==> init[j] == msgs[j];
      LastLogMessageAt(init, slot, i);
    }
  }

  /** Routing one more envelope of `msgs` writes it into its own slot and leaves the other alone. */
  lemma RouteStep(msgs: seq<Envelope>, i: nat, hs: Option<HttpStartStop>, lm: Option<LogMessage>)
    requires i < |msgs|
    ensures LastStartStop(msgs[..i + 1], hs) ==
      if msgs[i].event.HttpStartStopEvent? then Some(msgs[i].event.httpStartStop) else LastStartStop(msgs[..i], hs)
    ensures LastLogMessage(msgs[..i + 1], lm) ==
      if msgs[i].event.LogMessageEvent? then Some(msgs[i].event.logMessage) else LastLogMessage(msgs[..i], lm)
  {
    assert msgs[..i + 1][..i] == msgs[..i];
  }

  // ---------------------------------------------------------------------------
  // grabMessages as a whole

  datatype Slots = Slots(httpStartStop: Option<HttpStartStop>, logMessage: Option<LogMessage>)

  /** The error grabMessages returns, the slots it leaves and what remains in the channel. */
  datatype GrabResult = GrabResult(err: Option<string>, slots: Slots, rest: seq<Envelope>)

  const TIMEOUT_ERROR: string := "timed out getting messages for request: "
  const INVALID_TYPE_ERROR: string := "got invalid msg type: "

  /** grabMessages, from the channel's pending envelopes and the slots' values before the call. */
  function Grab(guid: string, pending: seq<Envelope>, slots: Slots): GrabResult {
    var t := Take(guid, pending, 2);
    if |t.kept| < 2 then GrabResult(Some(TIMEOUT_ERROR + guid), slots, t.rest)
    else
      var n := FirstInvalid(t.kept);
      var routed := Slots(LastStartStop(t.kept[..n], slots.httpStartStop), LastLogMessage(t.kept[..n], slots.logMessage));
      GrabResult(if n < |t.kept| then Some(INVALID_TYPE_ERROR + guid) else None, routed, t.rest)
  }

  /** One receive of the first loop keeps the loop's account of Take exact. */
  lemma TakeStep(guid: string, all: seq<Envelope>, messages: seq<Envelope>, e: Envelope, after: seq<Envelope>)
    requires |messages| < 2
    requires Take(guid, all, 2) == Taken(messages + Take(guid, [e] + after, 2 - |messages|).kept,
                                         Take(guid, [e] + after, 2 - |messages|).rest)
    ensures var m := if CheckMessage(guid, e) then messages + [e] else messages;
      Take(guid, all, 2) == Taken(m + Take(guid, after, 2 - |m|).kept, Take(guid, after, 2 - |m|).rest)
  {
    assert ([e] + after)[0] == e && ([e] + after)[1..] == after;
    if CheckMessage(guid, e) {
      var t := Take(guid, after, 2 - |messages| - 1);
      assert messages + ([e] + t.kept) == messages + [e] + t.kept;
    }
  }

  /** The first loop meeting the deadline is grabMessages' timeout. */
  lemma GrabTimeout(guid: string, all: seq<Envelope>, messages: seq<Envelope>, slots: Slots)
    requires |messages| < 2
    requires Take(guid, all, 2) == Taken(messages + Take(guid, [], 2 - |messages|).kept, Take(guid, [], 2 - |messages|).rest)
    ensures Grab(guid, all, slots) == GrabResult(Some(TIMEOUT_ERROR + guid), slots, [])
  {
    assert messages + [] == messages;
  }

  /** Once two envelopes have matched, grabMessages routes exactly those two. */
  lemma GrabRoutes(guid: string, all: seq<Envelope>, messages: seq<Envelope>, rest: seq<Envelope>, slots: Slots)
    requires |messages| == 2 && Take(guid, all, 2) == Taken(messages + Take(guid, rest, 0).kept, Take(guid, rest, 0).rest)
    ensures var n := FirstInvalid(messages);
      Grab(guid, all, slots) == GrabResult(if n < |messages| then Some(INVALID_TYPE_ERROR + guid) else None,
        Slots(LastStartStop(messages[..n], slots.httpStartStop), LastLogMessage(messages[..n], slots.logMessage)), rest)
  {
    assert messages + [] == messages;
  }

  /** With a non-empty GUID no envelope of another type is ever kept. */
  lemma NoInvalidTypeKept(guid: string, pending: seq<Envelope>)
    requires guid != ""
    ensures FirstInvalid(Take(guid, pending, 2).kept) == |Take(guid, pending, 2).kept|
  {
    var kept := Take(guid, pending, 2).kept;
    KeptEnvelopesMatch(guid, pending, 2);
    assert forall i :: 0 <= i < |kept| ==> !kept[i].event.OtherEvent?;
  }

  /**
   * With a non-empty GUID, grabMessages fails exactly when fewer than two envelopes match;
   * then it has drained the channel, left both slots as they were, and its error names the
   * GUID. The "invalid msg type" error cannot occur.
   */
  lemma GrabFailsIffFewerThanTwoMatch(guid: string, pending: seq<Envelope>, slots: Slots)
    requires guid != ""
    ensures Grab(guid, pending, slots).err.Some? <==> |Matching(guid, pending)| < 2
    ensures |Matching(guid, pending)| < 2 ==> Grab(guid, pending, slots) == GrabResult(Some(TIMEOUT_ERROR + guid), slots, [])
    ensures Grab(guid, pending, slots).err.Some? ==> IsSubstring(guid, Grab(guid, pending, slots).err.value)
  {
    TakeKeepsFirstMatches(guid, pending, 2);
    TakeConsumesPrefix(guid, pending, 2);
    NoInvalidTypeKept(guid, pending);
    assert TIMEOUT_ERROR + guid == TIMEOUT_ERROR + guid + "";
    SubstringOfConcat(TIMEOUT_ERROR, guid, "");
  }

  /** One HttpStartStop and one LogMessage among the first two matches, in either order, fill both slots. */
  lemma GrabOneOfEach(guid: string, pending: seq<Envelope>, slots: Slots, h: HttpStartStop, l: LogMessage)
    requires guid != "" && |Matching(guid, pending)| >= 2
    requires var m := Matching(guid, pending);
      || (m[0].event == HttpStartStopEvent(h) && m[1].event == LogMessageEvent(l))
      || (m[0].event == LogMessageEvent(l) && m[1].event == HttpStartStopEvent(h))
    ensures Grab(guid, pending, slots).err == None
    ensures Grab(guid, pending, slots).slots == Slots(Some(h), Some(l))
  {
    TakeKeepsFirstMatches(guid, pending, 2);
    NoInvalidTypeKept(guid, pending);
    var kept := Take(guid, pending, 2).kept;
    assert kept[..2] == kept;
    if kept[0].event.HttpStartStopEvent? {
      LastStartStopAt(kept, slots.httpStartStop, 0);
      LastLogMessageAt(kept, slots.logMessage, 1);
    } else {
      LastStartStopAt(kept, slots.httpStartStop, 1);
      LastLogMessageAt(kept, slots.logMessage, 0);
    }
  }

  /** Two matching HttpStartStops: the second overwrites the first and the LogMessage slot is untouched. */
  lemma GrabTwoStartStops(guid: string, pending: seq<Envelope>, slots: Slots, h1: HttpStartStop, h2: HttpStartStop)
    requires guid != "" && |Matching(guid, pending)| >= 2
    requires Matching(guid, pending)[0].event == HttpStartStopEvent(h1)
    requires Matching(guid, pending)[1].event == HttpStartStopEvent(h2)
    ensures Grab(guid, pending, slots).err == None
    ensures Grab(guid, pending, slots).slots == Slots(Some(h2), slots.logMessage)
  {
    TakeKeepsFirstMatches(guid, pending, 2);
    NoInvalidTypeKept(guid, pending);
    var kept := Take(guid, pending, 2).kept;
    assert kept[..2] == kept;
    LastStartStopAt(kept, slots.httpStartStop, 1);
    LastLogMessageNone(kept, slots.logMessage);
  }

  /** Two matching LogMessages: the second overwrites the first and the HttpStartStop slot is untouched. */
  lemma GrabTwoLogMessages(guid: string, pending: seq<Envelope>, slots: Slots, l1: LogMessage, l2: LogMessage)
    requires guid != "" && |Matching(guid, pending)| >= 2
    requires Matching(guid, pending)[0].event == LogMessageEvent(l1)
    requires Matching(guid, pending)[1].event == LogMessageEvent(l2)
    ensures Grab(guid, pending, slots).err == None
    ensures Grab(guid, pending, slots).slots == Slots(slots.httpStartStop, Some(l2))
  {
    TakeKeepsFirstMatches(guid, pending, 2);
    NoInvalidTypeKept(guid, pending);
    var kept := Take(guid, pending, 2).kept;
    assert kept[..2] == kept;
    LastStartStopNone(kept, slots.httpStartStop);
    LastLogMessageAt(kept, slots.logMessage, 1);
  }

  // ---------------------------------------------------------------------------
  // Do: the latency breakdown

  /** Why Do panics: dereferencing the unset HttpStartStop's timestamps, or indexing a missing submatch. */
  datatype PanicCause = NilStartStopTimestamp | MissingResponseTimeSubmatch

  /** Do's two results `(BenchmarkResponse, error)`, or a runtime panic. */
  datatype Outcome = Returned(response: BenchmarkResponse, err: Option<string>) | Panicked(cause: PanicCause)

  /** The bytes of the LogMessage slot; an unset slot has a nil message. */
  function LogText(slot: Option<LogMessage>): string {
    match slot
    case Some(l) => l.message
    case None => ""
  }

  /** The arithmetic of Do once grabMessages has succeeded. */
  function Breakdown(timeForRequest: int, respCode: int, timestamp: int, slots: Slots): Outcome {
    match slots.httpStartStop
    case None => Panicked(NilStartStopTimestamp)
    case Some(h) =>
      var timeInApp := h.stopTimestamp - h.startTimestamp;
      match RespTime(LogText(slots.logMessage))
      case None => Panicked(MissingResponseTimeSubmatch)
      case Some(respTime) =>
        Returned(BenchmarkResponse(timeForRequest, timeInApp, respTime - timeInApp, timeForRequest - respTime, timestamp, respCode), None)
  }

  /**
   * The breakdown exists exactly when the HttpStartStop slot is set and the log text has a
   * `response_time:` submatch; its three parts are signed, unclamped, and add up to the
   * measured round trip.
   */
  lemma BreakdownAddsUp(timeForRequest: int, respCode: int, timestamp: int, slots: Slots)
    ensures Breakdown(timeForRequest, respCode, timestamp, slots).Returned?
            <==> slots.httpStartStop.Some? && RespTime(LogText(slots.logMessage)).Some?
    ensures var o := Breakdown(timeForRequest, respCode, timestamp, slots);
      o.Returned? ==>
        var r := o.response;
        var h := slots.httpStartStop.value;
        var respTime := RespTime(LogText(slots.logMessage)).value;
        && o.err == None
        && r.timeInApp == h.stopTimestamp - h.startTimestamp
        && r.timeInRouter + r.timeInApp == respTime
        && r.restOfTime + respTime == timeForRequest
        && r.timeInApp + r.timeInRouter + r.restOfTime == r.totalRoundrip == timeForRequest
        && r.timestamp == timestamp && r.responseCode == respCode
  {
  }

  /** Both slots set and a response time in the log text: the breakdown is fully determined. */
  lemma BreakdownOfBoth(timeForRequest: int, respCode: int, timestamp: int, h: HttpStartStop, l: LogMessage, respTime: int)
    requires RespTime(l.message) == Some(respTime)
    ensures var timeInApp := h.stopTimestamp - h.startTimestamp;
      Breakdown(timeForRequest, respCode, timestamp, Slots(Some(h), Some(l))) == Returned(BenchmarkResponse(
        timeForRequest, timeInApp, respTime - timeInApp, timeForRequest - respTime, timestamp, respCode), None)
  {
    assert LogText(Some(l)) == l.message;
  }

  /**
   * An unparsable token is not an error: with both slots set and a log line whose leftmost
   * token does not parse, respTime is 0, so the router is credited with minus the app's
   * time and the whole round trip counts as the rest, and Do returns no error.
   */
  lemma MalformedTokenBreakdown(timeForRequest: int, respCode: int, timestamp: int, h: HttpStartStop, l: LogMessage,
                                p: string, w: string, rest: string)
    requires l.message == p + KEY + w + " " + rest
    requires |w| > 0 && NoSpaces(w) && ParseSeconds(w) == None
    requires forall j :: 0 <= j < |p| ==> !MatchAt(p + KEY + w + " " + rest, j)
    ensures var timeInApp := h.stopTimestamp - h.startTimestamp;
      Breakdown(timeForRequest, respCode, timestamp, Slots(Some(h), Some(l))) == Returned(BenchmarkResponse(
        timeForRequest, timeInApp, -timeInApp, timeForRequest, timestamp, respCode), None)
  {
    MalformedTokenIsZero(p, w, rest);
    BreakdownOfBoth(timeForRequest, respCode, timestamp, h, l, 0);
  }

  /** The server's answer to a GET: its status code and how far it advances the clock. */
  datatype HttpResponse = HttpResponse(statusCode: int, elapse: int)

  /** The probed application: what it answers for each URL. */
  type HttpServer = string -> HttpResponse

  /** The URL makeRequest fetches: the application URL, a slash, the GUID and ".html". */
  function RequestUrl(appUrl: string, guid: string): (url: string)
    ensures HasPrefix(url, appUrl + "/") && IsSubstring(guid, url)
    ensures |url| == |appUrl| + |guid| + 6 && url[|url| - 5..] == ".html"
    ensures url[|appUrl| + 1..|appUrl| + 1 + |guid|] == guid
  {
    SubstringOfConcat(appUrl + "/", guid, ".html");
    assert (appUrl + "/" + guid + ".html")[..|appUrl + "/"|] == appUrl + "/";
    assert (appUrl + "/" + guid + ".html")[|appUrl| + 1..|appUrl| + 1 + |guid|] == guid;
    appUrl + "/" + guid + ".html"
  }

  /** The router's record of the probe's own request always belongs to the probe. */
  lemma RequestUrlMatches(appUrl: string, guid: string, origin: string, start: int, stop: int)
    ensures CheckMessage(guid, Envelope(origin, HttpStartStopEvent(HttpStartStop(RequestUrl(appUrl, guid), start, stop))))
  {
    CheckMessageMeaning(guid, Envelope(origin, HttpStartStopEvent(HttpStartStop(RequestUrl(appUrl, guid), start, stop))));
  }

  /**
   * Do, from the clock's time, the channel's pending envelopes and the slots before the
   * call: the issue time is read before the request, the round trip is what the request
   * took, and collection starts only after the request has completed.
   */
  function DoSpec(guid: string, appUrl: string, server: HttpServer, now: int, pending: seq<Envelope>, slots: Slots): Outcome {
    var resp := server(RequestUrl(appUrl, guid));
    var g := Grab(guid, pending, slots);
    if g.err.Some? then Returned(ZERO_RESPONSE, g.err)
    else Breakdown(resp.elapse, resp.statusCode, now, g.slots)
  }

  /** Once grabMessages has succeeded, Do is the breakdown of the request's round trip over the routed slots. */
  lemma DoSpecWhenGrabbed(guid: string, appUrl: string, server: HttpServer, now: int, pending: seq<Envelope>, slots: Slots, routed: Slots)
    requires Grab(guid, pending, slots).err == None && Grab(guid, pending, slots).slots == routed
    ensures DoSpec(guid, appUrl, server, now, pending, slots)
            == Breakdown(server(RequestUrl(appUrl, guid)).elapse, server(RequestUrl(appUrl, guid)).statusCode, now, routed)
  {
  }

  /** Fewer than two matching envelopes: Do returns the zero response and the timeout error. */
  lemma DoTimesOut(guid: string, appUrl: string, server: HttpServer, now: int, pending: seq<Envelope>, slots: Slots)
    requires guid != "" && |Matching(guid, pending)| < 2
    ensures DoSpec(guid, appUrl, server, now, pending, slots) == Returned(ZERO_RESPONSE, Some(TIMEOUT_ERROR + guid))
  {
    GrabFailsIffFewerThanTwoMatch(guid, pending, slots);
  }

  /** Whatever Do returns without an error is a breakdown of the request's own round trip. */
  lemma DoResultAddsUp(guid: string, appUrl: string, server: HttpServer, now: int, pending: seq<Envelope>, slots: Slots)
    ensures var o := DoSpec(guid, appUrl, server, now, pending, slots);
      var resp := server(RequestUrl(appUrl, guid));
      o.Returned? && o.err == None ==>
        && o.response.timeInApp + o.response.timeInRouter + o.response.restOfTime == o.response.totalRoundrip
        && o.response.totalRoundrip == resp.elapse
        && o.response.responseCode == resp.statusCode
        && o.response.timestamp == now
  {
    var g := Grab(guid, pending, slots);
    if g.err.None? {
      BreakdownAddsUp(server(RequestUrl(appUrl, guid)).elapse, server(RequestUrl(appUrl, guid)).statusCode, now, g.slots);
    }
  }

  /**
   * One matching HttpStartStop and one matching LogMessage, in either order: Do's result
   * is the breakdown of the request's round trip over exactly those two (BreakdownOfBoth
   * gives its values).
   */
  lemma DoOneOfEach(guid: string, appUrl: string, server: HttpServer, now: int, pending: seq<Envelope>, slots: Slots,
                    h: HttpStartStop, l: LogMessage)
    requires guid != "" && |Matching(guid, pending)| >= 2
    requires var m := Matching(guid, pending);
      || (m[0].event == HttpStartStopEvent(h) && m[1].event == LogMessageEvent(l))
      || (m[0].event == LogMessageEvent(l) && m[1].event == HttpStartStopEvent(h))
    ensures var resp := server(RequestUrl(appUrl, guid));
      DoSpec(guid, appUrl, server, now, pending, slots) == Breakdown(resp.elapse, resp.statusCode, now, Slots(Some(h), Some(l)))
  {
    GrabOneOfEach(guid, pending, slots, h, l);
    DoSpecWhenGrabbed(guid, appUrl, server, now, pending, slots, Slots(Some(h), Some(l)));
  }

  /** Two matching LogMessages into fresh slots: the unset HttpStartStop is dereferenced and Do panics. */
  lemma DoTwoLogMessagesPanics(guid: string, appUrl: string, server: HttpServer, now: int, pending: seq<Envelope>,
                               l1: LogMessage, l2: LogMessage)
    requires guid != "" && |Matching(guid, pending)| >= 2
    requires Matching(guid, pending)[0].event == LogMessageEvent(l1)
    requires Matching(guid, pending)[1].event == LogMessageEvent(l2)
    ensures DoSpec(guid, appUrl, server, now, pending, Slots(None, None)) == Panicked(NilStartStopTimestamp)
  {
    GrabTwoLogMessages(guid, pending, Slots(None, None), l1, l2);
    DoSpecWhenGrabbed(guid, appUrl, server, now, pending, Slots(None, None), Slots(None, Some(l2)));
  }

  /** Two matching HttpStartStops into fresh slots: the nil log text has no submatch and Do panics. */
  lemma DoTwoStartStopsPanics(guid: string, appUrl: string, server: HttpServer, now: int, pending: seq<Envelope>,
                              h1: HttpStartStop, h2: HttpStartStop)
    requires guid != "" && |Matching(guid, pending)| >= 2
    requires Matching(guid, pending)[0].event == HttpStartStopEvent(h1)
    requires Matching(guid, pending)[1].event == HttpStartStopEvent(h2)
    ensures DoSpec(guid, appUrl, server, now, pending, Slots(None, None)) == Panicked(MissingResponseTimeSubmatch)
  {
    GrabTwoStartStops(guid, pending, Slots(None, None), h1, h2);
    DoSpecWhenGrabbed(guid, appUrl, server, now, pending, Slots(None, None), Slots(Some(h2), None));
    assert Submatch("") == None;
  }

  // ---------------------------------------------------------------------------
  // The probe object

  class BenchmarkRequest {
    const guid: string
    var httpStartStop: Option<HttpStartStop>
    var logMessage: Option<LogMessage>

    const appUrl: string
    const ch: EnvelopeChannel
    const clock: FakeClock
    /** The deadline's length; the channel's pending envelopes are the ones delivered within it. */
    const timeout: int

    /** NewBenchmarkRequest, with the freshly generated GUID passed in. */
    constructor (guid: string, appUrl: string, ch: EnvelopeChannel, clock: FakeClock, timeout: int)
      ensures this.guid == guid && this.appUrl == appUrl && this.ch == ch && this.clock == clock && this.timeout == timeout
      ensures httpStartStop == None && logMessage == None
    {
      this.guid := guid;
      this.appUrl := appUrl;
      this.ch := ch;
      this.clock := clock;
      this.timeout := timeout;
      httpStartStop := None;
      logMessage := None;
    }

    method GrabMessages() returns (err: Option<string>)
      modifies this, ch
      ensures var g := Grab(guid, old(ch.pending), Slots(old(httpStartStop), old(logMessage)));
        && err == g.err
        && httpStartStop == g.slots.httpStartStop && logMessage == g.slots.logMessage
        && ch.pending == g.rest
    {
      ghost var all := ch.pending;
      var messages: seq<Envelope> := [];
      while |messages| < 2
        invariant |messages| <= 2
        invariant Take(guid, all, 2) == Taken(messages + Take(guid, ch.pending, 2 - |messages|).kept,
                                              Take(guid, ch.pending, 2 - |messages|).rest)
        invariant httpStartStop == old(httpStartStop) && logMessage == old(logMessage)
        decreases |ch.pending|
      {
        if ch.pending == [] {
          // the deadline fires first
          GrabTimeout(guid, all, messages, Slots(httpStartStop, logMessage));
          return Some(TIMEOUT_ERROR + guid);
        }
        var message := ch.Receive();
        TakeStep(guid, all, messages, message, ch.pending);
        if CheckMessage(guid, message) {
          messages := messages + [message];
        }
      }
      GrabRoutes(guid, all, messages, ch.pending, Slots(httpStartStop, logMessage));
      err := Route(messages);
    }

    /**
     * grabMessages' second loop: writes each envelope into the slot of its type and stops
     * at the first envelope of another type.
     */
    method Route(messages: seq<Envelope>) returns (err: Option<string>)
      modifies this
      ensures var n := FirstInvalid(messages);
        && err == (if n < |messages| then Some(INVALID_TYPE_ERROR + guid) else None)
        && httpStartStop == LastStartStop(messages[..n], old(httpStartStop))
        && logMessage == LastLogMessage(messages[..n], old(logMessage))
    {
      var i := 0;
      while i < |messages|
        invariant 0 <= i <= |messages| && i <= FirstInvalid(messages)
        invariant httpStartStop == LastStartStop(messages[..i], old(httpStartStop))
        invariant logMessage == LastLogMessage(messages[..i], old(logMessage))
      {
        RouteStep(messages, i, old(httpStartStop), old(logMessage));
        match messages[i].event {
          case HttpStartStopEvent(h) =>
            httpStartStop := Some(h);
          case LogMessageEvent(l) =>
            logMessage := Some(l);
          case OtherEvent(_) =>
            return Some(INVALID_TYPE_ERROR + guid);
        }
        i := i + 1;
      }
      assert messages[..i] == messages;
      return None;
    }

    method MakeRequest(server: HttpServer) returns (timeForRequest: int, respCode: int)
      modifies clock
      ensures var resp := server(RequestUrl(appUrl, guid));
        && clock.currentTime == old(clock.currentTime) + resp.elapse
        && timeForRequest == resp.elapse && respCode == resp.statusCode
    {
      var start := clock.Now();
      // http.Get: the server handles the request, and the time it takes passes on the clock
      var resp := server(RequestUrl(appUrl, guid));
      clock.Elapse(resp.elapse);
      timeForRequest := clock.Since(start);
      respCode := resp.statusCode;
    }

    method Do(server: HttpServer) returns (outcome: Outcome)
      modifies this, ch, clock
      ensures outcome == DoSpec(guid, appUrl, server, old(clock.currentTime), old(ch.pending), Slots(old(httpStartStop), old(logMessage)))
      ensures clock.currentTime == old(clock.currentTime) + server(RequestUrl(appUrl, guid)).elapse
      ensures var g := Grab(guid, old(ch.pending), Slots(old(httpStartStop), old(logMessage)));
        ch.pending == g.rest && httpStartStop == g.slots.httpStartStop && logMessage == g.slots.logMessage
    {
      var timestamp := clock.Now();
      var timeForRequest, respCode := MakeRequest(server);
      var err := GrabMessages();
      if err.Some? {
        return Returned(ZERO_RESPONSE, err);
      }
      outcome := Breakdown(timeForRequest, respCode, timestamp, Slots(httpStartStop, logMessage));
    }
  }
}
