/**
 * The probe's test scenarios: a fake clock, a two-slot channel, a request with a 100ms
 * deadline, and a server handler that answers and emits envelopes. Each scenario is run
 * through BenchmarkRequest.Do and its outcome is stated in full.
 */
module RequestScenarios {
  import opened Common
  import opened GoStrings
  import opened GoTime
  import opened Events
  import opened Clock
  import opened ResponseTime
  import opened Response
  import opened Request

  predicate IsLowerHex(c: char) {
    '0' <= c <= '9' || 'a' <= c <= 'f'
  }

  /** The canonical text form of a UUID: 36 characters, lower-case hex with dashes at 8, 13, 18 and 23. */
  predicate IsUuidString(guid: string) {
    && |guid| == 36
    && forall i :: 0 <= i < 36 ==> if i == 8 || i == 13 || i == 18 || i == 23 then guid[i] == '-' else IsLowerHex(guid[i])
  }

  const TIMEOUT: int := 100 * MILLISECOND
  const STATUS_OK: int := 200

  /** A handler that answers every request with `status` after `elapse` on the clock. */
  function Handler(status: int, elapse: int): HttpServer {
    url => HttpResponse(status, elapse)
  }

  /** The test's HttpStartStop: zero-time start and a stop 20ms later. */
  function StartStop(uri: string): Envelope {
    Envelope("", HttpStartStopEvent(HttpStartStop(uri, ZERO_TIME, ZERO_TIME + 20 * MILLISECOND)))
  }

  function Log(text: string): Envelope {
    Envelope("", LogMessageEvent(LogMessage(text)))
  }

  /** The router's log line for the probe's own request. */
  function ProbeLogLine(guid: string): string {
    "response_time:0.03 /" + guid + ".html"
  }

  lemma NineDigitFraction()
    ensures DigitsValue("030000000") == 30 * MILLISECOND
  {
    assert DigitsValue("0") == 0;
    assert "03"[..1] == "0";
    assert DigitsValue("03") == 3;
    assert "030"[..2] == "03";
    assert DigitsValue("030") == 30;
    assert "0300"[..3] == "030";
    assert DigitsValue("0300") == 300;
    assert "03000"[..4] == "0300";
    assert DigitsValue("03000") == 3000;
    assert "030000"[..5] == "03000";
    assert DigitsValue("030000") == 30000;
    assert "0300000"[..6] == "030000";
    assert DigitsValue("0300000") == 300000;
    assert "03000000"[..7] == "0300000";
    assert DigitsValue("03000000") == 3000000;
    assert "030000000"[..8] == "03000000";
    assert DigitsValue("030000000") == 30000000;
  }

  /** "0.03" seconds is 30ms. */
  lemma ThirtyMilliseconds()
    ensures ParseSeconds("0.03") == Some(30 * MILLISECOND)
  {
    assert IndexOfDot("0.03") == 1;
    assert "0.03"[..1] == "0" && "0.03"[2..] == "03";
    assert "03" + Zeros(7) == "030000000";
    NineDigitFraction();
  }

  /** The log line reports 0.03 seconds, that is 30ms. */
  lemma ProbeLogLineResponseTime(guid: string)
    ensures RespTime(ProbeLogLine(guid)) == Some(30 * MILLISECOND)
  {
    var rest := "/" + guid + ".html";
    assert ProbeLogLine(guid) == KEY + "0.03" + " " + rest;
    SubmatchOfLeadingWord("0.03", rest);
    ThirtyMilliseconds();
  }

  /** Both of the probe's own envelopes belong to it. */
  lemma ProbeEnvelopesMatch(guid: string, serverUrl: string)
    ensures CheckMessage(guid, StartStop(RequestUrl(serverUrl, guid)))
    ensures CheckMessage(guid, Log(ProbeLogLine(guid)))
  {
    RequestUrlMatches(serverUrl, guid, "", ZERO_TIME, ZERO_TIME + 20 * MILLISECOND);
    SubstringOfConcat("response_time:0.03 /", guid, ".html");
    CheckMessageMeaning(guid, Log(ProbeLogLine(guid)));
  }

  /** A text shorter than the GUID does not match. */
  lemma ShortTextDoesNotMatch(guid: string, e: Envelope)
    requires |ToCheck(e)| < |guid|
    ensures !CheckMessage(guid, e)
  {
    ContainsIsSubstring(ToCheck(e), guid);
    ShorterHasNoSubstring(guid, ToCheck(e));
  }

  lemma MatchingPair(guid: string, a: Envelope, b: Envelope)
    ensures Matching(guid, [a, b]) == (if CheckMessage(guid, a) then [a] else []) + (if CheckMessage(guid, b) then [b] else [])
  {
    MatchingCons(guid, [a, b]);
    assert [a, b][1..] == [b];
    MatchingCons(guid, [b]);
    assert [b][1..] == [];
  }

  /** "everything works": the handler takes 50ms and reports both envelopes. */
  method EverythingWorks(guid: string, serverUrl: string) returns (outcome: Outcome)
    requires IsUuidString(guid)
    ensures outcome == Returned(BenchmarkResponse(
      50 * MILLISECOND, 20 * MILLISECOND, 10 * MILLISECOND, 20 * MILLISECOND, UnixTime(123456789, 0), STATUS_OK), None)
  {
    var clock := new FakeClock();
    var ch := new EnvelopeChannel();
    var br := new BenchmarkRequest(guid, serverUrl, ch, clock, TIMEOUT);
    // The handler's envelopes are read only after the request completes, so they are queued here.
    var hss := StartStop(RequestUrl(serverUrl, guid));
    var log := Log(ProbeLogLine(guid));
    ch.Send(hss);
    ch.Send(log);
    assert ch.pending == [hss, log];
    outcome := br.Do(Handler(STATUS_OK, 50 * MILLISECOND));

    ProbeEnvelopesMatch(guid, serverUrl);
    MatchingPair(guid, hss, log);
    ProbeLogLineResponseTime(guid);
    DoOneOfEach(guid, serverUrl, Handler(STATUS_OK, 50 * MILLISECOND), UnixTime(123456789, 0), [hss, log], Slots(None, None),
                hss.event.httpStartStop, log.event.logMessage);
    BreakdownOfBoth(50 * MILLISECOND, STATUS_OK, UnixTime(123456789, 0), hss.event.httpStartStop, log.event.logMessage, 30 * MILLISECOND);
  }

  /** "messages are not delivered": nothing arrives before the deadline. */
  method MessagesNotDelivered(guid: string, serverUrl: string) returns (outcome: Outcome)
    requires IsUuidString(guid)
    ensures outcome == Returned(ZERO_RESPONSE, Some(TIMEOUT_ERROR + guid))
  {
    var clock := new FakeClock();
    var ch := new EnvelopeChannel();
    var br := new BenchmarkRequest(guid, serverUrl, ch, clock, TIMEOUT);
    outcome := br.Do(Handler(STATUS_OK, 0));

    DoTimesOut(guid, serverUrl, Handler(STATUS_OK, 0), UnixTime(123456789, 0), [], Slots(None, None));
  }

  /** "HttpStartStop is not received": only a log line for another path. */
  method StartStopNotReceived(guid: string, serverUrl: string) returns (outcome: Outcome)
    requires IsUuidString(guid)
    ensures outcome == Returned(ZERO_RESPONSE, Some(TIMEOUT_ERROR + guid))
  {
    var clock := new FakeClock();
    var ch := new EnvelopeChannel();
    var br := new BenchmarkRequest(guid, serverUrl, ch, clock, TIMEOUT);
    var log := Log("response_time:0.03 /potato");
    ch.Send(log);
    assert ch.pending == [log];
    outcome := br.Do(Handler(STATUS_OK, 0));

    MatchingCons(guid, [log]);
    assert [log][1..] == [];
    DoTimesOut(guid, serverUrl, Handler(STATUS_OK, 0), UnixTime(123456789, 0), [log], Slots(None, None));
  }

  /** "LogMessage is not received": only an HttpStartStop for another URI. */
  method LogMessageNotReceived(guid: string, serverUrl: string) returns (outcome: Outcome)
    requires IsUuidString(guid)
    ensures outcome == Returned(ZERO_RESPONSE, Some(TIMEOUT_ERROR + guid))
  {
    var clock := new FakeClock();
    var ch := new EnvelopeChannel();
    var br := new BenchmarkRequest(guid, serverUrl, ch, clock, TIMEOUT);
    var hss := StartStop("notyourapp");
    ch.Send(hss);
    assert ch.pending == [hss];
    outcome := br.Do(Handler(STATUS_OK, 0));

    MatchingCons(guid, [hss]);
    assert [hss][1..] == [];
    DoTimesOut(guid, serverUrl, Handler(STATUS_OK, 0), UnixTime(123456789, 0), [hss], Slots(None, None));
  }

  /** "receiving non-matching HttpStartStop": the HttpStartStop's URI is the bare server URL. */
  method NonMatchingStartStop(guid: string, serverUrl: string) returns (outcome: Outcome)
    requires IsUuidString(guid) && !IsSubstring(guid, serverUrl)
    ensures outcome == Returned(ZERO_RESPONSE, Some(TIMEOUT_ERROR + guid))
  {
    var clock := new FakeClock();
    var ch := new EnvelopeChannel();
    var br := new BenchmarkRequest(guid, serverUrl, ch, clock, TIMEOUT);
    var hss := StartStop(serverUrl);
    var log := Log(ProbeLogLine(guid));
    ch.Send(hss);
    ch.Send(log);
    assert ch.pending == [hss, log];
    outcome := br.Do(Handler(STATUS_OK, 0));

    CheckMessageMeaning(guid, hss);
    MatchingPair(guid, hss, log);
    DoTimesOut(guid, serverUrl, Handler(STATUS_OK, 0), UnixTime(123456789, 0), [hss, log], Slots(None, None));
  }

  /** "receiving non-matching log message": the log line names another path. */
  method NonMatchingLogMessage(guid: string, serverUrl: string) returns (outcome: Outcome)
    requires IsUuidString(guid)
    ensures outcome == Returned(ZERO_RESPONSE, Some(TIMEOUT_ERROR + guid))
  {
    var clock := new FakeClock();
    var ch := new EnvelopeChannel();
    var br := new BenchmarkRequest(guid, serverUrl, ch, clock, TIMEOUT);
    var hss := StartStop(RequestUrl(serverUrl, guid));
    var log := Log("response_time:0.03 /potato.html");
    ch.Send(hss);
    ch.Send(log);
    assert ch.pending == [hss, log];
    outcome := br.Do(Handler(STATUS_OK, 0));

    ShortTextDoesNotMatch(guid, log);
    MatchingPair(guid, hss, log);
    DoTimesOut(guid, serverUrl, Handler(STATUS_OK, 0), UnixTime(123456789, 0), [hss, log], Slots(None, None));
  }
}
