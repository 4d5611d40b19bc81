# thoth latency probe — a Dafny model

thoth measures how long a Cloud Foundry application takes to answer through the router.
A probe (`BenchmarkRequest`) does three things:

1. It issues one HTTP request to `<appUrl>/<guid>.html`.
2. It collects, from the router's log stream, the two envelopes that carry its GUID: the router's `HttpStartStop` record and its access-log `LogMessage`.
3. It splits the measured round trip into three parts: time in the application, time in the router, and the rest.

`ToDatadog` turns the probe's result into a payload of four time series for Datadog. Sending that payload is done in `main.go`, which is not part of this model.

A separate goroutine turns the raw log stream into the router stream. It keeps only HttpStartStop and LogMessage envelopes whose origin starts with `gorouter`, in arrival order.

The model has these modules:

- `Common`: `Option` and a generic order-keeping `Filter`, with its laws.
- `GoStrings`: `strings.HasPrefix`, `strings.Contains`, `strconv.Itoa`, and a decimal reader that inverts `Itoa`.
- `GoTime`: `time.Time` and `time.Duration` as integer nanoseconds, and `Time.Unix()`.
- `Events`: the envelopes the probe reads, and the `EnvelopeChannel` class. The channel's `pending` sequence is what is delivered before the receiver's deadline fires, so an empty channel at a receive is the deadline.
- `Clock`: the tests' `FakeClock` class, the implementation of the `Clock` interface the probe is built with.
- `ResponseTime`: the `response_time:([^ ]+)` submatch and the subset of `time.ParseDuration` the router's token uses.
- `Response`: `BenchmarkResponse`, `ToDatadog`, and a decoder that reads a payload back.
- `Request`: `checkMessage`, `grabMessages` and `Do`.
  - `checkMessage` and the arithmetic at the end of `Do` are pure in the Go code, so they are functions: `CheckMessage` and `Breakdown`.
  - `grabMessages` and `Do` change state, so they are methods of the class `BenchmarkRequest`:
    - `GrabMessages` is proved equal to the function `Grab`. Its receive loop is proved against `Take`, and its routing loop is the method `Route`.
    - `Do` is proved equal to the function `DoSpec`.
- `Assistant`: the router filter, and the forwarding loop as a method.
- `RequestScenarios`: each `Do()` context of the test file. Each builds the clock, the channel and the request, queues the handler's envelopes, and calls `Do`. Its result is stated in full.

A panic in `Do` is modelled as an outcome, `Panicked`. There are two:

- the unset HttpStartStop slot's nil timestamps are dereferenced;
- the nil submatch of a log text without a `response_time:` token is indexed.

The code does not do what a latency probe might be expected to do in two places; the model follows the code:

- **Slot filling.** One might expect each slot to be filled once, with collection stopping when both are full. The code takes the first two matching envelopes of any type, then routes them last-wins. So two HttpStartStops leave the LogMessage slot unset.
- **Malformed telemetry is not a distinct error.** One might expect a token that does not parse to be reported as an error. Instead, a token that does not parse gives 0 nanoseconds, because the error is discarded: `MalformedTokenIsZero` and `MalformedTokenBreakdown` state this. A log text with no token panics.

`FakeClock.Now` is a function that reads the clock, so it cannot change it.

## Model

| member | source | states |
|---|---|---|
| Request.CheckMessageMeaning | benchmark/benchmark_request.go:97-107 | an envelope matches iff the GUID is a substring of its HttpStartStop URI or of its LogMessage text; any other type has empty text and matches only the empty GUID |
| GoStrings.ContainsIsSubstring | benchmark/benchmark_request.go:106 | the left-to-right `strings.Contains` scan is true iff the needle occurs at some position |
| Request.MatchingCons | benchmark/benchmark_request.go:75-77 | the matching envelopes of a non-empty stream are its head, when the head matches, followed by the matching envelopes of the tail |
| Request.TakeKeepsFirstMatches | benchmark/benchmark_request.go:72-81 | the first loop keeps exactly the first k matching envelopes in arrival order, or all of them when fewer arrive |
| Request.TakeRestIsSuffix | benchmark/benchmark_request.go:72-81 | what the receive loop leaves unread is a suffix of the channel |
| Request.MatchingPrefixCons | benchmark/benchmark_request.go:75-77 | the matching envelopes of a prefix split into its head and the prefix of the tail |
| Request.TakeKeepsMatchesOfPrefix | benchmark/benchmark_request.go:72-81 | the kept envelopes are precisely the matching envelopes of the consumed prefix; nothing that does not match is kept |
| Request.TakeStopsAtKthMatch | benchmark/benchmark_request.go:72-81 | at most k are kept; with fewer, the whole channel is drained (the deadline); with k, the last envelope read is the k-th match, so later input is not consumed |
| Request.TakeConsumesPrefix | benchmark/benchmark_request.go:72-81 | the loop consumes a prefix, leaves the rest in place, keeps that prefix's matches, and stops right after the second match |
| Request.KeptEnvelopesMatch | benchmark/benchmark_request.go:75-76 | every collected envelope contains the GUID |
| Request.FirstInvalid | benchmark/benchmark_request.go:83-91 | the index of the first collected envelope that is neither HttpStartStop nor LogMessage, where the routing loop returns |
| Request.LastStartStopNone | benchmark/benchmark_request.go:84-85 | without an HttpStartStop among the routed envelopes, that slot keeps its old value |
| Request.LastStartStopAt | benchmark/benchmark_request.go:84-85 | last wins: the slot holds the last HttpStartStop routed |
| Request.LastLogMessageNone | benchmark/benchmark_request.go:86-87 | without a LogMessage among the routed envelopes, that slot keeps its old value |
| Request.LastLogMessageAt | benchmark/benchmark_request.go:86-87 | last wins: the slot holds the last LogMessage routed |
| Request.RouteStep | benchmark/benchmark_request.go:83-92 | routing one more envelope writes its own slot and leaves the other slot alone |
| Request.TakeStep | benchmark/benchmark_request.go:73-77 | one receive, appending the envelope when it matches, keeps the loop's account of the first two matches exact |
| Request.GrabTimeout | benchmark/benchmark_request.go:78-79 | a deadline in the first loop returns the timeout error and leaves both slots unchanged and the channel drained |
| Request.GrabRoutes | benchmark/benchmark_request.go:72-94 | after two matches, grabMessages routes exactly those two and leaves the rest of the channel unread |
| Request.NoInvalidTypeKept | benchmark/benchmark_request.go:88-90 | with a non-empty GUID no envelope of another type is collected, so the invalid-type branch is unreachable |
| Request.GrabFailsIffFewerThanTwoMatch | benchmark/benchmark_request.go:68-95 | with a non-empty GUID grabMessages fails iff fewer than two envelopes match; then the error is the timeout error, it contains the GUID, and both slots are unchanged |
| Request.GrabOneOfEach | benchmark/benchmark_request.go:83-94 | one HttpStartStop and one LogMessage among the first two matches, in either order, fill both slots without error |
| Request.GrabTwoStartStops | benchmark/benchmark_request.go:83-94 | two matching HttpStartStops: the second overwrites the first and the LogMessage slot is untouched |
| Request.GrabTwoLogMessages | benchmark/benchmark_request.go:83-94 | two matching LogMessages: the second overwrites the first and the HttpStartStop slot is untouched |
| Request.BreakdownAddsUp | benchmark/benchmark_request.go:49-63 | Do returns a breakdown iff the HttpStartStop slot is set and the log text has a submatch; then timeInApp = stop - start, timeInRouter = respTime - timeInApp, restOfTime = total - respTime, the three add up to the round trip, and timestamp and status code are carried over |
| Request.BreakdownOfBoth | benchmark/benchmark_request.go:49-63 | both slots set and a response time in the log text: the breakdown's six fields are fully determined |
| Request.RequestUrl | benchmark/benchmark_request.go:111 | the URL is `appUrl`, a slash, the GUID as the segment right after it, then `.html`, and nothing else |
| Request.RequestUrlMatches | benchmark/benchmark_request.go:97-111 | the router's record of the probe's own request always matches the probe |
| Request.DoSpecWhenGrabbed | benchmark/benchmark_request.go:41-66 | once grabMessages succeeds, Do is the breakdown of the request's round trip over the routed slots |
| Request.DoTimesOut | benchmark/benchmark_request.go:44-46 | fewer than two matching envelopes: Do returns the zero response and the timeout error naming the GUID |
| Request.DoResultAddsUp | benchmark/benchmark_request.go:41-66 | any error-free result of Do adds up to the request's own round trip, carries its status code, and has the time read before the request as its timestamp |
| Request.DoOneOfEach | benchmark/benchmark_request.go:41-94 | one matching HttpStartStop and one matching LogMessage: Do's result is the breakdown over exactly those two |
| Request.DoTwoLogMessagesPanics | benchmark/benchmark_request.go:49 | two matching LogMessages into fresh slots: the unset HttpStartStop is dereferenced and Do panics |
| Request.DoTwoStartStopsPanics | benchmark/benchmark_request.go:50-52 | two matching HttpStartStops into fresh slots: the nil log text has no submatch and Do panics |
| Request.BenchmarkRequest.constructor | benchmark/benchmark_request.go:31-39 | a new probe holds its parameters and has both slots unset |
| Request.BenchmarkRequest.GrabMessages | benchmark/benchmark_request.go:68-95 | the two loops return Grab's error, write Grab's slots and leave Grab's rest in the channel |
| Request.BenchmarkRequest.Route | benchmark/benchmark_request.go:83-92 | the routing loop writes the last HttpStartStop and last LogMessage before the first invalid envelope, and fails exactly when there is one |
| Request.BenchmarkRequest.MakeRequest | benchmark/benchmark_request.go:109-113 | the round trip is the time the request advanced the clock, and the status code is the server's |
| Request.BenchmarkRequest.Do | benchmark/benchmark_request.go:41-66 | Do's outcome is DoSpec of the clock, channel and slots before the call, and the new clock, channel and slots are stated |
| ResponseTime.FindFrom | benchmark/benchmark_request.go:50-51 | the leftmost start of a match of `response_time:` followed by a non-space, at or after a position |
| ResponseTime.Run | benchmark/benchmark_request.go:50 | the greedy `[^ ]+`: the maximal run of non-space characters at a position |
| ResponseTime.Submatch | benchmark/benchmark_request.go:50-51 | FindSubmatch's first group is present iff the pattern matches somewhere, and is then the whole non-space run after the leftmost match |
| ResponseTime.RunOfWord | benchmark/benchmark_request.go:50 | a word followed by a space is exactly the greedy run |
| ResponseTime.UnsignedRoundTrip | benchmark/benchmark_request.go:52 | unsigned decimal seconds written with nine fraction digits parse back to the same nanoseconds |
| ResponseTime.NegatedParse | benchmark/benchmark_request.go:52 | a leading '-' negates the parsed duration |
| ResponseTime.SignedParse | benchmark/benchmark_request.go:52 | an unsigned token starting with a digit parses to its value as it is and to the negated value behind '-' |
| ResponseTime.ParseFormatRoundTrip | benchmark/benchmark_request.go:52 | every duration, including a negative one, written as `[-]seconds.nanoseconds` is a space-free token that parses back to itself |
| ResponseTime.SubmatchAfter | benchmark/benchmark_request.go:50-51 | when no match starts inside the text before `response_time:` and a word, the submatch is that word |
| ResponseTime.SubmatchOfLeadingWord | benchmark/benchmark_request.go:50-51 | a line starting with `response_time:` and a word yields that word as the submatch |
| ResponseTime.ResponseTimeOfFormattedLine | benchmark/benchmark_request.go:50-52 | a log line whose leftmost `response_time:` token is a formatted duration gives back that duration as respTime |
| ResponseTime.NonNumericTokenFails | benchmark/benchmark_request.go:52 | a token that starts with anything but a digit, a '.' or a sign does not parse |
| ResponseTime.DigitLedTokensFail | benchmark/benchmark_request.go:52 | tokens that start like a number but carry a unit (`1x`) or a second dot (`0.5.5`) do not parse |
| ResponseTime.MalformedTokenIsZero | benchmark/benchmark_request.go:50-52 | the parse error is discarded: a log line whose leftmost token does not parse has respTime 0, not an error |
| ResponseTime.UnitInTokenIsZero | benchmark/benchmark_request.go:50-52 | the line `response_time:1x /a` has respTime 0 |
| Request.MalformedTokenBreakdown | benchmark/benchmark_request.go:49-63 | both slots set and a leftmost token that does not parse: Do returns no error, timeInRouter is minus timeInApp, and restOfTime is the whole round trip |
| Response.ToDatadog | benchmark/benchmark_response.go:18-56 | a single key "series" with four entries in the order total_roundtrip, time_in_gorouter, time_in_app, rest_of_time, each prefixed `app_benchmarking.`, each with one point `[Timestamp.Unix(), value]`, and all sharing the tags `status:<code>`, `deployment:<name>` |
| Response.DatadogRoundTrip | benchmark/benchmark_response.go:18-56 | decoding the payload gives back the issue time in whole seconds, then TotalRoundrip, TimeInRouter, TimeInApp and RestOfTime in that order, the status code and the deployment name |
| Response.TestTimestampSeconds | benchmark/benchmark_response.go:29 | an issue time of time.Unix(123456789, 0) is reported as 123456789 in every series |
| GoStrings.ItoaRoundTrip | benchmark/benchmark_response.go:21 | the status tag's `strconv.Itoa` text reads back to the status code, negative codes included |
| GoTime.UnixTime | benchmark/benchmark_request_test.go:21 | `time.Unix(sec, nsec)`: sec seconds and nsec nanoseconds after the epoch, in nanoseconds |
| GoTime.UnixSeconds | benchmark/benchmark_response.go:29 | `Time.Unix()` is the floor of the nanosecond time divided by 10^9 |
| GoTime.UnixSecondsOfUnixTime | benchmark/benchmark_request_test.go:21 | `time.Unix(sec, nsec).Unix()` is `sec` when `0 <= nsec < 10^9` (Go folds any other nsec into the seconds) |
| Assistant.ForwardRouterEvents | assistant/assistant.go:89-101 | the forwarding loop appends to the output channel exactly the router events of what it received, in order |
| Assistant.RouterEventsSound | assistant/assistant.go:94-95 | the output is no longer than the input and every forwarded envelope passes the filter |
| Assistant.RouterEventsInOrder | assistant/assistant.go:91-96 | the forwarded envelopes are a subsequence of the incoming ones, in arrival order |
| Assistant.RouterEventsCounts | assistant/assistant.go:91-96 | each envelope's count in the output is its count in the input when it passes the filter, zero otherwise: nothing is duplicated or invented |
| Assistant.RouterEventsMembership | assistant/assistant.go:94 | an envelope is forwarded iff it arrives and its origin starts with "gorouter" and its type is HttpStartStop or LogMessage |
| Assistant.RouterEventsIdempotent | assistant/assistant.go:94 | filtering the forwarded stream again changes nothing |
| Assistant.RouterEventsConcat | assistant/assistant.go:91-96 | the filter of a stream split in two is the filter of each part, concatenated |
| Assistant.RouterEventExamples | assistant/assistant.go:20 | `gorouter_z1` and `gorouter` pass; `cell`, the truncated `gorout`, and a router envelope of another type are dropped |
| Events.EnvelopeChannel.Send | benchmark/benchmark_request_test.go:67 | a send appends the envelope to the channel |
| Events.EnvelopeChannel.Receive | benchmark/benchmark_request.go:74 | a receive takes the oldest pending envelope |
| Clock.FakeClock.constructor | benchmark/benchmark_request_test.go:19-23 | NewFakeClock starts at time.Unix(123456789, 0), which reads back as 123456789 seconds |
| Clock.FakeClock.Since | benchmark/benchmark_request_test.go:29-31 | t plus the duration since t is Now() |
| Clock.FakeClock.Elapse | benchmark/benchmark_request_test.go:33-35 | the stored time advances by exactly d, and nothing else changes |
| RequestScenarios.NineDigitFraction | benchmark/benchmark_request_test.go:77 | the fraction digits of "0.03", padded to nine, are 30 milliseconds in nanoseconds |
| RequestScenarios.ThirtyMilliseconds | benchmark/benchmark_request_test.go:77 | the token "0.03" parses to 30 milliseconds |
| RequestScenarios.ProbeLogLineResponseTime | benchmark/benchmark_request_test.go:77 | the test's log line `response_time:0.03 /<guid>.html` yields respTime = 30 milliseconds |
| RequestScenarios.ProbeEnvelopesMatch | benchmark/benchmark_request_test.go:61-83 | both of the handler's envelopes for the probe's own URL match the probe |
| RequestScenarios.ShortTextDoesNotMatch | benchmark/benchmark_request_test.go:252 | a text shorter than the GUID, like the `/potato.html` line, never matches |
| RequestScenarios.MatchingPair | benchmark/benchmark_request_test.go:67-83 | the matching envelopes of two queued envelopes are those of the two that match, in order |
| RequestScenarios.EverythingWorks | benchmark/benchmark_request_test.go:55-123 | a 50ms request, a 20ms HttpStartStop and `response_time:0.03`: status 200, total 50ms, app 20ms, router 10ms, rest 20ms, timestamp time.Unix(123456789, 0), no error |
| RequestScenarios.MessagesNotDelivered | benchmark/benchmark_request_test.go:125-138 | nothing delivered: the zero response and the timeout error |
| RequestScenarios.StartStopNotReceived | benchmark/benchmark_request_test.go:140-162 | only a `/potato` log line: the zero response and the timeout error |
| RequestScenarios.LogMessageNotReceived | benchmark/benchmark_request_test.go:164-191 | only an HttpStartStop for `notyourapp`: the zero response and the timeout error |
| RequestScenarios.NonMatchingStartStop | benchmark/benchmark_request_test.go:193-229 | an HttpStartStop for the bare server URL and the probe's log line: the zero response and the timeout error |
| RequestScenarios.NonMatchingLogMessage | benchmark/benchmark_request_test.go:231-267 | the probe's HttpStartStop and a `/potato.html` log line: the zero response and the timeout error |
| Request.ToCheck | benchmark/benchmark_request.go:98-104 | the text searched: the HttpStartStop's URI, the LogMessage's text, otherwise empty |
| Request.CheckMessage | benchmark/benchmark_request.go:97-107 | checkMessage: `strings.Contains` of that text and the GUID; its meaning is CheckMessageMeaning |
| Request.Matching | benchmark/benchmark_request.go:75-76 | the envelopes of a stream that pass checkMessage, in arrival order |
| Request.Take | benchmark/benchmark_request.go:72-81 | the receive loop: the envelopes kept until k have matched, and what is left unread; its properties are the Take lemmas |
| Request.LastStartStop | benchmark/benchmark_request.go:84-85 | the HttpStartStop slot after the routing loop has written each HttpStartStop into it |
| Request.LastLogMessage | benchmark/benchmark_request.go:86-87 | the LogMessage slot after the routing loop has written each LogMessage into it |
| Request.Grab | benchmark/benchmark_request.go:68-95 | grabMessages as a function of the channel and the slots: its error, the new slots and the unread rest; its properties are the Grab lemmas |
| Request.LogText | benchmark/benchmark_request.go:51 | the LogMessage slot's text; an unset slot's nil message is empty |
| Request.Breakdown | benchmark/benchmark_request.go:49-63 | the arithmetic of Do, or the panic it hits; its properties are BreakdownAddsUp, BreakdownOfBoth and MalformedTokenBreakdown |
| Request.DoSpec | benchmark/benchmark_request.go:41-66 | Do as a function of the clock, the channel, the slots and the server; its properties are the Do lemmas |
| ResponseTime.ParseSeconds | benchmark/benchmark_request.go:52 | `time.ParseDuration` of the token with "s" appended, None on a parse error; its properties are ParseFormatRoundTrip and NonNumericTokenFails |
| ResponseTime.RespTime | benchmark/benchmark_request.go:50-52 | respTime of a log text: None when there is no submatch, otherwise the parsed duration or 0 |
| GoStrings.HasPrefix | assistant/assistant.go:94 | `strings.HasPrefix` |
| GoStrings.Contains | benchmark/benchmark_request.go:106 | `strings.Contains`; its meaning is ContainsIsSubstring |
| GoStrings.Itoa | benchmark/benchmark_response.go:21 | `strconv.Itoa`; its inverse is ItoaRoundTrip |
| Response.Tags | benchmark/benchmark_response.go:20-23 | the tag list: `status:` and the decimal code, then `deployment:` and the name |
| Assistant.IsRouterEvent | assistant/assistant.go:94 | the origin starts with "gorouter" and the type is HttpStartStop or LogMessage |
| Assistant.RouterEvents | assistant/assistant.go:91-96 | what the forwarding loop passes on, in order; its properties are the RouterEvents lemmas |
| Clock.FakeClock.Now | benchmark/benchmark_request_test.go:25-27 | the stored time; as a function that only reads the clock, it cannot change it |
| Events.EnvelopeChannel.constructor | benchmark/benchmark_request_test.go:47 | a new channel holds no envelopes |

The scenarios take the GUID as a parameter. They require it to have the form `uuid.String()` produces: 36 characters, lower-case hex and dashes. That guarantees it is non-empty and longer than `/potato.html`.

`NonMatchingStartStop` also requires that the GUID does not occur in the server URL. A test server's URL is `http://127.0.0.1:<port>`, which cannot contain a 36-character UUID.

## Left out

- `main.go` is not part of this model. That covers:
  - the ticker worker loop and process supervision;
  - the token refresh and the reconnect logic;
  - the configuration from environment variables;
  - the `http.Post` to Datadog.
- `makeRequest`'s `http.Get` is network I/O. It is a function from the URL to a status code and the time the request takes, and that time advances the clock. The discarded `http.Get` error, and the nil response it would leave, are not modelled.
- Real time, `time.After` and the `select` race are concurrency. They are modelled as the finite sequence of envelopes delivered before the deadline fires. How long the deadline is does not enter the model.
- Envelopes that arrive while the request is in flight are queued in the scenarios before `Do` is called. This is equivalent, because `grabMessages` reads them only after the request completes.
- The `Clock` interface is not modelled as an interface. The probe's clock field is the test's `FakeClock`, so every result of `Do` is proved only against that clock, on which the server's elapsed time moves the clock forward. The wall clock used in `main.go` is not modelled.
- The channel's capacity of 2 is not modelled.
- Closed channels are not modelled. A receive on a closed channel yields nil, and the next dereference panics. That happens at `*msg.Origin` in assistant/assistant.go:94 once the consumer's deferred close at :84 has run, and at `*message.EventType` in benchmark/benchmark_request.go:100 once the router channel is closed at assistant/assistant.go:90. The model's channels are never closed. A send never blocks.
- Go's nil-pointer fields inside an envelope are not modelled. A modelled HttpStartStop or LogMessage always has its URI, timestamps or text. Only the probe's own unset slots (the zero structs) are modelled as nil, through `Option`.
- `uuid.NewRandom` is randomness: the GUID is a constructor parameter.
- ResponseTime.ParseSeconds parses only a subset of `time.ParseDuration`. The token must be an optionally signed `digits[.digits]` of seconds, with at least one digit and at most nine after the dot. Anything else is treated as a parse failure, which line 52 turns into 0. Units inside the token, longer fractions, and int64 overflow are not modelled.
- Integers are unbounded.
  - The int64 wrap-around of `time.Time{}.UnixNano()` in the test's HttpStartStop is not modelled. It cancels in the difference, so time in the app is still 20ms.
  - `time.Time.Sub` saturation is not modelled either.
- The `map[string]interface{}` returned by ToDatadog is modelled as typed records, and its JSON encoding is left out.
- `fmt.Printf` of the invalid type is output only.
- The `cf` CLI helpers `AppGuid`, `AppUrl` and `GetOauthToken` shell out to the `cf` CLI, so they are left out.
- The noaa consumer, the goroutines and `stopChan` in `StreamRouterLogs` are foreign or concurrent code. What they deliver before the stop signal is the input of ForwardRouterEvents.
- Several call sites in `main.go` and `benchmark/benchmark_request_test.go` do not match the definitions:
  - `main.go` and the test file expect two results from `NewBenchmarkRequest`;
  - `main.go` passes two arguments to `ToDatadog`;
  - `main.go` passes four arguments to `StreamRouterLogs`.

  The model follows the definitions.
