/**
 * The latency breakdown of one probe and its translation into the metrics sink's
 * time-series payload.
 */
module Response {
  import opened Common
  import opened GoStrings
  import opened GoTime

  /** Durations in nanoseconds; `timestamp` is the probe's issue time in nanoseconds since the epoch. */
  datatype BenchmarkResponse = BenchmarkResponse(
    totalRoundrip: int,
    timeInApp: int,
    timeInRouter: int,
    restOfTime: int,
    timestamp: int,
    responseCode: int)

  /** The zero value `BenchmarkResponse{}`. */
  const ZERO_RESPONSE: BenchmarkResponse := BenchmarkResponse(0, 0, 0, 0, ZERO_TIME, 0)

  /** One element of "series": the keys "metric", "points" and "tags". */
  datatype Series = Series(metric: string, points: seq<seq<int>>, tags: seq<string>)

  /** The top-level JSON object. */
  type Payload = map<string, seq<Series>>

  const METRIC_PREFIX: string := "app_benchmarking."
  const STATUS_TAG: string := "status:"
  const DEPLOYMENT_TAG: string := "deployment:"

  /** The four metric names, in payload order. */
  const METRICS: seq<string> := [
    METRIC_PREFIX + "total_roundtrip",
    METRIC_PREFIX + "time_in_gorouter",
    METRIC_PREFIX + "time_in_app",
    METRIC_PREFIX + "rest_of_time"]

  function Tags(responseCode: int, deploymentName: string): seq<string> {
    [STATUS_TAG + Itoa(responseCode), DEPLOYMENT_TAG + deploymentName]
  }

  /** BenchmarkResponse.ToDatadog */
  function ToDatadog(br: BenchmarkResponse, deploymentName: string): (p: Payload)
    ensures p.Keys == {"series"} && |p["series"]| == 4
    ensures forall i :: 0 <= i < 4 ==>
      var s := p["series"][i];
      s.metric == METRICS[i] && HasPrefix(s.metric, METRIC_PREFIX)
      && |s.points| == 1 && |s.points[0]| == 2 && s.points[0][0] == UnixSeconds(br.timestamp)
      && s.tags == Tags(br.responseCode, deploymentName)
  {
    var now := UnixSeconds(br.timestamp);
    var tags := Tags(br.responseCode, deploymentName);
    map["series" := [
      Series(METRIC_PREFIX + "total_roundtrip", [[now, br.totalRoundrip]], tags),
      Series(METRIC_PREFIX + "time_in_gorouter", [[now, br.timeInRouter]], tags),
      Series(METRIC_PREFIX + "time_in_app", [[now, br.timeInApp]], tags),
      Series(METRIC_PREFIX + "rest_of_time", [[now, br.restOfTime]], tags)]]
  }

  /** What a payload reports, as the sink reads it back. */
  datatype Reading = Reading(
    unixSeconds: int,
    totalRoundtrip: int,
    timeInGorouter: int,
    timeInApp: int,
    restOfTime: int,
    status: int,
    deployment: string)

  /** The single [time, value] point of a series named `metric`. */
  function PointOf(s: Series, metric: string): Option<seq<int>> {
    if s.metric == metric && |s.points| == 1 && |s.points[0]| == 2 then Some(s.points[0]) else None
  }

  /** The status code and deployment name encoded in a tag list. */
  function ParseTags(tags: seq<string>): Option<(int, string)> {
    if |tags| == 2 && HasPrefix(tags[0], STATUS_TAG) && HasPrefix(tags[1], DEPLOYMENT_TAG) then
      match ParseInt(tags[0][|STATUS_TAG|..])
      case Some(code) => Some((code, tags[1][|DEPLOYMENT_TAG|..]))
      case None => None
    else None
  }

  /**
   * Decodes a payload of the shape the sink expects: one key "series" with the four
   * metrics in order, one point each, a common timestamp and a common tag list.
   */
  function FromDatadog(p: Payload): Option<Reading> {
    if p.Keys != {"series"} || |p["series"]| != 4 then None
    else
      var s := p["series"];
      var tags := s[0].tags;
      match (PointOf(s[0], METRICS[0]), PointOf(s[1], METRICS[1]), PointOf(s[2], METRICS[2]), PointOf(s[3], METRICS[3]), ParseTags(tags))
      case (Some(a), Some(b), Some(c), Some(d), Some(t)) =>
        if a[0] == b[0] == c[0] == d[0] && s[1].tags == tags && s[2].tags == tags && s[3].tags == tags
        then Some(Reading(a[0], a[1], b[1], c[1], d[1], t.0, t.1))
        else None
      case _ => None
  }

  /**
   * The payload carries exactly the breakdown: the issue time in whole seconds, then the
   * total, router, app and remaining durations in that order, the status code and the
   * deployment name.
   */
  lemma DatadogRoundTrip(br: BenchmarkResponse, deploymentName: string)
    ensures FromDatadog(ToDatadog(br, deploymentName)) == Some(Reading(
      UnixSeconds(br.timestamp), br.totalRoundrip, br.timeInRouter, br.timeInApp, br.restOfTime,
      br.responseCode, deploymentName))
  {
    var tags := Tags(br.responseCode, deploymentName);
    ItoaRoundTrip(br.responseCode);
    assert tags[0][|STATUS_TAG|..] == Itoa(br.responseCode);
    assert tags[1][|DEPLOYMENT_TAG|..] == deploymentName;
    assert HasPrefix(tags[0], STATUS_TAG) && HasPrefix(tags[1], DEPLOYMENT_TAG);
    assert ParseTags(tags) == Some((br.responseCode, deploymentName));
  }

  /** The test's issue time time.Unix(123456789, 0) is reported as 123456789 seconds. */
  lemma TestTimestampSeconds(br: BenchmarkResponse, deploymentName: string)
    requires br.timestamp == UnixTime(123456789, 0)
    ensures forall i :: 0 <= i < 4 ==> ToDatadog(br, deploymentName)["series"][i].points[0][0] == 123456789
  {
    UnixSecondsOfUnixTime(123456789, 0);
  }
}
