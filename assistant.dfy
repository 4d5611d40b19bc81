/**
 * The router-log stream: of all the envelopes the logging endpoint delivers for the
 * application, only the router's HttpStartStop and LogMessage envelopes are passed on,
 * in arrival order.
 */
module Assistant {
  import opened Common
  import opened GoStrings
  import opened Events

  /** The origin tag of the router's envelopes. */
  const ORIGIN: string := "gorouter"

  /** The filter: the origin starts with "gorouter" and the type is HttpStartStop or LogMessage. */
  predicate IsRouterEvent(e: Envelope) {
    HasPrefix(e.origin, ORIGIN) && (e.event.HttpStartStopEvent? || e.event.LogMessageEvent?)
  }

  /** What the forwarding loop passes on from the envelopes `s`. */
  function RouterEvents(s: seq<Envelope>): seq<Envelope> {
    Filter(s, IsRouterEvent)
  }

  /**
   * The forwarding goroutine: each received envelope that passes the filter is sent on,
   * the others are dropped. `incoming` is what arrives before the stop signal.
   */
  method ForwardRouterEvents(incoming: seq<Envelope>, out: EnvelopeChannel)
    modifies out
    ensures out.pending == old(out.pending) + RouterEvents(incoming)
  {
    var i := 0;
    while i < |incoming|
      invariant 0 <= i <= |incoming|
      invariant out.pending == old(out.pending) + RouterEvents(incoming[..i])
    {
      var msg := incoming[i];
      if IsRouterEvent(msg) {
        out.Send(msg);
      }
      assert incoming[..i + 1] == incoming[..i] + [msg];
      FilterConcat(incoming[..i], [msg], IsRouterEvent);
      i := i + 1;
    }
    assert incoming[..i] == incoming;
  }

  /** Nothing is added: the output is no longer than the input and every forwarded envelope passes the filter. */
  lemma RouterEventsSound(s: seq<Envelope>)
    ensures |RouterEvents(s)| <= |s|
    ensures forall i :: 0 <= i < |RouterEvents(s)| ==> IsRouterEvent(RouterEvents(s)[i])
  {
    FilterSound(s, IsRouterEvent);
  }

  /** Arrival order is kept: the output is the input with some envelopes deleted. */
  lemma RouterEventsInOrder(s: seq<Envelope>)
    ensures IsSubsequence(RouterEvents(s), s)
  {
    FilterIsSubsequence(s, IsRouterEvent);
  }

  /**
   * No envelope is duplicated, altered or wrongly dropped: each occurs in the output as
   * often as in the input when it passes the filter, and not at all otherwise.
   */
  lemma RouterEventsCounts(s: seq<Envelope>, e: Envelope)
    ensures multiset(RouterEvents(s))[e] == if IsRouterEvent(e) then multiset(s)[e] else 0
  {
    FilterCounts(s, IsRouterEvent, e);
  }

  /** An envelope is forwarded exactly when it arrives and passes the filter. */
  lemma RouterEventsMembership(s: seq<Envelope>, e: Envelope)
    ensures e in RouterEvents(s) <==> e in s && IsRouterEvent(e)
  {
    FilterCounts(s, IsRouterEvent, e);
    assert e in RouterEvents(s) <==> multiset(RouterEvents(s))[e] > 0;
    assert e in s <==> multiset(s)[e] > 0;
  }

  /** Filtering the forwarded stream again changes nothing. */
  lemma RouterEventsIdempotent(s: seq<Envelope>)
    ensures RouterEvents(RouterEvents(s)) == RouterEvents(s)
  {
    FilterIdempotent(s, IsRouterEvent);
  }

  /** The filter on a stream split in two is the filter on each part. */
  lemma RouterEventsConcat(a: seq<Envelope>, b: seq<Envelope>)
    ensures RouterEvents(a + b) == RouterEvents(a) + RouterEvents(b)
  {
    FilterConcat(a, b, IsRouterEvent);
  }

  /**
   * A zone-suffixed router origin passes; another origin, a truncated one, or an
   * envelope of another type is dropped.
   */
  lemma RouterEventExamples(h: HttpStartStop, l: LogMessage, t: OtherEventType)
    ensures IsRouterEvent(Envelope("gorouter_z1", HttpStartStopEvent(h)))
    ensures IsRouterEvent(Envelope("gorouter", LogMessageEvent(l)))
    ensures !IsRouterEvent(Envelope("cell", HttpStartStopEvent(h)))
    ensures !IsRouterEvent(Envelope("gorout", LogMessageEvent(l)))
    ensures !IsRouterEvent(Envelope("gorouter", OtherEvent(t)))
  {
    assert "gorouter_z1"[..|ORIGIN|] == ORIGIN;
  }
}
