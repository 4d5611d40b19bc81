/**
 * The loggregator envelopes the probe consumes, and the channel that carries them.
 * Only the fields the probe reads are kept: the origin tag, the event type and, for
 * the two event types the probe understands, their payloads.
 */
module Events {

  /** A request's lifecycle as seen by the router: its URI and two epoch timestamps in nanoseconds. */
  datatype HttpStartStop = HttpStartStop(uri: string, startTimestamp: int, stopTimestamp: int)

  /** A free-text log line (Go `[]byte`, one char per byte). */
  datatype LogMessage = LogMessage(message: string)

  /** The envelope types other than HttpStartStop and LogMessage. */
  datatype OtherEventType = HttpStart | HttpStop | ValueMetric | CounterEvent | Error | ContainerMetric

  datatype Event =
    | HttpStartStopEvent(httpStartStop: HttpStartStop)
    | LogMessageEvent(logMessage: LogMessage)
    | OtherEvent(eventType: OtherEventType)

  datatype Envelope = Envelope(origin: string, event: Event)

  /**
   * A channel of envelopes. `pending` holds the envelopes that are delivered before the
   * receiver's deadline fires, in delivery order; a receiver that finds it empty has
   * reached its deadline.
   */
  class EnvelopeChannel {
    var pending: seq<Envelope>

    constructor ()
      ensures pending == []
    {
      pending := [];
    }

    /** `ch <- e` */
    method Send(e: Envelope)
      modifies this
      ensures pending == old(pending) + [e]
    {
      pending := pending + [e];
    }

    /** `<-ch`, when an envelope is available. */
    method Receive() returns (e: Envelope)
      requires pending != []
      modifies this
      ensures [e] + pending == old(pending)
    {
      e := pending[0];
      pending := pending[1..];
    }
  }
}
