/**
 * The door-telemetry resolver of data/door.py: it keeps the last known
 * status of the garage door and updates it from broker messages on one
 * fixed topic.
 *
 * Timestamps are integers counting microseconds since the Unix epoch in UTC
 * (the source parses a timezone-aware datetime with microsecond precision).
 * The JSON decode and the timestamp parse are not modelled: they are an
 * opaque partial function `decode` from the payload bytes to a `Reading`,
 * `None` standing for any exception either of them raises.
 */
module Door {
  import opened Wrappers

  datatype DoorStatus = Unknown | Open | Closed

  datatype DoorInformation = DoorInformation(status: DoorStatus, statusSince: int)

  /** An inbound broker message; only a `bytes` payload is examined. */
  datatype Payload = Bytes(raw: seq<bv8>) | NotBytes
  datatype Message = Message(topic: string, payload: Payload)

  /** What the decode yields: the parsed timestamp, and the `state` member if it is a string. */
  datatype Reading = Reading(timestamp: int, state: Option<string>)

  /**
   * The result of `handle_message`: `NotConsumed` is a `False` return,
   * `Raised` an exception out of the decode, `Consumed` a `True` return,
   * carrying the new door information and whether it passed the
   * staleness gate (the branch where the source means to notify).
   */
  datatype Outcome = NotConsumed | Raised | Consumed(info: DoorInformation, recent: bool)

  /** One minute, the staleness threshold, in microseconds. */
  const StaleAfter: int := 60 * 1000000

  /** The `match state` of the source. */
  function StatusOf(state: Option<string>): (s: DoorStatus)
    ensures s == Closed <==> state == Some("closed")
    ensures s == Open <==> state == Some("open")
    ensures s == Unknown <==> state != Some("closed") && state != Some("open")
  {
    match state
    case Some(text) =>
      if text == "closed" then Closed
      else if text == "open" then Open
      else Unknown
    case None => Unknown
  }

  /** A reading no older than one minute before `now`. */
  predicate IsFresh(timestamp: int, now: int) {
    !(timestamp < now - StaleAfter)
  }

  /** What `handle_message` returns (or raises) for `message` at time `now`. */
  function Resolve(topic: string, message: Message, now: int, decode: seq<bv8> -> Option<Reading>): (r: Outcome)
    ensures r.NotConsumed? <==> message.topic != topic || !message.payload.Bytes?
    ensures r.Raised? <==>
      message.topic == topic && message.payload.Bytes? && decode(message.payload.raw).None?
    ensures r.Consumed? ==>
      && message.payload.Bytes?
      && decode(message.payload.raw).Some?
      && var reading := decode(message.payload.raw).value;
      && r.info == DoorInformation(StatusOf(reading.state), reading.timestamp)
      && (r.recent <==> now - StaleAfter <= reading.timestamp)
  {
    if message.topic != topic then NotConsumed
    else if !message.payload.Bytes? then NotConsumed
    else match decode(message.payload.raw)
      case None => Raised
      case Some(reading) =>
        Consumed(DoorInformation(StatusOf(reading.state), reading.timestamp), IsFresh(reading.timestamp, now))
  }

  class DoorDataResolver {
    var data: DoorInformation
    const topic: string

    /** A new resolver knows nothing about the door yet; `now` is the construction time. */
    constructor (topic: string, now: int)
      ensures data == DoorInformation(Unknown, now)
      ensures this.topic == topic
    {
      data := DoorInformation(Unknown, now);
      this.topic := topic;
    }

    /**
     * Handles one message. Rejected and undecodable messages leave `data`
     * alone; every decoded message replaces it, stale or not.
     */
    method HandleMessage(message: Message, now: int, decode: seq<bv8> -> Option<Reading>) returns (r: Outcome)
      modifies this
      ensures r == Resolve(topic, message, now, decode)
      ensures data == if r.Consumed? then r.info else old(data)
    {
      if message.topic != topic {
        return NotConsumed;
      }
      if !message.payload.Bytes? {
        return NotConsumed;
      }
      var decoded := decode(message.payload.raw);
      if decoded.None? {
        return Raised;
      }
      var reading := decoded.value;
      var doorStatus := StatusOf(reading.state);
      data := DoorInformation(doorStatus, reading.timestamp);
      if data.statusSince < now - StaleAfter {
        // a retained message replayed after a reconnect: recorded, not announced
        return Consumed(data, false);
      }
      return Consumed(data, true);
    }
  }
}
