/** The per-call carrier (a Go `context.Context` holding one value) through
    which the driver and the terminal stage exchange payloads. */
module Carriers {
  import opened Results
  import opened Packets

  /** The four carrier keys, one per call kind. */
  datatype CarrierKey = KeyReadRtp | KeyReadRtcp | KeyWriteRtp | KeyWriteRtcp

  /** What is stored under a write key: a value of the named callback type
      (`writeRTP`, `writeRTCP`), which the terminal's type assertion accepts,
      or a bare function literal, whose unnamed function type the assertion
      rejects because it is not identical to the named one. */
  datatype Callback = Named | Literal

  /** A carrier holds nothing, or exactly one payload under its key. The two
      write cases stand for a capture callback; invoking it is recorded in
      the `delivered` list of a `WriteOutcome`. */
  datatype Carrier =
    | Background
    | ReadRtpCarrier(packet: RtpPacket)
    | ReadRtcpCarrier(packets: seq<RtcpPacket>)
    | WriteRtpCarrier(callback: Callback)
    | WriteRtcpCarrier(callback: Callback)

  /** The key under which the carrier holds its payload, if any. */
  function Key(c: Carrier): Option<CarrierKey>
  {
    match c
    case Background => None
    case ReadRtpCarrier(_) => Some(KeyReadRtp)
    case ReadRtcpCarrier(_) => Some(KeyReadRtcp)
    case WriteRtpCarrier(_) => Some(KeyWriteRtp)
    case WriteRtcpCarrier(_) => Some(KeyWriteRtcp)
  }

  predicate Holds(c: Carrier, k: CarrierKey)
  {
    Key(c) == Some(k)
  }

  /** The carrier holds, under write key `k`, a callback of the named type. */
  predicate HoldsCallback(c: Carrier, k: CarrierKey)
  {
    Holds(c, k) && (c.WriteRtpCarrier? || c.WriteRtcpCarrier?) && c.callback.Named?
  }
}
