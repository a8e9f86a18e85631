/** The packets and the per-call metadata bag that flow through the chain. */
module Packets {
  import opened Results

  type uint32 = x: int | 0 <= x < 0x1_0000_0000
  type byte = x: int | 0 <= x < 0x100

  /** An RTP packet, reduced to what the chain and its test stages look at:
      the synchronization source identifier, and every other header field and
      the payload as opaque bytes. */
  datatype RtpPacket = RtpPacket(ssrc: uint32, rest: seq<byte>)

  /** A freshly allocated packet (`&rtp.Packet{}`) whose SSRC is then set. */
  function FreshPacket(ssrc: uint32): RtpPacket
  {
    RtpPacket(ssrc, [])
  }

  /** An RTCP packet; the chain never looks inside one. */
  datatype RtcpPacket = RtcpPacket(raw: seq<byte>)

  /** Keys of the metadata bag: the one the test stages use, and any other. */
  datatype MetaKey = TestInterceptorKey | OtherKey(name: string)

  /** The metadata bag of one read or write call. */
  type Meta = map<MetaKey, string>

  /** Go's `m[k]`: the value under `k`, or nothing. */
  function Lookup(m: Meta, k: MetaKey): Option<string>
  {
    if k in m then Some(m[k]) else None
  }

  /** A media packet together with the metadata bag of the call carrying it. */
  datatype Annotated = Annotated(packet: RtpPacket, meta: Meta)
}
