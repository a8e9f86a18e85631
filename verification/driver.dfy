/** The chain driver: turns a plain read or write into one carrier-mediated
    call through the outermost stage, starting from a fresh carrier and a
    fresh empty metadata bag, and hands back a plain result. */
module Driver {
  import opened Results
  import opened Packets
  import opened Carriers
  import opened Interceptors
  import opened Pipeline
  import opened Chain
  import opened Laws

  /** The packet of a read result; the metadata bag is dropped. */
  function PacketOf(r: Result<Annotated>): Result<RtpPacket>
  {
    match r
    case Ok(a) => Ok(a.packet)
    case Err(e) => Err(e)
  }

  /** What the capture callback holds once a write is over: the value that
      reached the terminal, nothing after a drop, and the error of a rejection. */
  function Captured<T, U>(v: Verdict<T>, out: T -> U): Result<Option<U>>
  {
    match v
    case Forward(x) => Ok(Some(out(x)))
    case Drop => Ok(None)
    case Reject(e) => Err(e)
  }

  /** The capture callback's variable after every delivery: the last value
      delivered, or nil when the callback never ran. */
  function LastDelivered<T>(delivered: seq<T>): Option<T>
  {
    if |delivered| == 0 then None else Some(delivered[|delivered| - 1])
  }

  /** `wrapReadRTP`. */
  function WrapReadRtp(chain: InterceptorChain, packet: RtpPacket): (r: Result<RtpPacket>)
    ensures r == PacketOf(ApplyReads(Registered(chain.readWriter), OnReadRtp, Ok(Annotated(packet, map[]))))
    ensures chain.readWriter.Terminal? ==> r == Ok(packet)
  {
    ReadRtpLaw(chain.readWriter, ReadRtpCarrier(packet));
    PacketOf(ReadRtp(chain.readWriter, ReadRtpCarrier(packet)))
  }

  /** What the as-written write drivers return: a value that reaches the
      terminal finds no callback it can use, a drop returns nothing, and a
      rejection returns its error. */
  function Undelivered<T, U>(v: Verdict<T>): Result<Option<U>>
  {
    match v
    case Forward(_) => Err(CallbackNotFound)
    case Drop => Ok(None)
    case Reject(e) => Err(e)
  }

  /** `wrapWriteRTP` as written: the capture callback goes under the write-RTP
      key as a bare function literal, which the terminal's `writeRTP` type
      assertion rejects, so no packet is ever captured. */
  function WrapWriteRtp(chain: InterceptorChain, packet: RtpPacket): (r: Result<Option<RtpPacket>>)
    ensures r == Undelivered(ApplyWrites(Reverse(Registered(chain.readWriter)), OnWriteRtp, Annotated(packet, map[])))
    ensures !(r.Ok? && r.value.Some?)
    ensures chain.readWriter.Terminal? ==> r == Err(CallbackNotFound)
  {
    WriteRtpLaw(chain.readWriter, WriteRtpCarrier(Literal), Annotated(packet, map[]));
    var o := WriteRtp(chain.readWriter, WriteRtpCarrier(Literal), Annotated(packet, map[]));
    if o.err.Some? then Err(o.err.value) else Ok(LastDelivered(o.delivered))
  }

  /** `wrapWriteRTP` with the capture callback converted to `writeRTP` before
      it is stored: the packet that reaches the terminal is the one returned. */
  function WrapWriteRtpFixed(chain: InterceptorChain, packet: RtpPacket): (r: Result<Option<RtpPacket>>)
    ensures r == Captured(ApplyWrites(Reverse(Registered(chain.readWriter)), OnWriteRtp, Annotated(packet, map[])),
                          (a: Annotated) => a.packet)
    ensures chain.readWriter.Terminal? ==> r == Ok(Some(packet))
  {
    WriteRtpLaw(chain.readWriter, WriteRtpCarrier(Named), Annotated(packet, map[]));
    var o := WriteRtp(chain.readWriter, WriteRtpCarrier(Named), Annotated(packet, map[]));
    if o.err.Some? then Err(o.err.value) else Ok(LastDelivered(o.delivered))
  }

  /** `wrapReadRTCP`. */
  function WrapReadRtcp(chain: InterceptorChain, packets: seq<RtcpPacket>): (r: Result<seq<RtcpPacket>>)
    ensures r == ApplyReads(Registered(chain.readWriter), OnReadRtcp, Ok(packets))
    ensures chain.readWriter.Terminal? ==> r == Ok(packets)
  {
    ReadRtcpLaw(chain.readWriter, ReadRtcpCarrier(packets));
    ReadRtcp(chain.readWriter, ReadRtcpCarrier(packets))
  }

  /** `wrapWriteRTCP` as written: it takes a media packet, installs a bare
      function literal under the write-RTP key and runs the stages' RTP write,
      so it never reaches any stage's RTCP write. */
  function WrapWriteRtcp(chain: InterceptorChain, packet: RtpPacket): (r: Result<Option<RtpPacket>>)
    ensures r == WrapWriteRtp(chain, packet)
  {
    var o := WriteRtp(chain.readWriter, WriteRtpCarrier(Literal), Annotated(packet, map[]));
    if o.err.Some? then Err(o.err.value) else Ok(LastDelivered(o.delivered))
  }

  /** The control-packet write the RTCP driver is meant to be: the list goes
      through every stage's RTCP write, with a `writeRTCP` callback under the
      write-RTCP key. */
  function WrapWriteRtcpFixed(chain: InterceptorChain, packets: seq<RtcpPacket>): (r: Result<Option<seq<RtcpPacket>>>)
    ensures r == Captured(ApplyWrites(Reverse(Registered(chain.readWriter)), OnWriteRtcp, packets),
                          (ps: seq<RtcpPacket>) => ps)
    ensures chain.readWriter.Terminal? ==> r == Ok(Some(packets))
  {
    WriteRtcpLaw(chain.readWriter, WriteRtcpCarrier(Named), packets);
    var o := WriteRtcp(chain.readWriter, WriteRtcpCarrier(Named), packets);
    if o.err.Some? then Err(o.err.value) else Ok(LastDelivered(o.delivered))
  }

  /** An error from the outermost stage is the driver's error, whatever the
      inner stages would have done. */
  lemma OuterRejectIsReturned(chain: InterceptorChain, packet: RtpPacket, e: Error)
    requires chain.readWriter.Layer?
    requires OnWriteRtp(chain.readWriter.interceptor, Annotated(packet, map[])) == Reject(e)
    ensures WrapWriteRtp(chain, packet) == Err(e)
  {
  }

  /** When the outermost stage drops the packet, no stage reaches the
      terminal and the driver returns neither a packet nor an error. */
  lemma OuterDropReturnsNothing(chain: InterceptorChain, packet: RtpPacket)
    requires chain.readWriter.Layer?
    requires OnWriteRtp(chain.readWriter.interceptor, Annotated(packet, map[])) == Drop
    ensures WrapWriteRtp(chain, packet) == Ok(None)
  {
  }

  /** An interceptor that passes media through and refuses every control
      write. */
  const RefuseRtcpWrites: Interceptor :=
    Custom(Hooks(a => Ok(a), a => Forward(a), ps => Ok(ps), ps => Reject(StageError("refused"))))

  /** `wrapWriteRTCP` as written ignores the control write path: on a chain
      whose only stage refuses every RTCP write, it fails only because its
      callback is unusable, and with a usable callback the same media write
      succeeds through that stage, while the intended control write is
      refused. */
  lemma WrapWriteRtcpSkipsControlPath(packet: RtpPacket, packets: seq<RtcpPacket>)
    ensures WrapWriteRtcp(InterceptorChain(Layer(RefuseRtcpWrites, Terminal)), packet) == Err(CallbackNotFound)
    ensures WrapWriteRtpFixed(InterceptorChain(Layer(RefuseRtcpWrites, Terminal)), packet) == Ok(Some(packet))
    ensures WrapWriteRtcpFixed(InterceptorChain(Layer(RefuseRtcpWrites, Terminal)), packets)
         == Err(StageError("refused"))
  {
    var a := Annotated(packet, map[]);
    var s := Layer(RefuseRtcpWrites, Terminal);
    assert OnWriteRtp(RefuseRtcpWrites, a) == Forward(a);
    assert WriteRtp(s, WriteRtpCarrier(Literal), a) == WriteRtp(Terminal, WriteRtpCarrier(Literal), a);
    assert WriteRtp(s, WriteRtpCarrier(Named), a) == WriteRtp(Terminal, WriteRtpCarrier(Named), a);
    assert WriteRtp(s, WriteRtpCarrier(Named), a).delivered == [packet];
  }
}
