/** The stages of an interceptor chain: the terminal stage that bridges to the
    per-call carrier, the stages interceptors wrap around it, and the builder
    that nests them. */
module Chain {
  import opened Results
  import opened Packets
  import opened Carriers
  import opened Interceptors

  /** A pipeline stage: the terminal stage, or one built by an interceptor
      around the stage it was given. */
  datatype Stage = Terminal | Layer(interceptor: Interceptor, next: Stage)

  datatype InterceptorChain = InterceptorChain(readWriter: Stage)

  // ---- The terminal stage ----

  /** Hands back the packet the driver stored under the read-RTP key, with a
      fresh empty metadata bag. */
  function TerminalReadRtp(c: Carrier): (r: Result<Annotated>)
    ensures r.Ok? <==> Holds(c, KeyReadRtp)
    ensures r.Ok? ==> c.ReadRtpCarrier? && r.value == Annotated(c.packet, map[])
    ensures r.Err? ==> r.error == PacketNotFound && Message(r.error) == "packet not found in context"
  {
    if c.ReadRtpCarrier? then Ok(Annotated(c.packet, map[])) else Err(PacketNotFound)
  }

  /** Hands the packet to the `writeRTP` callback stored under the write-RTP
      key; the metadata bag is ignored. A missing key and a value of any other
      type fail alike. */
  function TerminalWriteRtp(c: Carrier, a: Annotated): (o: WriteOutcome<RtpPacket>)
    ensures o.err.None? <==> HoldsCallback(c, KeyWriteRtp)
    ensures o.err.None? ==> o.delivered == [a.packet]
    ensures o.err.Some? ==> o.delivered == [] && o.err.value == CallbackNotFound
                            && Message(o.err.value) == "callback not found in context"
  {
    if c.WriteRtpCarrier? && c.callback.Named? then WriteOutcome([a.packet], None)
    else WriteOutcome([], Some(CallbackNotFound))
  }

  /** Hands back the packet list the driver stored under the read-RTCP key. */
  function TerminalReadRtcp(c: Carrier): (r: Result<seq<RtcpPacket>>)
    ensures r.Ok? <==> Holds(c, KeyReadRtcp)
    ensures r.Ok? ==> c.ReadRtcpCarrier? && r.value == c.packets
    ensures r.Err? ==> r.error == PacketsNotFound && Message(r.error) == "packets not found in context"
  {
    if c.ReadRtcpCarrier? then Ok(c.packets) else Err(PacketsNotFound)
  }

  /** Hands the packet list to the `writeRTCP` callback stored under the
      write-RTCP key. */
  function TerminalWriteRtcp(c: Carrier, ps: seq<RtcpPacket>): (o: WriteOutcome<seq<RtcpPacket>>)
    ensures o.err.None? <==> HoldsCallback(c, KeyWriteRtcp)
    ensures o.err.None? ==> o.delivered == [ps]
    ensures o.err.Some? ==> o.delivered == [] && o.err.value == CallbackNotFound
                            && Message(o.err.value) == "callback not found in context"
  {
    if c.WriteRtcpCarrier? && c.callback.Named? then WriteOutcome([ps], None)
    else WriteOutcome([], Some(CallbackNotFound))
  }

  // ---- Any stage ----

  /** A stage's RTP read: the next stage reads first, then this stage
      transforms a successful result; errors come back unchanged. */
  function ReadRtp(s: Stage, c: Carrier): (r: Result<Annotated>)
    ensures !Holds(c, KeyReadRtp) ==> r == Err(PacketNotFound)
  {
    match s
    case Terminal => TerminalReadRtp(c)
    case Layer(ic, next) =>
      match ReadRtp(next, c)
      case Err(e) => Err(e)
      case Ok(a) => OnReadRtp(ic, a)
  }

  /** A stage's RTP write: this stage decides first, then the next stage
      writes what it was handed. */
  function WriteRtp(s: Stage, c: Carrier, a: Annotated): (o: WriteOutcome<RtpPacket>)
    ensures |o.delivered| <= 1
    ensures o.err.Some? ==> o.delivered == []
    ensures o.delivered != [] ==> HoldsCallback(c, KeyWriteRtp)
  {
    match s
    case Terminal => TerminalWriteRtp(c, a)
    case Layer(ic, next) =>
      match OnWriteRtp(ic, a)
      case Forward(b) => WriteRtp(next, c, b)
      case Drop => WriteOutcome([], None)
      case Reject(e) => WriteOutcome([], Some(e))
  }

  /** A stage's RTCP read. */
  function ReadRtcp(s: Stage, c: Carrier): (r: Result<seq<RtcpPacket>>)
    ensures !Holds(c, KeyReadRtcp) ==> r == Err(PacketsNotFound)
  {
    match s
    case Terminal => TerminalReadRtcp(c)
    case Layer(ic, next) =>
      match ReadRtcp(next, c)
      case Err(e) => Err(e)
      case Ok(ps) => OnReadRtcp(ic, ps)
  }

  /** A stage's RTCP write. */
  function WriteRtcp(s: Stage, c: Carrier, ps: seq<RtcpPacket>): (o: WriteOutcome<seq<RtcpPacket>>)
    ensures |o.delivered| <= 1
    ensures o.err.Some? ==> o.delivered == []
    ensures o.delivered != [] ==> HoldsCallback(c, KeyWriteRtcp)
  {
    match s
    case Terminal => TerminalWriteRtcp(c, ps)
    case Layer(ic, next) =>
      match OnWriteRtcp(ic, ps)
      case Forward(qs) => WriteRtcp(next, c, qs)
      case Drop => WriteOutcome([], None)
      case Reject(e) => WriteOutcome([], Some(e))
  }

  /** A stage's Close: the terminal owns nothing, and every modelled stage
      inherits Close from the stage it wraps. */
  function Close(s: Stage): (r: Option<Error>)
    ensures r.None?
  {
    match s
    case Terminal => None
    case Layer(_, next) => Close(next)
  }

  // ---- Building the chain ----

  /** The interceptors of a stage in registration order: innermost first. */
  function Registered(s: Stage): seq<Interceptor>
  {
    match s
    case Terminal => []
    case Layer(ic, next) => Registered(next) + [ic]
  }

  /** `Intercept`: an interceptor wraps the stage it is given, keeping that
      exact stage as its next one and adding itself outermost. */
  function Intercept(ic: Interceptor, next: Stage): (r: Stage)
    ensures r.Layer? && r.next == next
    ensures Registered(r) == Registered(next) + [ic]
  {
    Layer(ic, next)
  }

  /** Folds the interceptors, in registration order, over the terminal stage:
      the first registered ends up innermost, the last registered outermost. */
  method NewInterceptorChain(interceptors: seq<Interceptor>) returns (chain: InterceptorChain)
    ensures Registered(chain.readWriter) == interceptors
    ensures |interceptors| == 0 ==> chain.readWriter.Terminal?
    ensures |interceptors| > 0 ==> chain.readWriter.Layer?
                                   && chain.readWriter.interceptor == interceptors[|interceptors| - 1]
  {
    var readWriter := Terminal;
    for i := 0 to |interceptors|
      invariant Registered(readWriter) == interceptors[..i]
    {
      assert interceptors[..i + 1] == interceptors[..i] + [interceptors[i]];
      readWriter := Intercept(interceptors[i], readWriter);
    }
    assert interceptors[..|interceptors|] == interceptors;
    chain := InterceptorChain(readWriter);
  }

  /** A stage is determined by its interceptors: the builder's result is the
      only stage with the registered list. */
  lemma {:induction false} StageDeterminedByInterceptors(s1: Stage, s2: Stage)
    requires Registered(s1) == Registered(s2)
    ensures s1 == s2
  {
    if s1.Layer? && s2.Layer? {
      var l1, l2 := Registered(s1.next), Registered(s2.next);
      assert |l1| == |l2|;
      assert s1.interceptor == (l1 + [s1.interceptor])[|l1|] == s2.interceptor;
      assert l1 == (l1 + [s1.interceptor])[..|l1|] == (l2 + [s2.interceptor])[..|l2|] == l2;
      StageDeterminedByInterceptors(s1.next, s2.next);
    }
  }
}
