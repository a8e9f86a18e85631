/** The ordering laws: running a packet through the nested stages is the
    same as applying the interceptors' transformations along the registration
    list, first registered first on read and last registered first on write. */
module Laws {
  import opened Results
  import opened Packets
  import opened Carriers
  import opened Interceptors
  import opened Pipeline
  import opened Chain

  /** What reaches the end of the write steps, handed to `deliver`; a drop or
      a rejection delivers nothing. */
  function Settle<T, U>(v: Verdict<T>, deliver: T -> WriteOutcome<U>): WriteOutcome<U>
  {
    match v
    case Forward(x) => deliver(x)
    case Drop => WriteOutcome([], None)
    case Reject(e) => WriteOutcome([], Some(e))
  }

  /** On read, the innermost (first registered) stage transforms the
      terminal's result first and the outermost transforms it last. */
  lemma {:induction false} ReadRtpLaw(s: Stage, c: Carrier)
    ensures ReadRtp(s, c) == ApplyReads(Registered(s), OnReadRtp, TerminalReadRtp(c))
  {
    match s
    case Terminal =>
    case Layer(ic, next) =>
      ReadRtpLaw(next, c);
      ApplyReadsSnoc(Registered(next), ic, OnReadRtp, TerminalReadRtp(c));
  }

  lemma {:induction false} ReadRtcpLaw(s: Stage, c: Carrier)
    ensures ReadRtcp(s, c) == ApplyReads(Registered(s), OnReadRtcp, TerminalReadRtcp(c))
  {
    match s
    case Terminal =>
    case Layer(ic, next) =>
      ReadRtcpLaw(next, c);
      ApplyReadsSnoc(Registered(next), ic, OnReadRtcp, TerminalReadRtcp(c));
  }

  /** On write, the mirror image: the outermost (last registered) stage
      decides first and the innermost decides last, just before the
      terminal hands the packet to the carrier's callback. */
  lemma {:induction false} WriteRtpLaw(s: Stage, c: Carrier, a: Annotated)
    ensures WriteRtp(s, c, a)
         == Settle(ApplyWrites(Reverse(Registered(s)), OnWriteRtp, a), b => TerminalWriteRtp(c, b))
  {
    match s
    case Terminal =>
    case Layer(ic, next) =>
      ReverseSnoc(Registered(next), ic);
      var order := Reverse(Registered(s));
      assert order[0] == ic && order[1..] == Reverse(Registered(next));
      match OnWriteRtp(ic, a)
      case Forward(b) => WriteRtpLaw(next, c, b);
      case Drop =>
      case Reject(e) =>
  }

  lemma {:induction false} WriteRtcpLaw(s: Stage, c: Carrier, ps: seq<RtcpPacket>)
    ensures WriteRtcp(s, c, ps)
         == Settle(ApplyWrites(Reverse(Registered(s)), OnWriteRtcp, ps), qs => TerminalWriteRtcp(c, qs))
  {
    match s
    case Terminal =>
    case Layer(ic, next) =>
      ReverseSnoc(Registered(next), ic);
      var order := Reverse(Registered(s));
      assert order[0] == ic && order[1..] == Reverse(Registered(next));
      match OnWriteRtcp(ic, ps)
      case Forward(qs) => WriteRtcpLaw(next, c, qs);
      case Drop =>
      case Reject(e) =>
  }
}
