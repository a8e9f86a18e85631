/** Interceptors: what each kind of middleware does to a packet when its stage
    runs. A stage built by an interceptor embeds the stage it wraps, so every
    operation the interceptor does not override passes straight through. */
module Interceptors {
  import opened Results
  import opened Packets

  /** The behaviour of an interceptor other than the two test ones, one hook
      per packet operation: read hooks transform the next stage's successful
      result, write hooks decide what the next stage is given. */
  datatype Hooks = Hooks(
    readRtp: Annotated -> Result<Annotated>,
    writeRtp: Annotated -> Verdict<Annotated>,
    readRtcp: seq<RtcpPacket> -> Result<seq<RtcpPacket>>,
    writeRtcp: seq<RtcpPacket> -> Verdict<seq<RtcpPacket>>)

  /** `testInterceptor1`, `testInterceptor2`, or any other interceptor. */
  datatype Interceptor =
    | TestInterceptor1
    | TestInterceptor2
    | Custom(hooks: Hooks)

  const Read1: string := "read1"

  /** `after` is `before` with the SSRC set to 1 and the test key set to
      "read1", and nothing else changed. */
  ghost predicate Stamped(before: Annotated, after: Annotated)
  {
    && after.packet.ssrc == 1
    && after.packet.rest == before.packet.rest
    && Lookup(after.meta, TestInterceptorKey) == Some(Read1)
    && forall k :: k != TestInterceptorKey ==> Lookup(after.meta, k) == Lookup(before.meta, k)
  }

  /** What `testReadWriter1` does to a packet and its bag, on read and on write. */
  function Stamp(a: Annotated): (b: Annotated)
    ensures Stamped(a, b)
  {
    Annotated(a.packet.(ssrc := 1), a.meta[TestInterceptorKey := Read1])
  }

  /** The two checks `testReadWriter2` makes (and logs when they fail):
      the SSRC is 1 and the test key holds "read1". They pass exactly on the
      values that stage 1's edit leaves unchanged. */
  function SawStage1(a: Annotated): (r: bool)
    ensures r <==> Stamp(a) == a
  {
    var ok := a.packet.ssrc == 1 && Lookup(a.meta, TestInterceptorKey) == Some(Read1);
    assert ok ==> a.meta[TestInterceptorKey := Read1] == a.meta;
    assert Stamp(a) == a ==> Lookup(a.meta, TestInterceptorKey) == Lookup(Stamp(a).meta, TestInterceptorKey);
    ok
  }

  /** What the stage does to the next stage's successful RTP read. */
  function OnReadRtp(ic: Interceptor, a: Annotated): (r: Result<Annotated>)
    ensures ic.TestInterceptor1? ==> r.Ok? && Stamped(a, r.value)
    ensures ic.TestInterceptor2? ==> r.Ok? && r.value.packet.ssrc == 2
                                     && r.value.packet.rest == [] && r.value.meta == a.meta
  {
    match ic
    case TestInterceptor1 => Ok(Stamp(a))
    case TestInterceptor2 => Ok(Annotated(FreshPacket(2), a.meta))
    case Custom(h) => h.readRtp(a)
  }

  /** What the stage hands its next stage on an RTP write. */
  function OnWriteRtp(ic: Interceptor, a: Annotated): (v: Verdict<Annotated>)
    ensures ic.TestInterceptor1? ==> v.Forward? && Stamped(a, v.value)
    ensures ic.TestInterceptor2? ==> v.Forward? && v.value.packet.ssrc == 2
                                     && v.value.packet.rest == [] && v.value.meta == a.meta
  {
    match ic
    case TestInterceptor1 => Forward(Stamp(a))
    case TestInterceptor2 => Forward(Annotated(FreshPacket(2), a.meta))
    case Custom(h) => h.writeRtp(a)
  }

  /** What the stage does to the next stage's successful RTCP read. */
  function OnReadRtcp(ic: Interceptor, ps: seq<RtcpPacket>): (r: Result<seq<RtcpPacket>>)
    ensures !ic.Custom? ==> r == Ok(ps)
  {
    match ic
    case Custom(h) => h.readRtcp(ps)
    case _ => Ok(ps)
  }

  /** What the stage hands its next stage on an RTCP write. */
  function OnWriteRtcp(ic: Interceptor, ps: seq<RtcpPacket>): (v: Verdict<seq<RtcpPacket>>)
    ensures !ic.Custom? ==> v == Forward(ps)
  {
    match ic
    case Custom(h) => h.writeRtcp(ps)
    case _ => Forward(ps)
  }
}
