/** The two chain tests, restated over the model with stage 1 registered before
    stage 2, the write test against the driver with a usable callback, and the
    write scenario the write test evidently has in mind. */
module ChainTests {
  import opened Results
  import opened Packets
  import opened Carriers
  import opened Interceptors
  import opened Pipeline
  import opened Chain
  import opened Driver

  /** Whenever stage 1 sits directly inside stage 2, stage 2's read-side
      checks hold on what it receives. */
  lemma Stage2ReadChecksHold(next: Stage, c: Carrier)
    ensures ReadRtp(Layer(TestInterceptor1, next), c).Ok?
        ==> SawStage1(ReadRtp(Layer(TestInterceptor1, next), c).value)
  {
  }

  /** A write that enters stage 2 with the driver's empty metadata bag goes
      on to the next stage as a fresh SSRC-2 packet with that same empty bag,
      and stage 2's write checks fail on what it was handed. */
  lemma Stage2WriteCheckFailsWhenOutermost(next: Stage, c: Carrier, packet: RtpPacket)
    ensures WriteRtp(Layer(TestInterceptor2, next), c, Annotated(packet, map[]))
         == WriteRtp(next, c, Annotated(FreshPacket(2), map[]))
    ensures !SawStage1(Annotated(packet, map[]))
  {
  }

  /** `TestInterceptorChainReadRTP`: no error, and SSRC 2. */
  method TestInterceptorChainReadRtp() returns (p: Result<RtpPacket>)
    ensures p == Ok(FreshPacket(2))
  {
    var chain := NewInterceptorChain([TestInterceptor1, TestInterceptor2]);
    p := WrapReadRtp(chain, FreshPacket(0));
    var a0 := Annotated(FreshPacket(0), map[]);
    var a1 := Stamp(a0);
    assert ApplyReads([TestInterceptor1, TestInterceptor2], OnReadRtp, Ok(a0))
        == ApplyReads([TestInterceptor2], OnReadRtp, Ok(a1));
  }

  /** `TestInterceptorChainWriteRTP` as the code behaves: stage 2 is
      outermost and its write checks fail on the test's packet, and the
      packet that comes out of stage 1 finds no usable callback, so the
      driver returns the callback error and the test stops at its first
      check. */
  method TestInterceptorChainWriteRtp() returns (chain: InterceptorChain, p: Result<Option<RtpPacket>>)
    ensures chain.readWriter == Layer(TestInterceptor2, Layer(TestInterceptor1, Terminal))
    ensures p == Err(CallbackNotFound)
    ensures WriteRtp(chain.readWriter, WriteRtpCarrier(Literal), Annotated(FreshPacket(0), map[]))
         == WriteRtp(Layer(TestInterceptor1, Terminal), WriteRtpCarrier(Literal), Annotated(FreshPacket(2), map[]))
    ensures !SawStage1(Annotated(FreshPacket(0), map[]))
  {
    chain := NewInterceptorChain([TestInterceptor1, TestInterceptor2]);
    StageDeterminedByInterceptors(chain.readWriter, Layer(TestInterceptor2, Layer(TestInterceptor1, Terminal)));
    Stage2WriteCheckFailsWhenOutermost(Layer(TestInterceptor1, Terminal), WriteRtpCarrier(Literal), FreshPacket(0));
    p := WrapWriteRtp(chain, FreshPacket(0));
    var order := Reverse([TestInterceptor1, TestInterceptor2]);
    assert order == [TestInterceptor2, TestInterceptor1];
    var a1 := Annotated(FreshPacket(2), map[]);
    assert ApplyWrites(order, OnWriteRtp, Annotated(FreshPacket(0), map[]))
        == ApplyWrites([TestInterceptor1], OnWriteRtp, a1);
    assert ApplyWrites([TestInterceptor1], OnWriteRtp, a1) == Forward(Stamp(a1));
  }

  /** The same test against the driver with a usable callback: stage 2 runs
      first and stage 1 last, so the captured packet has SSRC 1, not the
      SSRC 2 the test expects. */
  method TestInterceptorChainWriteRtpFixed() returns (chain: InterceptorChain, p: Result<Option<RtpPacket>>)
    ensures chain.readWriter == Layer(TestInterceptor2, Layer(TestInterceptor1, Terminal))
    ensures p == Ok(Some(FreshPacket(1)))
    ensures WriteRtp(chain.readWriter, WriteRtpCarrier(Named), Annotated(FreshPacket(0), map[])).delivered
         == [FreshPacket(1)]
  {
    chain := NewInterceptorChain([TestInterceptor1, TestInterceptor2]);
    StageDeterminedByInterceptors(chain.readWriter, Layer(TestInterceptor2, Layer(TestInterceptor1, Terminal)));
    p := WrapWriteRtpFixed(chain, FreshPacket(0));
    var order := Reverse([TestInterceptor1, TestInterceptor2]);
    assert order == [TestInterceptor2, TestInterceptor1];
    var a1 := Annotated(FreshPacket(2), map[]);
    assert ApplyWrites(order, OnWriteRtp, Annotated(FreshPacket(0), map[]))
        == ApplyWrites([TestInterceptor1], OnWriteRtp, a1);
    assert ApplyWrites([TestInterceptor1], OnWriteRtp, a1) == Forward(Stamp(a1));
  }

  /** With stage 2 registered first, stage 1 is outermost and writes first:
      stage 2 is handed SSRC 1 and "read1", its write checks hold, and with a
      usable callback the captured packet has SSRC 2, which is what the write
      test expects. */
  method ReversedRegistrationWrite() returns (chain: InterceptorChain, p: Result<Option<RtpPacket>>, ghost seenByStage2: Annotated)
    ensures chain.readWriter == Layer(TestInterceptor1, Layer(TestInterceptor2, Terminal))
    ensures p == Ok(Some(FreshPacket(2)))
    ensures OnWriteRtp(TestInterceptor1, Annotated(FreshPacket(0), map[])) == Forward(seenByStage2)
    ensures WriteRtp(chain.readWriter, WriteRtpCarrier(Named), Annotated(FreshPacket(0), map[]))
         == WriteRtp(Layer(TestInterceptor2, Terminal), WriteRtpCarrier(Named), seenByStage2)
    ensures SawStage1(seenByStage2)
  {
    chain := NewInterceptorChain([TestInterceptor2, TestInterceptor1]);
    StageDeterminedByInterceptors(chain.readWriter, Layer(TestInterceptor1, Layer(TestInterceptor2, Terminal)));
    p := WrapWriteRtpFixed(chain, FreshPacket(0));
    var order := Reverse([TestInterceptor2, TestInterceptor1]);
    assert order == [TestInterceptor1, TestInterceptor2];
    seenByStage2 := Stamp(Annotated(FreshPacket(0), map[]));
    assert ApplyWrites(order, OnWriteRtp, Annotated(FreshPacket(0), map[]))
        == ApplyWrites([TestInterceptor2], OnWriteRtp, seenByStage2);
  }
}
