# RTP/RTCP interceptor chain — a Dafny model

This project models the interceptor chain of a WebRTC implementation in Go.
The chain is a nested pipeline of middleware stages that every media (RTP)
and control (RTCP) packet passes through, once per direction:

- **Terminal stage** (`contextReadWriter`): the innermost stage. On read it
  takes the packet out of the per-call carrier. On write it hands the packet
  to the callback in the carrier, which must have the named callback type
  (`writeRTP` or `writeRTCP`). When the carrier lacks the key for the
  operation, or the value under a write key has another type, it fails.
- **Chain builder** (`newInterceptorChain`): a left fold of `Intercept` over the
  terminal. The first-registered interceptor ends up innermost and the last
  ends up outermost.
- **Driver** (`wrapReadRTP`, `wrapWriteRTP`, `wrapReadRTCP`, `wrapWriteRTCP`):
  builds a fresh carrier, calls the outermost stage, and returns a plain result.
- **Test interceptors** (`testReadWriter1`, `testReadWriter2`): the two stages
  the chain tests use to pin down ordering.

Layout, one module per file:

- `results.dfy` (`Results`): `Option`, `Result`, `Verdict` (a write-side
  decision: forward, drop or reject), `WriteOutcome`, and the error kinds with
  their messages.
- `packets.dfy` (`Packets`): an RTP packet reduced to its SSRC plus opaque
  bytes, opaque RTCP packets, and the metadata bag as `map<MetaKey, string>`.
- `carriers.dfy` (`Carriers`): the carrier as a sum type with one case per
  carrier key plus an empty case. A write case records whether the stored
  callback has the named callback type or is a bare function literal.
- `interceptors.dfy` (`Interceptors`): the two test interceptors and a
  `Custom` interceptor described by four hooks. Each interceptor's effect on
  a packet is given by `OnReadRtp`, `OnWriteRtp`, `OnReadRtcp` and `OnWriteRtcp`.
  Test stages embed the stage they wrap, so their RTCP operations pass through.
- `chain.dfy` (`Chain`): stages as the recursive datatype
  `Terminal | Layer(interceptor, next)`, the terminal's operations, the four
  packet operations and `Close` of any stage, and the builder.
- `pipeline.dfy` (`Pipeline`): a reference semantics that does not depend on
  nesting. It applies the interceptors' steps along a list.
- `laws.dfy` (`Laws`): proofs that the nested stages equal the reference
  semantics. Reads apply the list in registration order. Writes apply it in
  reverse registration order.
- `driver.dfy` (`Driver`): the four driver operations as written, plus a
  corrected media write and a corrected control-packet write.
- `chain_tests.dfy` (`ChainTests`): the two chain tests and their stage checks.

Modelling choices:

- The write drivers (interceptor.go:96-98 and 114-116) store a bare function
  literal under the write-RTP key. Its type is the unnamed
  `func(*rtp.Packet)`, while the terminal asserts the named type `writeRTP`
  (line 49, type declared at line 36). A Go type assertion to a named
  non-interface type needs the identical dynamic type, so the assertion fails
  and the terminal returns "callback not found in context". The model keeps
  this: `Carriers.Callback` says whether a stored callback is `Named` or a
  bare `Literal`, and the terminal accepts only `Named`. So `WrapWriteRtp` as
  written never captures a packet. `WrapWriteRtpFixed` is the driver with the
  literal converted to `writeRTP` before it is stored (see Findings).
- A callback is not a function value. Each invocation is recorded as one
  entry of `WriteOutcome.delivered`, and the corrected drivers return the
  last entry, as the Go closure's variable would hold the last assignment.
- The metadata bag is passed as a value. For the modelled stages this matches
  Go's shared map: on write they add keys before delegating, and on read they
  add keys after the next stage returns.
- Every driver call starts from a fresh empty bag. The terminal stage creates
  it on read and the driver creates it on write. No operation takes a bag
  from an earlier call, so no entry can carry over between calls. The read
  driver returns only the packet, so the bag is dropped.
- `interceptor.go` declares the `keyWriteRTCP` key and the `writeRTCP`
  callback type (lines 34 and 37), but no driver ever installs them.
  `wrapWriteRTCP` (lines 112-123) is a line-for-line copy of `wrapWriteRTP`
  (lines 94-105), so a control-packet write is evidently meant to go through
  each stage's `WriteRTCP`. The model follows the code in
  `Driver.WrapWriteRtcp` and gives the intended version separately (see
  Findings).

## Model

| member | source | states |
|---|---|---|
| `Chain.TerminalReadRtp` | interceptor.go:39-46 | Succeeds exactly when the carrier holds the read-RTP key. A carrier holding another key's payload counts as absent. On success it returns the stored packet unchanged with a fresh empty bag; otherwise the error with text "packet not found in context". |
| `Chain.TerminalWriteRtp` | interceptor.go:48-56 | Succeeds exactly when the carrier holds a `writeRTP`-typed callback under the write-RTP key; a missing key and a value of another type fail alike. On success it invokes the callback exactly once with the packet unchanged. Otherwise it invokes nothing and returns the error with text "callback not found in context". |
| `Chain.TerminalReadRtcp` | interceptor.go:58-64 | Succeeds exactly when the carrier holds the read-RTCP key. It returns the stored list unchanged, or the error with text "packets not found in context". |
| `Chain.TerminalWriteRtcp` | interceptor.go:66-74 | Succeeds exactly when the carrier holds a `writeRTCP`-typed callback under the write-RTCP key. It invokes the callback exactly once with the list unchanged, or returns the error with text "callback not found in context". |
| `Chain.Close` | interceptor.go:76-78 | Closing any stage succeeds. The terminal's Close returns nil and every modelled stage inherits Close from the stage it wraps. |
| `Chain.ReadRtp` | interceptor.go:40-43 | For any chain, a carrier without the read-RTP key makes the RTP read fail with exactly the terminal's "packet not found" error. Stages pass the error through unchanged. |
| `Chain.WriteRtp` | interceptor.go:49-53 | For any chain, an RTP write invokes the callback at most once. It invokes it only when the carrier holds a `writeRTP`-typed callback under the write-RTP key, and never when the write fails. |
| `Chain.ReadRtcp` | interceptor.go:59-62 | For any chain, a carrier without the read-RTCP key makes the RTCP read fail with exactly "packets not found". |
| `Chain.WriteRtcp` | interceptor.go:67-71 | For any chain, an RTCP write invokes the callback at most once. It invokes it only when the carrier holds a `writeRTCP`-typed callback under the write-RTCP key, and never when the write fails. |
| `Chain.Intercept` | interceptor_test.go:28-34 | An interceptor returns a stage whose next stage is exactly the one it was given. It adds itself as the new outermost entry of the interceptor list. |
| `Chain.NewInterceptorChain` | interceptor.go:80-86 | The built chain's interceptors, listed innermost first, are exactly the registered list. An empty list yields the terminal itself, and the last-registered interceptor is outermost. |
| `Chain.StageDeterminedByInterceptors` | interceptor.go:80-86 | Two stages with the same interceptor list are equal, so the builder's result is the only chain for a given registration list. |
| `Interceptors.Stamp` | interceptor_test.go:42-43 | Stage 1's edit sets SSRC to 1 and the test key to "read1". It leaves the packet's other contents and every other bag entry unchanged. |
| `Interceptors.SawStage1` | interceptor_test.go:61-67 | Stage 2's two checks are SSRC 1 and test key "read1". They pass exactly on the values that stage 1's edit leaves unchanged. |
| `Interceptors.OnReadRtp` | interceptor_test.go:36-74 | On a successful next-stage read, stage 1 applies `Stamp`. Stage 2 replaces the packet with a fresh one whose SSRC is 2 and keeps the bag. |
| `Interceptors.OnWriteRtp` | interceptor_test.go:48-90 | Before delegating, stage 1 applies `Stamp`. Stage 2 forwards a fresh packet whose SSRC is 2 with the bag unchanged. Neither drops or rejects. |
| `Interceptors.OnReadRtcp` | interceptor_test.go:17-24 | The test stages do not override RTCP read, so they hand back the next stage's list unchanged. |
| `Interceptors.OnWriteRtcp` | interceptor_test.go:17-24 | The test stages do not override RTCP write, so they forward the list unchanged. |
| `Laws.ReadRtpLaw` | interceptor.go:80-86 | For every chain and carrier, an RTP read applies the read steps in registration order to the terminal's result. The innermost stage goes first and the outermost last, and the first error short-circuits. |
| `Laws.ReadRtcpLaw` | interceptor.go:80-86 | The same registration-order law for RTCP reads. |
| `Laws.WriteRtpLaw` | interceptor.go:80-86 | For every chain, carrier and packet, an RTP write applies the write steps in reverse registration order, outermost first. Whatever survives reaches the terminal; a drop or rejection stops the write before the terminal. |
| `Laws.WriteRtcpLaw` | interceptor.go:80-86 | The same mirrored-order law for RTCP writes. |
| `Driver.WrapReadRtp` | interceptor.go:88-92 | The result is the given packet with a fresh empty bag, transformed in registration order, with the bag then dropped. The first error is returned with no packet. The empty chain returns the input unchanged. |
| `Driver.WrapWriteRtp` | interceptor.go:94-105 | As written: the stages' write steps run in reverse registration order from a fresh empty bag. A packet that reaches the terminal finds only a bare function literal, so the result is (nil, "callback not found in context"). A rejection returns its error and a drop returns (nil, nil). No chain ever returns a packet, and the empty chain returns the callback error. |
| `Driver.WrapWriteRtpFixed` | interceptor.go:94-105 | With the callback stored as a `writeRTP`: the result is the packet the innermost stage handed to the terminal, after every stage's write step in reverse registration order from a fresh empty bag. It is (nil, err) on a rejection and (nil, nil) when no stage reached the terminal. The empty chain returns the input unchanged. |
| `Driver.WrapReadRtcp` | interceptor.go:107-110 | The result is the given list transformed in registration order. The empty chain returns it unchanged. |
| `Driver.WrapWriteRtcp` | interceptor.go:112-123 | Equal to `WrapWriteRtp` on every chain and every packet. |
| `Driver.WrapWriteRtcpFixed` | interceptor.go:112-123 | The intended control write: the list goes through every stage's RTCP write in reverse registration order and is captured at the terminal. The empty chain returns it unchanged. |
| `Driver.OuterRejectIsReturned` | interceptor.go:99-102 | When the outermost stage rejects a write, the driver returns that error and no packet. |
| `Driver.OuterDropReturnsNothing` | interceptor.go:95-104 | When the outermost stage drops a write, no stage reaches the terminal and the driver returns neither a packet nor an error. |
| `Driver.WrapWriteRtcpSkipsControlPath` | interceptor.go:112-123 | Take a chain whose only stage refuses every RTCP write. `wrapWriteRTCP` as written fails only with the callback error, never with the stage's refusal. With a `writeRTP` callback the same media write succeeds with the packet, while the intended control write returns the stage's refusal. |
| `ChainTests.Stage2ReadChecksHold` | interceptor_test.go:55-68 | Whenever stage 1 sits directly inside stage 2, stage 2's read checks (SSRC 1, meta "read1") hold on what it receives. |
| `ChainTests.Stage2WriteCheckFailsWhenOutermost` | interceptor_test.go:76-90 | Take a write that enters stage 2 with any packet and the driver's empty bag, over any next stage. It equals a write of a fresh SSRC-2 packet with the same empty bag into the next stage. Stage 2's write checks fail on what it was handed. |
| `ChainTests.TestInterceptorChainReadRtp` | interceptor_test.go:92-106 | Reading an empty packet through chain [1,2] gives no error and exactly a fresh packet with SSRC 2. |
| `ChainTests.TestInterceptorChainWriteRtp` | interceptor_test.go:108-122 | Chain [1,2] is stage 2 wrapped around stage 1. Stage 2, outermost, is handed the test's packet with an empty bag, and its write checks fail on it. It passes a fresh SSRC-2 packet on to stage 1. The driver as written then returns "callback not found in context", so the test stops at its first check (line 116). |
| `ChainTests.TestInterceptorChainWriteRtpFixed` | interceptor_test.go:108-122 | Through the driver with a `writeRTP` callback, writing an empty packet through chain [1,2] captures exactly a fresh packet with SSRC 1, so the expected SSRC 2 (line 119) is still not met. |
| `ChainTests.ReversedRegistrationWrite` | interceptor_test.go:108-122 | With registration [2,1], the chain is stage 1 wrapped around stage 2, so stage 1 writes first. Stage 2 then receives SSRC 1 and "read1" and its checks hold. The whole write equals stage 2's write of what stage 1 forwarded. Through the driver with a `writeRTP` callback the captured packet has SSRC 2, as the write test expects. |

## Findings

| source | as written | input that shows it | evidently intended | confidence | as-written member | corrected member |
|---|---|---|---|---|---|---|
| interceptor.go:96-98, 114-116 vs 49 | both write drivers store a bare `func(*rtp.Packet)` literal under the write-RTP key; the terminal's `.(writeRTP)` assertion does not accept that unnamed type | the empty chain and any packet: `wrapWriteRTP` returns (nil, "callback not found in context") | convert the literal to `writeRTP` before storing it, so the terminal invokes it and the driver returns the packet | high, not executed | `Driver.WrapWriteRtp` | `Driver.WrapWriteRtpFixed` |
| interceptor.go:112-123 | `wrapWriteRTCP` takes an RTP packet, installs its callback under the write-RTP key and calls each stage's `WriteRTP` | a chain whose only stage refuses every RTCP write: `wrapWriteRTCP` returns "callback not found in context" from the terminal, never the stage's refusal, and with a `writeRTP` callback it would succeed | take a list of RTCP packets, install a `writeRTCP` callback under the write-RTCP key and call each stage's `WriteRTCP` | medium, not executed | `Driver.WrapWriteRtcp` (with `Driver.WrapWriteRtcpSkipsControlPath`) | `Driver.WrapWriteRtcpFixed` |
| interceptor_test.go:119-121 | the write test expects SSRC 2 after writing through chain [1,2] | an empty packet through [1,2]: stage 2 runs first and its write checks fail (lines 77-83); the driver as written then errors, and the test stops at line 116; with a `writeRTP` callback the captured SSRC is 1 | the write order the test assumes is stage 1 then stage 2, which is registration [2,1] | high, not executed | `ChainTests.TestInterceptorChainWriteRtp` (and `ChainTests.TestInterceptorChainWriteRtpFixed`) | `ChainTests.ReversedRegistrationWrite` |

## Left out

- Packets are values. Go stages edit packets in place through shared references. So reading through [1,2] also sets SSRC 1 on the caller's own packet, and writing with stage 1 outermost edits the caller's packet. That aliasing is not modelled.
- Nil packets are not modelled. A nil RTP packet passed to the read driver would reach stage 1 and panic on the nil dereference. Driver inputs are always packets.
- `Custom` interceptors have a fixed shape. Read hooks run only on the next stage's success, and write hooks run only before delegating. Each forwards at most once. A Go stage that calls its next stage several times, short-circuits a read, or fails after delegating is not modelled. The same goes for one that returns a packet together with an error. So "the last packet passed to the callback" is always the only one.
- `Custom` interceptors do not override `Close`. Like the test stages, they inherit it from the stage they wrap.
- The opaque `*PeerConnection` handle passed to `Intercept` is dropped. No stage uses it.
- Go's `context.Context` and `interface{}`-keyed maps are replaced by the carrier sum type and a map from `MetaKey` to strings.
- The internals of RTP and RTCP packets are left out. They come from external libraries and the chain never reads them.
- There is no chain-wide close cascade. `interceptorChain` has no `Close` method; only stage-level `Close` is modelled.
- The `t.Errorf` logging of stage 2 is modelled as the predicate `SawStage1`, not as a side effect.
- The end-to-end peer-connection tests are left out. They run over ICE/DTLS signalling, data channels, goroutines and timeouts, which are I/O and concurrency.
