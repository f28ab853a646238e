# gsm-sip-bridge: the media and call-control core in Dafny

This project models the parts of gsm-sip-bridge in which a wrong branch is heard or billed, and proves
what they promise. It covers:

- **AMR repacking and forwarding**: converting RTP payloads between the octet-aligned and the
  bandwidth-efficient packing (sections 4.4 and 4.3 of RFC 4867) without decoding, and the packet pump
  built on it, with payload-type relabelling, mode-set policing, and the source-address latch.
  `Bits`, `BitIo`, `Amr`, `RepackLaws`, `Repacking`, `Repacker`, `ModeScan`, `AmrRtp`, `Rtp`,
  `ModeMask`, `SourceLatch`, `Relay`, `RelayPump`, `ForwardSession`, `Params`, `Forwarding`.
- **Two protocols around PJSIP callbacks**, as interleaved steps: how a poll learns that a call has
  ended, and how a call is kept quiet while its streams come and go. `DisconnectLog`, `PollState`,
  `Passthrough`, `CallReuse`, `Silencing`.
- **Stateful classes with run-level guarantees**: the outgoing-call limiter, the echo mixer, and the
  RTP reorder buffer. `CallLimiter`, `Echo`, `Reorder`, `ReorderRuns`,
  `ReorderFates`.
- **The `Reason` header** (section 2 of RFC 3326): splitting outside quoted strings and finding the
  Q.850 cause. `Text`, `ReasonHeader`, `ReasonCause`.

`Wrappers` holds the option type, `Seqs` the cutting and joining of sequences.

Octets are 8-bit vectors and mode masks 16-bit vectors, so shifts, masks and truncation are the
source's. Bit strings are sequences of booleans, and both packings are specified on them. Objects the
source updates in place are classes whose methods are proved against functions on values; loops are
loops with invariants. Protocols are state machines, and their theorems are about every run.

Check everything with `dafny verify dfyconfig.toml`.

## Where the code and what is said about it differ

- `pjsua-safe/src/passthrough.rs:101-103` says a reused call id never inherits an entry. A call that has an
  id finds an entry made for an earlier call exactly when the last action on that entry registered for an
  earlier call after that call's disconnect had run (`InheritedExactly`), and a registration is safe exactly
  when that disconnect has not run (`RegistrationIsSafeExactly`). `LateRegistrationIsInherited` is a run in
  which the next call is silenced.
- Registering in time is not enough to leave the next call alone: `register_quiet` looks its stream up
  after inserting the entry (`pjsua-safe/src/passthrough.rs:73-76`), and by then the id may belong to
  another call (`LatePauseHitsTheNextCall`). The look-up is safe exactly when the disconnect of its call has
  not run (`LookUpIsSafeExactly`). A created-callback that comes after its call has given up the id silences
  that call's stream (`LateCallbackHitsTheEndedCall`). Keeping all three in time is exactly what it takes for
  only registered calls to be silenced (`OnlyRegisteredCallsAreSilenced`).
- `siptest/src/safety.rs:104-130` compares the number of attempts after a cast to 32 bits. The hourly cap
  holds on every run exactly when the cap is below 2^31 or the minimum interval is not zero
  (`PromiseHoldsExactly`).
- The decoding path (`gsm-sip-bridge/src/ims/amr_rtp.rs:126-153`) copies the table octet and the frame of
  an octet-aligned payload as they are, while repacking clears reserved and pad bits. The two paths give
  the same frame exactly when those bits are zero (`PathsAgree`); `PathsDiffer` is a payload on which they
  do not.

## Environment

- PJSIP is assumed to behave as the comments at `pjsua-safe/src/endpoint.rs:27-45` and
  `pjsua-safe/src/passthrough.rs:47-50` say: it marks a call disconnected, then runs the callback, then
  frees the id; and it announces a stream's destruction before freeing it. Calls are numbered, so that an
  id can pass from one call to the next. `QuietCallsAreSilent` also takes PJSIP to have one stream up per
  id at a time, and `LookUpIsSafeExactly` takes it to announce a stream before the disconnect of its call has
  finished.
- Clocks, addresses and datagrams are parameters. Times do not go back; the echo mixer's are
  nanoseconds. In the reorder buffer a packet's media fingerprint is the hash value the source
  computes; the hash itself is not modelled.
- The echo gain is a 32-bit float clamped as the source does; its products are reals under any rounding
  that is off by no more than a millionth, then truncated towards zero.
- The forwarding theorems take the audio and event payload types of a leg to be distinct: the relay
  looks for an event first, so a leg with equal types would have no audio.

## Model

| member | source | states |
|---|---|---|
| `BitIo.BitReader.Read` | gsm-sip-bridge/src/ims/amr_rtp.rs:59-68 | reads exactly the next `n` bits as a number and moves past them; on short input returns nothing with the input used up |
| `BitIo.BitReader.ReadBitsToBytes` | gsm-sip-bridge/src/ims/amr_rtp.rs:73-82 | the octets returned are the next `n` bits, left-aligned and zero-padded; on short input returns nothing |
| `BitIo.BitWriter.Write` | gsm-sip-bridge/src/ims/amr_rtp.rs:95-105 | appends exactly the low `n` bits of the value to everything written before; the octets always hold the written bits and zero padding |
| `BitIo.BitWriter.WriteBitsFromBytes` | gsm-sip-bridge/src/ims/amr_rtp.rs:107-112 | appends exactly the first `n` bits of the octets given |
| `BitIo.WriteThenRead` | gsm-sip-bridge/src/ims/amr_rtp.rs:53-113 | any sequence of fields and bit blocks written by a `BitWriter` and read by a `BitReader` that knows only the widths comes back unchanged; the octets are as few as fit and padded with zeros |
| `BitIo.PiecesReadBack` | gsm-sip-bridge/src/ims/amr_rtp.rs:53-113 | every piece of a packed bit stream lies at its own position, and every bit past the last piece is zero |
| `Repacking.ParseOfBuild` | gsm-sip-bridge/src/amr_forward/repack.rs:52-135 | for both flavours, both packings and any number of frames, parsing what was built from a well-formed packet gives that packet: mode request, types, quality bits and data |
| `Repacking.BuildOfParse` | gsm-sip-bridge/src/amr_forward/repack.rs:52-135 | what a successful parse yields is well-formed, and building it gives the payload with only its reserved bits cleared (octet-aligned) or its used bits zero-padded (bandwidth-efficient) |
| `Repacking.RepackPreserves` | gsm-sip-bridge/src/amr_forward/repack.rs:191-202 | conversion fails exactly when the source does not parse; otherwise the result parses in the other packing to the same packet |
| `Repacking.OctetAlignedRoundTrip` | gsm-sip-bridge/src/amr_forward/repack.rs:191-202 | octet-aligned, there and back, is the payload with the low mode-request nibble, the two low bits of each table entry and the frame padding cleared, and nothing else |
| `Repacking.BandwidthEfficientRoundTrip` | gsm-sip-bridge/src/amr_forward/repack.rs:191-202 | bandwidth-efficient, there and back, is the first ceil(used / 8) octets with the padding zero |
| `Repacking.PayloadSizes` | gsm-sip-bridge/src/amr_forward/repack.rs:105-135 | exact payload sizes: ceil((4 + 6n + frame bits) / 8) octets against 1 + n + frame octets; the first is never the larger |
| `RepackLaws.CanonicalIsPack` | gsm-sip-bridge/src/amr_forward/repack.rs:43-50 | `canonical` keeps exactly the first `n` bits and clears every pad bit |
| `Repacking.ListedModesOfParse` | gsm-sip-bridge/src/amr_forward/repack.rs:145-178 | whenever a payload parses, the modes the table scan lists are the speech types of the parsed packet, in order |
| `Repacking.RepackKeepsModes` | gsm-sip-bridge/src/amr_forward/repack.rs:145-202 | repacking keeps the listed speech modes |
| `Repacking.CmrOfParse` | gsm-sip-bridge/src/amr_forward/repack.rs:138-140 | `cmr_of` agrees with the parser in both packings |
| `Repacking.WithCmrParse` | gsm-sip-bridge/src/amr_forward/repack.rs:181-185 | overwriting the mode request changes it and nothing else: same table, same frames, and a payload that did not parse still does not |
| `Repacker.ParseOctetAligned` | gsm-sip-bridge/src/amr_forward/repack.rs:52-78 | the cursor loop over octets computes the octet-aligned parse for every byte string |
| `Repacker.FramesOctetAligned` | gsm-sip-bridge/src/amr_forward/repack.rs:65-76 | the frame loop returns the frames and the octet where it stopped, and fails exactly when the layout does |
| `Repacker.ParseBandwidthEfficient` | gsm-sip-bridge/src/amr_forward/repack.rs:79-102 | the bit-reader loop computes the bandwidth-efficient parse for every byte string |
| `Repacker.BuildOctetAligned` | gsm-sip-bridge/src/amr_forward/repack.rs:105-117 | the push loop computes the octet-aligned layout, and refuses exactly the packets it cannot lay out |
| `Repacker.BuildBandwidthEfficient` | gsm-sip-bridge/src/amr_forward/repack.rs:118-134 | the bit-writer loops compute the bandwidth-efficient layout, and refuse the same packets |
| `Repacker.RepackPayload` | gsm-sip-bridge/src/amr_forward/repack.rs:191-202 | the imperative conversion is the specified one; the same packing is a copy |
| `ModeScan.EntryBitsAt` | gsm-sip-bridge/src/amr_forward/repack.rs:160-168 | the six-bit window cut out of two octets by shifts is the F bit and frame type at that bit offset |
| `ModeScan.ScanModes` | gsm-sip-bridge/src/amr_forward/repack.rs:145-178 | the scan loop ends on every byte string and lists exactly the speech modes of the table of contents, nothing when the table runs out of payload |
| `ModeScan.SpeechModes` | gsm-sip-bridge/src/amr_forward/repack.rs:145-178 | the fast scan, with its per-flavour limit, is the listed modes |
| `Repacker.SetCmr` | gsm-sip-bridge/src/amr_forward/repack.rs:181-185 | in place: only the high nibble of the first payload octet changes; an empty payload is left alone |
| `AmrRtp.PayloadToFrame` | gsm-sip-bridge/src/ims/amr_rtp.rs:126-153 | decoding a payload to a storage frame, error paths included, for every byte string |
| `AmrRtp.FrameToPayload` | gsm-sip-bridge/src/ims/amr_rtp.rs:157-185 | encoding a storage frame, error paths included, for every byte string |
| `AmrRtp.FrameRoundTrip` | gsm-sip-bridge/src/ims/amr_rtp.rs:126-185 | decoding inverts encoding for every canonical speech frame in both packings, and the encoding is the one-frame packet with no mode request |
| `AmrRtp.PathsAgree` | gsm-sip-bridge/src/ims/amr_rtp.rs:126-153 | decoding an octet-aligned payload of one speech frame and decoding its bandwidth-efficient repacking give the same frame if and only if the reserved bits of its table octet and its padding are zero |
| `AmrRtp.PathsDiffer` | gsm-sip-bridge/src/ims/amr_rtp.rs:126-153 | a payload with its reserved table bits set, on which the two paths give different frames |
| `Rtp.ParsePacket` | gsm-sip-bridge/src/ims/rtp.rs:54-101 | where the payload lies: past CSRCs and extension, before padding, always inside the datagram |
| `Rtp.RelabelledParses` | gsm-sip-bridge/src/amr_forward/relay.rs:533-562 | relabelling in place keeps marker, sequence number, timestamp, SSRC and payload and takes the new payload type |
| `Rtp.PlainParses` | gsm-sip-bridge/src/amr_forward/relay.rs:549-561 | a rebuilt packet parses to exactly the new payload under the kept stream identity |
| `Rtp.PayloadIsNotHeader` | gsm-sip-bridge/src/amr_forward/relay.rs:409-426 | overwriting the payload in place moves neither its start nor its end, even with padding |
| `ModeMask.HighestIsMaximum` | gsm-sip-bridge/src/amr_forward/relay.rs:163-171 | `highest` is in the set and no mode of the set is above it |
| `ModeMask.InclusionTest` | gsm-sip-bridge/src/amr_forward/params.rs:304-308 | `carrier & !client == 0` is inclusion of the mode sets |
| `SourceLatch.LegIo.AcceptsFrom` | gsm-sip-bridge/src/amr_forward/relay.rs:112-135 | a connected leg hears everyone and changes nothing; a dynamic one follows the latch rule exactly |
| `SourceLatch.OneSource` | gsm-sip-bridge/src/amr_forward/relay.rs:101-135 | over every run between two writes of the address: one accepted source, at most one move, current = confirmed = sender after an accept, nothing accepted without an address |
| `SourceLatch.OnlyCurrent` | gsm-sip-bridge/src/amr_forward/relay.rs:101-135 | once settled, or with latching off, only the current address is heard and it never moves |
| `RelayPump.Pump.ClampCmr` | gsm-sip-bridge/src/amr_forward/relay.rs:409-426 | in place: the request becomes the highest allowed mode exactly when it is not allowed, the counter moves with it, and no other octet changes |
| `RelayPump.Pump.Police` | gsm-sip-bridge/src/amr_forward/relay.rs:427-450 | the counters and the verdict for a client packet are those the policy specifies |
| `RelayPump.Pump.ApplyGuard` | gsm-sip-bridge/src/amr_forward/relay.rs:409-451 | the guard in place: buffer, counters and verdict are those of the specified guard |
| `RelayPump.Pump.Translate` | gsm-sip-bridge/src/amr_forward/relay.rs:533-562 | relabel or rebuild: the datagram to send is the specified one, or none |
| `RelayPump.Pump.OnDatagram` | gsm-sip-bridge/src/amr_forward/relay.rs:476-529 | one turn of the pump: latch state, received and sent counts, guard counters and the datagram sent are those of the specified forwarding |
| `Relay.TranslatedAudio` | gsm-sip-bridge/src/amr_forward/relay.rs:533-562 | translated audio keeps the stream identity, takes the other leg's payload type, and its payload is the repacked one |
| `Relay.TranslatedEvent` | gsm-sip-bridge/src/amr_forward/relay.rs:533-562 | anything else that is sent is a telephone event, byte for byte apart from its label |
| `Relay.CarrierToClient` | gsm-sip-bridge/src/amr_forward/relay.rs:409-426 | every forwarded carrier packet keeps its identity, leaves with a request inside the carrier's set, and carries the same frames in the same order |
| `Relay.GuardedClient` | gsm-sip-bridge/src/amr_forward/relay.rs:427-450 | on a client packet the guard counts every listed speech frame, exactly those outside the set, and all of them as dropped when it drops; it drops if and only if it is told to and one is outside |
| `Relay.ForwardedExactly` | gsm-sip-bridge/src/amr_forward/relay.rs:476-562 | a packet is handed on if and only if it is audio the guard admits and the legs pack alike or its payload parses, or an event the other leg has a type for |
| `Relay.ClientToCarrier` | gsm-sip-bridge/src/amr_forward/relay.rs:427-450 | after relabelling and repacking a forwarded client packet lists the modes it listed before, and under `relax_drop` only modes of the carrier's set |
| `Relay.CountBadCounts` | gsm-sip-bridge/src/amr_forward/relay.rs:427-450 | the count is the number of listed frames outside the set, zero exactly when there are none |
| `ForwardSession.EveryCallIsSafe` | gsm-sip-bridge/src/amr_forward/relay.rs:404-562 | over every run of datagrams from anyone both ways, renegotiations, holds and written addresses: every packet sent is good in the above sense, out_of_set <= dropped <= frames_seen under `relax_drop`, dropped = 0 under `relax` |
| `ForwardSession.OneSourceBetweenWrites` | gsm-sip-bridge/src/amr_forward/relay.rs:101-150 | in every call, between two writes of a leg's address: all packets the leg hands over come from one source, on which the address then rests, none without an address to begin with, and every packet sent to the leg goes to the written address or to that source |
| `Params.ParseModeSet` | gsm-sip-bridge/src/amr_forward/params.rs:269-282 | accepts exactly the comma lists of modes of the flavour, and returns the mask they add up to |
| `Params.MaskIsModeSet` | gsm-sip-bridge/src/amr_forward/params.rs:269-282 | that mask allows a mode if and only if the list names it |
| `Params.HighestIsLargestListed` | gsm-sip-bridge/src/amr_forward/params.rs:269-282 | its highest mode is the largest number listed |
| `Params.FromSdp` | gsm-sip-bridge/src/amr_forward/params.rs:195-236 | refuses exactly when some mode-set is malformed; otherwise the last occurrence of each parameter decides |
| `Params.GuardOfSdp` | gsm-sip-bridge/src/amr_forward/params.rs:247-253 | a guard exists exactly for a relaxed leg with a mode-set, allows exactly the modes listed, and is never empty |
| `Params.CompatibleMeans` | gsm-sip-bridge/src/amr_forward/params.rs:292-321 | the legs are compatible if and only if each clause holds, the mode clause being set equality (strict) or inclusion of the carrier's set (relaxed) |
| `Params.StrictIsSymmetric` | gsm-sip-bridge/src/amr_forward/params.rs:292-321 | with both legs strict the verdict, refusal reason included, does not depend on which is the carrier |
| `Forwarding.ListedModesAreHonoured` | gsm-sip-bridge/src/amr_forward/params.rs:195-253 | from SDP text to the wire, over every run: the client is only asked for modes the carrier's SDP lists, and under `relax_drop` the carrier only gets such modes |
| `DisconnectLog.Log.RecordDisconnect` | pjsua-safe/src/endpoint.rs:112-117 | a full log drops its oldest entry, then the new one is last |
| `DisconnectLog.Log.DisconnectStatus` | pjsua-safe/src/endpoint.rs:104-109 | the backward search returns the latest entry for the token |
| `DisconnectLog.LogIsRecent` | pjsua-safe/src/endpoint.rs:67-117 | the log is the last 64 disconnects ever recorded |
| `DisconnectLog.LogAgreesWithMap` | pjsua-safe/src/endpoint.rs:67-117 | with fresh tokens it answers like an unbounded map for the 64 most recent and not at all for older ones |
| `DisconnectLog.LogInventsNothing` | pjsua-safe/src/endpoint.rs:104-117 | every answer is a recorded disconnect of that token |
| `PollState.StepKeeps` | pjsua-safe/src/endpoint.rs:1288-1302 | every step of PJSIP, of call placement and of a poll in progress keeps: tokens fresh, each placed call recorded exactly from its callback on, polls sound |
| `PollState.DisconnectedMeansRecorded` | pjsua-safe/src/call.rs:311-350 | in every interleaving a poll that reports `Disconnected` reports a recorded disconnect, and the token lookup gives that call's own record while fewer than 64 follow it |
| `PollState.LatePollsAreDisconnected` | pjsua-safe/src/call.rs:311-350 | a poll that begins after its call lost its slot reports `Disconnected`, whoever reuses the id |
| `PollState.RecordedPollsEnd` | pjsua-safe/src/call.rs:311-350 | in every interleaving a poll begun once its call's disconnect is recorded ends in `Disconnected`; it ends in `Early` exactly when its log look-up comes after at least 64 later disconnects |
| `PollState.NotBeforeTheCallback` | pjsua-safe/src/call.rs:311-350 | no poll reports `Disconnected` before the callback has recorded it |
| `Passthrough.StepKeeps` | pjsua-safe/src/passthrough.rs:382-416 | every step of registration, disconnect, stream callbacks and PJSIP keeps: tracked streams live, lock owned by the one inside, quiet streams paused or about to be |
| `Passthrough.QuietStreamsAreSafe` | pjsua-safe/src/passthrough.rs:463-479 | in every interleaving the stream map never names a destroyed stream, no pause touches one, and with nothing in flight a quiet call's tracked stream is paused |
| `CallReuse.EntryIsLastTouch` | pjsua-safe/src/passthrough.rs:60-109 | in every interleaving the entry of an id is there, for whom and of what kind, as the last action on it says |
| `CallReuse.InheritedExactly` | pjsua-safe/src/passthrough.rs:101-109 | in every interleaving the call that has an id finds an entry made for an earlier call if and only if the last action on that entry registered for an earlier call after its disconnect had removed the entry |
| `CallReuse.RegistrationIsSafeExactly` | pjsua-safe/src/passthrough.rs:60-76 | what a caller can check: the entry a registration makes is never found by another call, whatever follows short of registering it again, if and only if the disconnect of the registered call has not run |
| `CallReuse.ReusedIdIsClean` | pjsua-safe/src/passthrough.rs:101-109 | if every registration comes before the disconnect of its call, no reused id ever inherits an entry, in any interleaving |
| `Silencing.LateRegistrationIsInherited` | pjsua-safe/src/passthrough.rs:101-109 | a run from the start, with every look-up and created-callback in time, in which a registration between a disconnect's removals is left for the next call with the id, whose stream comes up paused although nobody registered that call |
| `Silencing.LatePauseHitsTheNextCall` | pjsua-safe/src/passthrough.rs:73-76 | a run from the start, with every registration and created-callback in time, in which a late look-up of the stream leaves no entry and pauses the next call's stream |
| `Silencing.LateCallbackHitsTheEndedCall` | pjsua-safe/src/passthrough.rs:382-416 | a run from the start, with every registration and look-up in time, in which a created-callback runs after its call has given up its id and the stream of that call, which nobody registered, is paused |
| `Silencing.LookUpIsSafeExactly` | pjsua-safe/src/passthrough.rs:463-479 | what a caller can check: the look-up of a registration finds a stream of its own call, whatever happens before it short of that call's disconnect, if and only if that disconnect has not run already |
| `Silencing.OnlyRegisteredCallsAreSilenced` | pjsua-safe/src/passthrough.rs:60-109 | for each set of the three rules (register before the disconnect, look up before it, announce streams before it has finished): only streams of registered calls are paused in every run that keeps to the set if and only if it is all three |
| `Silencing.QuietCallsAreSilent` | pjsua-safe/src/passthrough.rs:382-416 | in every interleaving with one stream up per id at a time: with no registration or created-callback in flight, every announced stream of a connected quiet call is paused |
| `CallLimiter.CallAttemptHistory.Prune` | siptest/src/safety.rs:92-100 | removes exactly the leading attempts older than the window |
| `CallLimiter.CallAttemptHistory.Record` | siptest/src/safety.rs:133-136 | prunes, then appends |
| `CallLimiter.DequeIsPruned` | siptest/src/safety.rs:92-100 | pruning at every attempt leaves what pruning the full history once would |
| `CallLimiter.PrunedCheckAgrees` | siptest/src/safety.rs:104-130 | the check on the deque answers, retry time included, as the check on the full history |
| `CallLimiter.DequeIsBounded` | siptest/src/safety.rs:92-136 | the deque never exceeds twice the hourly cap |
| `CallLimiter.LimiterIsExact` | siptest/src/safety.rs:104-136 | over every run: minimum spacing, at most the cap in any hour, bounded deque, and exact answers at every later instant |
| `CallLimiter.CheckSeesTheWholeHistory` | siptest/src/safety.rs:59-76 | `check` gives the verdict the full history gives, and an admitted call to an allowed destination keeps the spacing |
| `CallLimiter.CastAdmitsTooMany` | siptest/src/safety.rs:104-130 | for a cap of 2^31 or more and no minimum interval, a run the 32-bit length admits although it breaks the cap |
| `CallLimiter.PromiseHoldsExactly` | siptest/src/safety.rs:104-130 | the limiter keeps its promise on every run if and only if the cap is below 2^31 or the minimum interval is not zero |
| `Echo.EchoBuffer.Push` | gsm-sip-bridge/src/ims/echo.rs:77-84 | the queue keeps the newest samples up to its capacity |
| `Echo.EchoBuffer.Take` | gsm-sip-bridge/src/ims/echo.rs:89-93 | takes up to `n` of the oldest samples, in order |
| `Echo.EchoMixer.Next` | gsm-sip-bridge/src/ims/echo.rs:160-205 | one packet: mixer state, queue, samples and kind are those specified |
| `Echo.LoopDiesOut` | gsm-sip-bridge/src/ims/echo.rs:136-156 | for every configured attenuation, not-a-number and infinity included, and every rounding within a millionth, each sample is silent after at most its own magnitude of round trips |
| `Echo.EveryCallMixesWell` | gsm-sip-bridge/src/ims/echo.rs:160-205 | over every call: a marker first, never more than interval + 2d without one and none before the interval has passed, bursts gap-free and on schedule, no echo before 400 ms after the marker's scheduled end, then silence only for an empty queue, exact packet lengths, received samples in order and at most once |
| `ReasonHeader.SplitUnquoted` | pjsua-safe/src/endpoint.rs:157-174 | the loop returns the pieces the scanner defines, for every text and separator |
| `ReasonHeader.SplitIsExact` | pjsua-safe/src/endpoint.rs:157-174 | a list of pieces is the split if and only if joining gives the text, no piece holds an unquoted separator, and every cut is made in the initial scanner state |
| `ReasonHeader.PieceSeesTheHeader` | pjsua-safe/src/endpoint.rs:157-174 | at every position of every piece the scanner is in the state it has at that position of the whole header |
| `ReasonHeader.NestedSplitAgrees` | pjsua-safe/src/endpoint.rs:132-152 | the semicolons an entry is split at are exactly the unquoted semicolons of the header |
| `ReasonCause.CauseOfRendering` | pjsua-safe/src/endpoint.rs:132-152 | for every rendered list of reasons, whatever quoted texts, malformed causes, words and other parameters hold and however the number is spelt, the result is the first cause of at most 127 of a Q.850 reason |
| `Reorder.KeysInOrder` | gsm-sip-bridge/src/ims/rtp_reorder.rs:201-221 | the release order holds every queued sequence number once, by increasing distance modulo 2^16 |
| `Reorder.RtpReorderBuffer.RememberDelivery` | gsm-sip-bridge/src/ims/rtp_reorder.rs:183-199 | the counted history gains the identity and forgets the oldest past 65536 |
| `Reorder.RtpReorderBuffer.ReleasePending` | gsm-sip-bridge/src/ims/rtp_reorder.rs:201-221 | everything queued leaves in order, the deadline and any restart candidate are dropped |
| `Reorder.RtpReorderBuffer.FlushExpired` | gsm-sip-bridge/src/ims/rtp_reorder.rs:152-163 | an expired candidate is dropped, an expired wait releases the queue |
| `Reorder.RtpReorderBuffer.Take` | gsm-sip-bridge/src/ims/rtp_reorder.rs:62-148 | one datagram: buffer and delivered packets are those specified, on every branch |
| `ReorderRuns.RememberKeeps` | gsm-sip-bridge/src/ims/rtp_reorder.rs:183-199 | the occurrence counts are those of the last 65536 identities delivered from the source |
| `ReorderRuns.EveryRunDeliversInOrder` | gsm-sip-bridge/src/ims/rtp_reorder.rs:62-163 | over every run: every delivered packet arrived and is delivered once; each starts a source never heard before, continues its source in order, or belongs to a confirmed restart of unheard media; queued packets have waited less than the limit; the history is exact |
| `ReorderRuns.PacketFate` | gsm-sip-bridge/src/ims/rtp_reorder.rs:62-148 | new sources and the expected packet go out at once; a packet ahead goes out or waits unless its number waits already; one behind goes out if and only if it confirms a restart |
| `ReorderFates.EveryPacketIsAccountedFor` | gsm-sip-bridge/src/ims/rtp_reorder.rs:62-163 | over every run: a packet that arrived is delivered, queued or on probation if and only if no event of the run had one of eleven named reasons to refuse it or give it up |
| `ReorderFates.NoPacketWaitsLonger` | gsm-sip-bridge/src/ims/rtp_reorder.rs:137-163 | over every run: a packet once queued is out by the first event at or after its arrival plus the allowed wait, unless a new source takes over or a restart is confirmed in between |
| `ReorderRuns.RestartRecovers` | gsm-sip-bridge/src/ims/rtp_reorder.rs:96-135 | two consecutive far-back packets of unheard media within a second are both delivered |
| `ReorderRuns.QueueLosesNothing` | gsm-sip-bridge/src/ims/rtp_reorder.rs:62-163 | a queued packet stays queued or is delivered unless a new source takes over or a restart is confirmed |

## Left out

- Foreign calls (PJSIP, the AMR codec libraries), sockets, threads, RTCP, SSRC logging, log lines and send errors: I/O around the modelled logic.
- Client-leg renegotiation concurrent with a packet in flight: `relay.rs` stores three atomics one by one, so it is a step between packets here.
- Concurrent callers of the limiter: check and record are separate critical sections in the caller, so the guarantee is for check-then-record in sequence.
- Whether waiting the returned retry time is enough: the source truncates it to whole seconds; only its agreement with the full history is stated.
- 64-bit wrap-around of the statistics counters and of the token counter: counters are unbounded.
- Unicode beyond `char::is_whitespace` and ASCII case folding in header text: the parsers use nothing else.
- The standard library's sort in the reorder buffer: the release order is specified as the keys by increasing distance, not by a sorting algorithm.
- Offer checks, media generations and transport hooks in `passthrough.rs`: they do not touch the two maps whose interleaving is proved.
- RTP building, G.711 and WAV writing in `ims/rtp.rs`, transcoding, the SIP stack, the control socket, configuration, the CLI, healthchecks and alerts: they would only add easy members.
