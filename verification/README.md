# Verification of the mark4 drone stack

This project models the parts of the drone software whose correctness is hardest to see by reading
one function at a time, and proves what they promise over every input and every run.

- **Firmware update.** The hub's update session is a go-back-N sender with a phase machine
  (`OtaSession`, `OtaConsumer`); the board programs only at its write cursor (`OtaBoard`,
  `FirmwareStore`); between them stands a link that loses, repeats, reorders and delays (`OtaLink`).
  `OtaWindow`, `OtaDelivery`, `OtaVerdict` and `OtaSilence` prove window safety, exact delivery,
  earned verdicts and termination under silence; `OtaPhases` exactly when each phase is entered and
  each message sent; `OtaBoot` that an image gets one trial; `OtaLossless` that a link which loses
  nothing brings every image that fits to the board, and `OtaReturn` on to a confirmed update;
  `OtaAnswers` the smaller exchanges; `OtaFlash` and `OtaWitness` say exactly when bytes that were
  acknowledged can be lost again, and show a run that loses them.
- **Communication.** `TransportNode` and `Transport` are the node table, the streams, the relay and
  the expiry; `TransportStreams` proves the numbering and the loss accounting, `TransportDrain` that
  every network drains, `TransportRoute` where every frame goes and that it gets there.
  `HandlerTable`, `MessengerDesk`, `MessengerRuns`, `MessengerNews` and `Messenger` are the dispatch
  table, the pending requests, the arrivals and the calls to handlers; `MessengerAudit` checks the
  ledger against them, `MessengerTicks` says what happens to each request; `MessengerNet` puts packets
  between messengers, `MessengerForgery` says when they can be fooled, and `Presence` and
  `PresenceShadow` prove when transport, messenger and `Directory` agree.
- **Flight.** `FlightMachine` is the core as a function of one frame and of arbitrary estimator and
  controller outputs; `FlightCore` is the object. `FlightSafety`, `FlightLaunch`, `FlightThrow` and
  `FlightTilt` prove motor safety, one launch per throw, the raw signature behind each launch, and
  the tilt cutoff; `FlightMotors` what the motors are told and which frame leads where, `FlightFlown`
  that a throw is flown. `ThrowDetector`, `Mixer`, `Quaternions`, `AttitudeEstimator` and
  `AttitudeControl` are the modules around it; `AttitudeCorrection` proves that the gravity
  correction corrects.
- **Packaging and logging.** `ImageStamp`, `BundleFile`, `BundleLoader` and `BundlePackaging` are the
  stamped images, the `.ota` container and the way from one to the other; `LogLimiter` is the rate limit of the log stream.

Each imperative component appears twice: as functions on values, about which the theorems are
proved, and as a class or a method with loops whose contract ties it to those functions. Randomness,
clocks, codecs and callbacks enter as parameters: a session nonce is a parameter assumed fresh, the
link's willingness to take a message is a budget, the JSON reader is a function, every square root
taken is a value of the run that satisfies its defining equation, and what a handler does when it is
called is a list of calls it makes.

`dafny verify dfyconfig.toml` checks everything.

## Findings

- An admitted begin whose metadata is written erases the slot not running, whatever nonce it carries
  (`updater.hpp` lines 248-297), and nothing is rolled back when its erase fails half way. So
  "acknowledged means in flash" is not a law of the protocol: a begin repeated or delayed by the link
  erases bytes the hub counts as acknowledged, and the hub keeps its count.
  `OtaWitness.AcknowledgedBytesCanBeLost` is such a run from power on, for a whole erase and for one
  that fails after a block. `OtaDelivery.RunsKeepAcknowledged` is the exact condition: the law holds
  over a run exactly if no event puts another byte than the image's over an acknowledged one.
  `OtaDelivery.OnlyBeginsLoseBytes` gives it on the begins alone, since every image the loader accepts
  begins with a header and not with an erased byte: exactly if no such begin erases a block of the slot
  that holds acknowledged bytes, or opens their session anew in the other slot. Delivery itself stays
  exact either way.
- A plain send passes on the id and the tag its envelope carries, so a request can be counted
  completed though the node it named never read it (`MessengerForgery.ForgedIdCompletes`).
  `MessengerForgery.MistakenExactlyIfForged` is the exact condition: until a node has drawn 2^32
  ids, a waiting request of it that was not read can come to be completed unread exactly if its
  destination sent an acknowledgement of its id that answers nothing it read, or the asking node
  sent that destination another plain message under its id and the destination's transport has taken
  an answer or will take one. Every other completed request was read word for word
  (`MessengerNet.CompletedOrForged`).
- A directory whose every tag was claimed before by another handler is not told of presence. For a
  directory that owns a slot throughout or never, transport and directory agree throughout exactly if
  it owns one or no node ever came (`PresenceShadow.AgreesExactlyIfHeard`).
- With a gain so high that half an interval times kp times the alignment exceeds one, a step of the
  gravity correction overshoots and the alignment falls; `AttitudeCorrection.CorrectionCorrects` is
  the exact condition. The default gain of 2 is far from it: frames more than 50 ms apart are not
  integrated.
- An idle hub can carry the verdict FAILED: a revert whose reboot the link refuses ends in IDLE with
  the verdict of the failure (`consumer.cpp` lines 831-850). `OtaPhases.VerdictFitsPhase` admits
  exactly this. In VERIFYING every repeated acknowledgement of the whole image sends the finish again
  (`OtaPhases.SaysExactly`).
- In VERIFYING every byte is acknowledged, so the branch of `consumer.cpp` that resumes a transfer on
  an advancing offset is never taken there; only an offset that falls back resumes it.
- FAULT entered without an IMU leaves the tilt streak set. Only a kill leaves FAULT, and a kill clears
  the streak, so it never counts toward a later cutoff.

## Model

| member | source | states |
|---|---|---|
| OtaDelivery.TransferIsExact | esp32-bridge/main/firmware_store_esp32.cpp:192-252 | over every run of hub and board on a link that loses, repeats, reorders and delays: the flash below the board's cursor is the same prefix of the image its session was drawn for, in the slot that is not running; a hub told that the finish succeeded knows its whole image was staged |
| OtaLossless.TransferSucceeds | software/components/ota/src/consumer.cpp:536-950 | from every sound state with an idle hub and no session on the board: a consistent bundle whose image for the slot not running fits and has its checksum, started over a link that loses nothing and delivers in order towards a willing board, is staged byte for byte and the hub reaches REBOOTING, whatever the image size and any pacing below the chunk-ack timeout |
| OtaLossless.EveryOfferCanBeStaged | software/components/ota/src/consumer.cpp:248-297 | so every run of hub, link and board that leaves both idle goes on to one that stages the offered image |
| OtaReturn.UpdateIsConfirmed | software/components/ota/src/consumer.cpp:682-789 | the whole update, from every sound state with an idle hub and no session on the board, over a link that loses nothing: if the board comes back with the build of the bundle, the hub declares it CONFIRMED when the new image vouches for itself on first contact and stands in TESTING when it does not, whatever the image size, the pacing and the settle time |
| OtaReturn.Returns | software/components/ota/src/consumer.cpp:493-520 | its second half: from a staged image and a reboot on its way, through the reset, the settle time, the poll and the answer, to the verdict |
| OtaLossless.BurstOnGrid | software/components/ota/src/consumer.cpp:567-617 | a burst hands over exactly the next pieces of the image and stops only for the window, the end of the image or the pacing |
| OtaLossless.PieceHandled | software/components/ota/include/ota/updater.hpp:304-348 | a piece in order is programmed, and the board answers exactly when the window or the image is full |
| OtaDelivery.RunsKeepAcknowledged | software/components/ota/include/ota/updater.hpp:236-348 | over every run, acknowledged bytes are in the flash all along, in the slot their session was opened into and whatever became of the board's session since, if and only if no event left another byte than the image's over one of them |
| OtaDelivery.OnlyBeginsLoseBytes | software/components/ota/include/ota/updater.hpp:248-297 | since every image begins with a header: if and only if no admitted begin that wrote its metadata erased a block of that slot, or opened the session anew in the other slot; half-failed erases and begins of other nonces included |
| OtaDelivery.AcknowledgedIsInFlash | software/components/ota/src/consumer.cpp:855-950 | over every such run what the hub counts as acknowledged is in the flash, and in VERIFYING that is the whole image, the board's session open or not |
| OtaDelivery.UntouchedIsIntact | software/components/ota/include/ota/updater.hpp:236-302 | while no begin touches the slot, acknowledged bytes are stored and below the cursor of any session still open on it |
| OtaDelivery.RunsAreHeaded | software/components/ota/src/bundle.cpp:301-353 | over every run no image a nonce was drawn for begins with what an erase leaves |
| OtaFlash.StoredUnlessDamaged | software/components/ota/include/ota/updater.hpp:236-348 | one event keeps acknowledged bytes in the flash if and only if it damages none of them: an erase over a byte that is not erased, or a write of another byte |
| OtaFlash.BeginStore | software/components/ota/include/ota/updater.hpp:248-297 | exactly what a begin leaves in the flash, erased whole or in part, and whether its session is open |
| OtaFlash.IntactUnlessTouched | software/components/ota/include/ota/updater.hpp:304-348 | no chunk, finish, hub call or reset undoes it: only a begin that touches the slot does |
| OtaFlash.DamageIsTouch | software/components/ota/include/ota/updater.hpp:248-297 | damage to bytes not touched before is done by a touching begin |
| OtaFlash.AckedIsInFlash | software/components/ota/src/consumer.cpp:920-950 | from stored bytes to the hub's count: its acknowledged prefix is the image's in the slot |
| OtaWitness.AcknowledgedBytesCanBeLost | software/components/ota/include/ota/updater.hpp:270-286 | a run of ten events from power on, for every number of blocks the repeated begin erases, ends with a hub in VERIFYING whose acknowledged image is gone |
| OtaWitness.BeginLosesBytes | software/components/ota/include/ota/updater.hpp:248-297 | in every sound state with bytes acknowledged, any admitted begin for that slot, of whatever nonce and however few blocks its erase manages, loses some under an unchanged hub; a failed erase leaves no session |
| OtaWitness.OwnBeginIsPoised | software/components/ota/include/ota/updater.hpp:248-297 | the session's own begin, repeated, is such a begin |
| OtaDelivery.RunsAreSound | software/components/ota/src/consumer.cpp:371-387 | every state of every run of the two ends satisfies the soundness invariant |
| OtaLink.NextKeepsSound | software/components/ota/src/consumer.cpp:536-617 | every event (a hub call, a message at the board, a board reset) keeps: chunks under way are slices of the image of their nonce, answers are credible, the open board session is faithful |
| OtaLink.ChunkAnswers | software/components/ota/include/ota/updater.hpp:304-348 | a chunk lands only at the cursor, so the written prefix grows by the image's own bytes, and the answer is the cursor |
| OtaLink.FinishAnswers | software/components/ota/include/ota/updater.hpp:350-428 | a finish is acknowledged only for an image staged whole |
| OtaLink.BeginAnswers | software/components/ota/include/ota/updater.hpp:236-302 | an accepted begin erases the slot not running and starts at offset zero |
| OtaBoard.RunningSlotUntouched | software/components/ota/include/ota/updater.hpp:72-106 | whatever message arrives, no byte of the running slot changes and it keeps running |
| OtaVerdict.ConfirmedIsEarned | software/components/ota/src/consumer.cpp:682-789 | CONFIRMED is entered only after a start that loaded the bundle, begin ok, every byte acknowledged and finish ok under one nonce, a reboot sent, then a post-settle status reporting the bundle's build in a slot not on trial; the bundle is the one the start loaded, unchanged since, and target, nonce and size are constant since the opening, which aimed at the slot not running |
| OtaVerdict.EveryStateExplained | software/components/ota/src/consumer.cpp:619-680 | every reachable phase of a session has the chain of calls that led to it, from the start that loaded its bundle on |
| OtaVerdict.StepAdvances | software/components/ota/src/consumer.cpp:434-534 | how one call can lead to QUERY, ERASING, TRANSFER, VERIFYING, REBOOTING, WAITING_BOARD, TESTING and CONFIRMED; no call to a busy hub changes its bundle |
| OtaVerdict.StepEnds | software/components/ota/src/consumer.cpp:434-534 | how one call can lead to IDLE, REVERTING, ROLLED_BACK and FAILED: a failure is a missing bundle, a lapsed deadline, a refusal, a board that came back with neither build, or a link that took no more |
| OtaPhases.ReturnIsJudged | software/components/ota/src/consumer.cpp:713-789 | on the raw fields of a status heard in TESTING, or in WAITING_BOARD once settled: CONFIRMED if and only if the running slot has the build of the bundle and is not on trial; ROLLED_BACK if and only if it has the build that ran before and not that of the bundle; FAILED if and only if WAITING_BOARD and neither; TESTING otherwise |
| OtaPhases.EarlyReturnIsIgnored | software/components/ota/src/consumer.cpp:684-690 | before the settle time a status changes nothing at all |
| OtaPhases.StatusIsKept | software/components/ota/src/consumer.cpp:692-711 | any other status is kept, whatever the phase: slots, builds, room and chip as the board says |
| OtaPhases.EntersExactly | software/components/ota/src/consumer.cpp:434-534 | while the link takes what is sent, each of the twelve phases is entered if and only if the call, the message and the clock are those of its entry, read off them without the transition function |
| OtaPhases.SaysExactly | software/components/ota/src/consumer.cpp:536-565 | and each message other than a chunk is sent to the board if and only if one of its occasions arises |
| OtaPhases.EntryIsTimed | software/components/ota/src/consumer.cpp:791-853 | each phase entered is given its own time: settle, return, begin, finish, chunk, acknowledgement and poll deadlines |
| OtaPhases.RepeatIsTimed | software/components/ota/src/consumer.cpp:434-534 | a poll or a revert sent again counts a try and is given its time anew |
| OtaPhases.StartForgets | software/components/ota/src/consumer.cpp:248-297 | a start leaves nothing of an earlier session |
| OtaPhases.IdleTickReloads | software/components/ota/src/consumer.cpp:434-446 | between sessions a tick takes a bundle that was replaced, and changes nothing else |
| OtaPhases.RoundsAreCounted | software/components/ota/src/consumer.cpp:890-918 | over one call that stays in TRANSFER a resend round is counted if and only if the chunk deadline lapsed or the board repeated the acknowledged offset outside the resend guard, which it then arms |
| OtaPhases.OpeningFitsBoard | software/components/ota/src/consumer.cpp:640-675 | the chunk size of an opened session is the largest the protocol and the board take |
| OtaPhases.VerdictFitsPhase | software/components/ota/src/consumer.cpp:682-789 | over every run: CONFIRMED if and only if the verdict is CONFIRMED, ROLLED_BACK if and only if it is ROLLED_BACK, FAILED has its own, REVERTED only in IDLE, and no busy phase has one |
| OtaPhases.PreviousIsKnown | software/components/ota/src/consumer.cpp:619-680 | over every run, the build a rollback is measured by is the one the status named that opened the session |
| OtaPhases.RollbackIsReal | software/components/ota/src/consumer.cpp:735-742 | over every run, ROLLED_BACK is entered only by a status of a board that runs the very build it ran when the session was opened, and not that of the bundle |
| OtaBoot.OneTrialOnly | software/components/ota/include/ota/boot_policy.hpp:36-91 | a staged image runs at the next reset, on trial; vouched for, it runs at every later one; if not, the next reset marks it bad and the old slot runs from then on |
| OtaBoot.BootIsVouched | software/components/ota/include/ota/boot_policy.hpp:62-91 | whatever the metadata says, a reset runs the preferred slot or one whose only trial is then spent |
| OtaAnswers.RevertTurnsBack | software/components/ota/include/ota/updater.hpp:430-457 | asked and answered: a revert makes the next reset run the other slot if and only if that slot holds an image vouched for; otherwise the hub fails and the board is as it was |
| OtaAnswers.AbortIsExact | software/components/ota/src/consumer.cpp:299-325 | asked and answered: the board drops its session if and only if it is the one aborted, and flash and metadata stay |
| OtaAnswers.StatusIsRead | software/components/ota/include/ota/updater.hpp:195-234 | asked and answered: the hub reads the running slot, its build, its room and whether it is on trial; a trial vouches for itself by answering, and only then is metadata written |
| OtaAnswers.SilenceDropsSession | software/components/ota/include/ota/updater.hpp:112-136 | a session is dropped if and only if three seconds pass without a packet, counted from the first sweep when none came since the opening |
| OtaAnswers.FinishIsExact | software/components/ota/include/ota/updater.hpp:350-413 | a finish is answered OK if and only if the image is whole, sums up, is valid and its metadata is written; it is then staged with its trial unspent and runs at the next reset; an image that is wrong changes no metadata, one that is not whole is asked for from the cursor |
| OtaAnswers.BeginIsExact | software/components/ota/include/ota/updater.hpp:236-302 | exactly what a begin is refused for, in order, that a refused one changes nothing, and what an accepted one opens |
| OtaAnswers.ChunkIsHeard | software/components/ota/include/ota/updater.hpp:304-348 | and every chunk of the session starts the count anew |
| OtaVerdict.RunKeepsInv | software/components/ota/src/consumer.cpp:591-617 | acked <= sent <= total, in flight less than the window plus one chunk, over every run |
| OtaWindow.StepKeepsInv | software/components/ota/src/consumer.cpp:248-350 | every operator call, tick and message keeps the window invariant; in TRANSFER nothing in flight means no stalled round |
| OtaWindow.PumpLoopSends | software/components/ota/src/consumer.cpp:567-617 | the chunk loop moves only the send offset and the pacing, keeps the window, makes progress, and every chunk is the slice of the image at its offset |
| OtaWindow.DigestKeeps | software/components/ota/src/consumer.cpp:855-950 | a cumulative acknowledgement resumes the sender at the offset it names, or completes it at the end of the image |
| OtaSilence.SilentBoardEnds | software/components/ota/src/consumer.cpp:434-534 | from any busy phase but TESTING, with no message and time advancing, a computed number of ticks ends the session |
| OtaSilence.SilentTick | software/components/ota/src/consumer.cpp:434-534 | each silent tick ends the session or lowers the lexicographic measure over stalled rounds, unsent window and deadline |
| OtaSilence.SilentTrialNeverEnds | software/components/ota/src/consumer.cpp:505-514 | TESTING has no deadline: while the link accepts the polls silence never leaves it |
| OtaConsumer.OtaConsumer.constructor | software/components/ota/src/consumer.cpp:177-180 | a consumer starts idle, with no bundle, no board and no session |
| OtaConsumer.OtaConsumer.Start | software/components/ota/src/consumer.cpp:248-297 | refused while busy; a missing bundle fails the session; otherwise everything of the last session is forgotten and the board is asked who it is |
| OtaConsumer.OtaConsumer.Abort | software/components/ota/src/consumer.cpp:299-325 | drops the session wherever it is, telling the board only where it has one open |
| OtaConsumer.OtaConsumer.StartRevert | software/components/ota/src/consumer.cpp:327-350 | asks for the other slot, only outside a session or during the trial |
| OtaConsumer.OtaConsumer.Tick | software/components/ota/src/consumer.cpp:434-534 | timeouts, polls, go-back-N on silence and the pump, phase by phase |
| OtaConsumer.OtaConsumer.TickTransfer | software/components/ota/src/consumer.cpp:459-479 | a silent window is rewound until its rounds are spent, then fails |
| OtaConsumer.OtaConsumer.SendChunks | software/components/ota/src/consumer.cpp:567-617 | the loop hands over exactly the burst of the specification and stops where the link refuses |
| OtaConsumer.OtaConsumer.PumpChunks | software/components/ota/src/consumer.cpp:591-617 | the burst, then the chunk-ack deadline re-armed only if something left |
| OtaConsumer.OtaConsumer.OpenTransfer | software/components/ota/src/consumer.cpp:619-680 | checks chip, update in progress, slot and size, then draws the session and sends its begin |
| OtaConsumer.OtaConsumer.OnStatus | software/components/ota/src/consumer.cpp:682-789 | deaf until the settle time, then opens the transfer or judges the returned build |
| OtaConsumer.OtaConsumer.OnAck | software/components/ota/src/consumer.cpp:791-853 | begin, finish and revert answers, each only in its phase and under its nonce |
| OtaConsumer.OtaConsumer.OnRepeat | software/components/ota/src/consumer.cpp:890-918 | a repeated offset rewinds once per burst of echoes and spends a stalled round |
| OtaConsumer.OtaConsumer.OnChunkAck | software/components/ota/src/consumer.cpp:855-950 | late, repeated, advancing and completing offsets, and the board's answer to a finish |
| OtaConsumer.OtaConsumer.Advance | software/components/ota/src/consumer.cpp:920-950 | an advancing offset finishes the transfer or resumes it |
| OtaConsumer.OtaConsumer.FallBack | software/components/ota/src/consumer.cpp:873-890 | an offset below the acknowledged one sends VERIFYING back to the transfer |
| OtaConsumer.OtaConsumer.OnEnvelope | software/components/ota/src/consumer.cpp:371-387 | dispatch of one message, keeping the window invariant |
| FirmwareStore.FirmwareStoreEsp32.EraseSlot | esp32-bridge/main/firmware_store_esp32.cpp:192-217 | block after block, never the running slot; only a whole erase opens the slot at cursor zero |
| FirmwareStore.FirmwareStoreEsp32.EraseBlocks | esp32-bridge/main/firmware_store_esp32.cpp:201-213 | exactly the blocks erased before a failure read erased |
| FirmwareStore.FirmwareStoreEsp32.Program | esp32-bridge/main/firmware_store_esp32.cpp:219-252 | bytes go in only at the cursor of the erased slot and move it; everything else is refused without a change |
| FirmwareStore.FirmwareStoreEsp32.Put | esp32-bridge/main/firmware_store_esp32.cpp:238-250 | the partition with the data at its offset, and nothing else changed |
| TransportDrain.EveryNetworkDrains | software/components/transport/src/transport.cpp:233-290 | any topology, schedule and losses: a run of a network of silent nodes handles at most as many frames as the measure of its first state |
| TransportDrain.HandlingShrinks | software/components/transport/src/transport.cpp:407-446 | handling one frame lowers the measure: unlearnt observer and source pairs pay for the newcomer's keepalive, hop weights for the relayed copies |
| TransportDrain.RelayShrinks | software/components/transport/src/transport.cpp:407-446 | relayed copies go out on every link but the arrival link, one hop further, never past the hop limit, and together weigh less than the frame |
| TransportRoute.FrameIsHandled | software/components/transport/src/transport.cpp:233-290 | everything one frame makes a node send, each copy exactly once: the greeting of a newcomer, and, if it is accepted and for someone else, one copy on every other link for a broadcast or one to the address of its destination known on another link; it is delivered if and only if it is accepted, carries application data and is for this node or everyone |
| TransportRoute.RelayIsExact | software/components/transport/src/transport.cpp:407-446 | a relayed frame leaves exactly once on every link that takes it further, one hop on and below the hop limit, and nowhere else |
| TransportRoute.OutwardIsExact | software/components/transport/src/transport.cpp:69-117 | a frame of this node leaves exactly once on every link, or once to the node it names |
| TransportRoute.EntryAfter | software/components/transport/src/transport.cpp:292-365 | the entry of the source after its frame: way, hops, instant and boot id of an accepted one, instant and a counted duplicate of a repeated one; no other entry changes |
| TransportRoute.EventsAreExact | software/components/transport/src/transport.cpp:260-333 | a newcomer is told up, a node whose keepalive tells of another boot id down and up, anything else nothing; the entry of a restarted node starts over with nothing but the stream its frame opens |
| TransportRoute.RoutesAreFresh | software/components/transport/src/transport.cpp:335-365 | over every run of frames, sweeps and sends: a node is held if and only if it was heard and not forgotten since, at the instant of its last frame, by the link and address of its last accepted one |
| TransportRoute.SilentIsForgotten | software/components/transport/src/transport.cpp:448-466 | a sweep forgets a node if and only if nothing was heard from it for the expiry time |
| TransportRoute.ChainDelivers | software/components/transport/src/transport.cpp:407-446 | along a chain of relays that know the way an addressed frame is delivered at its destination if and only if no more than MAX_HOPS relays are on it |
| TransportRoute.RelayHandsOn | software/components/transport/src/transport.cpp:433-446 | a relay that accepts a frame and knows its destination on another link hands it on to that address, one hop further |
| TransportRoute.DeliveredThere | software/components/transport/src/transport.cpp:272-290 | an addressed frame is delivered nowhere but at the node it names |
| TransportDrain.HandlingKeepsLegal | software/components/transport/src/transport.cpp:132-179 | what is in the air comes from known ids, and if it was within the hop limit it stays within it |
| TransportStreams.LossAccountingExact | software/components/transport/src/transport.cpp:367-405 | received + lost never exceeds what the peer numbered from the first to the last heard on its two streams, and equals it if and only if no gap reaches the resync threshold; relayed-only frames count in neither |
| TransportStreams.PathAccountingExact | software/components/transport/src/transport.cpp:367-405 | end to end: whatever a peer sends, data and keepalives to whomever, and whichever of its frames a path that keeps their order loses or repeats, the receiver's received + lost is bounded by what the peer numbered, and exact if and only if no gap reaches the threshold |
| TransportStreams.NumberedInOrder | software/components/transport/src/transport.cpp:119-130 | the n-th frame of a stream, data and keepalives alike, carries n modulo 2^16 |
| TransportStreams.CountersCount | software/components/transport/src/transport.cpp:69-179 | each counter is the number of frames its stream has carried, in 16 bits |
| TransportStreams.TrackAdds | software/components/transport/src/transport.cpp:367-405 | one more number adds its true gap, across the 16-bit wrap |
| TransportStreams.FollowCounts | software/components/transport/src/transport.cpp:367-405 | the entry keeps the last index of each stream and counts both |
| TransportStreams.CountedWithinSpan | software/components/transport/src/transport.cpp:367-405 | one stream: exact if and only if every gap is under the threshold |
| TransportNode.FrameTeaches | software/components/transport/src/transport.cpp:292-365 | a frame adds at most its source, never this node nor broadcast, and the presence events say exactly that |
| TransportNode.RestartTeaches | software/components/transport/src/transport.cpp:292-333 | a frame with two events is a restart: down and up of a node the table holds |
| TransportNode.LearnKeeps | software/components/transport/src/transport.cpp:335-365 | learning keeps the table keyed by id, within its capacity, without this node and broadcast |
| TransportNode.ExpiryKeeps | software/components/transport/src/transport.cpp:448-466 | expiry keeps the table well formed |
| Transport.Transport.constructor | software/components/transport/src/transport.cpp:7-21 | an empty table |
| Transport.Transport.SendFrame | software/components/transport/src/transport.cpp:69-117 | a frame is numbered from its own stream and handed to its link or to all; one for an unknown node is refused and changes nothing |
| Transport.Transport.DrawUnicast | software/components/transport/src/transport.cpp:119-130 | the entry's number, and the entry's counter one further |
| Transport.Transport.DrawBroadcast | software/components/transport/src/transport.cpp:119-130 | the broadcast number, and its counter one further |
| Transport.Transport.HandOver | software/components/transport/src/transport.cpp:98-116 | one send on the entry's link, or one broadcast on each link |
| Transport.Transport.Learn | software/components/transport/src/transport.cpp:335-365 | the entry refreshed or appended, or refused when the table is full |
| Transport.Transport.RelayFrame | software/components/transport/src/transport.cpp:407-446 | split horizon, hop limit and route of the forwarded copies |
| Transport.Transport.Acquaint | software/components/transport/src/transport.cpp:292-333 | newcomers greeted, restarts told down and up again |
| Transport.Transport.TakeFrame | software/components/transport/src/transport.cpp:233-268 | learn, boot id and stream tracking of one frame |
| Transport.Transport.OnFrame | software/components/transport/src/transport.cpp:233-290 | the new table, the presence events, the sends and the delivery of one frame |
| Transport.Transport.Sweep | software/components/transport/src/transport.cpp:448-466 | walking backwards with swap removal leaves exactly the entries that are not stale |
| Transport.Transport.Expire | software/components/transport/src/transport.cpp:448-466 | exactly the stale ids go, each told down once |
| DenseTable.Table.RemoveAt | software/components/transport/src/transport.cpp:448-466 | the last row takes the freed place; exactly one record leaves the table |
| DenseTable.Table.Lookup | software/components/transport/src/transport.cpp:468-478 | the row of an id, or none, by a walk over the dense prefix |
| DenseTable.Table.Store | software/components/transport/src/transport.cpp:335-365 | the record replaced in its row or appended, every other row as it was |
| Presence.PresenceIsConsistent | software/components/messaging/src/messenger.cpp:216-272 | over every run of transport, messenger and a directory among its handlers, as long as the directory owns a slot of the dispatch table: up and down events of each id alternate from up; the directory holds exactly the ids of the transport and drops none; an entry is KNOWN if and only if it announced itself since its last up, by what it said last, and MUTE if and only if a request to it failed since and it never did |
| Presence.NextAgrees | software/components/discovery/src/discovery_directory.cpp:36-141 | every frame, expiry sweep and call of the messenger, handlers acting inside its loops, keeps the three in agreement |
| Presence.TellHears | software/components/messaging/src/messenger.cpp:243-272 | a directory that owns a slot hears an event once, after failures that change no presence; one that owns none hears nothing |
| Presence.ShadowedFallsBehind | software/components/messaging/src/messenger.cpp:12-25 | a directory without a slot disagrees with the transport after the first newcomer |
| PresenceShadow.AgreesExactlyIfHeard | software/components/messaging/src/messenger.cpp:12-25 | for a directory that owns a slot in every state of a run or in none: transport, events and directory agree in every state if and only if it owns one or no node ever came |
| PresenceShadow.LateFallsBehind | software/components/messaging/src/messenger.cpp:12-25 | a directory attached behind another handler of its tag owns nothing and disagrees after the first newcomer, from a concrete start |
| Directory.ListenersAreInformed | software/components/discovery/src/discovery_directory.cpp:36-141 | over every sequence of calls, listeners hold the identity of every known node as it last announced itself and of no node that left, and a wire mismatch is flagged if and only if what it said differs |
| Directory.DiscoveryDirectory.NodeUp | software/components/discovery/src/discovery_directory.cpp:83-107 | an entry starts over, or the full table counts a drop |
| Directory.DiscoveryDirectory.NodeDown | software/components/discovery/src/discovery_directory.cpp:109-126 | the entry goes, the last one takes its place, listeners are told |
| Directory.DiscoveryDirectory.Announced | software/components/discovery/src/discovery_directory.cpp:36-81 | the entry is known, listeners told only of a change |
| Directory.DiscoveryDirectory.RequestFailed | software/components/discovery/src/discovery_directory.cpp:128-141 | only a pending entry turns mute |
| MessengerAudit.RequestsAreConserved | software/components/messaging/src/messenger.cpp:112-161 | in every reachable state accepted = completed + failed + dropped + pending; the letter of each request was offered to the transport between once and max(1, retries) times, its owner was called about its failure once if it was given up on and never otherwise, no other letter passed for a request, no other failure was told, and what left is what the transport took; handlers act inside the loops |
| MessengerAudit.StepMatches | software/components/messaging/src/messenger.cpp:57-87 | every call keeps the ledger true to the failure calls made and the request letters offered, one by one |
| MessengerTicks.TickIsExact | software/components/messaging/src/messenger.cpp:59-87 | per tick and waiting request, whatever the callbacks on the way do: its letter is offered once more, and it goes on waiting from now, if and only if its period has passed and fewer than `retries` letters were offered; it fails if and only if its period has passed and they are spent; it can be dropped instead only if a handler leaves in a callback |
| MessengerTicks.FailedWasSpent | software/components/messaging/src/messenger.cpp:59-87 | over every run, a request given up on was offered exactly max(1, retries) times, unless the node it named was lost |
| MessengerTicks.FailedBy | software/components/messaging/src/messenger.cpp:221-241 | a request is failed by a tick or by the loss of the node it names, and by nothing else |
| MessengerTicks.LossEndsItsOwn | software/components/messaging/src/messenger.cpp:221-241 | a lost node ends every request that waits for it |
| MessengerTicks.LossFailsItsOwn | software/components/messaging/src/messenger.cpp:221-241 | and fails no other |
| MessengerTicks.EventSpares | software/components/messaging/src/messenger.cpp:52-87 | outside a tick a request that goes on waiting is left exactly as it was, the date of its last send included |
| MessengerTicks.RequestIsExact | software/components/messaging/src/messenger.cpp:112-161 | a request is accepted if and only if it names one known node, encodes and finds a free slot; it then waits, numbered, offered once and dated; refused, it is counted and nothing is offered |
| MessengerTicks.SendIsExact | software/components/messaging/src/messenger.cpp:89-110 | a plain send is offered once, as it is, if and only if it names one node and encodes, and is counted sent or refused |
| MessengerTicks.LeavingDropsItsOwn | software/components/messaging/src/messenger.cpp:27-48 | a handler that leaves drops the requests of its own and no other |
| MessengerRuns.EndsAreFinal | software/components/messaging/src/messenger.cpp:27-48 | over every stretch of a run a request stays what it was, and an ended one is never touched again |
| MessengerRuns.AckCompletesAtMostOne | software/components/messaging/src/messenger.cpp:202-214 | an acknowledgement completes at most one pending request, one that named its sender and carried its id, and changes nothing otherwise |
| MessengerRuns.StepProceeds | software/components/messaging/src/messenger.cpp:57-87 | every call, send, arrival and presence event keeps the pending table, the ledger, the dispatch table and the letters sent in agreement, and completes nothing unless an acknowledgement arrived |
| MessengerRuns.NextIdOf | software/components/messaging/src/messenger.cpp:163-173 | ids run 1 .. 2^32 - 1 and start over, never zero |
| MessengerRuns.IdsRepeatByRounds | software/components/messaging/src/messenger.cpp:163-173 | two draws share an id if and only if a whole number of rounds lies between them |
| HandlerTable.CheckIsExact | software/components/messaging/include/messaging/messenger.hpp:99-109 | whatever attached and detached before, the composition check passes if and only if every living handler holds as many slots as it claimed tags, and then it holds each of them |
| HandlerTable.AttachedOwns | software/components/messaging/src/messenger.cpp:12-25 | an attached handler owns a slot if and only if it owned one or found one of its tags free |
| HandlerTable.ReleaseUndoesClaim | software/components/messaging/src/messenger.cpp:27-41 | attaching and detaching leaves table and count as they were |
| HandlerTable.ClaimedSlot | software/components/messaging/src/messenger.cpp:12-25 | a free slot that is claimed changes owner, no other does |
| HandlerTable.ReleasedSlot | software/components/messaging/src/messenger.cpp:27-41 | a slot is freed if it was the handler's by one of its tags, no other is |
| MessengerNews.EveryHandlerToldOnce | software/components/messaging/src/messenger.cpp:243-272 | a node that comes or goes is told to a handler at most once, to none without a slot, and exactly once to each that owns a slot in the end, handlers detaching inside the loop included |
| MessengerNews.ToldExactlyIfOwning | software/components/messaging/src/messenger.cpp:243-272 | while nobody detaches in the middle: told exactly once if and only if it owns a slot |
| MessengerNews.PayloadCalls | software/components/messaging/src/messenger.cpp:282-324 | one payload calls one handler at most: the owner of its tag, for a message that decodes and is no acknowledgement |
| MessengerNews.AcknowledgedBeforeDispatch | software/components/messaging/src/messenger.cpp:282-324 | a request is acknowledged to its source under its id, whoever claims its tag, before anything its handler sends |
| MessengerNews.AcksAreCounted | software/components/messaging/src/messenger.cpp:185-214 | a request read is counted acknowledged if and only if the transport takes its answer; an acknowledgement is counted unmatched if and only if no pending request of that node has its id |
| MessengerNews.PayloadIsCounted | software/components/messaging/src/messenger.cpp:282-324 | which counter each payload moves: undecodable, unhandled, handled or ignored |
| MessengerNews.ArrivalsAddUp | software/components/messaging/src/messenger.cpp:282-324 | in every reachable state each payload delivered is counted exactly once as undecodable, acknowledgement, unhandled, handled or ignored |
| MessengerNet.CompletedOrForged | software/components/messaging/src/messenger.cpp:185-214 | with packets lost, repeated and reordered, delivered by the transport's test alone, and whatever applications send: a completed request was read word for word by the node it named, or that node sent an acknowledgement of its id that answers nothing it read, or this node sent it another plain message under its id (word for word while fewer than 2^32 ids are drawn) |
| MessengerNet.CompletedWasRead | software/components/messaging/src/messenger.cpp:185-214 | the corollary: a completed request whose id and acknowledgement nobody forged was read word for word by the node it named |
| MessengerNet.ReadByTheNamed | software/components/messaging/src/messenger.cpp:282-324 | a message that a node read and decoded left the node it came from, addressed to the reader and in those words: a request that named the reader, or a plain send to it |
| MessengerNet.NextKeepsHonest | software/components/messaging/src/messenger.cpp:282-324 | every call, arrival and stray packet keeps every packet written by its source, every letter in the air, every mail addressed to its reader and every completion acknowledged by its destination |
| MessengerNet.AckIsVouched | software/components/messaging/src/messenger.cpp:185-200 | an acknowledgement in the air left its source, and unless an application wrote it, for a message of that id its source had read from its destination |
| MessengerNet.MessageIsSent | software/components/messaging/src/messenger.cpp:112-161 | a message in the air is a request of its source to its destination, or a plain send, never an answer |
| MessengerNet.DeliveredReaches | software/components/transport/src/transport.cpp:270-290 | what the transport delivers to a node is addressed to it or to everyone |
| MessengerForgery.MistakenExactlyIfForged | software/components/messaging/src/messenger.cpp:89-110 | over every run, a waiting request not read by its destination can be completed unread by arrivals alone if and only if its acknowledgement or number was forged and an answer has left or can leave; by one arrival if the answer is in the air, by two if the transport takes the next send |
| MessengerForgery.KnocksComplete | software/components/messaging/src/messenger.cpp:185-200 | a forged number completes the request after as many arrivals as the destination's transport needs to take one answer |
| MessengerForgery.AckCompletes | software/components/messaging/src/messenger.cpp:202-214 | the acknowledgement a waiting request hears completes that very request |
| MessengerForgery.ForgedIdCompletes | software/components/messaging/src/messenger.cpp:89-110 | a run in which a request whose send was lost, and a plain message under its number, lead in two arrivals to that request completed and never read |
| Messenger.Messenger.constructor | software/components/messaging/include/messaging/messenger.hpp:92-97 | every slot free, nothing requested |
| Messenger.Messenger.Request | software/components/messaging/src/messenger.cpp:112-161 | refusals, the id drawn even when encoding fails, the first free slot, and the send with its outcome |
| Messenger.Messenger.SendOnce | software/components/messaging/src/messenger.cpp:89-110 | a plain send: refused, or encoded and handed to the transport as it is |
| Messenger.Messenger.EmitLetter | software/components/messaging/src/messenger.cpp:175-183 | one letter handed over, counted sent or refused |
| Messenger.Messenger.DrawId | software/components/messaging/src/messenger.cpp:163-173 | the next id, skipping zero |
| Messenger.Messenger.AttachHandler | software/components/messaging/src/messenger.cpp:12-25 | the tag loop makes the claims of the handler |
| Messenger.Messenger.ReleaseTags | software/components/messaging/src/messenger.cpp:27-41 | the tag loop releases them |
| Messenger.Messenger.DetachHandler | software/components/messaging/src/messenger.cpp:27-48 | tags released, then the requests of the handler forgotten |
| Messenger.Messenger.Tick | software/components/messaging/src/messenger.cpp:57-87 | due requests sent again or given up on, the owner acting inside the loop |
| Messenger.Messenger.TickOne | software/components/messaging/src/messenger.cpp:57-87 | one slot left alone, sent again or given up on |
| Messenger.Messenger.NodeDown | software/components/messaging/src/messenger.cpp:221-241 | every request to the node given up on, then every handler told, handlers acting inside both loops |
| Messenger.Messenger.NodeUp | software/components/messaging/src/messenger.cpp:216-219 | every handler told |
| Messenger.Messenger.NotifyHandlers | software/components/messaging/src/messenger.cpp:243-272 | the loop over the tag table, each handler at its first slot |
| Messenger.Messenger.SeenBefore | software/components/messaging/src/messenger.cpp:250-262 | the inner walk finds an earlier slot of the same handler if and only if there is one |
| Messenger.Messenger.Acknowledged | software/components/messaging/src/messenger.cpp:202-214 | the first slot that matches is completed |
| Messenger.Messenger.ReceivePayload | software/components/messaging/src/messenger.cpp:282-324 | undecodable, acknowledgement or message, each counted; a request acknowledged before it is dispatched |
| Messenger.Messenger.AcknowledgeMail | software/components/messaging/src/messenger.cpp:185-200 | the answer carries the id, the acknowledgement tag and nothing else |
| Messenger.Messenger.DispatchMail | software/components/messaging/src/messenger.cpp:304-324 | handed to the owner of its tag or counted unhandled, the outcome counted after |
| FlightSafety.MotorsAreSafe | software/components/flight-core/src/flight_core.cpp:36-93 | at every step of every frame sequence the published commands are the held ones, lie in [0, 1], are zero in IDLE, ARMED, BALLISTIC, CUTOFF and FAULT, and a kill leaves zeros and IDLE |
| FlightSafety.PowerWasArmed | software/components/flight-core/src/flight_core.cpp:209-245 | a command other than zero comes after an exit from IDLE on an armed live frame through its mode's interlock, with no return to IDLE since, and after at least 50 resting frames under plausible pressure |
| FlightSafety.CapturedAtRest | software/components/flight-core/src/estimator/vertical_estimator.cpp:34-59 | the reference counts exactly the resting frames until it is ready, and is ready if and only if fifty were measured |
| FlightSafety.OnlyTheGateLeavesIdle | software/components/flight-core/src/flight_core.cpp:209-245 | IDLE is left if and only if the gate frame opens it with a ready reference, and the mode is then that frame's |
| FlightSafety.BlindFlightIsShort | software/components/flight-core/src/flight_core.cpp:115-143 | a command other than zero was computed at a live frame, is held unchanged through no kill since, and fewer than ten taken frames since had no IMU |
| FlightSafety.FaultIsLatched | software/components/flight-core/src/flight_core.cpp:356-361 | FAULT lasts, motors off, until a kill |
| FlightSafety.FaultStep | software/components/flight-core/src/flight_core.cpp:356-361 | FAULT is left exactly by the kill switch |
| FlightSafety.CutoffIsLatched | software/components/flight-core/src/flight_core.cpp:344-355 | CUTOFF lasts, motors off, until a kill or a taken disarmed frame |
| FlightSafety.CutoffStep | software/components/flight-core/src/flight_core.cpp:344-355 | CUTOFF is left exactly by a kill or a taken disarmed frame |
| FlightSafety.StepKeepsSafe | software/components/flight-core/src/flight_core.cpp:370-487 | every step keeps the safety invariant and publishes what it holds |
| FlightLaunch.LaunchFollowsThrow | software/components/flight-core/src/flight_core.cpp:262-299 | every entry into RECOVERY flies a throw confirmed while ARMED, coasted through since with its release kept, no earlier than 100 ms before the apex of that release |
| FlightLaunch.LaunchesAreDistinct | software/components/flight-core/src/flight_core.cpp:262-299 | no two launches of a run fly the same throw |
| FlightLaunch.StepHandles | software/components/flight-core/src/flight_core.cpp:180-363 | in ARMED and BALLISTIC every throw counted is handled, BALLISTIC implies the detector's own, and the mode fits the phase |
| FlightLaunch.ModeIsLocked | software/components/flight-core/src/flight_core.cpp:223-244 | between two returns to IDLE the locked mode never changes |
| FlightLaunch.TakeoverIsAGesture | software/components/flight-core/src/flight_core.cpp:320-343 | ALTITUDE_AUTO is reached only from a HOVER in which the stick read centred and was then moved past the release distance |
| FlightThrow.LaunchHasSignature | software/components/flight-core/src/flight_core.cpp:645-658 | every launch was preceded, while ARMED, by the whole throw signature in the frames the core measured, and comes no earlier than 100 ms before the apex of a body released at its first falling frame |
| FlightThrow.CountHasSignature | software/components/flight-core/src/flight_core.cpp:645-658 | where the count rises, the measured frames up to there carry the signature, and the release is that of its first falling frame |
| FlightThrow.DetectorFed | software/components/flight-core/src/flight_core.cpp:645-658 | the detector is fed the measured frames, killed ones included, and nothing else |
| FlightTilt.TiltIsCut | software/components/flight-core/src/flight_core.cpp:515-536 | between two live frames with nothing but tilted estimates in MANUAL, LEVEL, ALTITUDE_AUTO and HOVER less than 300 ms pass, across phase changes and IMU gaps |
| FlightTilt.TiltCutsExactly | software/components/flight-core/src/flight_core.cpp:515-536 | a live frame without impact or saturation leads to CUTOFF, from any phase but RECOVERY, if and only if the drone flies armed in a guarded phase and a stretch of nothing but tilted live frames of at least 300 ms ends with it |
| FlightTilt.StreakIsTilted | software/components/flight-core/src/flight_core.cpp:515-536 | the streak kept by the core is such a stretch, begun with the frame it is dated to |
| FlightTilt.StreakCoversAll | software/components/flight-core/src/flight_core.cpp:515-536 | the streak kept by the core is no younger than the tilted stretch it stands for |
| FlightMotors.CommandsCarry | software/components/flight-core/src/flight_core.cpp:370-487 | the commands published on a live frame that leaves the drone flying carry exactly the torques and the collective of its phase (the stick in MANUAL and LEVEL, the vertical loop in HOVER and ALTITUDE_AUTO, the larger of the floor and the scaled hover collective in RECOVERY) if and only if none is clamped; in MANUAL and LEVEL with no throttle they are zero |
| FlightMotors.MoreStickMoreThrust | software/components/flight-core/src/flight_core.cpp:439-487 | more collective never lowers a command |
| FlightMotors.BrakeIsOneShot | software/components/flight-core/src/flight_core.cpp:402-420 | the braking of a hover ends if and only if the drift is spent or its window is over, and does not come back in that hover |
| FlightMotors.LeadsExactly | software/components/flight-core/src/flight_core.cpp:180-363 | from a safe state, each of the ten phases is the next one if and only if the frame is one that leads there, read off the frame and the state without the transition function |
| FlightFlown.CleanThrowIsFlown | software/components/flight-core/src/flight_core.cpp:246-319 | from the raw frames: a clean throw made while ARMED is confirmed, coasted through, and launched at the first frame no more than 100 ms before the apex of a body released at its first falling frame |
| FlightFlown.ThrowIsFlown | software/components/flight-core/src/flight_core.cpp:277-300 | a throw confirmed while ARMED and coasted through is launched at the very first frame that is no more than 100 ms before its apex |
| FlightFlown.RecoveryHovers | software/components/flight-core/src/flight_core.cpp:300-319 | an unhurt recovery hovers if and only if it is upright within its time |
| FlightFlown.LatchesHold | software/components/flight-core/src/flight_core.cpp:180-207 | over every run each stick latch is what the last live frame outside its hysteresis said |
| FlightFlown.TimersAreSet | software/components/flight-core/src/flight_core.cpp:277-343 | recovery and hover are timed from the frame that began them, takeover and braking start afresh in each hover |
| FlightCore.FlightCore.constructor | software/components/flight-core/src/flight_core.cpp:101-109 | power on: IDLE, motors off, nothing captured |
| FlightCore.FlightCore.Step | software/components/flight-core/src/flight_core.cpp:36-93 | kill first, garbage and stale frames held, then blind or live step; published commands included |
| FlightCore.FlightCore.StepBlind | software/components/flight-core/src/flight_core.cpp:111-143 | hold, latch FAULT, or end the mission |
| FlightCore.FlightCore.StepKill | software/components/flight-core/src/flight_core.cpp:47-63 | zeros and IDLE, estimation kept fresh |
| FlightCore.FlightCore.EndMission | software/components/flight-core/src/flight_core.cpp:150-162 | what a mission owns is reset, the stick latches are not |
| FlightCore.FlightCore.AdvancePhase | software/components/flight-core/src/flight_core.cpp:180-363 | latches first, then the phase |
| FlightCore.FlightCore.AdvanceArmed | software/components/flight-core/src/flight_core.cpp:246-355 | the armed phases one by one |
| FlightCore.FlightCore.LeaveIdle | software/components/flight-core/src/flight_core.cpp:209-245 | reference, barometer, arm switch and the mode's interlock |
| FlightCore.FlightCore.Hold | software/components/flight-core/src/flight_core.cpp:320-343 | cutoff, takeover earned, takeover |
| FlightCore.FlightCore.Coast | software/components/flight-core/src/flight_core.cpp:277-300 | saturation, end of the fall, spin-up instant |
| FlightCore.FlightCore.Recover | software/components/flight-core/src/flight_core.cpp:300-319 | abort or level |
| FlightCore.FlightCore.TiltCutoffConfirmed | software/components/flight-core/src/flight_core.cpp:515-536 | the streak advanced by one frame |
| FlightCore.FlightCore.RunControl | software/components/flight-core/src/flight_core.cpp:370-487 | which commands each phase gives, and what it resets |
| FlightCore.FlightCore.UpdateEstimators | software/components/flight-core/src/flight_core.cpp:645-658 | reference capture and throw detection |
| Mixer.Mix | software/components/flight-core/src/control/mixer.cpp:8-30 | four commands in [0, 1] whatever the loops ask for |
| Mixer.MixLosesNothingUnlessClamped | software/components/flight-core/src/control/mixer.cpp:19-30 | the four commands carry exactly the collective and the torques if and only if none is clamped |
| Mixer.RoomForTorque | software/components/flight-core/src/control/mixer.cpp:19-30 | torques within the room the collective leaves are never clamped |
| ThrowDetector.DetectionIsSound | software/components/flight-core/src/throw_launch/throw_detector.cpp:24-118 | the count rises by one, and only where earlier frames over 2 g span 40 ms first to last, an unbroken block under 0.3 g up to this frame lasts 50 ms and left at 2 m/s or more; release and apex are of its first frame |
| ThrowDetector.CleanThrowIsDetected | software/components/flight-core/src/throw_launch/throw_detector.cpp:24-118 | a thrust of 40 ms followed by a fast enough fall is confirmed at the first frame 50 ms into the fall |
| ThrowDetector.CleanThrowIsQuiet | software/components/flight-core/src/throw_launch/throw_detector.cpp:24-118 | and at no frame before |
| ThrowDetector.ApexIsBallistic | software/components/flight-core/src/throw_launch/throw_detector.cpp:67-76 | the predicted apex is where, and to the microsecond when, a body released there stops rising |
| ThrowDetector.ThrowDetector.Feed | software/components/flight-core/src/throw_launch/throw_detector.cpp:24-118 | one frame taken as the specification says, state by state |
| ThrowDetector.ThrowDetector.FeedThrust | software/components/flight-core/src/throw_launch/throw_detector.cpp:44-98 | the thrust state: thrust, fall, confirmation, rejection, give up |
| Quaternions.TurnedNorm | software/components/flight-core/src/estimator/attitude_estimator.cpp:63-73 | before normalisation the squared norm is exactly that of the attitude times 1 + (dt/2)^2 w.w |
| Quaternions.RotationKeepsLength | software/components/flight-core/src/control/attitude_controller.cpp:5-18 | a unit attitude turns vectors without stretching them |
| AttitudeEstimator.AttitudeStaysUnit | software/components/flight-core/src/estimator/attitude_estimator.cpp:8-81 | over every run, whatever is measured and with whatever gains, given the roots its updates took, the attitude stays a unit quaternion and the bias within its limit |
| AttitudeEstimator.UpdateKeepsUnit | software/components/flight-core/src/estimator/attitude_estimator.cpp:63-81 | the division is defined and the update keeps the unit sphere |
| AttitudeEstimator.BiasLearnsOnlyAtRest | software/components/flight-core/src/estimator/attitude_estimator.cpp:28-61 | the bias moves only on a gated frame with a small error |
| AttitudeCorrection.CorrectionCorrects | software/components/flight-core/src/estimator/attitude_estimator.cpp:28-81 | on a corrected frame of a body at rest, v the measured up, u the up seen, k = kp dt / 2 > 0: the alignment v.u rises if and only if the two are neither the same nor opposite and k v.u < 1, and falls if and only if they are neither and k v.u > 1 |
| AttitudeCorrection.CorrectionAligns | software/components/flight-core/src/estimator/attitude_estimator.cpp:28-81 | with e the square of v x u, the alignment after the update times (1 + k^2 e) is exactly that before it times (1 - k^2 e), plus 2 k e |
| AttitudeCorrection.RateTowardGravity | software/components/flight-core/src/estimator/attitude_estimator.cpp:43-65 | the rate of change of v.u under the integrated rate is exactly kp times the square of v x u, plus what gyro and bias contribute |
| AttitudeCorrection.UpTurns | software/components/flight-core/src/estimator/attitude_estimator.cpp:67-73 | one step turns the up the attitude sees by its cross product with the rate times the interval, plus the square of the half turn |
| AttitudeCorrection.UpdateTurnsUp | software/components/flight-core/src/estimator/attitude_estimator.cpp:63-81 | so one update, normalised, turns the seen up by exactly the rate it integrates and keeps its length |
| AttitudeCorrection.UpdateRests | software/components/flight-core/src/estimator/attitude_estimator.cpp:63-81 | an update leaves the attitude as it is if and only if the rate it integrates is zero |
| AttitudeCorrection.AgreementHolds | software/components/flight-core/src/estimator/attitude_estimator.cpp:43-81 | a frame on which measured and seen up agree, of a body at rest, changes neither attitude nor bias |
| AttitudeCorrection.ErrorVanishes | software/components/flight-core/src/estimator/attitude_estimator.cpp:43-46 | the error is zero if and only if measured and seen up are the same or opposite |
| AttitudeCorrection.ErrorIsGated | software/components/flight-core/src/estimator/attitude_estimator.cpp:28-46 | the correction works exactly on an allowed frame slower than 1.5 rad/s that measures within 1 m/s2 of gravity |
| AttitudeCorrection.BiasFollowsError | software/components/flight-core/src/estimator/attitude_estimator.cpp:48-61 | on a frame that teaches the bias, each axis moves in the direction of its error, by exactly ki e dt if and only if that stays within the limit, and stands only at the limit on that side |
| AttitudeEstimator.AttitudeEstimator.LearnBias | software/components/flight-core/src/estimator/attitude_estimator.cpp:50-60 | axis by axis, clamped |
| AttitudeEstimator.AttitudeEstimator.Feed | software/components/flight-core/src/estimator/attitude_estimator.cpp:8-81 | one update, keeping the estimator steady |
| AttitudeControl.SetpointIsSine | software/components/flight-core/src/control/attitude_controller.cpp:5-27 | the squared setpoint is kp^2 (1 - z^2), z the part of the desired axis already up: the gain times the sine of the tilt error |
| AttitudeControl.SetpointIsBounded | software/components/flight-core/src/control/attitude_controller.cpp:5-27 | for a unit lean and a unit attitude the rate setpoint never exceeds kp in length |
| AttitudeControl.SetpointTurnsToward | software/components/flight-core/src/control/attitude_controller.cpp:5-27 | turning at the setpoint the desired up rises toward the up of the body at exactly kp times the square of the sine of the tilt error, about an axis across it and never about the vertical one |
| AttitudeControl.RatesAreBounded | software/components/flight-core/src/flight_core.cpp:538-554 | so it holds for the leans braking and the sticks ask for |
| AttitudeControl.BrakeIsGentle | software/components/flight-core/src/flight_core.cpp:538-554 | the braking lean is a unit vector above the horizon within its maximum tilt |
| AttitudeControl.BrakeLeansBack | software/components/flight-core/src/flight_core.cpp:538-554 | the braking lean is opposite to the horizontal velocity on both axes, along its line, and straight up only at rest |
| AttitudeControl.BrakeOpposes | software/components/flight-core/src/flight_core.cpp:538-554 | its tangent is the speed over one g, scaled down to 0.36 if and only if it is longer |
| AttitudeControl.SticksLeanIsBounded | software/components/flight-core/src/control/stick_mapper.cpp:63-102 | the stick lean is a unit vector above the horizon within the maximum tilt, diagonals included |
| AttitudeControl.SticksLeanTheirWay | software/components/flight-core/src/control/stick_mapper.cpp:63-102 | pitch past its dead band leans along the heading and roll to the right of it, each with the sign of its stick and not at all inside the band |
| AttitudeControl.HeadingIsNose | software/components/flight-core/src/control/stick_mapper.cpp:85-94 | the heading is the direction of the nose, or the axis of the world where the nose points straight up or down |
| AttitudeControl.NoseIsForward | software/components/flight-core/src/control/stick_mapper.cpp:85-93 | the nose is the forward axis of the body seen in the world, its height left out |
| AttitudeControl.RowsAreRotation | software/components/flight-core/src/control/attitude_controller.cpp:10-18 | the two rows written out are components of the rotation into the body |
| AttitudeControl.AttitudeController.RateSetpointFor | software/components/flight-core/src/control/attitude_controller.cpp:5-27 | the setpoint recorded and returned, bounded on unit vectors |
| AttitudeControl.Deflection | software/components/flight-core/src/control/stick_mapper.cpp:34-46 | in [-1, 1], zero exactly inside the dead band, full at full stick, of the stick's sign |
| AttitudeControl.DeflectionIsMonotone | software/components/flight-core/src/control/stick_mapper.cpp:34-46 | monotone and odd |
| AttitudeControl.DeflectionIsLinear | software/components/flight-core/src/control/stick_mapper.cpp:34-46 | past its dead band a stick is linear: nothing at the edge, all at full stick, equal pushes count equally |
| BundleFile.LoadIsExact | software/components/ota/src/bundle.cpp:387-528 | the loader accepts exactly the files that are magic, length-prefixed manifest and length-prefixed images of an acceptable bundle written out, nothing trailing; so re-serialising an accepted bundle gives back the file, and an acceptable bundle written out is read back |
| BundleFile.WalkIsExact | software/components/ota/src/bundle.cpp:462-528 | the images read are exactly those the rest of the file spells behind their lengths, each as listed, to the last byte |
| BundleFile.OpeningIsExact | software/components/ota/src/bundle.cpp:398-421 | the manifest text read is exactly the one spelled behind the magic and its length |
| BundlePackaging.BuiltBundleLoads | scripts/make_ota.py:239-273 | whatever images are packaged for whatever chip with a manifest the hub can read: the hub accepts the file and gives the images back if and only if their number, sizes and headers are shippable |
| BundlePackaging.PackagedBundleLoads | scripts/make_ota.py:239-273 | two linked images, stamped and packaged with a manifest the hub can read, make a file the hub accepts, giving back the stamped images |
| BundlePackaging.LoadedIsConsistent | software/components/ota/src/bundle.cpp:375-385 | sizes and checksums are those of the bytes, every image begins with a header and not with an erased byte, and the image filed for a slot was linked for it |
| BundlePackaging.StampedAgrees | software/components/ota/src/bundle.cpp:301-353 | a stamped image agrees with the manifest entry written about it |
| BundleLoader.LoadBundle | software/components/ota/src/bundle.cpp:387-528 | the cursor walk computes the loader's specification |
| BundleLoader.ReadImages | software/components/ota/src/bundle.cpp:462-520 | image after image to the very end of the file |
| BundleLoader.SlotsInOrder | software/components/ota/src/bundle.cpp:209-253 | slots that exist, rising, with plausible sizes |
| BundleLoader.BuildBundle | scripts/make_ota.py:266-273 | the container, image after image |
| ImageStamp.StampedVerifies | scripts/make_ota.py:214-236 | every stamped image passes the bootloader's check |
| ImageStamp.StampNamesBuild | scripts/make_ota.py:175-211 | a stamped image names the epoch and the hash it was stamped with, each in its field |
| ImageStamp.StampIsIdempotent | scripts/make_ota.py:175-211 | stamping again changes nothing |
| ImageStamp.OnlyFieldsChange | scripts/make_ota.py:175-211 | no byte outside the five fields changes, nor the length |
| ImageStamp.StampForgetsOldFields | scripts/make_ota.py:175-211 | images that agree outside the five fields are stamped alike |
| ImageStamp.StampImage | scripts/make_ota.py:175-211 | a copy written into field by field is the stamped image, and verifies |
| Crc32.Crc32Mpeg2 | scripts/make_ota.py:83-103 | the padded word loop computes the checksum |
| Crc32.DocumentedVectors | scripts/make_ota.py:93-95 | the three checksums the script documents, one of a whole number of words and one padded |
| Crc32.OneWordIsDetected | scripts/make_ota.py:97-103 | two images of one length that differ within one word only have the same checksum if and only if they are the same |
| Crc32.FoldTells | scripts/make_ota.py:99-103 | the same words after two registers leave the same register only if the two were the same |
| Crc32.AbsorbTellsWord | scripts/make_ota.py:100-102 | from one register two words leave the same register only if they are the same word |
| Crc32.PaddingCollides | scripts/make_ota.py:97 | an image that ends inside a word has the checksum of the same image with erased bytes up to the end of that word |
| Crc32.PaddedAlike | scripts/make_ota.py:97 | and padding makes no other images alike: the shorter is a prefix, the rest erased bytes of the last word |
| LogLimiter.SecondIsLimited | software/components/log/src/provider.cpp:17-51 | at most 100 emissions in any half-open second, notices included, over any timestamps that never go back |
| LogLimiter.WindowIsLimited | software/components/log/src/provider.cpp:17-51 | at most 50 emissions per window, its notice included |
| LogLimiter.LinesAreConserved | software/components/log/src/provider.cpp:17-51 | every line is emitted once, in order, or counted dropped; announced drops plus this window's equal the cumulative count |
| LogLimiter.DroppedExactlyIfFull | software/components/log/src/provider.cpp:17-51 | a line is dropped if and only if fifty emissions of its window, the notice included, left before it; otherwise it leaves, at its own instant and next in order |
| LogLimiter.NoticeIsExact | software/components/log/src/provider.cpp:19-41 | the first line of a window is preceded by a notice if and only if lines were dropped that no notice told of, and it tells of all of them |
| LogLimiter.TakeKeeps | software/components/log/src/provider.cpp:17-51 | every line keeps the invariant behind the three |
| LogLimiter.LogProvider.Write | software/components/log/src/provider.cpp:17-51 | one line let through or counted, as the specification says |

## Left out

- `OtaUpdater` and its flash metadata are modelled on values, message by message, not as an object; update in place of its fields is not captured.
- OtaBoard.EraseSlot: states only that the store stays well formed; what it computes is stated by OtaLink and by the FirmwareStore method.
- OtaBoard.Program: the same.
- FirmwareStore.FirmwareStoreEsp32.EraseSlot: partition writes are byte arrays; ESP-IDF boot states, image verification and metadata are outside the model.
- Transport.Transport.OnFrame: drop, relay and link counters, the restart counter, frame header bytes and listener registration are not modelled.
- Transport.Transport.SendFrame: payload size limits, the lack of any link, what a link answers and the send counters are not modelled.
- TransportStreams.NumberedInOrder: covers one life of the sender's entry for the receiver; an entry that expires and returns starts its unicast stream at zero.
- MessengerNet.CompletedOrForged: nodes do not restart within a run, and message bodies are opaque.
- MessengerNews.EveryHandlerToldOnce: what a handler does when called is to start requests, send and detach handlers; attaching a handler from inside a call is not modelled, since a claim is made once, when a handler is constructed.
- OtaReturn.UpdateIsConfirmed: the same schedule; the board resets once, when told to, comes back with the build of the bundle, and the settle time and one poll fit into the time given to its return.
- OtaPhases.EntersExactly: covers calls in which the link took all that was sent; what a refusal leads to is stated by OtaVerdict.StepEnds.
- OtaBoot.DecideBoot: the second record of a vouched slot, image checks and the jump of the bootloader are not modelled.
- OtaLossless.TransferSucceeds: one schedule of a lossless link, which delivers at once and takes a window of sends per call; the pacing is shorter than the chunk-ack timeout, as the configuration has it.
- Messenger.Messenger.Request: payload bytes are opaque; whether an envelope encodes, and whether the transport takes a send, are parameters.
- The raw tap of the messenger.
- The directory's own tick, its identity requests, `nodesOfKind` and its listener array.
- 32-bit counters of frames, drops and throws are unbounded here; the request id and the 16-bit sequence wrap as in the source, and so does the 64-bit clock of the request period and of the log window.
- FlightCore.FlightCore.Step: floats are reals with a flag for a finite frame, norms are compared as squares, and step, stale and invalid counters are left out. The rate and vertical loops, the vertical estimate beyond its reference capture, and stick rate scaling enter as arbitrary reals.
- Tuning parameters and `reset` of the flight core.
- AttitudeEstimator.AttitudeEstimator.Feed: the Euler telemetry mirrors are not modelled; the two square roots of an update are handed in, exact.
- ImageStamp.Stamp: the git hash is taken to be eight characters, as its producer makes it; a field too large for its word refuses the image where the script raises.
- BundleFile.Load: the manifest text is opaque and its reader a parameter; error sentences, file access, the bundle's name and the git hash text are left out.
- LogLimiter.LogProvider.Write: subscribers and the wire form of a line are not modelled.
- Error texts, change notifications, bundle paths, the explicit status request of the hub, hub web interfaces, simulators, drivers, LEDs and bootloader code.
