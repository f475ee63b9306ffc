/**
 * Exactly when each phase of the hub is entered, read off the call and the message alone, which
 * verdict goes with which phase over every run, and what a rollback is measured against.
 */
module OtaPhases {
  import opened Bytes
  import opened OtaTypes
  import opened OtaSession
  import opened OtaWindow
  import opened OtaVerdict

  // ---- what a status says ----

  /** The slot a status says is running, and what it says of it. */
  function Running(status: Status): nat {
    status.runningSlot % 256
  }

  function RunningInfo(status: Status): SlotInfo {
    if Running(status) == 1 then status.slotB else status.slotA
  }

  /** The board runs that build, and runs it on trial or not. */
  predicate Runs(status: Status, epoch: nat) {
    RunningInfo(status).buildEpoch == epoch
  }

  predicate Tries(status: Status) {
    Running(status) < SLOT_COUNT && RunningInfo(status).state == OnTrial
  }

  // ---- the verdict on a board that came back ----

  /** The call is a status report; the second part is what it says. */
  predicate Reports(s: Stamped, status: Status) {
    s.call.CallMessage? && s.call.msg == StatusReport(status)
  }

  /**
   * A status after the settle time decides the trial: confirmed exactly if the running slot holds
   * the bundle's build and is not on trial, rolled back exactly if it holds the build that ran
   * before the update and not the bundle's.
   */
  lemma ReturnIsJudged(cfg: Config, hub: Hub, s: Stamped, status: Status)
    requires Reports(s, status) && (hub.phase.Testing? || (hub.phase.WaitingBoard? && s.now >= hub.settleUntil))
    ensures var after := StepOf(cfg, hub, s).hub;
      var epoch := hub.bundle.buildEpoch;
      && (after.phase.Confirmed? <==> Runs(status, epoch) && !Tries(status))
      && (after.phase.RolledBack? <==> !Runs(status, epoch) && hub.previousEpoch == Some(RunningInfo(status).buildEpoch))
      && (after.phase.Failed? <==>
            hub.phase.WaitingBoard? && !Runs(status, epoch) && hub.previousEpoch != Some(RunningInfo(status).buildEpoch))
      && (after.phase.Testing? <==> !after.phase.Confirmed? && !after.phase.RolledBack? && !after.phase.Failed?)
  {
  }

  /** Before the settle time the old image may still answer: its status is not even looked at. */
  lemma EarlyReturnIsIgnored(cfg: Config, hub: Hub, s: Stamped, status: Status)
    requires Reports(s, status) && (hub.phase.Rebooting? || hub.phase.WaitingBoard?) && s.now < hub.settleUntil
    ensures StepOf(cfg, hub, s) == Out(hub, [], s.budget)
  {
  }

  /** Any other status is kept, in whatever phase: the board is what it says of itself. */
  lemma StatusIsKept(cfg: Config, hub: Hub, s: Stamped, status: Status)
    requires Reports(s, status) && ((hub.phase.Rebooting? || hub.phase.WaitingBoard?) ==> s.now >= hub.settleUntil)
    ensures var board := StepOf(cfg, hub, s).hub.board;
      && board.seen && board.mcu == status.mcu && board.runningSlot == Running(status)
      && board.slotA == status.slotA && board.slotB == status.slotB && board.updaterBusy == status.updaterBusy
      && board.slotSize == status.slotSize && board.maxChunkData == status.maxChunkData
      && board.buildEpoch == RunningInfo(status).buildEpoch
  {
  }

  // ---- exactly when each phase is entered ----

  /** The board can take the bundle as its status describes it. */
  predicate Takes(bundle: Bundle, status: Status) {
    && status.mcu % 256 == bundle.mcuId && !status.updaterBusy && Running(status) < SLOT_COUNT
    && var image := FindImage(bundle, 1 - Running(status));
    && image.Some? && (status.slotSize == 0 || image.value.size <= status.slotSize)
  }

  predicate HearsAck(s: Stamped, session: nat, op: Op) {
    s.call.CallMessage? && s.call.msg == Ack(session, op, Ok)
  }

  /** A revert is acknowledged under any nonce. */
  predicate HearsRevert(s: Stamped) {
    s.call.CallMessage? && s.call.msg.Ack? && s.call.msg.op == OpRevert && s.call.msg.result == Ok
  }

  /** The board answers a finish with an offset short of the image. */
  predicate FallsShort(hub: Hub, s: Stamped) {
    s.call.CallMessage? && s.call.msg.ChunkAck? && s.call.msg.session == hub.session && s.call.msg.nextOffset < hub.tx.acked
  }

  /** The call that takes the hub to a phase it was not in, on a link that refuses nothing. */
  predicate Enters(cfg: Config, hub: Hub, s: Stamped, target: Phase) {
    match target
    case Query => s.call.CallStart? && s.call.loaded.Some? && !Busy(hub.phase)
    case Erasing => hub.phase.Query? && HearsStatus(s) && Takes(hub.bundle, s.call.msg.status)
    case Transfer => (hub.phase.Erasing? && HearsAck(s, hub.session, OpBegin)) || (hub.phase.Verifying? && FallsShort(hub, s))
    case Verifying => hub.phase.Transfer? && Hears(s, ChunkAck(hub.session, hub.tx.total))
    case Rebooting => hub.phase.Verifying? && HearsAck(s, hub.session, OpFinish)
    case WaitingBoard => hub.phase.Rebooting? && s.call.CallTick? && s.now >= hub.settleUntil
    case Testing =>
      && hub.phase.WaitingBoard? && HearsStatus(s) && s.now >= hub.settleUntil
      && Runs(s.call.msg.status, hub.bundle.buildEpoch) && Tries(s.call.msg.status)
    case Confirmed =>
      && (hub.phase.Testing? || (hub.phase.WaitingBoard? && s.now >= hub.settleUntil)) && HearsStatus(s)
      && Runs(s.call.msg.status, hub.bundle.buildEpoch) && !Tries(s.call.msg.status)
    case RolledBack =>
      && (hub.phase.Testing? || (hub.phase.WaitingBoard? && s.now >= hub.settleUntil)) && HearsStatus(s)
      && !Runs(s.call.msg.status, hub.bundle.buildEpoch)
      && hub.previousEpoch == Some(RunningInfo(s.call.msg.status).buildEpoch)
    case Reverting => s.call.CallRevert? && (!Busy(hub.phase) || hub.phase.Testing?)
    case Idle => (s.call.CallAbort? && Busy(hub.phase)) || (hub.phase.Reverting? && HearsRevert(s))
    case Failed => Fails(cfg, hub, s)
  }

  /** Nothing to load, a lapse, or a message the session does not survive. */
  predicate Fails(cfg: Config, hub: Hub, s: Stamped) {
    match s.call
    case CallStart(loaded) => !Busy(hub.phase) && loaded.None?
    case CallTick(_) => Lapses(cfg, hub, s.now)
    case CallMessage(msg, _) => Refused(cfg, hub, msg, s.now)
    case _ => false
  }

  predicate Refused(cfg: Config, hub: Hub, msg: Msg, now: nat) {
    match msg
    case StatusReport(status) =>
      || (hub.phase.Query? && !Takes(hub.bundle, status))
      || (&& hub.phase.WaitingBoard? && now >= hub.settleUntil
          && !Runs(status, hub.bundle.buildEpoch) && hub.previousEpoch != Some(RunningInfo(status).buildEpoch))
    case Ack(session, op, result) =>
      result != Ok &&
      (|| (op.OpBegin? && hub.phase.Erasing? && session == hub.session)
       || (op.OpFinish? && hub.phase.Verifying? && session == hub.session)
       || (op.OpRevert? && hub.phase.Reverting?))
    case ChunkAck(session, next) =>
      && session == hub.session && (hub.phase.Transfer? || hub.phase.Verifying?)
      && (|| next > hub.tx.total
          || (&& next == hub.tx.acked != hub.tx.sent && hub.tx.stalledRounds >= cfg.maxRetries
              && !(next == hub.tx.resendOffset && now < hub.tx.resendGuard)))
    case _ => false
  }

  predicate Exact(cfg: Config, hub: Hub, s: Stamped, out: Out, target: Phase) {
    hub.phase != target && out.budget > 0 ==> (out.hub.phase == target <==> Enters(cfg, hub, s, target))
  }

  /** A phase is entered exactly by the calls that lead to it, unless the link gave out during the call. */
  lemma EntersExactly(cfg: Config, hub: Hub, s: Stamped, target: Phase)
    requires Inv(hub) && Legal(s.call)
    ensures Exact(cfg, hub, s, StepOf(cfg, hub, s), target)
  {
    match s.call
    case CallTick(_) => TickExact(cfg, hub, s, target);
    case CallMessage(StatusReport(_), _) => StatusExact(cfg, hub, s, target);
    case CallMessage(Ack(_, _, _), _) => AckExact(cfg, hub, s, target);
    case CallMessage(ChunkAck(_, _), _) => ChunkAckExact(cfg, hub, s, target);
    case CallMessage(_, _) =>
    case _ => OperatorExact(cfg, hub, s, target);
  }

  lemma OperatorExact(cfg: Config, hub: Hub, s: Stamped, target: Phase)
    requires s.call.CallStart? || s.call.CallAbort? || s.call.CallRevert?
    ensures Exact(cfg, hub, s, StepOf(cfg, hub, s), target)
  {
  }

  lemma TickExact(cfg: Config, hub: Hub, s: Stamped, target: Phase)
    requires Inv(hub) && Legal(s.call) && s.call.CallTick?
    ensures Exact(cfg, hub, s, StepOf(cfg, hub, s), target)
  {
    if hub.phase.Transfer? {
      PumpKeepsTransfer(cfg, hub.(tx := GoBack(cfg, hub.tx, s.now)), s.now, s.budget);
    } else {
      QuietTickExact(cfg, hub, s, target);
    }
  }

  lemma QuietTickExact(cfg: Config, hub: Hub, s: Stamped, target: Phase)
    requires s.call.CallTick? && !hub.phase.Transfer?
    ensures Exact(cfg, hub, s, StepOf(cfg, hub, s), target)
  {
  }

  /** A pump stays in TRANSFER unless the link gives out. */
  lemma PumpKeepsTransfer(cfg: Config, hub: Hub, now: nat, budget: nat)
    requires Pumpable(hub, now)
    ensures var out := Pump(cfg, Out(hub, [], budget), now); out.budget > 0 ==> out.hub.phase.Transfer?
  {
    BurstStops(cfg.chunkDelay, hub.tx, hub.session, Source(hub), now, budget);
  }

  lemma StatusExact(cfg: Config, hub: Hub, s: Stamped, target: Phase)
    requires Inv(hub) && HearsStatus(s)
    ensures Exact(cfg, hub, s, StepOf(cfg, hub, s), target)
  {
    if hub.phase.Query? {
      OpeningExact(cfg, hub, s, target);
    } else if hub.phase.Testing? || (hub.phase.WaitingBoard? && s.now >= hub.settleUntil) {
      ReturnIsJudged(cfg, hub, s, s.call.msg.status);
    }
  }

  lemma OpeningExact(cfg: Config, hub: Hub, s: Stamped, target: Phase)
    requires Inv(hub) && HearsStatus(s) && hub.phase.Query?
    ensures Exact(cfg, hub, s, StepOf(cfg, hub, s), target)
  {
  }

  lemma AckExact(cfg: Config, hub: Hub, s: Stamped, target: Phase)
    requires Inv(hub) && s.call.CallMessage? && s.call.msg.Ack?
    ensures Exact(cfg, hub, s, StepOf(cfg, hub, s), target)
  {
    if s.call.msg.op.OpBegin? {
      if hub.phase.Erasing? {
        PumpKeepsTransfer(cfg, BeginTransfer(cfg, hub, s.now), s.now, s.budget);
      }
    } else {
      LateAckExact(cfg, hub, s, target);
    }
  }

  lemma LateAckExact(cfg: Config, hub: Hub, s: Stamped, target: Phase)
    requires s.call.CallMessage? && s.call.msg.Ack? && !s.call.msg.op.OpBegin?
    ensures Exact(cfg, hub, s, StepOf(cfg, hub, s), target)
  {
  }

  lemma ChunkAckExact(cfg: Config, hub: Hub, s: Stamped, target: Phase)
    requires Inv(hub) && s.call.CallMessage? && s.call.msg.ChunkAck?
    ensures Exact(cfg, hub, s, StepOf(cfg, hub, s), target)
  {
    var ChunkAck(session, next) := s.call.msg;
    DigestKeeps(cfg, hub, session, next, s.now);
    match Digest(cfg, hub, session, next, s.now)
    case Resumed(tx) => PumpKeepsTransfer(cfg, hub.(tx := tx, phase := Transfer), s.now, s.budget);
    case _ =>
  }

  // ---- exactly what each call says to the board ----

  /** A poll is due, and the phase still has one left. */
  predicate Polls(cfg: Config, hub: Hub, s: Stamped) {
    && s.call.CallTick? && s.now >= hub.nextStatus
    && match hub.phase
       case Query => hub.statusTries < cfg.statusTries
       case WaitingBoard => s.now < hub.deadline
       case Testing => true
       case _ => false
  }

  /** The call that says it, on a link that refuses nothing; chunks are the pump's. */
  predicate Says(cfg: Config, hub: Hub, s: Stamped, msg: Msg) {
    match msg
    case StatusRequest => Enters(cfg, hub, s, Query) || Polls(cfg, hub, s)
    case Begin(session, size, crc) =>
      && Enters(cfg, hub, s, Erasing) && session == s.call.nonce
      && var image := FindImage(hub.bundle, 1 - Running(s.call.msg.status)).value;
      && size == image.size && crc == image.crc32
    case Finish(session) =>
      && (hub.phase.Transfer? || hub.phase.Verifying?) && Hears(s, ChunkAck(hub.session, hub.tx.total)) && session == hub.session
    case AbortSession(session) => s.call.CallAbort? && Sending(hub.phase) && session == hub.session
    case Revert =>
      || Enters(cfg, hub, s, Reverting)
      || (hub.phase.Reverting? && s.call.CallTick? && s.now >= hub.deadline && hub.ackTries < cfg.maxAckTries)
    case Reboot => Enters(cfg, hub, s, Rebooting) || (hub.phase.Reverting? && HearsRevert(s))
    case _ => false
  }

  predicate Spoken(cfg: Config, hub: Hub, s: Stamped, out: Out, msg: Msg) {
    out.budget > 0 && !msg.Chunk? ==> (msg in out.sent <==> Says(cfg, hub, s, msg))
  }

  lemma SaysExactly(cfg: Config, hub: Hub, s: Stamped, msg: Msg)
    requires Inv(hub) && Legal(s.call)
    ensures Spoken(cfg, hub, s, StepOf(cfg, hub, s), msg)
  {
    match s.call
    case CallTick(_) =>
      if hub.phase.Transfer? {
        PumpSaysChunks(cfg, hub.(tx := GoBack(cfg, hub.tx, s.now)), s.now, s.budget, msg);
      } else {
        QuietTickSays(cfg, hub, s, msg);
      }
    case CallMessage(StatusReport(_), _) => StatusSays(cfg, hub, s, msg);
    case CallMessage(Ack(_, _, _), _) => AckSays(cfg, hub, s, msg);
    case CallMessage(ChunkAck(_, _), _) => ChunkAckSays(cfg, hub, s, msg);
    case CallMessage(_, _) =>
    case _ => OperatorSays(cfg, hub, s, msg);
  }

  lemma PumpSaysChunks(cfg: Config, hub: Hub, now: nat, budget: nat, msg: Msg)
    requires Pumpable(hub, now)
    ensures msg in Pump(cfg, Out(hub, [], budget), now).sent ==> msg.Chunk?
  {
    PumpSends(cfg, Out(hub, [], budget), now);
    var sent := Pump(cfg, Out(hub, [], budget), now).sent;
    assert sent[0..] == sent;
  }

  lemma OperatorSays(cfg: Config, hub: Hub, s: Stamped, msg: Msg)
    requires s.call.CallStart? || s.call.CallAbort? || s.call.CallRevert?
    ensures Spoken(cfg, hub, s, StepOf(cfg, hub, s), msg)
  {
  }

  lemma QuietTickSays(cfg: Config, hub: Hub, s: Stamped, msg: Msg)
    requires s.call.CallTick? && !hub.phase.Transfer?
    ensures Spoken(cfg, hub, s, StepOf(cfg, hub, s), msg)
  {
  }

  lemma StatusSays(cfg: Config, hub: Hub, s: Stamped, msg: Msg)
    requires HearsStatus(s)
    ensures Spoken(cfg, hub, s, StepOf(cfg, hub, s), msg)
  {
  }

  lemma AckSays(cfg: Config, hub: Hub, s: Stamped, msg: Msg)
    requires Inv(hub) && s.call.CallMessage? && s.call.msg.Ack?
    ensures Spoken(cfg, hub, s, StepOf(cfg, hub, s), msg)
  {
    if s.call.msg.op.OpBegin? {
      if hub.phase.Erasing? {
        PumpSaysChunks(cfg, BeginTransfer(cfg, hub, s.now), s.now, s.budget, msg);
      }
    } else {
      LateAckSays(cfg, hub, s, msg);
    }
  }

  lemma LateAckSays(cfg: Config, hub: Hub, s: Stamped, msg: Msg)
    requires s.call.CallMessage? && s.call.msg.Ack? && !s.call.msg.op.OpBegin?
    ensures Spoken(cfg, hub, s, StepOf(cfg, hub, s), msg)
  {
  }

  lemma ChunkAckSays(cfg: Config, hub: Hub, s: Stamped, msg: Msg)
    requires Inv(hub) && s.call.CallMessage? && s.call.msg.ChunkAck?
    ensures Spoken(cfg, hub, s, StepOf(cfg, hub, s), msg)
  {
    var ChunkAck(session, next) := s.call.msg;
    DigestKeeps(cfg, hub, session, next, s.now);
    match Digest(cfg, hub, session, next, s.now)
    case Resumed(tx) => PumpSaysChunks(cfg, hub.(tx := tx, phase := Transfer), s.now, s.budget, msg);
    case _ =>
  }

  // ---- the clocks armed on the way in ----

  /** The time a phase entered at this instant is given. */
  predicate Armed(cfg: Config, before: Phase, after: Hub, now: nat) {
    after.phase != before ==>
      match after.phase
      case Query => after.nextStatus == now + cfg.statusPeriod && after.statusTries == 1
      case Erasing => after.deadline == now + cfg.beginTimeout
      case Transfer => after.tx.chunkDeadline == now + cfg.chunkAckTimeout
      case Verifying => after.deadline == now + cfg.finishTimeout
      case Rebooting => after.settleUntil == now + cfg.rebootSettle && after.deadline == now + cfg.boardReturnTimeout
      case WaitingBoard => after.nextStatus == now
      case Testing => after.nextStatus == now + cfg.statusPeriod
      case Reverting => after.deadline == now + cfg.ackTimeout && after.ackTries == 1
      case _ => true
  }

  lemma EntryIsTimed(cfg: Config, hub: Hub, s: Stamped)
    requires Inv(hub) && Legal(s.call)
    ensures Armed(cfg, hub.phase, StepOf(cfg, hub, s).hub, s.now)
  {
    match s.call
    case CallTick(_) => TickIsTimed(cfg, hub, s);
    case CallMessage(StatusReport(_), _) => StatusIsTimed(cfg, hub, s);
    case CallMessage(Ack(_, _, _), _) => AckIsTimed(cfg, hub, s);
    case CallMessage(ChunkAck(_, _), _) => ChunkAckIsTimed(cfg, hub, s);
    case _ =>
  }

  lemma TickIsTimed(cfg: Config, hub: Hub, s: Stamped)
    requires Inv(hub) && Legal(s.call) && s.call.CallTick?
    ensures Armed(cfg, hub.phase, StepOf(cfg, hub, s).hub, s.now)
  {
    if hub.phase.Transfer? {
      PumpSends(cfg, Out(hub.(tx := GoBack(cfg, hub.tx, s.now)), [], s.budget), s.now);
    }
  }

  lemma StatusIsTimed(cfg: Config, hub: Hub, s: Stamped)
    requires HearsStatus(s)
    ensures Armed(cfg, hub.phase, StepOf(cfg, hub, s).hub, s.now)
  {
  }

  /** A pump leaves the chunk deadline as it was or re-arms it now. */
  lemma PumpRearms(cfg: Config, hub: Hub, now: nat, budget: nat)
    requires Pumpable(hub, now) && hub.tx.chunkDeadline == now + cfg.chunkAckTimeout
    ensures Pump(cfg, Out(hub, [], budget), now).hub.tx.chunkDeadline == now + cfg.chunkAckTimeout
  {
    PumpLoopSends(cfg.chunkDelay, hub.tx, hub.session, Source(hub), now, budget);
  }

  lemma AckIsTimed(cfg: Config, hub: Hub, s: Stamped)
    requires Inv(hub) && s.call.CallMessage? && s.call.msg.Ack?
    ensures Armed(cfg, hub.phase, StepOf(cfg, hub, s).hub, s.now)
  {
    if s.call.msg.op.OpBegin? && hub.phase.Erasing? {
      PumpSends(cfg, Out(BeginTransfer(cfg, hub, s.now), [], s.budget), s.now);
      PumpRearms(cfg, BeginTransfer(cfg, hub, s.now), s.now, s.budget);
    }
  }

  lemma ChunkAckIsTimed(cfg: Config, hub: Hub, s: Stamped)
    requires Inv(hub) && s.call.CallMessage? && s.call.msg.ChunkAck?
    ensures Armed(cfg, hub.phase, StepOf(cfg, hub, s).hub, s.now)
  {
    var ChunkAck(session, next) := s.call.msg;
    DigestKeeps(cfg, hub, session, next, s.now);
    match Digest(cfg, hub, session, next, s.now)
    case Resumed(tx) =>
      PumpSends(cfg, Out(hub.(tx := tx, phase := Transfer), [], s.budget), s.now);
      PumpRearms(cfg, hub.(tx := tx, phase := Transfer), s.now, s.budget);
    case _ =>
  }

  /** What is said again counts a try and is given its time anew. */
  lemma RepeatIsTimed(cfg: Config, hub: Hub, s: Stamped)
    requires s.call.CallTick? && s.budget > 0
    ensures var after := StepOf(cfg, hub, s).hub;
      && (Polls(cfg, hub, s) ==>
            && after.phase == hub.phase && after.nextStatus == s.now + cfg.statusPeriod
            && after.statusTries == hub.statusTries + (if hub.phase.Query? then 1 else 0))
      && (hub.phase.Reverting? && s.now >= hub.deadline && hub.ackTries < cfg.maxAckTries ==>
            after.phase.Reverting? && after.deadline == s.now + cfg.ackTimeout && after.ackTries == hub.ackTries + 1)
  {
  }

  /** A start leaves nothing of an earlier session. */
  lemma StartForgets(cfg: Config, hub: Hub, s: Stamped)
    requires Enters(cfg, hub, s, Query) && s.budget > 0
    ensures var after := StepOf(cfg, hub, s).hub;
      && after.phase.Query? && after.bundle == s.call.loaded.value && after.previousEpoch.None?
      && after.targetSlot == SLOT_COUNT && after.session == 0 && after.ackTries == 0
      && after.tx.sent == 0 && after.tx.acked == 0 && after.tx.total == 0 && after.tx.retries == 0 && after.tx.chunkData == 0
  {
  }

  /** Between sessions a tick takes a bundle that was replaced, and changes nothing else. */
  lemma IdleTickReloads(cfg: Config, hub: Hub, s: Stamped)
    requires s.call.CallTick? && !Busy(hub.phase)
    ensures StepOf(cfg, hub, s) == Out(if s.call.reload.Some? then hub.(bundle := s.call.reload.value) else hub, [], s.budget)
  {
  }

  // ---- what a transfer counts ----

  /** Nothing was acknowledged in time. */
  predicate WasSilent(hub: Hub, s: Stamped) {
    s.call.CallTick? && s.now >= hub.tx.chunkDeadline
  }

  /** The board repeats the offset acknowledged last, and this is not the echo of a burst already answered. */
  predicate Repeated(hub: Hub, s: Stamped) {
    && s.call.CallMessage? && s.call.msg.ChunkAck? && s.call.msg.session == hub.session
    && s.call.msg.nextOffset == hub.tx.acked != hub.tx.sent
    && !(s.call.msg.nextOffset == hub.tx.resendOffset && s.now < hub.tx.resendGuard)
  }

  /** A round of sending again is counted exactly where the board was silent or repeats itself. */
  lemma RoundsAreCounted(cfg: Config, hub: Hub, s: Stamped)
    requires Inv(hub) && Legal(s.call) && hub.phase.Transfer? && StepOf(cfg, hub, s).hub.phase.Transfer?
    ensures StepOf(cfg, hub, s).hub.tx.retries == hub.tx.retries + (if WasSilent(hub, s) || Repeated(hub, s) then 1 else 0)
    ensures Repeated(hub, s) ==>
      var tx := StepOf(cfg, hub, s).hub.tx; tx.resendOffset == hub.tx.acked && tx.resendGuard == s.now + cfg.chunkAckTimeout
  {
    match s.call
    case CallTick(_) => PumpCountsNone(cfg, Out(hub.(tx := GoBack(cfg, hub.tx, s.now)), [], s.budget), s.now);
    case CallMessage(ChunkAck(session, next), _) =>
      match Digest(cfg, hub, session, next, s.now) {
        case Resumed(tx) => PumpCountsNone(cfg, Out(hub.(tx := tx, phase := Transfer), [], s.budget), s.now);
        case _ =>
      }
    case _ =>
  }

  lemma PumpCountsNone(cfg: Config, o: Out, now: nat)
    requires Pumpable(o.hub, now)
    ensures var tx := Pump(cfg, o, now).hub.tx;
      tx.retries == o.hub.tx.retries && tx.resendOffset == o.hub.tx.resendOffset && tx.resendGuard == o.hub.tx.resendGuard
  {
    PumpLoopSends(cfg.chunkDelay, o.hub.tx, o.hub.session, Source(o.hub), now, o.budget);
  }

  /** Chunks are as large as the protocol and the board allow, and no larger. */
  lemma OpeningFitsBoard(cfg: Config, hub: Hub, s: Stamped)
    requires HearsStatus(s) && Opens(hub, s, StepOf(cfg, hub, s))
    ensures var size, max := StepOf(cfg, hub, s).hub.tx.chunkData, s.call.msg.status.maxChunkData;
      && 0 < size <= CHUNK_DATA_SIZE && (max > 0 ==> size <= max)
      && (size == CHUNK_DATA_SIZE || size == max)
      && StepOf(cfg, hub, s).hub.targetSlot == 1 - Running(s.call.msg.status)
  {
  }

  // ---- the verdict that goes with each phase ----

  /**
   * Each verdict belongs to its phase and each ended phase has its verdict; no session under way
   * has one. An idle hub has none, that of a revert, or that of a revert whose reboot was refused.
   */
  predicate Judged(hub: Hub) {
    && (hub.phase.Confirmed? <==> hub.verdict == UpdateConfirmed)
    && (hub.phase.RolledBack? <==> hub.verdict == UpdateRolledBack)
    && (hub.phase.Failed? ==> hub.verdict == UpdateFailed)
    && (hub.verdict == UpdateFailed ==> hub.phase.Failed? || hub.phase.Idle?)
    && (hub.verdict == Reverted ==> hub.phase.Idle?)
    && (Busy(hub.phase) ==> hub.verdict == NoVerdict)
  }

  lemma StepKeepsJudged(cfg: Config, hub: Hub, s: Stamped)
    requires Inv(hub) && Legal(s.call) && Judged(hub)
    ensures Judged(StepOf(cfg, hub, s).hub)
  {
    match s.call
    case CallTick(_) =>
      if hub.phase.Transfer? {
        PumpJudged(cfg, hub.(tx := GoBack(cfg, hub.tx, s.now)), s.now, s.budget);
      }
    case CallMessage(StatusReport(_), _) => StatusJudged(cfg, hub, s);
    case CallMessage(Ack(_, _, _), _) => AckJudged(cfg, hub, s);
    case CallMessage(ChunkAck(_, _), _) => ChunkAckJudged(cfg, hub, s);
    case _ =>
  }

  lemma StatusJudged(cfg: Config, hub: Hub, s: Stamped)
    requires HearsStatus(s) && Judged(hub)
    ensures Judged(StepOf(cfg, hub, s).hub)
  {
  }

  lemma AckJudged(cfg: Config, hub: Hub, s: Stamped)
    requires s.call.CallMessage? && s.call.msg.Ack? && Judged(hub)
    ensures Judged(StepOf(cfg, hub, s).hub)
  {
    if s.call.msg.op.OpBegin? && hub.phase.Erasing? {
      PumpJudged(cfg, BeginTransfer(cfg, hub, s.now), s.now, s.budget);
    }
  }

  lemma ChunkAckJudged(cfg: Config, hub: Hub, s: Stamped)
    requires s.call.CallMessage? && s.call.msg.ChunkAck? && Judged(hub)
    ensures Judged(StepOf(cfg, hub, s).hub)
  {
    var ChunkAck(session, next) := s.call.msg;
    match Digest(cfg, hub, session, next, s.now)
    case Resumed(tx) => PumpJudged(cfg, hub.(tx := tx, phase := Transfer), s.now, s.budget);
    case _ =>
  }

  lemma PumpJudged(cfg: Config, hub: Hub, now: nat, budget: nat)
    requires hub.phase.Transfer? && hub.verdict == NoVerdict
    ensures Judged(Pump(cfg, Out(hub, [], budget), now).hub)
  {
  }

  lemma {:induction false} VerdictFitsPhase(cfg: Config, t: Trace, n: nat)
    requires Run(cfg, t) && n < |t.hubs|
    ensures Judged(t.hubs[n])
  {
    if n > 0 {
      VerdictFitsPhase(cfg, t, n - 1);
      RunKeepsInv(cfg, t, n - 1);
      assert Follows(cfg, t, n - 1);
      StepKeepsJudged(cfg, t.hubs[n - 1], t.calls[n - 1]);
    }
  }

  // ---- what a rollback is measured against ----

  /** The call at that index opened the session, and its status named the build then running. */
  predicate OpenedOver(t: Trace, open: nat, epoch: nat)
    requires Shaped(t) && open < |t.calls|
  {
    && Opens(t.hubs[open], t.calls[open], t.outs[open])
    && RunningInfo(t.calls[open].call.msg.status).buildEpoch == epoch
  }

  /** The build before the update is noted when the session opens, and kept while it is under way. */
  lemma PreviousStep(cfg: Config, hub: Hub, s: Stamped)
    requires Inv(hub) && Legal(s.call)
    ensures var out := StepOf(cfg, hub, s);
      Underway(out.hub.phase) ==>
        || (Opens(hub, s, out) && out.hub.previousEpoch == Some(RunningInfo(s.call.msg.status).buildEpoch))
        || (Underway(hub.phase) && out.hub.previousEpoch == hub.previousEpoch)
  {
    match s.call
    case CallTick(_) =>
      if hub.phase.Transfer? {
        PumpKeepsPrevious(cfg, Out(hub.(tx := GoBack(cfg, hub.tx, s.now)), [], s.budget), s.now);
      }
    case CallMessage(Ack(_, OpBegin, _), _) =>
      if hub.phase.Erasing? {
        PumpKeepsPrevious(cfg, Out(BeginTransfer(cfg, hub, s.now), [], s.budget), s.now);
      }
    case CallMessage(StatusReport(status), _) => StatusAdvances(cfg, hub, s);
    case CallMessage(ChunkAck(session, next), _) =>
      match Digest(cfg, hub, session, next, s.now) {
        case Resumed(tx) => PumpKeepsPrevious(cfg, Out(hub.(tx := tx, phase := Transfer), [], s.budget), s.now);
        case _ =>
      }
    case _ =>
  }

  lemma PumpKeepsPrevious(cfg: Config, o: Out, now: nat)
    ensures Pump(cfg, o, now).hub.previousEpoch == o.hub.previousEpoch
  {
  }

  lemma {:induction false} PreviousIsKnown(cfg: Config, t: Trace, n: nat) returns (open: nat)
    requires Run(cfg, t) && n < |t.hubs| && Underway(t.hubs[n].phase)
    ensures open < n && t.hubs[n].previousEpoch.Some? && OpenedOver(t, open, t.hubs[n].previousEpoch.value)
  {
    assert n > 0;
    RunKeepsInv(cfg, t, n - 1);
    assert Follows(cfg, t, n - 1);
    PreviousStep(cfg, t.hubs[n - 1], t.calls[n - 1]);
    if Opens(t.hubs[n - 1], t.calls[n - 1], t.outs[n - 1]) &&
       t.hubs[n].previousEpoch == Some(RunningInfo(t.calls[n - 1].call.msg.status).buildEpoch) {
      open := n - 1;
    } else {
      open := PreviousIsKnown(cfg, t, n - 1);
    }
  }

  /**
   * Over every run, ROLLED_BACK is entered only by a status of a board that runs the very build
   * it ran when the session was opened, and not the bundle's.
   */
  lemma RollbackIsReal(cfg: Config, t: Trace, n: nat) returns (open: nat)
    requires Run(cfg, t) && 0 < n < |t.hubs|
    requires t.hubs[n].phase.RolledBack? && !t.hubs[n - 1].phase.RolledBack?
    ensures open < n - 1 && HearsStatus(t.calls[n - 1])
    ensures var epoch := RunningInfo(t.calls[n - 1].call.msg.status).buildEpoch;
      OpenedOver(t, open, epoch) && epoch != t.hubs[n].bundle.buildEpoch
  {
    RunKeepsInv(cfg, t, n - 1);
    assert Follows(cfg, t, n - 1);
    StepEnds(cfg, t.hubs[n - 1], t.calls[n - 1]);
    StepAdvances(cfg, t.hubs[n - 1], t.calls[n - 1]);
    open := PreviousIsKnown(cfg, t, n - 1);
  }
}
