/**
 * The hub side of one firmware update as functions of the session: what each call of the
 * session object leaves behind and what it hands to the link. The link may refuse a send, which
 * fails the session; `budget` is the number of sends it still accepts during the call.
 */
module OtaSession {
  import opened Bytes
  import opened OtaTypes

  /** Timeouts in microseconds and retry budgets. */
  datatype Config = Config(beginTimeout: nat, finishTimeout: nat, chunkAckTimeout: nat, ackTimeout: nat,
                           statusPeriod: nat, rebootSettle: nat, boardReturnTimeout: nat, chunkDelay: nat,
                           statusTries: nat, maxRetries: nat, maxAckTries: nat)

  /** The go-back-N sender: progress, window size, pacing and resend bookkeeping. */
  datatype Tx = Tx(sent: nat, acked: nat, total: nat, retries: nat, chunkData: nat, nextChunk: nat,
                   chunkDeadline: nat, stalledRounds: nat, resendOffset: nat, resendGuard: nat)

  /** The last status the board sent, with the identity of its running slot. */
  datatype Board = Board(seen: bool, mcu: nat, runningSlot: nat, slotA: SlotInfo, slotB: SlotInfo,
                         updaterBusy: bool, buildEpoch: nat, slotSize: nat, maxChunkData: nat)

  datatype Hub = Hub(
    phase: Phase,
    verdict: Verdict,
    bundle: Bundle,
    board: Board,
    tx: Tx,
    session: nat,
    targetSlot: nat,
    deadline: nat,
    nextStatus: nat,
    settleUntil: nat,
    statusTries: nat,
    ackTries: nat,
    previousEpoch: Option<nat>)

  /** A hub, what it handed to the link during the call, and the sends the link still accepts. */
  datatype Out = Out(hub: Hub, sent: seq<Msg>, budget: nat)

  const EMPTY_SLOT := SlotInfo(Empty, 0)
  const NO_BOARD := Board(false, 0, 0, EMPTY_SLOT, EMPTY_SLOT, false, 0, 0, 0)
  const FRESH_TX := Tx(0, 0, 0, 0, 0, 0, 0, 0, 0, 0)
  const FRESH_HUB := Hub(Idle, NoVerdict, NO_BUNDLE, NO_BOARD, FRESH_TX, 0, SLOT_COUNT, 0, 0, 0, 0, 0, None)

  /** The four progress counters back to zero, the rest of the sender kept. */
  function NoProgress(tx: Tx): Tx {
    tx.(sent := 0, acked := 0, total := 0, retries := 0)
  }

  predicate Busy(phase: Phase) {
    phase.Query? || phase.Erasing? || phase.Transfer? || phase.Verifying? || phase.Rebooting? ||
    phase.WaitingBoard? || phase.Testing? || phase.Reverting?
  }

  function Fail(hub: Hub): Hub {
    hub.(phase := Failed, verdict := UpdateFailed)
  }

  function Emit(o: Out, msg: Msg): Out {
    if o.budget == 0 then o.(hub := Fail(o.hub)) else Out(o.hub, o.sent + [msg], o.budget - 1)
  }

  // ---- operator calls ----

  function Start(cfg: Config, hub: Hub, loaded: Option<Bundle>, now: nat, budget: nat): Out {
    if Busy(hub.phase) then Out(hub, [], budget)
    else if loaded.None? then Out(Fail(hub.(bundle := NO_BUNDLE)), [], budget)
    else
      Emit(Out(hub.(bundle := loaded.value, verdict := NoVerdict, tx := NoProgress(hub.tx).(chunkData := 0),
                    targetSlot := SLOT_COUNT, session := 0, previousEpoch := None, ackTries := 0,
                    statusTries := 1, nextStatus := now + cfg.statusPeriod, phase := Query), [], budget),
           StatusRequest)
  }

  /** The abort message is best effort: a link that refuses it does not refuse the abort. */
  function Abort(hub: Hub, budget: nat): Out {
    if !Busy(hub.phase) then Out(hub, [], budget)
    else
      var idle := hub.(tx := NoProgress(hub.tx), targetSlot := SLOT_COUNT, session := 0, verdict := NoVerdict, phase := Idle);
      if (hub.phase.Erasing? || hub.phase.Transfer? || hub.phase.Verifying?) && budget > 0
      then Out(idle, [AbortSession(hub.session)], budget - 1)
      else Out(idle, [], budget)
  }

  function StartRevert(cfg: Config, hub: Hub, now: nat, budget: nat): Out {
    if Busy(hub.phase) && !hub.phase.Testing? then Out(hub, [], budget)
    else
      Emit(Out(hub.(verdict := NoVerdict, ackTries := 1, deadline := now + cfg.ackTimeout, phase := Reverting), [], budget),
           OtaTypes.Revert)
  }

  // ---- the go-back-N sender ----

  predicate MayPump(tx: Tx, now: nat) {
    && tx.sent < tx.total
    && tx.sent - tx.acked < CHUNK_ACK_WINDOW * tx.chunkData
    && now >= tx.nextChunk
  }

  /** The chunk at the send offset, as long as the image and the chunk size allow. */
  function NextChunk(tx: Tx, session: nat, image: seq<Byte>): (chunk: Msg)
    requires tx.sent <= tx.total <= |image|
  {
    Chunk(session, tx.sent, image[tx.sent..tx.sent + Min(tx.total - tx.sent, tx.chunkData)])
  }

  /** What one pump leaves: the sender, the chunks the link took, the sends it still accepts, and whether it took all. */
  datatype Burst = Burst(tx: Tx, chunks: seq<Msg>, budget: nat, ok: bool)

  /** The chunk loop: it repeats while window, image and pacing allow and the link accepts. */
  function PumpLoop(delay: nat, tx: Tx, session: nat, image: seq<Byte>, now: nat, budget: nat): Burst
    requires tx.sent <= tx.total <= |image| && tx.chunkData > 0
    decreases tx.total - tx.sent
  {
    if !MayPump(tx, now) then Burst(tx, [], budget, true)
    else if budget == 0 then Burst(tx, [], 0, false)
    else
      var chunk := NextChunk(tx, session, image);
      var rest := PumpLoop(delay, tx.(sent := tx.sent + |chunk.data|, nextChunk := now + delay), session, image, now, budget - 1);
      rest.(chunks := [chunk] + rest.chunks)
  }

  /** The image the session transfers. */
  function Source(hub: Hub): seq<Byte> {
    match FindImage(hub.bundle, hub.targetSlot)
    case Some(image) => image.bytes
    case None => []
  }

  /** Hands the link what the window and the pacing allow, then arms the chunk-ack timeout. */
  function Pump(cfg: Config, o: Out, now: nat): Out {
    var tx := o.hub.tx;
    if !o.hub.phase.Transfer? || tx.chunkData == 0 || !MayPump(tx, now) then o
    else if !(tx.sent <= tx.total <= |Source(o.hub)|) then o.(hub := Fail(o.hub))
    else
      var burst := PumpLoop(cfg.chunkDelay, tx, o.hub.session, Source(o.hub), now, o.budget);
      var hub := o.hub.(tx := if burst.ok then burst.tx.(chunkDeadline := now + cfg.chunkAckTimeout) else burst.tx);
      Out(if burst.ok then hub else Fail(hub), o.sent + burst.chunks, burst.budget)
  }

  /** Rewinds the sender to the last acknowledgement and lets the next chunk go at once. */
  function Rewind(cfg: Config, tx: Tx, now: nat): Tx {
    tx.(sent := tx.acked, nextChunk := now, chunkDeadline := now + cfg.chunkAckTimeout)
  }

  /** One more resend round without progress. */
  function StallRound(cfg: Config, tx: Tx, now: nat): Tx {
    Rewind(cfg, tx, now).(retries := tx.retries + 1, stalledRounds := tx.stalledRounds + 1)
  }

  /** A resend answering a repeated offset, which its echoes are not to repeat. */
  function Resent(cfg: Config, tx: Tx, next: nat, now: nat): Tx {
    StallRound(cfg, tx, now).(resendOffset := next, resendGuard := now + cfg.chunkAckTimeout)
  }

  // ---- time ----

  /** Go-back-N on silence: everything above the last acknowledgement goes again. */
  function GoBack(cfg: Config, tx: Tx, now: nat): Tx {
    if now < tx.chunkDeadline then tx else StallRound(cfg, tx, now)
  }

  /** The bundle is looked at again only while no session runs. */
  function Refresh(hub: Hub, reload: Option<Bundle>): Hub {
    if Busy(hub.phase) || reload.None? then hub else hub.(bundle := reload.value)
  }

  function Tick(cfg: Config, idle: Hub, reload: Option<Bundle>, now: nat, budget: nat): Out {
    var hub := Refresh(idle, reload);
    var o := Out(hub, [], budget);
    match hub.phase
    case Query =>
      if now < hub.nextStatus then o
      else if hub.statusTries >= cfg.statusTries then o.(hub := Fail(hub))
      else Emit(o.(hub := hub.(statusTries := hub.statusTries + 1, nextStatus := now + cfg.statusPeriod)), StatusRequest)
    case Erasing => if now >= hub.deadline then o.(hub := Fail(hub)) else o
    case Transfer =>
      if now >= hub.tx.chunkDeadline && hub.tx.stalledRounds >= cfg.maxRetries then o.(hub := Fail(hub))
      else Pump(cfg, o.(hub := hub.(tx := GoBack(cfg, hub.tx, now))), now)
    case Verifying => if now >= hub.deadline then o.(hub := Fail(hub)) else o
    case Rebooting =>
      if now >= hub.settleUntil then o.(hub := hub.(nextStatus := now, phase := WaitingBoard)) else o
    case WaitingBoard =>
      if now >= hub.deadline then o.(hub := Fail(hub))
      else if now >= hub.nextStatus then Emit(o.(hub := hub.(nextStatus := now + cfg.statusPeriod)), StatusRequest)
      else o
    case Testing =>
      if now >= hub.nextStatus then Emit(o.(hub := hub.(nextStatus := now + cfg.statusPeriod)), StatusRequest) else o
    case Reverting =>
      if now < hub.deadline then o
      else if hub.ackTries >= cfg.maxAckTries then o.(hub := Fail(hub))
      else Emit(o.(hub := hub.(ackTries := hub.ackTries + 1, deadline := now + cfg.ackTimeout)), OtaTypes.Revert)
    case _ => o
  }

  // ---- messages from the board ----

  function RunningSlotInfo(board: Board): SlotInfo {
    if board.runningSlot == 1 then board.slotB else board.slotA
  }

  function ReadStatus(status: Status): Board {
    var slot := status.runningSlot % 256;
    var board := Board(true, status.mcu, slot, status.slotA, status.slotB, status.updaterBusy, 0,
                       status.slotSize, status.maxChunkData);
    board.(buildEpoch := RunningSlotInfo(board).buildEpoch)
  }

  predicate RunsBundle(hub: Hub) {
    hub.board.seen && hub.board.buildEpoch == hub.bundle.buildEpoch
  }

  predicate RunsPrevious(hub: Hub) {
    hub.board.seen && hub.previousEpoch == Some(hub.board.buildEpoch)
  }

  predicate RunningOnTrial(board: Board) {
    board.runningSlot < SLOT_COUNT && RunningSlotInfo(board).state == OnTrial
  }

  function ChunkSize(maxChunkData: nat): (size: nat)
    ensures 0 < size <= CHUNK_DATA_SIZE
  {
    if maxChunkData == 0 then CHUNK_DATA_SIZE else Min(CHUNK_DATA_SIZE, maxChunkData)
  }

  function OpenTransfer(cfg: Config, o: Out, nonce: nat, now: nat): Out {
    var hub := o.hub;
    var board := hub.board;
    if board.mcu % 256 != hub.bundle.mcuId || board.updaterBusy || board.runningSlot >= SLOT_COUNT
    then o.(hub := Fail(hub))
    else
      var target := 1 - board.runningSlot;
      var image := FindImage(hub.bundle, target);
      if image.None? || (board.slotSize != 0 && image.value.size > board.slotSize)
      then o.(hub := Fail(hub.(targetSlot := target)))
      else
        var tx := NoProgress(hub.tx).(total := image.value.size, chunkData := ChunkSize(board.maxChunkData),
                                      stalledRounds := 0, resendOffset := 0, resendGuard := 0);
        Emit(o.(hub := hub.(targetSlot := target, previousEpoch := Some(board.buildEpoch), session := nonce, tx := tx,
                            deadline := now + cfg.beginTimeout, phase := Erasing)),
             Begin(nonce, image.value.size, image.value.crc32))
  }

  function JudgeReturn(cfg: Config, hub: Hub, now: nat): Hub {
    if RunsBundle(hub) then
      if RunningOnTrial(hub.board) then hub.(nextStatus := now + cfg.statusPeriod, phase := Testing)
      else hub.(verdict := UpdateConfirmed, phase := Confirmed)
    else if RunsPrevious(hub) then hub.(verdict := UpdateRolledBack, phase := RolledBack)
    else Fail(hub)
  }

  function JudgeTrial(hub: Hub): Hub {
    if RunsBundle(hub) then
      if RunningOnTrial(hub.board) then hub else hub.(verdict := UpdateConfirmed, phase := Confirmed)
    else if RunsPrevious(hub) then hub.(verdict := UpdateRolledBack, phase := RolledBack)
    else hub
  }

  function OnStatus(cfg: Config, o: Out, status: Status, nonce: nat, now: nat): Out {
    var hub := o.hub;
    if (hub.phase.Rebooting? || hub.phase.WaitingBoard?) && now < hub.settleUntil then o
    else
      var seen := hub.(board := ReadStatus(status));
      match hub.phase
      case Query => OpenTransfer(cfg, o.(hub := seen), nonce, now)
      case WaitingBoard => o.(hub := JudgeReturn(cfg, seen, now))
      case Testing => o.(hub := JudgeTrial(seen))
      case _ => o.(hub := seen)
  }

  function BeginTransfer(cfg: Config, hub: Hub, now: nat): Hub {
    hub.(tx := hub.tx.(sent := 0, acked := 0, retries := 0, nextChunk := now,
                       chunkDeadline := now + cfg.chunkAckTimeout), phase := Transfer)
  }

  function OnAck(cfg: Config, o: Out, session: nat, op: Op, result: Result, now: nat): Out {
    var hub := o.hub;
    match op
    case OpBegin =>
      if !hub.phase.Erasing? || session != hub.session then o
      else if result != Ok then o.(hub := Fail(hub))
      else
        Pump(cfg, o.(hub := BeginTransfer(cfg, hub, now)), now)
    case OpFinish =>
      if !hub.phase.Verifying? || session != hub.session then o
      else if result != Ok then o.(hub := Fail(hub))
      else
        Emit(o.(hub := hub.(settleUntil := now + cfg.rebootSettle, deadline := now + cfg.boardReturnTimeout,
                            phase := Rebooting)), Reboot)
    case OpRevert =>
      if !hub.phase.Reverting? then o
      else if result != Ok then o.(hub := Fail(hub))
      else
        var sent := Emit(o.(hub := hub.(verdict := Reverted, settleUntil := now + cfg.rebootSettle,
                                        deadline := now + cfg.boardReturnTimeout)), Reboot);
        sent.(hub := sent.hub.(phase := Idle))
    case _ => o
  }

  /** What a cumulative acknowledgement does to the sender. */
  datatype Effect = Ignored | Refused | Resumed(tx: Tx) | Completed(tx: Tx)

  function Digest(cfg: Config, hub: Hub, session: nat, next: nat, now: nat): Effect {
    var tx := hub.tx;
    if session != hub.session || hub.session == 0 || !(hub.phase.Transfer? || hub.phase.Verifying?) then Ignored
    else if next > tx.total then Refused
    else if next < tx.acked then
      // Mid transfer a late duplicate; in answer to the finish the board's offset is the authority.
      if !hub.phase.Verifying? then Ignored else Resumed(Rewind(cfg, tx.(acked := next), now))
    else if next == tx.acked && tx.acked != tx.sent then
      // The board dropped an out-of-order chunk: one resend answers the whole burst of echoes.
      if next == tx.resendOffset && now < tx.resendGuard then Ignored
      else if tx.stalledRounds >= cfg.maxRetries then Refused
      else Resumed(Resent(cfg, tx, next, now))
    else
      var forward := tx.(stalledRounds := 0, acked := next, sent := Max(tx.sent, next),
                         chunkDeadline := now + cfg.chunkAckTimeout);
      if next >= tx.total then Completed(forward)
      else if hub.phase.Verifying? then Resumed(forward.(nextChunk := now))
      else Resumed(forward)
  }

  function OnChunkAck(cfg: Config, o: Out, session: nat, next: nat, now: nat): Out {
    match Digest(cfg, o.hub, session, next, now)
    case Ignored => o
    case Refused => o.(hub := Fail(o.hub))
    case Resumed(tx) => Pump(cfg, o.(hub := o.hub.(tx := tx, phase := Transfer)), now)
    case Completed(tx) =>
      Emit(o.(hub := o.hub.(tx := tx, deadline := now + cfg.finishTimeout, phase := Verifying)), Finish(session))
  }

  function OnEnvelope(cfg: Config, hub: Hub, msg: Msg, nonce: nat, now: nat, budget: nat): Out {
    var o := Out(hub, [], budget);
    match msg
    case StatusReport(status) => OnStatus(cfg, o, status, nonce, now)
    case Ack(session, op, result) => OnAck(cfg, o, session, op, result, now)
    case ChunkAck(session, next) => OnChunkAck(cfg, o, session, next, now)
    case _ => o
  }
}
