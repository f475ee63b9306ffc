/**
 * What every call of the hub keeps: the sliding window, the image it reads from, and the content
 * of every chunk it hands to the link.
 */
module OtaWindow {
  import opened Bytes
  import opened OtaTypes
  import opened OtaSession

  /** One call of the session object: the operator, the clock or a message of the board. */
  datatype Call =
    | CallStart(loaded: Option<Bundle>)
    | CallAbort
    | CallRevert
    | CallTick(reload: Option<Bundle>)
    | CallMessage(msg: Msg, nonce: nat)

  function Step(cfg: Config, hub: Hub, call: Call, now: nat, budget: nat): Out {
    match call
    case CallStart(loaded) => Start(cfg, hub, loaded, now, budget)
    case CallAbort => Abort(hub, budget)
    case CallRevert => StartRevert(cfg, hub, now, budget)
    case CallTick(reload) => Tick(cfg, hub, reload, now, budget)
    case CallMessage(msg, nonce) => OnEnvelope(cfg, hub, msg, nonce, now, budget)
  }

  /** The loader only hands over consistent bundles and a drawn nonce is never zero. */
  predicate Legal(call: Call) {
    match call
    case CallStart(loaded) => loaded.Some? ==> Consistent(loaded.value) && |loaded.value.images| > 0
    case CallTick(reload) => reload.Some? ==> Consistent(reload.value)
    case CallMessage(_, nonce) => nonce != 0
    case _ => true
  }

  predicate Sending(phase: Phase) {
    phase.Erasing? || phase.Transfer? || phase.Verifying?
  }

  /** Acknowledged at most what was sent, sent at most the image, in flight under a window and a chunk. */
  predicate WithinWindow(tx: Tx) {
    && tx.acked <= tx.sent <= tx.total
    && 0 < tx.chunkData <= CHUNK_DATA_SIZE
    && tx.sent - tx.acked < CHUNK_ACK_WINDOW * tx.chunkData + tx.chunkData
  }

  /** A window emptied by resending is never left empty: nothing in flight means nothing stalled. */
  predicate Refilled(tx: Tx) {
    tx.acked == tx.sent ==> tx.stalledRounds == 0
  }

  /** A session in flight has a nonce and an image of the announced length for its target. */
  predicate Prepared(hub: Hub) {
    && hub.session != 0
    && 0 < hub.tx.chunkData <= CHUNK_DATA_SIZE
    && hub.targetSlot < SLOT_COUNT
    && 0 < hub.tx.total == |Source(hub)|
  }

  predicate Inv(hub: Hub) {
    && Consistent(hub.bundle)
    && hub.tx.acked <= hub.tx.sent <= hub.tx.total
    && (hub.phase.Query? ==> |hub.bundle.images| > 0)
    && (Sending(hub.phase) ==> Prepared(hub))
    && (hub.phase.Transfer? ==> WithinWindow(hub.tx) && hub.tx.acked < hub.tx.total && Refilled(hub.tx))
    && (hub.phase.Verifying? ==> hub.tx.acked == hub.tx.total && hub.tx.stalledRounds == 0)
  }

  /** A chunk of a session whose data is the slice of the image at its offset. */
  predicate IsSlice(session: nat, image: seq<Byte>, msg: Msg) {
    && msg.Chunk?
    && msg.session == session
    && msg.offset + |msg.data| <= |image|
    && msg.data == image[msg.offset..msg.offset + |msg.data|]
  }

  predicate AllSlices(session: nat, image: seq<Byte>, msgs: seq<Msg>) {
    forall i :: 0 <= i < |msgs| ==> IsSlice(session, image, msgs[i])
  }

  /** The loop moves only the send offset and the pacing, keeps the window, and sends slices of the image. */
  lemma {:induction false} PumpLoopSends(delay: nat, tx: Tx, session: nat, image: seq<Byte>, now: nat, budget: nat)
    requires WithinWindow(tx) && tx.total <= |image|
    ensures var b := PumpLoop(delay, tx, session, image, now, budget);
      && b.tx == tx.(sent := b.tx.sent, nextChunk := b.tx.nextChunk)
      && tx.sent <= b.tx.sent
      && WithinWindow(b.tx)
      && AllSlices(session, image, b.chunks)
      && (b.ok && MayPump(tx, now) ==> tx.sent < b.tx.sent)
    decreases tx.total - tx.sent
  {
    if MayPump(tx, now) && budget > 0 {
      var chunk := NextChunk(tx, session, image);
      PumpLoopSends(delay, tx.(sent := tx.sent + |chunk.data|, nextChunk := now + delay), session, image, now, budget - 1);
    }
  }

  /** Nonce, target, size and bundle of the session are the same in both. */
  predicate SameSession(a: Hub, b: Hub) {
    a.session == b.session && a.targetSlot == b.targetSlot && a.bundle == b.bundle && a.tx.total == b.tx.total
  }

  /** A hub about to pump: within its window, and refilled once the pump has run. */
  predicate Pumpable(hub: Hub, now: nat) {
    && Consistent(hub.bundle)
    && hub.phase.Transfer?
    && Prepared(hub)
    && WithinWindow(hub.tx)
    && hub.tx.acked < hub.tx.total
    && (Refilled(hub.tx) || hub.tx.nextChunk <= now)
  }

  lemma PumpSends(cfg: Config, o: Out, now: nat)
    requires Pumpable(o.hub, now)
    ensures var p := Pump(cfg, o, now);
      && Inv(p.hub)
      && (p.hub.phase.Transfer? || p.hub.phase.Failed?)
      && SameSession(o.hub, p.hub)
      && p.hub.tx.acked == o.hub.tx.acked
      && p.hub.tx.stalledRounds == o.hub.tx.stalledRounds
      && (p.hub == o.hub || p.hub.phase.Failed? || o.hub.tx.sent < p.hub.tx.sent)
      && o.sent <= p.sent
      && AllSlices(o.hub.session, Source(o.hub), p.sent[|o.sent|..])
  {
    PumpLoopSends(cfg.chunkDelay, o.hub.tx, o.hub.session, Source(o.hub), now, o.budget);
  }

  /** An acknowledgement resumes the sender at the offset it names, or completes it. */
  lemma DigestKeeps(cfg: Config, hub: Hub, session: nat, next: nat, now: nat)
    requires Inv(hub)
    ensures match Digest(cfg, hub, session, next, now)
      case Resumed(tx) =>
        && Pumpable(hub.(tx := tx, phase := Transfer), now)
        && tx.acked == next && tx.total == hub.tx.total
        && session == hub.session && (hub.phase.Transfer? || hub.phase.Verifying?)
      case Completed(tx) =>
        && tx.acked == tx.sent == tx.total == next == hub.tx.total && tx.stalledRounds == 0
        && tx.chunkData == hub.tx.chunkData
        && session == hub.session && (hub.phase.Transfer? || hub.phase.Verifying?)
      case _ => true
  {
  }

  /** Every call keeps the window invariant. */
  lemma StepKeepsInv(cfg: Config, hub: Hub, call: Call, now: nat, budget: nat)
    requires Inv(hub) && Legal(call)
    ensures Inv(Step(cfg, hub, call, now, budget).hub)
  {
    var o := Out(hub, [], budget);
    match call
    case CallTick(reload) => TickKeepsInv(cfg, hub, reload, now, budget);
    case CallMessage(StatusReport(status), nonce) => StatusKeepsInv(cfg, o, status, nonce, now);
    case CallMessage(Ack(session, op, result), _) => AckKeepsInv(cfg, o, session, op, result, now);
    case CallMessage(ChunkAck(session, next), _) => ChunkAckKeepsInv(cfg, o, session, next, now);
    case _ =>
  }

  lemma TickKeepsInv(cfg: Config, hub: Hub, reload: Option<Bundle>, now: nat, budget: nat)
    requires Inv(hub) && (reload.Some? && !Busy(hub.phase) ==> Consistent(reload.value))
    ensures Inv(Tick(cfg, hub, reload, now, budget).hub)
  {
    if hub.phase.Transfer? {
      PumpSends(cfg, Out(hub.(tx := GoBack(cfg, hub.tx, now)), [], budget), now);
    } else {
      QuietTickKeepsInv(cfg, hub, reload, now, budget);
    }
  }

  lemma QuietTickKeepsInv(cfg: Config, hub: Hub, reload: Option<Bundle>, now: nat, budget: nat)
    requires Inv(hub) && !hub.phase.Transfer? && (reload.Some? && !Busy(hub.phase) ==> Consistent(reload.value))
    ensures Inv(Tick(cfg, hub, reload, now, budget).hub)
  {
  }

  lemma StatusKeepsInv(cfg: Config, o: Out, status: Status, nonce: nat, now: nat)
    requires Inv(o.hub) && nonce != 0
    ensures Inv(OnStatus(cfg, o, status, nonce, now).hub)
  {
  }

  lemma AckKeepsInv(cfg: Config, o: Out, session: nat, op: Op, result: Result, now: nat)
    requires Inv(o.hub)
    ensures Inv(OnAck(cfg, o, session, op, result, now).hub)
  {
    if op.OpBegin? && o.hub.phase.Erasing? {
      PumpSends(cfg, o.(hub := BeginTransfer(cfg, o.hub, now)), now);
    }
  }

  lemma ChunkAckKeepsInv(cfg: Config, o: Out, session: nat, next: nat, now: nat)
    requires Inv(o.hub)
    ensures Inv(OnChunkAck(cfg, o, session, next, now).hub)
  {
    DigestKeeps(cfg, o.hub, session, next, now);
    match Digest(cfg, o.hub, session, next, now)
    case Resumed(tx) => PumpSends(cfg, o.(hub := o.hub.(tx := tx, phase := Transfer)), now);
    case _ =>
  }
}
