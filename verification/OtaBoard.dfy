/**
 * The board side of the update: a two-slot flash that programs only at its write cursor, and the
 * updater that answers the session messages over it.
 */
module OtaBoard {
  import opened Bytes
  import Crc32
  import opened OtaTypes

  const ERASE_BLOCK_SIZE: nat := 65536
  const SESSION_TIMEOUT: nat := 3_000_000

  // ---- the flash ----

  datatype Store = Store(runningSlot: nat, slotSize: nat, slots: seq<seq<Byte>>, writeSlot: nat, writeCursor: nat)

  datatype StoreResult = StoreResult(store: Store, ok: bool)

  predicate ValidStore(store: Store) {
    && store.runningSlot < SLOT_COUNT
    && |store.slots| == SLOT_COUNT
    && |store.slots[0]| == |store.slots[1]| == store.slotSize
  }

  predicate Writable(store: Store, slot: nat) {
    slot < SLOT_COUNT && slot != store.runningSlot
  }

  /** A slot with its first bytes erased. */
  function Cleared(slot: seq<Byte>, bytes: nat): (cleared: seq<Byte>)
    ensures |cleared| == |slot|
  {
    var n := Min(bytes, |slot|);
    seq(n, _ => ERASED) + slot[n..]
  }

  /** Erases a slot; `blocks` is the number of blocks the driver erases before it fails. */
  function EraseSlot(store: Store, slot: nat, blocks: nat): (r: StoreResult)
    requires ValidStore(store)
    ensures ValidStore(r.store)
  {
    if !Writable(store, slot) then StoreResult(store, false)
    else
      var cleared := store.(slots := store.slots[slot := Cleared(store.slots[slot], blocks * ERASE_BLOCK_SIZE)]);
      if blocks * ERASE_BLOCK_SIZE < store.slotSize then StoreResult(cleared, false)
      else StoreResult(cleared.(writeSlot := slot, writeCursor := 0), true)
  }

  /** A slot with bytes written at an offset. */
  function Written(slot: seq<Byte>, offset: nat, data: seq<Byte>): (written: seq<Byte>)
    requires offset + |data| <= |slot|
    ensures |written| == |slot|
  {
    slot[..offset] + data + slot[offset + |data|..]
  }

  /** What the driver makes of one write: all of it, or a failure that leaves any bytes behind. */
  datatype Write = Programmed | Broken(residue: seq<Byte>)

  function Program(store: Store, slot: nat, offset: nat, data: seq<Byte>, write: Write): (r: StoreResult)
    requires ValidStore(store)
    ensures ValidStore(r.store)
  {
    if !Writable(store, slot) || offset + |data| > store.slotSize || slot != store.writeSlot || offset != store.writeCursor
    then StoreResult(store, false)
    else if |data| == 0 then StoreResult(store, true)
    else
      match write
      case Programmed =>
        StoreResult(store.(slots := store.slots[slot := Written(store.slots[slot], offset, data)],
                           writeCursor := offset + |data|), true)
      case Broken(residue) =>
        if |residue| != |data| then StoreResult(store, false)
        else StoreResult(store.(slots := store.slots[slot := Written(store.slots[slot], offset, residue)]), false)
  }

  // ---- the updater ----

  /** The persisted slot states and the slot the bootloader prefers. */
  datatype Meta = Meta(stateA: SlotState, stateB: SlotState, activeSlot: nat, trialAttempted: bool)

  function StateOf(meta: Meta, slot: nat): SlotState {
    if slot == 1 then meta.stateB else meta.stateA
  }

  function Mark(meta: Meta, slot: nat, state: SlotState): Meta {
    if slot == 1 then meta.(stateB := state) else meta.(stateA := state)
  }

  datatype Updater = Updater(store: Store, meta: Meta, active: bool, unswept: bool, session: nat, targetSlot: nat,
                             imageSize: nat, imageCrc: nat, nextOffset: nat, chunksSinceAck: nat, lastPacket: nat)

  /** What only the surroundings of the updater decide during one call. */
  datatype Env = Env(armed: bool, voltageOk: bool, now: nat, metaRead: bool, metaWrite: bool, eraseBlocks: nat,
                     write: Write, imageValid: bool, mcu: nat, epochA: nat, epochB: nat, selfConfirm: bool)

  datatype Reply = Reply(board: Updater, answer: Option<Msg>)

  function CloseSession(u: Updater): Updater {
    u.(active := false, imageSize := 0, imageCrc := 0, nextOffset := 0, chunksSinceAck := 0)
  }

  function TargetSlot(u: Updater): nat {
    if u.store.runningSlot == 1 then 0 else 1
  }

  /** The begin is accepted as far as everything the updater checks before touching the flash. */
  predicate Admits(u: Updater, session: nat, imageSize: nat, env: Env) {
    && !env.armed && env.voltageOk
    && !(u.active && session != u.session)
    && IMAGE_HEADER_SIZE <= imageSize <= u.store.slotSize
  }

  function HandleBegin(u: Updater, session: nat, imageSize: nat, imageCrc: nat, env: Env): Reply
    requires ValidStore(u.store)
  {
    if env.armed then Reply(u, Some(Ack(0, OpBegin, DeniedArmed)))
    else if !env.voltageOk then Reply(u, Some(Ack(0, OpBegin, DeniedVoltage)))
    else if u.active && session != u.session then Reply(u, Some(Ack(0, OpBegin, DeniedBusy)))
    else if imageSize < IMAGE_HEADER_SIZE || imageSize > u.store.slotSize then Reply(u, Some(Ack(0, OpBegin, BadImage)))
    else
      // A retry of the same begin restarts the same session from scratch.
      var closed := CloseSession(u);
      var target := TargetSlot(u);
      if !env.metaRead || !env.metaWrite then Reply(closed, Some(Ack(0, OpBegin, StoreFailure)))
      else
        var erased := EraseSlot(u.store, target, env.eraseBlocks);
        var marked := closed.(meta := Mark(u.meta, target, Empty), store := erased.store);
        if !erased.ok then Reply(marked, Some(Ack(0, OpBegin, StoreFailure)))
        else
          Reply(marked.(active := true, unswept := true, session := session, targetSlot := target, imageSize := imageSize,
                        imageCrc := imageCrc, nextOffset := 0, chunksSinceAck := 0, lastPacket := env.now),
                Some(Ack(session, OpBegin, Ok)))
  }

  function HandleChunk(u: Updater, session: nat, offset: nat, data: seq<Byte>, env: Env): Reply
    requires ValidStore(u.store)
  {
    if !u.active || session != u.session then Reply(u, None)
    else
      var heard := u.(lastPacket := env.now);
      var sane := 0 < |data| <= CHUNK_DATA_SIZE && offset + |data| <= u.imageSize;
      if !sane || offset != u.nextOffset then Reply(heard, Some(ChunkAck(u.session, u.nextOffset)))
      else
        var programmed := Program(u.store, u.targetSlot, offset, data, env.write);
        var stored := heard.(store := programmed.store);
        if !programmed.ok then Reply(CloseSession(stored), Some(Ack(u.session, OpChunk, StoreFailure)))
        else
          var next := stored.(nextOffset := u.nextOffset + |data|, chunksSinceAck := u.chunksSinceAck + 1);
          if next.nextOffset >= u.imageSize || next.chunksSinceAck >= CHUNK_ACK_WINDOW
          then Reply(next.(chunksSinceAck := 0), Some(ChunkAck(u.session, next.nextOffset)))
          else Reply(next, None)
  }

  function HandleFinish(u: Updater, session: nat, env: Env): Reply
    requires ValidStore(u.store) && (u.active ==> u.targetSlot < SLOT_COUNT && u.imageSize <= u.store.slotSize)
  {
    if !u.active || session != u.session then Reply(u, Some(Ack(session, OpFinish, BadSession)))
    else
      var heard := u.(lastPacket := env.now);
      if u.nextOffset < u.imageSize then Reply(heard, Some(ChunkAck(u.session, u.nextOffset)))
      else if Crc32.Checksum(u.store.slots[u.targetSlot][..u.imageSize]) != u.imageCrc
      then Reply(CloseSession(heard), Some(Ack(session, OpFinish, CrcMismatch)))
      else if !env.imageValid then Reply(CloseSession(heard), Some(Ack(session, OpFinish, BadImage)))
      else if !env.metaRead || !env.metaWrite then Reply(heard, Some(Ack(session, OpFinish, StoreFailure)))
      else
        Reply(CloseSession(heard.(meta := Mark(u.meta, u.targetSlot, Staged).(trialAttempted := false))),
              Some(Ack(session, OpFinish, Ok)))
  }

  function HandleAbort(u: Updater, session: nat): Reply {
    if !u.active || session != u.session then Reply(u, Some(Ack(session, OpAbort, BadSession)))
    else Reply(CloseSession(u), Some(Ack(session, OpAbort, Ok)))
  }

  function HandleRevert(u: Updater, env: Env): Reply {
    if !env.metaRead then Reply(u, Some(Ack(0, OpRevert, StoreFailure)))
    else if StateOf(u.meta, TargetSlot(u)) != Valid then Reply(u, Some(Ack(0, OpRevert, BadState)))
    else if !env.metaWrite then Reply(u, Some(Ack(0, OpRevert, StoreFailure)))
    else Reply(u.(meta := u.meta.(activeSlot := TargetSlot(u))), Some(Ack(0, OpRevert, Ok)))
  }

  /** A trial image confirms itself on the first request it serves. */
  function SelfConfirm(u: Updater, env: Env): Updater {
    if env.selfConfirm && env.metaRead && env.metaWrite && StateOf(u.meta, u.store.runningSlot) == OnTrial
    then u.(meta := Mark(u.meta, u.store.runningSlot, Valid).(activeSlot := u.store.runningSlot, trialAttempted := false))
    else u
  }

  function HandleStatus(u: Updater, env: Env): Reply {
    var confirmed := SelfConfirm(u, env);
    var meta := confirmed.meta;
    var a := SlotInfo(if env.metaRead then meta.stateA else Empty, env.epochA);
    var b := SlotInfo(if env.metaRead then meta.stateB else Empty, env.epochB);
    Reply(confirmed,
          Some(StatusReport(Status(env.mcu, u.store.runningSlot, a, b, u.active, u.store.slotSize, CHUNK_DATA_SIZE))))
  }

  predicate Ready(u: Updater) {
    ValidStore(u.store) && (u.active ==> u.targetSlot < SLOT_COUNT && u.imageSize <= u.store.slotSize)
  }

  /** One message in, at most one out. */
  function Handle(u: Updater, msg: Msg, env: Env): Reply
    requires Ready(u)
  {
    match msg
    case StatusRequest => HandleStatus(u, env)
    case Begin(session, imageSize, imageCrc) => HandleBegin(u, session, imageSize, imageCrc, env)
    case Chunk(session, offset, data) => HandleChunk(u, session, offset, data, env)
    case Finish(session) => HandleFinish(u, session, env)
    case AbortSession(session) => HandleAbort(u, session)
    case Revert => HandleRevert(u, env)
    case _ => Reply(u, None)
  }

  /** A session whose sender went silent is dropped; the first sweep after the open only re-arms. */
  function Sweep(u: Updater, now: nat): Updater {
    if !u.active then u
    else if u.unswept then u.(unswept := false, lastPacket := now)
    else if now >= u.lastPacket && now - u.lastPacket >= SESSION_TIMEOUT then CloseSession(u)
    else u
  }

  /** A reset: the session is gone, nothing is open to programming, some slot runs under some metadata. */
  function Reset(u: Updater, running: nat, meta: Meta): Updater
    requires running < SLOT_COUNT
  {
    CloseSession(u).(meta := meta, unswept := false, store := u.store.(runningSlot := running, writeSlot := SLOT_COUNT, writeCursor := 0))
  }

  /** Whatever arrives, the running slot keeps every byte and keeps running. */
  lemma RunningSlotUntouched(u: Updater, msg: Msg, env: Env)
    requires Ready(u)
    ensures var after := Handle(u, msg, env).board.store;
      && after.runningSlot == u.store.runningSlot
      && ValidStore(after)
      && after.slots[after.runningSlot] == u.store.slots[u.store.runningSlot]
  {
  }
}
