/**
 * The smaller exchanges of an update, from both ends at once: a revert, an abort, a status, and the
 * silence after which the board drops a session.
 */
module OtaAnswers {
  import opened Bytes
  import opened OtaTypes
  import opened OtaSession
  import opened OtaBoard
  import opened OtaBoot

  // ---- the revert ----

  /** The hub asks, the board answers, the hub hears the answer. */
  function Reverting(cfg: Config, hub: Hub, u: Updater, env: Env, now: nat, budget: nat): (Out, Reply)
    requires Ready(u)
  {
    var asked := StartRevert(cfg, hub, now, budget);
    var reply := Handle(u, OtaTypes.Revert, env);
    (OnEnvelope(cfg, asked.hub, reply.answer.value, 1, now, asked.budget), reply)
  }

  /**
   * A revert over a working link and store succeeds exactly if the slot not running holds an image
   * somebody vouched for: the hub then sends the reboot and goes idle, and unless an image waits for
   * its trial the next reset runs that slot. Otherwise the hub fails and the board is as it was.
   */
  lemma RevertTurnsBack(cfg: Config, hub: Hub, u: Updater, env: Env, now: nat, budget: nat)
    requires Ready(u) && !Busy(hub.phase) && budget >= 2 && env.metaRead && env.metaWrite
    ensures var (out, reply) := Reverting(cfg, hub, u, env, now, budget);
      var other := 1 - u.store.runningSlot;
      && (StateOf(u.meta, other) == Valid ==>
            && out.hub.phase.Idle? && out.hub.verdict == Reverted && out.sent == [Reboot]
            && reply.board.meta == u.meta.(activeSlot := other)
            && (FindSlot(u.meta, Staged).None? && FindSlot(u.meta, OnTrial).None? ==> DecideBoot(reply.board.meta).slot == other))
      && (StateOf(u.meta, other) != Valid ==>
            out.hub.phase.Failed? && out.hub.verdict == UpdateFailed && out.sent == [] && reply.board == u)
  {
  }

  // ---- the abort ----

  /** A board that hears the abort of its own session drops it and leaves flash and metadata alone; any other it refuses. */
  lemma AbortIsExact(hub: Hub, u: Updater, env: Env, budget: nat)
    requires Ready(u) && (hub.phase.Erasing? || hub.phase.Transfer? || hub.phase.Verifying?) && budget > 0
    ensures var out := Abort(hub, budget);
      && out.hub.phase.Idle? && out.hub.session == 0 && out.sent == [AbortSession(hub.session)]
      && var reply := Handle(u, out.sent[0], env);
      && reply.board.store == u.store && reply.board.meta == u.meta
      && (reply.board.active <==> u.active && u.session != hub.session)
      && (reply.answer == Some(Ack(hub.session, OpAbort, Ok)) <==> u.active && u.session == hub.session)
  {
  }

  // ---- the status ----

  /** What the hub reads off a board's answer: its running slot, its build, its room, and whether it is on trial. */
  lemma StatusIsRead(u: Updater, env: Env)
    requires Ready(u) && env.metaRead && env.metaWrite
    ensures var reply := Handle(u, StatusRequest, env);
      && reply.answer.Some? && reply.answer.value.StatusReport?
      && var board := ReadStatus(reply.answer.value.status);
      && board.runningSlot == u.store.runningSlot && board.slotSize == u.store.slotSize && board.mcu == env.mcu
      && board.updaterBusy == u.active && board.maxChunkData == CHUNK_DATA_SIZE
      && board.buildEpoch == (if u.store.runningSlot == 1 then env.epochB else env.epochA)
      && (RunningOnTrial(board) <==> StateOf(u.meta, u.store.runningSlot) == OnTrial && !env.selfConfirm)
      && (StateOf(reply.board.meta, u.store.runningSlot) == Valid <==>
            StateOf(u.meta, u.store.runningSlot) == Valid || (StateOf(u.meta, u.store.runningSlot) == OnTrial && env.selfConfirm))
      && reply.board == u.(meta := reply.board.meta)
      && reply.board.meta ==
         (if StateOf(u.meta, u.store.runningSlot) == OnTrial && env.selfConfirm then Vouched(u.meta, u.store.runningSlot) else u.meta)
  {
  }

  // ---- silence ----

  /**
   * A session is dropped by silence alone, three seconds of it: counted from the last packet, or,
   * where none came since the opening, from the first sweep after it.
   */
  lemma SilenceDropsSession(u: Updater, first: nat, later: nat)
    requires u.active && first <= later
    ensures Sweep(Sweep(u, first), later).active <==>
      if u.unswept then later - first < SESSION_TIMEOUT
      else later < u.lastPacket || later - u.lastPacket < SESSION_TIMEOUT
    ensures Sweep(u, first).store == u.store && Sweep(u, first).meta == u.meta
  {
  }

  /** Every chunk of the session, in order or not, starts the count anew. */
  lemma ChunkIsHeard(u: Updater, msg: Msg, env: Env, later: nat)
    requires Ready(u) && u.active && !u.unswept && msg.Chunk? && msg.session == u.session && env.write.Programmed?
    requires u.store.writeSlot == u.targetSlot != u.store.runningSlot && u.store.writeCursor == u.nextOffset && env.now <= later
    ensures var after := Handle(u, msg, env).board;
      after.active && (Sweep(after, later).active <==> later - env.now < SESSION_TIMEOUT)
  {
  }

  // ---- the finish and the begin ----

  /** The whole image is in the slot, sums up, passes the image check, and its state can be written. */
  predicate Stages(u: Updater, session: nat, env: Env)
    requires Ready(u)
  {
    && u.active && session == u.session && u.nextOffset >= u.imageSize
    && Crc32.Checksum(u.store.slots[u.targetSlot][..u.imageSize]) == u.imageCrc
    && env.imageValid && env.metaRead && env.metaWrite
  }

  /**
   * A finish is answered OK exactly if the image is whole, sums up and is valid; the board then has it
   * staged with its trial unspent and, where the other slot is trusted, runs it at the next reset. An
   * image that is wrong ends the session, and one that is not whole yet is asked for from the cursor.
   */
  lemma FinishIsExact(u: Updater, session: nat, env: Env)
    requires Ready(u)
    ensures var reply := Handle(u, Finish(session), env);
      && (reply.answer == Some(Ack(session, OpFinish, Ok)) <==> Stages(u, session, env))
      && (Stages(u, session, env) ==>
            && !reply.board.active && reply.board.store == u.store && !reply.board.meta.trialAttempted
            && StateOf(reply.board.meta, u.targetSlot) == Staged && reply.board.meta.activeSlot == u.meta.activeSlot
            && (StateOf(u.meta, 1 - u.targetSlot) != Staged ==> DecideBoot(reply.board.meta).slot == u.targetSlot))
      && (!Stages(u, session, env) ==> reply.board.meta == u.meta && reply.board.store == u.store)
      && (u.active && session == u.session && u.nextOffset < u.imageSize ==>
            reply.answer == Some(ChunkAck(session, u.nextOffset)) && reply.board.active)
      && (u.active && session == u.session && reply.board.active ==> reply.board.lastPacket == env.now)
      && (u.active && session == u.session && u.nextOffset >= u.imageSize ==>
            (reply.answer == Some(Ack(session, OpFinish, CrcMismatch)) <==>
               Crc32.Checksum(u.store.slots[u.targetSlot][..u.imageSize]) != u.imageCrc))
  {
  }

  /** What a begin is refused for, in this order, and that a refused one changes nothing. */
  lemma BeginIsExact(u: Updater, session: nat, imageSize: nat, imageCrc: nat, env: Env)
    requires Ready(u)
    ensures var reply := Handle(u, Begin(session, imageSize, imageCrc), env);
      && (reply.answer == Some(Ack(0, OpBegin, DeniedArmed)) <==> env.armed)
      && (reply.answer == Some(Ack(0, OpBegin, DeniedVoltage)) <==> !env.armed && !env.voltageOk)
      && (reply.answer == Some(Ack(0, OpBegin, DeniedBusy)) <==>
            !env.armed && env.voltageOk && u.active && session != u.session)
      && (reply.answer == Some(Ack(0, OpBegin, BadImage)) <==>
            && !env.armed && env.voltageOk && !(u.active && session != u.session)
            && !(IMAGE_HEADER_SIZE <= imageSize <= u.store.slotSize))
      && (!Admits(u, session, imageSize, env) ==> reply.board == u)
      && (reply.answer == Some(Ack(session, OpBegin, Ok)) <==>
            && Admits(u, session, imageSize, env) && env.metaRead && env.metaWrite
            && env.eraseBlocks * ERASE_BLOCK_SIZE >= u.store.slotSize)
      && (reply.answer == Some(Ack(session, OpBegin, Ok)) ==>
            && reply.board.active && reply.board.session == session && reply.board.nextOffset == 0
            && reply.board.imageSize == imageSize && reply.board.imageCrc == imageCrc
            && reply.board.targetSlot == 1 - u.store.runningSlot
            && StateOf(reply.board.meta, reply.board.targetSlot) == Empty && reply.board.lastPacket == env.now)
  {
  }
}
