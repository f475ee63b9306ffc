/**
 * The session object of the hub: fields changed in place by each call, chunks handed to the link
 * in a loop. Every method is proved to leave exactly what the session functions say.
 */
module OtaConsumer {
  import opened Bytes
  import opened OtaTypes
  import opened OtaSession
  import opened OtaWindow

  /** A chunk loop under way: with what it sent, what is left to do adds up to the whole burst. */
  datatype Loop = Loop(tx: Tx, budget: nat, sent: seq<Msg>)

  ghost predicate Continues(delay: nat, session: nat, image: seq<Byte>, now: nat, start: Loop, here: Loop) {
    && WithinWindow(start.tx) && start.tx.total == |image|
    && WithinWindow(here.tx) && here.tx.total == |image|
    && var all := PumpLoop(delay, start.tx, session, image, now, start.budget);
    && var rest := PumpLoop(delay, here.tx, session, image, now, here.budget);
    && all == rest.(chunks := all.chunks)
    && start.sent + all.chunks == here.sent + rest.chunks
  }

  lemma OnePass(delay: nat, session: nat, image: seq<Byte>, now: nat, start: Loop, here: Loop)
    requires Continues(delay, session, image, now, start, here) && MayPump(here.tx, now) && here.budget > 0
    ensures var chunk := NextChunk(here.tx, session, image);
      var later := here.tx.(sent := here.tx.sent + |chunk.data|, nextChunk := now + delay);
      && here.tx.sent < later.sent
      && Continues(delay, session, image, now, start, Loop(later, here.budget - 1, here.sent + [chunk]))
  {
    var chunk := NextChunk(here.tx, session, image);
    var later := here.tx.(sent := here.tx.sent + |chunk.data|, nextChunk := now + delay);
    var rest := PumpLoop(delay, later, session, image, now, here.budget - 1);
    assert here.sent + ([chunk] + rest.chunks) == here.sent + [chunk] + rest.chunks;
  }

  /** A loop that sends no more, because it may not or because the link refuses, has sent the whole burst. */
  lemma LastPass(delay: nat, session: nat, image: seq<Byte>, now: nat, start: Loop, here: Loop)
    requires Continues(delay, session, image, now, start, here) && (MayPump(here.tx, now) ==> here.budget == 0)
    ensures var all := PumpLoop(delay, start.tx, session, image, now, start.budget);
      all.ok == !MayPump(here.tx, now) && all.tx == here.tx && all.budget == here.budget && start.sent + all.chunks == here.sent
  {
  }

  class OtaConsumer {
    const config: Config
    var phase: Phase
    var verdict: Verdict
    var bundle: Bundle
    var board: Board
    var tx: Tx
    var session: nat
    var targetSlot: nat
    var deadline: nat
    var nextStatus: nat
    var settleUntil: nat
    var statusTries: nat
    var ackTries: nat
    var previousEpoch: Option<nat>

    // The link as this object sees it during one call: what it took, and what it still takes.
    var sent: seq<Msg>
    var budget: nat

    function State(): Hub
      reads this
    {
      Hub(phase, verdict, bundle, board, tx, session, targetSlot, deadline, nextStatus, settleUntil,
          statusTries, ackTries, previousEpoch)
    }

    function View(): Out
      reads this
    {
      Out(State(), sent, budget)
    }

    ghost predicate Valid()
      reads this
    {
      Inv(State())
    }

    constructor (config: Config)
      ensures this.config == config && State() == FRESH_HUB && Valid()
    {
      this.config := config;
      phase, verdict, bundle, board, tx := Idle, NoVerdict, NO_BUNDLE, NO_BOARD, FRESH_TX;
      session, targetSlot, deadline, nextStatus, settleUntil := 0, SLOT_COUNT, 0, 0, 0;
      statusTries, ackTries, previousEpoch := 0, 0, None;
      sent, budget := [], 0;
    }

    // ---- shared steps ----

    method EndInFailure()
      modifies `phase, `verdict
      ensures phase == Failed && verdict == UpdateFailed
    {
      verdict := UpdateFailed;
      phase := Failed;
    }

    /** Sends one message through the link, failing the session when it is refused. */
    method Transmit(msg: Msg) returns (ok: bool)
      modifies `phase, `verdict, `sent, `budget
      ensures View() == Emit(old(View()), msg)
      ensures ok == (old(budget) > 0)
    {
      if budget == 0 {
        EndInFailure();
        return false;
      }
      sent := sent + [msg];
      budget := budget - 1;
      return true;
    }

    /** Hands over the chunk at the send offset and moves on by its length. */
    method SendChunk(image: seq<Byte>, now: nat, ghost start: Loop)
      requires Continues(config.chunkDelay, session, image, now, start, Loop(tx, budget, sent))
      requires MayPump(tx, now) && budget > 0
      modifies `sent, `budget, `tx
      ensures Continues(config.chunkDelay, session, image, now, start, Loop(tx, budget, sent))
      ensures old(tx.sent) < tx.sent <= tx.total == old(tx.total)
    {
      OnePass(config.chunkDelay, session, image, now, start, Loop(tx, budget, sent));
      var chunk := NextChunk(tx, session, image);
      sent, budget := sent + [chunk], budget - 1;
      tx := tx.(sent := tx.sent + |chunk.data|, nextChunk := now + config.chunkDelay);
    }

    /** The chunk loop: one chunk per pass while the window, the image and the pacing allow. */
    method SendChunks(image: seq<Byte>, now: nat) returns (ok: bool)
      requires WithinWindow(tx) && tx.total == |image|
      modifies `phase, `verdict, `sent, `budget, `tx
      ensures var burst := PumpLoop(config.chunkDelay, old(tx), session, image, now, old(budget));
        && ok == burst.ok && tx == burst.tx && sent == old(sent) + burst.chunks && budget == burst.budget
        && phase == (if ok then old(phase) else Failed)
        && verdict == (if ok then old(verdict) else UpdateFailed)
    {
      ghost var start := Loop(tx, budget, sent);
      while MayPump(tx, now)
        invariant phase == old(phase) && verdict == old(verdict)
        invariant Continues(config.chunkDelay, session, image, now, start, Loop(tx, budget, sent))
        decreases tx.total - tx.sent
      {
        if budget == 0 {
          LastPass(config.chunkDelay, session, image, now, start, Loop(tx, budget, sent));
          EndInFailure();
          return false;
        }
        SendChunk(image, now, start);
      }
      LastPass(config.chunkDelay, session, image, now, start, Loop(tx, budget, sent));
      ok := true;
    }

    /** Hands the link what it may take, then arms the chunk-ack timeout. */
    method PumpChunks(now: nat)
      requires phase.Transfer? ==> Pumpable(State(), now)
      modifies `phase, `verdict, `sent, `budget, `tx
      ensures View() == Pump(config, old(View()), now)
    {
      if !phase.Transfer? || tx.chunkData == 0 {
        return;
      }
      PumpLoopSends(config.chunkDelay, tx, session, Source(State()), now, budget);
      var before := |sent|;
      var ok := SendChunks(Source(State()), now);
      if ok && |sent| > before {
        tx := tx.(chunkDeadline := now + config.chunkAckTimeout);
      }
    }

    // ---- operator calls ----

    method Start(loaded: Option<Bundle>, now: nat, linkBudget: nat)
      requires Valid() && Legal(CallStart(loaded))
      modifies this
      ensures View() == OtaSession.Start(config, old(State()), loaded, now, linkBudget) && Valid()
    {
      StepKeepsInv(config, State(), CallStart(loaded), now, linkBudget);
      OpenSession(loaded, now, linkBudget);
    }

    method OpenSession(loaded: Option<Bundle>, now: nat, linkBudget: nat)
      modifies `phase, `verdict, `sent, `budget, `bundle, `tx, `targetSlot, `session, `previousEpoch, `ackTries, `statusTries, `nextStatus
      ensures View() == OtaSession.Start(config, old(State()), loaded, now, linkBudget)
    {
      sent, budget := [], linkBudget;
      if Busy(phase) {
        return;
      }
      if loaded.None? {
        bundle := NO_BUNDLE;
        EndInFailure();
        return;
      }
      Adopt(loaded.value);
      AskFirstStatus(now);
    }

    /** A bundle to send, and nothing known yet of the board it goes to. */
    method Adopt(loaded: Bundle)
      modifies `bundle, `tx, `targetSlot, `session, `verdict, `previousEpoch
      ensures bundle == loaded && tx == NoProgress(old(tx)).(chunkData := 0) && previousEpoch == None
      ensures targetSlot == SLOT_COUNT && session == 0 && verdict == NoVerdict
    {
      bundle := loaded;
      ForgetSession();
      tx := tx.(chunkData := 0);
      previousEpoch := None;
    }

    /** No progress, no target, no nonce, no verdict. */
    method ForgetSession()
      modifies `tx, `targetSlot, `session, `verdict
      ensures tx == NoProgress(old(tx)) && targetSlot == SLOT_COUNT && session == 0 && verdict == NoVerdict
    {
      tx := NoProgress(tx);
      targetSlot := SLOT_COUNT;
      session := 0;
      verdict := NoVerdict;
    }

    method AskFirstStatus(now: nat)
      modifies `phase, `verdict, `sent, `budget, `ackTries, `statusTries, `nextStatus
      ensures View() == Emit(old(View()).(hub := old(State()).(ackTries := 0, statusTries := 1,
                                                               nextStatus := now + config.statusPeriod, phase := Query)),
                             StatusRequest)
    {
      ackTries := 0;
      statusTries := 1;
      nextStatus := now + config.statusPeriod;
      phase := Query;
      var ok := Transmit(StatusRequest);
    }

    method Abort(linkBudget: nat)
      requires Valid()
      modifies this
      ensures View() == OtaSession.Abort(old(State()), linkBudget) && Valid()
    {
      StepKeepsInv(config, State(), CallAbort, 0, linkBudget);
      DropSession(linkBudget);
    }

    method DropSession(linkBudget: nat)
      modifies `phase, `verdict, `sent, `budget, `tx, `targetSlot, `session
      ensures View() == OtaSession.Abort(old(State()), linkBudget)
    {
      sent, budget := [], linkBudget;
      if !Busy(phase) {
        return;
      }
      if phase.Erasing? || phase.Transfer? || phase.Verifying? {
        if budget > 0 {
          sent, budget := [AbortSession(session)], budget - 1;
        }
      }
      ForgetSession();
      phase := Idle;
    }

    method StartRevert(now: nat, linkBudget: nat)
      requires Valid()
      modifies this
      ensures View() == OtaSession.StartRevert(config, old(State()), now, linkBudget) && Valid()
    {
      StepKeepsInv(config, State(), CallRevert, now, linkBudget);
      AskRevert(now, linkBudget);
    }

    method AskRevert(now: nat, linkBudget: nat)
      modifies `phase, `verdict, `sent, `budget, `ackTries, `deadline
      ensures View() == OtaSession.StartRevert(config, old(State()), now, linkBudget)
    {
      sent, budget := [], linkBudget;
      if Busy(phase) && !phase.Testing? {
        return;
      }
      ArmRevert(now);
      var ok := Transmit(OtaTypes.Revert);
    }

    method ArmRevert(now: nat)
      modifies `phase, `verdict, `ackTries, `deadline
      ensures State() == old(State()).(verdict := NoVerdict, ackTries := 1, deadline := now + config.ackTimeout, phase := Reverting)
    {
      verdict := NoVerdict;
      ackTries := 1;
      deadline := now + config.ackTimeout;
      phase := Reverting;
    }

    // ---- time ----

    /** Go-back-N on silence, then the pump. */
    method TickTransfer(now: nat)
      requires Valid() && phase.Transfer?
      modifies `phase, `verdict, `sent, `budget, `tx
      ensures View() == (if now >= old(tx).chunkDeadline && old(tx).stalledRounds >= config.maxRetries
                         then old(View()).(hub := Fail(old(State())))
                         else Pump(config, old(View()).(hub := old(State()).(tx := GoBack(config, old(tx), now))), now))
    {
      if now >= tx.chunkDeadline {
        if tx.stalledRounds >= config.maxRetries {
          EndInFailure();
          return;
        }
        tx := StallRound(config, tx, now);
      }
      PumpChunks(now);
    }

    /** Asks for a status when the poll is due. */
    method Poll(now: nat)
      modifies `phase, `verdict, `sent, `budget, `nextStatus
      ensures View() == (if now >= old(nextStatus)
                         then Emit(old(View()).(hub := old(State()).(nextStatus := now + config.statusPeriod)), StatusRequest)
                         else old(View()))
    {
      if now >= nextStatus {
        nextStatus := now + config.statusPeriod;
        var ok := Transmit(StatusRequest);
      }
    }

    /** Asks for the revert again until its tries are spent. */
    method TickReverting(now: nat)
      requires phase.Reverting?
      modifies `phase, `verdict, `sent, `budget, `ackTries, `deadline
      ensures View() ==
        (if now < old(deadline) then old(View())
         else if old(ackTries) >= config.maxAckTries then old(View()).(hub := Fail(old(State())))
         else Emit(old(View()).(hub := old(State()).(ackTries := old(ackTries) + 1, deadline := now + config.ackTimeout)),
                   OtaTypes.Revert))
    {
      if now >= deadline {
        if ackTries >= config.maxAckTries {
          EndInFailure();
          return;
        }
        ackTries := ackTries + 1;
        deadline := now + config.ackTimeout;
        var ok := Transmit(OtaTypes.Revert);
      }
    }

    /** Asks for the first status again until its tries are spent. */
    method TickQuery(now: nat)
      requires phase.Query?
      modifies `phase, `verdict, `sent, `budget, `statusTries, `nextStatus
      ensures View() ==
        (if now < old(nextStatus) then old(View())
         else if old(statusTries) >= config.statusTries then old(View()).(hub := Fail(old(State())))
         else Emit(old(View()).(hub := old(State()).(statusTries := old(statusTries) + 1,
                                                     nextStatus := now + config.statusPeriod)), StatusRequest))
    {
      if now >= nextStatus {
        if statusTries >= config.statusTries {
          EndInFailure();
          return;
        }
        statusTries := statusTries + 1;
        nextStatus := now + config.statusPeriod;
        var ok := Transmit(StatusRequest);
      }
    }

    method Tick(reload: Option<Bundle>, now: nat, linkBudget: nat)
      requires Valid() && Legal(CallTick(reload))
      modifies this
      ensures View() == OtaSession.Tick(config, old(State()), reload, now, linkBudget) && Valid()
    {
      TickKeepsInv(config, State(), reload, now, linkBudget);
      sent, budget := [], linkBudget;
      if phase.Transfer? {
        TickTransfer(now);
      } else {
        TickQuiet(reload, now);
      }
    }

    /** Every phase but the transfer: timeouts and status polls. */
    method TickQuiet(reload: Option<Bundle>, now: nat)
      requires !phase.Transfer? && sent == []
      modifies `phase, `verdict, `sent, `budget, `bundle, `nextStatus, `statusTries, `deadline, `ackTries
      ensures View() == OtaSession.Tick(config, old(State()), reload, now, old(budget))
    {
      if !Busy(phase) && reload.Some? {
        bundle := reload.value;
      }
      match phase
      case Query => TickQuery(now);
      case Erasing =>
        if now >= deadline {
          EndInFailure();
        }
      case Verifying =>
        if now >= deadline {
          EndInFailure();
        }
      case Rebooting =>
        if now >= settleUntil {
          nextStatus := now;
          phase := WaitingBoard;
        }
      case WaitingBoard =>
        if now >= deadline {
          EndInFailure();
          return;
        }
        Poll(now);
      case Testing => Poll(now);
      case Reverting => TickReverting(now);
      case _ =>
    }

    // ---- messages from the board ----

    method OpenTransfer(nonce: nat, now: nat)
      modifies `phase, `verdict, `sent, `budget, `targetSlot, `previousEpoch, `session, `tx, `deadline
      ensures View() == OtaSession.OpenTransfer(config, old(View()), nonce, now)
    {
      if board.mcu % 256 != bundle.mcuId || board.updaterBusy || board.runningSlot >= SLOT_COUNT {
        EndInFailure();
        return;
      }
      targetSlot := 1 - board.runningSlot;
      var image := FindImage(bundle, targetSlot);
      if image.None? {
        EndInFailure();
        return;
      }
      if board.slotSize != 0 && image.value.size > board.slotSize {
        EndInFailure();
        return;
      }
      previousEpoch := Some(board.buildEpoch);
      BeginSession(nonce, image.value, now);
    }

    method BeginSession(nonce: nat, image: Image, now: nat)
      modifies `phase, `verdict, `sent, `budget, `session, `tx, `deadline
      ensures View() == Emit(
        old(View()).(hub := old(State()).(session := nonce,
                                          tx := NoProgress(old(tx)).(total := image.size,
                                                                     chunkData := ChunkSize(board.maxChunkData),
                                                                     stalledRounds := 0, resendOffset := 0, resendGuard := 0),
                                          deadline := now + config.beginTimeout, phase := Erasing)),
        Begin(nonce, image.size, image.crc32))
    {
      session := nonce;
      tx := NoProgress(tx).(total := image.size, chunkData := ChunkSize(board.maxChunkData),
                            stalledRounds := 0, resendOffset := 0, resendGuard := 0);
      deadline := now + config.beginTimeout;
      phase := Erasing;
      var ok := Transmit(Begin(session, image.size, image.crc32));
    }

    method OnStatus(status: Status, nonce: nat, now: nat)
      modifies `phase, `verdict, `sent, `budget, `targetSlot, `previousEpoch, `session, `tx, `deadline, `board, `nextStatus
      ensures View() == OtaSession.OnStatus(config, old(View()), status, nonce, now)
    {
      if (phase.Rebooting? || phase.WaitingBoard?) && now < settleUntil {
        return;
      }
      board := ReadStatus(status);
      if phase.Query? {
        OpenTransfer(nonce, now);
      } else if phase.WaitingBoard? || phase.Testing? {
        if RunsBundle(State()) {
          if !RunningOnTrial(board) {
            verdict := UpdateConfirmed;
            phase := Confirmed;
          } else if phase.WaitingBoard? {
            nextStatus := now + config.statusPeriod;
            phase := Testing;
          }
        } else if RunsPrevious(State()) {
          verdict := UpdateRolledBack;
          phase := RolledBack;
        } else if phase.WaitingBoard? {
          EndInFailure();
        }
      }
    }

    /** The board erased its slot: the first window goes. */
    method OnBeginAck(result: Result, now: nat)
      requires Valid() && phase.Erasing?
      modifies `phase, `verdict, `sent, `budget, `tx
      ensures View() == OtaSession.OnAck(config, old(View()), session, OpBegin, result, now)
    {
      if result != Ok {
        EndInFailure();
        return;
      }
      tx := tx.(sent := 0, acked := 0, retries := 0, nextChunk := now, chunkDeadline := now + config.chunkAckTimeout);
      phase := Transfer;
      PumpChunks(now);
    }

    /** The board staged the image: it is told to reboot. */
    method OnFinishAck(result: Result, now: nat)
      requires phase.Verifying?
      modifies `phase, `verdict, `sent, `budget, `settleUntil, `deadline
      ensures View() == OtaSession.OnAck(config, old(View()), session, OpFinish, result, now)
    {
      if result != Ok {
        EndInFailure();
        return;
      }
      ArmReboot(now);
      phase := Rebooting;
      var ok := Transmit(Reboot);
    }

    /** The board is left alone until it settled, and has to be back by the deadline. */
    method ArmReboot(now: nat)
      modifies `settleUntil, `deadline
      ensures State() == old(State()).(settleUntil := now + config.rebootSettle, deadline := now + config.boardReturnTimeout)
    {
      settleUntil := now + config.rebootSettle;
      deadline := now + config.boardReturnTimeout;
    }

    method OnRevertAck(ackSession: nat, result: Result, now: nat)
      requires phase.Reverting?
      modifies `phase, `verdict, `sent, `budget, `settleUntil, `deadline
      ensures View() == OtaSession.OnAck(config, old(View()), ackSession, OpRevert, result, now)
    {
      if result != Ok {
        EndInFailure();
        return;
      }
      verdict := Reverted;
      ArmReboot(now);
      var ok := Transmit(Reboot);
      phase := Idle;
    }

    method OnAck(ackSession: nat, op: Op, result: Result, now: nat)
      requires Valid()
      modifies `phase, `verdict, `sent, `budget, `tx, `settleUntil, `deadline
      ensures View() == OtaSession.OnAck(config, old(View()), ackSession, op, result, now)
    {
      if op.OpBegin? && phase.Erasing? && ackSession == session {
        OnBeginAck(result, now);
      } else if op.OpFinish? && phase.Verifying? && ackSession == session {
        OnFinishAck(result, now);
      } else if op.OpRevert? && phase.Reverting? {
        OnRevertAck(ackSession, result, now);
      }
    }

    /** A repeated offset: resend from there once per burst of echoes. */
    method OnRepeat(next: nat, now: nat)
      requires Pumpable(State().(tx := Resent(config, tx, next, now)), now)
      modifies `phase, `verdict, `sent, `budget, `tx
      ensures View() ==
        (if next == old(tx).resendOffset && now < old(tx).resendGuard then old(View())
         else if old(tx).stalledRounds >= config.maxRetries then old(View()).(hub := Fail(old(State())))
         else Pump(config, old(View()).(hub := old(State()).(tx := Resent(config, old(tx), next, now))), now))
    {
      if next == tx.resendOffset && now < tx.resendGuard {
        return;
      }
      if tx.stalledRounds >= config.maxRetries {
        EndInFailure();
        return;
      }
      tx := tx.(retries := tx.retries + 1, stalledRounds := tx.stalledRounds + 1, resendOffset := next,
                resendGuard := now + config.chunkAckTimeout, sent := tx.acked, nextChunk := now,
                chunkDeadline := now + config.chunkAckTimeout);
      PumpChunks(now);
    }

    /** The board's own offset, behind what it acknowledged: in answer to the finish it is the authority. */
    method FallBack(next: nat, now: nat)
      requires phase.Verifying? && Pumpable(State().(tx := Rewind(config, tx.(acked := next), now), phase := Transfer), now)
      modifies `phase, `verdict, `sent, `budget, `tx
      ensures View() ==
        Pump(config, old(View()).(hub := old(State()).(tx := Rewind(config, old(tx).(acked := next), now), phase := Transfer)), now)
    {
      tx := tx.(acked := next, sent := next, nextChunk := now, chunkDeadline := now + config.chunkAckTimeout);
      phase := Transfer;
      PumpChunks(now);
    }

    /** Every byte is acknowledged: the board is asked to verify. */
    method AskFinish(now: nat)
      modifies `phase, `verdict, `sent, `budget, `deadline
      ensures View() == Emit(old(View()).(hub := old(State()).(deadline := now + config.finishTimeout, phase := Verifying)), Finish(session))
    {
      deadline := now + config.finishTimeout;
      phase := Verifying;
      var ok := Transmit(Finish(session));
    }

    /** An offset the board had not acknowledged before. */
    method Advance(next: nat, now: nat)
      requires Valid() && (phase.Transfer? || phase.Verifying?) && tx.acked <= next <= tx.total && (next == tx.acked ==> next == tx.sent)
      requires session != 0
      modifies `phase, `verdict, `sent, `budget, `tx, `deadline
      ensures View() == OtaSession.OnChunkAck(config, old(View()), session, next, now)
    {
      DigestKeeps(config, State(), session, next, now);
      tx := tx.(stalledRounds := 0, acked := next, sent := Max(tx.sent, next), chunkDeadline := now + config.chunkAckTimeout);
      if tx.acked >= tx.total {
        AskFinish(now);
        return;
      }
      Resume(tx.(nextChunk := if phase.Verifying? then now else tx.nextChunk), now);
    }

    /** The transfer goes on with the window as the board left it. */
    method Resume(window: Tx, now: nat)
      requires Pumpable(State().(tx := window, phase := Transfer), now)
      modifies `phase, `verdict, `sent, `budget, `tx
      ensures View() == Pump(config, old(View()).(hub := old(State()).(tx := window, phase := Transfer)), now)
    {
      tx := window;
      phase := Transfer;
      PumpChunks(now);
    }

    method OnChunkAck(ackSession: nat, next: nat, now: nat)
      requires Valid()
      modifies `phase, `verdict, `sent, `budget, `tx, `deadline
      ensures View() == OtaSession.OnChunkAck(config, old(View()), ackSession, next, now)
    {
      DigestKeeps(config, State(), ackSession, next, now);
      if ackSession != session || session == 0 || (!phase.Transfer? && !phase.Verifying?) {
        return;
      }
      if next > tx.total {
        EndInFailure();
      } else if next < tx.acked {
        if phase.Verifying? {
          FallBack(next, now);
        }
      } else if next == tx.acked && tx.acked != tx.sent {
        OnRepeat(next, now);
      } else {
        Advance(next, now);
      }
    }

    method OnEnvelope(msg: Msg, nonce: nat, now: nat, linkBudget: nat)
      requires Valid() && Legal(CallMessage(msg, nonce))
      modifies this
      ensures View() == OtaSession.OnEnvelope(config, old(State()), msg, nonce, now, linkBudget) && Valid()
    {
      StepKeepsInv(config, State(), CallMessage(msg, nonce), now, linkBudget);
      sent, budget := [], linkBudget;
      match msg
      case StatusReport(status) => OnStatus(status, nonce, now);
      case Ack(ackSession, op, result) => OnAck(ackSession, op, result, now);
      case ChunkAck(ackSession, next) => OnChunkAck(ackSession, next, now);
      case _ =>
    }
  }
}
