/**
 * The transfer does succeed: over a link that loses nothing and delivers in order and at once, to a
 * board that lets the update through, every image that fits is staged and the hub reboots the board.
 */
module OtaLossless {
  import opened Bytes
  import opened OtaTypes
  import opened OtaSession
  import opened OtaWindow
  import opened OtaBoard
  import opened OtaBoot
  import opened OtaLink
  import D = OtaDelivery

  // ---- the link ----

  /** The two ends, what is on its way down to the board and up to the hub, in order, and the time. */
  datatype Wire = Wire(sys: Sys, down: seq<Msg>, up: seq<Msg>, clock: nat)

  /**
   * What stays the same: timeouts, what the board is like before and after its reset, the slot it runs
   * before, the bundle, the nonce drawn, the checksum announced, the sends the link takes in one call.
   */
  datatype Terms = Terms(cfg: Config, env: Env, booted: Env, running: nat, bundle: Bundle, nonce: nat, crc: nat, budget: nat)

  /** Disarmed, powered, with a flash that erases and writes without a fault and an image check that passes. */
  predicate Willing(env: Env, store: Store) {
    && !env.armed && env.voltageOk && env.metaRead && env.metaWrite
    && env.eraseBlocks * ERASE_BLOCK_SIZE >= store.slotSize && env.write.Programmed? && env.imageValid
  }

  predicate Away(phase: Phase) {
    phase.Rebooting? || phase.WaitingBoard? || phase.Testing?
  }

  /** What the board is like now. */
  function EnvOf(k: Terms, w: Wire): Env {
    if Away(w.sys.hub.phase) then k.booted else k.env
  }

  /**
   * Answers are heard first, then messages, and a reboot resets the board into the slot its boot
   * policy picks; when nothing is on its way, time passes and the hub ticks.
   */
  function EventOf(k: Terms, w: Wire): Event {
    if |w.up| > 0 then
      HubCall(CallMessage(w.up[0], if w.sys.hub.phase.Query? then k.nonce else k.nonce + 1), w.clock, k.budget)
    else if |w.down| > 0 && w.down[0].Reboot? then
      var boot := DecideBoot(w.sys.board.meta);
      BoardReset(boot.slot, boot.meta)
    else if |w.down| > 0 then BoardHears(w.down[0], EnvOf(k, w))
    else HubCall(CallTick(None), w.clock + 1, k.budget)
  }

  predicate Able(k: Terms, w: Wire) {
    Ready(w.sys.board) && Enabled(w.sys, EventOf(k, w))
  }

  function Turn(k: Terms, w: Wire): Wire
    requires Able(k, w)
  {
    var ev := EventOf(k, w);
    var sys := Next(k.cfg, w.sys, ev);
    if |w.up| > 0 then Wire(sys, w.down + Step(k.cfg, w.sys.hub, ev.call, ev.now, ev.budget).sent, w.up[1..], w.clock)
    else if |w.down| > 0 && w.down[0].Reboot? then Wire(sys, w.down[1..], [], w.clock)
    else if |w.down| > 0 then
      var answer := Handle(w.sys.board, w.down[0], EnvOf(k, w)).answer;
      Wire(sys, w.down[1..], if answer.Some? then [answer.value] else [], w.clock)
    else Wire(sys, Step(k.cfg, w.sys.hub, ev.call, ev.now, ev.budget).sent, [], w.clock + 1)
  }

  /** The hub is told the finish succeeded, and the board staged its whole image. */
  predicate Done(k: Terms, w: Wire, image: seq<Byte>) {
    && w.sys.hub.phase.Rebooting? && w.sys.hub.session in w.sys.staged
    && w.sys.staged[w.sys.hub.session] == image
    && RebootDue(k, w)
  }

  /** The reboot is on its way to a board that has the target staged, and the hub gives it its time. */
  predicate RebootDue(k: Terms, w: Wire) {
    && w.down == [Reboot] && w.up == [] && Ready(w.sys.board)
    && w.sys.hub.bundle == k.bundle && k.nonce != 0 && k.nonce + 1 !in w.sys.images
    && w.sys.hub.settleUntil == w.clock + k.cfg.rebootSettle && w.sys.hub.deadline == w.clock + k.cfg.boardReturnTimeout
    && StagedFor(w.sys.board, 1 - w.sys.board.store.runningSlot) && w.sys.board.store.runningSlot == k.running
  }

  /** That slot is staged, and the running one is not. */
  predicate StagedFor(u: Updater, slot: int) {
    0 <= slot < SLOT_COUNT && StateOf(u.meta, slot) == Staged && StateOf(u.meta, 1 - slot) != Staged
  }

  ghost predicate Goes(k: Terms, trace: seq<Wire>, i: nat) {
    i + 1 < |trace| ==> Able(k, trace[i]) && trace[i + 1] == Turn(k, trace[i])
  }

  /** One turn after the other. */
  ghost predicate Linked(k: Terms, trace: seq<Wire>) {
    forall i: nat {:trigger Goes(k, trace, i)} :: Goes(k, trace, i)
  }

  /** Turns that end with the image staged. */
  ghost predicate Succeeds(k: Terms, trace: seq<Wire>, image: seq<Byte>) {
    |trace| > 0 && Linked(k, trace) && Done(k, trace[|trace| - 1], image)
  }

  lemma OneTurn(k: Terms, w: Wire)
    requires Able(k, w)
    ensures Linked(k, [w, Turn(k, w)])
  {
    forall i: nat ensures Goes(k, [w, Turn(k, w)], i) {
    }
  }

  /** One turn more in front. */
  lemma OneMore(k: Terms, w: Wire, next: Wire, rest: seq<Wire>, image: seq<Byte>) returns (trace: seq<Wire>)
    requires Linked(k, [w, next]) && Succeeds(k, rest, image) && rest[0] == next
    ensures Succeeds(k, trace, image) && trace[0] == w
  {
    trace := [w] + rest;
    forall i: nat ensures Goes(k, trace, i) {
      assert Goes(k, [w, next], 0) && (i > 0 ==> Goes(k, rest, i - 1));
    }
  }

  // ---- the image in pieces ----

  /** Where the m-th piece begins. */
  function At(total: nat, m: nat): nat {
    Min(CHUNK_DATA_SIZE * m, total)
  }

  function Piece(session: nat, image: seq<Byte>, m: nat): Msg {
    Chunk(session, At(|image|, m), image[At(|image|, m)..At(|image|, m + 1)])
  }

  /** The pieces from one to before another. */
  function Pieces(session: nat, image: seq<Byte>, from: nat, to: nat): (pieces: seq<Msg>)
    ensures |pieces| == Max(0, to - from)
    decreases if from < to then to - from else 0
  {
    if from >= to then [] else [Piece(session, image, from)] + Pieces(session, image, from + 1, to)
  }

  // ---- one burst ----

  /** A sender on the grid: acknowledged a pieces, sent i of them, no more than a window apart. */
  predicate OnGrid(tx: Tx, a: nat, i: nat) {
    && tx.chunkData == CHUNK_DATA_SIZE && a <= i <= a + CHUNK_ACK_WINDOW
    && tx.acked == CHUNK_DATA_SIZE * a < tx.total && tx.sent == At(tx.total, i)
    && (i > 0 ==> CHUNK_DATA_SIZE * (i - 1) < tx.total)
  }

  /** A burst sends the next pieces, on the grid, and stops only for the window, the image or the pacing. */
  lemma {:induction false} BurstOnGrid(delay: nat, tx: Tx, session: nat, image: seq<Byte>, now: nat, budget: nat, a: nat, i: nat)
    returns (to: nat)
    requires OnGrid(tx, a, i) && tx.total == |image| && budget >= a + CHUNK_ACK_WINDOW - i
    ensures var b := PumpLoop(delay, tx, session, image, now, budget);
      && b.ok && i <= to && !MayPump(b.tx, now) && OnGrid(b.tx, a, to) && b.chunks == Pieces(session, image, i, to)
      && b.tx == tx.(sent := b.tx.sent, nextChunk := b.tx.nextChunk)
      && (MayPump(tx, now) ==> i < to && b.tx.nextChunk == now + delay)
      && (!MayPump(tx, now) ==> b.tx == tx && to == i)
    decreases tx.total - tx.sent
  {
    to := i;
    if MayPump(tx, now) {
      var chunk := NextChunk(tx, session, image);
      assert chunk == Piece(session, image, i);
      var next := tx.(sent := tx.sent + |chunk.data|, nextChunk := now + delay);
      to := BurstOnGrid(delay, next, session, image, now, budget - 1, a, i + 1);
    }
  }

  // ---- in step ----

  /** What holds throughout the transfer of an image under its nonce. */
  ghost predicate Underway(k: Terms, w: Wire, image: seq<Byte>) {
    && Sound(w.sys) && k.budget >= CHUNK_ACK_WINDOW && k.cfg.chunkDelay < k.cfg.chunkAckTimeout
    && Willing(k.env, w.sys.board.store)
    && w.sys.hub.bundle == k.bundle && w.sys.board.store.runningSlot == k.running && StateOf(w.sys.board.meta, k.running) != Staged
    && w.sys.hub.session == k.nonce != 0 && k.nonce in w.sys.images && w.sys.images[k.nonce] == image && k.nonce + 1 !in w.sys.images
    && (forall m :: m in w.down ==> m in w.sys.toBoard) && (forall m :: m in w.up ==> m in w.sys.toHub)
  }

  /** The board has the session open, j pieces of the image programmed, and that many since it last answered. */
  predicate Filled(u: Updater, k: Terms, image: seq<Byte>, j: nat, since: nat) {
    && u.active && u.session == k.nonce && u.imageSize == |image| && u.imageCrc == k.crc
    && u.nextOffset == At(|image|, j) && u.chunksSinceAck == since
  }

  /** The next piece is due no later than the pacing says, and before the silence is taken for a loss. */
  predicate Paced(k: Terms, tx: Tx, clock: nat) {
    tx.nextChunk <= clock + k.cfg.chunkDelay && tx.nextChunk < tx.chunkDeadline && clock < tx.chunkDeadline
  }

  /** The hub sent i pieces and stopped for window, image or pacing, the board has j of them, the rest is on its way. */
  ghost predicate InStep(k: Terms, w: Wire, image: seq<Byte>, a: nat, j: nat, i: nat) {
    && Underway(k, w, image)
    && w.sys.hub.phase.Transfer? && w.sys.hub.tx.total == |image| && OnGrid(w.sys.hub.tx, a, i)
    && a <= j <= i && j - a < CHUNK_ACK_WINDOW && CHUNK_DATA_SIZE * j < |image|
    && Filled(w.sys.board, k, image, j, j - a)
    && w.down == Pieces(k.nonce, image, j, i) && w.up == []
    && Paced(k, w.sys.hub.tx, w.clock) && !MayPump(w.sys.hub.tx, w.clock)
  }

  /** The board has everything that was sent and says so. */
  ghost predicate AckDue(k: Terms, w: Wire, image: seq<Byte>, a: nat, i: nat) {
    && Underway(k, w, image)
    && w.sys.hub.phase.Transfer? && w.sys.hub.tx.total == |image| && OnGrid(w.sys.hub.tx, a, i) && a < i
    && Filled(w.sys.board, k, image, i, 0)
    && w.down == [] && w.up == [ChunkAck(k.nonce, At(|image|, i))]
    && Paced(k, w.sys.hub.tx, w.clock)
  }

  ghost predicate FinishDue(k: Terms, w: Wire, image: seq<Byte>) {
    && Underway(k, w, image) && w.sys.hub.phase.Verifying?
    && w.sys.board.active && w.sys.board.session == k.nonce && w.sys.board.imageSize == |image| == w.sys.board.nextOffset
    && w.sys.board.imageCrc == k.crc
    && w.down == [Finish(k.nonce)] && w.up == []
  }

  ghost predicate VerdictDue(k: Terms, w: Wire, image: seq<Byte>) {
    && Underway(k, w, image) && w.sys.hub.phase.Verifying?
    && w.down == [] && w.up == [Ack(k.nonce, OpFinish, Ok)]
    && StagedFor(w.sys.board, 1 - w.sys.board.store.runningSlot)
  }

  // ---- turns ----

  /** The same slots, the same one running, and that one still not staged. */
  predicate SameGround(before: Updater, after: Updater) {
    && after.store.slotSize == before.store.slotSize && after.store.runningSlot == before.store.runningSlot
    && StateOf(after.meta, before.store.runningSlot) != Staged
  }

  /** A turn of the board during the transfer. */
  lemma BoardTurn(k: Terms, w: Wire, image: seq<Byte>, reply: Reply) returns (next: Wire)
    requires Underway(k, w, image) && w.up == [] && |w.down| > 0 && !w.down[0].Reboot? && !Away(w.sys.hub.phase)
    requires Ready(w.sys.board) && reply == Handle(w.sys.board, w.down[0], k.env) && SameGround(w.sys.board, reply.board)
    ensures Linked(k, [w, next]) && Underway(k, next, image)
    ensures next.sys.hub == w.sys.hub && next.sys.board == reply.board && next.clock == w.clock
    ensures next.down == w.down[1..] && next.up == if reply.answer.Some? then [reply.answer.value] else []
  {
    NextKeepsSound(k.cfg, w.sys, EventOf(k, w));
    OneTurn(k, w);
    next := Turn(k, w);
  }

  /** A turn of the hub during the transfer. */
  lemma HubTurn(k: Terms, w: Wire, image: seq<Byte>, call: Call, now: nat, out: Out) returns (next: Wire)
    requires Underway(k, w, image) && EventOf(k, w) == HubCall(call, now, k.budget) && Enabled(w.sys, EventOf(k, w))
    requires out == Step(k.cfg, w.sys.hub, call, now, k.budget) && out.hub.session == k.nonce && !out.hub.phase.Erasing?
    requires out.hub.bundle == k.bundle
    ensures Linked(k, [w, next]) && Underway(k, next, image)
    ensures next.sys.hub == out.hub && next.sys.board == w.sys.board && next.clock == (if |w.up| > 0 then w.clock else now)
    ensures next.down == w.down + out.sent && next.up == if |w.up| > 0 then w.up[1..] else []
  {
    NextKeepsSound(k.cfg, w.sys, EventOf(k, w));
    OneTurn(k, w);
    next := Turn(k, w);
  }

  // ---- the board's turns ----

  /** The open session writes where the flash lets it. */
  predicate AtCursor(u: Updater) {
    && ValidStore(u.store) && Writable(u.store, u.targetSlot) && u.imageSize <= u.store.slotSize
    && u.store.writeSlot == u.targetSlot && u.store.writeCursor == u.nextOffset
  }

  /** A piece in order is programmed; the board answers when the window or the image is full. */
  lemma PieceHandled(u: Updater, k: Terms, image: seq<Byte>, j: nat, since: nat)
    requires AtCursor(u) && Filled(u, k, image, j, since)
    requires CHUNK_DATA_SIZE * j < |image| && since < CHUNK_ACK_WINDOW && k.env.write.Programmed?
    ensures var reply := Handle(u, Piece(k.nonce, image, j), k.env);
      var answers := since + 1 == CHUNK_ACK_WINDOW || At(|image|, j + 1) == |image|;
      && Filled(reply.board, k, image, j + 1, if answers then 0 else since + 1)
      && reply.board.store.slotSize == u.store.slotSize && reply.board.store.runningSlot == u.store.runningSlot
      && reply.board.meta == u.meta
      && reply.answer == if answers then Some(ChunkAck(k.nonce, At(|image|, j + 1))) else None
  {
  }

  lemma PiecesFrom(session: nat, image: seq<Byte>, j: nat, i: nat)
    requires j < i
    ensures var pieces := Pieces(session, image, j, i);
      pieces[0] == Piece(session, image, j) && pieces[1..] == Pieces(session, image, j + 1, i)
  {
  }

  /** The piece fills the window or the image. */
  predicate Fills(image: seq<Byte>, a: nat, j: nat) {
    j + 1 == a + CHUNK_ACK_WINDOW || At(|image|, j + 1) == |image|
  }

  lemma BoardTakes(k: Terms, w: Wire, image: seq<Byte>, a: nat, j: nat, i: nat) returns (next: Wire)
    requires InStep(k, w, image, a, j, i) && j < i && !Fills(image, a, j)
    ensures Linked(k, [w, next]) && InStep(k, next, image, a, j + 1, i)
    ensures At(|image|, j) < At(|image|, j + 1) <= |image|
  {
    PiecesFrom(k.nonce, image, j, i);
    PieceHandled(w.sys.board, k, image, j, j - a);
    next := BoardTurn(k, w, image, Handle(w.sys.board, Piece(k.nonce, image, j), k.env));
  }

  lemma BoardAnswers(k: Terms, w: Wire, image: seq<Byte>, a: nat, j: nat, i: nat) returns (next: Wire)
    requires InStep(k, w, image, a, j, i) && j < i && Fills(image, a, j)
    ensures Linked(k, [w, next]) && AckDue(k, next, image, a, i)
    ensures At(|image|, j) < At(|image|, i) <= |image|
  {
    PiecesFrom(k.nonce, image, j, i);
    PieceHandled(w.sys.board, k, image, j, j - a);
    next := BoardTurn(k, w, image, Handle(w.sys.board, Piece(k.nonce, image, j), k.env));
  }

  /** A whole image with its own checksum is staged. */
  lemma BoardStages(k: Terms, w: Wire, image: seq<Byte>) returns (next: Wire)
    requires FinishDue(k, w, image) && k.crc == Crc32.Checksum(image)
    ensures Linked(k, [w, next]) && VerdictDue(k, next, image)
  {
    FinishHandled(w.sys.board, w.sys.images, k.nonce, image, k.env);
    next := BoardTurn(k, w, image, Handle(w.sys.board, Finish(k.nonce), k.env));
  }

  lemma FinishHandled(u: Updater, images: map<nat, seq<Byte>>, session: nat, image: seq<Byte>, env: Env)
    requires Faithful(images, u) && session in images && images[session] == image && Willing(env, u.store)
    requires u.active && u.session == session && u.imageSize == |image| == u.nextOffset && u.imageCrc == Crc32.Checksum(image)
    ensures var reply := Handle(u, Finish(session), env);
      && reply.answer == Some(Ack(session, OpFinish, Ok)) && reply.board.store == u.store
      && StateOf(reply.board.meta, u.targetSlot) == Staged
      && StateOf(reply.board.meta, 1 - u.targetSlot) == StateOf(u.meta, 1 - u.targetSlot)
  {
    assert u.store.slots[u.targetSlot][..u.imageSize] == image;
  }

  // ---- the hub's turns ----

  lemma HubReboots(k: Terms, w: Wire, image: seq<Byte>) returns (next: Wire)
    requires VerdictDue(k, w, image)
    ensures Linked(k, [w, next]) && Done(k, next, image)
  {
    var call := CallMessage(Ack(k.nonce, OpFinish, Ok), k.nonce + 1);
    next := HubTurn(k, w, image, call, w.clock, Step(k.cfg, w.sys.hub, call, w.clock, k.budget));
    assert Credible(next.sys.images, next.sys.staged, Ack(k.nonce, OpFinish, Ok));
  }

  /** What the pump leaves of a sender on the grid: stopped, still on the grid, the pieces handed over. */
  lemma PumpOnGrid(k: Terms, o: Out, now: nat, a: nat, i: nat) returns (to: nat)
    requires o.hub.phase.Transfer? && OnGrid(o.hub.tx, a, i) && o.hub.tx.total == |Source(o.hub)| && o.budget >= CHUNK_ACK_WINDOW
    requires Paced(k, o.hub.tx, now) && k.cfg.chunkDelay < k.cfg.chunkAckTimeout
    ensures var p := Pump(k.cfg, o, now);
      && p.hub == o.hub.(tx := p.hub.tx) && p.hub.tx.total == o.hub.tx.total && i <= to && OnGrid(p.hub.tx, a, to)
      && p.sent == o.sent + Pieces(o.hub.session, Source(o.hub), i, to)
      && Paced(k, p.hub.tx, now) && !MayPump(p.hub.tx, now)
      && (to == i ==> p.hub == o.hub)
  {
    to := BurstOnGrid(k.cfg.chunkDelay, o.hub.tx, o.hub.session, Source(o.hub), now, o.budget, a, i);
  }

  /** The acknowledgement of everything sent resumes the sender there, or completes it. */
  lemma AckDigested(cfg: Config, hub: Hub, now: nat, a: nat, i: nat)
    requires hub.phase.Transfer? && hub.session != 0 && OnGrid(hub.tx, a, i) && a < i
    ensures var forward := hub.tx.(stalledRounds := 0, acked := hub.tx.sent, chunkDeadline := now + cfg.chunkAckTimeout);
      Digest(cfg, hub, hub.session, hub.tx.sent, now) == if hub.tx.sent == hub.tx.total then Completed(forward) else Resumed(forward)
  {
  }

  lemma HubCompletes(k: Terms, w: Wire, image: seq<Byte>, a: nat, i: nat) returns (next: Wire)
    requires AckDue(k, w, image, a, i) && At(|image|, i) == |image|
    ensures Linked(k, [w, next]) && FinishDue(k, next, image)
  {
    var call := CallMessage(ChunkAck(k.nonce, |image|), k.nonce + 1);
    AckDigested(k.cfg, w.sys.hub, w.clock, a, i);
    next := HubTurn(k, w, image, call, w.clock, Step(k.cfg, w.sys.hub, call, w.clock, k.budget));
  }

  /** The sender with everything sent acknowledged. */
  function Forward(k: Terms, hub: Hub, now: nat): Out {
    Out(hub.(tx := hub.tx.(stalledRounds := 0, acked := hub.tx.sent, chunkDeadline := now + k.cfg.chunkAckTimeout)), [], k.budget)
  }

  lemma AckResumes(k: Terms, hub: Hub, now: nat, a: nat, i: nat)
    requires hub.phase.Transfer? && hub.session != 0 && OnGrid(hub.tx, a, i) && a < i && hub.tx.sent < hub.tx.total
    ensures Step(k.cfg, hub, CallMessage(ChunkAck(hub.session, hub.tx.sent), k.nonce + 1), now, k.budget)
         == Pump(k.cfg, Forward(k, hub, now), now)
  {
    AckDigested(k.cfg, hub, now, a, i);
    assert Forward(k, hub, now).hub == hub.(tx := Forward(k, hub, now).hub.tx, phase := Transfer);
  }

  lemma HubResumes(k: Terms, w: Wire, image: seq<Byte>, a: nat, i: nat) returns (next: Wire, to: nat)
    requires AckDue(k, w, image, a, i) && At(|image|, i) < |image|
    ensures Linked(k, [w, next]) && InStep(k, next, image, i, i, to)
  {
    var hub, call := w.sys.hub, CallMessage(ChunkAck(k.nonce, At(|image|, i)), k.nonce + 1);
    var o := Forward(k, hub, w.clock);
    AckResumes(k, hub, w.clock, a, i);
    to := PumpOnGrid(k, o, w.clock, i, i);
    next := HubTurn(k, w, image, call, w.clock, Pump(k.cfg, o, w.clock));
  }

  /** With nothing on its way and nothing answered, the hub waits for its pacing. */
  lemma HubTicks(k: Terms, w: Wire, image: seq<Byte>, a: nat, i: nat) returns (next: Wire, to: nat)
    requires InStep(k, w, image, a, i, i)
    ensures Linked(k, [w, next]) && InStep(k, next, image, a, i, to)
    ensures w.clock < w.sys.hub.tx.nextChunk
    ensures to == i ==> next.sys.hub.tx.nextChunk == w.sys.hub.tx.nextChunk && next.clock == w.clock + 1
  {
    var o, now := Out(w.sys.hub, [], k.budget), w.clock + 1;
    to := PumpOnGrid(k, o, now, a, i);
    PatientTick(k, w.sys.hub, now);
    next := HubTurn(k, w, image, CallTick(None), now, Pump(k.cfg, o, now));
  }

  lemma PatientTick(k: Terms, hub: Hub, now: nat)
    requires hub.phase.Transfer? && now < hub.tx.chunkDeadline
    ensures Step(k.cfg, hub, CallTick(None), now, k.budget) == Pump(k.cfg, Out(hub, [], k.budget), now)
  {
  }

  // ---- the whole transfer ----

  lemma Finishes(k: Terms, w: Wire, image: seq<Byte>) returns (trace: seq<Wire>)
    requires FinishDue(k, w, image) && k.crc == Crc32.Checksum(image)
    ensures Succeeds(k, trace, image) && trace[0] == w
  {
    var staged := BoardStages(k, w, image);
    var rebooting := HubReboots(k, staged, image);
    trace := LastTurn(k, staged, rebooting, image);
    trace := OneMore(k, w, staged, trace, image);
  }

  lemma LastTurn(k: Terms, w: Wire, next: Wire, image: seq<Byte>) returns (trace: seq<Wire>)
    requires Linked(k, [w, next]) && Done(k, next, image)
    ensures Succeeds(k, trace, image) && trace[0] == w
  {
    trace := [w, next];
  }

  lemma {:induction false} Transfers(k: Terms, w: Wire, image: seq<Byte>, a: nat, j: nat, i: nat) returns (trace: seq<Wire>)
    requires InStep(k, w, image, a, j, i) && k.crc == Crc32.Checksum(image)
    ensures Succeeds(k, trace, image) && trace[0] == w
    decreases |image| - At(|image|, j), if j == i then 1 else 0, Max(0, w.sys.hub.tx.nextChunk - w.clock), 1
  {
    if j == i {
      trace := Waits(k, w, image, a, i);
    } else if Fills(image, a, j) {
      trace := TakesLast(k, w, image, a, j, i);
    } else {
      trace := Takes(k, w, image, a, j, i);
    }
  }

  lemma {:induction false} Waits(k: Terms, w: Wire, image: seq<Byte>, a: nat, i: nat) returns (trace: seq<Wire>)
    requires InStep(k, w, image, a, i, i) && k.crc == Crc32.Checksum(image)
    ensures Succeeds(k, trace, image) && trace[0] == w
    decreases |image| - At(|image|, i), 1, Max(0, w.sys.hub.tx.nextChunk - w.clock), 0
  {
    var next, to := HubTicks(k, w, image, a, i);
    trace := Transfers(k, next, image, a, i, to);
    trace := OneMore(k, w, next, trace, image);
  }

  lemma {:induction false} Takes(k: Terms, w: Wire, image: seq<Byte>, a: nat, j: nat, i: nat) returns (trace: seq<Wire>)
    requires InStep(k, w, image, a, j, i) && j < i && !Fills(image, a, j) && k.crc == Crc32.Checksum(image)
    ensures Succeeds(k, trace, image) && trace[0] == w
    decreases |image| - At(|image|, j), 0, 0, 0
  {
    var next := BoardTakes(k, w, image, a, j, i);
    trace := Transfers(k, next, image, a, j + 1, i);
    trace := OneMore(k, w, next, trace, image);
  }

  lemma {:induction false} TakesLast(k: Terms, w: Wire, image: seq<Byte>, a: nat, j: nat, i: nat) returns (trace: seq<Wire>)
    requires InStep(k, w, image, a, j, i) && j < i && Fills(image, a, j) && k.crc == Crc32.Checksum(image)
    ensures Succeeds(k, trace, image) && trace[0] == w
    decreases |image| - At(|image|, j), 0, 0, 0
  {
    var next := BoardAnswers(k, w, image, a, j, i);
    trace := Answered(k, next, image, a, i);
    trace := OneMore(k, w, next, trace, image);
  }

  lemma {:induction false} Answered(k: Terms, w: Wire, image: seq<Byte>, a: nat, i: nat) returns (trace: seq<Wire>)
    requires AckDue(k, w, image, a, i) && k.crc == Crc32.Checksum(image)
    ensures Succeeds(k, trace, image) && trace[0] == w
    decreases |image| - At(|image|, i), 2, 0, 0
  {
    if At(|image|, i) == |image| {
      var next := HubCompletes(k, w, image, a, i);
      trace := Finishes(k, next, image);
      trace := OneMore(k, w, next, trace, image);
    } else {
      var next, to := HubResumes(k, w, image, a, i);
      trace := Transfers(k, next, image, i, i, to);
      trace := OneMore(k, w, next, trace, image);
    }
  }

  // ---- the opening ----

  /** An idle hub, a board without a session, and a bundle whose image for the other slot fits and has its checksum. */
  ghost predicate Offered(k: Terms, sys: Sys, bundle: Bundle) {
    && Sound(sys) && !Busy(sys.hub.phase) && !sys.board.active
    && bundle == k.bundle && sys.board.store.runningSlot == k.running && StateOf(sys.board.meta, k.running) != Staged
    && Legal(CallStart(Some(bundle))) && k.nonce != 0 && k.nonce !in sys.images && k.nonce + 1 !in sys.images
    && Fitting(k, sys.board.store, bundle) && k.crc == Crc32.Checksum(ImageFor(sys.board.store, bundle))
  }

  predicate Fitting(k: Terms, store: Store, bundle: Bundle) {
    && k.budget >= CHUNK_ACK_WINDOW && k.cfg.chunkDelay < k.cfg.chunkAckTimeout
    && ValidStore(store) && Willing(k.env, store) && k.env.mcu % 256 == bundle.mcuId
    && Consistent(bundle) && |bundle.images| > 0
    && var image := FindImage(bundle, 1 - store.runningSlot).value;
    && IMAGE_HEADER_SIZE <= image.size <= store.slotSize && image.crc32 == k.crc
  }

  function ImageFor(store: Store, bundle: Bundle): seq<Byte>
    requires store.runningSlot < SLOT_COUNT && |bundle.images| > 0
  {
    FindImage(bundle, 1 - store.runningSlot).value.bytes
  }

  /** The operator starts the update. */
  function Started(k: Terms, sys: Sys, bundle: Bundle, clock: nat): Wire
    requires Ready(sys.board) && Legal(CallStart(Some(bundle)))
  {
    Wire(Next(k.cfg, sys, HubCall(CallStart(Some(bundle)), clock, k.budget)), [StatusRequest], [], clock)
  }

  /** The board is asked who it is, and its answer is awaited. */
  ghost predicate Querying(k: Terms, w: Wire, bundle: Bundle) {
    && Sound(w.sys) && w.sys.hub.phase.Query? && w.sys.hub.bundle == bundle == k.bundle && !w.sys.board.active
    && w.sys.board.store.runningSlot == k.running && StateOf(w.sys.board.meta, k.running) != Staged
    && k.nonce != 0 && k.nonce !in w.sys.images && k.nonce + 1 !in w.sys.images
    && Fitting(k, w.sys.board.store, bundle)
    && (forall m :: m in w.down ==> m in w.sys.toBoard) && (forall m :: m in w.up ==> m in w.sys.toHub)
  }

  predicate Inviting(k: Terms, store: Store, msg: Msg) {
    && msg.StatusReport?
    && msg.status.mcu == k.env.mcu && msg.status.runningSlot == store.runningSlot && !msg.status.updaterBusy
    && msg.status.slotSize == store.slotSize && msg.status.maxChunkData == CHUNK_DATA_SIZE
  }

  ghost predicate Opening(k: Terms, w: Wire, image: seq<Byte>) {
    && Underway(k, w, image) && w.sys.hub.phase.Erasing?
    && w.sys.hub.tx.total == |image| && w.sys.hub.tx.chunkData == CHUNK_DATA_SIZE
    && IMAGE_HEADER_SIZE <= |image| <= w.sys.board.store.slotSize
  }

  lemma Asks(k: Terms, sys: Sys, bundle: Bundle, clock: nat)
    requires Offered(k, sys, bundle)
    ensures Querying(k, Started(k, sys, bundle, clock), bundle)
    ensures Started(k, sys, bundle, clock).sys.board == sys.board
  {
    NextKeepsSound(k.cfg, sys, HubCall(CallStart(Some(bundle)), clock, k.budget));
  }

  lemma BoardIntroduces(k: Terms, w: Wire, bundle: Bundle) returns (next: Wire)
    requires Querying(k, w, bundle) && w.down == [StatusRequest] && w.up == []
    ensures Linked(k, [w, next]) && Querying(k, next, bundle)
    ensures next.down == [] && |next.up| == 1 && Inviting(k, next.sys.board.store, next.up[0])
    ensures next.sys.board.store == w.sys.board.store
  {
    NextKeepsSound(k.cfg, w.sys, EventOf(k, w));
    OneTurn(k, w);
    next := Turn(k, w);
  }

  lemma TransferOpens(k: Terms, hub: Hub, store: Store, now: nat)
    requires Fitting(k, store, hub.bundle)
    requires hub.board.mcu == k.env.mcu && hub.board.runningSlot == store.runningSlot && !hub.board.updaterBusy
    requires hub.board.slotSize == store.slotSize && hub.board.maxChunkData == CHUNK_DATA_SIZE
    ensures var out, image := OpenTransfer(k.cfg, Out(hub, [], k.budget), k.nonce, now), ImageFor(store, hub.bundle);
      && out.hub.phase.Erasing? && out.hub.session == k.nonce && out.hub.bundle == hub.bundle && Source(out.hub) == image
      && out.hub.tx.total == |image| && out.hub.tx.chunkData == CHUNK_DATA_SIZE
      && out.sent == [Begin(k.nonce, |image|, k.crc)]
  {
  }

  /** What the hub makes of the introduction: a session opened under the nonce, and its begin. */
  lemma InvitationAccepted(k: Terms, hub: Hub, store: Store, msg: Msg, now: nat)
    requires hub.phase.Query? && Fitting(k, store, hub.bundle) && Inviting(k, store, msg)
    ensures var out, image := OnEnvelope(k.cfg, hub, msg, k.nonce, now, k.budget), ImageFor(store, hub.bundle);
      && out.hub.phase.Erasing? && out.hub.session == k.nonce && out.hub.bundle == hub.bundle && Source(out.hub) == image
      && out.hub.tx.total == |image| && out.hub.tx.chunkData == CHUNK_DATA_SIZE
      && out.sent == [Begin(k.nonce, |image|, k.crc)]
  {
    TransferOpens(k, hub.(board := ReadStatus(msg.status)), store, now);
  }

  lemma HubOpens(k: Terms, w: Wire, bundle: Bundle) returns (next: Wire)
    requires Querying(k, w, bundle) && w.down == [] && |w.up| == 1 && Inviting(k, w.sys.board.store, w.up[0])
    ensures Linked(k, [w, next])
    ensures var image := ImageFor(w.sys.board.store, bundle);
      && Opening(k, next, image) && !next.sys.board.active
      && next.down == [Begin(k.nonce, |image|, k.crc)] && next.up == []
  {
    InvitationAccepted(k, w.sys.hub, w.sys.board.store, w.up[0], w.clock);
    NextKeepsSound(k.cfg, w.sys, EventOf(k, w));
    OneTurn(k, w);
    next := Turn(k, w);
  }

  lemma BoardOpens(k: Terms, w: Wire, image: seq<Byte>) returns (next: Wire)
    requires Opening(k, w, image) && !w.sys.board.active
    requires w.down == [Begin(k.nonce, |image|, k.crc)] && w.up == []
    ensures Linked(k, [w, next])
    ensures Opening(k, next, image) && Filled(next.sys.board, k, image, 0, 0)
    ensures next.down == [] && next.up == [Ack(k.nonce, OpBegin, Ok)]
  {
    next := BoardTurn(k, w, image, Handle(w.sys.board, w.down[0], k.env));
  }

  lemma BeginAccepted(k: Terms, hub: Hub, now: nat)
    requires hub.phase.Erasing? && hub.session == k.nonce
    ensures Step(k.cfg, hub, CallMessage(Ack(k.nonce, OpBegin, Ok), k.nonce + 1), now, k.budget)
         == Pump(k.cfg, Out(BeginTransfer(k.cfg, hub, now), [], k.budget), now)
  {
  }

  lemma HubBegins(k: Terms, w: Wire, image: seq<Byte>) returns (next: Wire, to: nat)
    requires Opening(k, w, image) && Filled(w.sys.board, k, image, 0, 0)
    requires w.down == [] && w.up == [Ack(k.nonce, OpBegin, Ok)]
    ensures Linked(k, [w, next]) && InStep(k, next, image, 0, 0, to)
  {
    var o := Out(BeginTransfer(k.cfg, w.sys.hub, w.clock), [], k.budget);
    to := PumpOnGrid(k, o, w.clock, 0, 0);
    BeginAccepted(k, w.sys.hub, w.clock);
    next := HubTurn(k, w, image, CallMessage(Ack(k.nonce, OpBegin, Ok), k.nonce + 1), w.clock, Pump(k.cfg, o, w.clock));
  }

  lemma Opens(k: Terms, w: Wire, image: seq<Byte>) returns (trace: seq<Wire>)
    requires k.crc == Crc32.Checksum(image)
    requires Opening(k, w, image) && !w.sys.board.active
    requires w.down == [Begin(k.nonce, |image|, k.crc)] && w.up == []
    ensures Succeeds(k, trace, image) && trace[0] == w
  {
    var begun := BoardOpens(k, w, image);
    var next, to := HubBegins(k, begun, image);
    trace := Transfers(k, next, image, 0, 0, to);
    trace := OneMore(k, begun, next, trace, image);
    trace := OneMore(k, w, begun, trace, image);
  }

  /**
   * From every sound state with an idle hub and no session on the board: a consistent bundle whose
   * image for the slot not running fits it and has its checksum, started over a link that loses
   * nothing towards a willing board, is staged byte for byte and the hub sends the reboot.
   */
  lemma TransferSucceeds(k: Terms, sys: Sys, bundle: Bundle, clock: nat) returns (trace: seq<Wire>)
    requires Offered(k, sys, bundle)
    ensures Succeeds(k, trace, ImageFor(sys.board.store, bundle)) && trace[0] == Started(k, sys, bundle, clock)
  {
    var image, started := ImageFor(sys.board.store, bundle), Started(k, sys, bundle, clock);
    Asks(k, sys, bundle, clock);
    var introduced := BoardIntroduces(k, started, bundle);
    var begun := HubOpens(k, introduced, bundle);
    trace := Opens(k, begun, image);
    trace := OneMore(k, introduced, begun, trace, image);
    trace := OneMore(k, started, introduced, trace, image);
  }

  // ---- as a run of hub, link and board ----

  function LastOf(run: D.Run): Sys
    requires |run.states| > 0
  {
    run.states[|run.states| - 1]
  }

  lemma Extended(cfg: Config, run: D.Run, ev: Event) returns (longer: D.Run)
    requires D.Valid(cfg, run) && Ready(LastOf(run).board) && Enabled(LastOf(run), ev)
    ensures D.Valid(cfg, longer) && run.events <= longer.events && LastOf(longer) == Next(cfg, LastOf(run), ev)
  {
    longer := D.Run(run.states + [Next(cfg, LastOf(run), ev)], run.events + [ev]);
    forall i | 0 <= i < |longer.events| ensures D.Steps(cfg, longer, i) {
      assert i < |run.events| ==> D.Steps(cfg, run, i);
    }
  }

  /** The turns of the link are events of a run. */
  lemma {:induction false} TurnsRun(k: Terms, run: D.Run, trace: seq<Wire>, n: nat) returns (longer: D.Run)
    requires D.Valid(k.cfg, run) && Linked(k, trace) && n < |trace| && LastOf(run) == trace[0].sys
    ensures D.Valid(k.cfg, longer) && run.events <= longer.events && LastOf(longer) == trace[n].sys
  {
    if n == 0 {
      longer := run;
    } else {
      var before := TurnsRun(k, run, trace, n - 1);
      assert Goes(k, trace, n - 1);
      longer := Extended(k.cfg, before, EventOf(k, trace[n - 1]));
    }
  }

  /**
   * So every run that leaves the hub idle and the board without a session goes on to a board that
   * staged the offered image and a hub that knows it.
   */
  lemma EveryOfferCanBeStaged(k: Terms, run: D.Run, bundle: Bundle, clock: nat) returns (longer: D.Run)
    requires D.Valid(k.cfg, run) && Offered(k, LastOf(run), bundle)
    ensures D.Valid(k.cfg, longer) && run.events <= longer.events
    ensures var last := LastOf(longer);
      && last.hub.phase.Rebooting? && last.hub.session in last.staged
      && last.staged[last.hub.session] == ImageFor(LastOf(run).board.store, bundle)
  {
    var trace := TransferSucceeds(k, LastOf(run), bundle, clock);
    var started := Extended(k.cfg, run, HubCall(CallStart(Some(bundle)), clock, k.budget));
    longer := TurnsRun(k, started, trace, |trace| - 1);
  }
}
