/**
 * Hub and board over a link that loses, duplicates, reorders and delays. Every message ever sent
 * stays deliverable any number of times, in any order, at any time; one never delivered is lost.
 */
module OtaLink {
  import opened Bytes
  import opened OtaTypes
  import opened OtaSession
  import opened OtaWindow
  import opened OtaBoard

  /**
   * The two ends, the messages in each direction, and three records of the past: the image each
   * nonce was drawn for, the bytes the flash held when the board staged a nonce, and the slot the
   * board last opened each nonce into.
   */
  datatype Sys = Sys(hub: Hub, board: Updater, toBoard: set<Msg>, toHub: set<Msg>,
                     images: map<nat, seq<Byte>>, staged: map<nat, seq<Byte>>, placed: map<nat, nat>)

  datatype Event =
    | HubCall(call: Call, now: nat, budget: nat)
    | BoardHears(msg: Msg, env: Env)
    | BoardSweep(at: nat)
    | BoardReset(running: nat, meta: Meta)

  /** Only sent messages are delivered; a drawn nonce is fresh; a board restarts from a slot it has. */
  predicate Enabled(sys: Sys, ev: Event) {
    match ev
    case HubCall(call, _, _) =>
      Legal(call) && (call.CallMessage? ==> call.msg in sys.toHub && call.nonce !in sys.images)
    case BoardHears(msg, _) => msg in sys.toBoard
    case BoardSweep(_) => true
    case BoardReset(running, _) => running < SLOT_COUNT
  }

  function Messages(msgs: seq<Msg>): set<Msg> {
    set m | m in msgs
  }

  function Opened(images: map<nat, seq<Byte>>, before: Hub, after: Hub): map<nat, seq<Byte>> {
    if after.phase.Erasing? && !before.phase.Erasing? then images[after.session := Source(after)] else images
  }

  function StagedBy(staged: map<nat, seq<Byte>>, u: Updater, answer: Option<Msg>): map<nat, seq<Byte>>
    requires Ready(u)
  {
    if answer.Some? && answer.value == Ack(u.session, OpFinish, Ok) && u.active
    then staged[u.session := u.store.slots[u.targetSlot][..u.imageSize]]
    else staged
  }

  function PlacedBy(placed: map<nat, nat>, msg: Msg, reply: Reply): map<nat, nat> {
    if msg.Begin? && reply.answer == Some(Ack(msg.session, OpBegin, Ok))
    then placed[msg.session := reply.board.targetSlot]
    else placed
  }

  function Next(cfg: Config, sys: Sys, ev: Event): Sys
    requires Ready(sys.board) && Enabled(sys, ev)
  {
    match ev
    case HubCall(call, now, budget) =>
      var out := Step(cfg, sys.hub, call, now, budget);
      sys.(hub := out.hub, toBoard := sys.toBoard + Messages(out.sent), images := Opened(sys.images, sys.hub, out.hub))
    case BoardHears(msg, env) =>
      var reply := Handle(sys.board, msg, env);
      sys.(board := reply.board, toHub := sys.toHub + (if reply.answer.Some? then {reply.answer.value} else {}),
           staged := StagedBy(sys.staged, sys.board, reply.answer), placed := PlacedBy(sys.placed, msg, reply))
    case BoardSweep(now) => sys.(board := Sweep(sys.board, now))
    case BoardReset(running, meta) => sys.(board := Reset(sys.board, running, meta))
  }

  // ---- the invariant of every run ----

  /** What travels to the board: slices of the image of their nonce, and begins that announce its length. */
  predicate Truthful(images: map<nat, seq<Byte>>, msg: Msg) {
    match msg
    case Chunk(session, _, _) => session in images && IsSlice(session, images[session], msg)
    case Begin(session, imageSize, _) => session in images && imageSize == |images[session]|
    case _ => true
  }

  /** What travels to the hub: offsets within the image, and finishes only for what was staged whole. */
  predicate Credible(images: map<nat, seq<Byte>>, staged: map<nat, seq<Byte>>, msg: Msg) {
    match msg
    case ChunkAck(session, next) => session in images && next <= |images[session]|
    case Ack(session, op, result) =>
      op.OpFinish? && result.Ok? ==> session in images && session in staged && staged[session] == images[session]
    case _ => true
  }

  /** The open session programs its own image: the flash below the cursor is the image below the cursor. */
  predicate Faithful(images: map<nat, seq<Byte>>, u: Updater) {
    && ValidStore(u.store)
    && (u.active ==>
          && u.session in images
          && IMAGE_HEADER_SIZE <= u.imageSize == |images[u.session]| <= u.store.slotSize
          && u.nextOffset <= u.imageSize
          && u.targetSlot == 1 - u.store.runningSlot
          && u.store.writeSlot == u.targetSlot
          && u.store.writeCursor == u.nextOffset
          && u.store.slots[u.targetSlot][..u.nextOffset] == images[u.session][..u.nextOffset])
  }

  predicate PastErase(phase: Phase) {
    phase.Transfer? || phase.Verifying?
  }

  /** The begin the hub announced its session with. */
  function BeginOf(hub: Hub): Msg
    requires FindImage(hub.bundle, hub.targetSlot).Some?
  {
    Begin(hub.session, hub.tx.total, FindImage(hub.bundle, hub.targetSlot).value.crc32)
  }

  /**
   * The hub sends the image its nonce was drawn for, its begin is under way, and acknowledged
   * bytes were acknowledged by a message.
   */
  predicate Anchored(sys: Sys) {
    var hub := sys.hub;
    && Inv(hub)
    && (Sending(hub.phase) ==> FindImage(hub.bundle, hub.targetSlot).Some? && BeginOf(hub) in sys.toBoard)
    && (Sending(hub.phase) || hub.phase.Rebooting? ==>
          hub.session in sys.images && sys.images[hub.session] == Source(hub))
    && (PastErase(hub.phase) && hub.tx.acked > 0 ==> ChunkAck(hub.session, hub.tx.acked) in sys.toHub)
    && (hub.phase.Rebooting? ==> Ack(hub.session, OpFinish, Ok) in sys.toHub)
  }

  ghost predicate Sound(sys: Sys) {
    && Anchored(sys)
    && Faithful(sys.images, sys.board)
    && (forall m :: m in sys.toBoard ==> Truthful(sys.images, m))
    && (forall m :: m in sys.toHub ==> Credible(sys.images, sys.staged, m))
  }

  // ---- one step ----

  /** A hub call that is truthful about the images known after it and stays anchored. */
  predicate Honours(sys: Sys, out: Out) {
    var images := Opened(sys.images, sys.hub, out.hub);
    && (forall i :: 0 <= i < |out.sent| ==> Truthful(images, out.sent[i]))
    && (out.hub.phase.Erasing? && !sys.hub.phase.Erasing? ==> out.hub.session !in sys.images)
    && (Sending(out.hub.phase) ==>
          FindImage(out.hub.bundle, out.hub.targetSlot).Some? && BeginOf(out.hub) in sys.toBoard + Messages(out.sent))
    && (Sending(out.hub.phase) || out.hub.phase.Rebooting? ==>
          out.hub.session in images && images[out.hub.session] == Source(out.hub))
    && (PastErase(out.hub.phase) && out.hub.tx.acked > 0 ==> ChunkAck(out.hub.session, out.hub.tx.acked) in sys.toHub)
    && (out.hub.phase.Rebooting? ==> Ack(out.hub.session, OpFinish, Ok) in sys.toHub)
  }

  lemma HubHonours(cfg: Config, sys: Sys, call: Call, now: nat, budget: nat)
    requires Anchored(sys) && Enabled(sys, HubCall(call, now, budget))
    ensures Honours(sys, Step(cfg, sys.hub, call, now, budget))
  {
    var o := Out(sys.hub, [], budget);
    match call
    case CallTick(reload) => TickHonours(cfg, sys, reload, now, budget);
    case CallMessage(StatusReport(status), nonce) => StatusHonours(cfg, sys, status, nonce, now, budget);
    case CallMessage(Ack(session, op, result), _) => AckHonours(cfg, sys, session, op, result, now, budget);
    case CallMessage(ChunkAck(session, next), _) => ChunkAckHonours(cfg, sys, session, next, now, budget);
    case _ =>
  }

  /** Pumping within the session of the hub sends slices of its image and nothing else. */
  lemma PumpHonours(cfg: Config, sys: Sys, hub: Hub, now: nat, budget: nat)
    requires Anchored(sys) && Sending(sys.hub.phase) && SameSession(sys.hub, hub) && Pumpable(hub, now)
    requires hub.tx.acked > 0 ==> ChunkAck(hub.session, hub.tx.acked) in sys.toHub
    ensures Honours(sys, Pump(cfg, Out(hub, [], budget), now))
  {
    var out := Pump(cfg, Out(hub, [], budget), now);
    PumpSends(cfg, Out(hub, [], budget), now);
    assert out.sent[0..] == out.sent;
    forall i | 0 <= i < |out.sent| ensures Truthful(sys.images, out.sent[i]) {
      assert IsSlice(hub.session, Source(hub), out.sent[i]);
    }
  }

  lemma TickHonours(cfg: Config, sys: Sys, reload: Option<Bundle>, now: nat, budget: nat)
    requires Anchored(sys)
    ensures Honours(sys, Tick(cfg, sys.hub, reload, now, budget))
  {
    var hub := sys.hub;
    if hub.phase.Transfer? {
      PumpHonours(cfg, sys, hub.(tx := GoBack(cfg, hub.tx, now)), now, budget);
    } else {
      QuietTickHonours(cfg, sys, reload, now, budget);
    }
  }

  lemma QuietTickHonours(cfg: Config, sys: Sys, reload: Option<Bundle>, now: nat, budget: nat)
    requires Anchored(sys) && !sys.hub.phase.Transfer?
    ensures Honours(sys, Tick(cfg, sys.hub, reload, now, budget))
  {
  }

  lemma StatusHonours(cfg: Config, sys: Sys, status: Status, nonce: nat, now: nat, budget: nat)
    requires Anchored(sys) && nonce !in sys.images
    ensures Honours(sys, OnStatus(cfg, Out(sys.hub, [], budget), status, nonce, now))
  {
    if sys.hub.phase.Query? {
      OpeningHonours(cfg, sys, status, nonce, now, budget);
    } else {
      VerdictHonours(cfg, sys, status, nonce, now, budget);
    }
  }

  lemma OpeningHonours(cfg: Config, sys: Sys, status: Status, nonce: nat, now: nat, budget: nat)
    requires Anchored(sys) && nonce !in sys.images && sys.hub.phase.Query?
    ensures Honours(sys, OnStatus(cfg, Out(sys.hub, [], budget), status, nonce, now))
  {
  }

  lemma VerdictHonours(cfg: Config, sys: Sys, status: Status, nonce: nat, now: nat, budget: nat)
    requires Anchored(sys) && !sys.hub.phase.Query?
    ensures Honours(sys, OnStatus(cfg, Out(sys.hub, [], budget), status, nonce, now))
  {
  }

  lemma AckHonours(cfg: Config, sys: Sys, session: nat, op: Op, result: Result, now: nat, budget: nat)
    requires Anchored(sys) && Ack(session, op, result) in sys.toHub
    ensures Honours(sys, OnAck(cfg, Out(sys.hub, [], budget), session, op, result, now))
  {
    if op.OpBegin? {
      if sys.hub.phase.Erasing? {
        PumpHonours(cfg, sys, BeginTransfer(cfg, sys.hub, now), now, budget);
      }
    } else {
      LateAckHonours(cfg, sys, session, op, result, now, budget);
    }
  }

  lemma LateAckHonours(cfg: Config, sys: Sys, session: nat, op: Op, result: Result, now: nat, budget: nat)
    requires Anchored(sys) && !op.OpBegin? && Ack(session, op, result) in sys.toHub
    ensures Honours(sys, OnAck(cfg, Out(sys.hub, [], budget), session, op, result, now))
  {
  }

  lemma ChunkAckHonours(cfg: Config, sys: Sys, session: nat, next: nat, now: nat, budget: nat)
    requires Anchored(sys) && ChunkAck(session, next) in sys.toHub
    ensures Honours(sys, OnChunkAck(cfg, Out(sys.hub, [], budget), session, next, now))
  {
    DigestKeeps(cfg, sys.hub, session, next, now);
    match Digest(cfg, sys.hub, session, next, now)
    case Resumed(tx) => PumpHonours(cfg, sys, sys.hub.(tx := tx, phase := Transfer), now, budget);
    case _ =>
  }

  lemma HubKeepsSound(cfg: Config, sys: Sys, call: Call, now: nat, budget: nat)
    requires Sound(sys) && Enabled(sys, HubCall(call, now, budget))
    ensures Sound(Next(cfg, sys, HubCall(call, now, budget)))
  {
    StepKeepsInv(cfg, sys.hub, call, now, budget);
    HubHonours(cfg, sys, call, now, budget);
    KnownImagesGrow(sys, Step(cfg, sys.hub, call, now, budget));
  }

  /** A freshly drawn nonce changes nothing about the messages already under way. */
  lemma KnownImagesGrow(sys: Sys, out: Out)
    requires Sound(sys) && Honours(sys, out)
    ensures var images := Opened(sys.images, sys.hub, out.hub);
      && (forall m :: m in sys.toBoard + Messages(out.sent) ==> Truthful(images, m))
      && (forall m :: m in sys.toHub ==> Credible(images, sys.staged, m))
      && Faithful(images, sys.board)
  {
  }

  // ---- one message handled by the board ----

  /** The board after one message is faithful and its answer credible. */
  predicate Answers(sys: Sys, reply: Reply)
    requires Ready(sys.board)
  {
    && Faithful(sys.images, reply.board)
    && (reply.answer.Some? ==>
          Credible(sys.images, StagedBy(sys.staged, sys.board, reply.answer), reply.answer.value))
  }

  lemma BeginAnswers(sys: Sys, msg: Msg, env: Env)
    requires Sound(sys) && msg.Begin? && Truthful(sys.images, msg)
    ensures Answers(sys, Handle(sys.board, msg, env))
  {
  }

  /** The cursor rule: a chunk lands only at the cursor, so the prefix grows by the image's own bytes. */
  lemma ChunkAnswers(sys: Sys, msg: Msg, env: Env)
    requires Sound(sys) && msg.Chunk? && Truthful(sys.images, msg)
    ensures Answers(sys, Handle(sys.board, msg, env))
  {
    ChunkKeepsFaithful(sys.images, sys.board, msg, env);
  }

  lemma ChunkKeepsFaithful(images: map<nat, seq<Byte>>, u: Updater, msg: Msg, env: Env)
    requires Faithful(images, u) && msg.Chunk? && Truthful(images, msg)
    ensures var reply := Handle(u, msg, env);
      && Faithful(images, reply.board)
      && (reply.answer.Some? ==> reply.answer.value.ChunkAck? || reply.answer.value == Ack(u.session, OpChunk, StoreFailure))
      && (reply.answer.Some? && reply.answer.value.ChunkAck? ==>
            u.active && reply.answer.value.session == u.session && reply.answer.value.nextOffset <= |images[u.session]|)
  {
    if u.active && msg.session == u.session && msg.offset == u.nextOffset && msg.offset + |msg.data| <= u.imageSize {
      PrefixGrows(u.store.slots[u.targetSlot], images[u.session], msg.offset, msg.data);
    }
  }

  /** The next slice of an image, written behind a prefix of it. */
  lemma PrefixGrows(slot: seq<Byte>, image: seq<Byte>, offset: nat, data: seq<Byte>)
    requires offset + |data| <= |slot| && offset + |data| <= |image|
    requires slot[..offset] == image[..offset] && data == image[offset..offset + |data|]
    ensures Written(slot, offset, data)[..offset + |data|] == image[..offset + |data|]
  {
    assert Written(slot, offset, data)[..offset + |data|] == slot[..offset] + data;
    assert image[..offset + |data|] == image[..offset] + data;
  }

  lemma FinishAnswers(sys: Sys, msg: Msg, env: Env)
    requires Sound(sys) && msg.Finish?
    ensures Answers(sys, Handle(sys.board, msg, env))
  {
    var u := sys.board;
    if u.active && u.nextOffset >= u.imageSize {
      assert sys.images[u.session][..u.imageSize] == sys.images[u.session];
    }
  }

  lemma BoardKeepsSound(cfg: Config, sys: Sys, msg: Msg, env: Env)
    requires Sound(sys) && Enabled(sys, BoardHears(msg, env))
    ensures Sound(Next(cfg, sys, BoardHears(msg, env)))
  {
    assert Truthful(sys.images, msg);
    match msg {
      case Begin(_, _, _) => BeginAnswers(sys, msg, env);
      case Chunk(_, _, _) => ChunkAnswers(sys, msg, env);
      case Finish(_) => FinishAnswers(sys, msg, env);
      case _ => OthersAnswer(sys, msg, env);
    }
    StagingKeeps(sys, Handle(sys.board, msg, env));
  }

  lemma OthersAnswer(sys: Sys, msg: Msg, env: Env)
    requires Sound(sys) && !msg.Begin? && !msg.Chunk? && !msg.Finish?
    ensures Answers(sys, Handle(sys.board, msg, env))
  {
  }

  /** Staging a nonce again records the same bytes, so earlier answers stay credible. */
  lemma StagingKeeps(sys: Sys, reply: Reply)
    requires Sound(sys) && Answers(sys, reply)
    ensures var staged := StagedBy(sys.staged, sys.board, reply.answer);
      forall m :: m in sys.toHub ==> Credible(sys.images, staged, m)
  {
  }

  /** Every event keeps the system sound. */
  lemma NextKeepsSound(cfg: Config, sys: Sys, ev: Event)
    requires Sound(sys) && Enabled(sys, ev)
    ensures Sound(Next(cfg, sys, ev))
  {
    match ev
    case HubCall(call, now, budget) => HubKeepsSound(cfg, sys, call, now, budget);
    case BoardHears(msg, env) => BoardKeepsSound(cfg, sys, msg, env);
    case _ =>
  }
}
