/**
 * Acknowledged bytes and the flash: what the board acknowledged to the hub's session is in the
 * slot the session was opened into, and exactly which events can undo that.
 */
module OtaFlash {
  import opened Bytes
  import opened OtaTypes
  import opened OtaSession
  import opened OtaWindow
  import opened OtaBoard
  import opened OtaLink

  // ---- where a session is kept ----

  /** An opened nonce has an image that fits the slot it was opened into. */
  predicate Roomy(sys: Sys, session: nat) {
    session in sys.placed ==>
      && session in sys.images && sys.placed[session] < SLOT_COUNT
      && IMAGE_HEADER_SIZE <= |sys.images[session]| <= sys.board.store.slotSize
  }

  ghost predicate Settled(sys: Sys) {
    && (sys.board.active ==> sys.board.session in sys.placed && sys.placed[sys.board.session] == sys.board.targetSlot)
    && (forall session: nat {:trigger Roomy(sys, session)} :: Roomy(sys, session))
    && (forall m :: m in sys.toHub && m.ChunkAck? ==> m.session in sys.placed)
  }

  lemma HubKeepsSettled(cfg: Config, sys: Sys, call: Call, now: nat, budget: nat)
    requires Sound(sys) && Settled(sys) && Enabled(sys, HubCall(call, now, budget))
    ensures Settled(Next(cfg, sys, HubCall(call, now, budget)))
  {
    var next := Next(cfg, sys, HubCall(call, now, budget));
    HubHonours(cfg, sys, call, now, budget);
    forall session: nat ensures Roomy(next, session) {
      assert Roomy(sys, session);
    }
  }

  /** A begin that gets as far as the flash. */
  predicate Erases(u: Updater, msg: Msg, env: Env) {
    msg.Begin? && Admits(u, msg.session, msg.imageSize, env) && env.metaRead && env.metaWrite
  }

  /** The bytes such a begin erases of the slot it aims at: all of them, or the blocks before a failure. */
  function Erased(u: Updater, env: Env): nat {
    Min(env.eraseBlocks * ERASE_BLOCK_SIZE, u.store.slotSize)
  }

  /** It erased the whole slot, so its session is open. */
  predicate Reopens(u: Updater, msg: Msg, env: Env) {
    Erases(u, msg, env) && Erased(u, env) == u.store.slotSize
  }

  /** What a begin does to the flash, and where it leaves its session. */
  lemma BeginStore(images: map<nat, seq<Byte>>, u: Updater, msg: Msg, env: Env, placed: map<nat, nat>)
    requires Faithful(images, u) && msg.Begin?
    ensures var reply := Handle(u, msg, env);
      var target := TargetSlot(u);
      && reply.board.store.slots ==
           (if Erases(u, msg, env)
            then u.store.slots[target := Cleared(u.store.slots[target], env.eraseBlocks * ERASE_BLOCK_SIZE)]
            else u.store.slots)
      && reply.board.store.slotSize == u.store.slotSize
      && PlacedBy(placed, msg, reply) == (if Reopens(u, msg, env) then placed[msg.session := target] else placed)
      && (Reopens(u, msg, env) ==>
            reply.board.active && reply.board.session == msg.session && reply.board.targetSlot == target && reply.board.nextOffset == 0)
      && (!Reopens(u, msg, env) && reply.board.active ==> reply.board == u && !Erases(u, msg, env))
      && reply.answer.Some? && !reply.answer.value.ChunkAck?
  {
  }

  /** No other message opens a session; an acknowledgement names the one that is open. */
  lemma OthersPlaceNothing(images: map<nat, seq<Byte>>, u: Updater, msg: Msg, env: Env)
    requires Faithful(images, u) && !msg.Begin?
    ensures var reply := Handle(u, msg, env);
      && reply.board.store.slotSize == u.store.slotSize
      && (reply.board.active ==>
            u.active && reply.board.session == u.session && reply.board.targetSlot == u.targetSlot && u.nextOffset <= reply.board.nextOffset)
      && (reply.answer.Some? && reply.answer.value.ChunkAck? ==> u.active && reply.answer.value.session == u.session)
  {
  }

  lemma BoardKeepsSettled(cfg: Config, sys: Sys, msg: Msg, env: Env)
    requires Sound(sys) && Settled(sys) && Enabled(sys, BoardHears(msg, env))
    ensures Settled(Next(cfg, sys, BoardHears(msg, env)))
  {
    var next := Next(cfg, sys, BoardHears(msg, env));
    assert Truthful(sys.images, msg);
    if msg.Begin? {
      BeginStore(sys.images, sys.board, msg, env, sys.placed);
    } else {
      OthersPlaceNothing(sys.images, sys.board, msg, env);
    }
    SettledAfter(sys, next, Handle(sys.board, msg, env));
  }

  lemma SettledAfter(sys: Sys, next: Sys, reply: Reply)
    requires Settled(sys) && next.images == sys.images && next.board == reply.board
    requires next.board.store.slotSize == sys.board.store.slotSize
    requires next.toHub == sys.toHub + (if reply.answer.Some? then {reply.answer.value} else {})
    requires next.board.active ==> next.board.session in next.placed && next.placed[next.board.session] == next.board.targetSlot
    requires sys.placed.Keys <= next.placed.Keys
    requires forall session :: session in next.placed ==>
      (session in sys.placed && next.placed[session] == sys.placed[session]) ||
      (session in sys.images && next.placed[session] < SLOT_COUNT &&
       IMAGE_HEADER_SIZE <= |sys.images[session]| <= sys.board.store.slotSize)
    requires reply.answer.Some? && reply.answer.value.ChunkAck? ==> reply.answer.value.session in sys.placed
    ensures Settled(next)
  {
    forall session: nat ensures Roomy(next, session) {
      assert Roomy(sys, session);
    }
  }

  lemma NextKeepsSettled(cfg: Config, sys: Sys, ev: Event)
    requires Sound(sys) && Settled(sys) && Enabled(sys, ev)
    ensures Settled(Next(cfg, sys, ev))
  {
    match ev
    case HubCall(call, now, budget) => HubKeepsSettled(cfg, sys, call, now, budget);
    case BoardHears(msg, env) => BoardKeepsSettled(cfg, sys, msg, env);
    case _ =>
      var next := Next(cfg, sys, ev);
      forall session: nat ensures Roomy(next, session) {
        assert Roomy(sys, session);
      }
  }

  // ---- acknowledged bytes ----

  /** An acknowledgement of the session the hub is sending is under way. */
  predicate Acknowledged(sys: Sys, k: nat) {
    Sending(sys.hub.phase) && ChunkAck(sys.hub.session, k) in sys.toHub
  }

  /** The board told the hub's session that it has the byte at this offset, heard yet or not. */
  ghost predicate AckedByte(sys: Sys, i: nat) {
    exists k: nat :: Acknowledged(sys, k) && i < k
  }

  /** The byte is the image's in the slot the hub's session was last opened into. */
  predicate HoldsByte(sys: Sys, i: nat) {
    var session := sys.hub.session;
    && session in sys.placed && session in sys.images
    && sys.placed[session] < |sys.board.store.slots|
    && var slot, image := sys.board.store.slots[sys.placed[session]], sys.images[session];
    && i < |slot| && i < |image| && slot[i] == image[i]
  }

  /** Acknowledged means in flash, whatever became of the board's session since. */
  ghost predicate Stored(sys: Sys) {
    forall i: nat {:trigger AckedByte(sys, i)} :: AckedByte(sys, i) ==> HoldsByte(sys, i)
  }

  // ---- what undoes it ----

  /** It aims at the slot of the hub's session, or opens that session anew in the other slot. */
  predicate Hits(sys: Sys, msg: Msg, env: Env) {
    && sys.hub.session in sys.placed
    && (|| sys.placed[sys.hub.session] == TargetSlot(sys.board)
        || (Reopens(sys.board, msg, env) && msg.session == sys.hub.session))
  }

  /** A chunk at the cursor of the session open on the board. */
  predicate AtCursor(u: Updater, msg: Msg) {
    && msg.Chunk? && u.active && msg.session == u.session && msg.offset == u.nextOffset
    && 0 < |msg.data| <= CHUNK_DATA_SIZE && msg.offset + |msg.data| <= u.imageSize
  }

  /** What a write puts down, when it puts anything down. */
  function Put(data: seq<Byte>, write: Write): seq<Byte> {
    if write.Broken? && |write.residue| == |data| then write.residue else if write.Programmed? then data else []
  }

  /** The event leaves another byte at the offset than the image of the hub's session has there. */
  predicate DamagesByte(sys: Sys, ev: Event, i: nat) {
    && ev.BoardHears? && sys.hub.session in sys.images && i < |sys.images[sys.hub.session]|
    && var byte := sys.images[sys.hub.session][i];
    || (Erases(sys.board, ev.msg, ev.env) && Hits(sys, ev.msg, ev.env) && i < Erased(sys.board, ev.env) && byte != ERASED)
    || (&& AtCursor(sys.board, ev.msg)
        && sys.hub.session in sys.placed && sys.placed[sys.hub.session] == sys.board.targetSlot
        && var put := Put(ev.msg.data, ev.env.write);
        && ev.msg.offset <= i < ev.msg.offset + |put| && put[i - ev.msg.offset] != byte)
  }

  ghost predicate Damages(sys: Sys, ev: Event) {
    exists i: nat :: AckedByte(sys, i) && DamagesByte(sys, ev, i)
  }

  // ---- one event ----

  /** A hub call puts no acknowledgement under way, and a nonce it draws has none. */
  lemma HubHearsOld(cfg: Config, sys: Sys, call: Call, now: nat, budget: nat, i: nat)
    requires Sound(sys) && Enabled(sys, HubCall(call, now, budget))
    requires AckedByte(Next(cfg, sys, HubCall(call, now, budget)), i)
    ensures AckedByte(sys, i) && Next(cfg, sys, HubCall(call, now, budget)).hub.session == sys.hub.session
  {
    var next := Next(cfg, sys, HubCall(call, now, budget));
    HubHonours(cfg, sys, call, now, budget);
    HubStaysInSession(cfg, sys.hub, call, now, budget);
    var k: nat :| Acknowledged(next, k) && i < k;
    assert Credible(sys.images, sys.staged, ChunkAck(next.hub.session, k));
    assert Acknowledged(sys, k);
  }

  lemma HubKeepsStored(cfg: Config, sys: Sys, call: Call, now: nat, budget: nat)
    requires Sound(sys) && Stored(sys) && Enabled(sys, HubCall(call, now, budget))
    ensures Stored(Next(cfg, sys, HubCall(call, now, budget)))
  {
    var next := Next(cfg, sys, HubCall(call, now, budget));
    HubHonours(cfg, sys, call, now, budget);
    forall i: nat | AckedByte(next, i) ensures HoldsByte(next, i) {
      HubHearsOld(cfg, sys, call, now, budget, i);
    }
  }

  /** A hub that is sending was sending the same session before the call, or has just drawn its nonce. */
  lemma HubStaysInSession(cfg: Config, hub: Hub, call: Call, now: nat, budget: nat)
    requires Inv(hub) && Legal(call)
    ensures var after := Step(cfg, hub, call, now, budget).hub;
      Sending(after.phase) ==> if Sending(hub.phase) then after.session == hub.session else after.phase.Erasing?
  {
    var o := Out(hub, [], budget);
    match call
    case CallTick(_) =>
      if hub.phase.Transfer? {
        PumpSends(cfg, Out(hub.(tx := GoBack(cfg, hub.tx, now)), [], budget), now);
      }
    case CallMessage(Ack(_, OpBegin, _), _) =>
      if hub.phase.Erasing? {
        PumpSends(cfg, Out(BeginTransfer(cfg, hub, now), [], budget), now);
      }
    case CallMessage(ChunkAck(session, next), _) =>
      DigestKeeps(cfg, hub, session, next, now);
      match Digest(cfg, hub, session, next, now) {
        case Resumed(tx) => PumpSends(cfg, Out(hub.(tx := tx, phase := Transfer), [], budget), now);
        case _ =>
      }
    case _ =>
  }

  /** A chunk acknowledgement the board has just sent names the cursor of the session it has open. */
  lemma FreshAck(cfg: Config, sys: Sys, msg: Msg, env: Env, session: nat, k: nat)
    requires Sound(sys) && Enabled(sys, BoardHears(msg, env))
    requires ChunkAck(session, k) in Next(cfg, sys, BoardHears(msg, env)).toHub
    ensures var u := Next(cfg, sys, BoardHears(msg, env)).board;
      ChunkAck(session, k) in sys.toHub || (u.active && session == u.session && k == u.nextOffset)
  {
  }

  lemma ClearedByte(slot: seq<Byte>, bytes: nat, i: nat)
    requires i < |slot|
    ensures Cleared(slot, bytes)[i] == if i < bytes then ERASED else slot[i]
  {
  }

  lemma WrittenByte(slot: seq<Byte>, offset: nat, data: seq<Byte>, i: nat)
    requires offset + |data| <= |slot| && i < |slot|
    ensures Written(slot, offset, data)[i] == if offset <= i < offset + |data| then data[i - offset] else slot[i]
  {
  }

  /** A begin leaves a stored byte alone, or erases it. */
  lemma BeginByte(cfg: Config, sys: Sys, msg: Msg, env: Env, i: nat)
    requires Sound(sys) && Settled(sys) && Enabled(sys, BoardHears(msg, env)) && msg.Begin? && HoldsByte(sys, i)
    ensures HoldsByte(Next(cfg, sys, BoardHears(msg, env)), i) <==> !DamagesByte(sys, BoardHears(msg, env), i)
  {
    assert Roomy(sys, sys.hub.session);
    BeginStore(sys.images, sys.board, msg, env, sys.placed);
    ClearedByte(sys.board.store.slots[TargetSlot(sys.board)], env.eraseBlocks * ERASE_BLOCK_SIZE, i);
  }

  /** What a chunk does to the flash. */
  lemma ChunkStore(images: map<nat, seq<Byte>>, u: Updater, msg: Msg, env: Env)
    requires Faithful(images, u) && msg.Chunk?
    ensures Handle(u, msg, env).board.store.slots ==
      if AtCursor(u, msg) && Put(msg.data, env.write) != []
      then u.store.slots[u.targetSlot := Written(u.store.slots[u.targetSlot], msg.offset, Put(msg.data, env.write))]
      else u.store.slots
  {
  }

  /** A chunk leaves a stored byte alone, or writes over it. */
  lemma ChunkByte(cfg: Config, sys: Sys, msg: Msg, env: Env, i: nat)
    requires Sound(sys) && Settled(sys) && Enabled(sys, BoardHears(msg, env)) && msg.Chunk? && HoldsByte(sys, i)
    ensures HoldsByte(Next(cfg, sys, BoardHears(msg, env)), i) <==> !DamagesByte(sys, BoardHears(msg, env), i)
  {
    var u := sys.board;
    ChunkStore(sys.images, u, msg, env);
    if AtCursor(u, msg) {
      WrittenByte(u.store.slots[u.targetSlot], msg.offset, Put(msg.data, env.write), i);
    }
  }

  /** What the board does to one stored byte. */
  lemma BoardByte(cfg: Config, sys: Sys, msg: Msg, env: Env, i: nat)
    requires Sound(sys) && Settled(sys) && Enabled(sys, BoardHears(msg, env)) && HoldsByte(sys, i)
    ensures HoldsByte(Next(cfg, sys, BoardHears(msg, env)), i) <==> !DamagesByte(sys, BoardHears(msg, env), i)
  {
    match msg
    case Begin(_, _, _) => BeginByte(cfg, sys, msg, env, i);
    case Chunk(_, _, _) => ChunkByte(cfg, sys, msg, env, i);
    case _ =>
  }

  /** A byte newly acknowledged is below the cursor, and there the flash is the image. */
  lemma NewByteHeld(cfg: Config, sys: Sys, msg: Msg, env: Env, i: nat)
    requires Sound(sys) && Settled(sys) && Enabled(sys, BoardHears(msg, env))
    requires AckedByte(Next(cfg, sys, BoardHears(msg, env)), i) && !AckedByte(sys, i)
    ensures HoldsByte(Next(cfg, sys, BoardHears(msg, env)), i)
  {
    var next := Next(cfg, sys, BoardHears(msg, env));
    var k: nat :| Acknowledged(next, k) && i < k;
    FreshAck(cfg, sys, msg, env, sys.hub.session, k);
    assert !Acknowledged(sys, k);
    BoardKeepsSound(cfg, sys, msg, env);
    BoardKeepsSettled(cfg, sys, msg, env);
    CursorHeld(next, i);
  }

  lemma CursorHeld(sys: Sys, i: nat)
    requires Sound(sys) && Settled(sys) && sys.board.active && sys.board.session == sys.hub.session && i < sys.board.nextOffset
    ensures HoldsByte(sys, i)
  {
    var u, image := sys.board, sys.images[sys.board.session];
    assert u.store.slots[u.targetSlot][..u.nextOffset][i] == image[..u.nextOffset][i];
  }

  /** What the hub's session was told is stored stays stored over an event exactly when the event damages none of it. */
  lemma StoredUnlessDamaged(cfg: Config, sys: Sys, ev: Event)
    requires Sound(sys) && Settled(sys) && Stored(sys) && Enabled(sys, ev)
    ensures Stored(Next(cfg, sys, ev)) <==> !Damages(sys, ev)
  {
    match ev
    case HubCall(call, now, budget) => HubKeepsStored(cfg, sys, call, now, budget);
    case BoardHears(msg, env) => BoardStored(cfg, sys, msg, env);
    case _ => IdleKeepsStored(cfg, sys, ev);
  }

  lemma IdleKeepsStored(cfg: Config, sys: Sys, ev: Event)
    requires Ready(sys.board) && Stored(sys) && Enabled(sys, ev) && (ev.BoardSweep? || ev.BoardReset?)
    ensures Stored(Next(cfg, sys, ev))
  {
    var next := Next(cfg, sys, ev);
    forall i: nat | AckedByte(next, i) ensures HoldsByte(next, i) {
      var k: nat :| Acknowledged(next, k) && i < k;
      assert Acknowledged(sys, k);
      assert AckedByte(sys, i);
    }
  }

  lemma BoardStored(cfg: Config, sys: Sys, msg: Msg, env: Env)
    requires Sound(sys) && Settled(sys) && Stored(sys) && Enabled(sys, BoardHears(msg, env))
    ensures Stored(Next(cfg, sys, BoardHears(msg, env))) <==> !Damages(sys, BoardHears(msg, env))
  {
    var ev := BoardHears(msg, env);
    var next := Next(cfg, sys, ev);
    if i: nat :| AckedByte(sys, i) && DamagesByte(sys, ev, i) {
      var k: nat :| Acknowledged(sys, k) && i < k;
      assert Acknowledged(next, k);
      assert AckedByte(next, i);
      BoardByte(cfg, sys, msg, env, i);
    } else {
      forall i: nat | AckedByte(next, i) ensures HoldsByte(next, i) {
        if AckedByte(sys, i) {
          BoardByte(cfg, sys, msg, env, i);
        } else {
          NewByteHeld(cfg, sys, msg, env, i);
        }
      }
    }
  }

  /** What the hub counts as acknowledged is in the flash, and in VERIFYING that is the whole image. */
  lemma AckedIsInFlash(sys: Sys)
    requires Sound(sys) && Settled(sys) && Stored(sys) && PastErase(sys.hub.phase) && sys.hub.tx.acked > 0
    ensures sys.hub.session in sys.placed && sys.placed[sys.hub.session] < |sys.board.store.slots|
    ensures var slot, image, acked := sys.board.store.slots[sys.placed[sys.hub.session]], Source(sys.hub), sys.hub.tx.acked;
      && acked <= |image| <= |slot|
      && slot[..acked] == image[..acked]
      && (sys.hub.phase.Verifying? ==> slot[..|image|] == image)
  {
    assert Acknowledged(sys, sys.hub.tx.acked);
    assert AckedByte(sys, 0) && Roomy(sys, sys.hub.session);
    forall i: nat | i < sys.hub.tx.acked ensures HoldsByte(sys, i) {
      assert AckedByte(sys, i);
    }
    var slot, image, acked := sys.board.store.slots[sys.placed[sys.hub.session]], Source(sys.hub), sys.hub.tx.acked;
    forall i | 0 <= i < acked ensures slot[i] == image[i] {
      assert HoldsByte(sys, i);
    }
  }

  // ---- only a begin starts it ----

  /**
   * Besides being stored, the acknowledged bytes are below the cursor of whatever session the
   * board has open on their slot, and that session is the hub's.
   */
  ghost predicate Intact(sys: Sys) {
    && Stored(sys)
    && (forall i: nat {:trigger AckedByte(sys, i)} :: AckedByte(sys, i) ==> Guarded(sys, i))
  }

  predicate Guarded(sys: Sys, i: nat) {
    var u := sys.board;
    u.active && sys.hub.session in sys.placed && sys.placed[sys.hub.session] == u.targetSlot ==>
      u.session == sys.hub.session && i < u.nextOffset
  }

  /** A begin that erases any of the slot that holds acknowledged bytes, or opens their session anew elsewhere. */
  ghost predicate Touches(sys: Sys, ev: Event) {
    && ev.BoardHears? && Erases(sys.board, ev.msg, ev.env) && Hits(sys, ev.msg, ev.env)
    && ev.env.eraseBlocks > 0 && AckedByte(sys, 0)
  }

  /** Damage is done by a begin that touches the bytes, unless one has been there before. */
  lemma DamageIsTouch(cfg: Config, sys: Sys, ev: Event)
    requires Sound(sys) && Settled(sys) && Intact(sys) && Enabled(sys, ev) && Damages(sys, ev)
    ensures Touches(sys, ev)
  {
    var i: nat :| AckedByte(sys, i) && DamagesByte(sys, ev, i);
    var k: nat :| Acknowledged(sys, k) && i < k;
    assert AckedByte(sys, 0);
    assert Guarded(sys, i);
  }

  /** Where the image does not begin with an erased byte, touching is damaging. */
  lemma TouchIsDamage(sys: Sys, ev: Event)
    requires Sound(sys) && Touches(sys, ev)
    requires sys.hub.session in sys.images && |sys.images[sys.hub.session]| > 0 && sys.images[sys.hub.session][0] != ERASED
    ensures Damages(sys, ev)
  {
    assert DamagesByte(sys, ev, 0);
  }

  /** As long as no begin touches them, the acknowledged bytes stay stored and guarded. */
  lemma IntactUnlessTouched(cfg: Config, sys: Sys, ev: Event)
    requires Sound(sys) && Settled(sys) && Intact(sys) && Enabled(sys, ev) && !Touches(sys, ev)
    ensures Intact(Next(cfg, sys, ev))
  {
    var next := Next(cfg, sys, ev);
    if Damages(sys, ev) {
      DamageIsTouch(cfg, sys, ev);
    }
    StoredUnlessDamaged(cfg, sys, ev);
    match ev
    case HubCall(call, now, budget) => HubKeepsGuarded(cfg, sys, call, now, budget);
    case BoardHears(msg, env) => BoardKeepsGuarded(cfg, sys, msg, env);
    case _ =>
      forall i: nat | AckedByte(next, i) ensures Guarded(next, i) {
        var k: nat :| Acknowledged(next, k) && i < k;
        assert Acknowledged(sys, k);
        assert AckedByte(sys, i);
      }
  }

  lemma HubKeepsGuarded(cfg: Config, sys: Sys, call: Call, now: nat, budget: nat)
    requires Sound(sys) && Intact(sys) && Enabled(sys, HubCall(call, now, budget))
    ensures var next := Next(cfg, sys, HubCall(call, now, budget));
      forall i: nat {:trigger AckedByte(next, i)} :: AckedByte(next, i) ==> Guarded(next, i)
  {
    var next := Next(cfg, sys, HubCall(call, now, budget));
    forall i: nat | AckedByte(next, i) ensures Guarded(next, i) {
      HubHearsOld(cfg, sys, call, now, budget, i);
    }
  }

  lemma BoardKeepsGuarded(cfg: Config, sys: Sys, msg: Msg, env: Env)
    requires Sound(sys) && Settled(sys) && Intact(sys) && Enabled(sys, BoardHears(msg, env)) && !Touches(sys, BoardHears(msg, env))
    ensures var next := Next(cfg, sys, BoardHears(msg, env));
      forall i: nat {:trigger AckedByte(next, i)} :: AckedByte(next, i) ==> Guarded(next, i)
  {
    var next := Next(cfg, sys, BoardHears(msg, env));
    forall i: nat | AckedByte(next, i) ensures Guarded(next, i) {
      var k: nat :| Acknowledged(next, k) && i < k;
      FreshAck(cfg, sys, msg, env, sys.hub.session, k);
      if Acknowledged(sys, k) {
        assert AckedByte(sys, i) && AckedByte(sys, 0);
        assert Guarded(sys, i);
        StaysGuarded(cfg, sys, msg, env, i);
      }
    }
  }

  lemma StaysGuarded(cfg: Config, sys: Sys, msg: Msg, env: Env, i: nat)
    requires Sound(sys) && Settled(sys) && Enabled(sys, BoardHears(msg, env)) && !Touches(sys, BoardHears(msg, env))
    requires AckedByte(sys, 0) && Guarded(sys, i)
    ensures Guarded(Next(cfg, sys, BoardHears(msg, env)), i)
  {
    if msg.Begin? {
      BeginStore(sys.images, sys.board, msg, env, sys.placed);
    } else {
      OthersPlaceNothing(sys.images, sys.board, msg, env);
    }
  }
}
