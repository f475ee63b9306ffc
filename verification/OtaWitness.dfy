/**
 * Acknowledged bytes can be lost: every begin that reaches the slot that holds them loses them, and
 * a run of nine events leads from power on to a state where the link can deliver one.
 */
module OtaWitness {
  import opened Bytes
  import opened OtaTypes
  import opened OtaSession
  import opened OtaWindow
  import opened OtaBoard
  import opened OtaLink
  import opened OtaFlash
  import opened OtaDelivery

  /** A board that lets an update through, erases that many blocks and writes without a fault. */
  function Willing(blocks: nat): Env {
    Env(false, true, 0, true, true, blocks, Programmed, true, 3, 0, 0, true)
  }

  /** A begin under way that the board would admit now, aimed at the slot of the hub's session. */
  predicate Poised(sys: Sys, msg: Msg) {
    && msg in sys.toBoard && msg.Begin?
    && (sys.board.active ==> msg.session == sys.board.session)
    && IMAGE_HEADER_SIZE <= msg.imageSize <= sys.board.store.slotSize
    && sys.hub.session in sys.placed && sys.placed[sys.hub.session] == TargetSlot(sys.board)
  }

  /**
   * Whatever nonce such a begin carries and however few blocks its erase manages, its delivery
   * loses acknowledged bytes under a hub that notices nothing. A whole erase restarts the board's
   * session at offset zero, one that fails half way leaves no session at all.
   */
  lemma BeginLosesBytes(cfg: Config, sys: Sys, msg: Msg, blocks: nat)
    requires Sound(sys) && Settled(sys) && Stored(sys) && Headed(sys) && Poised(sys, msg) && blocks > 0
    requires PastErase(sys.hub.phase) && sys.hub.tx.acked > 0
    ensures var ev := BoardHears(msg, Willing(blocks));
      && Enabled(sys, ev) && Touches(sys, ev)
      && var next := Next(cfg, sys, ev);
      && !Stored(next) && next.hub == sys.hub
      && next.board.active == (blocks * ERASE_BLOCK_SIZE >= sys.board.store.slotSize)
      && (next.board.active ==> next.board.session == msg.session && next.board.store.writeCursor == 0)
  {
    var ev := BoardHears(msg, Willing(blocks));
    assert Acknowledged(sys, sys.hub.tx.acked);
    assert AckedByte(sys, 0);
    TouchIsDamage(sys, ev);
    StoredUnlessDamaged(cfg, sys, ev);
  }

  /** The session's own begin, repeated by the link, is such a begin. */
  lemma OwnBeginIsPoised(sys: Sys)
    requires Sound(sys) && Settled(sys) && PastErase(sys.hub.phase) && sys.hub.tx.acked > 0
    requires sys.board.active ==> sys.board.session == sys.hub.session
    requires sys.hub.session in sys.placed && sys.placed[sys.hub.session] == TargetSlot(sys.board)
    ensures Poised(sys, BeginOf(sys.hub))
  {
    assert Roomy(sys, sys.hub.session);
  }

  // ---- a run that gets there ----

  const SLOT: nat := 131072
  const CFG := Config(9, 9, 9, 9, 9, 9, 9, 0, 9, 9, 9)

  function Picture(): seq<Byte> {
    seq(IMAGE_HEADER_SIZE, _ => 7)
  }

  function Parcel(): Bundle {
    Bundle(3, 1, [Image(IMAGE_HEADER_SIZE, 0, Picture())])
  }

  function Blank(): seq<Byte> {
    seq(SLOT, _ => ERASED)
  }

  function Bare(): Updater {
    Updater(Store(0, SLOT, [Blank(), Blank()], SLOT_COUNT, 0), Meta(Valid, Empty, 0, false), false, false, 0, 0, 0, 0, 0, 0, 0)
  }

  function PowerOn(): Sys {
    Sys(FRESH_HUB, Bare(), {}, {}, map[], map[], map[])
  }

  function Report(): Msg {
    StatusReport(Status(3, 0, SlotInfo(Valid, 0), EMPTY_SLOT, false, SLOT, CHUNK_DATA_SIZE))
  }

  function Piece(offset: nat, size: nat): Msg
    requires offset + size <= IMAGE_HEADER_SIZE
  {
    Chunk(1, offset, Picture()[offset..offset + size])
  }

  function Says(msg: Msg): Event {
    HubCall(CallMessage(msg, 2), 0, 9)
  }

  // The hub asking, opening, sending and waiting for the verdict.

  function Asking(): Hub {
    FRESH_HUB.(bundle := Parcel(), statusTries := 1, nextStatus := 9, phase := Query)
  }

  function Opening(): Hub {
    Asking().(board := ReadStatus(Report().status), targetSlot := 1, previousEpoch := Some(0), session := 1,
              tx := FRESH_TX.(total := IMAGE_HEADER_SIZE, chunkData := CHUNK_DATA_SIZE), deadline := 9, phase := Erasing)
  }

  function Sent(): Hub {
    Opening().(tx := Opening().tx.(sent := IMAGE_HEADER_SIZE, chunkDeadline := 9), phase := Transfer)
  }

  function Full(): Hub {
    Sent().(tx := Sent().tx.(acked := IMAGE_HEADER_SIZE), phase := Verifying)
  }

  /** The board with the session open and that much of the image in the other slot. */
  predicate Filled(u: Updater, offset: nat, since: nat) {
    && ValidStore(u.store) && u.store.runningSlot == 0 && u.store.slotSize == SLOT
    && u.store.writeSlot == u.targetSlot == 1 && u.store.writeCursor == u.nextOffset == offset
    && u.active && u.session == 1 && u.imageSize == IMAGE_HEADER_SIZE && u.chunksSinceAck == since
  }

  function OwnBegin(): Msg {
    Begin(1, IMAGE_HEADER_SIZE, 0)
  }

  /** Nine events: asked, answered, begun, three chunks, acknowledged whole. */
  function Cue(n: nat): Event {
    match n
    case 0 => HubCall(CallStart(Some(Parcel())), 0, 9)
    case 1 => BoardHears(StatusRequest, Willing(2))
    case 2 => HubCall(CallMessage(Report(), 1), 0, 9)
    case 3 => BoardHears(OwnBegin(), Willing(2))
    case 4 => Says(Ack(1, OpBegin, Ok))
    case 5 => BoardHears(Piece(0, 240), Willing(2))
    case 6 => BoardHears(Piece(240, 240), Willing(2))
    case 7 => BoardHears(Piece(480, 32), Willing(2))
    case _ => Says(ChunkAck(1, IMAGE_HEADER_SIZE))
  }

  /** What the system looks like after that many events of the script. */
  predicate Scene(sys: Sys, n: nat) {
    && (n < 3 ==> sys.board == Bare() && sys.images == map[] && sys.placed == map[])
    && (n >= 3 ==> sys.images == map[1 := Picture()] && OwnBegin() in sys.toBoard)
    && (n >= 4 ==> sys.placed == map[1 := 1])
    && (n < 8 ==> forall m :: m in sys.toHub ==> !m.ChunkAck?)
    && match n
       case 0 => sys == PowerOn()
       case 1 => sys.hub == Asking() && StatusRequest in sys.toBoard
       case 2 => sys.hub == Asking() && Report() in sys.toHub
       case 3 => sys.hub == Opening() && sys.board == Bare() && sys.placed == map[]
       case 4 => sys.hub == Opening() && Filled(sys.board, 0, 0) && Ack(1, OpBegin, Ok) in sys.toHub
       case 5 => sys.hub == Sent() && Filled(sys.board, 0, 0) && {Piece(0, 240), Piece(240, 240), Piece(480, 32)} <= sys.toBoard
       case 6 => sys.hub == Sent() && Filled(sys.board, 240, 1) && {Piece(240, 240), Piece(480, 32)} <= sys.toBoard
       case 7 => sys.hub == Sent() && Filled(sys.board, 480, 2) && Piece(480, 32) in sys.toBoard
       case 8 => sys.hub == Sent() && Filled(sys.board, IMAGE_HEADER_SIZE, 0) && ChunkAck(1, IMAGE_HEADER_SIZE) in sys.toHub
       case _ => sys.hub == Full() && Filled(sys.board, IMAGE_HEADER_SIZE, 0)
  }

  /** The event of the script is enabled in its scene and leads to the next one. */
  ghost predicate Leads(sys: Sys, n: nat) {
    Ready(sys.board) && Enabled(sys, Cue(n)) && Scene(Next(CFG, sys, Cue(n)), n + 1)
  }

  lemma HubAsks(sys: Sys)
    requires Scene(sys, 0)
    ensures Leads(sys, 0)
  {
  }

  lemma HubOpens(sys: Sys)
    requires Scene(sys, 2)
    ensures Leads(sys, 2)
  {
  }

  lemma BoardOpens(sys: Sys, n: nat)
    requires Scene(sys, n) && (n == 1 || n == 3)
    ensures Leads(sys, n)
  {
  }

  lemma OnePiece(tx: Tx, size: nat, budget: nat, rest: Burst)
    requires tx.total == IMAGE_HEADER_SIZE && tx.acked == 0 && tx.chunkData == CHUNK_DATA_SIZE && tx.nextChunk == 0
    requires tx.sent < tx.total && size == Min(tx.total - tx.sent, CHUNK_DATA_SIZE) && budget > 0
    requires PumpLoop(0, tx.(sent := tx.sent + size), 1, Picture(), 0, budget - 1) == rest
    ensures PumpLoop(0, tx, 1, Picture(), 0, budget) == rest.(chunks := [Piece(tx.sent, size)] + rest.chunks)
  {
  }

  /** The image goes out in three chunks. */
  lemma ThreePieces(tx: Tx)
    requires tx == Opening().tx.(chunkDeadline := 9)
    ensures PumpLoop(0, tx, 1, Picture(), 0, 9) ==
      Burst(tx.(sent := IMAGE_HEADER_SIZE), [Piece(0, 240), Piece(240, 240), Piece(480, 32)], 6, true)
  {
    var none := Burst(tx.(sent := IMAGE_HEADER_SIZE), [], 6, true);
    OnePiece(tx.(sent := 480), 32, 7, none);
    OnePiece(tx.(sent := 240), 240, 8, none.(chunks := [Piece(480, 32)]));
    OnePiece(tx, 240, 9, none.(chunks := [Piece(240, 240), Piece(480, 32)]));
  }

  lemma HubSends(sys: Sys)
    requires Scene(sys, 4)
    ensures Leads(sys, 4)
  {
    var begun := BeginTransfer(CFG, Opening(), 0);
    ThreePieces(begun.tx);
    var out := Pump(CFG, Out(begun, [], 9), 0);
    assert out.hub == Sent();
    assert Messages(out.sent) == {Piece(0, 240), Piece(240, 240), Piece(480, 32)};
  }

  lemma BoardFills(sys: Sys, n: nat)
    requires Scene(sys, n) && 5 <= n < 8
    ensures Leads(sys, n)
  {
  }

  lemma HubFinishes(sys: Sys)
    requires Scene(sys, 8)
    ensures Leads(sys, 8)
  {
  }

  lemma ScenesLead(sys: Sys, n: nat)
    requires Scene(sys, n) && n < 9
    ensures Leads(sys, n)
  {
    match n
    case 0 => HubAsks(sys);
    case 1 => BoardOpens(sys, 1);
    case 2 => HubOpens(sys);
    case 3 => BoardOpens(sys, 3);
    case 4 => HubSends(sys);
    case 8 => HubFinishes(sys);
    case _ => BoardFills(sys, n);
  }

  predicate Follows(run: Run, n: nat) {
    && |run.events| == n && |run.states| == n + 1
    && (forall i :: 0 <= i < n ==> run.events[i] == Cue(i))
    && (forall i :: 0 <= i <= n ==> Scene(run.states[i], i))
  }

  lemma Starts(run: Run)
    requires run == Run([PowerOn()], [])
    ensures OtaDelivery.Valid(CFG, run) && Follows(run, 0)
  {
  }

  lemma {:induction false} Play(n: nat) returns (run: Run)
    requires n <= 9
    ensures OtaDelivery.Valid(CFG, run) && Follows(run, n)
  {
    if n == 0 {
      run := Run([PowerOn()], []);
      Starts(run);
    } else {
      var shorter := Play(n - 1);
      ScenesLead(shorter.states[n - 1], n - 1);
      run := Extended(shorter, Cue(n - 1));
      Continued(shorter, run, n);
    }
  }

  lemma Continued(shorter: Run, run: Run, n: nat)
    requires 0 < n <= 9 && Follows(shorter, n - 1) && Leads(shorter.states[n - 1], n - 1)
    requires run.events == shorter.events + [Cue(n - 1)]
    requires run.states == shorter.states + [Next(CFG, shorter.states[n - 1], Cue(n - 1))]
    ensures Follows(run, n)
  {
  }

  lemma Extended(run: Run, ev: Event) returns (longer: Run)
    requires OtaDelivery.Valid(CFG, run)
    requires var last := run.states[|run.events|]; Ready(last.board) && Enabled(last, ev)
    ensures OtaDelivery.Valid(CFG, longer)
    ensures longer.events == run.events + [ev]
    ensures longer.states == run.states + [Next(CFG, run.states[|run.events|], ev)]
  {
    longer := Run(run.states + [Next(CFG, run.states[|run.events|], ev)], run.events + [ev]);
    forall i | 0 <= i < |longer.events| ensures Steps(CFG, longer, i) {
      assert i < |run.events| ==> Steps(CFG, run, i);
    }
  }

  /** After the script the whole image is acknowledged, and it is in the flash. */
  lemma ScriptStores(run: Run)
    requires OtaDelivery.Valid(CFG, run) && Follows(run, 9)
    ensures Sound(run.states[9]) && Settled(run.states[9]) && Stored(run.states[9]) && Headed(run.states[9])
  {
    forall i | 0 <= i < 9 ensures !Touches(run.states[i], run.events[i]) {
      assert Scene(run.states[i], i);
    }
    UntouchedIsIntact(CFG, run, 9);
    RunsAreSound(CFG, run, 9);
    RunsAreSettled(CFG, run, 9);
    assert Scene(run.states[9], 9);
  }

  /**
   * The law does fail: whether the repeated begin erases the whole slot or one block and then
   * fails, a run of ten events ends with a hub in VERIFYING whose acknowledged image is gone.
   */
  lemma AcknowledgedBytesCanBeLost(blocks: nat) returns (run: Run)
    requires blocks > 0
    ensures OtaDelivery.Valid(CFG, run) && |run.events| == 10
    ensures var last := run.states[10];
      last.hub.phase.Verifying? && last.hub.tx.acked == |Source(last.hub)| > 0 && !Stored(last) && last.board.active == (blocks >= 2)
  {
    var played := Play(9);
    ScriptStores(played);
    var sys := played.states[9];
    assert Scene(sys, 9);
    OwnBeginIsPoised(sys);
    BeginLosesBytes(CFG, sys, OwnBegin(), blocks);
    run := Extended(played, BoardHears(OwnBegin(), Willing(blocks)));
  }
}
