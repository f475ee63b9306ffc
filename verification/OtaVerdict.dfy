/**
 * Whole runs of the hub: what must have happened, and in which order, before an update is
 * declared confirmed.
 */
module OtaVerdict {
  import opened Bytes
  import opened OtaTypes
  import opened OtaSession
  import opened OtaWindow

  datatype Stamped = Stamped(call: Call, now: nat, budget: nat)

  function StepOf(cfg: Config, hub: Hub, s: Stamped): Out {
    Step(cfg, hub, s.call, s.now, s.budget)
  }

  /** Calls, the hub before each of them and after the last, and what each call handed over. */
  datatype Trace = Trace(hubs: seq<Hub>, calls: seq<Stamped>, outs: seq<Out>)

  predicate Shaped(t: Trace) {
    && |t.hubs| == |t.calls| + 1
    && |t.outs| == |t.calls|
    && (forall i :: 0 <= i < |t.calls| ==> t.hubs[i + 1] == t.outs[i].hub)
    && (forall i, j :: 0 <= i <= j < |t.calls| ==> t.calls[i].now <= t.calls[j].now)
  }

  /** A run from a fresh hub under a clock that never goes back. */
  predicate Run(cfg: Config, t: Trace) {
    && Shaped(t)
    && t.hubs[0] == FRESH_HUB
    && (forall i :: 0 <= i < |t.calls| ==> Follows(cfg, t, i))
  }

  predicate Follows(cfg: Config, t: Trace, i: nat)
    requires Shaped(t) && i < |t.calls|
  {
    Legal(t.calls[i].call) && t.outs[i] == StepOf(cfg, t.hubs[i], t.calls[i])
  }

  lemma {:induction false} RunKeepsInv(cfg: Config, t: Trace, n: nat)
    requires Run(cfg, t) && n < |t.hubs|
    ensures Inv(t.hubs[n])
  {
    if n > 0 {
      RunKeepsInv(cfg, t, n - 1);
      assert Follows(cfg, t, n - 1);
      StepKeepsInv(cfg, t.hubs[n - 1], t.calls[n - 1].call, t.calls[n - 1].now, t.calls[n - 1].budget);
    }
  }

  /** Phases of one update session once its transfer is open on the board. */
  predicate Underway(phase: Phase) {
    Sending(phase) || phase.Rebooting? || phase.WaitingBoard? || phase.Testing?
  }

  predicate Hears(s: Stamped, msg: Msg) {
    s.call.CallMessage? && s.call.msg == msg
  }

  predicate HearsStatus(s: Stamped) {
    s.call.CallMessage? && s.call.msg.StatusReport?
  }

  /** The call that started the session with a bundle the loader handed over. */
  predicate Starts(hub: Hub, s: Stamped, out: Out) {
    !Busy(hub.phase) && s.call == CallStart(Some(out.hub.bundle)) && out.hub.phase.Query? && out.sent == [StatusRequest]
  }

  /** The status that opened the session: it fixed the nonce and aimed at the slot not running. */
  predicate Opens(hub: Hub, s: Stamped, out: Out) {
    && hub.phase.Query?
    && HearsStatus(s)
    && var running := s.call.msg.status.runningSlot % 256;
    && out.hub.phase.Erasing?
    && out.hub.session == s.call.nonce
    && running < SLOT_COUNT && out.hub.targetSlot == 1 - running
    && out.hub.bundle == hub.bundle
    && |out.sent| == 1 && out.sent[0].Begin? && out.sent[0].session == s.call.nonce
    && out.sent[0].imageSize == out.hub.tx.total
  }

  /** A post-settle status from a board running the bundle in a slot no longer on trial. */
  predicate Confirms(hub: Hub, s: Stamped) {
    && HearsStatus(s)
    && var board := ReadStatus(s.call.msg.status);
    && board.buildEpoch == hub.bundle.buildEpoch
    && !RunningOnTrial(board)
  }

  /** How one call can lead to each phase of a session and to its verdict. */
  predicate Advances(cfg: Config, hub: Hub, s: Stamped, out: Out) {
    var after := out.hub;
    && (Busy(hub.phase) ==> after.bundle == hub.bundle)
    && (after.phase.Query? ==> Starts(hub, s, out) || hub.phase.Query?)
    && (Underway(after.phase) ==> Opens(hub, s, out) || (Underway(hub.phase) && SameSession(hub, after)))
    && (after.phase.Erasing? ==> Opens(hub, s, out) || hub.phase.Erasing?)
    && (after.phase.Transfer? ==>
          hub.phase.Transfer? || hub.phase.Verifying? ||
          (hub.phase.Erasing? && Hears(s, Ack(hub.session, OpBegin, Ok))))
    && (after.phase.Verifying? ==>
          hub.phase.Verifying? || (hub.phase.Transfer? && Hears(s, ChunkAck(hub.session, hub.tx.total))))
    && (after.phase.Rebooting? ==>
          || (hub.phase.Rebooting? && after.settleUntil == hub.settleUntil)
          || (hub.phase.Verifying? && Hears(s, Ack(hub.session, OpFinish, Ok)) && out.sent == [Reboot]
              && after.settleUntil == s.now + cfg.rebootSettle))
    && (after.phase.WaitingBoard? ==>
          && (hub.phase.WaitingBoard? || (hub.phase.Rebooting? && hub.settleUntil <= s.now))
          && after.settleUntil == hub.settleUntil)
    && (after.phase.Testing? ==>
          (hub.phase.Testing? || hub.phase.WaitingBoard?) && after.settleUntil == hub.settleUntil)
    && (after.phase.Confirmed? ==>
          hub.phase.Confirmed? ||
          ((hub.phase.Testing? || hub.phase.WaitingBoard?) && Confirms(hub, s) && SameSession(hub, after)))
  }

  lemma StepAdvances(cfg: Config, hub: Hub, s: Stamped)
    requires Inv(hub) && Legal(s.call)
    ensures Advances(cfg, hub, s, StepOf(cfg, hub, s))
  {
    match s.call
    case CallTick(reload) => TickAdvances(cfg, hub, s);
    case CallMessage(StatusReport(_), _) => StatusAdvances(cfg, hub, s);
    case CallMessage(Ack(_, _, _), _) => AckAdvances(cfg, hub, s);
    case CallMessage(ChunkAck(_, _), _) => ChunkAckAdvances(cfg, hub, s);
    case _ =>
  }

  lemma TickAdvances(cfg: Config, hub: Hub, s: Stamped)
    requires Inv(hub) && Legal(s.call) && s.call.CallTick?
    ensures Advances(cfg, hub, s, StepOf(cfg, hub, s))
  {
    if hub.phase.Transfer? {
      PumpSends(cfg, Out(hub.(tx := GoBack(cfg, hub.tx, s.now)), [], s.budget), s.now);
      assert SameSession(hub, StepOf(cfg, hub, s).hub);
    } else {
      QuietTickAdvances(cfg, hub, s);
    }
  }

  lemma QuietTickAdvances(cfg: Config, hub: Hub, s: Stamped)
    requires !hub.phase.Transfer? && s.call.CallTick?
    ensures Advances(cfg, hub, s, StepOf(cfg, hub, s))
  {
  }

  lemma StatusAdvances(cfg: Config, hub: Hub, s: Stamped)
    requires Inv(hub) && Legal(s.call) && HearsStatus(s)
    ensures Advances(cfg, hub, s, StepOf(cfg, hub, s))
  {
  }

  lemma AckAdvances(cfg: Config, hub: Hub, s: Stamped)
    requires Inv(hub) && Legal(s.call) && s.call.CallMessage? && s.call.msg.Ack?
    ensures Advances(cfg, hub, s, StepOf(cfg, hub, s))
  {
    if s.call.msg.op.OpBegin? {
      if hub.phase.Erasing? {
        PumpSends(cfg, Out(BeginTransfer(cfg, hub, s.now), [], s.budget), s.now);
      }
    } else {
      LateAckAdvances(cfg, hub, s);
    }
  }

  lemma LateAckAdvances(cfg: Config, hub: Hub, s: Stamped)
    requires s.call.CallMessage? && s.call.msg.Ack? && !s.call.msg.op.OpBegin?
    ensures Advances(cfg, hub, s, StepOf(cfg, hub, s))
  {
  }

  lemma ChunkAckAdvances(cfg: Config, hub: Hub, s: Stamped)
    requires Inv(hub) && Legal(s.call) && s.call.CallMessage? && s.call.msg.ChunkAck?
    ensures Advances(cfg, hub, s, StepOf(cfg, hub, s))
  {
    var ChunkAck(session, next) := s.call.msg;
    DigestKeeps(cfg, hub, session, next, s.now);
    match Digest(cfg, hub, session, next, s.now)
    case Resumed(tx) => PumpSends(cfg, Out(hub.(tx := tx, phase := Transfer), [], s.budget), s.now);
    case _ =>
  }

  // ---- the other ends of a session ----

  /** The clock alone ends a phase: its deadline passed or its tries are spent. */
  predicate Lapses(cfg: Config, hub: Hub, now: nat) {
    match hub.phase
    case Query => now >= hub.nextStatus && hub.statusTries >= cfg.statusTries
    case Transfer => now >= hub.tx.chunkDeadline && hub.tx.stalledRounds >= cfg.maxRetries
    case Reverting => now >= hub.deadline && hub.ackTries >= cfg.maxAckTries
    case Erasing => now >= hub.deadline
    case Verifying => now >= hub.deadline
    case WaitingBoard => now >= hub.deadline
    case _ => false
  }

  /** No transfer can be opened to the board as it reports itself. */
  predicate Unfit(bundle: Bundle, board: Board) {
    || board.mcu % 256 != bundle.mcuId || board.updaterBusy || board.runningSlot >= SLOT_COUNT
    || var image := FindImage(bundle, 1 - board.runningSlot);
       image.None? || (board.slotSize != 0 && image.value.size > board.slotSize)
  }

  /** A message the session does not survive. */
  predicate Refuses(cfg: Config, hub: Hub, msg: Msg) {
    match msg
    case StatusReport(status) =>
      var board := ReadStatus(status);
      || (hub.phase.Query? && Unfit(hub.bundle, board))
      || (&& hub.phase.WaitingBoard?
          && board.buildEpoch != hub.bundle.buildEpoch && hub.previousEpoch != Some(board.buildEpoch))
    case Ack(session, op, result) =>
      result != Ok &&
      (|| (op.OpBegin? && hub.phase.Erasing? && session == hub.session)
       || (op.OpFinish? && hub.phase.Verifying? && session == hub.session)
       || (op.OpRevert? && hub.phase.Reverting?))
    case ChunkAck(session, next) =>
      session == hub.session && (hub.phase.Transfer? || hub.phase.Verifying?) &&
      (next > hub.tx.total || (next == hub.tx.acked != hub.tx.sent && hub.tx.stalledRounds >= cfg.maxRetries))
    case _ => false
  }

  /** A call that fails the session: no bundle, a refusal, a lapse, or a link that took no more. */
  predicate Breaks(cfg: Config, hub: Hub, s: Stamped, out: Out) {
    match s.call
    case CallStart(loaded) => !Busy(hub.phase) && (loaded.None? || s.budget == 0)
    case CallAbort => false
    case CallRevert => (!Busy(hub.phase) || hub.phase.Testing?) && s.budget == 0
    case CallTick(_) => Busy(hub.phase) && (Lapses(cfg, hub, s.now) || out.budget == 0)
    case CallMessage(msg, _) => Busy(hub.phase) && (Refuses(cfg, hub, msg) || out.budget == 0)
  }

  /** A status of a board that runs what it ran before the update. */
  predicate FellBack(hub: Hub, s: Stamped) {
    && HearsStatus(s)
    && var board := ReadStatus(s.call.msg.status);
    && board.buildEpoch != hub.bundle.buildEpoch && hub.previousEpoch == Some(board.buildEpoch)
  }

  /** How one call can lead to IDLE, REVERTING, ROLLED_BACK and FAILED. */
  predicate Ends(cfg: Config, hub: Hub, s: Stamped, out: Out) {
    var after := out.hub;
    && (after.phase.Idle? ==>
          || hub.phase.Idle? || (Busy(hub.phase) && s.call.CallAbort?)
          || (hub.phase.Reverting? && s.call.CallMessage? && s.call.msg.Ack? && s.call.msg.op.OpRevert? && s.call.msg.result.Ok?))
    && (after.phase.Reverting? ==>
          hub.phase.Reverting? || (s.call.CallRevert? && (!Busy(hub.phase) || hub.phase.Testing?)))
    && (after.phase.RolledBack? ==>
          hub.phase.RolledBack? || ((hub.phase.Testing? || hub.phase.WaitingBoard?) && FellBack(hub, s)))
    && (after.phase.Failed? ==> hub.phase.Failed? || Breaks(cfg, hub, s, out))
  }

  lemma StepEnds(cfg: Config, hub: Hub, s: Stamped)
    requires Inv(hub) && Legal(s.call)
    ensures Ends(cfg, hub, s, StepOf(cfg, hub, s))
  {
    match s.call
    case CallTick(_) => TickEnds(cfg, hub, s);
    case CallMessage(StatusReport(_), _) => StatusEnds(cfg, hub, s);
    case CallMessage(Ack(_, _, _), _) => AckEnds(cfg, hub, s);
    case CallMessage(ChunkAck(_, _), _) => ChunkAckEnds(cfg, hub, s);
    case _ =>
  }

  /** A pump fails only where the link took no more. */
  lemma {:induction false} BurstStops(delay: nat, tx: Tx, session: nat, image: seq<Byte>, now: nat, budget: nat)
    requires tx.sent <= tx.total <= |image| && tx.chunkData > 0
    ensures var b := PumpLoop(delay, tx, session, image, now, budget); !b.ok ==> b.budget == 0
    decreases tx.total - tx.sent
  {
    if MayPump(tx, now) && budget > 0 {
      var chunk := NextChunk(tx, session, image);
      BurstStops(delay, tx.(sent := tx.sent + |chunk.data|, nextChunk := now + delay), session, image, now, budget - 1);
    }
  }

  lemma PumpStops(cfg: Config, hub: Hub, now: nat, budget: nat)
    requires Pumpable(hub, now)
    ensures var p := Pump(cfg, Out(hub, [], budget), now);
      (p.hub.phase.Transfer? || p.hub.phase.Failed?) && (p.hub.phase.Failed? ==> p.budget == 0)
  {
    PumpSends(cfg, Out(hub, [], budget), now);
    BurstStops(cfg.chunkDelay, hub.tx, hub.session, Source(hub), now, budget);
  }

  lemma TickEnds(cfg: Config, hub: Hub, s: Stamped)
    requires Inv(hub) && Legal(s.call) && s.call.CallTick?
    ensures Ends(cfg, hub, s, StepOf(cfg, hub, s))
  {
    if hub.phase.Transfer? {
      PumpStops(cfg, hub.(tx := GoBack(cfg, hub.tx, s.now)), s.now, s.budget);
    }
  }

  lemma StatusEnds(cfg: Config, hub: Hub, s: Stamped)
    requires Inv(hub) && HearsStatus(s)
    ensures Ends(cfg, hub, s, StepOf(cfg, hub, s))
  {
  }

  lemma AckEnds(cfg: Config, hub: Hub, s: Stamped)
    requires Inv(hub) && s.call.CallMessage? && s.call.msg.Ack?
    ensures Ends(cfg, hub, s, StepOf(cfg, hub, s))
  {
    if s.call.msg.op.OpBegin? && hub.phase.Erasing? {
      PumpStops(cfg, BeginTransfer(cfg, hub, s.now), s.now, s.budget);
    }
  }

  lemma ChunkAckEnds(cfg: Config, hub: Hub, s: Stamped)
    requires Inv(hub) && s.call.CallMessage? && s.call.msg.ChunkAck?
    ensures Ends(cfg, hub, s, StepOf(cfg, hub, s))
  {
    var ChunkAck(session, next) := s.call.msg;
    DigestKeeps(cfg, hub, session, next, s.now);
    match Digest(cfg, hub, session, next, s.now)
    case Resumed(tx) => PumpStops(cfg, hub.(tx := tx, phase := Transfer), s.now, s.budget);
    case _ =>
  }

  // ---- the story of a session ----

  /** Where in a run the session was started, opened, begun, fully acknowledged and finished. */
  datatype Story = Story(start: nat, open: nat, begun: nat, full: nat, finished: nat)

  /** The session was started with the bundle it has now, and has kept it since. */
  predicate StartedAt(t: Trace, start: nat, n: nat)
    requires Shaped(t) && start < n < |t.hubs|
  {
    && Starts(t.hubs[start], t.calls[start], t.outs[start])
    && (forall k :: start < k <= n ==> t.hubs[k].bundle == t.hubs[n].bundle)
  }

  predicate StartExplained(t: Trace, n: nat, story: Story)
    requires Shaped(t) && n < |t.hubs|
  {
    t.hubs[n].phase.Query? || Underway(t.hubs[n].phase) ==> story.start < n && StartedAt(t, story.start, n)
  }

  predicate Explains(cfg: Config, t: Trace, n: nat, story: Story)
    requires Shaped(t) && n < |t.hubs|
  {
    StartExplained(t, n, story) && SessionExplained(cfg, t, n, story)
  }

  predicate SessionExplained(cfg: Config, t: Trace, n: nat, story: Story)
    requires Shaped(t) && n < |t.hubs|
  {
    var hub := t.hubs[n];
    && (Underway(hub.phase) ==>
          && story.start < story.open < n
          && Opens(t.hubs[story.open], t.calls[story.open], t.outs[story.open])
          && (forall k :: story.open < k <= n ==> SameSession(t.hubs[k], hub)))
    && (Underway(hub.phase) && !hub.phase.Erasing? ==>
          story.open < story.begun < n && Hears(t.calls[story.begun], Ack(hub.session, OpBegin, Ok)))
    && (Underway(hub.phase) && !hub.phase.Erasing? && !hub.phase.Transfer? ==>
          story.begun < story.full < n && Hears(t.calls[story.full], ChunkAck(hub.session, hub.tx.total)))
    && (Underway(hub.phase) && !Sending(hub.phase) ==>
          && story.full < story.finished < n
          && Hears(t.calls[story.finished], Ack(hub.session, OpFinish, Ok))
          && t.outs[story.finished].sent == [Reboot]
          && hub.settleUntil == t.calls[story.finished].now + cfg.rebootSettle)
    && (hub.phase.WaitingBoard? || hub.phase.Testing? ==> hub.settleUntil <= t.calls[n - 1].now)
  }

  lemma RunAdvances(cfg: Config, t: Trace, n: nat)
    requires Run(cfg, t) && 0 < n < |t.hubs|
    ensures Advances(cfg, t.hubs[n - 1], t.calls[n - 1], t.outs[n - 1])
  {
    RunKeepsInv(cfg, t, n - 1);
    assert Follows(cfg, t, n - 1);
    StepAdvances(cfg, t.hubs[n - 1], t.calls[n - 1]);
  }

  /** Every state of every run has its story. */
  lemma {:induction false} EveryStateExplained(cfg: Config, t: Trace, n: nat) returns (story: Story)
    requires Run(cfg, t) && n < |t.hubs|
    ensures Explains(cfg, t, n, story)
  {
    story := Story(0, 0, 0, 0, 0);
    if n > 0 {
      var prior := EveryStateExplained(cfg, t, n - 1);
      RunAdvances(cfg, t, n);
      story := Extend(cfg, t, n, prior);
    }
  }

  /** One more step: the events of the session that happened in it. */
  function Extended(t: Trace, n: nat, prior: Story): Story
    requires Shaped(t) && 0 < n < |t.hubs|
  {
    var before, after, call, out := t.hubs[n - 1].phase, t.hubs[n].phase, t.calls[n - 1], t.outs[n - 1];
    if Starts(t.hubs[n - 1], call, out) then prior.(start := n - 1)
    else if Opens(t.hubs[n - 1], call, out) then prior.(open := n - 1)
    else if before.Erasing? && after.Transfer? then prior.(begun := n - 1)
    else if before.Transfer? && after.Verifying? then prior.(full := n - 1)
    else if before.Verifying? && after.Rebooting? then prior.(finished := n - 1)
    else prior
  }

  lemma Extend(cfg: Config, t: Trace, n: nat, prior: Story) returns (story: Story)
    requires Shaped(t) && 0 < n < |t.hubs|
    requires Advances(cfg, t.hubs[n - 1], t.calls[n - 1], t.outs[n - 1])
    requires Explains(cfg, t, n - 1, prior)
    ensures Explains(cfg, t, n, story)
  {
    story := Extended(t, n, prior);
    assert t.hubs[n] == t.outs[n - 1].hub;
    ExtendStart(cfg, t, n, prior);
    ExtendSession(cfg, t, n, prior);
  }

  lemma ExtendStart(cfg: Config, t: Trace, n: nat, prior: Story)
    requires Shaped(t) && 0 < n < |t.hubs|
    requires Advances(cfg, t.hubs[n - 1], t.calls[n - 1], t.outs[n - 1])
    requires Explains(cfg, t, n - 1, prior)
    ensures StartExplained(t, n, Extended(t, n, prior))
  {
    assert t.hubs[n] == t.outs[n - 1].hub;
  }

  lemma ExtendSession(cfg: Config, t: Trace, n: nat, prior: Story)
    requires Shaped(t) && 0 < n < |t.hubs|
    requires Advances(cfg, t.hubs[n - 1], t.calls[n - 1], t.outs[n - 1])
    requires Explains(cfg, t, n - 1, prior)
    ensures SessionExplained(cfg, t, n, Extended(t, n, prior))
  {
    assert t.hubs[n] == t.outs[n - 1].hub;
  }

  /**
   * What an update that is declared confirmed at step n owes: a status after the settle time of
   * a reboot, from a board running the bundle's build in a slot not on trial; before it an
   * accepted finish that sent the reboot, before that the acknowledgement of every byte, before
   * that an accepted begin, all under the nonce the session opened with, whose target was the
   * slot not running; nonce, target and size the same from the opening on, and the bundle the one
   * the session was started with.
   */
  predicate Earned(cfg: Config, t: Trace, n: nat, story: Story)
    requires Shaped(t) && 0 < n < |t.hubs|
  {
    && story.start < story.open < story.begun < story.full < story.finished < n - 1
    && StartedAt(t, story.start, n)
    && Opens(t.hubs[story.open], t.calls[story.open], t.outs[story.open])
    && Hears(t.calls[story.begun], Ack(t.hubs[n].session, OpBegin, Ok))
    && Hears(t.calls[story.full], ChunkAck(t.hubs[n].session, t.hubs[n].tx.total))
    && Hears(t.calls[story.finished], Ack(t.hubs[n].session, OpFinish, Ok))
    && t.outs[story.finished].sent == [Reboot]
    && t.calls[n - 1].now >= t.calls[story.finished].now + cfg.rebootSettle
    && Confirms(t.hubs[n], t.calls[n - 1])
    && (forall k :: story.open < k <= n ==> SameSession(t.hubs[k], t.hubs[n]))
  }

  /** Over every run, CONFIRMED is entered only once it is earned. */
  lemma ConfirmedIsEarned(cfg: Config, t: Trace, n: nat) returns (story: Story)
    requires Run(cfg, t) && 0 < n < |t.hubs|
    requires t.hubs[n].phase.Confirmed? && !t.hubs[n - 1].phase.Confirmed?
    ensures Earned(cfg, t, n, story)
  {
    story := EveryStateExplained(cfg, t, n - 1);
    RunAdvances(cfg, t, n);
    VerdictOf(cfg, t, n, story);
  }

  lemma VerdictOf(cfg: Config, t: Trace, n: nat, story: Story)
    requires Shaped(t) && 0 < n < |t.hubs|
    requires Advances(cfg, t.hubs[n - 1], t.calls[n - 1], t.outs[n - 1])
    requires Explains(cfg, t, n - 1, story)
    requires t.hubs[n].phase.Confirmed? && !t.hubs[n - 1].phase.Confirmed?
    ensures Earned(cfg, t, n, story)
  {
    assert t.hubs[n] == t.outs[n - 1].hub;
    assert SameSession(t.hubs[n - 1], t.hubs[n]);
    assert t.calls[n - 2].now <= t.calls[n - 1].now;
  }
}
