/**
 * The end of a successful update: the staged board is reset into its new image, the hub waits out the
 * settle time, asks, and declares the update confirmed, or on trial until the image vouches for itself.
 */
module OtaReturn {
  import opened Bytes
  import opened OtaTypes
  import opened OtaWindow
  import opened OtaBoard
  import opened OtaLink
  import opened OtaLossless
  import P = OtaPhases
  import V = OtaVerdict

  /** The hub has time to ask a board that comes back, and the board comes back with the bundle's build. */
  predicate ComesBack(k: Terms, slot: nat) {
    && k.budget > 0 && Max(k.cfg.rebootSettle, 1) + 1 < k.cfg.boardReturnTimeout
    && k.booted.metaRead && k.booted.metaWrite
    && (if slot == 1 then k.booted.epochB else k.booted.epochA) == k.bundle.buildEpoch
  }

  /** The board runs the new image on trial, and nothing is on its way. */
  predicate BackOnTrial(k: Terms, w: Wire, slot: nat) {
    && Ready(w.sys.board) && slot < SLOT_COUNT && w.sys.board.store.runningSlot == slot
    && StateOf(w.sys.board.meta, slot) == OnTrial
    && w.sys.hub.bundle == k.bundle && k.nonce != 0 && k.nonce + 1 !in w.sys.images
    && w.up == [] && (forall m :: m in w.down ==> m in w.sys.toBoard)
  }

  /** The settle time runs. */
  predicate Settling(k: Terms, w: Wire, slot: nat, since: nat) {
    && BackOnTrial(k, w, slot) && w.down == [] && w.sys.hub.phase.Rebooting?
    && w.sys.hub.settleUntil == since + k.cfg.rebootSettle && w.sys.hub.deadline == since + k.cfg.boardReturnTimeout
    && (w.clock == since || w.clock < w.sys.hub.settleUntil)
  }

  /** The settle time is over, and the hub may ask. */
  predicate Waiting(k: Terms, w: Wire, slot: nat) {
    && BackOnTrial(k, w, slot) && w.down == [] && w.sys.hub.phase.WaitingBoard?
    && w.sys.hub.settleUntil <= w.clock && w.sys.hub.nextStatus <= w.clock && w.clock + 1 < w.sys.hub.deadline
  }

  predicate Asked(k: Terms, w: Wire, slot: nat) {
    && BackOnTrial(k, w, slot) && w.down == [StatusRequest] && w.sys.hub.phase.WaitingBoard?
    && w.sys.hub.settleUntil <= w.clock
  }

  /** The board's answer: the bundle's build runs, on trial unless it has vouched for itself. */
  predicate Told(k: Terms, w: Wire) {
    && Ready(w.sys.board) && w.sys.hub.bundle == k.bundle && k.nonce != 0 && k.nonce + 1 !in w.sys.images
    && w.down == [] && w.sys.hub.phase.WaitingBoard? && w.sys.hub.settleUntil <= w.clock
    && |w.up| == 1 && w.up[0] in w.sys.toHub && w.up[0].StatusReport?
    && P.Runs(w.up[0].status, k.bundle.buildEpoch) && (P.Tries(w.up[0].status) <==> !k.booted.selfConfirm)
  }

  /** Confirmed if the new image vouches for itself on first contact, on trial otherwise. */
  predicate Returned(k: Terms, w: Wire) {
    if k.booted.selfConfirm then w.sys.hub.phase.Confirmed? else w.sys.hub.phase.Testing?
  }

  // ---- turn by turn ----

  lemma BoardResets(k: Terms, w: Wire) returns (next: Wire)
    requires RebootDue(k, w) && w.sys.hub.phase.Rebooting?
    ensures Linked(k, [w, next]) && Settling(k, next, 1 - w.sys.board.store.runningSlot, w.clock)
  {
    OneTurn(k, w);
    next := Turn(k, w);
  }

  lemma HubSettles(k: Terms, w: Wire, slot: nat, since: nat) returns (next: Wire)
    requires Settling(k, w, slot, since) && ComesBack(k, slot)
    ensures Linked(k, [w, next])
    ensures w.clock + 1 < w.sys.hub.settleUntil ==>
      Settling(k, next, slot, since) && next.clock == w.clock + 1 && next.sys.hub.settleUntil == w.sys.hub.settleUntil
    ensures w.clock + 1 >= w.sys.hub.settleUntil ==> Waiting(k, next, slot)
  {
    OneTurn(k, w);
    next := Turn(k, w);
  }

  lemma HubAsks(k: Terms, w: Wire, slot: nat) returns (next: Wire)
    requires Waiting(k, w, slot) && ComesBack(k, slot)
    ensures Linked(k, [w, next]) && Asked(k, next, slot)
  {
    OneTurn(k, w);
    next := Turn(k, w);
  }

  lemma BoardTells(k: Terms, w: Wire, slot: nat) returns (next: Wire)
    requires Asked(k, w, slot) && ComesBack(k, slot)
    ensures Linked(k, [w, next]) && Told(k, next)
  {
    OneTurn(k, w);
    next := Turn(k, w);
  }

  lemma HubJudges(k: Terms, w: Wire) returns (next: Wire)
    requires Told(k, w)
    ensures Linked(k, [w, next]) && Returned(k, next)
  {
    var s := V.Stamped(CallMessage(w.up[0], k.nonce + 1), w.clock, k.budget);
    P.ReturnIsJudged(k.cfg, w.sys.hub, s, w.up[0].status);
    OneTurn(k, w);
    next := Turn(k, w);
  }

  // ---- the whole return ----

  ghost predicate Ends(k: Terms, trace: seq<Wire>) {
    |trace| > 0 && Linked(k, trace) && Returned(k, trace[|trace| - 1])
  }

  lemma Prepend(k: Terms, w: Wire, next: Wire, rest: seq<Wire>) returns (trace: seq<Wire>)
    requires Linked(k, [w, next]) && Ends(k, rest) && rest[0] == next
    ensures Ends(k, trace) && trace[0] == w
  {
    trace := [w] + rest;
    forall i: nat ensures Goes(k, trace, i) {
      assert Goes(k, [w, next], 0) && (i > 0 ==> Goes(k, rest, i - 1));
    }
  }

  lemma Asks(k: Terms, w: Wire, slot: nat) returns (trace: seq<Wire>)
    requires Waiting(k, w, slot) && ComesBack(k, slot)
    ensures Ends(k, trace) && trace[0] == w
  {
    var asked := HubAsks(k, w, slot);
    var told := BoardTells(k, asked, slot);
    var judged := HubJudges(k, told);
    trace := Last(k, judged);
    trace := Prepend(k, told, judged, trace);
    trace := Prepend(k, asked, told, trace);
    trace := Prepend(k, w, asked, trace);
  }

  lemma Last(k: Terms, w: Wire) returns (trace: seq<Wire>)
    requires Returned(k, w)
    ensures Ends(k, trace) && trace[0] == w
  {
    trace := [w];
    forall i: nat ensures Goes(k, trace, i) {
    }
  }

  lemma {:induction false} Settles(k: Terms, w: Wire, slot: nat, since: nat) returns (trace: seq<Wire>)
    requires Settling(k, w, slot, since) && ComesBack(k, slot)
    ensures Ends(k, trace) && trace[0] == w
    decreases Max(0, w.sys.hub.settleUntil - w.clock)
  {
    var next := HubSettles(k, w, slot, since);
    if w.clock + 1 < w.sys.hub.settleUntil {
      trace := Settles(k, next, slot, since);
    } else {
      trace := Asks(k, next, slot);
    }
    trace := Prepend(k, w, next, trace);
  }

  lemma Returns(k: Terms, w: Wire) returns (trace: seq<Wire>)
    requires RebootDue(k, w) && w.sys.hub.phase.Rebooting? && ComesBack(k, 1 - w.sys.board.store.runningSlot)
    ensures Ends(k, trace) && trace[0] == w
  {
    var away := BoardResets(k, w);
    trace := Settles(k, away, 1 - w.sys.board.store.runningSlot, w.clock);
    trace := Prepend(k, w, away, trace);
  }

  lemma {:induction false} JoinedLink(k: Terms, a: seq<Wire>, b: seq<Wire>)
    requires Linked(k, a) && Linked(k, b) && |a| > 0 && |b| > 0 && a[|a| - 1] == b[0]
    ensures Linked(k, a + b[1..])
  {
    var all := a + b[1..];
    forall i: nat ensures Goes(k, all, i) {
      assert Goes(k, a, i) && (i + 1 >= |a| ==> Goes(k, b, i + 1 - |a|));
    }
  }

  /**
   * The whole update: from every sound state with an idle hub and no session on the board, over a
   * link that loses nothing, a fitting bundle whose image comes up is confirmed, or stays on trial
   * exactly as long as it does not vouch for itself.
   */
  lemma UpdateIsConfirmed(k: Terms, sys: Sys, clock: nat) returns (trace: seq<Wire>)
    requires Offered(k, sys, k.bundle) && ComesBack(k, 1 - k.running)
    ensures Ends(k, trace) && trace[0] == Started(k, sys, k.bundle, clock)
  {
    var image := ImageFor(sys.board.store, k.bundle);
    var first := TransferSucceeds(k, sys, k.bundle, clock);
    var staged := first[|first| - 1];
    assert Done(k, staged, image);
    var second := Returns(k, staged);
    trace := first + second[1..];
    JoinedLink(k, first, second);
  }
}
