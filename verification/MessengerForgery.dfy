/**
 * When a request that nobody read can come to be counted completed: exactly if its acknowledgement
 * or its number was forged and the transport of its destination has taken an answer or will.
 */
module MessengerForgery {
  import opened TransportNode
  import opened MessengerDesk
  import opened MessengerRuns
  import opened MessengerNet

  const NO_REPLY := Reply(false, [])

  // ---- what the channel alone can still do ----

  /** A packet in the air arrives, and no handler does anything about it. */
  predicate MayLand(net: Net, at: NodeId, packet: Packet) {
    Enabled(net, Arrives(at, packet, NO_REPLY))
  }

  function Landed(net: Net, at: NodeId, packet: Packet): Net
    requires MayLand(net, at, packet)
  {
    Next(net, Arrives(at, packet, NO_REPLY))
  }

  ghost predicate Mistaken(net: Net, node: NodeId, s: nat) {
    Holds(net, node, s) && net.desks[node].ledger[s].fate.Completed? && !WasRead(net, node, s)
  }

  /** So many arrivals can leave the request completed and unread. */
  ghost predicate MistakenIn(net: Net, node: NodeId, s: nat, n: nat)
    decreases n
  {
    if n == 0 then Mistaken(net, node, s)
    else exists at: NodeId, packet: Packet {:trigger MayLand(net, at, packet)} ::
      MayLand(net, at, packet) && MistakenIn(Landed(net, at, packet), node, s, n - 1)
  }

  ghost predicate CanBeMistaken(net: Net, node: NodeId, s: nat) {
    exists n: nat :: MistakenIn(net, node, s, n)
  }

  // ---- the condition ----

  /** The transport takes one of the sends still to come. */
  ghost predicate TakesLater(p: Post) {
    exists m: nat :: |p.offered| <= m && p.takes(m)
  }

  /** The request names another node of the net, its acknowledgement or number was forged, and an answer left or can leave. */
  ghost predicate Forgeable(net: Net, node: NodeId, s: nat)
    requires Holds(net, node, s)
  {
    var request := net.desks[node].ledger[s];
    && request.dst in net.desks && request.dst != node && node != BROADCAST
    && Forged(net, node, s)
    && (AckLeft(net, request.dst, node, request.id) || TakesLater(net.desks[request.dst].post))
  }

  // ---- one silent arrival ----

  /** What an arrival does to a desk whose handlers do nothing. */
  lemma SilentPayload(d: Desk, src: NodeId, payload: Payload)
    requires Sane(d)
    ensures var after := OnPayload(d, src, payload, NO_REPLY);
      && after.drawn == d.drawn && |after.ledger| == |d.ledger| && after.post.takes == d.post.takes
      && (forall s: nat | s < |d.ledger| :: SameRequest(d.ledger[s], after.ledger[s]))
      && (if payload.Sealed? && payload.envelope.tag != ACK_TAG && payload.envelope.id != 0
          then after.post.offered == d.post.offered + [AnswerTo(d, src, payload.envelope)] &&
               after.post.outbox == d.post.outbox + (if Takes(d.post) then [AnswerTo(d, src, payload.envelope)] else [])
          else after.post.offered == d.post.offered && after.post.outbox == d.post.outbox)
  {
    assert forall x: Desk :: ActAll(x, []) == x;
  }

  function AnswerTo(d: Desk, src: NodeId, envelope: Envelope): Letter {
    Letter(src, AckOf(envelope.id), Answered(|d.post.inbox|))
  }

  predicate SameRequest(a: Entry, b: Entry) {
    a.dst == b.dst && a.id == b.id && a.draw == b.draw && a.envelope == b.envelope
  }

  /** After a silent arrival the net is honest, and every request is the one it was. */
  lemma LandedKeeps(net: Net, at: NodeId, packet: Packet, node: NodeId, s: nat)
    requires Honest(net) && MayLand(net, at, packet) && Holds(net, node, s)
    ensures var after := Landed(net, at, packet);
      && Honest(after) && Holds(after, node, s) && after.desks.Keys == net.desks.Keys
      && after.desks[node].drawn == net.desks[node].drawn
      && SameRequest(net.desks[node].ledger[s], after.desks[node].ledger[s])
  {
    NextKeepsHonest(net, Arrives(at, packet, NO_REPLY));
    assert NodeSane(net, at);
    SilentPayload(net.desks[at], packet.src, packet.payload);
  }

  /** The letters of a node after a silent arrival: one more answer at most, if its transport takes it. */
  lemma LandedLetters(net: Net, at: NodeId, packet: Packet, n: NodeId)
    requires Honest(net) && MayLand(net, at, packet) && n in net.desks
    ensures var after := Landed(net, at, packet);
      && n in after.desks
      && var was, now := net.desks[n].post, after.desks[n].post;
      && now.takes == was.takes && |was.offered| <= |now.offered| && was.outbox <= now.outbox
      && (forall i: nat | |was.outbox| <= i < |now.outbox| :: now.outbox[i].cause.Answered?)
      && (|was.outbox| < |now.outbox| ==> Takes(was))
  {
    assert NodeSane(net, at);
    SilentPayload(net.desks[at], packet.src, packet.payload);
  }

  // ---- what was completed unread was forged ----

  lemma ForgedBefore(net: Net, at: NodeId, packet: Packet, node: NodeId, s: nat)
    requires Honest(net) && MayLand(net, at, packet) && Holds(net, node, s)
    requires Holds(Landed(net, at, packet), node, s) && Forged(Landed(net, at, packet), node, s)
    ensures Forged(net, node, s)
  {
    var after := Landed(net, at, packet);
    LandedKeeps(net, at, packet, node, s);
    if i: nat :| FalseAck(after, node, s, i) {
      LandedLetters(net, at, packet, after.desks[node].ledger[s].dst);
      assert FalseAck(net, node, s, i);
    } else {
      var i: nat :| FalseNumber(after, node, s, i);
      LandedLetters(net, at, packet, node);
      assert FalseNumber(net, node, s, i);
    }
  }

  lemma AnswerBefore(net: Net, at: NodeId, packet: Packet, from: NodeId, to: NodeId, id: nat)
    requires Honest(net) && MayLand(net, at, packet) && from in net.desks && from in Landed(net, at, packet).desks
    requires AckLeft(Landed(net, at, packet), from, to, id) || TakesLater(Landed(net, at, packet).desks[from].post)
    ensures AckLeft(net, from, to, id) || TakesLater(net.desks[from].post)
  {
    var after := Landed(net, at, packet);
    LandedLetters(net, at, packet, from);
    if i: nat :| Acks(after, from, to, id, i) {
      if i < |net.desks[from].post.outbox| {
        assert Acks(net, from, to, id, i);
      }
    }
  }

  lemma ForgeableBefore(net: Net, at: NodeId, packet: Packet, node: NodeId, s: nat)
    requires Honest(net) && MayLand(net, at, packet) && Holds(net, node, s)
    requires Holds(Landed(net, at, packet), node, s) && Forgeable(Landed(net, at, packet), node, s)
    ensures Forgeable(net, node, s)
  {
    LandedKeeps(net, at, packet, node, s);
    ForgedBefore(net, at, packet, node, s);
    AnswerBefore(net, at, packet, net.desks[node].ledger[s].dst, node, net.desks[node].ledger[s].id);
  }

  lemma MistakenNow(net: Net, node: NodeId, s: nat)
    requires Honest(net) && Mistaken(net, node, s) && net.desks[node].drawn < ID_LIMIT
    ensures Forgeable(net, node, s)
  {
    var request := net.desks[node].ledger[s];
    assert Earned(net, node, s);
    var i: nat :| Acks(net, request.dst, node, request.id, i);
    AckExplained(net, node, s, i);
  }

  lemma FirstLanding(net: Net, node: NodeId, s: nat, n: nat) returns (at: NodeId, packet: Packet)
    requires n > 0 && MistakenIn(net, node, s, n)
    ensures MayLand(net, at, packet) && MistakenIn(Landed(net, at, packet), node, s, n - 1)
  {
    at, packet :| MayLand(net, at, packet) && MistakenIn(Landed(net, at, packet), node, s, n - 1);
  }

  lemma {:induction false} MistakenWasForged(net: Net, node: NodeId, s: nat, n: nat)
    requires Honest(net) && Holds(net, node, s) && net.desks[node].drawn < ID_LIMIT && MistakenIn(net, node, s, n)
    ensures Forgeable(net, node, s)
    decreases n
  {
    if n == 0 {
      MistakenNow(net, node, s);
    } else {
      var at, packet := FirstLanding(net, node, s, n);
      LandedKeeps(net, at, packet, node, s);
      MistakenWasForged(Landed(net, at, packet), node, s, n - 1);
      ForgeableBefore(net, at, packet, node, s);
    }
  }

  // ---- what was forged can be completed unread ----

  /** A request that waits, of a node that drew fewer than 2^32 ids, and that its destination did not read. */
  ghost predicate Open(net: Net, node: NodeId, s: nat) {
    && Holds(net, node, s) && net.desks[node].drawn < ID_LIMIT
    && net.desks[node].ledger[s].fate.Waiting? && !WasRead(net, node, s)
  }

  /** The acknowledgement a waiting request hears completes that request. */
  lemma AckCompletes(d: Desk, s: nat)
    requires Sane(d) && s < |d.ledger| && d.ledger[s].fate.Waiting? && d.drawn < ID_LIMIT
    ensures var after := OnAck(d, d.ledger[s].dst, d.ledger[s].id);
      s < |after.ledger| && after.ledger[s].fate.Completed? && after.post.inbox == d.post.inbox
  {
    assert Accounted(d, s);
    var entry := d.ledger[s];
    var home := entry.fate.slot;
    assert Backed(d, home);
    FoundBy(d.slots, entry.dst, entry.id, home);
    var k := FirstAnswered(d.slots, entry.dst, entry.id);
    assert Backed(d, k);
    IdsAreUnique(d, s, d.slots[k].serial);
  }

  lemma {:induction false} FoundBy(slots: seq<Slot>, src: NodeId, id: nat, k: nat)
    requires k < |slots| && Answers(slots[k], src, id)
    ensures FirstAnswered(slots, src, id) <= k
  {
    if k > 0 && !Answers(slots[0], src, id) {
      FoundBy(slots[1..], src, id, k - 1);
    }
  }

  /** An acknowledgement in the air completes the open request by one arrival. */
  lemma AckLands(net: Net, node: NodeId, s: nat)
    requires Honest(net) && Open(net, node, s)
    requires var request := net.desks[node].ledger[s];
      request.dst != node && node != BROADCAST && AckLeft(net, request.dst, node, request.id)
    ensures MistakenIn(net, node, s, 1)
  {
    var d, request := net.desks[node], net.desks[node].ledger[s];
    var i: nat :| Acks(net, request.dst, node, request.id, i);
    assert Aired(net, request.dst, i) && NodeSane(net, node) && Drew(d, s);
    var packet := Packet(request.dst, node, Sealed(net.desks[request.dst].post.outbox[i].envelope));
    assert MayLand(net, node, packet);
    CountedKeeps(d, Received(d));
    AckCompletes(Received(d), s);
    LandedKeeps(net, node, packet, node, s);
    StillUnread(net, node, packet, node, s);
    OneArrivalMore(net, node, packet, node, s, 0);
  }

  /** An arrival the request's destination does not read as the request leaves it unread. */
  lemma StillUnread(net: Net, at: NodeId, packet: Packet, node: NodeId, s: nat)
    requires Honest(net) && MayLand(net, at, packet) && Holds(net, node, s) && !WasRead(net, node, s)
    requires at == net.desks[node].ledger[s].dst && packet.payload.Sealed? ==> packet.payload.envelope != net.desks[node].ledger[s].envelope
    ensures Holds(Landed(net, at, packet), node, s) && !WasRead(Landed(net, at, packet), node, s)
  {
    var after := Landed(net, at, packet);
    LandedKeeps(net, at, packet, node, s);
    assert NodeSane(net, at);
    PayloadReads(net.desks[at], packet.src, packet.payload, NO_REPLY);
    if j: nat :| ReadAs(after, node, s, j) {
      if j < |net.desks[net.desks[node].ledger[s].dst].post.inbox| {
        assert ReadAs(net, node, s, j);
      }
      assert false;
    }
  }

  /** The plain send under the request's number arrives where it was addressed. */
  function Knock(net: Net, node: NodeId, s: nat, i: nat): Packet
    requires Holds(net, node, s) && FalseNumber(net, node, s, i)
  {
    Packet(node, net.desks[node].ledger[s].dst, Sealed(net.desks[node].post.outbox[i].envelope))
  }

  /** Its arrival leaves the request open, and is answered if the transport takes the answer. */
  lemma KnockLands(net: Net, node: NodeId, s: nat, i: nat)
    requires Honest(net) && Open(net, node, s) && FalseNumber(net, node, s, i)
    requires var dst := net.desks[node].ledger[s].dst; dst in net.desks && dst != node && node != BROADCAST
    ensures var dst, knock := net.desks[node].ledger[s].dst, Knock(net, node, s, i);
      && MayLand(net, dst, knock)
      && var after := Landed(net, dst, knock);
      && Honest(after) && Open(after, node, s) && FalseNumber(after, node, s, i)
      && after.desks[node] == net.desks[node] && dst in after.desks
      && |after.desks[dst].post.offered| == |net.desks[dst].post.offered| + 1
      && after.desks[dst].post.takes == net.desks[dst].post.takes
      && (Takes(net.desks[dst].post) ==> AckLeft(after, dst, node, net.desks[node].ledger[s].id))
  {
    var d, request := net.desks[node], net.desks[node].ledger[s];
    var peer, knock := net.desks[request.dst], Knock(net, node, s, i);
    assert Aired(net, node, i) && NodeSane(net, node) && NodeSane(net, request.dst) && Drew(d, s);
    NextIdOf(request.draw - 1);
    var after := Landed(net, request.dst, knock);
    LandedKeeps(net, request.dst, knock, node, s);
    SilentPayload(peer, node, knock.payload);
    StillUnread(net, request.dst, knock, node, s);
    if Takes(peer.post) {
      assert Acks(after, request.dst, node, request.id, |peer.post.outbox|);
    }
  }

  /** An open request, a plain send under its number, and the destination to send it to. */
  ghost predicate Knockable(net: Net, node: NodeId, s: nat, i: nat) {
    && Honest(net) && Open(net, node, s) && FalseNumber(net, node, s, i)
    && var dst := net.desks[node].ledger[s].dst;
    && dst in net.desks && dst != node && node != BROADCAST
  }

  /** The sends the destination was asked to make so far. */
  function Offers(net: Net, node: NodeId, s: nat): Post
    requires Holds(net, node, s) && net.desks[node].ledger[s].dst in net.desks
  {
    net.desks[net.desks[node].ledger[s].dst].post
  }

  /** Knocking once more leaves everything as it was but for one send of the destination; a taken one completes. */
  lemma KnockOnce(net: Net, node: NodeId, s: nat, i: nat) returns (after: Net)
    requires Knockable(net, node, s, i)
    ensures forall n: nat :: MistakenIn(after, node, s, n) ==> MistakenIn(net, node, s, n + 1)
    ensures Knockable(after, node, s, i)
    ensures |Offers(after, node, s).offered| == |Offers(net, node, s).offered| + 1 && Offers(after, node, s).takes == Offers(net, node, s).takes
    ensures Takes(Offers(net, node, s)) ==> MistakenIn(after, node, s, 1)
  {
    var dst, knock := net.desks[node].ledger[s].dst, Knock(net, node, s, i);
    KnockLands(net, node, s, i);
    after := Landed(net, dst, knock);
    forall n: nat | MistakenIn(after, node, s, n) ensures MistakenIn(net, node, s, n + 1) {
      OneArrivalMore(net, dst, knock, node, s, n);
    }
    if Takes(net.desks[dst].post) {
      AckLands(after, node, s);
    }
  }

  /** Knocking until the transport takes the answer completes the open request. */
  lemma {:induction false} KnocksComplete(net: Net, node: NodeId, s: nat, i: nat, m: nat) returns (n: nat)
    requires Knockable(net, node, s, i) && |Offers(net, node, s).offered| <= m && Offers(net, node, s).takes(m)
    ensures MistakenIn(net, node, s, n)
    ensures n <= m - |Offers(net, node, s).offered| + 2
    decreases m - |Offers(net, node, s).offered|
  {
    var after := KnockOnce(net, node, s, i);
    if Takes(Offers(net, node, s)) {
      n := 1;
    } else {
      n := KnocksComplete(after, node, s, i, m);
    }
    n := n + 1;
  }

  lemma OneArrivalMore(net: Net, at: NodeId, packet: Packet, node: NodeId, s: nat, n: nat)
    requires MayLand(net, at, packet) && MistakenIn(Landed(net, at, packet), node, s, n)
    ensures MistakenIn(net, node, s, n + 1)
  {
  }

  lemma ForgeableCompletes(net: Net, node: NodeId, s: nat)
    requires Honest(net) && Open(net, node, s) && Forgeable(net, node, s)
    ensures CanBeMistaken(net, node, s)
  {
    var request := net.desks[node].ledger[s];
    if AckLeft(net, request.dst, node, request.id) {
      AckLands(net, node, s);
    } else {
      var m: nat :| |net.desks[request.dst].post.offered| <= m && net.desks[request.dst].post.takes(m);
      assert forall i: nat :: FalseAck(net, node, s, i) ==> Acks(net, request.dst, node, request.id, i);
      var i: nat :| FalseNumber(net, node, s, i);
      var n := KnocksComplete(net, node, s, i, m);
    }
  }

  // ---- exactly then ----

  /**
   * Over every run, a waiting request that its destination has not read can come to be counted
   * completed while it is still unread, by arrivals alone, exactly if its acknowledgement or its
   * number was forged and an answer has left or can leave. One arrival does it if the answer is in
   * the air, two if the transport of the destination takes the next send.
   */
  lemma MistakenExactlyIfForged(trace: seq<Net>, happenings: seq<Happening>, i: nat, node: NodeId, s: nat)
    requires Exchange(trace, happenings) && i < |trace| && Open(trace[i], node, s)
    ensures CanBeMistaken(trace[i], node, s) <==> Forgeable(trace[i], node, s)
    ensures var net := trace[i]; var request := net.desks[node].ledger[s];
      Forgeable(net, node, s) ==>
        && (AckLeft(net, request.dst, node, request.id) ==> MistakenIn(net, node, s, 1))
        && (!AckLeft(net, request.dst, node, request.id) && Takes(net.desks[request.dst].post) ==> MistakenIn(net, node, s, 2))
  {
    ExchangesAreHonest(trace, happenings, i);
    var net := trace[i];
    if CanBeMistaken(net, node, s) {
      var n: nat :| MistakenIn(net, node, s, n);
      MistakenWasForged(net, node, s, n);
    }
    if Forgeable(net, node, s) {
      ForgeableCompletes(net, node, s);
      QuickForgery(net, node, s);
    }
  }

  lemma QuickForgery(net: Net, node: NodeId, s: nat)
    requires Honest(net) && Open(net, node, s) && Forgeable(net, node, s)
    ensures var request := net.desks[node].ledger[s];
      && (AckLeft(net, request.dst, node, request.id) ==> MistakenIn(net, node, s, 1))
      && (!AckLeft(net, request.dst, node, request.id) && Takes(net.desks[request.dst].post) ==> MistakenIn(net, node, s, 2))
  {
    var request := net.desks[node].ledger[s];
    if AckLeft(net, request.dst, node, request.id) {
      AckLands(net, node, s);
    } else if Takes(net.desks[request.dst].post) {
      assert forall i: nat :: FalseAck(net, node, s, i) ==> Acks(net, request.dst, node, request.id, i);
      var i: nat :| FalseNumber(net, node, s, i);
      KnockLands(net, node, s, i);
      AckLands(Landed(net, request.dst, Knock(net, node, s, i)), node, s);
      OneArrivalMore(net, request.dst, Knock(net, node, s, i), node, s, 1);
    }
  }

  // ---- a run in which it happens ----

  const LOST := Envelope(5, 1, 0)
  const FORGED := Envelope(6, 1, 0)
  const ASK := Ask(2, 5, 0, 0, Policy(0, 0), true, true)

  /** The asking node, whose transport refuses the first send, and the asked one. */
  function Asking(): Desk {
    Opening(1, _ => [], (n: nat) => n > 0)
  }

  function Asked(): Desk {
    Opening(1, _ => [], _ => true)
  }

  function Start(): Net {
    Net(map[1 := Asking(), 2 := Asked()], {})
  }

  lemma RequestIsLost()
    ensures var d := Request(Asking(), ASK);
      && d.slots == [Slot(true, 0, 2, 1, LOST, 0, Policy(0, 0), 0, 1)] && d.drawn == 1
      && d.ledger == [Entry(2, 0, 1, 1, LOST, 0, Waiting(0), 1, 0)]
      && d.post == Asking().post.(offered := [Letter(2, LOST, Requested(0))])
  {
  }

  lemma ForgedIsSent()
    ensures var d := MessengerRuns.Send(Request(Asking(), ASK), 2, FORGED, true);
      && d.post.outbox == [Letter(2, FORGED, Said)] && d.post.inbox == [] && d.drawn == 1
      && d.ledger == [Entry(2, 0, 1, 1, LOST, 0, Waiting(0), 1, 0)]
  {
    RequestIsLost();
  }

  function Lost(): Net {
    Next(Start(), Acts(1, Asks(ASK)))
  }

  function Posed(): Net {
    Next(Lost(), Acts(1, Says(2, FORGED, true)))
  }

  lemma PosedIsForgeable()
    ensures Open(Posed(), 1, 0) && Forgeable(Posed(), 1, 0)
    ensures Posed().desks[1].ledger[0].dst == 2 && Posed().desks[1].ledger[0].id == 1
    ensures 2 in Posed().desks && !AckLeft(Posed(), 2, 1, 1) && Takes(Posed().desks[2].post)
  {
    ForgedIsSent();
    var net := Posed();
    assert net.desks[1] == MessengerRuns.Send(Request(Asking(), ASK), 2, FORGED, true) && net.desks[2] == Asked();
    assert FalseNumber(net, 1, 0, 0);
    assert Takes(net.desks[2].post) && TakesLater(net.desks[2].post);
  }

  lemma PosedIsReached()
    ensures Exchange([Start(), Lost(), Posed()], [Acts(1, Asks(ASK)), Acts(1, Says(2, FORGED, true))])
  {
    forall i: nat ensures Passes([Start(), Lost(), Posed()], [Acts(1, Asks(ASK)), Acts(1, Says(2, FORGED, true))], i) {
    }
  }

  /**
   * A plain send passes the id of its envelope on. A request whose own send was lost, then a plain
   * message under the same number: two arrivals later the request is counted completed, and the
   * node it named never read it.
   */
  lemma ForgedIdCompletes() returns (trace: seq<Net>, happenings: seq<Happening>)
    ensures Exchange(trace, happenings) && |happenings| == 2 && trace[0] == Start()
    ensures Open(trace[2], 1, 0) && MistakenIn(trace[2], 1, 0, 2)
  {
    happenings := [Acts(1, Asks(ASK)), Acts(1, Says(2, FORGED, true))];
    trace := [Start(), Lost(), Posed()];
    PosedIsReached();
    PosedIsForgeable();
    MistakenExactlyIfForged(trace, happenings, 2, 1, 0);
  }
}
