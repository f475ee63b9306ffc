/**
 * Messengers exchanging packets over a channel that loses, repeats, reorders and delays: a request
 * counted completed was read and decoded by the node it named, unless an application forged its id
 * or its acknowledgement.
 */
module MessengerNet {
  import opened Bytes
  import opened TransportNode
  import opened MessengerDesk
  import opened MessengerRuns
  import opened MessengerNews

  /** A payload on its way from one node to another. */
  datatype Packet = Packet(src: NodeId, dst: NodeId, payload: Payload)

  /** The messengers, and every packet that ever left: any of them may arrive at any time, any number of times, or never. */
  datatype Net = Net(desks: map<NodeId, Desk>, air: set<Packet>)

  /**
   * A messenger acts on its own; a packet arrives at a node and is handled there; something
   * that is no envelope is put on the channel.
   */
  datatype Happening =
    | Acts(node: NodeId, ev: Event)
    | Arrives(at: NodeId, packet: Packet, reply: Reply)
    | Strays(noise: Packet)

  /** The transport hands a frame to the application only if it names this node or everyone, and is not its own. */
  predicate Reaches(self: NodeId, packet: Packet) {
    && packet.src != self && packet.src != BROADCAST
    && (packet.dst == self || packet.dst == BROADCAST)
  }

  /** That is the transport's own test: whatever it delivers reaches. */
  lemma DeliveredReaches(t: Station, frame: Frame, link: nat, from: nat, now: nat, payload: Payload)
    requires t.bootId < WORD_LIMIT && OnFrame(t, frame, link, from, now).delivered
    ensures Reaches(t.self, Packet(frame.src, frame.dst, payload))
  {
  }

  predicate Enabled(net: Net, h: Happening) {
    match h
    case Acts(node, ev) => node in net.desks && !ev.Receives?
    case Arrives(at, packet, _) => at in net.desks && packet in net.air && Reaches(at, packet)
    case Strays(noise) => noise.payload.Garbled?
  }

  /** What a node has put on the channel. */
  function Posts(node: NodeId, d: Desk): set<Packet> {
    set i | 0 <= i < |d.post.outbox| :: Packet(node, d.post.outbox[i].dst, Sealed(d.post.outbox[i].envelope))
  }

  /** One messenger moves on, and what it sent meanwhile is in the air. */
  function Moved(net: Net, node: NodeId, ev: Event): Net
    requires node in net.desks
  {
    var after := Step(net.desks[node], ev);
    Net(net.desks[node := after], net.air + Posts(node, after))
  }

  function Next(net: Net, h: Happening): Net
    requires Enabled(net, h)
  {
    match h
    case Acts(node, ev) => Moved(net, node, ev)
    case Arrives(at, packet, reply) => Moved(net, at, Receives(packet.src, packet.payload, reply))
    case Strays(noise) => net.(air := net.air + {noise})
  }

  // ---- the invariant ----

  ghost predicate NodeSane(net: Net, node: NodeId) {
    node in net.desks ==> Sane(net.desks[node])
  }

  predicate SentAs(net: Net, packet: Packet, i: nat) {
    && packet.src in net.desks
    && i < |net.desks[packet.src].post.outbox|
    && var letter := net.desks[packet.src].post.outbox[i];
    && letter.dst == packet.dst && Sealed(letter.envelope) == packet.payload
  }

  /** An envelope in the air was sent by its source. */
  ghost predicate Sent(net: Net, packet: Packet) {
    packet in net.air && packet.payload.Sealed? ==> exists i: nat :: SentAs(net, packet, i)
  }

  /** Mail that was read came in a packet addressed to its reader. */
  predicate Delivered(net: Net, at: NodeId, j: nat) {
    at in net.desks && j < |net.desks[at].post.inbox| ==>
      && var mail := net.desks[at].post.inbox[j];
      && mail.src != BROADCAST && mail.envelope.tag != ACK_TAG
      && Packet(mail.src, at, Sealed(mail.envelope)) in net.air
  }

  /** The node read a message of that id from that node. */
  predicate Got(net: Net, at: NodeId, from: NodeId, id: nat, j: nat) {
    && at in net.desks && j < |net.desks[at].post.inbox|
    && net.desks[at].post.inbox[j].src == from && net.desks[at].post.inbox[j].envelope.id == id
  }

  /** An acknowledgement of that id left that node for that other. */
  predicate Acks(net: Net, from: NodeId, to: NodeId, id: nat, i: nat) {
    && from in net.desks && i < |net.desks[from].post.outbox|
    && var letter := net.desks[from].post.outbox[i];
    && letter.dst == to && letter.envelope.tag == ACK_TAG && letter.envelope.id == id
  }

  ghost predicate AckLeft(net: Net, from: NodeId, to: NodeId, id: nat) {
    exists i: nat :: Acks(net, from, to, id, i)
  }

  /** What left a node is in the air. */
  predicate Aired(net: Net, node: NodeId, i: nat) {
    node in net.desks && i < |net.desks[node].post.outbox| ==>
      Packet(node, net.desks[node].post.outbox[i].dst, Sealed(net.desks[node].post.outbox[i].envelope)) in net.air
  }

  /** A completed request named another node, and an acknowledgement of its id left that node. */
  ghost predicate Earned(net: Net, node: NodeId, s: nat) {
    node in net.desks && s < |net.desks[node].ledger| && net.desks[node].ledger[s].fate.Completed? ==>
      && var request := net.desks[node].ledger[s];
      && request.dst != node && node != BROADCAST
      && AckLeft(net, request.dst, node, request.id)
  }

  ghost predicate Honest(net: Net) {
    && (forall node: NodeId {:trigger NodeSane(net, node)} :: NodeSane(net, node))
    && (forall packet: Packet {:trigger Sent(net, packet)} :: Sent(net, packet))
    && (forall node: NodeId, i: nat {:trigger Aired(net, node, i)} :: Aired(net, node, i))
    && (forall at: NodeId, j: nat {:trigger Delivered(net, at, j)} :: Delivered(net, at, j))
    && (forall node: NodeId, s: nat {:trigger Earned(net, node, s)} :: Earned(net, node, s))
  }

  // ---- every happening keeps it ----

  /** The other desks stay, this one goes onward, and nothing leaves the air. */
  ghost predicate Later(net: Net, after: Net, node: NodeId) {
    && node in net.desks && node in after.desks
    && after.desks == net.desks[node := after.desks[node]]
    && net.air <= after.air
    && Onward(net.desks[node], after.desks[node], true)
  }

  lemma AckStays(net: Net, after: Net, node: NodeId, from: NodeId, to: NodeId, id: nat)
    requires Later(net, after, node) && AckLeft(net, from, to, id)
    ensures AckLeft(after, from, to, id)
  {
    var i: nat :| Acks(net, from, to, id, i);
    assert Acks(after, from, to, id, i);
  }

  lemma SentStays(net: Net, after: Net, node: NodeId, packet: Packet, i: nat)
    requires Later(net, after, node) && SentAs(net, packet, i)
    ensures SentAs(after, packet, i)
  {
  }

  /** A packet that carries an envelope is not addressed to everyone, and what it says has its cause. */
  lemma PacketCause(net: Net, packet: Packet) returns (i: nat)
    requires Honest(net) && packet in net.air && packet.payload.Sealed?
    ensures SentAs(net, packet, i) && packet.dst != BROADCAST
    ensures var d := net.desks[packet.src]; Caused(d.ledger, d.post.inbox, d.post.outbox[i])
  {
    assert Sent(net, packet) && NodeSane(net, packet.src);
    i :| SentAs(net, packet, i);
    var d := net.desks[packet.src];
    assert Posted(d, i);
    match d.post.outbox[i].cause
    case Requested(rank) => assert Drew(d, rank);
    case Answered(rank) => assert Delivered(net, packet.src, rank);
    case Said =>
  }

  /**
   * An acknowledgement in the air left its source, and unless an application wrote it, for a
   * message of its id that its source read from its destination.
   */
  lemma AckIsVouched(net: Net, packet: Packet) returns (i: nat)
    requires Honest(net) && packet in net.air && packet.payload.Sealed? && packet.payload.envelope.tag == ACK_TAG
    ensures Acks(net, packet.src, packet.dst, packet.payload.envelope.id, i)
    ensures var cause := net.desks[packet.src].post.outbox[i].cause;
      cause.Answered? ==> Got(net, packet.src, packet.dst, packet.payload.envelope.id, cause.mail)
  {
    i := PacketCause(net, packet);
  }

  /** A message in the air that is no acknowledgement is a request of its source to its destination, or a plain send. */
  lemma MessageIsSent(net: Net, packet: Packet) returns (i: nat)
    requires Honest(net) && packet in net.air && packet.payload.Sealed? && packet.payload.envelope.tag != ACK_TAG
    ensures SentAs(net, packet, i)
    ensures var d := net.desks[packet.src];
      var cause := d.post.outbox[i].cause;
      && !cause.Answered?
      && (cause.Requested? ==>
            cause.rank < |d.ledger| && d.ledger[cause.rank].dst == packet.dst && Sealed(d.ledger[cause.rank].envelope) == packet.payload)
  {
    i := PacketCause(net, packet);
  }

  lemma MovedLater(net: Net, node: NodeId, ev: Event)
    requires Honest(net) && node in net.desks
    ensures Later(net, Moved(net, node, ev), node) && Sane(Step(net.desks[node], ev))
  {
    assert NodeSane(net, node);
    StepProceeds(net.desks[node], ev);
    OnwardAcked(net.desks[node], Step(net.desks[node], ev), HearsAck(ev));
  }

  lemma MovedSane(net: Net, node: NodeId, ev: Event)
    requires Honest(net) && node in net.desks
    ensures var after := Moved(net, node, ev);
      && (forall n: NodeId {:trigger NodeSane(after, n)} :: NodeSane(after, n))
      && (forall packet: Packet {:trigger Sent(after, packet)} :: Sent(after, packet))
  {
    var after := Moved(net, node, ev);
    MovedLater(net, node, ev);
    forall n: NodeId ensures NodeSane(after, n) {
      assert NodeSane(net, n);
    }
    forall packet: Packet ensures Sent(after, packet) {
      assert Sent(net, packet);
      if packet in net.air && packet.payload.Sealed? {
        var i: nat :| SentAs(net, packet, i);
        SentStays(net, after, node, packet, i);
      } else if packet in Posts(node, after.desks[node]) {
        var i: nat :| i < |after.desks[node].post.outbox| &&
          packet == Packet(node, after.desks[node].post.outbox[i].dst, Sealed(after.desks[node].post.outbox[i].envelope));
        assert SentAs(after, packet, i);
      }
    }
  }

  lemma MovedAired(net: Net, node: NodeId, ev: Event)
    requires Honest(net) && node in net.desks
    ensures var after := Moved(net, node, ev);
      forall n: NodeId, i: nat {:trigger Aired(after, n, i)} :: Aired(after, n, i)
  {
    var after := Moved(net, node, ev);
    forall n: NodeId, i: nat ensures Aired(after, n, i) {
      assert Aired(net, n, i);
    }
  }

  /** What was read and earned before stays so. */
  lemma OldStays(net: Net, after: Net, node: NodeId)
    requires Honest(net) && Later(net, after, node)
    ensures forall at: NodeId, j: nat {:trigger Delivered(after, at, j)} ::
      at in net.desks && j < |net.desks[at].post.inbox| ==> Delivered(after, at, j)
    ensures forall n: NodeId, s: nat {:trigger Earned(after, n, s)} ::
      n in net.desks && s < |net.desks[n].ledger| && net.desks[n].ledger[s].fate.Completed? ==> Earned(after, n, s)
  {
    forall at: NodeId, j: nat | at in net.desks && j < |net.desks[at].post.inbox| ensures Delivered(after, at, j) {
      assert Delivered(net, at, j);
    }
    forall n: NodeId, s: nat | n in net.desks && s < |net.desks[n].ledger| && net.desks[n].ledger[s].fate.Completed?
      ensures Earned(after, n, s)
    {
      assert Earned(net, n, s);
      if n == node {
        assert Carried(net.desks[n].ledger, after.desks[n].ledger, s, true);
      }
      AckStays(net, after, node, net.desks[n].ledger[s].dst, n, net.desks[n].ledger[s].id);
    }
  }

  lemma ActsKeeps(net: Net, node: NodeId, ev: Event)
    requires Honest(net) && Enabled(net, Acts(node, ev))
    ensures Honest(Next(net, Acts(node, ev)))
  {
    var after := Moved(net, node, ev);
    MovedLater(net, node, ev);
    MovedSane(net, node, ev);
    MovedAired(net, node, ev);
    OldStays(net, after, node);
    assert NodeSane(net, node);
    StepProceeds(net.desks[node], ev);
    ActsRead(net.desks[node], ev);
    forall n: NodeId, s: nat ensures Earned(after, n, s) {
      if n == node && s < |after.desks[n].ledger| {
        assert Carried(net.desks[n].ledger, after.desks[n].ledger, s, false);
      }
    }
    forall at: NodeId, j: nat ensures Delivered(after, at, j) {
    }
  }

  /** Nothing but an arrival is read. */
  lemma ActsRead(d: Desk, ev: Event)
    requires Sane(d) && !ev.Receives?
    ensures Step(d, ev).post.inbox == d.post.inbox
  {
    match ev
    case Asks(ask) => RequestProceeds(d, ask);
    case Says(dst, envelope, encodes) => SendProceeds(d, dst, envelope, encodes);
    case Detaches(owner) => DetachProceeds(d, owner);
    case Ticks(now, react) => TickProceeds(d, 0, now, react);
    case GainsNode(id, react) => NotifyKeeps(d, 0, Up(id), react);
    case LosesNode(id, failing, react) => NodeLostKeeps(d, id, failing, react);
    case _ =>
  }

  /** What a payload adds to the mail of a desk. */
  lemma PayloadReads(d: Desk, src: NodeId, payload: Payload, reply: Reply)
    requires Sane(d)
    ensures OnPayload(d, src, payload, reply).post.inbox ==
      d.post.inbox + (if payload.Sealed? && payload.envelope.tag != ACK_TAG then [Mail(src, payload.envelope)] else [])
  {
    if payload.Sealed? && payload.envelope.tag != ACK_TAG {
      AcknowledgedBeforeDispatch(d, src, payload.envelope, reply);
    }
  }

  /** What a payload completes: at most the one request an acknowledgement answers. */
  lemma PayloadCompletes(d: Desk, src: NodeId, payload: Payload, reply: Reply, s: nat)
    requires Sane(d) && s < |OnPayload(d, src, payload, reply).ledger|
    requires OnPayload(d, src, payload, reply).ledger[s].fate.Completed?
    ensures s < |d.ledger|
    ensures !d.ledger[s].fate.Completed? ==>
      && payload.Sealed? && payload.envelope.tag == ACK_TAG
      && d.ledger[s].dst == src && d.ledger[s].id == payload.envelope.id
  {
    var after := OnPayload(d, src, payload, reply);
    PayloadKeeps(d, src, payload, reply);
    if payload.Sealed? && payload.envelope.tag == ACK_TAG {
      CountedKeeps(d, Received(d));
      AckCompletesAtMostOne(Received(d), src, payload.envelope.id);
    } else {
      assert Carried(d.ledger, after.ledger, s, false);
    }
  }

  lemma ArrivesKeeps(net: Net, at: NodeId, packet: Packet, reply: Reply)
    requires Honest(net) && Enabled(net, Arrives(at, packet, reply))
    ensures Honest(Next(net, Arrives(at, packet, reply)))
  {
    var ev := Receives(packet.src, packet.payload, reply);
    var after := Moved(net, at, ev);
    MovedLater(net, at, ev);
    MovedSane(net, at, ev);
    MovedAired(net, at, ev);
    OldStays(net, after, at);
    forall n: NodeId, j: nat ensures Delivered(after, n, j) {
      if n == at {
        ArrivalReads(net, at, packet, reply, j);
      }
    }
    forall n: NodeId, s: nat ensures Earned(after, n, s) {
      if n == at {
        ArrivalEarns(net, at, packet, reply, s);
      }
    }
  }

  /** What an arrival adds to the mail came in its packet, which named the reader. */
  lemma ArrivalReads(net: Net, at: NodeId, packet: Packet, reply: Reply, j: nat)
    requires Honest(net) && Enabled(net, Arrives(at, packet, reply))
    ensures Delivered(Next(net, Arrives(at, packet, reply)), at, j)
  {
    assert NodeSane(net, at) && Delivered(net, at, j);
    PayloadReads(net.desks[at], packet.src, packet.payload, reply);
    if packet.payload.Sealed? {
      var _ := PacketCause(net, packet);
    }
  }

  /** A request completed by an arrival is answered by a packet its destination vouches for. */
  lemma ArrivalEarns(net: Net, at: NodeId, packet: Packet, reply: Reply, s: nat)
    requires Honest(net) && Enabled(net, Arrives(at, packet, reply))
    ensures Earned(Next(net, Arrives(at, packet, reply)), at, s)
  {
    var ev := Receives(packet.src, packet.payload, reply);
    var d, after := net.desks[at], Moved(net, at, ev);
    if s < |after.desks[at].ledger| && after.desks[at].ledger[s].fate.Completed? {
      MovedLater(net, at, ev);
      assert NodeSane(net, at);
      PayloadCompletes(d, packet.src, packet.payload, reply, s);
      assert Carried(d.ledger, after.desks[at].ledger, s, true);
      if d.ledger[s].fate.Completed? {
        assert Earned(net, at, s);
      } else {
        var _ := PacketCause(net, packet);
        var _ := AckIsVouched(net, packet);
      }
      AckStays(net, after, at, d.ledger[s].dst, at, d.ledger[s].id);
    }
  }

  lemma StraysKeeps(net: Net, noise: Packet)
    requires Honest(net) && Enabled(net, Strays(noise))
    ensures Honest(Next(net, Strays(noise)))
  {
    var after := Next(net, Strays(noise));
    forall n: NodeId ensures NodeSane(after, n) {
      assert NodeSane(net, n);
    }
    forall packet: Packet ensures Sent(after, packet) {
      assert Sent(net, packet);
      if packet in net.air && packet.payload.Sealed? {
        var i: nat :| SentAs(net, packet, i);
        assert SentAs(after, packet, i);
      }
    }
    forall n: NodeId, i: nat ensures Aired(after, n, i) {
      assert Aired(net, n, i);
    }
    forall n: NodeId, j: nat ensures Delivered(after, n, j) {
      assert Delivered(net, n, j);
    }
    forall n: NodeId, s: nat ensures Earned(after, n, s) {
      assert Earned(net, n, s);
      if n in net.desks && s < |net.desks[n].ledger| && net.desks[n].ledger[s].fate.Completed? {
        var i: nat :| Acks(net, net.desks[n].ledger[s].dst, n, net.desks[n].ledger[s].id, i);
        assert Acks(after, net.desks[n].ledger[s].dst, n, net.desks[n].ledger[s].id, i);
      }
    }
  }

  /** Every happening keeps every packet sent, every mail addressed to its reader and every completion earned. */
  lemma NextKeepsHonest(net: Net, h: Happening)
    requires Honest(net) && Enabled(net, h)
    ensures Honest(Next(net, h))
  {
    match h
    case Acts(node, ev) => ActsKeeps(net, node, ev);
    case Arrives(at, packet, reply) => ArrivesKeeps(net, at, packet, reply);
    case Strays(noise) => StraysKeeps(net, noise);
  }

  // ---- whole runs ----

  ghost predicate Passes(trace: seq<Net>, happenings: seq<Happening>, i: nat) {
    i < |happenings| && i + 1 < |trace| ==>
      Enabled(trace[i], happenings[i]) && trace[i + 1] == Next(trace[i], happenings[i])
  }

  /** Messengers start fresh on an empty channel, and none restarts on the way. */
  ghost predicate Exchange(trace: seq<Net>, happenings: seq<Happening>) {
    && |trace| == |happenings| + 1
    && trace[0].air == {}
    && (forall node :: node in trace[0].desks ==> Fresh(trace[0].desks[node]))
    && (forall i: nat {:trigger Passes(trace, happenings, i)} :: Passes(trace, happenings, i))
  }

  lemma FreshIsHonest(net: Net)
    requires net.air == {} && forall node :: node in net.desks ==> Fresh(net.desks[node])
    ensures Honest(net)
  {
    forall node: NodeId ensures NodeSane(net, node) {
      if node in net.desks {
        FreshIsSane(net.desks[node]);
      }
    }
    forall n: NodeId, i: nat ensures Aired(net, n, i) {
    }
    forall n: NodeId, j: nat ensures Delivered(net, n, j) {
    }
    forall n: NodeId, s: nat ensures Earned(net, n, s) {
    }
  }

  lemma {:induction false} ExchangesAreHonest(trace: seq<Net>, happenings: seq<Happening>, i: nat)
    requires Exchange(trace, happenings) && i < |trace|
    ensures Honest(trace[i])
  {
    if i == 0 {
      FreshIsHonest(trace[0]);
    } else {
      ExchangesAreHonest(trace, happenings, i - 1);
      assert Passes(trace, happenings, i - 1);
      NextKeepsHonest(trace[i - 1], happenings[i - 1]);
    }
  }

  /** The first 2^32 - 1 ids drawn are all different. */
  lemma FirstRound(n: nat)
    requires 1 <= n < ID_LIMIT
    ensures IdOf(n) == n
  {
  }

  /** Two requests of one ledger share no id before the counter wraps. */
  lemma IdsAreUnique(d: Desk, s: nat, t: nat)
    requires Sane(d) && s < |d.ledger| && t < |d.ledger| && d.ledger[s].id == d.ledger[t].id && d.drawn < ID_LIMIT
    ensures s == t
  {
    assert Drew(d, s) && Drew(d, t) && Ordered(d, s, t) && Ordered(d, t, s);
    FirstRound(d.ledger[s].draw);
    FirstRound(d.ledger[t].draw);
  }

  /**
   * A message that a node read and decoded left the node it came from, addressed to the reader and
   * in those words: a request that named the reader, or a plain send to it.
   */
  lemma ReadByTheNamed(trace: seq<Net>, happenings: seq<Happening>, i: nat, at: NodeId, j: nat) returns (k: nat)
    requires Exchange(trace, happenings) && i < |trace| && at in trace[i].desks && j < |trace[i].desks[at].post.inbox|
    ensures var mail := trace[i].desks[at].post.inbox[j];
      && mail.src in trace[i].desks && k < |trace[i].desks[mail.src].post.outbox|
      && var d := trace[i].desks[mail.src];
      && var letter := d.post.outbox[k];
      && letter.dst == at && letter.envelope == mail.envelope && !letter.cause.Answered?
      && (letter.cause.Requested? ==>
            letter.cause.rank < |d.ledger| && d.ledger[letter.cause.rank].dst == at && d.ledger[letter.cause.rank].envelope == mail.envelope)
  {
    ExchangesAreHonest(trace, happenings, i);
    k := MailIsSent(trace[i], at, j);
  }

  lemma MailIsSent(net: Net, at: NodeId, j: nat) returns (k: nat)
    requires Honest(net) && at in net.desks && j < |net.desks[at].post.inbox|
    ensures var mail := net.desks[at].post.inbox[j];
      && SentAs(net, Packet(mail.src, at, Sealed(mail.envelope)), k)
      && var d := net.desks[mail.src];
      && var cause := d.post.outbox[k].cause;
      && !cause.Answered?
      && (cause.Requested? ==>
            cause.rank < |d.ledger| && d.ledger[cause.rank].dst == at && d.ledger[cause.rank].envelope == mail.envelope)
  {
    assert Delivered(net, at, j);
    var mail := net.desks[at].post.inbox[j];
    k := MessageIsSent(net, Packet(mail.src, at, Sealed(mail.envelope)));
  }

  // ---- read, or forged ----

  predicate Holds(net: Net, node: NodeId, s: nat) {
    node in net.desks && s < |net.desks[node].ledger|
  }

  /** The destination of the request read it, word for word. */
  predicate ReadAs(net: Net, node: NodeId, s: nat, j: nat)
    requires Holds(net, node, s)
  {
    var request := net.desks[node].ledger[s];
    && request.dst in net.desks && j < |net.desks[request.dst].post.inbox|
    && net.desks[request.dst].post.inbox[j] == Mail(node, request.envelope)
  }

  ghost predicate WasRead(net: Net, node: NodeId, s: nat)
    requires Holds(net, node, s)
  {
    exists j: nat :: ReadAs(net, node, s, j)
  }

  /** The destination sent an acknowledgement of the id that answers nothing it read. */
  predicate FalseAck(net: Net, node: NodeId, s: nat, i: nat)
    requires Holds(net, node, s)
  {
    var request := net.desks[node].ledger[s];
    Acks(net, request.dst, node, request.id, i) && !net.desks[request.dst].post.outbox[i].cause.Answered?
  }

  /** The node itself sent the destination another message under the id of the request. */
  predicate FalseNumber(net: Net, node: NodeId, s: nat, i: nat)
    requires Holds(net, node, s)
  {
    var d, request := net.desks[node], net.desks[node].ledger[s];
    && i < |d.post.outbox|
    && var letter := d.post.outbox[i];
    && letter.cause.Said? && letter.dst == request.dst
    && letter.envelope.id == request.id && letter.envelope.tag != ACK_TAG && letter.envelope != request.envelope
  }

  ghost predicate Forged(net: Net, node: NodeId, s: nat)
    requires Holds(net, node, s)
  {
    (exists i: nat :: FalseAck(net, node, s, i)) || (exists i: nat :: FalseNumber(net, node, s, i))
  }

  /** An acknowledgement of its id was written for the request itself, if for anything it read, or the id was forged. */
  lemma AckExplained(net: Net, node: NodeId, s: nat, i: nat)
    requires Honest(net) && Holds(net, node, s) && net.desks[node].drawn < ID_LIMIT
    requires var request := net.desks[node].ledger[s]; Acks(net, request.dst, node, request.id, i)
    ensures WasRead(net, node, s) || Forged(net, node, s)
  {
    var d, request := net.desks[node], net.desks[node].ledger[s];
    var peer := net.desks[request.dst];
    assert NodeSane(net, node) && NodeSane(net, request.dst);
    assert Posted(peer, i);
    var cause := peer.post.outbox[i].cause;
    if cause.Answered? {
      var k := MailIsSent(net, request.dst, cause.mail);
      MailExplained(net, node, s, cause.mail, k);
    } else {
      assert FalseAck(net, node, s, i);
    }
  }

  /** Mail under the id of a request is that request, or a plain send under its number. */
  lemma MailExplained(net: Net, node: NodeId, s: nat, j: nat, k: nat)
    requires Honest(net) && Holds(net, node, s) && net.desks[node].drawn < ID_LIMIT
    requires var request := net.desks[node].ledger[s];
      && Got(net, request.dst, node, request.id, j)
      && var mail := net.desks[request.dst].post.inbox[j];
      && mail.envelope.tag != ACK_TAG && SentAs(net, Packet(node, request.dst, Sealed(mail.envelope)), k)
      && var cause := net.desks[node].post.outbox[k].cause;
      && !cause.Answered?
      && (cause.Requested? ==> cause.rank < |net.desks[node].ledger| && net.desks[node].ledger[cause.rank].envelope == mail.envelope)
    ensures ReadAs(net, node, s, j) || FalseNumber(net, node, s, k)
  {
    var d := net.desks[node];
    assert NodeSane(net, node);
    var cause := d.post.outbox[k].cause;
    if cause.Requested? {
      assert Drew(d, s) && Drew(d, cause.rank);
      IdsAreUnique(d, s, cause.rank);
    }
  }

  /**
   * Whatever the channel and the applications did: a request counted completed, of a node that drew
   * fewer than 2^32 ids, was read word for word by the node it named, or its acknowledgement or its
   * number was forged. Whatever was drawn, that node acknowledged a message of its id from this
   * node, or wrote the acknowledgement of its own accord.
   */
  lemma CompletedOrForged(trace: seq<Net>, happenings: seq<Happening>, i: nat, node: NodeId, s: nat)
    requires Exchange(trace, happenings) && i < |trace| && Holds(trace[i], node, s)
    requires trace[i].desks[node].ledger[s].fate.Completed?
    ensures trace[i].desks[node].drawn < ID_LIMIT ==> WasRead(trace[i], node, s) || Forged(trace[i], node, s)
    ensures var request := trace[i].desks[node].ledger[s];
      (exists j: nat :: Got(trace[i], request.dst, node, request.id, j)) || (exists k: nat :: FalseAck(trace[i], node, s, k))
  {
    ExchangesAreHonest(trace, happenings, i);
    var net := trace[i];
    var request := net.desks[node].ledger[s];
    assert Earned(net, node, s) && NodeSane(net, request.dst);
    var k: nat :| Acks(net, request.dst, node, request.id, k);
    if net.desks[node].drawn < ID_LIMIT {
      AckExplained(net, node, s, k);
    }
    assert Posted(net.desks[request.dst], k);
    var cause := net.desks[request.dst].post.outbox[k].cause;
    if cause.Answered? {
      assert Got(net, request.dst, node, request.id, cause.mail);
    } else {
      assert FalseAck(net, node, s, k);
    }
  }

  /** So where applications leave ids and acknowledgements to the messenger, a completed request was read. */
  lemma CompletedWasRead(trace: seq<Net>, happenings: seq<Happening>, i: nat, node: NodeId, s: nat) returns (j: nat)
    requires Exchange(trace, happenings) && i < |trace| && Holds(trace[i], node, s)
    requires trace[i].desks[node].ledger[s].fate.Completed? && trace[i].desks[node].drawn < ID_LIMIT
    requires !Forged(trace[i], node, s)
    ensures ReadAs(trace[i], node, s, j)
  {
    CompletedOrForged(trace, happenings, i, node, s);
    j :| ReadAs(trace[i], node, s, j);
  }
}
