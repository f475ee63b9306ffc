/**
 * What a messenger does, call by call, callbacks included: no accepted request is lost, none ends
 * twice, none is sent more often than its policy says; every letter that leaves has its cause; and
 * every handler is told of a node once.
 */
module MessengerRuns {
  import opened Bytes
  import opened TransportNode
  import opened HandlerTable
  import opened MessengerDesk

  /** What a callback may do to the messenger: start a request, send a message once, or go away. */
  datatype Call = Start(ask: Ask) | Tell(dst: NodeId, envelope: Envelope, encodes: bool) | Leave(owner: nat)

  /** What is done in a callback: by the rank of the failed request, or by the handler told of a node. */
  type Reaction = nat -> seq<Call>

  // ---- the calls ----

  function Request(d: Desk, ask: Ask): (r: Desk)
    ensures |r.slots| == |d.slots| && |r.post.claims.slots| == |d.post.claims.slots|
  {
    var k := FirstFree(d.slots);
    if ask.dst == BROADCAST || !ask.known || k == |d.slots| then d.(refused := d.refused + 1)
    else
      var numbered := d.(nextId := NextId(d.nextId), drawn := d.drawn + 1);
      if !ask.encodes then numbered.(refused := d.refused + 1) else Accept(numbered, k, ask)
  }

  /** One message, once: no broadcast, and the envelope as it is. */
  function Send(d: Desk, dst: NodeId, envelope: Envelope, encodes: bool): Desk {
    if dst == BROADCAST || !encodes then d.(refused := d.refused + 1) else Emit(d, Letter(dst, envelope, Said))
  }

  function Attach(d: Desk, owner: nat): Desk {
    d.(post := d.post.(claims := Claim(d.post.claims, owner, d.post.tags(owner))))
  }

  /** From slot k on, the requests of a handler that goes away are forgotten. */
  function DetachFrom(d: Desk, owner: nat, k: nat): (r: Desk)
    ensures |r.slots| == |d.slots| && |r.post.claims.slots| == |d.post.claims.slots|
    decreases |d.slots| - k
  {
    if k >= |d.slots| then d
    else DetachFrom(if d.slots[k].used && d.slots[k].owner == owner then Close(d, k, Dropped) else d, owner, k + 1)
  }

  function Released(d: Desk, owner: nat): Desk {
    d.(post := d.post.(claims := Release(d.post.claims, owner, d.post.tags(owner))))
  }

  /** The tags go first, then nobody is left to tell about the requests. */
  function Detach(d: Desk, owner: nat): Desk {
    DetachFrom(Released(d, owner), owner, 0)
  }

  function Act(d: Desk, call: Call): (r: Desk)
    ensures |r.slots| == |d.slots| && |r.post.claims.slots| == |d.post.claims.slots|
  {
    match call
    case Start(ask) => Request(d, ask)
    case Tell(dst, envelope, encodes) => Send(d, dst, envelope, encodes)
    case Leave(owner) => Detach(d, owner)
  }

  function ActAll(d: Desk, calls: seq<Call>): (r: Desk)
    ensures |r.slots| == |d.slots| && |r.post.claims.slots| == |d.post.claims.slots|
  {
    if |calls| == 0 then d else Act(ActAll(d, calls[..|calls| - 1]), calls[|calls| - 1])
  }

  /** The request of slot k is given up on, and its owner reacts inside the loop. */
  function GiveUp(d: Desk, k: nat, react: Reaction): (r: Desk)
    requires k < |d.slots|
    ensures |r.slots| == |d.slots|
  {
    ActAll(Close(d, k, GivenUp), react(d.slots[k].serial))
  }

  predicate Due(slot: Slot, now: nat) {
    slot.used && (now - slot.sentAt) % CLOCK_LIMIT >= slot.policy.period
  }

  /** One slot at one tick: left alone, sent again, or given up on. */
  function TickSlot(d: Desk, k: nat, now: nat, react: Reaction): (r: Desk)
    requires k < |d.slots|
    ensures |r.slots| == |d.slots|
  {
    if !Due(d.slots[k], now) then d
    else if d.slots[k].sends < d.slots[k].policy.retries then Resend(d, k, now)
    else GiveUp(d, k, react)
  }

  function TickFrom(d: Desk, k: nat, now: nat, react: Reaction): (r: Desk)
    ensures |r.slots| == |d.slots|
    decreases |d.slots| - k
  {
    if k >= |d.slots| then d else TickFrom(TickSlot(d, k, now, react), k + 1, now, react)
  }

  /** A node that left: from slot k on, its requests are given up on whatever their policy had left. */
  function NodeDownFrom(d: Desk, id: NodeId, k: nat, react: Reaction): (r: Desk)
    ensures |r.slots| == |d.slots|
    decreases |d.slots| - k
  {
    if k >= |d.slots| then d
    else NodeDownFrom(if d.slots[k].used && d.slots[k].dst == id then GiveUp(d, k, react) else d, id, k + 1, react)
  }

  /** What a handler is told of a presence event. */
  function NewsOf(event: Presence, owner: nat): Callback {
    match event
    case Up(id) => ToldUp(owner, id)
    case Down(id) => ToldDown(owner, id)
  }

  /** The slot is the first of a handler. */
  predicate First(slots: seq<Option<nat>>, k: nat) {
    k < |slots| && slots[k].Some? && slots[k] !in slots[..k]
  }

  /** One slot of the loop over the dispatch table: its handler is told at its first slot, and acts. */
  function NotifySlot(d: Desk, k: nat, event: Presence, react: Reaction): (r: Desk)
    requires k < |d.post.claims.slots|
    ensures |r.post.claims.slots| == |d.post.claims.slots|
  {
    if !First(d.post.claims.slots, k) then d
    else
      var owner := d.post.claims.slots[k].value;
      ActAll(Called(d, NewsOf(event, owner)), react(owner))
  }

  function NotifyFrom(d: Desk, k: nat, event: Presence, react: Reaction): Desk
    decreases |d.post.claims.slots| - k
  {
    if k >= |d.post.claims.slots| then d else NotifyFrom(NotifySlot(d, k, event, react), k + 1, event, react)
  }

  function OnNodeUp(d: Desk, id: NodeId, react: Reaction): Desk {
    NotifyFrom(d, 0, Up(id), react)
  }

  /** Its requests are given up on first, then the handlers are told. */
  function OnNodeDown(d: Desk, id: NodeId, failing: Reaction, react: Reaction): Desk {
    NotifyFrom(NodeDownFrom(d, id, 0, failing), 0, Down(id), react)
  }

  // ---- what arrives ----

  predicate Answers(slot: Slot, src: NodeId, id: nat) {
    slot.used && slot.dst == src && slot.id == id
  }

  /** The first slot an acknowledgement answers, or the number of slots. */
  function FirstAnswered(slots: seq<Slot>, src: NodeId, id: nat): (k: nat)
    ensures k <= |slots| && (k < |slots| ==> Answers(slots[k], src, id))
  {
    if |slots| == 0 || Answers(slots[0], src, id) then 0 else 1 + FirstAnswered(slots[1..], src, id)
  }

  function OnAck(d: Desk, src: NodeId, id: nat): Desk {
    var k := FirstAnswered(d.slots, src, id);
    if k < |d.slots| then Close(d, k, Completed) else d.(unmatched := d.unmatched + 1)
  }

  function AckOf(id: nat): Envelope {
    Envelope(ACK_TAG, id, 0)
  }

  /** Acknowledges the mail of that rank; a send the transport refuses is counted nowhere. */
  function Acknowledge(d: Desk, rank: nat): Desk
    requires rank < |d.post.inbox|
  {
    var mail := d.post.inbox[rank];
    var post := Hand(d.post, Letter(mail.src, AckOf(mail.envelope.id), Answered(rank)));
    d.(post := post.(acked := post.acked + (if Takes(d.post) then 1 else 0)))
  }

  /** What the handler of a message does with it: whether it acted on it, and the calls it made. */
  datatype Reply = Reply(acted: bool, calls: seq<Call>)

  function HandlerOf(p: Post, tag: nat): Option<nat> {
    if tag < |p.claims.slots| then p.claims.slots[tag] else None
  }

  /** The handler that claimed the tag gets the message. */
  function Dispatch(d: Desk, mail: Mail, reply: Reply): Desk {
    match HandlerOf(d.post, mail.envelope.tag)
    case None => d.(post := d.post.(unhandled := d.post.unhandled + 1))
    case Some(owner) =>
      Outcome(ActAll(Called(d, Handed(owner, mail)), reply.calls), reply.acted)
  }

  function Outcome(d: Desk, acted: bool): Desk {
    if acted then d.(post := d.post.(handled := d.post.handled + 1))
    else d.(post := d.post.(ignored := d.post.ignored + 1))
  }

  function Received(d: Desk): Desk {
    d.(post := d.post.(received := d.post.received + 1))
  }

  function Filed(d: Desk, mail: Mail): Desk {
    d.(post := d.post.(inbox := d.post.inbox + [mail]))
  }

  /** The mail as filed, and as acknowledged when it is a request. */
  function Answer(d: Desk, mail: Mail): Desk {
    var filed := Filed(d, mail);
    if mail.envelope.id != 0 then Acknowledge(filed, |d.post.inbox|) else filed
  }

  /** A decoded message that is no acknowledgement: a request is acknowledged before it is dispatched. */
  function OnMail(d: Desk, mail: Mail, reply: Reply): Desk {
    Dispatch(Answer(d, mail), mail, reply)
  }

  function OnPayload(d: Desk, src: NodeId, payload: Payload, reply: Reply): Desk {
    match payload
    case Garbled => var r := Received(d); r.(post := r.post.(undecodable := r.post.undecodable + 1))
    case Sealed(envelope) =>
      if envelope.tag == ACK_TAG then OnAck(Received(d), src, envelope.id)
      else OnMail(Received(d), Mail(src, envelope), reply)
  }

  datatype Event =
    | Asks(ask: Ask)
    | Says(dst: NodeId, envelope: Envelope, encodes: bool)
    | Attaches(owner: nat)
    | Detaches(owner: nat)
    | Polls(at: nat)
    | Ticks(now: nat, react: Reaction)
    | GainsNode(id: NodeId, react: Reaction)
    | LosesNode(id: NodeId, failing: Reaction, react: Reaction)
    | Receives(src: NodeId, payload: Payload, reply: Reply)

  function Step(d: Desk, ev: Event): Desk {
    match ev
    case Asks(ask) => Request(d, ask)
    case Says(dst, envelope, encodes) => Send(d, dst, envelope, encodes)
    case Attaches(owner) => Attach(d, owner)
    case Detaches(owner) => Detach(d, owner)
    case Polls(at) => d.(clock := at)
    case Ticks(now, react) => TickFrom(d, 0, now, react)
    case GainsNode(id, react) => OnNodeUp(d, id, react)
    case LosesNode(id, failing, react) => OnNodeDown(d, id, failing, react)
    case Receives(src, payload, reply) => OnPayload(d, src, payload, reply)
  }

  /** An acknowledgement arrives. */
  predicate HearsAck(ev: Event) {
    ev.Receives? && ev.payload.Sealed? && ev.payload.envelope.tag == ACK_TAG
  }

  // ---- ids ----

  /** Two numbers leave the same remainder exactly if their difference leaves none. */
  lemma SameRemainder(a: nat, b: nat)
    requires a <= b
    ensures a % 0xFFFF_FFFF == b % 0xFFFF_FFFF <==> (b - a) % 0xFFFF_FFFF == 0
  {
    var qa, qb, q := a / 0xFFFF_FFFF, b / 0xFFFF_FFFF, (b - a) / 0xFFFF_FFFF;
    var ra, rb, r := a - 0xFFFF_FFFF * qa, b - 0xFFFF_FFFF * qb, b - a - 0xFFFF_FFFF * q;
    assert rb - ra - r == 0xFFFF_FFFF * (q - qb + qa);
  }

  /** A draw wraps to the id of another exactly when a whole round of ids lies between them. */
  lemma IdsRepeatByRounds(m: nat, n: nat)
    requires 1 <= m <= n
    ensures IdOf(m) == IdOf(n) <==> (n - m) % (ID_LIMIT - 1) == 0
  {
    SameRemainder(m - 1, n - 1);
  }

  /** Counting through a round of ids, one step at a time. */
  lemma Succ(n: nat)
    ensures (n + 1) % 0xFFFF_FFFF == (if n % 0xFFFF_FFFF == 0xFFFF_FFFE then 0 else n % 0xFFFF_FFFF + 1)
  {
  }

  lemma NextIdOf(n: nat)
    ensures NextId(IdOf(n)) == IdOf(n + 1) && 1 <= IdOf(n + 1) < ID_LIMIT
  {
    if n > 0 {
      Succ(n - 1);
    }
  }

  // ---- the invariant ----

  predicate Drew(d: Desk, s: nat) {
    s < |d.ledger| ==>
      && 1 <= d.ledger[s].draw <= d.drawn && d.ledger[s].id == IdOf(d.ledger[s].draw)
      && d.ledger[s].envelope.id == d.ledger[s].id && d.ledger[s].dst != BROADCAST
  }

  predicate Ordered(d: Desk, s: nat, t: nat) {
    s < t < |d.ledger| ==> d.ledger[s].draw < d.ledger[t].draw
  }

  /** A letter that says what its cause says: the request of its rank, or the acknowledgement of the mail it answers. */
  predicate Caused(ledger: seq<Entry>, inbox: seq<Mail>, letter: Letter) {
    match letter.cause
    case Requested(rank) =>
      rank < |ledger| && letter.dst == ledger[rank].dst && letter.envelope == ledger[rank].envelope
    case Answered(rank) =>
      && rank < |inbox| && inbox[rank].envelope.id != 0 && inbox[rank].envelope.tag != ACK_TAG
      && letter.dst == inbox[rank].src && letter.envelope == AckOf(inbox[rank].envelope.id)
    case Said => letter.dst != BROADCAST
  }

  predicate Posted(d: Desk, i: nat) {
    i < |d.post.outbox| ==> Caused(d.ledger, d.post.inbox, d.post.outbox[i])
  }

  predicate Claimed(p: Post, tag: nat) {
    tag < |p.claims.slots| && p.claims.slots[tag].Some? ==> tag in p.tags(p.claims.slots[tag].value)
  }

  /**
   * The pending table agrees with the ledger, the ids in the ledger are successive draws, every
   * letter has its cause, and every slot of the dispatch table was claimed by its owner.
   */
  ghost predicate Sane(d: Desk) {
    && Kept(d)
    && d.nextId == IdOf(d.drawn)
    && (forall s: nat {:trigger Drew(d, s)} :: Drew(d, s))
    && (forall s: nat, t: nat {:trigger Ordered(d, s, t)} :: Ordered(d, s, t))
    && (forall i: nat {:trigger Posted(d, i)} :: Posted(d, i))
    && (forall tag: nat {:trigger Claimed(d.post, tag)} :: Claimed(d.post, tag))
  }

  // ---- what a call may change ----

  /**
   * What an accepted request was stays; once it ended, so does everything about it; and it is
   * completed on the way only where an acknowledgement was heard.
   */
  predicate Carried(from: seq<Entry>, to: seq<Entry>, s: nat, acked: bool) {
    && s < |to|
    && (s < |from| ==>
          && to[s].dst == from[s].dst && to[s].owner == from[s].owner && to[s].id == from[s].id && to[s].draw == from[s].draw
          && to[s].envelope == from[s].envelope && to[s].retries == from[s].retries
          && from[s].attempts <= to[s].attempts
          && (!from[s].fate.Waiting? ==> to[s] == from[s]))
    && (!acked && to[s].fate.Completed? ==> s < |from| && from[s].fate.Completed?)
  }

  /** What left, what was read and which calls were made only grows. */
  ghost predicate Grown(from: Post, to: Post) {
    && from.offered <= to.offered && from.outbox <= to.outbox && from.inbox <= to.inbox && from.calls <= to.calls
    && from.tags == to.tags && |from.claims.slots| == |to.claims.slots|
  }

  ghost predicate Onward(from: Desk, to: Desk, acked: bool) {
    && |from.ledger| <= |to.ledger|
    && from.drawn <= to.drawn
    && Grown(from.post, to.post)
    && forall s: nat {:trigger Carried(from.ledger, to.ledger, s, acked)} :: s < |to.ledger| ==> Carried(from.ledger, to.ledger, s, acked)
  }

  /** Two slots of one handler keep it together or lose it together, and nobody takes a slot over. */
  predicate Thins(from: seq<Option<nat>>, to: seq<Option<nat>>, t: nat, u: nat) {
    t < |from| && u < |from| && |from| == |to| && from[t] == from[u] ==> to[t] == to[u] && (to[t] == from[t] || to[t].None?)
  }

  /** Handlers may leave on the way, nothing else. */
  ghost predicate Thinner(from: seq<Option<nat>>, to: seq<Option<nat>>) {
    |from| == |to| && forall t: nat, u: nat {:trigger Thins(from, to, t, u)} :: Thins(from, to, t, u)
  }

  /** Nothing arrived on the way, and handlers were told of failures only. */
  ghost predicate Quiet(from: Desk, to: Desk) {
    && (forall i :: |from.post.calls| <= i < |to.post.calls| ==> to.post.calls[i].ToldFailed?)
    && Undisturbed(from, to)
  }

  predicate Undisturbed(from: Desk, to: Desk) {
    && to.completed == from.completed && to.unmatched == from.unmatched
    && to.post.received == from.post.received && to.post.undecodable == from.post.undecodable
    && to.post.unhandled == from.post.unhandled && to.post.handled == from.post.handled && to.post.ignored == from.post.ignored
    && to.post.inbox == from.post.inbox
  }

  lemma OnwardTwice(a: Desk, b: Desk, c: Desk, acked: bool)
    requires Onward(a, b, acked) && Onward(b, c, acked)
    ensures Onward(a, c, acked)
  {
    forall s: nat | s < |c.ledger| ensures Carried(a.ledger, c.ledger, s, acked) {
      assert Carried(b.ledger, c.ledger, s, acked);
      if s < |b.ledger| {
        assert Carried(a.ledger, b.ledger, s, acked);
      }
    }
  }

  lemma ThinnerTwice(a: seq<Option<nat>>, b: seq<Option<nat>>, c: seq<Option<nat>>)
    requires Thinner(a, b) && Thinner(b, c)
    ensures Thinner(a, c)
  {
    forall t: nat, u: nat ensures Thins(a, c, t, u) {
      assert Thins(a, b, t, u) && Thins(b, c, t, u);
    }
  }

  lemma QuietTwice(a: Desk, b: Desk, c: Desk)
    requires Grown(a.post, b.post) && Grown(b.post, c.post) && Quiet(a, b) && Quiet(b, c)
    ensures Quiet(a, c)
  {
    forall i | |a.post.calls| <= i < |c.post.calls| ensures c.post.calls[i].ToldFailed? {
      assert i < |b.post.calls| ==> c.post.calls[i] == b.post.calls[i];
    }
  }

  // ---- every call goes onward and keeps the desk sane ----

  ghost predicate Proceeds(from: Desk, to: Desk) {
    Sane(to) && Onward(from, to, false) && Thinner(from.post.claims.slots, to.post.claims.slots) && Quiet(from, to)
  }

  lemma ProceedsTwice(a: Desk, b: Desk, c: Desk)
    requires Proceeds(a, b) && Proceeds(b, c)
    ensures Proceeds(a, c)
  {
    OnwardTwice(a, b, c, false);
    ThinnerTwice(a.post.claims.slots, b.post.claims.slots, c.post.claims.slots);
    QuietTwice(a, b, c);
  }

  /** The ledger says of every request what it said, and the post is as it was but for calls. */
  predicate SameWords(from: seq<Entry>, to: seq<Entry>, s: nat) {
    s < |to| ==>
      && s < |from| && to[s].draw == from[s].draw && to[s].id == from[s].id
      && to[s].envelope == from[s].envelope && to[s].dst == from[s].dst
  }

  lemma LedgerOnly(d: Desk, after: Desk)
    requires Sane(d) && Kept(after) && after.nextId == d.nextId && after.drawn == d.drawn && |after.ledger| == |d.ledger|
    requires after.post.outbox == d.post.outbox && after.post.inbox == d.post.inbox
    requires after.post.claims == d.post.claims && after.post.tags == d.post.tags
    requires forall s: nat {:trigger SameWords(d.ledger, after.ledger, s)} :: SameWords(d.ledger, after.ledger, s)
    ensures Sane(after)
  {
    forall s: nat ensures Drew(after, s) {
      assert SameWords(d.ledger, after.ledger, s) && Drew(d, s);
    }
    forall s: nat, t: nat ensures Ordered(after, s, t) {
      assert SameWords(d.ledger, after.ledger, s) && SameWords(d.ledger, after.ledger, t) && Ordered(d, s, t);
    }
    forall i: nat ensures Posted(after, i) {
      assert Posted(d, i);
      if i < |d.post.outbox| && d.post.outbox[i].cause.Requested? {
        assert SameWords(d.ledger, after.ledger, d.post.outbox[i].cause.rank);
      }
    }
    forall tag: nat ensures Claimed(after.post, tag) {
      assert Claimed(d.post, tag);
    }
  }

  lemma SameTable(slots: seq<Option<nat>>)
    ensures Thinner(slots, slots)
  {
    forall t: nat, u: nat ensures Thins(slots, slots, t, u) {
    }
  }

  lemma SameLedger(d: Desk, after: Desk)
    requires after.ledger == d.ledger && d.drawn <= after.drawn && Grown(d.post, after.post)
    ensures Onward(d, after, false)
  {
    forall s: nat | s < |after.ledger| ensures Carried(d.ledger, after.ledger, s, false) {
    }
  }

  lemma ClosedSane(d: Desk, k: nat, fate: Fate)
    requires Sane(d) && k < |d.slots| && d.slots[k].used && !fate.Waiting?
    ensures Sane(Close(d, k, fate)) && Onward(d, Close(d, k, fate), fate.Completed?)
  {
    var after := Close(d, k, fate);
    assert Backed(d, k);
    CloseKeeps(d, k, fate);
    LedgerOnly(d, after);
    forall s: nat | s < |after.ledger| ensures Carried(d.ledger, after.ledger, s, fate.Completed?) {
    }
  }

  lemma CloseProceeds(d: Desk, k: nat, fate: Fate)
    requires Sane(d) && k < |d.slots| && d.slots[k].used && (fate.GivenUp? || fate.Dropped?)
    ensures Proceeds(d, Close(d, k, fate))
  {
    ClosedSane(d, k, fate);
    SameTable(d.post.claims.slots);
  }

  lemma RestampProceeds(d: Desk, k: nat, now: nat)
    requires Sane(d) && k < |d.slots| && d.slots[k].used && d.slots[k].sends < d.slots[k].policy.retries
    ensures Proceeds(d, Restamp(d, k, now))
  {
    var after := Restamp(d, k, now);
    RestampKeeps(d, k, now);
    LedgerOnly(d, after);
    assert Backed(d, k);
    forall s: nat | s < |after.ledger| ensures Carried(d.ledger, after.ledger, s, false) {
    }
    SameTable(d.post.claims.slots);
  }

  /** A desk that differs in nothing the table and the ledger read. */
  lemma BooksKept(d: Desk, after: Desk)
    requires Kept(d)
    requires after == d.(clock := after.clock, refused := after.refused, unmatched := after.unmatched,
                         nextId := after.nextId, drawn := after.drawn, post := after.post)
    ensures Kept(after)
  {
    forall k: nat ensures Backed(after, k) {
      assert Backed(d, k);
    }
    forall s: nat ensures Accounted(after, s) {
      assert Accounted(d, s);
    }
  }

  lemma SameBooks(d: Desk, after: Desk)
    requires Sane(d)
    requires after == d.(clock := after.clock, refused := after.refused)
    ensures Proceeds(d, after)
  {
    BooksKept(d, after);
    LedgerOnly(d, after);
    SameLedger(d, after);
    SameTable(d.post.claims.slots);
  }

  /** A letter with a cause leaves, or the transport refuses it. */
  lemma HandKeeps(d: Desk, after: Desk, letter: Letter)
    requires Sane(d) && Caused(d.ledger, d.post.inbox, letter)
    requires after == d.(refused := after.refused, post := Hand(d.post, letter).(sent := after.post.sent, acked := after.post.acked))
    ensures Proceeds(d, after)
  {
    BooksKept(d, after);
    forall s: nat ensures Drew(after, s) {
      assert Drew(d, s);
    }
    forall s: nat, t: nat ensures Ordered(after, s, t) {
      assert Ordered(d, s, t);
    }
    forall i: nat ensures Posted(after, i) {
      assert Posted(d, i);
    }
    forall tag: nat ensures Claimed(after.post, tag) {
      assert Claimed(d.post, tag);
    }
    SameLedger(d, after);
    SameTable(d.post.claims.slots);
  }

  lemma ResendProceeds(d: Desk, k: nat, now: nat)
    requires Sane(d) && k < |d.slots| && d.slots[k].used && d.slots[k].sends < d.slots[k].policy.retries
    ensures Proceeds(d, Resend(d, k, now))
  {
    var stamped := Restamp(d, k, now);
    assert Backed(d, k);
    RestampProceeds(d, k, now);
    HandKeeps(stamped, Resend(d, k, now), Letter(d.slots[k].dst, d.slots[k].envelope, Requested(d.slots[k].serial)));
    ProceedsTwice(d, stamped, Resend(d, k, now));
  }

  lemma DrawProceeds(d: Desk)
    requires Sane(d)
    ensures Proceeds(d, d.(nextId := NextId(d.nextId), drawn := d.drawn + 1))
  {
    var after := d.(nextId := NextId(d.nextId), drawn := d.drawn + 1);
    BooksKept(d, after);
    NextIdOf(d.drawn);
    forall s: nat ensures Drew(after, s) {
      assert Drew(d, s);
    }
    forall s: nat, t: nat ensures Ordered(after, s, t) {
      assert Ordered(d, s, t);
    }
    forall i: nat ensures Posted(after, i) {
      assert Posted(d, i);
    }
    SameLedger(d, after);
    SameTable(d.post.claims.slots);
  }

  lemma RegisterProceeds(d: Desk, k: nat, ask: Ask)
    requires Sane(d) && k < |d.slots| && !d.slots[k].used && d.drawn > 0 && ask.dst != BROADCAST
    requires forall s: nat | s < |d.ledger| :: d.ledger[s].draw < d.drawn
    ensures Proceeds(d, Register(d, k, ask))
  {
    var after := Register(d, k, ask);
    RegisterKeeps(d, k, ask);
    forall s: nat ensures Drew(after, s) {
      assert Drew(d, s);
    }
    forall s: nat, t: nat ensures Ordered(after, s, t) {
      assert Ordered(d, s, t);
    }
    forall i: nat ensures Posted(after, i) {
      assert Posted(d, i);
    }
    forall s: nat | s < |after.ledger| ensures Carried(d.ledger, after.ledger, s, false) {
    }
    SameTable(d.post.claims.slots);
  }

  lemma AcceptProceeds(d: Desk, k: nat, ask: Ask)
    requires Sane(d) && k < |d.slots| && !d.slots[k].used && d.drawn > 0 && ask.dst != BROADCAST
    requires forall s: nat | s < |d.ledger| :: d.ledger[s].draw < d.drawn
    ensures Proceeds(d, Accept(d, k, ask))
  {
    var kept := Register(d, k, ask);
    RegisterProceeds(d, k, ask);
    HandKeeps(kept, Accept(d, k, ask), Letter(ask.dst, Numbered(ask, d.nextId), Requested(|d.ledger|)));
    ProceedsTwice(d, kept, Accept(d, k, ask));
  }

  lemma RequestProceeds(d: Desk, ask: Ask)
    requires Sane(d)
    ensures Proceeds(d, Request(d, ask))
  {
    var k := FirstFree(d.slots);
    if ask.dst == BROADCAST || !ask.known || k == |d.slots| {
      SameBooks(d, Request(d, ask));
    } else {
      var numbered := d.(nextId := NextId(d.nextId), drawn := d.drawn + 1);
      DrawProceeds(d);
      if ask.encodes {
        forall s: nat | s < |numbered.ledger| ensures numbered.ledger[s].draw < numbered.drawn {
          assert Drew(d, s);
        }
        AcceptProceeds(numbered, k, ask);
      } else {
        SameBooks(numbered, Request(d, ask));
      }
      ProceedsTwice(d, numbered, Request(d, ask));
    }
  }

  lemma SendProceeds(d: Desk, dst: NodeId, envelope: Envelope, encodes: bool)
    requires Sane(d)
    ensures Proceeds(d, Send(d, dst, envelope, encodes))
  {
    if dst == BROADCAST || !encodes {
      SameBooks(d, Send(d, dst, envelope, encodes));
    } else {
      HandKeeps(d, Send(d, dst, envelope, encodes), Letter(dst, envelope, Said));
    }
  }

  /** A handler that leaves frees all its slots and no other. */
  lemma ReleaseProceeds(d: Desk, owner: nat)
    requires Sane(d)
    ensures Proceeds(d, Released(d, owner))
  {
    var after := Released(d, owner);
    var slots, freed := d.post.claims.slots, after.post.claims.slots;
    forall tag: nat | tag < |slots| ensures freed[tag] == if slots[tag] == Some(owner) then None else slots[tag] {
      assert Claimed(d.post, tag);
      ReleasedSlot(d.post.claims, owner, d.post.tags(owner), tag);
    }
    forall t: nat, u: nat ensures Thins(slots, freed, t, u) {
    }
    forall tag: nat ensures Claimed(after.post, tag) {
      assert Claimed(d.post, tag);
    }
    BooksKept(d, after);
    SaneBut(d, after);
    SameLedger(d, after);
  }

  /** A change of the dispatch table alone. */
  lemma SaneBut(d: Desk, after: Desk)
    requires Sane(d) && after == d.(post := d.post.(claims := after.post.claims)) && Kept(after)
    requires forall tag: nat {:trigger Claimed(after.post, tag)} :: Claimed(after.post, tag)
    ensures Sane(after)
  {
    forall s: nat ensures Drew(after, s) {
      assert Drew(d, s);
    }
    forall s: nat, t: nat ensures Ordered(after, s, t) {
      assert Ordered(d, s, t);
    }
    forall i: nat ensures Posted(after, i) {
      assert Posted(d, i);
    }
  }

  lemma {:induction false} ForgetProceeds(d: Desk, owner: nat, k: nat)
    requires Sane(d)
    ensures Proceeds(d, DetachFrom(d, owner, k))
    decreases |d.slots| - k
  {
    if k >= |d.slots| {
      SameBooks(d, d);
    } else {
      var next := if d.slots[k].used && d.slots[k].owner == owner then Close(d, k, Dropped) else d;
      if next == d {
        SameBooks(d, d);
      } else {
        CloseProceeds(d, k, Dropped);
      }
      ForgetProceeds(next, owner, k + 1);
      ProceedsTwice(d, next, DetachFrom(d, owner, k));
    }
  }

  lemma DetachProceeds(d: Desk, owner: nat)
    requires Sane(d)
    ensures Proceeds(d, Detach(d, owner))
  {
    ReleaseProceeds(d, owner);
    ForgetProceeds(Released(d, owner), owner, 0);
    ProceedsTwice(d, Released(d, owner), Detach(d, owner));
  }

  lemma {:induction false} ActsProceed(d: Desk, calls: seq<Call>)
    requires Sane(d)
    ensures Proceeds(d, ActAll(d, calls))
  {
    if |calls| == 0 {
      SameBooks(d, d);
    } else {
      var before := ActAll(d, calls[..|calls| - 1]);
      ActsProceed(d, calls[..|calls| - 1]);
      match calls[|calls| - 1] {
        case Start(ask) => RequestProceeds(before, ask);
        case Tell(dst, envelope, encodes) => SendProceeds(before, dst, envelope, encodes);
        case Leave(owner) => DetachProceeds(before, owner);
      }
      ProceedsTwice(d, before, ActAll(d, calls));
    }
  }

  lemma GiveUpProceeds(d: Desk, k: nat, react: Reaction)
    requires Sane(d) && k < |d.slots| && d.slots[k].used
    ensures Proceeds(d, GiveUp(d, k, react))
  {
    var closed := Close(d, k, GivenUp);
    CloseProceeds(d, k, GivenUp);
    ActsProceed(closed, react(d.slots[k].serial));
    ProceedsTwice(d, closed, GiveUp(d, k, react));
  }

  lemma TickSlotProceeds(d: Desk, k: nat, now: nat, react: Reaction)
    requires Sane(d) && k < |d.slots|
    ensures Proceeds(d, TickSlot(d, k, now, react))
  {
    if !Due(d.slots[k], now) {
      SameBooks(d, d);
    } else if d.slots[k].sends < d.slots[k].policy.retries {
      ResendProceeds(d, k, now);
    } else {
      GiveUpProceeds(d, k, react);
    }
  }

  lemma {:induction false} TickProceeds(d: Desk, k: nat, now: nat, react: Reaction)
    requires Sane(d)
    ensures Proceeds(d, TickFrom(d, k, now, react))
    decreases |d.slots| - k
  {
    if k >= |d.slots| {
      SameBooks(d, d);
    } else {
      var next := TickSlot(d, k, now, react);
      TickSlotProceeds(d, k, now, react);
      TickProceeds(next, k + 1, now, react);
      ProceedsTwice(d, next, TickFrom(d, k, now, react));
    }
  }

  lemma {:induction false} NodeDownProceeds(d: Desk, id: NodeId, k: nat, react: Reaction)
    requires Sane(d)
    ensures Proceeds(d, NodeDownFrom(d, id, k, react))
    decreases |d.slots| - k
  {
    if k >= |d.slots| {
      SameBooks(d, d);
    } else {
      var next := if d.slots[k].used && d.slots[k].dst == id then GiveUp(d, k, react) else d;
      if d.slots[k].used && d.slots[k].dst == id {
        GiveUpProceeds(d, k, react);
      } else {
        SameBooks(d, d);
      }
      NodeDownProceeds(next, id, k + 1, react);
      ProceedsTwice(d, next, NodeDownFrom(d, id, k, react));
    }
  }

  // ---- what arrives ----

  /** A call to a handler, on the books. */
  lemma CalledKeeps(d: Desk, call: Callback)
    requires Sane(d)
    ensures Sane(Called(d, call)) && Onward(d, Called(d, call), false) && Undisturbed(d, Called(d, call))
  {
    BooksKept(d, Called(d, call));
    LedgerOnly(d, Called(d, call));
    SameLedger(d, Called(d, call));
  }

  /** A handler told of a node, and what it does about it. */
  lemma NotifySlotKeeps(d: Desk, k: nat, event: Presence, react: Reaction)
    requires Sane(d) && k < |d.post.claims.slots|
    ensures var after := NotifySlot(d, k, event, react);
      Sane(after) && Onward(d, after, false) && Thinner(d.post.claims.slots, after.post.claims.slots) && Undisturbed(d, after)
  {
    SameTable(d.post.claims.slots);
    if First(d.post.claims.slots, k) {
      var owner := d.post.claims.slots[k].value;
      var called := Called(d, NewsOf(event, owner));
      CalledKeeps(d, NewsOf(event, owner));
      ActsProceed(called, react(owner));
      OnwardTwice(d, called, NotifySlot(d, k, event, react), false);
    } else {
      SameLedger(d, d);
    }
  }

  lemma {:induction false} NotifyKeeps(d: Desk, k: nat, event: Presence, react: Reaction)
    requires Sane(d)
    ensures var after := NotifyFrom(d, k, event, react);
      Sane(after) && Onward(d, after, false) && Thinner(d.post.claims.slots, after.post.claims.slots) && Undisturbed(d, after)
    decreases |d.post.claims.slots| - k
  {
    if k >= |d.post.claims.slots| {
      SameLedger(d, d);
      SameTable(d.post.claims.slots);
    } else {
      var next := NotifySlot(d, k, event, react);
      NotifySlotKeeps(d, k, event, react);
      NotifyKeeps(next, k + 1, event, react);
      OnwardTwice(d, next, NotifyFrom(d, k, event, react), false);
      ThinnerTwice(d.post.claims.slots, next.post.claims.slots, NotifyFrom(d, k, event, react).post.claims.slots);
    }
  }

  lemma NodeLostKeeps(d: Desk, id: NodeId, failing: Reaction, react: Reaction)
    requires Sane(d)
    ensures var after := OnNodeDown(d, id, failing, react);
      Sane(after) && Onward(d, after, false) && Undisturbed(d, after)
  {
    NodeDownProceeds(d, id, 0, failing);
    NotifyKeeps(NodeDownFrom(d, id, 0, failing), 0, Down(id), react);
    OnwardTwice(d, NodeDownFrom(d, id, 0, failing), OnNodeDown(d, id, failing, react), false);
  }

  lemma AckKeeps(d: Desk, src: NodeId, id: nat)
    requires Sane(d)
    ensures Sane(OnAck(d, src, id)) && Onward(d, OnAck(d, src, id), true)
  {
    var k := FirstAnswered(d.slots, src, id);
    if k < |d.slots| {
      ClosedSane(d, k, Completed);
    } else {
      var after := OnAck(d, src, id);
      BooksKept(d, after);
      LedgerOnly(d, after);
      forall s: nat | s < |d.ledger| ensures Carried(d.ledger, d.ledger, s, true) {
      }
    }
  }

  /** A change of the arrival counters alone. */
  lemma CountedKeeps(d: Desk, after: Desk)
    requires Sane(d)
    requires after == d.(post := d.post.(received := after.post.received, undecodable := after.post.undecodable,
                                         unhandled := after.post.unhandled, handled := after.post.handled, ignored := after.post.ignored))
    ensures Sane(after) && Onward(d, after, false)
  {
    BooksKept(d, after);
    LedgerOnly(d, after);
    SameLedger(d, after);
  }

  lemma FiledKeeps(d: Desk, mail: Mail)
    requires Sane(d)
    ensures Sane(Filed(d, mail)) && Onward(d, Filed(d, mail), false)
  {
    var after := Filed(d, mail);
    BooksKept(d, after);
    forall s: nat ensures Drew(after, s) {
      assert Drew(d, s);
    }
    forall s: nat, t: nat ensures Ordered(after, s, t) {
      assert Ordered(d, s, t);
    }
    forall i: nat ensures Posted(after, i) {
      assert Posted(d, i);
    }
    forall tag: nat ensures Claimed(after.post, tag) {
      assert Claimed(d.post, tag);
    }
    SameLedger(d, after);
  }

  lemma DispatchKeeps(d: Desk, mail: Mail, reply: Reply)
    requires Sane(d)
    ensures Sane(Dispatch(d, mail, reply)) && Onward(d, Dispatch(d, mail, reply), false)
    ensures Thinner(d.post.claims.slots, Dispatch(d, mail, reply).post.claims.slots)
  {
    SameTable(d.post.claims.slots);
    match HandlerOf(d.post, mail.envelope.tag)
    case None => CountedKeeps(d, Dispatch(d, mail, reply));
    case Some(owner) =>
      var called := Called(d, Handed(owner, mail));
      var done := ActAll(called, reply.calls);
      CalledKeeps(d, Handed(owner, mail));
      ActsProceed(called, reply.calls);
      OnwardTwice(d, called, done, false);
      CountedKeeps(done, Dispatch(d, mail, reply));
      OnwardTwice(d, done, Dispatch(d, mail, reply), false);
  }

  lemma AnswerKeeps(d: Desk, mail: Mail)
    requires Sane(d) && mail.envelope.tag != ACK_TAG
    ensures Sane(Answer(d, mail)) && Onward(d, Answer(d, mail), false)
  {
    var filed := Filed(d, mail);
    FiledKeeps(d, mail);
    if mail.envelope.id != 0 {
      HandKeeps(filed, Answer(d, mail), Letter(mail.src, AckOf(mail.envelope.id), Answered(|d.post.inbox|)));
      OnwardTwice(d, filed, Answer(d, mail), false);
    }
  }

  lemma MailKeeps(d: Desk, mail: Mail, reply: Reply)
    requires Sane(d) && mail.envelope.tag != ACK_TAG
    ensures Sane(OnMail(d, mail, reply)) && Onward(d, OnMail(d, mail, reply), false)
    ensures Thinner(d.post.claims.slots, OnMail(d, mail, reply).post.claims.slots)
  {
    AnswerKeeps(d, mail);
    DispatchKeeps(Answer(d, mail), mail, reply);
    OnwardTwice(d, Answer(d, mail), OnMail(d, mail, reply), false);
  }

  lemma OnwardAcked(a: Desk, b: Desk, acked: bool)
    requires Onward(a, b, acked)
    ensures Onward(a, b, true)
  {
    forall s: nat | s < |b.ledger| ensures Carried(a.ledger, b.ledger, s, true) {
      assert Carried(a.ledger, b.ledger, s, acked);
    }
  }

  lemma PayloadKeeps(d: Desk, src: NodeId, payload: Payload, reply: Reply)
    requires Sane(d)
    ensures var after := OnPayload(d, src, payload, reply);
      && Sane(after) && Onward(d, after, payload.Sealed? && payload.envelope.tag == ACK_TAG)
      && Thinner(d.post.claims.slots, after.post.claims.slots)
  {
    var received := Received(d);
    SameTable(d.post.claims.slots);
    CountedKeeps(d, received);
    match payload
    case Garbled => CountedKeeps(d, OnPayload(d, src, payload, reply));
    case Sealed(envelope) =>
      if envelope.tag == ACK_TAG {
        AckKeeps(received, src, envelope.id);
        OnwardAcked(d, received, false);
        OnwardTwice(d, received, OnPayload(d, src, payload, reply), true);
      } else {
        MailKeeps(received, Mail(src, envelope), reply);
        OnwardTwice(d, received, OnPayload(d, src, payload, reply), false);
      }
  }

  /** Every call keeps the invariant, carries the ledger onward, and completes nothing unless an acknowledgement arrived. */
  lemma StepProceeds(d: Desk, ev: Event)
    requires Sane(d)
    ensures Sane(Step(d, ev)) && Onward(d, Step(d, ev), HearsAck(ev))
  {
    match ev
    case Asks(ask) => RequestProceeds(d, ask);
    case Says(dst, envelope, encodes) => SendProceeds(d, dst, envelope, encodes);
    case Attaches(owner) => AttachKeeps(d, owner);
    case Detaches(owner) => DetachProceeds(d, owner);
    case Polls(at) => SameBooks(d, d.(clock := at));
    case Ticks(now, react) => TickProceeds(d, 0, now, react);
    case GainsNode(id, react) => NotifyKeeps(d, 0, Up(id), react);
    case LosesNode(id, failing, react) => NodeLostKeeps(d, id, failing, react);
    case Receives(src, payload, reply) => PayloadKeeps(d, src, payload, reply);
  }

  lemma AttachKeeps(d: Desk, owner: nat)
    requires Sane(d)
    ensures Sane(Attach(d, owner)) && Onward(d, Attach(d, owner), false)
  {
    var after := Attach(d, owner);
    forall tag: nat ensures Claimed(after.post, tag) {
      assert Claimed(d.post, tag);
      if tag < |d.post.claims.slots| {
        ClaimedSlot(d.post.claims, owner, d.post.tags(owner), tag);
      }
    }
    BooksKept(d, after);
    SaneBut(d, after);
    SameLedger(d, after);
  }

  /** Whoever acknowledges, at most one request is completed by it: one that named the sender and carried the id. */
  lemma AckCompletesAtMostOne(d: Desk, src: NodeId, id: nat)
    requires Sane(d)
    ensures var after := OnAck(d, src, id);
      && d.completed <= after.completed <= d.completed + 1
      && (after.completed == d.completed <==> after.ledger == d.ledger)
      && (after.completed > d.completed ==>
            exists s: nat :: s < |d.ledger| && Settles(d.ledger, after.ledger, s, src, id))
  {
    var k := FirstAnswered(d.slots, src, id);
    if k < |d.slots| {
      assert Backed(d, k);
      assert Settles(d.ledger, OnAck(d, src, id).ledger, d.slots[k].serial, src, id);
    }
  }

  predicate Settles(from: seq<Entry>, to: seq<Entry>, s: nat, src: NodeId, id: nat) {
    && s < |from| && |to| == |from|
    && from[s].fate.Waiting? && from[s].dst == src && from[s].id == id
    && to == from[s := from[s].(fate := Completed)]
  }

  // ---- whole runs ----

  ghost predicate Turns(trace: seq<Desk>, events: seq<Event>, i: nat) {
    i < |events| && i + 1 < |trace| ==> trace[i + 1] == Step(trace[i], events[i])
  }

  ghost predicate Run(trace: seq<Desk>, events: seq<Event>) {
    && |trace| == |events| + 1
    && Fresh(trace[0])
    && forall i: nat {:trigger Turns(trace, events, i)} :: Turns(trace, events, i)
  }

  /** A messenger before anything happened to it, whatever its handlers will claim and its transport will take. */
  function Opening(capacity: nat, tags: nat -> seq<nat>, takes: nat -> bool): Desk {
    Desk(seq(capacity, _ => FREE), 0, 0, 0, 0, 0, 0, 0, 0, 0, [],
         Post(tags, takes, NO_CLAIMS, 0, 0, 0, 0, 0, 0, 0, [], [], [], []))
  }

  ghost predicate Fresh(d: Desk) {
    d == Opening(|d.slots|, d.post.tags, d.post.takes)
  }

  lemma {:induction false} NoneInUse(slots: seq<Slot>)
    requires forall k | 0 <= k < |slots| :: !slots[k].used
    ensures InUse(slots) == 0
  {
    if |slots| > 0 {
      NoneInUse(slots[..|slots| - 1]);
    }
  }

  lemma FreshIsSane(d: Desk)
    requires Fresh(d)
    ensures Sane(d)
  {
    NoneInUse(d.slots);
    forall tag: nat ensures Claimed(d.post, tag) {
    }
  }

  lemma {:induction false} RunsAreSane(trace: seq<Desk>, events: seq<Event>, i: nat)
    requires Run(trace, events) && i < |trace|
    ensures Sane(trace[i])
  {
    if i == 0 {
      FreshIsSane(trace[0]);
    } else {
      RunsAreSane(trace, events, i - 1);
      assert Turns(trace, events, i - 1);
      StepProceeds(trace[i - 1], events[i - 1]);
    }
  }

  /** Over every stretch of a run an accepted request stays what it was, and an ended one is never touched again. */
  lemma {:induction false} EndsAreFinal(trace: seq<Desk>, events: seq<Event>, i: nat, j: nat, s: nat)
    requires Run(trace, events) && i <= j < |trace| && s < |trace[i].ledger|
    ensures s < |trace[j].ledger|
    ensures var was := trace[i].ledger[s]; var now := trace[j].ledger[s];
      && (now.dst, now.envelope, now.retries) == (was.dst, was.envelope, was.retries)
      && was.attempts <= now.attempts
      && (!was.fate.Waiting? ==> now == was)
  {
    if i < j {
      EndsAreFinal(trace, events, i, j - 1, s);
      RunsAreSane(trace, events, j - 1);
      assert Turns(trace, events, j - 1);
      StepProceeds(trace[j - 1], events[j - 1]);
      assert Carried(trace[j - 1].ledger, trace[j].ledger, s, HearsAck(events[j - 1]));
    }
  }
}
