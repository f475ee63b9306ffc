/**
 * One messenger as functions of its state: the pending requests with a ledger of every request
 * ever accepted (what became of it, how often it was sent, how often its owner was told it
 * failed), and the post: what left, what was read, which handler was called with what.
 */
module MessengerDesk {
  import opened Bytes
  import opened TransportNode
  import opened HandlerTable

  const ID_LIMIT: nat := 0x1_0000_0000
  const CLOCK_LIMIT: nat := 0x1_0000_0000_0000_0000
  const ACK_TAG: nat := 40

  /** One message: the tag of its body, its request id (zero when it is no request) and what it says. */
  datatype Envelope = Envelope(tag: nat, id: nat, body: nat)

  /** The bytes of a payload, known by what they decode to. */
  datatype Payload = Sealed(envelope: Envelope) | Garbled

  datatype Policy = Policy(period: nat, retries: nat)

  /** One slot of the pending table; `serial` is the rank of its request in the ledger. */
  datatype Slot = Slot(used: bool, serial: nat, dst: NodeId, id: nat, envelope: Envelope, owner: nat, policy: Policy,
                       sentAt: nat, sends: nat)

  const FREE := Slot(false, 0, 0, 0, Envelope(0, 0, 0), 0, Policy(0, 0), 0, 0)

  datatype Fate = Waiting(slot: nat) | Completed | GivenUp | Dropped

  /** One accepted request: to whom, whose, which draw gave its id, what it said, its fate, its sends, the failures told. */
  datatype Entry = Entry(dst: NodeId, owner: nat, id: nat, draw: nat, envelope: Envelope, retries: nat, fate: Fate, attempts: nat, told: nat)

  /** Why a letter left: a request of that rank, an answer to the mail of that rank, or a plain send. */
  datatype Cause = Requested(rank: nat) | Answered(mail: nat) | Said

  datatype Letter = Letter(dst: NodeId, envelope: Envelope, cause: Cause)

  /** A message read and decoded that was no acknowledgement. */
  datatype Mail = Mail(src: NodeId, envelope: Envelope)

  /** A call made to a handler; `rank` is that of the failed request in the ledger. */
  datatype Callback =
    | ToldFailed(owner: nat, dst: NodeId, id: nat, rank: nat)
    | ToldUp(owner: nat, node: NodeId)
    | ToldDown(owner: nat, node: NodeId)
    | Handed(owner: nat, mail: Mail)

  /**
   * The tags each handler claims and whether the transport takes the n-th send, both fixed; the
   * dispatch table and the counters; and, as the model's history, the letters offered to
   * the transport, those it took, the mail read and the calls made to handlers, in order.
   */
  datatype Post = Post(tags: nat -> seq<nat>, takes: nat -> bool, claims: Claims, received: nat, undecodable: nat,
                       unhandled: nat, handled: nat, ignored: nat, sent: nat, acked: nat,
                       offered: seq<Letter>, outbox: seq<Letter>, inbox: seq<Mail>, calls: seq<Callback>)

  /**
   * The pending table, the id last drawn and how many were ever drawn, the instant of the poll, the
   * counters, the ledger and the post. The source counts no drops: `dropped` is the model's.
   */
  datatype Desk = Desk(slots: seq<Slot>, nextId: nat, drawn: nat, clock: nat, completed: nat, failed: nat, dropped: nat,
                       unmatched: nat, resent: nat, refused: nat, ledger: seq<Entry>, post: Post)

  /** What a handler asks for, and what the transport's table and the codec make of it. */
  datatype Ask = Ask(dst: NodeId, tag: nat, body: nat, owner: nat, policy: Policy, known: bool, encodes: bool)

  // ---- primitives ----

  function NextId(id: nat): nat {
    if (id + 1) % ID_LIMIT == 0 then 1 else (id + 1) % ID_LIMIT
  }

  /** The n-th id drawn: 1, 2, ... 2^32 - 1, and 1 again. */
  function IdOf(n: nat): nat {
    if n == 0 then 0 else (n - 1) % (ID_LIMIT - 1) + 1
  }

  /** The first free slot, or the number of slots. */
  function FirstFree(slots: seq<Slot>): (k: nat)
    ensures k <= |slots| && (k < |slots| ==> !slots[k].used)
  {
    if |slots| == 0 || !slots[0].used then 0 else 1 + FirstFree(slots[1..])
  }

  // ---- the post ----

  predicate Takes(p: Post) {
    p.takes(|p.offered|)
  }

  /** Hands one letter to the transport. */
  function Hand(p: Post, letter: Letter): Post {
    p.(offered := p.offered + [letter], outbox := if Takes(p) then p.outbox + [letter] else p.outbox)
  }

  /** Sends a letter and counts what became of it. */
  function Emit(d: Desk, letter: Letter): Desk {
    var post := Hand(d.post, letter);
    if Takes(d.post) then d.(post := post.(sent := post.sent + 1)) else d.(post := post, refused := d.refused + 1)
  }

  function Called(d: Desk, call: Callback): Desk {
    d.(post := d.post.(calls := d.post.calls + [call]))
  }

  // ---- the pending table ----

  function Numbered(ask: Ask, id: nat): Envelope {
    Envelope(ask.tag, id, ask.body)
  }

  /** Keeps a request in a free slot. */
  function Register(d: Desk, k: nat, ask: Ask): Desk
    requires k < |d.slots|
  {
    var envelope := Numbered(ask, d.nextId);
    d.(slots := d.slots[k := Slot(true, |d.ledger|, ask.dst, d.nextId, envelope, ask.owner, ask.policy, d.clock, 1)],
       ledger := d.ledger + [Entry(ask.dst, ask.owner, d.nextId, d.drawn, envelope, ask.policy.retries, Waiting(k), 1, 0)])
  }

  /** A first send the transport refuses is kept all the same: the retry covers it. */
  function Accept(d: Desk, k: nat, ask: Ask): Desk
    requires k < |d.slots|
  {
    Emit(Register(d, k, ask), Letter(ask.dst, Numbered(ask, d.nextId), Requested(|d.ledger|)))
  }

  function Resent(ledger: seq<Entry>, s: nat): seq<Entry> {
    if s < |ledger| then ledger[s := ledger[s].(attempts := ledger[s].attempts + 1)] else ledger
  }

  function Restamp(d: Desk, k: nat, now: nat): Desk
    requires k < |d.slots|
  {
    var slot := d.slots[k];
    d.(slots := d.slots[k := slot.(sends := slot.sends + 1, sentAt := now)], resent := d.resent + 1,
       ledger := Resent(d.ledger, slot.serial))
  }

  function Resend(d: Desk, k: nat, now: nat): Desk
    requires k < |d.slots|
  {
    Emit(Restamp(d, k, now), Letter(d.slots[k].dst, d.slots[k].envelope, Requested(d.slots[k].serial)))
  }

  /** A request given up on is told to its owner. */
  function Ended(ledger: seq<Entry>, s: nat, fate: Fate): seq<Entry> {
    if s < |ledger|
    then ledger[s := ledger[s].(fate := fate, told := ledger[s].told + (if fate.GivenUp? then 1 else 0))]
    else ledger
  }

  /** Frees a slot and writes down how its request ended; giving up tells the owner. */
  function Close(d: Desk, k: nat, fate: Fate): Desk
    requires k < |d.slots|
  {
    var slot := d.slots[k];
    var closed := d.(slots := d.slots[k := slot.(used := false)],
                     completed := d.completed + (if fate.Completed? then 1 else 0),
                     failed := d.failed + (if fate.GivenUp? then 1 else 0),
                     dropped := d.dropped + (if fate.Dropped? then 1 else 0),
                     ledger := Ended(d.ledger, slot.serial, fate));
    if fate.GivenUp? then Called(closed, ToldFailed(slot.owner, slot.dst, slot.id, slot.serial)) else closed
  }

  // ---- the invariant ----

  /** A used slot is the one its ledger entry waits in, and agrees with it. */
  predicate Backed(d: Desk, k: nat) {
    k < |d.slots| && d.slots[k].used ==>
      && d.slots[k].serial < |d.ledger|
      && var slot := d.slots[k];
      && var entry := d.ledger[slot.serial];
      && entry.fate == Waiting(k) && entry.dst == slot.dst && entry.owner == slot.owner && entry.id == slot.id && entry.envelope == slot.envelope
      && entry.retries == slot.policy.retries && entry.attempts == slot.sends
  }

  /** An accepted request waits in its slot or ended in one way, was sent within its policy, and was told failed only if given up on. */
  predicate Accounted(d: Desk, s: nat) {
    s < |d.ledger| ==>
      && var entry := d.ledger[s];
      && (entry.fate.Waiting? ==>
            entry.fate.slot < |d.slots| && d.slots[entry.fate.slot].used && d.slots[entry.fate.slot].serial == s)
      && entry.told == (if entry.fate.GivenUp? then 1 else 0)
      && 1 <= entry.attempts <= Max(1, entry.retries)
  }

  function Tally(ledger: seq<Entry>, fate: Fate): nat {
    if |ledger| == 0 then 0
    else Tally(ledger[..|ledger| - 1], fate) + (if SameKind(ledger[|ledger| - 1].fate, fate) then 1 else 0)
  }

  predicate SameKind(a: Fate, b: Fate) {
    (a.Waiting? && b.Waiting?) || (a.Completed? && b.Completed?) || (a.GivenUp? && b.GivenUp?) || (a.Dropped? && b.Dropped?)
  }

  function InUse(slots: seq<Slot>): nat {
    if |slots| == 0 then 0 else InUse(slots[..|slots| - 1]) + (if slots[|slots| - 1].used then 1 else 0)
  }

  ghost predicate Kept(d: Desk) {
    && (forall k: nat {:trigger Backed(d, k)} :: Backed(d, k))
    && (forall s: nat {:trigger Accounted(d, s)} :: Accounted(d, s))
    && d.completed == Tally(d.ledger, Completed)
    && d.failed == Tally(d.ledger, GivenUp)
    && d.dropped == Tally(d.ledger, Dropped)
    && InUse(d.slots) == Tally(d.ledger, Waiting(0))
  }

  // ---- counting ----

  lemma {:induction false} TallyUpdated(ledger: seq<Entry>, s: nat, entry: Entry, fate: Fate)
    requires s < |ledger|
    ensures Tally(ledger[s := entry], fate) + (if SameKind(ledger[s].fate, fate) then 1 else 0)
         == Tally(ledger, fate) + (if SameKind(entry.fate, fate) then 1 else 0)
  {
    var n := |ledger| - 1;
    if s == n {
      assert ledger[s := entry][..n] == ledger[..n];
    } else {
      assert ledger[s := entry][..n] == ledger[..n][s := entry];
      TallyUpdated(ledger[..n], s, entry, fate);
    }
  }

  lemma TallyAppended(ledger: seq<Entry>, entry: Entry, fate: Fate)
    ensures Tally(ledger + [entry], fate) == Tally(ledger, fate) + (if SameKind(entry.fate, fate) then 1 else 0)
  {
    assert (ledger + [entry])[..|ledger|] == ledger;
  }

  lemma {:induction false} InUseUpdated(slots: seq<Slot>, k: nat, slot: Slot)
    requires k < |slots|
    ensures InUse(slots[k := slot]) + (if slots[k].used then 1 else 0) == InUse(slots) + (if slot.used then 1 else 0)
  {
    var n := |slots| - 1;
    if k == n {
      assert slots[k := slot][..n] == slots[..n];
    } else {
      assert slots[k := slot][..n] == slots[..n][k := slot];
      InUseUpdated(slots[..n], k, slot);
    }
  }

  /** Every accepted request is completed, failed, dropped or still pending. */
  lemma {:induction false} FatesPartition(ledger: seq<Entry>)
    ensures |ledger| == Tally(ledger, Completed) + Tally(ledger, GivenUp) + Tally(ledger, Dropped) + Tally(ledger, Waiting(0))
  {
    if |ledger| > 0 {
      FatesPartition(ledger[..|ledger| - 1]);
    }
  }

  // ---- the primitives keep it ----

  lemma RegisterKeeps(d: Desk, k: nat, ask: Ask)
    requires Kept(d) && k < |d.slots| && !d.slots[k].used
    ensures Kept(Register(d, k, ask))
  {
    var after := Register(d, k, ask);
    forall i: nat ensures Backed(after, i) {
      assert Backed(d, i);
    }
    forall s: nat ensures Accounted(after, s) {
      assert Accounted(d, s);
    }
    forall fate: Fate ensures Tally(after.ledger, fate) == Tally(d.ledger, fate) + (if fate.Waiting? then 1 else 0) {
      TallyAppended(d.ledger, after.ledger[|d.ledger|], fate);
    }
    InUseUpdated(d.slots, k, after.slots[k]);
  }

  lemma RestampKeeps(d: Desk, k: nat, now: nat)
    requires Kept(d) && k < |d.slots| && d.slots[k].used && d.slots[k].sends < d.slots[k].policy.retries
    ensures Kept(Restamp(d, k, now))
  {
    assert Backed(d, k);
    var after := Restamp(d, k, now);
    var s := d.slots[k].serial;
    forall i: nat ensures Backed(after, i) {
      assert Backed(d, i);
    }
    forall t: nat ensures Accounted(after, t) {
      assert Accounted(d, t);
    }
    forall fate: Fate ensures Tally(after.ledger, fate) == Tally(d.ledger, fate) {
      TallyUpdated(d.ledger, s, after.ledger[s], fate);
    }
    InUseUpdated(d.slots, k, after.slots[k]);
  }

  lemma CloseKeeps(d: Desk, k: nat, fate: Fate)
    requires Kept(d) && k < |d.slots| && d.slots[k].used && !fate.Waiting?
    ensures Kept(Close(d, k, fate))
  {
    assert Backed(d, k);
    var after := Close(d, k, fate);
    var s := d.slots[k].serial;
    forall i: nat ensures Backed(after, i) {
      assert Backed(d, i);
    }
    forall t: nat ensures Accounted(after, t) {
      assert Accounted(d, t);
    }
    forall f: Fate ensures Tally(after.ledger, f) + (if f.Waiting? then 1 else 0)
                        == Tally(d.ledger, f) + (if SameKind(fate, f) then 1 else 0) {
      TallyUpdated(d.ledger, s, after.ledger[s], f);
    }
    InUseUpdated(d.slots, k, after.slots[k]);
  }
}
