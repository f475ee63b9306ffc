/**
 * The messenger object: a fixed table of pending requests and a dispatch table, searched and
 * changed in place, with callbacks made in the middle of its loops. Every method is proved against
 * the desk.
 */
module Messenger {
  import opened Bytes
  import opened TransportNode
  import opened HandlerTable
  import opened MessengerDesk
  import opened MessengerRuns

  lemma FirstFreeIs(slots: seq<Slot>, k: nat)
    requires k <= |slots| && (forall i | 0 <= i < k :: slots[i].used) && (k < |slots| ==> !slots[k].used)
    ensures FirstFree(slots) == k
  {
    if k > 0 {
      FirstFreeIs(slots[1..], k - 1);
    }
  }

  lemma FirstAnsweredIs(slots: seq<Slot>, src: NodeId, id: nat, k: nat)
    requires k <= |slots| && (forall i | 0 <= i < k :: !Answers(slots[i], src, id)) && (k < |slots| ==> Answers(slots[k], src, id))
    ensures FirstAnswered(slots, src, id) == k
  {
    if k > 0 {
      FirstAnsweredIs(slots[1..], src, id, k - 1);
    }
  }

  class Messenger {
    const pending: array<Slot>
    const handlers: array<Option<nat>>
    const tags: nat -> seq<nat>
    const takes: nat -> bool
    var nextId: nat
    var clock: nat
    var requests: nat
    var completed: nat
    var failed: nat
    var unmatched: nat
    var resent: nat
    var refused: nat
    var shadowed: int
    var received: nat
    var undecodable: nat
    var unhandled: nat
    var handled: nat
    var ignored: nat
    var sent: nat
    var acked: nat

    // The letters handed to the transport, and those it took, in order.
    var offered: seq<Letter>
    var outbox: seq<Letter>

    // The messages decoded, in order, acknowledgements aside.
    var inbox: seq<Mail>

    // History the source does not keep.
    ghost var drawn: nat
    ghost var dropped: nat
    ghost var ledger: seq<Entry>
    ghost var calls: seq<Callback>

    ghost function Mailroom(): Post
      reads this, handlers
    {
      Post(tags, takes, Claims(handlers[..], shadowed), received, undecodable, unhandled, handled, ignored, sent, acked,
           offered, outbox, inbox, calls)
    }

    ghost function State(): Desk
      reads this, pending, handlers
    {
      Desk(pending[..], nextId, drawn, clock, completed, failed, dropped, unmatched, resent, refused, ledger, Mailroom())
    }

    ghost predicate Valid()
      reads this
    {
      requests == |ledger| && nextId < ID_LIMIT && pending as object != handlers
    }

    constructor (capacity: nat, tags: nat -> seq<nat>, takes: nat -> bool)
      ensures Valid() && fresh(pending) && fresh(handlers) && State() == Opening(capacity, tags, takes)
    {
      pending := new Slot[capacity](_ => FREE);
      handlers := new Option<nat>[TAG_SLOTS](_ => None);
      this.tags, this.takes := tags, takes;
      nextId, clock, requests, completed, failed, unmatched, resent, refused := 0, 0, 0, 0, 0, 0, 0, 0;
      shadowed, received, undecodable, unhandled, handled, ignored, sent, acked := 0, 0, 0, 0, 0, 0, 0, 0;
      offered, outbox, drawn, dropped, ledger, inbox, calls := [], [], 0, 0, [], [], [];
      new;
      assert pending[..] == Opening(capacity, tags, takes).slots;
      assert handlers[..] == NO_CLAIMS.slots;
    }

    // ---- sending ----

    /** Hands one letter to the transport, which takes it or not. */
    method Transmit(letter: Letter) returns (taken: bool)
      modifies `offered, `outbox
      ensures taken == Takes(old(Mailroom())) && Mailroom() == Hand(old(Mailroom()), letter)
    {
      taken := takes(|offered|);
      offered := offered + [letter];
      if taken {
        outbox := outbox + [letter];
      }
    }

    method EmitLetter(letter: Letter)
      requires Valid()
      modifies `offered, `outbox, `sent, `refused
      ensures Valid() && State() == Emit(old(State()), letter)
    {
      var taken := Transmit(letter);
      if taken {
        sent := sent + 1;
      } else {
        refused := refused + 1;
      }
    }

    /** Encodes one message and unicasts it, once. */
    method SendOnce(dst: NodeId, envelope: Envelope, encodes: bool)
      requires Valid()
      modifies `offered, `outbox, `sent, `refused
      ensures Valid() && State() == MessengerRuns.Send(old(State()), dst, envelope, encodes)
    {
      if dst == BROADCAST || !encodes {
        refused := refused + 1;
        return;
      }
      EmitLetter(Letter(dst, envelope, Said));
    }

    // ---- requests ----

    method DrawId() returns (id: nat)
      requires Valid()
      modifies `nextId, `drawn
      ensures Valid() && id == nextId
      ensures State() == old(State()).(nextId := NextId(old(nextId)), drawn := old(drawn) + 1)
    {
      nextId := (nextId + 1) % ID_LIMIT;
      if nextId == 0 {
        nextId := 1;
      }
      drawn := drawn + 1;
      return nextId;
    }

    method FindFree() returns (k: nat)
      ensures k == FirstFree(pending[..])
    {
      k := 0;
      while k < pending.Length && pending[k].used
        invariant k <= pending.Length
        invariant forall i | 0 <= i < k :: pending[i].used
      {
        k := k + 1;
      }
      FirstFreeIs(pending[..], k);
    }

    /** Fills a free slot with a request. */
    method Keep(k: nat, ask: Ask)
      requires Valid() && k < pending.Length
      modifies `requests, `ledger, pending
      ensures Valid() && State() == Register(old(State()), k, ask)
    {
      var envelope := Envelope(ask.tag, nextId, ask.body);
      pending[k] := Slot(true, requests, ask.dst, nextId, envelope, ask.owner, ask.policy, clock, 1);
      requests := requests + 1;
      ledger := ledger + [Entry(ask.dst, ask.owner, nextId, drawn, envelope, ask.policy.retries, Waiting(k), 1, 0)];
      assert pending[..] == Register(old(State()), k, ask).slots;
    }

    /** Numbers a request, keeps it and sends it; 0 when it is refused, its id otherwise. */
    method Request(ask: Ask) returns (id: nat)
      requires Valid()
      modifies this, pending
      ensures Valid() && State() == MessengerRuns.Request(old(State()), ask)
      ensures id == (if |ledger| > old(|ledger|) then ledger[|ledger| - 1].id else 0)
    {
      var k := FindFree();
      if ask.dst == BROADCAST || !ask.known || k == pending.Length {
        refused := refused + 1;
        return 0;
      }
      id := DrawId();
      if !ask.encodes {
        refused := refused + 1;
        return 0;
      }
      Keep(k, ask);
      EmitLetter(Letter(ask.dst, Envelope(ask.tag, id, ask.body), Requested(requests - 1)));
    }

    /** Frees one slot and counts how its request ended; an owner given up on is told. */
    method Settle(k: nat, fate: Fate)
      requires Valid() && k < pending.Length
      modifies `completed, `failed, `dropped, `ledger, `calls, pending
      ensures Valid() && State() == Close(old(State()), k, fate)
    {
      ghost var before, slot := State(), pending[k];
      FreeSlot(k, fate);
      if fate.GivenUp? {
        calls := calls + [ToldFailed(slot.owner, slot.dst, slot.id, slot.serial)];
      }
    }

    method FreeSlot(k: nat, fate: Fate)
      requires Valid() && k < pending.Length
      modifies `completed, `failed, `dropped, `ledger, pending
      ensures Valid() && State() == Close(old(State()), k, fate).(post := old(Mailroom()))
    {
      ghost var after := Close(State(), k, fate);
      ledger := Ended(ledger, pending[k].serial, fate);
      pending[k] := pending[k].(used := false);
      CountEnd(fate);
      assert pending[..] == after.slots;
    }

    method CountEnd(fate: Fate)
      modifies `completed, `failed, `dropped
      ensures completed == old(completed) + (if fate.Completed? then 1 else 0)
      ensures failed == old(failed) + (if fate.GivenUp? then 1 else 0)
      ensures dropped == old(dropped) + (if fate.Dropped? then 1 else 0)
    {
      if fate.Completed? {
        completed := completed + 1;
      } else if fate.GivenUp? {
        failed := failed + 1;
      }
      dropped := dropped + (if fate.Dropped? then 1 else 0);
    }

    // ---- handlers ----

    /** A handler claims its tags; a claim of a taken or unknown slot is shadowed. */
    method AttachHandler(owner: nat)
      requires Valid()
      modifies `shadowed, handlers
      ensures Valid() && State() == Attach(old(State()), owner)
    {
      var claimed := tags(owner);
      var n := 0;
      ghost var before := Claims(handlers[..], shadowed);
      while n < |claimed|
        invariant n <= |claimed| && Valid()
        invariant Claims(handlers[..], shadowed) == Claim(before, owner, claimed[..n])
      {
        assert claimed[..n + 1][..n] == claimed[..n];
        var tag := claimed[n];
        if tag < handlers.Length && handlers[tag].None? {
          handlers[tag] := Some(owner);
        } else {
          shadowed := shadowed + 1;
        }
        n := n + 1;
      }
      assert claimed[..n] == claimed;
    }

    /** A handler that goes away gives its slots back. */
    method ReleaseTags(owner: nat)
      requires Valid()
      modifies `shadowed, handlers
      ensures Valid() && State() == Released(old(State()), owner)
    {
      var claimed := tags(owner);
      var n := 0;
      ghost var before := Claims(handlers[..], shadowed);
      while n < |claimed|
        invariant n <= |claimed| && Valid()
        invariant Claims(handlers[..], shadowed) == Release(before, owner, claimed[..n])
      {
        assert claimed[..n + 1][..n] == claimed[..n];
        var tag := claimed[n];
        if tag < handlers.Length && handlers[tag] == Some(owner) {
          handlers[tag] := None;
        } else {
          shadowed := shadowed - 1;
        }
        n := n + 1;
      }
      assert claimed[..n] == claimed;
    }

    method DetachHandler(owner: nat)
      requires Valid()
      modifies this, pending, handlers
      ensures Valid() && State() == Detach(old(State()), owner)
    {
      ReleaseTags(owner);
      var k := 0;
      while k < pending.Length
        invariant k <= pending.Length && Valid()
        invariant DetachFrom(State(), owner, k) == Detach(old(State()), owner)
      {
        if pending[k].used && pending[k].owner == owner {
          Settle(k, Dropped);
        }
        k := k + 1;
      }
    }

    /** What a callback does to the messenger while one of its loops is under way. */
    method Obey(todo: seq<Call>)
      requires Valid()
      modifies this, pending, handlers
      ensures Valid() && State() == ActAll(old(State()), todo)
    {
      var n := 0;
      while n < |todo|
        invariant n <= |todo| && Valid()
        invariant State() == ActAll(old(State()), todo[..n])
      {
        assert todo[..n + 1][..n] == todo[..n];
        match todo[n] {
          case Start(ask) => var _ := Request(ask);
          case Tell(dst, envelope, encodes) => SendOnce(dst, envelope, encodes);
          case Leave(owner) => DetachHandler(owner);
        }
        n := n + 1;
      }
      assert todo[..n] == todo;
    }

    method Fail(k: nat, react: Reaction)
      requires Valid() && k < pending.Length
      modifies this, pending, handlers
      ensures Valid() && State() == GiveUp(old(State()), k, react)
    {
      var serial := pending[k].serial;
      Settle(k, GivenUp);
      Obey(react(serial));
    }

    // ---- time ----

    /** Sends again what went unanswered, gives up on what is past its policy. */
    method Tick(now: nat, react: Reaction)
      requires Valid()
      modifies this, pending, handlers
      ensures Valid() && State() == TickFrom(old(State()), 0, now, react)
    {
      var k := 0;
      while k < pending.Length
        invariant k <= pending.Length && Valid()
        invariant TickFrom(State(), k, now, react) == TickFrom(old(State()), 0, now, react)
      {
        TickOne(k, now, react);
        k := k + 1;
      }
    }

    method Stamp(k: nat, now: nat)
      requires Valid() && k < pending.Length
      modifies `resent, `ledger, pending
      ensures Valid() && State() == Restamp(old(State()), k, now)
    {
      var slot := pending[k];
      pending[k] := slot.(sends := slot.sends + 1, sentAt := now);
      resent := resent + 1;
      ledger := Resent(ledger, slot.serial);
      assert pending[..] == Restamp(old(State()), k, now).slots;
    }

    method TickOne(k: nat, now: nat, react: Reaction)
      requires Valid() && k < pending.Length
      modifies this, pending, handlers
      ensures Valid() && State() == TickSlot(old(State()), k, now, react)
    {
      var slot := pending[k];
      if !slot.used || (now - slot.sentAt) % CLOCK_LIMIT < slot.policy.period {
        return;
      }
      if slot.sends < slot.policy.retries {
        Stamp(k, now);
        EmitLetter(Letter(slot.dst, slot.envelope, Requested(slot.serial)));
        return;
      }
      Fail(k, react);
    }

    // ---- presence ----

    /** An earlier slot holds the handler of this one. */
    method SeenBefore(k: nat) returns (seen: bool)
      requires k < handlers.Length
      ensures seen == (handlers[k] in handlers[..k])
    {
      seen := false;
      var earlier := 0;
      while earlier < k
        invariant earlier <= k
        invariant seen == (handlers[k] in handlers[..earlier])
      {
        assert handlers[..earlier + 1] == handlers[..earlier] + [handlers[earlier]];
        seen := seen || handlers[earlier] == handlers[k];
        earlier := earlier + 1;
      }
    }

    /** Tells every handler of a node once, not once per tag. */
    method NotifyHandlers(event: Presence, react: Reaction)
      requires Valid()
      modifies this, pending, handlers
      ensures Valid() && State() == NotifyFrom(old(State()), 0, event, react)
    {
      var k := 0;
      while k < handlers.Length
        invariant k <= handlers.Length && Valid()
        invariant NotifyFrom(State(), k, event, react) == NotifyFrom(old(State()), 0, event, react)
      {
        NotifyOne(k, event, react);
        k := k + 1;
      }
    }

    method NotifyOne(k: nat, event: Presence, react: Reaction)
      requires Valid() && k < handlers.Length
      modifies this, pending, handlers
      ensures Valid() && State() == NotifySlot(old(State()), k, event, react)
    {
      var handler := handlers[k];
      var seen := SeenBefore(k);
      assert handlers[..][..k] == handlers[..k];
      if handler.None? || seen {
        return;
      }
      calls := calls + [NewsOf(event, handler.value)];
      Obey(react(handler.value));
    }

    method NodeUp(id: NodeId, react: Reaction)
      requires Valid()
      modifies this, pending, handlers
      ensures Valid() && State() == OnNodeUp(old(State()), id, react)
    {
      NotifyHandlers(Up(id), react);
    }

    /** A node went down: its requests are given up on at once, then every handler is told. */
    method NodeDown(id: NodeId, failing: Reaction, react: Reaction)
      requires Valid()
      modifies this, pending, handlers
      ensures Valid() && State() == OnNodeDown(old(State()), id, failing, react)
    {
      var k := 0;
      while k < pending.Length
        invariant k <= pending.Length && Valid()
        invariant NodeDownFrom(State(), id, k, failing) == NodeDownFrom(old(State()), id, 0, failing)
      {
        if pending[k].used && pending[k].dst == id {
          Fail(k, failing);
        }
        k := k + 1;
      }
      NotifyHandlers(Down(id), react);
    }

    // ---- arrivals ----

    /** Completes the first pending request the acknowledgement answers. */
    method Acknowledged(src: NodeId, id: nat)
      requires Valid()
      modifies `completed, `failed, `dropped, `ledger, `calls, `unmatched, pending
      ensures Valid() && State() == OnAck(old(State()), src, id)
    {
      var k := 0;
      while k < pending.Length && !Answers(pending[k], src, id)
        invariant k <= pending.Length
        invariant forall i | 0 <= i < k :: !Answers(pending[i], src, id)
      {
        k := k + 1;
      }
      FirstAnsweredIs(pending[..], src, id, k);
      if k < pending.Length {
        Settle(k, Completed);
      } else {
        unmatched := unmatched + 1;
      }
    }

    method AcknowledgeMail(rank: nat)
      requires Valid() && rank < |inbox|
      modifies `offered, `outbox, `acked
      ensures Valid() && State() == Acknowledge(old(State()), rank)
    {
      var taken := Transmit(Letter(inbox[rank].src, AckOf(inbox[rank].envelope.id), Answered(rank)));
      if taken {
        acked := acked + 1;
      }
    }

    /** Files a message and acknowledges it when it is a request. */
    method AnswerMail(mail: Mail)
      requires Valid()
      modifies `inbox, `offered, `outbox, `acked
      ensures Valid() && State() == Answer(old(State()), mail)
    {
      var rank := |inbox|;
      inbox := inbox + [mail];
      if mail.envelope.id != 0 {
        AcknowledgeMail(rank);
      }
    }

    method DispatchMail(mail: Mail, reply: Reply)
      requires Valid()
      modifies this, pending, handlers
      ensures Valid() && State() == Dispatch(old(State()), mail, reply)
    {
      var tag := mail.envelope.tag;
      var handler := if tag < handlers.Length then handlers[tag] else None;
      assert handler == HandlerOf(Mailroom(), tag);
      if handler.None? {
        unhandled := unhandled + 1;
        return;
      }
      HandOver(handler.value, mail, reply);
      CountOutcome(reply.acted);
    }

    method CountOutcome(acted: bool)
      requires Valid()
      modifies `handled, `ignored
      ensures Valid() && State() == Outcome(old(State()), acted)
    {
      if acted {
        handled := handled + 1;
      } else {
        ignored := ignored + 1;
      }
    }

    /** The handler gets the message and acts on it. */
    method HandOver(owner: nat, mail: Mail, reply: Reply)
      requires Valid()
      modifies this, pending, handlers
      ensures Valid() && State() == ActAll(Called(old(State()), Handed(owner, mail)), reply.calls)
    {
      calls := calls + [Handed(owner, mail)];
      Obey(reply.calls);
    }

    /** One delivered payload: undecodable, an acknowledgement, or a message for its handler. */
    method ReceivePayload(src: NodeId, payload: Payload, reply: Reply)
      requires Valid()
      modifies this, pending, handlers
      ensures Valid() && State() == OnPayload(old(State()), src, payload, reply)
    {
      CountPayload();
      match payload {
        case Garbled => undecodable := undecodable + 1;
        case Sealed(envelope) =>
          if envelope.tag == ACK_TAG {
            Acknowledged(src, envelope.id);
          } else {
            ReceiveMail(Mail(src, envelope), reply);
          }
      }
    }

    method CountPayload()
      requires Valid()
      modifies `received
      ensures Valid() && State() == Received(old(State()))
    {
      received := received + 1;
    }

    /** A message is acknowledged before it is dispatched. */
    method ReceiveMail(mail: Mail, reply: Reply)
      requires Valid()
      modifies this, pending, handlers
      ensures Valid() && State() == OnMail(old(State()), mail, reply)
    {
      AnswerMail(mail);
      DispatchMail(mail, reply);
    }
  }
}
