/**
 * What a tick, a node that leaves and a handler that leaves do to each pending request, exactly: sent
 * again, given up on or left alone, whatever the callbacks made on the way do to the others.
 */
module MessengerTicks {
  import opened Bytes
  import opened TransportNode
  import opened MessengerDesk
  import opened MessengerRuns
  import opened MessengerNews
  import opened MessengerAudit

  predicate Waits(d: Desk, s: nat) {
    s < |d.ledger| && d.ledger[s].fate.Waiting?
  }

  /** The slot a waiting request waits in. */
  function SlotOf(d: Desk, s: nat): nat
    requires Waits(d, s)
  {
    d.ledger[s].fate.slot
  }

  lemma HomeOf(d: Desk, s: nat)
    requires Sane(d) && Waits(d, s)
    ensures SlotOf(d, s) < |d.slots| && d.slots[SlotOf(d, s)].used && d.slots[SlotOf(d, s)].serial == s
    ensures Backed(d, SlotOf(d, s))
  {
    assert Accounted(d, s);
    assert Backed(d, SlotOf(d, s));
  }

  /** A request nothing happened to, unless its owner left. */
  predicate Spared(a: Desk, b: Desk, s: nat) {
    && s < |b.ledger|
    && (|| b.ledger[s].fate.Dropped?
        || (Waits(a, s) && b.ledger[s] == a.ledger[s] && SlotOf(a, s) < |a.slots| && |b.slots| == |a.slots| && b.slots[SlotOf(a, s)] == a.slots[SlotOf(a, s)]))
  }

  // ---- when a request is accepted, and a message sent ----

  predicate Acceptable(d: Desk, ask: Ask) {
    ask.dst != BROADCAST && ask.known && ask.encodes && exists k: nat :: k < |d.slots| && !d.slots[k].used
  }

  lemma {:induction false} FreeIsFound(slots: seq<Slot>)
    ensures FirstFree(slots) < |slots| <==> exists k: nat :: k < |slots| && !slots[k].used
  {
    if |slots| > 0 && slots[0].used {
      FreeIsFound(slots[1..]);
      if k: nat :| k < |slots[1..]| && !slots[1..][k].used {
        assert !slots[k + 1].used;
      }
      if k: nat :| k < |slots| && !slots[k].used {
        assert !slots[1..][k - 1].used;
      }
    }
  }

  /**
   * A request is accepted exactly if it names one node that is known, encodes and finds a free slot.
   * It then waits in one, its letter was offered once, and its period counts from the last poll;
   * refused, it is counted and nothing is offered.
   */
  lemma RequestIsExact(d: Desk, ask: Ask)
    requires Sane(d)
    ensures var after, s := Request(d, ask), |d.ledger|;
      if Acceptable(d, ask)
      then && |after.ledger| == s + 1 && after.ledger[..s] == d.ledger && Waits(after, s)
           && var entry := after.ledger[s];
           && entry.dst == ask.dst && entry.owner == ask.owner && entry.retries == ask.policy.retries
           && entry.envelope == Envelope(ask.tag, entry.id, ask.body) && entry.id == NextId(d.nextId)
           && after.post.offered == d.post.offered + [LetterOf(after, s)]
           && SlotOf(after, s) < |d.slots| == |after.slots| && !d.slots[SlotOf(after, s)].used
           && var slot := after.slots[SlotOf(after, s)];
           && slot.sentAt == d.clock && slot.policy == ask.policy
      else after.ledger == d.ledger && after.slots == d.slots && after.post == d.post && after.refused == d.refused + 1
  {
    FreeIsFound(d.slots);
  }

  /** A plain message is offered once, as it is, exactly if it names one node and encodes. */
  lemma SendIsExact(d: Desk, dst: NodeId, envelope: Envelope, encodes: bool)
    ensures var after := MessengerRuns.Send(d, dst, envelope, encodes);
      && after.ledger == d.ledger && after.slots == d.slots
      && after.post.offered == d.post.offered + (if dst != BROADCAST && encodes then [Letter(dst, envelope, Said)] else [])
      && after.post.sent == d.post.sent + (if dst != BROADCAST && encodes && Takes(d.post) then 1 else 0)
      && after.refused == d.refused + (if dst != BROADCAST && encodes && Takes(d.post) then 0 else 1)
  {
  }

  // ---- what callbacks leave alone ----

  lemma RequestSpares(d: Desk, ask: Ask, s: nat)
    requires Sane(d) && Waits(d, s)
    ensures Spared(d, Request(d, ask), s)
  {
    HomeOf(d, s);
  }

  lemma CloseSpares(d: Desk, k: nat, fate: Fate, s: nat)
    requires Sane(d) && Waits(d, s) && k < |d.slots| && d.slots[k].used && k != SlotOf(d, s)
    ensures Spared(d, Close(d, k, fate), s) && Close(d, k, fate).ledger[s] == d.ledger[s]
  {
    HomeOf(d, s);
    assert Backed(d, k);
  }

  /** One after the other: once dropped it stays so. */
  lemma SparedTwice(a: Desk, b: Desk, c: Desk, s: nat)
    requires Spared(a, b, s) && Onward(b, c, false) && (Waits(b, s) ==> Spared(b, c, s))
    ensures Spared(a, c, s)
  {
    assert Carried(b.ledger, c.ledger, s, false);
  }

  /** A handler that leaves drops its own requests, from slot k on, and no other. */
  lemma {:induction false} ForgetSpares(d: Desk, owner: nat, k: nat, s: nat)
    requires Sane(d) && Waits(d, s)
    ensures Spared(d, DetachFrom(d, owner, k), s)
    ensures DetachFrom(d, owner, k).ledger[s].fate.Dropped? <==> k <= SlotOf(d, s) && d.ledger[s].owner == owner
    decreases |d.slots| - k
  {
    HomeOf(d, s);
    if k < |d.slots| {
      if d.slots[k].used && d.slots[k].owner == owner {
        CloseProceeds(d, k, Dropped);
        if k == SlotOf(d, s) {
          DroppedHere(d, owner, k, s);
        } else {
          CloseSpares(d, k, Dropped, s);
          ForgetSpares(Close(d, k, Dropped), owner, k + 1, s);
        }
      } else {
        ForgetSpares(d, owner, k + 1, s);
      }
    }
  }

  lemma DroppedHere(d: Desk, owner: nat, k: nat, s: nat)
    requires Sane(d) && Waits(d, s) && k == SlotOf(d, s) < |d.slots| && d.slots[k].used && d.slots[k].owner == owner && d.slots[k].serial == s
    ensures var after := DetachFrom(d, owner, k); s < |after.ledger| && after.ledger[s].fate.Dropped?
  {
    var next := Close(d, k, Dropped);
    CloseProceeds(d, k, Dropped);
    ForgetProceeds(next, owner, k + 1);
    assert Carried(next.ledger, DetachFrom(next, owner, k + 1).ledger, s, false);
  }

  /** A handler that leaves drops exactly its own waiting requests. */
  lemma LeavingDropsItsOwn(d: Desk, owner: nat, s: nat)
    requires Sane(d) && Waits(d, s)
    ensures var after := Detach(d, owner);
      && s < |after.ledger|
      && (if d.ledger[s].owner == owner then after.ledger[s].fate.Dropped? else after.ledger[s] == d.ledger[s])
  {
    ReleaseProceeds(d, owner);
    ForgetSpares(Released(d, owner), owner, 0, s);
  }

  lemma {:induction false} ActsSpare(d: Desk, calls: seq<Call>, s: nat)
    requires Sane(d) && Waits(d, s)
    ensures Spared(d, ActAll(d, calls), s)
  {
    HomeOf(d, s);
    if |calls| > 0 {
      var before := ActAll(d, calls[..|calls| - 1]);
      ActsProceed(d, calls[..|calls| - 1]);
      ActsSpare(d, calls[..|calls| - 1], s);
      ActSpares(before, calls[|calls| - 1], s);
      ActProceeds(before, calls[|calls| - 1]);
      SparedTwice(d, before, ActAll(d, calls), s);
    }
  }

  lemma ActProceeds(d: Desk, call: Call)
    requires Sane(d)
    ensures Proceeds(d, Act(d, call))
  {
    match call
    case Start(ask) => RequestProceeds(d, ask);
    case Tell(dst, envelope, encodes) => SendProceeds(d, dst, envelope, encodes);
    case Leave(owner) => DetachProceeds(d, owner);
  }

  lemma ActSpares(d: Desk, call: Call, s: nat)
    requires Sane(d)
    ensures Waits(d, s) ==> Spared(d, Act(d, call), s)
  {
    if Waits(d, s) {
      HomeOf(d, s);
      match call
      case Start(ask) => RequestSpares(d, ask, s);
      case Tell(_, _, _) =>
      case Leave(owner) =>
        ReleaseProceeds(d, owner);
        ForgetSpares(Released(d, owner), owner, 0, s);
    }
  }

  // ---- the other slots of a tick ----

  lemma OtherSlotSpares(d: Desk, k: nat, now: nat, react: Reaction, s: nat)
    requires Sane(d) && Waits(d, s) && k < |d.slots| && k != SlotOf(d, s)
    ensures Spared(d, TickSlot(d, k, now, react), s)
  {
    HomeOf(d, s);
    if Due(d.slots[k], now) {
      assert Backed(d, k);
      if d.slots[k].sends >= d.slots[k].policy.retries {
        GivingUpSpares(d, k, react, s);
      }
    }
  }

  lemma GivingUpSpares(d: Desk, k: nat, react: Reaction, s: nat)
    requires Sane(d) && Waits(d, s) && k < |d.slots| && d.slots[k].used && k != SlotOf(d, s)
    ensures Spared(d, GiveUp(d, k, react), s)
  {
    var closed := Close(d, k, GivenUp);
    CloseProceeds(d, k, GivenUp);
    CloseSpares(d, k, GivenUp, s);
    ActsProceed(closed, react(d.slots[k].serial));
    ActsSpare(closed, react(d.slots[k].serial), s);
    SparedTwice(d, closed, GiveUp(d, k, react), s);
  }

  /** Past its own slot, a tick leaves a waiting request alone. */
  lemma {:induction false} RestSpares(d: Desk, k: nat, now: nat, react: Reaction, s: nat)
    requires Sane(d) && Waits(d, s) && SlotOf(d, s) < k
    ensures Spared(d, TickFrom(d, k, now, react), s)
    decreases |d.slots| - k
  {
    HomeOf(d, s);
    if k < |d.slots| {
      var next := TickSlot(d, k, now, react);
      TickSlotProceeds(d, k, now, react);
      OtherSlotSpares(d, k, now, react, s);
      TickProceeds(next, k + 1, now, react);
      if Waits(next, s) {
        RestSpares(next, k + 1, now, react, s);
      }
      SparedTwice(d, next, TickFrom(d, k, now, react), s);
    }
  }

  // ---- its own slot ----

  /** The period of the request has passed since it was last sent. */
  predicate Overdue(d: Desk, s: nat, now: nat)
    requires Waits(d, s) && SlotOf(d, s) < |d.slots|
  {
    (now - d.slots[SlotOf(d, s)].sentAt) % CLOCK_LIMIT >= d.slots[SlotOf(d, s)].policy.period
  }

  /** It was sent as often as its policy allows. */
  predicate Spent(d: Desk, s: nat)
    requires s < |d.ledger|
  {
    d.ledger[s].attempts >= d.ledger[s].retries
  }

  /**
   * What a tick does to a waiting request: overdue and spent, it is given up on; overdue, it is sent
   * once more and its period starts anew; otherwise nothing. Unless its owner leaves on the way.
   */
  predicate Treated(d: Desk, after: Desk, s: nat, now: nat)
    requires Waits(d, s) && SlotOf(d, s) < |d.slots|
  {
    var k := SlotOf(d, s);
    && s < |after.ledger| && |after.slots| == |d.slots|
    && (|| after.ledger[s].fate.Dropped?
        || (&& after.ledger[s].attempts == d.ledger[s].attempts + (if Overdue(d, s, now) && !Spent(d, s) then 1 else 0)
            && (after.ledger[s].fate.GivenUp? <==> Overdue(d, s, now) && Spent(d, s))
            && (!after.ledger[s].fate.GivenUp? ==>
                  && after.ledger[s].fate == d.ledger[s].fate
                  && after.slots[k].sentAt == if Overdue(d, s, now) then now else d.slots[k].sentAt)))
  }

  lemma OwnSlotTreats(d: Desk, now: nat, react: Reaction, s: nat)
    requires Sane(d) && Waits(d, s)
    ensures SlotOf(d, s) < |d.slots| && Treated(d, TickSlot(d, SlotOf(d, s), now, react), s, now)
  {
    HomeOf(d, s);
    var k := SlotOf(d, s);
    if Overdue(d, s, now) && Spent(d, s) {
      var closed := Close(d, k, GivenUp);
      CloseProceeds(d, k, GivenUp);
      ActsProceed(closed, react(s));
      assert Carried(closed.ledger, ActAll(closed, react(s)).ledger, s, false);
    }
  }

  lemma TreatedAndSpared(d: Desk, next: Desk, after: Desk, k: nat, now: nat, react: Reaction, s: nat)
    requires Sane(next) && Waits(d, s) && SlotOf(d, s) == k < |d.slots| && Treated(d, next, s, now)
    requires after == TickFrom(next, k + 1, now, react) && Onward(next, after, false)
    ensures Treated(d, after, s, now)
  {
    if Waits(next, s) {
      RestSpares(next, k + 1, now, react, s);
    } else {
      assert Carried(next.ledger, after.ledger, s, false);
    }
  }

  lemma SparedAndTreated(d: Desk, next: Desk, after: Desk, now: nat, s: nat)
    requires Waits(d, s) && SlotOf(d, s) < |d.slots| == |next.slots| == |after.slots| && Spared(d, next, s) && Onward(next, after, false)
    requires Waits(next, s) ==> SlotOf(next, s) < |next.slots| && Treated(next, after, s, now)
    ensures Treated(d, after, s, now)
  {
    assert Carried(next.ledger, after.ledger, s, false);
  }

  lemma {:induction false} TreatedFrom(d: Desk, k: nat, now: nat, react: Reaction, s: nat)
    requires Sane(d) && Waits(d, s) && k <= SlotOf(d, s) < |d.slots|
    ensures Treated(d, TickFrom(d, k, now, react), s, now)
    decreases |d.slots| - k
  {
    HomeOf(d, s);
    var next := TickSlot(d, k, now, react);
    TickSlotProceeds(d, k, now, react);
    TickProceeds(next, k + 1, now, react);
    if k == SlotOf(d, s) {
      OwnSlotTreats(d, now, react, s);
      TreatedAndSpared(d, next, TickFrom(next, k + 1, now, react), k, now, react, s);
    } else {
      OtherSlotSpares(d, k, now, react, s);
      if Waits(next, s) {
        TreatedFrom(next, k + 1, now, react, s);
      }
      SparedAndTreated(d, next, TickFrom(next, k + 1, now, react), now, s);
    }
  }

  // ---- a whole tick ----

  /** A callback in which no handler leaves drops nothing. */
  lemma {:induction false} ActsDropNothing(d: Desk, calls: seq<Call>, s: nat)
    requires Sane(d) && NobodyLeaves(calls) && s < |ActAll(d, calls).ledger| && ActAll(d, calls).ledger[s].fate.Dropped?
    ensures s < |d.ledger| && d.ledger[s].fate.Dropped?
  {
    if |calls| > 0 {
      var n := |calls| - 1;
      ActsProceed(d, calls[..n]);
      assert !calls[n].Leave?;
      assert s < |ActAll(d, calls[..n]).ledger| && ActAll(d, calls[..n]).ledger[s].fate.Dropped?;
      ActsDropNothing(d, calls[..n], s);
    }
  }

  lemma SlotDropsNothing(d: Desk, k: nat, now: nat, react: Reaction, s: nat)
    requires Sane(d) && k < |d.slots| && forall r: nat :: NobodyLeaves(react(r))
    requires var after := TickSlot(d, k, now, react); s < |after.ledger| && after.ledger[s].fate.Dropped?
    ensures s < |d.ledger| && d.ledger[s].fate.Dropped?
  {
    if Due(d.slots[k], now) {
      assert Backed(d, k);
      if d.slots[k].sends >= d.slots[k].policy.retries {
        CloseProceeds(d, k, GivenUp);
        ActsDropNothing(Close(d, k, GivenUp), react(d.slots[k].serial), s);
      }
    }
  }

  lemma {:induction false} TickDropsNothing(d: Desk, k: nat, now: nat, react: Reaction, s: nat)
    requires Sane(d) && forall r: nat :: NobodyLeaves(react(r))
    requires var after := TickFrom(d, k, now, react); s < |after.ledger| && after.ledger[s].fate.Dropped?
    ensures s < |d.ledger| && d.ledger[s].fate.Dropped?
    decreases |d.slots| - k
  {
    if k < |d.slots| {
      TickSlotProceeds(d, k, now, react);
      TickDropsNothing(TickSlot(d, k, now, react), k + 1, now, react, s);
      SlotDropsNothing(d, k, now, react, s);
    }
  }

  /**
   * Exactly what a tick does to a waiting request: its letter is offered to the transport once more,
   * and it goes on waiting, if and only if its period has passed and fewer letters than its policy
   * allows were offered; it fails if and only if its period has passed and they were all offered.
   * Its period counts from this tick if it was sent in it. Only a handler that leaves on the way can
   * drop it instead.
   */
  lemma TickIsExact(d: Desk, now: nat, react: Reaction, s: nat)
    requires Sane(d) && Matched(d) && Waits(d, s)
    ensures SlotOf(d, s) < |d.slots|
    ensures var after, offers := TickFrom(d, 0, now, react), Times(d.post.offered, LetterOf(d, s));
      && s < |after.ledger| && LetterOf(after, s) == LetterOf(d, s)
      && (|| after.ledger[s].fate.Dropped?
          || (&& Times(after.post.offered, LetterOf(d, s)) == offers + (if Overdue(d, s, now) && offers < d.ledger[s].retries then 1 else 0)
              && (after.ledger[s].fate.GivenUp? <==> Overdue(d, s, now) && offers >= d.ledger[s].retries)
              && (Waits(after, s) <==> !after.ledger[s].fate.GivenUp?)
              && (Waits(after, s) ==>
                    && SlotOf(after, s) == SlotOf(d, s) < |after.slots|
                    && after.slots[SlotOf(d, s)].sentAt == (if Overdue(d, s, now) then now else d.slots[SlotOf(d, s)].sentAt))))
      && ((forall r: nat :: NobodyLeaves(react(r))) ==> !after.ledger[s].fate.Dropped?)
  {
    HomeOf(d, s);
    var after := TickFrom(d, 0, now, react);
    TreatedFrom(d, 0, now, react, s);
    TickProceeds(d, 0, now, react);
    TickMatches(d, 0, now, react);
    assert Carried(d.ledger, after.ledger, s, false);
    assert LettersMatch(d, LetterOf(d, s)) && LettersMatch(after, LetterOf(d, s));
    if (forall r: nat :: NobodyLeaves(react(r))) && after.ledger[s].fate.Dropped? {
      TickDropsNothing(d, 0, now, react, s);
    }
  }

  // ---- what else fails a request ----

  predicate Failed(d: Desk, s: nat) {
    s < |d.ledger| && d.ledger[s].fate.GivenUp?
  }

  /** No callback fails a request. */
  lemma {:induction false} ForgetFailsNone(d: Desk, owner: nat, k: nat, s: nat)
    requires Failed(DetachFrom(d, owner, k), s)
    ensures Failed(d, s)
    decreases |d.slots| - k
  {
    if k < |d.slots| {
      ForgetFailsNone(if d.slots[k].used && d.slots[k].owner == owner then Close(d, k, Dropped) else d, owner, k + 1, s);
    }
  }

  lemma {:induction false} ActsFailNone(d: Desk, calls: seq<Call>, s: nat)
    requires Failed(ActAll(d, calls), s)
    ensures Failed(d, s)
  {
    if |calls| > 0 {
      var before, call := ActAll(d, calls[..|calls| - 1]), calls[|calls| - 1];
      if call.Leave? {
        ForgetFailsNone(Released(before, call.owner), call.owner, 0, s);
      }
      ActsFailNone(d, calls[..|calls| - 1], s);
    }
  }

  lemma {:induction false} NewsFailsNone(d: Desk, k: nat, event: Presence, react: Reaction, s: nat)
    requires Failed(NotifyFrom(d, k, event, react), s)
    ensures Failed(d, s)
    decreases |d.post.claims.slots| - k
  {
    if k < |d.post.claims.slots| {
      NewsFailsNone(NotifySlot(d, k, event, react), k + 1, event, react, s);
      if First(d.post.claims.slots, k) {
        var owner := d.post.claims.slots[k].value;
        ActsFailNone(Called(d, NewsOf(event, owner)), react(owner), s);
      }
    }
  }

  lemma PayloadFailsNone(d: Desk, src: NodeId, payload: Payload, reply: Reply, s: nat)
    requires Failed(OnPayload(d, src, payload, reply), s)
    ensures Failed(d, s)
  {
    if payload.Sealed? && payload.envelope.tag != ACK_TAG {
      var mail := Mail(src, payload.envelope);
      var answered := Answer(Received(d), mail);
      if HandlerOf(answered.post, mail.envelope.tag).Some? {
        ActsFailNone(Called(answered, Handed(HandlerOf(answered.post, mail.envelope.tag).value, mail)), reply.calls, s);
      }
    }
  }

  /** A node that leaves fails requests to it, and no other. */
  lemma {:induction false} LossFailsItsOwn(d: Desk, id: NodeId, k: nat, react: Reaction, s: nat)
    requires Sane(d) && Failed(NodeDownFrom(d, id, k, react), s)
    ensures Failed(d, s) || NodeDownFrom(d, id, k, react).ledger[s].dst == id
    decreases |d.slots| - k
  {
    if k < |d.slots| {
      if d.slots[k].used && d.slots[k].dst == id {
        var next := GiveUp(d, k, react);
        GiveUpProceeds(d, k, react);
        LossFailsItsOwn(next, id, k + 1, react, s);
        if Failed(next, s) && !Failed(d, s) {
          ActsFailNone(Close(d, k, GivenUp), react(d.slots[k].serial), s);
          assert Backed(d, k);
          NodeDownProceeds(next, id, k + 1, react);
          CloseProceeds(d, k, GivenUp);
          ActsProceed(Close(d, k, GivenUp), react(d.slots[k].serial));
          assert Carried(Close(d, k, GivenUp).ledger, next.ledger, s, false);
          assert Carried(next.ledger, NodeDownFrom(next, id, k + 1, react).ledger, s, false);
        }
      } else {
        LossFailsItsOwn(d, id, k + 1, react, s);
      }
    }
  }

  /** And it ends every request that waits for it. */
  lemma {:induction false} LossEndsItsOwn(d: Desk, id: NodeId, k: nat, react: Reaction, s: nat)
    requires Sane(d) && Waits(d, s) && d.ledger[s].dst == id && k <= SlotOf(d, s)
    ensures var after := NodeDownFrom(d, id, k, react); s < |after.ledger| && (after.ledger[s].fate.GivenUp? || after.ledger[s].fate.Dropped?)
    decreases |d.slots| - k
  {
    HomeOf(d, s);
    if d.slots[k].used && d.slots[k].dst == id {
      var next := GiveUp(d, k, react);
      GiveUpProceeds(d, k, react);
      NodeDownProceeds(next, id, k + 1, react);
      if k == SlotOf(d, s) {
        CloseProceeds(d, k, GivenUp);
        ActsProceed(Close(d, k, GivenUp), react(s));
        assert Carried(Close(d, k, GivenUp).ledger, next.ledger, s, false);
        assert Carried(next.ledger, NodeDownFrom(next, id, k + 1, react).ledger, s, false);
      } else {
        GivingUpSpares(d, k, react, s);
        if Waits(next, s) {
          LossEndsItsOwn(next, id, k + 1, react, s);
        } else {
          assert Carried(next.ledger, NodeDownFrom(next, id, k + 1, react).ledger, s, false);
        }
      }
    } else {
      LossEndsItsOwn(d, id, k + 1, react, s);
    }
  }

  /** A request is failed by a tick, or by the loss of the node it names. */
  lemma FailedBy(d: Desk, ev: Event, s: nat)
    requires Sane(d) && Failed(Step(d, ev), s) && !Failed(d, s)
    ensures ev.Ticks? || (ev.LosesNode? && Step(d, ev).ledger[s].dst == ev.id)
  {
    match ev
    case Detaches(owner) => ForgetFailsNone(Released(d, owner), owner, 0, s);
    case GainsNode(id, react) => NewsFailsNone(d, 0, Up(id), react, s);
    case LosesNode(id, failing, react) =>
      var failed := NodeDownFrom(d, id, 0, failing);
      NodeDownProceeds(d, id, 0, failing);
      NotifyKeeps(failed, 0, Down(id), react);
      NewsFailsNone(failed, 0, Down(id), react, s);
      LossFailsItsOwn(d, id, 0, failing, s);
      assert Carried(failed.ledger, Step(d, ev).ledger, s, false);
    case Receives(src, payload, reply) => PayloadFailsNone(d, src, payload, reply, s);
    case _ =>
  }

  /** A tick fails only what was sent as often as its policy allows. */
  lemma SlotFailsSpent(d: Desk, k: nat, now: nat, react: Reaction, s: nat)
    requires Sane(d) && k < |d.slots| && Failed(TickSlot(d, k, now, react), s) && !Failed(d, s)
    ensures Spent(TickSlot(d, k, now, react), s)
  {
    if Due(d.slots[k], now) {
      assert Backed(d, k);
      if d.slots[k].sends >= d.slots[k].policy.retries {
        var closed := Close(d, k, GivenUp);
        CloseProceeds(d, k, GivenUp);
        ActsProceed(closed, react(d.slots[k].serial));
        ActsFailNone(closed, react(d.slots[k].serial), s);
        assert Carried(closed.ledger, GiveUp(d, k, react).ledger, s, false);
      }
    }
  }

  lemma StaysSpent(d: Desk, k: nat, now: nat, react: Reaction, s: nat)
    requires Sane(d) && Failed(d, s) && Spent(d, s)
    ensures s < |TickFrom(d, k, now, react).ledger| && Spent(TickFrom(d, k, now, react), s)
  {
    TickProceeds(d, k, now, react);
    assert Carried(d.ledger, TickFrom(d, k, now, react).ledger, s, false);
  }

  lemma {:induction false} TickFailsSpent(d: Desk, k: nat, now: nat, react: Reaction, s: nat)
    requires Sane(d) && Failed(TickFrom(d, k, now, react), s) && !Failed(d, s)
    ensures Spent(TickFrom(d, k, now, react), s)
    decreases |d.slots| - k
  {
    if k < |d.slots| {
      var next := TickSlot(d, k, now, react);
      TickSlotProceeds(d, k, now, react);
      if Failed(next, s) {
        SlotFailsSpent(d, k, now, react, s);
        StaysSpent(next, k + 1, now, react, s);
      } else {
        TickFailsSpent(next, k + 1, now, react, s);
      }
    }
  }

  // ---- whole runs ----

  /** The node the request named was lost in that event, and the request failed by it. */
  predicate LostTo(trace: seq<Desk>, events: seq<Event>, j: nat, s: nat) {
    && j < |events| && j + 1 < |trace| && events[j].LosesNode?
    && !Failed(trace[j], s) && Failed(trace[j + 1], s) && trace[j + 1].ledger[s].dst == events[j].id
  }

  /**
   * Over every run, a request given up on was offered to the transport exactly as often as its policy
   * allows, or failed because the node it named was lost.
   */
  lemma {:induction false} FailedWasSpent(trace: seq<Desk>, events: seq<Event>, i: nat, s: nat)
    requires Run(trace, events) && i < |trace| && Failed(trace[i], s)
    ensures Times(trace[i].post.offered, LetterOf(trace[i], s)) == Max(1, trace[i].ledger[s].retries)
         || exists j: nat :: j < i && LostTo(trace, events, j, s)
  {
    RunsAreSane(trace, events, i);
    RunsMatch(trace, events, i);
    assert Accounted(trace[i], s) && LettersMatch(trace[i], LetterOf(trace[i], s));
    assert i > 0;
    RunsAreSane(trace, events, i - 1);
    assert Turns(trace, events, i - 1);
    if Failed(trace[i - 1], s) {
      StillFailed(trace[i - 1], events[i - 1], s);
      FailedWasSpent(trace, events, i - 1, s);
      RunsMatch(trace, events, i - 1);
      assert LettersMatch(trace[i - 1], LetterOf(trace[i - 1], s));
    } else {
      FailedBy(trace[i - 1], events[i - 1], s);
      if events[i - 1].Ticks? {
        TickFailsSpent(trace[i - 1], 0, events[i - 1].now, events[i - 1].react, s);
      } else {
        assert LostTo(trace, events, i - 1, s);
      }
    }
  }

  lemma StillFailed(d: Desk, ev: Event, s: nat)
    requires Sane(d) && Failed(d, s)
    ensures Failed(Step(d, ev), s) && Step(d, ev).ledger[s] == d.ledger[s]
  {
    StepProceeds(d, ev);
    assert Carried(d.ledger, Step(d, ev).ledger, s, HearsAck(ev));
  }

  // ---- when a request was last sent ----

  lemma {:induction false} NewsSpares(d: Desk, k: nat, event: Presence, react: Reaction, s: nat)
    requires Sane(d) && Waits(d, s)
    ensures Spared(d, NotifyFrom(d, k, event, react), s)
    decreases |d.post.claims.slots| - k
  {
    HomeOf(d, s);
    if k < |d.post.claims.slots| {
      var next := NotifySlot(d, k, event, react);
      NotifySlotKeeps(d, k, event, react);
      if First(d.post.claims.slots, k) {
        var owner := d.post.claims.slots[k].value;
        CalledKeeps(d, NewsOf(event, owner));
        ActsSpare(Called(d, NewsOf(event, owner)), react(owner), s);
      }
      NotifyKeeps(next, k + 1, event, react);
      if Waits(next, s) {
        NewsSpares(next, k + 1, event, react, s);
      }
      SparedTwice(d, next, NotifyFrom(d, k, event, react), s);
    }
  }

  /** Giving up on a request ends it. */
  lemma GivenUpEnds(d: Desk, k: nat, react: Reaction, s: nat)
    requires Sane(d) && Waits(d, s) && k == SlotOf(d, s) && k < |d.slots| && d.slots[k].used
    ensures Sane(GiveUp(d, k, react)) && s < |GiveUp(d, k, react).ledger| && !Waits(GiveUp(d, k, react), s)
  {
    HomeOf(d, s);
    GiveUpProceeds(d, k, react);
    CloseProceeds(d, k, GivenUp);
    ActsProceed(Close(d, k, GivenUp), react(s));
    assert Carried(Close(d, k, GivenUp).ledger, GiveUp(d, k, react).ledger, s, false);
  }

  lemma EndedStays(d: Desk, id: NodeId, k: nat, react: Reaction, s: nat)
    requires Sane(d) && s < |d.ledger| && !Waits(d, s)
    ensures !Waits(NodeDownFrom(d, id, k, react), s)
  {
    NodeDownProceeds(d, id, k, react);
    assert Carried(d.ledger, NodeDownFrom(d, id, k, react).ledger, s, false);
  }

  lemma {:induction false} LossSpares(d: Desk, id: NodeId, k: nat, react: Reaction, s: nat)
    requires Sane(d) && Waits(d, s)
    ensures var after := NodeDownFrom(d, id, k, react); Waits(after, s) ==> Spared(d, after, s)
    decreases |d.slots| - k
  {
    HomeOf(d, s);
    if k < |d.slots| {
      if d.slots[k].used && d.slots[k].dst == id {
        var next := GiveUp(d, k, react);
        GiveUpProceeds(d, k, react);
        if k != SlotOf(d, s) {
          GivingUpSpares(d, k, react, s);
        } else {
          GivenUpEnds(d, k, react, s);
        }
        if Waits(next, s) {
          LossSpares(next, id, k + 1, react, s);
        } else {
          EndedStays(next, id, k + 1, react, s);
        }
      } else {
        LossSpares(d, id, k + 1, react, s);
      }
    }
  }

  lemma PayloadSpares(d: Desk, src: NodeId, payload: Payload, reply: Reply, s: nat)
    requires Sane(d) && Waits(d, s)
    ensures var after := OnPayload(d, src, payload, reply); Waits(after, s) ==> Spared(d, after, s)
  {
    HomeOf(d, s);
    var received := Received(d);
    CountedKeeps(d, received);
    if payload.Sealed? {
      if payload.envelope.tag == ACK_TAG {
        var k := FirstAnswered(received.slots, src, payload.envelope.id);
        if k < |received.slots| && k != SlotOf(d, s) {
          CloseSpares(received, k, Completed, s);
        }
      } else {
        var mail := Mail(src, payload.envelope);
        var answered := Answer(received, mail);
        AnswerKeeps(received, mail);
        if HandlerOf(answered.post, mail.envelope.tag).Some? {
          var called := Called(answered, Handed(HandlerOf(answered.post, mail.envelope.tag).value, mail));
          CalledKeeps(answered, Handed(HandlerOf(answered.post, mail.envelope.tag).value, mail));
          ActsSpare(called, reply.calls, s);
        }
      }
    }
  }

  /** Outside a tick a request that goes on waiting is left as it was. */
  lemma EventSpares(d: Desk, ev: Event, s: nat)
    requires Sane(d) && Waits(d, s) && !ev.Ticks? && Waits(Step(d, ev), s)
    ensures Spared(d, Step(d, ev), s)
  {
    HomeOf(d, s);
    match ev
    case Asks(ask) => RequestSpares(d, ask, s);
    case Detaches(owner) =>
      ReleaseProceeds(d, owner);
      ForgetSpares(Released(d, owner), owner, 0, s);
    case GainsNode(id, react) => NewsSpares(d, 0, Up(id), react, s);
    case LosesNode(id, failing, react) =>
      var failed := NodeDownFrom(d, id, 0, failing);
      NodeDownProceeds(d, id, 0, failing);
      NotifyKeeps(failed, 0, Down(id), react);
      assert Carried(failed.ledger, Step(d, ev).ledger, s, false);
      if Waits(failed, s) {
        LossSpares(d, id, 0, failing, s);
        NewsSpares(failed, 0, Down(id), react, s);
      }
    case Receives(src, payload, reply) => PayloadSpares(d, src, payload, reply, s);
    case _ =>
  }
}
