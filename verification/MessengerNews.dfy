/**
 * What a messenger tells its handlers and its peers: a node that comes or goes is told to every
 * handler once, a request is acknowledged before anybody acts on it, and every payload is
 * accounted for.
 */
module MessengerNews {
  import opened Bytes
  import opened TransportNode
  import opened MessengerDesk
  import opened MessengerRuns

  // ---- what a callback does not do ----

  lemma {:induction false} ForgettingCallsNobody(d: Desk, owner: nat, k: nat)
    ensures DetachFrom(d, owner, k).post.calls == d.post.calls
    decreases |d.slots| - k
  {
    if k < |d.slots| {
      ForgettingCallsNobody(if d.slots[k].used && d.slots[k].owner == owner then Close(d, k, Dropped) else d, owner, k + 1);
    }
  }

  /** What a handler does when called makes no further call to a handler. */
  lemma {:induction false} ActingCallsNobody(d: Desk, calls: seq<Call>)
    ensures ActAll(d, calls).post.calls == d.post.calls
  {
    if |calls| > 0 {
      var before, call := ActAll(d, calls[..|calls| - 1]), calls[|calls| - 1];
      ActingCallsNobody(d, calls[..|calls| - 1]);
      if call.Leave? {
        ForgettingCallsNobody(Released(before, call.owner), call.owner, 0);
      }
    }
  }

  // ---- presence ----

  /** How often a call was made, or a letter offered. */
  function Times<T(==)>(all: seq<T>, one: T): nat {
    if |all| == 0 then 0 else Times(all[..|all| - 1], one) + (if all[|all| - 1] == one then 1 else 0)
  }

  lemma TimesGrows<T>(all: seq<T>, last: T, one: T)
    ensures Times(all + [last], one) == Times(all, one) + (if last == one then 1 else 0)
  {
    assert (all + [last])[..|all|] == all;
  }

  lemma {:induction false} TimesJoins<T>(a: seq<T>, b: seq<T>, call: T)
    ensures Times(a + b, call) == Times(a, call) + Times(b, call)
  {
    if |b| == 0 {
      assert a + b == a;
    } else {
      assert (a + b)[..|a + b| - 1] == a + b[..|b| - 1];
      TimesJoins(a, b[..|b| - 1], call);
    }
  }

  /** One slot of the loop tells its handler if it is its first, and nobody else. */
  lemma SlotTells(d: Desk, k: nat, event: Presence, react: Reaction, h: nat)
    requires k < |d.post.claims.slots|
    ensures Times(NotifySlot(d, k, event, react).post.calls, NewsOf(event, h)) == Times(d.post.calls, NewsOf(event, h)) +
      (if First(d.post.claims.slots, k) && d.post.claims.slots[k] == Some(h) then 1 else 0)
  {
    if First(d.post.claims.slots, k) {
      var owner := d.post.claims.slots[k].value;
      TimesGrows(d.post.calls, NewsOf(event, owner), NewsOf(event, h));
      ActingCallsNobody(Called(d, NewsOf(event, owner)), react(owner));
    }
  }

  /** A handler keeps all its slots or none. */
  lemma AllOrNone(from: seq<Option<nat>>, to: seq<Option<nat>>, h: nat, k: nat)
    requires Thinner(from, to) && k <= |from|
    ensures Some(h) in to ==> Some(h) in from
    ensures Some(h) in to && Some(h) in from[..k] ==> Some(h) in to[..k]
    ensures Some(h) !in from[..k] ==> Some(h) !in to[..k]
  {
    if t: nat :| t < |to| && to[t] == Some(h) {
      assert Thins(from, to, t, t);
      if u: nat :| u < k && from[u] == Some(h) {
        assert Thins(from, to, t, u);
        assert to[..k][u] == Some(h);
      }
    }
    if u: nat :| u < k && to[u] == Some(h) {
      assert Thins(from, to, u, u);
      assert from[..k][u] == Some(h);
    }
  }

  /**
   * From slot k on: a handler met before is not told again, one without a slot is not told, nobody
   * is told twice, and one that keeps its slots and was not met before is told.
   */
  lemma {:induction false} NotifiedFrom(d: Desk, k: nat, event: Presence, react: Reaction, h: nat)
    requires Sane(d) && k <= |d.post.claims.slots|
    ensures var slots, after := d.post.claims.slots, NotifyFrom(d, k, event, react);
      var told := Times(after.post.calls, NewsOf(event, h)) - Times(d.post.calls, NewsOf(event, h));
      && 0 <= told <= 1
      && (Some(h) in slots[..k] || Some(h) !in slots ==> told == 0)
      && (Some(h) !in slots[..k] && Some(h) in after.post.claims.slots ==> told == 1)
    decreases |d.post.claims.slots| - k
  {
    var slots := d.post.claims.slots;
    if k < |slots| {
      var next := NotifySlot(d, k, event, react);
      SlotTells(d, k, event, react, h);
      NotifySlotKeeps(d, k, event, react);
      NotifiedFrom(next, k + 1, event, react, h);
      OneSlotOn(slots, next.post.claims.slots, k, h);
    } else {
      assert slots[..k] == slots;
    }
  }

  /** Whether a handler was met among the first slots, one slot further on. */
  lemma OneSlotOn(slots: seq<Option<nat>>, next: seq<Option<nat>>, k: nat, h: nat)
    requires Thinner(slots, next) && k < |slots|
    ensures First(slots, k) && slots[k] == Some(h) ==> Some(h) !in slots[..k] && (Some(h) in next[..k + 1] || Some(h) !in next)
    ensures Some(h) in slots[..k] ==> Some(h) in next[..k + 1] || Some(h) !in next
    ensures Some(h) !in slots ==> Some(h) !in next
    ensures Some(h) !in slots[..k] && slots[k] != Some(h) ==> Some(h) !in next[..k + 1]
    ensures Some(h) !in slots[..k] && slots[k] == Some(h) ==> First(slots, k)
  {
    AllOrNone(slots, next, h, k + 1);
    assert slots[..k + 1] == slots[..k] + [slots[k]];
  }

  /**
   * A node that comes or goes is told to every handler at most once, to none without a slot, and
   * exactly once to every handler that still owns a slot when the loop is done.
   */
  lemma EveryHandlerToldOnce(d: Desk, event: Presence, react: Reaction, h: nat)
    requires Sane(d)
    ensures var after := NotifyFrom(d, 0, event, react);
      var told := Times(after.post.calls, NewsOf(event, h)) - Times(d.post.calls, NewsOf(event, h));
      && 0 <= told <= 1
      && (Some(h) !in d.post.claims.slots ==> told == 0)
      && (Some(h) in after.post.claims.slots ==> told == 1)
  {
    NotifiedFrom(d, 0, event, react, h);
  }

  predicate NobodyLeaves(calls: seq<Call>) {
    forall i :: 0 <= i < |calls| ==> !calls[i].Leave?
  }

  lemma {:induction false} ActingKeepsTable(d: Desk, calls: seq<Call>)
    requires NobodyLeaves(calls)
    ensures ActAll(d, calls).post.claims == d.post.claims
  {
    if |calls| > 0 {
      ActingKeepsTable(d, calls[..|calls| - 1]);
    }
  }

  lemma {:induction false} NotifyKeepsTable(d: Desk, k: nat, event: Presence, react: Reaction)
    requires forall owner: nat :: NobodyLeaves(react(owner))
    ensures NotifyFrom(d, k, event, react).post.claims == d.post.claims
    decreases |d.post.claims.slots| - k
  {
    var slots := d.post.claims.slots;
    if k < |slots| {
      if First(slots, k) {
        ActingKeepsTable(Called(d, NewsOf(event, slots[k].value)), react(slots[k].value));
      }
      NotifyKeepsTable(NotifySlot(d, k, event, react), k + 1, event, react);
    }
  }

  /** While no handler goes away in the middle of it, being told once is owning a slot. */
  lemma ToldExactlyIfOwning(d: Desk, event: Presence, react: Reaction, h: nat)
    requires Sane(d) && forall owner: nat :: NobodyLeaves(react(owner))
    ensures Times(NotifyFrom(d, 0, event, react).post.calls, NewsOf(event, h)) ==
      Times(d.post.calls, NewsOf(event, h)) + (if Some(h) in d.post.claims.slots then 1 else 0)
  {
    EveryHandlerToldOnce(d, event, react, h);
    NotifyKeepsTable(d, 0, event, react);
  }

  /** The calls made on the way from one desk to another. */
  function Since(from: Desk, to: Desk): seq<Callback>
    requires |from.post.calls| <= |to.post.calls|
  {
    to.post.calls[|from.post.calls|..]
  }

  /** As a list: the loop's calls are news of the event, with the handler in it at most once. */
  lemma NewsSince(d: Desk, event: Presence, react: Reaction, h: nat)
    requires Sane(d)
    ensures var after := NotifyFrom(d, 0, event, react);
      && d.post.calls <= after.post.calls
      && (forall i :: 0 <= i < |Since(d, after)| ==> Since(d, after)[i] == NewsOf(event, Since(d, after)[i].owner))
      && Times(Since(d, after), NewsOf(event, h)) <= 1
      && (Some(h) !in d.post.claims.slots ==> Times(Since(d, after), NewsOf(event, h)) == 0)
      && (Some(h) in after.post.claims.slots ==> Times(Since(d, after), NewsOf(event, h)) == 1)
  {
    var after := NotifyFrom(d, 0, event, react);
    EveryHandlerToldOnce(d, event, react, h);
    NotifyAppends(d, 0, event, react);
    assert after.post.calls == d.post.calls + Since(d, after);
    TimesJoins(d.post.calls, Since(d, after), NewsOf(event, h));
    forall i | 0 <= i < |Since(d, after)| ensures Since(d, after)[i] == NewsOf(event, Since(d, after)[i].owner) {
      OnlyNews(d, 0, event, react, |d.post.calls| + i);
    }
  }

  /** The loop makes no other calls. */
  lemma {:induction false} OnlyNews(d: Desk, k: nat, event: Presence, react: Reaction, i: nat)
    requires |d.post.calls| <= i < |NotifyFrom(d, k, event, react).post.calls|
    ensures var call := NotifyFrom(d, k, event, react).post.calls[i]; call == NewsOf(event, call.owner)
    decreases |d.post.claims.slots| - k
  {
    var slots := d.post.claims.slots;
    if k < |slots| {
      var next := NotifySlot(d, k, event, react);
      if First(slots, k) {
        ActingCallsNobody(Called(d, NewsOf(event, slots[k].value)), react(slots[k].value));
      }
      if i < |next.post.calls| {
        NotifyAppends(next, k + 1, event, react);
      } else {
        OnlyNews(next, k + 1, event, react, i);
      }
    }
  }

  lemma {:induction false} NotifyAppends(d: Desk, k: nat, event: Presence, react: Reaction)
    ensures d.post.calls <= NotifyFrom(d, k, event, react).post.calls
    decreases |d.post.claims.slots| - k
  {
    var slots := d.post.claims.slots;
    if k < |slots| {
      if First(slots, k) {
        ActingCallsNobody(Called(d, NewsOf(event, slots[k].value)), react(slots[k].value));
      }
      NotifyAppends(NotifySlot(d, k, event, react), k + 1, event, react);
    }
  }

  // ---- arrivals ----

  /** One payload makes one call at most: a message that is no acknowledgement, to the owner of its tag. */
  lemma PayloadCalls(d: Desk, src: NodeId, payload: Payload, reply: Reply)
    ensures OnPayload(d, src, payload, reply).post.calls == d.post.calls +
      (if payload.Sealed? && payload.envelope.tag != ACK_TAG && HandlerOf(d.post, payload.envelope.tag).Some?
       then [Handed(HandlerOf(d.post, payload.envelope.tag).value, Mail(src, payload.envelope))] else [])
  {
    if payload.Sealed? && payload.envelope.tag != ACK_TAG {
      var mail := Mail(src, payload.envelope);
      var answered := Answer(Received(d), mail);
      var handler := HandlerOf(answered.post, mail.envelope.tag);
      if handler.Some? {
        ActingCallsNobody(Called(answered, Handed(handler.value, mail)), reply.calls);
      }
    }
  }

  /**
   * A request that is decoded is read and, if the transport takes the send, acknowledged to its
   * source under its id, whoever claims its tag and before anything its handler sends.
   */
  lemma AcknowledgedBeforeDispatch(d: Desk, src: NodeId, envelope: Envelope, reply: Reply)
    requires Sane(d) && envelope.tag != ACK_TAG
    ensures var after := OnPayload(d, src, Sealed(envelope), reply).post;
      && d.post.inbox + [Mail(src, envelope)] == after.inbox
      && (envelope.id != 0 && Takes(d.post) ==>
            d.post.outbox + [Letter(src, AckOf(envelope.id), Answered(|d.post.inbox|))] <= after.outbox)
  {
    var received, mail := Received(d), Mail(src, envelope);
    CountedKeeps(d, received);
    AnswerKeeps(received, mail);
    var answered := Answer(received, mail);
    DispatchKeeps(answered, mail, reply);
    DispatchFiles(answered, mail, reply);
  }

  /** Dispatching a message reads no other and counts it once. */
  lemma DispatchFiles(d: Desk, mail: Mail, reply: Reply)
    requires Sane(d)
    ensures var after := Dispatch(d, mail, reply);
      && after.post.inbox == d.post.inbox && after.completed == d.completed && after.unmatched == d.unmatched
      && after.post.received == d.post.received && after.post.undecodable == d.post.undecodable
      && after.post.unhandled + after.post.handled + after.post.ignored == d.post.unhandled + d.post.handled + d.post.ignored + 1
  {
    var handler := HandlerOf(d.post, mail.envelope.tag);
    if handler.Some? {
      var called := Called(d, Handed(handler.value, mail));
      CalledKeeps(d, Handed(handler.value, mail));
      ActsProceed(called, reply.calls);
    }
  }

  /** Every payload delivered was no envelope, an acknowledgement with or without a request, or a message of one of three outcomes. */
  predicate AddsUp(d: Desk) {
    && d.post.received == d.post.undecodable + d.completed + d.unmatched + |d.post.inbox|
    && |d.post.inbox| == d.post.unhandled + d.post.handled + d.post.ignored
  }

  lemma PayloadAddsUp(d: Desk, src: NodeId, payload: Payload, reply: Reply)
    requires Sane(d) && AddsUp(d)
    ensures AddsUp(OnPayload(d, src, payload, reply))
  {
    if payload.Sealed? && payload.envelope.tag != ACK_TAG {
      var received, mail := Received(d), Mail(src, payload.envelope);
      CountedKeeps(d, received);
      AnswerKeeps(received, mail);
      DispatchFiles(Answer(received, mail), mail, reply);
    }
  }

  lemma StepAddsUp(d: Desk, ev: Event)
    requires Sane(d) && AddsUp(d)
    ensures AddsUp(Step(d, ev))
  {
    match ev
    case Asks(ask) => RequestProceeds(d, ask);
    case Says(dst, envelope, encodes) => SendProceeds(d, dst, envelope, encodes);
    case Detaches(owner) => DetachProceeds(d, owner);
    case Ticks(now, react) => TickProceeds(d, 0, now, react);
    case GainsNode(id, react) => NotifyKeeps(d, 0, Up(id), react);
    case LosesNode(id, failing, react) => NodeLostKeeps(d, id, failing, react);
    case Receives(src, payload, reply) => PayloadAddsUp(d, src, payload, reply);
    case _ =>
  }

  /** Which counter a payload raises: that it did not decode, that nobody claims its tag, that its handler acted on it, or did not. */
  lemma PayloadIsCounted(d: Desk, src: NodeId, payload: Payload, reply: Reply)
    requires Sane(d)
    ensures var after := OnPayload(d, src, payload, reply).post;
      var message := payload.Sealed? && payload.envelope.tag != ACK_TAG;
      var claimed := message && HandlerOf(d.post, payload.envelope.tag).Some?;
      && after.received == d.post.received + 1
      && after.undecodable == d.post.undecodable + (if payload.Garbled? then 1 else 0)
      && after.unhandled == d.post.unhandled + (if message && !claimed then 1 else 0)
      && after.handled == d.post.handled + (if claimed && reply.acted then 1 else 0)
      && after.ignored == d.post.ignored + (if claimed && !reply.acted then 1 else 0)
  {
    if payload.Sealed? && payload.envelope.tag != ACK_TAG {
      var mail := Mail(src, payload.envelope);
      CountedKeeps(d, Received(d));
      AnswerKeeps(Received(d), mail);
      var answered := Answer(Received(d), mail);
      if HandlerOf(answered.post, mail.envelope.tag).Some? {
        var called := Called(answered, Handed(HandlerOf(answered.post, mail.envelope.tag).value, mail));
        CalledKeeps(answered, Handed(HandlerOf(answered.post, mail.envelope.tag).value, mail));
        ActsProceed(called, reply.calls);
      }
    }
  }

  /** No callback counts an acknowledgement, sent or heard. */
  lemma {:induction false} ForgettingAcksNone(d: Desk, owner: nat, k: nat)
    ensures var after := DetachFrom(d, owner, k); after.post.acked == d.post.acked && after.unmatched == d.unmatched
    decreases |d.slots| - k
  {
    if k < |d.slots| {
      ForgettingAcksNone(if d.slots[k].used && d.slots[k].owner == owner then Close(d, k, Dropped) else d, owner, k + 1);
    }
  }

  lemma {:induction false} ActsAckNone(d: Desk, calls: seq<Call>)
    ensures var after := ActAll(d, calls); after.post.acked == d.post.acked && after.unmatched == d.unmatched
  {
    if |calls| > 0 {
      var before, call := ActAll(d, calls[..|calls| - 1]), calls[|calls| - 1];
      ActsAckNone(d, calls[..|calls| - 1]);
      if call.Leave? {
        ForgettingAcksNone(Released(before, call.owner), call.owner, 0);
      }
    }
  }

  /** A request is counted acknowledged exactly if the transport takes its answer; an acknowledgement that answers no pending request is counted unmatched. */
  lemma AcksAreCounted(d: Desk, src: NodeId, payload: Payload, reply: Reply)
    ensures var after := OnPayload(d, src, payload, reply);
      var message := payload.Sealed? && payload.envelope.tag != ACK_TAG;
      var ack := payload.Sealed? && payload.envelope.tag == ACK_TAG;
      && after.post.acked == d.post.acked + (if message && payload.envelope.id != 0 && d.post.takes(|d.post.offered|) then 1 else 0)
      && after.unmatched == d.unmatched + (if ack && (forall k :: 0 <= k < |d.slots| ==> !Answers(d.slots[k], src, payload.envelope.id)) then 1 else 0)
  {
    if payload.Sealed? {
      if payload.envelope.tag == ACK_TAG {
        NoneAnswered(d.slots, src, payload.envelope.id);
      } else {
        var mail := Mail(src, payload.envelope);
        var answered := Answer(Received(d), mail);
        if HandlerOf(answered.post, mail.envelope.tag).Some? {
          ActsAckNone(Called(answered, Handed(HandlerOf(answered.post, mail.envelope.tag).value, mail)), reply.calls);
        }
      }
    }
  }

  lemma {:induction false} NoneAnswered(slots: seq<Slot>, src: NodeId, id: nat)
    ensures FirstAnswered(slots, src, id) == |slots| <==> forall k :: 0 <= k < |slots| ==> !Answers(slots[k], src, id)
  {
    if |slots| > 0 && !Answers(slots[0], src, id) {
      NoneAnswered(slots[1..], src, id);
      assert forall k :: 1 <= k < |slots| ==> slots[k] == slots[1..][k - 1];
    }
  }

  /** In every reachable state each payload the transport delivered is counted once. */
  lemma {:induction false} ArrivalsAddUp(trace: seq<Desk>, events: seq<Event>, i: nat)
    requires Run(trace, events) && i < |trace|
    ensures AddsUp(trace[i])
  {
    if i > 0 {
      ArrivalsAddUp(trace, events, i - 1);
      RunsAreSane(trace, events, i - 1);
      assert Turns(trace, events, i - 1);
      StepAddsUp(trace[i - 1], events[i - 1]);
    }
  }
}
