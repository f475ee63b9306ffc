/**
 * The ledger against what really happened: over every run the failures it says were told are the
 * calls made to the owners, and the sends it counts are the letters handed to the transport.
 */
module MessengerAudit {
  import opened Bytes
  import opened TransportNode
  import opened MessengerDesk
  import opened MessengerRuns
  import opened MessengerNews

  /** How often the ledger says this failure was told: to that owner, of that destination, id and rank. */
  function Failures(ledger: seq<Entry>, call: Callback): nat {
    if call.ToldFailed? && call.rank < |ledger| &&
       ledger[call.rank].owner == call.owner && ledger[call.rank].dst == call.dst && ledger[call.rank].id == call.id
    then ledger[call.rank].told else 0
  }

  /** How often the ledger says this letter of a request was sent: to that destination, in those words. */
  function Sends(ledger: seq<Entry>, letter: Letter): nat {
    if letter.cause.Requested? && letter.cause.rank < |ledger| &&
       ledger[letter.cause.rank].dst == letter.dst && ledger[letter.cause.rank].envelope == letter.envelope
    then ledger[letter.cause.rank].attempts else 0
  }

  predicate CallsMatch(d: Desk, call: Callback) {
    call.ToldFailed? ==> Times(d.post.calls, call) == Failures(d.ledger, call)
  }

  predicate LettersMatch(d: Desk, letter: Letter) {
    letter.cause.Requested? ==> Times(d.post.offered, letter) == Sends(d.ledger, letter)
  }

  /** Of the letters offered, those the transport took. */
  function Taken(takes: nat -> bool, offered: seq<Letter>): seq<Letter> {
    if |offered| == 0 then []
    else
      var n := |offered| - 1;
      Taken(takes, offered[..n]) + (if takes(n) then [offered[n]] else [])
  }

  lemma TakenGrows(takes: nat -> bool, offered: seq<Letter>, last: Letter)
    ensures Taken(takes, offered + [last]) == Taken(takes, offered) + (if takes(|offered|) then [last] else [])
  {
    assert (offered + [last])[..|offered|] == offered;
  }

  /**
   * The books match: every failure told and every letter of a request offered is in the ledger,
   * nothing else is, and what left is what the transport took.
   */
  ghost predicate Matched(d: Desk) {
    && d.post.outbox == Taken(d.post.takes, d.post.offered)
    && (forall call: Callback {:trigger CallsMatch(d, call)} :: CallsMatch(d, call))
    && (forall letter: Letter {:trigger LettersMatch(d, letter)} :: LettersMatch(d, letter))
  }

  // ---- the primitives ----

  /** Nothing of a request was offered, nothing told: the books match as before. */
  lemma SameMatch(d: Desk, after: Desk)
    requires Matched(d) && after.ledger == d.ledger
    requires after.post.calls == d.post.calls && after.post.offered == d.post.offered
    requires after.post.outbox == d.post.outbox && after.post.takes == d.post.takes
    ensures Matched(after)
  {
    forall call: Callback ensures CallsMatch(after, call) {
      assert CallsMatch(d, call);
    }
    forall letter: Letter ensures LettersMatch(after, letter) {
      assert LettersMatch(d, letter);
    }
  }

  /** A plain message or an answer, and a call with news or mail: no part of any request. */
  lemma OtherHand(d: Desk, after: Desk, sent: Letter)
    requires Matched(d) && after.ledger == d.ledger && !sent.cause.Requested?
    requires after.post == Hand(d.post, sent).(sent := after.post.sent, acked := after.post.acked)
    ensures Matched(after)
  {
    TakenGrows(d.post.takes, d.post.offered, sent);
    forall call: Callback ensures CallsMatch(after, call) {
      assert CallsMatch(d, call);
    }
    forall letter: Letter ensures LettersMatch(after, letter) {
      assert LettersMatch(d, letter);
      TimesGrows(d.post.offered, sent, letter);
    }
  }

  lemma OtherCall(d: Desk, made: Callback)
    requires Matched(d) && !made.ToldFailed?
    ensures Matched(Called(d, made))
  {
    forall call: Callback ensures CallsMatch(Called(d, made), call) {
      assert CallsMatch(d, call);
      TimesGrows(d.post.calls, made, call);
    }
    forall letter: Letter ensures LettersMatch(Called(d, made), letter) {
      assert LettersMatch(d, letter);
    }
  }

  /** The ledger counts that letter once more, and no failure more. */
  predicate CountsMore(before: seq<Entry>, after: seq<Entry>, sent: Letter, letter: Letter) {
    letter.cause.Requested? ==> Sends(after, letter) == Sends(before, letter) + (if letter == sent then 1 else 0)
  }

  predicate FailsAlike(before: seq<Entry>, after: seq<Entry>, call: Callback) {
    call.ToldFailed? ==> Failures(after, call) == Failures(before, call)
  }

  /** A letter of a request handed to the transport, and counted in the ledger. */
  lemma RequestHand(d: Desk, after: Desk, sent: Letter)
    requires Matched(d) && after.post.calls == d.post.calls && after.post.takes == d.post.takes
    requires after.post.offered == d.post.offered + [sent]
    requires after.post.outbox == if Takes(d.post) then d.post.outbox + [sent] else d.post.outbox
    requires forall letter: Letter {:trigger CountsMore(d.ledger, after.ledger, sent, letter)} :: CountsMore(d.ledger, after.ledger, sent, letter)
    requires forall call: Callback {:trigger FailsAlike(d.ledger, after.ledger, call)} :: FailsAlike(d.ledger, after.ledger, call)
    ensures Matched(after)
  {
    TakenGrows(d.post.takes, d.post.offered, sent);
    forall call: Callback ensures CallsMatch(after, call) {
      assert CallsMatch(d, call) && FailsAlike(d.ledger, after.ledger, call);
    }
    forall letter: Letter ensures LettersMatch(after, letter) {
      assert LettersMatch(d, letter) && CountsMore(d.ledger, after.ledger, sent, letter);
      TimesGrows(d.post.offered, sent, letter);
    }
  }

  lemma EntryAdded(ledger: seq<Entry>, entry: Entry, sent: Letter, letter: Letter, call: Callback)
    requires sent == Letter(entry.dst, entry.envelope, Requested(|ledger|)) && entry.attempts == 1 && !entry.fate.GivenUp? && entry.told == 0
    ensures CountsMore(ledger, ledger + [entry], sent, letter) && FailsAlike(ledger, ledger + [entry], call)
  {
  }

  lemma AcceptMatches(d: Desk, k: nat, ask: Ask)
    requires Matched(d) && k < |d.slots|
    ensures Matched(Accept(d, k, ask))
  {
    var after := Accept(d, k, ask);
    var sent := Letter(ask.dst, Numbered(ask, d.nextId), Requested(|d.ledger|));
    forall letter: Letter, call: Callback
      ensures CountsMore(d.ledger, after.ledger, sent, letter) && FailsAlike(d.ledger, after.ledger, call)
    {
      EntryAdded(d.ledger, after.ledger[|d.ledger|], sent, letter, call);
    }
    RequestHand(d, after, sent);
  }

  lemma EntrySentAgain(ledger: seq<Entry>, s: nat, sent: Letter, letter: Letter, call: Callback)
    requires s < |ledger| && sent == Letter(ledger[s].dst, ledger[s].envelope, Requested(s))
    ensures CountsMore(ledger, Resent(ledger, s), sent, letter) && FailsAlike(ledger, Resent(ledger, s), call)
  {
  }

  lemma ResendMatches(d: Desk, k: nat, now: nat)
    requires Matched(d) && k < |d.slots| && d.slots[k].used && Backed(d, k)
    ensures Matched(Resend(d, k, now))
  {
    var after := Resend(d, k, now);
    var sent := Letter(d.slots[k].dst, d.slots[k].envelope, Requested(d.slots[k].serial));
    forall letter: Letter, call: Callback
      ensures CountsMore(d.ledger, after.ledger, sent, letter) && FailsAlike(d.ledger, after.ledger, call)
    {
      EntrySentAgain(d.ledger, d.slots[k].serial, sent, letter, call);
    }
    RequestHand(d, after, sent);
  }

  lemma CloseMatches(d: Desk, k: nat, fate: Fate)
    requires Matched(d) && k < |d.slots| && d.slots[k].used && Backed(d, k)
    ensures Matched(Close(d, k, fate))
  {
    var after := Close(d, k, fate);
    var slot := d.slots[k];
    forall call: Callback ensures CallsMatch(after, call) {
      assert CallsMatch(d, call);
      TimesGrows(d.post.calls, ToldFailed(slot.owner, slot.dst, slot.id, slot.serial), call);
    }
    forall letter: Letter ensures LettersMatch(after, letter) {
      assert LettersMatch(d, letter);
    }
  }

  // ---- every call ----

  lemma RequestMatches(d: Desk, ask: Ask)
    requires Matched(d)
    ensures Matched(Request(d, ask))
  {
    var numbered := d.(nextId := NextId(d.nextId), drawn := d.drawn + 1);
    var k := FirstFree(d.slots);
    if ask.dst != BROADCAST && ask.known && k < |d.slots| && ask.encodes {
      SameMatch(d, numbered);
      AcceptMatches(numbered, k, ask);
    } else {
      SameMatch(d, Request(d, ask));
    }
  }

  lemma SendMatches(d: Desk, dst: NodeId, envelope: Envelope, encodes: bool)
    requires Matched(d)
    ensures Matched(MessengerRuns.Send(d, dst, envelope, encodes))
  {
    var after := MessengerRuns.Send(d, dst, envelope, encodes);
    if dst == BROADCAST || !encodes {
      SameMatch(d, after);
    } else {
      OtherHand(d, after, Letter(dst, envelope, Said));
    }
  }

  lemma {:induction false} ForgetMatches(d: Desk, owner: nat, k: nat)
    requires Sane(d) && Matched(d)
    ensures Matched(DetachFrom(d, owner, k))
    decreases |d.slots| - k
  {
    if k < |d.slots| {
      if d.slots[k].used && d.slots[k].owner == owner {
        assert Backed(d, k);
        CloseMatches(d, k, Dropped);
        CloseProceeds(d, k, Dropped);
        ForgetMatches(Close(d, k, Dropped), owner, k + 1);
      } else {
        ForgetMatches(d, owner, k + 1);
      }
    }
  }

  lemma DetachMatches(d: Desk, owner: nat)
    requires Sane(d) && Matched(d)
    ensures Matched(Detach(d, owner))
  {
    ReleaseProceeds(d, owner);
    SameMatch(d, Released(d, owner));
    ForgetMatches(Released(d, owner), owner, 0);
  }

  lemma {:induction false} ActsMatch(d: Desk, calls: seq<Call>)
    requires Sane(d) && Matched(d)
    ensures Matched(ActAll(d, calls))
  {
    if |calls| > 0 {
      var before := ActAll(d, calls[..|calls| - 1]);
      ActsMatch(d, calls[..|calls| - 1]);
      ActsProceed(d, calls[..|calls| - 1]);
      match calls[|calls| - 1]
      case Start(ask) => RequestMatches(before, ask);
      case Tell(dst, envelope, encodes) => SendMatches(before, dst, envelope, encodes);
      case Leave(owner) => DetachMatches(before, owner);
    }
  }

  lemma GiveUpMatches(d: Desk, k: nat, react: Reaction)
    requires Sane(d) && Matched(d) && k < |d.slots| && d.slots[k].used
    ensures Matched(GiveUp(d, k, react))
  {
    assert Backed(d, k);
    CloseMatches(d, k, GivenUp);
    CloseProceeds(d, k, GivenUp);
    ActsMatch(Close(d, k, GivenUp), react(d.slots[k].serial));
  }

  lemma {:induction false} TickMatches(d: Desk, k: nat, now: nat, react: Reaction)
    requires Sane(d) && Matched(d)
    ensures Matched(TickFrom(d, k, now, react))
    decreases |d.slots| - k
  {
    if k < |d.slots| {
      TickSlotProceeds(d, k, now, react);
      if Due(d.slots[k], now) {
        if d.slots[k].sends < d.slots[k].policy.retries {
          assert Backed(d, k);
          ResendMatches(d, k, now);
        } else {
          GiveUpMatches(d, k, react);
        }
      }
      TickMatches(TickSlot(d, k, now, react), k + 1, now, react);
    }
  }

  lemma {:induction false} NodeDownMatches(d: Desk, id: NodeId, k: nat, react: Reaction)
    requires Sane(d) && Matched(d)
    ensures Matched(NodeDownFrom(d, id, k, react))
    decreases |d.slots| - k
  {
    if k < |d.slots| {
      if d.slots[k].used && d.slots[k].dst == id {
        GiveUpMatches(d, k, react);
        GiveUpProceeds(d, k, react);
        NodeDownMatches(GiveUp(d, k, react), id, k + 1, react);
      } else {
        NodeDownMatches(d, id, k + 1, react);
      }
    }
  }

  lemma NotifySlotMatches(d: Desk, k: nat, event: Presence, react: Reaction)
    requires Sane(d) && Matched(d) && k < |d.post.claims.slots|
    ensures Matched(NotifySlot(d, k, event, react))
  {
    if First(d.post.claims.slots, k) {
      var owner := d.post.claims.slots[k].value;
      var called := Called(d, NewsOf(event, owner));
      CalledKeeps(d, NewsOf(event, owner));
      OtherCall(d, NewsOf(event, owner));
      ActsMatch(called, react(owner));
    }
  }

  lemma {:induction false} NotifyMatches(d: Desk, k: nat, event: Presence, react: Reaction)
    requires Sane(d) && Matched(d)
    ensures Matched(NotifyFrom(d, k, event, react))
    decreases |d.post.claims.slots| - k
  {
    if k < |d.post.claims.slots| {
      NotifySlotKeeps(d, k, event, react);
      NotifySlotMatches(d, k, event, react);
      NotifyMatches(NotifySlot(d, k, event, react), k + 1, event, react);
    }
  }

  // ---- what arrives ----

  lemma AckMatches(d: Desk, src: NodeId, id: nat)
    requires Sane(d) && Matched(d)
    ensures Matched(OnAck(d, src, id))
  {
    var k := FirstAnswered(d.slots, src, id);
    if k < |d.slots| {
      assert Backed(d, k);
      CloseMatches(d, k, Completed);
    } else {
      SameMatch(d, OnAck(d, src, id));
    }
  }

  lemma AnswerMatches(d: Desk, mail: Mail)
    requires Matched(d)
    ensures Matched(Answer(d, mail))
  {
    SameMatch(d, Filed(d, mail));
    if mail.envelope.id != 0 {
      OtherHand(Filed(d, mail), Answer(d, mail), Letter(mail.src, AckOf(mail.envelope.id), Answered(|d.post.inbox|)));
    }
  }

  lemma DispatchMatches(d: Desk, mail: Mail, reply: Reply)
    requires Sane(d) && Matched(d)
    ensures Matched(Dispatch(d, mail, reply))
  {
    match HandlerOf(d.post, mail.envelope.tag)
    case None => SameMatch(d, Dispatch(d, mail, reply));
    case Some(owner) =>
      var called := Called(d, Handed(owner, mail));
      CalledKeeps(d, Handed(owner, mail));
      OtherCall(d, Handed(owner, mail));
      ActsMatch(called, reply.calls);
      SameMatch(ActAll(called, reply.calls), Dispatch(d, mail, reply));
  }

  lemma PayloadMatches(d: Desk, src: NodeId, payload: Payload, reply: Reply)
    requires Sane(d) && Matched(d)
    ensures Matched(OnPayload(d, src, payload, reply))
  {
    var received := Received(d);
    CountedKeeps(d, received);
    SameMatch(d, received);
    match payload
    case Garbled => SameMatch(d, OnPayload(d, src, payload, reply));
    case Sealed(envelope) =>
      if envelope.tag == ACK_TAG {
        AckMatches(received, src, envelope.id);
      } else {
        var mail := Mail(src, envelope);
        AnswerMatches(received, mail);
        AnswerKeeps(received, mail);
        DispatchMatches(Answer(received, mail), mail, reply);
      }
  }

  // ---- whole runs ----

  /** Every call keeps the ledger true to the calls made and the letters offered. */
  lemma StepMatches(d: Desk, ev: Event)
    requires Sane(d) && Matched(d)
    ensures Matched(Step(d, ev))
  {
    match ev
    case Asks(ask) => RequestMatches(d, ask);
    case Says(dst, envelope, encodes) => SendMatches(d, dst, envelope, encodes);
    case Attaches(owner) => SameMatch(d, Step(d, ev));
    case Detaches(owner) => DetachMatches(d, owner);
    case Polls(at) => SameMatch(d, Step(d, ev));
    case Ticks(now, react) => TickMatches(d, 0, now, react);
    case GainsNode(id, react) => NotifyMatches(d, 0, Up(id), react);
    case LosesNode(id, failing, react) =>
      NodeDownProceeds(d, id, 0, failing);
      NodeDownMatches(d, id, 0, failing);
      NotifyMatches(NodeDownFrom(d, id, 0, failing), 0, Down(id), react);
    case Receives(src, payload, reply) => PayloadMatches(d, src, payload, reply);
  }

  lemma {:induction false} RunsMatch(trace: seq<Desk>, events: seq<Event>, i: nat)
    requires Run(trace, events) && i < |trace|
    ensures Matched(trace[i])
  {
    if i == 0 {
      forall call: Callback ensures CallsMatch(trace[0], call) {
      }
      forall letter: Letter ensures LettersMatch(trace[0], letter) {
      }
    } else {
      RunsMatch(trace, events, i - 1);
      RunsAreSane(trace, events, i - 1);
      assert Turns(trace, events, i - 1);
      StepMatches(trace[i - 1], events[i - 1]);
    }
  }

  /** The letter of a request, and the call that tells its owner it failed. */
  function LetterOf(d: Desk, s: nat): Letter
    requires s < |d.ledger|
  {
    Letter(d.ledger[s].dst, d.ledger[s].envelope, Requested(s))
  }

  function FailureOf(d: Desk, s: nat): Callback
    requires s < |d.ledger|
  {
    ToldFailed(d.ledger[s].owner, d.ledger[s].dst, d.ledger[s].id, s)
  }

  /**
   * The letter of an accepted request was offered to the transport at least once and no more often
   * than its policy allows; its owner was told it failed once if it was given up on, and never
   * otherwise.
   */
  predicate FairlyTreated(d: Desk, s: nat)
    requires s < |d.ledger|
  {
    && 1 <= Times(d.post.offered, LetterOf(d, s)) <= Max(1, d.ledger[s].retries)
    && Times(d.post.calls, FailureOf(d, s)) == (if d.ledger[s].fate.GivenUp? then 1 else 0)
  }

  /**
   * In every reachable state the requests accepted are the completed, the failed, the dropped and
   * the pending ones, each fairly treated; no other letter passed for a request, and no other
   * failure was told.
   */
  lemma RequestsAreConserved(trace: seq<Desk>, events: seq<Event>, i: nat)
    requires Run(trace, events) && i < |trace|
    ensures var d := trace[i];
      && |d.ledger| == d.completed + d.failed + d.dropped + InUse(d.slots)
      && d.completed == Tally(d.ledger, Completed) && d.failed == Tally(d.ledger, GivenUp) && d.dropped == Tally(d.ledger, Dropped)
      && (forall s | 0 <= s < |d.ledger| :: FairlyTreated(d, s))
      && d.post.outbox == Taken(d.post.takes, d.post.offered)
      && (forall letter: Letter | letter in d.post.offered && letter.cause.Requested? ::
            letter.cause.rank < |d.ledger| && letter == LetterOf(d, letter.cause.rank))
      && (forall call: Callback | call in d.post.calls && call.ToldFailed? ::
            call.rank < |d.ledger| && call == FailureOf(d, call.rank))
  {
    var d := trace[i];
    RunsAreSane(trace, events, i);
    RunsMatch(trace, events, i);
    FatesPartition(d.ledger);
    forall s | 0 <= s < |d.ledger| ensures FairlyTreated(d, s) {
      assert Accounted(d, s) && CallsMatch(d, FailureOf(d, s)) && LettersMatch(d, LetterOf(d, s));
    }
    forall letter: Letter | letter in d.post.offered && letter.cause.Requested?
      ensures letter.cause.rank < |d.ledger| && letter == LetterOf(d, letter.cause.rank)
    {
      assert LettersMatch(d, letter);
      TimesOfMember(d.post.offered, letter);
    }
    forall call: Callback | call in d.post.calls && call.ToldFailed?
      ensures call.rank < |d.ledger| && call == FailureOf(d, call.rank)
    {
      assert CallsMatch(d, call);
      TimesOfMember(d.post.calls, call);
    }
  }

  lemma {:induction false} TimesOfMember<T>(all: seq<T>, one: T)
    requires one in all
    ensures Times(all, one) > 0
  {
    var n := |all| - 1;
    if all[n] != one {
      assert all == all[..n] + [all[n]];
      TimesOfMember(all[..n], one);
    }
  }
}
