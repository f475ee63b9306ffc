/**
 * Presence across the transport, the messenger that relays its events and a directory attached as
 * one of its handlers: over every run the three agree, as long as the directory owns a slot of the
 * dispatch table.
 */
module Presence {
  import opened Bytes
  import opened TransportNode
  import opened MessengerDesk
  import M = MessengerRuns
  import News = MessengerNews
  import Transport
  import D = Directory

  const ANNOUNCE_TAG: nat := 5

  /** What happened, in order: presence events, the identities that reached the directory, and its requests given up on. */
  datatype Item =
    | WentUp(id: NodeId)
    | WentDown(id: NodeId)
    | Announced(id: NodeId, identity: D.Identity)
    | Unanswered(id: NodeId)

  /** The transport, the messenger over it, the directory among its handlers, and the log. */
  datatype Site = Site(station: Station, desk: Desk, directory: D.View, log: seq<Item>)

  /** Which handler the directory is, how it reads an announce, and the wire it was built for. */
  datatype Setup = Setup(handler: nat, identify: nat -> D.Identity, wireHash: nat)

  /** What the handlers do when told of failed requests and of nodes. */
  datatype Manners = Manners(failing: M.Reaction, react: M.Reaction)

  /**
   * One thing happening to a node: a frame, with what its data decodes to and what the handler
   * of it does; an expiry sweep, telling of the expired in some order; anything else the messenger
   * does.
   */
  datatype Event =
    | Frames(frame: Frame, link: nat, from: nat, now: nat, payload: Payload, reply: M.Reply, manners: Manners)
    | Expires(at: nat, order: seq<NodeId>, ways: Manners)
    | Works(work: M.Event)

  ghost predicate Enabled(site: Site, ev: Event) {
    match ev
    case Frames(_, _, _, _, _, _, _) => true
    case Expires(now, order, _) => Transport.Lists(order, StaleIds(site.station.table, now))
    case Works(work) => !work.GainsNode? && !work.LosesNode? && !work.Receives?
  }

  function HopsOf(t: Station, id: NodeId): Option<nat> {
    if id in t.table then Some(t.table[id].hops) else None
  }

  // ---- the directory as a handler ----

  /** What one call to a handler does to the directory. */
  function Hear(s: Setup, t: Station, now: nat, view: D.View, call: Callback): D.View {
    if call.owner != s.handler then view
    else
      match call
      case ToldFailed(_, dst, _, _) => D.OnRequestFailed(view, dst)
      case ToldUp(_, id) => D.OnNodeUp(view, id, HopsOf(t, id))
      case ToldDown(_, id) => D.OnNodeDown(view, id)
      case Handed(_, mail) =>
        if mail.envelope.tag != ANNOUNCE_TAG then view
        else D.OnAnnounce(view, mail.src, s.identify(mail.envelope.body), s.wireHash, HopsOf(t, mail.src), now)
  }

  function HearAll(s: Setup, t: Station, now: nat, view: D.View, calls: seq<Callback>): D.View {
    if |calls| == 0 then view else Hear(s, t, now, HearAll(s, t, now, view, calls[..|calls| - 1]), calls[|calls| - 1])
  }

  /** The requests of the directory that these calls gave up on. */
  function Failures(s: Setup, calls: seq<Callback>): seq<Item> {
    if |calls| == 0 then []
    else
      var last := calls[|calls| - 1];
      Failures(s, calls[..|calls| - 1]) + if last.ToldFailed? && last.owner == s.handler then [Unanswered(last.dst)] else []
  }

  /** The messenger moved on, and the directory heard the calls it made. */
  function Heeds(s: Setup, site: Site, now: nat, desk: Desk): Site
    requires |site.desk.post.calls| <= |desk.post.calls|
  {
    var calls := News.Since(site.desk, desk);
    site.(desk := desk, directory := HearAll(s, site.station, now, site.directory, calls), log := site.log + Failures(s, calls))
  }

  // ---- one event ----

  function Told(desk: Desk, event: Presence, manners: Manners): Desk {
    match event
    case Up(id) => M.OnNodeUp(desk, id, manners.react)
    case Down(id) => M.OnNodeDown(desk, id, manners.failing, manners.react)
  }

  function ItemOf(event: Presence): Item {
    match event
    case Up(id) => WentUp(id)
    case Down(id) => WentDown(id)
  }

  /** The transport raises one presence event: the messenger tells its handlers. */
  ghost function Tell(s: Setup, site: Site, now: nat, event: Presence, manners: Manners): (r: Site)
    requires M.Sane(site.desk)
    ensures M.Sane(r.desk) && r.station == site.station && M.Thinner(site.desk.post.claims.slots, r.desk.post.claims.slots)
  {
    ToldKeeps(site.desk, event, manners);
    var heard := Heeds(s, site, now, Told(site.desk, event, manners));
    heard.(log := heard.log + [ItemOf(event)])
  }

  lemma ToldKeeps(desk: Desk, event: Presence, manners: Manners)
    requires M.Sane(desk)
    ensures var after := Told(desk, event, manners);
      M.Sane(after) && M.Onward(desk, after, false) && M.Thinner(desk.post.claims.slots, after.post.claims.slots)
  {
    match event
    case Up(id) => M.NotifyKeeps(desk, 0, event, manners.react);
    case Down(id) =>
      var failed := M.NodeDownFrom(desk, id, 0, manners.failing);
      M.NodeDownProceeds(desk, id, 0, manners.failing);
      M.NotifyKeeps(failed, 0, event, manners.react);
      M.OnwardTwice(desk, failed, Told(desk, event, manners), false);
      M.ThinnerTwice(desk.post.claims.slots, failed.post.claims.slots, Told(desk, event, manners).post.claims.slots);
  }

  ghost function TellAll(s: Setup, site: Site, now: nat, events: seq<Presence>, manners: Manners): (r: Site)
    requires M.Sane(site.desk)
    ensures M.Sane(r.desk) && r.station == site.station
    decreases |events|
  {
    if |events| == 0 then site else TellAll(s, Tell(s, site, now, events[0], manners), now, events[1..], manners)
  }

  /** The directory is handed an announce. */
  predicate Reaches(s: Setup, desk: Desk, payload: Payload) {
    payload.Sealed? && payload.envelope.tag == ANNOUNCE_TAG && M.HandlerOf(desk.post, ANNOUNCE_TAG) == Some(s.handler)
  }

  ghost function Receive(s: Setup, site: Site, src: NodeId, now: nat, payload: Payload, reply: M.Reply): (r: Site)
    requires M.Sane(site.desk)
    ensures M.Sane(r.desk) && r.station == site.station && M.Thinner(site.desk.post.claims.slots, r.desk.post.claims.slots)
  {
    M.PayloadKeeps(site.desk, src, payload, reply);
    var heard := Heeds(s, site, now, M.OnPayload(site.desk, src, payload, reply));
    if Reaches(s, site.desk, payload) then heard.(log := heard.log + [Announced(src, s.identify(payload.envelope.body))]) else heard
  }

  ghost function Next(s: Setup, site: Site, ev: Event): (r: Site)
    requires site.station.bootId < WORD_LIMIT && M.Sane(site.desk)
    ensures M.Sane(r.desk)
  {
    match ev
    case Frames(frame, link, from, now, payload, reply, manners) =>
      var told := Learned(s, site, ev);
      if OnFrame(site.station, frame, link, from, now).delivered then Receive(s, told, frame.src, now, payload, reply) else told
    case Expires(now, order, manners) =>
      TellAll(s, site.(station := site.station.(table := Expired(site.station.table, now))), now, Transport.Downs(order), manners)
    case Works(work) =>
      M.StepProceeds(site.desk, work);
      Heeds(s, site, 0, M.Step(site.desk, work))
  }

  // ---- what the log says ----

  /** The last presence event of the id says up. */
  predicate IsUp(log: seq<Item>, id: NodeId) {
    |log| > 0 &&
    var last := log[|log| - 1];
    if last == WentUp(id) then true
    else if last == WentDown(id) then false
    else IsUp(log[..|log| - 1], id)
  }

  /** The last identity of the id that arrived since its last presence event. */
  function Said(log: seq<Item>, id: NodeId): Option<D.Identity> {
    if |log| == 0 then None
    else
      var last := log[|log| - 1];
      if last.Announced? && last.id == id then Some(last.identity)
      else if last == WentUp(id) || last == WentDown(id) then None
      else Said(log[..|log| - 1], id)
  }

  /** The directory gave up on a request to the id since its last presence event. */
  predicate LeftUnanswered(log: seq<Item>, id: NodeId) {
    |log| > 0 &&
    var last := log[|log| - 1];
    if last == Unanswered(id) then true
    else if last == WentUp(id) || last == WentDown(id) then false
    else LeftUnanswered(log[..|log| - 1], id)
  }

  /** Up and down events of each id alternate, starting with up; identities come from nodes that are up. */
  predicate Alternates(log: seq<Item>) {
    |log| == 0 ||
    (&& Alternates(log[..|log| - 1])
     && match log[|log| - 1]
        case WentUp(id) => !IsUp(log[..|log| - 1], id)
        case WentDown(id) => IsUp(log[..|log| - 1], id)
        case Announced(id, _) => IsUp(log[..|log| - 1], id)
        case Unanswered(_) => true)
  }

  // ---- the invariant ----

  /**
   * The directory holds the id exactly when it is up; it knows it exactly if it announced itself
   * since, by what it said last, and has it mute exactly if a request failed and it never did.
   */
  predicate Filed(directory: D.View, log: seq<Item>, id: NodeId) {
    && (id in directory.entries <==> IsUp(log, id))
    && (id in directory.entries ==>
          var entry, said := directory.entries[id], Said(log, id);
          && (entry.state.Known? <==> said.Some?)
          && (entry.state.Mute? <==> said.None? && LeftUnanswered(log, id))
          && (said.Some? ==> entry.announce == said.value))
  }

  ghost predicate Tracks(directory: D.View, log: seq<Item>) {
    && Alternates(log)
    && D.WellFiled(directory)
    && directory.dropped == 0
    && (forall id: NodeId {:trigger Filed(directory, log, id)} :: Filed(directory, log, id))
  }

  /** The directory follows the log and holds exactly the ids of the table. */
  ghost predicate Current(site: Site) {
    Tracks(site.directory, site.log) && site.directory.entries.Keys == site.station.table.Keys
  }

  ghost predicate Agrees(site: Site) {
    Current(site) && M.Sane(site.desk) && WellKept(site.station)
  }

  predicate Owns(s: Setup, desk: Desk) {
    Some(s.handler) in desk.post.claims.slots
  }

  // ---- one call to the directory ----

  lemma Logged(log: seq<Item>, item: Item)
    ensures (log + [item])[..|log|] == log
  {
  }

  lemma UpTracks(d: D.View, log: seq<Item>, id: NodeId, hops: Option<nat>)
    requires Tracks(d, log) && id !in d.entries && |d.entries| < D.MAX_ENTRIES
    ensures Tracks(D.OnNodeUp(d, id, hops), log + [WentUp(id)])
    ensures D.OnNodeUp(d, id, hops).entries.Keys == d.entries.Keys + {id}
  {
    Logged(log, WentUp(id));
    forall other: NodeId ensures Filed(D.OnNodeUp(d, id, hops), log + [WentUp(id)], other) {
      assert Filed(d, log, other);
    }
    assert Filed(d, log, id);
  }

  lemma DownTracks(d: D.View, log: seq<Item>, id: NodeId)
    requires Tracks(d, log) && id in d.entries
    ensures Tracks(D.OnNodeDown(d, id), log + [WentDown(id)])
    ensures D.OnNodeDown(d, id).entries.Keys == d.entries.Keys - {id}
  {
    Logged(log, WentDown(id));
    forall other: NodeId ensures Filed(D.OnNodeDown(d, id), log + [WentDown(id)], other) {
      assert Filed(d, log, other);
    }
    assert Filed(d, log, id);
    assert (d.entries - {id}).Keys == d.entries.Keys - {id};
    Fewer((d.entries - {id}).Keys, d.entries.Keys);
  }

  lemma AnnounceTracks(d: D.View, log: seq<Item>, id: NodeId, announce: D.Identity, wireHash: nat, hops: Option<nat>, now: nat)
    requires Tracks(d, log) && id in d.entries
    ensures var after := D.OnAnnounce(d, id, announce, wireHash, hops, now);
      Tracks(after, log + [Announced(id, announce)]) && after.entries.Keys == d.entries.Keys
  {
    Logged(log, Announced(id, announce));
    forall other: NodeId ensures Filed(D.OnAnnounce(d, id, announce, wireHash, hops, now), log + [Announced(id, announce)], other) {
      assert Filed(d, log, other);
    }
    assert Filed(d, log, id);
  }

  lemma FailTracks(d: D.View, log: seq<Item>, dst: NodeId)
    requires Tracks(d, log)
    ensures Tracks(D.OnRequestFailed(d, dst), log + [Unanswered(dst)])
    ensures D.OnRequestFailed(d, dst).entries.Keys == d.entries.Keys
  {
    Logged(log, Unanswered(dst));
    forall id: NodeId ensures Filed(D.OnRequestFailed(d, dst), log + [Unanswered(dst)], id) {
      assert Filed(d, log, id);
    }
  }

  // ---- many calls ----

  lemma {:induction false} HearJoins(s: Setup, t: Station, now: nat, view: D.View, a: seq<Callback>, b: seq<Callback>)
    ensures HearAll(s, t, now, view, a + b) == HearAll(s, t, now, HearAll(s, t, now, view, a), b)
  {
    if |b| == 0 {
      assert a + b == a;
    } else {
      assert (a + b)[..|a + b| - 1] == a + b[..|b| - 1];
      HearJoins(s, t, now, view, a, b[..|b| - 1]);
    }
  }

  /** Failed requests change no entry's presence, and turn mute the entries that never answered. */
  lemma {:induction false} FailuresTrack(s: Setup, t: Station, now: nat, view: D.View, log: seq<Item>, calls: seq<Callback>)
    requires Tracks(view, log) && forall i :: 0 <= i < |calls| ==> calls[i].ToldFailed?
    ensures var after := HearAll(s, t, now, view, calls);
      Tracks(after, log + Failures(s, calls)) && after.entries.Keys == view.entries.Keys
  {
    if |calls| == 0 {
      assert log + [] == log;
    } else {
      var first, last := calls[..|calls| - 1], calls[|calls| - 1];
      FailuresTrack(s, t, now, view, log, first);
      FailTracks(HearAll(s, t, now, view, first), log + Failures(s, first), last.dst);
      assert log + (Failures(s, first) + [Unanswered(last.dst)]) == log + Failures(s, first) + [Unanswered(last.dst)];
      assert log + (Failures(s, first) + []) == log + Failures(s, first);
    }
  }

  /** Calls that are no failures log none. */
  lemma {:induction false} NoFailures(s: Setup, failures: seq<Callback>, others: seq<Callback>)
    requires forall i :: 0 <= i < |others| ==> !others[i].ToldFailed?
    ensures Failures(s, failures + others) == Failures(s, failures)
  {
    if |others| == 0 {
      assert failures + others == failures;
    } else {
      assert (failures + others)[..|failures + others| - 1] == failures + others[..|others| - 1];
      NoFailures(s, failures, others[..|others| - 1]);
    }
  }

  /** News told to everyone is heard as often as it was told to the directory. */
  lemma {:induction false} NewsHeard(s: Setup, t: Station, now: nat, view: D.View, event: Presence, calls: seq<Callback>)
    requires forall i :: 0 <= i < |calls| ==> calls[i] == M.NewsOf(event, calls[i].owner)
    requires News.Times(calls, M.NewsOf(event, s.handler)) <= 1
    ensures HearAll(s, t, now, view, calls) ==
      if News.Times(calls, M.NewsOf(event, s.handler)) == 1 then Hear(s, t, now, view, M.NewsOf(event, s.handler)) else view
  {
    if |calls| > 0 {
      NewsHeard(s, t, now, view, event, calls[..|calls| - 1]);
    }
  }

  // ---- one presence event ----

  lemma NoSlotStays(s: Setup, before: Desk, after: Desk)
    requires M.Thinner(before.post.claims.slots, after.post.claims.slots)
    ensures Owns(s, after) ==> Owns(s, before)
  {
    News.AllOrNone(before.post.claims.slots, after.post.claims.slots, s.handler, 0);
  }

  /** Failures, then news: what the directory makes of the calls of one event. */
  lemma HearsBoth(s: Setup, site: Site, now: nat, event: Presence, failures: seq<Callback>, news: seq<Callback>) returns (view: D.View)
    requires Tracks(site.directory, site.log)
    requires forall i :: 0 <= i < |failures| ==> failures[i].ToldFailed?
    requires forall i :: 0 <= i < |news| ==> news[i] == M.NewsOf(event, news[i].owner)
    requires News.Times(news, M.NewsOf(event, s.handler)) <= 1
    ensures Tracks(view, site.log + Failures(s, failures + news)) && view.entries.Keys == site.directory.entries.Keys
    ensures HearAll(s, site.station, now, site.directory, failures + news) ==
      if News.Times(news, M.NewsOf(event, s.handler)) == 1 then Hear(s, site.station, now, view, M.NewsOf(event, s.handler)) else view
  {
    view := HearAll(s, site.station, now, site.directory, failures);
    FailuresTrack(s, site.station, now, site.directory, site.log, failures);
    NewsHeard(s, site.station, now, view, event, news);
    HearJoins(s, site.station, now, site.directory, failures, news);
    NoFailures(s, failures, news);
  }

  /** The calls of one event: failures, then news, the directory in it once, at most once, or not at all. */
  lemma ToldCalls(s: Setup, desk: Desk, event: Presence, manners: Manners) returns (failures: seq<Callback>, news: seq<Callback>)
    requires M.Sane(desk)
    ensures var after := Told(desk, event, manners);
      && desk.post.calls <= after.post.calls && News.Since(desk, after) == failures + news
      && (forall i :: 0 <= i < |failures| ==> failures[i].ToldFailed?)
      && (forall i :: 0 <= i < |news| ==> news[i] == M.NewsOf(event, news[i].owner))
      && News.Times(news, M.NewsOf(event, s.handler)) <= 1
      && (Owns(s, after) ==> News.Times(news, M.NewsOf(event, s.handler)) == 1)
      && (!Owns(s, desk) ==> News.Times(news, M.NewsOf(event, s.handler)) == 0)
  {
    var failed := Failed(desk, event, manners);
    var after := M.NotifyFrom(failed, 0, event, manners.react);
    FailedFirst(s, desk, event, manners);
    News.NewsSince(failed, event, manners.react, s.handler);
    failures, news := News.Since(desk, failed), News.Since(failed, after);
    assert after == Told(desk, event, manners);
  }

  /** The messenger before it tells its handlers: the requests to a node that left are given up on. */
  function Failed(desk: Desk, event: Presence, manners: Manners): Desk {
    if event.Down? then M.NodeDownFrom(desk, event.id, 0, manners.failing) else desk
  }

  lemma FailedFirst(s: Setup, desk: Desk, event: Presence, manners: Manners)
    requires M.Sane(desk)
    ensures var failed := Failed(desk, event, manners);
      && M.Sane(failed) && desk.post.calls <= failed.post.calls
      && (forall i :: 0 <= i < |News.Since(desk, failed)| ==> News.Since(desk, failed)[i].ToldFailed?)
      && (Owns(s, failed) ==> Owns(s, desk))
  {
    if event.Down? {
      M.NodeDownProceeds(desk, event.id, 0, manners.failing);
      NoSlotStays(s, desk, M.NodeDownFrom(desk, event.id, 0, manners.failing));
    }
  }

  /** The log with the requests given up on before an event is told. */
  ghost function Heard(s: Setup, site: Site, event: Presence, manners: Manners): seq<Item>
    requires M.Sane(site.desk)
  {
    ToldKeeps(site.desk, event, manners);
    site.log + Failures(s, News.Since(site.desk, Told(site.desk, event, manners)))
  }

  /**
   * The directory hears an event once if it owns a slot in the end, and not at all if it owned none,
   * after failures that change no presence.
   */
  lemma TellHears(s: Setup, site: Site, now: nat, event: Presence, manners: Manners) returns (view: D.View)
    requires M.Sane(site.desk) && Tracks(site.directory, site.log)
    ensures Tracks(view, Heard(s, site, event, manners)) && view.entries.Keys == site.directory.entries.Keys
    ensures Tell(s, site, now, event, manners).log == Heard(s, site, event, manners) + [ItemOf(event)]
    ensures var r := Tell(s, site, now, event, manners);
      && (Owns(s, r.desk) ==> r.directory == Hear(s, site.station, now, view, M.NewsOf(event, s.handler)))
      && (!Owns(s, site.desk) ==> r.directory == view)
  {
    var failures, news := ToldCalls(s, site.desk, event, manners);
    view := HearsBoth(s, site, now, event, failures, news);
  }

  lemma TellUp(s: Setup, site: Site, now: nat, id: NodeId, manners: Manners)
    requires M.Sane(site.desk) && Tracks(site.directory, site.log) && Owns(s, Tell(s, site, now, Up(id), manners).desk)
    requires id !in site.directory.entries && |site.directory.entries.Keys| < D.MAX_ENTRIES
    ensures var r := Tell(s, site, now, Up(id), manners);
      Tracks(r.directory, r.log) && r.directory.entries.Keys == site.directory.entries.Keys + {id}
  {
    var view := TellHears(s, site, now, Up(id), manners);
    assert |view.entries| == |view.entries.Keys|;
    UpTracks(view, Heard(s, site, Up(id), manners), id, HopsOf(site.station, id));
  }

  lemma TellDown(s: Setup, site: Site, now: nat, id: NodeId, manners: Manners)
    requires M.Sane(site.desk) && Tracks(site.directory, site.log) && Owns(s, Tell(s, site, now, Down(id), manners).desk)
    requires id in site.directory.entries
    ensures var r := Tell(s, site, now, Down(id), manners);
      Tracks(r.directory, r.log) && r.directory.entries.Keys == site.directory.entries.Keys - {id}
  {
    var view := TellHears(s, site, now, Down(id), manners);
    DownTracks(view, Heard(s, site, Down(id), manners), id);
  }

  // ---- several events ----

  lemma TellTwo(s: Setup, site: Site, now: nat, a: Presence, b: Presence, manners: Manners)
    requires M.Sane(site.desk)
    ensures TellAll(s, site, now, [a], manners) == Tell(s, site, now, a, manners)
    ensures TellAll(s, site, now, [a, b], manners) == Tell(s, Tell(s, site, now, a, manners), now, b, manners)
  {
    var one := Tell(s, site, now, a, manners);
    assert [a][1..] == [] && [a, b][1..] == [b] && [b][1..] == [];
    assert TellAll(s, one, now, [b], manners) == TellAll(s, Tell(s, one, now, b, manners), now, [], manners);
  }

  lemma ListsTail(order: seq<NodeId>, gone: set<NodeId>)
    requires Transport.Lists(order, gone) && |order| > 0
    ensures order[0] in gone && Transport.Lists(order[1..], gone - {order[0]})
    ensures Transport.Downs(order)[1..] == Transport.Downs(order[1..])
  {
    assert order[0] in order && order == [order[0]] + order[1..];
    assert (set id | id in order) == {order[0]} + set id | id in order[1..];
    assert order[0] !in order[1..];
  }

  lemma {:induction false} DownsThin(s: Setup, site: Site, now: nat, events: seq<Presence>, manners: Manners)
    requires M.Sane(site.desk)
    ensures Owns(s, TellAll(s, site, now, events, manners).desk) ==> Owns(s, site.desk)
    decreases |events|
  {
    if |events| > 0 {
      var one := Tell(s, site, now, events[0], manners);
      NoSlotStays(s, site.desk, one.desk);
      DownsThin(s, one, now, events[1..], manners);
    }
  }

  /** Of several downs the first is told first. */
  lemma FirstDown(s: Setup, site: Site, now: nat, order: seq<NodeId>, gone: set<NodeId>, manners: Manners)
    requires M.Sane(site.desk) && Transport.Lists(order, gone) && |order| > 0
    ensures var one, rest := Tell(s, site, now, Down(order[0]), manners), Transport.Downs(order[1..]);
      && TellAll(s, site, now, Transport.Downs(order), manners) == TellAll(s, one, now, rest, manners)
      && (Owns(s, TellAll(s, one, now, rest, manners).desk) ==> Owns(s, one.desk))
  {
    ListsTail(order, gone);
    DownsThin(s, Tell(s, site, now, Down(order[0]), manners), now, Transport.Downs(order[1..]), manners);
  }

  /** The directory lost just these, and follows the log. */
  ghost predicate Shed(before: D.View, after: Site, gone: set<NodeId>) {
    Tracks(after.directory, after.log) && after.directory.entries.Keys == before.entries.Keys - gone
  }

  lemma ShedMore(before: D.View, one: D.View, after: Site, first: NodeId, gone: set<NodeId>)
    requires one.entries.Keys == before.entries.Keys - {first} && first in gone && Shed(one, after, gone - {first})
    ensures Shed(before, after, gone)
  {
  }

  lemma {:induction false} DownsTrack(s: Setup, site: Site, now: nat, order: seq<NodeId>, gone: set<NodeId>, manners: Manners)
    requires M.Sane(site.desk) && Tracks(site.directory, site.log)
    requires Transport.Lists(order, gone) && gone <= site.directory.entries.Keys
    requires Owns(s, TellAll(s, site, now, Transport.Downs(order), manners).desk)
    ensures Shed(site.directory, TellAll(s, site, now, Transport.Downs(order), manners), gone)
    decreases |order|
  {
    if |order| > 0 {
      var one := Tell(s, site, now, Down(order[0]), manners);
      ListsTail(order, gone);
      FirstDown(s, site, now, order, gone, manners);
      TellDown(s, site, now, order[0], manners);
      DownsTrack(s, one, now, order[1..], gone - {order[0]}, manners);
      ShedMore(site.directory, one.directory, TellAll(s, one, now, Transport.Downs(order[1..]), manners), order[0], gone);
    }
  }

  /** A newcomer was only taken while the table had room. */
  lemma RoomLeft(before: Station, after: Station, src: NodeId)
    requires WellKept(after) && src !in before.table && after.table.Keys == before.table.Keys + {src}
    ensures |before.table.Keys| < MAX_NODES
  {
    assert |after.table.Keys| == |before.table.Keys| + 1;
  }

  lemma RoomAfter(before: D.View, after: D.View, src: NodeId)
    requires D.WellFiled(before) && src in before.entries && after.entries.Keys == before.entries.Keys - {src}
    ensures |after.entries.Keys| < D.MAX_ENTRIES && after.entries.Keys + {src} == before.entries.Keys
  {
    assert after.entries.Keys + {src} == before.entries.Keys;
    assert |before.entries| == |before.entries.Keys| == |after.entries.Keys| + 1;
  }

  /** A node that restarted is told down and up again, in the room it leaves. */
  lemma DownThenUp(s: Setup, moved: Site, now: nat, src: NodeId, manners: Manners)
    requires M.Sane(moved.desk) && Tracks(moved.directory, moved.log) && src in moved.directory.entries
    requires Owns(s, Tell(s, Tell(s, moved, now, Down(src), manners), now, Up(src), manners).desk)
    ensures var r := Tell(s, Tell(s, moved, now, Down(src), manners), now, Up(src), manners);
      Tracks(r.directory, r.log) && r.directory.entries.Keys == moved.directory.entries.Keys
  {
    var gone := Tell(s, moved, now, Down(src), manners);
    NoSlotStays(s, gone.desk, Tell(s, gone, now, Up(src), manners).desk);
    TellDown(s, moved, now, src, manners);
    RoomAfter(moved.directory, gone.directory, src);
    TellUp(s, gone, now, src, manners);
  }

  /** A node that restarted is told down and up again. */
  lemma OneRestart(s: Setup, site: Site, now: nat, after: Station, events: seq<Presence>, src: NodeId, manners: Manners)
    requires Agrees(site) && events == [Down(src), Up(src)] && src in site.station.table && after.table.Keys == site.station.table.Keys
    requires Owns(s, TellAll(s, site.(station := after), now, events, manners).desk)
    ensures Current(TellAll(s, site.(station := after), now, events, manners))
  {
    TellTwo(s, site.(station := after), now, Down(src), Up(src), manners);
    DownThenUp(s, site.(station := after), now, src, manners);
  }

  /** A newcomer is told up, and the directory has room for it. */
  lemma OneUp(s: Setup, site: Site, now: nat, after: Station, events: seq<Presence>, src: NodeId, manners: Manners)
    requires Agrees(site) && WellKept(after) && events == [Up(src)]
    requires src !in site.station.table && after.table.Keys == site.station.table.Keys + {src}
    requires Owns(s, TellAll(s, site.(station := after), now, events, manners).desk)
    ensures Current(TellAll(s, site.(station := after), now, events, manners))
  {
    TellTwo(s, site.(station := after), now, Up(src), Up(src), manners);
    RoomLeft(site.station, after, src);
    TellUp(s, site.(station := after), now, src, manners);
  }

  /** The site after the presence events of a frame. */
  ghost function Learned(s: Setup, site: Site, ev: Event): (r: Site)
    requires ev.Frames? && M.Sane(site.desk) && site.station.bootId < WORD_LIMIT
    ensures M.Sane(r.desk) && r.station == OnFrame(site.station, ev.frame, ev.link, ev.from, ev.now).station
  {
    var heard := OnFrame(site.station, ev.frame, ev.link, ev.from, ev.now);
    TellAll(s, site.(station := heard.station), ev.now, heard.events, ev.manners)
  }

  lemma LearnedUp(s: Setup, site: Site, ev: Event)
    requires Agrees(site) && ev.Frames? && Owns(s, Learned(s, site, ev).desk)
    requires |OnFrame(site.station, ev.frame, ev.link, ev.from, ev.now).events| == 1
    ensures Current(Learned(s, site, ev))
  {
    var heard := OnFrame(site.station, ev.frame, ev.link, ev.from, ev.now);
    FrameTeaches(site.station, ev.frame, ev.link, ev.from, ev.now);
    OneUp(s, site, ev.now, heard.station, heard.events, ev.frame.src, ev.manners);
  }

  lemma LearnedRestart(s: Setup, site: Site, ev: Event)
    requires Agrees(site) && ev.Frames? && Owns(s, Learned(s, site, ev).desk)
    requires |OnFrame(site.station, ev.frame, ev.link, ev.from, ev.now).events| > 1
    ensures Current(Learned(s, site, ev))
  {
    var heard := OnFrame(site.station, ev.frame, ev.link, ev.from, ev.now);
    RestartTeaches(site.station, ev.frame, ev.link, ev.from, ev.now);
    OneRestart(s, site, ev.now, heard.station, heard.events, ev.frame.src, ev.manners);
  }

  lemma LearnedNothing(s: Setup, site: Site, ev: Event)
    requires Agrees(site) && ev.Frames? && OnFrame(site.station, ev.frame, ev.link, ev.from, ev.now).events == []
    ensures Current(Learned(s, site, ev))
  {
    FrameTeaches(site.station, ev.frame, ev.link, ev.from, ev.now);
  }

  /** The events of one frame bring the directory to the ids of the table after it. */
  lemma LearnedCurrent(s: Setup, site: Site, ev: Event)
    requires Agrees(site) && ev.Frames? && Owns(s, Learned(s, site, ev).desk)
    ensures Current(Learned(s, site, ev))
  {
    var events := OnFrame(site.station, ev.frame, ev.link, ev.from, ev.now).events;
    if |events| == 0 {
      LearnedNothing(s, site, ev);
    } else if |events| == 1 {
      LearnedUp(s, site, ev);
    } else {
      LearnedRestart(s, site, ev);
    }
  }

  // ---- what is delivered ----

  lemma ReceiveTracks(s: Setup, site: Site, src: NodeId, now: nat, payload: Payload, reply: M.Reply)
    requires M.Sane(site.desk) && Tracks(site.directory, site.log) && src in site.directory.entries
    ensures var r := Receive(s, site, src, now, payload, reply);
      Tracks(r.directory, r.log) && r.directory.entries.Keys == site.directory.entries.Keys
  {
    var after := M.OnPayload(site.desk, src, payload, reply);
    News.PayloadCalls(site.desk, src, payload, reply);
    var calls := News.Since(site.desk, after);
    assert calls == [] ==> HearAll(s, site.station, now, site.directory, calls) == site.directory;
    NoFailures(s, [], calls);
    assert [] + calls == calls && site.log + [] == site.log;
    if Reaches(s, site.desk, payload) {
      var mail := Mail(src, payload.envelope);
      assert calls == [Handed(s.handler, mail)];
      assert HearAll(s, site.station, now, site.directory, calls[..0]) == site.directory;
      AnnounceTracks(site.directory, site.log, src, s.identify(mail.envelope.body), s.wireHash, HopsOf(site.station, src), now);
    } else {
      OtherCall(s, site, now, calls);
    }
  }

  /** A message that is no announce for the directory leaves it as it is. */
  lemma OtherCall(s: Setup, site: Site, now: nat, calls: seq<Callback>)
    requires |calls| <= 1 && (|calls| == 1 ==> calls[0].Handed? && (calls[0].owner != s.handler || calls[0].mail.envelope.tag != ANNOUNCE_TAG))
    ensures HearAll(s, site.station, now, site.directory, calls) == site.directory
  {
    if |calls| == 1 {
      assert HearAll(s, site.station, now, site.directory, calls[..0]) == site.directory;
    }
  }

  // ---- every event ----

  lemma FramesAgree(s: Setup, site: Site, ev: Event)
    requires Agrees(site) && ev.Frames? && Owns(s, Next(s, site, ev).desk)
    ensures Agrees(Next(s, site, ev))
  {
    var told := Learned(s, site, ev);
    FrameTeaches(site.station, ev.frame, ev.link, ev.from, ev.now);
    if OnFrame(site.station, ev.frame, ev.link, ev.from, ev.now).delivered {
      NoSlotStays(s, told.desk, Receive(s, told, ev.frame.src, ev.now, ev.payload, ev.reply).desk);
      LearnedCurrent(s, site, ev);
      ReceiveTracks(s, told, ev.frame.src, ev.now, ev.payload, ev.reply);
    } else {
      LearnedCurrent(s, site, ev);
    }
  }

  lemma ExpiresAgree(s: Setup, site: Site, ev: Event)
    requires Agrees(site) && Enabled(site, ev) && ev.Expires? && Owns(s, Next(s, site, ev).desk)
    ensures Agrees(Next(s, site, ev))
  {
    ExpiryKeeps(site.station, ev.at);
    var moved := site.(station := site.station.(table := Expired(site.station.table, ev.at)));
    assert Expired(site.station.table, ev.at).Keys == site.station.table.Keys - StaleIds(site.station.table, ev.at);
    DownsTrack(s, moved, ev.at, ev.order, StaleIds(site.station.table, ev.at), ev.ways);
  }

  lemma WorksAgree(s: Setup, site: Site, ev: Event)
    requires Agrees(site) && Enabled(site, ev) && ev.Works?
    ensures Agrees(Next(s, site, ev))
  {
    var after := M.Step(site.desk, ev.work);
    M.StepProceeds(site.desk, ev.work);
    OnlyFailures(site.desk, ev.work);
    FailuresTrack(s, site.station, 0, site.directory, site.log, News.Since(site.desk, after));
  }

  /** What a messenger does on its own tells handlers of failed requests only. */
  lemma OnlyFailures(d: Desk, ev: M.Event)
    requires M.Sane(d) && !ev.GainsNode? && !ev.LosesNode? && !ev.Receives?
    ensures var after := M.Step(d, ev);
      |d.post.calls| <= |after.post.calls| && forall i :: 0 <= i < |News.Since(d, after)| ==> News.Since(d, after)[i].ToldFailed?
  {
    match ev
    case Asks(ask) => M.RequestProceeds(d, ask);
    case Says(dst, envelope, encodes) => M.SendProceeds(d, dst, envelope, encodes);
    case Detaches(owner) => M.DetachProceeds(d, owner);
    case Ticks(now, react) => M.TickProceeds(d, 0, now, react);
    case _ =>
  }

  /** Every event after which the directory owns a slot keeps the three in agreement. */
  lemma NextAgrees(s: Setup, site: Site, ev: Event)
    requires Agrees(site) && Enabled(site, ev) && Owns(s, Next(s, site, ev).desk)
    ensures Agrees(Next(s, site, ev))
  {
    match ev
    case Frames(_, _, _, _, _, _, _) => FramesAgree(s, site, ev);
    case Expires(_, _, _) => ExpiresAgree(s, site, ev);
    case Works(_) => WorksAgree(s, site, ev);
  }

  /** One event of a run, leaving the directory with a slot. */
  ghost predicate Happens(s: Setup, sites: seq<Site>, events: seq<Event>, i: nat)
    requires |sites| == |events| + 1 && i < |events|
  {
    && Owns(s, sites[i + 1].desk)
    && Enabled(sites[i], events[i]) && sites[i].station.bootId < WORD_LIMIT && M.Sane(sites[i].desk)
    && sites[i + 1] == Next(s, sites[i], events[i])
  }

  /** An empty node whose directory is attached. */
  ghost predicate Starts(site: Site) {
    && WellKept(site.station) && site.station.table == map[] && M.Sane(site.desk)
    && site.directory == D.NOTHING && site.log == []
  }

  /** A run from an empty node, the directory owning a slot throughout. */
  ghost predicate Lives(s: Setup, sites: seq<Site>, events: seq<Event>) {
    && |sites| == |events| + 1 && Starts(sites[0])
    && forall i: nat {:trigger Happens(s, sites, events, i)} :: i < |events| ==> Happens(s, sites, events, i)
  }

  lemma StartsAgree(site: Site)
    requires Starts(site)
    ensures Agrees(site)
  {
    forall id: NodeId ensures Filed(site.directory, site.log, id) {
    }
  }

  /**
   * Presence is consistent across the components: while the directory owns a slot of the dispatch
   * table, every run keeps the events of each id alternating from up, the directory holding exactly
   * the ids of the transport table and dropping none, every entry KNOWN exactly if it announced since
   * its last up and by what it said last, MUTE exactly if a request failed since and it never did.
   */
  lemma {:induction false} PresenceIsConsistent(s: Setup, sites: seq<Site>, events: seq<Event>, n: nat)
    requires Lives(s, sites, events) && n < |sites|
    ensures Agrees(sites[n])
  {
    if n == 0 {
      StartsAgree(sites[0]);
    } else {
      PresenceIsConsistent(s, sites, events, n - 1);
      HappensAgree(s, sites, events, n);
    }
  }

  lemma HappensAgree(s: Setup, sites: seq<Site>, events: seq<Event>, n: nat)
    requires Lives(s, sites, events) && 0 < n < |sites| && Agrees(sites[n - 1])
    ensures Agrees(sites[n])
  {
    assert Happens(s, sites, events, n - 1);
    NextAgrees(s, sites[n - 1], events[n - 1]);
  }

  /** A directory whose every tag was shadowed is not told: the first newcomer leaves it behind. */
  lemma ShadowedFallsBehind(s: Setup, site: Site, ev: Event)
    requires Agrees(site) && ev.Frames? && !Owns(s, site.desk)
    requires OnFrame(site.station, ev.frame, ev.link, ev.from, ev.now).events == [Up(ev.frame.src)]
    ensures !Agrees(Next(s, site, ev))
  {
    var heard := OnFrame(site.station, ev.frame, ev.link, ev.from, ev.now);
    FrameTeaches(site.station, ev.frame, ev.link, ev.from, ev.now);
    var told := Learned(s, site, ev);
    UpUnheard(s, site.(station := heard.station), ev.now, ev.frame.src, ev.manners);
    if heard.delivered {
      MailUnheard(s, told, ev.frame.src, ev.now, ev.payload, ev.reply);
    }
  }

  lemma UpUnheard(s: Setup, moved: Site, now: nat, id: NodeId, manners: Manners)
    requires M.Sane(moved.desk) && Tracks(moved.directory, moved.log) && !Owns(s, moved.desk)
    ensures var told := TellAll(s, moved, now, [Up(id)], manners);
      told.directory.entries.Keys == moved.directory.entries.Keys && !Owns(s, told.desk)
  {
    TellTwo(s, moved, now, Up(id), Up(id), manners);
    var view := TellHears(s, moved, now, Up(id), manners);
    NoSlotStays(s, moved.desk, Tell(s, moved, now, Up(id), manners).desk);
  }

  lemma MailUnheard(s: Setup, site: Site, src: NodeId, now: nat, payload: Payload, reply: M.Reply)
    requires M.Sane(site.desk) && !Owns(s, site.desk)
    ensures Receive(s, site, src, now, payload, reply).directory == site.directory
  {
    News.PayloadCalls(site.desk, src, payload, reply);
    OtherCall(s, site, now, News.Since(site.desk, M.OnPayload(site.desk, src, payload, reply)));
  }
}
