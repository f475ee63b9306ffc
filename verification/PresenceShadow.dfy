/**
 * A directory that owns a slot of the dispatch table throughout agrees with the transport
 * throughout; one that never owns any agrees exactly as long as nobody comes.
 */
module PresenceShadow {
  import opened Bytes
  import opened TransportNode
  import opened MessengerDesk
  import opened Presence
  import H = HandlerTable

  // ---- runs, whatever the directory owns ----

  ghost predicate Goes(s: Setup, sites: seq<Site>, events: seq<Event>, i: nat) {
    i < |events| && i + 1 < |sites| ==>
      && Enabled(sites[i], events[i]) && sites[i].station.bootId < WORD_LIMIT && M.Sane(sites[i].desk)
      && sites[i + 1] == Next(s, sites[i], events[i])
  }

  ghost predicate Life(s: Setup, sites: seq<Site>, events: seq<Event>) {
    && |sites| == |events| + 1 && Starts(sites[0])
    && forall i: nat {:trigger Goes(s, sites, events, i)} :: Goes(s, sites, events, i)
  }

  predicate OwnsAlways(s: Setup, sites: seq<Site>) {
    forall i :: 0 <= i < |sites| ==> Owns(s, sites[i].desk)
  }

  predicate OwnsNever(s: Setup, sites: seq<Site>) {
    forall i :: 0 <= i < |sites| ==> !Owns(s, sites[i].desk)
  }

  predicate NobodyCame(sites: seq<Site>, n: nat)
    requires n <= |sites|
  {
    forall i :: 0 <= i < n ==> sites[i].station.table == map[]
  }

  ghost predicate AgreesAt(sites: seq<Site>, i: nat) {
    i < |sites| ==> Agrees(sites[i])
  }

  ghost predicate AgreesAlways(sites: seq<Site>) {
    forall i: nat {:trigger AgreesAt(sites, i)} :: AgreesAt(sites, i)
  }

  // ---- a slot throughout ----

  lemma OwningLives(s: Setup, sites: seq<Site>, events: seq<Event>)
    requires Life(s, sites, events) && OwnsAlways(s, sites)
    ensures Lives(s, sites, events)
  {
    forall i: nat | i < |events| ensures Happens(s, sites, events, i) {
      assert Goes(s, sites, events, i);
    }
  }

  // ---- no slot at all ----

  /** An empty table that a frame leaves empty met nobody, and nothing of the frame was delivered. */
  lemma NobodyMet(s: Setup, site: Site, ev: Event)
    requires Agrees(site) && ev.Frames? && site.station.table == map[] && Next(s, site, ev).station.table == map[]
    ensures Agrees(Next(s, site, ev))
  {
    FrameTeaches(site.station, ev.frame, ev.link, ev.from, ev.now);
    assert ev.frame.src !in site.station.table;
    assert OnFrame(site.station, ev.frame, ev.link, ev.from, ev.now).events == [];
    LearnedNothing(s, site, ev);
  }

  lemma NobodyExpires(s: Setup, site: Site, ev: Event)
    requires Agrees(site) && ev.Expires? && Enabled(site, ev) && site.station.table == map[]
    ensures Agrees(Next(s, site, ev))
  {
    assert StaleIds(site.station.table, ev.at) == {};
    NoneListed(ev.order);
    assert Transport.Downs(ev.order) == [];
    assert Expired(site.station.table, ev.at) == site.station.table;
    assert site.(station := site.station.(table := site.station.table)) == site;
  }

  lemma NoneListed(order: seq<NodeId>)
    requires Transport.Lists(order, {})
    ensures order == []
  {
    if |order| > 0 {
      ListsTail(order, {});
    }
  }

  lemma AloneAgrees(s: Setup, site: Site, ev: Event)
    requires Agrees(site) && Enabled(site, ev) && site.station.table == map[] && Next(s, site, ev).station.table == map[]
    ensures Agrees(Next(s, site, ev))
  {
    match ev
    case Frames(_, _, _, _, _, _, _) => NobodyMet(s, site, ev);
    case Expires(_, _, _) => NobodyExpires(s, site, ev);
    case Works(_) => WorksAgree(s, site, ev);
  }

  /** Only a frame brings a node into an empty table, and its one event says so. */
  lemma FirstComer(s: Setup, site: Site, ev: Event)
    requires Agrees(site) && Enabled(site, ev) && site.station.table == map[] && Next(s, site, ev).station.table != map[]
    ensures ev.Frames? && OnFrame(site.station, ev.frame, ev.link, ev.from, ev.now).events == [Up(ev.frame.src)]
  {
    if ev.Frames? {
      FrameTeaches(site.station, ev.frame, ev.link, ev.from, ev.now);
      assert ev.frame.src !in site.station.table;
    }
  }

  lemma {:induction false} AloneThroughout(s: Setup, sites: seq<Site>, events: seq<Event>, n: nat)
    requires Life(s, sites, events) && n < |sites| && NobodyCame(sites, n + 1)
    ensures Agrees(sites[n])
  {
    if n == 0 {
      StartsAgree(sites[0]);
    } else {
      AloneThroughout(s, sites, events, n - 1);
      AloneOneMore(s, sites, events, n);
    }
  }

  lemma AloneOneMore(s: Setup, sites: seq<Site>, events: seq<Event>, n: nat)
    requires Life(s, sites, events) && 0 < n < |sites| && Agrees(sites[n - 1])
    requires sites[n - 1].station.table == map[] && sites[n].station.table == map[]
    ensures Agrees(sites[n])
  {
    assert Goes(s, sites, events, n - 1);
    AloneAgrees(s, sites[n - 1], events[n - 1]);
  }

  lemma StillAlone(s: Setup, sites: seq<Site>, events: seq<Event>, i: nat)
    requires Life(s, sites, events) && OwnsNever(s, sites) && AgreesAlways(sites)
    requires i + 1 < |sites| && sites[i].station.table == map[]
    ensures sites[i + 1].station.table == map[]
  {
    assert Goes(s, sites, events, i) && AgreesAt(sites, i) && AgreesAt(sites, i + 1);
    OneStaysAlone(s, sites[i], events[i]);
  }

  lemma OneStaysAlone(s: Setup, site: Site, ev: Event)
    requires Agrees(site) && Enabled(site, ev) && !Owns(s, site.desk) && site.station.table == map[] && Agrees(Next(s, site, ev))
    ensures Next(s, site, ev).station.table == map[]
  {
    if Next(s, site, ev).station.table != map[] {
      FirstComer(s, site, ev);
      ShadowedFallsBehind(s, site, ev);
      assert false;
    }
  }

  /** While a directory without a slot agrees, nobody has come. */
  lemma {:induction false} AgreeingIsAlone(s: Setup, sites: seq<Site>, events: seq<Event>, n: nat)
    requires Life(s, sites, events) && OwnsNever(s, sites) && AgreesAlways(sites) && 0 < n <= |sites|
    ensures NobodyCame(sites, n)
  {
    if n > 1 {
      AgreeingIsAlone(s, sites, events, n - 1);
      StillAlone(s, sites, events, n - 2);
    }
  }

  /**
   * For a directory that owns a slot in every state of a run or in none: transport, events and
   * directory agree in every state if and only if it owns one, or no node ever came.
   */
  lemma AgreesExactlyIfHeard(s: Setup, sites: seq<Site>, events: seq<Event>)
    requires Life(s, sites, events) && (OwnsAlways(s, sites) || OwnsNever(s, sites))
    ensures AgreesAlways(sites) <==> OwnsAlways(s, sites) || NobodyCame(sites, |sites|)
  {
    if OwnsAlways(s, sites) {
      OwningLives(s, sites, events);
      forall i: nat ensures AgreesAt(sites, i) {
        if i < |sites| {
          PresenceIsConsistent(s, sites, events, i);
        }
      }
    } else {
      if NobodyCame(sites, |sites|) {
        forall i: nat ensures AgreesAt(sites, i) {
          if i < |sites| {
            AloneThroughout(s, sites, events, i);
          }
        }
      }
      if AgreesAlways(sites) {
        AgreeingIsAlone(s, sites, events, |sites|);
      }
    }
  }

  // ---- a directory attached too late ----

  const EARLIER: nat := 0
  const LATER: nat := 1
  const SETUP := Setup(LATER, (body: nat) => D.NOBODY, 0)

  function Blank(): Desk {
    M.Opening(1, (h: nat) => [ANNOUNCE_TAG], (n: nat) => true)
  }

  /** Two handlers claim the announce tag, the directory second. */
  function BothAttached(): Desk {
    M.Attach(M.Attach(Blank(), EARLIER), LATER)
  }

  function Late(): Site {
    Site(Station(1, 0, 1, map[]), BothAttached(), D.NOTHING, [])
  }

  const HELLO := Frame(9, BROADCAST, 0, 0, false, [])
  const HELLO_HEARD := Frames(HELLO, 0, 0, 0, Garbled, M.Reply(false, []), Manners((h: nat) => [], (h: nat) => []))

  lemma LateOwnsNothing()
    ensures Starts(Late()) && !Owns(SETUP, Late().desk)
  {
    M.FreshIsSane(Blank());
    M.AttachKeeps(Blank(), EARLIER);
    M.AttachKeeps(M.Attach(Blank(), EARLIER), LATER);
    forall tag: nat | tag < |BothAttached().post.claims.slots| ensures BothAttached().post.claims.slots[tag] != Some(LATER) {
      H.ClaimedSlot(Blank().post.claims, EARLIER, [ANNOUNCE_TAG], tag);
      H.ClaimedSlot(M.Attach(Blank(), EARLIER).post.claims, LATER, [ANNOUNCE_TAG], tag);
    }
  }

  /** The first frame of a newcomer leaves a directory attached too late behind. */
  lemma LateFallsBehind()
    ensures Starts(Late()) && !Owns(SETUP, Late().desk) && Agrees(Late())
    ensures Enabled(Late(), HELLO_HEARD) && !Agrees(Next(SETUP, Late(), HELLO_HEARD))
  {
    LateOwnsNothing();
    StartsAgree(Late());
    ShadowedFallsBehind(SETUP, Late(), HELLO_HEARD);
  }
}
