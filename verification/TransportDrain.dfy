/**
 * Networks of transports: with silent applications and no timer firing, every network, loops
 * included, handles finitely many frames. The bound is explicit.
 */
module TransportDrain {
  import opened Bytes
  import opened TransportNode

  /** A frame on its way to a station, about to arrive on one of its links from some address. */
  datatype Flight = Flight(at: nat, link: nat, from: nat, frame: Frame)

  /** The stations and the frames in flight. */
  datatype Network = Network(stations: seq<Station>, air: seq<Flight>)

  /** What is fixed: the ids that may ever appear as a source, how many stations one link reaches, frame weights, and the price of greeting a newcomer. */
  datatype Limits = Limits(ids: set<NodeId>, fanout: nat, weight: nat -> nat, price: nat)

  /** A frame that may still be relayed outweighs every copy of it that relaying can put in the air. */
  predicate Outweighs(l: Limits, hops: nat) {
    l.weight(hops) > 0 && (hops < MAX_HOPS ==> l.weight(hops) > l.fanout * (MAX_LINKS * l.weight(hops + 1)))
  }

  ghost predicate Weighted(l: Limits) {
    l.price == l.fanout * l.weight(0) && forall h: nat :: Outweighs(l, h)
  }

  /** Stations with at most MAX_LINKS links and known ids; frames from known ids to existing stations. */
  predicate Legal(l: Limits, net: Network) {
    && (forall i :: 0 <= i < |net.stations| ==>
          WellKept(net.stations[i]) && net.stations[i].links <= MAX_LINKS && net.stations[i].self in l.ids)
    && (forall i :: 0 <= i < |net.air| ==> net.air[i].at < |net.stations| && net.air[i].frame.src in l.ids)
  }

  /**
   * What the media make of the frames a station hands to its links: any copies of each, up to
   * the fan-out, to any stations, links and addresses. Lost copies are simply not there.
   */
  predicate Carried(l: Limits, net: Network, sends: seq<Send>, copies: seq<Flight>)
    decreases |sends|
  {
    if |sends| == 0 then copies == []
    else
      exists n: nat | n <= |copies| && n <= l.fanout ::
        && Carried(l, net, sends[1..], copies[n..])
        && forall i :: 0 <= i < n ==> copies[i].frame == sends[0].frame && copies[i].at < |net.stations|
  }

  /** One frame in flight, any of them, is handled by its station. */
  ghost predicate Handles(l: Limits, net: Network, turn: Turn, next: Network) {
    && turn.k < |net.air|
    && var f := net.air[turn.k];
    && f.at < |net.stations| && net.stations[f.at].bootId < WORD_LIMIT
    && var heard := OnFrame(net.stations[f.at], f.frame, f.link, f.from, turn.now);
    && Carried(l, net, heard.sends, turn.copies)
    && next == Network(net.stations[f.at := heard.station], net.air[..turn.k] + net.air[turn.k + 1..] + turn.copies)
  }

  /** Which frame in flight is handled, when, and what the media make of the answer. */
  datatype Turn = Turn(k: nat, now: nat, copies: seq<Flight>)

  // ---- the measure ----

  function Load(l: Limits, air: seq<Flight>): nat {
    if |air| == 0 then 0 else l.weight(air[0].frame.hops) + Load(l, air[1..])
  }

  /** Sources a station has not learnt yet. */
  function Unlearnt(l: Limits, stations: seq<Station>): nat {
    if |stations| == 0 then 0 else |l.ids - stations[0].table.Keys| + Unlearnt(l, stations[1..])
  }

  /** A newcomer's greeting is paid for by the pair it removes from the unlearnt ones. */
  function Measure(l: Limits, net: Network): nat {
    Total(Unlearnt(l, net.stations), l.price, Load(l, net.air))
  }

  function Total(unlearnt: nat, price: nat, load: nat): nat {
    unlearnt * price + load
  }

  // ---- sums ----

  lemma {:induction false} LoadJoins(l: Limits, a: seq<Flight>, b: seq<Flight>)
    ensures Load(l, a + b) == Load(l, a) + Load(l, b)
  {
    if |a| == 0 {
      assert a + b == b;
    } else {
      assert (a + b)[1..] == a[1..] + b;
      LoadJoins(l, a[1..], b);
    }
  }

  lemma LoadWithout(l: Limits, air: seq<Flight>, k: nat)
    requires k < |air|
    ensures Load(l, air) == Load(l, air[..k] + air[k + 1..]) + l.weight(air[k].frame.hops)
  {
    assert air == air[..k] + ([air[k]] + air[k + 1..]);
    LoadJoins(l, air[..k], [air[k]] + air[k + 1..]);
    LoadJoins(l, [air[k]], air[k + 1..]);
    LoadJoins(l, air[..k], air[k + 1..]);
    assert Load(l, [air[k]]) == l.weight(air[k].frame.hops) + Load(l, []);
  }

  lemma {:induction false} UnlearntUpdated(l: Limits, stations: seq<Station>, i: nat, station: Station)
    requires i < |stations|
    ensures Unlearnt(l, stations[i := station]) + |l.ids - stations[i].table.Keys|
         == Unlearnt(l, stations) + |l.ids - station.table.Keys|
  {
    var updated := stations[i := station];
    assert Unlearnt(l, updated) == |l.ids - updated[0].table.Keys| + Unlearnt(l, updated[1..]);
    if i == 0 {
      assert updated[1..] == stations[1..];
    } else {
      assert updated[1..] == stations[1..][i - 1 := station];
      UnlearntUpdated(l, stations[1..], i - 1, station);
    }
  }

  // ---- one frame ----

  /** Weight of what was handed to the links, one copy each. */
  function Handed(l: Limits, sends: seq<Send>): nat {
    if |sends| == 0 then 0 else l.weight(sends[0].frame.hops) + Handed(l, sends[1..])
  }

  /** The media multiply by at most the fan-out. */
  lemma {:induction false} CarriedLoad(l: Limits, net: Network, sends: seq<Send>, copies: seq<Flight>)
    requires Carried(l, net, sends, copies)
    ensures Load(l, copies) <= l.fanout * Handed(l, sends)
  {
    if |sends| > 0 {
      var n: nat :| n <= |copies| && n <= l.fanout && Carried(l, net, sends[1..], copies[n..]) &&
        forall i :: 0 <= i < n ==> copies[i].frame == sends[0].frame && copies[i].at < |net.stations|;
      CarriedLoad(l, net, sends[1..], copies[n..]);
      assert copies == copies[..n] + copies[n..];
      LoadJoins(l, copies[..n], copies[n..]);
      SameWeights(l, copies[..n], sends[0].frame.hops);
      Multiplied(n, l.fanout, l.weight(sends[0].frame.hops), Handed(l, sends[1..]));
    }
  }

  lemma Multiplied(n: nat, fanout: nat, w: nat, rest: nat)
    requires n <= fanout
    ensures n * w + fanout * rest <= fanout * (w + rest)
  {
    assert n * w <= fanout * w;
  }

  lemma {:induction false} SameWeights(l: Limits, copies: seq<Flight>, hops: nat)
    requires forall i :: 0 <= i < |copies| ==> copies[i].frame.hops == hops
    ensures Load(l, copies) == |copies| * l.weight(hops)
  {
    if |copies| > 0 {
      SameWeights(l, copies[1..], hops);
    }
  }

  /** A frame from a known source that has crossed no more relays than allowed. */
  predicate Proper(l: Limits, frame: Frame) {
    frame.src in l.ids && frame.hops <= MAX_HOPS
  }

  /** Copies are proper as far as what was sent is, and go to existing stations. */
  lemma {:induction false} CarriedLegal(l: Limits, net: Network, sends: seq<Send>, copies: seq<Flight>)
    requires Carried(l, net, sends, copies)
    requires forall i :: 0 <= i < |sends| ==> Proper(l, sends[i].frame)
    ensures forall i :: 0 <= i < |copies| ==> copies[i].at < |net.stations| && Proper(l, copies[i].frame)
  {
    if |sends| > 0 {
      var n: nat :| n <= |copies| && n <= l.fanout && Carried(l, net, sends[1..], copies[n..]) &&
        forall i :: 0 <= i < n ==> copies[i].frame == sends[0].frame && copies[i].at < |net.stations|;
      CarriedLegal(l, net, sends[1..], copies[n..]);
      forall i | 0 <= i < |copies| ensures copies[i].at < |net.stations| && Proper(l, copies[i].frame) {
        if i >= n {
          assert copies[i] == copies[n..][i - n];
        }
      }
    }
  }

  /** A flooded frame goes out as it is, never on the arrival link. */
  lemma {:induction false} FloodIs(links: nat, arrival: nat, frame: Frame, i: nat)
    requires i < |Flood(links, arrival, frame)|
    ensures Flood(links, arrival, frame)[i].frame == frame && Flood(links, arrival, frame)[i].link != arrival
  {
    if i < |Flood(links - 1, arrival, frame)| {
      FloodIs(links - 1, arrival, frame, i);
    }
  }

  lemma {:induction false} FloodHanded(l: Limits, links: nat, arrival: nat, frame: Frame)
    ensures Handed(l, Flood(links, arrival, frame)) <= links * l.weight(frame.hops)
  {
    if links > 0 {
      FloodHanded(l, links - 1, arrival, frame);
      var before, w := Flood(links - 1, arrival, frame), l.weight(frame.hops);
      if links - 1 != arrival {
        HandedGrows(l, before, Send(links - 1, None, frame));
      } else {
        assert before + [] == before;
      }
      OneMore(links, w);
    }
  }

  lemma OneMore(links: nat, w: nat)
    requires links > 0
    ensures (links - 1) * w + w == links * w
  {
  }

  lemma {:induction false} HandedGrows(l: Limits, sends: seq<Send>, last: Send)
    ensures Handed(l, sends + [last]) == Handed(l, sends) + l.weight(last.frame.hops)
  {
    if |sends| > 0 {
      assert (sends + [last])[1..] == sends[1..] + [last];
      HandedGrows(l, sends[1..], last);
    }
  }

  /** Everything a relayed frame puts in the air weighs less than the frame itself. */
  lemma RelayShrinks(l: Limits, t: Station, frame: Frame, arrival: nat)
    requires Weighted(l) && t.links <= MAX_LINKS
    ensures l.fanout * Handed(l, Relay(t, frame, arrival)) < l.weight(frame.hops)
    ensures forall i :: 0 <= i < |Relay(t, frame, arrival)| ==>
      && Relay(t, frame, arrival)[i].frame == frame.(hops := frame.hops + 1)
      && Relay(t, frame, arrival)[i].link != arrival && frame.hops < MAX_HOPS
  {
    var sends := Relay(t, frame, arrival);
    assert Outweighs(l, frame.hops);
    if frame.hops < MAX_HOPS {
      var forwarded := frame.(hops := frame.hops + 1);
      var w := l.weight(forwarded.hops);
      FloodHanded(l, t.links, arrival, forwarded);
      forall i | 0 <= i < |Flood(t.links, arrival, forwarded)|
        ensures Flood(t.links, arrival, forwarded)[i].frame == forwarded && Flood(t.links, arrival, forwarded)[i].link != arrival
      {
        FloodIs(t.links, arrival, forwarded, i);
      }
      if frame.dst == BROADCAST {
        Scaled(l.fanout, Handed(l, sends), t.links, w);
      } else if |sends| == 1 {
        assert sends[1..] == [];
        assert Handed(l, sends) == w == 1 * w;
        Scaled(l.fanout, w, 1, w);
      }
    }
  }

  lemma Scaled(fanout: nat, handed: nat, links: nat, w: nat)
    requires handed <= links * w && links <= MAX_LINKS
    ensures fanout * handed <= fanout * (MAX_LINKS * w)
  {
    assert links * w <= MAX_LINKS * w;
  }

  /** The relayed part of what a frame makes its station send. */
  function Relayed(t: Station, after: Station, f: Flight): seq<Send> {
    if f.frame.dst != t.self then Relay(after, f.frame, f.link) else []
  }

  /** A station sends what it relays, after a greeting when the frame taught it a newcomer, or nothing. */
  lemma FrameSends(t: Station, f: Flight, now: nat)
    requires WellKept(t)
    ensures var heard := OnFrame(t, f.frame, f.link, f.from, now);
      || heard.sends == []
      || heard.sends == Relayed(t, heard.station, f)
      || (&& f.frame.src !in t.table && f.frame.src in heard.station.table
          && |heard.sends| > 0 && heard.sends[1..] == Relayed(t, heard.station, f)
          && heard.sends[0].frame.src == t.self && heard.sends[0].frame.hops == 0)
  {
    var heard := OnFrame(t, f.frame, f.link, f.from, now);
    if f.frame.src !in t.table && |heard.sends| > 0 {
      assert heard.sends[1..] == Relayed(t, heard.station, f);
    }
  }

  /** What one handled frame hands over: lighter than itself, plus a greeting when it taught a newcomer. */
  lemma FrameHands(l: Limits, t: Station, f: Flight, now: nat)
    requires Weighted(l) && WellKept(t) && t.links <= MAX_LINKS
    ensures var heard := OnFrame(t, f.frame, f.link, f.from, now);
      l.fanout * Handed(l, heard.sends) < l.weight(f.frame.hops) + Greeting(l, t, heard.station, f.frame.src)
  {
    var heard := OnFrame(t, f.frame, f.link, f.from, now);
    FrameTeaches(t, f.frame, f.link, f.from, now);
    FrameSends(t, f, now);
    RelayShrinks(l, heard.station, f.frame, f.link);
    GreetedThenRelayed(l, t, heard, f);
  }

  lemma GreetedThenRelayed(l: Limits, t: Station, heard: Heard, f: Flight)
    requires Weighted(l) && l.fanout * Handed(l, Relay(heard.station, f.frame, f.link)) < l.weight(f.frame.hops)
    requires
      || heard.sends == []
      || heard.sends == Relayed(t, heard.station, f)
      || (&& f.frame.src !in t.table && f.frame.src in heard.station.table
          && |heard.sends| > 0 && heard.sends[1..] == Relayed(t, heard.station, f) && heard.sends[0].frame.hops == 0)
    ensures l.fanout * Handed(l, heard.sends) < l.weight(f.frame.hops) + Greeting(l, t, heard.station, f.frame.src)
  {
    assert Outweighs(l, f.frame.hops);
    if |heard.sends| > 0 && heard.sends != Relayed(t, heard.station, f) {
      Distributed(l.fanout, l.weight(0), Handed(l, heard.sends[1..]));
    }
  }

  lemma Distributed(fanout: nat, w: nat, rest: nat)
    ensures fanout * (w + rest) == fanout * w + fanout * rest
  {
  }

  /** A station only sends frames of its own or of the source it heard, within the hop limit. */
  lemma FrameSources(l: Limits, t: Station, f: Flight, now: nat)
    requires Weighted(l) && WellKept(t) && t.links <= MAX_LINKS && t.self in l.ids && f.frame.src in l.ids
    ensures var heard := OnFrame(t, f.frame, f.link, f.from, now);
      forall i :: 0 <= i < |heard.sends| ==> Proper(l, heard.sends[i].frame)
  {
    var heard := OnFrame(t, f.frame, f.link, f.from, now);
    FrameTeaches(t, f.frame, f.link, f.from, now);
    FrameSends(t, f, now);
    RelayShrinks(l, heard.station, f.frame, f.link);
    forall i | 0 <= i < |heard.sends| ensures Proper(l, heard.sends[i].frame) {
      if i > 0 {
        assert heard.sends[i] == heard.sends[1..][i - 1];
      }
    }
  }

  /** What greeting a newcomer can cost, zero when there is none. */
  function Greeting(l: Limits, before: Station, after: Station, src: NodeId): nat {
    if src in after.table && src !in before.table then l.price else 0
  }

  predicate WithinHops(air: seq<Flight>) {
    forall i :: 0 <= i < |air| ==> air[i].frame.hops <= MAX_HOPS
  }

  /** What a handled frame puts in the air is proper and goes to existing stations. */
  lemma CopiesProper(l: Limits, net: Network, turn: Turn, next: Network)
    requires Weighted(l) && Legal(l, net) && Handles(l, net, turn, next)
    ensures forall i :: 0 <= i < |turn.copies| ==> turn.copies[i].at < |net.stations| && Proper(l, turn.copies[i].frame)
  {
    var f := net.air[turn.k];
    var t := net.stations[f.at];
    FrameSources(l, t, f, turn.now);
    CarriedLegal(l, net, OnFrame(t, f.frame, f.link, f.from, turn.now).sends, turn.copies);
  }

  /** Handling any frame of a legal network leaves a legal network, and nothing past the hop limit that was not there before. */
  lemma HandlingKeepsLegal(l: Limits, net: Network, turn: Turn, next: Network)
    requires Weighted(l) && Legal(l, net) && Handles(l, net, turn, next)
    ensures Legal(l, next)
    ensures WithinHops(net.air) ==> WithinHops(next.air)
  {
    var f := net.air[turn.k];
    FrameTeaches(net.stations[f.at], f.frame, f.link, f.from, turn.now);
    CopiesProper(l, net, turn, next);
    AirKept(l, net, turn.k, turn.copies);
  }

  lemma AirKept(l: Limits, net: Network, k: nat, copies: seq<Flight>)
    requires Legal(l, net) && k < |net.air|
    requires forall i :: 0 <= i < |copies| ==> copies[i].at < |net.stations| && Proper(l, copies[i].frame)
    ensures var air := net.air[..k] + net.air[k + 1..] + copies;
      && (forall i :: 0 <= i < |air| ==> air[i].at < |net.stations| && air[i].frame.src in l.ids)
      && (WithinHops(net.air) ==> WithinHops(air))
  {
  }

  /** The air gets lighter, but for the greeting of a newcomer. */
  lemma AirAfter(l: Limits, net: Network, turn: Turn, next: Network)
    requires Weighted(l) && Legal(l, net) && Handles(l, net, turn, next)
    ensures var f := net.air[turn.k];
      Load(l, next.air) < Load(l, net.air) + Greeting(l, net.stations[f.at], next.stations[f.at], f.frame.src)
  {
    var f := net.air[turn.k];
    var t := net.stations[f.at];
    var heard := OnFrame(t, f.frame, f.link, f.from, turn.now);
    FrameHands(l, t, f, turn.now);
    CarriedLoad(l, net, heard.sends, turn.copies);
    LoadWithout(l, net.air, turn.k);
    LoadJoins(l, net.air[..turn.k] + net.air[turn.k + 1..], turn.copies);
  }

  /** A newcomer leaves one pair less to learn. */
  lemma LearntAfter(l: Limits, net: Network, turn: Turn, next: Network)
    requires Legal(l, net) && Handles(l, net, turn, next)
    ensures var f := net.air[turn.k];
      Unlearnt(l, net.stations) == Unlearnt(l, next.stations) +
        (if f.frame.src in next.stations[f.at].table && f.frame.src !in net.stations[f.at].table then 1 else 0)
  {
    var f := net.air[turn.k];
    var t := net.stations[f.at];
    FrameTeaches(t, f.frame, f.link, f.from, turn.now);
    UnlearntUpdated(l, net.stations, f.at, next.stations[f.at]);
    LearningPays(l, t, next.stations[f.at], f.frame.src);
  }

  /** Handling any frame of a legal network leaves a network of smaller measure. */
  lemma HandlingShrinks(l: Limits, net: Network, turn: Turn, next: Network)
    requires Weighted(l) && Legal(l, net) && Handles(l, net, turn, next)
    ensures Measure(l, next) < Measure(l, net)
  {
    AirAfter(l, net, turn, next);
    LearntAfter(l, net, turn, next);
    var f := net.air[turn.k];
    var newcomer := f.frame.src in next.stations[f.at].table && f.frame.src !in net.stations[f.at].table;
    Balanced(Unlearnt(l, net.stations), Load(l, net.air), Unlearnt(l, next.stations), Load(l, next.air), l.price, newcomer);
  }

  lemma Balanced(unlearnt: nat, load: nat, unlearnt': nat, load': nat, price: nat, newcomer: bool)
    requires unlearnt == unlearnt' + (if newcomer then 1 else 0)
    requires load' < load + (if newcomer then price else 0)
    ensures Total(unlearnt', price, load') < Total(unlearnt, price, load)
  {
    if newcomer {
      assert (unlearnt' + 1) * price == unlearnt' * price + price;
    }
  }

  /** The unlearnt pairs drop by one with a newcomer and stay with anyone else. */
  lemma LearningPays(l: Limits, before: Station, after: Station, src: NodeId)
    requires src in l.ids
    requires after.table.Keys == before.table.Keys || after.table.Keys == before.table.Keys + {src}
    ensures |l.ids - before.table.Keys| ==
      |l.ids - after.table.Keys| + (if src in after.table && src !in before.table then 1 else 0)
  {
    SetPays(l.ids, before.table.Keys, after.table.Keys, src);
  }

  lemma SetPays(ids: set<NodeId>, before: set<NodeId>, after: set<NodeId>, src: NodeId)
    requires src in ids && (after == before || after == before + {src})
    ensures |ids - before| == |ids - after| + (if src in after && src !in before then 1 else 0)
  {
    if src in after && src !in before {
      assert ids - before == (ids - after) + {src};
    } else {
      assert ids - before == ids - after;
    }
  }

  // ---- whole runs ----

  ghost predicate Turns(l: Limits, nets: seq<Network>, turns: seq<Turn>, i: nat)
    requires |nets| == |turns| + 1 && i < |turns|
  {
    Handles(l, nets[i], turns[i], nets[i + 1])
  }

  lemma {:induction false} RunsShrink(l: Limits, nets: seq<Network>, turns: seq<Turn>)
    requires Weighted(l) && |nets| == |turns| + 1 && Legal(l, nets[0])
    requires forall i :: 0 <= i < |turns| ==> Turns(l, nets, turns, i)
    ensures |turns| <= Measure(l, nets[0]) - Measure(l, nets[|turns|])
    ensures Legal(l, nets[|turns|])
    decreases |turns|
  {
    if |turns| > 0 {
      var n := |turns| - 1;
      var shorter, earlier := nets[..n + 1], turns[..n];
      forall i | 0 <= i < n ensures Turns(l, shorter, earlier, i) {
        assert Turns(l, nets, turns, i);
      }
      RunsShrink(l, shorter, earlier);
      assert Turns(l, nets, turns, n);
      HandlingKeepsLegal(l, nets[n], turns[n], nets[n + 1]);
      HandlingShrinks(l, nets[n], turns[n], nets[n + 1]);
    }
  }

  /** The weights of the bound: a power of more than the copies one relay can make, per relay left. */
  function Weight(fanout: nat, relaysLeft: nat): nat {
    if relaysLeft == 0 then 1 else (MAX_LINKS * fanout + 1) * Weight(fanout, relaysLeft - 1)
  }

  function BoundFor(ids: set<NodeId>, fanout: nat): Limits {
    Limits(ids, fanout, (hops: nat) => if hops > MAX_HOPS then 1 else Weight(fanout, MAX_HOPS - hops),
           fanout * Weight(fanout, MAX_HOPS))
  }

  lemma {:induction false} WeightPositive(fanout: nat, relaysLeft: nat)
    ensures Weight(fanout, relaysLeft) > 0
  {
    if relaysLeft > 0 {
      WeightPositive(fanout, relaysLeft - 1);
    }
  }

  lemma BoundIsWeighted(ids: set<NodeId>, fanout: nat)
    ensures Weighted(BoundFor(ids, fanout))
  {
    var l := BoundFor(ids, fanout);
    forall h: nat ensures Outweighs(l, h) {
      if h <= MAX_HOPS {
        WeightPositive(fanout, MAX_HOPS - h);
      }
      if h < MAX_HOPS {
        var w := Weight(fanout, MAX_HOPS - h - 1);
        WeightPositive(fanout, MAX_HOPS - h - 1);
        assert l.weight(h + 1) == w;
        assert l.weight(h) == (MAX_LINKS * fanout + 1) * w;
        MoreThanCopies(fanout, w);
      }
    }
  }

  lemma MoreThanCopies(fanout: nat, w: nat)
    requires w > 0
    ensures (MAX_LINKS * fanout + 1) * w > fanout * (MAX_LINKS * w)
  {
    assert (MAX_LINKS * fanout) * w == fanout * (MAX_LINKS * w);
  }

  /**
   * Every network drains: whatever the topology, the schedule and the losses, a run that starts
   * from a legal network handles at most as many frames as the measure of its first state.
   */
  lemma EveryNetworkDrains(ids: set<NodeId>, fanout: nat, nets: seq<Network>, turns: seq<Turn>)
    requires |nets| == |turns| + 1 && Legal(BoundFor(ids, fanout), nets[0])
    requires forall i :: 0 <= i < |turns| ==> Turns(BoundFor(ids, fanout), nets, turns, i)
    ensures |turns| <= Measure(BoundFor(ids, fanout), nets[0])
  {
    BoundIsWeighted(ids, fanout);
    RunsShrink(BoundFor(ids, fanout), nets, turns);
  }
}
