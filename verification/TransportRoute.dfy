/**
 * Where frames go: each frame is forwarded exactly once on every link it belongs on, the route kept
 * for a node is the one its last accepted frame came by, and a chain of nodes that know the way
 * delivers.
 */
module TransportRoute {
  import opened Bytes
  import opened TransportNode

  // ---- exactly once, exactly there ----

  function Copies(sends: seq<Send>, send: Send): nat {
    if |sends| == 0 then 0 else Copies(sends[..|sends| - 1], send) + (if sends[|sends| - 1] == send then 1 else 0)
  }

  lemma CopiesGrow(sends: seq<Send>, last: Send, send: Send)
    ensures Copies(sends + [last], send) == Copies(sends, send) + (if last == send then 1 else 0)
  {
    assert (sends + [last])[..|sends|] == sends;
  }

  lemma {:induction false} CopiesJoin(a: seq<Send>, b: seq<Send>, send: Send)
    ensures Copies(a + b, send) == Copies(a, send) + Copies(b, send)
  {
    if |b| == 0 {
      assert a + b == a;
    } else {
      assert (a + b)[..|a + b| - 1] == a + b[..|b| - 1];
      CopiesJoin(a, b[..|b| - 1], send);
    }
  }

  /** A flood is one copy on every link but the arrival one. */
  lemma {:induction false} FloodCopies(links: nat, arrival: nat, frame: Frame, send: Send)
    ensures Copies(Flood(links, arrival, frame), send) ==
      if send.frame == frame && send.address == None && send.link < links && send.link != arrival then 1 else 0
  {
    if links > 0 {
      FloodCopies(links - 1, arrival, frame, send);
      if links - 1 != arrival {
        CopiesGrow(Flood(links - 1, arrival, frame), Send(links - 1, None, frame), send);
      } else {
        assert Flood(links, arrival, frame) == Flood(links - 1, arrival, frame);
      }
    }
  }

  /** The send forwards the frame: one hop more, on another link, to everyone or to where the node it names was heard. */
  predicate Forwards(t: Station, frame: Frame, arrival: nat, send: Send) {
    && frame.hops < MAX_HOPS && send.frame == frame.(hops := frame.hops + 1) && send.link != arrival
    && (if frame.dst == BROADCAST then send.address == None && send.link < t.links
        else frame.dst in t.table && send.link == t.table[frame.dst].link && send.address == Some(t.table[frame.dst].address))
  }

  /** A relayed frame leaves exactly once on every link that takes it further, and nowhere else. */
  lemma RelayIsExact(t: Station, frame: Frame, arrival: nat, send: Send)
    ensures Copies(Relay(t, frame, arrival), send) == if Forwards(t, frame, arrival, send) then 1 else 0
  {
    if frame.hops < MAX_HOPS {
      FloodCopies(t.links, arrival, frame.(hops := frame.hops + 1), send);
    }
  }

  /** A frame of this node leaves exactly once on every link, or once to the node it names. */
  lemma OutwardIsExact(t: Station, frame: Frame, send: Send)
    ensures Copies(Outward(t, frame), send) ==
      if send.frame == frame &&
         (if frame.dst == BROADCAST then send.address == None && send.link < t.links
          else frame.dst in t.table && send.link == t.table[frame.dst].link && send.address == Some(t.table[frame.dst].address))
      then 1 else 0
  {
    FloodCopies(t.links, t.links, frame, send);
  }

  // ---- what one frame does ----

  /** The stream a frame is numbered in here, if any. */
  function StreamHere(t: Station, frame: Frame): Stream {
    if frame.src !in t.table then SILENT
    else if frame.dst == t.self then t.table[frame.src].unicast else t.table[frame.src].broadcast
  }

  /** The number of the frame is the one last heard on its stream. */
  predicate Repeats(t: Station, frame: Frame) {
    && (frame.dst == t.self || frame.dst == BROADCAST)
    && StreamHere(t, frame).heard && Ahead(frame.number, StreamHere(t, frame).last) == 0
  }

  /** It comes from another node, known or with room for it, and was not the last one heard. */
  predicate Accepts(t: Station, frame: Frame) {
    && frame.src != t.self && frame.src != BROADCAST
    && (frame.src in t.table || |t.table| < MAX_NODES)
    && !Repeats(t, frame)
  }

  /** A newcomer is greeted with a keepalive on the link it came by. */
  predicate Greets(t: Station, frame: Frame, link: nat, from: nat, send: Send)
    requires t.bootId < WORD_LIMIT
  {
    && Accepts(t, frame)
    && frame.src !in t.table
    && send == Send(link, Some(from), Frame(t.self, frame.src, 0, 0, true, U32(t.bootId)))
  }

  lemma TakenExactly(t: Station, frame: Frame, link: nat, from: nat, now: nat)
    requires t.bootId < WORD_LIMIT
    ensures var k := Take(t, frame, link, from, now);
      && (k.accepted <==> Accepts(t, frame))
      && (k.accepted && frame.src !in t.table ==>
            k.sends == [Send(link, Some(from), Frame(t.self, frame.src, 0, 0, true, U32(t.bootId)))])
      && (k.accepted && frame.src in t.table ==> k.sends == [])
      && (!k.accepted ==> k.sends == [])
      && k.station == t.(table := k.station.table)
  {
  }

  /**
   * Everything one frame makes a node send: the greeting of a newcomer, and the copies that take the
   * frame further, each once. It is delivered exactly if it is accepted, carries data of an
   * application and is for this node or for everyone.
   */
  lemma FrameIsHandled(t: Station, frame: Frame, link: nat, from: nat, now: nat, send: Send)
    requires t.bootId < WORD_LIMIT
    ensures var h := OnFrame(t, frame, link, from, now);
      && Copies(h.sends, send) ==
           (if Greets(t, frame, link, from, send) then 1 else 0) +
           (if Accepts(t, frame) && frame.dst != t.self && Forwards(h.station, frame, link, send) then 1 else 0)
      && (h.delivered <==>
            Accepts(t, frame) && !frame.keepalive && |frame.data| > 0 && (frame.dst == t.self || frame.dst == BROADCAST))
  {
    var k := Take(t, frame, link, from, now);
    TakenExactly(t, frame, link, from, now);
    RelayIsExact(k.station, frame, link, send);
    var relayed := if k.accepted && frame.dst != t.self then Relay(k.station, frame, link) else [];
    CopiesJoin(k.sends, relayed, send);
    if |k.sends| == 1 {
      CopiesGrow([], k.sends[0], send);
      assert [] + [k.sends[0]] == k.sends;
    }
  }

  /** The boot id kept for a node after an accepted frame: the first one heard, or the one that replaced it. */
  function BootAfter(t: Station, frame: Frame): nat {
    var known := if frame.src in t.table then t.table[frame.src].boot else 0;
    if !frame.keepalive || |frame.data| < KEEPALIVE_SIZE then known
    else
      var told := ReadU32(frame.data, 0);
      if known == 0 || told != 0 then told else known
  }

  /** The entry of the source after a frame, and that no other entry changes. */
  lemma EntryAfter(t: Station, frame: Frame, link: nat, from: nat, now: nat)
    requires t.bootId < WORD_LIMIT && frame.src != t.self && frame.src != BROADCAST
    requires frame.src in t.table || |t.table| < MAX_NODES
    ensures var table := Take(t, frame, link, from, now).station.table;
      && frame.src in table && table[frame.src].lastSeen == now
      && (Accepts(t, frame) ==>
            && table[frame.src].link == link && table[frame.src].address == from && table[frame.src].hops == frame.hops
            && table[frame.src].boot == BootAfter(t, frame))
      && (!Accepts(t, frame) ==>
            table[frame.src] == t.table[frame.src].(lastSeen := now, duplicates := t.table[frame.src].duplicates + 1))
      && (forall id :: id != frame.src ==> (id in table <==> id in t.table) && (id in table ==> table[id] == t.table[id]))
  {
  }

  /** A keepalive of a known node that tells of another incarnation than the one known. */
  predicate Restarts(t: Station, frame: Frame) {
    && Accepts(t, frame) && frame.src in t.table && frame.keepalive && |frame.data| >= KEEPALIVE_SIZE
    && t.table[frame.src].boot != 0 && ReadU32(frame.data, 0) != 0 && ReadU32(frame.data, 0) != t.table[frame.src].boot
  }

  /**
   * What a frame tells: a newcomer is told up, a restart down and up, anything else nothing. A node
   * that restarted starts over: nothing counted, numbered or lost but what this very frame opens.
   */
  lemma EventsAreExact(t: Station, frame: Frame, link: nat, from: nat, now: nat)
    requires WellKept(t)
    ensures var k := Take(t, frame, link, from, now);
      && k.events == (if Restarts(t, frame) then [Down(frame.src), Up(frame.src)]
                      else if Accepts(t, frame) && frame.src !in t.table then [Up(frame.src)] else [])
      && (Restarts(t, frame) ==>
            var here, everyone := frame.dst == t.self, frame.dst == BROADCAST && frame.dst != t.self;
            frame.src in k.station.table &&
            k.station.table[frame.src] ==
              Node(frame.src, link, from, now, 0, if here then Stream(true, frame.number) else SILENT,
                   if everyone then Stream(true, frame.number) else SILENT, if here || everyone then 1 else 0, 0, 0,
                   frame.hops, ReadU32(frame.data, 0)))
  {
  }

  lemma NothingLearnt(t: Station, frame: Frame, link: nat, from: nat, now: nat)
    requires t.bootId < WORD_LIMIT
    requires frame.src == t.self || frame.src == BROADCAST || (frame.src !in t.table && |t.table| >= MAX_NODES)
    ensures Take(t, frame, link, from, now).station == t
  {
  }

  // ---- routes over runs ----

  /** A frame is heard, the silent are forgotten, or a number is drawn to send to a node. */
  datatype Event = Hears(frame: Frame, link: nat, from: nat, at: nat) | Sweeps(now: nat) | Draws(dst: NodeId, next: nat)

  function After(t: Station, ev: Event): Station
    requires t.bootId < WORD_LIMIT
  {
    match ev
    case Hears(frame, link, from, now) => Take(t, frame, link, from, now).station
    case Sweeps(now) => t.(table := Expired(t.table, now))
    case Draws(dst, next) => if dst in t.table then t.(table := t.table[dst := t.table[dst].(txSeq := next)]) else t
  }

  ghost predicate Goes(trace: seq<Station>, events: seq<Event>, i: nat) {
    i < |events| && i + 1 < |trace| ==> trace[i].bootId < WORD_LIMIT && trace[i + 1] == After(trace[i], events[i])
  }

  ghost predicate Life(trace: seq<Station>, events: seq<Event>) {
    && |trace| == |events| + 1 && trace[0].table == map[] && trace[0].bootId < WORD_LIMIT
    && forall i: nat {:trigger Goes(trace, events, i)} :: Goes(trace, events, i)
  }

  /** The frame is from that node, and the table has or can make an entry for it. */
  predicate HeardFrom(t: Station, ev: Event, id: NodeId) {
    && ev.Hears? && ev.frame.src == id && id != t.self && id != BROADCAST
    && (id in t.table || |t.table| < MAX_NODES)
  }

  /** The last frame heard from a node since it was last forgotten, and the last one accepted. */
  function LastHeard(trace: seq<Station>, events: seq<Event>, n: nat, id: NodeId): Option<nat>
    requires |trace| == |events| + 1 && n <= |events|
  {
    if n == 0 then None
    else if HeardFrom(trace[n - 1], events[n - 1], id) then Some(n - 1)
    else if events[n - 1].Sweeps? && id in StaleIds(trace[n - 1].table, events[n - 1].now) then None
    else LastHeard(trace, events, n - 1, id)
  }

  function LastAccepted(trace: seq<Station>, events: seq<Event>, n: nat, id: NodeId): Option<nat>
    requires |trace| == |events| + 1 && n <= |events|
  {
    if n == 0 then None
    else if HeardFrom(trace[n - 1], events[n - 1], id) && Accepts(trace[n - 1], events[n - 1].frame) then Some(n - 1)
    else if events[n - 1].Sweeps? && id in StaleIds(trace[n - 1].table, events[n - 1].now) then None
    else LastAccepted(trace, events, n - 1, id)
  }

  /** The table holds the nodes heard and not forgotten since, each with the time of its last frame and the way its last accepted one came. */
  ghost predicate Remembered(trace: seq<Station>, events: seq<Event>, n: nat, id: NodeId)
    requires |trace| == |events| + 1 && n <= |events|
  {
    var heard, accepted := LastHeard(trace, events, n, id), LastAccepted(trace, events, n, id);
    && (id in trace[n].table <==> heard.Some?) && (heard.Some? <==> accepted.Some?)
    && (id in trace[n].table ==>
          && heard.value < n && events[heard.value].Hears? && accepted.value < n && events[accepted.value].Hears?
          && trace[n].table[id].lastSeen == events[heard.value].at
          && trace[n].table[id].link == events[accepted.value].link && trace[n].table[id].address == events[accepted.value].from)
  }

  lemma {:induction false} RoutesAreFresh(trace: seq<Station>, events: seq<Event>, n: nat, id: NodeId)
    requires Life(trace, events) && n <= |events|
    ensures Remembered(trace, events, n, id)
  {
    if n > 0 {
      RoutesAreFresh(trace, events, n - 1, id);
      assert Goes(trace, events, n - 1);
      RouteStep(trace, events, n, id);
    }
  }

  lemma RouteStep(trace: seq<Station>, events: seq<Event>, n: nat, id: NodeId)
    requires |trace| == |events| + 1 && 0 < n <= |events| && Remembered(trace, events, n - 1, id)
    requires trace[n - 1].bootId < WORD_LIMIT && trace[n] == After(trace[n - 1], events[n - 1])
    ensures Remembered(trace, events, n, id)
  {
    var t, ev := trace[n - 1], events[n - 1];
    if HeardFrom(t, ev, id) {
      EntryAfter(t, ev.frame, ev.link, ev.from, ev.at);
    } else {
      Untouched(t, ev, id);
    }
  }

  /** The entry of a node not heard from keeps its route, and goes only with a sweep that finds it stale. */
  lemma Untouched(t: Station, ev: Event, id: NodeId)
    requires t.bootId < WORD_LIMIT && !HeardFrom(t, ev, id)
    ensures var table := After(t, ev).table;
      && (id in table <==> id in t.table && !(ev.Sweeps? && id in StaleIds(t.table, ev.now)))
      && (id in table ==>
            table[id].lastSeen == t.table[id].lastSeen && table[id].link == t.table[id].link && table[id].address == t.table[id].address)
  {
    if ev.Hears? {
      OthersStay(t, ev, id);
    }
  }

  lemma OthersStay(t: Station, ev: Event, id: NodeId)
    requires t.bootId < WORD_LIMIT && ev.Hears? && !HeardFrom(t, ev, id)
    ensures var table := After(t, ev).table; (id in table <==> id in t.table) && (id in table ==> table[id] == t.table[id])
  {
    if ev.frame.src == t.self || ev.frame.src == BROADCAST || (ev.frame.src !in t.table && |t.table| >= MAX_NODES) {
      NothingLearnt(t, ev.frame, ev.link, ev.from, ev.at);
    } else {
      EntryAfter(t, ev.frame, ev.link, ev.from, ev.at);
    }
  }

  /** A sweep forgets a node exactly if nothing was heard from it for the expiry time. */
  lemma SilentIsForgotten(trace: seq<Station>, events: seq<Event>, n: nat, id: NodeId)
    requires Life(trace, events) && n < |events| && events[n].Sweeps? && id in trace[n].table
    ensures var heard := LastHeard(trace, events, n, id);
      && heard.Some? && heard.value < n && events[heard.value].Hears?
      && (id !in trace[n + 1].table <==>
            events[n].now >= events[heard.value].at && events[n].now - events[heard.value].at >= NODE_EXPIRY)
  {
    RoutesAreFresh(trace, events, n, id);
    assert Goes(trace, events, n);
  }

  // ---- from node to node ----

  /** Where a frame arrives: at which station, on which of its links, from which address. */
  datatype Port = Port(at: nat, link: nat, from: nat)

  /** Where what a station sends on a link to an address arrives. */
  type Wires = (nat, nat, nat) -> Port

  /** The station that delivers an addressed frame which arrives at a port, station after station. */
  function Journey(stations: seq<Station>, wires: Wires, port: Port, frame: Frame, now: nat): Option<nat>
    decreases if frame.hops <= MAX_HOPS then MAX_HOPS + 1 - frame.hops else 0
  {
    if port.at >= |stations| || stations[port.at].bootId >= WORD_LIMIT || frame.hops > MAX_HOPS then None
    else
      var h := OnFrame(stations[port.at], frame, port.link, port.from, now);
      if h.delivered then Some(port.at)
      else if |h.sends| == 0 then None
      else
        var last := h.sends[|h.sends| - 1];
        if last.frame != frame.(hops := frame.hops + 1) || last.address.None? then None
        else Journey(stations, wires, wires(port.at, last.link, last.address.value), last.frame, now)
  }

  /** A relay on the way: it accepts the frame and knows its destination on another link, which leads to the next port. */
  predicate KnowsTheWay(stations: seq<Station>, wires: Wires, port: Port, next: Port, frame: Frame) {
    && port.at < |stations|
    && var t := stations[port.at];
    && t.bootId < WORD_LIMIT && Accepts(t, frame) && t.self != frame.dst
    && frame.dst in t.table && t.table[frame.dst].link != port.link
    && next == wires(port.at, t.table[frame.dst].link, t.table[frame.dst].address)
  }

  predicate IsThere(stations: seq<Station>, port: Port, frame: Frame) {
    port.at < |stations| && stations[port.at].bootId < WORD_LIMIT && Accepts(stations[port.at], frame) && stations[port.at].self == frame.dst
  }

  /** What a relay hands on: the frame, one hop further, toward its destination. */
  lemma RelayHandsOn(t: Station, frame: Frame, link: nat, from: nat, now: nat)
    requires t.bootId < WORD_LIMIT && Accepts(t, frame) && frame.dst != t.self && frame.dst != BROADCAST && frame.src != frame.dst
    requires frame.dst in t.table && t.table[frame.dst].link != link
    ensures var h := OnFrame(t, frame, link, from, now);
      && !h.delivered
      && (frame.hops < MAX_HOPS ==>
            && |h.sends| > 0
            && h.sends[|h.sends| - 1] == Send(t.table[frame.dst].link, Some(t.table[frame.dst].address), frame.(hops := frame.hops + 1)))
      && (frame.hops >= MAX_HOPS && |h.sends| > 0 ==> h.sends[|h.sends| - 1].frame != frame.(hops := frame.hops + 1))
  {
    EntryAfter(t, frame, link, from, now);
    TakenExactly(t, frame, link, from, now);
  }

  /** A chain of relays that know the way: the last port is at the destination. */
  predicate Chain(stations: seq<Station>, wires: Wires, ports: seq<Port>, frame: Frame) {
    && |ports| > 0 && frame.dst != BROADCAST && frame.src != frame.dst && !frame.keepalive && |frame.data| > 0
    && (forall i :: 0 <= i < |ports| - 1 ==> KnowsTheWay(stations, wires, ports[i], ports[i + 1], frame))
    && IsThere(stations, ports[|ports| - 1], frame)
  }

  lemma SameButForHops(t: Station, frame: Frame, hops: nat)
    ensures Accepts(t, frame.(hops := hops)) == Accepts(t, frame)
  {
  }

  /** Along a chain a frame is delivered at its destination exactly if the relays still to come are within the hop limit. */
  lemma {:induction false} ChainDelivers(stations: seq<Station>, wires: Wires, ports: seq<Port>, frame: Frame, now: nat, i: nat)
    requires Chain(stations, wires, ports, frame) && i < |ports|
    ensures Journey(stations, wires, ports[i], frame.(hops := i), now) == if |ports| - 1 <= MAX_HOPS then Some(ports[|ports| - 1].at) else None
    decreases |ports| - i
  {
    var f, port := frame.(hops := i), ports[i];
    if i <= MAX_HOPS {
      if i == |ports| - 1 {
        SameButForHops(stations[port.at], frame, i);
        Arrives(stations, wires, port, f, now);
      } else {
        assert KnowsTheWay(stations, wires, port, ports[i + 1], frame);
        SameButForHops(stations[port.at], frame, i);
        HopsOn(stations, wires, port, ports[i + 1], f, now);
        ChainDelivers(stations, wires, ports, frame, now, i + 1);
        assert f.(hops := f.hops + 1) == frame.(hops := i + 1);
      }
    }
  }

  lemma Arrives(stations: seq<Station>, wires: Wires, port: Port, frame: Frame, now: nat)
    requires IsThere(stations, port, frame) && frame.hops <= MAX_HOPS && !frame.keepalive && |frame.data| > 0
    ensures Journey(stations, wires, port, frame, now) == Some(port.at)
  {
    FrameIsHandled(stations[port.at], frame, port.link, port.from, now, Send(0, None, frame));
  }

  lemma HopsOn(stations: seq<Station>, wires: Wires, port: Port, next: Port, frame: Frame, now: nat)
    requires KnowsTheWay(stations, wires, port, next, frame) && frame.hops <= MAX_HOPS
    requires frame.dst != BROADCAST && frame.src != frame.dst
    ensures Journey(stations, wires, port, frame, now) ==
      if frame.hops < MAX_HOPS then Journey(stations, wires, next, frame.(hops := frame.hops + 1), now) else None
  {
    RelayHandsOn(stations[port.at], frame, port.link, port.from, now);
  }

  /** An addressed frame is delivered nowhere but at the node it names. */
  lemma {:induction false} DeliveredThere(stations: seq<Station>, wires: Wires, port: Port, frame: Frame, now: nat)
    requires frame.dst != BROADCAST && Journey(stations, wires, port, frame, now).Some?
    ensures var at := Journey(stations, wires, port, frame, now).value;
      at < |stations| && stations[at].self == frame.dst
    decreases if frame.hops <= MAX_HOPS then MAX_HOPS + 1 - frame.hops else 0
  {
    var h := OnFrame(stations[port.at], frame, port.link, port.from, now);
    if !h.delivered {
      var last := h.sends[|h.sends| - 1];
      DeliveredThere(stations, wires, wires(port.at, last.link, last.address.value), last.frame, now);
    }
  }
}
