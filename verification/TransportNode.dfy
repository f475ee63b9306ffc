/**
 * One transport as functions of its node table: what a frame teaches it, which presence events it
 * raises, what it delivers and what it forwards.
 */
module TransportNode {
  import opened Bytes

  type NodeId = nat

  const BROADCAST: NodeId := 0
  const MAX_NODES: nat := 32
  const MAX_LINKS: nat := 4
  const MAX_HOPS: nat := 4
  const RESYNC_THRESHOLD: nat := 1024
  const SEQ_LIMIT: nat := 65536
  const NODE_EXPIRY: nat := 3_000_000
  const KEEPALIVE_SIZE: nat := 4

  /** A decoded frame; `number` is its 16-bit sequence and `data` what follows the header. */
  datatype Frame = Frame(src: NodeId, dst: NodeId, number: nat, hops: nat, keepalive: bool, data: seq<Byte>)

  /** The numbering of one stream as its receiver knows it. */
  datatype Stream = Stream(heard: bool, last: nat)

  datatype Node = Node(id: NodeId, link: nat, address: nat, lastSeen: nat, txSeq: nat, unicast: Stream, broadcast: Stream,
                       received: nat, lost: nat, duplicates: nat, hops: nat, boot: nat)

  const SILENT := Stream(false, 0)

  function NewNode(id: NodeId): Node {
    Node(id, 0, 0, 0, 0, SILENT, SILENT, 0, 0, 0, 0, 0)
  }

  datatype Presence = Up(id: NodeId) | Down(id: NodeId)

  /** A frame handed to a link: to everyone on it, or to one address. */
  datatype Send = Send(link: nat, address: Option<nat>, frame: Frame)

  /** This node, its boot id, its links and the nodes it has heard. */
  datatype Station = Station(self: NodeId, bootId: nat, links: nat, table: map<NodeId, Node>)

  /** What one frame leaves behind. */
  datatype Heard = Heard(station: Station, events: seq<Presence>, sends: seq<Send>, delivered: bool)

  // ---- sequence streams ----

  datatype Tracked = Tracked(node: Node, ok: bool)

  /** How far one 16-bit number is ahead of another, modulo the wrap. */
  function Ahead(number: int, last: int): nat {
    (number - last) % SEQ_LIMIT
  }

  /** Takes one number into a stream: first heard, repeated, a small gap of losses, or a jump. */
  function TrackStream(node: Node, s: Stream, number: nat): (Tracked, Stream) {
    var delta := Ahead(number, s.last);
    if !s.heard then (Tracked(node.(received := node.received + 1), true), Stream(true, number))
    else if delta == 0 then (Tracked(node.(duplicates := node.duplicates + 1), false), s)
    else
      var lost := if 1 < delta < RESYNC_THRESHOLD then delta - 1 else 0;
      (Tracked(node.(lost := node.lost + lost, received := node.received + 1), true), Stream(true, number))
  }

  /** A frame for this node, for everyone, or for a third node, which numbers no stream here. */
  function Track(self: NodeId, node: Node, frame: Frame): (t: Tracked)
    ensures t.node.id == node.id && t.node.link == node.link && t.node.txSeq == node.txSeq
  {
    if frame.dst == self then
      var (tracked, s) := TrackStream(node, node.unicast, frame.number);
      tracked.(node := tracked.node.(unicast := s))
    else if frame.dst == BROADCAST then
      var (tracked, s) := TrackStream(node, node.broadcast, frame.number);
      tracked.(node := tracked.node.(broadcast := s))
    else Tracked(node, true)
  }

  // ---- learning ----

  datatype Learnt = Learnt(table: map<NodeId, Node>, isNew: bool, ok: bool)

  function Learn(t: Station, frame: Frame, link: nat, from: nat, now: nat): (l: Learnt)
    ensures l.ok ==> l.table.Keys == t.table.Keys + {frame.src} && l.isNew == (frame.src !in t.table)
    ensures !l.ok ==> l.table.Keys == t.table.Keys && !l.isNew
  {
    var isNew := frame.src !in t.table;
    if isNew && |t.table| >= MAX_NODES then Learnt(t.table, false, false)
    else
      var node := (if isNew then NewNode(frame.src) else t.table[frame.src]).(lastSeen := now);
      var tracked := Track(t.self, node, frame);
      if !tracked.ok then Learnt(t.table[frame.src := tracked.node], isNew, false)
      else Learnt(t.table[frame.src := tracked.node.(link := link, address := from, hops := frame.hops)], isNew, true)
  }

  datatype Booted = Booted(node: Node, restarted: bool)

  /** The boot id a keepalive carries: learnt silently, confirmed, or another incarnation. */
  function OnBootId(self: NodeId, node: Node, frame: Frame, isNew: bool): (b: Booted)
    requires |frame.data| >= KEEPALIVE_SIZE
    ensures b.node.id == node.id && (b.restarted ==> !isNew)
  {
    var boot := ReadU32(frame.data, 0);
    if isNew || node.boot == 0 then Booted(node.(boot := boot), false)
    else if boot == 0 || boot == node.boot then Booted(node, false)
    else
      var again := NewNode(node.id).(link := node.link, address := node.address, lastSeen := node.lastSeen,
                                     hops := frame.hops, boot := boot);
      Booted(Track(self, again, frame).node, true)
  }

  // ---- forwarding ----

  /** A broadcast forwarded on every link below `links` but the arrival one. */
  function Flood(links: nat, arrival: nat, frame: Frame): seq<Send> {
    if links == 0 then []
    else
      Flood(links - 1, arrival, frame) + (if links - 1 == arrival then [] else [Send(links - 1, None, frame)])
  }

  /** One hop more, never back on the arrival link, nothing past the hop limit. */
  function Relay(t: Station, frame: Frame, arrival: nat): seq<Send> {
    if frame.hops >= MAX_HOPS then []
    else
      var forwarded := frame.(hops := frame.hops + 1);
      if frame.dst == BROADCAST then Flood(t.links, arrival, forwarded)
      else if frame.dst !in t.table || t.table[frame.dst].link == arrival then []
      else [Send(t.table[frame.dst].link, Some(t.table[frame.dst].address), forwarded)]
  }

  /** Where a frame of this node goes: on every link, or to the address of the node it names. */
  function Outward(t: Station, frame: Frame): seq<Send> {
    if frame.dst == BROADCAST then Flood(t.links, t.links, frame)
    else if frame.dst in t.table then [Send(t.table[frame.dst].link, Some(t.table[frame.dst].address), frame)]
    else []
  }

  function KeepaliveTo(self: NodeId, bootId: nat, node: Node): Send
    requires bootId < WORD_LIMIT
  {
    Send(node.link, Some(node.address), Frame(self, node.id, node.txSeq, 0, true, U32(bootId)))
  }

  /** A heard node: its entry once its boot id is read and a newcomer greeted, and the events that raises. */
  datatype Met = Met(node: Node, events: seq<Presence>, sends: seq<Send>)

  function Meet(self: NodeId, bootId: nat, node: Node, frame: Frame, isNew: bool): (m: Met)
    requires bootId < WORD_LIMIT
    ensures m.node.id == node.id
  {
    var booted := if frame.keepalive && |frame.data| >= KEEPALIVE_SIZE then OnBootId(self, node, frame, isNew)
                  else Booted(node, false);
    if isNew then
      Met(booted.node.(txSeq := (booted.node.txSeq + 1) % SEQ_LIMIT), [Up(frame.src)], [KeepaliveTo(self, bootId, booted.node)])
    else Met(booted.node, if booted.restarted then [Down(frame.src), Up(frame.src)] else [], [])
  }

  predicate Delivers(t: Station, frame: Frame) {
    !frame.keepalive && |frame.data| > 0 && (frame.dst == t.self || frame.dst == BROADCAST)
  }

  /** A frame learnt from: the table after it, the events, the greeting, and whether it goes any further. */
  datatype Taken = Taken(station: Station, events: seq<Presence>, sends: seq<Send>, accepted: bool)

  function Take(t: Station, frame: Frame, link: nat, from: nat, now: nat): Taken
    requires t.bootId < WORD_LIMIT
  {
    if frame.src == t.self || frame.src == BROADCAST then Taken(t, [], [], false)
    else
      var learnt := Learn(t, frame, link, from, now);
      if !learnt.ok then Taken(t.(table := learnt.table), [], [], false)
      else
        var met := Meet(t.self, t.bootId, learnt.table[frame.src], frame, learnt.isNew);
        Taken(t.(table := learnt.table[frame.src := met.node]), met.events, met.sends, true)
  }

  function OnFrame(t: Station, frame: Frame, link: nat, from: nat, now: nat): Heard
    requires t.bootId < WORD_LIMIT
  {
    var taken := Take(t, frame, link, from, now);
    var relayed := if taken.accepted && frame.dst != t.self then Relay(taken.station, frame, link) else [];
    Heard(taken.station, taken.events, taken.sends + relayed, taken.accepted && Delivers(t, frame))
  }

  // ---- expiry ----

  predicate Stale(node: Node, now: nat) {
    now >= node.lastSeen && now - node.lastSeen >= NODE_EXPIRY
  }

  function StaleIds(table: map<NodeId, Node>, now: nat): set<NodeId> {
    set id | id in table && Stale(table[id], now)
  }

  /** Exactly the silent nodes go. */
  function Expired(table: map<NodeId, Node>, now: nat): map<NodeId, Node> {
    table - StaleIds(table, now)
  }

  // ---- what one frame does to the table ----

  /** Every entry sits under its own id, and neither this node nor the broadcast id is in it. */
  predicate WellKept(t: Station) {
    && t.bootId < WORD_LIMIT
    && |t.table| <= MAX_NODES
    && (forall id :: id in t.table ==> t.table[id].id == id != t.self && id != BROADCAST)
  }

  lemma ExpiryKeeps(t: Station, now: nat)
    requires WellKept(t)
    ensures WellKept(t.(table := Expired(t.table, now)))
  {
    var kept := Expired(t.table, now);
    assert kept.Keys == t.table.Keys - StaleIds(t.table, now);
    assert |kept| == |kept.Keys| <= |t.table.Keys| by {
      Fewer(kept.Keys, t.table.Keys);
    }
  }

  lemma {:induction false} Fewer(a: set<NodeId>, b: set<NodeId>)
    requires a <= b
    ensures |a| <= |b|
  {
    assert b == a + (b - a);
  }

  lemma LearnKeeps(t: Station, frame: Frame, link: nat, from: nat, now: nat)
    requires WellKept(t) && frame.src != t.self && frame.src != BROADCAST
    ensures WellKept(t.(table := Learn(t, frame, link, from, now).table))
  {
  }

  /** A newcomer is told up, a restart down and up, anyone else nothing. */
  lemma MeetTells(self: NodeId, bootId: nat, node: Node, frame: Frame, isNew: bool)
    requires bootId < WORD_LIMIT
    ensures var events := Meet(self, bootId, node, frame, isNew).events;
      if isNew then events == [Up(frame.src)] else events == [] || events == [Down(frame.src), Up(frame.src)]
  {
  }

  /** What a frame leaves in the table: at most its source is added, and every entry sits under its id. */
  lemma TakeKeeps(t: Station, frame: Frame, link: nat, from: nat, now: nat)
    requires WellKept(t)
    ensures var h := Take(t, frame, link, from, now);
      && WellKept(h.station) && h.station == t.(table := h.station.table)
      && (h.accepted ==> h.station.table.Keys == t.table.Keys + {frame.src})
      && (!h.accepted ==> h.station.table.Keys == t.table.Keys)
  {
    if frame.src != t.self && frame.src != BROADCAST {
      LearnKeeps(t, frame, link, from, now);
      var learnt := Learn(t, frame, link, from, now);
      if learnt.ok {
        SameSize(learnt.table, frame.src, Meet(t.self, t.bootId, learnt.table[frame.src], frame, learnt.isNew).node);
      }
    }
  }

  lemma SameSize(table: map<NodeId, Node>, id: NodeId, node: Node)
    requires id in table
    ensures table[id := node].Keys == table.Keys && |table[id := node]| == |table|
  {
    assert table[id := node].Keys == table.Keys;
    assert |table[id := node].Keys| == |table[id := node]|;
    assert |table.Keys| == |table|;
  }

  /** A frame adds at most its source to the table, and the presence events say exactly that. */
  lemma FrameTeaches(t: Station, frame: Frame, link: nat, from: nat, now: nat)
    requires WellKept(t)
    ensures var h := Take(t, frame, link, from, now);
      && WellKept(h.station)
      && h.station == t.(table := h.station.table)
      && (h.events == [] ==> h.station.table.Keys == t.table.Keys)
      && (h.events != [] ==> h.station.table.Keys == t.table.Keys + {frame.src})
      && (h.events == [] || h.events == [Up(frame.src)] || h.events == [Down(frame.src), Up(frame.src)])
      && (h.events == [Up(frame.src)] ==> frame.src !in t.table)
      && (h.events == [Down(frame.src), Up(frame.src)] ==> frame.src in t.table)
      && (h.accepted ==> frame.src in h.station.table)
  {
    TakeKeeps(t, frame, link, from, now);
    if frame.src != t.self && frame.src != BROADCAST {
      var learnt := Learn(t, frame, link, from, now);
      if learnt.ok {
        MeetTells(t.self, t.bootId, learnt.table[frame.src], frame, learnt.isNew);
      }
    }
  }

  /** More than one event is a restart of a node the table held and goes on holding. */
  lemma RestartTeaches(t: Station, frame: Frame, link: nat, from: nat, now: nat)
    requires WellKept(t) && |Take(t, frame, link, from, now).events| > 1
    ensures var h := Take(t, frame, link, from, now);
      && h.events == [Down(frame.src), Up(frame.src)] && frame.src in t.table
      && h.station.table.Keys == t.table.Keys && WellKept(h.station)
  {
    FrameTeaches(t, frame, link, from, now);
    assert t.table.Keys + {frame.src} == t.table.Keys;
  }
}
