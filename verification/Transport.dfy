/**
 * The transport object: a node table kept in place as a dense prefix of an array, presence
 * listeners told in order, frames handed to links. Proved against the node table as a map.
 */
module Transport {
  import opened Bytes
  import opened TransportNode
  import opened TransportStreams
  import opened DenseTable

  function Key(node: Node): nat {
    node.id
  }

  /** Each id of the set once, in some order. */
  ghost predicate Lists(ids: seq<NodeId>, all: set<NodeId>) {
    && (forall i, j :: 0 <= i < j < |ids| ==> ids[i] != ids[j])
    && (set id | id in ids) == all
  }

  function Downs(ids: seq<NodeId>): seq<Presence> {
    seq(|ids|, i requires 0 <= i < |ids| => Down(ids[i]))
  }

  class Transport {
    const self: NodeId
    const bootId: nat
    const links: nat
    const known: Table<Node>

    var broadcastSeq: nat

    // What the listeners were told and what the links were handed, in order.
    var events: seq<Presence>
    var outbox: seq<Send>

    ghost predicate Valid()
      reads this, known, known.records
    {
      known.Valid() && Wired() && WellKept(View())
    }

    /** The table is keyed by node id and holds at most MAX_NODES. */
    ghost predicate Wired() {
      known.key == Key && known.records.Length == MAX_NODES
    }

    ghost function View(): Station
      reads this, known
    {
      Station(self, bootId, links, known.table)
    }

    /** The next number of each stream this node sends on. */
    ghost function Numbering(): Counters
      reads this, known
    {
      CountersOf(broadcastSeq, known.table)
    }

    constructor (self: NodeId, bootId: nat, links: nat)
      requires bootId < WORD_LIMIT
      ensures Valid() && fresh(known) && fresh(known.records) && View() == Station(self, bootId, links, map[])
      ensures events == [] && outbox == [] && Unused(Numbering())
    {
      this.self, this.bootId, this.links := self, bootId, links;
      broadcastSeq := 0;
      known := new Table(Key, NewNode(0), MAX_NODES);
      events, outbox := [], [];
    }

    // ---- sending ----

    /** The number of the next frame to everyone. */
    method DrawBroadcast() returns (number: nat)
      requires Valid()
      modifies `broadcastSeq
      ensures Valid() && number == old(broadcastSeq) && broadcastSeq == (old(broadcastSeq) + 1) % SEQ_LIMIT
    {
      number := broadcastSeq;
      broadcastSeq := (broadcastSeq + 1) % SEQ_LIMIT;
    }

    /** The number of the next frame to one node, which is then used up. */
    method DrawUnicast(dst: NodeId) returns (number: nat)
      requires Valid() && dst in known.table
      modifies known, known.records
      ensures Valid() && number == old(known.table)[dst].txSeq && known.table == Drawn(old(known.table), dst)
    {
      TxDrawn(View(), broadcastSeq, dst);
      var found := known.Find(dst);
      number := found.value.txSeq;
      known.Store(found.value.(txSeq := (number + 1) % SEQ_LIMIT));
    }

    /** Hands a frame to every link, or to the link of the node it names. */
    method HandOver(frame: Frame)
      requires Valid() && Numbers(Numbering(), frame.dst)
      modifies `outbox
      ensures outbox == old(outbox) + Outward(View(), frame)
    {
      if frame.dst == BROADCAST {
        var flooded := [];
        for link := 0 to links
          invariant flooded == Flood(link, links, frame)
        {
          flooded := flooded + [Send(link, None, frame)];
        }
        outbox := outbox + flooded;
      } else {
        var found := known.Find(frame.dst);
        outbox := outbox + [Send(found.value.link, Some(found.value.address), frame)];
      }
    }

    /** Numbers a frame and sends it; nothing goes to a node the table does not hold. */
    method SendFrame(dst: NodeId, keepalive: bool, data: seq<Byte>) returns (sent: bool)
      requires Valid()
      modifies `broadcastSeq, `outbox, known, known.records
      ensures Valid() && sent == Numbers(old(Numbering()), dst)
      ensures !sent ==> Numbering() == old(Numbering()) && outbox == old(outbox) && known.table == old(known.table)
      ensures sent ==>
        var (number, after) := NextSeq(old(Numbering()), dst);
        Numbering() == after && outbox == old(outbox) + Outward(View(), Frame(self, dst, number, 0, keepalive, data))
    {
      var found := known.Find(dst);
      sent := dst == BROADCAST || found.Some?;
      if sent {
        var number;
        if dst == BROADCAST {
          number := DrawBroadcast();
        } else {
          TxDrawn(View(), broadcastSeq, dst);
          number := DrawUnicast(dst);
        }
        HandOver(Frame(self, dst, number, 0, keepalive, data));
      }
    }

    // ---- receiving ----

    /** Refreshes or inserts the node a frame came from; hands back its entry. */
    method Learn(frame: Frame, link: nat, from: nat, now: nat) returns (node: Node, isNew: bool, ok: bool)
      requires Valid() && frame.src != self && frame.src != BROADCAST
      modifies known, known.records
      ensures Valid()
      ensures Learnt(known.table, isNew, ok) == TransportNode.Learn(old(View()), frame, link, from, now)
      ensures ok ==> node == known.table[frame.src]
    {
      LearnKeeps(View(), frame, link, from, now);
      var found := known.Find(frame.src);
      isNew := found.None?;
      node := if isNew then NewNode(frame.src) else found.value;
      if isNew && known.count >= MAX_NODES {
        return node, false, false;
      }
      var tracked := Track(self, node.(lastSeen := now), frame);
      ok := tracked.ok;
      node := if ok then tracked.node.(link := link, address := from, hops := frame.hops) else tracked.node;
      known.Store(node);
    }

    /** The sends that forward a frame with one hop more: on every other link, or toward its destination. */
    method RelayFrame(frame: Frame, arrival: nat) returns (relayed: seq<Send>)
      requires known.Valid() && Wired()
      ensures relayed == Relay(View(), frame, arrival)
    {
      relayed := [];
      if frame.hops >= MAX_HOPS {
        return;
      }
      var forwarded := frame.(hops := frame.hops + 1);
      if frame.dst == BROADCAST {
        for link := 0 to links
          invariant relayed == Flood(link, arrival, forwarded)
        {
          if link != arrival {
            relayed := relayed + [Send(link, None, forwarded)];
          }
        }
        return;
      }
      var target := known.Find(frame.dst);
      if target.Some? && target.value.link != arrival {
        relayed := [Send(target.value.link, Some(target.value.address), forwarded)];
      }
    }

    /** Reads the boot id of a keepalive, raises the presence events and greets a newcomer. */
    method Acquaint(learnt: Node, frame: Frame, isNew: bool)
      requires known.Valid() && Wired() && bootId < WORD_LIMIT
      requires learnt.id == frame.src && frame.src in known.table && learnt == known.table[frame.src]
      modifies known, known.records, `events, `outbox
      ensures known.Valid()
      ensures var m := Meet(self, bootId, learnt, frame, isNew);
        && known.table == old(known.table)[frame.src := m.node]
        && events == old(events) + m.events && outbox == old(outbox) + m.sends
    {
      var node := learnt;
      if frame.keepalive && |frame.data| >= KEEPALIVE_SIZE {
        var booted := OnBootId(self, node, frame, isNew);
        node := booted.node;
        if booted.restarted {
          events := events + [Down(frame.src), Up(frame.src)];
        }
      }
      if isNew {
        events := events + [Up(frame.src)];
        outbox := outbox + [KeepaliveTo(self, bootId, node)];
        node := node.(txSeq := (node.txSeq + 1) % SEQ_LIMIT);
      }
      known.Store(node);
    }

    /** Learns from one frame; says whether it goes any further. */
    method TakeFrame(frame: Frame, link: nat, from: nat, now: nat) returns (accepted: bool)
      requires Valid()
      modifies `events, `outbox, known, known.records
      ensures Valid()
      ensures var k := Take(old(View()), frame, link, from, now);
        View() == k.station && events == old(events) + k.events && outbox == old(outbox) + k.sends && accepted == k.accepted
    {
      FrameTeaches(View(), frame, link, from, now);
      ghost var k := Take(View(), frame, link, from, now);
      accepted := frame.src != self && frame.src != BROADCAST;
      if accepted {
        var node, isNew, ok := Learn(frame, link, from, now);
        accepted := ok;
        if ok {
          Acquaint(node, frame, isNew);
        }
      }
      assert View() == k.station;
    }

    /** Handles one frame read from one link: learns, delivers and relays. */
    method OnFrame(frame: Frame, link: nat, from: nat, now: nat) returns (delivered: bool)
      requires Valid()
      modifies `events, `outbox, known, known.records
      ensures Valid()
      ensures var h := TransportNode.OnFrame(old(View()), frame, link, from, now);
        View() == h.station && events == old(events) + h.events && outbox == old(outbox) + h.sends && delivered == h.delivered
    {
      var accepted := TakeFrame(frame, link, from, now);
      delivered := accepted && Delivers(Station(self, bootId, links, map[]), frame);
      var relayed := [];
      if accepted && frame.dst != self {
        relayed := RelayFrame(frame, link);
      }
      Chain(old(outbox), Take(old(View()), frame, link, from, now).sends, relayed);
      outbox := outbox + relayed;
    }

    /** Forgets every node silent for too long and tells the listeners, each node once. */
    method Expire(now: nat) returns (ghost gone: seq<NodeId>)
      requires Valid()
      modifies `events, known, known.records
      ensures Valid() && View() == old(View()).(table := Expired(old(known.table), now))
      ensures Lists(gone, StaleIds(old(known.table), now))
      ensures events == old(events) + Downs(gone)
    {
      ExpiryKeeps(View(), now);
      gone := Sweep(now);
    }

    /** Backwards over the prefix, so swapping in the last entry skips none. */
    method Sweep(now: nat) returns (ghost gone: seq<NodeId>)
      requires known.Valid() && Wired()
      modifies `events, known, known.records
      ensures known.Valid() && known.table == Expired(old(known.table), now)
      ensures Lists(gone, StaleIds(old(known.table), now))
      ensures events == old(events) + Downs(gone)
    {
      gone := [];
      var index: nat := known.count;
      while index > 0
        invariant known.Valid() && index <= known.count
        invariant Fresh(known.rows, index, now)
        invariant Leaving(old(known.table), gone, known.table, now) && Told(old(events), gone, events)
      {
        index := index - 1;
        var node := known.At(index);
        StillFresh(known.rows, index, now);
        if Stale(node, now) {
          OneLeaves(old(known.table), gone, known.table, now, node.id, old(events), events);
          gone, events := gone + [node.id], events + [Down(node.id)];
          known.RemoveAt(index);
        }
      }
      AllLeft(old(known.table), gone, known.rows, known.slot, known.table, now);
    }
  }

  /** The table with a number of one entry used up. */
  function Drawn(table: map<NodeId, Node>, dst: NodeId): map<NodeId, Node>
    requires dst in table
  {
    table[dst := table[dst].(txSeq := (table[dst].txSeq + 1) % SEQ_LIMIT)]
  }

  /** A number drawn from an entry is the next of that stream. */
  lemma TxDrawn(t: Station, broadcastSeq: nat, dst: NodeId)
    requires WellKept(t) && dst in t.table
    ensures WellKept(t.(table := Drawn(t.table, dst)))
    ensures (t.table[dst].txSeq, CountersOf(broadcastSeq, Drawn(t.table, dst))) == NextSeq(CountersOf(broadcastSeq, t.table), dst)
  {
    var table := Drawn(t.table, dst);
    SameSize(t.table, dst, table[dst]);
    assert CountersOf(broadcastSeq, table).unicast == NextSeq(CountersOf(broadcastSeq, t.table), dst).1.unicast;
  }

  lemma Chain(a: seq<Send>, b: seq<Send>, c: seq<Send>)
    ensures a + b + c == a + (b + c)
  {
  }

  ghost predicate StaysAt(rows: seq<Node>, j: nat, now: nat) {
    j < |rows| ==> !Stale(rows[j], now)
  }

  /** No row from an index on is stale. */
  ghost predicate Fresh(rows: seq<Node>, from: nat, now: nat) {
    forall j: nat {:trigger StaysAt(rows, j, now)} :: from <= j ==> StaysAt(rows, j, now)
  }

  /** One row further down: it stays, or the last one takes its place. */
  lemma StillFresh(rows: seq<Node>, index: nat, now: nat)
    requires index < |rows| && Fresh(rows, index + 1, now)
    ensures if Stale(rows[index], now) then Fresh(Without(rows, index), index, now)
            else Fresh(rows, index, now)
  {
    var swapped := Without(rows, index);
    forall j: nat | index <= j ensures StaysAt(swapped, j, now) && (!Stale(rows[index], now) ==> StaysAt(rows, j, now)) {
      assert j > index ==> StaysAt(rows, j, now);
      assert |rows| - 1 > index ==> StaysAt(rows, |rows| - 1, now);
    }
  }

  /** What is left of a table after some stale ids went, each recorded once. */
  ghost predicate Leaving(before: map<NodeId, Node>, gone: seq<NodeId>, left: map<NodeId, Node>, now: nat) {
    && Lists(gone, set id | id in gone)
    && (set id | id in gone) <= StaleIds(before, now)
    && left == before - (set id | id in gone)
  }

  ghost predicate Told(first: seq<Presence>, gone: seq<NodeId>, told: seq<Presence>) {
    told == first + Downs(gone)
  }

  lemma OneLeaves(before: map<NodeId, Node>, gone: seq<NodeId>, left: map<NodeId, Node>, now: nat, id: NodeId,
                  first: seq<Presence>, told: seq<Presence>)
    requires Leaving(before, gone, left, now) && Told(first, gone, told) && id in left && Stale(left[id], now)
    ensures Leaving(before, gone + [id], left - {id}, now) && Told(first, gone + [id], told + [Down(id)])
  {
    assert Downs(gone + [id]) == Downs(gone) + [Down(id)];
    assert (set x | x in gone + [id]) == (set x | x in gone) + {id};
    assert before - ((set x | x in gone) + {id}) == left - {id};
  }

  lemma AllLeft(before: map<NodeId, Node>, gone: seq<NodeId>, rows: seq<Node>, slot: map<nat, nat>, left: map<NodeId, Node>, now: nat)
    requires Leaving(before, gone, left, now) && Stands(Key, rows, slot, left) && Fresh(rows, 0, now)
    ensures Lists(gone, StaleIds(before, now)) && left == Expired(before, now)
  {
    forall id | id in left ensures id !in StaleIds(before, now) {
      assert RowOf(Key, rows, slot, left, id) && StaysAt(rows, slot[id], now);
      assert left[id] == before[id];
    }
    assert forall id | id in before && id !in left :: id in gone;
    assert (set id | id in gone) == StaleIds(before, now);
  }
}
