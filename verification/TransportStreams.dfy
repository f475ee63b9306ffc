/**
 * Loss accounting of one peer across the 16-bit wrap-around, on a path that loses and repeats
 * frames but keeps their order: how the peer numbers what it sends, and what this node counts.
 */
module TransportStreams {
  import opened Bytes
  import opened TransportNode

  /**
   * A frame of one sender as it reaches this node: the index the sender numbered it with in its
   * broadcast stream or in its stream to this node, or a frame for a third node.
   */
  datatype Arrival = Broadcasted(index: nat) | Unicasted(index: nat) | Relayed(dst: NodeId, number: nat)

  /** The frame on the wire: the index survives as 16 bits. */
  function WireFrame(self: NodeId, peer: NodeId, arrival: Arrival): Frame {
    match arrival
    case Broadcasted(index) => Frame(peer, BROADCAST, index % SEQ_LIMIT, 0, false, [0])
    case Unicasted(index) => Frame(peer, self, index % SEQ_LIMIT, 0, false, [0])
    case Relayed(dst, number) => Frame(peer, dst, number, 0, false, [0])
  }

  predicate ForThird(self: NodeId, arrival: Arrival) {
    arrival.Relayed? ==> arrival.dst != self && arrival.dst != BROADCAST
  }

  /** The entry of the peer after the arrivals, in order. */
  function Follow(self: NodeId, node: Node, arrivals: seq<Arrival>): Node {
    if |arrivals| == 0 then node
    else
      var before := Follow(self, node, arrivals[..|arrivals| - 1]);
      Track(self, before, WireFrame(self, node.id, arrivals[|arrivals| - 1])).node
  }

  /** The indices of one stream among the arrivals. */
  function Indices(arrivals: seq<Arrival>, unicast: bool): seq<nat> {
    if |arrivals| == 0 then []
    else
      var before := Indices(arrivals[..|arrivals| - 1], unicast);
      match arrivals[|arrivals| - 1]
      case Broadcasted(index) => if unicast then before else before + [index]
      case Unicasted(index) => if unicast then before + [index] else before
      case Relayed(_, _) => before
  }

  /** In order: a frame never arrives after a later one of its stream; it may arrive again. */
  predicate InOrder(indices: seq<nat>) {
    forall i, j :: 0 <= i < j < |indices| ==> indices[i] <= indices[j]
  }

  /** No two consecutive arrivals of the stream are RESYNC_THRESHOLD or more apart. */
  predicate GapsSmall(indices: seq<nat>) {
    forall i :: 1 <= i < |indices| ==> indices[i] - indices[i - 1] < RESYNC_THRESHOLD
  }

  /** Frames the sender numbered from the first heard to the last heard, both included. */
  function Span(indices: seq<nat>): nat
    requires InOrder(indices)
  {
    if |indices| == 0 then 0 else indices[|indices| - 1] - indices[0] + 1
  }

  /** What the arrivals of one stream add to received + lost: the first one, then every gap as the node sees it. */
  function Counted(indices: seq<nat>): nat {
    if |indices| == 0 then 0
    else if |indices| == 1 then 1
    else Counted(indices[..|indices| - 1]) + SeenGap(Ahead(indices[|indices| - 1], indices[|indices| - 2]))
  }

  function SeenGap(delta: nat): nat {
    if delta < RESYNC_THRESHOLD then delta else 1
  }

  predicate StreamIs(s: Stream, indices: seq<nat>) {
    if |indices| == 0 then s == SILENT else s == Stream(true, indices[|indices| - 1] % SEQ_LIMIT)
  }

  /** A difference of 16-bit numbers is the difference of the indices, modulo the wrap. */
  lemma WrapsAway(a: nat, b: nat)
    ensures Ahead(a % SEQ_LIMIT, b % SEQ_LIMIT) == Ahead(a, b)
  {
    var qa, qb := a / SEQ_LIMIT, b / SEQ_LIMIT;
    assert a - b == (a % SEQ_LIMIT - b % SEQ_LIMIT) + SEQ_LIMIT * (qa - qb);
  }

  lemma CountedGrows(indices: seq<nat>, index: nat)
    ensures Counted(indices + [index]) ==
      (if |indices| == 0 then 1 else Counted(indices) + SeenGap(Ahead(index, indices[|indices| - 1])))
  {
    assert (indices + [index])[..|indices|] == indices;
  }

  /** One more number of a stream adds its gap to received + lost, whatever wrapped in between. */
  lemma TrackAdds(node: Node, s: Stream, indices: seq<nat>, index: nat)
    requires StreamIs(s, indices)
    ensures var (tracked, after) := TrackStream(node, s, index % SEQ_LIMIT);
      && StreamIs(after, indices + [index])
      && tracked.node.received + tracked.node.lost - node.received - node.lost == Counted(indices + [index]) - Counted(indices)
      && tracked.node.broadcast == node.broadcast && tracked.node.unicast == node.unicast
  {
    CountedGrows(indices, index);
    if |indices| > 0 {
      var last := indices[|indices| - 1];
      WrapsAway(index, last);
      if Ahead(index, last) == 0 {
        assert index % SEQ_LIMIT == last % SEQ_LIMIT;
      }
    }
  }

  ghost predicate StreamsOnlyThird(self: NodeId, arrivals: seq<Arrival>) {
    forall i :: 0 <= i < |arrivals| ==> ForThird(self, arrivals[i])
  }

  /** The entry holds the last index of each stream and counts both streams, relayed frames in neither. */
  lemma {:induction false} FollowCounts(self: NodeId, peer: NodeId, arrivals: seq<Arrival>)
    requires self != BROADCAST && StreamsOnlyThird(self, arrivals)
    ensures var node := Follow(self, NewNode(peer), arrivals);
      && StreamIs(node.broadcast, Indices(arrivals, false))
      && StreamIs(node.unicast, Indices(arrivals, true))
      && node.received + node.lost == Counted(Indices(arrivals, false)) + Counted(Indices(arrivals, true))
  {
    if |arrivals| > 0 {
      var n := |arrivals| - 1;
      FollowCounts(self, peer, arrivals[..n]);
      var before := Follow(self, NewNode(peer), arrivals[..n]);
      match arrivals[n]
      case Broadcasted(index) => TrackAdds(before, before.broadcast, Indices(arrivals[..n], false), index);
      case Unicasted(index) => TrackAdds(before, before.unicast, Indices(arrivals[..n], true), index);
      case Relayed(_, _) => assert ForThird(self, arrivals[n]);
    }
  }

  /** A gap counts for itself exactly while it stays under the threshold, and never for more. */
  lemma GapSeen(gap: nat)
    ensures SeenGap(gap % SEQ_LIMIT) <= gap
    ensures SeenGap(gap % SEQ_LIMIT) == gap <==> gap < RESYNC_THRESHOLD
  {
  }

  /** One stream: never more counted than the sender numbered, and exactly as many when no gap is too wide. */
  lemma {:induction false} CountedWithinSpan(indices: seq<nat>)
    requires InOrder(indices)
    ensures Counted(indices) <= Span(indices)
    ensures Counted(indices) == Span(indices) <==> GapsSmall(indices)
  {
    if |indices| > 1 {
      var n := |indices| - 1;
      CountedWithinSpan(indices[..n]);
      GapSeen(indices[n] - indices[n - 1]);
      GapsSplit(indices);
    }
  }

  lemma GapsSplit(indices: seq<nat>)
    requires |indices| > 1
    ensures var n := |indices| - 1;
      GapsSmall(indices) <==> GapsSmall(indices[..n]) && indices[n] - indices[n - 1] < RESYNC_THRESHOLD
  {
    var n := |indices| - 1;
    if GapsSmall(indices) {
      forall i | 1 <= i < n ensures indices[..n][i] - indices[..n][i - 1] < RESYNC_THRESHOLD {
        assert indices[i] - indices[i - 1] < RESYNC_THRESHOLD;
      }
    }
  }

  /**
   * Loss accounting is exact: over every interleaving of the two streams of a peer with frames
   * this node only relays, received + lost never exceeds the frames the peer numbered from the
   * first to the last heard, and equals it exactly when no gap reaches the resync threshold.
   */
  lemma LossAccountingExact(self: NodeId, peer: NodeId, arrivals: seq<Arrival>)
    requires self != BROADCAST && StreamsOnlyThird(self, arrivals)
    requires InOrder(Indices(arrivals, false)) && InOrder(Indices(arrivals, true))
    ensures var node := Follow(self, NewNode(peer), arrivals);
      var numbered := Span(Indices(arrivals, false)) + Span(Indices(arrivals, true));
      && node.received + node.lost <= numbered
      && (node.received + node.lost == numbered <==>
            GapsSmall(Indices(arrivals, false)) && GapsSmall(Indices(arrivals, true)))
  {
    FollowCounts(self, peer, arrivals);
    CountedWithinSpan(Indices(arrivals, false));
    CountedWithinSpan(Indices(arrivals, true));
  }

  // ---- how the peer numbers ----

  /** The next number of the broadcast stream and of the stream to each node in the table. */
  datatype Counters = Counters(broadcast: nat, unicast: map<NodeId, nat>)

  /** The counters as a node keeps them: one of its own, one in each entry of its table. */
  function CountersOf(broadcastSeq: nat, table: map<NodeId, Node>): Counters {
    Counters(broadcastSeq, map id | id in table :: table[id].txSeq)
  }

  /** A node numbers what it broadcasts and what it sends to a node it knows. */
  predicate Numbers(c: Counters, dst: NodeId) {
    dst == BROADCAST || dst in c.unicast
  }

  /** The number a frame gets, and the counters after it. */
  function NextSeq(c: Counters, dst: NodeId): (nat, Counters)
    requires Numbers(c, dst)
  {
    if dst == BROADCAST then (c.broadcast, c.(broadcast := (c.broadcast + 1) % SEQ_LIMIT))
    else (c.unicast[dst], c.(unicast := c.unicast[dst := (c.unicast[dst] + 1) % SEQ_LIMIT]))
  }

  /** What a node wants to send, data or keepalive, in order. */
  datatype Outgoing = Outgoing(dst: NodeId, keepalive: bool, data: seq<Byte>)

  /** The counters after some sends; one to an unknown node is refused before it is numbered. */
  function After(c: Counters, outs: seq<Outgoing>): (r: Counters)
    ensures r.unicast.Keys == c.unicast.Keys
  {
    if |outs| == 0 then c
    else
      var before, dst := After(c, outs[..|outs| - 1]), outs[|outs| - 1].dst;
      if Numbers(before, dst) then NextSeq(before, dst).1 else before
  }

  /** The frames that leave, numbered. */
  function Emitted(peer: NodeId, c: Counters, outs: seq<Outgoing>): seq<Frame> {
    if |outs| == 0 then []
    else
      var before, out := After(c, outs[..|outs| - 1]), outs[|outs| - 1];
      Emitted(peer, c, outs[..|outs| - 1]) +
        (if Numbers(before, out.dst) then [Frame(peer, out.dst, NextSeq(before, out.dst).0, 0, out.keepalive, out.data)] else [])
  }

  /** Frames of one stream among the first k. */
  function Earlier(frames: seq<Frame>, dst: NodeId, k: nat): nat
    requires k <= |frames|
  {
    if k == 0 then 0 else Earlier(frames, dst, k - 1) + (if frames[k - 1].dst == dst then 1 else 0)
  }

  /** Counters that start a table's life. */
  predicate Unused(c: Counters) {
    c.broadcast == 0 && forall id :: id in c.unicast ==> c.unicast[id] == 0
  }

  function CounterOf(c: Counters, dst: NodeId): nat {
    if dst == BROADCAST then c.broadcast else if dst in c.unicast then c.unicast[dst] else 0
  }

  lemma {:induction false} EarlierPrefix(frames: seq<Frame>, more: seq<Frame>, dst: NodeId, k: nat)
    requires k <= |frames|
    ensures Earlier(frames + more, dst, k) == Earlier(frames, dst, k)
  {
    if k > 0 {
      EarlierPrefix(frames, more, dst, k - 1);
    }
  }

  /** A stream's counter is the number of its frames so far, in 16 bits. */
  lemma {:induction false} CountersCount(peer: NodeId, c: Counters, outs: seq<Outgoing>, dst: NodeId)
    requires Unused(c) && Numbers(c, dst)
    ensures var frames := Emitted(peer, c, outs);
      CounterOf(After(c, outs), dst) == Earlier(frames, dst, |frames|) % SEQ_LIMIT
  {
    if |outs| > 0 {
      var shorter, out := outs[..|outs| - 1], outs[|outs| - 1];
      var before, frames := After(c, shorter), Emitted(peer, c, shorter);
      CountersCount(peer, c, shorter, dst);
      if Numbers(before, out.dst) {
        EarlierPrefix(frames, [Frame(peer, out.dst, NextSeq(before, out.dst).0, 0, out.keepalive, out.data)], dst, |frames|);
        OneFurther(Earlier(frames, dst, |frames|));
      } else {
        assert frames + [] == frames;
      }
    }
  }

  lemma OneFurther(n: nat)
    ensures (n % SEQ_LIMIT + 1) % SEQ_LIMIT == (n + 1) % SEQ_LIMIT
  {
  }

  /** The n-th frame of a stream, data and keepalives alike, carries n modulo 2^16. */
  lemma {:induction false} NumberedInOrder(peer: NodeId, c: Counters, outs: seq<Outgoing>, k: nat)
    requires Unused(c) && k < |Emitted(peer, c, outs)|
    ensures var frames := Emitted(peer, c, outs);
      frames[k].src == peer && frames[k].number == Earlier(frames, frames[k].dst, k) % SEQ_LIMIT
  {
    var shorter, out := outs[..|outs| - 1], outs[|outs| - 1];
    var before, frames := After(c, shorter), Emitted(peer, c, shorter);
    var last := if Numbers(before, out.dst) then [Frame(peer, out.dst, NextSeq(before, out.dst).0, 0, out.keepalive, out.data)] else [];
    if k < |frames| {
      NumberedInOrder(peer, c, shorter, k);
      EarlierPrefix(frames, last, frames[k].dst, k);
    } else {
      CountersCount(peer, c, shorter, out.dst);
      EarlierPrefix(frames, last, out.dst, k);
    }
  }

  // ---- the path between them ----

  /** The entry of the peer after tracking the frames at these positions, in order. */
  function TrackPath(self: NodeId, node: Node, frames: seq<Frame>, path: seq<nat>): Node
    requires forall i :: 0 <= i < |path| ==> path[i] < |frames|
  {
    if |path| == 0 then node
    else Track(self, TrackPath(self, node, frames, path[..|path| - 1]), frames[path[|path| - 1]]).node
  }

  /** A frame as its receiver may know it: its stream and its rank there. */
  function ArrivalOf(self: NodeId, frames: seq<Frame>, k: nat): Arrival
    requires k < |frames|
  {
    if frames[k].dst == BROADCAST then Broadcasted(Earlier(frames, BROADCAST, k))
    else if frames[k].dst == self then Unicasted(Earlier(frames, self, k))
    else Relayed(frames[k].dst, frames[k].number)
  }

  function ArrivalsOf(self: NodeId, frames: seq<Frame>, path: seq<nat>): (r: seq<Arrival>)
    requires forall i :: 0 <= i < |path| ==> path[i] < |frames|
    ensures |r| == |path|
  {
    seq(|path|, i requires 0 <= i < |path| => ArrivalOf(self, frames, path[i]))
  }

  /** A path that loses and repeats but never overtakes. */
  predicate KeepsOrder(path: seq<nat>) {
    forall i, j :: 0 <= i < j < |path| ==> path[i] <= path[j]
  }

  lemma {:induction false} EarlierGrows(frames: seq<Frame>, dst: NodeId, j: nat, k: nat)
    requires j <= k <= |frames|
    ensures Earlier(frames, dst, j) <= Earlier(frames, dst, k)
  {
    if j < k {
      EarlierGrows(frames, dst, j, k - 1);
    }
  }

  function StreamOf(self: NodeId, unicast: bool): NodeId {
    if unicast then self else BROADCAST
  }

  predicate UpTo(indices: seq<nat>, bound: nat) {
    forall i :: 0 <= i < |indices| ==> indices[i] <= bound
  }

  /** The last position of a path adds its rank to its own stream. */
  lemma OneMoreIndex(self: NodeId, frames: seq<Frame>, path: seq<nat>, unicast: bool)
    requires self != BROADCAST && |path| > 0 && forall i :: 0 <= i < |path| ==> path[i] < |frames|
    ensures var n, dst := |path| - 1, StreamOf(self, unicast);
      var before := Indices(ArrivalsOf(self, frames, path[..n]), unicast);
      Indices(ArrivalsOf(self, frames, path), unicast) == if frames[path[n]].dst == dst then before + [Earlier(frames, dst, path[n])] else before
  {
    var n := |path| - 1;
    assert ArrivalsOf(self, frames, path)[..n] == ArrivalsOf(self, frames, path[..n]);
  }

  /** The indices of a stream along the path: ranks of positions on it, so in order when the path is. */
  lemma {:induction false} PathInOrder(self: NodeId, frames: seq<Frame>, path: seq<nat>, unicast: bool)
    requires self != BROADCAST && KeepsOrder(path) && forall i :: 0 <= i < |path| ==> path[i] < |frames|
    ensures var indices := Indices(ArrivalsOf(self, frames, path), unicast);
      InOrder(indices) && (|path| > 0 ==> UpTo(indices, Earlier(frames, StreamOf(self, unicast), path[|path| - 1])))
  {
    if |path| > 0 {
      var n := |path| - 1;
      PathInOrder(self, frames, path[..n], unicast);
      OneMoreIndex(self, frames, path, unicast);
      if n > 0 {
        EarlierGrows(frames, StreamOf(self, unicast), path[n - 1], path[n]);
      }
    }
  }

  /** Tracking a peer's frames is following their arrivals. */
  lemma {:induction false} PathFollows(self: NodeId, peer: NodeId, c: Counters, outs: seq<Outgoing>, path: seq<nat>)
    requires Unused(c) && self != BROADCAST && forall i :: 0 <= i < |path| ==> path[i] < |Emitted(peer, c, outs)|
    ensures var frames := Emitted(peer, c, outs);
      && TrackPath(self, NewNode(peer), frames, path) == Follow(self, NewNode(peer), ArrivalsOf(self, frames, path))
      && StreamsOnlyThird(self, ArrivalsOf(self, frames, path))
  {
    if |path| > 0 {
      var n, frames := |path| - 1, Emitted(peer, c, outs);
      PathFollows(self, peer, c, outs, path[..n]);
      NumberedInOrder(peer, c, outs, path[n]);
      assert ArrivalsOf(self, frames, path)[..n] == ArrivalsOf(self, frames, path[..n]);
    }
  }

  /**
   * Loss accounting is exact end to end: whatever a peer sends, data and keepalives to whomever,
   * and whichever of its frames a path that keeps their order loses or repeats, received + lost
   * never exceeds the frames the peer numbered from the first to the last heard of its two
   * streams to this node, and equals it exactly when no gap reaches the resync threshold.
   */
  lemma PathAccountingExact(self: NodeId, peer: NodeId, c: Counters, outs: seq<Outgoing>, path: seq<nat>)
    requires Unused(c) && self != BROADCAST && KeepsOrder(path)
    requires forall i :: 0 <= i < |path| ==> path[i] < |Emitted(peer, c, outs)|
    ensures var frames := Emitted(peer, c, outs);
      var arrivals := ArrivalsOf(self, frames, path);
      var broadcasts, unicasts := Indices(arrivals, false), Indices(arrivals, true);
      && InOrder(broadcasts) && InOrder(unicasts)
      && var node := TrackPath(self, NewNode(peer), frames, path);
      && node.received + node.lost <= Span(broadcasts) + Span(unicasts)
      && (node.received + node.lost == Span(broadcasts) + Span(unicasts) <==> GapsSmall(broadcasts) && GapsSmall(unicasts))
  {
    var arrivals := ArrivalsOf(self, Emitted(peer, c, outs), path);
    PathFollows(self, peer, c, outs, path);
    PathInOrder(self, Emitted(peer, c, outs), path, false);
    PathInOrder(self, Emitted(peer, c, outs), path, true);
    LossAccountingExact(self, peer, arrivals);
  }
}
