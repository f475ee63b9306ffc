/**
 * The discovery directory: one entry per node the transport holds, asked for its identity, known
 * once it announced itself, mute once its request failed. First as functions of the entries,
 * then as the object that keeps them in a dense table.
 */
module Directory {
  import opened Bytes
  import opened TransportNode
  import opened DenseTable

  const MAX_ENTRIES: nat := MAX_NODES

  datatype Identity = Identity(kind: nat, mcu: nat, buildEpoch: nat, wireHash: nat, name: string, gitHash: string)

  datatype EntryState = Pending | Known | Mute

  datatype Entry = Entry(id: NodeId, state: EntryState, announce: Identity, wireMismatch: bool, hops: nat,
                         asked: nat, requests: nat, updated: nat)

  /** The entries, the nodes that found the table full, and the listeners' notifications. */
  datatype View = View(entries: map<NodeId, Entry>, dropped: nat, lastTick: nat, told: seq<Notice>)

  datatype Notice = IdentityOf(entry: Entry) | Forgotten(id: NodeId)

  const NOBODY := Identity(0, 0, 0, 0, "", "")
  const NOTHING := View(map[], 0, 0, [])

  function Blank(id: NodeId): Entry {
    Entry(id, Pending, NOBODY, false, 0, 0, 0, 0)
  }

  function WithHops(entry: Entry, hops: Option<nat>): Entry {
    if hops.Some? then entry.(hops := hops.value) else entry
  }

  /** A node appeared: its entry starts over, PENDING and not asked yet. */
  function OnNodeUp(d: View, id: NodeId, hops: Option<nat>): View {
    if id !in d.entries && |d.entries| >= MAX_ENTRIES then d.(dropped := d.dropped + 1)
    else d.(entries := d.entries[id := WithHops(Blank(id), hops)])
  }

  function OnNodeDown(d: View, id: NodeId): View {
    if id !in d.entries then d else d.(entries := d.entries - {id}, told := d.told + [Forgotten(id)])
  }

  /** An identity arrived; an entry is made for a node the directory had not, room permitting. */
  function OnAnnounce(d: View, src: NodeId, announce: Identity, wireHash: nat, hops: Option<nat>, now: nat): View {
    if src !in d.entries && |d.entries| >= MAX_ENTRIES then d
    else
      var entry := if src in d.entries then d.entries[src] else Blank(src);
      var changed := !entry.state.Known? || entry.announce != announce;
      var known := WithHops(entry.(announce := announce, wireMismatch := announce.wireHash != wireHash, state := Known), hops);
      if changed then
        var updated := known.(updated := now);
        d.(entries := d.entries[src := updated], told := d.told + [IdentityOf(updated)])
      else d.(entries := d.entries[src := known])
  }

  function OnRequestFailed(d: View, dst: NodeId): View {
    if dst !in d.entries || !d.entries[dst].state.Pending? then d
    else d.(entries := d.entries[dst := d.entries[dst].(state := Mute, updated := d.lastTick)])
  }

  predicate WellFiled(d: View) {
    |d.entries| <= MAX_ENTRIES && forall id :: id in d.entries ==> d.entries[id].id == id
  }

  // ---- what the listeners were told ----

  /** The identity a listener holds of a node: the last it was given and not told to forget. */
  function Held(told: seq<Notice>, id: NodeId): Option<Identity> {
    if |told| == 0 then None
    else
      var last := told[|told| - 1];
      if last.IdentityOf? && last.entry.id == id then Some(last.entry.announce)
      else if last == Forgotten(id) then None
      else Held(told[..|told| - 1], id)
  }

  /** Listeners hold the identity of a known node, and of none that left; a mismatch is one with what was said. */
  predicate Informed(d: View, wireHash: nat, id: NodeId) {
    && (id !in d.entries ==> Held(d.told, id).None?)
    && (id in d.entries && d.entries[id].state.Known? ==>
          var entry := d.entries[id];
          && Held(d.told, id) == Some(entry.announce)
          && (entry.wireMismatch <==> entry.announce.wireHash != wireHash))
  }

  /** One call to the directory. */
  datatype Call =
    | Appears(id: NodeId, hops: Option<nat>)
    | Leaves(id: NodeId)
    | Says(src: NodeId, announce: Identity, heard: Option<nat>, now: nat)
    | Fails(dst: NodeId)

  function Called(d: View, wireHash: nat, call: Call): View {
    match call
    case Appears(id, hops) => OnNodeUp(d, id, hops)
    case Leaves(id) => OnNodeDown(d, id)
    case Says(src, announce, hops, now) => OnAnnounce(d, src, announce, wireHash, hops, now)
    case Fails(dst) => OnRequestFailed(d, dst)
  }

  function CalledAll(calls: seq<Call>, wireHash: nat): View {
    if |calls| == 0 then NOTHING else Called(CalledAll(calls[..|calls| - 1], wireHash), wireHash, calls[|calls| - 1])
  }

  ghost predicate Current(d: View, wireHash: nat) {
    WellFiled(d) && forall id: NodeId {:trigger Informed(d, wireHash, id)} :: Informed(d, wireHash, id)
  }

  lemma ToldMore(told: seq<Notice>, notice: Notice)
    ensures (told + [notice])[..|told|] == told
  {
  }

  lemma AnnounceInforms(d: View, wireHash: nat, src: NodeId, announce: Identity, hops: Option<nat>, now: nat)
    requires Current(d, wireHash)
    ensures Current(OnAnnounce(d, src, announce, wireHash, hops, now), wireHash)
  {
    var after := OnAnnounce(d, src, announce, wireHash, hops, now);
    assert Informed(d, wireHash, src);
    if |after.told| > |d.told| {
      ToldMore(d.told, after.told[|d.told|]);
    }
    forall id: NodeId ensures Informed(after, wireHash, id) {
      assert Informed(d, wireHash, id);
    }
  }

  lemma LeavingInforms(d: View, wireHash: nat, gone: NodeId)
    requires Current(d, wireHash)
    ensures Current(OnNodeDown(d, gone), wireHash)
  {
    var after := OnNodeDown(d, gone);
    ToldMore(d.told, Forgotten(gone));
    forall id: NodeId ensures Informed(after, wireHash, id) {
      assert Informed(d, wireHash, id);
    }
    if gone in d.entries {
      assert d.entries == after.entries[gone := d.entries[gone]];
      assert |d.entries| == |after.entries| + 1;
    }
  }

  lemma CallInforms(d: View, wireHash: nat, call: Call)
    requires Current(d, wireHash)
    ensures Current(Called(d, wireHash, call), wireHash)
  {
    match call
    case Leaves(id) => LeavingInforms(d, wireHash, id);
    case Says(src, announce, hops, now) => AnnounceInforms(d, wireHash, src, announce, hops, now);
    case _ =>
      forall id: NodeId ensures Informed(Called(d, wireHash, call), wireHash, id) {
        assert Informed(d, wireHash, id);
      }
  }

  /** Whatever calls came, every listener holds the identity of each known node as it last announced itself, and of no node that left. */
  lemma {:induction false} ListenersAreInformed(calls: seq<Call>, wireHash: nat)
    ensures Current(CalledAll(calls, wireHash), wireHash)
  {
    if |calls| == 0 {
      forall id: NodeId ensures Informed(NOTHING, wireHash, id) {
      }
    } else {
      ListenersAreInformed(calls[..|calls| - 1], wireHash);
      CallInforms(CalledAll(calls[..|calls| - 1], wireHash), wireHash, calls[|calls| - 1]);
    }
  }

  function Key(entry: Entry): nat {
    entry.id
  }

  /** The directory object over a dense table of entries. */
  class DiscoveryDirectory {
    const wireHash: nat
    const filed: Table<Entry>
    var dropped: nat
    var lastTick: nat
    var told: seq<Notice>

    ghost predicate Valid()
      reads this, filed, filed.records
    {
      filed.Valid() && filed.key == Key && filed.records.Length == MAX_ENTRIES
    }

    ghost function State(): View
      reads this, filed
    {
      View(filed.table, dropped, lastTick, told)
    }

    constructor (wireHash: nat)
      ensures Valid() && fresh(filed) && fresh(filed.records) && State() == NOTHING && this.wireHash == wireHash
    {
      this.wireHash := wireHash;
      filed := new Table(Key, Blank(0), MAX_ENTRIES);
      dropped, lastTick, told := 0, 0, [];
    }

    method NodeUp(id: NodeId, hops: Option<nat>)
      requires Valid()
      modifies this, filed, filed.records
      ensures Valid() && State() == OnNodeUp(old(State()), id, hops)
    {
      var found := filed.Find(id);
      if found.None? && filed.count >= MAX_ENTRIES {
        dropped := dropped + 1;
        return;
      }
      filed.Store(WithHops(Blank(id), hops));
    }

    /** The last entry takes the freed slot, and the listeners are told. */
    method NodeDown(id: NodeId)
      requires Valid()
      modifies this, filed, filed.records
      ensures Valid() && State() == OnNodeDown(old(State()), id)
    {
      var index := filed.Lookup(id);
      if index == filed.count {
        return;
      }
      assert RowOf(Key, filed.rows, filed.slot, filed.table, id);
      filed.RemoveAt(index);
      told := told + [Forgotten(id)];
    }

    method Announced(src: NodeId, announce: Identity, hops: Option<nat>, now: nat)
      requires Valid()
      modifies this, filed, filed.records
      ensures Valid() && State() == OnAnnounce(old(State()), src, announce, wireHash, hops, now)
    {
      var found := filed.Find(src);
      if found.None? && filed.count >= MAX_ENTRIES {
        return;
      }
      assert src in filed.table ==> RowOf(Key, filed.rows, filed.slot, filed.table, src);
      var entry := if found.Some? then found.value else Blank(src);
      var changed := !entry.state.Known? || entry.announce != announce;
      entry := WithHops(entry.(announce := announce, wireMismatch := announce.wireHash != wireHash, state := Known), hops);
      if changed {
        entry := entry.(updated := now);
        told := told + [IdentityOf(entry)];
      }
      filed.Store(entry);
    }

    method RequestFailed(dst: NodeId)
      requires Valid()
      modifies filed, filed.records
      ensures Valid() && State() == OnRequestFailed(old(State()), dst)
    {
      var found := filed.Find(dst);
      if found.None? || !found.value.state.Pending? {
        return;
      }
      assert RowOf(Key, filed.rows, filed.slot, filed.table, dst);
      filed.Store(found.value.(state := Mute, updated := lastTick));
    }
  }
}
