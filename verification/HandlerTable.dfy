/**
 * The dispatch table of a messenger: one owner per body tag. A claim is made once, at the slot
 * being free; a claim that fails is counted for as long as its handler lives.
 */
module HandlerTable {
  import opened Bytes

  const TAG_SLOTS: nat := 64

  /** The slots, and the claims that found theirs taken or out of range. */
  datatype Claims = Claims(slots: seq<Option<nat>>, shadowed: int)

  const NO_CLAIMS := Claims(seq(TAG_SLOTS, _ => None), 0)

  predicate Free(slots: seq<Option<nat>>, tag: nat) {
    tag < |slots| && slots[tag].None?
  }

  predicate Holds(slots: seq<Option<nat>>, tag: nat, owner: nat) {
    tag < |slots| && slots[tag] == Some(owner)
  }

  function Claim1(c: Claims, owner: nat, tag: nat): Claims {
    if Free(c.slots, tag) then c.(slots := c.slots[tag := Some(owner)]) else c.(shadowed := c.shadowed + 1)
  }

  /** A handler claims its tags one after the other. */
  function Claim(c: Claims, owner: nat, tags: seq<nat>): (r: Claims)
    ensures |r.slots| == |c.slots|
  {
    if |tags| == 0 then c else Claim1(Claim(c, owner, tags[..|tags| - 1]), owner, tags[|tags| - 1])
  }

  function Release1(c: Claims, owner: nat, tag: nat): Claims {
    if Holds(c.slots, tag, owner) then c.(slots := c.slots[tag := None]) else c.(shadowed := c.shadowed - 1)
  }

  /** A handler that goes away gives up its slots, and its failed claims with them. */
  function Release(c: Claims, owner: nat, tags: seq<nat>): (r: Claims)
    ensures |r.slots| == |c.slots|
  {
    if |tags| == 0 then c else Release1(Release(c, owner, tags[..|tags| - 1]), owner, tags[|tags| - 1])
  }

  // ---- what claiming and releasing leave ----

  /** A slot after the claims: its old owner, or the claimant if it was free and claimed. */
  lemma {:induction false} ClaimedSlot(c: Claims, owner: nat, tags: seq<nat>, tag: nat)
    requires tag < |c.slots|
    ensures Claim(c, owner, tags).slots[tag] == if c.slots[tag].None? && tag in tags then Some(owner) else c.slots[tag]
  {
    if |tags| > 0 {
      ClaimedSlot(c, owner, tags[..|tags| - 1], tag);
      assert tags == tags[..|tags| - 1] + [tags[|tags| - 1]];
    }
  }

  /** A slot after the release: free if it was the handler's by one of its tags. */
  lemma {:induction false} ReleasedSlot(c: Claims, owner: nat, tags: seq<nat>, tag: nat)
    requires tag < |c.slots|
    ensures Release(c, owner, tags).slots[tag] == if c.slots[tag] == Some(owner) && tag in tags then None else c.slots[tag]
  {
    if |tags| > 0 {
      ReleasedSlot(c, owner, tags[..|tags| - 1], tag);
      assert tags == tags[..|tags| - 1] + [tags[|tags| - 1]];
    }
  }

  /** A handler owns a slot once attached exactly if it owned one or found one of its tags free. */
  lemma AttachedOwns(c: Claims, owner: nat, tags: seq<nat>)
    ensures Some(owner) in Claim(c, owner, tags).slots <==>
      Some(owner) in c.slots || exists tag :: tag in tags && Free(c.slots, tag)
  {
    var after := Claim(c, owner, tags).slots;
    forall tag: nat | tag < |c.slots|
      ensures after[tag] == if c.slots[tag].None? && tag in tags then Some(owner) else c.slots[tag]
    {
      ClaimedSlot(c, owner, tags, tag);
    }
    if tag :| tag in tags && Free(c.slots, tag) {
      assert after[tag] == Some(owner);
    }
    if Some(owner) in c.slots {
      var tag :| 0 <= tag < |c.slots| && c.slots[tag] == Some(owner);
      assert after[tag] == Some(owner);
    }
  }

  /** Slots held by a handler. */
  function Held(slots: seq<Option<nat>>, owner: nat): nat {
    if |slots| == 0 then 0
    else Held(slots[..|slots| - 1], owner) + (if slots[|slots| - 1] == Some(owner) then 1 else 0)
  }

  lemma {:induction false} HeldUpdated(slots: seq<Option<nat>>, tag: nat, now: Option<nat>, owner: nat)
    requires tag < |slots|
    ensures Held(slots[tag := now], owner) + (if slots[tag] == Some(owner) then 1 else 0)
         == Held(slots, owner) + (if now == Some(owner) then 1 else 0)
  {
    var n := |slots| - 1;
    if tag == n {
      assert slots[tag := now][..n] == slots[..n];
    } else {
      assert slots[tag := now][..n] == slots[..n][tag := now];
      HeldUpdated(slots[..n], tag, now, owner);
    }
  }

  lemma {:induction false} HeldIsOwning(slots: seq<Option<nat>>, owner: nat)
    ensures Held(slots, owner) > 0 <==> Some(owner) in slots
  {
    if |slots| > 0 {
      HeldIsOwning(slots[..|slots| - 1], owner);
      assert slots == slots[..|slots| - 1] + [slots[|slots| - 1]];
    }
  }

  /** Every claim is a slot more or a shadowed claim more, and no other handler notices. */
  lemma {:induction false} ClaimsAddUp(c: Claims, owner: nat, tags: seq<nat>, other: nat)
    ensures var after := Claim(c, owner, tags);
      && Held(after.slots, owner) + after.shadowed == Held(c.slots, owner) + c.shadowed + |tags|
      && c.shadowed <= after.shadowed
      && (other != owner ==> Held(after.slots, other) == Held(c.slots, other))
  {
    if |tags| > 0 {
      var before, tag := Claim(c, owner, tags[..|tags| - 1]), tags[|tags| - 1];
      ClaimsAddUp(c, owner, tags[..|tags| - 1], other);
      if Free(before.slots, tag) {
        HeldUpdated(before.slots, tag, Some(owner), owner);
        HeldUpdated(before.slots, tag, Some(owner), other);
      }
    }
  }

  lemma {:induction false} ReleasesAddUp(c: Claims, owner: nat, tags: seq<nat>, other: nat)
    ensures var after := Release(c, owner, tags);
      && Held(after.slots, owner) + after.shadowed == Held(c.slots, owner) + c.shadowed - |tags|
      && (other != owner ==> Held(after.slots, other) == Held(c.slots, other))
  {
    if |tags| > 0 {
      var before, tag := Release(c, owner, tags[..|tags| - 1]), tags[|tags| - 1];
      ReleasesAddUp(c, owner, tags[..|tags| - 1], other);
      if Holds(before.slots, tag, owner) {
        HeldUpdated(before.slots, tag, None, owner);
        HeldUpdated(before.slots, tag, None, other);
      }
    }
  }

  /** Where no claim failed, every tag is held. */
  lemma {:induction false} UnshadowedHolds(c: Claims, owner: nat, tags: seq<nat>, tag: nat)
    requires Claim(c, owner, tags).shadowed == c.shadowed && tag in tags
    ensures Holds(Claim(c, owner, tags).slots, tag, owner)
  {
    var shorter, last := tags[..|tags| - 1], tags[|tags| - 1];
    ClaimsAddUp(c, owner, shorter, owner);
    if tag in shorter {
      UnshadowedHolds(c, owner, shorter, tag);
    }
  }

  /** A handler that attaches and detaches leaves the table and the count as it found them. */
  lemma ReleaseUndoesClaim(c: Claims, owner: nat, tags: seq<nat>)
    requires Some(owner) !in c.slots
    ensures Release(Claim(c, owner, tags), owner, tags) == c
  {
    var claimed := Claim(c, owner, tags);
    var released := Release(claimed, owner, tags);
    forall tag | 0 <= tag < |c.slots| ensures released.slots[tag] == c.slots[tag] {
      ClaimedSlot(c, owner, tags, tag);
      ReleasedSlot(claimed, owner, tags, tag);
    }
    assert released.slots == c.slots;
    ClaimsAddUp(c, owner, tags, owner);
    ReleasesAddUp(claimed, owner, tags, owner);
  }

  // ---- the composition check ----

  /** The living handlers, in the order they attached, and the table they claimed from. */
  datatype Roster = Roster(live: seq<nat>, claims: Claims)

  datatype Change = Attached(handler: nat) | Detached(place: nat)

  /** A handler attaches once in its life and detaches at the end of it. */
  predicate Allowed(r: Roster, change: Change) {
    match change
    case Attached(handler) => handler !in r.live
    case Detached(place) => place < |r.live|
  }

  function Apply(r: Roster, change: Change, tags: nat -> seq<nat>): Roster
    requires Allowed(r, change)
  {
    match change
    case Attached(handler) => Roster(r.live + [handler], Claim(r.claims, handler, tags(handler)))
    case Detached(place) =>
      Roster(Others(r.live, place), Release(r.claims, r.live[place], tags(r.live[place])))
  }

  /** Claims of the living handlers that hold no slot. */
  function Wanting(slots: seq<Option<nat>>, live: seq<nat>, tags: nat -> seq<nat>): int {
    if |live| == 0 then 0 else |tags(live[0])| - Held(slots, live[0]) + Wanting(slots, live[1..], tags)
  }

  /** Every slot belongs to a living handler that claimed it. */
  predicate Deserved(r: Roster, tags: nat -> seq<nat>, tag: nat) {
    tag < |r.claims.slots| && r.claims.slots[tag].Some? ==>
      r.claims.slots[tag].value in r.live && tag in tags(r.claims.slots[tag].value)
  }

  /** A living handler holds no more slots than it claimed; if as many, it holds every tag. */
  predicate Served(r: Roster, tags: nat -> seq<nat>, handler: nat) {
    handler in r.live ==>
      && Held(r.claims.slots, handler) <= |tags(handler)|
      && (Held(r.claims.slots, handler) == |tags(handler)| ==>
            forall tag :: tag in tags(handler) ==> Holds(r.claims.slots, tag, handler))
  }

  ghost predicate Owned(r: Roster, tags: nat -> seq<nat>) {
    forall tag: nat {:trigger Deserved(r, tags, tag)} :: Deserved(r, tags, tag)
  }

  ghost predicate Fair(r: Roster, tags: nat -> seq<nat>) {
    && Distinct(r.live)
    && Owned(r, tags)
    && (forall h: nat {:trigger Served(r, tags, h)} :: Served(r, tags, h))
    && r.claims.shadowed == Wanting(r.claims.slots, r.live, tags)
  }

  predicate Distinct(live: seq<nat>) {
    forall i, j :: 0 <= i < j < |live| ==> live[i] != live[j]
  }

  lemma {:induction false} WantingJoins(slots: seq<Option<nat>>, a: seq<nat>, b: seq<nat>, tags: nat -> seq<nat>)
    ensures Wanting(slots, a + b, tags) == Wanting(slots, a, tags) + Wanting(slots, b, tags)
  {
    if |a| == 0 {
      assert a + b == b;
    } else {
      assert (a + b)[1..] == a[1..] + b;
      WantingJoins(slots, a[1..], b, tags);
    }
  }

  lemma {:induction false} WantingIgnores(slots: seq<Option<nat>>, after: seq<Option<nat>>, live: seq<nat>, tags: nat -> seq<nat>)
    requires forall h :: h in live ==> Held(after, h) == Held(slots, h)
    ensures Wanting(after, live, tags) == Wanting(slots, live, tags)
  {
    if |live| > 0 {
      assert live[0] in live;
      WantingIgnores(slots, after, live[1..], tags);
    }
  }

  /** A handler that is not attached holds nothing. */
  lemma NoneHeld(r: Roster, handler: nat, tags: nat -> seq<nat>)
    requires Owned(r, tags) && handler !in r.live
    ensures Held(r.claims.slots, handler) == 0
  {
    HeldIsOwning(r.claims.slots, handler);
    forall tag | 0 <= tag < |r.claims.slots| ensures r.claims.slots[tag] != Some(handler) {
      assert Deserved(r, tags, tag);
    }
  }

  lemma AttachKeepsFair(r: Roster, handler: nat, tags: nat -> seq<nat>)
    requires Fair(r, tags) && handler !in r.live
    ensures Fair(Apply(r, Attached(handler), tags), tags)
  {
    var after := Apply(r, Attached(handler), tags);
    NoneHeld(r, handler, tags);
    ClaimsAddUp(r.claims, handler, tags(handler), handler);
    forall tag: nat ensures Deserved(after, tags, tag) {
      assert Deserved(r, tags, tag);
      if tag < |r.claims.slots| {
        ClaimedSlot(r.claims, handler, tags(handler), tag);
      }
    }
    forall h: nat ensures Served(after, tags, h) {
      AttachServes(r, handler, tags, h);
    }
    forall h | h in r.live ensures Held(after.claims.slots, h) == Held(r.claims.slots, h) {
      ClaimsAddUp(r.claims, handler, tags(handler), h);
    }
    WantingIgnores(r.claims.slots, after.claims.slots, r.live, tags);
    WantingJoins(after.claims.slots, r.live, [handler], tags);
    assert Wanting(after.claims.slots, [handler], tags) ==
      |tags(handler)| - Held(after.claims.slots, handler) + Wanting(after.claims.slots, [], tags);
  }

  lemma AttachServes(r: Roster, handler: nat, tags: nat -> seq<nat>, h: nat)
    requires Fair(r, tags) && handler !in r.live
    ensures Served(Apply(r, Attached(handler), tags), tags, h)
  {
    var after := Apply(r, Attached(handler), tags).claims;
    assert Served(r, tags, h);
    NoneHeld(r, handler, tags);
    ClaimsAddUp(r.claims, handler, tags(handler), h);
    forall tag | tag in tags(h) && h == handler && after.shadowed == r.claims.shadowed ensures Holds(after.slots, tag, h) {
      UnshadowedHolds(r.claims, handler, tags(handler), tag);
    }
    forall tag: nat | Holds(r.claims.slots, tag, h) ensures Holds(after.slots, tag, h) {
      ClaimedSlot(r.claims, handler, tags(handler), tag);
    }
  }

  /** One handler less. */
  function Others(live: seq<nat>, place: nat): seq<nat>
    requires place < |live|
  {
    live[..place] + live[place + 1..]
  }

  lemma OthersAre(live: seq<nat>, place: nat, h: nat)
    requires Distinct(live) && place < |live|
    ensures Distinct(Others(live, place))
    ensures h in Others(live, place) <==> h in live && h != live[place]
  {
    var rest := Others(live, place);
    if h in live {
      var i :| 0 <= i < |live| && live[i] == h;
      assert i < place ==> rest[i] == h;
      assert i > place ==> rest[i - 1] == h;
    }
  }

  lemma WantingLess(slots: seq<Option<nat>>, live: seq<nat>, place: nat, tags: nat -> seq<nat>)
    requires place < |live|
    ensures Wanting(slots, Others(live, place), tags) == Wanting(slots, live, tags) - (|tags(live[place])| - Held(slots, live[place]))
  {
    assert live == live[..place] + live[place..];
    WantingJoins(slots, live[..place], live[place..], tags);
    WantingJoins(slots, live[..place], live[place + 1..], tags);
  }

  lemma DetachOwned(r: Roster, place: nat, tags: nat -> seq<nat>)
    requires Fair(r, tags) && place < |r.live|
    ensures Owned(Apply(r, Detached(place), tags), tags)
  {
    var handler := r.live[place];
    var after := Apply(r, Detached(place), tags);
    forall tag: nat ensures Deserved(after, tags, tag) {
      assert Deserved(r, tags, tag);
      if tag < |r.claims.slots| {
        ReleasedSlot(r.claims, handler, tags(handler), tag);
        if after.claims.slots[tag].Some? {
          OthersAre(r.live, place, after.claims.slots[tag].value);
        }
      }
    }
  }

  lemma DetachServes(r: Roster, place: nat, tags: nat -> seq<nat>, h: nat)
    requires Fair(r, tags) && place < |r.live|
    ensures Served(Apply(r, Detached(place), tags), tags, h)
  {
    var handler := r.live[place];
    var after := Apply(r, Detached(place), tags).claims;
    OthersAre(r.live, place, h);
    assert Served(r, tags, h);
    ReleasesAddUp(r.claims, handler, tags(handler), h);
    forall tag: nat | Holds(r.claims.slots, tag, h) && h != handler ensures Holds(after.slots, tag, h) {
      ReleasedSlot(r.claims, handler, tags(handler), tag);
    }
  }

  lemma DetachKeepsFair(r: Roster, place: nat, tags: nat -> seq<nat>)
    requires Fair(r, tags) && place < |r.live|
    ensures Fair(Apply(r, Detached(place), tags), tags)
  {
    var handler, rest := r.live[place], Others(r.live, place);
    var after := Apply(r, Detached(place), tags);
    DetachOwned(r, place, tags);
    OthersAre(r.live, place, handler);
    NoneHeld(after, handler, tags);
    forall h: nat ensures Served(after, tags, h) {
      DetachServes(r, place, tags, h);
    }
    forall h | h in rest ensures Held(after.claims.slots, h) == Held(r.claims.slots, h) {
      OthersAre(r.live, place, h);
      ReleasesAddUp(r.claims, handler, tags(handler), h);
    }
    WantingIgnores(r.claims.slots, after.claims.slots, rest, tags);
    WantingLess(r.claims.slots, r.live, place, tags);
    ReleasesAddUp(r.claims, handler, tags(handler), handler);
  }

  lemma {:induction false} NothingWanting(slots: seq<Option<nat>>, live: seq<nat>, tags: nat -> seq<nat>)
    requires forall h :: h in live ==> Held(slots, h) <= |tags(h)|
    ensures Wanting(slots, live, tags) >= 0
    ensures Wanting(slots, live, tags) == 0 <==> forall h :: h in live ==> Held(slots, h) == |tags(h)|
  {
    if |live| > 0 {
      assert live[0] in live;
      NothingWanting(slots, live[1..], tags);
    }
  }

  predicate Changes(rosters: seq<Roster>, changes: seq<Change>, tags: nat -> seq<nat>, i: nat) {
    i < |changes| && i + 1 < |rosters| ==>
      Allowed(rosters[i], changes[i]) && rosters[i + 1] == Apply(rosters[i], changes[i], tags)
  }

  lemma {:induction false} RostersAreFair(rosters: seq<Roster>, changes: seq<Change>, tags: nat -> seq<nat>, n: nat)
    requires |rosters| == |changes| + 1 && rosters[0] == Roster([], NO_CLAIMS) && n < |rosters|
    requires forall i: nat {:trigger Changes(rosters, changes, tags, i)} :: Changes(rosters, changes, tags, i)
    ensures Fair(rosters[n], tags)
  {
    if n > 0 {
      RostersAreFair(rosters, changes, tags, n - 1);
      assert Changes(rosters, changes, tags, n - 1);
      match changes[n - 1]
      case Attached(handler) => AttachKeepsFair(rosters[n - 1], handler, tags);
      case Detached(place) => DetachKeepsFair(rosters[n - 1], place, tags);
    }
  }

  /**
   * What the composition check tells, whatever attached and detached before: nothing is shadowed
   * exactly if every living handler holds as many slots as it claimed tags, and then it holds
   * every one of them.
   */
  lemma CheckIsExact(rosters: seq<Roster>, changes: seq<Change>, tags: nat -> seq<nat>, n: nat)
    requires |rosters| == |changes| + 1 && rosters[0] == Roster([], NO_CLAIMS) && n < |rosters|
    requires forall i: nat {:trigger Changes(rosters, changes, tags, i)} :: Changes(rosters, changes, tags, i)
    ensures var r := rosters[n];
      && r.claims.shadowed >= 0
      && (r.claims.shadowed == 0 <==> forall h :: h in r.live ==> Held(r.claims.slots, h) == |tags(h)|)
      && (r.claims.shadowed == 0 ==> forall h, tag :: h in r.live && tag in tags(h) ==> Holds(r.claims.slots, tag, h))
  {
    RostersAreFair(rosters, changes, tags, n);
    var r := rosters[n];
    forall h | h in r.live ensures Served(r, tags, h) {
    }
    NothingWanting(r.claims.slots, r.live, tags);
  }
}
