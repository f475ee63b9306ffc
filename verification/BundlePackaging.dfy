/**
 * From the linker to the hub and on to the update session: stamped images packaged by the script are
 * accepted by the loader, and what the loader accepts is what the session takes for granted.
 */
module BundlePackaging {
  import opened Bytes
  import opened Crc32
  import opened OtaTypes
  import opened ImageStamp
  import opened BundleFile

  /** A stamped image agrees with the manifest entry written about it. */
  lemma StampedAgrees(image: seq<Byte>, slot: nat, epoch: nat, hash: seq<Byte>)
    requires Stampable(image, slot, epoch, hash)
    ensures var out := Stamp(image, slot, epoch, hash).value;
      |out| == |image| && ImageFits(MCU_STM32F405, Listed(slot, |out|, Checksum(out)), out)
  {
    var out := Stamp(image, slot, epoch, hash).value;
    OnlyFieldsChange(image, slot, epoch, hash);
    StampedVerifies(image, slot, epoch, hash);
    assert ReadU32(out, OFF_MAGIC) == ReadU32(image, OFF_MAGIC);
  }

  /** The script lists images in order from a slot on: they rise exactly if there are slots for them and each has a plausible size. */
  lemma {:induction false} InOrderRise(listed: seq<Listed>, previous: int)
    requires -1 <= previous && forall i :: 0 <= i < |listed| ==> listed[i].slot == previous + 1 + i
    ensures SlotsRise(listed, previous) <==>
      && (|listed| > 0 ==> previous + |listed| < SLOT_COUNT)
      && forall i :: 0 <= i < |listed| ==> 0 < listed[i].size <= MAX_IMAGE_SIZE
  {
    if |listed| > 0 {
      InOrderRise(listed[1..], listed[0].slot);
      assert forall i :: 1 <= i < |listed| ==> listed[i] == listed[1..][i - 1];
    }
  }

  /** An image the hub takes for that place in a bundle. */
  predicate Ships(mcuId: nat, images: seq<seq<Byte>>, i: nat) {
    i < |images| ==>
      && 0 < |images[i]| <= MAX_IMAGE_SIZE
      && (if HeaderFormat(mcuId) then HeaderAgrees(mcuId, Listed(i, |images[i]|, Checksum(images[i])), images[i])
          else images[i][0] == ESP_IMAGE_MAGIC)
  }

  /** One image per slot for a chip whose images are linked per slot, one or two for another. */
  ghost predicate Shippable(mcuId: nat, images: seq<seq<Byte>>) {
    && 0 < |images| <= SLOT_COUNT && (HeaderFormat(mcuId) ==> |images| == SLOT_COUNT)
    && forall i: nat {:trigger Ships(mcuId, images, i)} :: Ships(mcuId, images, i)
  }

  /** The manifest written about some images lists what the hub can use, and they fit it, exactly if they are shippable. */
  lemma ListedFits(mcuId: nat, epoch: nat, wireHash: string, images: seq<seq<Byte>>)
    ensures var m := ManifestOf(mcuId, epoch, wireHash, images);
      Shippable(mcuId, images) <==> ListFits(m) && AllFit(m.images, images, Checker(mcuId))
  {
    var m := ManifestOf(mcuId, epoch, wireHash, images);
    InOrderRise(m.images, -1);
    if Shippable(mcuId, images) {
      forall i: nat ensures FitAt(m.images, images, Checker(mcuId), i) {
        assert Ships(mcuId, images, i);
      }
      forall i | 0 <= i < |m.images| ensures 0 < m.images[i].size <= MAX_IMAGE_SIZE {
        assert Ships(mcuId, images, i);
      }
    } else if ListFits(m) && AllFit(m.images, images, Checker(mcuId)) {
      forall i: nat ensures Ships(mcuId, images, i) {
        assert FitAt(m.images, images, Checker(mcuId), i);
      }
    }
  }

  /** Images of known lengths are known by how they are written. */
  lemma {:induction false} PrefixedTells(a: seq<seq<Byte>>, b: seq<seq<Byte>>)
    requires Small(a) && Small(b) && |a| == |b| && (forall i :: 0 <= i < |a| ==> |a[i]| == |b[i]|)
    requires Prefixed(a) == Prefixed(b)
    ensures a == b
  {
    if |a| > 0 {
      var n := |a[0]|;
      assert Prefixed(a)[4..4 + n] == a[0] && Prefixed(b)[4..4 + n] == b[0];
      assert Prefixed(a)[4 + n..] == Prefixed(a[1..]) && Prefixed(b)[4 + n..] == Prefixed(b[1..]);
      PrefixedTells(a[1..], b[1..]);
      assert a == [a[0]] + a[1..] && b == [b[0]] + b[1..];
    }
  }

  /** The walk over written images finds them if they fit, and nothing otherwise. */
  lemma WrittenWalk(file: seq<Byte>, cursor: nat, listed: seq<Listed>, fits: Check, images: seq<seq<Byte>>)
    requires cursor <= |file| && Small(images) && file[cursor..] == Prefixed(images) && |listed| == |images|
    requires forall i :: 0 <= i < |images| ==> listed[i].size == |images[i]|
    ensures AllFit(listed, images, fits) ==> Walk(file, cursor, listed, fits) == Some(images)
    ensures !AllFit(listed, images, fits) ==> Walk(file, cursor, listed, fits) == None
  {
    WalkIsExact(file, cursor, listed, fits, images);
    var walked := Walk(file, cursor, listed, fits);
    if walked.Some? {
      WalkIsExact(file, cursor, listed, fits, walked.value);
      forall i | 0 <= i < |images| ensures |walked.value[i]| == |images[i]| {
        assert FitAt(listed, walked.value, fits, i);
      }
      PrefixedTells(walked.value, images);
    }
  }

  /**
   * Whatever images the script packages with a manifest the hub can read, for whatever chip: the
   * hub accepts the file exactly if they are shippable, and gives the same images back.
   */
  lemma BuiltBundleLoads(mcuId: nat, epoch: nat, images: seq<seq<Byte>>, blob: seq<Byte>, decode: Decoder, wireHash: string)
    requires Small(images) && 0 < |blob| <= MAX_MANIFEST_SIZE
    requires decode(blob) == Some(ManifestOf(mcuId, epoch, wireHash, images))
    ensures var m := ManifestOf(mcuId, epoch, wireHash, images);
      && (Shippable(mcuId, images) ==> Load(Serialise(blob, images), decode, wireHash) == Some(Loaded(blob, m, images)))
      && (!Shippable(mcuId, images) ==> Load(Serialise(blob, images), decode, wireHash) == None)
  {
    var file, m := Serialise(blob, images), ManifestOf(mcuId, epoch, wireHash, images);
    var cursor := |MAGIC| + 4 + |blob|;
    OpeningIsExact(file, blob, Prefixed(images));
    WrittenWalk(file, cursor, m.images, Checker(mcuId), images);
    ListedFits(mcuId, epoch, wireHash, images);
  }

  lemma PairShips(a: seq<Byte>, b: seq<Byte>)
    requires 0 < |a| <= MAX_IMAGE_SIZE && ImageFits(MCU_STM32F405, Listed(0, |a|, Checksum(a)), a)
    requires 0 < |b| <= MAX_IMAGE_SIZE && ImageFits(MCU_STM32F405, Listed(1, |b|, Checksum(b)), b)
    ensures Small([a, b]) && Shippable(MCU_STM32F405, [a, b])
  {
    forall i: nat ensures Ships(MCU_STM32F405, [a, b], i) {
    }
  }

  /** Two linked images of the flight controller, stamped for their slots, are shippable. */
  lemma StampedShip(a: seq<Byte>, b: seq<Byte>, epoch: nat, hash: seq<Byte>)
    requires Stampable(a, 0, epoch, hash) && Stampable(b, 1, epoch, hash) && |a| <= MAX_IMAGE_SIZE && |b| <= MAX_IMAGE_SIZE
    ensures var images := [Stamp(a, 0, epoch, hash).value, Stamp(b, 1, epoch, hash).value];
      Small(images) && Shippable(MCU_STM32F405, images)
  {
    StampedAgrees(a, 0, epoch, hash);
    StampedAgrees(b, 1, epoch, hash);
    PairShips(Stamp(a, 0, epoch, hash).value, Stamp(b, 1, epoch, hash).value);
  }

  /** So they make a file the hub accepts, giving back the two stamped images. */
  lemma PackagedBundleLoads(a: seq<Byte>, b: seq<Byte>, epoch: nat, hash: seq<Byte>, blob: seq<Byte>, decode: Decoder, wireHash: string)
    requires Stampable(a, 0, epoch, hash) && Stampable(b, 1, epoch, hash)
    requires |a| <= MAX_IMAGE_SIZE && |b| <= MAX_IMAGE_SIZE && 0 < |blob| <= MAX_MANIFEST_SIZE
    requires decode(blob) == Some(ManifestOf(MCU_STM32F405, epoch, wireHash, [Stamp(a, 0, epoch, hash).value, Stamp(b, 1, epoch, hash).value]))
    ensures var images := [Stamp(a, 0, epoch, hash).value, Stamp(b, 1, epoch, hash).value];
      && Small(images)
      && Load(Serialise(blob, images), decode, wireHash) == Some(Loaded(blob, ManifestOf(MCU_STM32F405, epoch, wireHash, images), images))
  {
    StampedShip(a, b, epoch, hash);
    BuiltBundleLoads(MCU_STM32F405, epoch, [Stamp(a, 0, epoch, hash).value, Stamp(b, 1, epoch, hash).value], blob, decode, wireHash);
  }

  // ---- what the update session is handed ----

  function ImagesOf(l: Loaded): seq<Image>
    requires |l.images| == |l.manifest.images|
  {
    seq(|l.images|, i requires 0 <= i < |l.images| =>
      Image(l.manifest.images[i].size, l.manifest.images[i].crc32, l.images[i]))
  }

  function BundleOf(l: Loaded): Bundle
    requires |l.images| == |l.manifest.images|
  {
    Bundle(l.manifest.mcuId, l.manifest.buildEpoch, ImagesOf(l))
  }

  lemma {:induction false} ListedAt(images: seq<Listed>, previous: int, i: nat)
    requires SlotsRise(images, previous) && i < |images|
    ensures previous + 1 + i <= images[i].slot < SLOT_COUNT && 0 < images[i].size <= MAX_IMAGE_SIZE
  {
    if i > 0 {
      ListedAt(images[1..], images[0].slot, i - 1);
    }
  }

  /** Two images in slot order fill the two slots. */
  lemma TwoSlots(images: seq<Listed>)
    requires SlotsRise(images, -1) && |images| == SLOT_COUNT
    ensures images[0].slot == 0 && images[1].slot == 1
  {
    assert SlotsRise(images[1..], images[0].slot);
  }

  /** An image filed under a slot of an acceptable bundle. */
  lemma FiledImage(l: Loaded, decode: Decoder, wireHash: string, i: nat)
    ensures Acceptable(l, decode, wireHash) && i < |l.images| ==>
      && |l.images[i]| == l.manifest.images[i].size > 0 && Checksum(l.images[i]) == l.manifest.images[i].crc32
      && l.images[i][0] != ERASED
      && (HeaderFormat(l.manifest.mcuId) ==>
            |l.images| == SLOT_COUNT && |l.images[i]| >= HEADER_SIZE && l.images[i][OFF_SLOT_ID] == i)
  {
    if Acceptable(l, decode, wireHash) && i < |l.images| {
      ListedAt(l.manifest.images, -1, i);
      assert FitAt(l.manifest.images, l.images, Checker(l.manifest.mcuId), i);
      if HeaderFormat(l.manifest.mcuId) {
        TwoSlots(l.manifest.images);
      }
    }
  }

  /** What the update session is promised about the image of a slot. */
  predicate Deliverable(bundle: Bundle, slot: nat) {
    && Consistent(bundle) && |bundle.images| > 0
    && var image := FindImage(bundle, slot);
    && image.Some? && Checksum(image.value.bytes) == image.value.crc32
    && (HeaderFormat(bundle.mcuId) ==> |image.value.bytes| >= HEADER_SIZE && image.value.bytes[OFF_SLOT_ID] == slot)
  }

  /**
   * An accepted bundle is what the session takes for granted: sizes and checksums are those of the
   * bytes, every image begins with a header, and the image filed for a slot was linked for that slot.
   */
  lemma LoadedIsConsistent(file: seq<Byte>, l: Loaded, decode: Decoder, wireHash: string, slot: nat)
    requires slot < SLOT_COUNT
    ensures Load(file, decode, wireHash) == Some(l) ==>
      |l.images| == |l.manifest.images| && Deliverable(BundleOf(l), slot)
  {
    LoadIsExact(file, l, decode, wireHash);
    if Acceptable(l, decode, wireHash) {
      forall i: nat | i < |l.images| ensures |l.images[i]| == l.manifest.images[i].size > 0 && l.images[i][0] != ERASED {
        FiledImage(l, decode, wireHash, i);
      }
      FiledImage(l, decode, wireHash, Min(slot, |l.images| - 1));
    }
  }
}
