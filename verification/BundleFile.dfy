/**
 * The `.ota` container: magic, a length-prefixed manifest, then length-prefixed images and nothing
 * after them. What the packaging script writes, what the hub reads, and that they are inverses.
 * The manifest text is opaque: `decode` stands for the JSON reader.
 */
module BundleFile {
  import opened Bytes
  import opened Crc32
  import opened OtaTypes
  import opened ImageStamp

  const MAGIC: seq<Byte> := [77, 52, 79, 84, 65, 49, 0, 0]
  const MAX_MANIFEST_SIZE: nat := 64 * 1024
  const MAX_IMAGE_SIZE: nat := 8 * 1024 * 1024
  const ESP_IMAGE_MAGIC: Byte := 0xE9
  const MCU_STM32F722: nat := 2
  const MCU_SIM: nat := 200

  /** One image as the manifest announces it. */
  datatype Listed = Listed(slot: nat, size: nat, crc32: nat)

  /** What the hub reads out of a manifest. */
  datatype Manifest = Manifest(mcuId: nat, buildEpoch: nat, wireHash: string, imageCount: Option<nat>, images: seq<Listed>)

  type Decoder = seq<Byte> -> Option<Manifest>

  /** A bundle read: the manifest text, what it says, and the bytes of each image. */
  datatype Loaded = Loaded(blob: seq<Byte>, manifest: Manifest, images: seq<seq<Byte>>)

  // ---- writing ----

  predicate Small(images: seq<seq<Byte>>) {
    forall i | 0 <= i < |images| :: |images[i]| < WORD_LIMIT
  }

  function Prefixed(images: seq<seq<Byte>>): seq<Byte>
    requires Small(images)
  {
    if |images| == 0 then [] else U32(|images[0]|) + images[0] + Prefixed(images[1..])
  }

  function Serialise(blob: seq<Byte>, images: seq<seq<Byte>>): seq<Byte>
    requires |blob| < WORD_LIMIT && Small(images)
  {
    MAGIC + U32(|blob|) + blob + Prefixed(images)
  }

  /** The manifest the script writes about some images. */
  function ManifestOf(mcuId: nat, epoch: nat, wireHash: string, images: seq<seq<Byte>>): Manifest {
    Manifest(mcuId, epoch, wireHash, Some(|images|),
             seq(|images|, i requires 0 <= i < |images| => Listed(i, |images[i]|, Checksum(images[i]))))
  }

  // ---- checking ----

  /** Chips whose images open with the firmware header, one image linked per slot. */
  predicate HeaderFormat(mcuId: nat) {
    mcuId == MCU_STM32F405 || mcuId == MCU_STM32F722 || mcuId == MCU_SIM
  }

  /** Slots this system has, in rising order, of plausible sizes. */
  predicate SlotsRise(images: seq<Listed>, previous: int) {
    |images| == 0 ||
    (&& images[0].slot < SLOT_COUNT && previous < images[0].slot
     && 0 < images[0].size <= MAX_IMAGE_SIZE
     && SlotsRise(images[1..], images[0].slot))
  }

  predicate ListFits(m: Manifest) {
    && |m.images| > 0 && SlotsRise(m.images, -1)
    && (m.imageCount.Some? ==> m.imageCount.value == |m.images|)
    && (HeaderFormat(m.mcuId) ==> |m.images| == SLOT_COUNT)
  }

  /** Header and manifest tell the same story. */
  predicate HeaderAgrees(mcuId: nat, listed: Listed, bytes: seq<Byte>) {
    && |bytes| >= HEADER_SIZE
    && ReadU32(bytes, OFF_MAGIC) == IMAGE_MAGIC
    && Word(bytes[OFF_HEADER_VERSION], bytes[OFF_HEADER_VERSION + 1], 0, 0) == IMAGE_HEADER_VERSION
    && bytes[OFF_MCU_ID] == mcuId && bytes[OFF_SLOT_ID] == listed.slot
    && ReadU32(bytes, OFF_IMAGE_SIZE) == listed.size
  }

  predicate ImageFits(mcuId: nat, listed: Listed, bytes: seq<Byte>) {
    && |bytes| == listed.size
    && (if HeaderFormat(mcuId) then HeaderAgrees(mcuId, listed, bytes) else |bytes| > 0 && bytes[0] == ESP_IMAGE_MAGIC)
    && Checksum(bytes) == listed.crc32
  }

  // ---- reading ----

  type Check = (Listed, seq<Byte>) -> bool

  function Checker(mcuId: nat): Check {
    (listed: Listed, bytes: seq<Byte>) => ImageFits(mcuId, listed, bytes)
  }

  /** The image at the cursor, behind its length, when it is the one listed. */
  function ImageAt(file: seq<Byte>, cursor: nat, listed: Listed, fits: Check): (r: Option<seq<Byte>>)
    requires cursor <= |file|
    ensures r.Some? ==> cursor + 4 + |r.value| <= |file|
  {
    if |file| - cursor < 4 then None
    else
      var stored := ReadU32(file, cursor);
      if stored != listed.size || stored > |file| - cursor - 4 then None
      else
        var bytes := file[cursor + 4..cursor + 4 + stored];
        if fits(listed, bytes) then Some(bytes) else None
  }

  /** Reads the listed images one after the other, to the very end of the file. */
  function Walk(file: seq<Byte>, cursor: nat, listed: seq<Listed>, fits: Check): (r: Option<seq<seq<Byte>>>)
    requires cursor <= |file|
    ensures r.Some? ==> |r.value| == |listed|
    decreases |listed|
  {
    if |listed| == 0 then (if cursor == |file| then Some([]) else None)
    else
      var image := ImageAt(file, cursor, listed[0], fits);
      if image.None? then None
      else
        var rest := Walk(file, cursor + 4 + |image.value|, listed[1..], fits);
        if rest.None? then None else Some([image.value] + rest.value)
  }

  /** The manifest text, behind the magic and its length. */
  function Opening(file: seq<Byte>): (r: Option<seq<Byte>>)
    ensures r.Some? ==> |MAGIC| + 4 + |r.value| <= |file| && 0 < |r.value| <= MAX_MANIFEST_SIZE
  {
    if |file| < |MAGIC| + 4 || file[..|MAGIC|] != MAGIC then None
    else
      var size := ReadU32(file, |MAGIC|);
      if size == 0 || size > MAX_MANIFEST_SIZE || size > |file| - |MAGIC| - 4 then None
      else Some(file[|MAGIC| + 4..|MAGIC| + 4 + size])
  }

  /** The manifest, when it can be read, lists usable images and speaks this hub's wire. */
  function Understood(blob: seq<Byte>, decode: Decoder, wireHash: string): Option<Manifest> {
    var manifest := decode(blob);
    if manifest.None? || !ListFits(manifest.value) || manifest.value.wireHash != wireHash then None else manifest
  }

  /** The images a manifest lists, from where its text ended. */
  function WithImages(file: seq<Byte>, blob: seq<Byte>, m: Manifest): Option<Loaded>
    requires |MAGIC| + 4 + |blob| <= |file|
  {
    var images := Walk(file, |MAGIC| + 4 + |blob|, m.images, Checker(m.mcuId));
    if images.None? then None else Some(Loaded(blob, m, images.value))
  }

  function Load(file: seq<Byte>, decode: Decoder, wireHash: string): Option<Loaded> {
    var blob := Opening(file);
    if blob.None? then None
    else
      var manifest := Understood(blob.value, decode, wireHash);
      if manifest.None? then None else WithImages(file, blob.value, manifest.value)
  }

  // ---- reading inverts writing ----

  /** An image as long as listed, which passes the check. */
  predicate FitAt(listed: seq<Listed>, images: seq<seq<Byte>>, fits: Check, i: nat) {
    i < |listed| && i < |images| ==> |images[i]| == listed[i].size && fits(listed[i], images[i])
  }

  ghost predicate AllFit(listed: seq<Listed>, images: seq<seq<Byte>>, fits: Check) {
    |images| == |listed| && forall i: nat {:trigger FitAt(listed, images, fits, i)} :: FitAt(listed, images, fits, i)
  }

  /** Some images fit exactly when the first does and the others do. */
  lemma FirstAndRest(listed: seq<Listed>, images: seq<seq<Byte>>, fits: Check)
    requires |images| == |listed| > 0
    ensures AllFit(listed, images, fits) <==> FitAt(listed, images, fits, 0) && AllFit(listed[1..], images[1..], fits)
  {
    if AllFit(listed, images, fits) {
      forall i: nat ensures FitAt(listed[1..], images[1..], fits, i) {
        assert FitAt(listed, images, fits, i + 1);
      }
    }
    if FitAt(listed, images, fits, 0) && AllFit(listed[1..], images[1..], fits) {
      forall i: nat ensures FitAt(listed, images, fits, i) {
        assert i > 0 ==> FitAt(listed[1..], images[1..], fits, i - 1);
      }
    }
  }

  lemma Rejoins(file: seq<Byte>, a: nat, b: nat, c: nat)
    requires a <= b <= c <= |file|
    ensures file[a..] == file[a..b] + file[b..c] + file[c..]
  {
  }

  /** The image read spells the bytes it was read from. */
  lemma ImageSpells(file: seq<Byte>, cursor: nat, listed: Listed, fits: Check)
    requires cursor <= |file| && ImageAt(file, cursor, listed, fits).Some?
    ensures var image := ImageAt(file, cursor, listed, fits).value;
      && |image| == listed.size < WORD_LIMIT && fits(listed, image)
      && U32(|image|) + image + file[cursor + 4 + |image|..] == file[cursor..]
  {
    U32OfRead(file, cursor);
    Rejoins(file, cursor, cursor + 4, cursor + 4 + listed.size);
  }

  lemma OneMore(image: seq<Byte>, rest: seq<seq<Byte>>)
    requires |image| < WORD_LIMIT && Small(rest)
    ensures Small([image] + rest) && Prefixed([image] + rest) == U32(|image|) + image + Prefixed(rest)
  {
    assert ([image] + rest)[1..] == rest;
  }

  /** Images that are spelled from the cursor on, all as listed. */
  ghost predicate SpelledFrom(file: seq<Byte>, cursor: nat, listed: seq<Listed>, fits: Check, images: seq<seq<Byte>>) {
    cursor <= |file| && Small(images) && Prefixed(images) == file[cursor..] && AllFit(listed, images, fits)
  }

  lemma SpelledOneMore(file: seq<Byte>, cursor: nat, listed: seq<Listed>, fits: Check, image: seq<Byte>, rest: seq<seq<Byte>>)
    requires |listed| > 0 && |image| == listed[0].size < WORD_LIMIT && fits(listed[0], image)
    requires SpelledFrom(file, cursor + 4 + |image|, listed[1..], fits, rest)
    requires U32(|image|) + image + file[cursor + 4 + |image|..] == file[cursor..]
    ensures SpelledFrom(file, cursor, listed, fits, [image] + rest)
  {
    OneMore(image, rest);
    assert ([image] + rest)[1..] == rest;
    FirstAndRest(listed, [image] + rest, fits);
  }

  lemma Splits(file: seq<Byte>, cursor: nat, a: seq<Byte>, b: seq<Byte>, c: seq<Byte>)
    requires cursor <= |file| && file[cursor..] == a + b + c
    ensures cursor + |a| + |b| <= |file|
    ensures file[cursor..cursor + |a|] == a && file[cursor + |a|..cursor + |a| + |b|] == b && file[cursor + |a| + |b|..] == c
  {
    var rest := file[cursor..];
    assert file[cursor..cursor + |a|] == rest[..|a|];
    assert file[cursor + |a|..cursor + |a| + |b|] == rest[|a|..|a| + |b|];
    assert file[cursor + |a| + |b|..] == rest[|a| + |b|..];
  }

  /** An image spelled out behind its length is read. */
  lemma ImageReads(file: seq<Byte>, cursor: nat, listed: Listed, fits: Check, image: seq<Byte>, tail: seq<Byte>)
    requires cursor <= |file| && |image| == listed.size < WORD_LIMIT && fits(listed, image)
    requires file[cursor..] == U32(|image|) + image + tail
    ensures ImageAt(file, cursor, listed, fits) == Some(image) && file[cursor + 4 + |image|..] == tail
  {
    Splits(file, cursor, U32(|image|), image, tail);
    ReadOfU32(|image|, file, cursor);
  }

  /** What was walked through is what the rest of the file spells. */
  lemma {:induction false} WalkSpells(file: seq<Byte>, cursor: nat, listed: seq<Listed>, fits: Check)
    requires cursor <= |file|
    ensures Walk(file, cursor, listed, fits).Some? ==>
      SpelledFrom(file, cursor, listed, fits, Walk(file, cursor, listed, fits).value)
    decreases |listed|
  {
    if |listed| > 0 && Walk(file, cursor, listed, fits).Some? {
      var image := ImageAt(file, cursor, listed[0], fits).value;
      ImageSpells(file, cursor, listed[0], fits);
      WalkSpells(file, cursor + 4 + |image|, listed[1..], fits);
      SpelledOneMore(file, cursor, listed, fits, image, Walk(file, cursor + 4 + |image|, listed[1..], fits).value);
    }
  }

  /** Images spelled out from there on are walked through. */
  lemma {:induction false} WalkReads(file: seq<Byte>, cursor: nat, listed: seq<Listed>, fits: Check, images: seq<seq<Byte>>)
    requires cursor <= |file|
    ensures SpelledFrom(file, cursor, listed, fits, images) ==> Walk(file, cursor, listed, fits) == Some(images)
    decreases |listed|
  {
    if |listed| > 0 && SpelledFrom(file, cursor, listed, fits, images) {
      FirstAndRest(listed, images, fits);
      ImageReads(file, cursor, listed[0], fits, images[0], Prefixed(images[1..]));
      WalkReads(file, cursor + 4 + |images[0]|, listed[1..], fits, images[1..]);
      assert images == [images[0]] + images[1..];
    }
  }

  /** The walk yields images exactly when they are what the rest of the file spells, all as listed. */
  lemma WalkIsExact(file: seq<Byte>, cursor: nat, listed: seq<Listed>, fits: Check, images: seq<seq<Byte>>)
    requires cursor <= |file|
    ensures Walk(file, cursor, listed, fits) == Some(images) <==> SpelledFrom(file, cursor, listed, fits, images)
  {
    WalkSpells(file, cursor, listed, fits);
    WalkReads(file, cursor, listed, fits, images);
  }

  /** A bundle the hub accepts. */
  ghost predicate Acceptable(l: Loaded, decode: Decoder, wireHash: string) {
    && 0 < |l.blob| <= MAX_MANIFEST_SIZE && Understood(l.blob, decode, wireHash) == Some(l.manifest)
    && AllFit(l.manifest.images, l.images, Checker(l.manifest.mcuId))
    && Small(l.images)
  }

  lemma Regroup(a: seq<Byte>, b: seq<Byte>, c: seq<Byte>, d: seq<Byte>)
    ensures a + b + c + d == a + (b + c + d)
  {
  }

  /** The file opens with this manifest text, and goes on with this. */
  predicate OpensWith(file: seq<Byte>, blob: seq<Byte>, tail: seq<Byte>) {
    0 < |blob| <= MAX_MANIFEST_SIZE && file == MAGIC + U32(|blob|) + blob + tail
  }

  /** The opening yields a manifest text exactly when the file spells it behind the magic and its length. */
  lemma OpeningIsExact(file: seq<Byte>, blob: seq<Byte>, tail: seq<Byte>)
    ensures OpensWith(file, blob, tail)
      <==> Opening(file) == Some(blob) && file[|MAGIC| + 4 + |blob|..] == tail
  {
    if OpensWith(file, blob, tail) {
      Regroup(MAGIC, U32(|blob|), blob, tail);
      assert file[..|MAGIC|] == MAGIC && file[|MAGIC|..] == U32(|blob|) + blob + tail;
      Splits(file, |MAGIC|, U32(|blob|), blob, tail);
      ReadOfU32(|blob|, file, |MAGIC|);
    }
    if Opening(file) == Some(blob) && file[|MAGIC| + 4 + |blob|..] == tail {
      U32OfRead(file, |MAGIC|);
      Rejoins(file, |MAGIC|, |MAGIC| + 4, |MAGIC| + 4 + |blob|);
      assert file == file[..|MAGIC|] + file[|MAGIC|..];
      Regroup(MAGIC, U32(|blob|), blob, tail);
    }
  }

  /** Past a good opening and a good manifest, only the images decide. */
  lemma LoadOpened(file: seq<Byte>, decode: Decoder, wireHash: string, l: Loaded)
    ensures Load(file, decode, wireHash) == Some(l)
      <==> && Opening(file) == Some(l.blob) && Understood(l.blob, decode, wireHash) == Some(l.manifest)
           && Walk(file, |MAGIC| + 4 + |l.blob|, l.manifest.images, Checker(l.manifest.mcuId)) == Some(l.images)
  {
  }

  /**
   * The hub accepts exactly the files that are an acceptable bundle written out: what it accepted,
   * written again, is the file byte for byte, and an acceptable bundle, once written, is read back.
   */
  lemma LoadIsExact(file: seq<Byte>, l: Loaded, decode: Decoder, wireHash: string)
    ensures Load(file, decode, wireHash) == Some(l)
      <==> Acceptable(l, decode, wireHash) && file == Serialise(l.blob, l.images)
  {
    LoadOpened(file, decode, wireHash, l);
    if Opening(file) == Some(l.blob) {
      var cursor := |MAGIC| + 4 + |l.blob|;
      OpeningIsExact(file, l.blob, file[cursor..]);
      WalkIsExact(file, cursor, l.manifest.images, Checker(l.manifest.mcuId), l.images);
    }
    if Acceptable(l, decode, wireHash) {
      OpeningIsExact(file, l.blob, Prefixed(l.images));
    }
  }
}
