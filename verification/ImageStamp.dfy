/**
 * Stamping a linked image with the five header fields only packaging knows, and the check of a
 * stamped image the bootloader makes.
 */
module ImageStamp {
  import opened Bytes
  import opened Crc32

  const HEADER_SIZE: nat := 512
  const OFF_MAGIC: nat := 0
  const OFF_HEADER_VERSION: nat := 4
  const OFF_MCU_ID: nat := 6
  const OFF_SLOT_ID: nat := 7
  const OFF_IMAGE_SIZE: nat := 8
  const OFF_IMAGE_CRC: nat := 12
  const OFF_BUILD_EPOCH: nat := 16
  const OFF_GIT_HASH: nat := 20
  const OFF_HEADER_CRC: nat := 508
  const GIT_HASH_SIZE: nat := 8
  const IMAGE_MAGIC: nat := 0x5746_344D
  const IMAGE_HEADER_VERSION: nat := 1
  const MCU_STM32F405: nat := 1

  /** Overwrites bytes in the middle of a byte string. */
  function Put(data: seq<Byte>, offset: nat, bytes: seq<Byte>): (r: seq<Byte>)
    requires offset + |bytes| <= |data|
    ensures |r| == |data|
    ensures forall i | 0 <= i < |data| :: r[i] == (if offset <= i < offset + |bytes| then bytes[i - offset] else data[i])
  {
    data[..offset] + bytes + data[offset + |bytes|..]
  }

  /** The constant fields say what the linker must have put there. */
  predicate Linked(image: seq<Byte>, slot: nat) {
    && |image| > HEADER_SIZE
    && ReadU32(image, OFF_MAGIC) == IMAGE_MAGIC
    && Word(image[OFF_HEADER_VERSION], image[OFF_HEADER_VERSION + 1], 0, 0) == IMAGE_HEADER_VERSION
    && image[OFF_SLOT_ID] == slot && image[OFF_MCU_ID] == MCU_STM32F405
  }

  /** What the four fields before the header checksum are set to, and then the checksum over them. */
  function Filled(image: seq<Byte>, epoch: nat, hash: seq<Byte>): (r: seq<Byte>)
    requires HEADER_SIZE < |image| < WORD_LIMIT && epoch < WORD_LIMIT && |hash| == GIT_HASH_SIZE
    ensures |r| == |image|
  {
    var sized := Put(image, OFF_IMAGE_SIZE, U32(|image|));
    var summed := Put(sized, OFF_IMAGE_CRC, U32(Checksum(sized[HEADER_SIZE..])));
    Put(Put(summed, OFF_BUILD_EPOCH, U32(epoch)), OFF_GIT_HASH, hash)
  }

  /** What stamping asks of an image: linked for the slot, and every field fits its word. */
  predicate Stampable(image: seq<Byte>, slot: nat, epoch: nat, hash: seq<Byte>) {
    Linked(image, slot) && |image| < WORD_LIMIT && epoch < WORD_LIMIT && |hash| == GIT_HASH_SIZE
  }

  /** The stamped image, or nothing when the image is refused or a field does not fit its word. */
  function Stamp(image: seq<Byte>, slot: nat, epoch: nat, hash: seq<Byte>): Option<seq<Byte>>
    requires |hash| == GIT_HASH_SIZE
  {
    if !Stampable(image, slot, epoch, hash) then None
    else
      var filled := Filled(image, epoch, hash);
      Some(Put(filled, OFF_HEADER_CRC, U32(Checksum(filled[..OFF_HEADER_CRC]))))
  }

  /** The bootloader's check; an image too short for a header passes nothing. */
  predicate VerifyImage(image: seq<Byte>, slot: nat) {
    && |image| >= HEADER_SIZE
    && ReadU32(image, OFF_IMAGE_SIZE) == |image|
    && image[OFF_SLOT_ID] == slot
    && ReadU32(image, OFF_IMAGE_CRC) == Checksum(image[HEADER_SIZE..])
    && ReadU32(image, OFF_HEADER_CRC) == Checksum(image[..OFF_HEADER_CRC])
  }

  /** An offset inside one of the five stamped fields. */
  predicate InField(i: int) {
    OFF_IMAGE_SIZE <= i < OFF_GIT_HASH + GIT_HASH_SIZE || OFF_HEADER_CRC <= i < HEADER_SIZE
  }

  // ---- what stamping leaves ----

  lemma FilledFields(image: seq<Byte>, epoch: nat, hash: seq<Byte>)
    requires HEADER_SIZE < |image| < WORD_LIMIT && epoch < WORD_LIMIT && |hash| == GIT_HASH_SIZE
    ensures var r := Filled(image, epoch, hash);
      && r[OFF_IMAGE_SIZE..OFF_IMAGE_SIZE + 4] == U32(|image|)
      && r[OFF_IMAGE_CRC..OFF_IMAGE_CRC + 4] == U32(Checksum(image[HEADER_SIZE..]))
      && r[OFF_BUILD_EPOCH..OFF_BUILD_EPOCH + 4] == U32(epoch)
      && r[OFF_GIT_HASH..OFF_GIT_HASH + GIT_HASH_SIZE] == hash
      && forall i | 0 <= i < |image| && !(OFF_IMAGE_SIZE <= i < OFF_GIT_HASH + GIT_HASH_SIZE) :: r[i] == image[i]
  {
    var sized := Put(image, OFF_IMAGE_SIZE, U32(|image|));
    assert sized[HEADER_SIZE..] == image[HEADER_SIZE..];
  }

  /** Stamping changes no byte outside the five fields, and not the length. */
  lemma OnlyFieldsChange(image: seq<Byte>, slot: nat, epoch: nat, hash: seq<Byte>)
    requires Stampable(image, slot, epoch, hash)
    ensures var out := Stamp(image, slot, epoch, hash).value;
      |out| == |image| && forall i | 0 <= i < |image| && !InField(i) :: out[i] == image[i]
  {
    FilledFields(image, epoch, hash);
  }

  /** Every stamped image passes the bootloader's check. */
  lemma StampedVerifies(image: seq<Byte>, slot: nat, epoch: nat, hash: seq<Byte>)
    requires Stampable(image, slot, epoch, hash)
    ensures VerifyImage(Stamp(image, slot, epoch, hash).value, slot)
  {
    var filled, out := Filled(image, epoch, hash), Stamp(image, slot, epoch, hash).value;
    FilledFields(image, epoch, hash);
    assert out[..OFF_HEADER_CRC] == filled[..OFF_HEADER_CRC];
    assert out[HEADER_SIZE..] == image[HEADER_SIZE..];
    assert out[OFF_IMAGE_SIZE..OFF_IMAGE_SIZE + 4] == filled[OFF_IMAGE_SIZE..OFF_IMAGE_SIZE + 4];
    assert out[OFF_IMAGE_CRC..OFF_IMAGE_CRC + 4] == filled[OFF_IMAGE_CRC..OFF_IMAGE_CRC + 4];
    assert out[OFF_HEADER_CRC..OFF_HEADER_CRC + 4] == U32(Checksum(filled[..OFF_HEADER_CRC]));
    ReadOfU32(|image|, out, OFF_IMAGE_SIZE);
    ReadOfU32(Checksum(image[HEADER_SIZE..]), out, OFF_IMAGE_CRC);
    ReadOfU32(Checksum(filled[..OFF_HEADER_CRC]), out, OFF_HEADER_CRC);
  }

  /** A stamped image names its build: the epoch and the hash it was stamped with, in their fields. */
  lemma StampNamesBuild(image: seq<Byte>, slot: nat, epoch: nat, hash: seq<Byte>)
    requires Stampable(image, slot, epoch, hash)
    ensures var out := Stamp(image, slot, epoch, hash).value;
      ReadU32(out, 16) == epoch && out[20..28] == hash
  {
    var filled, out := Filled(image, epoch, hash), Stamp(image, slot, epoch, hash).value;
    FilledFields(image, epoch, hash);
    assert out[OFF_BUILD_EPOCH..OFF_BUILD_EPOCH + 4] == filled[OFF_BUILD_EPOCH..OFF_BUILD_EPOCH + 4];
    assert out[OFF_GIT_HASH..OFF_GIT_HASH + GIT_HASH_SIZE] == filled[OFF_GIT_HASH..OFF_GIT_HASH + GIT_HASH_SIZE];
    ReadOfU32(epoch, out, OFF_BUILD_EPOCH);
  }

  /** Two images that agree outside the five fields are stamped into the same image. */
  lemma StampForgetsOldFields(a: seq<Byte>, b: seq<Byte>, slot: nat, epoch: nat, hash: seq<Byte>)
    requires Stampable(a, slot, epoch, hash) && |b| == |a|
    requires forall i | 0 <= i < |a| && !InField(i) :: b[i] == a[i]
    ensures Stamp(b, slot, epoch, hash) == Stamp(a, slot, epoch, hash)
  {
    assert Linked(b, slot);
    FilledForgets(a, b, epoch, hash);
    var p, q := Filled(a, epoch, hash), Filled(b, epoch, hash);
    assert p[..OFF_HEADER_CRC] == q[..OFF_HEADER_CRC];
    SamePut(p, q, OFF_HEADER_CRC, U32(Checksum(p[..OFF_HEADER_CRC])));
  }

  /** Once the four fields are filled, they agree everywhere but in the header checksum. */
  lemma FilledForgets(a: seq<Byte>, b: seq<Byte>, epoch: nat, hash: seq<Byte>)
    requires HEADER_SIZE < |a| == |b| < WORD_LIMIT && epoch < WORD_LIMIT && |hash| == GIT_HASH_SIZE
    requires forall i | 0 <= i < |a| && !InField(i) :: b[i] == a[i]
    ensures forall i | 0 <= i < |a| && !(OFF_HEADER_CRC <= i < HEADER_SIZE) :: Filled(a, epoch, hash)[i] == Filled(b, epoch, hash)[i]
  {
    FilledFields(a, epoch, hash);
    FilledFields(b, epoch, hash);
    assert a[HEADER_SIZE..] == b[HEADER_SIZE..];
    var p, q := Filled(a, epoch, hash), Filled(b, epoch, hash);
    forall i | 0 <= i < |a| && !(OFF_HEADER_CRC <= i < HEADER_SIZE) ensures p[i] == q[i] {
      SameByte(p, q, i);
    }
  }

  /** Writing over all that differs leaves nothing that differs. */
  lemma SamePut(p: seq<Byte>, q: seq<Byte>, offset: nat, bytes: seq<Byte>)
    requires offset + |bytes| <= |p| == |q|
    requires forall i | 0 <= i < |p| && !(offset <= i < offset + |bytes|) :: p[i] == q[i]
    ensures Put(p, offset, bytes) == Put(q, offset, bytes)
  {
  }

  predicate SameField(p: seq<Byte>, q: seq<Byte>, from: nat, to: nat) {
    from <= to <= |p| && to <= |q| && p[from..to] == q[from..to]
  }

  /** Byte strings with the same four fields are the same wherever they agree outside them. */
  lemma SameByte(p: seq<Byte>, q: seq<Byte>, i: nat)
    requires HEADER_SIZE < |p| == |q| && i < |p|
    requires SameField(p, q, OFF_IMAGE_SIZE, OFF_IMAGE_CRC) && SameField(p, q, OFF_IMAGE_CRC, OFF_BUILD_EPOCH)
    requires SameField(p, q, OFF_BUILD_EPOCH, OFF_GIT_HASH) && SameField(p, q, OFF_GIT_HASH, OFF_GIT_HASH + GIT_HASH_SIZE)
    requires !(OFF_IMAGE_SIZE <= i < OFF_GIT_HASH + GIT_HASH_SIZE) ==> p[i] == q[i]
    ensures p[i] == q[i]
  {
    if OFF_IMAGE_SIZE <= i < OFF_IMAGE_CRC {
      ByteOfField(p, q, OFF_IMAGE_SIZE, OFF_IMAGE_CRC, i);
    } else if OFF_IMAGE_CRC <= i < OFF_BUILD_EPOCH {
      ByteOfField(p, q, OFF_IMAGE_CRC, OFF_BUILD_EPOCH, i);
    } else if OFF_BUILD_EPOCH <= i < OFF_GIT_HASH {
      ByteOfField(p, q, OFF_BUILD_EPOCH, OFF_GIT_HASH, i);
    } else if OFF_GIT_HASH <= i < OFF_GIT_HASH + GIT_HASH_SIZE {
      ByteOfField(p, q, OFF_GIT_HASH, OFF_GIT_HASH + GIT_HASH_SIZE, i);
    }
  }

  lemma ByteOfField(p: seq<Byte>, q: seq<Byte>, from: nat, to: nat, i: nat)
    requires SameField(p, q, from, to) && from <= i < to
    ensures p[i] == q[i]
  {
    assert p[i] == p[from..to][i - from];
    assert q[i] == q[from..to][i - from];
  }

  /** Stamping a stamped image again changes nothing. */
  lemma StampIsIdempotent(image: seq<Byte>, slot: nat, epoch: nat, hash: seq<Byte>)
    requires Stampable(image, slot, epoch, hash)
    ensures Stamp(Stamp(image, slot, epoch, hash).value, slot, epoch, hash) == Stamp(image, slot, epoch, hash)
  {
    OnlyFieldsChange(image, slot, epoch, hash);
    StampForgetsOldFields(image, Stamp(image, slot, epoch, hash).value, slot, epoch, hash);
  }

  // ---- the script's own way: a copy, written into ----

  method Pack(out: array<Byte>, offset: nat, bytes: seq<Byte>)
    requires offset + |bytes| <= out.Length
    modifies out
    ensures out[..] == Put(old(out[..]), offset, bytes)
  {
    ghost var before := out[..];
    var i := 0;
    while i < |bytes|
      invariant 0 <= i <= |bytes|
      invariant forall k | 0 <= k < out.Length :: out[k] == (if offset <= k < offset + i then bytes[k - offset] else before[k])
    {
      out[offset + i] := bytes[i];
      i := i + 1;
    }
    assert out[..] == Put(before, offset, bytes);
  }

  method StampImage(image: seq<Byte>, slot: nat, epoch: nat, hash: seq<Byte>) returns (stamped: Option<seq<Byte>>)
    requires |hash| == GIT_HASH_SIZE
    ensures stamped == Stamp(image, slot, epoch, hash)
    ensures stamped.Some? ==> VerifyImage(stamped.value, slot)
  {
    if !Stampable(image, slot, epoch, hash) {
      return None;
    }
    var out := new Byte[|image|](i requires 0 <= i < |image| => image[i]);
    assert out[..] == image;
    Pack(out, OFF_IMAGE_SIZE, U32(out.Length));
    var body := Crc32Mpeg2(out[HEADER_SIZE..]);
    assert out[HEADER_SIZE..] == out[..][HEADER_SIZE..];
    Pack(out, OFF_IMAGE_CRC, U32(body));
    Pack(out, OFF_BUILD_EPOCH, U32(epoch));
    Pack(out, OFF_GIT_HASH, hash);
    assert out[..] == Filled(image, epoch, hash);
    var header := Crc32Mpeg2(out[..OFF_HEADER_CRC]);
    assert out[..OFF_HEADER_CRC] == out[..][..OFF_HEADER_CRC];
    Pack(out, OFF_HEADER_CRC, U32(header));
    StampedVerifies(image, slot, epoch, hash);
    return Some(out[..]);
  }
}
