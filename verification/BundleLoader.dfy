/** The bundle reader and writer as they work: a cursor moving over the file, images gathered in a loop. */
module BundleLoader {
  import opened Bytes
  import opened OtaTypes
  import opened BundleFile

  /** With what was gathered so far, what is left to read makes the whole. */
  function Gathered(images: seq<seq<Byte>>, rest: Option<seq<seq<Byte>>>): Option<seq<seq<Byte>>> {
    if rest.None? then None else Some(images + rest.value)
  }

  lemma NothingGathered(rest: Option<seq<seq<Byte>>>)
    ensures Gathered([], rest) == rest
  {
    if rest.Some? {
      assert [] + rest.value == rest.value;
    }
  }

  /** One more image gathered, one fewer to read. */
  lemma OneGathered(file: seq<Byte>, cursor: nat, listed: seq<Listed>, fits: Check, images: seq<seq<Byte>>)
    requires cursor <= |file| && |listed| > 0
    ensures var image := ImageAt(file, cursor, listed[0], fits);
      Gathered(images, Walk(file, cursor, listed, fits))
      == (if image.None? then None
          else Gathered(images + [image.value], Walk(file, cursor + 4 + |image.value|, listed[1..], fits)))
  {
    var image := ImageAt(file, cursor, listed[0], fits);
    if image.Some? {
      var rest := Walk(file, cursor + 4 + |image.value|, listed[1..], fits);
      if rest.Some? {
        assert images + ([image.value] + rest.value) == images + [image.value] + rest.value;
      }
    }
  }

  /** Reads the listed images in order, refusing a file that ends early or goes on after them. */
  method ReadImages(file: seq<Byte>, start: nat, listed: seq<Listed>, fits: Check) returns (r: Option<seq<seq<Byte>>>)
    requires start <= |file|
    ensures r == Walk(file, start, listed, fits)
  {
    var cursor: nat, n: nat := start, 0;
    var images: seq<seq<Byte>> := [];
    assert listed[0..] == listed;
    NothingGathered(Walk(file, start, listed, fits));
    while n < |listed|
      invariant n <= |listed| && cursor <= |file|
      invariant Gathered(images, Walk(file, cursor, listed[n..], fits)) == Walk(file, start, listed, fits)
    {
      OneGathered(file, cursor, listed[n..], fits, images);
      assert listed[n..][1..] == listed[n + 1..];
      var image := ImageAt(file, cursor, listed[n], fits);
      if image.None? {
        return None;
      }
      images := images + [image.value];
      cursor := cursor + 4 + |image.value|;
      n := n + 1;
    }
    assert images + [] == images;
    return if cursor == |file| then Some(images) else None;
  }

  /** Checks the listed slots and sizes, remembering the slot before. */
  method SlotsInOrder(listed: seq<Listed>) returns (ok: bool)
    ensures ok == SlotsRise(listed, -1)
  {
    var previous: int, n: nat := -1, 0;
    assert listed[0..] == listed;
    while n < |listed|
      invariant n <= |listed|
      invariant SlotsRise(listed[n..], previous) == SlotsRise(listed, -1)
    {
      assert listed[n..][1..] == listed[n + 1..];
      var image := listed[n];
      if image.slot >= SLOT_COUNT || image.slot <= previous || image.size == 0 || image.size > MAX_IMAGE_SIZE {
        return false;
      }
      previous := image.slot;
      n := n + 1;
    }
    return true;
  }

  method LoadBundle(file: seq<Byte>, decode: Decoder, wireHash: string) returns (r: Option<Loaded>)
    ensures r == Load(file, decode, wireHash)
  {
    var blob := Opening(file);
    if blob.None? {
      return None;
    }
    var manifest := decode(blob.value);
    if manifest.None? {
      return None;
    }
    var m := manifest.value;
    var inOrder := SlotsInOrder(m.images);
    if |m.images| == 0 || !inOrder || (m.imageCount.Some? && m.imageCount.value != |m.images|)
       || (HeaderFormat(m.mcuId) && |m.images| != SLOT_COUNT) || m.wireHash != wireHash {
      return None;
    }
    var images := ReadImages(file, |MAGIC| + 4 + |blob.value|, m.images, Checker(m.mcuId));
    return if images.None? then None else Some(Loaded(blob.value, m, images.value));
  }

  lemma {:induction false} PrefixedOneMore(images: seq<seq<Byte>>, image: seq<Byte>)
    requires Small(images) && |image| < WORD_LIMIT
    ensures Small(images + [image]) && Prefixed(images + [image]) == Prefixed(images) + U32(|image|) + image
  {
    var all := images + [image];
    if |images| > 0 {
      PrefixedOneMore(images[1..], image);
      assert all[1..] == images[1..] + [image];
      var head := U32(|images[0]|) + images[0];
      assert head + (Prefixed(images[1..]) + U32(|image|) + image) == head + Prefixed(images[1..]) + U32(|image|) + image;
    } else {
      assert all[1..] == [] && Prefixed(all[1..]) == [];
    }
  }

  /** Writes the container, image after image. */
  method BuildBundle(blob: seq<Byte>, images: seq<seq<Byte>>) returns (out: seq<Byte>)
    requires |blob| < WORD_LIMIT && Small(images)
    ensures out == Serialise(blob, images)
  {
    out := MAGIC;
    out := out + U32(|blob|);
    out := out + blob;
    ghost var opening := out;
    var n := 0;
    while n < |images|
      invariant n <= |images| && Small(images[..n]) && out == opening + Prefixed(images[..n])
    {
      PrefixedOneMore(images[..n], images[n]);
      assert images[..n + 1] == images[..n] + [images[n]];
      assert opening + (Prefixed(images[..n]) + U32(|images[n]|) + images[n])
          == opening + Prefixed(images[..n]) + U32(|images[n]|) + images[n];
      out := out + U32(|images[n]|);
      out := out + images[n];
      n := n + 1;
    }
    assert images[..n] == images;
  }
}
