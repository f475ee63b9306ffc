/** CRC-32/MPEG-2 over little-endian words, the one checksum of the update system. */
module Crc32 {
  import opened Bytes

  const POLYNOMIAL: bv32 := 0x04C1_1DB7
  const INITIAL: bv32 := 0xFFFF_FFFF
  const WORD_BITS: nat := 32
  const TOP_BIT: bv32 := 0x8000_0000

  /** One shift of the register, folding the polynomial in when the top bit leaves. */
  function ShiftOnce(crc: bv32): bv32 {
    if crc & TOP_BIT != 0 then (crc << 1) ^ POLYNOMIAL else crc << 1
  }

  /** Shifts the register left by a number of bits. */
  function Shift(crc: bv32, bits: nat): bv32
    decreases bits
  {
    if bits == 0 then crc
    else Shift(ShiftOnce(crc), bits - 1)
  }

  /** Pads the tail to a whole word with erased bytes. */
  function Padded(data: seq<Byte>): (padded: seq<Byte>)
    ensures |padded| % 4 == 0 && data <= padded
  {
    data + seq((4 - |data| % 4) % 4, _ => 255)
  }

  /** A number as a register, its low bit last. */
  function Bits(n: nat): bv32 {
    if n == 0 then 0 else (Bits(n / 2) << 1) | (if n % 2 == 1 then 1 else 0)
  }

  /** The little-endian word four bytes spell. */
  function WordBits(word: seq<Byte>): bv32
    requires |word| == 4
  {
    Bits(ReadU32(word, 0))
  }

  /** Takes one word into the register: xor, then a shift per bit. */
  function Absorb(crc: bv32, word: bv32): bv32 {
    Shift(crc ^ word, WORD_BITS)
  }

  /** Folds the whole words of a byte string into the register. */
  function Fold(data: seq<Byte>, crc: bv32): bv32 {
    if |data| < 4 then crc else Fold(data[4..], Absorb(crc, WordBits(data[..4])))
  }

  /** The checksum of a byte string. */
  function Checksum(data: seq<Byte>): (crc: nat)
    ensures crc < WORD_LIMIT
  {
    Fold(Padded(data), INITIAL) as nat
  }

  /** The inner loop of the checksum: one word, one shift per bit. */
  method AbsorbWord(crc: bv32, word: bv32) returns (shifted: bv32)
    ensures shifted == Absorb(crc, word)
  {
    var bits := WORD_BITS;
    shifted := crc ^ word;
    for round := 0 to bits
      invariant Shift(shifted, bits - round) == Absorb(crc, word)
    {
      shifted := ShiftOnce(shifted);
    }
  }

  /** The word loop of the packaging script. */
  method FoldWords(padded: seq<Byte>) returns (register: bv32)
    ensures register == Fold(padded, INITIAL)
  {
    register := INITIAL;
    var rest := padded;
    while |rest| >= 4
      invariant Fold(rest, register) == Fold(padded, INITIAL)
    {
      register := AbsorbWord(register, WordBits(rest[..4]));
      rest := rest[4..];
    }
  }

  /** Padding, then the word loop: the packaging script computes Checksum. */
  method Crc32Mpeg2(data: seq<Byte>) returns (crc: nat)
    ensures crc == Checksum(data)
  {
    var register := FoldWords(Padded(data));
    crc := register as nat;
  }

  // ---- what the checksum tells apart ----

  /** A shift undone: the polynomial's low bit records the bit that left. */
  function Unshift(crc: bv32): bv32 {
    if crc & 1 != 0 then ((crc ^ POLYNOMIAL) >> 1) | TOP_BIT else crc >> 1
  }

  lemma ShiftedBits(c: bv32)
    ensures (c << 1) & 1 == 0 && (c << 1) >> 1 == c & 0x7FFF_FFFF
  {
  }

  lemma TopBit(c: bv32)
    ensures c & 0x8000_0000 != 0 ==> (c & 0x7FFF_FFFF) | 0x8000_0000 == c
    ensures c & 0x8000_0000 == 0 ==> c & 0x7FFF_FFFF == c
  {
  }

  lemma FoldedIn(c: bv32, d: bv32)
    requires c & 1 == 0 && d & 1 == 1
    ensures (c ^ d) & 1 == 1 && (c ^ d) ^ d == c
  {
  }

  lemma UnshiftUndoes(c: bv32)
    ensures Unshift(ShiftOnce(c)) == c
  {
    ShiftedBits(c);
    TopBit(c);
    if c & TOP_BIT != 0 {
      FoldedIn(c << 1, POLYNOMIAL);
    }
  }

  /** The register before a number of shifts. */
  function Unshifted(crc: bv32, bits: nat): bv32 {
    if bits == 0 then crc else Unshift(Unshifted(crc, bits - 1))
  }

  /** Shifting loses nothing of the register. */
  lemma {:induction false} ShiftedBack(crc: bv32, bits: nat)
    ensures Unshifted(Shift(crc, bits), bits) == crc
    decreases bits
  {
    if bits > 0 {
      ShiftedBack(ShiftOnce(crc), bits - 1);
      UnshiftUndoes(crc);
    }
  }

  lemma XorTells(a: bv32, b: bv32, c: bv32)
    requires a ^ c == b ^ c
    ensures a == b
  {
  }

  lemma XorTellsOther(a: bv32, b: bv32, c: bv32)
    requires c ^ a == c ^ b
    ensures a == b
  {
  }

  lemma ShiftTells(a: bv32, b: bv32, bits: nat)
    requires Shift(a, bits) == Shift(b, bits)
    ensures a == b
  {
    ShiftedBack(a, bits);
    ShiftedBack(b, bits);
  }

  /** The register tells what it held before a word. */
  lemma AbsorbTellsRegister(crc: bv32, other: bv32, word: bv32)
    requires Absorb(crc, word) == Absorb(other, word)
    ensures crc == other
  {
    ShiftTells(crc ^ word, other ^ word, WORD_BITS);
    XorTells(crc, other, word);
  }

  /** The register tells which word it took. */
  lemma AbsorbTellsWord(crc: bv32, a: bv32, b: bv32)
    requires Absorb(crc, a) == Absorb(crc, b)
    ensures a == b
  {
    ShiftTells(crc ^ a, crc ^ b, WORD_BITS);
    XorTellsOther(a, b, crc);
  }

  /** The bits above the low k. */
  function High(k: nat): bv32 {
    if k == 0 then 0xFFFF_FFFF else High(k - 1) << 1
  }

  /** The first number that k bits cannot hold. */
  function Limit(k: nat): nat {
    if k == 0 then 1 else 2 * Limit(k - 1)
  }

  lemma AppendedBit(upper: bv32, bit: bv32, high: bv32)
    requires upper & high == 0 && bit <= 1
    ensures ((upper << 1) | bit) & (high << 1) == 0
  {
  }

  /** A number of k bits leaves the bits above them clear. */
  lemma {:induction false} BitsFit(n: nat, k: nat)
    requires n < Limit(k)
    ensures Bits(n) & High(k) == 0
    decreases k
  {
    if n == 0 {
      assert Bits(n) == 0;
    } else {
      BitsFit(n / 2, k - 1);
      AppendedBit(Bits(n / 2), if n % 2 == 1 then 1 else 0, High(k - 1));
    }
  }

  lemma LastBitBack(upper: bv32, bit: bv32)
    requires upper & TOP_BIT == 0 && bit <= 1
    ensures ((upper << 1) | bit) >> 1 == upper && ((upper << 1) | bit) & 1 == bit
  {
  }

  lemma HighWord()
    ensures High(31) == TOP_BIT
  {
    assert High(8) == 0xFFFF_FF00 && High(16) == 0xFFFF_0000 && High(24) == 0xFF00_0000;
  }

  lemma LimitWord()
    ensures Limit(31) == 0x8000_0000
  {
    assert Limit(8) == 0x100 && Limit(16) == 0x1_0000 && Limit(24) == 0x100_0000;
    assert Limit(28) == 0x1000_0000;
  }

  lemma UpperHalfClear(n: nat)
    requires n < 0x8000_0000
    ensures Bits(n) & TOP_BIT == 0
  {
    HighWord();
    LimitWord();
    BitsFit(n, 31);
  }

  /** The number the low k bits of a register spell. */
  function Spelled(crc: bv32, k: nat): nat
    decreases k
  {
    if k == 0 then 0 else 2 * Spelled(crc >> 1, k - 1) + (if crc & 1 == 1 then 1 else 0)
  }

  lemma SpelledAppended(n: nat, k: nat, upper: bv32, bit: bv32, all: bv32)
    requires upper & TOP_BIT == 0 && k > 0 && all == (upper << 1) | bit
    requires bit == if n % 2 == 1 then 1 else 0
    requires Spelled(upper, k - 1) == n / 2
    ensures Spelled(all, k) == n
  {
    LastBitBack(upper, bit);
  }

  lemma BitsAppended(n: nat, bit: bv32)
    requires bit == if n % 2 == 1 then 1 else 0
    ensures Bits(n) == (Bits(n / 2) << 1) | bit
  {
    if n == 0 {
      assert Bits(0) == 0;
    }
  }

  lemma BitsSpellOneMore(n: nat, k: nat, bit: bv32)
    requires k > 0 && bit == if n % 2 == 1 then 1 else 0
    requires Bits(n / 2) & TOP_BIT == 0
    requires Spelled(Bits(n / 2), k - 1) == n / 2
    ensures Spelled(Bits(n), k) == n
  {
    BitsAppended(n, bit);
    SpelledAppended(n, k, Bits(n / 2), bit, Bits(n));
  }

  /** A number of one word is spelled by its bits. */
  lemma {:induction false} BitsSpell(n: nat, k: nat)
    requires n < Limit(k) && n < WORD_LIMIT
    ensures Spelled(Bits(n), k) == n
    decreases k
  {
    if k > 0 {
      UpperHalfClear(n / 2);
      BitsSpell(n / 2, k - 1);
      BitsSpellOneMore(n, k, if n % 2 == 1 then 1 else 0);
    }
  }

  lemma WordTells(a: seq<Byte>, b: seq<Byte>, k: nat)
    requires Limit(k) == WORD_LIMIT
    requires |a| == |b| == 4 && WordBits(a) == WordBits(b)
    ensures a == b
  {
    BitsSpell(ReadU32(a, 0), k);
    BitsSpell(ReadU32(b, 0), k);
    U32OfRead(a, 0);
    U32OfRead(b, 0);
    assert a[0..4] == a && b[0..4] == b;
  }

  /** Whole words after words. */
  lemma {:induction false} FoldJoins(a: seq<Byte>, b: seq<Byte>, crc: bv32)
    requires |a| % 4 == 0
    ensures Fold(a + b, crc) == Fold(b, Fold(a, crc))
  {
    if |a| == 0 {
      assert a + b == b;
    } else {
      assert (a + b)[..4] == a[..4] && (a + b)[4..] == a[4..] + b;
      FoldJoins(a[4..], b, Absorb(crc, WordBits(a[..4])));
    }
  }

  /** The same words after two registers leave two registers. */
  lemma {:induction false} FoldTells(data: seq<Byte>, crc: bv32, other: bv32)
    requires Fold(data, crc) == Fold(data, other)
    ensures crc == other
  {
    if |data| >= 4 {
      FoldTells(data[4..], Absorb(crc, WordBits(data[..4])), Absorb(other, WordBits(data[..4])));
      AbsorbTellsRegister(crc, other, WordBits(data[..4]));
    }
  }

  lemma FoldFirst(word: seq<Byte>, tail: seq<Byte>, crc: bv32)
    requires |word| == 4
    ensures Fold(word + tail, crc) == Fold(tail, Absorb(crc, WordBits(word)))
  {
    assert (word + tail)[..4] == word && (word + tail)[4..] == tail;
  }

  lemma FoldMiddle(head: seq<Byte>, word: seq<Byte>, tail: seq<Byte>, crc: bv32, register: bv32)
    requires |head| % 4 == 0 && |word| == 4 && register == Fold(head, crc)
    ensures Fold(head + word + tail, crc) == Fold(tail, Absorb(register, WordBits(word)))
  {
    assert head + word + tail == head + (word + tail);
    FoldJoins(head, word + tail, crc);
    FoldFirst(word, tail, register);
  }

  /** Two strings of whole words that differ in one word leave different registers. */
  lemma OneWordFolds(head: seq<Byte>, a: seq<Byte>, b: seq<Byte>, tail: seq<Byte>, crc: bv32)
    requires |head| % 4 == 0 && |a| == |b| == 4
    requires Fold(head + a + tail, crc) == Fold(head + b + tail, crc)
    ensures a == b
  {
    var register := Fold(head, crc);
    FoldMiddle(head, a, tail, crc, register);
    FoldMiddle(head, b, tail, crc, register);
    FoldTells(tail, Absorb(register, WordBits(a)), Absorb(register, WordBits(b)));
    AbsorbTellsWord(register, WordBits(a), WordBits(b));
    LimitWord();
    WordTells(a, b, WORD_BITS);
  }

  lemma RegisterTells(a: bv32, b: bv32)
    requires a as nat == b as nat
    ensures a == b
  {
    assert (a as nat) as bv32 == a && (b as nat) as bv32 == b;
  }

  /** The word a byte belongs to, once padded. */
  function WordAt(data: seq<Byte>, w: nat): seq<Byte>
    requires 4 * w + 4 <= |data|
  {
    data[4 * w..4 * w + 4]
  }

  /** Padding adds no difference outside the word. */
  lemma SameAround(a: seq<Byte>, b: seq<Byte>, w: nat)
    requires |a| == |b| && 4 * w + 4 <= |Padded(a)|
    requires forall i :: 0 <= i < |a| && i / 4 != w ==> a[i] == b[i]
    ensures |Padded(b)| == |Padded(a)|
    ensures Padded(a)[..4 * w] == Padded(b)[..4 * w] && Padded(a)[4 * w + 4..] == Padded(b)[4 * w + 4..]
  {
  }

  lemma OneWordTells(p: seq<Byte>, q: seq<Byte>, w: nat)
    requires |p| == |q| && 4 * w + 4 <= |p| && Fold(p, INITIAL) == Fold(q, INITIAL)
    requires p[..4 * w] == q[..4 * w] && p[4 * w + 4..] == q[4 * w + 4..]
    ensures p == q
  {
    ThreeParts(p, w, p[..4 * w], p[4 * w + 4..]);
    ThreeParts(q, w, p[..4 * w], p[4 * w + 4..]);
    OneWordFolds(p[..4 * w], WordAt(p, w), WordAt(q, w), p[4 * w + 4..], INITIAL);
  }

  lemma ThreeParts(p: seq<Byte>, w: nat, head: seq<Byte>, tail: seq<Byte>)
    requires 4 * w + 4 <= |p| && head == p[..4 * w] && tail == p[4 * w + 4..]
    ensures p == head + WordAt(p, w) + tail
  {
  }

  /** Damage within one word of an image never goes unnoticed. */
  lemma OneWordIsDetected(a: seq<Byte>, b: seq<Byte>, w: nat)
    requires |a| == |b| && 4 * w + 4 <= |Padded(a)|
    requires forall i :: 0 <= i < |a| && i / 4 != w ==> a[i] == b[i]
    ensures Checksum(a) == Checksum(b) <==> a == b
  {
    SameAround(a, b, w);
    if Checksum(a) == Checksum(b) {
      RegisterTells(Fold(Padded(a), INITIAL), Fold(Padded(b), INITIAL));
      OneWordTells(Padded(a), Padded(b), w);
      assert Padded(a)[..|a|] == a && Padded(b)[..|b|] == b;
    }
  }

  /** Two strings that pad to the same words: one is the other with erased bytes up to the end of its last word. */
  lemma PaddingCollides(data: seq<Byte>, erased: seq<Byte>)
    requires |data| % 4 + |erased| <= 4 && (|data| % 4 == 0 ==> erased == [])
    requires forall i :: 0 <= i < |erased| ==> erased[i] == 255
    ensures Checksum(data + erased) == Checksum(data)
  {
    PadCount(|data|, |erased|);
    assert Padded(data + erased) == Padded(data);
  }

  lemma PadCount(n: nat, more: nat)
    requires n % 4 + more <= 4 && (n % 4 == 0 ==> more == 0)
    ensures (4 - (n + more) % 4) % 4 + more == (4 - n % 4) % 4
  {
  }

  /** Padding hides nothing else: strings that pad alike agree where both have bytes, and the longer one goes on erased. */
  lemma PaddedAlike(a: seq<Byte>, b: seq<Byte>)
    requires Padded(a) == Padded(b) && |a| <= |b|
    ensures a <= b && |b| - |a| < 4 && forall i :: |a| <= i < |b| ==> b[i] == 255
  {
    assert b == Padded(b)[..|b|] && a == Padded(a)[..|a|];
  }

  // ---- the vectors of the packaging script ----

  lemma {:induction false} ShiftJoins(crc: bv32, a: nat, b: nat)
    ensures Shift(crc, a + b) == Shift(Shift(crc, a), b)
    decreases a
  {
    if a > 0 {
      ShiftJoins(ShiftOnce(crc), a - 1, b);
    }
  }

  /** A word is shifted in byte by byte. */
  lemma ByteByByte(crc: bv32, word: bv32, a: bv32, b: bv32, c: bv32, d: bv32)
    requires Shift(crc ^ word, 8) == a && Shift(a, 8) == b && Shift(b, 8) == c && Shift(c, 8) == d
    ensures Absorb(crc, word) == d
  {
    ShiftJoins(crc ^ word, 8, 24);
    ShiftJoins(a, 8, 16);
    ShiftJoins(b, 8, 8);
  }

  lemma ZeroWord()
    ensures Absorb(0xFFFF_FFFF, 0x0000_0000) == 0xC704_DD7B
  {
    assert Shift(0xFFFF_FFFF, 8) == 0x4E08_BFB4 && Shift(0x4E08_BFB4, 8) == 0x00B7_647D;
    assert Shift(0x00B7_647D, 8) == 0xB764_7D00 && Shift(0xB764_7D00, 8) == 0xC704_DD7B;
    ByteByByte(0xFFFF_FFFF, 0x0000_0000, 0x4E08_BFB4, 0x00B7_647D, 0xB764_7D00, 0xC704_DD7B);
  }

  lemma FirstWord()
    ensures Absorb(0xFFFF_FFFF, 0x0403_0201) == 0x1DAB_E74F
  {
    assert Shift(0xFBFC_FDFE, 8) == 0x5E0E_C868 && Shift(0x5E0E_C868, 8) == 0x4AD1_630D;
    assert Shift(0x4AD1_630D, 8) == 0xCA6F_ABA1 && Shift(0xCA6F_ABA1, 8) == 0x1DAB_E74F;
    ByteByByte(0xFFFF_FFFF, 0x0403_0201, 0x5E0E_C868, 0x4AD1_630D, 0xCA6F_ABA1, 0x1DAB_E74F);
  }

  lemma SecondWord()
    ensures Absorb(0x1DAB_E74F, 0x0807_0605) == 0xA314_1BDA
  {
    assert Shift(0x15AC_E14A, 8) == 0xF735_FA1B && Shift(0xF735_FA1B, 8) == 0xA205_B60C;
    assert Shift(0xA205_B60C, 8) == 0xFD1B_6160 && Shift(0xFD1B_6160, 8) == 0xA314_1BDA;
    ByteByByte(0x1DAB_E74F, 0x0807_0605, 0xF735_FA1B, 0xA205_B60C, 0xFD1B_6160, 0xA314_1BDA);
  }

  lemma PaddedWord()
    ensures Absorb(0x1DAB_E74F, 0xFFFF_FF05) == 0xCCD0_E62C
  {
    assert Shift(0xE254_184A, 8) == 0x9833_5717 && Shift(0x9833_5717, 8) == 0x3042_C126;
    assert Shift(0x3042_C126, 8) == 0x96F3_4B90 && Shift(0x96F3_4B90, 8) == 0xCCD0_E62C;
    ByteByByte(0x1DAB_E74F, 0xFFFF_FF05, 0x9833_5717, 0x3042_C126, 0x96F3_4B90, 0xCCD0_E62C);
  }

  /** A number without its last bits, and those bits written behind a register. */
  function Upper(n: nat, k: nat): nat {
    if k == 0 then n else Upper(n / 2, k - 1)
  }

  function Behind(word: bv32, n: nat, k: nat): bv32 {
    if k == 0 then word else (Behind(word, n / 2, k - 1) << 1) | (if n % 2 == 1 then 1 else 0)
  }

  lemma {:induction false} BitsResume(n: nat, k: nat)
    ensures Bits(n) == Behind(Bits(Upper(n, k)), n, k)
    decreases k
  {
    if k > 0 {
      BitsResume(n / 2, k - 1);
      if n == 0 {
        assert Bits(n) == 0 && (Bits(n) << 1) | 0 == 0;
      }
    }
  }

  lemma NextByte(n: nat, upper: nat, word: bv32, full: bv32)
    requires upper == Upper(n, 8) && Bits(upper) == word && Behind(word, n, 8) == full
    ensures Bits(n) == full
  {
    BitsResume(n, 8);
  }

  lemma FirstSpelled()
    ensures WordBits([1, 2, 3, 4]) == 0x0403_0201
  {
    assert Bits(0x4) == 0x4;
    assert Upper(0x403, 8) == 0x4 && Behind(0x4, 0x403, 8) == 0x403;
    NextByte(0x403, 0x4, 0x4, 0x403);
    assert Upper(0x0004_0302, 8) == 0x403 && Behind(0x403, 0x0004_0302, 8) == 0x0004_0302;
    NextByte(0x0004_0302, 0x403, 0x403, 0x0004_0302);
    assert Upper(0x0403_0201, 8) == 0x0004_0302 && Behind(0x0004_0302, 0x0403_0201, 8) == 0x0403_0201;
    NextByte(0x0403_0201, 0x0004_0302, 0x0004_0302, 0x0403_0201);
  }

  lemma SecondSpelled()
    ensures WordBits([5, 6, 7, 8]) == 0x0807_0605
  {
    assert Bits(0x8) == 0x8;
    assert Upper(0x807, 8) == 0x8 && Behind(0x8, 0x807, 8) == 0x807;
    NextByte(0x807, 0x8, 0x8, 0x807);
    assert Upper(0x0008_0706, 8) == 0x807 && Behind(0x807, 0x0008_0706, 8) == 0x0008_0706;
    NextByte(0x0008_0706, 0x807, 0x807, 0x0008_0706);
    assert Upper(0x0807_0605, 8) == 0x0008_0706 && Behind(0x0008_0706, 0x0807_0605, 8) == 0x0807_0605;
    NextByte(0x0807_0605, 0x0008_0706, 0x0008_0706, 0x0807_0605);
  }

  lemma PaddedSpelled()
    ensures WordBits([5, 255, 255, 255]) == 0xFFFF_FF05
  {
    assert Bits(0xFF) == 0xFF;
    assert Upper(0xFFFF, 8) == 0xFF && Behind(0xFF, 0xFFFF, 8) == 0xFFFF;
    NextByte(0xFFFF, 0xFF, 0xFF, 0xFFFF);
    assert Upper(0x00FF_FFFF, 8) == 0xFFFF && Behind(0xFFFF, 0x00FF_FFFF, 8) == 0x00FF_FFFF;
    NextByte(0x00FF_FFFF, 0xFFFF, 0xFFFF, 0x00FF_FFFF);
    assert Upper(0xFFFF_FF05, 8) == 0x00FF_FFFF && Behind(0x00FF_FFFF, 0xFFFF_FF05, 8) == 0xFFFF_FF05;
    NextByte(0xFFFF_FF05, 0x00FF_FFFF, 0x00FF_FFFF, 0xFFFF_FF05);
  }

  lemma OneWord(a: seq<Byte>, crc: bv32)
    requires |a| == 4
    ensures Fold(a, crc) == Absorb(crc, WordBits(a))
  {
    assert a[..4] == a && a[4..] == [];
  }

  lemma TwoWords(data: seq<Byte>, a: seq<Byte>, b: seq<Byte>, first: bv32, last: bv32)
    requires |a| == 4 == |b| && Padded(data) == a + b
    requires Absorb(0xFFFF_FFFF, WordBits(a)) == first && Absorb(first, WordBits(b)) == last
    ensures Checksum(data) == last as nat
  {
    OneWord(b, first);
    assert (a + b)[..4] == a && (a + b)[4..] == b;
  }

  lemma WholeVector(data: seq<Byte>, a: seq<Byte>, b: seq<Byte>)
    requires a == [1, 2, 3, 4] && b == [5, 6, 7, 8] && data == a + b
    ensures Checksum(data) == 0xA314_1BDA
  {
    FirstSpelled();
    SecondSpelled();
    FirstWord();
    SecondWord();
    TwoWords(data, a, b, 0x1DAB_E74F, 0xA314_1BDA);
  }

  lemma PaddedVector(data: seq<Byte>, a: seq<Byte>, b: seq<Byte>)
    requires a == [1, 2, 3, 4] && b == [5, 255, 255, 255] && data == a + b[..1]
    ensures Checksum(data) == 0xCCD0_E62C
  {
    FirstSpelled();
    PaddedSpelled();
    FirstWord();
    PaddedWord();
    assert Padded(data) == a + b;
    TwoWords(data, a, b, 0x1DAB_E74F, 0xCCD0_E62C);
  }

  lemma ZeroVector(data: seq<Byte>)
    requires data == [0, 0, 0, 0]
    ensures Checksum(data) == 0xC704_DD7B
  {
    ZeroWord();
    OneWord(data, INITIAL);
  }

  /** The three checksums the packaging script documents. */
  lemma DocumentedVectors(zeros: seq<Byte>, whole: seq<Byte>, short: seq<Byte>)
    requires zeros == [0, 0, 0, 0] && whole == [1, 2, 3, 4, 5, 6, 7, 8] && short == [1, 2, 3, 4, 5]
    ensures Checksum(zeros) == 0xC704_DD7B && Checksum(whole) == 0xA314_1BDA && Checksum(short) == 0xCCD0_E62C
  {
    ZeroVector(zeros);
    WholeVector(whole, [1, 2, 3, 4], [5, 6, 7, 8]);
    PaddedVector(short, [1, 2, 3, 4], [5, 255, 255, 255]);
  }
}
