/** Bytes, little-endian words and the optional value shared by every component. */
module Bytes {
  type Byte = b: int | 0 <= b < 256

  datatype Option<+T> = None | Some(value: T)

  const WORD_LIMIT: nat := 0x1_0000_0000

  function Min(a: int, b: int): int {
    if a <= b then a else b
  }

  function Max(a: int, b: int): int {
    if a >= b then a else b
  }

  /** The four little-endian bytes of a 32-bit word. */
  function U32(word: nat): (bytes: seq<Byte>)
    requires word < WORD_LIMIT
    ensures |bytes| == 4
  {
    var high: int := word / 256;
    var higher: int := high / 256;
    [word % 256, high % 256, higher % 256, higher / 256]
  }

  /** The word four little-endian bytes spell. */
  function Word(b0: int, b1: int, b2: int, b3: int): int {
    b0 + 256 * (b1 + 256 * (b2 + 256 * b3))
  }

  /** The 32-bit word stored little-endian at an offset. */
  function ReadU32(data: seq<Byte>, offset: nat): (word: nat)
    requires offset + 4 <= |data|
    ensures word < WORD_LIMIT
  {
    Word(data[offset], data[offset + 1], data[offset + 2], data[offset + 3])
  }

  /** Reading a stored word gives the word back. */
  lemma ReadOfU32(word: nat, data: seq<Byte>, offset: nat)
    requires word < WORD_LIMIT
    requires offset + 4 <= |data| && data[offset..offset + 4] == U32(word)
    ensures ReadU32(data, offset) == word
  {
    var stored := data[offset..offset + 4];
    assert stored[0] == data[offset] && stored[1] == data[offset + 1];
    assert stored[2] == data[offset + 2] && stored[3] == data[offset + 3];
  }

  /** Storing a word that was read reproduces the four bytes it was read from. */
  lemma U32OfRead(data: seq<Byte>, offset: nat)
    requires offset + 4 <= |data|
    ensures U32(ReadU32(data, offset)) == data[offset..offset + 4]
  {
    var b0: int, b1: int, b2: int, b3: int := data[offset], data[offset + 1], data[offset + 2], data[offset + 3];
    assert Word(b0, b1, b2, b3) / 256 == b1 + 256 * (b2 + 256 * b3);
    assert (b1 + 256 * (b2 + 256 * b3)) / 256 == b2 + 256 * b3;
  }
}
