/**
 * The relay's flash store: two application partitions erased block by block and programmed in
 * place, with the cursor that makes out-of-order writing impossible.
 */
module FirmwareStore {
  import opened Bytes
  import opened OtaTypes
  import opened OtaBoard

  /** A partition whose first bytes are erased and whose others are as they were. */
  lemma ClearedIs(now: seq<Byte>, before: seq<Byte>, bytes: nat)
    requires |now| == |before|
    requires forall i | 0 <= i < |now| :: now[i] == (if i < bytes then ERASED else before[i])
    ensures now == Cleared(before, bytes)
  {
  }

  class FirmwareStoreEsp32 {
    const partitionA: array<Byte>
    const partitionB: array<Byte>
    var runningSlot: nat
    var writeSlot: nat
    var writeCursor: nat

    ghost predicate Valid()
      reads this
    {
      partitionA != partitionB && partitionA.Length == partitionB.Length && runningSlot < SLOT_COUNT
    }

    function View(): (store: Store)
      reads this, partitionA, partitionB
    {
      Store(runningSlot, partitionA.Length, [partitionA[..], partitionB[..]], writeSlot, writeCursor)
    }

    /** Two partitions of one size; nothing is open to programming until a slot is erased. */
    constructor (a: array<Byte>, b: array<Byte>, running: nat)
      requires a != b && a.Length == b.Length && running < SLOT_COUNT
      ensures Valid() && View() == Store(running, a.Length, [a[..], b[..]], SLOT_COUNT, 0)
    {
      partitionA, partitionB := a, b;
      runningSlot, writeSlot, writeCursor := running, SLOT_COUNT, 0;
    }

    function PartitionOf(slot: nat): (partition: array<Byte>)
      reads this
      requires Valid() && slot < SLOT_COUNT
      ensures partition == (if slot == 1 then partitionB else partitionA) && partition.Length == partitionA.Length
    {
      if slot == 1 then partitionB else partitionA
    }

    /** Erases block after block; the driver fails at block number `blocks`. */
    method EraseSlot(slot: nat, blocks: nat) returns (ok: bool)
      requires Valid()
      modifies this, partitionA, partitionB
      ensures Valid() && StoreResult(View(), ok) == OtaBoard.EraseSlot(old(View()), slot, blocks)
    {
      if slot >= SLOT_COUNT || slot == runningSlot {
        return false;
      }
      var partition := PartitionOf(slot);
      ok := EraseBlocks(partition, blocks);
      if ok {
        writeSlot := slot;
        writeCursor := 0;
      }
    }

    static method EraseBlocks(partition: array<Byte>, blocks: nat) returns (ok: bool)
      modifies partition
      ensures partition[..] == Cleared(old(partition[..]), blocks * ERASE_BLOCK_SIZE)
      ensures ok == (blocks * ERASE_BLOCK_SIZE >= partition.Length)
    {
      ghost var before := partition[..];
      var block, offset := 0, 0;
      while offset < partition.Length
        invariant block <= blocks && offset == block * ERASE_BLOCK_SIZE
        invariant forall i | 0 <= i < partition.Length :: partition[i] == (if i < offset then ERASED else before[i])
        decreases blocks - block
      {
        if block == blocks {
          ClearedIs(partition[..], before, offset);
          return false;
        }
        var end := Min(offset + ERASE_BLOCK_SIZE, partition.Length);
        forall i | offset <= i < end {
          partition[i] := ERASED;
        }
        block, offset := block + 1, offset + ERASE_BLOCK_SIZE;
      }
      ok := true;
      ClearedIs(partition[..], before, blocks * ERASE_BLOCK_SIZE);
    }

    method Program(slot: nat, offset: nat, data: seq<Byte>, write: Write) returns (ok: bool)
      requires Valid() && (write.Broken? ==> |write.residue| == |data|)
      modifies this, partitionA, partitionB
      ensures Valid() && StoreResult(View(), ok) == OtaBoard.Program(old(View()), slot, offset, data, write)
    {
      if slot >= SLOT_COUNT || slot == runningSlot || offset + |data| > partitionA.Length {
        return false;
      }
      if slot != writeSlot || offset != writeCursor {
        return false;
      }
      if |data| == 0 {
        return true;
      }
      var partition := PartitionOf(slot);
      Put(partition, offset, if write.Programmed? then data else write.residue);
      if write.Broken? {
        return false;
      }
      writeCursor := offset + |data|;
      return true;
    }

    static method Put(partition: array<Byte>, offset: nat, data: seq<Byte>)
      requires offset + |data| <= partition.Length
      modifies partition
      ensures partition[..] == Written(old(partition[..]), offset, data)
    {
      forall i | 0 <= i < |data| {
        partition[offset + i] := data[i];
      }
    }
  }
}
