/** Messages and values of the firmware update wire, shared by the hub and the board. */
module OtaTypes {
  import opened Bytes

  const SLOT_COUNT: nat := 2
  const CHUNK_DATA_SIZE: nat := 240
  const CHUNK_ACK_WINDOW: nat := 16
  const IMAGE_HEADER_SIZE: nat := 512
  const ERASED: Byte := 255

  datatype Phase =
    | Idle | Query | Erasing | Transfer | Verifying | Rebooting | WaitingBoard
    | Testing | Confirmed | RolledBack | Reverting | Failed

  datatype Verdict = NoVerdict | UpdateConfirmed | UpdateRolledBack | Reverted | UpdateFailed

  datatype SlotState = Empty | Staged | OnTrial | Valid | Bad

  datatype Op = OpBegin | OpChunk | OpFinish | OpRevert | OpAbort | OpUnspecified

  datatype Result =
    | Ok | DeniedArmed | DeniedVoltage | DeniedBusy | BadSession | BadState | BadImage | CrcMismatch | StoreFailure

  datatype SlotInfo = SlotInfo(state: SlotState, buildEpoch: nat)

  /** One status message: what the board says about itself. */
  datatype Status = Status(mcu: nat, runningSlot: nat, slotA: SlotInfo, slotB: SlotInfo,
                           updaterBusy: bool, slotSize: nat, maxChunkData: nat)

  datatype Msg =
    | StatusRequest
    | Begin(session: nat, imageSize: nat, imageCrc: nat)
    | Chunk(session: nat, offset: nat, data: seq<Byte>)
    | Finish(session: nat)
    | AbortSession(session: nat)
    | Revert
    | Reboot
    | StatusReport(status: Status)
    | Ack(session: nat, op: Op, result: Result)
    | ChunkAck(session: nat, nextOffset: nat)

  /** One image of a bundle: the size and checksum the manifest announces, and the bytes. */
  datatype Image = Image(size: nat, crc32: nat, bytes: seq<Byte>)

  /** A bundle as the loader hands it over; no image means no bundle is loaded. */
  datatype Bundle = Bundle(mcuId: nat, buildEpoch: nat, images: seq<Image>)

  const NO_BUNDLE := Bundle(0, 0, [])

  /**
   * What every loaded bundle satisfies: each announced size is the size of the bytes, and no image
   * begins with what an erase leaves, since all begin with a header.
   */
  predicate Consistent(bundle: Bundle) {
    forall i :: 0 <= i < |bundle.images| ==>
      bundle.images[i].size == |bundle.images[i].bytes| > 0 && bundle.images[i].bytes[0] != ERASED
  }

  /** Image N fills slot N, the one image fills either slot. */
  function FindImage(bundle: Bundle, slot: nat): Option<Image> {
    if slot >= SLOT_COUNT || |bundle.images| == 0 then None
    else Some(bundle.images[Min(slot, |bundle.images| - 1)])
  }
}
