/**
 * The slot decision of a reset: a staged image gets one trial, a trial already spent is rolled back,
 * anything else runs the slot the metadata prefers.
 */
module OtaBoot {
  import opened Bytes
  import opened OtaTypes
  import opened OtaBoard

  datatype Boot = Boot(slot: nat, meta: Meta)

  /** The first slot in a state. */
  function FindSlot(meta: Meta, wanted: SlotState): Option<nat> {
    if meta.stateA == wanted then Some(0) else if meta.stateB == wanted then Some(1) else None
  }

  /** The slot to run, and the metadata written before it runs. */
  function DecideBoot(meta: Meta): Boot {
    match FindSlot(meta, Staged)
    case Some(slot) => Boot(slot, Mark(meta, slot, OnTrial).(trialAttempted := true))
    case None =>
      match FindSlot(meta, OnTrial)
      case Some(slot) =>
        if meta.trialAttempted then Boot(meta.activeSlot, Mark(meta, slot, Bad).(trialAttempted := false))
        else Boot(slot, meta.(trialAttempted := true))
      case None => Boot(meta.activeSlot, meta)
  }

  // ---- one trial, no more ----

  /** The metadata of a board whose image in the other slot has just been staged. */
  predicate JustStaged(meta: Meta, slot: nat) {
    && slot < SLOT_COUNT && meta.activeSlot == 1 - slot && !meta.trialAttempted
    && StateOf(meta, slot) == Staged && StateOf(meta, 1 - slot) == Valid
  }

  /** The running trial image vouches for itself. */
  function Vouched(meta: Meta, slot: nat): Meta {
    Mark(meta, slot, Valid).(activeSlot := slot, trialAttempted := false)
  }

  /**
   * A staged image runs at the next reset, on trial; if it vouches for itself it runs at every
   * later one, and if it does not, the next reset marks it bad and the old slot runs from then on.
   */
  lemma OneTrialOnly(meta: Meta, slot: nat)
    requires JustStaged(meta, slot)
    ensures var first := DecideBoot(meta);
      && first.slot == slot && StateOf(first.meta, slot) == OnTrial
      && var kept := Vouched(first.meta, slot);
      && DecideBoot(kept) == Boot(slot, kept)
      && var second := DecideBoot(first.meta);
      && second.slot == 1 - slot && StateOf(second.meta, slot) == Bad && StateOf(second.meta, 1 - slot) == Valid
      && DecideBoot(second.meta) == Boot(1 - slot, second.meta)
  {
  }

  /** Whatever the metadata says, a reset runs the preferred slot or one whose only trial is then spent. */
  lemma BootIsVouched(meta: Meta)
    requires meta.activeSlot < SLOT_COUNT
    ensures var boot := DecideBoot(meta);
      && boot.slot < SLOT_COUNT
      && (boot.slot == meta.activeSlot || StateOf(boot.meta, boot.slot) == OnTrial)
      && (StateOf(boot.meta, boot.slot) == OnTrial && boot.slot != meta.activeSlot ==> boot.meta.trialAttempted)
  {
  }
}
