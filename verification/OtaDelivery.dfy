/**
 * Whole runs of hub, link and board: what the flash holds, what a finished transfer proves, and
 * exactly which runs lose bytes that were acknowledged.
 */
module OtaDelivery {
  import opened OtaTypes
  import opened OtaSession
  import opened OtaWindow
  import opened OtaBoard
  import opened OtaLink
  import opened OtaFlash

  datatype Run = Run(states: seq<Sys>, events: seq<Event>)

  /** Nothing sent, nothing drawn, no session on either end. */
  predicate Initial(sys: Sys) {
    && sys.hub == FRESH_HUB
    && ValidStore(sys.board.store) && !sys.board.active
    && sys.toBoard == {} && sys.toHub == {} && sys.images == map[] && sys.staged == map[] && sys.placed == map[]
  }

  predicate Steps(cfg: Config, run: Run, i: nat)
    requires |run.states| == |run.events| + 1 && i < |run.events|
  {
    && Ready(run.states[i].board)
    && Enabled(run.states[i], run.events[i])
    && run.states[i + 1] == Next(cfg, run.states[i], run.events[i])
  }

  predicate Valid(cfg: Config, run: Run) {
    && |run.states| == |run.events| + 1
    && Initial(run.states[0])
    && (forall i :: 0 <= i < |run.events| ==> Steps(cfg, run, i))
  }

  /** Every state of every run is sound. */
  lemma {:induction false} RunsAreSound(cfg: Config, run: Run, n: nat)
    requires Valid(cfg, run) && n < |run.states|
    ensures Sound(run.states[n])
  {
    if n > 0 {
      RunsAreSound(cfg, run, n - 1);
      assert Steps(cfg, run, n - 1);
      NextKeepsSound(cfg, run.states[n - 1], run.events[n - 1]);
    }
  }

  /**
   * Go-back-N safety end to end, for every loss, duplication, reordering and delay: below the
   * board's cursor the flash is the image its session was drawn for, and a hub that was told the
   * finish succeeded knows the board staged its whole image, byte for byte.
   */
  lemma TransferIsExact(cfg: Config, run: Run, n: nat)
    requires Valid(cfg, run) && n < |run.states|
    ensures var sys := run.states[n];
      var u := sys.board;
      u.active ==>
        && ValidStore(u.store)
        && u.session in sys.images && u.store.writeSlot == u.targetSlot == 1 - u.store.runningSlot
        && u.store.writeCursor <= |sys.images[u.session]| <= |u.store.slots[u.targetSlot]|
        && u.store.slots[u.targetSlot][..u.store.writeCursor] == sys.images[u.session][..u.store.writeCursor]
    ensures var sys := run.states[n];
      sys.hub.phase.Rebooting? ==> sys.hub.session in sys.staged && sys.staged[sys.hub.session] == Source(sys.hub)
  {
    RunsAreSound(cfg, run, n);
    var sys := run.states[n];
    if sys.hub.phase.Rebooting? {
      assert Credible(sys.images, sys.staged, Ack(sys.hub.session, OpFinish, Ok));
    }
  }

  // ---- acknowledged bytes and the flash ----

  lemma InitiallySettled(sys: Sys)
    requires Initial(sys)
    ensures Settled(sys)
  {
    forall session: nat ensures Roomy(sys, session) {
    }
  }

  lemma {:induction false} RunsAreSettled(cfg: Config, run: Run, n: nat)
    requires Valid(cfg, run) && n < |run.states|
    ensures Settled(run.states[n])
  {
    if n == 0 {
      InitiallySettled(run.states[0]);
    } else {
      RunsAreSettled(cfg, run, n - 1);
      RunsAreSound(cfg, run, n - 1);
      assert Steps(cfg, run, n - 1);
      NextKeepsSettled(cfg, run.states[n - 1], run.events[n - 1]);
    }
  }

  ghost predicate StoredUpTo(run: Run, n: nat)
    requires n < |run.states|
  {
    forall i :: 0 <= i <= n ==> Stored(run.states[i])
  }

  ghost predicate UndamagedUpTo(run: Run, n: nat)
    requires n < |run.states| && n <= |run.events|
  {
    forall i :: 0 <= i < n ==> !Damages(run.states[i], run.events[i])
  }

  ghost predicate UntouchedUpTo(run: Run, n: nat)
    requires n < |run.states| && n <= |run.events|
  {
    forall i :: 0 <= i < n ==> !Touches(run.states[i], run.events[i])
  }

  /** Over every run, acknowledged bytes are in the flash all along exactly if no event damaged any. */
  lemma {:induction false} RunsKeepAcknowledged(cfg: Config, run: Run, n: nat)
    requires Valid(cfg, run) && n < |run.states|
    ensures StoredUpTo(run, n) <==> UndamagedUpTo(run, n)
  {
    if n > 0 {
      RunsKeepAcknowledged(cfg, run, n - 1);
      RunsAreSound(cfg, run, n - 1);
      RunsAreSettled(cfg, run, n - 1);
      assert Steps(cfg, run, n - 1);
      if StoredUpTo(run, n - 1) {
        StoredUnlessDamaged(cfg, run.states[n - 1], run.events[n - 1]);
      }
    }
  }

  /** While no begin touches the slot that holds them, acknowledged bytes are in the flash. */
  lemma {:induction false} UntouchedIsIntact(cfg: Config, run: Run, n: nat)
    requires Valid(cfg, run) && n < |run.states| && UntouchedUpTo(run, n)
    ensures Intact(run.states[n])
  {
    if n > 0 {
      UntouchedIsIntact(cfg, run, n - 1);
      RunsAreSound(cfg, run, n - 1);
      RunsAreSettled(cfg, run, n - 1);
      assert Steps(cfg, run, n - 1);
      assert !Touches(run.states[n - 1], run.events[n - 1]);
      IntactUnlessTouched(cfg, run.states[n - 1], run.events[n - 1]);
    }
  }

  /** No image drawn so far begins with what an erase leaves. */
  ghost predicate Headed(sys: Sys) {
    forall session :: session in sys.images ==> |sys.images[session]| > 0 ==> sys.images[session][0] != ERASED
  }

  lemma {:induction false} RunsAreHeaded(cfg: Config, run: Run, n: nat)
    requires Valid(cfg, run) && n < |run.states|
    ensures Headed(run.states[n])
  {
    if n > 0 {
      RunsAreHeaded(cfg, run, n - 1);
      HeadedStep(cfg, run, n);
    }
  }

  lemma HeadedStep(cfg: Config, run: Run, n: nat)
    requires Valid(cfg, run) && 0 < n < |run.states| && Headed(run.states[n - 1])
    ensures Headed(run.states[n])
  {
    RunsAreSound(cfg, run, n - 1);
    assert Steps(cfg, run, n - 1);
    NextKeepsHeaded(cfg, run.states[n - 1], run.events[n - 1]);
  }

  /** A nonce is drawn for an image of a consistent bundle. */
  lemma NextKeepsHeaded(cfg: Config, sys: Sys, ev: Event)
    requires Sound(sys) && Headed(sys) && Enabled(sys, ev)
    ensures Headed(Next(cfg, sys, ev))
  {
    if ev.HubCall? {
      StepKeepsInv(cfg, sys.hub, ev.call, ev.now, ev.budget);
    }
  }

  /**
   * Images begin with a header, so the exact condition is on the begins alone: acknowledged bytes
   * are in the flash all along exactly if no begin that is admitted and writes its metadata erases
   * a block of the slot that holds them, or opens their session anew in the other slot.
   */
  lemma {:induction false} OnlyBeginsLoseBytes(cfg: Config, run: Run, n: nat)
    requires Valid(cfg, run) && n < |run.states|
    ensures StoredUpTo(run, n) <==> UntouchedUpTo(run, n)
  {
    if n > 0 {
      OnlyBeginsLoseBytes(cfg, run, n - 1);
      RunsAreSound(cfg, run, n - 1);
      RunsAreSettled(cfg, run, n - 1);
      assert Steps(cfg, run, n - 1);
      if UntouchedUpTo(run, n - 1) {
        UntouchedIsIntact(cfg, run, n - 1);
        RunsAreHeaded(cfg, run, n - 1);
        LostByTouch(cfg, run.states[n - 1], run.events[n - 1]);
      }
    }
  }

  lemma LostByTouch(cfg: Config, sys: Sys, ev: Event)
    requires Sound(sys) && Settled(sys) && Intact(sys) && Enabled(sys, ev) && Headed(sys)
    ensures Stored(Next(cfg, sys, ev)) <==> !Touches(sys, ev)
  {
    StoredUnlessDamaged(cfg, sys, ev);
    if Touches(sys, ev) {
      var k: nat :| Acknowledged(sys, k) && 0 < k;
      TouchIsDamage(sys, ev);
    } else if Damages(sys, ev) {
      DamageIsTouch(cfg, sys, ev);
    }
  }

  /** So over every such run what the hub counts as acknowledged is in the flash; in VERIFYING, the whole image. */
  lemma AcknowledgedIsInFlash(cfg: Config, run: Run, n: nat)
    requires Valid(cfg, run) && n < |run.states| && (UndamagedUpTo(run, n) || UntouchedUpTo(run, n))
    requires PastErase(run.states[n].hub.phase) && run.states[n].hub.tx.acked > 0
    ensures var sys := run.states[n];
      && sys.hub.session in sys.placed && sys.placed[sys.hub.session] < |sys.board.store.slots|
      && var slot, image, acked := sys.board.store.slots[sys.placed[sys.hub.session]], Source(sys.hub), sys.hub.tx.acked;
      && acked <= |image| <= |slot| && slot[..acked] == image[..acked]
      && (sys.hub.phase.Verifying? ==> slot[..|image|] == image)
  {
    if UntouchedUpTo(run, n) {
      UntouchedIsIntact(cfg, run, n);
    } else {
      RunsKeepAcknowledged(cfg, run, n);
    }
    RunsAreSound(cfg, run, n);
    RunsAreSettled(cfg, run, n);
    AckedIsInFlash(run.states[n]);
  }
}
