/**
 * A board that stops answering: under a clock that moves forward and no message at all, every
 * busy phase but TESTING gives up after finitely many ticks, and TESTING never does.
 */
module OtaSilence {
  import opened Bytes
  import opened OtaTypes
  import opened OtaSession
  import opened OtaWindow

  /** The instants of the ticks, the sends the link accepts and the bundle file seen at each. */
  datatype Schedule = Schedule(clock: nat -> nat, links: nat -> nat, files: nat -> Option<Bundle>)

  ghost predicate Advancing(times: Schedule) {
    forall i: nat, j: nat :: i < j ==> times.clock(i) < times.clock(j)
  }

  function TickAt(cfg: Config, hub: Hub, times: Schedule, i: nat): Hub {
    Tick(cfg, hub, times.files(i), times.clock(i), times.links(i)).hub
  }

  /** The hub after n ticks and no message, from tick i of the schedule on. */
  function Ticks(cfg: Config, hub: Hub, times: Schedule, i: nat, n: nat): Hub
    decreases n
  {
    if n == 0 then hub else Ticks(cfg, TickAt(cfg, hub, times, i), times, i + 1, n - 1)
  }

  // The measure, most significant first: the phase still to come, the retries left, the bytes
  // the window has not carried yet, and the time left before the deadline of the phase.

  function Stage(hub: Hub): nat {
    if hub.phase.Rebooting? then 1 else 0
  }

  function TriesLeft(cfg: Config, hub: Hub): nat {
    match hub.phase
    case Query => Max(0, cfg.statusTries - hub.statusTries)
    case Transfer => Max(0, cfg.maxRetries - hub.tx.stalledRounds)
    case Reverting => Max(0, cfg.maxAckTries - hub.ackTries)
    case _ => 0
  }

  function Unsent(hub: Hub): nat {
    if hub.phase.Transfer? then Max(0, hub.tx.total - hub.tx.sent) else 0
  }

  function DeadlineOf(hub: Hub): nat {
    match hub.phase
    case Query => hub.nextStatus
    case Transfer => hub.tx.chunkDeadline
    case Rebooting => hub.settleUntil
    case _ => hub.deadline
  }

  function Wait(hub: Hub, now: nat): nat {
    Max(0, DeadlineOf(hub) - now)
  }

  /** The measure goes down lexicographically. */
  predicate Lower(cfg: Config, before: Hub, now: nat, after: Hub, later: nat) {
    || Stage(after) < Stage(before)
    || (Stage(after) == Stage(before) && TriesLeft(cfg, after) < TriesLeft(cfg, before))
    || (Stage(after) == Stage(before) && TriesLeft(cfg, after) == TriesLeft(cfg, before)
        && Unsent(after) < Unsent(before))
    || (Stage(after) == Stage(before) && TriesLeft(cfg, after) == TriesLeft(cfg, before)
        && Unsent(after) == Unsent(before) && Wait(after, later) < Wait(before, now))
  }

  /** One silent tick of the transfer fails it, spends a retry, sends a chunk or waits. */
  lemma SilentTransfer(cfg: Config, hub: Hub, now: nat, later: nat, budget: nat)
    requires Inv(hub) && hub.phase.Transfer? && now < later
    ensures var after := Tick(cfg, hub, None, now, budget).hub;
      after.phase.Failed? || (after.phase.Transfer? && Lower(cfg, hub, now, after, later))
  {
    PumpSends(cfg, Out(hub.(tx := GoBack(cfg, hub.tx, now)), [], budget), now);
  }

  /** One silent tick ends the session or brings its end closer. */
  lemma SilentTick(cfg: Config, hub: Hub, reload: Option<Bundle>, now: nat, later: nat, budget: nat)
    requires Inv(hub) && Busy(hub.phase) && !hub.phase.Testing? && now < later
    ensures var after := Tick(cfg, hub, reload, now, budget).hub;
      Inv(after) && !after.phase.Testing? && (Busy(after.phase) ==> Lower(cfg, hub, now, after, later))
  {
    TickKeepsInv(cfg, hub, reload, now, budget);
    if hub.phase.Transfer? {
      SilentTransfer(cfg, hub, now, later, budget);
    }
  }

  /** A silent board always ends the session: the lemma computes how many ticks that takes. */
  lemma {:induction false} SilentBoardEnds(cfg: Config, hub: Hub, times: Schedule, i: nat) returns (n: nat)
    requires Inv(hub) && Busy(hub.phase) && !hub.phase.Testing? && Advancing(times)
    ensures !Busy(Ticks(cfg, hub, times, i, n).phase)
    decreases Stage(hub), TriesLeft(cfg, hub), Unsent(hub), Wait(hub, times.clock(i))
  {
    var after := TickAt(cfg, hub, times, i);
    assert times.clock(i) < times.clock(i + 1);
    SilentTick(cfg, hub, times.files(i), times.clock(i), times.clock(i + 1), times.links(i));
    if Busy(after.phase) {
      var more := SilentBoardEnds(cfg, after, times, i + 1);
      n := more + 1;
    } else {
      n := 1;
      assert Ticks(cfg, after, times, i + 1, 0) == after;
    }
  }

  /** The trial has no deadline: while the link accepts the polls, silence never leaves it. */
  lemma {:induction false} SilentTrialNeverEnds(cfg: Config, hub: Hub, times: Schedule, i: nat, n: nat)
    requires hub.phase.Testing?
    requires forall k: nat :: times.links(k) > 0
    ensures Ticks(cfg, hub, times, i, n).phase.Testing?
    decreases n
  {
    if n > 0 {
      SilentTrialNeverEnds(cfg, TickAt(cfg, hub, times, i), times, i + 1, n - 1);
    }
  }
}
