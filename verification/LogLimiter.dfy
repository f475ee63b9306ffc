/**
 * The rate limit of the log stream: how many lines leave in a window and in any second, and where
 * every line written went.
 */
module LogLimiter {
  const MAX_LINES: nat := 50
  const WINDOW: nat := 1_000_000

  type Instant = t: int | 0 <= t < 0x1_0000_0000_0000_0000

  /** Unsigned: an instant before the start counts as long after it. */
  function Elapsed(now: Instant, since: Instant): nat {
    (now - since) % 0x1_0000_0000_0000_0000
  }

  datatype Limiter = Limiter(windowStart: Instant, windowCount: nat, windowDropped: nat, dropped: nat)

  const FRESH := Limiter(0, 0, 0, 0)

  /** What leaves: a written line by its rank, or a notice of how many were dropped; with its instant and window. */
  datatype Emission =
    | Line(time: Instant, window: Instant, rank: nat)
    | Notice(time: Instant, window: Instant, announced: nat)

  /** What was written so far, and everything that left. */
  datatype Journal = Journal(limiter: Limiter, out: seq<Emission>, written: nat, last: Instant)

  const START := Journal(FRESH, [], 0, 0)

  // ---- one line ----

  /** A window that is over gives way to one starting now, which first says what the old one dropped. */
  function Roll(j: Journal, time: Instant): Journal {
    var l := j.limiter;
    if Elapsed(time, l.windowStart) < WINDOW then j.(last := time)
    else if l.windowDropped == 0 then j.(limiter := l.(windowStart := time, windowCount := 0), last := time)
    else Journal(Limiter(time, 1, 0, l.dropped), j.out + [Notice(time, time, l.windowDropped)], j.written, time)
  }

  /** The line leaves if the window has room, and is counted otherwise. */
  function Admit(j: Journal, time: Instant): Journal {
    var l := j.limiter;
    if l.windowCount >= MAX_LINES then
      Journal(l.(windowDropped := l.windowDropped + 1, dropped := l.dropped + 1), j.out, j.written + 1, time)
    else
      Journal(l.(windowCount := l.windowCount + 1), j.out + [Line(time, l.windowStart, j.written)], j.written + 1, time)
  }

  function Take(j: Journal, time: Instant): Journal {
    Admit(Roll(j, time), time)
  }

  // ---- counting ----

  function InWindow(out: seq<Emission>, w: nat): nat {
    if |out| == 0 then 0 else InWindow(out[..|out| - 1], w) + (if out[|out| - 1].window == w then 1 else 0)
  }

  /** Emissions of the half-open second that starts there. */
  function InSecond(out: seq<Emission>, from: nat): nat {
    if |out| == 0 then 0
    else InSecond(out[..|out| - 1], from) + (if Within(out[|out| - 1], from) then 1 else 0)
  }

  predicate Within(e: Emission, from: nat) {
    from <= e.time < from + WINDOW
  }

  function Lines(out: seq<Emission>): nat {
    if |out| == 0 then 0 else Lines(out[..|out| - 1]) + (if out[|out| - 1].Line? then 1 else 0)
  }

  function Announced(out: seq<Emission>): nat {
    if |out| == 0 then 0
    else Announced(out[..|out| - 1]) + (if out[|out| - 1].Notice? then out[|out| - 1].announced else 0)
  }

  lemma Appended(out: seq<Emission>, e: Emission)
    ensures Lines(out + [e]) == Lines(out) + (if e.Line? then 1 else 0)
    ensures Announced(out + [e]) == Announced(out) + (if e.Notice? then e.announced else 0)
    ensures forall w :: InWindow(out + [e], w) == InWindow(out, w) + (if e.window == w then 1 else 0)
  {
    assert (out + [e])[..|out|] == out;
  }

  // ---- the invariant ----

  /** One emission lies in its window, at or a whole window before the current one. */
  predicate Placed(j: Journal, i: nat) {
    i < |j.out| ==>
      && j.out[i].window <= j.out[i].time < j.out[i].window + WINDOW
      && (j.out[i].window == j.limiter.windowStart || j.out[i].window + WINDOW <= j.limiter.windowStart)
      && (j.out[i].Line? ==> j.out[i].rank < j.written)
  }

  /** Two emissions share a window or have windows a second apart; lines leave in the order written, each once. */
  predicate Apart(out: seq<Emission>, i: nat, k: nat) {
    i < k < |out| ==>
      && (out[i].window == out[k].window || out[i].window + WINDOW <= out[k].window)
      && (out[i].Line? && out[k].Line? ==> out[i].rank < out[k].rank)
  }

  predicate Room(out: seq<Emission>, w: nat) {
    InWindow(out, w) <= MAX_LINES
  }

  ghost predicate Kept(j: Journal) {
    && j.limiter.windowStart <= j.last
    && j.limiter.windowCount == InWindow(j.out, j.limiter.windowStart) <= MAX_LINES
    && Lines(j.out) + j.limiter.dropped == j.written
    && Announced(j.out) + j.limiter.windowDropped == j.limiter.dropped
    && (forall i: nat {:trigger Placed(j, i)} :: Placed(j, i))
    && (forall i: nat, k: nat {:trigger Apart(j.out, i, k)} :: Apart(j.out, i, k))
    && (forall w: nat {:trigger Room(j.out, w)} :: Room(j.out, w))
  }

  // ---- every line keeps it ----

  /** Nothing emitted yet belongs to a window that starts a second after the current one. */
  lemma {:induction false} NothingAhead(j: Journal, out: seq<Emission>, w: nat)
    requires out <= j.out && j.limiter.windowStart + WINDOW <= w
    requires forall i: nat {:trigger Placed(j, i)} :: Placed(j, i)
    ensures InWindow(out, w) == 0
  {
    if |out| > 0 {
      assert Placed(j, |out| - 1);
      NothingAhead(j, out[..|out| - 1], w);
    }
  }

  /** One more emission, in the current window and at its instant, leaves the rest in place. */
  lemma EmitKeeps(j: Journal, e: Emission, after: Journal)
    requires Kept(j) && j.limiter.windowCount < MAX_LINES && after.out == j.out + [e]
    requires e.window == j.limiter.windowStart && e.window <= e.time < e.window + WINDOW
    requires e.Line? ==> e.rank == j.written && after.written == j.written + 1
    requires e.Notice? ==> after.written == j.written
    requires after.limiter == j.limiter.(windowCount := j.limiter.windowCount + 1,
                                         windowDropped := after.limiter.windowDropped)
    requires j.limiter.windowDropped == after.limiter.windowDropped + (if e.Notice? then e.announced else 0)
    requires after.last == j.last
    ensures Kept(after)
  {
    Appended(j.out, e);
    forall i: nat ensures Placed(after, i) {
      assert Placed(j, i);
    }
    forall i: nat, k: nat ensures Apart(after.out, i, k) {
      assert Apart(j.out, i, k) && Placed(j, i);
    }
    forall w: nat ensures Room(after.out, w) {
      assert Room(j.out, w);
    }
  }

  /** The window moves on, nothing having been emitted in the new one. */
  lemma MoveKeeps(j: Journal, time: Instant, after: Journal)
    requires Kept(j) && j.limiter.windowStart + WINDOW <= time
    requires after == j.(limiter := j.limiter.(windowStart := time, windowCount := 0), last := time)
    ensures Kept(after)
  {
    NothingAhead(j, j.out, time);
    forall i: nat ensures Placed(after, i) {
      assert Placed(j, i);
    }
  }

  lemma RollKeeps(j: Journal, time: Instant)
    requires Kept(j) && j.last <= time
    ensures Kept(Roll(j, time)) && Roll(j, time).last == time
    ensures time - Roll(j, time).limiter.windowStart < WINDOW && Roll(j, time).written == j.written
  {
    var l := j.limiter;
    if Elapsed(time, l.windowStart) < WINDOW {
      SameOut(j, Roll(j, time));
    } else {
      var moved := j.(limiter := l.(windowStart := time, windowCount := 0), last := time);
      MoveKeeps(j, time, moved);
      if l.windowDropped > 0 {
        EmitKeeps(moved, Notice(time, time, l.windowDropped), Roll(j, time));
      }
    }
  }

  lemma SameOut(j: Journal, after: Journal)
    requires Kept(j) && after == j.(last := after.last) && j.last <= after.last
    ensures Kept(after)
  {
    forall i: nat ensures Placed(after, i) {
      assert Placed(j, i);
    }
  }

  lemma TakeKeeps(j: Journal, time: Instant)
    requires Kept(j) && j.last <= time
    ensures Kept(Take(j, time)) && Take(j, time).last == time && Take(j, time).written == j.written + 1
  {
    RollKeeps(j, time);
    var r, after := Roll(j, time), Take(j, time);
    if r.limiter.windowCount < MAX_LINES {
      EmitKeeps(r, Line(time, r.limiter.windowStart, r.written), after);
    } else {
      forall i: nat ensures Placed(after, i) {
        assert Placed(r, i);
      }
    }
  }

  // ---- whole runs ----

  /** The journal after the first n lines. */
  function After(times: seq<Instant>, n: nat): Journal
    requires n <= |times|
  {
    if n == 0 then START else Take(After(times, n - 1), times[n - 1])
  }

  predicate NeverBack(times: seq<Instant>) {
    forall i, k | 0 <= i <= k < |times| :: times[i] <= times[k]
  }

  /** The journal of a run so far: kept, as long as the run, and last written at its last instant. */
  ghost predicate Follows(j: Journal, times: seq<Instant>, n: nat) {
    n <= |times| && Kept(j) && j.written == n && j.last == (if n == 0 then 0 else times[n - 1])
  }

  lemma StartFollows(times: seq<Instant>)
    ensures Follows(START, times, 0)
  {
  }

  lemma TakeFollows(j: Journal, times: seq<Instant>, n: nat)
    requires NeverBack(times) && n < |times| && Follows(j, times, n)
    ensures Follows(Take(j, times[n]), times, n + 1)
  {
    TakeKeeps(j, times[n]);
  }

  lemma {:induction false} RunsAreKept(times: seq<Instant>, n: nat)
    requires NeverBack(times) && n <= |times|
    ensures Follows(After(times, n), times, n)
  {
    if n == 0 {
      StartFollows(times);
    } else {
      RunsAreKept(times, n - 1);
      TakeFollows(After(times, n - 1), times, n - 1);
    }
  }

  /** Every line written left once, in order, or is counted dropped; what was announced and what this window dropped is what was dropped. */
  lemma LinesAreConserved(times: seq<Instant>, n: nat)
    requires NeverBack(times) && n <= |times|
    ensures var j := After(times, n);
      && Lines(j.out) + j.limiter.dropped == n
      && Announced(j.out) + j.limiter.windowDropped == j.limiter.dropped
      && forall i, k :: 0 <= i < k < |j.out| && j.out[i].Line? && j.out[k].Line? ==> j.out[i].rank < j.out[k].rank < n
  {
    RunsAreKept(times, n);
    var j := After(times, n);
    forall i, k | 0 <= i < k < |j.out| && j.out[i].Line? && j.out[k].Line? ensures j.out[i].rank < j.out[k].rank < n {
      assert Apart(j.out, i, k) && Placed(j, k);
    }
  }

  /** No window lets more than fifty emissions through, its notice included. */
  lemma WindowIsLimited(times: seq<Instant>, n: nat, w: nat)
    requires NeverBack(times) && n <= |times|
    ensures InWindow(After(times, n).out, w) <= MAX_LINES
  {
    RunsAreKept(times, n);
    assert Room(After(times, n).out, w);
  }

  // ---- which lines leave ----

  /** The start of the window a line falls in: windows last a second, and the next one starts with a line. */
  function WindowOf(times: seq<Instant>, i: nat): Instant
    requires i < |times|
  {
    var current := if i == 0 then 0 else WindowOf(times, i - 1);
    if times[i] - current < WINDOW then current else times[i]
  }

  /** What had left when a line came to the limit, the notice it may have set off included. */
  function Ahead(times: seq<Instant>, i: nat): seq<Emission>
    requires i < |times|
  {
    Roll(After(times, i), times[i]).out
  }

  predicate Left(out: seq<Emission>, rank: nat) {
    exists k :: 0 <= k < |out| && out[k].Line? && out[k].rank == rank
  }

  /** Time that never runs back: the window is over once a second has passed since it started. */
  lemma RollIsExact(j: Journal, time: Instant)
    requires Kept(j) && j.last <= time
    ensures var l := j.limiter;
      Roll(j, time) ==
        if time - l.windowStart < WINDOW then j.(last := time)
        else if l.windowDropped == 0 then j.(limiter := l.(windowStart := time, windowCount := 0), last := time)
        else Journal(Limiter(time, 1, 0, l.dropped), j.out + [Notice(time, time, l.windowDropped)], j.written, time)
  {
  }

  /** The window in force after a line, from the one before it. */
  predicate Moves(was: Journal, time: Instant, now: Journal) {
    now.limiter.windowStart == if time - was.limiter.windowStart < WINDOW then was.limiter.windowStart else time
  }

  lemma WindowMoves(j: Journal, time: Instant)
    requires Kept(j) && j.last <= time
    ensures Moves(j, time, Roll(j, time)) && Moves(j, time, Take(j, time))
  {
    RollIsExact(j, time);
  }

  lemma WindowStep(times: seq<Instant>, i: nat)
    requires NeverBack(times) && i < |times|
    ensures Moves(After(times, i), times[i], Roll(After(times, i), times[i])) && Moves(After(times, i), times[i], After(times, i + 1))
  {
    RunsAreKept(times, i);
    WindowMoves(After(times, i), times[i]);
  }

  lemma {:induction false} WindowIsKept(times: seq<Instant>, i: nat)
    requires NeverBack(times) && i < |times|
    ensures WindowOf(times, i) == After(times, i + 1).limiter.windowStart
  {
    WindowStep(times, i);
    if i > 0 {
      WindowIsKept(times, i - 1);
    }
  }

  lemma TakeAdmits(j: Journal, time: Instant)
    requires Kept(j) && j.last <= time
    ensures var r := Roll(j, time);
      && r.written == j.written
      && Take(j, time).out ==
         if InWindow(r.out, r.limiter.windowStart) < MAX_LINES then r.out + [Line(time, r.limiter.windowStart, j.written)] else r.out
  {
    RollKeeps(j, time);
  }

  /** A line is dropped exactly if fifty emissions of its window left before it; otherwise it leaves as it was written. */
  lemma DroppedExactlyIfFull(times: seq<Instant>, i: nat)
    requires NeverBack(times) && i < |times|
    ensures var w, ahead, out := WindowOf(times, i), Ahead(times, i), After(times, i + 1).out;
      && (Left(out, i) <==> InWindow(ahead, w) < 50)
      && out == (if InWindow(ahead, w) < 50 then ahead + [Line(times[i], w, i)] else ahead)
      && After(times, i + 1).limiter.dropped == After(times, i).limiter.dropped + (if InWindow(ahead, w) < 50 then 0 else 1)
  {
    RunsAreKept(times, i);
    WindowStep(times, i);
    WindowIsKept(times, i);
    var j := After(times, i);
    TakeAdmits(j, times[i]);
    RollKeeps(j, times[i]);
    var ahead, out := Ahead(times, i), After(times, i + 1).out;
    if out != ahead {
      assert out[|ahead|].rank == i;
    }
    forall k | 0 <= k < |ahead| && ahead[k].Line? ensures ahead[k].rank < i {
      assert Placed(Roll(j, times[i]), k);
    }
  }

  /** Lines dropped that no notice told of yet. */
  function Untold(j: Journal): int {
    j.limiter.dropped - Announced(j.out)
  }

  /** A line that opens a window tells first of all that was dropped untold; any other adds nothing. */
  predicate Tells(was: Journal, time: Instant, ahead: seq<Emission>) {
    && var opens := time - was.limiter.windowStart >= WINDOW;
    && ahead == (if opens && Untold(was) > 0 then was.out + [Notice(time, time, Untold(was))] else was.out)
    && (opens ==> Announced(ahead) == was.limiter.dropped)
  }

  lemma RollTells(was: Journal, time: Instant)
    requires Kept(was) && was.last <= time
    ensures Tells(was, time, Roll(was, time).out)
  {
    RollIsExact(was, time);
    Appended(was.out, Notice(time, time, was.limiter.windowDropped));
  }

  /** The first line of a window is preceded by a notice exactly if lines were dropped that no notice told of, and it tells of all of them. */
  lemma NoticeIsExact(times: seq<Instant>, i: nat)
    requires NeverBack(times) && i < |times|
    ensures Tells(After(times, i), times[i], Ahead(times, i))
  {
    RunsAreKept(times, i);
    RollTells(After(times, i), times[i]);
  }

  // ---- any second ----

  /** The first emission of a second, if it has one. */
  lemma {:induction false} FirstIn(out: seq<Emission>, from: nat) returns (i: nat)
    requires InSecond(out, from) > 0
    ensures i < |out| && Within(out[i], from) && forall k | 0 <= k < i :: !Within(out[k], from)
  {
    var n := |out| - 1;
    if InSecond(out[..n], from) > 0 {
      i := FirstIn(out[..n], from);
      forall k | 0 <= k < i ensures !Within(out[k], from) {
        assert !Within(out[..n][k], from);
      }
    } else {
      NoneIn(out[..n], from);
      i := n;
      forall k | 0 <= k < n ensures !Within(out[k], from) {
        assert !Within(out[..n][k], from);
      }
    }
  }

  lemma {:induction false} NoneIn(out: seq<Emission>, from: nat)
    requires InSecond(out, from) == 0
    ensures forall k | 0 <= k < |out| :: !Within(out[k], from)
  {
    if |out| > 0 {
      NoneIn(out[..|out| - 1], from);
      forall k | 0 <= k < |out| ensures !Within(out[k], from) {
        if k < |out| - 1 {
          assert !Within(out[..|out| - 1][k], from);
        }
      }
    }
  }

  /** Emissions of a second that all belong to one of two windows are no more than those windows hold. */
  lemma {:induction false} TwoWindows(out: seq<Emission>, from: nat, a: nat, b: nat)
    requires a != b && forall k | 0 <= k < |out| && Within(out[k], from) :: out[k].window == a || out[k].window == b
    ensures InSecond(out, from) <= InWindow(out, a) + InWindow(out, b)
  {
    if |out| > 0 {
      TwoWindows(out[..|out| - 1], from, a, b);
    }
  }

  /** The other window a second can reach into: a second window start fits in no further. */
  ghost function OtherWindow(out: seq<Emission>, from: nat, a: nat): nat {
    if exists k :: 0 <= k < |out| && Within(out[k], from) && out[k].window != a then
      var k :| 0 <= k < |out| && Within(out[k], from) && out[k].window != a;
      out[k].window
    else a + 1
  }

  /** At most a hundred emissions in any half-open second, notices included. */
  lemma SecondIsLimited(times: seq<Instant>, n: nat, from: nat)
    requires NeverBack(times) && n <= |times|
    ensures InSecond(After(times, n).out, from) <= 2 * MAX_LINES
  {
    RunsAreKept(times, n);
    var j := After(times, n);
    if InSecond(j.out, from) > 0 {
      var first := FirstIn(j.out, from);
      var a := j.out[first].window;
      var b := OtherWindow(j.out, from, a);
      forall k | 0 <= k < |j.out| && Within(j.out[k], from) ensures j.out[k].window == a || j.out[k].window == b {
        if j.out[k].window != a {
          SameOther(j, from, first, k, b);
        }
      }
      TwoWindows(j.out, from, a, b);
      assert Room(j.out, a) && Room(j.out, b);
    }
  }

  lemma SameOther(j: Journal, from: nat, first: nat, k: nat, b: nat)
    requires Kept(j) && first < |j.out| && k < |j.out| && Within(j.out[first], from) && Within(j.out[k], from)
    requires forall i | 0 <= i < first :: !Within(j.out[i], from)
    requires j.out[k].window != j.out[first].window && b == OtherWindow(j.out, from, j.out[first].window)
    ensures j.out[k].window == b
  {
    var m :| 0 <= m < |j.out| && Within(j.out[m], from) && j.out[m].window != j.out[first].window && j.out[m].window == b;
    assert Placed(j, first) && Placed(j, k) && Placed(j, m);
    assert Apart(j.out, first, k) && Apart(j.out, first, m) && Apart(j.out, k, m) && Apart(j.out, m, k);
  }

  // ---- the provider object ----

  class LogProvider {
    var windowStart: Instant
    var windowCount: nat
    var windowDropped: nat
    var dropped: nat

    // What left, and how much was written: history the source does not keep.
    ghost var out: seq<Emission>
    ghost var written: nat
    ghost var last: Instant

    ghost function State(): Journal
      reads this
    {
      Journal(Limiter(windowStart, windowCount, windowDropped, dropped), out, written, last)
    }

    constructor ()
      ensures State() == START
    {
      windowStart, windowCount, windowDropped, dropped := 0, 0, 0, 0;
      out, written, last := [], 0, 0;
    }

    method Emit(ghost e: Emission)
      modifies `out
      ensures out == old(out) + [e]
    {
      out := out + [e];
    }

    /** Lets the line through or counts it; a window that is over first says what it dropped. */
    method Write(time: Instant)
      modifies this
      ensures State() == Take(old(State()), time)
    {
      if Elapsed(time, windowStart) >= WINDOW {
        windowStart := time;
        windowCount := 0;
        if windowDropped > 0 {
          Emit(Notice(time, time, windowDropped));
          windowCount := windowCount + 1;
          windowDropped := 0;
        }
      }
      last := time;
      if windowCount >= MAX_LINES {
        windowDropped := windowDropped + 1;
        dropped := dropped + 1;
        written := written + 1;
        return;
      }
      windowCount := windowCount + 1;
      Emit(Line(time, windowStart, written));
      written := written + 1;
    }
  }
}
