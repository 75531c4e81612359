/** Catch-up of missed events: which window of time each run scans, and when successive windows leave no hole. */
module Catchup {
  import opened Common
  import opened EventStore

  /** Whole seconds, both ends included. */
  datatype Window = Window(fromSec: int, untilSec: int)

  datatype CatchupEnv = CatchupEnv(maxWindowMs: nat, overlapMs: nat)

  function FloorSec(ms: int): (s: int)
    ensures s * 1000 <= ms < (s + 1) * 1000
  {
    ms / 1000
  }

  function CeilSec(ms: int): (s: int)
    ensures (s - 1) * 1000 < ms <= s * 1000
  {
    -((-ms) / 1000)
  }

  /** `planCatchupWindow` for a wallet with a cursor. */
  function PlanWindow(env: CatchupEnv, cursor: int, now: int): Option<Window> {
    var from := Max(cursor - env.overlapMs, now - env.maxWindowMs);
    if from >= now then None else Some(Window(FloorSec(from), CeilSec(now)))
  }

  predicate Covers(w: Window, sec: int) {
    w.fromSec <= sec <= w.untilSec
  }

  /**
   The planned window holds exactly the seconds that touch the wanted stretch of
   time, from the cursor less the overlap, but no further back than the maximum, up to now.
   */
  lemma PlanIsTight(env: CatchupEnv, cursor: int, now: int, sec: int)
    ensures PlanWindow(env, cursor, now).Some? <==> cursor < now + env.overlapMs && env.maxWindowMs > 0
    ensures PlanWindow(env, cursor, now).Some? ==>
              (Covers(PlanWindow(env, cursor, now).value, sec)
               <==> Max(cursor - env.overlapMs, now - env.maxWindowMs) < (sec + 1) * 1000 && (sec - 1) * 1000 < now)
  {
    if PlanWindow(env, cursor, now).Some? {
      var from := Max(cursor - env.overlapMs, now - env.maxWindowMs);
      assert FloorSec(from) <= sec <==> from < (sec + 1) * 1000;
      assert sec <= CeilSec(now) <==> (sec - 1) * 1000 < now;
    }
  }

  // ---- Runs for one wallet ----

  /** A run that scanned its window, with the cursor it had read and the time it planned at. */
  datatype Scan = Scan(window: Window, cursor: int, plannedAt: int)

  /** Where the run in flight stands between two awaits. */
  datatype Phase = Idle | GotCursor(cursor: Option<int>) | Seeding(at: int) | Scanning(scan: Scan)

  /** `scans` logs the windows scanned to their end and `live` the instants live events moved the cursor to. */
  datatype Tracking = Tracking(cursor: Option<int>, phase: Phase, scans: seq<Scan>, live: set<int>)

  const UNTRACKED := Tracking(None, Idle, [], {})

  /** A scan that reaches its end is followed by the update of the cursor, which may fail with or without effect. */
  datatype Action =
    | ReadCursor
    | PlanRun(now: int)
    | SeedEnds(fault: Fault)
    | ScanThrows
    | AdvanceEnds(fault: Fault)
    | LiveEvent(at: int)
    | Crash

  function Advanced(cursor: Option<int>, at: int): Option<int> {
    Some(if cursor.Some? then Max(cursor.value, at) else at)
  }

  function Step(env: CatchupEnv, s: Tracking, a: Action): Tracking {
    match a
    case ReadCursor => if s.phase.Idle? then s.(phase := GotCursor(s.cursor)) else s
    case PlanRun(now) =>
      if !s.phase.GotCursor? then s
      else if s.phase.cursor.None? then s.(phase := Seeding(now))
      else
        var window := PlanWindow(env, s.phase.cursor.value, now);
        s.(phase := if window.None? then Idle else Scanning(Scan(window.value, s.phase.cursor.value, now)))
    case SeedEnds(fault) =>
      if !s.phase.Seeding? then s
      else s.(phase := Idle, cursor := if TookEffect(fault) && s.cursor.None? then Some(s.phase.at) else s.cursor)
    case ScanThrows => if s.phase.Scanning? then s.(phase := Idle) else s
    case AdvanceEnds(fault) =>
      if !s.phase.Scanning? then s
      else s.(phase := Idle, scans := s.scans + [s.phase.scan],
              cursor := if TookEffect(fault) then Advanced(s.cursor, s.phase.scan.window.untilSec * 1000) else s.cursor)
    case LiveEvent(at) => s.(cursor := Advanced(s.cursor, at), live := s.live + {at})
    case Crash => s.(phase := Idle)
  }

  function Run(env: CatchupEnv, s: Tracking, trace: seq<Action>): Tracking
    decreases |trace|
  {
    if trace == [] then s else Run(env, Step(env, s, trace[0]), trace[1..])
  }

  predicate NotBehind(cursor: Option<int>, cursor': Option<int>) {
    cursor.Some? ==> cursor'.Some? && cursor.value <= cursor'.value
  }

  /** The statements that move a cursor, also when their reply is lost. */
  predicate MovesCursor(a: Action) {
    a.LiveEvent? || (a.SeedEnds? && TookEffect(a.fault)) || (a.AdvanceEnds? && TookEffect(a.fault))
  }

  /** The cursor never moves back, and only seeding, the update after a full scan, or a live event move it at all. */
  lemma {:induction false} CursorNeverMovesBack(env: CatchupEnv, s: Tracking, trace: seq<Action>)
    ensures NotBehind(s.cursor, Run(env, s, trace).cursor)
    ensures (forall i :: 0 <= i < |trace| ==> !MovesCursor(trace[i])) ==> Run(env, s, trace).cursor == s.cursor
    decreases |trace|
  {
    if trace != [] {
      CursorNeverMovesBack(env, Step(env, s, trace[0]), trace[1..]);
    }
  }

  // ---- Holes ----

  /** No second lies between the two windows. */
  predicate Joins(w: Window, next: Window) {
    next.fromSec <= w.untilSec + 1
  }

  /** The exact condition for the next planned window to leave no second out. */
  lemma JoinIsExact(env: CatchupEnv, w: Window, cursor: int, now: int)
    requires PlanWindow(env, cursor, now).Some?
    ensures Joins(w, PlanWindow(env, cursor, now).value)
            <==> cursor - env.overlapMs < (w.untilSec + 2) * 1000 && now - env.maxWindowMs < (w.untilSec + 2) * 1000
  {
    var from := Max(cursor - env.overlapMs, now - env.maxWindowMs);
    assert FloorSec(from) <= w.untilSec + 1 <==> from < (w.untilSec + 2) * 1000;
  }

  /** The clock readings of plans do not run backwards. */
  predicate Planned(trace: seq<Action>, from: int) {
    trace != [] ==> var a := trace[0];
      if a.PlanRun? then from <= a.now && Planned(trace[1..], a.now) else Planned(trace[1..], from)
  }

  predicate ScanOk(env: CatchupEnv, scan: Scan, now: int) {
    scan.plannedAt <= now && PlanWindow(env, scan.cursor, scan.plannedAt) == Some(scan.window)
  }

  /** Every instant the cursor may stand at: no later than the clock allows, or a live event's. */
  predicate At(s: Tracking, cursor: int, bound: int) {
    cursor <= bound || cursor in s.live
  }

  function ScannedTo(s: Tracking, now: int): int {
    if s.scans == [] then now else s.scans[|s.scans| - 1].window.untilSec * 1000
  }

  /** `now` bounds every plan so far. */
  ghost predicate Inv(env: CatchupEnv, s: Tracking, now: int) {
    && (forall i :: 0 <= i < |s.scans| ==> ScanOk(env, s.scans[i], now))
    && (forall i, j :: 0 <= i < j < |s.scans| ==> s.scans[i].plannedAt <= s.scans[j].plannedAt)
    && (s.phase.Scanning? ==> ScanOk(env, s.phase.scan, now))
    && (s.phase.Seeding? ==> s.phase.at <= now && s.scans == [])
    && (s.phase.GotCursor? && s.phase.cursor.Some? ==> At(s, s.phase.cursor.value, ScannedTo(s, now)))
    && (s.phase.GotCursor? && s.phase.cursor.None? ==> s.scans == [])
    && (s.phase.Scanning? ==>
          && (forall i :: 0 <= i < |s.scans| ==> s.scans[i].plannedAt <= s.phase.scan.plannedAt)
          && At(s, s.phase.scan.cursor, ScannedTo(s, s.phase.scan.plannedAt))
          && (s.cursor.Some? ==> At(s, s.cursor.value, ScannedTo(s, s.phase.scan.plannedAt))))
    && (s.cursor.Some? ==> At(s, s.cursor.value, ScannedTo(s, now)))
    && (s.cursor.None? ==> s.scans == [])
    && (forall i :: 0 < i < |s.scans| ==> At(s, s.scans[i].cursor, s.scans[i - 1].window.untilSec * 1000))
  }

  predicate ReadBefore(scans: seq<Scan>, cursor: Option<int>) {
    forall i :: 0 <= i < |scans| ==> cursor.Some? && scans[i].cursor <= cursor.value
  }

  /** The cursors that scans have read never go back. */
  ghost predicate Ordered(s: Tracking) {
    && (forall i, j :: 0 <= i < j < |s.scans| ==> s.scans[i].cursor <= s.scans[j].cursor)
    && ReadBefore(s.scans, s.cursor)
    && (s.phase.GotCursor? && s.phase.cursor.Some? ==>
          NotBehind(s.phase.cursor, s.cursor) && ReadBefore(s.scans, s.phase.cursor))
    && (s.phase.Scanning? ==>
          NotBehind(Some(s.phase.scan.cursor), s.cursor) && ReadBefore(s.scans, Some(s.phase.scan.cursor)))
  }

  lemma StepKeepsOrder(env: CatchupEnv, s: Tracking, a: Action)
    requires Ordered(s)
    ensures Ordered(Step(env, s, a))
  {
    hide PlanWindow;
    var s' := Step(env, s, a);
    match a
    case AdvanceEnds(fault) =>
      if s.phase.Scanning? {
        assert forall i :: 0 <= i < |s.scans| ==> s'.scans[i] == s.scans[i];
      }
    case PlanRun(now) => assert s'.scans == s.scans && s'.cursor == s.cursor;
    case _ =>
  }

  lemma UntilCoversPlan(env: CatchupEnv, scan: Scan, now: int)
    requires ScanOk(env, scan, now)
    ensures scan.plannedAt <= scan.window.untilSec * 1000 < scan.plannedAt + 1000
    ensures scan.window.fromSec <= scan.window.untilSec
  {
  }

  lemma CeilMonotone(a: int, b: int)
    requires a <= b
    ensures CeilSec(a) <= CeilSec(b)
  {
  }

  lemma LastBefore(env: CatchupEnv, s: Tracking, now: int)
    requires Inv(env, s, now) && s.phase.Scanning?
    ensures s.scans != [] ==> s.scans[|s.scans| - 1].window.untilSec <= s.phase.scan.window.untilSec
    ensures s.phase.scan.plannedAt <= s.phase.scan.window.untilSec * 1000
  {
    UntilCoversPlan(env, s.phase.scan, now);
    if s.scans != [] {
      var last := s.scans[|s.scans| - 1];
      assert ScanOk(env, last, now);
      CeilMonotone(last.plannedAt, s.phase.scan.plannedAt);
    }
  }

  lemma SuccessKeeps(env: CatchupEnv, s: Tracking, now: int, fault: Fault)
    requires Inv(env, s, now) && s.phase.Scanning? && s.cursor.Some?
    ensures Inv(env, Step(env, s, AdvanceEnds(fault)), now)
  {
    hide PlanWindow;
    LastBefore(env, s, now);
    var s' := Step(env, s, AdvanceEnds(fault));
    assert forall i :: 0 <= i < |s.scans| ==> s'.scans[i] == s.scans[i];
  }

  lemma PlanKeeps(env: CatchupEnv, s: Tracking, before: int, now: int)
    requires Inv(env, s, before) && before <= now
    ensures Inv(env, Step(env, s, PlanRun(now)), now)
  {
  }

  lemma LiveKeeps(env: CatchupEnv, s: Tracking, now: int, at: int)
    requires Inv(env, s, now)
    ensures Inv(env, Step(env, s, LiveEvent(at)), now)
  {
    hide PlanWindow;
  }

  lemma StepKeeps(env: CatchupEnv, s: Tracking, a: Action, now: int)
    requires Inv(env, s, now) && Ordered(s) && (a.PlanRun? ==> now <= a.now)
    ensures Inv(env, Step(env, s, a), if a.PlanRun? then a.now else now)
  {
    hide PlanWindow;
    match a
    case PlanRun(next) => PlanKeeps(env, s, now, next);
    case LiveEvent(at) => LiveKeeps(env, s, now, at);
    case AdvanceEnds(fault) => if s.phase.Scanning? { SuccessKeeps(env, s, now, fault); }
    case _ =>
  }

  lemma {:induction false} RunKeeps(env: CatchupEnv, s: Tracking, trace: seq<Action>, now: int) returns (end: int)
    requires Inv(env, s, now) && Ordered(s) && Planned(trace, now)
    ensures Inv(env, Run(env, s, trace), end) && Ordered(Run(env, s, trace))
    decreases |trace|
  {
    end := now;
    if trace != [] {
      var next := if trace[0].PlanRun? then trace[0].now else now;
      StepKeeps(env, s, trace[0], now);
      StepKeepsOrder(env, s, trace[0]);
      end := RunKeeps(env, Step(env, s, trace[0]), trace[1..], next);
    }
  }

  /** The plan of the next scan came too late to reach back to the end of the scan before. */
  predicate TooFarApart(env: CatchupEnv, scan: Scan, next: Scan) {
    next.plannedAt - env.maxWindowMs >= (scan.window.untilSec + 2) * 1000
  }

  /** A live event moved the cursor more than the overlap past the end of the scan. */
  predicate OvertakenByLive(env: CatchupEnv, s: Tracking, scan: Scan, next: Scan) {
    next.cursor in s.live && next.cursor - env.overlapMs >= (scan.window.untilSec + 2) * 1000
  }

  predicate Uncovered(scans: seq<Scan>, sec: int) {
    forall k :: 0 <= k < |scans| ==> !Covers(scans[k].window, sec)
  }

  /** Windows start and end no earlier than those before them. */
  lemma WindowsAdvance(env: CatchupEnv, s: Tracking, now: int, i: nat, j: nat)
    requires Inv(env, s, now) && Ordered(s) && i < j < |s.scans|
    ensures s.scans[i].window.fromSec <= s.scans[j].window.fromSec
            && s.scans[i].window.untilSec <= s.scans[j].window.untilSec
    ensures s.scans[i].window.fromSec <= s.scans[i].window.untilSec
  {
    var a, b := s.scans[i], s.scans[j];
    assert ScanOk(env, a, now) && ScanOk(env, b, now);
    UntilCoversPlan(env, a, now);
    CeilMonotone(a.plannedAt, b.plannedAt);
    FloorMonotone(Max(a.cursor - env.overlapMs, a.plannedAt - env.maxWindowMs),
                  Max(b.cursor - env.overlapMs, b.plannedAt - env.maxWindowMs));
  }

  lemma FloorMonotone(a: int, b: int)
    requires a <= b
    ensures FloorSec(a) <= FloorSec(b)
  {
  }

  predicate Gap(env: CatchupEnv, s: Tracking, i: nat)
    requires i + 1 < |s.scans|
  {
    TooFarApart(env, s.scans[i], s.scans[i + 1]) || OvertakenByLive(env, s, s.scans[i], s.scans[i + 1])
  }

  lemma GapIsNoJoin(env: CatchupEnv, s: Tracking, now: int, i: nat)
    requires Inv(env, s, now) && i + 1 < |s.scans|
    ensures Gap(env, s, i) <==> !Joins(s.scans[i].window, s.scans[i + 1].window)
  {
    var scan, next := s.scans[i], s.scans[i + 1];
    assert ScanOk(env, next, now);
    JoinIsExact(env, scan.window, next.cursor, next.plannedAt);
    assert At(s, next.cursor, s.scans[i].window.untilSec * 1000);
  }

  /** The second after a window that the next one does not join is in no window at all. */
  lemma UnjoinedIsUncovered(env: CatchupEnv, s: Tracking, now: int, i: nat)
    requires Inv(env, s, now) && Ordered(s) && i + 1 < |s.scans|
    requires !Joins(s.scans[i].window, s.scans[i + 1].window)
    ensures Uncovered(s.scans, s.scans[i].window.untilSec + 1)
  {
    var sec := s.scans[i].window.untilSec + 1;
    forall k | 0 <= k < |s.scans| ensures !Covers(s.scans[k].window, sec) {
      if k < i { WindowsAdvance(env, s, now, k, i); }
      if k > i + 1 { WindowsAdvance(env, s, now, i + 1, k); }
    }
  }

  /**
   Over every run of plans, failures, crashes and live events, some second
   between the start of a scan and the end of the next is in no window ever
   scanned exactly when the two were too far apart or a live event moved the
   cursor too far in between.
   */
  lemma HolesAreExact(env: CatchupEnv, trace: seq<Action>, start: int, i: nat)
    requires Planned(trace, start) && i + 1 < |Run(env, UNTRACKED, trace).scans|
    ensures var s := Run(env, UNTRACKED, trace);
            (exists sec ::
               s.scans[i].window.fromSec <= sec <= s.scans[i + 1].window.untilSec && Uncovered(s.scans, sec))
            <==> TooFarApart(env, s.scans[i], s.scans[i + 1]) || OvertakenByLive(env, s, s.scans[i], s.scans[i + 1])
  {
    hide Run, Inv, Ordered, PlanWindow, Uncovered;
    UntrackedOk(env, start);
    var s := Run(env, UNTRACKED, trace);
    var end := RunKeeps(env, UNTRACKED, trace, start);
    GapIsNoJoin(env, s, end, i);
    WindowsAdvance(env, s, end, i, i + 1);
    if Joins(s.scans[i].window, s.scans[i + 1].window) {
      forall sec | s.scans[i].window.fromSec <= sec <= s.scans[i + 1].window.untilSec ensures !Uncovered(s.scans, sec) {
        JoinedCover(s.scans, i, sec);
      }
    } else {
      UnjoinedIsUncovered(env, s, end, i);
      NextEndsLater(env, s, end, i);
    }
  }

  lemma NextEndsLater(env: CatchupEnv, s: Tracking, now: int, i: nat)
    requires Inv(env, s, now) && i + 1 < |s.scans| && !Joins(s.scans[i].window, s.scans[i + 1].window)
    ensures s.scans[i].window.untilSec + 1 <= s.scans[i + 1].window.untilSec
  {
    assert ScanOk(env, s.scans[i + 1], now);
    UntilCoversPlan(env, s.scans[i + 1], now);
  }

  lemma UntrackedOk(env: CatchupEnv, now: int)
    ensures Inv(env, UNTRACKED, now) && Ordered(UNTRACKED)
  {
  }

  lemma JoinedCover(scans: seq<Scan>, i: nat, sec: int)
    requires i + 1 < |scans| && Joins(scans[i].window, scans[i + 1].window)
    requires scans[i].window.fromSec <= sec <= scans[i + 1].window.untilSec
    ensures !Uncovered(scans, sec)
  {
    assert Covers(scans[i].window, sec) || Covers(scans[i + 1].window, sec);
  }

  /** Windows that join cover every second from the first start to the last end. */
  lemma {:induction false} JoinedScansCover(scans: seq<Scan>, sec: int)
    requires scans != []
    requires forall i :: 0 <= i < |scans| - 1 ==> Joins(scans[i].window, scans[i + 1].window)
    requires scans[0].window.fromSec <= sec <= scans[|scans| - 1].window.untilSec
    ensures !Uncovered(scans, sec)
  {
    var rest := scans[..|scans| - 1];
    if Covers(scans[|scans| - 1].window, sec) {
    } else {
      assert Joins(rest[|rest| - 1].window, scans[|rest|].window);
      JoinedScansCover(rest, sec);
      var i :| 0 <= i < |rest| && Covers(rest[i].window, sec);
      assert Covers(scans[i].window, sec);
    }
  }

  /**
   Over a whole run every second from the first start to the last end is scanned exactly when no two
   successive scans leave a gap.
   */
  lemma NoHoles(env: CatchupEnv, trace: seq<Action>, start: int)
    requires Planned(trace, start) && Run(env, UNTRACKED, trace).scans != []
    ensures var s := Run(env, UNTRACKED, trace);
            (forall sec :: s.scans[0].window.fromSec <= sec <= s.scans[|s.scans| - 1].window.untilSec ==>
             !Uncovered(s.scans, sec))
            <==> forall i :: 0 <= i < |s.scans| - 1 ==> !Gap(env, s, i)
  {
    hide Run, Inv, Ordered, PlanWindow, Uncovered;
    UntrackedOk(env, start);
    var s := Run(env, UNTRACKED, trace);
    var end := RunKeeps(env, UNTRACKED, trace, start);
    forall i: nat | i < |s.scans| - 1 ensures Gap(env, s, i) <==> !Joins(s.scans[i].window, s.scans[i + 1].window) {
      GapIsNoJoin(env, s, end, i);
    }
    if forall i :: 0 <= i < |s.scans| - 1 ==> !Gap(env, s, i) {
      forall sec | s.scans[0].window.fromSec <= sec <= s.scans[|s.scans| - 1].window.untilSec
        ensures !Uncovered(s.scans, sec)
      {
        JoinedScansCover(s.scans, sec);
      }
    } else {
      var i: nat :| i < |s.scans| - 1 && Gap(env, s, i);
      UnjoinedIsUncovered(env, s, end, i);
      NextEndsLater(env, s, end, i);
      GapInRange(env, s, end, i);
    }
  }

  lemma GapInRange(env: CatchupEnv, s: Tracking, now: int, i: nat)
    requires Inv(env, s, now) && Ordered(s) && i + 1 < |s.scans|
    ensures s.scans[0].window.fromSec <= s.scans[i].window.untilSec
    ensures s.scans[i + 1].window.untilSec <= s.scans[|s.scans| - 1].window.untilSec
  {
    WindowsAdvance(env, s, now, i, i + 1);
    if i > 0 { WindowsAdvance(env, s, now, 0, i); }
    if i + 1 < |s.scans| - 1 { WindowsAdvance(env, s, now, i + 1, |s.scans| - 1); }
  }

  // ---- The cursor keeps up ----

  lemma RunOfThree(env: CatchupEnv, s: Tracking, a: Action, b: Action, c: Action)
    ensures Run(env, s, [a, b, c]) == Step(env, Step(env, Step(env, s, a), b), c)
  {
    assert [a, b, c][1..] == [b, c] && [b, c][1..] == [c];
    assert Run(env, Step(env, Step(env, s, a), b), [c]) == Run(env, Step(env, Step(env, Step(env, s, a), b), c), []);
    assert Run(env, Step(env, s, a), [b, c]) == Run(env, Step(env, Step(env, s, a), b), [c]);
  }

  /** Once the update after a scan took effect the cursor is never again before the end of that scan. */
  lemma CursorCoversScan(env: CatchupEnv, s: Tracking, fault: Fault, rest: seq<Action>)
    requires s.phase.Scanning? && !fault.LostBefore?
    ensures var q := Run(env, s, [AdvanceEnds(fault)] + rest);
            q.cursor.Some? && q.cursor.value >= s.phase.scan.window.untilSec * 1000
  {
    assert ([AdvanceEnds(fault)] + rest)[1..] == rest;
    CursorNeverMovesBack(env, Step(env, s, AdvanceEnds(fault)), rest);
  }

  /** Nor before a live event once that was stored. */
  lemma CursorCoversEvent(env: CatchupEnv, s: Tracking, at: int, rest: seq<Action>)
    ensures var q := Run(env, s, [LiveEvent(at)] + rest); q.cursor.Some? && q.cursor.value >= at
  {
    assert ([LiveEvent(at)] + rest)[1..] == rest;
    CursorNeverMovesBack(env, Step(env, s, LiveEvent(at)), rest);
  }

  /** A run without a fault: the new cursor is now, rounded up to the second, unless it was later already. */
  lemma QuietRunReachesNow(env: CatchupEnv, s: Tracking, now: int)
    requires s.phase.Idle? && s.cursor.Some? && s.cursor.value < now + env.overlapMs && env.maxWindowMs > 0
    ensures var q := Run(env, s, [ReadCursor, PlanRun(now), AdvanceEnds(NoFault)]);
            && q.phase.Idle? && q.cursor == Some(Max(s.cursor.value, CeilSec(now) * 1000))
            && |q.scans| == |s.scans| + 1 && q.scans[|s.scans|].window.untilSec == CeilSec(now)
  {
    RunOfThree(env, s, ReadCursor, PlanRun(now), AdvanceEnds(NoFault));
  }

  /** A wallet without a cursor gets exactly now, unless the statement is lost, and is not scanned. */
  lemma FirstRunSeeds(env: CatchupEnv, s: Tracking, now: int, fault: Fault)
    requires s.phase.Idle? && s.cursor.None?
    ensures var q := Run(env, s, [ReadCursor, PlanRun(now), SeedEnds(fault)]);
            && q.phase.Idle? && q.scans == s.scans
            && q.cursor == if fault.LostBefore? then None else Some(now)
  {
    RunOfThree(env, s, ReadCursor, PlanRun(now), SeedEnds(fault));
  }

  /** A run that comes too early plans nothing, and a scan that throws moves nothing. */
  lemma IdleRunsMoveNothing(env: CatchupEnv, s: Tracking, now: int)
    requires s.phase.Idle? && s.cursor.Some?
    ensures Run(env, s, [ReadCursor, PlanRun(now), ScanThrows]) == s
    ensures !(s.cursor.value < now + env.overlapMs && env.maxWindowMs > 0) ==>
              Run(env, s, [ReadCursor, PlanRun(now), AdvanceEnds(NoFault)]) == s
  {
    RunOfThree(env, s, ReadCursor, PlanRun(now), ScanThrows);
    RunOfThree(env, s, ReadCursor, PlanRun(now), AdvanceEnds(NoFault));
  }
}
