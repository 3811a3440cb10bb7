// What the landing machine does not promise: a run that stops short of a
// TRUNCATE a longer, dead attempt has already run.
module LandingLimits {
  import opened Rows
  import opened Tail
  import opened Journal
  import opened Landing
  import opened LandingMisses

  function Whole(): Row {
    [Text("1"), Text("body")]
  }

  function T0(): Table {
    map[["1"] := Whole()]
  }

  /** Row 1 changes with its body out of line, then the table is truncated. */
  function MaskedLog(): SourceLog {
    [Change(1, Masked(["1"], [Text("1"), UnchangedToast])), Truncated(2)]
  }

  /** Row 1 moves to 9 with its body out of line, then the table is truncated. */
  function MovedLog(): SourceLog {
    [Change(1, Move(["1"], ["9"], [Text("9"), UnchangedToast])), Truncated(2)]
  }

  /** An attempt at both transactions dies after its TRUNCATE; the next run
      ends before it and gets as far as the first change. */
  function ShortRun(): seq<State> {
    var idle := State(0, 0, T0(), map[], Idle);
    var wrecked := State(0, 2, map[], map[], Idle);
    [idle,
     idle.(high := 2, phase := Starting(2)),
     wrecked.(phase := Setting(2)),
     wrecked,
     wrecked.(phase := Starting(1)),
     wrecked.(phase := Setting(1)),
     wrecked.(phase := Tailing(1, 0, false, None, false))]
  }

  predicate TwoEntries(log: SourceLog) {
    |log| == 2 && log[0].Change? && log[0].pos == 1 && NeedsBase(log[0].op) && log[1] == Truncated(2)
  }

  lemma WrittenBoth(log: SourceLog)
    requires TwoEntries(log) && Finds(log[0].op, T0())
    ensures Written(log, T0())
  {
    assert Source(log, T0(), 0) == T0();
    forall g | 0 <= g < |log|
      ensures PosAt(log, g) > 0 && FoundAt(log, T0(), g)
    {
      if g == 0 {
        assert FoundAt(log, T0(), 0);
      }
    }
  }

  lemma ShortWindow(log: SourceLog)
    requires TwoEntries(log)
    ensures Since(log, 0, 2) == 2 && Since(log, 0, 1) == 0
    ensures Window(log, 0, 1) == [Tagged(1, log[0].op)] && Head(Window(log, 0, 1)) == []
  {
    assert Since(log, 0, 0) == 0;
    var w := Window(log, 0, 1);
    assert w == [Tagged(1, log[0].op)];
    assert w[..0] == [];
  }

  lemma ShortRunHappens(log: SourceLog)
    requires TwoEntries(log)
    ensures History(log, T0(), ShortRun())
  {
    var h := ShortRun();
    ShortWindow(log);
    assert Begin(log, h[0], h[1], 2) && TruncateStep(log, h[1], h[2]) && Crash(h[2], h[3]);
    assert Begin(log, h[3], h[4], 1) && TruncateStep(log, h[4], h[5]);
    assert SetPhase({}, map[], h[5].table) == h[6].table;
    assert SetDone(log, h[5], h[6]);
    forall i | 0 <= i < |h| - 1
      ensures StepAt(log, h, i)
    {
      assert i == 0 || i == 1 || i == 2 || i == 3 || i == 4 || i == 5;
      assert Next(log, h[i], h[i + 1]);
    }
  }

  /** The input: a masked update refuses the short run. */
  lemma ShortRunRefused()
    ensures var log, h := MaskedLog(), ShortRun();
            && Written(log, T0()) && History(log, T0(), h)
            && Refuse(log, h[6], h[6].(phase := Idle))
  {
    var log, h := MaskedLog(), ShortRun();
    WrittenBoth(log);
    ShortRunHappens(log);
    ShortWindow(log);
    assert Reading(log, h[6]);
    assert Missing(log, h[6]);
  }

  /** The input: a move is passed over, and the short run commits without the
      row, which the source has at that point. */
  lemma ShortRunLosesRow()
    ensures var log, h := MovedLog(), ShortRun();
            var next := h[6].(phase := Tailing(1, 1, false, None, false));
            && Written(log, T0()) && History(log, T0(), h)
            && PassOver(log, h[6], next)
            && Commit(log, next, next.(a := 1, phase := Idle))
            && ["9"] !in next.table && ["9"] in Source(log, T0(), 1)
  {
    var log, h := MovedLog(), ShortRun();
    WrittenBoth(log);
    ShortRunHappens(log);
    ShortWindow(log);
    assert Reading(log, h[6]);
    assert Missing(log, h[6]);
    assert Source(log, T0(), 0) == T0();
  }

  // ------------------------------------------------------------------
  // The same on a replay: an attempt journals a change and dies, a longer one
  // runs a TRUNCATE and dies, and the next run finds the journal live.

  function Pair(): Table {
    map[["1"] := Whole(), ["2"] := [Text("2"), Text("body")]]
  }

  /** Row 1 changes with its body out of line, then row 2 changes or moves so,
      then the table is truncated. */
  function ReplayLog(moves: bool): SourceLog {
    var second := if moves then Move(["2"], ["9"], [Text("9"), UnchangedToast])
                  else Masked(["2"], [Text("2"), UnchangedToast]);
    [Change(1, Masked(["1"], [Text("1"), UnchangedToast])), Change(2, second), Truncated(3)]
  }

  function ReplayRun(): seq<State> {
    var idle := State(0, 0, Pair(), map[], Idle);
    var first := idle.(high := 2);
    var entry := map[Name(1, 1, ["1"]) := Whole()];
    var wrecked := State(0, 3, map[], entry, Idle);
    [idle,
     first.(phase := Starting(2)),
     first.(phase := Setting(2)),
     first.(phase := Tailing(2, 0, false, None, false)),
     first.(journal := entry, phase := Tailing(2, 0, false, Some(Whole()), false)),
     first.(journal := entry),
     first.(high := 3, journal := entry, phase := Starting(3)),
     wrecked.(phase := Setting(3)),
     wrecked,
     wrecked.(phase := Starting(2)),
     wrecked.(phase := Setting(2)),
     wrecked.(phase := Tailing(2, 0, true, None, false)),
     wrecked.(phase := Tailing(2, 0, true, Some(Whole()), false)),
     wrecked.(table := map[["1"] := Whole()], phase := Tailing(2, 1, true, None, false))]
  }

  lemma ApartKeys()
    ensures var a: Key, b: Key, c: Key := ["1"], ["2"], ["9"];
            a != b && a != c && b != c
  {
    var a: Key, b: Key, c: Key := ["1"], ["2"], ["9"];
    assert a[0][0] != b[0][0] && a[0][0] != c[0][0] && b[0][0] != c[0][0];
  }

  lemma WrittenThree(moves: bool)
    ensures Written(ReplayLog(moves), Pair())
  {
    var log := ReplayLog(moves);
    ApartKeys();
    assert Source(log, Pair(), 0) == Pair();
    assert Patch([Text("1"), UnchangedToast], Whole()) == Whole();
    assert Source(log, Pair(), 1) == Pair();
    forall g | 0 <= g < |log|
      ensures PosAt(log, g) > 0 && FoundAt(log, Pair(), g)
    {
      assert g == 0 || g == 1 || g == 2;
    }
  }

  lemma ReplayWindow(moves: bool)
    ensures var log := ReplayLog(moves);
            && Since(log, 0, 3) == 3 && Since(log, 0, 2) == 0
            && Window(log, 0, 2) == [Tagged(1, log[0].op), Tagged(2, log[1].op)] && Head(Window(log, 0, 2)) == []
            && NameIn(Window(log, 0, 2), 0) == Name(1, 1, ["1"]) && NameIn(Window(log, 0, 2), 1) == Name(2, 1, ["2"])
  {
    var log := ReplayLog(moves);
    ApartKeys();
    assert Since(log, 0, 0) == 0 && Since(log, 0, 1) == 0;
    var w := Window(log, 0, 2);
    assert w == [Tagged(1, log[0].op), Tagged(2, log[1].op)];
    assert w[..1][..0] == [] && Head(w[..1]) == [];
    assert Ordinal(w, 0, 1, ["1"]) == 0 && Ordinal(w, 0, 2, ["2"]) == 0;
  }

  lemma ReplayAttempts(moves: bool)
    ensures var log, h := ReplayLog(moves), ReplayRun();
            Next(log, h[0], h[1]) && Next(log, h[1], h[2]) && Next(log, h[2], h[3])
  {
    var log, h := ReplayLog(moves), ReplayRun();
    ReplayWindow(moves);
    assert Begin(log, h[0], h[1], 2) && TruncateStep(log, h[1], h[2]);
    assert SetPhase({}, map[], h[2].table) == h[3].table;
    assert SetDone(log, h[2], h[3]);
  }

  lemma ReplayJournals(moves: bool)
    ensures var log, h := ReplayLog(moves), ReplayRun();
            Next(log, h[3], h[4]) && Next(log, h[4], h[5])
  {
    var log, h := ReplayLog(moves), ReplayRun();
    ReplayWindow(moves);
    assert Patch([Text("1"), UnchangedToast], Whole()) == Whole();
    assert Reading(log, h[3]) && !Hit(log, h[3]);
    assert FetchMiss(log, h[3], h[4]) && Crash(h[4], h[5]);
  }

  lemma ReplayTruncates(moves: bool)
    ensures var log, h := ReplayLog(moves), ReplayRun();
            Next(log, h[5], h[6]) && Next(log, h[6], h[7]) && Next(log, h[7], h[8])
  {
    var log, h := ReplayLog(moves), ReplayRun();
    ReplayWindow(moves);
    assert Begin(log, h[5], h[6], 3) && TruncateStep(log, h[6], h[7]) && Crash(h[7], h[8]);
  }

  lemma ReplayBegins(moves: bool)
    ensures var log, h := ReplayLog(moves), ReplayRun();
            && Next(log, h[8], h[9]) && Next(log, h[9], h[10]) && Next(log, h[10], h[11])
            && Next(log, h[11], h[12]) && Next(log, h[12], h[13])
  {
    var log, h := ReplayLog(moves), ReplayRun();
    ReplayWindow(moves);
    assert Begin(log, h[8], h[9], 2) && TruncateStep(log, h[9], h[10]);
    assert SetPhase({}, map[], h[10].table) == h[11].table;
    var m := Name(1, 1, ["1"]);
    assert m in h[10].journal && m.pos > StartPos(log, 0);
    assert SetDone(log, h[10], h[11]);
    assert FetchHit(log, h[11], h[12]) && Land(log, h[12], h[13]);
  }

  lemma ReplayHappens(moves: bool)
    ensures History(ReplayLog(moves), Pair(), ReplayRun())
  {
    var log, h := ReplayLog(moves), ReplayRun();
    hide Next;
    ReplayAttempts(moves);
    ReplayJournals(moves);
    ReplayTruncates(moves);
    ReplayBegins(moves);
    forall i | 0 <= i < |h| - 1
      ensures StepAt(log, h, i)
    {
      assert i == 0 || i == 1 || i == 2 || i == 3 || i == 4 || i == 5 || i == 6
             || i == 7 || i == 8 || i == 9 || i == 10 || i == 11 || i == 12;
    }
  }

  /** The input on a replay, for either kind of change: nothing gets the run
      past it, and it is refused. */
  lemma ReplayRefused(moves: bool)
    ensures var log, h := ReplayLog(moves), ReplayRun();
            && Written(log, Pair()) && History(log, Pair(), h)
            && Next(log, h[13], h[13].(phase := Idle))
            && forall s' :: Next(log, h[13], s') ==> s'.phase.Idle? || s'.phase == h[13].phase
  {
    var log, h := ReplayLog(moves), ReplayRun();
    hide Written, History, Next;
    WrittenThree(moves);
    ReplayHappens(moves);
    ReplayStops(moves);
  }

  lemma ReplayStops(moves: bool)
    ensures var log, s := ReplayLog(moves), ReplayRun()[13];
            && Next(log, s, s.(phase := Idle))
            && forall s' :: Next(log, s, s') ==> s'.phase.Idle? || s'.phase == s.phase
  {
    var log, s := ReplayLog(moves), ReplayRun()[13];
    ReplayWindow(moves);
    ApartKeys();
    assert Reading(log, s) && Missing(log, s);
    assert Refuse(log, s, s.(phase := Idle));
    hide Missing;
    forall s' | Next(log, s, s')
      ensures s'.phase.Idle? || s'.phase == s.phase
    {
      MissStops(log, s, s');
    }
  }

  /** A run that reaches as far as any attempt before it is never refused and
      passes nothing over. */
  lemma FullReachNeverRefused(log: SourceLog, t0: Table, h: seq<State>, i: nat)
    requires Written(log, t0) && History(log, t0, h) && i + 1 < |h|
    requires h[i].phase.Tailing? && h[i].phase.b == h[i].high
    ensures !Refuse(log, h[i], h[i + 1]) && !PassOver(log, h[i], h[i + 1])
  {
    if Refuse(log, h[i], h[i + 1]) || PassOver(log, h[i], h[i + 1]) {
      NeverRefused(log, t0, h, i);
    }
  }
}
