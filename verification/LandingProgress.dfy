// A landing run can always be carried to its commit, and recovers whatever the
// attempts before it left.
module LandingProgress {
  import opened Rows
  import opened Tail
  import opened Journal
  import opened Landing

  ghost predicate Steps(log: SourceLog, c: seq<State>) {
    forall i {:trigger StepAt(log, c, i)} :: 0 <= i < |c| - 1 ==> StepAt(log, c, i)
  }

  lemma Append(log: SourceLog, c: seq<State>, s: State)
    requires |c| > 0 && Steps(log, c) && Next(log, c[|c| - 1], s)
    ensures Steps(log, c + [s])
  {
    hide Next;
    forall i | 0 <= i < |c|
      ensures StepAt(log, c + [s], i)
    {
      if i < |c| - 1 {
        assert StepAt(log, c, i);
      }
    }
  }

  /** Between two changes of its tail, on a run that can trust what it reads. */
  ghost predicate Between(log: SourceLog, t0: Table, s: State, b: nat, i: nat) {
    && Inv(log, t0, s) && s.phase.Tailing? && s.phase.b == b && RunTrusted(log, s, b)
    && s.phase.i == i && s.phase.hold.None? && !s.phase.wiped
  }

  /** The image of the change at hand, from the journal or from the row. */
  lemma Fetches(log: SourceLog, t0: Table, s: State) returns (s': State)
    requires Written(log, t0) && Inv(log, t0, s) && Reading(log, s) && RunTrusted(log, s, s.phase.b)
    ensures Next(log, s, s') && Inv(log, t0, s') && Writable(log, s')
    ensures s'.a == s.a && s'.high == s.high && s'.phase == s.phase.(hold := s'.phase.hold)
  {
    TrustedRunFindsRow(log, t0, s);
    if Hit(log, s) {
      s' := s.(phase := s.phase.(hold := Some(s.journal[EntryName(log, s)])));
      assert FetchHit(log, s, s');
    } else {
      var img := Patch(OpAt(log, s).row, s.table[Needs(OpAt(log, s))]);
      s' := s.(journal := s.journal[EntryName(log, s) := img], phase := s.phase.(hold := Some(img)));
      assert FetchMiss(log, s, s');
    }
    hide Inv, Hit;
    NextKeeps(log, t0, s, s');
  }

  lemma Lands(log: SourceLog, t0: Table, s: State) returns (s': State)
    requires Written(log, t0) && Inv(log, t0, s) && Writable(log, s)
    ensures Next(log, s, s') && Inv(log, t0, s')
    ensures s'.a == s.a && s'.high == s.high && s'.phase == NextOp(s)
  {
    s' := s.(table := Rewritten(OpAt(log, s), s.phase.hold, s.table), phase := NextOp(s));
    assert Land(log, s, s');
    hide Inv;
    NextKeeps(log, t0, s, s');
  }

  lemma Passes(log: SourceLog, t0: Table, s: State) returns (s': State)
    requires Written(log, t0) && Inv(log, t0, s) && AtOp(log, s) && !OpInTail(log, s)
    ensures Next(log, s, s') && Inv(log, t0, s')
    ensures s'.a == s.a && s'.high == s.high && s'.phase == NextOp(s)
  {
    s' := s.(phase := NextOp(s));
    assert NotInTail(log, s, s');
    hide Inv;
    NextKeeps(log, t0, s, s');
  }

  /** One change further. */
  lemma Advances(log: SourceLog, t0: Table, c: seq<State>, b: nat, i: nat) returns (d: seq<State>)
    requires Written(log, t0) && |c| > 0 && Steps(log, c) && Between(log, t0, c[|c| - 1], b, i)
    requires AtOp(log, c[|c| - 1])
    ensures |d| > 0 && Steps(log, d) && d[0] == c[0] && Between(log, t0, d[|d| - 1], b, i + 1)
    ensures d[|d| - 1].a == c[|c| - 1].a && d[|d| - 1].high == c[|c| - 1].high
  {
    hide Inv, Next, Steps;
    var s := c[|c| - 1];
    if !OpInTail(log, s) {
      var s' := Passes(log, t0, s);
      Append(log, c, s');
      d := c + [s'];
    } else if NeedsBase(OpAt(log, s)) {
      var s' := Fetches(log, t0, s);
      Append(log, c, s');
      var s'' := Lands(log, t0, s');
      Append(log, c + [s'], s'');
      d := c + [s'] + [s''];
    } else {
      var s' := Lands(log, t0, s);
      Append(log, c, s');
      d := c + [s'];
    }
  }

  lemma {:induction false} LandsTail(log: SourceLog, t0: Table, c: seq<State>, b: nat, i: nat) returns (d: seq<State>)
    requires Written(log, t0) && |c| > 0 && Steps(log, c) && Between(log, t0, c[|c| - 1], b, i)
    requires InLog(log, c[|c| - 1].a, b) && i <= |Window(log, c[|c| - 1].a, b)|
    ensures |d| > 0 && Steps(log, d) && d[0] == c[0]
    ensures var s := c[|c| - 1];
            d[|d| - 1].a == s.a && d[|d| - 1].high == s.high && Between(log, t0, d[|d| - 1], b, |Window(log, s.a, b)|)
    decreases |Window(log, c[|c| - 1].a, b)| - i
  {
    hide Inv, Next, Steps, Window, RunTrusted;
    if i == |Window(log, c[|c| - 1].a, b)| {
      d := c;
    } else {
      d := Advances(log, t0, c, b, i);
      d := LandsTail(log, t0, d, b, i + 1);
    }
  }

  lemma Sets(log: SourceLog, t0: Table, s: State, b: nat) returns (s': State)
    requires Written(log, t0) && Inv(log, t0, s) && s.phase == Setting(b) && InLog(log, s.a, b) && s.high == b
    ensures Next(log, s, s') && Between(log, t0, s', b, 0) && s'.a == s.a && s'.high == s.high
  {
    hide Inv;
    var h := Head(Window(log, s.a, b));
    var replay := exists m :: m in s.journal && m.pos > StartPos(log, s.a);
    s' := s.(table := SetPhase(DelKeys(h), Images(h), s.table), phase := Tailing(b, 0, replay, None, false));
    assert SetDone(log, s, s');
    NextKeeps(log, t0, s, s');
  }

  /** The set phases of a new run to `b`, after whatever was under way. */
  lemma Begins(log: SourceLog, t0: Table, s: State, b: nat) returns (c: seq<State>)
    requires Written(log, t0) && Inv(log, t0, s) && s.high <= b <= |log| && Cut(log, b)
    ensures |c| > 0 && Steps(log, c) && c[0] == s && Between(log, t0, c[|c| - 1], b, 0)
    ensures c[|c| - 1].a == s.a && c[|c| - 1].high == b
  {
    assert s.a <= s.high;
    hide Inv;
    var s1 := s.(phase := Idle);
    assert Crash(s, s1);
    NextKeeps(log, t0, s, s1);
    var s2 := s1.(high := b, phase := Starting(b));
    assert Begin(log, s1, s2, b);
    NextKeeps(log, t0, s1, s2);
    var s3 := s2.(table := if Since(log, s.a, b) > s.a then map[] else s.table, phase := Setting(b));
    assert TruncateStep(log, s2, s3);
    NextKeeps(log, t0, s2, s3);
    var s4 := Sets(log, t0, s3, b);
    hide Next;
    c := [s];
    Append(log, c, s1);
    Append(log, c + [s1], s2);
    Append(log, c + [s1] + [s2], s3);
    Append(log, c + [s1] + [s2] + [s3], s4);
    c := c + [s1] + [s2] + [s3] + [s4];
  }

  /** From every state of every history, whatever died there and at whatever
      statement, a run that reaches as far as every attempt before it can get to
      its commit; and the table is then the source's. */
  lemma RunRecovers(log: SourceLog, t0: Table, h: seq<State>, i: nat, b: nat) returns (c: seq<State>)
    requires Written(log, t0) && History(log, t0, h) && i < |h| && h[i].high <= b <= |log| && Cut(log, b)
    ensures |c| > 0 && Steps(log, c) && c[0] == h[i]
    ensures var z := c[|c| - 1];
            z.phase.Idle? && z.a == b && z.table == Source(log, t0, b)
  {
    HistoryKeeps(log, t0, h, i);
    hide History, Next, Steps;
    c := Begins(log, t0, h[i], b);
    c := LandsTail(log, t0, c, b, 0);
    var s := c[|c| - 1];
    var z := s.(a := b, phase := Idle);
    Commits(log, t0, s, z, b);
    Append(log, c, z);
    c := c + [z];
  }

  lemma Commits(log: SourceLog, t0: Table, s: State, z: State, b: nat)
    requires Written(log, t0) && InLog(log, s.a, b) && Between(log, t0, s, b, |Window(log, s.a, b)|) && s.high == b
    requires z == s.(a := b, phase := Idle)
    ensures Next(log, s, z) && z.table == Source(log, t0, b)
  {
    assert Commit(log, s, z);
    NextKeeps(log, t0, s, z);
    forall k
      ensures Same(z.table, Source(log, t0, b), k)
    {
      assert !TouchedIn(log, b, b, k);
    }
    SameEverywhere(z.table, Source(log, t0, b));
  }

  /** And the journal does not have to grow: a run can drop every entry of a
      committed change, and keeps every other. */
  lemma CommittedEntriesGo(log: SourceLog, s: State) returns (s': State)
    requires s.phase.Tailing? && InLog(log, s.a, s.phase.b)
    ensures Next(log, s, s')
    ensures forall m :: m in s'.journal <==> m in s.journal && m.pos > StartPos(log, s.a)
  {
    s' := s.(journal := map m | m in s.journal && m.pos > StartPos(log, s.a) :: s.journal[m]);
    assert SweepJournal(log, s, s');
  }
}
