// The same for the insert-only path: a run can be carried to its commit.
module TombstonesProgress {
  import opened Rows
  import opened Tail
  import opened Journal
  import opened Tombstones
  import L = Landing

  ghost predicate Steps(log: SourceLog, c: seq<State>) {
    forall i {:trigger StepAt(log, c, i)} :: 0 <= i < |c| - 1 ==> StepAt(log, c, i)
  }

  lemma Append(log: SourceLog, c: seq<State>, s: State)
    requires |c| > 0 && Steps(log, c) && Next(log, c[|c| - 1], s)
    ensures Steps(log, c + [s])
  {
    hide Next;
    forall i | 0 <= i < |c|
      ensures StepAt(log, c + [s], i)
    {
      if i < |c| - 1 {
        assert StepAt(log, c, i);
      }
    }
  }

  /** Among the versions of a key FINAL always finds one to answer with. */
  lemma {:induction false} FinalOf(vs: set<Version>, u: Version) returns (v: Version)
    requires u in vs
    ensures Final(vs, v) && v.key == u.key
    decreases |vs|
  {
    if w :| w in vs && w.key == u.key && w.ver > u.ver {
      var rest := vs - {u};
      v := FinalOf(rest, w);
      assert vs == rest + {u};
    } else {
      v := u;
    }
  }

  /** Between two changes of its tail, on a run that can trust what it reads. */
  ghost predicate Between(log: SourceLog, t0: Table, s: State, b: nat, i: nat) {
    && Inv(log, t0, s) && s.phase.Tailing? && s.phase.b == b && RunTrusted(log, s)
    && s.phase.i == i && s.phase.hold.None? && !s.phase.wiped
  }

  lemma Fetches(log: SourceLog, t0: Table, s: State) returns (s': State)
    requires NoMoves(log, t0) && Inv(log, t0, s) && Reading(log, s) && RunTrusted(log, s)
    ensures Next(log, s, s') && Inv(log, t0, s') && Writable(log, s')
    ensures s'.a == s.a && s'.high == s.high && s'.phase == s.phase.(hold := s'.phase.hold)
  {
    InTailIsMasked(log, t0, s);
    var g := Now(log, s);
    if g in s.journal {
      s' := s.(phase := s.phase.(hold := Some(s.journal[g])));
      assert FetchHit(log, s, s');
    } else {
      MissReadsSource(log, t0, s);
      var k := OpAt(log, s).key;
      var u :| u in s.versions && u.key == k;
      var v := FinalOf(s.versions, u);
      var img := Patch(OpAt(log, s).row, v.row.value);
      s' := s.(journal := s.journal[g := img], phase := s.phase.(hold := Some(img)));
      assert FetchMiss(log, s, s', v);
    }
    hide Inv;
    NextKeeps(log, t0, s, s');
  }

  lemma Lands(log: SourceLog, t0: Table, s: State) returns (s': State)
    requires NoMoves(log, t0) && Inv(log, t0, s) && Writable(log, s)
    ensures Next(log, s, s') && Inv(log, t0, s')
    ensures s'.a == s.a && s'.high == s.high && s'.phase == NextOp(s)
  {
    var op := OpAt(log, s);
    s' := s.(versions := Without(s.versions, op.key) + WrittenBy(op, s.phase.hold, s.phase.b), phase := NextOp(s));
    assert Land(log, s, s');
    hide Inv;
    NextKeeps(log, t0, s, s');
  }

  lemma Passes(log: SourceLog, t0: Table, s: State) returns (s': State)
    requires NoMoves(log, t0) && Inv(log, t0, s) && AtOp(log, s) && !OpInTail(log, s)
    ensures Next(log, s, s') && Inv(log, t0, s')
    ensures s'.a == s.a && s'.high == s.high && s'.phase == NextOp(s)
  {
    s' := s.(phase := NextOp(s));
    assert NotInTail(log, s, s');
    hide Inv;
    NextKeeps(log, t0, s, s');
  }

  /** One change further. */
  lemma Advances(log: SourceLog, t0: Table, c: seq<State>, b: nat, i: nat) returns (d: seq<State>)
    requires NoMoves(log, t0) && |c| > 0 && Steps(log, c) && Between(log, t0, c[|c| - 1], b, i)
    requires AtOp(log, c[|c| - 1])
    ensures |d| > 0 && Steps(log, d) && d[0] == c[0] && Between(log, t0, d[|d| - 1], b, i + 1)
    ensures d[|d| - 1].a == c[|c| - 1].a && d[|d| - 1].high == c[|c| - 1].high
  {
    var s := c[|c| - 1];
    InTailIsMasked(log, t0, s);
    StaysInBounds(log, t0, s, b, i);
    hide Inv, Next, Steps, Bounds;
    if !OpInTail(log, s) {
      var s' := Passes(log, t0, s);
      Append(log, c, s');
      StillTrusted(log, t0, s, s');
      d := c + [s'];
    } else if OpAt(log, s).Masked? {
      var s' := Fetches(log, t0, s);
      Append(log, c, s');
      var s'' := Lands(log, t0, s');
      Append(log, c + [s'], s'');
      StillTrusted(log, t0, s, s'');
      d := c + [s'] + [s''];
    } else {
      var s' := Lands(log, t0, s);
      Append(log, c, s');
      StillTrusted(log, t0, s, s');
      d := c + [s'];
    }
  }

  lemma StaysInBounds(log: SourceLog, t0: Table, s: State, b: nat, i: nat)
    requires Between(log, t0, s, b, i)
    ensures Bounds(log, s) && RunTrusted(log, s)
  {
  }

  lemma StillTrusted(log: SourceLog, t0: Table, s: State, s': State)
    requires Bounds(log, s) && !s.phase.Idle? && RunTrusted(log, s) && Inv(log, t0, s') && !s'.phase.Idle?
    requires s'.a == s.a && s'.high == s.high && s'.phase.b == s.phase.b
    ensures Bounds(log, s') && RunTrusted(log, s')
  {
  }

  lemma {:induction false} LandsTail(log: SourceLog, t0: Table, c: seq<State>, b: nat, i: nat) returns (d: seq<State>)
    requires NoMoves(log, t0) && |c| > 0 && Steps(log, c) && Between(log, t0, c[|c| - 1], b, i)
    requires L.InLog(log, c[|c| - 1].a, b) && i <= |L.Window(log, c[|c| - 1].a, b)|
    ensures |d| > 0 && Steps(log, d) && d[0] == c[0]
    ensures var s := c[|c| - 1];
            d[|d| - 1].a == s.a && d[|d| - 1].high == s.high && Between(log, t0, d[|d| - 1], b, |L.Window(log, s.a, b)|)
    decreases |L.Window(log, c[|c| - 1].a, b)| - i
  {
    if i == |L.Window(log, c[|c| - 1].a, b)| {
      d := c;
    } else {
      assert AtOp(log, c[|c| - 1]);
      hide Between, Next, Steps, L.Window;
      d := Advances(log, t0, c, b, i);
      d := LandsTail(log, t0, d, b, i + 1);
    }
  }

  /** The set phases of a new run to `b`, after whatever was under way. */
  lemma Begins(log: SourceLog, t0: Table, s: State, b: nat) returns (c: seq<State>)
    requires NoMoves(log, t0) && Inv(log, t0, s) && s.high <= b <= |log|
    ensures |c| > 0 && Steps(log, c) && c[0] == s && Between(log, t0, c[|c| - 1], b, 0)
    ensures c[|c| - 1].a == s.a && c[|c| - 1].high == b
  {
    assert s.a <= s.high;
    hide Inv, SetRows;
    var s1 := s.(phase := Idle);
    assert Crash(s, s1);
    NextKeeps(log, t0, s, s1);
    var s2 := s1.(high := b, phase := Starting(b));
    assert Begin(log, s1, s2, b);
    NextKeeps(log, t0, s1, s2);
    var s3 := s2.(versions := if Since(log, s.a, b) > s.a then {} else s.versions, phase := Setting(b));
    assert Clear(log, s2, s3);
    NextKeeps(log, t0, s2, s3);
    var s4 := s3.(versions := s3.versions + SetRows(log, s.a, b), phase := Tailing(b, 0, None, false));
    assert SetDone(log, s3, s4);
    NextKeeps(log, t0, s3, s4);
    Trusts(log, t0, s4, b);
    hide Next;
    c := [s];
    Append(log, c, s1);
    Append(log, c + [s1], s2);
    Append(log, c + [s1] + [s2], s3);
    Append(log, c + [s1] + [s2] + [s3], s4);
    c := c + [s1] + [s2] + [s3] + [s4];
  }

  lemma Trusts(log: SourceLog, t0: Table, s: State, b: nat)
    requires Inv(log, t0, s) && s.phase == Tailing(b, 0, None, false) && s.high == b
    ensures Between(log, t0, s, b, 0)
  {
  }

  /** From every state of every history, whatever died there and at whatever
      statement, a run that reaches as far as every attempt before it can get to
      its commit; and FINAL then answers the source's row for every key. */
  lemma RunRecovers(log: SourceLog, t0: Table, h: seq<State>, i: nat, b: nat) returns (c: seq<State>)
    requires NoMoves(log, t0) && History(log, t0, h) && i < |h| && h[i].high <= b <= |log|
    ensures |c| > 0 && Steps(log, c) && c[0] == h[i]
    ensures var z := c[|c| - 1];
            z.phase.Idle? && z.a == b && forall k :: ReadsAs(z.versions, k, RowAt(log, t0, b, k))
  {
    HistoryKeeps(log, t0, h, i);
    assert h[i].a <= h[i].high;
    hide History, Next, Steps, Inv;
    c := Begins(log, t0, h[i], b);
    c := LandsTail(log, t0, c, b, 0);
    var s := c[|c| - 1];
    var z := s.(a := b, phase := Idle);
    Commits(log, t0, s, z, b);
    Append(log, c, z);
    c := c + [z];
  }

  lemma Commits(log: SourceLog, t0: Table, s: State, z: State, b: nat)
    requires NoMoves(log, t0) && L.InLog(log, s.a, b) && Between(log, t0, s, b, |L.Window(log, s.a, b)|) && s.high == b
    requires z == s.(a := b, phase := Idle)
    ensures Next(log, s, z) && forall k :: ReadsAs(z.versions, k, RowAt(log, t0, b, k))
  {
    assert Commit(log, s, z);
    NextKeeps(log, t0, s, z);
    forall k
      ensures ReadsAs(z.versions, k, RowAt(log, t0, b, k))
    {
      assert KeyOk(log, t0, b, b, z.versions, z.journal, k);
      CurrentReads(log, t0, b, b, b, z.versions, k);
    }
  }
}
