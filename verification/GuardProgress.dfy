// A run nobody opposes gets to write, and one that renews in time keeps its
// claim.
module GuardProgress {
  import opened Guard

  ghost predicate Steps(who: Runs, c: seq<State>) {
    |c| > 0 && forall i {:trigger StepAt(who, c, i)} :: 0 <= i < |c| - 1 ==> StepAt(who, c, i)
  }

  /** Who may stand when `r` scans: itself, its parents, runs it is a fan-in with. */
  ghost predicate Unopposed(who: Runs, s: State, r: Token)
    requires r in who
  {
    s.legacy == {} && forall t :: Marked(s, t) ==>
      t == r || t in who[r].parent || t !in who || FanIn(who[r], who[t])
  }

  lemma OneStep(who: Runs, s: State, s': State, r: Token, a: Artifact)
    requires StepOf(who, s, s', r, r, a)
    ensures Steps(who, [s, s'])
  {
    assert Next(who, s, s');
  }

  lemma Join(who: Runs, a: seq<State>, b: seq<State>)
    requires Steps(who, a) && Steps(who, b) && a[|a| - 1] == b[0]
    ensures Steps(who, a + b[1..])
  {
    hide Next;
    var c := a + b[1..];
    forall i | 0 <= i < |c| - 1
      ensures StepAt(who, c, i)
    {
      if i < |a| - 1 {
        assert StepAt(who, a, i);
      } else {
        assert StepAt(who, b, i - (|a| - 1));
        assert c[i] == b[i - (|a| - 1)] && c[i + 1] == b[i + 1 - (|a| - 1)];
      }
    }
  }

  /** What an announcement changes: the run's own stage, markers and row. */
  ghost predicate Announced(who: Runs, s: State, e: State, r: Token)
    requires r in who
  {
    && At(e, r).Announcing? && e.writes == s.writes && e.clock == s.clock && e.legacy == s.legacy
    && s.markers <= e.markers <= s.markers + {(r, Lock), (r, Staging)}
    && (forall a :: a in Markers(who[r].kind) ==> (r, a) in e.markers)
    && (forall x :: x in s.leases && x != r ==> x in e.leases && e.leases[x] == s.leases[x])
    && (forall x :: x != r ==> At(e, x) == At(s, x))
    && (who[r].kind.Cdc? ==> Owner(e, r))
  }

  /** The lease row, if it is a drain, and every marker. */
  lemma Announces(who: Runs, s: State, r: Token) returns (c: seq<State>)
    requires r in who && At(s, r).New?
    ensures Steps(who, c) && c[0] == s && Announced(who, s, c[|c| - 1], r)
  {
    var row := Lease(s.clock + who[r].ttl, false);
    var s1 := To(s, r, Announcing).(leases := if who[r].kind.Cdc? then s.leases[r := row] else s.leases);
    var s2 := s1.(markers := s1.markers + {(r, Lock)});
    assert Open(who, s, s1, r);
    OneStep(who, s, s1, r, Lock);
    assert CreateMarker(who, s1, s2, r, Lock);
    OneStep(who, s1, s2, r, Lock);
    Join(who, [s, s1], [s1, s2]);
    c := [s, s1] + [s1, s2][1..];
    if who[r].kind.Cdc? {
      var s3 := s2.(markers := s2.markers + {(r, Staging)});
      assert CreateMarker(who, s2, s3, r, Staging);
      OneStep(who, s2, s3, r, Staging);
      Join(who, c, [s2, s3]);
      c := c + [s2, s3][1..];
    }
  }

  /** Markers of its own do not oppose a run. */
  lemma OwnMarkers(who: Runs, s: State, e: State, r: Token)
    requires r in who && Announced(who, s, e, r)
    ensures forall x :: Marked(e, x) && x != r ==> Marked(s, x)
  {
  }

  /** The scan lets it through to work. */
  lemma Works(who: Runs, s: State, r: Token) returns (c: seq<State>)
    requires r in who && At(s, r).Announcing? && Unopposed(who, s, r)
    requires forall a :: a in Markers(who[r].kind) ==> (r, a) in s.markers
    ensures Steps(who, c) && c[0] == s
    ensures var e := c[|c| - 1];
            At(e, r).Working? && e.leases == s.leases && e.writes == s.writes
  {
    forall t
      ensures t !in Blockers(who, s, r)
    {
      ScanFindsPeers(who, s, r, t);
    }
    var s1 := To(s, r, Checking({}, {})).(seen := s.seen[r := {}]);
    var s2 := To(s1, r, Working);
    assert Blockers(who, s, r) == {};
    assert Scan(who, s, s1, r);
    OneStep(who, s, s1, r, Lock);
    assert Proceed(s1, s2, r);
    OneStep(who, s1, s2, r, Lock);
    Join(who, [s, s1], [s1, s2]);
    c := [s, s1] + [s1, s2][1..];
  }

  lemma Writes(who: Runs, s: State, r: Token) returns (c: seq<State>)
    requires r in who && At(s, r).Working? && (who[r].kind.Cdc? ==> Owner(s, r))
    ensures Steps(who, c) && c[0] == s && c[|c| - 1].writes == s.writes + [r] && c[|c| - 1].markers == s.markers
  {
    if who[r].kind.Cdc? {
      var s1 := To(s, r, InUnit);
      var kept := s.leases[r := s.leases[r].(expires := s.clock + who[r].ttl)];
      var s2 := To(s1, r, Working).(leases := kept, writes := s.writes + [r]);
      assert OpenUnit(who, s, s1, r);
      OneStep(who, s, s1, r, Lock);
      assert CommitUnit(who, s1, s2, r);
      OneStep(who, s1, s2, r, Lock);
      Join(who, [s, s1], [s1, s2]);
      c := [s, s1] + [s1, s2][1..];
    } else {
      c := [s, s.(writes := s.writes + [r])];
      assert Publish(who, s, c[1], r);
      OneStep(who, s, c[1], r, Lock);
    }
  }

  /** From any state of a history in which a run has not started and nobody
      opposes it, it can get to a write of its own. */
  lemma UnopposedWrites(who: Runs, h: seq<State>, i: nat, r: Token) returns (c: seq<State>)
    requires History(who, h) && i < |h| && r in who && At(h[i], r).New? && Unopposed(who, h[i], r)
    ensures Steps(who, c) && c[0] == h[i] && c[|c| - 1].writes == h[i].writes + [r]
  {
    HistoryKeeps(who, h, i);
    assert RunOk(who, h[i], r);
    hide Steps, Inv, RunOk, History;
    c := Announces(who, h[i], r);
    OwnMarkers(who, h[i], c[|c| - 1], r);
    var d := Works(who, c[|c| - 1], r);
    Join(who, c, d);
    c := c + d[1..];
    d := Writes(who, c[|c| - 1], r);
    Join(who, c, d);
    c := c + d[1..];
  }

  // ------------------------------------------------------------------
  // And leaves nothing behind.

  /** From its work a run can wind down: no marker of it stands, no lease row of
      it is left, and it is over. */
  lemma WindsDown(who: Runs, s: State, r: Token) returns (c: seq<State>)
    requires r in who && At(s, r).Working?
    ensures Steps(who, c) && c[0] == s
    ensures var e := c[|c| - 1];
            At(e, r).Over? && !Marked(e, r) && r !in e.leases && e.writes == s.writes
  {
    var s1 := To(s, r, Closing);
    var s2 := s1.(markers := s1.markers - {(r, Lock)});
    var s3 := s2.(markers := s2.markers - {(r, Staging)});
    var s4 := To(s3, r, Over).(leases := s3.leases - {r});
    assert Release(s, s1, r);
    OneStep(who, s, s1, r, Lock);
    assert DropOwn(s1, s2, r, Lock);
    OneStep(who, s1, s2, r, Lock);
    assert DropOwn(s2, s3, r, Staging);
    OneStep(who, s2, s3, r, Staging);
    assert CloseLease(s3, s4, r);
    OneStep(who, s3, s4, r, Lock);
    c := Chain3(who, s, s1, s2, s3);
    Join(who, c, [s3, s4]);
    c := c + [s3, s4][1..];
  }

  lemma Chain3(who: Runs, a: State, b: State, c: State, d: State) returns (l: seq<State>)
    requires Steps(who, [a, b]) && Steps(who, [b, c]) && Steps(who, [c, d])
    ensures Steps(who, l) && l == [a, b, c, d]
  {
    hide Steps;
    Join(who, [a, b], [b, c]);
    assert [a, b] + [b, c][1..] == [a, b, c];
    Join(who, [a, b, c], [c, d]);
    assert [a, b, c] + [c, d][1..] == [a, b, c, d];
    l := [a, b, c, d];
  }

  /** A bulk run can hand its lock over to its staging, and is met by scans all
      the while. */
  lemma HandsOver(who: Runs, s: State, r: Token) returns (s1: State, s2: State)
    requires r in who && !who[r].kind.Cdc? && At(s, r).Working? && (r, Lock) in s.markers
    ensures Steps(who, [s, s1]) && Steps(who, [s1, s2]) && BothMarked(s1, r)
    ensures (r, Lock) !in s2.markers && (r, Staging) in s2.markers && At(s2, r).Working?
  {
    s1 := s.(markers := s.markers + {(r, Staging)});
    assert MakeStaging(who, s, s1, r);
    OneStep(who, s, s1, r, Lock);
    s2 := s1.(markers := s1.markers - {(r, Lock)});
    assert DropLock(who, s1, s2, r);
    OneStep(who, s1, s2, r, Lock);
  }

  /** A unit that fails leaves the run at its work, its claim its own, and
      nothing written. */
  lemma AbortGoesOn(who: Runs, s: State, r: Token) returns (s1: State, s2: State)
    requires r in who && who[r].kind.Cdc? && At(s, r).Working? && Owner(s, r)
    ensures Steps(who, [s, s1]) && Steps(who, [s1, s2]) && At(s1, r).InUnit?
    ensures At(s2, r).Working? && Owner(s2, r) && s2.writes == s.writes
  {
    s1 := To(s, r, InUnit);
    assert OpenUnit(who, s, s1, r);
    OneStep(who, s, s1, r, Lock);
    s2 := To(s1, r, Working);
    assert AbortUnit(s1, s2, r);
    OneStep(who, s1, s2, r, Lock);
  }

  // ------------------------------------------------------------------
  // A killed drain does not stand in the way for ever.

  /** Time passes. */
  lemma {:induction false} Waits(who: Runs, s: State, until: nat) returns (c: seq<State>)
    requires s.clock <= until
    ensures Steps(who, c) && c[0] == s && c[|c| - 1] == s.(clock := until)
    decreases until - s.clock
  {
    if s.clock == until {
      c := [s];
    } else {
      var s1 := s.(clock := s.clock + 1);
      assert Tick(s, s1);
      OneStep(who, s, s1, 0, Lock);
      var d := Waits(who, s1, until);
      Join(who, [s, s1], d);
      c := [s, s1] + d[1..];
    }
  }

  /** Whoever stands when `r` starts, beside `t`, does not oppose it. */
  ghost predicate OpposedBy(who: Runs, s: State, r: Token, t: Token)
    requires r in who
  {
    s.legacy == {} && forall x :: Marked(s, x) ==>
      x == t || x == r || x in who[r].parent || x !in who || FanIn(who[r], who[x])
  }

  /** The scan meets exactly the dead drain. */
  lemma MeetsOne(who: Runs, s: State, r: Token, t: Token)
    requires r in who && t in who && who[t].kind.Cdc? && t != r && t !in who[r].parent
    requires OpposedBy(who, s, r, t) && Marked(s, t)
    ensures Blockers(who, s, r) == {t}
  {
    forall x
      ensures x in Blockers(who, s, r) <==> x == t
    {
      ScanFindsPeers(who, s, r, x);
    }
  }

  /** It is claimed, its markers go, and the run proceeds. */
  lemma CollectsAndWorks(who: Runs, s: State, r: Token, t: Token) returns (c: seq<State>)
    requires r in who && At(s, r).Checking? && At(s, r).todo == {t} && Claimable(s, t) && t != r
    ensures Steps(who, c) && c[0] == s
    ensures var e := c[|c| - 1];
            && At(e, r).Working? && !Marked(e, t) && e.writes == s.writes
            && (r in s.leases ==> r in e.leases && e.leases[r] == s.leases[r])
  {
    var d := CollectsFrom(s, r, t);
    var z := To(d[3], r, Working);
    StepOn(who, s, d[0], r, t, Lock);
    StepOn(who, d[0], d[1], r, t, Lock);
    StepOn(who, d[1], d[2], r, t, Staging);
    StepOn(who, d[2], d[3], r, t, Lock);
    StepOn(who, d[3], z, r, t, Lock);
    hide Steps;
    var l := Chain3(who, s, d[0], d[1], d[2]);
    Join(who, [d[2], d[3]], [d[3], z]);
    Join(who, l, [d[2], d[3]] + [d[3], z][1..]);
    c := l + ([d[2], d[3]] + [d[3], z][1..])[1..];
  }

  lemma StepOn(who: Runs, s: State, s': State, r: Token, t: Token, a: Artifact)
    requires StepOf(who, s, s', r, t, a)
    ensures Steps(who, [s, s'])
  {
    assert Next(who, s, s');
  }

  /** Announced, and the scan taken: only the dead drain is on the list. */
  lemma AnnouncesBeside(who: Runs, s: State, r: Token, t: Token) returns (c: seq<State>)
    requires r in who && At(s, r).New? && OpposedBy(who, s, r, t)
    requires t in who && who[t].kind.Cdc? && t != r && t !in who[r].parent && Marked(s, t)
    ensures Steps(who, c) && c[0] == s
    ensures var e := c[|c| - 1];
            && At(e, r) == Checking({t}, {}) && e.clock == s.clock && e.writes == s.writes
            && (t in s.leases ==> t in e.leases && e.leases[t] == s.leases[t]) && At(e, t) == At(s, t)
            && (who[r].kind.Cdc? ==> Owner(e, r))
  {
    c := Announces(who, s, r);
    var e := c[|c| - 1];
    OwnMarkers(who, s, e, r);
    MeetsOne(who, e, r, t);
    var z := To(e, r, Checking({t}, {})).(seen := e.seen[r := {t}]);
    assert Scan(who, e, z, r);
    StepOn(who, e, z, r, t, Lock);
    hide Steps;
    Join(who, c, [e, z]);
    c := c + [e, z][1..];
  }

  /** From every state of every history: a drain killed at its work, whatever it
      was doing, holds a table up only until its lease lapses. After that a run
      nobody else opposes collects it, and gets to a write of its own. */
  lemma KilledDrainHeals(who: Runs, h: seq<State>, i: nat, t: Token, r: Token) returns (c: seq<State>)
    requires History(who, h) && i < |h| && Active(who, h[i], t) && who[t].kind.Cdc?
    requires r in who && At(h[i], r).New? && t !in who[r].parent && OpposedBy(who, h[i], r, t)
    ensures Steps(who, c) && c[0] == h[i]
    ensures !Marked(c[|c| - 1], t) && c[|c| - 1].writes == h[i].writes + [r]
  {
    HistoryKeeps(who, h, i);
    assert RunOk(who, h[i], t) && RunOk(who, h[i], r);
    var s := h[i];
    var s1 := To(s, t, Over);
    assert Die(s, s1, t);
    OneStep(who, s, s1, t, Lock);
    var late := if s.leases[t].expires > s.clock then s.leases[t].expires else s.clock;
    var d := Waits(who, s1, late);
    Join(who, [s, s1], d);
    c := [s, s1] + d[1..];
    var s2 := s1.(clock := late);
    assert RunOk(who, s2, r);
    hide Steps, RunOk, Inv, History;
    d := AnnouncesBeside(who, s2, r, t);
    Join(who, c, d);
    c := c + d[1..];
    d := CollectsAndWorks(who, c[|c| - 1], r, t);
    Join(who, c, d);
    c := c + d[1..];
    var w := c[|c| - 1];
    d := Writes(who, w, r);
    WritesKeepUnmarked(who, w, r, t, d);
    Join(who, c, d);
    c := c + d[1..];
  }

  lemma WritesKeepUnmarked(who: Runs, s: State, r: Token, t: Token, d: seq<State>)
    requires |d| > 0 && d[|d| - 1].markers == s.markers && !Marked(s, t)
    ensures !Marked(d[|d| - 1], t)
  {
  }

  // ------------------------------------------------------------------
  // Lifetimes.

  /** The life of a row is never longer than a write of it now would give. */
  predicate Timely(who: Runs, s: State, r: Token) {
    r in s.leases && r in who && !At(s, r).Over? ==> s.leases[r].expires <= s.clock + who[r].ttl
  }

  lemma LeaseStepTimely(who: Runs, s: State, s': State, r: Token, t: Token, x: Token)
    requires LeaseStep(who, s, s', r, t) && Timely(who, s, x)
    ensures Timely(who, s', x)
    ensures Owner(s, x) && Owner(s', x) ==> s'.leases[x].expires >= s.leases[x].expires
  {
  }

  lemma StepTimely(who: Runs, s: State, s': State, r: Token, t: Token, a: Artifact, x: Token)
    requires StepOf(who, s, s', r, t, a) && Timely(who, s, x)
    ensures Timely(who, s', x) && s.clock <= s'.clock
    ensures Owner(s, x) && Owner(s', x) ==> s'.leases[x].expires >= s.leases[x].expires
  {
    hide StageStep, LeaseStep;
    if StageStep(who, s, s', r, t) {
      StageStepMovesOn(who, s, s', r, t);
    } else if LeaseStep(who, s, s', r, t) {
      LeaseStepTimely(who, s, s', r, t, x);
      LeaseStepClock(who, s, s', r, t);
    }
  }

  lemma LeaseStepClock(who: Runs, s: State, s': State, r: Token, t: Token)
    requires LeaseStep(who, s, s', r, t)
    ensures s'.clock == s.clock
  {
  }

  lemma {:induction false} HistoryTimely(who: Runs, h: seq<State>, i: nat, x: Token)
    requires History(who, h) && i < |h|
    ensures Timely(who, h[i], x)
  {
    if i == 0 {
      assert LeftoverOk(who, h[0], x);
    } else {
      HistoryTimely(who, h, i - 1, x);
      assert StepAt(who, h, i - 1);
      var r, t, a :| StepOf(who, h[i - 1], h[i], r, t, a);
      StepTimely(who, h[i - 1], h[i], r, t, a, x);
    }
  }

  /** The run writes its own row: at its start, on its timer, or in a unit. */
  predicate WritesRow(who: Runs, s: State, s': State, r: Token) {
    r in who && who[r].kind.Cdc? && (Open(who, s, s', r) || Renew(who, s, s', r) || CommitUnit(who, s, s', r))
  }

  /** A row written less than a lifetime ago, on the destination's clock, is
      still its run's, whoever has looked at it since, unless the run itself
      gave it up. */
  lemma {:induction false} RenewedInTime(who: Runs, h: seq<State>, i: nat, j: nat, r: Token)
    requires History(who, h) && i < j < |h| && WritesRow(who, h[i], h[i + 1], r)
    requires h[j].clock < h[i].clock + who[r].ttl && forall k :: i < k < j ==> !At(h[k], r).Closing?
    ensures h[i].clock <= h[j].clock && Owner(h[j], r) && h[j].leases[r].expires >= h[i].clock + who[r].ttl
  {
    var k := j - 1;
    assert StepAt(who, h, k);
    var x, t, a :| StepOf(who, h[k], h[j], x, t, a);
    HistoryTimely(who, h, k, r);
    StepTimely(who, h[k], h[j], x, t, a, r);
    HistoryKeeps(who, h, k);
    assert RunOk(who, h[k], r);
    if k > i {
      RenewedInTime(who, h, i, k, r);
      hide StepOf, Inv, History;
      if !Owner(h[j], r) {
        ClaimLost(who, h[k], h[j], r);
      }
    }
  }
}
