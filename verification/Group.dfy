// Tables that share one replication slot: drained together from their lowest
// watermark, each keeping its own.
module Group {
  import opened Rows

  /** The lowest of the members' watermarks. */
  function Lowest(marks: seq<nat>): (m: nat)
    requires marks != []
    ensures m in marks && forall i :: 0 <= i < |marks| ==> m <= marks[i]
  {
    if |marks| == 1 then marks[0]
    else
      var l := Lowest(marks[1..]);
      assert marks == [marks[0]] + marks[1..];
      assert forall i :: 0 <= i < |marks| ==> i == 0 || marks[i] == marks[1..][i - 1];
      if marks[0] < l then marks[0] else l
  }

  /** The next watermark above the lowest, if the members are not level. */
  function MemberCap(low: nat, floors: seq<nat>): (c: Option<nat>)
    ensures c.None? <==> forall i :: 0 <= i < |floors| ==> floors[i] <= low
    ensures c.Some? ==> c.value > low && c.value in floors && forall i :: 0 <= i < |floors| && floors[i] > low ==>
          c.value <= floors[i]
  {
    if floors == [] then None
    else
      var c := MemberCap(low, floors[1..]);
      assert floors == [floors[0]] + floors[1..];
      assert forall i :: 0 <= i < |floors| ==> i == 0 || floors[i] == floors[1..][i - 1];
      if floors[0] > low && (c.None? || floors[0] < c.value) then Some(floors[0]) else c
  }

  /** A pass under way: the watermarks it began from, how far its windows
      have got and may get, and the window being applied, member by member. */
  datatype Pass = Idle | Pass(floors: seq<nat>, cur: nat, stop: nat, end: nat, todo: set<nat>)

  /** `done[m]` are the windows member `m` has applied, `confirmed` what the
      slot may forget. */
  datatype State = State(marks: seq<nat>, done: seq<seq<(nat, nat)>>, confirmed: nat, pass: Pass)

  function Members(n: nat): (ms: set<nat>)
    ensures forall m :: m in ms <==> 0 <= m < n
  {
    if n == 0 then {} else Members(n - 1) + {n - 1}
  }

  predicate Begin(s: State, s': State, walEnd: nat) {
    && s.pass.Idle? && s.marks != []
    && var low := Lowest(s.marks);
       var cap := MemberCap(low, s.marks);
       var stop := if cap.Some? && cap.value < walEnd then cap.value else walEnd;
       s' == s.(pass := Pass(s.marks, low, stop, low, {}))
  }

  /** The next window is drained. */
  predicate Window(s: State, s': State, end: nat) {
    && s.pass.Pass? && s.pass.todo == {} && s.pass.end == s.pass.cur && s.pass.cur < end <= s.pass.stop
    && s' == s.(pass := s.pass.(end := end, todo := Members(|s.marks|)))
  }

  /** A member past the window skips it, with no mark; any other applies it. */
  predicate ApplyMember(s: State, s': State, m: nat) {
    && s.pass.Pass? && m in s.pass.todo && m < |s.marks| && m < |s.done| && m < |s.pass.floors|
    && var p := s.pass.(todo := s.pass.todo - {m});
       s' == if s.pass.end <= s.pass.floors[m] then s.(pass := p)
             else s.(marks := s.marks[m := s.pass.end],
                     done := s.done[m := s.done[m] + [(s.pass.cur, s.pass.end)]],
                     pass := p)
  }

  /** Every member is past the window: the slot may be told. */
  predicate Finish(s: State, s': State, confirm: bool) {
    && s.pass.Pass? && s.pass.todo == {} && s.pass.cur < s.pass.end
    && s' == s.(confirmed := if confirm then s.pass.end else s.confirmed, pass := s.pass.(cur := s.pass.end))
  }

  /** A member fails, or the run dies. */
  predicate Die(s: State, s': State) {
    s' == s.(pass := Idle)
  }

  ghost predicate Next(s: State, s': State) {
    || (exists e :: Begin(s, s', e))
    || (exists e :: Window(s, s', e))
    || (exists m :: ApplyMember(s, s', m))
    || (exists c :: Finish(s, s', c))
    || Die(s, s')
  }

  // ------------------------------------------------------------------

  /** Windows end to end, from `a` to `b`. */
  predicate Chain(l: seq<(nat, nat)>, a: nat, b: nat) {
    if l == [] then a == b
    else
      var w := l[|l| - 1];
      w.1 == b && w.0 < w.1 && Chain(l[..|l| - 1], a, w.0)
  }

  /** Where member `m` stands while a window is applied: one ahead of the
      lowest is not touched, every other is at the window's start or end. */
  predicate MemberOk(s: State, m: nat)
    requires s.pass.Pass? && m < |s.marks| && m < |s.pass.floors|
  {
    var p := s.pass;
    if p.floors[m] > Lowest(p.floors) then s.marks[m] == p.floors[m] && p.stop <= p.floors[m]
    else p.floors[m] <= p.cur && s.marks[m] == if m in p.todo then p.cur else p.end
  }

  predicate Standing(init: seq<nat>, s: State, m: nat)
    requires m < |init| == |s.marks| == |s.done|
  {
    Chain(s.done[m], init[m], s.marks[m]) && s.confirmed <= s.marks[m]
  }

  ghost predicate Inv(init: seq<nat>, s: State) {
    && |s.marks| == |s.done| == |init| && init != []
    && (forall m :: 0 <= m < |init| ==> Standing(init, s, m))
    && (s.pass.Pass? ==>
          && |s.pass.floors| == |init| && s.pass.cur <= s.pass.end
          && (s.pass.end <= s.pass.stop || s.pass.end == s.pass.cur)
          && (forall m :: m in s.pass.todo ==> m < |init|)
          && (s.pass.todo != {} ==> s.pass.cur < s.pass.end)
          && (forall m :: 0 <= m < |init| ==> MemberOk(s, m)))
  }

  predicate Init(init: seq<nat>, s: State) {
    && init != [] && s.marks == init && |s.done| == |init| && s.pass.Idle?
    && (forall m :: 0 <= m < |init| ==> s.done[m] == [] && s.confirmed <= init[m])
  }

  lemma ApplyKeeps(init: seq<nat>, s: State, s': State, m: nat)
    requires Inv(init, s) && ApplyMember(s, s', m)
    ensures Inv(init, s')
  {
    assert Standing(init, s, m) && MemberOk(s, m);
    if s.pass.end > s.pass.floors[m] {
      var l := s.done[m];
      assert (l + [(s.pass.cur, s.pass.end)])[..|l|] == l;
      assert Standing(init, s', m);
    }
    forall x | 0 <= x < |init|
      ensures Standing(init, s', x) && MemberOk(s', x)
    {
      assert Standing(init, s, x) && MemberOk(s, x);
    }
  }

  lemma FinishKeeps(init: seq<nat>, s: State, s': State, confirm: bool)
    requires Inv(init, s) && Finish(s, s', confirm)
    ensures Inv(init, s')
  {
    forall x | 0 <= x < |init|
      ensures Standing(init, s', x) && MemberOk(s', x)
    {
      assert Standing(init, s, x) && MemberOk(s, x);
    }
  }

  lemma NextKeeps(init: seq<nat>, s: State, s': State)
    requires Inv(init, s) && Next(s, s')
    ensures Inv(init, s')
  {
    if m :| ApplyMember(s, s', m) {
      ApplyKeeps(init, s, s', m);
    } else if c :| Finish(s, s', c) {
      FinishKeeps(init, s, s', c);
    } else {
      forall x | 0 <= x < |init|
        ensures Standing(init, s', x) && (s'.pass.Pass? ==> |s'.pass.floors| == |init| && MemberOk(s', x))
      {
        assert Standing(init, s, x);
        assert s.pass.Pass? ==> MemberOk(s, x);
      }
    }
  }

  ghost predicate History(init: seq<nat>, h: seq<State>) {
    && |h| > 0 && Init(init, h[0])
    && forall i {:trigger StepAt(h, i)} :: 0 <= i < |h| - 1 ==> StepAt(h, i)
  }

  ghost predicate StepAt(h: seq<State>, i: nat)
    requires i + 1 < |h|
  {
    Next(h[i], h[i + 1])
  }

  lemma {:induction false} HistoryKeeps(init: seq<nat>, h: seq<State>, i: nat)
    requires History(init, h) && i < |h|
    ensures Inv(init, h[i])
  {
    if i == 0 {
      forall m | 0 <= m < |init|
        ensures Standing(init, h[0], m)
      {
      }
    } else {
      var j := i - 1;
      HistoryKeeps(init, h, j);
      assert StepAt(h, j);
      NextKeeps(init, h[j], h[i]);
    }
  }

  predicate Contains(w: (nat, nat), p: nat) {
    w.0 < p <= w.1
  }

  lemma {:induction false} ChainCovers(l: seq<(nat, nat)>, a: nat, b: nat, p: nat)
    requires Chain(l, a, b)
    ensures a <= b
    ensures a < p <= b <==> exists i :: 0 <= i < |l| && Contains(l[i], p)
    ensures forall i, j :: 0 <= i < |l| && 0 <= j < |l| && Contains(l[i], p) && Contains(l[j], p) ==> i == j
  {
    if l != [] {
      var q, w := l[..|l| - 1], l[|l| - 1];
      ChainCovers(q, a, w.0, p);
      assert forall i :: 0 <= i < |q| ==> q[i] == l[i];
      if w.0 < p <= b {
        assert Contains(l[|l| - 1], p);
      }
    }
  }

  /** Whichever members failed in whichever passes before, a member has applied
      every position from where it began to its watermark in exactly one
      window, so none straddled its watermark, and the slot is never told past
      a position some member has not applied. */
  lemma AppliedExactlyOnce(init: seq<nat>, h: seq<State>, i: nat, m: nat, p: nat)
    requires History(init, h) && i < |h| && m < |init|
    ensures m < |h[i].marks| && m < |h[i].done| && h[i].confirmed <= h[i].marks[m]
    ensures init[m] < p <= h[i].marks[m] <==> exists j :: 0 <= j < |h[i].done[m]| && Contains(h[i].done[m][j], p)
    ensures forall j, k ::
              (&& 0 <= j < |h[i].done[m]| && 0 <= k < |h[i].done[m]|
               && Contains(h[i].done[m][j], p) && Contains(h[i].done[m][k], p))
              ==> j == k
  {
    HistoryKeeps(init, h, i);
    assert Standing(init, h[i], m);
    ChainCovers(h[i].done[m], init[m], h[i].marks[m], p);
  }

  lemma NextConfirmed(init: seq<nat>, s: State, s': State)
    requires Inv(init, s) && Next(s, s')
    ensures s.confirmed <= s'.confirmed
  {
    if c :| Finish(s, s', c) {
      LowestReaches(init, s);
    }
  }

  /** When a window is done, the lowest members stand at its end and every other
      at or past it. */
  lemma LowestReaches(init: seq<nat>, s: State)
    requires Inv(init, s) && s.pass.Pass? && s.pass.todo == {} && s.pass.cur < s.pass.end
    ensures Lowest(s.marks) == s.pass.end && s.confirmed <= s.pass.end
  {
    forall x | 0 <= x < |init|
      ensures s.marks[x] >= s.pass.end
    {
      assert MemberOk(s, x) && Standing(init, s, x);
    }
    var low := Lowest(s.pass.floors);
    var m :| 0 <= m < |s.pass.floors| && s.pass.floors[m] == low;
    assert MemberOk(s, m) && Standing(init, s, m);
  }

  /** The slot is never told less than before, and a window it is told of leaves
      it exactly where the lowest member stands. */
  lemma {:induction false} SlotTold(init: seq<nat>, h: seq<State>, i: nat, j: nat)
    requires History(init, h) && i <= j < |h|
    ensures h[i].confirmed <= h[j].confirmed
    ensures j + 1 < |h| && Finish(h[j], h[j + 1], true) ==>
              h[j + 1].marks != [] && h[j + 1].confirmed == Lowest(h[j + 1].marks)
  {
    HistoryKeeps(init, h, j);
    if i < j {
      SlotTold(init, h, i, j - 1);
      HistoryKeeps(init, h, j - 1);
      assert StepAt(h, j - 1);
      NextConfirmed(init, h[j - 1], h[j]);
    }
    if j + 1 < |h| && Finish(h[j], h[j + 1], true) {
      LowestReaches(init, h[j]);
    }
  }

  // ------------------------------------------------------------------
  // A pass can be carried to its end.

  ghost predicate Steps(c: seq<State>) {
    forall i {:trigger StepAt(c, i)} :: 0 <= i < |c| - 1 ==> StepAt(c, i)
  }

  lemma OneState(s: State) returns (c: seq<State>)
    ensures Steps(c) && c == [s]
  {
    c := [s];
  }

  lemma Append(c: seq<State>, s: State)
    requires |c| > 0 && Steps(c) && Next(c[|c| - 1], s)
    ensures Steps(c + [s])
  {
    hide Next;
    forall i | 0 <= i < |c|
      ensures StepAt(c + [s], i)
    {
      if i < |c| - 1 {
        assert StepAt(c, i);
      }
    }
  }

  lemma {:induction false} AllApply(init: seq<nat>, c: seq<State>) returns (d: seq<State>)
    requires |c| > 0 && Steps(c) && Inv(init, c[|c| - 1]) && c[|c| - 1].pass.Pass?
    ensures |d| > 0 && Steps(d) && d[0] == c[0] && Inv(init, d[|d| - 1]) && d[|d| - 1].pass.Pass?
    ensures d[|d| - 1].pass == c[|c| - 1].pass.(todo := {}) && d[|d| - 1].confirmed == c[|c| - 1].confirmed
    decreases |c[|c| - 1].pass.todo|
  {
    var s := c[|c| - 1];
    if s.pass.todo == {} {
      d := c;
    } else {
      var m :| m in s.pass.todo;
      var p := s.pass.(todo := s.pass.todo - {m});
      var s' := if s.pass.end <= s.pass.floors[m] then s.(pass := p)
                else s.(marks := s.marks[m := s.pass.end],
                        done := s.done[m := s.done[m] + [(s.pass.cur, s.pass.end)]],
                        pass := p);
      assert ApplyMember(s, s', m);
      ApplyKeeps(init, s, s', m);
      Append(c, s');
      d := AllApply(init, c + [s']);
    }
  }

  /** From every state of a history the next pass can take the members at the
      lowest watermark, whatever failed before, to where the next one stands or
      to the end of the source's log, and tell the slot. */
  lemma PassCompletes(init: seq<nat>, h: seq<State>, i: nat, walEnd: nat) returns (c: seq<State>)
    requires History(init, h) && i < |h| && |h[i].marks| > 0 && Lowest(h[i].marks) < walEnd
    ensures |c| > 0 && Steps(c) && c[0] == h[i]
    ensures var z, cap := c[|c| - 1], MemberCap(Lowest(h[i].marks), h[i].marks);
            z.confirmed == if cap.Some? && cap.value < walEnd then cap.value else walEnd
  {
    HistoryKeeps(init, h, i);
    hide Inv, Steps, History;
    var s0 := h[i].(pass := Idle);
    c := OneState(h[i]);
    assert Die(h[i], s0);
    Append(c, s0);
    NextKeeps(init, h[i], s0);
    var low := Lowest(s0.marks);
    var cap := MemberCap(low, s0.marks);
    var stop := if cap.Some? && cap.value < walEnd then cap.value else walEnd;
    var s1 := s0.(pass := Pass(s0.marks, low, stop, low, {}));
    assert Begin(s0, s1, walEnd);
    Append(c + [s0], s1);
    NextKeeps(init, s0, s1);
    var s2 := s1.(pass := s1.pass.(end := stop, todo := Members(|s1.marks|)));
    assert Window(s1, s2, stop);
    Append(c + [s0] + [s1], s2);
    NextKeeps(init, s1, s2);
    c := AllApply(init, c + [s0] + [s1] + [s2]);
    var s3 := c[|c| - 1];
    var s4 := s3.(confirmed := stop, pass := s3.pass.(cur := stop));
    assert Finish(s3, s4, true);
    Append(c, s4);
    c := c + [s4];
  }
}
