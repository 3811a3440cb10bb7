// A drain of a change log can always be carried to its end.
module ChangelogProgress {
  import opened Rows
  import opened Replay
  import opened Changelog

  // ------------------------------------------------------------------
  // What the destination answers.

  lemma {:induction false} MaxOf(log: Log, ids: set<nat>) returns (m: Option<nat>)
    requires forall i :: i in ids ==> i in log
    ensures IsMax(log, ids, m)
  {
    if ids == {} {
      m := None;
    } else {
      var i :| i in ids;
      var rest := ids - {i};
      var n := MaxOf(log, rest);
      assert ids == rest + {i};
      if n.Some? && n.value >= log[i].num {
        m := n;
      } else {
        m := Some(log[i].num);
      }
    }
  }

  lemma LandedOf(log: Log, stamp: nat, base: nat) returns (l: Landed)
    ensures LandedAt(log, stamp, base, l)
  {
    var m := MaxOf(log, AtFrom(log, stamp, base));
    l := Landed(|AtFrom(log, stamp, base)|, m);
  }

  lemma FactsOf(log: Log, stamp: nat, base: nat) returns (f: StampFacts)
    ensures FactsAt(log, stamp, base, f)
  {
    var all := LandedOf(log, stamp, 0);
    var from := LandedOf(log, stamp, base);
    f := StampFacts(all, from, 0);
  }

  lemma {:induction false} CeilingFor(log: Log, ids: set<nat>) returns (c: Option<nat>)
    requires forall i :: i in ids ==> i in log
    ensures ids == {} ==> c.None?
    ensures forall i :: i in ids ==> c.Some? && log[i].stamp <= c.value
  {
    if ids == {} {
      c := None;
    } else {
      var i :| i in ids;
      var rest := ids - {i};
      var d := CeilingFor(log, rest);
      assert ids == rest + {i};
      c := if d.Some? && d.value >= log[i].stamp then d else Some(log[i].stamp);
    }
  }

  lemma Answered(s: State, id: WindowId) returns (f: Option<StampFacts>)
    requires s.seen.Some?
    ensures Informed(s, id, f)
  {
    match AskOf(s.seen, id)
    case Facts(base) =>
      var g := FactsOf(s.log, id.start, base);
      f := Some(g);
    case Nothing =>
      f := None;
  }

  // ------------------------------------------------------------------
  // Rows under fresh identities.

  lemma {:induction false} FreshFrom(ids: set<nat>) returns (n: nat)
    ensures forall i :: i in ids ==> i < n
  {
    if ids == {} {
      n := 0;
    } else {
      var i :| i in ids;
      var m := FreshFrom(ids - {i});
      n := if m > i then m else i + 1;
      assert ids == (ids - {i}) + {i};
    }
  }

  /** The plan's rows, in order, under the identities `ids` from `n` on. */
  function RowsFrom(p: Plan, first: nat, n: nat, ids: set<nat>): Log
    requires forall i :: i in ids ==> i >= n
  {
    map i | i in ids :: LogRow(p.stamp, p.base + p.skip + (i - n), Some(first + p.skip + (i - n)))
  }

  lemma Appendable(p: Plan, first: nat, log: Log) returns (more: Log)
    requires p.skip <= p.events
    ensures AllRowsOf(p, first, log, more)
  {
    var n := FreshFrom(log.Keys);
    var m := n + (p.events - p.skip);
    more := RowsFrom(p, first, n, Below(m) - Below(n));
    forall e | first + p.skip <= e < first + p.events
      ensures Holds(more, e)
    {
      assert Own(more, n + (e - first - p.skip));
    }
  }

  // ------------------------------------------------------------------
  // The drain.

  /** The window's numbers are in range, wherever they start. */
  ghost predicate InRange(src: Stream, s: State, e: nat)
    requires s.wm <= e
  {
    var n := EventsIn(src, s.wm, e);
    if Resuming(s) then s.pending.value.base.Some? && s.pending.value.base.value + n <= MAX_SEQ
    else n <= MAX_SEQ && forall i :: i in s.log && s.log[i].stamp == s.wm ==> s.log[i].num + 1 + n <= MAX_SEQ
  }

  /** A plan is made. */
  lemma Plans(src: Stream, o: Origin, s: State, e: nat, f: Option<StampFacts>)
    requires Settled(src, o, s) && MemoTrue(s) && s.seen.Some? && s.wm < e && InRange(src, s, e)
    requires s.pending.Some? ==> s.pending.value.start <= s.wm
    requires Informed(s, WindowId(s.wm, e), f)
    ensures ReplayPlan(s.seen.value.pending, f, WindowId(s.wm, e), EventsIn(src, s.wm, e)).Ok?
  {
    hide Ordered, ForeignBelow, ForeignKept, NotBefore, AttemptAt, Covers;
    if !Resuming(s) && f.Some? && f.value.all.max.Some? {
      var i :| i in AtFrom(s.log, s.wm, 0) && i in s.log && s.log[i].num == f.value.all.max.value;
    }
  }

  ghost predicate Safe(src: Stream, o: Origin, s: State, s': State) {
    SafeStep(src, o, s, s') && Inv(src, o, s')
  }

  lemma Kept(src: Stream, o: Origin, s: State, s': State)
    requires Inv(src, o, s) && Next(src, s, s') && s'.wm >= s.wm
    ensures Safe(src, o, s, s')
  {
    assert forall p :: !Rewind(s, s', p);
    hide Next, Inv;
    StepKeeps(src, o, s, s');
  }

  /** Up to the plan: whatever was under way is given up, a new run probes,
      asks what it has to, and plans. */
  lemma Started(src: Stream, o: Origin, s: State, e: nat) returns (a: State, b: State, c: State)
    requires Inv(src, o, s) && s.wm < e && InRange(src, s, e)
    requires s.pending.Some? ==> s.pending.value.start <= s.wm
    ensures Safe(src, o, s, a) && Safe(src, o, a, b) && Safe(src, o, b, c)
    ensures c.phase.Trimming? && c.phase.plan.watermark == e && c.wm == s.wm
  {
    a := s.(phase := Idle, seen := None);
    assert Crash(s, a);
    Kept(src, o, s, a);
    var top := CeilingFor(s.log, s.log.Keys);
    b := a.(seen := Some(Seen(a.pending, top)));
    assert ProbeStep(a, b, top);
    Kept(src, o, a, b);
    var f := Answered(b, WindowId(b.wm, e));
    Plans(src, o, b, e, f);
    c := b.(phase := Trimming(ReplayPlan(b.seen.value.pending, f, WindowId(b.wm, e), EventsIn(src, b.wm, e)).value));
    assert Start(src, b, c, e, f);
    Kept(src, o, b, c);
  }

  /** From the plan to the watermark: trim, marker, rows. */
  lemma Closed(src: Stream, o: Origin, s: State) returns (a: State, b: State, c: State, d: State)
    requires Inv(src, o, s) && s.phase.Trimming?
    ensures Safe(src, o, s, a) && Safe(src, o, a, b) && Safe(src, o, b, c) && Safe(src, o, c, d)
    ensures d.phase.Idle? && d.wm == s.phase.plan.watermark
  {
    var p := s.phase.plan;
    a := s.(log := if p.trimFrom.Some? then s.log - AtFrom(s.log, p.stamp, p.trimFrom.value) else s.log,
            phase := Marking(p));
    assert TrimDone(s, a);
    Kept(src, o, s, a);
    b := a.(pending := if p.mark then Some(Pending(p.stamp, Some(p.base))) else a.pending, phase := Appending(p));
    assert MarkStep(a, b);
    Kept(src, o, a, b);
    var more := Appendable(p, Upto(src, b.wm), b.log);
    c := b.(log := b.log + more, phase := Closing(p));
    assert AppendDone(src, b, c, more);
    Kept(src, o, b, c);
    d := c.(wm := p.watermark, seen := RememberedAfter(c.seen, p), phase := Idle);
    assert Close(c, d);
    Kept(src, o, c, d);
  }

  /** Any number of safe steps. */
  ghost predicate Drained(src: Stream, o: Origin, c: seq<State>) {
    forall i {:trigger StepAt(src, o, c, i)} :: 0 <= i < |c| - 1 ==> StepAt(src, o, c, i)
  }

  /** From every state of every history whose watermark is not behind the
      newest attempt, whatever died there, and for every end whose numbers are
      in range, the next drain can get there: with the watermark at that end and
      every event up to it in the log. */
  lemma DrainCompletes(src: Stream, o: Origin, h: seq<State>, i: nat, e: nat) returns (c: seq<State>)
    requires History(src, o, h) && i < |h| && h[i].wm < e && InRange(src, h[i], e)
    requires h[i].pending.Some? ==> h[i].pending.value.start <= h[i].wm
    ensures Drained(src, o, c) && |c| > 0 && c[0] == h[i]
    ensures var z := c[|c| - 1];
            z.phase.Idle? && z.wm == e && Covers(z.log, Upto(src, o.w0), Upto(src, e))
  {
    hide History, Drained, SafeStep, Inv, InRange, Covers;
    HistoryKeeps(src, o, h, i);
    var s1, s2, s3 := Started(src, o, h[i], e);
    var s4, s5, s6, s7 := Closed(src, o, s3);
    c := [h[i], s1, s2, s3, s4, s5, s6, s7];
    SettledCovers(src, o, s7);
    SevenSteps(src, o, c);
  }

  lemma SevenSteps(src: Stream, o: Origin, c: seq<State>)
    requires |c| == 8
    requires Safe(src, o, c[0], c[1]) && Safe(src, o, c[1], c[2]) && Safe(src, o, c[2], c[3])
    requires Safe(src, o, c[3], c[4]) && Safe(src, o, c[4], c[5])
    requires Safe(src, o, c[5], c[6]) && Safe(src, o, c[6], c[7])
    ensures Drained(src, o, c)
  {
    hide SafeStep, Inv;
    forall k | 0 <= k < |c| - 1
      ensures StepAt(src, o, c, k)
    {
      assert k == 0 || k == 1 || k == 2 || k == 3 || k == 4 || k == 5 || k == 6;
    }
  }

  lemma SettledCovers(src: Stream, o: Origin, s: State)
    requires Inv(src, o, s)
    ensures Covers(s.log, Upto(src, o.w0), Upto(src, s.wm))
  {
  }
}
