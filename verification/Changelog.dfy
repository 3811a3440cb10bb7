// An append-only change log over every sequence of drains, crashes, shorter
// and longer replays and rewinds.
module Changelog {
  import opened Rows
  import opened Replay

  // ------------------------------------------------------------------
  // The source: the commit positions of the table's events, in order.

  type Stream = seq<nat>

  predicate InOrder(src: Stream) {
    forall i, j :: 0 <= i < j < |src| ==> src[i] <= src[j]
  }

  /** How many events are at or before position `p`. */
  function Upto(src: Stream, p: nat): (n: nat)
    ensures n <= |src|
    ensures forall j :: n <= j < |src| ==> src[j] > p
    ensures n > 0 ==> src[n - 1] <= p
  {
    if src == [] then 0
    else if src[|src| - 1] <= p then |src|
    else Upto(src[..|src| - 1], p)
  }

  lemma UptoMono(src: Stream, p: nat, q: nat)
    requires p <= q
    ensures Upto(src, p) <= Upto(src, q)
  {
  }

  lemma {:induction false} UptoIs(src: Stream, p: nat, j: nat)
    requires InOrder(src) && j < |src|
    ensures j < Upto(src, p) <==> src[j] <= p
  {
    var n := Upto(src, p);
    if j < n {
      assert j < n - 1 ==> src[j] <= src[n - 1];
    }
  }

  // ------------------------------------------------------------------
  // The log.

  /** A row of the log: an event of this stream, or a row another release
      wrote, whose content is not looked at. */
  datatype LogRow = LogRow(stamp: nat, num: nat, event: Option<nat>)

  /** Rows by physical identity, so that a row appended twice is two rows. */
  type Log = map<nat, LogRow>

  predicate Own(log: Log, i: nat) {
    i in log && log[i].event.Some?
  }

  predicate Earlier(a: LogRow, b: LogRow) {
    a.stamp < b.stamp || (a.stamp == b.stamp && a.num < b.num)
  }

  function AtFrom(log: Log, stamp: nat, base: nat): set<nat> {
    set i | i in log && log[i].stamp == stamp && log[i].num >= base
  }

  ghost predicate IsMax(log: Log, ids: set<nat>, m: Option<nat>) {
    && (ids == {} <==> m.None?)
    && (forall i :: i in ids && i in log && m.Some? ==> log[i].num <= m.value)
    && (m.Some? ==> exists i :: i in ids && i in log && log[i].num == m.value)
  }

  ghost predicate LandedAt(log: Log, stamp: nat, base: nat, l: Landed) {
    l.count == |AtFrom(log, stamp, base)| && IsMax(log, AtFrom(log, stamp, base), l.max)
  }

  /** What the destination answers about a stamp. */
  ghost predicate FactsAt(log: Log, stamp: nat, base: nat, f: StampFacts) {
    LandedAt(log, stamp, 0, f.all) && LandedAt(log, stamp, base, f.fromBase)
  }

  // ------------------------------------------------------------------
  // The machine.

  datatype Phase = Idle | Trimming(plan: Plan) | Marking(plan: Plan) | Appending(plan: Plan) | Closing(plan: Plan)

  datatype State = State(log: Log, pending: Option<Pending>, wm: nat, seen: Option<Seen>, phase: Phase)

  ghost predicate CeilingOf(log: Log, c: Option<nat>) {
    && (log == map[] ==> c.None?)
    && (forall i :: i in log ==> c.Some? && log[i].stamp <= c.value)
  }

  /** The run's first window reads the newest marker and the highest stamp. */
  ghost predicate ProbeStep(s: State, s': State, c: Option<nat>) {
    s.phase.Idle? && s.seen.None? && CeilingOf(s.log, c) && s' == s.(seen := Some(Seen(s.pending, c)))
  }

  /** What a window knows when it plans: the memo, and the facts it asked for. */
  ghost predicate Informed(s: State, id: WindowId, f: Option<StampFacts>) {
    match AskOf(s.seen, id)
    case Probe => false
    case Facts(base) => f.Some? && FactsAt(s.log, id.start, base, f.value)
    case Nothing => f.None?
  }

  function EventsIn(src: Stream, p: nat, e: nat): nat
    requires p <= e
  {
    UptoMono(src, p, e);
    Upto(src, e) - Upto(src, p)
  }

  /** A drain to `e`: the table's events of the window are planned; a plan
      that cannot be made ends the run. */
  ghost predicate Start(src: Stream, s: State, s': State, e: nat, f: Option<StampFacts>) {
    && s.phase.Idle? && s.seen.Some? && e > s.wm && Informed(s, WindowId(s.wm, e), f)
    && var r := ReplayPlan(s.seen.value.pending, f, WindowId(s.wm, e), EventsIn(src, s.wm, e));
       s' == if r.Ok? then s.(phase := Trimming(r.value)) else s.(seen := None)
  }

  /** A trim deletes rows at the stamp from a number up; some of them may go
      before the statement is answered. */
  predicate TrimSome(s: State, s': State, gone: set<nat>) {
    && s.phase.Trimming? && s.phase.plan.trimFrom.Some?
    && gone <= AtFrom(s.log, s.phase.plan.stamp, s.phase.plan.trimFrom.value)
    && s' == s.(log := s.log - gone)
  }

  predicate TrimDone(s: State, s': State) {
    && s.phase.Trimming?
    && var p := s.phase.plan;
       s' == s.(log := if p.trimFrom.Some? then s.log - AtFrom(s.log, p.stamp, p.trimFrom.value) else s.log,
                phase := Marking(p))
  }

  predicate MarkStep(s: State, s': State) {
    && s.phase.Marking?
    && var p := s.phase.plan;
       s' == s.(pending := if p.mark then Some(Pending(p.stamp, Some(p.base))) else s.pending, phase := Appending(p))
  }

  /** `more` holds rows of the plan, none twice, under fresh identities; `first`
      is the window's first event. */
  ghost predicate RowsOf(p: Plan, first: nat, log: Log, more: Log) {
    && more.Keys !! log.Keys
    && (forall i :: i in more ==>
          && more[i].event.Some? && first + p.skip <= more[i].event.value < first + p.events
          && more[i].stamp == p.stamp && more[i].num == p.base + (more[i].event.value - first))
    && (forall i, j :: i in more && j in more && i != j ==> more[i].event != more[j].event)
  }

  ghost predicate AllRowsOf(p: Plan, first: nat, log: Log, more: Log) {
    RowsOf(p, first, log, more) && forall e :: first + p.skip <= e < first + p.events ==> Holds(more, e)
  }

  ghost predicate AppendDone(src: Stream, s: State, s': State, more: Log) {
    && s.phase.Appending? && AllRowsOf(s.phase.plan, Upto(src, s.wm), s.log, more)
    && s' == s.(log := s.log + more, phase := Closing(s.phase.plan))
  }

  /** The run dies with any part of the rows landed. */
  ghost predicate AppendTorn(src: Stream, s: State, s': State, more: Log) {
    && s.phase.Appending? && RowsOf(s.phase.plan, Upto(src, s.wm), s.log, more)
    && s' == s.(log := s.log + more, phase := Idle, seen := None)
  }

  predicate Close(s: State, s': State) {
    && s.phase.Closing?
    && s' == s.(wm := s.phase.plan.watermark, seen := RememberedAfter(s.seen, s.phase.plan), phase := Idle)
  }

  predicate Crash(s: State, s': State) {
    s' == s.(phase := Idle, seen := None)
  }

  /** The watermark is put back to `p` between runs. */
  predicate Rewind(s: State, s': State, p: nat) {
    s.phase.Idle? && p < s.wm && s' == s.(wm := p, seen := None)
  }

  ghost predicate Next(src: Stream, s: State, s': State) {
    || (exists c :: ProbeStep(s, s', c))
    || (exists e, f :: Start(src, s, s', e, f))
    || (exists gone :: TrimSome(s, s', gone))
    || TrimDone(s, s')
    || MarkStep(s, s')
    || (exists more :: AppendDone(src, s, s', more))
    || (exists more :: AppendTorn(src, s, s', more))
    || Close(s, s')
    || Crash(s, s')
    || (exists p :: Rewind(s, s', p))
  }

  // ------------------------------------------------------------------
  // What every state keeps. `w0` is where this log began, and `old_` the rows
  // other releases had left in it by then.

  datatype Origin = Origin(w0: nat, rows: Log)

  ghost predicate ForeignKept(o: Origin, log: Log) {
    && (forall i :: i in o.rows ==> o.rows[i].event.None? && o.rows[i].stamp <= o.w0)
    && (forall i :: i in o.rows ==> i in log && log[i] == o.rows[i])
    && (forall i :: i in log && log[i].event.None? ==> i in o.rows)
  }

  /** Different events, and the log's order is the source's. */
  ghost predicate Ordered(log: Log) {
    forall i, j :: Own(log, i) && Own(log, j) && i != j ==>
      log[i].event.value != log[j].event.value
      && (log[i].event.value < log[j].event.value <==> Earlier(log[i], log[j]))
  }

  /** At a shared stamp the rows other releases left come first. */
  ghost predicate ForeignBelow(log: Log) {
    forall i, j :: i in log && log[i].event.None? && Own(log, j) && log[i].stamp == log[j].stamp ==>
      log[i].num < log[j].num
  }

  ghost predicate Holds(log: Log, e: nat) {
    exists i :: Own(log, i) && log[i].event.value == e
  }

  /** At the attempt's stamp, an event's number is its place in the window;
      rows of others are below the base; nothing is stamped later. */
  ghost predicate AttemptAt(src: Stream, log: Log, start: nat, base: nat) {
    && (forall i :: Own(log, i) ==> log[i].stamp <= start)
    && (forall i :: Own(log, i) && log[i].stamp < start ==> log[i].event.value < Upto(src, start))
    && (forall i :: Own(log, i) && log[i].stamp == start ==>
          log[i].num >= base && log[i].event.value == Upto(src, start) + (log[i].num - base))
    && (forall i :: i in log && log[i].event.None? && log[i].stamp == start ==> log[i].num < base)
  }

  ghost predicate Covers(log: Log, lo: nat, hi: nat) {
    forall e :: lo <= e < hi ==> Holds(log, e)
  }

  /** No event past the first `n` after `wm` is in the log. */
  ghost predicate NothingPast(src: Stream, log: Log, wm: nat, n: nat) {
    forall i :: Own(log, i) ==> log[i].event.value < Upto(src, wm) + n
  }

  /** The marked attempt, and everything before the watermark in the log. */
  ghost predicate Marked(src: Stream, o: Origin, log: Log, start: nat, base: nat, wm: nat) {
    && o.w0 <= start <= wm
    && AttemptAt(src, log, start, base)
    && Covers(log, Upto(src, o.w0), Upto(src, wm))
    && (start < wm ==> NothingPast(src, log, wm, 0))
  }

  ghost predicate NotBefore(src: Stream, o: Origin, log: Log) {
    forall i :: Own(log, i) ==> Upto(src, o.w0) <= log[i].event.value && o.w0 <= log[i].stamp
  }

  ghost predicate Settled(src: Stream, o: Origin, s: State) {
    && ForeignKept(o, s.log) && Ordered(s.log) && ForeignBelow(s.log) && NotBefore(src, o, s.log) && o.w0 <= s.wm
    && (if s.pending.Some?
        then
          && s.pending.value.base.Some?
          && Marked(src, o, s.log, s.pending.value.start, s.pending.value.base.value, s.wm)
        else (forall i :: !Own(s.log, i)) && Upto(src, s.wm) == Upto(src, o.w0))
  }

  /** The run's memo tells what the destination would. */
  ghost predicate MemoTrue(s: State) {
    s.seen.Some? ==>
      && s.seen.value.pending == s.pending
      && forall i :: i in s.log ==>
           || (s.seen.value.ceiling.Some? && s.log[i].stamp <= s.seen.value.ceiling.value)
           || (s.pending.Some? && s.log[i].stamp <= s.pending.value.start)
  }

  /** A plan that fits what the destination holds. */
  ghost predicate Fits(src: Stream, s: State, p: Plan) {
    && p.stamp == s.wm && p.watermark > s.wm && p.events == EventsIn(src, s.wm, p.watermark)
    && p.skip <= p.events && (p.mark || p.skip == p.events)
    && AttemptAt(src, s.log, s.wm, p.base)
    && Covers(s.log, Upto(src, s.wm), Upto(src, s.wm) + p.skip)
    && (p.skip > 0 || p.trimFrom.Some? ==> s.pending == Some(Pending(s.wm, Some(p.base))))
    && (s.pending.Some? && s.pending.value.start == s.wm ==> s.pending.value.base == Some(p.base))
  }

  /** A trim takes what lies past the events kept. */
  ghost predicate TrimmingOk(src: Stream, s: State, p: Plan) {
    && MemoTrue(s) && Fits(src, s, p)
    && (p.trimFrom == Some(p.base + p.skip) || (p.trimFrom.None? && NothingPast(src, s.log, s.wm, p.skip)))
  }

  ghost predicate MarkingOk(src: Stream, s: State, p: Plan) {
    MemoTrue(s) && Fits(src, s, p) && NothingPast(src, s.log, s.wm, p.skip)
  }

  /** Rows are written only under their own marker. */
  ghost predicate AppendingOk(src: Stream, s: State, p: Plan) {
    && MemoTrue(s.(seen := RememberedAfter(s.seen, p))) && Fits(src, s, p) && NothingPast(src, s.log, s.wm, p.skip)
    && (p.skip < p.events ==> s.pending == Some(Pending(s.wm, Some(p.base))))
  }

  ghost predicate ClosingOk(src: Stream, s: State, p: Plan) {
    && MemoTrue(s.(seen := RememberedAfter(s.seen, p))) && Fits(src, s, p)
    && NothingPast(src, s.log, s.wm, p.events)
    && Covers(s.log, Upto(src, s.wm), Upto(src, s.wm) + p.events)
    && (p.events > 0 ==> s.pending == Some(Pending(s.wm, Some(p.base))))
  }

  ghost predicate PhaseOk(src: Stream, s: State) {
    match s.phase
    case Idle => MemoTrue(s)
    case Trimming(p) => TrimmingOk(src, s, p)
    case Marking(p) => MarkingOk(src, s, p)
    case Appending(p) => AppendingOk(src, s, p)
    case Closing(p) => ClosingOk(src, s, p)
  }

  ghost predicate Inv(src: Stream, o: Origin, s: State) {
    Settled(src, o, s) && PhaseOk(src, s)
  }

  predicate Init(s: State, o: Origin) {
    && s == State(o.rows, None, o.w0, None, Idle)
    && forall i :: i in o.rows ==> o.rows[i].event.None? && o.rows[i].stamp <= o.w0
  }

  lemma InitKeeps(src: Stream, s: State, o: Origin)
    requires Init(s, o)
    ensures Inv(src, o, s)
  {
  }

  // ------------------------------------------------------------------
  // The memo: a window that asks nothing, or only counts a stamp, plans what
  // it would plan with every fact.

  /** With every fact read at the window's stamp. */
  ghost predicate Full(s: State, id: WindowId, f: StampFacts) {
    FactsAt(s.log, id.start, if s.pending.Some? && s.pending.value.base.Some? then s.pending.value.base.value else 0, f)
  }

  lemma MaxUnique(log: Log, ids: set<nat>, m: Option<nat>, n: Option<nat>)
    requires IsMax(log, ids, m) && IsMax(log, ids, n)
    ensures m == n
  {
    if m.Some? && n.Some? {
      var i :| i in ids && i in log && log[i].num == m.value;
      var j :| j in ids && j in log && log[j].num == n.value;
    }
  }

  /** A window is told to ask nothing only where nothing lies: at its start,
      unless that is behind the newest attempt and it will be refused. */
  lemma NothingAskedNothingThere(s: State, id: WindowId)
    requires s.seen.Some? && MemoTrue(s) && (s.pending.Some? ==> s.pending.value.start <= id.start)
    requires AskOf(s.seen, id) == Nothing
    ensures AtFrom(s.log, id.start, 0) == {}
  {
    forall i | i in s.log
      ensures s.log[i].stamp != id.start
    {
      assert !Reaches(s.seen.value, id.start);
    }
  }

  /** A run that goes on asks nothing: past its first window, with no rows of
      others from its watermark on, every later window costs no query. */
  lemma SteadyRunAsksNothing(s: State, s': State, e: nat)
    requires Close(s, s') && s.seen.Some? && MemoTrue(s') && s'.wm < e
    requires s'.pending.Some? ==> s'.pending.value.start < s'.wm
    requires s.seen.value.ceiling.Some? ==> s.seen.value.ceiling.value < s'.wm
    ensures AskOf(s'.seen, WindowId(s'.wm, e)) == Nothing
  {
  }

  /** The fast form refines the simple one. */
  lemma MemoPlansAlike(s: State, id: WindowId, f: Option<StampFacts>, full: StampFacts, events: nat)
    requires s.seen.Some? && MemoTrue(s) && Informed(s, id, f) && Full(s, id, full)
    requires s.pending.Some? ==> s.pending.value.base.Some?
    ensures ReplayPlan(s.seen.value.pending, f, id, events) == ReplayPlan(s.pending, Some(full), id, events)
  {
    match AskOf(s.seen, id)
    case Facts(base) =>
      MaxUnique(s.log, AtFrom(s.log, id.start, 0), f.value.all.max, full.all.max);
      if s.pending.Some? && s.pending.value.start == id.start {
        MaxUnique(s.log, AtFrom(s.log, id.start, base), f.value.fromBase.max, full.fromBase.max);
      }
    case Nothing =>
      if s.pending.None? || s.pending.value.start < id.start {
        assert AtFrom(s.log, id.start, 0) == {};
      }
  }

  // ------------------------------------------------------------------
  // Counting: rows with different numbers, as many as the span they fill, are
  // an unbroken prefix.

  function Below(n: nat): (r: set<nat>)
    ensures forall t :: t in r <==> 0 <= t < n
    ensures |r| == n
  {
    if n == 0 then {} else Below(n - 1) + {n - 1}
  }

  /** How far above `base` the rows `ids` are numbered. */
  function Offsets(log: Log, ids: set<nat>, base: nat): set<nat>
    requires forall i :: i in ids ==> i in log && log[i].num >= base
  {
    set i | i in ids :: log[i].num - base
  }

  lemma {:induction false} OffsetsCount(log: Log, ids: set<nat>, base: nat)
    requires forall i :: i in ids ==> i in log && log[i].num >= base
    requires forall i, j :: i in ids && j in ids && i != j ==> log[i].num != log[j].num
    ensures |Offsets(log, ids, base)| == |ids|
  {
    if ids != {} {
      var i :| i in ids;
      var rest := ids - {i};
      OffsetsCount(log, rest, base);
      assert Offsets(log, ids, base) == Offsets(log, rest, base) + {log[i].num - base};
    }
  }

  lemma SubsetOfSameSize(a: set<nat>, b: set<nat>)
    requires a <= b && |a| == |b|
    ensures a == b
  {
    assert |b - a| == |b| - |a|;
  }

  lemma PrefixHeld(log: Log, ids: set<nat>, base: nat, t: nat)
    requires forall i :: i in ids ==> i in log && base <= log[i].num < base + |ids|
    requires forall i, j :: i in ids && j in ids && i != j ==> log[i].num != log[j].num
    requires t < |ids|
    ensures exists i :: i in ids && log[i].num == base + t
  {
    OffsetsCount(log, ids, base);
    SubsetOfSameSize(Offsets(log, ids, base), Below(|ids|));
    assert t in Offsets(log, ids, base);
  }

  // ------------------------------------------------------------------
  // Planning.

  /** A marker at the watermark names an attempt at this very window. */
  predicate Resuming(s: State) {
    s.pending.Some? && s.pending.value.start == s.wm
  }

  lemma AttemptRows(src: Stream, o: Origin, s: State, i: nat)
    requires Settled(src, o, s) && Resuming(s)
    requires i in AtFrom(s.log, s.wm, s.pending.value.base.value)
    ensures Own(s.log, i) && s.log[i].event.value == Upto(src, s.wm) + (s.log[i].num - s.pending.value.base.value)
  {
  }

  /** What an intact attempt left. */
  lemma IntactAttempt(src: Stream, o: Origin, s: State, l: Landed)
    requires Settled(src, o, s) && Resuming(s)
    requires LandedAt(s.log, s.wm, s.pending.value.base.value, l) && Intact(l, s.pending.value.base.value)
    ensures Covers(s.log, Upto(src, s.wm), Upto(src, s.wm) + l.count)
    ensures NothingPast(src, s.log, s.wm, l.count)
  {
    var base := s.pending.value.base.value;
    var ids := AtFrom(s.log, s.wm, base);
    forall i | i in ids
      ensures Own(s.log, i) && s.log[i].event.value == Upto(src, s.wm) + (s.log[i].num - base)
    {
      AttemptRows(src, o, s, i);
    }
    forall e | Upto(src, s.wm) <= e < Upto(src, s.wm) + l.count
      ensures Holds(s.log, e)
    {
      PrefixHeld(s.log, ids, base, e - Upto(src, s.wm));
    }
    forall i | Own(s.log, i)
      ensures s.log[i].event.value < Upto(src, s.wm) + l.count
    {
      assert s.log[i].stamp == s.wm ==> i in ids;
    }
  }

  lemma ResumeFits(src: Stream, o: Origin, s: State, e: nat, l: Landed)
    requires Settled(src, o, s) && Resuming(s) && e > s.wm
    requires LandedAt(s.log, s.wm, s.pending.value.base.value, l)
    ensures var base := s.pending.value.base.value;
            var r := Resume(WindowId(s.wm, e), base, l, EventsIn(src, s.wm, e));
            r.Ok? ==> Fits(src, s, r.value) && (r.value.trimFrom.None? ==> NothingPast(src, s.log, s.wm, r.value.skip))
  {
    var base := s.pending.value.base.value;
    if Intact(l, base) {
      IntactAttempt(src, o, s, l);
    }
  }

  /** Above every row of others at the stamp, and no row of this stream is there. */
  lemma FreshFits(src: Stream, o: Origin, s: State, e: nat, base: nat)
    requires Settled(src, o, s) && !Resuming(s) && e > s.wm
    requires forall i :: i in s.log && s.log[i].stamp == s.wm ==> s.log[i].num < base
    ensures var p := Plan(s.wm, base, 0, EventsIn(src, s.wm, e), None, EventsIn(src, s.wm, e) > 0, e);
            Fits(src, s, p) && NothingPast(src, s.log, s.wm, 0)
  {
    if s.pending.Some? {
      UptoMono(src, s.pending.value.start, s.wm);
    }
  }

  /** With no marker here, the plan numbers above whatever the stamp holds. */
  lemma FreshPlan(src: Stream, o: Origin, s: State, e: nat, f: Option<StampFacts>)
    requires Settled(src, o, s) && !Resuming(s) && e > s.wm && s.seen.Some? && MemoTrue(s)
    requires Informed(s, WindowId(s.wm, e), f)
    ensures var r := ReplayPlan(s.pending, f, WindowId(s.wm, e), EventsIn(src, s.wm, e));
            r.Ok? ==> Fits(src, s, r.value) && r.value.trimFrom.None? && NothingPast(src, s.log, s.wm, r.value.skip)
  {
    hide Ordered, ForeignBelow, ForeignKept, NotBefore, AttemptAt, Covers, Fits, NothingPast;
    var base := if f.Some? && f.value.all.max.Some? then f.value.all.max.value + 1 else 0;
    forall i | i in s.log && s.log[i].stamp == s.wm
      ensures s.log[i].num < base
    {
      assert i in AtFrom(s.log, s.wm, 0);
      assert f.Some?;
    }
    FreshFits(src, o, s, e, base);
  }

  /** Whatever is planned fits what the destination holds. */
  lemma PlanFits(src: Stream, o: Origin, s: State, e: nat, f: Option<StampFacts>)
    requires Settled(src, o, s) && MemoTrue(s) && s.seen.Some? && e > s.wm && Informed(s, WindowId(s.wm, e), f)
    ensures var r := ReplayPlan(s.pending, f, WindowId(s.wm, e), EventsIn(src, s.wm, e));
            r.Ok? ==> TrimmingOk(src, s, r.value)
  {
    hide Ordered, ForeignBelow, ForeignKept, NotBefore, AttemptAt, Covers, NothingPast, Fits, LandedAt;
    if Resuming(s) {
      ResumeFits(src, o, s, e, f.value.fromBase);
    } else {
      FreshPlan(src, o, s, e, f);
    }
  }

  lemma PlannedSame(src: Stream, s: State, s': State, p: Plan)
    requires TrimmingOk(src, s, p) && s' == s.(phase := Trimming(p))
    ensures TrimmingOk(src, s', p)
  {
  }

  lemma StartKeeps(src: Stream, o: Origin, s: State, s': State, e: nat, f: Option<StampFacts>)
    requires Settled(src, o, s) && MemoTrue(s) && Start(src, s, s', e, f)
    ensures Settled(src, o, s') && PhaseOk(src, s')
  {
    hide Settled, TrimmingOk, Informed;
    SettledSame(src, o, s, s');
    PlanFits(src, o, s, e, f);
    if s'.phase.Trimming? {
      PlannedSame(src, s, s', s'.phase.plan);
    }
  }

  // ------------------------------------------------------------------
  // Trimming, marking, appending, closing.

  /** The rows a trim takes are this attempt's, past the events kept. */
  lemma TrimmedRows(src: Stream, o: Origin, s: State, p: Plan, gone: set<nat>, i: nat)
    requires Settled(src, o, s) && Fits(src, s, p) && p.trimFrom == Some(p.base + p.skip)
    requires gone <= AtFrom(s.log, s.wm, p.trimFrom.value) && i in gone
    ensures Own(s.log, i) && s.log[i].event.value >= Upto(src, s.wm) + p.skip
  {
    AttemptRows(src, o, s, i);
  }

  lemma TrimmedCovers(src: Stream, o: Origin, s: State, p: Plan, gone: set<nat>, lo: nat, hi: nat)
    requires Settled(src, o, s) && Fits(src, s, p) && p.trimFrom == Some(p.base + p.skip)
    requires gone <= AtFrom(s.log, s.wm, p.trimFrom.value)
    requires hi <= Upto(src, s.wm) + p.skip && Covers(s.log, lo, hi)
    ensures Covers(s.log - gone, lo, hi)
  {
    forall e | lo <= e < hi
      ensures Holds(s.log - gone, e)
    {
      assert Holds(s.log, e);
      var i :| Own(s.log, i) && s.log[i].event.value == e;
      if i in gone {
        TrimmedRows(src, o, s, p, gone, i);
      }
      assert Own(s.log - gone, i);
    }
  }

  lemma FewerOrdered(log: Log, gone: set<nat>)
    requires Ordered(log) && ForeignBelow(log)
    ensures Ordered(log - gone) && ForeignBelow(log - gone)
  {
    var l := log - gone;
    assert forall i :: Own(l, i) ==> Own(log, i) && l[i] == log[i];
  }

  lemma FewerRows(src: Stream, o: Origin, log: Log, gone: set<nat>, start: nat, base: nat)
    requires ForeignKept(o, log) && Ordered(log) && ForeignBelow(log) && NotBefore(src, o, log)
    requires AttemptAt(src, log, start, base) && forall i :: i in gone ==> Own(log, i)
    ensures var l := log - gone;
            && ForeignKept(o, l) && Ordered(l) && ForeignBelow(l) && NotBefore(src, o, l)
            && AttemptAt(src, l, start, base)
  {
    hide Ordered, ForeignBelow;
    FewerOrdered(log, gone);
    var l := log - gone;
    assert forall i :: Own(l, i) ==> Own(log, i) && l[i] == log[i];
  }

  /** What is left of an attempt when rows past its first `skip` events go. */
  lemma TrimmedLog(src: Stream, o: Origin, s: State, p: Plan, gone: set<nat>)
    requires Settled(src, o, s) && Fits(src, s, p) && p.trimFrom == Some(p.base + p.skip)
    requires gone <= AtFrom(s.log, s.wm, p.trimFrom.value)
    ensures var l := s.log - gone;
            && ForeignKept(o, l) && Ordered(l) && ForeignBelow(l) && NotBefore(src, o, l)
            && AttemptAt(src, l, s.wm, p.base)
            && Covers(l, Upto(src, o.w0), Upto(src, s.wm)) && Covers(l, Upto(src, s.wm), Upto(src, s.wm) + p.skip)
  {
    forall i | i in gone
      ensures Own(s.log, i)
    {
      TrimmedRows(src, o, s, p, gone, i);
    }
    FewerRows(src, o, s.log, gone, s.wm, p.base);
    TrimmedCovers(src, o, s, p, gone, Upto(src, o.w0), Upto(src, s.wm));
    TrimmedCovers(src, o, s, p, gone, Upto(src, s.wm), Upto(src, s.wm) + p.skip);
  }

  lemma TrimmedSettled(src: Stream, o: Origin, s: State, s': State, p: Plan, gone: set<nat>)
    requires Settled(src, o, s) && Fits(src, s, p) && p.trimFrom == Some(p.base + p.skip)
    requires gone <= AtFrom(s.log, s.wm, p.trimFrom.value)
    requires s'.log == s.log - gone && s'.pending == s.pending && s'.wm == s.wm
    ensures Settled(src, o, s')
  {
    TrimmedLog(src, o, s, p, gone);
    assert Marked(src, o, s'.log, s.wm, p.base, s.wm);
  }

  lemma TrimmedFits(src: Stream, o: Origin, s: State, s': State, p: Plan, gone: set<nat>)
    requires Settled(src, o, s) && Fits(src, s, p) && p.trimFrom == Some(p.base + p.skip)
    requires gone <= AtFrom(s.log, s.wm, p.trimFrom.value)
    requires s'.log == s.log - gone && s'.pending == s.pending && s'.wm == s.wm
    ensures Fits(src, s', p)
  {
    TrimmedLog(src, o, s, p, gone);
  }

  lemma TrimmedMemo(s: State, s': State, gone: set<nat>)
    requires MemoTrue(s) && s'.log == s.log - gone && s'.pending == s.pending && s'.seen == s.seen
    ensures MemoTrue(s')
  {
  }

  lemma TrimSomeKeeps(src: Stream, o: Origin, s: State, s': State, gone: set<nat>)
    requires Settled(src, o, s) && s.phase.Trimming? && TrimmingOk(src, s, s.phase.plan)
    requires TrimSome(s, s', gone)
    ensures Settled(src, o, s') && TrimmingOk(src, s', s.phase.plan)
  {
    hide Settled, AttemptAt, Covers, NothingPast;
    TrimmedSettled(src, o, s, s', s.phase.plan, gone);
    TrimmedFits(src, o, s, s', s.phase.plan, gone);
    TrimmedMemo(s, s', gone);
  }

  lemma TrimmedNothingPast(src: Stream, s: State, p: Plan)
    requires Fits(src, s, p) && p.trimFrom == Some(p.base + p.skip)
    ensures NothingPast(src, s.log - AtFrom(s.log, s.wm, p.trimFrom.value), s.wm, p.skip)
  {
    var gone := AtFrom(s.log, s.wm, p.trimFrom.value);
    forall i | Own(s.log - gone, i)
      ensures s.log[i].event.value < Upto(src, s.wm) + p.skip
    {
      assert Own(s.log, i) && i !in gone;
    }
  }

  lemma TrimDoneKeeps(src: Stream, o: Origin, s: State, s': State)
    requires Settled(src, o, s) && s.phase.Trimming? && TrimmingOk(src, s, s.phase.plan) && TrimDone(s, s')
    ensures Settled(src, o, s') && MarkingOk(src, s', s.phase.plan)
  {
    hide Settled, AttemptAt, Covers, NothingPast;
    var p := s.phase.plan;
    if p.trimFrom.Some? {
      var gone := AtFrom(s.log, p.stamp, p.trimFrom.value);
      TrimmedSettled(src, o, s, s', p, gone);
      TrimmedFits(src, o, s, s', p, gone);
      TrimmedNothingPast(src, s, p);
      TrimmedMemo(s, s', gone);
    } else {
      SettledSame(src, o, s, s');
    }
  }

  lemma MarkKeeps(src: Stream, o: Origin, s: State, s': State)
    requires Settled(src, o, s) && s.phase.Marking? && MarkingOk(src, s, s.phase.plan) && MarkStep(s, s')
    ensures Settled(src, o, s') && AppendingOk(src, s', s.phase.plan)
  {
  }

  /** Appended rows come after every row there, in the source's order. */
  lemma AppendedOrdered(log: Log, p: Plan, first: nat, more: Log)
    requires Ordered(log) && RowsOf(p, first, log, more)
    requires forall i :: Own(log, i) ==> log[i].event.value < first + p.skip && log[i].stamp <= p.stamp
    requires forall i :: Own(log, i) && log[i].stamp == p.stamp ==>
          log[i].num >= p.base && log[i].event.value == first + (log[i].num - p.base)
    ensures Ordered(log + more)
  {
    var l := log + more;
    forall i, j | Own(l, i) && Own(l, j) && i != j
      ensures l[i].event.value != l[j].event.value
      ensures l[i].event.value < l[j].event.value <==> Earlier(l[i], l[j])
    {
      assert i !in more ==> Own(log, i);
      assert j !in more ==> Own(log, j);
    }
  }

  lemma AppendedBelow(log: Log, p: Plan, first: nat, more: Log)
    requires ForeignBelow(log) && RowsOf(p, first, log, more)
    requires forall i :: i in log && log[i].event.None? && log[i].stamp == p.stamp ==> log[i].num < p.base
    ensures ForeignBelow(log + more)
  {
    var l := log + more;
    assert forall i :: Own(l, i) && i !in more ==> Own(log, i);
  }

  lemma HoldsMore(log: Log, more: Log, e: nat)
    requires more.Keys !! log.Keys
    ensures Holds(log, e) || Holds(more, e) ==> Holds(log + more, e)
  {
    if i :| Own(log, i) && log[i].event.value == e {
      assert Own(log + more, i);
    }
    if i :| Own(more, i) && more[i].event.value == e {
      assert Own(log + more, i);
    }
  }

  lemma AppendedAt(src: Stream, log: Log, start: nat, p: Plan, more: Log)
    requires AttemptAt(src, log, start, p.base) && p.stamp == start && RowsOf(p, Upto(src, start), log, more)
    ensures AttemptAt(src, log + more, start, p.base)
  {
    var l := log + more;
    assert forall i :: Own(l, i) && i !in more ==> Own(log, i);
  }

  lemma AppendedForeign(o: Origin, log: Log, p: Plan, first: nat, more: Log)
    requires ForeignKept(o, log) && RowsOf(p, first, log, more)
    ensures ForeignKept(o, log + more)
  {
  }

  lemma AppendedCovers(log: Log, more: Log, lo: nat, hi: nat)
    requires more.Keys !! log.Keys && Covers(log, lo, hi)
    ensures Covers(log + more, lo, hi)
  {
    forall e | lo <= e < hi
      ensures Holds(log + more, e)
    {
      HoldsMore(log, more, e);
    }
  }

  lemma AppendedOwn(p: Plan, first: nat, log: Log, more: Log, i: nat)
    requires RowsOf(p, first, log, more) && Own(log + more, i)
    ensures if i in more then (log + more)[i] == more[i] else Own(log, i) && (log + more)[i] == log[i]
  {
  }

  lemma AppendedNotBefore(src: Stream, o: Origin, log: Log, p: Plan, first: nat, more: Log)
    requires NotBefore(src, o, log) && RowsOf(p, first, log, more) && Upto(src, o.w0) <= first && o.w0 <= p.stamp
    ensures NotBefore(src, o, log + more)
  {
    forall i | Own(log + more, i)
      ensures Upto(src, o.w0) <= (log + more)[i].event.value && o.w0 <= (log + more)[i].stamp
    {
      AppendedOwn(p, first, log, more, i);
    }
  }

  lemma AppendedSettled(src: Stream, o: Origin, s: State, s': State, p: Plan, more: Log)
    requires Settled(src, o, s) && Fits(src, s, p) && NothingPast(src, s.log, s.wm, p.skip)
    requires RowsOf(p, Upto(src, s.wm), s.log, more)
    requires s.pending == Some(Pending(s.wm, Some(p.base)))
    requires s'.log == s.log + more && s'.pending == s.pending && s'.wm == s.wm
    ensures Settled(src, o, s')
  {
    hide Ordered, ForeignBelow, ForeignKept, NotBefore, Covers;
    AppendedForeign(o, s.log, p, Upto(src, s.wm), more);
    AppendedOrdered(s.log, p, Upto(src, s.wm), more);
    AppendedBelow(s.log, p, Upto(src, s.wm), more);
    AppendedAt(src, s.log, s.wm, p, more);
    AppendedCovers(s.log, more, Upto(src, o.w0), Upto(src, s.wm));
    UptoMono(src, o.w0, s.wm);
    AppendedNotBefore(src, o, s.log, p, Upto(src, s.wm), more);
  }

  lemma AppendedFits(src: Stream, s: State, s': State, p: Plan, more: Log)
    requires Fits(src, s, p) && NothingPast(src, s.log, s.wm, p.skip) && RowsOf(p, Upto(src, s.wm), s.log, more)
    requires s'.log == s.log + more && s'.pending == s.pending && s'.wm == s.wm
    ensures Fits(src, s', p) && NothingPast(src, s'.log, s'.wm, p.events)
  {
    AppendedAt(src, s.log, s.wm, p, more);
    AppendedCovers(s.log, more, Upto(src, s.wm), Upto(src, s.wm) + p.skip);
    forall i | Own(s'.log, i)
      ensures s'.log[i].event.value < Upto(src, s.wm) + p.events
    {
      AppendedOwn(p, Upto(src, s.wm), s.log, more, i);
    }
  }

  lemma SettledSame(src: Stream, o: Origin, s: State, s': State)
    requires Settled(src, o, s) && s'.log == s.log && s'.pending == s.pending && s'.wm == s.wm
    ensures Settled(src, o, s')
  {
  }

  lemma AppendedKeeps(src: Stream, o: Origin, s: State, s': State, p: Plan, more: Log)
    requires Settled(src, o, s) && Fits(src, s, p) && NothingPast(src, s.log, s.wm, p.skip)
    requires RowsOf(p, Upto(src, s.wm), s.log, more)
    requires p.skip < p.events ==> s.pending == Some(Pending(s.wm, Some(p.base)))
    requires s'.log == s.log + more && s'.pending == s.pending && s'.wm == s.wm
    ensures Settled(src, o, s')
  {
    if j :| j in more {
      AppendedSettled(src, o, s, s', p, more);
    } else {
      assert s'.log == s.log;
      SettledSame(src, o, s, s');
    }
  }

  lemma AppendedAll(log: Log, p: Plan, first: nat, more: Log)
    requires Covers(log, first, first + p.skip) && AllRowsOf(p, first, log, more)
    ensures Covers(log + more, first, first + p.events)
  {
    forall e | first <= e < first + p.events
      ensures Holds(log + more, e)
    {
      HoldsMore(log, more, e);
    }
  }

  lemma AppendDoneKeeps(src: Stream, o: Origin, s: State, s': State, more: Log)
    requires Settled(src, o, s) && s.phase.Appending? && AppendingOk(src, s, s.phase.plan)
    requires AppendDone(src, s, s', more)
    ensures Settled(src, o, s') && ClosingOk(src, s', s.phase.plan)
  {
    hide Settled, AttemptAt, NothingPast, Covers;
    var p := s.phase.plan;
    AppendedFits(src, s, s', p, more);
    AppendedKeeps(src, o, s, s', p, more);
    AppendedAll(s.log, p, Upto(src, s.wm), more);
    AppendedMemo(src, s, more);
  }

  lemma AppendedMemo(src: Stream, s: State, more: Log)
    requires s.phase.Appending? && RowsOf(s.phase.plan, Upto(src, s.wm), s.log, more)
    requires MemoTrue(s.(seen := RememberedAfter(s.seen, s.phase.plan)))
    requires more != map[] ==> s.pending.Some? && s.pending.value.start == s.phase.plan.stamp
    ensures MemoTrue(s.(log := s.log + more, seen := RememberedAfter(s.seen, s.phase.plan)))
  {
  }

  lemma AppendTornKeeps(src: Stream, o: Origin, s: State, s': State, more: Log)
    requires Settled(src, o, s) && s.phase.Appending? && AppendingOk(src, s, s.phase.plan)
    requires AppendTorn(src, s, s', more)
    ensures Settled(src, o, s') && MemoTrue(s')
  {
    hide Settled, Fits, NothingPast;
    AppendedKeeps(src, o, s, s', s.phase.plan, more);
  }

  lemma CloseKeeps(src: Stream, o: Origin, s: State, s': State)
    requires Settled(src, o, s) && s.phase.Closing? && ClosingOk(src, s, s.phase.plan) && Close(s, s')
    ensures Settled(src, o, s') && MemoTrue(s')
  {
    UptoMono(src, s.wm, s'.wm);
  }

  // ------------------------------------------------------------------
  // Rewinds.

  /** Putting the watermark back to `p` is safe when the newest attempt
      started there, or when the table has no event since. */
  predicate SafeRewind(src: Stream, o: Origin, s: State, p: nat) {
    o.w0 <= p && ((s.pending.Some? && s.pending.value.start == p) || Upto(src, p) == Upto(src, s.wm))
  }

  lemma RewindKeeps(src: Stream, o: Origin, s: State, s': State, p: nat)
    requires Settled(src, o, s) && Rewind(s, s', p) && SafeRewind(src, o, s, p)
    requires s.pending.Some? ==> s.pending.value.start <= p
    ensures Inv(src, o, s')
  {
    UptoMono(src, p, s.wm);
  }

  // ------------------------------------------------------------------
  // Whole histories.

  /** One step of a history whose rewinds, if any, are safe. */
  ghost predicate SafeStep(src: Stream, o: Origin, s: State, s': State) {
    && Next(src, s, s')
    && forall p :: Rewind(s, s', p) ==> SafeRewind(src, o, s, p) && (s.pending.Some? ==> s.pending.value.start <= p)
  }

  lemma ProbeKeeps(src: Stream, o: Origin, s: State, s': State, c: Option<nat>)
    requires Settled(src, o, s) && ProbeStep(s, s', c)
    ensures Settled(src, o, s') && MemoTrue(s')
  {
    SettledSame(src, o, s, s');
  }

  lemma CrashKeeps(src: Stream, o: Origin, s: State, s': State)
    requires Settled(src, o, s) && Crash(s, s')
    ensures Settled(src, o, s') && MemoTrue(s')
  {
    SettledSame(src, o, s, s');
  }

  lemma StepKeeps(src: Stream, o: Origin, s: State, s': State)
    requires Inv(src, o, s) && SafeStep(src, o, s, s')
    ensures Inv(src, o, s')
  {
    hide Settled, MemoTrue, TrimmingOk, MarkingOk, AppendingOk, ClosingOk, SafeRewind;
    if c :| ProbeStep(s, s', c) {
      ProbeKeeps(src, o, s, s', c);
    } else if e, f :| Start(src, s, s', e, f) {
      StartKeeps(src, o, s, s', e, f);
    } else if gone :| TrimSome(s, s', gone) {
      TrimSomeKeeps(src, o, s, s', gone);
    } else if TrimDone(s, s') {
      TrimDoneKeeps(src, o, s, s');
    } else if MarkStep(s, s') {
      MarkKeeps(src, o, s, s');
    } else if more :| AppendDone(src, s, s', more) {
      AppendDoneKeeps(src, o, s, s', more);
    } else if more :| AppendTorn(src, s, s', more) {
      AppendTornKeeps(src, o, s, s', more);
    } else if Close(s, s') {
      CloseKeeps(src, o, s, s');
    } else if p :| Rewind(s, s', p) {
      RewindKeeps(src, o, s, s', p);
    } else {
      CrashKeeps(src, o, s, s');
    }
  }

  ghost predicate History(src: Stream, o: Origin, h: seq<State>) {
    && |h| > 0 && Init(h[0], o)
    && forall i {:trigger StepAt(src, o, h, i)} :: 0 <= i < |h| - 1 ==> StepAt(src, o, h, i)
  }

  ghost predicate StepAt(src: Stream, o: Origin, h: seq<State>, i: nat)
    requires i + 1 < |h|
  {
    SafeStep(src, o, h[i], h[i + 1])
  }

  lemma {:induction false} HistoryKeeps(src: Stream, o: Origin, h: seq<State>, i: nat)
    requires History(src, o, h) && i < |h|
    ensures Inv(src, o, h[i])
  {
    if i == 0 {
      InitKeeps(src, h[0], o);
    } else {
      var j := i - 1;
      HistoryKeeps(src, o, h, j);
      assert StepAt(src, o, h, j);
      StepKeeps(src, o, h[j], h[i]);
    }
  }

  predicate SamePlace(a: LogRow, b: LogRow) {
    a.stamp == b.stamp && a.num == b.num
  }

  /** Every row another release left comes before every row of this stream. */
  ghost predicate ForeignFirst(log: Log) {
    forall a, b :: a in log && log[a].event.None? && Own(log, b) ==> Earlier(log[a], log[b])
  }

  /** No two rows share a place, save rows that shared it to begin with. */
  ghost predicate PlacesApart(o: Origin, log: Log) {
    forall a, b :: a in log && b in log && a != b && SamePlace(log[a], log[b]) ==>
      a in o.rows && b in o.rows && SamePlace(o.rows[a], o.rows[b])
  }

  lemma SettledPlaces(src: Stream, o: Origin, s: State)
    requires Settled(src, o, s)
    ensures ForeignFirst(s.log) && PlacesApart(o, s.log)
  {
    hide Marked;
  }

  lemma SettledHolds(src: Stream, o: Origin, s: State, e: nat)
    requires InOrder(src) && Settled(src, o, s) && e < |src| && o.w0 < src[e] <= s.wm
    ensures Holds(s.log, e)
  {
    UptoIs(src, o.w0, e);
    UptoIs(src, s.wm, e);
  }

  /** Whatever crashed, replayed or rewound before: every event up to the
      watermark is in the log exactly once, no event is there twice, and the
      log's order is the source's. The rows other releases left are untouched,
      come before every row of this stream, and share a place with none. */
  lemma ExactlyOnce(src: Stream, o: Origin, h: seq<State>, i: nat)
    requires InOrder(src) && History(src, o, h) && i < |h|
    ensures forall e :: 0 <= e < |src| && o.w0 < src[e] <= h[i].wm ==> Holds(h[i].log, e)
    ensures Ordered(h[i].log)
    ensures ForeignKept(o, h[i].log) && ForeignFirst(h[i].log) && PlacesApart(o, h[i].log)
  {
    HistoryKeeps(src, o, h, i);
    SettledPlaces(src, o, h[i]);
    forall e | 0 <= e < |src| && o.w0 < src[e] <= h[i].wm
      ensures Holds(h[i].log, e)
    {
      SettledHolds(src, o, h[i], e);
    }
  }

  /** A watermark behind the newest attempt: every drain is refused, and no
      step short of moving the watermark again changes the log. */
  lemma BehindRefuses(src: Stream, s: State, s': State)
    requires s.pending.Some? && s.pending.value.start > s.wm && s.phase.Idle? && MemoTrue(s)
    requires Next(src, s, s') && !exists p :: Rewind(s, s', p)
    ensures s'.log == s.log && s'.pending == s.pending && s'.wm == s.wm && s'.phase.Idle? && MemoTrue(s')
  {
  }

  /** The watermark is put back to `p` and a new run drains to `e`: probe, plan,
      trim, marker, rows. */
  ghost predicate RewoundDrain(src: Stream, h: seq<State>, p: nat, e: nat, c: Option<nat>, f: Option<StampFacts>,
                               more: Log) {
    && |h| == 7 && Rewind(h[0], h[1], p) && ProbeStep(h[1], h[2], c)
    && Start(src, h[2], h[3], e, f) && h[3].phase.Trimming?
    && TrimDone(h[3], h[4]) && MarkStep(h[4], h[5]) && AppendDone(src, h[5], h[6], more)
  }

  /** With no marker at `p` such a drain appends the window whole. */
  lemma RewoundAppendsAll(src: Stream, h: seq<State>, p: nat, e: nat, c: Option<nat>, f: Option<StampFacts>, more: Log)
    requires RewoundDrain(src, h, p, e, c, f, more)
    requires h[0].pending.Some? ==> h[0].pending.value.start < p
    ensures more.Keys !! h[0].log.Keys && h[6].log == h[0].log + more
    ensures Covers(more, Upto(src, p), Upto(src, e))
  {
    assert h[3].phase.plan.skip == 0 && h[3].phase.plan.trimFrom.None?;
    assert h[5].phase.plan == h[3].phase.plan && h[5].log == h[0].log;
    assert AllRowsOf(h[5].phase.plan, Upto(src, p), h[0].log, more);
  }

  ghost predicate Twice(log: Log, e: nat) {
    exists a, b :: a != b && Own(log, a) && Own(log, b) && log[a].event.value == e && log[b].event.value == e
  }

  lemma HeldTwice(log: Log, more: Log, e: nat)
    requires more.Keys !! log.Keys && Holds(log, e) && Holds(more, e)
    ensures Twice(log + more, e)
  {
    var a :| Own(log, a) && log[a].event.value == e;
    var b :| Own(more, b) && more[b].event.value == e;
    var l := log + more;
    assert a != b && Own(l, a) && Own(l, b) && l[a].event.value == e && l[b].event.value == e;
  }

  /** Any other rewind appends events a second time: a drain from `p` past the
      old watermark leaves every event between the two in the log twice. */
  lemma UnsafeRewindDuplicates(src: Stream, o: Origin, h: seq<State>, p: nat, e: nat, c: Option<nat>,
                               f: Option<StampFacts>,
                               more: Log, ev: nat)
    requires RewoundDrain(src, h, p, e, c, f, more) && Inv(src, o, h[0]) && o.w0 <= p && h[0].wm <= e
    requires h[0].pending.Some? && h[0].pending.value.start < p
    requires Upto(src, p) <= ev < Upto(src, h[0].wm)
    ensures Twice(h[6].log, ev)
  {
    RewoundAppendsAll(src, h, p, e, c, f, more);
    UptoMono(src, o.w0, p);
    UptoMono(src, h[0].wm, e);
    HeldTwice(h[0].log, more, ev);
  }

  /** Before any marker is written, a rewind below where this log began is not
      noticed: the drain appends events the log stood for when it began. */
  lemma RewindBelowOrigin(src: Stream, o: Origin, h: seq<State>, p: nat, e: nat, c: Option<nat>, f: Option<StampFacts>,
                          more: Log, ev: nat)
    requires RewoundDrain(src, h, p, e, c, f, more) && Inv(src, o, h[0]) && p < o.w0 && h[0].wm <= e
    requires h[0].pending.None? && Upto(src, p) <= ev < Upto(src, o.w0)
    ensures !Holds(h[0].log, ev) && Holds(h[6].log, ev)
  {
    RewoundAppendsAll(src, h, p, e, c, f, more);
    UptoMono(src, o.w0, h[0].wm);
    UptoMono(src, h[0].wm, e);
    HoldsMore(h[0].log, more, ev);
  }
}
