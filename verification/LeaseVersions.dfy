// One run's lease row and its units of writes on a store without row locks.
// Every change of the row is a new version, the newest by sequence is read,
// and merges drop older ones. A statement carries its ownership test inside it
// and is bounded by the store.
module LeaseVersions {
  import opened Rows

  /** A claim or a close outranks every renewal. */
  const CLAIM_BIAS: nat := 0x4000_0000_0000_0000

  /** Times are microseconds; a collector reads what is left in whole seconds. */
  const SECOND: nat := 1_000_000

  /** How long a renewal lasts, and the margin: how much of it must be left for
      a statement to start, and how long a statement may run. */
  datatype Terms = Terms(ttl: nat, margin: nat)

  datatype Version = Version(num: nat, expires: nat, collected: bool)

  /** The sequence a version is written with, from the store's clock. */
  function LeaseNum(collected: bool, micros: nat): nat {
    micros + if collected then CLAIM_BIAS else 0
  }

  /** A unit's pinned deadline; whether a statement was sent since it was
      pinned; whether one was fenced out, wholly or in part, of which nothing
      is told; and by when the statement executing ends. */
  datatype Unit = NoUnit | Unit(e0: nat, owed: bool, skipped: bool, until: Option<nat>)

  /** `inflight` versions were decided on an earlier read and not landed yet:
      neither a renewal nor a claim is one step with its check. `begun` counts
      statements that passed their test; `marks` has, for each watermark
      written, whether anything of its unit had been fenced out. */
  datatype State = State(clock: nat, versions: set<Version>, inflight: set<Version>, cached: Option<nat>, unit: Unit,
                         begun: nat, marks: seq<bool>)

  /** A version a read of the newest may answer with. */
  ghost predicate Reads(vs: set<Version>, v: Version) {
    v in vs && forall u :: u in vs ==> u.num <= v.num
  }

  // ------------------------------------------------------------------
  // The row.

  function Renewal(p: Terms, s: State): Version {
    Version(LeaseNum(false, s.clock), s.clock + p.ttl, false)
  }

  /** The run's first write of its row. */
  predicate Open(p: Terms, s: State, s': State) {
    s.versions == {} && s' == s.(inflight := s.inflight + {Renewal(p, s)})
  }

  /** Only while the row exists and reads uncollected; expiry does not matter. */
  ghost predicate RenewCheck(p: Terms, s: State, s': State, v: Version) {
    Reads(s.versions, v) && !v.collected && s' == s.(inflight := s.inflight + {Renewal(p, s)})
  }

  /** Seconds left, counted by the second boundaries between. */
  predicate Lapsed(v: Version, clock: nat) {
    v.expires / SECOND <= clock / SECOND
  }

  function ClaimAt(clock: nat, life: nat): Version {
    Version(LeaseNum(true, clock), clock + life, true)
  }

  ghost predicate ClaimCheck(s: State, s': State, v: Version, life: nat) {
    && Reads(s.versions, v) && !v.collected && Lapsed(v, s.clock)
    && s' == s.(inflight := s.inflight + {ClaimAt(s.clock, life)})
  }

  predicate Close(s: State, s': State) {
    s' == s.(inflight := s.inflight + {Version(LeaseNum(true, s.clock), 0, true)})
  }

  predicate Land(s: State, s': State, v: Version) {
    v in s.inflight && s' == s.(versions := s.versions + {v}, inflight := s.inflight - {v})
  }

  predicate Lose(s: State, s': State, v: Version) {
    v in s.inflight && s' == s.(inflight := s.inflight - {v})
  }

  /** A background merge of some parts keeps their highest version. */
  ghost predicate Merge(s: State, s': State, parts: set<Version>, kept: Version) {
    parts <= s.versions && Reads(parts, kept) && s' == s.(versions := s.versions - parts + {kept})
  }

  ghost predicate RowStep(p: Terms, s: State, s': State) {
    || Open(p, s, s')
    || (exists v :: RenewCheck(p, s, s', v))
    || (exists v, life :: ClaimCheck(s, s', v, life))
    || Close(s, s')
    || (exists v :: Land(s, s', v))
    || (exists v :: Lose(s, s', v))
    || (exists parts, kept :: Merge(s, s', parts, kept))
  }

  // ------------------------------------------------------------------
  // The units of the run whose row it is.

  /** The row exists, is not collected, and has more than the margin left. */
  ghost predicate Owned(p: Terms, s: State, v: Version) {
    Reads(s.versions, v) && !v.collected && v.expires > s.clock + p.margin
  }

  /** The unit's own deadline, which only ever closes. */
  predicate Pinned(p: Terms, s: State) {
    s.unit.Unit? && s.clock + p.margin < s.unit.e0
  }

  ghost predicate FencedOut(p: Terms, s: State) {
    !Pinned(p, s) || !exists v :: Owned(p, s, v)
  }

  predicate Executing(s: State) {
    s.unit.Unit? && s.unit.until.Some?
  }

  predicate Ready(s: State) {
    s.unit.Unit? && s.unit.until.None?
  }

  ghost predicate Pin(p: Terms, s: State, s': State, v: Version) {
    && s.unit.NoUnit? && Owned(p, s, v)
    && s' == s.(cached := Some(v.expires), unit := Unit(v.expires, false, false, None))
  }

  /** A unit may start on the deadline of an earlier pin. */
  predicate Reuse(s: State, s': State) {
    && s.unit.NoUnit? && s.cached.Some?
    && s' == s.(unit := Unit(s.cached.value, false, false, None))
  }

  /** With a statement sent since, the read must itself pass the old deadline. */
  ghost predicate Repin(p: Terms, s: State, s': State, v: Version) {
    && Ready(s) && Owned(p, s, v) && (s.unit.owed ==> Pinned(p, s))
    && s' == s.(cached := Some(v.expires), unit := s.unit.(e0 := v.expires, owed := false))
  }

  ghost predicate Start(p: Terms, s: State, s': State, v: Version) {
    && Ready(s) && Owned(p, s, v) && Pinned(p, s)
    && s' == s.(begun := s.begun + 1, unit := s.unit.(owed := true, until := Some(s.clock + p.margin)))
  }

  /** A statement that fails its test succeeds and writes nothing. */
  ghost predicate StartFenced(p: Terms, s: State, s': State) {
    Ready(s) && FencedOut(p, s) && s' == s.(unit := s.unit.(owed := true, skipped := true))
  }

  /** A mutation evaluates its test part by part. */
  ghost predicate SkipPart(p: Terms, s: State, s': State) {
    Executing(s) && FencedOut(p, s) && s' == s.(unit := s.unit.(skipped := true))
  }

  predicate End(s: State, s': State) {
    Executing(s) && s' == s.(unit := s.unit.(until := None))
  }

  /** The watermark is the unit's last statement and carries the same test. */
  ghost predicate Mark(p: Terms, s: State, s': State, v: Version) {
    && Ready(s) && Owned(p, s, v) && Pinned(p, s)
    && s' == s.(unit := NoUnit, marks := s.marks + [s.unit.skipped])
  }

  /** A watermark that wrote no row, a failed read, an error, a crash. */
  predicate Abandon(s: State, s': State) {
    s' == s.(unit := NoUnit)
  }

  ghost predicate UnitStep(p: Terms, s: State, s': State) {
    || (exists v :: Pin(p, s, s', v))
    || Reuse(s, s')
    || (exists v :: Repin(p, s, s', v))
    || (exists v :: Start(p, s, s', v))
    || StartFenced(p, s, s')
    || SkipPart(p, s, s')
    || End(s, s')
    || (exists v :: Mark(p, s, s', v))
    || Abandon(s, s')
  }

  /** The store ends a statement when its bound is reached. */
  predicate Tick(s: State, s': State) {
    && s.clock <= s'.clock < CLAIM_BIAS && (Executing(s) ==> s'.clock <= s.unit.until.value)
    && s' == s.(clock := s'.clock)
  }

  ghost predicate Next(p: Terms, s: State, s': State) {
    RowStep(p, s, s') || UnitStep(p, s, s') || Tick(s, s')
  }

  // ------------------------------------------------------------------
  // What every state keeps.

  /** The two ranges of sequences never meet, and later renewals last longer. */
  predicate Ranged(p: Terms, v: Version) {
    if v.collected then v.num >= CLAIM_BIAS else v.num < CLAIM_BIAS && v.expires == v.num + p.ttl
  }

  /** A renewal's sequence is the time it was decided. */
  predicate Dated(v: Version, clock: nat) {
    v.collected || v.num <= clock
  }

  /** Some claim or close has landed. */
  ghost predicate Claimed(s: State) {
    exists v :: v in s.versions && v.collected
  }

  /** The row reads collected, or it has life at least to `e`. */
  ghost predicate Backed(s: State, e: nat) {
    Claimed(s) || exists v :: v in s.versions && !v.collected && v.expires >= e
  }

  ghost predicate RowOk(p: Terms, s: State) {
    s.clock < CLAIM_BIAS && (forall v :: v in s.versions + s.inflight ==> Ranged(p, v) && Dated(v, s.clock))
  }

  ghost predicate UnitOk(p: Terms, s: State) {
    && (s.cached.Some? ==> Backed(s, s.cached.value))
    && (s.unit.Unit? ==> Backed(s, s.unit.e0))
    && (Executing(s) ==>
          && s.unit.owed && s.clock <= s.unit.until.value <= s.clock + p.margin
          && Backed(s, s.unit.until.value + 1))
    && (s.unit.Unit? && s.unit.skipped ==> s.unit.owed && (Claimed(s) || !Pinned(p, s)))
    && (forall i :: 0 <= i < |s.marks| ==> !s.marks[i])
  }

  ghost predicate Inv(p: Terms, s: State) {
    RowOk(p, s) && UnitOk(p, s)
  }

  predicate Init(s: State) {
    s == State(s.clock, {}, {}, None, NoUnit, 0, []) && s.clock < CLAIM_BIAS
  }

  /** Among readable versions the newest has the longest life. */
  lemma NewestLasts(p: Terms, s: State, v: Version, e: nat)
    requires RowOk(p, s) && Backed(s, e) && Reads(s.versions, v) && !v.collected
    ensures v.expires >= e
  {
    assert v in s.versions + s.inflight;
    if Claimed(s) {
      ClaimedReadsCollected(p, s, v);
    } else {
      var u :| u in s.versions && !u.collected && u.expires >= e;
      assert u in s.versions + s.inflight && u.num <= v.num;
    }
  }

  lemma ClaimedReadsCollected(p: Terms, s: State, v: Version)
    requires RowOk(p, s) && Claimed(s) && Reads(s.versions, v)
    ensures v.collected
  {
    var u :| u in s.versions && u.collected;
    assert u in s.versions + s.inflight && v in s.versions + s.inflight && u.num <= v.num;
  }

  lemma MergeBacks(p: Terms, s: State, s': State, parts: set<Version>, kept: Version, e: nat)
    requires RowOk(p, s) && Merge(s, s', parts, kept)
    ensures Claimed(s) ==> Claimed(s')
    ensures Backed(s, e) ==> Backed(s', e)
  {
    assert kept in s'.versions && kept in s.versions + s.inflight;
    if u :| u in s.versions && u.collected {
      assert u in s.versions + s.inflight;
      assert u in parts ==> kept.collected;
      assert (if u in parts then kept else u) in s'.versions;
    } else if u :| u in s.versions && !u.collected && u.expires >= e {
      assert u in s.versions + s.inflight;
      assert u in parts ==> kept.collected || kept.expires >= e;
      assert (if u in parts then kept else u) in s'.versions;
    }
  }

  /** What the row has shown, it goes on showing. */
  lemma RowStepBacks(p: Terms, s: State, s': State, e: nat)
    requires RowOk(p, s) && RowStep(p, s, s')
    ensures Claimed(s) ==> Claimed(s')
    ensures Backed(s, e) ==> Backed(s', e)
  {
    if parts, kept :| Merge(s, s', parts, kept) {
      MergeBacks(p, s, s', parts, kept, e);
    } else {
      assert s.versions <= s'.versions;
    }
  }

  lemma RowStepUnit(p: Terms, s: State, s': State)
    requires RowStep(p, s, s')
    ensures s'.unit == s.unit && s'.cached == s.cached && s'.clock == s.clock
    ensures s'.begun == s.begun && s'.marks == s.marks
  {
  }

  lemma RowStepRow(p: Terms, s: State, s': State)
    requires RowOk(p, s) && RowStep(p, s, s')
    ensures RowOk(p, s')
  {
    if parts, kept :| Merge(s, s', parts, kept) {
      assert forall v :: v in s'.versions + s'.inflight ==> v in s.versions + s.inflight;
    } else if v :| Land(s, s', v) {
      assert forall u :: u in s'.versions + s'.inflight ==> u in s.versions + s.inflight;
    }
  }

  lemma RowStepKeeps(p: Terms, s: State, s': State)
    requires Inv(p, s) && RowStep(p, s, s')
    ensures Inv(p, s')
  {
    hide RowStep, Backed, Claimed;
    RowStepRow(p, s, s');
    RowStepUnit(p, s, s');
    if s.cached.Some? {
      RowStepBacks(p, s, s', s.cached.value);
    }
    if s.unit.Unit? {
      RowStepBacks(p, s, s', s.unit.e0);
      if s.unit.until.Some? {
        RowStepBacks(p, s, s', s.unit.until.value + 1);
      }
    }
  }

  lemma BackedSame(s: State, s': State, e: nat)
    requires s'.versions == s.versions
    ensures Backed(s', e) == Backed(s, e) && Claimed(s') == Claimed(s)
  {
  }

  lemma OwnedBacks(p: Terms, s: State, s': State, v: Version, e: nat)
    requires Owned(p, s, v) && s'.versions == s.versions && e <= v.expires
    ensures Backed(s', e)
  {
    assert v in s'.versions && !v.collected && v.expires >= e;
  }

  /** A unit that something was fenced out of cannot pass a test again. */
  lemma SkippedIsShut(p: Terms, s: State, v: Version)
    requires Inv(p, s) && s.unit.Unit? && s.unit.skipped && Owned(p, s, v)
    ensures !Pinned(p, s)
  {
    if Claimed(s) {
      ClaimedReadsCollected(p, s, v);
    }
  }

  /** Whoever is fenced out is so for good: the row is collected, or the
      deadline has passed. A renewal cannot open the fence again. */
  lemma FencedIsShut(p: Terms, s: State)
    requires Inv(p, s) && s.unit.Unit? && FencedOut(p, s)
    ensures Claimed(s) || !Pinned(p, s)
  {
    if Pinned(p, s) && !Claimed(s) {
      var u :| u in s.versions && !u.collected && u.expires >= s.unit.e0;
      var v := Newest(s.versions, u);
      NewestLasts(p, s, v, s.unit.e0);
      assert Owned(p, s, v);
    }
  }

  lemma {:induction false} Newest(vs: set<Version>, u: Version) returns (v: Version)
    requires u in vs
    ensures Reads(vs, v)
    decreases |vs|
  {
    var rest := vs - {u};
    if rest == {} {
      assert vs == {u};
      v := u;
    } else {
      var w :| w in rest;
      v := Newest(rest, w);
      if v.num < u.num {
        v := u;
      }
      assert vs == rest + {u};
    }
  }

  lemma PinKeeps(p: Terms, s: State, s': State, v: Version)
    requires Inv(p, s) && (Pin(p, s, s', v) || Repin(p, s, s', v))
    ensures Inv(p, s')
  {
    hide Backed, Claimed;
    OwnedBacks(p, s, s', v, v.expires);
    if Repin(p, s, s', v) && s.unit.skipped {
      SkippedIsShut(p, s, v);
    }
  }

  lemma StartKeeps(p: Terms, s: State, s': State, v: Version)
    requires Inv(p, s) && Start(p, s, s', v)
    ensures Inv(p, s')
  {
    hide Backed, Claimed;
    BackedSame(s, s', s.unit.e0);
    if s.cached.Some? {
      BackedSame(s, s', s.cached.value);
    }
    OwnedBacks(p, s, s', v, s.clock + p.margin + 1);
    if s.unit.skipped {
      SkippedIsShut(p, s, v);
    }
  }

  lemma FencedKeeps(p: Terms, s: State, s': State)
    requires Inv(p, s) && (StartFenced(p, s, s') || SkipPart(p, s, s'))
    ensures Inv(p, s')
  {
    hide Backed, Claimed;
    FencedIsShut(p, s);
    BackedSame(s, s', s.unit.e0);
    if s.cached.Some? {
      BackedSame(s, s', s.cached.value);
    }
    if s.unit.until.Some? {
      BackedSame(s, s', s.unit.until.value + 1);
    }
  }

  lemma MarkKeeps(p: Terms, s: State, s': State, v: Version)
    requires Inv(p, s) && Mark(p, s, s', v)
    ensures Inv(p, s')
  {
    hide Backed, Claimed;
    if s.cached.Some? {
      BackedSame(s, s', s.cached.value);
    }
    if s.unit.skipped {
      SkippedIsShut(p, s, v);
    }
  }

  lemma QuietKeeps(p: Terms, s: State, s': State)
    requires Inv(p, s) && (Reuse(s, s') || End(s, s') || Abandon(s, s') || Tick(s, s'))
    ensures Inv(p, s')
  {
    hide Backed, Claimed;
    if s.cached.Some? {
      BackedSame(s, s', s.cached.value);
    }
    if s.unit.Unit? {
      BackedSame(s, s', s.unit.e0);
      if s.unit.until.Some? {
        BackedSame(s, s', s.unit.until.value + 1);
      }
    }
  }

  lemma NextKeeps(p: Terms, s: State, s': State)
    requires Inv(p, s) && Next(p, s, s')
    ensures Inv(p, s')
  {
    hide Inv, RowStep;
    if RowStep(p, s, s') {
      RowStepKeeps(p, s, s');
    } else if v :| Pin(p, s, s', v) || Repin(p, s, s', v) {
      PinKeeps(p, s, s', v);
    } else if v :| Start(p, s, s', v) {
      StartKeeps(p, s, s', v);
    } else if StartFenced(p, s, s') || SkipPart(p, s, s') {
      FencedKeeps(p, s, s');
    } else if v :| Mark(p, s, s', v) {
      MarkKeeps(p, s, s', v);
    } else {
      QuietKeeps(p, s, s');
    }
  }

  // ------------------------------------------------------------------
  // Histories.

  ghost predicate History(p: Terms, h: seq<State>) {
    && |h| > 0 && Init(h[0])
    && forall i {:trigger StepAt(p, h, i)} :: 0 <= i < |h| - 1 ==> StepAt(p, h, i)
  }

  ghost predicate StepAt(p: Terms, h: seq<State>, i: nat)
    requires i + 1 < |h|
  {
    Next(p, h[i], h[i + 1])
  }

  lemma {:induction false} HistoryKeeps(p: Terms, h: seq<State>, i: nat)
    requires History(p, h) && i < |h|
    ensures Inv(p, h[i])
  {
    if i > 0 {
      var j := i - 1;
      HistoryKeeps(p, h, j);
      assert StepAt(p, h, j);
      NextKeeps(p, h[j], h[i]);
    }
  }

  /** No watermark is ever written for a unit of which anything was fenced out,
      however its row lapsed, was renewed or was claimed in between. */
  lemma WatermarkIsWhole(p: Terms, h: seq<State>, i: nat, k: nat)
    requires History(p, h) && i < |h| && k < |h[i].marks|
    ensures !h[i].marks[k]
  {
    HistoryKeeps(p, h, i);
  }

  /** The unit opened at `j` is the one still open at `i`. */
  ghost predicate SameUnit(h: seq<State>, j: nat, i: nat) {
    && j < i < |h| && h[j].unit.NoUnit?
    && forall k :: j < k <= i ==> h[k].unit.Unit?
  }

  lemma SkippedStays(p: Terms, s: State, s': State)
    requires Next(p, s, s') && s.unit.Unit? && s'.unit.Unit? && s.unit.skipped
    ensures s'.unit.skipped
  {
    if RowStep(p, s, s') {
      RowStepUnit(p, s, s');
    }
  }

  lemma {:induction false} SkippedTill(p: Terms, h: seq<State>, k: nat, i: nat)
    requires History(p, h) && k <= i < |h| && (forall m :: k <= m <= i ==> h[m].unit.Unit?) && h[k].unit.skipped
    ensures h[i].unit.skipped
  {
    if k < i {
      SkippedTill(p, h, k, i - 1);
      assert StepAt(p, h, i - 1);
      SkippedStays(p, h[i - 1], h[i]);
    }
  }

  /** So every statement of a unit whose watermark is written passed its test,
      and every part of it. */
  lemma MarkedUnitPassed(p: Terms, h: seq<State>, j: nat, k: nat, i: nat, v: Version)
    requires History(p, h) && SameUnit(h, j, i) && i + 1 < |h| && Mark(p, h[i], h[i + 1], v) && j < k < i
    ensures !StartFenced(p, h[k], h[k + 1]) && !SkipPart(p, h[k], h[k + 1])
  {
    HistoryKeeps(p, h, i);
    if h[k + 1].unit.skipped {
      SkippedTill(p, h, k + 1, i);
      SkippedIsShut(p, h[i], v);
    }
  }

  lemma ClaimStays(p: Terms, s: State, s': State)
    requires Inv(p, s) && Next(p, s, s') && Claimed(s)
    ensures Claimed(s') && s'.begun == s.begun && s'.marks == s.marks
    ensures forall v :: v in s'.inflight && !v.collected ==> v in s.inflight
    ensures Executing(s') ==> Executing(s) && s'.unit.until == s.unit.until
  {
    forall v | Reads(s.versions, v)
      ensures v.collected
    {
      ClaimedReadsCollected(p, s, v);
    }
    if RowStep(p, s, s') {
      RowStepBacks(p, s, s', 0);
      RowStepUnit(p, s, s');
    } else {
      BackedSame(s, s', 0);
    }
  }

  /** Once a claim has landed the row reads collected for ever, whatever
      renewals still land, further claims and merges follow, and no renewal is
      decided any more. No statement of the evicted run passes its test again
      and no watermark of it is written; what still executes is the one
      statement executing then, for a margin at most. */
  lemma {:induction false} EvictedForEver(p: Terms, h: seq<State>, i: nat, j: nat)
    requires History(p, h) && i <= j < |h| && Claimed(h[i])
    ensures Claimed(h[j]) && h[j].begun == h[i].begun && h[j].marks == h[i].marks
    ensures forall v :: Reads(h[j].versions, v) ==> v.collected
    ensures forall v :: v in h[j].inflight && !v.collected ==> v in h[i].inflight
    ensures Executing(h[j]) ==>
              Executing(h[i]) && h[j].unit.until == h[i].unit.until && h[j].clock <= h[i].clock + p.margin
  {
    HistoryKeeps(p, h, i);
    if i < j {
      var k := j - 1;
      EvictedForEver(p, h, i, k);
      HistoryKeeps(p, h, k);
      assert StepAt(p, h, k);
      ClaimStays(p, h[k], h[j]);
    }
    HistoryKeeps(p, h, j);
    forall v | Reads(h[j].versions, v)
      ensures v.collected
    {
      ClaimedReadsCollected(p, h[j], v);
    }
  }

  // ------------------------------------------------------------------
  // Statements and claims.

  lemma {:induction false} ClockRuns(p: Terms, h: seq<State>, k: nat, i: nat)
    requires History(p, h) && k <= i < |h|
    ensures h[k].clock <= h[i].clock
  {
    if k < i {
      ClockRuns(p, h, k, i - 1);
      assert StepAt(p, h, i - 1);
      if RowStep(p, h[i - 1], h[i]) {
        RowStepUnit(p, h[i - 1], h[i]);
      }
    }
  }

  /** While a statement executes, a collector's check can succeed only in the
      last second of the row's life, which it does not see. */
  lemma ClaimMeetsStatement(p: Terms, h: seq<State>, i: nat, v: Version, life: nat)
    requires History(p, h) && i + 1 < |h| && ClaimCheck(h[i], h[i + 1], v, life) && Executing(h[i])
    ensures h[i].clock < v.expires < h[i].clock + SECOND
  {
    HistoryKeeps(p, h, i);
    NewestLasts(p, h[i], v, h[i].unit.until.value + 1);
  }

  /** The first claim lands on a statement only if its check was made in that
      second, or a renewal has landed since. */
  lemma ClaimLandsOnStatement(p: Terms, h: seq<State>, k: nat, i: nat, v: Version, life: nat)
    requires History(p, h) && k < i < |h| && ClaimCheck(h[k], h[k + 1], v, life)
    requires Executing(h[i]) && !Claimed(h[i])
    ensures h[k].clock < v.expires || exists w :: w in h[i].versions && w !in h[k].versions && !w.collected
  {
    HistoryKeeps(p, h, k);
    HistoryKeeps(p, h, i);
    ClockRuns(p, h, k, i);
    var e := h[i].unit.until.value + 1;
    var w :| w in h[i].versions && !w.collected && w.expires >= e;
    if w in h[k].versions {
      assert Backed(h[k], e);
      NewestLasts(p, h[k], v, e);
    }
  }

  /** So a claim checked on a row whose life is over, with no renewal landed
      since, excludes its run at once: from then on nothing of it executes. */
  lemma CleanClaimExcludes(p: Terms, h: seq<State>, k: nat, i: nat, j: nat, v: Version, life: nat)
    requires History(p, h) && k < i < j < |h| && ClaimCheck(h[k], h[k + 1], v, life) && v.expires <= h[k].clock
    requires Land(h[i], h[i + 1], ClaimAt(h[k].clock, life)) && !Claimed(h[i])
    requires forall w :: w in h[i].versions ==> w in h[k].versions
    ensures !Executing(h[j])
  {
    if Executing(h[i]) {
      ClaimLandsOnStatement(p, h, k, i, v, life);
    }
    assert ClaimAt(h[k].clock, life) in h[i + 1].versions;
    EvictedForEver(p, h, i + 1, j);
  }

  /** A merge is invisible: what can be read after it could be read before,
      and a row that was there still is. */
  lemma MergeInvisible(p: Terms, s: State, s': State, parts: set<Version>, kept: Version)
    requires Merge(s, s', parts, kept)
    ensures forall v :: Reads(s'.versions, v) ==> Reads(s.versions, v)
    ensures s.versions == {} <==> s'.versions == {}
    ensures RowOk(p, s) ==> forall v, w :: Reads(s.versions, v) && Reads(s'.versions, w) ==> v.collected == w.collected
  {
    forall v | Reads(s'.versions, v)
      ensures Reads(s.versions, v)
    {
      forall u | u in s.versions
        ensures u.num <= v.num
      {
        if u in parts {
          assert u.num <= kept.num;
        }
      }
    }
    if RowOk(p, s) {
      forall v, w | Reads(s.versions, v) && Reads(s'.versions, w)
        ensures v.collected == w.collected
      {
        assert Reads(s.versions, w) && v in s.versions + s.inflight && w in s.versions + s.inflight;
      }
    }
  }

  // ------------------------------------------------------------------
  // A run nobody has claimed gets a watermark written.

  /** A renewal that lands is what every read answers with, unless the row has
      been claimed. */
  lemma RenewalReads(p: Terms, s: State)
    requires RowOk(p, s) && !Claimed(s)
    ensures Reads(s.versions + {Renewal(p, s)}, Renewal(p, s))
  {
    forall u | u in s.versions
      ensures u.num <= s.clock
    {
      assert u in s.versions + s.inflight;
    }
  }

  /** A unit on a row that has more than the margin left: pin, one statement,
      watermark. */
  lemma UnitRuns(p: Terms, s: State, v: Version) returns (a: State, b: State, c: State, d: State)
    requires s.unit.NoUnit? && Owned(p, s, v)
    ensures Next(p, s, a) && Next(p, a, b) && Next(p, b, c) && Next(p, c, d)
    ensures d.unit.NoUnit? && d.begun == s.begun + 1 && d.marks == s.marks + [false]
  {
    var unit := Unit(v.expires, false, false, None);
    a := s.(cached := Some(v.expires), unit := unit);
    assert Pin(p, s, a, v);
    b := a.(begun := s.begun + 1, unit := unit.(owed := true, until := Some(s.clock + p.margin)));
    assert Start(p, a, b, v);
    c := b.(unit := b.unit.(until := None));
    assert End(b, c);
    d := c.(unit := NoUnit, marks := c.marks + [c.unit.skipped]);
    assert Mark(p, c, d, v);
  }

  /** A renewal, landed, and whatever unit was open given up. */
  lemma Renews(p: Terms, s: State, v: Version) returns (a: State, b: State, c: State)
    requires Inv(p, s) && !Claimed(s) && Reads(s.versions, v) && !v.collected && p.margin < p.ttl
    ensures Next(p, s, a) && Next(p, a, b) && Next(p, b, c)
    ensures c.unit.NoUnit? && Owned(p, c, Renewal(p, s)) && c.begun == s.begun && c.marks == s.marks
  {
    var r := Renewal(p, s);
    RenewalReads(p, s);
    hide Inv;
    a := s.(inflight := s.inflight + {r});
    assert RenewCheck(p, s, a, v);
    b := a.(versions := s.versions + {r}, inflight := a.inflight - {r});
    assert Land(a, b, r);
    c := b.(unit := NoUnit);
    assert Abandon(b, c);
  }

  /** From every state of every history in which the row exists and has not been
      claimed, lapsed or not, the run can renew it, and land a statement and its
      watermark. */
  lemma UnclaimedWrites(p: Terms, h: seq<State>, i: nat)
    returns (a: State, b: State, c: State, d: State, e: State, f: State, z: State)
    requires History(p, h) && i < |h| && p.margin < p.ttl && h[i].versions != {} && !Claimed(h[i])
    ensures Next(p, h[i], a) && Next(p, a, b) && Next(p, b, c) && Next(p, c, d)
    ensures Next(p, d, e) && Next(p, e, f) && Next(p, f, z)
    ensures z.begun == h[i].begun + 1 && z.marks == h[i].marks + [false]
  {
    HistoryKeeps(p, h, i);
    hide Next, Inv, Owned, Claimed, Reads, History;
    var v := NewestUnclaimed(h[i]);
    a, b, c := Renews(p, h[i], v);
    d, e, f, z := UnitRuns(p, c, Renewal(p, h[i]));
  }

  lemma NewestUnclaimed(s: State) returns (v: Version)
    requires s.versions != {} && !Claimed(s)
    ensures Reads(s.versions, v) && !v.collected
  {
    var u :| u in s.versions;
    v := Newest(s.versions, u);
  }
}
