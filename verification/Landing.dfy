// The statements of landing runs on a store without transactions, as steps of
// one machine: any run may stop after any of them.
module Landing {
  import opened Rows
  import opened Tail
  import opened Journal

  /** A run lands `log[a..b]`: the TRUNCATE, the set phases, then the tail
      change by change. `hold` is the image about to be written, `wiped` that
      the change's own deletes have begun. */
  datatype Phase =
    | Idle
    | Starting(b: nat)
    | Setting(b: nat)
    | Tailing(b: nat, i: nat, replay: bool, hold: Option<Row>, wiped: bool)

  /** What the store holds: everything before `a` is committed. `high` is how
      far any attempt so far has reached. */
  datatype State = State(a: nat, high: nat, table: Table, journal: map<Name, Row>, phase: Phase)

  predicate InLog(log: SourceLog, a: nat, b: nat) {
    a <= b <= |log|
  }

  function Window(log: SourceLog, a: nat, b: nat): seq<Tagged>
    requires InLog(log, a, b)
  {
    Part(log, Since(log, a, b), b)
  }

  /** The last position a committed window covers. */
  function StartPos(log: SourceLog, a: nat): nat
    requires a <= |log|
  {
    if a == 0 then 0 else log[a - 1].pos
  }

  // ------------------------------------------------------------------
  // The steps.

  predicate Begin(log: SourceLog, s: State, s': State, b: nat) {
    && s.phase.Idle? && InLog(log, s.a, b) && Cut(log, b)
    && s' == s.(high := if b > s.high then b else s.high, phase := Starting(b))
  }

  predicate TruncateStep(log: SourceLog, s: State, s': State) {
    && s.phase.Starting? && InLog(log, s.a, s.phase.b)
    && s' == s.(table := if Since(log, s.a, s.phase.b) > s.a then map[] else s.table, phase := Setting(s.phase.b))
  }

  /** Part of the set phases' deletes and inserts have been answered. */
  ghost predicate SetSome(log: SourceLog, s: State, s': State) {
    && s.phase.Setting? && InLog(log, s.a, s.phase.b)
    && s' == s.(table := s'.table)
    && forall k :: k !in AllTouched(Head(Window(log, s.a, s.phase.b))) ==> Same(s'.table, s.table, k)
  }

  /** They are all done; whether an attempt has journalled anything is read. */
  ghost predicate SetDone(log: SourceLog, s: State, s': State) {
    && s.phase.Setting? && InLog(log, s.a, s.phase.b)
    && var h := Head(Window(log, s.a, s.phase.b));
       var replay := exists m :: m in s.journal && m.pos > StartPos(log, s.a);
       s' == s.(table := SetPhase(DelKeys(h), Images(h), s.table), phase := Tailing(s.phase.b, 0, replay, None, false))
  }

  predicate AtOp(log: SourceLog, s: State) {
    && s.phase.Tailing? && InLog(log, s.a, s.phase.b)
    && s.phase.i < |Window(log, s.a, s.phase.b)|
  }

  function OpAt(log: SourceLog, s: State): Op
    requires AtOp(log, s)
  {
    Window(log, s.a, s.phase.b)[s.phase.i].op
  }

  predicate OpInTail(log: SourceLog, s: State)
    requires AtOp(log, s)
  {
    InTail(Window(log, s.a, s.phase.b)[..s.phase.i], OpAt(log, s))
  }

  function NextOp(s: State): Phase
    requires s.phase.Tailing?
  {
    s.phase.(i := s.phase.i + 1, hold := None, wiped := false)
  }

  predicate NotInTail(log: SourceLog, s: State, s': State) {
    && AtOp(log, s) && !OpInTail(log, s)
    && s' == s.(phase := NextOp(s))
  }

  /** Entries of committed windows may be dropped at any time. */
  ghost predicate SweepJournal(log: SourceLog, s: State, s': State) {
    && s.phase.Tailing? && InLog(log, s.a, s.phase.b)
    && s' == s.(journal := s'.journal)
    && (forall m :: m in s'.journal ==> m in s.journal && s'.journal[m] == s.journal[m])
    && (forall m :: m in s.journal && m.pos > StartPos(log, s.a) ==> m in s'.journal)
  }

  /** A change about to read its row, not yet holding an image. */
  predicate Reading(log: SourceLog, s: State) {
    AtOp(log, s) && NeedsBase(OpAt(log, s)) && s.phase.hold.None? && !s.phase.wiped
  }

  function EntryName(log: SourceLog, s: State): Name
    requires Reading(log, s)
  {
    NameIn(Window(log, s.a, s.phase.b), s.phase.i)
  }

  predicate Hit(log: SourceLog, s: State)
    requires Reading(log, s)
  {
    var m := EntryName(log, s);
    s.phase.replay && m in s.journal && m.pos > StartPos(log, s.a)
  }

  predicate FetchHit(log: SourceLog, s: State, s': State) {
    && Reading(log, s) && Hit(log, s)
    && s' == s.(phase := s.phase.(hold := Some(s.journal[EntryName(log, s)])))
  }

  /** The row is read back and the image journalled before anything goes. */
  predicate FetchMiss(log: SourceLog, s: State, s': State) {
    && Reading(log, s) && !Hit(log, s) && Needs(OpAt(log, s)) in s.table
    && var img := Patch(OpAt(log, s).row, s.table[Needs(OpAt(log, s))]);
       s' == s.(journal := s.journal[EntryName(log, s) := img], phase := s.phase.(hold := Some(img)))
  }

  predicate Missing(log: SourceLog, s: State) {
    Reading(log, s) && !Hit(log, s) && Needs(OpAt(log, s)) !in s.table
  }

  /** A masked update, or a move on a replay, whose row is nowhere. */
  predicate Refuse(log: SourceLog, s: State, s': State) {
    && Missing(log, s) && (OpAt(log, s).Masked? || s.phase.replay)
    && s' == s.(phase := Idle)
  }

  /** A move on a first attempt whose row is not there is passed over. */
  predicate PassOver(log: SourceLog, s: State, s': State) {
    && Missing(log, s) && OpAt(log, s).Move? && !s.phase.replay
    && s' == s.(phase := NextOp(s))
  }

  predicate Writable(log: SourceLog, s: State) {
    AtOp(log, s) && OpInTail(log, s) && (NeedsBase(OpAt(log, s)) ==> s.phase.hold.Some?)
  }

  /** One of the change's own deletes has been answered. */
  predicate Wipe(log: SourceLog, s: State, s': State, k: Key) {
    && Writable(log, s) && k in Touches(OpAt(log, s))
    && s' == s.(table := s.table - {k}, phase := s.phase.(wiped := true))
  }

  function Rewritten(op: Op, hold: Option<Row>, t: Table): Table
    requires NeedsBase(op) ==> hold.Some?
  {
    match op
    case Put(k, r) => (t - {k})[k := r]
    case Del(k) => t - {k}
    case Masked(k, _) => (t - {k})[k := hold.value]
    case Move(o, n, _) => (t - {o, n})[n := hold.value]
  }

  /** The change's deletes and its insert have all been answered. */
  predicate Land(log: SourceLog, s: State, s': State) {
    && Writable(log, s)
    && s' == s.(table := Rewritten(OpAt(log, s), s.phase.hold, s.table), phase := NextOp(s))
  }

  /** The state row is written last. */
  predicate Commit(log: SourceLog, s: State, s': State) {
    && s.phase.Tailing? && InLog(log, s.a, s.phase.b) && s.phase.i == |Window(log, s.a, s.phase.b)|
    && s' == s.(a := s.phase.b, phase := Idle)
  }

  predicate Crash(s: State, s': State) {
    s' == s.(phase := Idle)
  }

  ghost predicate Next(log: SourceLog, s: State, s': State) {
    || (exists b :: Begin(log, s, s', b))
    || TruncateStep(log, s, s')
    || SetSome(log, s, s')
    || SetDone(log, s, s')
    || NotInTail(log, s, s')
    || SweepJournal(log, s, s')
    || FetchHit(log, s, s')
    || FetchMiss(log, s, s')
    || Refuse(log, s, s')
    || PassOver(log, s, s')
    || (exists k :: Wipe(log, s, s', k))
    || Land(log, s, s')
    || Commit(log, s, s')
    || Crash(s, s')
  }

  // ------------------------------------------------------------------
  // What every state keeps.

  /** Change `g` is the first since `a` to touch `k`, and it reads `k`. */
  predicate FirstReads(log: SourceLog, a: nat, g: nat, k: Key) {
    && a <= g && Tailed(log, g) && Needs(log[g].op) == k
    && forall j :: a <= j < g ==> !TouchedAt(log, j, k)
  }

  /** The image the source had after change `g`. */
  function TrueImage(log: SourceLog, t0: Table, g: nat): Row
    requires Tailed(log, g)
  {
    var k, t := Needs(log[g].op), Source(log, t0, g);
    if k in t then Patch(log[g].op.row, t[k]) else log[g].op.row
  }

  /** Every attempt that reached `g` from `a` read rows it could trust: it
      passed a TRUNCATE first, or no attempt has passed one at all. */
  predicate Trusted(log: SourceLog, a: nat, high: nat, g: nat) {
    !NoTruncate(log, a, g) || NoTruncate(log, a, high)
  }

  ghost predicate JournalTrue(log: SourceLog, t0: Table, s: State) {
    forall g :: s.a <= g && Tailed(log, g) && Live(log, g) && NameOf(log, g) in s.journal ==>
      g < s.high && (Trusted(log, s.a, s.high, g) ==> s.journal[NameOf(log, g)] == TrueImage(log, t0, g))
  }

  /** What a crash leaves for the next run. */
  ghost predicate Recoverable(log: SourceLog, t0: Table, s: State)
    requires s.a <= |log|
  {
    NoTruncate(log, s.a, s.high) ==>
      && (forall k :: !TouchedIn(log, s.a, s.high, k) ==> Same(s.table, Source(log, t0, s.a), k))
      && (forall k, g: nat :: g < s.high && FirstReads(log, s.a, g, k) ==>
            NameOf(log, g) in s.journal || Same(s.table, Source(log, t0, s.a), k))
  }

  /** The run's own reads can be trusted. */
  predicate RunTrusted(log: SourceLog, s: State, b: nat)
    requires InLog(log, s.a, b)
  {
    Since(log, s.a, b) > s.a || NoTruncate(log, s.a, s.high)
  }

  /** The table the run starts from, the source's at its last TRUNCATE. */
  function Base(log: SourceLog, t0: Table, a: nat, b: nat): Table
    requires InLog(log, a, b)
  {
    Source(log, t0, Since(log, a, b))
  }

  /** Keys the run has brought to where the window puts them so far. */
  predicate Settled(log: SourceLog, a: nat, b: nat, i: nat, k: Key)
    requires InLog(log, a, b) && i <= |Window(log, a, b)|
  {
    var l := Window(log, a, b);
    Since(log, a, b) > a || k in AllTouched(Head(l)) || k in AllTouched(Residue(l[..i]))
  }

  /** The keys of a change whose own deletes have begun. */
  function Hot(log: SourceLog, s: State): set<Key> {
    if AtOp(log, s) && s.phase.wiped then Touches(OpAt(log, s)) else {}
  }

  /** Every settled key stands where the window puts it so far. */
  ghost predicate TableSettled(log: SourceLog, t0: Table, a: nat, b: nat, i: nat, hot: set<Key>, table: Table)
    requires InLog(log, a, b) && i <= |Window(log, a, b)|
  {
    forall k :: Settled(log, a, b, i, k) && k !in hot ==>
      Same(table, Ideal(Window(log, a, b), i, Base(log, t0, a, b)), k)
  }

  /** Every tail change so far is journalled, and the image held is true. */
  ghost predicate RunJournalled(log: SourceLog, t0: Table, c: nat, b: nat, i: nat, hold: Option<Row>,
                                journal: map<Name, Row>) {
    && (forall g :: c <= g < c + i && Tailed(log, g) ==> NameOf(log, g) in journal)
    && (hold.Some? ==>
          c + i < b && Tailed(log, c + i) && NameOf(log, c + i) in journal && hold.value == TrueImage(log, t0, c + i))
  }

  /** A first attempt finds in the journal only what it wrote itself. */
  ghost predicate OnlyOwn(log: SourceLog, a: nat, c: nat, upto: nat, journal: map<Name, Row>) {
    forall g :: a <= g && Tailed(log, g) && Live(log, g) && NameOf(log, g) in journal ==> c <= g < upto
  }

  ghost predicate RunKeeps(log: SourceLog, t0: Table, s: State)
    requires s.phase.Tailing? && InLog(log, s.a, s.phase.b)
    requires s.phase.i <= |Window(log, s.a, s.phase.b)|
  {
    var b, i := s.phase.b, s.phase.i;
    var c := Since(log, s.a, b);
    && TableSettled(log, t0, s.a, b, i, Hot(log, s), s.table)
    && RunJournalled(log, t0, c, b, i, s.phase.hold, s.journal)
    && (!s.phase.replay ==> OnlyOwn(log, s.a, c, c + i + (if s.phase.hold.Some? then 1 else 0), s.journal))
    && (s.phase.wiped ==> Writable(log, s))
  }

  predicate Bounds(log: SourceLog, s: State) {
    && s.a <= s.high <= |log| && Cut(log, s.a) && Cut(log, s.high)
    && (!s.phase.Idle? ==> s.a <= s.phase.b <= s.high && Cut(log, s.phase.b))
    && (s.phase.Tailing? ==> s.phase.i <= |Window(log, s.a, s.phase.b)|)
  }

  ghost predicate Inv(log: SourceLog, t0: Table, s: State) {
    && Bounds(log, s)
    && JournalTrue(log, t0, s)
    && Recoverable(log, t0, s)
    && (s.phase.Setting? && Since(log, s.a, s.phase.b) > s.a ==>
          forall k :: k !in AllTouched(Head(Window(log, s.a, s.phase.b))) ==> k !in s.table)
    && (s.phase.Tailing? && RunTrusted(log, s, s.phase.b) ==> RunKeeps(log, t0, s))
  }

  predicate Init(s: State, t0: Table) {
    s == State(0, 0, t0, map[], Idle)
  }

  lemma InitKeeps(log: SourceLog, t0: Table, s: State)
    requires Written(log, t0) && Init(s, t0)
    ensures Inv(log, t0, s)
  {
  }

  // ------------------------------------------------------------------
  // Positions, windows and keys.

  lemma {:induction false} SinceIsStart(log: SourceLog, a: nat, b: nat)
    requires a <= b <= |log| && NoTruncate(log, a, b)
    ensures Since(log, a, b) == a
  {
  }

  lemma NameAfterStart(log: SourceLog, t0: Table, a: nat, g: nat)
    requires Written(log, t0) && Cut(log, a) && a <= g && Tailed(log, g)
    ensures NameOf(log, g).pos > StartPos(log, a)
  {
    assert PosAt(log, g) > 0;
    if a > 0 {
      CutSeparates(log, t0, a - 1, a, g);
    }
  }

  /** The source's table at the window's `i`-th change, from its base. */
  lemma SourceAt(log: SourceLog, t0: Table, c: nat, b: nat, i: nat)
    requires c <= b <= |log| && NoTruncate(log, c, b) && i <= b - c
    ensures ApplyAll(Part(log, c, b)[..i], Source(log, t0, c)) == Source(log, t0, c + i)
  {
    assert Part(log, c, b)[..i] == Part(log, c, c + i);
    PartIsSource(log, t0, c, c + i);
  }

  /** A key whose first change reads it is never written by the set phases. */
  lemma FirstReadNotSet(log: SourceLog, a: nat, b: nat, g: nat, k: Key)
    requires a <= b <= |log| && NoTruncate(log, a, b) && FirstReads(log, a, g, k)
    ensures k !in AllTouched(Head(Part(log, a, b)))
  {
    var l := Part(log, a, b);
    HeadTouches(l);
    assert l[..b - a] == l;
    WindowTouches(log, a, b, b - a, k);
    if g < b {
      forall j | 0 <= j < g - a
        ensures k !in Touches(l[j].op)
      {
        assert !TouchedAt(log, a + j, k);
      }
      HeadAfterSticky(l, g - a, k);
    }
  }

  // ------------------------------------------------------------------
  // Every write keeps what a crash must leave.

  /** A write of keys the attempts touch, each journalled first if its first
      change reads it. */
  lemma RecoverableWrite(log: SourceLog, t0: Table, s: State, s': State, ks: set<Key>)
    requires s.a <= |log| && s'.a == s.a && s'.high == s.high && Recoverable(log, t0, s)
    requires forall k :: k !in ks ==> Same(s'.table, s.table, k)
    requires forall g: nat :: s.a <= g && Tailed(log, g) && NameOf(log, g) in s.journal ==> NameOf(log, g) in s'.journal
    requires NoTruncate(log, s.a, s.high) ==> forall k :: k in ks ==> TouchedIn(log, s.a, s.high, k)
    requires NoTruncate(log, s.a, s.high) ==>
               forall k, g: nat :: k in ks && g < s.high && FirstReads(log, s.a, g, k) ==>
          NameOf(log, g) in s'.journal
    ensures Recoverable(log, t0, s')
  {
  }

  /** A step that only moves the run on. */
  lemma StoreSame(log: SourceLog, t0: Table, s: State, s': State)
    requires s.a <= |log| && Recoverable(log, t0, s) && JournalTrue(log, t0, s) && s' == s.(phase := s'.phase)
    ensures Recoverable(log, t0, s') && JournalTrue(log, t0, s')
  {
  }

  lemma JournalSame(log: SourceLog, t0: Table, s: State, s': State)
    requires JournalTrue(log, t0, s) && s'.a == s.a && s'.high == s.high && s'.journal == s.journal
    ensures JournalTrue(log, t0, s')
  {
  }

  lemma SetWriteRecoverable(log: SourceLog, t0: Table, s: State, s': State)
    requires Written(log, t0) && Inv(log, t0, s) && s.phase.Setting?
    requires s'.a == s.a && s'.high == s.high && s'.journal == s.journal
    requires forall k :: k !in AllTouched(Head(Window(log, s.a, s.phase.b))) ==> Same(s'.table, s.table, k)
    ensures Recoverable(log, t0, s')
  {
    var b := s.phase.b;
    var ks := AllTouched(Head(Window(log, s.a, b)));
    if NoTruncate(log, s.a, s.high) {
      SinceIsStart(log, s.a, b);
      var l := Window(log, s.a, b);
      forall k | k in ks
        ensures TouchedIn(log, s.a, s.high, k)
        ensures forall g: nat :: !FirstReads(log, s.a, g, k)
      {
        HeadTouches(l);
        assert l[..b - s.a] == l;
        WindowTouches(log, s.a, b, b - s.a, k);
        var h :| s.a <= h < b && TouchedAt(log, h, k);
        assert TouchedIn(log, s.a, s.high, k);
        forall g: nat
          ensures !FirstReads(log, s.a, g, k)
        {
          if FirstReads(log, s.a, g, k) {
            FirstReadNotSet(log, s.a, b, g, k);
          }
        }
      }
    }
    RecoverableWrite(log, t0, s, s', ks);
  }

  lemma OpTouches(log: SourceLog, s: State, k: Key)
    requires Bounds(log, s) && AtOp(log, s) && k in Touches(OpAt(log, s))
    ensures TouchedAt(log, Since(log, s.a, s.phase.b) + s.phase.i, k)
    ensures TouchedIn(log, s.a, s.high, k)
  {
    assert TouchedAt(log, Since(log, s.a, s.phase.b) + s.phase.i, k);
  }

  lemma TailKeyJournalled(log: SourceLog, t0: Table, s: State, k: Key, g: nat)
    requires Bounds(log, s) && Writable(log, s) && NoTruncate(log, s.a, s.high)
    requires RunJournalled(log, t0, s.a, s.phase.b, s.phase.i, s.phase.hold, s.journal)
    requires k in Touches(OpAt(log, s)) && FirstReads(log, s.a, g, k)
    ensures NameOf(log, g) in s.journal
  {
    var i := s.phase.i;
    SinceIsStart(log, s.a, s.phase.b);
    OpTouches(log, s, k);
    assert g <= s.a + i;
    if g == s.a + i {
      assert OpAt(log, s) == log[g].op;
    }
  }

  /** The tail's writes: only keys of the change at hand, whose image is held. */
  lemma TailWriteRecoverable(log: SourceLog, t0: Table, s: State, s': State)
    requires Written(log, t0) && Inv(log, t0, s) && Writable(log, s)
    requires s'.a == s.a && s'.high == s.high && s'.journal == s.journal
    requires forall k :: k !in Touches(OpAt(log, s)) ==> Same(s'.table, s.table, k)
    ensures Recoverable(log, t0, s')
  {
    var ks := Touches(OpAt(log, s));
    if NoTruncate(log, s.a, s.high) {
      forall k | k in ks
        ensures TouchedIn(log, s.a, s.high, k)
      {
        OpTouches(log, s, k);
      }
      forall k, g: nat | k in ks && g < s.high && FirstReads(log, s.a, g, k)
        ensures NameOf(log, g) in s'.journal
      {
        TailKeyJournalled(log, t0, s, k, g);
      }
    }
    RecoverableWrite(log, t0, s, s', ks);
  }

  // ------------------------------------------------------------------
  // The steps keep the invariant.

  lemma BeginKeeps(log: SourceLog, t0: Table, s: State, s': State, b: nat)
    requires Written(log, t0) && Inv(log, t0, s) && Begin(log, s, s', b)
    ensures Inv(log, t0, s')
  {
    forall g | s'.a <= g && Tailed(log, g) && Trusted(log, s'.a, s'.high, g)
      ensures Trusted(log, s.a, s.high, g)
    {
    }
    if NoTruncate(log, s'.a, s'.high) {
      forall k | !TouchedIn(log, s'.a, s'.high, k)
        ensures Same(s'.table, Source(log, t0, s'.a), k)
      {
        assert forall g :: s.a <= g < s.high && TouchedAt(log, g, k) ==> s'.a <= g < s'.high;
      }
      forall k, g: nat | g < s'.high && FirstReads(log, s'.a, g, k)
        ensures NameOf(log, g) in s'.journal || Same(s'.table, Source(log, t0, s'.a), k)
      {
        if g >= s.high {
          assert !TouchedIn(log, s.a, s.high, k);
        }
      }
    }
  }

  lemma TruncateKeeps(log: SourceLog, t0: Table, s: State, s': State)
    requires Written(log, t0) && Inv(log, t0, s) && TruncateStep(log, s, s')
    ensures Inv(log, t0, s')
  {
  }

  lemma SetSomeKeeps(log: SourceLog, t0: Table, s: State, s': State)
    requires Written(log, t0) && Inv(log, t0, s) && SetSome(log, s, s')
    ensures Inv(log, t0, s')
  {
    SetWriteRecoverable(log, t0, s, s');
    if Since(log, s.a, s.phase.b) > s.a {
      forall k | k !in AllTouched(Head(Window(log, s'.a, s'.phase.b)))
        ensures k !in s'.table
      {
        assert Same(s'.table, s.table, k);
      }
    }
  }

  /** The set phases' result at a key does not depend on what was there. */
  lemma SetPhaseAt(d: set<Key>, m: Table, t: Table, u: Table, k: Key)
    ensures k in d + m.Keys ==> Same(SetPhase(d, m, t), SetPhase(d, m, u), k)
    ensures k !in d + m.Keys ==> Same(SetPhase(d, m, t), t, k)
  {
  }

  lemma SetDoneTable(log: SourceLog, t0: Table, s: State, s': State, k: Key)
    requires Written(log, t0) && Inv(log, t0, s) && SetDone(log, s, s')
    ensures k !in AllTouched(Head(Window(log, s.a, s.phase.b))) ==> Same(s'.table, s.table, k)
    ensures Settled(log, s.a, s.phase.b, 0, k) ==>
              Same(s'.table, Ideal(Window(log, s.a, s.phase.b), 0, Base(log, t0, s.a, s.phase.b)), k)
  {
    var b := s.phase.b;
    var l, base := Window(log, s.a, b), Base(log, t0, s.a, b);
    var h := Head(l);
    SetKeys(h);
    SetPhaseAt(DelKeys(h), Images(h), s.table, base, k);
    SetPhaseAt(DelKeys(h), Images(h), base, base, k);
    SetPhaseIsReplay(h, base);
    assert l[..0] == [];
    assert Ideal(l, 0, base) == ApplyAll(h, base);
  }

  lemma SetDoneRun(log: SourceLog, t0: Table, s: State, s': State)
    requires Written(log, t0) && Inv(log, t0, s) && SetDone(log, s, s')
    ensures RunKeeps(log, t0, s')
  {
    var b := s.phase.b;
    forall k | Settled(log, s.a, b, 0, k)
      ensures Same(s'.table, Ideal(Window(log, s.a, b), 0, Base(log, t0, s.a, b)), k)
    {
      SetDoneTable(log, t0, s, s', k);
    }
    forall g | s.a <= g && Tailed(log, g) && NameOf(log, g) in s.journal
      ensures s'.phase.replay
    {
      NameAfterStart(log, t0, s.a, g);
    }
  }

  lemma SetDoneKeeps(log: SourceLog, t0: Table, s: State, s': State)
    requires Written(log, t0) && Inv(log, t0, s) && SetDone(log, s, s')
    ensures Inv(log, t0, s')
  {
    forall k
      ensures k !in AllTouched(Head(Window(log, s.a, s.phase.b))) ==> Same(s'.table, s.table, k)
    {
      SetDoneTable(log, t0, s, s', k);
    }
    SetWriteRecoverable(log, t0, s, s');
    SetDoneRun(log, t0, s, s');
  }

  lemma IdealNext(l: seq<Tagged>, i: nat, base: Table)
    requires i < |l|
    ensures InTail(l[..i], l[i].op) ==> Ideal(l, i + 1, base) == Apply(l[i].op, Ideal(l, i, base))
    ensures !InTail(l[..i], l[i].op) ==> Residue(l[..i + 1]) == Residue(l[..i])
    ensures InTail(l[..i], l[i].op) ==>
          AllTouched(Residue(l[..i + 1])) == AllTouched(Residue(l[..i])) + Touches(l[i].op)
  {
    var n := l[..i + 1];
    assert n[..i] == l[..i] && n[i] == l[i];
    if InTail(l[..i], l[i].op) {
      ApplyAllSnoc(Residue(l[..i]), l[i], ApplyAll(Head(l), base));
      assert Residue(n)[..|Residue(n)| - 1] == Residue(l[..i]);
    }
  }

  lemma SettledNext(log: SourceLog, a: nat, b: nat, i: nat, k: Key)
    requires InLog(log, a, b) && i < |Window(log, a, b)|
    ensures var l := Window(log, a, b);
            Settled(log, a, b, i + 1, k) <==>
            Settled(log, a, b, i, k) || (InTail(l[..i], l[i].op) && k in Touches(l[i].op))
  {
    IdealNext(Window(log, a, b), i, map[]);
  }

  lemma NotInTailJournal(log: SourceLog, t0: Table, s: State)
    requires Bounds(log, s) && AtOp(log, s) && !OpInTail(log, s) && RunKeeps(log, t0, s)
    ensures var c := Since(log, s.a, s.phase.b);
            && RunJournalled(log, t0, c, s.phase.b, s.phase.i + 1, None, s.journal)
            && (!s.phase.replay ==> OnlyOwn(log, s.a, c, c + s.phase.i + 1, s.journal))
            && !s.phase.wiped
  {
    assert !Tailed(log, Since(log, s.a, s.phase.b) + s.phase.i);
  }

  lemma NotInTailRun(log: SourceLog, t0: Table, s: State, s': State)
    requires Bounds(log, s) && NotInTail(log, s, s') && RunKeeps(log, t0, s)
    ensures RunKeeps(log, t0, s')
  {
    var b, i, n := s.phase.b, s.phase.i, s'.phase.i;
    NotInTailJournal(log, t0, s);
    forall k | Settled(log, s.a, b, n, k)
      ensures Same(s.table, Ideal(Window(log, s.a, b), n, Base(log, t0, s.a, b)), k)
    {
      SettledNext(log, s.a, b, i, k);
      IdealNext(Window(log, s.a, b), i, Base(log, t0, s.a, b));
    }
  }

  lemma NotInTailKeeps(log: SourceLog, t0: Table, s: State, s': State)
    requires Written(log, t0) && Inv(log, t0, s) && NotInTail(log, s, s')
    ensures Inv(log, t0, s')
  {
    hide Recoverable, JournalTrue, RunKeeps;
    StoreSame(log, t0, s, s');
    if RunTrusted(log, s, s.phase.b) {
      NotInTailRun(log, t0, s, s');
    }
  }

  lemma SweepKeeps(log: SourceLog, t0: Table, s: State, s': State)
    requires Written(log, t0) && Inv(log, t0, s) && SweepJournal(log, s, s')
    ensures Inv(log, t0, s')
  {
    hide Recoverable, JournalTrue, RunKeeps;
    forall g | s.a <= g && Tailed(log, g)
      ensures NameOf(log, g) in s'.journal <==> NameOf(log, g) in s.journal
      ensures NameOf(log, g) in s'.journal ==> s'.journal[NameOf(log, g)] == s.journal[NameOf(log, g)]
    {
      NameAfterStart(log, t0, s.a, g);
    }
    RecoverableWrite(log, t0, s, s', {});
    SweptJournal(log, t0, s, s');
    if RunTrusted(log, s, s.phase.b) {
      SweptRun(log, t0, s, s');
    }
  }

  /** The journal holds, of changes not committed, what it held. */
  ghost predicate Kept(log: SourceLog, s: State, s': State) {
    forall g :: s.a <= g && Tailed(log, g) ==>
      && (NameOf(log, g) in s'.journal <==> NameOf(log, g) in s.journal)
      && (NameOf(log, g) in s'.journal ==> s'.journal[NameOf(log, g)] == s.journal[NameOf(log, g)])
  }

  lemma SweptJournal(log: SourceLog, t0: Table, s: State, s': State)
    requires JournalTrue(log, t0, s) && Kept(log, s, s') && s'.a == s.a && s'.high == s.high
    ensures JournalTrue(log, t0, s')
  {
  }

  lemma SweptRun(log: SourceLog, t0: Table, s: State, s': State)
    requires Bounds(log, s) && Bounds(log, s') && s.phase.Tailing? && RunKeeps(log, t0, s) && Kept(log, s, s')
    requires s' == s.(journal := s'.journal)
    ensures RunKeeps(log, t0, s')
  {
    hide TableSettled;
    assert Hot(log, s') == Hot(log, s);
  }

  // ------------------------------------------------------------------
  // Reading a row back.

  /** The entry's name and the change it belongs to. */
  lemma ReadingAt(log: SourceLog, t0: Table, s: State)
    requires Written(log, t0) && Bounds(log, s) && Reading(log, s)
    ensures var g := Since(log, s.a, s.phase.b) + s.phase.i;
            && Tailed(log, g) && Live(log, g) && g < s.phase.b && log[g].op == OpAt(log, s)
            && EntryName(log, s) == NameOf(log, g) && NameOf(log, g).pos > StartPos(log, s.a)
  {
    var c := Since(log, s.a, s.phase.b);
    NameIsStable(log, t0, s.a, s.phase.b, s.phase.i);
    PartIsLive(log, t0, s.a, s.phase.b, c + s.phase.i);
    NameAfterStart(log, t0, s.a, c + s.phase.i);
  }

  /** A settled key that a tail change reads is what the source had there. */
  lemma SettledReads(log: SourceLog, t0: Table, s: State, k: Key)
    requires Bounds(log, s) && AtOp(log, s) && NeedsBase(OpAt(log, s)) && k in Touches(OpAt(log, s))
    ensures Same(Ideal(Window(log, s.a, s.phase.b), s.phase.i, Base(log, t0, s.a, s.phase.b)),
                 Source(log, t0, Since(log, s.a, s.phase.b) + s.phase.i), k)
  {
    var b, i := s.phase.b, s.phase.i;
    var c, l := Since(log, s.a, b), Window(log, s.a, b);
    IdealIsSource(l, i, Source(log, t0, c), k);
    SourceAt(log, t0, c, b, i);
  }

  /** A key the run has not settled is read for the first time since `a`. */
  lemma UnsettledIsFirst(log: SourceLog, t0: Table, s: State)
    requires Bounds(log, s) && Reading(log, s)
    requires !Settled(log, s.a, s.phase.b, s.phase.i, Needs(OpAt(log, s)))
    ensures Since(log, s.a, s.phase.b) == s.a
    ensures FirstReads(log, s.a, s.a + s.phase.i, Needs(OpAt(log, s)))
    ensures Same(Source(log, t0, s.a), Source(log, t0, s.a + s.phase.i), Needs(OpAt(log, s)))
  {
    var b, i, k := s.phase.b, s.phase.i, Needs(OpAt(log, s));
    UnsettledIsUntouched(log, s.a, b, i, k);
    SourceAt(log, t0, s.a, b, i);
    Untouched(Window(log, s.a, b)[..i], Source(log, t0, s.a), k);
  }

  lemma UnsettledIsUntouched(log: SourceLog, a: nat, b: nat, i: nat, k: Key)
    requires InLog(log, a, b) && i <= |Window(log, a, b)| && !Settled(log, a, b, i, k)
    ensures Since(log, a, b) == a && k !in AllTouched(Window(log, a, b)[..i]) && !TouchedIn(log, a, a + i, k)
  {
    var l := Window(log, a, b);
    HeadTouches(l[..i]);
    HeadOfPrefix(l, i);
    WindowTouches(log, a, b, i, k);
  }

  lemma {:induction false} HeadOfPrefix(l: seq<Tagged>, i: nat)
    requires i <= |l|
    ensures AllTouched(Head(l[..i])) <= AllTouched(Head(l))
    decreases |l|
  {
    if i == |l| {
      assert l[..i] == l;
    } else {
      var p, e := l[..|l| - 1], l[|l| - 1];
      assert p[..i] == l[..i];
      HeadOfPrefix(p, i);
      if !InTail(p, e.op) {
        assert Head(l)[..|Head(l)| - 1] == Head(p);
      }
    }
  }

  /** On a trusted run a change that misses the journal finds, at the key it
      reads, exactly the row the source had. */
  lemma MissReadsSource(log: SourceLog, t0: Table, s: State)
    requires Written(log, t0) && Inv(log, t0, s) && Reading(log, s) && !Hit(log, s) && RunTrusted(log, s, s.phase.b)
    ensures Same(s.table, Source(log, t0, Since(log, s.a, s.phase.b) + s.phase.i), Needs(OpAt(log, s)))
  {
    hide JournalTrue, RunJournalled, ApplyAll, Residue, Head, Sticky;
    var b, i, k := s.phase.b, s.phase.i, Needs(OpAt(log, s));
    if Settled(log, s.a, b, i, k) {
      SettledReads(log, t0, s, k);
    } else {
      UnsettledIsFirst(log, t0, s);
      ReadingAt(log, t0, s);
    }
  }

  /** So a trusted run is never refused and passes nothing over. */
  lemma TrustedRunFindsRow(log: SourceLog, t0: Table, s: State)
    requires Written(log, t0) && Inv(log, t0, s) && s.phase.Tailing? && RunTrusted(log, s, s.phase.b)
    ensures !Missing(log, s)
  {
    hide JournalTrue, Recoverable, TableSettled, RunKeeps, ApplyAll;
    if Reading(log, s) && !Hit(log, s) {
      MissReadsSource(log, t0, s);
      ReadingAt(log, t0, s);
      assert FoundAt(log, t0, Since(log, s.a, s.phase.b) + s.phase.i);
    }
  }

  lemma FetchHitKeeps(log: SourceLog, t0: Table, s: State, s': State)
    requires Written(log, t0) && Inv(log, t0, s) && FetchHit(log, s, s')
    ensures Inv(log, t0, s')
  {
    hide Recoverable, JournalTrue, TableSettled;
    StoreSame(log, t0, s, s');
    ReadingAt(log, t0, s);
    if RunTrusted(log, s, s.phase.b) {
      HitIsTrue(log, t0, s);
      assert Hot(log, s') == Hot(log, s) == {};
    }
  }

  /** On a trusted run a journalled image is the one the source wrote. */
  lemma HitIsTrue(log: SourceLog, t0: Table, s: State)
    requires Written(log, t0) && Bounds(log, s) && JournalTrue(log, t0, s) && Reading(log, s) && Hit(log, s)
    requires RunTrusted(log, s, s.phase.b)
    ensures Tailed(log, Since(log, s.a, s.phase.b) + s.phase.i)
    ensures s.journal[EntryName(log, s)] == TrueImage(log, t0, Since(log, s.a, s.phase.b) + s.phase.i)
  {
    ReadingAt(log, t0, s);
    assert Trusted(log, s.a, s.high, Since(log, s.a, s.phase.b) + s.phase.i);
  }

  lemma NamesAllDiffer(log: SourceLog, t0: Table, h: nat)
    requires Written(log, t0) && Tailed(log, h) && Live(log, h)
    ensures forall g :: 0 <= g && Tailed(log, g) && Live(log, g) && g != h ==> NameOf(log, g) != NameOf(log, h)
  {
    forall g | 0 <= g && Tailed(log, g) && Live(log, g) && g != h
      ensures NameOf(log, g) != NameOf(log, h)
    {
      NamesDiffer(log, t0, g, h);
    }
  }

  /** The image a trusted run reads back is the one the source wrote. */
  lemma MissIsTrue(log: SourceLog, t0: Table, s: State, s': State)
    requires Written(log, t0) && Inv(log, t0, s) && FetchMiss(log, s, s') && RunTrusted(log, s, s.phase.b)
    ensures var g := Since(log, s.a, s.phase.b) + s.phase.i;
            Tailed(log, g) && s'.phase.hold.value == TrueImage(log, t0, g)
  {
    ReadingAt(log, t0, s);
    MissReadsSource(log, t0, s);
  }

  lemma FetchMissJournal(log: SourceLog, t0: Table, s: State, s': State)
    requires Written(log, t0) && Bounds(log, s) && JournalTrue(log, t0, s) && FetchMiss(log, s, s')
    requires var g := Since(log, s.a, s.phase.b) + s.phase.i;
             RunTrusted(log, s, s.phase.b) ==> Tailed(log, g) && s'.phase.hold.value == TrueImage(log, t0, g)
    ensures JournalTrue(log, t0, s')
  {
    ReadingAt(log, t0, s);
    NamesAllDiffer(log, t0, Since(log, s.a, s.phase.b) + s.phase.i);
  }

  lemma FetchMissRun(log: SourceLog, t0: Table, s: State, s': State)
    requires Written(log, t0) && Bounds(log, s) && FetchMiss(log, s, s') && RunKeeps(log, t0, s)
    requires var g := Since(log, s.a, s.phase.b) + s.phase.i;
             Tailed(log, g) && s'.phase.hold.value == TrueImage(log, t0, g)
    ensures RunKeeps(log, t0, s')
  {
    hide TableSettled, RunJournalled, OnlyOwn;
    var c, i := Since(log, s.a, s.phase.b), s.phase.i;
    ReadingAt(log, t0, s);
    JournalledMore(log, t0, c, s.phase.b, i, s.journal, s'.phase.hold.value);
    if !s.phase.replay {
      OwnMore(log, t0, s.a, c, c + i, s.journal, s'.phase.hold.value);
    }
    assert Hot(log, s') == Hot(log, s) == {};
  }

  lemma JournalledMore(log: SourceLog, t0: Table, c: nat, b: nat, i: nat, journal: map<Name, Row>, img: Row)
    requires RunJournalled(log, t0, c, b, i, None, journal) && c + i < b && Tailed(log, c + i)
    requires img == TrueImage(log, t0, c + i)
    ensures RunJournalled(log, t0, c, b, i, Some(img), journal[NameOf(log, c + i) := img])
  {
  }

  lemma OwnMore(log: SourceLog, t0: Table, a: nat, c: nat, g: nat, journal: map<Name, Row>, img: Row)
    requires Written(log, t0) && OnlyOwn(log, a, c, g, journal) && c <= g && Tailed(log, g) && Live(log, g)
    ensures OnlyOwn(log, a, c, g + 1, journal[NameOf(log, g) := img])
  {
    NamesAllDiffer(log, t0, g);
  }

  lemma FetchMissKeeps(log: SourceLog, t0: Table, s: State, s': State)
    requires Written(log, t0) && Inv(log, t0, s) && FetchMiss(log, s, s')
    ensures Inv(log, t0, s')
  {
    if RunTrusted(log, s, s.phase.b) {
      MissIsTrue(log, t0, s, s');
      FetchMissRun(log, t0, s, s');
    }
    FetchMissJournal(log, t0, s, s');
    RecoverableWrite(log, t0, s, s', {});
  }

  lemma StopKeeps(log: SourceLog, t0: Table, s: State, s': State)
    requires Written(log, t0) && Inv(log, t0, s) && s' == s.(phase := Idle)
    ensures Inv(log, t0, s')
  {
  }

  lemma PassOverKeeps(log: SourceLog, t0: Table, s: State, s': State)
    requires Written(log, t0) && Inv(log, t0, s) && PassOver(log, s, s')
    ensures Inv(log, t0, s')
  {
    if RunTrusted(log, s, s.phase.b) {
      TrustedRunFindsRow(log, t0, s);
    }
  }

  lemma WipeRun(log: SourceLog, t0: Table, s: State, s': State, k: Key)
    requires Bounds(log, s) && Bounds(log, s') && Wipe(log, s, s', k) && RunKeeps(log, t0, s)
    ensures RunKeeps(log, t0, s')
  {
    hide RunJournalled, OnlyOwn;
    assert Hot(log, s') == Touches(OpAt(log, s));
  }

  lemma WipeKeeps(log: SourceLog, t0: Table, s: State, s': State, k: Key)
    requires Written(log, t0) && Inv(log, t0, s) && Wipe(log, s, s', k)
    ensures Inv(log, t0, s')
  {
    TailWriteRecoverable(log, t0, s, s');
    hide Recoverable, JournalTrue, RunKeeps;
    JournalSame(log, t0, s, s');
    if RunTrusted(log, s, s.phase.b) {
      WipeRun(log, t0, s, s', k);
    }
  }

  /** The change lands what the source had after it. */
  lemma LandAt(log: SourceLog, t0: Table, s: State, s': State, k: Key)
    requires Written(log, t0) && Inv(log, t0, s) && Land(log, s, s') && RunTrusted(log, s, s.phase.b)
    requires k in Touches(OpAt(log, s))
    ensures var i := Ideal(Window(log, s.a, s.phase.b), s.phase.i, Base(log, t0, s.a, s.phase.b));
            Same(s'.table, Apply(OpAt(log, s), i), k)
  {
    hide JournalTrue, Recoverable, TableSettled, OnlyOwn, ApplyAll, Residue, Head, Sticky;
    var op := OpAt(log, s);
    if NeedsBase(op) {
      var g := Since(log, s.a, s.phase.b) + s.phase.i;
      SettledReads(log, t0, s, Needs(op));
      assert log[g].op == op;
      assert FoundAt(log, t0, g);
    }
  }

  lemma WrittenElsewhere(op: Op, hold: Option<Row>, t: Table, u: Table, k: Key)
    requires (NeedsBase(op) ==> hold.Some?) && k !in Touches(op)
    ensures Same(Rewritten(op, hold, t), t, k) && Same(Apply(op, u), u, k)
  {
  }

  /** A key the change does not touch was settled before and still is. */
  lemma LandElsewhere(log: SourceLog, t0: Table, s: State, s': State, k: Key)
    requires Bounds(log, s) && Land(log, s, s') && RunKeeps(log, t0, s) && k !in Touches(OpAt(log, s))
    requires Settled(log, s.a, s.phase.b, s'.phase.i, k)
    ensures var i := Ideal(Window(log, s.a, s.phase.b), s.phase.i, Base(log, t0, s.a, s.phase.b));
            Same(s'.table, Apply(OpAt(log, s), i), k)
  {
    hide ApplyAll, Residue, Head, Sticky, Apply, Rewritten, RunJournalled, OnlyOwn;
    SettledNext(log, s.a, s.phase.b, s.phase.i, k);
    var i := Ideal(Window(log, s.a, s.phase.b), s.phase.i, Base(log, t0, s.a, s.phase.b));
    WrittenElsewhere(OpAt(log, s), s.phase.hold, s.table, i, k);
  }

  lemma LandSettles(log: SourceLog, t0: Table, s: State, s': State, k: Key)
    requires Written(log, t0) && Inv(log, t0, s) && Land(log, s, s') && RunTrusted(log, s, s.phase.b)
    requires Settled(log, s.a, s.phase.b, s'.phase.i, k)
    ensures Same(s'.table, Ideal(Window(log, s.a, s.phase.b), s'.phase.i, Base(log, t0, s.a, s.phase.b)), k)
  {
    IdealNext(Window(log, s.a, s.phase.b), s.phase.i, Base(log, t0, s.a, s.phase.b));
    if k in Touches(OpAt(log, s)) {
      LandAt(log, t0, s, s', k);
    } else {
      LandElsewhere(log, t0, s, s', k);
    }
  }

  lemma LandJournalled(log: SourceLog, t0: Table, s: State, s': State)
    requires Bounds(log, s) && Land(log, s, s') && RunKeeps(log, t0, s)
    ensures var c := Since(log, s.a, s.phase.b);
            && RunJournalled(log, t0, c, s.phase.b, s'.phase.i, None, s.journal)
            && (!s.phase.replay ==> OnlyOwn(log, s.a, c, c + s'.phase.i, s.journal))
  {
    hide TableSettled;
    var c, i := Since(log, s.a, s.phase.b), s.phase.i;
    assert log[c + i].op == OpAt(log, s);
  }

  lemma LandRun(log: SourceLog, t0: Table, s: State, s': State)
    requires Written(log, t0) && Inv(log, t0, s) && Land(log, s, s') && RunTrusted(log, s, s.phase.b)
    ensures RunKeeps(log, t0, s')
  {
    LandJournalled(log, t0, s, s');
    forall k | Settled(log, s.a, s.phase.b, s'.phase.i, k)
      ensures Same(s'.table, Ideal(Window(log, s.a, s.phase.b), s'.phase.i, Base(log, t0, s.a, s.phase.b)), k)
    {
      LandSettles(log, t0, s, s', k);
    }
  }

  lemma LandKeeps(log: SourceLog, t0: Table, s: State, s': State)
    requires Written(log, t0) && Inv(log, t0, s) && Land(log, s, s')
    ensures Inv(log, t0, s')
  {
    TailWriteRecoverable(log, t0, s, s');
    hide Recoverable, JournalTrue, RunKeeps;
    JournalSame(log, t0, s, s');
    if RunTrusted(log, s, s.phase.b) {
      LandRun(log, t0, s, s');
    }
  }

  // ------------------------------------------------------------------
  // Committing a window.

  /** At the window's end every key the run settled is the source's. */
  lemma CommittedAt(log: SourceLog, t0: Table, s: State, s': State, k: Key)
    requires Written(log, t0) && Inv(log, t0, s) && Commit(log, s, s') && RunTrusted(log, s, s.phase.b)
    ensures Since(log, s.a, s.phase.b) > s.a || TouchedIn(log, s.a, s.phase.b, k) ==>
          Same(s.table, Source(log, t0, s.phase.b), k)
    ensures Since(log, s.a, s.phase.b) == s.a && !TouchedIn(log, s.a, s.phase.b, k) ==>
              Same(Source(log, t0, s.a), Source(log, t0, s.phase.b), k)
  {
    var b := s.phase.b;
    var c, l := Since(log, s.a, b), Window(log, s.a, b);
    assert l[..|l|] == l;
    SplitIsReplay(l, Source(log, t0, c));
    PartIsSource(log, t0, c, b);
    HeadTouches(l);
    WindowTouches(log, c, b, |l|, k);
    if c == s.a && !TouchedIn(log, s.a, b, k) {
      Untouched(l, Source(log, t0, c), k);
    }
  }

  lemma CommitKeeps(log: SourceLog, t0: Table, s: State, s': State)
    requires Written(log, t0) && Inv(log, t0, s) && Commit(log, s, s')
    ensures Inv(log, t0, s')
  {
    CommitJournal(log, t0, s, s');
    if NoTruncate(log, s'.a, s'.high) {
      CommitTrusted(log, s, s');
      forall k | !TouchedIn(log, s'.a, s'.high, k)
        ensures Same(s'.table, Source(log, t0, s'.a), k)
      {
        CommittedAt(log, t0, s, s', k);
        CommitUntouched(log, s, s', k);
      }
      forall k, g: nat | g < s'.high && FirstReads(log, s'.a, g, k)
        ensures NameOf(log, g) in s'.journal || Same(s'.table, Source(log, t0, s'.a), k)
      {
        CommittedAt(log, t0, s, s', k);
        if !TouchedIn(log, s.a, s.phase.b, k) {
          CommitFirst(log, s, s', g, k);
        }
      }
    }
  }

  lemma CommitTrusted(log: SourceLog, s: State, s': State)
    requires Bounds(log, s) && Commit(log, s, s') && NoTruncate(log, s'.a, s'.high)
    ensures RunTrusted(log, s, s.phase.b)
    ensures Since(log, s.a, s.phase.b) == s.a ==> NoTruncate(log, s.a, s.high)
  {
  }

  lemma CommitUntouched(log: SourceLog, s: State, s': State, k: Key)
    requires Bounds(log, s) && Commit(log, s, s') && !TouchedIn(log, s'.a, s'.high, k)
    ensures !TouchedIn(log, s.a, s.phase.b, k) ==> !TouchedIn(log, s.a, s.high, k)
  {
  }

  lemma CommitFirst(log: SourceLog, s: State, s': State, g: nat, k: Key)
    requires Bounds(log, s) && Commit(log, s, s') && FirstReads(log, s'.a, g, k) && !TouchedIn(log, s.a, s.phase.b, k)
    ensures FirstReads(log, s.a, g, k)
  {
  }

  lemma CommitJournal(log: SourceLog, t0: Table, s: State, s': State)
    requires Written(log, t0) && Inv(log, t0, s) && Commit(log, s, s')
    ensures JournalTrue(log, t0, s')
  {
    forall g | s'.a <= g && Tailed(log, g) && Trusted(log, s'.a, s'.high, g) && g < s.high
      ensures Trusted(log, s.a, s.high, g)
    {
    }
  }

  lemma NextKeeps(log: SourceLog, t0: Table, s: State, s': State)
    requires Written(log, t0) && Inv(log, t0, s) && Next(log, s, s')
    ensures Inv(log, t0, s')
  {
    if b :| Begin(log, s, s', b) {
      BeginKeeps(log, t0, s, s', b);
    } else if TruncateStep(log, s, s') {
      TruncateKeeps(log, t0, s, s');
    } else if SetSome(log, s, s') {
      SetSomeKeeps(log, t0, s, s');
    } else if SetDone(log, s, s') {
      SetDoneKeeps(log, t0, s, s');
    } else if NotInTail(log, s, s') {
      NotInTailKeeps(log, t0, s, s');
    } else if SweepJournal(log, s, s') {
      SweepKeeps(log, t0, s, s');
    } else if FetchHit(log, s, s') {
      FetchHitKeeps(log, t0, s, s');
    } else if FetchMiss(log, s, s') {
      FetchMissKeeps(log, t0, s, s');
    } else if PassOver(log, s, s') {
      PassOverKeeps(log, t0, s, s');
    } else if k :| Wipe(log, s, s', k) {
      WipeKeeps(log, t0, s, s', k);
    } else if Land(log, s, s') {
      LandKeeps(log, t0, s, s');
    } else if Commit(log, s, s') {
      CommitKeeps(log, t0, s, s');
    } else {
      StopKeeps(log, t0, s, s');
    }
  }

  // ------------------------------------------------------------------
  // Whole histories: any number of attempts, each cut anywhere and stopped
  // anywhere.

  ghost predicate History(log: SourceLog, t0: Table, h: seq<State>) {
    && |h| > 0 && Init(h[0], t0)
    && forall i {:trigger StepAt(log, h, i)} :: 0 <= i < |h| - 1 ==> StepAt(log, h, i)
  }

  ghost predicate StepAt(log: SourceLog, h: seq<State>, i: nat)
    requires i + 1 < |h|
  {
    Next(log, h[i], h[i + 1])
  }

  ghost predicate Reached(log: SourceLog, t0: Table, h: seq<State>, i: nat)
    requires i < |h|
  {
    Inv(log, t0, h[i])
  }

  lemma StepKeeps(log: SourceLog, t0: Table, h: seq<State>, i: nat)
    requires Written(log, t0) && i + 1 < |h| && StepAt(log, h, i) && Reached(log, t0, h, i)
    ensures Reached(log, t0, h, i + 1)
  {
    NextKeeps(log, t0, h[i], h[i + 1]);
  }

  lemma {:induction false} HistoryKeeps(log: SourceLog, t0: Table, h: seq<State>, i: nat)
    requires Written(log, t0) && History(log, t0, h) && i < |h|
    ensures Reached(log, t0, h, i)
  {
    if i == 0 {
      InitKeeps(log, t0, h[0]);
    } else {
      var j := i - 1;
      HistoryKeeps(log, t0, h, j);
      assert StepAt(log, h, j);
      StepKeeps(log, t0, h, j);
      assert Reached(log, t0, h, j + 1);
    }
  }

  /** A window committed at or past everything any attempt has reached leaves
      the source's table. */
  lemma CommittedIsSource(log: SourceLog, t0: Table, h: seq<State>, i: nat)
    requires Written(log, t0) && History(log, t0, h) && i < |h|
    requires h[i].phase.Idle? && h[i].a == h[i].high
    ensures h[i].a <= |log| && h[i].table == Source(log, t0, h[i].a)
  {
    HistoryKeeps(log, t0, h, i);
    var s := h[i];
    forall k
      ensures Same(s.table, Source(log, t0, s.a), k)
    {
      assert !TouchedIn(log, s.a, s.high, k);
    }
    SameEverywhere(s.table, Source(log, t0, s.a));
  }

  lemma SameEverywhere(d: Table, t: Table)
    requires forall k :: Same(d, t, k)
    ensures d == t
  {
    forall k
      ensures k in d <==> k in t
      ensures k in d ==> d[k] == t[k]
    {
      assert Same(d, t, k);
    }
  }

  /** A window committed short of a dead attempt leaves the source's table off
      the keys the log touches between the two, unless a TRUNCATE is there. */
  lemma CommittedShort(log: SourceLog, t0: Table, h: seq<State>, i: nat, k: Key)
    requires Written(log, t0) && History(log, t0, h) && i < |h| && h[i].phase.Idle?
    requires h[i].a <= h[i].high <= |log| ==>
          NoTruncate(log, h[i].a, h[i].high) && !TouchedIn(log, h[i].a, h[i].high, k)
    ensures h[i].a <= |log| && Same(h[i].table, Source(log, t0, h[i].a), k)
  {
    HistoryKeeps(log, t0, h, i);
  }

  /** No run is refused or passes a move over, unless a longer attempt died
      after a TRUNCATE this run does not reach. */
  lemma NeverRefused(log: SourceLog, t0: Table, h: seq<State>, i: nat)
    requires Written(log, t0) && History(log, t0, h) && i + 1 < |h|
    requires Refuse(log, h[i], h[i + 1]) || PassOver(log, h[i], h[i + 1])
    ensures h[i].phase.Tailing? && h[i].a <= h[i].phase.b <= h[i].high <= |log|
    ensures NoTruncate(log, h[i].a, h[i].phase.b) && !NoTruncate(log, h[i].phase.b, h[i].high)
  {
    HistoryKeeps(log, t0, h, i);
    var s := h[i];
    assert Missing(log, s);
    if RunTrusted(log, s, s.phase.b) {
      TrustedRunFindsRow(log, t0, s);
    }
  }
}
