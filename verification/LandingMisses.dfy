// Exactly when a landing run is refused or passes a move over, told from what
// the store held when the run began.
module LandingMisses {
  import opened Rows
  import opened Tail
  import opened Journal
  import opened Landing

  /** Change `g` is the first of the window to touch the key it reads, and when
      the run began neither the row nor an image of it was there. A window with
      a TRUNCATE starts from nothing and has no such change. */
  predicate Doomed(log: SourceLog, a: nat, b: nat, g: nat, table: Table, journal: map<Name, Row>) {
    && a <= g < b <= |log| && NoTruncate(log, a, b)
    && Tailed(log, g) && FirstReads(log, a, g, Needs(log[g].op))
    && Needs(log[g].op) !in table && NameOf(log, g) !in journal
  }

  ghost predicate Misses(log: SourceLog, s: State, s': State) {
    Refuse(log, s, s') || PassOver(log, s, s')
  }

  /** One run from its start at `j` to state `i`, and nothing missed so far. */
  ghost predicate Unmissed(log: SourceLog, h: seq<State>, j: nat, i: nat) {
    && j < i < |h| && h[j].phase.Idle?
    && (forall k :: j < k <= i ==> !h[k].phase.Idle?)
    && (forall k :: j < k < i ==> !Misses(log, h[k], h[k + 1]))
  }

  // ------------------------------------------------------------------
  // What a run that has missed nothing keeps, trusted or not. `was` and `had`
  // are the table and the journal it began with.

  /** Keys not reached yet are as they were; keys brought along are there
      exactly when the window puts a row there. */
  ghost predicate TableTracks(log: SourceLog, t0: Table, a: nat, b: nat, i: nat, hot: set<Key>, was: Table,
                              table: Table)
    requires InLog(log, a, b) && i <= |Window(log, a, b)|
  {
    forall k :: k !in hot ==>
      if Settled(log, a, b, i, k) then k in table <==> k in Ideal(Window(log, a, b), i, Base(log, t0, a, b))
      else Same(table, was, k)
  }

  /** Changes from `c` on are journalled or not as they were. */
  ghost predicate JournalTracks(log: SourceLog, c: nat, b: nat, had: map<Name, Row>, journal: map<Name, Row>) {
    forall g :: c <= g < b && Tailed(log, g) ==> (NameOf(log, g) in journal <==> NameOf(log, g) in had)
  }

  ghost predicate NoneDoomed(log: SourceLog, a: nat, b: nat, c: nat, was: Table, had: map<Name, Row>) {
    forall g :: a <= g < c ==> !Doomed(log, a, b, g, was, had)
  }

  /** An image held is of the change at hand. */
  function Reached(s: State): nat
    requires s.phase.Tailing?
  {
    s.a + s.phase.i + if s.phase.hold.Some? then 1 else 0
  }

  /** A journalled change of the window makes the run a replay. */
  ghost predicate ReplayTracks(log: SourceLog, a: nat, b: nat, replay: bool, had: map<Name, Row>) {
    forall g :: a <= g < b && Tailed(log, g) && NameOf(log, g) in had ==> replay
  }

  /** The journal had an entry of a change not committed. */
  ghost predicate Replays(log: SourceLog, a: nat, had: map<Name, Row>)
    requires a <= |log|
  {
    exists m :: m in had && m.pos > StartPos(log, a)
  }

  ghost predicate TailTracks(log: SourceLog, t0: Table, was: Table, had: map<Name, Row>, s: State)
    requires Bounds(log, s) && s.phase.Tailing?
  {
    && TableTracks(log, t0, s.a, s.phase.b, s.phase.i, Hot(log, s), was, s.table)
    && JournalTracks(log, Reached(s), s.phase.b, had, s.journal)
    && NoneDoomed(log, s.a, s.phase.b, Reached(s), was, had)
    && ReplayTracks(log, s.a, s.phase.b, s.phase.replay, had)
    && (s.phase.replay <==> Replays(log, s.a, had))
    && (s.phase.wiped ==> Writable(log, s))
    && (s.phase.hold.Some? ==> AtOp(log, s) && NeedsBase(OpAt(log, s)))
  }

  ghost predicate SetTracks(log: SourceLog, was: Table, s: State)
    requires Bounds(log, s) && s.phase.Setting?
  {
    forall k :: k !in AllTouched(Head(Window(log, s.a, s.phase.b))) ==> Same(s.table, was, k)
  }

  ghost predicate Tracks(log: SourceLog, t0: Table, was: Table, had: map<Name, Row>, s: State)
    requires Bounds(log, s)
  {
    match s.phase
    case Idle => true
    case Starting(_) => s.table == was && s.journal == had
    case Setting(_) => SetTracks(log, was, s) && s.journal == had
    case Tailing(_, _, _, _, _) => TailTracks(log, t0, was, had, s)
  }

  // ------------------------------------------------------------------
  // The change at hand.

  /** A key first read at `a + i` has not been brought along by then. */
  lemma FirstReadUnsettled(log: SourceLog, a: nat, b: nat, i: nat, k: Key)
    requires InLog(log, a, b) && NoTruncate(log, a, b) && i <= b - a && FirstReads(log, a, a + i, k) && a + i < b
    ensures Since(log, a, b) == a && !Settled(log, a, b, i, k)
  {
    SinceIsStart(log, a, b);
    FirstReadNotSet(log, a, b, a + i, k);
    var l := Window(log, a, b);
    HeadTouches(l[..i]);
    WindowTouches(log, a, b, i, k);
  }

  /** A key brought along that a change reads is there. */
  lemma SettledIsThere(log: SourceLog, t0: Table, was: Table, had: map<Name, Row>, s: State)
    requires Written(log, t0) && Bounds(log, s) && Reading(log, s) && TailTracks(log, t0, was, had, s)
    requires Settled(log, s.a, s.phase.b, s.phase.i, Needs(OpAt(log, s)))
    ensures Needs(OpAt(log, s)) in s.table
  {
    var k := Needs(OpAt(log, s));
    SettledReads(log, t0, s, k);
    ReadingAt(log, t0, s);
    assert FoundAt(log, t0, Since(log, s.a, s.phase.b) + s.phase.i);
    assert k !in Hot(log, s);
  }

  lemma HitWasThere(log: SourceLog, t0: Table, was: Table, had: map<Name, Row>, s: State)
    requires Written(log, t0) && Bounds(log, s) && Reading(log, s) && TailTracks(log, t0, was, had, s)
    requires Since(log, s.a, s.phase.b) == s.a
    ensures Hit(log, s) <==> NameOf(log, s.a + s.phase.i) in had
  {
    hide TableTracks, NoneDoomed;
    ReadingAt(log, t0, s);
  }

  lemma UnsettledIsAsItWas(log: SourceLog, t0: Table, was: Table, had: map<Name, Row>, s: State, k: Key)
    requires Bounds(log, s) && Reading(log, s) && TailTracks(log, t0, was, had, s)
    requires !Settled(log, s.a, s.phase.b, s.phase.i, k)
    ensures Same(s.table, was, k)
  {
  }

  lemma SettledIsNotDoomed(log: SourceLog, t0: Table, was: Table, had: map<Name, Row>, s: State)
    requires Written(log, t0) && Bounds(log, s) && Reading(log, s) && TailTracks(log, t0, was, had, s)
    requires Since(log, s.a, s.phase.b) == s.a && Settled(log, s.a, s.phase.b, s.phase.i, Needs(OpAt(log, s)))
    ensures !Missing(log, s) && !Doomed(log, s.a, s.phase.b, s.a + s.phase.i, was, had)
  {
    hide ApplyAll, Residue, Head, Sticky, Apply;
    var k, g := Needs(OpAt(log, s)), s.a + s.phase.i;
    ReadingAt(log, t0, s);
    SettledIsThere(log, t0, was, had, s);
    hide TailTracks, Settled;
    if FirstReads(log, s.a, g, k) {
      FirstReadUnsettled(log, s.a, s.phase.b, s.phase.i, k);
    }
  }

  /** The heart: at the change at hand, missing is being doomed. */
  lemma MissingIsDoomed(log: SourceLog, t0: Table, was: Table, had: map<Name, Row>, s: State)
    requires Written(log, t0) && Bounds(log, s) && Reading(log, s) && TailTracks(log, t0, was, had, s)
    requires Since(log, s.a, s.phase.b) == s.a
    ensures Missing(log, s) <==> Doomed(log, s.a, s.phase.b, s.a + s.phase.i, was, had)
  {
    hide JournalTracks, NoneDoomed, ReplayTracks;
    var k := Needs(OpAt(log, s));
    ReadingAt(log, t0, s);
    HitWasThere(log, t0, was, had, s);
    hide TableTracks, Hit, Settled, FirstReads;
    if Settled(log, s.a, s.phase.b, s.phase.i, k) {
      SettledIsNotDoomed(log, t0, was, had, s);
    } else {
      UnsettledIsFirst(log, t0, s);
      UnsettledIsAsItWas(log, t0, was, had, s, k);
    }
  }

  // ------------------------------------------------------------------
  // Every step of the run keeps it.

  lemma SetSomeTracks(log: SourceLog, was: Table, s: State, s': State)
    requires Bounds(log, s) && Bounds(log, s') && SetSome(log, s, s') && SetTracks(log, was, s)
    ensures SetTracks(log, was, s')
  {
  }

  lemma SetDoneTableTracks(log: SourceLog, t0: Table, was: Table, s: State, s': State)
    requires Written(log, t0) && Inv(log, t0, s) && SetDone(log, s, s') && SetTracks(log, was, s)
    requires Since(log, s.a, s.phase.b) == s.a
    ensures TableTracks(log, t0, s.a, s.phase.b, 0, {}, was, s'.table)
  {
    forall k
      ensures if Settled(log, s.a, s.phase.b, 0, k)
              then k in s'.table <==> k in Ideal(Window(log, s.a, s.phase.b), 0, Base(log, t0, s.a, s.phase.b))
              else Same(s'.table, was, k)
    {
      SetDoneTable(log, t0, s, s', k);
      assert Settled(log, s.a, s.phase.b, 0, k) || k !in AllTouched(Head(Window(log, s.a, s.phase.b)));
    }
  }

  lemma SetDoneTracks(log: SourceLog, t0: Table, was: Table, had: map<Name, Row>, s: State, s': State)
    requires Written(log, t0) && Inv(log, t0, s) && Bounds(log, s') && SetDone(log, s, s')
    requires SetTracks(log, was, s) && s.journal == had && Since(log, s.a, s.phase.b) == s.a
    ensures TailTracks(log, t0, was, had, s')
  {
    SetDoneTableTracks(log, t0, was, s, s');
    hide TableTracks, SetTracks, Inv;
    forall g | s.a <= g < s.phase.b && Tailed(log, g) && NameOf(log, g) in had
      ensures s'.phase.replay
    {
      NameAfterStart(log, t0, s.a, g);
    }
    assert Hot(log, s') == {};
  }

  lemma NotInTailTable(log: SourceLog, t0: Table, was: Table, s: State, s': State)
    requires Bounds(log, s) && Bounds(log, s') && NotInTail(log, s, s')
    requires TableTracks(log, t0, s.a, s.phase.b, s.phase.i, {}, was, s.table)
    ensures TableTracks(log, t0, s.a, s.phase.b, s'.phase.i, {}, was, s'.table)
  {
    hide ApplyAll, Head, Sticky, Settled, Residue;
    forall k
      ensures if Settled(log, s.a, s.phase.b, s'.phase.i, k)
              then k in s'.table <==>
                     k in Ideal(Window(log, s.a, s.phase.b), s'.phase.i, Base(log, t0, s.a, s.phase.b))
              else Same(s'.table, was, k)
    {
      SettledNext(log, s.a, s.phase.b, s.phase.i, k);
      IdealNext(Window(log, s.a, s.phase.b), s.phase.i, Base(log, t0, s.a, s.phase.b));
    }
  }

  lemma NotInTailTracks(log: SourceLog, t0: Table, was: Table, had: map<Name, Row>, s: State, s': State)
    requires Bounds(log, s) && Bounds(log, s') && NotInTail(log, s, s') && TailTracks(log, t0, was, had, s)
    requires Since(log, s.a, s.phase.b) == s.a
    ensures TailTracks(log, t0, was, had, s')
  {
    hide TableTracks, JournalTracks, NoneDoomed, Doomed;
    assert !s.phase.wiped && Hot(log, s) == {} && Hot(log, s') == {};
    NotInTailTable(log, t0, was, s, s');
    NotTailedOn(log, s.a, s.phase.b, s.a + s.phase.i, was, had, s.journal);
  }

  /** Past a change that is never journalled nothing else is asked. */
  lemma NotTailedOn(log: SourceLog, a: nat, b: nat, c: nat, was: Table, had: map<Name, Row>, journal: map<Name, Row>)
    requires JournalTracks(log, c, b, had, journal) && NoneDoomed(log, a, b, c, was, had) && !Tailed(log, c)
    ensures JournalTracks(log, c + 1, b, had, journal) && NoneDoomed(log, a, b, c + 1, was, had)
  {
  }

  lemma SweepTracks(log: SourceLog, t0: Table, was: Table, had: map<Name, Row>, s: State, s': State)
    requires Written(log, t0) && Bounds(log, s) && Bounds(log, s') && SweepJournal(log, s, s')
    requires TailTracks(log, t0, was, had, s)
    ensures TailTracks(log, t0, was, had, s')
  {
    hide TableTracks, NoneDoomed;
    assert Hot(log, s') == Hot(log, s);
    forall g | Reached(s) <= g < s.phase.b && Tailed(log, g)
      ensures NameOf(log, g) in s'.journal <==> NameOf(log, g) in s.journal
    {
      NameAfterStart(log, t0, s.a, g);
    }
  }

  lemma FetchJournal(log: SourceLog, t0: Table, a: nat, b: nat, c: nat, had: map<Name, Row>, journal: map<Name, Row>,
                     journal': map<Name, Row>)
    requires Written(log, t0) && Cut(log, b) && InLog(log, a, b) && Since(log, a, b) == a
    requires a <= c < b && Tailed(log, c)
    requires JournalTracks(log, c, b, had, journal)
    requires forall m :: m != NameOf(log, c) ==> (m in journal' <==> m in journal)
    ensures JournalTracks(log, c + 1, b, had, journal')
  {
    forall g | c < g < b && Tailed(log, g)
      ensures NameOf(log, g) != NameOf(log, c)
    {
      PartIsLive(log, t0, a, b, g);
      PartIsLive(log, t0, a, b, c);
      NamesDiffer(log, t0, g, c);
    }
  }

  lemma DoomedOn(log: SourceLog, a: nat, b: nat, c: nat, was: Table, had: map<Name, Row>)
    requires NoneDoomed(log, a, b, c, was, had) && !Doomed(log, a, b, c, was, had)
    ensures NoneDoomed(log, a, b, c + 1, was, had)
  {
  }

  lemma FetchTracks(log: SourceLog, t0: Table, was: Table, had: map<Name, Row>, s: State, s': State)
    requires Written(log, t0) && Bounds(log, s) && Bounds(log, s')
    requires FetchHit(log, s, s') || FetchMiss(log, s, s')
    requires TailTracks(log, t0, was, had, s) && Since(log, s.a, s.phase.b) == s.a
    ensures TailTracks(log, t0, was, had, s')
  {
    hide TableTracks, JournalTracks, NoneDoomed, ReplayTracks, Doomed;
    var c := s.a + s.phase.i;
    MissingIsDoomed(log, t0, was, had, s);
    ReadingAt(log, t0, s);
    FetchJournal(log, t0, s.a, s.phase.b, c, had, s.journal, s'.journal);
    DoomedOn(log, s.a, s.phase.b, c, was, had);
    assert Hot(log, s') == Hot(log, s);
  }

  lemma WipedTable(log: SourceLog, t0: Table, a: nat, b: nat, i: nat, hot: set<Key>, hot': set<Key>, was: Table,
                   table: Table, table': Table)
    requires InLog(log, a, b) && i <= |Window(log, a, b)| && hot <= hot'
    requires TableTracks(log, t0, a, b, i, hot, was, table) && forall k :: k !in hot' ==> Same(table', table, k)
    ensures TableTracks(log, t0, a, b, i, hot', was, table')
  {
  }

  lemma WipeTracks(log: SourceLog, t0: Table, was: Table, had: map<Name, Row>, s: State, s': State, k: Key)
    requires Bounds(log, s) && Bounds(log, s') && Wipe(log, s, s', k) && TailTracks(log, t0, was, had, s)
    ensures TailTracks(log, t0, was, had, s')
  {
    hide TableTracks, JournalTracks, NoneDoomed, ReplayTracks;
    assert Hot(log, s') == Touches(OpAt(log, s));
    WipedTable(log, t0, s.a, s.phase.b, s.phase.i, Hot(log, s), Hot(log, s'), was, s.table, s'.table);
  }

  /** A change of the tail leaves a row where the source has one. */
  lemma LandThere(log: SourceLog, t0: Table, s: State, s': State, k: Key)
    requires Written(log, t0) && Bounds(log, s) && Land(log, s, s') && k in Touches(OpAt(log, s))
    ensures var i := Ideal(Window(log, s.a, s.phase.b), s.phase.i, Base(log, t0, s.a, s.phase.b));
            k in s'.table <==> k in Apply(OpAt(log, s), i)
  {
    var op := OpAt(log, s);
    if NeedsBase(op) {
      var g := Since(log, s.a, s.phase.b) + s.phase.i;
      SettledReads(log, t0, s, Needs(op));
      assert log[g].op == op;
      assert FoundAt(log, t0, g);
    }
  }

  lemma LandTable(log: SourceLog, t0: Table, was: Table, s: State, s': State, k: Key)
    requires Written(log, t0) && Bounds(log, s) && Bounds(log, s') && Land(log, s, s')
    requires TableTracks(log, t0, s.a, s.phase.b, s.phase.i, Hot(log, s), was, s.table)
    ensures if Settled(log, s.a, s.phase.b, s'.phase.i, k)
            then k in s'.table <==>
                   k in Ideal(Window(log, s.a, s.phase.b), s'.phase.i, Base(log, t0, s.a, s.phase.b))
            else Same(s'.table, was, k)
  {
    hide ApplyAll, Residue, Head, Sticky, Settled, Ideal, Apply, Rewritten;
    var l, base := Window(log, s.a, s.phase.b), Base(log, t0, s.a, s.phase.b);
    SettledNext(log, s.a, s.phase.b, s.phase.i, k);
    IdealNext(l, s.phase.i, base);
    if k in Touches(OpAt(log, s)) {
      LandThere(log, t0, s, s', k);
    } else {
      WrittenElsewhere(OpAt(log, s), s.phase.hold, s.table, Ideal(l, s.phase.i, base), k);
    }
  }

  lemma LandTableAll(log: SourceLog, t0: Table, was: Table, s: State, s': State)
    requires Written(log, t0) && Bounds(log, s) && Bounds(log, s') && Land(log, s, s')
    requires TableTracks(log, t0, s.a, s.phase.b, s.phase.i, Hot(log, s), was, s.table)
    ensures TableTracks(log, t0, s.a, s.phase.b, s'.phase.i, {}, was, s'.table)
  {
    forall k
      ensures if Settled(log, s.a, s.phase.b, s'.phase.i, k)
              then k in s'.table <==>
                     k in Ideal(Window(log, s.a, s.phase.b), s'.phase.i, Base(log, t0, s.a, s.phase.b))
              else Same(s'.table, was, k)
    {
      LandTable(log, t0, was, s, s', k);
    }
  }

  lemma LandTracks(log: SourceLog, t0: Table, was: Table, had: map<Name, Row>, s: State, s': State)
    requires Written(log, t0) && Bounds(log, s) && Bounds(log, s') && Land(log, s, s')
    requires TailTracks(log, t0, was, had, s) && Since(log, s.a, s.phase.b) == s.a
    ensures TailTracks(log, t0, was, had, s')
  {
    hide TableTracks, JournalTracks, NoneDoomed, ReplayTracks;
    assert Hot(log, s') == {};
    LandTableAll(log, t0, was, s, s');
    if s.phase.hold.None? {
      NotTailedOn(log, s.a, s.phase.b, s.a + s.phase.i, was, had, s.journal);
    }
  }

  lemma TailStepTracks(log: SourceLog, t0: Table, was: Table, had: map<Name, Row>, s: State, s': State)
    requires Written(log, t0) && Bounds(log, s) && Bounds(log, s') && Next(log, s, s')
    requires s.phase.Tailing? && !s'.phase.Idle? && !Misses(log, s, s')
    requires Since(log, s.a, s.phase.b) == s.a && TailTracks(log, t0, was, had, s)
    ensures s'.phase.Tailing? && TailTracks(log, t0, was, had, s')
  {
    hide TailTracks, Bounds;
    if NotInTail(log, s, s') {
      NotInTailTracks(log, t0, was, had, s, s');
    } else if SweepJournal(log, s, s') {
      SweepTracks(log, t0, was, had, s, s');
    } else if FetchHit(log, s, s') || FetchMiss(log, s, s') {
      FetchTracks(log, t0, was, had, s, s');
    } else if k :| Wipe(log, s, s', k) {
      WipeTracks(log, t0, was, had, s, s', k);
    } else {
      assert Land(log, s, s');
      LandTracks(log, t0, was, had, s, s');
    }
  }

  lemma SetStepTracks(log: SourceLog, t0: Table, was: Table, had: map<Name, Row>, s: State, s': State)
    requires Written(log, t0) && Inv(log, t0, s) && Bounds(log, s') && Next(log, s, s')
    requires (s.phase.Starting? || s.phase.Setting?) && !s'.phase.Idle?
    requires Since(log, s.a, s.phase.b) == s.a && Tracks(log, t0, was, had, s)
    ensures Tracks(log, t0, was, had, s')
  {
    BeforeTheTail(log, s, s');
    hide TailTracks, SetTracks, JournalTrue, Recoverable, RunKeeps, Next;
    if TruncateStep(log, s, s') {
      TruncateTracks(log, was, s, s');
    } else if SetSome(log, s, s') {
      SetSomeTracks(log, was, s, s');
    } else {
      SetDoneTracks(log, t0, was, had, s, s');
    }
  }

  lemma BeforeTheTail(log: SourceLog, s: State, s': State)
    requires Next(log, s, s') && (s.phase.Starting? || s.phase.Setting?) && !s'.phase.Idle?
    ensures TruncateStep(log, s, s') || SetSome(log, s, s') || SetDone(log, s, s')
  {
  }

  /** A step that neither ends the run nor misses. */
  lemma StepTracks(log: SourceLog, t0: Table, was: Table, had: map<Name, Row>, s: State, s': State)
    requires Written(log, t0) && Inv(log, t0, s) && Bounds(log, s') && Next(log, s, s')
    requires !s.phase.Idle? && !s'.phase.Idle? && !Misses(log, s, s')
    requires Since(log, s.a, s.phase.b) == s.a && Tracks(log, t0, was, had, s)
    ensures Tracks(log, t0, was, had, s')
  {
    hide TailTracks, SetTracks, JournalTrue, Recoverable, RunKeeps, Next, Misses;
    if s.phase.Tailing? {
      TailStepTracks(log, t0, was, had, s, s');
    } else {
      SetStepTracks(log, t0, was, had, s, s');
    }
  }

  lemma TruncateTracks(log: SourceLog, was: Table, s: State, s': State)
    requires Bounds(log, s) && Bounds(log, s') && TruncateStep(log, s, s') && s.table == was
    requires Since(log, s.a, s.phase.b) == s.a
    ensures SetTracks(log, was, s')
  {
  }

  // ------------------------------------------------------------------
  // Whole runs.

  lemma BeginsRun(log: SourceLog, s: State, s': State)
    requires Next(log, s, s') && s.phase.Idle? && !s'.phase.Idle?
    ensures s'.phase.Starting? && s'.table == s.table && s'.journal == s.journal && s'.a == s.a
  {
  }

  lemma {:induction false} RunTracks(log: SourceLog, t0: Table, h: seq<State>, j: nat, i: nat)
    requires Written(log, t0) && History(log, t0, h) && Unmissed(log, h, j, i)
    requires h[i].a <= h[i].phase.b <= |log| ==> Since(log, h[i].a, h[i].phase.b) == h[i].a
    ensures Bounds(log, h[i]) && Tracks(log, t0, h[j].table, h[j].journal, h[i])
  {
    HistoryKeeps(log, t0, h, i);
    var k := i - 1;
    assert StepAt(log, h, k);
    if k == j {
      BeginsRun(log, h[j], h[i]);
    } else {
      HistoryKeeps(log, t0, h, k);
      SameRun(log, h[k], h[i]);
      RunTracks(log, t0, h, j, k);
      StepTracks(log, t0, h[j].table, h[j].journal, h[k], h[i]);
    }
  }

  lemma SameRun(log: SourceLog, s: State, s': State)
    requires Next(log, s, s') && !s.phase.Idle? && !s'.phase.Idle?
    ensures s'.a == s.a && s'.phase.b == s.phase.b
  {
  }

  /** At the statement: a run that has missed nothing yet misses at the change
      at hand if and only if the change was doomed when the run began. */
  lemma MissExactly(log: SourceLog, t0: Table, h: seq<State>, j: nat, i: nat)
    requires Written(log, t0) && History(log, t0, h) && Unmissed(log, h, j, i) && Reading(log, h[i])
    ensures var s := h[i];
            Missing(log, s) <==> Doomed(log, s.a, s.phase.b, s.a + s.phase.i, h[j].table, h[j].journal)
  {
    hide JournalTrue, Recoverable, RunKeeps, TailTracks, SetTracks;
    HistoryKeeps(log, t0, h, i);
    var s := h[i];
    if Since(log, s.a, s.phase.b) == s.a {
      RunTracks(log, t0, h, j, i);
      MissingIsDoomed(log, t0, h[j].table, h[j].journal, s);
    } else {
      TrustedRunFindsRow(log, t0, s);
    }
  }

  /** Over the whole run: it misses before it can commit if and only if some
      change of its window was doomed when it began. */
  lemma RunMissesExactly(log: SourceLog, t0: Table, h: seq<State>, j: nat, i: nat)
    requires Written(log, t0) && History(log, t0, h) && i + 1 < |h| && Unmissed(log, h, j, i)
    requires Misses(log, h[i], h[i + 1]) || Commit(log, h[i], h[i + 1])
    ensures Misses(log, h[i], h[i + 1]) <==>
            exists g :: Doomed(log, h[i].a, h[i].phase.b, g, h[j].table, h[j].journal)
  {
    HistoryKeeps(log, t0, h, i);
    var s := h[i];
    if Misses(log, s, h[i + 1]) {
      MissExactly(log, t0, h, j, i);
    } else if Since(log, s.a, s.phase.b) == s.a {
      RunTracks(log, t0, h, j, i);
      assert NoneDoomed(log, s.a, s.phase.b, s.phase.b, h[j].table, h[j].journal);
    }
  }

  // ------------------------------------------------------------------
  // Which misses end the run.

  /** A step that gets past the change at hand. */
  ghost predicate GetsPast(log: SourceLog, s: State, s': State) {
    Next(log, s, s') && s.phase.Tailing? && s'.phase.Tailing? && s'.phase.i == s.phase.i + 1
  }

  lemma PastAMiss(log: SourceLog, s: State, s': State)
    requires Missing(log, s) && GetsPast(log, s, s')
    ensures OpAt(log, s).Move? && !s.phase.replay
  {
  }

  /** A masked update, or any change on a replay, whose row is nowhere: no step
      gets the run past it. */
  lemma MissStops(log: SourceLog, s: State, s': State)
    requires Missing(log, s) && (OpAt(log, s).Masked? || s.phase.replay) && Next(log, s, s')
    ensures s'.phase.Idle? || s'.phase == s.phase
  {
  }

  /** At a change that was doomed, the run can go on if and only if the change
      is a move and nothing not committed had been journalled when it began. */
  lemma MissDecides(log: SourceLog, t0: Table, h: seq<State>, j: nat, i: nat)
    requires Written(log, t0) && History(log, t0, h) && Unmissed(log, h, j, i) && Reading(log, h[i])
    requires Doomed(log, h[i].a, h[i].phase.b, h[i].a + h[i].phase.i, h[j].table, h[j].journal)
    ensures (exists s' :: GetsPast(log, h[i], s')) <==>
            OpAt(log, h[i]).Move? && !Replays(log, h[i].a, h[j].journal)
  {
    hide JournalTrue, Recoverable, RunKeeps;
    MissExactly(log, t0, h, j, i);
    HistoryKeeps(log, t0, h, i);
    SinceIsStart(log, h[i].a, h[i].phase.b);
    RunTracks(log, t0, h, j, i);
    hide TableTracks, JournalTracks, NoneDoomed, ReplayTracks, Doomed;
    var s := h[i];
    if s' :| GetsPast(log, s, s') {
      PastAMiss(log, s, s');
    }
    if OpAt(log, s).Move? && !s.phase.replay {
      var s' := s.(phase := NextOp(s));
      assert PassOver(log, s, s');
      assert GetsPast(log, s, s');
    }
  }

  /** The run so far, whatever it missed. */
  ghost predicate Running(h: seq<State>, j: nat, i: nat) {
    j < i < |h| && h[j].phase.Idle? && forall k :: j < k <= i ==> !h[k].phase.Idle?
  }

  /** The first miss of a run, if it has missed anything. */
  lemma {:induction false} FirstMiss(log: SourceLog, h: seq<State>, j: nat, i: nat) returns (k: nat)
    requires Running(h, j, i)
    ensures j < k <= i && Unmissed(log, h, j, k)
    ensures k < i ==> Misses(log, h[k], h[k + 1])
  {
    hide Misses;
    if j + 1 == i {
      k := i;
    } else {
      k := FirstMiss(log, h, j, i - 1);
      if k == i - 1 && !Misses(log, h[k], h[i]) {
        k := i;
      }
    }
  }

  lemma {:induction false} SameWindow(log: SourceLog, t0: Table, h: seq<State>, j: nat, k: nat, i: nat)
    requires History(log, t0, h) && Running(h, j, i) && j < k <= i
    ensures h[k].a == h[i].a == h[j].a && h[k].phase.b == h[i].phase.b
  {
    hide Next;
    if k < i {
      SameWindow(log, t0, h, j, k, i - 1);
      assert StepAt(log, h, i - 1);
      SameRun(log, h[i - 1], h[i]);
    } else if k > j + 1 {
      SameWindow(log, t0, h, j, k - 1, i);
    } else {
      assert StepAt(log, h, j);
      BeginsRun(log, h[j], h[k]);
    }
  }

  /** A run that commits met no doomed change, or the first one is a move and
      nothing not committed had been journalled when the run began. */
  lemma CommitPassedOver(log: SourceLog, t0: Table, h: seq<State>, j: nat, i: nat, g: nat)
    requires Written(log, t0) && History(log, t0, h) && Running(h, j, i) && i + 1 < |h| && Commit(log, h[i], h[i + 1])
    requires Doomed(log, h[j].a, h[i].phase.b, g, h[j].table, h[j].journal)
    requires forall q :: h[j].a <= q < g ==> !Doomed(log, h[j].a, h[i].phase.b, q, h[j].table, h[j].journal)
    ensures log[g].op.Move? && !Replays(log, h[j].a, h[j].journal)
  {
    hide JournalTrue, Recoverable, RunKeeps, TableTracks, JournalTracks, ReplayTracks, SetTracks;
    var k := FirstMiss(log, h, j, i);
    SameWindow(log, t0, h, j, k, i);
    HistoryKeeps(log, t0, h, k);
    SinceIsStart(log, h[k].a, h[k].phase.b);
    if k == i {
      RunMissesExactly(log, t0, h, j, i);
    } else {
      MissExactly(log, t0, h, j, k);
      RunTracks(log, t0, h, j, k);
      FirstIs(log, t0, h[k], h[j].table, h[j].journal, g);
    }
  }

  lemma FirstIs(log: SourceLog, t0: Table, s: State, was: Table, had: map<Name, Row>, g: nat)
    requires Bounds(log, s) && Reading(log, s) && TailTracks(log, t0, was, had, s)
    requires Doomed(log, s.a, s.phase.b, s.a + s.phase.i, was, had) && Doomed(log, s.a, s.phase.b, g, was, had)
    requires forall q :: s.a <= q < g ==> !Doomed(log, s.a, s.phase.b, q, was, had)
    ensures g == s.a + s.phase.i
  {
    hide TableTracks, JournalTracks, ReplayTracks, Doomed;
    assert s.a <= g by { GInWindow(log, s.a, s.phase.b, g, was, had); }
  }

  lemma GInWindow(log: SourceLog, a: nat, b: nat, g: nat, was: Table, had: map<Name, Row>)
    requires Doomed(log, a, b, g, was, had)
    ensures a <= g
  {
  }
}
