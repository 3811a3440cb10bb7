// The insert-only path: a window writes one version per key of its set phases,
// a row or a tombstone, and readers take the highest version of each key. The
// ordered tail deletes a key's versions before it writes one. A window with a
// TRUNCATE clears the table first. Any run may stop after any statement.
module Tombstones {
  import opened Rows
  import opened Tail
  import opened Journal
  import L = Landing

  /** A stored version of a key: a row, or a tombstone when `row` is absent. */
  datatype Version = Version(key: Key, ver: nat, row: Option<Row>)

  /** What the set phases of a window ending at `ver` write: its images, and a
      tombstone for each deleted key that has no image. */
  ghost function WindowRows(h: seq<Tagged>, ver: nat): (vs: set<Version>) {
    (set k | k in Images(h) :: Version(k, ver, Some(Images(h)[k])))
    + (set k | k in DelKeys(h) && k !in Images(h) :: Version(k, ver, None))
  }

  /** The source: whole-row changes, masked updates and TRUNCATEs; every masked
      update found its row. */
  predicate NoMoves(log: SourceLog, t0: Table) {
    forall g {:trigger FoundAt(log, t0, g)} :: 0 <= g < |log| ==>
      FoundAt(log, t0, g) && (log[g].Change? ==> !log[g].op.Move?)
  }

  function Lookup(t: Table, k: Key): Option<Row> {
    if k in t then Some(t[k]) else None
  }

  /** The run lands `log[a..b]`: the TRUNCATE, the set phases, then the tail
      change by change. `hold` is the image about to be written, `wiped` that
      the change's own delete has been answered. */
  datatype Phase =
    | Idle
    | Starting(b: nat)
    | Setting(b: nat)
    | Tailing(b: nat, i: nat, hold: Option<Row>, wiped: bool)

  /** Everything before `a` is committed; attempts have reached up to `high`.
      A journalled image is known by its change, which its name identifies. */
  datatype State = State(a: nat, high: nat, versions: set<Version>, journal: map<nat, Row>, phase: Phase)

  // ------------------------------------------------------------------
  // The steps.

  /** The versions the set phases of `log[a..b]` write. */
  ghost function SetRows(log: SourceLog, a: nat, b: nat): set<Version>
    requires L.InLog(log, a, b)
  {
    WindowRows(Head(L.Window(log, a, b)), b)
  }

  predicate Begin(log: SourceLog, s: State, s': State, b: nat) {
    && s.phase.Idle? && L.InLog(log, s.a, b)
    && s' == s.(high := if b > s.high then b else s.high, phase := Starting(b))
  }

  predicate Clear(log: SourceLog, s: State, s': State) {
    && s.phase.Starting? && L.InLog(log, s.a, s.phase.b)
    && s' == s.(versions := if Since(log, s.a, s.phase.b) > s.a then {} else s.versions, phase := Setting(s.phase.b))
  }

  /** Part of the versions have landed. */
  ghost predicate SetSome(log: SourceLog, s: State, s': State, some: set<Version>) {
    && s.phase.Setting? && L.InLog(log, s.a, s.phase.b) && some <= SetRows(log, s.a, s.phase.b)
    && s' == s.(versions := s.versions + some)
  }

  ghost predicate SetDone(log: SourceLog, s: State, s': State) {
    && s.phase.Setting? && L.InLog(log, s.a, s.phase.b)
    && s' == s.(versions := s.versions + SetRows(log, s.a, s.phase.b), phase := Tailing(s.phase.b, 0, None, false))
  }

  predicate AtOp(log: SourceLog, s: State) {
    s.phase.Tailing? && L.InLog(log, s.a, s.phase.b) && s.phase.i < |L.Window(log, s.a, s.phase.b)|
  }

  /** The change at hand, by its place in the log. */
  function Now(log: SourceLog, s: State): (g: nat)
    requires AtOp(log, s)
    ensures g < s.phase.b <= |log| && log[g].Change?
    ensures log[g].op == L.Window(log, s.a, s.phase.b)[s.phase.i].op
  {
    Since(log, s.a, s.phase.b) + s.phase.i
  }

  function OpAt(log: SourceLog, s: State): Op
    requires AtOp(log, s)
  {
    log[Now(log, s)].op
  }

  predicate OpInTail(log: SourceLog, s: State)
    requires AtOp(log, s)
  {
    InTail(L.Window(log, s.a, s.phase.b)[..s.phase.i], OpAt(log, s))
  }

  function NextOp(s: State): Phase
    requires s.phase.Tailing?
  {
    s.phase.(i := s.phase.i + 1, hold := None, wiped := false)
  }

  predicate NotInTail(log: SourceLog, s: State, s': State) {
    AtOp(log, s) && !OpInTail(log, s) && s' == s.(phase := NextOp(s))
  }

  predicate Reading(log: SourceLog, s: State) {
    AtOp(log, s) && OpAt(log, s).Masked? && s.phase.hold.None? && !s.phase.wiped
  }

  predicate FetchHit(log: SourceLog, s: State, s': State) {
    && Reading(log, s) && Now(log, s) in s.journal
    && s' == s.(phase := s.phase.(hold := Some(s.journal[Now(log, s)])))
  }

  /** A version a read with FINAL may pick for its key. */
  ghost predicate Final(vs: set<Version>, v: Version) {
    v in vs && forall u :: u in vs && u.key == v.key ==> u.ver <= v.ver
  }

  /** The live row is read with FINAL, and the image journalled before anything
      goes. */
  ghost predicate FetchMiss(log: SourceLog, s: State, s': State, v: Version) {
    && Reading(log, s) && Now(log, s) !in s.journal
    && Final(s.versions, v) && v.key == OpAt(log, s).key && v.row.Some?
    && var img := Patch(OpAt(log, s).row, v.row.value);
       s' == s.(journal := s.journal[Now(log, s) := img], phase := s.phase.(hold := Some(img)))
  }

  /** FINAL may answer with no row for `k`. */
  ghost predicate Missing(vs: set<Version>, k: Key) {
    (forall v :: v in vs ==> v.key != k) || exists v :: Final(vs, v) && v.key == k && v.row.None?
  }

  ghost predicate Refuse(log: SourceLog, s: State, s': State) {
    && Reading(log, s) && Now(log, s) !in s.journal && Missing(s.versions, OpAt(log, s).key)
    && s' == s.(phase := Idle)
  }

  predicate Writable(log: SourceLog, s: State) {
    && AtOp(log, s) && OpInTail(log, s) && !OpAt(log, s).Move?
    && (OpAt(log, s).Masked? ==> s.phase.hold.Some?)
  }

  function Without(vs: set<Version>, k: Key): set<Version> {
    set v | v in vs && v.key != k
  }

  predicate Wipe(log: SourceLog, s: State, s': State) {
    && Writable(log, s)
    && s' == s.(versions := Without(s.versions, OpAt(log, s).key), phase := s.phase.(wiped := true))
  }

  /** What the change writes: one version, or none for a delete. */
  function WrittenBy(op: Op, hold: Option<Row>, b: nat): set<Version>
    requires !op.Move? && (op.Masked? ==> hold.Some?)
  {
    match op
    case Put(k, r) => {Version(k, b, Some(r))}
    case Del(_) => {}
    case Masked(k, _) => {Version(k, b, hold)}
  }

  predicate Land(log: SourceLog, s: State, s': State) {
    && Writable(log, s)
    && var op := OpAt(log, s);
       s' == s.(versions := Without(s.versions, op.key) + WrittenBy(op, s.phase.hold, s.phase.b), phase := NextOp(s))
  }

  predicate Commit(log: SourceLog, s: State, s': State) {
    && s.phase.Tailing? && L.InLog(log, s.a, s.phase.b) && s.phase.i == |L.Window(log, s.a, s.phase.b)|
    && s' == s.(a := s.phase.b, phase := Idle)
  }

  predicate Crash(s: State, s': State) {
    s' == s.(phase := Idle)
  }

  /** A background merge keeps the highest version of one key's parts. */
  ghost predicate Merge(s: State, s': State, parts: set<Version>, kept: Version) {
    && parts <= s.versions && kept in parts
    && (forall v :: v in parts ==> v.key == kept.key && v.ver <= kept.ver)
    && s' == s.(versions := s.versions - parts + {kept})
  }

  /** Entries of committed changes may be dropped at any time. */
  predicate Sweep(s: State, s': State) {
    && s' == s.(journal := s'.journal)
    && (forall g :: g in s'.journal ==> g in s.journal && s'.journal[g] == s.journal[g])
    && (forall g :: g in s.journal && g >= s.a ==> g in s'.journal)
  }

  ghost predicate Next(log: SourceLog, s: State, s': State) {
    || (exists b :: Begin(log, s, s', b))
    || Clear(log, s, s')
    || (exists some :: SetSome(log, s, s', some))
    || SetDone(log, s, s')
    || NotInTail(log, s, s')
    || FetchHit(log, s, s')
    || (exists v :: FetchMiss(log, s, s', v))
    || Refuse(log, s, s')
    || Wipe(log, s, s')
    || Land(log, s, s')
    || Commit(log, s, s')
    || Crash(s, s')
    || (exists parts, kept :: Merge(s, s', parts, kept))
    || Sweep(s, s')
  }

  // ------------------------------------------------------------------
  // The source at one key.

  function RowAt(log: SourceLog, t0: Table, g: nat, k: Key): Option<Row>
    requires g <= |log|
  {
    Lookup(Source(log, t0, g), k)
  }

  predicate MaskedAt(log: SourceLog, g: nat, k: Key) {
    g < |log| && log[g].Change? && log[g].op.Masked? && log[g].op.key == k
  }

  predicate MaskedIn(log: SourceLog, a: nat, b: nat, k: Key) {
    exists g :: a <= g < b && MaskedAt(log, g, k)
  }

  /** The first masked update of `k` since `a`. */
  predicate FirstMasked(log: SourceLog, a: nat, m: nat, k: Key) {
    a <= m && MaskedAt(log, m, k) && !MaskedIn(log, a, m, k)
  }

  /** The source's row under `k` does not change from `a` to `b`. */
  ghost predicate Steady(log: SourceLog, t0: Table, a: nat, b: nat, k: Key)
    requires b <= |log|
  {
    forall q :: a <= q <= b ==> RowAt(log, t0, q, k) == RowAt(log, t0, b, k)
  }

  lemma QuietIsSteady(log: SourceLog, t0: Table, a: nat, q: nat, b: nat, k: Key)
    requires a <= q <= b <= |log| && NoTruncate(log, a, b) && !TouchedIn(log, a, b, k)
    ensures RowAt(log, t0, q, k) == RowAt(log, t0, a, k)
  {
    var l := Part(log, a, q);
    assert l[..q - a] == l;
    WindowTouches(log, a, q, q - a, k);
    PartIsSource(log, t0, a, q);
    Untouched(l, Source(log, t0, a), k);
  }

  /** Quiet from `m` to `b`, steady before: steady throughout. */
  lemma SteadyExtends(log: SourceLog, t0: Table, a: nat, m: nat, b: nat, k: Key)
    requires m <= b <= |log| && NoTruncate(log, m, b) && !TouchedIn(log, m, b, k)
    requires a > m || Steady(log, t0, a, m, k)
    ensures Steady(log, t0, a, b, k)
  {
    forall q | a <= q <= b
      ensures RowAt(log, t0, q, k) == RowAt(log, t0, b, k)
    {
      QuietIsSteady(log, t0, m, b, b, k);
      if q >= m {
        QuietIsSteady(log, t0, m, q, b, k);
      }
    }
  }

  // ------------------------------------------------------------------
  // The set phases at one key.

  lemma {:induction false} StickyIsMasked(log: SourceLog, t0: Table, c: nat, b: nat, i: nat, k: Key)
    requires NoMoves(log, t0) && c <= b <= |log| && NoTruncate(log, c, b) && i <= b - c
    ensures k in Sticky(Part(log, c, b)[..i]) <==> MaskedIn(log, c, c + i, k)
  {
    var l := Part(log, c, b);
    if i > 0 {
      StickyIsMasked(log, t0, c, b, i - 1, k);
      assert l[..i][..i - 1] == l[..i - 1];
      assert FoundAt(log, t0, c + i - 1);
      assert MaskedIn(log, c, c + i, k) <==> MaskedIn(log, c, c + i - 1, k) || MaskedAt(log, c + i - 1, k);
    }
  }

  /** The tail meets a key only from its first masked update on. */
  lemma TailMeets(log: SourceLog, t0: Table, c: nat, b: nat, i: nat, k: Key)
    requires NoMoves(log, t0) && c <= b <= |log| && NoTruncate(log, c, b) && i <= b - c && !MaskedIn(log, c, c + i, k)
    ensures k !in AllTouched(Residue(Part(log, c, b)[..i]))
  {
    StickyIsMasked(log, t0, c, b, i, k);
    TailTouchesSticky(Part(log, c, b)[..i]);
  }

  /** Where the source stands when the tail first meets `k`, or at the end. */
  ghost predicate TurnsAt(log: SourceLog, c: nat, b: nat, m: nat, k: Key) {
    (m == b && !MaskedIn(log, c, b, k)) || (m < b && FirstMasked(log, c, m, k))
  }

  lemma HeadLeaves(log: SourceLog, t0: Table, c: nat, b: nat, m: nat, k: Key)
    requires NoMoves(log, t0) && c <= m <= b <= |log| && NoTruncate(log, c, b) && TurnsAt(log, c, b, m, k)
    ensures Lookup(ApplyAll(Head(Part(log, c, b)), Source(log, t0, c)), k) == RowAt(log, t0, m, k)
  {
    var l, base := Part(log, c, b), Source(log, t0, c);
    var i := m - c;
    TailMeets(log, t0, c, b, i, k);
    Untouched(Residue(l[..i]), ApplyAll(Head(l), base), k);
    assert l[..i] == Part(log, c, m);
    PartIsSource(log, t0, c, m);
    if m < b {
      IdealIsSource(l, i, base, k);
    } else {
      assert l[..i] == l;
      SplitIsReplay(l, base);
    }
  }

  lemma SetRowsAre(log: SourceLog, t0: Table, a: nat, b: nat, v: Version)
    requires L.InLog(log, a, b) && v in SetRows(log, a, b)
    ensures v.ver == b && v.key in AllTouched(Head(L.Window(log, a, b)))
    ensures v.row == Lookup(ApplyAll(Head(L.Window(log, a, b)), Source(log, t0, Since(log, a, b))), v.key)
  {
    var h := Head(L.Window(log, a, b));
    SetPhaseIsReplay(h, Source(log, t0, Since(log, a, b)));
    SetKeys(h);
  }

  /** A set phase's version is the source's row when the tail takes the key over. */
  lemma SetRowIs(log: SourceLog, t0: Table, a: nat, b: nat, m: nat, v: Version)
    requires NoMoves(log, t0) && L.InLog(log, a, b) && v in SetRows(log, a, b)
    requires Since(log, a, b) <= m <= b && TurnsAt(log, Since(log, a, b), b, m, v.key)
    ensures v.ver == b && v.row == RowAt(log, t0, m, v.key)
  {
    SetRowsAre(log, t0, a, b, v);
    HeadLeaves(log, t0, Since(log, a, b), b, m, v.key);
  }

  lemma SetRowThere(log: SourceLog, a: nat, b: nat, k: Key)
    requires L.InLog(log, a, b) && k in AllTouched(Head(L.Window(log, a, b)))
    ensures exists v :: v in SetRows(log, a, b) && v.key == k && v.ver == b
  {
    var h := Head(L.Window(log, a, b));
    SetKeys(h);
    if k in Images(h) {
      assert Version(k, b, Some(Images(h)[k])) in WindowRows(h, b);
    } else {
      assert Version(k, b, None) in WindowRows(h, b);
    }
  }

  /** The set phases write a key exactly when its first change is a whole row. */
  lemma HeadMeets(log: SourceLog, t0: Table, c: nat, b: nat, m: nat, k: Key)
    requires NoMoves(log, t0) && c <= m <= b <= |log| && NoTruncate(log, c, b) && TurnsAt(log, c, b, m, k)
    ensures k in AllTouched(Head(Part(log, c, b))) <==> TouchedIn(log, c, m, k)
  {
    var l := Part(log, c, b);
    var i := m - c;
    WindowTouches(log, c, b, i, k);
    HeadTouches(l[..i]);
    TailMeets(log, t0, c, b, i, k);
    L.HeadOfPrefix(l, i);
    if m == b {
      assert l[..i] == l;
    } else if !TouchedIn(log, c, m, k) {
      assert L.FirstReads(log, c, m, k);
      L.FirstReadNotSet(log, c, b, m, k);
    }
  }

  // ------------------------------------------------------------------
  // What every state keeps, key by key.

  /** A version is the source's row at its position, or a later window will
      meet a masked update of its key, and delete it. */
  predicate VersionOk(log: SourceLog, t0: Table, a: nat, high: nat, v: Version) {
    && v.ver <= high && v.ver <= |log|
    && (v.row == RowAt(log, t0, v.ver, v.key) || (v.ver > a && MaskedIn(log, a, v.ver, v.key)))
  }

  /** Some version of `k` is as new as its row at `a`; or there is no row, and
      no version but those of attempts past `a`. */
  ghost predicate UpToDate(log: SourceLog, t0: Table, a: nat, vs: set<Version>, k: Key)
    requires a <= |log|
  {
    || (exists v :: v in vs && v.key == k && Steady(log, t0, v.ver, a, k))
    || (k !in Source(log, t0, a) && forall v :: v in vs && v.key == k ==> v.ver > a)
  }

  /** The first masked update of `k` since `a`, reached and not journalled. */
  predicate Unread(log: SourceLog, a: nat, high: nat, journal: map<nat, Row>, m: nat, k: Key) {
    m < high && FirstMasked(log, a, m, k) && m !in journal
  }

  /** No window past `m` has put anything there but the row `m` has to read. */
  ghost predicate Intact(log: SourceLog, t0: Table, vs: set<Version>, m: nat, k: Key)
    requires m <= |log|
  {
    forall v :: v in vs && v.key == k && v.ver > m ==> v.row == RowAt(log, t0, m, k)
  }

  ghost predicate KeyOk(log: SourceLog, t0: Table, a: nat, high: nat, vs: set<Version>, journal: map<nat, Row>, k: Key)
    requires a <= high <= |log|
  {
    && (forall v :: v in vs && v.key == k ==> VersionOk(log, t0, a, high, v))
    && (!TouchedIn(log, a, high, k) ==> UpToDate(log, t0, a, vs, k))
    && (forall m {:trigger Unread(log, a, high, journal, m, k)} :: Unread(log, a, high, journal, m, k) ==>
          && Intact(log, t0, vs, m, k)
          && (!TouchedIn(log, a, m, k) ==> UpToDate(log, t0, a, vs, k)))
  }

  /** An attempt that died past a TRUNCATE may have cleared the table: until a
      window reaches that TRUNCATE nothing is promised. */
  ghost predicate StoreOk(log: SourceLog, t0: Table, s: State)
    requires s.a <= s.high <= |log|
  {
    NoTruncate(log, s.a, s.high) ==>
      forall k {:trigger KeyOk(log, t0, s.a, s.high, s.versions, s.journal, k)} ::
        KeyOk(log, t0, s.a, s.high, s.versions, s.journal, k)
  }

  ghost predicate JournalTrue(log: SourceLog, t0: Table, s: State) {
    forall g :: g in s.journal && g >= s.a ==>
      && g < s.high && Tailed(log, g)
      && (L.Trusted(log, s.a, s.high, g) ==> s.journal[g] == L.TrueImage(log, t0, g))
  }

  predicate Bounds(log: SourceLog, s: State) {
    && s.a <= s.high <= |log| && (!s.phase.Idle? ==> s.a <= s.phase.b <= s.high)
    && (s.phase.Tailing? ==> s.phase.i <= |L.Window(log, s.a, s.phase.b)|)
  }

  /** The run's own reads can be trusted. */
  predicate RunTrusted(log: SourceLog, s: State)
    requires Bounds(log, s) && !s.phase.Idle?
  {
    Since(log, s.a, s.phase.b) > s.a || NoTruncate(log, s.a, s.high)
  }

  /** One version of `k`, or none. */
  ghost predicate Exactly(vs: set<Version>, k: Key, b: nat, row: Option<Row>) {
    forall v :: v in vs && v.key == k <==> row.Some? && v == Version(k, b, row)
  }

  ghost predicate HasFrom(vs: set<Version>, k: Key, b: nat) {
    exists v :: v in vs && v.key == k && v.ver >= b
  }

  predicate OnlyFrom(vs: set<Version>, all: set<Version>, k: Key) {
    forall v :: v in vs && v.key == k ==> v in all
  }

  /** Where a run has brought `k`, `g` changes into the log: past its first
      masked update it is the source's row; before that the set phases' version
      is there, alone if the run cleared the table. */
  ghost predicate Brought(log: SourceLog, t0: Table, a: nat, b: nat, g: nat, vs: set<Version>, k: Key)
    requires L.InLog(log, a, b) && g <= b
  {
    var c := Since(log, a, b);
    if MaskedIn(log, c, g, k) then Exactly(vs, k, b, RowAt(log, t0, g, k))
    else
      && (k in AllTouched(Head(L.Window(log, a, b))) ==> HasFrom(vs, k, b))
      && (c > a ==> OnlyFrom(vs, SetRows(log, a, b), k))
  }

  /** The key of a change whose own delete has been answered. */
  function Hot(log: SourceLog, s: State): set<Key> {
    if AtOp(log, s) && s.phase.wiped then Touches(OpAt(log, s)) else {}
  }

  ghost predicate AllBrought(log: SourceLog, t0: Table, a: nat, b: nat, g: nat, vs: set<Version>, hot: set<Key>)
    requires L.InLog(log, a, b) && g <= b
  {
    forall k {:trigger Brought(log, t0, a, b, g, vs, k)} :: k !in hot ==> Brought(log, t0, a, b, g, vs, k)
  }

  ghost predicate RunJournal(log: SourceLog, t0: Table, s: State)
    requires Bounds(log, s) && s.phase.Tailing?
  {
    var c := Since(log, s.a, s.phase.b);
    && (forall g :: c <= g < c + s.phase.i && Tailed(log, g) ==> g in s.journal)
    && (s.phase.hold.Some? ==>
          && AtOp(log, s) && OpAt(log, s).Masked? && Now(log, s) in s.journal
          && s.phase.hold.value == L.TrueImage(log, t0, Now(log, s)))
    && (s.phase.wiped ==> Writable(log, s))
  }

  ghost predicate RunOk(log: SourceLog, t0: Table, s: State)
    requires Bounds(log, s) && s.phase.Tailing?
  {
    RunJournal(log, t0, s) && AllBrought(log, t0, s.a, s.phase.b, Reached(log, s), s.versions, Hot(log, s))
  }

  /** How many changes of the log the run has brought along. */
  function Reached(log: SourceLog, s: State): (g: nat)
    requires Bounds(log, s) && s.phase.Tailing?
    ensures g <= s.phase.b
  {
    Since(log, s.a, s.phase.b) + s.phase.i
  }

  ghost predicate Inv(log: SourceLog, t0: Table, s: State) {
    && Bounds(log, s) && JournalTrue(log, t0, s) && StoreOk(log, t0, s)
    && (s.phase.Setting? && Since(log, s.a, s.phase.b) > s.a ==> s.versions <= SetRows(log, s.a, s.phase.b))
    && (s.phase.Tailing? && RunTrusted(log, s) ==> RunOk(log, t0, s))
  }

  ghost predicate Init(s: State, t0: Table) {
    s == State(0, 0, set k | k in t0 :: Version(k, 0, Some(t0[k])), map[], Idle)
  }

  lemma InitKeeps(log: SourceLog, t0: Table, s: State)
    requires Init(s, t0)
    ensures Inv(log, t0, s)
  {
    forall k
      ensures KeyOk(log, t0, 0, 0, s.versions, s.journal, k)
    {
      if k in t0 {
        assert Version(k, 0, Some(t0[k])) in s.versions;
      }
    }
  }

  // ------------------------------------------------------------------
  // Reading with FINAL.

  /** The source's row there is what any read with FINAL answers. */
  ghost predicate ReadsAs(vs: set<Version>, k: Key, row: Option<Row>) {
    && (forall v :: Final(vs, v) && v.key == k ==> v.row == row)
    && (row.Some? ==> exists v :: v in vs && v.key == k)
  }

  /** Versions up to `g` are the source's, those past it are `g`'s row, and the
      newest is no older than `a`: FINAL reads the row at `g`. */
  lemma CurrentReads(log: SourceLog, t0: Table, a: nat, high: nat, g: nat, vs: set<Version>, k: Key)
    requires a <= g <= high <= |log| && NoTruncate(log, a, high) && !MaskedIn(log, a, g, k) && Intact(log, t0, vs, g, k)
    requires !TouchedIn(log, a, g, k) && UpToDate(log, t0, a, vs, k)
    requires forall v :: v in vs && v.key == k ==> VersionOk(log, t0, a, high, v)
    ensures ReadsAs(vs, k, RowAt(log, t0, g, k))
  {
    QuietIsSteady(log, t0, a, g, g, k);
    forall v | Final(vs, v) && v.key == k
      ensures v.row == RowAt(log, t0, g, k)
    {
      if v.ver <= g {
        assert !MaskedIn(log, a, v.ver, k);
        if v.ver > a {
          QuietIsSteady(log, t0, a, v.ver, g, k);
        } else {
          var u :| u in vs && u.key == k && Steady(log, t0, u.ver, a, k);
          assert RowAt(log, t0, v.ver, k) == RowAt(log, t0, a, k);
        }
      }
    }
  }

  lemma NewerReads(log: SourceLog, t0: Table, g: nat, b: nat, vs: set<Version>, k: Key)
    requires g < b && g <= |log| && Intact(log, t0, vs, g, k) && HasFrom(vs, k, b)
    ensures ReadsAs(vs, k, RowAt(log, t0, g, k))
  {
    var u :| u in vs && u.key == k && u.ver >= b;
  }

  lemma ClearedReads(log: SourceLog, t0: Table, a: nat, b: nat, g: nat, vs: set<Version>, k: Key)
    requires NoMoves(log, t0) && L.InLog(log, a, b) && Since(log, a, b) > a && g < b
    requires FirstMasked(log, Since(log, a, b), g, k) && OnlyFrom(vs, SetRows(log, a, b), k)
    requires k in AllTouched(Head(L.Window(log, a, b))) ==> HasFrom(vs, k, b)
    ensures ReadsAs(vs, k, RowAt(log, t0, g, k))
  {
    hide SetRows, Source, Head;
    var c := Since(log, a, b);
    forall v | v in vs && v.key == k
      ensures v.row == RowAt(log, t0, g, k)
    {
      SetRowIs(log, t0, a, b, g, v);
    }
    HeadMeets(log, t0, c, b, g, k);
    if !TouchedIn(log, c, g, k) {
      QuietIsSteady(log, t0, c, g, g, k);
      NoRowAfterTruncate(log, t0, c, k);
    }
  }

  lemma NoRowAfterTruncate(log: SourceLog, t0: Table, c: nat, k: Key)
    requires 0 < c <= |log| && log[c - 1].Truncated?
    ensures RowAt(log, t0, c, k) == None
  {
  }

  /** On a trusted run a masked update that misses the journal reads, with
      FINAL, exactly the row the source had. */
  lemma MissReadsSource(log: SourceLog, t0: Table, s: State)
    requires NoMoves(log, t0) && Inv(log, t0, s) && Reading(log, s) && RunTrusted(log, s)
    requires Now(log, s) !in s.journal
    ensures ReadsAs(s.versions, OpAt(log, s).key, RowAt(log, t0, Now(log, s), OpAt(log, s).key))
    ensures RowAt(log, t0, Now(log, s), OpAt(log, s).key).Some?
  {
    var g, k, b := Now(log, s), OpAt(log, s).key, s.phase.b;
    var c := Since(log, s.a, b);
    assert FoundAt(log, t0, g);
    assert Brought(log, t0, s.a, b, g, s.versions, k);
    if MaskedIn(log, c, g, k) {
      ExactlyReads(s.versions, k, b, RowAt(log, t0, g, k));
    } else if c > s.a {
      ClearedReads(log, t0, s.a, b, g, s.versions, k);
    } else {
      assert KeyOk(log, t0, s.a, s.high, s.versions, s.journal, k);
      assert Unread(log, s.a, s.high, s.journal, g, k);
      if TouchedIn(log, c, g, k) {
        HeadMeets(log, t0, c, b, g, k);
        NewerReads(log, t0, g, b, s.versions, k);
      } else {
        CurrentReads(log, t0, s.a, s.high, g, s.versions, k);
      }
    }
  }

  lemma ExactlyReads(vs: set<Version>, k: Key, b: nat, row: Option<Row>)
    requires Exactly(vs, k, b, row)
    ensures ReadsAs(vs, k, row)
  {
    if row.Some? {
      assert Version(k, b, row) in vs;
    }
  }

  // ------------------------------------------------------------------
  // Steps that leave the versions of a key alone.

  predicate SameOf(vs: set<Version>, vs': set<Version>, k: Key) {
    (forall v :: v in vs && v.key == k ==> v in vs') && (forall v :: v in vs' && v.key == k ==> v in vs)
  }

  lemma KeySame(log: SourceLog, t0: Table, a: nat, high: nat, vs: set<Version>, vs': set<Version>,
                journal: map<nat, Row>, journal': map<nat, Row>, k: Key)
    requires a <= high <= |log| && KeyOk(log, t0, a, high, vs, journal, k)
    requires SameOf(vs, vs', k)
    requires forall g :: g in journal && g >= a ==> g in journal'
    ensures KeyOk(log, t0, a, high, vs', journal', k)
  {
    hide VersionOk, Steady;
    assert UpToDate(log, t0, a, vs, k) ==> UpToDate(log, t0, a, vs', k);
    forall m: nat | Unread(log, a, high, journal', m, k)
      ensures Intact(log, t0, vs', m, k)
      ensures !TouchedIn(log, a, m, k) ==> UpToDate(log, t0, a, vs', k)
    {
      assert Unread(log, a, high, journal, m, k);
    }
  }

  lemma BroughtSame(log: SourceLog, t0: Table, a: nat, b: nat, g: nat, vs: set<Version>, vs': set<Version>, k: Key)
    requires L.InLog(log, a, b) && g <= b && Brought(log, t0, a, b, g, vs, k)
    requires SameOf(vs, vs', k)
    ensures Brought(log, t0, a, b, g, vs', k)
  {
    if HasFrom(vs, k, b) {
      var u :| u in vs && u.key == k && u.ver >= b;
      assert u in vs';
    }
  }

  // ------------------------------------------------------------------
  // The steps keep the invariant.

  lemma BeginKey(log: SourceLog, t0: Table, a: nat, high: nat, high': nat, vs: set<Version>, journal: map<nat, Row>,
                 k: Key)
    requires a <= high <= high' <= |log| && KeyOk(log, t0, a, high, vs, journal, k)
    ensures KeyOk(log, t0, a, high', vs, journal, k)
  {
    assert TouchedIn(log, a, high, k) ==> TouchedIn(log, a, high', k);
    forall m: nat | Unread(log, a, high', journal, m, k)
      ensures Intact(log, t0, vs, m, k)
      ensures !TouchedIn(log, a, m, k) ==> UpToDate(log, t0, a, vs, k)
    {
      if m < high {
        assert Unread(log, a, high, journal, m, k);
      } else {
        assert TouchedIn(log, a, high, k) ==> TouchedIn(log, a, m, k);
      }
    }
  }

  lemma BeginKeeps(log: SourceLog, t0: Table, s: State, s': State, b: nat)
    requires Inv(log, t0, s) && Begin(log, s, s', b)
    ensures Inv(log, t0, s')
  {
    hide KeyOk;
    forall g | g in s.journal && g >= s.a && L.Trusted(log, s'.a, s'.high, g)
      ensures L.Trusted(log, s.a, s.high, g)
    {
    }
    if NoTruncate(log, s'.a, s'.high) {
      forall k
        ensures KeyOk(log, t0, s'.a, s'.high, s'.versions, s'.journal, k)
      {
        assert KeyOk(log, t0, s.a, s.high, s.versions, s.journal, k);
        BeginKey(log, t0, s.a, s.high, s'.high, s.versions, s.journal, k);
      }
    }
  }

  lemma ClearKeeps(log: SourceLog, t0: Table, s: State, s': State)
    requires Inv(log, t0, s) && Clear(log, s, s')
    ensures Inv(log, t0, s')
  {
    hide KeyOk;
  }

  /** What the set phases add is known to whoever reads later. */
  lemma SetKey(log: SourceLog, t0: Table, a: nat, b: nat, high: nat, vs: set<Version>, some: set<Version>,
               journal: map<nat, Row>, k: Key)
    requires NoMoves(log, t0) && a <= b <= high <= |log| && NoTruncate(log, a, high) && some <= SetRows(log, a, b)
    requires KeyOk(log, t0, a, high, vs, journal, k)
    ensures KeyOk(log, t0, a, high, vs + some, journal, k)
  {
    L.SinceIsStart(log, a, b);
    forall v | v in some && v.key == k
      ensures VersionOk(log, t0, a, high, v)
    {
      SetVersionOk(log, t0, a, b, high, v);
    }
    if !TouchedIn(log, a, high, k) {
      NoSetRow(log, t0, a, b, b, k);
      UpToDateSame(log, t0, a, vs, vs + some, k);
    }
    forall m: nat | Unread(log, a, high, journal, m, k)
      ensures Intact(log, t0, vs + some, m, k)
      ensures !TouchedIn(log, a, m, k) ==> UpToDate(log, t0, a, vs + some, k)
    {
      SetIntact(log, t0, a, b, m, vs, some, k);
      if !TouchedIn(log, a, m, k) {
        NoSetRow(log, t0, a, b, if m < b then m else b, k);
        UpToDateSame(log, t0, a, vs, vs + some, k);
      }
    }
  }

  lemma SetVersionOk(log: SourceLog, t0: Table, a: nat, b: nat, high: nat, v: Version)
    requires NoMoves(log, t0) && a <= b <= high <= |log| && Since(log, a, b) == a && v in SetRows(log, a, b)
    ensures VersionOk(log, t0, a, high, v)
  {
    SetRowsAre(log, t0, a, b, v);
    if !MaskedIn(log, a, b, v.key) {
      SetRowIs(log, t0, a, b, b, v);
    }
  }

  lemma UpToDateSame(log: SourceLog, t0: Table, a: nat, vs: set<Version>, vs': set<Version>, k: Key)
    requires a <= |log| && UpToDate(log, t0, a, vs, k) && SameOf(vs, vs', k)
    ensures UpToDate(log, t0, a, vs', k)
  {
  }

  lemma NoSetRow(log: SourceLog, t0: Table, a: nat, b: nat, m: nat, k: Key)
    requires NoMoves(log, t0) && a <= m <= b <= |log| && Since(log, a, b) == a && !TouchedIn(log, a, m, k)
    requires m == b || MaskedAt(log, m, k)
    ensures forall v :: v in SetRows(log, a, b) ==> v.key != k
  {
    if MaskedIn(log, a, m, k) {
      var g :| a <= g < m && MaskedAt(log, g, k);
      assert TouchedAt(log, g, k);
    }
    HeadMeets(log, t0, a, b, m, k);
    forall v | v in SetRows(log, a, b)
      ensures v.key != k
    {
      SetRowsAre(log, t0, a, b, v);
    }
  }

  lemma SetIntact(log: SourceLog, t0: Table, a: nat, b: nat, m: nat, vs: set<Version>, some: set<Version>, k: Key)
    requires NoMoves(log, t0) && a <= b <= |log| && Since(log, a, b) == a && some <= SetRows(log, a, b)
    requires m <= |log| && FirstMasked(log, a, m, k) && Intact(log, t0, vs, m, k)
    ensures Intact(log, t0, vs + some, m, k)
  {
    forall v | v in some && v.key == k && v.ver > m
      ensures v.row == RowAt(log, t0, m, k)
    {
      SetRowsAre(log, t0, a, b, v);
      SetRowIs(log, t0, a, b, m, v);
    }
  }

  lemma SetStoreOk(log: SourceLog, t0: Table, s: State, s': State, some: set<Version>)
    requires NoMoves(log, t0) && Bounds(log, s) && s.phase.Setting? && StoreOk(log, t0, s)
    requires some <= SetRows(log, s.a, s.phase.b)
    requires s'.a == s.a && s'.high == s.high && s'.journal == s.journal && s'.versions == s.versions + some
    ensures StoreOk(log, t0, s')
  {
    hide KeyOk;
    if NoTruncate(log, s.a, s.high) {
      forall k
        ensures KeyOk(log, t0, s'.a, s'.high, s'.versions, s'.journal, k)
      {
        assert KeyOk(log, t0, s.a, s.high, s.versions, s.journal, k);
        SetKey(log, t0, s.a, s.phase.b, s.high, s.versions, some, s.journal, k);
      }
    }
  }

  lemma SetSomeKeeps(log: SourceLog, t0: Table, s: State, s': State, some: set<Version>)
    requires NoMoves(log, t0) && Inv(log, t0, s) && SetSome(log, s, s', some)
    ensures Inv(log, t0, s')
  {
    SetStoreOk(log, t0, s, s', some);
  }

  lemma SetDoneBrings(log: SourceLog, t0: Table, s: State, s': State, k: Key)
    requires Inv(log, t0, s) && SetDone(log, s, s')
    ensures Brought(log, t0, s.a, s.phase.b, Since(log, s.a, s.phase.b), s'.versions, k)
  {
    if k in AllTouched(Head(L.Window(log, s.a, s.phase.b))) {
      SetRowThere(log, s.a, s.phase.b, k);
      var v :| v in SetRows(log, s.a, s.phase.b) && v.key == k && v.ver == s.phase.b;
      assert v in s'.versions;
    }
  }

  lemma SetDoneKeeps(log: SourceLog, t0: Table, s: State, s': State)
    requires NoMoves(log, t0) && Inv(log, t0, s) && SetDone(log, s, s')
    ensures Inv(log, t0, s')
  {
    hide StoreOk, Brought;
    SetStoreOk(log, t0, s, s', SetRows(log, s.a, s.phase.b));
    forall k
      ensures Brought(log, t0, s.a, s.phase.b, Since(log, s.a, s.phase.b), s'.versions, k)
    {
      SetDoneBrings(log, t0, s, s', k);
    }
  }

  lemma RowElsewhere(log: SourceLog, t0: Table, g: nat, k: Key)
    requires g < |log| && log[g].Change? && k !in Touches(log[g].op)
    ensures RowAt(log, t0, g + 1, k) == RowAt(log, t0, g, k)
    ensures !MaskedAt(log, g, k)
  {
  }

  lemma MaskedNext(log: SourceLog, c: nat, g: nat, k: Key)
    requires c <= g
    ensures MaskedIn(log, c, g + 1, k) <==> MaskedIn(log, c, g, k) || MaskedAt(log, g, k)
  {
  }

  /** A change of another key, or one the set phases have taken care of. */
  lemma BroughtOn(log: SourceLog, t0: Table, a: nat, b: nat, g: nat, vs: set<Version>, k: Key)
    requires L.InLog(log, a, b) && Since(log, a, b) <= g < b && log[g].Change? && Brought(log, t0, a, b, g, vs, k)
    requires k !in Touches(log[g].op) || (!MaskedIn(log, Since(log, a, b), g, k) && !MaskedAt(log, g, k))
    ensures Brought(log, t0, a, b, g + 1, vs, k)
  {
    hide Exactly, HasFrom, OnlyFrom;
    MaskedNext(log, Since(log, a, b), g, k);
    if k !in Touches(log[g].op) {
      RowElsewhere(log, t0, g, k);
    }
  }

  /** A change stays in the tail exactly when its key has been masked. */
  lemma InTailIsMasked(log: SourceLog, t0: Table, s: State)
    requires NoMoves(log, t0) && AtOp(log, s)
    ensures !OpAt(log, s).Move?
    ensures var c, g, k := Since(log, s.a, s.phase.b), Now(log, s), OpAt(log, s).key;
            OpInTail(log, s) <==> MaskedIn(log, c, g, k) || MaskedAt(log, g, k)
  {
    assert FoundAt(log, t0, Now(log, s));
    var c, k := Since(log, s.a, s.phase.b), OpAt(log, s).key;
    StickyIsMasked(log, t0, c, s.phase.b, s.phase.i, k);
    var sticky := Sticky(L.Window(log, s.a, s.phase.b)[..s.phase.i]);
    assert k in sticky ==> k in Touches(OpAt(log, s)) * sticky;
  }

  lemma NotInTailRun(log: SourceLog, t0: Table, s: State, s': State)
    requires NoMoves(log, t0) && Bounds(log, s) && Bounds(log, s') && NotInTail(log, s, s') && RunOk(log, t0, s)
    ensures RunOk(log, t0, s')
  {
    hide Brought;
    var g, next := Now(log, s), Reached(log, s');
    InTailIsMasked(log, t0, s);
    forall k
      ensures Brought(log, t0, s.a, s.phase.b, next, s'.versions, k)
    {
      assert Brought(log, t0, s.a, s.phase.b, g, s.versions, k);
      BroughtOn(log, t0, s.a, s.phase.b, g, s.versions, k);
    }
  }

  lemma SameStore(log: SourceLog, t0: Table, s: State, s': State)
    requires s.a <= s.high <= |log| && JournalTrue(log, t0, s) && StoreOk(log, t0, s) && s' == s.(phase := s'.phase)
    ensures JournalTrue(log, t0, s') && StoreOk(log, t0, s')
  {
    hide KeyOk;
  }

  lemma NotInTailKeeps(log: SourceLog, t0: Table, s: State, s': State)
    requires NoMoves(log, t0) && Inv(log, t0, s) && NotInTail(log, s, s')
    ensures Inv(log, t0, s')
  {
    hide JournalTrue, StoreOk, RunOk;
    SameStore(log, t0, s, s');
    if RunTrusted(log, s) {
      NotInTailRun(log, t0, s, s');
    }
  }

  /** An image fetched is the one the source wrote, on a trusted run. */
  lemma FetchIsTrue(log: SourceLog, t0: Table, s: State, s': State, v: Version)
    requires NoMoves(log, t0) && Inv(log, t0, s) && (FetchHit(log, s, s') || FetchMiss(log, s, s', v))
    requires RunTrusted(log, s)
    ensures Tailed(log, Now(log, s)) && s'.phase.hold == Some(L.TrueImage(log, t0, Now(log, s)))
  {
    var g := Now(log, s);
    if g in s.journal {
      assert L.Trusted(log, s.a, s.high, g);
    } else {
      MissReadsSource(log, t0, s);
    }
  }

  lemma FetchStore(log: SourceLog, t0: Table, s: State, s': State)
    requires s.a <= s.high <= |log| && StoreOk(log, t0, s)
    requires s'.a == s.a && s'.high == s.high && s'.versions == s.versions
    requires forall g :: g in s.journal && g >= s.a ==> g in s'.journal
    ensures StoreOk(log, t0, s')
  {
    hide KeyOk;
    if NoTruncate(log, s.a, s.high) {
      forall k
        ensures KeyOk(log, t0, s'.a, s'.high, s'.versions, s'.journal, k)
      {
        assert KeyOk(log, t0, s.a, s.high, s.versions, s.journal, k);
        KeySame(log, t0, s.a, s.high, s.versions, s'.versions, s.journal, s'.journal, k);
      }
    }
  }

  lemma FetchRun(log: SourceLog, t0: Table, s: State, s': State, v: Version)
    requires NoMoves(log, t0) && Inv(log, t0, s) && Bounds(log, s')
    requires (FetchHit(log, s, s') || FetchMiss(log, s, s', v)) && RunTrusted(log, s)
    ensures RunOk(log, t0, s')
  {
    FetchIsTrue(log, t0, s, s', v);
    hide StoreOk, JournalTrue, AllBrought, Final, Since;
    assert Hot(log, s') == Hot(log, s);
  }

  lemma FetchKeeps(log: SourceLog, t0: Table, s: State, s': State, v: Version)
    requires NoMoves(log, t0) && Inv(log, t0, s) && (FetchHit(log, s, s') || FetchMiss(log, s, s', v))
    ensures Inv(log, t0, s')
  {
    hide StoreOk, RunOk;
    FetchStore(log, t0, s, s');
    if RunTrusted(log, s) {
      FetchIsTrue(log, t0, s, s', v);
      FetchRun(log, t0, s, s', v);
    } else {
      UntrustedEntry(log, s);
    }
  }

  lemma UntrustedEntry(log: SourceLog, s: State)
    requires Bounds(log, s) && AtOp(log, s) && !RunTrusted(log, s)
    ensures !L.Trusted(log, s.a, s.high, Now(log, s))
  {
  }

  lemma {:induction false} FirstMaskedOf(log: SourceLog, a: nat, g: nat, k: Key) returns (m: nat)
    requires a <= g && MaskedAt(log, g, k)
    ensures m <= g && FirstMasked(log, a, m, k)
  {
    if MaskedIn(log, a, g, k) {
      var p :| a <= p < g && MaskedAt(log, p, k);
      m := FirstMaskedOf(log, a, p, k);
    } else {
      m := g;
    }
  }

  /** The key of a tail change: its first masked update has been journalled. */
  lemma WrittenIsRead(log: SourceLog, t0: Table, s: State, m: nat)
    requires NoMoves(log, t0) && Bounds(log, s) && s.phase.Tailing? && RunJournal(log, t0, s) && Writable(log, s)
    requires Since(log, s.a, s.phase.b) == s.a && FirstMasked(log, s.a, m, OpAt(log, s).key)
    ensures m in s.journal
  {
    InTailIsMasked(log, t0, s);
    var g, k := Now(log, s), OpAt(log, s).key;
    assert MaskedIn(log, s.a, g, k) || MaskedAt(log, g, k);
    assert m <= g;
  }

  /** A write of the tail: only versions of the change's key, at the window's
      end, once its first masked update is journalled. */
  lemma WriteKey(log: SourceLog, t0: Table, s: State, vs': set<Version>, k: Key)
    requires NoMoves(log, t0) && Bounds(log, s) && s.phase.Tailing? && RunJournal(log, t0, s) && Writable(log, s)
    requires Since(log, s.a, s.phase.b) == s.a && k == OpAt(log, s).key
    requires forall v :: v in vs' && v.key == k ==> v.ver == s.phase.b
    ensures KeyOk(log, t0, s.a, s.high, vs', s.journal, k)
  {
    InTailIsMasked(log, t0, s);
    assert TouchedAt(log, Now(log, s), k);
    assert MaskedIn(log, s.a, s.phase.b, k);
    forall m: nat | Unread(log, s.a, s.high, s.journal, m, k)
      ensures false
    {
      WrittenIsRead(log, t0, s, m);
    }
  }

  lemma WriteStore(log: SourceLog, t0: Table, s: State, s': State)
    requires NoMoves(log, t0) && Inv(log, t0, s) && Writable(log, s)
    requires s'.a == s.a && s'.high == s.high && s'.journal == s.journal
    requires forall k :: k != OpAt(log, s).key ==> SameOf(s.versions, s'.versions, k)
    requires forall v :: v in s'.versions && v.key == OpAt(log, s).key ==> v.ver == s.phase.b
    ensures StoreOk(log, t0, s')
  {
    hide KeyOk;
    if NoTruncate(log, s.a, s.high) {
      L.SinceIsStart(log, s.a, s.phase.b);
      forall k
        ensures KeyOk(log, t0, s'.a, s'.high, s'.versions, s'.journal, k)
      {
        assert KeyOk(log, t0, s.a, s.high, s.versions, s.journal, k);
        if k == OpAt(log, s).key {
          WriteKey(log, t0, s, s'.versions, k);
        } else {
          KeySame(log, t0, s.a, s.high, s.versions, s'.versions, s.journal, s'.journal, k);
        }
      }
    }
  }

  lemma WipeKeeps(log: SourceLog, t0: Table, s: State, s': State)
    requires NoMoves(log, t0) && Inv(log, t0, s) && Wipe(log, s, s')
    ensures Inv(log, t0, s')
  {
    hide StoreOk, KeyOk, RunOk;
    InTailIsMasked(log, t0, s);
    WriteStore(log, t0, s, s');
    if RunTrusted(log, s) {
      WipeRun(log, t0, s, s');
    }
  }

  lemma WipeRun(log: SourceLog, t0: Table, s: State, s': State)
    requires NoMoves(log, t0) && Bounds(log, s) && Bounds(log, s') && s.phase.Tailing? && RunOk(log, t0, s)
    requires Wipe(log, s, s')
    ensures RunOk(log, t0, s')
  {
    hide Brought;
    InTailIsMasked(log, t0, s);
    var g := Reached(log, s);
    assert Hot(log, s') == Touches(OpAt(log, s));
    forall k | k !in Hot(log, s')
      ensures Brought(log, t0, s.a, s.phase.b, g, s'.versions, k)
    {
      assert Brought(log, t0, s.a, s.phase.b, g, s.versions, k);
      BroughtSame(log, t0, s.a, s.phase.b, g, s.versions, s'.versions, k);
    }
  }

  lemma LandBrings(log: SourceLog, t0: Table, s: State, s': State)
    requires NoMoves(log, t0) && Bounds(log, s) && s.phase.Tailing? && RunJournal(log, t0, s) && Land(log, s, s')
    ensures Brought(log, t0, s.a, s.phase.b, Now(log, s) + 1, s'.versions, OpAt(log, s).key)
  {
    var g, k, b := Now(log, s), OpAt(log, s).key, s.phase.b;
    InTailIsMasked(log, t0, s);
    MaskedNext(log, Since(log, s.a, b), g, k);
    assert FoundAt(log, t0, g);
    assert Exactly(s'.versions, k, b, RowAt(log, t0, g + 1, k));
  }

  lemma LandRun(log: SourceLog, t0: Table, s: State, s': State)
    requires NoMoves(log, t0) && Inv(log, t0, s) && Bounds(log, s') && Land(log, s, s') && RunTrusted(log, s)
    ensures RunOk(log, t0, s')
  {
    hide StoreOk, JournalTrue, Brought;
    var g, next, b := Now(log, s), Reached(log, s'), s.phase.b;
    InTailIsMasked(log, t0, s);
    LandBrings(log, t0, s, s');
    forall k
      ensures Brought(log, t0, s.a, b, next, s'.versions, k)
    {
      if k != OpAt(log, s).key {
        assert Brought(log, t0, s.a, b, g, s.versions, k);
        BroughtSame(log, t0, s.a, b, g, s.versions, s'.versions, k);
        BroughtOn(log, t0, s.a, b, g, s'.versions, k);
      }
    }
  }

  lemma LandKeeps(log: SourceLog, t0: Table, s: State, s': State)
    requires NoMoves(log, t0) && Inv(log, t0, s) && Land(log, s, s')
    ensures Inv(log, t0, s')
  {
    hide StoreOk, KeyOk, RunOk;
    InTailIsMasked(log, t0, s);
    WriteStore(log, t0, s, s');
    if RunTrusted(log, s) {
      LandRun(log, t0, s, s');
    }
  }

  // ------------------------------------------------------------------
  // Committing a window.

  lemma CommitMasked(log: SourceLog, t0: Table, b: nat, high: nat, vs: set<Version>, journal: map<nat, Row>, k: Key)
    requires b <= high <= |log| && Exactly(vs, k, b, RowAt(log, t0, b, k))
    ensures KeyOk(log, t0, b, high, vs, journal, k)
  {
    if RowAt(log, t0, b, k).Some? {
      var v := Version(k, b, RowAt(log, t0, b, k));
      assert v in vs && Steady(log, t0, v.ver, b, k);
    }
    assert UpToDate(log, t0, b, vs, k);
  }

  lemma HasFromIsNew(log: SourceLog, t0: Table, b: nat, vs: set<Version>, k: Key)
    requires b <= |log| && HasFrom(vs, k, b)
    ensures UpToDate(log, t0, b, vs, k)
  {
    var v :| v in vs && v.key == k && v.ver >= b;
    assert Steady(log, t0, v.ver, b, k);
  }

  lemma CommitCleared(log: SourceLog, t0: Table, a: nat, b: nat, high: nat, vs: set<Version>, journal: map<nat, Row>,
                      k: Key)
    requires NoMoves(log, t0) && a <= b <= high <= |log| && Since(log, a, b) > a
    requires !MaskedIn(log, Since(log, a, b), b, k) && Brought(log, t0, a, b, b, vs, k)
    ensures KeyOk(log, t0, b, high, vs, journal, k)
  {
    var c := Since(log, a, b);
    forall v | v in vs && v.key == k
      ensures v.ver == b && v.row == RowAt(log, t0, b, k)
    {
      SetRowIs(log, t0, a, b, b, v);
    }
    HeadMeets(log, t0, c, b, b, k);
    if TouchedIn(log, c, b, k) {
      HasFromIsNew(log, t0, b, vs, k);
    } else {
      QuietIsSteady(log, t0, c, b, b, k);
      assert forall v :: v in vs && v.key == k ==> v in SetRows(log, a, b);
      NoRowsOff(log, t0, a, b, k);
    }
  }

  lemma NoRowsOff(log: SourceLog, t0: Table, a: nat, b: nat, k: Key)
    requires L.InLog(log, a, b) && k !in AllTouched(Head(L.Window(log, a, b)))
    ensures forall v :: v in SetRows(log, a, b) ==> v.key != k
  {
    forall v | v in SetRows(log, a, b)
      ensures v.key != k
    {
      SetRowsAre(log, t0, a, b, v);
    }
  }

  lemma UpToDateExtends(log: SourceLog, t0: Table, a: nat, b: nat, high: nat, vs: set<Version>, k: Key)
    requires a <= b <= high <= |log| && NoTruncate(log, a, high) && !TouchedIn(log, a, b, k)
    requires UpToDate(log, t0, a, vs, k)
    ensures UpToDate(log, t0, b, vs, k)
  {
    if v :| v in vs && v.key == k && (v.ver > a || Steady(log, t0, v.ver, a, k)) && v.ver <= b {
      SteadyExtends(log, t0, v.ver, a, b, k);
    } else if v :| v in vs && v.key == k && Steady(log, t0, v.ver, a, k) {
      assert Steady(log, t0, v.ver, b, k);
    } else {
      QuietIsSteady(log, t0, a, b, b, k);
    }
  }

  lemma CommitUpToDate(log: SourceLog, t0: Table, a: nat, b: nat, high: nat, vs: set<Version>, journal: map<nat, Row>,
                       k: Key)
    requires NoMoves(log, t0) && a <= b <= high <= |log| && NoTruncate(log, a, high) && !MaskedIn(log, a, b, k)
    requires KeyOk(log, t0, a, high, vs, journal, k) && Since(log, a, b) == a && Brought(log, t0, a, b, b, vs, k)
    ensures !TouchedIn(log, b, high, k) ==> UpToDate(log, t0, b, vs, k)
    ensures forall m {:trigger Unread(log, b, high, journal, m, k)} ::
              Unread(log, b, high, journal, m, k) && !TouchedIn(log, b, m, k) ==> UpToDate(log, t0, b, vs, k)
  {
    HeadMeets(log, t0, a, b, b, k);
    if TouchedIn(log, a, b, k) {
      HasFromIsNew(log, t0, b, vs, k);
    } else {
      if !TouchedIn(log, b, high, k) {
        assert !TouchedIn(log, a, high, k);
        UpToDateExtends(log, t0, a, b, high, vs, k);
      }
      forall m: nat | Unread(log, b, high, journal, m, k) && !TouchedIn(log, b, m, k)
        ensures UpToDate(log, t0, b, vs, k)
      {
        UnreadBefore(log, a, b, high, journal, m, k);
        UpToDateExtends(log, t0, a, b, high, vs, k);
      }
    }
  }

  lemma UnreadBefore(log: SourceLog, a: nat, b: nat, high: nat, journal: map<nat, Row>, m: nat, k: Key)
    requires a <= b && Unread(log, b, high, journal, m, k) && !MaskedIn(log, a, b, k)
    ensures Unread(log, a, high, journal, m, k)
    ensures !TouchedIn(log, a, b, k) && !TouchedIn(log, b, m, k) ==> !TouchedIn(log, a, m, k)
  {
  }

  lemma CommitKey(log: SourceLog, t0: Table, a: nat, b: nat, high: nat, vs: set<Version>, journal: map<nat, Row>,
                  k: Key)
    requires NoMoves(log, t0) && a <= b <= high <= |log| && NoTruncate(log, a, high) && !MaskedIn(log, a, b, k)
    requires KeyOk(log, t0, a, high, vs, journal, k) && Since(log, a, b) == a && Brought(log, t0, a, b, b, vs, k)
    ensures KeyOk(log, t0, b, high, vs, journal, k)
  {
    CommitUpToDate(log, t0, a, b, high, vs, journal, k);
    hide Brought, UpToDate, Steady;
    forall m: nat | Unread(log, b, high, journal, m, k)
      ensures Intact(log, t0, vs, m, k)
    {
      UnreadBefore(log, a, b, high, journal, m, k);
    }
    forall v | v in vs && v.key == k
      ensures VersionOk(log, t0, b, high, v)
    {
      assert VersionOk(log, t0, a, high, v);
    }
  }

  lemma CommitKeeps(log: SourceLog, t0: Table, s: State, s': State)
    requires NoMoves(log, t0) && Inv(log, t0, s) && Commit(log, s, s')
    ensures Inv(log, t0, s')
  {
    hide KeyOk, Brought;
    var b := s.phase.b;
    forall g | g in s.journal && g >= b && L.Trusted(log, b, s.high, g)
      ensures L.Trusted(log, s.a, s.high, g)
    {
    }
    if NoTruncate(log, b, s.high) {
      assert RunTrusted(log, s);
      forall k
        ensures KeyOk(log, t0, b, s.high, s.versions, s.journal, k)
      {
        assert Brought(log, t0, s.a, b, b, s.versions, k);
        CommitOne(log, t0, s, k);
      }
    }
  }

  lemma CommitOne(log: SourceLog, t0: Table, s: State, k: Key)
    requires NoMoves(log, t0) && Bounds(log, s) && StoreOk(log, t0, s) && s.phase.Tailing?
    requires NoTruncate(log, s.phase.b, s.high) && Brought(log, t0, s.a, s.phase.b, s.phase.b, s.versions, k)
    ensures KeyOk(log, t0, s.phase.b, s.high, s.versions, s.journal, k)
  {
    hide KeyOk;
    var b := s.phase.b;
    var c := Since(log, s.a, b);
    if MaskedIn(log, c, b, k) {
      CommitMasked(log, t0, b, s.high, s.versions, s.journal, k);
    } else if c > s.a {
      CommitCleared(log, t0, s.a, b, s.high, s.versions, s.journal, k);
    } else {
      assert NoTruncate(log, s.a, s.high);
      assert KeyOk(log, t0, s.a, s.high, s.versions, s.journal, k);
      CommitKey(log, t0, s.a, b, s.high, s.versions, s.journal, k);
    }
  }

  // ------------------------------------------------------------------
  // Merges.

  lemma MergeKey(log: SourceLog, t0: Table, s: State, s': State, parts: set<Version>, kept: Version, k: Key)
    requires s.a <= s.high <= |log| && Merge(s, s', parts, kept)
    requires KeyOk(log, t0, s.a, s.high, s.versions, s.journal, k)
    ensures KeyOk(log, t0, s.a, s.high, s'.versions, s.journal, k)
  {
    if v :| v in s.versions && v.key == k && Steady(log, t0, v.ver, s.a, k) {
      var u := if v in parts then kept else v;
      assert u in s'.versions && u.key == k && Steady(log, t0, u.ver, s.a, k);
    }
    assert UpToDate(log, t0, s.a, s.versions, k) ==> UpToDate(log, t0, s.a, s'.versions, k);
  }

  lemma MergeBrings(log: SourceLog, t0: Table, s: State, s': State, parts: set<Version>, kept: Version, b: nat, g: nat,
                    k: Key)
    requires L.InLog(log, s.a, b) && g <= b && Merge(s, s', parts, kept)
    requires Brought(log, t0, s.a, b, g, s.versions, k)
    ensures Brought(log, t0, s.a, b, g, s'.versions, k)
  {
    if HasFrom(s.versions, k, b) {
      var v :| v in s.versions && v.key == k && v.ver >= b;
      assert (if v in parts then kept else v) in s'.versions;
    }
  }

  lemma MergeKeeps(log: SourceLog, t0: Table, s: State, s': State, parts: set<Version>, kept: Version)
    requires Inv(log, t0, s) && Merge(s, s', parts, kept)
    ensures Inv(log, t0, s')
  {
    hide StoreOk, RunOk;
    MergeStore(log, t0, s, s', parts, kept);
    if s.phase.Tailing? && RunTrusted(log, s) {
      MergeRun(log, t0, s, s', parts, kept);
    }
  }

  lemma MergeStore(log: SourceLog, t0: Table, s: State, s': State, parts: set<Version>, kept: Version)
    requires s.a <= s.high <= |log| && StoreOk(log, t0, s) && Merge(s, s', parts, kept)
    ensures StoreOk(log, t0, s')
  {
    hide KeyOk;
    if NoTruncate(log, s.a, s.high) {
      forall k
        ensures KeyOk(log, t0, s'.a, s'.high, s'.versions, s'.journal, k)
      {
        assert KeyOk(log, t0, s.a, s.high, s.versions, s.journal, k);
        MergeKey(log, t0, s, s', parts, kept, k);
      }
    }
  }

  lemma MergeRun(log: SourceLog, t0: Table, s: State, s': State, parts: set<Version>, kept: Version)
    requires Bounds(log, s) && Bounds(log, s') && s.phase.Tailing? && RunOk(log, t0, s) && Merge(s, s', parts, kept)
    ensures RunOk(log, t0, s')
  {
    hide Brought;
    var g := Reached(log, s);
    assert Hot(log, s') == Hot(log, s);
    forall k | k !in Hot(log, s')
      ensures Brought(log, t0, s.a, s.phase.b, g, s'.versions, k)
    {
      assert Brought(log, t0, s.a, s.phase.b, g, s.versions, k);
      MergeBrings(log, t0, s, s', parts, kept, s.phase.b, g, k);
    }
  }

  lemma SweepKeeps(log: SourceLog, t0: Table, s: State, s': State)
    requires Inv(log, t0, s) && Sweep(s, s')
    ensures Inv(log, t0, s')
  {
    hide StoreOk, RunOk;
    FetchStore(log, t0, s, s');
    if s.phase.Tailing? && RunTrusted(log, s) {
      SweepRun(log, t0, s, s');
    }
  }

  lemma SweepRun(log: SourceLog, t0: Table, s: State, s': State)
    requires Bounds(log, s) && Bounds(log, s') && s.phase.Tailing? && RunOk(log, t0, s) && Sweep(s, s')
    ensures RunOk(log, t0, s')
  {
    hide AllBrought;
    assert Hot(log, s') == Hot(log, s);
  }

  lemma StopKeeps(log: SourceLog, t0: Table, s: State, s': State)
    requires Inv(log, t0, s) && s' == s.(phase := Idle)
    ensures Inv(log, t0, s')
  {
    hide JournalTrue, StoreOk;
    SameStore(log, t0, s, s');
  }

  lemma NextKeeps(log: SourceLog, t0: Table, s: State, s': State)
    requires NoMoves(log, t0) && Inv(log, t0, s) && Next(log, s, s')
    ensures Inv(log, t0, s')
  {
    hide Inv;
    if b :| Begin(log, s, s', b) {
      BeginKeeps(log, t0, s, s', b);
    } else if Clear(log, s, s') {
      ClearKeeps(log, t0, s, s');
    } else if some :| SetSome(log, s, s', some) {
      SetSomeKeeps(log, t0, s, s', some);
    } else if SetDone(log, s, s') {
      SetDoneKeeps(log, t0, s, s');
    } else if NotInTail(log, s, s') {
      NotInTailKeeps(log, t0, s, s');
    } else if FetchHit(log, s, s') {
      FetchKeeps(log, t0, s, s', Version([], 0, None));
    } else if v :| FetchMiss(log, s, s', v) {
      FetchKeeps(log, t0, s, s', v);
    } else if Wipe(log, s, s') {
      WipeKeeps(log, t0, s, s');
    } else if Land(log, s, s') {
      LandKeeps(log, t0, s, s');
    } else if Commit(log, s, s') {
      CommitKeeps(log, t0, s, s');
    } else if parts, kept :| Merge(s, s', parts, kept) {
      MergeKeeps(log, t0, s, s', parts, kept);
    } else if Sweep(s, s') {
      SweepKeeps(log, t0, s, s');
    } else {
      StopKeeps(log, t0, s, s');
    }
  }

  // ------------------------------------------------------------------
  // Whole histories.

  ghost predicate History(log: SourceLog, t0: Table, h: seq<State>) {
    && |h| > 0 && Init(h[0], t0)
    && forall i {:trigger StepAt(log, h, i)} :: 0 <= i < |h| - 1 ==> StepAt(log, h, i)
  }

  ghost predicate StepAt(log: SourceLog, h: seq<State>, i: nat)
    requires i + 1 < |h|
  {
    Next(log, h[i], h[i + 1])
  }

  lemma {:induction false} HistoryKeeps(log: SourceLog, t0: Table, h: seq<State>, i: nat)
    requires NoMoves(log, t0) && History(log, t0, h) && i < |h|
    ensures Inv(log, t0, h[i])
  {
    hide Inv, Next;
    if i == 0 {
      InitKeeps(log, t0, h[0]);
    } else {
      var j := i - 1;
      HistoryKeeps(log, t0, h, j);
      assert StepAt(log, h, j);
      NextKeeps(log, t0, h[j], h[i]);
    }
  }

  /** Whatever attempts died, at whatever statement, and whatever merged, once
      the watermark is past every attempt a read with FINAL answers the source's
      row for every key, and a key with no version at all has no row. */
  lemma FinalIsSource(log: SourceLog, t0: Table, h: seq<State>, i: nat, k: Key)
    requires NoMoves(log, t0) && History(log, t0, h) && i < |h| && h[i].phase.Idle? && h[i].a == h[i].high
    ensures h[i].a <= |log|
    ensures forall v :: Final(h[i].versions, v) && v.key == k ==> v.row == RowAt(log, t0, h[i].a, k)
    ensures (forall v :: v in h[i].versions ==> v.key != k) ==> k !in Source(log, t0, h[i].a)
  {
    HistoryKeeps(log, t0, h, i);
    var s := h[i];
    assert KeyOk(log, t0, s.a, s.high, s.versions, s.journal, k);
    assert forall v :: v in s.versions && v.key == k ==> VersionOk(log, t0, s.a, s.high, v);
    CurrentReads(log, t0, s.a, s.high, s.a, s.versions, k);
  }

  /** A masked update is refused only if a longer attempt died after a TRUNCATE
      this run does not reach. */
  lemma NeverRefused(log: SourceLog, t0: Table, h: seq<State>, i: nat)
    requires NoMoves(log, t0) && History(log, t0, h) && i + 1 < |h| && Refuse(log, h[i], h[i + 1])
    ensures h[i].phase.Tailing? && h[i].a <= h[i].phase.b <= h[i].high <= |log|
    ensures NoTruncate(log, h[i].a, h[i].phase.b) && !NoTruncate(log, h[i].phase.b, h[i].high)
  {
    HistoryKeeps(log, t0, h, i);
    if RunTrusted(log, h[i]) {
      MissReadsSource(log, t0, h[i]);
    }
  }
}
