// The generated change streams whose end state is known in closed form.
module Workloads {
  /** A row as the streams see it: the integer they change, and the rest. */
  datatype Row = Row(regular: int, rest: nat)

  type Table = map<int, Row>

  predicate Between(id: int, lo: int, hi: int) {
    lo <= id <= hi
  }

  function UpdateBand(t: Table, lo: int, hi: int): Table {
    map id | id in t :: if Between(id, lo, hi) then t[id].(regular := t[id].regular + 1) else t[id]
  }

  function DeleteBand(t: Table, lo: int, hi: int): Table {
    map id | id in t && !Between(id, lo, hi) :: t[id]
  }

  // ------------------------------------------------------------------
  // The stress writer: each transaction bumps a fixed band, inserts fresh ids
  // and deletes the same ids.

  const BAND_WIDTH: int := 800
  const INS_WIDTH: int := 100
  const INS_LO: int := 50_000_000

  /** `INSERT ... SELECT` of generated rows for the ids `lo..hi`. */
  function InsertBand(t: Table, lo: int, hi: int, shape: int -> Row): Table {
    t + (map id | lo <= id <= hi :: shape(id))
  }

  function Transaction(t: Table, band: int, ins: int, shape: int -> Row): Table {
    var updated := UpdateBand(t, band, band + BAND_WIDTH - 1);
    DeleteBand(InsertBand(updated, ins, ins + INS_WIDTH - 1, shape), ins, ins + INS_WIDTH - 1)
  }

  /** The table with its band `k` higher: what `k` transactions leave. */
  function Bumped(t: Table, band: int, k: int): Table {
    map id | id in t :: if Between(id, band, band + BAND_WIDTH - 1) then t[id].(regular := t[id].regular + k) else t[id]
  }

  /** No fresh id survives its transaction. */
  lemma TransactionBumps(t: Table, band: int, ins: int, shape: int -> Row)
    requires forall id :: id in t ==> !Between(id, ins, ins + INS_WIDTH - 1)
    ensures Transaction(t, band, ins, shape) == Bumped(t, band, 1)
  {
  }

  lemma BumpsAdd(t: Table, band: int, j: int, k: int)
    ensures Bumped(Bumped(t, band, j), band, k) == Bumped(t, band, j + k)
  {
  }

  function BandOf(base: int, t: nat): int {
    base + (t - 1) * 1000
  }

  /** One session: its tables take turns, and the counter behind the fresh ids
      is the session's, shared by its tables. */
  method Session(tables: seq<nat>, ntxn: nat, base: int, db: map<nat, Table>, shape: int -> Row)
    returns (after: map<nat, Table>, k: nat)
    requires forall i :: 0 <= i < |tables| ==> tables[i] in db
    requires forall i, j :: 0 <= i < j < |tables| ==> tables[i] != tables[j]
    requires forall t, id :: t in db && id in db[t] ==> id < INS_LO
    ensures k == ntxn * |tables| && after.Keys == db.Keys
    ensures forall t :: t in db ==> after[t] == if t in tables then Bumped(db[t], BandOf(base, t), ntxn) else db[t]
    ensures forall t, id :: t in db && id in db[t] ==>
              && id in after[t] && after[t][id].rest == db[t][id].rest
              && after[t][id].regular - db[t][id].regular ==
                 if t in tables && base + (t - 1) * 1000 <= id < base + (t - 1) * 1000 + 800 then ntxn else 0
  {
    after, k := db, 0;
    BumpedNone(db, base);
    var i := 0;
    while i < ntxn
      invariant 0 <= i <= ntxn && k == i * |tables| && after.Keys == db.Keys
      invariant forall t :: t in db ==> after[t] == if t in tables then Bumped(db[t], BandOf(base, t), i) else db[t]
    {
      after, k := Round(tables, base, db, after, i, k, shape);
      i := i + 1;
    }
  }

  lemma BumpedNone(db: map<nat, Table>, base: int)
    ensures forall t :: t in db ==> Bumped(db[t], BandOf(base, t), 0) == db[t]
  {
    forall t | t in db
      ensures Bumped(db[t], BandOf(base, t), 0) == db[t]
    {
      var b := Bumped(db[t], BandOf(base, t), 0);
      assert forall id :: id in b ==> b[id] == db[t][id];
    }
  }

  lemma TurnBumps(was: Table, t: Table, band: int, i: nat, ins: int, shape: int -> Row)
    requires t == Bumped(was, band, i) && ins >= INS_LO && forall id :: id in was ==> id < INS_LO
    ensures Transaction(t, band, ins, shape) == Bumped(was, band, i + 1)
  {
    TransactionBumps(t, band, ins, shape);
    BumpsAdd(was, band, i, 1);
  }

  /** One turn of every table of the session. */
  method Round(tables: seq<nat>, base: int, ghost db: map<nat, Table>, before: map<nat, Table>, i: nat, k0: nat,
               shape: int -> Row)
    returns (after: map<nat, Table>, k: nat)
    requires forall j :: 0 <= j < |tables| ==> tables[j] in db
    requires forall j, l :: 0 <= j < l < |tables| ==> tables[j] != tables[l]
    requires forall t, id :: t in db && id in db[t] ==> id < INS_LO
    requires before.Keys == db.Keys
    requires forall t :: t in db ==> before[t] == if t in tables then Bumped(db[t], BandOf(base, t), i) else db[t]
    ensures k == k0 + |tables| && after.Keys == db.Keys
    ensures forall t :: t in db ==> after[t] == if t in tables then Bumped(db[t], BandOf(base, t), i + 1) else db[t]
  {
    hide Bumped, Transaction;
    after, k := before, k0;
    var j := 0;
    while j < |tables|
      invariant 0 <= j <= |tables| && k == k0 + j && after.Keys == db.Keys
      invariant forall t :: t in db ==>
                  after[t] == if t in tables[..j] then Bumped(db[t], BandOf(base, t), i + 1) else before[t]
    {
      var t := tables[j];
      var ins := INS_LO + t * 1_000_000 + k * INS_WIDTH;
      assert t !in tables[..j] && tables[..j + 1] == tables[..j] + [t];
      TurnBumps(db[t], after[t], BandOf(base, t), i, ins, shape);
      after := after[t := Transaction(after[t], BandOf(base, t), ins, shape)];
      k := k + 1;
      j := j + 1;
    }
    assert tables[..j] == tables;
  }

  /** The reconstruction: two regions of the table as it is now, the band with
      `undo` taken off, every other row as it stands. */
  function Reconstruct(t: Table, band: int, undo: int): Table {
    (map id | id in t && Between(id, band, band + BAND_WIDTH - 1) :: t[id].(regular := t[id].regular - undo))
    + (map id | id in t && !Between(id, band, band + BAND_WIDTH - 1) :: t[id])
  }

  lemma ReconstructIsBump(t: Table, band: int, undo: int)
    ensures Reconstruct(t, band, undo) == Bumped(t, band, -undo)
  {
    var r, b := Reconstruct(t, band, undo), Bumped(t, band, -undo);
    assert r.Keys == b.Keys;
    assert forall id :: id in b ==> r[id] == b[id];
  }

  lemma ReconstructsBump(t: Table, band: int, at: nat, now: nat)
    requires at <= now
    ensures Reconstruct(Bumped(t, band, now), band, now - at) == Bumped(t, band, at)
    ensures Bumped(t, band, at).Keys == t.Keys
  {
    ReconstructIsBump(Bumped(t, band, now), band, now - at);
    BumpsAdd(t, band, now, at - now);
  }

  /** A session the source has run to `now` and a drain has applied to `at`:
      the source with `now - at` taken off its bands is the destination, for
      every table of the session, and no other table has moved. */
  method ReconstructsExactly(tables: seq<nat>, at: nat, now: nat, base: int, db: map<nat, Table>, shape: int -> Row)
    returns (source: map<nat, Table>, dest: map<nat, Table>)
    requires at <= now
    requires forall i :: 0 <= i < |tables| ==> tables[i] in db
    requires forall i, j :: 0 <= i < j < |tables| ==> tables[i] != tables[j]
    requires forall t, id :: t in db && id in db[t] ==> id < INS_LO
    ensures source.Keys == dest.Keys == db.Keys
    ensures forall t :: t in tables ==> Reconstruct(source[t], BandOf(base, t), now - at) == dest[t]
    ensures forall t :: t in db ==> source[t].Keys == dest[t].Keys == db[t].Keys
    ensures forall t :: t in db && t !in tables ==> source[t] == dest[t] == db[t]
  {
    var k;
    source, k := Session(tables, now, base, db, shape);
    dest, k := Session(tables, at, base, db, shape);
    forall t | t in tables
      ensures Reconstruct(source[t], BandOf(base, t), now - at) == dest[t]
      ensures source[t].Keys == dest[t].Keys == db[t].Keys
    {
      ReconstructsBump(db[t], BandOf(base, t), at, now);
    }
  }

  // ------------------------------------------------------------------
  // The window stream: each tick clones a band of seed rows to high ids,
  // increments a band and deletes a band.

  datatype Window = Window(ins: nat, upd: nat, del: nat, insLo: int, updLo: int, delLo: int)

  function Range(lo: int, n: nat): (r: set<int>)
    ensures forall i :: i in r <==> lo <= i < lo + n
    ensures |r| == n
  {
    if n == 0 then {} else Range(lo, n - 1) + {lo + n - 1}
  }

  /** `INSERT ... SELECT id + shift, ..., id + shift, ...` of the `n` ids from `a`. */
  function CloneBand(t: Table, a: int, n: nat, shift: int): Table {
    var ids := Range(a + shift, n);
    t + (map id | id in ids && id - shift in t :: Row(id, t[id - shift].rest))
  }

  /** One tick, whose bands start `ci`, `cu` and `cd` ids in. */
  function TickAt(w: Window, t: Table, ci: nat, cu: nat, cd: nat): Table {
    var u := w.updLo + cu;
    var d := w.delLo + cd;
    DeleteBand(UpdateBand(CloneBand(t, 1 + ci, w.ins, w.insLo), u, u + w.upd - 1), d, d + w.del - 1)
  }

  /** How many ids `k` ticks of `x` go through. */
  function Span(x: nat, k: nat): nat {
    x * k
  }

  function Tick(w: Window, t: Table, k: nat): Table
    requires k > 0
  {
    TickAt(w, t, Span(w.ins, k - 1), Span(w.upd, k - 1), Span(w.del, k - 1))
  }

  /** The ids among the first `c` of each band. */
  predicate Cloned(w: Window, c: int, id: int) {
    w.insLo + 1 <= id <= w.insLo + c
  }

  predicate Updated(w: Window, c: int, id: int) {
    w.updLo <= id < w.updLo + c
  }

  predicate Deleted(w: Window, c: int, id: int) {
    w.delLo <= id < w.delLo + c
  }

  /** The three bands are disjoint; the clones' sources are seeded and not
      deleted; the ids they go to are free; the deleted ids are seeded. */
  ghost predicate Disjoint(w: Window, ci: int, cu: int, cd: int, seed: Table) {
    && (forall id :: Cloned(w, ci, id) ==> id !in seed && id - w.insLo in seed)
    && (forall id :: Cloned(w, ci, id) ==> !Updated(w, cu, id) && !Deleted(w, cd, id) && !Deleted(w, cd, id - w.insLo))
    && (forall id :: Deleted(w, cd, id) ==> id in seed && !Updated(w, cu, id))
  }

  /** What is left of one id: a clone numbered by itself, a row incremented
      exactly once, a row gone, or the seed's row. */
  ghost predicate LeftAt(w: Window, ci: int, cu: int, cd: int, seed: Table, t: Table, id: int) {
    if Cloned(w, ci, id) then id in t && id - w.insLo in seed && t[id] == Row(id, seed[id - w.insLo].rest)
    else if Deleted(w, cd, id) then id !in t
    else if id !in seed then id !in t
    else id in t && t[id] == if Updated(w, cu, id) then seed[id].(regular := seed[id].regular + 1) else seed[id]
  }

  ghost predicate ExpectedAt(w: Window, n: nat, seed: Table, t: Table, id: int) {
    LeftAt(w, Span(w.ins, n), Span(w.upd, n), Span(w.del, n), seed, t, id)
  }

  ghost predicate Bands(w: Window, n: nat, seed: Table) {
    Disjoint(w, Span(w.ins, n), Span(w.upd, n), Span(w.del, n), seed)
  }

  /** What one tick does to one id. */
  lemma TickAtIs(w: Window, t: Table, ci: nat, cu: nat, cd: nat, id: int)
    ensures var r := TickAt(w, t, ci, cu, cd);
            var cloned := w.insLo + ci < id <= w.insLo + ci + w.ins && id - w.insLo in t;
            && (id in r <==> (cloned || id in t) && !(w.delLo + cd <= id < w.delLo + cd + w.del))
            && (id in r ==>
                  var was := if cloned then Row(id, t[id - w.insLo].rest) else t[id];
                  r[id] == if w.updLo + cu <= id < w.updLo + cu + w.upd then was.(regular := was.regular + 1) else was)
  {
  }

  lemma TickStep(w: Window, ci: nat, cu: nat, cd: nat, ni: nat, nu: nat, nd: nat, seed: Table, t: Table, id: int)
    requires Disjoint(w, ni, nu, nd, seed) && ci + w.ins <= ni && cu + w.upd <= nu && cd + w.del <= nd
    requires LeftAt(w, ci, cu, cd, seed, t, id) && LeftAt(w, ci, cu, cd, seed, t, id - w.insLo)
    ensures LeftAt(w, ci + w.ins, cu + w.upd, cd + w.del, seed, TickAt(w, t, ci, cu, cd), id)
  {
    TickAtIs(w, t, ci, cu, cd, id);
    hide TickAt;
    var src := id - w.insLo;
    assert Cloned(w, ci + w.ins, id) ==> Cloned(w, ni, id);
    assert Cloned(w, ci, src) ==> Cloned(w, ni, src);
    assert Deleted(w, cd + w.del, id) ==> Deleted(w, nd, id);
    assert Deleted(w, cd, src) ==> Deleted(w, nd, src);
  }

  lemma Spans(x: nat, k: nat, n: nat)
    requires 0 < k <= n
    ensures Span(x, k) == Span(x, k - 1) + x <= Span(x, n)
  {
    assert x * n == x * k + x * (n - k);
  }

  lemma TickAdvances(w: Window, n: nat, k: nat, seed: Table, t: Table, id: int)
    requires 0 < k <= n && Bands(w, n, seed)
    requires ExpectedAt(w, k - 1, seed, t, id) && ExpectedAt(w, k - 1, seed, t, id - w.insLo)
    ensures ExpectedAt(w, k, seed, Tick(w, t, k), id)
  {
    hide LeftAt, Disjoint, TickAt, Span;
    Spans(w.ins, k, n);
    Spans(w.upd, k, n);
    Spans(w.del, k, n);
    TickStep(w, Span(w.ins, k - 1), Span(w.upd, k - 1), Span(w.del, k - 1), Span(w.ins, n), Span(w.upd, n),
             Span(w.del, n), seed, t, id);
  }

  lemma TickAdvancesAll(w: Window, n: nat, j: nat, k: nat, seed: Table, t: Table)
    requires k == j + 1 <= n && Bands(w, n, seed) && forall id :: ExpectedAt(w, j, seed, t, id)
    ensures forall id :: ExpectedAt(w, k, seed, Tick(w, t, k), id)
  {
    forall id: int
      ensures ExpectedAt(w, k, seed, Tick(w, t, k), id)
    {
      TickAdvances(w, n, k, seed, t, id);
    }
  }

  /** The whole stream on one table. */
  method RunWindow(w: Window, ticks: nat, seed: Table) returns (t: Table)
    requires Bands(w, ticks, seed)
    ensures forall id :: ExpectedAt(w, ticks, seed, t, id)
    ensures |t| == |seed| + w.ins * ticks - w.del * ticks
  {
    t := seed;
    var k := 0;
    while k < ticks
      invariant 0 <= k <= ticks
      invariant forall id :: ExpectedAt(w, k, seed, t, id)
    {
      k := k + 1;
      TickAdvancesAll(w, ticks, k - 1, k, seed, t);
      t := Tick(w, t, k);
    }
    forall id: int
      ensures LeftAt(w, Span(w.ins, ticks), Span(w.upd, ticks), Span(w.del, ticks), seed, t, id)
    {
      assert ExpectedAt(w, ticks, seed, t, id);
    }
    LeftCount(w, Span(w.ins, ticks), Span(w.upd, ticks), Span(w.del, ticks), seed, t);
  }

  lemma LeftKeys(w: Window, ci: nat, cu: nat, cd: nat, seed: Table, t: Table)
    requires Disjoint(w, ci, cu, cd, seed) && forall id :: LeftAt(w, ci, cu, cd, seed, t, id)
    ensures t.Keys == seed.Keys - Range(w.delLo, cd) + Range(w.insLo + 1, ci)
  {
    forall id
      ensures id in t.Keys <==> id in seed.Keys - Range(w.delLo, cd) + Range(w.insLo + 1, ci)
    {
      assert LeftAt(w, ci, cu, cd, seed, t, id);
    }
  }

  lemma LeftCount(w: Window, ci: nat, cu: nat, cd: nat, seed: Table, t: Table)
    requires Disjoint(w, ci, cu, cd, seed) && forall id :: LeftAt(w, ci, cu, cd, seed, t, id)
    ensures |t| == |seed| + ci - cd
  {
    var cloned, deleted := Range(w.insLo + 1, ci), Range(w.delLo, cd);
    LeftKeys(w, ci, cu, cd, seed, t);
    forall id | id in deleted
      ensures id in seed.Keys
    {
      assert Deleted(w, cd, id);
    }
    forall id | id in cloned
      ensures id !in seed.Keys
    {
      assert Cloned(w, ci, id);
    }
    Counted(seed.Keys, deleted, cloned);
    assert |t| == |t.Keys| && |seed| == |seed.Keys|;
  }

  lemma Counted(all: set<int>, gone: set<int>, more: set<int>)
    requires gone <= all && more !! all
    ensures |all - gone + more| == |all| - |gone| + |more|
  {
    assert |all - gone| == |all| - |gone|;
  }
}
