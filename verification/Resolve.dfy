// The window folded to one image per key, and the MERGE that lands it.
module Resolve {
  import opened Rows
  import opened Tail
  import opened Collapse
  import opened SourceLaw

  /** One key's final state. `Holed` still has out-of-line cells; `from` is
      the key the row lived at before the window moved it, the first of a chain. */
  datatype Fin =
    | Whole(row: Row)
    | Holed(row: Row, from: Option<Key>)
    | Gone

  /** The image a tail change fills its holes from, and where that row came from. */
  function BaseOf(m: map<Key, Fin>, k: Key): (r: (Option<Row>, Option<Key>)) {
    if k !in m || m[k].Gone? then (None, None)
    else if m[k].Whole? then (Some(m[k].row), None)
    else (Some(m[k].row), m[k].from)
  }

  function Fill(row: Row, base: Option<Row>, from: Option<Key>): (f: Fin) {
    var r := if base.Some? then Patch(row, base.value) else row;
    if HasToast(r) then Holed(r, from) else Whole(r)
  }

  function FoldOp(m: map<Key, Fin>, op: Op): map<Key, Fin> {
    match op
    case Put(k, r) => m[k := Whole(r)]
    case Del(k) => m[k := Gone]
    case Masked(k, r) =>
      var (b, origin) := BaseOf(m, k);
      m[k := Fill(r, b, origin)]
    case Move(o, n, r) =>
      var (b, origin) := BaseOf(m, o);
      m[o := Gone][n := Fill(r, b, Some(if origin.Some? then origin.value else o))]
  }

  function Fold(images: Table, ops: seq<Op>): map<Key, Fin> {
    if ops == [] then map k | k in images :: Whole(images[k])
    else FoldOp(Fold(images, ops[..|ops| - 1]), ops[|ops| - 1])
  }

  // ------------------------------------------------------------------
  // The fold as it is computed: entries in first-touch order and an index.

  predicate Indexed(order: seq<(Key, Fin)>, index: map<Key, nat>, m: map<Key, Fin>) {
    && index.Keys == m.Keys
    && (forall k :: k in index ==> index[k] < |order| && order[index[k]] == (k, m[k]))
    && (forall i :: 0 <= i < |order| ==> order[i].0 in index && index[order[i].0] == i)
  }

  method PutFin(order: seq<(Key, Fin)>, index: map<Key, nat>, ghost m: map<Key, Fin>, key: Key, fin: Fin)
    returns (order': seq<(Key, Fin)>, index': map<Key, nat>)
    requires Indexed(order, index, m)
    ensures Indexed(order', index', m[key := fin])
  {
    if key in index {
      order', index' := order[index[key] := (key, fin)], index;
    } else {
      order', index' := order + [(key, fin)], index[key := |order|];
    }
  }

  method FindBase(order: seq<(Key, Fin)>, index: map<Key, nat>, ghost m: map<Key, Fin>, key: Key)
    returns (base: Option<Row>, from: Option<Key>)
    requires Indexed(order, index, m)
    ensures (base, from) == BaseOf(m, key)
  {
    if key !in index {
      return None, None;
    }
    match order[index[key]].1
    case Whole(r) => return Some(r), None;
    case Holed(r, f) => return Some(r), f;
    case Gone => return None, None;
  }

  /** The rows of the set phases, each under its key. */
  function RowKeys(ix: seq<nat>, rows: seq<Row>): (ks: seq<Key>)
    requires forall j :: 0 <= j < |rows| ==> Keyed(ix, rows[j])
    ensures |ks| == |rows| && forall j :: 0 <= j < |rows| ==> ks[j] == KeyAt(ix, rows[j])
  {
    seq(|rows|, j requires 0 <= j < |rows| => KeyAt(ix, rows[j]))
  }

  method FoldImages(rows: seq<Row>, keys: seq<Key>)
    returns (order: seq<(Key, Fin)>, index: map<Key, nat>, ghost m: map<Key, Fin>)
    requires |keys| == |rows| && forall i, j :: 0 <= i < j < |keys| ==> keys[i] != keys[j]
    ensures Indexed(order, index, m)
    ensures forall j :: 0 <= j < |keys| ==> keys[j] in m && m[keys[j]] == Whole(rows[j])
    ensures forall k :: k in m ==> k in keys
  {
    order, index, m := [], map[], map[];
    var i := 0;
    while i < |rows|
      invariant 0 <= i <= |rows| && Indexed(order, index, m)
      invariant forall j :: 0 <= j < i ==> keys[j] in m && m[keys[j]] == Whole(rows[j])
      invariant forall k :: k in m ==> k in keys
    {
      order, index := PutFin(order, index, m, keys[i], Whole(rows[i]));
      m := m[keys[i] := Whole(rows[i])];
      i := i + 1;
    }
  }

  lemma ListedHasKey(ix: seq<nat>, rows: seq<Row>, images: Table, k: Key)
    requires Lists(ix, rows, images)
    ensures k in images <==> k in RowKeys(ix, rows)
  {
    if k in images {
      var j :| 0 <= j < |rows| && rows[j] == images[k];
      assert RowKeys(ix, rows)[j] == k;
    }
  }

  lemma ListedFolded(ix: seq<nat>, rows: seq<Row>, images: Table, m: map<Key, Fin>)
    requires Lists(ix, rows, images)
    requires forall j :: 0 <= j < |rows| ==> RowKeys(ix, rows)[j] in m && m[RowKeys(ix, rows)[j]] == Whole(rows[j])
    requires forall k :: k in m ==> k in RowKeys(ix, rows)
    ensures m == Fold(images, [])
  {
    forall k
      ensures k in m <==> k in images
      ensures k in m ==> m[k] == Whole(images[k])
    {
      ListedHasKey(ix, rows, images, k);
    }
  }

  method FoldTail(order0: seq<(Key, Fin)>, index0: map<Key, nat>, ops: seq<Op>, ghost images: Table)
    returns (order: seq<(Key, Fin)>, index: map<Key, nat>)
    requires Indexed(order0, index0, Fold(images, []))
    ensures Indexed(order, index, Fold(images, ops))
  {
    order, index := order0, index0;
    ghost var m := Fold(images, []);
    var i := 0;
    while i < |ops|
      invariant 0 <= i <= |ops| && Indexed(order, index, m)
      invariant m == Fold(images, ops[..i])
    {
      order, index, m := FoldStep(order, index, m, ops[i]);
      assert ops[..i + 1][..i] == ops[..i];
      i := i + 1;
    }
    assert ops[..i] == ops;
  }

  /** A window folded to one entry per key: the entries in first-touch order,
      and the deleted keys that have none. */
  method ResolveWindow(ix: seq<nat>, c: Collapsed, ghost images: Table)
    returns (finals: seq<(Key, Fin)>, deleteOnly: set<Key>)
    requires Landable(ix, c) && Lists(ix, c.upserts, images)
    ensures OneEntryPerKey(finals, Fold(images, c.residue))
    ensures deleteOnly == if c.truncate then {} else c.deletes - Fold(images, c.residue).Keys
  {
    ghost var m;
    var order, index;
    order, index, m := FoldImages(c.upserts, RowKeys(ix, c.upserts));
    ListedFolded(ix, c.upserts, images, m);
    order, index := FoldTail(order, index, c.residue, images);
    IndexedOnce(order, index, Fold(images, c.residue));
    finals := order;
    deleteOnly := if c.truncate then {} else c.deletes - index.Keys;
  }

  /** The entries are the folded keys, each exactly once, with its state. */
  predicate OneEntryPerKey(finals: seq<(Key, Fin)>, m: map<Key, Fin>) {
    && (forall i, j :: 0 <= i < j < |finals| ==> finals[i].0 != finals[j].0)
    && (forall i :: 0 <= i < |finals| ==> finals[i].0 in m && m[finals[i].0] == finals[i].1)
    && (forall k :: k in m ==> exists i :: 0 <= i < |finals| && finals[i].0 == k)
  }

  lemma IndexedOnce(order: seq<(Key, Fin)>, index: map<Key, nat>, m: map<Key, Fin>)
    requires Indexed(order, index, m)
    ensures OneEntryPerKey(order, m)
  {
    forall k | k in m
      ensures exists i :: 0 <= i < |order| && order[i].0 == k
    {
      assert order[index[k]].0 == k;
    }
  }

  method FoldStep(order: seq<(Key, Fin)>, index: map<Key, nat>, ghost m: map<Key, Fin>, op: Op)
    returns (order': seq<(Key, Fin)>, index': map<Key, nat>, ghost m': map<Key, Fin>)
    requires Indexed(order, index, m)
    ensures Indexed(order', index', m') && m' == FoldOp(m, op)
  {
    m' := FoldOp(m, op);
    match op
    case Put(k, r) =>
      order', index' := PutFin(order, index, m, k, Whole(r));
    case Del(k) =>
      order', index' := PutFin(order, index, m, k, Gone);
    case Masked(k, r) =>
      var b, f := FindBase(order, index, m, k);
      order', index' := PutFin(order, index, m, k, Fill(r, b, f));
    case Move(o, n, r) =>
      var b, f := FindBase(order, index, m, o);
      var from := if f.Some? then f.value else o;
      order', index' := PutFin(order, index, m, o, Gone);
      order', index' := PutFin(order', index', m[o := Gone], n, Fill(r, b, Some(from)));
  }

  // ------------------------------------------------------------------
  // Landing: one MERGE of at most one staged row per key.

  /** The staged rows: every folded key, and the deletes that have no entry. */
  function Staged(m: map<Key, Fin>, deleteOnly: set<Key>): map<Key, Fin> {
    map k | k in m.Keys + deleteOnly :: if k in m then m[k] else Gone
  }

  /** The target row a holed image reads: at the key it came from, or, when
      that has no row, at its own key. */
  function HoleBase(t: Table, k: Key, f: Fin): (r: Option<Row>)
    requires f.Holed?
  {
    if f.from.Some? && f.from.value in t then Some(t[f.from.value])
    else if k in t then Some(t[k])
    else None
  }

  predicate Mergeable(s: map<Key, Fin>, t: Table) {
    forall k :: k in s && s[k].Holed? ==> HoleBase(t, k, s[k]).Some?
  }

  predicate Keeps(s: map<Key, Fin>, truncate: bool, t: Table, k: Key) {
    if k in s then !s[k].Gone? else !truncate && k in t
  }

  function MergedRow(s: map<Key, Fin>, t: Table, k: Key): Row
    requires Mergeable(s, t) && (k in s ==> !s[k].Gone?) && (k !in s ==> k in t)
  {
    if k !in s then t[k]
    else if s[k].Whole? then s[k].row
    else Patch(s[k].row, HoleBase(t, k, s[k]).value)
  }

  /** The MERGE: every row is read from the target as it was before it. */
  function Merge(s: map<Key, Fin>, truncate: bool, t: Table): (r: Result<Table>) {
    if !Mergeable(s, t) then Err("masked update for a row missing at the target")
    else Ok(map k | k in t.Keys + s.Keys && Keeps(s, truncate, t, k) :: MergedRow(s, t, k))
  }

  // ------------------------------------------------------------------

  lemma PatchTwice(row: Row, mid: Row, base: Row)
    requires |row| == |mid| == |base|
    ensures Patch(row, Patch(mid, base)) == Patch(Patch(row, mid), base)
    ensures !HasToast(Patch(row, mid)) ==> Patch(row, Patch(mid, base)) == Patch(row, mid)
    ensures !HasToast(mid) ==> !HasToast(Patch(row, mid))
  {
    var p := Patch(row, mid);
    forall i | 0 <= i < |row|
      ensures !HasToast(p) ==> p[i] != UnchangedToast
    {
    }
  }

  /** The folded state of `k` stands for the row the replay has at `k`: a
      holed image's missing cells are the pre-window row's at its origin. */
  predicate StandsFor(n: nat, m: map<Key, Fin>, dels: set<Key>, base: Table, s: Table, k: Key) {
    if k !in m then (k in s <==> k in base && k !in dels) && (k in s ==> s[k] == base[k])
    else match m[k]
      case Gone => k !in s
      case Whole(r) => k in s && s[k] == r && WholeRow(n, r)
      case Holed(r, f) =>
        var o := if f.Some? then f.value else k;
        k in s && o in base && |r| == n && s[k] == Patch(r, base[o])
  }

  lemma FillStands(n: nat, m: map<Key, Fin>, dels: set<Key>, base: Table, s: Table, k: Key, row: Row)
    requires WholeTable(n, base) && k in s && StandsFor(n, m, dels, base, s, k) && |row| == n
    ensures var (b, origin) := BaseOf(m, k);
            var o := if origin.Some? then origin.value else k;
            var f := Fill(row, b, origin);
            && (f.Whole? ==> f.row == Patch(row, s[k]) && WholeRow(n, f.row))
            && (f.Holed? ==> |f.row| == n && o in base && Patch(f.row, base[o]) == Patch(row, s[k]))
  {
    var (b, origin) := BaseOf(m, k);
    var o := if origin.Some? then origin.value else k;
    if k !in m {
      assert !HasToast(row) ==> Patch(row, s[k]) == row;
    } else if m[k].Whole? {
      PatchTwice(row, m[k].row, m[k].row);
    } else {
      PatchTwice(row, m[k].row, base[o]);
    }
  }

  lemma StandsMasked(n: nat, m: map<Key, Fin>, dels: set<Key>, base: Table, s: Table, op: Op, k: Key)
    requires WholeTable(n, base) && LayoutOp(n, op) && op.Masked? && op.key in s
    requires StandsFor(n, m, dels, base, s, k) && StandsFor(n, m, dels, base, s, op.key)
    ensures StandsFor(n, FoldOp(m, op), dels, base, Apply(op, s), k)
  {
    FillStands(n, m, dels, base, s, op.key, op.row);
  }

  lemma StandsMove(n: nat, m: map<Key, Fin>, dels: set<Key>, base: Table, s: Table, op: Op, k: Key)
    requires WholeTable(n, base) && LayoutOp(n, op) && op.Move? && op.from in s
    requires StandsFor(n, m, dels, base, s, k) && StandsFor(n, m, dels, base, s, op.from)
    ensures StandsFor(n, FoldOp(m, op), dels, base, Apply(op, s), k)
  {
    FillStands(n, m, dels, base, s, op.from, op.row);
    var (b, origin) := BaseOf(m, op.from);
    var o := if origin.Some? then origin.value else op.from;
    assert Fill(op.row, b, Some(o)).row == Fill(op.row, b, origin).row;
  }

  lemma StandsWhole(n: nat, m: map<Key, Fin>, dels: set<Key>, base: Table, s: Table, op: Op, k: Key)
    requires LayoutOp(n, op) && !NeedsBase(op) && StandsFor(n, m, dels, base, s, k)
    ensures StandsFor(n, FoldOp(m, op), dels, base, Apply(op, s), k)
  {
  }

  /** After every prefix of the tail the fold stands for the replay. */
  lemma {:induction false} FoldStands(n: nat, images: Table, ops: seq<Op>, dels: set<Key>, base: Table, k: Key)
    requires WholeTable(n, base) && WholeTable(n, images) && OneLayout(n, ops)
    requires AllFind(ops, SetPhase(dels, images, base))
    ensures StandsFor(n, Fold(images, ops), dels, base, RunTail(ops, SetPhase(dels, images, base)), k)
    decreases |ops|
  {
    if ops != [] {
      var p, op := ops[..|ops| - 1], ops[|ops| - 1];
      var m, s := Fold(images, p), RunTail(p, SetPhase(dels, images, base));
      LayoutButlast(n, ops);
      FoldStands(n, images, p, dels, base, k);
      if op.Masked? {
        FoldStands(n, images, p, dels, base, op.key);
        StandsMasked(n, m, dels, base, s, op, k);
      } else if op.Move? {
        FoldStands(n, images, p, dels, base, op.from);
        StandsMove(n, m, dels, base, s, op, k);
      } else {
        StandsWhole(n, m, dels, base, s, op, k);
      }
    }
  }

  lemma LayoutButlast(n: nat, ops: seq<Op>)
    requires ops != [] && OneLayout(n, ops)
    ensures OneLayout(n, ops[..|ops| - 1]) && LayoutOp(n, ops[|ops| - 1])
  {
    var p := ops[..|ops| - 1];
    assert forall i :: 0 <= i < |p| ==> p[i] == ops[i];
  }

  /** What a window stages: its fold, and the deletes with no entry. */
  function StagedOf(c: Collapsed, images: Table): map<Key, Fin> {
    var m := Fold(images, c.residue);
    Staged(m, if c.truncate then {} else c.deletes - m.Keys)
  }

  lemma StagedAt(c: Collapsed, images: Table, k: Key)
    ensures var m := Fold(images, c.residue);
            && (k in m ==> k in StagedOf(c, images) && StagedOf(c, images)[k] == m[k])
            && (k !in m ==> (k in StagedOf(c, images) <==> !c.truncate && k in c.deletes))
            && (k !in m && k in StagedOf(c, images) ==> StagedOf(c, images)[k].Gone?)
  {
  }

  /** The source rows are whole, one layout, and every tail change found its
      row: what the source had when it logged the window. */
  predicate SourceWindow(n: nat, c: Collapsed, images: Table, t: Table) {
    var base := if c.truncate then map[] else t;
    && WholeTable(n, t) && WholeTable(n, images) && OneLayout(n, c.residue)
    && AllFind(c.residue, SetPhase(c.deletes, images, base))
  }

  /** The table the set phases and the tail leave. */
  function Landed(c: Collapsed, images: Table, t: Table): Table {
    RunTail(c.residue, SetPhase(c.deletes, images, if c.truncate then map[] else t))
  }

  lemma MergeAt(n: nat, c: Collapsed, images: Table, t: Table, k: Key)
    requires SourceWindow(n, c, images, t)
    ensures var s, r := StagedOf(c, images), Landed(c, images, t);
            && (k in s && s[k].Holed? ==>
                  HoleBase(t, k, s[k]).Some? && k in r && r[k] == Patch(s[k].row, HoleBase(t, k, s[k]).value))
            && (k in s && s[k].Whole? ==> k in r && r[k] == s[k].row)
            && (k in r <==> Keeps(s, c.truncate, t, k))
            && (k !in s && k in r ==> k in t && r[k] == t[k])
  {
    var base := if c.truncate then map[] else t;
    FoldStands(n, images, c.residue, c.deletes, base, k);
    StagedAt(c, images, k);
  }

  /** One MERGE of the folded window, every hole read from the target as it
      was, leaves the table the ordered replay leaves. */
  lemma MergeIsReplay(n: nat, c: Collapsed, images: Table, t: Table)
    requires SourceWindow(n, c, images, t)
    ensures Merge(StagedOf(c, images), c.truncate, t) == Ok(Landed(c, images, t))
  {
    var s, r := StagedOf(c, images), Landed(c, images, t);
    forall k
      ensures k in s && s[k].Holed? ==> HoleBase(t, k, s[k]).Some?
    {
      MergeAt(n, c, images, t, k);
    }
    assert Mergeable(s, t);
    var got := Merge(s, c.truncate, t).value;
    forall k
      ensures k in got <==> k in r
      ensures k in r ==> got[k] == r[k]
    {
      MergeAt(n, c, images, t, k);
    }
    assert got == r;
  }

  /** A key a holed row left, which holds a row again at the window's end, and
      whose out-of-line values are not the ones the moved row carried away. */
  predicate FreedKeyReused(s: map<Key, Fin>, r: Table, k: Key) {
    && k in s && k in r && s[k].Holed? && s[k].from.Some? && s[k].from.value in r
    && exists i :: 0 <= i < |s[k].row| && i < |r[s[k].from.value]| && i < |r[k]|
                   && s[k].row[i] == UnchangedToast && r[s[k].from.value][i] != r[k][i]
  }

  lemma PatchSame(row: Row, b: Row, a: Row)
    requires |row| == |b| == |a|
    ensures Patch(row, a) == Patch(row, b)
            <==> !exists i :: 0 <= i < |row| && row[i] == UnchangedToast && a[i] != Patch(row, b)[i]
    ensures Patch(row, Patch(row, b)) == Patch(row, b)
  {
    if Patch(row, a) == Patch(row, b) {
      forall i | 0 <= i < |row| && row[i] == UnchangedToast
        ensures a[i] == Patch(row, b)[i]
      {
        assert Patch(row, a)[i] == a[i];
      }
    }
  }

  lemma LandedWhole(n: nat, c: Collapsed, images: Table, t: Table, k: Key)
    requires SourceWindow(n, c, images, t)
    ensures k in Landed(c, images, t) ==> |Landed(c, images, t)[k]| == n
    ensures k in StagedOf(c, images) && StagedOf(c, images)[k].Holed? ==>
              |StagedOf(c, images)[k].row| == n && HoleBase(t, k, StagedOf(c, images)[k]).Some?
              && |HoleBase(t, k, StagedOf(c, images)[k]).value| == n
  {
    var base := if c.truncate then map[] else t;
    FoldStands(n, images, c.residue, c.deletes, base, k);
    StagedAt(c, images, k);
  }

  lemma MergeAgainAt(n: nat, c: Collapsed, images: Table, t: Table, k: Key)
    requires SourceWindow(n, c, images, t)
    ensures var s, r := StagedOf(c, images), Landed(c, images, t);
            k in s && s[k].Holed? ==>
              && k in r && HoleBase(r, k, s[k]).Some?
              && (Patch(s[k].row, HoleBase(r, k, s[k]).value) == r[k] <==> !FreedKeyReused(s, r, k))
  {
    var s, r := StagedOf(c, images), Landed(c, images, t);
    if k in s && s[k].Holed? {
      MergeAt(n, c, images, t, k);
      LandedWhole(n, c, images, t, k);
      var hole := HoleBase(t, k, s[k]).value;
      if s[k].from.Some? && s[k].from.value in r {
        LandedWhole(n, c, images, t, s[k].from.value);
        PatchSame(s[k].row, hole, r[s[k].from.value]);
      } else {
        PatchSame(s[k].row, hole, hole);
      }
    }
  }

  /** A window merged again over its own result, as a member of a group whose
      sibling failed meets it, is never refused; it leaves the table as it is
      exactly when no key a holed row left holds other out-of-line values. */
  lemma MergeAgain(n: nat, c: Collapsed, images: Table, t: Table)
    requires SourceWindow(n, c, images, t)
    ensures var s, r := StagedOf(c, images), Landed(c, images, t);
            && Merge(s, c.truncate, r).Ok?
            && (Merge(s, c.truncate, r).value == r <==> forall k :: k in s ==> !FreedKeyReused(s, r, k))
  {
    var s, r := StagedOf(c, images), Landed(c, images, t);
    forall k
      ensures k in s && s[k].Holed? ==> HoleBase(r, k, s[k]).Some?
    {
      MergeAgainAt(n, c, images, t, k);
    }
    assert Mergeable(s, r);
    var got := Merge(s, c.truncate, r).value;
    forall k
      ensures k in got <==> k in r
      ensures k in r && (k in s ==> !FreedKeyReused(s, r, k)) ==> got[k] == r[k]
      ensures k in s && FreedKeyReused(s, r, k) ==> k in got && got[k] != r[k]
    {
      MergeAt(n, c, images, t, k);
      MergeAgainAt(n, c, images, t, k);
    }
    if forall k :: k in s ==> !FreedKeyReused(s, r, k) {
      assert got == r;
    }
  }

  /** A window the source could log is one the MERGE can read its holes for. */
  lemma SourceWindowOf(ix: seq<nat>, n: nat, evs: seq<Event>, c: Collapsed, t: Table)
    requires AllReadable(ix, evs) && NetOf(ix, evs, c) && OldImagesHold(ix, evs, t)
    requires Legal(ix, n, evs, t) && WholeTable(n, t)
    ensures SourceWindow(n, c, ViewOf(Log(ix, evs)).images, t)
  {
    CollapsedIsLawful(ix, n, evs, c, t);
    LawfulFinds(c.residue, SetPhase(c.deletes, ViewOf(Log(ix, evs)).images, Start(evs, t)));
    forall i | 0 <= i < |c.residue|
      ensures LayoutOp(n, c.residue[i])
    {
      assert OpOk(ix, n, c.residue[i]);
    }
  }

  lemma LandedIsReplay(ix: seq<nat>, evs: seq<Event>, c: Collapsed, t: Table)
    requires AllReadable(ix, evs) && NetOf(ix, evs, c) && OldImagesHold(ix, evs, t)
    ensures Landed(c, ViewOf(Log(ix, evs)).images, t) == Replay(ix, evs, t)
  {
    var v := ViewOf(Log(ix, evs));
    CollapsedIsReplay(ix, evs, c, t);
    InsertRowsLists(ix, c.upserts, v.images, v.dels, if c.truncate then map[] else t);
  }

  /** From the change stream to the MERGE: whatever window the source logged,
      over the table it logged it for, one MERGE leaves its replay. */
  lemma MergeIsSourceReplay(ix: seq<nat>, n: nat, evs: seq<Event>, c: Collapsed, t: Table)
    requires AllReadable(ix, evs) && NetOf(ix, evs, c) && OldImagesHold(ix, evs, t)
    requires Legal(ix, n, evs, t) && WholeTable(n, t)
    ensures Merge(StagedOf(c, ViewOf(Log(ix, evs)).images), c.truncate, t) == Ok(Replay(ix, evs, t))
  {
    SourceWindowOf(ix, n, evs, c, t);
    MergeIsReplay(n, c, ViewOf(Log(ix, evs)).images, t);
    LandedIsReplay(ix, evs, c, t);
  }

  /** The same window merged again over the source's table after it. */
  lemma SourceMergeAgain(ix: seq<nat>, n: nat, evs: seq<Event>, c: Collapsed, t: Table)
    requires AllReadable(ix, evs) && NetOf(ix, evs, c) && OldImagesHold(ix, evs, t)
    requires Legal(ix, n, evs, t) && WholeTable(n, t)
    ensures var s, r := StagedOf(c, ViewOf(Log(ix, evs)).images), Replay(ix, evs, t);
            && Merge(s, c.truncate, r).Ok?
            && (Merge(s, c.truncate, r).value == r <==> forall k :: k in s ==> !FreedKeyReused(s, r, k))
  {
    SourceWindowOf(ix, n, evs, c, t);
    MergeAgain(n, c, ViewOf(Log(ix, evs)).images, t);
    LandedIsReplay(ix, evs, c, t);
  }

  /** The input: row 1 moves to 9 with its body out of line, and a new row 1 is
      inserted. */
  function ReuseWindow(): Collapsed {
    var move, put := Move(["1"], ["9"], [Text("9"), UnchangedToast]), Put(["1"], [Text("1"), Text("B")]);
    Collapsed({}, [], [move, put], [1, 1], false, 2)
  }

  function RowA(): Row {
    [Text("1"), Text("A")]
  }

  function RowB(): Row {
    [Text("1"), Text("B")]
  }

  lemma ReuseFold()
    ensures Fold(map[], ReuseWindow().residue)
            == map[["1"] := Whole(RowB()), ["9"] := Holed([Text("9"), UnchangedToast], Some(["1"]))]
  {
    var ops := ReuseWindow().residue;
    var one := ops[..1];
    assert one[..0] == [] && ops[..|ops| - 1] == one && one[|one| - 1] == ops[0];
    assert Fold(map[], []) == map[];
    assert Fold(map[], one) == FoldOp(map[], ops[0]);
    assert HasToast([Text("9"), UnchangedToast]);
  }

  lemma ReuseLands()
    ensures var c, t := ReuseWindow(), map[["1"] := RowA()];
            && SourceWindow(2, c, map[], t)
            && Landed(c, map[], t) == map[["9"] := [Text("9"), Text("A")], ["1"] := RowB()]
  {
    var c, t := ReuseWindow(), map[["1"] := RowA()];
    var ops := c.residue;
    var one := ops[..1];
    assert one[..0] == [] && ops[..|ops| - 1] == one && one[|one| - 1] == ops[0];
    assert SetPhase({}, map[], t) == t;
    assert Patch([Text("9"), UnchangedToast], RowA()) == [Text("9"), Text("A")];
    assert RunTail([], t) == t && RunTail(one, t) == map[["9"] := [Text("9"), Text("A")]];
    assert AllFind([], t) && AllFind(one, t) && AllFind(ops, t);
  }

  /** Merged again over its own result, row 9 takes the new row's body. */
  lemma ReusedKeyCorrupts()
    ensures var c, t := ReuseWindow(), map[["1"] := RowA()];
            var s, r := StagedOf(c, map[]), Landed(c, map[], t);
            && SourceWindow(2, c, map[], t) && ["9"] in r && r[["9"]] == [Text("9"), Text("A")]
            && Merge(s, c.truncate, r).Ok? && ["9"] in Merge(s, c.truncate, r).value
            && Merge(s, c.truncate, r).value[["9"]] == [Text("9"), Text("B")]
  {
    var c, t := ReuseWindow(), map[["1"] := RowA()];
    ReuseFold();
    ReuseLands();
    StagedAt(c, map[], ["9"]);
    MergeAgain(2, c, map[], t);
    assert Patch([Text("9"), UnchangedToast], RowB()) == [Text("9"), Text("B")];
  }
}
