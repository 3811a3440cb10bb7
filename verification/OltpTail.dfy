// The ordered tail on a transactional store: masked updates and moves as
// UPDATE statements, what their zero-row answers mean, and a window met again.
module OltpTail {
  import opened Rows
  import opened Tail
  import opened Collapse
  import opened SourceLaw
  import J = Journal

  /** The key a masked update or a move has to leave a row at. */
  function Wanted(op: Op): (k: Key)
    requires NeedsBase(op)
  {
    if op.Masked? then op.key else op.to
  }

  /** The change takes the row away from `k`. */
  predicate TakesFrom(op: Op, k: Key) {
    (op.Del? && op.key == k) || (op.Move? && op.from == k)
  }

  /** A later change of the window takes the row away from where change `i`
      has to leave it. */
  predicate Moot(ops: seq<Op>, i: nat)
    requires i < |ops|
  {
    NeedsBase(ops[i]) && exists j :: i < j < |ops| && TakesFrom(ops[j], Wanted(ops[i]))
  }

  /** One backward pass over the tail. */
  method DeletedLater(ops: seq<Op>) returns (out: seq<bool>)
    ensures |out| == |ops|
    ensures forall i :: 0 <= i < |ops| ==> (out[i] <==> Moot(ops, i))
  {
    out := [];
    var gone: set<Key> := {};
    var i := |ops|;
    while i > 0
      invariant 0 <= i <= |ops| && |out| == |ops| - i
      invariant forall k :: k in gone <==> exists j :: i <= j < |ops| && TakesFrom(ops[j], k)
      invariant forall j :: i <= j < |ops| ==> (out[j - i] <==> Moot(ops, j))
    {
      i := i - 1;
      var op := ops[i];
      out := [NeedsBase(op) && Wanted(op) in gone] + out;
      if op.Del? {
        gone := gone + {op.key};
      } else if op.Move? {
        gone := gone + {op.from};
      }
    }
  }

  /** Whether a masked update names any column to set. */
  predicate Settable(ix: seq<nat>, row: Row) {
    exists j :: 0 <= j < |row| && j !in ix && row[j] != UnchangedToast
  }

  /** One statement of the tail and what its row count means. */
  function StepChecked(ix: seq<nat>, ops: seq<Op>, i: nat, t: Table): Result<Table>
    requires i < |ops|
  {
    match ops[i]
    case Put(k, r) => Ok(t[k := r])
    case Del(k) => Ok(t - {k})
    case Masked(k, r) =>
      if !Settable(ix, r) then Ok(t)
      else if k in t then Ok(t[k := Patch(r, t[k])])
      else if Moot(ops, i) then Ok(t)
      else Err("the masked update found no row")
    case Move(o, n, r) =>
      if o in t then (if n in t && n != o then Err("duplicate key") else Ok((t - {o})[n := Patch(r, t[o])]))
      else if Moot(ops, i) || n in t then Ok(t)
      else Err("the move found no row")
  }

  function RunChecked(ix: seq<nat>, ops: seq<Op>, n: nat, t: Table): Result<Table>
    requires n <= |ops|
  {
    if n == 0 then Ok(t)
    else
      var r := RunChecked(ix, ops, n - 1, t);
      if r.Err? then r else StepChecked(ix, ops, n - 1, r.value)
  }

  // ------------------------------------------------------------------
  // A first run: every change found its row at the source.

  function After(ops: seq<Op>, i: nat, t: Table): Table
    requires i <= |ops|
  {
    RunTail(ops[..i], t)
  }

  lemma AfterNext(ops: seq<Op>, i: nat, t: Table)
    requires i < |ops|
    ensures After(ops, i + 1, t) == Apply(ops[i], After(ops, i, t))
  {
    assert ops[..i + 1][..i] == ops[..i];
  }

  predicate SourceTail(ix: seq<nat>, w: nat, ops: seq<Op>, t: Table) {
    && KeyedTable(ix, w, t)
    && (forall i :: 0 <= i < |ops| ==> KeyedOp(ix, w, ops[i]))
    && (forall i :: 0 <= i < |ops| ==> Lawful(ops[i], After(ops, i, t)))
  }

  lemma KeyedStep(ix: seq<nat>, w: nat, op: Op, t: Table)
    requires KeyedTable(ix, w, t) && KeyedOp(ix, w, op)
    ensures KeyedTable(ix, w, Apply(op, t))
  {
    if op.Masked? && op.key in t {
      PatchKeepsKey(ix, op.row, t[op.key]);
    } else if op.Move? && op.from in t {
      PatchKeepsKey(ix, op.row, t[op.from]);
    }
  }

  /** A masked image that sets nothing leaves its row as it is. */
  lemma NothingSet(ix: seq<nat>, w: nat, t: Table, k: Key, row: Row)
    requires KeyedTable(ix, w, t) && k in t && |row| == w && Keyed(ix, row) && KeyAt(ix, row) == k && !Settable(ix, row)
    ensures Patch(row, t[k]) == t[k]
  {
    forall j | 0 <= j < w
      ensures Patch(row, t[k])[j] == t[k][j]
    {
      if j in ix {
        var m :| 0 <= m < |ix| && ix[m] == j;
        assert KeyAt(ix, row)[m] == KeyAt(ix, t[k])[m];
      }
    }
  }

  lemma {:induction false} FirstRunKeyed(ix: seq<nat>, w: nat, ops: seq<Op>, n: nat, t: Table)
    requires SourceTail(ix, w, ops, t) && n <= |ops|
    ensures KeyedTable(ix, w, After(ops, n, t))
  {
    if n > 0 {
      FirstRunKeyed(ix, w, ops, n - 1, t);
      AfterNext(ops, n - 1, t);
      KeyedStep(ix, w, ops[n - 1], After(ops, n - 1, t));
    }
  }

  /** The statements land what the replay lands, and none is refused. */
  lemma {:induction false} FirstRunIsReplay(ix: seq<nat>, w: nat, ops: seq<Op>, n: nat, t: Table)
    requires SourceTail(ix, w, ops, t) && n <= |ops|
    ensures RunChecked(ix, ops, n, t) == Ok(After(ops, n, t))
  {
    if n > 0 {
      FirstRunIsReplay(ix, w, ops, n - 1, t);
      FirstRunKeyed(ix, w, ops, n - 1, t);
      AfterNext(ops, n - 1, t);
      var u, op := After(ops, n - 1, t), ops[n - 1];
      assert Lawful(op, u) && KeyedOp(ix, w, op);
      LawfulStep(ix, w, ops, n - 1, u);
    }
  }

  /** A lawful change passes its checks. */
  lemma LawfulStep(ix: seq<nat>, w: nat, ops: seq<Op>, i: nat, u: Table)
    requires i < |ops| && Lawful(ops[i], u) && KeyedOp(ix, w, ops[i]) && KeyedTable(ix, w, u)
    ensures StepChecked(ix, ops, i, u) == Ok(Apply(ops[i], u))
  {
    var op := ops[i];
    if op.Masked? && !Settable(ix, op.row) {
      NothingSet(ix, w, u, op.key, op.row);
      assert u[op.key := u[op.key]] == u;
    }
  }

  lemma {:induction false} LawfulAlong(ops: seq<Op>, t: Table, i: nat)
    requires TailLawful(ops, t) && i < |ops|
    ensures Lawful(ops[i], After(ops, i, t))
  {
    if i < |ops| - 1 {
      var p := ops[..|ops| - 1];
      LawfulAlong(p, t, i);
      assert p[..i] == ops[..i];
    }
  }

  lemma SourceTailOf(ix: seq<nat>, n: nat, evs: seq<Event>, c: Collapsed, t: Table)
    requires AllReadable(ix, evs) && NetOf(ix, evs, c) && OldImagesHold(ix, evs, t)
    requires Legal(ix, n, evs, t) && SourceTable(ix, n, t)
    ensures SourceTail(ix, n, c.residue, SetPhase(c.deletes, ViewOf(Log(ix, evs)).images, Start(evs, t)))
  {
    var images, base := ViewOf(Log(ix, evs)).images, Start(evs, t);
    CollapsedIsLawful(ix, n, evs, c, t);
    SetPhaseKeyed(ix, n, c.deletes, images, base);
    forall i | 0 <= i < |c.residue|
      ensures KeyedOp(ix, n, c.residue[i])
      ensures Lawful(c.residue[i], After(c.residue, i, SetPhase(c.deletes, images, base)))
    {
      assert OpOk(ix, n, c.residue[i]);
      LawfulAlong(c.residue, SetPhase(c.deletes, images, base), i);
    }
  }

  lemma ResultIsReplay(ix: seq<nat>, evs: seq<Event>, c: Collapsed, t: Table)
    requires AllReadable(ix, evs) && NetOf(ix, evs, c) && OldImagesHold(ix, evs, t)
    ensures After(c.residue, |c.residue|, SetPhase(c.deletes, ViewOf(Log(ix, evs)).images, Start(evs, t)))
            == Replay(ix, evs, t)
  {
    var l, base := Log(ix, evs), Start(evs, t);
    assert c.residue[..|c.residue|] == c.residue;
    RunTailIsApplyAll(Residue(l), SetPhase(DelKeys(Head(l)), Images(Head(l)), base));
    SetPhaseIsReplay(Head(l), base);
    SplitIsReplay(l, base);
    LogIsReplay(ix, evs, t);
  }

  /** From the change stream to the statements: whatever window the source
      logged, over the table it logged it for, the set phases and the tail's
      statements are never refused and leave its replay. */
  lemma WindowIsReplay(ix: seq<nat>, n: nat, evs: seq<Event>, c: Collapsed, t: Table)
    requires AllReadable(ix, evs) && NetOf(ix, evs, c) && OldImagesHold(ix, evs, t)
    requires Legal(ix, n, evs, t) && SourceTable(ix, n, t)
    ensures RunChecked(ix, c.residue, |c.residue|, SetPhase(c.deletes, ViewOf(Log(ix, evs)).images, Start(evs, t)))
            == Ok(Replay(ix, evs, t))
  {
    SourceTailOf(ix, n, evs, c, t);
    FirstRunIsReplay(ix, n, c.residue, |c.residue|, SetPhase(c.deletes, ViewOf(Log(ix, evs)).images, Start(evs, t)));
    ResultIsReplay(ix, evs, c, t);
  }

  lemma {:induction false} ErrStays(ix: seq<nat>, ops: seq<Op>, m: nat, n: nat, t: Table)
    requires m <= n <= |ops| && RunChecked(ix, ops, m, t).Err?
    ensures RunChecked(ix, ops, n, t).Err?
  {
    if m < n {
      ErrStays(ix, ops, m, n - 1, t);
    }
  }

  /** A statement that must find a row and does not, with nothing later in the
      window to excuse it; or a move onto a key that is taken. A masked update
      with no column to set is not a statement at all. */
  predicate StepRefused(ix: seq<nat>, ops: seq<Op>, i: nat, t: Table)
    requires i < |ops|
  {
    || (ops[i].Masked? && Settable(ix, ops[i].row) && ops[i].key !in t && !Moot(ops, i))
    || (ops[i].Move? && ops[i].from !in t && ops[i].to !in t && !Moot(ops, i))
    || (ops[i].Move? && ops[i].from in t && ops[i].to in t && ops[i].from != ops[i].to)
  }

  /** The tail is refused if and only if some statement is, over what those
      before it left. */
  lemma {:induction false} RefusedExactly(ix: seq<nat>, ops: seq<Op>, n: nat, t: Table)
    requires n <= |ops|
    ensures RunChecked(ix, ops, n, t).Err? <==>
            exists i ::
              && 0 <= i < n && RunChecked(ix, ops, i, t).Ok?
              && StepRefused(ix, ops, i, RunChecked(ix, ops, i, t).value)
  {
    if n > 0 {
      RefusedExactly(ix, ops, n - 1, t);
      var before := RunChecked(ix, ops, n - 1, t);
      if before.Ok? {
        assert StepChecked(ix, ops, n - 1, before.value).Err? <==> StepRefused(ix, ops, n - 1, before.value);
      }
    }
  }

  /** A masked update that has a column to set, meets no row, and whose key the
      window neither deletes nor moves away, refuses the window. */
  lemma MissingRowRefused(ix: seq<nat>, ops: seq<Op>, i: nat, t: Table)
    requires i < |ops| && ops[i].Masked? && Settable(ix, ops[i].row)
    requires RunChecked(ix, ops, i, t).Ok? ==> ops[i].key !in RunChecked(ix, ops, i, t).value
    requires forall j :: i < j < |ops| ==> !TakesFrom(ops[j], ops[i].key)
    ensures RunChecked(ix, ops, |ops|, t).Err?
  {
    assert RunChecked(ix, ops, i + 1, t).Err?;
    ErrStays(ix, ops, i + 1, |ops|, t);
  }

  // ------------------------------------------------------------------
  // A window met again over its own result.

  /** The rows that moved came from before the window, no key a row left is
      written again, and no move lands on a key the window had freed. */
  predicate MoveReappliable(dels: set<Key>, images: Table, ops: seq<Op>, i: nat)
    requires i < |ops| && ops[i].Move?
  {
    && ops[i].from !in images
    && (forall j :: 0 <= j < |ops| && ops[j].Put? ==> ops[j].key != ops[i].from)
    && (forall j :: i < j < |ops| && ops[j].Move? ==> ops[j].to != ops[i].from)
    && ops[i].to !in dels
    && (forall j :: 0 <= j < i && ops[j].Del? ==> ops[j].key != ops[i].to)
  }

  predicate Reappliable(dels: set<Key>, images: Table, ops: seq<Op>) {
    forall i :: 0 <= i < |ops| && ops[i].Move? ==> MoveReappliable(dels, images, ops, i)
  }

  /** The tail with its moves passed over. */
  function Still(ops: seq<Op>, i: nat, t: Table): Table
    requires i <= |ops|
  {
    if i == 0 then t
    else if ops[i - 1].Move? then Still(ops, i - 1, t)
    else Apply(ops[i - 1], Still(ops, i - 1, t))
  }

  predicate Leaves(ops: seq<Op>, n: nat, k: Key)
    requires n <= |ops|
  {
    exists j :: 0 <= j < n && ops[j].Move? && ops[j].from == k
  }

  predicate DelIn(ops: seq<Op>, lo: nat, hi: nat, k: Key)
    requires hi <= |ops|
  {
    exists j :: lo <= j < hi && ops[j].Del? && ops[j].key == k
  }

  /** A key a row left stays empty, the first time and again. */
  lemma {:induction false} LeftIsEmpty(dels: set<Key>, images: Table, ops: seq<Op>, i: nat, t: Table, k: Key)
    requires Reappliable(dels, images, ops) && i <= |ops| && Leaves(ops, i, k)
    requires forall j :: 0 <= j < |ops| && ops[j].Move? ==> ops[j].from != ops[j].to
    ensures k !in After(ops, i, t)
  {
    AfterNext(ops, i - 1, t);
    var op := ops[i - 1];
    if Leaves(ops, i - 1, k) {
      LeftIsEmpty(dels, images, ops, i - 1, t, k);
      var j :| 0 <= j < i - 1 && ops[j].Move? && ops[j].from == k;
      assert MoveReappliable(dels, images, ops, j);
    } else {
      assert op.Move? && op.from == k;
    }
  }

  lemma {:induction false} LeftStaysEmpty(dels: set<Key>, images: Table, ops: seq<Op>, i: nat, t: Table, k: Key)
    requires Reappliable(dels, images, ops) && i <= |ops| && Leaves(ops, |ops|, k) && k !in t
    ensures k !in Still(ops, i, t)
  {
    if i > 0 {
      LeftStaysEmpty(dels, images, ops, i - 1, t, k);
      var j :| 0 <= j < |ops| && ops[j].Move? && ops[j].from == k;
      assert MoveReappliable(dels, images, ops, j);
    }
  }

  /** A row nothing takes stays. */
  lemma {:induction false} StaysAfter(ops: seq<Op>, i: nat, n: nat, t: Table, k: Key)
    requires i <= n <= |ops| && k in After(ops, i, t) && !Leaves(ops, |ops|, k) && !DelIn(ops, i, n, k)
    ensures k in After(ops, n, t)
  {
    if i < n {
      StaysAfter(ops, i, n - 1, t, k);
      AfterNext(ops, n - 1, t);
      assert ops[n - 1].Move? ==> ops[n - 1].from != k;
    }
  }

  lemma {:induction false} StaysStill(ops: seq<Op>, i: nat, t: Table, k: Key)
    requires i <= |ops| && k in t && !DelIn(ops, 0, i, k)
    ensures k in Still(ops, i, t)
  {
    if i > 0 {
      StaysStill(ops, i - 1, t, k);
    }
  }

  // ------------------------------------------------------------------
  // One key's row, through its masked updates alone.

  function Masks(ops: seq<Op>, i: nat, k: Key, row: Row): Row
    requires i <= |ops|
  {
    if i == 0 then row
    else
      var r := Masks(ops, i - 1, k, row);
      if ops[i - 1].Masked? && ops[i - 1].key == k then Patch(ops[i - 1].row, r) else r
  }

  /** The last value a masked update gave a column, if any did. */
  function LastSet(ops: seq<Op>, i: nat, k: Key, c: nat): Option<Cell>
    requires i <= |ops|
  {
    if i == 0 then None
    else if ops[i - 1].Masked? && ops[i - 1].key == k && c < |ops[i - 1].row| && ops[i - 1].row[c] != UnchangedToast
    then Some(ops[i - 1].row[c])
    else LastSet(ops, i - 1, k, c)
  }

  predicate Width(ops: seq<Op>, w: nat) {
    forall i :: 0 <= i < |ops| && ops[i].Masked? ==> |ops[i].row| == w
  }

  lemma {:induction false} MasksAt(ops: seq<Op>, w: nat, i: nat, k: Key, row: Row, c: nat)
    requires i <= |ops| && Width(ops, w) && |row| == w && c < w
    ensures |Masks(ops, i, k, row)| == w
    ensures Masks(ops, i, k, row)[c] == match LastSet(ops, i, k, c) case Some(v) => v case None => row[c]
  {
    if i > 0 {
      MasksAt(ops, w, i - 1, k, row, c);
    }
  }

  lemma {:induction false} MasksWidth(ops: seq<Op>, w: nat, i: nat, k: Key, row: Row)
    requires i <= |ops| && Width(ops, w) && |row| == w
    ensures |Masks(ops, i, k, row)| == w
  {
    if i > 0 {
      MasksWidth(ops, w, i - 1, k, row);
    }
  }

  /** The same masked updates over their own result change nothing. */
  lemma MasksTwice(ops: seq<Op>, w: nat, i: nat, k: Key, row: Row)
    requires i <= |ops| && Width(ops, w) && |row| == w
    ensures Masks(ops, i, k, Masks(ops, i, k, row)) == Masks(ops, i, k, row)
  {
    var m := Masks(ops, i, k, row);
    MasksWidth(ops, w, i, k, row);
    MasksWidth(ops, w, i, k, m);
    forall c | 0 <= c < w
      ensures Masks(ops, i, k, m)[c] == m[c]
    {
      MasksAt(ops, w, i, k, row, c);
      MasksAt(ops, w, i, k, m, c);
    }
  }

  // ------------------------------------------------------------------

  /** A window as it first landed: set phases over `t`, then the tail. */
  datatype Landing = Landing(dels: set<Key>, images: Table, ops: seq<Op>, t: Table)
  {
    function Base(): Table {
      SetPhase(dels, images, t)
    }

    function Result(): Table {
      After(ops, |ops|, Base())
    }

    /** The set phases over the window's own result. */
    function Again(): Table {
      SetPhase(dels, images, Result())
    }
  }

  predicate LandedOnce(ix: seq<nat>, w: nat, l: Landing) {
    && KeyedTable(ix, w, l.t) && KeyedTable(ix, w, l.images)
    && SourceTail(ix, w, l.ops, l.Base()) && Reappliable(l.dels, l.images, l.ops)
  }

  /** So far the window has neither written `k` whole nor deleted it. */
  predicate Quiet(l: Landing, i: nat, k: Key)
    requires i <= |l.ops|
  {
    && k !in l.dels && k !in l.images
    && forall j :: 0 <= j < i ==> !((l.ops[j].Put? || l.ops[j].Del?) && l.ops[j].key == k)
  }

  /** A move lands only on a quiet key. */
  lemma ArrivesQuiet(ix: seq<nat>, w: nat, l: Landing, i: nat)
    requires LandedOnce(ix, w, l) && i < |l.ops| && l.ops[i].Move? && !Leaves(l.ops, |l.ops|, l.ops[i].to)
    ensures Quiet(l, i, l.ops[i].to)
  {
    var k := l.ops[i].to;
    assert MoveReappliable(l.dels, l.images, l.ops, i);
    assert Lawful(l.ops[i], After(l.ops, i, l.Base()));
    assert !DelIn(l.ops, 0, i, k);
    if k in l.images {
      assert k in After(l.ops, 0, l.Base());
      StaysAfter(l.ops, 0, i, l.Base(), k);
    }
    forall j | 0 <= j < i
      ensures !(l.ops[j].Put? && l.ops[j].key == k)
    {
      if l.ops[j].Put? && l.ops[j].key == k {
        AfterNext(l.ops, j, l.Base());
        StaysAfter(l.ops, j + 1, i, l.Base(), k);
      }
    }
  }

  lemma WidthOf(ix: seq<nat>, w: nat, l: Landing)
    requires LandedOnce(ix, w, l)
    ensures Width(l.ops, w)
  {
    forall i | 0 <= i < |l.ops| && l.ops[i].Masked?
      ensures |l.ops[i].row| == w
    {
      assert KeyedOp(ix, w, l.ops[i]);
    }
  }

  /** A quiet key's row is some row through the masked updates so far; before
      it has a row there are none. */
  lemma {:induction false} QuietRow(ix: seq<nat>, w: nat, l: Landing, i: nat, k: Key)
    requires LandedOnce(ix, w, l) && i <= |l.ops| && Quiet(l, i, k) && !Leaves(l.ops, |l.ops|, k)
    ensures var f := After(l.ops, i, l.Base());
            && (k in f ==> exists x :: |x| == w && f[k] == Masks(l.ops, i, k, x))
            && (k !in f ==> forall x :: Masks(l.ops, i, k, x) == x)
  {
    if i == 0 {
      var f := After(l.ops, 0, l.Base());
      if k in f {
        assert |f[k]| == w && f[k] == Masks(l.ops, 0, k, f[k]);
      }
    } else {
      var op, f := l.ops[i - 1], After(l.ops, i - 1, l.Base());
      QuietRow(ix, w, l, i - 1, k);
      AfterNext(l.ops, i - 1, l.Base());
      assert Lawful(op, f) && KeyedOp(ix, w, op);
      assert op.Move? ==> op.from != k;
      if op.Masked? && op.key == k {
        var x :| |x| == w && f[k] == Masks(l.ops, i - 1, k, x);
        assert Apply(op, f)[k] == Masks(l.ops, i, k, x);
      } else if op.Move? && op.to == k {
        var x := Apply(op, f)[k];
        assert x == Masks(l.ops, i, k, x);
      } else if k in f {
        var x :| |x| == w && f[k] == Masks(l.ops, i - 1, k, x);
        assert Apply(op, f)[k] == Masks(l.ops, i, k, x);
      }
    }
  }

  /** What the second pass has at `k`: a quiet key is the result through the
      masked updates so far, any other is what the first pass had there. */
  ghost predicate Follows(l: Landing, i: nat, k: Key)
    requires i <= |l.ops|
  {
    var s, f, r := Still(l.ops, i, l.Again()), After(l.ops, i, l.Base()), l.Result();
    if Quiet(l, i, k) then (k in s <==> k in r) && (k in r ==> s[k] == Masks(l.ops, i, k, r[k]))
    else J.Same(s, f, k)
  }

  lemma SecondStart(l: Landing, k: Key)
    ensures Follows(l, 0, k)
  {
    assert l.ops[..0] == [];
  }

  lemma QuietNext(l: Landing, i: nat, k: Key)
    requires i < |l.ops|
    ensures Quiet(l, i + 1, k) <==> Quiet(l, i, k) && !((l.ops[i].Put? || l.ops[i].Del?) && l.ops[i].key == k)
  {
  }

  /** A change that writes `k` whole or deletes it, or passes `k` by. */
  lemma FollowPlain(l: Landing, i: nat, k: Key)
    requires i < |l.ops| && Follows(l, i, k) && !l.ops[i].Move? && !(l.ops[i].Masked? && l.ops[i].key == k)
    ensures Follows(l, i + 1, k)
  {
    QuietNext(l, i, k);
    AfterNext(l.ops, i, l.Base());
  }

  lemma FollowMasked(l: Landing, i: nat, k: Key)
    requires i < |l.ops| && Follows(l, i, k) && l.ops[i].Masked? && l.ops[i].key == k
    ensures Follows(l, i + 1, k)
  {
    QuietNext(l, i, k);
    AfterNext(l.ops, i, l.Base());
  }

  lemma FollowMove(l: Landing, i: nat, k: Key)
    requires i < |l.ops| && Follows(l, i, k) && l.ops[i].Move? && l.ops[i].from != k
    requires l.ops[i].to == k ==> Quiet(l, i, k)
    ensures Follows(l, i + 1, k)
  {
    QuietNext(l, i, k);
    AfterNext(l.ops, i, l.Base());
  }

  lemma {:induction false} SecondPass(ix: seq<nat>, w: nat, l: Landing, i: nat, k: Key)
    requires LandedOnce(ix, w, l) && i <= |l.ops| && !Leaves(l.ops, |l.ops|, k)
    ensures Follows(l, i, k)
  {
    if i == 0 {
      SecondStart(l, k);
    } else {
      var j := i - 1;
      SecondPass(ix, w, l, j, k);
      if l.ops[j].Move? {
        assert l.ops[j].from != k;
        if l.ops[j].to == k {
          ArrivesQuiet(ix, w, l, j);
        }
        FollowMove(l, j, k);
      } else if l.ops[j].Masked? && l.ops[j].key == k {
        FollowMasked(l, j, k);
      } else {
        FollowPlain(l, j, k);
      }
    }
  }

  lemma MovesApart(ix: seq<nat>, w: nat, l: Landing)
    requires LandedOnce(ix, w, l)
    ensures forall j :: 0 <= j < |l.ops| && l.ops[j].Move? ==> l.ops[j].from != l.ops[j].to
  {
    forall j | 0 <= j < |l.ops| && l.ops[j].Move?
      ensures l.ops[j].from != l.ops[j].to
    {
      assert KeyedOp(ix, w, l.ops[j]);
    }
  }

  lemma LeftNotInEither(ix: seq<nat>, w: nat, l: Landing, i: nat, k: Key)
    requires LandedOnce(ix, w, l) && i <= |l.ops| && Leaves(l.ops, |l.ops|, k)
    ensures k !in l.Result() && k !in Still(l.ops, i, l.Again())
  {
    MovesApart(ix, w, l);
    LeftIsEmpty(l.dels, l.images, l.ops, |l.ops|, l.Base(), k);
    var j :| 0 <= j < |l.ops| && l.ops[j].Move? && l.ops[j].from == k;
    assert MoveReappliable(l.dels, l.images, l.ops, j);
    LeftStaysEmpty(l.dels, l.images, l.ops, i, l.Again(), k);
  }

  /** Passing the moves over, the second pass ends where the first did. */
  lemma StillIsResult(ix: seq<nat>, w: nat, l: Landing, k: Key)
    requires LandedOnce(ix, w, l)
    ensures J.Same(Still(l.ops, |l.ops|, l.Again()), l.Result(), k)
  {
    var n := |l.ops|;
    if Leaves(l.ops, n, k) {
      LeftNotInEither(ix, w, l, n, k);
    } else {
      SecondPass(ix, w, l, n, k);
      if Quiet(l, n, k) && k in l.Result() {
        QuietRow(ix, w, l, n, k);
        WidthOf(ix, w, l);
        var x :| |x| == w && l.Result()[k] == Masks(l.ops, n, k, x);
        MasksTwice(l.ops, w, n, k, x);
      }
    }
  }

  /** A row the tail still needs later is there on the second pass too. */
  lemma NeededIsThere(ix: seq<nat>, w: nat, l: Landing, i: nat, k: Key)
    requires LandedOnce(ix, w, l) && i <= |l.ops| && !Leaves(l.ops, |l.ops|, k)
    requires k in After(l.ops, i, l.Base()) && !DelIn(l.ops, i, |l.ops|, k)
    ensures k in Still(l.ops, i, l.Again())
  {
    SecondPass(ix, w, l, i, k);
    StaysAfter(l.ops, i, |l.ops|, l.Base(), k);
  }

  lemma NotMootNotTaken(ops: seq<Op>, i: nat)
    requires i < |ops| && NeedsBase(ops[i]) && !Moot(ops, i)
    ensures !DelIn(ops, i + 1, |ops|, Wanted(ops[i]))
    ensures forall j :: i < j < |ops| && ops[j].Move? ==> ops[j].from != Wanted(ops[i])
  {
    forall j | i < j < |ops|
      ensures !TakesFrom(ops[j], Wanted(ops[i]))
    {
    }
  }

  lemma MaskedNotLeft(ix: seq<nat>, w: nat, l: Landing, i: nat)
    requires LandedOnce(ix, w, l) && i < |l.ops| && l.ops[i].Masked? && !Moot(l.ops, i)
    ensures !Leaves(l.ops, |l.ops|, l.ops[i].key)
  {
    var k := l.ops[i].key;
    assert Lawful(l.ops[i], After(l.ops, i, l.Base()));
    NotMootNotTaken(l.ops, i);
    MovesApart(ix, w, l);
    if Leaves(l.ops, i, k) {
      LeftIsEmpty(l.dels, l.images, l.ops, i, l.Base(), k);
    }
  }

  lemma MaskedPasses(ix: seq<nat>, w: nat, l: Landing, i: nat)
    requires LandedOnce(ix, w, l) && i < |l.ops| && l.ops[i].Masked? && !Moot(l.ops, i)
    ensures l.ops[i].key in Still(l.ops, i, l.Again())
  {
    MaskedNotLeft(ix, w, l, i);
    assert Lawful(l.ops[i], After(l.ops, i, l.Base()));
    NotMootNotTaken(l.ops, i);
    NeededIsThere(ix, w, l, i, l.ops[i].key);
  }

  lemma MovePasses(ix: seq<nat>, w: nat, l: Landing, i: nat)
    requires LandedOnce(ix, w, l) && i < |l.ops| && l.ops[i].Move?
    ensures l.ops[i].from !in Still(l.ops, i, l.Again())
    ensures Moot(l.ops, i) || l.ops[i].to in Still(l.ops, i, l.Again())
  {
    var o, k := l.ops[i].from, l.ops[i].to;
    assert Leaves(l.ops, |l.ops|, o);
    LeftNotInEither(ix, w, l, i, o);
    if !Moot(l.ops, i) {
      NotMootNotTaken(l.ops, i);
      MovesApart(ix, w, l);
      AfterNext(l.ops, i, l.Base());
      assert Lawful(l.ops[i], After(l.ops, i, l.Base()));
      forall j | 0 <= j < |l.ops| && l.ops[j].Move?
        ensures l.ops[j].from != k
      {
        assert MoveReappliable(l.dels, l.images, l.ops, j);
      }
      NeededIsThere(ix, w, l, i + 1, k);
    }
  }

  lemma SetPhaseKeyed(ix: seq<nat>, w: nat, dels: set<Key>, images: Table, t: Table)
    requires KeyedTable(ix, w, images) && KeyedTable(ix, w, t)
    ensures KeyedTable(ix, w, SetPhase(dels, images, t))
  {
  }

  lemma {:induction false} StillKeyed(ix: seq<nat>, w: nat, l: Landing, i: nat)
    requires LandedOnce(ix, w, l) && i <= |l.ops|
    ensures KeyedTable(ix, w, Still(l.ops, i, l.Again()))
  {
    if i == 0 {
      FirstRunKeyed(ix, w, l.ops, |l.ops|, l.Base());
      SetPhaseKeyed(ix, w, l.dels, l.images, l.Result());
    } else {
      StillKeyed(ix, w, l, i - 1);
      assert KeyedOp(ix, w, l.ops[i - 1]);
      KeyedStep(ix, w, l.ops[i - 1], Still(l.ops, i - 1, l.Again()));
    }
  }

  lemma SecondStep(ix: seq<nat>, w: nat, l: Landing, i: nat)
    requires LandedOnce(ix, w, l) && i < |l.ops|
    ensures StepChecked(ix, l.ops, i, Still(l.ops, i, l.Again())) == Ok(Still(l.ops, i + 1, l.Again()))
  {
    var op, s := l.ops[i], Still(l.ops, i, l.Again());
    assert KeyedOp(ix, w, op);
    match op
    case Masked(k, r) =>
      if !Moot(l.ops, i) {
        MaskedPasses(ix, w, l, i);
      }
      if !Settable(ix, r) && k in s {
        StillKeyed(ix, w, l, i);
        NothingSet(ix, w, s, k, r);
        assert s[k := s[k]] == s;
      }
    case Move(_, _, _) =>
      MovePasses(ix, w, l, i);
    case _ =>
  }

  lemma {:induction false} SecondRun(ix: seq<nat>, w: nat, l: Landing, i: nat)
    requires LandedOnce(ix, w, l) && i <= |l.ops|
    ensures RunChecked(ix, l.ops, i, l.Again()) == Ok(Still(l.ops, i, l.Again()))
  {
    hide LandedOnce, StepChecked;
    if i > 0 {
      SecondRun(ix, w, l, i - 1);
      SecondStep(ix, w, l, i - 1);
    }
  }

  /** A window whose moves can be met again, landed over its own result, is
      not refused and leaves the result as it is. */
  lemma ReappliedIsResult(ix: seq<nat>, w: nat, l: Landing)
    requires LandedOnce(ix, w, l)
    ensures RunChecked(ix, l.ops, |l.ops|, l.Again()) == Ok(l.Result())
  {
    SecondRun(ix, w, l, |l.ops|);
    var s, r := Still(l.ops, |l.ops|, l.Again()), l.Result();
    forall k
      ensures k in s <==> k in r
      ensures k in s ==> s[k] == r[k]
    {
      StillIsResult(ix, w, l, k);
    }
    assert s == r;
  }

  /** The same over the source's changes, landed again on the source's table
      after them. A window with a TRUNCATE needs no condition: it starts from
      nothing both times. */
  lemma WindowReapplied(ix: seq<nat>, n: nat, evs: seq<Event>, c: Collapsed, t: Table)
    requires AllReadable(ix, evs) && NetOf(ix, evs, c) && OldImagesHold(ix, evs, t)
    requires Legal(ix, n, evs, t) && SourceTable(ix, n, t)
    requires c.truncate || Reappliable(c.deletes, ViewOf(Log(ix, evs)).images, c.residue)
    ensures var images, r := ViewOf(Log(ix, evs)).images, Replay(ix, evs, t);
            RunChecked(ix, c.residue, |c.residue|, SetPhase(c.deletes, images, Start(evs, r))) == Ok(r)
  {
    if c.truncate {
      WindowIsReplay(ix, n, evs, c, t);
    } else {
      var l := Landing(c.deletes, ViewOf(Log(ix, evs)).images, c.residue, t);
      SourceTailOf(ix, n, evs, c, t);
      CollapsedIsLawful(ix, n, evs, c, t);
      ResultIsReplay(ix, evs, c, t);
      ReappliedIsResult(ix, n, l);
    }
  }

  /** Without that condition it can be refused: a row the window itself
      inserted and then moved is inserted again, and its move finds its new key
      taken. */
  lemma InsertedThenMovedIsRefused()
    ensures var whole, moved := [Text("1"), Text("body")], [Text("9"), UnchangedToast];
            var l := Landing({}, map[["1"] := whole], [Move(["1"], ["9"], moved)], map[]);
            && SourceTail([0], 2, l.ops, l.Base())
            && l.Result() == map[["9"] := [Text("9"), Text("body")]]
            && RunChecked([0], l.ops, 1, l.Again()) == Err("duplicate key")
  {
    var whole, moved := [Text("1"), Text("body")], [Text("9"), UnchangedToast];
    var l := Landing({}, map[["1"] := whole], [Move(["1"], ["9"], moved)], map[]);
    assert KeyAt([0], whole) == ["1"] && KeyAt([0], moved) == ["9"];
    assert l.Base() == map[["1"] := whole];
    assert l.ops[..0] == [] && l.ops[..1] == l.ops;
    AfterNext(l.ops, 0, l.Base());
    assert Patch(moved, whole) == [Text("9"), Text("body")];
    assert l.Result() == map[["9"] := [Text("9"), Text("body")]];
    assert ["1"] in l.Again() && ["9"] in l.Again();
    assert RunChecked([0], l.ops, 0, l.Again()) == Ok(l.Again());
  }
}
