// What a source's own table guarantees of the changes it logs, and that the
// collapsed window still has it.
module SourceLaw {
  import opened Rows
  import opened Tail
  import opened Collapse
  import J = Journal

  // ------------------------------------------------------------------
  // One layout per window: rows of one width, whole rows with no hole.

  predicate WholeRow(n: nat, row: Row) {
    |row| == n && !HasToast(row)
  }

  predicate WholeTable(n: nat, t: Table) {
    forall k :: k in t ==> WholeRow(n, t[k])
  }

  predicate OneLayout(n: nat, ops: seq<Op>) {
    forall i :: 0 <= i < |ops| ==> LayoutOp(n, ops[i])
  }

  predicate AllFind(ops: seq<Op>, t: Table) {
    ops == [] || (AllFind(ops[..|ops| - 1], t) && Finds(ops[|ops| - 1], RunTail(ops[..|ops| - 1], t)))
  }

  predicate LayoutOp(n: nat, op: Op) {
    match op
    case Put(_, r) => WholeRow(n, r)
    case Del(_) => true
    case Masked(_, r) => |r| == n
    case Move(_, _, r) => |r| == n
  }

  predicate KeyedTable(ix: seq<nat>, w: nat, t: Table) {
    forall k :: k in t ==> |t[k]| == w && Keyed(ix, t[k]) && KeyAt(ix, t[k]) == k
  }

  predicate KeyedOp(ix: seq<nat>, w: nat, op: Op) {
    match op
    case Put(k, r) => |r| == w && Keyed(ix, r) && KeyAt(ix, r) == k
    case Del(_) => true
    case Masked(k, r) => |r| == w && Keyed(ix, r) && KeyAt(ix, r) == k
    case Move(o, n, r) => o != n && |r| == w && Keyed(ix, r) && KeyAt(ix, r) == n
  }

  /** What the source's own unique key demanded of the change. */
  predicate Lawful(op: Op, t: Table) {
    Finds(op, t) && (op.Move? ==> op.to !in t)
  }

  // ------------------------------------------------------------------
  // The source: rows of one layout, every masked image's row there, and no
  // key taken twice.

  /** What the source's table demanded of a change as it happened. */
  predicate LegalChange(ix: seq<nat>, n: nat, c: Change, t: Table)
    requires Readable(ix, c)
  {
    LegalShape(ix, n, c) && (c.Update? ==>
      var row := NewImage(ix, c);
      var from := if c.before.Some? then KeyAt(ix, c.before.value) else KeyAt(ix, row);
      (HasToast(row) ==> from in t) && (KeyChanges(ix, c) ==> KeyAt(ix, row) !in t))
  }

  predicate LegalShape(ix: seq<nat>, n: nat, c: Change) {
    match c
    case Insert(row) => WholeRow(n, row)
    case Update(_, _, _) => |NewImage(ix, c)| == n
    case _ => true
  }

  predicate Legal(ix: seq<nat>, n: nat, evs: seq<Event>, t: Table)
    requires AllReadable(ix, evs)
  {
    evs == []
    || (Legal(ix, n, evs[..|evs| - 1], t)
        && LegalChange(ix, n, evs[|evs| - 1].change, Replay(ix, evs[..|evs| - 1], t)))
  }

  /** A source table: rows of one layout under their own keys. */
  predicate SourceTable(ix: seq<nat>, n: nat, t: Table) {
    WholeTable(n, t) && KeyedTable(ix, n, t)
  }

  predicate OpOk(ix: seq<nat>, n: nat, op: Op) {
    LayoutOp(n, op) && KeyedOp(ix, n, op)
  }

  predicate AllOk(ix: seq<nat>, n: nat, l: seq<Tagged>) {
    forall i :: 0 <= i < |l| ==> OpOk(ix, n, l[i].op)
  }

  lemma {:induction false} ImagesOk(ix: seq<nat>, n: nat, h: seq<Tagged>)
    requires AllOk(ix, n, h)
    ensures SourceTable(ix, n, Images(h))
  {
    if h != [] {
      var p := h[..|h| - 1];
      assert forall i :: 0 <= i < |p| ==> p[i] == h[i];
      ImagesOk(ix, n, p);
      assert OpOk(ix, n, h[|h| - 1].op);
    }
  }

  lemma {:induction false} SplitOk(ix: seq<nat>, n: nat, l: seq<Tagged>)
    requires AllOk(ix, n, l)
    ensures AllOk(ix, n, Head(l)) && AllOk(ix, n, Residue(l))
  {
    if l != [] {
      var p := l[..|l| - 1];
      assert forall i :: 0 <= i < |p| ==> p[i] == l[i];
      SplitOk(ix, n, p);
      assert OpOk(ix, n, l[|l| - 1].op);
    }
  }

  lemma ElementaryOk(ix: seq<nat>, n: nat, v: View, c: Change, i: nat)
    requires Readable(ix, c) && LegalShape(ix, n, c) && SourceTable(ix, n, v.images) && i < |Elementary(ix, v, c)|
    ensures OpOk(ix, n, Elementary(ix, v, c)[i])
  {
  }

  lemma {:induction false} LogOk(ix: seq<nat>, n: nat, evs: seq<Event>, t: Table)
    requires AllReadable(ix, evs) && Legal(ix, n, evs, t)
    ensures AllOk(ix, n, Log(ix, evs))
  {
    if evs != [] && !evs[|evs| - 1].change.Truncate? {
      var l, c := Log(ix, evs[..|evs| - 1]), evs[|evs| - 1].change;
      LogOk(ix, n, evs[..|evs| - 1], t);
      SplitOk(ix, n, l);
      ImagesOk(ix, n, Head(l));
      forall i | 0 <= i < |Elementary(ix, ViewOf(l), c)|
        ensures OpOk(ix, n, Elementary(ix, ViewOf(l), c)[i])
      {
        ElementaryOk(ix, n, ViewOf(l), c, i);
      }
    }
  }

  // ------------------------------------------------------------------
  // From the source's changes to elementary ones.

  predicate LawfulAll(l: seq<Tagged>, t: Table) {
    l == [] || (LawfulAll(l[..|l| - 1], t) && Lawful(l[|l| - 1].op, ApplyAll(l[..|l| - 1], t)))
  }

  lemma LawfulSnoc(l: seq<Tagged>, e: Tagged, t: Table)
    requires LawfulAll(l, t) && Lawful(e.op, ApplyAll(l, t))
    ensures LawfulAll(l + [e], t)
  {
    assert (l + [e])[..|l|] == l;
  }

  lemma {:induction false} LawfulWhole(l: seq<Tagged>, more: seq<Tagged>, t: Table)
    requires LawfulAll(l, t) && forall i :: 0 <= i < |more| ==> !NeedsBase(more[i].op)
    ensures LawfulAll(l + more, t)
  {
    if more == [] {
      assert l + more == l;
    } else {
      var p := more[..|more| - 1];
      LawfulWhole(l, p, t);
      LawfulSnoc(l + p, more[|more| - 1], t);
      assert l + more == (l + p) + [more[|more| - 1]];
    }
  }

  lemma ElementaryLawful(ix: seq<nat>, n: nat, l: seq<Tagged>, pos: nat, c: Change, t: Table)
    requires Readable(ix, c) && !c.Truncate? && LawfulAll(l, t) && LegalChange(ix, n, c, ApplyAll(l, t))
    ensures LawfulAll(l + Tag(pos, Elementary(ix, ViewOf(l), c)), t)
  {
    hide Elementary, ViewOf, LegalChange, LawfulAll, ApplyAll, Lawful, NewImage;
    var ops := Elementary(ix, ViewOf(l), c);
    ElementaryKinds(ix, n, ViewOf(l), c, ApplyAll(l, t));
    if c.Update? && HasToast(NewImage(ix, c)) {
      assert Tag(pos, ops) == [Tagged(pos, ops[0])];
      LawfulSnoc(l, Tagged(pos, ops[0]), t);
    } else {
      LawfulWhole(l, Tag(pos, ops), t);
    }
  }

  /** An update with values out of line is one change, which finds its row and
      its new key free; every other is whole-row changes. */
  lemma ElementaryKinds(ix: seq<nat>, n: nat, v: View, c: Change, t: Table)
    requires Readable(ix, c) && !c.Truncate? && LegalChange(ix, n, c, t)
    ensures var ops := Elementary(ix, v, c);
            if c.Update? && HasToast(NewImage(ix, c)) then |ops| == 1 && Lawful(ops[0], t)
            else forall i :: 0 <= i < |ops| ==> !NeedsBase(ops[i])
  {
    hide HasToast, Patch;
  }

  lemma {:induction false} LogLawful(ix: seq<nat>, n: nat, evs: seq<Event>, t: Table)
    requires AllReadable(ix, evs) && OldImagesHold(ix, evs, t) && Legal(ix, n, evs, t)
    ensures LawfulAll(Log(ix, evs), Start(evs, t))
  {
    if evs != [] && !evs[|evs| - 1].change.Truncate? {
      var p, e := evs[..|evs| - 1], evs[|evs| - 1];
      LogLawful(ix, n, p, t);
      LogIsReplay(ix, p, t);
      StartSnoc(evs, t);
      ElementaryLawful(ix, n, Log(ix, p), e.pos, e.change, Start(p, t));
    }
  }

  // ------------------------------------------------------------------
  // And on to the collapsed tail, though the set phases have run ahead.

  predicate TailLawful(ops: seq<Op>, t: Table) {
    ops == [] || (TailLawful(ops[..|ops| - 1], t) && Lawful(ops[|ops| - 1], RunTail(ops[..|ops| - 1], t)))
  }

  lemma TailLawfulSnoc(l: seq<Tagged>, e: Tagged, t: Table)
    requires TailLawful(Ops(l), t) && Lawful(e.op, ApplyAll(l, t))
    ensures TailLawful(Ops(l + [e]), t)
  {
    assert Ops(l + [e])[..|l|] == Ops(l);
    RunTailIsApplyAll(l, t);
  }

  lemma {:induction false} LawfulAt(l: seq<Tagged>, t: Table, i: nat)
    requires LawfulAll(l, t) && i < |l|
    ensures Lawful(l[i].op, ApplyAll(l[..i], t))
  {
    if i < |l| - 1 {
      var p := l[..|l| - 1];
      LawfulAt(p, t, i);
      assert p[..i] == l[..i];
    }
  }

  lemma TailStepLawful(l: seq<Tagged>, i: nat, base: Table)
    requires LawfulAll(l, base) && i < |l|
    ensures Lawful(l[i].op, J.Ideal(l, i, base))
  {
    LawfulAt(l, base, i);
    var op := l[i].op;
    if op.Masked? {
      J.IdealIsSource(l, i, base, op.key);
    } else if op.Move? {
      J.IdealIsSource(l, i, base, op.from);
      J.IdealIsSource(l, i, base, op.to);
    }
  }

  lemma {:induction false} SplitLawful(l: seq<Tagged>, i: nat, base: Table)
    requires LawfulAll(l, base) && i <= |l|
    ensures TailLawful(Ops(Residue(l[..i])), ApplyAll(Head(l), base))
  {
    if i > 0 {
      SplitLawful(l, i - 1, base);
      var p, n := l[..i - 1], l[..i];
      assert n[..i - 1] == p && n[i - 1] == l[i - 1];
      if InTail(p, l[i - 1].op) {
        TailStepLawful(l, i - 1, base);
        TailLawfulSnoc(Residue(p), l[i - 1], ApplyAll(Head(l), base));
      }
    }
  }

  lemma {:induction false} LawfulFinds(ops: seq<Op>, t: Table)
    requires TailLawful(ops, t)
    ensures AllFind(ops, t)
  {
    if ops != [] {
      LawfulFinds(ops[..|ops| - 1], t);
    }
  }

  /** A window the source could log, collapsed: its images are whole rows under
      their keys, its tail is of one layout, and every change of the tail finds
      its row and a free key when the tail runs over the set phases. */
  lemma CollapsedIsLawful(ix: seq<nat>, n: nat, evs: seq<Event>, c: Collapsed, t: Table)
    requires AllReadable(ix, evs) && NetOf(ix, evs, c) && OldImagesHold(ix, evs, t) && Legal(ix, n, evs, t)
    ensures var images := ViewOf(Log(ix, evs)).images;
            && SourceTable(ix, n, images)
            && (forall i :: 0 <= i < |c.residue| ==> OpOk(ix, n, c.residue[i]))
            && TailLawful(c.residue, SetPhase(c.deletes, images, Start(evs, t)))
  {
    var l := Log(ix, evs);
    LogOk(ix, n, evs, t);
    SplitOk(ix, n, l);
    ImagesOk(ix, n, Head(l));
    LogLawful(ix, n, evs, t);
    assert l[..|l|] == l;
    SplitLawful(l, |l|, Start(evs, t));
    SetPhaseIsReplay(Head(l), Start(evs, t));
  }
}
