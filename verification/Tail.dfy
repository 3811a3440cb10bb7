// The set phases and the ordered tail of one collapsed window, and why they
// add up to the window replayed change by change.
module Tail {
  import opened Rows

  /** One elementary change of a table. `Masked` sets only the columns that
      came in line; `Move` carries a row to a new key the same way. */
  datatype Op =
    | Put(key: Key, row: Row)
    | Del(key: Key)
    | Masked(key: Key, row: Row)
    | Move(from: Key, to: Key, row: Row)

  /** An elementary change and the commit position of its transaction. */
  datatype Tagged = Tagged(pos: nat, op: Op)

  function Touches(op: Op): (ks: set<Key>)
    ensures ks != {}
  {
    match op
    case Put(k, _) => {k}
    case Del(k) => {k}
    case Masked(k, _) => {k}
    case Move(o, n, _) => {o, n}
  }

  predicate NeedsBase(op: Op) {
    op.Masked? || op.Move?
  }

  function Apply(op: Op, t: Table): Table {
    match op
    case Put(k, r) => t[k := r]
    case Del(k) => t - {k}
    case Masked(k, r) => if k in t then t[k := Patch(r, t[k])] else t
    case Move(o, n, r) => if o in t then (t - {o})[n := Patch(r, t[o])] else t
  }

  /** Every change that needs a row finds it, as it did at the source. */
  predicate Finds(op: Op, t: Table) {
    (op.Masked? ==> op.key in t) && (op.Move? ==> op.from in t)
  }

  function ApplyAll(l: seq<Tagged>, t: Table): Table {
    if l == [] then t else Apply(l[|l| - 1].op, ApplyAll(l[..|l| - 1], t))
  }

  /** Keys that met a change needing the row before it. */
  function Sticky(l: seq<Tagged>): (ks: set<Key>) {
    if l == [] then {}
    else
      var op := l[|l| - 1].op;
      Sticky(l[..|l| - 1]) + (if NeedsBase(op) then Touches(op) else {})
  }

  /** Whether a change has to stay in the ordered tail after `before`. */
  predicate InTail(before: seq<Tagged>, op: Op) {
    NeedsBase(op) || Touches(op) * Sticky(before) != {}
  }

  function Residue(l: seq<Tagged>): (r: seq<Tagged>) {
    if l == [] then []
    else
      var p := l[..|l| - 1];
      var e := l[|l| - 1];
      if InTail(p, e.op) then Residue(p) + [e] else Residue(p)
  }

  function Head(l: seq<Tagged>): (r: seq<Tagged>)
    ensures forall i :: 0 <= i < |r| ==> !NeedsBase(r[i].op)
  {
    if l == [] then []
    else
      var p := l[..|l| - 1];
      var e := l[|l| - 1];
      if InTail(p, e.op) then Head(p) else Head(p) + [e]
  }

  /** Last image per key of the changes that ride the set phases. */
  function Images(h: seq<Tagged>): (m: Table) {
    if h == [] then map[]
    else
      var m := Images(h[..|h| - 1]);
      match h[|h| - 1].op
      case Put(k, r) => m[k := r]
      case Del(k) => m - {k}
      case _ => m
  }

  function DelKeys(h: seq<Tagged>): (ks: set<Key>) {
    if h == [] then {}
    else DelKeys(h[..|h| - 1]) + (if h[|h| - 1].op.Del? then {h[|h| - 1].op.key} else {})
  }

  /** What the set phases do: drop the deleted keys and the keys about to be
      written, then write the images. */
  function SetPhase(deletes: set<Key>, images: Table, t: Table): Table {
    (t - deletes - images.Keys) + images
  }

  lemma SetPhasePut(d: set<Key>, m: Table, k: Key, r: Row, t: Table)
    ensures SetPhase(d, m[k := r], t) == SetPhase(d, m, t)[k := r]
  {
  }

  lemma SetPhaseDel(d: set<Key>, m: Table, k: Key, t: Table)
    ensures SetPhase(d + {k}, m - {k}, t) == SetPhase(d, m, t) - {k}
  {
  }

  lemma {:induction false} SetPhaseIsReplay(h: seq<Tagged>, t: Table)
    requires forall i :: 0 <= i < |h| ==> !NeedsBase(h[i].op)
    ensures SetPhase(DelKeys(h), Images(h), t) == ApplyAll(h, t)
  {
    if h == [] {
      assert SetPhase({}, map[], t) == t;
    } else {
      var p := h[..|h| - 1];
      SetPhaseIsReplay(p, t);
      match h[|h| - 1].op
      case Put(k, r) =>
        assert DelKeys(h) == DelKeys(p);
        SetPhasePut(DelKeys(p), Images(p), k, r, t);
      case Del(k) =>
        SetPhaseDel(DelKeys(p), Images(p), k, t);
    }
  }

  function AllTouched(l: seq<Tagged>): (ks: set<Key>) {
    if l == [] then {} else AllTouched(l[..|l| - 1]) + Touches(l[|l| - 1].op)
  }

  lemma {:induction false} TailTouchesSticky(l: seq<Tagged>)
    ensures AllTouched(Residue(l)) <= Sticky(l)
  {
    if l != [] {
      var p := l[..|l| - 1];
      var e := l[|l| - 1];
      TailTouchesSticky(p);
      if InTail(p, e.op) {
        assert Residue(l)[..|Residue(l)| - 1] == Residue(p);
      }
    }
  }

  lemma CommuteOne(op: Op, e: Op, t: Table)
    requires !NeedsBase(op) && Touches(op) !! Touches(e)
    ensures Apply(e, Apply(op, t)) == Apply(op, Apply(e, t))
  {
  }

  /** A change of a key the tail never touches can run before the tail. */
  lemma {:induction false} Commute(op: Op, tail: seq<Tagged>, t: Table)
    requires !NeedsBase(op) && Touches(op) !! AllTouched(tail)
    ensures ApplyAll(tail, Apply(op, t)) == Apply(op, ApplyAll(tail, t))
  {
    if tail != [] {
      Commute(op, tail[..|tail| - 1], t);
      CommuteOne(op, tail[|tail| - 1].op, ApplyAll(tail[..|tail| - 1], t));
    }
  }

  lemma ApplyAllSnoc(l: seq<Tagged>, e: Tagged, t: Table)
    ensures ApplyAll(l + [e], t) == Apply(e.op, ApplyAll(l, t))
  {
    assert (l + [e])[..|l|] == l;
  }

  /** The window split into set phases and tail is the window in order. */
  lemma {:induction false} SplitIsReplay(l: seq<Tagged>, t: Table)
    ensures ApplyAll(Residue(l), ApplyAll(Head(l), t)) == ApplyAll(l, t)
  {
    if l != [] {
      var p := l[..|l| - 1];
      var e := l[|l| - 1];
      SplitIsReplay(p, t);
      if InTail(p, e.op) {
        ApplyAllSnoc(Residue(p), e, ApplyAll(Head(p), t));
      } else {
        ApplyAllSnoc(Head(p), e, t);
        TailTouchesSticky(p);
        Commute(e.op, Residue(p), ApplyAll(Head(p), t));
      }
    }
  }

  lemma {:induction false} ApplyAllConcat(a: seq<Tagged>, b: seq<Tagged>, t: Table)
    ensures ApplyAll(a + b, t) == ApplyAll(b, ApplyAll(a, t))
  {
    if b == [] {
      assert a + b == a;
    } else {
      assert (a + b)[..|a + b| - 1] == a + b[..|b| - 1];
      ApplyAllConcat(a, b[..|b| - 1], t);
    }
  }

  /** Everything the collapser has to know about the changes seen so far. */
  datatype View = View(touched: set<Key>, sticky: set<Key>, tail: seq<Tagged>, dels: set<Key>, images: Table)

  function ViewOf(l: seq<Tagged>): View {
    View(AllTouched(l), Sticky(l), Residue(l), DelKeys(Head(l)), Images(Head(l)))
  }

  /** One more change, from the view alone. */
  function Step(v: View, e: Tagged): View {
    match e.op
    case Put(k, r) =>
      if k in v.sticky then v.(tail := v.tail + [e])
      else v.(touched := v.touched + {k}, images := v.images[k := r])
    case Del(k) =>
      if k in v.sticky then v.(tail := v.tail + [e])
      else v.(touched := v.touched + {k}, dels := v.dels + {k}, images := v.images - {k})
    case _ =>
      v.(touched := v.touched + Touches(e.op), sticky := v.sticky + Touches(e.op), tail := v.tail + [e])
  }

  function Steps(v: View, l: seq<Tagged>): View {
    if l == [] then v else Step(Steps(v, l[..|l| - 1]), l[|l| - 1])
  }

  lemma {:induction false} StickyTouched(l: seq<Tagged>)
    ensures Sticky(l) <= AllTouched(l)
  {
    if l != [] { StickyTouched(l[..|l| - 1]); }
  }

  lemma ViewSnoc(l: seq<Tagged>, e: Tagged)
    ensures ViewOf(l + [e]) == Step(ViewOf(l), e)
  {
    assert (l + [e])[..|l|] == l;
    assert (Head(l) + [e])[..|Head(l)|] == Head(l);
    StickyTouched(l);
    if !NeedsBase(e.op) {
      assert InTail(l, e.op) <==> e.op.key in Sticky(l) by {
        assert e.op.key in Sticky(l) ==> e.op.key in Touches(e.op) * Sticky(l);
      }
    }
  }

  lemma {:induction false} ViewConcat(a: seq<Tagged>, b: seq<Tagged>)
    ensures ViewOf(a + b) == Steps(ViewOf(a), b)
  {
    hide ViewOf, Step;
    if b == [] {
      assert a + b == a;
    } else {
      var c := b[..|b| - 1];
      ViewConcat(a, c);
      ViewSnoc(a + c, b[|b| - 1]);
      assert a + b == (a + c) + [b[|b| - 1]];
    }
  }
}
