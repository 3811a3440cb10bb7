// Landing windows on a store without transactions. A tail change is read
// back, journalled, deleted and inserted as separate statements, a run can die
// between any two of them, and the next run may cut the log elsewhere.
module Journal {
  import opened Rows
  import opened Tail

  // ------------------------------------------------------------------
  // The source.

  /** An entry of the source log: one elementary change or a TRUNCATE, at the
      commit position of its transaction. */
  datatype Entry = Change(pos: nat, op: Op) | Truncated(pos: nat)

  type SourceLog = seq<Entry>

  /** The source table after the first `g` entries. */
  function Source(log: SourceLog, t0: Table, g: nat): Table
    requires g <= |log|
  {
    if g == 0 then t0
    else match log[g - 1]
      case Change(_, op) => Apply(op, Source(log, t0, g - 1))
      case Truncated(_) => map[]
  }

  /** The key whose row a change has to read. */
  function Needs(op: Op): (k: Key)
    requires NeedsBase(op)
    ensures k in Touches(op)
  {
    if op.Masked? then op.key else op.from
  }

  function PosAt(log: SourceLog, g: nat): nat
    requires g < |log|
  {
    log[g].pos
  }

  predicate FoundAt(log: SourceLog, t0: Table, g: nat)
    requires g < |log|
  {
    log[g].Change? ==> Finds(log[g].op, Source(log, t0, g))
  }

  /** A log a source can write: positions in order, and every change of a row
      found it. */
  predicate Written(log: SourceLog, t0: Table) {
    && (forall i, j {:trigger PosAt(log, i), PosAt(log, j)} :: 0 <= i < j < |log| ==> PosAt(log, i) <= PosAt(log, j))
    && (forall g {:trigger PosAt(log, g)} :: 0 <= g < |log| ==> PosAt(log, g) > 0)
    && (forall g {:trigger FoundAt(log, t0, g)} :: 0 <= g < |log| ==> FoundAt(log, t0, g))
  }

  /** Windows end only between transactions. */
  predicate Cut(log: SourceLog, a: nat) {
    a <= |log| && (0 < a < |log| ==> log[a - 1].pos < log[a].pos)
  }

  predicate NoTruncate(log: SourceLog, a: nat, b: nat) {
    forall g :: a <= g < b && g < |log| ==> log[g].Change?
  }

  /** Where the part of `log[a..b]` after its last TRUNCATE starts. */
  function Since(log: SourceLog, a: nat, b: nat): (c: nat)
    requires a <= b <= |log|
    ensures a <= c <= b && NoTruncate(log, c, b)
    ensures c > a ==> log[c - 1].Truncated?
    ensures c == a ==> NoTruncate(log, a, b)
  {
    if b == a then a
    else if log[b - 1].Truncated? then b
    else Since(log, a, b - 1)
  }

  /** The elementary changes of `log[c..b]`. */
  function Part(log: SourceLog, c: nat, b: nat): (l: seq<Tagged>)
    requires c <= b <= |log| && NoTruncate(log, c, b)
    ensures |l| == b - c
    ensures forall i :: 0 <= i < |l| ==> l[i] == Tagged(log[c + i].pos, log[c + i].op)
  {
    seq(b - c, i requires 0 <= i < b - c => Tagged(log[c + i].pos, log[c + i].op))
  }

  lemma {:induction false} PartIsSource(log: SourceLog, t0: Table, c: nat, b: nat)
    requires c <= b <= |log| && NoTruncate(log, c, b)
    ensures ApplyAll(Part(log, c, b), Source(log, t0, c)) == Source(log, t0, b)
  {
    if b > c {
      PartIsSource(log, t0, c, b - 1);
      assert Part(log, c, b)[..b - c - 1] == Part(log, c, b - 1);
    }
  }

  // ------------------------------------------------------------------
  // Tables key by key.

  predicate Same(d: Table, t: Table, k: Key) {
    (k in d <==> k in t) && (k in d ==> d[k] == t[k])
  }

  lemma {:induction false} Untouched(l: seq<Tagged>, t: Table, k: Key)
    requires k !in AllTouched(l)
    ensures Same(ApplyAll(l, t), t, k)
  {
    if l != [] {
      Untouched(l[..|l| - 1], t, k);
    }
  }

  /** Changes that touch only keys the tables agree on keep them agreeing. */
  lemma {:induction false} AgreeThrough(l: seq<Tagged>, d: Table, t: Table, ks: set<Key>)
    requires AllTouched(l) <= ks && forall k :: k in ks ==> Same(d, t, k)
    ensures forall k :: k in ks ==> Same(ApplyAll(l, d), ApplyAll(l, t), k)
  {
    if l != [] {
      AgreeThrough(l[..|l| - 1], d, t, ks);
    }
  }

  lemma {:induction false} TouchedBy(l: seq<Tagged>, k: Key)
    ensures k in AllTouched(l) <==> exists i :: 0 <= i < |l| && k in Touches(l[i].op)
  {
    if l != [] {
      var p := l[..|l| - 1];
      TouchedBy(p, k);
      assert forall i :: 0 <= i < |p| ==> p[i] == l[i];
    }
  }

  predicate TouchedAt(log: SourceLog, g: nat, k: Key) {
    g < |log| && log[g].Change? && k in Touches(log[g].op)
  }

  predicate TouchedIn(log: SourceLog, a: nat, b: nat, k: Key) {
    exists g :: a <= g < b && TouchedAt(log, g, k)
  }

  lemma WindowTouches(log: SourceLog, c: nat, b: nat, i: nat, k: Key)
    requires c <= b <= |log| && NoTruncate(log, c, b) && i <= b - c
    ensures k in AllTouched(Part(log, c, b)[..i]) <==> TouchedIn(log, c, c + i, k)
  {
    var l := Part(log, c, b);
    TouchedBy(l[..i], k);
    if j :| 0 <= j < i && k in Touches(l[..i][j].op) {
      assert TouchedAt(log, c + j, k);
    }
    if TouchedIn(log, c, c + i, k) {
      var g :| c <= g < c + i && TouchedAt(log, g, k);
      assert l[..i][g - c] == Tagged(log[g].pos, log[g].op);
    }
  }

  // ------------------------------------------------------------------
  // The set phases write a key exactly when the window's first change of it
  // does not need the row before it.

  lemma {:induction false} StickyFrom(l: seq<Tagged>, i: nat, j: nat)
    requires i < j <= |l| && NeedsBase(l[i].op)
    ensures Touches(l[i].op) <= Sticky(l[..j])
  {
    assert l[..j][..j - 1] == l[..j - 1];
    if i < j - 1 {
      StickyFrom(l, i, j - 1);
    }
  }

  lemma {:induction false} HeadAfterSticky(l: seq<Tagged>, i: nat, k: Key)
    requires i < |l| && NeedsBase(l[i].op) && k in Touches(l[i].op)
    requires forall j :: 0 <= j < i ==> k !in Touches(l[j].op)
    ensures k !in AllTouched(Head(l))
  {
    var p := l[..|l| - 1];
    if i < |p| {
      HeadAfterSticky(p, i, k);
      StickyFrom(l, i, |p|);
      HeadPassesBy(l, k);
    } else {
      TouchedBy(p, k);
      HeadTouches(p);
    }
  }

  /** The set phases never meet a key that has gone sticky. */
  lemma HeadPassesBy(l: seq<Tagged>, k: Key)
    requires l != [] && k in Sticky(l[..|l| - 1]) && k !in AllTouched(Head(l[..|l| - 1]))
    ensures k !in AllTouched(Head(l))
  {
    var p, e := l[..|l| - 1], l[|l| - 1];
    if !InTail(p, e.op) {
      assert Head(l)[..|Head(l)| - 1] == Head(p);
      assert k in Touches(e.op) ==> k in Touches(e.op) * Sticky(p);
    }
  }

  lemma {:induction false} HeadTouches(l: seq<Tagged>)
    ensures AllTouched(l) == AllTouched(Head(l)) + AllTouched(Residue(l))
  {
    if l != [] {
      var p, e := l[..|l| - 1], l[|l| - 1];
      HeadTouches(p);
      if InTail(p, e.op) {
        assert Residue(l)[..|Residue(l)| - 1] == Residue(p);
      } else {
        assert Head(l)[..|Head(l)| - 1] == Head(p);
      }
    }
  }

  /** The keys the set phases delete or write. */
  lemma {:induction false} SetKeys(h: seq<Tagged>)
    requires forall i :: 0 <= i < |h| ==> !NeedsBase(h[i].op)
    ensures AllTouched(h) == DelKeys(h) + Images(h).Keys
  {
    if h != [] {
      SetKeys(h[..|h| - 1]);
    }
  }

  /** What the tail has done after `i` of the window's changes, over the whole
      set phase. */
  function Ideal(l: seq<Tagged>, i: nat, base: Table): Table
    requires i <= |l|
  {
    ApplyAll(Residue(l[..i]), ApplyAll(Head(l), base))
  }

  lemma {:induction false} HeadGrowsOff(l: seq<Tagged>, i: nat, base: Table, k: Key)
    requires i <= |l| && k in Sticky(l[..i])
    ensures Same(ApplyAll(Head(l), base), ApplyAll(Head(l[..i]), base), k)
    decreases |l|
  {
    if i == |l| {
      assert l[..i] == l;
    } else {
      var p := l[..|l| - 1];
      assert p[..i] == l[..i];
      HeadGrowsOff(p, i, base, k);
      StickyGrows(l, i, |p|);
      HeadGrowsOne(l, base, k);
    }
  }

  lemma HeadGrowsOne(l: seq<Tagged>, base: Table, k: Key)
    requires l != [] && k in Sticky(l[..|l| - 1])
    ensures Same(ApplyAll(Head(l), base), ApplyAll(Head(l[..|l| - 1]), base), k)
  {
    var p, e := l[..|l| - 1], l[|l| - 1];
    if !InTail(p, e.op) {
      ApplyAllSnoc(Head(p), e, base);
      assert k in Touches(e.op) ==> k in Touches(e.op) * Sticky(p);
    }
  }

  lemma {:induction false} StickyGrows(l: seq<Tagged>, i: nat, j: nat)
    requires i <= j <= |l|
    ensures Sticky(l[..i]) <= Sticky(l[..j])
  {
    if i < j {
      StickyGrows(l, i, j - 1);
      assert l[..j][..j - 1] == l[..j - 1];
    }
  }

  /** On the keys of a tail change, what the tail has done so far is what the
      source had at that change, though the set phases have already run ahead. */
  lemma IdealIsSource(l: seq<Tagged>, i: nat, base: Table, k: Key)
    requires i < |l| && NeedsBase(l[i].op) && k in Touches(l[i].op)
    ensures Same(Ideal(l, i, base), ApplyAll(l[..i], base), k)
  {
    var p := l[..i];
    var ks := Sticky(p) + Touches(l[i].op);
    var full, part := ApplyAll(Head(l), base), ApplyAll(Head(p), base);
    var n := l[..i + 1];
    assert n[..i] == p && Sticky(n) == ks;
    forall j | j in ks
      ensures Same(full, part, j)
    {
      HeadGrowsOff(l, i + 1, base, j);
      assert InTail(p, l[i].op);
      assert Head(n) == Head(p);
    }
    TailTouchesSticky(p);
    AgreeThrough(Residue(p), full, part, ks);
    SplitIsReplay(p, base);
  }

  // ------------------------------------------------------------------
  // Names of journal entries: the commit position, the key read, and the
  // ordinal among that transaction's tail changes reading the key.

  datatype Name = Name(pos: nat, n: nat, key: Key)

  predicate Counts(op: Op, k: Key) {
    NeedsBase(op) && Needs(op) == k
  }

  /** The ordinal as a run counts it, over its own window. */
  function Ordinal(l: seq<Tagged>, i: nat, pos: nat, k: Key): nat
    requires i <= |l|
  {
    if i == 0 then 0
    else Ordinal(l, i - 1, pos, k) + (if l[i - 1].pos == pos && Counts(l[i - 1].op, k) then 1 else 0)
  }

  function NameIn(l: seq<Tagged>, i: nat): Name
    requires i < |l| && NeedsBase(l[i].op)
  {
    Name(l[i].pos, Ordinal(l, i, l[i].pos, Needs(l[i].op)) + 1, Needs(l[i].op))
  }

  /** Counting over the tail that is landed, or over the whole window, is the
      same: a change that is counted is always in the tail. */
  lemma {:induction false} OrdinalInTail(l: seq<Tagged>, i: nat, pos: nat, k: Key)
    requires i <= |l|
    ensures Ordinal(Residue(l[..i]), |Residue(l[..i])|, pos, k) == Ordinal(l, i, pos, k)
  {
    if i > 0 {
      OrdinalInTail(l, i - 1, pos, k);
      var n := l[..i];
      assert n[..i - 1] == l[..i - 1];
      if InTail(n[..i - 1], n[i - 1].op) {
        var r := Residue(n[..i - 1]);
        assert Residue(n) == r + [n[i - 1]];
        OrdinalPrefix(r, n[i - 1], |r|, pos, k);
      }
    }
  }

  lemma {:induction false} OrdinalPrefix(l: seq<Tagged>, e: Tagged, i: nat, pos: nat, k: Key)
    requires i <= |l|
    ensures Ordinal(l + [e], i, pos, k) == Ordinal(l, i, pos, k)
  {
    if i > 0 {
      OrdinalPrefix(l, e, i - 1, pos, k);
    }
  }

  /** The same ordinal from the source's log alone. */
  function Before(log: SourceLog, j: nat, pos: nat, k: Key): nat
    requires j <= |log|
  {
    if j == 0 || log[j - 1].Truncated? || log[j - 1].pos != pos then 0
    else Before(log, j - 1, pos, k) + (if Counts(log[j - 1].op, k) then 1 else 0)
  }

  predicate Tailed(log: SourceLog, g: nat) {
    g < |log| && log[g].Change? && NeedsBase(log[g].op)
  }

  function NameOf(log: SourceLog, g: nat): Name
    requires Tailed(log, g)
  {
    var k := Needs(log[g].op);
    Name(log[g].pos, Before(log, g, log[g].pos, k) + 1, k)
  }

  lemma {:induction false} NoneCounted(l: seq<Tagged>, i: nat, pos: nat, k: Key)
    requires i <= |l| && forall j :: 0 <= j < i ==> l[j].pos != pos
    ensures Ordinal(l, i, pos, k) == 0
  {
    if i > 0 {
      NoneCounted(l, i - 1, pos, k);
    }
  }

  lemma {:induction false} OrdinalIsBefore(log: SourceLog, t0: Table, c: nat, b: nat, i: nat, pos: nat, k: Key)
    requires Written(log, t0) && c <= b <= |log| && NoTruncate(log, c, b) && i < b - c && log[c + i].pos == pos
    requires c == 0 || log[c - 1].Truncated? || log[c - 1].pos < log[c].pos
    ensures Ordinal(Part(log, c, b), i, pos, k) == Before(log, c + i, pos, k)
  {
    var l := Part(log, c, b);
    if i > 0 {
      if log[c + i - 1].pos == pos {
        OrdinalIsBefore(log, t0, c, b, i - 1, pos, k);
      } else {
        forall j | 0 <= j < i
          ensures l[j].pos != pos
        {
          assert PosAt(log, c + j) <= PosAt(log, c + i - 1) <= PosAt(log, c + i);
        }
        NoneCounted(l, i, pos, k);
      }
    } else if c > 0 && !log[c - 1].Truncated? {
      assert log[c - 1].pos < log[c].pos;
    }
  }

  /** Whatever window a change lands in, its entry has one name. */
  lemma NameIsStable(log: SourceLog, t0: Table, a: nat, b: nat, i: nat)
    requires Written(log, t0) && Cut(log, a) && a <= b <= |log|
    requires i < b - Since(log, a, b) && Tailed(log, Since(log, a, b) + i)
    ensures NameIn(Part(log, Since(log, a, b), b), i) == NameOf(log, Since(log, a, b) + i)
  {
    var c := Since(log, a, b);
    OrdinalIsBefore(log, t0, c, b, i, log[c + i].pos, Needs(log[c + i].op));
  }

  /** No TRUNCATE follows in the change's own transaction. */
  predicate Live(log: SourceLog, g: nat)
    requires g < |log|
  {
    forall j :: g < j < |log| && log[j].pos == log[g].pos ==> log[j].Change?
  }

  lemma {:induction false} BeforeGrows(log: SourceLog, g: nat, h: nat, pos: nat, k: Key)
    requires Tailed(log, g) && g < h <= |log| && Counts(log[g].op, k)
    requires forall j :: g <= j < h ==> log[j].Change? && log[j].pos == pos
    ensures Before(log, h, pos, k) > Before(log, g, pos, k)
  {
    if h > g + 1 {
      BeforeGrows(log, g, h - 1, pos, k);
    }
  }

  /** Two changes never share a name, so an image is reused only by its own. */
  lemma NamesDiffer(log: SourceLog, t0: Table, g: nat, h: nat)
    requires Written(log, t0) && Tailed(log, g) && Tailed(log, h) && g != h && Live(log, g) && Live(log, h)
    ensures NameOf(log, g) != NameOf(log, h)
  {
    var lo, hi := if g < h then g else h, if g < h then h else g;
    if NameOf(log, g) == NameOf(log, h) {
      forall j | lo <= j < hi
        ensures log[j].Change? && log[j].pos == log[lo].pos
      {
        assert PosAt(log, lo) <= PosAt(log, j) <= PosAt(log, hi);
      }
      BeforeGrows(log, lo, hi, log[lo].pos, Needs(log[lo].op));
      assert false;
    }
  }

  lemma CutSeparates(log: SourceLog, t0: Table, g: nat, b: nat, j: nat)
    requires Written(log, t0) && Cut(log, b) && g < b <= j < |log|
    ensures log[g].pos < log[j].pos
  {
    assert PosAt(log, g) <= PosAt(log, b - 1) < PosAt(log, b) <= PosAt(log, j);
  }

  /** A window's part after its last TRUNCATE holds only live changes. */
  lemma PartIsLive(log: SourceLog, t0: Table, a: nat, b: nat, g: nat)
    requires Written(log, t0) && Cut(log, b) && a <= b <= |log| && Since(log, a, b) <= g < b
    ensures Live(log, g)
  {
    forall j | g < j < |log|
      ensures j >= b ==> log[g].pos < log[j].pos
    {
      if j >= b {
        CutSeparates(log, t0, g, b, j);
      }
    }
  }
}
