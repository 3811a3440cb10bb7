// The shared state table: rows are appended, readers take the newest per key,
// and compactions delete superseded rows beside concurrent inserts.
module StateTable {
  /** Whose watermark a row is. Source `BARRIER` is a replace's barrier: it
      invalidates every older row of its table. */
  datatype Key = Key(dest: nat, source: nat)

  const BARRIER: nat := 0

  /** A watermark row; `id` tells equal rows apart. */
  datatype Row = Row(id: nat, key: Key, synced: nat, watermark: nat)

  /** A compaction under way and the snapshot it decided on. */
  datatype State = State(rows: set<Row>, running: map<nat, set<Row>>)

  /** A row a reader of `k` may answer with. */
  ghost predicate Newest(rows: set<Row>, k: Key, r: Row) {
    r in rows && r.key == k && forall q :: q in rows && q.key == k ==> q.synced <= r.synced
  }

  /** Strictly older than the newest row of its own key. */
  predicate Superseded(rows: set<Row>, r: Row) {
    exists q :: q in rows && q.key == r.key && r.synced < q.synced
  }

  predicate Insert(s: State, s': State, r: Row) {
    s' == s.(rows := s.rows + {r})
  }

  predicate BeginCompact(s: State, s': State, c: nat) {
    c !in s.running && s' == s.(running := s.running[c := s.rows])
  }

  /** The delete commits what its snapshot showed superseded. Rows another
      compaction already removed are simply not there. */
  ghost predicate CommitCompact(s: State, s': State, c: nat) {
    && c in s.running
    && s' == State(s.rows - (set r | r in s.running[c] && Superseded(s.running[c], r)), s.running - {c})
  }

  ghost predicate Next(s: State, s': State) {
    || (exists r :: Insert(s, s', r))
    || (exists c :: BeginCompact(s, s', c))
    || (exists c :: CommitCompact(s, s', c))
  }

  /** A row of a snapshot that is gone from the table is outdone by one that
      is not: compactions never take a key's newest. */
  ghost predicate Inv(s: State) {
    forall c, r :: c in s.running && r in s.running[c] && r !in s.rows ==> Superseded(s.rows, r)
  }

  lemma {:induction false} NewestAbove(rows: set<Row>, r: Row) returns (q: Row)
    requires r in rows
    ensures Newest(rows, r.key, q) && q.synced >= r.synced
    decreases |set x | x in rows && x.synced > r.synced|
  {
    if x :| x in rows && x.key == r.key && x.synced > r.synced {
      var up := set y | y in rows && y.synced > r.synced;
      var upx := set y | y in rows && y.synced > x.synced;
      assert upx <= up - {x};
      Smaller(upx, up, x);
      q := NewestAbove(rows, x);
    } else {
      q := r;
    }
  }

  lemma Smaller(a: set<Row>, b: set<Row>, x: Row)
    requires x in b && a <= b - {x}
    ensures |a| < |b|
  {
    var rest := b - {x};
    assert |rest - a| == |rest| - |a|;
    assert |rest| == |b| - 1;
  }

  /** What a compaction deletes is outdone in the table as it is now. */
  lemma DeletedIsOutdone(s: State, c: nat, r: Row)
    requires Inv(s) && c in s.running && r in s.running[c] && Superseded(s.running[c], r)
    ensures Superseded(s.rows, r)
  {
    var q :| q in s.running[c] && q.key == r.key && r.synced < q.synced;
    if q !in s.rows {
      assert Superseded(s.rows, q);
      var p :| p in s.rows && p.key == q.key && q.synced < p.synced;
    }
  }

  lemma CommitKeepsNewest(s: State, s': State, c: nat, k: Key, r: Row)
    requires Inv(s) && CommitCompact(s, s', c) && Newest(s.rows, k, r)
    ensures Newest(s'.rows, k, r)
  {
    if r !in s'.rows {
      DeletedIsOutdone(s, c, r);
    }
  }

  lemma StillOutdone(s: State, s': State, c: nat, r: Row)
    requires Inv(s) && CommitCompact(s, s', c) && Superseded(s.rows, r)
    ensures Superseded(s'.rows, r)
  {
    var q :| q in s.rows && q.key == r.key && r.synced < q.synced;
    var m := NewestAbove(s.rows, q);
    CommitKeepsNewest(s, s', c, r.key, m);
  }

  lemma NextKeeps(s: State, s': State)
    requires Inv(s) && Next(s, s')
    ensures Inv(s')
  {
    forall d, r | d in s'.running && r in s'.running[d] && r !in s'.rows
      ensures Superseded(s'.rows, r)
    {
      if c :| CommitCompact(s, s', c) {
        if r in s.rows {
          DeletedIsOutdone(s, c, r);
        }
        StillOutdone(s, s', c, r);
      } else {
        assert Superseded(s.rows, r);
        var q :| q in s.rows && q.key == r.key && r.synced < q.synced;
        assert q in s'.rows;
      }
    }
  }

  /** A key's newest row is the same before and after a compaction. */
  lemma CompactionInvisible(s: State, s': State, c: nat, k: Key, r: Row)
    requires Inv(s) && CommitCompact(s, s', c)
    ensures Newest(s'.rows, k, r) <==> Newest(s.rows, k, r)
  {
    if Newest(s.rows, k, r) {
      CommitKeepsNewest(s, s', c, k, r);
    }
    if Newest(s'.rows, k, r) {
      var m := NewestAbove(s.rows, r);
      CommitKeepsNewest(s, s', c, k, m);
    }
  }

  // ------------------------------------------------------------------
  // Readers: newest row of the key, if it is newer than the table's barrier;
  // and whether any other source has such a row.

  ghost predicate PastBarrier(rows: set<Row>, dest: nat, synced: nat) {
    forall q :: q in rows && q.key == Key(dest, BARRIER) ==> q.synced < synced
  }

  ghost predicate Answers(rows: set<Row>, k: Key, r: Row) {
    Newest(rows, k, r) && PastBarrier(rows, k.dest, r.synced)
  }

  ghost predicate Siblings(rows: set<Row>, k: Key) {
    exists r :: r in rows && r.key.dest == k.dest && r.key.source != BARRIER && r.key.source != k.source
                && PastBarrier(rows, k.dest, r.synced)
  }

  lemma BarrierUnchanged(s: State, s': State, c: nat, dest: nat, synced: nat)
    requires Inv(s) && CommitCompact(s, s', c)
    ensures PastBarrier(s'.rows, dest, synced) <==> PastBarrier(s.rows, dest, synced)
  {
    if PastBarrier(s'.rows, dest, synced) {
      forall q | q in s.rows && q.key == Key(dest, BARRIER)
        ensures q.synced < synced
      {
        var m := NewestAbove(s.rows, q);
        CommitKeepsNewest(s, s', c, q.key, m);
      }
    }
  }

  lemma SiblingsUnchanged(s: State, s': State, c: nat, k: Key)
    requires Inv(s) && CommitCompact(s, s', c)
    ensures Siblings(s'.rows, k) <==> Siblings(s.rows, k)
  {
    if Siblings(s.rows, k) {
      var r :| r in s.rows && r.key.dest == k.dest && r.key.source != BARRIER && r.key.source != k.source
               && PastBarrier(s.rows, k.dest, r.synced);
      var m := NewestAbove(s.rows, r);
      CommitKeepsNewest(s, s', c, r.key, m);
      BarrierUnchanged(s, s', c, k.dest, m.synced);
      assert m in s'.rows;
    }
    if Siblings(s'.rows, k) {
      var r :| r in s'.rows && r.key.dest == k.dest && r.key.source != BARRIER && r.key.source != k.source
               && PastBarrier(s'.rows, k.dest, r.synced);
      BarrierUnchanged(s, s', c, k.dest, r.synced);
      assert r in s.rows;
    }
  }

  /** A compaction, whatever committed between its snapshot and its delete and
      whatever other compactions run beside it, changes no reader's answer,
      barriers and siblings included. */
  lemma ReadersUnchanged(s: State, s': State, c: nat, k: Key, r: Row)
    requires Inv(s) && CommitCompact(s, s', c)
    ensures Answers(s'.rows, k, r) <==> Answers(s.rows, k, r)
    ensures Siblings(s'.rows, k) <==> Siblings(s.rows, k)
  {
    CompactionInvisible(s, s', c, k, r);
    BarrierUnchanged(s, s', c, k.dest, r.synced);
    SiblingsUnchanged(s, s', c, k);
  }

  ghost predicate History(h: seq<State>) {
    && |h| > 0 && h[0].running == map[]
    && forall i {:trigger StepAt(h, i)} :: 0 <= i < |h| - 1 ==> StepAt(h, i)
  }

  ghost predicate StepAt(h: seq<State>, i: nat)
    requires i + 1 < |h|
  {
    Next(h[i], h[i + 1])
  }

  lemma {:induction false} HistoryKeeps(h: seq<State>, i: nat)
    requires History(h) && i < |h|
    ensures Inv(h[i])
  {
    if i > 0 {
      var j := i - 1;
      HistoryKeeps(h, j);
      assert StepAt(h, j);
      NextKeeps(h[j], h[i]);
    }
  }

  /** A row that was inserted and never outdone is there for ever: no history
      of compactions loses a key's newest watermark. */
  lemma {:induction false} NewestSurvives(h: seq<State>, i: nat, j: nat, r: Row)
    requires History(h) && i <= j < |h| && r in h[i].rows
    ensures r in h[j].rows || Superseded(h[j].rows, r)
  {
    if i < j {
      var k := j - 1;
      NewestSurvives(h, i, k, r);
      HistoryKeeps(h, k);
      assert StepAt(h, k);
      if c :| CommitCompact(h[k], h[j], c) {
        if r in h[k].rows && r !in h[j].rows {
          DeletedIsOutdone(h[k], c, r);
        }
        if Superseded(h[k].rows, r) {
          StillOutdone(h[k], h[j], c, r);
        }
      } else if Superseded(h[k].rows, r) {
        var q :| q in h[k].rows && q.key == r.key && r.synced < q.synced;
        assert q in h[j].rows;
      }
    }
  }

  /** A compaction goes by the table as it was when it began. */
  lemma {:induction false} SnapshotStays(h: seq<State>, i: nat, j: nat, c: nat)
    requires History(h) && i < j < |h| && BeginCompact(h[i], h[i + 1], c)
    requires forall k :: i < k <= j ==> c in h[k].running
    ensures c in h[j].running && h[j].running[c] == h[i].rows
  {
    if i + 1 < j {
      SnapshotStays(h, i, j - 1, c);
      assert StepAt(h, j - 1);
    }
  }

  /** And it does compact: a row that was in the table when it began, with a
      newer one of its key, is gone when it commits. */
  lemma SupersededGone(h: seq<State>, i: nat, j: nat, c: nat, r: Row, q: Row)
    requires History(h) && i < j && j + 1 < |h| && BeginCompact(h[i], h[i + 1], c) && CommitCompact(h[j], h[j + 1], c)
    requires forall k :: i < k <= j ==> c in h[k].running
    requires r in h[i].rows && q in h[i].rows && q.key == r.key && r.synced < q.synced
    ensures r !in h[j + 1].rows
  {
    SnapshotStays(h, i, j, c);
    assert Superseded(h[j].running[c], r);
  }
}
