// The chain end to end: the source's changes, the log they make, the window
// the collapser seals, what the landing machine lands of it, and the table.
module Drained {
  import opened Rows
  import opened Tail
  import opened Collapse
  import opened Journal
  import opened SourceLaw
  import L = Landing

  /** The log entries of one decoded change. */
  function EntriesOf(ix: seq<nat>, e: Event): (r: SourceLog)
    requires Readable(ix, e.change)
    ensures e.change.Truncate? ==> r == [Truncated(e.pos)]
    ensures !e.change.Truncate? ==> forall i :: 0 <= i < |r| ==> r[i].Change?
  {
    if e.change.Truncate? then [Truncated(e.pos)]
    else
      var ops := Elementary(ix, ViewOf([]), e.change);
      seq(|ops|, i requires 0 <= i < |ops| => Journal.Change(e.pos, ops[i]))
  }

  function Entries(ix: seq<nat>, evs: seq<Event>): SourceLog
    requires AllReadable(ix, evs)
  {
    if evs == [] then [] else Entries(ix, evs[..|evs| - 1]) + EntriesOf(ix, evs[|evs| - 1])
  }

  lemma {:induction false} SinceExtends(log: SourceLog, a: nat, m: nat, b: nat)
    requires a <= m <= b <= |log| && NoTruncate(log, m, b)
    ensures Since(log, a, b) == Since(log, a, m)
  {
    if m < b {
      SinceExtends(log, a, m, b - 1);
    }
  }

  /** What the collapser takes a change for is what the log says, whatever it
      has seen, as long as a full old image names the row at its key. */
  lemma ElementaryAlike(ix: seq<nat>, p: seq<Event>, c: Collapse.Change, t: Table)
    requires AllReadable(ix, p) && Readable(ix, c) && OldImagesHold(ix, p, t) && OldImageHolds(ix, c, Replay(ix, p, t))
    ensures Elementary(ix, ViewOf(Log(ix, p)), c) == Elementary(ix, ViewOf([]), c)
  {
    var v := ViewOf(Log(ix, p));
    if KeyChanges(ix, c) && c.full {
      LogIsReplay(ix, p, t);
      NoOtherRow(ix, Log(ix, p), c, Start(p, t));
      ElementaryNoOther(ix, v, c);
    } else {
      ElementaryNoOther(ix, v, c);
    }
  }

  lemma ElementaryNoOther(ix: seq<nat>, v: View, c: Collapse.Change)
    requires Readable(ix, c)
    requires KeyChanges(ix, c) && c.full ==> OtherRow(v, KeyAt(ix, c.before.value), c.before.value).None?
    ensures Elementary(ix, v, c) == Elementary(ix, ViewOf([]), c)
  {
  }

  lemma PartAppends(log: SourceLog, c: nat, m: nat, b: nat, e: Event, ops: seq<Op>)
    requires c <= m <= b <= |log| && NoTruncate(log, c, b) && b - m == |ops|
    requires forall i :: 0 <= i < |ops| ==> log[m + i] == Journal.Change(e.pos, ops[i])
    ensures Part(log, c, b) == Part(log, c, m) + Tag(e.pos, ops)
  {
    var l, r := Part(log, c, b), Part(log, c, m) + Tag(e.pos, ops);
    forall i | 0 <= i < |l|
      ensures l[i] == r[i]
    {
      if i >= m - c {
        assert log[m + (i - (m - c))] == Journal.Change(e.pos, ops[i - (m - c)]);
      }
    }
  }

  /** `log[m..b]` is what the window's last change wrote, `log[a..m]` the rest. */
  predicate EndsWithLast(ix: seq<nat>, log: SourceLog, w: seq<Event>, a: nat, m: nat, b: nat)
    requires w != [] && AllReadable(ix, w)
  {
    && a <= m <= b <= |log| && log[a..m] == Entries(ix, w[..|w| - 1])
    && log[m..b] == EntriesOf(ix, w[|w| - 1])
  }

  lemma LastChange(ix: seq<nat>, log: SourceLog, w: seq<Event>, a: nat, b: nat) returns (m: nat)
    requires w != [] && AllReadable(ix, w) && a <= b <= |log| && log[a..b] == Entries(ix, w)
    ensures EndsWithLast(ix, log, w, a, m, b)
    ensures !w[|w| - 1].change.Truncate? ==> NoTruncate(log, m, b)
    ensures w[|w| - 1].change.Truncate? ==> b > a && log[b - 1].Truncated? && m == b - 1
  {
    var head, more := Entries(ix, w[..|w| - 1]), EntriesOf(ix, w[|w| - 1]);
    m := a + |head|;
    hide EntriesOf;
    SplitAt(log, a, m, b, head, more);
    LastIsPlain(ix, log, w[|w| - 1], m, b);
  }

  lemma SplitAt(log: SourceLog, a: nat, m: nat, b: nat, head: SourceLog, more: SourceLog)
    requires a <= b <= |log| && log[a..b] == head + more && m == a + |head|
    ensures m <= b && log[a..m] == head && log[m..b] == more
  {
    assert log[a..m] == log[a..b][..|head|];
    assert log[m..b] == log[a..b][|head|..];
  }

  lemma LastIsPlain(ix: seq<nat>, log: SourceLog, e: Event, m: nat, b: nat)
    requires m <= b <= |log| && Readable(ix, e.change) && log[m..b] == EntriesOf(ix, e)
    ensures !e.change.Truncate? ==> NoTruncate(log, m, b)
    ensures e.change.Truncate? ==> m == b - 1 && log[m].Truncated?
  {
    forall g | m <= g < b
      ensures log[g] == EntriesOf(ix, e)[g - m]
    {
      assert log[m..b][g - m] == log[g];
    }
  }

  lemma LastPart(ix: seq<nat>, log: SourceLog, e: Event, c: nat, m: nat, b: nat)
    requires Readable(ix, e.change) && !e.change.Truncate? && c <= m <= b <= |log| && NoTruncate(log, c, b)
    requires log[m..b] == EntriesOf(ix, e)
    ensures Part(log, c, b) == Part(log, c, m) + Tag(e.pos, Elementary(ix, ViewOf([]), e.change))
  {
    var ops := Elementary(ix, ViewOf([]), e.change);
    forall i | 0 <= i < |ops|
      ensures log[m + i] == Journal.Change(e.pos, ops[i])
    {
      assert log[m..b][i] == log[m + i];
    }
    PartAppends(log, c, m, b, e, ops);
  }

  /** A window cut out of the source's log anywhere is, past its last
      TRUNCATE, the changes the collapser has seen. */
  lemma {:induction false} WindowIsLog(ix: seq<nat>, log: SourceLog, w: seq<Event>, a: nat, b: nat, t: Table)
    requires AllReadable(ix, w) && OldImagesHold(ix, w, t) && a <= b <= |log| && log[a..b] == Entries(ix, w)
    ensures L.Window(log, a, b) == Log(ix, w)
  {
    if w != [] {
      var p, e := w[..|w| - 1], w[|w| - 1];
      var m := LastChange(ix, log, w, a, b);
      if !e.change.Truncate? {
        WindowIsLog(ix, log, p, a, m, t);
        SinceExtends(log, a, m, b);
        ElementaryAlike(ix, p, e.change, t);
        LastPart(ix, log, e, Since(log, a, b), m, b);
      }
    }
  }

  /** So the deletes, images, tail and positions the collapser sealed for the
      window are exactly what the machine's set phases and tail land. */
  lemma SealedIsLanded(ix: seq<nat>, log: SourceLog, w: seq<Event>, a: nat, b: nat, c: Collapsed, t: Table)
    requires AllReadable(ix, w) && OldImagesHold(ix, w, t) && NetOf(ix, w, c)
    requires a <= b <= |log| && log[a..b] == Entries(ix, w)
    ensures var l := L.Window(log, a, b);
            && c.deletes == DelKeys(Head(l)) && Lists(ix, c.upserts, Images(Head(l)))
            && c.residue == Ops(Residue(l)) && c.residueAt == Positions(Residue(l))
            && (c.truncate <==> Since(log, a, b) > a)
  {
    WindowIsLog(ix, log, w, a, b, t);
    TruncatesIffSince(ix, log, w, a, b);
  }

  lemma {:induction false} TruncatesIffSince(ix: seq<nat>, log: SourceLog, w: seq<Event>, a: nat, b: nat)
    requires AllReadable(ix, w) && a <= b <= |log| && log[a..b] == Entries(ix, w)
    ensures Truncates(w) <==> Since(log, a, b) > a
  {
    if w != [] {
      var p, e := w[..|w| - 1], w[|w| - 1];
      var m := LastChange(ix, log, w, a, b);
      TruncatesIffSince(ix, log, p, a, m);
      TruncatesSnoc(w);
      if !e.change.Truncate? {
        SinceExtends(log, a, m, b);
      }
    }
  }

  lemma TruncatesSnoc(w: seq<Event>)
    requires w != []
    ensures Truncates(w) <==> Truncates(w[..|w| - 1]) || w[|w| - 1].change.Truncate?
  {
    var p := w[..|w| - 1];
    assert forall i :: 0 <= i < |p| ==> p[i] == w[i];
  }

  // ------------------------------------------------------------------
  // The log's own table is the replay of the changes.

  lemma {:induction false} SourcePrefix(a: SourceLog, b: SourceLog, t0: Table, g: nat)
    requires g <= |a|
    ensures Source(a + b, t0, g) == Source(a, t0, g)
  {
    if g > 0 {
      SourcePrefix(a, b, t0, g - 1);
    }
  }

  lemma EntriesSource(ix: seq<nat>, head: SourceLog, e: Event, t0: Table)
    requires Readable(ix, e.change) && !e.change.Truncate?
    ensures var log := head + EntriesOf(ix, e);
            var ops := Elementary(ix, ViewOf([]), e.change);
            Source(log, t0, |log|) == ApplyAll(Tag(e.pos, ops), Source(head, t0, |head|))
  {
    var log := head + EntriesOf(ix, e);
    var m := |head|;
    assert log[m..] == EntriesOf(ix, e) && log[m..|log|] == log[m..];
    assert NoTruncate(log, m, |log|) by {
      forall g | m <= g < |log|
        ensures log[g].Change?
      {
        assert log[g] == EntriesOf(ix, e)[g - m];
      }
    }
    LastPart(ix, log, e, m, m, |log|);
    assert Part(log, m, m) == [];
    assert Part(log, m, |log|) == Tag(e.pos, Elementary(ix, ViewOf([]), e.change));
    PartIsSource(log, t0, m, |log|);
    SourcePrefix(head, EntriesOf(ix, e), t0, m);
  }

  lemma ElementaryReplays(ix: seq<nat>, pos: nat, c: Collapse.Change, t: Table)
    requires Readable(ix, c) && !c.Truncate?
    ensures ApplyAll(Tag(pos, Elementary(ix, ViewOf([]), c)), t) == ReplayOne(ix, c, t)
  {
    if KeyChanges(ix, c) && !HasToast(NewImage(ix, c)) {
      var ops := Elementary(ix, ViewOf([]), c);
      assert ops == [ops[0], ops[1]];
      TwoOps(pos, ops[0], ops[1], t);
    } else {
      PlainIsReplay(ix, ViewOf([]), pos, c, t);
    }
  }

  lemma {:induction false} SourceIsReplay(ix: seq<nat>, evs: seq<Event>, t0: Table)
    requires AllReadable(ix, evs)
    ensures Source(Entries(ix, evs), t0, |Entries(ix, evs)|) == Replay(ix, evs, t0)
  {
    if evs != [] {
      var p, e := evs[..|evs| - 1], evs[|evs| - 1];
      SourceIsReplay(ix, p, t0);
      if !e.change.Truncate? {
        EntriesSource(ix, Entries(ix, p), e, t0);
        ElementaryReplays(ix, e.pos, e.change, Replay(ix, p, t0));
      }
    }
  }

  // ------------------------------------------------------------------
  // A source that logs lawful changes in commit order writes a lawful log.

  predicate InCommitOrder(evs: seq<Event>) {
    && (forall i :: 0 <= i < |evs| ==> evs[i].pos > 0)
    && (forall i, j :: 0 <= i < j < |evs| ==> evs[i].pos <= evs[j].pos)
  }

  lemma EntriesOfPos(ix: seq<nat>, e: Event, i: nat)
    requires Readable(ix, e.change) && i < |EntriesOf(ix, e)|
    ensures EntriesOf(ix, e)[i].pos == e.pos
  {
  }

  /** The commit positions of a log's entries, bounded by its last change's. */
  predicate Ascending(log: SourceLog, last: nat) {
    && (forall g :: 0 <= g < |log| ==> 0 < log[g].pos <= last)
    && (forall g, h :: 0 <= g < h < |log| ==> log[g].pos <= log[h].pos)
  }

  lemma AscendingAppends(log: SourceLog, more: SourceLog, last: nat, pos: nat)
    requires Ascending(log, last) && last <= pos && pos > 0 && forall i :: 0 <= i < |more| ==> more[i].pos == pos
    ensures Ascending(log + more, pos)
  {
  }

  lemma {:induction false} EntriesAscend(ix: seq<nat>, evs: seq<Event>)
    requires AllReadable(ix, evs) && InCommitOrder(evs)
    ensures Ascending(Entries(ix, evs), if evs == [] then 0 else evs[|evs| - 1].pos)
  {
    if evs != [] {
      var p, e := evs[..|evs| - 1], evs[|evs| - 1];
      EntriesAscend(ix, p);
      forall i | 0 <= i < |EntriesOf(ix, e)|
        ensures EntriesOf(ix, e)[i].pos == e.pos
      {
        EntriesOfPos(ix, e, i);
      }
      AscendingAppends(Entries(ix, p), EntriesOf(ix, e), if p == [] then 0 else p[|p| - 1].pos, e.pos);
    }
  }

  /** A change that needs a row is alone in its entries. */
  lemma NeedsAlone(ix: seq<nat>, e: Event, i: nat)
    requires Readable(ix, e.change) && i < |EntriesOf(ix, e)| && EntriesOf(ix, e)[i].Change?
    requires NeedsBase(EntriesOf(ix, e)[i].op)
    ensures i == 0 && e.change.Update? && HasToast(NewImage(ix, e.change))
  {
  }

  lemma EntryFound(ix: seq<nat>, n: nat, e: Event, t: Table)
    requires Readable(ix, e.change) && LegalChange(ix, n, e.change, t) && e.change.Update?
    requires HasToast(NewImage(ix, e.change))
    ensures |EntriesOf(ix, e)| == 1 && EntriesOf(ix, e)[0].Change? && Finds(EntriesOf(ix, e)[0].op, t)
  {
  }

  /** Only the first of the appended entries can need a row, and it finds it. */
  lemma AppendedFound(head: SourceLog, more: SourceLog, t0: Table, g: nat)
    requires |head| <= g < |head + more|
    requires var e := more[g - |head|];
             e.Change? && NeedsBase(e.op) ==> g == |head| && Finds(e.op, Source(head, t0, |head|))
    ensures FoundAt(head + more, t0, g)
  {
    SourcePrefix(head, more, t0, |head|);
    assert (head + more)[g] == more[g - |head|];
  }

  lemma LastFound(ix: seq<nat>, n: nat, p: seq<Event>, e: Event, t0: Table, g: nat)
    requires AllReadable(ix, p) && Readable(ix, e.change) && LegalChange(ix, n, e.change, Replay(ix, p, t0))
    requires |Entries(ix, p)| <= g < |Entries(ix, p) + EntriesOf(ix, e)|
    ensures FoundAt(Entries(ix, p) + EntriesOf(ix, e), t0, g)
  {
    var head, more := Entries(ix, p), EntriesOf(ix, e);
    if more[g - |head|].Change? && NeedsBase(more[g - |head|].op) {
      NeedsAlone(ix, e, g - |head|);
      SourceIsReplay(ix, p, t0);
      EntryFound(ix, n, e, Replay(ix, p, t0));
    }
    AppendedFound(head, more, t0, g);
  }

  lemma {:induction false} EntriesFound(ix: seq<nat>, n: nat, evs: seq<Event>, t0: Table, g: nat)
    requires AllReadable(ix, evs) && Legal(ix, n, evs, t0) && g < |Entries(ix, evs)|
    ensures FoundAt(Entries(ix, evs), t0, g)
  {
    var p := evs[..|evs| - 1];
    var head := Entries(ix, p);
    if g < |head| {
      EntriesFound(ix, n, p, t0, g);
      SourcePrefix(head, EntriesOf(ix, evs[|evs| - 1]), t0, g);
    } else {
      LastFound(ix, n, p, evs[|evs| - 1], t0, g);
    }
  }

  lemma EntriesWritten(ix: seq<nat>, n: nat, evs: seq<Event>, t0: Table)
    requires AllReadable(ix, evs) && InCommitOrder(evs) && Legal(ix, n, evs, t0)
    ensures Written(Entries(ix, evs), t0)
  {
    EntriesAscend(ix, evs);
    forall g | 0 <= g < |Entries(ix, evs)|
      ensures FoundAt(Entries(ix, evs), t0, g)
    {
      EntriesFound(ix, n, evs, t0, g);
    }
  }

  lemma AppendedEntries(a: SourceLog, r: SourceLog, more: SourceLog)
    ensures (a + r) + more == a + (r + more)
  {
  }

  lemma {:induction false} EntriesPrefix(ix: seq<nat>, evs: seq<Event>, m: nat) returns (rest: SourceLog)
    requires AllReadable(ix, evs) && m <= |evs| && AllReadable(ix, evs[..m])
    ensures Entries(ix, evs) == Entries(ix, evs[..m]) + rest
  {
    if m == |evs| {
      assert evs[..m] == evs;
      rest := [];
    } else {
      var p := evs[..|evs| - 1];
      assert p[..m] == evs[..m];
      var r := EntriesPrefix(ix, p, m);
      AppendedEntries(Entries(ix, evs[..m]), r, EntriesOf(ix, evs[|evs| - 1]));
      rest := r + EntriesOf(ix, evs[|evs| - 1]);
    }
  }

  /** End to end: whatever runs died where and however the windows were cut,
      once a commit has reached every attempt the destination is the source's
      changes replayed up to there, one by one. */
  lemma DrainedIsReplay(ix: seq<nat>, n: nat, evs: seq<Event>, t0: Table, h: seq<L.State>, i: nat, m: nat)
    requires AllReadable(ix, evs) && InCommitOrder(evs) && Legal(ix, n, evs, t0)
    requires L.History(Entries(ix, evs), t0, h) && i < |h| && h[i].phase.Idle? && h[i].a == h[i].high
    requires m <= |evs| && AllReadable(ix, evs[..m]) && h[i].a == |Entries(ix, evs[..m])|
    ensures h[i].table == Replay(ix, evs[..m], t0)
  {
    EntriesWritten(ix, n, evs, t0);
    L.CommittedIsSource(Entries(ix, evs), t0, h, i);
    var rest := EntriesPrefix(ix, evs, m);
    SourcePrefix(Entries(ix, evs[..m]), rest, t0, h[i].a);
    SourceIsReplay(ix, evs[..m], t0);
  }
}
