// `<table>__current`: the table a change log stands for.
module CurrentView {
  import opened Rows
  import C = Changelog

  /** What a record says: a baseline row of the bootstrap, an insert or update,
      a delete, or a TRUNCATE. */
  datatype Kind = Base(key: Key, row: Row) | Image(key: Key, row: Row) | Deleted(key: Key) | Truncation

  datatype Rec = Rec(stamp: nat, num: nat, kind: Kind)

  predicate Names(k: Kind, key: Key) {
    !k.Truncation? && k.key == key
  }

  predicate Below(s1: nat, n1: nat, s2: nat, n2: nat) {
    s1 < s2 || (s1 == s2 && n1 < n2)
  }

  /** Newest first by stamp, then number; an event beats a baseline row. */
  predicate Outranks(a: Rec, b: Rec) {
    Below(b.stamp, b.num, a.stamp, a.num) || (a.stamp == b.stamp && a.num == b.num && !a.kind.Base? && b.kind.Base?)
  }

  // ------------------------------------------------------------------
  // The view, over the log's rows in whatever order they lie.

  /** The newest TRUNCATE's place, `(0, 0)` when there is none. */
  function Floor(log: seq<Rec>): (nat, nat) {
    if log == [] then (0, 0)
    else
      var f := Floor(log[1..]);
      if log[0].kind.Truncation? && Below(f.0, f.1, log[0].stamp, log[0].num) then (log[0].stamp, log[0].num) else f
  }

  predicate Visible(log: seq<Rec>, r: Rec) {
    Below(Floor(log).0, Floor(log).1, r.stamp, r.num)
  }

  /** The newest of the visible rows of a key. */
  function Newest(floor: (nat, nat), log: seq<Rec>, k: Key): Option<Rec> {
    if log == [] then None
    else
      var n := Newest(floor, log[1..], k);
      var r := log[0];
      if !Names(r.kind, k) || !Below(floor.0, floor.1, r.stamp, r.num) then n
      else if n.None? || Outranks(r, n.value) then Some(r)
      else n
  }

  /** A key whose newest record is a delete is gone: dropped after the pick. */
  function Current(log: seq<Rec>, k: Key): Option<Row> {
    var n := Newest(Floor(log), log, k);
    if n.None? || n.value.kind.Deleted? || n.value.kind.Truncation? then None else Some(n.value.kind.row)
  }

  // ------------------------------------------------------------------
  // The source: the bootstrap's snapshot and the events after it, in order.

  predicate IsEvent(k: Kind) {
    !k.Base?
  }

  function SourceAt(t0: Table, evs: seq<Kind>, k: Key): Option<Row> {
    if evs == [] then (if k in t0 then Some(t0[k]) else None)
    else
      var e := evs[|evs| - 1];
      if e.Truncation? then None
      else if e.key != k then SourceAt(t0, evs[..|evs| - 1], k)
      else if e.Deleted? then None
      else Some(e.row)
  }

  /** Where each event's record lies: in the source's order, from the
      bootstrap's stamp on. */
  predicate Places(places: seq<(nat, nat)>, s0: nat) {
    && s0 > 0
    && (forall i :: 0 <= i < |places| ==> places[i].0 >= s0)
    && (forall i, j :: 0 <= i < j < |places| ==> Below(places[i].0, places[i].1, places[j].0, places[j].1))
  }

  function EventRec(evs: seq<Kind>, places: seq<(nat, nat)>, i: nat): Rec
    requires i < |evs| == |places|
  {
    Rec(places[i].0, places[i].1, evs[i])
  }

  /** The log holds the snapshot as baseline rows numbered 0 at `s0`, every
      event at its place, and nothing else; the rows may lie in any order. */
  ghost predicate LogOf(log: seq<Rec>, t0: Table, s0: nat, evs: seq<Kind>, places: seq<(nat, nat)>) {
    && |places| == |evs| && Places(places, s0) && (forall i :: 0 <= i < |evs| ==> IsEvent(evs[i]))
    && (forall r :: r in log ==>
          if r.kind.Base? then r.stamp == s0 && r.num == 0 && r.kind.key in t0 && t0[r.kind.key] == r.kind.row
          else exists i :: 0 <= i < |evs| && r == EventRec(evs, places, i))
    && (forall i :: 0 <= i < |evs| ==> EventRec(evs, places, i) in log)
    && (forall k :: k in t0 ==> Rec(s0, 0, Base(k, t0[k])) in log)
  }

  // ------------------------------------------------------------------

  lemma {:induction false} FloorIs(log: seq<Rec>)
    ensures forall r :: r in log && r.kind.Truncation? ==> !Below(Floor(log).0, Floor(log).1, r.stamp, r.num)
    ensures Floor(log) == (0, 0) || exists r :: r in log && r.kind.Truncation? && Floor(log) == (r.stamp, r.num)
  {
    if log != [] {
      FloorIs(log[1..]);
      assert log == [log[0]] + log[1..];
    }
  }

  lemma {:induction false} NewestIs(floor: (nat, nat), log: seq<Rec>, k: Key)
    ensures var n := Newest(floor, log, k);
            && (n.Some? ==>
                  && n.value in log && Names(n.value.kind, k)
                  && Below(floor.0, floor.1, n.value.stamp, n.value.num))
            && (forall r :: r in log && Names(r.kind, k) && Below(floor.0, floor.1, r.stamp, r.num) ==>
                  n.Some? && !Outranks(r, n.value))
  {
    if log != [] {
      NewestIs(floor, log[1..], k);
      assert log == [log[0]] + log[1..];
    }
  }

  /** The last of the first `n` events that decides `k`: a TRUNCATE or a
      change of `k`; `-1` when there is none. */
  function Decides(evs: seq<Kind>, n: nat, k: Key): (j: int)
    requires n <= |evs|
    ensures -1 <= j < n
    ensures j >= 0 ==> evs[j].Truncation? || evs[j].key == k
    ensures forall i :: j < i < n ==> !evs[i].Truncation? && evs[i].key != k
  {
    if n == 0 then -1
    else if evs[n - 1].Truncation? || evs[n - 1].key == k then n - 1
    else Decides(evs, n - 1, k)
  }

  lemma {:induction false} SourceDecided(t0: Table, evs: seq<Kind>, n: nat, k: Key)
    requires n <= |evs|
    ensures SourceAt(t0, evs[..n], k) ==
            var j := Decides(evs, n, k);
            if j < 0 then (if k in t0 then Some(t0[k]) else None)
            else if evs[j].Truncation? || evs[j].Deleted? then None
            else Some(evs[j].row)
  {
    if n > 0 {
      SourceDecided(t0, evs, n - 1, k);
      assert evs[..n][..n - 1] == evs[..n - 1];
    }
  }

  lemma PlaceOrder(places: seq<(nat, nat)>, s0: nat, i: nat, j: nat)
    requires Places(places, s0) && i < |places| && j < |places|
    ensures Below(places[i].0, places[i].1, places[j].0, places[j].1) <==> i < j
  {
    if j < i {
      assert Below(places[j].0, places[j].1, places[i].0, places[i].1);
    }
  }

  /** An event is visible exactly when no TRUNCATE follows or is it; a baseline
      row exactly when there is no TRUNCATE. */
  lemma VisibleEvents(log: seq<Rec>, t0: Table, s0: nat, evs: seq<Kind>, places: seq<(nat, nat)>, i: nat)
    requires LogOf(log, t0, s0, evs, places) && i < |evs|
    ensures Visible(log, EventRec(evs, places, i)) <==> forall j :: i <= j < |evs| ==> !evs[j].Truncation?
  {
    FloorIs(log);
    forall j | i <= j < |evs| && evs[j].Truncation?
      ensures !Visible(log, EventRec(evs, places, i))
    {
      assert EventRec(evs, places, j) in log;
      PlaceOrder(places, s0, i, j);
    }
    if Floor(log) != (0, 0) {
      var r :| r in log && r.kind.Truncation? && Floor(log) == (r.stamp, r.num);
      var j :| 0 <= j < |evs| && r == EventRec(evs, places, j);
      PlaceOrder(places, s0, j, i);
    }
  }

  lemma VisibleBase(log: seq<Rec>, t0: Table, s0: nat, evs: seq<Kind>, places: seq<(nat, nat)>, r: Rec)
    requires LogOf(log, t0, s0, evs, places) && r.stamp == s0 && r.num == 0
    ensures Visible(log, r) <==> forall j :: 0 <= j < |evs| ==> !evs[j].Truncation?
  {
    FloorIs(log);
    forall j | 0 <= j < |evs| && evs[j].Truncation?
      ensures !Visible(log, r)
    {
      assert EventRec(evs, places, j) in log;
    }
    if Floor(log) != (0, 0) {
      var q :| q in log && q.kind.Truncation? && Floor(log) == (q.stamp, q.num);
      var j :| 0 <= j < |evs| && q == EventRec(evs, places, j);
    }
  }

  /** A record of `k` in the log is a baseline row or an event no later than
      the one that decides `k`. */
  lemma RecordOf(log: seq<Rec>, t0: Table, s0: nat, evs: seq<Kind>, places: seq<(nat, nat)>, k: Key, r: Rec)
    requires LogOf(log, t0, s0, evs, places) && r in log && Names(r.kind, k)
    ensures r.kind.Base? ==> r == Rec(s0, 0, Base(k, r.kind.row)) && k in t0 && t0[k] == r.kind.row
    ensures !r.kind.Base? ==>
          exists i :: 0 <= i <= Decides(evs, |evs|, k) && r == EventRec(evs, places, i) && Names(evs[i], k)
  {
    if !r.kind.Base? {
      var i :| 0 <= i < |evs| && r == EventRec(evs, places, i);
      assert i <= Decides(evs, |evs|, k);
    }
  }

  lemma NewestBeats(log: seq<Rec>, k: Key, r: Rec)
    requires r in log && Names(r.kind, k) && Visible(log, r)
    requires forall q :: q in log && Names(q.kind, k) && q != r ==> Outranks(r, q)
    ensures Newest(Floor(log), log, k) == Some(r)
  {
    NewestIs(Floor(log), log, k);
  }

  lemma DecidedByEvent(log: seq<Rec>, t0: Table, s0: nat, evs: seq<Kind>, places: seq<(nat, nat)>, k: Key)
    requires LogOf(log, t0, s0, evs, places)
    requires Decides(evs, |evs|, k) >= 0 && !evs[Decides(evs, |evs|, k)].Truncation?
    ensures Newest(Floor(log), log, k) == Some(EventRec(evs, places, Decides(evs, |evs|, k)))
  {
    var j := Decides(evs, |evs|, k);
    var r := EventRec(evs, places, j);
    VisibleEvents(log, t0, s0, evs, places, j);
    forall q | q in log && Names(q.kind, k) && q != r
      ensures Outranks(r, q)
    {
      LaterOutranks(log, t0, s0, evs, places, k, q);
    }
    hide Floor, Visible, Outranks;
    NewestBeats(log, k, r);
  }

  lemma LaterOutranks(log: seq<Rec>, t0: Table, s0: nat, evs: seq<Kind>, places: seq<(nat, nat)>, k: Key, q: Rec)
    requires LogOf(log, t0, s0, evs, places) && Decides(evs, |evs|, k) >= 0
    requires q in log && Names(q.kind, k) && q != EventRec(evs, places, Decides(evs, |evs|, k))
    ensures Outranks(EventRec(evs, places, Decides(evs, |evs|, k)), q)
  {
    var j := Decides(evs, |evs|, k);
    RecordOf(log, t0, s0, evs, places, k, q);
    if !q.kind.Base? {
      var i :| 0 <= i <= j && q == EventRec(evs, places, i) && Names(evs[i], k);
      PlaceOrder(places, s0, i, j);
    }
  }

  lemma DecidedByTruncate(log: seq<Rec>, t0: Table, s0: nat, evs: seq<Kind>, places: seq<(nat, nat)>, k: Key)
    requires LogOf(log, t0, s0, evs, places)
    requires Decides(evs, |evs|, k) >= 0 && evs[Decides(evs, |evs|, k)].Truncation?
    ensures Newest(Floor(log), log, k) == None
  {
    var j := Decides(evs, |evs|, k);
    NewestIs(Floor(log), log, k);
    forall r | r in log && Names(r.kind, k)
      ensures !Visible(log, r)
    {
      RecordOf(log, t0, s0, evs, places, k, r);
      if r.kind.Base? {
        VisibleBase(log, t0, s0, evs, places, r);
      } else {
        var i :| 0 <= i <= j && r == EventRec(evs, places, i) && Names(evs[i], k);
        VisibleEvents(log, t0, s0, evs, places, i);
      }
    }
  }

  lemma DecidedByBase(log: seq<Rec>, t0: Table, s0: nat, evs: seq<Kind>, places: seq<(nat, nat)>, k: Key)
    requires LogOf(log, t0, s0, evs, places) && Decides(evs, |evs|, k) < 0
    ensures Newest(Floor(log), log, k) == if k in t0 then Some(Rec(s0, 0, Base(k, t0[k]))) else None
  {
    NewestIs(Floor(log), log, k);
    var n := Newest(Floor(log), log, k);
    if n.Some? {
      RecordOf(log, t0, s0, evs, places, k, n.value);
    }
    if k in t0 {
      VisibleBase(log, t0, s0, evs, places, Rec(s0, 0, Base(k, t0[k])));
      assert Rec(s0, 0, Base(k, t0[k])) in log;
    }
  }

  /** The view is the source's table, key by key, whatever order the log's
      rows lie in, and whether or not events collide with baseline stamps. */
  lemma ViewIsSource(log: seq<Rec>, t0: Table, s0: nat, evs: seq<Kind>, places: seq<(nat, nat)>, k: Key)
    requires LogOf(log, t0, s0, evs, places)
    ensures Current(log, k) == SourceAt(t0, evs, k)
  {
    var j := Decides(evs, |evs|, k);
    assert evs[..|evs|] == evs;
    SourceDecided(t0, evs, |evs|, k);
    if j < 0 {
      DecidedByBase(log, t0, s0, evs, places, k);
    } else if evs[j].Truncation? {
      DecidedByTruncate(log, t0, s0, evs, places, k);
    } else {
      DecidedByEvent(log, t0, s0, evs, places, k);
    }
  }

  // ------------------------------------------------------------------
  // The log the appending machine leaves: rows other releases had written,
  // then this stream's.

  function PlaceAt(r: C.LogRow): (nat, nat) {
    (r.stamp, r.num)
  }

  function RecAt(r: C.LogRow, k: Kind): Rec {
    Rec(r.stamp, r.num, k)
  }

  /** The older rows in their order: `ids[i]` is the `i`-th, no two at a place. */
  ghost predicate OlderInOrder(o: C.Origin, ids: seq<nat>, s0: nat) {
    && (forall i :: 0 <= i < |ids| ==> ids[i] in o.rows && o.rows[ids[i]].stamp >= s0)
    && (forall r :: r in o.rows ==> r in ids)
    && (forall i, j :: 0 <= i < j < |ids| ==> C.Earlier(o.rows[ids[i]], o.rows[ids[j]]))
  }

  /** A record of the log is a baseline row of the snapshot, an older row
      saying `olds[i]`, or this stream's event `first + e` saying `kinds[e]`. */
  ghost predicate RecordOk(r: Rec, rows: C.Log, o: C.Origin, ids: seq<nat>, olds: seq<Kind>, first: nat,
                           t0: Table, s0: nat, kinds: seq<Kind>) {
    if r.kind.Base? then r.stamp == s0 && r.num == 0 && r.kind.key in t0 && t0[r.kind.key] == r.kind.row
    else
      || (exists i :: 0 <= i < |ids| && i < |olds| && ids[i] in o.rows && r == RecAt(o.rows[ids[i]], olds[i]))
      || (exists i :: OwnAt(rows, i, first, |kinds|) && r == RecAt(rows[i], kinds[rows[i].event.value - first]))
  }

  predicate OwnAt(rows: C.Log, i: nat, first: nat, n: nat) {
    C.Own(rows, i) && first <= rows[i].event.value < first + n
  }

  ghost predicate Renders(log: seq<Rec>, rows: C.Log, o: C.Origin, ids: seq<nat>, olds: seq<Kind>, first: nat,
                          t0: Table, s0: nat, kinds: seq<Kind>) {
    && |ids| == |olds| && OlderInOrder(o, ids, s0)
    && (forall r :: r in log ==> RecordOk(r, rows, o, ids, olds, first, t0, s0, kinds))
    && (forall i :: 0 <= i < |ids| ==> RecAt(o.rows[ids[i]], olds[i]) in log)
    && (forall i :: OwnAt(rows, i, first, |kinds|) ==> RecAt(rows[i], kinds[rows[i].event.value - first]) in log)
    && (forall k :: k in t0 ==> Rec(s0, 0, Base(k, t0[k])) in log)
  }

  /** Where event `e` lies, once the log holds it. */
  ghost function PlaceOf(rows: C.Log, e: nat): (p: (nat, nat))
    requires C.Holds(rows, e)
    ensures exists i :: C.Own(rows, i) && rows[i].event.value == e && p == PlaceAt(rows[i])
  {
    var i :| C.Own(rows, i) && rows[i].event.value == e;
    PlaceAt(rows[i])
  }

  ghost function PlacesOf(rows: C.Log, o: C.Origin, ids: seq<nat>, first: nat, n: nat): (p: seq<(nat, nat)>)
    requires forall i :: 0 <= i < |ids| ==> ids[i] in o.rows
    requires C.Covers(rows, first, first + n)
    ensures |p| == |ids| + n
    ensures forall i :: 0 <= i < |ids| ==> p[i] == PlaceAt(o.rows[ids[i]])
    ensures forall e :: first <= e < first + n ==> p[|ids| + (e - first)] == PlaceOf(rows, e)
  {
    seq(|ids|, i requires 0 <= i < |ids| => PlaceAt(o.rows[ids[i]]))
    + seq(n, e requires 0 <= e < n && C.Holds(rows, first + e) => PlaceOf(rows, first + e))
  }

  /** What the invariant of the appending machine says about the places. */
  ghost predicate Placed(rows: C.Log, o: C.Origin, first: nat, n: nat, s0: nat) {
    && s0 > 0 && C.Ordered(rows) && C.ForeignFirst(rows) && C.ForeignKept(o, rows)
    && C.Covers(rows, first, first + n)
    && (forall i :: C.Own(rows, i) ==> rows[i].stamp >= s0)
  }

  lemma OwnPlaces(rows: C.Log, o: C.Origin, first: nat, n: nat, s0: nat, a: nat, b: nat)
    requires Placed(rows, o, first, n, s0) && a < b < n
    ensures var p, q := PlaceOf(rows, first + a), PlaceOf(rows, first + b);
            p.0 >= s0 && Below(p.0, p.1, q.0, q.1)
  {
    var p, q := PlaceOf(rows, first + a), PlaceOf(rows, first + b);
    var i :| C.Own(rows, i) && rows[i].event.value == first + a && p == PlaceAt(rows[i]);
    var j :| C.Own(rows, j) && rows[j].event.value == first + b && q == PlaceAt(rows[j]);
    assert C.Earlier(rows[i], rows[j]);
  }

  lemma OlderThenOwn(rows: C.Log, o: C.Origin, first: nat, n: nat, s0: nat, r: nat, e: nat)
    requires Placed(rows, o, first, n, s0) && r in o.rows && e < n
    ensures var p, q := PlaceAt(o.rows[r]), PlaceOf(rows, first + e);
            q.0 >= s0 && Below(p.0, p.1, q.0, q.1)
  {
    var q := PlaceOf(rows, first + e);
    var j :| C.Own(rows, j) && rows[j].event.value == first + e && q == PlaceAt(rows[j]);
    assert C.Earlier(rows[r], rows[j]);
  }

  /** Where the machine put event `first + n`. */
  lemma OwnPlaceAt(rows: C.Log, o: C.Origin, ids: seq<nat>, first: nat, n: nat, s0: nat, a: nat)
    requires Placed(rows, o, first, n, s0) && OlderInOrder(o, ids, s0) && |ids| <= a < |ids| + n
    ensures var e := first + (a - |ids|);
            C.Holds(rows, e) && PlacesOf(rows, o, ids, first, n)[a] == PlaceOf(rows, e) && PlaceOf(rows, e).0 >= s0
  {
    var e := first + (a - |ids|);
    assert C.Holds(rows, e);
    assert PlacesOf(rows, o, ids, first, n)[|ids| + (e - first)] == PlaceOf(rows, e);
  }

  lemma OwnPair(rows: C.Log, o: C.Origin, ids: seq<nat>, first: nat, n: nat, s0: nat, a: nat, b: nat)
    requires Placed(rows, o, first, n, s0) && OlderInOrder(o, ids, s0) && |ids| <= a < b < |ids| + n
    ensures var p := PlacesOf(rows, o, ids, first, n);
            Below(p[a].0, p[a].1, p[b].0, p[b].1)
  {
    hide C.Ordered, C.ForeignFirst, C.ForeignKept;
    OwnPlaceAt(rows, o, ids, first, n, s0, a);
    OwnPlaceAt(rows, o, ids, first, n, s0, b);
    OwnPlaces(rows, o, first, n, s0, a - |ids|, b - |ids|);
  }

  lemma MixedPair(rows: C.Log, o: C.Origin, ids: seq<nat>, first: nat, n: nat, s0: nat, a: nat, b: nat)
    requires Placed(rows, o, first, n, s0) && OlderInOrder(o, ids, s0) && a < |ids| <= b < |ids| + n
    ensures var p := PlacesOf(rows, o, ids, first, n);
            Below(p[a].0, p[a].1, p[b].0, p[b].1)
  {
    OwnPlaceAt(rows, o, ids, first, n, s0, b);
    OlderThenOwn(rows, o, first, n, s0, ids[a], b - |ids|);
  }

  lemma PlacesInOrder(rows: C.Log, o: C.Origin, ids: seq<nat>, first: nat, n: nat, s0: nat)
    requires Placed(rows, o, first, n, s0) && OlderInOrder(o, ids, s0)
    ensures Places(PlacesOf(rows, o, ids, first, n), s0)
  {
    var p := PlacesOf(rows, o, ids, first, n);
    forall a, b | 0 <= a < b < |p|
      ensures Below(p[a].0, p[a].1, p[b].0, p[b].1)
    {
      if a >= |ids| {
        OwnPair(rows, o, ids, first, n, s0, a, b);
      } else if b >= |ids| {
        MixedPair(rows, o, ids, first, n, s0, a, b);
      } else {
        assert C.Earlier(o.rows[ids[a]], o.rows[ids[b]]);
      }
    }
    forall a | 0 <= a < |p|
      ensures p[a].0 >= s0
    {
      if a >= |ids| {
        OwnPlaceAt(rows, o, ids, first, n, s0, a);
      }
    }
  }

  /** A row of the log and the place of its event are one. */
  lemma RowAtPlace(rows: C.Log, i: nat)
    requires C.Ordered(rows) && C.Own(rows, i)
    ensures C.Holds(rows, rows[i].event.value) && PlaceOf(rows, rows[i].event.value) == PlaceAt(rows[i])
  {
    var e := rows[i].event.value;
    var j :| C.Own(rows, j) && rows[j].event.value == e && PlaceOf(rows, e) == PlaceAt(rows[j]);
    assert i == j;
  }

  lemma OwnIsEvent(rows: C.Log, o: C.Origin, ids: seq<nat>, olds: seq<Kind>, first: nat, s0: nat, kinds: seq<Kind>,
                   i: nat)
    requires |ids| == |olds| && OlderInOrder(o, ids, s0) && Placed(rows, o, first, |kinds|, s0)
    requires OwnAt(rows, i, first, |kinds|)
    ensures var e := rows[i].event.value - first;
            RecAt(rows[i], kinds[e]) == EventRec(olds + kinds, PlacesOf(rows, o, ids, first, |kinds|), |ids| + e)
  {
    var e := rows[i].event.value - first;
    RowAtPlace(rows, i);
    OwnPlaceAt(rows, o, ids, first, |kinds|, s0, |ids| + e);
  }

  lemma RecordIsEvent(rows: C.Log, o: C.Origin, ids: seq<nat>, olds: seq<Kind>, first: nat,
                      t0: Table, s0: nat, kinds: seq<Kind>, r: Rec)
    requires |ids| == |olds| && OlderInOrder(o, ids, s0) && Placed(rows, o, first, |kinds|, s0)
    requires RecordOk(r, rows, o, ids, olds, first, t0, s0, kinds) && !r.kind.Base?
    ensures var evs, p := olds + kinds, PlacesOf(rows, o, ids, first, |kinds|);
            exists e :: 0 <= e < |evs| && r == EventRec(evs, p, e)
  {
    hide C.Ordered, C.ForeignFirst, C.ForeignKept;
    var evs, p := olds + kinds, PlacesOf(rows, o, ids, first, |kinds|);
    if i :| OwnAt(rows, i, first, |kinds|) && r == RecAt(rows[i], kinds[rows[i].event.value - first]) {
      OwnIsEvent(rows, o, ids, olds, first, s0, kinds, i);
      assert r == EventRec(evs, p, |ids| + (rows[i].event.value - first));
    } else {
      var i :| 0 <= i < |ids| && i < |olds| && ids[i] in o.rows && r == RecAt(o.rows[ids[i]], olds[i]);
      assert r == EventRec(evs, p, i);
    }
  }

  lemma OwnIsRecord(log: seq<Rec>, rows: C.Log, o: C.Origin, ids: seq<nat>, olds: seq<Kind>, first: nat,
                    t0: Table, s0: nat, kinds: seq<Kind>, e: nat)
    requires Renders(log, rows, o, ids, olds, first, t0, s0, kinds) && Placed(rows, o, first, |kinds|, s0)
    requires |ids| <= e < |ids| + |kinds|
    ensures EventRec(olds + kinds, PlacesOf(rows, o, ids, first, |kinds|), e) in log
  {
    hide C.Ordered, C.ForeignFirst, C.ForeignKept, RecordOk;
    var n := e - |ids|;
    OwnPlaceAt(rows, o, ids, first, |kinds|, s0, e);
    var i :| C.Own(rows, i) && rows[i].event.value == first + n && PlaceOf(rows, first + n) == PlaceAt(rows[i]);
    assert OwnAt(rows, i, first, |kinds|);
    assert EventRec(olds + kinds, PlacesOf(rows, o, ids, first, |kinds|), e) == RecAt(rows[i], kinds[n]);
  }

  lemma EventIsRecord(log: seq<Rec>, rows: C.Log, o: C.Origin, ids: seq<nat>, olds: seq<Kind>, first: nat,
                      t0: Table, s0: nat, kinds: seq<Kind>, e: nat)
    requires Renders(log, rows, o, ids, olds, first, t0, s0, kinds) && Placed(rows, o, first, |kinds|, s0)
    requires e < |olds| + |kinds|
    ensures EventRec(olds + kinds, PlacesOf(rows, o, ids, first, |kinds|), e) in log
  {
    if e < |ids| {
      assert RecAt(o.rows[ids[e]], olds[e]) in log;
    } else {
      OwnIsRecord(log, rows, o, ids, olds, first, t0, s0, kinds, e);
    }
  }

  lemma RenderedLog(log: seq<Rec>, rows: C.Log, o: C.Origin, ids: seq<nat>, olds: seq<Kind>, first: nat,
                    t0: Table, s0: nat, kinds: seq<Kind>)
    requires Renders(log, rows, o, ids, olds, first, t0, s0, kinds) && Placed(rows, o, first, |kinds|, s0)
    requires forall e :: 0 <= e < |olds + kinds| ==> IsEvent((olds + kinds)[e])
    ensures LogOf(log, t0, s0, olds + kinds, PlacesOf(rows, o, ids, first, |kinds|))
  {
    var evs, p := olds + kinds, PlacesOf(rows, o, ids, first, |kinds|);
    PlacesInOrder(rows, o, ids, first, |kinds|, s0);
    forall r | r in log && !r.kind.Base?
      ensures exists e :: 0 <= e < |evs| && r == EventRec(evs, p, e)
    {
      assert RecordOk(r, rows, o, ids, olds, first, t0, s0, kinds);
      RecordIsEvent(rows, o, ids, olds, first, t0, s0, kinds, r);
    }
    forall r | r in log && r.kind.Base?
      ensures r.stamp == s0 && r.num == 0 && r.kind.key in t0 && t0[r.kind.key] == r.kind.row
    {
      assert RecordOk(r, rows, o, ids, olds, first, t0, s0, kinds);
    }
    forall e | 0 <= e < |evs|
      ensures EventRec(evs, p, e) in log
    {
      EventIsRecord(log, rows, o, ids, olds, first, t0, s0, kinds, e);
    }
  }

  /** After any history of drains, crashes, replays and safe rewinds, a log
      with no attempt under way reads, through the view, as the snapshot, then
      what older releases had logged, then this stream up to the watermark. */
  lemma HistoryReadsAsSource(src: C.Stream, o: C.Origin, h: seq<C.State>, i: nat, log: seq<Rec>, ids: seq<nat>,
                             olds: seq<Kind>, t0: Table, s0: nat, kinds: seq<Kind>, k: Key)
    requires C.History(src, o, h) && i < |h| && 0 < s0 <= o.w0
    requires h[i].pending.Some? ==> h[i].pending.value.start < h[i].wm
    requires C.Upto(src, o.w0) + |kinds| == C.Upto(src, h[i].wm)
    requires forall e :: 0 <= e < |olds + kinds| ==> IsEvent((olds + kinds)[e])
    requires Renders(log, h[i].log, o, ids, olds, C.Upto(src, o.w0), t0, s0, kinds)
    ensures Current(log, k) == SourceAt(t0, olds + kinds, k)
  {
    var first := C.Upto(src, o.w0);
    C.HistoryKeeps(src, o, h, i);
    C.SettledPlaces(src, o, h[i]);
    assert C.Covers(h[i].log, first, first + |kinds|);
    RenderedLog(log, h[i].log, o, ids, olds, first, t0, s0, kinds);
    ViewIsSource(log, t0, s0, olds + kinds, PlacesOf(h[i].log, o, ids, first, |kinds|), k);
  }
}
