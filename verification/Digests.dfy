// The digest the stress check compares source and destination by. It does not
// depend on the order the rows come in.
module Digests {
  import opened Workloads

  type Numbered = (int, Row)

  datatype Digest = Digest(count: nat, sum: int, lo: int, hi: int)

  function Sum(rows: seq<Numbered>, weight: Numbered -> int): int {
    if rows == [] then 0 else weight(rows[0]) + Sum(rows[1..], weight)
  }

  function Least(rows: seq<Numbered>, rank: Numbered -> int): int {
    if rows == [] then 0
    else if |rows| == 1 || rank(rows[0]) <= Least(rows[1..], rank) then rank(rows[0])
    else Least(rows[1..], rank)
  }

  function DigestOf(rows: seq<Numbered>, weight: Numbered -> int): Digest {
    Digest(|rows|, Sum(rows, weight), Least(rows, (r: Numbered) => r.0), -Least(rows, (r: Numbered) => -r.0))
  }

  predicate Of(t: Table, r: Numbered) {
    r.0 in t && t[r.0] == r.1
  }

  /** Every row of `t` once, in whatever order. */
  ghost predicate Listing(t: Table, rows: seq<Numbered>) {
    && (forall r :: r in rows <==> Of(t, r))
    && (forall i, j :: 0 <= i < j < |rows| ==> rows[i] != rows[j])
  }

  function Without(rows: seq<Numbered>, j: nat): (r: seq<Numbered>)
    requires j < |rows|
    ensures |r| == |rows| - 1
    ensures forall i :: 0 <= i < |r| ==> r[i] == rows[if i < j then i else i + 1]
  {
    rows[..j] + rows[j + 1..]
  }

  lemma {:induction false} SumWithout(rows: seq<Numbered>, j: nat, weight: Numbered -> int)
    requires j < |rows|
    ensures Sum(rows, weight) == weight(rows[j]) + Sum(Without(rows, j), weight)
  {
    if j == 0 {
      assert Without(rows, 0) == rows[1..];
    } else {
      SumWithout(rows[1..], j - 1, weight);
      assert Without(rows, j)[1..] == Without(rows[1..], j - 1);
    }
  }

  lemma WithoutHolds(rows: seq<Numbered>, j: nat, r: Numbered)
    requires j < |rows| && forall i, k :: 0 <= i < k < |rows| ==> rows[i] != rows[k]
    ensures r in Without(rows, j) <==> r in rows && r != rows[j]
  {
    if r in rows && r != rows[j] {
      var i :| 0 <= i < |rows| && rows[i] == r;
      assert Without(rows, j)[if i < j then i else i - 1] == r;
    }
  }

  lemma ListingWithout(t: Table, rows: seq<Numbered>, j: nat)
    requires Listing(t, rows) && j < |rows|
    ensures Listing(t - {rows[j].0}, Without(rows, j))
  {
    forall r
      ensures r in Without(rows, j) <==> Of(t - {rows[j].0}, r)
    {
      WithoutHolds(rows, j, r);
      assert rows[j] in rows;
    }
  }

  lemma {:induction false} ListingsSum(t: Table, a: seq<Numbered>, b: seq<Numbered>, weight: Numbered -> int)
    requires Listing(t, a) && Listing(t, b)
    ensures |a| == |b| && Sum(a, weight) == Sum(b, weight)
    decreases |a|
  {
    if a == [] {
      if b != [] {
        var j := Place(t, b, a);
      }
    } else {
      var j := Place(t, a, b);
      ListingWithout(t, a, 0);
      ListingWithout(t, b, j);
      ListingsSum(t - {a[0].0}, Without(a, 0), Without(b, j), weight);
      SumWithout(a, 0, weight);
      SumWithout(b, j, weight);
    }
  }

  /** Where the one listing has the other's first row. */
  lemma Place(t: Table, a: seq<Numbered>, b: seq<Numbered>) returns (j: nat)
    requires Listing(t, a) && Listing(t, b) && a != []
    ensures j < |b| && b[j] == a[0]
  {
    assert a[0] in a;
    j :| 0 <= j < |b| && b[j] == a[0];
  }

  lemma {:induction false} LeastIs(rows: seq<Numbered>, rank: Numbered -> int)
    requires rows != []
    ensures exists i :: 0 <= i < |rows| && Least(rows, rank) == rank(rows[i])
    ensures forall i :: 0 <= i < |rows| ==> Least(rows, rank) <= rank(rows[i])
  {
    var tail := rows[1..];
    if tail == [] {
      assert Least(rows, rank) == rank(rows[0]);
    } else {
      LeastIs(tail, rank);
      var i :| 0 <= i < |tail| && Least(tail, rank) == rank(tail[i]);
      assert Least(rows, rank) == rank(rows[0]) || Least(rows, rank) == rank(rows[i + 1]);
      forall k | 0 <= k < |rows|
        ensures Least(rows, rank) <= rank(rows[k])
      {
        assert k > 0 ==> rows[k] == tail[k - 1];
      }
    }
  }

  lemma ListingsLeast(t: Table, a: seq<Numbered>, b: seq<Numbered>, rank: Numbered -> int)
    requires Listing(t, a) && Listing(t, b) && a != [] && b != []
    ensures Least(a, rank) == Least(b, rank)
  {
    LeastIs(a, rank);
    LeastIs(b, rank);
    var i :| 0 <= i < |a| && Least(a, rank) == rank(a[i]);
    var j :| 0 <= j < |b| && Least(b, rank) == rank(b[j]);
    assert a[i] in b && b[j] in a;
  }

  /** Two listings of one table have one digest, under any weight of a row. */
  lemma DigestOfTable(t: Table, a: seq<Numbered>, b: seq<Numbered>, weight: Numbered -> int)
    requires Listing(t, a) && Listing(t, b)
    ensures DigestOf(a, weight) == DigestOf(b, weight)
  {
    ListingsSum(t, a, b, weight);
    if a != [] {
      ListingsLeast(t, a, b, (r: Numbered) => r.0);
      ListingsLeast(t, a, b, (r: Numbered) => -r.0);
    }
  }

  lemma {:induction false} ListingCount(t: Table, rows: seq<Numbered>)
    requires Listing(t, rows)
    ensures |rows| == |t|
    decreases |rows|
  {
    forall id | id in t
      ensures (id, t[id]) in rows
    {
      assert Of(t, (id, t[id]));
    }
    if rows == [] {
      assert t == map[];
    } else {
      var id := rows[0].0;
      assert rows[0] in rows;
      ListingWithout(t, rows, 0);
      ListingCount(t - {id}, Without(rows, 0));
      assert (t - {id}).Keys == t.Keys - {id};
    }
  }

  /** What the digest of a table says: how many rows, the least and the greatest
      id. */
  lemma DigestSays(t: Table, rows: seq<Numbered>, weight: Numbered -> int)
    requires Listing(t, rows)
    ensures var d := DigestOf(rows, weight);
            && d.count == |t|
            && (t != map[] ==> d.lo in t && d.hi in t)
            && forall id :: id in t ==> d.lo <= id <= d.hi
  {
    ListingCount(t, rows);
    hide Sum;
    if t != map[] {
      LeastIs(rows, (r: Numbered) => r.0);
      LeastIs(rows, (r: Numbered) => -r.0);
      var i :| 0 <= i < |rows| && Least(rows, (r: Numbered) => r.0) == rows[i].0;
      var j :| 0 <= j < |rows| && Least(rows, (r: Numbered) => -r.0) == -rows[j].0;
      assert rows[i] in rows && rows[j] in rows;
      forall id | id in t
        ensures DigestOf(rows, weight).lo <= id <= DigestOf(rows, weight).hi
      {
        assert Of(t, (id, t[id]));
        var k :| 0 <= k < |rows| && rows[k] == (id, t[id]);
      }
    }
  }

  lemma SumOfRest(t: Table, rows: seq<Numbered>, id: int, weight: Numbered -> int) returns (rest: seq<Numbered>)
    requires Listing(t, rows) && id in t
    ensures Listing(t - {id}, rest) && Sum(rows, weight) == weight((id, t[id])) + Sum(rest, weight)
  {
    assert Of(t, (id, t[id]));
    var j :| 0 <= j < |rows| && rows[j] == (id, t[id]);
    ListingWithout(t, rows, j);
    SumWithout(rows, j, weight);
    rest := Without(rows, j);
  }

  /** One row different, and the sum is different by what that row weighs more:
      a row hash that tells the two apart is noticed. */
  lemma SumTells(t: Table, id: int, row: Row, a: seq<Numbered>, b: seq<Numbered>, weight: Numbered -> int)
    requires id in t && Listing(t, a) && Listing(t[id := row], b)
    ensures DigestOf(b, weight).sum - DigestOf(a, weight).sum == weight((id, row)) - weight((id, t[id]))
  {
    var p := SumOfRest(t, a, id, weight);
    var q := SumOfRest(t[id := row], b, id, weight);
    assert t[id := row] - {id} == t - {id};
    ListingsSum(t - {id}, p, q, weight);
  }

  /** A row as the digest reads it, with `undo` taken off. */
  function Undo(r: Numbered, undo: int): Numbered {
    (r.0, r.1.(regular := r.1.regular - undo))
  }

  function Undone(rows: seq<Numbered>, undo: int): (r: seq<Numbered>)
    ensures |r| == |rows| && forall i :: 0 <= i < |rows| ==> r[i] == Undo(rows[i], undo)
  {
    seq(|rows|, i requires 0 <= i < |rows| => Undo(rows[i], undo))
  }

  predicate InBand(band: int, id: int) {
    Between(id, band, band + BAND_WIDTH - 1)
  }

  /** One of the two regions the reconstruction reads. */
  function Region(t: Table, band: int, inside: bool): Table {
    map id | id in t && (InBand(band, id) <==> inside) :: t[id]
  }

  lemma ReconstructAt(t: Table, band: int, undo: int, r: Numbered)
    ensures Of(Reconstruct(t, band, undo), r) <==> Of(t, Undo(r, if InBand(band, r.0) then -undo else 0))
  {
  }

  lemma UndoneHolds(rows: seq<Numbered>, undo: int, r: Numbered)
    ensures r in Undone(rows, undo) <==> Undo(r, -undo) in rows
  {
    var l := Undone(rows, undo);
    if r in l {
      var i :| 0 <= i < |l| && l[i] == r;
      assert rows[i] == Undo(r, -undo);
    }
    if Undo(r, -undo) in rows {
      var i :| 0 <= i < |rows| && rows[i] == Undo(r, -undo);
      assert l[i] == r;
    }
  }

  lemma UndoneApart(rows: seq<Numbered>, undo: int, i: nat, j: nat)
    requires i < j < |rows| && rows[i] != rows[j]
    ensures Undone(rows, undo)[i] != Undone(rows, undo)[j]
  {
  }

  lemma UndoneLists(t: Table, band: int, undo: int, inside: bool, rows: seq<Numbered>)
    requires Listing(Region(t, band, inside), rows)
    ensures Listing(Region(Reconstruct(t, band, undo), band, inside), Undone(rows, if inside then undo else 0))
  {
    var u := if inside then undo else 0;
    forall r
      ensures r in Undone(rows, u) <==> Of(Region(Reconstruct(t, band, undo), band, inside), r)
    {
      UndoneHolds(rows, u, r);
      ReconstructAt(t, band, undo, r);
    }
    forall i, j | 0 <= i < j < |rows|
      ensures Undone(rows, u)[i] != Undone(rows, u)[j]
    {
      UndoneApart(rows, u, i, j);
    }
  }

  lemma UnionLists(t: Table, band: int, a: seq<Numbered>, b: seq<Numbered>)
    requires Listing(Region(t, band, true), a) && Listing(Region(t, band, false), b)
    ensures Listing(t, a + b)
  {
    forall r
      ensures r in a + b <==> Of(t, r)
    {
      assert Of(t, r) <==> Of(Region(t, band, true), r) || Of(Region(t, band, false), r);
    }
    forall i, j | 0 <= i < |a| && 0 <= j < |b|
      ensures a[i] != b[j]
    {
      assert a[i] in a && b[j] in b;
    }
  }

  /** The verifier's comparison: the two regions of the source with `undo` taken
      off the band, and the destination, digest alike under any row hash, in
      whatever order either side reads its rows. */
  lemma DigestsAgree(source: Table, dest: Table, band: int, undo: int, a: seq<Numbered>, b: seq<Numbered>,
                     d: seq<Numbered>, hash: Numbered -> int)
    requires Reconstruct(source, band, undo) == dest
    requires Listing(Region(source, band, true), a) && Listing(Region(source, band, false), b) && Listing(dest, d)
    ensures DigestOf(Undone(a, undo) + Undone(b, 0), hash) == DigestOf(d, hash)
  {
    UndoneLists(source, band, undo, true, a);
    UndoneLists(source, band, undo, false, b);
    UnionLists(dest, band, Undone(a, undo), Undone(b, 0));
    DigestOfTable(dest, Undone(a, undo) + Undone(b, 0), d, hash);
  }
}
