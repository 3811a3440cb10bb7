// Moves on the insert-only path: the key a row moves to is not deleted first,
// so a version already there with the window's number is as new as the row.
module TombstoneLimits {
  import opened Rows
  import opened Tail
  import opened Journal
  import opened Tombstones

  /** What a move does here: the old key's versions go, and the row is written
      under its new key with the window's number. */
  function MoveOnto(vs: set<Version>, from: Key, to: Key, b: nat, img: Row): set<Version> {
    Without(vs, from) + {Version(to, b, Some(img))}
  }

  /** FINAL may answer either of two different rows, or a row or none. */
  ghost predicate Tied(vs: set<Version>, k: Key) {
    exists u, v :: Final(vs, u) && Final(vs, v) && u.key == v.key == k && u.row != v.row
  }

  lemma RowsNumbered(h: seq<Tagged>, b: nat)
    ensures forall v :: v in WindowRows(h, b) ==> v.ver == b
  {
  }

  /** After a window's set phases, over older versions, a move leaves a tie if
      and only if those phases wrote something else under its new key. */
  lemma MoveTies(vs: set<Version>, h: seq<Tagged>, from: Key, to: Key, b: nat, img: Row)
    requires from != to && forall v :: v in vs ==> v.ver < b
    ensures Tied(MoveOnto(vs + WindowRows(h, b), from, to, b, img), to) <==>
            exists v :: v in WindowRows(h, b) && v.key == to && v.row != Some(img)
  {
    RowsNumbered(h, b);
    hide WindowRows;
    var all := MoveOnto(vs + WindowRows(h, b), from, to, b, img);
    var moved := Version(to, b, Some(img));
    assert Final(all, moved);
    if Tied(all, to) {
      var u, v :| Final(all, u) && Final(all, v) && u.key == v.key == to && u.row != v.row;
      assert u.ver >= b && v.ver >= b;
      assert u != moved ==> u in WindowRows(h, b);
      assert v != moved ==> v in WindowRows(h, b);
    }
    if v :| v in WindowRows(h, b) && v.key == to && v.row != Some(img) {
      assert v in all && Final(all, v);
    }
  }

  function Full(id: string, body: string): Row {
    [Text(id), Text(body)]
  }

  /** Row 9 is deleted, and row 1 moves to its key with its body out of line. */
  function TakenOver(): SourceLog {
    [Change(1, Del(["9"])), Change(2, Move(["1"], ["9"], [Text("9"), UnchangedToast]))]
  }

  function Before(): Table {
    map[["1"] := Full("1", "a"), ["9"] := Full("9", "z")]
  }

  lemma Apart()
    ensures var a: Key, b: Key := ["1"], ["9"];
            a != b
  {
    var a: Key, b: Key := ["1"], ["9"];
    assert a[0][0] != b[0][0];
  }

  lemma TakenOverHead()
    ensures NoTruncate(TakenOver(), 0, 2) && Head(Part(TakenOver(), 0, 2)) == [Tagged(1, Del(["9"]))]
  {
    var l := Part(TakenOver(), 0, 2);
    assert l[..1][..0] == [] && l[..1][0] == l[0];
    assert Head(l[..1]) == [l[0]];
  }

  lemma TakenOverSource()
    ensures Source(TakenOver(), Before(), 2) == map[["9"] := Full("9", "a")]
    ensures FoundAt(TakenOver(), Before(), 0) && FoundAt(TakenOver(), Before(), 1)
  {
    Apart();
    assert Source(TakenOver(), Before(), 0) == Before();
    assert Source(TakenOver(), Before(), 1) == map[["1"] := Full("1", "a")];
    assert Patch([Text("9"), UnchangedToast], Full("1", "a")) == Full("9", "a");
  }

  /** The input: the window leaves a tombstone and the row, equally new, under
      the key where the source has the row. */
  lemma MovedOntoTombstone()
    ensures var log := TakenOver();
            var h := Head(Part(log, 0, 2));
            && FoundAt(log, Before(), 0) && FoundAt(log, Before(), 1)
            && ["9"] in Source(log, Before(), 2)
            && forall vs: set<Version> | (forall v :: v in vs ==> v.ver < 2) ::
                 Tied(MoveOnto(vs + WindowRows(h, 2), ["1"], ["9"], 2, Full("9", "a")), ["9"])
  {
    Apart();
    TakenOverHead();
    TakenOverSource();
    var h := Head(Part(TakenOver(), 0, 2));
    assert h[..0] == [] && Images(h) == map[] && DelKeys(h) == {["9"]};
    assert Version(["9"], 2, None) in WindowRows(h, 2);
    forall vs: set<Version> | forall v :: v in vs ==> v.ver < 2
      ensures Tied(MoveOnto(vs + WindowRows(h, 2), ["1"], ["9"], 2, Full("9", "a")), ["9"])
    {
      MoveTies(vs, h, ["1"], ["9"], 2, Full("9", "a"));
    }
  }

  lemma OnePut(b: nat, k: Key, row: Row)
    ensures Version(k, b, Some(row)) in WindowRows([Tagged(b, Put(k, row))], b)
  {
    var h := [Tagged(b, Put(k, row))];
    assert h[..0] == [] && Images(h) == map[k := row];
    assert Version(k, b, Some(Images(h)[k])) in WindowRows(h, b);
  }

  /** The input: row 1 moves to 9, then 9 is written whole. An attempt at both
      dies after the move, a shorter run lands the move alone, and the next one
      lands the write under the dead attempt's number. */
  lemma RecutTies()
    ensures var img, whole := Full("9", "a"), Full("9", "b");
            var dead := MoveOnto({Version(["1"], 0, Some(Full("1", "a")))}, ["1"], ["9"], 2, img);
            var short := MoveOnto(dead, ["1"], ["9"], 1, img);
            Tied(short + WindowRows([Tagged(2, Put(["9"], whole))], 2), ["9"])
  {
    Apart();
    var img, whole := Full("9", "a"), Full("9", "b");
    var dead := MoveOnto({Version(["1"], 0, Some(Full("1", "a")))}, ["1"], ["9"], 2, img);
    var short := MoveOnto(dead, ["1"], ["9"], 1, img);
    var h := [Tagged(2, Put(["9"], whole))];
    RowsNumbered(h, 2);
    OnePut(2, ["9"], whole);
    hide WindowRows;
    var u, v := Version(["9"], 2, Some(img)), Version(["9"], 2, Some(whole));
    var all := short + WindowRows(h, 2);
    assert u in dead && u in short && u in all && v in all;
    assert Final(all, u) && Final(all, v);
    assert img[1] != whole[1];
  }
}
