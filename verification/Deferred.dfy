// Windows of a table whose key is deferrable: two rows may share a key until
// the statement or the transaction ends. Such a table has full old images.
// The source table is a bag of rows here; its keys are unique only at the
// window's two ends.
module Deferred {
  import opened Rows
  import opened Tail
  import opened Collapse

  /** A whole-row change in line, its old image the whole row too. */
  predicate FullImage(ix: seq<nat>, c: Change) {
    match c
    case Insert(row) => Keyed(ix, row)
    case Update(before, full, row) =>
      full && before.Some? && Keyed(ix, before.value) && Keyed(ix, row) && !HasToast(row)
    case Delete(image) => Keyed(ix, image)
    case Truncate => false
  }

  /** A window of full images in line, since its last truncate. */
  predicate FullImages(ix: seq<nat>, evs: seq<Event>) {
    forall i :: 0 <= i < |evs| ==> FullImage(ix, evs[i].change)
  }

  /** The row a change takes away, and the row it brings. */
  function Taken(c: Change): multiset<Row>
  {
    match c
    case Update(Some(b), _, _) => multiset{b}
    case Delete(image) => multiset{image}
    case _ => multiset{}
  }

  function Brought(c: Change): multiset<Row> {
    match c
    case Insert(row) => multiset{row}
    case Update(_, _, row) => multiset{row}
    case _ => multiset{}
  }

  function Bag(evs: seq<Event>, b: multiset<Row>): multiset<Row> {
    if evs == [] then b
    else
      var c := evs[|evs| - 1].change;
      if c.Truncate? then multiset{} else Bag(evs[..|evs| - 1], b) - Taken(c) + Brought(c)
  }

  /** Every row a change takes away is in the table when it does. */
  predicate Happens(evs: seq<Event>, b: multiset<Row>) {
    evs == []
    || (Happens(evs[..|evs| - 1], b) && Taken(evs[|evs| - 1].change) <= Bag(evs[..|evs| - 1], b))
  }

  predicate UniqueKeys(ix: seq<nat>, b: multiset<Row>) {
    && (forall r :: r in b ==> Keyed(ix, r) && b[r] == 1)
    && (forall r, s :: r in b && s in b && r != s ==> KeyAt(ix, r) != KeyAt(ix, s))
  }

  predicate HasKey(ix: seq<nat>, b: multiset<Row>, k: Key) {
    exists r :: r in b && Under(ix, r, k)
  }

  /** The table shows the bag's rows under `k` and no other. */
  predicate Agrees(ix: seq<nat>, b: multiset<Row>, t: Table, k: Key) {
    if k in t then t[k] in b && Keyed(ix, t[k]) && KeyAt(ix, t[k]) == k else !HasKey(ix, b, k)
  }

  predicate Writes(ix: seq<nat>, c: Change, k: Key) {
    (c.Insert? || c.Update?) && Keyed(ix, c.row) && KeyAt(ix, c.row) == k
  }

  /** The change takes a row away from `k` and leaves none there. */
  predicate Leaves(ix: seq<nat>, c: Change, k: Key) {
    match c
    case Update(Some(b), _, row) => Keyed(ix, b) && KeyAt(ix, b) == k && !Writes(ix, c, k)
    case Delete(image) => Keyed(ix, image) && KeyAt(ix, image) == k
    case _ => false
  }

  /** Change `i` is the last of the window to write an image at `k`. */
  predicate WritesLast(ix: seq<nat>, evs: seq<Event>, k: Key, i: int) {
    && 0 <= i < |evs| && Writes(ix, evs[i].change, k)
    && (forall m :: i < m < |evs| ==> !Writes(ix, evs[m].change, k))
  }

  ghost predicate LastWrite(ix: seq<nat>, evs: seq<Event>, k: Key, row: Row) {
    exists i :: WritesLast(ix, evs, k, i) && evs[i].change.row == row
  }

  /** A DELETE names `k`, or a row leaves `k` looking exactly like `row`. */
  predicate LooksLike(ix: seq<nat>, c: Change, k: Key, row: Row) {
    Leaves(ix, c, k) && (c.Delete? || c.before.value == row)
  }

  /** After the last image written at `k` something takes a row from `k` by a
      DELETE or by an old image that looks exactly like it. */
  ghost predicate TakesTheWritten(ix: seq<nat>, evs: seq<Event>, k: Key) {
    exists i, j :: WritesLast(ix, evs, k, i) && i < j < |evs| && LooksLike(ix, evs[j].change, k, evs[i].change.row)
  }

  predicate NoWrite(ix: seq<nat>, evs: seq<Event>, k: Key) {
    forall i :: 0 <= i < |evs| ==> !Writes(ix, evs[i].change, k)
  }

  lemma FullIsReadable(ix: seq<nat>, evs: seq<Event>)
    requires FullImages(ix, evs)
    ensures AllReadable(ix, evs)
  {
    forall i | 0 <= i < |evs|
      ensures Readable(ix, evs[i].change)
    {
      assert match evs[i].change case Update(_, _, row) => NewImage(ix, evs[i].change) == row case _ => true;
    }
  }

  function Butlast(evs: seq<Event>): seq<Event>
    requires evs != []
  {
    evs[..|evs| - 1]
  }

  function Last(evs: seq<Event>): Change
    requires evs != []
  {
    evs[|evs| - 1].change
  }

  lemma ReadableButlast(ix: seq<nat>, evs: seq<Event>)
    requires evs != [] && FullImages(ix, evs)
    ensures FullImages(ix, Butlast(evs)) && AllReadable(ix, evs) && AllReadable(ix, Butlast(evs))
  {
    FullIsReadable(ix, evs);
    assert forall i :: 0 <= i < |Butlast(evs)| ==> Butlast(evs)[i] == evs[i];
  }

  /** How a change moves what is held about `k`, sticky keys aside. */
  ghost predicate Moves(ix: seq<nat>, v: View, c: Change, w: View, k: Key) {
    && w.sticky == {}
    && (Writes(ix, c, k) ==> k in w.images && w.images[k] == c.row)
    && (Leaves(ix, c, k) ==>
          && k in w.dels
          && (if c.Update? && c.before.Some? && k in v.images && v.images[k] != c.before.value
              then k in w.images && w.images[k] == v.images[k]
              else k !in w.images))
    && (!Writes(ix, c, k) && !Leaves(ix, c, k) ==>
          && (k in w.dels <==> k in v.dels) && (k in w.images <==> k in v.images)
          && (k in w.images ==> w.images[k] == v.images[k]))
  }

  /** What taking a row away from `old_` leaves of the view. */
  lemma LeavingMoves(v: View, pos: nat, old_: Key, before: Row, k: Key)
    requires v.sticky == {}
    ensures var u := Steps(v, Tag(pos, Leaving(v, old_, before, true)));
            && u.sticky == {} && old_ in u.dels
            && (if old_ in v.images && v.images[old_] != before
                then old_ in u.images && u.images[old_] == v.images[old_]
                else old_ !in u.images)
            && (k != old_ ==>
                  && (k in u.dels <==> k in v.dels) && (k in u.images <==> k in v.images)
                  && (k in u.images ==> u.images[k] == v.images[k]))
  {
    var ops := Leaving(v, old_, before, true);
    if |ops| == 2 {
      assert Tag(pos, ops) == [Tagged(pos, ops[0]), Tagged(pos, ops[1])];
      StepsTwo(v, Tagged(pos, ops[0]), Tagged(pos, ops[1]));
    } else {
      assert ops == [Del(old_)];
      StepsOne(v, Tagged(pos, ops[0]));
    }
  }

  lemma KeyChangeMoves(ix: seq<nat>, v: View, pos: nat, c: Change, k: Key)
    requires Readable(ix, c) && KeyChanges(ix, c) && c.full && Keyed(ix, c.row) && !HasToast(c.row) && v.sticky == {}
    ensures Moves(ix, v, c, Steps(v, Tag(pos, Elementary(ix, v, c))), k)
  {
    assert NewImage(ix, c) == c.row;
    ElementarySteps(ix, v, pos, c);
    LeavingMoves(v, pos, KeyAt(ix, c.before.value), c.before.value, k);
  }

  lemma OtherMoves(ix: seq<nat>, v: View, pos: nat, c: Change, k: Key)
    requires Readable(ix, c) && !KeyChanges(ix, c) && !c.Truncate? && v.sticky == {}
    requires c.Update? ==> c.before.Some? && Keyed(ix, c.row) && !HasToast(c.row)
    ensures Moves(ix, v, c, Steps(v, Tag(pos, Elementary(ix, v, c))), k)
  {
    assert c.Update? ==> NewImage(ix, c) == c.row;
    StepsOne(v, Tagged(pos, Elementary(ix, v, c)[0]));
  }

  lemma ViewStep(ix: seq<nat>, evs: seq<Event>, k: Key)
    requires evs != [] && FullImages(ix, evs) && AllReadable(ix, evs) && AllReadable(ix, Butlast(evs))
    requires ViewOf(Log(ix, Butlast(evs))).sticky == {}
    ensures Moves(ix, ViewOf(Log(ix, Butlast(evs))), Last(evs), ViewOf(Log(ix, evs)), k)
  {
    var l, e := Log(ix, Butlast(evs)), evs[|evs| - 1];
    ViewConcat(l, Tag(e.pos, Elementary(ix, ViewOf(l), e.change)));
    if KeyChanges(ix, e.change) {
      KeyChangeMoves(ix, ViewOf(l), e.pos, e.change, k);
    } else {
      OtherMoves(ix, ViewOf(l), e.pos, e.change, k);
    }
  }

  lemma SnocWrite(ix: seq<nat>, evs: seq<Event>, k: Key)
    requires evs != [] && Writes(ix, Last(evs), k)
    ensures LastWrite(ix, evs, k, Last(evs).row) && !TakesTheWritten(ix, evs, k) && !NoWrite(ix, evs, k)
  {
    assert WritesLast(ix, evs, k, |evs| - 1);
  }

  lemma SnocWritesLast(ix: seq<nat>, evs: seq<Event>, k: Key, i: int)
    requires evs != [] && !Writes(ix, Last(evs), k)
    ensures WritesLast(ix, evs, k, i) <==> WritesLast(ix, Butlast(evs), k, i)
  {
    var p := Butlast(evs);
    assert forall m :: 0 <= m < |p| ==> p[m] == evs[m];
  }

  lemma SnocNoWrite(ix: seq<nat>, evs: seq<Event>, k: Key)
    requires evs != [] && !Writes(ix, Last(evs), k)
    ensures NoWrite(ix, evs, k) <==> NoWrite(ix, Butlast(evs), k)
    ensures forall row :: LastWrite(ix, Butlast(evs), k, row) <==> LastWrite(ix, evs, k, row)
  {
    var p := Butlast(evs);
    assert forall m :: 0 <= m < |p| ==> p[m] == evs[m];
    forall i: int
      ensures WritesLast(ix, evs, k, i) <==> WritesLast(ix, p, k, i)
    {
      SnocWritesLast(ix, evs, k, i);
    }
  }

  /** Whether the written image is taken changes only by a leave that looks
      like it. */
  lemma SnocTakes(ix: seq<nat>, evs: seq<Event>, k: Key)
    requires evs != [] && !Writes(ix, Last(evs), k)
    ensures TakesTheWritten(ix, evs, k) <==>
            TakesTheWritten(ix, Butlast(evs), k)
            || exists i :: WritesLast(ix, evs, k, i) && LooksLike(ix, Last(evs), k, evs[i].change.row)
  {
    var p := Butlast(evs);
    assert forall m :: 0 <= m < |p| ==> p[m] == evs[m];
    forall i: int
      ensures WritesLast(ix, evs, k, i) <==> WritesLast(ix, p, k, i)
    {
      SnocWritesLast(ix, evs, k, i);
    }
    if TakesTheWritten(ix, p, k) {
      var i, j :| WritesLast(ix, p, k, i) && i < j < |p| && LooksLike(ix, p[j].change, k, p[i].change.row);
      assert WritesLast(ix, evs, k, i) && LooksLike(ix, evs[j].change, k, evs[i].change.row);
    }
  }

  predicate Under(ix: seq<nat>, r: Row, k: Key) {
    Keyed(ix, r) && KeyAt(ix, r) == k
  }

  lemma TakenBrought(ix: seq<nat>, c: Change, k: Key, r: Row)
    requires FullImage(ix, c) && !Writes(ix, c, k) && Under(ix, r, k)
    ensures Brought(c)[r] == 0 && (Taken(c)[r] > 0 ==> Leaves(ix, c, k))
  {
  }

  lemma BagStep(ix: seq<nat>, evs: seq<Event>, b: multiset<Row>, k: Key, r: Row)
    requires evs != [] && FullImages(ix, evs) && Happens(evs, b) && !Writes(ix, Last(evs), k) && Under(ix, r, k)
    ensures Bag(evs, b)[r] == Bag(Butlast(evs), b)[r] - Taken(Last(evs))[r]
    ensures Taken(Last(evs))[r] > 0 ==> Leaves(ix, Last(evs), k)
  {
    assert FullImage(ix, evs[|evs| - 1].change);
    TakenBrought(ix, Last(evs), k, r);
  }

  /** The image a leaving change takes away. */
  function TakenRow(c: Change): Row {
    match c
    case Update(Some(b), _, _) => b
    case Delete(image) => image
    case _ => []
  }

  lemma LeaveEmpties(ix: seq<nat>, evs: seq<Event>, b: multiset<Row>, k: Key)
    requires evs != [] && FullImages(ix, evs) && Happens(evs, b) && UniqueKeys(ix, b)
    requires !Writes(ix, Last(evs), k) && Leaves(ix, Last(evs), k)
    requires forall r :: Under(ix, r, k) ==> Bag(Butlast(evs), b)[r] <= b[r]
    ensures !HasKey(ix, Bag(evs, b), k)
  {
    var o := TakenRow(Last(evs));
    assert Taken(Last(evs)) == multiset{o} && Under(ix, o, k);
    assert o in Bag(Butlast(evs), b) && b[o] == 1;
    forall r | Under(ix, r, k)
      ensures r !in Bag(evs, b)
    {
      BagStep(ix, evs, b, k, r);
      assert r != o ==> r !in b;
    }
  }

  lemma NoWriteButlast(ix: seq<nat>, evs: seq<Event>, k: Key)
    requires evs != [] && NoWrite(ix, evs, k)
    ensures NoWrite(ix, Butlast(evs), k) && !Writes(ix, Last(evs), k)
  {
    assert forall m :: 0 <= m < |Butlast(evs)| ==> Butlast(evs)[m] == evs[m];
    assert !Writes(ix, evs[|evs| - 1].change, k);
  }

  lemma {:induction false} NoWriteShrinks(ix: seq<nat>, evs: seq<Event>, b: multiset<Row>, k: Key, r: Row)
    requires FullImages(ix, evs) && Happens(evs, b) && NoWrite(ix, evs, k) && Under(ix, r, k)
    ensures Bag(evs, b)[r] <= b[r]
  {
    if evs != [] {
      NoWriteButlast(ix, evs, k);
      ReadableButlast(ix, evs);
      BagStep(ix, evs, b, k, r);
      NoWriteShrinks(ix, Butlast(evs), b, k, r);
    }
  }

  /** What the collapser holds about `k` after the window, and what the bag
      holds under `k`. */
  ghost predicate Tracks(ix: seq<nat>, evs: seq<Event>, b: multiset<Row>, v: View, k: Key) {
    var bag := Bag(evs, b);
    && v.sticky == {}
    && (k in v.images ==>
          && v.images[k] in bag && Under(ix, v.images[k], k)
          && LastWrite(ix, evs, k, v.images[k]) && !TakesTheWritten(ix, evs, k))
    && (k !in v.images && k in v.dels ==>
          if NoWrite(ix, evs, k) then !HasKey(ix, bag, k) else TakesTheWritten(ix, evs, k))
    && (k !in v.images && k !in v.dels ==>
          NoWrite(ix, evs, k) && forall r :: Under(ix, r, k) ==> bag[r] == b[r])
  }

  lemma TracksWrite(ix: seq<nat>, evs: seq<Event>, b: multiset<Row>, v: View, w: View, k: Key)
    requires evs != [] && FullImages(ix, evs) && Moves(ix, v, Last(evs), w, k) && Writes(ix, Last(evs), k)
    ensures Tracks(ix, evs, b, w, k)
  {
    SnocWrite(ix, evs, k);
    assert Last(evs).row in Brought(Last(evs));
  }

  lemma TracksPassBy(ix: seq<nat>, evs: seq<Event>, b: multiset<Row>, v: View, w: View, k: Key)
    requires evs != [] && FullImages(ix, evs) && Happens(evs, b) && UniqueKeys(ix, b)
    requires Tracks(ix, Butlast(evs), b, v, k) && Moves(ix, v, Last(evs), w, k)
    requires !Writes(ix, Last(evs), k) && !Leaves(ix, Last(evs), k)
    ensures Tracks(ix, evs, b, w, k)
  {
    SnocNoWrite(ix, evs, k);
    SnocTakes(ix, evs, k);
    forall r | Under(ix, r, k)
      ensures Bag(evs, b)[r] == Bag(Butlast(evs), b)[r]
    {
      BagStep(ix, evs, b, k, r);
    }
  }

  lemma OtherImageNotTaken(ix: seq<nat>, evs: seq<Event>, k: Key, row: Row)
    requires evs != [] && !Writes(ix, Last(evs), k) && LastWrite(ix, evs, k, row)
    requires !TakesTheWritten(ix, Butlast(evs), k) && !LooksLike(ix, Last(evs), k, row)
    ensures !TakesTheWritten(ix, evs, k)
  {
    SnocTakes(ix, evs, k);
    var i :| WritesLast(ix, evs, k, i) && evs[i].change.row == row;
    forall j | WritesLast(ix, evs, k, j)
      ensures j == i
    {
    }
  }

  lemma StaysInBag(ix: seq<nat>, evs: seq<Event>, b: multiset<Row>, k: Key, row: Row)
    requires evs != [] && FullImages(ix, evs) && Happens(evs, b) && !Writes(ix, Last(evs), k)
    requires Under(ix, row, k) && row in Bag(Butlast(evs), b) && Last(evs).Update? && row != TakenRow(Last(evs))
    ensures row in Bag(evs, b)
  {
    BagStep(ix, evs, b, k, row);
  }

  lemma TracksImage(ix: seq<nat>, evs: seq<Event>, b: multiset<Row>, w: View, k: Key, row: Row)
    requires w.sticky == {} && k in w.images && w.images[k] == row && row in Bag(evs, b) && Under(ix, row, k)
    requires LastWrite(ix, evs, k, row) && !TakesTheWritten(ix, evs, k)
    ensures Tracks(ix, evs, b, w, k)
  {
  }

  lemma SnocLastWrite(ix: seq<nat>, evs: seq<Event>, k: Key, row: Row)
    requires evs != [] && !Writes(ix, Last(evs), k) && LastWrite(ix, Butlast(evs), k, row)
    ensures LastWrite(ix, evs, k, row)
  {
    SnocNoWrite(ix, evs, k);
  }

  /** A leave that does not look like the last image written changes nothing
      about it. */
  lemma StaysWritten(ix: seq<nat>, evs: seq<Event>, k: Key, row: Row)
    requires evs != [] && !Writes(ix, Last(evs), k) && !LooksLike(ix, Last(evs), k, row)
    requires LastWrite(ix, Butlast(evs), k, row) && !TakesTheWritten(ix, Butlast(evs), k)
    ensures LastWrite(ix, evs, k, row) && !TakesTheWritten(ix, evs, k)
  {
    SnocLastWrite(ix, evs, k, row);
    OtherImageNotTaken(ix, evs, k, row);
  }

  lemma NotLike(ix: seq<nat>, c: Change, k: Key, row: Row)
    requires c.Update? && row != TakenRow(c)
    ensures !LooksLike(ix, c, k, row)
  {
  }

  /** Another row leaves: the image the window put there stays. */
  lemma TracksStay(ix: seq<nat>, evs: seq<Event>, b: multiset<Row>, v: View, w: View, k: Key)
    requires evs != [] && FullImages(ix, evs) && Happens(evs, b)
    requires Tracks(ix, Butlast(evs), b, v, k) && Moves(ix, v, Last(evs), w, k)
    requires !Writes(ix, Last(evs), k) && Leaves(ix, Last(evs), k)
    requires k in v.images && Last(evs).Update? && v.images[k] != TakenRow(Last(evs))
    ensures Tracks(ix, evs, b, w, k)
  {
    NotLike(ix, Last(evs), k, v.images[k]);
    StaysWritten(ix, evs, k, v.images[k]);
    StaysInBag(ix, evs, b, k, v.images[k]);
    TracksImage(ix, evs, b, w, k, v.images[k]);
  }

  lemma TracksTaken(ix: seq<nat>, evs: seq<Event>, b: multiset<Row>, v: View, w: View, k: Key)
    requires evs != [] && FullImages(ix, evs) && Happens(evs, b) && UniqueKeys(ix, b)
    requires Tracks(ix, Butlast(evs), b, v, k) && Moves(ix, v, Last(evs), w, k)
    requires !Writes(ix, Last(evs), k) && Leaves(ix, Last(evs), k)
    requires k in v.images && (Last(evs).Delete? || v.images[k] == TakenRow(Last(evs)))
    ensures Tracks(ix, evs, b, w, k)
  {
    SnocNoWrite(ix, evs, k);
    SnocTakes(ix, evs, k);
    var i :| WritesLast(ix, evs, k, i) && evs[i].change.row == v.images[k];
    assert LooksLike(ix, Last(evs), k, evs[i].change.row);
  }

  lemma BareEmpties(ix: seq<nat>, evs: seq<Event>, b: multiset<Row>, k: Key)
    requires evs != [] && FullImages(ix, evs) && Happens(evs, b) && UniqueKeys(ix, b)
    requires !Writes(ix, Last(evs), k) && Leaves(ix, Last(evs), k) && NoWrite(ix, Butlast(evs), k)
    ensures !HasKey(ix, Bag(evs, b), k)
  {
    ReadableButlast(ix, evs);
    forall r | Under(ix, r, k)
      ensures Bag(Butlast(evs), b)[r] <= b[r]
    {
      NoWriteShrinks(ix, Butlast(evs), b, k, r);
    }
    LeaveEmpties(ix, evs, b, k);
  }

  lemma TracksBare(ix: seq<nat>, evs: seq<Event>, b: multiset<Row>, v: View, w: View, k: Key)
    requires evs != [] && FullImages(ix, evs) && Happens(evs, b) && UniqueKeys(ix, b)
    requires Tracks(ix, Butlast(evs), b, v, k) && Moves(ix, v, Last(evs), w, k)
    requires !Writes(ix, Last(evs), k) && Leaves(ix, Last(evs), k) && k !in v.images
    ensures Tracks(ix, evs, b, w, k)
  {
    SnocNoWrite(ix, evs, k);
    if NoWrite(ix, Butlast(evs), k) {
      BareEmpties(ix, evs, b, k);
    } else {
      SnocTakes(ix, evs, k);
    }
  }

  lemma {:induction false} WindowTracks(ix: seq<nat>, evs: seq<Event>, b: multiset<Row>, k: Key)
    requires FullImages(ix, evs) && AllReadable(ix, evs) && Happens(evs, b) && UniqueKeys(ix, b)
    ensures Tracks(ix, evs, b, ViewOf(Log(ix, evs)), k)
  {
    if evs != [] {
      ReadableButlast(ix, evs);
      WindowTracks(ix, Butlast(evs), b, k);
      ViewStep(ix, evs, k);
      var v, w, c := ViewOf(Log(ix, Butlast(evs))), ViewOf(Log(ix, evs)), Last(evs);
      if Writes(ix, c, k) {
        TracksWrite(ix, evs, b, v, w, k);
      } else if !Leaves(ix, c, k) {
        TracksPassBy(ix, evs, b, v, w, k);
      } else if k !in v.images {
        TracksBare(ix, evs, b, v, w, k);
      } else if c.Update? && v.images[k] != TakenRow(c) {
        TracksStay(ix, evs, b, v, w, k);
      } else {
        TracksTaken(ix, evs, b, v, w, k);
      }
    }
  }

  lemma WindowExact(ix: seq<nat>, evs: seq<Event>, b: multiset<Row>, c: Collapsed, t: Table, k: Key)
    requires FullImages(ix, evs) && AllReadable(ix, evs) && NetOf(ix, evs, c)
    requires UniqueKeys(ix, b) && Happens(evs, b) && UniqueKeys(ix, Bag(evs, b))
    requires Agrees(ix, b, t, k)
    ensures Landable(ix, c)
    ensures Agrees(ix, Bag(evs, b), ApplyCollapsed(ix, c, t), k)
            <==> !(HasKey(ix, Bag(evs, b), k) && TakesTheWritten(ix, evs, k))
    ensures !Agrees(ix, Bag(evs, b), ApplyCollapsed(ix, c, t), k) ==> k !in ApplyCollapsed(ix, c, t)
  {
    WindowTracks(ix, evs, b, k);
    var l := Log(ix, evs);
    var v := ViewOf(l);
    LandsSetPhase(ix, evs, c, t);
    if k !in v.images && k !in v.dels {
      assert !TakesTheWritten(ix, evs, k);
    }
  }

  lemma {:induction false} NoStickyNoTail(l: seq<Tagged>)
    requires Sticky(l) == {}
    ensures Residue(l) == []
  {
    if l != [] {
      var p, op := l[..|l| - 1], l[|l| - 1].op;
      assert Sticky(p) <= Sticky(l);
      NoStickyNoTail(p);
      assert Sticky(l) == Sticky(p) + (if NeedsBase(op) then Touches(op) else {});
    }
  }

  lemma {:induction false} NoTruncate(ix: seq<nat>, evs: seq<Event>)
    requires FullImages(ix, evs)
    ensures !Truncates(evs)
  {
  }

  lemma LandsSetPhase(ix: seq<nat>, evs: seq<Event>, c: Collapsed, t: Table)
    requires FullImages(ix, evs) && AllReadable(ix, evs) && NetOf(ix, evs, c)
    requires ViewOf(Log(ix, evs)).sticky == {}
    ensures Landable(ix, c)
    ensures ApplyCollapsed(ix, c, t) == SetPhase(ViewOf(Log(ix, evs)).dels, ViewOf(Log(ix, evs)).images, t)
  {
    var v := ViewOf(Log(ix, evs));
    NoStickyNoTail(Log(ix, evs));
    NoTruncate(ix, evs);
    InsertRowsLists(ix, c.upserts, v.images, v.dels, t);
  }

  // ------------------------------------------------------------------
  // With TRUNCATEs: what is past the last one decides.

  predicate FullOrTruncate(ix: seq<nat>, evs: seq<Event>) {
    forall i :: 0 <= i < |evs| ==> evs[i].change.Truncate? || FullImage(ix, evs[i].change)
  }

  /** Where the changes after the last TRUNCATE start. */
  function CutAt(evs: seq<Event>): (c: nat)
    ensures c <= |evs|
    ensures forall i :: c <= i < |evs| ==> !evs[i].change.Truncate?
    ensures c > 0 ==> evs[c - 1].change.Truncate?
  {
    if evs == [] then 0
    else if evs[|evs| - 1].change.Truncate? then |evs|
    else CutAt(evs[..|evs| - 1])
  }

  function BagAt(evs: seq<Event>, b: multiset<Row>): multiset<Row> {
    if CutAt(evs) > 0 then multiset{} else b
  }

  function PastCut(evs: seq<Event>): seq<Event> {
    evs[CutAt(evs)..]
  }

  lemma PastCutSnoc(evs: seq<Event>)
    requires evs != [] && !Last(evs).Truncate?
    ensures PastCut(evs) != [] && Butlast(PastCut(evs)) == PastCut(Butlast(evs))
    ensures PastCut(evs)[|PastCut(evs)| - 1] == evs[|evs| - 1] && CutAt(Butlast(evs)) == CutAt(evs)
  {
  }

  lemma PastCutShape(ix: seq<nat>, evs: seq<Event>)
    requires FullOrTruncate(ix, evs) && AllReadable(ix, evs)
    ensures FullImages(ix, PastCut(evs)) && AllReadable(ix, PastCut(evs))
  {
    var suf := PastCut(evs);
    forall i | 0 <= i < |suf|
      ensures FullImage(ix, suf[i].change) && Readable(ix, suf[i].change)
    {
      assert suf[i] == evs[CutAt(evs) + i];
    }
  }

  lemma {:induction false} PastCutLog(ix: seq<nat>, evs: seq<Event>)
    requires AllReadable(ix, evs) && AllReadable(ix, PastCut(evs))
    ensures Log(ix, evs) == Log(ix, PastCut(evs))
  {
    if evs != [] && !Last(evs).Truncate? {
      PastCutSnoc(evs);
      PastCutLog(ix, Butlast(evs));
    }
  }

  lemma {:induction false} PastCutBag(evs: seq<Event>, b: multiset<Row>)
    requires Happens(evs, b)
    ensures Bag(evs, b) == Bag(PastCut(evs), BagAt(evs, b)) && Happens(PastCut(evs), BagAt(evs, b))
  {
    if evs != [] && !Last(evs).Truncate? {
      PastCutSnoc(evs);
      PastCutBag(Butlast(evs), b);
    }
  }

  lemma SuffixWritesLast(ix: seq<nat>, evs: seq<Event>, c: nat, k: Key, i: int)
    requires c <= |evs| && c <= i
    ensures WritesLast(ix, evs, k, i) <==> WritesLast(ix, evs[c..], k, i - c)
  {
    var suf := evs[c..];
    assert forall j :: 0 <= j < |suf| ==> suf[j] == evs[c + j];
    if WritesLast(ix, suf, k, i - c) {
      forall m | i < m < |evs|
        ensures !Writes(ix, evs[m].change, k)
      {
        assert !Writes(ix, suf[m - c].change, k);
      }
    }
  }

  /** A row that stands at the end was written past the cut, so whether its
      image was taken is decided there. */
  lemma TakesPastTheCut(ix: seq<nat>, evs: seq<Event>, c: nat, k: Key, w: int)
    requires c <= w < |evs| && Writes(ix, evs[w].change, k)
    ensures TakesTheWritten(ix, evs, k) <==> TakesTheWritten(ix, evs[c..], k)
  {
    hide LooksLike;
    var suf := evs[c..];
    assert forall j :: 0 <= j < |suf| ==> suf[j] == evs[c + j];
    if TakesTheWritten(ix, evs, k) {
      var i, j :| WritesLast(ix, evs, k, i) && i < j < |evs| && LooksLike(ix, evs[j].change, k, evs[i].change.row);
      assert i >= w;
      SuffixWritesLast(ix, evs, c, k, i);
      assert LooksLike(ix, suf[j - c].change, k, suf[i - c].change.row);
    }
    if TakesTheWritten(ix, suf, k) {
      var i, j :| WritesLast(ix, suf, k, i) && i < j < |suf| && LooksLike(ix, suf[j].change, k, suf[i].change.row);
      SuffixWritesLast(ix, evs, c, k, c + i);
      assert LooksLike(ix, evs[c + j].change, k, evs[c + i].change.row);
    }
  }

  lemma StandingWasWritten(ix: seq<nat>, suf: seq<Event>, k: Key) returns (w: nat)
    requires FullImages(ix, suf) && Happens(suf, multiset{}) && HasKey(ix, Bag(suf, multiset{}), k)
    ensures w < |suf| && Writes(ix, suf[w].change, k)
  {
    var r :| r in Bag(suf, multiset{}) && Under(ix, r, k);
    if NoWrite(ix, suf, k) {
      NoWriteShrinks(ix, suf, multiset{}, k, r);
    }
    w :| 0 <= w < |suf| && Writes(ix, suf[w].change, k);
  }

  lemma TakesAlike(ix: seq<nat>, evs: seq<Event>, k: Key, w: nat)
    requires w < |PastCut(evs)| && Writes(ix, PastCut(evs)[w].change, k)
    ensures TakesTheWritten(ix, evs, k) <==> TakesTheWritten(ix, PastCut(evs), k)
  {
    var c := CutAt(evs);
    assert evs[c + w] == PastCut(evs)[w];
    TakesPastTheCut(ix, evs, c, k, c + w);
  }

  /** The collapsed window past the cut, which has no TRUNCATE of its own. */
  function Recut(evs: seq<Event>, c: Collapsed): Collapsed {
    c.(truncate := false, events := |PastCut(evs)|)
  }

  lemma RecutLandsAlike(ix: seq<nat>, evs: seq<Event>, c: Collapsed, t: Table)
    requires FullOrTruncate(ix, evs) && AllReadable(ix, evs) && NetOf(ix, evs, c)
    ensures AllReadable(ix, PastCut(evs)) && NetOf(ix, PastCut(evs), Recut(evs, c)) && Landable(ix, c)
    ensures Landable(ix, Recut(evs, c))
    ensures ApplyCollapsed(ix, c, t) == ApplyCollapsed(ix, Recut(evs, c), if CutAt(evs) > 0 then map[] else t)
  {
    PastCutShape(ix, evs);
    PastCutLog(ix, evs);
    NoTruncate(ix, PastCut(evs));
    TruncatesAtCut(evs);
  }

  lemma ConditionAlike(ix: seq<nat>, evs: seq<Event>, b: multiset<Row>, k: Key)
    requires FullOrTruncate(ix, evs) && AllReadable(ix, evs) && Happens(evs, b)
    ensures HasKey(ix, Bag(evs, b), k) && TakesTheWritten(ix, evs, k)
            <==> HasKey(ix, Bag(evs, b), k) && TakesTheWritten(ix, PastCut(evs), k)
  {
    if CutAt(evs) == 0 {
      assert PastCut(evs) == evs;
    } else if HasKey(ix, Bag(evs, b), k) {
      PastCutShape(ix, evs);
      PastCutBag(evs, b);
      var w := StandingWasWritten(ix, PastCut(evs), k);
      TakesAlike(ix, evs, k, w);
    }
  }

  /** A window of full images with a deferrable key, TRUNCATEs among them,
      landed on the table as it was before it, leaves the right row under `k`
      exactly when it is not the case that a row stands there at the end
      although the last image written there was taken by a DELETE or by an old
      image that looks like it. */
  lemma DeferredWindowExact(ix: seq<nat>, evs: seq<Event>, b: multiset<Row>, c: Collapsed, t: Table, k: Key)
    requires FullOrTruncate(ix, evs) && AllReadable(ix, evs) && NetOf(ix, evs, c)
    requires UniqueKeys(ix, b) && Happens(evs, b) && UniqueKeys(ix, Bag(evs, b))
    requires Agrees(ix, b, t, k)
    ensures Landable(ix, c)
    ensures Agrees(ix, Bag(evs, b), ApplyCollapsed(ix, c, t), k)
            <==> !(HasKey(ix, Bag(evs, b), k) && TakesTheWritten(ix, evs, k))
    ensures !Agrees(ix, Bag(evs, b), ApplyCollapsed(ix, c, t), k) ==> k !in ApplyCollapsed(ix, c, t)
  {
    PastCutShape(ix, evs);
    PastCutBag(evs, b);
    RecutLandsAlike(ix, evs, c, t);
    WindowExact(ix, PastCut(evs), BagAt(evs, b), Recut(evs, c), if CutAt(evs) > 0 then map[] else t, k);
    ConditionAlike(ix, evs, b, k);
  }

  lemma TruncatesAtCut(evs: seq<Event>)
    ensures Truncates(evs) <==> CutAt(evs) > 0
  {
    if CutAt(evs) > 0 {
      assert evs[CutAt(evs) - 1].change.Truncate?;
    }
  }

  /** `1:x` and `2:x` swap keys in one statement (`SET id = 3 - id`). */
  function RowOf(id: string): Row {
    [Text(id), Text("x")]
  }

  function Swap(): seq<Event> {
    [Event(1, Update(Some(RowOf("1")), true, RowOf("2"))), Event(1, Update(Some(RowOf("2")), true, RowOf("1")))]
  }

  lemma SwapHappens(b: multiset<Row>)
    requires b == multiset{RowOf("1"), RowOf("2")}
    ensures Bag(Swap(), b) == b && Happens(Swap(), b)
  {
    var r1, r2, evs := RowOf("1"), RowOf("2"), Swap();
    var one := evs[..1];
    assert one[..0] == [];
    assert Bag(one, b) == Bag([], b) - multiset{r1} + multiset{r2};
    assert Happens([], b);
    assert Taken(one[0].change) <= b;
    assert Happens(one, b);
  }

  lemma SwapTakes()
    ensures KeyAt([0], RowOf("1")) == ["1"] && KeyAt([0], RowOf("2")) == ["2"]
    ensures FullOrTruncate([0], Swap()) && TakesTheWritten([0], Swap(), ["2"])
  {
    assert KeyAt([0], RowOf("1")) == ["1"] && KeyAt([0], RowOf("2")) == ["2"];
    var evs := Swap();
    assert WritesLast([0], evs, ["2"], 0);
    assert LooksLike([0], evs[1].change, ["2"], evs[0].change.row);
  }

  /** The case in point: both rows should stand, and row 2 is lost. */
  lemma SwapOfEqualRowsLosesOne(c: Collapsed)
    requires AllReadable([0], Swap()) && NetOf([0], Swap(), c)
    ensures Landable([0], c)
    ensures ["2"] !in ApplyCollapsed([0], c, map[["1"] := RowOf("1"), ["2"] := RowOf("2")])
  {
    var b, t, k: Key := multiset{RowOf("1"), RowOf("2")}, map[["1"] := RowOf("1"), ["2"] := RowOf("2")], ["2"];
    SwapHappens(b);
    SwapTakes();
    SwapBefore();
    DeferredWindowExact([0], Swap(), b, c, t, k);
  }

  /** The two rows before the swap, and the table that holds them. */
  lemma SwapBefore()
    ensures var b, t, k: Key := multiset{RowOf("1"), RowOf("2")}, map[["1"] := RowOf("1"), ["2"] := RowOf("2")], ["2"];
            UniqueKeys([0], b) && HasKey([0], b, k) && Agrees([0], b, t, k)
  {
    var b, t, k: Key := multiset{RowOf("1"), RowOf("2")}, map[["1"] := RowOf("1"), ["2"] := RowOf("2")], ["2"];
    assert KeyAt([0], RowOf("1")) == ["1"] && KeyAt([0], RowOf("2")) == ["2"];
    assert RowOf("1")[0] != RowOf("2")[0];
    assert UniqueKeys([0], b);
    assert Under([0], RowOf("2"), k) && RowOf("2") in b;
    assert t[k] == RowOf("2");
  }
}
