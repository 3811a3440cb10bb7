// Per-key collapse of one drained window for one table.
module Collapse {
  import opened Rows
  import opened Tail

  /** A decoded row change, as the lane hands it to the collapser. */
  datatype Change =
    | Insert(row: Row)
    | Update(before: Option<Row>, full: bool, row: Row)
    | Delete(image: Row)
    | Truncate

  datatype Event = Event(pos: nat, change: Change)

  /** Where a key stands in the window; `del` says its pre-window row is
      removed in the delete phase. */
  datatype Slot =
    | Pending(at: nat, del: bool)
    | Deleting
    | InResidue(del: bool)
  {
    predicate Deletes() {
      match this
      case Pending(_, d) => d
      case Deleting => true
      case InResidue(d) => d
    }
  }

  /** One table's collapsed window. */
  datatype Collapsed = Collapsed(
    deletes: set<Key>,
    upserts: seq<Row>,
    residue: seq<Op>,
    residueAt: seq<nat>,
    truncate: bool,
    events: nat)

  // ------------------------------------------------------------------
  // Reference semantics: a window's changes, one after the other.

  /** The identity an update leaves and the image it writes. */
  function NewImage(ix: seq<nat>, c: Change): Row
    requires c.Update?
  {
    if c.before.Some? then KeyFromOld(ix, c.before.value, c.row) else c.row
  }

  /** Every identity the change names can be read. */
  predicate Readable(ix: seq<nat>, c: Change) {
    match c
    case Insert(row) => Keyed(ix, row)
    case Update(before, _, _) => Keyed(ix, NewImage(ix, c)) && (before.Some? ==> Keyed(ix, before.value))
    case Delete(before) => Keyed(ix, before)
    case Truncate => true
  }

  predicate KeyChanges(ix: seq<nat>, c: Change)
    requires Readable(ix, c)
  {
    c.Update? && c.before.Some? && KeyAt(ix, c.before.value) != KeyAt(ix, NewImage(ix, c))
  }

  /** One change of a table whose keys are unique. A masked image of a row
      that is not there changes nothing. */
  function ReplayOne(ix: seq<nat>, c: Change, t: Table): Table
    requires Readable(ix, c)
  {
    match c
    case Insert(row) => t[KeyAt(ix, row) := row]
    case Delete(before) => t - {KeyAt(ix, before)}
    case Truncate => map[]
    case Update(before, _, _) =>
      var row := NewImage(ix, c);
      var new_ := KeyAt(ix, row);
      var old_ := if before.Some? then KeyAt(ix, before.value) else new_;
      if !HasToast(row) then (t - {old_})[new_ := row]
      else if old_ in t then (t - {old_})[new_ := Patch(row, t[old_])]
      else t
  }

  predicate AllReadable(ix: seq<nat>, evs: seq<Event>) {
    forall i :: 0 <= i < |evs| ==> Readable(ix, evs[i].change)
  }

  function Replay(ix: seq<nat>, evs: seq<Event>, t: Table): Table
    requires AllReadable(ix, evs)
  {
    if evs == [] then t
    else ReplayOne(ix, evs[|evs| - 1].change, Replay(ix, evs[..|evs| - 1], t))
  }

  /** A full old image is the row that is at its key when the change happens:
      what a key checked row by row guarantees. */
  predicate OldImageHolds(ix: seq<nat>, c: Change, t: Table)
    requires Readable(ix, c)
  {
    KeyChanges(ix, c) && c.full ==>
      KeyAt(ix, c.before.value) in t && t[KeyAt(ix, c.before.value)] == c.before.value
  }

  predicate OldImagesHold(ix: seq<nat>, evs: seq<Event>, t: Table)
    requires AllReadable(ix, evs)
  {
    evs == []
    || (OldImagesHold(ix, evs[..|evs| - 1], t)
        && OldImageHolds(ix, evs[|evs| - 1].change, Replay(ix, evs[..|evs| - 1], t)))
  }

  // ------------------------------------------------------------------
  // What the collapser has seen since the last truncate, as elementary
  // changes. The one branch that looks back is the deferred duplicate: a full
  // old image that is not the row this window put at its key names the
  // pre-window row, so the row this window put there is put back.

  function OtherRow(v: View, k: Key, before: Row): (r: Option<Row>) {
    if k !in v.sticky && k in v.images && v.images[k] != before then Some(v.images[k]) else None
  }

  /** The row a key-changing update takes away from its old key. */
  function Leaving(v: View, old_: Key, before: Row, full: bool): (r: seq<Op>) {
    var other := if full then OtherRow(v, old_, before) else None;
    if other.Some? then [Del(old_), Put(old_, other.value)] else [Del(old_)]
  }

  function Elementary(ix: seq<nat>, v: View, c: Change): (r: seq<Op>)
    requires Readable(ix, c)
  {
    match c
    case Insert(row) => [Put(KeyAt(ix, row), row)]
    case Delete(image) => [Del(KeyAt(ix, image))]
    case Truncate => []
    case Update(before, full, _) =>
      var row := NewImage(ix, c);
      var new_ := KeyAt(ix, row);
      var write := if HasToast(row) then Masked(new_, row) else Put(new_, row);
      if !KeyChanges(ix, c) then [write]
      else
        var old_ := KeyAt(ix, before.value);
        if HasToast(row) then [Move(old_, new_, row)]
        else Leaving(v, old_, before.value, full) + [write]
  }

  function Tag(pos: nat, ops: seq<Op>): (r: seq<Tagged>)
    ensures |r| == |ops| && forall i :: 0 <= i < |ops| ==> r[i] == Tagged(pos, ops[i])
  {
    seq(|ops|, i requires 0 <= i < |ops| => Tagged(pos, ops[i]))
  }

  function Log(ix: seq<nat>, evs: seq<Event>): (l: seq<Tagged>)
    requires AllReadable(ix, evs)
  {
    if evs == [] then []
    else
      var e := evs[|evs| - 1];
      var l := Log(ix, evs[..|evs| - 1]);
      if e.change.Truncate? then [] else l + Tag(e.pos, Elementary(ix, ViewOf(l), e.change))
  }

  predicate Truncates(evs: seq<Event>) {
    exists i :: 0 <= i < |evs| && evs[i].change.Truncate?
  }

  function Start(evs: seq<Event>, t: Table): Table {
    if Truncates(evs) then map[] else t
  }

  lemma TwoOps(pos: nat, a: Op, b: Op, t: Table)
    ensures ApplyAll(Tag(pos, [a, b]), t) == Apply(b, Apply(a, t))
  {
    var l := Tag(pos, [a, b]);
    assert l[..1][..0] == [];
    assert ApplyAll(l[..1], t) == Apply(a, ApplyAll([], t));
  }

  lemma OneOp(pos: nat, a: Op, t: Table)
    ensures ApplyAll(Tag(pos, [a]), t) == Apply(a, t)
  {
    var l := Tag(pos, [a]);
    assert l[..0] == [];
    assert ApplyAll(l, t) == Apply(a, ApplyAll([], t));
  }

  /** A key still riding the set phases holds its image, whatever the tail. */
  lemma {:induction false} ImageIsRow(l: seq<Tagged>, k: Key, t: Table)
    requires k !in ViewOf(l).sticky && k in ViewOf(l).images
    ensures k in ApplyAll(l, t) && ApplyAll(l, t)[k] == ViewOf(l).images[k]
  {
    if l != [] {
      var p, e := l[..|l| - 1], l[|l| - 1];
      assert l == p + [e];
      ViewSnoc(p, e);
      if k !in Touches(e.op) {
        ImageIsRow(p, k, t);
      }
    }
  }

  /** A window's own image at a key is the row the source has there, so a full
      old image that holds names it. */
  lemma NoOtherRow(ix: seq<nat>, l: seq<Tagged>, c: Change, t: Table)
    requires Readable(ix, c) && KeyChanges(ix, c) && c.full && OldImageHolds(ix, c, ApplyAll(l, t))
    ensures OtherRow(ViewOf(l), KeyAt(ix, c.before.value), c.before.value).None?
  {
    var k := KeyAt(ix, c.before.value);
    if k !in ViewOf(l).sticky && k in ViewOf(l).images {
      ImageIsRow(l, k, t);
    }
  }

  lemma KeyChangeIsReplay(ix: seq<nat>, l: seq<Tagged>, pos: nat, c: Change, t: Table)
    requires Readable(ix, c) && KeyChanges(ix, c) && !HasToast(NewImage(ix, c))
    requires OldImageHolds(ix, c, ApplyAll(l, t))
    ensures ApplyAll(Tag(pos, Elementary(ix, ViewOf(l), c)), ApplyAll(l, t)) == ReplayOne(ix, c, ApplyAll(l, t))
  {
    var ops := Elementary(ix, ViewOf(l), c);
    if c.full {
      NoOtherRow(ix, l, c, t);
    }
    assert ops == [ops[0], ops[1]];
    TwoOps(pos, ops[0], ops[1], ApplyAll(l, t));
  }

  lemma PlainIsReplay(ix: seq<nat>, v: View, pos: nat, c: Change, s: Table)
    requires Readable(ix, c) && !c.Truncate? && !(KeyChanges(ix, c) && !HasToast(NewImage(ix, c)))
    ensures ApplyAll(Tag(pos, Elementary(ix, v, c)), s) == ReplayOne(ix, c, s)
  {
    hide Keyed;
    OneOp(pos, Elementary(ix, v, c)[0], s);
    if c.Update? {
      var row := NewImage(ix, c);
      assert (s - {KeyAt(ix, row)})[KeyAt(ix, row) := row] == s[KeyAt(ix, row) := row];
    }
  }

  lemma ElementaryIsReplayOne(ix: seq<nat>, l: seq<Tagged>, pos: nat, c: Change, t: Table)
    requires Readable(ix, c) && !c.Truncate?
    requires OldImageHolds(ix, c, ApplyAll(l, t))
    ensures ApplyAll(Tag(pos, Elementary(ix, ViewOf(l), c)), ApplyAll(l, t)) == ReplayOne(ix, c, ApplyAll(l, t))
  {
    if KeyChanges(ix, c) && !HasToast(NewImage(ix, c)) {
      KeyChangeIsReplay(ix, l, pos, c, t);
    } else {
      PlainIsReplay(ix, ViewOf(l), pos, c, ApplyAll(l, t));
    }
  }

  lemma StartSnoc(evs: seq<Event>, t: Table)
    requires evs != [] && !evs[|evs| - 1].change.Truncate?
    ensures Start(evs, t) == Start(evs[..|evs| - 1], t)
  {
    assert forall i :: 0 <= i < |evs| && evs[i].change.Truncate? ==>
      i < |evs| - 1 && evs[..|evs| - 1][i].change.Truncate?;
  }

  /** The elementary changes since the last truncate, from the empty table if
      there was one, are the whole window. */
  lemma {:induction false} LogIsReplay(ix: seq<nat>, evs: seq<Event>, t: Table)
    requires AllReadable(ix, evs) && OldImagesHold(ix, evs, t)
    ensures ApplyAll(Log(ix, evs), Start(evs, t)) == Replay(ix, evs, t)
  {
    if evs != [] {
      var p := evs[..|evs| - 1];
      var e := evs[|evs| - 1];
      if e.change.Truncate? {
        assert Log(ix, evs) == [];
      } else {
        LogIsReplay(ix, p, t);
        StartSnoc(evs, t);
        var l, s := Log(ix, p), Start(p, t);
        var more := Tag(e.pos, Elementary(ix, ViewOf(l), e.change));
        assert ApplyAll(l, s) == Replay(ix, p, t);
        ElementaryIsReplayOne(ix, l, e.pos, e.change, s);
        ApplyAllConcat(l, more, s);
        assert Log(ix, evs) == l + more;
      }
    }
  }

  // ------------------------------------------------------------------
  // The collapser itself.

  /** The slots say, per key, what the view says about it. */
  predicate SlotsShow(slots: map<Key, Slot>, place: map<Key, nat>, v: View) {
    && slots.Keys == v.touched
    && forall k :: k in slots ==>
         && (slots[k].InResidue? <==> k in v.sticky)
         && (slots[k].Deletes() <==> k in v.dels)
         && (slots[k].Deleting? ==> k !in place)
         && (slots[k].Pending? ==> k in place && place[k] == slots[k].at)
  }

  /** The image list holds exactly the images, each at its key's place. */
  predicate ImagesAt(ix: seq<nat>, upserts: seq<Option<Row>>, place: map<Key, nat>, images: Table) {
    && place.Keys == images.Keys
    && (forall k :: k in place ==>
          && place[k] < |upserts| && upserts[place[k]] == Some(images[k])
          && Keyed(ix, images[k]) && KeyAt(ix, images[k]) == k)
    && (forall i :: 0 <= i < |upserts| && upserts[i].Some? ==>
          && Keyed(ix, upserts[i].value) && KeyAt(ix, upserts[i].value) in place
          && place[KeyAt(ix, upserts[i].value)] == i)
  }

  lemma ImagesReplaced(ix: seq<nat>, ups: seq<Option<Row>>, place: map<Key, nat>, m: Table, k: Key, row: Row)
    requires ImagesAt(ix, ups, place, m) && k in place && Keyed(ix, row) && KeyAt(ix, row) == k
    ensures ImagesAt(ix, ups[place[k] := Some(row)], place, m[k := row])
  {
  }

  lemma ImagesAppended(ix: seq<nat>, ups: seq<Option<Row>>, place: map<Key, nat>, m: Table, k: Key, row: Row)
    requires ImagesAt(ix, ups, place, m) && k !in place && Keyed(ix, row) && KeyAt(ix, row) == k
    ensures ImagesAt(ix, ups + [Some(row)], place[k := |ups|], m[k := row])
  {
  }

  lemma ImagesDropped(ix: seq<nat>, ups: seq<Option<Row>>, place: map<Key, nat>, m: Table, k: Key)
    requires ImagesAt(ix, ups, place, m)
    ensures ImagesAt(ix, if k in place then ups[place[k] := None] else ups, place - {k}, m - {k})
  {
  }

  lemma StepsSnoc(v: View, pos: nat, a: seq<Op>, op: Op)
    ensures Steps(v, Tag(pos, a + [op])) == Step(Steps(v, Tag(pos, a)), Tagged(pos, op))
  {
    var l := Tag(pos, a + [op]);
    assert l[..|l| - 1] == Tag(pos, a);
  }

  lemma StepsOne(v: View, e: Tagged)
    ensures Steps(v, [e]) == Step(v, e) && Tag(e.pos, [e.op]) == [e]
  {
    assert [e][..0] == [];
    assert Steps(v, []) == v;
  }

  lemma StepsTwo(v: View, e: Tagged, f: Tagged)
    ensures Steps(v, [e, f]) == Step(Step(v, e), f)
  {
    assert [e, f][..1] == [e];
    StepsOne(v, e);
  }

  /** An update's elementary changes, one at a time. */
  lemma ElementarySteps(ix: seq<nat>, v: View, pos: nat, c: Change)
    requires c.Update? && Readable(ix, c)
    ensures var row := NewImage(ix, c);
            var to := KeyAt(ix, row);
            Steps(v, Tag(pos, Elementary(ix, v, c))) ==
            if !KeyChanges(ix, c) then Step(v, Tagged(pos, if HasToast(row) then Masked(to, row) else Put(to, row)))
            else if HasToast(row) then Step(v, Tagged(pos, Move(KeyAt(ix, c.before.value), to, row)))
            else
              var gone := Leaving(v, KeyAt(ix, c.before.value), c.before.value, c.full);
              Step(Steps(v, Tag(pos, gone)), Tagged(pos, Put(to, row)))
  {
    var row := NewImage(ix, c);
    var to := KeyAt(ix, row);
    if KeyChanges(ix, c) && !HasToast(row) {
      StepsSnoc(v, pos, Leaving(v, KeyAt(ix, c.before.value), c.before.value, c.full), Put(to, row));
    } else {
      StepsOne(v, Tagged(pos, Elementary(ix, v, c)[0]));
    }
  }

  lemma SlotsQueued(slots: map<Key, Slot>, place: map<Key, nat>, v: View, e: Tagged, n: nat)
    requires SlotsShow(slots, place, v) && v.sticky <= v.touched && v.dels <= v.touched && v.images.Keys <= v.touched
    requires e.op.Put? && (e.op.key in slots ==> slots[e.op.key].Deleting?)
    ensures SlotsShow(slots[e.op.key := Pending(n, e.op.key in slots)], place[e.op.key := n], Step(v, e))
  {
  }

  lemma SlotsDisplaced(slots: map<Key, Slot>, place: map<Key, nat>, v: View, k: Key, d: Tagged, p: Tagged)
    requires SlotsShow(slots, place, v) && v.sticky <= v.touched && k in slots && slots[k].Pending? && k in v.images
    requires d.op == Del(k) && p.op == Put(k, v.images[k])
    ensures SlotsShow(slots[k := Pending(slots[k].at, true)], place, Step(Step(v, d), p))
    ensures Step(Step(v, d), p).images == v.images
  {
  }

  lemma SlotsDropped(slots: map<Key, Slot>, place: map<Key, nat>, v: View, e: Tagged)
    requires SlotsShow(slots, place, v) && v.sticky <= v.touched
    requires e.op.Del? && (e.op.key in slots ==> !slots[e.op.key].InResidue?)
    ensures SlotsShow(slots[e.op.key := Deleting], place - {e.op.key}, Step(v, e))
  {
  }

  /** Keys that go sticky keep their pending delete. */
  lemma SlotsStick(slots: map<Key, Slot>, place: map<Key, nat>, v: View, e: Tagged, more: map<Key, Slot>)
    requires SlotsShow(slots, place, v) && v.dels <= v.touched && NeedsBase(e.op)
    requires more.Keys == Touches(e.op)
    requires forall k :: k in more ==> more[k] == InResidue(k in slots && slots[k].Deletes())
    ensures SlotsShow(slots + more, place, Step(v, e))
  {
  }

  function Ops(l: seq<Tagged>): (r: seq<Op>)
    ensures |r| == |l| && forall i :: 0 <= i < |l| ==> r[i] == l[i].op
  {
    seq(|l|, i requires 0 <= i < |l| => l[i].op)
  }

  function Positions(l: seq<Tagged>): (r: seq<nat>)
    ensures |r| == |l| && forall i :: 0 <= i < |l| ==> r[i] == l[i].pos
  {
    seq(|l|, i requires 0 <= i < |l| => l[i].pos)
  }

  /** What the collapser holds is the view; `place` is where each image lies. */
  predicate Shows(ix: seq<nat>, slots: map<Key, Slot>, upserts: seq<Option<Row>>, ops: seq<Op>, at: seq<nat>,
                  place: map<Key, nat>, v: View) {
    && ops == Ops(v.tail) && at == Positions(v.tail)
    && v.sticky <= v.touched && v.dels <= v.touched && v.images.Keys <= v.touched
    && SlotsShow(slots, place, v) && ImagesAt(ix, upserts, place, v.images)
  }

  /** What the slot of a key says about its image. */
  lemma SlotSays(ix: seq<nat>, slots: map<Key, Slot>, upserts: seq<Option<Row>>, ops: seq<Op>, at: seq<nat>,
                 place: map<Key, nat>, v: View, k: Key)
    requires Shows(ix, slots, upserts, ops, at, place, v)
    ensures k in slots && slots[k].InResidue? <==> k in v.sticky
    ensures k in place <==> k in v.images
    ensures k !in v.sticky ==> (k in slots && slots[k].Pending? <==> k in place)
    ensures k in slots && slots[k].Pending? ==>
              && k in v.images && k in place && place[k] == slots[k].at < |upserts|
              && upserts[slots[k].at] == Some(v.images[k])
  {
  }

  /** A change that stays in the ordered tail: of a sticky key, or one whose
      keys go sticky with it. */
  lemma TailShows(ix: seq<nat>, slots: map<Key, Slot>, upserts: seq<Option<Row>>, ops: seq<Op>, at: seq<nat>,
                  place: map<Key, nat>, v: View, e: Tagged, more: map<Key, Slot>)
    requires Shows(ix, slots, upserts, ops, at, place, v)
    requires if NeedsBase(e.op) then more.Keys == Touches(e.op) else more == map[] && Touches(e.op) <= v.sticky
    requires forall k :: k in more ==> more[k] == InResidue(k in slots && slots[k].Deletes())
    ensures Shows(ix, slots + more, upserts, ops + [e.op], at + [e.pos], place, Step(v, e))
  {
    if NeedsBase(e.op) {
      SlotsStick(slots, place, v, e, more);
    } else {
      assert slots + more == slots;
    }
  }

  /** Last write wins in place. */
  lemma ReplaceShows(ix: seq<nat>, slots: map<Key, Slot>, upserts: seq<Option<Row>>, ops: seq<Op>, at: seq<nat>,
                     place: map<Key, nat>, v: View, e: Tagged)
    requires Shows(ix, slots, upserts, ops, at, place, v) && e.op.Put? && e.op.key in place && e.op.key !in v.sticky
    requires Keyed(ix, e.op.row) && KeyAt(ix, e.op.row) == e.op.key
    ensures place[e.op.key] < |upserts|
    ensures Shows(ix, slots, upserts[place[e.op.key] := Some(e.op.row)], ops, at, place, Step(v, e))
  {
    ImagesReplaced(ix, upserts, place, v.images, e.op.key, e.op.row);
  }

  lemma QueueShows(ix: seq<nat>, slots: map<Key, Slot>, upserts: seq<Option<Row>>, ops: seq<Op>, at: seq<nat>,
                   place: map<Key, nat>, v: View, e: Tagged)
    requires Shows(ix, slots, upserts, ops, at, place, v) && e.op.Put? && e.op.key !in place && e.op.key !in v.sticky
    requires Keyed(ix, e.op.row) && KeyAt(ix, e.op.row) == e.op.key
    ensures var k := e.op.key;
            Shows(ix, slots[k := Pending(|upserts|, k in slots)], upserts + [Some(e.op.row)], ops, at,
                  place[k := |upserts|], Step(v, e))
  {
    ImagesAppended(ix, upserts, place, v.images, e.op.key, e.op.row);
    SlotsQueued(slots, place, v, e, |upserts|);
  }

  lemma DropShows(ix: seq<nat>, slots: map<Key, Slot>, upserts: seq<Option<Row>>, ops: seq<Op>, at: seq<nat>,
                  place: map<Key, nat>, v: View, e: Tagged)
    requires Shows(ix, slots, upserts, ops, at, place, v) && e.op.Del? && e.op.key !in v.sticky
    ensures var k := e.op.key;
            && (k in place ==> place[k] < |upserts|)
            && Shows(ix, slots[k := Deleting], if k in place then upserts[place[k] := None] else upserts, ops, at,
                     place - {k}, Step(v, e))
  {
    ImagesDropped(ix, upserts, place, v.images, e.op.key);
    SlotsDropped(slots, place, v, e);
  }

  lemma DisplaceShows(ix: seq<nat>, slots: map<Key, Slot>, upserts: seq<Option<Row>>, ops: seq<Op>, at: seq<nat>,
                      place: map<Key, nat>, v: View, d: Tagged, p: Tagged)
    requires Shows(ix, slots, upserts, ops, at, place, v) && d.op.Del? && d.op.key in slots
    requires slots[d.op.key].Pending? && d.op.key in v.images && p.op == Put(d.op.key, v.images[d.op.key])
    ensures var k := d.op.key;
            Shows(ix, slots[k := Pending(slots[k].at, true)], upserts, ops, at, place, Step(Step(v, d), p))
  {
    SlotsDisplaced(slots, place, v, d.op.key, d, p);
  }

  /** The images whose place is below `i`, one per key. */
  ghost predicate Taken(ix: seq<nat>, place: map<Key, nat>, images: Table, i: nat, ups: seq<Row>) {
    && (forall r :: r in ups ==>
          && Keyed(ix, r) && KeyAt(ix, r) in place && place[KeyAt(ix, r)] < i
          && KeyAt(ix, r) in images && images[KeyAt(ix, r)] == r)
    && (forall k :: k in place && place[k] < i ==> k in images && images[k] in ups)
    && (forall a, b :: 0 <= a < b < |ups| ==> KeyAt(ix, ups[a]) != KeyAt(ix, ups[b]))
  }

  lemma TakenMore(ix: seq<nat>, place: map<Key, nat>, images: Table, i: nat, ups: seq<Row>, r: Row)
    requires Taken(ix, place, images, i, ups) && Keyed(ix, r)
    requires KeyAt(ix, r) in place && KeyAt(ix, r) in images && images[KeyAt(ix, r)] == r
    requires forall k :: k in place ==> (place[k] == i <==> k == KeyAt(ix, r))
    ensures Taken(ix, place, images, i + 1, ups + [r])
  {
    hide KeyAt, Keyed;
    assert forall a :: 0 <= a < |ups| ==> ups[a] in ups;
  }

  lemma TakenNext(ix: seq<nat>, upserts: seq<Option<Row>>, place: map<Key, nat>, images: Table, i: nat, ups: seq<Row>)
    requires ImagesAt(ix, upserts, place, images) && Taken(ix, place, images, i, ups) && i < |upserts|
    ensures Taken(ix, place, images, i + 1, if upserts[i].Some? then ups + [upserts[i].value] else ups)
  {
    hide KeyAt, Keyed;
    if upserts[i].Some? {
      TakenMore(ix, place, images, i, ups, upserts[i].value);
    }
  }

  lemma TakenLists(ix: seq<nat>, upserts: seq<Option<Row>>, place: map<Key, nat>, images: Table, ups: seq<Row>)
    requires ImagesAt(ix, upserts, place, images) && Taken(ix, place, images, |upserts|, ups)
    ensures Lists(ix, ups, images)
  {
    assert forall a :: 0 <= a < |ups| ==> ups[a] in ups;
  }

  class Collapser {
    const ix: seq<nat>
    var slots: map<Key, Slot>
    var upserts: seq<Option<Row>>
    var ops: seq<Op>
    var at: seq<nat>
    var pos: nat
    var truncated: bool
    var events: nat
    /** What the changes since the last truncate amount to. */
    ghost var view: View
    ghost var place: map<Key, nat>

    ghost predicate Valid()
      reads this
    {
      Shows(ix, slots, upserts, ops, at, place, view)
    }

    constructor (ix: seq<nat>)
      ensures Valid() && this.ix == ix && view == ViewOf([]) && !truncated && events == 0
    {
      this.ix := ix;
      slots, upserts, ops, at, pos, truncated, events := map[], [], [], [], 0, false, 0;
      view, place := ViewOf([]), map[];
    }

    method At(p: nat)
      modifies this`pos
      ensures pos == p
    {
      pos := p;
    }

    /** A change that stays in the ordered tail; `more` are the keys that go
        sticky with it. */
    method Push(op: Op, more: map<Key, Slot>)
      requires Valid()
      requires if NeedsBase(op) then more.Keys == Touches(op) else more == map[] && Touches(op) <= view.sticky
      requires forall k :: k in more ==> more[k] == InResidue(k in slots && slots[k].Deletes())
      modifies this`slots, this`ops, this`at, this`view
      ensures Valid() && view == Step(old(view), Tagged(pos, op))
    {
      TailShows(ix, slots, upserts, ops, at, place, view, Tagged(pos, op), more);
      hide Shows, Step;
      slots, ops, at, view := slots + more, ops + [op], at + [pos], Step(view, Tagged(pos, op));
    }

    /** A whole image lands where its key stands: last write wins in place, a
        first image is queued, a sticky key stays in the tail. */
    method PutImage(key: Key, row: Row)
      requires Valid() && Keyed(ix, row) && KeyAt(ix, row) == key
      modifies this`slots, this`upserts, this`ops, this`at, this`view, this`place
      ensures Valid() && view == Step(old(view), Tagged(pos, Put(key, row)))
    {
      hide Shows, Step;
      SlotSays(ix, slots, upserts, ops, at, place, view, key);
      ghost var e := Tagged(pos, Put(key, row));
      if key in slots && slots[key].InResidue? {
        Push(Put(key, row), map[]);
      } else {
        if key in slots && slots[key].Pending? {
          ReplaceShows(ix, slots, upserts, ops, at, place, view, e);
          upserts := upserts[slots[key].at := Some(row)];
        } else {
          QueueShows(ix, slots, upserts, ops, at, place, view, e);
          slots := slots[key := Pending(|upserts|, key in slots)];
          place := place[key := |upserts|];
          upserts := upserts + [Some(row)];
        }
        view := Step(view, e);
      }
    }

    method Insert(row: Row) returns (r: Result<()>)
      requires Valid()
      modifies this
      ensures Valid() && events == old(events) + 1 && pos == old(pos) && truncated == old(truncated)
      ensures r.Ok? <==> Keyed(ix, row)
      ensures view == if r.Ok? then Step(old(view), Tagged(pos, Put(KeyAt(ix, row), row))) else old(view)
    {
      events := events + 1;
      var k := KeyOf(ix, row);
      if k.Err? {
        return Err(k.error);
      }
      PutImage(k.value, row);
      r := Ok(());
    }

    /** A delete, and the old identity of a key-changing update. */
    method PutDelete(key: Key)
      requires Valid()
      modifies this`slots, this`upserts, this`ops, this`at, this`view, this`place
      ensures Valid() && view == Step(old(view), Tagged(pos, Del(key)))
    {
      hide Shows, Step;
      SlotSays(ix, slots, upserts, ops, at, place, view, key);
      if key in slots && slots[key].InResidue? {
        Push(Del(key), map[]);
      } else {
        DropShows(ix, slots, upserts, ops, at, place, view, Tagged(pos, Del(key)));
        if key in slots && slots[key].Pending? {
          upserts := upserts[slots[key].at := None];
        }
        slots, place := slots[key := Deleting], place - {key};
        view := Step(view, Tagged(pos, Del(key)));
      }
    }

    method DeleteRow(image: Row) returns (r: Result<()>)
      requires Valid()
      modifies this
      ensures Valid() && events == old(events) + 1 && pos == old(pos) && truncated == old(truncated)
      ensures r.Ok? <==> Keyed(ix, image)
      ensures view == if r.Ok? then Step(old(view), Tagged(pos, Del(KeyAt(ix, image)))) else old(view)
    {
      events := events + 1;
      var k := KeyOf(ix, image);
      if k.Err? {
        return Err(k.error);
      }
      PutDelete(k.value);
      r := Ok(());
    }

    /** Everything staged so far is moot. */
    method TruncateTable()
      requires Valid()
      modifies this
      ensures Valid() && view == ViewOf([]) && truncated && events == old(events) + 1 && pos == old(pos)
    {
      events := events + 1;
      slots, upserts, ops, at, truncated := map[], [], [], [], true;
      view, place := ViewOf([]), map[];
    }

    /** A masked image: its key goes sticky and keeps its pending phases. */
    method Mask(key: Key, row: Row)
      requires Valid()
      modifies this`slots, this`ops, this`at, this`view
      ensures Valid() && view == Step(old(view), Tagged(pos, Masked(key, row)))
    {
      var d := key in slots && slots[key].Deletes();
      Push(Masked(key, row), map[key := InResidue(d)]);
    }

    /** A key-changing masked image: the row moves, and both keys go sticky. */
    method MoveRow(from: Key, to: Key, row: Row)
      requires Valid() && from != to
      modifies this`slots, this`ops, this`at, this`view
      ensures Valid() && view == Step(old(view), Tagged(pos, Move(from, to, row)))
    {
      var dFrom := from in slots && slots[from].Deletes();
      var dTo := to in slots && slots[to].Deletes();
      var stuck := map[from := InResidue(dFrom), to := InResidue(dTo)];
      Push(Move(from, to, row), stuck);
    }

    /** A key-changing update with a whole new image: which row leaves the
        old key depends on whether the full old image is the one put there. */
    method LeaveOld(key: Key, before: Row, full: bool)
      requires Valid()
      modifies this`slots, this`upserts, this`ops, this`at, this`view, this`place
      ensures Valid()
      ensures view == Steps(old(view), Tag(pos, Leaving(old(view), key, before, full)))
    {
      hide Shows, Step;
      SlotSays(ix, slots, upserts, ops, at, place, view, key);
      var other := full && key in slots && slots[key].Pending? && upserts[slots[key].at] != Some(before);
      ghost var gone, back := Tagged(pos, Del(key)), Tagged(pos, Put(key, if other then view.images[key] else []));
      if other {
        StepsTwo(view, gone, back);
        assert Tag(pos, [gone.op, back.op]) == [gone, back];
        DisplaceShows(ix, slots, upserts, ops, at, place, view, gone, back);
        slots := slots[key := Pending(slots[key].at, true)];
        view := Step(Step(view, gone), back);
      } else {
        StepsOne(view, gone);
        PutDelete(key);
      }
    }

    method WriteImage(key: Key, row: Row, toast: bool)
      requires Valid() && Keyed(ix, row) && KeyAt(ix, row) == key
      modifies this`slots, this`upserts, this`ops, this`at, this`view, this`place
      ensures Valid() && view == Step(old(view), Tagged(pos, if toast then Masked(key, row) else Put(key, row)))
    {
      if toast {
        Mask(key, row);
      } else {
        PutImage(key, row);
      }
    }

    /** A key-changing update whose identities have been read. */
    method ChangeKey(from: Key, to: Key, before: Row, full: bool, row: Row)
      requires Valid() && from != to && Keyed(ix, row) && KeyAt(ix, row) == to
      modifies this`slots, this`upserts, this`ops, this`at, this`view, this`place
      ensures Valid()
      ensures view == if HasToast(row) then Step(old(view), Tagged(pos, Move(from, to, row)))
                      else
                        var gone := Leaving(old(view), from, before, full);
                        Step(Steps(old(view), Tag(pos, gone)), Tagged(pos, Put(to, row)))
    {
      if HasToast(row) {
        MoveRow(from, to, row);
      } else {
        LeaveOld(from, before, full);
        PutImage(to, row);
      }
    }

    method UpdateImage(before: Option<Row>, full: bool, image: Row) returns (r: Result<()>)
      requires Valid()
      modifies this
      ensures Valid() && events == old(events) + 1 && pos == old(pos) && truncated == old(truncated)
      ensures r.Ok? <==> Readable(ix, Update(before, full, image))
      ensures view == if r.Err? then old(view)
                      else Steps(old(view), Tag(pos, Elementary(ix, old(view), Update(before, full, image))))
    {
      hide Shows, Step;
      events := events + 1;
      var row := if before.Some? then KeyFromOld(ix, before.value, image) else image;
      var n := KeyOf(ix, row);
      if n.Err? {
        return Err(n.error);
      }
      var from := n.value;
      if before.Some? {
        var o := KeyOf(ix, before.value);
        if o.Err? {
          return Err(o.error);
        }
        from := o.value;
      }
      ElementarySteps(ix, view, pos, Update(before, full, image));
      if from != n.value {
        ChangeKey(from, n.value, before.value, full, row);
      } else {
        WriteImage(n.value, row, HasToast(row));
      }
      r := Ok(());
    }

    /** One change of the window, at its transaction's position. */
    method Feed(e: Event) returns (r: Result<()>)
      requires Valid()
      modifies this
      ensures Valid() && events == old(events) + 1
      ensures r.Ok? <==> Readable(ix, e.change)
      ensures r.Ok? ==> (truncated <==> old(truncated) || e.change.Truncate?)
      ensures r.Ok? ==>
                view == if e.change.Truncate? then ViewOf([])
                        else Steps(old(view), Tag(e.pos, Elementary(ix, old(view), e.change)))
    {
      hide Shows, Step;
      At(e.pos);
      r := Ok(());
      match e.change {
        case Insert(row) =>
          if Keyed(ix, row) {
            StepsOne(view, Tagged(e.pos, Put(KeyAt(ix, row), row)));
          }
          r := Insert(row);
        case Update(before, full, row) =>
          r := UpdateImage(before, full, row);
        case Delete(image) =>
          if Keyed(ix, image) {
            StepsOne(view, Tagged(e.pos, Del(KeyAt(ix, image))));
          }
          r := DeleteRow(image);
        case Truncate =>
          TruncateTable();
      }
    }

    method Finish() returns (c: Collapsed)
      requires Valid()
      ensures c.deletes == view.dels && c.residue == Ops(view.tail) && c.residueAt == Positions(view.tail)
      ensures c.truncate == truncated && c.events == events
      ensures Lists(ix, c.upserts, view.images)
    {
      var ups := [];
      var i := 0;
      while i < |upserts|
        invariant 0 <= i <= |upserts| && Taken(ix, place, view.images, i, ups)
      {
        TakenNext(ix, upserts, place, view.images, i, ups);
        if upserts[i].Some? {
          ups := ups + [upserts[i].value];
        }
        i := i + 1;
      }
      TakenLists(ix, upserts, place, view.images, ups);
      c := Collapsed((set k | k in slots && slots[k].Deletes()), ups, ops, at, truncated, events);
    }
  }

  /** The rows of `m`, one per key. */
  predicate Lists(ix: seq<nat>, rows: seq<Row>, m: Table) {
    && (forall i :: 0 <= i < |rows| ==>
          Keyed(ix, rows[i]) && KeyAt(ix, rows[i]) in m && m[KeyAt(ix, rows[i])] == rows[i])
    && (forall k :: k in m ==> m[k] in rows && Keyed(ix, m[k]) && KeyAt(ix, m[k]) == k)
    && (forall i, j :: 0 <= i < j < |rows| ==> KeyAt(ix, rows[i]) != KeyAt(ix, rows[j]))
  }

  // ------------------------------------------------------------------
  // Applying a collapsed window: truncate, delete the deleted keys and the
  // keys about to be written, insert, then the tail in order.

  predicate Landable(ix: seq<nat>, c: Collapsed) {
    && |c.residue| == |c.residueAt|
    && (forall i :: 0 <= i < |c.upserts| ==> Keyed(ix, c.upserts[i]))
  }

  function KeysOf(ix: seq<nat>, rows: seq<Row>): set<Key>
    requires forall i :: 0 <= i < |rows| ==> Keyed(ix, rows[i])
  {
    set i | 0 <= i < |rows| :: KeyAt(ix, rows[i])
  }

  function InsertRows(ix: seq<nat>, rows: seq<Row>, t: Table): Table
    requires forall i :: 0 <= i < |rows| ==> Keyed(ix, rows[i])
  {
    if rows == [] then t
    else InsertRows(ix, rows[..|rows| - 1], t)[KeyAt(ix, rows[|rows| - 1]) := rows[|rows| - 1]]
  }

  function RunTail(ops: seq<Op>, t: Table): Table {
    if ops == [] then t else Apply(ops[|ops| - 1], RunTail(ops[..|ops| - 1], t))
  }

  function ApplyCollapsed(ix: seq<nat>, c: Collapsed, t: Table): Table
    requires Landable(ix, c)
  {
    var base := if c.truncate then map[] else t;
    var swept := base - (c.deletes + KeysOf(ix, c.upserts));
    RunTail(c.residue, InsertRows(ix, c.upserts, swept))
  }

  lemma {:induction false} InsertRowsAt(ix: seq<nat>, rows: seq<Row>, m: Table, t: Table)
    requires forall i :: 0 <= i < |rows| ==>
          Keyed(ix, rows[i]) && KeyAt(ix, rows[i]) in m && m[KeyAt(ix, rows[i])] == rows[i]
    ensures InsertRows(ix, rows, t) == t + (map k | k in m && k in KeysOf(ix, rows) :: m[k])
  {
    hide KeyAt, Keyed;
    if rows != [] {
      var p := rows[..|rows| - 1];
      InsertRowsAt(ix, p, m, t);
      var k := KeyAt(ix, rows[|rows| - 1]);
      assert KeysOf(ix, rows) == KeysOf(ix, p) + {k} by {
        assert forall i :: 0 <= i < |p| ==> KeyAt(ix, rows[i]) == KeyAt(ix, p[i]);
      }
    }
  }

  lemma ListedKeys(ix: seq<nat>, rows: seq<Row>, m: Table)
    requires Lists(ix, rows, m)
    ensures KeysOf(ix, rows) == m.Keys
  {
    forall k | k in m
      ensures k in KeysOf(ix, rows)
    {
      var i :| 0 <= i < |rows| && rows[i] == m[k];
      assert KeyAt(ix, rows[i]) == k;
    }
  }

  lemma SweptThenWritten(t: Table, dels: set<Key>, ks: set<Key>, m: Table)
    requires ks == m.Keys
    ensures (t - (dels + ks)) + (map k | k in m && k in ks :: m[k]) == SetPhase(dels, m, t)
  {
  }

  lemma InsertRowsLists(ix: seq<nat>, rows: seq<Row>, m: Table, dels: set<Key>, t: Table)
    requires Lists(ix, rows, m)
    ensures InsertRows(ix, rows, t - (dels + KeysOf(ix, rows))) == SetPhase(dels, m, t)
  {
    var ks := KeysOf(ix, rows);
    ListedKeys(ix, rows, m);
    InsertRowsAt(ix, rows, m, t - (dels + ks));
    SweptThenWritten(t, dels, ks, m);
  }

  lemma {:induction false} RunTailIsApplyAll(l: seq<Tagged>, t: Table)
    ensures RunTail(Ops(l), t) == ApplyAll(l, t)
  {
    if l != [] {
      RunTailIsApplyAll(l[..|l| - 1], t);
      assert Ops(l)[..|l| - 1] == Ops(l[..|l| - 1]);
    }
  }

  /** `c` is what the window `evs` nets to. */
  predicate NetOf(ix: seq<nat>, evs: seq<Event>, c: Collapsed)
    requires AllReadable(ix, evs)
  {
    var v := ViewOf(Log(ix, evs));
    && c.deletes == v.dels
    && Lists(ix, c.upserts, v.images)
    && c.residue == Ops(v.tail) && c.residueAt == Positions(v.tail)
    && c.truncate == Truncates(evs) && c.events == |evs|
  }

  /** The central law: landing the collapsed window set by set leaves the
      table that replaying the window change by change leaves. */
  lemma CollapsedIsReplay(ix: seq<nat>, evs: seq<Event>, c: Collapsed, t: Table)
    requires AllReadable(ix, evs) && NetOf(ix, evs, c)
    requires OldImagesHold(ix, evs, t)
    ensures Landable(ix, c) && ApplyCollapsed(ix, c, t) == Replay(ix, evs, t)
  {
    var l := Log(ix, evs);
    var base := Start(evs, t);
    InsertRowsLists(ix, c.upserts, Images(Head(l)), DelKeys(Head(l)), base);
    RunTailIsApplyAll(Residue(l), SetPhase(DelKeys(Head(l)), Images(Head(l)), base));
    SetPhaseIsReplay(Head(l), base);
    SplitIsReplay(l, base);
    LogIsReplay(ix, evs, t);
  }

  /** A window fed to a fresh collapser, transaction by transaction. The first
      unreadable identity ends the window with its refusal. */
  method CollapseWindow(ix: seq<nat>, evs: seq<Event>) returns (r: Result<Collapsed>)
    ensures r.Ok? <==> AllReadable(ix, evs)
    ensures r.Ok? ==> NetOf(ix, evs, r.value)
    ensures r.Ok? ==> forall t: Table {:trigger OldImagesHold(ix, evs, t)} :: OldImagesHold(ix, evs, t) ==>
              Landable(ix, r.value) && ApplyCollapsed(ix, r.value, t) == Replay(ix, evs, t)
  {
    assert Log(ix, evs[..0]) == [];
    hide ViewOf, Log, Replay, OldImagesHold, ApplyCollapsed, Shows;
    var c := new Collapser(ix);
    var i := 0;
    while i < |evs|
      invariant 0 <= i <= |evs| && c.Valid() && c.ix == ix && fresh(c)
      invariant AllReadable(ix, evs[..i])
      invariant c.view == ViewOf(Log(ix, evs[..i]))
      invariant c.truncated == Truncates(evs[..i]) && c.events == i
    {
      var step := c.Feed(evs[i]);
      if step.Err? {
        return Err(step.error);
      }
      LogSnoc(ix, evs, i);
      i := i + 1;
    }
    assert evs[..|evs|] == evs;
    var w := c.Finish();
    forall t: Table | OldImagesHold(ix, evs, t)
      ensures Landable(ix, w) && ApplyCollapsed(ix, w, t) == Replay(ix, evs, t)
    {
      CollapsedIsReplay(ix, evs, w, t);
    }
    r := Ok(w);
  }

  lemma ReadableSnoc(ix: seq<nat>, evs: seq<Event>, i: nat)
    requires i < |evs| && AllReadable(ix, evs[..i]) && Readable(ix, evs[i].change)
    ensures AllReadable(ix, evs[..i + 1])
    ensures Truncates(evs[..i + 1]) <==> Truncates(evs[..i]) || evs[i].change.Truncate?
  {
    hide Readable;
    var p, n := evs[..i], evs[..i + 1];
    assert n == p + [evs[i]];
    if Truncates(p) {
      var j :| 0 <= j < i && p[j].change.Truncate?;
      assert n[j].change.Truncate?;
    }
    assert n[i] == evs[i];
  }

  lemma LogNext(ix: seq<nat>, evs: seq<Event>, i: nat)
    requires i < |evs| && AllReadable(ix, evs[..i]) && AllReadable(ix, evs[..i + 1]) && Readable(ix, evs[i].change)
    ensures var l := Log(ix, evs[..i]);
            Log(ix, evs[..i + 1]) ==
            if evs[i].change.Truncate? then [] else l + Tag(evs[i].pos, Elementary(ix, ViewOf(l), evs[i].change))
  {
    hide Readable, AllReadable, Elementary, Tag, ViewOf;
    var n := evs[..i + 1];
    assert n[..|n| - 1] == evs[..i] && n[|n| - 1] == evs[i];
  }

  lemma LogSnoc(ix: seq<nat>, evs: seq<Event>, i: nat)
    requires i < |evs| && AllReadable(ix, evs[..i]) && Readable(ix, evs[i].change)
    ensures AllReadable(ix, evs[..i + 1])
    ensures Truncates(evs[..i + 1]) <==> Truncates(evs[..i]) || evs[i].change.Truncate?
    ensures var v := ViewOf(Log(ix, evs[..i]));
            ViewOf(Log(ix, evs[..i + 1])) ==
            if evs[i].change.Truncate? then ViewOf([]) else Steps(v, Tag(evs[i].pos, Elementary(ix, v, evs[i].change)))
  {
    ReadableSnoc(ix, evs, i);
    hide Readable, AllReadable, Elementary, Tag, ViewOf, Log, Steps, Truncates;
    LogNext(ix, evs, i);
    if !evs[i].change.Truncate? {
      var l := Log(ix, evs[..i]);
      ViewConcat(l, Tag(evs[i].pos, Elementary(ix, ViewOf(l), evs[i].change)));
    }
  }
}
