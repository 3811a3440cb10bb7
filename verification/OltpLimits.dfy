// Windows that cannot be met again over their own result: one input for each
// thing a re-appliable window must not do. Rows are `[id, body]`, and a moved
// or masked image leaves the body out of line.
module OltpLimits {
  import opened Rows
  import opened Tail
  import opened Collapse
  import opened SourceLaw
  import opened OltpTail

  function Full(id: string, body: string): Row {
    [Text(id), Text(body)]
  }

  function Bare(id: string): Row {
    [Text(id), UnchangedToast]
  }

  function Shift(a: string, b: string): Op {
    Move([a], [b], Bare(b))
  }

  lemma Keys(id: string, body: string)
    ensures KeyAt([0], Full(id, body)) == [id] && KeyAt([0], Bare(id)) == [id]
    ensures Keyed([0], Full(id, body)) && Keyed([0], Bare(id))
  {
    assert KeyAt([0], Full(id, body)) == [id] && KeyAt([0], Bare(id)) == [id];
  }

  lemma KeyedShift(a: string, b: string)
    requires [a] != [b]
    ensures KeyedOp([0], 2, Shift(a, b)) && KeyedOp([0], 2, Masked([a], Bare(a)))
  {
    Keys(a, "");
    Keys(b, "");
  }

  lemma NoSetPhase(t: Table)
    ensures SetPhase({}, map[], t) == t
  {
  }

  lemma Apart()
    ensures var a: Key, b: Key, c: Key := ["1"], ["2"], ["9"];
            a != b && a != c && b != c
  {
    assert "1"[0] != "2"[0] && "1"[0] != "9"[0] && "2"[0] != "9"[0];
    var a: Key, b: Key, c: Key := ["1"], ["2"], ["9"];
    assert a[0] != b[0] && a[0] != c[0] && b[0] != c[0];
  }

  /** An image with its only other column out of line sets nothing. */
  lemma SetsNothing(id: string)
    ensures !Settable([0], Bare(id))
  {
  }

  lemma RunNext(ops: seq<Op>, i: nat, t: Table, u: Table)
    requires i < |ops| && RunChecked([0], ops, i, t) == Ok(u)
    ensures RunChecked([0], ops, i + 1, t) == StepChecked([0], ops, i, u)
  {
  }

  lemma MaskedPassesBy(ops: seq<Op>, i: nat, id: string, t: Table)
    requires i < |ops| && ops[i] == Masked([id], Bare(id))
    ensures StepChecked([0], ops, i, t) == Ok(t)
  {
    SetsNothing(id);
  }

  lemma Carried(a: string, b: string, body: string)
    ensures Patch(Bare(b), Full(a, body)) == Full(b, body)
  {
  }

  /** Two lawful changes in a row, and what they leave. */
  lemma Twice(ops: seq<Op>, t: Table)
    requires |ops| == 2 && KeyedTable([0], 2, t) && KeyedOp([0], 2, ops[0]) && KeyedOp([0], 2, ops[1])
    requires Lawful(ops[0], t) && Lawful(ops[1], Apply(ops[0], t))
    ensures SourceTail([0], 2, ops, t) && After(ops, 2, t) == Apply(ops[1], Apply(ops[0], t))
  {
    assert ops[..0] == [];
    AfterNext(ops, 0, t);
    AfterNext(ops, 1, t);
  }

  /** Three lawful changes in a row, and what they leave. */
  lemma Thrice(ops: seq<Op>, t: Table)
    requires |ops| == 3 && KeyedTable([0], 2, t)
    requires KeyedOp([0], 2, ops[0]) && KeyedOp([0], 2, ops[1]) && KeyedOp([0], 2, ops[2])
    requires Lawful(ops[0], t) && Lawful(ops[1], Apply(ops[0], t)) && Lawful(ops[2], Apply(ops[1], Apply(ops[0], t)))
    ensures SourceTail([0], 2, ops, t)
    ensures After(ops, 3, t) == Apply(ops[2], Apply(ops[1], Apply(ops[0], t)))
  {
    assert ops[..0] == [];
    AfterNext(ops, 0, t);
    AfterNext(ops, 1, t);
    AfterNext(ops, 2, t);
  }

  /** Rows under their own keys, for the tables below. */
  lemma KeyedPair(a: string, x: string, b: string, y: string)
    ensures KeyedTable([0], 2, map[[a] := Full(a, x)])
    ensures a != b ==> KeyedTable([0], 2, map[[a] := Full(a, x), [b] := Full(b, y)])
  {
    Keys(a, x);
    Keys(b, y);
  }

  /** A key a row left is taken by another move: 1 goes to 9, 2 goes to 1. The
      first move then finds both its keys taken. */
  function Follows(): Landing {
    Landing({}, map[], [Shift("1", "9"), Shift("2", "1")], map[["1"] := Full("1", "a"), ["2"] := Full("2", "b")])
  }

  lemma FollowsSteps()
    ensures var l := Follows();
            && Apply(l.ops[0], l.t) == map[["9"] := Full("9", "a"), ["2"] := Full("2", "b")]
            && Apply(l.ops[1], Apply(l.ops[0], l.t)) == map[["9"] := Full("9", "a"), ["1"] := Full("1", "b")]
  {
    Apart();
    Carried("1", "9", "a");
    Carried("2", "1", "b");
  }

  lemma FollowsLands()
    ensures var l := Follows();
            && SourceTail([0], 2, l.ops, l.Base())
            && l.Result() == map[["9"] := Full("9", "a"), ["1"] := Full("1", "b")] && l.Again() == l.Result()
  {
    var l := Follows();
    Apart();
    KeyedShift("1", "9");
    KeyedShift("2", "1");
    KeyedPair("1", "a", "2", "b");
    FollowsSteps();
    NoSetPhase(l.t);
    NoSetPhase(l.Result());
    Twice(l.ops, l.t);
  }

  lemma FreedKeyTakenByMove()
    ensures var l := Follows();
            SourceTail([0], 2, l.ops, l.Base()) && RunChecked([0], l.ops, 2, l.Again()) == Err("duplicate key")
  {
    var l := Follows();
    FollowsLands();
    Apart();
    RunNext(l.ops, 0, l.Again(), l.Again());
    assert RunChecked([0], l.ops, 1, l.Again()) == Err("duplicate key");
  }

  /** A row moves onto a key the window's delete phase freed: the second pass
      deletes the moved row itself. */
  lemma MovedOntoDeleted()
    ensures var l := Landing({["9"]}, map[], [Shift("1", "9")], map[["1"] := Full("1", "a"), ["9"] := Full("9", "z")]);
            && SourceTail([0], 2, l.ops, l.Base())
            && l.Result() == map[["9"] := Full("9", "a")]
            && RunChecked([0], l.ops, 1, l.Again()) == Err("the move found no row")
  {
    var l := Landing({["9"]}, map[], [Shift("1", "9")], map[["1"] := Full("1", "a"), ["9"] := Full("9", "z")]);
    Keys("9", ""); KeyedPair("1", "a", "9", "z"); Carried("1", "9", "a");
    assert l.Base() == map[["1"] := Full("1", "a")];
    assert l.ops[..0] == [] && l.ops[..1] == l.ops;
    AfterNext(l.ops, 0, l.Base());
    assert l.Result() == map[["9"] := Full("9", "a")];
    assert l.Again() == map[];
    assert RunChecked([0], l.ops, 0, l.Again()) == Ok(l.Again());
    assert !Moot(l.ops, 0);
  }

  /** The same when the tail itself freed the key. */
  function FreedInTail(): Landing {
    Landing({}, map[], [Masked(["9"], Bare("9")), Del(["9"]), Shift("1", "9")],
            map[["1"] := Full("1", "a"), ["9"] := Full("9", "z")])
  }

  lemma FreedInTailSteps()
    ensures var l := FreedInTail();
            && Apply(l.ops[0], l.t) == l.t && Apply(l.ops[1], l.t) == map[["1"] := Full("1", "a")]
            && Apply(l.ops[2], map[["1"] := Full("1", "a")]) == map[["9"] := Full("9", "a")]
  {
    Apart();
    Carried("1", "9", "a");
    Carried("9", "9", "z");
  }

  lemma FreedInTailLands()
    ensures var l := FreedInTail();
            && SourceTail([0], 2, l.ops, l.Base())
            && l.Result() == map[["9"] := Full("9", "a")] && l.Again() == l.Result()
  {
    var l := FreedInTail();
    Apart();
    KeyedShift("1", "9");
    KeyedShift("9", "1");
    KeyedPair("1", "a", "9", "z");
    FreedInTailSteps();
    NoSetPhase(l.t);
    NoSetPhase(l.Result());
    Thrice(l.ops, l.t);
  }

  lemma MovedOntoDeletedInTail()
    ensures var l := FreedInTail();
            SourceTail([0], 2, l.ops, l.Base()) && RunChecked([0], l.ops, 3, l.Again()) == Err("the move found no row")
  {
    var l := FreedInTail();
    FreedInTailLands();
    Apart();
    var g := l.Again();
    RunNext(l.ops, 0, g, g);
    MaskedPassesBy(l.ops, 0, "9", g);
    RunNext(l.ops, 1, g, g);
    assert g - {["9"]} == map[];
    RunNext(l.ops, 2, g, map[]);
    assert !Moot(l.ops, 2);
  }

  /** A row the tail wrote whole is moved: the second pass writes it again, and
      its move finds its new key taken. */
  function WrittenInTail(): Landing {
    Landing({}, map[], [Masked(["1"], Bare("1")), Put(["1"], Full("1", "b")), Shift("1", "9")],
            map[["1"] := Full("1", "a")])
  }

  lemma WrittenInTailLands()
    ensures var l := WrittenInTail();
            && SourceTail([0], 2, l.ops, l.Base())
            && l.Result() == map[["9"] := Full("9", "b")] && l.Again() == l.Result()
  {
    var l := WrittenInTail();
    Apart(); Keys("1", "b"); Keys("9", ""); KeyedPair("1", "a", "9", "");
    WrittenInTailSteps();
    NoSetPhase(l.t);
    NoSetPhase(l.Result());
    Thrice(l.ops, l.t);
  }

  lemma WrittenInTailSteps()
    ensures var l, whole := WrittenInTail(), map[["1"] := Full("1", "b")];
            Apply(l.ops[0], l.t) == l.t && Apply(l.ops[1], l.t) == whole
            && Apply(l.ops[2], whole) == map[["9"] := Full("9", "b")]
  {
    Apart();
    Carried("1", "1", "a");
    Carried("1", "9", "b");
  }

  lemma WrittenThenMoved()
    ensures var l := WrittenInTail();
            SourceTail([0], 2, l.ops, l.Base()) && RunChecked([0], l.ops, 3, l.Again()) == Err("duplicate key")
  {
    var l := WrittenInTail();
    WrittenInTailLands();
    Apart();
    var g := l.Again();
    RunNext(l.ops, 0, g, g);
    MaskedPassesBy(l.ops, 0, "1", g);
    RunNext(l.ops, 1, g, g);
    RunNext(l.ops, 2, g, g[["1"] := Full("1", "b")]);
    assert ["1"] in g[["1"] := Full("1", "b")] && ["9"] in g[["1"] := Full("1", "b")];
  }

  /** Two rows that swap keys through a third: the second pass is not refused,
      and swaps them back. */
  function ThroughThird(): Landing {
    Landing({}, map[], [Shift("1", "9"), Shift("2", "1"), Shift("9", "2")],
            map[["1"] := Full("1", "a"), ["2"] := Full("2", "b")])
  }

  /** The three moves on any two rows swap their bodies. */
  lemma Swaps(x: string, y: string)
    ensures var ops, t := ThroughThird().ops, map[["1"] := Full("1", x), ["2"] := Full("2", y)];
            && Apply(ops[0], t) == map[["9"] := Full("9", x), ["2"] := Full("2", y)]
            && Apply(ops[1], Apply(ops[0], t)) == map[["9"] := Full("9", x), ["1"] := Full("1", y)]
            && Apply(ops[2], Apply(ops[1], Apply(ops[0], t))) == map[["1"] := Full("1", y), ["2"] := Full("2", x)]
  {
    Apart();
    Carried("1", "9", x); Carried("2", "1", y); Carried("9", "2", x);
  }

  lemma ThroughThirdLands()
    ensures var l := ThroughThird();
            && SourceTail([0], 2, l.ops, l.Base())
            && l.Result() == map[["1"] := Full("1", "b"), ["2"] := Full("2", "a")] && l.Again() == l.Result()
  {
    var l := ThroughThird();
    Apart();
    KeyedShift("1", "9");
    KeyedShift("2", "1");
    KeyedShift("9", "2");
    KeyedPair("1", "a", "2", "b");
    Swaps("a", "b");
    NoSetPhase(l.t);
    NoSetPhase(l.Result());
    Thrice(l.ops, l.t);
  }

  lemma SwapUndone()
    ensures var l := ThroughThird();
            && SourceTail([0], 2, l.ops, l.Base()) && l.Result() != l.t
            && RunChecked([0], l.ops, 3, l.Again()) == Ok(l.t)
  {
    var l := ThroughThird();
    ThroughThirdLands();
    Apart();
    SwapRuns("b", "a");
    assert l.Result()[["1"]][1] != l.t[["1"]][1];
  }

  /** The three moves pass their checks on any two rows. */
  lemma SwapRuns(x: string, y: string)
    ensures var ops, t := ThroughThird().ops, map[["1"] := Full("1", x), ["2"] := Full("2", y)];
            RunChecked([0], ops, 3, t) == Ok(map[["1"] := Full("1", y), ["2"] := Full("2", x)])
  {
    var ops, t := ThroughThird().ops, map[["1"] := Full("1", x), ["2"] := Full("2", y)];
    Apart();
    Swaps(x, y);
    RunNext(ops, 0, t, t);
    RunNext(ops, 1, t, Apply(ops[0], t));
    RunNext(ops, 2, t, Apply(ops[1], Apply(ops[0], t)));
  }

  /** The same three moves over two rows with equal bodies land again without a
      trace: whether a window can be met again is not a matter of the window
      alone. */
  lemma SwapOfEqualsStands()
    ensures var l := ThroughThird().(t := map[["1"] := Full("1", "a"), ["2"] := Full("2", "a")]);
            && l.dels == ThroughThird().dels && l.images == ThroughThird().images && l.ops == ThroughThird().ops
            && !Reappliable(l.dels, l.images, l.ops)
            && SourceTail([0], 2, l.ops, l.Base())
            && RunChecked([0], l.ops, 3, l.Again()) == Ok(l.Result())
  {
    var l := ThroughThird().(t := map[["1"] := Full("1", "a"), ["2"] := Full("2", "a")]);
    Apart();
    KeyedShift("1", "9");
    KeyedShift("2", "1");
    KeyedShift("9", "2");
    KeyedPair("1", "a", "2", "a");
    Swaps("a", "a");
    NoSetPhase(l.t);
    Thrice(l.ops, l.t);
    assert l.ops[1].to == l.ops[0].from && !MoveReappliable(l.dels, l.images, l.ops, 0);
    SwapRuns("a", "a");
  }
}
