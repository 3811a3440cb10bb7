// Announce, scan, claim: which runs may write one destination table. Any
// number of runs interleave, statement by statement, on a store whose lease
// rows can be locked.
module Guard {
  type Token = nat

  /** How a run lands: it replaces the table, appends to it, or drains into it. */
  datatype Kind = Swap | Incremental | Cdc

  /** What a run's token says, the run that spawned it, if any, and how long a
      write of its lease row lasts. */
  datatype Run = Run(kind: Kind, source: nat, parent: set<Token>, ttl: nat)

  type Runs = map<Token, Run>

  /** May not run beside: only two appends from different sources may. */
  predicate PeerBlocks(a: Run, b: Run) {
    match (a.kind, b.kind)
    case (Incremental, Incremental) => a.source == b.source
    case _ => true
  }

  datatype Artifact = Lock | Staging

  /** What a run announces itself with, empty. */
  function Markers(k: Kind): set<Artifact> {
    if k.Cdc? then {Lock, Staging} else {Lock}
  }

  /** `expires` is on the destination's own clock. */
  datatype Lease = Lease(expires: nat, collected: bool)

  datatype Stage =
    | New
    | Announcing
    /** The scan is taken: `todo` blockers are still to be collected, and the
        markers of `claimed` ones may go. */
    | Checking(todo: set<Token>, claimed: set<Token>)
    | Working
    /** An apply transaction holds the run's own lease row. */
    | InUnit
    | Closing
    | Over

  datatype State = State(
    clock: nat,
    markers: set<(Token, Artifact)>,
    /** Un-tokenized names: what runs of an old release announce with. */
    legacy: set<Artifact>,
    leases: map<Token, Lease>,
    stages: map<Token, Stage>,
    /** Who blocked a run at its scan. */
    seen: map<Token, set<Token>>,
    /** Who committed a write to the table, in order. */
    writes: seq<Token>)

  function At(s: State, r: Token): Stage {
    if r in s.stages then s.stages[r] else New
  }

  function To(s: State, r: Token, g: Stage): State {
    s.(stages := s.stages[r := g])
  }

  predicate Marked(s: State, r: Token) {
    (r, Lock) in s.markers || (r, Staging) in s.markers
  }

  predicate BothMarked(s: State, r: Token) {
    (r, Lock) in s.markers && (r, Staging) in s.markers
  }

  /** A run owns its claim while its row exists and nobody collected it. */
  predicate Owner(s: State, r: Token) {
    r in s.leases && !s.leases[r].collected
  }

  predicate Locked(s: State, r: Token) {
    At(s, r).InUnit?
  }

  predicate Related(who: Runs, a: Token, b: Token)
    requires a in who && b in who
  {
    a in who[b].parent || b in who[a].parent
  }

  /** Whether `t`'s artifacts refuse `r`: not its own, not its parent's. */
  predicate Blocks(who: Runs, r: Token, t: Token)
    requires r in who
  {
    t in who && t != r && t !in who[r].parent && PeerBlocks(who[r], who[t])
  }

  function Blockers(who: Runs, s: State, r: Token): (b: set<Token>)
    requires r in who
  {
    set m | m in s.markers && Blocks(who, r, m.0) :: m.0
  }

  // ------------------------------------------------------------------
  // The steps of run `r`.

  /** The lease row goes first: a dead drain must be collectable. */
  predicate Open(who: Runs, s: State, s': State, r: Token) {
    && r in who && At(s, r).New?
    && var row := Lease(s.clock + who[r].ttl, false);
       s' == To(s, r, Announcing).(leases := if who[r].kind.Cdc? then s.leases[r := row] else s.leases)
  }

  predicate CreateMarker(who: Runs, s: State, s': State, r: Token, a: Artifact) {
    && r in who && At(s, r).Announcing? && a in Markers(who[r].kind)
    && s' == s.(markers := s.markers + {(r, a)})
  }

  /** Nothing is listed before every marker stands. A blocker that is not a
      drain, or that an old release wrote, cannot be asked whether it lives:
      refused before any lease is read. */
  predicate Scan(who: Runs, s: State, s': State, r: Token) {
    && r in who && At(s, r).Announcing? && (forall a :: a in Markers(who[r].kind) ==> (r, a) in s.markers)
    && var b := Blockers(who, s, r);
       s' == if s.legacy != {} || exists t :: t in b && !who[t].kind.Cdc? then To(s, r, Closing)
             else To(s, r, Checking(b, {})).(seen := s.seen[r := b])
  }

  /** Lapsed on the destination's clock, or already collected, and not held by
      its owner's transaction. */
  predicate Claimable(s: State, t: Token) {
    t in s.leases && (s.leases[t].expires <= s.clock || s.leases[t].collected) && !Locked(s, t)
  }

  predicate Claim(s: State, s': State, r: Token, t: Token) {
    && At(s, r).Checking? && t in At(s, r).todo && Claimable(s, t)
    && var g := At(s, r);
       s' == To(s, r, g.(claimed := g.claimed + {t})).(leases := s.leases[t := s.leases[t].(collected := true)])
  }

  /** A blocker with no lease row, or whose row cannot be taken, refuses. */
  predicate RefuseBlocked(s: State, s': State, r: Token, t: Token) {
    && At(s, r).Checking? && t in At(s, r).todo && !Claimable(s, t)
    && s' == To(s, r, Closing)
  }

  /** The store fails a statement of the announcement or the collection. */
  predicate Fail(s: State, s': State, r: Token) {
    (At(s, r).Announcing? || At(s, r).Checking?) && s' == To(s, r, Closing)
  }

  predicate DropVictim(s: State, s': State, r: Token, t: Token, a: Artifact) {
    && At(s, r).Checking? && t in At(s, r).claimed
    && s' == s.(markers := s.markers - {(t, a)})
  }

  predicate Collected(s: State, s': State, r: Token, t: Token) {
    && At(s, r).Checking? && t in At(s, r).claimed && !Marked(s, t)
    && s' == To(s, r, At(s, r).(todo := At(s, r).todo - {t}))
  }

  predicate Proceed(s: State, s': State, r: Token) {
    At(s, r).Checking? && At(s, r).todo == {} && s' == To(s, r, Working)
  }

  /** The keeper skips a row its own transaction holds, and never touches a
      collected or missing one. */
  predicate Renew(who: Runs, s: State, s': State, r: Token) {
    && r in who && At(s, r).Working? && Owner(s, r)
    && s' == s.(leases := s.leases[r := Lease(s.clock + who[r].ttl, false)])
  }

  /** An apply takes its own row first. A run whose row is gone or collected
      writes nothing and winds down. */
  predicate OpenUnit(who: Runs, s: State, s': State, r: Token) {
    && r in who && who[r].kind.Cdc? && At(s, r).Working?
    && s' == To(s, r, if Owner(s, r) then InUnit else Closing)
  }

  predicate CommitUnit(who: Runs, s: State, s': State, r: Token) {
    && r in who && At(s, r).InUnit?
    && var kept := if r in s.leases then s.leases[r := s.leases[r].(expires := s.clock + who[r].ttl)] else s.leases;
       s' == To(s, r, Working).(leases := kept, writes := s.writes + [r])
  }

  predicate AbortUnit(s: State, s': State, r: Token) {
    At(s, r).InUnit? && s' == To(s, r, Working)
  }

  /** A bulk run hands its lock over to its staging, which is there first. */
  predicate MakeStaging(who: Runs, s: State, s': State, r: Token) {
    && r in who && !who[r].kind.Cdc? && At(s, r).Working?
    && s' == s.(markers := s.markers + {(r, Staging)})
  }

  predicate DropLock(who: Runs, s: State, s': State, r: Token) {
    && r in who && !who[r].kind.Cdc? && At(s, r).Working? && (r, Staging) in s.markers
    && s' == s.(markers := s.markers - {(r, Lock)})
  }

  predicate Publish(who: Runs, s: State, s': State, r: Token) {
    && r in who && !who[r].kind.Cdc? && At(s, r).Working?
    && s' == s.(writes := s.writes + [r])
  }

  /** Only with no unit open. */
  predicate Release(s: State, s': State, r: Token) {
    At(s, r).Working? && s' == To(s, r, Closing)
  }

  predicate DropOwn(s: State, s': State, r: Token, a: Artifact) {
    At(s, r).Closing? && s' == s.(markers := s.markers - {(r, a)})
  }

  /** The lease closes only once every marker is observed gone. */
  predicate CloseLease(s: State, s': State, r: Token) {
    && At(s, r).Closing? && !Marked(s, r)
    && s' == To(s, r, Over).(leases := s.leases - {r})
  }

  /** A run dies; an open transaction rolls back, its objects stay. */
  predicate Die(s: State, s': State, r: Token) {
    !At(s, r).New? && s' == To(s, r, Over)
  }

  predicate Tick(s: State, s': State) {
    s' == s.(clock := s.clock + 1)
  }

  /** A run of an old release puts its names up and takes them down. */
  predicate OldRelease(s: State, s': State) {
    s' == s.(legacy := s'.legacy)
  }

  /** Steps that only move the run on. */
  predicate StageStep(who: Runs, s: State, s': State, r: Token, t: Token) {
    || RefuseBlocked(s, s', r, t)
    || Fail(s, s', r)
    || Collected(s, s', r, t)
    || Proceed(s, s', r)
    || OpenUnit(who, s, s', r)
    || AbortUnit(s, s', r)
    || Release(s, s', r)
    || Die(s, s', r)
  }

  /** Steps that change a lease row already there. */
  predicate RowStep(who: Runs, s: State, s': State, r: Token, t: Token) {
    || Claim(s, s', r, t)
    || Renew(who, s, s', r)
    || CommitUnit(who, s, s', r)
    || CloseLease(s, s', r)
  }

  /** Steps that write a lease row. */
  predicate LeaseStep(who: Runs, s: State, s': State, r: Token, t: Token) {
    Open(who, s, s', r) || RowStep(who, s, s', r, t)
  }

  /** Steps that put a marker up, or take down what its own run can spare. */
  predicate MarkStep(who: Runs, s: State, s': State, r: Token, a: Artifact) {
    || CreateMarker(who, s, s', r, a)
    || MakeStaging(who, s, s', r)
    || DropLock(who, s, s', r)
    || DropOwn(s, s', r, a)
  }

  predicate StepOf(who: Runs, s: State, s': State, r: Token, t: Token, a: Artifact) {
    || Scan(who, s, s', r)
    || StageStep(who, s, s', r, t)
    || LeaseStep(who, s, s', r, t)
    || MarkStep(who, s, s', r, a)
    || DropVictim(s, s', r, t, a)
    || Publish(who, s, s', r)
    || Tick(s, s')
    || OldRelease(s, s')
  }

  ghost predicate Next(who: Runs, s: State, s': State) {
    exists r, t, a :: StepOf(who, s, s', r, t, a)
  }

  // ------------------------------------------------------------------
  // What every state keeps.

  /** The scan is taken and the run has not wound down. */
  predicate Scanned(s: State, r: Token) {
    At(s, r).Checking? || At(s, r).Working? || At(s, r).InUnit?
  }

  /** May still write: a drain that owns its claim, a bulk run at work. */
  predicate Holding(who: Runs, s: State, r: Token) {
    r in who && Scanned(s, r) && (who[r].kind.Cdc? ==> Owner(s, r))
  }

  predicate Active(who: Runs, s: State, r: Token) {
    Holding(who, s, r) && (At(s, r).Working? || At(s, r).InUnit?)
  }

  predicate RunOk(who: Runs, s: State, r: Token) {
    // Every run that may still write is visible to a scan.
    && (Holding(who, s, r) ==> Marked(s, r) && (who[r].kind.Cdc? ==> BothMarked(s, r)))
    // Whoever may commit owns.
    && (At(s, r).InUnit? ==> r in who && who[r].kind.Cdc? && Owner(s, r))
    && (At(s, r).New? ==> r !in s.leases && !Marked(s, r))
    && (r in s.leases ==> r in who && who[r].kind.Cdc?)
    && (Marked(s, r) || Scanned(s, r) ==> r in who)
  }

  /** `t` has been through its announcement and can own nothing again. */
  predicate Dealt(who: Runs, s: State, t: Token) {
    t in who && who[t].kind.Cdc? && !At(s, t).New? && !Owner(s, t)
  }

  /** Of two that scanned and may still write, at least one saw the other. */
  predicate OneSawOther(who: Runs, s: State, r: Token, t: Token) {
    Holding(who, s, r) && Holding(who, s, t) && Blocks(who, r, t) && Blocks(who, t, r) ==> Saw(s, r, t) || Saw(s, t, r)
  }

  /** Whom a run saw is a drain it may not run beside, and once it is dealt
      with it owns nothing. */
  predicate SeenIsDrain(who: Runs, s: State, r: Token, t: Token) {
    Scanned(s, r) && Saw(s, r, t) ==>
      && r in who && Blocks(who, r, t) && who[t].kind.Cdc? && !At(s, t).New?
      && (Pending(s, r, t) || !Owner(s, t))
  }

  /** A collected row stays, unless its own run closed it after its markers. */
  predicate RowKept(s: State, t: Token) {
    t in s.leases || (At(s, t).Over? && !Marked(s, t))
  }

  predicate ClaimedIsDealt(who: Runs, s: State, r: Token, t: Token) {
    At(s, r).Checking? ==>
      && (t in At(s, r).claimed ==> Dealt(who, s, t) && RowKept(s, t))
      && (t in At(s, r).todo ==> Saw(s, r, t))
  }

  predicate PairOk(who: Runs, s: State, r: Token, t: Token) {
    OneSawOther(who, s, r, t) && SeenIsDrain(who, s, r, t) && ClaimedIsDealt(who, s, r, t)
  }

  ghost predicate Inv(who: Runs, s: State) {
    && (forall r {:trigger RunOk(who, s, r)} :: RunOk(who, s, r))
    && (forall r, t {:trigger PairOk(who, s, r, t)} :: PairOk(who, s, r, t))
  }

  predicate Saw(s: State, r: Token, t: Token) {
    r in s.seen && t in s.seen[r]
  }

  predicate Pending(s: State, r: Token, t: Token) {
    At(s, r).Checking? && t in At(s, r).todo && t !in At(s, r).claimed
  }

  /** Runs that ended before may have left anything: markers, lease rows,
      collected or not, or markers with no lease row at all. */
  ghost predicate Init(who: Runs, s: State) {
    && s.seen == map[] && s.writes == []
    && (forall r {:trigger LeftoverOk(who, s, r)} :: LeftoverOk(who, s, r))
  }

  predicate LeftoverOk(who: Runs, s: State, r: Token) {
    && (At(s, r).New? || At(s, r).Over?)
    && (Marked(s, r) ==> At(s, r).Over? && r in who)
    && (r in s.leases ==> At(s, r).Over? && r in who && who[r].kind.Cdc?)
  }

  lemma InitKeeps(who: Runs, s: State)
    requires Init(who, s)
    ensures Inv(who, s)
  {
    forall r ensures RunOk(who, s, r) {
      assert LeftoverOk(who, s, r);
    }
    forall r, t ensures PairOk(who, s, r, t) {
      assert LeftoverOk(who, s, r);
    }
  }

  /** A scan finds exactly the runs with a marker up that are not the run
      itself, not its parent, and no fan-in with it. */
  lemma ScanFindsPeers(who: Runs, s: State, r: Token, t: Token)
    requires r in who
    ensures t in Blockers(who, s, r) <==>
            && ((t, Lock) in s.markers || (t, Staging) in s.markers)
            && t in who && t != r && t !in who[r].parent && !FanIn(who[r], who[t])
  {
    ScanFinds(who, s, r, t);
  }

  /** A scan finds exactly the marked runs that block. */
  lemma ScanFinds(who: Runs, s: State, r: Token, t: Token)
    requires r in who
    ensures t in Blockers(who, s, r) <==> Marked(s, t) && Blocks(who, r, t)
  {
    if (t, Lock) in s.markers && Blocks(who, r, t) {
      assert (t, Lock).0 in Blockers(who, s, r);
    } else if (t, Staging) in s.markers && Blocks(who, r, t) {
      assert (t, Staging).0 in Blockers(who, s, r);
    } else if m :| m in s.markers && Blocks(who, r, m.0) && m.0 == t {
      assert m == (t, m.1);
      match m.1
      case Lock =>
      case Staging =>
    }
  }

  lemma ScanSaw(who: Runs, s: State, s': State, r: Token, x: Token, y: Token)
    requires Scan(who, s, s', r) && OneSawOther(who, s, x, y) && RunOk(who, s, x) && RunOk(who, s, y)
    ensures OneSawOther(who, s', x, y)
  {
    hide Blocks, Blockers;
    if x == r {
      ScanFinds(who, s, r, y);
    }
    if y == r {
      ScanFinds(who, s, r, x);
    }
  }

  lemma ScanPair(who: Runs, s: State, s': State, r: Token, x: Token, y: Token)
    requires Scan(who, s, s', r) && PairOk(who, s, x, y) && RunOk(who, s, x) && RunOk(who, s, y)
    ensures PairOk(who, s', x, y)
  {
    hide Blocks, Blockers, OneSawOther;
    ScanSaw(who, s, s', r, x, y);
    if x == r {
      ScanFinds(who, s, r, y);
    }
  }

  lemma ScanKeeps(who: Runs, s: State, s': State, r: Token)
    requires Inv(who, s) && Scan(who, s, s', r)
    ensures Inv(who, s')
  {
    hide PairOk, Blockers;
    forall x ensures RunOk(who, s', x) {
      assert RunOk(who, s, x);
      assert (r, Lock) in s.markers;
    }
    forall x, y ensures PairOk(who, s', x, y) {
      assert PairOk(who, s, x, y);
      assert RunOk(who, s, x) && RunOk(who, s, y);
      ScanPair(who, s, s', r, x, y);
    }
  }

  /** What such a step does: the run's own stage changes, it does not become
      scanned, and it leaves no unclaimed blocker behind. */
  predicate MovesOn(s: State, s': State, r: Token) {
    var g, g' := At(s, r), At(s', r);
    && s' == To(s, r, g') && !g'.New? && (g.Over? ==> g'.Over?) && (Scanned(s', r) ==> Scanned(s, r))
    && (g'.Checking? ==> g.Checking? && g'.claimed == g.claimed && g'.todo <= g.todo && g.todo - g'.todo <= g.claimed)
    && (g.Checking? && Scanned(s', r) && !g'.Checking? ==> g.todo == {})
  }

  lemma StageStepMovesOn(who: Runs, s: State, s': State, r: Token, t: Token)
    requires StageStep(who, s, s', r, t)
    ensures MovesOn(s, s', r)
  {
  }

  lemma MovesOnPair(who: Runs, s: State, s': State, r: Token, x: Token, y: Token)
    requires MovesOn(s, s', r) && PairOk(who, s, x, y)
    ensures PairOk(who, s', x, y)
  {
  }

  lemma StageStepKeeps(who: Runs, s: State, s': State, r: Token, t: Token)
    requires Inv(who, s) && StageStep(who, s, s', r, t)
    ensures Inv(who, s')
  {
    forall x ensures RunOk(who, s', x) {
      assert RunOk(who, s, x);
    }
    forall x, y ensures PairOk(who, s', x, y) {
      assert PairOk(who, s, x, y);
      StageStepMovesOn(who, s, s', r, t);
      MovesOnPair(who, s, s', r, x, y);
    }
  }

  lemma RowStepRun(who: Runs, s: State, s': State, r: Token, t: Token, x: Token)
    requires RowStep(who, s, s', r, t) && RunOk(who, s, x) && RunOk(who, s, t)
    ensures RunOk(who, s', x)
  {
  }

  lemma LeaseStepRun(who: Runs, s: State, s': State, r: Token, t: Token, x: Token)
    requires LeaseStep(who, s, s', r, t) && RunOk(who, s, x) && RunOk(who, s, t)
    ensures RunOk(who, s', x)
  {
    hide RowStep;
    if RowStep(who, s, s', r, t) {
      RowStepRun(who, s, s', r, t, x);
    }
  }

  lemma RowStepHolding(who: Runs, s: State, s': State, r: Token, t: Token, x: Token)
    requires RowStep(who, s, s', r, t) && Holding(who, s', x)
    ensures Holding(who, s, x)
  {
  }

  lemma OpenHolding(who: Runs, s: State, s': State, r: Token, x: Token)
    requires Open(who, s, s', r) && Holding(who, s', x)
    ensures Holding(who, s, x)
  {
  }

  lemma LeaseStepSameSeen(who: Runs, s: State, s': State, r: Token, t: Token)
    requires LeaseStep(who, s, s', r, t)
    ensures s'.seen == s.seen
  {
  }

  lemma LeaseStepHolding(who: Runs, s: State, s': State, r: Token, t: Token, x: Token)
    requires LeaseStep(who, s, s', r, t) && Holding(who, s', x)
    ensures Holding(who, s, x)
  {
    hide RowStep, Open, Holding;
    if RowStep(who, s, s', r, t) {
      RowStepHolding(who, s, s', r, t, x);
    } else {
      OpenHolding(who, s, s', r, x);
    }
  }

  lemma LeaseStepSaw(who: Runs, s: State, s': State, r: Token, t: Token, x: Token, y: Token)
    requires LeaseStep(who, s, s', r, t) && OneSawOther(who, s, x, y)
    ensures OneSawOther(who, s', x, y)
  {
    hide Blocks, LeaseStep, Holding;
    LeaseStepSameSeen(who, s, s', r, t);
    if Holding(who, s', x) && Holding(who, s', y) {
      LeaseStepHolding(who, s, s', r, t, x);
      LeaseStepHolding(who, s, s', r, t, y);
    }
  }

  lemma LeaseStepSeen(who: Runs, s: State, s': State, r: Token, t: Token, x: Token, y: Token)
    requires LeaseStep(who, s, s', r, t) && PairOk(who, s, x, y) && PairOk(who, s, r, t) && RunOk(who, s, y)
    ensures SeenIsDrain(who, s', x, y)
  {
    hide Blocks, OneSawOther;
  }

  lemma LeaseStepClaimed(who: Runs, s: State, s': State, r: Token, t: Token, x: Token, y: Token)
    requires LeaseStep(who, s, s', r, t) && PairOk(who, s, x, y) && PairOk(who, s, r, t) && RunOk(who, s, y)
    ensures ClaimedIsDealt(who, s', x, y)
  {
    hide Blocks, OneSawOther, SeenIsDrain;
  }

  lemma LeaseStepKeeps(who: Runs, s: State, s': State, r: Token, t: Token)
    requires Inv(who, s) && LeaseStep(who, s, s', r, t)
    ensures Inv(who, s')
  {
    forall x ensures RunOk(who, s', x) {
      assert RunOk(who, s, x) && RunOk(who, s, t);
      LeaseStepRun(who, s, s', r, t, x);
    }
    forall x, y ensures PairOk(who, s', x, y) {
      assert PairOk(who, s, x, y) && RunOk(who, s, x) && RunOk(who, s, y) && PairOk(who, s, r, t);
      LeaseStepSaw(who, s, s', r, t, x, y);
      LeaseStepSeen(who, s, s', r, t, x, y);
      LeaseStepClaimed(who, s, s', r, t, x, y);
    }
  }

  lemma MarkStepRun(who: Runs, s: State, s': State, r: Token, a: Artifact, x: Token)
    requires MarkStep(who, s, s', r, a) && RunOk(who, s, x)
    ensures RunOk(who, s', x)
  {
  }

  lemma MarkStepPair(who: Runs, s: State, s': State, r: Token, a: Artifact, x: Token, y: Token)
    requires MarkStep(who, s, s', r, a) && PairOk(who, s, x, y)
    ensures PairOk(who, s', x, y)
  {
  }

  lemma MarkStepKeeps(who: Runs, s: State, s': State, r: Token, a: Artifact)
    requires Inv(who, s) && MarkStep(who, s, s', r, a)
    ensures Inv(who, s')
  {
    forall x ensures RunOk(who, s', x) {
      assert RunOk(who, s, x);
      MarkStepRun(who, s, s', r, a, x);
    }
    forall x, y ensures PairOk(who, s', x, y) {
      assert PairOk(who, s, x, y);
      MarkStepPair(who, s, s', r, a, x, y);
    }
  }

  lemma DropVictimKeeps(who: Runs, s: State, s': State, r: Token, t: Token, a: Artifact)
    requires Inv(who, s) && DropVictim(s, s', r, t, a)
    ensures Inv(who, s')
  {
    forall x ensures RunOk(who, s', x) {
      assert RunOk(who, s, x) && PairOk(who, s, r, t);
    }
    forall x, y ensures PairOk(who, s', x, y) {
      assert PairOk(who, s, x, y);
    }
  }

  lemma QuietStepKeeps(who: Runs, s: State, s': State, r: Token)
    requires Inv(who, s) && (Publish(who, s, s', r) || Tick(s, s') || OldRelease(s, s'))
    ensures Inv(who, s')
  {
    forall x ensures RunOk(who, s', x) {
      assert RunOk(who, s, x);
    }
    forall x, y ensures PairOk(who, s', x, y) {
      assert PairOk(who, s, x, y);
    }
  }

  lemma StepKeeps(who: Runs, s: State, s': State, r: Token, t: Token, a: Artifact)
    requires Inv(who, s) && StepOf(who, s, s', r, t, a)
    ensures Inv(who, s')
  {
    if Scan(who, s, s', r) {
      ScanKeeps(who, s, s', r);
    } else if StageStep(who, s, s', r, t) {
      StageStepKeeps(who, s, s', r, t);
    } else if LeaseStep(who, s, s', r, t) {
      LeaseStepKeeps(who, s, s', r, t);
    } else if MarkStep(who, s, s', r, a) {
      MarkStepKeeps(who, s, s', r, a);
    } else if DropVictim(s, s', r, t, a) {
      DropVictimKeeps(who, s, s', r, t, a);
    } else {
      QuietStepKeeps(who, s, s', r);
    }
  }

  // ------------------------------------------------------------------
  // Histories.

  ghost predicate History(who: Runs, h: seq<State>) {
    && |h| > 0 && Init(who, h[0])
    && forall i {:trigger StepAt(who, h, i)} :: 0 <= i < |h| - 1 ==> StepAt(who, h, i)
  }

  ghost predicate StepAt(who: Runs, h: seq<State>, i: nat)
    requires i + 1 < |h|
  {
    Next(who, h[i], h[i + 1])
  }

  lemma {:induction false} HistoryKeeps(who: Runs, h: seq<State>, i: nat)
    requires History(who, h) && i < |h|
    ensures Inv(who, h[i])
  {
    if i == 0 {
      InitKeeps(who, h[0]);
    } else {
      var j := i - 1;
      HistoryKeeps(who, h, j);
      assert StepAt(who, h, j);
      var r, t, a :| StepOf(who, h[j], h[i], r, t, a);
      StepKeeps(who, h[j], h[i], r, t, a);
    }
  }

  /** Two appends from different sources, the one pair that may share a table. */
  predicate FanIn(a: Run, b: Run) {
    a.kind.Incremental? && b.kind.Incremental? && a.source != b.source
  }

  /** Two runs are never both in a position to write, in whatever order they
      started, unless one spawned the other or they are a fan-in. */
  lemma NeverTwoWriters(who: Runs, h: seq<State>, i: nat, r: Token, t: Token)
    requires History(who, h) && i < |h|
    requires Active(who, h[i], r) && Active(who, h[i], t) && r != t
    ensures Related(who, r, t) || FanIn(who[r], who[t])
  {
    HistoryKeeps(who, h, i);
    assert PairOk(who, h[i], r, t) && PairOk(who, h[i], t, r);
  }

  /** The run has wound down, or its claim is gone. */
  predicate Finished(who: Runs, s: State, r: Token) {
    At(s, r).Closing? || At(s, r).Over? || (Dealt(who, s, r) && !At(s, r).Announcing?)
  }

  lemma OwnerOnlyFromNew(who: Runs, s: State, s': State, r: Token, t: Token, a: Artifact, x: Token)
    requires StepOf(who, s, s', r, t, a) && Owner(s', x)
    ensures Owner(s, x) || At(s, x).New?
  {
    hide StageStep, LeaseStep;
    if StageStep(who, s, s', r, t) {
      StageStepMovesOn(who, s, s', r, t);
    } else if LeaseStep(who, s, s', r, t) {
      LeaseStepOwner(who, s, s', r, t, x);
    }
  }

  lemma LeaseStepOwner(who: Runs, s: State, s': State, r: Token, t: Token, x: Token)
    requires LeaseStep(who, s, s', r, t) && Owner(s', x)
    ensures Owner(s, x) || At(s, x).New?
  {
  }

  predicate OnlyOwnStage(s: State, s': State, r: Token) {
    s'.stages == s.stages || s'.stages == s.stages[r := At(s', r)]
  }

  lemma LeaseStepOwnStage(who: Runs, s: State, s': State, r: Token, t: Token)
    requires LeaseStep(who, s, s', r, t)
    ensures OnlyOwnStage(s, s', r)
  {
  }

  lemma StepOwnStage(who: Runs, s: State, s': State, r: Token, t: Token, a: Artifact)
    requires StepOf(who, s, s', r, t, a)
    ensures OnlyOwnStage(s, s', r)
  {
    if StageStep(who, s, s', r, t) {
      StageStepMovesOn(who, s, s', r, t);
    } else if LeaseStep(who, s, s', r, t) {
      LeaseStepOwnStage(who, s, s', r, t);
    }
  }

  lemma WoundDownStays(who: Runs, s: State, s': State, r: Token, t: Token, a: Artifact)
    requires StepOf(who, s, s', r, t, a) && (At(s, r).Closing? || At(s, r).Over?)
    ensures At(s', r).Closing? || At(s', r).Over?
  {
  }

  lemma StageStepNotBack(who: Runs, s: State, s': State, r: Token, t: Token)
    requires StageStep(who, s, s', r, t)
    ensures !At(s', r).New? && !At(s', r).Announcing?
  {
  }

  lemma LeaseStepNotBack(who: Runs, s: State, s': State, r: Token, t: Token)
    requires LeaseStep(who, s, s', r, t) && !At(s, r).New? && !At(s, r).Announcing?
    ensures !At(s', r).New? && !At(s', r).Announcing?
  {
  }

  /** A run never goes back to announcing. */
  lemma NeverBack(who: Runs, s: State, s': State, r: Token, t: Token, a: Artifact)
    requires StepOf(who, s, s', r, t, a) && !At(s, r).New? && !At(s, r).Announcing?
    ensures !At(s', r).New? && !At(s', r).Announcing?
  {
    if StageStep(who, s, s', r, t) {
      StageStepNotBack(who, s, s', r, t);
    } else if LeaseStep(who, s, s', r, t) {
      LeaseStepNotBack(who, s, s', r, t);
    }
  }

  lemma FinishedStep(who: Runs, s: State, s': State, r: Token, t: Token, a: Artifact, x: Token)
    requires StepOf(who, s, s', r, t, a) && Finished(who, s, x)
    ensures Finished(who, s', x)
  {
    StepOwnStage(who, s, s', r, t, a);
    if r == x {
      NeverBack(who, s, s', r, t, a);
      if At(s, r).Closing? || At(s, r).Over? {
        WoundDownStays(who, s, s', r, t, a);
      }
    }
    if Owner(s', x) {
      OwnerOnlyFromNew(who, s, s', r, t, a, x);
    }
  }

  lemma FinishedWrite(who: Runs, s: State, s': State, r: Token, t: Token, a: Artifact, x: Token)
    requires RunOk(who, s, x) && StepOf(who, s, s', r, t, a) && Finished(who, s, x)
    ensures s'.writes == s.writes || (r != x && s'.writes == s.writes + [r])
  {
    hide StageStep;
    if StageStep(who, s, s', r, t) {
      StageStepMovesOn(who, s, s', r, t);
    }
  }

  lemma FinishedStays(who: Runs, s: State, s': State, x: Token)
    requires Inv(who, s) && Next(who, s, s') && Finished(who, s, x)
    ensures Finished(who, s', x)
    ensures s'.writes == s.writes || exists w :: w != x && s'.writes == s.writes + [w]
  {
    var r, t, a :| StepOf(who, s, s', r, t, a);
    assert RunOk(who, s, x);
    FinishedStep(who, s, s', r, t, a, x);
    FinishedWrite(who, s, s', r, t, a, x);
  }

  /** Once a run is finished, in particular once another run's claim on its
      lease row has committed, it never commits another write. */
  lemma {:induction false} FinishedNeverWrites(who: Runs, h: seq<State>, i: nat, j: nat, r: Token, n: nat)
    requires History(who, h) && i <= j < |h| && Finished(who, h[i], r)
    ensures Finished(who, h[j], r) && |h[i].writes| <= |h[j].writes|
    ensures |h[i].writes| <= n < |h[j].writes| ==> h[j].writes[n] != r
  {
    if i < j {
      var k := j - 1;
      FinishedNeverWrites(who, h, i, k, r, n);
      HistoryKeeps(who, h, k);
      assert StepAt(who, h, k);
      FinishedStays(who, h[k], h[j], r);
    }
  }

  /** A scanned run none of whose markers stands is finished: its lock goes
      only after its last write. */
  lemma UnmarkedIsFinished(who: Runs, h: seq<State>, i: nat, r: Token)
    requires History(who, h) && i < |h| && Scanned(h[i], r) && !Marked(h[i], r)
    ensures Finished(who, h[i], r)
  {
    HistoryKeeps(who, h, i);
    assert RunOk(who, h[i], r);
  }

  lemma WriterIsActive(who: Runs, s: State, s': State, x: Token, y: Token, a: Artifact, r: Token)
    requires RunOk(who, s, x) && StepOf(who, s, s', x, y, a) && s'.writes == s.writes + [r]
    ensures x == r && Active(who, s, r)
  {
    assert s'.writes[|s.writes|] == r;
  }

  /** Whenever a write commits, its run is the only one that may write. */
  lemma WriterIsAlone(who: Runs, h: seq<State>, i: nat, r: Token, t: Token)
    requires History(who, h) && i + 1 < |h| && h[i + 1].writes == h[i].writes + [r]
    requires Active(who, h[i], t) && t != r
    ensures r in who && (Related(who, r, t) || FanIn(who[r], who[t]))
  {
    HistoryKeeps(who, h, i);
    assert StepAt(who, h, i);
    var x, y, a :| StepOf(who, h[i], h[i + 1], x, y, a);
    assert RunOk(who, h[i], x);
    WriterIsActive(who, h[i], h[i + 1], x, y, a, r);
    NeverTwoWriters(who, h, i, r, t);
  }

  lemma LeaseStepLoses(who: Runs, s: State, s': State, r: Token, x: Token, t: Token)
    requires LeaseStep(who, s, s', r, x) && Owner(s, t) && !Owner(s', t)
    ensures
      || (s.leases[t].expires <= s.clock && !At(s, t).InUnit?)
      || (At(s, t).Closing? && !Marked(s, t))
  {
  }

  /** A claim is lost only once its life is over on the destination's clock and
      while no transaction of its run holds the row; or given up by its own run
      once every marker of it is gone. */
  lemma ClaimLost(who: Runs, s: State, s': State, t: Token)
    requires Next(who, s, s') && Owner(s, t) && !Owner(s', t)
    ensures
      || (s.leases[t].expires <= s.clock && !At(s, t).InUnit?)
      || (At(s, t).Closing? && !Marked(s, t))
  {
    var r, x, a :| StepOf(who, s, s', r, x, a);
    hide LeaseStep, StageStep;
    if LeaseStep(who, s, s', r, x) {
      LeaseStepLoses(who, s, s', r, x, t);
    } else if StageStep(who, s, s', r, x) {
      StageStepMovesOn(who, s, s', r, x);
    }
  }

  /** Taken down by its own run, winding down or handing over to its staging. */
  predicate OwnRemoval(who: Runs, s: State, s': State, t: Token) {
    At(s, t).Closing? || (t in who && !who[t].kind.Cdc? && At(s, t).Working? && (t, Staging) in s'.markers)
  }

  lemma MarkerDropped(who: Runs, s: State, s': State, r: Token, x: Token, b: Artifact, t: Token, a: Artifact)
    requires StepOf(who, s, s', r, x, b) && PairOk(who, s, r, x) && (t, a) in s.markers && (t, a) !in s'.markers
    ensures OwnRemoval(who, s, s', t) || (t in s.leases && s.leases[t].collected)
  {
    hide OneSawOther, SeenIsDrain;
    if DropVictim(s, s', r, x, b) {
      assert t == x && Marked(s, t);
    }
  }

  /** A marker goes only by its own run, or by a collector while the lease row
      of exactly its run stands collected. */
  lemma MarkerRemoved(who: Runs, h: seq<State>, i: nat, t: Token, a: Artifact)
    requires History(who, h) && i + 1 < |h| && (t, a) in h[i].markers && (t, a) !in h[i + 1].markers
    ensures OwnRemoval(who, h[i], h[i + 1], t) || (t in h[i].leases && h[i].leases[t].collected)
  {
    HistoryKeeps(who, h, i);
    assert StepAt(who, h, i);
    var r, x, b :| StepOf(who, h[i], h[i + 1], r, x, b);
    assert PairOk(who, h[i], r, x);
    MarkerDropped(who, h[i], h[i + 1], r, x, b, t, a);
  }

  lemma OverStays(who: Runs, s: State, s': State, r: Token, x: Token, a: Artifact, t: Token)
    requires StepOf(who, s, s', r, x, a) && At(s, t).Over? && t !in s.leases
    ensures At(s', t).Over? && t !in s'.leases
  {
    StepOwnStage(who, s, s', r, x, a);
    if r == t {
      OverIsFinal(who, s, s', r, x, a);
    }
    NoLeaseOpened(who, s, s', r, x, a, t);
  }

  lemma OverIsFinal(who: Runs, s: State, s': State, r: Token, x: Token, a: Artifact)
    requires StepOf(who, s, s', r, x, a) && At(s, r).Over?
    ensures At(s', r).Over?
  {
  }

  lemma NoLeaseOpened(who: Runs, s: State, s': State, r: Token, x: Token, a: Artifact, t: Token)
    requires StepOf(who, s, s', r, x, a) && !At(s, t).New? && t !in s.leases
    ensures t !in s'.leases
  {
  }

  /** A lock a dead run left with no lease row, an older release's or a planted
      one, stands at every later time, whatever other runs do. */
  lemma {:induction false} NoLeaseNeverCollected(who: Runs, h: seq<State>, i: nat, j: nat, t: Token, a: Artifact)
    requires History(who, h) && i <= j < |h|
    requires At(h[i], t).Over? && t !in h[i].leases && (t, a) in h[i].markers
    ensures At(h[j], t).Over? && t !in h[j].leases && (t, a) in h[j].markers
  {
    if i < j {
      var k := j - 1;
      NoLeaseNeverCollected(who, h, i, k, t, a);
      assert StepAt(who, h, k);
      var r, x, b :| StepOf(who, h[k], h[j], r, x, b);
      OverStays(who, h[k], h[j], r, x, b, t);
      if (t, a) !in h[j].markers {
        MarkerRemoved(who, h, k, t, a);
      }
    }
  }

  // ------------------------------------------------------------------
  // Collections and refusals.

  /** A collection from its claim to its end: both markers go, the blocker is
      off the list, and the run proceeds if it was the last. */
  ghost predicate Collects(s: State, r: Token, t: Token, c: seq<State>) {
    && |c| == 4
    && Claim(s, c[0], r, t) && DropVictim(c[0], c[1], r, t, Lock) && DropVictim(c[1], c[2], r, t, Staging)
    && Collected(c[2], c[3], r, t)
    && !Marked(c[3], t) && At(c[3], r) == Checking(At(s, r).todo - {t}, At(s, r).claimed + {t})
    && (At(s, r).todo == {t} ==> Proceed(c[3], To(c[3], r, Working), r))
  }

  lemma CollectsFrom(s: State, r: Token, t: Token) returns (c: seq<State>)
    requires At(s, r).Checking? && t in At(s, r).todo && Claimable(s, t)
    ensures Collects(s, r, t, c)
  {
    var g := At(s, r);
    var c0 := To(s, r, g.(claimed := g.claimed + {t})).(leases := s.leases[t := s.leases[t].(collected := true)]);
    var c1 := c0.(markers := c0.markers - {(t, Lock)});
    var c2 := c1.(markers := c1.markers - {(t, Staging)});
    var c3 := To(c2, r, Checking(g.todo - {t}, g.claimed + {t}));
    assert Collected(c2, c3, r, t);
    c := [c0, c1, c2, c3];
  }

  /** A dead drain can be collected whole by any run that meets it: once its
      row's life is over and no transaction holds it, or once an earlier
      collection, dead since at any point, has claimed it. */
  lemma CollectionResumes(who: Runs, h: seq<State>, i: nat, r: Token, t: Token)
    requires History(who, h) && i < |h|
    requires At(h[i], r).Checking? && t in At(h[i], r).todo && t in h[i].leases
    requires h[i].leases[t].collected || (h[i].leases[t].expires <= h[i].clock && !At(h[i], t).InUnit?)
    ensures exists c :: Collects(h[i], r, t, c)
  {
    HistoryKeeps(who, h, i);
    assert RunOk(who, h[i], t);
    var c := CollectsFrom(h[i], r, t);
  }

  /** The guard turns run `r` away. */
  ghost predicate Refused(who: Runs, s: State, s': State, r: Token) {
    (Scan(who, s, s', r) && At(s', r).Closing?) || exists t :: RefuseBlocked(s, s', r, t)
  }

  /** `r`'s scan, at or before state `i`, found `t` standing. */
  ghost predicate FoundAtScan(who: Runs, h: seq<State>, i: nat, r: Token, t: Token)
    requires i < |h|
  {
    exists j :: 0 <= j <= i && At(h[j], r).Announcing? && Marked(h[j], t)
  }

  lemma SeenOnlyByScan(who: Runs, s: State, s': State, r: Token, t: Token, a: Artifact, x: Token, y: Token)
    requires StepOf(who, s, s', r, t, a) && Saw(s', x, y) && !Saw(s, x, y)
    ensures At(s, x).Announcing? && x in who && y in Blockers(who, s, x)
  {
  }

  lemma {:induction false} SawWasStanding(who: Runs, h: seq<State>, i: nat, r: Token, t: Token)
    requires History(who, h) && i < |h| && Saw(h[i], r, t)
    ensures FoundAtScan(who, h, i, r, t)
  {
    if i > 0 {
      var j := i - 1;
      assert StepAt(who, h, j);
      var x, y, a :| StepOf(who, h[j], h[i], x, y, a);
      if Saw(h[j], r, t) {
        SawWasStanding(who, h, j, r, t);
      } else {
        SeenOnlyByScan(who, h[j], h[i], x, y, a, r, t);
        ScanFinds(who, h[j], r, t);
      }
    }
  }

  /** `t` is another run, not `r`'s parent and no fan-in; and it is not a drain
      whose row is collected, or lapsed and held by no transaction. */
  predicate RefusesFor(who: Runs, s: State, r: Token, t: Token)
    requires r in who
  {
    && t in who && t != r && t !in who[r].parent && !FanIn(who[r], who[t])
    && (who[t].kind.Cdc? && t in s.leases ==>
          !s.leases[t].collected && (s.leases[t].expires > s.clock || At(s, t).InUnit?))
  }

  /** Whoever is refused met, standing at its scan, a run it may not run beside
      that is neither itself nor its parent: a bulk run, or a drain with no
      lease row or one that cannot be taken; or a name of an old release. */
  lemma RefusalNamesAPeer(who: Runs, h: seq<State>, i: nat, r: Token)
    requires History(who, h) && i + 1 < |h| && r in who && Refused(who, h[i], h[i + 1], r)
    ensures
      || (At(h[i], r).Announcing? && h[i].legacy != {})
      || exists t :: FoundAtScan(who, h, i, r, t) && RefusesFor(who, h[i], r, t)
  {
    HistoryKeeps(who, h, i);
    var s, s' := h[i], h[i + 1];
    if t :| RefuseBlocked(s, s', r, t) {
      assert PairOk(who, s, r, t) && RunOk(who, s, t);
      SawWasStanding(who, h, i, r, t);
    } else if h[i].legacy == {} {
      var t :| t in Blockers(who, h[i], r) && !who[t].kind.Cdc?;
      ScanFinds(who, h[i], r, t);
      assert FoundAtScan(who, h, i, r, t);
    }
  }

  lemma ScannedOnlyByScan(who: Runs, s: State, s': State, x: Token, t: Token, a: Artifact, r: Token)
    requires StepOf(who, s, s', x, t, a) && Scanned(s', r) && !Scanned(s, r)
    ensures s.legacy == {}
  {
    hide StageStep, LeaseStep;
    StepOwnStage(who, s, s', x, t, a);
    if StageStep(who, s, s', x, t) {
      StageStepMovesOn(who, s, s', x, t);
    } else if LeaseStep(who, s, s', x, t) {
      LeaseStepScanned(who, s, s', x, t);
    }
  }

  lemma LeaseStepScanned(who: Runs, s: State, s': State, r: Token, t: Token)
    requires LeaseStep(who, s, s', r, t) && Scanned(s', r)
    ensures Scanned(s, r)
  {
  }

  /** While a name an old release announces with stands, no run gets past its
      scan, at any age of that name and whatever leases say. */
  lemma {:induction false} LegacyBars(who: Runs, h: seq<State>, i: nat, j: nat, r: Token)
    requires History(who, h) && i <= j < |h| && !Scanned(h[i], r)
    requires forall k :: i <= k <= j ==> h[k].legacy != {}
    ensures !Scanned(h[j], r)
  {
    if i < j {
      var k := j - 1;
      LegacyBars(who, h, i, k, r);
      assert StepAt(who, h, k);
      var x, t, a :| StepOf(who, h[k], h[j], x, t, a);
      if Scanned(h[j], r) {
        ScannedOnlyByScan(who, h[k], h[j], x, t, a, r);
      }
    }
  }

  /** With no such run standing, the scan lets it through at once. */
  lemma NobodyElseRefuses(who: Runs, s: State, s': State, r: Token)
    requires Scan(who, s, s', r) && s.legacy == {}
    requires forall t :: Marked(s, t) && t in who && t != r && t !in who[r].parent ==> FanIn(who[r], who[t])
    ensures At(s', r) == Checking({}, {}) && Proceed(s', To(s', r, Working), r)
  {
    forall t
      ensures t !in Blockers(who, s, r)
    {
      ScanFinds(who, s, r, t);
    }
  }

  /** `r` has seen `t` gone: none of its markers stood while `r` was checking. */
  ghost predicate SeenGone(h: seq<State>, i: nat, r: Token, t: Token)
    requires i < |h|
  {
    exists k :: 0 <= k <= i && At(h[k], r).Checking? && !Marked(h[k], t)
  }

  /** A step after which a run that saw `t` has it off its list for the first
      time. */
  lemma OffTheList(who: Runs, s: State, s': State, x: Token, y: Token, a: Artifact, r: Token, t: Token)
    requires StepOf(who, s, s', x, y, a) && Scanned(s', r) && Saw(s', r, t)
    requires At(s', r).Checking? ==> t !in At(s', r).todo
    ensures
      || (Scanned(s, r) && Saw(s, r, t) && (At(s, r).Checking? ==> t !in At(s, r).todo))
      || (At(s, r).Checking? && !Marked(s, t))
  {
    hide LeaseStep, StageStep;
    if LeaseStep(who, s, s', x, y) {
      LeaseStepList(who, s, s', x, y, r);
    } else if StageStep(who, s, s', x, y) {
      StageStepList(who, s, s', x, y, r, t);
    }
  }

  lemma StageStepList(who: Runs, s: State, s': State, x: Token, y: Token, r: Token, t: Token)
    requires StageStep(who, s, s', x, y) && Scanned(s', r) && (At(s', r).Checking? ==> t !in At(s', r).todo)
    ensures Scanned(s, r) && s'.seen == s.seen
    ensures (At(s, r).Checking? ==> t !in At(s, r).todo) || (At(s, r).Checking? && !Marked(s, t))
  {
    StageStepMovesOn(who, s, s', x, y);
    if At(s, r).Checking? && t in At(s, r).todo {
      assert x == r;
      assert Collected(s, s', r, y) && y == t;
    }
  }

  lemma LeaseStepList(who: Runs, s: State, s': State, x: Token, y: Token, r: Token)
    requires LeaseStep(who, s, s', x, y) && Scanned(s', r)
    ensures Scanned(s, r) && s'.seen == s.seen
    ensures At(s', r).Checking? <==> At(s, r).Checking?
    ensures At(s, r).Checking? ==> At(s', r).todo == At(s, r).todo
  {
  }

  /** Whoever gets to work has seen every run that blocked it gone. */
  lemma {:induction false} WorksPastTheGone(who: Runs, h: seq<State>, i: nat, r: Token, t: Token)
    requires History(who, h) && i < |h| && Scanned(h[i], r) && Saw(h[i], r, t)
    requires At(h[i], r).Checking? ==> t !in At(h[i], r).todo
    ensures SeenGone(h, i, r, t)
  {
    if i > 0 {
      var j := i - 1;
      assert StepAt(who, h, j);
      var x, y, a :| StepOf(who, h[j], h[i], x, y, a);
      OffTheList(who, h[j], h[i], x, y, a, r, t);
      if At(h[j], r).Checking? && !Marked(h[j], t) {
        assert SeenGone(h, i, r, t);
      } else {
        WorksPastTheGone(who, h, j, r, t);
        var k :| 0 <= k <= j && At(h[k], r).Checking? && !Marked(h[k], t);
        assert SeenGone(h, i, r, t);
      }
    }
  }

  lemma {:induction false} ClosingStays(who: Runs, h: seq<State>, i: nat, j: nat, r: Token)
    requires History(who, h) && i <= j < |h| && (At(h[i], r).Closing? || At(h[i], r).Over?)
    ensures At(h[j], r).Closing? || At(h[j], r).Over?
  {
    if i < j {
      ClosingStays(who, h, i, j - 1, r);
      assert StepAt(who, h, j - 1);
      var x, y, a :| StepOf(who, h[j - 1], h[j], x, y, a);
      StepOwnStage(who, h[j - 1], h[j], x, y, a);
      if x == r {
        WoundDownStays(who, h[j - 1], h[j], x, y, a);
      }
    }
  }

  /** An evicted drain's next unit is its last step of work: from then on it is
      winding down, or over. */
  lemma EvictedExits(who: Runs, h: seq<State>, i: nat, j: nat, k: nat, r: Token)
    requires History(who, h) && i <= j < k < |h| && Dealt(who, h[i], r) && Scanned(h[i], r)
    requires OpenUnit(who, h[j], h[j + 1], r)
    ensures At(h[k], r).Closing? || At(h[k], r).Over?
  {
    FinishedNeverWrites(who, h, i, j, r, 0);
    HistoryKeeps(who, h, j);
    assert RunOk(who, h[j], r);
    ClosingStays(who, h, j + 1, k, r);
  }

  /** A drain that may write shows both its markers, so that a scan of an older
      release, which looks for one of them, meets it too. */
  lemma DrainShowsBoth(who: Runs, h: seq<State>, i: nat, r: Token)
    requires History(who, h) && i < |h| && Active(who, h[i], r) && who[r].kind.Cdc?
    ensures (r, Lock) in h[i].markers && (r, Staging) in h[i].markers
  {
    HistoryKeeps(who, h, i);
    assert RunOk(who, h[i], r);
  }
}
