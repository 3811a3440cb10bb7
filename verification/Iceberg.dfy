// One run's commit loop against a catalog whose answer may be lost: an
// attempt answered ambiguously can still land at any later time.
module Iceberg {
  type File = nat
  type Id = nat

  /** A published snapshot, named by the client that proposed it. */
  datatype Snapshot = Snapshot(id: Id, files: set<File>)

  /** An attempt the catalog has not settled: it lands only on the parent it
      was built on. Each landing makes a new current snapshot, so the number
      of snapshots names the current one. */
  datatype Request = Request(id: Id, parent: nat, files: set<File>)

  datatype Client =
    /** Building an attempt on the table as loaded. */
    | Building(attempt: nat, base: nat)
    | Awaiting(attempt: nat, req: Request)
    | Done
    | Unknown
    | Failed

  datatype State = State(
    snapshots: seq<Snapshot>,
    inflight: set<Request>,
    tried: set<Id>,
    ambiguous: bool,
    client: Client,
    /** An append or a merge carries on the snapshot it is built on, a replace
        does not. */
    carries: bool,
    /** The run's own data files, and every file that still exists. */
    mine: set<File>,
    files: set<File>)

  predicate Landed(s: State, id: Id) {
    exists i :: 0 <= i < |s.snapshots| && s.snapshots[i].id == id
  }

  predicate AnyLanded(s: State) {
    exists i :: 0 <= i < |s.snapshots| && s.snapshots[i].id in s.tried
  }

  /** The files of the snapshot current after the first `n`. */
  function Current(snapshots: seq<Snapshot>, n: nat): set<File> {
    if 0 < n <= |snapshots| then snapshots[n - 1].files else {}
  }

  // ------------------------------------------------------------------
  // The steps.

  predicate Send(s: State, s': State, id: Id) {
    && s.client.Building? && s.client.attempt < 3 && id !in s.tried && !Landed(s, id)
    && var r := Request(id, s.client.base, s.mine + if s.carries then Current(s.snapshots, s.client.base) else {});
       s' == s.(inflight := s.inflight + {r}, tried := s.tried + {id}, client := Awaiting(s.client.attempt, r))
  }

  /** The catalog settles an attempt, now or much later. */
  predicate Settle(s: State, s': State, r: Request) {
    && r in s.inflight
    && s' == s.(inflight := s.inflight - {r},
                snapshots := if r.parent == |s.snapshots| then s.snapshots + [Snapshot(r.id, r.files)] else s.snapshots)
  }

  predicate AnswerDone(s: State, s': State) {
    s.client.Awaiting? && Landed(s, s.client.req.id) && s' == s.(client := Done)
  }

  /** What a run that must report failure may claim. */
  function Failure(s: State): Client {
    if s.ambiguous then Unknown else Failed
  }

  /** A concurrency conflict is final: the attempt did not land and will not.
      The reload may still show an earlier attempt landed late, or fail. */
  predicate AnswerConflict(s: State, s': State, reloaded: bool) {
    && s.client.Awaiting? && s.client.req !in s.inflight && !Landed(s, s.client.req.id)
    && s' == s.(client := if !reloaded then Unknown
                          else if AnyLanded(s) then Done
                          else if s.client.attempt < 2 then Building(s.client.attempt + 1, |s.snapshots|)
                          else Failure(s))
  }

  predicate AnswerRejected(s: State, s': State) {
    && s.client.Awaiting? && s.client.req !in s.inflight && !Landed(s, s.client.req.id)
    && s' == s.(client := Failure(s))
  }

  /** A lost answer, at any time. A reload that fails leaves it unknown. */
  predicate AnswerLost(s: State, s': State, reloaded: bool) {
    && s.client.Awaiting?
    && s' == if !reloaded then s.(client := Unknown)
             else if AnyLanded(s) then s.(client := Done)
             else s.(ambiguous := true,
                     client := if s.client.attempt < 2 then Building(s.client.attempt + 1, |s.snapshots|) else Unknown)
  }

  /** Any other failure while building: a manifest read, an upload, a changed
      schema. */
  predicate BuildFails(s: State, s': State) {
    s.client.Building? && s' == s.(client := Failure(s))
  }

  /** Only a run that failed for certain sweeps its files. */
  predicate Sweep(s: State, s': State) {
    s.client.Failed? && s' == s.(files := s.files - s.mine)
  }

  /** Another writer publishes files of its own, and this run's only by
      building on a snapshot that has them. */
  predicate Other(s: State, s': State, id: Id, fs: set<File>) {
    && id !in s.tried && (fs !! s.mine || AnyLanded(s))
    && s' == s.(snapshots := s.snapshots + [Snapshot(id, fs)], files := s.files + fs)
  }

  ghost predicate Next(s: State, s': State) {
    || (exists id :: Send(s, s', id))
    || (exists r :: Settle(s, s', r))
    || AnswerDone(s, s')
    || (exists b :: AnswerConflict(s, s', b))
    || AnswerRejected(s, s')
    || (exists b :: AnswerLost(s, s', b))
    || BuildFails(s, s')
    || Sweep(s, s')
    || (exists id, fs :: Other(s, s', id, fs))
  }

  // ------------------------------------------------------------------

  ghost predicate Inv(s: State) {
    && (forall i :: 0 <= i < |s.snapshots| ==> s.snapshots[i].files <= s.files)
    && (!s.client.Failed? ==> s.mine <= s.files)
    && (forall i :: 0 <= i < |s.snapshots| ==> s.snapshots[i].files !! s.mine || AnyLanded(s))
    && (forall r :: r in s.inflight ==> r.id in s.tried && r.parent <= |s.snapshots| && !Landed(s, r.id))
    && (forall q, r :: q in s.inflight && r in s.inflight && q.id == r.id ==> q == r)
    // Without an ambiguous answer, only the attempt being awaited can be in
    // flight or have landed.
    && (!s.ambiguous && !s.client.Unknown? && !s.client.Done? ==>
          && (forall r :: r in s.inflight ==> s.client.Awaiting? && r == s.client.req)
          && (forall i :: 0 <= i < |s.snapshots| && s.snapshots[i].id in s.tried ==>
                s.client.Awaiting? && s.snapshots[i].id == s.client.req.id))
    && (s.client.Failed? ==> !s.ambiguous)
    && (s.client.Building? ==> s.client.base <= |s.snapshots|)
    && (s.client.Awaiting? ==> s.client.req.id in s.tried)
    // At most one attempt lands, and none can land after it.
    && (forall i, j ::
          (&& 0 <= i < |s.snapshots| && 0 <= j < |s.snapshots|
           && s.snapshots[i].id in s.tried && s.snapshots[j].id in s.tried)
          ==> i == j)
    && (forall i :: 0 <= i < |s.snapshots| && s.snapshots[i].id in s.tried ==>
          (forall r :: r in s.inflight ==> r.parent <= i) && (s.client.Building? ==> s.client.base <= i))
    && (s.client.Done? ==> AnyLanded(s))
    && (forall r :: r in s.inflight ==> r.files <= s.files)
  }

  ghost predicate FilesOk(s: State) {
    && (forall r :: r in s.inflight ==> Carried(s, r.files, r.parent))
    && (forall i :: 0 <= i < |s.snapshots| && s.snapshots[i].id in s.tried ==> Carried(s, s.snapshots[i].files, i))
  }

  /** The run's files, on top of the `n`-th snapshot's if it carries it on. */
  predicate Carried(s: State, files: set<File>, n: nat) {
    files == s.mine + if s.carries then Current(s.snapshots, n) else {}
  }

  predicate Init(s: State) {
    && s.inflight == {} && s.tried == {} && !s.ambiguous && s.client == Building(0, |s.snapshots|)
    && s.mine <= s.files
    && (forall i :: 0 <= i < |s.snapshots| ==> s.snapshots[i].files <= s.files && s.snapshots[i].files !! s.mine)
  }

  lemma InitKeeps(s: State)
    requires Init(s)
    ensures Inv(s)
  {
  }

  lemma InitFiles(s: State)
    requires Init(s)
    ensures FilesOk(s)
  {
  }

  /** Snapshots are only ever added, so what is current after `n` stays. */
  lemma CarriedStays(s: State, s': State, files: set<File>, n: nat)
    requires Carried(s, files, n) && n <= |s.snapshots| <= |s'.snapshots|
    requires s'.snapshots[..|s.snapshots|] == s.snapshots && s'.mine == s.mine && s'.carries == s.carries
    ensures Carried(s', files, n)
  {
    if 0 < n {
      assert s'.snapshots[n - 1] == s'.snapshots[..|s.snapshots|][n - 1];
    }
  }

  /** Apart from a new attempt or landing, requests and snapshots are as before,
      or another writer's snapshot is added. */
  lemma FilesKept(s: State, s': State)
    requires FilesOk(s) && (forall r :: r in s.inflight ==> r.parent <= |s.snapshots|)
    requires s'.inflight <= s.inflight && s'.tried == s.tried && s'.mine == s.mine && s'.carries == s.carries
    requires |s.snapshots| <= |s'.snapshots| && s'.snapshots[..|s.snapshots|] == s.snapshots
    requires forall i :: |s.snapshots| <= i < |s'.snapshots| && s'.snapshots[i].id in s'.tried ==>
               Carried(s', s'.snapshots[i].files, i)
    ensures FilesOk(s')
  {
    hide Carried;
    forall r | r in s'.inflight
      ensures Carried(s', r.files, r.parent)
    {
      CarriedStays(s, s', r.files, r.parent);
    }
    forall i | 0 <= i < |s.snapshots| && s'.snapshots[i].id in s'.tried
      ensures Carried(s', s'.snapshots[i].files, i)
    {
      assert s'.snapshots[i] == s'.snapshots[..|s.snapshots|][i];
      CarriedStays(s, s', s.snapshots[i].files, i);
    }
  }

  lemma NextFiles(s: State, s': State)
    requires Inv(s) && FilesOk(s) && Next(s, s')
    ensures FilesOk(s')
  {
    if id :| Send(s, s', id) {
      SendFiles(s, s', id);
    } else if r :| Settle(s, s', r) {
      SettleFiles(s, s', r);
    } else {
      assert s'.inflight == s.inflight && s'.tried == s.tried;
      assert s'.snapshots[..|s.snapshots|] == s.snapshots;
      FilesKept(s, s');
    }
  }

  lemma SendFiles(s: State, s': State, id: Id)
    requires FilesOk(s) && Send(s, s', id)
    ensures FilesOk(s')
  {
    forall i | 0 <= i < |s.snapshots|
      ensures s.snapshots[i].id != id
    {
    }
  }

  lemma SettleFiles(s: State, s': State, r: Request)
    requires Inv(s) && FilesOk(s) && Settle(s, s', r)
    ensures FilesOk(s')
  {
    assert s'.snapshots[..|s.snapshots|] == s.snapshots;
    if |s'.snapshots| > |s.snapshots| {
      CarriedStays(s, s', r.files, r.parent);
    }
    hide Inv;
    FilesKept(s, s');
  }

  lemma SettleKeeps(s: State, s': State, r: Request)
    requires Inv(s) && Settle(s, s', r)
    ensures Inv(s')
  {
    if r.parent == |s.snapshots| {
      var n := |s.snapshots|;
      assert s'.snapshots[n].id == r.id;
      forall i | 0 <= i < n
        ensures s.snapshots[i].id !in s.tried
      {
      }
      forall q | q in s'.inflight
        ensures !Landed(s', q.id)
      {
        assert q in s.inflight && q.id != r.id;
      }
    }
  }

  lemma SendKeeps(s: State, s': State, id: Id)
    requires Inv(s) && Send(s, s', id)
    ensures Inv(s')
  {
  }

  lemma OtherKeeps(s: State, s': State, id: Id, fs: set<File>)
    requires Inv(s) && Other(s, s', id, fs)
    ensures Inv(s')
  {
    forall r | r in s'.inflight
      ensures !Landed(s', r.id)
    {
    }
    if AnyLanded(s) {
      var i :| 0 <= i < |s.snapshots| && s.snapshots[i].id in s.tried;
      assert s'.snapshots[i].id in s'.tried;
    }
  }

  lemma AnswerKeeps(s: State, s': State)
    requires Inv(s)
    requires AnswerDone(s, s') || AnswerRejected(s, s') || BuildFails(s, s') || Sweep(s, s')
    ensures Inv(s')
  {
  }

  lemma ConflictKeeps(s: State, s': State, reloaded: bool)
    requires Inv(s) && AnswerConflict(s, s', reloaded)
    ensures Inv(s')
  {
  }

  lemma LostKeeps(s: State, s': State, reloaded: bool)
    requires Inv(s) && AnswerLost(s, s', reloaded)
    ensures Inv(s')
  {
  }

  lemma NextKeeps(s: State, s': State)
    requires Inv(s) && Next(s, s')
    ensures Inv(s')
  {
    if id :| Send(s, s', id) {
      SendKeeps(s, s', id);
    } else if r :| Settle(s, s', r) {
      SettleKeeps(s, s', r);
    } else if b :| AnswerLost(s, s', b) {
      LostKeeps(s, s', b);
    } else if b :| AnswerConflict(s, s', b) {
      ConflictKeeps(s, s', b);
    } else if id, fs :| Other(s, s', id, fs) {
      OtherKeeps(s, s', id, fs);
    } else {
      AnswerKeeps(s, s');
    }
  }

  ghost predicate History(h: seq<State>) {
    && |h| > 0 && Init(h[0])
    && forall i {:trigger StepAt(h, i)} :: 0 <= i < |h| - 1 ==> StepAt(h, i)
  }

  ghost predicate StepAt(h: seq<State>, i: nat)
    requires i + 1 < |h|
  {
    Next(h[i], h[i + 1])
  }

  lemma {:induction false} HistoryKeeps(h: seq<State>, i: nat)
    requires History(h) && i < |h|
    ensures Inv(h[i]) && FilesOk(h[i])
  {
    hide Inv, FilesOk, Next;
    if i == 0 {
      InitKeeps(h[0]);
      InitFiles(h[0]);
    } else {
      var j := i - 1;
      HistoryKeeps(h, j);
      assert StepAt(h, j);
      NextKeeps(h[j], h[i]);
      NextFiles(h[j], h[i]);
    }
  }

  /** However attempts are answered and however late they land: every snapshot
      ever published references only files that still exist, the run's files
      are published at most once, and a run that reports success is published,
      with all its files. */
  lemma NeverSweepsPublished(h: seq<State>, i: nat)
    requires History(h) && i < |h|
    ensures forall j :: 0 <= j < |h[i].snapshots| ==> h[i].snapshots[j].files <= h[i].files
    ensures forall j, k ::
              (&& 0 <= j < |h[i].snapshots| && 0 <= k < |h[i].snapshots|
               && h[i].snapshots[j].id in h[i].tried && h[i].snapshots[k].id in h[i].tried)
              ==> j == k
    ensures h[i].client.Done? ==>
              exists j :: 0 <= j < |h[i].snapshots| && h[i].snapshots[j].id in h[i].tried
                          && h[i].mine <= h[i].snapshots[j].files
  {
    HistoryKeeps(h, i);
    if h[i].client.Done? {
      var j :| 0 <= j < |h[i].snapshots| && h[i].snapshots[j].id in h[i].tried;
      assert Carried(h[i], h[i].snapshots[j].files, j);
    }
  }

  /** What a landed attempt publishes: exactly the run's files, and, if it
      appends or merges, exactly what was current when it landed, whoever
      published it and however often the run had to build again. */
  lemma LandedIsWhole(h: seq<State>, i: nat, j: nat)
    requires History(h) && i < |h| && j < |h[i].snapshots| && h[i].snapshots[j].id in h[i].tried
    ensures h[i].snapshots[j].files ==
            h[i].mine + if h[i].carries && j > 0 then h[i].snapshots[j - 1].files else {}
  {
    HistoryKeeps(h, i);
    assert Carried(h[i], h[i].snapshots[j].files, j);
  }

  /** A run leaves its files unswept only if the answer to a commit, or to the
      reload after a conflict, was lost. */
  lemma {:induction false} UnknownMeansLost(h: seq<State>, i: nat)
    requires History(h) && i < |h| && (h[i].client.Unknown? || h[i].ambiguous)
    ensures exists k :: 0 <= k < i && LostAt(h, k)
  {
    var j := i - 1;
    assert i > 0 && StepAt(h, j);
    if h[j].client.Unknown? || h[j].ambiguous {
      UnknownMeansLost(h, j);
    } else {
      assert LostAt(h, j);
    }
  }

  ghost predicate LostAt(h: seq<State>, k: nat)
    requires k + 1 < |h|
  {
    AnswerLost(h[k], h[k + 1], true) || AnswerLost(h[k], h[k + 1], false) || AnswerConflict(h[k], h[k + 1], false)
  }

  /** How many attempts have been sent. */
  predicate Counted(s: State) {
    && |s.tried| <= 3
    && (s.client.Building? ==> |s.tried| == s.client.attempt)
    && (s.client.Awaiting? ==> |s.tried| == s.client.attempt + 1)
  }

  lemma {:induction false} ThreeAttempts(h: seq<State>, i: nat)
    requires History(h) && i < |h|
    ensures Counted(h[i])
  {
    if i > 0 {
      ThreeAttempts(h, i - 1);
      assert StepAt(h, i - 1);
      CountedStep(h[i - 1], h[i]);
    }
  }

  lemma CountedStep(s: State, s': State)
    requires Counted(s) && Next(s, s')
    ensures Counted(s')
  {
    hide AnyLanded, Landed;
    if id :| Send(s, s', id) {
      SendCounted(s, s', id);
    } else {
      assert s'.tried == s.tried;
    }
  }

  lemma SendCounted(s: State, s': State, id: Id)
    requires Counted(s) && Send(s, s', id)
    ensures Counted(s')
  {
    assert s'.tried == s.tried + {id};
  }

  /** A run that failed for certain can leave nothing behind, and takes nothing
      from anyone: its files go, every published one stays. */
  lemma FailedLeavesNothing(h: seq<State>, i: nat) returns (z: State)
    requires History(h) && i < |h| && h[i].client.Failed?
    ensures Next(h[i], z) && z.files !! z.mine && z.snapshots == h[i].snapshots
    ensures forall j :: 0 <= j < |z.snapshots| ==> z.snapshots[j].files <= z.files
  {
    HistoryKeeps(h, i);
    z := h[i].(files := h[i].files - h[i].mine);
    assert Sweep(h[i], z);
    NextKeeps(h[i], z);
  }

  /** After a conflict, or a lost answer the reload shows nothing of, a run that
      has attempts left can build again on the table as it then stands, and end
      in success. */
  lemma RetrySucceeds(s: State, id: Id, lost: bool) returns (r: State, a: State, b: State, c: State)
    requires s.client.Awaiting? && s.client.attempt < 2 && !AnyLanded(s)
    requires lost || (s.client.req !in s.inflight && !Landed(s, s.client.req.id))
    requires id !in s.tried && !Landed(s, id)
    ensures Next(s, r) && Next(r, a) && Next(a, b) && Next(b, c) && c.client.Done?
  {
    r := s.(ambiguous := s.ambiguous || lost, client := Building(s.client.attempt + 1, |s.snapshots|));
    assert if lost then AnswerLost(s, r, true) else AnswerConflict(s, r, true);
    a, b, c := AttemptSucceeds(r, id);
  }

  /** An attempt built on the table as it stands, sent and settled, ends in
      success. */
  lemma AttemptSucceeds(s: State, id: Id) returns (a: State, b: State, c: State)
    requires s.client.Building? && s.client.attempt < 3 && s.client.base == |s.snapshots|
    requires id !in s.tried && !Landed(s, id)
    ensures Next(s, a) && Next(a, b) && Next(b, c) && c.client.Done?
  {
    var r := Request(id, s.client.base, s.mine + if s.carries then Current(s.snapshots, s.client.base) else {});
    a := s.(inflight := s.inflight + {r}, tried := s.tried + {id}, client := Awaiting(s.client.attempt, r));
    b := a.(inflight := a.inflight - {r}, snapshots := a.snapshots + [Snapshot(id, r.files)]);
    assert Send(s, a, id) && Settle(a, b, r);
    assert b.snapshots[|s.snapshots|].id == id;
    c := b.(client := Done);
    assert AnswerDone(b, c);
  }
}
