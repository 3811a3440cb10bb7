// A statement that still executes when its run's claim is taken: the two ways
// it happens, with the shortest lifetime a lease may have.
module LeaseLimits {
  import opened Rows
  import opened LeaseVersions

  function Half(): Terms {
    Terms(30 * SECOND, 15 * SECOND)
  }

  function Blank(clock: nat): State {
    State(clock, {}, {}, None, NoUnit, 0, [])
  }

  /** Opened 0.4 s into a second; a statement that starts 15.01 s before the
      end may run to 10 ms before it, and 290 ms earlier the collector counts
      no second left. */
  function EarlyClaim(): seq<State> {
    var row := Version(400_000, 30_400_000, false);
    var open := Blank(400_000).(versions := {row});
    var unit := Unit(row.expires, false, false, None);
    var pinned := open.(clock := 15_390_000, cached := Some(row.expires), unit := unit);
    var running := pinned.(begun := 1, unit := unit.(owed := true, until := Some(30_390_000)));
    var late := running.(clock := 30_100_000);
    [Blank(400_000), Blank(400_000).(inflight := {row}), open, open.(clock := 15_390_000), pinned, running, late,
     late.(inflight := {ClaimAt(30_100_000, 0)})]
  }

  /** Lapsed and checked; the late renewal lands before the claim does. */
  function StaleClaim(): seq<State> {
    var row, again := Version(0, 30 * SECOND, false), Version(40 * SECOND, 70 * SECOND, false);
    var open := Blank(0).(versions := {row});
    var lapsed := open.(clock := 40 * SECOND);
    var claim := ClaimAt(40 * SECOND, 0);
    var renewed := lapsed.(versions := {row, again}, inflight := {claim});
    var unit := Unit(again.expires, false, false, None);
    var pinned := renewed.(cached := Some(again.expires), unit := unit);
    var running := pinned.(begun := 1, unit := unit.(owed := true, until := Some(55 * SECOND)));
    [Blank(0), Blank(0).(inflight := {row}), open, lapsed, lapsed.(inflight := {claim}),
     lapsed.(inflight := {claim, again}), renewed, pinned, running,
     running.(versions := {row, again, claim}, inflight := {})]
  }

  /** A collector's check succeeds while a statement of the run executes. */
  lemma EarlyClaimHappens()
    ensures var h := EarlyClaim();
            && History(Half(), h) && Executing(h[6])
            && exists v :: ClaimCheck(h[6], h[7], v, 0) && h[6].clock < v.expires
  {
    var h, row := EarlyClaim(), Version(400_000, 30_400_000, false);
    assert Open(Half(), h[0], h[1]) && Land(h[1], h[2], row) && Tick(h[2], h[3]);
    assert Reads(h[3].versions, row) && Pin(Half(), h[3], h[4], row) && Start(Half(), h[4], h[5], row);
    assert Tick(h[5], h[6]) && ClaimCheck(h[6], h[7], row, 0);
    forall i | 0 <= i < |h| - 1
      ensures StepAt(Half(), h, i)
    {
      assert i == 0 || i == 1 || i == 2 || i == 3 || i == 4 || i == 5 || i == 6;
      assert Next(Half(), h[i], h[i + 1]);
    }
  }

  lemma StaleClaimSteps()
    ensures var h, p := StaleClaim(), Half();
            && Next(p, h[0], h[1]) && Next(p, h[1], h[2]) && Next(p, h[2], h[3]) && Next(p, h[3], h[4])
            && Next(p, h[4], h[5]) && Next(p, h[5], h[6])
            && exists v :: ClaimCheck(h[3], h[4], v, 0) && v.expires <= h[3].clock
  {
    var h := StaleClaim();
    var row, again := Version(0, 30 * SECOND, false), Version(40 * SECOND, 70 * SECOND, false);
    assert Open(Half(), h[0], h[1]) && Land(h[1], h[2], row) && Tick(h[2], h[3]);
    assert ClaimCheck(h[3], h[4], row, 0) && RenewCheck(Half(), h[4], h[5], row) && Land(h[5], h[6], again);
  }

  lemma StaleClaimLands()
    ensures var h, p := StaleClaim(), Half();
            && Next(p, h[6], h[7]) && Next(p, h[7], h[8]) && Next(p, h[8], h[9])
            && Executing(h[9]) && !Claimed(h[8]) && Claimed(h[9])
  {
    var h, again, claim := StaleClaim(), Version(40 * SECOND, 70 * SECOND, false), ClaimAt(40 * SECOND, 0);
    assert Reads(h[6].versions, again) && Pin(Half(), h[6], h[7], again) && Start(Half(), h[7], h[8], again);
    assert Land(h[8], h[9], claim) && claim in h[9].versions;
  }

  lemma NineSteps(p: Terms, h: seq<State>)
    requires |h| == 10 && Init(h[0])
    requires Next(p, h[0], h[1]) && Next(p, h[1], h[2]) && Next(p, h[2], h[3]) && Next(p, h[3], h[4])
    requires Next(p, h[4], h[5]) && Next(p, h[5], h[6]) && Next(p, h[6], h[7]) && Next(p, h[7], h[8])
    requires Next(p, h[8], h[9])
    ensures History(p, h)
  {
    hide Next;
    forall i | 0 <= i < |h| - 1
      ensures StepAt(p, h, i)
    {
      assert i == 0 || i == 1 || i == 2 || i == 3 || i == 4 || i == 5 || i == 6 || i == 7 || i == 8;
    }
  }

  /** A claim checked on a lapsed row lands while a statement executes. */
  lemma StaleClaimHappens()
    ensures var h := StaleClaim();
            && History(Half(), h) && Executing(h[9]) && !Claimed(h[8]) && Claimed(h[9])
            && exists v :: ClaimCheck(h[3], h[4], v, 0) && v.expires <= h[3].clock
  {
    StaleClaimSteps();
    StaleClaimLands();
    hide Next, Claimed, ClaimCheck;
    NineSteps(Half(), StaleClaim());
  }
}
