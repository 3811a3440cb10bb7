// The one rule for what a window appends to a change log: under which stamp
// and numbers, what it trims first, and whether it leaves a marker.
module Replay {
  import opened Rows

  const MAX_SEQ: nat := 0xFFFF_FFFF

  datatype WindowId = WindowId(start: nat, end: nat)

  /** The destination's record of the last append attempt. `base` is absent in
      a marker of a release that numbered every window from 0. */
  datatype Pending = Pending(start: nat, base: Option<nat>)

  datatype Landed = Landed(count: nat, max: Option<nat>)

  datatype StampFacts = StampFacts(all: Landed, fromBase: Landed, distinct: nat)

  datatype Plan = Plan(
    stamp: nat, base: nat, skip: nat, events: nat, trimFrom: Option<nat>, mark: bool, watermark: nat)

  /** The rows the facts count are `base, base + 1, ...` without a gap. */
  predicate Intact(l: Landed, base: nat) {
    l.count == 0 || (base + l.count - 1 <= MAX_SEQ && l.max == Some(base + l.count - 1))
  }

  function Numbered(id: WindowId, base: nat, skip: nat, events: nat, trimFrom: Option<nat>, mark: bool): Result<Plan> {
    if base + events > MAX_SEQ then Err("past the sequence's range")
    else Ok(Plan(id.start, base, skip, events, trimFrom, mark, id.end))
  }

  /** A previous attempt of this window: make the stamp exactly this window. */
  function Resume(id: WindowId, base: nat, n: Landed, events: nat): (r: Result<Plan>)
    ensures r.Ok? <==> base + events <= MAX_SEQ
    ensures r.Ok? ==> r.value.base == base && r.value.skip <= events
    ensures r.Ok? ==> r.value.stamp == id.start && r.value.watermark == id.end && r.value.events == events
    ensures r.Ok? ==> (r.value.mark <==> r.value.skip < events)
    ensures r.Ok? ==> (r.value.trimFrom.Some? ==> r.value.trimFrom.value == base + r.value.skip)
    ensures r.Ok? && Intact(n, base) ==> r.value.skip == if n.count <= events then n.count else events
    ensures r.Ok? && !Intact(n, base) ==> r.value.skip == 0
    ensures r.Ok? && r.value.trimFrom.None? ==> Intact(n, base) && n.count <= events
  {
    if !Intact(n, base) then Numbered(id, base, 0, events, Some(base), events > 0)
    else if n.count <= events then Numbered(id, base, n.count, events, None, n.count < events)
    else Numbered(id, base, events, events, Some(base + events), false)
  }

  /** The first number this window would use: its attempt's, or the one above
      whatever lies at its stamp. */
  function FirstNumber(p: Option<Pending>, f: Option<StampFacts>, id: WindowId): nat {
    if p.Some? && p.value.start == id.start then if p.value.base.Some? then p.value.base.value else 0
    else if f.Some? && f.value.all.max.Some? then f.value.all.max.value + 1
    else 0
  }

  /** A plan is refused for nothing but a watermark behind the newest attempt,
      an attempt whose rows were not asked for or cannot be told apart, and
      numbers past the range. */
  function ReplayPlan(p: Option<Pending>, f: Option<StampFacts>, id: WindowId, events: nat): (r: Result<Plan>)
    ensures r.Ok? <==>
            && (p.Some? ==> p.value.start <= id.start)
            && (p.Some? && p.value.start == id.start ==>
                  f.Some? && (p.value.base.None? ==> f.value.all.count == f.value.distinct))
            && FirstNumber(p, f, id) + events <= MAX_SEQ
    ensures r.Ok? ==> r.value.stamp == id.start && r.value.watermark == id.end && r.value.events == events
  {
    if p.Some? && p.value.start > id.start then
      Err("the watermark was moved backwards")
    else if p.Some? && p.value.start == id.start then
      if f.None? then Err("replaying a window needs the facts at its stamp")
      else if p.value.base.None? && f.value.all.count != f.value.distinct then
        Err("rows of two releases share the stamp")
      else Resume(id, if p.value.base.Some? then p.value.base.value else 0, f.value.fromBase, events)
    else if f.Some? && f.value.all.max.Some? then
      if f.value.all.max.value + 1 > MAX_SEQ then Err("past the sequence's range")
      else Numbered(id, f.value.all.max.value + 1, 0, events, None, events > 0)
    else Numbered(id, 0, 0, events, None, events > 0)
  }

  // ------------------------------------------------------------------
  // What one run remembers of a table, so that a window costs no query.

  datatype Seen = Seen(pending: Option<Pending>, ceiling: Option<nat>)

  datatype Ask = Probe | Facts(base: nat) | Nothing

  function AskOf(seen: Option<Seen>, id: WindowId): Ask {
    if seen.None? then Probe
    else if seen.value.pending.Some? && seen.value.pending.value.start == id.start then
      Facts(if seen.value.pending.value.base.Some? then seen.value.pending.value.base.value else 0)
    else if seen.value.ceiling.Some? && seen.value.ceiling.value >= id.start then Facts(0)
    else Nothing
  }

  /** The memo of one run, per table and source. */
  class Memo {
    var seen: map<(string, string), Seen>

    constructor ()
      ensures seen == map[]
    {
      seen := map[];
    }

    function Get(t: string, sid: string): Option<Seen>
      reads this
    {
      if (t, sid) in seen then Some(seen[(t, sid)]) else None
    }

    /** What has to be read before a plan: everything before the first window,
        the facts at the stamp where rows can be, and otherwise nothing. */
    method AskFor(t: string, sid: string, id: WindowId) returns (a: Ask)
      ensures a == AskOf(Get(t, sid), id)
      ensures a.Probe? <==> Get(t, sid).None?
      ensures a.Nothing? <==> Get(t, sid).Some? && !Reaches(Get(t, sid).value, id.start)
    {
      if (t, sid) !in seen {
        return Probe;
      }
      var s := seen[(t, sid)];
      if s.pending.Some? && s.pending.value.start == id.start {
        a := Facts(if s.pending.value.base.Some? then s.pending.value.base.value else 0);
      } else if s.ceiling.Some? && s.ceiling.value >= id.start {
        a := Facts(0);
      } else {
        a := Nothing;
      }
    }

    method Probed(t: string, sid: string, pending: Option<Pending>, ceiling: Option<nat>)
      modifies this
      ensures Get(t, sid) == Some(Seen(pending, ceiling))
      ensures forall u, v :: (u, v) != (t, sid) ==> Get(u, v) == old(Get(u, v))
    {
      seen := seen[(t, sid) := Seen(pending, ceiling)];
    }

    method PlanFor(t: string, sid: string, f: Option<StampFacts>, id: WindowId, events: nat) returns (r: Result<Plan>)
      ensures Get(t, sid).None? ==> r.Err?
      ensures Get(t, sid).Some? ==> r == ReplayPlan(Get(t, sid).value.pending, f, id, events)
    {
      if (t, sid) !in seen {
        return Err("a plan before its probe");
      }
      r := ReplayPlan(seen[(t, sid)].pending, f, id, events);
    }

    method Committed(t: string, sid: string, plan: Plan)
      modifies this
      ensures Get(t, sid) == RememberedAfter(old(Get(t, sid)), plan)
      ensures forall u, v :: (u, v) != (t, sid) ==> Get(u, v) == old(Get(u, v))
    {
      if plan.mark && (t, sid) in seen {
        seen := seen[(t, sid) := seen[(t, sid)].(pending := Some(Pending(plan.stamp, Some(plan.base))))];
      }
    }

    method Forget(t: string, sid: string)
      modifies this
      ensures Get(t, sid) == None
      ensures forall u, v :: (u, v) != (t, sid) ==> Get(u, v) == old(Get(u, v))
    {
      seen := seen - {(t, sid)};
    }
  }

  /** What is remembered says that rows may lie at `stamp`. */
  predicate Reaches(s: Seen, stamp: nat) {
    (s.pending.Some? && s.pending.value.start == stamp) || (s.ceiling.Some? && s.ceiling.value >= stamp)
  }

  function RememberedAfter(s: Option<Seen>, plan: Plan): Option<Seen> {
    if plan.mark && s.Some? then Some(s.value.(pending := Some(Pending(plan.stamp, Some(plan.base))))) else s
  }
}
