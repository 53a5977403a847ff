/**
 The provider's hardware allocator (agent/provider/src/hardware.rs): a ledger of
 capped, remaining and allocated resources under allocations, releases and
 profile changes.  GiB values are exact.
 */
module Hardware {
  import opened Common

  datatype Resources = Resources(cpuThreads: int, memGib: real, storageGib: real)

  const NOTHING := Resources(0, 0.0, 0.0)
  const MIN_CAPS := Resources(1, 0.1, 0.1)

  datatype Ordering = Less | Equal | Greater

  datatype Error = InsufficientResources | AlreadyAllocated | NotAllocated | UnknownProfile

  datatype Result<T> = Ok(value: T) | Err(error: Error)

  function Add(a: Resources, b: Resources): Resources {
    Resources(a.cpuThreads + b.cpuThreads, a.memGib + b.memGib, a.storageGib + b.storageGib)
  }

  function Sub(a: Resources, b: Resources): Resources {
    Resources(a.cpuThreads - b.cpuThreads, a.memGib - b.memGib, a.storageGib - b.storageGib)
  }

  function PartialCmp(a: Resources, b: Resources): Ordering {
    if a == b then Equal
    else if a.cpuThreads >= b.cpuThreads && a.memGib >= b.memGib && a.storageGib >= b.storageGib then Greater
    else Less
  }

  function MinInt(a: int, b: int): int { if a <= b then a else b }
  function MaxInt(a: int, b: int): int { if a >= b then a else b }
  function MinReal(a: real, b: real): real { if a <= b then a else b }
  function MaxReal(a: real, b: real): real { if a >= b then a else b }

  /** Limits `a` to `limit`, but never below the minimum. */
  function Cap(a: Resources, limit: Resources): Resources {
    Resources(
      MaxInt(MIN_CAPS.cpuThreads, MinInt(a.cpuThreads, limit.cpuThreads)),
      MaxReal(MIN_CAPS.memGib, MinReal(a.memGib, limit.memGib)),
      MaxReal(MIN_CAPS.storageGib, MinReal(a.storageGib, limit.storageGib)))
  }

  /** `a` is at least `b` in every component. */
  predicate Covers(a: Resources, b: Resources) {
    a.cpuThreads >= b.cpuThreads && a.memGib >= b.memGib && a.storageGib >= b.storageGib
  }

  /** The order calls everything less that is not at least as large in every component. */
  lemma LessMeansNotCovering(a: Resources, b: Resources)
    ensures PartialCmp(a, b) == Less <==> !Covers(a, b)
    ensures PartialCmp(a, b) == Equal <==> Covers(a, b) && Covers(b, a)
  {
  }

  /** A component's cap: the smaller of what is wanted and what there is, where both reach the minimum. */
  predicate IsCap(wanted: real, limit: real, min: real, cap: real) {
    if wanted >= min && limit >= min then cap <= wanted && cap <= limit && (cap == wanted || cap == limit)
    else cap == min
  }

  lemma CapIsCap(a: Resources, limit: Resources)
    ensures var c := Cap(a, limit);
            && IsCap(a.cpuThreads as real, limit.cpuThreads as real, 1.0, c.cpuThreads as real)
            && IsCap(a.memGib, limit.memGib, 0.1, c.memGib)
            && IsCap(a.storageGib, limit.storageGib, 0.1, c.storageGib)
  {
  }

  /** Capping respects the limit wherever the limit allows the minimum, and capping again changes nothing. */
  lemma CapBounds(a: Resources, limit: Resources)
    ensures Covers(Cap(a, limit), MIN_CAPS)
    ensures Covers(limit, MIN_CAPS) ==> Covers(limit, Cap(a, limit))
    ensures Covers(limit, a) && Covers(a, MIN_CAPS) ==> Cap(a, limit) == a
    ensures Cap(Cap(a, limit), limit) == Cap(a, limit)
  {
  }

  // ------------------------------------------------------------------------
  // The ledger
  // ------------------------------------------------------------------------

  datatype Ledger = Ledger(
    profiles: map<string, Resources>, active: string, available: Resources,
    cap: Resources, remaining: Resources, alloc: map<string, Resources>)

  /** Everything allocated. */
  ghost function Allocated(alloc: map<string, Resources>): Resources {
    if alloc == map[] then NOTHING
    else
      var id :| id in alloc;
      Add(alloc[id], Allocated(alloc - {id}))
  }

  lemma AddSwap(a: Resources, b: Resources, c: Resources)
    ensures Add(a, Add(b, c)) == Add(b, Add(a, c))
  {
    var x, y := Add(a, Add(b, c)), Add(b, Add(a, c));
    assert x.memGib == y.memGib && x.storageGib == y.storageGib;
  }

  lemma {:induction false} AllocatedPick(alloc: map<string, Resources>, id: string)
    requires id in alloc
    ensures Allocated(alloc) == Add(alloc[id], Allocated(alloc - {id}))
    decreases |alloc|
  {
    var other :| other in alloc && Allocated(alloc) == Add(alloc[other], Allocated(alloc - {other}));
    if other != id {
      AllocatedPick(alloc - {other}, id);
      AllocatedPick(alloc - {id}, other);
      var rest := alloc - {id} - {other};
      assert alloc - {other} - {id} == rest;
      assert Allocated(alloc - {other}) == Add(alloc[id], Allocated(rest));
      assert Allocated(alloc - {id}) == Add(alloc[other], Allocated(rest));
      AddSwap(alloc[other], alloc[id], Allocated(rest));
    }
  }

  /** What is left plus what is given out is what may be given out. */
  ghost predicate Balanced(l: Ledger) {
    Add(l.remaining, Allocated(l.alloc)) == l.cap
  }

  /** Nothing is given out that is not there. */
  predicate Solvent(l: Ledger) {
    Covers(l.remaining, NOTHING)
  }

  ghost predicate NoNegativeAllocation(l: Ledger) {
    forall id :: id in l.alloc ==> Covers(l.alloc[id], NOTHING)
  }

  /** A fresh manager, before its first profile is activated. */
  function Fresh(profiles: map<string, Resources>, active: string, available: Resources): Ledger {
    Ledger(profiles, active, available, NOTHING, NOTHING, map[])
  }

  /** Activates a profile; `changed` tells whether the cap moved. */
  function ChangeProfile(l: Ledger, name: string): (Ledger, Result<bool>) {
    if name !in l.profiles then (l, Err(UnknownProfile))
    else
      var res := Cap(l.profiles[name], l.available);
      var l' := l.(active := name);
      if PartialCmp(res, l.cap) == Equal then (l', Ok(false))
      else
        var delta := Sub(l.cap, res);
        (l'.(cap := res, remaining := Sub(l.remaining, delta)), Ok(true))
  }

  /** `Load` is a changed profiles file; one whose active profile is missing is refused. */
  datatype Action =
    | Activate(name: string)
    | Load(profiles: map<string, Resources>, active: string)
    | Allocate(id: string, res: Resources)
    | Release(id: string)

  function Step(l: Ledger, a: Action): Ledger {
    match a
    case Activate(name) => ChangeProfile(l, name).0
    case Load(profiles, active) =>
      if active in profiles then ChangeProfile(l.(profiles := profiles, active := active), active).0 else l
    case Allocate(id, res) =>
      if id in l.alloc || PartialCmp(l.remaining, res) == Less then l
      else l.(remaining := Sub(l.remaining, res), alloc := l.alloc[id := res])
    case Release(id) =>
      if id in l.alloc then l.(remaining := Add(l.remaining, l.alloc[id]), alloc := l.alloc - {id})
      else l
  }

  function Run(l: Ledger, acts: seq<Action>): Ledger
    decreases |acts|
  {
    if acts == [] then l else Run(Step(l, acts[0]), acts[1..])
  }

  lemma StepKeepsBalance(l: Ledger, a: Action)
    requires Balanced(l)
    ensures Balanced(Step(l, a))
  {
    match a
    case Allocate(id, res) =>
      if Step(l, a) != l {
        var alloc' := l.alloc[id := res];
        AllocatedPick(alloc', id);
        assert alloc' - {id} == l.alloc;
      }
    case Release(id) =>
      if id in l.alloc {
        AllocatedPick(l.alloc, id);
      }
    case _ =>
  }

  /** Conservation in every reachable state, whatever is requested. */
  lemma {:induction false} BalanceOverRuns(l: Ledger, acts: seq<Action>)
    requires Balanced(l)
    ensures Balanced(Run(l, acts))
    decreases |acts|
  {
    if acts != [] {
      StepKeepsBalance(l, acts[0]);
      BalanceOverRuns(Step(l, acts[0]), acts[1..]);
    }
  }

  lemma FreshIsBalanced(profiles: map<string, Resources>, active: string, available: Resources)
    ensures Balanced(Fresh(profiles, active, available)) && Solvent(Fresh(profiles, active, available))
  {
  }

  /** The new cap gives less than the old one in some component. */
  predicate Shrinks(l: Ledger, a: Action) {
    !Covers(Step(l, a).cap, l.cap)
  }

  predicate AsksNonNegative(a: Action) {
    a.Allocate? ==> Covers(a.res, NOTHING)
  }

  /** A granted request, of any sign, leaves nothing negative. */
  lemma GrantLeavesSolvent(l: Ledger, id: string, res: Resources)
    ensures var t := Step(l, Allocate(id, res));
            t == l || (Solvent(t) && id !in l.alloc && t.alloc == l.alloc[id := res])
    ensures Step(l, Allocate(id, res)) != l <==> id !in l.alloc && Covers(l.remaining, res)
  {
    LessMeansNotCovering(l.remaining, res);
    if id !in l.alloc && Covers(l.remaining, res) {
      assert id in Step(l, Allocate(id, res)).alloc;
    }
  }

  /** Releasing what was granted restores the whole ledger. */
  lemma ReleaseUndoesGrant(l: Ledger, id: string, res: Resources)
    requires id !in l.alloc && Covers(l.remaining, res)
    ensures Step(Step(l, Allocate(id, res)), Release(id)) == l
  {
    LessMeansNotCovering(l.remaining, res);
    var t := Step(l, Allocate(id, res));
    assert t.alloc - {id} == l.alloc;
    assert Add(Sub(l.remaining, res), res) == l.remaining;
  }

  lemma StepStaysSolvent(l: Ledger, a: Action)
    requires Solvent(l) && NoNegativeAllocation(l) && AsksNonNegative(a) && !Shrinks(l, a)
    ensures Solvent(Step(l, a)) && NoNegativeAllocation(Step(l, a))
  {
  }

  /** No step of the run shrinks the cap. */
  predicate NeverShrinks(l: Ledger, acts: seq<Action>)
    decreases |acts|
  {
    acts == [] || (!Shrinks(l, acts[0]) && NeverShrinks(Step(l, acts[0]), acts[1..]))
  }

  /** Only a shrinking profile can over-commit the hardware. */
  lemma {:induction false} OnlyShrinkingOvercommits(l: Ledger, acts: seq<Action>)
    requires Solvent(l) && NoNegativeAllocation(l) && NeverShrinks(l, acts)
    requires forall i :: 0 <= i < |acts| ==> AsksNonNegative(acts[i])
    ensures Solvent(Run(l, acts))
    decreases |acts|
  {
    if acts != [] {
      StepStaysSolvent(l, acts[0]);
      OnlyShrinkingOvercommits(Step(l, acts[0]), acts[1..]);
    }
  }

  /** A profile over-commits exactly when it cannot hold what is already allocated. */
  lemma OvercommitCondition(l: Ledger, name: string)
    requires Balanced(l) && name in l.profiles
    ensures var t := Step(l, Activate(name));
            && t.cap == Cap(l.profiles[name], l.available)
            && (Solvent(t) <==> Covers(t.cap, Allocated(l.alloc)))
  {
    StepKeepsBalance(l, Activate(name));
  }

  /** The active profile is defined, and the cap is its own. */
  predicate CapFollows(l: Ledger) {
    l.active in l.profiles && l.cap == Cap(l.profiles[l.active], l.available)
  }

  lemma StepKeepsCapFollowing(l: Ledger, a: Action)
    requires CapFollows(l)
    ensures CapFollows(Step(l, a))
  {
  }

  /** In every state of a run the cap is the active profile's. */
  lemma {:induction false} CapFollowsOverRuns(l: Ledger, acts: seq<Action>)
    requires CapFollows(l)
    ensures CapFollows(Run(l, acts))
    decreases |acts|
  {
    if acts != [] {
      StepKeepsCapFollowing(l, acts[0]);
      CapFollowsOverRuns(Step(l, acts[0]), acts[1..]);
    }
  }

  /** The states a loaded manager can get into. */
  ghost predicate Reachable(l: Ledger) {
    exists profiles, active, available, acts ::
      active in profiles && l == Run(Started(profiles, active, available), acts)
  }

  /** A manager with its first profile activated. */
  function Started(profiles: map<string, Resources>, active: string, available: Resources): Ledger {
    Step(Fresh(profiles, active, available), Activate(active))
  }

  lemma ReachableKeeps(l: Ledger)
    requires Reachable(l)
    ensures Balanced(l) && CapFollows(l)
  {
    var profiles, active, available, acts
      :| active in profiles && l == Run(Started(profiles, active, available), acts);
    var start := Started(profiles, active, available);
    FreshIsBalanced(profiles, active, available);
    StepKeepsBalance(Fresh(profiles, active, available), Activate(active));
    BalanceOverRuns(start, acts);
    CapFollowsOverRuns(start, acts);
  }

  /** In every reachable state, switching to another profile and back restores the whole ledger. */
  lemma ProfileRoundTrip(l: Ledger, other: string)
    requires Reachable(l)
    ensures Step(Step(l, Activate(other)), Activate(l.active)) == l
  {
    ReachableKeeps(l);
    SwitchAndBack(l, other);
  }

  lemma SwitchAndBack(l: Ledger, other: string)
    requires CapFollows(l)
    ensures Step(Step(l, Activate(other)), Activate(l.active)) == l
  {
  }

  lemma RunTwo(l: Ledger, a: Action, b: Action)
    ensures Run(l, [a, b]) == Step(Step(l, a), b)
  {
    assert [a, b][1..] == [b] && [b][1..] == [];
    assert Run(Step(l, a), [b]) == Run(Step(Step(l, a), b), []);
  }

  /** A manager's first profile makes everything up to its cap available. */
  lemma StartsWithCap(profiles: map<string, Resources>, active: string, available: Resources)
    requires active in profiles
    ensures var l := Started(profiles, active, available);
            && l.profiles == profiles && l.available == available && l.alloc == map[]
            && l.cap == l.remaining == Cap(profiles[active], available)
  {
  }

  lemma AllocatedOne(id: string, res: Resources)
    ensures Allocated(map[id := res]) == res
  {
    AllocatedPick(map[id := res], id);
    assert map[id := res] - {id} == map[];
  }

  /** The ledger once everything is given to one agreement and another profile is activated. */
  function GivenAway(profiles: map<string, Resources>, active: string, available: Resources,
                     id: string, other: string): Ledger
  {
    var l := Started(profiles, active, available);
    Step(Step(l, Allocate(id, l.cap)), Activate(other))
  }

  /** Every profile that is smaller in some component can over-commit: there is a reachable ledger in which it has. */
  lemma ShrinkingCanOvercommit(profiles: map<string, Resources>, active: string, available: Resources,
                               id: string, other: string)
    requires active in profiles && other in profiles
    requires !Covers(Cap(profiles[other], available), Cap(profiles[active], available))
    ensures Reachable(GivenAway(profiles, active, available, id, other))
    ensures !Solvent(GivenAway(profiles, active, available, id, other))
  {
    var l := Started(profiles, active, available);
    var a, b := Allocate(id, l.cap), Activate(other);
    var given := Step(l, a);
    StartsWithCap(profiles, active, available);
    GrantLeavesSolvent(l, id, l.cap);
    AllocatedOne(id, l.cap);
    RunTwo(l, a, b);
    assert Run(l, [a, b]) == GivenAway(profiles, active, available, id, other);
    FirstStepBalances(l, a, profiles, active, available);
    OvercommitCondition(given, other);
  }

  lemma FirstStepBalances(l: Ledger, a: Action, profiles: map<string, Resources>, active: string, available: Resources)
    requires l == Started(profiles, active, available)
    ensures Balanced(Step(l, a))
  {
    FreshIsBalanced(profiles, active, available);
    StepKeepsBalance(Fresh(profiles, active, available), Activate(active));
    StepKeepsBalance(l, a);
  }

  /** For instance, with half of four threads, of 4 GiB of memory and of 4 GiB of storage. */
  lemma HalfProfileOvercommits()
    ensures var all, half := Resources(4, 4.0, 4.0), Resources(2, 2.0, 2.0);
            !Solvent(GivenAway(map["half" := half, "default" := all], "default", all, "agreement", "half"))
  {
    var all, half := Resources(4, 4.0, 4.0), Resources(2, 2.0, 2.0);
    var profiles := map["half" := half, "default" := all];
    assert |"half"| != |"default"|;
    assert profiles["half"] == half && profiles["default"] == all;
    ShrinkingCanOvercommit(profiles, "default", all, "agreement", "half");
  }

  class Manager {
    var profiles: map<string, Resources>
    var active: string
    var available: Resources
    var cap: Resources
    var remaining: Resources
    var alloc: map<string, Resources>

    ghost function View(): Ledger
      reads this
    {
      Ledger(profiles, active, available, cap, remaining, alloc)
    }

    /** Profiles are loaded only if they contain the active one. */
    constructor (profiles: map<string, Resources>, active: string, available: Resources)
      requires active in profiles
      ensures View() == Started(profiles, active, available)
      ensures Balanced(View()) && CapFollows(View())
    {
      this.profiles, this.active, this.available := profiles, active, available;
      cap, remaining, alloc := NOTHING, NOTHING, map[];
      new;
      FreshIsBalanced(profiles, active, available);
      StepKeepsBalance(View(), Activate(active));
      var r := Change(active);
    }

    method Change(name: string) returns (r: Result<bool>)
      modifies this
      ensures (View(), r) == ChangeProfile(old(View()), name)
      ensures r == if name in old(profiles) then Ok(cap != old(cap)) else Err(UnknownProfile)
    {
      if name !in profiles {
        return Err(UnknownProfile);
      }
      active := name;
      var res := Cap(profiles[active], available);
      if PartialCmp(res, cap) == Equal {
        return Ok(false);
      }
      var delta := Sub(cap, res);
      cap := res;
      remaining := Sub(remaining, delta);
      r := Ok(true);
    }

    /** The monitor's handler: a file is loaded if it defines its active profile, and then replaces the profiles. */
    method Reload(profiles: map<string, Resources>, active: string) returns (r: Result<bool>)
      modifies this
      ensures View() == Step(old(View()), Load(profiles, active))
      ensures r == if active in profiles then Ok(View().cap != old(View()).cap) else Err(UnknownProfile)
    {
      if active !in profiles {
        return Err(UnknownProfile);
      }
      this.profiles := profiles;
      this.active := active;
      r := Change(active);
    }

    method AllocateFor(id: string, res: Resources) returns (r: Result<()>)
      modifies this
      ensures View() == Step(old(View()), Allocate(id, res))
      ensures r == if id in old(alloc) then Err(AlreadyAllocated)
                   else if Covers(old(remaining), res) then Ok(()) else Err(InsufficientResources)
    {
      LessMeansNotCovering(remaining, res);
      if id in alloc {
        return Err(AlreadyAllocated);
      }
      if PartialCmp(remaining, res) == Less {
        return Err(InsufficientResources);
      }
      remaining := Sub(remaining, res);
      alloc := alloc[id := res];
      r := Ok(());
    }

    method ReleaseFor(id: string) returns (r: Result<()>)
      modifies this
      ensures View() == Step(old(View()), Release(id))
      ensures r == if id in old(alloc) then Ok(()) else Err(NotAllocated)
    {
      if id !in alloc {
        return Err(NotAllocated);
      }
      remaining := Add(remaining, alloc[id]);
      alloc := alloc - {id};
      r := Ok(());
    }
  }
}
