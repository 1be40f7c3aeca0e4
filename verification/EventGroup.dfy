// event_group.h: a mask of event bits with a single waiting coroutine.

// The operations on masks, with the few facts needed about them
module Masks {

  type Mask = bv32

  function Union(m: Mask, n: Mask): Mask { m | n }

  function Both(m: Mask, n: Mask): Mask { m & n }

  function Except(m: Mask, n: Mask): Mask { m & !n }

  // What co_event_group_clear leaves
  function Without(m: Mask, n: Mask): Mask { Except(m, Both(m, n)) }

  // Clearing never makes a condition true.
  lemma WithoutShrinks(m: Mask, c: Mask, w: Mask)
    ensures Both(m, w) == 0 ==> Both(Without(m, c), w) == 0
    ensures Both(Without(m, c), w) == w ==> Both(m, w) == w
  {
  }

  // Setting never makes one false.
  lemma UnionGrows(m: Mask, n: Mask, w: Mask)
    ensures Both(m, w) != 0 ==> Both(Union(m, n), w) != 0
    ensures Both(m, w) == w ==> Both(Union(m, n), w) == w
  {
  }

  predicate Has(m: Mask, b: Mask) { m & b != 0 }

  predicate IsBit(b: Mask) { b == 1 || b == 2 || b == 4 }

  lemma UnionHas(m: Mask, n: Mask, b: Mask)
    requires IsBit(n) && IsBit(b)
    ensures Has(Union(m, n), b) == (Has(m, b) || n == b)
  {
  }

  lemma WithoutHas(m: Mask, n: Mask, b: Mask)
    requires IsBit(n) && IsBit(b)
    ensures Has(Without(m, n), b) == (Has(m, b) && n != b)
  {
  }

  lemma BothIsBit(m: Mask, b: Mask)
    requires IsBit(b)
    ensures (Both(m, b) == b) == Has(m, b) && Has(Both(m, b), b) == Has(m, b)
  {
  }

  lemma BothHas(m: Mask, n: Mask, b: Mask)
    requires IsBit(b) && Has(n, b)
    ensures Has(Both(m, n), b) == Has(m, b)
  {
    assert b == 1 || b == 2 || b == 4;
  }

  lemma BothIsIntersection(m: Mask, n: Mask, b: Mask)
    requires IsBit(b)
    ensures Has(Both(m, n), b) == (Has(m, b) && Has(n, b))
  {
  }

  lemma BothOfTwo(m: Mask)
    ensures (Both(m, 3) != 0) == (Has(m, 1) || Has(m, 2))
  {
  }

  lemma EmptyHas(b: Mask)
    ensures !Has(0, b)
  {
  }
}

module EventGroup {
  import opened Prelude
  import opened Coroutine
  import opened Masks

  datatype Mode = Any | All

  datatype Group = Group(mask: Mask, waitCtx: Option<Ctx>, waitMask: Mask, waitMode: Mode) {

    // co_event_group_test
    predicate Test(m: Mask, mode: Mode) {
      if mode.Any? then Both(mask, m) != 0 else Both(mask, m) == m
    }
  }

  // co_event_group_init
  const NEW := Group(0, None, 0, Any)

  // A group with the scheduler; `fault` is the assertion "Multiple waits".
  datatype Grouped = Grouped(group: Group, rt: Rt, fault: bool) {

    function Update(): Grouped {
      if group.waitCtx.Some? && group.Test(group.waitMask, group.waitMode) then
        this.(group := group.(waitCtx := None), rt := rt.Push(Resume(group.waitCtx.value)))
      else
        this
    }

    function Set(m: Mask): Grouped {
      this.(group := group.(mask := Union(group.mask, m))).Update()
    }

    function Clear(m: Mask): Grouped {
      this.(group := group.(mask := Without(group.mask, m)))
    }

    // co_event_group_wait, for a context that co_fn_suspend moves to `line`
    function Wait(c: Ctx, line: nat, m: Mask, mode: Mode): Grouped {
      var s := rt.(point := rt.point[c := At(line)], current := None);
      if group.waitCtx.Some? then
        this.(rt := s, fault := true)
      else if group.Test(m, mode) then
        Grouped(Group(group.mask, None, m, mode), s.Push(Resume(c)), fault)
      else
        Grouped(Group(group.mask, Some(c), m, mode), s, fault)
    }
  }

  datatype Step = DoSet(m: Mask) | DoClear(m: Mask) | DoWaitGroup(c: Ctx, line: nat, m: Mask, mode: Mode)

  function Take(s: Grouped, a: Step): Grouped {
    match a
    case DoSet(m) => s.Set(m)
    case DoClear(m) => s.Clear(m)
    case DoWaitGroup(c, line, m, mode) => s.Wait(c, line, m, mode)
  }

  function TakeAll(s: Grouped, steps: seq<Step>): Grouped
    decreases |steps|
  {
    if steps == [] then s else TakeAll(Take(s, steps[0]), steps[1..])
  }

  // Who waits in a run, in order, and who is waiting now
  function Waiters(steps: seq<Step>): seq<Ctx> {
    if steps == [] then [] else (if steps[0].DoWaitGroup? then [steps[0].c] else []) + Waiters(steps[1..])
  }

  function Waiter(s: Grouped): seq<Ctx> {
    if s.group.waitCtx.Some? then [s.group.waitCtx.value] else []
  }

  // The group lets nobody sleep whose condition holds.
  predicate Watchful(s: Grouped) {
    s.group.waitCtx.Some? ==> !s.group.Test(s.group.waitMask, s.group.waitMode)
  }

  // A step resumes the waiter or leaves it; only a second waiter at a time is refused.
  lemma StepWakes(s: Grouped, a: Step)
    requires Watchful(s) && !s.fault
    ensures Watchful(Take(s, a))
    ensures Take(s, a).fault <==> a.DoWaitGroup? && s.group.waitCtx.Some?
    ensures !Take(s, a).fault ==>
      exists woken: seq<Ctx> :: Take(s, a).rt.ready == s.rt.ready + Resumes(woken)
        && woken + Waiter(Take(s, a)) == Waiter(s) + Waiters([a])
  {
    StepStaysWatchful(s, a);
    hide Union, Without, Group.Test, Watchful;
    var t := Take(s, a);
    WaitersOfOne(a);
    if !t.fault {
      var all := Waiter(s) + Waiters([a]);
      var woken := all[..|t.rt.ready| - |s.rt.ready|];
      assert t.rt.ready == s.rt.ready + Resumes(woken);
      assert woken + Waiter(t) == all;
    }
  }

  lemma WaitersOfOne(a: Step)
    ensures Waiters([a]) == if a.DoWaitGroup? then [a.c] else []
  {
    assert [a][1..] == [];
  }

  lemma TestSeesMask(g: Group, h: Group, m: Mask, mode: Mode)
    requires g.mask == h.mask
    ensures g.Test(m, mode) == h.Test(m, mode)
  {
  }

  lemma ClearedStaysFalse(g: Group, c: Mask, m: Mask, mode: Mode)
    requires !g.Test(m, mode)
    ensures !g.(mask := Without(g.mask, c)).Test(m, mode)
  {
    hide Both, Without;
    WithoutShrinks(g.mask, c, m);
  }

  lemma StepStaysWatchful(s: Grouped, a: Step)
    requires Watchful(s)
    ensures Watchful(Take(s, a))
  {
    hide Union, Without, Group.Test;
    match a {
      case DoSet(m) =>
      case DoClear(m) =>
        if s.group.waitCtx.Some? {
          ClearedStaysFalse(s.group, m, s.group.waitMask, s.group.waitMode);
        }
      case DoWaitGroup(_, _, m, mode) => TestSeesMask(s.group, Take(s, a).group, m, mode);
    }
  }

  // No lost wakeup and no double one: in any run that keeps to one waiter at a time, the contexts
  // that waited are resumed once each, in the order in which they waited, but for the last one if
  // its condition has not come true.
  lemma {:induction false} EveryWaiterIsResumedOnce(s: Grouped, steps: seq<Step>) returns (woken: seq<Ctx>)
    requires Watchful(s) && !s.fault && !TakeAll(s, steps).fault
    ensures Watchful(TakeAll(s, steps))
    ensures TakeAll(s, steps).rt.ready == s.rt.ready + Resumes(woken)
    ensures woken + Waiter(TakeAll(s, steps)) == Waiter(s) + Waiters(steps)
    decreases |steps|
  {
    hide Take, Waiter, Waiters, Watchful, Resumes;
    if steps == [] {
      woken := [];
      NothingWaits(s.rt.ready);
    } else {
      var t := Take(s, steps[0]);
      StepWakes(s, steps[0]);
      if t.fault {
        FaultStays(t, steps[1..]);
        assert false;
      }
      var first: seq<Ctx> :| t.rt.ready == s.rt.ready + Resumes(first)
        && first + Waiter(t) == Waiter(s) + Waiters([steps[0]]);
      var later := EveryWaiterIsResumedOnce(t, steps[1..]);
      woken := first + later;
      ResumesJoin(s.rt.ready, first, later);
      assert Waiters(steps) == Waiters([steps[0]]) + Waiters(steps[1..]) by { WaitersJoin(steps); }
      ChainWoken(first, later, Waiter(s), Waiter(t), Waiter(TakeAll(t, steps[1..])), Waiters([steps[0]]),
        Waiters(steps[1..]));
    }
  }

  lemma NothingWaits(ready: seq<Task>)
    ensures Waiters([]) == [] && ready + Resumes([]) == ready
  {
  }

  lemma ResumesJoin(ready: seq<Task>, a: seq<Ctx>, b: seq<Ctx>)
    ensures ready + Resumes(a) + Resumes(b) == ready + Resumes(a + b)
  {
    assert Resumes(a + b) == Resumes(a) + Resumes(b);
  }

  lemma WaitersJoin(steps: seq<Step>)
    requires steps != []
    ensures Waiters(steps) == Waiters([steps[0]]) + Waiters(steps[1..])
  {
    assert [steps[0]][1..] == [];
  }

  lemma ChainWoken(first: seq<Ctx>, later: seq<Ctx>, s: seq<Ctx>, t: seq<Ctx>, u: seq<Ctx>, a: seq<Ctx>, b: seq<Ctx>)
    requires first + t == s + a && later + u == t + b
    ensures first + later + u == s + (a + b)
  {
    assert first + later + u == first + (later + u);
    assert first + (t + b) == (first + t) + b;
    assert (s + a) + b == s + (a + b);
  }

  lemma {:induction false} FaultStays(s: Grouped, steps: seq<Step>)
    requires s.fault
    ensures TakeAll(s, steps).fault
    decreases |steps|
  {
    if steps != [] {
      FaultStays(Take(s, steps[0]), steps[1..]);
    }
  }

  // co_event_group_t, updated in place
  class CoEventGroup {
    var mask: Mask
    var waitCtx: Option<Ctx>
    var waitMask: Mask
    var waitMode: Mode
    var fault: bool
    const rt: Runtime

    ghost function Value(): Group
      reads this
    {
      Group(mask, waitCtx, waitMask, waitMode)
    }

    ghost function State(): Grouped
      reads this, rt
    {
      Grouped(Value(), rt.State(), fault)
    }

    constructor (rt: Runtime)
      ensures this.rt == rt && Value() == NEW && !fault
    {
      this.rt := rt;
      mask, waitCtx, waitMask, waitMode, fault := 0, None, 0, Any, false;
    }

    predicate Test(m: Mask, mode: Mode)
      reads this
      ensures Test(m, mode) == Value().Test(m, mode)
    {
      match mode
      case Any => Both(mask, m) != 0
      case All => Both(mask, m) == m
    }

    method Update()
      modifies this, rt
      ensures State() == old(State()).Update() && Watchful(State())
    {
      if waitCtx == None {
        return;
      }
      if Test(waitMask, waitMode) {
        rt.PiTaskPush(Resume(waitCtx.value));
        waitCtx := None;
      }
    }

    method Set(m: Mask)
      modifies this, rt
      ensures State() == old(State()).Set(m) && Watchful(State())
    {
      mask := Union(mask, m);
      Update();
    }

    method Get(m: Mask) returns (current: Mask)
      ensures current == Both(mask, m)
      ensures forall b: Mask :: IsBit(b) ==> Has(current, b) == (Has(mask, b) && Has(m, b))
    {
      current := Both(mask, m);
      forall b: Mask | IsBit(b) ensures Has(current, b) == (Has(mask, b) && Has(m, b)) {
        BothIsIntersection(mask, m, b);
      }
    }

    method Clear(m: Mask) returns (current: Mask)
      modifies this`mask
      ensures current == Both(old(mask), m) && State() == old(State()).Clear(m)
      ensures old(Watchful(State())) ==> Watchful(State())
    {
      hide Both, Except;
      WithoutShrinks(mask, m, waitMask);
      current := Both(mask, m);
      mask := Except(mask, current);
    }

    method Wait(c: Ctx, line: nat, m: Mask, mode: Mode)
      modifies this, rt
      ensures State() == old(State()).Wait(c, line, m, mode)
      ensures old(Watchful(State())) ==> Watchful(State())
      ensures fault <==> old(fault) || old(waitCtx).Some?
    {
      rt.CoFnSuspend(c, line);
      if waitCtx != None {
        fault := true;
        return;
      }
      waitCtx, waitMask, waitMode := Some(c), m, mode;
      if Test(m, mode) {
        waitCtx := None;
        rt.PiTaskPush(Resume(c));
      }
    }
  }
}
