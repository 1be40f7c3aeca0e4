// The stackless coroutine runtime of coroutine.h over a FIFO of run-to-completion tasks.
//
// Assumptions about the SDK scheduler, which is not part of this model: tasks run one at a time, in
// the order they were pushed; interrupts only push tasks; a task's done flag is set when the
// scheduler dispatches it, together with its callback; pi_task_callback clears it; one task may be
// queued several times.

module Coroutine {
  import opened Prelude

  type Ctx = nat
  type Event = nat

  // co_fn_resume_t: At(n) is the resume point stored by a suspension
  datatype Point = Start | Running | Done | At(line: nat)

  // A pi_task_t: the resume_task of a context, or the done_task of an event
  datatype Task = Resume(ctx: Ctx) | Fire(event: Event)

  // `current` is the context whose body is executing, `fault` a CO_ASSERTION_FAILURE that was reached.
  datatype Rt = Rt(
    ready: seq<Task>,
    isDone: set<Event>,
    waiting: map<Event, seq<Ctx>>,
    point: map<Ctx, Point>,
    doneTask: map<Ctx, Option<Event>>,
    current: Option<Ctx>,
    fault: bool)
  {
    // Contexts are zero-initialised, and zero is CO_RESUME_START.
    function P(c: Ctx): Point { if c in point then point[c] else Start }

    function W(e: Event): seq<Ctx> { if e in waiting then waiting[e] else [] }

    // pi_task_push
    function Push(t: Task): Rt { this.(ready := ready + [t]) }

    // co_fn_push_start
    function PushStart(c: Ctx, done: Option<Event>): Rt {
      if P(c).Start? || P(c).Done? then
        this.(point := point[c := Start], doneTask := doneTask[c := done]).Push(Resume(c))
      else
        this.(fault := true)
    }

    // co_event_init
    function EventInit(e: Event): Rt {
      this.(waiting := waiting[e := []], isDone := isDone - {e})
    }

    // co_event_wait, for a context that co_fn_suspend has moved to `line`
    function EventWait(e: Event, c: Ctx, line: nat): Rt {
      var s := this.(point := point[c := At(line)], current := None);
      if e in isDone then s.(waiting := waiting[e := []]).Push(Resume(c))
      else s.(waiting := waiting[e := W(e) + [c]])
    }

    // CO_YIELD
    function Yield(c: Ctx, line: nat): Rt {
      this.(point := point[c := At(line)], current := None).Push(Resume(c))
    }

    // CO_RETURN
    function Return(c: Ctx): Rt {
      var s := this.(point := point[c := Done], current := None);
      if c in doneTask && doneTask[c].Some? then s.Push(Fire(doneTask[c].value)) else s
    }

    // The scheduler takes the next task; a context enters its body, an event runs co_event_callback.
    function Dispatch(): Rt
      requires ready != []
    {
      var s := this.(ready := ready[1..]);
      match ready[0]
      case Fire(e) =>
        s.(isDone := isDone + {e}, waiting := waiting[e := []], ready := s.ready + Resumes(W(e)))
      case Resume(c) =>
        if P(c).Running? || P(c).Done? then s.(fault := true)
        else s.(point := point[c := Running], current := Some(c))
    }

    // A context that some task, some event or the processor will still bring to its end
    ghost predicate Live(c: Ctx) {
      Resume(c) in ready || Listed(this, c) || current == Some(c)
    }
  }

  function Resumes(cs: seq<Ctx>): seq<Task> {
    seq(|cs|, i requires 0 <= i < |cs| => Resume(cs[i]))
  }

  const BOOT := Rt([], {}, map[], map[], map[], None, false)

  // What any program may do next. Dispatching needs an idle processor; waiting, yielding and
  // returning are what ends a stretch of a running body; the rest may be done by bodies, by
  // callbacks and, for Push, by interrupts.
  datatype Action =
    | DoDispatch
    | DoWait(e: Event, line: nat)
    | DoYield(line: nat)
    | DoReturn
    | DoStart(c: Ctx, done: Option<Event>)
    | DoInit(e: Event)
    | DoPush(e: Event)

  // The discipline coroutine.h expects of its users: a context is started again only after it is over,
  // and an event re-armed only when nobody waits on it.
  ghost predicate Legal(s: Rt, a: Action) {
    match a
    case DoDispatch => s.current == None && s.ready != []
    case DoWait(_, _) => s.current.Some?
    case DoYield(_) => s.current.Some?
    case DoReturn => s.current.Some?
    case DoStart(c, _) => !s.Live(c)
    case DoInit(e) => s.W(e) == []
    case DoPush(_) => true
  }

  ghost function Apply(s: Rt, a: Action): Rt
    requires Legal(s, a)
  {
    match a
    case DoDispatch => s.Dispatch()
    case DoWait(e, line) => s.EventWait(e, s.current.value, line)
    case DoYield(line) => s.Yield(s.current.value, line)
    case DoReturn => s.Return(s.current.value)
    case DoStart(c, done) => s.PushStart(c, done)
    case DoInit(e) => s.EventInit(e)
    case DoPush(e) => s.Push(Fire(e))
  }

  // Exactly one of: queued once, on exactly one waiter list once, running, over or not started.
  ghost predicate ExactlyOnce(s: Rt) {
    QueuedOnce(s) && ListedOnce(s) && ListedOrQueued(s) && RunningIsCurrent(s)
  }

  ghost predicate QueuedOnce(s: Rt) {
    && (forall i, j :: 0 <= i < j < |s.ready| && s.ready[i].Resume? ==> s.ready[i] != s.ready[j])
    && (forall c: Ctx :: Resume(c) in s.ready ==> s.P(c).Start? || s.P(c).At?)
  }

  ghost predicate ListedOnce(s: Rt) {
    && (forall e: Event, i, j :: 0 <= i < j < |s.W(e)| ==> s.W(e)[i] != s.W(e)[j])
    && (forall e: Event, f: Event, c: Ctx :: c in s.W(e) && c in s.W(f) ==> e == f)
    && (forall e: Event, c: Ctx :: c in s.W(e) ==> s.P(c).At? && Resume(c) !in s.ready)
  }

  ghost predicate Listed(s: Rt, c: Ctx) {
    exists e: Event :: c in s.W(e)
  }

  ghost predicate ListedOrQueued(s: Rt) {
    forall c: Ctx :: s.P(c).At? ==> Resume(c) in s.ready || Listed(s, c)
  }

  ghost predicate RunningIsCurrent(s: Rt) {
    forall c: Ctx :: s.P(c).Running? <==> s.current == Some(c)
  }

  ghost predicate DoneMeansNoWaiters(s: Rt) {
    forall e: Event :: e in s.isDone ==> s.W(e) == []
  }

  ghost predicate Inv(s: Rt) {
    ExactlyOnce(s) && DoneMeansNoWaiters(s) && !s.fault
  }

  lemma PointOfLive(s: Rt, c: Ctx)
    requires ExactlyOnce(s)
    ensures s.Live(c) ==> !s.P(c).Done?
    ensures !s.Live(c) ==> s.P(c).Start? || s.P(c).Done?
  {
  }

  // Only one waiter list and the point of one context changed: what stays listed.
  lemma ListedFrame(s: Rt, t: Rt, e: Event)
    requires forall f: Event :: f != e ==> t.W(f) == s.W(f)
    ensures forall c: Ctx :: Listed(s, c) ==> Listed(t, c) || c in s.W(e)
    ensures forall c: Ctx :: Listed(t, c) ==> Listed(s, c) || c in t.W(e)
  {
    forall c: Ctx | Listed(s, c) ensures Listed(t, c) || c in s.W(e) {
      var f: Event :| c in s.W(f);
      assert f != e ==> c in t.W(f);
    }
    forall c: Ctx | Listed(t, c) ensures Listed(s, c) || c in t.W(e) {
      var f: Event :| c in t.W(f);
      assert f != e ==> c in s.W(f);
    }
  }

  lemma ResumesMembers(cs: seq<Ctx>)
    ensures forall c: Ctx :: Resume(c) in Resumes(cs) <==> c in cs
    ensures forall e: Event :: Fire(e) !in Resumes(cs)
  {
    forall c: Ctx | c in cs ensures Resume(c) in Resumes(cs) {
      var i :| 0 <= i < |cs| && cs[i] == c;
      assert Resumes(cs)[i] == Resume(c);
    }
  }

  // How often a task is queued
  ghost function Copies(tasks: seq<Task>, u: Task): nat {
    if tasks == [] then 0 else (if tasks[0] == u then 1 else 0) + Copies(tasks[1..], u)
  }

  lemma {:induction false} CopiesOfMember(tasks: seq<Task>, u: Task)
    ensures Copies(tasks, u) > 0 <==> u in tasks
    ensures (forall i, j :: 0 <= i < j < |tasks| && tasks[i] == u ==> tasks[i] != tasks[j]) ==> Copies(tasks, u) <= 1
  {
    if tasks != [] {
      CopiesOfMember(tasks[1..], u);
      assert tasks == [tasks[0]] + tasks[1..];
    }
  }

  lemma QueuedOneTime(s: Rt, c: Ctx)
    requires QueuedOnce(s)
    ensures Copies(s.ready, Resume(c)) == if Resume(c) in s.ready then 1 else 0
  {
    CopiesOfMember(s.ready, Resume(c));
  }

  // co_event_callback: every waiter, and nobody else, moves from the list to the queue, where it is
  // then exactly once.
  lemma FireKeepsInv(s: Rt, e: Event)
    requires Inv(s) && s.ready != [] && s.ready[0] == Fire(e)
    ensures var t := s.Dispatch();
            && Inv(t) && (forall f: Event :: t.W(f) == if f == e then [] else s.W(f))
            && (forall c: Ctx :: c in s.W(e) ==> Copies(s.ready, Resume(c)) == 0)
            && (forall c: Ctx ::
                  Copies(t.ready, Resume(c)) == Copies(s.ready, Resume(c)) + if c in s.W(e) then 1 else 0)
  {
    FiredIsSafe(s, e);
    var t := s.Dispatch();
    ResumesMembers(s.W(e));
    assert s.ready == [Fire(e)] + s.ready[1..];
    assert QueuedOnce(s) && QueuedOnce(t) && ListedOnce(s);
    hide Inv, Rt.W, Rt.P;
    forall c: Ctx
      ensures Copies(t.ready, Resume(c)) == Copies(s.ready, Resume(c)) + if c in s.W(e) then 1 else 0
      ensures c in s.W(e) ==> Copies(s.ready, Resume(c)) == 0
    {
      QueuedOneTime(s, c);
      QueuedOneTime(t, c);
    }
  }

  lemma FiredIsSafe(s: Rt, e: Event)
    requires Inv(s) && s.ready != [] && s.ready[0] == Fire(e)
    ensures Inv(s.Dispatch()) && forall f: Event :: s.Dispatch().W(f) == if f == e then [] else s.W(f)
  {
    var t := s.Dispatch();
    var rest := s.ready[1..];
    assert s.ready == [Fire(e)] + rest;
    assert t.W(e) == [];
    assert forall f: Event :: f != e ==> t.W(f) == s.W(f);
    assert forall c: Ctx :: t.P(c) == s.P(c);
    ListedFrame(s, t, e);
    ResumesMembers(s.W(e));
    assert forall u :: u in t.ready <==> u in rest || u in Resumes(s.W(e));
    assert forall c: Ctx :: Resume(c) in rest <==> Resume(c) in s.ready;
    forall i, j | 0 <= i < j < |t.ready| && t.ready[i].Resume? ensures t.ready[i] != t.ready[j] {
      if i < |rest| {
        if j < |rest| {
          assert t.ready[i] == s.ready[i + 1] && t.ready[j] == s.ready[j + 1];
        } else {
          assert t.ready[i] in rest && t.ready[j] in Resumes(s.W(e));
        }
      }
    }
  }

  lemma EnterShape(s: Rt, c: Ctx)
    requires Inv(s) && s.ready != [] && s.ready[0] == Resume(c) && s.current == None
    ensures var t := s.Dispatch();
            && (forall u :: u in t.ready <==> u in s.ready && u != Resume(c)) && t.ready == s.ready[1..]
            && t.isDone == s.isDone && t.current == Some(c) && !t.fault && (forall f: Event :: t.W(f) == s.W(f))
            && (forall d: Ctx :: t.P(d) == if d == c then Running else s.P(d)) && Resume(c) in s.ready
  {
    assert s.ready == [Resume(c)] + s.ready[1..];
    assert QueuedOnce(s);
    assert s.ready[0] in s.ready;
    assert Resume(c) !in s.ready[1..];
    hide Inv, Listed;
  }

  lemma EnterKeepsInv(s: Rt, c: Ctx)
    requires Inv(s) && s.ready != [] && s.ready[0] == Resume(c) && s.current == None
    ensures Inv(s.Dispatch())
    ensures s.Dispatch().current == Some(c)
  {
    hide Rt.W, Rt.P, Rt.Dispatch;
    var t := s.Dispatch();
    EnterShape(s, c);
    assert QueuedOnce(t) by { hide Listed, ListedOnce, ListedOrQueued, RunningIsCurrent; }
    assert ListedOnce(t) by { hide Listed, QueuedOnce, ListedOrQueued, RunningIsCurrent; }
    assert ListedOrQueued(t) by {
      hide QueuedOnce, ListedOnce, RunningIsCurrent;
      ListedFrame(s, t, 0);
    }
    assert RunningIsCurrent(t) by { hide Listed, QueuedOnce, ListedOnce, ListedOrQueued; }
    hide QueuedOnce, ListedOnce, ListedOrQueued, RunningIsCurrent;
  }

  // The running context suspends, ends or yields, possibly queueing one task.
  lemma LeaveKeepsInv(s: Rt, t: Rt, c: Ctx)
    requires Inv(s) && s.current == Some(c)
    requires t.current == None && !t.fault && t.isDone == s.isDone && forall f: Event :: t.W(f) == s.W(f)
    requires forall d: Ctx :: d != c ==> t.P(d) == s.P(d)
    requires || (t.P(c).At? && t.ready == s.ready + [Resume(c)])
             || (t.P(c).Done? && t.ready == s.ready)
             || (t.P(c).Done? && exists e: Event :: t.ready == s.ready + [Fire(e)])
    ensures Inv(t)
  {
    ListedFrame(s, t, 0);
    assert Resume(c) !in s.ready;
    assert forall u :: u in s.ready ==> u in t.ready;
    assert t.P(c).At? ==> t.ready[|s.ready|] == Resume(c);
  }

  // co_event_wait. A context that waits on a done event is queued at once, and clearing the list then
  // drops nobody; otherwise it joins that one list.
  lemma WaitKeepsInv(s: Rt, c: Ctx, e: Event, line: nat)
    requires Inv(s) && s.current == Some(c)
    ensures var t := s.EventWait(e, c, line);
            && Inv(t)
            && (e in s.isDone ==> Copies(t.ready, Resume(c)) == 1 && forall f: Event :: t.W(f) == s.W(f))
            && (e !in s.isDone ==> WaitsOnly(s, t, c, e))
  {
    WaitIsSafe(s, c, e, line);
    var t := s.EventWait(e, c, line);
    assert QueuedOnce(t);
    QueuedOneTime(t, c);
    assert e in s.isDone ==> s.W(e) == [] && t.ready[|s.ready|] == Resume(c);
    if e !in s.isDone {
      JoinKeepsInv(s, c, e, line);
    }
  }

  lemma WaitIsSafe(s: Rt, c: Ctx, e: Event, line: nat)
    requires Inv(s) && s.current == Some(c)
    ensures Inv(s.EventWait(e, c, line))
  {
    var t := s.EventWait(e, c, line);
    assert forall f: Event :: f != e ==> t.W(f) == s.W(f);
    if e in s.isDone {
      assert t.W(e) == s.W(e) == [];
      LeaveKeepsInv(s, t, c);
    } else {
      JoinIsSafe(s, c, e, line);
    }
  }

  // Context c has joined the list of e, behind the others, and is on no other list and not queued.
  ghost predicate WaitsOnly(s: Rt, t: Rt, c: Ctx, e: Event) {
    && (forall f: Event :: t.W(f) == if f == e then s.W(e) + [c] else s.W(f))
    && (forall f: Event :: f != e ==> c !in t.W(f))
    && c !in s.W(e) && Resume(c) !in t.ready
  }

  // The running context joins the list of an event that is not done.
  lemma JoinKeepsInv(s: Rt, c: Ctx, e: Event, line: nat)
    requires Inv(s) && s.current == Some(c) && e !in s.isDone
    ensures Inv(s.EventWait(e, c, line)) && WaitsOnly(s, s.EventWait(e, c, line), c, e)
  {
    JoinIsSafe(s, c, e, line);
    JoinShape(s, c, e, line);
    assert ListedOnce(s) && s.P(c).Running?;
    assert forall f: Event :: c !in s.W(f);
  }

  lemma JoinIsSafe(s: Rt, c: Ctx, e: Event, line: nat)
    requires Inv(s) && s.current == Some(c) && e !in s.isDone
    ensures Inv(s.EventWait(e, c, line))
  {
    hide ListedOnce, ListedOrQueued;
    var t := s.EventWait(e, c, line);
    JoinShape(s, c, e, line);
    JoinListedOnce(s, t, c, e);
    JoinListedOrQueued(s, t, c, e);
  }

  ghost predicate Joined(s: Rt, t: Rt, c: Ctx, e: Event, line: nat) {
    && t.ready == s.ready && t.isDone == s.isDone
    && (forall f: Event :: t.W(f) == if f == e then s.W(e) + [c] else s.W(f))
    && (forall d: Ctx :: t.P(d) == if d == c then At(line) else s.P(d))
  }

  lemma JoinShape(s: Rt, c: Ctx, e: Event, line: nat)
    requires e !in s.isDone
    ensures Joined(s, s.EventWait(e, c, line), c, e, line)
  {
  }

  lemma JoinListedOnce(s: Rt, t: Rt, c: Ctx, e: Event)
    requires ExactlyOnce(s) && s.current == Some(c) && t.P(c).At? && Joined(s, t, c, e, t.P(c).line)
    ensures ListedOnce(t)
  {
    assert s.P(c).Running?;
    assert forall f: Event :: c !in s.W(f);
  }

  lemma JoinListedOrQueued(s: Rt, t: Rt, c: Ctx, e: Event)
    requires ListedOrQueued(s) && t.P(c).At? && Joined(s, t, c, e, t.P(c).line)
    ensures ListedOrQueued(t)
  {
    ListedFrame(s, t, e);
    assert c in t.W(e);
    assert forall d: Ctx :: d in s.W(e) ==> d in t.W(e);
  }

  lemma StartShape(s: Rt, c: Ctx, done: Option<Event>)
    requires Inv(s) && !s.Live(c)
    ensures var t := s.PushStart(c, done);
            && t.ready == s.ready + [Resume(c)] && Resume(c) !in s.ready && t.isDone == s.isDone
            && t.current == s.current && !t.fault && (forall f: Event :: t.W(f) == s.W(f) && c !in s.W(f))
            && (forall d: Ctx :: t.P(d) == if d == c then Start else s.P(d)) && (s.P(c).Start? || s.P(c).Done?)
  {
    PointOfLive(s, c);
    assert forall f: Event :: c in s.W(f) ==> Listed(s, c);
  }

  lemma StartKeepsInv(s: Rt, c: Ctx, done: Option<Event>)
    requires Inv(s) && !s.Live(c)
    ensures Inv(s.PushStart(c, done))
  {
    hide Rt.W, Rt.P, Rt.PushStart, Rt.Live;
    var t := s.PushStart(c, done);
    StartShape(s, c, done);
    assert forall u :: u in t.ready <==> u in s.ready || u == Resume(c);
    assert QueuedOnce(t) by { hide Listed, ListedOnce, ListedOrQueued, RunningIsCurrent; }
    assert ListedOnce(t) by { hide Listed, QueuedOnce, ListedOrQueued, RunningIsCurrent; }
    assert ListedOrQueued(t) by {
      hide QueuedOnce, ListedOnce, RunningIsCurrent;
      ListedFrame(s, t, 0);
    }
    assert RunningIsCurrent(t) by { hide Listed, QueuedOnce, ListedOnce, ListedOrQueued; }
    hide QueuedOnce, ListedOnce, ListedOrQueued, RunningIsCurrent;
  }

  lemma InitKeepsInv(s: Rt, e: Event)
    requires Inv(s) && s.W(e) == []
    ensures Inv(s.EventInit(e))
  {
    assert forall f: Event :: s.EventInit(e).W(f) == s.W(f);
    ListedFrame(s, s.EventInit(e), e);
    assert forall d: Ctx :: s.EventInit(e).P(d) == s.P(d);
  }

  lemma PushKeepsInv(s: Rt, e: Event)
    requires Inv(s)
    ensures Inv(s.Push(Fire(e)))
  {
    var t := s.Push(Fire(e));
    assert forall f: Event :: t.W(f) == s.W(f);
    ListedFrame(s, t, e);
    assert forall d: Ctx :: t.P(d) == s.P(d);
    assert forall u :: u in s.ready ==> u in t.ready;
  }

  // What every action of every program keeps
  lemma StepKeepsInv(s: Rt, a: Action)
    requires Inv(s) && Legal(s, a)
    ensures Inv(Apply(s, a))
  {
    var t := Apply(s, a);
    match a {
      case DoDispatch =>
        match s.ready[0] {
          case Fire(e) => FireKeepsInv(s, e);
          case Resume(c) => EnterKeepsInv(s, c);
        }
      case DoWait(e, line) => WaitKeepsInv(s, s.current.value, e, line);
      case DoYield(line) => LeaveKeepsInv(s, t, s.current.value);
      case DoReturn => LeaveKeepsInv(s, t, s.current.value);
      case DoStart(c, done) => StartKeepsInv(s, c, done);
      case DoInit(e) => InitKeepsInv(s, e);
      case DoPush(e) => PushKeepsInv(s, e);
    }
  }

  ghost predicate LegalRun(s: Rt, actions: seq<Action>)
    decreases |actions|
  {
    actions == [] || (Legal(s, actions[0]) && LegalRun(Apply(s, actions[0]), actions[1..]))
  }

  ghost function RunAll(s: Rt, actions: seq<Action>): Rt
    requires LegalRun(s, actions)
    decreases |actions|
  {
    if actions == [] then s else RunAll(Apply(s, actions[0]), actions[1..])
  }

  // In every run of every disciplined program no context is resumed while running or after it is over,
  // none is queued twice or lost, and a done event has no waiters.
  lemma {:induction false} EveryRunIsSafe(s: Rt, actions: seq<Action>)
    requires Inv(s) && LegalRun(s, actions)
    ensures Inv(RunAll(s, actions))
    decreases |actions|
  {
    if actions != [] {
      StepKeepsInv(s, actions[0]);
      EveryRunIsSafe(Apply(s, actions[0]), actions[1..]);
    }
  }

  lemma BootIsSafe()
    ensures Inv(BOOT)
  {
  }

  // A context has one wakeup to come when it is queued or on a waiter list.
  ghost function Pending(s: Rt, c: Ctx): nat {
    if Resume(c) in s.ready || Listed(s, c) then 1 else 0
  }

  // Actions after which context c has a wakeup to come, and the one that spends it
  ghost predicate Suspends(s: Rt, a: Action, c: Ctx) {
    s.current == Some(c) && (a.DoWait? || a.DoYield?)
  }

  ghost predicate AddsWakeup(s: Rt, a: Action, c: Ctx) {
    Suspends(s, a, c) || (a.DoStart? && a.c == c)
  }

  ghost predicate SpendsWakeup(s: Rt, a: Action, c: Ctx) {
    a.DoDispatch? && s.ready != [] && s.ready[0] == Resume(c)
  }

  ghost function Starts(actions: seq<Action>, c: Ctx): nat {
    if actions == [] then 0
    else (if actions[0].DoStart? && actions[0].c == c then 1 else 0) + Starts(actions[1..], c)
  }

  ghost function Suspensions(s: Rt, actions: seq<Action>, c: Ctx): nat
    requires LegalRun(s, actions)
    decreases |actions|
  {
    if actions == [] then 0
    else (if Suspends(s, actions[0], c) then 1 else 0) + Suspensions(Apply(s, actions[0]), actions[1..], c)
  }

  ghost function Resumptions(s: Rt, actions: seq<Action>, c: Ctx): nat
    requires LegalRun(s, actions)
    decreases |actions|
  {
    if actions == [] then 0
    else (if SpendsWakeup(s, actions[0], c) then 1 else 0) + Resumptions(Apply(s, actions[0]), actions[1..], c)
  }

  lemma DispatchMovesPending(s: Rt, c: Ctx)
    requires Inv(s) && s.current == None && s.ready != []
    ensures Pending(s, c) == Pending(s.Dispatch(), c) + if s.ready[0] == Resume(c) then 1 else 0
  {
    var t := s.Dispatch();
    assert s.ready == [s.ready[0]] + s.ready[1..];
    match s.ready[0] {
      case Fire(e) =>
        FiredIsSafe(s, e);
        ResumesMembers(s.W(e));
        ListedFrame(s, t, e);
        assert c in s.W(e) ==> Listed(s, c);
      case Resume(d) =>
        EnterKeepsInv(s, d);
        assert s.ready[0] in s.ready;
        assert forall f: Event :: t.W(f) == s.W(f);
        ListedFrame(s, t, 0);
        assert ListedOnce(s) && QueuedOnce(s) && QueuedOnce(t);
    }
  }

  lemma SuspendAddsPending(s: Rt, a: Action, c: Ctx)
    requires Inv(s) && Legal(s, a) && (a.DoWait? || a.DoYield?)
    ensures Pending(s, c) + (if s.current == Some(c) then 1 else 0) == Pending(Apply(s, a), c)
  {
    var t, d := Apply(s, a), s.current.value;
    assert ListedOnce(s) && QueuedOnce(s) && RunningIsCurrent(s) && DoneMeansNoWaiters(s);
    assert Pending(s, d) == 0;
    match a {
      case DoWait(e, line) =>
        WaitKeepsInv(s, d, e, line);
        CopiesOfMember(t.ready, Resume(d));
        ListedFrame(s, t, e);
        assert e !in s.isDone ==> d in t.W(e);
        assert forall x: Ctx :: x in s.W(e) ==> x in t.W(e);
      case DoYield(line) =>
        assert t.ready[|s.ready|] == Resume(d);
        assert forall f: Event :: t.W(f) == s.W(f);
        ListedFrame(s, t, 0);
    }
  }

  lemma OthersKeepPending(s: Rt, a: Action, c: Ctx)
    requires Inv(s) && Legal(s, a) && (a.DoReturn? || a.DoStart? || a.DoInit? || a.DoPush?)
    ensures Pending(s, c) + (if a.DoStart? && a.c == c then 1 else 0) == Pending(Apply(s, a), c)
  {
    var t := Apply(s, a);
    assert forall f: Event :: t.W(f) == s.W(f);
    ListedFrame(s, t, 0);
    if a.DoStart? {
      PointOfLive(s, a.c);
      assert t.ready[|s.ready|] == Resume(a.c);
    }
  }

  lemma StepMovesPending(s: Rt, a: Action, c: Ctx)
    requires Inv(s) && Legal(s, a)
    ensures Pending(s, c) + (if AddsWakeup(s, a, c) then 1 else 0)
         == Pending(Apply(s, a), c) + if SpendsWakeup(s, a, c) then 1 else 0
  {
    hide Inv, Pending;
    match a {
      case DoDispatch => DispatchMovesPending(s, c);
      case DoWait(_, _) => SuspendAddsPending(s, a, c);
      case DoYield(_) => SuspendAddsPending(s, a, c);
      case _ => OthersKeepPending(s, a, c);
    }
  }

  // Over every run: each start and each suspension of a context is followed by exactly one resumption,
  // but for the last one, whose wakeup may still be to come.
  lemma {:induction false} EverySuspensionIsResumedOnce(s: Rt, actions: seq<Action>, c: Ctx)
    requires Inv(s) && LegalRun(s, actions)
    ensures Pending(s, c) + Starts(actions, c) + Suspensions(s, actions, c)
         == Resumptions(s, actions, c) + Pending(RunAll(s, actions), c)
    decreases |actions|
  {
    hide Inv, Pending, Legal, Apply, SpendsWakeup;
    if actions != [] {
      StepKeepsInv(s, actions[0]);
      StepMovesPending(s, actions[0], c);
      EverySuspensionIsResumedOnce(Apply(s, actions[0]), actions[1..], c);
    }
  }

  // Where context c is to go on after a run, if it was to go on at p before: where it suspended last, or
  // at its start if it was started since.
  ghost function Due(s: Rt, actions: seq<Action>, c: Ctx, p: Point): Point
    requires LegalRun(s, actions)
    decreases |actions|
  {
    if actions == [] then p else Due(Apply(s, actions[0]), actions[1..], c, NowDue(s, actions[0], c, p))
  }

  ghost function NowDue(s: Rt, a: Action, c: Ctx, p: Point): Point {
    if Suspends(s, a, c) then At(a.line) else if a.DoStart? && a.c == c then Start else p
  }

  lemma PointOfPending(s: Rt, c: Ctx)
    requires Inv(s)
    ensures Pending(s, c) > 0 ==> !s.P(c).Running? && s.current != Some(c)
    ensures s.current == Some(c) ==> Pending(s, c) == 0
  {
    assert QueuedOnce(s) && ListedOnce(s) && RunningIsCurrent(s);
  }

  lemma StepKeepsDue(s: Rt, a: Action, c: Ctx, p: Point)
    requires Inv(s) && Legal(s, a) && (Pending(s, c) > 0 ==> s.P(c) == p)
    ensures Pending(Apply(s, a), c) > 0 ==> Apply(s, a).P(c) == NowDue(s, a, c, p)
  {
    var t := Apply(s, a);
    StepKeepsInv(s, a);
    StepMovesPending(s, a, c);
    PointOfPending(s, c);
    PointOfPending(t, c);
    hide Inv, Pending, Listed;
    if a.DoStart? && a.c == c {
      StartsAtStart(s, a);
    }
  }

  lemma StartsAtStart(s: Rt, a: Action)
    requires Inv(s) && a.DoStart? && Legal(s, a)
    ensures Apply(s, a).P(a.c) == Start
  {
    PointOfLive(s, a.c);
  }

  // Every resumption goes on right behind the suspension before it: over every run, a context that is
  // dispatched has the resume point that its last suspension stored, and a start since then enters it at
  // its start. Nothing moves the point while its wakeup is to come.
  lemma {:induction false} ResumesWhereSuspended(s: Rt, actions: seq<Action>, c: Ctx, p: Point)
    requires Inv(s) && LegalRun(s, actions) && (Pending(s, c) > 0 ==> s.P(c) == p)
    ensures var t := RunAll(s, actions);
            && (Pending(t, c) > 0 ==> t.P(c) == Due(s, actions, c, p))
            && (t.ready != [] && t.ready[0] == Resume(c) ==> t.P(c) == Due(s, actions, c, p))
    decreases |actions|
  {
    hide Inv, Legal, Apply, NowDue;
    if actions == [] {
      if s.ready != [] && s.ready[0] == Resume(c) {
        assert s.ready[0] in s.ready;
      }
    } else {
      StepKeepsInv(s, actions[0]);
      StepKeepsDue(s, actions[0], c, p);
      ResumesWhereSuspended(Apply(s, actions[0]), actions[1..], c, NowDue(s, actions[0], c, p));
    }
  }

  // The discipline is exact. The guard in co_fn_push_start looks at the resume point only, so it
  // misses a context that is queued but has not run yet: its point is still Start.
  lemma StartIsSafeIffNotLive(s: Rt, c: Ctx, done: Option<Event>)
    requires Inv(s)
    ensures Inv(s.PushStart(c, done)) <==> !s.Live(c)
  {
    if !s.Live(c) {
      StartKeepsInv(s, c, done);
    } else if Resume(c) in s.ready && s.P(c).Start? {
      var t := s.PushStart(c, done);
      var i :| 0 <= i < |s.ready| && s.ready[i] == Resume(c);
      assert t.ready[i] == t.ready[|s.ready|] == Resume(c);
    } else {
      PointOfLive(s, c);
    }
  }

  // What the second start leads to, from the beginning: the body that the first task runs to its end is
  // entered once more and meets the assertion, or, if it waits for an event, it is resumed without it.
  lemma SecondStartMisfires(c: Ctx, first: Option<Event>, second: Option<Event>, e: Event, line: nat)
    ensures var s := BOOT.PushStart(c, first).PushStart(c, second);
            && s.ready == [Resume(c), Resume(c)] && !s.fault
            && var t := s.Dispatch();
            && t.current == Some(c) && t.Return(c).ready != [] && t.Return(c).Dispatch().fault
            && var u := t.EventWait(e, c, line);
            && u.ready != [] && u.W(e) == [c] && u.Dispatch().current == Some(c) && e !in u.Dispatch().isDone
  {
    var s := BOOT.PushStart(c, first).PushStart(c, second);
    assert s.ready == [Resume(c), Resume(c)];
    var t := s.Dispatch();
    assert t.ready == [Resume(c)];
    assert t.Return(c).ready[0] == Resume(c);
  }

  // Suspended, but neither queued nor on any list
  ghost predicate Lost(s: Rt, c: Ctx) {
    s.P(c).At? && !s.Live(c)
  }

  lemma LostMeans(s: Rt, c: Ctx)
    requires Lost(s, c)
    ensures s.P(c).At? && Resume(c) !in s.ready && s.current != Some(c) && forall e: Event :: c !in s.W(e)
  {
    assert !Listed(s, c);
  }

  lemma LostFrame(s: Rt, t: Rt, e: Event, c: Ctx)
    requires Lost(s, c) && t.P(c) == s.P(c) && t.current != Some(c) && Resume(c) !in t.ready
    requires c !in t.W(e) && forall f: Event :: f != e ==> t.W(f) == s.W(f)
    ensures Lost(t, c)
  {
    hide Rt.P, Rt.W;
    ListedFrame(s, t, e);
  }

  lemma LostOverDispatch(s: Rt, c: Ctx)
    requires s.current == None && s.ready != [] && Lost(s, c)
    ensures Lost(s.Dispatch(), c)
  {
    var t := s.Dispatch();
    LostMeans(s, c);
    hide Lost, Listed, Rt.Live;
    assert s.ready == [s.ready[0]] + s.ready[1..];
    match s.ready[0] {
      case Fire(e) =>
        ResumesMembers(s.W(e));
        LostFrame(s, t, e, c);
      case Resume(d) =>
        assert c !in s.W(0);
        LostFrame(s, t, 0, c);
    }
  }

  lemma LostStaysLost(s: Rt, a: Action, c: Ctx)
    requires Legal(s, a) && Lost(s, c)
    ensures Lost(Apply(s, a), c)
  {
    var t := Apply(s, a);
    LostMeans(s, c);
    hide Lost, Listed, Rt.Dispatch;
    var e := if a.DoWait? || a.DoInit? then a.e else 0;
    assert c !in s.W(e);
    if a.DoDispatch? {
      LostOverDispatch(s, c);
    } else {
      assert t.W(e) == s.W(e) || (a.DoWait? && t.W(e) == s.W(e) + [s.current.value]) || t.W(e) == [];
      LostFrame(s, t, e, c);
    }
  }

  lemma {:induction false} LostIsNeverQueued(s: Rt, actions: seq<Action>, c: Ctx)
    requires LegalRun(s, actions) && Lost(s, c)
    ensures !EverQueued(s, actions, c) && Lost(RunAll(s, actions), c)
    decreases |actions|
  {
    hide Legal, Apply;
    if actions != [] {
      LostStaysLost(s, actions[0], c);
      LostIsNeverQueued(Apply(s, actions[0]), actions[1..], c);
    }
  }

  // Re-arming an event with waiters drops them for good: whatever the program does later, even fire
  // the event, nobody queues them again.
  lemma DroppedWaiterNeverRuns(s: Rt, e: Event, c: Ctx, actions: seq<Action>)
    requires Inv(s) && c in s.W(e) && LegalRun(s.EventInit(e), actions)
    ensures !EverQueued(s.EventInit(e), actions, c) && Lost(RunAll(s.EventInit(e), actions), c)
  {
    var t := s.EventInit(e);
    assert ListedOnce(s);
    assert t.P(c) == s.P(c);
    forall f: Event ensures c !in t.W(f) {
      assert f != e ==> c !in s.W(f);
    }
    assert !Listed(t, c);
    assert RunningIsCurrent(s);
    LostIsNeverQueued(t, actions, c);
  }

  lemma InitIsSafeIffNoWaiters(s: Rt, e: Event)
    requires Inv(s)
    ensures Inv(s.EventInit(e)) <==> s.W(e) == []
  {
    var t := s.EventInit(e);
    if s.W(e) == [] {
      InitKeepsInv(s, e);
    } else {
      var c := s.W(e)[0];
      assert c in s.W(e);
      assert forall f: Event :: f != e ==> t.W(f) == s.W(f);
      ListedFrame(s, t, e);
      assert t.P(c) == s.P(c);
      forall f: Event ensures c !in t.W(f) {
        assert f != e ==> c !in s.W(f);
      }
    }
  }

  ghost function Dispatches(actions: seq<Action>): nat {
    if actions == [] then 0 else (if actions[0].DoDispatch? then 1 else 0) + Dispatches(actions[1..])
  }

  // Some state of the run, its first and last included, has context c queued, or executing.
  ghost predicate EverQueued(s: Rt, actions: seq<Action>, c: Ctx)
    requires LegalRun(s, actions)
    decreases |actions|
  {
    Resume(c) in s.ready || (actions != [] && EverQueued(Apply(s, actions[0]), actions[1..], c))
  }

  ghost predicate EverRuns(s: Rt, actions: seq<Action>, c: Ctx)
    requires LegalRun(s, actions)
    decreases |actions|
  {
    s.current == Some(c) || (actions != [] && EverRuns(Apply(s, actions[0]), actions[1..], c))
  }

  // Any action but a dispatch keeps a queued task where it is; a dispatch moves it up by one.
  lemma TaskMovesUp(s: Rt, a: Action, i: nat)
    requires Legal(s, a) && i < |s.ready|
    ensures var t := Apply(s, a);
            var j := if a.DoDispatch? then i - 1 else i;
            0 <= j ==> j < |t.ready| && t.ready[j] == s.ready[i]
  {
  }

  // A suspended context stays on its event's list until that event fires, and is queued by then.
  lemma WaiterStays(s: Rt, a: Action, c: Ctx, e: Event)
    requires Inv(s) && Legal(s, a) && c in s.W(e)
    ensures c in Apply(s, a).W(e) || Resume(c) in Apply(s, a).ready
    ensures a.DoDispatch? && s.ready[0] == Fire(e) ==> Resume(c) in Apply(s, a).ready
  {
    if a.DoDispatch? && s.ready[0] == Fire(e) {
      ResumesMembers(s.W(e));
    } else if a.DoWait? {
      assert e in s.isDone ==> s.W(e) == [];
    }
  }

  // No lost wakeup: the task at position i of the queue fires e, so a context waiting on e has been
  // queued by the time i + 1 tasks are dispatched, whatever else the program does meanwhile.
  lemma {:induction false} NoLostWakeup(s: Rt, actions: seq<Action>, c: Ctx, e: Event, i: nat)
    requires Inv(s) && LegalRun(s, actions)
    requires c in s.W(e) && i < |s.ready| && s.ready[i] == Fire(e)
    requires Dispatches(actions) > i
    ensures EverQueued(s, actions, c)
    decreases |actions|
  {
    var a := actions[0];
    var t := Apply(s, a);
    StepKeepsInv(s, a);
    TaskMovesUp(s, a, i);
    WaiterStays(s, a, c, e);
    if Resume(c) in t.ready {
      assert EverQueued(t, actions[1..], c);
    } else {
      NoLostWakeup(t, actions[1..], c, e, if a.DoDispatch? then i - 1 else i);
    }
  }

  // And a queued context gets the processor in its turn.
  lemma {:induction false} QueuedRuns(s: Rt, actions: seq<Action>, c: Ctx, i: nat)
    requires Inv(s) && LegalRun(s, actions)
    requires i < |s.ready| && s.ready[i] == Resume(c)
    requires Dispatches(actions) > i
    ensures EverRuns(s, actions, c)
    decreases |actions|
  {
    var a := actions[0];
    var t := Apply(s, a);
    StepKeepsInv(s, a);
    TaskMovesUp(s, a, i);
    if a.DoDispatch? && i == 0 {
      EnterKeepsInv(s, c);
      assert EverRuns(t, actions[1..], c);
    } else {
      QueuedRuns(t, actions[1..], c, if a.DoDispatch? then i - 1 else i);
    }
  }

  // The runtime as coroutine.h keeps it: fields updated in place. Waiter lists are the contents of
  // the lists of module IntrusiveList.
  class Runtime {
    var ready: seq<Task>
    var isDone: set<Event>
    var waiting: map<Event, seq<Ctx>>
    var point: map<Ctx, Point>
    var doneTask: map<Ctx, Option<Event>>
    var current: Option<Ctx>
    var fault: bool

    ghost function State(): Rt
      reads this
    {
      Rt(ready, isDone, waiting, point, doneTask, current, fault)
    }

    constructor ()
      ensures State() == BOOT
    {
      ready, isDone, waiting, point, doneTask := [], {}, map[], map[], map[];
      current, fault := None, false;
    }

    method PiTaskPush(t: Task)
      modifies this
      ensures State() == old(State()).Push(t)
    {
      ready := ready + [t];
    }

    method CoFnPushStart(c: Ctx, done: Option<Event>)
      modifies this
      ensures State() == old(State()).PushStart(c, done)
    {
      var p := if c in point then point[c] else Start;
      if p != Start && p != Done {
        fault := true;
        return;
      }
      point := point[c := Start];
      doneTask := doneTask[c := done];
      PiTaskPush(Resume(c));
    }

    // co_fn_suspend, which ends the stretch of the body that executes
    method CoFnSuspend(c: Ctx, line: nat)
      modifies this`point, this`current
      ensures State() == old(State()).(point := old(State()).point[c := At(line)], current := None)
    {
      point := point[c := At(line)];
      current := None;
    }

    method CoEventInit(e: Event)
      modifies this
      ensures State() == old(State()).EventInit(e)
    {
      waiting := waiting[e := []];
      isDone := isDone - {e};
    }

    method CoEventWait(e: Event, c: Ctx, line: nat)
      modifies this
      ensures State() == old(State()).EventWait(e, c, line)
    {
      CoFnSuspend(c, line);
      waiting := waiting[e := (if e in waiting then waiting[e] else []) + [c]];
      if e in isDone {
        waiting := waiting[e := []];
        PiTaskPush(Resume(c));
      }
    }

    method CoYield(c: Ctx, line: nat)
      modifies this
      ensures State() == old(State()).Yield(c, line)
    {
      CoFnSuspend(c, line);
      PiTaskPush(Resume(c));
    }

    // co_event_callback drains the list one waiter at a time.
    method CoEventCallback(e: Event)
      modifies this
      ensures var s := old(State());
              State() == s.(waiting := s.waiting[e := []], ready := s.ready + Resumes(s.W(e)))
    {
      ghost var s := State();
      var list := if e in waiting then waiting[e] else [];
      waiting := waiting[e := list];
      ghost var k := 0;
      while list != []
        invariant 0 <= k <= |s.W(e)| && list == s.W(e)[k..]
        invariant State() == s.(waiting := s.waiting[e := list], ready := s.ready + Resumes(s.W(e)[..k]))
        decreases |list|
      {
        var c := list[0];
        list := list[1..];
        waiting := waiting[e := list];
        PiTaskPush(Resume(c));
        assert Resumes(s.W(e)[..k]) + [Resume(c)] == Resumes(s.W(e)[..k + 1]);
        k := k + 1;
      }
      assert s.W(e)[..k] == s.W(e);
    }

    method CoReturn(c: Ctx)
      modifies this
      ensures State() == old(State()).Return(c)
    {
      point := point[c := Done];
      current := None;
      if c in doneTask && doneTask[c].Some? {
        PiTaskPush(Fire(doneTask[c].value));
      }
    }

    // One turn of the scheduler: what a task runs before control reaches a coroutine body
    method TakeTask()
      requires ready != []
      modifies this
      ensures State() == old(State()).Dispatch()
    {
      var t := ready[0];
      ready := ready[1..];
      match t {
        case Fire(e) =>
          isDone := isDone + {e};
          CoEventCallback(e);
        case Resume(c) =>
          var p := if c in point then point[c] else Start;
          if p == Running || p == Done {
            fault := true;
          } else {
            point := point[c := Running];
            current := Some(c);
          }
      }
    }
  }
}
