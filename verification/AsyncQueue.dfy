// queue_async_t: the single-producer single-consumer layer of queue.c over the coroutine runtime.
//
// The two sides are mirror images. Each owns an event (queue_free, queue_ready), a coroutine that
// waits on it (queue_async_push_task, queue_async_pop_task), and a stock it takes from (free slots,
// ready elements). One invariant is proved for such a side and used for both.

module AsyncQueue {
  import opened Prelude
  import opened Coroutine
  import Queue

  // The caller of a side issues a request with a done task, here an event of its own.
  datatype Side = Side(ctx: Ctx, event: Event, done: Event)

  const PUSH := Side(0, 0, 2)
  const POP := Side(1, 1, 3)

  ghost predicate IsSide(d: Side) { d == PUSH || d == POP }

  // The remaining contexts and events belong to the rest of the program.
  const OTHER_CTX: nat := 2

  // The line of the only suspension point of each coroutine; its value plays no role.
  const WAIT_LINE := 1

  // What a side sees of the scheduler's queue: firings of its event before and after the one task
  // that matters, its coroutine (Run) or its caller's done task (Tell). Tangled: several such tasks.
  datatype Mark = Run | Tell

  datatype Line = Line(before: nat, mark: Option<Mark>, after: nat) | Tangled {

    function AddWake(): Line {
      if Tangled? then this else if mark == None then this.(before := before + 1) else this.(after := after + 1)
    }

    function AddMark(m: Mark): Line {
      if Tangled? || mark.Some? then Tangled else this.(mark := Some(m))
    }

    // The line behind a new first task
    function LedByWake(): Line { if Tangled? then this else this.(before := before + 1) }

    function LedByMark(m: Mark): Line {
      if Tangled? || mark.Some? then Tangled else Line(0, Some(m), before)
    }
  }

  function Add(d: Side, l: Line, t: Task): Line {
    if t == Fire(d.event) then l.AddWake()
    else if t == Resume(d.ctx) then l.AddMark(Run)
    else if t == Fire(d.done) then l.AddMark(Tell)
    else l
  }

  function Led(d: Side, l: Line, t: Task): Line {
    if t == Fire(d.event) then l.LedByWake()
    else if t == Resume(d.ctx) then l.LedByMark(Run)
    else if t == Fire(d.done) then l.LedByMark(Tell)
    else l
  }

  ghost function LineOf(d: Side, tasks: seq<Task>): (l: Line)
    ensures l.Line? && l.mark == None ==> l.after == 0
  {
    if tasks == [] then Line(0, None, 0) else Add(d, LineOf(d, tasks[..|tasks| - 1]), tasks[|tasks| - 1])
  }

  lemma LineOfAppend(d: Side, tasks: seq<Task>, t: Task)
    ensures LineOf(d, tasks + [t]) == Add(d, LineOf(d, tasks), t)
  {
    assert (tasks + [t])[..|tasks|] == tasks;
  }

  lemma {:induction false} LineOfHead(d: Side, tasks: seq<Task>)
    requires tasks != []
    ensures LineOf(d, tasks) == Led(d, LineOf(d, tasks[1..]), tasks[0])
    decreases |tasks|
  {
    hide LineOf;
    var n := |tasks| - 1;
    assert tasks == tasks[..n] + [tasks[n]];
    LineOfAppend(d, tasks[..n], tasks[n]);
    if n == 0 {
      assert tasks[..n] == [] && tasks[1..] == [];
      LineOfNothing(d);
    } else {
      LineOfHead(d, tasks[..n]);
      var rest := tasks[1..n];
      assert tasks[..n][1..] == rest && tasks[1..] == rest + [tasks[n]];
      LineOfAppend(d, rest, tasks[n]);
    }
  }

  lemma LineOfNothing(d: Side)
    ensures LineOf(d, []) == Line(0, None, 0)
  {
  }

  // Waiters that are not the side's own coroutine are queued without the side seeing them.
  lemma {:induction false} LineOfResumes(d: Side, tasks: seq<Task>, cs: seq<Ctx>)
    requires d.ctx !in cs
    ensures LineOf(d, tasks + Resumes(cs)) == LineOf(d, tasks)
    decreases |cs|
  {
    hide LineOf;
    if cs == [] {
      assert tasks + Resumes(cs) == tasks;
    } else {
      var n := |cs| - 1;
      LineOfResumes(d, tasks, cs[..n]);
      assert tasks + Resumes(cs) == tasks + Resumes(cs[..n]) + [Resume(cs[n])];
      LineOfAppend(d, tasks + Resumes(cs[..n]), Resume(cs[n]));
    }
  }

  // The runtime as one side sees it
  datatype Local = Local(line: Line, point: Point, waiting: seq<Ctx>, fired: bool, done: Option<Event>)

  ghost function View(d: Side, s: Rt): Local {
    Local(LineOf(d, s.ready), s.P(d.ctx), s.W(d.event), d.event in s.isDone,
          if d.ctx in s.doneTask then s.doneTask[d.ctx] else None)
  }

  // The life of a request on side d when `stock` items are available and `asked` says that the
  // place for a result (push_el, pop_el) is set.

  predicate Resting(v: Local) {
    (v.point.Start? || v.point.Done?) && v.waiting == []
  }

  predicate Idle(v: Local, stock: nat, asked: bool) {
    !asked && Resting(v) && v.line.Line? && v.line.mark == None && (v.line.before > 0 ==> stock > 0)
  }

  // Served at once, or by the coroutine: the caller's done task is queued, and with nothing left in
  // stock every stale wakeup fires before it.
  predicate Granted(v: Local, stock: nat, asked: bool) {
    !asked && Resting(v) && v.line.Line? && v.line.mark == Some(Tell) && (stock == 0 ==> v.line.after == 0)
  }

  predicate Waiting(d: Side, v: Local, asked: bool) {
    asked && v.done == Some(d.done) && v.line.Line?
  }

  predicate Starting(d: Side, v: Local, stock: nat, asked: bool) {
    && Waiting(d, v, asked) && v.point.Start? && v.waiting == [] && !v.fired
    && v.line.mark == Some(Run) && v.line.before == 0 && (v.line.after > 0 <==> stock > 0)
  }

  predicate Suspended(d: Side, v: Local, stock: nat, asked: bool) {
    && Waiting(d, v, asked) && v.point.At? && v.waiting == [d.ctx] && !v.fired
    && v.line.mark == None && (v.line.before > 0 <==> stock > 0)
  }

  predicate Woken(d: Side, v: Local, stock: nat, asked: bool) {
    && Waiting(d, v, asked) && v.point.At? && v.waiting == []
    && v.line.mark == Some(Run) && stock > 0
  }

  predicate Sound(d: Side, v: Local, stock: nat, asked: bool) {
    || Idle(v, stock, asked) || Granted(v, stock, asked) || Starting(d, v, stock, asked)
    || Suspended(d, v, stock, asked) || Woken(d, v, stock, asked)
  }

  // The caller's previous request is over: its done task has been dispatched.
  predicate Free(v: Local, asked: bool) {
    !asked && v.line.Line? && v.line.mark != Some(Tell)
  }

  // How the operations of the runtime look from a side

  lemma ViewPush(d: Side, s: Rt, t: Task)
    ensures View(d, s.Push(t)) == View(d, s).(line := Add(d, View(d, s).line, t))
  {
    hide LineOf;
    LineOfAppend(d, s.ready, t);
  }

  // co_event_init and co_fn_push_start of side o
  function Asked(d: Side, v: Local): Local {
    Local(v.line.AddMark(Run), Start, [], false, Some(d.done))
  }

  lemma ViewStart(d: Side, o: Side, s: Rt)
    requires IsSide(d) && IsSide(o) && Resting(View(o, s))
    ensures var t := s.EventInit(o.event).PushStart(o.ctx, Some(o.done));
            View(d, t) == (if d == o then Asked(d, View(d, s)) else View(d, s)) && t.fault == s.fault
  {
    hide LineOf;
    LineOfAppend(d, s.ready, Resume(o.ctx));
  }

  // The side's own event fires,
  function Fired(v: Local, rest: Line): Local {
    v.(line := if v.waiting == [] then rest else rest.AddMark(Run), waiting := [], fired := true)
  }

  lemma ViewFire(d: Side, s: Rt)
    requires s.ready != [] && s.ready[0] == Fire(d.event) && (s.W(d.event) == [] || s.W(d.event) == [d.ctx])
    ensures View(d, s).line == LineOf(d, s.ready[1..]).LedByWake()
    ensures View(d, s.Dispatch()) == Fired(View(d, s), LineOf(d, s.ready[1..]))
  {
    hide LineOf;
    var rest := s.ready[1..];
    LineOfHead(d, s.ready);
    if s.W(d.event) == [] {
      assert s.Dispatch().ready == rest;
    } else {
      assert s.Dispatch().ready == rest + [Resume(d.ctx)];
      LineOfAppend(d, rest, Resume(d.ctx));
    }
  }

  // or another one, on which its coroutine does not wait.
  lemma ViewFireOther(d: Side, s: Rt, e: Event)
    requires s.ready != [] && s.ready[0] == Fire(e) && e != d.event && d.ctx !in s.W(e)
    ensures View(d, s).line == Led(d, LineOf(d, s.ready[1..]), Fire(e))
    ensures View(d, s.Dispatch()) == View(d, s).(line := LineOf(d, s.ready[1..]))
  {
    hide LineOf;
    LineOfHead(d, s.ready);
    LineOfResumes(d, s.ready[1..], s.W(e));
    assert s.Dispatch().W(d.event) == s.W(d.event);
  }

  // A turn of the side's coroutine that ends in its suspension, or in its return
  lemma ViewSuspend(d: Side, s: Rt)
    requires s.ready != [] && s.ready[0] == Resume(d.ctx)
    requires s.P(d.ctx).Start? && d.event !in s.isDone && s.W(d.event) == []
    ensures var t := s.Dispatch().EventWait(d.event, d.ctx, WAIT_LINE);
            View(d, t) == View(d, s).(line := LineOf(d, s.ready[1..]), point := At(WAIT_LINE), waiting := [d.ctx])
  {
    hide LineOf;
    var t := s.Dispatch().EventWait(d.event, d.ctx, WAIT_LINE);
    assert t.ready == s.ready[1..];
    assert t.W(d.event) == [d.ctx];
  }

  lemma ViewReturn(d: Side, s: Rt)
    requires s.ready != [] && s.ready[0] == Resume(d.ctx) && d.event != d.done
    requires s.P(d.ctx).At? && d.ctx in s.doneTask && s.doneTask[d.ctx] == Some(d.done)
    ensures var t := s.Dispatch().Return(d.ctx);
            View(d, t) == View(d, s).(line := LineOf(d, s.ready[1..]).AddMark(Tell), point := Done)
  {
    hide LineOf;
    var t := s.Dispatch().Return(d.ctx);
    assert t.ready == s.ready[1..] + [Fire(d.done)];
    LineOfAppend(d, s.ready[1..], Fire(d.done));
  }

  predicate Owns(d: Side, t: Task) { t == Fire(d.event) || t == Resume(d.ctx) || t == Fire(d.done) }

  // Tasks of others leave and join the queue without the side seeing them.
  lemma LineOfOthers(d: Side, tasks: seq<Task>)
    requires tasks != [] && !Owns(d, tasks[0])
    ensures LineOf(d, tasks[1..]) == LineOf(d, tasks)
    ensures forall u :: !Owns(d, u) ==> LineOf(d, tasks[1..] + [u]) == LineOf(d, tasks)
  {
    hide LineOf;
    LineOfHead(d, tasks);
    forall u | !Owns(d, u) ensures LineOf(d, tasks[1..] + [u]) == LineOf(d, tasks) {
      LineOfAppend(d, tasks[1..], u);
    }
  }

  ghost predicate Apart(d: Side, o: Side) {
    d.ctx != o.ctx && d.event != o.event && !Owns(d, Fire(o.event)) && !Owns(d, Fire(o.done))
  }

  // What the coroutine of the other side does is not seen either.
  lemma SuspendUnseen(d: Side, o: Side, s: Rt)
    requires Apart(d, o) && s.ready != [] && s.ready[0] == Resume(o.ctx)
    requires s.P(o.ctx).Start? && o.event !in s.isDone
    ensures View(d, s.Dispatch().EventWait(o.event, o.ctx, WAIT_LINE)) == View(d, s)
  {
    hide LineOf;
    var t := s.Dispatch().EventWait(o.event, o.ctx, WAIT_LINE);
    LineOfOthers(d, s.ready);
    assert t.ready == s.ready[1..];
    assert t.W(d.event) == s.W(d.event);
  }

  lemma ReturnUnseen(d: Side, o: Side, s: Rt)
    requires Apart(d, o) && s.ready != [] && s.ready[0] == Resume(o.ctx)
    requires s.P(o.ctx).At? && o.ctx in s.doneTask && s.doneTask[o.ctx] == Some(o.done)
    ensures View(d, s.Dispatch().Return(o.ctx)) == View(d, s)
  {
    hide LineOf;
    var t := s.Dispatch().Return(o.ctx);
    LineOfOthers(d, s.ready);
    assert t.ready == s.ready[1..] + [Fire(o.done)];
    assert t.W(d.event) == s.W(d.event);
  }

  // queue_async_t with the scheduler: how many slots are in each segment, and whether each side
  // has a place for a result. `fault` is a QUEUE_ASSERTION_FAILURE that was reached.
  datatype Sys = Sys(rt: Rt, capacity: nat, acquired: nat, ready: nat, consumed: nat,
                     pushEl: bool, popEl: bool, fault: bool)
  {
    function Slots(): nat {
      if acquired + ready + consumed <= capacity then capacity - acquired - ready - consumed else 0
    }

    // queue_async_push_acquire; `wait` says that a done task was given.
    function PushAcquire(wait: bool): Sys {
      if Slots() > 0 then
        var s := this.(acquired := acquired + 1);
        if wait then s.(rt := rt.Push(Fire(PUSH.done))) else s
      else if !wait then this
      else if pushEl then this.(fault := true)
      else this.(pushEl := true, rt := rt.EventInit(PUSH.event).PushStart(PUSH.ctx, Some(PUSH.done)))
    }

    function PushCommit(): Sys
      requires acquired > 0
    {
      this.(acquired := acquired - 1, ready := ready + 1, rt := rt.Push(Fire(POP.event)))
    }

    function PushDiscard(): Sys
      requires acquired > 0
    {
      this.(acquired := acquired - 1)
    }

    function PopConsume(wait: bool): Sys {
      if ready > 0 then
        var s := this.(ready := ready - 1, consumed := consumed + 1);
        if wait then s.(rt := rt.Push(Fire(POP.done))) else s
      else if !wait then this
      else if popEl then this.(fault := true)
      else this.(popEl := true, rt := rt.EventInit(POP.event).PushStart(POP.ctx, Some(POP.done)))
    }

    function PopRelease(): Sys
      requires consumed > 0
    {
      this.(consumed := consumed - 1, rt := rt.Push(Fire(PUSH.event)))
    }

    // One turn of queue_async_push_task, entered by Dispatch
    function PushTask(entered: Rt): Sys {
      if rt.P(PUSH.ctx).Start? then this.(rt := entered.EventWait(PUSH.event, PUSH.ctx, WAIT_LINE))
      else if Slots() == 0 then this.(fault := true, rt := entered)
      else this.(acquired := acquired + 1, pushEl := false, rt := entered.Return(PUSH.ctx))
    }

    function PopTask(entered: Rt): Sys {
      if rt.P(POP.ctx).Start? then this.(rt := entered.EventWait(POP.event, POP.ctx, WAIT_LINE))
      else if ready == 0 then this.(fault := true, rt := entered)
      else this.(ready := ready - 1, consumed := consumed + 1, popEl := false, rt := entered.Return(POP.ctx))
    }

    // The scheduler takes one task. What the coroutines of others do is left to their own actions.
    function Turn(): Sys
      requires rt.ready != []
    {
      match rt.ready[0]
      case Fire(e) => this.(rt := rt.Dispatch())
      case Resume(c) =>
        if c != PUSH.ctx && c != POP.ctx then this.(rt := rt.(ready := rt.ready[1..]))
        else if rt.Dispatch().fault then this.(fault := true)
        else if c == PUSH.ctx then PushTask(rt.Dispatch())
        else PopTask(rt.Dispatch())
    }
  }

  ghost predicate OthersWait(s: Rt) {
    forall e: Event, c: Ctx :: e != PUSH.event && e != POP.event && c in s.W(e) ==> c >= OTHER_CTX
  }

  // The rest of the program pushes its own tasks, and re-arms and waits on its own events, among
  // which are the two done events.
  ghost predicate OthersAct(s: Rt, t: Rt) {
    s.fault == t.fault && View(PUSH, s) == View(PUSH, t) && View(POP, s) == View(POP, t) && OthersWait(t)
  }

  datatype Action =
    | AskPush | Commit | Discard
    | AskPop | Release
    | TakeTask
    | Others(rt: Rt)

  // A disciplined producer asks again only after its done task was dispatched, and does not discard
  // while it waits for the queue to free up; likewise the consumer.
  ghost predicate Legal(s: Sys, a: Action) {
    match a
    case AskPush => Free(View(PUSH, s.rt), s.pushEl)
    case Commit => s.acquired > 0
    case Discard => s.acquired > 0 && (!s.pushEl || s.Slots() > 0)
    case AskPop => Free(View(POP, s.rt), s.popEl)
    case Release => s.consumed > 0
    case TakeTask => s.rt.ready != []
    case Others(t) => OthersAct(s.rt, t)
  }

  ghost function Apply(s: Sys, a: Action): Sys
    requires Legal(s, a)
  {
    match a
    case AskPush => s.PushAcquire(true)
    case Commit => s.PushCommit()
    case Discard => s.PushDiscard()
    case AskPop => s.PopConsume(true)
    case Release => s.PopRelease()
    case TakeTask => s.Turn()
    case Others(t) => s.(rt := t)
  }

  ghost predicate Inv(s: Sys) {
    && s.acquired + s.ready + s.consumed <= s.capacity
    && Sound(PUSH, View(PUSH, s.rt), s.Slots(), s.pushEl)
    && Sound(POP, View(POP, s.rt), s.ready, s.popEl)
    && OthersWait(s.rt)
    && !s.fault && !s.rt.fault
  }

  // 1 while a side's request is outstanding: accepted, its done task not yet dispatched
  ghost function Busy(s: Sys, d: Side): nat {
    if Free(View(d, s.rt), if d == PUSH then s.pushEl else s.popEl) then 0 else 1
  }

  // queue_async_init: an empty queue, with queue_free pushed.
  ghost predicate Initial(s: Sys) {
    && s.capacity > 0 && s.acquired == s.ready == s.consumed == 0 && !s.pushEl && !s.popEl && !s.fault
    && s.rt.ready == [Fire(PUSH.event)] && !s.rt.fault
    && (forall e: Event :: s.rt.W(e) == []) && s.rt.P(PUSH.ctx).Start? && s.rt.P(POP.ctx).Start?
  }

  lemma InitialIsSafe(s: Sys)
    requires Initial(s)
    ensures Inv(s) && Busy(s, PUSH) == Busy(s, POP) == 0
    ensures View(PUSH, s.rt).line == Line(1, None, 0)
  {
    LineOfAppend(PUSH, [], Fire(PUSH.event));
    LineOfAppend(POP, [], Fire(PUSH.event));
    assert [] + s.rt.ready == s.rt.ready;
  }

  lemma FireKeepsSound(d: Side, s: Rt, stock: nat, asked: bool)
    requires Sound(d, View(d, s), stock, asked) && s.ready != [] && s.ready[0].Fire? && d.event != d.done
    requires s.ready[0].event == d.event || d.ctx !in s.W(s.ready[0].event)
    ensures Sound(d, View(d, s.Dispatch()), stock, asked)
    ensures Free(View(d, s.Dispatch()), asked) <==> Free(View(d, s), asked) || s.ready[0] == Fire(d.done)
    ensures s.ready[0] == Fire(d.done) ==> !Free(View(d, s), asked)
  {
    hide LineOf;
    if s.ready[0] == Fire(d.event) { ViewFire(d, s); } else { ViewFireOther(d, s, s.ready[0].event); }
  }

  lemma FireKeepsInv(s: Sys)
    requires Inv(s) && s.rt.ready != [] && s.rt.ready[0].Fire?
    ensures Inv(s.Turn())
  {
    hide LineOf;
    FireKeepsSound(PUSH, s.rt, s.Slots(), s.pushEl);
    FireKeepsSound(POP, s.rt, s.ready, s.popEl);
    assert forall f: Event :: f != s.rt.ready[0].event ==> s.Turn().rt.W(f) == s.rt.W(f);
  }

  // In its first turn the coroutine suspends: its event cannot have fired since it was re-armed. In
  // its second there is an item to take.
  lemma CoroutineTurn(d: Side, s: Rt, stock: nat, asked: bool)
    requires Sound(d, View(d, s), stock, asked) && s.ready != [] && s.ready[0] == Resume(d.ctx) && d.event != d.done
    ensures if s.P(d.ctx).Start? then
              d.event !in s.isDone && Sound(d, View(d, s.Dispatch().EventWait(d.event, d.ctx, WAIT_LINE)), stock, asked)
            else
              && stock > 0 && s.P(d.ctx).At? && d.ctx in s.doneTask && s.doneTask[d.ctx] == Some(d.done)
              && Sound(d, View(d, s.Dispatch().Return(d.ctx)), stock - 1, false)
              && !Free(View(d, s.Dispatch().Return(d.ctx)), false)
    ensures asked
  {
    hide LineOf;
    LineOfHead(d, s.ready);
    if s.P(d.ctx).Start? {
      ViewSuspend(d, s);
    } else {
      ViewReturn(d, s);
    }
  }

  lemma PushTaskKeepsInv(s: Sys)
    requires Inv(s) && s.rt.ready != [] && s.rt.ready[0] == Resume(PUSH.ctx)
    ensures Inv(s.Turn()) && Busy(s, PUSH) == Busy(s.Turn(), PUSH) && Busy(s, POP) == Busy(s.Turn(), POP)
  {
    hide LineOf;
    CoroutineTurn(PUSH, s.rt, s.Slots(), s.pushEl);
    if s.rt.P(PUSH.ctx).Start? { SuspendUnseen(POP, PUSH, s.rt); } else { ReturnUnseen(POP, PUSH, s.rt); }
    OthersWaitAfterTurn(PUSH, s.rt);
  }

  lemma PopTaskKeepsInv(s: Sys)
    requires Inv(s) && s.rt.ready != [] && s.rt.ready[0] == Resume(POP.ctx)
    ensures Inv(s.Turn()) && Busy(s, PUSH) == Busy(s.Turn(), PUSH) && Busy(s, POP) == Busy(s.Turn(), POP)
  {
    hide LineOf;
    CoroutineTurn(POP, s.rt, s.ready, s.popEl);
    if s.rt.P(POP.ctx).Start? { SuspendUnseen(PUSH, POP, s.rt); } else { ReturnUnseen(PUSH, POP, s.rt); }
    OthersWaitAfterTurn(POP, s.rt);
  }

  lemma OthersWaitAfterTurn(o: Side, s: Rt)
    requires IsSide(o) && OthersWait(s) && s.ready != [] && s.ready[0] == Resume(o.ctx)
    ensures OthersWait(s.Dispatch().EventWait(o.event, o.ctx, WAIT_LINE)) && OthersWait(s.Dispatch().Return(o.ctx))
  {
    hide LineOf;
    var t, u := s.Dispatch().EventWait(o.event, o.ctx, WAIT_LINE), s.Dispatch().Return(o.ctx);
    assert s.Dispatch().waiting == s.waiting;
    assert u.waiting == s.waiting;
    assert forall f: Event :: f != o.event ==> t.W(f) == s.W(f);
    assert forall f: Event :: u.W(f) == s.W(f);
  }

  lemma OtherTaskKeepsInv(s: Sys)
    requires Inv(s) && s.rt.ready != [] && s.rt.ready[0].Resume?
    requires s.rt.ready[0] != Resume(PUSH.ctx) && s.rt.ready[0] != Resume(POP.ctx)
    ensures Inv(s.Turn()) && Busy(s, PUSH) == Busy(s.Turn(), PUSH) && Busy(s, POP) == Busy(s.Turn(), POP)
  {
    hide LineOf;
    assert forall f: Event :: s.Turn().rt.W(f) == s.rt.W(f);
    LineOfOthers(PUSH, s.rt.ready);
    LineOfOthers(POP, s.rt.ready);
  }

  lemma AskPushKeepsInv(s: Sys)
    requires Inv(s) && Legal(s, AskPush)
    ensures Inv(s.PushAcquire(true))
    ensures Busy(s.PushAcquire(true), PUSH) == 1 && Busy(s.PushAcquire(true), POP) == Busy(s, POP)
  {
    hide LineOf;
    if s.Slots() > 0 {
      PushKeepsWaiters(s.rt, Fire(PUSH.done));
    } else {
      ViewStart(PUSH, PUSH, s.rt);
      ViewStart(POP, PUSH, s.rt);
      StartKeepsWaiters(PUSH, s.rt);
    }
  }

  lemma AskPopKeepsInv(s: Sys)
    requires Inv(s) && Legal(s, AskPop)
    ensures Inv(s.PopConsume(true))
    ensures Busy(s.PopConsume(true), POP) == 1 && Busy(s.PopConsume(true), PUSH) == Busy(s, PUSH)
  {
    hide LineOf;
    if s.ready > 0 {
      PushKeepsWaiters(s.rt, Fire(POP.done));
    } else {
      ViewStart(POP, POP, s.rt);
      ViewStart(PUSH, POP, s.rt);
      StartKeepsWaiters(POP, s.rt);
    }
  }

  lemma PushKeepsWaiters(s: Rt, t: Task)
    requires OthersWait(s)
    ensures OthersWait(s.Push(t))
    ensures View(PUSH, s.Push(t)) == View(PUSH, s).(line := Add(PUSH, View(PUSH, s).line, t))
    ensures View(POP, s.Push(t)) == View(POP, s).(line := Add(POP, View(POP, s).line, t))
  {
    hide LineOf;
    ViewPush(PUSH, s, t);
    ViewPush(POP, s, t);
    assert forall f: Event :: s.Push(t).W(f) == s.W(f);
  }

  lemma StartKeepsWaiters(d: Side, s: Rt)
    requires IsSide(d) && OthersWait(s)
    ensures OthersWait(s.EventInit(d.event).PushStart(d.ctx, Some(d.done)))
  {
    hide LineOf;
    assert forall f: Event :: f != d.event ==> s.EventInit(d.event).PushStart(d.ctx, Some(d.done)).W(f) == s.W(f);
  }

  lemma SupplyKeepsInv(s: Sys, a: Action)
    requires Inv(s) && Legal(s, a) && (a.Commit? || a.Release?)
    ensures Inv(Apply(s, a))
    ensures Busy(Apply(s, a), PUSH) == Busy(s, PUSH) && Busy(Apply(s, a), POP) == Busy(s, POP)
  {
    hide LineOf;
    PushKeepsWaiters(s.rt, Fire(if a.Commit? then POP.event else PUSH.event));
  }

  // Discarding frees a slot without telling queue_free. That is sound exactly when nobody waits for
  // a slot, or a free slot has been announced already.
  lemma DiscardIsSafeIff(s: Sys)
    requires Inv(s) && s.acquired > 0
    ensures Inv(s.PushDiscard()) <==> !s.pushEl || s.Slots() > 0
  {
  }

  lemma TurnKeepsInv(s: Sys)
    requires Inv(s) && s.rt.ready != []
    ensures Inv(s.Turn())
  {
    hide LineOf;
    if s.rt.ready[0].Fire? {
      FireKeepsInv(s);
    } else if s.rt.ready[0] == Resume(PUSH.ctx) {
      PushTaskKeepsInv(s);
    } else if s.rt.ready[0] == Resume(POP.ctx) {
      PopTaskKeepsInv(s);
    } else {
      OtherTaskKeepsInv(s);
    }
  }

  // What every action keeps
  lemma StepKeepsInv(s: Sys, a: Action)
    requires Inv(s) && Legal(s, a)
    ensures Inv(Apply(s, a))
  {
    hide LineOf;
    match a {
      case AskPush => AskPushKeepsInv(s);
      case AskPop => AskPopKeepsInv(s);
      case Commit => SupplyKeepsInv(s, a);
      case Release => SupplyKeepsInv(s, a);
      case Discard => DiscardIsSafeIff(s);
      case TakeTask => TurnKeepsInv(s);
      case Others(t) =>
    }
  }

  ghost predicate LegalRun(s: Sys, actions: seq<Action>)
    decreases |actions|
  {
    actions == [] || (Legal(s, actions[0]) && LegalRun(Apply(s, actions[0]), actions[1..]))
  }

  ghost function RunAll(s: Sys, actions: seq<Action>): Sys
    requires LegalRun(s, actions)
    decreases |actions|
  {
    if actions == [] then s else RunAll(Apply(s, actions[0]), actions[1..])
  }

  // The assertions of queue.c are unreachable, and no wakeup is lost: whenever a side is suspended
  // while there is something for it, its event or its coroutine is queued. So when the queue of tasks
  // runs dry, a waiting producer faces a full queue and a waiting consumer an empty one.
  ghost predicate NothingLost(s: Sys) {
    && !s.fault && !s.rt.fault
    && (s.pushEl && s.Slots() > 0 ==> Fire(PUSH.event) in s.rt.ready || Resume(PUSH.ctx) in s.rt.ready)
    && (s.popEl && s.ready > 0 ==> Fire(POP.event) in s.rt.ready || Resume(POP.ctx) in s.rt.ready)
  }

  lemma {:induction false} InLine(d: Side, tasks: seq<Task>)
    requires LineOf(d, tasks).Line?
    ensures LineOf(d, tasks).before + LineOf(d, tasks).after > 0 <==> Fire(d.event) in tasks
    ensures LineOf(d, tasks).mark == Some(Run) <==> Resume(d.ctx) in tasks
    decreases |tasks|
  {
    if tasks != [] {
      var n := |tasks| - 1;
      InLine(d, tasks[..n]);
      assert tasks == tasks[..n] + [tasks[n]];
    }
  }

  lemma InvMeansNothingLost(s: Sys)
    requires Inv(s)
    ensures NothingLost(s)
  {
    hide LineOf;
    InLine(PUSH, s.rt.ready);
    InLine(POP, s.rt.ready);
  }

  lemma {:induction false} NothingIsLostInAnyRun(s: Sys, actions: seq<Action>)
    requires Inv(s) && LegalRun(s, actions)
    ensures NothingLost(RunAll(s, actions))
    decreases |actions|
  {
    hide LineOf;
    if actions == [] {
      InvMeansNothingLost(s);
    } else {
      StepKeepsInv(s, actions[0]);
      NothingIsLostInAnyRun(Apply(s, actions[0]), actions[1..]);
    }
  }

  ghost function Asks(a: Action, d: Side): nat {
    if (if d == PUSH then a.AskPush? else a.AskPop?) then 1 else 0
  }

  ghost function Answers(s: Sys, a: Action, d: Side): nat
    requires Legal(s, a)
  {
    if a.TakeTask? && s.rt.ready[0] == Fire(d.done) then 1 else 0
  }

  lemma TurnAnswers(s: Sys, d: Side)
    requires Inv(s) && s.rt.ready != [] && IsSide(d)
    ensures Busy(s, d) == Answers(s, TakeTask, d) + Busy(s.Turn(), d)
  {
    hide LineOf;
    if s.rt.ready[0].Fire? {
      FireKeepsSound(PUSH, s.rt, s.Slots(), s.pushEl);
      FireKeepsSound(POP, s.rt, s.ready, s.popEl);
    } else if s.rt.ready[0] == Resume(PUSH.ctx) {
      PushTaskKeepsInv(s);
    } else if s.rt.ready[0] == Resume(POP.ctx) {
      PopTaskKeepsInv(s);
    } else {
      OtherTaskKeepsInv(s);
    }
  }

  lemma StepAnswers(s: Sys, a: Action, d: Side)
    requires Inv(s) && Legal(s, a) && IsSide(d)
    ensures Busy(s, d) + Asks(a, d) == Answers(s, a, d) + Busy(Apply(s, a), d)
  {
    hide LineOf;
    match a {
      case AskPush => AskPushKeepsInv(s);
      case AskPop => AskPopKeepsInv(s);
      case Commit => SupplyKeepsInv(s, a);
      case Release => SupplyKeepsInv(s, a);
      case Discard =>
      case TakeTask => TurnAnswers(s, d);
      case Others(t) =>
    }
  }

  ghost function TotalAsks(actions: seq<Action>, d: Side): nat {
    if actions == [] then 0 else Asks(actions[0], d) + TotalAsks(actions[1..], d)
  }

  ghost function TotalAnswers(s: Sys, actions: seq<Action>, d: Side): nat
    requires LegalRun(s, actions)
    decreases |actions|
  {
    if actions == [] then 0
    else Answers(s, actions[0], d) + TotalAnswers(Apply(s, actions[0]), actions[1..], d)
  }

  // Every request of either side is answered exactly once: over any run its done task fires as often
  // as it asked, but for the one request still outstanding.
  lemma {:induction false} EveryRequestIsAnsweredOnce(s: Sys, actions: seq<Action>, d: Side)
    requires Inv(s) && LegalRun(s, actions) && IsSide(d)
    ensures Busy(s, d) + TotalAsks(actions, d) == TotalAnswers(s, actions, d) + Busy(RunAll(s, actions), d)
    decreases |actions|
  {
    hide LineOf;
    if actions != [] {
      StepKeepsInv(s, actions[0]);
      StepAnswers(s, actions[0], d);
      EveryRequestIsAnsweredOnce(Apply(s, actions[0]), actions[1..], d);
    }
  }

  // Polling, that is asking without a done task, is outside the discipline. It is harmless unless it
  // takes the last free slot while a firing of queue_free is still queued.
  lemma PollIsSafeIff(s: Sys)
    requires Inv(s) && Busy(s, PUSH) == 0
    ensures Inv(s.PushAcquire(false)) <==> s.Slots() != 1 || Fire(PUSH.event) !in s.rt.ready
  {
    hide LineOf;
    InLine(PUSH, s.rt.ready);
  }

  lemma PopPollIsSafeIff(s: Sys)
    requires Inv(s) && Busy(s, POP) == 0
    ensures Inv(s.PopConsume(false)) <==> s.ready != 1 || Fire(POP.event) !in s.rt.ready
  {
    hide LineOf;
    InLine(POP, s.rt.ready);
  }

  ghost function Turns(s: Sys, n: nat): Sys
    decreases n
  {
    if n == 0 || s.rt.ready == [] || s.fault then s else Turns(s.Turn(), n - 1)
  }

  // Both sides alike: what they take from, whether they have a place for a result, and their request
  ghost function Other(d: Side): Side { if d == PUSH then POP else PUSH }

  function Stock(s: Sys, d: Side): nat { if d == PUSH then s.Slots() else s.ready }

  function HasPlace(s: Sys, d: Side): bool { if d == PUSH then s.pushEl else s.popEl }

  function Ask(s: Sys, d: Side, wait: bool): Sys { if d == PUSH then s.PushAcquire(wait) else s.PopConsume(wait) }

  // "Multiple pushes" and "multiple pops": the assertion is met exactly by a request that would have to
  // wait while another one waits, and then the other one is left as it is.
  lemma SecondRequestFaults(s: Sys, d: Side)
    requires Inv(s) && IsSide(d)
    ensures Ask(s, d, true).fault <==> Stock(s, d) == 0 && HasPlace(s, d)
    ensures Stock(s, d) == 0 && HasPlace(s, d) ==> Ask(s, d, true) == s.(fault := true)
    ensures !Ask(s, d, false).fault
  {
    hide LineOf, Sound;
  }

  // A waiting request will be served too early: there is nothing to take, and the coroutine sits at
  // position i of the task queue while its event has fired, or will before its turn.
  ghost predicate Doomed(s: Sys, d: Side, i: nat) {
    IsSide(d) && Dry(s, d) && Placed(s.rt, d, i) && s.rt.W(d.event) == []
      && (s.rt.P(d.ctx).At? || (s.rt.P(d.ctx).Start? && FiresBefore(s.rt, d, i)))
  }

  ghost predicate Dry(s: Sys, d: Side) {
    && s.acquired + s.ready + s.consumed <= s.capacity && Stock(s, d) == 0 && HasPlace(s, d)
    && !s.fault && !s.rt.fault && OthersWait(s.rt)
    && Sound(Other(d), View(Other(d), s.rt), Stock(s, Other(d)), HasPlace(s, Other(d)))
  }

  ghost predicate Placed(s: Rt, d: Side, i: nat) {
    && i < |s.ready| && s.ready[i] == Resume(d.ctx)
    && Resume(d.ctx) !in s.ready[..i] && Resume(d.ctx) !in s.ready[i + 1..]
  }

  ghost predicate FiresBefore(s: Rt, d: Side, i: nat)
    requires i <= |s.ready|
  {
    d.event in s.isDone || Fire(d.event) in s.ready[..i]
  }

  // Tasks behind the head move up; only tasks of others join.
  lemma MovesUp(s: Rt, t: Rt, d: Side, i: nat, extra: seq<Task>)
    requires i > 0 && Placed(s, d, i) && t.ready == s.ready[1..] + extra && Resume(d.ctx) !in extra
    requires s.isDone <= t.isDone && (s.ready[0] == Fire(d.event) ==> d.event in t.isDone)
    ensures Placed(t, d, i - 1)
    ensures FiresBefore(s, d, i) ==> FiresBefore(t, d, i - 1)
  {
    hide LineOf;
    assert s.ready[..i] == [s.ready[0]] + t.ready[..i - 1];
    assert t.ready[i..] == s.ready[i + 1..] + extra;
  }

  lemma DoomedFire(s: Sys, d: Side, i: nat)
    requires Doomed(s, d, i) && i > 0 && s.rt.ready[0].Fire?
    ensures Doomed(s.Turn(), d, i - 1) && s.Turn().rt.P(d.ctx) == s.rt.P(d.ctx)
  {
    hide LineOf, Sound, View;
    var t := s.Turn().rt;
    var e, o := s.rt.ready[0].event, Other(d);
    assert d.ctx !in s.rt.W(e) && (o.event == e || o.ctx !in s.rt.W(e)) by { WaitersOf(s, d, e); }
    FireKeepsSound(o, s.rt, Stock(s, o), HasPlace(s, o));
    ResumesMembers(s.rt.W(e));
    MovesUp(s.rt, t, d, i, Resumes(s.rt.W(e)));
    assert forall f: Event :: t.W(f) == if f == e then [] else s.rt.W(f);
  }

  // Neither coroutine waits on what is not its own event.
  lemma WaitersOf(s: Sys, d: Side, e: Event)
    requires IsSide(d) && Dry(s, d) && s.rt.W(d.event) == []
    ensures d.ctx !in s.rt.W(e) && (Other(d).event == e || Other(d).ctx !in s.rt.W(e))
  {
    hide LineOf;
  }

  // What is left of Doomed when one task before the coroutine has been taken
  ghost predicate StillDoomed(s: Rt, t: Rt, d: Side, i: nat)
    requires i > 0 && i <= |s.ready|
  {
    && Placed(t, d, i - 1) && (FiresBefore(s, d, i) ==> FiresBefore(t, d, i - 1))
    && t.W(d.event) == [] && t.P(d.ctx) == s.P(d.ctx)
  }

  lemma DoomedOther(s: Sys, d: Side, i: nat)
    requires Doomed(s, d, i) && i > 0 && s.rt.ready[0] == Resume(Other(d).ctx)
    ensures Doomed(s.Turn(), d, i - 1) && s.Turn().rt.P(d.ctx) == s.rt.P(d.ctx)
  {
    if s.rt.P(Other(d).ctx).Start? {
      DoomedSuspends(s, d, i);
    } else {
      DoomedReturns(s, d, i);
    }
  }

  lemma DoomedSuspends(s: Sys, d: Side, i: nat)
    requires Doomed(s, d, i) && i > 0 && s.rt.ready[0] == Resume(Other(d).ctx) && s.rt.P(Other(d).ctx).Start?
    ensures Doomed(s.Turn(), d, i - 1) && s.Turn().rt.P(d.ctx) == s.rt.P(d.ctx)
  {
    hide LineOf, Sound, Free, OthersWait, FiresBefore;
    var o := Other(d);
    CoroutineTurn(o, s.rt, Stock(s, o), HasPlace(s, o));
    OthersWaitAfterTurn(o, s.rt);
    SuspendUnseenBefore(s.rt, d, i);
  }

  lemma DoomedReturns(s: Sys, d: Side, i: nat)
    requires Doomed(s, d, i) && i > 0 && s.rt.ready[0] == Resume(Other(d).ctx) && !s.rt.P(Other(d).ctx).Start?
    ensures Doomed(s.Turn(), d, i - 1) && s.Turn().rt.P(d.ctx) == s.rt.P(d.ctx)
  {
    hide LineOf, Sound, Free, OthersWait, FiresBefore;
    var o := Other(d);
    CoroutineTurn(o, s.rt, Stock(s, o), HasPlace(s, o));
    OthersWaitAfterTurn(o, s.rt);
    ReturnUnseenBefore(s.rt, d, i);
  }

  lemma SuspendUnseenBefore(s: Rt, d: Side, i: nat)
    requires IsSide(d) && Placed(s, d, i) && i > 0 && s.ready[0] == Resume(Other(d).ctx) && s.W(d.event) == []
    requires s.P(Other(d).ctx).Start? && Other(d).event !in s.isDone
    ensures StillDoomed(s, s.Dispatch().EventWait(Other(d).event, Other(d).ctx, WAIT_LINE), d, i)
  {
    MovesUp(s, s.Dispatch().EventWait(Other(d).event, Other(d).ctx, WAIT_LINE), d, i, []);
  }

  lemma ReturnUnseenBefore(s: Rt, d: Side, i: nat)
    requires IsSide(d) && Placed(s, d, i) && i > 0 && s.ready[0] == Resume(Other(d).ctx) && s.W(d.event) == []
    requires s.P(Other(d).ctx).At? && Other(d).ctx in s.doneTask && s.doneTask[Other(d).ctx] == Some(Other(d).done)
    ensures StillDoomed(s, s.Dispatch().Return(Other(d).ctx), d, i)
  {
    MovesUp(s, s.Dispatch().Return(Other(d).ctx), d, i, [Fire(Other(d).done)]);
  }

  lemma DoomedTurn(s: Sys, d: Side, i: nat)
    requires Doomed(s, d, i) && i > 0
    ensures Doomed(s.Turn(), d, i - 1) && s.Turn().rt.P(d.ctx) == s.rt.P(d.ctx)
  {
    hide LineOf;
    assert s.rt.ready[0] in s.rt.ready[..i];
    if s.rt.ready[0].Fire? {
      DoomedFire(s, d, i);
    } else if s.rt.ready[0] == Resume(Other(d).ctx) {
      DoomedOther(s, d, i);
    } else {
      LineOfOthers(Other(d), s.rt.ready);
      MovesUp(s.rt, s.Turn().rt, d, i, []);
      assert forall f: Event :: s.Turn().rt.W(f) == s.rt.W(f);
    }
  }

  lemma DoomedServe(s: Sys, d: Side)
    requires Doomed(s, d, 0)
    ensures if s.rt.P(d.ctx).At? then s.Turn().fault
            else Doomed(s.Turn(), d, |s.rt.ready| - 1) && s.Turn().rt.P(d.ctx).At?
  {
    hide LineOf, OthersWait;
    if s.rt.P(d.ctx).Start? {
      var t := s.Turn().rt;
      assert s.rt.ready[..0] == [];
      LineOfOthers(Other(d), s.rt.ready);
      OthersWaitAfterTurn(d, s.rt);
      assert t.ready == s.rt.ready[1..] + [Resume(d.ctx)];
      assert t.ready[..|s.rt.ready| - 1] == s.rt.ready[1..];
      assert t.W(Other(d).event) == s.rt.W(Other(d).event);
    }
  }

  lemma {:induction false} DoomedFaults(s: Sys, d: Side, i: nat) returns (n: nat)
    requires Doomed(s, d, i)
    ensures Turns(s, n).fault
    decreases if s.rt.P(d.ctx).Start? then 1 else 0, i
  {
    hide LineOf, Sound;
    if i > 0 {
      DoomedTurn(s, d, i);
      n := DoomedFaults(s.Turn(), d, i - 1);
    } else {
      DoomedServe(s, d);
      if s.rt.P(d.ctx).At? {
        n := 0;
      } else {
        n := DoomedFaults(s.Turn(), d, |s.rt.ready| - 1);
      }
    }
    TurnsStep(s, n);
    n := n + 1;
  }

  lemma TurnsStep(s: Sys, n: nat)
    requires !s.fault && s.rt.ready != []
    ensures Turns(s, n + 1) == Turns(s.Turn(), n)
  {
  }

  // So the assertions "queue_free asserted but queue is full" and "queue_ready asserted but queue is
  // empty" are reachable: the scheduler alone leads there from any request that has to wait while its
  // event is still queued.
  lemma StaleWakeupFaults(s: Sys, d: Side) returns (n: nat)
    requires IsSide(d) && !HasPlace(s, d) && Idle(View(d, s.rt), 1, false) && Resume(d.ctx) !in s.rt.ready
    requires Dry(if d == PUSH then s.(pushEl := true) else s.(popEl := true), d)
    requires Fire(d.event) in s.rt.ready
    ensures Turns(Ask(s, d, true), n).fault
  {
    hide LineOf;
    var t := Ask(s, d, true);
    ViewStart(Other(d), d, s.rt);
    StartKeepsWaiters(d, s.rt);
    assert t.rt.ready[..|s.rt.ready|] == s.rt.ready;
    n := DoomedFaults(t, d, |s.rt.ready|);
  }

  // The failing side of PollIsSafeIff and PopPollIsSafeIff: from every reachable state in which a poll
  // takes the last item while the event is still queued, polling and then asking leads to the assertion.
  lemma PollThenAskFaults(s: Sys, d: Side) returns (n: nat)
    requires IsSide(d) && Inv(s) && Busy(s, d) == 0 && Stock(s, d) == 1 && Fire(d.event) in s.rt.ready
    ensures Turns(Ask(Ask(s, d, false), d, true), n).fault
  {
    hide LineOf;
    InLine(d, s.rt.ready);
    n := StaleWakeupFaults(Ask(s, d, false), d);
  }

  // It happens right after queue_async_init on a queue of one slot,
  lemma PushPollFaults(s: Sys) returns (n: nat)
    requires Initial(s) && s.capacity == 1
    ensures Turns(s.PushAcquire(false).PushAcquire(true), n).fault
  {
    hide LineOf;
    InitialIsSafe(s);
    n := PollThenAskFaults(s, PUSH);
  }

  // and right after its first element has been committed.
  lemma PopPollFaults(s: Sys) returns (n: nat)
    requires Initial(s)
    ensures Turns(s.PushAcquire(true).PushCommit().PopConsume(false).PopConsume(true), n).fault
  {
    hide LineOf;
    InitialIsSafe(s);
    AskPushKeepsInv(s);
    var t := s.PushAcquire(true);
    SupplyKeepsInv(t, Commit);
    n := PollThenAskFaults(t.PushCommit(), POP);
  }

  // The failing side of DiscardIsSafeIff: on a queue of one slot the producer asks, asks again once it
  // has been told, and discards its first slot. The slot is free, the producer waits for it, and no
  // task is left that would tell it.
  const STRANDING := [AskPush, TakeTask, TakeTask, AskPush, TakeTask]

  lemma DiscardStrands(s: Sys)
    requires Initial(s) && s.capacity == 1
    ensures LegalRun(s, STRANDING) && RunAll(s, STRANDING).acquired > 0
    ensures var t := RunAll(s, STRANDING).PushDiscard();
            t.pushEl && t.Slots() > 0 && t.rt.W(PUSH.event) == [PUSH.ctx] && t.rt.ready == []
  {
    hide LineOf;
    var t1 := s.PushAcquire(true);
    var t3 := FilledAndTold(s);
    AskAgain(t3);
    var t2, t4 := t1.Turn(), t3.PushAcquire(true);
    RunOne(t4, TakeTask, []);
    RunOne(t3, AskPush, [TakeTask]);
    RunOne(t2, TakeTask, [AskPush, TakeTask]);
    RunOne(t1, TakeTask, [TakeTask, AskPush, TakeTask]);
    RunOne(s, AskPush, [TakeTask, TakeTask, AskPush, TakeTask]);
  }

  lemma RunOne(s: Sys, a: Action, rest: seq<Action>)
    requires Legal(s, a) && LegalRun(Apply(s, a), rest)
    ensures LegalRun(s, [a] + rest) && RunAll(s, [a] + rest) == RunAll(Apply(s, a), rest)
  {
    hide Legal, Apply;
    assert ([a] + rest)[1..] == rest;
  }

  // The slot is taken, the producer told, and its wakeup from the start spent.
  lemma FilledAndTold(s: Sys) returns (t: Sys)
    requires Initial(s) && s.capacity == 1
    ensures Legal(s, AskPush) && s.PushAcquire(true).rt.ready == [Fire(PUSH.event), Fire(PUSH.done)]
    ensures s.PushAcquire(true).Turn().rt.ready == [Fire(PUSH.done)] && t == s.PushAcquire(true).Turn().Turn()
    ensures t.rt.ready == [] && t.acquired == 1 && t.ready == t.consumed == 0 && t.capacity == 1
    ensures !t.pushEl && !t.fault
    ensures t.rt.P(PUSH.ctx).Start? && t.rt.W(PUSH.event) == [] && !t.rt.fault
  {
    hide LineOf;
    InitialIsSafe(s);
    var a := s.PushAcquire(true);
    assert a.rt.ready == [Fire(PUSH.event), Fire(PUSH.done)];
    var b := a.Turn();
    assert forall e: Event :: a.rt.W(e) == s.rt.W(e) == [];
    assert b.rt == a.rt.Dispatch() && forall e: Event :: b.rt.W(e) == if e == PUSH.event then [] else a.rt.W(e);
    assert b.rt.ready == [Fire(PUSH.done)] && b.rt.W(PUSH.done) == [] && b.rt.W(PUSH.event) == [];
    t := b.Turn();
    assert t.rt.ready == [] + Resumes([]);
  }

  lemma AskAgain(s: Sys)
    requires s.rt.ready == [] && s.acquired == 1 && s.ready == s.consumed == 0 && s.capacity == 1
    requires !s.pushEl && !s.fault
    requires s.rt.P(PUSH.ctx).Start? && s.rt.W(PUSH.event) == [] && !s.rt.fault
    ensures Legal(s, AskPush) && s.PushAcquire(true).rt.ready == [Resume(PUSH.ctx)]
    ensures var t := s.PushAcquire(true).Turn();
            && t.rt.ready == [] && t.acquired == 1 && t.pushEl && t.rt.W(PUSH.event) == [PUSH.ctx]
            && t.PushDiscard().Slots() > 0
  {
    LineOfNothing(PUSH);
    var a := s.PushAcquire(true);
    assert a.rt.ready == [Resume(PUSH.ctx)] && a.rt.P(PUSH.ctx).Start? && a.rt.W(PUSH.event) == [];
    assert a.rt.Dispatch().ready == [] && PUSH.event !in a.rt.Dispatch().isDone;
    assert a.Turn() == a.PushTask(a.rt.Dispatch());
  }

  // void **el: where a request wants its result
  class Cell {
    var el: Option<nat>

    constructor () { el := None; }
  }

  // queue_async_t, updated in place, on the ring of module Queue and the runtime of module Coroutine
  class QueueAsync<T(0)> {
    const q: Queue.Queue<T>
    const rt: Runtime
    var pushEl: Cell?
    var popEl: Cell?
    var fault: bool

    ghost predicate Valid()
      reads this, q
    {
      q.Valid() && !q.fault
    }

    ghost function State(): Sys
      reads this, q, rt
      requires Valid()
    {
      Sys(rt.State(), q.buffer.Length, q.countAcq, q.count, q.countConsume, pushEl != null, popEl != null, fault)
    }

    // queue_async_init
    constructor (q: Queue.Queue<T>, rt: Runtime)
      requires q.Valid() && q.Contents() == Queue.Segments([], [], [], false)
      modifies rt
      ensures Valid() && this.q == q && this.rt == rt
      ensures old(rt.State()) == BOOT ==> Initial(State())
    {
      this.q, this.rt := q, rt;
      pushEl, popEl, fault := null, null, false;
      new;
      rt.CoEventInit(PUSH.event);
      rt.PiTaskPush(Fire(PUSH.event));
      rt.CoEventInit(POP.event);
    }

    method PushAcquire(el: Cell, wait: bool)
      requires Valid()
      modifies this, q, rt, el
      ensures Valid() && State() == old(State()).PushAcquire(wait)
      ensures Queue.Acquires(old(q.Contents()), q.buffer.Length, false, el.el, q.Contents())
    {
      el.el := q.PushAcquire(false);
      if el.el != None {
        if wait { rt.PiTaskPush(Fire(PUSH.done)); }
        return;
      }
      if !wait { return; }
      if pushEl != null {
        fault := true;
        return;
      }
      pushEl := el;
      rt.CoEventInit(PUSH.event);
      rt.CoFnPushStart(PUSH.ctx, Some(PUSH.done));
    }

    // The assertion on an element out of order ends the program before queue_ready is pushed.
    method PushCommit(el: nat)
      requires Valid()
      modifies q, rt
      ensures q.Valid() && q.Contents() == old(q.Contents()).Commit(el)
      ensures old(q.Contents()).Commit(el).fault <==> q.fault
      ensures !q.fault ==> old(State()).acquired > 0 && State() == old(State()).PushCommit()
    {
      q.PushCommit(el);
      if q.fault {
        return;
      }
      rt.PiTaskPush(Fire(POP.event));
    }

    method PushDiscard(el: nat)
      requires Valid()
      modifies q
      ensures q.Valid() && q.Contents() == old(q.Contents()).Discard(el)
      ensures old(q.Contents()).Discard(el).fault <==> q.fault
      ensures !q.fault ==> old(State()).acquired > 0 && State() == old(State()).PushDiscard()
    {
      q.PushDiscard(el);
    }

    method PopConsume(el: Cell, wait: bool)
      requires Valid()
      modifies this, q, rt, el
      ensures Valid() && State() == old(State()).PopConsume(wait)
      ensures q.Contents() == old(q.Contents()).Consume()
      ensures el.el == if old(q.Contents()).ready == [] then None else Some(old(q.Contents()).ready[0])
    {
      el.el := q.PopConsume();
      if el.el != None {
        if wait { rt.PiTaskPush(Fire(POP.done)); }
        return;
      }
      if !wait { return; }
      if popEl != null {
        fault := true;
        return;
      }
      popEl := el;
      rt.CoEventInit(POP.event);
      rt.CoFnPushStart(POP.ctx, Some(POP.done));
    }

    method PopRelease(el: nat)
      requires Valid()
      modifies q, rt
      ensures q.Valid() && q.Contents() == old(q.Contents()).Release(el)
      ensures old(q.Contents()).Release(el).fault <==> q.fault
      ensures !q.fault ==> old(State()).consumed > 0 && State() == old(State()).PopRelease()
    {
      q.PopRelease(el);
      if q.fault {
        return;
      }
      rt.PiTaskPush(Fire(PUSH.event));
    }

    // The body of queue_async_push_task, entered with the resume point it had
    method PushTask(resume: Point, ghost before: Sys)
      requires Valid() && pushEl != null && State() == before.(rt := State().rt) && before.rt.P(PUSH.ctx) == resume
      modifies this, q, rt, pushEl
      ensures Valid() && State() == before.PushTask(old(rt.State()))
      ensures !resume.Start? && !fault && !before.fault ==>
        old(pushEl).el.Some? && q.Contents().acquired == old(q.Contents()).acquired + [old(pushEl).el.value]
    {
      if resume == Start {
        rt.CoEventWait(PUSH.event, PUSH.ctx, WAIT_LINE);
        return;
      }
      pushEl.el := q.PushAcquire(false);
      if pushEl.el == None {
        fault := true;
        return;
      }
      pushEl := null;
      rt.CoReturn(PUSH.ctx);
    }

    method PopTask(resume: Point, ghost before: Sys)
      requires Valid() && popEl != null && State() == before.(rt := State().rt) && before.rt.P(POP.ctx) == resume
      modifies this, q, rt, popEl
      ensures Valid() && State() == before.PopTask(old(rt.State()))
      ensures !resume.Start? && !fault && !before.fault ==>
        old(q.Contents()).ready != [] && old(popEl).el == Some(old(q.Contents()).ready[0])
    {
      if resume == Start {
        rt.CoEventWait(POP.event, POP.ctx, WAIT_LINE);
        return;
      }
      popEl.el := q.PopConsume();
      if popEl.el == None {
        fault := true;
        return;
      }
      popEl := null;
      rt.CoReturn(POP.ctx);
    }
  }
}
