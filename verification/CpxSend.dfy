// cpx_send_task of cpx.c: any number of senders share the SPI link through one event, send_done,
// which each re-arms when it takes the link. A comment there fears that it deadlocks when contended,
// and another relies on waiters being woken in order.

module CpxSend {
  import opened Prelude
  import C = Coroutine
  import opened Coroutine

  const SENT: Event := 0

  // The two suspension points: waiting for the link in the while loop, and for one's own transfer
  const LOOP := 132
  const OWN := 139

  // Every context is a sender; tasks of the rest of the program appear as firings of other events.
  // `spi` is cpx_spi.send_req: whose request is inside the SPI layer. `fault` is its assertion
  // "Multiple send requests in progress".
  datatype Net = Net(rt: Rt, spi: Option<Ctx>, fault: bool) {

    // The body of cpx_send_task from where it was suspended to its next suspension or its end
    function SendTask(c: Ctx, from: Point): Net {
      if from == At(OWN) then
        this.(rt := rt.Return(c))
      else if SENT !in rt.isDone then
        this.(rt := rt.EventWait(SENT, c, LOOP))
      else if spi.Some? then
        this.(fault := true, rt := rt.EventInit(SENT))
      else
        this.(spi := Some(c), rt := rt.EventInit(SENT).EventWait(SENT, c, OWN))
    }

    function Turn(): Net
      requires rt.ready != []
    {
      var s := this.(rt := rt.Dispatch());
      match rt.ready[0]
      case Fire(_) => s
      case Resume(c) => if s.rt.fault then s else s.SendTask(c, rt.P(c))
    }
  }

  datatype Action =
    | Send(c: Ctx, done: Option<Event>)   // cpx_send_async
    | TransferDone                        // step 11 of cpx_spi_task
    | TakeTask
    | Others(e: Event)

  ghost predicate Legal(s: Net, a: Action) {
    match a
    case Send(c, done) => !s.rt.Live(c) && done != Some(SENT)
    case TransferDone => s.spi.Some?
    case TakeTask => s.rt.ready != []
    case Others(e) => e != SENT
  }

  ghost function Apply(s: Net, a: Action): Net
    requires Legal(s, a)
  {
    match a
    case Send(c, done) => s.(rt := s.rt.PushStart(c, done))
    case TransferDone => s.(spi := None, rt := s.rt.Push(Fire(SENT)))
    case TakeTask => s.Turn()
    case Others(e) => s.(rt := s.rt.Push(Fire(e)))
  }

  // cpx_start
  const START := Net(BOOT.EventInit(SENT).Push(Fire(SENT)), None, false)

  // Senders that wait for the link in the loop, from a waiter list and from the scheduler's queue
  ghost function Looping(s: Rt, cs: seq<Ctx>): seq<Ctx> {
    if cs == [] then [] else (if s.P(cs[0]) == At(LOOP) then [cs[0]] else []) + Looping(s, cs[1..])
  }

  ghost function Woken(s: Rt, tasks: seq<Task>): seq<Ctx> {
    if tasks == [] then []
    else (if tasks[0].Resume? && s.P(tasks[0].ctx) == At(LOOP) then [tasks[0].ctx] else []) + Woken(s, tasks[1..])
  }

  // How many releases of the link are queued, and who was woken but is queued behind one
  ghost function Releases(tasks: seq<Task>): nat {
    if tasks == [] then 0 else (if tasks[0] == Fire(SENT) then 1 else 0) + Releases(tasks[1..])
  }

  ghost function Late(s: Rt, tasks: seq<Task>): seq<Ctx> {
    if tasks == [] then []
    else if tasks[0] == Fire(SENT) then Woken(s, tasks[1..])
    else Late(s, tasks[1..])
  }

  lemma {:induction false} LoopingJoin(s: Rt, a: seq<Ctx>, b: seq<Ctx>)
    ensures Looping(s, a + b) == Looping(s, a) + Looping(s, b)
  {
    hide Rt.P;
    if a == [] {
      assert a + b == b;
    } else {
      TailOfConcat(a, b);
      LoopingJoin(s, a[1..], b);
      var first := if s.P(a[0]) == At(LOOP) then [a[0]] else [];
      ConcatAssociates(first, Looping(s, a[1..]), Looping(s, b));
    }
  }

  lemma {:induction false} WokenJoin(s: Rt, a: seq<Task>, b: seq<Task>)
    ensures Woken(s, a + b) == Woken(s, a) + Woken(s, b)
  {
    hide Rt.P;
    if a == [] {
      assert a + b == b;
    } else {
      TailOfConcat(a, b);
      WokenJoin(s, a[1..], b);
      var first := if a[0].Resume? && s.P(a[0].ctx) == At(LOOP) then [a[0].ctx] else [];
      ConcatAssociates(first, Woken(s, a[1..]), Woken(s, b));
    }
  }

  lemma {:induction false} TasksJoin(s: Rt, a: seq<Task>, b: seq<Task>)
    ensures Releases(a + b) == Releases(a) + Releases(b)
    ensures Late(s, a + b) == if Releases(a) > 0 then Late(s, a) + Woken(s, b) else Late(s, b)
  {
    hide Rt.P, Woken;
    if a == [] {
      assert a + b == b;
    } else {
      TailOfConcat(a, b);
      WokenJoin(s, a[1..], b);
      TasksJoin(s, a[1..], b);
    }
  }

  lemma {:induction false} TasksOfResumes(s: Rt, cs: seq<Ctx>)
    ensures Woken(s, Resumes(cs)) == Looping(s, cs)
    ensures Releases(Resumes(cs)) == 0 && Late(s, Resumes(cs)) == []
    decreases |cs|
  {
    hide Rt.P;
    if cs != [] {
      TasksOfResumes(s, cs[1..]);
      assert Resumes(cs)[1..] == Resumes(cs[1..]);
    }
  }

  // Only the resume points of the contexts involved matter.
  lemma {:induction false} LoopingFrame(s: Rt, t: Rt, cs: seq<Ctx>)
    requires forall c :: c in cs ==> s.P(c) == t.P(c)
    ensures Looping(s, cs) == Looping(t, cs)
  {
    hide Rt.P;
    if cs != [] {
      LoopingFrame(s, t, cs[1..]);
    }
  }

  lemma {:induction false} TasksFrame(s: Rt, t: Rt, tasks: seq<Task>)
    requires forall c :: Resume(c) in tasks ==> s.P(c) == t.P(c)
    ensures Woken(s, tasks) == Woken(t, tasks) && Late(s, tasks) == Late(t, tasks)
  {
    hide Rt.P;
    if tasks != [] {
      assert tasks[0] in tasks;
      TasksFrame(s, t, tasks[1..]);
    }
  }

  // Everyone who waits for the link. Those on the list have waited again after those still queued
  // were woken with them, or came later.
  ghost function Order(s: Net): seq<Ctx> {
    Looping(s.rt, s.rt.W(SENT)) + Woken(s.rt, s.rt.ready)
  }

  // One token: the link is free (send_done is done), or its release is queued, or a sender has it.
  ghost predicate OneToken(s: Net) {
    && Releases(s.rt.ready) == (if s.spi == None && SENT !in s.rt.isDone then 1 else 0)
    && (s.spi.Some? ==> SENT !in s.rt.isDone && s.spi.value in s.rt.W(SENT) && s.rt.P(s.spi.value) == At(OWN))
  }

  ghost predicate OnlySenders(s: Net) {
    && (forall e: Event :: e != SENT ==> s.rt.W(e) == [])
    && (forall c: Ctx :: s.rt.P(c).At? ==> s.rt.P(c) == At(LOOP) || s.rt.P(c) == At(OWN))
    && (forall c: Ctx :: c in s.rt.doneTask ==> s.rt.doneTask[c] != Some(SENT))
    && s.rt.current == None
  }

  // The parts of a step that leave senders and their list alone
  lemma OnlySendersFrame(s: Net, t: Net)
    requires OnlySenders(s) && t.rt.current == None && t.rt.point == s.rt.point && t.rt.doneTask == s.rt.doneTask
    requires forall e: Event :: e != SENT ==> t.rt.W(e) == s.rt.W(e)
    ensures OnlySenders(t)
  {
    assert forall c: Ctx :: t.rt.P(c) == s.rt.P(c);
  }

  ghost predicate Inv(s: Net) {
    C.Inv(s.rt) && OneToken(s) && OnlySenders(s) && Late(s.rt, s.rt.ready) == [] && !s.fault
  }

  lemma StartIsSafe()
    ensures Inv(START)
  {
    assert Releases([Fire(SENT)]) == 1;
  }

  // How Order may change: nobody moves past anybody.
  ghost predicate KeepsOrder(s: Net, t: Net) {
    || Order(t) == Order(s)
    || (Order(s) != [] && Order(t) == Order(s)[1..] && t.spi == Some(Order(s)[0]))
    || exists c, k :: 0 <= k <= |Order(s)| && Order(t) == Order(s)[..k] + [c] + Order(s)[k..]
  }

  lemma ReleaseShape(s: Net)
    requires Inv(s) && s.rt.ready != [] && s.rt.ready[0] == Fire(SENT)
    ensures var t := s.Turn();
            && C.Inv(t.rt) && OnlySenders(t) && t.rt.ready == s.rt.ready[1..] + Resumes(s.rt.W(SENT))
            && t.rt.W(SENT) == [] && t.rt.point == s.rt.point && SENT in t.rt.isDone && t.spi == s.spi
               && t.fault == s.fault
  {
    var t := s.Turn();
    C.FireKeepsInv(s.rt, SENT);
    assert forall f: Event :: f != SENT ==> t.rt.W(f) == s.rt.W(f);
    OnlySendersFrame(s, t);
  }

  // send_done is done: everyone on its list is woken, in turn.
  lemma ReleaseKeepsInv(s: Net)
    requires Inv(s) && s.rt.ready != [] && s.rt.ready[0] == Fire(SENT)
    ensures Inv(s.Turn()) && Order(s.Turn()) == Order(s)
  {
    hide C.Inv, OnlySenders, Net.Turn;
    var t := s.Turn();
    var rest, woken := s.rt.ready[1..], s.rt.W(SENT);
    ReleaseShape(s);
    TasksOfResumes(t.rt, woken);
    TasksJoin(t.rt, rest, Resumes(woken));
    WokenJoin(t.rt, rest, Resumes(woken));
    TasksFrame(s.rt, t.rt, rest);
    LoopingFrame(s.rt, t.rt, woken);
    assert Woken(s.rt, rest) == [];
    NoReleaseNoLate(s.rt, rest);
  }

  lemma {:induction false} NoReleaseNoLate(s: Rt, tasks: seq<Task>)
    requires Releases(tasks) == 0
    ensures Late(s, tasks) == []
  {
    if tasks != [] {
      NoReleaseNoLate(s, tasks[1..]);
    }
  }

  lemma OtherFireKeepsInv(s: Net, e: Event)
    requires Inv(s) && s.rt.ready != [] && s.rt.ready[0] == Fire(e) && e != SENT
    ensures Inv(s.Turn()) && Order(s.Turn()) == Order(s)
  {
    var t := s.Turn();
    C.FireKeepsInv(s.rt, e);
    assert s.rt.W(e) == [];
    assert t.rt.ready == s.rt.ready[1..];
    assert forall f: Event :: t.rt.W(f) == s.rt.W(f);
    OnlySendersFrame(s, t);
    TasksFrame(s.rt, t.rt, t.rt.ready);
    LoopingFrame(s.rt, t.rt, s.rt.W(SENT));
    HeadIsOther(s.rt, s.rt.ready);
  }

  lemma HeadIsOther(s: Rt, tasks: seq<Task>)
    requires tasks != [] && tasks[0].Fire? && tasks[0] != Fire(SENT)
    ensures Releases(tasks) == Releases(tasks[1..]) && Late(s, tasks) == Late(s, tasks[1..])
    ensures Woken(s, tasks) == Woken(s, tasks[1..])
  {
  }

  // A sender is dispatched: what is known when its body begins.
  lemma Entering(s: Net, c: Ctx)
    requires Inv(s) && s.rt.ready != [] && s.rt.ready[0] == Resume(c)
    ensures var e, rest := s.rt.Dispatch(), s.rt.ready[1..];
            && C.Inv(e) && e.current == Some(c) && e.ready == rest && e.waiting == s.rt.waiting
               && e.isDone == s.rt.isDone
            && e.doneTask == s.rt.doneTask && e.point == s.rt.point[c := Running]
            && Releases(rest) == Releases(s.rt.ready) && Late(s.rt, rest) == [] && Resume(c) !in rest
            && Woken(s.rt, s.rt.ready) == (if s.rt.P(c) == At(LOOP) then [c] else []) + Woken(s.rt, rest)
            && c !in s.rt.W(SENT)
    ensures s.rt.P(c) in {Start, At(LOOP), At(OWN)}
  {
    C.EnterKeepsInv(s.rt, c);
    assert s.rt.ready[0] in s.rt.ready;
    assert C.QueuedOnce(s.rt);
  }

  // The task that tells the caller of a send that it is over
  function Told(s: Rt, c: Ctx): seq<Task> {
    if c in s.doneTask && s.doneTask[c].Some? then [Fire(s.doneTask[c].value)] else []
  }

  // What a turn of sender c leaves behind: its new point, the list of send_done, the tasks it pushed,
  // and nothing else.
  ghost predicate Shape(s: Rt, t: Rt, c: Ctx, p: Point, waiters: seq<Ctx>, pushed: seq<Task>) {
    && s.ready != [] && t.ready == s.ready[1..] + pushed && t.W(SENT) == waiters && t.current == None
       && t.doneTask == s.doneTask
    && (forall f: Event :: f != SENT ==> t.W(f) == s.W(f))
    && (forall d: Ctx :: t.P(d) == if d == c then p else s.P(d))
  }

  lemma ShapeKeeps(s: Net, t: Net, c: Ctx, p: Point, waiters: seq<Ctx>, pushed: seq<Task>)
    requires Inv(s) && s.rt.ready != [] && s.rt.ready[0] == Resume(c)
    requires Shape(s.rt, t.rt, c, p, waiters, pushed) && (pushed == [] || pushed == Told(s.rt, c))
      && (p.Done? || p == At(LOOP) || p == At(OWN))
    ensures OnlySenders(t) && Late(t.rt, t.rt.ready) == [] && Releases(t.rt.ready) == Releases(s.rt.ready)
    ensures Woken(s.rt, s.rt.ready) == (if s.rt.P(c) == At(LOOP) then [c] else []) + Woken(t.rt, t.rt.ready)
    ensures Looping(t.rt, s.rt.W(SENT)) == Looping(s.rt, s.rt.W(SENT))
  {
    var rest := s.rt.ready[1..];
    Entering(s, c);
    TasksFrame(s.rt, t.rt, rest);
    LoopingFrame(s.rt, t.rt, s.rt.W(SENT));
    TasksJoin(t.rt, rest, pushed);
    WokenJoin(t.rt, rest, pushed);
    NotASender(t.rt, pushed);
  }

  lemma NotASender(s: Rt, pushed: seq<Task>)
    requires pushed == [] || (|pushed| == 1 && pushed[0].Fire? && pushed[0].event != SENT)
    ensures Woken(s, pushed) == [] && Late(s, pushed) == [] && Releases(pushed) == 0
  {
  }

  lemma ReturnShape(s: Net, c: Ctx)
    requires Inv(s) && s.rt.ready != [] && s.rt.ready[0] == Resume(c) && s.rt.P(c) == At(OWN)
    ensures C.Inv(s.Turn().rt) && s.Turn() == s.(rt := s.Turn().rt) && s.Turn().rt.isDone == s.rt.isDone
    ensures Shape(s.rt, s.Turn().rt, c, Done, s.rt.W(SENT), Told(s.rt, c)) && c !in s.rt.W(SENT)
  {
    Entering(s, c);
    C.StepKeepsInv(s.rt.Dispatch(), DoReturn);
    assert s.Turn().rt == s.rt.Dispatch().Return(c);
    assert s.Turn().rt.waiting == s.rt.waiting;
  }

  // Its own transfer is over, and it returns.
  lemma ReturnKeepsInv(s: Net, c: Ctx)
    requires Inv(s) && s.rt.ready != [] && s.rt.ready[0] == Resume(c) && s.rt.P(c) == At(OWN)
    ensures Inv(s.Turn()) && Order(s.Turn()) == Order(s)
    ensures s.spi != Some(c) && s.Turn().rt.P(c) == Done && s.Turn().rt.ready == s.rt.ready[1..] + Told(s.rt, c)
  {
    hide C.Inv, OnlySenders, Net.Turn, Told;
    ReturnShape(s, c);
    ShapeKeeps(s, s.Turn(), c, Done, s.rt.W(SENT), Told(s.rt, c));
  }

  lemma WaitShape(s: Net, c: Ctx)
    requires Inv(s) && s.rt.ready != [] && s.rt.ready[0] == Resume(c) && s.rt.P(c) != At(OWN) && SENT !in s.rt.isDone
    ensures C.Inv(s.Turn().rt) && s.Turn().spi == s.spi && s.Turn().rt.isDone == s.rt.isDone
    ensures Shape(s.rt, s.Turn().rt, c, At(LOOP), s.rt.W(SENT) + [c], [])
  {
    Entering(s, c);
    C.StepKeepsInv(s.rt.Dispatch(), DoWait(SENT, LOOP));
    assert s.Turn().rt == s.rt.Dispatch().EventWait(SENT, c, LOOP);
  }

  // The link is taken: it waits, again or for the first time, behind all who are on the list.
  lemma WaitKeepsInv(s: Net, c: Ctx)
    requires Inv(s) && s.rt.ready != [] && s.rt.ready[0] == Resume(c) && s.rt.P(c) != At(OWN) && SENT !in s.rt.isDone
    ensures Inv(s.Turn())
    ensures Order(s.Turn()) == Order(s) || KeepsOrder(s, s.Turn())
  {
    var t := s.Turn();
    var w := s.rt.W(SENT);
    WaitShape(s, c);
    ShapeKeeps(s, t, c, At(LOOP), w + [c], []);
    LoopingJoin(t.rt, w, [c]);
    assert Looping(t.rt, [c]) == [c];
    WaitOrder(Looping(s.rt, w), c, Woken(t.rt, t.rt.ready), Woken(s.rt, s.rt.ready), s.rt.P(c) == At(LOOP));
    Entering(s, c);
  }

  lemma WaitOrder(w: seq<Ctx>, c: Ctx, rest: seq<Ctx>, woken: seq<Ctx>, looping: bool)
    requires woken == (if looping then [c] else []) + rest
    ensures looping ==> w + [c] + rest == w + woken
    ensures !looping ==> (w + woken)[..|w|] + [c] + (w + woken)[|w|..] == w + [c] + rest
  {
  }

  lemma TakeShape(s: Net, c: Ctx)
    requires Inv(s) && s.rt.ready != [] && s.rt.ready[0] == Resume(c) && s.rt.P(c) != At(OWN) && SENT in s.rt.isDone
    ensures C.Inv(s.Turn().rt) && s.Turn().spi == Some(c) && s.Turn().rt.isDone == s.rt.isDone - {SENT}
      && !s.Turn().fault
    ensures Shape(s.rt, s.Turn().rt, c, At(OWN), [c], []) && s.rt.W(SENT) == []
  {
    hide C.Inv, OnlySenders, Late, Woken, Looping, Releases;
    Entering(s, c);
    var e := s.rt.Dispatch();
    assert e.W(SENT) == s.rt.W(SENT);
    RearmAndWait(e, c);
    assert s.Turn().rt == e.EventInit(SENT).EventWait(SENT, c, OWN);
  }

  lemma RearmAndWait(e: Rt, c: Ctx)
    requires C.Inv(e) && e.current == Some(c) && SENT in e.isDone
    ensures e.W(SENT) == [] && C.Inv(e.EventInit(SENT).EventWait(SENT, c, OWN))
  {
    C.StepKeepsInv(e, DoInit(SENT));
    C.StepKeepsInv(e.EventInit(SENT), DoWait(SENT, OWN));
  }

  // The link is free: the SPI layer is, too, and nobody on the list is dropped by re-arming.
  lemma TakeKeepsInv(s: Net, c: Ctx)
    requires Inv(s) && s.rt.ready != [] && s.rt.ready[0] == Resume(c) && s.rt.P(c) != At(OWN) && SENT in s.rt.isDone
    ensures Inv(s.Turn()) && s.Turn().spi == Some(c)
    ensures s.rt.P(c) == At(LOOP) ==> Order(s) != [] && Order(s)[0] == c && Order(s.Turn()) == Order(s)[1..]
    ensures s.rt.P(c) != At(LOOP) ==> Order(s.Turn()) == Order(s)
  {
    var t := s.Turn();
    TakeShape(s, c);
    ShapeKeeps(s, t, c, At(OWN), [c], []);
    assert Looping(t.rt, [c]) == [];
    assert Order(t) == Woken(t.rt, t.rt.ready);
  }

  lemma SendShape(s: Net, c: Ctx, done: Option<Event>)
    requires Inv(s) && Legal(s, Send(c, done))
    ensures var t := Apply(s, Send(c, done)).rt;
            && C.Inv(t) && t.ready == s.rt.ready + [Resume(c)] && (forall f: Event :: t.W(f) == s.rt.W(f))
            && (forall d: Ctx :: t.P(d) == if d == c then Start else s.rt.P(d))
            && (s.rt.P(c).Start? || s.rt.P(c).Done?) && c !in s.rt.W(SENT) && Resume(c) !in s.rt.ready
  {
    C.StepKeepsInv(s.rt, DoStart(c, done));
    C.PointOfLive(s.rt, c);
    assert !C.Listed(s.rt, c);
  }

  lemma SendKeepsInv(s: Net, c: Ctx, done: Option<Event>)
    requires Inv(s) && Legal(s, Send(c, done))
    ensures Inv(Apply(s, Send(c, done))) && Order(Apply(s, Send(c, done))) == Order(s)
  {
    var t := Apply(s, Send(c, done));
    SendShape(s, c, done);
    TasksFrame(s.rt, t.rt, s.rt.ready);
    LoopingFrame(s.rt, t.rt, s.rt.W(SENT));
    TasksJoin(t.rt, s.rt.ready, [Resume(c)]);
    WokenJoin(t.rt, s.rt.ready, [Resume(c)]);
    assert Woken(t.rt, [Resume(c)]) == [] && Late(t.rt, [Resume(c)]) == [] && Releases([Resume(c)]) == 0;
  }

  ghost function PushedEvent(a: Action): Event {
    if a.Others? then a.e else SENT
  }

  lemma PushShape(s: Net, a: Action)
    requires Inv(s) && Legal(s, a) && (a.TransferDone? || a.Others?)
    ensures var t := Apply(s, a).rt;
            && C.Inv(t) && t.ready == s.rt.ready + [Fire(PushedEvent(a))] && t.isDone == s.rt.isDone
            && t.W(SENT) == s.rt.W(SENT) && t.point == s.rt.point && OnlySenders(Apply(s, a))
  {
    var t := Apply(s, a);
    C.StepKeepsInv(s.rt, DoPush(PushedEvent(a)));
    assert forall f: Event :: t.rt.W(f) == s.rt.W(f);
    OnlySendersFrame(s, t);
  }

  lemma PushKeepsInv(s: Net, a: Action)
    requires Inv(s) && Legal(s, a) && (a.TransferDone? || a.Others?)
    ensures Inv(Apply(s, a)) && Order(Apply(s, a)) == Order(s)
  {
    hide C.Inv, OnlySenders;
    var t := Apply(s, a);
    var u := Fire(PushedEvent(a));
    PushShape(s, a);
    TasksFrame(s.rt, t.rt, s.rt.ready);
    LoopingFrame(s.rt, t.rt, s.rt.W(SENT));
    TasksJoin(t.rt, s.rt.ready, [u]);
    WokenJoin(t.rt, s.rt.ready, [u]);
    assert Woken(t.rt, [u]) == [] && Late(t.rt, [u]) == [] && Releases([u]) == (if u == Fire(SENT) then 1 else 0);
  }

  // What every step keeps: one sender at most in the SPI layer, and nobody overtakes anybody waiting.
  lemma StepKeepsInv(s: Net, a: Action)
    requires Inv(s) && Legal(s, a)
    ensures Inv(Apply(s, a)) && KeepsOrder(s, Apply(s, a))
  {
    match a {
      case Send(c, done) => SendKeepsInv(s, c, done);
      case TransferDone => PushKeepsInv(s, a);
      case Others(e) => PushKeepsInv(s, a);
      case TakeTask =>
        match s.rt.ready[0] {
          case Fire(e) => if e == SENT { ReleaseKeepsInv(s); } else { OtherFireKeepsInv(s, e); }
          case Resume(c) =>
            Entering(s, c);
            if s.rt.P(c) == At(OWN) {
              ReturnKeepsInv(s, c);
            } else if SENT in s.rt.isDone {
              TakeKeepsInv(s, c);
            } else {
              WaitKeepsInv(s, c);
            }
        }
    }
  }

  // For the methods below: a legal step made in place keeps all this.
  ghost predicate KeptBy(s: Net, a: Action, t: Net) {
    Inv(s) && Legal(s, a) ==> Inv(t) && KeepsOrder(s, t)
  }

  lemma LegalStepsKeep(s: Net, a: Action, t: Net)
    requires Legal(s, a) ==> t == Apply(s, a)
    ensures KeptBy(s, a, t)
  {
    if Inv(s) && Legal(s, a) {
      StepKeepsInv(s, a);
    }
  }

  ghost predicate LegalRun(s: Net, actions: seq<Action>)
    decreases |actions|
  {
    actions == [] || (Legal(s, actions[0]) && LegalRun(Apply(s, actions[0]), actions[1..]))
  }

  ghost function RunAll(s: Net, actions: seq<Action>): Net
    requires LegalRun(s, actions)
    decreases |actions|
  {
    if actions == [] then s else RunAll(Apply(s, actions[0]), actions[1..])
  }

  // For any senders and any interleaving: the assertion of cpx_spi_send_async is unreachable, and the
  // link does not deadlock. When no task is queued and no transfer runs, nobody is left waiting.
  lemma {:induction false} NoDeadlock(s: Net, actions: seq<Action>)
    requires Inv(s) && LegalRun(s, actions)
    ensures var t := RunAll(s, actions);
            && !t.fault && !t.rt.fault
            && (t.rt.ready == [] && t.spi == None ==> forall c: Ctx :: t.rt.P(c).Start? || t.rt.P(c).Done?)
            && (t.rt.W(SENT) != [] ==> t.spi.Some? || Fire(SENT) in t.rt.ready)
    decreases |actions|
  {
    if actions == [] {
      ReleaseQueued(s.rt.ready);
      forall c: Ctx | s.rt.ready == [] && s.spi == None ensures s.rt.P(c).Start? || s.rt.P(c).Done? {
        assert s.rt.W(SENT) == [];
        assert forall e: Event :: s.rt.W(e) == [];
        assert !C.Listed(s.rt, c);
      }
    } else {
      StepKeepsInv(s, actions[0]);
      NoDeadlock(Apply(s, actions[0]), actions[1..]);
    }
  }

  lemma {:induction false} ReleaseQueued(tasks: seq<Task>)
    ensures Releases(tasks) > 0 <==> Fire(SENT) in tasks
  {
    if tasks != [] {
      ReleaseQueued(tasks[1..]);
    }
  }

  ghost predicate Ahead(s: Net, x: Ctx, y: Ctx) {
    exists i, j :: 0 <= i < j < |Order(s)| && Order(s)[i] == x && Order(s)[j] == y
  }

  lemma StepKeepsAhead(s: Net, t: Net, x: Ctx, y: Ctx)
    requires KeepsOrder(s, t) && Ahead(s, x, y)
    ensures Ahead(t, x, y) || t.spi == Some(x)
  {
    hide Order;
    var o, u := Order(s), Order(t);
    var i, j :| 0 <= i < j < |o| && o[i] == x && o[j] == y;
    if u == o {
    } else if o != [] && u == o[1..] && t.spi == Some(o[0]) {
      if i > 0 {
        assert u[i - 1] == x && u[j - 1] == y;
      }
    } else {
      var c, k :| 0 <= k <= |o| && u == o[..k] + [c] + o[k..];
      var i', j' := if i < k then i else i + 1, if j < k then j else j + 1;
      assert u[i'] == x && u[j'] == y;
    }
  }

  // Somewhere in the run sender x has the link.
  ghost predicate EverHasLink(s: Net, actions: seq<Action>, x: Ctx)
    requires LegalRun(s, actions)
    decreases |actions|
  {
    s.spi == Some(x) || (actions != [] && EverHasLink(Apply(s, actions[0]), actions[1..], x))
  }

  // A sender waiting behind another stays behind it until that one has had the link.
  lemma {:induction false} WaitersNeverOvertake(s: Net, actions: seq<Action>, x: Ctx, y: Ctx)
    requires Inv(s) && LegalRun(s, actions) && Ahead(s, x, y)
    ensures Ahead(RunAll(s, actions), x, y) || EverHasLink(s, actions, x)
    decreases |actions|
  {
    if actions != [] {
      var t := Apply(s, actions[0]);
      StepKeepsInv(s, actions[0]);
      StepKeepsAhead(s, t, x, y);
      if Ahead(t, x, y) {
        WaitersNeverOvertake(t, actions[1..], x, y);
      } else {
        assert EverHasLink(t, actions[1..], x);
      }
    }
  }

  // Who waits for the link is told by the resume point alone.
  lemma {:induction false} LoopingMembers(s: Rt, cs: seq<Ctx>)
    ensures forall x: Ctx :: x in Looping(s, cs) <==> x in cs && s.P(x) == At(LOOP)
  {
    hide Rt.P;
    if cs != [] {
      LoopingMembers(s, cs[1..]);
      assert cs == [cs[0]] + cs[1..];
    }
  }

  lemma {:induction false} WokenMembers(s: Rt, tasks: seq<Task>)
    ensures forall x: Ctx :: x in Woken(s, tasks) <==> Resume(x) in tasks && s.P(x) == At(LOOP)
  {
    hide Rt.P;
    if tasks != [] {
      WokenMembers(s, tasks[1..]);
      assert tasks == [tasks[0]] + tasks[1..];
    }
  }

  lemma WhoWaits(s: Net, x: Ctx)
    requires Inv(s)
    ensures x in Order(s) <==> s.rt.P(x) == At(LOOP)
    ensures s.rt.P(x) == At(LOOP) ==> x in s.rt.W(SENT) || Resume(x) in s.rt.ready
    ensures s.spi == Some(x) ==> s.rt.P(x) == At(OWN)
  {
    hide Looping, Woken, Late, Releases;
    LoopingMembers(s.rt, s.rt.W(SENT));
    WokenMembers(s.rt, s.rt.ready);
    if s.rt.P(x) == At(LOOP) && Resume(x) !in s.rt.ready {
      assert C.Listed(s.rt, x);
      assert forall e: Event :: e != SENT ==> x !in s.rt.W(e);
    }
  }

  ghost predicate NoRepeats(cs: seq<Ctx>) {
    forall i, j :: 0 <= i < j < |cs| ==> cs[i] != cs[j]
  }

  lemma {:induction false} LoopingOnce(s: Rt, cs: seq<Ctx>)
    requires NoRepeats(cs)
    ensures NoRepeats(Looping(s, cs))
  {
    hide Rt.P;
    if cs != [] {
      LoopingOnce(s, cs[1..]);
      LoopingMembers(s, cs[1..]);
      assert cs[0] !in cs[1..];
    }
  }

  lemma {:induction false} WokenOnce(s: Rt, tasks: seq<Task>)
    requires forall i, j :: 0 <= i < j < |tasks| && tasks[i].Resume? ==> tasks[i] != tasks[j]
    ensures NoRepeats(Woken(s, tasks))
  {
    hide Rt.P;
    if tasks != [] {
      WokenOnce(s, tasks[1..]);
      WokenMembers(s, tasks[1..]);
      assert tasks[0].Resume? ==> tasks[0] !in tasks[1..];
    }
  }

  lemma NobodyWaitsTwice(s: Net)
    requires Inv(s)
    ensures NoRepeats(Order(s))
  {
    hide Looping, Woken, Late, Releases, Rt.P, OnlySenders;
    assert C.QueuedOnce(s.rt) && C.ListedOnce(s.rt);
    LoopingOnce(s.rt, s.rt.W(SENT));
    WokenOnce(s.rt, s.rt.ready);
    LoopingMembers(s.rt, s.rt.W(SENT));
    WokenMembers(s.rt, s.rt.ready);
    var a, b := Looping(s.rt, s.rt.W(SENT)), Woken(s.rt, s.rt.ready);
    assert forall x: Ctx :: x in a ==> x !in b;
    OnceInParts(a, b);
  }

  lemma OnceInParts(a: seq<Ctx>, b: seq<Ctx>)
    requires NoRepeats(a) && NoRepeats(b) && forall x: Ctx :: x in a ==> x !in b
    ensures NoRepeats(a + b)
  {
    forall i, j | 0 <= i < j < |a + b| ensures (a + b)[i] != (a + b)[j] {
      assert i < |a| ==> (a + b)[i] in a;
      assert j >= |a| ==> (a + b)[j] in b;
    }
  }

  lemma AheadInParts(s: Net, a: seq<Ctx>, b: seq<Ctx>, x: Ctx, y: Ctx)
    requires Order(s) == a + b && x in a && y in b
    ensures Ahead(s, x, y)
  {
    hide Order;
    var i :| 0 <= i < |a| && a[i] == x;
    var j :| 0 <= j < |b| && b[j] == y;
    assert (a + b)[i] == x && (a + b)[|a| + j] == y;
  }

  // Sender c got past sender x, which still waits.
  ghost predicate Passed(s: Net, c: Ctx, x: Ctx) {
    x in Order(s) && (s.spi == Some(c) || Ahead(s, c, x))
  }

  // In no run does c get past x before x has had the link.
  ghost predicate NeverPasses(s: Net, c: Ctx, x: Ctx) {
    forall actions: seq<Action> :: LegalRun(s, actions) ==>
      EverHasLink(s, actions, x) || !Passed(RunAll(s, actions), c, x)
  }

  // What one turn of the scheduler changes, for a sender that is not at the head of the queue
  lemma TurnKeepsOthers(s: Net, d: Ctx)
    requires Inv(s) && s.rt.ready != [] && s.rt.ready[0] != Resume(d)
    ensures s.rt.ready[1..] <= s.Turn().rt.ready && s.Turn().rt.P(d) == s.rt.P(d)
    ensures s.rt.ready[0] != Fire(SENT) && d in s.rt.W(SENT) ==> d in s.Turn().rt.W(SENT)
    ensures s.rt.ready[0] == Fire(SENT) && d in s.rt.W(SENT) ==> Resume(d) in s.Turn().rt.ready[|s.rt.ready| - 1..]
  {
    hide C.Inv, OneToken, OnlySenders, Late, Net.SendTask, Rt.P, Rt.W;
    match s.rt.ready[0] {
      case Fire(e) =>
        if e == SENT {
          ReleaseShape(s);
          ResumesMembers(s.rt.W(SENT));
          PointsSame(s, s.Turn(), d);
        } else {
          OtherFireShape(s, e);
          PointsSame(s, s.Turn(), d);
        }
      case Resume(c) =>
        Entering(s, c);
        if s.rt.P(c) == At(OWN) {
          ReturnShape(s, c);
        } else if SENT in s.rt.isDone {
          TakeShape(s, c);
        } else {
          WaitShape(s, c);
        }
    }
  }

  lemma PointsSame(s: Net, t: Net, d: Ctx)
    requires t.rt.point == s.rt.point
    ensures t.rt.P(d) == s.rt.P(d)
  {
  }

  lemma OtherFireShape(s: Net, e: Event)
    requires Inv(s) && s.rt.ready != [] && s.rt.ready[0] == Fire(e) && e != SENT
    ensures var t := s.Turn();
            t.rt.ready == s.rt.ready[1..] && t.rt.point == s.rt.point && t.rt.W(SENT) == s.rt.W(SENT)
  {
    assert s.rt.W(e) == [];
    assert s.Turn().rt.ready == s.rt.ready[1..] + Resumes([]);
  }

  // With the release queued before c, everyone who waits ends up behind c in the queue of tasks.
  ghost predicate ReleaseFirst(s: Net, c: Ctx, x: Ctx, i: nat, j: nat) {
    && Inv(s) && i < j < |s.rt.ready| && s.rt.ready[i] == Fire(SENT) && s.rt.ready[j] == Resume(c)
    && s.rt.P(c) == Start && s.rt.P(x) == At(LOOP)
  }

  ghost predicate NewcomerFirst(s: Net, c: Ctx, x: Ctx, j: nat, k: nat) {
    && Inv(s) && j < k < |s.rt.ready| && s.rt.ready[j] == Resume(c) && s.rt.ready[k] == Resume(x)
    && s.rt.P(c) == Start && s.rt.P(x) == At(LOOP)
  }

  lemma QueuedLater(s: Net, c: Ctx, j: nat)
    requires Inv(s) && 0 < j < |s.rt.ready| && s.rt.ready[j] == Resume(c)
    ensures s.rt.ready[0] != Resume(c)
  {
    assert C.QueuedOnce(s.rt);
  }

  lemma ReleaseQueuedMeansNotDone(s: Net)
    requires Inv(s) && Fire(SENT) in s.rt.ready
    ensures SENT !in s.rt.isDone
  {
    ReleaseQueued(s.rt.ready);
  }

  lemma ReleaseComes(s: Net, c: Ctx, x: Ctx, i: nat, j: nat) returns (k: nat)
    requires ReleaseFirst(s, c, x, i, j)
    ensures if i > 0 then ReleaseFirst(s.Turn(), c, x, i - 1, j - 1) else NewcomerFirst(s.Turn(), c, x, j - 1, k)
  {
    hide Net.Turn, C.Inv, OneToken, OnlySenders, Late, Rt.P, Rt.W, Woken, Looping;
    var t := s.Turn();
    StepKeepsInv(s, TakeTask);
    assert Apply(s, TakeTask) == t;
    QueuedLater(s, c, j);
    TurnKeepsOthers(s, c);
    k := 0;
    if i > 0 {
      if s.rt.ready[0] == Resume(x) {
        assert s.rt.ready[i] in s.rt.ready;
        ReleaseQueuedMeansNotDone(s);
        WaitShape(s, x);
      } else {
        TurnKeepsOthers(s, x);
      }
    } else {
      TurnKeepsOthers(s, x);
      ListedBehindRelease(s, x);
      var n := |s.rt.ready| - 1;
      var m :| 0 <= m < |t.rt.ready[n..]| && t.rt.ready[n..][m] == Resume(x);
      k := n + m;
    }
  }

  // When the release is next, all who wait are on the list.
  lemma ListedBehindRelease(s: Net, x: Ctx)
    requires Inv(s) && s.rt.ready != [] && s.rt.ready[0] == Fire(SENT) && s.rt.P(x) == At(LOOP)
    ensures x in s.rt.W(SENT)
  {
    WhoWaits(s, x);
    WokenMembers(s.rt, s.rt.ready[1..]);
    assert Late(s.rt, s.rt.ready) == Woken(s.rt, s.rt.ready[1..]);
    assert s.rt.ready == [s.rt.ready[0]] + s.rt.ready[1..];
    hide C.Inv, OneToken, OnlySenders, Looping, Woken;
  }

  lemma NewcomerComes(s: Net, c: Ctx, x: Ctx, j: nat, k: nat)
    requires NewcomerFirst(s, c, x, j, k)
    ensures if j > 0 then NewcomerFirst(s.Turn(), c, x, j - 1, k - 1) else Inv(s.Turn()) && Passed(s.Turn(), c, x)
  {
    hide Net.Turn, C.Inv, OneToken, OnlySenders, Late, Rt.P, Rt.W, Woken, Looping;
    var t := s.Turn();
    StepKeepsInv(s, TakeTask);
    assert Apply(s, TakeTask) == t;
    QueuedLater(s, x, k);
    TurnKeepsOthers(s, x);
    if j > 0 {
      QueuedLater(s, c, j);
      TurnKeepsOthers(s, c);
    } else {
      WhoWaits(t, x);
      if SENT in s.rt.isDone {
        TakeShape(s, c);
      } else {
        WaitShape(s, c);
        assert t.rt.ready[k - 1] == Resume(x);
        LoopingMembers(t.rt, t.rt.W(SENT));
        WokenMembers(t.rt, t.rt.ready);
        AheadInParts(t, Looping(t.rt, t.rt.W(SENT)), Woken(t.rt, t.rt.ready), c, x);
      }
    }
  }

  lemma TakeAndGoOn(s: Net, rest: seq<Action>, x: Ctx)
    requires s.rt.ready != [] && LegalRun(s.Turn(), rest) && s.spi != Some(x)
    ensures LegalRun(s, [TakeTask] + rest) && RunAll(s, [TakeTask] + rest) == RunAll(s.Turn(), rest)
    ensures EverHasLink(s, [TakeTask] + rest, x) <==> EverHasLink(s.Turn(), rest, x)
  {
    hide Net.Turn;
    assert ([TakeTask] + rest)[1..] == rest;
  }

  lemma {:induction false} NewcomerPasses(s: Net, c: Ctx, x: Ctx, j: nat, k: nat) returns (actions: seq<Action>)
    requires NewcomerFirst(s, c, x, j, k)
    ensures LegalRun(s, actions) && !EverHasLink(s, actions, x) && Passed(RunAll(s, actions), c, x)
    decreases j
  {
    hide Net.Turn, Passed, Inv;
    NewcomerComes(s, c, x, j, k);
    StillWaits(s, s.Turn(), c, x, j, k);
    if j > 0 {
      actions := NewcomerPasses(s.Turn(), c, x, j - 1, k - 1);
    } else {
      actions := [];
    }
    TakeAndGoOn(s, actions, x);
    actions := [TakeTask] + actions;
  }

  lemma StillWaits(s: Net, t: Net, c: Ctx, x: Ctx, j: nat, k: nat)
    requires NewcomerFirst(s, c, x, j, k) && Inv(t)
    requires t.rt.P(x) == At(LOOP) || Passed(t, c, x)
    ensures s.spi != Some(x) && t.spi != Some(x)
  {
    hide Inv, Order, Ahead;
    WhoWaits(s, x);
    WhoWaits(t, x);
  }

  lemma {:induction false} ReleasePasses(s: Net, c: Ctx, x: Ctx, i: nat, j: nat) returns (actions: seq<Action>)
    requires ReleaseFirst(s, c, x, i, j)
    ensures LegalRun(s, actions) && !EverHasLink(s, actions, x) && Passed(RunAll(s, actions), c, x)
    decreases i
  {
    hide Net.Turn, Passed, Inv;
    var k := ReleaseComes(s, c, x, i, j);
    WhoWaits(s, x);
    if i > 0 {
      actions := ReleasePasses(s.Turn(), c, x, i - 1, j - 1);
    } else {
      actions := NewcomerPasses(s.Turn(), c, x, j - 1, k);
    }
    TakeAndGoOn(s, actions, x);
    actions := [TakeTask] + actions;
  }

  // Without it, c finds the link taken and joins the list behind everyone.
  ghost predicate Yields(s: Net, c: Ctx, x: Ctx) {
    Ahead(s, x, c) || exists j: nat :: QueuedBehind(s, c, x, j)
  }

  ghost predicate QueuedBehind(s: Net, c: Ctx, x: Ctx, j: nat) {
    && j < |s.rt.ready| && s.rt.ready[j] == Resume(c) && Fire(SENT) !in s.rt.ready[..j]
    && s.rt.P(c) == Start && s.rt.P(x) == At(LOOP) && (x in s.rt.W(SENT) || Resume(x) in s.rt.ready[..j])
  }

  lemma YieldsMeansNotPassed(s: Net, c: Ctx, x: Ctx)
    requires Inv(s) && Yields(s, c, x)
    ensures !Passed(s, c, x)
  {
    hide C.Inv, OneToken, OnlySenders, Late, Order, Inv;
    WhoWaits(s, c);
    if Ahead(s, x, c) {
      NobodyWaitsTwice(s);
      OneWayAhead(s, x, c);
    }
  }

  lemma OneWayAhead(s: Net, x: Ctx, y: Ctx)
    requires NoRepeats(Order(s)) && Ahead(s, x, y)
    ensures !Ahead(s, y, x) && y in Order(s)
  {
    hide Order;
  }

  // c is next: x is on the list, so the link is taken.
  lemma YieldsWhenNext(s: Net, c: Ctx, x: Ctx)
    requires Inv(s) && QueuedBehind(s, c, x, 0)
    ensures Ahead(s.Turn(), x, c)
  {
    assert x in s.rt.W(SENT) && SENT !in s.rt.isDone by {
      hide Net.Turn, OneToken, OnlySenders, Late, Rt.P, Woken, Looping;
    }
    hide Net.Turn, Inv, Rt.P, Rt.W, Woken, Looping;
    WaitShape(s, c);
    Entering(s, c);
    LastOnTheList(s.Turn(), s.rt.W(SENT), c, x);
  }

  lemma LastOnTheList(t: Net, w: seq<Ctx>, c: Ctx, x: Ctx)
    requires t.rt.W(SENT) == w + [c] && x in w && t.rt.P(c) == t.rt.P(x) == At(LOOP)
    ensures Ahead(t, x, c)
  {
    hide Rt.P, Rt.W, Woken, Looping, Ahead;
    LoopingJoin(t.rt, w, [c]);
    LoopingMembers(t.rt, w);
    LoopingMembers(t.rt, [c]);
    var a, b, d := Looping(t.rt, w), Looping(t.rt, [c]), Woken(t.rt, t.rt.ready);
    assert a + b + d == a + (b + d);
    AheadInParts(t, a, b + d, x, c);
  }

  lemma YieldsLater(s: Net, c: Ctx, x: Ctx, j: nat)
    requires Inv(s) && QueuedBehind(s, c, x, j) && j > 0
    ensures s.Turn().spi == Some(x) || QueuedBehind(s.Turn(), c, x, j - 1)
  {
    hide Net.Turn, OneToken, OnlySenders, Late, Rt.P, Woken, Looping;
    var t := s.Turn();
    assert s.rt.ready[0] in s.rt.ready[..j];
    QueuedLater(s, c, j);
    TurnKeepsOthers(s, c);
    assert s.rt.ready[..j] == [s.rt.ready[0]] + s.rt.ready[1..][..j - 1];
    assert t.rt.ready[..j - 1] == s.rt.ready[1..][..j - 1];
    if s.rt.ready[0] == Resume(x) {
      if SENT in s.rt.isDone {
        TakeShape(s, x);
      } else {
        WaitShape(s, x);
      }
    } else {
      TurnKeepsOthers(s, x);
    }
  }

  lemma YieldsOnOtherSteps(s: Net, a: Action, c: Ctx, x: Ctx, j: nat)
    requires Inv(s) && Legal(s, a) && !a.TakeTask? && QueuedBehind(s, c, x, j)
    ensures QueuedBehind(Apply(s, a), c, x, j)
  {
    hide OneToken, OnlySenders, Late, Woken, Looping, Inv;
    var t := Apply(s, a);
    assert Resume(c) in s.rt.ready;
    WhoWaits(s, x);
    assert s.rt.Live(c) && s.rt.Live(x) by {
      assert x in s.rt.W(SENT) ==> C.Listed(s.rt, x);
    }
    assert s.rt.ready <= t.rt.ready;
    assert t.rt.ready[..j] == s.rt.ready[..j];
    assert t.rt.W(SENT) == s.rt.W(SENT);
  }

  lemma StepKeepsYields(s: Net, a: Action, c: Ctx, x: Ctx)
    requires Inv(s) && Legal(s, a) && Yields(s, c, x)
    ensures Apply(s, a).spi == Some(x) || Yields(Apply(s, a), c, x)
  {
    hide Inv, QueuedBehind, Ahead, Net.Turn;
    if Ahead(s, x, c) {
      StepKeepsInv(s, a);
      StepKeepsAhead(s, Apply(s, a), x, c);
    } else {
      var j: nat :| QueuedBehind(s, c, x, j);
      if !a.TakeTask? {
        YieldsOnOtherSteps(s, a, c, x, j);
      } else if j == 0 {
        YieldsWhenNext(s, c, x);
      } else {
        YieldsLater(s, c, x, j);
      }
    }
  }

  lemma {:induction false} YieldsInEveryRun(s: Net, actions: seq<Action>, c: Ctx, x: Ctx)
    requires Inv(s) && LegalRun(s, actions) && Yields(s, c, x)
    ensures EverHasLink(s, actions, x) || !Passed(RunAll(s, actions), c, x)
    decreases |actions|
  {
    hide Inv, Yields, Passed, Legal, Apply;
    if actions == [] {
      YieldsMeansNotPassed(s, c, x);
    } else {
      var t := Apply(s, actions[0]);
      StepKeepsInv(s, actions[0]);
      StepKeepsYields(s, actions[0], c, x);
      if t.spi == Some(x) {
        assert EverHasLink(t, actions[1..], x);
      } else {
        YieldsInEveryRun(t, actions[1..], c, x);
      }
    }
  }

  // Against newcomers there is no promise like WaitersNeverOvertake in general. A new sender stays
  // behind one that already waits, in every run, if and only if the release of the link is not queued
  // when it comes; that is, if a transfer is running or send_done is done.
  lemma NewcomerStaysBehindIff(s: Net, c: Ctx, done: Option<Event>, x: Ctx)
    requires Inv(s) && Legal(s, Send(c, done)) && x in Order(s)
    ensures NeverPasses(Apply(s, Send(c, done)), c, x) <==> Fire(SENT) !in s.rt.ready
    ensures Fire(SENT) !in s.rt.ready <==> s.spi.Some? || SENT in s.rt.isDone
  {
    hide Inv, Order, Passed, Late, Looping, Woken, Yields;
    var t := Apply(s, Send(c, done));
    Arrives(s, c, done, x);
    if Fire(SENT) in s.rt.ready {
      var i :| 0 <= i < |s.rt.ready| && s.rt.ready[i] == Fire(SENT);
      var actions := ReleasePasses(t, c, x, i, |s.rt.ready|);
      assert LegalRun(t, actions);
    } else {
      forall actions: seq<Action> | LegalRun(t, actions)
        ensures EverHasLink(t, actions, x) || !Passed(RunAll(t, actions), c, x)
      {
        YieldsInEveryRun(t, actions, c, x);
      }
    }
  }

  lemma Arrives(s: Net, c: Ctx, done: Option<Event>, x: Ctx)
    requires Inv(s) && Legal(s, Send(c, done)) && x in Order(s)
    ensures var t := Apply(s, Send(c, done));
            && Inv(t) && t.rt.ready == s.rt.ready + [Resume(c)] && t.rt.P(c) == Start && t.rt.P(x) == At(LOOP)
            && (Fire(SENT) !in s.rt.ready ==> Yields(t, c, x))
    ensures Fire(SENT) !in s.rt.ready <==> s.spi.Some? || SENT in s.rt.isDone
  {
    hide C.Inv, OnlySenders, Late, Looping, Woken, Order;
    var t := Apply(s, Send(c, done));
    SendShape(s, c, done);
    SendKeepsInv(s, c, done);
    WhoWaits(s, x);
    ReleaseQueued(s.rt.ready);
    assert t.rt.ready[..|s.rt.ready|] == s.rt.ready;
    assert Fire(SENT) !in s.rt.ready ==> QueuedBehind(t, c, x, |s.rt.ready|);
  }

  // Such states are reached: 0 has the link, 1 waits for it, and the transfer of 0 is over.
  lemma ContendedReleaseIsReachable() returns (actions: seq<Action>)
    ensures LegalRun(START, actions)
    ensures var s := RunAll(START, actions);
            Inv(s) && Order(s) == [1] && Fire(SENT) in s.rt.ready && Legal(s, Send(2, None))
  {
    var s1 := Free();
    var s2, s3 := Asked(s1);
    var s5 := Contended(s3);
    var s6 := Released(s5);
    hide Net.Turn, Apply, RunAll, LegalRun, Order, Inv, Rt.Live;
    RunToHere(s1, s2, s3, s5, s6);
    StartIsSafe();
    actions := [TakeTask] + [Send(0, None), Send(1, None), TakeTask, TakeTask, TransferDone];
    RunKeepsInv(START, actions);
  }

  lemma RunToHere(s1: Net, s2: Net, s3: Net, s5: Net, s6: Net)
    requires s1 == START.Turn() && Legal(s1, Send(0, None)) && s2 == Apply(s1, Send(0, None))
    requires Legal(s2, Send(1, None)) && s3 == Apply(s2, Send(1, None)) && s3.rt.ready != []
    requires s3.Turn().rt.ready != [] && s5 == s3.Turn().Turn()
    requires Legal(s5, TransferDone) && s6 == Apply(s5, TransferDone)
    ensures var actions := [TakeTask] + [Send(0, None), Send(1, None), TakeTask, TakeTask, TransferDone];
            LegalRun(START, actions) && RunAll(START, actions) == s6
  {
    hide Net.Turn, Rt.Live;
    RunOne(s5, TransferDone, []);
    RunOne(s3.Turn(), TakeTask, [TransferDone]);
    RunOne(s3, TakeTask, [TakeTask, TransferDone]);
    RunOne(s2, Send(1, None), [TakeTask, TakeTask, TransferDone]);
    RunOne(s1, Send(0, None), [Send(1, None), TakeTask, TakeTask, TransferDone]);
    RunOne(START, TakeTask, [Send(0, None), Send(1, None), TakeTask, TakeTask, TransferDone]);
  }

  lemma RunOne(s: Net, a: Action, rest: seq<Action>)
    requires Legal(s, a) && LegalRun(Apply(s, a), rest)
    ensures LegalRun(s, [a] + rest) && RunAll(s, [a] + rest) == RunAll(Apply(s, a), rest)
  {
    hide Legal, Apply;
    assert ([a] + rest)[1..] == rest;
  }

  lemma {:induction false} RunKeepsInv(s: Net, actions: seq<Action>)
    requires Inv(s) && LegalRun(s, actions)
    ensures Inv(RunAll(s, actions))
    decreases |actions|
  {
    hide Inv, Legal, Apply;
    if actions != [] {
      StepKeepsInv(s, actions[0]);
      RunKeepsInv(Apply(s, actions[0]), actions[1..]);
    }
  }

  lemma Free() returns (s: Net)
    ensures s == START.Turn() && s.rt.ready == [] && s.rt.isDone == {SENT} && s.rt.point == map[] && s.spi == None
    ensures (forall e: Event :: s.rt.W(e) == []) && (forall c: Ctx :: !s.rt.Live(c))
    ensures s.rt.current == None && !s.rt.fault
  {
    s := START.Turn();
    assert Resumes([]) == [];
    assert forall e: Event :: s.rt.W(e) == [];
  }

  lemma Contended(s: Net) returns (t: Net)
    requires s.rt.ready == [Resume(0), Resume(1)] && s.rt.isDone == {SENT} && s.rt.W(SENT) == [] && s.spi == None
    requires s.rt.P(0) == s.rt.P(1) == Start && s.rt.P(2) == Start && s.rt.current == None && !s.rt.fault
    requires forall e: Event :: s.rt.W(e) == []
    ensures var u := s.Turn(); u.rt.ready == [Resume(1)] && t == u.Turn() && t.rt.ready == [] && t.spi == Some(0)
    ensures t.rt.W(SENT) == [0, 1] && t.rt.P(0) == At(OWN) && t.rt.P(1) == At(LOOP) && t.rt.P(2) == Start
    ensures t.rt.current == None && forall e: Event :: e != SENT ==> t.rt.W(e) == []
  {
    var u := s.Turn();
    assert u.rt.ready == [Resume(1)] && u.rt.W(SENT) == [0];
    t := u.Turn();
    assert forall e: Event :: e != SENT ==> u.rt.W(e) == s.rt.W(e);
    assert forall e: Event :: e != SENT ==> t.rt.W(e) == u.rt.W(e);
  }

  lemma Asked(s: Net) returns (t: Net, u: Net)
    requires s.rt.ready == [] && s.rt.isDone == {SENT} && s.rt.point == map[] && s.spi == None && s.rt.current == None
    requires (forall e: Event :: s.rt.W(e) == []) && (forall c: Ctx :: !s.rt.Live(c)) && !s.rt.fault
    ensures Legal(s, Send(0, None)) && t == Apply(s, Send(0, None))
    ensures Legal(t, Send(1, None)) && u == Apply(t, Send(1, None))
    ensures u.rt.ready == [Resume(0), Resume(1)] && u.rt.isDone == {SENT} && u.rt.W(SENT) == [] && u.spi == None
    ensures u.rt.P(0) == u.rt.P(1) == u.rt.P(2) == Start && u.rt.current == None && !u.rt.fault
    ensures forall e: Event :: u.rt.W(e) == []
  {
    t := Apply(s, Send(0, None));
    assert forall e: Event :: t.rt.W(e) == s.rt.W(e) == [];
    assert !t.rt.Live(1);
    u := Apply(t, Send(1, None));
    assert forall e: Event :: u.rt.W(e) == t.rt.W(e) == [];
  }

  lemma Released(s: Net) returns (t: Net)
    requires s.rt.W(SENT) == [0, 1] && s.rt.ready == [] && s.rt.P(0) == At(OWN) && s.rt.P(1) == At(LOOP)
    requires s.spi == Some(0) && s.rt.current == None && forall e: Event :: e != SENT ==> s.rt.W(e) == []
    ensures Legal(s, TransferDone) && t == Apply(s, TransferDone) && t.rt.ready == [Fire(SENT)] && Order(t) == [1]
    ensures Legal(t, Send(2, None))
  {
    t := Apply(s, TransferDone);
    assert forall e: Event :: t.rt.W(e) == s.rt.W(e);
    assert t.rt.P(0) == At(OWN) && t.rt.P(1) == At(LOOP) && t.rt.W(SENT) == [0, 1] && t.rt.ready == [Fire(SENT)];
    assert Order(t) == [1] by {
      hide Rt.P, Rt.W;
      LoopingJoin(t.rt, [0], [1]);
      assert [0, 1] == [0] + [1];
      assert Looping(t.rt, [0]) == [] && Looping(t.rt, [1]) == [1];
      assert Woken(t.rt, [Fire(SENT)]) == [];
    }
  }

  // The coroutine as cpx.c has it, on the runtime of coroutine.h and the field send_req of cpx_spi_t
  class Cpx {
    const rt: Runtime
    var sendReq: Option<Ctx>
    var fault: bool

    ghost function State(): Net
      reads this, rt
    {
      Net(rt.State(), sendReq, fault)
    }

    // cpx_start
    constructor (rt: Runtime)
      requires rt.State() == BOOT
      modifies rt
      ensures this.rt == rt && State() == START
    {
      this.rt := rt;
      sendReq, fault := None, false;
      new;
      rt.CoEventInit(SENT);
      rt.PiTaskPush(Fire(SENT));
    }

    // cpx_send_async
    method SendAsync(c: Ctx, done: Option<Event>)
      modifies this, rt
      ensures State() == old(State()).(rt := old(State()).rt.PushStart(c, done))
      ensures KeptBy(old(State()), Send(c, done), State())
    {
      ghost var s := State();
      rt.CoFnPushStart(c, done);
      LegalStepsKeep(s, Send(c, done), State());
    }

    // cpx_spi_send_async, as far as send_req is concerned
    method SpiSendAsync(c: Ctx)
      modifies this
      ensures sendReq == (if old(sendReq).Some? then old(sendReq) else Some(c))
      ensures fault == (old(fault) || old(sendReq).Some?)
    {
      if sendReq.Some? {
        fault := true;
      } else {
        sendReq := Some(c);
      }
    }

    // cpx_send_task, resumed at `from`. The loop is left at once or by suspending, since a done flag
    // does not change while the body runs.
    method SendTask(c: Ctx, from: Point)
      requires !fault && (from == Start || from == At(LOOP) || from == At(OWN))
      modifies this, rt
      ensures State() == old(State()).SendTask(c, from)
    {
      if from != At(OWN) {
        if SENT !in rt.isDone {
          rt.CoEventWait(SENT, c, LOOP);
          return;
        }
        rt.CoEventInit(SENT);
        SpiSendAsync(c);
        if fault {
          return;
        }
        rt.CoEventWait(SENT, c, OWN);
        return;
      }
      rt.CoReturn(c);
    }
  }
}
