// cpx_spi_task of cpx_spi.c: the coroutine that turns reverse-ready edges, send requests and receive
// requests into full-duplex SPI transactions, twelve steps each. What the transfers of a transaction
// carry is the subject of module CpxTransfer.

module CpxSpi {
  import opened Prelude
  import opened Masks
  import opened EventGroup
  import C = Coroutine
  import opened Coroutine

  const SPI: Ctx := 0
  const SPI_DONE: Event := 0

  const NINA_RTT: Mask := 1
  const SEND: Mask := 2
  const RECEIVE: Mask := 4
  const EVENTS_ALL: Mask := 7

  // The lines at which the task waits: steps 1, 2, 4, 6, 9 and 10
  const WAIT_WORK := 269
  const WAIT_RECEIVER := 274
  const WAIT_RTT := 285
  const WAIT_HEADER := 302
  const WAIT_HEAD := 323
  const WAIT_TAIL := 329

  // A request, and the task that tells its owner of its completion
  datatype Req = Req(id: nat, done: Event)

  // What the task does that others can observe: it starts a transfer, the transfer is over, and the
  // owner of a request is told.
  datatype Entry =
    | Header(send: Option<Req>, receive: Option<Req>)
    | Head(send: Option<Req>, receive: Option<Req>)
    | Tail(send: Option<Req>, receive: Option<Req>)
    | Moved
    | SendDone(req: Req)
    | ReceiveDone(req: Req)

  // A transfer starts, and is over at once if there is nothing to move.
  function Entries(e: Entry, nothing: bool): seq<Entry> { if nothing then [e, Moved] else [e] }

  function ArmAndWait(rt: Rt, nothing: bool, line: nat): Rt {
    var armed := rt.EventInit(SPI_DONE);
    (if nothing then armed.Push(Fire(SPI_DONE)) else armed).EventWait(SPI_DONE, SPI, line)
  }

  // cpx_spi_t and the static variables of the task. `inFlight`: the SPI peripheral owes a firing of
  // spi_done. `fault`: "Multiple send requests" or "Multiple receive requests".
  datatype Spi = Spi(g: Grouped, sendReq: Option<Req>, receiveReq: Option<Req>,
                     send: Option<Req>, receive: Option<Req>,
                     gap8Rtt: bool, inFlight: bool, log: seq<Entry>, fault: bool)
  {
    // cpx_spi_send_async
    function SendAsync(req: Req): Spi {
      if sendReq.Some? then this.(fault := true) else this.(sendReq := Some(req), g := g.Set(SEND))
    }

    // cpx_spi_receive_async
    function ReceiveAsync(req: Req): Spi {
      if receiveReq.Some? then this.(fault := true) else this.(receiveReq := Some(req), g := g.Set(RECEIVE))
    }

    // nina_rtt_callback
    function NinaRtt(): Spi { this.(g := g.Set(NINA_RTT)) }

    // The peripheral has finished.
    function TransferDone(): Spi {
      this.(inFlight := false, log := log + [Moved], g := g.(rt := g.rt.Push(Fire(SPI_DONE))))
    }

    // One of the three transfer functions, and the wait for it. With nothing to move, those for the
    // payload push spi_done themselves.
    function Transfer(e: Entry, nothing: bool, line: nat): Spi {
      this.(g := g.(rt := ArmAndWait(g.rt, nothing, line)), inFlight := !nothing, log := log + Entries(e, nothing))
    }

    function AwaitWork(): Spi { this.(g := g.Wait(SPI, WAIT_WORK, Union(NINA_RTT, SEND), Any)) }

    function AwaitReceiver(): Spi { this.(g := g.Wait(SPI, WAIT_RECEIVER, RECEIVE, All)) }

    function AwaitRtt(): Spi {
      var s := if Has(Both(g.group.mask, SEND), SEND) then this.(gap8Rtt := true) else this;
      s.(g := g.Wait(SPI, WAIT_RTT, NINA_RTT, All))
    }

    function StartTransaction(): Spi {
      var events := Both(g.group.mask, EVENTS_ALL);
      var s := this.(send := if Has(events, SEND) then sendReq else None,
                     receive := if Has(events, RECEIVE) then receiveReq else None);
      s.Transfer(Header(s.send, s.receive), false, WAIT_HEADER)
    }

    function TransferHead(nothing: bool): Spi {
      this.(gap8Rtt := false, g := g.Clear(NINA_RTT)).Transfer(Head(send, receive), nothing, WAIT_HEAD)
    }

    function TransferTail(nothing: bool): Spi {
      Transfer(Tail(send, receive), nothing, WAIT_TAIL)
    }

    function FinishSend(): Spi {
      if send == None then this
      else this.(sendReq := None, log := log + [SendDone(send.value)],
                 g := g.(rt := g.rt.Push(Fire(send.value.done))).Clear(SEND))
    }

    function FinishReceive(): Spi {
      if receive == None then this
      else this.(receiveReq := None, log := log + [ReceiveDone(receive.value)],
                 g := g.(rt := g.rt.Push(Fire(receive.value.done))).Clear(RECEIVE))
    }

    // The body of the task, from resume point p to the next wait
    function Body(p: Point, nothing: bool): Spi {
      if p.Start? then AwaitWork()
      else if p == At(WAIT_WORK) then AwaitReceiver()
      else if p == At(WAIT_RECEIVER) then AwaitRtt()
      else if p == At(WAIT_RTT) then StartTransaction()
      else if p == At(WAIT_HEADER) then TransferHead(nothing)
      else if p == At(WAIT_HEAD) then TransferTail(nothing)
      else if p == At(WAIT_TAIL) then FinishSend().FinishReceive().AwaitWork()
      else this.(fault := true)
    }

    // The scheduler takes one task. What other coroutines do is left to their own actions.
    function Turn(nothing: bool): Spi
      requires g.rt.ready != []
    {
      match g.rt.ready[0]
      case Fire(_) => this.(g := g.(rt := g.rt.Dispatch()))
      case Resume(c) =>
        if c != SPI then this.(g := g.(rt := g.rt.(ready := g.rt.ready[1..])))
        else if g.rt.P(SPI).Running? || g.rt.P(SPI).Done? then this.(fault := true)
        else this.(g := g.(rt := g.rt.Dispatch())).Body(g.rt.P(SPI), nothing)
    }
  }

  // cpx_spi_init and cpx_spi_start
  const STARTED := Spi(Grouped(NEW, BOOT.PushStart(SPI, None), false), None, None, None, None, false, false, [], false)

  // The scheduler as the task sees it: how often it and spi_done are queued, its resume point, and
  // the waiters of spi_done
  datatype Local = Local(queued: nat, firing: nat, point: Point, waiting: seq<Ctx>, fired: bool)

  function Count(tasks: seq<Task>, t: Task): nat { multiset(tasks)[t] }

  function View(s: Rt): Local {
    Local(Count(s.ready, Resume(SPI)), Count(s.ready, Fire(SPI_DONE)), s.P(SPI), s.W(SPI_DONE), SPI_DONE in s.isDone)
  }

  ghost predicate WaitsOnlyForSpi(s: Rt) {
    forall e: Event :: e != SPI_DONE ==> SPI !in s.W(e)
  }

  datatype Action =
    | Send(req: Req)
    | Receive(req: Req)
    | RttEdge
    | TransferEnds
    | TakeTask(nothing: bool)
    | Others(rt: Rt)

  // Users have one request of a kind in progress; the rest of the program has tasks, events and
  // coroutines of its own.
  ghost predicate Legal(s: Spi, a: Action) {
    match a
    case Send(r) => s.sendReq == None && r.done != SPI_DONE
    case Receive(r) => s.receiveReq == None && r.done != SPI_DONE
    case RttEdge => true
    case TransferEnds => s.inFlight
    case TakeTask(_) => s.g.rt.ready != []
    case Others(t) => View(t) == View(s.g.rt) && WaitsOnlyForSpi(t) && t.fault == s.g.rt.fault
  }

  ghost function Apply(s: Spi, a: Action): Spi
    requires Legal(s, a)
  {
    match a
    case Send(r) => s.SendAsync(r)
    case Receive(r) => s.ReceiveAsync(r)
    case RttEdge => s.NinaRtt()
    case TransferEnds => s.TransferDone()
    case TakeTask(nothing) => s.Turn(nothing)
    case Others(t) => s.(g := s.g.(rt := t))
  }

  // The order of a transaction, as a reader of the log checks it: the blocks of one pair of requests in
  // turn, each over before the next, then word to the sender, if there is one, then to the receiver.
  datatype Expect =
    | NextHeader
    | HeaderMoves(send: Option<Req>, receive: Option<Req>)
    | NextHead(send: Option<Req>, receive: Option<Req>)
    | HeadMoves(send: Option<Req>, receive: Option<Req>)
    | NextTail(send: Option<Req>, receive: Option<Req>)
    | TailMoves(send: Option<Req>, receive: Option<Req>)
    | NextDone(send: Option<Req>, receive: Option<Req>)
    | Broken

  function Check(x: Expect, e: Entry): Expect {
    match x
    case NextHeader => if e.Header? && e.receive.Some? then HeaderMoves(e.send, e.receive) else Broken
    case HeaderMoves(s, r) => if e == Moved then NextHead(s, r) else Broken
    case NextHead(s, r) => if e == Head(s, r) then HeadMoves(s, r) else Broken
    case HeadMoves(s, r) => if e == Moved then NextTail(s, r) else Broken
    case NextTail(s, r) => if e == Tail(s, r) then TailMoves(s, r) else Broken
    case TailMoves(s, r) => if e == Moved then NextDone(s, r) else Broken
    case NextDone(Some(q), r) => if e == SendDone(q) then NextDone(None, r) else Broken
    case NextDone(None, Some(q)) => if e == ReceiveDone(q) then NextHeader else Broken
    case _ => Broken
  }

  function CheckAll(log: seq<Entry>): Expect {
    if log == [] then NextHeader else Check(CheckAll(log[..|log| - 1]), log[|log| - 1])
  }

  lemma CheckNext(log: seq<Entry>, e: Entry)
    ensures CheckAll(log + [e]) == Check(CheckAll(log), e)
  {
    assert (log + [e])[..|log|] == log;
  }

  // Event bits and request fields agree, and the coroutine is where it should be.

  predicate BitsMatch(s: Spi) {
    && Has(s.g.group.mask, SEND) == s.sendReq.Some? && Has(s.g.group.mask, RECEIVE) == s.receiveReq.Some?
    && (s.sendReq.Some? ==> s.sendReq.value.done != SPI_DONE)
    && (s.receiveReq.Some? ==> s.receiveReq.value.done != SPI_DONE)
  }

  // Waiting for event bits: asleep with the condition false, or queued with it true
  predicate AtGroup(s: Spi, v: Local, m: Mask, mode: Mode) {
    && !s.inFlight && v.firing == 0 && v.waiting == []
    && if s.g.group.waitCtx.Some? then
         && s.g.group.waitCtx == Some(SPI) && s.g.group.waitMask == m && s.g.group.waitMode == mode
         && v.queued == 0 && !s.g.group.Test(m, mode)
       else
         v.queued == 1 && s.g.group.Test(m, mode)
  }

  // Waiting for spi_done: it is owed by the peripheral, queued, or it has woken the task.
  predicate AtTransfer(s: Spi, v: Local) {
    && s.g.group.waitCtx == None
    && v.queued + v.firing + (if s.inFlight then 1 else 0) == 1
    && if v.queued == 1 then v.waiting == [] else v.waiting == [SPI] && !v.fired
  }

  // The requests being served are those still in send_req and receive_req.
  predicate Serving(s: Spi) {
    s.receive.Some? && s.receiveReq == s.receive && (s.send.Some? ==> s.sendReq == s.send)
  }

  predicate Placed(s: Spi, v: Local) {
    match v.point
    case Start => s.g.group.waitCtx == None && !s.inFlight && v == Local(1, 0, Start, [], v.fired) && !s.gap8Rtt
    case At(line) =>
      if line == WAIT_WORK then
        AtGroup(s, v, Union(NINA_RTT, SEND), Any) && !s.gap8Rtt
      else if line == WAIT_RECEIVER then
        AtGroup(s, v, RECEIVE, All) && !s.gap8Rtt && s.g.group.Test(Union(NINA_RTT, SEND), Any)
      else if line == WAIT_RTT then
        AtGroup(s, v, NINA_RTT, All) && s.receiveReq.Some? && (s.gap8Rtt ==> s.sendReq.Some?)
      else if line == WAIT_HEADER then
        AtTransfer(s, v) && Serving(s) && Has(s.g.group.mask, NINA_RTT)
      else
        (line == WAIT_HEAD || line == WAIT_TAIL) && AtTransfer(s, v) && Serving(s) && !s.gap8Rtt
    case _ => false
  }

  function Expected(s: Spi, p: Point): Expect {
    if p == At(WAIT_HEADER) then (if s.inFlight then HeaderMoves(s.send, s.receive) else NextHead(s.send, s.receive))
    else if p == At(WAIT_HEAD) then (if s.inFlight then HeadMoves(s.send, s.receive) else NextTail(s.send, s.receive))
    else if p == At(WAIT_TAIL) then (if s.inFlight then TailMoves(s.send, s.receive) else NextDone(s.send, s.receive))
    else NextHeader
  }

  ghost predicate Inv(s: Spi) {
    && BitsMatch(s) && Placed(s, View(s.g.rt)) && CheckAll(s.log) == Expected(s, s.g.rt.P(SPI))
    && WaitsOnlyForSpi(s.g.rt) && !s.fault && !s.g.fault && !s.g.rt.fault
  }

  lemma CountPush(tasks: seq<Task>, t: Task, u: Task)
    ensures Count(tasks + [t], u) == Count(tasks, u) + if t == u then 1 else 0
  {
  }

  lemma CountTail(tasks: seq<Task>, u: Task)
    requires tasks != []
    ensures Count(tasks, u) == Count(tasks[1..], u) + if tasks[0] == u then 1 else 0
  {
    assert tasks == [tasks[0]] + tasks[1..];
  }

  lemma {:induction false} CountResumes(tasks: seq<Task>, cs: seq<Ctx>)
    requires SPI !in cs
    ensures Count(tasks + Resumes(cs), Resume(SPI)) == Count(tasks, Resume(SPI))
    ensures Count(tasks + Resumes(cs), Fire(SPI_DONE)) == Count(tasks, Fire(SPI_DONE))
  {
    ResumesMembers(cs);
  }

  lemma ViewPush(s: Rt, t: Task)
    ensures View(s.Push(t)) == View(s).(queued := View(s).queued + (if t == Resume(SPI) then 1 else 0),
                                        firing := View(s).firing + (if t == Fire(SPI_DONE) then 1 else 0))
  {
    hide Count;
    CountPush(s.ready, t, Resume(SPI));
    CountPush(s.ready, t, Fire(SPI_DONE));
  }

  // spi_done fires with the task waiting on it.
  lemma ViewFire(s: Rt)
    requires s.ready != [] && s.ready[0] == Fire(SPI_DONE) && s.W(SPI_DONE) == [SPI]
    ensures View(s).firing > 0
    ensures View(s.Dispatch()) == View(s).(queued := View(s).queued + 1, firing := View(s).firing - 1,
      waiting := [], fired := true)
  {
    hide Count;
    CountTail(s.ready, Resume(SPI));
    CountTail(s.ready, Fire(SPI_DONE));
    assert s.Dispatch().ready == s.ready[1..] + [Resume(SPI)];
    CountPush(s.ready[1..], Resume(SPI), Resume(SPI));
    CountPush(s.ready[1..], Resume(SPI), Fire(SPI_DONE));
  }

  lemma ViewFireOther(s: Rt, e: Event)
    requires s.ready != [] && s.ready[0] == Fire(e) && e != SPI_DONE && SPI !in s.W(e)
    ensures View(s.Dispatch()) == View(s)
  {
    hide Count;
    CountTail(s.ready, Resume(SPI));
    CountTail(s.ready, Fire(SPI_DONE));
    CountResumes(s.ready[1..], s.W(e));
    assert s.Dispatch().ready == s.ready[1..] + Resumes(s.W(e));
    assert s.Dispatch().W(SPI_DONE) == s.W(SPI_DONE);
  }

  lemma ViewResumeOther(s: Rt, c: Ctx)
    requires s.ready != [] && s.ready[0] == Resume(c) && c != SPI
    ensures View(s.(ready := s.ready[1..])) == View(s)
  {
    hide Count;
    CountTail(s.ready, Resume(SPI));
    CountTail(s.ready, Fire(SPI_DONE));
  }

  lemma ViewEnter(s: Rt)
    requires s.ready != [] && s.ready[0] == Resume(SPI) && (s.P(SPI).Start? || s.P(SPI).At?)
    ensures View(s).queued > 0
    ensures View(s.Dispatch()) == View(s).(queued := View(s).queued - 1, point := Running)
    ensures s.Dispatch().current == Some(SPI) && s.Dispatch().waiting == s.waiting && !s.fault ==> !s.Dispatch().fault
  {
    hide Count;
    CountTail(s.ready, Resume(SPI));
    CountTail(s.ready, Fire(SPI_DONE));
  }

  lemma StartedIsSafe()
    ensures Inv(STARTED)
  {
    EmptyHas(SEND);
    EmptyHas(RECEIVE);
    assert STARTED.g.rt.ready == [Resume(SPI)];
  }

  // What the conditions of the three group waits mean
  lemma Conditions(g: Group)
    ensures g.Test(Union(NINA_RTT, SEND), Any) == (Has(g.mask, NINA_RTT) || Has(g.mask, SEND))
    ensures g.Test(RECEIVE, All) == Has(g.mask, RECEIVE) && g.Test(NINA_RTT, All) == Has(g.mask, NINA_RTT)
  {
    assert Union(NINA_RTT, SEND) == 3;
    hide Union, Both, Has;
    BothOfTwo(g.mask);
    BothIsBit(g.mask, RECEIVE);
    BothIsBit(g.mask, NINA_RTT);
  }

  // A request or an edge arrives: the task is woken if that is what it sleeps on.
  lemma SetKeepsAtGroup(s: Spi, b: Mask, m: Mask, mode: Mode)
    requires AtGroup(s, View(s.g.rt), m, mode)
    ensures var t := s.(g := s.g.Set(b)); AtGroup(t, View(t.g.rt), m, mode)
  {
    hide Union, Both, View;
    UnionGrows(s.g.group.mask, b, m);
    ViewPush(s.g.rt, Resume(SPI));
  }

  lemma SetFrame(s: Spi, b: Mask)
    requires IsBit(b)
    ensures var t := s.g.Set(b);
            && t.fault == s.g.fault && t.rt.fault == s.g.rt.fault && t.rt.point == s.g.rt.point
               && t.rt.waiting == s.g.rt.waiting
            && (s.g.group.waitCtx == None ==> t.rt == s.g.rt && t.group.waitCtx == None)
    ensures var m, n := s.g.group.mask, s.g.Set(b).group.mask;
            && Has(n, NINA_RTT) == (Has(m, NINA_RTT) || b == NINA_RTT)
            && Has(n, SEND) == (Has(m, SEND) || b == SEND)
            && Has(n, RECEIVE) == (Has(m, RECEIVE) || b == RECEIVE)
  {
    assert IsBit(NINA_RTT) && IsBit(SEND) && IsBit(RECEIVE);
    hide Union, Both, Has, IsBit;
    UnionHas(s.g.group.mask, b, NINA_RTT);
    UnionHas(s.g.group.mask, b, SEND);
    UnionHas(s.g.group.mask, b, RECEIVE);
  }

  lemma SetKeepsPlaced(s: Spi, b: Mask)
    requires Placed(s, View(s.g.rt)) && IsBit(b)
    ensures var t := s.(g := s.g.Set(b)); Placed(t, View(t.g.rt))
  {
    hide Union, Both, Has, IsBit, AtGroup, View;
    var t := s.(g := s.g.Set(b));
    SetFrame(s, b);
    WhereIs(s.g.rt);
    WhereIs(t.g.rt);
    var p := s.g.rt.P(SPI);
    if p == At(WAIT_WORK) {
      SetKeepsAtGroup(s, b, Union(NINA_RTT, SEND), Any);
    } else if p == At(WAIT_RECEIVER) {
      SetKeepsAtGroup(s, b, RECEIVE, All);
      UnionGrows(s.g.group.mask, b, Union(NINA_RTT, SEND));
    } else if p == At(WAIT_RTT) {
      SetKeepsAtGroup(s, b, NINA_RTT, All);
    } else {
      PlacedElsewhere(s, View(s.g.rt));
    }
  }

  lemma PlacedElsewhere(s: Spi, v: Local)
    requires Placed(s, v) && v.point != At(WAIT_WORK) && v.point != At(WAIT_RECEIVER) && v.point != At(WAIT_RTT)
    ensures s.g.group.waitCtx == None
  {
  }

  lemma WhereIs(s: Rt)
    ensures View(s).point == s.P(SPI) && View(s).waiting == s.W(SPI_DONE)
  {
  }

  // A new request does not disturb the coroutine.
  lemma MoreRequests(s: Spi, t: Spi, v: Local)
    requires Placed(s, v) && t == s.(sendReq := t.sendReq, receiveReq := t.receiveReq)
    requires s.sendReq == t.sendReq || s.sendReq == None
    requires s.receiveReq == t.receiveReq || s.receiveReq == None
    ensures Placed(t, v)
  {
    hide Union, Both, Has;
  }

  lemma RequestKeepsInv(s: Spi, a: Action)
    requires Inv(s) && Legal(s, a) && (a.Send? || a.Receive? || a.RttEdge?)
    ensures Inv(Apply(s, a))
  {
    var b := if a.Send? then SEND else if a.Receive? then RECEIVE else NINA_RTT;
    assert IsBit(b);
    hide Union, Both, Has, IsBit, View, CheckAll, Placed, Grouped.Set, WaitsOnlyForSpi, Rt.P, Rt.W;
    var t := s.(g := s.g.Set(b));
    SetKeepsPlaced(s, b);
    SetFrame(s, b);
    MoreRequests(t, Apply(s, a), View(t.g.rt));
    SamePoint(s.g.rt, t.g.rt);
    SameWaiters(s.g.rt, t.g.rt);
  }

  lemma SamePoint(s: Rt, t: Rt)
    requires t.point == s.point
    ensures t.P(SPI) == s.P(SPI)
  {
  }

  lemma SameWaiters(s: Rt, t: Rt)
    requires WaitsOnlyForSpi(s) && t.waiting == s.waiting
    ensures WaitsOnlyForSpi(t)
  {
    assert forall e: Event :: t.W(e) == s.W(e);
  }

  lemma TransferEndsKeepsInv(s: Spi)
    requires Inv(s) && s.inFlight
    ensures Inv(s.TransferDone())
  {
    hide Union, Both, Has, View, CheckAll;
    WhereIs(s.g.rt);
    ViewPush(s.g.rt, Fire(SPI_DONE));
    CheckNext(s.log, Moved);
    assert forall e: Event :: s.TransferDone().g.rt.W(e) == s.g.rt.W(e);
  }

  lemma FireKeepsInv(s: Spi, nothing: bool)
    requires Inv(s) && s.g.rt.ready != [] && s.g.rt.ready[0].Fire?
    ensures Inv(s.Turn(nothing))
  {
    hide Union, Both, Has, View, CheckAll;
    var e := s.g.rt.ready[0].event;
    var t := s.Turn(nothing).g.rt;
    WhereIs(s.g.rt);
    WhereIs(t);
    assert forall f: Event :: t.W(f) == if f == e then [] else s.g.rt.W(f);
    if e == SPI_DONE {
      FiresForTask(s);
      ViewFire(s.g.rt);
    } else {
      ViewFireOther(s.g.rt, e);
    }
  }

  // spi_done is queued only while the task waits on it.
  lemma FiresForTask(s: Spi)
    requires Inv(s) && s.g.rt.ready != [] && s.g.rt.ready[0] == Fire(SPI_DONE)
    ensures s.g.rt.W(SPI_DONE) == [SPI]
  {
    hide Union, Both, Has, CheckAll;
    CountTail(s.g.rt.ready, Fire(SPI_DONE));
  }

  lemma OtherResumeKeepsInv(s: Spi, nothing: bool)
    requires Inv(s) && s.g.rt.ready != [] && s.g.rt.ready[0].Resume? && s.g.rt.ready[0] != Resume(SPI)
    ensures Inv(s.Turn(nothing))
  {
    hide Union, Both, Has, View, CheckAll;
    ViewResumeOther(s.g.rt, s.g.rt.ready[0].ctx);
    assert forall e: Event :: s.Turn(nothing).g.rt.W(e) == s.g.rt.W(e);
  }

  // The task at the beginning of its body
  ghost predicate Entered(s: Spi, v: Local) {
    v.queued == 0 && v.firing == 0 && v.waiting == [] && v.point.Running? && s.g.group.waitCtx == None && !s.inFlight
    && WaitsOnlyForSpi(s.g.rt) && !s.fault && !s.g.fault && !s.g.rt.fault && BitsMatch(s)
  }

  lemma ViewSuspended(s: Rt, line: nat)
    ensures View(s.(point := s.point[SPI := At(line)], current := None)) == View(s).(point := At(line))
  {
    hide Count;
  }

  // co_event_group_wait at the end of a body
  lemma GroupWaitPlaces(s: Spi, m: Mask, mode: Mode, line: nat)
    requires Entered(s, View(s.g.rt))
    ensures var t := s.(g := s.g.Wait(SPI, line, m, mode));
            && AtGroup(t, View(t.g.rt), m, mode) && View(t.g.rt).point == At(line) && BitsMatch(t)
            && t.g.group.mask == s.g.group.mask && WaitsOnlyForSpi(t.g.rt) && !t.g.fault && !t.g.rt.fault
  {
    hide Union, Both, Has, View;
    var t := s.(g := s.g.Wait(SPI, line, m, mode));
    var u := s.g.rt.(point := s.g.rt.point[SPI := At(line)], current := None);
    ViewSuspended(s.g.rt, line);
    ViewPush(u, Resume(SPI));
    assert forall e: Event :: t.g.rt.W(e) == s.g.rt.W(e);
  }

  lemma ArmedView(s: Rt, nothing: bool, line: nat)
    ensures View(ArmAndWait(s, nothing, line))
         == View(s).(firing := View(s).firing + (if nothing then 1 else 0), point := At(line), waiting := [SPI],
                     fired := false)
  {
    hide Count;
    var r := s.EventInit(SPI_DONE);
    assert View(r) == View(s).(waiting := [], fired := false);
    var q := if nothing then r.Push(Fire(SPI_DONE)) else r;
    ViewPush(r, Fire(SPI_DONE));
    assert View(q.EventWait(SPI_DONE, SPI, line)) == View(q).(point := At(line), waiting := [SPI]);
  }

  lemma ArmedWaits(s: Rt, nothing: bool, line: nat)
    requires WaitsOnlyForSpi(s)
    ensures WaitsOnlyForSpi(ArmAndWait(s, nothing, line)) && ArmAndWait(s, nothing, line).fault == s.fault
  {
    assert forall f: Event :: f != SPI_DONE ==> ArmAndWait(s, nothing, line).W(f) == s.W(f);
  }

  lemma EntriesAreChecked(log: seq<Entry>, e: Entry, nothing: bool)
    ensures CheckAll(log + Entries(e, nothing)) ==
            if nothing then Check(Check(CheckAll(log), e), Moved) else Check(CheckAll(log), e)
  {
    CheckNext(log, e);
    CheckNext(log + [e], Moved);
    assert log + [e, Moved] == log + [e] + [Moved];
  }

  // A transfer and the wait for it
  lemma TransferPlaces(s: Spi, e: Entry, nothing: bool, line: nat)
    requires Entered(s, View(s.g.rt))
    ensures var t := s.Transfer(e, nothing, line);
            && AtTransfer(t, View(t.g.rt)) && View(t.g.rt).point == At(line) && BitsMatch(t)
            && WaitsOnlyForSpi(t.g.rt) && !t.fault && !t.g.fault && !t.g.rt.fault
            && t == s.(g := s.g.(rt := t.g.rt), inFlight := !nothing, log := t.log)
            && CheckAll(t.log) == if nothing then Check(Check(CheckAll(s.log), e), Moved) else Check(CheckAll(s.log), e)
  {
    hide Has, ArmAndWait, View, CheckAll, Check, WaitsOnlyForSpi;
    ArmedView(s.g.rt, nothing, line);
    ArmedWaits(s.g.rt, nothing, line);
    EntriesAreChecked(s.log, e, nothing);
  }

  // The task is dispatched: what its body may rely on, by its resume point
  lemma Entering(s: Spi)
    requires Inv(s) && s.g.rt.ready != [] && s.g.rt.ready[0] == Resume(SPI)
    ensures !s.g.rt.Dispatch().fault && Entered(s.(g := s.g.(rt := s.g.rt.Dispatch())), View(s.g.rt.Dispatch()))
    ensures var p, m := s.g.rt.P(SPI), s.g.group.mask;
            && (p.Start? || p.At?) && CheckAll(s.log) == Expected(s, p) && !s.inFlight
            && (p.Start? ==> !s.gap8Rtt)
            && (p == At(WAIT_WORK) ==> (Has(m, NINA_RTT) || Has(m, SEND)) && !s.gap8Rtt)
            && (p == At(WAIT_RECEIVER) ==> Has(m, RECEIVE) && !s.gap8Rtt)
            && (p == At(WAIT_RTT) ==> Has(m, NINA_RTT) && Has(m, RECEIVE))
            && (p == At(WAIT_HEADER) ==> Serving(s) && Has(m, NINA_RTT))
            && (p == At(WAIT_HEAD) || p == At(WAIT_TAIL) ==> Serving(s) && !s.gap8Rtt)
            && (p.Start? || p.line in {WAIT_WORK, WAIT_RECEIVER, WAIT_RTT, WAIT_HEADER, WAIT_HEAD, WAIT_TAIL})
  {
    hide Union, Both, Has, View, CheckAll;
    WhereIs(s.g.rt);
    Conditions(s.g.group);
    PlacedMeansPoint(s, View(s.g.rt));
    ViewEnter(s.g.rt);
    assert forall e: Event :: s.g.rt.Dispatch().W(e) == s.g.rt.W(e);
  }

  lemma PlacedMeansPoint(s: Spi, v: Local)
    requires Placed(s, v)
    ensures v.point.Start? || v.point.At?
  {
  }

  // The bodies, each from its resume point to its next wait

  lemma AwaitWorkKeepsInv(s: Spi)
    requires Entered(s, View(s.g.rt)) && CheckAll(s.log) == NextHeader && !s.gap8Rtt
    ensures Inv(s.AwaitWork())
  {
    hide Union, Both, Has, CheckAll, View;
    GroupWaitPlaces(s, Union(NINA_RTT, SEND), Any, WAIT_WORK);
    WhereIs(s.AwaitWork().g.rt);
  }

  lemma AwaitReceiverKeepsInv(s: Spi)
    requires Entered(s, View(s.g.rt)) && CheckAll(s.log) == NextHeader && !s.gap8Rtt
    requires Has(s.g.group.mask, NINA_RTT) || Has(s.g.group.mask, SEND)
    ensures Inv(s.AwaitReceiver())
  {
    hide Union, Both, Has, CheckAll, View;
    GroupWaitPlaces(s, RECEIVE, All, WAIT_RECEIVER);
    WhereIs(s.AwaitReceiver().g.rt);
    Conditions(s.AwaitReceiver().g.group);
  }

  lemma AwaitRttKeepsInv(s: Spi)
    requires Entered(s, View(s.g.rt)) && CheckAll(s.log) == NextHeader && !s.gap8Rtt && Has(s.g.group.mask, RECEIVE)
    ensures Inv(s.AwaitRtt())
  {
    var m := s.g.group.mask;
    assert Has(Both(m, SEND), SEND) == Has(m, SEND) by { BothIsBit(m, SEND); }
    hide Union, Both, Has, CheckAll, View;
    var t := if Has(m, SEND) then s.(gap8Rtt := true) else s;
    GroupWaitPlaces(t, NINA_RTT, All, WAIT_RTT);
    WhereIs(s.AwaitRtt().g.rt);
  }

  lemma StartTransactionKeepsInv(s: Spi)
    requires Entered(s, View(s.g.rt)) && CheckAll(s.log) == NextHeader
    requires Has(s.g.group.mask, NINA_RTT) && Has(s.g.group.mask, RECEIVE)
    ensures Inv(s.StartTransaction())
    ensures s.StartTransaction().log == s.log + [Header(s.sendReq, s.receiveReq)]
  {
    var m := s.g.group.mask;
    assert IsBit(SEND) && IsBit(RECEIVE) && Has(EVENTS_ALL, SEND) && Has(EVENTS_ALL, RECEIVE);
    hide Union, Both, Has, CheckAll, View;
    BothHas(m, EVENTS_ALL, SEND);
    BothHas(m, EVENTS_ALL, RECEIVE);
    var t := s.(send := s.sendReq, receive := s.receiveReq);
    TransferPlaces(t, Header(t.send, t.receive), false, WAIT_HEADER);
    assert s.StartTransaction() == t.Transfer(Header(t.send, t.receive), false, WAIT_HEADER);
    WhereIs(s.StartTransaction().g.rt);
  }

  lemma RearmKeeps(s: Spi)
    requires Entered(s, View(s.g.rt)) && Serving(s)
    ensures var t := s.(gap8Rtt := false, g := s.g.Clear(NINA_RTT)); Entered(t, View(t.g.rt)) && Serving(t)
  {
    var m := s.g.group.mask;
    assert IsBit(NINA_RTT) && IsBit(SEND) && IsBit(RECEIVE);
    hide Without, Has, View, IsBit, WaitsOnlyForSpi;
    WithoutHas(m, NINA_RTT, SEND);
    WithoutHas(m, NINA_RTT, RECEIVE);
  }

  lemma TransferHeadKeepsInv(s: Spi, nothing: bool)
    requires Entered(s, View(s.g.rt)) && Serving(s) && CheckAll(s.log) == NextHead(s.send, s.receive)
    ensures Inv(s.TransferHead(nothing))
  {
    hide BitsMatch, AtGroup, Without, CheckAll, View, Spi.Transfer, WaitsOnlyForSpi, Has;
    RearmKeeps(s);
    TransferPlaces(s.(gap8Rtt := false, g := s.g.Clear(NINA_RTT)), Head(s.send, s.receive), nothing, WAIT_HEAD);
    WhereIs(s.TransferHead(nothing).g.rt);
  }

  lemma TransferTailKeepsInv(s: Spi, nothing: bool)
    requires Entered(s, View(s.g.rt)) && Serving(s) && CheckAll(s.log) == NextTail(s.send, s.receive) && !s.gap8Rtt
    ensures Inv(s.TransferTail(nothing))
  {
    hide Union, Both, Has, CheckAll, View, AtGroup, AtTransfer, Spi.Transfer, WaitsOnlyForSpi, Rt.P;
    TransferPlaces(s, Tail(s.send, s.receive), nothing, WAIT_TAIL);
    WhereIs(s.TransferTail(nothing).g.rt);
  }

  lemma PushWaits(s: Rt, t: Task)
    requires WaitsOnlyForSpi(s)
    ensures WaitsOnlyForSpi(s.Push(t))
  {
    assert forall e: Event :: s.Push(t).W(e) == s.W(e);
  }

  lemma FinishSendKeeps(s: Spi)
    requires Entered(s, View(s.g.rt)) && Serving(s) && CheckAll(s.log) == NextDone(s.send, s.receive)
    ensures var t := s.FinishSend();
            Entered(t, View(t.g.rt)) && t.receiveReq == s.receiveReq && CheckAll(t.log) == NextDone(None, s.receive)
    ensures Has(s.FinishSend().g.group.mask, NINA_RTT) == Has(s.g.group.mask, NINA_RTT)
  {
    if s.send.Some? {
      assert IsBit(NINA_RTT) && IsBit(SEND) && IsBit(RECEIVE);
      hide Without, Has, CheckAll, View, WaitsOnlyForSpi, Rt.W, Rt.P, IsBit;
      WithoutHas(s.g.group.mask, SEND, SEND);
      WithoutHas(s.g.group.mask, SEND, RECEIVE);
      WithoutHas(s.g.group.mask, SEND, NINA_RTT);
      ViewPush(s.g.rt, Fire(s.send.value.done));
      CheckNext(s.log, SendDone(s.send.value));
      PushWaits(s.g.rt, Fire(s.send.value.done));
    }
  }

  lemma FinishReceiveKeeps(s: Spi)
    requires Entered(s, View(s.g.rt)) && s.receive.Some? && s.receiveReq == s.receive
    requires CheckAll(s.log) == NextDone(None, s.receive)
    ensures var t := s.FinishReceive(); Entered(t, View(t.g.rt)) && CheckAll(t.log) == NextHeader
    ensures Has(s.FinishReceive().g.group.mask, NINA_RTT) == Has(s.g.group.mask, NINA_RTT)
  {
    assert IsBit(NINA_RTT) && IsBit(SEND) && IsBit(RECEIVE);
    hide Without, Has, CheckAll, View, WaitsOnlyForSpi, Rt.W, Rt.P, IsBit;
    WithoutHas(s.g.group.mask, RECEIVE, SEND);
    WithoutHas(s.g.group.mask, RECEIVE, RECEIVE);
    WithoutHas(s.g.group.mask, RECEIVE, NINA_RTT);
    ViewPush(s.g.rt, Fire(s.receive.value.done));
    CheckNext(s.log, ReceiveDone(s.receive.value));
    PushWaits(s.g.rt, Fire(s.receive.value.done));
  }

  lemma FinishKeepsInv(s: Spi)
    requires Entered(s, View(s.g.rt)) && Serving(s) && CheckAll(s.log) == NextDone(s.send, s.receive) && !s.gap8Rtt
    ensures Inv(s.FinishSend().FinishReceive().AwaitWork())
  {
    hide Without, Has, CheckAll, View, Entered;
    FinishSendKeeps(s);
    FinishReceiveKeeps(s.FinishSend());
    AwaitWorkKeepsInv(s.FinishSend().FinishReceive());
  }

  lemma TaskKeepsInv(s: Spi, nothing: bool)
    requires Inv(s) && s.g.rt.ready != [] && s.g.rt.ready[0] == Resume(SPI)
    ensures Inv(s.Turn(nothing))
    ensures s.g.rt.P(SPI) == At(WAIT_RTT) ==> s.Turn(nothing).log == s.log + [Header(s.sendReq, s.receiveReq)]
  {
    Entering(s);
    var t := s.(g := s.g.(rt := s.g.rt.Dispatch()));
    hide Inv, Without, Both, Union, Has, CheckAll, View, Entered;
    var p := s.g.rt.P(SPI);
    if p.Start? {
      AwaitWorkKeepsInv(t);
    } else if p == At(WAIT_WORK) {
      AwaitReceiverKeepsInv(t);
    } else if p == At(WAIT_RECEIVER) {
      AwaitRttKeepsInv(t);
    } else if p == At(WAIT_RTT) {
      StartTransactionKeepsInv(t);
    } else if p == At(WAIT_HEADER) {
      TransferHeadKeepsInv(t, nothing);
    } else if p == At(WAIT_HEAD) {
      TransferTailKeepsInv(t, nothing);
    } else {
      FinishKeepsInv(t);
    }
  }

  lemma OthersKeepInv(s: Spi, t: Rt)
    requires Inv(s) && Legal(s, Others(t))
    ensures Inv(Apply(s, Others(t)))
  {
    hide Without, Both, Union, Has, CheckAll, View;
    WhereIs(s.g.rt);
    WhereIs(t);
  }

  // What every step keeps. In particular no assertion of the code is reached, and a transfer starts
  // with both the peer and a receiver ready, for the requests that are there at that moment.
  lemma StepKeepsInv(s: Spi, a: Action)
    requires Inv(s) && Legal(s, a)
    ensures Inv(Apply(s, a))
  {
    hide Inv, View;
    match a {
      case Send(_) => RequestKeepsInv(s, a);
      case Receive(_) => RequestKeepsInv(s, a);
      case RttEdge => RequestKeepsInv(s, a);
      case TransferEnds => TransferEndsKeepsInv(s);
      case Others(t) => OthersKeepInv(s, t);
      case TakeTask(nothing) =>
        if s.g.rt.ready[0].Fire? {
          FireKeepsInv(s, nothing);
        } else if s.g.rt.ready[0] == Resume(SPI) {
          TaskKeepsInv(s, nothing);
        } else {
          OtherResumeKeepsInv(s, nothing);
        }
    }
  }

  ghost predicate LegalRun(s: Spi, actions: seq<Action>)
    decreases |actions|
  {
    actions == [] || (Legal(s, actions[0]) && LegalRun(Apply(s, actions[0]), actions[1..]))
  }

  ghost function RunAll(s: Spi, actions: seq<Action>): Spi
    requires LegalRun(s, actions)
    decreases |actions|
  {
    if actions == [] then s else RunAll(Apply(s, actions[0]), actions[1..])
  }

  lemma {:induction false} EveryRunIsSafe(s: Spi, actions: seq<Action>)
    requires Inv(s) && LegalRun(s, actions)
    ensures Inv(RunAll(s, actions))
    decreases |actions|
  {
    hide Inv, Legal;
    if actions != [] {
      StepKeepsInv(s, actions[0]);
      EveryRunIsSafe(Apply(s, actions[0]), actions[1..]);
    }
  }

  ghost predicate BlocksAt(log: seq<Entry>, i: int, s: Option<Req>, r: Option<Req>) {
    && 0 <= i <= |log| - 6
    && log[i] == Header(s, r) && log[i + 2] == Head(s, r) && log[i + 4] == Tail(s, r)
    && log[i + 1] == log[i + 3] == log[i + 5] == Moved
  }

  // A log that checks: word of completion comes right after the blocks of that very request, when all
  // three have moved.
  lemma {:induction false} DoneFollowsItsBlocks(log: seq<Entry>, i: nat)
    requires CheckAll(log) != Broken && i < |log| && (log[i].SendDone? || log[i].ReceiveDone?)
    ensures log[i].SendDone? ==>
      i >= 6 && log[i - 6].Header? && BlocksAt(log, i - 6, Some(log[i].req), log[i - 6].receive)
    ensures log[i].ReceiveDone? ==>
      || BlocksAt(log, i - 6, None, Some(log[i].req))
      || (i > 0 && log[i - 1].SendDone? && BlocksAt(log, i - 7, Some(log[i - 1].req), Some(log[i].req)))
    decreases |log|
  {
    var before := log[..|log| - 1];
    if i < |log| - 1 {
      DoneFollowsItsBlocks(before, i);
    } else {
      LastBlocks(before);
    }
  }

  // How much of a transaction is in the log when x is expected
  function Length(x: Expect): nat {
    match x
    case HeaderMoves(_, _) => 1
    case NextHead(_, _) => 2
    case HeadMoves(_, _) => 3
    case NextTail(_, _) => 4
    case TailMoves(_, _) => 5
    case _ => 0
  }

  ghost predicate StartedAt(log: seq<Entry>, i: int, x: Expect)
    requires !x.Broken? && !x.NextHeader?
  {
    && 0 <= i && i + Length(x) <= |log|
    && (Length(x) > 0 ==> log[i] == Header(x.send, x.receive)) && (Length(x) > 1 ==> log[i + 1] == Moved)
    && (Length(x) > 2 ==> log[i + 2] == Head(x.send, x.receive)) && (Length(x) > 3 ==> log[i + 3] == Moved)
    && (Length(x) > 4 ==> log[i + 4] == Tail(x.send, x.receive))
  }

  // What the end of a log must be when something is still expected
  lemma {:induction false} LastBlocks(log: seq<Entry>)
    ensures var n, x := |log|, CheckAll(log);
            && (x.HeaderMoves? || x.NextHead? || x.HeadMoves? || x.NextTail? || x.TailMoves? ==>
                  StartedAt(log, n - Length(x), x))
            && (x.NextDone? && x.send.Some? ==> BlocksAt(log, n - 6, x.send, x.receive))
            && (x.NextDone? && x.send == None ==>
                  || BlocksAt(log, n - 6, None, x.receive)
                  || (n > 0 && log[n - 1].SendDone? && BlocksAt(log, n - 7, Some(log[n - 1].req), x.receive)))
    decreases |log|
  {
    var n := |log|;
    if n > 0 {
      var b := log[..n - 1];
      LastBlocks(b);
      var x := CheckAll(b);
      assert CheckAll(log) == Check(x, log[n - 1]);
      hide CheckAll;
      if x.NextDone? && x.send.Some? {
        assert BlocksAt(log, n - 7, x.send, x.receive);
      }
    }
  }

  // Which sends and which receives were completed, in order
  function SendsDone(log: seq<Entry>): seq<Req> {
    if log == [] then [] else (if log[0].SendDone? then [log[0].req] else []) + SendsDone(log[1..])
  }

  function ReceivesDone(log: seq<Entry>): seq<Req> {
    if log == [] then [] else (if log[0].ReceiveDone? then [log[0].req] else []) + ReceivesDone(log[1..])
  }

  lemma {:induction false} SendsDoneJoin(a: seq<Entry>, b: seq<Entry>)
    ensures SendsDone(a + b) == SendsDone(a) + SendsDone(b)
    decreases |a|
  {
    if a == [] {
      assert a + b == b;
    } else {
      TailOfConcat(a, b);
      SendsDoneJoin(a[1..], b);
      ConcatAssociates(if a[0].SendDone? then [a[0].req] else [], SendsDone(a[1..]), SendsDone(b));
    }
  }

  lemma {:induction false} ReceivesDoneJoin(a: seq<Entry>, b: seq<Entry>)
    ensures ReceivesDone(a + b) == ReceivesDone(a) + ReceivesDone(b)
    decreases |a|
  {
    if a == [] {
      assert a + b == b;
    } else {
      TailOfConcat(a, b);
      ReceivesDoneJoin(a[1..], b);
      ConcatAssociates(if a[0].ReceiveDone? then [a[0].req] else [], ReceivesDone(a[1..]), ReceivesDone(b));
    }
  }

  function Sends(actions: seq<Action>): seq<Req> {
    if actions == [] then [] else (if actions[0].Send? then [actions[0].req] else []) + Sends(actions[1..])
  }

  function Receives(actions: seq<Action>): seq<Req> {
    if actions == [] then [] else (if actions[0].Receive? then [actions[0].req] else []) + Receives(actions[1..])
  }

  function Pending(r: Option<Req>): seq<Req> { if r == None then [] else [r.value] }

  // What one step adds to the log
  ghost function Added(s: Spi, a: Action): (e: seq<Entry>)
    requires Inv(s) && Legal(s, a)
  {
    if a.TransferEnds? then [Moved]
    else if !a.TakeTask? || s.g.rt.ready[0] != Resume(SPI) then []
    else
      var p := s.g.rt.P(SPI);
      if p == At(WAIT_RTT) then [Header(s.sendReq, s.receiveReq)]
      else if p == At(WAIT_HEADER) then Entries(Head(s.send, s.receive), a.nothing)
      else if p == At(WAIT_HEAD) then Entries(Tail(s.send, s.receive), a.nothing)
      else if p == At(WAIT_TAIL) then
        (if s.send.Some? then [SendDone(s.send.value)] else [])
        + (if s.receive.Some? then [ReceiveDone(s.receive.value)] else [])
      else []
  }

  lemma TurnAdds(s: Spi, nothing: bool)
    requires Inv(s) && s.g.rt.ready != [] && s.g.rt.ready[0] == Resume(SPI)
    ensures var t := s.Turn(nothing);
            && t.log == s.log + Added(s, TakeTask(nothing))
            && t.sendReq == (if s.g.rt.P(SPI) == At(WAIT_TAIL) && s.send.Some? then None else s.sendReq)
            && t.receiveReq == (if s.g.rt.P(SPI) == At(WAIT_TAIL) then None else s.receiveReq)
    ensures s.g.rt.P(SPI) == At(WAIT_TAIL) ==> s.receive.Some? && s.receiveReq == s.receive
    ensures s.g.rt.P(SPI) == At(WAIT_TAIL) && s.send.Some? ==> s.sendReq == s.send
  {
    hide Inv, View, CheckAll, Without, Both, Has, Union, Entered;
    Entering(s);
    if s.g.rt.P(SPI) == At(WAIT_RTT) {
      TaskKeepsInv(s, nothing);
    }
  }

  lemma DonesAdded(s: Spi, nothing: bool)
    requires Inv(s) && s.g.rt.ready != [] && s.g.rt.ready[0] == Resume(SPI)
    requires s.g.rt.P(SPI) == At(WAIT_TAIL) ==> s.receive.Some?
    ensures var d, tail := Added(s, TakeTask(nothing)), s.g.rt.P(SPI) == At(WAIT_TAIL);
            SendsDone(d) == (if tail then Pending(s.send) else [])
              && ReceivesDone(d) == (if tail then Pending(s.receive) else [])
  {
    hide Inv, SendsDone, ReceivesDone;
    NothingDone();
    if s.g.rt.P(SPI) == At(WAIT_TAIL) {
      var first := if s.send.Some? then [SendDone(s.send.value)] else [];
      SendsDoneJoin(first, [ReceiveDone(s.receive.value)]);
      ReceivesDoneJoin(first, [ReceiveDone(s.receive.value)]);
    }
    EntriesTellNobody(s.send, s.receive, nothing);
    OneDone(Added(s, TakeTask(nothing)));
    if s.send.Some? {
      OneDone([SendDone(s.send.value)]);
    }
    if s.receive.Some? {
      OneDone([ReceiveDone(s.receive.value)]);
    }
  }

  lemma OneDone(log: seq<Entry>)
    ensures |log| == 1 ==> SendsDone(log) == (if log[0].SendDone? then [log[0].req] else [])
    ensures |log| == 1 ==> ReceivesDone(log) == (if log[0].ReceiveDone? then [log[0].req] else [])
  {
    if |log| == 1 {
      assert log[1..] == [];
    }
  }

  lemma EntriesTellNobody(send: Option<Req>, receive: Option<Req>, nothing: bool)
    ensures SendsDone(Entries(Head(send, receive), nothing)) == []
    ensures SendsDone(Entries(Tail(send, receive), nothing)) == []
    ensures ReceivesDone(Entries(Head(send, receive), nothing)) == []
    ensures ReceivesDone(Entries(Tail(send, receive), nothing)) == []
  {
    assert [Head(send, receive), Moved][1..] == [Moved] && [Tail(send, receive), Moved][1..] == [Moved];
    assert [Moved][1..] == [] && [Head(send, receive)][1..] == [] && [Tail(send, receive)][1..] == [];
  }

  lemma NothingDone()
    ensures SendsDone([]) == [] && ReceivesDone([]) == []
  {
  }

  lemma StepAdds(s: Spi, a: Action)
    requires Inv(s) && Legal(s, a)
    ensures var t := Apply(s, a);
            && t.log == s.log + Added(s, a)
            && Pending(s.sendReq) + (if a.Send? then [a.req] else []) == SendsDone(Added(s, a)) + Pending(t.sendReq)
            && Pending(s.receiveReq) + (if a.Receive? then [a.req] else []) == ReceivesDone(Added(s,
               a)) + Pending(t.receiveReq)
  {
    hide Inv, View, SendsDone, ReceivesDone;
    NothingDone();
    OneDone([Moved]);
    if a.TakeTask? && s.g.rt.ready[0] == Resume(SPI) {
      hide Spi.Turn, Added;
      TurnAdds(s, a.nothing);
      DonesAdded(s, a.nothing);
    }
  }

  // Every request accepted in a run is completed once and in its turn, or is still pending.
  lemma {:induction false} EveryRequestIsCompletedOnce(s: Spi, actions: seq<Action>)
    requires Inv(s) && LegalRun(s, actions)
    ensures var t := RunAll(s, actions);
            && SendsDone(t.log) + Pending(t.sendReq) == SendsDone(s.log) + Pending(s.sendReq) + Sends(actions)
            && ReceivesDone(t.log) + Pending(t.receiveReq)
            == ReceivesDone(s.log) + Pending(s.receiveReq) + Receives(actions)
    decreases |actions|
  {
    hide Inv, Legal, Apply, Pending, SendsDone, ReceivesDone, Added;
    if actions == [] {
      assert Sends(actions) == [] && Receives(actions) == [];
    } else {
      var a := actions[0];
      var t := Apply(s, a);
      StepKeepsInv(s, a);
      StepAdds(s, a);
      SendsDoneJoin(s.log, Added(s, a));
      ReceivesDoneJoin(s.log, Added(s, a));
      var rest := actions[1..];
      EveryRequestIsCompletedOnce(t, rest);
      Regroup(SendsDone(s.log), SendsDone(Added(s, a)), Pending(s.sendReq), if a.Send? then [a.req] else [],
              Pending(t.sendReq), Sends(rest));
      Regroup(ReceivesDone(s.log), ReceivesDone(Added(s, a)), Pending(s.receiveReq), if a.Receive? then [a.req] else [],
              Pending(t.receiveReq), Receives(rest));
    }
  }

  lemma Regroup(log: seq<Req>, added: seq<Req>, pending: seq<Req>, asked: seq<Req>, left: seq<Req>, rest: seq<Req>)
    requires pending + asked == added + left
    ensures (log + added) + left + rest == log + pending + (asked + rest)
  {
    assert (log + added) + left == log + (added + left);
    assert log + (pending + asked) + rest == log + pending + (asked + rest);
  }

  // Step 3: the peer is told of data to come exactly if there is some; step 7 takes that back.
  lemma PeerIsTold(s: Spi, nothing: bool)
    requires Inv(s) && s.g.rt.ready != [] && s.g.rt.ready[0] == Resume(SPI)
    ensures s.g.rt.P(SPI) == At(WAIT_RECEIVER) ==> s.Turn(nothing).gap8Rtt == s.sendReq.Some?
    ensures s.g.rt.P(SPI) == At(WAIT_HEADER) ==>
      !s.Turn(nothing).gap8Rtt && !Has(s.Turn(nothing).g.group.mask, NINA_RTT)
  {
    var m := s.g.group.mask;
    assert IsBit(NINA_RTT) && IsBit(SEND);
    Entering(s);
    BitOfRequest(s);
    BothIsBit(m, SEND);
    WithoutHas(m, NINA_RTT, NINA_RTT);
    hide Inv, View, CheckAll, Without, Both, Has, Union, Entered;
  }

  lemma AwaitWorkQueues(s: Spi)
    ensures s.g.rt.ready <= s.AwaitWork().g.rt.ready
  {
    hide Union, Both;
  }

  // Steps 11 and 12: the owners are told by the tasks they gave.
  lemma OwnersAreTold(s: Spi, nothing: bool)
    requires Inv(s) && s.g.rt.ready != [] && s.g.rt.ready[0] == Resume(SPI) && s.g.rt.P(SPI) == At(WAIT_TAIL)
    ensures s.receive.Some?
    ensures s.g.rt.ready[1..] + (if s.send.Some? then [Fire(s.send.value.done)] else []) + [Fire(s.receive.value.done)]
            <= s.Turn(nothing).g.rt.ready
  {
    Entering(s);
    var t := s.(g := s.g.(rt := s.g.rt.Dispatch()));
    AwaitWorkQueues(t.FinishSend().FinishReceive());
    hide Inv, View, CheckAll, Without, Both, Has, Union, Entered, Spi.AwaitWork;
  }

  lemma BitOfRequest(s: Spi)
    requires Inv(s)
    ensures Has(s.g.group.mask, SEND) == s.sendReq.Some?
  {
  }

  // How many steps of its own the task is from the end of the transaction
  function Rank(s: Spi): nat {
    var phase := if s.inFlight then 2 else if View(s.g.rt).queued == 0 then 1 else 0;
    match s.g.rt.P(SPI)
    case Start => 12
    case At(line) =>
      if line == WAIT_WORK then 11
      else if line == WAIT_RECEIVER then 10
      else if line == WAIT_RTT then 9
      else if line == WAIT_HEADER then 6 + phase
      else if line == WAIT_HEAD then 3 + phase
      else phase
    case _ => 0
  }

  predicate OwnStep(s: Spi, a: Action) {
    || a.TransferEnds?
    || (a.TakeTask? && s.g.rt.ready != [] && (s.g.rt.ready[0] == Resume(SPI) || s.g.rt.ready[0] == Fire(SPI_DONE)))
  }

  predicate InTransfer(s: Spi) {
    s.g.rt.P(SPI) == At(WAIT_HEADER) || s.g.rt.P(SPI) == At(WAIT_HEAD) || s.g.rt.P(SPI) == At(WAIT_TAIL)
  }

  // All a transaction needs is there, or it is under way.
  predicate UnderWay(s: Spi) {
    InTransfer(s) || (Has(s.g.group.mask, NINA_RTT) && s.receiveReq.Some?)
  }

  // Whom it will serve. A sender can still join before step 5.
  function ToServe(s: Spi): (Option<Req>, Option<Req>) {
    if InTransfer(s) then (s.send, s.receive) else (s.sendReq, s.receiveReq)
  }

  // The task is not stuck: it, or what it waits for, is queued or owed by the peripheral.
  lemma NeverStuck(s: Spi)
    requires Inv(s) && UnderWay(s)
    ensures s.inFlight || Resume(SPI) in s.g.rt.ready || Fire(SPI_DONE) in s.g.rt.ready
  {
    Conditions(s.g.group);
    hide Has, Both, Union, CheckAll;
  }

  predicate Joins(before: (Option<Req>, Option<Req>), now: (Option<Req>, Option<Req>)) {
    now.1 == before.1 && (before.0.Some? ==> now.0 == before.0)
  }

  // Where a turn of the task takes it
  lemma TurnMovesOn(s: Spi, nothing: bool)
    requires Inv(s) && s.g.rt.ready != [] && s.g.rt.ready[0] == Resume(SPI) && !InTransfer(s)
    ensures var p, q, t := s.g.rt.P(SPI), s.Turn(nothing).g.rt.P(SPI), s.Turn(nothing);
            && (p.Start? ==> q == At(WAIT_WORK)) && (p == At(WAIT_WORK) ==> q == At(WAIT_RECEIVER))
            && (p == At(WAIT_RECEIVER) ==> q == At(WAIT_RTT)) && (p == At(WAIT_RTT) ==> q == At(WAIT_HEADER))
            && (p != At(WAIT_RTT) ==> t.g.group.mask == s.g.group.mask)
  {
    Entering(s);
    hide Inv, View, CheckAll, Without, Both, Has, Union, Entered;
  }

  lemma TransferMovesOn(s: Spi, nothing: bool)
    requires Inv(s) && s.g.rt.ready != [] && s.g.rt.ready[0] == Resume(SPI) && InTransfer(s)
    ensures var p, q, t := s.g.rt.P(SPI), s.Turn(nothing).g.rt.P(SPI), s.Turn(nothing);
            && (p == At(WAIT_HEADER) ==> q == At(WAIT_HEAD)) && (p == At(WAIT_HEAD) ==> q == At(WAIT_TAIL))
            && (p == At(WAIT_TAIL) ==> q == At(WAIT_WORK))
            && (p != At(WAIT_TAIL) ==> t.send == s.send && t.receive == s.receive)
  {
    Entering(s);
    hide Inv, View, CheckAll, Without, Both, Has, Union, Entered;
  }

  // A dispatched task is queued, so nothing else is owed to it.
  lemma DispatchedMeansPhaseZero(s: Spi)
    requires Inv(s) && s.g.rt.ready != [] && s.g.rt.ready[0] == Resume(SPI) && InTransfer(s)
    ensures !s.inFlight && View(s.g.rt).queued == 1
  {
    hide CheckAll, Both, Union, Has;
    CountTail(s.g.rt.ready, Resume(SPI));
  }

  lemma RankInTransfer(s: Spi)
    ensures s.g.rt.P(SPI) == At(WAIT_HEADER) ==> 6 <= Rank(s) <= 8
    ensures s.g.rt.P(SPI) == At(WAIT_HEAD) ==> 3 <= Rank(s) <= 5
    ensures s.g.rt.P(SPI) == At(WAIT_TAIL) ==> Rank(s) <= 2
    ensures !s.inFlight && View(s.g.rt).queued == 1 ==>
      (s.g.rt.P(SPI) == At(WAIT_HEADER) ==> Rank(s) == 6) && (s.g.rt.P(SPI) == At(WAIT_HEAD) ==> Rank(s) == 3)
      && (s.g.rt.P(SPI) == At(WAIT_TAIL) ==> Rank(s) == 0)
    ensures s.g.rt.P(SPI) in {Start, At(WAIT_WORK), At(WAIT_RECEIVER), At(WAIT_RTT)} ==>
      Rank(s) == if s.g.rt.P(SPI) == Start then 12 else if s.g.rt.P(SPI) == At(WAIT_WORK) then 11
                 else if s.g.rt.P(SPI) == At(WAIT_RECEIVER) then 10 else 9
  {
    hide View;
  }

  ghost predicate Ends(s: Spi, t: Spi) {
    var done := t.log[if |s.log| <= |t.log| then |s.log| else 0..];
    ToServe(s).1.Some? && ReceiveDone(ToServe(s).1.value) in done
    && (ToServe(s).0.Some? ==> SendDone(ToServe(s).0.value) in done)
  }

  ghost predicate Nearer(s: Spi, t: Spi) {
    UnderWay(t) && Rank(t) < Rank(s) && Joins(ToServe(s), ToServe(t))
  }

  lemma KnownPoint(s: Spi)
    requires Inv(s)
    ensures s.g.rt.P(SPI).Start? || s.g.rt.P(SPI).At?
    ensures !InTransfer(s) && s.g.rt.P(SPI).At? ==> s.g.rt.P(SPI).line in {WAIT_WORK, WAIT_RECEIVER, WAIT_RTT}
  {
  }

  lemma LastTurnEnds(s: Spi, nothing: bool)
    requires Inv(s) && s.g.rt.ready != [] && s.g.rt.ready[0] == Resume(SPI) && s.g.rt.P(SPI) == At(WAIT_TAIL)
    ensures Ends(s, s.Turn(nothing))
  {
    hide Inv, Spi.Turn, View;
    TurnAdds(s, nothing);
    var done := Added(s, TakeTask(nothing));
    assert s.Turn(nothing).log[|s.log|..] == done;
    assert done[|done| - 1] == ReceiveDone(s.receive.value);
    assert s.send.Some? ==> done[0] == SendDone(s.send.value);
  }

  lemma TurnProgress(s: Spi, nothing: bool)
    requires Inv(s) && s.g.rt.ready != [] && s.g.rt.ready[0] == Resume(SPI) && UnderWay(s)
    ensures Ends(s, s.Turn(nothing)) || Nearer(s, s.Turn(nothing))
  {
    hide Inv, Rank, Spi.Turn, View, CheckAll, Entered, Has, Added, Ends;
    if s.g.rt.P(SPI) == At(WAIT_TAIL) {
      LastTurnEnds(s, nothing);
      return;
    }
    var t := s.Turn(nothing);
    TurnAdds(s, nothing);
    RankInTransfer(s);
    RankInTransfer(t);
    KnownPoint(s);
    if InTransfer(s) {
      TransferMovesOn(s, nothing);
      DispatchedMeansPhaseZero(s);
    } else {
      TurnMovesOn(s, nothing);
    }
    if s.g.rt.P(SPI) == At(WAIT_RTT) {
      NextServes(s, nothing);
    }
  }

  lemma NextServes(s: Spi, nothing: bool)
    requires Inv(s) && s.g.rt.ready != [] && s.g.rt.ready[0] == Resume(SPI) && s.g.rt.P(SPI) == At(WAIT_RTT)
    ensures s.Turn(nothing).send == s.sendReq && s.Turn(nothing).receive == s.receiveReq
  {
    TaskKeepsInv(s, nothing);
    assert CheckAll(s.Turn(nothing).log) == Check(CheckAll(s.log), Header(s.sendReq, s.receiveReq)) by {
      CheckNext(s.log, Header(s.sendReq, s.receiveReq));
    }
    Entering(s);
  }

  // Any other step leaves the task where it is.
  lemma SameView(s: Spi, t: Spi)
    requires View(t.g.rt) == View(s.g.rt) && t.inFlight == s.inFlight
    ensures Rank(t) == Rank(s) && t.g.rt.P(SPI) == s.g.rt.P(SPI)
  {
    WhereIs(s.g.rt);
    WhereIs(t.g.rt);
    hide View;
  }

  lemma RankByPoint(s: Spi, t: Spi)
    requires t.g.rt.P(SPI) == s.g.rt.P(SPI) && !InTransfer(s)
    requires s.g.rt.P(SPI).At? ==> s.g.rt.P(SPI).line in {WAIT_WORK, WAIT_RECEIVER, WAIT_RTT}
    ensures Rank(t) == Rank(s)
  {
  }

  lemma RequestProgress(s: Spi, a: Action)
    requires Inv(s) && Legal(s, a) && (a.Send? || a.Receive? || a.RttEdge?)
    ensures var t := Apply(s, a);
            && t.g.rt.P(SPI) == s.g.rt.P(SPI) && Rank(t) == Rank(s) && t.log == s.log
            && (UnderWay(s) ==> UnderWay(t) && Joins(ToServe(s), ToServe(t)))
  {
    hide Inv, View, CheckAll, Has, Union, Both, Rank;
    var b := if a.Send? then SEND else if a.Receive? then RECEIVE else NINA_RTT;
    assert IsBit(b);
    var t := Apply(s, a);
    assert t.g == s.g.Set(b) && t.inFlight == s.inFlight && t.log == s.log;
    SetFrame(s, b);
    assert t.g.rt.P(SPI) == s.g.rt.P(SPI);
    if InTransfer(s) {
      WaitsForNoBits(s);
      SameView(s, t);
    } else {
      KnownPoint(s);
      RankByPoint(s, t);
    }
  }

  lemma WaitsForNoBits(s: Spi)
    requires Inv(s) && InTransfer(s)
    ensures s.g.group.waitCtx == None
  {
  }

  lemma TransferEndsProgress(s: Spi)
    requires Inv(s) && s.inFlight
    ensures var t := s.TransferDone();
            && t.g.rt.P(SPI) == s.g.rt.P(SPI) && InTransfer(s) && Rank(t) < Rank(s) && s.log <= t.log
  {
    ViewPush(s.g.rt, Fire(SPI_DONE));
    WhereIs(s.g.rt);
    hide View, CheckAll, Has, Union, Both;
  }

  lemma FireProgress(s: Spi, nothing: bool)
    requires Inv(s) && s.g.rt.ready != [] && s.g.rt.ready[0].Fire?
    ensures var t := s.Turn(nothing);
            && t.g.rt.P(SPI) == s.g.rt.P(SPI) && t.log == s.log
            && Rank(t) <= Rank(s) && (s.g.rt.ready[0] == Fire(SPI_DONE) ==> Rank(t) < Rank(s))
  {
    var e := s.g.rt.ready[0].event;
    if e == SPI_DONE {
      DoneFires(s, nothing);
    } else {
      WhereIs(s.g.rt);
      ViewFireOther(s.g.rt, e);
      SameView(s, s.Turn(nothing));
      hide Rank, View, CheckAll, Has, Union, Both;
    }
  }

  lemma DoneFires(s: Spi, nothing: bool)
    requires Inv(s) && s.g.rt.ready != [] && s.g.rt.ready[0] == Fire(SPI_DONE)
    ensures var t := s.Turn(nothing); t.g.rt.P(SPI) == s.g.rt.P(SPI) && t.log == s.log && Rank(t) < Rank(s)
  {
    WhereIs(s.g.rt);
    FiresForTask(s);
    ViewFire(s.g.rt);
    hide View, CheckAll, Has, Union, Both, WaitsOnlyForSpi, BitsMatch;
  }

  lemma OtherProgress(s: Spi, a: Action)
    requires Inv(s) && Legal(s, a) && UnderWay(s) && !(a.TakeTask? && s.g.rt.ready[0] == Resume(SPI))
    ensures var t := Apply(s, a);
            && UnderWay(t) && Joins(ToServe(s), ToServe(t)) && s.log <= t.log
            && Rank(t) <= Rank(s) && (OwnStep(s, a) ==> Rank(t) < Rank(s))
  {
    hide Inv, View, CheckAll, Has, Rank;
    match a {
      case TransferEnds => TransferEndsProgress(s);
      case Others(t) => SameView(s, Apply(s, a));
      case TakeTask(nothing) =>
        if s.g.rt.ready[0].Fire? {
          FireProgress(s, nothing);
        } else {
          ViewResumeOther(s.g.rt, s.g.rt.ready[0].ctx);
          SameView(s, Apply(s, a));
        }
      case _ => RequestProgress(s, a);
    }
  }

  // A send request that the transaction under way, if there is one, does not serve
  predicate Awaits(s: Spi, q: Req) {
    s.sendReq == Some(q) && (InTransfer(s) ==> s.send == None)
  }

  function FirstHeader(log: seq<Entry>): (h: Option<Entry>)
    ensures h.Some? ==> h.value.Header?
  {
    if log == [] then None else if log[0].Header? then Some(log[0]) else FirstHeader(log[1..])
  }

  lemma {:induction false} FirstHeaderJoin(a: seq<Entry>, b: seq<Entry>)
    ensures FirstHeader(a + b) == if FirstHeader(a).Some? then FirstHeader(a) else FirstHeader(b)
    decreases |a|
  {
    if a == [] {
      assert a + b == b;
    } else {
      TailOfConcat(a, b);
      FirstHeaderJoin(a[1..], b);
    }
  }

  lemma {:induction false} NoHeader(log: seq<Entry>)
    requires forall e :: e in log ==> !e.Header?
    ensures FirstHeader(log) == None
  {
    if log != [] {
      NoHeader(log[1..]);
    }
  }

  lemma AddedHeader(s: Spi, a: Action)
    requires Inv(s) && Legal(s, a)
    ensures FirstHeader(Added(s, a)) ==
            if a.TakeTask? && s.g.rt.ready[0] == Resume(SPI) && s.g.rt.P(SPI) == At(WAIT_RTT) then
              Some(Header(s.sendReq, s.receiveReq))
            else
              None
  {
    hide Inv;
    if !(a.TakeTask? && s.g.rt.ready[0] == Resume(SPI) && s.g.rt.P(SPI) == At(WAIT_RTT)) {
      NoHeader(Added(s, a));
    }
  }

  // What is not a turn of the task leaves it where it is, with the requests that it serves.
  lemma OtherStaysPut(s: Spi, a: Action)
    requires Inv(s) && Legal(s, a) && !(a.TakeTask? && s.g.rt.ready[0] == Resume(SPI))
    ensures var t := Apply(s, a);
            && t.g.rt.P(SPI) == s.g.rt.P(SPI) && t.send == s.send
            && (!a.Send? ==> t.sendReq == s.sendReq)
  {
    hide Inv, View, CheckAll, Has, Rank;
    match a {
      case TransferEnds => TransferEndsProgress(s);
      case Others(t) => SameView(s, Apply(s, a));
      case TakeTask(nothing) =>
        if s.g.rt.ready[0].Fire? {
          FireProgress(s, nothing);
        } else {
          ViewResumeOther(s.g.rt, s.g.rt.ready[0].ctx);
          SameView(s, Apply(s, a));
        }
      case _ => RequestProgress(s, a);
    }
  }

  lemma StepAwaits(s: Spi, a: Action, q: Req)
    requires Inv(s) && Legal(s, a) && Awaits(s, q)
    ensures FirstHeader(Added(s, a)).Some? ==> FirstHeader(Added(s, a)).value.send == Some(q)
    ensures FirstHeader(Added(s, a)) == None ==> Awaits(Apply(s, a), q)
  {
    hide Inv, Spi.Turn, Added;
    AddedHeader(s, a);
    if a.TakeTask? && s.g.rt.ready[0] == Resume(SPI) {
      TurnAdds(s, a.nothing);
      KnownPoint(s);
      if InTransfer(s) {
        TransferMovesOn(s, a.nothing);
      } else {
        TurnMovesOn(s, a.nothing);
      }
    } else {
      OtherStaysPut(s, a);
    }
  }

  lemma BehindLog(log: seq<Entry>, added: seq<Entry>, all: seq<Entry>)
    requires log + added <= all
    ensures log <= all && all[|log|..] == added + all[|log + added|..]
  {
  }

  // A send that comes after step 5, or at any other time when the transaction under way does not serve
  // it, is left for the next transaction, and that one takes it: the first header of any run is for it,
  // and until then the request stays as it is.
  lemma {:induction false} LateSendIsNext(s: Spi, actions: seq<Action>, q: Req)
    requires Inv(s) && LegalRun(s, actions) && Awaits(s, q)
    ensures var t := RunAll(s, actions);
            && s.log <= t.log
            && var first := FirstHeader(t.log[|s.log|..]);
            if first.Some? then first.value.send == Some(q) else Awaits(t, q)
    decreases |actions|
  {
    hide Inv, Apply, Added, Awaits, FirstHeader;
    if actions == [] {
      assert FirstHeader(s.log[|s.log|..]) == None by { NoHeader(s.log[|s.log|..]); }
    } else {
      var a := actions[0];
      var t, u := Apply(s, a), RunAll(s, actions);
      StepKeepsInv(s, a);
      StepAdds(s, a);
      StepAwaits(s, a, q);
      LogGrows(t, actions[1..]);
      BehindLog(s.log, Added(s, a), u.log);
      FirstHeaderJoin(Added(s, a), u.log[|t.log|..]);
      if FirstHeader(Added(s, a)) == None {
        LateSendIsNext(t, actions[1..], q);
      }
    }
  }

  ghost function OwnSteps(s: Spi, actions: seq<Action>): nat
    requires LegalRun(s, actions)
    decreases |actions|
  {
    if actions == [] then 0
    else (if OwnStep(s, actions[0]) then 1 else 0) + OwnSteps(Apply(s, actions[0]), actions[1..])
  }

  lemma {:induction false} LogGrows(s: Spi, actions: seq<Action>)
    requires Inv(s) && LegalRun(s, actions)
    ensures s.log <= RunAll(s, actions).log
    decreases |actions|
  {
    if actions != [] {
      StepKeepsInv(s, actions[0]);
      StepAdds(s, actions[0]);
      LogGrows(Apply(s, actions[0]), actions[1..]);
    }
    hide Inv, Legal, Apply, Added;
  }

  // Once the peer is ready and a receive request is there, the transaction ends within at most
  // thirteen steps of its own, whatever else happens meanwhile, and with it both its requests.
  lemma {:induction false} TransactionEnds(s: Spi, actions: seq<Action>)
    requires Inv(s) && LegalRun(s, actions) && UnderWay(s) && OwnSteps(s, actions) > Rank(s)
    ensures var t := RunAll(s, actions);
            s.log <= t.log && Ends(s, t)
    decreases |actions|
  {
    hide Inv, Apply, Added, UnderWay, ToServe, Rank, CheckAll, Ends, Joins;
    var a := actions[0];
    var t, rest := Apply(s, a), actions[1..];
    var u := RunAll(t, rest);
    StepKeepsInv(s, a);
    StepAdds(s, a);
    LogGrows(t, rest);
    if a.TakeTask? && s.g.rt.ready[0] == Resume(SPI) {
      assert t == s.Turn(a.nothing) by { TurnIsApplied(s, a.nothing); }
      TurnProgress(s, a.nothing);
    } else {
      OtherProgress(s, a);
    }
    if Ends(s, t) {
      EndedStays(s, t, u);
    } else {
      TransactionEnds(t, rest);
      EndsLater(s, t, u);
    }
  }

  lemma TurnIsApplied(s: Spi, nothing: bool)
    requires Legal(s, TakeTask(nothing))
    ensures Apply(s, TakeTask(nothing)) == s.Turn(nothing)
  {
  }

  lemma EndedStays(s: Spi, t: Spi, u: Spi)
    requires Ends(s, t) && s.log <= t.log <= u.log
    ensures Ends(s, u)
  {
    assert forall e :: e in t.log[|s.log|..] ==> e in u.log[|s.log|..] by {
      assert t.log[|s.log|..] <= u.log[|s.log|..];
    }
  }

  lemma EndsLater(s: Spi, t: Spi, u: Spi)
    requires Ends(t, u) && s.log <= t.log <= u.log && Joins(ToServe(s), ToServe(t))
    ensures Ends(s, u)
  {
    assert u.log[|s.log|..] == u.log[|s.log|..|t.log|] + u.log[|t.log|..];
  }

  // An edge of the peer is noticed: its bit is set, a task that sleeps until the peer is ready is woken,
  // and nothing else is lost. With a receiver there, that is all a transaction needs.
  lemma EdgeIsNoticed(s: Spi)
    requires Inv(s)
    ensures var t := s.NinaRtt();
            && Inv(t) && Has(t.g.group.mask, NINA_RTT) && t.sendReq == s.sendReq && t.receiveReq == s.receiveReq
            && (s.g.rt.P(SPI) == At(WAIT_WORK) || s.g.rt.P(SPI) == At(WAIT_RTT) ==> Resume(SPI) in t.g.rt.ready)
            && (s.receiveReq.Some? ==> UnderWay(t))
  {
    var t := s.NinaRtt();
    assert IsBit(NINA_RTT);
    RequestKeepsInv(s, RttEdge);
    SetFrame(s, NINA_RTT);
    AwakeWhenReady(t);
    SamePoint(s.g.rt, t.g.rt);
    hide Inv, Has, Union;
  }

  lemma AwakeWhenReady(s: Spi)
    requires Inv(s) && Has(s.g.group.mask, NINA_RTT)
    ensures s.g.rt.P(SPI) == At(WAIT_WORK) || s.g.rt.P(SPI) == At(WAIT_RTT) ==> Resume(SPI) in s.g.rt.ready
  {
    Conditions(s.g.group);
    hide Has, Both, Union, CheckAll;
  }

  lemma RankBound(s: Spi)
    ensures Rank(s) <= 12
  {
  }

  // From any state: once a receiver is there and the peer gives its edge, the receiver is told within
  // thirteen steps of the task, and so is a sender that was there and not too late for the transaction.
  lemma EdgeLeadsToTransaction(s: Spi, r: Req, actions: seq<Action>)
    requires Inv(s) && s.receiveReq == Some(r)
    requires LegalRun(s.NinaRtt(), actions) && OwnSteps(s.NinaRtt(), actions) > 12
    ensures var t := RunAll(s.NinaRtt(), actions);
            && s.log <= t.log && ReceiveDone(r) in t.log[|s.log|..]
            && (s.sendReq.Some? && !InTransfer(s) ==> SendDone(s.sendReq.value) in t.log[|s.log|..])
  {
    EdgeIsNoticed(s);
    RankBound(s.NinaRtt());
    TransactionEnds(s.NinaRtt(), actions);
    assert s.NinaRtt().log == s.log;
    ServesTheReceiver(s.NinaRtt());
    RequestProgress(s, RttEdge);
    hide Inv, Rank, UnderWay, RunAll, OwnSteps;
  }

  lemma ServesTheReceiver(s: Spi)
    requires Inv(s)
    ensures ToServe(s).1 == s.receiveReq && (!InTransfer(s) ==> ToServe(s).0 == s.sendReq)
  {
    hide Has, Both, Union, CheckAll, View;
    WhereIs(s.g.rt);
  }

  // Right from the start: a receiver and a sender ask, the peer gives its edge, and both are served.
  lemma FirstTransactionEnds(r: Req, q: Req, actions: seq<Action>)
    requires r.done != SPI_DONE && q.done != SPI_DONE
    requires LegalRun(STARTED.ReceiveAsync(r).SendAsync(q).NinaRtt(), actions)
    requires OwnSteps(STARTED.ReceiveAsync(r).SendAsync(q).NinaRtt(), actions) > 12
    ensures var log := RunAll(STARTED.ReceiveAsync(r).SendAsync(q).NinaRtt(), actions).log;
            ReceiveDone(r) in log && SendDone(q) in log
  {
    StartedIsSafe();
    var a := STARTED.ReceiveAsync(r);
    assert a.receiveReq == Some(r) && a.sendReq == None;
    RequestKeepsInv(STARTED, Receive(r));
    var s := a.SendAsync(q);
    assert s.receiveReq == Some(r) && s.sendReq == Some(q);
    RequestKeepsInv(a, Send(q));
    RequestProgress(STARTED, Receive(r));
    RequestProgress(a, Send(q));
    assert STARTED.g.rt.P(SPI) == Start;
    hide Inv, Spi.NinaRtt, Spi.SendAsync, Spi.ReceiveAsync, RunAll, OwnSteps, Rank;
    EdgeLeadsToTransaction(s, r, actions);
  }

  // The two assertions are met exactly by a second request of a kind, and then the first one stays.
  lemma SecondRequestFaults(s: Spi, r: Req)
    requires Inv(s)
    ensures s.SendAsync(r).fault <==> s.sendReq.Some?
    ensures s.ReceiveAsync(r).fault <==> s.receiveReq.Some?
    ensures s.sendReq.Some? ==> s.SendAsync(r).sendReq == s.sendReq && s.SendAsync(r).g == s.g
    ensures s.receiveReq.Some? ==> s.ReceiveAsync(r).receiveReq == s.receiveReq && s.ReceiveAsync(r).g == s.g
  {
    hide Has, Both, Union, CheckAll, View;
  }

  // The invariant, for the methods below
  ghost predicate Safe(s: Spi) { Inv(s) }

  lemma TurnIsSafe(s: Spi, nothing: bool)
    requires Safe(s) && s.g.rt.ready != []
    ensures Safe(s.Turn(nothing))
  {
    hide Inv, Spi.Turn;
    StepKeepsInv(s, TakeTask(nothing));
    TurnIsApplied(s, nothing);
  }

  lemma SendIsSafe(s: Spi, r: Req)
    requires Safe(s) && s.sendReq == None && r.done != SPI_DONE
    ensures Safe(s.SendAsync(r))
  {
    hide Inv;
    StepKeepsInv(s, Send(r));
  }

  lemma ReceiveIsSafe(s: Spi, r: Req)
    requires Safe(s) && s.receiveReq == None && r.done != SPI_DONE
    ensures Safe(s.ReceiveAsync(r))
  {
    hide Inv;
    StepKeepsInv(s, Receive(r));
  }

  lemma EdgeIsSafe(s: Spi)
    requires Safe(s)
    ensures Safe(s.NinaRtt())
  {
    hide Inv;
    StepKeepsInv(s, RttEdge);
  }

  lemma StartIsSafe(ready: bool)
    ensures Safe(if ready then STARTED.NinaRtt() else STARTED)
  {
    hide Inv;
    StartedIsSafe();
    EdgeIsSafe(STARTED);
  }

  // cpx_spi_t, updated in place, with its event group and the runtime
  class Cpx {
    const events: CoEventGroup
    const rt: Runtime
    var sendReq: Option<Req>
    var receiveReq: Option<Req>
    var send: Option<Req>
    var receive: Option<Req>
    var gap8Rtt: bool
    var inFlight: bool
    var fault: bool
    ghost var log: seq<Entry>

    ghost predicate Valid()
      reads this
    {
      events.rt == rt
    }

    ghost function State(): Spi
      reads this, events, rt
    {
      Spi(Grouped(events.Value(), rt.State(), events.fault), sendReq, receiveReq, send, receive, gap8Rtt, inFlight,
        log, fault)
    }

    // cpx_spi_init and cpx_spi_start, for a peer that is ready already or not
    constructor (rt: Runtime, ready: bool)
      requires rt.State() == BOOT
      modifies rt
      ensures Valid() && this.rt == rt && State() == (if ready then STARTED.NinaRtt() else STARTED) && Safe(State())
    {
      this.rt := rt;
      events := new CoEventGroup(rt);
      sendReq, receiveReq, send, receive := None, None, None, None;
      gap8Rtt, inFlight, fault, log := false, false, false, [];
      new;
      if ready {
        NinaRttCallback();
      }
      rt.CoFnPushStart(SPI, None);
      StartIsSafe(ready);
      hide Safe;
    }

    method SendAsync(req: Req)
      requires Valid()
      modifies this`sendReq, this`fault, events, rt
      ensures State() == old(State()).SendAsync(req)
      ensures old(sendReq) == None && req.done != SPI_DONE && old(Safe(State())) ==> Safe(State())
    {
      hide Safe;
      ghost var s := State();
      if sendReq == None && req.done != SPI_DONE && Safe(s) {
        SendIsSafe(s, req);
      }
      if sendReq != None {
        fault := true;
        return;
      }
      sendReq := Some(req);
      events.Set(SEND);
    }

    method ReceiveAsync(req: Req)
      requires Valid()
      modifies this`receiveReq, this`fault, events, rt
      ensures State() == old(State()).ReceiveAsync(req)
      ensures old(receiveReq) == None && req.done != SPI_DONE && old(Safe(State())) ==> Safe(State())
    {
      hide Safe;
      ghost var s := State();
      if receiveReq == None && req.done != SPI_DONE && Safe(s) {
        ReceiveIsSafe(s, req);
      }
      if receiveReq != None {
        fault := true;
        return;
      }
      receiveReq := Some(req);
      events.Set(RECEIVE);
    }

    method NinaRttCallback()
      requires Valid()
      modifies events, rt
      ensures State() == old(State()).NinaRtt()
      ensures old(Safe(State())) ==> Safe(State())
    {
      hide Safe;
      ghost var s := State();
      if Safe(s) {
        EdgeIsSafe(s);
      }
      events.Set(NINA_RTT);
    }

    // What the peripheral does when it has moved all bytes
    method TransferDone()
      requires Valid()
      modifies this`inFlight, this`log, rt
      ensures State() == old(State()).TransferDone()
      ensures old(inFlight) && old(Safe(State())) ==> Safe(State())
    {
      ghost var s := State();
      if inFlight && Safe(s) {
        TransferEndsKeepsInv(s);
      }
      hide Safe;
      inFlight := false;
      log := log + [Moved];
      rt.PiTaskPush(Fire(SPI_DONE));
    }

    method TransferAndWait(e: Entry, nothing: bool, line: nat)
      requires Valid()
      modifies this`inFlight, this`log, rt
      ensures State() == old(State()).Transfer(e, nothing, line)
    {
      rt.CoEventInit(SPI_DONE);
      if nothing {
        rt.PiTaskPush(Fire(SPI_DONE));
      }
      inFlight := !nothing;
      log := log + Entries(e, nothing);
      rt.CoEventWait(SPI_DONE, SPI, line);
    }

    // The body of cpx_spi_task, entered with the resume point it had
    method SpiTask(resume: Point, nothing: bool)
      requires Valid()
      modifies this, events, rt
      ensures State() == old(State()).Body(resume, nothing)
    {
      hide Has, Both, Union, Spi.Transfer, Spi.FinishSend, Spi.FinishReceive, Grouped.Wait;
      match resume {
        case Start =>
          events.Wait(SPI, WAIT_WORK, Union(NINA_RTT, SEND), Any);
        case At(line) =>
          if line == WAIT_WORK {
            events.Wait(SPI, WAIT_RECEIVER, RECEIVE, All);
          } else if line == WAIT_RECEIVER {
            AwaitRtt();
          } else if line == WAIT_RTT {
            StartTransaction();
          } else if line == WAIT_HEADER {
            TransferHead(nothing);
          } else if line == WAIT_HEAD {
            TransferAndWait(Tail(send, receive), nothing, WAIT_TAIL);
          } else if line == WAIT_TAIL {
            FinishSend();
            FinishReceive();
            events.Wait(SPI, WAIT_WORK, Union(NINA_RTT, SEND), Any);
          } else {
            fault := true;
          }
        case _ => fault := true;
      }
    }

    // Steps 3 and 4
    method AwaitRtt()
      requires Valid()
      modifies this`gap8Rtt, events, rt
      ensures State() == old(State()).AwaitRtt()
    {
      hide Has, Both, Union;
      var current := events.Get(SEND);
      if Has(current, SEND) {
        gap8Rtt := true;
      }
      events.Wait(SPI, WAIT_RTT, NINA_RTT, All);
    }

    // Steps 5 and 6
    method StartTransaction()
      requires Valid()
      modifies this, rt
      ensures State() == old(State()).StartTransaction()
    {
      hide Has, Both, Union;
      var current := events.Get(EVENTS_ALL);
      send := if Has(current, SEND) then sendReq else None;
      receive := if Has(current, RECEIVE) then receiveReq else None;
      TransferAndWait(Header(send, receive), false, WAIT_HEADER);
    }

    // Steps 7 to 9
    method TransferHead(nothing: bool)
      requires Valid()
      modifies this, events, rt
      ensures State() == old(State()).TransferHead(nothing)
    {
      hide Has, Both, Union, Without;
      gap8Rtt := false;
      var _ := events.Clear(NINA_RTT);
      TransferAndWait(Head(send, receive), nothing, WAIT_HEAD);
    }

    // Step 11
    method FinishSend()
      requires Valid()
      modifies this`sendReq, this`log, events, rt
      ensures State() == old(State()).FinishSend()
    {
      hide Has, Both, Union, Without;
      if send != None {
        sendReq := None;
        rt.PiTaskPush(Fire(send.value.done));
        var _ := events.Clear(SEND);
        log := log + [SendDone(send.value)];
      }
    }

    // Step 12
    method FinishReceive()
      requires Valid()
      modifies this`receiveReq, this`log, events, rt
      ensures State() == old(State()).FinishReceive()
    {
      hide Has, Both, Union, Without;
      if receive != None {
        receiveReq := None;
        rt.PiTaskPush(Fire(receive.value.done));
        var _ := events.Clear(RECEIVE);
        log := log + [ReceiveDone(receive.value)];
      }
    }

    // One turn of the scheduler
    method TakeTask(nothing: bool)
      requires Valid() && rt.ready != []
      modifies this, events, rt
      ensures State() == old(State()).Turn(nothing)
      ensures old(Safe(State())) ==> Safe(State())
    {
      hide Safe, Spi.Body, Rt.Dispatch, Rt.W;
      ghost var s := State();
      if Safe(s) {
        TurnIsSafe(s, nothing);
      }
      match rt.ready[0] {
        case Fire(_) => rt.TakeTask();
        case Resume(c) =>
          if c != SPI {
            rt.ready := rt.ready[1..];
          } else {
            var resume := if SPI in rt.point then rt.point[SPI] else Start;
            if resume == Running || resume == Done {
              fault := true;
            } else {
              rt.TakeTask();
              SpiTask(resume, nothing);
            }
          }
      }
    }
  }
}
