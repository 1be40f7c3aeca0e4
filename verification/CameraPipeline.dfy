// camera_pipeline.c in pipelined mode: three buffers go round between the camera, which fills the
// queued ones in turn and interrupts after each, and one task that consumes frames.

module CameraPipeline {

  const BUFFERS := 3
  const UINT32 := 0x1_0000_0000

  // ++ on a uint32_t
  function Inc(x: nat): nat { if x + 1 < UINT32 then x + 1 else 0 }

  // - on two of them
  function Sub(x: nat, y: nat): int { if x >= y then x - y else x + UINT32 - y }

  // Where the task is: outside camera_pipeline.c, with a frame (Holding) or without (Idle), or in the
  // middle of camera_pipeline_begin_frame, camera_pipeline_end_frame or camera_pipeline_disconnect,
  // before the statement named
  datatype Place =
    | Idle | Holding
    | BeginQueueOne | BeginQueueTwo | BeginStart | BeginWait | BeginTake | BeginQueueZero
    | EndWait | EndQueue | EndTake
    | StopWait | StopFinish

  // A frame given to the task: when its capture was completed, and since when the task had waited
  datatype Frame = Frame(buffer: nat, completedAt: nat, waitingSince: nat)

  // What is not in the code: a clock, the times at which the task began to wait and the ready capture
  // was completed, the frames handed out, and the counts of discarded and lost captures
  datatype History = History(clock: nat, waitingSince: nat, completedAt: nat, frames: seq<Frame>, discarded: nat,
    lost: nat)

  // The static variables, the camera's queue, and the capture-done event bit
  datatype Cam = Cam(at: Place, queue: seq<nat>, running: bool, bit: bool,
                     ready: nat, processing: nat, waiting: bool, streaming: bool, discarding: bool,
                     queued: nat, completed: nat, dropped: nat,
                     past: History)
  {
    function Outstanding(): int { Sub(queued, completed) }

    function Tick(): Cam { this.(past := past.(clock := past.clock + 1)) }

    // capture_done, in the interrupt after the capture into the first queued buffer
    function CaptureDone(): Cam
      requires queue != []
    {
      var b := queue[0];
      var s := Tick().(queue := queue[1..]);
      if discarding then s.Discard() else if waiting then s.Deliver(b) else s.Drop(b)
    }

    function Discard(): Cam {
      var t := this.(completed := Inc(completed), past := past.(discarded := past.discarded + 1));
      if t.Outstanding() == 0 then t.(bit := true) else t
    }

    function Deliver(b: nat): Cam {
      this.(completed := Inc(completed), ready := b, past := past.(completedAt := past.clock), waiting := false,
        bit := true)
    }

    function Drop(b: nat): Cam { this.(dropped := Inc(dropped), past := past.(lost := past.lost + 1),
      queue := queue + [b]) }

    // schedule_capture
    function Schedule(b: nat): Cam { this.(queued := Inc(queued), queue := queue + [b]) }

    function StartWaiting(): Cam { this.(waiting := true, past := past.(waitingSince := past.clock)) }

    // processing_buffer = ready_buffer
    function Take(): Cam {
      this.(processing := ready, past := past.(frames := past.frames + [Frame(ready, past.completedAt,
        past.waitingSince)]))
    }

    function BeginFrame(): Cam { if streaming then this else Tick().StartWaiting().(at := BeginQueueOne) }

    function EndFrame(): Cam { Tick().StartWaiting().(at := EndWait) }

    function Disconnect(): Cam {
      if streaming then Tick().(bit := false, discarding := true, at := StopWait) else this
    }

    // The task's next statement
    function Next(): Cam
      requires Runnable(this)
    {
      var s := Tick();
      match at
      case BeginQueueOne => s.Schedule(1).(at := BeginQueueTwo)
      case BeginQueueTwo => s.Schedule(2).(at := BeginStart)
      case BeginStart => s.(running := true, at := BeginWait)
      case BeginWait => s.(bit := false, at := BeginTake)
      case BeginTake => s.Take().(at := BeginQueueZero)
      case BeginQueueZero => s.Schedule(0).(streaming := true, at := Holding)
      case EndWait => s.(bit := false, at := EndQueue)
      case EndQueue => s.Schedule(processing).(at := EndTake)
      case EndTake => s.Take().(at := Holding)
      case StopWait => s.(bit := false, at := StopFinish)
      case StopFinish => s.(streaming := false, waiting := false, discarding := false, running := false, at := Idle)
    }
  }

  // wait_for_ready_frame blocks until the event bit is set.
  predicate Runnable(s: Cam) {
    !s.at.Idle? && !s.at.Holding? && (s.at.BeginWait? || s.at.EndWait? || s.at.StopWait? ==> s.bit)
  }

  datatype Action = Begin | End | Stop | Run | Interrupt

  predicate Legal(s: Cam, a: Action) {
    match a
    case Begin => s.at.Idle? || s.at.Holding?
    case End => s.at.Holding?
    case Stop => s.at.Idle? || s.at.Holding?
    case Run => Runnable(s)
    case Interrupt => s.running && s.queue != []
  }

  function Apply(s: Cam, a: Action): Cam
    requires Legal(s, a)
  {
    match a
    case Begin => s.BeginFrame()
    case End => s.EndFrame()
    case Stop => s.Disconnect()
    case Run => s.Next()
    case Interrupt => s.CaptureDone()
  }

  const INITIAL := Cam(Idle, [], false, false, 0, 0, false, false, false, 0, 0, 0, History(0, 0, 0, [], 0, 0))

  // No buffer is queued twice, and none that is queued is in use by the task.
  predicate Parts(s: Cam, others: set<nat>) {
    && others <= {0, 1, 2} && (forall b :: b in s.queue ==> b < BUFFERS && b !in others)
    && (forall i, j :: 0 <= i < j < |s.queue| ==> s.queue[i] != s.queue[j])
  }

  // The task waits, or its frame is ready.
  predicate WaitsOrReady(s: Cam, n: nat, others: set<nat>) {
    if s.waiting then
      !s.bit && |s.queue| == n && Parts(s, others)
    else
      s.bit && |s.queue| == n - 1 && s.ready !in others && Parts(s, others + {s.ready})
        && s.past.completedAt >= s.past.waitingSince
  }

  // A completed capture that the task has not taken over yet
  predicate Got(s: Cam, n: nat, others: set<nat>) {
    !s.waiting && !s.bit && |s.queue| == n && s.ready !in others && Parts(s, others + {s.ready})
      && s.past.completedAt >= s.past.waitingSince
  }

  predicate Placed(s: Cam) {
    match s.at
    case Idle => s.queue == [] && !s.waiting && !s.bit && !s.streaming && !s.running
    case BeginQueueOne => s.queue == [] && s.waiting && !s.bit && !s.streaming && !s.running
    case BeginQueueTwo => s.queue == [1] && s.waiting && !s.bit && !s.streaming && !s.running
    case BeginStart => s.queue == [1, 2] && s.waiting && !s.bit && !s.streaming && !s.running
    case BeginWait => WaitsOrReady(s, 2, {0}) && !s.streaming && s.running
    case BeginTake => Got(s, 1, {0}) && !s.streaming && s.running
    case BeginQueueZero => !s.waiting && !s.bit && |s.queue| == 1 && s.processing != 0
      && Parts(s, {0, s.processing}) && !s.streaming && s.running
    case Holding => !s.waiting && !s.bit && |s.queue| == 2 && Parts(s, {s.processing}) && s.streaming && s.running
    case EndWait => WaitsOrReady(s, 2, {s.processing}) && s.streaming && s.running
    case EndQueue => Got(s, 1, {s.processing}) && s.streaming && s.running
    case EndTake => Got(s, 2, {}) && s.streaming && s.running
    case StopWait => !s.waiting && |s.queue| <= 2 && Parts(s, {s.processing}) && s.streaming && s.running
      && s.bit == (s.queue == [])
    case StopFinish => !s.waiting && !s.bit && s.queue == [] && s.streaming && s.running
  }

  // Every frame was captured, at least to its end, after the task began to wait for it.
  predicate Fresh(frames: seq<Frame>) {
    forall i :: 0 <= i < |frames| ==> frames[i].waitingSince <= frames[i].completedAt
  }

  predicate Inv(s: Cam) {
    && Placed(s) && (s.discarding <==> s.at.StopWait? || s.at.StopFinish?)
    && s.queued < UINT32 && s.completed < UINT32 && s.Outstanding() == |s.queue|
    && s.past.waitingSince <= s.past.clock && Fresh(s.past.frames) && s.dropped == s.past.lost % UINT32
  }

  lemma InitialIsSafe()
    ensures Inv(INITIAL)
  {
  }

  // One more scheduled, one more completed, around the wrap of the counters
  lemma Counting(queued: nat, completed: nat)
    requires queued < UINT32 && completed < UINT32
    ensures Inc(queued) < UINT32 && Inc(completed) < UINT32
    ensures Sub(queued, completed) < BUFFERS ==> Sub(Inc(queued), completed) == Sub(queued, completed) + 1
    ensures Sub(queued, completed) > 0 ==> Sub(queued, Inc(completed)) == Sub(queued, completed) - 1
  {
  }

  lemma WaitedForKeepsInv(s: Cam)
    requires Inv(s) && s.running && s.queue != [] && s.waiting
    ensures Inv(s.CaptureDone())
  {
    hide Inc, Sub;
    Counting(s.queued, s.completed);
    var q := s.queue;
    assert q[0] != q[1] && q[0] in q && q[1] in q;
    assert s.CaptureDone().queue == [q[1]];
  }

  lemma DroppedKeepsInv(s: Cam)
    requires Inv(s) && s.running && s.queue != [] && !s.waiting && !s.discarding
    ensures Inv(s.CaptureDone())
  {
    assert Inc(s.dropped) == (s.past.lost + 1) % UINT32;
    hide Inc, Sub;
    var q := s.queue;
    var r := q[1..] + [q[0]];
    assert s.CaptureDone().queue == r && |r| == |q| <= 2;
    assert forall b :: b in r ==> b in q;
    assert |q| == 2 ==> r[0] == q[1] && r[1] == q[0] && q[0] != q[1];
  }

  lemma DiscardedKeepsInv(s: Cam)
    requires Inv(s) && s.running && s.queue != [] && s.discarding
    ensures Inv(s.CaptureDone())
  {
    hide Inc, Sub;
    Counting(s.queued, s.completed);
  }

  lemma BeginKeepsInv(s: Cam)
    requires Inv(s) && Runnable(s) && !s.streaming
    ensures Inv(s.Next())
  {
    hide Inc, Sub;
    Counting(s.queued, s.completed);
  }

  lemma EndKeepsInv(s: Cam)
    requires Inv(s) && Runnable(s) && s.streaming
    ensures Inv(s.Next())
  {
    hide Inc, Sub;
    Counting(s.queued, s.completed);
  }

  lemma StepKeepsInv(s: Cam, a: Action)
    requires Inv(s) && Legal(s, a)
    ensures Inv(Apply(s, a))
  {
    match a {
      case Run =>
        if s.streaming {
          EndKeepsInv(s);
        } else {
          BeginKeepsInv(s);
        }
      case Interrupt =>
        if s.waiting {
          WaitedForKeepsInv(s);
        } else if s.discarding {
          DiscardedKeepsInv(s);
        } else {
          DroppedKeepsInv(s);
        }
      case _ =>
    }
  }

  lemma NextIsSafe(s: Cam)
    requires Runnable(s)
    ensures Inv(s) ==> Inv(s.Next())
  {
    hide Inv, Cam.Next;
    if Inv(s) {
      StepKeepsInv(s, Run);
    }
  }

  lemma CaptureIsSafe(s: Cam)
    requires s.queue != []
    ensures Inv(s) && s.running ==> Inv(s.CaptureDone())
  {
    hide Inv, Cam.CaptureDone;
    if Inv(s) && s.running {
      StepKeepsInv(s, Interrupt);
    }
  }

  predicate LegalRun(s: Cam, actions: seq<Action>)
    decreases |actions|
  {
    actions == [] || (Legal(s, actions[0]) && LegalRun(Apply(s, actions[0]), actions[1..]))
  }

  function RunAll(s: Cam, actions: seq<Action>): Cam
    requires LegalRun(s, actions)
    decreases |actions|
  {
    if actions == [] then s else RunAll(Apply(s, actions[0]), actions[1..])
  }

  lemma {:induction false} EveryRunIsSafe(s: Cam, actions: seq<Action>)
    requires Inv(s) && LegalRun(s, actions)
    ensures Inv(RunAll(s, actions))
    decreases |actions|
  {
    hide Inv, Apply, Legal;
    if actions != [] {
      StepKeepsInv(s, actions[0]);
      EveryRunIsSafe(Apply(s, actions[0]), actions[1..]);
    }
  }

  // What a caller relies on: while it holds a frame no capture goes into that buffer, the other two
  // are queued, and it has waited for the frame since before the capture was completed. Outside a
  // streaming session nothing is outstanding.
  lemma WhatHoldingMeans(s: Cam)
    requires Inv(s)
    ensures s.at.Holding? ==>
      s.processing !in s.queue && (set b | b in s.queue) + {s.processing} == {0, 1, 2} && |s.queue| == 2
    ensures s.at.Idle? ==> s.queue == [] && s.queued == s.completed && !s.running
    ensures s.Outstanding() == |s.queue|
  {
    if s.at.Holding? {
      assert s.queue[0] in s.queue && s.queue[1] in s.queue;
    }
  }

  // The camera never writes into the frame the task holds, up to the call that gives it back.
  lemma HeldFrameIsNotWritten(s: Cam)
    requires Inv(s) && s.queue != [] && (s.at.Holding? || s.at.EndWait? || s.at.StopWait?)
    ensures s.queue[0] != s.processing
  {
  }

  // Each call that hands out a frame hands out one that was completed after it began to wait.
  lemma FramesAreFresh(s: Cam, actions: seq<Action>, i: nat)
    requires Inv(s) && LegalRun(s, actions) && i < |RunAll(s, actions).past.frames|
    ensures RunAll(s, actions).past.frames[i].waitingSince <= RunAll(s, actions).past.frames[i].completedAt
  {
    EveryRunIsSafe(s, actions);
  }

  // The task never blocks for good: while it waits there is a capture to come, or its bit is set.
  lemma NeverStuck(s: Cam)
    requires Inv(s) && !s.at.Idle? && !s.at.Holding?
    ensures Runnable(s) || (s.running && s.queue != [])
  {
  }

  // How many steps, of the task and of the camera, are left to the end of the call
  function StepsLeft(s: Cam): nat {
    match s.at
    case BeginQueueOne => 7
    case BeginQueueTwo => 6
    case BeginStart => 5
    case BeginWait => if s.bit then 3 else 4
    case BeginTake => 2
    case BeginQueueZero => 1
    case EndWait => if s.bit then 3 else 4
    case EndQueue => 2
    case EndTake => 1
    case StopWait => |s.queue| + 2
    case StopFinish => 1
    case _ => 0
  }

  // Every statement brings the end of the call nearer, and so does every capture it waits for.
  lemma CallsEnd(s: Cam, a: Action)
    requires Inv(s) && Legal(s, a) && !s.at.Idle? && !s.at.Holding?
    ensures StepsLeft(Apply(s, a)) <= StepsLeft(s)
    ensures a.Run? || !Runnable(s) ==> StepsLeft(Apply(s, a)) < StepsLeft(s)
  {
    hide Inc, Sub;
  }

  // The run of a call to its end: statements of the task and captures, until it is outside again
  predicate WholeCall(s: Cam, actions: seq<Action>)
    decreases |actions|
  {
    if s.at.Idle? || s.at.Holding? then actions == []
    else
      && actions != [] && (actions[0].Run? || actions[0].Interrupt?) && Legal(s, actions[0])
      && WholeCall(Apply(s, actions[0]), actions[1..])
  }

  lemma {:induction false} WholeCallIsLegal(s: Cam, actions: seq<Action>)
    requires WholeCall(s, actions)
    ensures LegalRun(s, actions)
    decreases |actions|
  {
    if actions != [] {
      WholeCallIsLegal(Apply(s, actions[0]), actions[1..]);
    }
  }

  // disconnect drains the camera: it ends with nothing outstanding, exactly, every queued capture
  // discarded and no frame handed out.
  lemma {:induction false} DisconnectDrains(s: Cam, actions: seq<Action>)
    requires Inv(s) && (s.at.StopWait? || s.at.StopFinish?) && WholeCall(s, actions)
    ensures LegalRun(s, actions)
    ensures var t := RunAll(s, actions);
            && t.at.Idle? && t.queue == [] && t.queued == t.completed && !t.running && t.past.frames == s.past.frames
            && t.past.discarded == s.past.discarded + |s.queue|
    decreases |actions|
  {
    hide Inc, Sub;
    WholeCallIsLegal(s, actions);
    var a, t := actions[0], Apply(s, actions[0]);
    StepKeepsInv(s, a);
    if t.at.Idle? {
      WhatHoldingMeans(t);
    } else {
      DisconnectDrains(t, actions[1..]);
    }
  }

  // A call that was begun can be finished: by the task, or by a capture while it waits.
  lemma {:induction false} CallCanEnd(s: Cam) returns (actions: seq<Action>)
    requires Inv(s)
    ensures WholeCall(s, actions)
    decreases StepsLeft(s)
  {
    actions := [];
    if !s.at.Idle? && !s.at.Holding? {
      var a := if Runnable(s) then Run else Interrupt;
      NeverStuck(s);
      StepKeepsInv(s, a);
      CallsEnd(s, a);
      hide Inv;
      var rest := CallCanEnd(Apply(s, a));
      actions := [a] + rest;
      assert actions[1..] == rest;
    }
  }

  // One frame more was handed out, and the task has it.
  predicate HandedOut(s: Cam, t: Cam) {
    var n := |s.past.frames|;
    && t.at.Holding? && |t.past.frames| == n + 1 && t.past.frames[..n] == s.past.frames
    && t.past.frames[n].buffer == t.processing && t.past.frames[n].waitingSince == s.past.waitingSince
  }

  // The buffer given back to the camera is another than the one handed out.
  predicate GivenBack(b: nat, t: Cam) {
    t.processing != b && b in t.queue
  }

  predicate InBegin(s: Cam) {
    s.at.BeginQueueOne? || s.at.BeginQueueTwo? || s.at.BeginStart? || s.at.BeginWait? || s.at.BeginTake?
  }

  predicate InEnd(s: Cam) { s.at.EndWait? || s.at.EndQueue? || (s.at.EndTake? && s.processing in s.queue) }

  // The frame just handed out is still the last one.
  predicate Finishing(s: Cam) {
    s.at.BeginQueueZero? && s.past.frames != [] && s.past.frames[|s.past.frames| - 1].buffer == s.processing
  }

  lemma BeginGoesOn(s: Cam, a: Action)
    requires Inv(s) && Legal(s, a) && (a.Run? || a.Interrupt?) && InBegin(s)
    ensures var t := Apply(s, a);
            && t.past.waitingSince == s.past.waitingSince
            && if s.at.BeginTake? && a.Run? then
                 && Finishing(t)
                 && t.past.frames == s.past.frames + [Frame(t.processing, t.past.completedAt, t.past.waitingSince)]
               else
                 InBegin(t) && t.past.frames == s.past.frames
  {
    hide Inc, Sub;
  }

  lemma FinishingGoesOn(s: Cam, a: Action)
    requires Inv(s) && Legal(s, a) && (a.Run? || a.Interrupt?) && Finishing(s)
    ensures var t := Apply(s, a);
            && t.past.frames == s.past.frames && t.processing == s.processing
            && if a.Run? then t.at.Holding? else Finishing(t)
  {
    hide Inc, Sub;
  }

  lemma EndGoesOn(s: Cam, a: Action)
    requires Inv(s) && Legal(s, a) && (a.Run? || a.Interrupt?) && InEnd(s)
    ensures var t := Apply(s, a);
            && t.past.waitingSince == s.past.waitingSince
            && if s.at.EndTake? && a.Run? then
                 && t.at.Holding? && GivenBack(s.processing, t)
                 && t.past.frames == s.past.frames + [Frame(t.processing, t.past.completedAt, t.past.waitingSince)]
               else
                 InEnd(t) && t.past.frames == s.past.frames && t.processing == s.processing
  {
    hide Inc, Sub;
    if a.Interrupt? {
      assert forall b :: b in s.queue[1..] ==> b in s.queue;
      assert s.queue == [s.queue[0]] + s.queue[1..];
    }
  }

  lemma {:induction false} RestOfFinishing(s: Cam, actions: seq<Action>)
    requires Inv(s) && Finishing(s) && WholeCall(s, actions)
    ensures LegalRun(s, actions)
    ensures var t := RunAll(s, actions); t.at.Holding? && t.past.frames == s.past.frames && t.processing == s.processing
    decreases |actions|
  {
    hide Inv, Apply;
    WholeCallIsLegal(s, actions);
    var t := Apply(s, actions[0]);
    StepKeepsInv(s, actions[0]);
    FinishingGoesOn(s, actions[0]);
    if !t.at.Holding? {
      RestOfFinishing(t, actions[1..]);
    }
  }

  lemma {:induction false} RestOfBegin(s: Cam, actions: seq<Action>)
    requires Inv(s) && InBegin(s) && WholeCall(s, actions)
    ensures LegalRun(s, actions) && HandedOut(s, RunAll(s, actions))
    decreases |actions|
  {
    hide Inv, Apply, Finishing;
    WholeCallIsLegal(s, actions);
    var t := Apply(s, actions[0]);
    StepKeepsInv(s, actions[0]);
    BeginGoesOn(s, actions[0]);
    if s.at.BeginTake? && actions[0].Run? {
      RestOfFinishing(t, actions[1..]);
    } else {
      RestOfBegin(t, actions[1..]);
    }
  }

  lemma {:induction false} RestOfEnd(s: Cam, actions: seq<Action>)
    requires Inv(s) && InEnd(s) && WholeCall(s, actions)
    ensures LegalRun(s, actions) && HandedOut(s, RunAll(s, actions)) && GivenBack(s.processing, RunAll(s, actions))
    decreases |actions|
  {
    hide Inv, Apply, GivenBack;
    WholeCallIsLegal(s, actions);
    var t := Apply(s, actions[0]);
    StepKeepsInv(s, actions[0]);
    EndGoesOn(s, actions[0]);
    if InEnd(t) {
      RestOfEnd(t, actions[1..]);
    }
  }

  // camera_pipeline_end_frame as a whole, wherever interrupts come: exactly one more frame is handed
  // out, in another buffer, that the task began to wait for in this call, and the old buffer is with the
  // camera again.
  lemma EndFrameHandsOutTheNext(s: Cam, actions: seq<Action>)
    requires Inv(s) && s.at.Holding? && WholeCall(s.EndFrame(), actions)
    ensures LegalRun(s, [End] + actions)
    ensures var t := RunAll(s, [End] + actions);
            && var n := |s.past.frames|;
            && t.at.Holding? && |t.past.frames| == n + 1 && t.past.frames[..n] == s.past.frames
            && t.past.frames[n].buffer == t.processing != s.processing && s.processing in t.queue
            && s.past.clock < t.past.frames[n].waitingSince <= t.past.frames[n].completedAt
  {
    assert ([End] + actions)[1..] == actions;
    StepKeepsInv(s, End);
    RestOfEnd(s.EndFrame(), actions);
    FramesAreFresh(s.EndFrame(), actions, |s.past.frames|);
    hide Inv;
  }

  // camera_pipeline_begin_frame from outside a session: one frame is handed out, and the camera has the
  // other two buffers. Within a session the frame that is held is handed out again.
  lemma BeginFrameHandsOutAFrame(s: Cam, actions: seq<Action>)
    requires Inv(s) && (s.at.Idle? || s.at.Holding?) && WholeCall(s.BeginFrame(), actions)
    ensures LegalRun(s, [Begin] + actions)
    ensures var t := RunAll(s, [Begin] + actions);
            var n := |s.past.frames|;
            if s.at.Holding? then t == s
            else
              && t.at.Holding? && |t.past.frames| == n + 1 && t.past.frames[..n] == s.past.frames
              && t.past.frames[n].buffer == t.processing
              && s.past.clock < t.past.frames[n].waitingSince <= t.past.frames[n].completedAt
              && (set b | b in t.queue) + {t.processing} == {0, 1, 2} && |t.queue| == 2
  {
    assert ([Begin] + actions)[1..] == actions;
    StepKeepsInv(s, Begin);
    if s.at.Idle? {
      RestOfBegin(s.BeginFrame(), actions);
      FramesAreFresh(s.BeginFrame(), actions, |s.past.frames|);
      EveryRunIsSafe(s.BeginFrame(), actions);
      WhatHoldingMeans(RunAll(s.BeginFrame(), actions));
    }
    hide Inv;
  }

  // camera_pipeline_disconnect as a whole: the session is over, the two captures that were queued are
  // discarded, nothing is outstanding and no frame was handed out. Outside a session it does nothing.
  lemma DisconnectEndsTheSession(s: Cam, actions: seq<Action>)
    requires Inv(s) && (s.at.Idle? || s.at.Holding?) && WholeCall(s.Disconnect(), actions)
    ensures LegalRun(s, [Stop] + actions)
    ensures var t := RunAll(s, [Stop] + actions);
            if s.at.Idle? then t == s
            else
              && t.at.Idle? && t.queue == [] && !t.running && t.queued == t.completed
              && t.past.frames == s.past.frames && t.past.discarded == s.past.discarded + 2
  {
    assert ([Stop] + actions)[1..] == actions;
    StepKeepsInv(s, Stop);
    if s.at.Holding? {
      DisconnectDrains(s.Disconnect(), actions);
    }
    hide Inv;
  }

  function Captures(actions: seq<Action>): nat {
    if actions == [] then 0 else (if actions[0].Interrupt? then 1 else 0) + Captures(actions[1..])
  }

  // A completed capture is ready for the task.
  predicate IsReady(s: Cam) {
    ((s.at.BeginWait? || s.at.EndWait?) && s.bit) || s.at.BeginTake? || s.at.EndQueue? || s.at.EndTake?
  }

  function Served(s: Cam): nat {
    |s.past.frames| + if IsReady(s) then 1 else 0
  }

  // Conservation: every capture is served, dropped or discarded, and counted once; dropped_frames is
  // the count of the dropped ones, modulo its width.
  lemma {:induction false} EveryCaptureCounts(s: Cam, actions: seq<Action>)
    requires Inv(s) && LegalRun(s, actions)
    ensures var t := RunAll(s, actions);
            && Served(t) + t.past.lost + t.past.discarded
            == Served(s) + s.past.lost + s.past.discarded + Captures(actions)
            && t.dropped == t.past.lost % UINT32
    decreases |actions|
  {
    hide Inv, Apply, Legal, Served;
    DroppedIsLost(s);
    if actions != [] {
      var t := Apply(s, actions[0]);
      StepKeepsInv(s, actions[0]);
      CaptureCounts(s, actions[0]);
      EveryCaptureCounts(t, actions[1..]);
    }
  }

  lemma DroppedIsLost(s: Cam)
    requires Inv(s)
    ensures s.dropped == s.past.lost % UINT32
  {
  }

  lemma CaptureCounts(s: Cam, a: Action)
    requires Inv(s) && Legal(s, a)
    ensures var t := Apply(s, a);
            Served(t) + t.past.lost + t.past.discarded
            == Served(s) + s.past.lost + s.past.discarded + if a.Interrupt? then 1 else 0
  {
    hide Sub, Inc;
  }

  // The module's static variables. The task's calls are cut where they can be interrupted; the camera
  // and the event group stand for the drivers.
  class Pipeline {
    var at: Place
    var queue: seq<nat>
    var running: bool
    var bit: bool
    var readyBuffer: nat
    var processingBuffer: nat
    var consumerWaiting: bool
    var cameraStreaming: bool
    var discardingCaptures: bool
    var capturesQueued: nat
    var capturesCompleted: nat
    var droppedFrames: nat
    ghost var past: History

    ghost function Value(): Cam
      reads this
    {
      Cam(at, queue, running, bit, readyBuffer, processingBuffer, consumerWaiting, cameraStreaming, discardingCaptures,
          capturesQueued, capturesCompleted, droppedFrames, past)
    }

    constructor ()
      ensures Value() == INITIAL && Inv(Value())
    {
      at, queue, running, bit := Idle, [], false, false;
      readyBuffer, processingBuffer := 0, 0;
      consumerWaiting, cameraStreaming, discardingCaptures := false, false, false;
      capturesQueued, capturesCompleted, droppedFrames := 0, 0, 0;
      past := History(0, 0, 0, [], 0, 0);
      new;
      InitialIsSafe();
    }

    function Outstanding(): int
      reads this
    {
      Sub(capturesQueued, capturesCompleted)
    }

    // pi_camera_capture_async
    method QueueCapture(b: nat)
      modifies this`queue
      ensures queue == old(queue) + [b]
    {
      queue := queue + [b];
    }

    method ScheduleCapture(b: nat)
      modifies this`queue, this`capturesQueued
      ensures Value() == old(Value()).Schedule(b)
    {
      capturesQueued := Inc(capturesQueued);
      QueueCapture(b);
    }

    method CaptureDone()
      requires queue != []
      modifies `queue, `bit, `readyBuffer, `consumerWaiting, `capturesCompleted, `droppedFrames
      modifies `past
      ensures Value() == old(Value()).CaptureDone()
      ensures old(Inv(Value()) && running) ==> Inv(Value())
    {
      hide Inv;
      CaptureIsSafe(Value());
      hide Inc, Sub, Cam.Discard, Cam.Deliver, Cam.Drop;
      var b := queue[0];
      queue := queue[1..];
      past := past.(clock := past.clock + 1);
      if discardingCaptures {
        Discard();
      } else if consumerWaiting {
        Deliver(b);
      } else {
        Drop(b);
      }
    }

    method Discard()
      modifies `capturesCompleted, `past, `bit
      ensures Value() == old(Value()).Discard()
    {
      hide Inc, Sub;
      capturesCompleted := Inc(capturesCompleted);
      past := past.(discarded := past.discarded + 1);
      if Outstanding() == 0 {
        bit := true;
      }
    }

    method Deliver(b: nat)
      modifies `capturesCompleted, `readyBuffer, `past, `consumerWaiting, `bit
      ensures Value() == old(Value()).Deliver(b)
    {
      capturesCompleted := Inc(capturesCompleted);
      readyBuffer := b;
      past := past.(completedAt := past.clock);
      consumerWaiting := false;
      bit := true;
    }

    // The buffer is queued again at once, so nothing changes in what is outstanding.
    method Drop(b: nat)
      modifies `droppedFrames, `past, `queue
      ensures Value() == old(Value()).Drop(b)
    {
      droppedFrames := Inc(droppedFrames);
      past := past.(lost := past.lost + 1);
      QueueCapture(b);
    }

    method BeginFrame()
      modifies this
      ensures Value() == old(Value()).BeginFrame()
      ensures old(Inv(Value()) && (at.Idle? || at.Holding?)) ==> Inv(Value())
    {
      hide Inv;
      if Inv(Value()) && (at.Idle? || at.Holding?) {
        StepKeepsInv(Value(), Begin);
      }
      if !cameraStreaming {
        past := past.(clock := past.clock + 1);
        consumerWaiting := true;
        past := past.(waitingSince := past.clock);
        at := BeginQueueOne;
      }
    }

    method EndFrame()
      modifies this
      ensures Value() == old(Value()).EndFrame()
      ensures old(Inv(Value()) && at.Holding?) ==> Inv(Value())
    {
      hide Inv;
      if Inv(Value()) && at.Holding? {
        StepKeepsInv(Value(), End);
      }
      past := past.(clock := past.clock + 1);
      consumerWaiting := true;
      past := past.(waitingSince := past.clock);
      at := EndWait;
    }

    method Disconnect()
      modifies this
      ensures Value() == old(Value()).Disconnect()
      ensures old(Inv(Value()) && (at.Idle? || at.Holding?)) ==> Inv(Value())
    {
      hide Inv;
      if Inv(Value()) && (at.Idle? || at.Holding?) {
        StepKeepsInv(Value(), Stop);
      }
      if cameraStreaming {
        past := past.(clock := past.clock + 1);
        bit := false;
        discardingCaptures := true;
        at := StopWait;
      }
    }

    // processing_buffer = ready_buffer
    method TakeReady()
      modifies this`processingBuffer, this`past
      ensures Value() == old(Value()).Take()
    {
      processingBuffer := readyBuffer;
      past := past.(frames := past.frames + [Frame(readyBuffer, past.completedAt, past.waitingSince)]);
    }

    // The statements of camera_pipeline_begin_frame
    method ContinueBegin()
      requires Runnable(Value()) && (at.BeginQueueOne? || at.BeginQueueTwo? || at.BeginStart?)
      modifies `at, `queue, `capturesQueued, `running, `past
      ensures Value() == old(Value()).Next()
      ensures old(Inv(Value())) ==> Inv(Value())
    {
      hide Inc, Sub, Inv;
      NextIsSafe(Value());
      past := past.(clock := past.clock + 1);
      match at {
        case BeginQueueOne =>
          ScheduleCapture(1);
          at := BeginQueueTwo;
        case BeginQueueTwo =>
          ScheduleCapture(2);
          at := BeginStart;
        case BeginStart =>
          running := true;
          at := BeginWait;
      }
    }

    // Behind its wait
    method FinishBegin()
      requires Runnable(Value()) && (at.BeginWait? || at.BeginTake? || at.BeginQueueZero?)
      modifies `at, `queue, `capturesQueued, `bit, `processingBuffer, `cameraStreaming, `past
      ensures Value() == old(Value()).Next()
      ensures old(Inv(Value())) ==> Inv(Value())
    {
      hide Inc, Sub, Inv;
      NextIsSafe(Value());
      past := past.(clock := past.clock + 1);
      match at {
        case BeginWait =>
          bit := false;
          at := BeginTake;
        case BeginTake =>
          TakeReady();
          at := BeginQueueZero;
        case BeginQueueZero =>
          ScheduleCapture(0);
          cameraStreaming := true;
          at := Holding;
      }
    }

    // The statements of camera_pipeline_end_frame
    method ContinueEnd()
      requires Runnable(Value()) && (at.EndWait? || at.EndQueue? || at.EndTake?)
      modifies `at, `queue, `capturesQueued, `bit, `processingBuffer, `past
      ensures Value() == old(Value()).Next()
      ensures old(Inv(Value())) ==> Inv(Value())
    {
      hide Inc, Sub, Inv;
      NextIsSafe(Value());
      past := past.(clock := past.clock + 1);
      match at {
        case EndWait =>
          bit := false;
          at := EndQueue;
        case EndQueue =>
          ScheduleCapture(processingBuffer);
          at := EndTake;
        case EndTake =>
          TakeReady();
          at := Holding;
      }
    }

    // The statements of camera_pipeline_disconnect
    method ContinueDisconnect()
      requires Runnable(Value()) && (at.StopWait? || at.StopFinish?)
      modifies `at, `bit, `cameraStreaming, `consumerWaiting, `discardingCaptures, `running, `past
      ensures Value() == old(Value()).Next()
      ensures old(Inv(Value())) ==> Inv(Value())
    {
      hide Inc, Sub, Inv;
      NextIsSafe(Value());
      past := past.(clock := past.clock + 1);
      match at {
        case StopWait =>
          bit := false;
          at := StopFinish;
        case StopFinish =>
          cameraStreaming := false;
          consumerWaiting := false;
          discardingCaptures := false;
          running := false;
          at := Idle;
      }
    }
  }
}
