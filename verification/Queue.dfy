// The circular buffer of queue.c: three adjacent FIFO segments, from oldest to newest the elements
// the consumer has checked out, the ready ones, and those the producer is filling.

module Queue {
  import opened Prelude

  // What a caller sees: elements are named by their slot, which is what the returned address means.
  // `fault` records a QUEUE_ASSERTION_FAILURE.
  datatype Segments = Segments(consumed: seq<nat>, ready: seq<nat>, acquired: seq<nat>, fault: bool) {

    function Live(): seq<nat> { consumed + ready + acquired }

    function Size(): nat { |consumed| + |ready| + |acquired| }

    function Commit(el: nat): Segments {
      if acquired == [] || el != acquired[0] then this.(fault := true)
      else this.(ready := ready + [el], acquired := acquired[1..])
    }

    function Discard(el: nat): Segments {
      if acquired == [] || el != acquired[|acquired| - 1] then this.(fault := true)
      else this.(acquired := acquired[..|acquired| - 1])
    }

    function Consume(): Segments {
      if ready == [] then this else this.(consumed := consumed + [ready[0]], ready := ready[1..])
    }

    function Release(el: nat): Segments {
      if consumed == [] || el != consumed[0] then this.(fault := true)
      else this.(consumed := consumed[1..])
    }
  }

  // How queue_push_acquire(overwrite) may change the segments of a queue of `capacity` slots.
  ghost predicate Acquires(s: Segments, capacity: nat, overwrite: bool, el: Option<nat>, t: Segments) {
    if s.Size() < capacity then
      // A free slot is handed out.
      el.Some? && el.value < capacity && el.value !in s.Live() && t == s.(acquired := s.acquired + [el.value])
    else if !overwrite || s.ready == [] then
      // Full: nothing may be overwritten.
      el == None && t == s
    else if s.consumed == [] then
      // The oldest ready element is dropped, and its slot handed out.
      el == Some(s.ready[0]) && t == s.(ready := s.ready[1..], acquired := s.acquired + [s.ready[0]])
    else
      // Releasing the dropped element before those the consumer still holds is out of order.
      t.fault
  }

  ghost predicate Distinct(s: seq<nat>) {
    forall i, j :: 0 <= i < j < |s| ==> s[i] != s[j]
  }

  ghost predicate Below(s: seq<nat>, n: nat) {
    forall i :: 0 <= i < |s| ==> s[i] < n
  }

  // The segments together with what the slots hold, which callers write and read in place
  datatype Ring<T> = Ring(segments: Segments, data: seq<T>) {

    ghost predicate Valid() {
      Distinct(segments.Live()) && Below(segments.Live(), |data|)
    }

    // The elements that are ready, in order
    ghost function Ready(): (values: seq<T>)
      requires Valid()
      ensures |values| == |segments.ready|
    {
      seq(|segments.ready|, i requires 0 <= i < |segments.ready| =>
        assert segments.ready[i] in segments.Live(); data[segments.ready[i]])
    }
  }

  // Operations; an acquisition names the slot it got, if any.
  datatype Op<T> =
    | Acquired(overwrite: bool, slot: Option<nat>)
    | Written(el: nat, value: T)
    | Committed(el: nat)
    | Discarded(el: nat)
    | Consumed
    | Released(el: nat)

  function Acquire(s: Segments, capacity: nat, overwrite: bool, slot: Option<nat>): Segments {
    if s.Size() < capacity then (if slot.Some? then s.(acquired := s.acquired + [slot.value]) else s)
    else if !overwrite || s.ready == [] then s
    else if s.consumed == [] then s.(ready := s.ready[1..], acquired := s.acquired + [s.ready[0]])
    else s.(fault := true)
  }

  function Do<T>(r: Ring<T>, op: Op<T>): Ring<T> {
    match op
    case Acquired(overwrite, slot) => r.(segments := Acquire(r.segments, |r.data|, overwrite, slot))
    case Written(el, value) => if el < |r.data| then r.(data := r.data[el := value]) else r
    case Committed(el) => r.(segments := r.segments.Commit(el))
    case Discarded(el) => r.(segments := r.segments.Discard(el))
    case Consumed => r.(segments := r.segments.Consume())
    case Released(el) => r.(segments := r.segments.Release(el))
  }

  // Acquisitions do what queue_push_acquire does, and a producer writes only to what it has acquired.
  ghost predicate Legal<T>(r: Ring<T>, op: Op<T>) {
    match op
    case Acquired(overwrite, slot) =>
      Acquires(r.segments, |r.data|, overwrite, slot, Do(r, op).segments)
    case Written(el, _) => el in r.segments.acquired
    case _ => true
  }

  // Elements are given back in order: the oldest acquired one is committed, the newest is discarded, the
  // oldest consumed one is released; and nothing is overwritten in front of what the consumer holds.
  ghost predicate InOrder<T>(r: Ring<T>, op: Op<T>) {
    var s := r.segments;
    match op
    case Acquired(overwrite, _) => overwrite && s.Size() >= |r.data| && s.ready != [] ==> s.consumed == []
    case Committed(el) => s.acquired != [] && el == s.acquired[0]
    case Discarded(el) => s.acquired != [] && el == s.acquired[|s.acquired| - 1]
    case Released(el) => s.consumed != [] && el == s.consumed[0]
    case _ => true
  }

  ghost predicate LegalRun<T>(r: Ring<T>, ops: seq<Op<T>>)
    decreases |ops|
  {
    ops == [] || (Legal(r, ops[0]) && LegalRun(Do(r, ops[0]), ops[1..]))
  }

  function DoAll<T>(r: Ring<T>, ops: seq<Op<T>>): Ring<T>
    decreases |ops|
  {
    if ops == [] then r else DoAll(Do(r, ops[0]), ops[1..])
  }

  // An acquisition that drops the oldest ready element
  predicate Overwrites<T>(r: Ring<T>, op: Op<T>) {
    op.Acquired? && op.overwrite && r.segments.Size() >= |r.data| && r.segments.ready != [] && r.segments.consumed == []
  }

  // What is in the slots that a step commits, and in those it takes off the ready ones
  ghost function In<T>(r: Ring<T>, op: Op<T>): seq<T> {
    if op.Committed? && op.el < |r.data| then [r.data[op.el]] else []
  }

  ghost function Gone<T>(r: Ring<T>, op: Op<T>): seq<T>
    requires r.Valid()
  {
    if (op.Consumed? && r.segments.ready != []) || Overwrites(r, op) then [r.Ready()[0]] else []
  }

  ghost function Ins<T>(r: Ring<T>, ops: seq<Op<T>>): seq<T>
    decreases |ops|
  {
    if ops == [] then [] else In(r, ops[0]) + Ins(Do(r, ops[0]), ops[1..])
  }

  // In one order, what was consumed and what was dropped, as it was then
  ghost function AllGone<T>(r: Ring<T>, ops: seq<Op<T>>): seq<T>
    requires r.Valid() && LegalRun(r, ops) && !DoAll(r, ops).segments.fault
    decreases |ops|
  {
    if ops == [] then []
    else
      assert Do(r, ops[0]).Valid() by { NoFaultSoFar(r, ops); StepKeepsValid(r, ops[0]); }
      Gone(r, ops[0]) + AllGone(Do(r, ops[0]), ops[1..])
  }

  ghost function Outs<T>(r: Ring<T>, ops: seq<Op<T>>): seq<T>
    requires r.Valid() && LegalRun(r, ops) && !DoAll(r, ops).segments.fault
    decreases |ops|
  {
    if ops == [] then []
    else
      assert Do(r, ops[0]).Valid() by { NoFaultSoFar(r, ops); StepKeepsValid(r, ops[0]); }
      (if ops[0].Consumed? then Gone(r, ops[0]) else []) + Outs(Do(r, ops[0]), ops[1..])
  }

  lemma {:induction false} FaultStays<T>(r: Ring<T>, ops: seq<Op<T>>)
    requires r.segments.fault
    ensures DoAll(r, ops).segments.fault
    decreases |ops|
  {
    if ops != [] {
      FaultStays(Do(r, ops[0]), ops[1..]);
    }
  }

  lemma NoFaultSoFar<T>(r: Ring<T>, ops: seq<Op<T>>)
    requires ops != [] && !DoAll(r, ops).segments.fault
    ensures !Do(r, ops[0]).segments.fault
  {
    if Do(r, ops[0]).segments.fault {
      FaultStays(Do(r, ops[0]), ops[1..]);
    }
  }

  // What may become of the live slots in one line, oldest first: a step appends one, drops the last,
  // drops the first, moves the first to the end, or leaves them.
  ghost predicate Moves(live: seq<nat>, next: seq<nat>, capacity: nat) {
    || next == live
    || (exists el: nat :: el < capacity && el !in live && next == live + [el])
    || (live != [] && (next == live[1..] || next == live[..|live| - 1] || next == live[1..] + [live[0]]))
  }

  lemma MovesKeepDistinct(live: seq<nat>, next: seq<nat>, capacity: nat)
    requires Moves(live, next, capacity) && Distinct(live) && Below(live, capacity)
    ensures Distinct(next) && Below(next, capacity)
  {
    if next == live {
    } else if live != [] && next == live[1..] {
    } else if live != [] && next == live[..|live| - 1] {
    } else if live != [] && next == live[1..] + [live[0]] {
      assert live[0] !in live[1..];
      DistinctAppend(live[1..], live[0]);
    } else {
      var el: nat :| el < capacity && el !in live && next == live + [el];
      DistinctAppend(live, el);
    }
  }

  lemma DistinctAppend(s: seq<nat>, el: nat)
    requires Distinct(s) && el !in s
    ensures Distinct(s + [el])
  {
  }

  lemma LiveMoves<T>(r: Ring<T>, op: Op<T>)
    requires Legal(r, op) && !Do(r, op).segments.fault
    ensures Moves(r.segments.Live(), Do(r, op).segments.Live(), |r.data|) && |Do(r, op).data| == |r.data|
  {
    var s, t := r.segments, Do(r, op).segments;
    if Overwrites(r, op) {
      assert t.Live() == s.Live()[1..] + [s.Live()[0]];
    } else if op.Acquired? && s.Size() < |r.data| {
      assert t.Live() == s.Live() + [op.slot.value];
    } else if op.Discarded? {
      assert t.Live() == s.Live()[..|s.Live()| - 1];
    } else if op.Released? {
      assert t.Live() == s.Live()[1..];
    } else {
      assert t.Live() == s.Live();
    }
  }

  // No slot is ever in two segments, or twice in one.
  lemma StepKeepsValid<T>(r: Ring<T>, op: Op<T>)
    requires r.Valid() && Legal(r, op) && !Do(r, op).segments.fault
    ensures Do(r, op).Valid() && |Do(r, op).data| == |r.data|
  {
    hide Legal, Do, Segments.Live, Moves, Distinct, Below;
    LiveMoves(r, op);
    MovesKeepDistinct(r.segments.Live(), Do(r, op).segments.Live(), |r.data|);
  }

  lemma ReadyIs<T>(r: Ring<T>, t: Ring<T>)
    requires r.Valid() && t.Valid() && t.segments.ready == r.segments.ready
    requires forall el: nat :: el in r.segments.ready && el < |r.data| && el < |t.data| ==> t.data[el] == r.data[el]
    ensures t.Ready() == r.Ready()
  {
    forall i | 0 <= i < |r.segments.ready| ensures t.Ready()[i] == r.Ready()[i] {
      assert r.segments.ready[i] in r.segments.Live() && t.segments.ready[i] in t.segments.Live();
    }
  }

  lemma WrittenIsElsewhere<T>(r: Ring<T>, el: nat)
    requires r.Valid() && el in r.segments.acquired
    ensures el !in r.segments.ready && el !in r.segments.consumed
  {
    var s := r.segments;
    var k :| 0 <= k < |s.acquired| && s.acquired[k] == el;
    assert s.Live()[|s.consumed| + |s.ready| + k] == el;
    assert forall i :: 0 <= i < |s.ready| ==> s.ready[i] == s.Live()[|s.consumed| + i];
    assert forall i :: 0 <= i < |s.consumed| ==> s.consumed[i] == s.Live()[i];
  }

  lemma OneInOneOut<T>(r: Ring<T>, op: Op<T>)
    requires r.Valid() && Legal(r, op) && !Do(r, op).segments.fault && Do(r, op).Valid()
    ensures Gone(r, op) + Do(r, op).Ready() == r.Ready() + In(r, op)
  {
    var t := Do(r, op);
    if op.Committed? {
      assert op.el in r.segments.Live();
      assert t.Ready() == r.Ready() + [r.data[op.el]];
    } else if Gone(r, op) != [] {
      assert t.Ready() == r.Ready()[1..];
    } else {
      if op.Written? {
        WrittenIsElsewhere(r, op.el);
      }
      ReadyIs(r, t);
    }
  }

  // Which slots are taken from the free ones, and given back to them
  ghost function Takes<T>(r: Ring<T>, op: Op<T>): nat {
    if op.Acquired? && r.segments.Size() < |r.data| then 1 else 0
  }

  ghost function Returns<T>(op: Op<T>): nat {
    if op.Discarded? || op.Released? then 1 else 0
  }

  ghost function AllTakes<T>(r: Ring<T>, ops: seq<Op<T>>): nat
    decreases |ops|
  {
    if ops == [] then 0 else Takes(r, ops[0]) + AllTakes(Do(r, ops[0]), ops[1..])
  }

  ghost function AllReturns<T>(ops: seq<Op<T>>): nat {
    if ops == [] then 0 else Returns(ops[0]) + AllReturns(ops[1..])
  }

  ghost predicate InOrderRun<T>(r: Ring<T>, ops: seq<Op<T>>)
    decreases |ops|
  {
    ops == [] || (InOrder(r, ops[0]) && InOrderRun(Do(r, ops[0]), ops[1..]))
  }

  lemma OrderAtStep<T>(r: Ring<T>, op: Op<T>)
    requires Legal(r, op)
    ensures Do(r, op).segments.fault <==> r.segments.fault || !InOrder(r, op)
    ensures |Do(r, op).data| == |r.data|
    ensures InOrder(r, op) ==> Do(r, op).segments.Size() + Returns(op) == r.segments.Size() + Takes(r, op)
  {
  }

  // An assertion is met exactly by elements out of order. Otherwise every slot is conserved: as many
  // are in use as were before and were taken since, less those given back.
  lemma {:induction false} SlotsAreConserved<T>(r: Ring<T>, ops: seq<Op<T>>)
    requires LegalRun(r, ops) && !r.segments.fault
    ensures !DoAll(r, ops).segments.fault <==> InOrderRun(r, ops)
    ensures InOrderRun(r, ops) ==>
      DoAll(r, ops).segments.Size() + AllReturns(ops) == r.segments.Size() + AllTakes(r, ops)
    decreases |ops|
  {
    hide Do, Legal, InOrder, Takes, Returns, Segments.Size;
    if ops != [] {
      OrderAtStep(r, ops[0]);
      if InOrder(r, ops[0]) {
        SlotsAreConserved(Do(r, ops[0]), ops[1..]);
      } else {
        FaultStays(Do(r, ops[0]), ops[1..]);
      }
    }
  }

  // First in, first out, over every run and for what is in the slots: the elements committed leave the
  // ready ones in their order, each once and as it was committed, consumed or dropped by an
  // overwriting acquisition, but for those still ready.
  lemma {:induction false} Fifo<T>(r: Ring<T>, ops: seq<Op<T>>)
    requires r.Valid() && LegalRun(r, ops) && !DoAll(r, ops).segments.fault
    ensures DoAll(r, ops).Valid()
    ensures AllGone(r, ops) + DoAll(r, ops).Ready() == r.Ready() + Ins(r, ops)
    decreases |ops|
  {
    hide Do, In, Gone, Ring.Ready, Ring.Valid, Legal;
    if ops != [] {
      var t, rest := Do(r, ops[0]), ops[1..];
      NoFaultSoFar(r, ops);
      StepKeepsValid(r, ops[0]);
      OneInOneOut(r, ops[0]);
      Fifo(t, rest);
      Regroup(Gone(r, ops[0]), AllGone(t, rest), DoAll(t, rest).Ready(), t.Ready(), Ins(t, rest), r.Ready(),
        In(r, ops[0]));
    }
  }

  lemma Regroup<T>(out: seq<T>, outs: seq<T>, left: seq<T>, ready: seq<T>, ins: seq<T>, first: seq<T>, entry: seq<T>)
    requires outs + left == ready + ins && out + ready == first + entry
    ensures (out + outs) + left == first + (entry + ins)
  {
    assert (out + outs) + left == out + (outs + left);
    assert out + (ready + ins) == (out + ready) + ins;
    assert (first + entry) + ins == first + (entry + ins);
  }

  // A producer that never overwrites loses nothing: all that leaves is consumed.
  lemma {:induction false} NothingIsDropped<T>(r: Ring<T>, ops: seq<Op<T>>)
    requires r.Valid() && LegalRun(r, ops) && !DoAll(r, ops).segments.fault
    requires forall op: Op<T> :: op in ops && op.Acquired? ==> !op.overwrite
    ensures Outs(r, ops) == AllGone(r, ops)
    decreases |ops|
  {
    if ops != [] {
      NoFaultSoFar(r, ops);
      StepKeepsValid(r, ops[0]);
      assert ops[0] in ops;
      NothingIsDropped(Do(r, ops[0]), ops[1..]);
      hide Do, DoAll, Ring.Ready, Ring.Valid;
    }
  }

  // What the consumer holds stays as it is until it releases it.
  lemma {:induction false} HeldStays<T>(r: Ring<T>, ops: seq<Op<T>>, el: nat)
    requires r.Valid() && LegalRun(r, ops) && !DoAll(r, ops).segments.fault
    requires el in r.segments.consumed && el < |r.data| && Released(el) !in ops
    ensures var t := DoAll(r, ops); el in t.segments.consumed && el < |t.data| && t.data[el] == r.data[el]
    decreases |ops|
  {
    if ops != [] {
      NoFaultSoFar(r, ops);
      StepKeepsValid(r, ops[0]);
      assert ops[0] in ops;
      HeldAtStep(r, ops[0], el);
      hide Do, Ring.Valid, Legal;
      HeldStays(Do(r, ops[0]), ops[1..], el);
    }
  }

  lemma HeldAtStep<T>(r: Ring<T>, op: Op<T>, el: nat)
    requires r.Valid() && Legal(r, op) && !Do(r, op).segments.fault && op != Released(el)
    requires el in r.segments.consumed && el < |r.data|
    ensures var t := Do(r, op); el in t.segments.consumed && el < |t.data| && t.data[el] == r.data[el]
  {
    if op.Written? {
      WrittenIsElsewhere(r, op.el);
    }
  }

  // a mod n for the sums that occur here, all below 2n
  function Wrap(a: nat, n: nat): (r: nat)
    requires a < 2 * n
    ensures r < n
  {
    if a < n then a else a - n
  }

  lemma WrapIsMod(a: nat, n: nat)
    requires 0 < n && a < 2 * n
    ensures a % n == Wrap(a, n)
  {
    if a >= n {
      assert (a - n) % n == a - n;
      assert a % n == (a - n) % n;
    }
  }

  // The n slots from `from` on, through the wraparound
  function Arc(from: nat, n: nat, capacity: nat): (r: seq<nat>)
    requires from < capacity && n <= capacity
    ensures |r| == n
  {
    seq<nat>(n, i requires 0 <= i < n => Wrap(from + i, capacity))
  }

  lemma ArcAt(from: nat, n: nat, capacity: nat)
    requires from < capacity && n <= capacity
    ensures forall i :: 0 <= i < n ==> Arc(from, n, capacity)[i] == Wrap(from + i, capacity)
  {
  }

  // Adjacent arcs join, so the three segments are one arc of distinct slots.
  lemma ArcJoin(from: nat, n: nat, m: nat, capacity: nat)
    requires from < capacity && n + m <= capacity
    ensures Arc(from, n, capacity) + Arc(Wrap(from + n, capacity), m, capacity) == Arc(from, n + m, capacity)
  {
    ArcAt(from, n, capacity);
    ArcAt(Wrap(from + n, capacity), m, capacity);
    ArcAt(from, n + m, capacity);
  }

  lemma ArcFirst(from: nat, n: nat, capacity: nat)
    requires from < capacity && 0 < n <= capacity
    ensures Arc(from, n, capacity)[0] == from
    ensures Arc(from, n, capacity)[1..] == Arc(Wrap(from + 1, capacity), n - 1, capacity)
  {
    ArcAt(from, n, capacity);
    ArcAt(Wrap(from + 1, capacity), n - 1, capacity);
  }

  lemma ArcLast(from: nat, n: nat, capacity: nat)
    requires from < capacity && n < capacity
    ensures Arc(from, n + 1, capacity) == Arc(from, n, capacity) + [Wrap(from + n, capacity)]
  {
    ArcAt(from, n, capacity);
    ArcAt(from, n + 1, capacity);
  }

  lemma ArcIsDistinct(from: nat, n: nat, capacity: nat)
    requires from < capacity && n <= capacity
    ensures Distinct(Arc(from, n, capacity))
    ensures n < capacity ==> Wrap(from + n, capacity) !in Arc(from, n, capacity)
    ensures Below(Arc(from, n, capacity), capacity)
  {
    ArcAt(from, n, capacity);
  }

  // queue_t over elements of any type; the element size of the source is the size of T.
  class Queue<T(0)> {
    const buffer: array<T>
    var start: nat
    var end: nat
    var count: nat
    var endAcq: nat
    var countAcq: nat
    var startConsume: nat
    var countConsume: nat
    var fault: bool

    ghost predicate Valid()
      reads this
    {
      && buffer.Length > 0
      && startConsume < buffer.Length
      && countConsume + count + countAcq <= buffer.Length
      && start == Wrap(startConsume + countConsume, buffer.Length)
      && end == Wrap(start + count, buffer.Length)
      && endAcq == Wrap(end + countAcq, buffer.Length)
    }

    ghost function Contents(): Segments
      reads this
      requires Valid()
    {
      Segments(Arc(startConsume, countConsume, buffer.Length), Arc(start, count, buffer.Length),
               Arc(end, countAcq, buffer.Length), fault)
    }

    ghost function Value(): Ring<T>
      reads this, buffer
      requires Valid()
    {
      Ring(Contents(), buffer[..])
    }

    // No slot is in two segments, or twice in one.
    lemma LiveSlotsNeverAlias()
      requires Valid()
      ensures Distinct(Contents().Live())
      ensures Contents().Live() == Arc(startConsume, countConsume + count + countAcq, buffer.Length)
      ensures Value().Valid()
    {
      ArcJoin(startConsume, countConsume, count, buffer.Length);
      ArcJoin(startConsume, countConsume + count, countAcq, buffer.Length);
      ArcIsDistinct(startConsume, countConsume + count + countAcq, buffer.Length);
      hide Arc, Distinct;
    }

    constructor (capacity: nat, filler: T)
      requires capacity > 0
      ensures Valid() && buffer.Length == capacity && fresh(buffer)
      ensures Contents() == Segments([], [], [], false)
    {
      buffer := new T[capacity](_ => filler);
      start, end, count, endAcq, countAcq, startConsume, countConsume := 0, 0, 0, 0, 0, 0, 0;
      fault := false;
    }

    method PushAcquire(overwrite: bool) returns (el: Option<nat>)
      requires Valid() && !fault
      modifies this
      ensures Valid()
      ensures Acquires(old(Contents()), buffer.Length, overwrite, el, Contents())
      ensures !fault ==> Legal(old(Value()), Acquired(overwrite, el))
      ensures !fault ==> Value() == Do(old(Value()), Acquired(overwrite, el))
      ensures fault <==>
        overwrite && old(countConsume + count + countAcq) == buffer.Length && old(count) > 0 && old(countConsume) > 0
    {
      hide Arc;
      if countAcq + count + countConsume == buffer.Length {
        if !overwrite || count == 0 {
          return None;
        }
        ghost var oldest := start;
        assert countConsume == 0 ==> endAcq == oldest;
        ArcFirst(start, count, buffer.Length);
        if countConsume > 0 {
          ArcFirst(startConsume, countConsume, buffer.Length);
          assert start != startConsume;
        }
        var victim := PopConsume();
        PopRelease(victim.value);
        if fault {
          return None;
        }
        assert victim.value == oldest == endAcq;
      } else {
        SlotPastTheLast();
      }
      el := HandOut();
    }

    // The end of queue_push_acquire
    method HandOut() returns (el: Option<nat>)
      requires Valid() && !fault && countConsume + count + countAcq < buffer.Length
      modifies `endAcq, `countAcq
      ensures Valid() && el == Some(old(endAcq)) && el.value < buffer.Length
      ensures Contents() == old(Contents()).(acquired := old(Contents()).acquired + [el.value])
    {
      hide Arc;
      el := Some(endAcq);
      ArcLast(end, countAcq, buffer.Length);
      WrapIsMod(endAcq + 1, buffer.Length);
      endAcq := (endAcq + 1) % buffer.Length;
      countAcq := countAcq + 1;
    }

    // The slot at endAcq comes right after the newest live one, so it is free while one is.
    lemma SlotPastTheLast()
      requires Valid() && countConsume + count + countAcq < buffer.Length
      ensures endAcq !in Contents().Live()
    {
      LiveSlotsNeverAlias();
      ArcIsDistinct(startConsume, countConsume + count + countAcq, buffer.Length);
      hide Arc, Distinct;
      assert endAcq == Wrap(startConsume + (countConsume + count + countAcq), buffer.Length);
    }

    // What a producer does with the address it was given
    method Write(el: nat, value: T)
      requires Valid() && el in Contents().acquired
      modifies buffer
      ensures Valid() && Legal(old(Value()), Written(el, value)) && Value() == Do(old(Value()), Written(el, value))
    {
      LiveSlotsNeverAlias();
      assert el in Contents().Live();
      buffer[el] := value;
    }

    method PushCommit(el: nat)
      requires Valid()
      modifies `end, `count, `countAcq, `fault
      ensures Valid() && Contents() == old(Contents()).Commit(el)
      ensures Value() == Do(old(Value()), Committed(el))
    {
      hide Arc;
      if countAcq == 0 || el != end {
        if countAcq > 0 { ArcFirst(end, countAcq, buffer.Length); }
        fault := true;
        return;
      }
      ArcFirst(end, countAcq, buffer.Length);
      ArcLast(start, count, buffer.Length);
      WrapIsMod(end + 1, buffer.Length);
      end := (end + 1) % buffer.Length;
      count := count + 1;
      countAcq := countAcq - 1;
    }

    method PushDiscard(el: nat)
      requires Valid()
      modifies `endAcq, `countAcq, `fault
      ensures Valid() && Contents() == old(Contents()).Discard(el)
      ensures Value() == Do(old(Value()), Discarded(el))
    {
      hide Arc;
      WrapIsMod(endAcq + buffer.Length - 1, buffer.Length);
      var prevEndAcq := (endAcq + buffer.Length - 1) % buffer.Length;
      if countAcq > 0 {
        ArcLast(end, countAcq - 1, buffer.Length);
      }
      if countAcq == 0 || el != prevEndAcq {
        fault := true;
        return;
      }
      endAcq := prevEndAcq;
      countAcq := countAcq - 1;
    }

    method Peek() returns (el: Option<nat>)
      requires Valid()
      ensures el == if Contents().ready == [] then None else Some(Contents().ready[0])
    {
      hide Arc;
      if count == 0 {
        return None;
      }
      ArcFirst(start, count, buffer.Length);
      el := Some(start);
    }

    method PopConsume() returns (el: Option<nat>)
      requires Valid()
      modifies `start, `count, `countConsume
      ensures Valid() && Contents() == old(Contents()).Consume()
      ensures Value() == Do(old(Value()), Consumed)
      ensures el == if old(Contents()).ready == [] then None else Some(old(Contents()).ready[0])
    {
      hide Arc;
      el := Peek();
      if el.Some? {
        ArcFirst(start, count, buffer.Length);
        ArcLast(startConsume, countConsume, buffer.Length);
        WrapIsMod(start + 1, buffer.Length);
        start := (start + 1) % buffer.Length;
        count := count - 1;
        countConsume := countConsume + 1;
      }
    }

    method PopRelease(el: nat)
      requires Valid()
      modifies `startConsume, `countConsume, `fault
      ensures Valid() && Contents() == old(Contents()).Release(el)
      ensures Value() == Do(old(Value()), Released(el))
    {
      hide Arc;
      if countConsume > 0 {
        ArcFirst(startConsume, countConsume, buffer.Length);
      }
      if countConsume == 0 || el != startConsume {
        fault := true;
        return;
      }
      WrapIsMod(startConsume + 1, buffer.Length);
      startConsume := (startConsume + 1) % buffer.Length;
      countConsume := countConsume - 1;
    }
  }
}
