// streamer.py and streamer.c, from the host to GAP: StreamerClient.send_buffer cuts a buffer into
// packets, and the streamer puts it together in the storage of a waiting receiver.

module StreamerGap {
  import opened Words
  import opened StreamerPackets
  import StreamerHost
  import Crc32

  // size_t on GAP8
  const SIZE_T := 0x1_0000_0000

  // payload_length - header_length, in size_t: a packet shorter than its head has a huge segment.
  function SegmentLength(p: Packet): nat
    requires WellFormed(p)
  {
    if p.length >= HeadLength(p) then p.length - HeadLength(p) else p.length + SIZE_T - HeadLength(p)
  }

  predicate WellFormed(p: Packet) {
    p.length < 0x1_0000 && (p.length >= HeadLength(p) ==> |p.segment| == p.length - HeadLength(p))
  }

  // No storage fills the address space.
  predicate Storable(storage: seq<Byte>) { |storage| < SIZE_T - BEGIN_HEAD }

  // A streamer_buffer_t, and whether the streamer waits for it (buffer_rx). `done` counts how often
  // its done task was pushed; `parts` is not in the code: the segments accepted since the last
  // accepted BEGIN.
  datatype Rx = Rx(armed: bool, storage: seq<Byte>, kind: int, size: nat, received: nat, checksum: Word,
                   done: nat, parts: seq<Byte>)
  {
    function Dropped(): Rx { this.(size := 0, received := 0, checksum := 0, parts := []) }

    function DataReceived(p: Packet, check: bool): Rx
      requires WellFormed(p) && Inv(this)
    {
      if !armed || size == 0 then this
      else if SegmentLength(p) > size - received then Dropped()
      else
        var n := |p.segment|;
        var b := this.(storage := storage[..received] + p.segment + storage[received + n..],
                       received := received + n, parts := parts + p.segment);
        if b.received == size then b.Finished(check) else b
    }

    // The whole buffer is there.
    function Finished(check: bool): Rx
      requires size <= |storage|
    {
      if check && checksum != 0 && StreamerHost.ComputeChecksum(storage[..size]) != checksum then Dropped()
      else this.(armed := false, done := done + 1)
    }

    function BeginReceived(p: Packet, check: bool): Rx
      requires WellFormed(p) && Inv(this)
    {
      if !armed || p.size > |storage| then this
      else this.(kind := p.kind, size := p.size, received := 0, checksum := p.checksum, parts := []).DataReceived(p,
        check)
    }

    // streamer_cpx_callback
    function Receive(p: Packet, check: bool): Rx
      requires WellFormed(p) && Inv(this)
    {
      if p.command == BUFFER_BEGIN then BeginReceived(p, check)
      else if p.command == BUFFER_DATA then DataReceived(p, check)
      else this
    }

    // streamer_receive_buffer_async
    function Arm(): Rx { this.(armed := true) }

    // streamer_cancel_receive, of the buffer waited for
    function Cancel(): Rx { this.(size := 0, received := 0, parts := [], armed := false, done := done + 1) }
  }

  // What holds of every buffer at all times. One that nobody waits for is complete, or empty.
  predicate Inv(b: Rx) {
    && b.received <= b.size <= |b.storage| && b.storage[..b.received] == b.parts && Storable(b.storage)
    && (!b.armed ==> b.received == b.size)
  }

  // streamer_buffer_init
  lemma NewBuffer(storage: seq<Byte>)
    requires Storable(storage)
    ensures Inv(Rx(false, storage, 0, 0, 0, 0, 0, []))
  {
  }

  lemma DataKeepsInv(b: Rx, p: Packet, check: bool)
    requires Inv(b) && WellFormed(p)
    ensures var t := b.DataReceived(p, check);
            && Inv(t) && |t.storage| == |b.storage|
            && t.done == (if b.armed && !t.armed then b.done + 1 else b.done) && (t.armed ==> b.armed)
  {
    hide StreamerHost.ComputeChecksum;
    var n := |p.segment|;
    if b.armed && b.size > 0 && SegmentLength(p) <= b.size - b.received {
      var s := b.storage[..b.received] + p.segment + b.storage[b.received + n..];
      assert s[..b.received + n] == b.parts + p.segment;
    }
  }

  lemma StepKeepsInv(b: Rx, p: Packet, check: bool)
    requires Inv(b) && WellFormed(p)
    ensures Inv(b.Receive(p, check)) && Inv(b.Arm()) && Inv(b.Cancel())
    ensures |b.Receive(p, check).storage| == |b.storage|
    ensures b.Receive(p, check).done == (if b.armed && !b.Receive(p, check).armed then b.done + 1 else b.done)
  {
    hide Rx.DataReceived;
    DataKeepsInv(b, p, check);
    if b.armed && p.size <= |b.storage| {
      DataKeepsInv(b.(kind := p.kind, size := p.size, received := 0, checksum := p.checksum, parts := []), p, check);
    }
  }

  function ReceiveAll(b: Rx, packets: seq<Packet>, check: bool): (t: Rx)
    requires Inv(b) && forall p :: p in packets ==> WellFormed(p)
    ensures Inv(t)
    decreases |packets|
  {
    if packets == [] then b
    else
      StepKeepsInv(b, packets[0], check);
      ReceiveAll(b.Receive(packets[0], check), packets[1..], check)
  }

  // The packets of send_buffer from offset `sent` on, for a host that sends up to m bytes at a time
  function Packets(kind: int, buffer: seq<Byte>, sent: nat, m: nat): (packets: seq<Packet>)
    requires BEGIN_HEAD < m && sent <= |buffer|
    ensures m < 0x1_0000 ==> forall p :: p in packets ==> WellFormed(p)
    decreases |buffer| - sent
  {
    if sent == |buffer| then []
    else
      var n := SegmentEnd(buffer, sent, m);
      [PacketAt(kind, buffer, sent, m)] + Packets(kind, buffer, n, m)
  }

  function SegmentEnd(buffer: seq<Byte>, sent: nat, m: nat): (n: nat)
    requires BEGIN_HEAD < m && sent < |buffer|
    ensures sent < n <= |buffer|
    ensures n - sent <= m - (if sent == 0 then BEGIN_HEAD else DATA_HEAD)
    ensures n < |buffer| ==> n - sent == m - (if sent == 0 then BEGIN_HEAD else DATA_HEAD)
  {
    var n := sent + m - (if sent == 0 then BEGIN_HEAD else DATA_HEAD);
    if n < |buffer| then n else |buffer|
  }

  function PacketAt(kind: int, buffer: seq<Byte>, sent: nat, m: nat): Packet
    requires BEGIN_HEAD < m && sent < |buffer|
  {
    var segment := buffer[sent..SegmentEnd(buffer, sent, m)];
    if sent == 0 then Begin(kind, |buffer|, Crc32.Checksum(buffer), segment) else Data(segment)
  }

  // All packets but the last have the full size.
  lemma {:induction false} PacketsAreFull(kind: int, buffer: seq<Byte>, sent: nat, m: nat)
    requires BEGIN_HEAD < m && sent <= |buffer|
    ensures var packets := Packets(kind, buffer, sent, m);
            && (forall i :: 0 <= i < |packets| - 1 ==> packets[i].length == m)
            && (packets != [] ==> packets[|packets| - 1].length <= m)
    decreases |buffer| - sent
  {
    hide Crc32.Checksum, SegmentEnd;
    if sent < |buffer| {
      PacketsAreFull(kind, buffer, SegmentEnd(buffer, sent, m), m);
    }
  }

  // StreamerClient.send_buffer
  method SendBuffer(kind: int, buffer: seq<Byte>, maxPayloadLength: nat) returns (sent: seq<Packet>)
    requires BEGIN_HEAD < maxPayloadLength
    ensures sent == Packets(kind, buffer, 0, maxPayloadLength)
  {
    hide Crc32.Checksum, Packets;
    var checksum := Crc32.Checksum(buffer);
    var bufferSent := 0;
    sent := [];
    while bufferSent < |buffer|
      invariant 0 <= bufferSent <= |buffer|
      invariant sent + Packets(kind, buffer, bufferSent, maxPayloadLength) == Packets(kind, buffer, 0, maxPayloadLength)
    {
      var max := maxPayloadLength - (if bufferSent == 0 then BEGIN_HEAD else DATA_HEAD);
      var end := if bufferSent + max < |buffer| then bufferSent + max else |buffer|;
      var segment := buffer[bufferSent..end];
      NextPacket(kind, buffer, bufferSent, maxPayloadLength, sent);
      sent := sent + [if bufferSent == 0 then Begin(kind, |buffer|, checksum, segment) else Data(segment)];
      bufferSent := bufferSent + |segment|;
    }
    NoPackets(kind, buffer, maxPayloadLength);
  }

  lemma NextPacket(kind: int, buffer: seq<Byte>, sent: nat, m: nat, before: seq<Packet>)
    requires BEGIN_HEAD < m && sent < |buffer|
    ensures before + [PacketAt(kind, buffer, sent, m)] + Packets(kind, buffer, SegmentEnd(buffer, sent, m), m) ==
            before + Packets(kind, buffer, sent, m)
  {
    hide PacketAt, SegmentEnd;
  }

  lemma NoPackets(kind: int, buffer: seq<Byte>, m: nat)
    requires BEGIN_HEAD < m
    ensures Packets(kind, buffer, |buffer|, m) == []
  {
  }

  // One packet of send_buffer at a time
  lemma FirstReceived(b: Rx, kind: int, buffer: seq<Byte>, sent: nat, m: nat, check: bool)
    requires Inv(b) && BEGIN_HEAD < m < 0x1_0000 && sent < |buffer|
    ensures var p := PacketAt(kind, buffer, sent, m);
            && WellFormed(p) && p.length == HeadLength(p) + SegmentEnd(buffer, sent, m) - sent
            && Packets(kind, buffer, sent, m) != [] && Packets(kind, buffer, sent, m)[0] == p
            && Inv(b.Receive(p, check))
            && ReceiveAll(b, Packets(kind, buffer, sent, m), check)
            == ReceiveAll(b.Receive(p, check), Packets(kind, buffer, SegmentEnd(buffer, sent, m), m), check)
  {
    hide Crc32.Checksum, SegmentEnd, Inv, Rx.Receive;
    var packets := Packets(kind, buffer, sent, m);
    assert packets[0] in packets;
    assert packets[1..] == Packets(kind, buffer, SegmentEnd(buffer, sent, m), m);
    StepKeepsInv(b, packets[0], check);
  }

  // In the middle of a buffer
  predicate Midway(b: Rx, kind: int, buffer: seq<Byte>, sent: nat) {
    && b.armed && b.kind == kind && b.size == |buffer| && b.received == sent && sent <= |buffer|
    && b.parts == buffer[..sent] && b.checksum == Crc32.Checksum(buffer)
  }

  predicate Delivered(b: Rx, t: Rx, kind: int, buffer: seq<Byte>) {
    !t.armed && t.done == b.done + 1 && t.kind == kind && t.size == |buffer| <= |t.storage|
      && t.storage[..t.size] == buffer
  }

  lemma SegmentArrives(b: Rx, kind: int, buffer: seq<Byte>, sent: nat, end: nat, p: Packet, check: bool)
    requires Inv(b) && Midway(b, kind, buffer, sent) && WellFormed(p) && sent < end <= |buffer|
    requires p.segment == buffer[sent..end] && p.length == HeadLength(p) + end - sent
    ensures if end < |buffer| then Midway(b.DataReceived(p, check), kind, buffer, end)
      && b.DataReceived(p, check).done == b.done
            else Delivered(b, b.DataReceived(p, check), kind, buffer)
  {
    hide Crc32.Checksum;
    var s := b.storage[..b.received] + p.segment + b.storage[end..];
    assert buffer[..sent] + buffer[sent..end] == buffer[..end];
    assert s[..end] == buffer[..end];
    if end == |buffer| {
      assert buffer[..end] == buffer;
    }
  }

  lemma {:induction false} RestArrives(b: Rx, kind: int, buffer: seq<Byte>, sent: nat, m: nat, check: bool)
    requires Inv(b) && BEGIN_HEAD < m < 0x1_0000 && 0 < sent < |buffer| && Midway(b, kind, buffer, sent)
    ensures Delivered(b, ReceiveAll(b, Packets(kind, buffer, sent, m), check), kind, buffer)
    decreases |buffer| - sent
  {
    hide Crc32.Checksum, Inv, WellFormed, Midway, SegmentEnd, Rx.DataReceived;
    var p, end := PacketAt(kind, buffer, sent, m), SegmentEnd(buffer, sent, m);
    FirstReceived(b, kind, buffer, sent, m, check);
    SegmentArrives(b, kind, buffer, sent, end, p, check);
    if end < |buffer| {
      RestArrives(b.Receive(p, check), kind, buffer, end, m, check);
    } else {
      NoPackets(kind, buffer, m);
    }
  }

  // After any history, a complete buffer that fits the storage is delivered intact to a waiting
  // receiver, with one notification.
  lemma BufferArrives(b: Rx, kind: int, buffer: seq<Byte>, m: nat, check: bool)
    requires Inv(b) && b.armed && BEGIN_HEAD < m < 0x1_0000 && 0 < |buffer| <= |b.storage|
    ensures Delivered(b, ReceiveAll(b, Packets(kind, buffer, 0, m), check), kind, buffer)
  {
    hide Crc32.Checksum, WellFormed, SegmentEnd, Rx.DataReceived;
    var p, end := PacketAt(kind, buffer, 0, m), SegmentEnd(buffer, 0, m);
    FirstReceived(b, kind, buffer, 0, m, check);
    var c := b.(kind := p.kind, size := p.size, received := 0, checksum := p.checksum, parts := []);
    assert c.parts == buffer[..0];
    SegmentArrives(c, kind, buffer, 0, end, p, check);
    if end < |buffer| {
      RestArrives(b.Receive(p, check), kind, buffer, end, m, check);
    } else {
      NoPackets(kind, buffer, m);
    }
  }

  // A receiver that is not in the middle of a buffer stays as it is when one comes that does not fit.
  lemma {:induction false} OversizedIsDropped(b: Rx, kind: int, buffer: seq<Byte>, sent: nat, m: nat, check: bool)
    requires Inv(b) && (b.size == 0 || !b.armed) && BEGIN_HEAD < m < 0x1_0000 && |b.storage| < |buffer|
    requires sent <= |buffer|
    ensures ReceiveAll(b, Packets(kind, buffer, sent, m), check) == b
    decreases |buffer| - sent
  {
    hide Crc32.Checksum, WellFormed, SegmentEnd;
    if sent < |buffer| {
      FirstReceived(b, kind, buffer, sent, m, check);
      OversizedIsDropped(b, kind, buffer, SegmentEnd(buffer, sent, m), m, check);
    }
  }

  // What is left of a reception once a DATA packet that is not empty has come
  predicate Moved(b: Rx, t: Rx) {
    t.size == 0 || !t.armed || (t.size == b.size && t.received > b.received)
  }

  lemma DataMoves(b: Rx, t: Rx, p: Packet, check: bool)
    requires Inv(t) && WellFormed(p) && (t == b || Moved(b, t)) && p.length > HeadLength(p)
    ensures Moved(b, t.DataReceived(p, check))
  {
    hide StreamerHost.ComputeChecksum;
  }

  lemma {:induction false} DataMovesOn(b: Rx, t: Rx, kind: int, buffer: seq<Byte>, sent: nat, m: nat, check: bool)
    requires Inv(t) && BEGIN_HEAD < m < 0x1_0000 && 0 < sent <= |buffer|
    requires Moved(b, t) || (t == b && sent < |buffer|)
    ensures Moved(b, ReceiveAll(t, Packets(kind, buffer, sent, m), check))
    decreases |buffer| - sent
  {
    hide Crc32.Checksum, WellFormed, Rx.DataReceived, Moved, Inv;
    if sent < |buffer| {
      var p, end := PacketAt(kind, buffer, sent, m), SegmentEnd(buffer, sent, m);
      FirstReceived(t, kind, buffer, sent, m, check);
      DataMoves(b, t, p, check);
      DataMovesOn(b, t.Receive(p, check), kind, buffer, end, m, check);
    }
  }

  // The BEGIN of a buffer that does not fit does not end a reception in progress, and the data behind
  // it is counted towards the older buffer. Exactly: the receiver is left as it was if and only if it
  // does not wait, has no reception in progress, or the buffer is over with its BEGIN.
  lemma OversizedIsHarmlessIff(b: Rx, kind: int, buffer: seq<Byte>, m: nat, check: bool)
    requires Inv(b) && BEGIN_HEAD < m < 0x1_0000 && |b.storage| < |buffer|
    ensures ReceiveAll(b, Packets(kind, buffer, 0, m), check) == b
        <==> !b.armed || b.size == 0 || |buffer| <= m - BEGIN_HEAD
  {
    if !b.armed || b.size == 0 {
      OversizedIsDropped(b, kind, buffer, 0, m, check);
    } else {
      BeginIsIgnored(b, kind, buffer, m, check);
      var end := SegmentEnd(buffer, 0, m);
      if end < |buffer| {
        DataMovesOn(b, b, kind, buffer, end, m, check);
      } else {
        NoPackets(kind, buffer, m);
      }
    }
  }

  lemma BeginIsIgnored(b: Rx, kind: int, buffer: seq<Byte>, m: nat, check: bool)
    requires Inv(b) && BEGIN_HEAD < m < 0x1_0000 && |b.storage| < |buffer|
    ensures ReceiveAll(b, Packets(kind, buffer, 0, m), check)
         == ReceiveAll(b, Packets(kind, buffer, SegmentEnd(buffer, 0, m), m), check)
  {
    hide Crc32.Checksum, WellFormed, SegmentEnd;
    FirstReceived(b, kind, buffer, 0, m, check);
  }

  // What becomes of a mixture that was counted as the buffer `first`
  ghost predicate Misled(t: Rx, first: seq<Byte>, mixture: seq<Byte>, check: bool) {
    if !check || Crc32.Checksum(first) == 0 || StreamerHost.ComputeChecksum(mixture) == Crc32.Checksum(first) then
      !t.armed && t.done == 1 && t.size <= |t.storage| && t.storage[..t.size] == mixture
    else
      t.armed && t.done == 0 && t.size == 0
  }

  // How far that goes, from a new buffer on: only the first packet of `first` arrives, then all of a
  // `second` that is too big. The receiver is given a mixture of both, unless checksums are compared
  // and tell them apart; then it is given nothing.
  lemma MixtureIsDelivered(storage: seq<Byte>, kind: int, first: seq<Byte>, second: seq<Byte>, m: nat, check: bool)
    requires Storable(storage) && BEGIN_HEAD < m < 0x1_0000
    requires |first| == |storage| == (m - BEGIN_HEAD) + (m - DATA_HEAD) < |second|
    ensures var b := Rx(false, storage, 0, 0, 0, 0, 0, []).Arm();
            var packets := Packets(kind, first, 0, m);
            && packets != [] && WellFormed(packets[0])
            && var t := ReceiveAll(b.Receive(packets[0], check), Packets(kind, second, 0, m), check);
            Misled(t, first, first[..m - BEGIN_HEAD] + second[m - BEGIN_HEAD..|storage|], check)
  {
    var b := Rx(false, storage, 0, 0, 0, 0, 0, []).Arm();
    assert Inv(b);
    hide *;
    FirstReceived(b, kind, first, 0, m, check);
    FirstPartArrives(b, kind, first, m, check);
    SecondMixes(b.Receive(PacketAt(kind, first, 0, m), check), kind, first, second, m, check);
  }

  lemma SecondMixes(c: Rx, kind: int, first: seq<Byte>, second: seq<Byte>, m: nat, check: bool)
    requires Inv(c) && c.armed && c.done == 0 && BEGIN_HEAD < m < 0x1_0000
    requires |first| == |c.storage| == c.size == (m - BEGIN_HEAD) + (m - DATA_HEAD) < |second|
    requires c.received == m - BEGIN_HEAD && c.parts == first[..m - BEGIN_HEAD] && c.checksum == Crc32.Checksum(first)
    ensures Misled(ReceiveAll(c, Packets(kind, second, 0, m), check), first,
                   first[..m - BEGIN_HEAD] + second[m - BEGIN_HEAD..c.size], check)
  {
    var k, n := m - BEGIN_HEAD, c.size;
    assert SegmentEnd(second, 0, m) == k && SegmentEnd(second, k, m) == n;
    hide *;
    BeginIsIgnored(c, kind, second, m, check);
    FirstReceived(c, kind, second, k, m, check);
    OtherPartCompletes(c, kind, first, second, m, check);
    OversizedIsDropped(c.Receive(PacketAt(kind, second, k, m), check), kind, second, n, m, check);
  }

  lemma FirstPartArrives(b: Rx, kind: int, first: seq<Byte>, m: nat, check: bool)
    requires Inv(b) && b.armed && BEGIN_HEAD < m < 0x1_0000 && m - BEGIN_HEAD < |first| == |b.storage|
    ensures var p := PacketAt(kind, first, 0, m);
            && WellFormed(p)
            && var c := b.Receive(p, check);
            && c.armed && c.done == b.done && c.size == |c.storage| == |first| && c.received == m - BEGIN_HEAD
            && c.parts == first[..m - BEGIN_HEAD] && c.checksum == Crc32.Checksum(first)
  {
    hide Crc32.Checksum, StreamerHost.ComputeChecksum;
  }

  lemma OtherPartCompletes(c: Rx, kind: int, first: seq<Byte>, second: seq<Byte>, m: nat, check: bool)
    requires Inv(c) && c.armed && c.done == 0 && BEGIN_HEAD < m < 0x1_0000
    requires |first| == |c.storage| == c.size == (m - BEGIN_HEAD) + (m - DATA_HEAD) < |second|
    requires c.received == m - BEGIN_HEAD && c.parts == first[..m - BEGIN_HEAD] && c.checksum == Crc32.Checksum(first)
    ensures var q := PacketAt(kind, second, m - BEGIN_HEAD, m);
            && WellFormed(q)
            && var t := c.Receive(q, check);
            Misled(t, first, first[..m - BEGIN_HEAD] + second[m - BEGIN_HEAD..c.size], check)
            && (t.size == 0 || !t.armed) && |t.storage| == |c.storage|
  {
    hide Crc32.Checksum, StreamerHost.ComputeChecksum;
    var q := PacketAt(kind, second, m - BEGIN_HEAD, m);
    var s := c.storage[..c.received] + q.segment + c.storage[c.size..];
    assert s[..c.size] == first[..m - BEGIN_HEAD] + second[m - BEGIN_HEAD..c.size];
  }

  // Arming a buffer does not forget what it held: a DATA packet before the next BEGIN drops it, or,
  // if it is empty, has the old content checked and delivered again.
  lemma RearmedBufferIsStale(b: Rx, p: Packet, check: bool)
    requires Inv(b) && !b.armed && b.size > 0 && WellFormed(p) && p.command == BUFFER_DATA
    ensures b.Arm().Receive(p, check) == if p.length == DATA_HEAD then b.Arm().Finished(check) else b.Arm().Dropped()
  {
    hide StreamerHost.ComputeChecksum;
    if p.length == DATA_HEAD {
      assert b.storage[..b.received] + [] + b.storage[b.received..] == b.storage;
      assert p.segment == [] && b.parts + [] == b.parts;
    }
  }

  // So a buffer armed again waits for a BEGIN, whatever DATA comes, if and only if it holds nothing.
  lemma RearmedIsFreshIff(b: Rx, p: Packet, check: bool)
    requires Inv(b) && !b.armed && WellFormed(p) && p.command == BUFFER_DATA
    ensures b.Arm().Receive(p, check) == b.Arm() <==> b.size == 0
  {
    hide StreamerHost.ComputeChecksum;
    if b.size > 0 {
      RearmedBufferIsStale(b, p, check);
    }
  }

  // A cancelled buffer has told its owner once and takes no more packets; it can be armed again like a
  // new one.
  lemma CancelledIsFresh(b: Rx, p: Packet, check: bool)
    requires Inv(b) && WellFormed(p)
    ensures var t := b.Cancel();
            && Inv(t) && t.done == b.done + 1 && !t.armed && t.storage == b.storage && t.Receive(p, check) == t
            && (p.command == BUFFER_DATA ==> t.Arm().Receive(p, check) == t.Arm())
  {
    StepKeepsInv(b, p, check);
    if p.command == BUFFER_DATA {
      RearmedIsFreshIff(b.Cancel(), p, check);
    }
  }

  // streamer_buffer_t
  class StreamerBuffer {
    const storage: array<Byte>
    var kind: int
    var size: nat
    var receivedSize: nat
    var checksum: Word
    var waiting: bool
    ghost var done: nat
    ghost var parts: seq<Byte>

    // streamer_buffer_init
    constructor (storage: array<Byte>)
      requires Storable(storage[..])
      ensures this.storage == storage && size == receivedSize == 0 && !waiting && parts == [] && done == 0
    {
      this.storage := storage;
      kind, size, receivedSize, checksum, waiting, done, parts := 0, 0, 0, 0, false, 0, [];
    }

    // memcpy to the end of what was received
    method Append(segment: seq<Byte>)
      requires receivedSize + |segment| <= storage.Length
      modifies this`receivedSize, this`parts, storage
      ensures receivedSize == old(receivedSize) + |segment| && parts == old(parts) + segment
      ensures storage[..] == old(storage[..])[..old(receivedSize)] + segment + old(storage[..])[receivedSize..]
    {
      forall i | 0 <= i < |segment| {
        storage[receivedSize + i] := segment[i];
      }
      receivedSize := receivedSize + |segment|;
      parts := parts + segment;
    }

    // streamer_compute_checksum over the storage
    function ComputeChecksum(): Word
      requires size <= storage.Length
      reads this, storage
    {
      StreamerHost.ComputeChecksum(storage[..size])
    }
  }

  // streamer_t, receiving; `check` is STREAMER_RECEIVE_CHECKSUM.
  class Streamer {
    var bufferRx: StreamerBuffer?
    const check: bool
    var fault: bool

    ghost function State(b: StreamerBuffer): Rx
      reads this, b, b.storage
    {
      Rx(bufferRx == b, b.storage[..], b.kind, b.size, b.receivedSize, b.checksum, b.done, b.parts)
    }

    constructor (check: bool)
      ensures bufferRx == null && !fault && this.check == check
    {
      bufferRx, this.check, fault := null, check, false;
    }

    // The done task must be given, and neither the buffer nor the streamer be in use.
    method ReceiveBufferAsync(b: StreamerBuffer)
      modifies this, b`waiting
      ensures old(b.waiting) || old(bufferRx) != null ==> fault
      ensures !old(b.waiting) && old(bufferRx) == null ==>
        State(b) == old(State(b)).Arm() && b.waiting && fault == old(fault)
    {
      if b.waiting {
        fault := true;
        return;
      }
      b.waiting := true;
      if bufferRx != null {
        fault := true;
        return;
      }
      bufferRx := b;
    }

    method CancelReceive(b: StreamerBuffer)
      modifies this, b
      ensures old(bufferRx) == null && !old(b.waiting) ==> State(b) == old(State(b)) && fault == old(fault)
      ensures old(bufferRx) == b ==> State(b) == old(State(b)).Cancel() && !b.waiting && fault == old(fault)
      ensures old(bufferRx) != b && (old(bufferRx) != null || old(b.waiting)) ==> fault
    {
      if bufferRx == null && !b.waiting {
        return;
      }
      if bufferRx != b {
        fault := true;
        return;
      }
      b.size, b.receivedSize, b.parts := 0, 0, [];
      b.done := b.done + 1;
      b.waiting := false;
      bufferRx := null;
    }

    method DataReceived(p: Packet)
      requires WellFormed(p) && (bufferRx != null ==> Inv(State(bufferRx)))
      modifies this`bufferRx, bufferRx, if bufferRx == null then null else bufferRx.storage
      ensures var b := old(bufferRx);
              if b == null then bufferRx == null
              else State(b) == old(State(b)).DataReceived(p, check) && (bufferRx == b || bufferRx == null)
                   && b.waiting == (old(b.waiting) && bufferRx != null)
    {
      hide Rx.Finished;
      var b := bufferRx;
      if b == null {
        return;
      }
      if b.size == 0 {
        return;
      }
      var n, remaining := SegmentLength(p), b.size - b.receivedSize;
      if n > remaining {
        b.size, b.receivedSize, b.checksum, b.parts := 0, 0, 0, [];
        return;
      }
      b.Append(p.segment);
      if b.receivedSize == b.size {
        Finish(b);
      }
    }

    method Finish(b: StreamerBuffer)
      requires bufferRx == b && b.size <= b.storage.Length
      modifies this`bufferRx, b
      ensures State(b) == old(State(b)).Finished(check) && (bufferRx == b || bufferRx == null)
      ensures b.waiting == (old(b.waiting) && bufferRx != null)
    {
      hide StreamerHost.ComputeChecksum;
      assert b.storage[..b.size] == b.storage[..][..b.size];
      if check && b.checksum != 0 {
        if b.ComputeChecksum() != b.checksum {
          b.size, b.receivedSize, b.checksum, b.parts := 0, 0, 0, [];
          return;
        }
      }
      b.done := b.done + 1;
      b.waiting := false;
      bufferRx := null;
    }

    method BeginReceived(p: Packet)
      requires WellFormed(p) && (bufferRx != null ==> Inv(State(bufferRx)))
      modifies this`bufferRx, bufferRx, if bufferRx == null then null else bufferRx.storage
      ensures var b := old(bufferRx);
              if b == null then bufferRx == null
              else State(b) == old(State(b)).BeginReceived(p, check)
    {
      hide StreamerHost.ComputeChecksum;
      var b := bufferRx;
      if b == null {
        return;
      }
      if p.size > b.storage.Length {
        return;
      }
      b.kind, b.size, b.receivedSize, b.checksum, b.parts := p.kind, p.size, 0, p.checksum, [];
      DataReceived(p);
    }

    method CpxCallback(p: Packet)
      requires WellFormed(p) && (bufferRx != null ==> Inv(State(bufferRx)))
      modifies this`bufferRx, bufferRx, if bufferRx == null then null else bufferRx.storage
      ensures var b := old(bufferRx);
              if b == null then bufferRx == null
              else State(b) == old(State(b)).Receive(p, check) && Inv(State(b))
    {
      hide StreamerHost.ComputeChecksum, Rx.DataReceived, Rx.BeginReceived;
      if bufferRx != null {
        StepKeepsInv(State(bufferRx), p, check);
      }
      if p.command == BUFFER_BEGIN {
        BeginReceived(p);
      } else if p.command == BUFFER_DATA {
        DataReceived(p);
      }
    }
  }
}
