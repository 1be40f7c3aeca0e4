// streamer.c and streamer.py, from GAP to the host: frames cut into packets by streamer_send_task and
// put together again by StreamerClient.receive.

module StreamerPackets {
  import opened Prelude
  import opened Words

  const BUFFER_BEGIN: int := 0x10
  const BUFFER_DATA: int := 0x11

  // A command and streamer_begin_t, or a command and streamer_data_t
  const BEGIN_HEAD := 12
  const DATA_HEAD := 4

  // The fields of the two heads, the command among them
  const BEGIN_FIELDS := [StructField("command", 1, 1), StructField("type", 1, 1), StructField("size", 4, 1),
                         StructField("checksum", 4, 1), StructField("_padding", 1, 2)]
  const DATA_FIELDS := [StructField("command", 1, 1), StructField("_padding", 1, 3)]

  lemma HeadsAreStructs()
    ensures BEGIN_HEAD == SizeOf(BEGIN_FIELDS) && DATA_HEAD == SizeOf(DATA_FIELDS)
  {
    HeadExtents();
    hide SizeOf, Extent, BEGIN_FIELDS, DATA_FIELDS;
    var b, d := BEGIN_FIELDS, DATA_FIELDS;
    SizeOfThree(b, 0);
    SizeFrom(b, 3);
    SizeFrom(b, 4);
    SizeFrom(d, 0);
    SizeFrom(d, 1);
    NoFields();
    assert b[0..] == b && b[5..] == [] && d[0..] == d && d[2..] == [];
  }

  lemma HeadExtents()
    ensures var b := BEGIN_FIELDS;
            |b| == 5 && Extent(b[0]) == Extent(b[1]) == 1 && Extent(b[2]) == Extent(b[3]) == 4 && Extent(b[4]) == 2
    ensures var d := DATA_FIELDS; |d| == 2 && Extent(d[0]) == 1 && Extent(d[1]) == 3
  {
  }

  // A packet of `length` bytes: its command, what a BEGIN says about the buffer, and what follows the
  // head. In a packet shorter than its head nothing follows, and the fields are whatever is there.
  datatype Packet = Packet(command: int, kind: int, size: nat, checksum: Word, length: nat, segment: seq<Byte>)

  function HeadLength(p: Packet): nat { if p.command == BUFFER_BEGIN then BEGIN_HEAD else DATA_HEAD }

  function Begin(kind: int, size: nat, checksum: Word, segment: seq<Byte>): Packet {
    Packet(BUFFER_BEGIN, kind, size, checksum, BEGIN_HEAD + |segment|, segment)
  }

  function Data(segment: seq<Byte>): Packet {
    Packet(BUFFER_DATA, 0, 0, 0, DATA_HEAD + |segment|, segment)
  }

  lemma SliceJoin(memory: nat -> Byte, from: nat, n: nat, k: nat)
    ensures Slice(memory, from, n) + Slice(memory, from + n, k) == Slice(memory, from, n + k)
  {
  }

  lemma SliceTake(memory: nat -> Byte, from: nat, n: nat, k: nat)
    requires n <= k
    ensures Slice(memory, from, k)[..n] == Slice(memory, from, n)
  {
  }
}

module StreamerHost {
  import opened Prelude
  import opened Words
  import opened StreamerPackets
  import Crc32
  import CpxTransfer

  const IMAGE := 0x01
  const UINT32_MAX: Word := 0xFFFF_FFFF

  // streamer_compute_checksum: zero stands for "no checksum", so it is not sent as one.
  function ComputeChecksum(buffer: seq<Byte>): (c: Word)
    ensures c != 0
  {
    if Crc32.Checksum(buffer) == 0 then UINT32_MAX else Crc32.Checksum(buffer)
  }

  // cpx_send_req_max_tail_length, behind a head of the given length
  function MaxTail(head: nat): nat
    requires head <= CpxTransfer.MTU
  {
    (CpxTransfer.MTU - head) - (CpxTransfer.MTU - head) % 4
  }

  // packet_length: the last packet is rounded up to whole words.
  function PacketLength(remaining: nat, head: nat): nat
    requires head <= CpxTransfer.MTU
  {
    var n := if remaining < MaxTail(head) then remaining else MaxTail(head);
    if n == remaining && n % 4 != 0 then n + (4 - n % 4) else n
  }

  // Every packet can be sent: in whole words, within the MTU, and from an aligned address. It leaves no
  // room for another word unless it is the last.
  lemma PacketFits(remaining: nat, head: nat)
    requires remaining > 0 && (head == BEGIN_HEAD || head == DATA_HEAD)
    ensures var n := PacketLength(remaining, head);
            0 < n && n % 4 == 0 && head % 4 == 0 && head + n <= CpxTransfer.MTU && n < 0x1_0000
            && n < remaining + 4 && (n < remaining ==> head + n + 4 > CpxTransfer.MTU)
  {
  }

  // The packets that carry the n bytes at the start of memory, from offset `from` on
  function Packets(memory: nat -> Byte, n: nat, from: nat, checksum: Word): seq<Packet>
    decreases n - from
  {
    if from >= n then []
    else
      var head := if from == 0 then BEGIN_HEAD else DATA_HEAD;
      var k := PacketLength(n - from, head);
      PacketFits(n - from, head);
      var segment := Slice(memory, from, k);
      [if from == 0 then Begin(IMAGE, n, checksum, segment) else Data(segment)] + Packets(memory, n, from + k, checksum)
  }

  function PacketAt(memory: nat -> Byte, n: nat, from: nat, checksum: Word): Packet
    requires from < n
  {
    if from == 0 then Begin(IMAGE, n, checksum, Slice(memory, 0, PacketLength(n, BEGIN_HEAD)))
    else Data(Slice(memory, from, PacketLength(n - from, DATA_HEAD)))
  }

  lemma NextPacket(memory: nat -> Byte, n: nat, from: nat, checksum: Word, sent: seq<Packet>)
    requires from < n
    ensures var k := PacketLength(n - from, if from == 0 then BEGIN_HEAD else DATA_HEAD);
            sent + [PacketAt(memory, n, from, checksum)] + Packets(memory, n, from + k, checksum) ==
            sent + Packets(memory, n, from, checksum)
  {
    hide PacketLength, Slice;
  }

  // No frame is cut into more packets than it needs.
  lemma {:induction false} PacketsAreFull(memory: nat -> Byte, n: nat, from: nat, checksum: Word)
    ensures var packets := Packets(memory, n, from, checksum);
            forall i :: 0 <= i < |packets| - 1 ==> packets[i].length <= CpxTransfer.MTU < packets[i].length + 4
    decreases n - from
  {
    hide PacketLength, MaxTail;
    if from < n {
      var head := if from == 0 then BEGIN_HEAD else DATA_HEAD;
      var k := PacketLength(n - from, head);
      PacketFits(n - from, head);
      PacketsAreFull(memory, n, from + k, checksum);
      var p := PacketAt(memory, n, from, checksum);
      assert p.length == head + k;
      assert Packets(memory, n, from, checksum) == [p] + Packets(memory, n, from + k, checksum);
      if k >= n - from {
        NoPackets(memory, n, from + k, checksum);
      }
    }
  }

  // streamer_send_task; `memory` is the frame and what lies behind it.
  method SendTask(memory: nat -> Byte, address: nat, frameSize: nat, withChecksum: bool) returns (sent: seq<Packet>)
    requires frameSize < 0x8000_0000 && address % 4 == 0
    ensures sent == Packets(memory, frameSize, 0, if withChecksum then ComputeChecksum(Slice(memory, 0,
      frameSize)) else 0)
  {
    hide PacketLength, Packets;
    var checksum := if withChecksum then ComputeChecksum(Slice(memory, 0, frameSize)) else 0;
    sent := [];
    var payload := 0;
    var remaining: int := frameSize;
    while remaining > 0
      invariant payload == frameSize - remaining && payload % 4 == 0
      invariant sent + Packets(memory, frameSize, payload, checksum) == Packets(memory, frameSize, 0, checksum)
      decreases remaining
    {
      var head := if remaining == frameSize then BEGIN_HEAD else DATA_HEAD;
      var length := PacketLength(remaining, head);
      PacketFits(remaining, head);
      // The assertions of cpx_spi_send_set_tail
      assert (address + payload) % 4 == 0 && length % 4 == 0 && head + length <= CpxTransfer.MTU;
      NextPacket(memory, frameSize, payload, checksum, sent);
      var segment := Slice(memory, payload, length);
      sent := sent + [if remaining == frameSize then Begin(IMAGE, frameSize, checksum, segment) else Data(segment)];
      payload := payload + length;
      remaining := remaining - length;
    }
    NoPackets(memory, frameSize, payload, checksum);
  }

  lemma NoPackets(memory: nat -> Byte, n: nat, from: nat, checksum: Word)
    requires from >= n
    ensures Packets(memory, n, from, checksum) == []
  {
  }

  // What receive yields: the buffer, and its type, on which process_buffer decides
  datatype Yield = Yield(kind: int, buffer: seq<Byte>)

  // StreamerClient between two packets. A packet too short for its header raises an exception.
  datatype Host = Host(expectData: bool, buffer: seq<Byte>, kind: int, remaining: nat, checksum: Word,
                       frames: seq<Yield>, failed: bool)
  {
    function Expected(): int { if expectData then BUFFER_DATA else BUFFER_BEGIN }

    function Receive(p: Packet): Host {
      if failed then this
      else if p.length == 0 then this.(failed := true)
      else if p.command == BUFFER_BEGIN then
        if p.length < BEGIN_HEAD then this.(expectData := false, buffer := if expectData then [] else buffer,
          failed := true)
        else this.(buffer := [], kind := p.kind, remaining := p.size, checksum := p.checksum,
          expectData := true).Chunk(p.segment)
      else if p.command != Expected() then this.(expectData := false, buffer := [])
      else if p.length < DATA_HEAD then this.(failed := true)
      else Chunk(p.segment)
    }

    function Chunk(segment: seq<Byte>): Host {
      var n := if |segment| < remaining then |segment| else remaining;
      var h := this.(buffer := buffer + segment[..n], remaining := remaining - n);
      if h.remaining > 0 then h.(expectData := true)
      else if checksum != 0 && Crc32.Checksum(h.buffer) != checksum then h.(expectData := false)
      else h.(expectData := false, buffer := [], frames := frames + [Yield(kind, h.buffer)])
    }
  }

  function ReceiveAll(h: Host, packets: seq<Packet>): Host
    decreases |packets|
  {
    if packets == [] then h else ReceiveAll(h.Receive(packets[0]), packets[1..])
  }

  // What the frame becomes at the host
  function Accepts(frame: seq<Byte>, checksum: Word): bool {
    checksum == 0 || Crc32.Checksum(frame) == checksum
  }

  // A checksum sent is never taken for "none"; the host, which compares with the CRC itself, accepts it
  // if and only if the CRC is not zero.
  lemma ChecksumAgreesIff(frame: seq<Byte>)
    ensures ComputeChecksum(frame) != 0
    ensures Accepts(frame, ComputeChecksum(frame)) <==> Crc32.Checksum(frame) != 0
    ensures ComputeChecksum(frame) == Crc32.Checksum(frame)
         || (Crc32.Checksum(frame) == 0 && ComputeChecksum(frame) == 0xFFFF_FFFF)
    ensures forall other: seq<Byte> :: Accepts(other, ComputeChecksum(frame)) ==> Crc32.Checksum(other) != 0
  {
    hide Crc32.Checksum;
  }

  // What the host is to make of a frame
  function Image(memory: nat -> Byte, n: nat): Yield { Yield(IMAGE, Slice(memory, 0, n)) }

  // In the middle of a frame
  predicate Midway(h: Host, memory: nat -> Byte, n: nat, from: nat, checksum: Word) {
    && from <= n && !h.failed && h.kind == IMAGE && h.buffer == Slice(memory, 0, from)
    && h.remaining == n - from && h.checksum == checksum
  }

  lemma ChunkOfFrame(h: Host, memory: nat -> Byte, n: nat, from: nat, checksum: Word, k: nat)
    requires Midway(h, memory, n, from, checksum) && from < n
    ensures var g := h.Chunk(Slice(memory, from, k));
            if from + k < n then
              g.expectData && g.frames == h.frames && Midway(g, memory, n, from + k, checksum)
            else
              !g.expectData && !g.failed
              && g.frames == h.frames + (if Accepts(Slice(memory, 0, n), checksum) then [Image(memory, n)] else [])
  {
    hide Slice, Crc32.Checksum;
    var m := if k < n - from then k else n - from;
    SliceTake(memory, from, m, k);
    SliceJoin(memory, 0, from, m);
  }

  lemma {:induction false} RestIsReceived(h: Host, memory: nat -> Byte, n: nat, from: nat, checksum: Word)
    requires 0 < from < n && Midway(h, memory, n, from, checksum) && h.expectData
    ensures var g := ReceiveAll(h, Packets(memory, n, from, checksum));
            !g.expectData && !g.failed
            && g.frames == h.frames + (if Accepts(Slice(memory, 0, n), checksum) then [Image(memory, n)] else [])
    decreases n - from
  {
    hide Slice, Accepts, PacketLength, Midway, Host.Chunk;
    var k := PacketLength(n - from, DATA_HEAD);
    PacketFits(n - from, DATA_HEAD);
    ChunkOfFrame(h, memory, n, from, checksum, k);
    StillGoing(h, memory, n, from, checksum);
    var p := Data(Slice(memory, from, k));
    assert Packets(memory, n, from, checksum) == [p] + Packets(memory, n, from + k, checksum);
    assert h.Receive(p) == h.Chunk(p.segment);
    if from + k < n {
      RestIsReceived(h.Receive(p), memory, n, from + k, checksum);
    } else {
      assert Packets(memory, n, from + k, checksum) == [];
    }
  }

  lemma StillGoing(h: Host, memory: nat -> Byte, n: nat, from: nat, checksum: Word)
    requires Midway(h, memory, n, from, checksum)
    ensures !h.failed
  {
  }

  // Whatever the host has seen before, it yields a frame that is sent to it exactly once and intact,
  // unless its checksum is refused.
  lemma FrameIsReceived(h: Host, memory: nat -> Byte, n: nat, checksum: Word)
    requires !h.failed && n > 0
    ensures var g := ReceiveAll(h, Packets(memory, n, 0, checksum));
            !g.expectData && !g.failed
            && g.frames == h.frames + (if Accepts(Slice(memory, 0, n), checksum) then [Image(memory, n)] else [])
  {
    hide Slice, Accepts, PacketLength, Host.Chunk;
    var k := PacketLength(n, BEGIN_HEAD);
    PacketFits(n, BEGIN_HEAD);
    var p := Begin(IMAGE, n, checksum, Slice(memory, 0, k));
    assert Packets(memory, n, 0, checksum) == [p] + Packets(memory, n, k, checksum);
    var b := h.(buffer := [], kind := p.kind, remaining := p.size, checksum := p.checksum, expectData := true);
    assert h.Receive(p) == b.Chunk(p.segment);
    assert |Slice(memory, 0, 0)| == 0;
    ChunkOfFrame(b, memory, n, 0, checksum, k);
    if k < n {
      RestIsReceived(h.Receive(p), memory, n, k, checksum);
    } else {
      assert Packets(memory, n, k, checksum) == [];
    }
  }

  // The round trip, exactly: without checksums always, and with them for every frame but those whose
  // CRC is zero. The GAP side sends all ones for such a CRC; the host compares with the CRC itself.
  lemma RoundTrip(h: Host, memory: nat -> Byte, n: nat, withChecksum: bool)
    requires !h.failed && n > 0
    ensures var frame := Slice(memory, 0, n);
            var packets := Packets(memory, n, 0, if withChecksum then ComputeChecksum(frame) else 0);
            ReceiveAll(h, packets).frames == h.frames + [Yield(IMAGE, frame)]
            <==> !withChecksum || Crc32.Checksum(frame) != 0
    ensures var frame := Slice(memory, 0, n);
            withChecksum && Crc32.Checksum(frame) == 0 ==>
              ReceiveAll(h, Packets(memory, n, 0, ComputeChecksum(frame))).frames == h.frames
  {
    hide Slice, Packets, ReceiveAll;
    var frame := Slice(memory, 0, n);
    FrameIsReceived(h, memory, n, if withChecksum then ComputeChecksum(frame) else 0);
    assert |h.frames + [Yield(IMAGE, frame)]| != |h.frames|;
  }

  lemma {:induction false} ReceiveSplit(h: Host, a: seq<Packet>, b: seq<Packet>)
    ensures ReceiveAll(h, a + b) == ReceiveAll(ReceiveAll(h, a), b)
    decreases |a|
  {
    hide Host.Receive;
    if a == [] {
      assert a + b == b;
    } else {
      ReceiveSplit(h.Receive(a[0]), a[1..], b);
      assert (a + b)[1..] == a[1..] + b;
    }
  }

  // There are such frames: any bytes can be completed by four more to one that is sent and refused.
  lemma RefusedFrame(h: Host, p: seq<Byte>) returns (memory: nat -> Byte)
    requires !h.failed
    ensures var frame := Slice(memory, 0, |p| + 4);
            && frame[..|p|] == p
            && ReceiveAll(h, Packets(memory, |frame|, 0, ComputeChecksum(frame))).frames == h.frames
  {
    hide Slice, Packets, ReceiveAll, ComputeChecksum, Crc32.Checksum;
    var w := Crc32.FourBytesReachAnyChecksum(p, 0);
    var frame := p + w;
    memory := (i: nat) => if i < |frame| then frame[i] else 0;
    assert Slice(memory, 0, |frame|) == frame;
    RoundTrip(h, memory, |frame|, true);
  }

  // Frames of any sizes, with a checksum or without, each sent after any traffic that is not cut short
  datatype Sent = Sent(noise: seq<Packet>, memory: nat -> Byte, size: nat, withChecksum: bool) {

    function Frame(): seq<Byte> { Slice(memory, 0, size) }

    function Packed(): seq<Packet> {
      Packets(memory, size, 0, if withChecksum then ComputeChecksum(Frame()) else 0)
    }

    // What the host makes of it
    function Yielded(): seq<Yield> {
      if withChecksum && Crc32.Checksum(Frame()) == 0 then [] else [Yield(IMAGE, Frame())]
    }
  }

  function Traffic(sent: seq<Sent>): seq<Packet> {
    if sent == [] then [] else sent[0].noise + sent[0].Packed() + Traffic(sent[1..])
  }

  function FramesOf(sent: seq<Sent>): seq<Yield> {
    if sent == [] then [] else sent[0].Yielded() + FramesOf(sent[1..])
  }

  // Packets that begin no frame, long enough to be read
  predicate Noise(p: Packet) { p.length >= DATA_HEAD && p.command != BUFFER_BEGIN }

  lemma {:induction false} NoiseIsIgnored(h: Host, noise: seq<Packet>)
    requires !h.failed && !h.expectData && forall p :: p in noise ==> Noise(p)
    ensures var g := ReceiveAll(h, noise); !g.failed && !g.expectData && g.frames == h.frames
    decreases |noise|
  {
    if noise != [] {
      assert noise[0] in noise;
      NoiseIsIgnored(h.Receive(noise[0]), noise[1..]);
    }
  }

  // A frame that is broken into is lost as a whole: once a packet comes that is neither its BEGIN nor its
  // data, no data counts until the next BEGIN.
  lemma InterruptedFrameIsLost(h: Host, p: Packet, rest: seq<Packet>)
    requires !h.failed && p.length > 0 && p.command != BUFFER_BEGIN && p.command != BUFFER_DATA
    requires forall q :: q in rest ==> Noise(q)
    ensures var g := ReceiveAll(h, [p] + rest); !g.failed && !g.expectData && g.frames == h.frames
  {
    assert ([p] + rest)[1..] == rest;
    NoiseIsIgnored(h.Receive(p), rest);
  }

  // Too short for the head that it is read with
  predicate TooShort(h: Host, p: Packet) {
    || p.length == 0 || (p.command == BUFFER_BEGIN && p.length < BEGIN_HEAD)
    || (p.command == BUFFER_DATA && h.expectData && p.length < DATA_HEAD)
  }

  // The generator raises an exception exactly for such a packet, and yields nothing from then on.
  lemma ShortPacketEndsIt(h: Host, p: Packet, rest: seq<Packet>)
    requires !h.failed
    ensures h.Receive(p).failed <==> TooShort(h, p)
    ensures TooShort(h, p) ==> var g := ReceiveAll(h, [p] + rest); g.failed && g.frames == h.frames
  {
    assert ([p] + rest)[1..] == rest;
    if TooShort(h, p) {
      FailedStays(h.Receive(p), rest);
    }
  }

  lemma {:induction false} FailedStays(h: Host, packets: seq<Packet>)
    requires h.failed
    ensures ReceiveAll(h, packets) == h
    decreases |packets|
  {
    if packets != [] {
      FailedStays(h, packets[1..]);
    }
  }

  predicate Clean(s: Sent) { s.size > 0 && forall p :: p in s.noise ==> Noise(p) }

  lemma NextFrame(h: Host, s: Sent)
    requires !h.failed && !h.expectData && Clean(s)
    ensures var g := ReceiveAll(h, s.noise + s.Packed());
            !g.failed && !g.expectData && g.frames == h.frames + s.Yielded()
  {
    hide Packets, Slice, Host.Receive, ReceiveAll, ComputeChecksum, Crc32.Checksum;
    NoiseIsIgnored(h, s.noise);
    ReceiveSplit(h, s.noise, s.Packed());
    FrameIsReceived(ReceiveAll(h, s.noise), s.memory, s.size, if s.withChecksum then ComputeChecksum(s.Frame()) else 0);
    ChecksumAgreesIff(s.Frame());
  }

  // The host yields them in the order in which they were sent, all but those whose checksum it refuses.
  lemma {:induction false} FramesInOrder(h: Host, sent: seq<Sent>)
    requires !h.failed && !h.expectData && forall s :: s in sent ==> Clean(s)
    ensures ReceiveAll(h, Traffic(sent)).frames == h.frames + FramesOf(sent)
    decreases |sent|
  {
    hide Packets, Slice, Host.Receive, Clean, ReceiveAll, Sent.Packed, Sent.Yielded;
    if sent == [] {
      NothingReceived(h);
    } else {
      var packets, rest := sent[0].noise + sent[0].Packed(), Traffic(sent[1..]);
      assert sent[0] in sent && Traffic(sent) == packets + rest;
      NextFrame(h, sent[0]);
      ReceiveSplit(h, packets, rest);
      FramesInOrder(ReceiveAll(h, packets), sent[1..]);
      FramesJoin(h.frames, sent);
    }
  }

  lemma FramesJoin(frames: seq<Yield>, sent: seq<Sent>)
    requires sent != []
    ensures frames + sent[0].Yielded() + FramesOf(sent[1..]) == frames + FramesOf(sent)
  {
    hide Sent.Yielded;
  }

  lemma NothingReceived(h: Host)
    ensures ReceiveAll(h, []) == h
  {
  }

  // StreamerClient.receive as the loop it is; `frames` is what it has yielded.
  class StreamerClient {
    var expectedCmd: int
    var rxBuffer: seq<Byte>
    var bufferType: int
    var remainingLength: nat
    var expectedChecksum: Word
    var frames: seq<Yield>
    var failed: bool

    ghost predicate Valid()
      reads this
    {
      expectedCmd == BUFFER_BEGIN || expectedCmd == BUFFER_DATA
    }

    ghost function State(): Host
      reads this
    {
      Host(expectedCmd == BUFFER_DATA, rxBuffer, bufferType, remainingLength, expectedChecksum, frames, failed)
    }

    constructor ()
      ensures Valid() && State() == Host(false, [], 0, 0, 0, [], false)
    {
      expectedCmd, rxBuffer, bufferType, remainingLength, expectedChecksum := BUFFER_BEGIN, [], 0, 0, 0;
      frames, failed := [], false;
    }

    // One turn of the loop
    method Receive(p: Packet)
      requires Valid() && !failed
      modifies this
      ensures Valid() && State() == old(State()).Receive(p)
    {
      hide Host.Chunk;
      if p.length < 1 {
        failed := true;
        return;
      }
      if p.command != expectedCmd {
        expectedCmd, rxBuffer := BUFFER_BEGIN, [];
      }
      if p.command != expectedCmd {
        return;
      }
      if expectedCmd == BUFFER_BEGIN {
        if p.length < BEGIN_HEAD {
          failed := true;
          return;
        }
        expectedCmd, rxBuffer, bufferType := BUFFER_DATA, [], p.kind;
        remainingLength, expectedChecksum := p.size, p.checksum;
      } else if p.length < DATA_HEAD {
        failed := true;
        return;
      }
      ReceiveChunk(p.segment);
    }

    // The payload of either kind of packet
    method ReceiveChunk(segment: seq<Byte>)
      requires expectedCmd == BUFFER_DATA
      modifies this
      ensures Valid() && State() == old(State()).Chunk(segment)
    {
      hide Crc32.Checksum;
      var payloadLength := if |segment| < remainingLength then |segment| else remainingLength;
      rxBuffer := rxBuffer + segment[..payloadLength];
      remainingLength := remainingLength - payloadLength;
      if remainingLength == 0 {
        expectedCmd := BUFFER_BEGIN;
        if expectedChecksum != 0 && Crc32.Checksum(rxBuffer) != expectedChecksum {
          return;
        }
        frames := frames + [Yield(bufferType, rxBuffer)];
        rxBuffer := [];
      } else {
        expectedCmd := BUFFER_DATA;
      }
    }
  }
}
