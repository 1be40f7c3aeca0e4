// uart_protocol_task of uart_protocol.c: a parser of checksummed frames that reads the UART a few
// bytes at a time into a small buffer and resynchronises on the next header.

module UartProtocol {
  import opened Prelude
  import opened Words
  import Crc32

  const BUFFER_LENGTH := 128
  const HEADER_LENGTH := 4
  const CHECKSUM_LENGTH := 4
  const READ_SIZE := 4

  datatype Kind = State | Rng | Tof

  // "!STA", "!RNG" and "!TOF"
  function HeaderOf(k: Kind): (h: seq<Byte>)
    ensures |h| == HEADER_LENGTH
  {
    match k
    case State => [0x21, 0x53, 0x54, 0x41]
    case Rng => [0x21, 0x52, 0x4E, 0x47]
    case Tof => [0x21, 0x54, 0x4F, 0x46]
  }

  // How the source spells them
  function Spelling(k: Kind): string {
    match k
    case State => "!STA"
    case Rng => "!RNG"
    case Tof => "!TOF"
  }

  lemma HeadersAreSpelled(k: Kind)
    ensures |Spelling(k)| == HEADER_LENGTH
    ensures forall i :: 0 <= i < HEADER_LENGTH ==> Index(HeaderOf(k)[i]) == Spelling(k)[i] as int
  {
  }

  // sizeof(state_msg_t), sizeof(rng_msg_t) and sizeof(tof_msg_t)
  function PayloadLength(k: Kind): nat {
    match k
    case State => 32
    case Rng => 4
    case Tof => 68
  }

  // The fields of the three packed structs
  function Fields(k: Kind): seq<StructField> {
    match k
    case State => [StructField("timestamp", 4, 1), StructField("position", 2, 3), StructField("velocity", 2, 3),
                   StructField("acceleration", 2, 3), StructField("quat", 4, 1), StructField("rate", 2, 3)]
    case Rng => [StructField("entropy", 4, 1)]
    case Tof => [StructField("resolution", 1, 1), StructField("_padding", 1, 3), StructField("data", 1, 64)]
  }

  // The lengths are those of the structs, and every frame fits the buffer.
  lemma PayloadsAreStructs(k: Kind)
    ensures PayloadLength(k) == SizeOf(Fields(k))
    ensures HEADER_LENGTH + PayloadLength(k) + CHECKSUM_LENGTH <= BUFFER_LENGTH
  {
    StateExtents(Fields(State));
    OtherExtents(Fields(Rng), Fields(Tof));
    hide SizeOf, Extent, Fields;
    match k {
      case State =>
        var f := Fields(State);
        SizeOfThree(f, 0);
        SizeOfThree(f, 3);
        assert f[0..] == f && f[6..] == [];
      case Rng =>
        var f := Fields(Rng);
        SizeFrom(f, 0);
        assert f[0..] == f && f[1..] == [];
      case Tof =>
        var f := Fields(Tof);
        SizeOfThree(f, 0);
        assert f[0..] == f && f[3..] == [];
    }
    NoFields();
  }

  lemma StateExtents(f: seq<StructField>)
    requires f == Fields(State)
    ensures |f| == 6 && Extent(f[0]) == Extent(f[4]) == 4
    ensures Extent(f[1]) == Extent(f[2]) == Extent(f[3]) == Extent(f[5]) == 6
  {
  }

  lemma OtherExtents(f: seq<StructField>, g: seq<StructField>)
    requires f == Fields(Rng) && g == Fields(Tof)
    ensures |f| == 1 && Extent(f[0]) == 4
    ensures |g| == 3 && Extent(g[0]) == 1 && Extent(g[1]) == 3 && Extent(g[2]) == 64
  {
  }

  lemma HeadersDiffer(k: Kind, l: Kind)
    ensures HeaderOf(k) == HeaderOf(l) ==> k == l
  {
    assert HeaderOf(k)[1] == HeaderOf(l)[1] ==> k == l;
  }

  // A frame on the line
  datatype Frame = Frame(kind: Kind, payload: seq<Byte>, checksum: seq<Byte>) {

    predicate Sized() { |payload| == PayloadLength(kind) && |checksum| == CHECKSUM_LENGTH }

    function Bytes(): seq<Byte> { HeaderOf(kind) + payload + checksum }

    // The checksum is sent low byte first and covers the header.
    predicate Valid() { |checksum| == CHECKSUM_LENGTH
      && Crc32.WordOf(checksum) == Crc32.Checksum(HeaderOf(kind) + payload) }
  }

  datatype Message = Message(kind: Kind, payload: seq<Byte>)

  function KindOf(header: seq<Byte>): Option<Kind> {
    if header == HeaderOf(State) then Some(State)
    else if header == HeaderOf(Rng) then Some(Rng)
    else if header == HeaderOf(Tof) then Some(Tof)
    else None
  }

  function KindAt(stream: nat -> Byte, at: nat): Option<Kind> { KindOf(Slice(stream, at, HEADER_LENGTH)) }

  // How many bytes are before the next header, looking no further than the buffer reaches
  function FirstHeader(stream: nat -> Byte, from: nat, d: nat): (n: nat)
    requires d + HEADER_LENGTH <= BUFFER_LENGTH + 1
    ensures d <= n <= BUFFER_LENGTH - HEADER_LENGTH + 1
    ensures n + HEADER_LENGTH <= BUFFER_LENGTH ==> KindAt(stream, from + n).Some?
    decreases BUFFER_LENGTH - d
  {
    if d + HEADER_LENGTH > BUFFER_LENGTH || KindAt(stream, from + d).Some? then d
    else FirstHeader(stream, from, d + 1)
  }

  lemma {:induction false} FirstHeaderIsFirst(stream: nat -> Byte, from: nat, d: nat, n: nat)
    requires d <= n && n + HEADER_LENGTH <= BUFFER_LENGTH
    requires forall at: nat :: from + d <= at < from + n ==> KindAt(stream, at) == None
    requires KindAt(stream, from + n).Some?
    ensures FirstHeader(stream, from, d) == n
    decreases n - d
  {
    hide KindAt;
    if d < n {
      FirstHeaderIsFirst(stream, from, d + 1, n);
    }
  }

  function FrameAt(stream: nat -> Byte, from: nat, k: Kind): (f: Frame)
    ensures f.Sized()
  {
    Frame(k, Slice(stream, from + HEADER_LENGTH, PayloadLength(k)),
          Slice(stream, from + HEADER_LENGTH + PayloadLength(k), CHECKSUM_LENGTH))
  }

  function RoundUp(n: nat): nat { if n % READ_SIZE == 0 then n else n + READ_SIZE - n % READ_SIZE }

  // The parser without its buffer: find the first header, take its frame. One round consumes some
  // bytes and may yield a message.
  datatype Outcome = Outcome(consumed: nat, message: Option<Message>)

  function Round(stream: nat -> Byte, from: nat): (o: Outcome)
    ensures o.consumed > 0
  {
    var d := FirstHeader(stream, from, 0);
    if d + HEADER_LENGTH > BUFFER_LENGTH then Outcome(BUFFER_LENGTH, None) else TakeFrame(stream, from, d)
  }

  // Behind d bytes that hold no header
  function TakeFrame(stream: nat -> Byte, from: nat, d: nat): (o: Outcome)
    requires KindAt(stream, from + d).Some?
    ensures o.consumed > 0
  {
    var k := KindAt(stream, from + d).value;
    var f := FrameAt(stream, from + d, k);
    var total := d + HEADER_LENGTH + PayloadLength(k) + CHECKSUM_LENGTH;
    if total > BUFFER_LENGTH then Outcome(RoundUp(d + HEADER_LENGTH), None)
    else Outcome(total, if f.Valid() then Some(Message(k, f.payload)) else None)
  }

  class Protocol {
    const stream: nat -> Byte
    var position: nat
    const buffer: array<Byte>

    ghost predicate Valid()
    {
      buffer.Length == BUFFER_LENGTH
    }

    constructor (stream: nat -> Byte)
      ensures Valid() && this.stream == stream && position == 0
    {
      this.stream, position := stream, 0;
      buffer := new Byte[BUFFER_LENGTH];
    }

    // uart_read_async and the wait for it
    method Read(offset: nat, length: nat)
      requires Valid() && offset + length <= BUFFER_LENGTH
      modifies this`position, buffer
      ensures position == old(position) + length
      ensures buffer[..] == old(buffer[..])[..offset] + Slice(stream, old(position),
        length) + old(buffer[..])[offset + length..]
    {
      forall i | 0 <= i < length {
        buffer[offset + i] := stream(position + i);
      }
      position := position + length;
    }

    // Reads behind what is there already.
    method ReadMore(available: nat, length: nat, ghost from: nat)
      requires Valid() && available + length <= BUFFER_LENGTH
      requires buffer[..available] == Slice(stream, from, available) && position == from + available
      modifies this`position, buffer
      ensures position == from + available + length
      ensures buffer[..available + length] == Slice(stream, from, available + length)
    {
      Read(available, length);
      assert buffer[..available + length] == Slice(stream, from, available) + Slice(stream, from + available, length);
    }

    method MemCmp(offset: nat, header: seq<Byte>) returns (equal: bool)
      requires Valid() && |header| == HEADER_LENGTH && offset + HEADER_LENGTH <= BUFFER_LENGTH
      ensures equal <==> buffer[offset..offset + HEADER_LENGTH] == header
    {
      equal := buffer[offset] == header[0] && buffer[offset + 1] == header[1]
            && buffer[offset + 2] == header[2] && buffer[offset + 3] == header[3];
    }

    // The inner loop: reads until a header is found at `discarded`, or the buffer is full.
    method Synchronise() returns (available: nat, discarded: nat, kind: Option<Kind>)
      requires Valid()
      modifies this`position, buffer
      ensures discarded == FirstHeader(stream, old(position), 0)
      ensures kind.Some? <==> discarded + HEADER_LENGTH <= BUFFER_LENGTH
      ensures kind.Some? ==> kind == KindAt(stream, old(position) + discarded)
      ensures available <= BUFFER_LENGTH && position == old(position) + available
      ensures buffer[..available] == Slice(stream, old(position), available)
      ensures available == if kind.Some? then RoundUp(discarded + HEADER_LENGTH) else BUFFER_LENGTH
    {
      hide KindAt, KindOf, RoundUp, FirstHeader, Slice;
      ghost var from := position;
      NothingRead(stream, buffer, from);
      available, discarded, kind := 0, 0, None;
      ReadMore(available, READ_SIZE, from);
      available := available + READ_SIZE;
      while true
        invariant discarded + HEADER_LENGTH <= available <= BUFFER_LENGTH && available % READ_SIZE == 0
        invariant available < discarded + HEADER_LENGTH + READ_SIZE
        invariant position == from + available
        invariant buffer[..available] == Slice(stream, from, available)
        invariant FirstHeader(stream, from, 0) == FirstHeader(stream, from, discarded)
        decreases BUFFER_LENGTH - discarded
      {
        kind := FindKind(discarded, available, from);
        RoundsUpTo(discarded + HEADER_LENGTH, available);
        HeaderOrNext(stream, from, discarded);
        if kind != None {
          break;
        }
        discarded := discarded + 1;
        if discarded + READ_SIZE > BUFFER_LENGTH {
          break;
        }
        if discarded + HEADER_LENGTH > available {
          ReadMore(available, READ_SIZE, from);
          available := available + READ_SIZE;
        }
      }
    }

    // One turn of the outer loop: what the buffered parser does is what the unbuffered one does.
    method Step() returns (message: Option<Message>)
      requires Valid()
      modifies this`position, buffer
      ensures position >= old(position)
      ensures Outcome(position - old(position), message) == Round(stream, old(position))
    {
      hide HeaderOf, Crc32.Checksum, Crc32.WordOf, KindAt, FirstHeader, FrameAt, Slice;
      ghost var from := position;
      var available, discarded, kind := Synchronise();
      if kind == None {
        return None;
      }
      var messageLength := PayloadLength(kind.value);
      var total := discarded + HEADER_LENGTH + messageLength + CHECKSUM_LENGTH;
      if total > BUFFER_LENGTH {
        return None;
      }
      var remaining := total - available;
      if remaining > 0 {
        ReadMore(available, remaining, from);
        available := available + remaining;
      }
      // What was read is never more than one frame.
      assert available == total;
      var payload := discarded + HEADER_LENGTH;
      var end := payload + messageLength;
      var f := Frame(kind.value, buffer[payload..end], buffer[end..total]);
      FrameInBuffer(stream, from, buffer[..], available, discarded, kind.value);
      assert f == FrameAt(stream, from + discarded, kind.value);
      var checksum := Crc32.Checksum(HeaderOf(kind.value) + f.payload);
      if checksum != Crc32.WordOf(f.checksum) {
        return None;
      }
      message := Some(Message(kind.value, f.payload));
    }

    method FindKind(offset: nat, ghost available: nat, ghost from: nat) returns (kind: Option<Kind>)
      requires Valid() && offset + HEADER_LENGTH <= available <= BUFFER_LENGTH
      requires buffer[..available] == Slice(stream, from, available)
      ensures kind == KindAt(stream, from + offset)
    {
      SameKind(stream, from, available, buffer[..available], offset);
      assert buffer[..available][offset..offset + HEADER_LENGTH] == buffer[offset..offset + HEADER_LENGTH];
      var equal := MemCmp(offset, HeaderOf(State));
      if equal {
        return Some(State);
      }
      equal := MemCmp(offset, HeaderOf(Rng));
      if equal {
        return Some(Rng);
      }
      equal := MemCmp(offset, HeaderOf(Tof));
      if equal {
        return Some(Tof);
      }
      kind := None;
    }
  }

  lemma RoundsUpTo(n: nat, available: nat)
    requires n <= available < n + READ_SIZE && available % READ_SIZE == 0
    ensures RoundUp(n) == available
  {
  }

  lemma NothingRead(stream: nat -> Byte, buffer: array<Byte>, from: nat)
    ensures buffer[..0] == Slice(stream, from, 0)
  {
  }

  lemma HeaderOrNext(stream: nat -> Byte, from: nat, d: nat)
    requires d + HEADER_LENGTH <= BUFFER_LENGTH
    ensures KindAt(stream, from + d) != None ==> FirstHeader(stream, from, d) == d
    ensures KindAt(stream, from + d) == None ==> FirstHeader(stream, from, d) == FirstHeader(stream, from, d + 1)
    ensures d + 1 + HEADER_LENGTH > BUFFER_LENGTH ==> FirstHeader(stream, from, d + 1) == d + 1
  {
    hide KindAt;
  }

  lemma SameKind(stream: nat -> Byte, from: nat, available: nat, buffer: seq<Byte>, d: nat)
    requires buffer == Slice(stream, from, available) && d + HEADER_LENGTH <= available
    ensures KindOf(buffer[d..d + HEADER_LENGTH]) == KindAt(stream, from + d)
  {
    assert buffer[d..d + HEADER_LENGTH] == Slice(stream, from + d, HEADER_LENGTH);
  }

  lemma FrameInBuffer(stream: nat -> Byte, from: nat, buffer: seq<Byte>, n: nat, d: nat, k: Kind)
    requires n == d + HEADER_LENGTH + PayloadLength(k) + CHECKSUM_LENGTH <= |buffer|
    requires buffer[..n] == Slice(stream, from, n)
    ensures var payload, end := d + HEADER_LENGTH, d + HEADER_LENGTH + PayloadLength(k);
            FrameAt(stream, from + d, k) == Frame(k, buffer[payload..end], buffer[end..n])
  {
    hide Slice, PayloadLength;
    var payload, end := d + HEADER_LENGTH, d + HEADER_LENGTH + PayloadLength(k);
    SlicePart(stream, from, buffer, n, payload, end);
    SlicePart(stream, from, buffer, n, end, n);
  }

  lemma SlicePart(stream: nat -> Byte, from: nat, buffer: seq<Byte>, n: nat, i: nat, j: nat)
    requires i <= j <= n <= |buffer| && buffer[..n] == Slice(stream, from, n)
    ensures buffer[i..j] == Slice(stream, from + i, j - i)
  {
    forall x: nat | x < j - i ensures buffer[i..j][x] == Slice(stream, from + i, j - i)[x] {
      assert buffer[i + x] == buffer[..n][i + x];
    }
  }

  ghost predicate On(stream: nat -> Byte, from: nat, bytes: seq<Byte>) {
    Slice(stream, from, |bytes|) == bytes
  }

  lemma OnParts(stream: nat -> Byte, from: nat, a: seq<Byte>, b: seq<Byte>)
    requires On(stream, from, a + b)
    ensures On(stream, from, a) && On(stream, from + |a|, b)
  {
    var s := Slice(stream, from, |a + b|);
    assert Slice(stream, from, |a|) == s[..|a|];
    assert Slice(stream, from + |a|, |b|) == s[|a|..];
  }

  lemma FrameOnLine(stream: nat -> Byte, at: nat, f: Frame)
    requires f.Sized() && On(stream, at, f.Bytes())
    ensures FrameAt(stream, at, f.kind) == f && KindAt(stream, at) == Some(f.kind)
  {
    hide HeaderOf, Slice;
    OnParts(stream, at, HeaderOf(f.kind) + f.payload, f.checksum);
    OnParts(stream, at, HeaderOf(f.kind), f.payload);
    HeadersDiffer(f.kind, State);
    HeadersDiffer(f.kind, Rng);
    HeadersDiffer(f.kind, Tof);
  }

  // After g bytes of garbage that hold no header a frame is taken if it fits the buffer with the
  // garbage. If not, the round is given up with the header already read.
  lemma GarbageThenFrame(stream: nat -> Byte, from: nat, g: nat, f: Frame)
    requires f.Sized() && On(stream, from + g, f.Bytes()) && g + HEADER_LENGTH <= BUFFER_LENGTH
    requires forall at: nat :: from <= at < from + g ==> KindAt(stream, at) == None
    ensures Round(stream, from) ==
      if g + |f.Bytes()| > BUFFER_LENGTH then Outcome(RoundUp(g + HEADER_LENGTH), None)
      else Outcome(g + |f.Bytes()|, if f.Valid() then Some(Message(f.kind, f.payload)) else None)
  {
    hide KindAt, HeaderOf, Slice, Frame.Valid, RoundUp;
    FrameOnLine(stream, from + g, f);
    FirstHeaderIsFirst(stream, from, 0, g);
  }

  // Back-to-back frames
  function Line(frames: seq<Frame>): seq<Byte> {
    if frames == [] then [] else frames[0].Bytes() + Line(frames[1..])
  }

  function Accepted(frames: seq<Frame>): seq<Message> {
    if frames == [] then []
    else (if frames[0].Valid() then [Message(frames[0].kind, frames[0].payload)] else []) + Accepted(frames[1..])
  }

  // n rounds from a position in the stream: the position behind them, and what was delivered
  function Rounds(stream: nat -> Byte, from: nat, n: nat): (nat, seq<Message>)
    decreases n
  {
    if n == 0 then (from, [])
    else
      var o := Round(stream, from);
      var rest := Rounds(stream, from + o.consumed, n - 1);
      (rest.0, (if o.message == None then [] else [o.message.value]) + rest.1)
  }

  // Back-to-back frames are delivered exactly, in order, one a round; those whose checksum does not
  // match are skipped, and cost no other.
  lemma {:induction false} FramesAreDelivered(stream: nat -> Byte, from: nat, frames: seq<Frame>)
    requires (forall f :: f in frames ==> f.Sized()) && On(stream, from, Line(frames))
    ensures Rounds(stream, from, |frames|) == (from + |Line(frames)|, Accepted(frames))
    decreases |frames|
  {
    hide Slice, Frame.Valid, HeaderOf, Round;
    if frames != [] {
      var f := frames[0];
      assert f in frames;
      OnParts(stream, from, f.Bytes(), Line(frames[1..]));
      GarbageThenFrame(stream, from, 0, f);
      FramesAreDelivered(stream, from + |f.Bytes()|, frames[1..]);
    }
  }

  // A frame as its sender makes it
  function Made(k: Kind, payload: seq<Byte>): Frame {
    Frame(k, payload, Crc32.BytesOf(Crc32.Checksum(HeaderOf(k) + payload)))
  }

  lemma MadeIsValid(k: Kind, payload: seq<Byte>)
    ensures Made(k, payload).Valid()
  {
    hide Crc32.Checksum, Crc32.BytesOf, Crc32.WordOf;
    Crc32.WordOfBytes(Crc32.Checksum(HeaderOf(k) + payload));
  }

  // Damage on the line that the checksum is made for: up to four consecutive bytes of the payload, or
  // any of its own bytes
  predicate Burst(a: seq<Byte>, b: seq<Byte>, at: nat, n: nat) {
    |a| == |b| && at + n <= |a| && n <= 4 && a != b && a[..at] == b[..at] && a[at + n..] == b[at + n..]
  }

  ghost predicate Damaged(f: Frame, g: Frame) {
    && g.kind == f.kind
    && ((g.checksum == f.checksum && exists at: nat, n: nat :: Burst(f.payload, g.payload, at, n))
        || (g.payload == f.payload && g.checksum != f.checksum))
  }

  lemma BurstInvalidates(k: Kind, a: seq<Byte>, b: seq<Byte>, at: nat, n: nat)
    requires Burst(a, b, at, n)
    ensures Crc32.Checksum(HeaderOf(k) + a) != Crc32.Checksum(HeaderOf(k) + b)
  {
    hide Crc32.Checksum, HeaderOf;
    var h := HeaderOf(k);
    var v, w := a[at..at + n], b[at..at + n];
    assert a == a[..at] + v + a[at + n..] && b == b[..at] + w + b[at + n..];
    assert v != w;
    Crc32.ChecksumDetectsBurst(h + a[..at], v, w, a[at + n..]);
    assert h + a == h + a[..at] + v + a[at + n..];
    assert h + b == h + a[..at] + w + a[at + n..];
  }

  lemma DamageInvalidates(f: Frame, g: Frame)
    requires f.Valid() && f.Sized() && g.Sized() && Damaged(f, g)
    ensures !g.Valid()
  {
    hide Crc32.Checksum, Crc32.WordOf, HeaderOf;
    if g.payload == f.payload {
      if Crc32.WordOf(g.checksum) == Crc32.WordOf(f.checksum) {
        Crc32.WordInjective(g.checksum, f.checksum);
      }
    } else {
      var at: nat, n: nat :| Burst(f.payload, g.payload, at, n);
      BurstInvalidates(f.kind, f.payload, g.payload, at, n);
    }
  }

  // What was sent and arrived as it was sent
  function Undamaged(sent: seq<Frame>, got: seq<Frame>): seq<Message>
    requires |sent| == |got|
  {
    if sent == [] then []
    else (if got[0] == sent[0] then [Message(sent[0].kind, sent[0].payload)] else []) + Undamaged(sent[1..], got[1..])
  }

  lemma {:induction false} UndamagedAreAccepted(sent: seq<Frame>, got: seq<Frame>)
    requires |sent| == |got|
    requires forall i :: 0 <= i < |sent| ==> sent[i].Valid() && sent[i].Sized() && got[i].Sized()
    requires forall i :: 0 <= i < |sent| ==> got[i] == sent[i] || Damaged(sent[i], got[i])
    ensures Accepted(got) == Undamaged(sent, got)
  {
    hide Frame.Valid, Frame.Sized, Damaged;
    if sent != [] {
      if got[0] != sent[0] {
        DamageInvalidates(sent[0], got[0]);
      }
      UndamagedAreAccepted(sent[1..], got[1..]);
    }
  }

  // Of a stream of frames some of which were damaged like that, exactly the others are delivered.
  lemma DamagedFramesAreSkipped(stream: nat -> Byte, from: nat, sent: seq<Frame>, got: seq<Frame>)
    requires |sent| == |got| && On(stream, from, Line(got))
    requires forall i :: 0 <= i < |sent| ==> sent[i].Valid() && sent[i].Sized() && got[i].Sized()
    requires forall i :: 0 <= i < |sent| ==> got[i] == sent[i] || Damaged(sent[i], got[i])
    ensures Rounds(stream, from, |got|).1 == Undamaged(sent, got)
  {
    hide Frame.Valid, Frame.Sized, Damaged, Slice, Rounds, Accepted;
    assert forall f :: f in got ==> f.Sized();
    FramesAreDelivered(stream, from, got);
    UndamagedAreAccepted(sent, got);
  }
}
