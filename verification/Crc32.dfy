// crc32.c: the bit-wise CRC, its table-driven form, and the incremental interface. This is the CRC of
// zlib; compare section 8 of RFC 1952.

// The operations of uint32_t that crc32.c uses, each with the few facts needed about it. Everything
// after this module treats them as opaque, which keeps bit-level reasoning in here.
module Words {

  type Byte = bv8
  type Word = bv32

  const POLYNOMIAL: Word := 0xEDB8_8320

  function Xor(x: Word, y: Word): Word { x ^ y }

  function Wide(b: Byte): Word { b as bv32 }

  function Up(h: Word): Word { h << 8 }

  function Down(h: Word): Word { h >> 8 }

  function Low(r: Word): Byte { (r & 0xFF) as bv8 }

  function XorByte(a: Byte, b: Byte): Byte { a ^ b }

  // One turn of the inner loop of crcByBit, on the value of its remainder
  function Step(r: Word): Word {
    if r & 1 == 1 then (r >> 1) ^ POLYNOMIAL else r >> 1
  }

  lemma StepTests(r: Word)
    ensures Step(r) == if r & 1 != 0 then (r >> 1) ^ POLYNOMIAL else r >> 1
  {
  }

  lemma XorZero(x: Word)
    ensures Xor(x, 0) == x
  {
  }

  lemma XorAssociates(x: Word, y: Word, z: Word)
    ensures Xor(Xor(x, y), z) == Xor(x, Xor(y, z))
  {
  }

  lemma XorCommutes(x: Word, y: Word)
    ensures Xor(x, y) == Xor(y, x)
  {
  }

  lemma XorCancels(x: Word, y: Word, z: Word)
    requires Xor(x, z) == Xor(y, z)
    ensures x == y
  {
  }

  // A word bit by bit, from the low end
  predicate Odd(r: Word) { r & 1 == 1 }

  function Half(r: Word): Word { r >> 1 }

  function BitWord(b: bool): Word { if b then 1 else 0 }

  lemma StepByBits(r: Word)
    ensures Step(r) == if Odd(r) then Xor(Half(r), POLYNOMIAL) else Half(r)
  {
  }

  lemma XorByBits(x: Word, y: Word)
    ensures Odd(Xor(x, y)) == (Odd(x) != Odd(y)) && Half(Xor(x, y)) == Xor(Half(x), Half(y))
  {
  }

  lemma XorMoves(x: Word, y: Word, p: Word)
    ensures Xor(Xor(x, p), Xor(y, p)) == Xor(x, y)
    ensures Xor(Xor(x, p), y) == Xor(Xor(x, y), p) && Xor(x, Xor(y, p)) == Xor(Xor(x, y), p)
  {
    hide Xor;
    XorAssociates(x, y, p);
    XorCommutes(y, p);
    XorAssociates(x, p, y);
    XorAssociates(x, p, Xor(y, p));
    XorCommutes(p, Xor(y, p));
    XorAssociates(y, p, p);
    XorSelf(p);
    XorZero(y);
  }

  lemma XorSelf(p: Word)
    ensures Xor(p, p) == 0
  {
  }

  // A step is linear over GF(2).
  lemma StepLinear(x: Word, y: Word)
    ensures Step(Xor(x, y)) == Xor(Step(x), Step(y))
  {
    hide Step, Xor, Odd, Half;
    XorByBits(x, y);
    StepByBits(x);
    StepByBits(y);
    StepByBits(Xor(x, y));
    XorMoves(Half(x), Half(y), POLYNOMIAL);
  }

  // A step can be undone, because the polynomial has its top bit set.
  function UnStep(s: Word): Word {
    if s & 0x8000_0000 != 0 then ((s ^ POLYNOMIAL) << 1) | 1 else s << 1
  }

  lemma StepInvertible(r: Word)
    ensures UnStep(Step(r)) == r
  {
  }

  lemma ShiftBack(x: Word)
    requires TopClear(x)
    ensures ((x << 1) | 1) & 1 == 1 && ((x << 1) | 1) >> 1 == x
    ensures (x << 1) & 1 == 0 && (x << 1) >> 1 == x
  {
  }

  lemma TopCancels(s: Word)
    requires !TopClear(s)
    ensures TopClear(s ^ POLYNOMIAL) && (s ^ POLYNOMIAL) ^ POLYNOMIAL == s
  {
  }

  lemma UnStepInvertible(s: Word)
    ensures Step(UnStep(s)) == s
  {
    if TopClear(s) {
      ShiftBack(s);
    } else {
      TopCancels(s);
      ShiftBack(s ^ POLYNOMIAL);
    }
  }

  // A step undoes a shift to the left, as long as no bit falls off.
  function Twice(h: Word): Word { h << 1 }

  predicate TopClear(h: Word) { h & 0x8000_0000 == 0 }

  lemma StepUndoesTwice(h: Word)
    requires TopClear(h)
    ensures Step(Twice(h)) == h
  {
  }

  // A byte's worth of such shifts
  predicate Fits(h: Word) { h & 0xFF00_0000 == 0 }

  lemma EightTwices(h: Word)
    ensures Up(h) == Twice(Twice(Twice(Twice(Twice(Twice(Twice(Twice(h))))))))
  {
  }

  lemma RoomForEight(h: Word)
    requires Fits(h)
    ensures TopClear(h) && TopClear(Twice(h)) && TopClear(Twice(Twice(h))) && TopClear(Twice(Twice(Twice(h))))
    ensures TopClear(Twice(Twice(Twice(Twice(h))))) && TopClear(Twice(Twice(Twice(Twice(Twice(h))))))
    ensures TopClear(Twice(Twice(Twice(Twice(Twice(Twice(h)))))))
    ensures TopClear(Twice(Twice(Twice(Twice(Twice(Twice(Twice(h))))))))
  {
  }

  // The lowest byte of a word is what meets the next byte of the message.
  lemma SplitByte(r: Word, b: Byte)
    ensures Xor(r, Wide(b)) == Xor(Wide(XorByte(Low(r), b)), Up(Down(r))) && Fits(Down(r))
  {
  }

  lemma BitWordFacts(b: bool)
    ensures Odd(BitWord(b)) == b && Half(BitWord(b)) == 0
  {
  }

  lemma EightHalves(r: Word)
    ensures Half(Half(Half(Half(Half(Half(Half(Half(r)))))))) == Down(r)
  {
  }

  lemma FourDowns(r: Word)
    ensures Down(Down(Down(Down(r)))) == 0 && !Odd(0) && Half(0) == 0
  {
  }

  lemma WideFits(b: Byte)
    ensures Down(Wide(b)) == 0
  {
  }

  // Its lowest bit set apart
  lemma SplitBit(d: Word)
    ensures d == Xor(BitWord(Odd(d)), Twice(Half(d))) && TopClear(Half(d))
  {
  }

  function Index(d: Byte): (i: nat)
    ensures i < 256
  {
    d as nat
  }

  lemma IndexInjective(d: Byte, e: Byte)
    ensures Index(d) == Index(e) ==> d == e
  {
    assert (d as nat) as bv8 == d && (e as nat) as bv8 == e;
  }

  lemma XorByteCommutes(a: Byte, b: Byte)
    ensures XorByte(a, b) == XorByte(b, a)
  {
  }

  // Up to four bytes laid out from the low end of a word
  function Prepend(b: Byte, h: Word): Word { Xor(Wide(b), Up(h)) }

  lemma PrependFits(a: Byte, b: Byte, c: Byte)
    ensures Fits(0) && Fits(Prepend(a, 0)) && Fits(Prepend(a, Prepend(b, 0)))
    ensures Fits(Prepend(a, Prepend(b, Prepend(c, 0))))
  {
  }

  lemma PrependLow(w: Word)
    ensures Prepend(Low(w), Down(w)) == w
  {
  }

  lemma PrependInjective(a: Byte, h: Word, b: Byte, k: Word)
    requires Fits(h) && Fits(k) && Prepend(a, h) == Prepend(b, k)
    ensures a == b && h == k
  {
  }
}

module Crc32 {
  import opened Words

  const INITIAL_REMAINDER: Word := 0xFFFF_FFFF
  const FINAL_XOR_VALUE: Word := 0xFFFF_FFFF

  function Steps(r: Word, n: nat): Word {
    if n == 0 then r else Step(Steps(r, n - 1))
  }

  // One turn of the outer loop of crcByBit
  function Absorb(r: Word, b: Byte): Word { Steps(Xor(r, Wide(b)), 8) }

  // crcByBit
  function Crc(message: seq<Byte>, r: Word): Word {
    if message == [] then r else Crc(message[1..], Absorb(r, message[0]))
  }

  // crc32CalculateBuffer
  function Checksum(message: seq<Byte>): Word {
    Xor(Crc(message, INITIAL_REMAINDER), FINAL_XOR_VALUE)
  }

  // Updating over any split equals one pass over the whole.
  lemma {:induction false} CrcSplit(a: seq<Byte>, b: seq<Byte>, r: Word)
    ensures Crc(a + b, r) == Crc(b, Crc(a, r))
  {
    hide Absorb;
    if a == [] {
      assert a + b == b;
    } else {
      CrcSplit(a[1..], b, Absorb(r, a[0]));
      assert (a + b)[1..] == a[1..] + b;
    }
  }

  lemma CrcLast(message: seq<Byte>, b: Byte, r: Word)
    ensures Crc(message + [b], r) == Absorb(Crc(message, r), b)
  {
    hide Absorb;
    CrcSplit(message, [b], r);
    assert [b][1..] == [];
  }

  lemma {:induction false} StepsAdd(r: Word, n: nat, m: nat)
    ensures Steps(Steps(r, n), m) == Steps(r, n + m)
  {
    hide Step;
    if m > 0 {
      StepsAdd(r, n, m - 1);
    }
  }

  lemma {:induction false} StepsLinear(x: Word, y: Word, n: nat)
    ensures Steps(Xor(x, y), n) == Xor(Steps(x, n), Steps(y, n))
  {
    hide Step, Xor;
    if n > 0 {
      StepsLinear(x, y, n - 1);
      StepLinear(Steps(x, n - 1), Steps(y, n - 1));
    }
  }

  function Twices(h: Word, n: nat): Word
    decreases n
  {
    if n == 0 then h else Twices(Twice(h), n - 1)
  }

  predicate Room(h: Word, n: nat)
    decreases n
  {
    n == 0 || (TopClear(h) && Room(Twice(h), n - 1))
  }

  lemma {:induction false} StepsUndoTwices(h: Word, n: nat)
    requires Room(h, n)
    ensures Steps(Twices(h, n), n) == h
    decreases n
  {
    hide Step, Twice, TopClear;
    if n > 0 {
      StepsUndoTwices(Twice(h), n - 1);
      StepUndoesTwice(h);
    }
  }

  lemma StepsUndoUp(h: Word)
    requires Fits(h)
    ensures Steps(Up(h), 8) == h
  {
    hide Step, Steps, Twice, TopClear, Up, Fits;
    RoomForEight(h);
    EightTwices(h);
    var h1 := Twice(h);
    var h2 := Twice(h1);
    var h3 := Twice(h2);
    var h4 := Twice(h3);
    var h5 := Twice(h4);
    var h6 := Twice(h5);
    assert Room(h6, 2) && Room(h5, 3) && Room(h4, 4) && Room(h3, 5) && Room(h2, 6) && Room(h1, 7) && Room(h, 8);
    assert Twices(h6, 2) == Up(h);
    assert Twices(h4, 4) == Twices(h6, 2) && Twices(h2, 6) == Twices(h4, 4) && Twices(h, 8) == Twices(h2, 6);
    StepsUndoTwices(h, 8);
  }

  // What the table holds at d
  function TableEntry(d: Byte): Word { Steps(Wide(d), 8) }

  // The table-driven step is the bit-wise one.
  lemma TableStep(r: Word, b: Byte)
    ensures Absorb(r, b) == Xor(TableEntry(XorByte(Low(r), b)), Down(r))
  {
    hide Step, Steps, Xor, Up, Down, Low, XorByte, Fits, Wide;
    SplitByte(r, b);
    StepsLinear(Wide(XorByte(Low(r), b)), Up(Down(r)), 8);
    StepsUndoUp(Down(r));
  }

  lemma {:induction false} StepsInjective(x: Word, y: Word, n: nat)
    requires Steps(x, n) == Steps(y, n)
    ensures x == y
    decreases n
  {
    hide Step, UnStep;
    if n > 0 {
      StepInvertible(Steps(x, n - 1));
      StepInvertible(Steps(y, n - 1));
      StepsInjective(x, y, n - 1);
    }
  }

  lemma {:induction false} CrcInjective(message: seq<Byte>, r: Word, s: Word)
    requires Crc(message, r) == Crc(message, s)
    ensures r == s
    decreases |message|
  {
    hide Steps, Xor, Wide;
    if message != [] {
      var b := Wide(message[0]);
      CrcInjective(message[1..], Absorb(r, message[0]), Absorb(s, message[0]));
      StepsInjective(Xor(r, b), Xor(s, b), 8);
      XorCancels(r, s, b);
    }
  }

  // Up to four bytes act as one word that is XORed in at once.
  function WordOf(w: seq<Byte>): Word {
    if w == [] then 0 else Prepend(w[0], WordOf(w[1..]))
  }

  lemma WordFits(w: seq<Byte>)
    requires |w| <= 3
    ensures Fits(WordOf(w))
  {
    hide Prepend, Fits;
    var a, b, c := if |w| > 0 then w[0] else 0, if |w| > 1 then w[1] else 0, if |w| > 2 then w[2] else 0;
    PrependFits(a, b, c);
    if |w| == 3 {
      assert w[1..][1..] == [c] && [c][1..] == [];
      assert WordOf(w) == Prepend(a, Prepend(b, WordOf([c])));
    } else if |w| == 2 {
      assert w[1..][1..] == [];
      assert WordOf(w) == Prepend(a, Prepend(b, 0));
    }
  }

  // uint32_t in memory, little-endian
  function BytesOf(w: Word): (b: seq<Byte>)
    ensures |b| == 4
  {
    [Low(w), Low(Down(w)), Low(Down(Down(w))), Low(Down(Down(Down(w))))]
  }

  lemma WordOfBytes(w: Word)
    ensures WordOf(BytesOf(w)) == w
  {
    hide Prepend, Low, Down, Odd, Half;
    var w1 := Down(w);
    var w2 := Down(w1);
    var w3 := Down(w2);
    FourDowns(w);
    PrependLow(w);
    PrependLow(w1);
    PrependLow(w2);
    PrependLow(w3);
    var b := BytesOf(w);
    assert b[1..][1..][1..] == [Low(w3)] && [Low(w3)][1..] == [];
    assert WordOf(b[1..][1..][1..]) == w3;
    assert WordOf(b[1..][1..]) == w2;
  }

  lemma {:induction false} CrcOfWord(w: seq<Byte>, r: Word)
    requires |w| <= 4
    ensures Crc(w, r) == Steps(Xor(r, WordOf(w)), 8 * |w|)
    decreases |w|
  {
    hide Step, Xor, Wide, Up, Fits;
    if w == [] {
      XorZero(r);
    } else {
      var h := WordOf(w[1..]);
      WordFits(w[1..]);
      CrcOfWord(w[1..], Absorb(r, w[0]));
      StepsUndoUp(h);
      StepsLinear(Xor(r, Wide(w[0])), Up(h), 8);
      XorAssociates(r, Wide(w[0]), Up(h));
      StepsAdd(Xor(r, WordOf(w)), 8, 8 * |w[1..]|);
    }
  }

  lemma {:induction false} WordInjective(v: seq<Byte>, w: seq<Byte>)
    requires |v| == |w| <= 4 && WordOf(v) == WordOf(w)
    ensures v == w
    decreases |v|
  {
    hide Prepend, Fits;
    if v != [] {
      WordFits(v[1..]);
      WordFits(w[1..]);
      PrependInjective(v[0], WordOf(v[1..]), w[0], WordOf(w[1..]));
      WordInjective(v[1..], w[1..]);
      assert v == [v[0]] + v[1..] && w == [w[0]] + w[1..];
    }
  }

  lemma WordsDiffer(v: seq<Byte>, w: seq<Byte>, m: Word)
    requires |v| == |w| <= 4 && Crc(v, m) == Crc(w, m)
    ensures v == w
  {
    hide Crc, Steps, WordOf, Xor;
    CrcOfWord(v, m);
    CrcOfWord(w, m);
    StepsInjective(Xor(m, WordOf(v)), Xor(m, WordOf(w)), 8 * |v|);
    XorCommutes(m, WordOf(v));
    XorCommutes(m, WordOf(w));
    XorCancels(WordOf(v), WordOf(w), m);
    WordInjective(v, w);
  }

  // Two messages of equal length that differ only within four consecutive bytes have different CRCs.
  lemma BurstIsDetected(p: seq<Byte>, v: seq<Byte>, w: seq<Byte>, s: seq<Byte>, r: Word)
    requires |v| == |w| <= 4 && v != w
    ensures Crc(p + v + s, r) != Crc(p + w + s, r)
  {
    hide Crc;
    CrcSplit(p + v, s, r);
    CrcSplit(p + w, s, r);
    CrcSplit(p, v, r);
    CrcSplit(p, w, r);
    var m := Crc(p, r);
    if Crc(p + v + s, r) == Crc(p + w + s, r) {
      CrcInjective(s, Crc(v, m), Crc(w, m));
      WordsDiffer(v, w, m);
    }
  }

  lemma ChecksumDetectsBurst(p: seq<Byte>, v: seq<Byte>, w: seq<Byte>, s: seq<Byte>)
    requires |v| == |w| <= 4 && v != w
    ensures Checksum(p + v + s) != Checksum(p + w + s)
  {
    hide Crc, Xor;
    BurstIsDetected(p, v, w, s, INITIAL_REMAINDER);
    if Checksum(p + v + s) == Checksum(p + w + s) {
      XorCancels(Crc(p + v + s, INITIAL_REMAINDER), Crc(p + w + s, INITIAL_REMAINDER), FINAL_XOR_VALUE);
    }
  }

  function UnSteps(s: Word, n: nat): Word
    decreases n
  {
    if n == 0 then s else UnSteps(UnStep(s), n - 1)
  }

  lemma {:induction false} UnStepsInvertible(s: Word, n: nat)
    ensures Steps(UnSteps(s, n), n) == s
    decreases n
  {
    hide Step, UnStep;
    if n > 0 {
      UnStepsInvertible(UnStep(s), n - 1);
      UnStepInvertible(s);
    }
  }

  // Behind any message, four bytes bring the checksum to any value, zero included, and only one choice
  // of them does.
  lemma FourBytesReachAnyChecksum(p: seq<Byte>, target: Word) returns (w: seq<Byte>)
    ensures |w| == 4 && Checksum(p + w) == target
    ensures forall v: seq<Byte> :: |v| == 4 && v != w ==> Checksum(p + v) != target
  {
    hide Crc, Steps, UnSteps, WordOf, Xor;
    var m, goal := Crc(p, INITIAL_REMAINDER), Xor(target, FINAL_XOR_VALUE);
    var x := UnSteps(goal, 32);
    w := BytesOf(Xor(m, x));
    WordOfBytes(Xor(m, x));
    CrcSplit(p, w, INITIAL_REMAINDER);
    CrcOfWord(w, m);
    XorTwice(m, x);
    UnStepsInvertible(goal, 32);
    XorCommutes(target, FINAL_XOR_VALUE);
    XorTwice(FINAL_XOR_VALUE, target);
    XorCommutes(FINAL_XOR_VALUE, goal);
    forall v: seq<Byte> | |v| == 4 && v != w ensures Checksum(p + v) != target {
      ChecksumDetectsBurst(p, v, w, []);
      assert p + v + [] == p + v && p + w + [] == p + w;
    }
  }

  lemma XorTwice(m: Word, x: Word)
    ensures Xor(m, Xor(m, x)) == x
  {
    hide Xor;
    XorAssociates(m, m, x);
    XorSelf(m);
    XorCommutes(0, x);
    XorZero(x);
  }

  // An independent reference: the message as a polynomial over GF(2), most significant coefficient
  // first, divided by the CRC-32 polynomial with pencil and paper.

  // x^32 + x^26 + x^23 + x^22 + x^16 + x^12 + x^11 + x^10 + x^8 + x^7 + x^5 + x^4 + x^2 + x + 1,
  // but for its leading term, from x^31 down
  const DIVISOR: seq<bool> := [
    false, false, false, false, false, true, false, false,
    true, true, false, false, false, false, false, true,
    false, false, false, true, true, true, false, true,
    true, false, true, true, false, true, true, true
  ]

  function XorBits(a: seq<bool>, b: seq<bool>): (c: seq<bool>)
    requires |a| == |b|
    ensures |c| == |a| && forall i :: 0 <= i < |a| ==> c[i] == (a[i] != b[i])
  {
    seq(|a|, i requires 0 <= i < |a| => a[i] != b[i])
  }

  function Zeros(n: nat): (z: seq<bool>)
    ensures |z| == n && forall i :: 0 <= i < n ==> !z[i]
  {
    seq(n, _ => false)
  }

  // Long division: while the degree is 32 or more, the leading coefficient is cancelled.
  function Remainder(p: seq<bool>): seq<bool>
    requires |p| >= 32
    decreases |p|
  {
    if |p| == 32 then p else Remainder(Cancel(p))
  }

  function Cancel(p: seq<bool>): (q: seq<bool>)
    requires |p| > 32
    ensures |q| == |p| - 1
  {
    if p[0] then XorBits(p[1..33], DIVISOR) + p[33..] else p[1..]
  }

  function Bits(r: Word, n: nat): (s: seq<bool>)
    ensures |s| == n
    decreases n
  {
    if n == 0 then [] else [Odd(r)] + Bits(Half(r), n - 1)
  }

  // Bytes are sent low bit first, so a low bit is a high coefficient.
  function MessageBits(message: seq<Byte>): (s: seq<bool>)
    ensures |s| == 8 * |message|
  {
    if message == [] then [] else Bits(Wide(message[0]), 8) + MessageBits(message[1..])
  }

  lemma {:induction false} BitsOfXor(x: Word, y: Word, n: nat)
    ensures Bits(Xor(x, y), n) == XorBits(Bits(x, n), Bits(y, n))
    decreases n
  {
    hide Odd, Half, Xor;
    if n > 0 {
      XorByBits(x, y);
      BitsOfXor(Half(x), Half(y), n - 1);
    }
  }

  function Halves(r: Word, n: nat): Word
    decreases n
  {
    if n == 0 then r else Halves(Half(r), n - 1)
  }

  lemma {:induction false} BitsGrow(r: Word, n: nat)
    ensures Bits(r, n + 1) == Bits(r, n) + [Odd(Halves(r, n))]
    decreases n
  {
    hide Odd, Half;
    if n > 0 {
      BitsGrow(Half(r), n - 1);
    }
  }

  lemma {:induction false} HalvesAdd(r: Word, n: nat, m: nat)
    ensures Halves(Halves(r, n), m) == Halves(r, n + m)
    decreases n
  {
    hide Half;
    if n > 0 {
      HalvesAdd(Half(r), n - 1, m);
    }
  }

  lemma HalvesDown(r: Word)
    ensures Halves(r, 8) == Down(r)
  {
    hide Half, Down;
    EightHalves(r);
    var r3 := Half(Half(Half(r)));
    assert Halves(r, 3) == r3 && Halves(r3, 3) == Half(Half(Half(r3)));
    HalvesAdd(r, 3, 3);
    HalvesAdd(r, 6, 2);
    assert Halves(Halves(r, 6), 2) == Half(Half(Halves(r, 6)));
  }

  lemma AllHalvesGone(r: Word)
    ensures !Odd(Halves(r, 32))
  {
    hide Halves, Down, Odd;
    HalvesDown(r);
    HalvesDown(Down(r));
    HalvesDown(Down(Down(r)));
    HalvesDown(Down(Down(Down(r))));
    HalvesAdd(r, 8, 8);
    HalvesAdd(r, 16, 8);
    HalvesAdd(r, 24, 8);
    FourDowns(r);
  }

  lemma BitsOfHalf(r: Word)
    ensures Bits(Half(r), 32) == Bits(r, 32)[1..] + [false]
  {
    hide Odd, Half, Halves;
    BitsGrow(r, 32);
    AllHalvesGone(r);
    assert Bits(r, 33)[1..] == Bits(Half(r), 32);
  }

  lemma TwoBits(r: Word, h: Word, n: nat)
    requires Half(Half(r)) == h
    ensures Bits(r, n + 2) == [Odd(r), Odd(Half(r))] + Bits(h, n)
  {
    hide Odd, Half;
    assert Bits(r, n + 2) == [Odd(r)] + Bits(Half(r), n + 1);
    assert Bits(Half(r), n + 1) == [Odd(Half(r))] + Bits(h, n);
  }

  lemma FourBits(r: Word, h: Word, n: nat)
    requires Half(Half(Half(Half(r)))) == h
    ensures Bits(r, n + 4) == [Odd(r), Odd(Half(r)), Odd(Half(Half(r))), Odd(Half(Half(Half(r))))] + Bits(h, n)
  {
    hide Odd, Half, Bits;
    TwoBits(r, Half(Half(r)), n + 2);
    TwoBits(Half(Half(r)), h, n);
  }

  lemma HighDivisorBits()
    ensures Bits(0xEDB8, 16) == DIVISOR[16..]
  {
    hide Bits;
    FourBits(0xEDB8, 0xEDB, 12);
    FourBits(0xEDB, 0xED, 8);
    FourBits(0xED, 0xE, 4);
    FourBits(0xE, 0, 0);
    assert |Bits(0, 0)| == 0;
  }

  lemma LowDivisorBits()
    ensures Bits(POLYNOMIAL, 32) == DIVISOR[..16] + Bits(0xEDB8, 16)
  {
    hide Bits;
    FourBits(0xEDB8_8320, 0xEDB_8832, 28);
    FourBits(0xEDB_8832, 0xED_B883, 24);
    FourBits(0xED_B883, 0xE_DB88, 20);
    FourBits(0xE_DB88, 0xEDB8, 16);
    var h := Bits(0xEDB8, 16);
    assert Bits(0xE_DB88, 20) == [false, false, false, true] + h;
    assert Bits(0xED_B883, 24) == [true, true, false, false] + Bits(0xE_DB88, 20);
    assert Bits(0xEDB_8832, 28) == [false, true, false, false] + Bits(0xED_B883, 24);
    assert Bits(0xEDB8_8320, 32) == [false, false, false, false] + Bits(0xEDB_8832, 28);
  }

  lemma DivisorBits()
    ensures Bits(POLYNOMIAL, 32) == DIVISOR
  {
    hide Bits;
    HighDivisorBits();
    LowDivisorBits();
  }

  // The register of crcByBit, fed one bit of the message at a time
  function Feed(r: Word, bits: seq<bool>): Word
    decreases |bits|
  {
    if bits == [] then r else Feed(Step(Xor(r, BitWord(bits[0]))), bits[1..])
  }

  lemma {:induction false} FeedSplit(r: Word, a: seq<bool>, b: seq<bool>)
    ensures Feed(r, a + b) == Feed(Feed(r, a), b)
    decreases |a|
  {
    hide Step, Xor, BitWord;
    if a == [] {
      assert a + b == b;
    } else {
      FeedSplit(Step(Xor(r, BitWord(a[0]))), a[1..], b);
      assert (a + b)[1..] == a[1..] + b;
    }
  }

  lemma StepOfBit(r: Word, d: Word)
    ensures Step(Xor(r, d)) == Xor(Step(Xor(r, BitWord(Odd(d)))), Half(d))
  {
    hide Step, Xor, BitWord, Odd, Half, Twice, TopClear;
    var b, h := BitWord(Odd(d)), Half(d);
    SplitBit(d);
    XorAssociates(r, b, Twice(h));
    StepLinear(Xor(r, b), Twice(h));
    StepUndoesTwice(h);
  }

  // XORing in a whole word and stepping is the same as feeding its bits one by one.
  lemma {:induction false} FeedWord(r: Word, d: Word, n: nat)
    requires Halves(d, n) == 0
    ensures Feed(r, Bits(d, n)) == Steps(Xor(r, d), n)
    decreases n
  {
    hide Step, Xor, BitWord, Odd, Half;
    if n == 0 {
      XorZero(r);
    } else {
      var s := Step(Xor(r, BitWord(Odd(d))));
      StepOfBit(r, d);
      FeedWord(s, Half(d), n - 1);
      StepsAdd(Xor(r, d), 1, n - 1);
      assert Steps(Xor(r, d), 1) == Step(Steps(Xor(r, d), 0));
      assert Bits(d, n)[1..] == Bits(Half(d), n - 1);
    }
  }

  lemma {:induction false} FeedMessage(message: seq<Byte>, r: Word)
    ensures Feed(r, MessageBits(message)) == Crc(message, r)
    decreases |message|
  {
    hide Feed, Bits, Steps, Halves, Xor, Wide;
    if message == [] {
      assert Feed(r, []) == r by { FeedNothing(r); }
    } else {
      var d := Wide(message[0]);
      HalvesDown(d);
      WideFits(message[0]);
      FeedWord(r, d, 8);
      FeedSplit(r, Bits(d, 8), MessageBits(message[1..]));
      FeedMessage(message[1..], Absorb(r, message[0]));
    }
  }

  lemma FeedNothing(r: Word)
    ensures Feed(r, []) == r
  {
  }

  // What is divided: the bits followed by 32 zeros, the register XORed onto the front
  function Dividend(bits: seq<bool>, r: Word): (p: seq<bool>)
    ensures |p| == |bits| + 32
  {
    XorBits(bits + Zeros(32), Bits(r, 32) + Zeros(|bits|))
  }

  // The coefficients after a step: those before it, one place on, less the divisor if it goes in
  lemma StepBits(r: Word, b: bool, i: nat)
    requires i < 32
    ensures Bits(r, 32)[0] == Odd(r)
    ensures Bits(Step(Xor(r, BitWord(b))), 32)[i] ==
            ((i < 31 && Bits(r, 32)[i + 1]) != ((b != Odd(r)) && DIVISOR[i]))
  {
    hide Odd, Half, Xor, BitWord, Step, Halves, Bits;
    var x := Xor(r, BitWord(b));
    XorByBits(r, BitWord(b));
    BitWordFacts(b);
    XorZero(Half(r));
    StepByBits(x);
    BitsOfHalf(r);
    FirstBit(r);
    BitsOfXor(Half(r), POLYNOMIAL, 32);
    DivisorBits();
  }

  // One step of the register is one step of the long division.
  lemma CancelIsStep(bits: seq<bool>, r: Word)
    requires bits != []
    ensures Cancel(Dividend(bits, r)) == Dividend(bits[1..], Step(Xor(r, BitWord(bits[0]))))
  {
    hide Odd, Xor, BitWord, Step, Bits;
    var p := Dividend(bits, r);
    var q := Dividend(bits[1..], Step(Xor(r, BitWord(bits[0]))));
    var c := Cancel(p);
    StepBits(r, bits[0], 0);
    forall i: nat | i < |q| ensures c[i] == q[i] {
      assert (bits + Zeros(32))[i + 1] == (bits[1..] + Zeros(32))[i];
      if i < 32 {
        StepBits(r, bits[0], i);
      }
    }
  }

  lemma FirstBit(r: Word)
    ensures Bits(r, 32)[0] == Odd(r)
  {
  }

  lemma {:induction false} FeedIsDivision(bits: seq<bool>, r: Word)
    ensures Bits(Feed(r, bits), 32) == Remainder(Dividend(bits, r))
    decreases |bits|
  {
    hide Cancel, Bits, Step, Xor, BitWord;
    if bits == [] {
      assert Dividend(bits, r) == Bits(r, 32);
    } else {
      CancelIsStep(bits, r);
      FeedIsDivision(bits[1..], Step(Xor(r, BitWord(bits[0]))));
    }
  }

  // The CRC of a message is the remainder of dividing it, shifted up by 32 places and with the initial
  // remainder added to its front, by the CRC-32 polynomial.
  lemma CrcIsRemainder(message: seq<Byte>, r: Word)
    ensures Bits(Crc(message, r), 32) == Remainder(Dividend(MessageBits(message), r))
  {
    hide *;
    FeedMessage(message, r);
    FeedIsDivision(MessageBits(message), r);
  }

  // The checksum as section 8 of RFC 1952 has it, without the constants of the code: the first 32 bits
  // of the message, with the 32 zeros behind it, are complemented, and so is the remainder.
  function ComplementFirst(p: seq<bool>, n: nat): (q: seq<bool>)
    ensures |q| == |p|
  {
    seq(|p|, i requires 0 <= i < |p| => if i < n then !p[i] else p[i])
  }

  function ReferenceChecksum(message: seq<Byte>): (c: seq<bool>) {
    ComplementFirst(Remainder(ComplementFirst(MessageBits(message) + Zeros(32), 32)), 32)
  }

  lemma AllOnes()
    ensures forall i :: 0 <= i < 32 ==> Bits(0xFFFF_FFFF, 32)[i]
  {
    hide Bits;
    FourBits(0xFFFF_FFFF, 0xFFF_FFFF, 28);
    FourBits(0xFFF_FFFF, 0xFF_FFFF, 24);
    FourBits(0xFF_FFFF, 0xF_FFFF, 20);
    FourBits(0xF_FFFF, 0xFFFF, 16);
    FourBits(0xFFFF, 0xFFF, 12);
    FourBits(0xFFF, 0xFF, 8);
    FourBits(0xFF, 0xF, 4);
    FourBits(0xF, 0, 0);
    assert |Bits(0, 0)| == 0;
  }

  lemma ChecksumIsReference(message: seq<Byte>)
    ensures Bits(Checksum(message), 32) == ReferenceChecksum(message)
  {
    hide Bits, Crc, Xor, MessageBits, Remainder;
    AllOnes();
    CrcIsRemainder(message, INITIAL_REMAINDER);
    BitsOfXor(Crc(message, INITIAL_REMAINDER), FINAL_XOR_VALUE, 32);
    var bits := MessageBits(message);
    assert Dividend(bits, INITIAL_REMAINDER) == ComplementFirst(bits + Zeros(32), 32);
  }

  function Four(r: Word): Word { Step(Step(Step(Step(r)))) }

  lemma StepsByFour(r: Word, n: nat)
    ensures Steps(r, 0) == r && Steps(r, n + 4) == Four(Steps(r, n))
  {
    hide Step;
    assert Steps(r, n + 2) == Step(Step(Steps(r, n)));
  }

  // A message with its checksum behind it, low byte first, leaves the same remainder whatever it is.
  lemma Residue(message: seq<Byte>)
    ensures Crc(message + BytesOf(Checksum(message)), 0xFFFF_FFFF) == 0xDEBB_20E3
  {
    hide Crc, Steps, Xor, WordOf, BytesOf, Step;
    var m := Crc(message, INITIAL_REMAINDER);
    var w := Checksum(message);
    CrcSplit(message, BytesOf(w), INITIAL_REMAINDER);
    CrcOfWord(BytesOf(w), m);
    WordOfBytes(w);
    XorTwice(m, FINAL_XOR_VALUE);
    OnesStepped();
  }

  lemma OnesStepped()
    ensures Steps(0xFFFF_FFFF, 32) == 0xDEBB_20E3
  {
    hide Steps, Four;
    var r: Word := 0xFFFF_FFFF;
    StepsByFour(r, 0);
    StepsByFour(r, 4);
    StepsByFour(r, 8);
    StepsByFour(r, 12);
    StepsByFour(r, 16);
    StepsByFour(r, 20);
    StepsByFour(r, 24);
    StepsByFour(r, 28);
    FoursOfOnes();
  }

  lemma FoursOfOnes()
    ensures Four(0xFFFF_FFFF) == 0xB242_0DE3 && Four(0xB242_0DE3) == 0x2DFD_1072
    ensures Four(0x2DFD_1072) == 0x39B1_F1CF && Four(0x39B1_F1CF) == 0xBE26_ED00
    ensures Four(0xBE26_ED00) == 0x0BE2_6ED0 && Four(0x0BE2_6ED0) == 0x00BE_26ED
    ensures Four(0x00BE_26ED) == 0x86D8_30BA && Four(0x86D8_30BA) == 0xDEBB_20E3
  {
  }

  // The checksum of "123456789" that identifies this CRC
  lemma CheckValue()
    ensures Checksum([0x31, 0x32, 0x33, 0x34, 0x35, 0x36, 0x37, 0x38, 0x39]) == 0xCBF4_3926
  {
    hide Absorb;
    var m: seq<Byte> := [0x31, 0x32, 0x33, 0x34, 0x35, 0x36, 0x37, 0x38, 0x39];
    FirstDigits();
    LastDigits();
    CrcOfDigits(m);
  }

  lemma CrcOfDigits(m: seq<Byte>)
    requires |m| == 9
    ensures Crc(m, 0xFFFF_FFFF) == Absorb(Absorb(Absorb(Absorb(Absorb(Absorb(Absorb(Absorb(Absorb(0xFFFF_FFFF,
      m[0]), m[1]), m[2]), m[3]), m[4]), m[5]), m[6]), m[7]), m[8])
  {
    hide Absorb;
    var r := Absorb(Absorb(Absorb(0xFFFF_FFFF, m[0]), m[1]), m[2]);
    var s := Absorb(Absorb(Absorb(r, m[3]), m[4]), m[5]);
    ThreeAbsorbed(m, 0xFFFF_FFFF);
    ThreeAbsorbed(m[3..], r);
    ThreeAbsorbed(m[6..], s);
    assert m[3..][3..] == m[6..] && m[6..][3..] == [];
  }

  lemma ThreeAbsorbed(m: seq<Byte>, r: Word)
    requires |m| >= 3
    ensures Crc(m, r) == Crc(m[3..], Absorb(Absorb(Absorb(r, m[0]), m[1]), m[2]))
  {
    hide Absorb;
    assert m[1..][1..] == m[2..] && m[2..][1..] == m[3..];
    assert Crc(m, r) == Crc(m[1..], Absorb(r, m[0]));
    assert Crc(m[1..], Absorb(r, m[0])) == Crc(m[2..], Absorb(Absorb(r, m[0]), m[1]));
  }

  lemma AbsorbsTo(r: Word, b: Byte, s: Word)
    requires Four(Four(Xor(r, Wide(b)))) == s
    ensures Absorb(r, b) == s
  {
    hide Steps, Four;
    StepsByFour(Xor(r, Wide(b)), 0);
    StepsByFour(Xor(r, Wide(b)), 4);
  }

  lemma FirstDigits()
    ensures Absorb(0xFFFF_FFFF, 0x31) == 0x7C23_1048 && Absorb(0x7C23_1048, 0x32) == 0xB0AC_BB32
    ensures Absorb(0xB0AC_BB32, 0x33) == 0x77B7_9C2D && Absorb(0x77B7_9C2D, 0x34) == 0x641C_1F5C
    ensures Absorb(0x641C_1F5C, 0x35) == 0x340A_C5E3
  {
    hide Absorb;
    AbsorbsTo(0xFFFF_FFFF, 0x31, 0x7C23_1048);
    AbsorbsTo(0x7C23_1048, 0x32, 0xB0AC_BB32);
    AbsorbsTo(0xB0AC_BB32, 0x33, 0x77B7_9C2D);
    AbsorbsTo(0x77B7_9C2D, 0x34, 0x641C_1F5C);
    AbsorbsTo(0x641C_1F5C, 0x35, 0x340A_C5E3);
  }

  lemma LastDigits()
    ensures Absorb(0x340A_C5E3, 0x36) == 0xF68D_2C9E && Absorb(0xF68D_2C9E, 0x37) == 0xAFFC_9660
    ensures Absorb(0xAFFC_9660, 0x38) == 0x651F_2550 && Absorb(0x651F_2550, 0x39) == 0x340B_C6D9
  {
    hide Absorb;
    AbsorbsTo(0x340A_C5E3, 0x36, 0xF68D_2C9E);
    AbsorbsTo(0xF68D_2C9E, 0x37, 0xAFFC_9660);
    AbsorbsTo(0xAFFC_9660, 0x38, 0x651F_2550);
    AbsorbsTo(0x651F_2550, 0x39, 0x340B_C6D9);
  }

  lemma ChecksumOfNothing()
    ensures Checksum([]) == 0
  {
  }

  // crcByBit: the loops compute the function.
  method CrcByBit(message: seq<Byte>, remainder: Word) returns (r: Word)
    ensures r == Crc(message, remainder)
  {
    hide Steps, Crc, Xor, Wide;
    r := remainder;
    assert Crc([], remainder) == remainder by { CrcNothing(remainder); }
    var byte := 0;
    while byte < |message|
      invariant 0 <= byte <= |message|
      invariant r == Crc(message[..byte], remainder)
    {
      r := Xor(r, Wide(message[byte]));
      ghost var x := r;
      StepsZero(x);
      var bit := 8;
      while bit > 0
        invariant 0 <= bit <= 8
        invariant r == Steps(x, 8 - bit)
      {
        StepsNext(x, 8 - bit);
        StepTests(r);
        r := if r & 1 != 0 then (r >> 1) ^ POLYNOMIAL else r >> 1;
        bit := bit - 1;
      }
      CrcLast(message[..byte], message[byte], remainder);
      assert message[..byte] + [message[byte]] == message[..byte + 1];
      byte := byte + 1;
    }
    assert message[..byte] == message;
  }

  lemma CrcNothing(r: Word)
    ensures Crc([], r) == r
  {
  }

  lemma StepsZero(r: Word)
    ensures Steps(r, 0) == r
  {
  }

  lemma StepsNext(r: Word, n: nat)
    ensures Steps(r, n + 1) == Step(Steps(r, n))
  {
  }

  ghost predicate IsTable(table: array<Word>)
    reads table
  {
    table.Length == 256 && forall d: Byte :: table[Index(d)] == TableEntry(d)
  }

  // crcByByte: with the table, the answer of crcByBit.
  method CrcByByte(message: seq<Byte>, remainder: Word, table: array<Word>) returns (r: Word)
    requires IsTable(table)
    ensures r == Crc(message, remainder)
  {
    hide Crc, TableEntry, Absorb, Xor, Low, Down, XorByte;
    r := remainder;
    assert Crc([], remainder) == remainder by { CrcNothing(remainder); }
    var byte := 0;
    while byte < |message|
      invariant 0 <= byte <= |message|
      invariant r == Crc(message[..byte], remainder)
    {
      TableStep(r, message[byte]);
      var data := XorByte(message[byte], Low(r));
      XorByteCommutes(message[byte], Low(r));
      r := Xor(table[Index(data)], Down(r));
      CrcLast(message[..byte], message[byte], remainder);
      assert message[..byte] + [message[byte]] == message[..byte + 1];
      byte := byte + 1;
    }
    assert message[..byte] == message;
  }

  // crcTableInit: the table is filled from its end.
  method CrcTableInit(table: array<Word>)
    requires table.Length == 256
    modifies table
    ensures IsTable(table)
  {
    hide Crc, TableEntry, Index;
    var dividend: Byte := 255;
    while true
      invariant forall d: Byte :: dividend < d ==> table[Index(d)] == TableEntry(d)
      decreases dividend
    {
      var entry := CrcByBit([dividend], 0);
      OneByte(dividend);
      forall d: Byte ensures Index(d) == Index(dividend) ==> d == dividend {
        IndexInjective(d, dividend);
      }
      table[Index(dividend)] := entry;
      assert forall d: Byte :: dividend <= d ==> table[Index(d)] == TableEntry(d);
      if dividend == 0 {
        break;
      }
      dividend := dividend - 1;
    }
  }

  lemma OneByte(d: Byte)
    ensures Crc([d], 0) == TableEntry(d)
  {
    hide Steps, Xor, Wide;
    XorCommutes(0, Wide(d));
    XorZero(Wide(d));
    assert [d][1..] == [];
  }

  class Context {
    var remainder: Word
  }

  // The table that all contexts share, filled when the first of them is initialised
  class Library {
    const crcTable: array<Word>
    var crcTableInitialized: bool

    constructor ()
      ensures Valid() && fresh(crcTable) && !crcTableInitialized
    {
      crcTable := new Word[256];
      crcTableInitialized := false;
    }

    ghost predicate Valid()
      reads this, crcTable
    {
      crcTable.Length == 256 && (crcTableInitialized ==> IsTable(crcTable))
    }

    method ContextInit(context: Context)
      requires Valid()
      modifies this`crcTableInitialized, crcTable, context
      ensures Valid() && crcTableInitialized
      ensures context.remainder == Crc([], INITIAL_REMAINDER)
    {
      if !crcTableInitialized {
        CrcTableInit(crcTable);
        crcTableInitialized := true;
      }
      context.remainder := INITIAL_REMAINDER;
    }

    // Several updates add up to one over the whole message.
    method Update(context: Context, data: seq<Byte>, ghost before: seq<Byte>)
      requires Valid() && crcTableInitialized
      requires context.remainder == Crc(before, INITIAL_REMAINDER)
      modifies context
      ensures context.remainder == Crc(before + data, INITIAL_REMAINDER)
    {
      hide Crc;
      context.remainder := CrcByByte(data, context.remainder, crcTable);
      CrcSplit(before, data, INITIAL_REMAINDER);
    }

    method Out(context: Context, ghost message: seq<Byte>) returns (crc: Word)
      requires context.remainder == Crc(message, INITIAL_REMAINDER)
      ensures crc == Checksum(message)
    {
      crc := Xor(context.remainder, FINAL_XOR_VALUE);
    }

    method CalculateBuffer(buffer: seq<Byte>) returns (crc: Word)
      requires Valid()
      modifies this`crcTableInitialized, crcTable
      ensures Valid() && crcTableInitialized
      ensures crc == Checksum(buffer)
    {
      hide Crc, Checksum;
      var context := new Context;
      ContextInit(context);
      Update(context, buffer, []);
      assert [] + buffer == buffer;
      crc := Out(context, buffer);
    }
  }
}
