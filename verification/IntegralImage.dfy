// The integral image of FaceDetBasicKernels.c: tiles of whole lines, cores that share the columns and
// then the lines of a tile between barriers, and sums modulo 2^32.

module IntegralImage {
  import opened Prelude

  const UINT32 := 0x1_0000_0000

  // unsigned int
  type Word32 = x: int | 0 <= x < UINT32

  function Wrap(x: int): Word32 { x % UINT32 }

  function Add(a: int, b: int): Word32 { Wrap(a + b) }

  lemma WrapShift(x: int, q: int)
    ensures Wrap(x + q * UINT32) == Wrap(x)
  {
    var d, r := x / UINT32, x % UINT32;
    assert x + q * UINT32 == (d + q) * UINT32 + r;
  }

  lemma WrapAdd(a: int, b: int)
    ensures Wrap(Wrap(a) + b) == Wrap(a + b) && Wrap(a + Wrap(b)) == Wrap(a + b)
    ensures Wrap(a - Wrap(b)) == Wrap(a - b)
  {
    WrapShift(a + b, -(a / UINT32));
    WrapShift(a + b, -(b / UINT32));
    WrapShift(a - b, b / UINT32);
    assert Wrap(a) == a - (a / UINT32) * UINT32 && Wrap(b) == b - (b / UINT32) * UINT32;
  }

  // The image, by line and column; for the squared integral image its pixels are squared.
  datatype Image = Image(pixel: (nat, nat) -> U8, squared: bool) {
    function Value(y: nat, x: nat): nat {
      var p: nat := pixel(y, x);
      if squared then p * p else p
    }

    // The sum of lines y0 to y1 - 1 in column x
    function Column(x: nat, y0: nat, y1: nat): nat
      decreases y1
    {
      if y1 <= y0 then 0 else Column(x, y0, y1 - 1) + Value(y1 - 1, x)
    }

    // and over columns x0 to x1 - 1
    function Sum(y0: nat, y1: nat, x0: nat, x1: nat): nat
      decreases x1
    {
      if x1 <= x0 then 0 else Sum(y0, y1, x0, x1 - 1) + Column(x1 - 1, y0, y1)
    }
  }

  // Row-major layout
  function Index(y: nat, x: nat, w: nat): nat { y * w + x }

  lemma LineBefore(y: nat, v: nat, w: nat)
    requires y < v
    ensures y * w + w <= v * w
  {
    assert (y + 1) * w == y * w + w;
    MulMonotone(y + 1, v, w);
  }

  lemma MulMonotone(a: nat, b: nat, c: nat)
    requires a <= b
    ensures a * c <= b * c
  {
  }

  lemma IndexInside(y: nat, x: nat, w: nat, h: nat)
    requires y < h && x < w
    ensures Index(y, x, w) < h * w
  {
    LineBefore(y, h, w);
  }

  lemma IndexInjective(y: nat, x: nat, v: nat, u: nat, w: nat)
    requires x < w && u < w && Index(y, x, w) == Index(v, u, w)
    ensures y == v && x == u
  {
    if y < v {
      LineBefore(y, v, w);
    } else if v < y {
      LineBefore(v, y, w);
    }
  }

  lemma IndexOthers(y: nat, x: nat, w: nat)
    requires x < w
    ensures forall v: nat, u: nat :: u < w && (v != y || u != x) ==> Index(v, u, w) != Index(y, x, w)
  {
    forall v: nat, u: nat | u < w && (v != y || u != x) ensures Index(v, u, w) != Index(y, x, w) {
      if Index(v, u, w) == Index(y, x, w) {
        IndexInjective(y, x, v, u, w);
      }
    }
  }

  // ChunkSize, for 2^log cores: x >> log, and one more if a bit below is set
  function ChunkSize(x: nat, log: nat): nat {
    x / Pow2(log) + if x % Pow2(log) != 0 then 1 else 0
  }

  // Which core does column, or line, i of n
  predicate Owns(core: nat, i: nat, n: nat, log: nat) { First(core, n, log) <= i < Last(core, n, log) }

  function First(core: nat, n: nat, log: nat): nat { core * ChunkSize(n, log) }

  function Last(core: nat, n: nat, log: nat): (last: nat)
    ensures last <= n
  {
    var end := First(core, n, log) + ChunkSize(n, log);
    if end > n then n else end
  }

  lemma ChunkCovers(n: nat, log: nat)
    ensures ChunkSize(n, log) * Pow2(log) >= n
    ensures n > 0 ==> ChunkSize(n, log) > 0
  {
    var p := Pow2(log);
    assert n == (n / p) * p + n % p;
    assert (n / p + 1) * p == (n / p) * p + p;
  }

  // Exactly one core does it.
  lemma OwnerExists(i: nat, n: nat, log: nat) returns (core: nat)
    requires i < n
    ensures core < Pow2(log) && Owns(core, i, n, log)
  {
    hide Pow2;
    var chunk := ChunkSize(n, log);
    ChunkCovers(n, log);
    core := i / chunk;
    assert i == core * chunk + i % chunk;
    if core >= Pow2(log) {
      MulMonotone(Pow2(log), core, chunk);
    }
  }

  lemma OwnerIsUnique(c: nat, d: nat, i: nat, n: nat, log: nat)
    requires Owns(c, i, n, log) && Owns(d, i, n, log)
    ensures c == d
  {
    hide ChunkSize;
    if c < d {
      LineBefore(c, d, ChunkSize(n, log));
    } else if d < c {
      LineBefore(d, c, ChunkSize(n, log));
    }
  }

  // The cores of a cluster, each once, in the order in which they get through a phase
  ghost predicate Schedule(order: seq<nat>, log: nat) {
    && (forall c: nat :: c < Pow2(log) <==> c in order)
    && (forall i, j :: 0 <= i < j < |order| ==> order[i] != order[j])
  }

  // A tile of h lines from line y0 of the image on
  ghost predicate IsTile(a: seq<U8>, im: Image, y0: nat, w: nat, h: nat) {
    |a| == h * w && forall y: nat, x: nat :: y < h && x < w ==>
      Index(y, x, w) < |a| && a[Index(y, x, w)] == im.pixel(y0 + y, x)
  }

  // Two tiles agree outside column col, or outside line y.
  ghost predicate SameOtherColumns(a: seq<Word32>, b: seq<Word32>, col: nat, w: nat, h: nat) {
    |a| == |b| == h * w && forall y: nat, x: nat :: y < h && x < w && x != col ==>
      Index(y, x, w) < |a| && a[Index(y, x, w)] == b[Index(y, x, w)]
  }

  ghost predicate SameOtherLines(a: seq<Word32>, b: seq<Word32>, line: nat, w: nat, h: nat) {
    |a| == |b| == h * w && forall y: nat, x: nat :: y < h && x < w && y != line ==>
      Index(y, x, w) < |a| && a[Index(y, x, w)] == b[Index(y, x, w)]
  }

  lemma AllSame(a: seq<Word32>, col: nat, w: nat, h: nat)
    requires |a| == h * w
    ensures SameOtherColumns(a, a, col, w, h) && SameOtherLines(a, a, col, w, h)
  {
    hide Index;
    forall y: nat, x: nat | y < h && x < w ensures Index(y, x, w) < |a| {
      IndexInside(y, x, w, h);
    }
  }

  // One cell is written.
  lemma Store(a: seq<Word32>, before: seq<Word32>, y: nat, x: nat, w: nat, h: nat, v: Word32)
    requires y < h && x < w && |a| == h * w
    ensures Index(y, x, w) < |a|
    ensures SameOtherColumns(a, before, x, w, h) ==> SameOtherColumns(a[Index(y, x, w) := v], before, x, w, h)
    ensures SameOtherLines(a, before, y, w, h) ==> SameOtherLines(a[Index(y, x, w) := v], before, y, w, h)
    ensures forall u: nat, z: nat :: u < h && z < w && (u != y || z != x) ==>
      Index(u, z, w) < |a| && a[Index(y, x, w) := v][Index(u, z, w)] == a[Index(u, z, w)]
  {
    hide Index;
    IndexInside(y, x, w, h);
    IndexOthers(y, x, w);
    forall u: nat, z: nat | u < h && z < w ensures Index(u, z, w) < |a| {
      IndexInside(u, z, w, h);
    }
  }

  method Pixel(input: array<U8>, i: nat, squared: bool) returns (p: nat)
    requires i < input.Length
    ensures var q: nat := input[i]; p == if squared then q * q else q
  {
    p := input[i];
    if squared {
      p := p * p;
    }
  }

  // Lines before n of column x are done.
  ghost predicate ColumnUpTo(out: seq<Word32>, im: Image, y0: nat, x: nat, w: nat, n: nat) {
    forall y: nat :: y < n ==> Index(y, x, w) < |out| && out[Index(y, x, w)] == Wrap(im.Column(x, 0, y0 + y + 1))
  }

  lemma NextInColumn(out: seq<Word32>, im: Image, y0: nat, x: nat, w: nat, h: nat, n: nat)
    requires x < w && n < h && |out| == h * w && ColumnUpTo(out, im, y0, x, w, n)
    ensures Index(n, x, w) < |out|
    ensures ColumnUpTo(out[Index(n, x, w) := Wrap(im.Column(x, 0, y0 + n + 1))], im, y0, x, w, n + 1)
  {
    hide Index, Image.Column, Wrap;
    Store(out, out, n, x, w, h, Wrap(im.Column(x, 0, y0 + n + 1)));
  }

  // The first loop of KerIntegralImageProcess and KerSquaredIntegralImageProcess, for one column
  method SumColumn(input: array<U8>, out: array<Word32>, buff: array<Word32>, w: nat, h: nat, col: nat,
                   ghost im: Image, ghost y0: nat, squared: bool)
    requires col < w <= buff.Length && h > 0 && squared == im.squared
    requires input.Length == out.Length == h * w && out != buff && IsTile(input[..], im, y0, w, h)
    requires buff[col] == Wrap(im.Column(col, 0, y0))
    modifies out
    ensures ColumnUpTo(out[..], im, y0, col, w, h)
    ensures SameOtherColumns(out[..], old(out[..]), col, w, h)
  {
    hide Index, Image.Column, Wrap, ColumnUpTo, SameOtherColumns;
    ghost var before := out[..];
    AllSame(before, col, w, h);
    NoneYet(before, im, y0, col, w);
    var p := PixelAt(input, 0, col, w, h, im, y0, squared);
    Accumulate(im, col, y0);
    NextInColumn(out[..], im, y0, col, w, h, 0);
    Store(out[..], before, 0, col, w, h, Add(p, buff[col]));
    out[Index(0, col, w)] := Add(p, buff[col]);
    var line := 0;
    while line < h - 1
      invariant 0 <= line <= h - 1
      invariant ColumnUpTo(out[..], im, y0, col, w, line + 1)
      invariant SameOtherColumns(out[..], before, col, w, h)
    {
      p := PixelAt(input, line + 1, col, w, h, im, y0, squared);
      Accumulate(im, col, y0 + line + 1);
      NextInColumn(out[..], im, y0, col, w, h, line + 1);
      LastInColumn(out[..], im, y0, col, w, line);
      Store(out[..], before, line + 1, col, w, h, Add(out[Index(line, col, w)], p));
      out[Index(line + 1, col, w)] := Add(out[Index(line, col, w)], p);
      line := line + 1;
    }
  }

  lemma NoneYet(out: seq<Word32>, im: Image, y0: nat, x: nat, w: nat)
    ensures ColumnUpTo(out, im, y0, x, w, 0)
  {
  }

  lemma LastInColumn(out: seq<Word32>, im: Image, y0: nat, x: nat, w: nat, n: nat)
    requires ColumnUpTo(out, im, y0, x, w, n + 1)
    ensures Index(n, x, w) < |out| && out[Index(n, x, w)] == Wrap(im.Column(x, 0, y0 + n + 1))
  {
  }

  lemma Accumulate(im: Image, x: nat, y: nat)
    ensures Wrap(Wrap(im.Column(x, 0, y)) + im.Value(y, x)) == Wrap(im.Column(x, 0, y + 1))
    ensures Wrap(im.Value(y, x) + Wrap(im.Column(x, 0, y))) == Wrap(im.Column(x, 0, y + 1))
  {
    hide Wrap;
    WrapAdd(im.Column(x, 0, y), im.Value(y, x));
  }

  method PixelAt(input: array<U8>, y: nat, x: nat, w: nat, h: nat, ghost im: Image, ghost y0: nat,
    squared: bool) returns (p: nat)
    requires y < h && x < w && squared == im.squared && IsTile(input[..], im, y0, w, h)
    ensures p == im.Value(y0 + y, x)
  {
    IndexInside(y, x, w, h);
    p := Pixel(input, Index(y, x, w), squared);
  }

  // Column x, or line y, is the same in both tiles.
  ghost predicate SameColumn(a: seq<Word32>, b: seq<Word32>, x: nat, w: nat, h: nat) {
    |a| == |b| && forall y: nat :: y < h ==> Index(y, x, w) < |a| && a[Index(y, x, w)] == b[Index(y, x, w)]
  }

  ghost predicate SameLine(a: seq<Word32>, b: seq<Word32>, y: nat, w: nat) {
    |a| == |b| && forall x: nat :: x < w ==> Index(y, x, w) < |a| && a[Index(y, x, w)] == b[Index(y, x, w)]
  }

  lemma ColumnStays(a: seq<Word32>, b: seq<Word32>, x: nat, w: nat, h: nat, im: Image, y0: nat)
    requires SameColumn(a, b, x, w, h) && ColumnUpTo(a, im, y0, x, w, h)
    ensures ColumnUpTo(b, im, y0, x, w, h)
  {
    hide Index, Wrap, Image.Column;
  }

  lemma EveryColumnSame(a: seq<Word32>, w: nat, h: nat)
    requires |a| == h * w
    ensures forall x: nat :: x < w ==> SameColumn(a, a, x, w, h)
    ensures forall y: nat :: y < h ==> SameLine(a, a, y, w)
  {
    hide Index;
    forall y: nat, x: nat | y < h && x < w ensures Index(y, x, w) < |a| {
      IndexInside(y, x, w, h);
    }
  }

  // What one core does before the first barrier: it sums its own columns, and touches no other.
  method SumColumns(input: array<U8>, out: array<Word32>, buff: array<Word32>, w: nat, h: nat, core: nat, log: nat,
                    ghost im: Image, ghost y0: nat, squared: bool)
    requires w <= buff.Length && h > 0 && squared == im.squared
    requires input.Length == out.Length == h * w && out != buff && IsTile(input[..], im, y0, w, h)
    requires forall x :: 0 <= x < w ==> buff[x] == Wrap(im.Column(x, 0, y0))
    modifies out
    ensures forall x: nat :: x < w && Owns(core, x, w, log) ==> ColumnUpTo(out[..], im, y0, x, w, h)
    ensures forall x: nat :: x < w && !Owns(core, x, w, log) ==> SameColumn(out[..], old(out[..]), x, w, h)
  {
    hide Index, Image.Column, Wrap, ColumnUpTo, SameOtherColumns, SameColumn, First, Last, IsTile;
    ghost var before := out[..];
    EveryColumnSame(before, w, h);
    var first, last := First(core, w, log), Last(core, w, log);
    var col := first;
    while col < last
      invariant first <= col && (col <= last || first > last)
      invariant forall x: nat :: first <= x < col && x < last ==> ColumnUpTo(out[..], im, y0, x, w, h)
      invariant forall x: nat :: x < w && !(first <= x < last) ==> SameColumn(out[..], before, x, w, h)
    {
      ghost var a := out[..];
      SumColumn(input, out, buff, w, h, col, im, y0, squared);
      EveryColumnSame(a, w, h);
      forall x: nat | x < w && x != col
        ensures SameColumn(a, out[..], x, w, h)
        ensures SameColumn(a, before, x, w, h) ==> SameColumn(out[..], before, x, w, h)
      {
        OtherColumnBack(a, out[..], before, col, x, w, h);
      }
      forall x: nat | first <= x < col && x < last ensures ColumnUpTo(out[..], im, y0, x, w, h) {
        ColumnStays(a, out[..], x, w, h, im, y0);
      }
      col := col + 1;
    }
  }

  lemma OtherColumnBack(a: seq<Word32>, b: seq<Word32>, before: seq<Word32>, col: nat, x: nat, w: nat, h: nat)
    requires SameOtherColumns(b, a, col, w, h) && x != col && x < w
    ensures SameColumn(a, b, x, w, h)
    ensures SameColumn(a, before, x, w, h) ==> SameColumn(b, before, x, w, h)
  {
    hide Index;
  }

  // Before the first barrier: all cores, in any order
  method SumPhase(input: array<U8>, out: array<Word32>, buff: array<Word32>, w: nat, h: nat, order: seq<nat>, log: nat,
                  ghost im: Image, ghost y0: nat, squared: bool)
    requires w <= buff.Length && h > 0 && squared == im.squared && Schedule(order, log)
    requires input.Length == out.Length == h * w && out != buff && IsTile(input[..], im, y0, w, h)
    requires forall x :: 0 <= x < w ==> buff[x] == Wrap(im.Column(x, 0, y0))
    modifies out
    ensures forall x: nat :: x < w ==> ColumnUpTo(out[..], im, y0, x, w, h)
  {
    hide Index, Image.Column, Wrap, ColumnUpTo, SameColumn, Owns, IsTile, Pow2;
    var i := 0;
    while i < |order|
      invariant 0 <= i <= |order|
      invariant forall j, x: nat :: 0 <= j < i && x < w && Owns(order[j], x, w, log) ==>
        ColumnUpTo(out[..], im, y0, x, w, h)
    {
      ghost var a := out[..];
      SumColumns(input, out, buff, w, h, order[i], log, im, y0, squared);
      forall j, x: nat | 0 <= j < i && x < w && Owns(order[j], x, w, log) ensures ColumnUpTo(out[..], im, y0, x, w, h) {
        if !Owns(order[i], x, w, log) {
          SameBack(out[..], a, x, w, h);
          ColumnStays(a, out[..], x, w, h, im, y0);
        }
      }
      i := i + 1;
    }
    forall x: nat | x < w ensures ColumnUpTo(out[..], im, y0, x, w, h) {
      var core := OwnerExists(x, w, log);
      assert core in order;
    }
  }

  lemma SameBack(a: seq<Word32>, b: seq<Word32>, x: nat, w: nat, h: nat)
    requires SameColumn(a, b, x, w, h)
    ensures SameColumn(b, a, x, w, h)
  {
  }

  // Between the barriers: each core saves the last sums of its columns for the next tile.
  method SavePhase(out: array<Word32>, buff: array<Word32>, w: nat, h: nat, order: seq<nat>, log: nat,
                   ghost im: Image, ghost y0: nat)
    requires w <= buff.Length && h > 0 && Schedule(order, log) && out.Length == h * w && out != buff
    requires forall x: nat :: x < w ==> ColumnUpTo(out[..], im, y0, x, w, h)
    modifies buff
    ensures forall x :: 0 <= x < w ==> buff[x] == Wrap(im.Column(x, 0, y0 + h))
  {
    hide Index, Image.Column, Wrap, ColumnUpTo, Pow2, First, Last;
    var i := 0;
    while i < |order|
      invariant 0 <= i <= |order|
      invariant forall j, x: nat :: 0 <= j < i && x < w && Owns(order[j], x, w, log) ==>
        buff[x] == Wrap(im.Column(x, 0, y0 + h))
    {
      var first, last := First(order[i], w, log), Last(order[i], w, log);
      var col := first;
      while col < last
        invariant first <= col && (col <= last || first > last)
        invariant forall x: nat :: first <= x < col && x < last ==> buff[x] == Wrap(im.Column(x, 0, y0 + h))
        invariant forall j, x: nat :: 0 <= j < i && x < w && Owns(order[j], x, w, log) ==>
          buff[x] == Wrap(im.Column(x, 0, y0 + h))
      {
        LastInColumn(out[..], im, y0, col, w, h - 1);
        buff[col] := out[Index(h - 1, col, w)];
        col := col + 1;
      }
      i := i + 1;
    }
    forall x: nat | x < w ensures buff[x] == Wrap(im.Column(x, 0, y0 + h)) {
      var core := OwnerExists(x, w, log);
      assert core in order;
    }
  }

  // Line y: sums over columns still, or sums over the image up to column n.
  ghost predicate LineUpTo(out: seq<Word32>, im: Image, y0: nat, y: nat, w: nat, n: nat) {
    forall x: nat :: x < n ==> Index(y, x, w) < |out| && out[Index(y, x, w)] == Wrap(im.Sum(0, y0 + y + 1, 0, x + 1))
  }

  ghost predicate LineFrom(out: seq<Word32>, im: Image, y0: nat, y: nat, w: nat, n: nat) {
    forall x: nat :: n <= x < w ==> Index(y, x, w) < |out| && out[Index(y, x, w)] == Wrap(im.Column(x, 0, y0 + y + 1))
  }

  lemma FirstInLine(out: seq<Word32>, im: Image, y0: nat, y: nat, w: nat)
    requires w > 0 && LineFrom(out, im, y0, y, w, 0)
    ensures LineUpTo(out, im, y0, y, w, 1) && LineFrom(out, im, y0, y, w, 1)
  {
    hide Index, Wrap, Image.Column;
    assert im.Sum(0, y0 + y + 1, 0, 0) == 0;
    assert im.Sum(0, y0 + y + 1, 0, 1) == im.Column(0, 0, y0 + y + 1);
  }

  lemma NextInLine(out: seq<Word32>, im: Image, y0: nat, y: nat, w: nat, h: nat, n: nat)
    requires 0 < n < w && y < h && |out| == h * w && LineUpTo(out, im, y0, y, w, n) && LineFrom(out, im, y0, y, w, n)
    ensures Index(y, n - 1, w) < |out| && Index(y, n, w) < |out|
    ensures var v := Add(out[Index(y, n - 1, w)], out[Index(y, n, w)]);
            LineUpTo(out[Index(y, n, w) := v], im, y0, y, w, n + 1)
              && LineFrom(out[Index(y, n, w) := v], im, y0, y, w, n + 1)
  {
    hide Index, Wrap;
    var b := y0 + y + 1;
    assert out[Index(y, n - 1, w)] == Wrap(im.Sum(0, b, 0, n)) && out[Index(y, n, w)] == Wrap(im.Column(n, 0, b));
    var v := Add(out[Index(y, n - 1, w)], out[Index(y, n, w)]);
    WrapAdd(im.Sum(0, b, 0, n), Wrap(im.Column(n, 0, b)));
    WrapAdd(im.Sum(0, b, 0, n), im.Column(n, 0, b));
    assert v == Wrap(im.Sum(0, b, 0, n + 1));
    Store(out, out, y, n, w, h, v);
  }

  method SumLine(out: array<Word32>, w: nat, h: nat, line: nat, ghost im: Image, ghost y0: nat)
    requires w > 0 && line < h && out.Length == h * w && LineFrom(out[..], im, y0, line, w, 0)
    modifies out
    ensures LineUpTo(out[..], im, y0, line, w, w)
    ensures SameOtherLines(out[..], old(out[..]), line, w, h)
  {
    hide Index, Wrap, LineUpTo, LineFrom, SameOtherLines;
    ghost var before := out[..];
    AllSame(before, 0, w, h);
    AllLinesSame(before, line, w, h);
    FirstInLine(before, im, y0, line, w);
    var col := 0;
    while col < w - 1
      invariant 0 <= col <= w - 1
      invariant LineUpTo(out[..], im, y0, line, w, col + 1) && LineFrom(out[..], im, y0, line, w, col + 1)
      invariant SameOtherLines(out[..], before, line, w, h)
    {
      NextInLine(out[..], im, y0, line, w, h, col + 1);
      Store(out[..], before, line, col + 1, w, h, Add(out[Index(line, col, w)], out[Index(line, col + 1, w)]));
      out[Index(line, col + 1, w)] := Add(out[Index(line, col, w)], out[Index(line, col + 1, w)]);
      col := col + 1;
    }
  }

  lemma AllLinesSame(a: seq<Word32>, line: nat, w: nat, h: nat)
    requires |a| == h * w
    ensures SameOtherLines(a, a, line, w, h)
  {
    hide Index;
    forall y: nat, x: nat | y < h && x < w ensures Index(y, x, w) < |a| {
      IndexInside(y, x, w, h);
    }
  }

  lemma OtherLine(a: seq<Word32>, b: seq<Word32>, line: nat, y: nat, w: nat, h: nat, im: Image, y0: nat)
    requires SameOtherLines(b, a, line, w, h) && y != line && y < h
    ensures LineUpTo(a, im, y0, y, w, w) ==> LineUpTo(b, im, y0, y, w, w)
    ensures LineFrom(a, im, y0, y, w, 0) ==> LineFrom(b, im, y0, y, w, 0)
  {
    hide Index, Wrap, Image.Column, Image.Sum;
  }

  // What one core does behind the second barrier, and all of them
  method SumLines(out: array<Word32>, w: nat, h: nat, core: nat, log: nat, ghost im: Image, ghost y0: nat)
    requires w > 0 && h > 0 && out.Length == h * w
    requires forall y: nat :: y < h && Owns(core, y, h, log) ==> LineFrom(out[..], im, y0, y, w, 0)
    modifies out
    ensures forall y: nat :: y < h && Owns(core, y, h, log) ==> LineUpTo(out[..], im, y0, y, w, w)
    ensures forall y: nat :: y < h && !Owns(core, y, h, log) && old(LineUpTo(out[..], im, y0, y, w, w)) ==>
      LineUpTo(out[..], im, y0, y, w, w)
    ensures forall y: nat :: y < h && !Owns(core, y, h, log) && old(LineFrom(out[..], im, y0, y, w, 0)) ==>
      LineFrom(out[..], im, y0, y, w, 0)
  {
    hide Index, Wrap, LineUpTo, LineFrom, SameOtherLines, First, Last, Image.Column, Image.Sum;
    ghost var before := out[..];
    var first, last := First(core, h, log), Last(core, h, log);
    var line := first;
    while line < last
      invariant first <= line && (line <= last || first > last)
      invariant forall y: nat :: first <= y < line && y < last ==> LineUpTo(out[..], im, y0, y, w, w)
      invariant forall y: nat :: line <= y < last ==> LineFrom(out[..], im, y0, y, w, 0)
      invariant forall y: nat :: y < h && !(first <= y < last) && LineUpTo(before, im, y0, y, w, w) ==>
        LineUpTo(out[..], im, y0, y, w, w)
      invariant forall y: nat :: y < h && !(first <= y < last) && LineFrom(before, im, y0, y, w, 0) ==>
        LineFrom(out[..], im, y0, y, w, 0)
    {
      ghost var a := out[..];
      SumLine(out, w, h, line, im, y0);
      forall y: nat | y < h && y != line
        ensures LineUpTo(a, im, y0, y, w, w) ==> LineUpTo(out[..], im, y0, y, w, w)
        ensures LineFrom(a, im, y0, y, w, 0) ==> LineFrom(out[..], im, y0, y, w, 0)
      {
        OtherLine(a, out[..], line, y, w, h, im, y0);
      }
      line := line + 1;
    }
  }

  method LinePhase(out: array<Word32>, w: nat, h: nat, order: seq<nat>, log: nat, ghost im: Image, ghost y0: nat)
    requires w > 0 && h > 0 && out.Length == h * w && Schedule(order, log)
    requires forall y: nat :: y < h ==> LineFrom(out[..], im, y0, y, w, 0)
    modifies out
    ensures forall y: nat :: y < h ==> LineUpTo(out[..], im, y0, y, w, w)
  {
    hide Index, Wrap, LineUpTo, LineFrom, Owns, Pow2, Image.Column, Image.Sum;
    var i := 0;
    while i < |order|
      invariant 0 <= i <= |order|
      invariant forall j, y: nat :: 0 <= j < i && y < h && Owns(order[j], y, h, log) ==>
        LineUpTo(out[..], im, y0, y, w, w)
      invariant forall j, y: nat :: i <= j < |order| && y < h && Owns(order[j], y, h, log) ==>
        LineFrom(out[..], im, y0, y, w, 0)
    {
      forall j, y: nat | 0 <= j < |order| && j != i && Owns(order[j], y, h, log) ensures !Owns(order[i], y, h, log) {
        if Owns(order[i], y, h, log) {
          OwnerIsUnique(order[i], order[j], y, h, log);
        }
      }
      SumLines(out, w, h, order[i], log, im, y0);
      i := i + 1;
    }
    forall y: nat | y < h ensures LineUpTo(out[..], im, y0, y, w, w) {
      var core := OwnerExists(y, h, log);
      assert core in order;
    }
  }

  // KerIntegralImagePrime: before the first tile nothing has been summed.
  method PrimePhase(buff: array<Word32>, w: nat, order: seq<nat>, log: nat, ghost im: Image)
    requires w <= buff.Length && Schedule(order, log)
    modifies buff
    ensures forall x :: 0 <= x < w ==> buff[x] == Wrap(im.Column(x, 0, 0))
  {
    hide Pow2, First, Last;
    var i := 0;
    while i < |order|
      invariant 0 <= i <= |order|
      invariant forall j, x: nat :: 0 <= j < i && x < w && Owns(order[j], x, w, log) ==> buff[x] == 0
    {
      var first, last := First(order[i], w, log), Last(order[i], w, log);
      var col := first;
      while col < last
        invariant first <= col && (col <= last || first > last)
        invariant forall x: nat :: first <= x < col && x < last ==> buff[x] == 0
        invariant forall j, x: nat :: 0 <= j < i && x < w && Owns(order[j], x, w, log) ==> buff[x] == 0
      {
        buff[col] := 0;
        col := col + 1;
      }
      i := i + 1;
    }
    forall x: nat | x < w ensures buff[x] == Wrap(im.Column(x, 0, 0)) {
      var core := OwnerExists(x, w, log);
      assert core in order;
    }
  }

  lemma ColumnsToLines(out: seq<Word32>, im: Image, y0: nat, w: nat, h: nat)
    requires forall x: nat :: x < w ==> ColumnUpTo(out, im, y0, x, w, h)
    ensures forall y: nat :: y < h ==> LineFrom(out, im, y0, y, w, 0)
  {
    hide Index, Wrap, Image.Column;
    forall y: nat, x: nat | y < h && x < w
      ensures Index(y, x, w) < |out| && out[Index(y, x, w)] == Wrap(im.Column(x, 0, y0 + y + 1))
    {
      assert ColumnUpTo(out, im, y0, x, w, h);
    }
  }

  // One tile, the phases between barriers each in an order of its own
  method ProcessTile(input: array<U8>, out: array<Word32>, buff: array<Word32>, w: nat, h: nat,
                     orders: nat -> seq<nat>, log: nat, ghost im: Image, ghost y0: nat, squared: bool)
    requires 0 < w <= buff.Length && h > 0 && squared == im.squared && forall phase: nat :: Schedule(orders(phase), log)
    requires input.Length == out.Length == h * w && out != buff && IsTile(input[..], im, y0, w, h)
    requires forall x :: 0 <= x < w ==> buff[x] == Wrap(im.Column(x, 0, y0))
    modifies out, buff
    ensures forall x :: 0 <= x < w ==> buff[x] == Wrap(im.Column(x, 0, y0 + h))
    ensures forall y: nat :: y < h ==> LineUpTo(out[..], im, y0, y, w, w)
  {
    hide Index, Wrap, Image.Column, Image.Sum, ColumnUpTo, LineUpTo, LineFrom, Schedule, IsTile;
    SumPhase(input, out, buff, w, h, orders(0), log, im, y0, squared);
    SavePhase(out, buff, w, h, orders(1), log, im, y0);
    ColumnsToLines(out[..], im, y0, w, h);
    LinePhase(out, w, h, orders(2), log, im, y0);
  }

  // The image so far: lines up to n of the whole
  ghost predicate LinesDone(full: seq<Word32>, im: Image, w: nat, n: nat) {
    forall y: nat, x: nat :: y < n && x < w ==>
      Index(y, x, w) < |full| && full[Index(y, x, w)] == Wrap(im.Sum(0, y + 1, 0, x + 1))
  }

  function Height(heights: seq<nat>): nat {
    if heights == [] then 0 else Height(heights[..|heights| - 1]) + heights[|heights| - 1]
  }

  lemma HeightPrefix(heights: seq<nat>, t: nat)
    requires t < |heights|
    ensures Height(heights[..t + 1]) == Height(heights[..t]) + heights[t]
    ensures Height(heights[..t + 1]) <= Height(heights)
    decreases |heights| - t
  {
    assert heights[..t + 1][..t] == heights[..t];
    if t + 1 < |heights| {
      HeightPrefix(heights, t + 1);
    } else {
      assert heights[..t + 1] == heights;
    }
  }

  lemma IndexParts(i: nat, w: nat)
    requires w > 0
    ensures Index(i / w, i % w, w) == i
  {
  }

  lemma PartsOfIndex(y: nat, x: nat, w: nat)
    requires x < w
    ensures Index(y, x, w) / w == y && Index(y, x, w) % w == x
  {
    var i := Index(y, x, w);
    IndexParts(i, w);
    IndexInjective(y, x, i / w, i % w, w);
  }

  lemma IndexBelow(y0: nat, y: nat, x: nat, w: nat)
    ensures Index(y0 + y, x, w) == y0 * w + Index(y, x, w)
  {
  }

  // What the transfer into the cluster brings
  method LoadTile(im: Image, y0: nat, w: nat, h: nat) returns (input: array<U8>)
    requires w > 0
    ensures fresh(input) && input.Length == h * w && IsTile(input[..], im, y0, w, h)
  {
    hide Index;
    input := new U8[h * w](i => if i < 0 then 0 else im.pixel(y0 + i / w, i % w));
    forall y: nat, x: nat | y < h && x < w
      ensures Index(y, x, w) < input.Length && input[Index(y, x, w)] == im.pixel(y0 + y, x)
    {
      IndexInside(y, x, w, h);
      PartsOfIndex(y, x, w);
    }
  }

  // And what the transfer back takes
  method StoreTile(full: array<Word32>, out: array<Word32>, y0: nat, w: nat, h: nat, ghost im: Image)
    requires w > 0 && out.Length == h * w && y0 * w + h * w <= full.Length && full != out
    requires LinesDone(full[..], im, w, y0) && forall y: nat :: y < h ==> LineUpTo(out[..], im, y0, y, w, w)
    modifies full
    ensures LinesDone(full[..], im, w, y0 + h)
  {
    hide Index, Wrap, Image.Sum;
    ghost var before, tile := full[..], out[..];
    forall i | 0 <= i < h * w {
      full[y0 * w + i] := out[i];
    }
    assert out[..] == tile;
    forall y: nat, x: nat | y < y0 + h && x < w
      ensures Index(y, x, w) < full.Length && full[Index(y, x, w)] == Wrap(im.Sum(0, y + 1, 0, x + 1))
    {
      if y < y0 {
        IndexInside(y, x, w, y0);
        assert before[Index(y, x, w)] == Wrap(im.Sum(0, y + 1, 0, x + 1));
      } else {
        IndexBelow(y0, y - y0, x, w);
        IndexInside(y - y0, x, w, h);
        var line: nat := y - y0;
        assert line < h && LineUpTo(tile, im, y0, line, w, w);
        InLine(tile, im, y0, y, w, x);
      }
    }
  }

  lemma InLine(out: seq<Word32>, im: Image, y0: nat, y: nat, w: nat, x: nat)
    requires y0 <= y && x < w && LineUpTo(out, im, y0, y - y0, w, w)
    ensures Index(y - y0, x, w) < |out| && out[Index(y - y0, x, w)] == Wrap(im.Sum(0, y + 1, 0, x + 1))
  {
    hide Index, Wrap, Image.Sum;
    assert y0 + (y - y0) + 1 == y + 1;
  }

  // A whole image in tiles of any heights, on any number 2^log of cores, in any orders
  method Process(im: Image, full: array<Word32>, w: nat, heights: seq<nat>, orders: (nat, nat) -> seq<nat>, log: nat)
    requires w > 0 && full.Length == Height(heights) * w && forall h :: h in heights ==> h > 0
    requires forall tile: nat, phase: nat :: Schedule(orders(tile, phase), log)
    modifies full
    ensures LinesDone(full[..], im, w, Height(heights))
  {
    hide Index, Wrap, Image.Column, Image.Sum, LinesDone, LineUpTo, Schedule, IsTile, Height;
    var buff := new Word32[w];
    PrimePhase(buff, w, orders(0, 3), log, im);
    NoLines(full[..], im, w, heights);
    var t := 0;
    var y0 := 0;
    while t < |heights|
      invariant 0 <= t <= |heights| && y0 == Height(heights[..t])
      invariant fresh(buff) && forall x :: 0 <= x < w ==> buff[x] == Wrap(im.Column(x, 0, y0))
      invariant LinesDone(full[..], im, w, y0)
    {
      var h := heights[t];
      assert h in heights;
      HeightPrefix(heights, t);
      TileFits(y0, h, Height(heights), w);
      var input := LoadTile(im, y0, w, h);
      var out := new Word32[h * w];
      ProcessTile(input, out, buff, w, h, phase => if phase < 0 then [] else orders(t, phase), log, im, y0, im.squared);
      StoreTile(full, out, y0, w, h, im);
      y0 := y0 + h;
      t := t + 1;
    }
    assert heights[..t] == heights;
  }

  lemma NoLines(full: seq<Word32>, im: Image, w: nat, heights: seq<nat>)
    ensures LinesDone(full, im, w, 0) && Height(heights[..0]) == 0
  {
  }

  lemma TileFits(y0: nat, h: nat, height: nat, w: nat)
    requires y0 + h <= height
    ensures y0 * w + h * w <= height * w
  {
    MulMonotone(y0 + h, height, w);
    assert (y0 + h) * w == y0 * w + h * w;
  }

  lemma {:induction false} ColumnSplit(im: Image, x: nat, y0: nat, y1: nat)
    requires y0 <= y1
    ensures im.Column(x, 0, y1) == im.Column(x, 0, y0) + im.Column(x, y0, y1)
    decreases y1
  {
    hide Image.Value;
    if y0 < y1 {
      ColumnSplit(im, x, y0, y1 - 1);
    }
  }

  lemma {:induction false} SumAbove(im: Image, y0: nat, y1: nat, x: nat)
    requires y0 <= y1
    ensures im.Sum(0, y1, 0, x) == im.Sum(0, y0, 0, x) + im.Sum(y0, y1, 0, x)
    decreases x
  {
    hide Image.Column;
    if x > 0 {
      SumAbove(im, y0, y1, x - 1);
      ColumnSplit(im, x - 1, y0, y1);
    }
  }

  lemma {:induction false} SumLeft(im: Image, y0: nat, y1: nat, x0: nat, x1: nat)
    requires x0 <= x1
    ensures im.Sum(y0, y1, 0, x1) == im.Sum(y0, y1, 0, x0) + im.Sum(y0, y1, x0, x1)
    decreases x1
  {
    hide Image.Column;
    if x0 < x1 {
      SumLeft(im, y0, y1, x0, x1 - 1);
    }
  }

  // The sum over a rectangle from the four sums at its corners
  lemma FourCorners(im: Image, y0: nat, y1: nat, x0: nat, x1: nat)
    requires y0 <= y1 && x0 <= x1
    ensures im.Sum(0, y1, 0, x1) + im.Sum(0, y0, 0, x0) - im.Sum(0, y0, 0, x1) - im.Sum(0, y1, 0, x0) == im.Sum(y0,
      y1, x0, x1)
  {
    hide Image.Sum;
    SumAbove(im, y0, y1, x1);
    SumAbove(im, y0, y1, x0);
    SumLeft(im, y0, y1, x0, x1);
  }

  // and over one pixel it is that pixel, or its square. Together they determine all the sums.
  lemma OnePixel(im: Image, y: nat, x: nat)
    ensures var p: nat := im.pixel(y, x); im.Sum(y, y + 1, x, x + 1) == if im.squared then p * p else p
  {
    assert im.Column(x, y, y) == 0 && im.Sum(y, y + 1, x, x) == 0;
  }

  // The conversion of an unsigned int to an int
  function ToInt(u: Word32): int { if u < UINT32 / 2 then u else u - UINT32 }

  function Subtract(a: int, b: int): Word32 { Wrap(a - b) }

  // integral_image_lookup: whatever wrapped on the way, a sum that an int can hold comes out exact.
  method Lookup(integral: array<Word32>, x: nat, y: nat, w: nat, h: nat, winW: nat, ghost im: Image, ghost height: nat)
    returns (res: int)
    requires y + h < height && x + w < winW && LinesDone(integral[..], im, winW, height)
    ensures res == ToInt(Wrap(im.Sum(y + 1, y + h + 1, x + 1, x + w + 1)))
    ensures im.Sum(y + 1, y + h + 1, x + 1, x + w + 1) < UINT32 / 2 ==>
      res == im.Sum(y + 1, y + h + 1, x + 1, x + w + 1)
  {
    hide Index, Wrap, Image.Sum;
    Corner(integral[..], im, winW, height, y + h, x + w);
    Corner(integral[..], im, winW, height, y, x);
    Corner(integral[..], im, winW, height, y, x + w);
    Corner(integral[..], im, winW, height, y + h, x);
    var low, high := integral[Index(y + h, x + w, winW)], integral[Index(y, x, winW)];
    var u := Subtract(Subtract(Add(low, high), integral[Index(y, x + w, winW)]), integral[Index(y + h, x, winW)]);
    ghost var a, d := im.Sum(0, y + h + 1, 0, x + w + 1), im.Sum(0, y + 1, 0, x + 1);
    ghost var b, c := im.Sum(0, y + 1, 0, x + w + 1), im.Sum(0, y + h + 1, 0, x + 1);
    FourTerms(a, d, b, c);
    FourCorners(im, y + 1, y + h + 1, x + 1, x + w + 1);
    res := ToInt(u);
    SmallIsExact(im.Sum(y + 1, y + h + 1, x + 1, x + w + 1));
  }

  lemma Corner(integral: seq<Word32>, im: Image, w: nat, height: nat, y: nat, x: nat)
    requires y < height && x < w && LinesDone(integral, im, w, height)
    ensures Index(y, x, w) < |integral| && integral[Index(y, x, w)] == Wrap(im.Sum(0, y + 1, 0, x + 1))
  {
  }

  lemma FourTerms(a: int, d: int, b: int, c: int)
    ensures Subtract(Subtract(Add(Wrap(a), Wrap(d)), Wrap(b)), Wrap(c)) == Wrap(a + d - b - c)
  {
    hide Wrap;
    WrapAdd(a, Wrap(d));
    WrapAdd(a, d);
    WrapSub(a + d, Wrap(b));
    WrapAdd(a + d, b);
    WrapSub(a + d - b, Wrap(c));
    WrapAdd(a + d - b, c);
  }

  lemma WrapSub(a: int, b: int)
    ensures Wrap(Wrap(a) - b) == Wrap(a - b)
  {
    WrapShift(a - b, -(a / UINT32));
    assert Wrap(a) == a - (a / UINT32) * UINT32;
  }

  lemma SmallIsExact(n: nat)
    ensures n < UINT32 / 2 ==> ToInt(Wrap(n)) == n
  {
  }
}
