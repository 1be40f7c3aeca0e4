// non_max_suppress of faceDet.c: of detections that overlap too much only the better ones stay.

module NonMax {

  const NON_MAX_THRES := 250
  const INT32 := 0x8000_0000

  // cascade_response_t; a removed one has x and y set to -1.
  datatype Response = Response(x: int, y: int, w: int, h: int, score: int) {
    predicate Removed() { x == -1 }
    function Remove(): Response { this.(x := -1, y := -1) }
  }

  // The conversion of an argument to unsigned short
  function UShort(v: int): nat { v % 0x1_0000 }

  function Min(a: int, b: int): int { if a < b then a else b }
  function Max(a: int, b: int): int { if a > b then a else b }

  function Overlap(a: int, aSize: int, b: int, bSize: int): int { Min(a + aSize, b + bSize) - Max(a, b) }

  // What the two boxes share
  function Area(a: Response, b: Response): nat {
    var x, y := Overlap(a.x, a.w, b.x, b.w), Overlap(a.y, a.h, b.y, b.h);
    if x > 0 && y > 0 then Times(x, y) else 0
  }

  function Times(x: nat, y: nat): nat { x * y }

  // A detection as the classifier makes it
  predicate Box(r: Response) {
    0 <= r.x && 0 <= r.w && r.x + r.w < 0x1_0000 && 0 <= r.y < 0x1_0000 && 0 <= r.h < 0x1_0000
  }

  // size_x * size_y does not overflow an int.
  predicate ProductFits(a: Response, b: Response) {
    var x, y := Overlap(a.x, a.w, b.x, b.w), Overlap(a.y, a.h, b.y, b.h);
    x > 0 ==> -INT32 <= x * y < INT32
  }

  // The product of two ints, on a machine where it wraps around
  function Product(x: int, y: int): (p: int)
    ensures -INT32 <= p < INT32
  {
    Wrap(x * y)
  }

  function Wrap(v: int): (p: int)
    ensures -INT32 <= p < INT32
  {
    (v + INT32) % (2 * INT32) - INT32
  }

  // rect_intersect_area. It tests size_x twice and size_y never.
  function Intersect(a: Response, b: Response): int {
    var x := Overlap(UShort(a.x), UShort(a.w), UShort(b.x), UShort(b.w));
    var y := Overlap(UShort(a.y), UShort(a.h), UShort(b.y), UShort(b.h));
    if x <= 0 || x <= 0 then 0 else Product(x, y)
  }

  // It finds the boxes that share enough, if and only if the product does not overflow. The repeated
  // test does no harm then: a negative height is below the threshold, too. But two wide boxes far apart
  // overflow to a large area, and two big ones that nearly coincide to a negative one.
  lemma IntersectFindsOverlapIff(a: Response, b: Response)
    requires Box(a) && Box(b)
    ensures (Intersect(a, b) >= NON_MAX_THRES <==> Area(a, b) >= NON_MAX_THRES) <==> ProductFits(a, b)
  {
    Unconverted(a);
    Unconverted(b);
    hide UShort, Wrap;
    var x, y := Overlap(a.x, a.w, b.x, b.w), Overlap(a.y, a.h, b.y, b.h);
    hide Overlap;
    if x > 0 {
      ProductBounds(x, y);
      WrapInside(x * y);
    }
  }

  lemma ProductBounds(x: int, y: int)
    requires 0 < x < 0x1_0000 && -0x1_0000 < y < 0x1_0000
    ensures -2 * INT32 + NON_MAX_THRES <= x * y < 2 * INT32 && (x * y > 0 <==> y > 0)
  {
    assert x * y <= 0xFFFF * 0xFFFF && x * y >= -0xFFFF * 0xFFFF by {
      if y > 0 {
        assert x * y <= 0xFFFF * y <= 0xFFFF * 0xFFFF;
      } else {
        assert x * -y <= 0xFFFF * -y <= 0xFFFF * 0xFFFF;
      }
    }
  }

  lemma WrapInside(v: int)
    requires -2 * INT32 <= v < 2 * INT32
    ensures Wrap(v) == if v >= INT32 then v - 2 * INT32 else if v < -INT32 then v + 2 * INT32 else v
  {
  }

  // Either side of it is met with.
  const WIDE_LOW := Response(0, 0, 65535, 10, 1)
  const WIDE_HIGH := Response(0, 65535, 65535, 10, 2)
  const BIG := Response(0, 0, 65535, 65535, 1)

  lemma OverflowMisleads()
    ensures Box(WIDE_LOW) && Box(WIDE_HIGH) && Box(BIG)
    ensures Area(WIDE_LOW, WIDE_HIGH) == 0 && Intersect(WIDE_LOW, WIDE_HIGH) >= NON_MAX_THRES
    ensures Area(BIG, BIG) == 4294836225 && Intersect(BIG, BIG) < NON_MAX_THRES
  {
    hide Intersect, ProductFits, UShort, Times;
    WideOverlap();
    BigOverlap();
    hide Overlap;
    Overflows(WIDE_LOW, WIDE_HIGH, -65525);
    Overflows(BIG, BIG, 65535);
    TimesIs(65535, 65535);
    IntersectFindsOverlapIff(WIDE_LOW, WIDE_HIGH);
    IntersectFindsOverlapIff(BIG, BIG);
  }

  lemma WideOverlap()
    ensures Overlap(WIDE_LOW.x, WIDE_LOW.w, WIDE_HIGH.x, WIDE_HIGH.w) == 65535
    ensures Overlap(WIDE_LOW.y, WIDE_LOW.h, WIDE_HIGH.y, WIDE_HIGH.h) == -65525
  {
  }

  lemma BigOverlap()
    ensures Overlap(BIG.x, BIG.w, BIG.x, BIG.w) == 65535 && Overlap(BIG.y, BIG.h, BIG.y, BIG.h) == 65535
  {
  }

  lemma TimesIs(x: nat, y: nat)
    ensures Times(x, y) == x * y
  {
  }

  lemma Overflows(a: Response, b: Response, y: int)
    requires Overlap(a.x, a.w, b.x, b.w) == 65535 && Overlap(a.y, a.h, b.y, b.h) == y && (y > 60000 || y < -60000)
    ensures !ProductFits(a, b)
  {
    hide Overlap;
    assert Overlap(a.x, a.w, b.x, b.w) * Overlap(a.y, a.h, b.y, b.h) == 65535 * y;
  }

  lemma Unconverted(r: Response)
    requires Box(r)
    ensures UShort(r.x) == r.x && UShort(r.y) == r.y && UShort(r.w) == r.w && UShort(r.h) == r.h
  {
  }

  // A removed box, converted, lies right of every other and meets none.
  lemma RemovedMeetsNone(a: Response, b: Response)
    requires a.x == -1 && Box(b)
    ensures Intersect(a, b) == 0
  {
  }

  // What the routine takes for an overlap
  predicate Overlapping(a: Response, b: Response) { Intersect(a, b) >= NON_MAX_THRES }

  predicate AllBoxes(o: seq<Response>) { forall i :: 0 <= i < |o| ==> Box(o[i]) }

  // Every entry is as it was or removed.
  predicate OnlyRemoves(o: seq<Response>, f: seq<Response>) {
    |f| == |o| && forall i :: 0 <= i < |o| ==> f[i] == o[i] || f[i] == o[i].Remove()
  }

  // Which of two overlapping entries is kept: the better one, or, of equal ones, the first.
  predicate Beats(o: seq<Response>, j: int, i: int)
    requires 0 <= i < |o| && 0 <= j < |o|
  {
    o[j].score > o[i].score || (o[j].score == o[i].score && j < i)
  }

  // It was for a reason: one that overlapped it beats it.
  predicate Justified(o: seq<Response>, f: seq<Response>)
    requires |f| == |o|
  {
    forall i :: 0 <= i < |o| && f[i].Removed() ==>
      exists j :: 0 <= j < |o| && j != i && Overlapping(o[i], o[j]) && Beats(o, j, i)
  }

  predicate Separate(f: seq<Response>, i: int)
    requires 0 <= i < |f|
  {
    forall j :: 0 <= j < |f| && j != i && !f[i].Removed() && !f[j].Removed() ==> !Overlapping(f[i], f[j])
  }

  predicate SomeLeft(f: seq<Response>) { |f| > 0 ==> exists i :: 0 <= i < |f| && !f[i].Removed() }

  // What the routine leaves
  predicate Suppressed(o: seq<Response>, f: seq<Response>) {
    OnlyRemoves(o, f) && Justified(o, f) && (forall i :: 0 <= i < |f| ==> Separate(f, i)) && SomeLeft(f)
  }

  // One turn of the inner loop, for different i and j
  function Turn(f: seq<Response>, i: nat, j: nat): seq<Response>
    requires i < |f| && j < |f|
  {
    if f[j].Removed() || j == i || Intersect(f[i], f[j]) < NON_MAX_THRES then f
    else if f[j].score > f[i].score then f[i := f[i].Remove()]
    else f[j := f[j].Remove()]
  }

  lemma TurnRemoves(o: seq<Response>, f: seq<Response>, i: nat, j: nat)
    requires AllBoxes(o) && OnlyRemoves(o, f) && i < |f| && j < |f|
    ensures OnlyRemoves(o, Turn(f, i, j)) && OnlyRemoves(f, Turn(f, i, j))
    ensures Turn(f, i, j) != f ==> !f[i].Removed() && !f[j].Removed() && i != j && Overlapping(o[i], o[j])
    ensures var t := Turn(f, i, j); i == j || t[i].Removed() || t[j].Removed() || !Overlapping(t[i], t[j])
  {
    hide Intersect;
    assert Box(o[i]) && Box(o[j]);
    if f[i].Removed() {
      RemovedMeetsNone(f[i], o[j]);
    }
  }

  lemma OverlapsBothWays(a: Response, b: Response)
    ensures Overlapping(a, b) == Overlapping(b, a)
  {
    hide UShort, Product;
  }

  lemma TurnKeeps(o: seq<Response>, f: seq<Response>, i: nat, j: nat)
    requires AllBoxes(o) && OnlyRemoves(o, f) && Justified(o, f) && SomeLeft(f) && i < |f| && j < |f|
    requires j < i ==> Separate(f, j)
    ensures Justified(o, Turn(f, i, j)) && SomeLeft(Turn(f, i, j))
  {
    hide Intersect, Overlapping, AllBoxes;
    var t := Turn(f, i, j);
    TurnRemoves(o, f, i, j);
    if t != f {
      OverlapsBothWays(o[i], o[j]);
      assert f[i] == o[i] && f[j] == o[j];
      assert i < j;
      assert !t[i].Removed() || !t[j].Removed();
    }
  }

  // Removing boxes keeps those that are left apart.
  lemma SeparateStays(f: seq<Response>, t: seq<Response>, i: nat)
    requires OnlyRemoves(f, t) && i < |f| && Separate(f, i)
    ensures Separate(t, i)
  {
    hide Overlapping;
  }

  predicate Apart(f: seq<Response>, i: nat, j: nat)
    requires i < |f| && j < |f|
  {
    i == j || f[i].Removed() || f[j].Removed() || !Overlapping(f[i], f[j])
  }

  method NonMaxSuppress(responses: array<Response>, n: nat)
    requires n <= responses.Length && AllBoxes(responses[..n])
    modifies responses
    ensures Suppressed(old(responses[..n]), responses[..n])
    ensures forall i :: 0 <= i < n ==>
      var was := old(responses[i]);
      responses[i] == was || responses[i] == Response(-1, -1, was.w, was.h, was.score)
    ensures responses[n..] == old(responses[n..])
  {
    hide AllBoxes, OnlyRemoves, Justified, Separate, SomeLeft;
    ghost var o := responses[..n];
    NothingRemoved(o);
    var idx := 0;
    while idx < n
      invariant 0 <= idx <= n
      invariant OnlyRemoves(o, responses[..n]) && Justified(o, responses[..n]) && SomeLeft(responses[..n])
      invariant forall i :: 0 <= i < idx ==> Separate(responses[..n], i)
      invariant responses[n..] == old(responses[n..])
    {
      ghost var f := responses[..n];
      if responses[idx].x != -1 {
        SuppressAround(responses, n, idx, o);
        forall i | 0 <= i < idx ensures Separate(responses[..n], i) {
          SeparateStays(f, responses[..n], i);
        }
      } else {
        RemovedIsSeparate(f, idx);
      }
      idx := idx + 1;
    }
    Marked(o, responses[..n]);
  }

  lemma Marked(o: seq<Response>, f: seq<Response>)
    requires OnlyRemoves(o, f)
    ensures |f| == |o|
    ensures forall i :: 0 <= i < |o| ==> f[i] == o[i] || f[i] == Response(-1, -1, o[i].w, o[i].h, o[i].score)
  {
  }

  lemma NothingRemoved(o: seq<Response>)
    requires AllBoxes(o)
    ensures OnlyRemoves(o, o) && Justified(o, o) && SomeLeft(o)
  {
    if |o| > 0 {
      assert Box(o[0]) && !o[0].Removed();
    }
  }

  lemma RemovedIsSeparate(f: seq<Response>, i: nat)
    requires i < |f| && f[i].Removed()
    ensures Separate(f, i)
  {
  }

  // The inner loop
  method SuppressAround(responses: array<Response>, n: nat, idx: nat, ghost o: seq<Response>)
    requires idx < n <= responses.Length && AllBoxes(o)
    requires OnlyRemoves(o, responses[..n]) && Justified(o, responses[..n]) && SomeLeft(responses[..n])
    requires forall i :: 0 <= i < idx ==> Separate(responses[..n], i)
    modifies responses
    ensures OnlyRemoves(o, responses[..n]) && Justified(o, responses[..n]) && SomeLeft(responses[..n])
    ensures OnlyRemoves(old(responses[..n]), responses[..n]) && Separate(responses[..n], idx)
    ensures responses[n..] == old(responses[n..])
  {
    hide AllBoxes, OnlyRemoves, Justified, SomeLeft, Apart, Intersect;
    ghost var before := responses[..n];
    RemovesNothing(before);
    SameLength(o, before);
    var other := 0;
    while other < n
      invariant 0 <= other <= n && |o| == n
      invariant OnlyRemoves(o, responses[..n]) && Justified(o, responses[..n]) && SomeLeft(responses[..n])
      invariant OnlyRemoves(before, responses[..n])
      invariant forall i :: 0 <= i < idx ==> Separate(responses[..n], i)
      invariant forall j :: 0 <= j < other ==> Apart(responses[..n], idx, j)
      invariant responses[n..] == old(responses[n..])
    {
      ghost var f := responses[..n];
      TurnRemoves(o, f, idx, other);
      TurnKeeps(o, f, idx, other);
      if responses[other].x != -1 && other != idx {
        var intersection := Intersect(responses[idx], responses[other]);
        if intersection >= NON_MAX_THRES {
          if responses[other].score > responses[idx].score {
            responses[idx] := responses[idx].Remove();
          } else {
            responses[other] := responses[other].Remove();
          }
        }
      }
      assert responses[..n] == Turn(f, idx, other);
      forall i | 0 <= i < idx ensures Separate(responses[..n], i) {
        SeparateStays(f, responses[..n], i);
      }
      AfterTurn(before, f, idx, other);
      other := other + 1;
    }
    AllApart(responses[..n], idx);
  }

  lemma SameLength(o: seq<Response>, f: seq<Response>)
    requires OnlyRemoves(o, f)
    ensures |o| == |f|
  {
  }

  lemma RemovesNothing(f: seq<Response>)
    ensures OnlyRemoves(f, f)
  {
  }

  lemma AfterTurn(before: seq<Response>, f: seq<Response>, i: nat, j: nat)
    requires OnlyRemoves(before, f) && i < |f| && j < |f| && OnlyRemoves(f, Turn(f, i, j))
    requires forall k :: 0 <= k < j ==> Apart(f, i, k)
    requires var t := Turn(f, i, j); i == j || t[i].Removed() || t[j].Removed() || !Overlapping(t[i], t[j])
    ensures OnlyRemoves(before, Turn(f, i, j))
    ensures forall k :: 0 <= k <= j ==> Apart(Turn(f, i, j), i, k)
  {
    hide Overlapping, Intersect;
    forall k | 0 <= k < j ensures Apart(Turn(f, i, j), i, k) {
      assert Apart(f, i, k);
    }
  }

  lemma AllApart(f: seq<Response>, i: nat)
    requires i < |f| && forall j :: 0 <= j < |f| ==> Apart(f, i, j)
    ensures Separate(f, i)
  {
    hide Overlapping;
    forall j | 0 <= j < |f| && j != i && !f[i].Removed() && !f[j].Removed() ensures !Overlapping(f[i], f[j]) {
      assert Apart(f, i, j);
    }
  }

  // What that says of the boxes: two that are left share less than the threshold.
  lemma SurvivorsShareLittle(o: seq<Response>, f: seq<Response>, i: nat, j: nat)
    requires AllBoxes(o) && Suppressed(o, f) && i < |o| && j < |o| && i != j
    requires !f[i].Removed() && !f[j].Removed() && ProductFits(o[i], o[j])
    ensures Area(o[i], o[j]) < NON_MAX_THRES
  {
    hide Intersect, Area, ProductFits;
    assert Separate(f, i);
    IntersectFindsOverlapIff(o[i], o[j]);
  }

  // A detection stays if it beats all that overlap it: they are worse, or equal and in a later place.
  lemma BestAroundStays(o: seq<Response>, f: seq<Response>, best: nat)
    requires AllBoxes(o) && Suppressed(o, f) && best < |o|
    requires forall j :: 0 <= j < |o| && j != best && Overlapping(o[best], o[j]) ==>
               o[j].score < o[best].score || (o[j].score == o[best].score && best < j)
    ensures f[best] == o[best]
  {
    hide Overlapping;
  }

  // A detection that overlaps no other stays.
  lemma LonelyStays(o: seq<Response>, f: seq<Response>, i: nat)
    requires AllBoxes(o) && Suppressed(o, f) && i < |o|
    requires forall j :: 0 <= j < |o| && j != i ==> !Overlapping(o[i], o[j])
    ensures f[i] == o[i]
  {
    hide Overlapping;
  }
}
