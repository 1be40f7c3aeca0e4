module Prelude {

  // A C value that may be NULL
  datatype Option<+T> = None | Some(value: T)

  // uint8_t, for code that only moves bytes
  type U8 = x: int | 0 <= x < 256

  // n items of an endless stream, or of memory
  function Slice<T>(stream: nat -> T, from: nat, n: nat): (s: seq<T>)
    ensures |s| == n && forall i :: 0 <= i < n ==> s[i] == stream(from + i)
  {
    seq(n, i requires 0 <= i < n => stream(from + i))
  }

  // Taking the first of a sequence apart, for proofs by induction
  lemma TailOfConcat<T>(a: seq<T>, b: seq<T>)
    requires a != []
    ensures (a + b)[0] == a[0] && (a + b)[1..] == a[1..] + b
  {
  }

  lemma ConcatAssociates<T>(a: seq<T>, b: seq<T>, c: seq<T>)
    ensures (a + b) + c == a + (b + c)
  {
  }

  function Pow2(k: nat): (p: nat)
    ensures p > 0
  {
    if k == 0 then 1 else 2 * Pow2(k - 1)
  }

  // A field of a packed struct: its width in bytes and how often it occurs
  datatype StructField = StructField(name: string, width: nat, count: nat)

  function Extent(f: StructField): nat { f.width * f.count }

  function SizeOf(fields: seq<StructField>): nat {
    if fields == [] then 0 else Extent(fields[0]) + SizeOf(fields[1..])
  }

  lemma NoFields()
    ensures SizeOf([]) == 0
  {
  }

  lemma SizeFrom(f: seq<StructField>, i: nat)
    requires i < |f|
    ensures SizeOf(f[i..]) == Extent(f[i]) + SizeOf(f[i + 1..])
  {
    assert f[i..][1..] == f[i + 1..];
  }

  lemma SizeOfThree(f: seq<StructField>, i: nat)
    requires i + 3 <= |f|
    ensures SizeOf(f[i..]) == Extent(f[i]) + Extent(f[i + 1]) + Extent(f[i + 2]) + SizeOf(f[i + 3..])
  {
    hide SizeOf, Extent;
    SizeFrom(f, i);
    SizeFrom(f, i + 1);
    SizeFrom(f, i + 2);
  }
}
