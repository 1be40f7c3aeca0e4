// camera.c: the in-place crop of camera_crop_task.

module CameraCrop {
  import opened Prelude

  // Capture lines of `width` bytes; the crop is `rows` lines of `columns` bytes from line `top` and
  // column `left` on.
  datatype Crop = Crop(width: nat, top: nat, left: nat, columns: nat, rows: nat) {

    // The crop lies within the lines, and they within the buffer.
    predicate Fits(length: nat) { left + columns <= width && (top + rows) * width <= length }

    // Where byte `c` of cropped line `r` is in the capture, and where it goes
    function Source(r: nat, c: nat): nat { (top + r) * width + left + c }

    function Target(r: nat, c: nat): nat { r * columns + c }
  }

  lemma SourceInside(k: Crop, length: nat, r: nat)
    requires k.Fits(length) && r < k.rows
    ensures k.Source(r, 0) + k.columns <= length
    ensures k.Target(r, 0) <= k.Source(r, 0)
    ensures k.Target(r, 0) + k.columns == k.Target(r + 1, 0)
    ensures k.Source(r + 1, 0) == k.Source(r, 0) + k.width
  {
    var line := k.top + r;
    assert (line + 1) * k.width == line * k.width + k.width;
    assert (line + 1) * k.width <= (k.top + k.rows) * k.width by { MulMonotone(line + 1, k.top + k.rows, k.width); }
    assert r * k.columns <= line * k.width by {
      MulMonotone(r, line, k.columns);
      MulMonotone(k.columns, k.width, line);
    }
    assert (r + 1) * k.columns == r * k.columns + k.columns;
  }

  lemma MulMonotone(a: nat, b: nat, c: nat)
    requires a <= b
    ensures a * c <= b * c && c * a <= c * b
  {
  }

  function Moved(b: seq<U8>, to: nat, from: nat, n: nat): (m: seq<U8>)
    requires to + n <= |b| && from + n <= |b|
    ensures |m| == |b|
  {
    b[..to] + b[from..from + n] + b[to + n..]
  }

  // memmove: the ranges may overlap.
  method MemMove(buffer: array<U8>, to: nat, from: nat, n: nat)
    requires to + n <= buffer.Length && from + n <= buffer.Length
    modifies buffer
    ensures buffer[..] == Moved(old(buffer[..]), to, from, n)
  {
    forall i | 0 <= i < n {
      buffer[to + i] := buffer[from + i];
    }
  }

  // The first `rows` lines of the cropped image
  function Image(k: Crop, capture: seq<U8>, rows: nat): (s: seq<U8>)
    requires k.Fits(|capture|) && rows <= k.rows
    decreases rows
  {
    if rows == 0 then []
    else
      SourceInside(k, |capture|, rows - 1);
      Image(k, capture, rows - 1) + capture[k.Source(rows - 1, 0)..k.Source(rows - 1, 0) + k.columns]
  }

  lemma {:induction false} ImageLength(k: Crop, capture: seq<U8>, rows: nat)
    requires k.Fits(|capture|) && rows <= k.rows
    ensures |Image(k, capture, rows)| == k.Target(rows, 0)
    decreases rows
  {
    if rows == 0 {
      NoLines(k);
    } else {
      ImageLength(k, capture, rows - 1);
      SourceInside(k, |capture|, rows - 1);
      hide Crop.Source, Crop.Target, Crop.Fits;
    }
  }

  lemma NoLines(k: Crop)
    ensures k.Target(0, 0) == 0
  {
  }

  lemma InLine(k: Crop, r: nat, c: nat)
    ensures k.Source(r, c) == k.Source(r, 0) + c && k.Target(r, c) == k.Target(r, 0) + c
  {
  }

  // It has each byte in its place.
  lemma {:induction false} ImageAt(k: Crop, capture: seq<U8>, rows: nat, r: nat, c: nat)
    requires k.Fits(|capture|) && r < rows <= k.rows && c < k.columns
    ensures k.Target(r, c) < |Image(k, capture, rows)| && k.Source(r, c) < |capture|
    ensures Image(k, capture, rows)[k.Target(r, c)] == capture[k.Source(r, c)]
    decreases rows
  {
    hide Crop.Source, Crop.Target, Crop.Fits;
    SourceInside(k, |capture|, rows - 1);
    ImageLength(k, capture, rows - 1);
    if r == rows - 1 {
      InLine(k, r, c);
    } else {
      ImageAt(k, capture, rows - 1, r, c);
    }
  }

  // The buffer when that many lines have been moved
  function Cropped(k: Crop, capture: seq<U8>, rows: nat): (s: seq<U8>)
    requires k.Fits(|capture|) && rows <= k.rows
  {
    ImageFits(k, capture, rows);
    Image(k, capture, rows) + capture[k.Target(rows, 0)..]
  }

  lemma ImageFits(k: Crop, capture: seq<U8>, rows: nat)
    requires k.Fits(|capture|) && rows <= k.rows
    ensures |Image(k, capture, rows)| == k.Target(rows, 0) <= |capture|
  {
    ImageLength(k, capture, rows);
    if rows == 0 {
      NoLines(k);
    } else {
      SourceInside(k, |capture|, rows - 1);
    }
  }

  // camera_crop_task. No line is written before all that is to be read from there has been read.
  method CropTask(buffer: array<U8>, k: Crop)
    requires k.Fits(buffer.Length)
    modifies buffer
    ensures buffer[..] == Cropped(k, old(buffer[..]), k.rows)
  {
    hide Crop.Source, Crop.Target, Crop.Fits, Cropped, Moved;
    ghost var capture := buffer[..];
    var src, dst := k.top * k.width, 0;
    var i := 0;
    FirstLine(k, capture);
    while i < k.rows
      invariant 0 <= i <= k.rows && dst == k.Target(i, 0) && src + k.left == k.Source(i, 0)
      invariant buffer[..] == Cropped(k, capture, i)
    {
      SourceInside(k, buffer.Length, i);
      NextLine(k, capture, i);
      MemMove(buffer, dst, src + k.left, k.columns);
      src := src + k.width;
      dst := dst + k.columns;
      i := i + 1;
    }
  }

  lemma FirstLine(k: Crop, capture: seq<U8>)
    requires k.Fits(|capture|)
    ensures k.Target(0, 0) == 0 && k.top * k.width + k.left == k.Source(0, 0)
    ensures Cropped(k, capture, 0) == capture
  {
  }

  lemma NextLine(k: Crop, capture: seq<U8>, i: nat)
    requires k.Fits(|capture|) && i < k.rows
    ensures var to, from, b := k.Target(i, 0), k.Source(i, 0), Cropped(k, capture, i);
            && to + k.columns <= |b| && from + k.columns <= |b|
            && Moved(b, to, from, k.columns) == Cropped(k, capture, i + 1)
  {
    SourceInside(k, |capture|, i);
    ImageFits(k, capture, i);
    assert Image(k, capture, i + 1) == Image(k, capture, i) + capture[k.Source(i, 0)..k.Source(i, 0) + k.columns];
    hide Crop.Source, Crop.Target, Crop.Fits, Image;
    MovedLine(Image(k, capture, i), capture, k.Source(i, 0), k.columns);
  }

  lemma MovedLine(image: seq<U8>, capture: seq<U8>, src: nat, n: nat)
    requires |image| <= src && src + n <= |capture|
    ensures Moved(image + capture[|image|..], |image|, src, n) ==
            image + capture[src..src + n] + capture[|image| + n..]
  {
    var dst, b := |image|, image + capture[|image|..];
    assert b[..dst] == image;
    assert b[src..src + n] == capture[src..src + n];
    assert b[dst + n..] == capture[dst + n..];
  }

  // What is left at the start of the buffer is the crop, each byte from its place in the capture; behind
  // it nothing has changed.
  lemma CropIsExact(k: Crop, capture: seq<U8>, r: nat, c: nat)
    requires k.left + k.columns <= k.width && (k.top + k.rows) * k.width <= |capture| && r < k.rows && c < k.columns
    ensures k.Fits(|capture|) && r * k.columns + c < k.rows * k.columns <= |capture| == |Cropped(k, capture, k.rows)|
    ensures (k.top + r) * k.width + k.left + c < |capture|
    ensures Cropped(k, capture, k.rows)[r * k.columns + c] == capture[(k.top + r) * k.width + k.left + c]
    ensures Cropped(k, capture, k.rows)[k.rows * k.columns..] == capture[k.rows * k.columns..]
  {
    hide Image;
    ImageFits(k, capture, k.rows);
    ImageAt(k, capture, k.rows, r, c);
    var image := Image(k, capture, k.rows);
    assert |image| == k.Target(k.rows, 0) == k.rows * k.columns && k.Target(r, c) == r * k.columns + c;
    assert k.Source(r, c) == (k.top + r) * k.width + k.left + c;
    hide Crop.Source, Crop.Target;
    assert Cropped(k, capture, k.rows) == image + capture[|image|..];
  }
}
