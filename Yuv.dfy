/**
 * Synthetic YUV 4:2:0 frames: the in-place fill of the three planes and the
 * raw writer that strips stride padding, shared by c/ffav/overlay_filter.c
 * (get_dummy_frame, save_yuv_frame) and c/ffav/simple_video_filter.c
 * (fill_yuv_frame, save_yuv_frame).
 *
 * A plane is a byte array whose rows start `linesize` bytes apart; the first
 * `width` (luma) or `width / 2` (chroma) bytes of a row are picture, the rest
 * padding. A value stored into a `uint8_t` is reduced modulo 256.
 */
module Yuv {

  newtype byte = x: int | 0 <= x < 256

  /** Which of the three planes. */
  datatype PlaneId = LumaPlane | UPlane | VPlane

  /** The two synthetic pictures of the sources. */
  datatype Pattern =
    | Dummy(frameIndex: int, value: int)  // get_dummy_frame, c/ffav/overlay_filter.c
    | Test(frameIndex: int)               // fill_yuv_frame, c/ffav/simple_video_filter.c

  /** The byte a pattern puts at column `x`, row `y` of a plane. */
  function Sample(p: Pattern, plane: PlaneId, x: int, y: int): byte {
    var n := match (p, plane)
      case (_, LumaPlane) => x + y + p.frameIndex * 3
      case (Dummy(fi, value), UPlane) => (128 + y + fi) * value * 2
      case (Dummy(fi, value), VPlane) => (64 + x + fi) * value * 5
      case (Test(fi), UPlane) => 128 + y + fi * 2
      case (Test(fi), VPlane) => 64 + x + fi * 5;
    (n % 256) as byte
  }

  // ---------------------------------------------------------------------------
  // Planes as values
  // ---------------------------------------------------------------------------

  /** Index `i` of a plane with rows `ls` bytes apart is picture column `i % ls` of row `i / ls`
      when that column is among the first `w` of one of the first `h` rows. */
  predicate InPicture(i: int, ls: nat, w: nat, h: nat) {
    ls > 0 && i / ls < h && i % ls < w
  }

  /** A plane after a pattern has been written to its `w` x `h` picture area; padding keeps its bytes. */
  function FillPlane(s: seq<byte>, ls: nat, w: nat, h: nat, p: Pattern, plane: PlaneId): (r: seq<byte>)
    ensures |r| == |s|
  {
    seq(|s|, i requires 0 <= i < |s| =>
      if InPicture(i, ls, w, h) then Sample(p, plane, i % ls, i / ls) else s[i])
  }

  /** The first `n` rows of a plane, `w` picture bytes of each, padding left out. */
  function Rows(s: seq<byte>, ls: nat, w: nat, n: nat): seq<byte>
    requires w <= ls && n * ls <= |s|
  {
    if n == 0 then []
    else
      RowStartFits(n, ls, |s|);
      Rows(s, ls, w, n - 1) + s[(n - 1) * ls .. (n - 1) * ls + w]
  }

  /** The contents of a frame: three planes, their line sizes and the picture size. */
  datatype Picture = Picture(
    width: nat, height: nat,
    y: seq<byte>, u: seq<byte>, v: seq<byte>,
    lsY: nat, lsU: nat, lsV: nat)
  {
    /** Every picture row fits in its line, and every line in its plane. */
    predicate Valid() {
      && width <= lsY && width / 2 <= lsU && width / 2 <= lsV
      && height * lsY <= |y| && height / 2 * lsU <= |u| && height / 2 * lsV <= |v|
    }
  }

  /** What save_yuv_frame writes: `height` rows of `width` luma bytes, then `height / 2` rows of
      `width / 2` bytes of U and then of V. */
  function Packed(p: Picture): seq<byte>
    requires p.Valid()
  {
    Rows(p.y, p.lsY, p.width, p.height)
    + Rows(p.u, p.lsU, p.width / 2, p.height / 2)
    + Rows(p.v, p.lsV, p.width / 2, p.height / 2)
  }

  /** A picture after the fill of a `w` x `h` area (chroma `w / 2` x `h / 2`). */
  function FillPicture(p: Picture, pat: Pattern, w: nat, h: nat): (r: Picture)
    ensures r.width == p.width && r.height == p.height
    ensures r.lsY == p.lsY && r.lsU == p.lsU && r.lsV == p.lsV
    ensures |r.y| == |p.y| && |r.u| == |p.u| && |r.v| == |p.v|
  {
    p.(y := FillPlane(p.y, p.lsY, w, h, pat, LumaPlane),
       u := FillPlane(p.u, p.lsU, w / 2, h / 2, pat, UPlane),
       v := FillPlane(p.v, p.lsV, w / 2, h / 2, pat, VPlane))
  }

  // ---------------------------------------------------------------------------
  // Frames and the raw file, as objects
  // ---------------------------------------------------------------------------

  /** An AVFrame holding a YUV420P picture; the plane buffers are written in place. */
  class Frame {
    const width: nat
    const height: nat
    const y: array<byte>
    const u: array<byte>
    const v: array<byte>
    const lsY: nat
    const lsU: nat
    const lsV: nat

    predicate Valid() {
      && y != u && y != v && u != v
      && Contents0().Valid()
    }

    /** The frame's shape with the lengths of its buffers, without reading the bytes. */
    function Contents0(): Picture {
      Picture(width, height, seq(y.Length, _ => 0), seq(u.Length, _ => 0), seq(v.Length, _ => 0), lsY, lsU, lsV)
    }

    function Contents(): (p: Picture)
      reads y, u, v
      ensures p.Valid() <==> Contents0().Valid()
    {
      Picture(width, height, y[..], u[..], v[..], lsY, lsU, lsV)
    }

    /** av_frame_get_buffer: planes of `height` (chroma `height / 2`) lines of the given sizes.
        The source leaves the bytes unspecified; the model starts them at 0. */
    constructor (width: nat, height: nat, lsY: nat, lsU: nat, lsV: nat)
      requires width <= lsY && width / 2 <= lsU && width / 2 <= lsV
      ensures Valid()
      ensures this.width == width && this.height == height
      ensures this.lsY == lsY && this.lsU == lsU && this.lsV == lsV
      ensures fresh(y) && fresh(u) && fresh(v)
    {
      this.width, this.height := width, height;
      this.lsY, this.lsU, this.lsV := lsY, lsU, lsV;
      y := new byte[height * lsY];
      u := new byte[height / 2 * lsU];
      v := new byte[height / 2 * lsV];
    }
  }

  /** The output file, opened for appending ("ab"). */
  class RawFile {
    var bytes: seq<byte>

    constructor ()
      ensures bytes == []
    {
      bytes := [];
    }
  }

  // ---------------------------------------------------------------------------
  // The operations
  // ---------------------------------------------------------------------------

  /** The fill loops: luma over `height` rows of `width` bytes, then U and V together over
      `height / 2` rows of `width / 2` bytes. Only picture bytes change.
      (get_dummy_frame lines 86-95 of c/ffav/overlay_filter.c, fill_yuv_frame lines 55-64 of
      c/ffav/simple_video_filter.c.) */
  method FillYuv(f: Frame, pat: Pattern, width: nat, height: nat)
    requires f.Valid() && width <= f.width && height <= f.height
    modifies f.y, f.u, f.v
    ensures f.Contents() == FillPicture(old(f.Contents()), pat, width, height)
  {
    ghost var y0, u0, v0 := f.y[..], f.u[..], f.v[..];
    FillRows(f.y, f.lsY, width, height, f.height, pat, LumaPlane);
    assert f.u[..] == u0 && f.v[..] == v0;
    FillChroma(f, pat, width / 2, height / 2);
  }

  /** Index `i` is among the picture bytes written before position (`row`, `col`) of the row-major loop. */
  predicate WrittenBefore(i: int, ls: nat, w: nat, row: nat, col: nat) {
    InPicture(i, ls, w, row) || (ls > 0 && i / ls == row && i % ls < col && col <= w)
  }

  /** Lines 86-88: row by row, column by column. */
  method FillRows(a: array<byte>, ls: nat, w: nat, h: nat, rows: nat, pat: Pattern, plane: PlaneId)
    requires w <= ls && h <= rows && rows * ls <= a.Length
    modifies a
    ensures a[..] == FillPlane(old(a[..]), ls, w, h, pat, plane)
  {
    for row := 0 to h
      invariant forall i :: 0 <= i < a.Length ==>
        a[i] == if InPicture(i, ls, w, row) then Sample(pat, plane, i % ls, i / ls) else old(a[i])
    {
      for col := 0 to w
        invariant forall i :: 0 <= i < a.Length ==>
          a[i] == if WrittenBefore(i, ls, w, row, col) then Sample(pat, plane, i % ls, i / ls) else old(a[i])
      {
        WriteCell(a, ls, w, rows, row, col, Sample(pat, plane, col, row));
        forall i | 0 <= i < a.Length
          ensures a[i] == if WrittenBefore(i, ls, w, row, col + 1) then Sample(pat, plane, i % ls, i / ls) else old(a[i])
        {
        }
      }
      forall i | 0 <= i < a.Length
        ensures WrittenBefore(i, ls, w, row, w) == InPicture(i, ls, w, row + 1)
      {
      }
    }
  }

  /** One store `a[row * ls + col] := b`: the cell written is the one at (row, col), and no other byte changes. */
  method WriteCell(a: array<byte>, ls: nat, w: nat, rows: nat, row: nat, col: nat, b: byte)
    requires w <= ls && row < rows && col < w && rows * ls <= a.Length
    modifies a
    ensures forall i :: 0 <= i < a.Length ==>
      a[i] == if ls > 0 && i / ls == row && i % ls == col then b else old(a[i])
  {
    Cell(row, col, ls, rows, a.Length);
    var k := row * ls + col;
    a[k] := b;
    forall i | 0 <= i < a.Length
      ensures a[i] == if ls > 0 && i / ls == row && i % ls == col then b else old(a[i])
    {
      if i != k && i / ls == row && i % ls == col {
        SameCell(i, ls, row, col);
      }
    }
  }

  /** The index in row `row`, column `col` of a plane is row * ls + col. */
  lemma SameCell(i: int, ls: nat, row: int, col: int)
    requires ls > 0 && i / ls == row && i % ls == col
    ensures i == row * ls + col
  {
    assert i == ls * (i / ls) + i % ls;
  }

  /** Lines 90-95: one loop writes U and V at the same position. */
  method FillChroma(f: Frame, pat: Pattern, cw: nat, ch: nat)
    requires f.Valid() && cw <= f.width / 2 && ch <= f.height / 2
    modifies f.u, f.v
    ensures f.u[..] == FillPlane(old(f.u[..]), f.lsU, cw, ch, pat, UPlane)
    ensures f.v[..] == FillPlane(old(f.v[..]), f.lsV, cw, ch, pat, VPlane)
  {
    var u, v, lsU, lsV, rows := f.u, f.v, f.lsU, f.lsV, f.height / 2;
    for row := 0 to ch
      invariant forall i :: 0 <= i < u.Length ==>
        u[i] == if InPicture(i, lsU, cw, row) then Sample(pat, UPlane, i % lsU, i / lsU) else old(u[i])
      invariant forall i :: 0 <= i < v.Length ==>
        v[i] == if InPicture(i, lsV, cw, row) then Sample(pat, VPlane, i % lsV, i / lsV) else old(v[i])
    {
      for col := 0 to cw
        invariant forall i :: 0 <= i < u.Length ==>
          u[i] == if WrittenBefore(i, lsU, cw, row, col) then Sample(pat, UPlane, i % lsU, i / lsU) else old(u[i])
        invariant forall i :: 0 <= i < v.Length ==>
          v[i] == if WrittenBefore(i, lsV, cw, row, col) then Sample(pat, VPlane, i % lsV, i / lsV) else old(v[i])
      {
        WriteCell(u, lsU, cw, rows, row, col, Sample(pat, UPlane, col, row));
        WriteCell(v, lsV, cw, rows, row, col, Sample(pat, VPlane, col, row));
        forall i | 0 <= i < u.Length
          ensures u[i] == if WrittenBefore(i, lsU, cw, row, col + 1) then Sample(pat, UPlane, i % lsU, i / lsU) else old(u[i])
        {
        }
        forall i | 0 <= i < v.Length
          ensures v[i] == if WrittenBefore(i, lsV, cw, row, col + 1) then Sample(pat, VPlane, i % lsV, i / lsV) else old(v[i])
        {
        }
      }
      forall i | 0 <= i < u.Length
        ensures WrittenBefore(i, lsU, cw, row, cw) == InPicture(i, lsU, cw, row + 1)
      {
      }
      forall i | 0 <= i < v.Length
        ensures WrittenBefore(i, lsV, cw, row, cw) == InPicture(i, lsV, cw, row + 1)
      {
      }
    }
  }

  /** save_yuv_frame: appends the picture rows of the three planes, advancing one line size per row. */
  method SaveYuvFrame(f: Frame, file: RawFile)
    requires f.Valid()
    modifies file
    ensures file.bytes == old(file.bytes) + Packed(f.Contents())
  {
    ghost var p := f.Contents();
    WriteRows(file, f.y, f.lsY, f.width, f.height);
    ghost var luma := file.bytes;
    WriteRows(file, f.u, f.lsU, f.width / 2, f.height / 2);
    assert file.bytes == luma + Rows(p.u, p.lsU, p.width / 2, p.height / 2);
    WriteRows(file, f.v, f.lsV, f.width / 2, f.height / 2);
    assert f.Contents() == p;
  }

  /** One of the three loops of save_yuv_frame: `n` writes of `w` bytes, the row start moving `ls` bytes each time. */
  method WriteRows(file: RawFile, a: array<byte>, ls: nat, w: nat, n: nat)
    requires w <= ls && n * ls <= a.Length
    modifies file
    ensures file.bytes == old(file.bytes) + Rows(a[..], ls, w, n)
  {
    var start := 0;
    for i := 0 to n
      invariant start == i * ls
      invariant file.bytes == old(file.bytes) + Rows(a[..], ls, w, i)
    {
      MulLess(i + 1, n, ls);
      RowStartFits(i + 1, ls, a.Length);
      assert Rows(a[..], ls, w, i + 1) == Rows(a[..], ls, w, i) + a[..][start .. start + w];
      file.bytes := file.bytes + a[start .. start + w];
      start := start + ls;
    }
  }

  // ---------------------------------------------------------------------------
  // Properties
  // ---------------------------------------------------------------------------

  /** The writer emits `w` bytes per row. */
  lemma {:induction false} RowsLength(s: seq<byte>, ls: nat, w: nat, n: nat)
    requires w <= ls && n * ls <= |s|
    ensures |Rows(s, ls, w, n)| == n * w
  {
    if n > 0 {
      RowStartFits(n, ls, |s|);
      RowsLength(s, ls, w, n - 1);
    }
  }

  /** Byte `x` of written row `i` is byte `x` of line `i` of the plane: padding is stripped. */
  lemma {:induction false} RowsAt(s: seq<byte>, ls: nat, w: nat, n: nat, i: nat, x: nat)
    requires w <= ls && n * ls <= |s|
    requires i < n && x < w
    ensures i * w + x < |Rows(s, ls, w, n)|
    ensures Rows(s, ls, w, n)[i * w + x] == s[i * ls + x]
  {
    RowStartFits(n, ls, |s|);
    var start := (n - 1) * ls;
    var prefix := Rows(s, ls, w, n - 1);
    var line := s[start .. start + w];
    assert Rows(s, ls, w, n) == prefix + line;
    RowsLength(s, ls, w, n - 1);
    assert |prefix| == (n - 1) * w;
    if i < n - 1 {
      RowsAt(s, ls, w, n - 1, i, x);
    } else {
      assert i * w + x == |prefix| + x;
      assert i * ls + x == start + x;
    }
  }

  /** The total a frame adds to the file: w*h + 2*(w/2)*(h/2) bytes, whatever its line sizes. */
  lemma PackedLength(p: Picture)
    requires p.Valid()
    ensures |Packed(p)| == p.width * p.height + 2 * ((p.width / 2) * (p.height / 2))
  {
    var w, h, cw, ch := p.width, p.height, p.width / 2, p.height / 2;
    RowsLength(p.y, p.lsY, w, h);
    RowsLength(p.u, p.lsU, cw, ch);
    RowsLength(p.v, p.lsV, cw, ch);
  }

  /** Rows `0 .. n - 1` of a pattern, `w` samples each: what a `w` x `n` plane holding it is written as. */
  function PatternRows(pat: Pattern, plane: PlaneId, w: nat, n: nat): (r: seq<byte>)
    ensures |r| == n * w
  {
    if n == 0 then []
    else PatternRows(pat, plane, w, n - 1) + seq(w, x => Sample(pat, plane, x, n - 1))
  }

  /** The file image of a `w` x `h` frame of a pattern: luma rows, then U rows, then V rows. */
  function PatternFrame(pat: Pattern, w: nat, h: nat): seq<byte> {
    PatternRows(pat, LumaPlane, w, h)
    + PatternRows(pat, UPlane, w / 2, h / 2)
    + PatternRows(pat, VPlane, w / 2, h / 2)
  }

  /** The rows of a filled plane are the pattern's rows, whatever the padding held. */
  lemma {:induction false} RowsOfFill(s: seq<byte>, ls: nat, w: nat, h: nat, pat: Pattern, plane: PlaneId, n: nat)
    requires w <= ls && h * ls <= |s| && n <= h
    ensures n * ls <= |s|
    ensures Rows(FillPlane(s, ls, w, h, pat, plane), ls, w, n) == PatternRows(pat, plane, w, n)
  {
    MulLess(n, h, ls);
    if n > 0 {
      RowsOfFill(s, ls, w, h, pat, plane, n - 1);
      RowStartFits(n, ls, |s|);
      FilledLine(s, ls, w, h, pat, plane, n - 1);
    }
  }

  /** Line `r` of a filled plane, picture part, is row `r` of the pattern. */
  lemma FilledLine(s: seq<byte>, ls: nat, w: nat, h: nat, pat: Pattern, plane: PlaneId, r: nat)
    requires w <= ls && h * ls <= |s| && r < h
    ensures r * ls + w <= |s|
    ensures FillPlane(s, ls, w, h, pat, plane)[r * ls .. r * ls + w] == seq(w, x => Sample(pat, plane, x, r))
  {
    var f := FillPlane(s, ls, w, h, pat, plane);
    var start := r * ls;
    MulLess(r + 1, h, ls);
    forall k | start <= k < start + w
      ensures f[k] == Sample(pat, plane, k - start, r)
    {
      Cell(r, k - start, ls, h, |s|);
    }
  }

  /** Filling a frame's whole picture and writing it out gives exactly the pattern's file image. */
  lemma FillThenSave(p: Picture, pat: Pattern)
    requires p.Valid()
    ensures FillPicture(p, pat, p.width, p.height).Valid()
    ensures Packed(FillPicture(p, pat, p.width, p.height)) == PatternFrame(pat, p.width, p.height)
  {
    var w, h := p.width, p.height;
    RowsOfFill(p.y, p.lsY, w, h, pat, LumaPlane, h);
    RowsOfFill(p.u, p.lsU, w / 2, h / 2, pat, UPlane, h / 2);
    RowsOfFill(p.v, p.lsV, w / 2, h / 2, pat, VPlane, h / 2);
  }

  /** With `value` 0 (the probe frame, and the frame for input 0) both chroma planes of a
      get_dummy_frame picture are all zero, whatever the frame index. */
  lemma ZeroValueChroma(fi: int, plane: PlaneId, x: int, y: int)
    requires plane != LumaPlane
    ensures Sample(Dummy(fi, 0), plane, x, y) == 0
  {
  }

  /** The fill leaves every padding byte as it was and changes nothing outside the picture area. */
  lemma FillKeepsPadding(s: seq<byte>, ls: nat, w: nat, h: nat, p: Pattern, plane: PlaneId, i: int)
    requires 0 <= i < |s| && ls > 0 && i % ls >= w
    ensures FillPlane(s, ls, w, h, p, plane)[i] == s[i]
  {
  }

  // ---------------------------------------------------------------------------
  // Arithmetic helpers
  // ---------------------------------------------------------------------------

  /** Row `row`, column `col` of a plane with `rows` lines of `ls` bytes is at index row * ls + col. */
  lemma Cell(row: nat, col: nat, ls: nat, rows: nat, len: nat)
    requires row < rows && col < ls && rows * ls <= len
    ensures row * ls + col < len
    ensures (row * ls + col) / ls == row && (row * ls + col) % ls == col
  {
    MulLess(row + 1, rows, ls);
    var k := row * ls + col;
    var q, r := k / ls, k % ls;
    assert (row - q) * ls == r - col;
    if row > q {
      MulLess(1, row - q, ls);
    } else if row < q {
      MulLess(1, q - row, ls);
    }
  }

  lemma RowStartFits(n: nat, ls: nat, len: nat)
    requires n > 0 && n * ls <= len
    ensures (n - 1) * ls + ls == n * ls
  {
  }

  lemma MulComm(a: int, b: int)
    ensures a * b == b * a
  {
  }

  lemma MulLess(a: nat, b: nat, c: nat)
    requires a <= b
    ensures a * c <= b * c
  {
  }
}
