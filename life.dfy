/**
 * The Game-of-Life image filter (public/posts/2023/05/23/index.js).
 *
 * An uploaded picture is drawn onto a square canvas of CANVAS_SIZE pixels a
 * side, dithered to black and white, and then evolved by Conway's Life
 * (born with 3 neighbours, survives with 2 or 3) on a torus.  The grid
 * lives in the low bit of the red byte of each RGBA pixel of the canvas's
 * flat byte buffer.  Every upload gets a fresh run id (`src`); a scheduled
 * step whose id is not the current one does nothing, so superseded runs
 * stop.
 */
module GameOfLife {
  import Decimal

  /** One byte of a canvas `ImageData` buffer. */
  type Byte = x: int | 0 <= x < 256

  /** Width and height of the grid: `state.w` and `state.h` are always CANVAS_SIZE (index.js:8, 128-129). */
  const CANVAS_SIZE: nat := 300
  const W: nat := CANVAS_SIZE
  const H: nat := CANVAS_SIZE
  /** Number of pixels, W H. */
  const PIXELS: nat := 90000
  /** Length of an RGBA buffer of W x H pixels, 4 W H. */
  const BYTES: nat := 360000

  /** Offset of the red byte of pixel (y, x) in a buffer `width` pixels wide (index.js:19). */
  function RedIndex(width: int, y: int, x: int): int
  {
    y * (width * 4) + x * 4
  }

  /**
   * `RedIndex(W, y, x)` written out for the fixed canvas: 4 W = 1200 bytes per
   * row, 4 per pixel.
   */
  function Offset(y: int, x: int): int
  {
    y * 1200 + x * 4
  }

  /** The buffer sizes and the offset are those of a W x H RGBA canvas. */
  lemma CanvasGeometry(y: int, x: int)
    ensures PIXELS == W * H && BYTES == 4 * PIXELS
    ensures Offset(y, x) == RedIndex(W, y, x)
  {
  }

  /** Pixel (y, x) is pixel number y W + x in row-major order; its four bytes lie inside the buffer. */
  lemma RedIndexInRange(y: nat, x: nat)
    requires y < H && x < W
    ensures Offset(y, x) == 4 * (y * 300 + x)
    ensures 0 <= Offset(y, x) && Offset(y, x) + 3 < BYTES
  {
  }

  /** The pixel and channel that the byte at offset `k` belongs to. */
  function ByteOwner(k: nat): (r: (nat, nat, nat))
    requires k < BYTES
    ensures r.0 < H && r.1 < W && r.2 < 4
    ensures Offset(r.0, r.1) + r.2 == k
  {
    var p := k / 4;
    (p / 300, p % 300, k % 4)
  }

  /** Distinct (pixel, channel) pairs own distinct bytes. */
  lemma ByteOwnerOfRedIndex(y: nat, x: nat, c: nat)
    requires y < H && x < W && c < 4
    ensures Offset(y, x) + c < BYTES
    ensures ByteOwner(Offset(y, x) + c) == (y, x, c)
  {
    var k := Offset(y, x) + c;
    assert k / 4 == y * 300 + x;
  }

  /** `im1`, `jm1`: the previous row or column, wrapping from 0 to n - 1 (index.js:35, 38). */
  function Prev(i: nat, n: nat): (r: nat)
    requires i < n
    ensures r < n
  {
    if i == 0 then n - 1 else i - 1
  }

  /** `ip1`, `jp1`: the next row or column, wrapping from n - 1 to 0 (index.js:36, 39). */
  function Next(i: nat, n: nat): (r: nat)
    requires i < n
    ensures r < n
  {
    if i == n - 1 then 0 else i + 1
  }

  /** The neighbour indices are the torus steps: one back and one on, modulo the size. */
  lemma NeighbourIndicesWrap(i: nat, n: nat)
    requires i < n
    ensures Prev(i, n) == (i - 1) % n && Next(i, n) == (i + 1) % n
  {
  }

  /** `get(y, x) & 1`: the cell bit held in the red byte of pixel (y, x). */
  function Cell(data: seq<Byte>, y: nat, x: nat): (b: nat)
    requires |data| == BYTES && y < H && x < W
    ensures b <= 1
  {
    RedIndexInRange(y, x);
    data[Offset(y, x)] % 2
  }

  /** The live cells among the eight toroidal neighbours of (i, j) (index.js:41-45). */
  function Neighbours(data: seq<Byte>, i: nat, j: nat): (n: nat)
    requires |data| == BYTES && i < H && j < W
    ensures n <= 8
  {
    var im1, ip1, jm1, jp1 := Prev(i, H), Next(i, H), Prev(j, W), Next(j, W);
    Cell(data, im1, jm1) + Cell(data, im1, j) + Cell(data, im1, jp1) +
    Cell(data, i, jm1) + Cell(data, i, jp1) +
    Cell(data, ip1, jm1) + Cell(data, ip1, j) + Cell(data, ip1, jp1)
  }

  /** The new red, green and blue value of a cell (index.js:49-54). */
  function NextShade(alive: bool, neighbours: nat): Byte
  {
    if alive && (neighbours == 2 || neighbours == 3) then 255
    else if !alive && neighbours == 3 then 255
    else 0
  }

  /** Conway's B3/S23 in its usual statement: a cell lives next iff it has 3 neighbours, or 2 and is alive. */
  lemma NextShadeIsLife(alive: bool, neighbours: nat)
    ensures NextShade(alive, neighbours) == 255 <==> neighbours == 3 || (alive && neighbours == 2)
    ensures NextShade(alive, neighbours) == 0 <==> !(neighbours == 3 || (alive && neighbours == 2))
  {
  }

  /** The byte written at channel `c` of pixel (y, x): the shade for R, G, B and 255 for alpha. */
  function StepByte(data: seq<Byte>, y: nat, x: nat, c: nat): Byte
    requires |data| == BYTES && y < H && x < W
  {
    if c == 3 then 255 else NextShade(Cell(data, y, x) == 1, Neighbours(data, y, x))
  }

  /** The buffer one Life step produces from `data`, byte by byte. */
  function NextFrame(data: seq<Byte>): (r: seq<Byte>)
    requires |data| == BYTES
    ensures |r| == BYTES
  {
    seq(BYTES, k requires 0 <= k < BYTES => var o := ByteOwner(k); StepByte(data, o.0, o.1, o.2))
  }

  /** The four bytes of pixel (y, x) in the next frame: R = G = B = the rule's shade, alpha = 255. */
  lemma NextFramePixel(data: seq<Byte>, y: nat, x: nat)
    requires |data| == BYTES && y < H && x < W
    ensures Offset(y, x) + 3 < BYTES
    ensures var f, b := NextFrame(data), Offset(y, x);
      var shade := NextShade(Cell(data, y, x) == 1, Neighbours(data, y, x));
      f[b] == shade && f[b + 1] == shade && f[b + 2] == shade && f[b + 3] == 255
  {
    NextFrameByte(data, y, x, 0);
    NextFrameByte(data, y, x, 1);
    NextFrameByte(data, y, x, 2);
    NextFrameByte(data, y, x, 3);
  }

  /** Byte c of pixel (y, x) in the next frame is its step byte. */
  lemma NextFrameByte(data: seq<Byte>, y: nat, x: nat, c: nat)
    requires |data| == BYTES && y < H && x < W && c < 4
    ensures Offset(y, x) + c < BYTES
    ensures NextFrame(data)[Offset(y, x) + c] == StepByte(data, y, x, c)
  {
    ByteOwnerOfRedIndex(y, x, c);
  }

  /** The four bytes of pixel (y, x) of `f` are those `StepByte` gives for `data`. */
  ghost predicate PixelReady(f: seq<Byte>, data: seq<Byte>, y: nat, x: nat)
    requires |f| == BYTES && |data| == BYTES && y < H && x < W
  {
    RedIndexInRange(y, x);
    var b := Offset(y, x);
    f[b] == StepByte(data, y, x, 0) && f[b + 1] == StepByte(data, y, x, 1) &&
    f[b + 2] == StepByte(data, y, x, 2) && f[b + 3] == StepByte(data, y, x, 3)
  }

  /** Every pixel of row i of the next frame holds its step bytes. */
  lemma NextFrameRow(data: seq<Byte>, i: nat)
    requires |data| == BYTES && i < H
    ensures forall j: nat :: j < W ==> PixelReady(NextFrame(data), data, i, j)
  {
    forall j: nat | j < W
      ensures PixelReady(NextFrame(data), data, i, j)
    {
      NextFramePixel(data, i, j);
    }
  }

  /** A red byte of 255 holds a live cell, one of 0 a dead one. */
  lemma CellOfShade(f: seq<Byte>, y: nat, x: nat, shade: Byte)
    requires |f| == BYTES && y < H && x < W
    requires shade == 0 || shade == 255
    requires f[Offset(y, x)] == shade
    ensures Cell(f, y, x) == 1 <==> shade == 255
  {
    CellIsRead(f, y, x);
  }

  /**
   * Reading the next frame back: a cell is alive after the step exactly when
   * B3/S23 says so of the old grid.
   */
  lemma NextFrameFollowsLife(data: seq<Byte>, y: nat, x: nat)
    requires |data| == BYTES && y < H && x < W
    ensures Cell(NextFrame(data), y, x) == 1 <==>
      Neighbours(data, y, x) == 3 || (Cell(data, y, x) == 1 && Neighbours(data, y, x) == 2)
  {
    var alive, n := Cell(data, y, x) == 1, Neighbours(data, y, x);
    NextFramePixel(data, y, x);
    NextShadeIsLife(alive, n);
    CellOfShade(NextFrame(data), y, x, NextShade(alive, n));
  }

  /** The cell bit of pixel (y, x) is the low bit of the byte at its red offset. */
  lemma CellIsRead(data: seq<Byte>, y: nat, x: nat)
    requires |data| == BYTES && y < H && x < W
    ensures 0 <= Offset(y, x) < BYTES && Cell(data, y, x) == data[Offset(y, x)] as int % 2
  {
    RedIndexInRange(y, x);
  }

  /** The value the dithering loop writes to all four channels of pixel p (index.js:95-107). */
  function DitherShade(original: seq<Byte>, bayer: (int, int) -> real, p: nat): Byte
    requires |original| == BYTES && p < PIXELS
  {
    var average := (original[4 * p] as int + original[4 * p + 1] as int + original[4 * p + 2] as int) as real / 3.0;
    var bx, byy := p % 300, p / 300;
    var adjusted := average + 255.0 * bayer(bx, byy);
    if adjusted > 127.0 then 255 else 0
  }

  /** The buffer after dithering: every byte is its pixel's shade. */
  function Dithered(original: seq<Byte>, bayer: (int, int) -> real): (r: seq<Byte>)
    requires |original| == BYTES
    ensures |r| == BYTES
  {
    seq(BYTES, k requires 0 <= k < BYTES => DitherShade(original, bayer, k / 4))
  }

  /** The four bytes of pixel p of the dithered buffer are its shade. */
  lemma DitheredPixel(original: seq<Byte>, bayer: (int, int) -> real, p: nat)
    requires |original| == BYTES && p < PIXELS
    ensures var d, v := Dithered(original, bayer), DitherShade(original, bayer, p);
      d[4 * p] == v && d[4 * p + 1] == v && d[4 * p + 2] == v && d[4 * p + 3] == v
  {
    var d := Dithered(original, bayer);
    QuarterOf(p, 0);
    QuarterOf(p, 1);
    QuarterOf(p, 2);
    QuarterOf(p, 3);
    assert d[4 * p] == DitherShade(original, bayer, (4 * p) / 4);
    assert d[4 * p + 1] == DitherShade(original, bayer, (4 * p + 1) / 4);
    assert d[4 * p + 2] == DitherShade(original, bayer, (4 * p + 2) / 4);
    assert d[4 * p + 3] == DitherShade(original, bayer, (4 * p + 3) / 4);
  }

  /** Byte c of pixel p belongs to pixel p. */
  lemma QuarterOf(p: nat, c: nat)
    requires c < 4
    ensures (4 * p + c) / 4 == p && (4 * p + c) % 4 == c
  {
  }

  /**
   * Every channel of every dithered pixel, alpha included, is 255 when the
   * adjusted brightness is above 127 and 0 otherwise.
   */
  lemma DitheredAt(original: seq<Byte>, bayer: (int, int) -> real, y: nat, x: nat, c: nat)
    requires |original| == BYTES && y < H && x < W && c < 4
    ensures Offset(y, x) + c < BYTES
    ensures var b := Offset(y, x);
      var v := Dithered(original, bayer)[b + c];
      var average := (original[b] as int + original[b + 1] as int + original[b + 2] as int) as real / 3.0;
      (v == 255 <==> average + 255.0 * bayer(x, y) > 127.0) && (v == 0 || v == 255)
  {
    var p := y * 300 + x;
    PixelOfByte(y, x, c);
    PixelCoordinates(y, x);
    DitheredPixel(original, bayer, p);
    var average := (original[4 * p] as int + original[4 * p + 1] as int + original[4 * p + 2] as int) as real / 3.0;
    assert DitherShade(original, bayer, p) == 255 <==> average + 255.0 * bayer(x, y) > 127.0;
  }

  /** Pixel number y W + x lies in row y, column x. */
  lemma PixelCoordinates(y: nat, x: nat)
    requires y < H && x < W
    ensures (y * 300 + x) % 300 == x && (y * 300 + x) / 300 == y
  {
  }

  /** The pixel number of every byte of pixel (y, x). */
  lemma PixelOfByte(y: nat, x: nat, c: nat)
    requires y < H && x < W && c < 4
    ensures (Offset(y, x) + c) / 4 == y * 300 + x && 4 * (y * 300 + x) == Offset(y, x)
  {
  }

  lemma DitheredByte(original: seq<Byte>, bayer: (int, int) -> real, q: nat)
    requires |original| == BYTES && q < BYTES
    ensures Dithered(original, bayer)[q] == DitherShade(original, bayer, q / 4)
  {
  }

  /** The run id given to an upload of an image whose data URL is `url` when the counter is `n` (index.js:147). */
  function RunId(url: string, n: nat): string
  {
    url + Decimal.NatToString(n)
  }

  /** Two uploads of the same image get different run ids, since the counter only grows. */
  lemma RunIdsDistinct(url: string, m: nat, n: nat)
    requires m != n
    ensures RunId(url, m) != RunId(url, n)
  {
    Decimal.NatToStringInjective(m, n);
    assert RunId(url, m)[|url|..] == Decimal.NatToString(m);
    assert RunId(url, n)[|url|..] == Decimal.NatToString(n);
  }

  /**
   * Images whose URLs end in a digit can share a run id: the counter is
   * appended with no separator, so `x1` at counter 0 and `x` at counter 10
   * both run as `x10`.
   */
  lemma RunIdsCollideAcrossUrls()
    ensures RunId("x1", 0) == RunId("x", 10) == "x10"
  {
    assert Decimal.NatToString(10) == Decimal.NatToString(1) + [Decimal.DigitChar(0)];
  }

  /**
   * When the URLs end in no digit, as a data URL ending in base64 padding
   * `=` does, distinct pairs of URL and counter give distinct run ids.
   */
  lemma RunIdsDistinctAcross(u: string, v: string, m: nat, n: nat)
    requires u != v || m != n
    requires u == [] || !Decimal.IsDigit(u[|u| - 1])
    requires v == [] || !Decimal.IsDigit(v[|v| - 1])
    ensures RunId(u, m) != RunId(v, n)
  {
    var a, b := RunId(u, m), RunId(v, n);
    if |a| == |b| {
      if |u| < |v| {
        assert a[|v| - 1] == Decimal.NatToString(m)[|v| - 1 - |u|];
        assert a[|v| - 1] != b[|v| - 1];
      } else if |v| < |u| {
        assert b[|u| - 1] == Decimal.NatToString(n)[|u| - 1 - |v|];
        assert a[|u| - 1] != b[|u| - 1];
      } else if u != v {
        var k :| 0 <= k < |u| && u[k] != v[k];
        assert a[k] != b[k];
      } else {
        RunIdsDistinct(u, m, n);
      }
    }
  }

  /**
   * The page: the canvas width, the global `image_counter`, and the global
   * `state` (present when `hasState`) with its run id and its two buffers.
   */
  class LifeFilter {
    var canvasWidth: nat
    var imageCounter: nat
    var hasState: bool
    var src: string
    var imageData: array<Byte>
    var originalData: array<Byte>

    ghost predicate Valid()
      reads this
    {
      canvasWidth == W && imageData.Length == BYTES && originalData.Length == BYTES &&
      imageData != originalData
    }

    /** The page before any upload: no state, counter 0 (index.js:11, 14, 162). */
    constructor ()
      ensures Valid() && !hasState && imageCounter == 0
    {
      canvasWidth := CANVAS_SIZE;
      imageCounter := 0;
      hasState := false;
      src := "";
      imageData := new Byte[BYTES];
      originalData := new Byte[BYTES];
    }

    /** `get(y, x)`: the red byte of pixel (y, x) of the current buffer (index.js:18-21). */
    method Get(y: nat, x: nat) returns (v: Byte)
      requires Valid() && y < H && x < W
      ensures Offset(y, x) < imageData.Length && v == imageData[Offset(y, x)]
    {
      RedIndexInRange(y, x);
      CanvasGeometry(y, x);
      var a := RedIndex(canvasWidth, y, x);
      v := imageData[a];
    }

    /**
     * The image's `onload` handler (index.js:125-149): a fresh state holding
     * `pixels` (what `getImageData` returns after drawing), a copy of them,
     * and the next run id.
     */
    method Load(url: string, pixels: seq<Byte>) returns (runId: string)
      requires Valid()
      requires |pixels| == BYTES
      modifies this
      ensures Valid() && hasState && fresh(imageData) && fresh(originalData)
      ensures imageData[..] == pixels && originalData[..] == pixels
      ensures runId == src == RunId(url, old(imageCounter)) && imageCounter == old(imageCounter) + 1
    {
      canvasWidth := W;
      var current := new Byte[|pixels|];
      var copy := new Byte[|pixels|];
      var i := 0;
      while i < |pixels|
        modifies current, copy
        invariant 0 <= i <= |pixels|
        invariant forall k :: 0 <= k < i ==> current[k] == pixels[k] && copy[k] == pixels[k]
      {
        current[i] := pixels[i];
        copy[i] := current[i];
        i := i + 1;
      }
      assert current[..] == pixels;
      assert copy[..] == pixels;
      imageData, originalData := current, copy;
      hasState := true;
      src := url + Decimal.NatToString(imageCounter);
      imageCounter := imageCounter + 1;
      runId := src;
    }

    /**
     * The loop body of `gol` for cell (i, j) (index.js:34-54): read the eight
     * neighbours' red bytes and the cell's own, and apply B3/S23.
     */
    method StepPixel(i: nat, j: nat) returns (res: Byte)
      requires Valid() && i < H && j < W
      ensures res == NextShade(Cell(imageData[..], i, j) == 1, Neighbours(imageData[..], i, j))
    {
      var im1, ip1, jm1, jp1 := Prev(i, H), Next(i, H), Prev(j, W), Next(j, W);
      ghost var d := imageData[..];
      var g1 := Get(im1, jm1); CellIsRead(d, im1, jm1);
      var g2 := Get(im1, j); CellIsRead(d, im1, j);
      var g3 := Get(im1, jp1); CellIsRead(d, im1, jp1);
      var g4 := Get(i, jm1); CellIsRead(d, i, jm1);
      var g5 := Get(i, jp1); CellIsRead(d, i, jp1);
      var g6 := Get(ip1, jm1); CellIsRead(d, ip1, jm1);
      var g7 := Get(ip1, j); CellIsRead(d, ip1, j);
      var g8 := Get(ip1, jp1); CellIsRead(d, ip1, jp1);
      var neighbours :=
        g1 as int % 2 + g2 as int % 2 + g3 as int % 2 +
        g4 as int % 2 + g5 as int % 2 +
        g6 as int % 2 + g7 as int % 2 + g8 as int % 2;
      var c := Get(i, j); CellIsRead(d, i, j);
      c := c % 2;
      res := NextShade(c == 1, neighbours);
    }

    /**
     * One pass of the outer loop of `gol` (index.js:34-61): every pixel of
     * row i of `newData` gets its next-step bytes; earlier rows are kept.
     */
    method StepRow(newData: array<Byte>, i: nat, ghost next: seq<Byte>)
      requires Valid() && newData != imageData && newData.Length == BYTES && |next| == BYTES && i < H
      requires forall j: nat :: j < W ==> PixelReady(next, imageData[..], i, j)
      requires forall k :: 0 <= k < Offset(i, 0) ==> newData[k] == next[k]
      modifies newData
      ensures forall k :: 0 <= k < Offset(i + 1, 0) ==> newData[k] == next[k]
    {
      ghost var before := imageData[..];
      var j := 0;
      while j < W
        invariant 0 <= j <= W
        invariant imageData[..] == before
        invariant forall k :: 0 <= k < Offset(i, j) ==> newData[k] == next[k]
      {
        StepCell(newData, i, j, next);
        j := j + 1;
      }
    }

    /**
     * The body of the inner loop of `gol` (index.js:40-60): the four bytes of
     * pixel (i, j) of `newData` get the rule's shade and full opacity.
     */
    method StepCell(newData: array<Byte>, i: nat, j: nat, ghost next: seq<Byte>)
      requires Valid() && newData != imageData && newData.Length == BYTES && |next| == BYTES && i < H && j < W
      requires PixelReady(next, imageData[..], i, j)
      requires forall k :: 0 <= k < Offset(i, j) ==> newData[k] == next[k]
      modifies newData
      ensures forall k :: 0 <= k < Offset(i, j) + 4 ==> newData[k] == next[k]
    {
      ghost var before := imageData[..];
      var res := StepPixel(i, j);
      assert imageData[..] == before;
      // x = i * (canvas.width * 4) + j * 4, with canvas.width = W
      var x := Offset(i, j);
      RedIndexInRange(i, j);
      assert next[x] == res && next[x + 1] == res && next[x + 2] == res && next[x + 3] == 255;
      newData[x + 0] := res;
      newData[x + 1] := res;
      newData[x + 2] := res;
      newData[x + 3] := 255;
    }

    /**
     * `gol(src)` (index.js:25-67): unless the run is stale, compute one Life
     * step from the current buffer into a fresh one and make it current.
     */
    method Gol(runId: string)
      requires Valid()
      modifies this
      ensures Valid()
      ensures !old(hasState) || runId != old(src) ==> unchanged(this)
      ensures old(hasState) && runId == old(src) ==>
        fresh(imageData) && imageData[..] == NextFrame(old(imageData[..])) &&
        src == old(src) && hasState && originalData == old(originalData) &&
        imageCounter == old(imageCounter)
    {
      if !hasState || src != runId {
        return;
      }
      ghost var before := imageData[..];
      ghost var next := NextFrame(before);
      var newData := new Byte[imageData.Length];
      var i := 0;
      while i < H
        modifies newData
        invariant 0 <= i <= H
        invariant imageData[..] == before
        invariant forall k :: 0 <= k < Offset(i, 0) ==> newData[k] == next[k]
      {
        NextFrameRow(before, i);
        StepRow(newData, i, next);
        i := i + 1;
      }
      assert newData[..] == next;
      imageData := newData;
    }

    /**
     * The body of the loop of `dither` for the pixel whose red byte is at
     * offset i (index.js:95-106): the average of its original red, green and
     * blue bytes, shifted by the Bayer threshold, against 127.
     */
    method Shade(i: nat, bayer: (int, int) -> real) returns (color: Byte)
      requires Valid() && i % 4 == 0 && i < originalData.Length
      ensures color == DitherShade(originalData[..], bayer, i / 4)
    {
      var average := (originalData[i + 0] as int + originalData[i + 1] as int + originalData[i + 2] as int) as real / 3.0;
      assert canvasWidth == 300;
      var bx := (i / 4) % canvasWidth;
      var byy := (i / 4) / canvasWidth;
      var adjusted := average + 255.0 * bayer(bx, byy);
      color := 0;
      if adjusted > 127.0 {
        color := 255;
      }
    }

    /**
     * One iteration of the loop of `dither` (index.js:95-110): the pixel whose
     * red byte is at offset i gets its shade in all four channels.
     */
    method Paint(i: nat, bayer: (int, int) -> real, ghost p: nat, ghost original: seq<Byte>, ghost target: seq<Byte>)
      requires Valid() && i == 4 * p && p < PIXELS && |target| == BYTES && originalData[..] == original
      requires var v := DitherShade(original, bayer, p);
        target[i] == v && target[i + 1] == v && target[i + 2] == v && target[i + 3] == v
      requires forall k :: 0 <= k < i ==> imageData[k] == target[k]
      modifies imageData
      ensures forall k :: 0 <= k < i + 4 ==> imageData[k] == target[k]
    {
      QuarterOf(p, 0);
      var color := Shade(i, bayer);
      imageData[i + 0] := color;
      imageData[i + 1] := color;
      imageData[i + 2] := color;
      imageData[i + 3] := color;
    }

    /**
     * `dither(src)` (index.js:89-112): unless the run is stale, overwrite every
     * pixel in place with its black-or-white shade.  `bayer(bx, by)` stands
     * for `(Bayer128(bx, by) * 2 - 1) * 0.25`.
     */
    method Dither(runId: string, bayer: (int, int) -> real)
      requires Valid()
      modifies imageData
      ensures !hasState || runId != src ==> unchanged(imageData)
      ensures hasState && runId == src ==> imageData[..] == Dithered(originalData[..], bayer)
    {
      if !hasState || src != runId {
        return;
      }
      ghost var original := originalData[..];
      ghost var target := Dithered(original, bayer);
      var i := 0;
      ghost var p := 0;
      while i < imageData.Length
        invariant i == 4 * p && p <= PIXELS
        invariant originalData[..] == original
        invariant forall k :: 0 <= k < i ==> imageData[k] == target[k]
      {
        DitheredPixel(original, bayer, p);
        Paint(i, bayer, p, original, target);
        i, p := i + 4, p + 1;
      }
      assert imageData[..] == target;
    }
  }
}
