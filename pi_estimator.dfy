/**
 * The Buffon's-needle pi estimator (public/micro/2022/03/14.js): the
 * module-level state (line spaces, stick count and length, the random stick
 * placements, the last estimate shown), the canvas resize check, the
 * common-prefix routine that decides which digits of the estimate are shown
 * in bold, and the bookkeeping of `setBuffers`: the line positions, the
 * crossing count, the vertex positions and the vertex colours.
 *
 * `random(k)` stands for the value of the k-th call of `Math.random()` in one
 * call of an operation, and `cos`/`sin` for `Math.cos`/`Math.sin`. Numbers are
 * exact reals here rather than doubles.
 */
module PiEstimator {
  import opened Wrappers
  import Decimal

  /** `String(Math.PI)`. */
  const PiText: string := "3.141592653589793"

  /** `Math.PI`, as far as the stick angles use it. */
  const Pi: real := 3.141592653589793

  function Min(a: nat, b: nat): nat
  {
    if a <= b then a else b
  }

  /** The number of leading positions in which `a` and `b` agree. */
  function CommonPrefixLength(a: string, b: string): (n: nat)
    ensures n <= Min(|a|, |b|)
    ensures a[..n] == b[..n]
    ensures n < Min(|a|, |b|) ==> a[n] != b[n]
  {
    if |a| == 0 || |b| == 0 || a[0] != b[0] then 0
    else
      var n := 1 + CommonPrefixLength(a[1..], b[1..]);
      assert a[..n] == [a[0]] + a[1..][..n - 1];
      assert b[..n] == [b[0]] + b[1..][..n - 1];
      n
  }

  /**
   * The index `getStringStartMatches(a, b)` returns (14.js:33-41), as
   * written: the first index below `min(|a|, |b|)` where the strings differ,
   * or `min(|a|, |b|) - 1` when there is none.
   */
  function StartMatches(a: string, b: string): (m: int)
    ensures -1 <= m < Min(|a|, |b|)
    ensures forall i :: 0 <= i < m ==> a[i] == b[i]
    ensures (exists i :: 0 <= i < Min(|a|, |b|) && a[i] != b[i]) ==> 0 <= m && a[m] != b[m]
    ensures (forall i :: 0 <= i < Min(|a|, |b|) ==> a[i] == b[i]) ==> m == Min(|a|, |b|) - 1
  {
    var l, n := Min(|a|, |b|), CommonPrefixLength(a, b);
    assert forall i :: 0 <= i < n ==> a[i] == a[..n][i] && b[i] == b[..n][i];
    if n < l then n else l - 1
  }

  /** `getStringStartMatches(a, b)`: the loop computes `StartMatches`. */
  method GetStringStartMatches(a: string, b: string) returns (m: int)
    ensures m == StartMatches(a, b)
  {
    var l := Min(|a|, |b|);
    var i := 0;
    while i < l
      invariant 0 <= i <= l
      invariant a[..i] == b[..i]
    {
      if a[i] != b[i] {
        PrefixOfCommon(a, b, i);
        return i;
      }
      assert a[..i + 1] == a[..i] + [a[i]] && b[..i + 1] == b[..i] + [b[i]];
      i := i + 1;
    }
    PrefixOfCommon(a, b, l);
    m := l as int - 1;
  }

  /** Equal first i characters and a difference at i (or the end at i) pin the common prefix at i. */
  lemma {:induction false} PrefixOfCommon(a: string, b: string, i: nat)
    requires i <= Min(|a|, |b|) && a[..i] == b[..i]
    requires i < Min(|a|, |b|) ==> a[i] != b[i]
    ensures CommonPrefixLength(a, b) == i
    decreases i
  {
    if i > 0 {
      assert a[0] == a[..i][0] && b[0] == b[..i][0];
      assert a[1..][..i - 1] == a[..i][1..] && b[1..][..i - 1] == b[..i][1..];
      PrefixOfCommon(a[1..], b[1..], i - 1);
    }
  }

  /**
   * The quirk of `getStringStartMatches`: an estimate printed as "3.14"
   * agrees with pi in all four characters, yet the routine returns 3, so only
   * "3.1" is shown in bold.
   */
  lemma StartMatchesDropsLastDigit()
    ensures StartMatches("3.14", PiText) == 3 && CommonPrefixLength("3.14", PiText) == 4
  {
    PrefixOfCommon("3.14", PiText, 4);
  }

  /** Where `s.slice(0, m)` ends and `s.slice(m)` begins, for `s` of length `len`: a negative `m` counts from the end. */
  function SliceIndex(len: nat, m: int): (k: nat)
    ensures k <= len
    ensures 0 <= m <= len ==> k == m
    ensures m < 0 && len == 0 ==> k == 0
  {
    if m < 0 then (if len + m < 0 then 0 else len + m) else if m <= len then m else len
  }

  /** The overlay text with the first `bold` characters of the estimate `est` in bold, then the error. */
  function OverlayWith(est: string, bold: nat, percentError: string): string
    requires bold <= |est|
  {
    "<p><b>" + est[..bold] + "</b>" + est[bold..] + "</p><p>Error: " + percentError + "%</p>"
  }

  /** The overlay `setEstimation` writes (14.js:49-51): the first `getStringStartMatches` characters in bold. */
  function Overlay(est: string, percentError: string): string
  {
    OverlayWith(est, SliceIndex(|est|, StartMatches(est, PiText)), percentError)
  }

  /** The overlay evidently intended: every character of the estimate that agrees with pi in bold. */
  function IntendedOverlay(est: string, percentError: string): string
  {
    OverlayWith(est, CommonPrefixLength(est, PiText), percentError)
  }

  /**
   * The overlay as written bolds the same digits as the intended one when
   * the estimate departs from pi within its length, and one character fewer
   * when the estimate is a prefix of pi's digits (or pi's of it).
   */
  lemma OverlayAgainstIntended(est: string, percentError: string)
    ensures var n := CommonPrefixLength(est, PiText);
      (n < Min(|est|, |PiText|) || est == "" ==> Overlay(est, percentError) == IntendedOverlay(est, percentError)) &&
      (n == Min(|est|, |PiText|) && est != "" ==> Overlay(est, percentError) == OverlayWith(est, n - 1, percentError))
  {
    SliceOfStartMatches(est, PiText);
  }

  /** Where `slice` cuts at `getStringStartMatches(a, b)`, against the common prefix length. */
  lemma SliceOfStartMatches(a: string, b: string)
    requires |b| > 0
    ensures var l, n, k := Min(|a|, |b|), CommonPrefixLength(a, b), SliceIndex(|a|, StartMatches(a, b));
      (n < l || a == "" ==> k == n) && (n == l && a != "" ==> k == n - 1)
  {
  }

  /** The estimate "3.14": the program shows `<b>3.1</b>4`, where all four characters agree with pi. */
  lemma OverlayDropsLastDigit(percentError: string)
    ensures Overlay("3.14", percentError) == "<p><b>" + "3.1" + "</b>" + "4" + "</p><p>Error: " + percentError + "%</p>"
    ensures IntendedOverlay("3.14", percentError) == "<p><b>" + "3.14" + "</b>" + "" + "</p><p>Error: " + percentError + "%</p>"
  {
    var est := "3.14";
    OverlayCuts(est, percentError);
    assert est[..3] == "3.1" && est[3..] == "4";
    assert est[..4] == est && est[4..] == "";
  }

  lemma OverlayCuts(est: string, percentError: string)
    requires est == "3.14"
    ensures Overlay(est, percentError) == OverlayWith(est, 3, percentError)
    ensures IntendedOverlay(est, percentError) == OverlayWith(est, 4, percentError)
  {
    StartMatchesDropsLastDigit();
  }

  /** The bold part of the overlay is the longest prefix of the estimate that is also a prefix of pi. */
  lemma BoldPartIsLongestMatch(est: string)
    ensures var m := CommonPrefixLength(est, PiText);
      est[..m] <= PiText && (m < |est| ==> !(est[..m + 1] <= PiText))
  {
    LongestCommonPrefix(est, PiText);
  }

  lemma LongestCommonPrefix(a: string, b: string)
    ensures var m := CommonPrefixLength(a, b);
      a[..m] <= b && (m < |a| ==> !(a[..m + 1] <= b))
  {
    var m := CommonPrefixLength(a, b);
    assert a[..m] == b[..m];
  }

  /** A canvas element: its drawing-buffer size and its displayed size. */
  class Canvas {
    var width: int
    var height: int
    var clientWidth: int
    var clientHeight: int

    constructor (width: int, height: int, clientWidth: int, clientHeight: int)
      ensures this.width == width && this.height == height
      ensures this.clientWidth == clientWidth && this.clientHeight == clientHeight
    {
      this.width, this.height := width, height;
      this.clientWidth, this.clientHeight := clientWidth, clientHeight;
    }

    /**
     * `resizeCanvasToDisplaySize(canvas)` (14.js:14-30): make the buffer the
     * displayed size, and say whether it was not.
     */
    method ResizeToDisplaySize() returns (needResize: bool)
      modifies this
      ensures width == clientWidth && height == clientHeight
      ensures clientWidth == old(clientWidth) && clientHeight == old(clientHeight)
      ensures needResize <==> old(width) != old(clientWidth) || old(height) != old(clientHeight)
    {
      var displayWidth, displayHeight := clientWidth, clientHeight;
      needResize := width != displayWidth || height != displayHeight;
      if needResize {
        width := displayWidth;
        height := displayHeight;
      }
    }

    /** Resizing twice in a row: the second call finds nothing to do. */
    method ResizeTwice() returns (first: bool, second: bool)
      modifies this
      ensures !second
      ensures width == clientWidth && height == clientHeight
      ensures first <==> old(width) != old(clientWidth) || old(height) != old(clientHeight)
      ensures clientWidth == old(clientWidth) && clientHeight == old(clientHeight)
    {
      first := ResizeToDisplaySize();
      second := ResizeToDisplaySize();
    }
  }

  /** One vertex colour, four channels. */
  const Red: seq<real> := [1.0, 0.0, 0.0, 1.0]
  const Grey: seq<real> := [0.2, 0.2, 0.2, 1.0]

  /**
   * The scan of the inner loop of `setBuffers` (14.js:199-207) over the line
   * positions for a stick spanning [l, h]: it counts a crossing at the first
   * line inside the span and gives up at the first line past it.
   */
  predicate Crosses(l: real, h: real, xs: seq<real>)
    decreases |xs|
  {
    if |xs| == 0 then false
    else if l <= xs[0] && xs[0] <= h then true
    else if h < xs[0] then false
    else Crosses(l, h, xs[1..])
  }

  predicate Increasing(xs: seq<real>)
  {
    forall i, j :: 0 <= i < j < |xs| ==> xs[i] < xs[j]
  }

  /** Over increasing line positions the scan finds a crossing exactly when some line lies inside the span. */
  lemma {:induction false} CrossesIffLineInside(l: real, h: real, xs: seq<real>)
    requires Increasing(xs)
    ensures Crosses(l, h, xs) <==> exists k :: 0 <= k < |xs| && l <= xs[k] <= h
    decreases |xs|
  {
    if |xs| > 0 && !(l <= xs[0] && xs[0] <= h) {
      if h < xs[0] {
        assert forall k :: 0 <= k < |xs| ==> xs[0] <= xs[k];
      } else {
        CrossesIffLineInside(l, h, xs[1..]);
        if exists k :: 0 <= k < |xs| && l <= xs[k] <= h {
          var k :| 0 <= k < |xs| && l <= xs[k] <= h;
          assert k > 0 && xs[1..][k - 1] == xs[k];
        }
      }
    }
  }

  function MinReal(a: real, b: real): real { if a <= b then a else b }
  function MaxReal(a: real, b: real): real { if a <= b then b else a }

  /** The number of sticks, with x extents given by `cxs` and `dxs`, that the scan counts as crossing. */
  function CrossingCount(cxs: seq<real>, dxs: seq<real>, xs: seq<real>): (n: nat)
    requires |cxs| == |dxs|
    ensures n <= |cxs|
    decreases |cxs|
  {
    if |cxs| == 0 then 0
    else
      var last := |cxs| - 1;
      CrossingCount(cxs[..last], dxs[..last], xs) +
        (if Crosses(MinReal(cxs[last], dxs[last]), MaxReal(cxs[last], dxs[last]), xs) then 1 else 0)
  }

  /** The line positions (14.js:176-183): x = -1, then `spaces + 1` steps of the gap. */
  method LinePositions(spaces: nat, gap: real) returns (xs: seq<real>)
    ensures |xs| == spaces + 2
    ensures forall k :: 0 <= k < |xs| ==> xs[k] == -1.0 + k as real * gap
  {
    var x := -1.0;
    xs := [x];
    var i := 0;
    while i < spaces + 1
      invariant 0 <= i <= spaces + 1
      invariant |xs| == i + 1 && x == -1.0 + i as real * gap
      invariant forall k :: 0 <= k < |xs| ==> xs[k] == -1.0 + k as real * gap
    {
      x := x + gap;
      xs := xs + [x];
      i := i + 1;
    }
  }

  /** With a positive gap the line positions increase. */
  lemma LinePositionsIncrease(xs: seq<real>, gap: real)
    requires gap > 0.0
    requires forall k :: 0 <= k < |xs| ==> xs[k] == -1.0 + k as real * gap
    ensures Increasing(xs)
  {
    forall i, j | 0 <= i < j < |xs| ensures xs[i] < xs[j] {
      assert (j as real - i as real) * gap > 0.0;
    }
  }

  /** The crossing count of the sticks loop (14.js:186-208): each stick counts at most once. */
  method CountCrossings(cxs: seq<real>, dxs: seq<real>, xs: seq<real>) returns (crossCount: nat)
    requires |cxs| == |dxs|
    ensures crossCount == CrossingCount(cxs, dxs, xs) && crossCount <= |cxs|
  {
    crossCount := 0;
    var i := 0;
    while i < |cxs|
      invariant 0 <= i <= |cxs|
      invariant crossCount == CrossingCount(cxs[..i], dxs[..i], xs)
    {
      var l, h := MinReal(cxs[i], dxs[i]), MaxReal(cxs[i], dxs[i]);
      var crossed := ScanLines(l, h, xs);
      if crossed {
        crossCount := crossCount + 1;
      }
      assert cxs[..i + 1][..i] == cxs[..i] && dxs[..i + 1][..i] == dxs[..i];
      i := i + 1;
    }
    assert cxs[..i] == cxs && dxs[..i] == dxs;
  }

  /** The inner loop over the line positions with its two `break`s. */
  method ScanLines(l: real, h: real, xs: seq<real>) returns (crossed: bool)
    ensures crossed == Crosses(l, h, xs)
  {
    var k := 0;
    while k < |xs|
      invariant 0 <= k <= |xs|
      invariant Crosses(l, h, xs) == Crosses(l, h, xs[k..])
    {
      var x := xs[k];
      if l <= x && x <= h {
        return true;
      }
      if h < x {
        return false;
      }
      assert xs[k..][1..] == xs[k + 1..];
      k := k + 1;
    }
    return false;
  }

  /** n copies of the vertex colour c. */
  function Repeat(c: seq<real>, n: nat): (r: seq<real>)
    ensures |r| == n * |c|
  {
    if n == 0 then [] else Repeat(c, n - 1) + c
  }

  /** Vertex v of n copies of a four-channel colour is that colour. */
  lemma {:induction false} RepeatAt(c: seq<real>, n: nat, v: nat)
    requires |c| == 4 && v < n
    ensures Repeat(c, n)[4 * v..4 * v + 4] == c
  {
    if v == n - 1 {
      assert Repeat(c, n)[4 * v..4 * v + 4] == (Repeat(c, n - 1) + c)[|Repeat(c, n - 1)|..];
    } else {
      RepeatAt(c, n - 1, v);
      assert Repeat(c, n)[4 * v..4 * v + 4] == Repeat(c, n - 1)[4 * v..4 * v + 4];
    }
  }

  /**
   * The colour buffer (14.js:229-238): a red vertex for each of the
   * `2 sticks` stick ends, then a grey one for each of the `2 (spaces + 1)`
   * line ends.
   */
  method Colors(sticks: nat, spaces: nat) returns (colors: seq<real>)
    ensures colors == Repeat(Red, 2 * sticks) + Repeat(Grey, 2 * (spaces + 1))
  {
    colors := [];
    var i := 0;
    while i < sticks * 2
      invariant 0 <= i <= 2 * sticks && colors == Repeat(Red, i)
    {
      colors := colors + Red;
      i := i + 1;
    }
    i := 0;
    while i < spaces + 1
      invariant 0 <= i <= spaces + 1 && colors == Repeat(Red, 2 * sticks) + Repeat(Grey, 2 * i)
    {
      colors := colors + Grey;
      colors := colors + Grey;
      assert Repeat(Grey, 2 * i + 2) == Repeat(Grey, 2 * i) + Grey + Grey;
      i := i + 1;
    }
  }

  /**
   * The colour buffer holds `2 sticks + 2 (spaces + 1)` vertices, the number
   * the two `drawArrays` calls draw (14.js:330-334): red for the sticks, then
   * grey for the lines.
   */
  lemma ColorLayout(sticks: nat, spaces: nat)
    ensures var colors := Repeat(Red, 2 * sticks) + Repeat(Grey, 2 * (spaces + 1));
      |colors| == 4 * (sticks * 2 + (spaces + 1) * 2) &&
      (forall v :: 0 <= v < 2 * sticks ==> colors[4 * v..4 * v + 4] == Red) &&
      (forall v :: 2 * sticks <= v < 2 * sticks + 2 * (spaces + 1) ==> colors[4 * v..4 * v + 4] == Grey)
  {
    var red, grey := Repeat(Red, 2 * sticks), Repeat(Grey, 2 * (spaces + 1));
    var colors := red + grey;
    forall v | 0 <= v < 2 * sticks ensures colors[4 * v..4 * v + 4] == Red {
      RepeatAt(Red, 2 * sticks, v);
      assert colors[4 * v..4 * v + 4] == red[4 * v..4 * v + 4];
    }
    forall v | 2 * sticks <= v < 2 * sticks + 2 * (spaces + 1) ensures colors[4 * v..4 * v + 4] == Grey {
      var w := v - 2 * sticks;
      RepeatAt(Grey, 2 * (spaces + 1), w);
      assert colors[4 * v..4 * v + 4] == grey[4 * w..4 * w + 4];
    }
  }

  /** `c + offset * stick_length`, with offset the cosine or sine of the stick's angle (14.js:191-194). */
  function FarEnd(c: real, offset: real, length: real): real
  {
    c + offset * length
  }

  /** `positions.push(cx, cy, dx, dy)` for each stick in turn. */
  function StickVertices(cx: seq<real>, cy: seq<real>, dx: seq<real>, dy: seq<real>): (r: seq<real>)
    requires |cx| == |cy| == |dx| == |dy|
    ensures |r| == 4 * |cx|
  {
    var n := |cx|;
    if n == 0 then []
    else StickVertices(cx[..n - 1], cy[..n - 1], dx[..n - 1], dy[..n - 1]) + [cx[n - 1], cy[n - 1], dx[n - 1], dy[n - 1]]
  }

  /** `positions.push(x, -1.0); positions.push(x, 1.0)` for each line position in turn. */
  function LineVertices(xs: seq<real>): (r: seq<real>)
    ensures |r| == 4 * |xs|
  {
    var n := |xs|;
    if n == 0 then [] else LineVertices(xs[..n - 1]) + [xs[n - 1], -1.0, xs[n - 1], 1.0]
  }

  lemma StickVerticesSnoc(cx: seq<real>, cy: seq<real>, dx: seq<real>, dy: seq<real>, i: nat)
    requires |cx| == |cy| == |dx| == |dy| && i < |cx|
    ensures StickVertices(cx[..i + 1], cy[..i + 1], dx[..i + 1], dy[..i + 1]) ==
      StickVertices(cx[..i], cy[..i], dx[..i], dy[..i]) + [cx[i], cy[i], dx[i], dy[i]]
  {
    assert cx[..i + 1][..i] == cx[..i] && cy[..i + 1][..i] == cy[..i];
    assert dx[..i + 1][..i] == dx[..i] && dy[..i + 1][..i] == dy[..i];
  }

  /** Stick i occupies vertices 2 i and 2 i + 1: its centre, then its far end. */
  lemma {:induction false} StickVerticesAt(cx: seq<real>, cy: seq<real>, dx: seq<real>, dy: seq<real>, i: nat)
    requires |cx| == |cy| == |dx| == |dy| && i < |cx|
    ensures StickVertices(cx, cy, dx, dy)[4 * i..4 * i + 4] == [cx[i], cy[i], dx[i], dy[i]]
    decreases |cx|
  {
    var n := |cx|;
    var prefix := StickVertices(cx[..n - 1], cy[..n - 1], dx[..n - 1], dy[..n - 1]);
    var last := [cx[n - 1], cy[n - 1], dx[n - 1], dy[n - 1]];
    assert StickVertices(cx, cy, dx, dy) == prefix + last;
    ConcatSlice(prefix, last, 4 * i, 4 * i + 4);
    if i < n - 1 {
      StickVerticesAt(cx[..n - 1], cy[..n - 1], dx[..n - 1], dy[..n - 1], i);
    } else {
      assert last[0..4] == last;
    }
  }

  /** Line k occupies two vertices, at the bottom and the top of the view. */
  lemma {:induction false} LineVerticesAt(xs: seq<real>, k: nat)
    requires k < |xs|
    ensures LineVertices(xs)[4 * k..4 * k + 4] == [xs[k], -1.0, xs[k], 1.0]
    decreases |xs|
  {
    var n := |xs|;
    var prefix := LineVertices(xs[..n - 1]);
    var last := [xs[n - 1], -1.0, xs[n - 1], 1.0];
    assert LineVertices(xs) == prefix + last;
    ConcatSlice(prefix, last, 4 * k, 4 * k + 4);
    if k < n - 1 {
      LineVerticesAt(xs[..n - 1], k);
    } else {
      assert last[0..4] == last;
    }
  }

  /**
   * The layout of the position buffer: stick i's centre and far end at
   * vertices 2 i and 2 i + 1, then line k's bottom and top ends. With
   * `spaces + 2` line positions the buffer holds two vertices more than the
   * `2 sticks + 2 (spaces + 1)` that `draw` hands to `drawArrays`
   * (14.js:330-334), so the last line, a gap beyond the right edge, is never
   * drawn although the crossing count uses it.
   */
  lemma PositionLayout(cx: seq<real>, cy: seq<real>, dx: seq<real>, dy: seq<real>, xs: seq<real>, spaces: nat)
    requires |cx| == |cy| == |dx| == |dy| && |xs| == spaces + 2
    ensures var p, n := StickVertices(cx, cy, dx, dy) + LineVertices(xs), 4 * |cx|;
      |p| / 2 == 2 * |cx| + 2 * (spaces + 2) &&
      |p| / 2 == (|cx| * 2 + (spaces + 1) * 2) + 2 &&
      (forall i :: 0 <= i < |cx| ==> p[4 * i..4 * i + 4] == [cx[i], cy[i], dx[i], dy[i]]) &&
      (forall k :: 0 <= k < |xs| ==> p[n + 4 * k..n + 4 * k + 4] == [xs[k], -1.0, xs[k], 1.0])
  {
    forall i | 0 <= i < |cx| ensures (StickVertices(cx, cy, dx, dy) + LineVertices(xs))[4 * i..4 * i + 4] == [cx[i], cy[i], dx[i], dy[i]] {
      StickSlot(cx, cy, dx, dy, xs, i);
    }
    forall k | 0 <= k < |xs| ensures (StickVertices(cx, cy, dx, dy) + LineVertices(xs))[4 * |cx| + 4 * k..4 * |cx| + 4 * k + 4] == [xs[k], -1.0, xs[k], 1.0] {
      LineSlot(cx, cy, dx, dy, xs, k);
    }
  }

  lemma StickSlot(cx: seq<real>, cy: seq<real>, dx: seq<real>, dy: seq<real>, xs: seq<real>, i: nat)
    requires |cx| == |cy| == |dx| == |dy| && i < |cx|
    ensures (StickVertices(cx, cy, dx, dy) + LineVertices(xs))[4 * i..4 * i + 4] == [cx[i], cy[i], dx[i], dy[i]]
  {
    var a, b := StickVertices(cx, cy, dx, dy), LineVertices(xs);
    StickVerticesAt(cx, cy, dx, dy, i);
    ConcatSlice(a, b, 4 * i, 4 * i + 4);
  }

  lemma LineSlot(cx: seq<real>, cy: seq<real>, dx: seq<real>, dy: seq<real>, xs: seq<real>, k: nat)
    requires |cx| == |cy| == |dx| == |dy| && k < |xs|
    ensures (StickVertices(cx, cy, dx, dy) + LineVertices(xs))[4 * |cx| + 4 * k..4 * |cx| + 4 * k + 4] == [xs[k], -1.0, xs[k], 1.0]
  {
    var a, b := StickVertices(cx, cy, dx, dy), LineVertices(xs);
    LineVerticesAt(xs, k);
    SliceAfter(a, b, 4 * |cx|, 4 * k);
  }

  /** A slice of four beyond a first part of length n is the matching slice of the second part. */
  lemma SliceAfter(a: seq<real>, b: seq<real>, n: nat, i: nat)
    requires |a| == n && i + 4 <= |b|
    ensures (a + b)[n + i..n + i + 4] == b[i..i + 4]
  {
    ConcatSlice(a, b, n + i, n + i + 4);
  }

  /** A slice of a concatenation that lies within one of its two parts. */
  lemma ConcatSlice(a: seq<real>, b: seq<real>, i: nat, j: nat)
    requires i <= j <= |a| + |b|
    ensures j <= |a| ==> (a + b)[i..j] == a[i..j]
    ensures |a| <= i ==> (a + b)[i..j] == b[i - |a|..j - |a|]
  {
  }

  /** Stick i's centre and angle come from draws 3 i, 3 i + 1 and 3 i + 2 (14.js:157-159). */
  predicate Placed(random: nat -> real, cx: seq<real>, cy: seq<real>, angle: seq<real>, i: nat)
    requires i < |cx| && i < |cy| && i < |angle|
  {
    cx[i] == random(3 * i) * 2.0 - 1.0 &&
    cy[i] == random(3 * i + 1) * 2.0 - 1.0 &&
    angle[i] == 2.0 * Pi * random(3 * i + 2)
  }

  /**
   * The module-level state of the estimator (14.js:3-11): the number of
   * spaces between lines, the number of sticks and their length, the random
   * stick placements, the last estimate shown and the overlay text.
   */
  class Estimator {
    var spaces: nat
    var sticks: nat
    var stickLength: real
    var cxRand: seq<real>
    var cyRand: seq<real>
    var angleRand: seq<real>
    var lastEst: Option<real>
    var overlay: string
    var searching: bool

    /** The placements are drawn for the current stick count, and the lines slider gives at least one space. */
    predicate Valid()
      reads this
    {
      spaces >= 1 && |cxRand| == sticks && |cyRand| == sticks && |angleRand| == sticks
    }

    /** The initial globals (14.js:3-11) and the `initRands()` of `main` (14.js:143). */
    constructor (random: nat -> real)
      ensures Valid() && spaces == 4 && sticks == 1000 && stickLength == 0.4
      ensures lastEst == None && !searching
      ensures forall i :: 0 <= i < sticks ==> Placed(random, cxRand, cyRand, angleRand, i)
    {
      spaces, sticks, stickLength := 4, 1000, 0.4;
      cxRand, cyRand, angleRand := [], [], [];
      lastEst, overlay, searching := None, "", false;
      new;
      InitRands(random);
    }

    /**
     * `initRands()` (14.js:151-161): discard the placements and draw
     * `sticks` new ones.
     */
    method InitRands(random: nat -> real)
      modifies this
      ensures spaces == old(spaces) && sticks == old(sticks) && stickLength == old(stickLength)
      ensures lastEst == old(lastEst) && overlay == old(overlay) && searching == old(searching)
      ensures |cxRand| == sticks && |cyRand| == sticks && |angleRand| == sticks
      ensures forall i :: 0 <= i < sticks ==> Placed(random, cxRand, cyRand, angleRand, i)
    {
      cxRand, cyRand, angleRand := [], [], [];
      var i := 0;
      while i < sticks
        invariant 0 <= i <= sticks
        invariant |cxRand| == i && |cyRand| == i && |angleRand| == i
        invariant spaces == old(spaces) && sticks == old(sticks) && stickLength == old(stickLength)
        invariant lastEst == old(lastEst) && overlay == old(overlay) && searching == old(searching)
        invariant forall k :: 0 <= k < i ==> Placed(random, cxRand, cyRand, angleRand, k)
      {
        ghost var cx, cy, angle := cxRand, cyRand, angleRand;
        cxRand := cxRand + [random(3 * i) * 2.0 - 1.0];
        cyRand := cyRand + [random(3 * i + 1) * 2.0 - 1.0];
        angleRand := angleRand + [2.0 * Pi * random(3 * i + 2)];
        forall k | 0 <= k < i + 1 ensures Placed(random, cxRand, cyRand, angleRand, k) {
          if k < i {
            assert Placed(random, cx, cy, angle, k);
            assert cxRand[k] == cx[k] && cyRand[k] == cy[k] && angleRand[k] == angle[k];
          }
        }
        i := i + 1;
      }
    }

    /** The lines slider (14.js:57-60): `spaces = lines - 1`. */
    method SetLines(lines: nat)
      requires Valid() && lines >= 2
      modifies this
      ensures Valid() && spaces == lines - 1
      ensures sticks == old(sticks) && cxRand == old(cxRand) && cyRand == old(cyRand) && angleRand == old(angleRand)
      ensures stickLength == old(stickLength) && lastEst == old(lastEst) && overlay == old(overlay) && searching == old(searching)
    {
      spaces := lines - 1;
    }

    /** The sticks slider (14.js:62-66): `sticks = 10^power`, then fresh placements. */
    method SetSticks(power: nat, random: nat -> real)
      requires Valid()
      modifies this
      ensures Valid() && sticks == Decimal.Pow10(power) && spaces == old(spaces)
      ensures forall i :: 0 <= i < sticks ==> Placed(random, cxRand, cyRand, angleRand, i)
      ensures stickLength == old(stickLength) && lastEst == old(lastEst) && overlay == old(overlay) && searching == old(searching)
    {
      sticks := Decimal.Pow10(power);
      InitRands(random);
    }

    /** The far ends of the sticks: `cx + cos(angle) * stick_length` and `cy + sin(angle) * stick_length`. */
    function FarEnds(centres: seq<real>, trig: real -> real): (ends: seq<real>)
      reads this
      requires |centres| == |angleRand|
      ensures |ends| == |centres|
    {
      var angle, length := angleRand, stickLength;
      seq(|centres|, i requires 0 <= i < |centres| => FarEnd(centres[i], trig(angle[i]), length))
    }

    /**
     * The position buffer of `setBuffers` (14.js:185-214): two vertices per
     * stick, its centre and its far end, then two per line position, at the
     * bottom and the top of the view.
     */
    method Positions(xs: seq<real>, cos: real -> real, sin: real -> real) returns (positions: seq<real>)
      requires Valid()
      ensures positions == StickVertices(cxRand, cyRand, FarEnds(cxRand, cos), FarEnds(cyRand, sin)) + LineVertices(xs)
    {
      ghost var dxs, dys := FarEnds(cxRand, cos), FarEnds(cyRand, sin);
      positions := [];
      var i := 0;
      while i < sticks
        invariant 0 <= i <= sticks
        invariant positions == StickVertices(cxRand[..i], cyRand[..i], dxs[..i], dys[..i])
      {
        var cx, cy, angle := cxRand[i], cyRand[i], angleRand[i];
        var dx := FarEnd(cx, cos(angle), stickLength);
        var dy := FarEnd(cy, sin(angle), stickLength);
        positions := positions + [cx, cy, dx, dy];
        assert dx == dxs[i] && dy == dys[i];
        StickVerticesSnoc(cxRand, cyRand, dxs, dys, i);
        i := i + 1;
      }
      assert cxRand[..i] == cxRand && cyRand[..i] == cyRand && dxs[..i] == dxs && dys[..i] == dys;
      positions := PushLines(positions, xs);
    }

    /** The second loop of the position buffer: two vertices per line position. */
    static method PushLines(sticksPart: seq<real>, xs: seq<real>) returns (positions: seq<real>)
      ensures positions == sticksPart + LineVertices(xs)
    {
      positions := sticksPart;
      var k := 0;
      while k < |xs|
        invariant 0 <= k <= |xs|
        invariant positions == sticksPart + LineVertices(xs[..k])
      {
        positions := positions + [xs[k], -1.0];
        positions := positions + [xs[k], 1.0];
        assert xs[..k + 1][..k] == xs[..k];
        k := k + 1;
      }
      assert xs[..k] == xs;
    }

    /**
     * `setBuffers` (14.js:164-246) without the estimate: redraw the
     * placements while searching, then lay out the buffers.
     */
    method SetBuffers(random: nat -> real, cos: real -> real, sin: real -> real)
      returns (positions: seq<real>, colors: seq<real>, crossCount: nat)
      requires Valid()
      modifies this
      ensures Valid() && spaces == old(spaces) && sticks == old(sticks)
      ensures stickLength == old(stickLength) && lastEst == old(lastEst) && overlay == old(overlay) && searching == old(searching)
      ensures old(searching) ==> forall i :: 0 <= i < sticks ==> Placed(random, cxRand, cyRand, angleRand, i)
      ensures !old(searching) ==> cxRand == old(cxRand) && cyRand == old(cyRand) && angleRand == old(angleRand)
      ensures crossCount <= sticks
      ensures var gap := 2.0 / spaces as real;
        crossCount == CrossingCount(cxRand, FarEnds(cxRand, cos), Lines(spaces, gap))
      ensures positions == StickVertices(cxRand, cyRand, FarEnds(cxRand, cos), FarEnds(cyRand, sin)) +
        LineVertices(Lines(spaces, 2.0 / spaces as real))
      ensures colors == Repeat(Red, 2 * sticks) + Repeat(Grey, 2 * (spaces + 1))
      ensures |positions| == 4 * sticks + 4 * (spaces + 2)
      ensures |colors| == 4 * (2 * sticks + 2 * (spaces + 1))
    {
      if searching {
        InitRands(random);
      }
      positions, colors, crossCount := Buffers(cos, sin);
    }

    /**
     * The rest of `setBuffers` (14.js:172-246): lay out the lines, count the
     * crossings and fill the position and colour buffers.
     */
    method Buffers(cos: real -> real, sin: real -> real) returns (positions: seq<real>, colors: seq<real>, crossCount: nat)
      requires Valid()
      ensures crossCount <= sticks
      ensures var gap := 2.0 / spaces as real;
        crossCount == CrossingCount(cxRand, FarEnds(cxRand, cos), Lines(spaces, gap))
      ensures positions == StickVertices(cxRand, cyRand, FarEnds(cxRand, cos), FarEnds(cyRand, sin)) +
        LineVertices(Lines(spaces, 2.0 / spaces as real))
      ensures colors == Repeat(Red, 2 * sticks) + Repeat(Grey, 2 * (spaces + 1))
      ensures |positions| == 4 * sticks + 4 * (spaces + 2)
      ensures |colors| == 4 * (2 * sticks + 2 * (spaces + 1))
    {
      var w := 2.0;
      var lineGap := w / spaces as real;
      var xs := LinePositions(spaces, lineGap);
      LinesAre(xs, spaces, lineGap);
      positions := Positions(xs, cos, sin);
      crossCount := CountCrossings(cxRand, FarEnds(cxRand, cos), xs);
      colors := Colors(sticks, spaces);
    }

    /**
     * `setEstimation(est)` (14.js:44-53): a new estimate is remembered and
     * shown with the digits that agree with pi in bold; the same estimate
     * again changes nothing. `text` is `String(est)` and `percentError` the
     * formatted error.
     */
    method SetEstimation(est: real, text: string, percentError: string)
      modifies this
      ensures Some(est) == old(lastEst) ==> lastEst == old(lastEst) && overlay == old(overlay)
      ensures Some(est) != old(lastEst) ==> lastEst == Some(est) && overlay == Overlay(text, percentError)
      ensures spaces == old(spaces) && sticks == old(sticks) && stickLength == old(stickLength) && searching == old(searching)
      ensures cxRand == old(cxRand) && cyRand == old(cyRand) && angleRand == old(angleRand)
    {
      if Some(est) != lastEst {
        lastEst := Some(est);
        var m := GetStringStartMatches(text, PiText);
        overlay := OverlayWith(text, SliceIndex(|text|, m), percentError);
      }
    }
  }

  /** The line positions as a value: -1 plus k gaps, for k up to spaces + 1. */
  function Lines(spaces: nat, gap: real): (xs: seq<real>)
    ensures |xs| == spaces + 2
  {
    seq(spaces + 2, k requires 0 <= k < spaces + 2 => -1.0 + k as real * gap)
  }

  lemma LinesAre(xs: seq<real>, spaces: nat, gap: real)
    requires |xs| == spaces + 2 && forall k :: 0 <= k < |xs| ==> xs[k] == -1.0 + k as real * gap
    ensures xs == Lines(spaces, gap)
  {
    assert forall k :: 0 <= k < |xs| ==> xs[k] == Lines(spaces, gap)[k];
  }

  /**
   * The line layout: `spaces + 2` increasing positions from -1 in steps of
   * `2 / spaces`, so the last one lies a gap beyond the right edge at 1; the
   * `(spaces + 1) * 2` line vertices drawn (14.js:334) stop at the edge, one
   * line short of the `2 (spaces + 2)` the buffer holds.
   */
  lemma LineLayout(spaces: nat)
    requires spaces >= 1
    ensures var gap := 2.0 / spaces as real; var xs := Lines(spaces, gap);
      Increasing(xs) && xs[0] == -1.0 && xs[spaces] == 1.0 && xs[spaces + 1] == 1.0 + gap
  {
    var gap := 2.0 / spaces as real;
    assert spaces as real * gap == 2.0;
    LinePositionsIncrease(Lines(spaces, gap), gap);
  }

  /** Over the line layout, a stick counts as crossing exactly when some line position lies within its x extent. */
  lemma StickCrossesIffLineInside(spaces: nat, cx: real, dx: real)
    requires spaces >= 1
    ensures var xs := Lines(spaces, 2.0 / spaces as real);
      Crosses(MinReal(cx, dx), MaxReal(cx, dx), xs) <==>
      exists k :: 0 <= k < |xs| && MinReal(cx, dx) <= xs[k] <= MaxReal(cx, dx)
  {
    LineLayout(spaces);
    CrossesIffLineInside(MinReal(cx, dx), MaxReal(cx, dx), Lines(spaces, 2.0 / spaces as real));
  }
}
