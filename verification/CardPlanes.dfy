/**
 * The card's pictures: a still in planes (BT.709 limited range), and one
 * yuva420p frame of it drawn some rows down, between whole rows by a blend.
 * Colours are reals: rounding to single precision is not modelled.
 */
module CardPlanes {
  import opened Common
  import opened Bytes

  const TRAVEL := 12

  // ---- Bytes --------------------------------------------------------------------------

  /** Storing a number in a byte of a buffer: its fraction dropped, modulo 256. */
  function ByteOf(x: real): byte {
    (if x >= 0.0 then x.Floor else -(-x).Floor) % 256
  }

  /** Inside the byte range, storing half a unit more rounds, and nothing wraps. */
  lemma StoredIsRounded(x: real, lo: nat, hi: nat)
    requires hi < 256 && lo as real <= x <= hi as real
    ensures ByteOf(x + 0.5) == Round(x) && lo <= ByteOf(x + 0.5) <= hi
  {
    assert lo <= (x + 0.5).Floor <= hi;
  }

  /** A product, named so that the proofs can speak of it whole. */
  function Times(a: real, b: real): real {
    a * b
  }

  // ---- One plane ----------------------------------------------------------------------

  /** A plane of a still: `width` by `height` values, row by row. */
  datatype Plane = Plane(width: nat, height: nat, values: seq<real>) {
    predicate Valid() {
      |values| == width * height
    }
    predicate Within(lo: real, hi: real) {
      forall i :: 0 <= i < |values| ==> lo <= values[i] <= hi
    }
  }

  lemma CellIsThere(p: Plane, row: nat, c: nat)
    requires p.Valid() && row < p.height && c < p.width
    ensures row * p.width + c < |p.values|
  {
    assert (row + 1) * p.width <= p.height * p.width;
    assert (row + 1) * p.width == row * p.width + p.width;
  }

  /** The plane's value in column `c` of a row, and `outside` where there is no such row. */
  function ValueAt(p: Plane, row: int, c: nat, outside: real): real
    requires p.Valid() && c < p.width
  {
    if 0 <= row < p.height then CellIsThere(p, row, c); p.values[row * p.width + c] else outside
  }

  /** What is drawn in column `c` of row `r`, before it is stored. */
  function Blend(p: Plane, r: nat, c: nat, dy: real, outside: real): real
    requires p.Valid() && c < p.width
  {
    var row := r as real - dy;
    var top, f := row.Floor, row - row.Floor as real;
    var v0, v1 := ValueAt(p, top, c, outside), ValueAt(p, top + 1, c, outside);
    v0 + Times(v1 - v0, f)
  }

  predicate RowIsOutside(p: Plane, r: nat, dy: real) {
    var top := (r as real - dy).Floor;
    !(0 <= top < p.height) && !(0 <= top + 1 < p.height)
  }

  function Cell(p: Plane, r: nat, c: nat, dy: real, gain: real, outside: real): byte
    requires p.Valid() && c < p.width
  {
    if RowIsOutside(p, r, dy) then Round(Times(outside, gain)) % 256
    else ByteOf(Times(Blend(p, r, c, dy, outside), gain) + 0.5)
  }

  function RowBytes(p: Plane, r: nat, dy: real, gain: real, outside: real): (s: bytes)
    requires p.Valid()
    ensures |s| == p.width
  {
    seq(p.width, c requires 0 <= c < p.width => Cell(p, r, c, dy, gain, outside))
  }

  function PlaneBytes(p: Plane, rows: nat, dy: real, gain: real, outside: real): (s: bytes)
    requires p.Valid()
    ensures |s| == rows * p.width
  {
    if rows == 0 then []
    else
      assert rows * p.width == (rows - 1) * p.width + p.width;
      PlaneBytes(p, rows - 1, dy, gain, outside) + RowBytes(p, rows - 1, dy, gain, outside)
  }

  method DrawRow(out: array<byte>, o: nat, p: Plane, r: nat, dy: real, gain: real, outside: real)
    requires p.Valid() && o + p.width <= out.Length
    modifies out
    ensures out[..o] == old(out[..o]) && out[o + p.width..] == old(out[o + p.width..])
    ensures out[o..o + p.width] == RowBytes(p, r, dy, gain, outside)
  {
    hide Cell;
    for c := 0 to p.width
      invariant forall i :: 0 <= i < o || o + c <= i < out.Length ==> out[i] == old(out[i])
      invariant forall i :: o <= i < o + c ==> out[i] == Cell(p, r, i - o, dy, gain, outside)
    {
      out[o + c] := Cell(p, r, c, dy, gain, outside);
    }
  }

  lemma NextRow(r: nat, rows: nat, width: nat)
    requires r < rows
    ensures (r + 1) * width == r * width + width <= rows * width
  {
    assert (r + 1) * width <= rows * width;
  }

  /** One plane of a frame, drawn into its place in the frame's buffer. */
  method DrawPlane(out: array<byte>, at: nat, p: Plane, rows: nat, dy: real, gain: real, outside: real)
    requires p.Valid() && at + rows * p.width <= out.Length
    modifies out
    ensures out[..at] == old(out[..at])
    ensures out[at..at + rows * p.width] == PlaneBytes(p, rows, dy, gain, outside)
    ensures out[at + rows * p.width..] == old(out[at + rows * p.width..])
  {
    hide Cell, RowBytes;
    var o := at;
    ghost var end := at + rows * p.width;
    for r := 0 to rows
      invariant at <= o == at + r * p.width <= end
      invariant out[..at] == old(out[..at])
      invariant out[at..o] == PlaneBytes(p, r, dy, gain, outside)
      invariant out[end..] == old(out[end..])
    {
      NextRow(r, rows, p.width);
      ghost var was := out[..];
      DrawRow(out, o, p, r, dy, gain, outside);
      KeptAround(was, out[..], at, o, p.width, end);
      assert out[at..o + p.width] == out[at..o] + out[o..o + p.width];
      o := o + p.width;
    }
  }

  /** What a row drawn at `o` leaves alone, before its plane, in it above the row, and after the plane. */
  lemma KeptAround(was: bytes, now: bytes, at: nat, o: nat, width: nat, end: nat)
    requires at <= o && o + width <= end <= |was| == |now|
    requires now[..o] == was[..o] && now[o + width..] == was[o + width..]
    ensures now[..at] == was[..at] && now[at..o] == was[at..o] && now[end..] == was[end..]
  {
    assert now[..at] == now[..o][..at];
    assert was[..at] == was[..o][..at];
    assert now[at..o] == now[..o][at..];
    assert was[at..o] == was[..o][at..];
    assert now[end..] == now[o + width..][end - o - width..];
    assert was[end..] == was[o + width..][end - o - width..];
  }

  // ---- What is in a plane -------------------------------------------------------------

  lemma NotNegative(a: real, b: real)
    requires a >= 0.0 && b >= 0.0
    ensures a * b >= 0.0
  {
  }

  /** A part of a length is no longer than it. */
  lemma Part(x: real, f: real)
    requires x >= 0.0 && 0.0 <= f <= 1.0
    ensures 0.0 <= Times(x, f) <= x
  {
    NotNegative(x, f);
    NotNegative(x, 1.0 - f);
    assert x * (1.0 - f) == x - x * f;
  }

  lemma Opposite(x: real, f: real)
    ensures Times(-x, f) == -Times(x, f)
  {
  }

  lemma Once(x: real)
    ensures Times(x, 1.0) == x && Times(0.0, x) == 0.0 && Times(x, 0.0) == 0.0
  {
  }

  lemma BlendsBetween(v0: real, v1: real, f: real, lo: real, hi: real)
    requires 0.0 <= f <= 1.0 && lo <= v0 <= hi && lo <= v1 <= hi
    ensures lo <= v0 + Times(v1 - v0, f) <= hi
  {
    hide Times;
    if v1 >= v0 {
      Part(v1 - v0, f);
    } else {
      Part(v0 - v1, f);
      Opposite(v0 - v1, f);
      assert -(v0 - v1) == v1 - v0;
    }
  }

  lemma ValueWithin(p: Plane, row: int, c: nat, outside: real, lo: real, hi: real)
    requires p.Valid() && p.Within(lo, hi) && c < p.width && lo <= outside <= hi
    ensures lo <= ValueAt(p, row, c, outside) <= hi
  {
    if 0 <= row < p.height { CellIsThere(p, row, c); }
  }

  lemma BlendStaysWithin(p: Plane, r: nat, c: nat, dy: real, outside: real, lo: real, hi: real)
    requires p.Valid() && p.Within(lo, hi) && c < p.width && lo <= outside <= hi
    ensures lo <= Blend(p, r, c, dy, outside) <= hi
  {
    hide ValueAt, Times;
    var row := r as real - dy;
    var top := row.Floor;
    ValueWithin(p, top, c, outside, lo, hi);
    ValueWithin(p, top + 1, c, outside, lo, hi);
    BlendsBetween(ValueAt(p, top, c, outside), ValueAt(p, top + 1, c, outside), row - top as real, lo, hi);
  }

  /** Whatever the offset: a plane of legal values is drawn in legal bytes, with no wrap. */
  lemma CellStaysWithin(p: Plane, r: nat, c: nat, dy: real, outside: real, lo: nat, hi: nat)
    requires p.Valid() && p.Within(lo as real, hi as real) && c < p.width
    requires hi < 256 && lo as real <= outside <= hi as real
    ensures lo <= Cell(p, r, c, dy, 1.0, outside) <= hi
    ensures Cell(p, r, c, dy, 1.0, outside) == Round(Blend(p, r, c, dy, outside))
  {
    hide ByteOf, Blend, RowIsOutside, Times;
    var b := Blend(p, r, c, dy, outside);
    BlendStaysWithin(p, r, c, dy, outside, lo as real, hi as real);
    Once(b);
    Once(outside);
    StoredIsRounded(b, lo, hi);
    StoredIsRounded(outside, lo, hi);
    if RowIsOutside(p, r, dy) { OutsideBlendsToOutside(p, r, c, dy, outside); }
  }

  lemma OutsideBlendsToOutside(p: Plane, r: nat, c: nat, dy: real, outside: real)
    requires p.Valid() && c < p.width && RowIsOutside(p, r, dy)
    ensures Blend(p, r, c, dy, outside) == outside
  {
    Once((r as real - dy) - (r as real - dy).Floor as real);
  }

  /** Scaled by an opacity, the alpha plane stays in the byte range too. */
  lemma AlphaStaysWithin(p: Plane, r: nat, c: nat, dy: real, opacity: real)
    requires p.Valid() && p.Within(0.0, 255.0) && c < p.width && 0.0 <= opacity <= 1.0
    ensures Cell(p, r, c, dy, opacity, 0.0) == Round(Times(Blend(p, r, c, dy, 0.0), opacity))
  {
    hide ByteOf, Blend, RowIsOutside, Times;
    var b := Blend(p, r, c, dy, 0.0);
    BlendStaysWithin(p, r, c, dy, 0.0, 0.0, 255.0);
    Part(b, opacity);
    StoredIsRounded(Times(b, opacity), 0, 255);
    Once(opacity);
    if RowIsOutside(p, r, dy) {
      OutsideBlendsToOutside(p, r, c, dy, 0.0);
      assert Round(0.0) == 0;
    }
  }

  /** Down by whole rows nothing is blended: each row is the still's, rounded, `d` rows lower. */
  lemma WholeRowsAreCopied(p: Plane, r: nat, c: nat, d: nat, outside: real)
    requires p.Valid() && c < p.width
    ensures Blend(p, r, c, d as real, outside) == ValueAt(p, r - d, c, outside)
  {
    assert (r as real - d as real).Floor == r - d;
    Once(ValueAt(p, r - d + 1, c, outside) - ValueAt(p, r - d, c, outside));
  }

  /** Between whole rows it is the linear blend of the two it lies between, by how far it is towards the lower. */
  lemma BlendsTheTwoRows(p: Plane, r: nat, c: nat, d: nat, t: real, outside: real)
    requires p.Valid() && c < p.width && 0.0 <= t < 1.0
    ensures Blend(p, r, c, d as real + t, outside)
         == Times(ValueAt(p, r - d, c, outside), 1.0 - t) + Times(ValueAt(p, r - d - 1, c, outside), t)
  {
    if t == 0.0 {
      WholeRowsAreCopied(p, r, c, d, outside);
      Once(ValueAt(p, r - d, c, outside));
      Once(ValueAt(p, r - d - 1, c, outside));
    } else {
      hide ValueAt, Times;
      var row := r as real - (d as real + t);
      assert row.Floor == r - d - 1 && row - row.Floor as real == 1.0 - t;
      Between(ValueAt(p, r - d - 1, c, outside), ValueAt(p, r - d, c, outside), t);
    }
  }

  lemma Between(v0: real, v1: real, t: real)
    ensures v0 + Times(v1 - v0, 1.0 - t) == Times(v1, 1.0 - t) + Times(v0, t)
  {
  }

  // ---- The still in planes ------------------------------------------------------------

  /** Straight RGBA, four bytes a pixel, row by row. */
  datatype Still = Still(width: nat, height: nat, rgba: bytes) {
    predicate Valid() {
      width % 2 == 0 && height % 2 == 0 && |rgba| == 4 * (width * height)
    }
  }

  function Luma(r: int, g: int, b: int): real {
    0.2126 * r as real + 0.7152 * g as real + 0.0722 * b as real
  }

  function LumaByte(luma: real): real {
    16.0 + 219.0 * luma / 255.0
  }

  function BlueChroma(r: int, g: int, b: int): real {
    224.0 * (b as real - Luma(r, g, b)) / 255.0 / 1.8556
  }

  function RedChroma(r: int, g: int, b: int): real {
    224.0 * (r as real - Luma(r, g, b)) / 255.0 / 1.5748
  }

  /** BT.709 limited range: luma 16 to 235, colour differences 112 either way, each end reached. */
  lemma ColoursAreLegal(r: byte, g: byte, b: byte)
    ensures 16.0 <= LumaByte(Luma(r, g, b)) <= 235.0
    ensures -112.0 <= BlueChroma(r, g, b) <= 112.0
    ensures -112.0 <= RedChroma(r, g, b) <= 112.0
  {
  }

  lemma ColourEndsAreReached()
    ensures LumaByte(Luma(0, 0, 0)) == 16.0 && LumaByte(Luma(255, 255, 255)) == 235.0
    ensures BlueChroma(0, 0, 255) == 112.0 && BlueChroma(255, 255, 0) == -112.0
    ensures RedChroma(255, 0, 0) == 112.0 && RedChroma(0, 255, 255) == -112.0
  {
  }

  datatype Pixel = Pixel(r: byte, g: byte, b: byte, a: byte)

  function PixelNo(s: Still, i: nat): Pixel
    requires s.Valid() && i < s.width * s.height
  {
    Pixel(s.rgba[4 * i], s.rgba[4 * i + 1], s.rgba[4 * i + 2], s.rgba[4 * i + 3])
  }

  lemma PixelIsThere(s: Still, y: nat, x: nat)
    requires y < s.height && x < s.width
    ensures y * s.width + x < s.width * s.height
  {
    NextRow(y, s.height, s.width);
  }

  function PixelAt(s: Still, y: nat, x: nat): Pixel
    requires s.Valid() && y < s.height && x < s.width
  {
    PixelIsThere(s, y, x);
    PixelNo(s, y * s.width + x)
  }

  /** A colour difference of a pixel: blue's, or red's. */
  datatype Difference = Blue | Red

  function Chroma(p: Pixel, d: Difference): real {
    if d == Blue then BlueChroma(p.r, p.g, p.b) else RedChroma(p.r, p.g, p.b)
  }

  function Weighted(p: Pixel, d: Difference): real {
    Times(Chroma(p, d), p.a as real)
  }

  /** The 2x2 block a pixel is in, as a place in the half-size planes. */
  function BlockOf(width: nat, y: nat, x: nat): nat {
    y / 2 * (width / 2) + x / 2
  }

  /** A block's colour difference, weighted by alpha and summed over the pixels before column `x` of row `y`. */
  function ChromaSum(s: Still, d: Difference, block: nat, y: nat, x: nat): real
    requires s.Valid() && y <= s.height && x <= s.width && (y == s.height ==> x == 0)
    decreases y, x
  {
    if x > 0 then
      var p := PixelAt(s, y, x - 1);
      ChromaSum(s, d, block, y, x - 1) + (if BlockOf(s.width, y, x - 1) == block then Weighted(p, d) else 0.0)
    else if y > 0 then ChromaSum(s, d, block, y - 1, s.width)
    else 0.0
  }

  /** And the weight of those pixels. */
  function Weight(s: Still, block: nat, y: nat, x: nat): nat
    requires s.Valid() && y <= s.height && x <= s.width && (y == s.height ==> x == 0)
    decreases y, x
  {
    if x > 0 then
      Weight(s, block, y, x - 1) + (if BlockOf(s.width, y, x - 1) == block then PixelAt(s, y, x - 1).a as int else 0)
    else if y > 0 then Weight(s, block, y - 1, s.width)
    else 0
  }

  /** A block's value in its half-size plane. */
  function ChromaOf(s: Still, d: Difference, block: nat): real
    requires s.Valid()
  {
    var w := Weight(s, block, s.height, 0);
    128.0 + (if w > 0 then ChromaSum(s, d, block, s.height, 0) / w as real else 0.0)
  }

  lemma {:induction false} SumWithinWeight(s: Still, d: Difference, block: nat, y: nat, x: nat)
    requires s.Valid() && y <= s.height && x <= s.width && (y == s.height ==> x == 0)
    ensures -112.0 * Weight(s, block, y, x) as real <= ChromaSum(s, d, block, y, x) <= 112.0 * Weight(s, block, y, x) as real
    decreases y, x
  {
    hide BlockOf, PixelAt, Weighted;
    if x > 0 {
      SumWithinWeight(s, d, block, y, x - 1);
      var p := PixelAt(s, y, x - 1);
      ChromaIsLegal(p, d);
      OneMorePixel(ChromaSum(s, d, block, y, x - 1), Weight(s, block, y, x - 1), Weighted(p, d), p.a);
    } else if y > 0 {
      SumWithinWeight(s, d, block, y - 1, s.width);
    }
  }

  lemma OneMorePixel(sum: real, weight: nat, more: real, a: nat)
    requires -112.0 * weight as real <= sum <= 112.0 * weight as real
    requires -112.0 * a as real <= more <= 112.0 * a as real
    ensures -112.0 * (weight + a) as real <= sum + more <= 112.0 * (weight + a) as real
  {
    assert (weight + a) as real == weight as real + a as real;
  }

  lemma ChromaIsLegal(p: Pixel, d: Difference)
    ensures -112.0 * p.a as real <= Weighted(p, d) <= 112.0 * p.a as real
  {
    hide BlueChroma, RedChroma, Times;
    ColoursAreLegal(p.r, p.g, p.b);
    ScaledWithin(Chroma(p, d), p.a as real);
  }

  lemma ScaledWithin(c: real, a: real)
    requires -112.0 <= c <= 112.0 && a >= 0.0
    ensures -112.0 * a <= Times(c, a) <= 112.0 * a
  {
    NotNegative(112.0 - c, a);
    NotNegative(c + 112.0, a);
    assert (112.0 - c) * a == 112.0 * a - c * a;
    assert (c + 112.0) * a == c * a + 112.0 * a;
  }

  /** For any still at all, a block's colour is a legal one. */
  lemma ChromaStaysLegal(s: Still, d: Difference, block: nat)
    requires s.Valid()
    ensures 16.0 <= ChromaOf(s, d, block) <= 240.0
  {
    hide ChromaSum, Weight;
    SumWithinWeight(s, d, block, s.height, 0);
    var w, sum := Weight(s, block, s.height, 0), ChromaSum(s, d, block, s.height, 0);
    if w > 0 { QuotientWithin(sum, w as real, 112.0); }
  }

  lemma QuotientWithin(sum: real, w: real, bound: real)
    requires w > 0.0 && -bound * w <= sum <= bound * w
    ensures -bound <= sum / w <= bound
  {
    var q := sum / w;
    assert q * w == sum;
    if q > bound { Strictly(bound, q, w); }
    if q < -bound { Strictly(q, -bound, w); }
  }

  lemma Strictly(a: real, b: real, w: real)
    requires a < b && w > 0.0
    ensures a * w < b * w
  {
  }

  /** Two stills with the same alpha, and the same colours wherever it is not 0. */
  ghost predicate SameWhereSeen(s: Still, t: Still) {
    && s.Valid() && t.Valid() && s.width == t.width && s.height == t.height
    && forall y, x :: 0 <= y < s.height && 0 <= x < s.width ==> SamePixel(PixelAt(s, y, x), PixelAt(t, y, x))
  }

  predicate SamePixel(p: Pixel, q: Pixel) {
    p.a == q.a && (p.a > 0 ==> p == q)
  }

  lemma SameWeighted(p: Pixel, q: Pixel, d: Difference)
    requires SamePixel(p, q)
    ensures Weighted(p, d) == Weighted(q, d)
  {
    hide Chroma, Times;
    if p.a == 0 { Once(Chroma(p, d)); Once(Chroma(q, d)); }
  }

  lemma {:induction false} SameSums(s: Still, t: Still, d: Difference, block: nat, y: nat, x: nat)
    requires SameWhereSeen(s, t) && y <= s.height && x <= s.width && (y == s.height ==> x == 0)
    ensures ChromaSum(s, d, block, y, x) == ChromaSum(t, d, block, y, x)
    ensures Weight(s, block, y, x) == Weight(t, block, y, x)
    decreases y, x
  {
    hide PixelAt, Weighted, BlockOf;
    if x > 0 {
      SameSums(s, t, d, block, y, x - 1);
      var p, q := PixelAt(s, y, x - 1), PixelAt(t, y, x - 1);
      assert SamePixel(p, q);
      SameWeighted(p, q, d);
    } else if y > 0 {
      SameSums(s, t, d, block, y - 1, s.width);
    }
  }

  /** A pixel that is not seen never tints its block, whatever its colour. */
  lemma UnseenPixelsNeverTint(s: Still, t: Still, d: Difference, block: nat)
    requires SameWhereSeen(s, t)
    ensures ChromaOf(s, d, block) == ChromaOf(t, d, block)
  {
    hide ChromaSum, Weight, SameWhereSeen;
    assert s.Valid() && t.Valid() && s.height == t.height by { SameSize(s, t); }
    SameSums(s, t, d, block, s.height, 0);
  }

  lemma SameSize(s: Still, t: Still)
    requires SameWhereSeen(s, t)
    ensures s.Valid() && t.Valid() && s.height == t.height && s.width == t.width
  {
  }

  function LumaOf(p: Pixel): real {
    LumaByte(Luma(p.r, p.g, p.b))
  }

  // ---- The still as it comes ------------------------------------------------------------

  /** Pixels as straight RGBA has them: red, green, blue, alpha. */
  function Rgba(pixels: seq<Pixel>): (s: bytes)
    ensures |s| == 4 * |pixels|
  {
    if pixels == [] then []
    else
      var p := pixels[|pixels| - 1];
      Rgba(pixels[..|pixels| - 1]) + [p.r, p.g, p.b, p.a]
  }

  lemma {:induction false} RgbaAt(pixels: seq<Pixel>, i: nat)
    requires i < |pixels|
    ensures Rgba(pixels)[4 * i] == pixels[i].r && Rgba(pixels)[4 * i + 1] == pixels[i].g
    ensures Rgba(pixels)[4 * i + 2] == pixels[i].b && Rgba(pixels)[4 * i + 3] == pixels[i].a
    decreases |pixels|
  {
    if i < |pixels| - 1 { RgbaAt(pixels[..|pixels| - 1], i); }
  }

  /** Each pixel of a still is found by its row and column, and its channels in their order. */
  lemma PixelsReadBack(width: nat, height: nat, pixels: seq<Pixel>, y: nat, x: nat)
    requires width % 2 == 0 && height % 2 == 0 && |pixels| == width * height && y < height && x < width
    ensures y * width + x < |pixels|
    ensures Still(width, height, Rgba(pixels)).Valid()
    ensures PixelAt(Still(width, height, Rgba(pixels)), y, x) == pixels[y * width + x]
  {
    hide Rgba;
    PixelIsThere(Still(width, height, Rgba(pixels)), y, x);
    RgbaAt(pixels, y * width + x);
  }

  // ---- What the planes hold -------------------------------------------------------------

  /**
   * Read back as BT.709 limited range says (item 3 of Recommendation ITU-R
   * BT.709-6), luma and the two colour differences give the colour exactly.
   */
  lemma ColourReadsBack(p: Pixel)
    ensures var y, cb, cr := (LumaOf(p) - 16.0) * 255.0 / 219.0, Chroma(p, Blue) * 255.0 / 224.0, Chroma(p, Red) * 255.0 / 224.0;
      var red, blue := y + 1.5748 * cr, y + 1.8556 * cb;
      red == p.r as real && blue == p.b as real && (y - 0.2126 * red - 0.0722 * blue) / 0.7152 == p.g as real
  {
  }

  /** Pixel (py, px) is one of those before column `x` of row `y`. */
  predicate Before(py: nat, px: nat, y: nat, x: nat) {
    py < y || (py == y && px < x)
  }

  function WeightedBefore(s: Still, d: Difference, py: nat, px: nat, y: nat, x: nat): real
    requires s.Valid() && py < s.height && px < s.width
  {
    if Before(py, px, y, x) then Weighted(PixelAt(s, py, px), d) else 0.0
  }

  function WeightBefore(s: Still, py: nat, px: nat, y: nat, x: nat): nat
    requires s.Valid() && py < s.height && px < s.width
  {
    if Before(py, px, y, x) then PixelAt(s, py, px).a else 0
  }

  /** A pixel is in the block at (row, col) exactly when it is one of its four. */
  lemma InBlock(width: nat, row: nat, col: nat, y: nat, x: nat)
    requires width % 2 == 0 && col < width / 2 && x < width
    ensures BlockOf(width, y, x) == row * (width / 2) + col <==> y / 2 == row && x / 2 == col
  {
    var w := width / 2;
    if y / 2 < row { NextRow(y / 2, row, w); }
    if y / 2 > row { NextRow(row, y / 2, w); }
  }

  lemma {:induction false} FourSums(s: Still, d: Difference, row: nat, col: nat, y: nat, x: nat)
    requires s.Valid() && row < s.height / 2 && col < s.width / 2
    requires y <= s.height && x <= s.width && (y == s.height ==> x == 0)
    ensures var block, t, l := row * (s.width / 2) + col, 2 * row, 2 * col;
      && ChromaSum(s, d, block, y, x)
         == WeightedBefore(s, d, t, l, y, x) + WeightedBefore(s, d, t, l + 1, y, x)
            + WeightedBefore(s, d, t + 1, l, y, x) + WeightedBefore(s, d, t + 1, l + 1, y, x)
      && Weight(s, block, y, x)
         == WeightBefore(s, t, l, y, x) + WeightBefore(s, t, l + 1, y, x)
            + WeightBefore(s, t + 1, l, y, x) + WeightBefore(s, t + 1, l + 1, y, x)
    decreases y, x
  {
    hide Weighted, PixelAt, BlockOf;
    if x > 0 {
      FourSums(s, d, row, col, y, x - 1);
      InBlock(s.width, row, col, y, x - 1);
    } else if y > 0 {
      FourSums(s, d, row, col, y - 1, s.width);
    }
  }

  /** A block's colour is the alpha-weighted mean of its own four pixels', and neutral when none is seen. */
  lemma BlockIsItsFourPixels(s: Still, d: Difference, row: nat, col: nat)
    requires s.Valid() && row < s.height / 2 && col < s.width / 2
    ensures var a, b := PixelAt(s, 2 * row, 2 * col), PixelAt(s, 2 * row, 2 * col + 1);
      var c, e := PixelAt(s, 2 * row + 1, 2 * col), PixelAt(s, 2 * row + 1, 2 * col + 1);
      var weight := (a.a + b.a + c.a + e.a) as real;
      ChromaOf(s, d, row * (s.width / 2) + col) ==
        if weight == 0.0 then 128.0
        else 128.0 + (Weighted(a, d) + Weighted(b, d) + Weighted(c, d) + Weighted(e, d)) / weight
  {
    hide ChromaSum, Weight, PixelAt, Weighted;
    FourSums(s, d, row, col, s.height, 0);
  }

  /** A still, in planes. */
  datatype Planes = Planes(luma: Plane, blue: Plane, red: Plane, alpha: Plane)

  function ChromaPlane(s: Still, d: Difference): Plane
    requires s.Valid()
  {
    var cw, ch := s.width / 2, s.height / 2;
    Plane(cw, ch, seq(cw * ch, block requires 0 <= block < cw * ch => ChromaOf(s, d, block)))
  }

  function InPlanes(s: Still): Planes
    requires s.Valid()
  {
    var n := s.width * s.height;
    Planes(
      Plane(s.width, s.height, seq(n, i requires 0 <= i < n => LumaOf(PixelNo(s, i)))),
      ChromaPlane(s, Blue),
      ChromaPlane(s, Red),
      Plane(s.width, s.height, seq(n, i requires 0 <= i < n => PixelNo(s, i).a as real)))
  }

  /** A still's luma and alpha planes hold each pixel's own, row by row. */
  lemma PixelsHoldLuma(s: Still, y: nat, x: nat, outside: real)
    requires s.Valid() && y < s.height && x < s.width
    ensures var luma := InPlanes(s).luma;
      luma.Valid() && luma.width == s.width && ValueAt(luma, y, x, outside) == LumaOf(PixelAt(s, y, x))
    ensures var alpha := InPlanes(s).alpha;
      alpha.Valid() && alpha.width == s.width && ValueAt(alpha, y, x, outside) == PixelAt(s, y, x).a as real
  {
    hide LumaOf, PixelNo, ChromaPlane;
    PixelIsThere(s, y, x);
  }

  /** And the half-size planes each block's colour difference. */
  lemma BlocksHoldColour(s: Still, d: Difference, row: nat, col: nat, outside: real)
    requires s.Valid() && row < s.height / 2 && col < s.width / 2
    ensures var plane := if d == Blue then InPlanes(s).blue else InPlanes(s).red;
      && plane.Valid() && plane.width == s.width / 2
      && ValueAt(plane, row, col, outside) == ChromaOf(s, d, row * (s.width / 2) + col)
  {
    hide ChromaOf, PixelNo, LumaOf;
    NextRow(row, s.height / 2, s.width / 2);
  }

  lemma PlanesAreLegal(s: Still)
    requires s.Valid()
    ensures var p := InPlanes(s);
      && p.luma.Valid() && p.blue.Valid() && p.red.Valid() && p.alpha.Valid()
      && p.luma.Within(16.0, 235.0) && p.blue.Within(16.0, 240.0) && p.red.Within(16.0, 240.0)
      && p.alpha.Within(0.0, 255.0)
  {
    hide ChromaOf, LumaByte, Luma;
    var p := InPlanes(s);
    forall i | 0 <= i < s.width * s.height ensures 16.0 <= p.luma.values[i] <= 235.0 {
      var x := PixelNo(s, i);
      ColoursAreLegal(x.r, x.g, x.b);
    }
    forall c | 0 <= c < s.width / 2 * (s.height / 2)
      ensures 16.0 <= p.blue.values[c] <= 240.0 && 16.0 <= p.red.values[c] <= 240.0
    {
      ChromaStaysLegal(s, Blue, c);
      ChromaStaysLegal(s, Red, c);
    }
  }

  // ---- One frame ----------------------------------------------------------------------

  function Fill(n: nat, value: byte): (s: bytes)
    ensures |s| == n
  {
    seq(n, _ => value)
  }

  /** The offset a frame is drawn at: never above its place, never past its travel. */
  function Offset(offsetY: real): real {
    if offsetY <= 0.0 then 0.0 else if offsetY >= TRAVEL as real then TRAVEL as real else offsetY
  }

  /** The card is drawn where its pose says, but never above its place nor past its travel. */
  lemma DrawnWithinItsTravel(offsetY: real)
    ensures 0.0 <= Offset(offsetY) <= TRAVEL as real
    ensures 0.0 <= offsetY <= TRAVEL as real ==> Offset(offsetY) == offsetY
    ensures offsetY < 0.0 ==> Offset(offsetY) == 0.0
    ensures offsetY > TRAVEL as real ==> Offset(offsetY) == TRAVEL as real
  {
  }

  /** A frame `height` tall: the still's four planes, one after the other. */
  function FrameBytes(p: Planes, height: nat, opacity: real, offsetY: real): bytes
    requires p.luma.Valid() && p.blue.Valid() && p.red.Valid() && p.alpha.Valid()
  {
    var dy := Offset(offsetY);
    PlaneBytes(p.luma, height, dy, 1.0, 16.0)
    + PlaneBytes(p.blue, height / 2, dy / 2.0, 1.0, 128.0)
    + PlaneBytes(p.red, height / 2, dy / 2.0, 1.0, 128.0)
    + PlaneBytes(p.alpha, height, dy, opacity, 0.0)
  }

  lemma {:induction false} PlaneBytesAt(p: Plane, rows: nat, r: nat, c: nat, dy: real, gain: real, outside: real)
    requires p.Valid() && r < rows && c < p.width
    ensures r * p.width + c < |PlaneBytes(p, rows, dy, gain, outside)|
    ensures PlaneBytes(p, rows, dy, gain, outside)[r * p.width + c] == Cell(p, r, c, dy, gain, outside)
  {
    hide Cell;
    NextRow(r, rows, p.width);
    if r < rows - 1 {
      NextRow(r, rows - 1, p.width);
      PlaneBytesAt(p, rows - 1, r, c, dy, gain, outside);
    }
  }

  predicate HoldsAt(s: bytes, i: int, v: byte) {
    0 <= i < |s| && s[i] == v
  }

  /**
   * A frame read as yuva420p has it, every pixel its own luma and alpha and
   * each 2x2 block one pair of colour differences, blue's before red's: each
   * place holds that value of the still, as far down as the frame is drawn.
   */
  lemma FrameReadsBack(p: Planes, height: nat, opacity: real, offsetY: real, r: nat, c: nat)
    requires p.luma.Valid() && p.blue.Valid() && p.red.Valid() && p.alpha.Valid()
    requires height % 2 == 0 && p.luma.width % 2 == 0 && p.alpha.width == p.luma.width
    requires p.blue.width == p.red.width == p.luma.width / 2
    requires r < height && c < p.luma.width
    ensures var w, dy := p.luma.width, Offset(offsetY);
      var frame, n, q, block := FrameBytes(p, height, opacity, offsetY), height * w, height / 2 * (w / 2), r / 2 * (w / 2) + c / 2;
      && |frame| == 2 * n + 2 * q
      && HoldsAt(frame, r * w + c, Cell(p.luma, r, c, dy, 1.0, 16.0))
      && HoldsAt(frame, n + block, Cell(p.blue, r / 2, c / 2, dy / 2.0, 1.0, 128.0))
      && HoldsAt(frame, n + q + block, Cell(p.red, r / 2, c / 2, dy / 2.0, 1.0, 128.0))
      && HoldsAt(frame, n + 2 * q + (r * w + c), Cell(p.alpha, r, c, dy, opacity, 0.0))
  {
    hide PlaneBytes, Cell, Offset, FrameBytes;
    var dy := Offset(offsetY);
    NextRow(r, height, p.luma.width);
    NextRow(r / 2, height / 2, p.luma.width / 2);
    PlaneBytesAt(p.luma, height, r, c, dy, 1.0, 16.0);
    PlaneBytesAt(p.blue, height / 2, r / 2, c / 2, dy / 2.0, 1.0, 128.0);
    PlaneBytesAt(p.red, height / 2, r / 2, c / 2, dy / 2.0, 1.0, 128.0);
    PlaneBytesAt(p.alpha, height, r, c, dy, opacity, 0.0);
    var y, u := PlaneBytes(p.luma, height, dy, 1.0, 16.0), PlaneBytes(p.blue, height / 2, dy / 2.0, 1.0, 128.0);
    var v, a := PlaneBytes(p.red, height / 2, dy / 2.0, 1.0, 128.0), PlaneBytes(p.alpha, height, dy, opacity, 0.0);
    FrameOfParts(y, u, v, a, p, height, opacity, offsetY);
    InItsPart(y, u, v, a, r * p.luma.width + c, r / 2 * (p.luma.width / 2) + c / 2);
  }

  lemma InItsPart(y: bytes, u: bytes, v: bytes, a: bytes, i: nat, block: nat)
    requires i < |y| && i < |a| && block < |u| == |v|
    ensures var all := y + u + v + a;
      && all[i] == y[i] && all[|y| + block] == u[block] && all[|y| + |u| + block] == v[block]
      && all[|y| + 2 * |u| + i] == a[i]
  {
  }

  function BlankFrame(width: nat, height: nat): bytes {
    var chroma := width / 2 * (height / 2);
    Fill(width * height, 16) + Fill(chroma, 128) + Fill(chroma, 128) + Fill(width * height, 0)
  }

  /** A frame with nothing showing: black, neutral and transparent, as big as any other. */
  lemma BlankIsBlank(width: nat, height: nat)
    requires width % 2 == 0 && height % 2 == 0
    ensures var blank, n, q := BlankFrame(width, height), width * height, width / 2 * (height / 2);
      && |blank| == 2 * n + 2 * q && 4 * q == n
      && blank[..n] == Fill(n, 16) && blank[n..n + 2 * q] == Fill(2 * q, 128) && blank[n + 2 * q..] == Fill(n, 0)
  {
    HalvesMakeAQuarter(width, height);
  }

  lemma HalvesMakeAQuarter(width: nat, height: nat)
    requires width % 2 == 0 && height % 2 == 0
    ensures 4 * (width / 2 * (height / 2)) == width * height
    ensures width * height % 2 == 0 && width * height * 5 / 2 == 2 * (width * height) + 2 * (width / 2 * (height / 2))
  {
    var w, h := width / 2, height / 2;
    assert width == 2 * w && height == 2 * h;
    assert width * height == 4 * (w * h) by { assert 2 * w * (2 * h) == 4 * (w * h); }
  }

  method FillPart(out: array<byte>, from: nat, to_: nat, value: byte)
    requires from <= to_ <= out.Length
    modifies out
    ensures forall k :: 0 <= k < from || to_ <= k < out.Length ==> out[k] == old(out[k])
    ensures forall k :: from <= k < to_ ==> out[k] == value
  {
    for i := from to to_
      invariant forall k :: 0 <= k < from || i <= k < out.Length ==> out[k] == old(out[k])
      invariant forall k :: from <= k < i ==> out[k] == value
    {
      out[i] := value;
    }
  }

  /** Four parts of a buffer are all of it. */
  lemma FourParts(s: bytes, a: nat, b: nat, c: nat)
    requires a <= b <= c <= |s|
    ensures s == s[..a] + s[a..b] + s[b..c] + s[c..]
  {
  }

  /** A frame with nothing showing. */
  method DrawBlank(width: nat, height: nat) returns (out: array<byte>)
    requires width % 2 == 0 && height % 2 == 0
    ensures fresh(out) && out.Length == width * height * 5 / 2
    ensures out[..] == BlankFrame(width, height)
  {
    HalvesMakeAQuarter(width, height);
    var n, q := width * height, width / 2 * (height / 2);
    out := new byte[n * 5 / 2](_ => 0);
    FillPart(out, 0, n, 16);
    FillPart(out, n, n + 2 * q, 128);
    FourParts(out[..], n, n + q, n + 2 * q);
    assert out[..][..n] == Fill(n, 16);
    assert out[..][n..n + q] == Fill(q, 128);
    assert out[..][n + q..n + 2 * q] == Fill(q, 128);
    assert out[..][n + 2 * q..] == Fill(n, 0);
  }

  lemma KeptPart(was: bytes, now: bytes, from: nat, to_: nat, a: nat, b: nat)
    requires from <= to_ <= |was| == |now| && a <= b <= |was|
    requires now[..from] == was[..from] && now[to_..] == was[to_..]
    requires b <= from || to_ <= a
    ensures now[a..b] == was[a..b]
  {
    forall k | a <= k < b ensures now[k] == was[k] {
      if k < from {
        assert now[..from][k] == was[..from][k];
      } else {
        assert now[to_..][k - to_] == was[to_..][k - to_];
      }
    }
  }

  /** One plane drawn from `at` to `end`; any part of the buffer outside them is kept. */
  method DrawPart(out: array<byte>, at: nat, end: nat, p: Plane, rows: nat, dy: real, gain: real, outside: real)
    requires p.Valid() && end == at + rows * p.width && end <= out.Length
    modifies out
    ensures out[at..end] == PlaneBytes(p, rows, dy, gain, outside)
    ensures forall a, b :: 0 <= a <= b <= out.Length && (b <= at || end <= a) ==> out[a..b] == old(out[a..b])
  {
    hide PlaneBytes;
    ghost var was := out[..];
    DrawPlane(out, at, p, rows, dy, gain, outside);
    ghost var now := out[..];
    forall a, b | 0 <= a <= b <= out.Length && (b <= at || end <= a) ensures out[a..b] == was[a..b] {
      KeptPart(was, now, at, end, a, b);
    }
  }

  /** The four planes, drawn where each belongs. */
  method DrawParts(out: array<byte>, n: nat, q: nat, p: Planes, height: nat, opacity: real, offsetY: real)
    requires p.luma.Valid() && p.blue.Valid() && p.red.Valid() && p.alpha.Valid()
    requires height * p.luma.width == height * p.alpha.width == n
    requires height / 2 * p.blue.width == height / 2 * p.red.width == q
    requires out.Length == 2 * n + 2 * q
    modifies out
    ensures out[..] == FrameBytes(p, height, opacity, offsetY)
  {
    hide PlaneBytes, Offset, FrameBytes;
    var dy := Offset(offsetY);
    var u, v, a, end := n, n + q, n + 2 * q, 2 * n + 2 * q;
    DrawPart(out, 0, u, p.luma, height, dy, 1.0, 16.0);
    DrawPart(out, a, end, p.alpha, height, dy, opacity, 0.0);
    assert out[0..u] == PlaneBytes(p.luma, height, dy, 1.0, 16.0);
    DrawPart(out, u, v, p.blue, height / 2, dy / 2.0, 1.0, 128.0);
    assert out[0..u] == PlaneBytes(p.luma, height, dy, 1.0, 16.0);
    assert out[a..end] == PlaneBytes(p.alpha, height, dy, opacity, 0.0);
    DrawPart(out, v, a, p.red, height / 2, dy / 2.0, 1.0, 128.0);
    assert out[0..u] == PlaneBytes(p.luma, height, dy, 1.0, 16.0);
    assert out[u..v] == PlaneBytes(p.blue, height / 2, dy / 2.0, 1.0, 128.0);
    assert out[a..end] == PlaneBytes(p.alpha, height, dy, opacity, 0.0);
    FourParts(out[..], u, v, a);
    FrameOfParts(out[0..u], out[u..v], out[v..a], out[a..end], p, height, opacity, offsetY);
  }

  lemma FrameOfParts(y: bytes, u: bytes, v: bytes, a: bytes, p: Planes, height: nat, opacity: real, offsetY: real)
    requires p.luma.Valid() && p.blue.Valid() && p.red.Valid() && p.alpha.Valid()
    requires y == PlaneBytes(p.luma, height, Offset(offsetY), 1.0, 16.0)
    requires u == PlaneBytes(p.blue, height / 2, Offset(offsetY) / 2.0, 1.0, 128.0)
    requires v == PlaneBytes(p.red, height / 2, Offset(offsetY) / 2.0, 1.0, 128.0)
    requires a == PlaneBytes(p.alpha, height, Offset(offsetY), opacity, 0.0)
    ensures y + u + v + a == FrameBytes(p, height, opacity, offsetY)
  {
    hide PlaneBytes, Offset;
  }

  /**
   * The frame of a card, drawn into a blank one: its four planes fill the
   * buffer from end to end, each in its own part.
   */
  method DrawFrame(width: nat, height: nat, p: Planes, opacity: real, offsetY: real) returns (out: array<byte>)
    requires width % 2 == 0 && height % 2 == 0
    requires p.luma.Valid() && p.blue.Valid() && p.red.Valid() && p.alpha.Valid()
    requires p.luma.width == p.alpha.width == width && p.blue.width == p.red.width == width / 2
    ensures fresh(out) && out.Length == width * height * 5 / 2
    ensures out[..] == if opacity <= 0.0 then BlankFrame(width, height) else FrameBytes(p, height, opacity, offsetY)
  {
    hide FrameBytes, BlankFrame;
    HalvesMakeAQuarter(width, height);
    out := DrawBlank(width, height);
    if opacity <= 0.0 { return; }
    DrawParts(out, width * height, width / 2 * (height / 2), p, height, opacity, offsetY);
  }

  predicate AllWithin(s: bytes, lo: int, hi: int) {
    forall i :: 0 <= i < |s| ==> lo <= s[i] <= hi
  }

  lemma {:induction false} PlaneIsLegal(p: Plane, rows: nat, dy: real, outside: real, lo: nat, hi: nat)
    requires p.Valid() && p.Within(lo as real, hi as real) && hi < 256 && lo as real <= outside <= hi as real
    ensures AllWithin(PlaneBytes(p, rows, dy, 1.0, outside), lo, hi)
  {
    hide Cell;
    if rows > 0 {
      PlaneIsLegal(p, rows - 1, dy, outside, lo, hi);
      var row := RowBytes(p, rows - 1, dy, 1.0, outside);
      forall c | 0 <= c < |row| ensures lo <= row[c] <= hi {
        CellStaysWithin(p, rows - 1, c, dy, outside, lo, hi);
      }
    }
  }

  /**
   * For any still, any opacity and any offset at all: every byte of the luma
   * plane is 16 to 235, and of the two colour planes 16 to 240.
   */
  lemma EveryFrameIsLegal(s: Still, height: nat, opacity: real, offsetY: real)
    requires s.Valid()
    ensures var p, dy := InPlanes(s), Offset(offsetY);
      && p.luma.Valid() && p.blue.Valid() && p.red.Valid()
      && AllWithin(PlaneBytes(p.luma, height, dy, 1.0, 16.0), 16, 235)
      && AllWithin(PlaneBytes(p.blue, height / 2, dy / 2.0, 1.0, 128.0), 16, 240)
      && AllWithin(PlaneBytes(p.red, height / 2, dy / 2.0, 1.0, 128.0), 16, 240)
  {
    hide PlaneBytes, InPlanes, Offset;
    var p, dy := InPlanes(s), Offset(offsetY);
    PlanesAreLegal(s);
    PlaneIsLegal(p.luma, height, dy, 16.0, 16, 235);
    PlaneIsLegal(p.blue, height / 2, dy / 2.0, 128.0, 16, 240);
    PlaneIsLegal(p.red, height / 2, dy / 2.0, 128.0, 16, 240);
  }

  /**
   * A settled card, or one down by whole rows, at full opacity: its alpha is
   * the still's own, byte for byte, that many rows lower, and nothing outside it.
   */
  lemma WholeRowsKeepAlpha(s: Still, r: nat, c: nat, d: nat)
    requires s.Valid() && c < s.width
    ensures InPlanes(s).alpha.Valid()
    ensures Cell(InPlanes(s).alpha, r, c, d as real, 1.0, 0.0)
         == if d <= r < d + s.height then PixelAt(s, r - d, c).a else 0
  {
    hide ByteOf, Blend, RowIsOutside, ChromaOf, Times;
    var p := InPlanes(s).alpha;
    PlanesAreLegal(s);
    WholeRowsAreCopied(p, r, c, d, 0.0);
    AlphaStaysWithin(p, r, c, d as real, 1.0);
    Once(Blend(p, r, c, d as real, 0.0));
    if d <= r < d + s.height {
      PixelIsThere(s, r - d, c);
      RoundsToItself(PixelAt(s, r - d, c).a);
    } else {
      RoundsToItself(0);
    }
  }

  lemma RoundsToItself(n: int)
    ensures Round(n as real) == n
  {
  }

  // ---- The still, plane by plane ------------------------------------------------------

  /** One pixel's share of its block, added where the block's sums are kept. */
  method AddPixel(u: array<real>, v: array<real>, weight: array<real>, c: nat, p: Pixel)
    requires u != v && u != weight && v != weight
    requires u.Length == v.Length == weight.Length && c < u.Length
    modifies u, v, weight
    ensures forall k :: 0 <= k < u.Length && k != c ==> u[k] == old(u[k]) && v[k] == old(v[k]) && weight[k] == old(weight[k])
    ensures u[c] == old(u[c]) + Weighted(p, Blue) && v[c] == old(v[c]) + Weighted(p, Red)
    ensures weight[c] == old(weight[c]) + p.a as real
  {
    hide BlueChroma, RedChroma;
    u[c] := u[c] + Weighted(p, Blue);
    v[c] := v[c] + Weighted(p, Red);
    weight[c] := weight[c] + p.a as real;
  }

  lemma BlockIsThere(s: Still, y: nat, x: nat)
    requires s.Valid() && y < s.height && x < s.width
    ensures BlockOf(s.width, y, x) < s.width / 2 * (s.height / 2)
  {
    NextRow(y / 2, s.height / 2, s.width / 2);
  }

  /** What the block sums are, the pixels before column `x` of row `y` having been added. */
  ghost predicate SumsTo(s: Still, u: array<real>, v: array<real>, weight: array<real>, y: nat, x: nat)
    requires s.Valid() && y <= s.height && x <= s.width && (y == s.height ==> x == 0)
    reads u, v, weight
  {
    u.Length == v.Length == weight.Length
    && forall c :: 0 <= c < u.Length ==>
      && u[c] == ChromaSum(s, Blue, c, y, x) && v[c] == ChromaSum(s, Red, c, y, x)
      && weight[c] == Weight(s, c, y, x) as real
  }

  method SumBlocks(s: Still, u: array<real>, v: array<real>, weight: array<real>)
    requires s.Valid() && u != v && u != weight && v != weight
    requires u.Length == v.Length == weight.Length == s.width / 2 * (s.height / 2)
    requires forall c :: 0 <= c < u.Length ==> u[c] == v[c] == weight[c] == 0.0
    modifies u, v, weight
    ensures SumsTo(s, u, v, weight, s.height, 0)
  {
    hide Weighted, PixelAt, BlockOf;
    for y := 0 to s.height
      invariant SumsTo(s, u, v, weight, y, 0)
    {
      for x := 0 to s.width
        invariant SumsTo(s, u, v, weight, y, x)
      {
        BlockIsThere(s, y, x);
        AddPixel(u, v, weight, BlockOf(s.width, y, x), PixelAt(s, y, x));
      }
    }
  }

  /** Luma and alpha, pixel by pixel. */
  method FullPlanes(s: Still) returns (luma: seq<real>, alpha: seq<real>)
    requires s.Valid()
    ensures luma == InPlanes(s).luma.values && alpha == InPlanes(s).alpha.values
  {
    hide PixelNo, LumaOf, ChromaPlane;
    var n := s.width * s.height;
    var y, a := new real[n](_ => 0.0), new real[n](_ => 0.0);
    for i := 0 to n
      invariant forall k :: 0 <= k < i ==> y[k] == LumaOf(PixelNo(s, k)) && a[k] == PixelNo(s, k).a as real
    {
      y[i], a[i] := LumaOf(PixelNo(s, i)), PixelNo(s, i).a as real;
    }
    luma, alpha := y[..], a[..];
    assert luma == InPlanes(s).luma.values;
    assert alpha == InPlanes(s).alpha.values;
  }

  /** Each block's sum made its value. */
  method Divide(s: Still, d: Difference, sums: array<real>, weight: array<real>)
    requires s.Valid() && sums != weight && sums.Length == weight.Length
    requires forall c :: 0 <= c < sums.Length ==>
      sums[c] == ChromaSum(s, d, c, s.height, 0) && weight[c] == Weight(s, c, s.height, 0) as real
    modifies sums
    ensures forall c :: 0 <= c < sums.Length ==> sums[c] == ChromaOf(s, d, c)
  {
    hide ChromaSum, Weight;
    for c := 0 to sums.Length
      invariant forall k :: 0 <= k < c ==> sums[k] == ChromaOf(s, d, k)
      invariant forall k :: c <= k < sums.Length ==> sums[k] == ChromaSum(s, d, k, s.height, 0)
    {
      sums[c] := 128.0 + (if weight[c] != 0.0 then sums[c] / weight[c] else 0.0);
    }
  }

  /** The planes of a still, each value worked out once. */
  method PlanesOf(s: Still) returns (p: Planes)
    requires s.Valid()
    ensures p == InPlanes(s)
  {
    hide PixelNo, LumaOf, ChromaOf, ChromaSum, Weight;
    var q := s.width / 2 * (s.height / 2);
    var luma, alpha := FullPlanes(s);
    var u, v, weight := new real[q](_ => 0.0), new real[q](_ => 0.0), new real[q](_ => 0.0);
    SumBlocks(s, u, v, weight);
    Divide(s, Blue, u, weight);
    Divide(s, Red, v, weight);
    assert u[..] == ChromaPlane(s, Blue).values;
    assert v[..] == ChromaPlane(s, Red).values;
    p := Planes(Plane(s.width, s.height, luma), Plane(s.width / 2, s.height / 2, u[..]),
                Plane(s.width / 2, s.height / 2, v[..]), Plane(s.width, s.height, alpha));
  }
}
