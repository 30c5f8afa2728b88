/**
  Half-open pixel rectangles (compute_geometry.cpp): 32-bit fields, 64-bit
  intermediates, truncating division, and one checked narrowing step.  The laws
  speak of pixel sets, and where a law fails on some inputs the exact condition
  under which it holds is proved.
 */
module Geometry {
  const INT_MIN: int := -0x8000_0000
  const INT_MAX: int := 0x7FFF_FFFF
  const I64_MIN: int := -0x8000_0000_0000_0000
  const I64_MAX: int := 0x7FFF_FFFF_FFFF_FFFF

  predicate IsInt(n: int) { INT_MIN <= n <= INT_MAX }

  predicate IsInt64(n: int) { I64_MIN <= n <= I64_MAX }

  datatype Rect = Rect(x: int, y: int, width: int, height: int) {
    predicate Valid() { IsInt(x) && IsInt(y) && IsInt(width) && IsInt(height) }

    predicate Empty() { width <= 0 || height <= 0 }

    function Right(): (n: int) { x + width }

    function Bottom(): (n: int) { y + height }

    /** The rectangle as a set of pixels. */
    predicate Has(px: int, py: int) { x <= px < x + width && y <= py < y + height }
  }

  datatype Size = Size(width: int, height: int) {
    predicate Valid() { IsInt(width) && IsInt(height) }

    predicate Has(px: int, py: int) { 0 <= px < width && 0 <= py < height }
  }

  const NO_RECT := Rect(0, 0, 0, 0)

  function Min(a: int, b: int): (m: int) { if b < a then b else a }

  function Max(a: int, b: int): (m: int) { if a < b then b else a }

  function Clamp(v: int, lo: int, hi: int): (r: int) {
    if v < lo then lo else if hi < v then hi else v
  }

  /** C++ division by a positive divisor: toward zero. */
  function TruncDiv(a: int, b: int): (q: int)
    requires b > 0
  {
    if a >= 0 then a / b else -((-a) / b)
  }

  /** The checked narrowing: anything empty or not representable becomes the empty rectangle. */
  function FromEdges(x0: int, y0: int, x1: int, y1: int): (r: Rect) {
    if x1 <= x0 || y1 <= y0 || x0 < INT_MIN || y0 < INT_MIN || x1 > INT_MAX || y1 > INT_MAX
       || x1 - x0 > INT_MAX || y1 - y0 > INT_MAX
    then NO_RECT
    else Rect(x0, y0, x1 - x0, y1 - y0)
  }

  function Clip(r: Rect, b: Size): (c: Rect) {
    if b.width <= 0 || b.height <= 0 || r.Empty() then NO_RECT
    else FromEdges(Clamp(r.x, 0, b.width), Clamp(r.y, 0, b.height),
                   Clamp(r.Right(), 0, b.width), Clamp(r.Bottom(), 0, b.height))
  }

  function Intersect(a: Rect, b: Rect): (r: Rect) {
    if a.Empty() || b.Empty() then NO_RECT
    else FromEdges(Max(a.x, b.x), Max(a.y, b.y), Min(a.Right(), b.Right()), Min(a.Bottom(), b.Bottom()))
  }

  function Translate(r: Rect, dx: int, dy: int): (t: Rect) {
    if r.Empty() then NO_RECT
    else if dx < INT_MIN - r.x || dx > INT_MAX - r.x || dy < INT_MIN - r.y || dy > INT_MAX - r.y then NO_RECT
    else FromEdges(r.x + dx, r.y + dy, r.x + dx + r.width, r.y + dy + r.height)
  }

  function Expand(r: Rect, padding: int): (e: Rect) {
    if padding <= 0 || r.Empty() then r
    else FromEdges(r.x - padding, r.y - padding, r.Right() + padding, r.Bottom() + padding)
  }

  function Merge(a: Rect, b: Rect): (m: Rect) {
    if a.Empty() then b
    else if b.Empty() then a
    else FromEdges(Min(a.x, b.x), Min(a.y, b.y), Max(a.Right(), b.Right()), Max(a.Bottom(), b.Bottom()))
  }

  /** An aligned lower edge and an aligned upper edge, as the code rounds them. */
  function AlignLow(x: int, f: int): (n: int)
    requires f > 0
  {
    TruncDiv(x, f) * f
  }

  function AlignHigh(x: int, f: int): (n: int)
    requires f > 0
  {
    TruncDiv(x + f - 1, f) * f
  }

  function Align(r: Rect, f: int): (a: Rect) {
    if r.Empty() || f <= 1 then r
    else FromEdges(AlignLow(r.x, f), AlignLow(r.y, f), AlignHigh(r.Right(), f), AlignHigh(r.Bottom(), f))
  }

  function ScaleDownSize(s: Size, f: int): (t: Size) {
    if s.width <= 0 || s.height <= 0 || f <= 0 then Size(0, 0)
    else Size(TruncDiv(s.width + f - 1, f), TruncDiv(s.height + f - 1, f))
  }

  function ScaleDown(r: Rect, f: int): (s: Rect) {
    if r.Empty() || f <= 0 then NO_RECT
    else FromEdges(TruncDiv(r.x, f), TruncDiv(r.y, f),
                   TruncDiv(r.Right() + f - 1, f), TruncDiv(r.Bottom() + f - 1, f))
  }

  function ScaleUp(r: Rect, f: int): (s: Rect) {
    if r.Empty() || f <= 0 then NO_RECT
    else FromEdges(r.x * f, r.y * f, r.Right() * f, r.Bottom() * f)
  }

  function Halo(r: Rect, size: int, b: Size): (h: Rect) {
    if size <= 0 then Clip(r, b) else Clip(Expand(r, size), b)
  }

  // ------------------------------------------------------------------- pixel sets

  /** The edges describe a rectangle that narrows without loss. */
  predicate Fits(x0: int, y0: int, x1: int, y1: int) {
    INT_MIN <= x0 && INT_MIN <= y0 && x1 <= INT_MAX && y1 <= INT_MAX && x1 - x0 <= INT_MAX && y1 - y0 <= INT_MAX
  }

  predicate Nonempty(x0: int, y0: int, x1: int, y1: int) { x0 < x1 && y0 < y1 }

  predicate Box(x0: int, y0: int, x1: int, y1: int, px: int, py: int) { x0 <= px < x1 && y0 <= py < y1 }

  /** Narrowing keeps the pixel set exactly when the edges are empty or representable, else nothing at all. */
  lemma NarrowingIsExactIff(x0: int, y0: int, x1: int, y1: int)
    ensures FromEdges(x0, y0, x1, y1).Valid()
    ensures !Nonempty(x0, y0, x1, y1) || !Fits(x0, y0, x1, y1) ==> FromEdges(x0, y0, x1, y1) == NO_RECT
    ensures (forall px, py :: FromEdges(x0, y0, x1, y1).Has(px, py) <==> Box(x0, y0, x1, y1, px, py))
            <==> (!Nonempty(x0, y0, x1, y1) || Fits(x0, y0, x1, y1))
  {
    if Nonempty(x0, y0, x1, y1) && !Fits(x0, y0, x1, y1) {
      assert Box(x0, y0, x1, y1, x0, y0) && !FromEdges(x0, y0, x1, y1).Has(x0, y0);
    }
  }

  /** Clipping is exact intersection with the bounds for all int fields. */
  lemma ClipIsExact(r: Rect, b: Size, px: int, py: int)
    requires r.Valid() && b.Valid()
    ensures Clip(r, b).Has(px, py) <==> r.Has(px, py) && b.Has(px, py)
    ensures Clip(r, b).Valid()
  {
  }

  /** Intersection is exact exactly when it is empty or ends within the int range. */
  lemma IntersectIsExactIff(a: Rect, b: Rect)
    requires a.Valid() && b.Valid() && !a.Empty() && !b.Empty()
    ensures (forall px, py :: Intersect(a, b).Has(px, py) <==> a.Has(px, py) && b.Has(px, py))
            <==> (|| Max(a.x, b.x) >= Min(a.Right(), b.Right())
                  || Max(a.y, b.y) >= Min(a.Bottom(), b.Bottom())
                  || (Min(a.Right(), b.Right()) <= INT_MAX && Min(a.Bottom(), b.Bottom()) <= INT_MAX))
    ensures Min(a.Right(), b.Right()) > INT_MAX || Min(a.Bottom(), b.Bottom()) > INT_MAX ==>
              Intersect(a, b) == NO_RECT
  {
    var x0, y0, x1, y1 := Max(a.x, b.x), Max(a.y, b.y), Min(a.Right(), b.Right()), Min(a.Bottom(), b.Bottom());
    NarrowingIsExactIff(x0, y0, x1, y1);
    forall px, py ensures Box(x0, y0, x1, y1, px, py) <==> a.Has(px, py) && b.Has(px, py) {
    }
    if Nonempty(x0, y0, x1, y1) && !Fits(x0, y0, x1, y1) {
      assert Box(x0, y0, x1, y1, x0, y0) && !Intersect(a, b).Has(x0, y0);
    }
  }

  /** Padding is exact exactly when every padded edge and extent is representable. */
  lemma ExpandIsExactIff(r: Rect, padding: int)
    requires r.Valid() && !r.Empty() && 0 < padding <= INT_MAX
    ensures (forall px, py :: Expand(r, padding).Has(px, py) <==>
                                Box(r.x - padding, r.y - padding, r.Right() + padding, r.Bottom() + padding, px, py))
            <==> Fits(r.x - padding, r.y - padding, r.Right() + padding, r.Bottom() + padding)
    ensures !Fits(r.x - padding, r.y - padding, r.Right() + padding, r.Bottom() + padding) ==>
              Expand(r, padding) == NO_RECT
  {
    NarrowingIsExactIff(r.x - padding, r.y - padding, r.Right() + padding, r.Bottom() + padding);
    assert Expand(r, padding) == FromEdges(r.x - padding, r.y - padding, r.Right() + padding, r.Bottom() + padding);
    assert Nonempty(r.x - padding, r.y - padding, r.Right() + padding, r.Bottom() + padding);
  }

  predicate Covers(a: Rect, r: Rect) {
    a.x <= r.x && a.y <= r.y && r.Right() <= a.Right() && r.Bottom() <= a.Bottom()
  }

  /** Covering edges and covering pixels are the same for nonempty rectangles. */
  lemma CoversIsPixels(a: Rect, r: Rect)
    requires !r.Empty()
    ensures Covers(a, r) <==> forall px, py :: r.Has(px, py) ==> a.Has(px, py)
  {
    if forall px, py :: r.Has(px, py) ==> a.Has(px, py) {
      assert r.Has(r.x, r.y) && r.Has(r.Right() - 1, r.Bottom() - 1);
      assert a.Has(r.x, r.y) && a.Has(r.Right() - 1, r.Bottom() - 1);
    }
  }

  /** Merging gives the least rectangle around both exactly when that one is representable. */
  lemma MergeIsLeastIff(a: Rect, b: Rect)
    requires a.Valid() && b.Valid() && !a.Empty() && !b.Empty()
    ensures Covers(Merge(a, b), a) && Covers(Merge(a, b), b)
            <==> Fits(Min(a.x, b.x), Min(a.y, b.y), Max(a.Right(), b.Right()), Max(a.Bottom(), b.Bottom()))
    ensures !(Covers(Merge(a, b), a) && Covers(Merge(a, b), b)) ==> Merge(a, b) == NO_RECT
    ensures Covers(Merge(a, b), a) && Covers(Merge(a, b), b) ==>
              forall c: Rect :: Covers(c, a) && Covers(c, b) ==> Covers(c, Merge(a, b))
  {
  }

  /** Translation moves every pixel exactly when the moved rectangle is representable, and back again. */
  lemma TranslateIsExactIff(r: Rect, dx: int, dy: int)
    requires r.Valid() && !r.Empty()
    ensures var t := Translate(r, dx, dy);
            && (!t.Empty() <==> Fits(r.x + dx, r.y + dy, r.Right() + dx, r.Bottom() + dy))
            && (!t.Empty() ==> forall px, py :: t.Has(px, py) <==> r.Has(px - dx, py - dy))
            && (!t.Empty() && r.Right() <= INT_MAX && r.Bottom() <= INT_MAX ==> Translate(t, -dx, -dy) == r)
  {
  }

  /** The halo is the padded rectangle within the bounds, exactly when padding loses nothing there. */
  lemma HaloIsExactIff(r: Rect, size: int, b: Size)
    requires r.Valid() && !r.Empty() && 0 < size <= INT_MAX && b.Valid()
    ensures var x0, y0, x1, y1 := r.x - size, r.y - size, r.Right() + size, r.Bottom() + size;
            (forall px, py :: Halo(r, size, b).Has(px, py) <==> Box(x0, y0, x1, y1, px, py) && b.Has(px, py))
            <==> (|| Fits(x0, y0, x1, y1)
                  || !Nonempty(Max(x0, 0), Max(y0, 0), Min(x1, b.width), Min(y1, b.height)))
  {
    var x0, y0, x1, y1 := r.x - size, r.y - size, r.Right() + size, r.Bottom() + size;
    var e := FromEdges(x0, y0, x1, y1);
    NarrowingIsExactIff(x0, y0, x1, y1);
    forall px, py ensures Halo(r, size, b).Has(px, py) <==> e.Has(px, py) && b.Has(px, py) {
      ClipIsExact(e, b, px, py);
    }
    ClippedBoxIff(x0, y0, x1, y1, b);
  }

  /** Narrowing a box keeps its pixels within bounds exactly when it fits or has none there. */
  lemma ClippedBoxIff(x0: int, y0: int, x1: int, y1: int, b: Size)
    requires x0 < x1 && y0 < y1
    ensures (forall px, py :: FromEdges(x0, y0, x1, y1).Has(px, py) && b.Has(px, py) <==>
                                Box(x0, y0, x1, y1, px, py) && b.Has(px, py))
            <==> Fits(x0, y0, x1, y1) || !Nonempty(Max(x0, 0), Max(y0, 0), Min(x1, b.width), Min(y1, b.height))
  {
    var qx, qy := Max(x0, 0), Max(y0, 0);
    if !Fits(x0, y0, x1, y1) && Nonempty(qx, qy, Min(x1, b.width), Min(y1, b.height)) {
      assert Box(x0, y0, x1, y1, qx, qy) && b.Has(qx, qy) && !FromEdges(x0, y0, x1, y1).Has(qx, qy);
    }
  }

  /** With an empty rectangle, or nothing to pad, move or divide by, no law has a condition. */
  lemma DegenerateInputs(a: Rect, b: Rect, n: int, s: Size, px: int, py: int)
    requires a.Valid() && b.Valid() && s.Valid()
    ensures a.Empty() || b.Empty() ==> (Merge(a, b).Has(px, py) <==> a.Has(px, py) || b.Has(px, py))
    ensures a.Empty() || b.Empty() ==> Intersect(a, b) == NO_RECT
    ensures n <= 0 || a.Empty() ==> (Expand(a, n).Has(px, py) <==> a.Has(px, py))
    ensures n <= 0 || a.Empty() ==> (Halo(a, n, s).Has(px, py) <==> a.Has(px, py) && s.Has(px, py))
    ensures n <= 1 || a.Empty() ==> (Align(a, n).Has(px, py) <==> a.Has(px, py))
    ensures n <= 0 || a.Empty() ==> ScaleDown(a, n) == NO_RECT && ScaleUp(a, n) == NO_RECT
    ensures n <= 0 || s.width <= 0 || s.height <= 0 ==> ScaleDownSize(s, n) == Size(0, 0)
    ensures a.Empty() ==> Translate(a, px, py) == NO_RECT
  {
    if n <= 0 || a.Empty() {
      ClipIsExact(a, s, px, py);
    }
  }

  // ------------------------------------------------------------------ the grid laws

  /** The multiple of `f` next below or at `x`, and next above or at it. */
  function GridFloor(x: int, f: int): (n: int)
    requires f > 0
  {
    x / f * f
  }

  function GridCeil(x: int, f: int): (n: int)
    requires f > 0
  {
    -((-x) / f * f)
  }

  predicate OnGrid(x: int, f: int)
    requires f > 0
  {
    x % f == 0
  }

  lemma MulOrder(a: int, b: int, f: int)
    requires a <= b && f >= 0
    ensures a * f <= b * f
  {
    assert (b - a) * f >= 0;
  }

  /** A multiple strictly between -f and f is zero. */
  lemma SmallMultiple(d: int, f: int, v: int)
    requires d * f == v && -f < v < f
    ensures d == 0
  {
  }

  /** Euclidean quotient and remainder are the only ones. */
  lemma QuotientUnique(a: int, f: int, q: int, s: int)
    requires f > 0 && a == q * f + s && 0 <= s < f
    ensures a / f == q && a % f == s
  {
    var d := a / f - q;
    assert a == (a / f) * f + a % f;
    assert d * f == (a / f) * f - q * f;
    SmallMultiple(d, f, s - a % f);
  }

  lemma MulMod(q: int, f: int)
    requires f > 0
    ensures (q * f) % f == 0 && (q * f) / f == q
  {
    QuotientUnique(q * f, f, q, 0);
  }

  lemma Parts(x: int, f: int)
    requires f > 0
    ensures x == (x / f) * f + x % f && 0 <= x % f < f
  {
  }

  lemma FloorBounds(x: int, f: int)
    requires f > 0
    ensures OnGrid(GridFloor(x, f), f) && GridFloor(x, f) <= x < GridFloor(x, f) + f
    ensures GridFloor(x, f) == x - x % f
  {
    MulMod(x / f, f);
    Parts(x, f);
  }

  /** The quotient and remainder of the negated number. */
  lemma NegatedParts(x: int, f: int, q: int, s: int)
    requires f > 0 && x == q * f + s && 0 <= s < f
    ensures (-x) / f == if s == 0 then -q else -q - 1
  {
    if s == 0 {
      assert (-q) * f == -(q * f);
      QuotientUnique(-x, f, -q, 0);
    } else {
      assert (-q - 1) * f == -(q * f) - f;
      QuotientUnique(-x, f, -q - 1, f - s);
    }
  }

  /** The ceiling in terms of quotient and remainder. */
  lemma CeilOfParts(x: int, f: int, q: int, s: int)
    requires f > 0 && x == q * f + s && 0 <= s < f
    ensures GridCeil(x, f) == if s == 0 then q * f else q * f + f
  {
    NegatedParts(x, f, q, s);
    assert (-q) * f == -(q * f);
    assert (-q - 1) * f == -(q * f) - f;
  }

  lemma CeilBounds(x: int, f: int)
    requires f > 0
    ensures OnGrid(GridCeil(x, f), f) && GridCeil(x, f) - f < x <= GridCeil(x, f)
  {
    Parts(x, f);
    CeilOfParts(x, f, x / f, x % f);
    MulMod(x / f, f);
    assert (x / f + 1) * f == x / f * f + f;
    MulMod(x / f + 1, f);
  }

  /** Truncating division in terms of quotient and remainder. */
  lemma TruncOfParts(x: int, f: int, q: int, s: int)
    requires f > 0 && x == q * f + s && 0 <= s < f
    ensures TruncDiv(x, f) == if x >= 0 || s == 0 then q else q + 1
  {
    if x >= 0 {
      QuotientUnique(x, f, q, s);
    } else {
      NegatedParts(x, f, q, s);
    }
  }

  /** The lower edge is rounded down exactly for nonnegative or aligned coordinates, else up. */
  lemma AlignLowIsFloorIff(x: int, f: int)
    requires f >= 2
    ensures AlignLow(x, f) == if x >= 0 || OnGrid(x, f) then GridFloor(x, f) else GridFloor(x, f) + f
  {
    Parts(x, f);
    TruncOfParts(x, f, x / f, x % f);
    assert (x / f + 1) * f == x / f * f + f;
  }

  /** The upper edge is rounded to the next grid line, except one too far for some negative edges. */
  lemma AlignHighIsCeilIff(x: int, f: int)
    requires f >= 2
    ensures AlignHigh(x, f) ==
              if x + f - 1 >= 0 || x % f == 1 then GridCeil(x, f) else GridCeil(x, f) + f
  {
    Parts(x, f);
    CeilOfParts(x, f, x / f, x % f);
    HighOfParts(x, f, x / f, x % f);
  }

  lemma HighOfParts(x: int, f: int, q: int, s: int)
    requires f >= 2 && x == q * f + s && 0 <= s < f
    ensures AlignHigh(x, f) ==
              if x + f - 1 >= 0 then (if s == 0 then q * f else q * f + f)
              else if s <= 1 then q * f + f else q * f + 2 * f
  {
    assert (q + 1) * f == q * f + f && (q + 2) * f == q * f + 2 * f;
    if s == 0 {
      TruncOfParts(x + f - 1, f, q, f - 1);
    } else {
      TruncOfParts(x + f - 1, f, q + 1, s - 1);
    }
  }

  // Align as a grid cover.

  predicate Aligned(r: Rect, f: int)
    requires f > 0
  {
    OnGrid(r.x, f) && OnGrid(r.y, f) && OnGrid(r.Right(), f) && OnGrid(r.Bottom(), f)
  }

  /** The edges the code aligns to. */
  predicate AlignedFits(r: Rect, f: int)
    requires f >= 2
  {
    Fits(AlignLow(r.x, f), AlignLow(r.y, f), AlignHigh(r.Right(), f), AlignHigh(r.Bottom(), f))
  }

  /** An origin coordinate that truncation does not move inward. */
  predicate RoundsDown(x: int, f: int)
    requires f > 0
  {
    x >= 0 || OnGrid(x, f)
  }

  /** An end coordinate that the code does not round one grid step too far. */
  predicate RoundsUp(x: int, f: int)
    requires f > 0
  {
    x + f - 1 >= 0 || x % f == 1
  }

  lemma AlignEdges(x: int, right: int, f: int)
    requires f >= 2 && x < right
    ensures OnGrid(AlignLow(x, f), f) && OnGrid(AlignHigh(right, f), f)
    ensures right <= AlignHigh(right, f)
    ensures AlignLow(x, f) <= x <==> RoundsDown(x, f)
  {
    AlignLowIsFloorIff(x, f);
    AlignHighIsCeilIff(right, f);
    FloorBounds(x, f);
    CeilBounds(right, f);
    MulMod(TruncDiv(x, f), f);
    MulMod(TruncDiv(right + f - 1, f), f);
  }

  /** Alignment covers the rectangle exactly for representable edges and origins that round down. */
  lemma AlignCoversIff(r: Rect, f: int)
    requires r.Valid() && !r.Empty() && 2 <= f <= INT_MAX
    ensures Covers(Align(r, f), r) <==> AlignedFits(r, f) && RoundsDown(r.x, f) && RoundsDown(r.y, f)
    ensures Covers(Align(r, f), r) ==> Aligned(Align(r, f), f)
  {
    AlignEdges(r.x, r.Right(), f);
    AlignEdges(r.y, r.Bottom(), f);
  }

  /** Alignment loses no pixel under exactly those conditions. */
  lemma AlignKeepsPixelsIff(r: Rect, f: int)
    requires r.Valid() && !r.Empty() && 2 <= f <= INT_MAX
    ensures (forall px, py :: r.Has(px, py) ==> Align(r, f).Has(px, py))
            <==> AlignedFits(r, f) && RoundsDown(r.x, f) && RoundsDown(r.y, f)
  {
    AlignCoversIff(r, f);
    CoversIsPixels(Align(r, f), r);
  }

  /** No aligned rectangle that covers `r` is smaller than `a`. */
  ghost predicate LeastCover(a: Rect, r: Rect, f: int)
    requires f > 0
  {
    && Covers(a, r) && Aligned(a, f)
    && forall c: Rect :: Covers(c, r) && Aligned(c, f) ==> Covers(c, a)
  }

  lemma GridNeighbours(c: int, x: int, f: int)
    requires f > 0 && OnGrid(c, f)
    ensures c <= x ==> c <= GridFloor(x, f)
    ensures x <= c ==> GridCeil(x, f) <= c
  {
    Parts(c, f);
    Parts(x, f);
    CeilOfParts(x, f, x / f, x % f);
    var k, m := c / f, x / f;
    if k <= m {
      MulOrder(k, m, f);
    } else {
      MulOrder(m + 1, k, f);
      assert (m + 1) * f == m * f + f;
    }
    if k <= m - 1 {
      MulOrder(k, m - 1, f);
      assert (m - 1) * f == m * f - f;
    }
  }

  /**
    Alignment is the least grid-aligned cover exactly when the aligned edges are
    representable, both origin coordinates round down and both end coordinates
    round up to the next grid line; nonnegative origins always do.
   */
  lemma AlignIsLeastCoverIff(r: Rect, f: int)
    requires r.Valid() && !r.Empty() && 2 <= f <= INT_MAX
    ensures LeastCover(Align(r, f), r, f) <==>
              && AlignedFits(r, f)
              && RoundsDown(r.x, f) && RoundsDown(r.y, f)
              && RoundsUp(r.Right(), f) && RoundsUp(r.Bottom(), f)
    ensures r.x >= 0 && r.y >= 0 && AlignedFits(r, f) ==> LeastCover(Align(r, f), r, f)
  {
    AlignCoversIff(r, f);
    var best := GridCover(r, f);
    GridCoverIsLeast(r, f);
    if Covers(Align(r, f), r) {
      AlignEdgesExact(r, f);
      LeastIsUnique(Align(r, f), best, r, f);
    }
  }

  lemma LeastIsUnique(a: Rect, b: Rect, r: Rect, f: int)
    requires f > 0 && LeastCover(b, r, f) && Covers(a, r) && Aligned(a, f)
    ensures LeastCover(a, r, f) <==> a == b
  {
    if LeastCover(a, r, f) {
      assert Covers(a, b) && Covers(b, a);
    }
  }

  /** The least aligned cover, by floor and ceiling. */
  function GridCover(r: Rect, f: int): (a: Rect)
    requires f > 0
  {
    var x0, y0 := GridFloor(r.x, f), GridFloor(r.y, f);
    Rect(x0, y0, GridCeil(r.Right(), f) - x0, GridCeil(r.Bottom(), f) - y0)
  }

  lemma GridCoverIsLeast(r: Rect, f: int)
    requires f > 0
    ensures LeastCover(GridCover(r, f), r, f)
  {
    FloorBounds(r.x, f);
    FloorBounds(r.y, f);
    CeilBounds(r.Right(), f);
    CeilBounds(r.Bottom(), f);
    forall c: Rect | Covers(c, r) && Aligned(c, f) ensures Covers(c, GridCover(r, f)) {
      GridNeighbours(c.x, r.x, f);
      GridNeighbours(c.y, r.y, f);
      GridNeighbours(c.Right(), r.Right(), f);
      GridNeighbours(c.Bottom(), r.Bottom(), f);
    }
  }

  /** Where alignment covers, it is the grid cover exactly when the end coordinates round up. */
  lemma AlignEdgesExact(r: Rect, f: int)
    requires r.Valid() && !r.Empty() && 2 <= f <= INT_MAX && Covers(Align(r, f), r)
    ensures Align(r, f) == GridCover(r, f) <==> RoundsUp(r.Right(), f) && RoundsUp(r.Bottom(), f)
    ensures Covers(Align(r, f), GridCover(r, f))
  {
    AlignCoversIff(r, f);
    AlignLowIsFloorIff(r.x, f);
    AlignLowIsFloorIff(r.y, f);
    AlignHighIsCeilIff(r.Right(), f);
    AlignHighIsCeilIff(r.Bottom(), f);
  }

  // -------------------------------------------------------------------- scaling laws

  /** Division by at least two at least halves. */
  lemma TruncHalves(a: int, f: int)
    requires f >= 2
    ensures a >= 0 ==> 0 <= 2 * TruncDiv(a, f) <= a
    ensures a < 0 ==> a <= 2 * TruncDiv(a, f) <= 0
  {
    var m := if a >= 0 then a else -a;
    Parts(m, f);
    MulOrder(2, f, m / f);
    assert 2 * (m / f) <= f * (m / f) == (m / f) * f;
  }

  lemma HighHalves(right: int, f: int)
    requires f >= 2
    ensures right >= 1 ==> 0 <= 2 * (TruncDiv(right + f - 1, f) - 1) <= right - 1
    ensures right <= 0 ==> TruncDiv(right + f - 1, f) <= 0
  {
    if right >= 1 {
      Parts(right - 1, f);
      var q := (right - 1) / f;
      assert (q + 1) * f == q * f + f;
      TruncOfParts(right - 1, f, q, (right - 1) % f);
      TruncOfParts(right + f - 1, f, q + 1, (right - 1) % f);
      TruncHalves(right - 1, f);
    } else if right + f - 1 >= 0 {
      QuotientUnique(right + f - 1, f, 0, right + f - 1);
    } else {
      TruncHalves(right + f - 1, f);
    }
  }

  /** A scaled-down axis always narrows. */
  lemma ScaledDownFits(x: int, width: int, f: int)
    requires IsInt(x) && IsInt(width) && width > 0 && 2 <= f <= INT_MAX
    ensures INT_MIN <= TruncDiv(x, f) && TruncDiv(x + width + f - 1, f) <= INT_MAX
    ensures TruncDiv(x + width + f - 1, f) - TruncDiv(x, f) <= INT_MAX
  {
    TruncHalves(x, f);
    HighHalves(x + width, f);
  }

  /** Scaling both edges by a positive factor keeps them nonempty or empty. */
  lemma MulStrict(a: int, b: int, f: int)
    requires f > 0
    ensures a < b <==> a * f < b * f
  {
    if a < b {
      MulOrder(a + 1, b, f);
      assert (a + 1) * f == a * f + f;
    } else {
      MulOrder(b, a, f);
    }
  }

  /** For every nonempty int rectangle, aligning is scaling down and up again. */
  lemma AlignIsDownThenUp(r: Rect, f: int)
    requires r.Valid() && !r.Empty() && 2 <= f <= INT_MAX
    ensures Align(r, f) == ScaleUp(ScaleDown(r, f), f)
  {
    ScaledDownFits(r.x, r.width, f);
    ScaledDownFits(r.y, r.height, f);
    EdgesDownThenUp(r, f, TruncDiv(r.x, f), TruncDiv(r.y, f),
                    TruncDiv(r.Right() + f - 1, f), TruncDiv(r.Bottom() + f - 1, f));
  }

  lemma EdgesDownThenUp(r: Rect, f: int, x0: int, y0: int, x1: int, y1: int)
    requires !r.Empty() && f >= 2 && Fits(x0, y0, x1, y1)
    requires x0 == TruncDiv(r.x, f) && y0 == TruncDiv(r.y, f)
    requires x1 == TruncDiv(r.Right() + f - 1, f) && y1 == TruncDiv(r.Bottom() + f - 1, f)
    ensures Align(r, f) == ScaleUp(ScaleDown(r, f), f)
  {
    UpAfterNarrowing(x0, y0, x1, y1, f);
  }

  lemma UpAfterNarrowing(x0: int, y0: int, x1: int, y1: int, f: int)
    requires f > 0 && Fits(x0, y0, x1, y1)
    ensures ScaleUp(FromEdges(x0, y0, x1, y1), f) == FromEdges(x0 * f, y0 * f, x1 * f, y1 * f)
  {
    MulStrict(x0, x1, f);
    MulStrict(y0, y1, f);
  }

  predicate ScaledUpFits(r: Rect, f: int) {
    Fits(r.x * f, r.y * f, r.Right() * f, r.Bottom() * f)
  }

  lemma ScaledAxis(x: int, right: int, f: int)
    requires f > 0
    ensures TruncDiv(x * f, f) == x
    ensures TruncDiv(right * f + f - 1, f) == if right >= 0 || f == 1 then right else right + 1
  {
    TruncOfParts(x * f, f, x, 0);
    TruncOfParts(right * f + f - 1, f, right, f - 1);
    MulStrict(right, 0, f);
    if right < 0 {
      MulOrder(right, -1, f);
    }
  }

  lemma FitsScaledDown(a: int, b: int, f: int)
    requires f > 0 && a < b && INT_MIN <= a * f && b * f <= INT_MAX && b * f - a * f <= INT_MAX
    requires IsInt(a) && b - a <= INT_MAX
    ensures INT_MIN <= a && b <= INT_MAX
  {
    if b > 0 {
      MulOrder(1, f, b);
      assert b * f == f * b;
    }
  }

  /**
    Scaling down undoes scaling up exactly when the scaled rectangle is
    representable and, for factors above one, both end coordinates are
    nonnegative; nonnegative origins always are.
   */
  lemma DownUndoesUpIff(r: Rect, f: int)
    requires r.Valid() && !r.Empty() && 1 <= f <= INT_MAX
    ensures ScaleDown(ScaleUp(r, f), f) == r <==>
              ScaledUpFits(r, f) && (f == 1 || (r.Right() >= 0 && r.Bottom() >= 0))
    ensures r.x >= 0 && r.y >= 0 && ScaledUpFits(r, f) ==> ScaleDown(ScaleUp(r, f), f) == r
  {
    MulStrict(r.x, r.Right(), f);
    MulStrict(r.y, r.Bottom(), f);
    ScaledAxis(r.x, r.Right(), f);
    ScaledAxis(r.y, r.Bottom(), f);
    if ScaledUpFits(r, f) {
      var u := ScaleUp(r, f);
      assert u == Rect(r.x * f, r.y * f, r.Right() * f - r.x * f, r.Bottom() * f - r.y * f);
      FitsScaledDown(r.x, r.Right(), f);
      FitsScaledDown(r.y, r.Bottom(), f);
      assert u.Right() == r.Right() * f && u.Bottom() == r.Bottom() * f;
    }
  }

  // Scaling as maps between pixels and cells of `f` by `f` pixels.

  lemma CellOf(p: int, f: int, lo: int, hi: int)
    requires f > 0
    ensures lo * f <= p < hi * f <==> lo <= p / f < hi
  {
    Parts(p, f);
    var q := p / f;
    if lo <= q { MulOrder(lo, q, f); } else { MulOrder(q + 1, lo, f); }
    if q < hi { MulOrder(q + 1, hi, f); } else { MulOrder(hi, q, f); }
    assert (q + 1) * f == q * f + f;
  }

  /** Scaling up fills every cell of `r` and no other, exactly when the filled rectangle is representable. */
  lemma ScaleUpFillsCellsIff(r: Rect, f: int)
    requires r.Valid() && !r.Empty() && f > 0
    ensures (forall px, py :: ScaleUp(r, f).Has(px, py) <==> r.Has(px / f, py / f)) <==> ScaledUpFits(r, f)
    ensures !ScaledUpFits(r, f) ==> ScaleUp(r, f) == NO_RECT
  {
    MulStrict(r.x, r.Right(), f);
    MulStrict(r.y, r.Bottom(), f);
    NarrowingIsExactIff(r.x * f, r.y * f, r.Right() * f, r.Bottom() * f);
    forall px, py ensures Box(r.x * f, r.y * f, r.Right() * f, r.Bottom() * f, px, py) <==> r.Has(px / f, py / f) {
      CellOf(px, f, r.x, r.Right());
      CellOf(py, f, r.y, r.Bottom());
    }
    if !ScaledUpFits(r, f) {
      assert Box(r.x * f, r.y * f, r.Right() * f, r.Bottom() * f, r.x * f, r.y * f);
      assert ScaleUp(r, f) == NO_RECT;
      assert !ScaleUp(r, f).Has(r.x * f, r.y * f);
    }
  }

  /** Where the lower edge and the upper edge of a scaled-down axis lie, in cells. */
  function CellLow(x: int, f: int): (c: int)
    requires f > 0
  {
    if RoundsDown(x, f) then x / f else x / f + 1
  }

  function CellHigh(x: int, f: int): (c: int)
    requires f > 0
  {
    if RoundsUp(x, f) then (x - 1) / f + 1 else (x - 1) / f + 2
  }

  lemma ScaledEdges(x: int, f: int)
    requires f >= 2
    ensures TruncDiv(x, f) == CellLow(x, f)
    ensures TruncDiv(x + f - 1, f) == CellHigh(x, f)
  {
    Parts(x, f);
    TruncOfParts(x, f, x / f, x % f);
    Parts(x - 1, f);
    var q, s := (x - 1) / f, (x - 1) % f;
    assert (q + 1) * f == q * f + f;
    TruncOfParts(x + f - 1, f, q + 1, s);
    if s == f - 1 {
      QuotientUnique(x, f, q + 1, 0);
    } else {
      QuotientUnique(x, f, q, s + 1);
    }
  }

  /** The scaled-down and the aligned rectangle for every origin and end, negative ones included. */
  lemma ScaledAndAlignedEdges(r: Rect, f: int)
    requires r.Valid() && !r.Empty() && 2 <= f <= INT_MAX
    ensures var x0, y0, x1, y1 := CellLow(r.x, f), CellLow(r.y, f), CellHigh(r.Right(), f), CellHigh(r.Bottom(), f);
            && ScaleDown(r, f) == (if x0 < x1 && y0 < y1 then Rect(x0, y0, x1 - x0, y1 - y0) else NO_RECT)
            && Align(r, f) ==
                 (if x0 < x1 && y0 < y1 && Fits(x0 * f, y0 * f, x1 * f, y1 * f)
                  then Rect(x0 * f, y0 * f, x1 * f - x0 * f, y1 * f - y0 * f) else NO_RECT)
  {
    ScaledEdges(r.x, f);
    ScaledEdges(r.y, f);
    ScaledEdges(r.Right(), f);
    ScaledEdges(r.Bottom(), f);
    ScaledDownFits(r.x, r.width, f);
    ScaledDownFits(r.y, r.height, f);
    MulStrict(CellLow(r.x, f), CellHigh(r.Right(), f), f);
    MulStrict(CellLow(r.y, f), CellHigh(r.Bottom(), f), f);
  }

  /** Some pixel of `r` lies in the cell. */
  ghost predicate Touches(r: Rect, f: int, cx: int, cy: int)
    requires f > 0
  {
    exists px, py :: r.Has(px, py) && px / f == cx && py / f == cy
  }

  lemma InCell(p: int, f: int, c: int)
    requires f > 0
    ensures p / f == c <==> c * f <= p < (c + 1) * f
  {
    CellOf(p, f, c, c + 1);
  }

  /** Some coordinate from `x` to before `right` lies in cell `c`. */
  lemma AxisTouches(x: int, right: int, f: int, c: int)
    requires f > 0 && x < right
    ensures x / f <= c <= (right - 1) / f ==> var p := Max(x, c * f); x <= p < right && p / f == c
    ensures forall p | x <= p < right :: x / f <= p / f <= (right - 1) / f
  {
    Parts(x, f);
    Parts(right - 1, f);
    if x / f <= c <= (right - 1) / f {
      MulOrder(c, (right - 1) / f, f);
      MulOrder(x / f, c, f);
      MulOrder(x / f + 1, c + 1, f);
      assert (x / f + 1) * f == x / f * f + f && (c + 1) * f == c * f + f;
      InCell(Max(x, c * f), f, c);
    }
    forall p | x <= p < right ensures x / f <= p / f <= (right - 1) / f {
      Quotients(x, p, f);
      Quotients(p, right - 1, f);
    }
  }

  lemma Quotients(a: int, b: int, f: int)
    requires f > 0 && a <= b
    ensures a / f <= b / f
  {
    Parts(a, f);
    Parts(b, f);
    assert (b / f + 1) * f == b / f * f + f;
    if b / f < a / f {
      MulOrder(b / f + 1, a / f, f);
    }
  }

  lemma TouchedCells(r: Rect, f: int, cx: int, cy: int)
    requires !r.Empty() && f > 0
    ensures Touches(r, f, cx, cy) <==>
              r.x / f <= cx <= (r.Right() - 1) / f && r.y / f <= cy <= (r.Bottom() - 1) / f
  {
    AxisTouches(r.x, r.Right(), f, cx);
    AxisTouches(r.y, r.Bottom(), f, cy);
    if r.x / f <= cx <= (r.Right() - 1) / f && r.y / f <= cy <= (r.Bottom() - 1) / f {
      assert r.Has(Max(r.x, cx * f), Max(r.y, cy * f));
    }
  }

  /**
    Scaling down gives the cells that hold a pixel of `r`, exactly when both
    origin coordinates round down and both end coordinates round up.
   */
  lemma ScaleDownIsTouchedCellsIff(r: Rect, f: int)
    requires r.Valid() && !r.Empty() && 2 <= f <= INT_MAX
    ensures (forall cx, cy :: ScaleDown(r, f).Has(cx, cy) <==> Touches(r, f, cx, cy)) <==>
              && RoundsDown(r.x, f) && RoundsDown(r.y, f)
              && RoundsUp(r.Right(), f) && RoundsUp(r.Bottom(), f)
  {
    ScaledAndAlignedEdges(r, f);
    forall cx, cy ensures Touches(r, f, cx, cy) <==>
        Box(r.x / f, r.y / f, (r.Right() - 1) / f + 1, (r.Bottom() - 1) / f + 1, cx, cy) {
      TouchedCells(r, f, cx, cy);
    }
    Quotients(r.x, r.Right() - 1, f);
    Quotients(r.y, r.Bottom() - 1, f);
    SameBox(ScaleDown(r, f), r.x / f, r.y / f, (r.Right() - 1) / f + 1, (r.Bottom() - 1) / f + 1);
  }

  /** A rectangle has the pixels of a nonempty box exactly when it has its edges. */
  lemma SameBox(r: Rect, x0: int, y0: int, x1: int, y1: int)
    requires x0 < x1 && y0 < y1
    ensures (forall px, py :: r.Has(px, py) <==> Box(x0, y0, x1, y1, px, py))
            <==> r == Rect(x0, y0, x1 - x0, y1 - y0)
  {
    if forall px, py :: r.Has(px, py) <==> Box(x0, y0, x1, y1, px, py) {
      assert Box(x0, y0, x1, y1, x0, y0) && Box(x0, y0, x1, y1, x1 - 1, y1 - 1);
      assert r.Has(x0, y0) && r.Has(x1 - 1, y1 - 1);
      assert !r.Has(x0 - 1, y0) && !r.Has(x0, y0 - 1) && !r.Has(x1, y1 - 1) && !r.Has(x1 - 1, y1);
    }
  }

  /** A scaled-down size is the least whose cells cover the size, and fits an int. */
  lemma ScaledSizeCovers(s: Size, f: int)
    requires s.Valid() && s.width > 0 && s.height > 0 && 1 <= f <= INT_MAX
    ensures var t := ScaleDownSize(s, f);
            && t.Valid() && 1 <= t.width <= s.width && 1 <= t.height <= s.height
            && (t.width - 1) * f < s.width <= t.width * f
            && (t.height - 1) * f < s.height <= t.height * f
  {
    CeilQuotient(s.width, f);
    CeilQuotient(s.height, f);
  }

  lemma CeilQuotient(w: int, f: int)
    requires w > 0 && f > 0
    ensures var t := TruncDiv(w + f - 1, f); 1 <= t <= w && (t - 1) * f < w <= t * f
  {
    Parts(w - 1, f);
    var q := (w - 1) / f;
    assert (q + 1) * f == q * f + f;
    QuotientUnique(w + f - 1, f, q + 1, (w - 1) % f);
    MulOrder(1, f, q);
    assert q <= f * q == q * f;
  }

  // ------------------------------------------------------------- 64-bit intermediates

  lemma ProductRange(a: int, f: int)
    requires -0x1_0000_0000 < a < 0x1_0000_0000 && 0 <= f <= INT_MAX
    ensures IsInt64(a * f)
  {
    MulOrder(-0x1_0000_0000, a, f);
    MulOrder(a, 0x1_0000_0000, f);
  }

  /** No intermediate of any function leaves the 64-bit range, including both scaled edges. */
  lemma NoOverflow(r: Rect, f: int)
    requires r.Valid() && IsInt(f)
    ensures IsInt64(r.Right()) && IsInt64(r.Bottom())
    ensures IsInt64(r.x - f) && IsInt64(r.Right() + f) && IsInt64(r.Right() + f - 1)
    ensures IsInt64(r.y - f) && IsInt64(r.Bottom() + f) && IsInt64(r.Bottom() + f - 1)
    ensures !r.Empty() && f > 0 ==>
              && IsInt64(r.x * f) && IsInt64(r.y * f) && IsInt64(r.Right() * f) && IsInt64(r.Bottom() * f)
              && IsInt64(AlignLow(r.x, f)) && IsInt64(AlignHigh(r.Right(), f))
              && IsInt64(AlignLow(r.y, f)) && IsInt64(AlignHigh(r.Bottom(), f))
  {
    if !r.Empty() && f > 0 {
      ProductRange(r.x, f);
      ProductRange(r.y, f);
      ProductRange(r.Right(), f);
      ProductRange(r.Bottom(), f);
      AlignNear(r.x, f);
      AlignNear(r.y, f);
      AlignNear(r.Right() + f - 1, f);
      AlignNear(r.Bottom() + f - 1, f);
    }
  }

  /** Truncating to a multiple moves toward zero by less than the factor. */
  lemma AlignNear(x: int, f: int)
    requires f > 0
    ensures x >= 0 ==> x - f < TruncDiv(x, f) * f <= x
    ensures x < 0 ==> x <= TruncDiv(x, f) * f < x + f
  {
    Parts(x, f);
    TruncOfParts(x, f, x / f, x % f);
    assert (x / f + 1) * f == x / f * f + f;
  }

  /** The width subtraction in the narrowing is reached only where it cannot overflow. */
  lemma NarrowingNeverOverflows(x0: int, x1: int)
    requires IsInt64(x0) && IsInt64(x1)
    requires !(x1 <= x0 || x0 < INT_MIN || x1 > INT_MAX)
    ensures IsInt64(x1 - x0) && 0 < x1 - x0 <= INT_MAX - INT_MIN
  {
  }

  /** Translation's guards and sums stay in range for every 64-bit offset. */
  lemma TranslationNeverOverflows(r: Rect, dx: int)
    requires r.Valid() && IsInt64(dx)
    ensures IsInt64(INT_MIN - r.x) && IsInt64(INT_MAX - r.x)
    ensures !(dx < INT_MIN - r.x || dx > INT_MAX - r.x) ==> IsInt64(r.x + dx) && IsInt64(r.x + dx + r.width)
  {
  }

  // ------------------------------------------------------------ inputs that break a law

  /** A negative origin off the grid is cut. */
  lemma AlignCutsNegativeOrigin()
    ensures !Covers(Align(Rect(-3, 0, 2, 2), 2), Rect(-3, 0, 2, 2))
  {
    assert !RoundsDown(-3, 2);
    AlignCoversIff(Rect(-3, 0, 2, 2), 2);
  }

  /** A negative end is covered by one cell too many. */
  lemma AlignOvershootsNegativeEnd()
    ensures var r := Rect(-8, 0, 2, 1);
            Align(r, 4) == Rect(-8, 0, 8, 4) && Covers(Align(r, 4), r) && !LeastCover(Align(r, 4), r, 4)
  {
    assert TruncDiv(-8, 4) == -2 && TruncDiv(-3, 4) == 0 && TruncDiv(0, 4) == 0 && TruncDiv(4, 4) == 1;
    assert !RoundsUp(-6, 4);
    AlignIsLeastCoverIff(Rect(-8, 0, 2, 1), 4);
  }

  /** A negative end is not restored by scaling up and down. */
  lemma ScalingLosesNegativeEnd()
    ensures ScaleDown(ScaleUp(Rect(-3, 0, 2, 2), 2), 2) != Rect(-3, 0, 2, 2)
  {
    DownUndoesUpIff(Rect(-3, 0, 2, 2), 2);
  }

  /** An edge outside the int range empties an intersection, a padding and a merge. */
  lemma FarEdgesVanish()
    ensures var far := Rect(INT_MAX, 0, 2, 1); far.Valid() && far.Has(INT_MAX, 0) && Intersect(far, far) == NO_RECT
    ensures Expand(Rect(INT_MAX - 1, 0, 1, 1), 1) == NO_RECT
    ensures Merge(Rect(INT_MIN, 0, 1, 1), Rect(INT_MAX - 1, 0, 1, 1)) == NO_RECT
  {
  }

  // ------------------------------------------------------------ planned output sizes

  /** merge_task_extent (compute_node_task_runner.cpp). */
  function TaskExtent(current: Size, roi: Rect): (s: Size) {
    if roi.Empty() || roi.Right() <= 0 || roi.Bottom() <= 0 || roi.Right() > INT_MAX || roi.Bottom() > INT_MAX
    then current
    else Size(Max(current.width, roi.Right()), Max(current.height, roi.Bottom()))
  }

  /** The tile is nonempty and ends within the positive int range. */
  predicate Counts(roi: Rect) {
    roi.width > 0 && roi.height > 0 && 0 < roi.Right() <= INT_MAX && 0 < roi.Bottom() <= INT_MAX
  }

  /** The size planned for a node from its tile regions. */
  function PlannedSize(rois: seq<Rect>): (s: Size) {
    if rois == [] then Size(0, 0) else TaskExtent(PlannedSize(rois[..|rois| - 1]), rois[|rois| - 1])
  }

  /** The planned size holds every tile that counts and is attained on both axes. */
  lemma {:induction false} PlannedSizeIsLeast(rois: seq<Rect>)
    ensures var s := PlannedSize(rois);
            && s.Valid() && s.width >= 0 && s.height >= 0
            && (forall i | 0 <= i < |rois| && Counts(rois[i]) ::
                  rois[i].Right() <= s.width && rois[i].Bottom() <= s.height)
            && (s.width > 0 ==> exists i | 0 <= i < |rois| :: Counts(rois[i]) && rois[i].Right() == s.width)
            && (s.height > 0 ==> exists i | 0 <= i < |rois| :: Counts(rois[i]) && rois[i].Bottom() == s.height)
  {
    if rois != [] {
      var init, last := rois[..|rois| - 1], rois[|rois| - 1];
      PlannedSizeIsLeast(init);
      var t, s := PlannedSize(init), PlannedSize(rois);
      assert last == rois[|rois| - 1];
      if s.width > 0 && s.width == t.width {
        var i :| 0 <= i < |init| && Counts(init[i]) && init[i].Right() == t.width;
        assert rois[i] == init[i];
      }
      if s.height > 0 && s.height == t.height {
        var i :| 0 <= i < |init| && Counts(init[i]) && init[i].Bottom() == t.height;
        assert rois[i] == init[i];
      }
    }
  }
}
