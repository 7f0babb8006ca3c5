/**
 * The circular coverflow carousel engine (the `useCardsCarousel` hook).
 *
 * Pure parts: wrap-around index arithmetic, the responsive side-count
 * heuristic, the window of visible offsets, the per-offset 3D style and the
 * pointer-drag step. Stateful part: the class `Carousel`, whose fields are the
 * hook's state cell `current`, the auto side count and the three drag refs.
 * Pixel quantities are exact reals; indices and offsets are integers.
 */
module UseCardsCarousel {
  import opened Wrappers

  // ---------------------------------------------------------------------------
  // Integer remainder as JavaScript computes it, and the facts about Dafny's
  // Euclidean `%` that the wrap proofs need.
  // ---------------------------------------------------------------------------

  /** `a % b` in JavaScript: truncated toward zero, so it takes the sign of `a`. */
  function JsRem(a: int, b: int): (r: int)
    requires b > 0
    ensures -b < r < b
    ensures a >= 0 ==> 0 <= r
    ensures a <= 0 ==> r <= 0
    ensures (a - r) % b == 0
  {
    JsRemCongruent(a, b);
    if a >= 0 then a % b else -((-a) % b)
  }

  lemma JsRemCongruent(a: int, b: int)
    requires b > 0
    ensures (a - (if a >= 0 then a % b else -((-a) % b))) % b == 0
  {
    if a >= 0 {
      assert a - a % b == (a / b) * b;
      ModMultiple(a / b, b);
    } else {
      var q := (-a) / b;
      assert a + (-a) % b == (-q) * b;
      ModMultiple(-q, b);
    }
  }

  lemma {:induction false} MulAtLeast(d: int, b: int)
    requires d >= 1 && b > 0
    ensures d * b >= b
  {
    if d > 1 {
      MulAtLeast(d - 1, b);
      assert d * b == (d - 1) * b + b;
    }
  }

  /** Euclidean division has exactly one quotient/remainder pair. */
  lemma ModUnique(a: int, b: int, q: int, r: int)
    requires b > 0 && a == q * b + r && 0 <= r < b
    ensures a % b == r && a / b == q
  {
    var q0, r0 := a / b, a % b;
    assert (q - q0) * b == r0 - r by {
      assert q * b - q0 * b == (q - q0) * b;
    }
    if q0 < q {
      MulAtLeast(q - q0, b);
    } else if q < q0 {
      MulAtLeast(q0 - q, b);
    }
  }

  lemma ModMultiple(q: int, b: int)
    requires b > 0
    ensures (q * b) % b == 0
  {
    ModUnique(q * b, b, q, 0);
  }

  /** Adding a multiple of `b` does not change the remainder. */
  lemma ModAddMultiple(x: int, k: int, b: int)
    requires b > 0
    ensures (x + k * b) % b == x % b
  {
    var q, r := x / b, x % b;
    assert x + k * b == (q + k) * b + r;
    ModUnique(x + k * b, b, q + k, r);
  }

  lemma ModOfIndex(r: int, b: int)
    requires 0 <= r < b
    ensures r % b == r
  {
    ModUnique(r, b, 0, r);
  }

  // ---------------------------------------------------------------------------
  // Wrap-index arithmetic
  // ---------------------------------------------------------------------------

  /** `c` is a position the carousel can be centred on. */
  predicate IsIndex(c: int, total: int) {
    if total > 0 then 0 <= c < total else c == 0
  }

  /**
   * `wrap(i)`: `0` for an empty (or negative) total, otherwise
   * `((i % total) + total) % total` with JavaScript's remainder; the result is
   * the non-negative residue of `i` modulo `total`.
   */
  function Wrap(i: int, total: int): (r: int)
    ensures IsIndex(r, total)
    ensures total <= 0 ==> r == 0
    ensures total > 0 ==> r == i % total
  {
    if total <= 0 then 0
    else
      var first := JsRem(i, total);
      var s := first + total;
      assert i - first == ((i - first) / total) * total;
      ModAddMultiple(i, 1 - (i - first) / total, total);
      assert s == i + (1 - (i - first) / total) * total;
      JsRem(s, total)
  }

  lemma WrapPeriodic(i: int, total: int)
    requires total > 0
    ensures Wrap(i + total, total) == Wrap(i, total)
  {
    ModAddMultiple(i, 1, total);
  }

  lemma WrapIdempotent(i: int, total: int)
    ensures Wrap(Wrap(i, total), total) == Wrap(i, total)
  {
    if total > 0 {
      ModOfIndex(Wrap(i, total), total);
    }
  }

  /** Wrapping an intermediate sum changes nothing: `wrap(wrap(a) + b) == wrap(a + b)`. */
  lemma WrapAddWrap(a: int, b: int, total: int)
    ensures Wrap(Wrap(a, total) + b, total) == Wrap(a + b, total)
  {
    if total > 0 {
      assert Wrap(a, total) + b == (a + b) + (-(a / total)) * total;
      ModAddMultiple(a + b, -(a / total), total);
    }
  }

  lemma WrapOfIndex(c: int, total: int)
    requires IsIndex(c, total)
    ensures Wrap(c, total) == c
  {
    if total > 0 {
      ModOfIndex(c, total);
    }
  }

  /** `next` then `prev`, and `prev` then `next`, return to the start. */
  lemma NextPrevInverse(c: int, total: int)
    requires IsIndex(c, total)
    ensures Wrap(Wrap(c + 1, total) - 1, total) == c
    ensures Wrap(Wrap(c - 1, total) + 1, total) == c
  {
    WrapAddWrap(c + 1, -1, total);
    WrapAddWrap(c - 1, 1, total);
    WrapOfIndex(c, total);
  }

  /** The centred index after `n` calls of `next` starting from `c`. */
  function Advance(c: int, n: nat, total: int): int
  {
    if n == 0 then c else Wrap(Advance(c, n - 1, total) + 1, total)
  }

  /** The centred index after `n` calls of `prev` starting from `c`. */
  function Retreat(c: int, n: nat, total: int): int
  {
    if n == 0 then c else Wrap(Retreat(c, n - 1, total) - 1, total)
  }

  lemma {:induction false} AdvanceIsWrap(c: int, n: nat, total: int)
    requires IsIndex(c, total)
    ensures Advance(c, n, total) == Wrap(c + n, total)
  {
    if n == 0 {
      WrapOfIndex(c, total);
    } else {
      AdvanceIsWrap(c, n - 1, total);
      WrapAddWrap(c + (n - 1), 1, total);
    }
  }

  lemma {:induction false} RetreatIsWrap(c: int, n: nat, total: int)
    requires IsIndex(c, total)
    ensures Retreat(c, n, total) == Wrap(c - n, total)
  {
    if n == 0 {
      WrapOfIndex(c, total);
    } else {
      RetreatIsWrap(c, n - 1, total);
      WrapAddWrap(c - (n - 1), -1, total);
    }
  }

  /** `total` calls of `next`, or of `prev`, bring the carousel back to where it started. */
  lemma FullTurn(c: int, total: int)
    requires total > 0 && IsIndex(c, total)
    ensures Advance(c, total, total) == c
    ensures Retreat(c, total, total) == c
  {
    AdvanceIsWrap(c, total, total);
    RetreatIsWrap(c, total, total);
    WrapPeriodic(c, total);
    WrapPeriodic(c - total, total);
    WrapOfIndex(c, total);
  }

  // ---------------------------------------------------------------------------
  // Responsive window sizing
  // ---------------------------------------------------------------------------

  /** Lateral margin reserved on each side for the buttons and shadows. */
  const SidePadding: real := 56.0

  function Usable(viewportWidth: real): (u: real)
    ensures u >= 0.0 && u >= viewportWidth - 2.0 * SidePadding
    ensures u == 0.0 || u == viewportWidth - 2.0 * SidePadding
  {
    if viewportWidth - SidePadding * 2.0 > 0.0 then viewportWidth - SidePadding * 2.0 else 0.0
  }

  /** Approximate horizontal cost of one side card (side cards overlap). */
  function PerSideUnit(cardWidth: real, gap: real): real {
    cardWidth * 0.6 + gap
  }

  /** `k` side cards per side fit next to the centre card. */
  predicate Fits(viewportWidth: real, cardWidth: real, gap: real, k: int) {
    Usable(viewportWidth) >= cardWidth + PerSideUnit(cardWidth, gap) * (k as real)
  }

  /**
   * `computeResponsiveSidePerSide`: the largest `k` in 4, 3, 2, 1 (tried in that
   * order) whose window fits the usable width, else 0.
   */
  function ResponsiveSidesPerSide(viewportWidth: real, cardWidth: real, gap: real): (r: int)
    ensures 0 <= r <= 4
    ensures r > 0 ==> Fits(viewportWidth, cardWidth, gap, r)
    ensures forall k :: r < k <= 4 ==> !Fits(viewportWidth, cardWidth, gap, k)
  {
    if Fits(viewportWidth, cardWidth, gap, 4) then 4
    else if Fits(viewportWidth, cardWidth, gap, 3) then 3
    else if Fits(viewportWidth, cardWidth, gap, 2) then 2
    else if Fits(viewportWidth, cardWidth, gap, 1) then 1
    else 0
  }

  /** A wider viewport never shows fewer side cards. */
  lemma ResponsiveMonotone(vw1: real, vw2: real, cardWidth: real, gap: real)
    requires vw1 <= vw2
    ensures ResponsiveSidesPerSide(vw1, cardWidth, gap) <= ResponsiveSidesPerSide(vw2, cardWidth, gap)
  {
    var r1 := ResponsiveSidesPerSide(vw1, cardWidth, gap);
    if r1 > 0 {
      assert Usable(vw1) <= Usable(vw2);
      assert Fits(vw2, cardWidth, gap, r1);
    }
  }

  /** 1920 px with 560 px cards and 64 px gaps leaves room for 3 per side. */
  lemma ResponsiveExample()
    ensures ResponsiveSidesPerSide(1920.0, 560.0, 64.0) == 3
    ensures ResponsiveSidesPerSide(1920.0, 420.0, 32.0) == 4
    ensures ResponsiveSidesPerSide(0.0, 420.0, 32.0) == 0
  {
  }

  /** Explicit side counts; either side may be left to the automatic value. */
  datatype SideCounts = SideCounts(left: Option<int>, right: Option<int>)

  /** `sideCounts?.left ?? auto`. */
  function LeftCount(sideCounts: Option<SideCounts>, auto: int): (l: int)
    ensures sideCounts.Some? && sideCounts.value.left.Some? ==> l == sideCounts.value.left.value
    ensures sideCounts.None? || sideCounts.value.left.None? ==> l == auto
  {
    if sideCounts.Some? then sideCounts.value.left.GetOr(auto) else auto
  }

  /** `sideCounts?.right ?? auto`. */
  function RightCount(sideCounts: Option<SideCounts>, auto: int): (r: int)
    ensures sideCounts.Some? && sideCounts.value.right.Some? ==> r == sideCounts.value.right.value
    ensures sideCounts.None? || sideCounts.value.right.None? ==> r == auto
  {
    if sideCounts.Some? then sideCounts.value.right.GetOr(auto) else auto
  }

  // ---------------------------------------------------------------------------
  // Offset window
  // ---------------------------------------------------------------------------

  /** `Array.from({ length: n })` has no entries for a negative `n`. */
  function Len(n: int): nat {
    if n > 0 then n else 0
  }

  /**
   * `[-left .. -1] + [0] + [1 .. right]`: entry `j` is `j - left`, so the window
   * is strictly increasing and 0 stands exactly once, at position `left`.
   */
  function OffsetWindow(left: int, right: int): (w: seq<int>)
    ensures |w| == Len(left) + 1 + Len(right)
    ensures forall j :: 0 <= j < |w| ==> w[j] == j - Len(left)
    ensures forall i, j :: 0 <= i < j < |w| ==> w[i] < w[j]
    ensures w[Len(left)] == 0
    ensures forall j :: 0 <= j < |w| && w[j] == 0 ==> j == Len(left)
  {
    seq(Len(left), i => -left + i) + [0] + seq(Len(right), i => i + 1)
  }

  // ---------------------------------------------------------------------------
  // Offset-to-transform projection
  // ---------------------------------------------------------------------------

  /** Geometry configuration: card width, gap and depth step in px, tilt step in degrees. */
  datatype Geometry = Geometry(cardWidth: real, gap: real, depth: real, tilt: real)

  /** The style of the card at one offset; the CSS transform is kept as its four numbers. */
  datatype CardStyle = CardStyle(
    translateX: real, translateZ: real, rotateY: real, scale: real,
    zIndex: int, opacity: real, maxWidth: real)

  function Abs(k: int): nat {
    if k < 0 then -k else k
  }

  function MaxReal(a: real, b: real): real {
    if a >= b then a else b
  }

  /** `getStyleForOffset(k)`. */
  function StyleForOffset(k: int, g: Geometry): (s: CardStyle)
    ensures s.zIndex == 1000 - Abs(k)
    ensures 0.82 <= s.scale <= 1.0 && 0.25 <= s.opacity <= 1.0
    ensures k == 0 ==> s.scale == 1.0 && s.opacity == 1.0 && s.translateX == 0.0 && s.translateZ == 0.0 && s.rotateY == 0.0
    ensures s.maxWidth == g.cardWidth
  {
    var abs := Abs(k) as real;
    CardStyle(
      translateX := (k as real) * (g.gap + g.cardWidth * 0.32),
      translateZ := -abs * g.depth,
      rotateY := -(k as real) * g.tilt,
      scale := MaxReal(0.82, 1.0 - abs * 0.08),
      zIndex := 1000 - Abs(k),
      opacity := MaxReal(0.25, 1.0 - abs * 0.18),
      maxWidth := g.cardWidth)
  }

  /** Mirror offsets get mirrored lateral position and tilt, and the same depth, size and fade. */
  lemma StyleMirror(k: int, g: Geometry)
    ensures StyleForOffset(-k, g).translateX == -StyleForOffset(k, g).translateX
    ensures StyleForOffset(-k, g).rotateY == -StyleForOffset(k, g).rotateY
    ensures StyleForOffset(-k, g).translateZ == StyleForOffset(k, g).translateZ
    ensures StyleForOffset(-k, g).scale == StyleForOffset(k, g).scale
    ensures StyleForOffset(-k, g).opacity == StyleForOffset(k, g).opacity
    ensures StyleForOffset(-k, g).zIndex == StyleForOffset(k, g).zIndex
  {
    assert Abs(-k) == Abs(k);
    assert ((-k) as real) * (g.gap + g.cardWidth * 0.32) == -((k as real) * (g.gap + g.cardWidth * 0.32));
    assert -((-k) as real) * g.tilt == -(-(k as real) * g.tilt);
  }

  /** Farther cards stack strictly lower and are never larger or more opaque. */
  lemma StyleFadesWithDistance(j: int, k: int, g: Geometry)
    requires Abs(j) < Abs(k)
    ensures StyleForOffset(k, g).zIndex < StyleForOffset(j, g).zIndex
    ensures StyleForOffset(k, g).scale <= StyleForOffset(j, g).scale
    ensures StyleForOffset(k, g).opacity <= StyleForOffset(j, g).opacity
  {
  }

  // ---------------------------------------------------------------------------
  // Pointer drag
  // ---------------------------------------------------------------------------

  /** The three drag refs: dragging flag, last pointer x, accumulated distance. */
  datatype Drag = Drag(dragging: bool, lastX: real, accum: real)

  /** What one pointer move asks of the state machine. */
  datatype Nav = Stay | GoPrev | GoNext

  /** Distance a drag must accumulate before it navigates: 35% of card width plus gap. */
  function DragThreshold(g: Geometry): (t: real)
    ensures g.cardWidth + g.gap > 0.0 ==> 0.0 < t < g.cardWidth + g.gap
    ensures g.cardWidth + g.gap <= 0.0 ==> t <= 0.0
  {
    (g.cardWidth + g.gap) * 0.35
  }

  /** The accumulator never exceeds the threshold's magnitude once a move has been handled. */
  predicate AccumBounded(accum: real, threshold: real) {
    if threshold >= 0.0 then -threshold <= accum <= threshold else -threshold >= accum >= threshold
  }

  /** `onPointerDown`: start dragging at `clientX ?? 0` with an empty accumulator. */
  function PointerDownStep(clientX: Option<real>): (d: Drag)
    ensures d.dragging && d.accum == 0.0
    ensures d.lastX == clientX.GetOr(0.0)
  {
    Drag(true, clientX.GetOr(0.0), 0.0)
  }

  /** `onPointerUp`: stop dragging and empty the accumulator. */
  function PointerUpStep(d: Drag): (r: Drag)
    ensures !r.dragging && r.accum == 0.0 && r.lastX == d.lastX
  {
    Drag(false, d.lastX, 0.0)
  }

  /**
   * `onPointerMove`: ignored unless dragging; otherwise adds the distance from
   * the previous pointer position and navigates at most once, resetting the
   * accumulator when it does (right past the threshold: previous; left: next).
   */
  function PointerMoveStep(d: Drag, clientX: Option<real>, threshold: real): (r: (Drag, Nav))
    ensures !d.dragging ==> r == (d, Stay)
    ensures d.dragging ==> r.0.dragging && r.0.lastX == clientX.GetOr(0.0)
    ensures d.dragging ==>
      var acc := d.accum + (clientX.GetOr(0.0) - d.lastX);
      && (r.1 == GoPrev <==> acc > threshold)
      && (r.1 == GoNext <==> acc < -threshold && !(acc > threshold))
      && (r.1 == Stay ==> r.0.accum == acc)
      && (r.1 != Stay ==> r.0.accum == 0.0)
    ensures d.dragging ==> AccumBounded(r.0.accum, threshold)
  {
    if !d.dragging then (d, Stay)
    else
      var x := clientX.GetOr(0.0);
      var acc := d.accum + (x - d.lastX);
      if acc > threshold then (Drag(true, x, 0.0), GoPrev)
      else if acc < -threshold then (Drag(true, x, 0.0), GoNext)
      else (Drag(true, x, acc), Stay)
  }

  /** The centred index after the navigation a move asks for. */
  function ApplyNav(c: int, nav: Nav, total: int): int {
    match nav
    case Stay => c
    case GoPrev => Wrap(c - 1, total)
    case GoNext => Wrap(c + 1, total)
  }

  /** A sequence of pointer moves at the given x positions: final drag state and navigations. */
  function Moves(d: Drag, xs: seq<real>, threshold: real): (Drag, seq<Nav>)
  {
    if xs == [] then (d, [])
    else
      var (d1, navs) := Moves(d, xs[..|xs| - 1], threshold);
      var (d2, nav) := PointerMoveStep(d1, Some(xs[|xs| - 1]), threshold);
      (d2, navs + [nav])
  }

  /**
   * While the pointer stays within the threshold of where the drag started,
   * no move navigates and the accumulator is exactly the net displacement.
   */
  lemma {:induction false} GestureWithinThreshold(x0: real, xs: seq<real>, threshold: real)
    requires forall j :: 0 <= j < |xs| ==> -threshold <= xs[j] - x0 <= threshold
    ensures var (d, navs) := Moves(PointerDownStep(Some(x0)), xs, threshold);
      && d.dragging
      && |navs| == |xs|
      && (forall j :: 0 <= j < |navs| ==> navs[j] == Stay)
      && d.lastX == (if xs == [] then x0 else xs[|xs| - 1])
      && d.accum == d.lastX - x0
  {
    if xs != [] {
      GestureWithinThreshold(x0, xs[..|xs| - 1], threshold);
    }
  }

  /**
   * The first move that takes the pointer beyond the threshold to the right of
   * the starting point navigates to the previous card, exactly once, and
   * empties the accumulator; to the left, it navigates to the next card.
   */
  lemma GestureCrossing(x0: real, xs: seq<real>, y: real, threshold: real)
    requires threshold >= 0.0
    requires forall j :: 0 <= j < |xs| ==> -threshold <= xs[j] - x0 <= threshold
    requires y - x0 > threshold || y - x0 < -threshold
    ensures var (d, navs) := Moves(PointerDownStep(Some(x0)), xs + [y], threshold);
      && d == Drag(true, y, 0.0)
      && |navs| == |xs| + 1
      && (forall j :: 0 <= j < |xs| ==> navs[j] == Stay)
      && navs[|xs|] == (if y - x0 > threshold then GoPrev else GoNext)
  {
    GestureWithinThreshold(x0, xs, threshold);
    assert (xs + [y])[..|xs + [y]| - 1] == xs;
  }

  /** With 560 px cards and 64 px gaps (threshold 218.4 px), dragging 220 px right navigates once. */
  lemma DragExample()
    ensures DragThreshold(Geometry(560.0, 64.0, 120.0, 14.0)) == 218.4
    ensures Moves(PointerDownStep(Some(0.0)), [100.0, 220.0], 218.4) == (Drag(true, 220.0, 0.0), [Stay, GoPrev])
  {
    assert [100.0] + [220.0] == [100.0, 220.0];
    GestureCrossing(0.0, [100.0], 220.0, 218.4);
    var (d, navs) := Moves(PointerDownStep(Some(0.0)), [100.0, 220.0], 218.4);
    assert navs == [Stay, GoPrev];
  }

  // ---------------------------------------------------------------------------
  // The hook instance
  // ---------------------------------------------------------------------------

  /**
   * One carousel instance: `current` is the state cell, `autoSides` the
   * responsive side count, and `isDragging`, `dragStartX`, `dragAccum` the
   * drag refs. `total` and the configuration are fixed per instance.
   */
  class Carousel {
    const total: int
    const geometry: Geometry
    const sideCounts: Option<SideCounts>
    var current: int
    var autoSides: int
    var isDragging: bool
    var dragStartX: real
    var dragAccum: real

    ghost predicate Valid()
      reads this
    {
      && IsIndex(current, total)
      && 0 <= autoSides <= 4
      && AccumBounded(dragAccum, DragThreshold(geometry))
    }

    function DragState(): Drag
      reads this
    {
      Drag(isDragging, dragStartX, dragAccum)
    }

    /** Side cards rendered to the left of the centre. */
    function Left(): int
      reads this
    {
      LeftCount(sideCounts, autoSides)
    }

    /** Side cards rendered to the right of the centre. */
    function Right(): int
      reads this
    {
      RightCount(sideCounts, autoSides)
    }

    /** `offsetWindow` for the current side counts. */
    function Window(): seq<int>
      reads this
    {
      OffsetWindow(Left(), Right())
    }

    /** `indexAtOffset(k)`: the real item index shown `k` places from the centre. */
    function IndexAtOffset(k: int): (r: int)
      reads this
      ensures IsIndex(r, total)
      ensures total > 0 ==> (r - (current + k)) % total == 0
      ensures IsIndex(current, total) && k == 0 ==> r == current
    {
      WrapOfIndexIfValid(current, total);
      WrapCongruent(current + k, total);
      Wrap(current + k, total)
    }

    /** `isCenterIndex(i)`: `i` wraps to the centred index. */
    function IsCenterIndex(i: int): (b: bool)
      reads this
      ensures IsIndex(current, total) && total > 0 ==> (b <==> (i - current) % total == 0)
      ensures IsIndex(current, total) && total <= 0 ==> b
    {
      CenterCongruence(i, current, total);
      Wrap(i, total) == current
    }

    /** Mounting: state 0, geometry defaults 420/32/120/14, auto sides from the viewport width. */
    constructor (total: int, cardWidth: Option<real>, gap: Option<real>, depth: Option<real>,
                 tilt: Option<real>, sideCounts: Option<SideCounts>, viewportWidth: real)
      ensures this.total == total && this.sideCounts == sideCounts
      ensures geometry == Geometry(cardWidth.GetOr(420.0), gap.GetOr(32.0), depth.GetOr(120.0), tilt.GetOr(14.0))
      ensures current == 0
      ensures autoSides == ResponsiveSidesPerSide(viewportWidth, geometry.cardWidth, geometry.gap)
      ensures !isDragging && dragStartX == 0.0 && dragAccum == 0.0
      ensures Valid()
    {
      this.total := total;
      this.sideCounts := sideCounts;
      geometry := Geometry(cardWidth.GetOr(420.0), gap.GetOr(32.0), depth.GetOr(120.0), tilt.GetOr(14.0));
      current := 0;
      autoSides := ResponsiveSidesPerSide(viewportWidth, cardWidth.GetOr(420.0), gap.GetOr(32.0));
      isDragging := false;
      dragStartX := 0.0;
      dragAccum := 0.0;
    }

    /** A resize event: recomputes the automatic count only when no `sideCounts` object was passed. */
    method Resize(viewportWidth: real)
      requires Valid()
      modifies this`autoSides
      ensures Valid()
      ensures sideCounts.None? ==> autoSides == ResponsiveSidesPerSide(viewportWidth, geometry.cardWidth, geometry.gap)
      ensures sideCounts.Some? ==> autoSides == old(autoSides) && Left() == old(Left()) && Right() == old(Right())
      ensures sideCounts.None? ==> Left() == Right()
    {
      if sideCounts.Some? {
        return;
      }
      autoSides := ResponsiveSidesPerSide(viewportWidth, geometry.cardWidth, geometry.gap);
    }

    /** `next()`. */
    method Next()
      modifies this`current
      ensures current == Wrap(old(current) + 1, total)
      ensures IsIndex(current, total)
    {
      current := Wrap(current + 1, total);
    }

    /** `prev()`. */
    method Prev()
      modifies this`current
      ensures current == Wrap(old(current) - 1, total)
      ensures IsIndex(current, total)
    {
      current := Wrap(current - 1, total);
    }

    /** `goTo(i)`: afterwards the card for `i` is the centred one. */
    method GoTo(i: int)
      modifies this`current
      ensures current == Wrap(i, total)
      ensures IndexAtOffset(0) == Wrap(i, total)
      ensures IsCenterIndex(i)
    {
      current := Wrap(i, total);
    }

    /** The window's keydown listener: ArrowRight is `next`, ArrowLeft is `prev`, anything else is ignored. */
    method OnKey(key: string)
      requires Valid()
      modifies this`current
      ensures Valid()
      ensures key == "ArrowRight" ==> current == Wrap(old(current) + 1, total)
      ensures key == "ArrowLeft" ==> current == Wrap(old(current) - 1, total)
      ensures key != "ArrowRight" && key != "ArrowLeft" ==> current == old(current)
    {
      if key == "ArrowRight" {
        Next();
      }
      if key == "ArrowLeft" {
        Prev();
      }
    }

    /** `onPointerDown`. */
    method PointerDown(clientX: Option<real>)
      requires Valid()
      modifies this`isDragging, this`dragStartX, this`dragAccum
      ensures Valid()
      ensures DragState() == PointerDownStep(clientX)
    {
      isDragging := true;
      dragStartX := clientX.GetOr(0.0);
      dragAccum := 0.0;
    }

    /** `onPointerMove`: one drag step, then the navigation it asks for. */
    method PointerMove(clientX: Option<real>)
      requires Valid()
      modifies this`dragStartX, this`dragAccum, this`current
      ensures Valid()
      ensures DragState() == PointerMoveStep(old(DragState()), clientX, DragThreshold(geometry)).0
      ensures current == ApplyNav(old(current), PointerMoveStep(old(DragState()), clientX, DragThreshold(geometry)).1, total)
    {
      if !isDragging {
        return;
      }
      var x := clientX.GetOr(0.0);
      var dx := x - dragStartX;
      dragStartX := x;
      dragAccum := dragAccum + dx;
      var threshold := (geometry.cardWidth + geometry.gap) * 0.35;
      if dragAccum > threshold {
        Prev();
        dragAccum := 0.0;
      } else if dragAccum < -threshold {
        Next();
        dragAccum := 0.0;
      }
    }

    /** `onPointerUp` (also wired to pointer cancel and leave). */
    method PointerUp()
      requires Valid()
      modifies this`isDragging, this`dragAccum
      ensures Valid()
      ensures DragState() == PointerUpStep(old(DragState()))
    {
      isDragging := false;
      dragAccum := 0.0;
    }
  }

  lemma WrapCongruent(i: int, total: int)
    ensures total > 0 ==> (Wrap(i, total) - i) % total == 0
  {
    if total > 0 {
      assert Wrap(i, total) - i == (-(i / total)) * total;
      ModMultiple(-(i / total), total);
    }
  }

  lemma WrapOfIndexIfValid(c: int, total: int)
    ensures IsIndex(c, total) ==> Wrap(c, total) == c
  {
    if IsIndex(c, total) {
      WrapOfIndex(c, total);
    }
  }

  /** For a valid centre `c`, `wrap(i) == c` exactly when `i` and `c` differ by a multiple of `total`. */
  lemma CenterCongruence(i: int, c: int, total: int)
    ensures IsIndex(c, total) && total > 0 ==> (Wrap(i, total) == c <==> (i - c) % total == 0)
  {
    if IsIndex(c, total) && total > 0 {
      ModOfIndex(c, total);
      ModAddMultiple(i, -(i / total), total);
      if Wrap(i, total) == c {
        assert i - c == (i / total) * total;
        ModMultiple(i / total, total);
      } else {
        var q := (i - c) / total;
        if (i - c) % total == 0 {
          assert i == c + q * total;
          ModAddMultiple(c, q, total);
          assert false;
        }
      }
    }
  }

  /** Pressing ArrowRight three times from 0 with five items centres item 3. */
  method KeyboardScenario()
  {
    var c := new Carousel(5, None, None, None, None, None, 1920.0);
    c.OnKey("ArrowRight");
    c.OnKey("ArrowRight");
    c.OnKey("ArrowRight");
    assert c.current == 3;
    c.OnKey("Enter");
    assert c.current == 3;
  }
}
