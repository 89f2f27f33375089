/**
 * Canvas geometry of the apple grid: the constants both versions of the game
 * share, the normalised drag rectangle, and the two hit tests — the circle
 * overlap test of the multiplayer board (src/components/AppleGame.js) and the
 * centre-point test of the single-player board (src/AppleGame.js).
 * Pointer coordinates are integers.
 */
module Geometry {
  import opened Cells

  const GridWidth := 20
  const GridHeight := 15
  const CellSize := 50
  const Padding := 5
  const AppleRadius := (CellSize - Padding * 2) / 2
  const ExtraPadding := 100
  const CellCount := GridWidth * GridHeight

  datatype Point = Point(x: int, y: int)
  datatype Rect = Rect(x: int, y: int, width: int, height: int)

  /** p lies in the closed rectangle r. */
  predicate Contains(r: Rect, p: Point) {
    r.x <= p.x <= r.x + r.width && r.y <= p.y <= r.y + r.height
  }

  /** The closed rectangle outer covers the closed rectangle inner. */
  predicate Encloses(outer: Rect, inner: Rect) {
    && outer.x <= inner.x && inner.x + inner.width <= outer.x + outer.width
    && outer.y <= inner.y && inner.y + inner.height <= outer.y + outer.height
  }

  function Min(a: int, b: int): int { if a <= b then a else b }
  function Abs(a: int): int { if a < 0 then -a else a }

  /**
   * The drag area between the drag start and the current pointer: the
   * smallest rectangle, of non-negative size, that contains both points.
   */
  function DragArea(start: Point, current: Point): (r: Rect)
    ensures r.width >= 0 && r.height >= 0
    ensures Contains(r, start) && Contains(r, current)
    ensures forall q :: Contains(q, start) && Contains(q, current) ==> Encloses(q, r)
  {
    Rect(Min(start.x, current.x), Min(start.y, current.y),
         Abs(current.x - start.x), Abs(current.y - start.y))
  }

  /** Centre of cell i on a canvas whose grid starts offset pixels from the corner. */
  function CentreX(i: nat, offset: int): int {
    (i % GridWidth) * CellSize + CellSize / 2 + offset
  }
  function CentreY(i: nat, offset: int): int {
    (i / GridWidth) * CellSize + CellSize / 2 + offset
  }

  /**
   * The multiplayer test: the apple's circle, of radius AppleRadius around
   * the padded centre, reaches into the rectangle on both axes.
   */
  predicate CircleTouches(i: nat, a: Rect) {
    var cx, cy := CentreX(i, ExtraPadding), CentreY(i, ExtraPadding);
    && cx + AppleRadius >= a.x && cx - AppleRadius <= a.x + a.width
    && cy + AppleRadius >= a.y && cy - AppleRadius <= a.y + a.height
  }

  /** The single-player test: the unpadded centre lies in the rectangle. */
  predicate CentreInside(i: nat, a: Rect) {
    Contains(a, Point(CentreX(i, 0), CentreY(i, 0)))
  }

  /** r widened by d on every side. */
  function Grow(r: Rect, d: int): Rect {
    Rect(r.x - d, r.y - d, r.width + 2 * d, r.height + 2 * d)
  }

  /** r moved by d along both axes. */
  function Shift(r: Rect, d: int): Rect {
    Rect(r.x + d, r.y + d, r.width, r.height)
  }

  /**
   * The circle test is the centre test against the rectangle widened by
   * the apple radius: the apple is touched iff its padded centre lies
   * within 20 pixels of the rectangle on each axis.
   */
  lemma CircleTouchesGrownArea(i: nat, a: Rect)
    ensures CircleTouches(i, a) <==>
      Contains(Grow(a, AppleRadius), Point(CentreX(i, ExtraPadding), CentreY(i, ExtraPadding)))
  {
  }

  /**
   * For the same drag drawn on each canvas (the multiplayer one offset by
   * the padding), every cell the single-player test selects is also
   * selected by the multiplayer test.
   */
  lemma CentreHitIsCircleHit(i: nat, a: Rect)
    requires CentreInside(i, a)
    ensures CircleTouches(i, Shift(a, ExtraPadding))
  {
  }

  /** Which of the two hit tests a board uses. */
  datatype HitRule = CircleOverlap | CentrePoint

  predicate Hits(rule: HitRule, i: nat, a: Rect) {
    match rule
    case CircleOverlap => CircleTouches(i, a)
    case CentrePoint => CentreInside(i, a)
  }

  /** The indices below n that the rule selects, in increasing order. */
  function IndicesWhere(rule: HitRule, n: nat, a: Rect): (r: seq<int>)
    ensures StrictlyIncreasing(r) && IndicesIn(r, n)
  {
    if n == 0 then []
    else IndicesWhere(rule, n - 1, a) + (if Hits(rule, n - 1, a) then [n - 1] else [])
  }

  /**
   * `apples.map((_, index) => hit ? index : null).filter((val) => val !== null)`:
   * the value of a cell plays no part, so removed (zero) cells are selected too.
   */
  function HitTest(rule: HitRule, apples: seq<int>, a: Rect): (r: seq<int>)
    ensures StrictlyIncreasing(r) && IndicesIn(r, |apples|)
  {
    IndicesWhere(rule, |apples|, a)
  }

  lemma {:induction false} IndicesWhereMembers(rule: HitRule, n: nat, a: Rect)
    ensures forall i :: 0 <= i < n ==> (i in IndicesWhere(rule, n, a) <==> Hits(rule, i, a))
  {
    if n > 0 {
      IndicesWhereMembers(rule, n - 1, a);
    }
  }

  /** Index i is selected exactly when the board's rule says it is hit, whatever its value. */
  lemma HitTestSelects(rule: HitRule, apples: seq<int>, a: Rect, i: int)
    requires 0 <= i < |apples|
    ensures i in HitTest(rule, apples, a) <==> Hits(rule, i, a)
  {
    IndicesWhereMembers(rule, |apples|, a);
  }

  /** Enlarging the drag rectangle never drops an index from the selection. */
  lemma HitTestMonotone(rule: HitRule, apples: seq<int>, inner: Rect, outer: Rect)
    requires Encloses(outer, inner)
    ensures forall i :: i in HitTest(rule, apples, inner) ==> i in HitTest(rule, apples, outer)
  {
    IndicesWhereMembers(rule, |apples|, inner);
    IndicesWhereMembers(rule, |apples|, outer);
  }
}
