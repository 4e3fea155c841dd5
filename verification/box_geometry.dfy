/** Rectangles, hulls of sets of boxes, and when two boxes are near enough to be merged. */
module BoxGeometry {

  datatype Rect = Rect(x: int, y: int, width: int, height: int) {
    function Right(): int { x + width }
    function Bottom(): int { y + height }
    predicate Empty() { width <= 0 || height <= 0 }
  }

  datatype MotionBox = MotionBox(box: Rect, area: real)

  function Min(a: int, b: int): int { if a < b then a else b }
  function Max(a: int, b: int): int { if a < b then b else a }

  /** The smallest rectangle around both, as the image library's union operator computes it. */
  function Union(a: Rect, b: Rect): Rect {
    if a.Empty() then b
    else if b.Empty() then a
    else
      var x, y := Min(a.x, b.x), Min(a.y, b.y);
      Rect(x, y, Max(a.Right(), b.Right()) - x, Max(a.Bottom(), b.Bottom()) - y)
  }

  /** Two plain gap bounds. */
  predicate Near(a: Rect, b: Rect, gapX: int, gapY: int) {
    && Max(a.x, b.x) - Min(a.Right(), b.Right()) <= gapX
    && Max(a.y, b.y) - Min(a.Bottom(), b.Bottom()) <= gapY
  }

  /** The relation the detector evaluates asks for enough overlap or a small enough gap, in both
      directions.  The overlap tests never decide anything: the answer is exactly the two gap bounds. */
  method Related(a: Rect, b: Rect, gapX: int, gapY: int) returns (related: bool)
    requires 0 <= gapX && 0 <= gapY
    ensures related <==> Near(a, b, gapX, gapY)
    ensures a.width >= 0 && b.width >= 0 && a.height >= 0 && b.height >= 0 ==>
      (related <==>
        && a.x - (b.x + b.width) <= gapX && b.x - (a.x + a.width) <= gapX
        && a.y - (b.y + b.height) <= gapY && b.y - (a.y + a.height) <= gapY)
  {
    var overlapX := Min(a.Right(), b.Right()) - Max(a.x, b.x);
    var overlapY := Min(a.Bottom(), b.Bottom()) - Max(a.y, b.y);
    var minW := Max(1, Min(a.width, b.width));
    var minH := Max(1, Min(a.height, b.height));
    var betweenX := Max(0, Max(a.x, b.x) - Min(a.Right(), b.Right()));
    var betweenY := Max(0, Max(a.y, b.y) - Min(a.Bottom(), b.Bottom()));
    assert 0.35 * (minW as real) >= 0.0 && 0.20 * (minH as real) >= 0.0;
    var strongX := overlapX >= (0.35 * (minW as real)).Floor || betweenX <= gapX;
    var strongY := overlapY >= (0.20 * (minH as real)).Floor || betweenY <= gapY;
    related := strongX && strongY;
  }

  /** `p` and `q` lie on segments that begin at `a` and `b`, and no further apart than the gap. */
  predicate Close(p: int, a: int, n: int, q: int, b: int, m: int, gap: int) {
    a <= p <= a + n && b <= q <= b + m && -gap <= p - q <= gap
  }

  /** Two non-empty boxes are near exactly if a point of one is within both gaps of a point of the other. */
  lemma NearByPoints(a: Rect, b: Rect, gapX: int, gapY: int)
    requires 0 <= gapX && 0 <= gapY && !a.Empty() && !b.Empty()
    ensures Near(a, b, gapX, gapY) <==>
      && (exists p, q :: Close(p, a.x, a.width, q, b.x, b.width, gapX))
      && (exists p, q :: Close(p, a.y, a.height, q, b.y, b.height, gapY))
  {
    SegmentsAreClose(a.x, a.width, b.x, b.width, gapX);
    SegmentsAreClose(a.y, a.height, b.y, b.height, gapY);
  }

  lemma SegmentsAreClose(a: int, n: int, b: int, m: int, gap: int)
    requires 0 <= gap && 0 <= n && 0 <= m
    ensures Max(a, b) - Min(a + n, b + m) <= gap <==> exists p, q :: Close(p, a, n, q, b, m, gap)
  {
    if Max(a, b) - Min(a + n, b + m) <= gap {
      var p := if b < a then a else if b <= a + n then b else a + n;
      var q := if p < b then b else if p <= b + m then p else b + m;
      assert Close(p, a, n, q, b, m, gap);
    }
  }

  predicate Inside(a: Rect, b: Rect) {
    b.x <= a.x && b.y <= a.y && a.Right() <= b.Right() && a.Bottom() <= b.Bottom()
  }

  /** Growing either box never breaks nearness. */
  lemma NearGrows(a: Rect, b: Rect, a': Rect, b': Rect, gapX: int, gapY: int)
    requires Near(a, b, gapX, gapY) && Inside(a, a') && Inside(b, b')
    ensures Near(a', b', gapX, gapY)
  {
  }

  /** Merging keeps every nearness of a non-empty part. */
  lemma MergingKeepsNearness(a: Rect, b: Rect, c: Rect, gapX: int, gapY: int)
    requires !a.Empty() && Near(a, c, gapX, gapY)
    ensures Near(Union(a, b), c, gapX, gapY)
  {
    assert Inside(a, Union(a, b)) && Inside(c, c);
    NearGrows(a, c, Union(a, b), c, gapX, gapY);
  }

  /** An empty part is forgotten, and its nearness with it: 18 and 45 are the smallest gaps of the detector. */
  lemma EmptyBoxIsForgotten()
    ensures var e, b, c := Rect(0, 0, 0, 0), Rect(10, 0, 10, 10), Rect(-30, 0, 20, 10);
      && Near(e, b, 18, 45) && Near(e, c, 18, 45) && !Near(Union(e, b), c, 18, 45)
  {
  }

  // ---- Hulls and total areas of index sets ----

  ghost predicate Within(s: set<nat>, boxes: seq<MotionBox>) {
    forall i | i in s :: i < |boxes|
  }

  predicate NoneEmpty(boxes: seq<MotionBox>) {
    forall i | 0 <= i < |boxes| :: !boxes[i].box.Empty()
  }

  /** The non-empty boxes: only these take part in hulls. */
  function Solid(boxes: seq<MotionBox>): set<nat> {
    set i: nat | i < |boxes| && !boxes[i].box.Empty()
  }

  /** `r` covers every box of `s`, and each of its sides is the side of one of them. */
  ghost predicate IsHull(r: Rect, boxes: seq<MotionBox>, s: set<nat>)
    requires Within(s, boxes)
  {
    && (forall i | i in s :: Inside(boxes[i].box, r))
    && (exists i | i in s :: boxes[i].box.x == r.x)
    && (exists i | i in s :: boxes[i].box.y == r.y)
    && (exists i | i in s :: boxes[i].box.Right() == r.Right())
    && (exists i | i in s :: boxes[i].box.Bottom() == r.Bottom())
  }

  lemma HullIsUnique(r: Rect, r': Rect, boxes: seq<MotionBox>, s: set<nat>)
    requires Within(s, boxes) && IsHull(r, boxes, s) && IsHull(r', boxes, s)
    ensures r == r'
  {
  }

  lemma HullGrows(r: Rect, s: set<nat>, r': Rect, s': set<nat>, boxes: seq<MotionBox>)
    requires Within(s', boxes) && s <= s' && IsHull(r, boxes, s) && IsHull(r', boxes, s')
    ensures Inside(r, r')
  {
  }

  lemma HullIsNonEmpty(r: Rect, boxes: seq<MotionBox>, s: set<nat>)
    requires s <= Solid(boxes) && Within(s, boxes) && IsHull(r, boxes, s)
    ensures !r.Empty()
  {
    var i :| i in s && boxes[i].box.x == r.x;
    assert Inside(boxes[i].box, r);
  }

  lemma HullOfUnion(r: Rect, s: set<nat>, t: Rect, u: set<nat>, boxes: seq<MotionBox>)
    requires s <= Solid(boxes) && u <= Solid(boxes) && Within(s, boxes) && Within(u, boxes)
    requires IsHull(r, boxes, s) && IsHull(t, boxes, u)
    ensures Within(s + u, boxes) && IsHull(Union(r, t), boxes, s + u)
  {
    HullIsNonEmpty(r, boxes, s);
    HullIsNonEmpty(t, boxes, u);
    UnionIsHull(r, s, t, u, boxes, Union(r, t));
  }

  lemma UnionIsHull(r: Rect, s: set<nat>, t: Rect, u: set<nat>, boxes: seq<MotionBox>, w: Rect)
    requires Within(s, boxes) && Within(u, boxes) && IsHull(r, boxes, s) && IsHull(t, boxes, u)
    requires w.x == Min(r.x, t.x) && w.y == Min(r.y, t.y)
    requires w.Right() == Max(r.Right(), t.Right()) && w.Bottom() == Max(r.Bottom(), t.Bottom())
    ensures Within(s + u, boxes) && IsHull(w, boxes, s + u)
  {
    var a, b := if r.x <= t.x then s else u, if r.y <= t.y then s else u;
    var c, d := if r.Right() >= t.Right() then s else u, if r.Bottom() >= t.Bottom() then s else u;
    assert exists i | i in a :: boxes[i].box.x == w.x;
    assert exists i | i in b :: boxes[i].box.y == w.y;
    assert exists i | i in c :: boxes[i].box.Right() == w.Right();
    assert exists i | i in d :: boxes[i].box.Bottom() == w.Bottom();
  }

  lemma HullOfOne(boxes: seq<MotionBox>, i: nat)
    requires i < |boxes|
    ensures IsHull(boxes[i].box, boxes, {i})
  {
  }

  lemma {:induction false} HullExists(boxes: seq<MotionBox>, s: set<nat>) returns (r: Rect)
    requires s <= Solid(boxes) && s != {}
    ensures Within(s, boxes) && IsHull(r, boxes, s)
  {
    var i :| i in s;
    r := boxes[i].box;
    HullOfOne(boxes, i);
    if s != {i} {
      var rest := HullExists(boxes, s - {i});
      HullOfUnion(r, {i}, rest, s - {i}, boxes);
      r := Union(r, rest);
      assert {i} + (s - {i}) == s;
    }
  }

  ghost function Total(boxes: seq<MotionBox>, s: set<nat>): real
    requires Within(s, boxes)
  {
    if s == {} then 0.0 else
      var i :| i in s;
      boxes[i].area + Total(boxes, s - {i})
  }

  lemma {:induction false} TotalPicks(boxes: seq<MotionBox>, s: set<nat>, k: nat)
    requires Within(s, boxes) && k in s
    ensures Total(boxes, s) == boxes[k].area + Total(boxes, s - {k})
  {
    var i :| i in s && Total(boxes, s) == boxes[i].area + Total(boxes, s - {i});
    if i != k {
      TotalPicks(boxes, s - {i}, k);
      TotalPicks(boxes, s - {k}, i);
      assert s - {i} - {k} == s - {k} - {i};
    }
  }

  lemma {:induction false} TotalAdds(boxes: seq<MotionBox>, s: set<nat>, t: set<nat>)
    requires Within(s, boxes) && Within(t, boxes) && s !! t
    ensures Total(boxes, s + t) == Total(boxes, s) + Total(boxes, t)
  {
    if s == {} {
      assert s + t == t;
    } else {
      var k :| k in s;
      TotalPicks(boxes, s, k);
      TotalPicks(boxes, s + t, k);
      assert s + t - {k} == (s - {k}) + t;
      TotalAdds(boxes, s - {k}, t);
    }
  }
}
