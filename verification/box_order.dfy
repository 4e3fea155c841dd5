/** The merged boxes do not depend on the order in which the input boxes are listed. */
module BoxOrder {
  import opened BoxGeometry
  import opened BoxMerge

  /** A glued block lies inside one block of any apart grouping. */
  lemma GluedLiesInside(boxes: seq<MotionBox>, s: set<nat>, q: Grouping, gapX: int, gapY: int) returns (b: nat)
    requires Glued(boxes, s, gapX, gapY) && Partition(Solid(boxes), q) && Apart(boxes, q, gapX, gapY)
    ensures b < |q| && s <= q[b]
  {
    assert InBlock(s, q);
    b :| 0 <= b < |q| && s <= q[b];
  }

  lemma FinestParts(boxes: seq<MotionBox>, p: Grouping, gapX: int, gapY: int, a: nat)
    requires Finest(boxes, p, gapX, gapY) && a < |p|
    ensures Partition(Solid(boxes), p) && Apart(boxes, p, gapX, gapY) && Glued(boxes, p[a], gapX, gapY)
  {
  }

  lemma NestedBlocks(ids: set<nat>, p: Grouping, a: nat, s: set<nat>, c: nat)
    requires Partition(ids, p) && a < |p| && c < |p| && p[a] <= s <= p[c]
    ensures s == p[a]
  {
    var i :| i in p[a];
    assert i in p[a] && i in p[c];
  }

  /** The finest apart grouping is unique, up to the order of its blocks. */
  lemma FinestIsUnique(boxes: seq<MotionBox>, p: Grouping, q: Grouping, gapX: int, gapY: int, a: nat) returns (b: nat)
    requires Finest(boxes, p, gapX, gapY) && Finest(boxes, q, gapX, gapY) && a < |p|
    ensures b < |q| && q[b] == p[a]
  {
    FinestParts(boxes, p, gapX, gapY, a);
    if |q| > 0 { FinestParts(boxes, q, gapX, gapY, 0); }
    b := GluedLiesInside(boxes, p[a], q, gapX, gapY);
    FinestParts(boxes, q, gapX, gapY, b);
    var c := GluedLiesInside(boxes, q[b], p, gapX, gapY);
    NestedBlocks(Solid(boxes), p, a, q[b], c);
  }

  // ---- Renumbering ----

  ghost predicate Inverse(f: seq<nat>, g: seq<nat>) {
    && |f| == |g|
    && (forall k | 0 <= k < |f| :: f[k] < |f| && g[f[k]] == k)
    && (forall k | 0 <= k < |g| :: g[k] < |g| && f[g[k]] == k)
  }

  /** `b` lists the elements of `a` in another order: `b[k]` is `a[f[k]]`, and `g` undoes `f`. */
  ghost predicate Renumbers<T>(a: seq<T>, b: seq<T>, f: seq<nat>, g: seq<nat>) {
    |a| == |b| == |f| && Inverse(f, g) && forall k | 0 <= k < |b| :: b[k] == a[f[k]]
  }

  ghost function Without<T>(s: seq<T>, j: nat): (t: seq<T>)
    requires j < |s|
    ensures |t| == |s| - 1
    ensures forall k | 0 <= k < j :: t[k] == s[k]
    ensures forall k | j <= k < |t| :: t[k] == s[k + 1]
  {
    s[..j] + s[j + 1..]
  }

  lemma WithoutDropsOne<T>(s: seq<T>, j: nat)
    requires j < |s|
    ensures multiset(s) == multiset(Without(s, j)) + multiset{s[j]}
  {
    assert s == s[..j] + [s[j]] + s[j + 1..];
  }

  lemma {:induction false} RenumberingExists<T>(a: seq<T>, b: seq<T>) returns (f: seq<nat>, g: seq<nat>)
    requires multiset(a) == multiset(b)
    ensures Renumbers(a, b, f, g)
    decreases |b|
  {
    assert |a| == |multiset(a)| == |b|;
    if b == [] { return [], []; }
    var n := |b| - 1;
    assert b[n] in multiset(a);
    var j :| 0 <= j < |a| && a[j] == b[n];
    WithoutDropsOne(a, j);
    WithoutDropsOne(b, n);
    assert multiset(Without(a, j)) == multiset(a) - multiset{b[n]};
    assert multiset(Without(b, n)) == multiset(b) - multiset{b[n]};
    var f', g' := RenumberingExists(Without(a, j), Without(b, n));
    f, g := Inserted(f', g', j).0, Inserted(f', g', j).1;
    InsertedRenumbers(a, b, f', g', j);
  }

  ghost function Inserted(f: seq<nat>, g: seq<nat>, j: nat): (seq<nat>, seq<nat>)
    requires |f| == |g| && j <= |f|
  {
    (seq(|f| + 1, k requires 0 <= k <= |f| => if k == |f| then j else if f[k] < j then f[k] else f[k] + 1),
     seq(|f| + 1, i requires 0 <= i <= |f| => if i == j then |f| else g[if i < j then i else i - 1]))
  }

  lemma InsertedRenumbers<T>(a: seq<T>, b: seq<T>, f: seq<nat>, g: seq<nat>, j: nat)
    requires |a| == |b| > 0 && j < |a| && a[j] == b[|b| - 1]
    requires Renumbers(Without(a, j), Without(b, |b| - 1), f, g)
    ensures Renumbers(a, b, Inserted(f, g, j).0, Inserted(f, g, j).1)
  {
    var n := |b| - 1;
    var f', g' := Inserted(f, g, j).0, Inserted(f, g, j).1;
    forall k | 0 <= k < |b| ensures f'[k] < |b| && g'[f'[k]] == k && b[k] == a[f'[k]] {
      if k < n { assert b[k] == Without(b, n)[k] == Without(a, j)[f[k]]; }
    }
    forall i | 0 <= i < |b| ensures g'[i] < |b| && f'[g'[i]] == i {
      if i != j { assert f[g[if i < j then i else i - 1]] == if i < j then i else i - 1; }
    }
  }

  ghost predicate Bounded(s: set<nat>, n: nat) {
    forall k | k in s :: k < n
  }

  ghost function Image(s: set<nat>, f: seq<nat>): set<nat>
    requires Bounded(s, |f|)
  {
    set k | k in s :: f[k]
  }

  ghost function Images(q: Grouping, f: seq<nat>): Grouping
    requires forall a | 0 <= a < |q| :: Bounded(q[a], |f|)
  {
    seq(|q|, a requires 0 <= a < |q| => Image(q[a], f))
  }

  lemma BlocksAreBelow(boxes: seq<MotionBox>, q: Grouping)
    requires Partition(Solid(boxes), q)
    ensures forall a | 0 <= a < |q| :: Bounded(q[a], |boxes|)
  {
  }

  lemma ImageSolid(a: seq<MotionBox>, b: seq<MotionBox>, f: seq<nat>, g: seq<nat>)
    requires Renumbers(a, b, f, g)
    ensures Image(Solid(b), f) == Solid(a)
  {
    forall i | i in Solid(a) ensures i in Image(Solid(b), f) {
      assert b[g[i]] == a[f[g[i]]] && g[i] in Solid(b);
    }
  }

  lemma ImageIsDisjoint(s: set<nat>, t: set<nat>, f: seq<nat>, g: seq<nat>)
    requires Inverse(f, g) && Bounded(s, |f|) && Bounded(t, |f|) && s !! t
    ensures Image(s, f) !! Image(t, f)
  {
    forall i | i in Image(s, f) ensures i !in Image(t, f) {
      assert g[i] in s && g[i] !in t;
    }
  }

  lemma ImagesPartition(ids: set<nat>, q: Grouping, f: seq<nat>, g: seq<nat>)
    requires Inverse(f, g) && Bounded(ids, |f|) && Partition(ids, q) && forall a | 0 <= a < |q| :: Bounded(q[a], |f|)
    ensures Partition(Image(ids, f), Images(q, f))
  {
    var p := Images(q, f);
    forall i | i in Image(ids, f) ensures InSome(i, p) {
      assert InSome(g[i], q);
      var a :| 0 <= a < |q| && g[i] in q[a];
      assert f[g[i]] in p[a];
    }
    forall a | 0 <= a < |p| ensures p[a] != {} && p[a] <= Image(ids, f) {
      var k :| k in q[a];
      assert f[k] in p[a];
    }
    forall a, b | 0 <= a < b < |p| ensures p[a] !! p[b] {
      ImageIsDisjoint(q[a], q[b], f, g);
    }
  }

  lemma ImageHull(r: Rect, a: seq<MotionBox>, b: seq<MotionBox>, f: seq<nat>, g: seq<nat>, s: set<nat>)
    requires Renumbers(a, b, f, g) && Within(s, b)
    ensures Within(Image(s, f), a) && (IsHull(r, b, s) <==> IsHull(r, a, Image(s, f)))
  {
    forall i | i in Image(s, f) ensures i < |a| && g[i] in s && b[g[i]] == a[i] {}
    forall k | k in s ensures f[k] in Image(s, f) && b[k] == a[f[k]] {}
  }

  lemma {:induction false} ImageTotal(a: seq<MotionBox>, b: seq<MotionBox>, f: seq<nat>, g: seq<nat>, s: set<nat>)
    requires Renumbers(a, b, f, g) && Within(s, b)
    ensures Within(Image(s, f), a) && Total(b, s) == Total(a, Image(s, f))
  {
    if s != {} {
      var k :| k in s;
      TotalPicks(b, s, k);
      TotalPicks(a, Image(s, f), f[k]);
      assert Image(s, f) - {f[k]} == Image(s - {k}, f) by {
        forall i | i in Image(s, f) && i != f[k] ensures i in Image(s - {k}, f) {
          assert g[i] in s && f[g[i]] == i;
        }
      }
      ImageTotal(a, b, f, g, s - {k});
    }
  }

  lemma ImagesApart(a: seq<MotionBox>, b: seq<MotionBox>, f: seq<nat>, g: seq<nat>, q: Grouping, gapX: int, gapY: int)
    requires Renumbers(a, b, f, g) && Partition(Solid(b), q) && Apart(b, q, gapX, gapY)
    ensures forall c | 0 <= c < |q| :: Bounded(q[c], |f|)
    ensures Partition(Solid(a), Images(q, f)) && Apart(a, Images(q, f), gapX, gapY)
  {
    BlocksAreBelow(b, q);
    ImageSolid(a, b, f, g);
    ImagesPartition(Solid(b), q, f, g);
    var p := Images(q, f);
    hide Partition, Renumbers;
    forall c, d, r, r' | 0 <= c < d < |p| && IsHull(r, a, p[c]) && IsHull(r', a, p[d]) ensures !Near(r, r', gapX, gapY) {
      ImageHull(r, a, b, f, g, q[c]);
      ImageHull(r', a, b, f, g, q[d]);
    }
  }

  lemma RenumbersBack(a: seq<MotionBox>, b: seq<MotionBox>, f: seq<nat>, g: seq<nat>)
    requires Renumbers(a, b, f, g)
    ensures Renumbers(b, a, g, f)
  {
  }

  lemma ImageIsGlued(a: seq<MotionBox>, b: seq<MotionBox>, f: seq<nat>, g: seq<nat>, s: set<nat>, gapX: int, gapY: int)
    requires Renumbers(a, b, f, g) && s <= Solid(b) && Glued(b, s, gapX, gapY)
    ensures Glued(a, Image(s, f), gapX, gapY)
  {
    RenumbersBack(a, b, f, g);
    forall q: Grouping | Partition(Solid(a), q) && Apart(a, q, gapX, gapY) ensures InBlock(Image(s, f), q) {
      ImagesApart(b, a, g, f, q, gapX, gapY);
      assert InBlock(s, Images(q, g));
      var d :| 0 <= d < |q| && s <= Images(q, g)[d];
      hide Partition, Glued, Apart;
      forall i | i in Image(s, f) ensures i in q[d] {
        var k :| k in s && i == f[k];
        assert k in Image(q[d], g);
      }
    }
  }

  lemma ImagesFinest(a: seq<MotionBox>, b: seq<MotionBox>, f: seq<nat>, g: seq<nat>, p: Grouping, gapX: int, gapY: int)
    requires Renumbers(a, b, f, g) && Finest(b, p, gapX, gapY)
    ensures forall c | 0 <= c < |p| :: Bounded(p[c], |f|)
    ensures Finest(a, Images(p, f), gapX, gapY)
  {
    ImagesApart(a, b, f, g, p, gapX, gapY);
    forall c | 0 <= c < |p| ensures Glued(a, Images(p, f)[c], gapX, gapY) {
      assert Glued(b, p[c], gapX, gapY);
      ImageIsGlued(a, b, f, g, p[c], gapX, gapY);
    }
  }

  // ---- Comparing two results ----

  ghost predicate AllIn(p: Grouping, q: Grouping) {
    forall s: set<nat> | s in p :: s in q
  }

  lemma SomeBlockOnBothSides(q: Grouping, p: Grouping)
    requires AllIn(q, p)
    ensures q != [] ==> p != []
  {
    if q != [] { assert q[0] in q; }
  }

  lemma SameFinest(boxes: seq<MotionBox>, p: Grouping, q: Grouping, gapX: int, gapY: int)
    requires Finest(boxes, p, gapX, gapY) && Finest(boxes, q, gapX, gapY)
    ensures AllIn(p, q)
  {
    forall s | s in p ensures s in q {
      var a :| 0 <= a < |p| && p[a] == s;
      var b := FinestIsUnique(boxes, p, q, gapX, gapY, a);
    }
  }

  /** What belongs to a block is the same in both lists. */
  ghost predicate Agree<T>(m: seq<T>, p: Grouping, m': seq<T>, q: Grouping) {
    && |m| == |p| && |m'| == |q|
    && forall a, b | 0 <= a < |p| && 0 <= b < |q| && p[a] == q[b] :: m[a] == m'[b]
  }

  lemma RestAgrees<T>(m: seq<T>, p: Grouping, m': seq<T>, q: Grouping, n: nat, j: nat)
    requires Agree(m, p, m', q) && n < |p| && j < |q|
    ensures Agree(Without(m, n), Without(p, n), Without(m', j), Without(q, j))
  {
    forall a, b | 0 <= a < |p| - 1 && 0 <= b < |q| - 1 && Without(p, n)[a] == Without(q, j)[b]
      ensures Without(m, n)[a] == Without(m', j)[b]
    {
      assert p[if a < n then a else a + 1] == q[if b < j then b else b + 1];
    }
  }

  /** The blocks of a partition are distinct, so each entry of one list can be matched. */
  lemma {:induction false} MatchedResults<T>(m: seq<T>, p: Grouping, m': seq<T>, q: Grouping)
    requires PairwiseDistinct(p) && PairwiseDistinct(q) && AllIn(p, q) && AllIn(q, p) && Agree(m, p, m', q)
    ensures multiset(m) == multiset(m')
    decreases |p|
  {
    if p == [] {
      SomeBlockOnBothSides(q, p);
    } else {
      var n := |p| - 1;
      assert p[n] in p;
      var j :| 0 <= j < |q| && q[j] == p[n];
      RestMatches(p, n, q, j);
      RestMatches(q, j, p, n);
      WithoutIsDistinct(p, n);
      WithoutIsDistinct(q, j);
      RestAgrees(m, p, m', q, n, j);
      MatchedResults(Without(m, n), Without(p, n), Without(m', j), Without(q, j));
      WithoutDropsOne(m, n);
      WithoutDropsOne(m', j);
    }
  }

  lemma RestMatches(p: Grouping, n: nat, q: Grouping, j: nat)
    requires n < |p| && j < |q| && p[n] == q[j] && PairwiseDistinct(p) && AllIn(p, q)
    ensures AllIn(Without(p, n), Without(q, j))
  {
    forall s | s in Without(p, n) ensures s in Without(q, j) {
      var a :| 0 <= a < |Without(p, n)| && Without(p, n)[a] == s;
      var c := if a < n then a else a + 1;
      assert p[c] == s && p[c] != p[n] && p[c] in p;
      var b :| 0 <= b < |q| && q[b] == s;
      assert Without(q, j)[if b < j then b else b - 1] == s;
    }
  }

  lemma WithoutIsDistinct(p: Grouping, n: nat)
    requires n < |p| && PairwiseDistinct(p)
    ensures PairwiseDistinct(Without(p, n))
  {
    forall a, b | 0 <= a < b < |Without(p, n)| ensures Without(p, n)[a] != Without(p, n)[b] {
      assert p[if a < n then a else a + 1] != p[if b < n then b else b + 1];
    }
  }

  ghost predicate PairwiseDistinct(p: Grouping) {
    forall a, b | 0 <= a < b < |p| :: p[a] != p[b]
  }

  lemma PartitionIsDistinct(ids: set<nat>, p: Grouping)
    requires Partition(ids, p)
    ensures PairwiseDistinct(p)
  {
    forall a, b | 0 <= a < b < |p| ensures p[a] != p[b] {
      assert p[a] !! p[b] && p[a] != {};
    }
  }

  // ---- The non-empty merged boxes ----

  /** The rectangles of the non-empty boxes. */
  function Rectangles(merged: seq<MotionBox>): seq<Rect> {
    if merged == [] then []
    else
      var n := |merged| - 1;
      Rectangles(merged[..n]) + (if merged[n].box.Empty() then [] else [merged[n].box])
  }

  ghost predicate AreHulls(rects: seq<Rect>, boxes: seq<MotionBox>, q: Grouping) {
    |rects| == |q| && forall a | 0 <= a < |q| :: Within(q[a], boxes) && IsHull(rects[a], boxes, q[a])
  }

  /** The non-empty merged boxes are the hulls of the non-empty parts of the blocks. */
  lemma {:induction false} RectanglesAreHulls(merged: seq<MotionBox>, boxes: seq<MotionBox>, p: Grouping)
    requires |merged| == |p| && forall a | 0 <= a < |p| :: Within(p[a], boxes) && Summarizes(merged[a], boxes, p[a])
    ensures AreHulls(Rectangles(merged), boxes, SolidParts(boxes, p))
  {
    if p != [] {
      var n := |p| - 1;
      RectanglesAreHulls(merged[..n], boxes, p[..n]);
      assert Summarizes(merged[n], boxes, p[n]);
      if SolidIn(boxes, p[n]) != {} { HullIsNonEmpty(merged[n].box, boxes, SolidIn(boxes, p[n])); }
    }
  }

  lemma HullsAgree(m: seq<Rect>, p: Grouping, m': seq<Rect>, q: Grouping, boxes: seq<MotionBox>)
    requires AreHulls(m, boxes, p) && AreHulls(m', boxes, q)
    ensures Agree(m, p, m', q)
  {
    forall a, b | 0 <= a < |p| && 0 <= b < |q| && p[a] == q[b] ensures m[a] == m'[b] {
      HullIsUnique(m[a], m'[b], boxes, p[a]);
    }
  }

  lemma ImagesAreHulls(m: seq<Rect>, a: seq<MotionBox>, b: seq<MotionBox>, f: seq<nat>, g: seq<nat>, q: Grouping)
    requires Renumbers(a, b, f, g) && AreHulls(m, b, q) && forall c | 0 <= c < |q| :: Bounded(q[c], |f|)
    ensures AreHulls(m, a, Images(q, f))
  {
    forall c | 0 <= c < |q| ensures Within(Image(q[c], f), a) && IsHull(m[c], a, Image(q[c], f)) {
      ImageHull(m[c], a, b, f, g, q[c]);
    }
  }

  /** Results for the same boxes, listed in any two orders, have the same non-empty rectangles. */
  lemma RectanglesIgnoreOrder(boxes: seq<MotionBox>, merged: seq<MotionBox>, boxes': seq<MotionBox>, merged': seq<MotionBox>,
                              gapX: int, gapY: int)
    requires multiset(boxes) == multiset(boxes')
    requires FinestResult(boxes, merged, gapX, gapY) && FinestResult(boxes', merged', gapX, gapY)
    ensures multiset(Rectangles(merged)) == multiset(Rectangles(merged'))
  {
    var p: Grouping :| GroupsInto(boxes, merged, p, gapX, gapY);
    var p': Grouping :| GroupsInto(boxes', merged', p', gapX, gapY);
    var f, g := RenumberingExists(boxes, boxes');
    RectanglesAreHulls(merged, boxes, p);
    RectanglesAreHulls(merged', boxes', p');
    var parts, parts' := SolidParts(boxes, p), SolidParts(boxes', p');
    ImagesFinest(boxes, boxes', f, g, parts', gapX, gapY);
    ImagesAreHulls(Rectangles(merged'), boxes, boxes', f, g, parts');
    SameGrouping(Rectangles(merged), parts, Rectangles(merged'), Images(parts', f), boxes, gapX, gapY);
  }

  lemma SameGrouping(m: seq<Rect>, p: Grouping, m': seq<Rect>, q: Grouping, boxes: seq<MotionBox>, gapX: int, gapY: int)
    requires Finest(boxes, p, gapX, gapY) && Finest(boxes, q, gapX, gapY) && AreHulls(m, boxes, p) && AreHulls(m', boxes, q)
    ensures multiset(m) == multiset(m')
  {
    PartitionIsDistinct(Solid(boxes), p);
    PartitionIsDistinct(Solid(boxes), q);
    SameFinest(boxes, p, q, gapX, gapY);
    SameFinest(boxes, q, p, gapX, gapY);
    HullsAgree(m, p, m', q, boxes);
    MatchedResults(m, p, m', q);
  }

  // ---- With areas, when no box is empty ----

  lemma {:induction false} PartsAreBlocks(boxes: seq<MotionBox>, p: Grouping)
    requires NoneEmpty(boxes) && forall a | 0 <= a < |p| :: p[a] != {} && Within(p[a], boxes)
    ensures SolidParts(boxes, p) == p
  {
    if p != [] {
      var n := |p| - 1;
      PartsAreBlocks(boxes, p[..n]);
      assert SolidIn(boxes, p[n]) == p[n];
      assert p == p[..n] + [p[n]];
    }
  }

  ghost predicate AreSummaries(m: seq<MotionBox>, boxes: seq<MotionBox>, q: Grouping) {
    |m| == |q| && forall a | 0 <= a < |q| :: Summarized(m[a], boxes, q[a])
  }

  ghost predicate Summarized(m: MotionBox, boxes: seq<MotionBox>, s: set<nat>) {
    Within(s, boxes) && IsHull(m.box, boxes, s) && m.area == Total(boxes, s)
  }

  lemma SummariesOf(boxes: seq<MotionBox>, merged: seq<MotionBox>, p: Grouping, gapX: int, gapY: int)
    requires NoneEmpty(boxes) && GroupsInto(boxes, merged, p, gapX, gapY)
    ensures Finest(boxes, p, gapX, gapY) && AreSummaries(merged, boxes, p)
  {
    PartsAreBlocks(boxes, p);
    forall a | 0 <= a < |p| ensures Summarized(merged[a], boxes, p[a]) {
      assert SolidIn(boxes, p[a]) == p[a];
      assert Summarizes(merged[a], boxes, p[a]);
    }
  }

  lemma ImagesAreSummaries(m: seq<MotionBox>, a: seq<MotionBox>, b: seq<MotionBox>, f: seq<nat>, g: seq<nat>, q: Grouping)
    requires Renumbers(a, b, f, g) && AreSummaries(m, b, q) && forall c | 0 <= c < |q| :: Bounded(q[c], |f|)
    ensures AreSummaries(m, a, Images(q, f))
  {
    forall c | 0 <= c < |q| ensures Summarized(m[c], a, Image(q[c], f)) {
      assert Summarized(m[c], b, q[c]);
      ImageHull(m[c].box, a, b, f, g, q[c]);
      ImageTotal(a, b, f, g, q[c]);
    }
  }

  lemma SummariesAgree(m: seq<MotionBox>, p: Grouping, m': seq<MotionBox>, q: Grouping, boxes: seq<MotionBox>)
    requires AreSummaries(m, boxes, p) && AreSummaries(m', boxes, q)
    ensures Agree(m, p, m', q)
  {
    forall a, b | 0 <= a < |p| && 0 <= b < |q| && p[a] == q[b] ensures m[a] == m'[b] {
      assert Summarized(m[a], boxes, p[a]) && Summarized(m'[b], boxes, q[b]);
      HullIsUnique(m[a].box, m'[b].box, boxes, p[a]);
    }
  }

  lemma ReorderedIsNonEmpty(boxes: seq<MotionBox>, boxes': seq<MotionBox>, f: seq<nat>, g: seq<nat>)
    requires Renumbers(boxes, boxes', f, g) && NoneEmpty(boxes)
    ensures NoneEmpty(boxes')
  {
  }

  /** Results for the same boxes, none of them empty, listed in any two orders are the same merged boxes
      with the same areas. */
  lemma ResultIgnoresOrder(boxes: seq<MotionBox>, merged: seq<MotionBox>, boxes': seq<MotionBox>, merged': seq<MotionBox>,
                           gapX: int, gapY: int)
    requires multiset(boxes) == multiset(boxes')
    requires FinestResult(boxes, merged, gapX, gapY) && FinestResult(boxes', merged', gapX, gapY)
    ensures multiset(Rectangles(merged)) == multiset(Rectangles(merged'))
    ensures NoneEmpty(boxes) ==> multiset(merged) == multiset(merged')
  {
    RectanglesIgnoreOrder(boxes, merged, boxes', merged', gapX, gapY);
    if NoneEmpty(boxes) {
      var p: Grouping :| GroupsInto(boxes, merged, p, gapX, gapY);
      var p': Grouping :| GroupsInto(boxes', merged', p', gapX, gapY);
      var f, g := RenumberingExists(boxes, boxes');
      ReorderedIsNonEmpty(boxes, boxes', f, g);
      SummariesOf(boxes, merged, p, gapX, gapY);
      SummariesOf(boxes', merged', p', gapX, gapY);
      ImagesFinest(boxes, boxes', f, g, p', gapX, gapY);
      ImagesAreSummaries(merged', boxes, boxes', f, g, p');
      SameSummaries(merged, p, merged', Images(p', f), boxes, gapX, gapY);
    }
  }

  /** Which of two boxes takes the area of an empty one near both does depend on the order.  (The boxes of
      `EmptyBoxIsForgotten` are such a case.) */
  lemma OrderDecidesEmptyArea(b: MotionBox, e: MotionBox, c: MotionBox, gapX: int, gapY: int)
    requires !b.box.Empty() && e.box.Empty() && !c.box.Empty()
    requires Near(e.box, b.box, gapX, gapY) && Near(e.box, c.box, gapX, gapY) && !Near(b.box, c.box, gapX, gapY)
    ensures multiset([b, e, c]) == multiset([c, e, b])
    ensures Merged([b, e, c], gapX, gapY) == [MotionBox(b.box, b.area + e.area), c]
    ensures Merged([c, e, b], gapX, gapY) == [MotionBox(c.box, c.area + e.area), b]
  {
    FirstTakesEmpty(b, e, c, gapX, gapY);
    FirstTakesEmpty(c, e, b, gapX, gapY);
    hide Merged;
    assert multiset([b, e, c]) == multiset{b, e, c} == multiset([c, e, b]);
  }

  /** Two boxes apart, and an empty one near the first: the first takes its area. */
  lemma FirstTakesEmpty(b: MotionBox, e: MotionBox, c: MotionBox, gapX: int, gapY: int)
    requires !b.box.Empty() && e.box.Empty() && !c.box.Empty()
    requires Near(b.box, e.box, gapX, gapY) && !Near(b.box, c.box, gapX, gapY)
    ensures Merged([b, e, c], gapX, gapY) == [MotionBox(b.box, b.area + e.area), c]
  {
    var three, m := [b, e, c], MotionBox(b.box, b.area + e.area);
    assert Union(b.box, e.box) == b.box;
    assert Unused(3)[0 := true] == [true, false, false];
    assert [true, false, false][1 := true] == [true, true, false];
    assert Sweep(three, 3, [true, true, false], m, gapX, gapY) == (m, [true, true, false]);
    assert Sweep(three, 2, [true, true, false], m, gapX, gapY) == (m, [true, true, false]);
    assert Sweep(three, 1, [true, false, false], b, gapX, gapY) == (m, [true, true, false]);
    assert [true, true, false][2 := true] == [true, true, true];
    assert PassFrom(three, 3, [true, true, true], gapX, gapY) == [];
    assert Sweep(three, 3, [true, true, true], c, gapX, gapY) == (c, [true, true, true]);
    assert PassFrom(three, 2, [true, true, false], gapX, gapY) == [c];
    assert PassFrom(three, 1, [true, true, false], gapX, gapY) == [c];
    assert PassOf(three, gapX, gapY) == [m, c];
    TwoStayApart(m, c, gapX, gapY);
  }

  lemma TwoStayApart(m: MotionBox, c: MotionBox, gapX: int, gapY: int)
    requires !Near(m.box, c.box, gapX, gapY)
    ensures Merged([m, c], gapX, gapY) == [m, c]
  {
    var two := [m, c];
    assert Unused(2)[0 := true] == [true, false];
    assert [true, false][1 := true] == [true, true];
    assert Sweep(two, 2, [true, false], m, gapX, gapY) == (m, [true, false]);
    assert Sweep(two, 1, [true, false], m, gapX, gapY) == (m, [true, false]);
    assert PassFrom(two, 2, [true, true], gapX, gapY) == [];
    assert Sweep(two, 2, [true, true], c, gapX, gapY) == (c, [true, true]);
    assert PassFrom(two, 1, [true, false], gapX, gapY) == [c];
  }

  lemma SameSummaries(m: seq<MotionBox>, p: Grouping, m': seq<MotionBox>, q: Grouping, boxes: seq<MotionBox>, gapX: int, gapY: int)
    requires Finest(boxes, p, gapX, gapY) && Finest(boxes, q, gapX, gapY) && AreSummaries(m, boxes, p) && AreSummaries(m', boxes, q)
    ensures multiset(m) == multiset(m')
  {
    PartitionIsDistinct(Solid(boxes), p);
    PartitionIsDistinct(Solid(boxes), q);
    SameFinest(boxes, p, q, gapX, gapY);
    SameFinest(boxes, q, p, gapX, gapY);
    SummariesAgree(m, p, m', q, boxes);
    MatchedResults(m, p, m', q);
  }

  /** Every non-empty input box lies inside a merged box; the area of every input box is in a merged box. */
  lemma EveryBoxIsCovered(boxes: seq<MotionBox>, merged: seq<MotionBox>, p: Grouping, gapX: int, gapY: int, i: nat) returns (a: nat)
    requires GroupsInto(boxes, merged, p, gapX, gapY) && i < |boxes|
    ensures a < |merged| == |p| && i in p[a] && Within(p[a], boxes) && merged[a].area == Total(boxes, p[a])
    ensures !boxes[i].box.Empty() ==> Inside(boxes[i].box, merged[a].box)
  {
    assert InSome(i, p);
    a :| 0 <= a < |p| && i in p[a];
    assert Summarizes(merged[a], boxes, p[a]);
    if !boxes[i].box.Empty() { assert i in SolidIn(boxes, p[a]); }
  }
}
