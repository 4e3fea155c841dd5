/** Merging nearby motion boxes: the result is the finest grouping whose hulls are pairwise far apart. */
module BoxMerge {
  import opened BoxGeometry

  // ---- Groupings of the input boxes ----

  type Grouping = seq<set<nat>>

  /** The blocks of `q` are not empty, do not overlap, and hold exactly the members of `ids`. */
  ghost predicate Partition(ids: set<nat>, q: Grouping) {
    && (forall a | 0 <= a < |q| :: q[a] != {} && q[a] <= ids)
    && PairwiseDisjoint(q)
    && (forall i {:trigger InSome(i, q)} | i in ids :: InSome(i, q))
  }

  ghost predicate PairwiseDisjoint(q: Grouping) {
    forall a, b | 0 <= a < b < |q| :: q[a] !! q[b]
  }

  ghost predicate InSome(i: nat, q: Grouping) {
    exists a | 0 <= a < |q| :: i in q[a]
  }

  /** Hulls of different blocks of non-empty boxes are never near. */
  ghost predicate Apart(boxes: seq<MotionBox>, q: Grouping, gapX: int, gapY: int)
    requires Partition(Solid(boxes), q)
  {
    forall a, b, r, r' | 0 <= a < b < |q| && IsHull(r, boxes, q[a]) && IsHull(r', boxes, q[b]) :: !Near(r, r', gapX, gapY)
  }

  ghost predicate InBlock(s: set<nat>, q: Grouping) {
    exists b | 0 <= b < |q| :: s <= q[b]
  }

  /** These boxes end up together in every grouping of the non-empty boxes whose blocks are apart. */
  ghost predicate Glued(boxes: seq<MotionBox>, s: set<nat>, gapX: int, gapY: int) {
    forall q: Grouping :: Partition(Solid(boxes), q) && Apart(boxes, q, gapX, gapY) ==> InBlock(s, q)
  }

  /** The finest grouping of the non-empty boxes whose blocks are apart. */
  ghost predicate Finest(boxes: seq<MotionBox>, p: Grouping, gapX: int, gapY: int) {
    && Partition(Solid(boxes), p) && Apart(boxes, p, gapX, gapY)
    && forall a {:trigger Glued(boxes, p[a], gapX, gapY)} | 0 <= a < |p| :: Glued(boxes, p[a], gapX, gapY)
  }

  function SolidIn(boxes: seq<MotionBox>, s: set<nat>): set<nat> {
    s * Solid(boxes)
  }

  /** The non-empty members of each block, blocks without any left out. */
  ghost function SolidParts(boxes: seq<MotionBox>, p: Grouping): Grouping {
    if p == [] then []
    else
      var n := |p| - 1;
      SolidParts(boxes, p[..n]) + (if SolidIn(boxes, p[n]) == {} then [] else [SolidIn(boxes, p[n])])
  }

  /** A merged box carries the total area of its block and the hull of the non-empty boxes in it; a block
      of empty boxes stays empty. */
  ghost predicate Summarizes(m: MotionBox, boxes: seq<MotionBox>, s: set<nat>)
    requires Within(s, boxes)
  {
    m.area == Total(boxes, s) && if SolidIn(boxes, s) == {} then m.box.Empty() else IsHull(m.box, boxes, SolidIn(boxes, s))
  }

  ghost predicate Summary(merged: seq<MotionBox>, boxes: seq<MotionBox>, p: Grouping)
    requires Partition(Below(|boxes|), p)
  {
    |merged| == |p| && forall a | 0 <= a < |p| :: Summarizes(merged[a], boxes, p[a])
  }

  /** The numbers below `n`. */
  ghost function Below(n: nat): (s: set<nat>)
    ensures forall i: nat :: i in s <==> i < n
  {
    if n == 0 then {} else Below(n - 1) + {n - 1}
  }

  lemma SingletonIsGlued(boxes: seq<MotionBox>, i: nat, gapX: int, gapY: int)
    requires i in Solid(boxes)
    ensures Glued(boxes, {i}, gapX, gapY)
  {
    forall q: Grouping | Partition(Solid(boxes), q) && Apart(boxes, q, gapX, gapY) ensures InBlock({i}, q) {
      assert InSome(i, q);
      var a :| 0 <= a < |q| && i in q[a];
      assert {i} <= q[a];
    }
  }

  lemma NearBlocksAreOne(boxes: seq<MotionBox>, s: set<nat>, r: Rect, t: set<nat>, r': Rect, gapX: int, gapY: int,
                         q: Grouping, a: nat, b: nat)
    requires s <= Solid(boxes) && t <= Solid(boxes)
    requires IsHull(r, boxes, s) && IsHull(r', boxes, t) && Near(r, r', gapX, gapY)
    requires Partition(Solid(boxes), q) && Apart(boxes, q, gapX, gapY)
    requires a < |q| && b < |q| && s <= q[a] && t <= q[b]
    ensures a == b
  {
    var big := HullExists(boxes, q[a]);
    var big' := HullExists(boxes, q[b]);
    HullGrows(r, s, big, q[a], boxes);
    HullGrows(r', t, big', q[b], boxes);
    NearGrows(r, r', big, big', gapX, gapY);
    assert Near(big', big, gapX, gapY);
  }

  /** Two glued sets with near hulls are glued together, because nearness survives growth. */
  lemma NearIsGlued(boxes: seq<MotionBox>, s: set<nat>, r: Rect, t: set<nat>, r': Rect, gapX: int, gapY: int)
    requires s <= Solid(boxes) && t <= Solid(boxes)
    requires IsHull(r, boxes, s) && IsHull(r', boxes, t) && Near(r, r', gapX, gapY)
    requires Glued(boxes, s, gapX, gapY) && Glued(boxes, t, gapX, gapY)
    ensures Glued(boxes, s + t, gapX, gapY)
  {
    forall q: Grouping | Partition(Solid(boxes), q) && Apart(boxes, q, gapX, gapY) ensures InBlock(s + t, q) {
      assert InBlock(s, q) && InBlock(t, q);
      var a :| 0 <= a < |q| && s <= q[a];
      var b :| 0 <= b < |q| && t <= q[b];
      NearBlocksAreOne(boxes, s, r, t, r', gapX, gapY, q, a, b);
      assert s + t <= q[a];
    }
  }

  // ---- The algorithm, as a function ----

  /** The inner loop from box `j` on: the growing box and the flags at its end. */
  function Sweep(merged: seq<MotionBox>, j: nat, used: seq<bool>, current: MotionBox, gapX: int, gapY: int): (r: (MotionBox, seq<bool>))
    requires j <= |merged| == |used|
    ensures |r.1| == |merged|
    decreases |merged| - j
  {
    if j == |merged| then (current, used)
    else if !used[j] && Near(current.box, merged[j].box, gapX, gapY) then
      Sweep(merged, j + 1, used[j := true], MotionBox(Union(current.box, merged[j].box), current.area + merged[j].area), gapX, gapY)
    else Sweep(merged, j + 1, used, current, gapX, gapY)
  }

  /** The outer loop from box `i` on: the boxes it still appends. */
  function PassFrom(merged: seq<MotionBox>, i: nat, used: seq<bool>, gapX: int, gapY: int): seq<MotionBox>
    requires i <= |merged| == |used|
    decreases |merged| - i
  {
    if i == |merged| then []
    else if used[i] then PassFrom(merged, i + 1, used, gapX, gapY)
    else
      var r := Sweep(merged, i + 1, used[i := true], merged[i], gapX, gapY);
      [r.0] + PassFrom(merged, i + 1, r.1, gapX, gapY)
  }

  function Unused(n: nat): seq<bool> { seq(n, _ => false) }

  function PassOf(merged: seq<MotionBox>, gapX: int, gapY: int): seq<MotionBox> {
    PassFrom(merged, 0, Unused(|merged|), gapX, gapY)
  }

  /** The outcome of the inner loop for box `i`. */
  predicate Swept(merged: seq<MotionBox>, i: nat, start: seq<bool>, current: MotionBox, used: seq<bool>, gapX: int, gapY: int) {
    i < |merged| == |start| == |used| && (current, used) == Sweep(merged, i + 1, start[i := true], merged[i], gapX, gapY)
  }

  /** The pass has appended `next` and goes on from box `i`. */
  predicate Passing(next: seq<MotionBox>, merged: seq<MotionBox>, i: nat, used: seq<bool>, gapX: int, gapY: int) {
    i <= |merged| == |used| && next + PassFrom(merged, i, used, gapX, gapY) == PassOf(merged, gapX, gapY)
  }

  lemma PassBegins(merged: seq<MotionBox>, gapX: int, gapY: int)
    ensures Passing([], merged, 0, Unused(|merged|), gapX, gapY)
  {
  }

  lemma PassSkips(next: seq<MotionBox>, merged: seq<MotionBox>, i: nat, used: seq<bool>, gapX: int, gapY: int)
    requires Passing(next, merged, i, used, gapX, gapY) && i < |merged| && used[i]
    ensures Passing(next, merged, i + 1, used, gapX, gapY)
  {
  }

  lemma PassTakes(next: seq<MotionBox>, merged: seq<MotionBox>, i: nat, used: seq<bool>, current: MotionBox, flags: seq<bool>,
                  gapX: int, gapY: int)
    requires Passing(next, merged, i, used, gapX, gapY) && i < |merged| && !used[i]
    requires Swept(merged, i, used, current, flags, gapX, gapY)
    ensures Passing(next + [current], merged, i + 1, flags, gapX, gapY)
  {
  }

  lemma PassEnds(next: seq<MotionBox>, merged: seq<MotionBox>, used: seq<bool>, gapX: int, gapY: int)
    requires Passing(next, merged, |merged|, used, gapX, gapY)
    ensures next == PassOf(merged, gapX, gapY)
  {
  }

  /** Passes are repeated as long as they shorten the list. */
  function Merged(boxes: seq<MotionBox>, gapX: int, gapY: int): seq<MotionBox>
    decreases |boxes|
  {
    var next := PassOf(boxes, gapX, gapY);
    if |next| < |boxes| then Merged(next, gapX, gapY) else boxes
  }

  // ---- The algorithm, and what it keeps ----

  /** What the loops keep: every merged box summarizes a block whose non-empty members are glued. */
  ghost predicate Block(m: MotionBox, boxes: seq<MotionBox>, s: set<nat>, gapX: int, gapY: int) {
    && s != {} && Within(s, boxes) && Summarizes(m, boxes, s)
    && (SolidIn(boxes, s) != {} ==> Glued(boxes, SolidIn(boxes, s), gapX, gapY))
  }

  ghost predicate Blocks(merged: seq<MotionBox>, boxes: seq<MotionBox>, p: Grouping, gapX: int, gapY: int) {
    |merged| == |p| && forall a | 0 <= a < |p| :: Block(merged[a], boxes, p[a], gapX, gapY)
  }

  lemma MergeBlocks(m: MotionBox, s: set<nat>, k: MotionBox, t: set<nat>, boxes: seq<MotionBox>, gapX: int, gapY: int)
    requires Block(m, boxes, s, gapX, gapY) && Block(k, boxes, t, gapX, gapY) && s !! t && Near(m.box, k.box, gapX, gapY)
    ensures Block(MotionBox(Union(m.box, k.box), m.area + k.area), boxes, s + t, gapX, gapY)
  {
    TotalAdds(boxes, s, t);
    var u, v := SolidIn(boxes, s), SolidIn(boxes, t);
    assert SolidIn(boxes, s + t) == u + v;
    if u == {} {
      assert u + v == v && Union(m.box, k.box) == k.box;
    } else {
      HullIsNonEmpty(m.box, boxes, u);
      if v == {} {
        assert u + v == u && Union(m.box, k.box) == m.box;
      } else {
        HullOfUnion(m.box, u, k.box, v, boxes);
        NearIsGlued(boxes, u, m.box, v, k.box, gapX, gapY);
      }
    }
  }

  ghost predicate Open(k: int, p: Grouping, used: seq<bool>) {
    0 <= k < |p| && k < |used| && !used[k]
  }

  /** Where a box of the input currently sits: in a finished block, or in a block not used yet. */
  ghost predicate Placed(i: nat, done: Grouping, p: Grouping, used: seq<bool>) {
    InSome(i, done) || exists k :: Open(k, p, used) && i in p[k]
  }

  /** Between two runs of the inner loop: finished and open blocks are disjoint and hold every box. */
  ghost predicate Sorted(n: nat, done: Grouping, p: Grouping, used: seq<bool>) {
    && (forall a, b | 0 <= a < b < |done| :: done[a] !! done[b])
    && (forall a, k | 0 <= a < |done| && Open(k, p, used) :: done[a] !! p[k])
    && (forall i: nat | i < n :: Placed(i, done, p, used))
  }

  /** Inside the inner loop: one more block is growing. */
  ghost predicate Growing(n: nat, done: Grouping, block: set<nat>, p: Grouping, used: seq<bool>) {
    && (forall a, b | 0 <= a < b < |done| :: done[a] !! done[b])
    && (forall a, k | 0 <= a < |done| && Open(k, p, used) :: done[a] !! p[k])
    && (forall a | 0 <= a < |done| :: done[a] !! block)
    && (forall k | Open(k, p, used) :: block !! p[k])
    && (forall i: nat | i < n :: i in block || Placed(i, done, p, used))
  }

  lemma UsingOne(done: Grouping, p: Grouping, used: seq<bool>, j: nat, i: nat)
    requires Open(j, p, used) && Placed(i, done, p, used) && i !in p[j]
    ensures Placed(i, done, p, used[j := true])
  {
    if !InSome(i, done) {
      var k :| Open(k, p, used) && i in p[k];
      assert Open(k, p, used[j := true]);
    }
  }

  lemma StartBlock(n: nat, done: Grouping, p: Grouping, used: seq<bool>, i: nat)
    requires Sorted(n, done, p, used) && PairwiseDisjoint(p) && Open(i, p, used)
    ensures Growing(n, done, p[i], p, used[i := true])
  {
    assert forall k :: Open(k, p, used[i := true]) ==> Open(k, p, used) && k != i;
    forall m: nat | m < n ensures m in p[i] || Placed(m, done, p, used[i := true]) {
      if m !in p[i] { UsingOne(done, p, used, i, m); }
    }
  }

  lemma GrowBlock(n: nat, done: Grouping, block: set<nat>, p: Grouping, used: seq<bool>, j: nat)
    requires Growing(n, done, block, p, used) && PairwiseDisjoint(p) && Open(j, p, used)
    ensures Growing(n, done, block + p[j], p, used[j := true])
  {
    assert forall k :: Open(k, p, used[j := true]) ==> Open(k, p, used) && k != j;
    forall m: nat | m < n ensures m in block + p[j] || Placed(m, done, p, used[j := true]) {
      if m !in block + p[j] { UsingOne(done, p, used, j, m); }
    }
  }

  lemma FinishBlock(n: nat, done: Grouping, block: set<nat>, p: Grouping, used: seq<bool>)
    requires Growing(n, done, block, p, used)
    ensures Sorted(n, done + [block], p, used)
  {
    var next := done + [block];
    forall m: nat | m < n ensures Placed(m, next, p, used) {
      if m in block {
        assert m in next[|done|];
      } else if InSome(m, done) {
        var a :| 0 <= a < |done| && m in done[a];
        assert m in next[a];
      }
    }
  }

  lemma AbsorbOne(m: MotionBox, block: set<nat>, merged: seq<MotionBox>, j: nat, boxes: seq<MotionBox>, gapX: int, gapY: int,
                  done: Grouping, p: Grouping, used: seq<bool>)
    requires 0 <= gapX && 0 <= gapY && Blocks(merged, boxes, p, gapX, gapY) && PairwiseDisjoint(p) && Open(j, p, used)
    requires Block(m, boxes, block, gapX, gapY) && Growing(|boxes|, done, block, p, used)
    requires Near(m.box, merged[j].box, gapX, gapY)
    ensures Block(MotionBox(Union(m.box, merged[j].box), m.area + merged[j].area), boxes, block + p[j], gapX, gapY)
    ensures Growing(|boxes|, done, block + p[j], p, used[j := true])
  {
    assert Block(merged[j], boxes, p[j], gapX, gapY);
    MergeBlocks(m, block, merged[j], p[j], boxes, gapX, gapY);
    GrowBlock(|boxes|, done, block, p, used, j);
  }

  lemma SkipKeeps(merged: seq<MotionBox>, i: nat, j: int, start: seq<bool>, view: seq<bool>, current: MotionBox,
                  changed: bool, taken: int, block: set<nat>, p: Grouping, gapX: int, gapY: int)
    requires i < |merged| == |p| && i < j < |merged|
    requires Absorbing(merged, i, j, start, view, current, changed, taken, block, p, gapX, gapY)
    requires view[j] || !Near(current.box, merged[j].box, gapX, gapY)
    ensures Absorbing(merged, i, j + 1, start, view, current, changed, taken, block, p, gapX, gapY)
  {
  }

  lemma TakeKeeps(merged: seq<MotionBox>, i: nat, j: int, start: seq<bool>, view: seq<bool>, current: MotionBox, current': MotionBox,
                  changed: bool, taken: int, block: set<nat>, block': set<nat>, p: Grouping, gapX: int, gapY: int)
    requires i < |merged| == |p| && i < j < |merged|
    requires Absorbing(merged, i, j, start, view, current, changed, taken, block, p, gapX, gapY)
    ensures Absorbing(merged, i, j + 1, start, view[j := true], current', true, j, block', p, gapX, gapY)
  {
  }

  /** One run of the inner loop: absorb every unused later box that is near the growing hull. */
  method Absorb(merged: seq<MotionBox>, i: nat, start: seq<bool>, gapX: int, gapY: int,
                ghost boxes: seq<MotionBox>, ghost p: Grouping, ghost done: Grouping)
    returns (current: MotionBox, used: seq<bool>, changed: bool, ghost block: set<nat>)
    requires 0 <= gapX && 0 <= gapY && |start| == |merged| == |p| && i < |merged| && !start[i]
    requires Blocks(merged, boxes, p, gapX, gapY) && PairwiseDisjoint(p) && Sorted(|boxes|, done, p, start)
    ensures Swept(merged, i, start, current, used, gapX, gapY)
    ensures Block(current, boxes, block, gapX, gapY) && Sorted(|boxes|, done + [block], p, used)
    ensures exists taken :: Absorbing(merged, i, |merged|, start, used, current, changed, taken, block, p, gapX, gapY)
  {
    current, changed, block := merged[i], false, p[i];
    ghost var taken: int := i;
    assert Block(merged[i], boxes, p[i], gapX, gapY);
    StartBlock(|boxes|, done, p, start, i);
    used := start[i := true];
    for j := i + 1 to |merged|
      invariant Absorbing(merged, i, j, start, used, current, changed, taken, block, p, gapX, gapY)
      invariant Sweep(merged, j, used, current, gapX, gapY) == Sweep(merged, i + 1, start[i := true], merged[i], gapX, gapY)
      invariant Block(current, boxes, block, gapX, gapY) && Growing(|boxes|, done, block, p, used)
    {
      var related := false;
      if !used[j] { related := Related(current.box, merged[j].box, gapX, gapY); }
      if !related {
        SkipKeeps(merged, i, j, start, used, current, changed, taken, block, p, gapX, gapY);
      } else {
        TakeKeeps(merged, i, j, start, used, current, MotionBox(Union(current.box, merged[j].box), current.area + merged[j].area),
                  changed, taken, block, block + p[j], p, gapX, gapY);
        AbsorbOne(current, block, merged, j, boxes, gapX, gapY, done, p, used);
        current := MotionBox(Union(current.box, merged[j].box), current.area + merged[j].area);
        block := block + p[j];
        used := used[j := true];
        changed, taken := true, j;
      }
    }
    FinishBlock(|boxes|, done, block, p, used);
  }

  /** What the inner loop has done to the flags so far, and what it has found out. */
  ghost predicate Absorbing(merged: seq<MotionBox>, i: nat, j: int, start: seq<bool>, view: seq<bool>, current: MotionBox,
                            changed: bool, taken: int, block: set<nat>, p: Grouping, gapX: int, gapY: int)
    requires i < |merged| == |p|
  {
    && |view| == |start| == |merged| && view[i]
    && (forall k | 0 <= k < i :: view[k] == start[k])
    && (forall k | 0 <= k < |view| :: start[k] ==> view[k])
    && (changed ==> i < taken < |merged| && view[taken])
    && (!changed ==> current == merged[i] && block == p[i] && view == start[i := true])
    && (!changed ==> forall k | i < k < j && k < |merged| && !view[k] :: !Near(merged[i].box, merged[k].box, gapX, gapY))
  }

  /** So far the pass has changed nothing. */
  ghost predicate Idle(merged: seq<MotionBox>, i: nat, used: seq<bool>, next: seq<MotionBox>, done: Grouping, p: Grouping,
                       gapX: int, gapY: int) {
    && i <= |merged| == |used| == |p| && next == merged[..i] && done == p[..i]
    && (forall k | i <= k < |merged| :: !used[k])
    && (forall a, b | 0 <= a < i && a < b < |merged| :: !Near(merged[a].box, merged[b].box, gapX, gapY))
  }

  lemma IdleIsOpen(merged: seq<MotionBox>, i: nat, used: seq<bool>, next: seq<MotionBox>, done: Grouping, p: Grouping, gapX: int, gapY: int)
    requires Idle(merged, i, used, next, done, p, gapX, gapY) && i < |merged|
    ensures |used| == |merged| && !used[i]
  {
  }

  lemma StaysIdle(merged: seq<MotionBox>, i: nat, used: seq<bool>, next: seq<MotionBox>, done: Grouping, p: Grouping,
                  gapX: int, gapY: int, current: MotionBox, flags: seq<bool>, block: set<nat>)
    requires Idle(merged, i, used, next, done, p, gapX, gapY) && i < |merged|
    requires exists taken :: Absorbing(merged, i, |merged|, used, flags, current, false, taken, block, p, gapX, gapY)
    ensures Idle(merged, i + 1, flags, next + [current], done + [block], p, gapX, gapY)
  {
  }

  lemma IdleToTheEnd(merged: seq<MotionBox>, used: seq<bool>, next: seq<MotionBox>, done: Grouping, p: Grouping, gapX: int, gapY: int)
    requires Idle(merged, |merged|, used, next, done, p, gapX, gapY)
    ensures next == merged && done == p && NoneNear(merged, gapX, gapY)
  {
  }

  /** One pass of the outer loop.  It either shrinks the list or proves that no two boxes are near. */
  method Pass(merged: seq<MotionBox>, gapX: int, gapY: int, ghost boxes: seq<MotionBox>, ghost p: Grouping)
    returns (next: seq<MotionBox>, changed: bool, ghost done: Grouping)
    requires 0 <= gapX && 0 <= gapY
    requires Blocks(merged, boxes, p, gapX, gapY) && Partition(Below(|boxes|), p)
    ensures Blocks(next, boxes, done, gapX, gapY) && Partition(Below(|boxes|), done)
    ensures |next| <= |merged| && (changed ==> |next| < |merged|)
    ensures !changed ==> next == merged && done == p
    ensures !changed ==> NoneNear(merged, gapX, gapY)
    ensures next == PassOf(merged, gapX, gapY)
  {
    next, changed, done := [], false, [];
    var used := Unused(|merged|);
    ghost var skipped := 0;
    AllOpen(|boxes|, p, used);
    assert forall k | 0 <= k < |used| :: !used[k];
    assert PairwiseDisjoint(p);
    PassBegins(merged, gapX, gapY);
    assert Idle(merged, 0, used, next, done, p, gapX, gapY);
    hide Partition, PairwiseDisjoint, Sorted, Placed, Block, Unused, Swept, Passing, PassOf, Idle;
    for i := 0 to |merged|
      invariant |used| == |merged| && Passing(next, merged, i, used, gapX, gapY)
      invariant Blocks(next, boxes, done, gapX, gapY) && Sorted(|boxes|, done, p, used)
      invariant forall k | 0 <= k < i :: used[k]
      invariant |next| + skipped == i && skipped >= 0
      invariant changed ==> skipped > 0 || exists k :: i <= k < |merged| && used[k]
      invariant !changed ==> Idle(merged, i, used, next, done, p, gapX, gapY)
    {
      if !changed { IdleIsOpen(merged, i, used, next, done, p, gapX, gapY); }
      if used[i] {
        PassSkips(next, merged, i, used, gapX, gapY);
        skipped := skipped + 1;
        continue;
      }
      var current, flags, grown, block := Absorb(merged, i, used, gapX, gapY, boxes, p, done);
      PassTakes(next, merged, i, used, current, flags, gapX, gapY);
      if !changed && !grown { StaysIdle(merged, i, used, next, done, p, gapX, gapY, current, flags, block); }
      used := flags;
      changed := changed || grown;
      next := next + [current];
      done := done + [block];
    }
    PassEnds(next, merged, used, gapX, gapY);
    AllDone(next, done, boxes, p, used, gapX, gapY);
    if !changed { IdleToTheEnd(merged, used, next, done, p, gapX, gapY); }
  }

  lemma AllOpen(n: nat, p: Grouping, used: seq<bool>)
    requires Partition(Below(n), p) && |used| == |p| && forall k | 0 <= k < |used| :: !used[k]
    ensures Sorted(n, [], p, used)
  {
    forall m: nat | m < n ensures Placed(m, [], p, used) {
      assert InSome(m, p);
      var k :| 0 <= k < |p| && m in p[k];
      assert Open(k, p, used);
    }
  }

  lemma AllDone(next: seq<MotionBox>, done: Grouping, boxes: seq<MotionBox>, p: Grouping, used: seq<bool>, gapX: int, gapY: int)
    requires Blocks(next, boxes, done, gapX, gapY) && Sorted(|boxes|, done, p, used) && forall k | 0 <= k < |used| :: used[k]
    ensures Partition(Below(|boxes|), done)
  {
    assert forall k :: !Open(k, p, used);
    forall m | m in Below(|boxes|) ensures InSome(m, done) { assert Placed(m, done, p, used); }
    forall a: nat | a < |done| ensures done[a] != {} && done[a] <= Below(|boxes|) {
      assert Block(next[a], boxes, done[a], gapX, gapY);
    }
  }

  // ---- The result ----

  /** The merged boxes summarize blocks of the input, and the non-empty members of these blocks are the
      finest grouping of the non-empty input boxes. */
  ghost predicate GroupsInto(boxes: seq<MotionBox>, merged: seq<MotionBox>, p: Grouping, gapX: int, gapY: int) {
    && Partition(Below(|boxes|), p) && Summary(merged, boxes, p)
    && Finest(boxes, SolidParts(boxes, p), gapX, gapY)
  }

  ghost predicate FinestResult(boxes: seq<MotionBox>, merged: seq<MotionBox>, gapX: int, gapY: int) {
    exists p: Grouping :: GroupsInto(boxes, merged, p, gapX, gapY)
  }

  /** Part `a` is what block `k` holds of non-empty boxes. */
  ghost predicate PartOf(boxes: seq<MotionBox>, p: Grouping, a: nat, k: nat) {
    a < |SolidParts(boxes, p)| && k < |p| && SolidParts(boxes, p)[a] == SolidIn(boxes, p[k]) != {}
  }

  lemma {:induction false} PartHasBlock(boxes: seq<MotionBox>, p: Grouping, a: nat) returns (k: nat)
    requires a < |SolidParts(boxes, p)|
    ensures PartOf(boxes, p, a, k)
  {
    var n := |p| - 1;
    if a < |SolidParts(boxes, p[..n])| { k := PartHasBlock(boxes, p[..n], a); } else { k := n; }
  }

  lemma {:induction false} BlockHasPart(boxes: seq<MotionBox>, p: Grouping, k: nat) returns (a: nat)
    requires k < |p| && SolidIn(boxes, p[k]) != {}
    ensures PartOf(boxes, p, a, k)
  {
    var n := |p| - 1;
    if k < n { a := BlockHasPart(boxes, p[..n], k); } else { a := |SolidParts(boxes, p[..n])|; }
  }

  lemma {:induction false} PartsAreDisjoint(boxes: seq<MotionBox>, p: Grouping)
    requires PairwiseDisjoint(p)
    ensures PairwiseDisjoint(SolidParts(boxes, p))
  {
    if p != [] {
      var n := |p| - 1;
      PartsAreDisjoint(boxes, p[..n]);
      forall a: nat | a < |SolidParts(boxes, p[..n])| ensures SolidParts(boxes, p[..n])[a] !! p[n] {
        var k := PartHasBlock(boxes, p[..n], a);
        assert p[k] !! p[n];
      }
    }
  }

  lemma PartsPartition(boxes: seq<MotionBox>, p: Grouping)
    requires Partition(Below(|boxes|), p)
    ensures Partition(Solid(boxes), SolidParts(boxes, p))
  {
    var q := SolidParts(boxes, p);
    PartsAreDisjoint(boxes, p);
    forall a: nat | a < |q| ensures q[a] != {} && q[a] <= Solid(boxes) {
      var k := PartHasBlock(boxes, p, a);
    }
    forall i | i in Solid(boxes) ensures InSome(i, q) {
      assert InSome(i, p);
      var k: nat :| k < |p| && i in p[k];
      assert i in SolidIn(boxes, p[k]);
      var a := BlockHasPart(boxes, p, k);
      assert i in q[a];
    }
  }

  lemma PartsAreApart(boxes: seq<MotionBox>, merged: seq<MotionBox>, p: Grouping, gapX: int, gapY: int)
    requires Partition(Below(|boxes|), p) && Blocks(merged, boxes, p, gapX, gapY) && NoneNear(merged, gapX, gapY)
    ensures Partition(Solid(boxes), SolidParts(boxes, p)) && Apart(boxes, SolidParts(boxes, p), gapX, gapY)
  {
    PartsPartition(boxes, p);
    PartsAreDisjoint(boxes, p);
    var q := SolidParts(boxes, p);
    hide SolidParts, Blocks, NoneNear, PairwiseDisjoint, IsHull;
    forall a: nat, b: nat, r, r' | a < b < |q| && IsHull(r, boxes, q[a]) && IsHull(r', boxes, q[b]) ensures !Near(r, r', gapX, gapY) {
      PartsAreFar(boxes, merged, p, gapX, gapY, a, b, r, r');
    }
  }

  lemma PartsAreFar(boxes: seq<MotionBox>, merged: seq<MotionBox>, p: Grouping, gapX: int, gapY: int, a: nat, b: nat, r: Rect, r': Rect)
    requires Blocks(merged, boxes, p, gapX, gapY) && NoneNear(merged, gapX, gapY) && PairwiseDisjoint(SolidParts(boxes, p))
    requires a < b < |SolidParts(boxes, p)| && SolidParts(boxes, p)[a] + SolidParts(boxes, p)[b] <= Solid(boxes)
    requires IsHull(r, boxes, SolidParts(boxes, p)[a]) && IsHull(r', boxes, SolidParts(boxes, p)[b])
    ensures !Near(r, r', gapX, gapY)
  {
    var k := PartHasBlock(boxes, p, a);
    var l := PartHasBlock(boxes, p, b);
    assert k != l by { assert SolidParts(boxes, p)[a] !! SolidParts(boxes, p)[b]; }
    assert Block(merged[k], boxes, p[k], gapX, gapY) && Block(merged[l], boxes, p[l], gapX, gapY);
    hide SolidParts, Glued, PairwiseDisjoint, Blocks;
    HullIsUnique(r, merged[k].box, boxes, SolidIn(boxes, p[k]));
    HullIsUnique(r', merged[l].box, boxes, SolidIn(boxes, p[l]));
    hide *;
    FarBothWays(merged, k, l, gapX, gapY);
  }

  lemma FarBothWays(merged: seq<MotionBox>, k: nat, l: nat, gapX: int, gapY: int)
    requires NoneNear(merged, gapX, gapY) && k < |merged| && l < |merged| && k != l
    ensures !Near(merged[k].box, merged[l].box, gapX, gapY)
  {
    if l < k { assert !Near(merged[l].box, merged[k].box, gapX, gapY); }
  }

  ghost predicate NoneNear(merged: seq<MotionBox>, gapX: int, gapY: int) {
    forall a, b | 0 <= a < b < |merged| :: !Near(merged[a].box, merged[b].box, gapX, gapY)
  }

  lemma FixpointIsFinest(boxes: seq<MotionBox>, merged: seq<MotionBox>, p: Grouping, gapX: int, gapY: int)
    requires Partition(Below(|boxes|), p) && Blocks(merged, boxes, p, gapX, gapY) && NoneNear(merged, gapX, gapY)
    ensures GroupsInto(boxes, merged, p, gapX, gapY)
  {
    PartsAreApart(boxes, merged, p, gapX, gapY);
    forall a: nat | a < |p| ensures Summarizes(merged[a], boxes, p[a]) {
      assert Block(merged[a], boxes, p[a], gapX, gapY);
    }
    var q := SolidParts(boxes, p);
    forall a: nat | a < |q| ensures Glued(boxes, q[a], gapX, gapY) {
      var k := PartHasBlock(boxes, p, a);
      assert Block(merged[k], boxes, p[k], gapX, gapY);
    }
  }

  function GapX(width: nat): int { Max(18, width / 45) }
  function GapY(height: nat): int { Max(45, height / 7) }

  ghost function Singletons(n: nat): Grouping { seq(n, i => {i}) }

  lemma SingletonBlocks(boxes: seq<MotionBox>, gapX: int, gapY: int)
    ensures Partition(Below(|boxes|), Singletons(|boxes|)) && Blocks(boxes, boxes, Singletons(|boxes|), gapX, gapY)
  {
    var p := Singletons(|boxes|);
    forall i: nat | i < |boxes| ensures InSome(i, p) { assert i in p[i]; }
    forall a: nat | a < |boxes| ensures Block(boxes[a], boxes, p[a], gapX, gapY) {
      TotalPicks(boxes, {a}, a);
      assert {a} - {a} == {};
      HullOfOne(boxes, a);
      if a in Solid(boxes) {
        assert SolidIn(boxes, {a}) == {a};
        SingletonIsGlued(boxes, a, gapX, gapY);
      } else {
        assert SolidIn(boxes, {a}) == {};
      }
    }
  }

  /** Merging repeats passes until one changes nothing.  The result is the list of hulls of the finest
      grouping of the non-empty boxes into blocks that are apart; the total area is kept. */
  method MergeNearbyBoxes(boxes: seq<MotionBox>, width: nat, height: nat) returns (merged: seq<MotionBox>)
    ensures FinestResult(boxes, merged, if width / 45 > 18 then width / 45 else 18, if height / 7 > 45 then height / 7 else 45)
    ensures Area(merged) == Area(boxes) && |merged| <= |boxes|
    ensures merged == Merged(boxes, GapX(width), GapY(height))
  {
    var gapX, gapY := Max(18, width / 45), Max(45, height / 7);
    ghost var p := Singletons(|boxes|);
    SingletonBlocks(boxes, gapX, gapY);
    merged := boxes;
    if |boxes| <= 1 {
      FixpointIsFinest(boxes, merged, p, gapX, gapY);
      return;
    }
    var changed := true;
    while changed
      invariant Partition(Below(|boxes|), p) && Blocks(merged, boxes, p, gapX, gapY) && |merged| <= |boxes|
      invariant !changed ==> NoneNear(merged, gapX, gapY) && PassOf(merged, gapX, gapY) == merged
      invariant Merged(merged, gapX, gapY) == Merged(boxes, gapX, gapY)
      decreases |merged|, changed
    {
      merged, changed, p := Pass(merged, gapX, gapY, boxes, p);
    }
    FixpointIsFinest(boxes, merged, p, gapX, gapY);
    AreaOfBlocks(merged, boxes, p, gapX, gapY);
  }

  function Area(boxes: seq<MotionBox>): real {
    if boxes == [] then 0.0 else Area(boxes[..|boxes| - 1]) + boxes[|boxes| - 1].area
  }

  ghost function Gathered(p: Grouping): set<nat> {
    set a, i | 0 <= a < |p| && i in p[a] :: i
  }

  lemma {:induction false} AreaIsTotal(boxes: seq<MotionBox>, n: nat)
    requires n <= |boxes|
    ensures Area(boxes[..n]) == Total(boxes, Below(n))
  {
    if n > 0 {
      AreaIsTotal(boxes, n - 1);
      assert boxes[..n][..n - 1] == boxes[..n - 1];
      TotalPicks(boxes, Below(n), n - 1);
      assert Below(n) - {n - 1} == Below(n - 1);
    } else {
      assert Below(0) == {};
    }
  }

  lemma GatheredOneMore(p: Grouping, n: nat)
    requires n < |p|
    ensures Gathered(p[..n + 1]) == Gathered(p[..n]) + p[n]
    ensures PairwiseDisjoint(p) ==> Gathered(p[..n]) !! p[n]
  {
    forall i ensures i in Gathered(p[..n + 1]) <==> i in Gathered(p[..n]) + p[n] {
      if i in p[n] { assert i in p[..n + 1][n]; }
      if i in Gathered(p[..n]) { var a :| 0 <= a < n && i in p[..n][a]; assert i in p[..n + 1][a]; }
      if i in Gathered(p[..n + 1]) { var a :| 0 <= a <= n && i in p[..n + 1][a]; if a < n { assert i in p[..n][a]; } }
    }
  }

  lemma {:induction false} AreaOfPrefix(merged: seq<MotionBox>, boxes: seq<MotionBox>, p: Grouping, gapX: int, gapY: int, n: nat)
    requires Blocks(merged, boxes, p, gapX, gapY) && PairwiseDisjoint(p) && n <= |p|
    ensures |merged| == |p| && Within(Gathered(p[..n]), boxes) && Area(merged[..n]) == Total(boxes, Gathered(p[..n]))
  {
    if n > 0 {
      AreaOfPrefix(merged, boxes, p, gapX, gapY, n - 1);
      assert Block(merged[n - 1], boxes, p[n - 1], gapX, gapY);
      assert merged[..n][..n - 1] == merged[..n - 1];
      GatheredOneMore(p, n - 1);
      hide Gathered, PairwiseDisjoint, Block, Blocks;
      TotalAdds(boxes, Gathered(p[..n - 1]), p[n - 1]);
    } else {
      assert Gathered(p[..0]) == {};
    }
  }

  lemma AreaOfBlocks(merged: seq<MotionBox>, boxes: seq<MotionBox>, p: Grouping, gapX: int, gapY: int)
    requires Blocks(merged, boxes, p, gapX, gapY) && Partition(Below(|boxes|), p)
    ensures Area(merged) == Area(boxes)
  {
    hide *;
    GatheredIsAll(|boxes|, p);
    AreaOfPrefix(merged, boxes, p, gapX, gapY, |p|);
    AreaIsTotal(boxes, |boxes|);
    assert p[..|p|] == p;
    assert merged[..|p|] == merged;
    assert boxes[..|boxes|] == boxes;
  }

  lemma GatheredIsAll(n: nat, p: Grouping)
    requires Partition(Below(n), p)
    ensures Gathered(p) == Below(n) && PairwiseDisjoint(p)
  {
    forall i | i in Below(n) ensures i in Gathered(p) {
      assert InSome(i, p);
      var a :| 0 <= a < |p| && i in p[a];
    }
  }
}
