/** Jogging: the flipper reference and the timed velocity controller, in real arithmetic.  A value that
    is not finite is `None`. */
module Jog {
  import opened Basics

  function Abs(x: real): real { if x < 0.0 then -x else x }

  function Clamp(x: real, lo: real, hi: real): real {
    if x < lo then lo else if x > hi then hi else x
  }

  // ---- The flipper reference ----

  const JOINTS: nat := 4
  const SPEED := 0.3
  const DRIFT := 0.35
  const MAX_DT := 0.02
  const COMMAND_TIMEOUT := 0.25
  const TOLERANCE := 0.000000001

  datatype Linkage = Independent | LeftRightMirror | FrontRearSync | SidePair | DiagonalPair {
    /** The joints that move together with joint `i`. */
    function Affected(i: nat): set<nat> {
      match this
      case Independent => {i}
      case LeftRightMirror => if i < 2 then {0, 1} else {2, 3}
      case FrontRearSync => {0, 1, 2, 3}
      case SidePair => if i == 0 || i == 2 then {0, 2} else {1, 3}
      case DiagonalPair => if i == 0 || i == 3 then {0, 3} else {1, 2}
    }
  }

  lemma LinkageIsAPartition(l: Linkage, i: nat, k: nat)
    requires i < JOINTS && k in l.Affected(i)
    ensures i in l.Affected(i) && k < JOINTS && l.Affected(k) == l.Affected(i)
  {
  }

  /** Joint 0 is left front, 1 right front, 2 left rear, 3 right rear. */
  lemma LinkagesAreNamedRightly(i: nat, k: nat)
    requires i < 4 && k < 4
    ensures k in Independent.Affected(i) <==> k == i
    ensures k in LeftRightMirror.Affected(i) <==> (i < 2 <==> k < 2)
    ensures k in FrontRearSync.Affected(i)
    ensures k in SidePair.Affected(i) <==> i % 2 == k % 2
    ensures k in DiagonalPair.Affected(i) <==> i == k || i + k == 3
  {
  }

  datatype Limit = Limit(lower: real, upper: real)

  /** `to` is `x`, held inside the limits. */
  predicate Held(l: Limit, x: real, to: real) {
    && l.lower <= to <= l.upper
    && (l.lower <= x <= l.upper ==> to == x)
    && (x > l.upper ==> to == l.upper)
    && (x < l.lower ==> to == l.lower)
  }

  lemma ClampHolds(l: Limit, x: real)
    requires l.lower <= l.upper
    ensures Held(l, x, Clamp(x, l.lower, l.upper))
  {
  }

  datatype AxisStep = AxisStep(reference: real, filtered: real)

  /** One joint for one cycle: follow the measurement when it has drifted away, smooth the commanded
      velocity, never push past a limit, and integrate inside the limits. */
  function StepAxis(l: Limit, measured: real, reference: real, filtered: real, velocity: real, timedOut: bool, dt: real): AxisStep {
    var r := if Abs(measured - reference) > DRIFT then measured else reference;
    var smooth := if timedOut then 0.0 else Blend(velocity, filtered);
    var f := if (measured <= l.lower && smooth < 0.0) || (measured >= l.upper && smooth > 0.0) then 0.0 else smooth;
    AxisStep(Integrated(l, r, f, dt), f)
  }

  function Blend(velocity: real, filtered: real): real { 0.35 * velocity + 0.65 * filtered }

  function Integrated(l: Limit, r: real, f: real, dt: real): real {
    Clamp(r + f * Clamp(dt, 0.0, MAX_DT), l.lower, l.upper)
  }

  lemma ProductBound(f: real, d: real)
    requires -SPEED <= f <= SPEED && 0.0 <= d <= MAX_DT
    ensures -0.006 <= f * d <= 0.006
  {
    NonNegative(SPEED - f, d);
    NonNegative(SPEED + f, d);
    assert (SPEED - f) * d == SPEED * d - f * d && (SPEED + f) * d == SPEED * d + f * d;
    assert SPEED * d <= 0.006;
  }

  lemma StepIsBounded(l: Limit, measured: real, reference: real, filtered: real, velocity: real, timedOut: bool, dt: real)
    requires l.lower <= l.upper && Abs(filtered) <= SPEED && Abs(velocity) <= SPEED
    ensures var s := StepAxis(l, measured, reference, filtered, velocity, timedOut, dt); Safe(l, measured, s.reference, s.filtered, timedOut)
  {
    hide Integrated;
    var s := StepAxis(l, measured, reference, filtered, velocity, timedOut, dt);
    var r := if Abs(measured - reference) > DRIFT then measured else reference;
    IntegratedIsNear(l, r, s.filtered, dt, measured);
  }

  /** Integrating from near the measurement stays within the limits and near the measurement. */
  lemma IntegratedIsNear(l: Limit, r: real, f: real, dt: real, measured: real)
    requires l.lower <= l.upper && Abs(f) <= SPEED && Abs(r - measured) <= DRIFT
    ensures l.lower <= Integrated(l, r, f, dt) <= l.upper
    ensures l.lower <= measured <= l.upper ==> Abs(Integrated(l, r, f, dt) - measured) <= 0.356
  {
    var d := Clamp(dt, 0.0, MAX_DT);
    assert 0.0 <= d <= MAX_DT;
    ProductBound(f, d);
    hide Clamp, Abs;
    StaysNear(l, r, f * d, measured);
  }

  lemma StaysNear(l: Limit, r: real, x: real, measured: real)
    requires l.lower <= l.upper && -0.006 <= x <= 0.006 && Abs(r - measured) <= DRIFT
    ensures var to := Clamp(r + x, l.lower, l.upper);
      l.lower <= to <= l.upper && (l.lower <= measured <= l.upper ==> Abs(to - measured) <= 0.356)
  {
  }

  /** A cycle in plain numbers.  A reference that is more than 0.35 away from the measurement starts over from it;
      the velocity closes 0.35 of its distance to the command, unless it would push past a limit; the reference
      then moves by it, for 0.02 seconds at most, held inside the limits. */
  lemma StepInNumbers(l: Limit, q: real, r: real, f: real, v: real, timedOut: bool, dt: real, to: real, smooth: real)
    requires l.lower <= l.upper && Stepped(l, q, r, f, v, timedOut, dt, to, smooth)
    ensures timedOut ==> smooth == 0.0
    ensures !timedOut ==>
      var wanted := v - 0.65 * (v - f);
      smooth == if (q <= l.lower && wanted < 0.0) || (q >= l.upper && wanted > 0.0) then 0.0 else wanted
    ensures dt <= 0.0 ==> Held(l, if -0.35 <= q - r <= 0.35 then r else q, to)
    ensures 0.0 <= dt <= 0.02 ==> Held(l, (if -0.35 <= q - r <= 0.35 then r else q) + smooth * dt, to)
    ensures dt >= 0.02 ==> Held(l, (if -0.35 <= q - r <= 0.35 then r else q) + smooth * 0.02, to)
  {
    IntegratedInNumbers(l, if Abs(q - r) > DRIFT then q else r, smooth, dt);
    hide Integrated, Held;
  }

  lemma IntegratedInNumbers(l: Limit, r: real, f: real, dt: real)
    requires l.lower <= l.upper
    ensures dt <= 0.0 ==> Held(l, r, Integrated(l, r, f, dt))
    ensures 0.0 <= dt <= 0.02 ==> Held(l, r + f * dt, Integrated(l, r, f, dt))
    ensures dt >= 0.02 ==> Held(l, r + f * 0.02, Integrated(l, r, f, dt))
  {
    var d := Clamp(dt, 0.0, MAX_DT);
    assert d == if dt <= 0.0 then 0.0 else if dt >= 0.02 then 0.02 else dt;
    assert dt <= 0.0 ==> f * d == 0.0;
    ClampHolds(l, r + f * d);
    hide Held;
  }

  /** A joint that is commanded one way and does not still move the other way advances that way. */
  lemma StepGoesAsCommanded(l: Limit, q: real, r: real, f: real, v: real, dt: real, to: real, smooth: real)
    requires l.lower <= l.upper && Stepped(l, q, r, f, v, false, dt, to, smooth) && dt > 0.0 && -0.35 <= q - r <= 0.35
    ensures v > 0.0 && f >= 0.0 && q < l.upper && l.lower <= r < l.upper ==> smooth > 0.0 && to > r
    ensures v < 0.0 && f <= 0.0 && q > l.lower && l.lower < r <= l.upper ==> smooth < 0.0 && to < r
  {
    StepInNumbers(l, q, r, f, v, false, dt, to, smooth);
    hide Stepped;
    var time := if dt <= 0.02 then dt else 0.02;
    if v > 0.0 && f >= 0.0 && q < l.upper && l.lower <= r < l.upper { Moves(smooth, time); }
    if v < 0.0 && f <= 0.0 && q > l.lower && l.lower < r <= l.upper { Moves(smooth, time); }
  }

  lemma Moves(f: real, time: real)
    requires time > 0.0
    ensures f > 0.0 ==> f * time > 0.0
    ensures f < 0.0 ==> f * time < 0.0
  {
    NonNegative(Abs(f), time);
  }

  // ---- Expanding a command over the linkage ----

  /** The last of the first `n` entries whose linkage group joint `i` belongs to. */
  function Latest(l: Linkage, names: seq<nat>, n: nat, i: nat): (r: Option<nat>)
    requires n <= |names|
    ensures r.Some? ==> r.value < n
  {
    if n == 0 then None
    else if i in l.Affected(names[n - 1]) then Some(n - 1)
    else Latest(l, names, n - 1, i)
  }

  /** The latest entry is one of the joint's linkage group, and no later one is. */
  lemma {:induction false} LatestExactly(l: Linkage, names: seq<nat>, n: nat, i: nat)
    requires n <= |names|
    ensures match Latest(l, names, n, i)
      case None => forall m | 0 <= m < n :: i !in l.Affected(names[m])
      case Some(p) => i in l.Affected(names[p]) && forall m | p < m < n :: i !in l.Affected(names[m])
  {
    if n > 0 { LatestExactly(l, names, n - 1, i); }
  }

  predicate KnownJoints(names: seq<nat>, n: nat)
    requires n <= |names|
  {
    forall m | 0 <= m < n :: names[m] < JOINTS
  }

  lemma {:induction false} LatestIsLinked(l: Linkage, names: seq<nat>, n: nat, i: nat, k: nat)
    requires n <= |names| && KnownJoints(names, n) && i < JOINTS && k in l.Affected(i)
    ensures Latest(l, names, n, k) == Latest(l, names, n, i)
  {
    if n > 0 {
      var j := names[n - 1];
      LatestIsLinked(l, names, n - 1, i, k);
      LinkageIsAPartition(l, i, k);
      if i in l.Affected(j) { LinkageIsAPartition(l, j, i); }
      if k in l.Affected(j) { LinkageIsAPartition(l, j, k); }
    }
  }

  /** Entry `m` contradicts the entry that last spoke for its linkage group. */
  predicate Contradicts(l: Linkage, names: seq<nat>, values: seq<Option<real>>, m: nat)
    requires m < |names| == |values| && Finite(values, m + 1)
  {
    var p := Latest(l, names, m, names[m]);
    p.Some? && Abs(values[p.value].value - values[m].value) > TOLERANCE
  }

  predicate Finite(values: seq<Option<real>>, n: nat)
    requires n <= |values|
  {
    forall m | 0 <= m < n :: values[m].Some?
  }

  predicate WellFormed(l: Linkage, names: seq<nat>, values: seq<Option<real>>, n: nat)
    requires n <= |names| == |values|
  {
    KnownJoints(names, n) && Finite(values, n) && forall m | 0 <= m < n :: !Contradicts(l, names, values, m)
  }

  /** The values so far, spread over their linkage groups: for each joint, what was said last. */
  ghost predicate Expands(l: Linkage, expanded: map<nat, real>, names: seq<nat>, values: seq<Option<real>>, n: nat)
    requires n <= |names| == |values|
  {
    && (forall i | i in expanded :: i < JOINTS)
    && forall i | 0 <= i < JOINTS :: Said(l, expanded, names, values, n, i)
  }

  ghost predicate Said(l: Linkage, expanded: map<nat, real>, names: seq<nat>, values: seq<Option<real>>, n: nat, i: nat)
    requires n <= |names| == |values|
  {
    match Latest(l, names, n, i)
    case None => i !in expanded
    case Some(m) => i in expanded && values[m] == Some(expanded[i])
  }

  function Spread(l: Linkage, before: map<nat, real>, joint: nat, x: real): map<nat, real> {
    map i | i in before.Keys + l.Affected(joint) :: if i in l.Affected(joint) then x else before[i]
  }

  /** A value that contradicts one already given to the same linkage group. */
  predicate Conflicts(l: Linkage, expanded: map<nat, real>, joint: nat, x: real) {
    exists i | i in l.Affected(joint) :: i in expanded && Abs(expanded[i] - x) > TOLERANCE
  }

  lemma ConflictsExactly(l: Linkage, expanded: map<nat, real>, names: seq<nat>, values: seq<Option<real>>, n: nat)
    requires n < |names| == |values| && WellFormed(l, names, values, n) && Expands(l, expanded, names, values, n)
    requires names[n] < JOINTS && values[n].Some?
    ensures Finite(values, n + 1) && (Conflicts(l, expanded, names[n], values[n].value) <==> Contradicts(l, names, values, n))
    ensures WellFormed(l, names, values, n + 1) <==> !Contradicts(l, names, values, n)
  {
    LinkageIsAPartition(l, names[n], names[n]);
    assert Said(l, expanded, names, values, n, names[n]);
    forall i | i in l.Affected(names[n]) ensures i < JOINTS && Said(l, expanded, names, values, n, i) && Latest(l, names, n, i) == Latest(l, names, n, names[n]) {
      LinkageIsAPartition(l, names[n], i);
      LatestIsLinked(l, names, n, names[n], i);
    }
  }

  lemma ExpandsOnce(l: Linkage, before: map<nat, real>, names: seq<nat>, values: seq<Option<real>>, n: nat)
    requires n < |names| == |values| && Expands(l, before, names, values, n) && names[n] < JOINTS && values[n].Some?
    ensures Expands(l, Spread(l, before, names[n], values[n].value), names, values, n + 1)
  {
    var after, next := Spread(l, before, names[n], values[n].value), n + 1;
    forall i | 0 <= i < JOINTS ensures Said(l, after, names, values, next, i) {
      assert Said(l, before, names, values, n, i);
    }
    forall i | i in after ensures i < JOINTS {
      if i in l.Affected(names[n]) { LinkageIsAPartition(l, names[n], i); }
    }
  }

  /** What a command comes down to: for every joint the last value given to its linkage group, cut to the
      allowed speed; zero for a group that was not named. */
  ghost predicate Obeys(l: Linkage, velocity: seq<real>, names: seq<nat>, values: seq<Option<real>>)
    requires |velocity| == JOINTS && |names| == |values|
  {
    forall i | 0 <= i < JOINTS :: Obeyed(l, velocity[i], names, values, i)
  }

  ghost predicate Obeyed(l: Linkage, v: real, names: seq<nat>, values: seq<Option<real>>, i: nat)
    requires |names| == |values|
  {
    match Latest(l, names, |names|, i)
    case None => v == 0.0
    case Some(m) => values[m].Some? && Held(Limit(-0.3, 0.3), values[m].value, v)
  }

  function Velocities(expanded: map<nat, real>): seq<real> {
    seq(JOINTS, i => Clamp(if i in expanded then expanded[i] else 0.0, -SPEED, SPEED))
  }

  lemma VelocitiesObey(l: Linkage, expanded: map<nat, real>, names: seq<nat>, values: seq<Option<real>>)
    requires |names| == |values| && Expands(l, expanded, names, values, |names|)
    ensures Obeys(l, Velocities(expanded), names, values)
  {
    forall i | 0 <= i < JOINTS ensures Obeyed(l, Velocities(expanded)[i], names, values, i) {
      assert Said(l, expanded, names, values, |names|, i);
    }
  }

  /** Joints of one linkage group are commanded alike. */
  lemma LinkedJointsMoveAlike(l: Linkage, velocity: seq<real>, names: seq<nat>, values: seq<Option<real>>, i: nat, k: nat)
    requires |velocity| == JOINTS && |names| == |values| && KnownJoints(names, |names|)
    requires Obeys(l, velocity, names, values) && i < JOINTS && k in l.Affected(i)
    ensures k < JOINTS && velocity[k] == velocity[i]
  {
    LinkageIsAPartition(l, i, k);
    LatestIsLinked(l, names, |names|, i, k);
    assert Obeyed(l, velocity[i], names, values, i) && Obeyed(l, velocity[k], names, values, k);
  }

  /** An accepted value differs from what its joint does by no more than the conflicts allowed on the way. */
  lemma {:induction false} ValuesAreHonoured(l: Linkage, names: seq<nat>, values: seq<Option<real>>, n: nat, m: nat)
    requires m < n <= |names| == |values| && WellFormed(l, names, values, n)
    ensures var p := Latest(l, names, n, names[m]);
      && p.Some? && m <= p.value && values[p.value].Some? && values[m].Some?
      && Abs(values[p.value].value - values[m].value) <= TOLERANCE * ((n - 1 - m) as real)
  {
    LinkageIsAPartition(l, names[m], names[m]);
    if m < n - 1 {
      ValuesAreHonoured(l, names, values, n - 1, m);
      assert TOLERANCE * ((n - 1 - m) as real) == TOLERANCE * ((n - 2 - m) as real) + TOLERANCE;
      if names[m] in l.Affected(names[n - 1]) {
        LinkageIsAPartition(l, names[n - 1], names[m]);
        LatestIsLinked(l, names, n - 1, names[n - 1], names[m]);
        assert !Contradicts(l, names, values, n - 1);
      }
    }
  }

  /** Values that agree within a linkage group are accepted. */
  lemma AgreeingValuesAreAccepted(l: Linkage, names: seq<nat>, values: seq<Option<real>>)
    requires |names| == |values| && forall m | 0 <= m < |names| :: names[m] < 4 && values[m].Some?
    requires forall m, p | 0 <= p < m < |names| && names[m] in l.Affected(names[p]) ::
      -0.000000001 <= values[p].value - values[m].value <= 0.000000001
    ensures WellFormed(l, names, values, |names|)
  {
    forall m | 0 <= m < |names| ensures Finite(values, m + 1) && !Contradicts(l, names, values, m) {
      LatestExactly(l, names, m, names[m]);
    }
  }

  method Expand(l: Linkage, names: seq<nat>, values: seq<Option<real>>) returns (ok: bool, expanded: map<nat, real>)
    requires |names| == |values|
    ensures ok == WellFormed(l, names, values, |names|)
    ensures ok ==> Expands(l, expanded, names, values, |names|)
  {
    expanded := map[];
    for m := 0 to |names|
      invariant WellFormed(l, names, values, m) && Expands(l, expanded, names, values, m)
    {
      if names[m] >= JOINTS || values[m].None? { return false, expanded; }
      ConflictsExactly(l, expanded, names, values, m);
      if Conflicts(l, expanded, names[m], values[m].value) { return false, expanded; }
      ExpandsOnce(l, expanded, names, values, m);
      expanded := Spread(l, expanded, names[m], values[m].value);
    }
    return true, expanded;
  }

  /** One joint of one cycle. */
  method StepJoint(l: Limit, q: real, r: real, filtered: real, velocity: real, timedOut: bool, dt: real) returns (to: real, smooth: real)
    requires l.lower <= l.upper && Abs(filtered) <= SPEED && Abs(velocity) <= SPEED
    ensures AxisStep(to, smooth) == StepAxis(l, q, r, filtered, velocity, timedOut, dt)
    ensures Safe(l, q, to, smooth, timedOut)
  {
    StepIsBounded(l, q, r, filtered, velocity, timedOut, dt);
    to := r;
    if Abs(q - to) > DRIFT { to := q; }
    smooth := if timedOut then 0.0 else Blend(velocity, filtered);
    if (q <= l.lower && smooth < 0.0) || (q >= l.upper && smooth > 0.0) { smooth := 0.0; }
    to := Integrated(l, to, smooth, dt);
  }

  predicate AllDifferent(names: seq<nat>) {
    forall i, k | 0 <= i < k < |names| :: names[i] != names[k]
  }

  class Reference {
    const limits: seq<Limit>
    var linkage: Linkage
    var reference: Option<seq<real>>
    var velocity: seq<real>
    var filtered: seq<real>
    var stamp: Option<real>

    predicate Valid()
      reads this
    {
      && |limits| == |velocity| == |filtered| == JOINTS
      && (forall i | 0 <= i < JOINTS :: limits[i].lower <= limits[i].upper && Abs(velocity[i]) <= SPEED && Abs(filtered[i]) <= SPEED)
      && (reference.Some? ==> |reference.value| == JOINTS)
    }

    /** The joints of one linkage group are commanded alike. */
    predicate Together()
      requires Valid()
      reads this
    {
      forall i, k | 0 <= i < JOINTS && k in linkage.Affected(i) && k < JOINTS :: velocity[k] == velocity[i]
    }

    constructor (limits: seq<Limit>)
      requires |limits| == JOINTS && forall i | 0 <= i < JOINTS :: limits[i].lower <= limits[i].upper
      ensures Valid() && Together() && reference == None && stamp == None
    {
      this.limits := limits;
      linkage, reference, stamp := Independent, None, None;
      velocity, filtered := [0.0, 0.0, 0.0, 0.0], [0.0, 0.0, 0.0, 0.0];
    }

    method Reset()
      requires Valid()
      modifies this`reference, this`velocity, this`filtered, this`stamp
      ensures Valid() && Together() && reference == None && stamp == None
      ensures velocity == filtered == [0.0, 0.0, 0.0, 0.0]
    {
      reference, velocity, filtered, stamp := None, [0.0, 0.0, 0.0, 0.0], [0.0, 0.0, 0.0, 0.0], None;
    }

    /** The linkage service: an unknown mode is refused, a known one starts from standstill, so that no joint
        keeps a velocity that its new partners do not have. */
    method SetLinkage(mode: Option<Linkage>) returns (ok: bool)
      requires Valid()
      modifies this`linkage, this`reference, this`velocity, this`filtered, this`stamp
      ensures Valid() && ok == mode.Some? && (ok || old(Together()) ==> Together())
      ensures ok ==> linkage == mode.value && reference == None && stamp == None && velocity == filtered == [0.0, 0.0, 0.0, 0.0]
      ensures !ok ==> unchanged(this)
    {
      if mode == None { return false; }
      Reset();
      linkage := mode.value;
      return true;
    }

    /** A jog command names joints and gives each a finite velocity.  Anything else resets the reference. */
    method Command(names: seq<nat>, values: seq<Option<real>>, now: real) returns (ok: bool)
      requires Valid()
      modifies this`reference, this`velocity, this`filtered, this`stamp
      ensures Valid() && Together()
      ensures ok <==> |names| == |values| && names != [] && AllDifferent(names) && WellFormed(linkage, names, values, |names|)
      ensures !ok ==> reference == None && stamp == None && velocity == [0.0, 0.0, 0.0, 0.0]
      ensures ok ==> reference == old(reference) && filtered == old(filtered) && stamp == Some(now)
      ensures ok ==> Obeys(linkage, velocity, names, values)
    {
      if |names| != |values| || names == [] || !AllDifferent(names) {
        Reset();
        return false;
      }
      var valid, expanded := Expand(linkage, names, values);
      if !valid {
        Reset();
        return false;
      }
      VelocitiesObey(linkage, expanded, names, values);
      Install(expanded, names, values, now);
      return true;
    }

    method Install(expanded: map<nat, real>, ghost names: seq<nat>, ghost values: seq<Option<real>>, now: real)
      requires Valid() && |names| == |values| && KnownJoints(names, |names|) && Obeys(linkage, Velocities(expanded), names, values)
      modifies this`velocity, this`stamp
      ensures Valid() && Together() && velocity == Velocities(expanded) && stamp == Some(now)
    {
      forall i, k | 0 <= i < JOINTS && k in linkage.Affected(i) && k < JOINTS
        ensures Velocities(expanded)[k] == Velocities(expanded)[i]
      {
        LinkedJointsMoveAlike(linkage, Velocities(expanded), names, values, i, k);
      }
      velocity := Velocities(expanded);
      stamp := Some(now);
    }

    function Start(i: nat, q: real): real
      requires Valid() && i < JOINTS
      reads this
    {
      if reference.Some? then reference.value[i] else q
    }

    /** One cycle: every joint advances by its own step; without a fresh command everything stops. */
    method Step(measured: seq<Option<real>>, now: real, dt: real) returns (ok: bool, timedOut: bool)
      requires Valid() && Together()
      modifies this`reference, this`velocity, this`filtered, this`stamp
      ensures Valid() && Together()
      ensures ok <==> |measured| == JOINTS && forall i | 0 <= i < JOINTS :: measured[i].Some?
      ensures !ok ==> reference == None && stamp == None && velocity == filtered == [0.0, 0.0, 0.0, 0.0]
      ensures ok ==> velocity == old(velocity) && stamp == old(stamp) && reference.Some?
      ensures ok ==> timedOut == (stamp.None? || now < stamp.value || now - stamp.value > 0.25)
      ensures ok ==> forall i | 0 <= i < JOINTS :: Stepped(limits[i], measured[i].value, old(Start(i, measured[i].value)),
                                                          old(filtered)[i], velocity[i], timedOut, dt, reference.value[i], filtered[i])
      ensures ok ==> forall i | 0 <= i < JOINTS :: Safe(limits[i], measured[i].value, reference.value[i], filtered[i], timedOut)
    {
      hide Safe;
      timedOut := false;
      if |measured| != JOINTS || exists i | 0 <= i < JOINTS :: measured[i].None? {
        Reset();
        return false, timedOut;
      }
      timedOut := stamp.None? || now < stamp.value || now - stamp.value > COMMAND_TIMEOUT;
      var at, smooth := [], [];
      for i := 0 to JOINTS
        invariant |at| == |smooth| == i && Valid() && Together()
        invariant reference == old(reference) && filtered == old(filtered) && velocity == old(velocity) && stamp == old(stamp)
        invariant forall k | 0 <= k < i :: Stepped(limits[k], measured[k].value, Start(k, measured[k].value),
                                                   filtered[k], velocity[k], timedOut, dt, at[k], smooth[k])
        invariant forall k | 0 <= k < i :: Safe(limits[k], measured[k].value, at[k], smooth[k], timedOut)
      {
        var q := measured[i].value;
        var to, f := StepJoint(limits[i], q, Start(i, q), filtered[i], velocity[i], timedOut, dt);
        at, smooth := at + [to], smooth + [f];
      }
      reference, filtered := Some(at), smooth;
      return true, timedOut;
    }
  }

  // ---- The timed velocity controller ----

  /** A message: its values and the activation it was addressed to. */
  datatype Message = Message(values: seq<Option<real>>, stamp: Option<real>, epoch: nat)

  predicate AllFinite(values: seq<Option<real>>) {
    forall i | 0 <= i < |values| :: values[i].Some?
  }

  class VelocityWatchdog {
    const size: nat
    var epoch: nat
    var valid: bool
    var values: seq<real>
    var stamp: real
    /** The last message since the activation that was accepted, if the last one was. */
    ghost var source: Option<Message>

    ghost predicate Valid()
      reads this
    {
      && (valid <==> source.Some?)
      && (valid ==>
            && source.value.epoch == epoch && source.value.stamp == Some(stamp) && |values| == size == |source.value.values|
            && forall i | 0 <= i < size :: source.value.values[i] == Some(values[i]))
    }

    constructor (size: nat)
      ensures Valid() && this.size == size && !valid && epoch == 0
    {
      this.size, epoch, valid, values, stamp, source := size, 0, false, [], 0.0, None;
    }

    method Reset() returns (current: nat)
      requires Valid()
      modifies this
      ensures Valid() && !valid && current == epoch == old(epoch) + 1
    {
      epoch, valid, source := epoch + 1, false, None;
      return epoch;
    }

    /** Only a complete, finite message of the current activation is kept; any other one empties the buffer. */
    method Accept(m: Message) returns (accepted: bool)
      requires Valid()
      modifies this
      ensures Valid() && epoch == old(epoch) && accepted == valid
      ensures accepted <==> m.epoch == epoch && |m.values| == size && m.stamp.Some? && AllFinite(m.values)
      ensures accepted ==> source == Some(m)
    {
      valid := m.epoch == epoch && |m.values| == size && m.stamp.Some? && AllFinite(m.values);
      source := None;
      if valid {
        values := seq(size, i requires 0 <= i < size && |m.values| == size && AllFinite(m.values) => m.values[i].value);
        stamp, source := m.stamp.value, Some(m);
      }
      return valid;
    }

    function Sample(now: real, timeout: real): (r: seq<real>)
      requires Valid()
      reads this
      ensures |r| == size
      ensures source.Some? && 0.0 <= now - stamp <= timeout ==> forall i | 0 <= i < size :: source.value.values[i] == Some(r[i])
      ensures !(source.Some? && 0.0 <= now - stamp <= timeout) ==> forall i | 0 <= i < size :: r[i] == 0.0
    {
      if !valid || now < stamp || now - stamp > timeout then seq(size, _ => 0.0) else values
    }
  }

  /** The output of one joint: cut to the maximum, and zero where it would push past a limit. */
  function Output(l: Limit, maximum: real, q: real, velocity: real): real {
    var v := Clamp(velocity, -maximum, maximum);
    if (q <= l.lower && v < 0.0) || (q >= l.upper && v > 0.0) then 0.0 else v
  }

  class TimedVelocityController {
    const watchdog: VelocityWatchdog
    const limits: seq<Limit>
    const maximum: seq<real>
    const timeout: real
    const byPosition: bool
    var reference: seq<real>
    var commands: seq<real>

    ghost predicate Configured()
      reads this, watchdog
    {
      && watchdog.Valid() && watchdog.size == |limits| == |maximum| == |commands| && timeout > 0.0
      && forall i | 0 <= i < |limits| :: limits[i].lower < limits[i].upper && maximum[i] > 0.0
    }

    ghost predicate Active()
      reads this, watchdog
    {
      && Configured() && |reference| == |limits|
      && forall i | 0 <= i < |limits| :: limits[i].lower <= reference[i] <= limits[i].upper
    }

    constructor (limits: seq<Limit>, maximum: seq<real>, timeout: real, byPosition: bool)
      requires |limits| == |maximum| && timeout > 0.0
      requires forall i | 0 <= i < |limits| :: limits[i].lower < limits[i].upper && maximum[i] > 0.0
      ensures Configured() && fresh(watchdog)
    {
      this.limits, this.maximum, this.timeout, this.byPosition := limits, maximum, timeout, byPosition;
      watchdog := new VelocityWatchdog(|limits|);
      reference, commands := [], seq(|limits|, _ => 0.0);
    }

    /** Activation is refused unless every joint is measured inside its limits; it starts a new epoch, so
        no earlier message counts any more. */
    method Activate(measured: seq<Option<real>>) returns (ok: bool)
      requires Configured() && |measured| == |limits|
      modifies this, watchdog
      ensures Configured()
      ensures ok <==> forall i | 0 <= i < |limits| :: measured[i].Some? && limits[i].lower <= measured[i].value <= limits[i].upper
      ensures ok ==> Active() && !watchdog.valid && watchdog.epoch == old(watchdog.epoch) + 1
      ensures ok ==> forall i | 0 <= i < |limits| :: reference[i] == measured[i].value && commands[i] == if byPosition then reference[i] else 0.0
    {
      reference := [];
      for i := 0 to |limits|
        invariant Configured() && |reference| == i && watchdog.epoch == old(watchdog.epoch)
        invariant forall k | 0 <= k < i :: measured[k].Some? && limits[k].lower <= measured[k].value <= limits[k].upper
        invariant forall k | 0 <= k < i :: reference[k] == measured[k].value && commands[k] == if byPosition then reference[k] else 0.0
      {
        var q := measured[i];
        if q.None? || q.value < limits[i].lower || q.value > limits[i].upper { return false; }
        reference := reference + [q.value];
        commands := commands[i := if byPosition then q.value else 0.0];
      }
      var epoch := watchdog.Reset();
      return true;
    }

    /** One update.  Outputs respect the maxima and the limits, and move only for a fresh message of this
        very activation. */
    method Update(measured: seq<Option<real>>, now: real, period: real) returns (ok: bool, ghost velocities: seq<real>)
      requires Active() && |measured| == |limits|
      modifies this`reference, this`commands
      ensures Active() && velocities == watchdog.Sample(now, timeout)
      ensures ok <==> AllFinite(measured)
      ensures ok ==> forall i | 0 <= i < |limits| ::
        Updated(limits[i], maximum[i], measured[i].value, velocities[i], old(reference)[i], period, byPosition, reference[i], commands[i])
    {
      var sampled := watchdog.Sample(now, timeout);
      velocities := sampled;
      for i := 0 to |limits|
        invariant Active() && |reference| == |old(reference)|
        invariant forall k | 0 <= k < i :: measured[k].Some?
        invariant forall k | 0 <= k < i ::
          Updated(limits[k], maximum[k], measured[k].value, sampled[k], old(reference)[k], period, byPosition, reference[k], commands[k])
        invariant forall k | i <= k < |limits| :: reference[k] == old(reference)[k]
      {
        if measured[i].None? { return false, velocities; }
        var q := measured[i].value;
        var v := Clamp(sampled[i], -maximum[i], maximum[i]);
        if (q <= limits[i].lower && v < 0.0) || (q >= limits[i].upper && v > 0.0) { v := 0.0; }
        if byPosition {
          reference := reference[i := Integrated(limits[i], reference[i], v, period)];
          commands := commands[i := reference[i]];
        } else {
          commands := commands[i := v];
        }
      }
      return true, velocities;
    }
  }

  predicate Updated(l: Limit, maximum: real, q: real, v: real, was: real, period: real, byPosition: bool, reference: real, command: real) {
    if byPosition then reference == Integrated(l, was, Output(l, maximum, q, v), period) && command == reference
    else reference == was && command == Output(l, maximum, q, v)
  }

  /** An update in plain numbers: the velocity is held within the maximum, and sent unless it would push past a
      limit, or integrated for 0.02 seconds at most. */
  lemma UpdateInNumbers(l: Limit, maximum: real, q: real, v: real, was: real, period: real, byPosition: bool, reference: real, command: real)
    requires l.lower < l.upper && maximum > 0.0 && Updated(l, maximum, q, v, was, period, byPosition, reference, command)
    ensures !byPosition ==> reference == was
    ensures !byPosition && ((q <= l.lower && v < 0.0) || (q >= l.upper && v > 0.0)) ==> command == 0.0
    ensures !byPosition && (q > l.lower || v >= 0.0) && (q < l.upper || v <= 0.0) ==> Held(Limit(-maximum, maximum), v, command)
    ensures byPosition ==> command == reference
    ensures byPosition && ((q <= l.lower && v < 0.0) || (q >= l.upper && v > 0.0)) ==> Held(l, was, reference)
    ensures byPosition && (q > l.lower || v >= 0.0) && (q < l.upper || v <= 0.0) && -maximum <= v <= maximum && 0.0 <= period <= 0.02 ==>
      Held(l, was + v * period, reference)
    ensures byPosition && (q > l.lower || v >= 0.0) && (q < l.upper || v <= 0.0) && -maximum <= v <= maximum && period >= 0.02 ==>
      Held(l, was + v * 0.02, reference)
  {
    var f := Output(l, maximum, q, v);
    IntegratedInNumbers(l, was, f, period);
    OutputInNumbers(l, maximum, q, v);
    hide Integrated, Held, Output;
    if f == 0.0 {
      assert f * period == 0.0;
    }
  }

  lemma OutputInNumbers(l: Limit, maximum: real, q: real, v: real)
    requires maximum > 0.0
    ensures (q <= l.lower && v < 0.0) || (q >= l.upper && v > 0.0) ==> Output(l, maximum, q, v) == 0.0
    ensures (q > l.lower || v >= 0.0) && (q < l.upper || v <= 0.0) ==>
      Held(Limit(-maximum, maximum), v, Output(l, maximum, q, v)) && (-maximum <= v <= maximum ==> Output(l, maximum, q, v) == v)
  {
  }

  /** What an update may send: a velocity within the maximum, zero when nothing fresh was received or the
      joint would leave its limits; or a position within the limits, close to the one before. */
  lemma UpdatesAreBounded(l: Limit, maximum: real, q: real, v: real, was: real, period: real, byPosition: bool, reference: real, command: real)
    requires l.lower < l.upper && maximum > 0.0 && l.lower <= was <= l.upper
    requires Updated(l, maximum, q, v, was, period, byPosition, reference, command)
    ensures l.lower <= reference <= l.upper
    ensures byPosition ==> l.lower <= command <= l.upper && Abs(command - was) <= maximum * MAX_DT && (v == 0.0 ==> command == was)
    ensures !byPosition ==> Abs(command) <= maximum && (v == 0.0 ==> command == 0.0)
    ensures !byPosition ==> (q <= l.lower ==> command >= 0.0) && (q >= l.upper ==> command <= 0.0)
  {
    hide Output, Integrated;
    OutputIsBounded(l, maximum, q, v);
    if byPosition { IntegratedStaysClose(l, maximum, Output(l, maximum, q, v), was, period); }
  }

  lemma IntegratedStaysClose(l: Limit, maximum: real, f: real, was: real, period: real)
    requires l.lower <= was <= l.upper && Abs(f) <= maximum
    ensures var to := Integrated(l, was, f, period);
      l.lower <= to <= l.upper && Abs(to - was) <= maximum * MAX_DT && (f == 0.0 ==> to == was)
  {
    var d := Clamp(period, 0.0, MAX_DT);
    assert 0.0 <= d <= MAX_DT && (f == 0.0 ==> f * d == 0.0);
    DisplacementIsBounded(f, d, maximum);
    hide Clamp, Abs;
    CutStaysClose(was, f * d, l.lower, l.upper, maximum * MAX_DT);
  }

  lemma OutputIsBounded(l: Limit, maximum: real, q: real, v: real)
    requires maximum > 0.0
    ensures var f := Output(l, maximum, q, v);
      && Abs(f) <= maximum && (v == 0.0 ==> f == 0.0) && (q <= l.lower ==> f >= 0.0) && (q >= l.upper ==> f <= 0.0)
  {
  }

  lemma DisplacementIsBounded(f: real, d: real, maximum: real)
    requires Abs(f) <= maximum && 0.0 <= d <= MAX_DT
    ensures Abs(f * d) <= maximum * MAX_DT
  {
    NonNegative(maximum - f, d);
    NonNegative(maximum + f, d);
    NonNegative(maximum, MAX_DT - d);
    assert (maximum - f) * d == maximum * d - f * d;
    assert (maximum + f) * d == maximum * d + f * d;
    assert maximum * (MAX_DT - d) == maximum * MAX_DT - maximum * d;
  }

  lemma CutStaysClose(was: real, x: real, lo: real, hi: real, b: real)
    requires lo <= was <= hi && Abs(x) <= b
    ensures lo <= Clamp(was + x, lo, hi) <= hi && Abs(Clamp(was + x, lo, hi) - was) <= b
    ensures x == 0.0 ==> Clamp(was + x, lo, hi) == was
  {
  }

  /** A message of an earlier activation, or a malformed one, silences the controller until a good one arrives. */
  method StaleMessageOnlyStops(w: VelocityWatchdog, m: Message, now: real, timeout: real) returns (r: seq<real>)
    requires w.Valid() && m.epoch != w.epoch
    modifies w
    ensures w.Valid() && forall i | 0 <= i < |r| :: r[i] == 0.0
  {
    var accepted := w.Accept(m);
    r := w.Sample(now, timeout);
  }

  predicate Stepped(l: Limit, q: real, r: real, f: real, v: real, timedOut: bool, dt: real, to: real, smooth: real) {
    AxisStep(to, smooth) == StepAxis(l, q, r, f, v, timedOut, dt)
  }

  predicate Safe(l: Limit, q: real, r: real, f: real, timedOut: bool) {
    && Abs(f) <= SPEED && l.lower <= r <= l.upper
    && (l.lower <= q <= l.upper ==> Abs(r - q) <= 0.356)
    && (timedOut ==> f == 0.0) && (q <= l.lower ==> f >= 0.0) && (q >= l.upper ==> f <= 0.0)
  }
}
