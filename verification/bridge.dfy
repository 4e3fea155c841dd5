/** The operator-input bridge: an emergency latch, two exclusive control modes, a speed level, a sequence
    filter and a watchdog, with one message at a time. */
module OperatorBridge {
  import opened Basics

  type Key = nat
  type Button = nat

  datatype Mode = Vehicle | Arm {
    function Other(): Mode { if this == Vehicle then Arm else Vehicle }
  }

  /** The speed keys in the order in which the source goes through them, and the level of each. */
  const SPEED_LEVELS: seq<nat> := [5, 1, 2, 3, 4, 5, 1, 2, 3, 4]
  const MODE_KEYS: set<Key> := {10, 11}
  const SPACE: Key := 12
  const L3: Button := 3
  const R3: Button := 4
  const EMERGENCY_KEYS: set<Key> := {SPACE}
  const MODE_BUTTONS: set<Button> := {0, 1, 2}
  const EMERGENCY_CHORD: set<Button> := {L3, R3}

  /** Largest command of each kind at one speed level. */
  datatype Scale = Scale(baseLinear: real, baseAngular: real, armLinear: real, armAngular: real, gripper: real, flipper: real)

  /** What the sticks and keys of one message ask for, before it is cut to one and scaled. */
  datatype Demand = Demand(linear: real, angular: real, flippers: seq<real>, arm: seq<real>, gripper: real)

  datatype Twist = Twist(linear: real, angular: real)

  const STILL := Twist(0.0, 0.0)
  const NO_SERVO: seq<real> := [0.0, 0.0, 0.0, 0.0, 0.0, 0.0]
  const NO_FLIPPERS: seq<real> := [0.0, 0.0, 0.0, 0.0]

  function Cut(x: real): real { if x < -1.0 then -1.0 else if x > 1.0 then 1.0 else x }

  datatype Status = DroppedOldSeq | IgnoredEmergency | EmergencyKey | Accepted

  function LevelAfter(level: nat, edges: set<Key>, n: nat): nat
    requires n <= |SPEED_LEVELS|
  {
    if n == 0 then level
    else if (n - 1) in edges then SPEED_LEVELS[n - 1]
    else LevelAfter(level, edges, n - 1)
  }

  lemma {:induction false} LevelStaysInRange(level: nat, edges: set<Key>, n: nat)
    requires n <= |SPEED_LEVELS| && 1 <= level <= 5
    ensures 1 <= LevelAfter(level, edges, n) <= 5
  {
    if n > 0 { LevelStaysInRange(level, edges, n - 1); }
  }

  /** The speed key that sorts last decides, and without one the level stays. */
  lemma {:induction false} LastSpeedKeyDecides(level: nat, edges: set<Key>, n: nat)
    requires n <= |SPEED_LEVELS|
    ensures (forall k | 0 <= k < n :: k !in edges) ==> LevelAfter(level, edges, n) == level
    ensures forall k | 0 <= k < n && k in edges && (forall m | k < m < n :: m !in edges) ::
      LevelAfter(level, edges, n) == [5, 1, 2, 3, 4, 5, 1, 2, 3, 4][k]
  {
    if n > 0 { LastSpeedKeyDecides(level, edges, n - 1); }
  }

  /** The mode after the switch edges of one message; a refusal by the mode service turns it over again,
      also when a key and a button together had left it where it was. */
  function ModeAfter(mode: Mode, key: bool, button: bool, refused: bool): Mode {
    var m := if key then mode.Other() else mode;
    var n := if button then m.Other() else m;
    if (key || button) && refused then n.Other() else n
  }

  lemma RefusalRestoresExactly(mode: Mode, key: bool, button: bool)
    ensures ModeAfter(mode, key, button, true) == mode <==> !(key && button)
  {
  }

  /** What is accepted turns the mode over exactly if either a key or a button was newly pressed, not both. */
  lemma OneEdgeTurnsTheMode(mode: Mode, key: bool, button: bool)
    ensures ModeAfter(mode, key, button, false) == mode <==> (key <==> button)
  {
  }

  /** An output follows its demand: proportionally up to full deflection, and no further. */
  predicate Follows(output: real, demand: real, scale: real) {
    && (-1.0 <= demand <= 1.0 ==> output == demand * scale)
    && (demand > 1.0 ==> output == scale)
    && (demand < -1.0 ==> output == -scale)
  }

  lemma CutFollows(demand: real, scale: real)
    ensures Follows(Cut(demand) * scale, demand, scale)
  {
  }

  class Bridge {
    const scales: map<nat, Scale>
    const watchdogMs: int
    var emergency: bool
    var watchdog: bool
    var mode: Mode
    var level: nat
    var lastSeq: int
    var lastInputMs: int
    var keys: set<Key>
    var buttons: set<Button>
    var twist: Twist
    var servo: seq<real>
    var gripper: real
    var flippers: seq<real>
    /** Sequence numbers let through since the session began. */
    ghost var through: seq<int>

    predicate AllZero()
      reads this
    {
      twist == STILL && servo == NO_SERVO && gripper == 0.0 && flippers == NO_FLIPPERS
    }

    predicate BaseMoves()
      reads this
    {
      twist != STILL || flippers != NO_FLIPPERS
    }

    predicate ArmMoves()
      reads this
    {
      servo != NO_SERVO || gripper != 0.0
    }

    ghost predicate Valid()
      reads this
    {
      && (emergency || watchdog ==> AllZero())
      && (mode == Vehicle ==> !ArmMoves()) && (mode == Arm ==> !BaseMoves())
      && 1 <= level <= 5 && (forall l | 1 <= l <= 5 :: l in scales)
      && lastSeq >= 0 && lastInputMs >= 0
      && (forall i, j | 0 <= i < j < |through| :: through[i] < through[j])
      && (forall i | 0 <= i < |through| :: 0 < through[i] <= lastSeq)
    }

    constructor (scales: map<nat, Scale>, watchdogMs: int, level: nat)
      requires 1 <= level <= 5 && forall l | 1 <= l <= 5 :: l in scales
      ensures Valid() && !emergency && through == [] && AllZero() && mode == Vehicle
    {
      this.scales, this.watchdogMs, this.level := scales, watchdogMs, level;
      emergency, watchdog, mode, lastSeq, lastInputMs := false, false, Vehicle, 0, 0;
      keys, buttons, through := {}, {}, [];
      twist, servo, gripper, flippers := STILL, NO_SERVO, 0.0, NO_FLIPPERS;
    }

    method PublishZero()
      modifies this`twist, this`servo, this`gripper, this`flippers
      ensures AllZero()
    {
      twist := STILL;
      servo := NO_SERVO;
      gripper := 0.0;
      flippers := NO_FLIPPERS;
    }

    /** The outputs are what the demand asks of the side the mode selects, at the current level; the gripper
        moves only once an earlier input has been accepted. */
    predicate Commands(d: Demand, gripping: bool)
      requires level in scales
      reads this
    {
      var s := scales[level];
      if mode == Vehicle then
        && twist == Twist(Cut(d.linear) * s.baseLinear, Cut(d.angular) * s.baseAngular)
        && flippers == Scaled(d.flippers, 4, s.flipper) && !ArmMoves()
      else
        && servo == Scaled(d.arm, 3, s.armLinear) + Scaled(Rest(d.arm), 3, s.armAngular)
        && gripper == (if gripping then Cut(d.gripper) * s.gripper else 0.0) && !BaseMoves()
    }

    /** Each stick moves its own output by its own scale, and nothing of the other side moves. */
    lemma SticksAreFollowed(d: Demand, gripping: bool)
      requires level in scales && |d.flippers| == 4 && |d.arm| == 6 && Commands(d, gripping)
      ensures mode == Vehicle ==>
        && Follows(twist.linear, d.linear, scales[level].baseLinear) && Follows(twist.angular, d.angular, scales[level].baseAngular)
        && |flippers| == 4 && (forall i | 0 <= i < 4 :: Follows(flippers[i], d.flippers[i], scales[level].flipper))
        && servo == [0.0, 0.0, 0.0, 0.0, 0.0, 0.0] && gripper == 0.0
      ensures mode == Arm ==>
        && |servo| == 6 && (forall i | 0 <= i < 3 :: Follows(servo[i], d.arm[i], scales[level].armLinear))
        && (forall i | 3 <= i < 6 :: Follows(servo[i], d.arm[i], scales[level].armAngular))
        && (if gripping then Follows(gripper, d.gripper, scales[level].gripper) else gripper == 0.0)
        && twist.linear == 0.0 && twist.angular == 0.0 && flippers == [0.0, 0.0, 0.0, 0.0]
    {
      var s := scales[level];
      CutFollows(d.linear, s.baseLinear);
      CutFollows(d.angular, s.baseAngular);
      CutFollows(d.gripper, s.gripper);
      forall i | 0 <= i < 4 ensures Follows(Scaled(d.flippers, 4, s.flipper)[i], d.flippers[i], s.flipper) {
        CutFollows(d.flippers[i], s.flipper);
      }
      ArmIsFollowed(d.arm, s.armLinear, s.armAngular);
    }

    method ApplySpeed(keyEdges: set<Key>)
      requires 1 <= level <= 5
      modifies this`level
      ensures level == LevelAfter(old(level), keyEdges, |SPEED_LEVELS|) && 1 <= level <= 5
    {
      for k := 0 to |SPEED_LEVELS|
        invariant level == LevelAfter(old(level), keyEdges, k)
      {
        if k in keyEdges { level := SPEED_LEVELS[k]; }
      }
      LevelStaysInRange(old(level), keyEdges, |SPEED_LEVELS|);
    }

    /** Mode and speed edges.  A mode change zeroes everything before the mode service is asked. */
    method ApplyEdges(keyEdges: set<Key>, buttonEdges: set<Button>, modeService: Option<bool>)
      requires Valid()
      modifies this`mode, this`level, this`twist, this`servo, this`gripper, this`flippers
      ensures Valid()
      ensures level == LevelAfter(old(level), keyEdges, |SPEED_LEVELS|)
      ensures mode == ModeAfter(old(mode), MODE_KEYS * keyEdges != {}, MODE_BUTTONS * buttonEdges != {}, modeService == Some(false))
      ensures MODE_KEYS * keyEdges != {} || MODE_BUTTONS * buttonEdges != {} ==> AllZero()
    {
      var changed := false;
      if MODE_KEYS * keyEdges != {} { mode, changed := mode.Other(), true; }
      if MODE_BUTTONS * buttonEdges != {} { mode, changed := mode.Other(), true; }
      ApplySpeed(keyEdges);
      if changed {
        PublishZero();
        if modeService == Some(false) { mode := mode.Other(); }
      }
    }

    /** Commands of the current mode only; the other side is zeroed. */
    method PublishOutputs(d: Demand)
      requires Valid() && !emergency && !watchdog
      modifies this`twist, this`servo, this`gripper, this`flippers
      ensures Valid() && Commands(d, lastInputMs > 0)
    {
      var s := scales[level];
      if mode == Arm {
        twist := STILL;
        servo := Scaled(d.arm, 3, s.armLinear) + Scaled(Rest(d.arm), 3, s.armAngular);
        gripper := if lastInputMs <= 0 then 0.0 else Cut(d.gripper) * s.gripper;
        flippers := NO_FLIPPERS;
      } else {
        twist := Twist(Cut(d.linear) * s.baseLinear, Cut(d.angular) * s.baseAngular);
        servo := NO_SERVO;
        flippers := Scaled(d.flippers, 4, s.flipper);
      }
    }

    /** One operator message.  Old ones are dropped; under an emergency only zeroes go out; an emergency
        edge latches; everything else moves only the side the mode selects. */
    method HandleOperatorInput(seqNo: int, pressed: set<Key>, active: set<Button>, d: Demand, nowMs: int, modeService: Option<bool>)
      returns (status: Status)
      requires Valid() && nowMs >= 0
      modifies this
      ensures Valid()
      ensures status == DroppedOldSeq <==> seqNo <= old(lastSeq)
      ensures status == IgnoredEmergency <==> seqNo > old(lastSeq) && old(emergency)
      ensures status == EmergencyKey <==>
        && seqNo > old(lastSeq) && !old(emergency)
        && ((SPACE in pressed && SPACE !in old(keys))
            || (L3 in active && R3 in active && (L3 !in old(buttons) || R3 !in old(buttons))))
      ensures status == DroppedOldSeq ==> unchanged(this)
      ensures status != DroppedOldSeq ==> through == old(through) + [seqNo] && lastSeq == seqNo && keys == pressed && buttons == active
      ensures status == IgnoredEmergency ==> watchdog == old(watchdog)
      ensures status == IgnoredEmergency || status == EmergencyKey ==>
        emergency && AllZero() && mode == old(mode) && level == old(level) && lastInputMs == old(lastInputMs)
      ensures emergency == (old(emergency) || status == EmergencyKey)
      ensures status == Accepted ==> !watchdog && lastInputMs == nowMs && Commands(d, old(lastInputMs) > 0)
      ensures status == Accepted ==> level == LevelAfter(old(level), pressed - old(keys), |SPEED_LEVELS|)
      ensures status == Accepted ==> mode == ModeAfter(old(mode), MODE_KEYS * (pressed - old(keys)) != {},
                                                       MODE_BUTTONS * (active - old(buttons)) != {}, modeService == Some(false))
    {
      hide Bridge.Commands, LevelAfter, ModeAfter, EmergencyEdge, Scaled;
      if seqNo <= lastSeq { return DroppedOldSeq; }
      var keyEdges, buttonEdges := pressed - keys, active - buttons;
      var trigger := EmergencyEdge(pressed, active, keys, buttons);
      EdgesInFields(pressed, active, keys, buttons);
      LetThrough(seqNo, pressed, active);
      if emergency {
        PublishZero();
        return IgnoredEmergency;
      }
      watchdog := false;
      if trigger {
        EmergencyStop();
        return EmergencyKey;
      }
      Obey(keyEdges, buttonEdges, d, nowMs, modeService);
      return Accepted;
    }

    method LetThrough(seqNo: int, pressed: set<Key>, active: set<Button>)
      requires Valid() && seqNo > lastSeq
      modifies this`through, this`lastSeq, this`keys, this`buttons
      ensures Valid() && through == old(through) + [seqNo] && lastSeq == seqNo && keys == pressed && buttons == active
    {
      through := through + [seqNo];
      lastSeq, keys, buttons := seqNo, pressed, active;
    }

    method Obey(keyEdges: set<Key>, buttonEdges: set<Button>, d: Demand, nowMs: int, modeService: Option<bool>)
      requires Valid() && !emergency && !watchdog && nowMs >= 0
      modifies this`mode, this`level, this`lastInputMs, this`twist, this`servo, this`gripper, this`flippers
      ensures Valid() && Commands(d, old(lastInputMs) > 0)
      ensures lastInputMs == nowMs && level == LevelAfter(old(level), keyEdges, |SPEED_LEVELS|)
      ensures mode == ModeAfter(old(mode), MODE_KEYS * keyEdges != {}, MODE_BUTTONS * buttonEdges != {}, modeService == Some(false))
    {
      ApplyEdges(keyEdges, buttonEdges, modeService);
      PublishOutputs(d);
      lastInputMs := nowMs;
    }

    method EmergencyStop()
      requires Valid()
      modifies this`emergency, this`watchdog, this`twist, this`servo, this`gripper, this`flippers
      ensures Valid() && emergency && !watchdog && AllZero()
    {
      emergency, watchdog := true, false;
      PublishZero();
    }

    /** The only way out of an emergency; it moves nothing. */
    method ClearEmergency()
      requires Valid()
      modifies this`emergency
      ensures Valid() && !emergency
    {
      emergency := false;
    }

    method SetControlMode(requested: Option<Mode>, service: Option<bool>) returns (ok: bool)
      requires Valid()
      modifies this`mode, this`keys, this`twist, this`servo, this`gripper, this`flippers
      ensures Valid() && ok == (requested.Some? && service != Some(false))
      ensures mode == (if ok then requested.value else old(mode)) && keys == (if ok then {} else old(keys))
      ensures ok ==> AllZero()
    {
      if requested.None? || service == Some(false) { return false; }
      mode, keys := requested.value, {};
      PublishZero();
      return true;
    }

    /** Silence after the last accepted input stops everything. */
    method CheckWatchdog(nowMs: int) returns (expired: bool)
      requires Valid()
      modifies this`watchdog, this`twist, this`servo, this`gripper, this`flippers
      ensures Valid() && watchdog == (old(watchdog) || expired)
      ensures expired == (lastInputMs > 0 && !emergency && !old(watchdog) && nowMs - lastInputMs > watchdogMs)
      ensures lastInputMs > 0 && nowMs - lastInputMs > watchdogMs ==> AllZero()
    {
      expired := lastInputMs > 0 && !emergency && !watchdog && nowMs - lastInputMs > watchdogMs;
      if expired {
        watchdog := true;
        PublishZero();
      }
    }

    /** A new client session: sequence numbers start over, and nothing moves. */
    method ResetSession()
      requires Valid()
      modifies this
      ensures Valid() && through == [] && lastSeq == 0 && lastInputMs == 0 && !watchdog && AllZero()
      ensures emergency == old(emergency) && mode == old(mode) && level == old(level)
    {
      lastSeq, lastInputMs, watchdog := 0, 0, false;
      keys, buttons, through := {}, {}, [];
      PublishZero();
    }
  }

  lemma ArmIsFollowed(arm: seq<real>, linear: real, angular: real)
    requires |arm| == 6
    ensures var servo := Scaled(arm, 3, linear) + Scaled(Rest(arm), 3, angular);
      && (forall i | 0 <= i < 3 :: Follows(servo[i], arm[i], linear))
      && (forall i | 3 <= i < 6 :: Follows(servo[i], arm[i], angular))
  {
    forall i | 0 <= i < 3 ensures Follows(Scaled(arm, 3, linear)[i], arm[i], linear) {
      CutFollows(arm[i], linear);
    }
    forall i | 0 <= i < 3 ensures Follows(Scaled(Rest(arm), 3, angular)[i], arm[3 + i], angular) {
      CutFollows(arm[3 + i], angular);
    }
  }

  predicate EmergencyEdge(pressed: set<Key>, active: set<Button>, keys: set<Key>, buttons: set<Button>) {
    EMERGENCY_KEYS * (pressed - keys) != {} || (EMERGENCY_CHORD <= active && EMERGENCY_CHORD * (active - buttons) != {})
  }

  lemma EdgesInFields(pressed: set<Key>, active: set<Button>, keys: set<Key>, buttons: set<Button>)
    ensures EmergencyEdge(pressed, active, keys, buttons) <==>
      (SPACE in pressed && SPACE !in keys) || (L3 in active && R3 in active && (L3 !in buttons || R3 !in buttons))
  {
    assert SPACE in pressed && SPACE !in keys ==> SPACE in EMERGENCY_KEYS * (pressed - keys);
    assert L3 in active && L3 !in buttons ==> L3 in EMERGENCY_CHORD * (active - buttons);
    assert R3 in active && R3 !in buttons ==> R3 in EMERGENCY_CHORD * (active - buttons);
  }

  function Rest(s: seq<real>): seq<real> {
    if |s| <= 3 then [] else s[3..]
  }

  /** The first `n` demands, cut to one and scaled; missing ones are zero. */
  function Scaled(s: seq<real>, n: nat, scale: real): (r: seq<real>)
    ensures |r| == n
  {
    seq(n, i => if 0 <= i < |s| then Cut(s[i]) * scale else 0.0)
  }

  lemma ScaledIsBounded(s: seq<real>, n: nat, scale: real, i: nat)
    requires i < n && scale >= 0.0
    ensures -scale <= Scaled(s, n, scale)[i] <= scale
  {
    if i < |s| {
      var c := Cut(s[i]);
      NonNegative(1.0 - c, scale);
      NonNegative(1.0 + c, scale);
      assert (1.0 - c) * scale == scale - c * scale && (1.0 + c) * scale == scale + c * scale;
    }
  }
}
