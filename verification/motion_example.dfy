/** A run in which a refused write takes the preparation of a session that was armed meanwhile. */
module MotionExample {
  import opened Closure
  import opened Guard
  import opened GuardInvariant
  import opened MotionLog

  const LIFT: Name := 11
  const BUS: Name := 12
  const OWNER: seq<Name> := [ARM]

  /** One prepared and ready group, nothing latched, no lease required. */
  function World(state: State, epoch: nat): Guard {
    INITIAL.(axes := map[LIFT := Axis(ARM, BUS, true)], groups := map[ARM := Group(state, epoch, true, {})])
  }

  lemma WorldIsValid(state: State, epoch: nat)
    ensures Valid(World(state, epoch))
  {
    var s := World(state, epoch);
    assert s.axes[LIFT].group == ARM;
    assert AllReady(s.axes, ARM);
  }

  lemma WorldStands(state: State, epoch: nat, now: int)
    ensures Propagated(World(state, epoch), now) == World(state, epoch)
  {
    var s := World(state, epoch);
    PropagatedIs(s, now);
    assert Blockers(s, ARM, now) == {};
    assert Propagated(s, now).groups[ARM] == s.groups[ARM];
    assert Propagated(s, now).groups == s.groups;
  }

  lemma ArmedNext(state: State, epoch: nat, now: int)
    requires state == Stopped
    ensures Step(World(state, epoch), Arm(ARM), now) == World(Armed, epoch + 1)
  {
    WorldStands(state, epoch, now);
    hide Propagated;
    assert World(state, epoch).groups[ARM := Group(Armed, epoch + 1, true, {})] == World(Armed, epoch + 1).groups;
  }

  lemma RunningNext(epoch: nat, now: int)
    ensures Step(World(Armed, epoch), Run(ARM), now) == World(Running, epoch)
  {
    WorldStands(Armed, epoch, now);
    hide Propagated;
    assert World(Armed, epoch).groups[ARM := Group(Running, epoch, true, {})] == World(Running, epoch).groups;
  }

  lemma HaltedNext(epoch: nat, now: int)
    ensures Step(World(Running, epoch), Halt(ARM), now) == World(Stopped, epoch + 1)
  {
    assert World(Running, epoch).groups[ARM := Group(Stopped, epoch + 1, true, {})] == World(Stopped, epoch + 1).groups;
  }

  lemma ObservedNext(state: State, epoch: nat, now: int)
    ensures Step(World(state, epoch), Observe, now) == World(state, epoch)
  {
    WorldStands(state, epoch, now);
    hide Propagated;
  }

  /** Prepared, armed, checked, captured and run; another thread halts; the write asks for its permit, is
      refused, and looks at the group; another thread arms; only then the write withdraws. */
  const DEEDS: Log := [
    Prepared(0, Marks(0, 0, 0, 0), 0),
    Called(Arm(ARM), 1),
    Checked(0, 2),
    Captured(0, 2, 1),
    Called(Run(ARM), 2),
    Called(Halt(ARM), 3),
    Called(Observe, 4),
    Called(Observe, 4),
    Called(Arm(ARM), 5),
    Withdrawn(0, 8, 1),
    Unprepared(0)]

  function Expected(k: nat): Guard {
    if k <= 1 then World(Stopped, 0)
    else if k <= 4 then World(Armed, 1)
    else if k == 5 then World(Running, 1)
    else if k <= 8 then World(Stopped, 2)
    else World(Armed, 3)
  }

  lemma {:induction false} RunUnfolds(k: nat)
    requires k <= |DEEDS|
    ensures GuardAt(World(Stopped, 0), DEEDS, k) == Expected(k)
  {
    hide Step, World, Propagated;
    if k > 0 {
      RunUnfolds(k - 1);
      ArmedNext(Stopped, 0, 1);
      RunningNext(1, 2);
      HaltedNext(1, 3);
      ArmedNext(Stopped, 2, 5);
      ObservedNext(Stopped, 2, 4);
    }
  }

  lemma {:induction false} StaysPrepared(k: nat)
    requires 1 <= k <= 10
    ensures PreparedAt(DEEDS, 0, k)
  {
    if k > 1 { StaysPrepared(k - 1); }
  }

  lemma RunIsSound(k: nat)
    requires k < |DEEDS|
    ensures Sound(World(Stopped, 0), OWNER, DEEDS, k)
  {
    RunUnfolds(0);
    RunUnfolds(2);
    RunUnfolds(3);
    RunUnfolds(8);
    StaysPrepared(2);
    hide GuardAt, PreparedAt;
  }

  /** The record is one that the hardware may leave: the write was refused because the session had ended,
      and it withdraws the preparation of a group that is Armed by then, in a session of its own. */
  lemma NewSessionLosesPreparation()
    ensures Valid(World(Stopped, 0)) && AllSound(World(Stopped, 0), OWNER, DEEDS)
    ensures !Permits(GuardAt(World(Stopped, 0), DEEDS, 6), ARM, 1, 4)
    ensures DEEDS[9].Withdrawn? && GroupIs(GuardAt(World(Stopped, 0), DEEDS, 9), ARM, Armed)
    ensures PreparedAt(DEEDS, 0, 9) && !PreparedAt(DEEDS, 0, 11)
  {
    WorldIsValid(Stopped, 0);
    forall k | 0 <= k < |DEEDS| ensures Sound(World(Stopped, 0), OWNER, DEEDS, k) { RunIsSound(k); }
    RunUnfolds(6);
    RunUnfolds(9);
    StaysPrepared(9);
    WorldStands(Stopped, 2, 4);
    hide GuardAt, Propagated;
  }
}
