/** A run from power-up in which an evidence gap closes unnoticed. */
module GuardGapExample {
  import opened Closure
  import opened Guard
  import opened GuardInvariant
  import opened GuardSessions
  import opened GuardEnable

  const SHOULDER: Name := 11
  const FLIPPER: Name := 12
  const TRACK: Name := 13
  const FINGER: Name := 14
  const BUS: Name := 21
  const SECURED: Name := 30
  const BRAKE: Name := 40
  const VERSION: Name := 50

  const AXES: map<Name, Axis> := map[SHOULDER := Axis(ARM, BUS, false), FLIPPER := Axis(FLIPPERS, BUS, false),
                                     TRACK := Axis(BASE, BUS, false), FINGER := Axis(GRIPPER, BUS, false)]
  const RULE: Association := Association(ARM, ANY_CATEGORY, BASE, SECURED, BRAKE)

  ghost predicate World(s: Guard, shoulder: bool, track: bool, state: State, epoch: nat, until: int) {
    && s.axes == AXES[SHOULDER := Axis(ARM, BUS, shoulder)][TRACK := Axis(BASE, BUS, track)]
    && s.rules == [RULE] && s.events == map[] && s.groups.Keys == GROUP_NAMES
    && s.conditions == (if until == 0 then map[] else map[SECURED := Condition(Satisfied, BRAKE, until)])
    && s.groups[ARM].ready == shoulder && s.groups[BASE].ready == track
    && s.groups[BASE].state == state && s.groups[BASE].epoch == epoch
    && !s.inhibit && !s.ownerRequired
  }

  lemma WorldBlockers(s: Guard, shoulder: bool, track: bool, state: State, epoch: nat, until: int, now: int)
    requires World(s, shoulder, track, state, epoch, until) && now > 0
    ensures Blockers(s, BASE, now) == if shoulder || until > now then {} else {ByUnready(ARM)}
  {
    if !shoulder && until <= now {
      UnreadyRestricts(s, BASE, ARM, RULE, now);
    }
    forall r | r in Blockers(s, BASE, now) ensures r == ByUnready(ARM) && !shoulder && until <= now {
      assert r.ByUnready?;
      var e := Unavailable(r.group);
      assert RULE in s.rules && (forall rule | rule in s.rules :: rule == RULE);
      assert Spreads(s, RULE, e, now) == (until <= now);
      if until > now || r.group != ARM {
        LeastIsLeast({r.group}, Sources(s, e), Edges(s, e, now));
      }
    }
  }

  lemma WorldPropagated(s: Guard, shoulder: bool, track: bool, state: State, epoch: nat, until: int, now: int)
    requires World(s, shoulder, track, state, epoch, until) && now > 0
    ensures shoulder || until > now ==>
              World(Propagated(s, now), shoulder, track, state, epoch, until) && Propagated(s, now).groups[BASE].blockers == {}
    ensures !shoulder && until <= now ==>
              World(Propagated(s, now), shoulder, track, Fault, if state == Fault then epoch else epoch + 1, until)
  {
    PropagatedIs(s, now);
    WorldBlockers(s, shoulder, track, state, epoch, until, now);
  }

  const RUN: seq<Timed> := [
    Timed(Configure(AXES, [RULE], VERSION), 10),
    Timed(Renew(SECURED, Satisfied, BRAKE, 100), 10),
    Timed(ReportAxis(TRACK, true, NONE, NONE, NONE), 10),
    Timed(Arm(BASE), 10),
    Timed(Run(BASE), 10)]

  lemma ConfigureIsAccepted()
    ensures Step(INITIAL, RUN[0].call, 10) == Configured(INITIAL, AXES, [RULE])
  {
    assert WellOwned(AXES) by {
      assert AXES[SHOULDER].group == ARM && AXES[FLIPPER].group == FLIPPERS && AXES[TRACK].group == BASE && AXES[FINGER].group == GRIPPER;
    }
    assert ConfigureAccepts(INITIAL, AXES, [RULE], VERSION);
  }

  lemma ConfiguredWorld()
    ensures World(Configured(INITIAL, AXES, [RULE]), false, false, Stopped, 1, 0)
  {
    var t := Configured(INITIAL, AXES, [RULE]);
    assert SHOULDER in t.axes && TRACK in t.axes;
    assert t.groups.Keys == GROUP_NAMES;
    assert !AllReady(t.axes, ARM) && !AllReady(t.axes, BASE);
    assert t.axes == AXES;
  }

  lemma RenewedWorld(s: Guard)
    requires World(s, false, false, Stopped, 1, 0)
    ensures World(Renewed(s, SECURED, Condition(Satisfied, BRAKE, 100), 10), false, false, Fault, 2, 100)
  {
    WorldPropagated(s, false, false, Stopped, 1, 0, 10);
    var t := Propagated(s, 10);
    WorldPropagated(t.(conditions := t.conditions[SECURED := Condition(Satisfied, BRAKE, 100)]), false, false, Fault, 2, 100, 10);
  }

  lemma RenewalIsAccepted(s: Guard)
    requires s.rules == [RULE]
    ensures Step(s, RUN[1].call, 10) == Renewed(s, SECURED, Condition(Satisfied, BRAKE, 100), 10)
  {
    assert RULE in s.rules;
  }

  lemma RecordedWorld(s: Guard, track: bool, state: State, epoch: nat, until: int, axis: Name, now: int)
    requires World(s, false, track, state, epoch, until) && axis in {SHOULDER, TRACK}
    ensures World(AxisRecorded(s, axis, true, NONE, NONE, NONE, now), axis == SHOULDER, track || axis == TRACK, state, epoch, until)
  {
    var t := AxisRecorded(s, axis, true, NONE, NONE, NONE, now);
    assert AllReady(t.axes, ARM) == t.axes[SHOULDER].ready;
    assert AllReady(t.axes, BASE) == t.axes[TRACK].ready;
  }

  lemma ReportedWorld(s: Guard, track: bool, state: State, epoch: nat, until: int, axis: Name, now: int)
    requires World(s, false, track, state, epoch, until) && axis in {SHOULDER, TRACK}
    requires now > 0 && (axis == SHOULDER || until > now)
    ensures World(Step(s, ReportAxis(axis, true, NONE, NONE, NONE), now), axis == SHOULDER, track || axis == TRACK, state, epoch, until)
  {
    var c := ReportAxis(axis, true, NONE, NONE, NONE);
    assert axis in s.axes && Step(s, c, now) == Propagated(AxisRecorded(s, axis, true, NONE, NONE, NONE, now), now);
    hide Step, Propagated, AxisRecorded, World;
    RecordedWorld(s, track, state, epoch, until, axis, now);
    WorldPropagated(AxisRecorded(s, axis, true, NONE, NONE, NONE, now), axis == SHOULDER, track || axis == TRACK, state, epoch, until, now);
  }

  lemma ArmedWorld(s: Guard)
    requires World(s, false, true, Fault, 2, 100)
    ensures World(Step(s, Arm(BASE), 10), false, true, Armed, 3, 100)
  {
    WorldPropagated(s, false, true, Fault, 2, 100, 10);
    var t := Propagated(s, 10);
    assert ArmTried(t, BASE, 10).groups == t.groups[BASE := ArmedGroup(t.groups[BASE])];
  }

  lemma StartedWorld(s: Guard)
    requires World(s, false, true, Armed, 3, 100)
    ensures World(Step(s, Run(BASE), 10), false, true, Running, 3, 100)
  {
    WorldPropagated(s, false, true, Armed, 3, 100, 10);
    var t := Propagated(s, 10);
    assert RunTried(t, BASE, 10).groups == t.groups[BASE := t.groups[BASE].(state := Running)];
  }

  lemma RunUnfolds()
    ensures After(INITIAL, RUN) ==
      Step(Step(Step(Step(Step(INITIAL, RUN[0].call, 10), RUN[1].call, 10), RUN[2].call, 10), RUN[3].call, 10), RUN[4].call, 10)
  {
    AfterOneMore(INITIAL, RUN, 0);
    AfterOneMore(INITIAL, RUN, 1);
    AfterOneMore(INITIAL, RUN, 2);
    AfterOneMore(INITIAL, RUN, 3);
    AfterOneMore(INITIAL, RUN, 4);
    assert RUN[..0] == [] && RUN[..5] == RUN;
  }

  lemma RunIsWorld()
    ensures World(After(INITIAL, RUN), false, true, Running, 3, 100)
  {
    RunUnfolds();
    ConfigureIsAccepted();
    ConfiguredWorld();
    var s1 := Step(INITIAL, RUN[0].call, 10);
    RenewedWorld(s1);
    RenewalIsAccepted(s1);
    ReportedWorld(Step(s1, RUN[1].call, 10), false, Fault, 2, 100, TRACK, 10);
    var s3 := Step(Step(s1, RUN[1].call, 10), RUN[2].call, 10);
    ArmedWorld(s3);
    StartedWorld(Step(s3, RUN[3].call, 10));
  }

  /** The evidence that the arm is secured ran out at 100.  Asked at 150, the guard would end the base
      session; but if the first call after the gap reports the shoulder ready, the same session goes on
      and is permitted at its old epoch. */
  lemma GapCanCloseUnnoticed()
    ensures var s := After(INITIAL, RUN);
      && !Permits(s, BASE, 3, 150)
      && Permits(Step(s, ReportAxis(SHOULDER, true, NONE, NONE, NONE), 150), BASE, 3, 150)
  {
    RunIsWorld();
    var s := After(INITIAL, RUN);
    WorldPropagated(s, false, true, Running, 3, 100, 150);
    ReportedWorld(s, true, Running, 3, 100, SHOULDER, 150);
    WorldPropagated(Step(s, ReportAxis(SHOULDER, true, NONE, NONE, NONE), 150), true, true, Running, 3, 100, 150);
  }
}
