/** Session fencing over whole runs of the guard. */
module GuardSessions {
  import opened Closure
  import opened Guard
  import opened GuardInvariant

  // ---- What one call may do to one group ----

  /** Propagation and revocation either leave state and epoch alone or move the group to Fault under
      a new epoch. */
  ghost predicate Lowered(g: Group, g': Group) {
    || (g'.state == g.state && g'.epoch == g.epoch)
    || (g'.state == Fault && g'.epoch > g.epoch)
  }

  /** One call never reuses an epoch: within an epoch the only way on is Armed to Running. */
  ghost predicate Fenced(g: Group, g': Group) {
    && g'.epoch >= g.epoch
    && (g'.epoch == g.epoch ==>
          || g'.state == g.state
          || (g.state == Armed && g'.state == Running)
          || (!g.Live() && !g'.Live()))
    && (g'.epoch > g.epoch ==> g'.state != Running)
  }

  ghost predicate LowersTo(s: Guard, t: Guard, n: Name)
    requires n in s.groups
  {
    n in t.groups && Lowered(s.groups[n], t.groups[n])
  }

  lemma PropagateLowers(s: Guard, now: int, n: Name)
    requires n in s.groups
    ensures n in Propagated(s, now).groups
    ensures Lowered(s.groups[n], Propagated(s, now).groups[n])
  {
    PropagatedIs(s, now);
  }

  lemma RenewalLowers(s: Guard, name: Name, c: Condition, now: int, n: Name)
    requires n in s.groups
    ensures n in Renewed(s, name, c, now).groups && Lowered(s.groups[n], Renewed(s, name, c, now).groups[n])
    ensures Lowered(Propagated(s, now).groups[n], Renewed(s, name, c, now).groups[n])
  {
    PropagateLowers(s, now, n);
    var t := Propagated(s, now);
    PropagateLowers(t.(conditions := t.conditions[name := c]), now, n);
  }

  lemma AcknowledgementLowers(s: Guard, id: EventId, now: int, n: Name)
    requires n in s.groups
    ensures n in Acknowledged(s, id, now).groups && Lowered(s.groups[n], Acknowledged(s, id, now).groups[n])
    ensures Lowered(Propagated(s, now).groups[n], Acknowledged(s, id, now).groups[n])
  {
    PropagateLowers(s, now, n);
    var t := Propagated(s, now);
    PropagateLowers(t.(events := t.events - {id}), now, n);
  }

  ghost predicate LowersGroup(s: Guard, t: Guard, n: Name)
    requires n in s.groups
  {
    && n in t.groups && Lowered(s.groups[n], t.groups[n])
    && t.ownerRequired == s.ownerRequired && t.ownerDeadline == s.ownerDeadline && t.ownerExpired == s.ownerExpired
  }

  lemma UnprepareLowers(s: Guard, axis: Name, n: Name)
    requires axis in s.axes && n in s.groups
    ensures LowersGroup(s, AxisUnprepared(s, axis), n)
  {
    var t, m := AxisSet(s, axis, false), s.axes[axis].group;
    if m in s.groups && s.groups[m].Live() {
      RefreshLowers(SetGroup(t, m, Revoked(s.groups[m])), n);
    } else {
      RefreshLowers(t, n);
    }
  }

  lemma RefreshLowers(s: Guard, n: Name)
    requires n in s.groups
    ensures LowersGroup(s, Refreshed(s), n)
  {
  }

  lemma BackendLowers(s: Guard, backend: Name, ready: bool, reason: Name, now: int, n: Name)
    requires n in s.groups
    ensures LowersGroup(s, BackendRecorded(s, backend, ready, reason, now), n)
  {
    RefreshLowers(if ready then s else BackendLost(s, backend), n);
  }

  lemma PostLowers(s: Guard, id: EventId, e: Event, now: int, n: Name)
    requires n in s.groups
    ensures LowersGroup(s, Posted(s, id, e, now), n)
  {
    hide Attributed, Stamped, LegacyFaulted;
  }

  lemma ReadinessLowers(s: Guard, axis: Name, ready: bool, reason: Name, code: Name, category: Name, now: int, n: Name)
    requires axis in s.axes && n in s.groups
    ensures LowersGroup(s, AxisRecorded(s, axis, ready, reason, code, category, now), n)
  {
  }

  /** Recording a report ends sessions at most, and never touches the lease. */
  lemma RecordedLowers(s: Guard, c: Call, now: int, n: Name)
    requires c.Reports() && ReportAccepts(s, c, now) && n in s.groups
    ensures LowersGroup(s, Recorded(s, c, now), n)
  {
    match c
    case UnprepareAxis(axis) => UnprepareLowers(s, axis, n);
    case ReportAxis(axis, ready, reason, code, category) => ReadinessLowers(s, axis, ready, reason, code, category, now, n);
    case ReportBackend(backend, ready, reason) => BackendLowers(s, backend, ready, reason, now, n);
    case Post(id, e) => PostLowers(s, id, e, now, n);
  }

  lemma ReportsLower(s: Guard, c: Call, now: int, n: Name)
    requires c.Reports() && n in s.groups
    ensures LowersTo(s, Step(s, c, now), n)
  {
    assert Step(s, c, now) == Reported(s, c, now);
    hide Step;
    if ReportAccepts(s, c, now) {
      RecordedLowers(s, c, now, n);
      PropagateLowers(Recorded(s, c, now), now, n);
    }
  }

  lemma StopLowers(s: Guard, now: int, n: Name)
    requires n in s.groups
    ensures LowersTo(s, Step(s, StopAll, now), n)
  {
  }

  lemma LeaseLowers(s: Guard, lifetime: int, issued: int, now: int, n: Name)
    requires n in s.groups
    ensures LowersTo(s, Step(s, CheckInhibit, now), n)
    ensures LowersTo(s, Step(s, RenewOwner(lifetime, issued), now), n)
  {
    var t := OwnerChecked(s, now);
    assert LowersTo(s, t, n);
    hide OwnerChecked, Lowered;
    assert LeaseRenewed(t, lifetime, issued, now).groups == t.groups;
  }

  lemma LegacyLowers(s: Guard, n: Name, now: int)
    requires n in s.groups
    ensures LowersTo(s, Step(s, LegacyFault, now), n)
  {
  }

  lemma LegacyReportLowers(s: Guard, n: Name, component: Name, ready: bool, now: int)
    requires n in s.groups
    ensures LowersTo(s, Step(s, LegacyReport(component, ready), now), n)
  {
    var t := ComponentSet(s, component, ready);
    assert t.groups == s.groups;
    LiveStopLowers(t, n);
    assert LegacyDropped(LiveStopped(t)).groups == LiveStopped(t).groups;
  }

  lemma LiveStopLowers(s: Guard, n: Name)
    requires n in s.groups
    ensures n in LiveStopped(s).groups && Lowered(s.groups[n], LiveStopped(s).groups[n])
  {
  }

  /** The whole story of one call on one group: its epoch is fenced, Running is entered only by `Run`
      from Armed at the same epoch, Armed is entered only by `Arm` under a larger epoch, and Fault is left
      only by a successful `Arm` or reconfiguration, under a larger epoch. */
  ghost predicate Story(c: Call, n: Name, g: Group, g': Group) {
    && Fenced(g, g')
    && (g.state != Running && g'.state == Running ==> c == Run(n) && g.state == Armed)
    && (g.state != Armed && g'.state == Armed ==> c == Arm(n) && g'.epoch > g.epoch)
    && (g.state == Fault && g'.state != Fault ==>
          g'.epoch > g.epoch && ((c == Arm(n) && g'.state == Armed) || c.Configure?))
  }

  lemma ArmStory(t: Guard, m: Name, now: int, g: Group, n: Name)
    requires n in t.groups && Lowered(g, t.groups[n])
    ensures n in ArmTried(t, m, now).groups && Story(Arm(m), n, g, ArmTried(t, m, now).groups[n])
  {
    if ArmAccepts(t, m, now) { assert ArmTried(t, m, now).groups == t.groups[m := ArmedGroup(t.groups[m])]; }
  }

  lemma RunStory(t: Guard, m: Name, now: int, g: Group, n: Name)
    requires n in t.groups && Lowered(g, t.groups[n])
    ensures n in RunTried(t, m, now).groups && Story(Run(m), n, g, RunTried(t, m, now).groups[n])
  {
    if RunAccepts(t, m, now) { assert RunTried(t, m, now).groups == t.groups[m := t.groups[m].(state := Running)]; }
  }

  lemma ArmRunStory(s: Guard, m: Name, now: int, n: Name)
    requires n in s.groups
    ensures var t := Step(s, Arm(m), now); n in t.groups && Story(Arm(m), n, s.groups[n], t.groups[n])
    ensures var t := Step(s, Run(m), now); n in t.groups && Story(Run(m), n, s.groups[n], t.groups[n])
  {
    hide Propagated, Lowered, ArmTried, RunTried, Story;
    PropagateLowers(s, now, n);
    ArmStory(Propagated(s, now), m, now, s.groups[n], n);
    RunStory(Propagated(s, now), m, now, s.groups[n], n);
  }

  lemma HaltStory(s: Guard, m: Name, now: int, n: Name)
    requires n in s.groups
    ensures var t := Step(s, Halt(m), now); n in t.groups && Story(Halt(m), n, s.groups[n], t.groups[n])
  {
    if m in s.groups { assert HaltTried(s, m).groups == s.groups[m := HaltedGroup(s.groups[m])]; }
  }

  lemma InvalidateStory(s: Guard, m: Name, now: int, n: Name)
    requires n in s.groups
    ensures var t := Step(s, Invalidate(m), now); n in t.groups && Story(Invalidate(m), n, s.groups[n], t.groups[n])
  {
    if m in s.groups { assert InvalidateTried(s, m).groups == s.groups[m := InvalidatedGroup(s.groups[m])]; }
  }

  lemma LegacyHaltStory(s: Guard, now: int, n: Name)
    requires n in s.groups
    ensures var t := Step(s, LegacyHalt, now); n in t.groups && Story(LegacyHalt, n, s.groups[n], t.groups[n])
  {
  }

  lemma ConfigureStory(s: Guard, axes: map<Name, Axis>, rules: seq<Association>, version: Name, now: int, n: Name)
    requires n in s.groups
    ensures var c := Configure(axes, rules, version);
      n in Step(s, c, now).groups && Story(c, n, s.groups[n], Step(s, c, now).groups[n])
  {
    if ConfigureAccepts(s, axes, rules, version) {
      assert !s.groups[n].Live();
      RefreshLowers(s, n);
    }
  }

  lemma DirectingStory(s: Guard, c: Call, now: int, n: Name)
    requires n in s.groups && Directs(c)
    ensures n in Step(s, c, now).groups && Story(c, n, s.groups[n], Step(s, c, now).groups[n])
  {
    hide Step, Story;
    match c
    case Arm(m) => ArmRunStory(s, m, now, n);
    case Run(m) => ArmRunStory(s, m, now, n);
    case Halt(m) => HaltStory(s, m, now, n);
    case Invalidate(m) => InvalidateStory(s, m, now, n);
    case LegacyHalt => LegacyHaltStory(s, now, n);
    case Configure(axes, rules, version) => ConfigureStory(s, axes, rules, version, now, n);
  }

  /** Only these calls ever raise a group or stop it in an orderly way. */
  predicate Directs(c: Call) {
    c.Arm? || c.Run? || c.Halt? || c.Invalidate? || c.LegacyHalt? || c.Configure?
  }

  lemma OthersLower(s: Guard, c: Call, now: int, n: Name)
    requires n in s.groups && !Directs(c)
    ensures LowersTo(s, Step(s, c, now), n)
  {
    hide Step, Lowered;
    match c
    case LegacyReport(component, ready) => LegacyReportLowers(s, n, component, ready, now);
    case LegacyFault => LegacyLowers(s, n, now);
    case StopAll => StopLowers(s, now, n);
    case CheckInhibit => LeaseLowers(s, 0, 0, now, n);
    case RenewOwner(lifetime, issued) => LeaseLowers(s, lifetime, issued, now, n);
    case Observe => ObservationLowers(s, now, n);
    case Renew(name, value, source, until) => RenewLowers(s, name, value, source, until, now, n);
    case Acknowledge(id) => AcknowledgeLowers(s, id, now, n);
    case UnprepareAxis(_) => ReportsLower(s, c, now, n);
    case ReportAxis(_, _, _, _, _) => ReportsLower(s, c, now, n);
    case ReportBackend(_, _, _) => ReportsLower(s, c, now, n);
    case Post(_, _) => ReportsLower(s, c, now, n);
    case _ => FlagsLower(s, c, now, n);
  }

  lemma FlagsLower(s: Guard, c: Call, now: int, n: Name)
    requires n in s.groups
    requires c.ResetStop? || c.RequireOwner? || c.RegisterWriter? || c.LegacyArm? || c.LegacyRun? || c.SetWarning?
    ensures LowersTo(s, Step(s, c, now), n)
  {
    FlagsKeepGroups(s, c, now);
    hide Step;
  }

  lemma ObservationLowers(s: Guard, now: int, n: Name)
    requires n in s.groups
    ensures LowersTo(s, Step(s, Observe, now), n)
  {
    hide Propagated, Lowered;
    PropagateLowers(s, now, n);
  }

  lemma RenewLowers(s: Guard, name: Name, value: Evidence, source: Name, until: int, now: int, n: Name)
    requires n in s.groups
    ensures LowersTo(s, Step(s, Renew(name, value, source, until), now), n)
  {
    var c := Condition(value, source, until);
    var t := Step(s, Renew(name, value, source, until), now);
    assert t == if RenewAccepts(s, name, value, source, until, now) then Renewed(s, name, c, now) else s;
    hide Step, Renewed, Propagated, RenewAccepts;
    if t != s { RenewalLowers(s, name, c, now, n); }
  }

  lemma AcknowledgeLowers(s: Guard, id: EventId, now: int, n: Name)
    requires n in s.groups
    ensures LowersTo(s, Step(s, Acknowledge(id), now), n)
  {
    hide Acknowledged, Propagated, Lowered;
    AcknowledgementLowers(s, id, now, n);
  }

  lemma FlagsKeepGroups(s: Guard, c: Call, now: int)
    requires c.ResetStop? || c.RequireOwner? || c.RegisterWriter? || c.LegacyArm? || c.LegacyRun? || c.SetWarning?
    ensures Step(s, c, now).groups == s.groups
  {
    hide *;
    match c
    case SetWarning(axis, active, reason) => WarningKeepsGroups(s, axis, active, reason, now);
    case RegisterWriter(backend, grouped) => WriterKeepsGroups(s, backend, grouped, now);
    case ResetStop => ResetKeepsGroups(s, now);
    case RequireOwner => ResetKeepsGroups(s, now);
    case LegacyArm => LegacyArmKeepsGroups(s, now);
    case LegacyRun => LegacyArmKeepsGroups(s, now);
  }

  lemma WarningKeepsGroups(s: Guard, axis: Name, active: bool, reason: Name, now: int)
    ensures Step(s, SetWarning(axis, active, reason), now).groups == s.groups
  {
  }

  lemma WriterKeepsGroups(s: Guard, backend: Name, grouped: bool, now: int)
    ensures Step(s, RegisterWriter(backend, grouped), now).groups == s.groups
  {
  }

  lemma ResetKeepsGroups(s: Guard, now: int)
    ensures Step(s, ResetStop, now).groups == s.groups && Step(s, RequireOwner, now).groups == s.groups
  {
  }

  lemma LegacyArmKeepsGroups(s: Guard, now: int)
    ensures Step(s, LegacyArm, now).groups == s.groups && Step(s, LegacyRun, now).groups == s.groups
  {
  }

  lemma StepOnGroup(s: Guard, c: Call, now: int, n: Name)
    requires n in s.groups
    ensures n in Step(s, c, now).groups && Story(c, n, s.groups[n], Step(s, c, now).groups[n])
  {
    if Directs(c) { DirectingStory(s, c, now, n); } else { OthersLower(s, c, now, n); }
  }

  // ---- Runs ----

  datatype Timed = Timed(call: Call, now: int)

  ghost function After(s: Guard, run: seq<Timed>): Guard
    decreases run
  {
    if run == [] then s else After(Step(s, run[0].call, run[0].now), run[1..])
  }

  lemma {:induction false} AfterIsValid(s: Guard, run: seq<Timed>)
    requires Valid(s)
    ensures Valid(After(s, run))
    decreases run
  {
    if run != [] {
      StepKeepsValid(s, run[0].call, run[0].now);
      AfterIsValid(Step(s, run[0].call, run[0].now), run[1..]);
    }
  }

  lemma {:induction false} AfterSplits(s: Guard, run: seq<Timed>, i: nat)
    requires i <= |run|
    ensures After(s, run) == After(After(s, run[..i]), run[i..])
    decreases run
  {
    if i > 0 {
      AfterSplits(Step(s, run[0].call, run[0].now), run[1..], i - 1);
      assert run[1..][..i - 1] == run[..i][1..];
      assert run[1..][i - 1..] == run[i..];
    } else {
      assert run[..0] == [] && run[0..] == run;
    }
  }

  lemma AfterOneMore(s: Guard, run: seq<Timed>, i: nat)
    requires i < |run|
    ensures After(s, run[..i + 1]) == Step(After(s, run[..i]), run[i].call, run[i].now)
  {
    AfterSplits(s, run[..i + 1], i);
    assert run[..i + 1][..i] == run[..i];
    var last := run[..i + 1][i..];
    assert last == [run[i]];
    assert last[1..] == [];
  }

  /** Epoch `e` of a group has been used up: it has been passed, or was never a live session. */
  predicate Spent(g: Group, e: nat) {
    e < g.epoch || (e == g.epoch && !g.Live())
  }

  predicate RunningAt(s: Guard, n: Name, e: nat) {
    n in s.groups && s.groups[n].state == Running && s.groups[n].epoch == e
  }

  lemma SpentIsNotPermitted(s: Guard, n: Name, e: nat, now: int)
    requires n in s.groups && Spent(s.groups[n], e)
    ensures !Permits(s, n, e, now)
  {
    PropagateLowers(s, now, n);
  }

  /** Once an epoch is spent (in particular if it was read while the group was neither Armed nor
      Running), no run of calls whatsoever gets it permitted again. */
  lemma {:induction false} SpentForever(s: Guard, run: seq<Timed>, n: Name, e: nat)
    requires Valid(s) && n in s.groups && Spent(s.groups[n], e)
    ensures n in After(s, run).groups && Spent(After(s, run).groups[n], e)
    ensures forall now :: !Permits(After(s, run), n, e, now)
    decreases run
  {
    if run == [] {
      forall now ensures !Permits(s, n, e, now) { SpentIsNotPermitted(s, n, e, now); }
    } else {
      StepKeepsValid(s, run[0].call, run[0].now);
      StepOnGroup(s, run[0].call, run[0].now, n);
      SpentForever(Step(s, run[0].call, run[0].now), run[1..], n, e);
    }
  }

  /** A running session either still runs at its epoch, or its epoch is spent. */
  lemma {:induction false} RunningThenSpent(s: Guard, run: seq<Timed>, n: Name, e: nat)
    requires Valid(s) && RunningAt(s, n, e)
    ensures n in After(s, run).groups
    ensures RunningAt(After(s, run), n, e) || Spent(After(s, run).groups[n], e)
    decreases run
  {
    if run != [] {
      var t := Step(s, run[0].call, run[0].now);
      StepKeepsValid(s, run[0].call, run[0].now);
      StepOnGroup(s, run[0].call, run[0].now, n);
      if RunningAt(t, n, e) {
        RunningThenSpent(t, run[1..], n, e);
      } else {
        SpentForever(t, run[1..], n, e);
      }
    }
  }

  /** The moments at which a group runs at one epoch form a single stretch of the run. */
  lemma SessionIsOneStretch(s: Guard, run: seq<Timed>, n: Name, e: nat, i: nat, j: nat, k: nat)
    requires Valid(s) && i <= j <= k <= |run|
    requires RunningAt(After(s, run[..i]), n, e) && RunningAt(After(s, run[..k]), n, e)
    ensures RunningAt(After(s, run[..j]), n, e)
  {
    AfterIsValid(s, run[..i]);
    AfterIsValid(s, run[..j]);
    AfterSplits(s, run[..j], i);
    AfterSplits(s, run[..k], j);
    assert run[..j][..i] == run[..i] && run[..k][..j] == run[..j];
    RunningThenSpent(After(s, run[..i]), run[..j][i..], n, e);
    if !RunningAt(After(s, run[..j]), n, e) {
      SpentForever(After(s, run[..j]), run[..k][j..], n, e);
    }
  }

  /** A session starts only with the call `Run`, on a group Armed at that very epoch. */
  lemma SessionStartsFromArmed(s: Guard, run: seq<Timed>, n: Name, e: nat, i: nat)
    requires Valid(s) && i < |run| && n in After(s, run[..i]).groups
    requires !RunningAt(After(s, run[..i]), n, e) && RunningAt(After(s, run[..i + 1]), n, e)
    ensures run[i].call == Run(n)
    ensures After(s, run[..i]).groups[n].state == Armed && After(s, run[..i]).groups[n].epoch == e
  {
    AfterIsValid(s, run[..i]);
    AfterOneMore(s, run, i);
    StepOnGroup(After(s, run[..i]), run[i].call, run[i].now, n);
  }

  /** A permission granted at some moment shows that the group had been running at that epoch ever
      since the session started: a permit before and a permit after leave no gap in between. */
  lemma PermitMeansRunning(s: Guard, n: Name, e: nat, now: int)
    requires Permits(s, n, e, now)
    ensures RunningAt(s, n, e)
  {
    PropagateLowers(s, now, n) by { PropagatedIs(s, now); }
  }

  lemma NoGapBetweenPermits(s: Guard, run: seq<Timed>, n: Name, e: nat, i: nat, j: nat, k: nat, nowI: int, nowK: int)
    requires Valid(s) && i <= j <= k <= |run|
    requires Permits(After(s, run[..i]), n, e, nowI) && Permits(After(s, run[..k]), n, e, nowK)
    ensures RunningAt(After(s, run[..j]), n, e)
  {
    PermitMeansRunning(After(s, run[..i]), n, e, nowI);
    PermitMeansRunning(After(s, run[..k]), n, e, nowK);
    SessionIsOneStretch(s, run, n, e, i, j, k);
  }

  ghost predicate InFault(s: Guard, n: Name) {
    n in s.groups && s.groups[n].state == Fault
  }

  /** The call `c` takes group `n` out of Fault: an accepted arm of the group, or a reconfiguration. */
  ghost predicate LeavesFault(s: Guard, c: Call, t: Guard, n: Name) {
    && InFault(s, n) && n in t.groups && t.groups[n].state != Fault
    && t.groups[n].epoch > s.groups[n].epoch
    && (c.Configure? || (c == Arm(n) && t.groups[n].state == Armed))
  }

  lemma FaultStep(s: Guard, c: Call, now: int, n: Name)
    requires InFault(s, n)
    ensures InFault(Step(s, c, now), n) || LeavesFault(s, c, Step(s, c, now), n)
  {
    hide Step;
    StepOnGroup(s, c, now, n);
  }

  ghost predicate FaultAt(s: Guard, run: seq<Timed>, n: Name, i: nat)
    requires i <= |run|
  {
    InFault(After(s, run[..i]), n)
  }

  /** Fault is latched over runs.  If a group starts in Fault and does not end in it, then it stayed in
      Fault up to some call `k`, and that call took it out under a larger epoch: a successful arm of this
      group, or a reconfiguration.  No report, renewal, acknowledgement, halt or reset ever does. */
  lemma FaultStaysLatched(s: Guard, run: seq<Timed>, n: Name) returns (k: nat)
    requires Valid(s) && InFault(s, n) && !InFault(After(s, run), n)
    ensures k < |run| && forall j: nat | j <= k :: FaultAt(s, run, n, j)
    ensures LeavesFault(After(s, run[..k]), run[k].call, After(s, run[..k + 1]), n)
  {
    assert run[..0] == [] && run[..|run|] == run;
    k := FaultIsLeft(s, run, n, 0);
  }

  lemma {:induction false} FaultIsLeft(s: Guard, run: seq<Timed>, n: Name, i: nat) returns (k: nat)
    requires Valid(s) && i <= |run| && !FaultAt(s, run, n, |run|) && forall j: nat | j <= i :: FaultAt(s, run, n, j)
    ensures k < |run| && forall j: nat | j <= k :: FaultAt(s, run, n, j)
    ensures LeavesFault(After(s, run[..k]), run[k].call, After(s, run[..k + 1]), n)
    decreases |run| - i
  {
    hide *;
    FaultGoesOn(s, run, n, i);
    if FaultAt(s, run, n, i + 1) { k := FaultIsLeft(s, run, n, i + 1); } else { k := i; }
  }

  lemma FaultGoesOn(s: Guard, run: seq<Timed>, n: Name, i: nat)
    requires i < |run| && FaultAt(s, run, n, i)
    ensures FaultAt(s, run, n, i + 1) || LeavesFault(After(s, run[..i]), run[i].call, After(s, run[..i + 1]), n)
  {
    AfterOneMore(s, run, i);
    FaultStep(After(s, run[..i]), run[i].call, run[i].now, n);
    hide Step, After, LeavesFault;
  }
}
