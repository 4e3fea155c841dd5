/** What every call does to a live session in an evidence gap, and what that means over whole runs. */
module GuardGapRuns {
  import opened Closure
  import opened Guard
  import opened GuardInvariant
  import opened GuardSessions
  import opened GuardSafety
  import opened GuardGaps

  /** The session of group `n` either ends, or goes on in the gap. */
  ghost predicate StaysInGap(s: Guard, t: Guard, n: Name, now: int)
    requires n in s.groups
  {
    EndsSession(s, t, n) || (InGap(t, n, now) && t.groups[n].epoch == s.groups[n].epoch)
  }

  /** A call that changes nothing restrictions are made of leaves the gap open. */
  lemma CausesKeepGap(s: Guard, t: Guard, n: Name, now: int)
    requires InGap(s, n, now) && SameCauses(s, t)
    requires Lowered(s.groups[n], t.groups[n]) || Spent(t.groups[n], s.groups[n].epoch)
    ensures StaysInGap(s, t, n, now)
  {
    SameBlockers(s, t, n, now);
    hide Blockers, SameCauses;
  }

  lemma SetGroupInGap(s: Guard, m: Name, g: Group, n: Name, now: int)
    requires InGap(s, n, now) && m in s.groups && g.ready == s.groups[m].ready
    requires m == n ==> Spent(g, s.groups[n].epoch)
    ensures StaysInGap(s, SetGroup(s, m, g), n, now)
  {
    CausesKeepGap(s, SetGroup(s, m, g), n, now);
  }

  lemma HaltInGap(s: Guard, m: Name, now: int, n: Name)
    requires InGap(s, n, now)
    ensures StaysInGap(s, Step(s, Halt(m), now), n, now)
  {
    if m in s.groups {
      var g := HaltedGroup(s.groups[m]);
      assert Step(s, Halt(m), now) == SetGroup(s, m, g);
      hide Step, SetGroup, Blockers;
      SetGroupInGap(s, m, g, n, now);
    } else {
      assert Step(s, Halt(m), now) == s;
    }
  }

  lemma InvalidateInGap(s: Guard, m: Name, now: int, n: Name)
    requires InGap(s, n, now)
    ensures StaysInGap(s, Step(s, Invalidate(m), now), n, now)
  {
    if m in s.groups {
      var g := InvalidatedGroup(s.groups[m]);
      assert Step(s, Invalidate(m), now) == SetGroup(s, m, g);
      hide Step, SetGroup, Blockers;
      SetGroupInGap(s, m, g, n, now);
    } else {
      assert Step(s, Invalidate(m), now) == s;
    }
  }

  lemma StopInGap(s: Guard, now: int, n: Name)
    requires InGap(s, n, now)
    ensures StaysInGap(s, Step(s, StopAll, now), n, now)
  {
    assert SameCauses(s, StoppedAll(s));
    StopLowers(s, now, n);
    CausesKeepGap(s, Step(s, StopAll, now), n, now);
  }

  lemma LeaseInGap(s: Guard, lifetime: int, issued: int, now: int, n: Name)
    requires InGap(s, n, now)
    ensures StaysInGap(s, Step(s, CheckInhibit, now), n, now)
    ensures StaysInGap(s, Step(s, RenewOwner(lifetime, issued), now), n, now)
  {
    LeaseKeepsCauses(s, lifetime, issued, now);
    LeaseLowers(s, lifetime, issued, now, n);
    hide Step, SameCauses, Blockers;
    CausesKeepGap(s, Step(s, CheckInhibit, now), n, now);
    CausesKeepGap(s, Step(s, RenewOwner(lifetime, issued), now), n, now);
  }

  lemma LeaseKeepsCauses(s: Guard, lifetime: int, issued: int, now: int)
    ensures SameCauses(s, Step(s, CheckInhibit, now)) && SameCauses(s, Step(s, RenewOwner(lifetime, issued), now))
  {
    assert SameCauses(s, OwnerChecked(s, now));
    hide OwnerChecked, LeaseAccepts;
  }

  lemma LegacySteps(s: Guard, component: Name, ready: bool, now: int)
    ensures Step(s, LegacyFault, now) == LegacyFaultedAll(s)
    ensures Step(s, LegacyReport(component, ready), now) == LegacyReported(s, component, ready)
  {
    hide LegacyFaultedAll, LegacyReported;
  }

  lemma LegacyFaultInGap(s: Guard, now: int, n: Name)
    requires InGap(s, n, now)
    ensures StaysInGap(s, Step(s, LegacyFault, now), n, now)
  {
    assert SameCauses(s, LegacyFaultedAll(s));
    hide Step, SameCauses, Blockers, LegacyFaultedAll;
    LegacySteps(s, NONE, false, now);
    LegacyLowers(s, n, now);
    CausesKeepGap(s, Step(s, LegacyFault, now), n, now);
  }

  lemma LegacyReportInGap(s: Guard, component: Name, ready: bool, now: int, n: Name)
    requires InGap(s, n, now)
    ensures StaysInGap(s, Step(s, LegacyReport(component, ready), now), n, now)
  {
    hide Step, SameCauses, Blockers, LegacyReported;
    LegacySteps(s, component, ready, now);
    LegacyReportKeepsCauses(s, component, ready);
    LegacyReportLowers(s, n, component, ready, now);
    CausesKeepGap(s, Step(s, LegacyReport(component, ready), now), n, now);
  }

  lemma LegacyReportKeepsCauses(s: Guard, component: Name, ready: bool)
    ensures SameCauses(s, LegacyReported(s, component, ready))
  {
    var t := ComponentSet(s, component, ready);
    var u := LiveStopped(t);
    assert FlagsOnly(s, t) && FlagsOnly(u, LegacyDropped(u));
    FlagsKeepCauses(s, t);
    FlagsKeepCauses(u, LegacyDropped(u));
    LiveStopKeepsCauses(t);
    hide LiveStopped, LegacyDropped, ComponentSet, FlagsOnly;
  }

  lemma LiveStopKeepsCauses(s: Guard)
    ensures SameCauses(s, LiveStopped(s))
  {
    RevocationKeepsCauses(s);
    var t := RevokeAll(s);
    if AnyLive(s) {
      assert LiveStopped(s) == t.(inhibit := true);
      hide LiveStopped, RevokeAll;
      FlagsKeepCauses(t, t.(inhibit := true));
    } else {
      assert LiveStopped(s) == s;
    }
  }

  lemma RevocationKeepsCauses(s: Guard)
    ensures SameCauses(s, RevokeAll(s))
  {
  }

  lemma LegacyHaltInGap(s: Guard, now: int, n: Name)
    requires InGap(s, n, now)
    ensures EndsSession(s, Step(s, LegacyHalt, now), n)
  {
  }

  /** Nothing but flags, lease, writers and the older gate has changed. */
  predicate FlagsOnly(s: Guard, t: Guard) {
    t == s.(writers := t.writers, inhibit := t.inhibit, ownerRequired := t.ownerRequired,
            ownerDeadline := t.ownerDeadline, ownerExpired := t.ownerExpired, legacy := t.legacy)
  }

  lemma FlagsKeepCauses(s: Guard, t: Guard)
    requires FlagsOnly(s, t)
    ensures SameCauses(s, t) && t.groups == s.groups
  {
  }

  /** These calls do not touch the groups, their axes, the rules, the evidence or the events. */
  lemma FlagsInGap(s: Guard, c: Call, now: int, n: Name)
    requires InGap(s, n, now)
    requires c.ResetStop? || c.RequireOwner? || c.RegisterWriter? || c.LegacyArm? || c.LegacyRun?
    ensures StaysInGap(s, Step(s, c, now), n, now)
  {
    var t := Step(s, c, now);
    OnlyFlags(s, c, now);
    hide Step, SameCauses;
    FlagsKeepCauses(s, t);
    hide FlagsOnly;
    CausesKeepGap(s, t, n, now);
  }

  lemma OnlyFlags(s: Guard, c: Call, now: int)
    requires c.ResetStop? || c.RequireOwner? || c.RegisterWriter? || c.LegacyArm? || c.LegacyRun?
    ensures FlagsOnly(s, Step(s, c, now))
  {
    hide Step, FlagsOnly;
    match c
    case ResetStop => ResetIsFlag(s, now);
    case RequireOwner => OwnerIsFlag(s, now);
    case RegisterWriter(backend, grouped) => WriterIsFlag(s, backend, grouped, now);
    case LegacyArm => LegacyArmIsFlag(s, now);
    case LegacyRun => LegacyRunIsFlag(s, now);
  }

  lemma ResetIsFlag(s: Guard, now: int)
    ensures FlagsOnly(s, Step(s, ResetStop, now))
  {
    hide ResetAccepts;
  }

  lemma OwnerIsFlag(s: Guard, now: int)
    ensures FlagsOnly(s, Step(s, RequireOwner, now))
  {
  }

  lemma WriterIsFlag(s: Guard, backend: Name, grouped: bool, now: int)
    ensures FlagsOnly(s, Step(s, RegisterWriter(backend, grouped), now))
  {
    hide WriterAccepts;
  }

  lemma LegacyArmIsFlag(s: Guard, now: int)
    ensures FlagsOnly(s, Step(s, LegacyArm, now))
  {
    hide LegacyArmAccepts;
  }

  lemma LegacyRunIsFlag(s: Guard, now: int)
    ensures FlagsOnly(s, Step(s, LegacyRun, now))
  {
  }

  /** A warning never restricts, so neither its coming nor its going matters. */
  lemma WarningInGap(s: Guard, axis: Name, active: bool, reason: Name, now: int, n: Name)
    requires Valid(s) && InGap(s, n, now)
    ensures StaysInGap(s, Step(s, SetWarning(axis, active, reason), now), n, now)
  {
    var t := WarningTried(s, axis, active, reason, now);
    assert Step(s, SetWarning(axis, active, reason), now) == t;
    WarningKeepsReach(s, axis, active, reason, now);
    var r :| r in Blockers(s, n, now);
    hide Step, WarningTried, SameReach;
    WarningKeepsRestriction(s, t, r, n, now);
  }

  lemma WarningKeepsRestriction(s: Guard, t: Guard, r: Restriction, n: Name, now: int)
    requires Valid(s) && SameReach(s, t) && t.groups == s.groups && KeepsStops(s, t) && r in Blockers(s, n, now)
    ensures r in Blockers(t, n, now)
  {
    match r
    case ByEvent(id) =>
      assert WiredEvent(s, id, s.events[id]);
      WarningsDoNotSpread(s, s.events[id], now);
      SameReachSameScope(s, t, s.events[id], now);
    case ByUnready(h) => SameReachSameScope(s, t, Unavailable(h), now);
  }

  ghost predicate KeepsStops(s: Guard, t: Guard) {
    forall id | id in s.events && !id.Warning? :: id in t.events && t.events[id] == s.events[id]
  }

  lemma WarningsDoNotSpread(s: Guard, e: Event, now: int)
    ensures e.severity == Warn ==> Scope(s, e, now) == {}
  {
    NoSources(Edges(s, e, now));
  }

  lemma WarningKeepsReach(s: Guard, axis: Name, active: bool, reason: Name, now: int)
    ensures var t := WarningTried(s, axis, active, reason, now); SameReach(s, t) && t.groups == s.groups && KeepsStops(s, t)
  {
    if axis in s.axes && active {
      var e := Event(axis, s.axes[axis].group, s.axes[axis].backend, FEEDBACK_WARNING, NONE, reason, Warn, now);
      assert WarningTried(s, axis, active, reason, now) == Latch(s, Warning(axis), e);
    }
  }

  lemma ConfigureInGap(s: Guard, axes: map<Name, Axis>, rules: seq<Association>, version: Name, now: int, n: Name)
    requires InGap(s, n, now)
    ensures Step(s, Configure(axes, rules, version), now) == s
  {
    assert AnyLive(s);
    hide Configured, WellOwned, WellRuled;
  }

  /** What a report does to a gap, refused reports included. */
  lemma ReportInGap(s: Guard, c: Call, now: int, n: Name)
    requires Valid(s) && InGap(s, n, now) && c.Reports()
    ensures StaysInGap(s, Step(s, c, now), n, now) || ClosesGap(s, c, n, now)
  {
    if ReportAccepts(s, c, now) {
      hide Step, Valid, ClosesGap, Blockers, ReportAccepts;
      ReportClosesGapExactly(s, c, now, n);
    } else {
      assert Step(s, c, now) == s;
      hide Step, Valid, ClosesGap, Blockers, ReportAccepts;
    }
  }

  lemma RenewInGap(s: Guard, name: Name, value: Evidence, source: Name, until: int, now: int, n: Name)
    requires InGap(s, n, now)
    ensures StaysInGap(s, Step(s, Renew(name, value, source, until), now), n, now)
  {
    if RenewAccepts(s, name, value, source, until, now) {
      hide Step, RenewAccepts, Blockers;
      RenewalCommitsGap(s, name, value, source, until, now, n);
    }
  }

  /** Every call, accepted or refused: a live session in a gap ends, or stays in the gap, or the call is
      the one kind of report that closes the gap. */
  lemma EveryCallInGap(s: Guard, c: Call, now: int, n: Name)
    requires Valid(s) && InGap(s, n, now)
    ensures StaysInGap(s, Step(s, c, now), n, now) || ClosesGap(s, c, n, now)
  {
    hide Step, Valid, ClosesGap, InGap, EndsSession;
    match c
    case Configure(axes, rules, version) => ConfigureStaysInGap(s, axes, rules, version, now, n);
    case SetWarning(axis, active, reason) => WarningInGap(s, axis, active, reason, now, n);
    case Renew(name, value, source, until) => RenewInGap(s, name, value, source, until, now, n);
    case Acknowledge(id) => AcknowledgementCommitsGap(s, id, now, n);
    case Arm(m) => ObservationCommitsGap(s, m, now, n);
    case Run(m) => ObservationCommitsGap(s, m, now, n);
    case Observe => ObservationCommitsGap(s, n, now, n);
    case Halt(m) => HaltInGap(s, m, now, n);
    case Invalidate(m) => InvalidateInGap(s, m, now, n);
    case CheckInhibit => LeaseInGap(s, 0, 0, now, n);
    case RenewOwner(lifetime, issued) => LeaseInGap(s, lifetime, issued, now, n);
    case StopAll => StopInGap(s, now, n);
    case LegacyReport(component, ready) => LegacyReportInGap(s, component, ready, now, n);
    case LegacyFault => LegacyFaultInGap(s, now, n);
    case LegacyHalt => LegacyHaltInGap(s, now, n);
    case _ => if c.Reports() { ReportInGap(s, c, now, n); } else { FlagsInGap(s, c, now, n); }
  }

  lemma ConfigureStaysInGap(s: Guard, axes: map<Name, Axis>, rules: seq<Association>, version: Name, now: int, n: Name)
    requires InGap(s, n, now)
    ensures StaysInGap(s, Step(s, Configure(axes, rules, version), now), n, now)
  {
    hide Step, Blockers;
    ConfigureInGap(s, axes, rules, version, now, n);
  }

  lemma GapLasts(s: Guard, n: Name, now: int, later: int)
    requires InGap(s, n, now) && now <= later
    ensures InGap(s, n, later)
  {
    TimeLosesEvidence(s, now, later);
    LostEvidenceWidensScope(s, now, s, later, Unavailable(n), n);
  }

  /** At step `k` of the run the old session was still in its gap, and the call closed the gap. */
  ghost predicate ClosedAt(s: Guard, run: seq<Timed>, n: Name, e: nat, k: nat)
    requires k < |run|
  {
    var t := After(s, run[..k]);
    InGap(t, n, run[k].now) && t.groups[n].epoch == e && ClosesGap(t, run[k].call, n, run[k].now)
  }

  /** Over whole runs: when an epoch is permitted although its session once was in a gap, then in between
      some report that an axis is ready closed that gap.  Nothing else ever does. */
  lemma {:induction false} PermitAfterGap(s: Guard, run: seq<Timed>, n: Name, start: int, later: int) returns (k: nat)
    requires Valid(s) && InGap(s, n, start) && Ordered(run, start) && End(run, start) <= later
    requires Permits(After(s, run), n, s.groups[n].epoch, later)
    ensures k < |run| && ClosedAt(s, run, n, s.groups[n].epoch, k)
    decreases run
  {
    k := 0;
    OrderedEnd(run, start);
    hide Valid;
    if run == [] {
      GapLasts(s, n, start, later);
      PermitsExactly(s, n, s.groups[n].epoch, later);
      assert false;
    } else {
      GapLasts(s, n, start, run[0].now);
      k := PermitAfterStep(s, run, n, later);
    }
  }

  lemma {:induction false} PermitAfterStep(s: Guard, run: seq<Timed>, n: Name, later: int) returns (k: nat)
    requires Valid(s) && run != [] && InGap(s, n, run[0].now) && Ordered(run[1..], run[0].now) && End(run[1..], run[0].now) <= later
    requires Permits(After(s, run), n, s.groups[n].epoch, later)
    ensures k < |run| && ClosedAt(s, run, n, s.groups[n].epoch, k)
    decreases run, 0
  {
    k := 0;
    assert n in s.groups;
    hide Step, Valid, Permits, InGap, ClosesGap, Ordered, End, EndsSession;
    var t := Step(s, run[0].call, run[0].now);
    if ClosesGap(s, run[0].call, n, run[0].now) {
      ClosedAtOnce(s, run, n);
    } else {
      StepKeepsValid(s, run[0].call, run[0].now);
      EveryCallInGap(s, run[0].call, run[0].now, n);
      EndedIsNotPermitted(s, run, n, later);
      k := PermitAfterGap(t, run[1..], n, run[0].now, later);
      ClosedLater(s, run, n, s.groups[n].epoch, k);
      k := k + 1;
    }
  }

  lemma ClosedAtOnce(s: Guard, run: seq<Timed>, n: Name)
    requires run != [] && InGap(s, n, run[0].now) && ClosesGap(s, run[0].call, n, run[0].now)
    ensures ClosedAt(s, run, n, s.groups[n].epoch, 0)
  {
    assert run[..0] == [];
    hide ClosesGap, Blockers;
  }

  lemma EndedIsNotPermitted(s: Guard, run: seq<Timed>, n: Name, later: int)
    requires Valid(s) && n in s.groups && run != [] && Permits(After(s, run), n, s.groups[n].epoch, later)
    ensures !EndsSession(s, Step(s, run[0].call, run[0].now), n)
  {
    var t := Step(s, run[0].call, run[0].now);
    StepKeepsValid(s, run[0].call, run[0].now);
    hide Step, Valid, Permits;
    if EndsSession(s, t, n) { SpentForever(t, run[1..], n, s.groups[n].epoch); }
  }

  lemma ClosedLater(s: Guard, run: seq<Timed>, n: Name, e: nat, k: nat)
    requires run != [] && k < |run[1..]| && ClosedAt(Step(s, run[0].call, run[0].now), run[1..], n, e, k)
    ensures ClosedAt(s, run, n, e, k + 1)
  {
    assert run[1..][..k] == run[..k + 1][1..];
    hide Step, InGap, ClosesGap;
  }
}
