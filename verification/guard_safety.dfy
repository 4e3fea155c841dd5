/** What a permit means, that propagation is exact, and that lapses are never healed. */
module GuardSafety {
  import opened Closure
  import opened Guard
  import opened GuardInvariant
  import opened GuardSessions

  // ---- Fault scope ----

  /** A group is in the scope of an event exactly when a chain of applicable, unsatisfied rules leads
      to it from one of the event's own groups. */
  lemma ScopeIsReachability(s: Guard, e: Event, now: int, n: Name)
    ensures n in Scope(s, e, now) <==> Reached(n, Sources(s, e), Edges(s, e, now))
  {
    LeastIsReachable(n, Sources(s, e), Edges(s, e, now));
  }

  /** The order in which rules are listed, and listing one twice, never changes a scope. */
  lemma ScopeIgnoresRuleOrder(s: Guard, t: Guard, e: Event, now: int)
    requires t == s.(rules := t.rules) && forall r :: r in s.rules <==> r in t.rules
    ensures Scope(s, e, now) == Scope(t, e, now)
  {
    forall r ensures Spreads(s, r, e, now) == Spreads(t, r, e, now) {}
    assert Edges(s, e, now) == Edges(t, e, now);
    assert Sources(s, e) == Sources(t, e);
  }

  /** Evidence is never stronger in (t, later) than in (s, now). */
  ghost predicate EvidenceLost(s: Guard, now: int, t: Guard, later: int) {
    && t == s.(conditions := t.conditions)
    && forall r | r in s.rules :: Holds(t, r, later) ==> Holds(s, r, now)
  }

  /** Losing evidence, by expiry or by report, only widens scopes and only adds restrictions. */
  lemma LostEvidenceWidensScope(s: Guard, now: int, t: Guard, later: int, e: Event, n: Name)
    requires EvidenceLost(s, now, t, later)
    ensures Scope(s, e, now) <= Scope(t, e, later)
    ensures Blockers(s, n, now) <= Blockers(t, n, later)
  {
    Widens(s, now, t, later, e);
    forall r | r in Blockers(s, n, now) ensures r in Blockers(t, n, later) {
      match r
      case ByEvent(id) => Widens(s, now, t, later, s.events[id]);
      case ByUnready(g) => Widens(s, now, t, later, Unavailable(g));
    }
  }

  lemma Widens(s: Guard, now: int, t: Guard, later: int, e: Event)
    requires EvidenceLost(s, now, t, later)
    ensures Scope(s, e, now) <= Scope(t, e, later)
  {
    assert Sources(s, e) == Sources(t, e);
    assert Edges(s, e, now) <= Edges(t, e, later);
    Monotone(Sources(s, e), Edges(s, e, now), Sources(t, e), Edges(t, e, later));
  }

  lemma TimeLosesEvidence(s: Guard, now: int, later: int)
    requires now <= later
    ensures EvidenceLost(s, now, s, later)
  {
  }

  // ---- Propagation ----

  /** While the lease is in order, propagation faults exactly the covered groups, each under one new
      epoch, and leaves every other group's session alone. */
  lemma PropagationIsExact(s: Guard, now: int, n: Name)
    requires n in s.groups && !OwnerLapsed(s, now)
    ensures var p := Propagated(s, now);
      && n in p.groups
      && (forall r :: r in p.groups[n].blockers <==> r in Restrictions(s) && Covers(s, r, n, now))
      && (p.groups[n].blockers != {} ==>
            && p.groups[n].state == Fault
            && p.groups[n].epoch == s.groups[n].epoch + (if s.groups[n].state == Fault then 0 else 1))
      && (p.groups[n].blockers == {} ==> p.groups[n] == s.groups[n].(blockers := {}))
  {
    PropagatedIs(s, now);
  }

  /** Propagating again at the same instant changes nothing, lease expiry included. */
  lemma PropagationIsIdempotent(s: Guard, now: int)
    ensures Propagated(Propagated(s, now), now) == Propagated(s, now)
  {
    var p := Propagated(s, now);
    PropagatedIs(s, now);
    PropagatedIs(p, now);
    forall n | n in s.groups ensures Propagated(p, now).groups[n] == p.groups[n] {
      SameBlockers(s, p, n, now);
    }
    assert Propagated(p, now).groups == p.groups;
  }

  // ---- Permits ----

  /** The permission check answers yes exactly for a session running at the asked epoch that nothing
      restricts at this instant, under a lease that is fresh or not required. */
  lemma PermitsExactly(s: Guard, n: Name, e: nat, now: int)
    requires Valid(s)
    ensures Permits(s, n, e, now) <==> RunningAt(s, n, e) && OwnerFresh(s, now) && Blockers(s, n, now) == {}
  {
    PropagatedIs(s, now);
    if n in s.groups {
      assert Propagated(s, now).groups[n] == Outcome(s, n, now);
      if s.groups[n].state == Running { assert s.groups[n].ready && !s.inhibit; }
    }
  }

  /** What an actuator may rely on when it holds a permit. */
  lemma PermitIsSound(s: Guard, n: Name, e: nat, now: int)
    requires Valid(s) && Permits(s, n, e, now)
    ensures forall a | a in s.axes && s.axes[a].group == n :: s.axes[a].ready
    ensures forall id | id in s.events :: n !in Scope(s, s.events[id], now)
    ensures forall h | h in s.groups && !s.groups[h].ready :: n !in Scope(s, Unavailable(h), now)
    ensures OwnerFresh(s, now) && !s.inhibit && RunningAt(s, n, e)
    ensures forall legacyEpoch :: !LegacyPermits(s, legacyEpoch)
  {
    PermitsExactly(s, n, e, now);
    assert s.groups[n].ready == AllReady(s.axes, n);
    forall id | id in s.events ensures n !in Scope(s, s.events[id], now) {
      assert ByEvent(id) !in Blockers(s, n, now);
    }
    forall h | h in s.groups && !s.groups[h].ready ensures n !in Scope(s, Unavailable(h), now) {
      assert ByUnready(h) !in Blockers(s, n, now);
    }
    assert s.groups != map[];
  }

  // ---- The owner lease ----

  ghost predicate Ordered(run: seq<Timed>, start: int)
    decreases run
  {
    run == [] || (start <= run[0].now && Ordered(run[1..], run[0].now))
  }

  function End(run: seq<Timed>, start: int): int {
    if run == [] then start else run[|run| - 1].now
  }

  lemma {:induction false} OrderedEnd(run: seq<Timed>, start: int)
    requires Ordered(run, start)
    ensures start <= End(run, start)
    ensures run != [] ==> run[0].now <= End(run, start) && End(run[1..], run[0].now) == End(run, start)
    decreases run
  {
    if |run| > 1 {
      OrderedEnd(run[1..], run[0].now);
      assert run[1..][|run| - 2] == run[|run| - 1];
    }
  }

  /** At time `t` the required, once granted lease has run out and nobody has noticed yet. */
  predicate UnnoticedLapse(s: Guard, t: int) {
    s.ownerRequired && 0 < s.ownerDeadline <= t && !s.ownerExpired
  }

  predicate Doomed(s: Guard, n: Name, e: nat, t: int)
    requires n in s.groups
  {
    Spent(s.groups[n], e) || (UnnoticedLapse(s, t) && e <= s.groups[n].epoch)
  }

  /** Noticing the lapse spends every epoch handed out so far. */
  lemma NoticedLapse(s: Guard, now: int, n: Name, e: nat)
    requires n in s.groups && UnnoticedLapse(s, now) && e <= s.groups[n].epoch
    ensures n in Propagated(s, now).groups && Spent(Propagated(s, now).groups[n], e)
    ensures n in OwnerChecked(s, now).groups && Spent(OwnerChecked(s, now).groups[n], e)
    ensures Propagated(s, now).inhibit
  {
    PropagatedIs(s, now);
  }

  /** Group `n` is still there, and epoch `e` is spent or doomed. */
  predicate DoomedIn(s: Guard, n: Name, e: nat, t: int) {
    n in s.groups && Doomed(s, n, e, t)
  }

  lemma ReportsNoticeLapse(s: Guard, c: Call, now: int, n: Name, e: nat)
    requires n in s.groups && c.Reports()
    requires UnnoticedLapse(s, now) && e <= s.groups[n].epoch
    ensures DoomedIn(Step(s, c, now), n, e, now)
  {
    assert Step(s, c, now) == Reported(s, c, now);
    hide Step, Propagated, OwnerChecked;
    if ReportAccepts(s, c, now) {
      RecordedLowers(s, c, now, n);
      NoticedLapse(Recorded(s, c, now), now, n, e);
    }
  }

  predicate Quiet(c: Call) {
    || c.Halt? || c.Invalidate? || c.Configure? || c.SetWarning? || c.ResetStop? || c.RequireOwner? || c.RegisterWriter?
    || c.StopAll? || c.LegacyReport? || c.LegacyFault? || c.LegacyArm? || c.LegacyRun? || c.LegacyHalt?
  }

  predicate SameLease(s: Guard, t: Guard) {
    t.ownerRequired == s.ownerRequired && t.ownerDeadline == s.ownerDeadline && t.ownerExpired == s.ownerExpired
  }

  /** The deadline stands, the requirement is never dropped, and a lapse stays unnoticed. */
  predicate LeavesLease(s: Guard, t: Guard, now: int) {
    && t.ownerDeadline == s.ownerDeadline && (s.ownerRequired ==> t.ownerRequired)
    && (UnnoticedLapse(s, now) ==> UnnoticedLapse(t, now))
  }

  lemma LegacyFaultLeavesLease(s: Guard, now: int)
    ensures SameLease(s, Step(s, LegacyFault, now))
  {
    hide RevokeAll, LegacyFaulted;
    RevocationLeavesLease(s);
  }

  lemma RevocationLeavesLease(s: Guard)
    ensures SameLease(s, RevokeAll(s))
  {
  }

  lemma LegacyReportLeavesLease(s: Guard, component: Name, ready: bool, now: int)
    ensures SameLease(s, Step(s, LegacyReport(component, ready), now))
  {
    var t := ComponentSet(s, component, ready);
    LiveStopLeavesLease(t);
    LegacyDropLeavesLease(LiveStopped(t));
    hide LiveStopped, LegacyDropped;
  }

  lemma LiveStopLeavesLease(s: Guard)
    ensures SameLease(s, LiveStopped(s))
  {
  }

  lemma LegacyDropLeavesLease(s: Guard)
    ensures SameLease(s, LegacyDropped(s))
  {
  }

  lemma LegacyArmLeavesLease(s: Guard, now: int)
    ensures SameLease(s, Step(s, LegacyArm, now)) && SameLease(s, Step(s, LegacyRun, now))
  {
    hide LegacyArmAccepts;
  }

  lemma LegacyHaltLeavesLease(s: Guard, now: int)
    ensures SameLease(s, Step(s, LegacyHalt, now))
  {
  }

  lemma WarningLeavesLease(s: Guard, axis: Name, active: bool, reason: Name, now: int)
    ensures SameLease(s, Step(s, SetWarning(axis, active, reason), now))
  {
  }

  lemma HaltLeavesLease(s: Guard, n: Name, now: int)
    ensures SameLease(s, Step(s, Halt(n), now)) && SameLease(s, Step(s, Invalidate(n), now))
  {
  }

  lemma StopLeavesLease(s: Guard, now: int)
    ensures SameLease(s, Step(s, StopAll, now)) && SameLease(OwnerDemanded(s), Step(s, RequireOwner, now))
  {
  }

  lemma WriterLeavesLease(s: Guard, backend: Name, grouped: bool, now: int)
    ensures SameLease(s, Step(s, RegisterWriter(backend, grouped), now))
  {
  }

  /** A reset is refused while the lease has lapsed. */
  lemma LapsePreventsReset(s: Guard, now: int)
    ensures UnnoticedLapse(s, now) ==> ResetTried(s, now) == s
    ensures var t := ResetTried(s, now); t.ownerDeadline == s.ownerDeadline && t.ownerRequired == s.ownerRequired
  {
  }

  lemma ResetLeavesLease(s: Guard, now: int)
    ensures LeavesLease(s, Step(s, ResetStop, now), now)
  {
    hide ResetTried;
    LapsePreventsReset(s, now);
  }

  lemma ConfigureLeavesLease(s: Guard, axes: map<Name, Axis>, rules: seq<Association>, version: Name, now: int)
    ensures SameLease(s, Step(s, Configure(axes, rules, version), now))
  {
    assert SameLease(s, Configured(s, axes, rules));
    hide ConfigureAccepts, Configured;
  }

  /** These calls neither propagate nor renew; in particular a reset is refused under a stale lease. */
  lemma QuietCallsLeaveLease(s: Guard, c: Call, now: int)
    requires Quiet(c)
    ensures LeavesLease(s, Step(s, c, now), now)
  {
    hide Step;
    match c
    case Configure(axes, rules, version) => ConfigureLeavesLease(s, axes, rules, version, now);
    case SetWarning(axis, active, reason) => WarningLeavesLease(s, axis, active, reason, now);
    case Halt(n) => HaltLeavesLease(s, n, now);
    case Invalidate(n) => HaltLeavesLease(s, n, now);
    case RegisterWriter(backend, grouped) => WriterLeavesLease(s, backend, grouped, now);
    case StopAll => StopLeavesLease(s, now);
    case RequireOwner => StopLeavesLease(s, now);
    case ResetStop => ResetLeavesLease(s, now);
    case LegacyReport(component, ready) => LegacyReportLeavesLease(s, component, ready, now);
    case LegacyFault => LegacyFaultLeavesLease(s, now);
    case LegacyArm => LegacyArmLeavesLease(s, now);
    case LegacyRun => LegacyArmLeavesLease(s, now);
    case LegacyHalt => LegacyHaltLeavesLease(s, now);
  }

  predicate Notices(c: Call) {
    c.Renew? || c.Acknowledge? || c.Arm? || c.Run? || c.Observe? || c.CheckInhibit? || c.RenewOwner?
  }

  /** A lapse that nobody has noticed at `now`, with an epoch handed out before. */
  predicate Lapsing(s: Guard, n: Name, e: nat, now: int) {
    n in s.groups && UnnoticedLapse(s, now) && e <= s.groups[n].epoch
  }

  lemma NoticingCallsDoom(s: Guard, c: Call, now: int, n: Name, e: nat)
    requires Lapsing(s, n, e, now) && Notices(c)
    ensures DoomedIn(Step(s, c, now), n, e, now)
  {
    hide Step, Lapsing, DoomedIn;
    match c
    case Renew(name, value, source, until) => RenewalDooms(s, name, value, source, until, now, n, e);
    case Acknowledge(id) => AcknowledgementDooms(s, id, now, n, e);
    case Arm(m) => InhibitStopsArming(s, m, now, n, e);
    case Run(m) => InhibitStopsArming(s, m, now, n, e);
    case Observe => ObservationDooms(s, now, n, e);
    case CheckInhibit => ObservationDooms(s, now, n, e);
    case RenewOwner(lifetime, issued) => LeaseDooms(s, lifetime, issued, now, n, e);
  }

  lemma ObservationDooms(s: Guard, now: int, n: Name, e: nat)
    requires Lapsing(s, n, e, now)
    ensures DoomedIn(Step(s, Observe, now), n, e, now) && DoomedIn(Step(s, CheckInhibit, now), n, e, now)
  {
    hide Propagated, OwnerChecked;
    NoticedLapse(s, now, n, e);
  }

  lemma LeaseDooms(s: Guard, lifetime: int, issued: int, now: int, n: Name, e: nat)
    requires Lapsing(s, n, e, now)
    ensures DoomedIn(Step(s, RenewOwner(lifetime, issued), now), n, e, now)
  {
    hide OwnerChecked;
    NoticedLapse(s, now, n, e);
    assert LeaseRenewed(OwnerChecked(s, now), lifetime, issued, now).groups == OwnerChecked(s, now).groups;
  }

  lemma RenewalDooms(s: Guard, name: Name, value: Evidence, source: Name, until: int, now: int, n: Name, e: nat)
    requires Lapsing(s, n, e, now)
    ensures DoomedIn(Step(s, Renew(name, value, source, until), now), n, e, now)
  {
    hide Propagated, Renewed, RenewAccepts;
    NoticedLapse(s, now, n, e);
    RenewalLowers(s, name, Condition(value, source, until), now, n);
  }

  lemma AcknowledgementDooms(s: Guard, id: EventId, now: int, n: Name, e: nat)
    requires Lapsing(s, n, e, now)
    ensures DoomedIn(Step(s, Acknowledge(id), now), n, e, now)
  {
    hide Propagated, Acknowledged;
    NoticedLapse(s, now, n, e);
    AcknowledgementLowers(s, id, now, n);
  }

  lemma InhibitStopsArming(s: Guard, m: Name, now: int, n: Name, e: nat)
    requires Lapsing(s, n, e, now)
    ensures DoomedIn(Step(s, Arm(m), now), n, e, now) && DoomedIn(Step(s, Run(m), now), n, e, now)
  {
    hide Propagated;
    NoticedLapse(s, now, n, e);
  }

  lemma DoomedStays(s: Guard, c: Call, t: int, now: int, n: Name, e: nat)
    requires n in s.groups && t <= now && Doomed(s, n, e, t)
    ensures DoomedIn(Step(s, c, now), n, e, now)
  {
    hide Step;
    StepOnGroup(s, c, now, n);
    if !Spent(s.groups[n], e) {
      if Notices(c) { NoticingCallsDoom(s, c, now, n, e); }
      else if c.Reports() { ReportsNoticeLapse(s, c, now, n, e); }
      else { QuietCallsLeaveLease(s, c, now); }
    }
  }

  lemma {:induction false} DoomedForever(s: Guard, t: int, run: seq<Timed>, n: Name, e: nat, now: int)
    requires Valid(s) && n in s.groups && Doomed(s, n, e, t) && Ordered(run, t) && End(run, t) <= now
    ensures !Permits(After(s, run), n, e, now)
    decreases run
  {
    hide Step, Permits, Valid;
    if run == [] {
      DoomedIsNotPermitted(s, n, e, t, now);
    } else {
      var u := Step(s, run[0].call, run[0].now);
      StepKeepsValid(s, run[0].call, run[0].now);
      DoomedStays(s, run[0].call, t, run[0].now, n, e);
      OrderedEnd(run, t);
      DoomedForever(u, run[0].now, run[1..], n, e, now);
    }
  }

  lemma DoomedIsNotPermitted(s: Guard, n: Name, e: nat, t: int, now: int)
    requires Valid(s) && n in s.groups && Doomed(s, n, e, t) && t <= now
    ensures !Permits(s, n, e, now)
  {
    hide Permits;
    PermitsExactly(s, n, e, now);
  }

  /** At time `t` the required, once granted lease has run out, whether somebody has noticed or not. */
  predicate Lapsed(s: Guard, t: int) {
    UnnoticedLapse(s, t) || s.ownerExpired
  }

  /** Once the owner lease has lapsed, noticed or not, no epoch handed out before is ever permitted again,
      whatever calls follow: a renewal or a global reset coming first does not help. */
  lemma LapseNeverHeals(s: Guard, t: int, run: seq<Timed>, n: Name, e: nat, now: int)
    requires Valid(s) && n in s.groups && Lapsed(s, t) && e <= s.groups[n].epoch
    requires Ordered(run, t) && End(run, t) <= now
    ensures !Permits(After(s, run), n, e, now)
  {
    assert s.ownerExpired ==> !s.groups[n].Live();
    hide Valid, Permits;
    DoomedForever(s, t, run, n, e, now);
  }

  /** The deadline is the largest grant ever accepted: issue time plus lifetime, refused grants aside. */
  function Granted(deadline: int, run: seq<Timed>): int
    decreases run
  {
    if run == [] then deadline else Granted(Extended(deadline, run[0].call, run[0].now), run[1..])
  }

  lemma PropagationLeavesLease(s: Guard, now: int)
    ensures Propagated(s, now).ownerDeadline == s.ownerDeadline
  {
    PropagatedIs(s, now);
  }

  lemma RenewalLeavesLease(s: Guard, name: Name, value: Evidence, source: Name, until: int, now: int)
    ensures Step(s, Renew(name, value, source, until), now).ownerDeadline == s.ownerDeadline
  {
    hide Propagated, RenewAccepts;
    PropagationLeavesLease(s, now);
    var t := Propagated(s, now);
    PropagationLeavesLease(t.(conditions := t.conditions[name := Condition(value, source, until)]), now);
  }

  lemma AcknowledgementLeavesLease(s: Guard, id: EventId, now: int)
    ensures Step(s, Acknowledge(id), now).ownerDeadline == s.ownerDeadline
  {
    hide Propagated, AcknowledgeAccepts;
    PropagationLeavesLease(s, now);
    var t := Propagated(s, now);
    PropagationLeavesLease(t.(events := t.events - {id}), now);
  }

  lemma ReportsLeaveLease(s: Guard, c: Call, now: int)
    requires c.Reports()
    ensures Step(s, c, now).ownerDeadline == s.ownerDeadline
  {
    assert Step(s, c, now) == Reported(s, c, now);
    hide Step, Propagated;
    if ReportAccepts(s, c, now) {
      PropagationLeavesLease(Recorded(s, c, now), now);
      match c
      case UnprepareAxis(axis) => UnpreparingLeavesLease(s, axis);
      case ReportAxis(axis, ready, reason, code, category) => ReportLeavesLease(s, axis, ready, reason, code, category, now);
      case ReportBackend(backend, ready, reason) => BackendLeavesLease(s, backend, ready, reason, now);
      case Post(id, e) => PostLeavesLease(s, id, e, now);
    }
  }

  lemma ReportLeavesLease(s: Guard, axis: Name, ready: bool, reason: Name, code: Name, category: Name, now: int)
    requires axis in s.axes
    ensures SameLease(s, AxisRecorded(s, axis, ready, reason, code, category, now))
  {
  }

  lemma BackendLeavesLease(s: Guard, backend: Name, ready: bool, reason: Name, now: int)
    ensures SameLease(s, BackendRecorded(s, backend, ready, reason, now))
  {
  }

  lemma PostLeavesLease(s: Guard, id: EventId, e: Event, now: int)
    ensures SameLease(s, Posted(s, id, e, now))
  {
    hide Attributed, Stamped, LegacyFaulted;
  }

  lemma UnpreparingLeavesLease(s: Guard, axis: Name)
    requires axis in s.axes
    ensures SameLease(s, AxisUnprepared(s, axis))
  {
  }

  function Extended(deadline: int, c: Call, now: int): int {
    if c.RenewOwner? && LeaseAccepts(c.lifetime, c.issued, now) then Max(deadline, Issued(c.issued, now) + c.lifetime) else deadline
  }

  lemma LeaseGrows(s: Guard, lifetime: int, issued: int, now: int)
    ensures var c := RenewOwner(lifetime, issued); Step(s, c, now).ownerDeadline == Extended(s.ownerDeadline, c, now)
    ensures Step(s, CheckInhibit, now).ownerDeadline == s.ownerDeadline
  {
    assert OwnerChecked(s, now).ownerDeadline == s.ownerDeadline;
    hide OwnerChecked;
  }

  lemma ArmingLeavesLease(s: Guard, n: Name, now: int)
    ensures Step(s, Arm(n), now).ownerDeadline == s.ownerDeadline && Step(s, Run(n), now).ownerDeadline == s.ownerDeadline
    ensures Step(s, Observe, now).ownerDeadline == s.ownerDeadline
  {
    hide Propagated, Clear;
    PropagationLeavesLease(s, now);
  }

  lemma LeaseStep(s: Guard, c: Call, now: int)
    ensures Step(s, c, now).ownerDeadline == Extended(s.ownerDeadline, c, now)
  {
    hide Step, LeaseAccepts, Issued;
    match c
    case Renew(name, value, source, until) => RenewalLeavesLease(s, name, value, source, until, now);
    case Acknowledge(id) => AcknowledgementLeavesLease(s, id, now);
    case Arm(m) => ArmingLeavesLease(s, m, now);
    case Run(m) => ArmingLeavesLease(s, m, now);
    case Observe => ArmingLeavesLease(s, NONE, now);
    case CheckInhibit => LeaseGrows(s, 0, 0, now);
    case RenewOwner(lifetime, issued) => LeaseGrows(s, lifetime, issued, now);
    case _ => if c.Reports() { ReportsLeaveLease(s, c, now); } else { QuietCallsLeaveLease(s, c, now); }
  }

  lemma {:induction false} LeaseIsLargestGrant(s: Guard, run: seq<Timed>)
    requires Valid(s)
    ensures After(s, run).ownerDeadline == Granted(s.ownerDeadline, run)
    ensures s.ownerDeadline <= After(s, run).ownerDeadline <= INT64_MAX
    decreases run
  {
    if run != [] {
      StepKeepsValid(s, run[0].call, run[0].now);
      LeaseStep(s, run[0].call, run[0].now);
      LeaseIsLargestGrant(Step(s, run[0].call, run[0].now), run[1..]);
    }
  }
}
