/** Gaps in physical evidence, and how the groups come back: what every call does to a live session in a
    gap, the one way a gap can close unnoticed, and why groups are enabled together. */
module GuardGaps {
  import opened Closure
  import opened Guard
  import opened GuardInvariant
  import opened GuardSessions

  // ---- Which calls commit an evidence gap ----

  /** Axes keep their owners, rules and evidence are the same: events reach equally far. */
  ghost predicate SameReach(s: Guard, t: Guard) {
    && s.axes.Keys == t.axes.Keys && s.groups.Keys == t.groups.Keys
    && s.rules == t.rules && s.conditions == t.conditions
    && forall a | a in s.axes :: s.axes[a].group == t.axes[a].group && s.axes[a].backend == t.axes[a].backend
  }

  lemma SameReachSameScope(s: Guard, t: Guard, e: Event, now: int)
    requires SameReach(s, t)
    ensures Scope(s, e, now) == Scope(t, e, now)
  {
    assert Sources(s, e) == Sources(t, e);
    forall rule | rule in s.rules ensures Spreads(s, rule, e, now) == Spreads(t, rule, e, now) {}
    assert Edges(s, e, now) == Edges(t, e, now);
  }

  ghost predicate KeepsEvents(s: Guard, t: Guard) {
    forall id | id in s.events :: id in t.events && t.events[id] == s.events[id]
  }

  /** No restriction disappears while events stay latched and unready groups stay unready. */
  lemma RestrictionsPersist(s: Guard, t: Guard, r: Restriction, n: Name, now: int)
    requires SameReach(s, t) && KeepsEvents(s, t) && r in Blockers(s, n, now)
    requires r.ByUnready? && r.group in s.groups && !s.groups[r.group].ready ==> !t.groups[r.group].ready
    ensures r in Blockers(t, n, now)
  {
    match r
    case ByEvent(id) => SameReachSameScope(s, t, s.events[id], now);
    case ByUnready(h) => SameReachSameScope(s, t, Unavailable(h), now);
  }

  lemma RefreshedReach(s: Guard, t: Guard)
    requires SameReach(s, t) && KeepsEvents(s, t)
    ensures SameReach(s, Refreshed(t)) && KeepsEvents(s, Refreshed(t))
  {
  }

  lemma UnpreparedReach(s: Guard, axis: Name)
    requires axis in s.axes
    ensures SameReach(s, AxisUnprepared(s, axis)) && KeepsEvents(s, AxisUnprepared(s, axis))
  {
    var n := s.axes[axis].group;
    var t := AxisSet(s, axis, false);
    RefreshedReach(s, if n in s.groups && s.groups[n].Live() then SetGroup(t, n, Revoked(s.groups[n])) else t);
  }

  lemma ReadinessReach(s: Guard, axis: Name, ready: bool, reason: Name, code: Name, category: Name, now: int)
    requires axis in s.axes
    ensures var t := AxisRecorded(s, axis, ready, reason, code, category, now); SameReach(s, t) && KeepsEvents(s, t)
  {
    var u := AxisSet(s, axis, ready);
    assert SameReach(s, u) && KeepsEvents(s, u);
    RefreshedReach(s, u);
    LatchReach(s, Refreshed(u), Readiness(axis), ReadinessEvent(s, axis, reason, code, category, now));
    hide Refreshed, Latch, SameReach, KeepsEvents, AxisSet;
  }

  lemma LatchReach(s: Guard, t: Guard, id: EventId, e: Event)
    requires SameReach(s, t) && KeepsEvents(s, t)
    ensures SameReach(s, Latch(t, id, e)) && KeepsEvents(s, Latch(t, id, e))
  {
  }

  lemma BackendReach(s: Guard, backend: Name, ready: bool, reason: Name, now: int)
    ensures var t := BackendRecorded(s, backend, ready, reason, now); SameReach(s, t) && KeepsEvents(s, t)
  {
    if ready {
      RefreshedReach(s, s);
    } else {
      var u := BackendLost(s, backend);
      assert SameReach(s, u) && KeepsEvents(s, u);
      RefreshedReach(s, u);
      LatchReach(s, Refreshed(u), Backend(backend), Event(NONE, NONE, backend, TRANSPORT, NONE, reason, GroupStop, now));
    }
    hide Refreshed, Latch, SameReach, KeepsEvents, BackendLost;
  }

  lemma PostReach(s: Guard, id: EventId, e: Event, now: int)
    ensures SameReach(s, Posted(s, id, e, now)) && KeepsEvents(s, Posted(s, id, e, now))
    ensures Posted(s, id, e, now).groups == s.groups
  {
    if id !in s.events {
      assert Latch(s, id, Stamped(Attributed(s, e), now)).events == s.events[id := Stamped(Attributed(s, e), now)];
    }
  }

  lemma RecordedReach(s: Guard, c: Call, now: int)
    requires c.Reports() && ReportAccepts(s, c, now)
    ensures SameReach(s, Recorded(s, c, now)) && KeepsEvents(s, Recorded(s, c, now))
  {
    match c
    case UnprepareAxis(axis) => UnpreparedReach(s, axis);
    case ReportAxis(axis, ready, reason, code, category) => ReadinessReach(s, axis, ready, reason, code, category, now);
    case ReportBackend(backend, ready, reason) => BackendReach(s, backend, ready, reason, now);
    case Post(id, e) => PostReach(s, id, e, now);
  }

  /** Does the report that `axis` is ready make its whole group ready? */
  predicate Completes(s: Guard, axis: Name)
    requires axis in s.axes
  {
    forall b | b in s.axes && s.axes[b].group == s.axes[axis].group && b != axis :: s.axes[b].ready
  }

  /** The only gap a report can close: unready groups are judged before the gap is, and the reported
      axis completes the one group that restricts `n`. */
  ghost predicate ClosesGap(s: Guard, c: Call, n: Name, now: int) {
    && c.ReportAxis? && c.ready && c.axis in s.axes
    && Completes(s, c.axis)
    && forall r | r in Blockers(s, n, now) :: r == ByUnready(s.axes[c.axis].group)
  }

  lemma UnreadyStaysUnready(s: Guard, c: Call, now: int, h: Name)
    requires Valid(s) && c.Reports() && ReportAccepts(s, c, now) && h in s.groups && !s.groups[h].ready
    ensures h in Recorded(s, c, now).groups
    ensures Recorded(s, c, now).groups[h].ready ==> c.ReportAxis? && c.ready && h == s.axes[c.axis].group && Completes(s, c.axis)
  {
    match c
    case UnprepareAxis(axis) => UnpreparedReadiness(s, axis, h);
    case ReportAxis(axis, ready, reason, code, category) => ReportedReadiness(s, axis, ready, reason, code, category, now, h);
    case ReportBackend(backend, ready, reason) => BackendReadiness(s, backend, ready, reason, now, h);
    case Post(id, e) => PostReach(s, id, e, now);
  }

  /** Losing axes makes no group ready. */
  lemma LostReadiness(s: Guard, t: Guard, h: Name)
    requires ReadinessKnown(s) && h in s.groups && !s.groups[h].ready && t.axes.Keys == s.axes.Keys
    requires forall a | a in s.axes :: t.axes[a].group == s.axes[a].group && (t.axes[a].ready ==> s.axes[a].ready)
    ensures !AllReady(t.axes, h)
  {
    assert s.groups[h].ready == AllReady(s.axes, h);
    var a :| a in s.axes && s.axes[a].group == h && !s.axes[a].ready;
    assert !t.axes[a].ready;
  }

  lemma UnpreparedReadiness(s: Guard, axis: Name, h: Name)
    requires ReadinessKnown(s) && axis in s.axes && h in s.groups && !s.groups[h].ready
    ensures h in AxisUnprepared(s, axis).groups && !AxisUnprepared(s, axis).groups[h].ready
  {
    var t := AxisSet(s, axis, false);
    LostReadiness(s, t, h);
    var n := s.axes[axis].group;
    hide AllReady, Revoked;
    if n in s.groups && s.groups[n].Live() {
      assert SetGroup(t, n, Revoked(s.groups[n])).groups == s.groups[n := Revoked(s.groups[n])];
    }
  }

  lemma BackendReadiness(s: Guard, backend: Name, ready: bool, reason: Name, now: int, h: Name)
    requires ReadinessKnown(s) && h in s.groups && !s.groups[h].ready
    ensures var t := BackendRecorded(s, backend, ready, reason, now); h in t.groups && !t.groups[h].ready
  {
    LostReadiness(s, if ready then s else BackendLost(s, backend), h);
  }

  lemma ReportedReadiness(s: Guard, axis: Name, ready: bool, reason: Name, code: Name, category: Name, now: int, h: Name)
    requires ReadinessKnown(s) && axis in s.axes && h in s.groups && !s.groups[h].ready
    ensures h in AxisRecorded(s, axis, ready, reason, code, category, now).groups
    ensures AxisRecorded(s, axis, ready, reason, code, category, now).groups[h].ready ==> ready && h == s.axes[axis].group && Completes(s, axis)
  {
    assert s.groups[h].ready == AllReady(s.axes, h);
    var u := AxisSet(s, axis, ready);
    assert AxisRecorded(s, axis, ready, reason, code, category, now).groups == Refreshed(u).groups;
    assert Refreshed(u).groups[h].ready == AllReady(u.axes, h);
    var a :| a in s.axes && s.axes[a].group == h && !s.axes[a].ready;
    assert a != axis || !ready ==> !u.axes[a].ready;
    if AllReady(u.axes, h) {
      forall b | b in s.axes && s.axes[b].group == s.axes[axis].group && b != axis ensures s.axes[b].ready {
        assert u.axes[b] == s.axes[b];
      }
    }
  }

  /** A ready report adds no restriction. */
  lemma ReadyReportRestrictsNothing(s: Guard, c: Call, now: int, n: Name, r: Restriction)
    requires Valid(s) && c.ReportAxis? && c.ready && c.axis in s.axes
    requires r in Blockers(Recorded(s, c, now), n, now)
    ensures r in Blockers(s, n, now)
  {
    var t := Recorded(s, c, now);
    RecordedReach(s, c, now);
    match r
    case ByEvent(id) => SameReachSameScope(s, t, s.events[id], now);
    case ByUnready(g) =>
      SameReachSameScope(s, t, Unavailable(g), now);
      ReadyReportKeepsReadiness(s, c, now, g);
  }

  lemma ReadyReportKeepsReadiness(s: Guard, c: Call, now: int, g: Name)
    requires Valid(s) && c.ReportAxis? && c.ready && c.axis in s.axes && g in s.groups
    ensures g in Recorded(s, c, now).groups && (s.groups[g].ready ==> Recorded(s, c, now).groups[g].ready)
    ensures Completes(s, c.axis) && g == s.axes[c.axis].group ==> Recorded(s, c, now).groups[g].ready
  {
    var u := AxisSet(s, c.axis, true);
    OtherGroupsKeepReadiness(s, u, c.axis);
    assert Recorded(s, c, now) == Refreshed(u);
    assert s.groups[g].ready == AllReady(s.axes, g);
  }

  lemma CompletingIsReady(s: Guard, c: Call, now: int, n: Name)
    requires Valid(s) && n in s.groups && ClosesGap(s, c, n, now)
    ensures Blockers(Recorded(s, c, now), n, now) == {}
  {
    var t := Recorded(s, c, now);
    if r :| r in Blockers(t, n, now) {
      ReadyReportRestrictsNothing(s, c, now, n, r);
      ReadyReportKeepsReadiness(s, c, now, s.axes[c.axis].group);
      assert false;
    }
  }

  lemma OpenGapStaysOpen(s: Guard, c: Call, now: int, n: Name)
    requires Valid(s) && n in s.groups && Blockers(s, n, now) != {}
    requires c.Reports() && ReportAccepts(s, c, now) && !ClosesGap(s, c, n, now)
    ensures Blockers(Recorded(s, c, now), n, now) != {}
  {
    var r :| r in Blockers(s, n, now) && (c.ReportAxis? && c.ready && Completes(s, c.axis) ==> r != ByUnready(s.axes[c.axis].group));
    RecordedReach(s, c, now);
    if r.ByUnready? { UnreadyStaysUnready(s, c, now, r.group); }
    RestrictionsPersist(s, Recorded(s, c, now), r, n, now);
  }

  /** What propagation commits: a lapsed lease, an open restriction, or nothing. */
  lemma CommitsExactly(t: Guard, n: Name, g: Group, now: int)
    requires n in t.groups && g.Live() && Lowered(g, t.groups[n])
    ensures n in Propagated(t, now).groups
    ensures Spent(Propagated(t, now).groups[n], g.epoch) <==> OwnerLapsed(t, now) || Blockers(t, n, now) != {} || t.groups[n].epoch > g.epoch
  {
    PropagatedIs(t, now);
  }

  lemma ReadyReportKeepsSessions(s: Guard, c: Call, now: int, n: Name)
    requires c.ReportAxis? && c.ready && c.axis in s.axes && n in s.groups
    ensures n in Recorded(s, c, now).groups && Recorded(s, c, now).groups[n].epoch == s.groups[n].epoch
  {
  }

  /** A live session in a gap survives a report exactly when the report closes that gap under a lease
      in order; every other report ends it. */
  lemma ReportClosesGapExactly(s: Guard, c: Call, now: int, n: Name)
    requires Valid(s) && InGap(s, n, now) && c.Reports() && ReportAccepts(s, c, now)
    ensures EndsSession(s, Step(s, c, now), n) <==> OwnerLapsed(s, now) || !ClosesGap(s, c, n, now)
    ensures n in Step(s, c, now).groups
  {
    var r := Recorded(s, c, now);
    assert Step(s, c, now) == Propagated(r, now);
    RecordedLowers(s, c, now, n);
    assert OwnerLapsed(r, now) == OwnerLapsed(s, now);
    hide Step, Valid, Recorded, OwnerLapsed;
    CommitsExactly(r, n, s.groups[n], now);
    if ClosesGap(s, c, n, now) {
      CompletingIsReady(s, c, now, n);
      ReadyReportKeepsSessions(s, c, now, n);
    } else {
      OpenGapStaysOpen(s, c, now, n);
    }
  }

  ghost predicate EndsSession(s: Guard, t: Guard, n: Name)
    requires n in s.groups
  {
    n in t.groups && Spent(t.groups[n], s.groups[n].epoch)
  }

  ghost predicate InGap(s: Guard, n: Name, now: int) {
    n in s.groups && s.groups[n].Live() && Blockers(s, n, now) != {}
  }

  /** A renewal of evidence first ends the sessions its lapse exposed; it never revives them. */
  lemma RenewalCommitsGap(s: Guard, name: Name, value: Evidence, source: Name, until: int, now: int, n: Name)
    requires InGap(s, n, now) && RenewAccepts(s, name, value, source, until, now)
    ensures EndsSession(s, Step(s, Renew(name, value, source, until), now), n)
  {
    var c := Condition(value, source, until);
    assert Step(s, Renew(name, value, source, until), now) == Renewed(s, name, c, now);
    hide Step;
    RenewedAfterGap(s, name, c, now, n);
  }

  lemma RenewedAfterGap(s: Guard, name: Name, c: Condition, now: int, n: Name)
    requires InGap(s, n, now)
    ensures EndsSession(s, Renewed(s, name, c, now), n)
  {
    hide Propagated, Renewed;
    GapFaults(s, now, n);
    RenewalLowers(s, name, c, now, n);
  }

  /** So does an acknowledgement, even the one that removes the event behind the restriction. */
  lemma AcknowledgementCommitsGap(s: Guard, id: EventId, now: int, n: Name)
    requires InGap(s, n, now)
    ensures EndsSession(s, Step(s, Acknowledge(id), now), n)
  {
    hide Propagated, Acknowledged;
    GapFaults(s, now, n);
    AcknowledgementLowers(s, id, now, n);
  }

  /** So do arming or running any group, and every observation, a permission check included. */
  lemma ObservationCommitsGap(s: Guard, m: Name, now: int, n: Name)
    requires InGap(s, n, now)
    ensures EndsSession(s, Step(s, Observe, now), n)
    ensures EndsSession(s, Step(s, Arm(m), now), n)
    ensures EndsSession(s, Step(s, Run(m), now), n)
  {
    hide Propagated, ArmTried, RunTried;
    GapFaults(s, now, n);
    TriedStaysSpent(Propagated(s, now), m, n, now, s.groups[n].epoch);
  }

  lemma TriedStaysSpent(p: Guard, m: Name, n: Name, now: int, e: nat)
    requires n in p.groups && Spent(p.groups[n], e)
    ensures n in ArmTried(p, m, now).groups && Spent(ArmTried(p, m, now).groups[n], e)
    ensures n in RunTried(p, m, now).groups && Spent(RunTried(p, m, now).groups[n], e)
  {
    if ArmAccepts(p, m, now) { assert ArmTried(p, m, now).groups == p.groups[m := ArmedGroup(p.groups[m])]; }
    if RunAccepts(p, m, now) { assert RunTried(p, m, now).groups == p.groups[m := p.groups[m].(state := Running)]; }
  }

  lemma GapFaults(s: Guard, now: int, n: Name)
    requires InGap(s, n, now)
    ensures EndsSession(s, Propagated(s, now), n)
  {
    PropagatedIs(s, now);
  }
}
