/** What is true of the guard between any two calls, and that every call keeps it true. */
module GuardInvariant {
  import opened Closure
  import opened Guard

  /** Every name the guard stores refers to something it knows. */
  ghost predicate Wired(s: Guard) {
    && (forall a | a in s.axes :: a != NONE && s.axes[a].backend != NONE && s.axes[a].group in s.groups)
    && (forall r | r in s.rules :: r.sourceGroup in s.groups && r.dependentGroup in s.groups)
    && (forall id | id in s.events :: WiredEvent(s, id, s.events[id]))
    && NONE !in s.groups
  }

  ghost predicate WiredEvent(s: Guard, id: EventId, e: Event) {
    && (e.axis != NONE ==> e.axis in s.axes && e.group == s.axes[e.axis].group && e.backend == s.axes[e.axis].backend)
    && (e.group != NONE ==> e.group in s.groups)
    && (id.Readiness? ==> e.severity == GroupStop && e.axis == id.axis && id.axis != NONE)
    && (id.Backend? ==> e.severity == GroupStop && e.axis == NONE && e.group == NONE && e.backend == id.backend)
    && (id.Warning? ==> e.severity == Warn)
  }

  ghost predicate ReadinessKnown(s: Guard) {
    forall n | n in s.groups :: s.groups[n].ready == AllReady(s.axes, n)
  }

  ghost predicate EmergencyInhibits(s: Guard) {
    && (forall id | id in s.events :: s.events[id].severity == GlobalStop ==> s.inhibit)
    && (s.ownerExpired ==> s.inhibit)
  }

  /** The older whole-vehicle gate is shut as soon as groups exist. */
  ghost predicate LegacyShut(s: Guard) {
    s.groups != map[] ==> !s.legacy.Live() && forall w | w in s.writers :: s.writers[w]
  }

  ghost predicate LeaseInRange(s: Guard) {
    0 <= s.ownerDeadline <= INT64_MAX
  }

  /** A group that may move is ready, and nothing may move under a global inhibit. */
  ghost predicate LiveIsSafe(s: Guard) {
    forall n | n in s.groups :: s.groups[n].Live() ==> s.groups[n].ready && !s.inhibit
  }

  ghost predicate Consistent(s: Guard) {
    Wired(s) && ReadinessKnown(s) && EmergencyInhibits(s) && LegacyShut(s) && LeaseInRange(s)
  }

  ghost predicate Valid(s: Guard) {
    Consistent(s) && LiveIsSafe(s)
  }

  lemma InitialIsValid()
    ensures Valid(INITIAL)
  {
  }

  // ---- Propagation looks only at what restrictions are made of ----

  ghost predicate SameCauses(s: Guard, t: Guard) {
    && s.axes == t.axes && s.rules == t.rules && s.conditions == t.conditions && s.events == t.events
    && s.groups.Keys == t.groups.Keys
    && forall n | n in s.groups :: s.groups[n].ready == t.groups[n].ready
  }

  lemma SameScope(s: Guard, t: Guard, e: Event, now: int)
    requires SameCauses(s, t)
    ensures Scope(s, e, now) == Scope(t, e, now)
  {
    assert Sources(s, e) == Sources(t, e);
    forall rule | rule in s.rules ensures Spreads(s, rule, e, now) == Spreads(t, rule, e, now) {}
    assert Edges(s, e, now) == Edges(t, e, now);
  }

  lemma SameBlockers(s: Guard, t: Guard, n: Name, now: int)
    requires SameCauses(s, t)
    ensures Blockers(s, n, now) == Blockers(t, n, now)
  {
    forall r ensures Covers(s, r, n, now) == Covers(t, r, n, now) {
      match r
      case ByEvent(id) => if id in s.events { SameScope(s, t, s.events[id], now); }
      case ByUnready(g) => SameScope(s, t, Unavailable(g), now);
    }
    assert Restrictions(s) == Restrictions(t);
  }

  /** Fault scope never leaves the known groups. */
  lemma ScopeIsKnown(s: Guard, e: Event, now: int)
    requires Wired(s)
    requires e.axis != NONE ==> e.axis in s.axes
    requires e.group != NONE ==> e.group in s.groups
    ensures Scope(s, e, now) <= s.groups.Keys
  {
    LeastIsLeast(s.groups.Keys, Sources(s, e), Edges(s, e, now));
  }

  /** What propagation does to one group, in terms of the state before it. */
  ghost function Outcome(s: Guard, n: Name, now: int): Group
    requires n in s.groups
  {
    var b := Blockers(s, n, now);
    (if OwnerLapsed(s, now) || b != {} then Revoked(s.groups[n]) else s.groups[n]).(blockers := b)
  }

  lemma PropagatedIs(s: Guard, now: int)
    ensures var p := Propagated(s, now);
      && p == s.(groups := p.groups, ownerExpired := s.ownerExpired || OwnerLapsed(s, now),
                 inhibit := s.inhibit || OwnerLapsed(s, now))
      && p.groups.Keys == s.groups.Keys
      && (forall n | n in s.groups :: p.groups[n] == Outcome(s, n, now))
      && SameCauses(s, p)
  {
    var t := OwnerChecked(s, now);
    assert t.groups.Keys == s.groups.Keys;
    assert SameCauses(s, t);
    forall n | n in s.groups ensures Committed(t, n, now) == Outcome(s, n, now) {
      SameBlockers(s, t, n, now);
    }
  }

  /** The structural part of the invariant does not look at group states. */
  lemma ConsistentFrame(s: Guard, t: Guard)
    requires Consistent(s)
    requires SameShape(s, t)
    requires (s.inhibit ==> t.inhibit) && (t.ownerExpired ==> t.inhibit)
    ensures Consistent(t)
  {
    EventsStayWired(s, t);
    assert t.groups != map[] ==> s.groups != map[] by {
      if t.groups != map[] { assert s.groups.Keys != {}; }
    }
  }

  ghost predicate SameShape(s: Guard, t: Guard) {
    && t.axes == s.axes && t.rules == s.rules && t.events == s.events && t.writers == s.writers
    && t.legacy == s.legacy && t.ownerDeadline == s.ownerDeadline
    && t.groups.Keys == s.groups.Keys
    && forall n | n in s.groups :: s.groups[n].ready == t.groups[n].ready
  }

  /** Events stay wired when axes keep their owners and groups keep their names. */
  lemma EventsStayWired(s: Guard, t: Guard)
    requires Wired(s) && t.events == s.events && t.groups.Keys == s.groups.Keys && t.axes.Keys == s.axes.Keys
    requires forall a | a in s.axes :: t.axes[a].group == s.axes[a].group && t.axes[a].backend == s.axes[a].backend
    ensures forall id | id in t.events :: WiredEvent(t, id, t.events[id])
  {
    forall id | id in t.events ensures WiredEvent(t, id, t.events[id]) {
      assert WiredEvent(s, id, s.events[id]);
    }
  }

  /** Propagation restores safety as soon as every unsafe live group is covered. */
  lemma PropagatedIsValid(s: Guard, now: int)
    requires Consistent(s)
    requires forall n | n in s.groups :: s.groups[n].Live() && (!s.groups[n].ready || s.inhibit) ==> Blockers(s, n, now) != {}
    ensures Valid(Propagated(s, now))
  {
    PropagatedIs(s, now);
    var p := Propagated(s, now);
    ConsistentFrame(s, p);
    forall n | n in p.groups && p.groups[n].Live() ensures p.groups[n].ready && !p.inhibit {
      assert p.groups[n] == Outcome(s, n, now);
    }
  }

  lemma SourceIsCovered(s: Guard, id: EventId, n: Name, now: int)
    requires id in s.events && n in Sources(s, s.events[id])
    ensures Blockers(s, n, now) != {}
  {
    var e := s.events[id];
    LeastBounds(Sources(s, e), Edges(s, e, now));
    assert Covers(s, ByEvent(id), n, now);
    assert ByEvent(id) in Restrictions(s);
    assert ByEvent(id) in Blockers(s, n, now);
  }

  // ---- Every call keeps the invariant ----

  /** Reconfiguration keeps every group it does not own, but leaves none of them live. */
  lemma ConfiguredGroups(s: Guard, axes: map<Name, Axis>, rules: seq<Association>, version: Name)
    requires ConfigureAccepts(s, axes, rules, version)
    ensures var t := Configured(s, axes, rules);
      t.groups.Keys == s.groups.Keys + GROUP_NAMES && ReadinessKnown(t) && NoneLive(t)
  {
    assert forall n | n in s.groups :: !s.groups[n].Live();
    hide ConfigureAccepts;
    RewiredGroups(s, axes, rules);
    RefreshedGroups(Rewired(s, axes, rules));
    hide *;
  }

  lemma RewiredGroups(s: Guard, axes: map<Name, Axis>, rules: seq<Association>)
    requires forall n | n in s.groups :: !s.groups[n].Live()
    ensures var t := Rewired(s, axes, rules); t.groups.Keys == s.groups.Keys + GROUP_NAMES && NoneLive(t)
  {
  }

  ghost predicate NoneLive(s: Guard) {
    forall n | n in s.groups :: !s.groups[n].Live()
  }

  lemma RefreshedGroups(s: Guard)
    ensures var t := Refreshed(s); t.groups.Keys == s.groups.Keys && ReadinessKnown(t) && (NoneLive(s) ==> NoneLive(t))
  {
  }

  lemma ConfiguredIsWired(s: Guard, t: Guard, axes: map<Name, Axis>)
    requires NONE !in s.groups && WellOwned(axes) && WellRuled(t.rules) && t.events == map[]
    requires t.axes == map a | a in axes :: axes[a].(ready := false)
    requires t.groups.Keys == s.groups.Keys + GROUP_NAMES
    ensures Wired(t)
  {
  }

  lemma ConfiguredElsewhere(s: Guard, axes: map<Name, Axis>, rules: seq<Association>, version: Name)
    requires ConfigureAccepts(s, axes, rules, version)
    ensures var t := Configured(s, axes, rules);
      && t.events == map[] && t.inhibit == s.inhibit && t.ownerExpired == s.ownerExpired
      && t.legacy == s.legacy && t.writers == s.writers && t.ownerDeadline == s.ownerDeadline
      && t.axes == (map a | a in axes :: axes[a].(ready := false)) && t.rules == rules
      && !t.legacy.Live() && forall w | w in t.writers :: t.writers[w]
  {
  }

  lemma ConfigureKeepsValid(s: Guard, axes: map<Name, Axis>, rules: seq<Association>, version: Name)
    requires Valid(s) && ConfigureAccepts(s, axes, rules, version)
    ensures Valid(Configured(s, axes, rules))
  {
    ConfiguredGroups(s, axes, rules, version);
    ConfiguredElsewhere(s, axes, rules, version);
    ConfiguredIsWired(s, Configured(s, axes, rules), axes);
  }

  /** Recording new readiness keeps the structural part, once group readiness is refreshed. */
  lemma RecordedIsConsistent(s: Guard, t: Guard)
    requires Consistent(s)
    requires t.axes.Keys == s.axes.Keys && t.rules == s.rules && t.writers == s.writers && t.legacy == s.legacy
    requires t.groups.Keys == s.groups.Keys && t.ownerDeadline == s.ownerDeadline
    requires t.inhibit == s.inhibit && t.ownerExpired == s.ownerExpired && t.events == s.events
    requires forall a | a in s.axes :: t.axes[a].group == s.axes[a].group && t.axes[a].backend == s.axes[a].backend
    ensures Consistent(Refreshed(t))
    ensures Refreshed(t).groups.Keys == s.groups.Keys
  {
    var r := Refreshed(t);
    assert r.groups.Keys == s.groups.Keys;
    EventsStayWired(s, r);
    assert r.groups != map[] ==> s.groups != map[] by {
      if r.groups != map[] { assert s.groups.Keys != {}; }
    }
  }

  lemma RefreshedIsSafe(s: Guard, u: Guard, n: Name)
    requires LiveIsSafe(s) && u.inhibit == s.inhibit && u.groups.Keys == s.groups.Keys && n in s.groups && !u.groups[n].Live()
    requires forall m | m in s.groups && m != n :: u.groups[m] == s.groups[m] && AllReady(u.axes, m) == s.groups[m].ready
    ensures LiveIsSafe(Refreshed(u)) && Refreshed(u).inhibit == s.inhibit
  {
  }

  /** Losing the preparation of an axis ends the live session of its group, so no live group is unready. */
  lemma UnpreparedIsSafe(s: Guard, axis: Name)
    requires Valid(s) && axis in s.axes
    ensures LiveIsSafe(AxisUnprepared(s, axis)) && AxisUnprepared(s, axis).inhibit == s.inhibit
  {
    var n := s.axes[axis].group;
    var t := AxisSet(s, axis, false);
    OtherGroupsKeepReadiness(s, t, axis);
    hide AllReady, Wired;
    if s.groups[n].Live() {
      RefreshedIsSafe(s, SetGroup(t, n, Revoked(s.groups[n])), n);
    } else {
      RefreshedIsSafe(s, t, n);
    }
  }

  lemma UnpreparedIsConsistent(s: Guard, axis: Name)
    requires Valid(s) && axis in s.axes
    ensures Consistent(AxisUnprepared(s, axis))
  {
    var n := s.axes[axis].group;
    var t := AxisSet(s, axis, false);
    if s.groups[n].Live() {
      RecordedIsConsistent(s, SetGroup(t, n, Revoked(s.groups[n])));
    } else {
      RecordedIsConsistent(s, t);
    }
  }

  lemma UnprepareKeepsValid(s: Guard, axis: Name, now: int)
    requires Valid(s) && axis in s.axes
    ensures Valid(Propagated(AxisUnprepared(s, axis), now))
  {
    UnpreparedIsSafe(s, axis);
    UnpreparedIsConsistent(s, axis);
    PropagatedIsValid(AxisUnprepared(s, axis), now);
  }

  /** Only the group of the reported axis can change its readiness. */
  lemma OtherGroupsKeepReadiness(s: Guard, t: Guard, axis: Name)
    requires ReadinessKnown(s) && axis in s.axes && t.axes.Keys == s.axes.Keys
    requires forall a | a in s.axes :: t.axes[a].group == s.axes[a].group && (a != axis ==> t.axes[a] == s.axes[a])
    ensures forall n | n in s.groups && n != s.axes[axis].group :: AllReady(t.axes, n) == s.groups[n].ready
    ensures forall n | n in s.groups && t.axes[axis].ready && s.groups[n].ready :: AllReady(t.axes, n)
  {
    forall n | n in s.groups && (n != s.axes[axis].group || (t.axes[axis].ready && s.groups[n].ready))
      ensures AllReady(t.axes, n) == s.groups[n].ready
    {
      assert s.groups[n].ready == AllReady(s.axes, n);
    }
  }

  lemma LatchedIsWired(s: Guard, id: EventId, e: Event)
    requires Wired(s) && WiredEvent(s, id, e)
    ensures Wired(Latch(s, id, e))
  {
    var t := Latch(s, id, e);
    if id in s.events { assert t == s; } else { assert t == s.(events := s.events[id := e]); }
    forall i | i in t.events ensures WiredEvent(t, i, t.events[i]) {
      assert WiredEvent(s, i, t.events[i]);
    }
  }

  lemma LatchedIsConsistent(s: Guard, id: EventId, e: Event)
    requires Consistent(s) && WiredEvent(s, id, e) && e.severity != GlobalStop
    ensures Consistent(Latch(s, id, e))
  {
    LatchedIsWired(s, id, e);
  }

  lemma ReportedIsConsistent(s: Guard, axis: Name, ready: bool, reason: Name, code: Name, category: Name, now: int)
    requires Consistent(s) && axis in s.axes
    ensures Consistent(AxisRecorded(s, axis, ready, reason, code, category, now))
  {
    var t := AxisSet(s, axis, ready);
    RecordedIsConsistent(s, t);
    if !ready {
      LatchedIsConsistent(Refreshed(t), Readiness(axis), ReadinessEvent(s, axis, reason, code, category, now));
    }
  }

  ghost predicate SafeBut(r: Guard, now: int) {
    forall m | m in r.groups && r.groups[m].Live() :: !r.inhibit && (!r.groups[m].ready ==> Blockers(r, m, now) != {})
  }

  ghost predicate Regrouped(s: Guard, r: Guard) {
    r.inhibit == s.inhibit && r.groups == map m | m in s.groups :: s.groups[m].(ready := AllReady(r.axes, m))
  }

  /** A live group that the loss of one axis makes unready is covered by the event of that loss. */
  lemma LossIsCovered(s: Guard, r: Guard, axis: Name, now: int)
    requires Valid(s) && Wired(r) && Regrouped(s, r) && axis in s.axes && r.axes.Keys == s.axes.Keys
    requires forall a | a in s.axes :: r.axes[a].group == s.axes[a].group && (a != axis ==> r.axes[a] == s.axes[a])
    requires !r.axes[axis].ready ==> Readiness(axis) in r.events
    ensures SafeBut(r, now)
  {
    OtherGroupsKeepReadiness(s, r, axis);
    if !r.axes[axis].ready { ReadinessCovers(r, axis, now); }
  }

  lemma ReportedIsCovered(s: Guard, axis: Name, ready: bool, reason: Name, code: Name, category: Name, now: int)
    requires Valid(s) && axis in s.axes && Wired(AxisRecorded(s, axis, ready, reason, code, category, now))
    ensures SafeBut(AxisRecorded(s, axis, ready, reason, code, category, now), now)
  {
    RecordedFields(s, axis, ready, reason, code, category, now);
    LossIsCovered(s, AxisRecorded(s, axis, ready, reason, code, category, now), axis, now);
  }

  lemma RecordedFields(s: Guard, axis: Name, ready: bool, reason: Name, code: Name, category: Name, now: int)
    requires axis in s.axes
    ensures var r := AxisRecorded(s, axis, ready, reason, code, category, now);
      && r.axes == AxisSet(s, axis, ready).axes && Regrouped(s, r) && (!ready ==> Readiness(axis) in r.events)
  {
    var t := AxisSet(s, axis, ready);
    assert t.groups == s.groups && t.inhibit == s.inhibit;
  }

  lemma ReportAxisKeepsValid(s: Guard, axis: Name, ready: bool, reason: Name, code: Name, category: Name, now: int)
    requires Valid(s) && axis in s.axes
    ensures Valid(Propagated(AxisRecorded(s, axis, ready, reason, code, category, now), now))
  {
    ReportedIsConsistent(s, axis, ready, reason, code, category, now);
    ReportedIsCovered(s, axis, ready, reason, code, category, now);
    PropagatedIsValid(AxisRecorded(s, axis, ready, reason, code, category, now), now);
  }

  lemma ReadinessCovers(r: Guard, axis: Name, now: int)
    requires Wired(r) && axis in r.axes && Readiness(axis) in r.events
    ensures Blockers(r, r.axes[axis].group, now) != {}
  {
    assert WiredEvent(r, Readiness(axis), r.events[Readiness(axis)]);
    SourceIsCovered(r, Readiness(axis), r.axes[axis].group, now);
  }

  lemma BackendLossIsConsistent(s: Guard, backend: Name, reason: Name, now: int)
    requires Consistent(s)
    ensures Consistent(BackendRecorded(s, backend, false, reason, now))
  {
    RecordedIsConsistent(s, BackendLost(s, backend));
    LatchedIsConsistent(Refreshed(BackendLost(s, backend)), Backend(backend),
                        Event(NONE, NONE, backend, TRANSPORT, NONE, reason, GroupStop, now));
  }

  lemma BackendLossIsCovered(s: Guard, r: Guard, backend: Name, now: int)
    requires Valid(s) && Wired(r) && ReadinessKnown(r) && Regrouped(s, r) && r.axes.Keys == s.axes.Keys && Backend(backend) in r.events
    requires forall a | a in s.axes :: r.axes[a].group == s.axes[a].group && (r.axes[a].ready != s.axes[a].ready ==> r.axes[a].backend == backend)
    ensures SafeBut(r, now)
  {
    forall m | m in r.groups && r.groups[m].Live() && !r.groups[m].ready ensures Blockers(r, m, now) != {} {
      BackendCovers(s, r, backend, m, now);
    }
  }

  lemma BackendLossCovers(s: Guard, backend: Name, reason: Name, now: int)
    requires Valid(s)
    ensures SafeBut(BackendRecorded(s, backend, false, reason, now), now)
  {
    BackendLossIsConsistent(s, backend, reason, now);
    BackendLossFields(s, backend, reason, now);
    BackendLossIsCovered(s, BackendRecorded(s, backend, false, reason, now), backend, now);
  }

  lemma BackendLossFields(s: Guard, backend: Name, reason: Name, now: int)
    ensures var r := BackendRecorded(s, backend, false, reason, now);
      && r.axes == BackendLost(s, backend).axes && Regrouped(s, r) && Backend(backend) in r.events
  {
    var l := BackendLost(s, backend);
    assert l.groups == s.groups && l.inhibit == s.inhibit;
  }

  lemma ReportBackendKeepsValid(s: Guard, backend: Name, ready: bool, reason: Name, now: int)
    requires Valid(s) && KnownBackend(s, backend)
    ensures Valid(Propagated(BackendRecorded(s, backend, ready, reason, now), now))
  {
    if ready {
      RecordedIsConsistent(s, s);
      PropagatedIsValid(Refreshed(s), now);
    } else {
      BackendLossIsConsistent(s, backend, reason, now);
      BackendLossCovers(s, backend, reason, now);
      PropagatedIsValid(BackendRecorded(s, backend, ready, reason, now), now);
    }
  }

  lemma BackendCovers(s: Guard, r: Guard, backend: Name, m: Name, now: int)
    requires ReadinessKnown(s) && Wired(r) && ReadinessKnown(r) && m in s.groups && m in r.groups
    requires s.groups[m].ready && !r.groups[m].ready && r.axes.Keys == s.axes.Keys && Backend(backend) in r.events
    requires forall a | a in s.axes :: r.axes[a].group == s.axes[a].group && (r.axes[a].ready != s.axes[a].ready ==> r.axes[a].backend == backend)
    ensures Blockers(r, m, now) != {}
  {
    assert AllReady(s.axes, m) && !AllReady(r.axes, m);
    var a :| a in r.axes && r.axes[a].group == m && !r.axes[a].ready;
    var e := r.events[Backend(backend)];
    assert WiredEvent(r, Backend(backend), e);
    assert Named(r, e) == {};
    SourceIsCovered(r, Backend(backend), m, now);
  }

  lemma AttributedIsWired(s: Guard, id: EventId, e: Event, now: int)
    requires WellAttributed(s, id, e)
    ensures WiredEvent(s, id, Stamped(Attributed(s, e), now))
  {
  }

  lemma EmergencyIsConsistent(t: Guard)
    requires Wired(t) && ReadinessKnown(t) && LegacyShut(t) && LeaseInRange(t)
    ensures Consistent(t.(inhibit := true, legacy := LegacyFaulted(t.legacy)))
  {
    SameEventsStayWired(t, t.(inhibit := true, legacy := LegacyFaulted(t.legacy)));
  }

  lemma PostedIsConsistent(s: Guard, id: EventId, e: Event, now: int)
    requires Consistent(s) && WellAttributed(s, id, e)
    ensures Consistent(Posted(s, id, e, now))
  {
    if id !in s.events {
      var f := Stamped(Attributed(s, e), now);
      AttributedIsWired(s, id, e, now);
      hide WiredEvent;
      if e.severity == GlobalStop {
        LatchedIsWired(s, id, f);
        EmergencyIsConsistent(Latch(s, id, f));
      } else {
        LatchedIsConsistent(s, id, f);
      }
    }
  }

  lemma PostKeepsValid(s: Guard, id: EventId, e: Event, now: int)
    requires Valid(s) && PostAccepts(s, id, e, now)
    ensures Valid(Propagated(Posted(s, id, e, now), now))
  {
    hide Posted, Consistent, WellAttributed;
    PostedIsConsistent(s, id, e, now);
    PostedInhibits(s, id, e, now);
    var r := Posted(s, id, e, now);
    forall n | n in r.groups && r.groups[n].Live() && r.inhibit ensures Blockers(r, n, now) != {} {
      SourceIsCovered(r, id, n, now);
    }
    PropagatedIsValid(r, now);
  }

  /** Posting touches no group, and inhibits only with an emergency. */
  lemma PostedInhibits(s: Guard, id: EventId, e: Event, now: int)
    ensures var r := Posted(s, id, e, now);
      r.groups == s.groups && (r.inhibit && !s.inhibit ==> id in r.events && r.events[id].severity == GlobalStop)
  {
    hide LegacyFaulted;
    if id !in s.events { assert Stamped(Attributed(s, e), now).severity == e.severity; }
  }

  lemma FewerEventsKeepValid(s: Guard, gone: set<EventId>)
    requires Valid(s)
    ensures Valid(s.(events := s.events - gone))
  {
    var t := s.(events := s.events - gone);
    forall id | id in t.events ensures WiredEvent(t, id, t.events[id]) {
      assert WiredEvent(s, id, s.events[id]);
    }
  }

  lemma SameEventsStayWired(s: Guard, t: Guard)
    requires Wired(s) && t.events == s.events && t.groups.Keys == s.groups.Keys && t.axes == s.axes && t.rules == s.rules
    ensures Wired(t)
  {
    EventsStayWired(s, t);
  }

  lemma SetGroupKeepsValid(s: Guard, n: Name, g: Group)
    requires Valid(s) && n in s.groups
    requires g.ready == s.groups[n].ready
    requires g.Live() ==> g.ready && !s.inhibit
    ensures Valid(SetGroup(s, n, g))
  {
    SameEventsStayWired(s, SetGroup(s, n, g));
    assert s.groups != map[];
  }

  lemma PropagateKeepsValid(s: Guard, now: int)
    requires Valid(s)
    ensures Valid(Propagated(s, now)) && Valid(Step(s, Observe, now))
  {
    PropagatedIsValid(s, now);
  }

  lemma RevokeAllKeepsValid(s: Guard, t: Guard)
    requires Consistent(s)
    requires t == RevokeAll(s).(inhibit := true, legacy := t.legacy, ownerExpired := t.ownerExpired)
    requires t.legacy.Live() ==> s.legacy.Live()
    ensures Valid(t)
  {
    assert t.groups.Keys == s.groups.Keys;
    SameEventsStayWired(s, t);
  }

  lemma OwnerCheckKeepsValid(s: Guard, now: int)
    requires Valid(s)
    ensures Valid(OwnerChecked(s, now)) && Valid(Step(s, CheckInhibit, now))
  {
    if OwnerLapsed(s, now) {
      RevokeAllKeepsValid(s, OwnerChecked(s, now));
    }
  }

  lemma LegacyKeepsValid(s: Guard, t: Guard)
    requires Valid(s) && t == s.(legacy := t.legacy) && (t.legacy.Live() ==> s.legacy.Live())
    ensures Valid(t)
  {
    SameEventsStayWired(s, t);
  }

  lemma LegacyReportKeepsValid(s: Guard, component: Name, ready: bool, now: int)
    requires Valid(s)
    ensures Valid(Step(s, LegacyReport(component, ready), now))
  {
    var t := ComponentSet(s, component, ready);
    LegacyKeepsValid(s, t);
    if !ready {
      LiveStopKeepsValid(t);
      LegacyKeepsValid(LiveStopped(t), LegacyDropped(LiveStopped(t)));
    }
  }

  lemma LiveStopKeepsValid(s: Guard)
    requires Valid(s)
    ensures Valid(LiveStopped(s))
  {
    if AnyLive(s) { RevokeAllKeepsValid(s, LiveStopped(s)); }
  }

  lemma LegacyFaultKeepsValid(s: Guard, now: int)
    requires Valid(s)
    ensures Valid(Step(s, LegacyFault, now))
  {
    if s.groups != map[] {
      RevokeAllKeepsValid(s, LegacyFaultedAll(s));
    } else {
      EventsStayWired(s, LegacyFaultedAll(s));
    }
  }

  lemma LegacyHaltKeepsValid(s: Guard, now: int)
    requires Valid(s)
    ensures Valid(Step(s, LegacyHalt, now))
  {
    var t := LegacyHalted(s);
    assert t.groups.Keys == s.groups.Keys;
    EventsStayWired(s, t);
  }

  lemma WarningKeepsValid(s: Guard, axis: Name, active: bool, reason: Name, now: int)
    requires Valid(s) && axis in s.axes
    ensures Valid(WarningSet(s, axis, active, reason, now))
  {
    if active {
      LatchedIsWired(s, Warning(axis),
        Event(axis, s.axes[axis].group, s.axes[axis].backend, FEEDBACK_WARNING, NONE, reason, Warn, now));
    } else {
      FewerEventsKeepValid(s, {Warning(axis)});
    }
  }

  lemma RenewKeepsValid(s: Guard, name: Name, c: Condition, now: int)
    requires Valid(s)
    ensures Valid(Renewed(s, name, c, now))
  {
    PropagateKeepsValid(s, now);
    var t := Propagated(s, now);
    EventsStayWired(t, t.(conditions := t.conditions[name := c]));
    PropagateKeepsValid(t.(conditions := t.conditions[name := c]), now);
  }

  lemma AcknowledgeKeepsValid(s: Guard, id: EventId, now: int)
    requires Valid(s)
    ensures Valid(Acknowledged(s, id, now)) && Valid(Step(s, Acknowledge(id), now))
  {
    PropagateKeepsValid(s, now);
    var t := Propagated(s, now);
    FewerEventsKeepValid(t, {id});
    PropagateKeepsValid(t.(events := t.events - {id}), now);
  }

  lemma ArmRunKeepValid(s: Guard, n: Name, now: int)
    requires Valid(s)
    ensures Valid(Step(s, Arm(n), now)) && Valid(Step(s, Run(n), now))
  {
    PropagateKeepsValid(s, now);
    var t := Propagated(s, now);
    if ArmAccepts(t, n, now) { SetGroupKeepsValid(t, n, ArmedGroup(t.groups[n])); }
    if RunAccepts(t, n, now) { SetGroupKeepsValid(t, n, t.groups[n].(state := Running)); }
  }

  lemma LeaseKeepsValid(s: Guard, lifetime: int, issued: int, now: int)
    requires Valid(s)
    ensures Valid(Step(s, RenewOwner(lifetime, issued), now))
  {
    OwnerCheckKeepsValid(s, now);
    var t := OwnerChecked(s, now);
    if LeaseAccepts(lifetime, issued, now) {
      var u := LeaseRenewed(t, lifetime, issued, now);
      assert u == t.(ownerDeadline := u.ownerDeadline) && 0 <= u.ownerDeadline <= INT64_MAX;
      SameEventsStayWired(t, u);
    }
  }

  lemma FlagsKeepValid(s: Guard, t: Guard)
    requires Valid(s) && t.events == s.events && t.groups == s.groups && t.axes == s.axes && t.rules == s.rules
    requires t.ownerDeadline == s.ownerDeadline
    requires t.inhibit == s.inhibit && t.ownerExpired == s.ownerExpired
    requires s.groups != map[] ==> t.legacy == s.legacy && forall w | w in t.writers :: t.writers[w]
    ensures Valid(t)
  {
    EventsStayWired(s, t);
  }

  lemma ResetKeepsValid(s: Guard, now: int)
    requires Valid(s)
    ensures Valid(Step(s, ResetStop, now)) && Valid(Step(s, RequireOwner, now))
  {
    FlagsKeepValid(s, OwnerDemanded(s));
    ResetIsValid(s, now);
    hide Valid, ResetTried, OwnerDemanded;
  }

  lemma ResetIsValid(s: Guard, now: int)
    requires Valid(s)
    ensures Valid(ResetTried(s, now))
  {
    if ResetAccepts(s, now) { EventsStayWired(s, ResetTried(s, now)); }
  }

  lemma WritersKeepValid(s: Guard, backend: Name, grouped: bool, now: int)
    requires Valid(s)
    ensures Valid(Step(s, RegisterWriter(backend, grouped), now))
  {
    if WriterAccepts(s, backend, grouped) { FlagsKeepValid(s, WriterTried(s, backend, grouped)); }
  }

  lemma LegacyArmKeepsValid(s: Guard, now: int)
    requires Valid(s)
    ensures Valid(Step(s, LegacyArm, now)) && Valid(Step(s, LegacyRun, now))
  {
    LegacyArmIsValid(s);
    LegacyRunIsValid(s);
    hide Valid, LegacyArmTried, LegacyRunTried;
  }

  lemma LegacyArmIsValid(s: Guard)
    requires Valid(s)
    ensures Valid(LegacyArmTried(s))
  {
    if LegacyArmAccepts(s) { FlagsKeepValid(s, LegacyArmTried(s)); }
  }

  lemma LegacyRunIsValid(s: Guard)
    requires Valid(s)
    ensures Valid(LegacyRunTried(s))
  {
    if s.legacy.state == State.Armed { FlagsKeepValid(s, LegacyRunTried(s)); }
  }

  lemma ReportsKeepValid(s: Guard, c: Call, now: int)
    requires Valid(s) && c.Reports()
    ensures Valid(Step(s, c, now))
  {
    assert Step(s, c, now) == Reported(s, c, now);
    if ReportAccepts(s, c, now) {
      assert Step(s, c, now) == Propagated(Recorded(s, c, now), now);
      hide Step, Valid, Propagated, Reported;
      match c
      case UnprepareAxis(axis) => UnprepareKeepsValid(s, axis, now);
      case ReportAxis(axis, ready, reason, code, category) => ReportAxisKeepsValid(s, axis, ready, reason, code, category, now);
      case ReportBackend(backend, ready, reason) => ReportBackendKeepsValid(s, backend, ready, reason, now);
      case Post(id, e) => PostKeepsValid(s, id, e, now);
    }
  }

  lemma HaltKeepsValid(s: Guard, n: Name, now: int)
    requires Valid(s)
    ensures Valid(Step(s, Halt(n), now)) && Valid(Step(s, Invalidate(n), now))
  {
    if n in s.groups {
      SetGroupKeepsValid(s, n, HaltedGroup(s.groups[n]));
      SetGroupKeepsValid(s, n, InvalidatedGroup(s.groups[n]));
    }
    hide Valid;
  }

  lemma StopAllKeepsValid(s: Guard, now: int)
    requires Valid(s)
    ensures Valid(Step(s, StopAll, now))
  {
    RevokeAllKeepsValid(s, StoppedAll(s));
  }

  lemma SetWarningKeepsValid(s: Guard, axis: Name, active: bool, reason: Name, now: int)
    requires Valid(s)
    ensures Valid(Step(s, SetWarning(axis, active, reason), now))
  {
    if axis in s.axes { WarningKeepsValid(s, axis, active, reason, now); }
    hide Valid, WarningSet;
  }

  lemma RenewalKeepsValid(s: Guard, name: Name, value: Evidence, source: Name, until: int, now: int)
    requires Valid(s)
    ensures Valid(Step(s, Renew(name, value, source, until), now))
  {
    RenewKeepsValid(s, name, Condition(value, source, until), now);
    hide Valid, Renewed, RenewAccepts;
  }

  lemma ConfigurationKeepsValid(s: Guard, axes: map<Name, Axis>, rules: seq<Association>, version: Name, now: int)
    requires Valid(s)
    ensures Valid(Step(s, Configure(axes, rules, version), now))
  {
    if ConfigureAccepts(s, axes, rules, version) { ConfigureKeepsValid(s, axes, rules, version); }
    hide Valid, Configured, ConfigureAccepts;
  }

  /** No call breaks the invariant, whether it is accepted or refused. */
  lemma StepKeepsValid(s: Guard, c: Call, now: int)
    requires Valid(s)
    ensures Valid(Step(s, c, now))
  {
    hide Step, Valid;
    match c
    case Configure(axes, rules, version) => ConfigurationKeepsValid(s, axes, rules, version, now);
    case LegacyReport(component, ready) => LegacyReportKeepsValid(s, component, ready, now);
    case LegacyFault => LegacyFaultKeepsValid(s, now);
    case LegacyHalt => LegacyHaltKeepsValid(s, now);
    case SetWarning(axis, active, reason) => SetWarningKeepsValid(s, axis, active, reason, now);
    case Renew(name, value, source, until) => RenewalKeepsValid(s, name, value, source, until, now);
    case ResetStop => ResetKeepsValid(s, now);
    case RequireOwner => ResetKeepsValid(s, now);
    case RegisterWriter(backend, grouped) => WritersKeepValid(s, backend, grouped, now);
    case LegacyArm => LegacyArmKeepsValid(s, now);
    case LegacyRun => LegacyArmKeepsValid(s, now);
    case UnprepareAxis(_) => ReportsKeepValid(s, c, now);
    case ReportAxis(_, _, _, _, _) => ReportsKeepValid(s, c, now);
    case ReportBackend(_, _, _) => ReportsKeepValid(s, c, now);
    case Post(_, _) => ReportsKeepValid(s, c, now);
    case Acknowledge(id) => AcknowledgeKeepsValid(s, id, now);
    case Arm(n) => ArmRunKeepValid(s, n, now);
    case Run(n) => ArmRunKeepValid(s, n, now);
    case Halt(n) => HaltKeepsValid(s, n, now);
    case Invalidate(n) => HaltKeepsValid(s, n, now);
    case Observe => PropagateKeepsValid(s, now);
    case CheckInhibit => OwnerCheckKeepsValid(s, now);
    case StopAll => StopAllKeepsValid(s, now);
    case RenewOwner(lifetime, issued) => LeaseKeepsValid(s, lifetime, issued, now);
  }
}
