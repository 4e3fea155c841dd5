/** What every call makes of every table of the guard, said in fields, and what that means over whole runs:
    who can take away an event, an inhibit, a piece of evidence or the unreadiness of an axis. */
module GuardTables {
  import opened Closure
  import opened Guard
  import opened GuardInvariant
  import opened GuardSessions
  import opened GuardSafety
  import opened GuardFields

  // ---- The tables after every call ----

  predicate HasAxis(axes: map<Name, Axis>, n: Name) {
    exists a | a in axes :: axes[a].group == n
  }

  /** A configuration is accepted while every writer is grouped, nothing is live and nothing is latched; every
      axis has an owner among the four groups and a backend, every group has an axis, and every rule names two
      different groups, a category, a condition and its source, no two rules the same four. */
  predicate MayConfigure(s: Guard, axes: map<Name, Axis>, rules: seq<Association>, version: Name) {
    && version != NONE && axes != map[] && s.events == map[]
    && (forall w | w in s.writers :: s.writers[w])
    && s.legacy.state != Armed && s.legacy.state != Running
    && (forall n | n in s.groups :: s.groups[n].state != Armed && s.groups[n].state != Running)
    && (forall a | a in axes :: a != NONE && axes[a].group in {ARM, FLIPPERS, BASE, GRIPPER} && axes[a].backend != NONE)
    && HasAxis(axes, ARM) && HasAxis(axes, FLIPPERS) && HasAxis(axes, BASE) && HasAxis(axes, GRIPPER)
    && (forall r | r in rules :: r.sourceGroup in {ARM, FLIPPERS, BASE, GRIPPER} && r.dependentGroup in {ARM, FLIPPERS, BASE, GRIPPER})
    && (forall r | r in rules :: r.sourceGroup != r.dependentGroup && r.category != NONE && r.condition != NONE && r.source != NONE)
    && (forall i, j | 0 <= i < j < |rules| ::
          || rules[i].sourceGroup != rules[j].sourceGroup || rules[i].category != rules[j].category
          || rules[i].dependentGroup != rules[j].dependentGroup || rules[i].condition != rules[j].condition)
  }

  /** Evidence is accepted from a source that some rule names for it, and only if it has not run out already. */
  predicate MayRenew(s: Guard, name: Name, value: Evidence, source: Name, until: int, now: int) {
    && name != NONE && source != NONE
    && (value == Satisfied || value == Unsatisfied ==> now < until)
    && exists r | r in s.rules :: r.condition == name && r.source == source
  }

  /** The group and the backend of an event that names an axis are those of the axis. */
  function Owned(s: Guard, e: Event): Event {
    if e.axis != NONE && e.axis in s.axes then e.(group := s.axes[e.axis].group, backend := s.axes[e.axis].backend) else e
  }

  /** A client event is accepted if it names what it is, when, and a source that exists and belongs together,
      if a group stop speaks of some group, and if it is not another event under a name in use. */
  predicate MayPost(s: Guard, id: EventId, e: Event) {
    && id.Client? && id.name != NONE && e.reason != NONE && e.timestamp >= 0
    && (e.axis != NONE ==> e.axis in s.axes)
    && (e.axis != NONE && e.group != NONE ==> e.group == s.axes[e.axis].group)
    && (e.axis != NONE && e.backend != NONE ==> e.backend == s.axes[e.axis].backend)
    && (e.axis == NONE && e.group != NONE ==> e.group in s.groups)
    && (e.severity == GroupStop && e.axis == NONE && e.group == NONE ==> exists a | a in s.axes :: s.axes[a].backend == e.backend)
    && (id in s.events ==>
          var o, l := Owned(s, e), s.events[id];
          && l.axis == o.axis && l.group == o.group && l.backend == o.backend
          && l.category == o.category && l.code == o.code && l.severity == o.severity)
  }

  /** A stop is acknowledged only while the axes it speaks of are ready: its own axis, or else those of its
      group, or else those of its backend. */
  predicate MayAcknowledge(s: Guard, id: EventId) {
    && id in s.events
    && (s.events[id].severity == GroupStop || s.events[id].severity == GlobalStop ==>
          forall a | a in s.axes && !s.axes[a].ready ::
            && (s.events[id].axis != NONE ==> a != s.events[id].axis)
            && (s.events[id].axis == NONE && s.events[id].group != NONE ==> s.axes[a].group != s.events[id].group)
            && (s.events[id].axis == NONE && s.events[id].group == NONE ==> s.axes[a].backend != s.events[id].backend))
  }

  /** The issue time of a heartbeat: now, if it carries none. */
  function IssuedAt(issued: int, now: int): int { if issued == 0 then now else issued }

  /** A heartbeat counts if it is not from the future, has not run out, and its end fits 64 bits. */
  predicate MayExtend(lifetime: int, issued: int, now: int) {
    var at := IssuedAt(issued, now);
    lifetime > 0 && 0 <= at <= now < at + lifetime <= 0x7fff_ffff_ffff_ffff
  }

  function Latched(events: map<EventId, Event>, id: EventId, e: Event): map<EventId, Event> {
    if id in events then events else events[id := e]
  }

  function EvidenceAfter(s: Guard, c: Call, now: int): map<Name, Condition> {
    match c
    case Configure(axes, rules, version) => if MayConfigure(s, axes, rules, version) then map[] else s.conditions
    case Renew(name, value, source, until) =>
      if MayRenew(s, name, value, source, until, now) then s.conditions[name := Condition(value, source, until)] else s.conditions
    case _ => s.conditions
  }

  function RulesAfter(s: Guard, c: Call): seq<Association> {
    if c.Configure? && MayConfigure(s, c.axes, c.rules, c.version) then c.rules else s.rules
  }

  /** The entries of the event table: unready axes and backends and accepted clients latch theirs once, and
      only an accepted acknowledgement, or the end of a warning, takes one away. */
  function EventsAfter(s: Guard, c: Call, now: int): map<EventId, Event> {
    match c
    case SetWarning(axis, active, reason) =>
      if axis !in s.axes then s.events
      else if !active then s.events - {Warning(axis)}
      else Latched(s.events, Warning(axis),
                   Event(axis, s.axes[axis].group, s.axes[axis].backend, FEEDBACK_WARNING, NONE, reason, Warn, now))
    case ReportAxis(axis, ready, reason, code, category) =>
      if axis !in s.axes || ready then s.events
      else Latched(s.events, Readiness(axis),
                   Event(axis, s.axes[axis].group, s.axes[axis].backend, category, code, reason, GroupStop, now))
    case ReportBackend(backend, ready, reason) =>
      if ready || !(exists a | a in s.axes :: s.axes[a].backend == backend) then s.events
      else Latched(s.events, Backend(backend), Event(NONE, NONE, backend, TRANSPORT, NONE, reason, GroupStop, now))
    case Post(id, e) =>
      if !MayPost(s, id, e) then s.events
      else Latched(s.events, id, Owned(s, e).(timestamp := if e.timestamp == 0 then now else e.timestamp))
    case Acknowledge(id) => if MayAcknowledge(s, id) then s.events - {id} else s.events
    case _ => s.events
  }

  /** Readiness is what was reported last of the axis; a lost backend takes that of all its axes, a restored one
      gives none back. */
  function AxesAfter(s: Guard, c: Call): map<Name, Axis> {
    match c
    case Configure(axes, rules, version) =>
      if MayConfigure(s, axes, rules, version) then map a | a in axes :: Axis(axes[a].group, axes[a].backend, false) else s.axes
    case UnprepareAxis(axis) =>
      if axis in s.axes then s.axes[axis := Axis(s.axes[axis].group, s.axes[axis].backend, false)] else s.axes
    case ReportAxis(axis, ready, _, _, _) =>
      if axis in s.axes then s.axes[axis := Axis(s.axes[axis].group, s.axes[axis].backend, ready)] else s.axes
    case ReportBackend(backend, ready, _) =>
      map a | a in s.axes :: Axis(s.axes[a].group, s.axes[a].backend, s.axes[a].ready && (ready || s.axes[a].backend != backend))
    case _ => s.axes
  }

  ghost predicate TablesAfter(s: Guard, c: Call, now: int, t: Guard) {
    && t.conditions == EvidenceAfter(s, c, now) && t.rules == RulesAfter(s, c)
    && t.events == EventsAfter(s, c, now) && t.axes == AxesAfter(s, c)
  }

  /** What every call makes of the tables of evidence, rules, events and axes. */
  lemma TablesInFields(s: Guard, c: Call, now: int)
    requires Valid(s)
    ensures TablesAfter(s, c, now, Step(s, c, now))
  {
    hide Step, Valid, TablesAfter;
    match c
    case Configure(axes, rules, version) => ConfigureTables(s, axes, rules, version, now);
    case UnprepareAxis(axis) => UnprepareTables(s, axis, now);
    case SetWarning(axis, active, reason) => WarningTables(s, axis, active, reason, now);
    case ReportAxis(axis, ready, reason, code, category) => ReportTables(s, axis, ready, reason, code, category, now);
    case ReportBackend(backend, ready, reason) => BackendTables(s, backend, ready, reason, now);
    case Renew(name, value, source, until) => RenewTables(s, name, value, source, until, now);
    case Post(id, e) => PostTables(s, id, e, now);
    case Acknowledge(id) => AcknowledgeTables(s, id, now);
    case _ => OtherTables(s, c, now);
  }

  ghost predicate SameTables(s: Guard, t: Guard) {
    t.conditions == s.conditions && t.rules == s.rules && t.events == s.events && t.axes == s.axes
  }

  lemma PropagationTables(s: Guard, now: int)
    ensures SameTables(s, Propagated(s, now)) && SameTables(s, OwnerChecked(s, now))
  {
    PropagatedIs(s, now);
  }

  lemma ConfigureTables(s: Guard, axes: map<Name, Axis>, rules: seq<Association>, version: Name, now: int)
    ensures TablesAfter(s, Configure(axes, rules, version), now, Step(s, Configure(axes, rules, version), now))
  {
    ConfigureInFields(s, axes, rules, version);
    hide MayConfigure, ConfigureAccepts, RestartedGroups;
    var t := Configured(s, axes, rules);
    assert t.axes == map a | a in axes :: Axis(axes[a].group, axes[a].backend, false);
  }

  lemma ConfigureInFields(s: Guard, axes: map<Name, Axis>, rules: seq<Association>, version: Name)
    ensures ConfigureAccepts(s, axes, rules, version) <==> MayConfigure(s, axes, rules, version)
  {
    RulesInFields(rules);
    OwnersInFields(axes);
    assert AnyLive(s) <==> !(forall n | n in s.groups :: s.groups[n].state != Armed && s.groups[n].state != Running);
    hide WellRuled, WellOwned, HasAxis, AnyLive;
  }

  lemma OwnersInFields(axes: map<Name, Axis>)
    ensures WellOwned(axes) <==>
      && (forall a | a in axes :: a != NONE && axes[a].group in {ARM, FLIPPERS, BASE, GRIPPER} && axes[a].backend != NONE)
      && HasAxis(axes, ARM) && HasAxis(axes, FLIPPERS) && HasAxis(axes, BASE) && HasAxis(axes, GRIPPER)
  {
    forall n ensures n in GROUP_NAMES <==> n in {ARM, FLIPPERS, BASE, GRIPPER} {}
    assert ARM in GROUP_NAMES && FLIPPERS in GROUP_NAMES && BASE in GROUP_NAMES && GRIPPER in GROUP_NAMES;
  }

  lemma RulesInFields(rules: seq<Association>)
    ensures WellRuled(rules) <==>
      && (forall r | r in rules :: r.sourceGroup in {ARM, FLIPPERS, BASE, GRIPPER} && r.dependentGroup in {ARM, FLIPPERS, BASE, GRIPPER})
      && (forall r | r in rules :: r.sourceGroup != r.dependentGroup && r.category != NONE && r.condition != NONE && r.source != NONE)
      && (forall i, j | 0 <= i < j < |rules| ::
            || rules[i].sourceGroup != rules[j].sourceGroup || rules[i].category != rules[j].category
            || rules[i].dependentGroup != rules[j].dependentGroup || rules[i].condition != rules[j].condition)
  {
  }

  lemma ReportSteps(s: Guard, c: Call, now: int)
    requires c.Reports()
    ensures ReportAccepts(s, c, now) ==> SameTables(Recorded(s, c, now), Step(s, c, now))
    ensures !ReportAccepts(s, c, now) ==> Step(s, c, now) == s
  {
    assert Step(s, c, now) == Reported(s, c, now);
    hide Step, Propagated;
    if ReportAccepts(s, c, now) { PropagationTables(Recorded(s, c, now), now); }
  }

  lemma UnprepareTables(s: Guard, axis: Name, now: int)
    ensures TablesAfter(s, UnprepareAxis(axis), now, Step(s, UnprepareAxis(axis), now))
  {
    hide Step;
    ReportSteps(s, UnprepareAxis(axis), now);
    if axis in s.axes {
      UnpreparedTables(s, axis);
      hide AxisUnprepared;
    }
  }

  lemma UnpreparedTables(s: Guard, axis: Name)
    requires axis in s.axes
    ensures SameTables(AxisSet(s, axis, false), AxisUnprepared(s, axis))
  {
    hide Revoked, AllReady;
  }

  lemma WarningTables(s: Guard, axis: Name, active: bool, reason: Name, now: int)
    ensures TablesAfter(s, SetWarning(axis, active, reason), now, Step(s, SetWarning(axis, active, reason), now))
  {
    var c := SetWarning(axis, active, reason);
    assert Step(s, c, now) == WarningTried(s, axis, active, reason, now);
    hide Step;
    if axis !in s.axes {
      assert WarningTried(s, axis, active, reason, now) == s;
    } else if active {
      hide Latched, Latch;
      WarningLatches(s, axis, reason, now);
    } else {
      assert WarningTried(s, axis, active, reason, now) == s.(events := s.events - {Warning(axis)});
    }
  }

  lemma WarningLatches(s: Guard, axis: Name, reason: Name, now: int)
    requires axis in s.axes
    ensures var e := Event(axis, s.axes[axis].group, s.axes[axis].backend, FEEDBACK_WARNING, NONE, reason, Warn, now);
      WarningSet(s, axis, true, reason, now) == s.(events := Latched(s.events, Warning(axis), e))
  {
  }

  lemma ReportTables(s: Guard, axis: Name, ready: bool, reason: Name, code: Name, category: Name, now: int)
    ensures var c := ReportAxis(axis, ready, reason, code, category); TablesAfter(s, c, now, Step(s, c, now))
  {
    hide Step;
    ReportSteps(s, ReportAxis(axis, ready, reason, code, category), now);
  }

  lemma BackendTables(s: Guard, backend: Name, ready: bool, reason: Name, now: int)
    ensures TablesAfter(s, ReportBackend(backend, ready, reason), now, Step(s, ReportBackend(backend, ready, reason), now))
  {
    BackendAxes(s, backend, ready, reason, now);
    BackendEvents(s, backend, ready, reason, now);
    hide Step, AxesAfter, BackendRecorded;
    ReportSteps(s, ReportBackend(backend, ready, reason), now);
  }

  lemma BackendEvents(s: Guard, backend: Name, ready: bool, reason: Name, now: int)
    ensures var t := BackendRecorded(s, backend, ready, reason, now);
      && t.conditions == s.conditions && t.rules == s.rules
      && t.events == if ready then s.events
                     else Latched(s.events, Backend(backend), Event(NONE, NONE, backend, TRANSPORT, NONE, reason, GroupStop, now))
  {
  }

  lemma BackendAxes(s: Guard, backend: Name, ready: bool, reason: Name, now: int)
    ensures AxesAfter(s, ReportBackend(backend, ready, reason)) ==
      if KnownBackend(s, backend) then BackendRecorded(s, backend, ready, reason, now).axes else s.axes
  {
    var axes := AxesAfter(s, ReportBackend(backend, ready, reason));
    var other := if KnownBackend(s, backend) then BackendRecorded(s, backend, ready, reason, now).axes else s.axes;
    assert axes.Keys == other.Keys;
    assert forall a | a in axes :: axes[a] == other[a];
  }

  lemma RenewTables(s: Guard, name: Name, value: Evidence, source: Name, until: int, now: int)
    ensures TablesAfter(s, Renew(name, value, source, until), now, Step(s, Renew(name, value, source, until), now))
  {
    RenewInFields(s, name, value, source, until, now);
    assert Step(s, Renew(name, value, source, until), now) == RenewTried(s, name, value, source, until, now);
    hide Step, Propagated, RenewAccepts, MayRenew;
    PropagationTables(s, now);
    var t := Propagated(s, now);
    PropagationTables(t.(conditions := t.conditions[name := Condition(value, source, until)]), now);
  }

  lemma RenewInFields(s: Guard, name: Name, value: Evidence, source: Name, until: int, now: int)
    ensures RenewAccepts(s, name, value, source, until, now) <==> MayRenew(s, name, value, source, until, now)
  {
  }

  lemma PostTables(s: Guard, id: EventId, e: Event, now: int)
    requires Valid(s)
    ensures TablesAfter(s, Post(id, e), now, Step(s, Post(id, e), now))
  {
    PostInFields(s, id, e, now);
    PostedTables(s, id, e, now);
    hide Step, Valid, PostAccepts, MayPost, Posted;
    ReportSteps(s, Post(id, e), now);
  }

  lemma PostedTables(s: Guard, id: EventId, e: Event, now: int)
    ensures var t := Posted(s, id, e, now);
      && t.axes == s.axes && t.rules == s.rules && t.conditions == s.conditions
      && t.events == Latched(s.events, id, Owned(s, e).(timestamp := if e.timestamp == 0 then now else e.timestamp))
  {
    var o := Stamped(Attributed(s, e), now);
    assert o == Owned(s, e).(timestamp := if e.timestamp == 0 then now else e.timestamp);
    hide Attributed, Owned, Stamped, LegacyFaulted;
    if id in s.events {
      assert Posted(s, id, e, now) == s;
    } else {
      var t := Latch(s, id, o);
      assert SameTables(t, Posted(s, id, e, now));
    }
  }

  lemma PostInFields(s: Guard, id: EventId, e: Event, now: int)
    requires Valid(s)
    ensures PostAccepts(s, id, e, now) <==> MayPost(s, id, e)
  {
    var o := Attributed(s, e);
    assert o == Owned(s, e);
    assert e.axis in s.axes ==> s.axes[e.axis].group in s.groups;
    hide Valid;
    ScopeIsEmptyExactly(s, o, now);
    hide Scope, Sources;
    if e.severity == GroupStop && (e.axis != NONE ==> e.axis in s.axes) { StopSpeaksExactly(s, o); }
  }

  lemma StopSpeaksExactly(s: Guard, e: Event)
    requires e.severity == GroupStop && (e.axis != NONE ==> e.axis in s.axes)
    ensures Sources(s, e) != {} <==> e.axis != NONE || e.group != NONE || exists a | a in s.axes :: s.axes[a].backend == e.backend
  {
    if a :| a in s.axes && s.axes[a].backend == e.backend {
      if Named(s, e) == {} { assert s.axes[a].group in Sources(s, e); }
    }
    if e.axis == NONE && e.group == NONE && Sources(s, e) != {} { var g :| g in Sources(s, e); }
  }

  lemma ScopeIsEmptyExactly(s: Guard, e: Event, now: int)
    ensures Scope(s, e, now) == {} <==> Sources(s, e) == {}
  {
    LeastBounds(Sources(s, e), Edges(s, e, now));
    NoSources(Edges(s, e, now));
  }

  lemma AcknowledgeTables(s: Guard, id: EventId, now: int)
    ensures TablesAfter(s, Acknowledge(id), now, Step(s, Acknowledge(id), now))
  {
    AcknowledgeInFields(s, id);
    PropagationTables(s, now);
    var t := Propagated(s, now);
    assert AcknowledgeAccepts(t, id) == AcknowledgeAccepts(s, id);
    assert Step(s, Acknowledge(id), now) == Acknowledged(s, id, now);
    hide Step, Propagated, AcknowledgeAccepts, MayAcknowledge;
    PropagationTables(t.(events := t.events - {id}), now);
  }

  lemma AcknowledgeInFields(s: Guard, id: EventId)
    ensures AcknowledgeAccepts(s, id) <==> MayAcknowledge(s, id)
  {
  }

  lemma OtherTables(s: Guard, c: Call, now: int)
    requires !c.Configure? && !c.Reports() && !c.SetWarning? && !c.Renew? && !c.Acknowledge?
    ensures TablesAfter(s, c, now, Step(s, c, now))
  {
    if c.LegacyReport? {
      LegacyReportTables(s, c.component, c.ready, now);
    } else {
      OwnTables(s, c, now);
    }
    hide Step;
  }

  lemma OwnTables(s: Guard, c: Call, now: int)
    requires !c.Configure? && !c.Reports() && !c.SetWarning? && !c.Renew? && !c.Acknowledge? && !c.LegacyReport?
    ensures SameTables(s, Step(s, c, now))
  {
    hide Step;
    if c.Arm? || c.Run? || c.Observe? || c.CheckInhibit? || c.RenewOwner? {
      LookingTables(s, c, now);
    } else {
      PlainTables(s, c, now);
    }
  }

  lemma LookingTables(s: Guard, c: Call, now: int)
    requires c.Arm? || c.Run? || c.Observe? || c.CheckInhibit? || c.RenewOwner?
    ensures SameTables(s, Step(s, c, now))
  {
    hide Propagated, OwnerChecked, ArmAccepts, RunAccepts, LeaseAccepts;
    PropagationTables(s, now);
  }

  lemma PlainTables(s: Guard, c: Call, now: int)
    requires c.Halt? || c.Invalidate? || c.StopAll? || c.ResetStop? || c.RequireOwner? || c.RegisterWriter? || c.LegacyFault?
             || c.LegacyArm? || c.LegacyRun? || c.LegacyHalt?
    ensures SameTables(s, Step(s, c, now))
  {
    hide Step;
    match c
    case Halt(n) => HaltTables(s, n, now);
    case Invalidate(n) => HaltTables(s, n, now);
    case StopAll => StopTables(s, now);
    case LegacyFault => StopTables(s, now);
    case LegacyHalt => StopTables(s, now);
    case ResetStop => ResetTables(s, now);
    case RequireOwner => ResetTables(s, now);
    case RegisterWriter(backend, grouped) => WriterStep(s, backend, grouped, now);
    case LegacyArm => LegacyArmTables(s, now);
    case LegacyRun => LegacyRunTables(s, now);
  }

  lemma HaltTables(s: Guard, n: Name, now: int)
    ensures SameTables(s, Step(s, Halt(n), now)) && SameTables(s, Step(s, Invalidate(n), now))
  {
    assert SameTables(s, HaltTried(s, n)) && SameTables(s, InvalidateTried(s, n));
    hide HaltTried, InvalidateTried;
  }

  lemma StopTables(s: Guard, now: int)
    ensures SameTables(s, Step(s, StopAll, now)) && SameTables(s, Step(s, LegacyFault, now)) && SameTables(s, Step(s, LegacyHalt, now))
  {
  }

  lemma ResetTables(s: Guard, now: int)
    ensures SameTables(s, Step(s, ResetStop, now)) && SameTables(s, Step(s, RequireOwner, now))
  {
    hide ResetAccepts;
  }

  lemma LegacyArmTables(s: Guard, now: int)
    ensures SameTables(s, Step(s, LegacyArm, now))
  {
    assert SameTables(s, LegacyArmTried(s));
    hide LegacyArmTried;
  }

  lemma LegacyRunTables(s: Guard, now: int)
    ensures SameTables(s, Step(s, LegacyRun, now))
  {
    assert SameTables(s, LegacyRunTried(s));
    hide LegacyRunTried;
  }

  lemma LegacyReportTables(s: Guard, component: Name, ready: bool, now: int)
    ensures SameTables(s, Step(s, LegacyReport(component, ready), now))
  {
    var t := ComponentSet(s, component, ready);
    assert SameTables(t, LiveStopped(t));
    hide LiveStopped;
  }

  // ---- The flags after every call ----

  /** The required lease was granted once, has run out, and nobody has noticed. */
  predicate LapsedAt(s: Guard, now: int) {
    s.ownerRequired && 0 < s.ownerDeadline <= now && !s.ownerExpired
  }

  /** The calls that look at the lease and at what restricts the groups, refused calls aside. */
  predicate Looks(s: Guard, c: Call, now: int) {
    match c
    case UnprepareAxis(axis) => axis in s.axes
    case ReportAxis(axis, _, _, _, _) => axis in s.axes
    case ReportBackend(backend, _, _) => exists a | a in s.axes :: s.axes[a].backend == backend
    case Renew(name, value, source, until) => MayRenew(s, name, value, source, until, now)
    case Post(id, e) => MayPost(s, id, e)
    case _ => c.Acknowledge? || c.Arm? || c.Run? || c.Observe? || c.CheckInhibit? || c.RenewOwner?
  }

  predicate AnyMoves(s: Guard) {
    exists n | n in s.groups :: s.groups[n].state == Armed || s.groups[n].state == Running
  }

  predicate MayReset(s: Guard, now: int) {
    (s.ownerRequired ==> now < s.ownerDeadline) && forall id | id in s.events :: s.events[id].severity != GlobalStop
  }

  /** A new emergency of a client. */
  predicate Alarms(s: Guard, c: Call) {
    c.Post? && MayPost(s, c.id, c.event) && c.id !in s.events && c.event.severity == GlobalStop
  }

  predicate InhibitAfter(s: Guard, c: Call, now: int) {
    match c
    case ResetStop => s.inhibit && !MayReset(s, now)
    case LegacyReport(_, ready) => s.inhibit || (!ready && AnyMoves(s))
    case LegacyFault => s.inhibit || s.groups != map[]
    case _ => s.inhibit || c.StopAll? || Alarms(s, c) || (Looks(s, c, now) && LapsedAt(s, now))
  }

  predicate ExpiredAfter(s: Guard, c: Call, now: int) {
    if c.ResetStop? then s.ownerExpired && !MayReset(s, now) else s.ownerExpired || (Looks(s, c, now) && LapsedAt(s, now))
  }

  function DeadlineAfter(s: Guard, c: Call, now: int): int {
    if c.RenewOwner? && MayExtend(c.lifetime, c.issued, now) && s.ownerDeadline < IssuedAt(c.issued, now) + c.lifetime
    then IssuedAt(c.issued, now) + c.lifetime else s.ownerDeadline
  }

  function WritersAfter(s: Guard, c: Call): map<Name, bool> {
    if c.RegisterWriter? && c.backend != NONE && (c.grouped || s.groups == map[])
       && (forall w | w in s.writers :: s.writers[w] == c.grouped)
    then s.writers[c.backend := c.grouped] else s.writers
  }

  function Tripped(l: Legacy): Legacy {
    Legacy(Fault, if l.state == Fault then l.epoch else l.epoch + 1, l.ready)
  }

  function LegacyAfter(s: Guard, c: Call): Legacy {
    var l := s.legacy;
    match c
    case LegacyReport(component, ready) =>
      if !ready && (l.state == Armed || l.state == Running) then Legacy(Fault, l.epoch + 1, l.ready[component := ready])
      else Legacy(l.state, l.epoch, l.ready[component := ready])
    case LegacyArm =>
      if !s.inhibit && s.groups == map[] && (forall c | c in l.ready :: l.ready[c]) then Legacy(Armed, l.epoch + 1, l.ready) else l
    case LegacyRun => if l.state == Armed then Legacy(Running, l.epoch, l.ready) else l
    case LegacyHalt => Legacy(Stopped, l.epoch + 1, l.ready)
    case _ => if c.StopAll? || c.LegacyFault? || Alarms(s, c) then Tripped(l) else l
  }

  ghost predicate FlagsAfter(s: Guard, c: Call, now: int, t: Guard) {
    && t.inhibit == InhibitAfter(s, c, now) && t.ownerExpired == ExpiredAfter(s, c, now)
    && t.ownerRequired == (s.ownerRequired || c.RequireOwner?) && t.ownerDeadline == DeadlineAfter(s, c, now)
    && t.writers == WritersAfter(s, c) && t.legacy == LegacyAfter(s, c)
  }

  /** What every call makes of the inhibit, the owner lease, the writers and the older gate. */
  lemma FlagsInFields(s: Guard, c: Call, now: int)
    requires Valid(s)
    ensures FlagsAfter(s, c, now, Step(s, c, now))
  {
    hide Step, Valid, FlagsAfter;
    match c
    case Configure(axes, rules, version) => ConfigureFlags(s, axes, rules, version, now);
    case SetWarning(axis, active, reason) => WarningFlags(s, axis, active, reason, now);
    case Renew(name, value, source, until) => RenewFlags(s, name, value, source, until, now);
    case Acknowledge(id) => AcknowledgeFlags(s, id, now);
    case LegacyReport(component, ready) => LegacyReportFlags(s, component, ready, now);
    case LegacyFault => LegacyFaultFlags(s, now);
    case Arm(n) => ArmFlags(s, n, now);
    case Run(n) => RunFlags(s, n, now);
    case Observe => ObserveFlags(s, now);
    case CheckInhibit => ObserveFlags(s, now);
    case RenewOwner(lifetime, issued) => LeaseFlags(s, lifetime, issued, now);
    case StopAll => StopFlags(s, now);
    case ResetStop => ResetFlags(s, now);
    case RegisterWriter(backend, grouped) => WriterFlags(s, backend, grouped, now);
    case LegacyArm => LegacyArmFlags(s, now);
    case LegacyRun => LegacyRunFlags(s, now);
    case Halt(n) => HaltFlags(s, n, now);
    case Invalidate(n) => HaltFlags(s, n, now);
    case LegacyHalt => LegacyHaltFlags(s, now);
    case RequireOwner => OwnerFlags(s, now);
    case _ => ReportFlags(s, c, now);
  }

  /** Looking at the lease, and nothing else, changes the flags. */
  predicate LookFlags(s: Guard, t: Guard, now: int) {
    && t.inhibit == (s.inhibit || LapsedAt(s, now)) && t.ownerExpired == (s.ownerExpired || LapsedAt(s, now))
    && SameRest(s, t)
  }

  predicate SameRest(s: Guard, t: Guard) {
    t.ownerRequired == s.ownerRequired && t.ownerDeadline == s.ownerDeadline && t.writers == s.writers && t.legacy == s.legacy
  }

  predicate SameFlags(s: Guard, t: Guard) {
    t.inhibit == s.inhibit && t.ownerExpired == s.ownerExpired && SameRest(s, t)
  }

  lemma PropagationFlags(s: Guard, now: int)
    ensures LookFlags(s, Propagated(s, now), now) && LookFlags(s, OwnerChecked(s, now), now)
  {
    PropagatedIs(s, now);
  }

  lemma ConfigureFlags(s: Guard, axes: map<Name, Axis>, rules: seq<Association>, version: Name, now: int)
    ensures FlagsAfter(s, Configure(axes, rules, version), now, Step(s, Configure(axes, rules, version), now))
  {
    hide ConfigureAccepts, RestartedGroups;
    assert SameFlags(s, Configured(s, axes, rules));
    hide Configured;
  }

  lemma WarningFlags(s: Guard, axis: Name, active: bool, reason: Name, now: int)
    ensures FlagsAfter(s, SetWarning(axis, active, reason), now, Step(s, SetWarning(axis, active, reason), now))
  {
    assert SameFlags(s, WarningTried(s, axis, active, reason, now));
    hide WarningTried;
  }

  lemma RenewFlags(s: Guard, name: Name, value: Evidence, source: Name, until: int, now: int)
    ensures FlagsAfter(s, Renew(name, value, source, until), now, Step(s, Renew(name, value, source, until), now))
  {
    RenewInFields(s, name, value, source, until, now);
    assert Step(s, Renew(name, value, source, until), now) == RenewTried(s, name, value, source, until, now);
    hide Step, Propagated, RenewAccepts, MayRenew;
    PropagationFlags(s, now);
    var t := Propagated(s, now);
    PropagationFlags(t.(conditions := t.conditions[name := Condition(value, source, until)]), now);
  }

  lemma AcknowledgeFlags(s: Guard, id: EventId, now: int)
    ensures FlagsAfter(s, Acknowledge(id), now, Step(s, Acknowledge(id), now))
  {
    assert Step(s, Acknowledge(id), now) == Acknowledged(s, id, now);
    hide Step, Propagated, AcknowledgeAccepts;
    PropagationFlags(s, now);
    var t := Propagated(s, now);
    PropagationFlags(t.(events := t.events - {id}), now);
  }

  lemma ReportFlags(s: Guard, c: Call, now: int)
    requires Valid(s) && c.Reports()
    ensures FlagsAfter(s, c, now, Step(s, c, now))
  {
    LooksExactly(s, c, now);
    assert Step(s, c, now) == Reported(s, c, now);
    hide Step, Propagated, Valid, ReportAccepts, Looks, FlagsAfter, SameFlags, Alarms, Recorded;
    if ReportAccepts(s, c, now) {
      RecordedFlags(s, c, now);
      PropagationFlags(Recorded(s, c, now), now);
      LookedFlags(s, c, now, Recorded(s, c, now), Propagated(Recorded(s, c, now), now));
    } else {
      UnlookedFlags(s, c, now);
    }
  }

  /** A report that is recorded and then propagated. */
  lemma LookedFlags(s: Guard, c: Call, now: int, r: Guard, t: Guard)
    requires c.Reports() && Looks(s, c, now) && LookFlags(r, t, now) && RecordFlags(s, c, r)
    ensures FlagsAfter(s, c, now, t)
  {
    hide Looks, Alarms, MayReset, MayExtend;
  }

  lemma UnlookedFlags(s: Guard, c: Call, now: int)
    requires c.Reports() && !Looks(s, c, now)
    ensures FlagsAfter(s, c, now, s)
  {
    assert !Alarms(s, c) by { hide MayPost; }
    hide Looks, Alarms, MayReset, MayExtend;
  }

  /** Only a new emergency touches the flags of what is recorded. */
  predicate RecordFlags(s: Guard, c: Call, t: Guard) {
    if Alarms(s, c) then t.inhibit && t.legacy == Tripped(s.legacy) && t.ownerExpired == s.ownerExpired && SameLease(s, t) && t.writers == s.writers
    else SameFlags(s, t)
  }

  lemma LooksExactly(s: Guard, c: Call, now: int)
    requires Valid(s) && c.Reports()
    ensures ReportAccepts(s, c, now) <==> Looks(s, c, now)
  {
    if c.Post? { PostInFields(s, c.id, c.event, now); }
    hide Valid, PostAccepts, MayPost;
  }

  /** What recording a report makes of the flags: only a new emergency touches them. */
  lemma RecordedFlags(s: Guard, c: Call, now: int)
    requires Valid(s) && c.Reports() && ReportAccepts(s, c, now)
    ensures RecordFlags(s, c, Recorded(s, c, now))
  {
    match c
    case UnprepareAxis(axis) => UnpreparedFlags(s, axis);
    case ReportAxis(axis, ready, reason, code, category) => ReadinessFlags(s, axis, ready, reason, code, category, now);
    case ReportBackend(backend, ready, reason) => BackendFlags(s, backend, ready, reason, now);
    case Post(id, e) =>
      PostInFields(s, id, e, now);
      hide Valid, PostAccepts, MayPost;
      PostedFlags(s, id, e, now);
  }

  lemma UnpreparedFlags(s: Guard, axis: Name)
    requires axis in s.axes
    ensures SameFlags(s, AxisUnprepared(s, axis))
  {
    hide AllReady, Revoked;
  }

  lemma ReadinessFlags(s: Guard, axis: Name, ready: bool, reason: Name, code: Name, category: Name, now: int)
    requires axis in s.axes
    ensures SameFlags(s, AxisRecorded(s, axis, ready, reason, code, category, now))
  {
    hide AllReady;
  }

  lemma BackendFlags(s: Guard, backend: Name, ready: bool, reason: Name, now: int)
    ensures SameFlags(s, BackendRecorded(s, backend, ready, reason, now))
  {
    hide AllReady;
  }

  lemma PostedFlags(s: Guard, id: EventId, e: Event, now: int)
    ensures var t := Posted(s, id, e, now);
      if id !in s.events && e.severity == GlobalStop then
        t.inhibit && t.legacy == Tripped(s.legacy) && t.ownerExpired == s.ownerExpired && SameLease(s, t) && t.writers == s.writers
      else SameFlags(s, t)
  {
    var o := Stamped(Attributed(s, e), now);
    hide Attributed, Stamped;
    if id !in s.events { assert SameFlags(s, Latch(s, id, o)); }
  }

  lemma LegacyReportFlags(s: Guard, component: Name, ready: bool, now: int)
    ensures FlagsAfter(s, LegacyReport(component, ready), now, Step(s, LegacyReport(component, ready), now))
  {
    var t := ComponentSet(s, component, ready);
    LegacySteps(s, component, ready, now);
    LiveStopFlags(t);
    assert AnyLive(t) <==> AnyMoves(s);
    hide LiveStopped, Step, AnyLive, AnyMoves;
    if ready {
      PlainReportFlags(s, LegacyReport(component, ready), now, t);
    } else {
      DroppedFlags(s, component, now, LiveStopped(t), LegacyDropped(LiveStopped(t)));
    }
  }

  lemma PlainReportFlags(s: Guard, c: Call, now: int, t: Guard)
    requires c.LegacyReport? && c.ready && t == s.(legacy := s.legacy.(ready := s.legacy.ready[c.component := true]))
    ensures FlagsAfter(s, c, now, t)
  {
    hide AnyMoves, MayReset, MayExtend, MayPost, MayRenew;
  }

  lemma DroppedFlags(s: Guard, component: Name, now: int, u: Guard, t: Guard)
    requires u.inhibit == (s.inhibit || AnyMoves(s)) && u.ownerExpired == s.ownerExpired
    requires SameRest(s.(legacy := s.legacy.(ready := s.legacy.ready[component := false])), u) && t == LegacyDropped(u)
    ensures FlagsAfter(s, LegacyReport(component, false), now, t)
  {
    var c, ready := LegacyReport(component, false), s.legacy.ready[component := false];
    assert u.legacy == Legacy(s.legacy.state, s.legacy.epoch, ready);
    LegacyDrops(u, ready);
    assert t.legacy == LegacyAfter(s, c);
    hide LegacyAfter, LegacyDropped, AnyMoves, MayReset, MayExtend, MayPost, MayRenew;
  }

  lemma LegacyDrops(u: Guard, ready: map<Name, bool>)
    requires u.legacy == Legacy(u.legacy.state, u.legacy.epoch, ready)
    ensures var t := LegacyDropped(u);
      && t.legacy == (if u.legacy.Live() then Legacy(Fault, u.legacy.epoch + 1, ready) else u.legacy)
      && t.inhibit == u.inhibit && t.ownerExpired == u.ownerExpired && SameLease(u, t) && t.writers == u.writers
  {
  }

  lemma LegacySteps(s: Guard, component: Name, ready: bool, now: int)
    ensures var t := ComponentSet(s, component, ready);
      Step(s, LegacyReport(component, ready), now) == if ready then t else LegacyDropped(LiveStopped(t))
  {
    hide LiveStopped, LegacyDropped;
  }

  lemma LiveStopFlags(s: Guard)
    ensures var t := LiveStopped(s);
      t.inhibit == (s.inhibit || AnyLive(s)) && t.ownerExpired == s.ownerExpired && SameRest(s, t)
  {
    RevocationFlags(s);
    hide RevokeAll, AnyLive;
  }

  lemma RevocationFlags(s: Guard)
    ensures SameFlags(s, RevokeAll(s)) && (s.groups == map[] <==> RevokeAll(s).groups == map[])
  {
    assert RevokeAll(s).groups.Keys == s.groups.Keys;
  }

  lemma LegacyFaultFlags(s: Guard, now: int)
    ensures FlagsAfter(s, LegacyFault, now, Step(s, LegacyFault, now))
  {
    RevocationFlags(s);
    hide RevokeAll;
  }

  /** A call that looks at the lease and changes no other flag. */
  lemma LookFlagsAre(s: Guard, c: Call, now: int, t: Guard)
    requires (c.Arm? || c.Run? || c.Observe? || c.CheckInhibit?) && LookFlags(s, t, now)
    ensures FlagsAfter(s, c, now, t)
  {
  }

  lemma ArmFlags(s: Guard, n: Name, now: int)
    ensures FlagsAfter(s, Arm(n), now, Step(s, Arm(n), now))
  {
    hide Propagated, ArmAccepts, FlagsAfter;
    PropagationFlags(s, now);
    LookFlagsAre(s, Arm(n), now, Step(s, Arm(n), now));
  }

  lemma RunFlags(s: Guard, n: Name, now: int)
    ensures FlagsAfter(s, Run(n), now, Step(s, Run(n), now))
  {
    hide Propagated, RunAccepts, FlagsAfter;
    PropagationFlags(s, now);
    LookFlagsAre(s, Run(n), now, Step(s, Run(n), now));
  }

  lemma ObserveFlags(s: Guard, now: int)
    ensures FlagsAfter(s, Observe, now, Step(s, Observe, now)) && FlagsAfter(s, CheckInhibit, now, Step(s, CheckInhibit, now))
  {
    hide Propagated, OwnerChecked, FlagsAfter;
    PropagationFlags(s, now);
    LookFlagsAre(s, Observe, now, Step(s, Observe, now));
    LookFlagsAre(s, CheckInhibit, now, Step(s, CheckInhibit, now));
  }

  lemma LeaseFlags(s: Guard, lifetime: int, issued: int, now: int)
    ensures FlagsAfter(s, RenewOwner(lifetime, issued), now, Step(s, RenewOwner(lifetime, issued), now))
  {
    PropagationFlags(s, now);
    assert MayExtend(lifetime, issued, now) <==> LeaseAccepts(lifetime, issued, now);
    assert Step(s, RenewOwner(lifetime, issued), now) == LeaseRenewed(OwnerChecked(s, now), lifetime, issued, now);
    hide Step, OwnerChecked, LeaseAccepts, MayExtend, MayPost, MayRenew;
  }

  lemma StopFlags(s: Guard, now: int)
    ensures FlagsAfter(s, StopAll, now, Step(s, StopAll, now))
  {
    RevocationFlags(s);
    hide RevokeAll;
  }

  lemma ResetFlags(s: Guard, now: int)
    ensures FlagsAfter(s, ResetStop, now, Step(s, ResetStop, now))
  {
    assert ResetAccepts(s, now) <==> MayReset(s, now);
    hide ResetAccepts, MayReset;
  }

  lemma WriterStep(s: Guard, backend: Name, grouped: bool, now: int)
    ensures var t := Step(s, RegisterWriter(backend, grouped), now);
      t == if WriterAccepts(s, backend, grouped) then s.(writers := s.writers[backend := grouped]) else s
  {
    hide WriterAccepts;
  }

  lemma WriterFlags(s: Guard, backend: Name, grouped: bool, now: int)
    ensures FlagsAfter(s, RegisterWriter(backend, grouped), now, Step(s, RegisterWriter(backend, grouped), now))
  {
    assert WriterAccepts(s, backend, grouped) <==>
      && backend != NONE && (grouped || s.groups == map[]) && (forall w | w in s.writers :: s.writers[w] == grouped);
    hide MayPost, MayRenew, WriterAccepts, Step;
    WriterStep(s, backend, grouped, now);
  }

  lemma LegacyArmFlags(s: Guard, now: int)
    ensures FlagsAfter(s, LegacyArm, now, Step(s, LegacyArm, now))
  {
    hide MayPost, MayRenew;
  }

  lemma LegacyRunFlags(s: Guard, now: int)
    ensures FlagsAfter(s, LegacyRun, now, Step(s, LegacyRun, now))
  {
    assert Step(s, LegacyRun, now) == LegacyRunTried(s);
    hide Step, MayPost, MayRenew;
  }

  /** Calls that change no flag. */
  lemma SameFlagsAre(s: Guard, c: Call, now: int, t: Guard)
    requires (c.Halt? || c.Invalidate?) && SameFlags(s, t)
    ensures FlagsAfter(s, c, now, t)
  {
  }

  lemma HaltFlags(s: Guard, n: Name, now: int)
    ensures FlagsAfter(s, Halt(n), now, Step(s, Halt(n), now)) && FlagsAfter(s, Invalidate(n), now, Step(s, Invalidate(n), now))
  {
    hide FlagsAfter;
    SameFlagsAre(s, Halt(n), now, Step(s, Halt(n), now));
    SameFlagsAre(s, Invalidate(n), now, Step(s, Invalidate(n), now));
  }

  lemma LegacyHaltFlags(s: Guard, now: int)
    ensures FlagsAfter(s, LegacyHalt, now, Step(s, LegacyHalt, now))
  {
    hide MayPost;
  }

  lemma OwnerFlags(s: Guard, now: int)
    ensures FlagsAfter(s, RequireOwner, now, Step(s, RequireOwner, now))
  {
    hide MayPost;
  }

  // ---- The groups after every call ----

  /** A session ends under a new epoch; a group in Fault stays as it is. */
  predicate Ended(g: Group, h: Group) {
    h.state == Fault && h.epoch == g.epoch + (if g.state == Fault then 0 else 1)
  }

  predicate Kept(g: Group, h: Group) {
    h.state == g.state && h.epoch == g.epoch
  }

  /** What a look at restrictions leaves of a group. */
  predicate Looked(g: Group, h: Group, struck: bool) {
    if struck then Ended(g, h) else Kept(g, h)
  }

  ghost predicate MayArm(s: Guard, n: Name, now: int)
    requires n in s.groups
  {
    && s.groups[n].state != Running && !s.inhibit && (s.ownerRequired ==> now < s.ownerDeadline)
    && (forall a | a in s.axes && s.axes[a].group == n :: s.axes[a].ready) && Unrestricted(s, n, now)
  }

  ghost predicate MayRun(s: Guard, n: Name, now: int)
    requires n in s.groups
  {
    s.groups[n].state == Armed && (s.ownerRequired ==> now < s.ownerDeadline) && Unrestricted(s, n, now)
  }

  /** Group `n` after the call, `t` being the guard by then. */
  ghost predicate GroupAfter(s: Guard, c: Call, now: int, t: Guard, n: Name)
    requires n in s.groups && n in t.groups
  {
    var g, h := s.groups[n], t.groups[n];
    match c
    case Configure(axes, rules, version) =>
      if MayConfigure(s, axes, rules, version) && n in {ARM, FLIPPERS, BASE, GRIPPER} then h.state == Stopped && h.epoch == g.epoch + 1
      else Kept(g, h)
    case UnprepareAxis(axis) =>
      Looked(g, h, axis in s.axes && (LapsedAt(s, now) || !Unrestricted(t, n, now)
                                      || (s.axes[axis].group == n && (g.state == Armed || g.state == Running))))
    case Renew(_, _, _, _) => Looked(g, h, Looks(s, c, now) && (LapsedAt(s, now) || !Unrestricted(s, n, now) || !Unrestricted(t, n, now)))
    case Acknowledge(_) => Looked(g, h, LapsedAt(s, now) || !Unrestricted(s, n, now) || !Unrestricted(t, n, now))
    case Arm(m) =>
      if m == n && MayArm(s, n, now) then h.state == Armed && h.epoch == g.epoch + (if g.state == Armed then 0 else 1)
      else Looked(g, h, LapsedAt(s, now) || !Unrestricted(s, n, now))
    case Run(m) =>
      if m == n && MayRun(s, n, now) then h.state == Running && h.epoch == g.epoch
      else Looked(g, h, LapsedAt(s, now) || !Unrestricted(s, n, now))
    case Observe => Looked(g, h, LapsedAt(s, now) || !Unrestricted(s, n, now))
    case CheckInhibit => Looked(g, h, LapsedAt(s, now))
    case RenewOwner(_, _) => Looked(g, h, LapsedAt(s, now))
    case Halt(m) =>
      if m != n then Kept(g, h)
      else h.state == (if g.state == Fault then Fault else Stopped)
           && h.epoch == g.epoch + (if g.state == Armed || g.state == Running then 1 else 0)
    case Invalidate(m) =>
      if m != n then Kept(g, h) else h.state == (if g.state == Fault then Fault else Stopped) && h.epoch == g.epoch + 1
    case StopAll => Ended(g, h)
    case LegacyFault => Ended(g, h)
    case LegacyReport(_, ready) => Looked(g, h, !ready && AnyMoves(s))
    case LegacyHalt => if g.state == Armed || g.state == Running then h.state == Stopped && h.epoch == g.epoch + 1 else Kept(g, h)
    case _ => Looked(g, h, c.Reports() && Looks(s, c, now) && (LapsedAt(s, now) || !Unrestricted(t, n, now)))
  }

  /** What every call makes of every group: a session ends exactly when the call looks and finds the lease lapsed
      or a restriction of the group, before or after what it records, or when the call is about ending it. */
  lemma GroupsInFields(s: Guard, c: Call, now: int, n: Name)
    requires Valid(s) && n in s.groups
    ensures n in Step(s, c, now).groups && GroupAfter(s, c, now, Step(s, c, now), n)
  {
    StepOnGroup(s, c, now, n);
    hide Step, Valid, GroupAfter, Story;
    match c
    case Configure(axes, rules, version) => ConfigureGroups(s, axes, rules, version, now, n);
    case UnprepareAxis(axis) => UnprepareGroups(s, axis, now, n);
    case Renew(name, value, source, until) => RenewGroups(s, name, value, source, until, now, n);
    case Acknowledge(id) => AcknowledgeGroups(s, id, now, n);
    case Arm(m) => ArmGroups(s, m, now, n);
    case Run(m) => RunGroups(s, m, now, n);
    case Observe => ObserveGroups(s, now, n);
    case CheckInhibit => CheckGroups(s, now, n);
    case RenewOwner(lifetime, issued) => LeaseGroups(s, lifetime, issued, now, n);
    case StopAll => StopGroups(s, now, n);
    case LegacyFault => StopGroups(s, now, n);
    case LegacyReport(component, ready) => LegacyReportGroups(s, component, ready, now, n);
    case LegacyHalt => LegacyHaltGroups(s, now, n);
    case Halt(m) => HaltGroups(s, m, now, n);
    case Invalidate(m) => InvalidateGroups(s, m, now, n);
    case _ => if c.Reports() { ReportGroups(s, c, now, n); } else { FlagGroups(s, c, now, n); }
  }

  lemma SameUnrestricted(s: Guard, t: Guard, n: Name, now: int)
    requires SameTables(s, t) && s.groups.Keys == t.groups.Keys
    ensures Unrestricted(s, n, now) == Unrestricted(t, n, now)
  {
    forall path: seq<Name>, category: Name, group: Name ensures Chain(s, path, category, group, now) == Chain(t, path, category, group, now) {
      SameChain(s, t, path, category, group, now);
    }
    hide Chain;
    forall e: Event, g: Name ensures SpeaksOf(s, e, g) == SpeaksOf(t, e, g) {}
    hide SpeaksOf;
    forall e: Event, path: seq<Name> ensures Reaches(s, e, path, n, now) == Reaches(t, e, path, n, now) {}
  }

  lemma SameChain(s: Guard, t: Guard, path: seq<Name>, category: Name, group: Name, now: int)
    requires SameTables(s, t)
    ensures Chain(s, path, category, group, now) == Chain(t, path, category, group, now)
  {
    forall a, b ensures Tied(s, a, b, category, group, now) == Tied(t, a, b, category, group, now) {
      forall rule ensures Ties(s, rule, a, b, category, group, now) == Ties(t, rule, a, b, category, group, now) {}
    }
  }

  /** A look at a state whose restrictions are those of a valid one. */
  lemma LookInFields(r: Guard, now: int, n: Name, t: Guard)
    requires n in r.groups && Valid(t) && t.groups.Keys == r.groups.Keys && SameCauses(r, t)
    ensures n in Propagated(r, now).groups
    ensures Looked(r.groups[n], Propagated(r, now).groups[n], LapsedAt(r, now) || !Unrestricted(t, n, now))
  {
    UnrestrictedExactly(t, n, now);
    hide Valid, Unrestricted;
    SameBlockers(r, t, n, now);
    hide SameCauses, Blockers;
    PropagatedIs(r, now);
  }

  lemma ObserveGroups(s: Guard, now: int, n: Name)
    requires Valid(s) && n in s.groups
    ensures n in Step(s, Observe, now).groups && GroupAfter(s, Observe, now, Step(s, Observe, now), n)
  {
    LookInFields(s, now, n, s);
    hide Valid, Unrestricted, Propagated;
  }

  lemma CheckGroups(s: Guard, now: int, n: Name)
    requires n in s.groups
    ensures n in Step(s, CheckInhibit, now).groups && GroupAfter(s, CheckInhibit, now, Step(s, CheckInhibit, now), n)
    ensures n in OwnerChecked(s, now).groups && Looked(s.groups[n], OwnerChecked(s, now).groups[n], LapsedAt(s, now))
  {
  }

  lemma LeaseGroups(s: Guard, lifetime: int, issued: int, now: int, n: Name)
    requires n in s.groups
    ensures n in Step(s, RenewOwner(lifetime, issued), now).groups
    ensures GroupAfter(s, RenewOwner(lifetime, issued), now, Step(s, RenewOwner(lifetime, issued), now), n)
  {
    CheckGroups(s, now, n);
    hide OwnerChecked, LeaseAccepts;
  }

  lemma EnablingSteps(s: Guard, m: Name, now: int)
    ensures Step(s, Arm(m), now) == ArmTried(Propagated(s, now), m, now)
    ensures Step(s, Run(m), now) == RunTried(Propagated(s, now), m, now)
    ensures Step(s, Halt(m), now) == HaltTried(s, m)
    ensures Step(s, Invalidate(m), now) == InvalidateTried(s, m)
  {
    hide Propagated, ArmTried, RunTried, HaltTried, InvalidateTried;
  }

  lemma ArmGroups(s: Guard, m: Name, now: int, n: Name)
    requires Valid(s) && n in s.groups
    ensures n in Step(s, Arm(m), now).groups && GroupAfter(s, Arm(m), now, Step(s, Arm(m), now), n)
  {
    hide Step, Valid, Unrestricted, Propagated, ArmAccepts, Blockers;
    EnablingSteps(s, m, now);
    LookInFields(s, now, n, s);
    if m == n { ArmsInFields(s, n, now); }
    var p := Propagated(s, now);
    if ArmAccepts(p, m, now) {
      ArmsOne(p, m, n, now);
      hide ArmTried;
    }
  }

  lemma ArmsOne(p: Guard, m: Name, n: Name, now: int)
    requires n in p.groups
    ensures ArmAccepts(p, m, now) ==>
      n in ArmTried(p, m, now).groups && ArmTried(p, m, now).groups[n] == if m == n then ArmedGroup(p.groups[n]) else p.groups[n]
    ensures RunAccepts(p, m, now) ==>
      n in RunTried(p, m, now).groups && RunTried(p, m, now).groups[n] == if m == n then p.groups[n].(state := Running) else p.groups[n]
  {
    hide ArmedGroup, Clear;
    if ArmAccepts(p, m, now) { SetsOne(p, m, ArmedGroup(p.groups[m]), n); }
    if RunAccepts(p, m, now) { SetsOne(p, m, p.groups[m].(state := Running), n); }
    hide SetGroup;
  }

  lemma RunGroups(s: Guard, m: Name, now: int, n: Name)
    requires Valid(s) && n in s.groups
    ensures n in Step(s, Run(m), now).groups && GroupAfter(s, Run(m), now, Step(s, Run(m), now), n)
  {
    hide Step, Valid, Unrestricted, Propagated, RunAccepts, Blockers;
    EnablingSteps(s, m, now);
    LookInFields(s, now, n, s);
    if m == n { RunsInFields(s, n, now); }
    var p := Propagated(s, now);
    if RunAccepts(p, m, now) {
      ArmsOne(p, m, n, now);
      hide RunTried;
    }
  }

  lemma HaltGroups(s: Guard, m: Name, now: int, n: Name)
    requires n in s.groups
    ensures n in Step(s, Halt(m), now).groups && GroupAfter(s, Halt(m), now, Step(s, Halt(m), now), n)
  {
    HaltsOne(s, m, n);
    hide Step, GroupAfter, HaltTried;
    EnablingSteps(s, m, now);
    HaltedAfter(s, m, now, HaltTried(s, m), n);
  }

  lemma InvalidateGroups(s: Guard, m: Name, now: int, n: Name)
    requires n in s.groups
    ensures n in Step(s, Invalidate(m), now).groups && GroupAfter(s, Invalidate(m), now, Step(s, Invalidate(m), now), n)
  {
    HaltsOne(s, m, n);
    hide Step, GroupAfter, InvalidateTried;
    EnablingSteps(s, m, now);
    HaltedAfter(s, m, now, InvalidateTried(s, m), n);
  }

  lemma HaltsOne(s: Guard, m: Name, n: Name)
    requires n in s.groups
    ensures var t := HaltTried(s, m); n in t.groups && t.groups[n] == if m == n then HaltedGroup(s.groups[n]) else s.groups[n]
    ensures var t := InvalidateTried(s, m); n in t.groups && t.groups[n] == if m == n then InvalidatedGroup(s.groups[n]) else s.groups[n]
  {
    hide HaltedGroup, InvalidatedGroup;
    if m in s.groups {
      SetsOne(s, m, HaltedGroup(s.groups[m]), n);
      SetsOne(s, m, InvalidatedGroup(s.groups[m]), n);
      hide SetGroup;
    }
  }

  lemma SetsOne(s: Guard, m: Name, g: Group, n: Name)
    requires m in s.groups && n in s.groups
    ensures n in SetGroup(s, m, g).groups
    ensures m == n ==> SetGroup(s, m, g).groups[n] == g
    ensures m != n ==> SetGroup(s, m, g).groups[n] == s.groups[n]
  {
  }

  lemma HaltedAfter(s: Guard, m: Name, now: int, t: Guard, n: Name)
    requires n in s.groups && n in t.groups
    ensures t.groups[n] == (if m == n then HaltedGroup(s.groups[n]) else s.groups[n]) ==> GroupAfter(s, Halt(m), now, t, n)
    ensures t.groups[n] == (if m == n then InvalidatedGroup(s.groups[n]) else s.groups[n]) ==> GroupAfter(s, Invalidate(m), now, t, n)
  {
    hide MayArm, MayRun, Looks, MayConfigure, AnyMoves, Unrestricted;
  }

  lemma StopGroups(s: Guard, now: int, n: Name)
    requires n in s.groups
    ensures n in Step(s, StopAll, now).groups && GroupAfter(s, StopAll, now, Step(s, StopAll, now), n)
    ensures n in Step(s, LegacyFault, now).groups && GroupAfter(s, LegacyFault, now, Step(s, LegacyFault, now), n)
  {
    hide MayArm, MayRun, Looks, MayConfigure, AnyMoves, Unrestricted;
  }

  lemma LegacyHaltGroups(s: Guard, now: int, n: Name)
    requires n in s.groups
    ensures n in Step(s, LegacyHalt, now).groups && GroupAfter(s, LegacyHalt, now, Step(s, LegacyHalt, now), n)
  {
    hide MayArm, MayRun, Looks, MayConfigure, AnyMoves, Unrestricted;
  }

  lemma LegacyReportGroups(s: Guard, component: Name, ready: bool, now: int, n: Name)
    requires n in s.groups
    ensures n in Step(s, LegacyReport(component, ready), now).groups
    ensures GroupAfter(s, LegacyReport(component, ready), now, Step(s, LegacyReport(component, ready), now), n)
  {
    var t := ComponentSet(s, component, ready);
    LegacySteps(s, component, ready, now);
    assert AnyLive(t) <==> AnyMoves(s);
    hide Step, AnyLive, AnyMoves, MayArm, MayRun, Looks, MayConfigure, Unrestricted;
    LiveStopGroups(t, n);
    hide LiveStopped;
  }

  lemma LiveStopGroups(s: Guard, n: Name)
    requires n in s.groups
    ensures n in LiveStopped(s).groups && Looked(s.groups[n], LiveStopped(s).groups[n], AnyLive(s))
  {
    hide AnyLive;
  }

  lemma FlagGroups(s: Guard, c: Call, now: int, n: Name)
    requires n in s.groups
    requires c.SetWarning? || c.ResetStop? || c.RequireOwner? || c.RegisterWriter? || c.LegacyArm? || c.LegacyRun?
    ensures n in Step(s, c, now).groups && GroupAfter(s, c, now, Step(s, c, now), n)
  {
    FlagsKeepGroups(s, c, now);
    hide Step;
  }

  lemma ConfigureGroups(s: Guard, axes: map<Name, Axis>, rules: seq<Association>, version: Name, now: int, n: Name)
    requires n in s.groups
    ensures n in Step(s, Configure(axes, rules, version), now).groups
    ensures GroupAfter(s, Configure(axes, rules, version), now, Step(s, Configure(axes, rules, version), now), n)
  {
    ConfigureInFields(s, axes, rules, version);
    hide ConfigureAccepts, MayConfigure;
  }

  lemma ReportGroups(s: Guard, c: Call, now: int, n: Name)
    requires Valid(s) && n in s.groups && c.Reports() && !c.UnprepareAxis?
    ensures n in Step(s, c, now).groups && GroupAfter(s, c, now, Step(s, c, now), n)
  {
    LooksExactly(s, c, now);
    StepKeepsValid(s, c, now);
    assert Step(s, c, now) == Reported(s, c, now);
    hide Step, Valid, Propagated, ReportAccepts, Looks, Unrestricted;
    if ReportAccepts(s, c, now) {
      var r := Recorded(s, c, now);
      RecordedKeeps(s, c, now, n);
      PropagatedCauses(r, now);
      LookInFields(r, now, n, Propagated(r, now));
    }
    hide Recorded;
  }

  lemma PropagatedCauses(r: Guard, now: int)
    ensures SameCauses(r, Propagated(r, now)) && Propagated(r, now).groups.Keys == r.groups.Keys
  {
    PropagatedIs(r, now);
  }

  /** Recording a report keeps every session, and the lease. */
  lemma RecordedKeeps(s: Guard, c: Call, now: int, n: Name)
    requires n in s.groups && c.Reports() && !c.UnprepareAxis? && ReportAccepts(s, c, now)
    ensures var r := Recorded(s, c, now); KeepsGroup(s, r, now, n)
  {
    hide KeepsGroup, PostAccepts, KnownBackend;
    match c
    case ReportAxis(axis, ready, reason, code, category) => ReadinessKeeps(s, axis, ready, reason, code, category, now, n);
    case ReportBackend(backend, ready, reason) => BackendKeeps(s, backend, ready, reason, now, n);
    case Post(id, e) => PostKeeps(s, id, e, now, n);
  }

  predicate KeepsGroup(s: Guard, r: Guard, now: int, n: Name)
    requires n in s.groups
  {
    n in r.groups && Kept(s.groups[n], r.groups[n]) && LapsedAt(r, now) == LapsedAt(s, now)
  }

  lemma ReadinessKeeps(s: Guard, axis: Name, ready: bool, reason: Name, code: Name, category: Name, now: int, n: Name)
    requires axis in s.axes && n in s.groups
    ensures KeepsGroup(s, AxisRecorded(s, axis, ready, reason, code, category, now), now, n)
  {
    hide AllReady;
  }

  lemma BackendKeeps(s: Guard, backend: Name, ready: bool, reason: Name, now: int, n: Name)
    requires n in s.groups
    ensures KeepsGroup(s, BackendRecorded(s, backend, ready, reason, now), now, n)
  {
    hide AllReady;
  }

  lemma PostKeeps(s: Guard, id: EventId, e: Event, now: int, n: Name)
    requires n in s.groups
    ensures KeepsGroup(s, Posted(s, id, e, now), now, n)
  {
    var o := Stamped(Attributed(s, e), now);
    hide Attributed, Stamped, LegacyFaulted;
    if id !in s.events { assert KeepsGroup(s, Latch(s, id, o), now, n); }
  }

  lemma UnprepareGroups(s: Guard, axis: Name, now: int, n: Name)
    requires Valid(s) && n in s.groups
    ensures n in Step(s, UnprepareAxis(axis), now).groups
    ensures GroupAfter(s, UnprepareAxis(axis), now, Step(s, UnprepareAxis(axis), now), n)
  {
    var c := UnprepareAxis(axis);
    StepKeepsValid(s, c, now);
    assert Step(s, c, now) == Reported(s, c, now);
    hide Step, Valid, Propagated, Unrestricted;
    if axis in s.axes {
      var r := AxisUnprepared(s, axis);
      UnpreparedOutcome(s, axis, now, n);
      PropagatedCauses(r, now);
      LookInFields(r, now, n, Propagated(r, now));
    }
    hide AxisUnprepared;
  }

  lemma UnpreparedOutcome(s: Guard, axis: Name, now: int, n: Name)
    requires axis in s.axes && n in s.groups
    ensures var r := AxisUnprepared(s, axis);
      && n in r.groups && LapsedAt(r, now) == LapsedAt(s, now)
      && Looked(s.groups[n], r.groups[n], s.axes[axis].group == n && (s.groups[n].state == Armed || s.groups[n].state == Running))
  {
    hide AllReady;
    var m, u := s.axes[axis].group, AxisSet(s, axis, false);
    if m in s.groups && s.groups[m].Live() {
      var v := SetGroup(u, m, Revoked(s.groups[m]));
      assert v.groups[n] == if n == m then Revoked(s.groups[n]) else s.groups[n];
      assert AxisUnprepared(s, axis) == Refreshed(v);
    } else {
      assert AxisUnprepared(s, axis) == Refreshed(u);
    }
  }

  lemma NoSecondLapse(s: Guard, r: Guard, now: int)
    requires r.ownerExpired == (s.ownerExpired || LapsedAt(s, now))
    requires r.ownerRequired == s.ownerRequired && r.ownerDeadline == s.ownerDeadline
    ensures !LapsedAt(r, now)
  {
  }

  /** Two looks in a row, with an entry written in between. */
  lemma TwoLooks(s: Guard, r: Guard, now: int, n: Name)
    requires Valid(s) && n in s.groups && Valid(Propagated(r, now)) && r.groups == Propagated(s, now).groups
    requires r.ownerExpired == (s.ownerExpired || LapsedAt(s, now)) && SameLeaseTerms(s, r)
    ensures n in Propagated(r, now).groups
    ensures Looked(s.groups[n], Propagated(r, now).groups[n],
                   LapsedAt(s, now) || !Unrestricted(s, n, now) || !Unrestricted(Propagated(r, now), n, now))
  {
    hide Valid, Propagated, Unrestricted;
    LookInFields(s, now, n, s);
    NoSecondLapse(s, r, now);
    hide LapsedAt;
    PropagatedCauses(r, now);
    LookInFields(r, now, n, Propagated(r, now));
    hide SameCauses;
  }

  predicate SameLeaseTerms(s: Guard, r: Guard) {
    r.ownerRequired == s.ownerRequired && r.ownerDeadline == s.ownerDeadline
  }

  lemma RenewGroups(s: Guard, name: Name, value: Evidence, source: Name, until: int, now: int, n: Name)
    requires Valid(s) && n in s.groups
    ensures n in Step(s, Renew(name, value, source, until), now).groups
    ensures GroupAfter(s, Renew(name, value, source, until), now, Step(s, Renew(name, value, source, until), now), n)
  {
    var c := Renew(name, value, source, until);
    RenewInFields(s, name, value, source, until, now);
    StepKeepsValid(s, c, now);
    assert Step(s, c, now) == RenewTried(s, name, value, source, until, now);
    hide Step, Valid, Propagated, RenewAccepts, MayRenew, Unrestricted, MayArm, MayRun, MayConfigure, AnyMoves;
    if RenewAccepts(s, name, value, source, until, now) {
      PropagationFlags(s, now);
      hide LapsedAt;
      TwoLooks(s, Propagated(s, now).(conditions := Propagated(s, now).conditions[name := Condition(value, source, until)]), now, n);
    }
  }

  lemma AcknowledgeGroups(s: Guard, id: EventId, now: int, n: Name)
    requires Valid(s) && n in s.groups
    ensures n in Step(s, Acknowledge(id), now).groups && GroupAfter(s, Acknowledge(id), now, Step(s, Acknowledge(id), now), n)
  {
    StepKeepsValid(s, Acknowledge(id), now);
    assert Step(s, Acknowledge(id), now) == Acknowledged(s, id, now);
    hide Step, Valid, Propagated, AcknowledgeAccepts, Unrestricted, MayArm, MayRun, Looks, MayConfigure, AnyMoves;
    var p := Propagated(s, now);
    PropagationFlags(s, now);
    if AcknowledgeAccepts(p, id) {
      hide LapsedAt;
      TwoLooks(s, p.(events := p.events - {id}), now, n);
    } else {
      PropagationTables(s, now);
      LookInFields(s, now, n, s);
      PropagatedCauses(s, now);
      hide SameCauses, LapsedAt;
      SameUnrestricted(s, p, n, now);
    }
  }
}
