/** The motion-permission guard as a value: its state, and what each call does to it.

    Every public call of the guard holds one mutex, so a call is one atomic step.  `now` is the
    clock sampled by that step. */
module Guard {
  import opened Closure

  const INT64_MAX: int := 0x7fff_ffff_ffff_ffff

  /** The empty string of the source: "no axis", "no group", "no backend". */
  const NONE: Name := 0
  const ARM: Name := 1
  const FLIPPERS: Name := 2
  const BASE: Name := 3
  const GRIPPER: Name := 4
  const GROUP_NAMES: set<Name> := {ARM, FLIPPERS, BASE, GRIPPER}

  const ANY_CATEGORY: Name := 5
  const UNAVAILABLE: Name := 6
  const FEEDBACK_WARNING: Name := 7
  const TRANSPORT: Name := 8
  const CANOPEN: Name := 9
  const CAN_DRIVER: Name := 10

  datatype State = Stopped | Armed | Running | Fault
  datatype Severity = Reject | Warn | GroupStop | GlobalStop
  datatype Evidence = Unknown | Satisfied | Unsatisfied

  /** Identifiers of latched events.  The first three shapes are the guard's own reserved
      namespaces; a client may only name `Client` events. */
  datatype EventId = Readiness(axis: Name) | Backend(backend: Name) | Warning(axis: Name) | Client(name: Name)

  datatype Event = Event(axis: Name, group: Name, backend: Name, category: Name, code: Name,
                         reason: Name, severity: Severity, timestamp: int)

  datatype Axis = Axis(group: Name, backend: Name, ready: bool)

  /** What keeps a group from moving: a latched event, or another group that is not ready. */
  datatype Restriction = ByEvent(id: EventId) | ByUnready(group: Name)

  datatype Group = Group(state: State, epoch: nat, ready: bool, blockers: set<Restriction>) {
    predicate Live() { state == Armed || state == Running }
  }

  datatype Association = Association(sourceGroup: Name, category: Name, dependentGroup: Name,
                                     condition: Name, source: Name)

  datatype Condition = Condition(value: Evidence, source: Name, validUntil: int)

  /** The older whole-vehicle gate that lives beside the groups. */
  datatype Legacy = Legacy(state: State, epoch: nat, ready: map<Name, bool>) {
    predicate Live() { state == Armed || state == Running }
  }

  datatype Guard = Guard(
    axes: map<Name, Axis>,
    groups: map<Name, Group>,
    rules: seq<Association>,
    conditions: map<Name, Condition>,
    events: map<EventId, Event>,
    writers: map<Name, bool>,
    inhibit: bool,
    ownerRequired: bool,
    ownerDeadline: int,
    ownerExpired: bool,
    legacy: Legacy)

  const INITIAL: Guard := Guard(map[], map[], [], map[], map[], map[], false, false, 0, false,
                                Legacy(Stopped, 0, map[CANOPEN := false, CAN_DRIVER := false]))

  // ---- Evidence, scope and restrictions ----

  predicate Holds(s: Guard, rule: Association, now: int) {
    && rule.condition in s.conditions
    && s.conditions[rule.condition].value == Satisfied
    && s.conditions[rule.condition].source == rule.source
    && s.conditions[rule.condition].validUntil > now
  }

  predicate Applies(rule: Association, e: Event) {
    rule.category == ANY_CATEGORY || rule.category == e.category || rule.sourceGroup != e.group
  }

  predicate Spreads(s: Guard, rule: Association, e: Event, now: int) {
    Applies(rule, e) && !Holds(s, rule, now)
  }

  ghost function Edges(s: Guard, e: Event, now: int): set<Edge> {
    set rule | rule in s.rules && Spreads(s, rule, e, now) :: (rule.sourceGroup, rule.dependentGroup)
  }

  function Named(s: Guard, e: Event): set<Name> {
    (if e.axis != NONE && e.axis in s.axes then {s.axes[e.axis].group} else {}) +
    (if e.group != NONE then {e.group} else {})
  }

  function Sources(s: Guard, e: Event): set<Name> {
    match e.severity
    case GlobalStop => s.groups.Keys
    case GroupStop =>
      if Named(s, e) != {} then Named(s, e)
      else set a | a in s.axes && s.axes[a].backend == e.backend :: s.axes[a].group
    case _ => {}
  }

  ghost function Scope(s: Guard, e: Event, now: int): set<Name> {
    Least(Sources(s, e), Edges(s, e, now))
  }

  /** The pseudo-event of a group that is not ready: unknown readiness, not a latched event. */
  function Unavailable(g: Name): Event {
    Event(NONE, g, NONE, UNAVAILABLE, NONE, NONE, GroupStop, 0)
  }

  ghost predicate Covers(s: Guard, r: Restriction, n: Name, now: int) {
    match r
    case ByEvent(id) => id in s.events && n in Scope(s, s.events[id], now)
    case ByUnready(g) => g in s.groups && !s.groups[g].ready && g != n && n in Scope(s, Unavailable(g), now)
  }

  function Restrictions(s: Guard): set<Restriction> {
    (set id | id in s.events :: ByEvent(id)) + (set g | g in s.groups :: ByUnready(g))
  }

  ghost function Blockers(s: Guard, n: Name, now: int): set<Restriction> {
    set r | r in Restrictions(s) && Covers(s, r, n, now)
  }

  // ---- Building blocks of the calls ----

  function Revoked(g: Group): Group {
    g.(state := Fault, epoch := if g.state == Fault then g.epoch else g.epoch + 1)
  }

  function RevokeAll(s: Guard): Guard {
    s.(groups := map n | n in s.groups :: Revoked(s.groups[n]))
  }

  predicate AllReady(axes: map<Name, Axis>, n: Name) {
    forall a | a in axes && axes[a].group == n :: axes[a].ready
  }

  function Refreshed(s: Guard): Guard {
    s.(groups := map n | n in s.groups :: s.groups[n].(ready := AllReady(s.axes, n)))
  }

  predicate OwnerFresh(s: Guard, now: int) {
    !s.ownerRequired || s.ownerDeadline > now
  }

  predicate OwnerLapsed(s: Guard, now: int) {
    s.ownerRequired && s.ownerDeadline > 0 && !s.ownerExpired && !OwnerFresh(s, now)
  }

  function OwnerChecked(s: Guard, now: int): Guard {
    if OwnerLapsed(s, now) then RevokeAll(s).(ownerExpired := true, inhibit := true) else s
  }

  function Blocked(g: Group, blockers: set<Restriction>): Group {
    (if blockers != {} then Revoked(g) else g).(blockers := blockers)
  }

  ghost function Committed(s: Guard, n: Name, now: int): Group
    requires n in s.groups
  {
    Blocked(s.groups[n], Blockers(s, n, now))
  }

  ghost function Settled(s: Guard, now: int): Guard {
    s.(groups := map n | n in s.groups :: Committed(s, n, now))
  }

  ghost function Propagated(s: Guard, now: int): Guard {
    Settled(OwnerChecked(s, now), now)
  }

  function SetGroup(s: Guard, n: Name, g: Group): Guard {
    s.(groups := s.groups[n := g])
  }

  function Latch(s: Guard, id: EventId, e: Event): Guard {
    if id in s.events then s else s.(events := s.events[id := e])
  }

  // ---- The calls ----

  datatype Call =
    | Configure(axes: map<Name, Axis>, rules: seq<Association>, version: Name)
    | UnprepareAxis(axis: Name)
    | SetWarning(axis: Name, active: bool, reason: Name)
    | ReportAxis(axis: Name, ready: bool, reason: Name, code: Name, category: Name)
    | ReportBackend(backend: Name, ready: bool, reason: Name)
    | Renew(name: Name, value: Evidence, source: Name, until: int)
    | Post(id: EventId, event: Event)
    | Acknowledge(id: EventId)
    | Arm(group: Name)
    | Run(group: Name)
    | Halt(group: Name)
    | Invalidate(group: Name)
    | Observe
    | CheckInhibit
    | StopAll
    | ResetStop
    | RequireOwner
    | RenewOwner(lifetime: int, issued: int)
    | RegisterWriter(backend: Name, grouped: bool)
    | LegacyReport(component: Name, ready: bool)
    | LegacyFault
    | LegacyArm
    | LegacyRun
    | LegacyHalt
  {
    predicate Reports() { UnprepareAxis? || ReportAxis? || ReportBackend? || Post? }
  }

  predicate WellOwned(axes: map<Name, Axis>) {
    && (forall a | a in axes :: a != NONE && axes[a].group in GROUP_NAMES && axes[a].backend != NONE)
    && (forall n | n in GROUP_NAMES :: exists a | a in axes :: axes[a].group == n)
  }

  function RuleKey(r: Association): (Name, Name, Name, Name) {
    (r.sourceGroup, r.category, r.dependentGroup, r.condition)
  }

  predicate WellRuled(rules: seq<Association>) {
    && (forall r | r in rules ::
          && r.sourceGroup in GROUP_NAMES && r.dependentGroup in GROUP_NAMES && r.sourceGroup != r.dependentGroup
          && r.category != NONE && r.condition != NONE && r.source != NONE)
    && (forall i, j | 0 <= i < j < |rules| :: RuleKey(rules[i]) != RuleKey(rules[j]))
  }

  predicate AnyLive(s: Guard) {
    exists n | n in s.groups :: s.groups[n].Live()
  }

  predicate ConfigureAccepts(s: Guard, axes: map<Name, Axis>, rules: seq<Association>, version: Name) {
    && (forall w | w in s.writers :: s.writers[w])
    && version != NONE && axes != map[]
    && !s.legacy.Live() && !AnyLive(s)
    && WellOwned(axes) && WellRuled(rules)
    && s.events == map[]
  }

  function GroupOf(groups: map<Name, Group>, n: Name): Group {
    if n in groups then groups[n] else Group(Stopped, 0, false, {})
  }

  function RestartedGroups(groups: map<Name, Group>): map<Name, Group> {
    map n | n in GROUP_NAMES :: Group(Stopped, GroupOf(groups, n).epoch + 1, GroupOf(groups, n).ready, {})
  }

  function Rewired(s: Guard, axes: map<Name, Axis>, rules: seq<Association>): Guard {
    s.(axes := map a | a in axes :: axes[a].(ready := false), rules := rules, conditions := map[],
       groups := s.groups + RestartedGroups(s.groups))
  }

  function Configured(s: Guard, axes: map<Name, Axis>, rules: seq<Association>): Guard {
    Refreshed(Rewired(s, axes, rules))
  }

  /** An axis loses its readiness, and its group a live session. */
  function PreparationEnded(s: Guard, axis: Name): Guard
    requires axis in s.axes
  {
    var n := s.axes[axis].group;
    var t := AxisSet(s, axis, false);
    if n in s.groups && s.groups[n].Live() then SetGroup(t, n, Revoked(s.groups[n])) else t
  }

  /** The state an unprepared axis hands to propagation. */
  function AxisUnprepared(s: Guard, axis: Name): Guard
    requires axis in s.axes
  {
    Refreshed(PreparationEnded(s, axis))
  }

  function WarningSet(s: Guard, axis: Name, active: bool, reason: Name, now: int): Guard
    requires axis in s.axes
  {
    if active then
      Latch(s, Warning(axis), Event(axis, s.axes[axis].group, s.axes[axis].backend, FEEDBACK_WARNING, NONE, reason, Warn, now))
    else s.(events := s.events - {Warning(axis)})
  }

  function ReadinessEvent(s: Guard, axis: Name, reason: Name, code: Name, category: Name, now: int): Event
    requires axis in s.axes
  {
    Event(axis, s.axes[axis].group, s.axes[axis].backend, category, code, reason, GroupStop, now)
  }

  function AxisSet(s: Guard, axis: Name, ready: bool): Guard
    requires axis in s.axes
  {
    s.(axes := s.axes[axis := s.axes[axis].(ready := ready)])
  }

  function BackendLost(s: Guard, backend: Name): Guard {
    s.(axes := map a | a in s.axes ::
         if s.axes[a].backend == backend then s.axes[a].(ready := false) else s.axes[a])
  }

  /** The state a readiness report hands to propagation. */
  function AxisRecorded(s: Guard, axis: Name, ready: bool, reason: Name, code: Name, category: Name, now: int): Guard
    requires axis in s.axes
  {
    var t := Refreshed(AxisSet(s, axis, ready));
    if ready then t else Latch(t, Readiness(axis), ReadinessEvent(s, axis, reason, code, category, now))
  }

  predicate KnownBackend(s: Guard, backend: Name) {
    exists a | a in s.axes :: s.axes[a].backend == backend
  }

  function BackendRecorded(s: Guard, backend: Name, ready: bool, reason: Name, now: int): Guard {
    if ready then Refreshed(s)
    else Latch(Refreshed(BackendLost(s, backend)), Backend(backend),
               Event(NONE, NONE, backend, TRANSPORT, NONE, reason, GroupStop, now))
  }

  /** Some rule asks for this evidence from this source. */
  predicate Demanded(rules: seq<Association>, name: Name, source: Name) {
    exists r | r in rules :: r.condition == name && r.source == source
  }

  predicate RenewAccepts(s: Guard, name: Name, value: Evidence, source: Name, until: int, now: int) {
    && name != NONE && source != NONE
    && (value != Unknown ==> until > now)
    && Demanded(s.rules, name, source)
  }

  /** An event with its owning group and backend filled in from its axis. */
  function Attributed(s: Guard, e: Event): Event {
    if e.axis != NONE && e.axis in s.axes then e.(group := s.axes[e.axis].group, backend := s.axes[e.axis].backend) else e
  }

  /** The event names a client identifier and a source that exists and belongs together. */
  predicate WellAttributed(s: Guard, id: EventId, e: Event) {
    && e.timestamp >= 0
    && id.Client? && id.name != NONE && e.reason != NONE
    && (e.axis != NONE ==>
          && e.axis in s.axes
          && (e.group == NONE || e.group == s.axes[e.axis].group)
          && (e.backend == NONE || e.backend == s.axes[e.axis].backend))
    && (Attributed(s, e).group != NONE ==> Attributed(s, e).group in s.groups)
  }

  ghost predicate PostAccepts(s: Guard, id: EventId, e: Event, now: int) {
    && WellAttributed(s, id, e)
    && (e.severity == GroupStop ==> Scope(s, Attributed(s, e), now) != {})
    && (id in s.events ==> SameOccurrence(s.events[id], Attributed(s, e)))
  }

  predicate SameOccurrence(a: Event, b: Event) {
    && a.axis == b.axis && a.group == b.group && a.backend == b.backend
    && a.category == b.category && a.code == b.code && a.severity == b.severity
  }

  function Stamped(e: Event, now: int): Event {
    e.(timestamp := if e.timestamp == 0 then now else e.timestamp)
  }

  function Posted(s: Guard, id: EventId, e: Event, now: int): Guard {
    if id in s.events then s
    else
      var t := Latch(s, id, Stamped(Attributed(s, e), now));
      if e.severity == GlobalStop then t.(inhibit := true, legacy := LegacyFaulted(s.legacy)) else t
  }

  function LegacyFaulted(l: Legacy): Legacy {
    l.(state := Fault, epoch := if l.state == Fault then l.epoch else l.epoch + 1)
  }

  predicate SourceAxis(s: Guard, e: Event, a: Name)
    requires a in s.axes
  {
    || (e.axis != NONE && a == e.axis)
    || (e.axis == NONE && e.group != NONE && s.axes[a].group == e.group)
    || (e.axis == NONE && e.group == NONE && s.axes[a].backend == e.backend)
  }

  predicate SourceReady(s: Guard, e: Event) {
    e.severity == GroupStop || e.severity == GlobalStop ==>
      forall a | a in s.axes :: SourceAxis(s, e, a) ==> s.axes[a].ready
  }

  predicate AcknowledgeAccepts(s: Guard, id: EventId) {
    id in s.events && SourceReady(s, s.events[id])
  }

  /** May group `n` be armed or run, apart from its own state?  (Evaluated after propagation.) */
  predicate Clear(s: Guard, n: Name, now: int)
    requires n in s.groups
  {
    !s.inhibit && OwnerFresh(s, now) && s.groups[n].ready && s.groups[n].blockers == {}
  }

  predicate ArmAccepts(s: Guard, n: Name, now: int) {
    n in s.groups && Clear(s, n, now) && s.groups[n].state != Running
  }

  function ArmedGroup(g: Group): Group {
    g.(state := Armed, epoch := if g.state == Armed then g.epoch else g.epoch + 1)
  }

  predicate RunAccepts(s: Guard, n: Name, now: int) {
    n in s.groups && Clear(s, n, now) && s.groups[n].state == Armed
  }

  function HaltedGroup(g: Group): Group {
    g.(epoch := if g.Live() then g.epoch + 1 else g.epoch, state := if g.state == Fault then Fault else Stopped)
  }

  function InvalidatedGroup(g: Group): Group {
    g.(epoch := g.epoch + 1, state := if g.state == Fault then Fault else Stopped)
  }

  predicate ResetAccepts(s: Guard, now: int) {
    OwnerFresh(s, now) && forall id | id in s.events :: s.events[id].severity != GlobalStop
  }

  function Issued(issued: int, now: int): int { if issued != 0 then issued else now }

  predicate LeaseAccepts(lifetime: int, issued: int, now: int) {
    var i := Issued(issued, now);
    0 < lifetime && 0 <= i <= now && i <= INT64_MAX - lifetime && i + lifetime > now
  }

  function Max(a: int, b: int): int { if a < b then b else a }

  predicate WriterAccepts(s: Guard, backend: Name, grouped: bool) {
    && backend != NONE && (grouped || s.groups == map[])
    && forall w | w in s.writers :: s.writers[w] == grouped
  }

  function ComponentSet(s: Guard, component: Name, ready: bool): Guard {
    s.(legacy := s.legacy.(ready := s.legacy.ready[component := ready]))
  }

  function LiveStopped(s: Guard): Guard {
    if AnyLive(s) then RevokeAll(s).(inhibit := true) else s
  }

  function LegacyDropped(s: Guard): Guard {
    if s.legacy.Live() then s.(legacy := s.legacy.(state := Fault, epoch := s.legacy.epoch + 1)) else s
  }

  function LegacyReported(s: Guard, component: Name, ready: bool): Guard {
    var t := ComponentSet(s, component, ready);
    if ready then t else LegacyDropped(LiveStopped(t))
  }

  function LegacyFaultedAll(s: Guard): Guard {
    var t := if s.groups != map[] then RevokeAll(s).(inhibit := true) else s;
    t.(legacy := LegacyFaulted(s.legacy))
  }

  predicate LegacyArmAccepts(s: Guard) {
    !s.inhibit && s.groups == map[] && forall c | c in s.legacy.ready :: s.legacy.ready[c]
  }

  function LegacyHalted(s: Guard): Guard {
    s.(legacy := s.legacy.(state := Stopped, epoch := s.legacy.epoch + 1),
       groups := map n | n in s.groups ::
         if s.groups[n].Live() then s.groups[n].(state := Stopped, epoch := s.groups[n].epoch + 1) else s.groups[n])
  }

  ghost predicate ReportAccepts(s: Guard, c: Call, now: int)
    requires c.Reports()
  {
    match c
    case UnprepareAxis(axis) => axis in s.axes
    case ReportAxis(axis, _, _, _, _) => axis in s.axes
    case ReportBackend(backend, _, _) => KnownBackend(s, backend)
    case Post(id, e) => PostAccepts(s, id, e, now)
  }

  /** What a report writes down before restrictions are propagated. */
  ghost function Recorded(s: Guard, c: Call, now: int): Guard
    requires c.Reports() && ReportAccepts(s, c, now)
  {
    match c
    case UnprepareAxis(axis) => AxisUnprepared(s, axis)
    case ReportAxis(axis, ready, reason, code, category) => AxisRecorded(s, axis, ready, reason, code, category, now)
    case ReportBackend(backend, ready, reason) => BackendRecorded(s, backend, ready, reason, now)
    case Post(id, e) => Posted(s, id, e, now)
  }

  ghost function Reported(s: Guard, c: Call, now: int): Guard
    requires c.Reports()
  {
    if ReportAccepts(s, c, now) then Propagated(Recorded(s, c, now), now) else s
  }

  /** New evidence is recorded only after the lapse of the old one has been committed. */
  ghost function Renewed(s: Guard, name: Name, c: Condition, now: int): Guard {
    var t := Propagated(s, now);
    Propagated(t.(conditions := t.conditions[name := c]), now)
  }

  ghost function Acknowledged(s: Guard, id: EventId, now: int): Guard {
    var t := Propagated(s, now);
    if AcknowledgeAccepts(t, id) then Propagated(t.(events := t.events - {id}), now) else t
  }

  function ArmTried(t: Guard, n: Name, now: int): Guard {
    if ArmAccepts(t, n, now) then SetGroup(t, n, ArmedGroup(t.groups[n])) else t
  }

  function RunTried(t: Guard, n: Name, now: int): Guard {
    if RunAccepts(t, n, now) then SetGroup(t, n, t.groups[n].(state := Running)) else t
  }

  function StoppedAll(s: Guard): Guard {
    RevokeAll(s).(inhibit := true, legacy := LegacyFaulted(s.legacy))
  }

  function LeaseRenewed(t: Guard, lifetime: int, issued: int, now: int): Guard {
    if LeaseAccepts(lifetime, issued, now)
    then t.(ownerDeadline := Max(t.ownerDeadline, Issued(issued, now) + lifetime)) else t
  }

  function ConfigureTried(s: Guard, axes: map<Name, Axis>, rules: seq<Association>, version: Name): Guard {
    if ConfigureAccepts(s, axes, rules, version) then Configured(s, axes, rules) else s
  }

  function WarningTried(s: Guard, axis: Name, active: bool, reason: Name, now: int): Guard {
    if axis in s.axes then WarningSet(s, axis, active, reason, now) else s
  }

  ghost function RenewTried(s: Guard, name: Name, value: Evidence, source: Name, until: int, now: int): Guard {
    if RenewAccepts(s, name, value, source, until, now) then Renewed(s, name, Condition(value, source, until), now) else s
  }

  function HaltTried(s: Guard, n: Name): Guard {
    if n in s.groups then SetGroup(s, n, HaltedGroup(s.groups[n])) else s
  }

  function InvalidateTried(s: Guard, n: Name): Guard {
    if n in s.groups then SetGroup(s, n, InvalidatedGroup(s.groups[n])) else s
  }

  function ResetTried(s: Guard, now: int): Guard {
    if ResetAccepts(s, now) then s.(ownerExpired := false, inhibit := false) else s
  }

  function OwnerDemanded(s: Guard): Guard {
    s.(ownerRequired := true)
  }

  function WriterTried(s: Guard, backend: Name, grouped: bool): Guard {
    if WriterAccepts(s, backend, grouped) then s.(writers := s.writers[backend := grouped]) else s
  }

  function LegacyArmTried(s: Guard): Guard {
    if LegacyArmAccepts(s) then s.(legacy := s.legacy.(state := Armed, epoch := s.legacy.epoch + 1)) else s
  }

  function LegacyRunTried(s: Guard): Guard {
    if s.legacy.state == Armed then s.(legacy := s.legacy.(state := Running)) else s
  }

  /** The state after one call.  A refused call leaves behind exactly what it did before refusing. */
  ghost function Step(s: Guard, c: Call, now: int): Guard {
    match c
    case Configure(axes, rules, version) => ConfigureTried(s, axes, rules, version)
    case UnprepareAxis(_) => Reported(s, c, now)
    case SetWarning(axis, active, reason) => WarningTried(s, axis, active, reason, now)
    case ReportAxis(_, _, _, _, _) => Reported(s, c, now)
    case ReportBackend(_, _, _) => Reported(s, c, now)
    case Renew(name, value, source, until) => RenewTried(s, name, value, source, until, now)
    case Post(_, _) => Reported(s, c, now)
    case Acknowledge(id) => Acknowledged(s, id, now)
    case Arm(n) => ArmTried(Propagated(s, now), n, now)
    case Run(n) => RunTried(Propagated(s, now), n, now)
    case Halt(n) => HaltTried(s, n)
    case Invalidate(n) => InvalidateTried(s, n)
    case Observe => Propagated(s, now)
    case CheckInhibit => OwnerChecked(s, now)
    case StopAll => StoppedAll(s)
    case ResetStop => ResetTried(s, now)
    case RequireOwner => OwnerDemanded(s)
    case RenewOwner(lifetime, issued) => LeaseRenewed(OwnerChecked(s, now), lifetime, issued, now)
    case RegisterWriter(backend, grouped) => WriterTried(s, backend, grouped)
    case LegacyReport(component, ready) => LegacyReported(s, component, ready)
    case LegacyFault => LegacyFaultedAll(s)
    case LegacyArm => LegacyArmTried(s)
    case LegacyRun => LegacyRunTried(s)
    case LegacyHalt => LegacyHalted(s)
  }

  /** The answer of the permission check of group `n` for the captured epoch `epoch`. */
  ghost predicate Permits(s: Guard, n: Name, epoch: nat, now: int) {
    var t := Propagated(s, now);
    n in t.groups && Clear(t, n, now) && t.groups[n].state == Running && t.groups[n].epoch == epoch
  }

  predicate LegacyPermits(s: Guard, epoch: nat) {
    !s.inhibit && s.legacy.state == Running && s.legacy.epoch == epoch
  }
}
