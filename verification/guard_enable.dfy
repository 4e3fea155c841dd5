/** Arming, and why groups are enabled together. */
module GuardEnable {
  import opened Closure
  import opened Guard
  import opened GuardInvariant
  import opened GuardSessions
  import opened GuardSafety

  lemma ArmsExactly(s: Guard, n: Name, now: int)
    requires Valid(s)
    ensures ArmAccepts(Propagated(s, now), n, now) <==>
      && n in s.groups && !s.inhibit && OwnerFresh(s, now) && s.groups[n].ready && Blockers(s, n, now) == {}
      && s.groups[n].state != Running
  {
    PropagatedIs(s, now);
  }

  /** Alone, a dependent group cannot be armed while its source is unready and no evidence says that
      this is safe: the attempt is refused and leaves it in Fault. */
  lemma DependentAloneIsRefused(s: Guard, n: Name, h: Name, rule: Association, now: int)
    requires Valid(s) && n in s.groups && h in s.groups && h != n && !s.groups[h].ready
    requires rule in s.rules && rule.sourceGroup == h && rule.dependentGroup == n
    requires rule.category == ANY_CATEGORY || rule.category == UNAVAILABLE
    requires rule.condition in s.conditions ==>
      || s.conditions[rule.condition].value != Satisfied
      || s.conditions[rule.condition].source != rule.source
      || s.conditions[rule.condition].validUntil <= now
    ensures !ArmAccepts(Propagated(s, now), n, now)
    ensures n in Step(s, Arm(n), now).groups && Step(s, Arm(n), now).groups[n].state == Fault
  {
    UnreadyRestricts(s, n, h, rule, now);
    RestrictedArmIsRefused(s, n, now);
  }

  lemma RestrictedArmIsRefused(s: Guard, n: Name, now: int)
    requires n in s.groups && Blockers(s, n, now) != {}
    ensures !ArmAccepts(Propagated(s, now), n, now)
    ensures n in Step(s, Arm(n), now).groups && Step(s, Arm(n), now).groups[n].state == Fault
  {
    PropagatedIs(s, now);
  }

  lemma UnreadyRestricts(s: Guard, n: Name, h: Name, rule: Association, now: int)
    requires n in s.groups && h in s.groups && h != n && h != NONE && !s.groups[h].ready
    requires rule in s.rules && rule.sourceGroup == h && rule.dependentGroup == n
    requires rule.category == ANY_CATEGORY || rule.category == UNAVAILABLE
    requires rule.condition in s.conditions ==>
      || s.conditions[rule.condition].value != Satisfied
      || s.conditions[rule.condition].source != rule.source
      || s.conditions[rule.condition].validUntil <= now
    ensures ByUnready(h) in Blockers(s, n, now)
  {
    var e := Unavailable(h);
    LeastBounds(Sources(s, e), Edges(s, e, now));
    assert h in Sources(s, e);
    assert Spreads(s, rule, e, now);
    assert (h, n) in Edges(s, e, now);
    assert Covers(s, ByUnready(h), n, now);
  }

  // ---- Joint enabling ----

  /** Where a joint enable may start: no emergency, and nothing running. */
  ghost predicate Calm(s: Guard) {
    && Valid(s) && !s.inhibit
    && (forall n | n in s.groups :: s.groups[n].state != Running)
    && (forall id | id in s.events :: s.events[id].severity != GlobalStop)
  }

  /** What the prepare phase establishes: every group is ready as well. */
  ghost predicate Prepared(s: Guard) {
    Calm(s) && forall n | n in s.groups :: s.groups[n].ready
  }

  /** What goes on in every phase: feedback cycles of ready axes, permission checks, heartbeats. */
  predicate Background(c: Call) {
    c.Observe? || c.RenewOwner? || (c.ReportAxis? && c.ready)
  }

  /** Still calm, under a lease that lasts, with the same axes and groups, and no axis lost. */
  ghost predicate Follows(s: Guard, t: Guard, last: int) {
    && Calm(t) && OwnerFresh(t, last) && t.groups.Keys == s.groups.Keys && t.axes.Keys == s.axes.Keys
    && forall a | a in s.axes :: t.axes[a].group == s.axes[a].group && (s.axes[a].ready ==> t.axes[a].ready)
  }

  lemma FollowsOn(s: Guard, t: Guard, u: Guard, last: int)
    requires Follows(s, t, last) && Follows(t, u, last)
    ensures Follows(s, u, last)
  {
    hide Calm, OwnerFresh;
  }

  lemma PreparedFollows(s: Guard, t: Guard, last: int)
    requires Prepared(s) && Follows(s, t, last)
    ensures Prepared(t)
  {
    AllAxesReady(s);
    forall n | n in t.groups ensures t.groups[n].ready { assert t.groups[n].ready == AllReady(t.axes, n); }
  }

  lemma AllAxesReady(s: Guard)
    requires Valid(s) && forall n | n in s.groups :: s.groups[n].ready
    ensures forall a | a in s.axes :: s.axes[a].ready
  {
    forall a | a in s.axes ensures s.axes[a].ready {
      assert s.groups[s.axes[a].group].ready == AllReady(s.axes, s.axes[a].group);
    }
  }

  lemma AllGroupsReady(s: Guard)
    requires Valid(s) && forall a | a in s.axes :: s.axes[a].ready
    ensures forall n | n in s.groups :: s.groups[n].ready
  {
    forall n | n in s.groups ensures s.groups[n].ready { assert s.groups[n].ready == AllReady(s.axes, n); }
  }

  lemma PropagationFollows(s: Guard, now: int, last: int)
    requires Calm(s) && OwnerFresh(s, last) && now <= last
    ensures Follows(s, Propagated(s, now), last) && Propagated(s, now).events == s.events && Propagated(s, now).axes == s.axes
  {
    PropagatedIs(s, now);
    PropagateKeepsValid(s, now);
    hide Propagated, Valid;
  }

  lemma ReportFollows(s: Guard, axis: Name, reason: Name, code: Name, category: Name, now: int, last: int)
    requires Calm(s) && OwnerFresh(s, last) && now <= last
    ensures var t := Step(s, ReportAxis(axis, true, reason, code, category), now);
      Follows(s, t, last) && t.events == s.events && (axis in s.axes ==> t.axes[axis].ready)
  {
    var c := ReportAxis(axis, true, reason, code, category);
    if axis in s.axes {
      var r := Refreshed(AxisSet(s, axis, true));
      assert Step(s, c, now) == Propagated(r, now);
      hide Step, Propagated, Refreshed, AxisSet, Calm, OwnerFresh;
      ReadyReportFollows(s, axis, last);
      PropagationFollows(r, now, last);
      FollowsOn(s, r, Propagated(r, now), last);
    } else {
      assert Step(s, c, now) == s;
    }
  }

  lemma ReadyReportFollows(s: Guard, axis: Name, last: int)
    requires Calm(s) && OwnerFresh(s, last) && axis in s.axes
    ensures var r := Refreshed(AxisSet(s, axis, true));
      Follows(s, r, last) && r.events == s.events && r.axes == s.axes[axis := s.axes[axis].(ready := true)]
  {
    hide LiveIsSafe, Refreshed, AllReady;
    var u := AxisSet(s, axis, true);
    RecordedIsConsistent(s, u);
    ReadyReportKeepsLive(s, axis);
    RefreshedElsewhere(u);
    hide Consistent;
  }

  lemma RefreshedElsewhere(u: Guard)
    ensures var r := Refreshed(u); r == u.(groups := r.groups) && r.groups.Keys == u.groups.Keys
  {
  }

  lemma ReadyReportKeepsLive(s: Guard, axis: Name)
    requires Valid(s) && axis in s.axes
    ensures var r := Refreshed(AxisSet(s, axis, true));
      LiveIsSafe(r) && forall n | n in r.groups :: n in s.groups && r.groups[n].state == s.groups[n].state
  {
    OtherGroupsKeepReadiness(s, AxisSet(s, axis, true), axis);
    hide AllReady, Consistent;
  }

  lemma HeartbeatFollows(s: Guard, lifetime: int, issued: int, now: int, last: int)
    requires Calm(s) && OwnerFresh(s, last) && now <= last
    ensures var t := Step(s, RenewOwner(lifetime, issued), now);
      Follows(s, t, last) && t.events == s.events && t.groups == s.groups && t.axes == s.axes
  {
    LeaseKeepsValid(s, lifetime, issued, now);
    hide Valid;
    assert OwnerChecked(s, now) == s;
    hide OwnerChecked, LeaseAccepts, Issued;
  }

  lemma BackgroundFollows(s: Guard, c: Call, now: int, last: int)
    requires Calm(s) && OwnerFresh(s, last) && now <= last && Background(c)
    ensures var t := Step(s, c, now);
      Follows(s, t, last) && t.events == s.events && (c.ReportAxis? && c.axis in s.axes ==> t.axes[c.axis].ready)
  {
    hide Calm, Follows, OwnerFresh;
    match c
    case Observe => PropagationFollows(s, now, last);
    case RenewOwner(lifetime, issued) => HeartbeatFollows(s, lifetime, issued, now, last);
    case ReportAxis(axis, _, reason, code, category) => ReportFollows(s, axis, reason, code, category, now, last);
  }

  // ---- The prepare phase ----

  ghost function Reports(run: seq<Timed>): set<Name> {
    set i | 0 <= i < |run| && run[i].call.ReportAxis? :: run[i].call.axis
  }

  ghost predicate AllBackground(run: seq<Timed>) {
    forall i | 0 <= i < |run| :: Background(run[i].call)
  }

  lemma {:induction false} PreparePhase(s: Guard, run: seq<Timed>, start: int, last: int)
    requires Calm(s) && OwnerFresh(s, last) && Ordered(run, start) && End(run, start) <= last && AllBackground(run)
    ensures var t := After(s, run);
      && Follows(s, t, last) && t.events == s.events
      && forall a | a in s.axes && a in Reports(run) :: t.axes[a].ready
    decreases run
  {
    if run != [] {
      hide Step, Calm, OwnerFresh;
      var u := Step(s, run[0].call, run[0].now);
      OrderedEnd(run, start);
      OrderedEnd(run[1..], run[0].now);
      BackgroundFollows(s, run[0].call, run[0].now, last);
      PreparePhase(u, run[1..], run[0].now, last);
      hide Ordered, End;
      FollowsOn(s, u, After(s, run), last);
      forall a | a in s.axes && a in Reports(run) ensures After(s, run).axes[a].ready {
        var i :| 0 <= i < |run| && run[i].call.ReportAxis? && run[i].call.axis == a;
        if i > 0 { assert run[1..][i - 1] == run[i]; }
      }
    }
  }

  // ---- The acknowledge phase ----

  /** The category of the lock that an unresolved maintenance journal puts on a group. */
  const MAINTENANCE: Name := 11

  /** The event `maintenance:` of group `g`; names are interned. */
  function MaintenanceLock(g: Name): EventId { Client(100 + g) }

  /** What the two services of group `g` confirm: its own lock, and its own stops.  Events of other groups,
      events of a backend alone, foreign maintenance locks and emergencies are skipped. */
  predicate Confirms(g: Name, id: EventId, e: Event) {
    id == MaintenanceLock(g) || (e.group == g && e.category != MAINTENANCE && e.severity != GlobalStop)
  }

  function Confirmed(s: Guard, g: Name): set<EventId> {
    set id | id in s.events && Confirms(g, id, s.events[id])
  }

  datatype Service = Service(group: Name, run: seq<Timed>)

  function Acknowledges(run: seq<Timed>): set<EventId>
    decreases run
  {
    if run == [] then {} else (if run[0].call.Acknowledge? then {run[0].call.id} else {}) + Acknowledges(run[1..])
  }

  /** The services of the groups one after the other, each acknowledging in any order exactly what it
      confirms of the events latched when it starts. */
  ghost predicate Serving(s: Guard, services: seq<Service>)
    decreases services
  {
    services == [] ||
      (&& Acknowledges(services[0].run) == Confirmed(s, services[0].group)
       && (forall i | 0 <= i < |services[0].run| :: services[0].run[i].call.Acknowledge? || Background(services[0].run[i].call))
       && Serving(After(s, services[0].run), services[1..]))
  }

  function Whole(services: seq<Service>): seq<Timed> {
    if services == [] then [] else services[0].run + Whole(services[1..])
  }

  ghost predicate ServedBy(services: seq<Service>, id: EventId, e: Event) {
    exists i | 0 <= i < |services| :: Confirms(services[i].group, id, e)
  }

  lemma AcknowledgeStep(s: Guard, id: EventId, now: int, last: int)
    requires Prepared(s) && OwnerFresh(s, last) && now <= last
    ensures var t := Step(s, Acknowledge(id), now); Prepared(t) && Follows(s, t, last) && t.events == s.events - {id}
  {
    var p := Propagated(s, now);
    PropagationFollows(s, now, last);
    PreparedFollows(s, p, last);
    AllAxesReady(p);
    hide Propagated, Valid, OwnerFresh;
    if id in p.events {
      var q := p.(events := p.events - {id});
      AcknowledgedIsPrepared(p, id);
      assert Step(s, Acknowledge(id), now) == Propagated(q, now);
      PropagationFollows(q, now, last);
      PreparedFollows(q, Propagated(q, now), last);
    } else {
      assert Step(s, Acknowledge(id), now) == p;
    }
  }

  lemma AcknowledgedIsPrepared(p: Guard, id: EventId)
    requires Prepared(p)
    ensures Prepared(p.(events := p.events - {id}))
  {
    FewerEventsKeepValid(p, {id});
  }

  lemma {:induction false} ServicePhase(s: Guard, run: seq<Timed>, start: int, last: int)
    requires Prepared(s) && OwnerFresh(s, last) && Ordered(run, start) && End(run, start) <= last
    requires forall i | 0 <= i < |run| :: run[i].call.Acknowledge? || Background(run[i].call)
    ensures var t := After(s, run); Prepared(t) && Follows(s, t, last) && t.events == s.events - Acknowledges(run)
    decreases run
  {
    if run != [] {
      var u := Step(s, run[0].call, run[0].now);
      OrderedEnd(run, start);
      OrderedEnd(run[1..], run[0].now);
      if run[0].call.Acknowledge? {
        AcknowledgeStep(s, run[0].call.id, run[0].now, last);
      } else {
        BackgroundFollows(s, run[0].call, run[0].now, last);
        PreparedFollows(s, u, last);
      }
      hide Step, Calm, Prepared, OwnerFresh;
      ServicePhase(u, run[1..], run[0].now, last);
      FollowsOn(s, u, After(s, run), last);
    }
  }

  lemma {:induction false} AfterBoth(s: Guard, a: seq<Timed>, b: seq<Timed>)
    ensures After(s, a + b) == After(After(s, a), b)
    decreases a
  {
    AfterSplits(s, a + b, |a|);
    assert (a + b)[..|a|] == a && (a + b)[|a|..] == b;
  }

  lemma {:induction false} OrderedParts(a: seq<Timed>, b: seq<Timed>, start: int)
    requires Ordered(a + b, start)
    ensures Ordered(a, start) && Ordered(b, End(a, start)) && End(a + b, start) == End(b, End(a, start))
    ensures End(a, start) <= End(a + b, start)
    decreases a
  {
    OrderedEnd(a + b, start);
    if a != [] {
      assert (a + b)[1..] == a[1..] + b;
      OrderedParts(a[1..], b, a[0].now);
      OrderedEnd(a, start);
    } else {
      assert a + b == b;
    }
  }

  /** The acknowledge phase clears exactly the events that some service confirms. */
  lemma {:induction false} ServicesClearExactly(s: Guard, services: seq<Service>, start: int, last: int)
    requires Prepared(s) && OwnerFresh(s, last) && Serving(s, services)
    requires Ordered(Whole(services), start) && End(Whole(services), start) <= last
    ensures var t := After(s, Whole(services));
      && Prepared(t) && Follows(s, t, last)
      && (forall id | id in t.events :: id in s.events && t.events[id] == s.events[id])
      && forall id | id in s.events :: id in t.events <==> !ServedBy(services, id, s.events[id])
    decreases services
  {
    if services != [] {
      var first, rest := services[0], Whole(services[1..]);
      var u := After(s, first.run);
      OrderedParts(first.run, rest, start);
      OrderedEnd(rest, End(first.run, start));
      ServicePhase(s, first.run, start, last);
      AfterBoth(s, first.run, rest);
      hide Prepared, Calm, OwnerFresh, After, Ordered, End;
      ServicesClearExactly(u, services[1..], End(first.run, start), last);
      FollowsOn(s, u, After(s, Whole(services)), last);
      forall id | id in s.events ensures ServedBy(services, id, s.events[id]) <==>
        Confirms(first.group, id, s.events[id]) || ServedBy(services[1..], id, s.events[id])
      {
        ServedByFirstOrRest(services, id, s.events[id]);
      }
    }
  }

  lemma ServedByFirstOrRest(services: seq<Service>, id: EventId, e: Event)
    requires services != []
    ensures ServedBy(services, id, e) <==> Confirms(services[0].group, id, e) || ServedBy(services[1..], id, e)
  {
    if ServedBy(services[1..], id, e) {
      var i :| 0 <= i < |services[1..]| && Confirms(services[1..][i].group, id, e);
      assert services[i + 1] == services[1..][i];
    }
    if i :| 0 < i < |services| && Confirms(services[i].group, id, e) {
      assert services[1..][i - 1] == services[i];
    }
  }

  /** An event of a backend alone is confirmed by no service, and while it is latched no group with an axis
      on that backend can be armed. */
  lemma BackendEventBlocksEnable(s: Guard, services: seq<Service>, backend: Name, a: Name, now: int)
    requires Valid(s) && Backend(backend) in s.events && a in s.axes && s.axes[a].backend == backend
    requires forall i | 0 <= i < |services| :: services[i].group in s.groups
    ensures !ServedBy(services, Backend(backend), s.events[Backend(backend)])
    ensures !ArmAccepts(Propagated(s, now), s.axes[a].group, now)
  {
    var e := s.events[Backend(backend)];
    assert WiredEvent(s, Backend(backend), e);
    assert Named(s, e) == {};
    SourceIsCovered(s, Backend(backend), s.axes[a].group, now);
    RestrictedArmIsRefused(s, s.axes[a].group, now);
  }

  // ---- The arm phase ----

  ghost predicate NoStops(s: Guard) {
    forall id | id in s.events :: s.events[id].severity != GroupStop
  }

  ghost predicate StaysArmed(s: Guard, t: Guard) {
    forall n | n in s.groups && s.groups[n].state == Armed :: n in t.groups && t.groups[n].state == Armed
  }

  ghost function Arms(run: seq<Timed>): set<Name> {
    set i | 0 <= i < |run| && run[i].call.Arm? :: run[i].call.group
  }

  /** With every axis ready and no stop event left, nothing restricts anything. */
  lemma NothingRestricts(s: Guard, n: Name, now: int)
    requires Prepared(s) && NoStops(s)
    ensures Blockers(s, n, now) == {}
  {
    if r :| r in Blockers(s, n, now) {
      match r
      case ByEvent(id) =>
        NoSources(Edges(s, s.events[id], now));
      case ByUnready(h) =>
    }
  }

  lemma PropagationStaysArmed(s: Guard, now: int, last: int)
    requires Prepared(s) && NoStops(s) && OwnerFresh(s, last) && now <= last
    ensures StaysArmed(s, Propagated(s, now))
  {
    PropagatedIs(s, now);
    forall n | n in s.groups ensures Blockers(s, n, now) == {} { NothingRestricts(s, n, now); }
    hide Propagated, Blockers, Valid;
  }

  lemma ArmStep(s: Guard, m: Name, now: int, last: int)
    requires Prepared(s) && NoStops(s) && OwnerFresh(s, last) && now <= last
    ensures var t := Step(s, Arm(m), now);
      && Prepared(t) && Follows(s, t, last) && t.events == s.events && StaysArmed(s, t)
      && (m in s.groups ==> t.groups[m].state == Armed)
  {
    var p := Propagated(s, now);
    assert Step(s, Arm(m), now) == ArmTried(p, m, now);
    PropagationFollows(s, now, last);
    PreparedFollows(s, p, last);
    PropagationStaysArmed(s, now, last);
    ArmIsAccepted(s, m, now, last);
    hide *;
    ArmTriedStep(s, p, m, now, last);
  }

  lemma ArmIsAccepted(s: Guard, m: Name, now: int, last: int)
    requires Prepared(s) && NoStops(s) && OwnerFresh(s, last) && now <= last
    ensures ArmAccepts(Propagated(s, now), m, now) <==> m in s.groups
  {
    hide Propagated, ArmAccepts, NoStops, Blockers;
    NothingRestricts(s, m, now);
    ArmsExactly(s, m, now);
  }

  lemma ArmTriedStep(s: Guard, p: Guard, m: Name, now: int, last: int)
    requires Prepared(p) && Follows(s, p, last) && p.events == s.events && StaysArmed(s, p)
    requires ArmAccepts(p, m, now) <==> m in s.groups
    ensures var t := ArmTried(p, m, now);
      && Prepared(t) && Follows(s, t, last) && t.events == s.events && StaysArmed(s, t)
      && (m in s.groups ==> t.groups[m].state == Armed)
  {
    if m in s.groups {
      ArmedIsPrepared(p, m);
      assert ArmTried(p, m, now) == SetGroup(p, m, ArmedGroup(p.groups[m]));
      hide ArmAccepts, ArmTried, Valid;
    }
  }

  lemma ArmedIsPrepared(p: Guard, m: Name)
    requires Prepared(p) && m in p.groups
    ensures Prepared(SetGroup(p, m, ArmedGroup(p.groups[m])))
  {
    SetGroupKeepsValid(p, m, ArmedGroup(p.groups[m]));
    hide Valid;
  }

  lemma ReadyReportChangesNothing(s: Guard, c: Call, now: int)
    requires Prepared(s) && c.ReportAxis? && c.ready
    ensures Step(s, c, now) == if c.axis in s.axes then Propagated(s, now) else s
  {
    AllAxesReady(s);
    if c.axis in s.axes {
      assert s.axes[c.axis := s.axes[c.axis].(ready := true)] == s.axes;
      assert AxisSet(s, c.axis, true) == s;
      assert Refreshed(s).groups == s.groups;
    }
    hide Propagated;
  }

  lemma BackgroundStaysArmed(s: Guard, c: Call, now: int, last: int)
    requires Prepared(s) && NoStops(s) && OwnerFresh(s, last) && now <= last && Background(c)
    ensures StaysArmed(s, Step(s, c, now))
  {
    if c.RenewOwner? {
      HeartbeatFollows(s, c.lifetime, c.issued, now, last);
      hide Step, Calm;
    } else {
      PropagationStaysArmed(s, now, last);
      if c.ReportAxis? { ReadyReportChangesNothing(s, c, now); }
      hide Propagated, Calm, Reported;
    }
  }

  lemma {:induction false} ArmPhase(s: Guard, run: seq<Timed>, start: int, last: int)
    requires Prepared(s) && NoStops(s) && OwnerFresh(s, last) && Ordered(run, start) && End(run, start) <= last
    requires forall i | 0 <= i < |run| :: run[i].call.Arm? || Background(run[i].call)
    ensures var t := After(s, run);
      && t.groups.Keys == s.groups.Keys && StaysArmed(s, t)
      && forall n | n in s.groups && n in Arms(run) :: t.groups[n].state == Armed
    decreases run
  {
    if run != [] {
      var u := Step(s, run[0].call, run[0].now);
      OrderedEnd(run, start);
      OrderedEnd(run[1..], run[0].now);
      if run[0].call.Arm? {
        ArmStep(s, run[0].call.group, run[0].now, last);
      } else {
        BackgroundFollows(s, run[0].call, run[0].now, last);
        PreparedFollows(s, u, last);
        BackgroundStaysArmed(s, run[0].call, run[0].now, last);
      }
      hide Step, Prepared, Calm, Ordered, End, OwnerFresh;
      ArmPhase(u, run[1..], run[0].now, last);
      forall n | n in s.groups && n in Arms(run) ensures After(s, run).groups[n].state == Armed {
        var i :| 0 <= i < |run| && run[i].call.Arm? && run[i].call.group == n;
        if i > 0 { assert run[1..][i - 1] == run[i]; assert n in Arms(run[1..]); }
      }
    }
  }

  /** Enabling composes.  From any calm state whose stops the services confirm, a run that reports every
      unready axis ready, then serves every group, then arms every group ends with all of them Armed, in any
      order within each phase and with feedback, checks and heartbeats in between, provided that the owner
      lease lasts. */
  lemma JointEnableArmsEveryGroup(s: Guard, prepares: seq<Timed>, services: seq<Service>, arms: seq<Timed>, start: int)
    requires Calm(s) && AllBackground(prepares) && Serving(After(s, prepares), services)
    requires forall i | 0 <= i < |arms| :: arms[i].call.Arm? || Background(arms[i].call)
    requires forall a | a in s.axes && !s.axes[a].ready :: a in Reports(prepares)
    requires forall id | id in s.events && s.events[id].severity == GroupStop :: ServedBy(services, id, s.events[id])
    requires s.groups.Keys <= Arms(arms)
    requires Ordered(prepares + (Whole(services) + arms), start)
    requires OwnerFresh(s, End(prepares + (Whole(services) + arms), start))
    ensures var t := After(s, prepares + (Whole(services) + arms));
      t.groups.Keys == s.groups.Keys && forall n | n in s.groups :: t.groups[n].state == Armed
  {
    var last := End(prepares + (Whole(services) + arms), start);
    OrderedParts(prepares, Whole(services) + arms, start);
    OrderedParts(Whole(services), arms, End(prepares, start));
    AfterBoth(s, prepares, Whole(services) + arms);
    AfterBoth(After(s, prepares), Whole(services), arms);
    PreparePhase(s, prepares, start, last);
    AllGroupsReady(After(s, prepares));
    hide After, Ordered, End, OwnerFresh, Valid;
    ServicesClearExactly(After(s, prepares), services, End(prepares, start), last);
    ArmPhase(After(After(s, prepares), Whole(services)), arms, End(Whole(services), End(prepares, start)), last);
  }
}
