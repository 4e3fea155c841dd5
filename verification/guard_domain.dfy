/** The guard as it is programmed: an object whose calls update its tables in place, each proved to do
    exactly what the corresponding step of the specification says. */
module GuardDomain {
  import opened Closure
  import opened Guard
  import opened GuardInvariant

  class Domain {
    var axes: map<Name, Axis>
    var groups: map<Name, Group>
    var associations: seq<Association>
    var conditions: map<Name, Condition>
    var events: map<EventId, Event>
    var writers: map<Name, bool>
    var globalInhibit: bool
    var ownerRequired: bool
    var ownerDeadline: int
    var ownerExpired: bool
    var state: State
    var epoch: nat
    var readiness: map<Name, bool>

    ghost function View(): Guard
      reads this
    {
      Guard(axes, groups, associations, conditions, events, writers, globalInhibit,
            ownerRequired, ownerDeadline, ownerExpired, Legacy(state, epoch, readiness))
    }

    constructor ()
      ensures View() == INITIAL && Valid(View())
    {
      axes, groups, associations, conditions, events, writers := map[], map[], [], map[], map[], map[];
      globalInhibit, ownerRequired, ownerDeadline, ownerExpired := false, false, 0, false;
      state, epoch, readiness := Stopped, 0, map[CANOPEN := false, CAN_DRIVER := false];
    }

    // ---- Internals ----

    predicate ConditionSatisfied(rule: Association, now: int)
      reads this
      ensures ConditionSatisfied(rule, now) == Holds(View(), rule, now)
    {
      && rule.condition in conditions
      && conditions[rule.condition].value == Satisfied
      && conditions[rule.condition].source == rule.source
      && conditions[rule.condition].validUntil > now
    }

    method RefreshGroups()
      modifies this`groups
      ensures View() == Refreshed(old(View()))
    {
      var pending := groups.Keys;
      while exists n :: n in pending
        invariant groups.Keys == old(groups).Keys && pending <= groups.Keys
        invariant forall n | n in groups ::
          groups[n] == if n in pending then old(groups)[n] else old(groups)[n].(ready := AllReady(axes, n))
        decreases pending
      {
        var n :| n in pending;
        var ready := true;
        var rest := axes.Keys;
        while exists a :: a in rest
          invariant rest <= axes.Keys
          invariant ready == forall a | a in axes && a !in rest && axes[a].group == n :: axes[a].ready
          decreases rest
        {
          var a :| a in rest;
          if axes[a].group == n && !axes[a].ready { ready := false; }
          rest := rest - {a};
        }
        groups := groups[n := groups[n].(ready := ready)];
        pending := pending - {n};
      }
      assert groups == Refreshed(old(View())).groups;
    }

    method RevokeGroup(n: Name)
      requires n in groups
      modifies this`groups
      ensures groups == old(groups)[n := Revoked(old(groups)[n])]
    {
      var g := groups[n];
      if g.state != Fault { g := g.(epoch := g.epoch + 1); }
      groups := groups[n := g.(state := Fault)];
    }

    method RevokeEveryGroup()
      modifies this`groups
      ensures View() == RevokeAll(old(View()))
    {
      var pending := groups.Keys;
      while exists n :: n in pending
        invariant groups.Keys == old(groups).Keys && pending <= groups.Keys
        invariant forall n | n in groups ::
          groups[n] == if n in pending then old(groups)[n] else Revoked(old(groups)[n])
        decreases pending
      {
        var n :| n in pending;
        RevokeGroup(n);
        pending := pending - {n};
      }
      ghost var goal := RevokeAll(old(View())).groups;
      assert groups.Keys == goal.Keys && forall n | n in goal :: groups[n] == goal[n];
      assert groups == goal;
    }

    method SourcesOf(e: Event) returns (result: set<Name>)
      requires e.axis != NONE ==> e.axis in axes
      ensures result == Sources(View(), e)
    {
      result := {};
      if e.severity == GlobalStop {
        result := groups.Keys;
      } else if e.severity == GroupStop {
        if e.axis != NONE { result := result + {axes[e.axis].group}; }
        if e.group != NONE { result := result + {e.group}; }
        if result == {} { result := set a | a in axes && axes[a].backend == e.backend :: axes[a].group; }
      }
    }

    /** The growing set of affected groups, rule by rule, until a pass adds nothing. */
    method ScopeOf(e: Event, now: int) returns (result: set<Name>)
      requires e.axis != NONE ==> e.axis in axes
      ensures result == Scope(View(), e, now)
    {
      result := SourcesOf(e);
      ghost var sources, edges := Sources(View(), e), Edges(View(), e, now);
      LeastBounds(sources, edges);
      var changed := true;
      while changed
        invariant sources <= result <= Least(sources, edges)
        invariant !changed ==> Closed(result, edges)
        decreases Least(sources, edges) - result, changed
      {
        result, changed := SpreadOnce(e, now, result, sources);
      }
      Unique(result, sources, edges);
    }

    /** One pass over the rules. */
    method SpreadOnce(e: Event, now: int, start: set<Name>, ghost sources: set<Name>) returns (result: set<Name>, changed: bool)
      requires start <= Least(sources, Edges(View(), e, now))
      ensures start <= result <= Least(sources, Edges(View(), e, now))
      ensures changed <==> start != result
      ensures !changed ==> Closed(result, Edges(View(), e, now))
    {
      ghost var edges := Edges(View(), e, now);
      LeastBounds(sources, edges);
      result, changed := start, false;
      for i := 0 to |associations|
        invariant start <= result <= Least(sources, edges)
        invariant changed <==> start != result
        invariant !changed ==> forall j | 0 <= j < i ::
          Spreads(View(), associations[j], e, now) && associations[j].sourceGroup in result ==> associations[j].dependentGroup in result
      {
        var rule := associations[i];
        if rule.sourceGroup in result
           && (rule.category == ANY_CATEGORY || rule.category == e.category || rule.sourceGroup != e.group)
           && !ConditionSatisfied(rule, now) && rule.dependentGroup !in result
        {
          assert (rule.sourceGroup, rule.dependentGroup) in edges;
          result := result + {rule.dependentGroup};
          changed := true;
        }
      }
    }

    method CollectEvents(now: int) returns (out: map<Restriction, set<Name>>)
      requires Wired(View())
      ensures Collected(View(), out, set g | g in groups :: ByUnready(g), now)
    {
      out := map[];
      var latched := events.Keys;
      ghost var unready := set g | g in groups :: ByUnready(g);
      while exists id :: id in latched
        invariant latched <= events.Keys
        invariant Collected(View(), out, unready + (set id | id in latched :: ByEvent(id)), now)
        decreases latched
      {
        var id :| id in latched;
        assert WiredEvent(View(), id, events[id]);
        ScopeIsKnown(View(), events[id], now);
        var scope := ScopeOf(events[id], now);
        out := out[ByEvent(id) := scope];
        latched := latched - {id};
      }
      assert unready + (set id | id in latched :: ByEvent(id)) == unready;
    }

    method AffectedByUnready(g: Name, now: int) returns (affected: set<Name>)
      requires Wired(View()) && g in groups && !groups[g].ready
      ensures affected <= groups.Keys
      ensures forall n :: n in affected <==> Covers(View(), ByUnready(g), n, now)
    {
      ScopeIsKnown(View(), Unavailable(g), now);
      affected := ScopeOf(Unavailable(g), now);
      affected := affected - {g};
    }

    method CollectRestrictions(now: int) returns (out: map<Restriction, set<Name>>)
      requires Wired(View())
      ensures Collected(View(), out, {}, now)
    {
      out := CollectEvents(now);
      var pending := groups.Keys;
      while exists g :: g in pending
        invariant pending <= groups.Keys
        invariant Collected(View(), out, set g | g in pending :: ByUnready(g), now)
        decreases pending
      {
        var g :| g in pending;
        if !groups[g].ready {
          var affected := AffectedByUnready(g, now);
          out := out[ByUnready(g) := affected];
        }
        pending := pending - {g};
      }
      assert (set g | g in pending :: ByUnready(g)) == {};
    }

    method ExpireOwner(now: int)
      modifies this`groups, this`globalInhibit, this`ownerExpired
      ensures View() == OwnerChecked(old(View()), now)
    {
      if ownerRequired && ownerDeadline > 0 && !ownerExpired && !(!ownerRequired || ownerDeadline > now) {
        ownerExpired := true;
        globalInhibit := true;
        RevokeEveryGroup();
      }
    }

    method ApplyRestriction(r: Restriction, names: set<Name>)
      requires names <= groups.Keys
      modifies this`groups
      ensures groups.Keys == old(groups).Keys
      ensures forall n | n in groups ::
        groups[n] == if n in names then Restricted(old(groups)[n], r) else old(groups)[n]
    {
      var rest := names;
      while exists n :: n in rest
        invariant rest <= names && groups.Keys == old(groups).Keys
        invariant forall n | n in groups ::
          groups[n] == if n in names - rest then Restricted(old(groups)[n], r) else old(groups)[n]
        decreases rest
      {
        var n :| n in rest;
        groups := groups[n := groups[n].(blockers := groups[n].blockers + {r})];
        RevokeGroup(n);
        rest := rest - {n};
      }
    }

    method ApplyRestrictions(out: map<Restriction, set<Name>>)
      requires forall r | r in out :: out[r] <= groups.Keys
      requires forall n | n in groups :: groups[n].blockers == {}
      modifies this`groups
      ensures groups.Keys == old(groups).Keys
      ensures forall n | n in groups :: groups[n] == Blocked(old(groups)[n], set r | r in out && n in out[r])
    {
      var todo := out.Keys;
      while exists r :: r in todo
        invariant todo <= out.Keys && groups.Keys == old(groups).Keys
        invariant forall n | n in groups :: groups[n] == Blocked(old(groups)[n], set r | r in out && r !in todo && n in out[r])
        decreases todo
      {
        var r :| r in todo;
        OneMore(out, todo, r);
        ApplyRestriction(r, out[r]);
        todo := todo - {r};
      }
      forall n | n in groups ensures (set r | r in out && r !in todo && n in out[r]) == (set r | r in out && n in out[r]) {}
    }

    method ClearBlockers()
      modifies this`groups
      ensures groups == map n | n in old(groups) :: old(groups)[n].(blockers := {})
    {
      groups := map n | n in groups :: groups[n].(blockers := {});
    }

    method Settle(now: int)
      requires Wired(View())
      modifies this`groups
      ensures View() == Settled(old(View()), now)
    {
      ghost var start := View();
      ClearBlockers();
      ghost var cleared := View();
      ClearedIsWired(start, cleared);
      var out := CollectRestrictions(now);
      ApplyRestrictions(out);
      SettledIs(start, cleared, out, groups, now);
    }

    method Propagate(now: int)
      requires Wired(View())
      modifies this`groups, this`globalInhibit, this`ownerExpired
      ensures View() == Propagated(old(View()), now)
    {
      ExpireOwner(now);
      CheckedIsWired(old(View()), now);
      Settle(now);
    }

    // ---- Calls ----

    method Configure(axes': map<Name, Axis>, rules: seq<Association>, version: Name, now: int) returns (accepted: bool)
      requires Valid(View())
      modifies this
      ensures Valid(View()) && View() == Step(old(View()), Call.Configure(axes', rules, version), now)
      ensures accepted == ConfigureAccepts(old(View()), axes', rules, version)
    {
      hide Valid;
      StepKeepsValid(View(), Call.Configure(axes', rules, version), now);
      accepted := ConfigureAccepted(axes', rules, version);
      if accepted { Install(axes', rules); }
    }

    method Install(axes': map<Name, Axis>, rules: seq<Association>)
      modifies this`axes, this`associations, this`conditions, this`groups
      ensures View() == Configured(old(View()), axes', rules)
    {
      Rewire(axes', rules);
      RefreshGroups();
    }

    method Rewire(axes': map<Name, Axis>, rules: seq<Association>)
      modifies this`axes, this`associations, this`conditions, this`groups
      ensures View() == Rewired(old(View()), axes', rules)
    {
      hide RestartedGroups;
      axes := map a | a in axes' :: axes'[a].(ready := false);
      associations, conditions := rules, map[];
      RestartGroups();
    }

    /** Every motion group starts over, stopped and under a new epoch. */
    method RestartGroups()
      modifies this`groups
      ensures groups == old(groups) + RestartedGroups(old(groups))
    {
      groups := groups + map n | n in GROUP_NAMES ::
        (if n in groups then groups[n] else Group(Stopped, 0, false, {}))
          .(epoch := (if n in groups then groups[n].epoch else 0) + 1, state := Stopped, blockers := {});
    }

    predicate ConfigureAccepted(axes': map<Name, Axis>, rules: seq<Association>, version: Name)
      reads this
      ensures ConfigureAccepted(axes', rules, version) == ConfigureAccepts(View(), axes', rules, version)
    {
      && (forall w | w in writers :: writers[w])
      && version != NONE && axes' != map[]
      && state != Armed && state != Running
      && (forall n | n in groups :: groups[n].state != Armed && groups[n].state != Running)
      && WellOwned(axes') && WellRuled(rules)
      && events == map[]
    }

    method UnprepareAxis(name: Name, now: int) returns (accepted: bool)
      requires Valid(View())
      modifies this
      ensures Valid(View()) && View() == Step(old(View()), Call.UnprepareAxis(name), now)
      ensures accepted == (name in old(axes))
    {
      ghost var s := View();
      assert Wired(s) && Step(s, Call.UnprepareAxis(name), now) == if name in s.axes then Propagated(AxisUnprepared(s, name), now) else s;
      hide Valid, Wired, Step, Propagated, AxisUnprepared;
      StepKeepsValid(s, Call.UnprepareAxis(name), now);
      if name !in axes { return false; }
      RecordUnprepared(name);
      Propagate(now);
      return true;
    }

    method RecordUnprepared(name: Name)
      requires Wired(View()) && name in axes
      modifies this`axes, this`groups
      ensures Wired(View()) && View() == AxisUnprepared(old(View()), name)
    {
      ghost var s := View();
      EndPreparation(name);
      RefreshGroups();
      hide PreparationEnded, Refreshed, Wired;
      UnpreparedIsWired(s, name);
    }

    /** The axis loses its readiness, and its group a live session. */
    method EndPreparation(name: Name)
      requires name in axes && axes[name].group in groups
      modifies this`axes, this`groups
      ensures View() == PreparationEnded(old(View()), name)
    {
      axes := axes[name := axes[name].(ready := false)];
      var n := axes[name].group;
      if groups[n].state == Running || groups[n].state == Armed { RevokeGroup(n); }
    }

    method SetWarning(name: Name, active: bool, reason: Name, now: int) returns (accepted: bool)
      requires Valid(View())
      modifies this`events
      ensures Valid(View()) && View() == Step(old(View()), Call.SetWarning(name, active, reason), now)
      ensures accepted == (name in axes)
    {
      hide Valid;
      StepKeepsValid(View(), Call.SetWarning(name, active, reason), now);
      if name !in axes { return false; }
      if !active {
        events := events - {Warning(name)};
      } else if Warning(name) !in events {
        events := events[Warning(name) :=
          Event(name, axes[name].group, axes[name].backend, FEEDBACK_WARNING, NONE, reason, Warn, now)];
      }
      return true;
    }

    method ReportAxis(name: Name, ready: bool, reason: Name, code: Name, category: Name, now: int) returns (accepted: bool)
      requires Valid(View())
      modifies this
      ensures Valid(View()) && View() == Step(old(View()), Call.ReportAxis(name, ready, reason, code, category), now)
      ensures accepted == (name in old(axes))
    {
      ghost var s := View();
      assert Wired(s);
      StepKeepsValid(s, Call.ReportAxis(name, ready, reason, code, category), now);
      assert Step(s, Call.ReportAxis(name, ready, reason, code, category), now)
        == if name in s.axes then Propagated(AxisRecorded(s, name, ready, reason, code, category, now), now) else s;
      hide Step, Valid, Wired, Propagated, AxisRecorded;
      accepted := RecordReadiness(name, ready, reason, code, category, now);
      if accepted { Propagate(now); }
    }

    method RecordReadiness(name: Name, ready: bool, reason: Name, code: Name, category: Name, now: int) returns (known: bool)
      requires Wired(View())
      modifies this`axes, this`groups, this`events
      ensures known == (name in old(axes)) && Wired(View())
      ensures View() == if known then AxisRecorded(old(View()), name, ready, reason, code, category, now) else old(View())
    {
      if name !in axes { return false; }
      axes := axes[name := axes[name].(ready := ready)];
      if !ready && Readiness(name) !in events {
        events := events[Readiness(name) :=
          Event(name, axes[name].group, axes[name].backend, category, code, reason, GroupStop, now)];
      }
      RefreshGroups();
      ReportAxisIsWired(old(View()), name, ready, reason, code, category, now);
      return true;
    }

    method ReportBackend(name: Name, ready: bool, reason: Name, now: int) returns (accepted: bool)
      requires Valid(View())
      modifies this
      ensures Valid(View()) && View() == Step(old(View()), Call.ReportBackend(name, ready, reason), now)
      ensures accepted == KnownBackend(old(View()), name)
    {
      ghost var s := View();
      assert Wired(s);
      StepKeepsValid(s, Call.ReportBackend(name, ready, reason), now);
      assert Step(s, Call.ReportBackend(name, ready, reason), now)
        == if KnownBackend(s, name) then Propagated(BackendRecorded(s, name, ready, reason, now), now) else s;
      hide Step, Valid, Wired, Propagated, BackendRecorded, KnownBackend;
      accepted := RecordBackend(name, ready, reason, now);
      if accepted { Propagate(now); }
    }

    method RecordBackend(name: Name, ready: bool, reason: Name, now: int) returns (found: bool)
      requires Wired(View())
      modifies this`axes, this`events, this`groups
      ensures found == KnownBackend(old(View()), name) && Wired(View())
      ensures View() == if found then BackendRecorded(old(View()), name, ready, reason, now) else old(View())
    {
      found := MarkBackend(name, ready);
      if found {
        LatchBackend(name, ready, reason, now);
        ReportBackendIsWired(old(View()), name, ready, reason, now);
      }
    }

    method MarkBackend(name: Name, ready: bool) returns (found: bool)
      modifies this`axes
      ensures found == KnownBackend(old(View()), name)
      ensures axes == if ready then old(axes) else BackendLost(old(View()), name).axes
      ensures !found ==> axes == old(axes)
    {
      found := false;
      var rest := axes.Keys;
      while exists a :: a in rest
        invariant rest <= axes.Keys && axes.Keys == old(axes).Keys
        invariant forall a | a in axes ::
          axes[a] == if a !in rest && !ready && old(axes)[a].backend == name then old(axes)[a].(ready := false) else old(axes)[a]
        invariant found == exists a | a in axes && a !in rest :: old(axes)[a].backend == name
        invariant !found ==> axes == old(axes)
        decreases rest
      {
        var a :| a in rest;
        if axes[a].backend == name {
          found := true;
          if !ready { axes := axes[a := axes[a].(ready := false)]; }
        }
        rest := rest - {a};
      }
      assert found == exists a | a in old(axes) :: old(axes)[a].backend == name;
    }

    method LatchBackend(name: Name, ready: bool, reason: Name, now: int)
      modifies this`events, this`groups
      ensures View() == if ready then Refreshed(old(View()))
        else Latch(Refreshed(old(View())), Backend(name), Event(NONE, NONE, name, TRANSPORT, NONE, reason, GroupStop, now))
    {
      if !ready && Backend(name) !in events {
        events := events[Backend(name) := Event(NONE, NONE, name, TRANSPORT, NONE, reason, GroupStop, now)];
      }
      RefreshGroups();
    }

    method Post(id: EventId, value: Event, now: int) returns (accepted: bool)
      requires Valid(View())
      modifies this
      ensures Valid(View()) && View() == Step(old(View()), Call.Post(id, value), now)
      ensures accepted == PostAccepts(old(View()), id, value, now)
    {
      ghost var s := View();
      hide Step, Valid, Wired, Propagated, Posted, PostAccepts, WellAttributed;
      PostStep(s, id, value, now);
      StepKeepsValid(s, Call.Post(id, value), now);
      accepted := CheckEvent(id, value, now);
      if accepted {
        RecordEvent(id, value, now);
        Propagate(now);
      }
    }

    method CheckEvent(id: EventId, value: Event, now: int) returns (accepted: bool)
      requires Wired(View())
      ensures accepted == PostAccepts(View(), id, value, now)
    {
      var e := value;
      if e.timestamp < 0 || !id.Client? || id.name == NONE || e.reason == NONE { return false; }
      if e.axis != NONE {
        if e.axis !in axes { return false; }
        var a := axes[e.axis];
        if (e.group != NONE && e.group != a.group) || (e.backend != NONE && e.backend != a.backend) { return false; }
        e := e.(group := a.group, backend := a.backend);
      }
      if e.group != NONE && e.group !in groups { return false; }
      if e.severity == GroupStop {
        var scope := ScopeOf(e, now);
        if scope == {} { return false; }
      }
      if id in events {
        var latched := events[id];
        return latched.axis == e.axis && latched.group == e.group && latched.backend == e.backend
               && latched.category == e.category && latched.code == e.code && latched.severity == e.severity;
      }
      return true;
    }

    method RecordEvent(id: EventId, value: Event, now: int)
      requires Valid(View()) && WellAttributed(View(), id, value)
      modifies this`events, this`globalInhibit, this`state, this`epoch
      ensures Wired(View()) && View() == Posted(old(View()), id, value, now)
    {
      PostedIsConsistent(View(), id, value, now);
      if id !in events {
        LatchEvent(id, value, now);
        if value.severity == GlobalStop {
          globalInhibit := true;
          FaultLegacy();
        }
      }
    }

    method LatchEvent(id: EventId, value: Event, now: int)
      requires WellAttributed(View(), id, value) && id !in events
      modifies this`events
      ensures View() == Latch(old(View()), id, Stamped(Attributed(old(View()), value), now))
    {
      var e := value;
      if e.axis != NONE { e := e.(group := axes[e.axis].group, backend := axes[e.axis].backend); }
      if e.timestamp == 0 { e := e.(timestamp := now); }
      events := events[id := e];
    }

    method Renew(name: Name, value: Evidence, source: Name, until: int, now: int) returns (accepted: bool)
      requires Valid(View())
      modifies this
      ensures Valid(View()) && View() == Step(old(View()), Call.Renew(name, value, source, until), now)
      ensures accepted == RenewAccepts(old(View()), name, value, source, until, now)
    {
      StepKeepsValid(View(), Call.Renew(name, value, source, until), now);
      accepted := CheckEvidence(name, value, source, until, now);
      if accepted { RecordCondition(name, Condition(value, source, until), now); }
    }

    method CheckEvidence(name: Name, value: Evidence, source: Name, until: int, now: int) returns (accepted: bool)
      ensures accepted == RenewAccepts(View(), name, value, source, until, now)
    {
      if name == NONE || source == NONE || (value != Unknown && until <= now) { return false; }
      accepted := KnownEvidence(name, source);
    }

    method KnownEvidence(name: Name, source: Name) returns (known: bool)
      ensures known == Demanded(associations, name, source)
    {
      known := false;
      for i := 0 to |associations|
        invariant known == exists j | 0 <= j < i :: associations[j].condition == name && associations[j].source == source
      {
        if associations[i].condition == name && associations[i].source == source { known := true; }
      }
    }

    method RecordCondition(name: Name, c: Condition, now: int)
      requires Valid(View())
      modifies this
      ensures View() == Renewed(old(View()), name, c, now)
    {
      Propagate(now);
      PropagateKeepsValid(old(View()), now);
      ghost var settled := View();
      conditions := conditions[name := c];
      EventsStayWired(settled, View());
      Propagate(now);
    }

    method Acknowledge(id: EventId, now: int) returns (accepted: bool)
      requires Valid(View())
      modifies this
      ensures Valid(View()) && View() == Step(old(View()), Call.Acknowledge(id), now)
      ensures accepted == AcknowledgeAccepts(Propagated(old(View()), now), id)
    {
      StepKeepsValid(View(), Call.Acknowledge(id), now);
      ghost var before := View();
      Propagate(now);
      PropagateKeepsValid(before, now);
      accepted := Withdraw(id, now);
    }

    method Withdraw(id: EventId, now: int) returns (accepted: bool)
      requires Valid(View())
      modifies this
      ensures accepted == AcknowledgeAccepts(old(View()), id)
      ensures View() == if accepted then Propagated(old(View()).(events := old(events) - {id}), now) else old(View())
    {
      if id !in events { return false; }
      var ready := SourcesReady(events[id]);
      if !ready { return false; }
      FewerEventsKeepValid(View(), {id});
      events := events - {id};
      Propagate(now);
      return true;
    }

    method SourcesReady(e: Event) returns (ready: bool)
      ensures ready == SourceReady(View(), e)
    {
      if e.severity != GroupStop && e.severity != GlobalStop { return true; }
      var rest := axes.Keys;
      while exists a :: a in rest
        invariant rest <= axes.Keys
        invariant forall a | a in axes && a !in rest :: SourceAxis(View(), e, a) ==> axes[a].ready
        decreases rest
      {
        var a :| a in rest;
        if ((e.axis != NONE && a == e.axis)
            || (e.axis == NONE && e.group != NONE && axes[a].group == e.group)
            || (e.axis == NONE && e.group == NONE && axes[a].backend == e.backend))
           && !axes[a].ready { return false; }
        rest := rest - {a};
      }
      return true;
    }

    method Arm(n: Name, now: int) returns (armed: bool)
      requires Valid(View())
      modifies this
      ensures Valid(View()) && View() == Step(old(View()), Call.Arm(n), now)
      ensures armed == ArmAccepts(Propagated(old(View()), now), n, now)
    {
      ghost var s := View();
      assert Wired(s) && Step(s, Call.Arm(n), now) == ArmTried(Propagated(s, now), n, now);
      hide Valid, Wired, Step, Propagated, ArmTried, ArmAccepts;
      StepKeepsValid(s, Call.Arm(n), now);
      Propagate(now);
      armed := TryArm(n, now);
    }

    method TryArm(n: Name, now: int) returns (armed: bool)
      modifies this`groups
      ensures View() == ArmTried(old(View()), n, now) && armed == ArmAccepts(old(View()), n, now)
    {
      if n !in groups { return false; }
      var g := groups[n];
      if globalInhibit || !(!ownerRequired || ownerDeadline > now) || !g.ready || g.blockers != {} || g.state == Running {
        return false;
      }
      if g.state != Armed { g := g.(epoch := g.epoch + 1); }
      groups := groups[n := g.(state := Armed)];
      return true;
    }

    method Run(n: Name, now: int) returns (running: bool)
      requires Valid(View())
      modifies this
      ensures Valid(View()) && View() == Step(old(View()), Call.Run(n), now)
      ensures running == RunAccepts(Propagated(old(View()), now), n, now)
    {
      ghost var s := View();
      assert Wired(s) && Step(s, Call.Run(n), now) == RunTried(Propagated(s, now), n, now);
      hide Valid, Wired, Step, Propagated;
      StepKeepsValid(s, Call.Run(n), now);
      Propagate(now);
      if n !in groups { return false; }
      var g := groups[n];
      if globalInhibit || !(!ownerRequired || ownerDeadline > now) || !g.ready || g.blockers != {} || g.state != Armed {
        return false;
      }
      groups := groups[n := g.(state := Running)];
      return true;
    }

    method Halt(n: Name, now: int) returns (accepted: bool)
      requires Valid(View())
      modifies this`groups
      ensures Valid(View()) && View() == Step(old(View()), Call.Halt(n), now)
      ensures accepted == (n in old(groups))
    {
      hide Valid;
      StepKeepsValid(View(), Call.Halt(n), now);
      if n !in groups { return false; }
      var g := groups[n];
      if g.state == Armed || g.state == Running { g := g.(epoch := g.epoch + 1); }
      if g.state != Fault { g := g.(state := Stopped); }
      groups := groups[n := g];
      return true;
    }

    method Invalidate(n: Name, now: int) returns (accepted: bool)
      requires Valid(View())
      modifies this`groups
      ensures Valid(View()) && View() == Step(old(View()), Call.Invalidate(n), now)
      ensures accepted == (n in old(groups))
    {
      hide Valid;
      StepKeepsValid(View(), Call.Invalidate(n), now);
      if n !in groups { return false; }
      var g := groups[n];
      g := g.(epoch := g.epoch + 1);
      if g.state != Fault { g := g.(state := Stopped); }
      groups := groups[n := g];
      return true;
    }

    /** The permission check in front of every actuator write. */
    method CheckPermit(n: Name, captured: nat, now: int) returns (permitted: bool)
      requires Valid(View())
      modifies this
      ensures Valid(View()) && View() == Step(old(View()), Call.Observe, now)
      ensures permitted == Permits(old(View()), n, captured, now)
    {
      ghost var s := View();
      assert Wired(s) && Step(s, Call.Observe, now) == Propagated(s, now);
      hide Valid, Wired, Step, Propagated;
      StepKeepsValid(s, Call.Observe, now);
      Propagate(now);
      if n !in groups { return false; }
      var g := groups[n];
      return !globalInhibit && (!ownerRequired || ownerDeadline > now) && g.ready && g.blockers == {}
             && g.state == Running && g.epoch == captured;
    }

    /** The group as of now: every look at a group commits what has lapsed. */
    method Snapshot(n: Name, now: int) returns (known: bool, g: Group)
      requires Valid(View())
      modifies this
      ensures Valid(View()) && View() == Step(old(View()), Call.Observe, now)
      ensures known == (n in groups) && (known ==> g == groups[n])
    {
      ghost var s := View();
      assert Wired(s) && Step(s, Call.Observe, now) == Propagated(s, now);
      hide Valid, Wired, Step, Propagated;
      StepKeepsValid(s, Call.Observe, now);
      Propagate(now);
      known := n in groups;
      g := if known then groups[n] else Group(Stopped, 0, false, {});
    }

    method Poll(now: int)
      requires Valid(View())
      modifies this
      ensures Valid(View()) && View() == Step(old(View()), Call.Observe, now)
    {
      ghost var s := View();
      assert Wired(s) && Step(s, Call.Observe, now) == Propagated(s, now);
      hide Valid, Wired, Step, Propagated;
      StepKeepsValid(s, Call.Observe, now);
      Propagate(now);
    }

    method GloballyInhibited(now: int) returns (inhibited: bool)
      requires Valid(View())
      modifies this
      ensures Valid(View()) && View() == Step(old(View()), Call.CheckInhibit, now)
      ensures inhibited == globalInhibit
    {
      hide Valid;
      StepKeepsValid(View(), Call.CheckInhibit, now);
      ExpireOwner(now);
      inhibited := globalInhibit;
    }

    method EngageGlobalStop(now: int)
      requires Valid(View())
      modifies this
      ensures Valid(View()) && View() == Step(old(View()), Call.StopAll, now)
    {
      hide Valid;
      StepKeepsValid(View(), Call.StopAll, now);
      globalInhibit := true;
      RevokeEveryGroup();
      assert groups == RevokeAll(old(View())).groups;
      FaultLegacy();
    }

    method ResetGlobalStop(now: int) returns (reset: bool)
      requires Valid(View())
      modifies this
      ensures Valid(View()) && View() == Step(old(View()), Call.ResetStop, now)
      ensures reset == ResetAccepts(old(View()), now)
    {
      hide Valid;
      StepKeepsValid(View(), Call.ResetStop, now);
      if !(!ownerRequired || ownerDeadline > now) { return false; }
      var rest := events.Keys;
      while exists id :: id in rest
        invariant rest <= events.Keys
        invariant forall id | id in events && id !in rest :: events[id].severity != GlobalStop
        decreases rest
      {
        var id :| id in rest;
        if events[id].severity == GlobalStop { return false; }
        rest := rest - {id};
      }
      ownerExpired, globalInhibit := false, false;
      return true;
    }

    method RenewOwner(lifetime: int, issued: int, now: int) returns (accepted: bool)
      requires Valid(View())
      modifies this
      ensures Valid(View()) && View() == Step(old(View()), Call.RenewOwner(lifetime, issued), now)
      ensures accepted == LeaseAccepts(lifetime, issued, now)
    {
      ghost var s := View();
      assert Step(s, Call.RenewOwner(lifetime, issued), now) == LeaseRenewed(OwnerChecked(s, now), lifetime, issued, now);
      hide Step, Valid, OwnerChecked, LeaseRenewed, LeaseAccepts;
      StepKeepsValid(s, Call.RenewOwner(lifetime, issued), now);
      ExpireOwner(now);
      accepted := ExtendLease(lifetime, issued, now);
    }

    method ExtendLease(lifetime: int, issued: int, now: int) returns (accepted: bool)
      modifies this`ownerDeadline
      ensures View() == LeaseRenewed(old(View()), lifetime, issued, now) && accepted == LeaseAccepts(lifetime, issued, now)
    {
      var since := if issued != 0 then issued else now;
      if lifetime <= 0 || since < 0 || since > now || since > INT64_MAX - lifetime || since + lifetime <= now {
        return false;
      }
      if since + lifetime > ownerDeadline { ownerDeadline := since + lifetime; }
      return true;
    }

    method RequireOwnerLease(now: int)
      requires Valid(View())
      modifies this`ownerRequired
      ensures Valid(View()) && View() == Step(old(View()), Call.RequireOwner, now)
    {
      hide Valid;
      StepKeepsValid(View(), Call.RequireOwner, now);
      ownerRequired := true;
    }

    method RegisterWriter(backend: Name, grouped: bool, now: int) returns (accepted: bool)
      requires Valid(View())
      modifies this`writers
      ensures Valid(View()) && View() == Step(old(View()), Call.RegisterWriter(backend, grouped), now)
      ensures accepted == WriterAccepts(old(View()), backend, grouped)
    {
      hide Valid;
      StepKeepsValid(View(), Call.RegisterWriter(backend, grouped), now);
      if backend == NONE || (!grouped && groups != map[]) { return false; }
      var rest := writers.Keys;
      while exists w :: w in rest
        invariant rest <= writers.Keys
        invariant forall w | w in writers && w !in rest :: writers[w] == grouped
        decreases rest
      {
        var w :| w in rest;
        if writers[w] != grouped { return false; }
        rest := rest - {w};
      }
      writers := writers[backend := grouped];
      return true;
    }

    // ---- The older whole-vehicle gate ----

    /** The loss of an old-style component stops the whole vehicle while any group is live. */
    method StopLiveGroups()
      modifies this`groups, this`globalInhibit
      ensures View() == LiveStopped(old(View()))
    {
      if exists n | n in groups :: groups[n].Live() {
        globalInhibit := true;
        RevokeEveryGroup();
      }
    }

    method RecordComponent(component: Name, ready: bool)
      modifies this`readiness, this`groups, this`globalInhibit, this`state, this`epoch
      ensures View() == LegacyReported(old(View()), component, ready)
    {
      var wasLive := state == Running || state == Armed;
      readiness := readiness[component := ready];
      if !ready {
        StopLiveGroups();
        if wasLive { state, epoch := Fault, epoch + 1; }
      }
    }

    method LegacyReport(component: Name, ready: bool, now: int)
      requires Valid(View())
      modifies this
      ensures Valid(View()) && View() == Step(old(View()), Call.LegacyReport(component, ready), now)
    {
      hide Valid;
      StepKeepsValid(View(), Call.LegacyReport(component, ready), now);
      RecordComponent(component, ready);
    }

    method FaultLegacy()
      modifies this`state, this`epoch
      ensures View() == old(View()).(legacy := LegacyFaulted(old(View()).legacy))
    {
      if state != Fault { epoch := epoch + 1; }
      state := Fault;
    }

    method LegacyFault(now: int)
      requires Valid(View())
      modifies this
      ensures Valid(View()) && View() == Step(old(View()), Call.LegacyFault, now)
    {
      hide Valid;
      StepKeepsValid(View(), Call.LegacyFault, now);
      if groups != map[] {
        globalInhibit := true;
        RevokeEveryGroup();
        assert groups == RevokeAll(old(View())).groups;
      }
      FaultLegacy();
    }

    method LegacyArm(now: int) returns (armed: bool)
      requires Valid(View())
      modifies this`state, this`epoch
      ensures Valid(View()) && View() == Step(old(View()), Call.LegacyArm, now)
      ensures armed == LegacyArmAccepts(old(View()))
    {
      hide Valid;
      StepKeepsValid(View(), Call.LegacyArm, now);
      armed := !globalInhibit && groups == map[] && forall c | c in readiness :: readiness[c];
      if armed { epoch, state := epoch + 1, Armed; }
    }

    method LegacyRun(now: int) returns (running: bool)
      requires Valid(View())
      modifies this`state
      ensures Valid(View()) && View() == Step(old(View()), Call.LegacyRun, now)
    {
      hide Valid;
      StepKeepsValid(View(), Call.LegacyRun, now);
      running := state == Armed;
      if running { state := Running; }
    }

    method HaltEveryGroup()
      modifies this`groups
      ensures groups == LegacyHalted(old(View())).groups
    {
      var rest := groups.Keys;
      while exists n :: n in rest
        invariant rest <= groups.Keys && groups.Keys == old(groups).Keys
        invariant forall n | n in groups ::
          groups[n] == if n in rest || !old(groups)[n].Live() then old(groups)[n]
                       else old(groups)[n].(state := Stopped, epoch := old(groups)[n].epoch + 1)
        decreases rest
      {
        var n :| n in rest;
        var g := groups[n];
        if g.state == Running || g.state == Armed { groups := groups[n := g.(epoch := g.epoch + 1, state := Stopped)]; }
        rest := rest - {n};
      }
      ghost var goal := LegacyHalted(old(View())).groups;
      assert groups.Keys == goal.Keys && forall n | n in goal :: groups[n] == goal[n];
    }

    method HaltAll()
      modifies this`state, this`epoch, this`groups
      ensures View() == LegacyHalted(old(View()))
    {
      HaltEveryGroup();
      epoch, state := epoch + 1, Stopped;
    }

    method LegacyHalt(now: int)
      requires Valid(View())
      modifies this`state, this`epoch, this`groups
      ensures Valid(View()) && View() == Step(old(View()), Call.LegacyHalt, now)
    {
      hide Valid;
      StepKeepsValid(View(), Call.LegacyHalt, now);
      HaltAll();
    }

    // ---- Any call at all ----

    method Perform(c: Call, now: int)
      requires Valid(View())
      modifies this
      ensures Valid(View()) && View() == Step(old(View()), c, now)
    {
      match c
      case Configure(axes', rules, version) => var _ := Configure(axes', rules, version, now);
      case UnprepareAxis(axis) => var _ := UnprepareAxis(axis, now);
      case SetWarning(axis, active, reason) => var _ := SetWarning(axis, active, reason, now);
      case ReportAxis(axis, ready, reason, code, category) => var _ := ReportAxis(axis, ready, reason, code, category, now);
      case ReportBackend(backend, ready, reason) => var _ := ReportBackend(backend, ready, reason, now);
      case Renew(name, value, source, until) => var _ := Renew(name, value, source, until, now);
      case Post(id, event) => var _ := Post(id, event, now);
      case Acknowledge(id) => var _ := Acknowledge(id, now);
      case Arm(n) => var _ := Arm(n, now);
      case Run(n) => var _ := Run(n, now);
      case Halt(n) => var _ := Halt(n, now);
      case Invalidate(n) => var _ := Invalidate(n, now);
      case Observe => Poll(now);
      case CheckInhibit => var _ := GloballyInhibited(now);
      case StopAll => EngageGlobalStop(now);
      case ResetStop => var _ := ResetGlobalStop(now);
      case RequireOwner => RequireOwnerLease(now);
      case RenewOwner(lifetime, issued) => var _ := RenewOwner(lifetime, issued, now);
      case RegisterWriter(backend, grouped) => var _ := RegisterWriter(backend, grouped, now);
      case LegacyReport(component, ready) => LegacyReport(component, ready, now);
      case LegacyFault => LegacyFault(now);
      case LegacyArm => var _ := LegacyArm(now);
      case LegacyRun => var _ := LegacyRun(now);
      case LegacyHalt => LegacyHalt(now);
    }
  }

  /** The affected groups of every restriction that is not still to do. */
  ghost predicate Collected(s: Guard, out: map<Restriction, set<Name>>, todo: set<Restriction>, now: int) {
    && (forall r | r in out :: r in Restrictions(s) && r !in todo && out[r] <= s.groups.Keys
                               && forall n | n in s.groups :: n in out[r] <==> Covers(s, r, n, now))
    && (forall r, n | r in Restrictions(s) && r !in todo && r !in out :: !Covers(s, r, n, now))
  }

  lemma CollectedBlockers(start: Guard, s: Guard, out: map<Restriction, set<Name>>, n: Name, now: int)
    requires SameCauses(start, s) && n in s.groups && n in start.groups && Collected(s, out, {}, now)
    ensures Blockers(start, n, now) == set r | r in out && n in out[r]
  {
    SameBlockers(start, s, n, now);
    assert Blockers(s, n, now) == set r | r in out && n in out[r];
  }

  lemma OneMore(out: map<Restriction, set<Name>>, todo: set<Restriction>, r: Restriction)
    requires r in out && r in todo
    ensures forall n: Name :: (set q | q in out && q !in todo - {r} && n in out[q])
                              == (set q | q in out && q !in todo && n in out[q]) + (if n in out[r] then {r} else {})
  {
  }

  lemma SettledIs(start: Guard, s: Guard, out: map<Restriction, set<Name>>, groups: map<Name, Group>, now: int)
    requires s == start.(groups := map n | n in start.groups :: start.groups[n].(blockers := {}))
    requires SameCauses(start, s) && Collected(s, out, {}, now) && groups.Keys == s.groups.Keys
    requires forall n | n in groups :: groups[n] == Blocked(s.groups[n], set r | r in out && n in out[r])
    ensures groups == Settled(start, now).groups
  {
    var goal := Settled(start, now).groups;
    forall n | n in groups ensures groups[n] == goal[n] {
      CollectedBlockers(start, s, out, n, now);
    }
  }

  lemma ClearedIsWired(s: Guard, t: Guard)
    requires Wired(s) && t == s.(groups := map n | n in s.groups :: s.groups[n].(blockers := {}))
    ensures Wired(t) && SameCauses(s, t)
  {
    assert t.groups.Keys == s.groups.Keys;
    EventsStayWired(s, t);
  }

  function Restricted(g: Group, r: Restriction): Group {
    Revoked(g).(blockers := g.blockers + {r})
  }

  lemma RefreshedIsWired(s: Guard, t: Guard)
    requires Wired(s) && t.events == s.events && t.rules == s.rules && t.groups.Keys == s.groups.Keys && t.axes.Keys == s.axes.Keys
    requires forall a | a in s.axes :: t.axes[a].group == s.axes[a].group && t.axes[a].backend == s.axes[a].backend
    ensures Wired(Refreshed(t)) && Refreshed(t).groups.Keys == s.groups.Keys
  {
    assert Refreshed(t).groups.Keys == s.groups.Keys;
    EventsStayWired(s, Refreshed(t));
  }

  lemma ReportAxisIsWired(s: Guard, axis: Name, ready: bool, reason: Name, code: Name, category: Name, now: int)
    requires Wired(s) && axis in s.axes
    ensures Wired(AxisRecorded(s, axis, ready, reason, code, category, now))
  {
    var t := Refreshed(AxisSet(s, axis, ready));
    RefreshedIsWired(s, AxisSet(s, axis, ready));
    if !ready { LatchedIsWired(t, Readiness(axis), ReadinessEvent(s, axis, reason, code, category, now)); }
  }

  lemma PostStep(s: Guard, id: EventId, e: Event, now: int)
    requires Valid(s)
    ensures Wired(s) && (PostAccepts(s, id, e, now) ==> WellAttributed(s, id, e))
    ensures Step(s, Call.Post(id, e), now) == if PostAccepts(s, id, e, now) then Propagated(Posted(s, id, e, now), now) else s
  {
    hide Propagated, Posted, WellAttributed;
  }

  lemma UnpreparedIsWired(s: Guard, axis: Name)
    requires Wired(s) && axis in s.axes
    ensures Wired(AxisUnprepared(s, axis))
  {
    hide Wired, AllReady, Revoked;
    var t, n := AxisSet(s, axis, false), s.axes[axis].group;
    if n in s.groups && s.groups[n].Live() {
      RefreshedIsWired(s, SetGroup(t, n, Revoked(s.groups[n])));
    } else {
      RefreshedIsWired(s, t);
    }
  }

  lemma ReportBackendIsWired(s: Guard, backend: Name, ready: bool, reason: Name, now: int)
    requires Wired(s)
    ensures Wired(BackendRecorded(s, backend, ready, reason, now))
  {
    var u := if ready then s else BackendLost(s, backend);
    var t := Refreshed(u);
    RefreshedIsWired(s, u);
    if !ready { LatchedIsWired(t, Backend(backend), Event(NONE, NONE, backend, TRANSPORT, NONE, reason, GroupStop, now)); }
  }

  lemma CheckedIsWired(s: Guard, now: int)
    requires Wired(s)
    ensures Wired(OwnerChecked(s, now))
  {
    assert OwnerChecked(s, now).groups.Keys == s.groups.Keys;
    EventsStayWired(s, OwnerChecked(s, now));
  }
}
