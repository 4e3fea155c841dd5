/** What the guard decides, said in the fields of its tables: which permits, which arming, which entries.
    Nothing here mentions how the guard computes a scope, a restriction or the standing of a piece of evidence. */
module GuardFields {
  import opened Closure
  import opened Guard
  import opened GuardInvariant
  import opened GuardSessions
  import opened GuardSafety
  import opened GuardEnable

  // ---- Chains of groups ----

  /** No entry of the evidence table satisfies the rule: there is none, or it does not say "satisfied", or it
      comes from somebody else, or it has run out. */
  predicate Unproven(s: Guard, rule: Association, now: int) {
    || rule.condition !in s.conditions
    || s.conditions[rule.condition].value == Unknown || s.conditions[rule.condition].value == Unsatisfied
    || s.conditions[rule.condition].source != rule.source
    || s.conditions[rule.condition].validUntil <= now
  }

  /** The rule ties group `b` to group `a` for an event of this category and group: nobody has proven it, and a
      rule for one category only counts for that category, unless its source group is not the one the event
      names. */
  predicate Ties(s: Guard, rule: Association, a: Name, b: Name, category: Name, group: Name, now: int) {
    && rule in s.rules && rule.sourceGroup == a && rule.dependentGroup == b
    && (rule.category == ANY_CATEGORY || rule.category == category || rule.sourceGroup != group)
    && Unproven(s, rule, now)
  }

  ghost predicate Tied(s: Guard, a: Name, b: Name, category: Name, group: Name, now: int) {
    exists rule :: Ties(s, rule, a, b, category, group, now)
  }

  /** Each group of the chain is tied to the one before it. */
  ghost predicate Chain(s: Guard, path: seq<Name>, category: Name, group: Name, now: int) {
    |path| > 0 && forall i | 0 < i < |path| :: Tied(s, path[i - 1], path[i], category, group, now)
  }

  /** The groups an event speaks of: all of them in an emergency; for a group stop those of its axis and of its
      group, or, if it names neither, those with an axis on its backend; otherwise none. */
  predicate SpeaksOf(s: Guard, e: Event, g: Name) {
    || (e.severity == GlobalStop && g in s.groups)
    || (e.severity == GroupStop && e.axis != NONE && e.axis in s.axes && g == s.axes[e.axis].group)
    || (e.severity == GroupStop && e.group != NONE && g == e.group)
    || (e.severity == GroupStop && (e.axis == NONE || e.axis !in s.axes) && e.group == NONE
        && exists a | a in s.axes :: s.axes[a].backend == e.backend && s.axes[a].group == g)
  }

  lemma SourcesInFields(s: Guard, e: Event, g: Name)
    ensures g in Sources(s, e) <==> SpeaksOf(s, e, g)
  {
  }

  ghost predicate Reaches(s: Guard, e: Event, path: seq<Name>, n: Name, now: int) {
    Chain(s, path, e.category, e.group, now) && SpeaksOf(s, e, path[0]) && path[|path| - 1] == n
  }

  /** A group is in the scope of an event exactly when a chain leads to it from a group the event speaks of. */
  lemma ScopeInFields(s: Guard, e: Event, n: Name, now: int)
    ensures n in Scope(s, e, now) <==> exists path: seq<Name> :: Reaches(s, e, path, n, now)
  {
    ScopeIsReachability(s, e, now, n);
    var sources, edges := Sources(s, e), Edges(s, e, now);
    if path: seq<Name> :| Reaches(s, e, path, n, now) {
      ChainIsPath(s, e, path, now);
    }
    if path: seq<Name> :| Path(path, sources, edges) && path[|path| - 1] == n {
      PathIsChain(s, e, path, now);
      assert Reaches(s, e, path, n, now);
    }
  }

  lemma ChainIsPath(s: Guard, e: Event, path: seq<Name>, now: int)
    requires Chain(s, path, e.category, e.group, now) && SpeaksOf(s, e, path[0])
    ensures Path(path, Sources(s, e), Edges(s, e, now))
  {
    SourcesInFields(s, e, path[0]);
    forall i | 0 < i < |path| ensures (path[i - 1], path[i]) in Edges(s, e, now) {
      assert Tied(s, path[i - 1], path[i], e.category, e.group, now);
      var rule :| Ties(s, rule, path[i - 1], path[i], e.category, e.group, now);
      assert Spreads(s, rule, e, now);
    }
  }

  lemma PathIsChain(s: Guard, e: Event, path: seq<Name>, now: int)
    requires Path(path, Sources(s, e), Edges(s, e, now))
    ensures Chain(s, path, e.category, e.group, now) && SpeaksOf(s, e, path[0])
  {
    SourcesInFields(s, e, path[0]);
    forall i | 0 < i < |path| ensures Tied(s, path[i - 1], path[i], e.category, e.group, now) {
      assert (path[i - 1], path[i]) in Edges(s, e, now);
      var rule :| rule in s.rules && Spreads(s, rule, e, now) && (rule.sourceGroup, rule.dependentGroup) == (path[i - 1], path[i]);
      assert Ties(s, rule, path[i - 1], path[i], e.category, e.group, now);
    }
  }

  // ---- Permits ----

  /** Nothing latched, and no other group with an unready axis, has a chain to group `n`. */
  ghost predicate Unrestricted(s: Guard, n: Name, now: int) {
    && (forall id, path: seq<Name> | id in s.events :: !Reaches(s, s.events[id], path, n, now))
    && (forall a, path: seq<Name> | a in s.axes && !s.axes[a].ready && Chain(s, path, UNAVAILABLE, s.axes[a].group, now) ::
          path[0] != s.axes[a].group || path[|path| - 1] != n || s.axes[a].group == n)
  }

  lemma UnrestrictedExactly(s: Guard, n: Name, now: int)
    requires Valid(s)
    ensures Unrestricted(s, n, now) <==> Blockers(s, n, now) == {}
  {
    if !Unrestricted(s, n, now) {
      if id, path: seq<Name> :| id in s.events && Reaches(s, s.events[id], path, n, now) {
        ScopeInFields(s, s.events[id], n, now);
        assert Covers(s, ByEvent(id), n, now);
        assert ByEvent(id) in Blockers(s, n, now);
      } else {
        var a, path: seq<Name> :| a in s.axes && !s.axes[a].ready && Chain(s, path, UNAVAILABLE, s.axes[a].group, now)
                                 && path[0] == s.axes[a].group && path[|path| - 1] == n && s.axes[a].group != n;
        UnreadyReaches(s, a, path, n, now);
      }
    }
    if Blockers(s, n, now) != {} {
      var r :| r in Blockers(s, n, now);
      RestrictionReaches(s, r, n, now);
    }
  }

  lemma UnreadyReaches(s: Guard, a: Name, path: seq<Name>, n: Name, now: int)
    requires Valid(s) && a in s.axes && !s.axes[a].ready && Chain(s, path, UNAVAILABLE, s.axes[a].group, now)
    requires path[0] == s.axes[a].group && path[|path| - 1] == n && s.axes[a].group != n
    ensures Blockers(s, n, now) != {}
  {
    var h := s.axes[a].group;
    assert h in s.groups && s.groups[h].ready == AllReady(s.axes, h);
    assert Reaches(s, Unavailable(h), path, n, now);
    ScopeInFields(s, Unavailable(h), n, now);
    assert Covers(s, ByUnready(h), n, now);
    assert ByUnready(h) in Blockers(s, n, now);
  }

  lemma RestrictionReaches(s: Guard, r: Restriction, n: Name, now: int)
    requires Valid(s) && r in Blockers(s, n, now)
    ensures !Unrestricted(s, n, now)
  {
    match r
    case ByEvent(id) =>
      ScopeInFields(s, s.events[id], n, now);
    case ByUnready(h) =>
      ScopeInFields(s, Unavailable(h), n, now);
      assert s.groups[h].ready == AllReady(s.axes, h);
      var path: seq<Name> :| Reaches(s, Unavailable(h), path, n, now);
      var a :| a in s.axes && s.axes[a].group == h && !s.axes[a].ready;
      assert Chain(s, path, UNAVAILABLE, s.axes[a].group, now);
  }

  /** A permit is given if and only if the group is Running at the epoch, the owner lease is not required or
      lasts beyond now, and nothing latched or unready has a chain of unproven rules to the group. */
  lemma PermitsInFields(s: Guard, n: Name, e: nat, now: int)
    requires Valid(s)
    ensures Permits(s, n, e, now) <==>
      && n in s.groups && s.groups[n].state == Running && s.groups[n].epoch == e
      && (!s.ownerRequired || s.ownerDeadline > now)
      && Unrestricted(s, n, now)
  {
    PermitsExactly(s, n, e, now);
    UnrestrictedExactly(s, n, now);
  }

  /** Arming succeeds if and only if all axes of the group are ready, nothing inhibits, the lease is in order,
      nothing restricts the group, and it is not Running.  It leads to Armed, under a new epoch unless the group
      was Armed already; a refusal never enters Armed. */
  lemma ArmsInFields(s: Guard, n: Name, now: int)
    requires Valid(s)
    ensures ArmAccepts(Propagated(s, now), n, now) <==>
      && n in s.groups && s.groups[n].state != Running && !s.inhibit
      && (!s.ownerRequired || s.ownerDeadline > now)
      && (forall a | a in s.axes && s.axes[a].group == n :: s.axes[a].ready)
      && Unrestricted(s, n, now)
    ensures n in s.groups ==> ArmsTo(s.groups[n], Step(s, Arm(n), now), n, ArmAccepts(Propagated(s, now), n, now))
  {
    if n in s.groups {
      assert s.groups[n].ready == AllReady(s.axes, n);
      ArmLeadsTo(s, n, now);
    }
    hide Unrestricted, Step, Propagated, Blockers, ArmAccepts, ArmsTo;
    ArmsExactly(s, n, now);
    UnrestrictedExactly(s, n, now);
  }

  /** What an attempt to arm makes of the group. */
  predicate ArmsTo(g: Group, t: Guard, n: Name, accepted: bool) {
    && n in t.groups
    && (accepted ==> t.groups[n].state == Armed && t.groups[n].epoch == g.epoch + (if g.state == Armed then 0 else 1))
    && (!accepted && t.groups[n].state == Armed ==> g.state == Armed && t.groups[n].epoch == g.epoch)
  }

  lemma ArmLeadsTo(s: Guard, n: Name, now: int)
    requires n in s.groups
    ensures ArmsTo(s.groups[n], Step(s, Arm(n), now), n, ArmAccepts(Propagated(s, now), n, now))
  {
    PropagatedIs(s, now);
    assert Step(s, Arm(n), now) == ArmTried(Propagated(s, now), n, now);
    hide Step, Propagated, Blockers, OwnerFresh, OwnerLapsed;
  }

  /** Running succeeds if and only if the group is Armed, the lease is in order and nothing restricts the group.
      The epoch stays. */
  lemma RunsInFields(s: Guard, n: Name, now: int)
    requires Valid(s)
    ensures RunAccepts(Propagated(s, now), n, now) <==>
      n in s.groups && s.groups[n].state == Armed && (!s.ownerRequired || s.ownerDeadline > now) && Unrestricted(s, n, now)
    ensures RunAccepts(Propagated(s, now), n, now) ==>
      && n in Step(s, Run(n), now).groups && Step(s, Run(n), now).groups[n].state == Running
      && Step(s, Run(n), now).groups[n].epoch == s.groups[n].epoch
  {
    hide Unrestricted, Step, Propagated, Blockers, RunAccepts, Valid;
    RunsExactly(s, n, now);
    UnrestrictedExactly(s, n, now);
    if RunAccepts(Propagated(s, now), n, now) { RunLeadsTo(s, n, now); }
  }

  lemma RunsExactly(s: Guard, n: Name, now: int)
    requires Valid(s)
    ensures RunAccepts(Propagated(s, now), n, now) <==>
      n in s.groups && s.groups[n].state == Armed && OwnerFresh(s, now) && Blockers(s, n, now) == {}
  {
    assert n in s.groups && s.groups[n].state == Armed ==> s.groups[n].ready && !s.inhibit;
    hide Valid, Blockers;
    PropagatedIs(s, now);
    hide Propagated;
  }

  lemma RunLeadsTo(s: Guard, n: Name, now: int)
    requires n in s.groups && RunAccepts(Propagated(s, now), n, now)
    ensures n in Step(s, Run(n), now).groups
      && Step(s, Run(n), now).groups[n].state == Running && Step(s, Run(n), now).groups[n].epoch == s.groups[n].epoch
  {
    hide Blockers;
    PropagatedIs(s, now);
    hide Propagated;
  }

  /** Evidence that is missing, not "satisfied", from another source or out of date does not help: while an axis
      of its source group is unready, the dependent group is neither permitted nor armed. */
  lemma UnprovenRuleStopsDependent(s: Guard, rule: Association, axis: Name, e: nat, now: int)
    requires Valid(s) && rule in s.rules && rule.sourceGroup != rule.dependentGroup
    requires rule.category == ANY_CATEGORY || rule.category == UNAVAILABLE
    requires axis in s.axes && s.axes[axis].group == rule.sourceGroup && !s.axes[axis].ready
    requires rule.condition in s.conditions ==>
      || s.conditions[rule.condition].value != Satisfied
      || s.conditions[rule.condition].source != rule.source
      || s.conditions[rule.condition].validUntil <= now
    ensures !Permits(s, rule.dependentGroup, e, now)
    ensures var t := Step(s, Arm(rule.dependentGroup), now);
      rule.dependentGroup in t.groups && t.groups[rule.dependentGroup].state == Fault
  {
    var path := [rule.sourceGroup, rule.dependentGroup];
    assert Ties(s, rule, path[0], path[1], UNAVAILABLE, s.axes[axis].group, now);
    assert Chain(s, path, UNAVAILABLE, s.axes[axis].group, now);
    UnreadyReaches(s, axis, path, rule.dependentGroup, now);
    PermitsExactly(s, rule.dependentGroup, e, now);
    RestrictedArmIsRefused(s, rule.dependentGroup, now);
  }

  /** A latched stop restricts every group it speaks of, and every group that an unproven rule ties to one. */
  lemma LatchedStopStops(s: Guard, id: EventId, g: Name, n: Name, e: nat, now: int)
    requires Valid(s) && id in s.events && SpeaksOf(s, s.events[id], g)
    requires g == n || Tied(s, g, n, s.events[id].category, s.events[id].group, now)
    ensures !Permits(s, n, e, now)
  {
    var path := if g == n then [n] else [g, n];
    assert Reaches(s, s.events[id], path, n, now);
    PermitsInFields(s, n, e, now);
  }
}
