/** Whole runs, said in fields: what alone can take away a latched event, an inhibit, the unreadiness of an axis or
    the doubt about a piece of evidence. */
module GuardRuns {
  import opened Closure
  import opened Guard
  import opened GuardInvariant
  import opened GuardSessions
  import opened GuardFields
  import opened GuardTables

  /** The guard at step `k` of the run. */
  ghost function At(s: Guard, run: seq<Timed>, k: nat): Guard
    requires k <= |run|
  {
    After(s, run[..k])
  }

  lemma AtStep(s: Guard, run: seq<Timed>, k: nat)
    requires Valid(s) && k < |run|
    ensures Valid(At(s, run, k)) && At(s, run, k + 1) == Step(At(s, run, k), run[k].call, run[k].now)
    ensures TablesAfter(At(s, run, k), run[k].call, run[k].now, At(s, run, k + 1))
    ensures FlagsAfter(At(s, run, k), run[k].call, run[k].now, At(s, run, k + 1))
  {
    hide Step, Valid, TablesAfter, FlagsAfter;
    AfterIsValid(s, run[..k]);
    AfterOneMore(s, run, k);
    TablesInFields(At(s, run, k), run[k].call, run[k].now);
    FlagsInFields(At(s, run, k), run[k].call, run[k].now);
  }

  lemma AtEnds(s: Guard, run: seq<Timed>)
    ensures At(s, run, 0) == s && At(s, run, |run|) == After(s, run)
  {
    assert run[..0] == [] && run[..|run|] == run;
  }

  // ---- Latched events ----

  /** A latched event other than a warning stays, word for word, until a call acknowledges it while every axis it
      speaks of is ready. */
  lemma EventStaysLatched(s: Guard, run: seq<Timed>, id: EventId) returns (k: nat)
    requires Valid(s) && id in s.events && !id.Warning?
    requires !(id in After(s, run).events && After(s, run).events[id] == s.events[id])
    ensures k < |run| && run[k].call == Acknowledge(id)
    ensures MayAcknowledge(At(s, run, k), id) && At(s, run, k).events[id] == s.events[id]
  {
    AtEnds(s, run);
    hide At, Step, Valid, EventsAfter, AxesAfter, EvidenceAfter, RulesAfter, InhibitAfter;
    k := 0;
    while id in At(s, run, k + 1).events && At(s, run, k + 1).events[id] == s.events[id]
      invariant k < |run| && id in At(s, run, k).events && At(s, run, k).events[id] == s.events[id]
      decreases |run| - k
    {
      k := k + 1;
    }
    AtStep(s, run, k);
    EventLeaves(At(s, run, k), run[k].call, run[k].now, id);
  }

  lemma EventLeaves(s: Guard, c: Call, now: int, id: EventId)
    requires id in s.events && !id.Warning? && !(id in EventsAfter(s, c, now) && EventsAfter(s, c, now)[id] == s.events[id])
    ensures c == Acknowledge(id) && MayAcknowledge(s, id)
  {
    hide MayPost, MayAcknowledge;
  }

  // ---- Inhibit ----

  /** An inhibit stays until a reset finds the owner lease in order and no emergency latched. */
  lemma InhibitStays(s: Guard, run: seq<Timed>) returns (k: nat)
    requires Valid(s) && s.inhibit && !After(s, run).inhibit
    ensures k < |run| && run[k].call == ResetStop
    ensures At(s, run, k).ownerRequired ==> run[k].now < At(s, run, k).ownerDeadline
    ensures forall id | id in At(s, run, k).events :: At(s, run, k).events[id].severity != GlobalStop
  {
    AtEnds(s, run);
    hide At, Step, Valid, EventsAfter, AxesAfter, EvidenceAfter, RulesAfter, InhibitAfter;
    k := 0;
    while At(s, run, k + 1).inhibit
      invariant k < |run| && At(s, run, k).inhibit
      decreases |run| - k
    {
      k := k + 1;
    }
    AtStep(s, run, k);
    InhibitLeaves(At(s, run, k), run[k].call, run[k].now);
  }

  lemma InhibitLeaves(s: Guard, c: Call, now: int)
    requires s.inhibit && !InhibitAfter(s, c, now)
    ensures c == ResetStop && MayReset(s, now)
  {
  }

  // ---- Readiness ----

  /** An unready axis becomes ready by nothing but a report that says so of this axis: not by a restored backend,
      not by a reconfiguration. */
  lemma UnreadyStays(s: Guard, run: seq<Timed>, axis: Name) returns (k: nat)
    requires Valid(s) && (axis in s.axes ==> !s.axes[axis].ready)
    requires axis in After(s, run).axes && After(s, run).axes[axis].ready
    ensures k < |run| && run[k].call.ReportAxis? && run[k].call.axis == axis && run[k].call.ready
  {
    AtEnds(s, run);
    hide At, Step, Valid, EventsAfter, AxesAfter, EvidenceAfter, RulesAfter, InhibitAfter;
    k := 0;
    while axis in At(s, run, k + 1).axes ==> !At(s, run, k + 1).axes[axis].ready
      invariant k < |run| && (axis in At(s, run, k).axes ==> !At(s, run, k).axes[axis].ready)
      decreases |run| - k
    {
      k := k + 1;
    }
    AtStep(s, run, k);
    ReadinessComes(At(s, run, k), run[k].call, axis);
  }

  lemma ReadinessComes(s: Guard, c: Call, axis: Name)
    requires axis in s.axes ==> !s.axes[axis].ready
    requires axis in AxesAfter(s, c) && AxesAfter(s, c)[axis].ready
    ensures c.ReportAxis? && c.axis == axis && c.ready
  {
    hide MayConfigure;
  }

  // ---- Evidence ----

  /** The rule is in force, and the evidence on record for it says something else than "satisfied", or comes from
      somebody else. */
  predicate Doubted(s: Guard, rule: Association) {
    && rule in s.rules && rule.condition in s.conditions
    && (s.conditions[rule.condition].value != Satisfied || s.conditions[rule.condition].source != rule.source)
  }

  /** An accepted "satisfied" from the named source, with time to run. */
  predicate Proves(c: Call, now: int, rule: Association) {
    c.Renew? && c.name == rule.condition && c.value == Satisfied && c.source == rule.source && now < c.until
  }

  lemma DoubtLasts(s: Guard, c: Call, now: int, t: Guard, rule: Association)
    requires Doubted(s, rule) && !c.Configure? && !Proves(c, now, rule) && TablesAfter(s, c, now, t)
    ensures Doubted(t, rule)
  {
    hide EventsAfter, AxesAfter;
  }

  lemma RenewalDoubts(s: Guard, renewal: Call, at: int, rule: Association)
    requires Valid(s) && rule in s.rules && renewal.Renew? && renewal.name == rule.condition && renewal.value != Satisfied
    requires renewal.name != NONE && renewal.source != NONE && (renewal.value == Unsatisfied ==> at < renewal.until)
    requires exists r | r in s.rules :: r.condition == renewal.name && r.source == renewal.source
    ensures Valid(Step(s, renewal, at)) && Doubted(Step(s, renewal, at), rule)
  {
    assert MayRenew(s, renewal.name, renewal.value, renewal.source, renewal.until, at);
    hide Step, Valid, MayRenew, EventsAfter, AxesAfter;
    TablesInFields(s, renewal, at);
    StepKeepsValid(s, renewal, at);
  }

  /** After evidence that is not "satisfied" has been recorded, no epoch of the dependent group is permitted while
      an axis of the source group is unready, until the named source renews with "satisfied": a permit means that
      by then it has, or the rules were configured anew, or every axis of the source group is ready. */
  lemma NoPermitUntilProven(s: Guard, renewal: Call, at: int, rule: Association, run: seq<Timed>, e: nat, now: int) returns (k: nat)
    requires Valid(s) && rule in s.rules && rule.sourceGroup != rule.dependentGroup
    requires rule.category == ANY_CATEGORY || rule.category == UNAVAILABLE
    requires renewal.Renew? && renewal.name == rule.condition && renewal.value != Satisfied
    requires renewal.name != NONE && renewal.source != NONE && (renewal.value == Unsatisfied ==> at < renewal.until)
    requires exists r | r in s.rules :: r.condition == renewal.name && r.source == renewal.source
    requires Permits(After(Step(s, renewal, at), run), rule.dependentGroup, e, now)
    ensures k <= |run|
    ensures k < |run| ==> run[k].call.Configure? || Proves(run[k].call, run[k].now, rule)
    ensures k == |run| ==> var t := After(Step(s, renewal, at), run);
      forall a | a in t.axes && t.axes[a].group == rule.sourceGroup :: t.axes[a].ready
  {
    var t := Step(s, renewal, at);
    RenewalDoubts(s, renewal, at, rule);
    hide Step, Valid, Permits, TablesAfter, FlagsAfter, Doubted, Proves;
    AtEnds(t, run);
    hide At;
    k := 0;
    while k < |run| && !run[k].call.Configure? && !Proves(run[k].call, run[k].now, rule)
      invariant k <= |run| && Doubted(At(t, run, k), rule)
      decreases |run| - k
    {
      AtStep(t, run, k);
      DoubtLasts(At(t, run, k), run[k].call, run[k].now, At(t, run, k + 1), rule);
      k := k + 1;
    }
    if k == |run| { DoubtForbids(After(t, run), rule, e, now, t, run); }
  }

  lemma DoubtForbids(t: Guard, rule: Association, e: nat, now: int, s: Guard, run: seq<Timed>)
    requires Valid(s) && t == After(s, run) && Doubted(t, rule) && rule.sourceGroup != rule.dependentGroup
    requires rule.category == ANY_CATEGORY || rule.category == UNAVAILABLE
    requires Permits(t, rule.dependentGroup, e, now)
    ensures forall a | a in t.axes && t.axes[a].group == rule.sourceGroup :: t.axes[a].ready
  {
    AfterIsValid(s, run);
    hide Valid, Permits;
    forall a | a in t.axes && t.axes[a].group == rule.sourceGroup ensures t.axes[a].ready {
      if !t.axes[a].ready { UnprovenRuleStopsDependent(t, rule, a, e, now); }
    }
  }
}
