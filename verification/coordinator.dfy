/** Group operations: phases over several groups under non-blocking locks, with remote calls that may
    succeed, fail or time out.  Other threads work on the other groups, and the monitor may stop any group
    at any moment without its lock. */
module GroupCoordination {
  import opened AdapterFence

  type Group = nat
  type Axis = nat

  datatype Status = Stopped | Initialized | Halted | Armed | Running | Fault {
    predicate Live() { this == Armed || this == Running }
  }

  datatype Progress = InProgress | Complete | Failed

  datatype Entry = Entry(status: Status, generation: nat, progress: Progress)

  function GivenUp(e: Entry): Entry { Entry(Fault, e.generation + 1, e.progress) }

  datatype Phase =
    | StopPhase | InitPhase | PreparePhase | AcknowledgePhase | ArmPhase
    | ResumePrepare | ResumeAcknowledge | ResumeArm | StartPhase
  {
    predicate Acknowledges() { this == AcknowledgePhase || this == ResumeAcknowledge }
    predicate Enlivens() { this == ArmPhase || this == ResumeArm || this == StartPhase }
  }

  const ENABLE: seq<Phase> := [PreparePhase, AcknowledgePhase, ArmPhase]
  const RESUME: seq<Phase> := [ResumePrepare, ResumeAcknowledge, ResumeArm, StartPhase]
  const RECOVER: seq<Phase> := [StopPhase, InitPhase, PreparePhase, AcknowledgePhase, ArmPhase]

  /** The recorded status of a group once a phase has succeeded on it. */
  function Reached(p: Phase, s: Status): Status {
    match p
    case StopPhase => Halted
    case InitPhase => Initialized
    case PreparePhase => s
    case AcknowledgePhase => s
    case ArmPhase => Armed
    case ResumePrepare => if s == Halted then Initialized else s
    case ResumeAcknowledge => s
    case ResumeArm => Armed
    case StartPhase => Running
  }

  /** The statuses that a group may have been given when these phases have succeeded on it while the monitor
      may have stopped it in between. */
  function Possible(phases: seq<Phase>, s: Status): set<Status> {
    if phases == [] then {s, Halted, Fault}
    else
      var p := phases[|phases| - 1];
      (set t | t in Possible(phases[..|phases| - 1], s) :: Reached(p, t)) + {Halted, Fault}
  }

  lemma {:induction false} StopIsPossible(phases: seq<Phase>, s: Status)
    ensures ReachedAll(phases, s) in Possible(phases, s) && Halted in Possible(phases, s) && Fault in Possible(phases, s)
  {
    if phases != [] { StopIsPossible(phases[..|phases| - 1], s); }
  }

  /** An operation that ends by arming or starting leaves nothing but that, or a stopped group. */
  lemma LastPhaseDecides(phases: seq<Phase>, s: Status)
    requires phases != [] && phases[|phases| - 1] in {ArmPhase, StartPhase}
    ensures Possible(phases, s) <= {if phases[|phases| - 1] == ArmPhase then Armed else Running, Halted, Fault}
    ensures ReachedAll(phases, s) == if phases[|phases| - 1] == ArmPhase then Armed else Running
  {
  }

  function ReachedAll(phases: seq<Phase>, s: Status): Status {
    if phases == [] then s else Reached(phases[|phases| - 1], ReachedAll(phases[..|phases| - 1], s))
  }

  /** Every phase that makes a group live comes after one that looked at the maintenance journal. */
  predicate WellPhased(phases: seq<Phase>) {
    forall k | 0 <= k < |phases| && phases[k].Enlivens() :: exists j | 0 <= j < k :: phases[j].Acknowledges()
  }

  lemma OperationsAreWellPhased()
    ensures WellPhased(ENABLE) && WellPhased(RESUME) && WellPhased(RECOVER)
    ensures WellPhased([StopPhase]) && WellPhased([InitPhase])
  {
    assert ENABLE[1].Acknowledges() && RESUME[1].Acknowledges() && RECOVER[3].Acknowledges();
  }

  /** How far a maintenance operation came: the group did not stop, its axis could not be disabled and
      verified, the policy raised, or the policy returned. */
  datatype Maintenance = NotStopped | NotReady | Raised | Returned

  datatype Result = Refused | Finished(failed: set<Group>)

  /** What the guard says of the groups before the first operation of a process: no answer, or those that are live. */
  datatype Report = NoReport | Reported(live: set<Group>)

  class Coordinator {
    const adapter: Adapter
    const axes: map<Group, set<Axis>>
    const resources: map<Group, set<nat>>
    /** Groups with axes on the CANopen bus, which are initialized and verified. */
    const serviced: set<Group>
    /** The state, session generation and operation record of every group. */
    var groups: map<Group, Entry>
    /** Locks held by this thread and by others. */
    var mine: set<Group>
    var others: set<Group>
    /** Axes named by the maintenance journal while it is dirty. */
    var dirty: set<Axis>
    var ownerChecked: bool
    /** Counts, for every group, the moments at which the monitor has written its record under the lock of
        this thread. */
    ghost var hits: map<Group, nat>

    predicate Clean(g: Group)
      requires g in axes
      reads this
    {
      axes[g] * dirty == {}
    }

    ghost predicate Valid()
      reads this, adapter
    {
      && adapter.Valid()
      && groups.Keys == axes.Keys == resources.Keys == hits.Keys
      && mine !! others && mine <= axes.Keys
      && (forall g | g in groups :: groups[g].status.Live() ==> Clean(g))
    }

    /** Starting up, whatever the journal on disk says. */
    constructor (adapter: Adapter, axes: map<Group, set<Axis>>, resources: map<Group, set<nat>>, serviced: set<Group>,
        dirty: set<Axis>)
      requires adapter.Valid() && axes.Keys == resources.Keys
      ensures Valid() && mine == {} && this.adapter == adapter && this.axes == axes && this.dirty == dirty
      ensures forall g | g in axes :: groups[g].status == Stopped
    {
      this.adapter, this.axes, this.resources, this.serviced, this.dirty := adapter, axes, resources, serviced, dirty;
      groups := map g | g in axes :: Entry(Stopped, 0, Complete);
      mine, others, ownerChecked := {}, {}, false;
      hits := map g | g in axes :: 0;
    }

    ghost function View(): Picture
      reads this
    {
      Picture(groups, hits, mine, dirty)
    }

    // ---- Other threads ----

    /** Another thread works on a group that this one has not locked: it may record any status for it, as
        long as no live group owns a dirty axis, and its maintenance may dirty or clean the axes of it.  The
        monitor may stop any group, locked or not: it advances the generation and records Halted or Fault. */
    method InterfereWithRecords()
      requires Valid()
      modifies this`groups, this`hits, this`dirty, this`others
      ensures Valid() && KeptFor(axes, mine, old(View()), View())
    {
      hide Adapter.Valid;
      var n: map<Group, Entry> := *;
      var d: set<Axis> := *;
      var o: set<Group> := *;
      if n.Keys == axes.Keys && o !! mine
         && (forall g | g in mine :: MayBeStopped(groups[g], n[g]) && axes[g] * d == axes[g] * dirty)
         && (forall g | g in n :: n[g].status.Live() ==> axes[g] * d == {})
      {
        hits := map g | g in axes :: if g in mine && n[g] != groups[g] then hits[g] + 1 else hits[g];
        groups, dirty, others := n, d, o;
      }
    }

    /** Late answers, time-outs and requests of other threads.  They may time out under any key, but none of
        them holds a lock that this thread holds.  Only stops and maintenance locks are asked for a group that
        this thread has locked.  Whoever arms has checked its fence. */
    method InterfereWithCalls()
      requires Valid()
      modifies adapter`pending, adapter`done, adapter`next, adapter`log
      ensures Valid() && Onward(mine, old(adapter.log), adapter.log)
    {
      var steps: int :| 0 <= steps;
      for k := 0 to steps
        invariant Valid() && Onward(mine, old(adapter.log), adapter.log)
      {
        var id: int := *;
        var keys: set<Key> := *;
        if * {
          if 0 <= id < adapter.next { adapter.Resolve(id); }
        } else if * {
          ghost var holder: bool := *;
          if Unscoped in keys || exists h | h in mine :: OfGroup(h) in keys { holder := false; }
          adapter.TimeOut(keys, holder);
        } else {
          ghost var op: Operation := *;
          ghost var g: int := *;
          if g >= 0 && (g in mine ==> op in {Halt, StopControllers, MaintenanceLock})
             && (op == AdapterFence.Arm ==> exists c :: FencedBy(adapter.log + [Asked(op, g)], |adapter.log|, c))
          {
            adapter.Overhear(op, g);
          }
        }
      }
    }

    method Interfere()
      requires Valid()
      modifies this`groups, this`hits, this`dirty, this`others
      modifies adapter`pending, adapter`done, adapter`next, adapter`log
      ensures Valid() && KeptFor(axes, mine, old(View()), View()) && Onward(mine, old(adapter.log), adapter.log)
    {
      InterfereWithRecords();
      InterfereWithCalls();
    }

    // ---- Remote calls ----

    /** This thread works on the group under its lock, or on none. */
    predicate InScope(g: Group)
      reads this, adapter
    {
      adapter.scope == Unscoped || (adapter.scope == OfGroup(g) && g in mine)
    }

    /** One mutation.  It may be refused, or be answered, or time out with its effect unknown. */
    method Call(op: Operation, g: Group, resource: set<Key>) returns (ok: bool)
      requires Valid() && InScope(g)
      requires op == AdapterFence.Arm ==> exists c :: FencedBy(adapter.log + [Asked(op, g)], |adapter.log|, c)
      modifies this`groups, this`hits, this`dirty, this`others
      modifies adapter`pending, adapter`done, adapter`next, adapter`log
      ensures Valid() && KeptFor(axes, mine, old(View()), View())
      ensures old(adapter.log) + [Asked(op, g)] <= adapter.log && OnlyOn(old(adapter.log), adapter.log, g, adapter.scope)
      ensures ok <==> !Troubled(|old(adapter.log)|, adapter.log, g)
      ensures !ok ==>
        || adapter.log[|adapter.log| - 1] == Denied(op, g)
        || LostUnder(adapter.log, op, g, {adapter.scope} + resource)
    {
      hide Adapter.Valid, KeptFor, FencedBy;
      ghost var before := adapter.log;
      adapter.Ask(op, g);
      ghost var asked := adapter.log;
      Interfere();
      ghost var waited := adapter.log;
      AskedQuietly(mine, before, waited, op, g, adapter.scope);
      ok := Answer(op, g, resource);
      Joined(before, waited, adapter.log, g, adapter.scope);
    }

    /** The answer of a mutation, or none in time: then its outcome is unknown, and it is kept under the scope of this
        thread and under the component it was for. */
    method Answer(op: Operation, g: Group, resource: set<Key>) returns (ok: bool)
      requires Valid() && InScope(g)
      modifies adapter`pending, adapter`next, adapter`log
      ensures Valid() && OnlyOn(old(adapter.log), adapter.log, g, adapter.scope)
      ensures ok <==> !Troubled(|old(adapter.log)|, adapter.log, g)
      ensures !ok ==>
        || adapter.log[|adapter.log| - 1] == Denied(op, g)
        || LostUnder(adapter.log, op, g, {adapter.scope} + resource)
    {
      hide Adapter.Valid, OnlyOn, Troubled, LostUnder;
      ghost var before, key := adapter.log, adapter.scope;
      QuietNow(before, g, key);
      ok := *;
      if ok { return; }
      var timedOut: bool := *;
      if timedOut {
        ghost var id := adapter.next;
        adapter.TimeOut({adapter.scope} + resource, adapter.scope == OfGroup(g));
        adapter.Note(Lost(op, g));
        AnswerIsLost(before, adapter.log, op, g, key, id, {key} + resource);
      } else {
        adapter.Note(Denied(op, g));
        AnswerIsDenied(before, adapter.log, op, g, key);
      }
    }

    /** A question, which leaves nothing behind: whether the axes verify, whether the group gets ready in time. */
    method Query(op: Operation, g: Group) returns (ok: bool)
      requires Valid() && InScope(g) && op != AdapterFence.Arm
      modifies this`groups, this`hits, this`dirty, this`others
      modifies adapter`pending, adapter`done, adapter`next, adapter`log
      ensures Valid() && KeptFor(axes, mine, old(View()), View())
      ensures old(adapter.log) + [Asked(op, g)] <= adapter.log && OnlyOn(old(adapter.log), adapter.log, g, adapter.scope)
      ensures ok <==> !Troubled(|old(adapter.log)|, adapter.log, g)
    {
      hide Adapter.Valid, KeptFor;
      ghost var before := adapter.log;
      adapter.Ask(op, g);
      Interfere();
      ghost var waited := adapter.log;
      AskedQuietly(mine, before, waited, op, g, adapter.scope);
      ok := *;
      if !ok {
        adapter.Note(Denied(op, g));
        assert Troubles(adapter.log[|waited|], g);
        Joined(before, waited, adapter.log, g, adapter.scope);
      }
    }

    /** Write the status of a group, and advance its generation by `n`. */
    method Record(g: Group, s: Status, n: nat)
      requires Valid() && g in mine && (s.Live() ==> Clean(g))
      modifies this`groups
      ensures Valid() && View() == Written(old(View()), g, s, n)
    {
      hide Adapter.Valid;
      groups := groups[g := groups[g].(status := s, generation := groups[g].generation + n)];
    }

    // ---- The steps on one group ----

    /** Check that nothing is pending on the hardware components of the group, and bring them up. */
    method TouchResources(g: Group) returns (ok: bool)
      requires Valid() && InScope(g) && g in mine
      modifies this`groups, this`hits, this`dirty, this`others
      modifies adapter`pending, adapter`done, adapter`next, adapter`log
      ensures Valid() && KeptFor(axes, mine, old(View()), View()) && OnlyOn(old(adapter.log), adapter.log, g, adapter.scope)
      ensures ok <==> !Troubled(|old(adapter.log)|, adapter.log, g)
      ensures ok ==> Touched(|old(adapter.log)|, adapter.log, resources[g], g)
    {
      hide KeptFor, Same, Troubled, OnlyOn, Adapter.Valid;
      var rest := resources[g];
      KeptAll(axes, mine, View());
      QuietNow(adapter.log, g, adapter.scope);
      while exists r :: r in rest
        invariant Valid() && KeptFor(axes, mine, old(View()), View()) && OnlyOn(old(adapter.log), adapter.log, g, adapter.scope)
        invariant rest <= resources[g] && !Troubled(|old(adapter.log)|, adapter.log, g)
        invariant Touched(|old(adapter.log)|, adapter.log, resources[g] - rest, g)
        decreases rest
      {
        var r :| r in rest;
        ghost var v, now, seen := View(), adapter.log, resources[g] - rest;
        rest := rest - {r};
        var up := TouchResource(g, r);
        KeptOn(axes, mine, old(View()), v, View());
        Joined(old(adapter.log), now, adapter.log, g, adapter.scope);
        if !up { return false; }
        TouchesOne(old(adapter.log), now, adapter.log, seen, r, g);
        assert resources[g] - rest == seen + {r};
      }
      assert resources[g] - rest == resources[g];
      return true;
    }

    method TouchResource(g: Group, r: nat) returns (ok: bool)
      requires Valid() && InScope(g) && g in mine
      modifies this`groups, this`hits, this`dirty, this`others
      modifies adapter`pending, adapter`done, adapter`next, adapter`log
      ensures Valid() && KeptFor(axes, mine, old(View()), View()) && OnlyOn(old(adapter.log), adapter.log, g, adapter.scope)
      ensures ok <==> !Troubled(|old(adapter.log)|, adapter.log, g)
      ensures ok ==> TouchedAt(adapter.log, |old(adapter.log)|, r, g)
      ensures !SettledAt(old(adapter.log), OfResource(r), |old(adapter.log)|) ==> !ok
      ensures !ok ==>
        || adapter.log[|adapter.log| - 1] == Unsettled(OfResource(r), g)
        || adapter.log[|adapter.log| - 1] == Denied(Transition, g)
        || LostUnder(adapter.log, Transition, g, {adapter.scope, OfResource(r)})
    {
      hide KeptFor, Same, Adapter.Valid, SettledAt;
      KeptAll(axes, mine, View());
      ghost var before := adapter.log;
      ok := adapter.EnsureSettled(OfResource(r), g);
      assert adapter.log[|before|] == if ok then Settled(OfResource(r)) else Unsettled(OfResource(r), g);
      if ok {
        ghost var checked := adapter.log;
        ok := Call(Transition, g, {OfResource(r)});
        Joined(before, checked, adapter.log, g, adapter.scope);
        assert adapter.log[|checked|] == (checked + [Asked(Transition, g)])[|checked|];
      } else {
        assert Troubles(adapter.log[|before|], g);
      }
    }

    /** Verification refuses an axis whose maintenance is unresolved, among many other things. */
    method InitializeAndVerify(g: Group) returns (ok: bool)
      requires Valid() && InScope(g) && g in mine
      modifies this`groups, this`hits, this`dirty, this`others
      modifies adapter`pending, adapter`done, adapter`next, adapter`log
      ensures Valid() && KeptFor(axes, mine, old(View()), View()) && OnlyOn(old(adapter.log), adapter.log, g, adapter.scope)
      ensures ok <==> !Troubled(|old(adapter.log)|, adapter.log, g) && axes[g] * old(dirty) == {}
      ensures ok ==> Clean(g) && AskedInOrder(|old(adapter.log)|, adapter.log, [Initialize, Verify], g)
    {
      hide KeptFor, Troubled, OnlyOn, AskedInOrder, Adapter.Valid;
      ghost var u, before := View(), adapter.log;
      ok := Call(Initialize, g, {});
      KeptIn(axes, mine, u, View(), g);
      if !ok { return; }
      if !Clean(g) { return false; }
      ghost var v, now := View(), adapter.log;
      ok := Query(Verify, g);
      KeptIn(axes, mine, v, View(), g);
      KeptOn(axes, mine, u, v, View());
      Joined(before, now, adapter.log, g, adapter.scope);
      InOrderFirst(before, now, Initialize, g);
      InOrderThen(before, now, adapter.log, [Initialize], Verify, g);
    }

    /** The hardware components of the group, and its axes. */
    method BringToLife(g: Group) returns (ok: bool)
      requires Valid() && InScope(g) && g in mine
      modifies this`groups, this`hits, this`dirty, this`others
      modifies adapter`pending, adapter`done, adapter`next, adapter`log
      ensures Valid() && KeptFor(axes, mine, old(View()), View()) && OnlyOn(old(adapter.log), adapter.log, g, adapter.scope)
      ensures ok <==> !Troubled(|old(adapter.log)|, adapter.log, g) && (g in serviced ==> axes[g] * old(dirty) == {})
      ensures ok ==> Touched(|old(adapter.log)|, adapter.log, resources[g], g)
      ensures ok && g in serviced ==> Clean(g) && AskedInOrder(|old(adapter.log)|, adapter.log, [Initialize, Verify], g)
    {
      hide KeptFor, Same, Adapter.Valid, Troubled, OnlyOn, AskedInOrder, Touched;
      ghost var u, before := View(), adapter.log;
      ok := TouchResources(g);
      if !ok || g !in serviced { return; }
      ghost var v, now := View(), adapter.log;
      KeptClean(axes, mine, u, v, g);
      ok := InitializeAndVerify(g);
      KeptOn(axes, mine, u, v, View());
      Joined(before, now, adapter.log, g, adapter.scope);
      TouchedStays(before, now, adapter.log, resources[g], g);
      if ok { InOrderExtends(|before|, |now|, adapter.log, adapter.log, [Initialize, Verify], g); }
    }

    method Init(g: Group) returns (ok: bool)
      requires Valid() && InScope(g) && g in mine
      modifies this`groups, this`hits, this`dirty, this`others
      modifies adapter`pending, adapter`done, adapter`next, adapter`log
      ensures Valid() && KeptFor(axes, mine - {g}, old(View()), View())
      ensures OnlyOn(old(adapter.log), adapter.log, g, adapter.scope)
      ensures Ended(axes, g, old(View()), View(), if ok then Initialized else old(groups)[g].status, 0)
      ensures ok ==> groups[g].status == Initialized
      ensures old(groups)[g].status.Live() ==> adapter.log == old(adapter.log)
      ensures ok <==>
          && !Troubled(|old(adapter.log)|, adapter.log, g) && !old(groups)[g].status.Live()
          && (g in serviced ==> axes[g] * old(dirty) == {})
      ensures ok ==> Touched(|old(adapter.log)|, adapter.log, resources[g], g)
      ensures ok && g in serviced ==> Clean(g) && AskedInOrder(|old(adapter.log)|, adapter.log, [Initialize, Verify], g)
    {
      hide KeptFor, Same, Ended, Adapter.Valid, Troubled, OnlyOn, AskedInOrder, Touched;
      ghost var u := View();
      KeptAll(axes, mine, u);
      Unwritten(axes, mine, g, u, u);
      QuietNow(adapter.log, g, adapter.scope);
      if groups[g].status.Live() { return false; }
      ok := BringToLife(g);
      ghost var v := View();
      Unwritten(axes, mine, g, u, v);
      if ok {
        EndsWritten(axes, mine, g, u, v, Initialized, 0);
        Record(g, Initialized, 0);
      }
    }

    method Prepare(g: Group) returns (ok: bool)
      requires Valid() && InScope(g) && g in mine
      modifies this`groups, this`hits, this`dirty, this`others
      modifies adapter`pending, adapter`done, adapter`next, adapter`log
      ensures Valid() && KeptFor(axes, mine, old(View()), View()) && OnlyOn(old(adapter.log), adapter.log, g, adapter.scope)
      ensures ok <==>
          && !Troubled(|old(adapter.log)|, adapter.log, g)
          && (old(groups)[g].status == Initialized || old(groups)[g].status == Halted)
      ensures !SettledAt(old(adapter.log), OfGroup(g), |old(adapter.log)|) ==> !ok
      ensures ok ==> Touched(|old(adapter.log)|, adapter.log, resources[g], g)
      ensures ok ==> AskedInOrder(|old(adapter.log)|, adapter.log, [StopControllers, AdapterFence.Prepare, Await], g)
    {
      hide KeptFor, Same, Adapter.Valid, Troubled, OnlyOn, AskedInOrder, Touched, SettledAt;
      KeptAll(axes, mine, View());
      ghost var before := adapter.log;
      ok := adapter.EnsureSettled(OfGroup(g), g);
      ghost var now := adapter.log;
      CheckTroubles(before, now, ok, OfGroup(g), g, adapter.scope);
      if !ok { return; }
      if groups[g].status != Initialized && groups[g].status != Halted { return false; }
      ok := PrepareRemotely(g);
      Joined(before, now, adapter.log, g, adapter.scope);
      if ok {
        InOrderExtends(|before|, |now|, adapter.log, adapter.log, [StopControllers, AdapterFence.Prepare, Await], g);
        TouchedStays(before, now, adapter.log, resources[g], g);
      }
    }

    method PrepareRemotely(g: Group) returns (ok: bool)
      requires Valid() && InScope(g) && g in mine
      modifies this`groups, this`hits, this`dirty, this`others
      modifies adapter`pending, adapter`done, adapter`next, adapter`log
      ensures Valid() && KeptFor(axes, mine, old(View()), View()) && OnlyOn(old(adapter.log), adapter.log, g, adapter.scope)
      ensures ok <==> !Troubled(|old(adapter.log)|, adapter.log, g)
      ensures ok ==> Touched(|old(adapter.log)|, adapter.log, resources[g], g)
      ensures ok ==> AskedInOrder(|old(adapter.log)|, adapter.log, [StopControllers, AdapterFence.Prepare, Await], g)
    {
      hide KeptFor, Same, Adapter.Valid, Troubled, OnlyOn, AskedInOrder, Touched;
      ghost var u, before := View(), adapter.log;
      ok := BringUp(g);
      if !ok { return; }
      ghost var v, up := View(), adapter.log;
      ok := PrepareAndAwait(g);
      KeptOn(axes, mine, u, v, View());
      Joined(before, up, adapter.log, g, adapter.scope);
      TouchedStays(before, up, adapter.log, resources[g], g);
      if ok { PreparedInOrder(before, up, adapter.log, g); }
    }

    method PrepareAndAwait(g: Group) returns (ok: bool)
      requires Valid() && InScope(g) && g in mine
      modifies this`groups, this`hits, this`dirty, this`others
      modifies adapter`pending, adapter`done, adapter`next, adapter`log
      ensures Valid() && KeptFor(axes, mine, old(View()), View()) && OnlyOn(old(adapter.log), adapter.log, g, adapter.scope)
      ensures ok <==> !Troubled(|old(adapter.log)|, adapter.log, g)
      ensures ok ==> AskedInOrder(|old(adapter.log)|, adapter.log, [AdapterFence.Prepare, Await], g)
    {
      hide KeptFor, Same, Adapter.Valid, Troubled, OnlyOn, AskedInOrder;
      ghost var u, before := View(), adapter.log;
      ok := Call(AdapterFence.Prepare, g, {});
      if !ok { return; }
      ghost var v, now := View(), adapter.log;
      ok := Query(Await, g);
      KeptOn(axes, mine, u, v, View());
      Joined(before, now, adapter.log, g, adapter.scope);
      InOrderFirst(before, now, AdapterFence.Prepare, g);
      InOrderThen(before, now, adapter.log, [AdapterFence.Prepare], Await, g);
    }

    /** Controllers that linger are stopped, and the hardware components brought up. */
    method BringUp(g: Group) returns (ok: bool)
      requires Valid() && InScope(g) && g in mine
      modifies this`groups, this`hits, this`dirty, this`others
      modifies adapter`pending, adapter`done, adapter`next, adapter`log
      ensures Valid() && KeptFor(axes, mine, old(View()), View()) && OnlyOn(old(adapter.log), adapter.log, g, adapter.scope)
      ensures ok <==> !Troubled(|old(adapter.log)|, adapter.log, g)
      ensures ok ==> Touched(|old(adapter.log)|, adapter.log, resources[g], g)
      ensures ok ==> AskedInOrder(|old(adapter.log)|, adapter.log, [StopControllers], g)
    {
      hide KeptFor, Adapter.Valid, Troubled, OnlyOn, Touched, AskedInOrder;
      ghost var u, before := View(), adapter.log;
      ok := Call(StopControllers, g, {});
      if ok {
        ghost var v, now := View(), adapter.log;
        ok := TouchResources(g);
        KeptOn(axes, mine, u, v, View());
        Joined(before, now, adapter.log, g, adapter.scope);
        InOrderFirst(before, now, StopControllers, g);
        InOrderExtends(|before|, |before|, now, adapter.log, [StopControllers], g);
        if ok { TouchedStays(before, now, adapter.log, resources[g], g); }
      }
    }

    method Acknowledge(g: Group) returns (ok: bool)
      requires Valid() && InScope(g) && g in mine
      modifies this`groups, this`hits, this`dirty, this`others
      modifies adapter`pending, adapter`done, adapter`next, adapter`log
      ensures Valid() && KeptFor(axes, mine, old(View()), View()) && OnlyOn(old(adapter.log), adapter.log, g, adapter.scope)
      ensures ok <==> !Troubled(|old(adapter.log)|, adapter.log, g) && axes[g] * old(dirty) == {}
      ensures axes[g] * old(dirty) != {} ==> adapter.log == old(adapter.log)
      ensures ok ==> Clean(g) && AskedInOrder(|old(adapter.log)|, adapter.log, [MaintenanceClear, AdapterFence.Acknowledge], g)
    {
      hide KeptFor, Adapter.Valid, Troubled, OnlyOn, AskedInOrder;
      ghost var u, before := View(), adapter.log;
      KeptAll(axes, mine, u);
      QuietNow(before, g, adapter.scope);
      if !Clean(g) { return false; }
      ok := Call(MaintenanceClear, g, {});
      if ok {
        ghost var v, cleared := View(), adapter.log;
        ok := Call(AdapterFence.Acknowledge, g, {});
        KeptOn(axes, mine, u, v, View());
        Joined(before, cleared, adapter.log, g, adapter.scope);
        InOrderFirst(before, cleared, MaintenanceClear, g);
        InOrderThen(before, cleared, adapter.log, [MaintenanceClear], AdapterFence.Acknowledge, g);
        KeptClean(axes, mine, u, View(), g);
      }
    }

    /** Nothing earlier of this group may still take effect; only then may it be armed. */
    method CheckSettled(g: Group) returns (ok: bool)
      requires Valid() && InScope(g) && g in mine
      modifies this`groups, this`hits, this`dirty, this`others
      modifies adapter`pending, adapter`done, adapter`next, adapter`log
      ensures Valid() && KeptFor(axes, mine, old(View()), View()) && OnlyOn(old(adapter.log), adapter.log, g, adapter.scope)
      ensures ok ==> exists c :: |old(adapter.log)| <= c && FencedBy(adapter.log + [Asked(AdapterFence.Arm, g)], |adapter.log|, c)
      ensures ok <==> !Troubled(|old(adapter.log)|, adapter.log, g)
      ensures ok <==> SettledAt(old(adapter.log), OfGroup(g), |old(adapter.log)|)
    {
      hide KeptFor, Adapter.Valid, SettledAt, Troubled, OnlyOn;
      KeptAll(axes, mine, View());
      ghost var before := adapter.log;
      ok := adapter.EnsureSettled(OfGroup(g), g);
      ghost var checked := adapter.log;
      CheckTroubles(before, checked, ok, OfGroup(g), g, adapter.scope);
      if !ok { return; }
      Interfere();
      OnwardIsQuiet(mine, checked, adapter.log, g, adapter.scope);
      Joined(before, checked, adapter.log, g, adapter.scope);
      forall j | |before| < j < |adapter.log| && Concerns(adapter.log, j, OfGroup(g)) ensures !adapter.log[j].holder {
        assert j >= |checked|;
      }
      StillFenced(before, adapter.log, g);
    }

    method ArmRemotely(g: Group) returns (ok: bool)
      requires Valid() && InScope(g) && g in mine && Clean(g)
      modifies this`groups, this`hits, this`dirty, this`others
      modifies adapter`pending, adapter`done, adapter`next, adapter`log
      ensures Valid() && KeptFor(axes, mine, old(View()), View()) && OnlyOn(old(adapter.log), adapter.log, g, adapter.scope)
      ensures Clean(g)
      ensures ok <==> !Troubled(|old(adapter.log)|, adapter.log, g)
      ensures !SettledAt(old(adapter.log), OfGroup(g), |old(adapter.log)|) ==> !ok
      ensures ok ==> AskedInOrder(|old(adapter.log)|, adapter.log, [AdapterFence.Arm], g)
    {
      hide KeptFor, Adapter.Valid, FencedBy, Concerns, Troubled, OnlyOn, AskedInOrder, SettledAt;
      ghost var u, before := View(), adapter.log;
      ok := CheckSettled(g);
      ghost var v, now := View(), adapter.log;
      KeptClean(axes, mine, u, v, g);
      if !ok { return; }
      ok := Call(AdapterFence.Arm, g, {});
      KeptOn(axes, mine, u, v, View());
      KeptClean(axes, mine, u, View(), g);
      Joined(before, now, adapter.log, g, adapter.scope);
      InOrderFirst(now, adapter.log, AdapterFence.Arm, g);
      InOrderExtends(|before|, |now|, adapter.log, adapter.log, [AdapterFence.Arm], g);
    }

    method Arm(g: Group) returns (ok: bool)
      requires Valid() && InScope(g) && g in mine && Clean(g)
      modifies this`groups, this`hits, this`dirty, this`others
      modifies adapter`pending, adapter`done, adapter`next, adapter`log
      ensures Valid() && KeptFor(axes, mine - {g}, old(View()), View())
      ensures OnlyOn(old(adapter.log), adapter.log, g, adapter.scope)
      ensures Ended(axes, g, old(View()), View(), if ok then Armed else old(groups)[g].status, if ok then 1 else 0)
      ensures ok ==> groups[g].status == Armed
      ensures ok <==> !Troubled(|old(adapter.log)|, adapter.log, g)
      ensures !SettledAt(old(adapter.log), OfGroup(g), |old(adapter.log)|) ==> !ok
      ensures ok ==> AskedInOrder(|old(adapter.log)|, adapter.log, [AdapterFence.Arm], g)
    {
      hide KeptFor, Same, Ended, Adapter.Valid, Troubled, OnlyOn, AskedInOrder, SettledAt;
      ghost var u := View();
      ok := ArmRemotely(g);
      ghost var v := View();
      Unwritten(axes, mine, g, u, v);
      if ok {
        EndsWritten(axes, mine, g, u, v, Armed, 1);
        Record(g, Armed, 1);
      }
    }

    method StopRemotely(g: Group) returns (ok: bool)
      requires Valid() && InScope(g) && g in mine
      modifies this`groups, this`hits, this`dirty, this`others
      modifies adapter`pending, adapter`done, adapter`next, adapter`log
      ensures Valid() && KeptFor(axes, mine, old(View()), View()) && OnlyOn(old(adapter.log), adapter.log, g, adapter.scope)
      ensures old(adapter.log) + [Asked(Halt, g)] <= adapter.log
      ensures ok <==> !Troubled(|old(adapter.log)|, adapter.log, g)
      ensures AskedInOrder(|old(adapter.log)|, adapter.log, [Halt, StopControllers], g)
    {
      hide KeptFor, Adapter.Valid, Troubled, AskedInOrder;
      ghost var u, before := View(), adapter.log;
      ok := Call(Halt, g, {});
      ghost var v, halted := View(), adapter.log;
      var stopped := Call(StopControllers, g, {});
      KeptOn(axes, mine, u, v, View());
      Joined(before, halted, adapter.log, g, adapter.scope);
      ok := ok && stopped;
      InOrderFirst(before, halted, Halt, g);
      InOrderThen(before, halted, adapter.log, [Halt], StopControllers, g);
    }

    /** The halt is asked for at once, whatever is still pending. */
    method Stop(g: Group) returns (ok: bool)
      requires Valid() && InScope(g) && g in mine
      modifies this`groups, this`hits, this`dirty, this`others
      modifies adapter`pending, adapter`done, adapter`next, adapter`log
      ensures Valid() && KeptFor(axes, mine - {g}, old(View()), View())
      ensures OnlyOn(old(adapter.log), adapter.log, g, adapter.scope)
      ensures old(adapter.log) + [Asked(Halt, g)] <= adapter.log
      ensures Ended(axes, g, old(View()), View(), if ok then Halted else Fault, 1)
      ensures groups[g].status == if ok then Halted else Fault
      ensures ok <==> !Troubled(|old(adapter.log)|, adapter.log, g)
      ensures AskedInOrder(|old(adapter.log)|, adapter.log, [Halt, StopControllers], g)
    {
      hide KeptFor, Same, Ended, Adapter.Valid, Troubled, OnlyOn;
      ghost var u := View();
      Record(g, groups[g].status, 1);
      ok := StopRemotely(g);
      var s := if ok then Halted else Fault;
      KeptIn(axes, mine, Written(u, g, u.groups[g].status, 1), View(), g);
      EndsStopped(axes, mine, g, u, View(), s);
      Record(g, s, 0);
    }

    method StartRemotely(g: Group) returns (ok: bool)
      requires Valid() && InScope(g) && g in mine && Clean(g)
      modifies this`groups, this`hits, this`dirty, this`others
      modifies adapter`pending, adapter`done, adapter`next, adapter`log
      ensures Valid() && KeptFor(axes, mine, old(View()), View()) && OnlyOn(old(adapter.log), adapter.log, g, adapter.scope)
      ensures Clean(g)
      ensures ok <==> !Troubled(|old(adapter.log)|, adapter.log, g)
      ensures ok ==> AskedInOrder(|old(adapter.log)|, adapter.log, [StartControllers, Run], g)
    {
      hide KeptFor, Adapter.Valid, Troubled, OnlyOn, AskedInOrder;
      ghost var u, before := View(), adapter.log;
      ok := Call(StartControllers, g, {});
      ghost var v, now := View(), adapter.log;
      KeptClean(axes, mine, u, v, g);
      if !ok { return; }
      ok := Call(Run, g, {});
      KeptOn(axes, mine, u, v, View());
      KeptClean(axes, mine, u, View(), g);
      Joined(before, now, adapter.log, g, adapter.scope);
      InOrderFirst(before, now, StartControllers, g);
      InOrderThen(before, now, adapter.log, [StartControllers], Run, g);
    }

    method Start(g: Group) returns (ok: bool)
      requires Valid() && InScope(g) && g in mine && Clean(g)
      modifies this`groups, this`hits, this`dirty, this`others
      modifies adapter`pending, adapter`done, adapter`next, adapter`log
      ensures Valid() && KeptFor(axes, mine - {g}, old(View()), View())
      ensures OnlyOn(old(adapter.log), adapter.log, g, adapter.scope)
      ensures Ended(axes, g, old(View()), View(), if ok then Running else old(groups)[g].status, 0)
      ensures ok ==> groups[g].status == Running
      ensures ok <==> !Troubled(|old(adapter.log)|, adapter.log, g)
      ensures ok ==> AskedInOrder(|old(adapter.log)|, adapter.log, [StartControllers, Run], g)
    {
      hide KeptFor, Same, Ended, Adapter.Valid, Troubled, OnlyOn, AskedInOrder;
      ghost var u := View();
      ok := StartRemotely(g);
      ghost var v := View();
      Unwritten(axes, mine, g, u, v);
      if ok {
        EndsWritten(axes, mine, g, u, v, Running, 0);
        Record(g, Running, 0);
      }
    }

    // ---- Phases ----

    method ResumingPrepare(g: Group) returns (ok: bool)
      requires Valid() && InScope(g) && g in mine
      modifies this`groups, this`hits, this`dirty, this`others
      modifies adapter`pending, adapter`done, adapter`next, adapter`log
      ensures Valid() && KeptFor(axes, mine - {g}, old(View()), View())
      ensures OnlyOn(old(adapter.log), adapter.log, g, adapter.scope)
      ensures On(axes, g, old(View()), View()) && (ok ==> Arrived(axes, g, old(View()), View(), ResumePrepare))
      ensures ok ==> Did(ResumePrepare, g in serviced, old(groups)[g].status, old(adapter.log), adapter.log, g)
      ensures ok <==>
          && !Troubled(|old(adapter.log)|, adapter.log, g)
          && Suits(ResumePrepare, g in serviced, old(groups)[g].status, axes[g] * old(dirty) == {})
    {
      hide Adapter.Valid, Troubled, AskedInOrder, KeptFor, Same, OnlyOn, Touched, SettledAt;
      QuietNow(adapter.log, g, adapter.scope);
      if groups[g].status != Halted { KeptAll(axes, mine - {g}, View()); return true; }
      ghost var u, before := View(), adapter.log;
      ok := Init(g);
      if ok {
        ghost var v, initialized := View(), adapter.log;
        ok := Prepare(g);
        Unwritten(axes, mine, g, v, View());
        KeptOn(axes, mine - {g}, u, v, View());
        Joined(before, initialized, adapter.log, g, adapter.scope);
        if ok {
          InOrderNone(before, initialized, g, adapter.scope);
          InOrderGoesOn(|before|, initialized, adapter.log, if g in serviced then [Initialize, Verify] else [],
                        [StopControllers, AdapterFence.Prepare, Await], g);
        }
      }
    }

    /** One phase on one group.  It succeeds exactly if it suits the group and nothing of it fails; failures are
        reported, not undone. */
    method RunPhase(p: Phase, g: Group) returns (ok: bool)
      requires Valid() && InScope(g) && g in mine && (p.Enlivens() ==> Clean(g))
      modifies this`groups, this`hits, this`dirty, this`others
      modifies adapter`pending, adapter`done, adapter`next, adapter`log
      ensures Valid() && KeptFor(axes, mine - {g}, old(View()), View())
      ensures OnlyOn(old(adapter.log), adapter.log, g, adapter.scope)
      ensures On(axes, g, old(View()), View()) && (ok ==> Arrived(axes, g, old(View()), View(), p))
      ensures ok && p.Acknowledges() ==> Clean(g)
      ensures ok ==> Did(p, g in serviced, old(groups)[g].status, old(adapter.log), adapter.log, g)
      ensures ok <==>
          && !Troubled(|old(adapter.log)|, adapter.log, g)
          && Suits(p, g in serviced, old(groups)[g].status, axes[g] * old(dirty) == {})
    {
      hide Adapter.Valid, Troubled, AskedInOrder, KeptFor, Same, OnlyOn, Touched, SettledAt;
      ghost var before, u := adapter.log, View();
      KeptAll(axes, mine - {g}, u);
      QuietNow(before, g, adapter.scope);
      match p {
        case StopPhase => ok := Stop(g);
        case InitPhase => ok := Init(g); InOrderNone(before, adapter.log, g, adapter.scope);
        case PreparePhase => ok := Prepare(g); Unwritten(axes, mine, g, u, View());
        case AcknowledgePhase => ok := Acknowledge(g); Unwritten(axes, mine, g, u, View());
        case ArmPhase => ok := Arm(g);
        case ResumePrepare => ok := ResumingPrepare(g);
        case ResumeAcknowledge =>
          if groups[g].status == Armed { ok := true; } else { ok := Acknowledge(g); Unwritten(axes, mine, g, u, View()); }
        case ResumeArm => if groups[g].status == Armed { ok := true; } else { ok := Arm(g); }
        case StartPhase => ok := Start(g);
      }
    }

    /** A group whose phase failed is stopped and recorded in Fault, whether or not the halt got through. */
    method GiveUp(g: Group)
      requires Valid() && InScope(g) && g in mine
      modifies this`groups, this`hits, this`dirty, this`others
      modifies adapter`pending, adapter`done, adapter`next, adapter`log
      ensures Valid() && KeptFor(axes, mine - {g}, old(View()), View())
      ensures OnlyOn(old(adapter.log), adapter.log, g, adapter.scope)
      ensures g in groups && g in axes && groups[g].status == Fault && groups[g].progress == Failed
      ensures axes[g] * dirty == axes[g] * old(dirty)
      ensures g in hits && g in old(hits) && old(hits)[g] <= hits[g]
      ensures AskedInOrder(|old(adapter.log)|, adapter.log, [Halt], g)
    {
      ghost var before := adapter.log;
      var stopped := Stop(g);
      InOrderFirst(before, adapter.log, Halt, g);
      groups := groups[g := groups[g].(status := Fault, progress := Failed)];
    }

    method SetProgress(g: Group, p: Progress)
      requires Valid() && g in mine
      modifies this`groups
      ensures Valid() && groups == old(groups)[g := old(groups)[g].(progress := p)]
    {
      groups := groups[g := groups[g].(progress := p)];
    }

    // ---- Operations ----

    /** Before the first operation of a new process: the groups that the guard still reports live, from the
        previous process, are released at the guard and given up here. */
    method CheckOwner(report: Report) returns (ok: bool)
      requires Valid() && mine == {} && adapter.scope == Unscoped
      modifies this`groups, this`hits, this`dirty, this`others, this`ownerChecked
      modifies adapter`pending, adapter`done, adapter`next, adapter`log
      ensures Valid() && old(adapter.log) <= adapter.log && (ok <==> ownerChecked) && (!ok ==> !old(ownerChecked))
      ensures old(ownerChecked) || report.NoReport? || report.live * axes.Keys == {} ==>
          && (ok <==> old(ownerChecked) || report.Reported?)
          && View() == old(View()) && others == old(others) && adapter.log == old(adapter.log)
      ensures !ok ==> report.NoReport? || Troubled(|old(adapter.log)|, adapter.log, 0)
      ensures ok && !old(ownerChecked) && report.live * axes.Keys != {} ==>
          && (forall g | g in report.live && g in groups :: groups[g].status == Fault)
          && !Troubled(|old(adapter.log)|, adapter.log, 0)
          && AskedInOrder(|old(adapter.log)|, adapter.log, [OwnerReset, StopControllers], 0)
    {
      hide Adapter.Valid, Troubled, AskedInOrder;
      if ownerChecked { return true; }
      if report.NoReport? { return false; }
      var live := report.live * groups.Keys;
      if live != {} {
        ok := ReleasePrevious();
        if !ok { return; }
        GiveUpPrevious(live);
      }
      ownerChecked := true;
      return true;
    }

    method ReleasePrevious() returns (ok: bool)
      requires Valid() && mine == {} && adapter.scope == Unscoped
      modifies this`groups, this`hits, this`dirty, this`others
      modifies adapter`pending, adapter`done, adapter`next, adapter`log
      ensures Valid() && old(adapter.log) <= adapter.log && groups.Keys == old(groups).Keys
      ensures ok <==> !Troubled(|old(adapter.log)|, adapter.log, 0)
      ensures ok ==> AskedInOrder(|old(adapter.log)|, adapter.log, [OwnerReset, StopControllers], 0)
    {
      hide Adapter.Valid, KeptFor, Troubled, OnlyOn, AskedInOrder;
      ghost var before := adapter.log;
      ok := Call(OwnerReset, 0, {});
      if !ok { return; }
      ghost var released := adapter.log;
      ok := Call(StopControllers, 0, {});
      Joined(before, released, adapter.log, 0, adapter.scope);
      InOrderFirst(before, released, OwnerReset, 0);
      InOrderThen(before, released, adapter.log, [OwnerReset], StopControllers, 0);
    }

    method GiveUpPrevious(previous: set<Group>)
      requires Valid()
      modifies this`groups
      ensures Valid() && groups.Keys == old(groups).Keys
      ensures forall g | g in groups :: groups[g] == if g in previous then GivenUp(old(groups)[g]) else old(groups)[g]
    {
      groups := map g | g in groups :: if g in previous then GivenUp(groups[g]) else groups[g];
    }

    /** All locks or none, without waiting for any. */
    method Acquire(selected: seq<Group>) returns (ok: bool)
      requires Valid() && mine == {}
      modifies this`mine
      ensures Valid() && mine == if ok then Members(selected) else {}
      ensures ok <==> forall g | g in selected :: g in axes && g !in others
    {
      hide Adapter.Valid;
      for i := 0 to |selected|
        invariant Valid() && mine == Members(selected[..i])
        invariant forall g | g in selected[..i] :: g in axes && g !in others
      {
        var g := selected[i];
        if g !in axes || g in others {
          mine := {};
          return false;
        }
        mine := mine + {g};
        assert selected[..i + 1] == selected[..i] + [g];
      }
      assert selected[..|selected|] == selected;
      return true;
    }

    /** The guard was not asked before, and has not answered or not released the groups of the previous process. */
    ghost predicate Unreconciled(report: Report, checked: bool, before: Log)
      reads this, adapter
    {
      !checked && (report.NoReport? || Troubled(|before|, adapter.log, 0))
    }

    /** The owner is checked before any lock is tried. */
    method Lock(selected: seq<Group>, report: Report) returns (locked: bool)
      requires Valid() && mine == {}
      modifies this`groups, this`hits, this`dirty, this`others, this`mine, this`ownerChecked
      modifies adapter`pending, adapter`done, adapter`next, adapter`log, adapter`scope
      ensures Valid() && mine == (if locked then Members(selected) else {}) && adapter.scope == Unscoped
      ensures old(adapter.log) <= adapter.log
      ensures locked ==> forall g | g in selected :: g in axes && g !in others
      ensures !locked ==>
        || Unreconciled(report, old(ownerChecked), old(adapter.log))
        || exists g | g in selected :: g !in axes || g in others
      ensures !old(ownerChecked) && report.NoReport? ==> !locked
      ensures old(ownerChecked) ==> others == old(others) && groups == old(groups) && hits == old(hits)
      ensures old(ownerChecked) ==> dirty == old(dirty) && adapter.log == old(adapter.log)
    {
      hide Adapter.Valid, Troubled, AskedInOrder;
      adapter.BeginScope(Unscoped);
      ghost var u := View();
      locked := CheckOwner(report);
      if !locked { return; }
      locked := Acquire(selected);
    }

    method MarkAll(selected: seq<Group>, p: Progress)
      requires Valid() && Members(selected) <= mine
      modifies this`groups
      ensures Valid() && groups.Keys == old(groups).Keys
      ensures forall g | g in groups :: groups[g] == if g in selected then old(groups)[g].(progress := p) else old(groups)[g]
    {
      hide Coordinator.Clean, Adapter.Valid;
      for i := 0 to |selected|
        invariant Valid() && groups.Keys == old(groups).Keys
        invariant forall g | g in groups :: groups[g] == if g in selected[..i] then old(groups)[g].(progress := p) else old(groups)[g]
      {
        assert selected[i] in Members(selected);
        SetProgress(selected[i], p);
        assert selected[..i + 1] == selected[..i] + [selected[i]];
      }
      assert selected[..|selected|] == selected;
    }

    /** Where a selected group stands when `k` phases are behind it, and what they have asked for. */
    ghost predicate Going(g: Group, phases: seq<Phase>, k: nat, failed: set<Group>, begun: map<Group, Found>)
      requires k <= |phases|
      reads this, adapter
    {
      && g in axes && g in groups && g in hits && g in begun
      && Standing(axes, View(), g, phases, k, failed, begun)
      && Worked(hits[g], axes[g] * dirty == {}, adapter.log, g, phases, k, g in failed, begun[g], g in serviced)
    }

    /** Other threads go on. */
    method GoingWaits(g: Group, phases: seq<Phase>, k: nat, failed: set<Group>, ghost begun: map<Group, Found>)
      requires Valid() && g in mine && k <= |phases| && Going(g, phases, k, failed, begun)
      modifies this`groups, this`hits, this`dirty, this`others
      modifies adapter`pending, adapter`done, adapter`next, adapter`log
      ensures Valid() && KeptFor(axes, mine, old(View()), View()) && OnlyOn(old(adapter.log), adapter.log, g, OfGroup(g))
      ensures Going(g, phases, k, failed, begun)
    {
      hide Standing, Worked, Adapter.Valid, OnlyOn, Troubled;
      ghost var before := adapter.log;
      Interfere();
      OnwardIsQuiet(mine, before, adapter.log, g, OfGroup(g));
      GoingStays(g, phases, k, failed, begun, old(View()), before);
    }

    /** What other threads do leaves a locked group where it may stand. */
    lemma GoingStays(g: Group, phases: seq<Phase>, k: nat, failed: set<Group>, begun: map<Group, Found>, v: Picture,
        before: Log)
      requires k <= |phases| && Same(axes, g, v, View()) && g in begun && before <= adapter.log
      requires !Troubled(|before|, adapter.log, g)
      requires Standing(axes, v, g, phases, k, failed, begun)
      requires Worked(v.hits[g], axes[g] * v.dirty == {}, before, g, phases, k, g in failed, begun[g], g in serviced)
      ensures Going(g, phases, k, failed, begun)
    {
      hide Standing, Worked, Troubled;
      StandingStays(axes, v, View(), g, phases, k, failed, begun);
      WorkedStays(v.hits[g], hits[g], axes[g] * v.dirty == {}, before, adapter.log, g, phases, k, g in failed, begun[g],
          g in serviced);
    }

    /** One phase on one selected group, while other threads go on before and after it. */
    method Advances(g: Group, phases: seq<Phase>, k: nat, failed: set<Group>, ghost begun: map<Group, Found>) returns (ok: bool)
      requires Valid() && g in mine && WellPhased(phases) && k < |phases| && g !in failed
      requires Going(g, phases, k, failed, begun)
      modifies this`groups, this`hits, this`dirty, this`others
      modifies adapter`pending, adapter`done, adapter`next, adapter`log, adapter`scope
      ensures Valid() && KeptFor(axes, mine - {g}, old(View()), View()) && OnlyOn(old(adapter.log), adapter.log, g, OfGroup(g))
      ensures adapter.scope == Unscoped
      ensures Going(g, phases, k + 1, if ok then failed else failed + {g}, begun)
      ensures !ok ==> AskedInOrder(|old(adapter.log)|, adapter.log, [Halt], g)
    {
      hide Coordinator.Going, Same, Adapter.Valid, OnlyOn, AskedInOrder;
      ghost var u, before := View(), adapter.log;
      GoingWaits(g, phases, k, failed, begun);
      ghost var v, waited := View(), adapter.log;
      ok := AdvanceNow(g, phases, k, failed, begun);
      ghost var w, now := View(), adapter.log;
      GoingWaits(g, phases, k + 1, if ok then failed else failed + {g}, begun);
      KeptOn(axes, mine - {g}, u, v, w);
      KeptOn(axes, mine - {g}, u, w, View());
      Joined(before, waited, now, g, OfGroup(g));
      Joined(before, now, adapter.log, g, OfGroup(g));
      if !ok { InOrderExtends(|before|, |waited|, now, adapter.log, [Halt], g); }
    }

    method AdvanceNow(g: Group, phases: seq<Phase>, k: nat, failed: set<Group>, ghost begun: map<Group, Found>)
      returns (ok: bool)
      requires Valid() && g in mine && WellPhased(phases) && k < |phases| && g !in failed
      requires Going(g, phases, k, failed, begun)
      modifies this`groups, this`hits, this`dirty, this`others
      modifies adapter`pending, adapter`done, adapter`next, adapter`log, adapter`scope
      ensures Valid() && KeptFor(axes, mine - {g}, old(View()), View()) && OnlyOn(old(adapter.log), adapter.log, g, OfGroup(g))
      ensures adapter.scope == Unscoped
      ensures Going(g, phases, k + 1, if ok then failed else failed + {g}, begun)
      ensures !ok ==> AskedInOrder(|old(adapter.log)|, adapter.log, [Halt], g)
    {
      hide Standing, Worked, WellPhased, Arrived, Did, KeptFor, Same, Adapter.Valid, OnlyOn, AskedInOrder, Troubled, Suits;
      ghost var u, before := View(), adapter.log;
      MayAdvance(axes, u, g, phases, k, failed, begun);
      adapter.BeginScope(OfGroup(g));
      ok := RunPhase(phases[k], g);
      ghost var v, now := View(), adapter.log;
      PhaseWorked(axes, u, v, before, now, g, phases, k, failed, begun, g in serviced, ok);
      if ok {
        PhaseStands(axes, u, v, g, phases, k, failed, begun);
      } else {
        GiveUp(g);
        KeptOn(axes, mine - {g}, u, v, View());
        GivenUpStands(axes, u, View(), g, phases, k, failed, begun);
        Joined(before, now, adapter.log, g, OfGroup(g));
        WorkedFailedStays(v.hits[g], hits[g], axes[g] * dirty == {}, now, adapter.log, g, phases, k + 1, begun[g],
            g in serviced);
        InOrderExtends(|before|, |now|, adapter.log, adapter.log, [Halt], g);
      }
      adapter.BeginScope(Unscoped);
    }

    ghost predicate AllGoing(selected: seq<Group>, phases: seq<Phase>, k: nat, i: nat, failed: set<Group>,
        begun: map<Group, Found>)
      requires k <= |phases| && (i > 0 ==> k < |phases|)
      reads this, adapter
    {
      forall m | 0 <= m < |selected| :: Going(selected[m], phases, if m < i then k + 1 else k, failed, begun)
    }

    method RunOne(selected: seq<Group>, phases: seq<Phase>, k: nat, i: nat, failed: set<Group>, ghost begun: map<Group, Found>,
                  ghost trace: seq<Attempt>)
      returns (failed': set<Group>, ghost trace': seq<Attempt>)
      requires Valid() && WellPhased(phases) && k < |phases| && i < |selected| && Distinct(selected)
      requires mine == Members(selected)
      requires AllGoing(selected, phases, k, i, failed, begun) && failed <= Members(selected)
      requires Traced(trace, selected, failed, k, i)
      requires adapter.scope == Unscoped
      modifies this`groups, this`hits, this`dirty, this`others
      modifies adapter`pending, adapter`done, adapter`next, adapter`log, adapter`scope
      ensures Valid() && AllGoing(selected, phases, k, i + 1, failed', begun) && failed <= failed' <= Members(selected)
      ensures Traced(trace', selected, failed', k, i + 1) && adapter.scope == Unscoped
      ensures old(adapter.log) <= adapter.log && Attributed(|old(adapter.log)|, adapter.log)
    {
      hide Possible, ReachedAll, Traced, Adapter.Valid, Standing, Worked, Troubled;
      failed', trace' := failed, trace;
      var g := selected[i];
      assert g in Members(selected);
      assert Going(g, phases, k, failed, begun);
      if g in failed {
        FailedStands(axes, View(), g, phases, k, failed, begun);
        WorkedSkips(hits[g], axes[g] * dirty == {}, adapter.log, g, phases, k, begun[g], g in serviced);
        TraceSkips(trace, selected, failed, k, i);
        return;
      }
      ghost var before, now := View(), adapter.log;
      var ok := Advances(g, phases, k, failed, begun);
      AttributedOn(now, adapter.log, g);
      if !ok { failed' := failed + {g}; }
      hide Traced, OnlyOn, Attributed;
      forall m | 0 <= m < |selected| && m != i
        ensures Going(selected[m], phases, if m <= i then k + 1 else k, failed', begun)
      {
        assert selected[m] in Members(selected) && selected[m] != g;
        var n := if m < i then k + 1 else k;
        OthersFailed(axes, before, selected[m], phases, n, failed, g, begun);
        OthersAreQuiet(now, adapter.log, g, selected[m], OfGroup(g));
        GoingStays(selected[m], phases, n, failed', begun, before, now);
      }
      TraceGrows(trace, selected, failed, k, i, ok);
      trace' := trace + [Attempt(k, g, ok)];
    }

    /** One phase over all selected groups that have not failed. */
    method RunRound(selected: seq<Group>, phases: seq<Phase>, k: nat, failed: set<Group>, ghost begun: map<Group, Found>,
        ghost trace: seq<Attempt>)
      returns (failed': set<Group>, ghost trace': seq<Attempt>)
      requires Valid() && WellPhased(phases) && k < |phases| && Distinct(selected) && mine == Members(selected)
      requires AllGoing(selected, phases, k, 0, failed, begun) && failed <= Members(selected)
      requires Traced(trace, selected, failed, k, 0)
      requires adapter.scope == Unscoped
      modifies this`groups, this`hits, this`dirty, this`others
      modifies adapter`pending, adapter`done, adapter`next, adapter`log, adapter`scope
      ensures Valid() && AllGoing(selected, phases, k + 1, 0, failed', begun) && failed <= failed' <= Members(selected)
      ensures Traced(trace', selected, failed', k + 1, 0) && adapter.scope == Unscoped
      ensures old(adapter.log) <= adapter.log && Attributed(|old(adapter.log)|, adapter.log)
    {
      failed', trace' := failed, trace;
      for i := 0 to |selected|
        invariant Valid() && AllGoing(selected, phases, k, i, failed', begun) && failed <= failed' <= Members(selected)
        invariant Traced(trace', selected, failed', k, i) && adapter.scope == Unscoped
        invariant old(adapter.log) <= adapter.log && Attributed(|old(adapter.log)|, adapter.log)
      {
        ghost var now := adapter.log;
        failed', trace' := RunOne(selected, phases, k, i, failed', begun, trace');
        AttributedJoined(|old(adapter.log)|, now, adapter.log);
      }
      TraceTurns(trace', selected, failed', k);
    }

    method RunPhases(selected: seq<Group>, phases: seq<Phase>, ghost begun: map<Group, Found>)
      returns (failed: set<Group>, ghost trace: seq<Attempt>)
      requires Valid() && WellPhased(phases) && Distinct(selected) && mine == Members(selected)
      requires AllGoing(selected, phases, 0, 0, {}, begun) && adapter.scope == Unscoped
      modifies this`groups, this`hits, this`dirty, this`others
      modifies adapter`pending, adapter`done, adapter`next, adapter`log, adapter`scope
      ensures Valid() && AllGoing(selected, phases, |phases|, 0, failed, begun) && failed <= Members(selected)
      ensures Traced(trace, selected, failed, |phases|, 0) && adapter.scope == Unscoped
      ensures old(adapter.log) <= adapter.log && Attributed(|old(adapter.log)|, adapter.log)
    {
      failed, trace := {}, [];
      for k := 0 to |phases|
        invariant Valid() && AllGoing(selected, phases, k, 0, failed, begun) && failed <= Members(selected)
        invariant Traced(trace, selected, failed, k, 0) && adapter.scope == Unscoped
        invariant old(adapter.log) <= adapter.log && Attributed(|old(adapter.log)|, adapter.log)
      {
        ghost var now := adapter.log;
        failed, trace := RunRound(selected, phases, k, failed, begun, trace);
        AttributedJoined(|old(adapter.log)|, now, adapter.log);
      }
    }

    /** How an operation leaves its groups: those in `failed` are stopped, the others where their phases have
        led, unless the monitor has stopped them meanwhile.  Where no thread without the lock has written, the
        failed groups are in Fault and the others exactly where the phases lead. */
    ghost predicate Outcome(selected: seq<Group>, phases: seq<Phase>, failed: set<Group>, begun: map<Group, Found>)
      reads this, adapter
    {
      forall g | g in selected :: Concluded(g, phases, failed, begun)
    }

    ghost predicate Concluded(g: Group, phases: seq<Phase>, failed: set<Group>, begun: map<Group, Found>)
      reads this, adapter
    {
      && g in groups && g in begun && g in hits && g in axes
      && groups[g].progress == (if g in failed then Failed else Complete)
      && groups[g].status in (if g in failed then {Halted, Fault} else Possible(phases, begun[g].status))
      && (hits[g] == begun[g].hits ==> groups[g].status == if g in failed then Fault else ReachedAll(phases, begun[g].status))
      && Worked(hits[g], axes[g] * dirty == {}, adapter.log, g, phases, |phases|, g in failed, begun[g], g in serviced)
    }

    /** Nothing that an operation can be asked for. */
    predicate Unselectable(selected: seq<Group>) {
      || selected == []
      || (exists i, j | 0 <= i < j < |selected| :: selected[i] == selected[j])
      || exists g | g in selected :: g !in axes
    }

    /** No other thread works on these groups, and their statuses are allowed; every status is, if none is named. */
    predicate Admits(selected: seq<Group>, allowed: set<Status>)
      reads this
    {
      forall g | g in selected && g in groups :: g !in others && (allowed == {} || groups[g].status in allowed)
    }

    /** An operation on several groups: all of their locks or a refusal; then phase by phase, each group
        until it fails; every lock is released whatever happens. */
    method Apply(selected: seq<Group>, allowed: set<Status>, phases: seq<Phase>, report: Report)
      returns (r: Result, ghost begun: map<Group, Found>, ghost trace: seq<Attempt>)
      requires Valid() && mine == {} && WellPhased(phases)
      modifies this`groups, this`hits, this`dirty, this`others, this`mine, this`ownerChecked
      modifies adapter`pending, adapter`done, adapter`next, adapter`log, adapter`scope
      ensures Valid() && mine == {} && adapter.scope == Unscoped && old(adapter.log) <= adapter.log
      ensures r.Finished? ==> Outcome(selected, phases, r.failed, begun) && r.failed <= Members(selected)
      ensures r.Finished? ==> forall g | g in selected ::
          && g in begun && |old(adapter.log)| <= begun[g].at && Attributed(begun[g].at, adapter.log)
          && (allowed != {} ==> begun[g].status in allowed)
      ensures r.Finished? ==> Traced(trace, selected, r.failed, |phases|, 0)
      ensures r.Refused? ==>
        || Unselectable(selected)
        || Unreconciled(report, old(ownerChecked), old(adapter.log))
        || !Admits(selected, allowed)
      ensures !old(ownerChecked) && report.NoReport? ==> r.Refused?
      ensures old(ownerChecked) ==> (r.Refused? <==> Unselectable(selected) || !old(Admits(selected, allowed)))
      ensures old(ownerChecked) && r.Finished? ==> forall g | g in selected ::
          && g in old(groups) && g in old(hits)
          && begun[g] == Found(old(groups)[g].status, old(hits)[g], |old(adapter.log)|)
    {
      hide Adapter.Valid, Attributed, Worked, Possible, ReachedAll, Traced, Troubled, WellPhased, KeptFor;
      begun, trace := map[], [];
      adapter.BeginScope(Unscoped);
      if Unselectable(selected) { return Refused, begun, trace; }
      var locked := Lock(selected, report);
      if !locked { return Refused, begun, trace; }
      r, begun, trace := ApplyLocked(selected, allowed, phases);
      mine := {};
    }

    method ApplyLocked(selected: seq<Group>, allowed: set<Status>, phases: seq<Phase>)
      returns (r: Result, ghost begun: map<Group, Found>, ghost trace: seq<Attempt>)
      requires Valid() && mine == Members(selected) && Distinct(selected) && WellPhased(phases) && adapter.scope == Unscoped
      modifies this`groups, this`hits, this`dirty, this`others
      modifies adapter`pending, adapter`done, adapter`next, adapter`log, adapter`scope
      ensures Valid() && adapter.scope == Unscoped && old(adapter.log) <= adapter.log
      ensures Attributed(|old(adapter.log)|, adapter.log)
      ensures r.Finished? ==> Outcome(selected, phases, r.failed, begun) && r.failed <= Members(selected)
      ensures forall g | g in selected ::
          && g in old(groups) && g in old(hits) && g in begun
          && begun[g] == Found(old(groups)[g].status, old(hits)[g], |old(adapter.log)|)
      ensures r.Refused? <==> allowed != {} && exists g | g in selected && g in old(groups) :: old(groups)[g].status !in allowed
      ensures r.Refused? ==> exists g | g in selected && g in groups :: groups[g].status !in allowed
      ensures r.Finished? ==> Traced(trace, selected, r.failed, |phases|, 0)
    {
      hide Traced, Standing, Worked, Possible, ReachedAll, Acked, Adapter.Valid, LostAt;
      trace := [];
      assert forall g | g in selected :: g in mine;
      MarkAll(selected, InProgress);
      begun := map g | g in groups :: Found(groups[g].status, hits[g], |adapter.log|);
      if allowed != {} && exists g | g in selected :: groups[g].status !in allowed {
        MarkAll(selected, Failed);
        return Refused, begun, trace;
      }
      AllBegin(selected, phases, begun);
      var failed;
      failed, trace := RunPhases(selected, phases, begun);
      Conclude(selected, phases, failed, begun);
      return Finished(failed), begun, trace;
    }

    lemma AllBegin(selected: seq<Group>, phases: seq<Phase>, begun: map<Group, Found>)
      requires Valid() && mine == Members(selected) && begun == map g | g in groups :: Found(groups[g].status, hits[g], |adapter.log|)
      requires forall g | g in selected :: g in groups && groups[g].progress == InProgress
      ensures AllGoing(selected, phases, 0, 0, {}, begun)
    {
      hide Adapter.Valid;
      assert phases[..0] == [];
      forall m | 0 <= m < |selected| ensures Going(selected[m], phases, 0, {}, begun) {
        assert selected[m] in Members(selected);
        QuietNow(adapter.log, selected[m], adapter.scope);
      }
    }

    lemma AllEnd(selected: seq<Group>, phases: seq<Phase>, failed: set<Group>, begun: map<Group, Found>)
      requires AllGoing(selected, phases, |phases|, 0, failed, begun)
      ensures forall g | g in selected :: Going(g, phases, |phases|, failed, begun)
    {
      forall g | g in selected ensures Going(g, phases, |phases|, failed, begun) {
        var m :| 0 <= m < |selected| && selected[m] == g;
        assert Going(selected[m], phases, |phases|, failed, begun);
      }
    }

    /** The groups that went through every phase are marked complete. */
    method Conclude(selected: seq<Group>, phases: seq<Phase>, failed: set<Group>, ghost begun: map<Group, Found>)
      requires Valid() && mine == Members(selected) && AllGoing(selected, phases, |phases|, 0, failed, begun)
      modifies this`groups
      ensures Valid() && Outcome(selected, phases, failed, begun)
    {
      hide Possible, ReachedAll, Acked, Adapter.Valid, Worked;
      AllEnd(selected, phases, failed, begun);
      assert phases[..|phases|] == phases;
      MarkComplete(selected, failed);
    }

    method MarkComplete(selected: seq<Group>, failed: set<Group>)
      requires Valid() && Members(selected) <= mine
      modifies this`groups
      ensures Valid() && groups.Keys == old(groups).Keys
      ensures forall g | g in groups ::
        groups[g] == if g in selected && g !in failed then old(groups)[g].(progress := Complete) else old(groups)[g]
    {
      hide Coordinator.Clean, Adapter.Valid;
      for i := 0 to |selected|
        invariant Valid() && groups.Keys == old(groups).Keys
        invariant forall g | g in groups ::
          groups[g] == if g in selected[..i] && g !in failed then old(groups)[g].(progress := Complete) else old(groups)[g]
      {
        assert selected[i] in Members(selected);
        if selected[i] !in failed { SetProgress(selected[i], Complete); }
        assert selected[..i + 1] == selected[..i] + [selected[i]];
      }
      assert selected[..|selected|] == selected;
    }

    /** A group in `failed` is stopped, any other has status `s` or has been stopped by the monitor; where no
        thread without the lock has written, exactly Fault or `s`. */
    ghost predicate Left(g: Group, failed: set<Group>, begun: map<Group, Found>, s: Status)
      reads this
    {
      && g in groups && g in begun && g in hits
      && groups[g].status in (if g in failed then {Halted, Fault} else {s, Halted, Fault})
      && (hits[g] == begun[g].hits ==> groups[g].status == if g in failed then Fault else s)
    }

    /** Since the look at the group nothing of it has failed and the guard was asked for these, in this order. */
    ghost predicate Served(g: Group, begun: map<Group, Found>, ops: seq<Operation>)
      reads this, adapter
    {
      g in begun && !Troubled(begun[g].at, adapter.log, g) && AskedInOrder(begun[g].at, adapter.log, ops, g)
    }

    /** What excuses a failure: something of it failed, the monitor intervened, or an axis is in dirty maintenance. */
    ghost predicate Excused(g: Group, begun: map<Group, Found>)
      reads this, adapter
    {
      && g in begun && g in hits && g in axes
      && (Troubled(begun[g].at, adapter.log, g) || hits[g] != begun[g].hits || axes[g] * dirty != {})
    }

    lemma EnableConcludes(g: Group, failed: set<Group>, begun: map<Group, Found>)
      requires Concluded(g, ENABLE, failed, begun) && begun[g].status in {Initialized, Halted}
      ensures Left(g, failed, begun, Armed) && (g in failed ==> Excused(g, begun))
      ensures g !in failed ==> Served(g, begun,
          [StopControllers, AdapterFence.Prepare, Await, MaintenanceClear, AdapterFence.Acknowledge, AdapterFence.Arm])
    {
      hide Worked, AskedInOrder, Troubled, Possible, ReachedAll;
      LastPhaseDecides(ENABLE, begun[g].status);
      EnableWorked(hits[g], axes[g] * dirty == {}, adapter.log, g, g in failed, begun[g], g in serviced);
    }

    /** Every selected group ends Armed or in Fault, or stopped by the monitor.  One that did not fail was
        prepared until it was ready, then acknowledged, and armed last. */
    method Enable(selected: seq<Group>, report: Report) returns (r: Result, ghost begun: map<Group, Found>)
      requires Valid() && mine == {}
      modifies this`groups, this`hits, this`dirty, this`others, this`mine, this`ownerChecked
      modifies adapter`pending, adapter`done, adapter`next, adapter`log, adapter`scope
      ensures Valid() && mine == {} && old(adapter.log) <= adapter.log
      ensures r.Refused? ==>
        || Unselectable(selected)
        || Unreconciled(report, old(ownerChecked), old(adapter.log))
        || !Admits(selected, {Initialized, Halted})
      ensures !old(ownerChecked) && report.NoReport? ==> r.Refused?
      ensures old(ownerChecked) ==> (r.Refused? <==> Unselectable(selected) || !old(Admits(selected, {Initialized, Halted})))
      ensures old(ownerChecked) && r.Finished? ==> forall g | g in selected ::
          && g in old(groups) && g in old(hits) && g in begun
          && begun[g] == Found(old(groups)[g].status, old(hits)[g], |old(adapter.log)|)
      ensures r.Finished? ==> forall g | g in selected :: Left(g, r.failed, begun, Armed)
      ensures r.Finished? ==> forall g | g in selected ::
          && g in begun
          && |old(adapter.log)| <= begun[g].at
          && Attributed(begun[g].at, adapter.log)
          && begun[g].status in {Initialized, Halted}
      ensures r.Finished? ==> forall g | g in selected && g !in r.failed ::
          Served(g, begun,
              [StopControllers, AdapterFence.Prepare, Await, MaintenanceClear, AdapterFence.Acknowledge, AdapterFence.Arm])
      ensures r.Finished? ==> forall g | g in selected && g in r.failed :: Excused(g, begun)
    {
      hide Attributed, Traced, KeptFor, Onward, Did, Worked, Adapter.Valid, AskedInOrder, Troubled, Coordinator.Left,
          Coordinator.Served, Coordinator.Excused, Coordinator.Concluded;
      OperationsAreWellPhased();
      ghost var trace;
      r, begun, trace := Apply(selected, {Initialized, Halted}, ENABLE, report);
      if r.Finished? {
        assert forall g | g in selected :: Concluded(g, ENABLE, r.failed, begun);
        forall g | g in selected
          ensures Left(g, r.failed, begun, Armed) && (g in r.failed ==> Excused(g, begun))
          ensures g !in r.failed ==> Served(g, begun,
              [StopControllers, AdapterFence.Prepare, Await, MaintenanceClear, AdapterFence.Acknowledge, AdapterFence.Arm])
        {
          EnableConcludes(g, r.failed, begun);
        }
      }
    }

    lemma ResumeConcludes(g: Group, failed: set<Group>, begun: map<Group, Found>)
      requires Concluded(g, RESUME, failed, begun) && begun[g].status in {Armed, Halted}
      ensures Left(g, failed, begun, Running) && (g in failed ==> Excused(g, begun))
      ensures g !in failed ==> Served(g, begun, [StartControllers, Run])
      ensures g !in failed && g in hits && g in begun && hits[g] == begun[g].hits && begun[g].status == Halted ==>
            Served(g, begun, (if g in serviced then [Initialize, Verify] else [])
                + [StopControllers, AdapterFence.Prepare, Await, MaintenanceClear, AdapterFence.Acknowledge, AdapterFence.Arm,
                   StartControllers, Run])
    {
      hide Worked, AskedInOrder, Troubled, Possible, ReachedAll;
      LastPhaseDecides(RESUME, begun[g].status);
      ResumeWorked(hits[g], axes[g] * dirty == {}, adapter.log, g, g in failed, begun[g], g in serviced);
    }

    /** Every selected group ends Running or in Fault, or stopped by the monitor.  One that did not fail had its
        controllers started and was run last; if it was found halted it was initialized, prepared, acknowledged
        and armed before. */
    method Resume(selected: seq<Group>, report: Report) returns (r: Result, ghost begun: map<Group, Found>)
      requires Valid() && mine == {}
      modifies this`groups, this`hits, this`dirty, this`others, this`mine, this`ownerChecked
      modifies adapter`pending, adapter`done, adapter`next, adapter`log, adapter`scope
      ensures Valid() && mine == {} && old(adapter.log) <= adapter.log
      ensures r.Refused? ==>
        || Unselectable(selected)
        || Unreconciled(report, old(ownerChecked), old(adapter.log))
        || !Admits(selected, {Armed, Halted})
      ensures !old(ownerChecked) && report.NoReport? ==> r.Refused?
      ensures old(ownerChecked) ==> (r.Refused? <==> Unselectable(selected) || !old(Admits(selected, {Armed, Halted})))
      ensures old(ownerChecked) && r.Finished? ==> forall g | g in selected ::
          && g in old(groups) && g in old(hits) && g in begun
          && begun[g] == Found(old(groups)[g].status, old(hits)[g], |old(adapter.log)|)
      ensures r.Finished? ==> forall g | g in selected :: Left(g, r.failed, begun, Running)
      ensures r.Finished? ==> forall g | g in selected ::
          && g in begun
          && |old(adapter.log)| <= begun[g].at
          && Attributed(begun[g].at, adapter.log)
          && begun[g].status in {Armed, Halted}
      ensures r.Finished? ==> forall g | g in selected && g !in r.failed :: Served(g, begun, [StartControllers, Run])
      ensures r.Finished? ==> forall g | g in selected && g !in r.failed && g in begun && g in hits
                                         && hits[g] == begun[g].hits && begun[g].status == Halted ::
          Served(g, begun, (if g in serviced then [Initialize, Verify] else [])
              + [StopControllers, AdapterFence.Prepare, Await, MaintenanceClear, AdapterFence.Acknowledge, AdapterFence.Arm,
                 StartControllers, Run])
      ensures r.Finished? ==> forall g | g in selected && g in r.failed :: Excused(g, begun)
    {
      hide Attributed, Traced, KeptFor, Onward, Did, Worked, Adapter.Valid, AskedInOrder, Troubled, Coordinator.Left,
          Coordinator.Served, Coordinator.Excused, Coordinator.Concluded;
      OperationsAreWellPhased();
      ghost var trace;
      r, begun, trace := Apply(selected, {Armed, Halted}, RESUME, report);
      if r.Finished? {
        assert forall g | g in selected :: Concluded(g, RESUME, r.failed, begun);
        forall g | g in selected
          ensures Left(g, r.failed, begun, Running) && (g in r.failed ==> Excused(g, begun))
          ensures g !in r.failed ==> Served(g, begun, [StartControllers, Run])
          ensures g !in r.failed && g in hits && g in begun && hits[g] == begun[g].hits && begun[g].status == Halted ==>
            Served(g, begun, (if g in serviced then [Initialize, Verify] else [])
                + [StopControllers, AdapterFence.Prepare, Await, MaintenanceClear, AdapterFence.Acknowledge, AdapterFence.Arm,
                   StartControllers, Run])
        {
          ResumeConcludes(g, r.failed, begun);
        }
      }
    }

    lemma RecoverConcludes(g: Group, failed: set<Group>, begun: map<Group, Found>)
      requires Concluded(g, RECOVER, failed, begun)
      ensures Left(g, failed, begun, Armed) && (g in failed ==> Excused(g, begun))
      ensures g !in failed ==> Served(g, begun, [Halt, StopControllers] + (if g in serviced then [Initialize, Verify] else [])
          + [StopControllers, AdapterFence.Prepare, Await, MaintenanceClear, AdapterFence.Acknowledge, AdapterFence.Arm])
    {
      hide Worked, AskedInOrder, Troubled, Possible, ReachedAll;
      LastPhaseDecides(RECOVER, begun[g].status);
      RecoverWorked(hits[g], axes[g] * dirty == {}, adapter.log, g, g in failed, begun[g], g in serviced);
    }

    /** Recovery starts from any status.  A group that did not fail was halted first, then initialized, prepared
        and acknowledged, and armed last. */
    method Recover(selected: seq<Group>, report: Report) returns (r: Result, ghost begun: map<Group, Found>)
      requires Valid() && mine == {}
      modifies this`groups, this`hits, this`dirty, this`others, this`mine, this`ownerChecked
      modifies adapter`pending, adapter`done, adapter`next, adapter`log, adapter`scope
      ensures Valid() && mine == {} && old(adapter.log) <= adapter.log
      ensures r.Refused? ==>
        || Unselectable(selected)
        || Unreconciled(report, old(ownerChecked), old(adapter.log))
        || !Admits(selected, {})
      ensures !old(ownerChecked) && report.NoReport? ==> r.Refused?
      ensures old(ownerChecked) ==> (r.Refused? <==> Unselectable(selected) || !old(Admits(selected, {})))
      ensures old(ownerChecked) && r.Finished? ==> forall g | g in selected ::
          && g in old(groups) && g in old(hits) && g in begun
          && begun[g] == Found(old(groups)[g].status, old(hits)[g], |old(adapter.log)|)
      ensures r.Finished? ==> forall g | g in selected :: Left(g, r.failed, begun, Armed)
      ensures r.Finished? ==> forall g | g in selected ::
          && g in begun
          && |old(adapter.log)| <= begun[g].at
          && Attributed(begun[g].at, adapter.log)
      ensures r.Finished? ==> forall g | g in selected && g !in r.failed ::
          Served(g, begun, [Halt, StopControllers] + (if g in serviced then [Initialize, Verify] else [])
              + [StopControllers, AdapterFence.Prepare, Await, MaintenanceClear, AdapterFence.Acknowledge, AdapterFence.Arm])
      ensures r.Finished? ==> forall g | g in selected && g in r.failed :: Excused(g, begun)
    {
      hide Attributed, Traced, KeptFor, Onward, Did, Worked, Adapter.Valid, AskedInOrder, Troubled, Coordinator.Left,
          Coordinator.Served, Coordinator.Excused, Coordinator.Concluded;
      OperationsAreWellPhased();
      ghost var trace;
      r, begun, trace := Apply(selected, {}, RECOVER, report);
      if r.Finished? {
        assert forall g | g in selected :: Concluded(g, RECOVER, r.failed, begun);
        forall g | g in selected
          ensures Left(g, r.failed, begun, Armed) && (g in r.failed ==> Excused(g, begun))
          ensures g !in r.failed ==> Served(g, begun, [Halt, StopControllers] + (if g in serviced then [Initialize, Verify] else [])
              + [StopControllers, AdapterFence.Prepare, Await, MaintenanceClear, AdapterFence.Acknowledge, AdapterFence.Arm])
        {
          RecoverConcludes(g, r.failed, begun);
        }
      }
    }

    lemma InitAllConcludes(g: Group, failed: set<Group>, begun: map<Group, Found>)
      requires Concluded(g, [InitPhase], failed, begun) && !begun[g].status.Live()
      ensures Left(g, failed, begun, Initialized) && (g in failed ==> Excused(g, begun))
      ensures g !in failed ==> Served(g, begun, if g in serviced then [Initialize, Verify] else [])
    {
      hide Worked, AskedInOrder, Troubled, Possible, ReachedAll;
      OnePhase(InitPhase, g in serviced, begun[g].status, axes[g] * dirty == {});
      InitWorked(hits[g], axes[g] * dirty == {}, adapter.log, g, g in failed, begun[g], g in serviced);
    }

    /** A group that is not live is brought to life. */
    method InitAll(selected: seq<Group>, report: Report) returns (r: Result, ghost begun: map<Group, Found>)
      requires Valid() && mine == {}
      modifies this`groups, this`hits, this`dirty, this`others, this`mine, this`ownerChecked
      modifies adapter`pending, adapter`done, adapter`next, adapter`log, adapter`scope
      ensures Valid() && mine == {} && old(adapter.log) <= adapter.log
      ensures r.Refused? ==>
        || Unselectable(selected)
        || Unreconciled(report, old(ownerChecked), old(adapter.log))
        || !Admits(selected, {Stopped, Fault, Halted, Initialized})
      ensures !old(ownerChecked) && report.NoReport? ==> r.Refused?
      ensures old(ownerChecked) ==>
          (r.Refused? <==> Unselectable(selected) || !old(Admits(selected, {Stopped, Fault, Halted, Initialized})))
      ensures old(ownerChecked) && r.Finished? ==> forall g | g in selected ::
          && g in old(groups) && g in old(hits) && g in begun
          && begun[g] == Found(old(groups)[g].status, old(hits)[g], |old(adapter.log)|)
      ensures r.Finished? ==> forall g | g in selected :: Left(g, r.failed, begun, Initialized)
      ensures r.Finished? ==> forall g | g in selected ::
          && g in begun
          && |old(adapter.log)| <= begun[g].at
          && Attributed(begun[g].at, adapter.log)
          && begun[g].status in {Stopped, Fault, Halted, Initialized}
      ensures r.Finished? ==> forall g | g in selected && g !in r.failed ::
          Served(g, begun, if g in serviced then [Initialize, Verify] else [])
      ensures r.Finished? ==> forall g | g in selected && g in r.failed :: Excused(g, begun)
    {
      hide Attributed, Traced, KeptFor, Onward, Did, Worked, Adapter.Valid, AskedInOrder, Troubled, Coordinator.Left,
          Coordinator.Served, Coordinator.Excused, Coordinator.Concluded;
      OperationsAreWellPhased();
      ghost var trace;
      r, begun, trace := Apply(selected, {Stopped, Fault, Halted, Initialized}, [InitPhase], report);
      if r.Finished? {
        assert forall g | g in selected :: Concluded(g, [InitPhase], r.failed, begun);
        forall g | g in selected
          ensures Left(g, r.failed, begun, Initialized) && (g in r.failed ==> Excused(g, begun))
          ensures g !in r.failed ==> Served(g, begun, if g in serviced then [Initialize, Verify] else [])
        {
          InitAllConcludes(g, r.failed, begun);
        }
      }
    }

    lemma HaltAllConcludes(g: Group, failed: set<Group>, begun: map<Group, Found>)
      requires Concluded(g, [StopPhase], failed, begun)
      ensures Left(g, failed, begun, Halted) && (g in failed ==> Excused(g, begun))
      ensures g !in failed ==> Served(g, begun, [Halt, StopControllers])
    {
      hide Worked, AskedInOrder, Troubled, Possible, ReachedAll;
      OnePhase(StopPhase, g in serviced, begun[g].status, axes[g] * dirty == {});
      HaltWorked(hits[g], axes[g] * dirty == {}, adapter.log, g, g in failed, begun[g], g in serviced);
    }

    /** Any group is halted. */
    method HaltAll(selected: seq<Group>, report: Report) returns (r: Result, ghost begun: map<Group, Found>)
      requires Valid() && mine == {}
      modifies this`groups, this`hits, this`dirty, this`others, this`mine, this`ownerChecked
      modifies adapter`pending, adapter`done, adapter`next, adapter`log, adapter`scope
      ensures Valid() && mine == {} && old(adapter.log) <= adapter.log
      ensures r.Refused? ==>
        || Unselectable(selected)
        || Unreconciled(report, old(ownerChecked), old(adapter.log))
        || !Admits(selected, {})
      ensures !old(ownerChecked) && report.NoReport? ==> r.Refused?
      ensures old(ownerChecked) ==> (r.Refused? <==> Unselectable(selected) || !old(Admits(selected, {})))
      ensures old(ownerChecked) && r.Finished? ==> forall g | g in selected ::
          && g in old(groups) && g in old(hits) && g in begun
          && begun[g] == Found(old(groups)[g].status, old(hits)[g], |old(adapter.log)|)
      ensures r.Finished? ==> forall g | g in selected :: Left(g, r.failed, begun, Halted)
      ensures r.Finished? ==> forall g | g in selected ::
          && g in begun
          && |old(adapter.log)| <= begun[g].at
          && Attributed(begun[g].at, adapter.log)
      ensures r.Finished? ==> forall g | g in selected && g !in r.failed :: Served(g, begun, [Halt, StopControllers])
      ensures r.Finished? ==> forall g | g in selected && g in r.failed :: Excused(g, begun)
    {
      hide Attributed, Traced, KeptFor, Onward, Did, Worked, Adapter.Valid, AskedInOrder, Troubled, Coordinator.Left,
          Coordinator.Served, Coordinator.Excused, Coordinator.Concluded;
      OperationsAreWellPhased();
      ghost var trace;
      r, begun, trace := Apply(selected, {}, [StopPhase], report);
      if r.Finished? {
        assert forall g | g in selected :: Concluded(g, [StopPhase], r.failed, begun);
        forall g | g in selected
          ensures Left(g, r.failed, begun, Halted) && (g in r.failed ==> Excused(g, begun))
          ensures g !in r.failed ==> Served(g, begun, [Halt, StopControllers])
        {
          HaltAllConcludes(g, r.failed, begun);
        }
      }
    }

    // ---- Maintenance and monitoring ----

    /** The device writes of the policy are calls like any other: some time out, under the scope of the group.
        All are read back at last. */
    method WriteDevice(g: Group) returns (ok: bool)
      requires Valid() && InScope(g) && g in mine
      modifies this`groups, this`hits, this`dirty, this`others
      modifies adapter`pending, adapter`done, adapter`next, adapter`log
      ensures Valid() && KeptFor(axes, mine, old(View()), View()) && OnlyOn(old(adapter.log), adapter.log, g, adapter.scope)
      ensures ok <==> !Troubled(|old(adapter.log)|, adapter.log, g)
    {
      hide KeptFor, Same, Adapter.Valid, OnlyOn, Troubled;
      var writes: int :| 0 <= writes;
      KeptAll(axes, mine, View());
      QuietNow(adapter.log, g, adapter.scope);
      ghost var v, now := View(), adapter.log;
      for k := 0 to writes
        invariant Valid() && KeptFor(axes, mine, old(View()), View()) && OnlyOn(old(adapter.log), adapter.log, g, adapter.scope)
        invariant !Troubled(|old(adapter.log)|, adapter.log, g)
      {
        v, now := View(), adapter.log;
        ok := Call(WriteObject, g, {});
        KeptOn(axes, mine, old(View()), v, View());
        Joined(old(adapter.log), now, adapter.log, g, adapter.scope);
        if !ok { return; }
      }
      v, now := View(), adapter.log;
      ok := Query(Verify, g);
      KeptOn(axes, mine, old(View()), v, View());
      Joined(old(adapter.log), now, adapter.log, g, adapter.scope);
    }

    /** The journal of axis `a` ends clean or dirty; the other axes keep what they have. */
    method CloseJournal(g: Group, a: Axis, unresolved: bool)
      requires Valid() && g in mine && a in axes[g] && !groups[g].status.Live()
      requires forall h | h in axes && h != g :: a !in axes[h]
      modifies this`dirty
      ensures Valid() && (a in dirty <==> unresolved)
      ensures forall h | h in axes && h != g :: axes[h] * dirty == axes[h] * old(dirty)
    {
      dirty := dirty - {a} + if unresolved then {a} else {};
    }

    /** What a maintenance transaction or a restore of axis `a` can leave behind.  It returns exactly if nothing
        of it failed, with a clean journal.  A journal that is dirty for another axis makes it raise at once,
        before any write. */
    method RunPolicy(g: Group, a: Axis) returns (raised: bool)
      requires Valid() && InScope(g) && g in mine && a in axes[g] && !groups[g].status.Live()
      requires forall h | h in axes && h != g :: a !in axes[h]
      modifies this`groups, this`hits, this`dirty, this`others
      modifies adapter`pending, adapter`done, adapter`next, adapter`log
      ensures Valid() && KeptFor(axes, mine - {g}, old(View()), View())
      ensures OnlyOn(old(adapter.log), adapter.log, g, adapter.scope)
      ensures g in groups && g in hits && Stands(old(groups)[g], groups[g], old(hits)[g], hits[g]) && (!raised ==> a !in dirty)
      ensures raised <==> Troubled(|old(adapter.log)|, adapter.log, g)
      ensures old(dirty) - {a} != {} ==> dirty == old(dirty) && adapter.log == old(adapter.log) + [Denied(WriteObject, g)]
    {
      hide Adapter.Valid;
      if dirty - {a} != {} {
        adapter.Note(Denied(WriteObject, g));
        assert Troubles(adapter.log[|old(adapter.log)|], g);
        return true;
      }
      var ok := WriteDevice(g);
      raised := !ok;
      var touched: bool := *;
      var unresolved: bool := *;
      if ok || touched { CloseJournal(g, a, unresolved && raised); }
    }

    /** Maintain one axis of a group under its lock.  It is left Initialized with a clean axis on success, in
        Fault with its maintenance lock requested while the outcome is unresolved, unless the monitor has
        stopped it meanwhile.  `held` counts the writes of the monitor up to the moment of the lock. */
    method Maintain(g: Group, a: Axis, restoring: bool, report: Report) returns (r: Result, ghost held: nat, ghost at: nat)
      requires Valid() && mine == {} && g in axes && a in axes[g]
      requires forall h | h in axes && h != g :: a !in axes[h]
      modifies this`groups, this`hits, this`dirty, this`others, this`mine, this`ownerChecked
      modifies adapter`pending, adapter`done, adapter`next, adapter`log, adapter`scope
      ensures Valid() && mine == {} && adapter.scope == Unscoped && g in groups && g in hits
      ensures r.Refused? ==> Unreconciled(report, old(ownerChecked), old(adapter.log)) || g in others
      ensures !old(ownerChecked) && report.NoReport? ==> r.Refused?
      ensures old(ownerChecked) ==> (r.Refused? <==> g in old(others))
      ensures r.Finished? ==> Maintained(g, a, r == Finished({}), held) && |old(adapter.log)| <= at
      ensures r.Finished? ==> AskedInOrder(at, adapter.log, [Halt], g) && Attributed(at, adapter.log)
      ensures r == Finished({}) ==>
          && !Troubled(at, adapter.log, g)
          && AskedInOrder(at, adapter.log, [Halt, StopControllers, DisableAxis, Verify], g)
      ensures r.Finished? && r.failed != {} ==> Troubled(at, adapter.log, g) || !restoring
      ensures old(ownerChecked) && r.Finished? && r.failed != {} ==> Troubled(at, adapter.log, g) || (!restoring && a in old(dirty))
    {
      hide Adapter.Valid, Troubled, AskedInOrder, OnlyOn, Attributed;
      held, at := 0, 0;
      var locked := Lock([g], report);
      if !locked { return Refused, held, at; }
      held, at := hits[g], |adapter.log|;
      ghost var start := adapter.log;
      var ok := MaintainHeld(g, a, restoring);
      InOrderFirst(start, adapter.log, Halt, g);
      AttributedOn(start, adapter.log, g);
      mine := {};
      return Finished(if ok then {} else {g}), held, at;
    }

    /** How maintenance leaves its group; `held` counts the writes of the monitor before it. */
    ghost predicate Maintained(g: Group, a: Axis, ok: bool, held: nat)
      reads this
    {
      && g in groups && g in hits && held <= hits[g]
      && !groups[g].status.Live() && (a in dirty ==> groups[g].status != Initialized)
      && (ok ==> a !in dirty && groups[g].status in {Initialized, Halted, Fault})
      && (ok && hits[g] == held ==> groups[g].status == Initialized)
    }

    method MaintainHeld(g: Group, a: Axis, restoring: bool) returns (ok: bool)
      requires Valid() && g in mine && g in axes && a in axes[g]
      requires forall h | h in axes && h != g :: a !in axes[h]
      modifies this`groups, this`hits, this`dirty, this`others
      modifies adapter`pending, adapter`done, adapter`next, adapter`log, adapter`scope
      ensures Valid() && adapter.scope == Unscoped && old(adapter.log) + [Asked(Halt, g)] <= adapter.log
      ensures Maintained(g, a, ok, old(hits)[g]) && OnlyOn(old(adapter.log), adapter.log, g, OfGroup(g))
      ensures ok ==> AskedInOrder(|old(adapter.log)|, adapter.log, [Halt, StopControllers, DisableAxis, Verify], g)
      ensures ok <==> !Troubled(|old(adapter.log)|, adapter.log, g) && (restoring || a !in old(dirty))
    {
      hide Maintained, Coordinator.Valid, AskedInOrder, Troubled, OnlyOn;
      MaintenanceBegins(g);
      ghost var how, before := *, adapter.log;
      ok, how := MaintainLocked(g, a, restoring);
      ghost var now := adapter.log;
      MaintenanceEnds(g, a, ok, old(hits)[g]);
      Joined(before, now, adapter.log, g, OfGroup(g));
      if ok { InOrderExtends(|before|, |before|, now, adapter.log, [Halt, StopControllers, DisableAxis, Verify], g); }
    }

    method MaintenanceBegins(g: Group)
      requires Valid() && g in mine
      modifies this`groups, adapter`scope
      ensures Valid() && g in groups && g in hits && adapter.scope == OfGroup(g)
    {
      hide Adapter.Valid;
      SetProgress(g, InProgress);
      adapter.BeginScope(OfGroup(g));
    }

    /** Other threads go on before the lock is released. */
    method MaintenanceEnds(g: Group, a: Axis, ok: bool, ghost held: nat)
      requires Valid() && g in mine && a in axes[g] && Maintained(g, a, ok, held)
      modifies this`groups, this`hits, this`dirty, this`others
      modifies adapter`pending, adapter`done, adapter`next, adapter`log, adapter`scope
      ensures Valid() && mine == old(mine) && old(adapter.log) <= adapter.log && Maintained(g, a, ok, held)
      ensures OnlyOn(old(adapter.log), adapter.log, g, OfGroup(g)) && !Troubled(|old(adapter.log)|, adapter.log, g)
      ensures adapter.scope == Unscoped
    {
      hide Adapter.Valid, OnlyOn, Troubled;
      ghost var before := adapter.log;
      Interfere();
      OnwardIsQuiet(mine, before, adapter.log, g, OfGroup(g));
      assert Same(axes, g, old(View()), View());
      assert a in dirty <==> a in axes[g] * dirty;
      SetProgress(g, if ok then Complete else Failed);
      adapter.BeginScope(Unscoped);
    }

    /** The group is stopped before anything else.  If that fails, or the axis cannot be disabled or
        verified, the policy is not started and the journal is what it was for this group.  After the
        policy the status says whether the axis is still unresolved, whether or not the policy raised. */
    method MaintainLocked(g: Group, a: Axis, restoring: bool) returns (ok: bool, ghost how: Maintenance)
      requires Valid() && InScope(g) && g in mine && g in axes && a in axes[g]
      requires forall h | h in axes && h != g :: a !in axes[h]
      modifies this`groups, this`hits, this`dirty, this`others
      modifies adapter`pending, adapter`done, adapter`next, adapter`log
      ensures Valid() && mine == old(mine) && old(adapter.log) + [Asked(Halt, g)] <= adapter.log
      ensures OnlyOn(old(adapter.log), adapter.log, g, adapter.scope)
      ensures Maintained(g, a, ok, old(hits)[g]) && (ok <==> how == Returned)
      ensures ok ==> AskedInOrder(|old(adapter.log)|, adapter.log, [Halt, StopControllers, DisableAxis, Verify], g)
      ensures ok <==> !Troubled(|old(adapter.log)|, adapter.log, g) && (restoring || a !in old(dirty))
      ensures how == NotStopped ==> groups[g].status == Fault
      ensures how == NotReady ==> groups[g].status in {Halted, Fault} && (hits[g] == old(hits)[g] ==> groups[g].status == Halted)
      ensures how == NotStopped || how == NotReady ==> axes[g] * dirty == axes[g] * old(dirty)
      ensures how == Raised || how == Returned ==> Recorded(g, a, old(hits)[g])
      ensures how == Returned ==> a !in dirty
      ensures how == Raised && a in dirty ==> AskedInOrder(|old(adapter.log)|, adapter.log, [MaintenanceLock], g)
    {
      hide AskedInOrder, KeptFor, Same, Adapter.Valid, OnlyOn, Troubled;
      ghost var before := adapter.log;
      ok := Stop(g);
      if !ok {
        if a in dirty { assert groups[g].status == Fault; }
        return ok, NotStopped;
      }
      ghost var stopped := adapter.log;
      assert a in dirty <==> a in axes[g] * dirty;
      var disabled := Disable(g, a, restoring);
      Joined(before, stopped, adapter.log, g, adapter.scope);
      if !disabled { return false, NotReady; }
      ghost var begun := adapter.log;
      DisabledInOrder(before, stopped, begun, g);
      var raised := ConductPolicy(g, a);
      Joined(before, begun, adapter.log, g, adapter.scope);
      InOrderExtends(|before|, |before|, begun, adapter.log, [Halt, StopControllers, DisableAxis, Verify], g);
      if a in dirty { InOrderExtends(|before|, |begun|, adapter.log, adapter.log, [MaintenanceLock], g); }
      return !raised, if raised then Raised else Returned;
    }

    /** After the policy: Initialized with a clean axis, or Fault, unless the monitor has halted the group. */
    ghost predicate Recorded(g: Group, a: Axis, held: nat)
      reads this
    {
      && g in groups && g in hits
      && groups[g].status in (if a in dirty then {Fault, Halted} else {Initialized})
      && (hits[g] == held ==> groups[g].status == if a in dirty then Fault else Initialized)
    }

    /** Disabling and verifying the axis; only a restore may start on a dirty one. */
    method Disable(g: Group, a: Axis, restoring: bool) returns (ok: bool)
      requires Valid() && InScope(g) && g in mine && a in axes[g]
      modifies this`groups, this`hits, this`dirty, this`others
      modifies adapter`pending, adapter`done, adapter`next, adapter`log
      ensures Valid() && KeptFor(axes, mine, old(View()), View()) && OnlyOn(old(adapter.log), adapter.log, g, adapter.scope)
      ensures mine == old(mine)
      ensures g in groups && g in hits && Stands(old(groups)[g], groups[g], old(hits)[g], hits[g])
      ensures axes[g] * dirty == axes[g] * old(dirty)
      ensures ok ==> AskedInOrder(|old(adapter.log)|, adapter.log, [DisableAxis, Verify], g)
      ensures ok <==> !Troubled(|old(adapter.log)|, adapter.log, g) && (restoring || a !in old(dirty))
    {
      hide Adapter.Valid, KeptFor, AskedInOrder, OnlyOn, Troubled;
      ghost var u, before := View(), adapter.log;
      ok := Call(DisableAxis, g, {});
      KeptIn(axes, mine, u, View(), g);
      assert a in dirty <==> a in axes[g] * dirty;
      assert a in u.dirty <==> a in axes[g] * u.dirty;
      if !ok { return; }
      if a in dirty && !restoring { return false; }
      ghost var v, now := View(), adapter.log;
      ok := Query(Verify, g);
      KeptOn(axes, mine, u, v, View());
      KeptIn(axes, mine, u, View(), g);
      Joined(before, now, adapter.log, g, adapter.scope);
      InOrderFirst(before, now, DisableAxis, g);
      InOrderThen(before, now, adapter.log, [DisableAxis], Verify, g);
    }

    method ConductPolicy(g: Group, a: Axis) returns (raised: bool)
      requires Valid() && InScope(g) && g in mine && a in axes[g] && !groups[g].status.Live()
      requires forall h | h in axes && h != g :: a !in axes[h]
      modifies this`groups, this`hits, this`dirty, this`others
      modifies adapter`pending, adapter`done, adapter`next, adapter`log
      ensures Valid() && mine == old(mine) && OnlyOn(old(adapter.log), adapter.log, g, adapter.scope)
      ensures !raised ==> a !in dirty
      ensures g in hits && old(hits)[g] <= hits[g] && Recorded(g, a, old(hits)[g])
      ensures raised <==> Troubled(|old(adapter.log)|, adapter.log, g)
      ensures a in dirty ==> AskedInOrder(|old(adapter.log)|, adapter.log, [MaintenanceLock], g)
    {
      hide KeptFor, Adapter.Valid, AskedInOrder, OnlyOn, Troubled;
      ghost var before := adapter.log;
      raised := RunPolicy(g, a);
      ghost var now := adapter.log;
      Record(g, if a in dirty then Fault else Initialized, 0);
      if a in dirty {
        LockOut(g, a);
        Joined(before, now, adapter.log, g, adapter.scope);
        InOrderExtends(|before|, |now|, adapter.log, adapter.log, [MaintenanceLock], g);
      }
    }

    method LockOut(g: Group, a: Axis)
      requires Valid() && InScope(g) && g in mine && a in axes[g] && a in dirty && groups[g].status == Fault
      modifies this`groups, this`hits, this`dirty, this`others
      modifies adapter`pending, adapter`done, adapter`next, adapter`log
      ensures Valid() && mine == old(mine) && OnlyOn(old(adapter.log), adapter.log, g, adapter.scope) && a in dirty
      ensures g in hits && old(hits)[g] <= hits[g] && Recorded(g, a, old(hits)[g])
      ensures AskedInOrder(|old(adapter.log)|, adapter.log, [MaintenanceLock], g)
    {
      hide Adapter.Valid, AskedInOrder, OnlyOn, Troubled;
      ghost var before := adapter.log;
      var sent := Call(MaintenanceLock, g, {});
      InOrderFirst(before, adapter.log, MaintenanceLock, g);
      assert Same(axes, g, old(View()), View());
      assert a in axes[g] * dirty by { assert a in axes[g] * old(dirty); }
    }

    /** Revoke a group that the guard no longer reports as recorded, unless its record has moved on since
        the report was requested. */
    method MonitorGroup(g: Group, observed: Entry) returns (revoked: bool)
      requires Valid() && mine == {}
      modifies this`groups, this`hits, this`dirty, this`others, this`mine, this`ownerChecked
      modifies adapter`pending, adapter`done, adapter`next, adapter`log, adapter`scope
      ensures Valid() && mine == {} && (revoked ==> g in groups && groups[g].status == Fault)
      ensures revoked <==>
          && g in old(groups) && (old(groups)[g].status == Armed || old(groups)[g].status == Running) && g !in old(others)
          && old(groups)[g].status == observed.status && old(groups)[g].generation == observed.generation
      ensures revoked ==> AskedInOrder(|old(adapter.log)|, adapter.log, [Halt], g)
      ensures !revoked ==> groups == old(groups)
    {
      hide Adapter.Valid;
      if g !in groups || !groups[g].status.Live() { return false; }
      var locked := Acquire([g]);
      if !locked { return false; }
      if groups[g].status != observed.status || groups[g].generation != observed.generation {
        mine := {};
        return false;
      }
      ghost var before := adapter.log;
      Revoke(g);
      InOrderFirst(before, adapter.log, Halt, g);
      mine := {};
      return true;
    }

    method Revoke(g: Group)
      requires Valid() && g in mine
      modifies this`groups, this`hits, this`dirty, this`others
      modifies adapter`pending, adapter`done, adapter`next, adapter`log, adapter`scope
      ensures Valid() && g in groups && groups[g].status == Fault && adapter.scope == Unscoped
      ensures old(adapter.log) + [Asked(Halt, g)] <= adapter.log
    {
      hide KeptFor, Same, Ended, Adapter.Valid;
      adapter.BeginScope(OfGroup(g));
      var stopped := Stop(g);
      Record(g, Fault, 0);
      adapter.BeginScope(Unscoped);
    }
  }

  /** One phase was run on one group. */
  datatype Attempt = Attempt(phase: nat, group: Group, ok: bool)

  predicate Distinct(s: seq<Group>) {
    forall i, j | 0 <= i < j < |s| :: s[i] != s[j]
  }

  /** Phases are barriers; a group whose phase failed runs no later one; every other group has run each
      phase so far, successfully. */
  ghost predicate Traced(trace: seq<Attempt>, selected: seq<Group>, failed: set<Group>, k: nat, i: nat) {
    && (forall a, b | 0 <= a < b < |trace| :: trace[a].phase <= trace[b].phase)
    && (forall a, b | 0 <= a < b < |trace| && trace[a].group == trace[b].group :: trace[a].ok && trace[a].phase < trace[b].phase)
    && (forall a | 0 <= a < |trace| :: trace[a].phase <= k && (trace[a].ok || trace[a].group in failed))
    && (forall a, m | 0 <= a < |trace| && 0 <= m < |selected| && trace[a].group == selected[m] ::
          trace[a].phase < k || (trace[a].phase == k && m < i))
    && (forall a | 0 <= a < |trace| :: trace[a].group in selected)
    && (forall g | g in failed :: exists a | 0 <= a < |trace| :: trace[a].group == g && !trace[a].ok)
    && (forall m, p | 0 <= m < |selected| && selected[m] !in failed && 0 <= p < (if m < i then k + 1 else k) ::
          Attempt(p, selected[m], true) in trace)
  }

  lemma TraceGrows(trace: seq<Attempt>, selected: seq<Group>, failed: set<Group>, k: nat, i: nat, ok: bool)
    requires Traced(trace, selected, failed, k, i) && i < |selected| && Distinct(selected) && selected[i] !in failed
    ensures Traced(trace + [Attempt(k, selected[i], ok)], selected, if ok then failed else failed + {selected[i]}, k, i + 1)
  {
    var more := trace + [Attempt(k, selected[i], ok)];
    assert more[|trace|] == Attempt(k, selected[i], ok);
    forall g | g in failed ensures exists a | 0 <= a < |more| :: more[a].group == g && !more[a].ok {
      var a :| 0 <= a < |trace| && trace[a].group == g && !trace[a].ok;
      assert more[a] == trace[a];
    }
  }

  lemma TraceSkips(trace: seq<Attempt>, selected: seq<Group>, failed: set<Group>, k: nat, i: nat)
    requires Traced(trace, selected, failed, k, i) && i < |selected| && Distinct(selected) && selected[i] in failed
    ensures Traced(trace, selected, failed, k, i + 1)
  {
  }

  lemma TraceTurns(trace: seq<Attempt>, selected: seq<Group>, failed: set<Group>, k: nat)
    requires Traced(trace, selected, failed, k, |selected|)
    ensures Traced(trace, selected, failed, k + 1, 0)
  {
  }

  predicate Acked(phases: seq<Phase>, k: nat)
    requires k <= |phases|
  {
    exists j | 0 <= j < k :: phases[j].Acknowledges()
  }

  function Members(s: seq<Group>): set<Group> {
    set g | g in s
  }

  datatype Picture = Picture(groups: map<Group, Entry>, hits: map<Group, nat>, mine: set<Group>, dirty: set<Axis>)

  /** What an operation found when it looked at a group, and how long the record was then. */
  datatype Found = Found(status: Status, hits: nat, at: nat)

  /** What the monitor may write without the lock: a larger generation, and Halted or Fault. */
  predicate MayBeStopped(e: Entry, f: Entry) {
    f.progress == e.progress && e.generation <= f.generation && f.status in {e.status, Halted, Fault}
  }

  /** The same over any number of such writes, counted. */
  predicate Stands(e: Entry, f: Entry, h: nat, k: nat) {
    h <= k && MayBeStopped(e, f) && (h == k ==> f == e)
  }

  predicate Same(axes: map<Group, set<Axis>>, g: Group, v: Picture, w: Picture) {
    && g in axes && g in v.groups && g in w.groups && g in v.hits && g in w.hits
    && Stands(v.groups[g], w.groups[g], v.hits[g], w.hits[g])
    && axes[g] * w.dirty == axes[g] * v.dirty
  }

  function Written(v: Picture, g: Group, s: Status, n: nat): Picture
    requires g in v.groups
  {
    v.(groups := v.groups[g := v.groups[g].(status := s, generation := v.groups[g].generation + n)])
  }

  /** A step on a locked group. */
  predicate On(axes: map<Group, set<Axis>>, g: Group, v: Picture, w: Picture) {
    && g in axes && g in v.groups && g in w.groups && g in v.hits && g in w.hits && v.hits[g] <= w.hits[g]
    && w.groups[g].progress == v.groups[g].progress && axes[g] * w.dirty == axes[g] * v.dirty
  }

  /** A step on a locked group has given it status `s` and advanced its generation by `n`, unless the monitor
      has stopped it meanwhile. */
  predicate Ended(axes: map<Group, set<Axis>>, g: Group, v: Picture, w: Picture, s: Status, n: nat) {
    && On(axes, g, v, w) && w.groups[g].status in {s, Halted, Fault} && w.groups[g].generation >= v.groups[g].generation + n
    && (w.hits[g] == v.hits[g] ==> w.groups[g].status == s && w.groups[g].generation == v.groups[g].generation + n)
  }

  /** A phase has brought the group where it leads, unless the monitor has stopped it meanwhile. */
  predicate Arrived(axes: map<Group, set<Axis>>, g: Group, v: Picture, w: Picture, p: Phase) {
    && On(axes, g, v, w) && w.groups[g].status in {Reached(p, v.groups[g].status), Halted, Fault}
    && (w.hits[g] == v.hits[g] ==> w.groups[g].status == Reached(p, v.groups[g].status))
  }

  /** A step that ends without writing. */
  lemma Unwritten(axes: map<Group, set<Axis>>, mine: set<Group>, g: Group, u: Picture, v: Picture)
    requires g in mine && KeptFor(axes, mine, u, v)
    ensures KeptFor(axes, mine - {g}, u, v) && g in u.groups && Ended(axes, g, u, v, u.groups[g].status, 0)
  {
  }

  /** A step that ends by writing status `s`. */
  lemma EndsWritten(axes: map<Group, set<Axis>>, mine: set<Group>, g: Group, u: Picture, v: Picture, s: Status, n: nat)
    requires g in mine && KeptFor(axes, mine, u, v) && g in v.groups
    ensures KeptFor(axes, mine - {g}, u, Written(v, g, s, n)) && Ended(axes, g, u, Written(v, g, s, n), s, n)
  {
    assert Same(axes, g, u, v);
    forall h | h in mine - {g} ensures Same(axes, h, u, Written(v, g, s, n)) {
      assert Same(axes, h, u, v);
    }
  }

  /** A step that advances the generation first and writes status `s` at the end. */
  lemma EndsStopped(axes: map<Group, set<Axis>>, mine: set<Group>, g: Group, u: Picture, v: Picture, s: Status)
    requires g in mine && g in u.groups && KeptFor(axes, mine, Written(u, g, u.groups[g].status, 1), v) && g in v.groups
    ensures KeptFor(axes, mine - {g}, u, Written(v, g, s, 0)) && Ended(axes, g, u, Written(v, g, s, 0), s, 1)
  {
    var t := Written(u, g, u.groups[g].status, 1);
    assert Same(axes, g, t, v);
    forall h | h in mine - {g} ensures Same(axes, h, u, Written(v, g, s, 0)) {
      assert Same(axes, h, t, v);
    }
  }

  /** Where a selected group stands when `k` phases are behind it. */
  predicate Standing(axes: map<Group, set<Axis>>, v: Picture, g: Group, phases: seq<Phase>, k: nat, failed: set<Group>,
                     begun: map<Group, Found>)
    requires k <= |phases|
  {
    && g in v.groups && g in axes && g in v.hits && g in begun && begun[g].hits <= v.hits[g]
    && if g in failed then v.groups[g].progress == Failed && v.groups[g].status in {Halted, Fault}
            && (v.hits[g] == begun[g].hits ==> v.groups[g].status == Fault)
       else v.groups[g].progress == InProgress && v.groups[g].status in Possible(phases[..k], begun[g].status)
            && (v.hits[g] == begun[g].hits ==> v.groups[g].status == ReachedAll(phases[..k], begun[g].status))
            && (Acked(phases, k) ==> axes[g] * v.dirty == {})
  }

  /** A phase that makes its group live finds it without dirty axes. */
  lemma MayAdvance(axes: map<Group, set<Axis>>, v: Picture, g: Group, phases: seq<Phase>, k: nat, failed: set<Group>,
                   begun: map<Group, Found>)
    requires WellPhased(phases) && k < |phases| && g !in failed && Standing(axes, v, g, phases, k, failed, begun)
    ensures g in axes && (phases[k].Enlivens() ==> axes[g] * v.dirty == {})
  {
  }

  lemma PhaseStands(axes: map<Group, set<Axis>>, v: Picture, w: Picture, g: Group, phases: seq<Phase>, k: nat,
      failed: set<Group>,
                    begun: map<Group, Found>)
    requires k < |phases| && g !in failed && Standing(axes, v, g, phases, k, failed, begun) && Arrived(axes, g, v, w, phases[k])
    requires phases[k].Acknowledges() ==> axes[g] * w.dirty == {}
    ensures Standing(axes, w, g, phases, k + 1, failed, begun)
  {
    assert phases[..k + 1][..k] == phases[..k];
  }

  lemma GivenUpStands(axes: map<Group, set<Axis>>, v: Picture, w: Picture, g: Group, phases: seq<Phase>, k: nat,
      failed: set<Group>,
                      begun: map<Group, Found>)
    requires k < |phases| && Standing(axes, v, g, phases, k, failed, begun)
    requires g in axes && g in w.groups && g in v.hits && g in w.hits && v.hits[g] <= w.hits[g]
    requires w.groups[g].status == Fault && w.groups[g].progress == Failed
    ensures Standing(axes, w, g, phases, k + 1, failed + {g}, begun)
  {
  }

  /** What the monitor may write leaves a group where it may stand. */
  lemma StandingStays(axes: map<Group, set<Axis>>, v: Picture, w: Picture, g: Group, phases: seq<Phase>, k: nat,
      failed: set<Group>,
                      begun: map<Group, Found>)
    requires k <= |phases| && Same(axes, g, v, w) && Standing(axes, v, g, phases, k, failed, begun)
    ensures Standing(axes, w, g, phases, k, failed, begun)
  {
    StopIsPossible(phases[..k], begun[g].status);
    hide Possible, ReachedAll, Acked;
  }

  lemma FailedStands(axes: map<Group, set<Axis>>, v: Picture, g: Group, phases: seq<Phase>, k: nat, failed: set<Group>,
                     begun: map<Group, Found>)
    requires k < |phases| && g in failed && Standing(axes, v, g, phases, k, failed, begun)
    ensures Standing(axes, v, g, phases, k + 1, failed, begun)
  {
  }

  lemma OthersFailed(axes: map<Group, set<Axis>>, v: Picture, g: Group, phases: seq<Phase>, k: nat, failed: set<Group>,
      h: Group,
                     begun: map<Group, Found>)
    requires k <= |phases| && h != g && Standing(axes, v, g, phases, k, failed, begun)
    ensures Standing(axes, v, g, phases, k, failed + {h}, begun)
  {
  }

  /** What the phases behind a group have done since the look at it: nothing of them failed and all was asked for that
      they ask whatever the status; where the monitor has not written, they suited the group and all of theirs
      was asked for.  A group that failed had trouble, was stopped by the monitor, or was not suited.  `now`
      counts the writes of the monitor. */
  ghost predicate Worked(now: nat, clean: bool, log: Log, g: Group, phases: seq<Phase>, k: nat, gone: bool, f: Found,
      serviced: bool)
    requires k <= |phases|
  {
    && f.hits <= now && f.at <= |log|
    && if gone then now != f.hits || Troubled(f.at, log, g) || !Suited(phases, serviced, f.status, clean)
       else !Troubled(f.at, log, g) && AskedInOrder(f.at, log, FixedUpTo(phases[..k], serviced), g)
            && (now == f.hits ==>
                  && Suited(phases[..k], serviced, f.status, clean)
                  && AskedInOrder(f.at, log, OpsUpTo(phases[..k], serviced, f.status), g))
  }

  lemma WorkedStays(now: nat, later: nat, clean: bool, log: Log, more: Log, g: Group, phases: seq<Phase>, k: nat, gone: bool,
      f: Found,
                    serviced: bool)
    requires k <= |phases| && now <= later && log <= more && !Troubled(|log|, more, g)
    requires Worked(now, clean, log, g, phases, k, gone, f, serviced)
    ensures Worked(later, clean, more, g, phases, k, gone, f, serviced)
  {
    hide Suited, Troubled, AskedInOrder, FixedUpTo, OpsUpTo;
    TroubleFrom(f.at, log, more, g);
    if !gone {
      InOrderExtends(f.at, f.at, log, more, FixedUpTo(phases[..k], serviced), g);
      if now == f.hits { InOrderExtends(f.at, f.at, log, more, OpsUpTo(phases[..k], serviced, f.status), g); }
    }
  }

  lemma WorkedFailedStays(now: nat, later: nat, clean: bool, log: Log, more: Log, g: Group, phases: seq<Phase>, k: nat,
      f: Found,
                          serviced: bool)
    requires k <= |phases| && now <= later && log <= more
    requires Worked(now, clean, log, g, phases, k, true, f, serviced)
    ensures Worked(later, clean, more, g, phases, k, true, f, serviced)
  {
    hide Suited, Troubled;
    TroubleFrom(f.at, log, more, g);
  }

  lemma WorkedSkips(now: nat, clean: bool, log: Log, g: Group, phases: seq<Phase>, k: nat, f: Found, serviced: bool)
    requires k < |phases| && Worked(now, clean, log, g, phases, k, true, f, serviced)
    ensures Worked(now, clean, log, g, phases, k + 1, true, f, serviced)
  {
  }

  lemma TroubleFrom(from: nat, log: Log, more: Log, g: Group)
    requires from <= |log| && log <= more
    ensures Troubled(from, more, g) <==> Troubled(from, log, g) || Troubled(|log|, more, g)
  {
    if Troubled(from, log, g) {
      var k :| from <= k < |log| && Troubles(log[k], g);
      assert more[k] == log[k];
    }
    if Troubled(from, more, g) {
      var k :| from <= k < |more| && Troubles(more[k], g);
      if k < |log| { assert log[k] == more[k]; }
    }
  }

  /** One phase more, which succeeded exactly if it suited the group and had no trouble. */
  lemma PhaseWorked(axes: map<Group, set<Axis>>, v: Picture, w: Picture, log: Log, more: Log, g: Group, phases: seq<Phase>,
      k: nat,
                    failed: set<Group>, begun: map<Group, Found>, serviced: bool, ok: bool)
    requires k < |phases| && g !in failed && Standing(axes, v, g, phases, k, failed, begun) && On(axes, g, v, w)
    requires OnlyOn(log, more, g, OfGroup(g))
    requires Worked(v.hits[g], axes[g] * v.dirty == {}, log, g, phases, k, false, begun[g], serviced)
    requires ok ==> Did(phases[k], serviced, v.groups[g].status, log, more, g)
    requires ok <==> !Troubled(|log|, more, g) && Suits(phases[k], serviced, v.groups[g].status, axes[g] * v.dirty == {})
    ensures Worked(w.hits[g], axes[g] * w.dirty == {}, more, g, phases, k + 1, !ok, begun[g], serviced)
  {
    hide AskedInOrder, Troubled, Suits, FixedUpTo, OpsUpTo, Possible, Acked;
    var f, p, s, clean := begun[g], phases[k], v.groups[g].status, axes[g] * v.dirty == {};
    TroubleFrom(f.at, log, more, g);
    var before, after := phases[..k], phases[..k + 1];
    assert after[..k] == before && after[k] == p;
    if ok {
      FixedIsAsked(p, serviced, s, log, more, g);
      InOrderGoesOn(f.at, log, more, FixedUpTo(before, serviced), FixedOps(p, serviced), g);
      FixedGrows(phases, k, serviced);
      if w.hits[g] == f.hits {
        InOrderGoesOn(f.at, log, more, OpsUpTo(before, serviced, f.status), PhaseOps(p, serviced, s), g);
        OpsGrow(phases, k, serviced, f.status);
        SuitedGrows(phases, k, serviced, f.status, clean);
      }
    } else if w.hits[g] == f.hits && !Troubled(|log|, more, g) {
      assert !Suits(phases[k], serviced, ReachedAll(phases[..k], f.status), clean);
    }
  }

  lemma FixedIsAsked(p: Phase, serviced: bool, s: Status, log: Log, more: Log, g: Group)
    requires Did(p, serviced, s, log, more, g)
    requires log <= more
    ensures AskedInOrder(|log|, more, FixedOps(p, serviced), g)
  {
  }

  lemma FixedGrows(phases: seq<Phase>, k: nat, serviced: bool)
    requires k < |phases|
    ensures FixedUpTo(phases[..k + 1], serviced) == FixedUpTo(phases[..k], serviced) + FixedOps(phases[k], serviced)
  {
    assert phases[..k + 1][..k] == phases[..k];
  }

  lemma OpsGrow(phases: seq<Phase>, k: nat, serviced: bool, s: Status)
    requires k < |phases|
    ensures OpsUpTo(phases[..k + 1], serviced, s)
      == OpsUpTo(phases[..k], serviced, s) + PhaseOps(phases[k], serviced, ReachedAll(phases[..k], s))
  {
    assert phases[..k + 1][..k] == phases[..k];
  }

  lemma SuitedGrows(phases: seq<Phase>, k: nat, serviced: bool, s: Status, clean: bool)
    requires k < |phases| && Suited(phases[..k], serviced, s, clean)
    requires Suits(phases[k], serviced, ReachedAll(phases[..k], s), clean)
    ensures Suited(phases[..k + 1], serviced, s, clean)
  {
    hide ReachedAll, Suits;
    var more := phases[..k + 1];
    forall j | 0 <= j < k + 1 ensures Suits(more[j], serviced, ReachedAll(more[..j], s), clean) {
      assert more[..j] == phases[..j] && more[j] == phases[j];
      if j < k { assert phases[..k][..j] == phases[..j] && phases[..k][j] == phases[j]; }
    }
  }

  /** What this thread has locked stays as it is, unless the monitor stops it. */
  predicate KeptFor(axes: map<Group, set<Axis>>, groups: set<Group>, v: Picture, w: Picture) {
    w.mine == v.mine && forall g | g in groups :: Same(axes, g, v, w)
  }

  lemma KeptAll(axes: map<Group, set<Axis>>, groups: set<Group>, v: Picture)
    requires groups <= axes.Keys && axes.Keys == v.groups.Keys == v.hits.Keys
    ensures KeptFor(axes, groups, v, v)
  {
  }

  lemma KeptIn(axes: map<Group, set<Axis>>, groups: set<Group>, v: Picture, w: Picture, g: Group)
    requires g in groups && KeptFor(axes, groups, v, w)
    ensures Same(axes, g, v, w) && g in w.groups
  {
  }

  lemma KeptClean(axes: map<Group, set<Axis>>, groups: set<Group>, v: Picture, w: Picture, g: Group)
    requires g in groups && KeptFor(axes, groups, v, w)
    ensures g in axes && axes[g] * w.dirty == axes[g] * v.dirty
  {
    assert Same(axes, g, v, w);
  }

  lemma KeptOn(axes: map<Group, set<Axis>>, groups: set<Group>, u: Picture, v: Picture, w: Picture)
    requires KeptFor(axes, groups, u, v) && KeptFor(axes, groups, v, w)
    ensures KeptFor(axes, groups, u, w)
  {
  }

  /** The record goes on by what other threads do, and only threads without a lock leave anything under these
      groups or unscoped. */
  ghost predicate Onward(groups: set<Group>, before: Log, after: Log) {
    && before <= after
    && (forall j, g | |before| <= j < |after| && g in groups && Concerns(after, j, OfGroup(g)) :: !after[j].holder)
    && (forall j | |before| <= j < |after| :: after[j].TimedOut? || after[j].Resolved? || after[j].Asked?)
  }

  /** What a phase asks of the guard and of the hardware of a group with status `s`, in this order; `serviced` groups
      have axes to initialize. */
  function PhaseOps(p: Phase, serviced: bool, s: Status): seq<Operation> {
    match p
    case StopPhase => [Halt, StopControllers]
    case InitPhase => if serviced then [Initialize, Verify] else []
    case PreparePhase => [StopControllers, AdapterFence.Prepare, Await]
    case AcknowledgePhase => [MaintenanceClear, AdapterFence.Acknowledge]
    case ArmPhase => [AdapterFence.Arm]
    case ResumePrepare =>
      if s != Halted then []
      else (if serviced then [Initialize, Verify] else []) + [StopControllers, AdapterFence.Prepare, Await]
    case ResumeAcknowledge => if s == Armed then [] else [MaintenanceClear, AdapterFence.Acknowledge]
    case ResumeArm => if s == Armed then [] else [AdapterFence.Arm]
    case StartPhase => [StartControllers, Run]
  }

  /** What it asks whatever the status. */
  function FixedOps(p: Phase, serviced: bool): seq<Operation> {
    match p
    case ResumePrepare => []
    case ResumeAcknowledge => []
    case ResumeArm => []
    case _ => PhaseOps(p, serviced, Stopped)
  }

  function OpsUpTo(phases: seq<Phase>, serviced: bool, s: Status): seq<Operation> {
    if phases == [] then []
    else
      var n := |phases| - 1;
      OpsUpTo(phases[..n], serviced, s) + PhaseOps(phases[n], serviced, ReachedAll(phases[..n], s))
  }

  function FixedUpTo(phases: seq<Phase>, serviced: bool): seq<Operation> {
    if phases == [] then []
    else FixedUpTo(phases[..|phases| - 1], serviced) + FixedOps(phases[|phases| - 1], serviced)
  }

  /** A phase suits a group by its status and by whether its axes are clean. */
  predicate Suits(p: Phase, serviced: bool, s: Status, clean: bool) {
    match p
    case InitPhase => !s.Live() && (serviced ==> clean)
    case PreparePhase => s == Initialized || s == Halted
    case AcknowledgePhase => clean
    case ResumePrepare => s == Halted && serviced ==> clean
    case ResumeAcknowledge => s != Armed ==> clean
    case _ => true
  }

  predicate Suited(phases: seq<Phase>, serviced: bool, s: Status, clean: bool) {
    forall j | 0 <= j < |phases| :: Suits(phases[j], serviced, ReachedAll(phases[..j], s), clean)
  }

  lemma OneMorePhase(phases: seq<Phase>, p: Phase, serviced: bool, s: Status, clean: bool)
    ensures FixedUpTo(phases + [p], serviced) == FixedUpTo(phases, serviced) + FixedOps(p, serviced)
    ensures OpsUpTo(phases + [p], serviced, s) == OpsUpTo(phases, serviced, s) + PhaseOps(p, serviced, ReachedAll(phases, s))
    ensures ReachedAll(phases + [p], s) == Reached(p, ReachedAll(phases, s))
    ensures Suited(phases, serviced, s, clean) && Suits(p, serviced, ReachedAll(phases, s), clean) ==>
        Suited(phases + [p], serviced, s, clean)
  {
    var more := phases + [p];
    assert more[..|phases|] == phases && more[|phases|] == p;
    if Suited(phases, serviced, s, clean) && Suits(p, serviced, ReachedAll(phases, s), clean) {
      forall j | 0 <= j < |more| ensures Suits(more[j], serviced, ReachedAll(more[..j], s), clean) {
        assert more[..j] == phases[..j];
        if j < |phases| { assert more[j] == phases[j]; }
      }
    }
  }

  lemma EnablePhases(serviced: bool, s: Status, clean: bool)
    ensures FixedUpTo(ENABLE, serviced) ==
        [StopControllers, AdapterFence.Prepare, Await, MaintenanceClear, AdapterFence.Acknowledge, AdapterFence.Arm]
    ensures clean && (s == Initialized || s == Halted) ==> Suited(ENABLE, serviced, s, clean)
  {
    hide Suited, FixedUpTo, OpsUpTo, ReachedAll;
    NoPhases(serviced, s, clean);
    OneMorePhase([], PreparePhase, serviced, s, clean);
    assert [] + [PreparePhase] == [PreparePhase];
    OneMorePhase([PreparePhase], AcknowledgePhase, serviced, s, clean);
    assert [PreparePhase] + [AcknowledgePhase] == [PreparePhase, AcknowledgePhase];
    OneMorePhase([PreparePhase, AcknowledgePhase], ArmPhase, serviced, s, clean);
    assert [PreparePhase, AcknowledgePhase] + [ArmPhase] == ENABLE;
  }

  lemma ResumePhases(serviced: bool, s: Status, clean: bool)
    ensures FixedUpTo(RESUME, serviced) == [StartControllers, Run]
    ensures clean && (s == Armed || s == Halted) ==> Suited(RESUME, serviced, s, clean)
  {
    hide Suited, FixedUpTo, OpsUpTo, ReachedAll;
    NoPhases(serviced, s, clean);
    OneMorePhase([], ResumePrepare, serviced, s, clean);
    assert [] + [ResumePrepare] == [ResumePrepare];
    OneMorePhase([ResumePrepare], ResumeAcknowledge, serviced, s, clean);
    assert [ResumePrepare] + [ResumeAcknowledge] == [ResumePrepare, ResumeAcknowledge];
    OneMorePhase([ResumePrepare, ResumeAcknowledge], ResumeArm, serviced, s, clean);
    assert [ResumePrepare, ResumeAcknowledge] + [ResumeArm] == [ResumePrepare, ResumeAcknowledge, ResumeArm];
    OneMorePhase([ResumePrepare, ResumeAcknowledge, ResumeArm], StartPhase, serviced, s, clean);
    assert [ResumePrepare, ResumeAcknowledge, ResumeArm] + [StartPhase] == RESUME;
  }

  lemma ResumeHalted(serviced: bool)
    ensures OpsUpTo(RESUME, serviced, Halted) == (if serviced then [Initialize, Verify] else [])
        + [StopControllers, AdapterFence.Prepare, Await, MaintenanceClear, AdapterFence.Acknowledge, AdapterFence.Arm,
           StartControllers, Run]
  {
    hide Suited, FixedUpTo, OpsUpTo, ReachedAll, Suits, FixedOps;
    var s, clean := Halted, true;
    NoPhases(serviced, s, clean);
    OneMorePhase([], ResumePrepare, serviced, s, clean);
    assert [] + [ResumePrepare] == [ResumePrepare];
    OneMorePhase([ResumePrepare], ResumeAcknowledge, serviced, s, clean);
    assert [ResumePrepare] + [ResumeAcknowledge] == [ResumePrepare, ResumeAcknowledge];
    OneMorePhase([ResumePrepare, ResumeAcknowledge], ResumeArm, serviced, s, clean);
    assert [ResumePrepare, ResumeAcknowledge] + [ResumeArm] == [ResumePrepare, ResumeAcknowledge, ResumeArm];
    OneMorePhase([ResumePrepare, ResumeAcknowledge, ResumeArm], StartPhase, serviced, s, clean);
    assert [ResumePrepare, ResumeAcknowledge, ResumeArm] + [StartPhase] == RESUME;
  }

  lemma RecoverPhases(serviced: bool, s: Status, clean: bool)
    ensures FixedUpTo(RECOVER, serviced) == [Halt, StopControllers] + (if serviced then [Initialize, Verify] else [])
        + [StopControllers, AdapterFence.Prepare, Await, MaintenanceClear, AdapterFence.Acknowledge, AdapterFence.Arm]
    ensures clean ==> Suited(RECOVER, serviced, s, clean)
  {
    hide Suited, FixedUpTo, OpsUpTo, ReachedAll;
    NoPhases(serviced, s, clean);
    OneMorePhase([], StopPhase, serviced, s, clean);
    assert [] + [StopPhase] == [StopPhase];
    OneMorePhase([StopPhase], InitPhase, serviced, s, clean);
    assert [StopPhase] + [InitPhase] == [StopPhase, InitPhase];
    OneMorePhase([StopPhase, InitPhase], PreparePhase, serviced, s, clean);
    assert [StopPhase, InitPhase] + [PreparePhase] == [StopPhase, InitPhase, PreparePhase];
    OneMorePhase([StopPhase, InitPhase, PreparePhase], AcknowledgePhase, serviced, s, clean);
    assert [StopPhase, InitPhase, PreparePhase] + [AcknowledgePhase] == [StopPhase, InitPhase, PreparePhase, AcknowledgePhase];
    OneMorePhase([StopPhase, InitPhase, PreparePhase, AcknowledgePhase], ArmPhase, serviced, s, clean);
    assert [StopPhase, InitPhase, PreparePhase, AcknowledgePhase] + [ArmPhase] == RECOVER;
  }

  lemma OnePhase(p: Phase, serviced: bool, s: Status, clean: bool)
    ensures FixedUpTo([p], serviced) == FixedOps(p, serviced)
    ensures Suits(p, serviced, s, clean) ==> Suited([p], serviced, s, clean)
    ensures ReachedAll([p], s) == Reached(p, s)
    ensures p == InitPhase || p == StopPhase ==> Possible([p], s) <= {Reached(p, s), Halted, Fault}
  {
    NoPhases(serviced, s, clean);
    OneMorePhase([], p, serviced, s, clean);
    assert [] + [p] == [p];
    assert [p][..0] == [];
  }

  lemma EnableWorked(now: nat, clean: bool, log: Log, g: Group, gone: bool, f: Found, serviced: bool)
    requires Worked(now, clean, log, g, ENABLE, 3, gone, f, serviced) && f.status in {Initialized, Halted}
    ensures gone ==> Troubled(f.at, log, g) || now != f.hits || !clean
    ensures !gone ==> !Troubled(f.at, log, g)
    ensures !gone ==> AskedInOrder(f.at, log,
        [StopControllers, AdapterFence.Prepare, Await, MaintenanceClear, AdapterFence.Acknowledge, AdapterFence.Arm], g)
  {
    hide AskedInOrder, Troubled, Suited, FixedUpTo, OpsUpTo;
    EnablePhases(serviced, f.status, clean);
    assert ENABLE[..3] == ENABLE;
  }

  lemma ResumeWorked(now: nat, clean: bool, log: Log, g: Group, gone: bool, f: Found, serviced: bool)
    requires Worked(now, clean, log, g, RESUME, 4, gone, f, serviced) && f.status in {Armed, Halted}
    ensures gone ==> Troubled(f.at, log, g) || now != f.hits || !clean
    ensures !gone ==> !Troubled(f.at, log, g)
    ensures !gone ==> AskedInOrder(f.at, log, [StartControllers, Run], g)
    ensures !gone && now == f.hits && f.status == Halted ==>
      AskedInOrder(f.at, log, (if serviced then [Initialize, Verify] else [])
          + [StopControllers, AdapterFence.Prepare, Await, MaintenanceClear, AdapterFence.Acknowledge, AdapterFence.Arm,
             StartControllers, Run], g)
  {
    hide AskedInOrder, Troubled, Suited, FixedUpTo, OpsUpTo;
    ResumePhases(serviced, f.status, clean);
    ResumeHalted(serviced);
    assert RESUME[..4] == RESUME;
  }

  lemma RecoverWorked(now: nat, clean: bool, log: Log, g: Group, gone: bool, f: Found, serviced: bool)
    requires Worked(now, clean, log, g, RECOVER, 5, gone, f, serviced)
    ensures gone ==> Troubled(f.at, log, g) || now != f.hits || !clean
    ensures !gone ==> !Troubled(f.at, log, g)
    ensures !gone ==> AskedInOrder(f.at, log, [Halt, StopControllers] + (if serviced then [Initialize, Verify] else [])
        + [StopControllers, AdapterFence.Prepare, Await, MaintenanceClear, AdapterFence.Acknowledge, AdapterFence.Arm], g)
  {
    hide AskedInOrder, Troubled, Suited, FixedUpTo, OpsUpTo;
    RecoverPhases(serviced, f.status, clean);
    assert RECOVER[..5] == RECOVER;
  }

  lemma InitWorked(now: nat, clean: bool, log: Log, g: Group, gone: bool, f: Found, serviced: bool)
    requires Worked(now, clean, log, g, [InitPhase], 1, gone, f, serviced) && !f.status.Live()
    ensures gone ==> Troubled(f.at, log, g) || now != f.hits || !clean
    ensures !gone ==> !Troubled(f.at, log, g)
    ensures !gone ==> AskedInOrder(f.at, log, if serviced then [Initialize, Verify] else [], g)
  {
    hide AskedInOrder, Troubled, Suited, FixedUpTo, OpsUpTo;
    OnePhase(InitPhase, serviced, f.status, clean);
    assert [InitPhase][..1] == [InitPhase];
  }

  lemma HaltWorked(now: nat, clean: bool, log: Log, g: Group, gone: bool, f: Found, serviced: bool)
    requires Worked(now, clean, log, g, [StopPhase], 1, gone, f, serviced)
    ensures gone ==> Troubled(f.at, log, g) || now != f.hits || !clean
    ensures !gone ==> !Troubled(f.at, log, g)
    ensures !gone ==> AskedInOrder(f.at, log, [Halt, StopControllers], g)
  {
    hide AskedInOrder, Troubled, Suited, FixedUpTo, OpsUpTo;
    OnePhase(StopPhase, serviced, f.status, clean);
    assert [StopPhase][..1] == [StopPhase];
  }

  lemma NoPhases(serviced: bool, s: Status, clean: bool)
    ensures FixedUpTo([], serviced) == [] && OpsUpTo([], serviced, s) == [] && ReachedAll([], s) == s
    ensures Suited([], serviced, s, clean)
  {
  }

  /** From position `from` on these were asked for the group, in this order. */
  ghost predicate AskedInOrder(from: nat, log: Log, ops: seq<Operation>, g: Group)
    decreases |ops|
  {
    if ops == [] then from <= |log|
    else
      var n := |ops| - 1;
      exists k | from <= k < |log| :: log[k] == Asked(ops[n], g) && AskedInOrder(from, log[..k], ops[..n], g)
  }

  lemma InOrderExtends(from: nat, later: nat, log: Log, more: Log, ops: seq<Operation>, g: Group)
    requires AskedInOrder(later, log, ops, g) && from <= later && log <= more
    ensures AskedInOrder(from, more, ops, g)
    decreases |ops|
  {
    if ops != [] {
      var n := |ops| - 1;
      var k :| later <= k < |log| && log[k] == Asked(ops[n], g) && AskedInOrder(later, log[..k], ops[..n], g);
      InOrderExtends(from, later, log[..k], more[..k], ops[..n], g);
      assert more[k] == log[k];
    }
  }

  lemma {:induction false} InOrderGoesOn(from: nat, log: Log, more: Log, a: seq<Operation>, b: seq<Operation>, g: Group)
    requires AskedInOrder(from, log, a, g) && log <= more && AskedInOrder(|log|, more, b, g)
    ensures AskedInOrder(from, more, a + b, g)
    decreases |b|
  {
    if b == [] {
      assert a + b == a;
      InOrderExtends(from, from, log, more, a, g);
    } else {
      var n := |b| - 1;
      var k :| |log| <= k < |more| && more[k] == Asked(b[n], g) && AskedInOrder(|log|, more[..k], b[..n], g);
      InOrderStarts(from, log, a, g);
      InOrderGoesOn(from, log, more[..k], a, b[..n], g);
      assert (a + b)[..|a| + n] == a + b[..n];
      assert (a + b)[|a + b| - 1] == b[n];
    }
  }

  lemma InOrderStarts(from: nat, log: Log, ops: seq<Operation>, g: Group)
    requires AskedInOrder(from, log, ops, g)
    ensures from <= |log|
  {
  }

  lemma InOrderNone(before: Log, now: Log, g: Group, key: Key)
    requires OnlyOn(before, now, g, key)
    ensures AskedInOrder(|before|, now, [], g)
  {
  }

  lemma InOrderFirst(before: Log, now: Log, op: Operation, g: Group)
    requires before + [Asked(op, g)] <= now
    ensures AskedInOrder(|before|, now, [op], g)
  {
    assert now[|before|] == (before + [Asked(op, g)])[|before|];
    assert [op][..0] == [];
    assert AskedInOrder(|before|, now[..|before|], [op][..0], g);
  }

  lemma InOrderThen(before: Log, now: Log, after: Log, ops: seq<Operation>, op: Operation, g: Group)
    requires AskedInOrder(|before|, now, ops, g) && |ops| == 1 && now + [Asked(op, g)] <= after
    ensures AskedInOrder(|before|, after, [ops[0], op], g)
  {
    InOrderFirst(now, after, op, g);
    InOrderGoesOn(|before|, now, after, ops, [op], g);
    assert ops + [op] == [ops[0], op];
  }

  lemma DisabledInOrder(before: Log, stopped: Log, after: Log, g: Group)
    requires stopped <= after && AskedInOrder(|before|, stopped, [Halt, StopControllers], g)
    requires AskedInOrder(|stopped|, after, [DisableAxis, Verify], g)
    ensures AskedInOrder(|before|, after, [Halt, StopControllers, DisableAxis, Verify], g)
  {
    InOrderGoesOn(|before|, stopped, after, [Halt, StopControllers], [DisableAxis, Verify], g);
    assert [Halt, StopControllers] + [DisableAxis, Verify] == [Halt, StopControllers, DisableAxis, Verify];
  }

  lemma PreparedInOrder(before: Log, up: Log, after: Log, g: Group)
    requires up <= after && AskedInOrder(|before|, up, [StopControllers], g) && AskedInOrder(|up|, after, [Prepare, Await], g)
    ensures AskedInOrder(|before|, after, [StopControllers, Prepare, Await], g)
  {
    InOrderGoesOn(|before|, up, after, [StopControllers], [Prepare, Await], g);
    assert [StopControllers] + [Prepare, Await] == [StopControllers, Prepare, Await];
  }

  /** The requests stand in the log at increasing positions. */
  predicate Placed(from: nat, log: Log, ops: seq<Operation>, g: Group, at: seq<nat>) {
    && |at| == |ops|
    && (forall i | 0 <= i < |at| :: from <= at[i] < |log| && log[at[i]] == Asked(ops[i], g))
    && (forall i, j | 0 <= i < j < |at| :: at[i] < at[j])
  }

  lemma {:induction false} InOrderIsPlaced(from: nat, log: Log, ops: seq<Operation>, g: Group) returns (at: seq<nat>)
    requires AskedInOrder(from, log, ops, g)
    ensures Placed(from, log, ops, g, at)
    decreases |ops|
  {
    if ops == [] {
      at := [];
    } else {
      var n := |ops| - 1;
      var k :| from <= k < |log| && log[k] == Asked(ops[n], g) && AskedInOrder(from, log[..k], ops[..n], g);
      var rest := InOrderIsPlaced(from, log[..k], ops[..n], g);
      at := rest + [k];
    }
  }

  lemma {:induction false} PlacedIsInOrder(from: nat, log: Log, ops: seq<Operation>, g: Group, at: seq<nat>)
    requires from <= |log| && Placed(from, log, ops, g, at)
    ensures AskedInOrder(from, log, ops, g)
    decreases |ops|
  {
    if ops != [] {
      var n := |ops| - 1;
      var k := at[n];
      forall i | 0 <= i < n ensures from <= at[..n][i] < k && log[..k][at[..n][i]] == Asked(ops[..n][i], g) {
        assert at[i] < at[n];
      }
      assert Placed(from, log[..k], ops[..n], g, at[..n]);
      PlacedIsInOrder(from, log[..k], ops[..n], g, at[..n]);
    }
  }

  /** In order: exactly if there are such positions. */
  lemma InOrderExactly(from: nat, log: Log, ops: seq<Operation>, g: Group)
    requires from <= |log|
    ensures AskedInOrder(from, log, ops, g) <==> exists at: seq<nat> :: Placed(from, log, ops, g, at)
  {
    hide AskedInOrder, Placed;
    if AskedInOrder(from, log, ops, g) {
      var at := InOrderIsPlaced(from, log, ops, g);
    }
    if exists at: seq<nat> :: Placed(from, log, ops, g, at) {
      var at: seq<nat> :| Placed(from, log, ops, g, at);
      PlacedIsInOrder(from, log, ops, g, at);
    }
  }

  /** What keeps a step on a group from succeeding: something asked for it is denied, or something is still
      pending that it has to wait for. */
  predicate Troubles(e: Event, g: Group) {
    (e.Denied? || e.Lost? || e.Unsettled?) && e.group == g
  }

  /** The last call has just timed out, under exactly these keys. */
  predicate LostUnder(log: Log, op: Operation, g: Group, keys: set<Key>) {
    && |log| > 1 && log[|log| - 1] == Lost(op, g)
    && log[|log| - 2].TimedOut? && log[|log| - 2].keys == keys
  }

  /** What is given up at `k` without an answer has timed out under this key, and under the lock of the group if the
      key is that of the group. */
  predicate LostAt(log: Log, k: nat, g: Group, key: Key)
    requires k < |log|
  {
    k > 0 && log[k - 1].TimedOut? && key in log[k - 1].keys && (log[k - 1].holder <==> key == OfGroup(g))
  }

  ghost predicate Troubled(from: nat, log: Log, g: Group) {
    exists k | from <= k < |log| :: Troubles(log[k], g)
  }

  /** The record goes on, what was noted in it concerns this group, and what got no answer is kept under this key. */
  ghost predicate OnlyOn(before: Log, after: Log, g: Group, key: Key) {
    && before <= after
    && (forall k | |before| <= k < |after| && (after[k].Denied? || after[k].Lost? || after[k].Unsettled?) :: after[k].group == g)
    && (forall k | |before| <= k < |after| && after[k].Lost? :: |before| < k && LostAt(after, k, g, key))
  }

  lemma Joined(before: Log, now: Log, after: Log, g: Group, key: Key)
    requires OnlyOn(before, now, g, key) && OnlyOn(now, after, g, key)
    ensures OnlyOn(before, after, g, key) && before <= now <= after
    ensures Troubled(|before|, after, g) <==> Troubled(|before|, now, g) || Troubled(|now|, after, g)
  {
    TroubleFrom(|before|, now, after, g);
    hide Troubled;
    forall k | |before| <= k < |after| && after[k].Lost? ensures |before| < k && LostAt(after, k, g, key) {
      if k < |now| {
        assert now[k] == after[k];
        assert LostAt(now, k, g, key);
        assert now[k - 1] == after[k - 1];
      }
    }
    forall k | |before| <= k < |after| && (after[k].Denied? || after[k].Lost? || after[k].Unsettled?) ensures after[k].group == g {
      if k < |now| { assert now[k] == after[k]; }
    }
  }

  /** Whatever got no answer since position `from` is kept under the group it was for, whose lock was held. */
  ghost predicate Attributed(from: nat, log: Log) {
    forall k | from <= k < |log| && log[k].Lost? :: from < k && LostAt(log, k, log[k].group, OfGroup(log[k].group))
  }

  lemma AttributedOn(before: Log, after: Log, g: Group)
    requires OnlyOn(before, after, g, OfGroup(g))
    ensures Attributed(|before|, after) && before <= after
  {
  }

  lemma AttributedJoined(from: nat, before: Log, after: Log)
    requires Attributed(from, before) && Attributed(|before|, after) && from <= |before| && before <= after
    ensures Attributed(from, after)
  {
    forall k | from <= k < |after| && after[k].Lost? ensures from < k && LostAt(after, k, after[k].group,
        OfGroup(after[k].group)) {
      if k < |before| {
        assert before[k] == after[k];
        assert LostAt(before, k, before[k].group, OfGroup(before[k].group));
        assert before[k - 1] == after[k - 1];
      }
    }
  }

  lemma AnswerIsDenied(before: Log, after: Log, op: Operation, g: Group, key: Key)
    requires after == before + [Denied(op, g)]
    ensures OnlyOn(before, after, g, key) && Troubled(|before|, after, g)
  {
    assert Troubles(after[|before|], g);
  }

  lemma AnswerIsLost(before: Log, after: Log, op: Operation, g: Group, key: Key, id: nat, keys: set<Key>)
    requires after == before + [TimedOut(id, keys, key == OfGroup(g))] + [Lost(op, g)] && key in keys
    ensures OnlyOn(before, after, g, key) && Troubled(|before|, after, g) && LostUnder(after, op, g, keys)
  {
    assert Troubles(after[|before| + 1], g);
  }

  lemma QuietNow(log: Log, g: Group, key: Key)
    ensures OnlyOn(log, log, g, key) && !Troubled(|log|, log, g) && AskedInOrder(|log|, log, [], g)
  {
  }

  lemma OnwardIsQuiet(groups: set<Group>, before: Log, after: Log, g: Group, key: Key)
    requires Onward(groups, before, after)
    ensures OnlyOn(before, after, g, key) && !Troubled(|before|, after, g)
  {
  }

  lemma AskedQuietly(groups: set<Group>, before: Log, after: Log, op: Operation, g: Group, key: Key)
    requires Onward(groups, before + [Asked(op, g)], after)
    ensures OnlyOn(before, after, g, key) && !Troubled(|before|, after, g) && before + [Asked(op, g)] <= after
  {
    assert after[|before|] == (before + [Asked(op, g)])[|before|];
  }

  lemma CheckTroubles(before: Log, now: Log, settled: bool, key: Key, g: Group, scope: Key)
    requires now == before + [if settled then Settled(key) else Unsettled(key, g)]
    ensures OnlyOn(before, now, g, scope)
    ensures Troubled(|before|, now, g) <==> !settled
  {
    assert now[|before|].Settled? || Troubles(now[|before|], g);
  }

  /** Trouble of one group is none of another. */
  lemma OthersAreQuiet(before: Log, after: Log, g: Group, h: Group, key: Key)
    requires OnlyOn(before, after, g, key) && g != h
    ensures !Troubled(|before|, after, h)
  {
  }

  /** The hardware component was found settled and then brought up. */
  predicate TouchedAt(log: Log, k: nat, r: nat, g: Group) {
    k + 1 < |log| && log[k] == Settled(OfResource(r)) && log[k + 1] == Asked(Transition, g)
  }

  /** Every one of these hardware components was. */
  ghost predicate Touched(from: nat, log: Log, rs: set<nat>, g: Group) {
    forall r | r in rs :: exists k: nat | from <= k :: TouchedAt(log, k, r, g)
  }

  lemma TouchedStays(before: Log, now: Log, after: Log, rs: set<nat>, g: Group)
    requires before <= now <= after
    ensures Touched(|before|, now, rs, g) ==> Touched(|before|, after, rs, g)
    ensures Touched(|now|, after, rs, g) ==> Touched(|before|, after, rs, g)
  {
    if Touched(|before|, now, rs, g) {
      forall r | r in rs ensures exists k: nat | |before| <= k :: TouchedAt(after, k, r, g) {
        var k: nat :| |before| <= k && TouchedAt(now, k, r, g);
        assert TouchedAt(after, k, r, g);
      }
    }
  }

  lemma TouchesOne(before: Log, now: Log, after: Log, seen: set<nat>, r: nat, g: Group)
    requires before <= now <= after && TouchedAt(after, |now|, r, g) && Touched(|before|, now, seen, g)
    ensures Touched(|before|, after, seen + {r}, g)
  {
    TouchedStays(before, now, after, seen, g);
  }

  /** What a successful phase has asked of the guard and of the hardware. */
  ghost predicate Did(p: Phase, serviced: bool, s: Status, before: Log, after: Log, g: Group) {
    AskedInOrder(|before|, after, PhaseOps(p, serviced, s), g)
  }

  /** The check still covers the request when only threads without the lock have left anything since. */
  lemma StillFenced(before: Log, now: Log, g: Group)
    requires SettledAt(before, OfGroup(g), |before|) && before + [Settled(OfGroup(g))] <= now
    requires forall j | |before| < j < |now| && Concerns(now, j, OfGroup(g)) :: !now[j].holder
    ensures FencedBy(now + [Asked(Arm, g)], |now|, |before|)
  {
    var more := now + [Asked(Arm, g)];
    forall j | 0 <= j < |before| ensures more[j] == before[j] {
      assert more[j] == (before + [Settled(OfGroup(g))])[j];
    }
    assert more[|before|] == (before + [Settled(OfGroup(g))])[|before|];
    assert SettledAt(more, OfGroup(g), |before|) by {
      forall j | 0 <= j < |before| && more[j].TimedOut? && (OfGroup(g) in more[j].keys || Unscoped in more[j].keys)
        ensures exists r | j < r < |before| :: more[r] == Resolved(more[j].id)
      {
        var r :| j < r < |before| && before[r] == Resolved(before[j].id);
        assert more[r] == Resolved(more[j].id);
      }
    }
  }
}
