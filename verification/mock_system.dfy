/** The simulated actuator hardware: mode switch, read, write and the prepare service, with every other
    thread free to act between any two of its steps. */
module MockHardware {
  import opened Closure
  import opened Guard
  import opened GuardInvariant
  import opened GuardSessions
  import opened GuardDomain
  import GuardFields
  import GuardTables
  import opened MotionLog

  datatype Session = Session(epoch: nat, permissionLost: bool, preparedEpoch: nat, prepared: bool)

  /** Where the prepare service of a group is: looked at the state, took a ticket, found the ticket still
      current, found no inhibit and stores the result axis by axis. */
  datatype Stage = Idle | Quiet | Ticketed(ticket: nat) | Current(ticket: nat) | Storing(ticket: nat, next: nat)

  /** The next stage of a request of group `g`, which the guard reports as `seen`. */
  function NextStage(stage: Stage, g: Name, active: bool, seen: Group, inhibited: bool, owner: seq<Name>, offline: seq<bool>): Stage
    requires |owner| == |offline|
  {
    match stage
    case Idle => if active && seen.state != Armed && seen.state != Running then Quiet else Idle
    case Quiet => Ticketed(seen.epoch)
    case Ticketed(ticket) => if active && seen.epoch == ticket then Current(ticket) else Idle
    case Current(ticket) => if inhibited then Idle else Storing(ticket, 0)
    case Storing(ticket, next) => if next < |owner| && (owner[next] != g || !offline[next]) then Storing(ticket, next + 1) else Idle
  }

  const NO_MARKS := Marks(0, 0, 0, 0)

  /** The claim of an axis rests on the latest capture of its epoch. */
  ghost predicate ClaimHolds(log: Log, i: nat, epoch: nat, captured: nat) {
    && captured < |log| && log[captured].Captured? && log[captured].axis == i && log[captured].epoch == epoch
    && forall m | captured < m < |log| && log[m].Captured? :: log[m].axis != i
  }

  /** A command of a claimed axis was given after that capture, and is the latest one. */
  ghost predicate CommandHolds(log: Log, i: nat, command: Command, captured: nat, commanded: nat) {
    && captured < commanded < |log| && log[commanded] == Commanded(i, command)
    && forall m | commanded < m < |log| && log[m].Commanded? :: log[m].axis != i
  }

  datatype AxisState = AxisState(prepared: bool, ticket: nat, epoch: nat, claimed: bool, command: Command, position: real)

  ghost predicate AxisHolds(log: Log, i: nat, initial: real, a: AxisState, captured: nat, commanded: nat) {
    && a.prepared == PreparedAt(log, i, |log|)
    && a.ticket == TicketAt(log, i, |log|)
    && a.position == PositionAt(initial, log, i, |log|)
    && (a.claimed ==> ClaimHolds(log, i, a.epoch, captured))
    && (a.claimed && a.command != Nothing ==> CommandHolds(log, i, a.command, captured, commanded))
  }

  lemma AxisPrepares(log: Log, d: Deed, i: nat, initial: real, a: AxisState, captured: nat, commanded: nat)
    requires AxisHolds(log, i, initial, a, captured, commanded) && (d.Prepared? || d.Unprepared?) && d.axis == i
    ensures AxisHolds(log + [d], i, initial, a.(prepared := d.Prepared?, ticket := if d.Prepared? then d.ticket else a.ticket),
                      captured, commanded)
  {
    PositionStands(initial, log, log + [d], i, |log|);
    TicketStands(log, log + [d], i, |log|);
  }

  lemma AxisIsCaptured(log: Log, d: Deed, i: nat, initial: real, a: AxisState, captured: nat, commanded: nat)
    requires AxisHolds(log, i, initial, a, captured, commanded) && d.Captured? && d.axis == i
    ensures AxisHolds(log + [d], i, initial, a.(epoch := d.epoch, claimed := true, command := Nothing), |log|, commanded)
  {
    PositionStands(initial, log, log + [d], i, |log|);
    PreparedStands(log, log + [d], i, |log|);
    TicketStands(log, log + [d], i, |log|);
  }

  lemma AxisIsCommanded(log: Log, d: Deed, i: nat, initial: real, a: AxisState, captured: nat, commanded: nat)
    requires AxisHolds(log, i, initial, a, captured, commanded) && d.Commanded? && d.axis == i
    ensures AxisHolds(log + [d], i, initial, a.(command := d.command), captured, |log|)
  {
    PositionStands(initial, log, log + [d], i, |log|);
    PreparedStands(log, log + [d], i, |log|);
    TicketStands(log, log + [d], i, |log|);
  }

  lemma AxisMoves(log: Log, d: Deed, i: nat, initial: real, a: AxisState, captured: nat, commanded: nat)
    requires AxisHolds(log, i, initial, a, captured, commanded) && d.Moved? && d.axis == i
    ensures AxisHolds(log + [d], i, initial, a.(position := d.to.position), captured, commanded)
  {
    PreparedStands(log, log + [d], i, |log|);
    TicketStands(log, log + [d], i, |log|);
  }

  /** An axis may always let go: of its claim, or of its command. */
  lemma AxisReleases(log: Log, i: nat, initial: real, a: AxisState, b: AxisState, captured: nat, commanded: nat)
    requires AxisHolds(log, i, initial, a, captured, commanded) && b.prepared == a.prepared && b.ticket == a.ticket && b.position == a.position
    requires b.claimed ==> a.claimed && b.epoch == a.epoch && (b.command == a.command || b.command == Nothing)
    ensures AxisHolds(log, i, initial, b, captured, commanded)
  {
  }

  predicate Concerns(d: Deed, i: nat) {
    !d.Called? && !d.Checked? && !d.Permitted? && !d.Withdrawn? && d.axis == i
  }

  /** What happens elsewhere does not touch an axis. */
  lemma AxisStands(log: Log, d: Deed, i: nat, initial: real, a: AxisState, captured: nat, commanded: nat)
    requires AxisHolds(log, i, initial, a, captured, commanded) && !Concerns(d, i)
    ensures AxisHolds(log + [d], i, initial, a, captured, commanded)
  {
    var more := log + [d];
    PreparedStands(log, more, i, |log|);
    TicketStands(log, more, i, |log|);
    PositionStands(initial, log, more, i, |log|);
  }

  ghost predicate StageHolds(start: Guard, log: Log, g: Name, stage: Stage, marks: Marks) {
    match stage
    case Idle => true
    case Quiet => QuietAt(start, log, g, marks)
    case Ticketed(ticket) => TicketedAt(start, log, g, marks, ticket)
    case Current(ticket) => ConfirmedAt(start, log, g, marks, ticket)
    case Storing(ticket, _) => ClearedAt(start, log, g, marks, ticket)
  }

  lemma StageStands(start: Guard, log: Log, d: Deed, g: Name, stage: Stage, marks: Marks)
    requires StageHolds(start, log, g, stage, marks)
    ensures StageHolds(start, log + [d], g, stage, marks)
  {
    MarksStand(start, log, log + [d], g, marks, if stage.Ticketed? || stage.Current? || stage.Storing? then stage.ticket else 0);
  }

  function AxisOf(s: Session, claimed: bool, command: Command, plant: Plant): AxisState {
    AxisState(s.prepared, s.preparedEpoch, s.epoch, claimed, command, plant.position)
  }

  ghost predicate AxesHold(log: Log, initial: seq<real>, sessions: seq<Session>, claimed: seq<bool>, commands: seq<Command>,
                           physical: seq<Plant>, captured: seq<nat>, commanded: seq<nat>)
    requires |initial| == |sessions| == |claimed| == |commands| == |physical| == |captured| == |commanded|
  {
    forall i | 0 <= i < |initial| ::
      AxisHolds(log, i, initial[i], AxisOf(sessions[i], claimed[i], commands[i], physical[i]), captured[i], commanded[i])
  }

  ghost predicate StagesHold(start: Guard, log: Log, stages: map<Name, Stage>, marks: map<Name, Marks>)
    requires stages.Keys == marks.Keys
  {
    forall g | g in stages :: StageHolds(start, log, g, stages[g], marks[g])
  }

  /** One axis changed with the last deed, the others stand. */
  lemma AxisChanges(log: Log, initial: seq<real>, sessions: seq<Session>, claimed: seq<bool>, commands: seq<Command>,
                    physical: seq<Plant>, captured: seq<nat>, commanded: seq<nat>,
                    i: nat, s: Session, claim: bool, c: Command, p: Plant, cap: nat, com: nat)
    requires |initial| == |sessions| == |claimed| == |commands| == |physical| == |captured| == |commanded| && i < |initial|
    requires forall m | 0 <= m < |initial| && m != i ::
      AxisHolds(log, m, initial[m], AxisOf(sessions[m], claimed[m], commands[m], physical[m]), captured[m], commanded[m])
    requires AxisHolds(log, i, initial[i], AxisOf(s, claim, c, p), cap, com)
    ensures AxesHold(log, initial, sessions[i := s], claimed[i := claim], commands[i := c], physical[i := p],
                     captured[i := cap], commanded[i := com])
  {
  }

  lemma Unmoved<T>(s: seq<T>, i: nat)
    requires i < |s|
    ensures s[i := s[i]] == s
  {
  }

  lemma StageChanges(start: Guard, log: Log, stages: map<Name, Stage>, marks: map<Name, Marks>, g: Name, stage: Stage, m: Marks)
    requires stages.Keys == marks.Keys && g in stages
    requires StagesHold(start, log, stages, marks) && StageHolds(start, log, g, stage, m)
    ensures stages[g := stage].Keys == marks[g := m].Keys == stages.Keys
    ensures StagesHold(start, log, stages[g := stage], marks[g := m])
  {
  }

  /** A guard in order, as it is when the hardware starts. */
  type SoundGuard = g: Guard | GuardInvariant.Valid(g) ghost witness INITIAL

  ghost predicate Owned(g: Guard, owner: seq<Name>) {
    forall i | 0 <= i < |owner| :: owner[i] in g.groups
  }

  lemma {:induction false} GuardStaysInOrder(start: Guard, owner: seq<Name>, log: Log, k: nat)
    requires GuardInvariant.Valid(start) && Owned(start, owner) && k <= |log|
    ensures GuardInvariant.Valid(GuardAt(start, log, k)) && Owned(GuardAt(start, log, k), owner)
  {
    if k > 0 {
      GuardStaysInOrder(start, owner, log, k - 1);
      if log[k - 1].Called? {
        var before := GuardAt(start, log, k - 1);
        StepKeepsValid(before, log[k - 1].call, log[k - 1].now);
        forall i | 0 <= i < |owner| ensures owner[i] in GuardAt(start, log, k).groups {
          StepOnGroup(before, log[k - 1].call, log[k - 1].now, owner[i]);
        }
      }
    }
  }

  /** No axis holds an epoch that its group has not reached. */
  ghost predicate EpochsKnown(g: Guard, owner: seq<Name>, sessions: seq<Session>)
    requires |owner| == |sessions|
  {
    forall i | 0 <= i < |owner| :: owner[i] in g.groups && sessions[i].epoch <= g.groups[owner[i]].epoch
  }

  lemma EpochsStayKnown(start: Guard, owner: seq<Name>, sessions: seq<Session>, log: Log, d: Deed)
    requires |owner| == |sessions| && EpochsKnown(GuardAt(start, log, |log|), owner, sessions)
    ensures EpochsKnown(GuardAt(start, log + [d], |log + [d]|), owner, sessions)
  {
    hide Step;
    var g := GuardAt(start, log, |log|);
    GuardStands(start, log, log + [d], |log|);
    assert GuardAt(start, log + [d], |log + [d]|) == if d.Called? then Step(g, d.call, d.now) else g;
    hide GuardAt;
    if d.Called? {
      forall i | 0 <= i < |owner| ensures owner[i] in Step(g, d.call, d.now).groups
        && sessions[i].epoch <= Step(g, d.call, d.now).groups[owner[i]].epoch
      {
        StepOnGroup(g, d.call, d.now, owner[i]);
      }
    }
  }

  /** What a write makes of the plant of one axis. */
  function Written(permitted: bool, claimed: bool, command: Command, from: Plant, period: real): Plant
    requires period > 0.0
  {
    if !permitted then from.(velocity := 0.0)
    else if claimed then Applied(from, command, period)
    else from
  }

  class MockSystem {
    const domain: Domain
    const names: seq<Name>
    const owner: seq<Name>
    var active: bool
    var sessions: seq<Session>
    var claimed: seq<bool>
    var commands: seq<Command>
    var physical: seq<Plant>
    var offline: seq<bool>
    var stages: map<Name, Stage>
    ghost var log: Log
    ghost const start: SoundGuard
    ghost const initial: seq<real>
    ghost var capturedAt: seq<nat>
    ghost var commandedAt: seq<nat>
    ghost var marks: map<Name, Marks>

    ghost predicate Shaped()
      reads this
    {
      && |names| == |owner| == |sessions| == |claimed| == |commands| == |physical| == |offline|
      && |initial| == |capturedAt| == |commandedAt| == |owner|
      && marks.Keys == stages.Keys
      && stages.Keys == Members(owner)
    }

    ghost function Axis(i: nat): AxisState
      requires Shaped() && i < |owner|
      reads this
    {
      AxisOf(sessions[i], claimed[i], commands[i], physical[i])
    }

    /** The bookkeeping that does not look at the guard object. */
    ghost predicate Recorded()
      reads this
    {
      && Shaped() && Owned(start, owner) && AllSound(start, owner, log)
      && AxesHold(log, initial, sessions, claimed, commands, physical, capturedAt, commandedAt)
      && StagesHold(start, log, stages, marks)
      && EpochsKnown(GuardAt(start, log, |log|), owner, sessions)
    }

    ghost predicate Valid()
      reads this, domain
    {
      Recorded() && domain.View() == GuardAt(start, log, |log|)
    }

    constructor (domain: Domain, names: seq<Name>, owner: seq<Name>)
      requires GuardInvariant.Valid(domain.View()) && |names| == |owner|
      requires Owned(domain.View(), owner)
      ensures Valid() && this.domain == domain && this.owner == owner && log == [] && start == old(domain.View())
    {
      this.domain, this.names, this.owner := domain, names, owner;
      active := false;
      sessions := seq(|owner|, _ => Session(0, true, 0, false));
      claimed := seq(|owner|, _ => false);
      commands := seq(|owner|, _ => Nothing);
      physical := seq(|owner|, _ => Plant(0.0, 0.0));
      offline := seq(|owner|, _ => false);
      stages := map g | g in Members(owner) :: Idle;
      log, start := [], domain.View();
      initial := seq(|owner|, _ => 0.0);
      capturedAt, commandedAt := seq(|owner|, _ => 0), seq(|owner|, _ => 0);
      marks := map g | g in Members(owner) :: NO_MARKS;
    }

    // ---- Keeping the record ----

    /** A deed that concerns no axis. */
    ghost method Note(d: Deed)
      requires Valid() && Sound(start, owner, log + [d], |log|)
      requires d.Checked? || d.Permitted? || d.Withdrawn?
      modifies this`log
      ensures Valid() && log == old(log) + [d]
    {
      GuardStands(start, log, log + [d], |log|);
      Extend(d);
    }

    ghost method Extend(d: Deed)
      requires Recorded() && Sound(start, owner, log + [d], |log|)
      requires d.Called? || d.Checked? || d.Permitted? || d.Withdrawn?
      modifies this`log
      ensures Recorded() && log == old(log) + [d]
    {
      SoundGrows(start, owner, log, d);
      EpochsStayKnown(start, owner, sessions, log, d);
      forall i | 0 <= i < |owner| ensures AxisHolds(log + [d], i, initial[i], Axis(i), capturedAt[i], commandedAt[i]) {
        AxisStands(log, d, i, initial[i], Axis(i), capturedAt[i], commandedAt[i]);
      }
      forall g | g in stages ensures StageHolds(start, log + [d], g, stages[g], marks[g]) {
        StageStands(start, log, d, g, stages[g], marks[g]);
      }
      log := log + [d];
    }

    /** The guard object has just made this call. */
    ghost method NoteCall(c: Call, now: int)
      requires Recorded() && domain.View() == Step(GuardAt(start, log, |log|), c, now)
      modifies this`log
      ensures Valid() && log == old(log) + [Called(c, now)]
    {
      Extend(Called(c, now));
      GuardStands(start, old(log), log, |old(log)|);
    }

    // ---- The guard, as this component uses it ----

    method Look(n: Name) returns (g: Group)
      requires Valid() && n in owner
      modifies this`log, domain
      ensures Valid() && |log| == |old(log)| + 1 && old(log) <= log
      ensures n in domain.groups && g == domain.groups[n]
    {
      var now: int := *;
      var known;
      GuardStaysInOrder(start, owner, log, |log|);
      known, g := domain.Snapshot(n, now);
      NoteCall(Observe, now);
      GuardStaysInOrder(start, owner, log, |log|);
      assert n in domain.View().groups;
    }

    /** A permit for the captured epoch of axis `i`, later than the command it is about to apply. */
    ghost predicate MayOutput(i: nat, at: nat)
      reads this
    {
      && Shaped() && i < |owner| && at < |log| && log[at] == Permitted(i, sessions[i].epoch)
      && (claimed[i] && commands[i] != Nothing ==> commandedAt[i] < at)
    }

    lemma CommandIsOld(i: nat)
      requires Valid() && i < |owner|
      ensures claimed[i] && commands[i] != Nothing ==> commandedAt[i] < |log|
    {
      assert AxisHolds(log, i, initial[i], Axis(i), capturedAt[i], commandedAt[i]);
    }

    method AskPermit(i: nat) returns (permitted: bool, ghost now: int)
      requires Valid() && i < |owner|
      modifies this`log, domain
      ensures Valid() && log == old(log) + [Called(Observe, now)]
      ensures permitted == Permits(old(domain.View()), owner[i], sessions[i].epoch, now)
    {
      var clock: int := *;
      now := clock;
      GuardStaysInOrder(start, owner, log, |log|);
      permitted := domain.CheckPermit(owner[i], sessions[i].epoch, clock);
      NoteCall(Observe, now);
    }

    /** The check in front of a write, for the epoch captured by the mode switch. */
    method CheckPermit(i: nat) returns (permitted: bool, ghost now: int)
      requires Valid() && i < |owner|
      modifies this`log, domain
      ensures Valid() && |log| > |old(log)| && old(log) <= log
      ensures permitted == Permits(old(domain.View()), owner[i], sessions[i].epoch, now)
      ensures permitted ==> MayOutput(i, |log| - 1)
      ensures Answered(start, log, |old(log)|, |old(log)|, owner[i], sessions[i].epoch, permitted)
    {
      hide Step, Sound, Permits, Answered;
      CommandIsOld(i);
      ghost var before := log;
      GuardStaysInOrder(start, owner, log, |log|);
      permitted, now := AskPermit(i);
      AnsweredAt(start, before, log, owner[i], sessions[i].epoch, now, permitted);
      ghost var asked := log;
      if permitted {
        PermitIsRecorded(start, owner, before, i, sessions[i].epoch, now);
        Note(Permitted(i, sessions[i].epoch));
        AnswersStand(start, asked, log);
      }
    }

    method Inhibited() returns (inhibited: bool)
      requires Valid()
      modifies this`log, domain
      ensures Valid() && |log| == |old(log)| + 1 && old(log) <= log && inhibited == domain.View().inhibit
    {
      var now: int := *;
      GuardStaysInOrder(start, owner, log, |log|);
      inhibited := domain.GloballyInhibited(now);
      NoteCall(CheckInhibit, now);
    }

    /** After a deed of one axis, everything else is as before. */
    ghost predicate ElsewhereHolds(d: Deed, i: nat)
      requires Shaped()
      reads this
    {
      && (forall m | 0 <= m < |owner| && m != i :: AxisHolds(log + [d], m, initial[m], Axis(m), capturedAt[m], commandedAt[m]))
      && StagesHold(start, log + [d], stages, marks)
      && AllSound(start, owner, log + [d])
      && EpochsKnown(GuardAt(start, log + [d], |log + [d]|), owner, sessions)
    }

    lemma Elsewhere(d: Deed, i: nat)
      requires Recorded() && !d.Called? && d.axis == i && Sound(start, owner, log + [d], |log|)
      ensures ElsewhereHolds(d, i)
    {
      SoundGrows(start, owner, log, d);
      EpochsStayKnown(start, owner, sessions, log, d);
      forall m | 0 <= m < |owner| && m != i ensures AxisHolds(log + [d], m, initial[m], Axis(m), capturedAt[m], commandedAt[m]) {
        AxisStands(log, d, m, initial[m], Axis(m), capturedAt[m], commandedAt[m]);
      }
      forall g | g in stages ensures StageHolds(start, log + [d], g, stages[g], marks[g]) {
        StageStands(start, log, d, g, stages[g], marks[g]);
      }
    }

    /** A deed of axis `i` with the new picture of that axis: the whole record holds again. */
    lemma OneAxisActs(d: Deed, i: nat, s: Session, claim: bool, c: Command, p: Plant, cap: nat, com: nat)
      requires Recorded() && !d.Called? && d.axis == i < |owner| && Sound(start, owner, log + [d], |log|)
      requires AxisHolds(log + [d], i, initial[i], AxisOf(s, claim, c, p), cap, com)
      requires owner[i] in GuardAt(start, log, |log|).groups && s.epoch <= GuardAt(start, log, |log|).groups[owner[i]].epoch
      ensures var more := log + [d];
        && AllSound(start, owner, more) && StagesHold(start, more, stages, marks)
        && GuardAt(start, more, |more|) == GuardAt(start, log, |log|)
        && AxesHold(more, initial, sessions[i := s], claimed[i := claim], commands[i := c], physical[i := p],
                    capturedAt[i := cap], commandedAt[i := com])
        && EpochsKnown(GuardAt(start, more, |more|), owner, sessions[i := s])
    {
      hide Sound, Step;
      Elsewhere(d, i);
      GuardStands(start, log, log + [d], |log|);
      AxisChanges(log + [d], initial, sessions, claimed, commands, physical, capturedAt, commandedAt, i, s, claim, c, p, cap, com);
      hide AxisHolds, AllSound, StagesHold;
    }

    lemma EpochIsKnown(i: nat)
      requires Recorded() && i < |owner|
      ensures owner[i] in GuardAt(start, log, |log|).groups
      ensures sessions[i].epoch <= GuardAt(start, log, |log|).groups[owner[i]].epoch
    {
    }

    // ---- Everybody else ----

    lemma PreparationChanges(i: nat, to: Session, d: Deed)
      requires Valid() && i < |owner| && (d.Prepared? || d.Unprepared?) && d.axis == i && Sound(start, owner, log + [d], |log|)
      requires to.prepared == d.Prepared? && to.epoch == sessions[i].epoch
      requires to.preparedEpoch == if d.Prepared? then d.ticket else sessions[i].preparedEpoch
      ensures var more := log + [d];
        && AllSound(start, owner, more) && StagesHold(start, more, stages, marks)
        && GuardAt(start, more, |more|) == GuardAt(start, log, |log|)
        && AxesHold(more, initial, sessions[i := to], claimed, commands, physical, capturedAt, commandedAt)
        && EpochsKnown(GuardAt(start, more, |more|), owner, sessions[i := to])
    {
      assert AxisHolds(log, i, initial[i], Axis(i), capturedAt[i], commandedAt[i]);
      EpochIsKnown(i);
      hide Step, Sound, GuardAt, AllSound, AxesHold, StagesHold, EpochsKnown, AxisHolds;
      AxisPrepares(log, d, i, initial[i], Axis(i), capturedAt[i], commandedAt[i]);
      OneAxisActs(d, i, to, claimed[i], commands[i], physical[i], capturedAt[i], commandedAt[i]);
      Unmoved(claimed, i);
      Unmoved(commands, i);
      Unmoved(physical, i);
      Unmoved(capturedAt, i);
      Unmoved(commandedAt, i);
    }

    lemma MoveIsSound(i: nat, d: Deed, permitted: nat, period: real)
      requires Valid() && i < |owner| && claimed[i] && period > 0.0
      requires permitted < |log| && log[permitted] == Permitted(i, sessions[i].epoch)
      requires commands[i] != Nothing && commandedAt[i] < permitted
      requires d == Moved(i, capturedAt[i], commandedAt[i], permitted, physical[i], Applied(physical[i], commands[i], period), period)
      ensures Sound(start, owner, log + [d], |log|)
    {
      assert AxisHolds(log, i, initial[i], Axis(i), capturedAt[i], commandedAt[i]);
      hide AllSound, AxesHold, StagesHold, EpochsKnown, Step;
      assert Justified(log + [d], |log|);
    }

    lemma MovementHappens(i: nat, d: Deed)
      requires Valid() && i < |owner| && d.Moved? && d.axis == i && Sound(start, owner, log + [d], |log|)
      ensures var more := log + [d];
        && AllSound(start, owner, more) && StagesHold(start, more, stages, marks)
        && GuardAt(start, more, |more|) == GuardAt(start, log, |log|)
        && AxesHold(more, initial, sessions, claimed, commands, physical[i := d.to], capturedAt, commandedAt)
        && EpochsKnown(GuardAt(start, more, |more|), owner, sessions)
    {
      assert AxisHolds(log, i, initial[i], Axis(i), capturedAt[i], commandedAt[i]);
      EpochIsKnown(i);
      hide Step, Sound, GuardAt, AllSound, AxesHold, StagesHold, EpochsKnown, AxisHolds;
      AxisMoves(log, d, i, initial[i], Axis(i), capturedAt[i], commandedAt[i]);
      OneAxisActs(d, i, sessions[i], claimed[i], commands[i], d.to, capturedAt[i], commandedAt[i]);
      Unmoved(sessions, i);
      Unmoved(claimed, i);
      Unmoved(commands, i);
      Unmoved(capturedAt, i);
      Unmoved(commandedAt, i);
    }

    method SetPrepared(i: nat, to: Session, ghost d: Deed)
      requires Valid() && i < |owner| && (d.Prepared? || d.Unprepared?) && d.axis == i && Sound(start, owner, log + [d], |log|)
      requires to.prepared == d.Prepared? && to.epoch == sessions[i].epoch
      requires to.preparedEpoch == if d.Prepared? then d.ticket else sessions[i].preparedEpoch
      modifies this`log, this`sessions
      ensures Valid() && log == old(log) + [d] && sessions == old(sessions)[i := to]
    {
      hide Step, Sound, GuardAt, AllSound, AxesHold, StagesHold, EpochsKnown, AxisHolds;
      PreparationChanges(i, to, d);
      sessions := sessions[i := to];
      log := log + [d];
    }

    method SetStage(g: Name, stage: Stage, ghost m: Marks)
      requires Valid() && g in stages && StageHolds(start, log, g, stage, m)
      modifies this`stages, this`marks
      ensures Valid() && stages == old(stages)[g := stage]
    {
      hide Step, AllSound, AxesHold, StagesHold, EpochsKnown, GuardAt;
      StageChanges(start, log, stages, marks, g, stage, m);
      stages, marks := stages[g := stage], marks[g := m];
    }

    method Drop(g: Name)
      requires Valid() && g in stages
      modifies this`stages, this`marks
      ensures Valid() && stages == old(stages)[g := Idle]
    {
      SetStage(g, Idle, NO_MARKS);
    }

    lemma StageIsKnown(g: Name)
      requires Valid() && g in stages
      ensures StageHolds(start, log, g, stages[g], marks[g])
    {
      hide Step, AllSound, AxesHold, EpochsKnown, GuardAt, StageHolds;
    }

    /** A request is refused while the group is Armed or Running. */
    method AcceptPreparation(g: Name)
      requires Valid() && g in stages && stages[g].Idle?
      modifies this`log, this`stages, this`marks, domain
      ensures Valid() && old(log) <= log && StepTaken(g, old(stages), old(sessions))
    {
      hide Step, AllSound, AxesHold, StagesHold, EpochsKnown, GuardAt, StepTaken;
      assert g in owner;
      assert stages[g := Idle] == stages;
      if active {
        var seen := Look(g);
        if !seen.Live() { SetStage(g, Quiet, NO_MARKS.(quiet := |log|)); }
      } else {
        GuardIsKnown(g);
      }
      StepIs(g, old(stages), old(sessions));
    }

    method TakeTicket(g: Name)
      requires Valid() && g in stages && stages[g].Quiet?
      modifies this`log, this`stages, this`marks, domain
      ensures Valid() && old(log) <= log && StepTaken(g, old(stages), old(sessions))
    {
      hide Step, AllSound, AxesHold, StagesHold, EpochsKnown, GuardAt, StepTaken;
      assert g in owner;
      var seen := Look(g);
      StageIsKnown(g);
      assert EpochIs(domain.View(), g, seen.epoch);
      hide QuietAt, TicketedAt, EpochIs;
      TicketIsTaken(start, log, g, marks[g], seen.epoch);
      SetStage(g, Ticketed(seen.epoch), marks[g].(ticketed := |log|));
      StepIs(g, old(stages), old(sessions));
    }

    /** Long after the ticket was taken: has the group moved on? */
    method ConfirmTicket(g: Name)
      requires Valid() && g in stages && stages[g].Ticketed?
      modifies this`log, this`stages, this`marks, domain
      ensures Valid() && old(log) <= log && StepTaken(g, old(stages), old(sessions))
    {
      hide Step, AllSound, AxesHold, StagesHold, EpochsKnown, GuardAt, StepTaken;
      assert g in owner;
      if active {
        var seen := Look(g);
        if seen.epoch == stages[g].ticket {
          StageIsKnown(g);
          assert EpochIs(domain.View(), g, seen.epoch);
          hide TicketedAt, ConfirmedAt, EpochIs;
          TicketIsConfirmed(start, log, g, marks[g], seen.epoch);
          SetStage(g, Current(stages[g].ticket), marks[g].(confirmed := |log|));
        } else {
          Drop(g);
        }
      } else {
        GuardIsKnown(g);
        Drop(g);
      }
      StepIs(g, old(stages), old(sessions));
    }

    method ConfirmPermission(g: Name)
      requires Valid() && g in stages && stages[g].Current?
      modifies this`log, this`stages, this`marks, domain
      ensures Valid() && old(log) <= log && StepTaken(g, old(stages), old(sessions))
    {
      hide Step, AllSound, AxesHold, StagesHold, EpochsKnown, GuardAt, StepTaken;
      var inhibited := Inhibited();
      GuardIsKnown(g);
      if inhibited {
        Drop(g);
      } else {
        StageIsKnown(g);
        hide ConfirmedAt, ClearedAt;
        PreparationIsCleared(start, log, g, marks[g], stages[g].ticket);
        SetStage(g, Storing(stages[g].ticket, 0), marks[g].(cleared := |log|));
      }
      StepIs(g, old(stages), old(sessions));
    }

    method StoreNext(g: Name)
      requires Valid() && g in stages && stages[g].Storing?
      modifies this`log, this`sessions, this`stages, this`marks
      ensures Valid() && old(log) <= log && StepTaken(g, old(stages), old(sessions))
    {
      hide Step, AllSound, AxesHold, StagesHold, EpochsKnown, GuardAt, StepTaken;
      GuardIsKnown(g);
      var ticket, i := stages[g].ticket, stages[g].next;
      if i >= |owner| || (owner[i] == g && offline[i]) {
        Drop(g);
      } else {
        if owner[i] == g { StoreOn(g, i, ticket); }
        StageIsKnown(g);
        SetStage(g, Storing(ticket, i + 1), marks[g]);
      }
      StepIs(g, old(stages), old(sessions));
    }

    method StoreOn(g: Name, i: nat, ticket: nat)
      requires Valid() && g in stages && stages[g].Storing? && stages[g].ticket == ticket && i < |owner| && owner[i] == g
      modifies this`log, this`sessions
      ensures Valid() && old(log) <= log && SameSessions(old(sessions), sessions)
      ensures sessions == old(sessions)[i := old(sessions)[i].(preparedEpoch := ticket, prepared := true)]
    {
      hide Step, AllSound, AxesHold, StagesHold, EpochsKnown, GuardAt;
      ghost var d := Prepared(i, marks[g], ticket);
      StageIsKnown(g);
      PreparedIsSound(start, owner, log, d);
      SetPrepared(i, sessions[i].(preparedEpoch := ticket, prepared := true), d);
    }

    lemma GuardIsKnown(g: Name)
      requires Valid() && g in stages
      ensures g in domain.groups
    {
      hide Step, AllSound, AxesHold, StagesHold, EpochsKnown, GuardAt;
      assert g in owner;
      GuardStaysInOrder(start, owner, log, |log|);
      assert domain.View().groups == domain.groups;
    }

    /** The request of group `g` has taken its next step, judged by what the guard says now; storing prepares one
        axis of the group that is not offline, and nothing else touches a session. */
    ghost predicate StepTaken(g: Name, was: map<Name, Stage>, before: seq<Session>)
      reads this, domain
    {
      && Shaped() && g in was && |before| == |owner| && g in domain.groups
      && stages == was[g := NextStage(was[g], g, active, domain.groups[g], domain.globalInhibit, owner, offline)]
      && forall i | 0 <= i < |owner| ::
           sessions[i] == if was[g].Storing? && was[g].next == i && owner[i] == g && !offline[i]
                          then before[i].(preparedEpoch := was[g].ticket, prepared := true) else before[i]
    }

    lemma StepIs(g: Name, was: map<Name, Stage>, before: seq<Session>)
      requires Shaped() && g in was && |before| == |owner| && g in domain.groups
      requires stages == was[g := NextStage(was[g], g, active, domain.groups[g], domain.globalInhibit, owner, offline)]
      requires !was[g].Storing? ==> sessions == before
      requires was[g].Storing? && was[g].next < |owner| && owner[was[g].next] == g && !offline[was[g].next] ==>
        sessions == before[was[g].next := before[was[g].next].(preparedEpoch := was[g].ticket, prepared := true)]
      requires was[g].Storing? && !(was[g].next < |owner| && owner[was[g].next] == g && !offline[was[g].next]) ==>
        sessions == before
      ensures StepTaken(g, was, before)
    {
    }

    lemma StepKeepsSessions(g: Name, was: map<Name, Stage>, before: seq<Session>)
      requires StepTaken(g, was, before)
      ensures SameSessions(before, sessions)
      ensures !active ==> OnlyLate(owner, was, before, stages, sessions)
    {
      hide AllSound, AxesHold, StagesHold;
      if !active && !was[g].Idle? { OneRequestMoves(owner, was, before, stages, sessions, g); }
    }

    /** One step of the prepare service of group `g`: a request is taken up by an active component while the group is
        not live; it takes its ticket; it goes on only if the component is still active, the epoch is still that of
        the ticket, and nothing inhibits; then the axes of the group are prepared one by one, up to the first that
        is offline.  A refusal drops the request. */
    method PrepareStep(g: Name)
      requires Valid() && g in stages
      modifies this`log, this`sessions, this`stages, this`marks, domain
      ensures Valid() && old(log) <= log && SameSessions(old(sessions), sessions)
      ensures !active ==> OnlyLate(owner, old(stages), old(sessions), stages, sessions)
      ensures StepTaken(g, old(stages), old(sessions))
    {
      hide Step, AllSound, AxesHold, StagesHold, EpochsKnown, GuardAt, OnlyLate, SameSessions, StepTaken;
      match stages[g] {
        case Idle => AcceptPreparation(g);
        case Quiet => TakeTicket(g);
        case Ticketed(_) => ConfirmTicket(g);
        case Current(_) => ConfirmPermission(g);
        case Storing(_, _) => StoreNext(g);
      }
      StepKeepsSessions(g, old(stages), old(sessions));
    }

    method CallGuard(c: Call, now: int)
      requires Valid()
      modifies this`log, domain
      ensures Valid() && log == old(log) + [Called(c, now)]
    {
      GuardStaysInOrder(start, owner, log, |log|);
      domain.Perform(c, now);
      NoteCall(c, now);
    }

    method Fail(i: nat, fault: bool)
      requires Valid() && i < |offline|
      modifies this`offline
      ensures Valid()
    {
      offline := offline[i := fault];
    }

    /** One thing that another thread does: a guard call of any kind, a failure, or a step of a prepare service. */
    method InterfereOnce()
      requires Valid()
      modifies this`log, this`sessions, this`offline, this`stages, this`marks, domain
      ensures Valid() && old(log) <= log && SameSessions(old(sessions), sessions)
      ensures !active ==> OnlyLate(owner, old(stages), old(sessions), stages, sessions)
    {
      hide Step, AllSound, AxesHold, StagesHold, EpochsKnown, GuardAt;
      if * {
        var c: Call := *;
        var now: int := *;
        CallGuard(c, now);
      } else if * {
        var i: int := *;
        var fault: bool := *;
        if 0 <= i < |offline| { Fail(i, fault); }
      } else if g :| g in stages {
        PrepareStep(g);
      }
    }

    /** Any number of things that other threads do. */
    method Interfere()
      requires Valid()
      modifies this`log, this`sessions, this`offline, this`stages, this`marks, domain
      ensures Valid() && old(log) <= log && SameSessions(old(sessions), sessions)
      ensures !active ==> OnlyLate(owner, old(stages), old(sessions), stages, sessions)
    {
      hide Step, AllSound, AxesHold, StagesHold, EpochsKnown, GuardAt, SameSessions, OnlyLate;
      var steps: nat :| 0 <= steps;
      NothingHappened(owner, stages, sessions);
      for k := 0 to steps
        invariant Valid() && old(log) <= log && SameSessions(old(sessions), sessions)
        invariant !active ==> OnlyLate(owner, old(stages), old(sessions), stages, sessions)
      {
        ghost var was, before := stages, sessions;
        InterfereOnce();
        SameSessionsOn(old(sessions), before, sessions);
        if !active { OnlyLateOn(owner, old(stages), old(sessions), was, before, stages, sessions); }
      }
    }

    // ---- The controller-manager thread ----

    /** Controllers write their commands between read and write. */
    method SetCommand(i: nat, command: Command)
      requires Valid() && i < |owner|
      modifies this`log, this`commands, this`commandedAt
      ensures Valid() && commands == old(commands)[i := command] && log == old(log) + [Commanded(i, command)]
    {
      hide Step, AllSound, StagesHold, EpochsKnown;
      ghost var d := Commanded(i, command);
      Elsewhere(d, i);
      GuardStands(start, log, log + [d], |log|);
      AxisIsCommanded(log, d, i, initial[i], Axis(i), capturedAt[i], commandedAt[i]);
      commands, commandedAt := commands[i := command], commandedAt[i := |log|];
      log := log + [d];
    }

    /** May axis `i` be started?  Its preparation is read first, then the state of its group. */
    method MayStart(i: nat) returns (accepted: bool, ghost check: nat)
      requires Valid() && i < |owner|
      modifies this`log, this`sessions, this`offline, this`stages, this`marks, domain
      ensures Valid() && old(log) <= log && SameSessions(old(sessions), sessions)
      ensures accepted ==> CheckedFor(log, |old(log)|, check, i)
      ensures !accepted ==> Declined(start, log, owner[i], i, |old(log)|)
    {
      hide Step, AllSound, StagesHold, EpochsKnown, GuardAt;
      check := 0;
      var prepared := sessions[i].prepared;
      ghost var loaded := |log|;
      ghost var earlier := log;
      assert Axis(i).prepared == PreparedAt(log, i, loaded);
      Interfere();
      PreparedStands(earlier, log, i, loaded);
      if !prepared { return false, check; }
      assert owner[i] in owner;
      var g := Look(owner[i]);
      if g.state != Armed {
        assert !GroupIs(GuardAt(start, log, |log|), owner[i], Armed);
        return false, check;
      }
      ghost var d := Checked(i, loaded);
      PreparedStands(earlier, log + [d], i, loaded);
      GuardStands(start, log, log + [d], |log|);
      check := |log|;
      Note(d);
      return true, check;
    }

    method Release(i: nat)
      requires Valid() && i < |owner|
      modifies this`claimed, this`commands, this`sessions, this`physical
      ensures Valid() && claimed == old(claimed)[i := false] && commands == old(commands)[i := Nothing]
      ensures sessions == old(sessions)[i := old(sessions)[i].(permissionLost := true)]
      ensures physical == old(physical)[i := old(physical)[i].(velocity := 0.0)]
    {
      hide Step, AllSound, StagesHold, GuardAt;
      ghost var before := Axis(i);
      claimed, commands := claimed[i := false], commands[i := Nothing];
      sessions := sessions[i := sessions[i].(permissionLost := true)];
      physical := physical[i := physical[i].(velocity := 0.0)];
      AxisReleases(log, i, initial[i], before, Axis(i), capturedAt[i], commandedAt[i]);
      assert forall m | 0 <= m < |owner| && m != i :: Axis(m) == old(Axis(m));
    }

    /** Axis `i` starts a session: its old command is forgotten and the epoch of its group captured. */
    method Capture(i: nat, ghost check: nat)
      requires Valid() && i < |owner| && check < |log| && log[check].Checked? && log[check].axis == i
      modifies this`log, this`claimed, this`commands, this`sessions, this`capturedAt, domain
      ensures Valid() && old(log) <= log && claimed == old(claimed)[i := true] && commands == old(commands)[i := Nothing]
      ensures log[|log| - 1] == Captured(i, check, sessions[i].epoch) && !sessions[i].permissionLost
      ensures forall m | 0 <= m < |owner| && m != i :: sessions[m] == old(sessions)[m]
    {
      assert owner[i] in owner;
      var g := Look(owner[i]);
      assert EpochIs(domain.View(), owner[i], g.epoch);
      StartSession(i, g.epoch, check);
    }

    lemma SessionStarts(i: nat, epoch: nat, check: nat)
      requires Valid() && i < |owner| && check < |log| && log[check].Checked? && log[check].axis == i
      requires EpochIs(domain.View(), owner[i], epoch)
      ensures var more := log + [Captured(i, check, epoch)];
        && AllSound(start, owner, more) && StagesHold(start, more, stages, marks)
        && GuardAt(start, more, |more|) == GuardAt(start, log, |log|)
        && AxesHold(more, initial, sessions[i := sessions[i].(permissionLost := false, epoch := epoch)], claimed[i := true],
                    commands[i := Nothing], physical, capturedAt[i := |log|], commandedAt)
        && EpochsKnown(GuardAt(start, more, |more|), owner, sessions[i := sessions[i].(permissionLost := false, epoch := epoch)])
    {
      var d := Captured(i, check, epoch);
      CapturedIsSound(start, owner, log, d);
      assert AxisHolds(log, i, initial[i], Axis(i), capturedAt[i], commandedAt[i]);
      hide Step, Sound, GuardAt, AllSound, AxesHold, StagesHold, EpochsKnown, AxisHolds;
      AxisIsCaptured(log, d, i, initial[i], Axis(i), capturedAt[i], commandedAt[i]);
      OneAxisActs(d, i, sessions[i].(permissionLost := false, epoch := epoch), true, Nothing, physical[i], |log|, commandedAt[i]);
      Unmoved(physical, i);
      Unmoved(commandedAt, i);
    }

    method StartSession(i: nat, epoch: nat, ghost check: nat)
      requires Valid() && i < |owner| && check < |log| && log[check].Checked? && log[check].axis == i
      requires EpochIs(domain.View(), owner[i], epoch)
      modifies this`log, this`claimed, this`commands, this`sessions, this`capturedAt
      ensures Valid() && log == old(log) + [Captured(i, check, epoch)]
      ensures sessions == old(sessions)[i := old(sessions)[i].(permissionLost := false, epoch := epoch)]
      ensures claimed == old(claimed)[i := true] && commands == old(commands)[i := Nothing]
    {
      hide Step, Sound, GuardAt, AllSound, AxesHold, StagesHold, EpochsKnown, AxisHolds, EpochIs;
      SessionStarts(i, epoch, check);
      claimed, commands, capturedAt := claimed[i := true], commands[i := Nothing], capturedAt[i := |log|];
      sessions := sessions[i := sessions[i].(permissionLost := false, epoch := epoch)];
      log := log + [Captured(i, check, epoch)];
    }

    /** All started axes are prepared, with their group Armed, and none is started twice. */
    method CheckStarts(starts: seq<nat>) returns (accepted: bool, ghost checks: seq<nat>)
      requires Valid()
      modifies this`log, this`sessions, this`offline, this`stages, this`marks, domain
      ensures Valid() && old(log) <= log && |checks| == |owner|
      ensures accepted ==> AllChecked(log, |old(log)|, checks, |owner|, starts)
      ensures !accepted ==> exists i | 0 <= i < |owner| :: Spoils(start, log, owner[i], i, |old(log)|, starts)
    {
      checks, accepted := seq(|owner|, _ => 0), true;
      for i := 0 to |owner|
        invariant Valid() && old(log) <= log && |checks| == |owner|
        invariant AllChecked(log, |old(log)|, checks, i, starts)
      {
        if i in starts {
          ghost var from := |log|;
          if Twice(starts, i) {
            assert Spoils(start, log, owner[i], i, |old(log)|, starts);
            return false, checks;
          }
          var may, check := MayStart(i);
          if !may {
            DeclinedBefore(start, log, owner[i], i, |old(log)|, from);
            assert Spoils(start, log, owner[i], i, |old(log)|, starts);
            return false, checks;
          }
          checks := checks[i := check];
        }
      }
    }

    method SwitchAxis(i: nat, starting: bool, stopping: bool, ghost check: nat)
      requires Valid() && i < |owner| && (starting ==> CheckedFor(log, 0, check, i))
      modifies this, domain
      ensures Valid() && old(log) <= log
      ensures Switched(i, starting, stopping, old(claimed), old(commands), old(physical))
      ensures forall m | 0 <= m < |owner| && m != i ::
        && claimed[m] == old(claimed)[m] && commands[m] == old(commands)[m] && physical[m] == old(physical)[m]
        && sessions[m].epoch == old(sessions)[m].epoch && sessions[m].permissionLost == old(sessions)[m].permissionLost
      ensures starting ==> CapturedFor(log, i, check, sessions[i].epoch)
    {
      hide Step, AllSound, AxesHold, StagesHold, EpochsKnown, GuardAt;
      ghost var before := log;
      Interfere();
      if stopping { Release(i); }
      if starting {
        assert log[check] == before[check];
        Capture(i, check);
        assert log[|log| - 1] == Captured(i, check, sessions[i].epoch);
      }
    }

    /** Switch the started axes on and the stopped ones off, or refuse everything.  An axis starts only
        prepared and with its group Armed: `checks` says where in the record this was established, and its
        epoch is captured after that. */
    method PerformModeSwitch(starts: seq<nat>, stops: seq<nat>) returns (accepted: bool, ghost checks: seq<nat>)
      requires Valid()
      modifies this, domain
      ensures Valid() && old(log) <= log && |checks| == |owner|
      ensures !accepted ==> claimed == old(claimed) && commands == old(commands) && physical == old(physical)
      ensures !accepted ==> exists i | 0 <= i < |owner| :: Spoils(start, log, owner[i], i, |old(log)|, starts)
      ensures accepted ==> AllChecked(log, |old(log)|, checks, |owner|, starts)
      ensures accepted ==> forall i | 0 <= i < |owner| && i in starts :: CapturedFor(log, i, checks[i], sessions[i].epoch)
      ensures accepted ==> forall i | 0 <= i < |owner| ::
        && claimed[i] == (i in starts || (old(claimed)[i] && i !in stops))
        && commands[i] == (if i in starts || i in stops then Nothing else old(commands)[i])
        && physical[i].position == old(physical)[i].position
        && physical[i].velocity == (if i in stops then 0.0 else old(physical)[i].velocity)
        && (i in starts ==> !sessions[i].permissionLost)
    {
      accepted, checks := CheckStarts(starts);
      if accepted { SwitchAll(starts, stops, checks, |old(log)|); }
    }

    method SwitchAll(starts: seq<nat>, stops: seq<nat>, ghost checks: seq<nat>, ghost from: nat)
      requires Valid() && |checks| == |owner| && AllChecked(log, from, checks, |owner|, starts)
      modifies this, domain
      ensures Valid() && old(log) <= log && AllChecked(log, from, checks, |owner|, starts)
      ensures forall i | 0 <= i < |owner| && i in starts :: CapturedFor(log, i, checks[i], sessions[i].epoch)
      ensures forall i | 0 <= i < |owner| :: Switched(i, i in starts, i in stops, old(claimed), old(commands), old(physical))
    {
      hide Step, AllSound, AxesHold, StagesHold, EpochsKnown, GuardAt;
      for i := 0 to |owner|
        invariant Valid() && old(log) <= log
        invariant forall m | 0 <= m < i && m in starts :: CapturedFor(log, m, checks[m], sessions[m].epoch)
        invariant forall m | 0 <= m < i :: Switched(m, m in starts, m in stops, old(claimed), old(commands), old(physical))
        invariant forall m | i <= m < |owner| ::
          claimed[m] == old(claimed)[m] && commands[m] == old(commands)[m] && physical[m] == old(physical)[m]
      {
        ghost var before := log;
        if i in starts { assert CheckedFor(old(log), from, checks[i], i); }
        SwitchAxis(i, i in starts, i in stops, checks[i]);
        CapturesStand(before, log);
      }
    }

    /** After a refused write: is the preparation of axis `i` gone as well?  The group is looked at first,
        and the other reads follow one by one, with other threads in between.  `r` says when each read was
        made; the answer is a plain function of these reads. */
    method PreparationRevoked(i: nat) returns (revoked: bool, ghost r: Reading)
      requires Valid() && i < |owner|
      modifies this`log, this`sessions, this`offline, this`stages, this`marks, domain
      ensures Valid() && old(log) <= log && SameSessions(old(sessions), sessions)
      ensures |old(log)| <= r.seen && InOrder(r, log)
      ensures revoked <==> Revokes(start, log, owner[i], i, sessions[i], r)
      ensures revoked ==> Sound(start, owner, log + [Withdrawn(i, r.seen, sessions[i].epoch)], |log|)
    {
      hide Step, AllSound, AxesHold, StagesHold, GuardAt;
      assert owner[i] in owner;
      var g := Look(owner[i]);
      ghost var looked := log;
      assert sessions[i].epoch <= g.epoch;
      if g.state == Armed || (g.state == Running && g.epoch == sessions[i].epoch) {
        r := Reading(|log|, |log|, |log|, |log|);
        return false, r;
      }
      assert Dead(domain.View(), owner[i], sessions[i].epoch);
      revoked, r := PreparationStale(i, g.epoch);
      r := r.(seen := |looked|);
      GuardStands(start, looked, log, |looked|);
      WithdrawnIsSound(start, owner, looked, log, i, sessions[i].epoch);
    }

    lemma SessionIsKnown(i: nat)
      requires Valid() && i < |owner|
      ensures sessions[i].prepared == PreparedAt(log, i, |log|) && sessions[i].preparedEpoch == TicketAt(log, i, |log|)
    {
      hide Step, AllSound, StagesHold, EpochsKnown, GuardAt, PreparedAt, TicketAt;
      assert AxisHolds(log, i, initial[i], Axis(i), capturedAt[i], commandedAt[i]);
    }

    /** The reads behind the snapshot. */
    method PreparationStale(i: nat, epoch: nat) returns (stale: bool, ghost r: Reading)
      requires Valid() && i < |owner|
      modifies this`log, this`sessions, this`offline, this`stages, this`marks, domain
      ensures Valid() && old(log) <= log && SameSessions(old(sessions), sessions)
      ensures |old(log)| == r.seen && InOrder(r, log)
      ensures stale <==> Stale(start, log, i, sessions[i], epoch, r)
    {
      hide Step, AllSound, AxesHold, StagesHold, EpochsKnown, GuardAt, PreparedAt, TicketAt;
      ghost var seen := |log|;
      Interfere();
      r := Reading(seen, |log|, |log|, |log|);
      if !sessions[i].permissionLost { return true, r; }
      var prepared := sessions[i].prepared;
      ghost var first := log;
      SessionIsKnown(i);
      Interfere();
      PreparedStands(first, log, i, |first|);
      if !prepared { return false, r; }
      var inhibited := Inhibited();
      ghost var second := log;
      r := r.(asked := |log|, stored := |log|);
      Interfere();
      PreparedStands(first, log, i, |first|);
      GuardStands(start, second, log, |second|);
      if inhibited { return true, r; }
      SessionIsKnown(i);
      r := r.(stored := |log|);
      return sessions[i].preparedEpoch != epoch, r;
    }

    /** Take the preparation and the claim of axis `i` away. */
    method Withdraw(i: nat, ghost seen: nat)
      requires Valid() && i < |owner| && Sound(start, owner, log + [Withdrawn(i, seen, sessions[i].epoch)], |log|)
      modifies this`log, this`sessions, this`claimed
      ensures Valid() && old(log) <= log && claimed == old(claimed)[i := false]
      ensures sessions == old(sessions)[i := old(sessions)[i].(permissionLost := true, prepared := false)]
    {
      hide Step, AllSound, AxesHold, StagesHold, EpochsKnown, GuardAt;
      Note(Withdrawn(i, seen, sessions[i].epoch));
      SetPrepared(i, sessions[i].(permissionLost := true, prepared := false), Unprepared(i));
      Unclaim(i);
    }

    method Unclaim(i: nat)
      requires Valid() && i < |owner|
      modifies this`claimed
      ensures Valid() && claimed == old(claimed)[i := false]
    {
      AxisReleases(log, i, initial[i], Axis(i), Axis(i).(claimed := false), capturedAt[i], commandedAt[i]);
      claimed := claimed[i := false];
    }

    method Forget(i: nat)
      requires Valid() && i < |owner|
      modifies this`commands
      ensures Valid() && commands == old(commands)[i := Nothing]
    {
      AxisReleases(log, i, initial[i], Axis(i), Axis(i).(command := Nothing), capturedAt[i], commandedAt[i]);
      commands := commands[i := Nothing];
    }

    /** Stop the output of axis `i` and forget its command. */
    method Stop(i: nat)
      requires Valid() && i < |owner|
      modifies this`commands, this`physical
      ensures Valid() && commands == old(commands)[i := Nothing]
      ensures physical == old(physical)[i := old(physical)[i].(velocity := 0.0)]
    {
      Forget(i);
      physical := physical[i := physical[i].(velocity := 0.0)];
    }

    /** Apply the command of a claimed axis under the permit at position `permitted` of the record. */
    method Move(i: nat, period: real, ghost permitted: nat)
      requires Valid() && i < |owner| && claimed[i] && period > 0.0
      requires permitted < |log| && log[permitted] == Permitted(i, sessions[i].epoch)
      requires commands[i] != Nothing ==> commandedAt[i] < permitted
      modifies this`log, this`physical
      ensures Valid() && old(log) <= log
      ensures physical == old(physical)[i := Applied(old(physical)[i], commands[i], period)]
    {
      hide Step, GuardAt, AllSound, StagesHold, EpochsKnown, Justified, Sound;
      var to := Applied(physical[i], commands[i], period);
      if commands[i] != Nothing {
        ghost var d := Moved(i, capturedAt[i], commandedAt[i], permitted, physical[i], to, period);
        hide AxesHold, AxisHolds, Applied;
        MoveIsSound(i, d, permitted, period);
        MovementHappens(i, d);
        log := log + [d];
      }
      physical := physical[i := to];
    }

    method MarkPermission(i: nat, lost: bool)
      requires Valid() && i < |owner|
      modifies this`sessions
      ensures Valid() && sessions == old(sessions)[i := old(sessions)[i].(permissionLost := lost)]
    {
      AxisReleases(log, i, initial[i], Axis(i), Axis(i), capturedAt[i], commandedAt[i]);
      sessions := sessions[i := sessions[i].(permissionLost := lost)];
    }

    /** A refused write stops the axis, and takes its preparation and its claim exactly when the reads that follow
        say so. */
    method Refuse(i: nat) returns (ghost r: Reading)
      requires Valid() && i < |owner|
      modifies this`log, this`sessions, this`claimed, this`commands, this`physical, this`offline, this`stages,
               this`marks, domain
      ensures Valid() && old(log) <= log && commands == old(commands)[i := Nothing]
      ensures physical == old(physical)[i := old(physical)[i].(velocity := 0.0)] && claimed == old(claimed)[i := claimed[i]]
      ensures Refused(start, log, owner[i], i, |old(log)|, r, old(sessions)[i], old(claimed)[i], sessions[i], claimed[i])
      ensures SameButLost(old(sessions), sessions, i)
    {
      hide Step, AllSound, AxesHold, StagesHold, EpochsKnown, GuardAt, Domain.View, Revokes, Permits;
      Stop(i);
      var revoked;
      revoked, r := PreparationRevoked(i);
      ghost var looked, read := log, sessions;
      Interfere();
      if revoked {
        WithdrawnStaysSound(start, owner, looked, log, i, r.seen, sessions[i].epoch);
        Withdraw(i, r.seen);
      }
      RevokesAlike(start, looked, owner[i], i, old(sessions)[i], read[i], r);
      RevokesStands(start, looked, log, owner[i], i, old(sessions)[i], r);
    }

    /** Write one axis: nothing moves without a permit for its captured epoch, and what the guard permits is done.
        Other threads may act before the check, between the check and the movement, and between the reads of a
        refusal.  `at` is the position of the check, if there is one, and `r` says when the reads were made. */
    method WriteAxis(i: nat, period: real) returns (permitted: bool, ghost at: nat, ghost r: Reading)
      requires Valid() && i < |owner| && period > 0.0
      modifies this`log, this`sessions, this`claimed, this`commands, this`physical, this`offline, this`stages,
               this`marks, domain
      ensures Valid() && old(log) <= log && (permitted ==> active)
      ensures active ==> Answered(start, log, |old(log)|, at, owner[i], old(sessions)[i].epoch, permitted)
      ensures claimed == old(claimed)[i := claimed[i]] && (permitted ==> claimed == old(claimed) && !sessions[i].permissionLost)
      ensures !permitted ==> Refused(start, log, owner[i], i, |old(log)|, r, old(sessions)[i], old(claimed)[i], sessions[i], claimed[i])
      ensures SameButLost(old(sessions), sessions, i) && (claimed[i] ==> old(claimed)[i])
      ensures commands == if permitted then old(commands) else old(commands)[i := Nothing]
      ensures physical == old(physical)[i := Written(permitted, old(claimed)[i], old(commands)[i], old(physical)[i], period)]
    {
      hide Step, AllSound, AxesHold, StagesHold, EpochsKnown, GuardAt, Revokes, Answered, Written;
      ghost var from, given := |log|, sessions;
      Interfere();
      ghost var later, mid := |log|, sessions;
      permitted, at, r := WriteNow(i, period);
      if active { AnsweredEarlier(start, log, from, later, at, owner[i], given[i].epoch, permitted); }
      if !permitted {
        RevokesAlike(start, log, owner[i], i, given[i], mid[i], r);
        RefusedEarlier(start, log, owner[i], i, from, later, r, given[i], old(claimed)[i], sessions[i], claimed[i]);
      }
    }

    method WriteNow(i: nat, period: real) returns (permitted: bool, ghost at: nat, ghost r: Reading)
      requires Valid() && i < |owner| && period > 0.0
      modifies this`log, this`sessions, this`claimed, this`commands, this`physical, this`offline, this`stages,
               this`marks, domain
      ensures Valid() && old(log) <= log && (permitted ==> active)
      ensures active ==> Answered(start, log, |old(log)|, at, owner[i], old(sessions)[i].epoch, permitted)
      ensures claimed == old(claimed)[i := claimed[i]] && (permitted ==> claimed == old(claimed) && !sessions[i].permissionLost)
      ensures !permitted ==> Refused(start, log, owner[i], i, |old(log)|, r, old(sessions)[i], old(claimed)[i], sessions[i], claimed[i])
      ensures SameButLost(old(sessions), sessions, i) && (claimed[i] ==> old(claimed)[i])
      ensures commands == if permitted then old(commands) else old(commands)[i := Nothing]
      ensures physical == old(physical)[i := Written(permitted, old(claimed)[i], old(commands)[i], old(physical)[i], period)]
    {
      hide Step, AllSound, AxesHold, StagesHold, EpochsKnown, GuardAt, MayOutput, Answered, Permits, SameButLost, Revokes;
      permitted, at, r := false, |log|, Reading(0, 0, 0, 0);
      if active {
        ghost var now;
        permitted, now := CheckPermit(i);
      }
      ghost var checked := log;
      if permitted { Output(i, period, |log| - 1); } else { r := Refuse(i); }
      AnswersStand(start, checked, log);
      RefusedEarlier(start, log, owner[i], i, at, |checked|, r, old(sessions)[i], old(claimed)[i], sessions[i], claimed[i]);
    }

    /** Under a permit; the guard may already have changed its mind, but not about this cycle. */
    method Output(i: nat, period: real, ghost at: nat)
      requires Valid() && i < |owner| && period > 0.0 && MayOutput(i, at)
      modifies this`log, this`sessions, this`offline, this`stages, this`marks, this`physical, domain
      ensures Valid() && old(log) <= log
      ensures physical == old(physical)[i := if claimed[i] then Applied(old(physical)[i], commands[i], period) else old(physical)[i]]
      ensures !sessions[i].permissionLost && SameButLost(old(sessions), sessions, i)
    {
      hide Step, AllSound, AxesHold, StagesHold, EpochsKnown, GuardAt;
      ghost var before := log;
      MarkPermission(i, false);
      Interfere();
      assert log[at] == before[at];
      if claimed[i] { Move(i, period, at); }
    }

    /** Every axis in turn: of an active component exactly those move for which the guard, asked in this write at
        position `at[i]` of the record, finds the group Running at the captured epoch, the lease in order and
        nothing that restricts the group. */
    method Write(period: real) returns (permitted: seq<bool>, ghost at: seq<nat>)
      requires Valid() && period > 0.0
      modifies this`log, this`sessions, this`claimed, this`commands, this`physical, this`offline, this`stages,
               this`marks, domain
      ensures Valid() && old(log) <= log && |permitted| == |at| == |owner|
      ensures forall i | 0 <= i < |owner| ::
        physical[i] == Written(permitted[i], old(claimed)[i], old(commands)[i], old(physical)[i], period)
      ensures forall i | 0 <= i < |owner| :: commands[i] == if permitted[i] then old(commands)[i] else Nothing
      ensures forall i | 0 <= i < |owner| :: (claimed[i] ==> old(claimed)[i]) && (permitted[i] ==> claimed[i] == old(claimed)[i])
      ensures forall i | 0 <= i < |owner| :: sessions[i].epoch == old(sessions)[i].epoch
      ensures !active ==> forall i | 0 <= i < |owner| :: !permitted[i]
      ensures active ==> forall i | 0 <= i < |owner| ::
        Answered(start, log, |old(log)|, at[i], owner[i], old(sessions)[i].epoch, permitted[i])
    {
      hide Step, AllSound, AxesHold, StagesHold, EpochsKnown, GuardAt, Domain.View, Answered, Written, Refused, Revokes, InOrder;
      permitted, at := [], [];
      for i := 0 to |owner|
        invariant Valid() && old(log) <= log && |permitted| == |at| == i
        invariant forall m | 0 <= m < i ::
          physical[m] == Written(permitted[m], old(claimed)[m], old(commands)[m], old(physical)[m], period)
        invariant forall m | 0 <= m < i :: commands[m] == if permitted[m] then old(commands)[m] else Nothing
        invariant forall m | 0 <= m < i :: (claimed[m] ==> old(claimed)[m]) && (permitted[m] ==> claimed[m] == old(claimed)[m])
        invariant forall m | i <= m < |owner| ::
          claimed[m] == old(claimed)[m] && commands[m] == old(commands)[m] && physical[m] == old(physical)[m]
        invariant forall m | 0 <= m < |owner| :: sessions[m].epoch == old(sessions)[m].epoch
        invariant !active ==> forall m | 0 <= m < i :: !permitted[m]
        invariant active ==> forall m | 0 <= m < i ::
          Answered(start, log, |old(log)|, at[m], owner[m], old(sessions)[m].epoch, permitted[m])
      {
        ghost var before := log;
        ghost var where, r;
        var verdict;
        verdict, where, r := WriteAxis(i, period);
        AnswersStand(start, before, log);
        if active { AnsweredEarlier(start, log, |old(log)|, |before|, where, owner[i], old(sessions)[i].epoch, verdict); }
        permitted, at := permitted + [verdict], at + [where];
      }
    }

    /** One axis: its feedback counts as readiness only once it is prepared, while the component is active and the
        axis is not offline.  Otherwise the guard learns that it is not ready. */
    method ReadAxis(i: nat, reason: Name) returns (ghost now: int)
      requires Valid() && i < |owner|
      modifies this`log, domain
      ensures Valid() && log == old(log) + [Called(Feedback(names[i], sessions[i].prepared, active && !offline[i], reason), now)]
      ensures names[i] in domain.axes ==> (domain.axes[names[i]].ready <==> sessions[i].prepared && active && !offline[i])
    {
      hide Step, AllSound, AxesHold, StagesHold, EpochsKnown, GuardAt, StageHolds;
      var clock: int := *;
      now := clock;
      FeedbackIsReadiness(start, owner, log, names[i], sessions[i].prepared, active && !offline[i], reason, now);
      if sessions[i].prepared {
        CallGuard(ReportAxis(names[i], active && !offline[i], reason, NONE, NONE), clock);
      } else {
        CallGuard(UnprepareAxis(names[i]), clock);
      }
    }

    /** Report the readiness of every prepared axis, and take back the readiness of the others: `at` says where in
        the record. */
    method Read(reason: Name) returns (ghost at: seq<nat>)
      requires Valid()
      modifies this`log, this`sessions, this`offline, this`stages, this`marks, domain
      ensures Valid() && old(log) <= log && SameSessions(old(sessions), sessions) && |at| == |owner|
      ensures forall i | 0 <= i < |owner| :: Fed(log, |old(log)|, at[i], i, names[i], active)
    {
      hide Step, AllSound, AxesHold, StagesHold, EpochsKnown, GuardAt, SameSessions, Fed, PreparedAt;
      at := [];
      SameSessionsAtFirst(sessions);
      for i := 0 to |owner|
        invariant Valid() && old(log) <= log && SameSessions(old(sessions), sessions) && |at| == i
        invariant forall m | 0 <= m < i :: Fed(log, |old(log)|, at[m], m, names[m], active)
      {
        ghost var before, given := log, sessions;
        Interfere();
        SameSessionsOn(old(sessions), given, sessions);
        ghost var interfered := log;
        SessionIsKnown(i);
        ghost var now := ReadAxis(i, reason);
        FedNow(interfered, log, |old(log)|, i, names[i], sessions[i].prepared, active && !offline[i], reason, now, active);
        FedStands(before, log);
        at := at + [|interfered|];
      }
    }

    method Activate()
      requires Valid()
      modifies this`active, this`sessions
      ensures Valid() && active
      ensures forall i | 0 <= i < |owner| :: sessions[i] == old(sessions)[i].(permissionLost := true)
    {
      for i := 0 to |owner|
        invariant Valid() && forall m | 0 <= m < i :: sessions[m] == old(sessions)[m].(permissionLost := true)
        invariant forall m | i <= m < |owner| :: sessions[m] == old(sessions)[m]
      {
        MarkPermission(i, true);
      }
      active := true;
    }

    /** Deactivation takes every preparation back, here and at the guard, and forgets every command.  An
        axis can be prepared again at the end only by a request that was late when deactivation began. */
    method Deactivate()
      requires Valid()
      modifies this, domain
      ensures Valid() && old(log) <= log && !active
      ensures forall i | 0 <= i < |owner| :: commands[i] == Nothing
      ensures TakenUpTo(log, |old(log)|, owner, names, old(stages), sessions, |owner|)
    {
      hide AllSound, AxesHold, StagesHold, EpochsKnown, GuardAt, Step, TakenUpTo;
      active := false;
      UnprepareAll();
      ForgetAll();
    }

    method ForgetAll()
      requires Valid()
      modifies this`commands
      ensures Valid() && forall i | 0 <= i < |owner| :: commands[i] == Nothing
    {
      hide AllSound, AxesHold, StagesHold, EpochsKnown, GuardAt, Step;
      for i := 0 to |owner|
        invariant Valid() && forall m | 0 <= m < i :: commands[m] == Nothing
      {
        Forget(i);
      }
    }

    method UnprepareAll()
      requires Valid() && !active
      modifies this`log, this`sessions, this`offline, this`stages, this`marks, domain
      ensures Valid() && old(log) <= log && TakenUpTo(log, |old(log)|, owner, names, old(stages), sessions, |owner|)
    {
      hide AllSound, AxesHold, StagesHold, EpochsKnown, GuardAt, Step;
      hide TakenBack, OnlyLate;
      for i := 0 to |owner|
        invariant Valid() && old(log) <= log
        invariant NoneLater(old(stages), stages)
        invariant TakenUpTo(log, |old(log)|, owner, names, old(stages), sessions, i)
      {
        UnprepareOne(i, |old(log)|, old(stages));
      }
    }

    method UnprepareOne(i: nat, ghost from: nat, ghost was: map<Name, Stage>)
      requires Valid() && !active && i < |owner| && from <= |log| && NoneLater(was, stages)
      requires TakenUpTo(log, from, owner, names, was, sessions, i)
      modifies this`log, this`sessions, this`offline, this`stages, this`marks, domain
      ensures Valid() && old(log) <= log && NoneLater(was, stages)
      ensures TakenUpTo(log, from, owner, names, was, sessions, i + 1)
    {
      hide AllSound, AxesHold, StagesHold, EpochsKnown, GuardAt, Step;
      hide TakenBack, TakenUpTo, OnlyLate, NoneLater, SameSessions;
      ghost var earlier, first, given := log, stages, sessions;
      Unprepare(i);
      ghost var taken, mid, after := log, stages, sessions;
      Interfere();
      OneMoreTaken(earlier, taken, log, from, owner, names, was, first, given, mid, after, stages, sessions, i);
    }

    /** The preparation of an axis is taken back here, and then at the guard; other threads may act in between. */
    method Unprepare(i: nat)
      requires Valid() && !active && i < |owner|
      modifies this`log, this`sessions, this`offline, this`stages, this`marks, domain
      ensures Valid() && old(log) <= log && TakenBack(log, |old(log)|, i, names[i])
      ensures OnlyLate(owner, old(stages), old(sessions)[i := old(sessions)[i].(prepared := false)], stages, sessions)
    {
      hide AllSound, AxesHold, StagesHold, EpochsKnown, GuardAt, Step, OnlyLate, SameSessions, TakenBack;
      var now: int := *;
      ghost var before := log;
      SetPrepared(i, sessions[i].(prepared := false), Unprepared(i));
      Interfere();
      JustTakenBack(before, log, i, names[i], now);
      CallGuard(UnprepareAxis(names[i]), now);
    }

    ghost predicate Switched(i: nat, starting: bool, stopping: bool, claims: seq<bool>, given: seq<Command>, plants: seq<Plant>)
      requires Shaped() && i < |owner| && |claims| == |given| == |plants| == |owner|
      reads this
    {
      && claimed[i] == (starting || (claims[i] && !stopping))
      && commands[i] == (if starting || stopping then Nothing else given[i])
      && physical[i] == (if stopping then plants[i].(velocity := 0.0) else plants[i])
      && (starting ==> !sessions[i].permissionLost)
    }
  }

  /** The group is Running at epoch `e`, the owner lease, if one is required, lasts beyond now, and nothing that is
      latched or unready reaches the group. */
  ghost predicate MayMove(s: Guard, n: Name, e: nat, now: int) {
    && n in s.groups && s.groups[n].state == Running && s.groups[n].epoch == e
    && (s.ownerRequired ==> now < s.ownerDeadline)
    && GuardFields.Unrestricted(s, n, now)
  }

  /** The permission check at position `at`, not before `from`, gave this answer to group `n` for epoch `e`, and the
      guard of that moment stands behind it. */
  ghost predicate Answered(start: Guard, log: Log, from: nat, at: nat, n: Name, e: nat, permitted: bool) {
    && from <= at < |log| && log[at].Called? && log[at].call == Observe
    && (permitted <==> MayMove(GuardAt(start, log, at), n, e, log[at].now))
  }

  lemma AnsweredAt(start: Guard, before: Log, log: Log, n: Name, e: nat, now: int, permitted: bool)
    requires log == before + [Called(Observe, now)] && permitted == Permits(GuardAt(start, before, |before|), n, e, now)
    requires GuardInvariant.Valid(GuardAt(start, before, |before|))
    ensures Answered(start, log, |before|, |before|, n, e, permitted)
  {
    hide Permits, GuardAt, GuardFields.Unrestricted, GuardInvariant.Valid;
    GuardFields.PermitsInFields(GuardAt(start, before, |before|), n, e, now);
    GuardStands(start, before, log, |before|);
  }

  lemma AnswersStand(start: Guard, before: Log, log: Log)
    requires before <= log
    ensures forall from: nat, at: nat, n: Name, e: nat, permitted: bool |
              Answered(start, before, from, at, n, e, permitted) :: Answered(start, log, from, at, n, e, permitted)
  {
    hide GuardAt, MayMove;
    forall from: nat, at: nat, n: Name, e: nat, permitted: bool | Answered(start, before, from, at, n, e, permitted)
      ensures Answered(start, log, from, at, n, e, permitted)
    {
      GuardStands(start, before, log, at);
    }
  }

  /** What a refused write found and took away: reading `r`, not before `from`, of session `s`. */
  ghost predicate Refused(start: Guard, log: Log, n: Name, i: nat, from: nat, r: Reading, s: Session, claimed: bool, t: Session, claims: bool) {
    && InOrder(r, log) && from <= r.seen
    && claims == (claimed && !Revokes(start, log, n, i, s, r))
    && t.permissionLost == (s.permissionLost || Revokes(start, log, n, i, s, r))
  }

  /** Nothing but the preparation, and the loss of permission of axis `i`, may have changed. */
  predicate SameButLost(a: seq<Session>, b: seq<Session>, i: nat) {
    |a| == |b| && forall m | 0 <= m < |a| :: a[m].epoch == b[m].epoch && (m != i ==> a[m].permissionLost == b[m].permissionLost)
  }

  lemma AnsweredEarlier(start: Guard, log: Log, from: nat, later: nat, at: nat, n: Name, e: nat, permitted: bool)
    requires from <= later && Answered(start, log, later, at, n, e, permitted)
    ensures Answered(start, log, from, at, n, e, permitted)
  {
  }

  lemma RefusedEarlier(start: Guard, log: Log, n: Name, i: nat, from: nat, later: nat, r: Reading, s: Session, claimed: bool, t: Session, claims: bool)
    requires from <= later
    ensures Refused(start, log, n, i, later, r, s, claimed, t, claims) ==> Refused(start, log, n, i, from, r, s, claimed, t, claims)
  {
    hide Revokes;
  }

  /** Only the epoch of the session, and whether its permission was lost, matter. */
  lemma RevokesAlike(start: Guard, log: Log, n: Name, i: nat, s: Session, t: Session, r: Reading)
    requires InOrder(r, log) && s.epoch == t.epoch && s.permissionLost == t.permissionLost
    ensures Revokes(start, log, n, i, s, r) == Revokes(start, log, n, i, t, r)
  {
    hide GuardAt, PreparedAt, TicketAt;
  }

  /** The preparation is revoked if and only if the look showed the group neither Armed nor Running at the epoch of the
      axis, and the later reads find the permission not lost before, or the axis prepared while the guard inhibits,
      or prepared for another epoch than the one that the look showed. */
  lemma RevokesInFields(start: Guard, log: Log, n: Name, i: nat, s: Session, r: Reading)
    requires InOrder(r, log) && n in GuardAt(start, log, r.seen).groups
    ensures Revokes(start, log, n, i, s, r) <==>
      var g := GuardAt(start, log, r.seen).groups[n];
      && g.state != Armed && (g.state != Running || g.epoch != s.epoch)
      && (s.permissionLost ==>
            PreparedAt(log, i, r.loaded) && (GuardAt(start, log, r.asked).inhibit || TicketAt(log, i, r.stored) != g.epoch))
  {
    hide GuardAt, PreparedAt, TicketAt;
  }

  /** An axis is prepared exactly when a preparation of it is on record and nothing has taken it back since; the ticket
      is that of the latest preparation. */
  lemma {:induction false} PreparedInFields(log: Log, i: nat, k: nat)
    requires k <= |log|
    ensures PreparedAt(log, i, k) <==>
      exists p | 0 <= p < k :: log[p].Prepared? && log[p].axis == i && forall m | p < m < k && log[m].Unprepared? :: log[m].axis != i
    ensures forall p: nat | p < k && log[p].Prepared? && log[p].axis == i
              && (forall m | p < m < k && log[m].Prepared? :: log[m].axis != i) :: TicketAt(log, i, k) == log[p].ticket
  {
    if k > 0 {
      PreparedInFields(log, i, k - 1);
      if PreparedAt(log, i, k) {
        if log[k - 1].Prepared? && log[k - 1].axis == i {
        } else {
          var p :| 0 <= p < k - 1 && log[p].Prepared? && log[p].axis == i && forall m | p < m < k - 1 && log[m].Unprepared? :: log[m].axis != i;
          assert forall m | p < m < k && log[m].Unprepared? :: log[m].axis != i;
        }
      }
      if p :| 0 <= p < k && log[p].Prepared? && log[p].axis == i && forall m | p < m < k && log[m].Unprepared? :: log[m].axis != i {
        if p < k - 1 { assert PreparedAt(log, i, k - 1); }
      }
    }
  }

  /** What a write makes of the plant: without a permit it stands still; a permitted, claimed axis goes to a commanded
      position, or on at a commanded velocity, or stands still; an unclaimed one is left alone. */
  lemma WrittenInFields(permitted: bool, claimed: bool, command: Command, from: Plant, period: real)
    requires period > 0.0
    ensures var to := Written(permitted, claimed, command, from, period);
      && (!permitted ==> to.position == from.position && to.velocity == 0.0)
      && (permitted && !claimed ==> to == from)
      && (permitted && claimed ==>
            match command
            case Position(x) => to.position == x && to.velocity * period == x - from.position
            case Velocity(v) => to.velocity == v && to.position - from.position == v * period
            case Nothing => to.position == from.position && to.velocity == 0.0)
  {
  }

  lemma RevokesStands(start: Guard, before: Log, log: Log, n: Name, i: nat, s: Session, r: Reading)
    requires before <= log && InOrder(r, before)
    ensures Revokes(start, before, n, i, s, r) == Revokes(start, log, n, i, s, r)
  {
    GuardStands(start, before, log, r.seen);
    PreparedStands(before, log, i, r.loaded);
    GuardStands(start, before, log, r.asked);
    TicketStands(before, log, i, r.stored);
    hide GuardAt, PreparedAt, TicketAt;
  }

  /** The call that feedback of an axis makes. */
  function Feedback(name: Name, prepared: bool, ready: bool, reason: Name): Call {
    if prepared then ReportAxis(name, ready, reason, NONE, NONE) else UnprepareAxis(name)
  }

  lemma FeedbackIsReadiness(start: Guard, owner: seq<Name>, log: Log, name: Name, prepared: bool, ready: bool, reason: Name, now: int)
    requires GuardInvariant.Valid(start) && Owned(start, owner)
    ensures var t := Step(GuardAt(start, log, |log|), Feedback(name, prepared, ready, reason), now);
      && GuardAt(start, log + [Called(Feedback(name, prepared, ready, reason), now)], |log| + 1) == t
      && (name in t.axes ==> (t.axes[name].ready <==> prepared && ready))
  {
    var c := Feedback(name, prepared, ready, reason);
    GuardStaysInOrder(start, owner, log, |log|);
    GuardStands(start, log, log + [Called(c, now)], |log|);
    assert GuardAt(start, log + [Called(c, now)], |log| + 1) == Step(GuardAt(start, log, |log|), c, now);
    hide Step, GuardInvariant.Valid, GuardAt, Owned;
    GuardTables.TablesInFields(GuardAt(start, log, |log|), c, now);
    hide GuardTables.EvidenceAfter, GuardTables.EventsAfter, GuardTables.RulesAfter;
  }

  /** At position `at` the guard heard of axis `i`: feedback if it was prepared at that moment, otherwise that it is
      not prepared. */
  ghost predicate Fed(log: Log, from: nat, at: nat, i: nat, name: Name, active: bool) {
    && from <= at < |log| && log[at].Called?
    && (if PreparedAt(log, i, at) then log[at].call.ReportAxis? && log[at].call.axis == name && (log[at].call.ready ==> active)
        else log[at].call == UnprepareAxis(name))
  }

  lemma FedNow(before: Log, log: Log, from: nat, i: nat, name: Name, prepared: bool, ready: bool, reason: Name, now: int, active: bool)
    requires from <= |before| && log == before + [Called(Feedback(name, prepared, ready, reason), now)]
    requires prepared == PreparedAt(before, i, |before|) && (ready ==> active)
    ensures Fed(log, from, |before|, i, name, active)
  {
    PreparedStands(before, log, i, |before|);
    hide PreparedAt;
  }

  lemma FedStands(before: Log, log: Log)
    requires before <= log
    ensures forall from: nat, at: nat, i: nat, name: Name, active: bool | Fed(before, from, at, i, name, active) ::
              Fed(log, from, at, i, name, active)
  {
    forall from: nat, at: nat, i: nat, name: Name, active: bool | Fed(before, from, at, i, name, active)
      ensures Fed(log, from, at, i, name, active)
    {
      PreparedStands(before, log, i, at);
    }
  }

  lemma SameSessionsAtFirst(a: seq<Session>)
    ensures SameSessions(a, a)
  {
  }

  lemma PermitIsRecorded(start: Guard, owner: seq<Name>, log: Log, i: nat, e: nat, now: int)
    requires i < |owner| && Permits(GuardAt(start, log, |log|), owner[i], e, now)
    ensures Sound(start, owner, log + [Called(Observe, now)] + [Permitted(i, e)], |log| + 1)
  {
    var more := log + [Called(Observe, now)] + [Permitted(i, e)];
    GuardStands(start, log, more, |log|);
    assert more[|log|] == Called(Observe, now);
  }

  /** At position `check`, not before `from`, axis `i` was found ready to start. */
  ghost predicate CheckedFor(log: Log, from: nat, check: nat, i: nat) {
    check < |log| && log[check].Checked? && log[check].axis == i && from <= log[check].loaded <= check
  }

  ghost predicate AllChecked(log: Log, from: nat, checks: seq<nat>, n: nat, starts: seq<nat>) {
    n <= |checks| && forall m | 0 <= m < n && m in starts :: !Twice(starts, m) && CheckedFor(log, from, checks[m], m)
  }

  /** The epoch of axis `i` was captured after its check. */
  ghost predicate CapturedFor(log: Log, i: nat, check: nat, epoch: nat) {
    exists c | check < c < |log| :: log[c] == Captured(i, check, epoch)
  }

  lemma CapturesStand(before: Log, log: Log)
    requires before <= log
    ensures forall i: nat, check: nat, epoch: nat | CapturedFor(before, i, check, epoch) :: CapturedFor(log, i, check, epoch)
  {
    forall i: nat, check: nat, epoch: nat | CapturedFor(before, i, check, epoch) ensures CapturedFor(log, i, check, epoch) {
      var c :| check < c < |before| && before[c] == Captured(i, check, epoch);
      assert log[c] == Captured(i, check, epoch);
    }
  }

  /** At some moment from `from` on, axis `i` was not prepared, or its group not Armed. */
  ghost predicate Declined(start: Guard, log: Log, n: Name, i: nat, from: nat) {
    exists p | from <= p <= |log| :: !PreparedAt(log, i, p) || !GroupIs(GuardAt(start, log, p), n, Armed)
  }

  lemma DeclinedBefore(start: Guard, log: Log, n: Name, i: nat, from: nat, later: nat)
    requires Declined(start, log, n, i, later) && from <= later
    ensures Declined(start, log, n, i, from)
  {
  }

  /** Axis `i` is the reason why a switch is refused. */
  ghost predicate Spoils(start: Guard, log: Log, n: Name, i: nat, from: nat, starts: seq<nat>) {
    i in starts && (Twice(starts, i) || Declined(start, log, n, i, from))
  }

  /** A prepare request that has passed its last look at the component: it will store its result even if the
      component has become inactive. */
  predicate Late(stage: Stage) {
    stage.Current? || stage.Storing?
  }

  /** From one moment to another no request has become late, and an axis has been prepared only by a
      request that was late before. */
  ghost predicate OnlyLate(owner: seq<Name>, was: map<Name, Stage>, before: seq<Session>, stages: map<Name, Stage>, sessions: seq<Session>) {
    && |before| == |sessions| == |owner| && was.Keys == stages.Keys
    && (forall g | g in stages && Late(stages[g]) :: Late(was[g]))
    && forall i | 0 <= i < |owner| && sessions[i].prepared && !before[i].prepared :: owner[i] in was && Late(was[owner[i]])
  }

  lemma NothingHappened(owner: seq<Name>, stages: map<Name, Stage>, sessions: seq<Session>)
    requires |owner| == |sessions|
    ensures SameSessions(sessions, sessions) && OnlyLate(owner, stages, sessions, stages, sessions)
  {
  }

  lemma SameSessionsOn(a: seq<Session>, b: seq<Session>, c: seq<Session>)
    requires SameSessions(a, b) && SameSessions(b, c)
    ensures SameSessions(a, c)
  {
  }

  /** A request that moves on is late only if it was, and prepares only axes of its own group. */
  lemma OneRequestMoves(owner: seq<Name>, was: map<Name, Stage>, before: seq<Session>, stages: map<Name, Stage>,
                        sessions: seq<Session>, g: Name)
    requires |owner| == |before| == |sessions| && g in was && g in stages && stages == was[g := stages[g]]
    requires Late(stages[g]) ==> Late(was[g])
    requires forall i | 0 <= i < |owner| && (owner[i] != g || !Late(was[g])) :: sessions[i] == before[i]
    ensures OnlyLate(owner, was, before, stages, sessions)
  {
  }

  lemma OnlyLateOn(owner: seq<Name>, first: map<Name, Stage>, given: seq<Session>, was: map<Name, Stage>, before: seq<Session>,
                   stages: map<Name, Stage>, sessions: seq<Session>)
    requires OnlyLate(owner, first, given, was, before) && OnlyLate(owner, was, before, stages, sessions)
    ensures OnlyLate(owner, first, given, stages, sessions)
  {
  }

  ghost predicate NoneLater(was: map<Name, Stage>, stages: map<Name, Stage>) {
    was.Keys == stages.Keys && forall g | g in stages && Late(stages[g]) :: Late(was[g])
  }

  /** Axis `i` is not prepared, or the request of its group was late. */
  ghost predicate EarnedLate(owner: seq<Name>, was: map<Name, Stage>, sessions: seq<Session>, i: nat)
    requires i < |owner| == |sessions|
  {
    sessions[i].prepared ==> owner[i] in was && Late(was[owner[i]])
  }

  lemma LateStands(owner: seq<Name>, was: map<Name, Stage>, mid: map<Name, Stage>, before: seq<Session>,
                   stages: map<Name, Stage>, sessions: seq<Session>)
    requires NoneLater(was, mid) && OnlyLate(owner, mid, before, stages, sessions)
    ensures NoneLater(was, stages)
    ensures forall m | 0 <= m < |owner| :: EarnedLate(owner, was, before, m) ==> EarnedLate(owner, was, sessions, m)
  {
  }

  /** From position `from` on, the preparation of axis `i` was taken back, and after that at the guard. */
  ghost predicate TakenBack(log: Log, from: nat, i: nat, name: Name) {
    exists w, c | from <= w < c < |log| :: log[w] == Unprepared(i) && log[c].Called? && log[c].call == UnprepareAxis(name)
  }

  lemma JustTakenBack(before: Log, log: Log, i: nat, name: Name, now: int)
    requires before + [Unprepared(i)] <= log
    ensures TakenBack(log + [Called(UnprepareAxis(name), now)], |before|, i, name)
  {
    var more := log + [Called(UnprepareAxis(name), now)];
    assert more[|before|] == (before + [Unprepared(i)])[|before|];
    assert more[|log|] == Called(UnprepareAxis(name), now);
  }

  lemma TakenBackStands(earlier: Log, taken: Log, log: Log, late: nat, from: nat)
    requires earlier <= taken <= log && from <= late
    ensures forall i: nat, name: Name | TakenBack(earlier, from, i, name) || TakenBack(taken, late, i, name) :: TakenBack(log, from, i, name)
  {
    forall i: nat, name: Name | TakenBack(earlier, from, i, name) || TakenBack(taken, late, i, name) ensures TakenBack(log, from, i, name) {
      var w, c :| from <= w < c < |log| && log[w] == Unprepared(i) && log[c].Called? && log[c].call == UnprepareAxis(name);
    }
  }

  /** The first `n` axes have been taken back, and are prepared at most by a request that was late. */
  ghost predicate TakenUpTo(log: Log, from: nat, owner: seq<Name>, names: seq<Name>, was: map<Name, Stage>, sessions: seq<Session>,
                            n: nat) {
    && n <= |owner| == |names| == |sessions|
    && (forall m: nat | m < n :: TakenBack(log, from, m, names[m]))
    && (forall m: nat | m < n :: EarnedLate(owner, was, sessions, m))
  }

  lemma OneMoreTaken(earlier: Log, taken: Log, log: Log, from: nat, owner: seq<Name>, names: seq<Name>, was: map<Name, Stage>,
                     first: map<Name, Stage>, given: seq<Session>, mid: map<Name, Stage>, after: seq<Session>,
                     stages: map<Name, Stage>, sessions: seq<Session>, i: nat)
    requires TakenUpTo(earlier, from, owner, names, was, given, i) && i < |owner| && from <= |earlier|
    requires earlier <= taken <= log && TakenBack(taken, |earlier|, i, names[i])
    requires NoneLater(was, first) && OnlyLate(owner, first, given[i := given[i].(prepared := false)], mid, after)
    requires OnlyLate(owner, mid, after, stages, sessions)
    ensures TakenUpTo(log, from, owner, names, was, sessions, i + 1) && NoneLater(was, stages)
  {
    var before := given[i := given[i].(prepared := false)];
    forall m: nat | m <= i ensures EarnedLate(owner, was, before, m) {
      if m < i { assert EarnedLate(owner, was, given, m); }
    }
    hide EarnedLate, TakenBack, OnlyLate, NoneLater;
    LateStands(owner, was, first, before, mid, after);
    LateStands(owner, was, mid, after, stages, sessions);
    TakenBackStands(earlier, taken, log, |earlier|, from);
  }

  /** When a refused write looked at the group, at the preparation, at the inhibit, and at the ticket. */
  datatype Reading = Reading(seen: nat, loaded: nat, asked: nat, stored: nat)

  ghost predicate InOrder(r: Reading, log: Log) {
    r.seen <= r.loaded <= r.asked <= r.stored <= |log|
  }

  /** The preparation of axis `i` no longer counts: its permission had not been lost before, or it is
      prepared but inhibited, or prepared for another epoch than the one that the snapshot showed. */
  ghost predicate Stale(start: Guard, log: Log, i: nat, s: Session, epoch: nat, r: Reading)
    requires InOrder(r, log)
  {
    || !s.permissionLost
    || (PreparedAt(log, i, r.loaded) && (GuardAt(start, log, r.asked).inhibit || TicketAt(log, i, r.stored) != epoch))
  }

  /** The snapshot showed the group neither Armed nor Running at the epoch of the axis, and the preparation
      no longer counts. */
  ghost predicate Revokes(start: Guard, log: Log, n: Name, i: nat, s: Session, r: Reading)
    requires InOrder(r, log)
  {
    var g := GuardAt(start, log, r.seen);
    && n in g.groups && g.groups[n].state != Armed && !RunningAt(g, n, s.epoch)
    && Stale(start, log, i, s, g.groups[n].epoch, r)
  }

  lemma WithdrawnStaysSound(start: Guard, owner: seq<Name>, looked: Log, log: Log, i: nat, seen: nat, epoch: nat)
    requires looked <= log && Sound(start, owner, looked + [Withdrawn(i, seen, epoch)], |looked|) && seen <= |looked|
    ensures Sound(start, owner, log + [Withdrawn(i, seen, epoch)], |log|)
  {
    GuardStands(start, looked, looked + [Withdrawn(i, seen, epoch)], seen);
    GuardStands(start, looked, log + [Withdrawn(i, seen, epoch)], seen);
  }

  lemma WithdrawnIsSound(start: Guard, owner: seq<Name>, looked: Log, log: Log, i: nat, epoch: nat)
    requires i < |owner| && looked <= log && Dead(GuardAt(start, looked, |looked|), owner[i], epoch)
    ensures Sound(start, owner, log + [Withdrawn(i, |looked|, epoch)], |log|)
  {
    GuardStands(start, looked, log + [Withdrawn(i, |looked|, epoch)], |looked|);
  }

  predicate Twice(s: seq<nat>, i: nat) {
    exists a, b | 0 <= a < b < |s| :: s[a] == i && s[b] == i
  }

  lemma CapturedIsSound(start: Guard, owner: seq<Name>, log: Log, d: Deed)
    requires d.Captured? && d.axis < |owner| && d.check < |log| && log[d.check].Checked? && log[d.check].axis == d.axis
    requires EpochIs(GuardAt(start, log, |log|), owner[d.axis], d.epoch)
    ensures Sound(start, owner, log + [d], |log|)
  {
    GuardStands(start, log, log + [d], |log|);
  }

  lemma PreparedIsSound(start: Guard, owner: seq<Name>, log: Log, d: Deed)
    requires d.Prepared? && d.axis < |owner| && ClearedAt(start, log, owner[d.axis], d.marks, d.ticket)
    ensures Sound(start, owner, log + [d], |log|)
  {
    MarksStand(start, log, log + [d], owner[d.axis], d.marks, d.ticket);
  }

  /** Other threads may prepare an axis, but do not touch the rest of its session. */
  predicate SameSessions(a: seq<Session>, b: seq<Session>) {
    |a| == |b| && forall i | 0 <= i < |a| :: a[i].epoch == b[i].epoch && a[i].permissionLost == b[i].permissionLost
  }

  function Members(owner: seq<Name>): set<Name> {
    set n | n in owner
  }
}
