/** The record of everything that happens around the grouped actuators: guard calls of any thread,
    mode switches, commands, permits and movements, in the order in which they happen. */
module MotionLog {
  import opened Closure
  import opened Guard
  import opened GuardSessions

  /** A command buffer: a finite position, a finite velocity, or neither (the source writes NaN). */
  datatype Command = Position(value: real) | Velocity(value: real) | Nothing

  datatype Plant = Plant(position: real, velocity: real)

  /** When a preparation was accepted, took its ticket, found it still current, and found no inhibit. */
  datatype Marks = Marks(quiet: nat, ticketed: nat, confirmed: nat, cleared: nat)

  /** One thing that happened.  Numbers of earlier deeds say what a deed rests on. */
  datatype Deed =
    | Called(call: Call, now: int)
    | Prepared(axis: nat, marks: Marks, ticket: nat)
    | Unprepared(axis: nat)
    | Checked(axis: nat, loaded: nat)
    | Captured(axis: nat, check: nat, epoch: nat)
    | Commanded(axis: nat, command: Command)
    | Permitted(axis: nat, epoch: nat)
    | Moved(axis: nat, captured: nat, commanded: nat, permitted: nat, from: Plant, to: Plant, period: real)
    | Withdrawn(axis: nat, seen: nat, epoch: nat)

  type Log = seq<Deed>

  /** The guard after the first `k` deeds. */
  ghost function GuardAt(start: Guard, log: Log, k: nat): Guard
    requires k <= |log|
  {
    if k == 0 then start
    else if log[k - 1].Called? then Step(GuardAt(start, log, k - 1), log[k - 1].call, log[k - 1].now)
    else GuardAt(start, log, k - 1)
  }

  /** Is axis `i` prepared after the first `k` deeds? */
  ghost predicate PreparedAt(log: Log, i: nat, k: nat)
    requires k <= |log|
  {
    k > 0 && if log[k - 1].Prepared? && log[k - 1].axis == i then true
             else if log[k - 1].Unprepared? && log[k - 1].axis == i then false
             else PreparedAt(log, i, k - 1)
  }

  /** The ticket of the latest preparation of axis `i` among the first `k` deeds. */
  ghost function TicketAt(log: Log, i: nat, k: nat): nat
    requires k <= |log|
  {
    if k == 0 then 0
    else if log[k - 1].Prepared? && log[k - 1].axis == i then log[k - 1].ticket
    else TicketAt(log, i, k - 1)
  }

  /** Where the plant of axis `i` stands after the first `k` deeds: only movements change it. */
  ghost function PositionAt(initial: real, log: Log, i: nat, k: nat): real
    requires k <= |log|
  {
    if k == 0 then initial
    else if log[k - 1].Moved? && log[k - 1].axis == i then log[k - 1].to.position
    else PositionAt(initial, log, i, k - 1)
  }

  function Applied(p: Plant, c: Command, period: real): Plant
    requires period > 0.0
  {
    match c
    case Position(x) => Plant(x, (x - p.position) / period)
    case Velocity(v) => Plant(p.position + v * period, v)
    case Nothing => p.(velocity := 0.0)
  }

  /** A movement rests on the latest capture and the latest command of its axis, in that order, and on a
      permit for exactly the captured epoch. */
  ghost predicate Justified(log: Log, k: nat)
    requires k < |log| && log[k].Moved?
  {
    var d := log[k];
    && d.captured < d.commanded < d.permitted < k
    && log[d.captured].Captured? && log[d.captured].axis == d.axis
    && log[d.commanded].Commanded? && log[d.commanded].axis == d.axis
    && log[d.permitted] == Permitted(d.axis, log[d.captured].epoch)
    && (forall m | d.captured < m < k && log[m].Captured? :: log[m].axis != d.axis)
    && (forall m | d.commanded < m < k && log[m].Commanded? :: log[m].axis != d.axis)
    && d.period > 0.0 && d.to == Applied(d.from, log[d.commanded].command, d.period)
  }

  ghost predicate GroupIs(g: Guard, n: Name, state: State) {
    n in g.groups && g.groups[n].state == state
  }

  ghost predicate EpochIs(g: Guard, n: Name, e: nat) {
    n in g.groups && g.groups[n].epoch == e
  }

  /** Not Armed, and the epoch `e` has been used up. */
  ghost predicate Dead(g: Guard, n: Name, e: nat) {
    n in g.groups && g.groups[n].state != Armed && Spent(g.groups[n], e)
  }

  /** A preparation of group `n`, as far as `marks` says that it has come. */
  ghost predicate QuietAt(start: Guard, log: Log, n: Name, marks: Marks) {
    && marks.quiet <= |log| && n in GuardAt(start, log, marks.quiet).groups
    && !GuardAt(start, log, marks.quiet).groups[n].Live()
  }

  ghost predicate TicketedAt(start: Guard, log: Log, n: Name, marks: Marks, ticket: nat) {
    QuietAt(start, log, n, marks) && marks.quiet <= marks.ticketed <= |log| && EpochIs(GuardAt(start, log, marks.ticketed), n, ticket)
  }

  ghost predicate ConfirmedAt(start: Guard, log: Log, n: Name, marks: Marks, ticket: nat) {
    && TicketedAt(start, log, n, marks, ticket) && marks.ticketed <= marks.confirmed <= |log|
    && EpochIs(GuardAt(start, log, marks.confirmed), n, ticket)
  }

  ghost predicate ClearedAt(start: Guard, log: Log, n: Name, marks: Marks, ticket: nat) {
    && ConfirmedAt(start, log, n, marks, ticket) && marks.confirmed <= marks.cleared <= |log|
    && !GuardAt(start, log, marks.cleared).inhibit
  }

  lemma MarksStand(start: Guard, log: Log, more: Log, n: Name, marks: Marks, ticket: nat)
    requires log <= more
    ensures QuietAt(start, log, n, marks) ==> QuietAt(start, more, n, marks)
    ensures TicketedAt(start, log, n, marks, ticket) ==> TicketedAt(start, more, n, marks, ticket)
    ensures ConfirmedAt(start, log, n, marks, ticket) ==> ConfirmedAt(start, more, n, marks, ticket)
    ensures ClearedAt(start, log, n, marks, ticket) ==> ClearedAt(start, more, n, marks, ticket)
  {
    if marks.quiet <= |log| { GuardStands(start, log, more, marks.quiet); }
    if marks.ticketed <= |log| { GuardStands(start, log, more, marks.ticketed); }
    if marks.confirmed <= |log| { GuardStands(start, log, more, marks.confirmed); }
    if marks.cleared <= |log| { GuardStands(start, log, more, marks.cleared); }
  }

  /** A preparation that has come this far now takes its next step. */
  lemma TicketIsTaken(start: Guard, log: Log, n: Name, marks: Marks, ticket: nat)
    requires QuietAt(start, log, n, marks) && EpochIs(GuardAt(start, log, |log|), n, ticket)
    ensures TicketedAt(start, log, n, marks.(ticketed := |log|), ticket)
  {
  }

  lemma TicketIsConfirmed(start: Guard, log: Log, n: Name, marks: Marks, ticket: nat)
    requires TicketedAt(start, log, n, marks, ticket) && EpochIs(GuardAt(start, log, |log|), n, ticket)
    ensures ConfirmedAt(start, log, n, marks.(confirmed := |log|), ticket)
  {
  }

  lemma PreparationIsCleared(start: Guard, log: Log, n: Name, marks: Marks, ticket: nat)
    requires ConfirmedAt(start, log, n, marks, ticket) && !GuardAt(start, log, |log|).inhibit
    ensures ClearedAt(start, log, n, marks.(cleared := |log|), ticket)
  {
  }

  /** What each deed promises about the moment it happened. */
  ghost predicate Sound(start: Guard, owner: seq<Name>, log: Log, k: nat)
    requires k < |log|
  {
    match log[k]
    case Called(_, _) => true
    case Unprepared(_) => true
    case Commanded(_, _) => true
    case Prepared(i, marks, ticket) =>
      i < |owner| && marks.cleared <= k && ClearedAt(start, log, owner[i], marks, ticket)
    case Checked(i, loaded) =>
      i < |owner| && loaded <= k && PreparedAt(log, i, loaded) && GroupIs(GuardAt(start, log, k), owner[i], Armed)
    case Captured(i, check, epoch) =>
      i < |owner| && check < k && log[check].Checked? && log[check].axis == i && EpochIs(GuardAt(start, log, k), owner[i], epoch)
    case Permitted(i, epoch) =>
      i < |owner| && k > 0 && log[k - 1].Called? && log[k - 1].call == Observe
      && Permits(GuardAt(start, log, k - 1), owner[i], epoch, log[k - 1].now)
    case Moved(i, _, _, _, _, _, _) => i < |owner| && Justified(log, k)
    case Withdrawn(i, seen, epoch) =>
      i < |owner| && seen <= k && Dead(GuardAt(start, log, seen), owner[i], epoch)
  }

  ghost predicate AllSound(start: Guard, owner: seq<Name>, log: Log) {
    forall k | 0 <= k < |log| :: Sound(start, owner, log, k)
  }

  // ---- The past does not change ----

  lemma {:induction false} GuardStands(start: Guard, log: Log, more: Log, k: nat)
    requires k <= |log| && log <= more
    ensures GuardAt(start, log, k) == GuardAt(start, more, k)
  {
    if k > 0 {
      assert log[k - 1] == more[k - 1];
      GuardStands(start, log, more, k - 1);
    }
  }

  lemma {:induction false} PreparedStands(log: Log, more: Log, i: nat, k: nat)
    requires k <= |log| && log <= more
    ensures PreparedAt(log, i, k) == PreparedAt(more, i, k)
  {
    if k > 0 {
      assert log[k - 1] == more[k - 1];
      PreparedStands(log, more, i, k - 1);
    }
  }

  lemma {:induction false} TicketStands(log: Log, more: Log, i: nat, k: nat)
    requires k <= |log| && log <= more
    ensures TicketAt(log, i, k) == TicketAt(more, i, k)
  {
    if k > 0 {
      assert log[k - 1] == more[k - 1];
      TicketStands(log, more, i, k - 1);
    }
  }

  lemma {:induction false} PositionStands(initial: real, log: Log, more: Log, i: nat, k: nat)
    requires k <= |log| && log <= more
    ensures PositionAt(initial, log, i, k) == PositionAt(initial, more, i, k)
  {
    if k > 0 {
      assert log[k - 1] == more[k - 1];
      PositionStands(initial, log, more, i, k - 1);
    }
  }

  lemma SoundStands(start: Guard, owner: seq<Name>, log: Log, more: Log, k: nat)
    requires k < |log| && log <= more && Sound(start, owner, log, k)
    ensures Sound(start, owner, more, k)
  {
    assert log[k] == more[k] && forall m | 0 <= m < k :: log[m] == more[m];
    match log[k]
    case Prepared(i, marks, ticket) => MarksStand(start, log, more, owner[i], marks, ticket);
    case Checked(i, loaded) =>
      GuardStands(start, log, more, k);
      PreparedStands(log, more, i, loaded);
    case Captured(i, check, epoch) => GuardStands(start, log, more, k);
    case Permitted(i, epoch) => GuardStands(start, log, more, k - 1);
    case Withdrawn(i, seen, epoch) => GuardStands(start, log, more, seen);
    case _ =>
  }

  /** One more sound deed. */
  lemma SoundGrows(start: Guard, owner: seq<Name>, log: Log, d: Deed)
    requires AllSound(start, owner, log) && Sound(start, owner, log + [d], |log|)
    ensures AllSound(start, owner, log + [d])
  {
    forall k | 0 <= k < |log| ensures Sound(start, owner, log + [d], k) {
      SoundStands(start, owner, log, log + [d], k);
    }
  }

  // ---- Sessions on the record ----

  lemma {:induction false} EpochsGrow(start: Guard, log: Log, n: Name, j: nat, k: nat)
    requires j <= k <= |log| && n in GuardAt(start, log, j).groups
    ensures n in GuardAt(start, log, k).groups
    ensures GuardAt(start, log, j).groups[n].epoch <= GuardAt(start, log, k).groups[n].epoch
    decreases k - j
  {
    if j < k {
      EpochsGrow(start, log, n, j, k - 1);
      if log[k - 1].Called? { StepOnGroup(GuardAt(start, log, k - 1), log[k - 1].call, log[k - 1].now, n); }
    }
  }

  lemma {:induction false} SpentStays(start: Guard, log: Log, n: Name, e: nat, j: nat, k: nat)
    requires j <= k <= |log| && n in GuardAt(start, log, j).groups && Spent(GuardAt(start, log, j).groups[n], e)
    ensures n in GuardAt(start, log, k).groups && Spent(GuardAt(start, log, k).groups[n], e)
    decreases k - j
  {
    if j < k {
      SpentStays(start, log, n, e, j, k - 1);
      if log[k - 1].Called? { StepOnGroup(GuardAt(start, log, k - 1), log[k - 1].call, log[k - 1].now, n); }
    }
  }

  ghost predicate LiveSession(g: Guard, n: Name, e: nat) {
    n in g.groups && g.groups[n].Live() && g.groups[n].epoch == e
  }

  /** From the capture of its epoch to the permit it moves under, one session of the group lasts without
      interruption: the command that moves the plant was given in that very session. */
  lemma MovementIsOneSession(start: Guard, owner: seq<Name>, log: Log, k: nat, m: nat)
    requires AllSound(start, owner, log) && k < |log| && log[k].Moved?
    requires log[k].captured <= m < log[k].permitted
    ensures log[k].axis < |owner| && Justified(log, k)
    ensures LiveSession(GuardAt(start, log, m), owner[log[k].axis], log[log[k].captured].epoch)
  {
    var d := log[k];
    assert Sound(start, owner, log, k);
    var n, e := owner[d.axis], log[d.captured].epoch;
    assert Sound(start, owner, log, d.captured) && Sound(start, owner, log, d.permitted);
    var p := d.permitted - 1;
    hide AllSound, Sound, Step, Permits;
    EpochsGrow(start, log, n, d.captured, m);
    EpochsGrow(start, log, n, m, p);
    if Spent(GuardAt(start, log, m).groups[n], e) {
      SpentStays(start, log, n, e, m, p);
      SpentIsNotPermitted(GuardAt(start, log, p), n, e, log[p].now);
      assert false;
    }
  }

  /** The mode switch behind a movement had seen the axis prepared and its group Armed. */
  lemma MovementWasChecked(start: Guard, owner: seq<Name>, log: Log, k: nat) returns (check: nat)
    requires AllSound(start, owner, log) && k < |log| && log[k].Moved?
    ensures Justified(log, k) && check < log[k].captured && log[check].Checked? && log[check].axis == log[k].axis < |owner|
    ensures log[check].loaded <= check && PreparedAt(log, log[k].axis, log[check].loaded)
    ensures GroupIs(GuardAt(start, log, check), owner[log[k].axis], Armed)
  {
    assert Sound(start, owner, log, k);
    assert Sound(start, owner, log, log[k].captured);
    check := log[log[k].captured].check;
    assert Sound(start, owner, log, check);
  }

  /** A position changes only by a movement. */
  lemma {:induction false} PlantMovesOnlyWhenJustified(start: Guard, owner: seq<Name>, log: Log, initial: real, i: nat, j: nat, k: nat)
    returns (m: nat)
    requires AllSound(start, owner, log) && j <= k <= |log|
    requires PositionAt(initial, log, i, j) != PositionAt(initial, log, i, k)
    ensures j <= m < k && log[m].Moved? && log[m].axis == i && Justified(log, m)
    decreases k
  {
    if log[k - 1].Moved? && log[k - 1].axis == i {
      m := k - 1;
      assert Sound(start, owner, log, m);
    } else {
      m := PlantMovesOnlyWhenJustified(start, owner, log, initial, i, j, k - 1);
    }
  }

  /** A preparation that was overtaken by a halt, or by any other end of an epoch, is never stored: the
      epoch stood still from the ticket to its confirmation. */
  lemma LatePreparationIsCancelled(start: Guard, owner: seq<Name>, log: Log, k: nat, m: nat)
    requires AllSound(start, owner, log) && k < |log| && log[k].Prepared?
    requires log[k].marks.ticketed <= m <= log[k].marks.confirmed
    ensures log[k].axis < |owner| && log[k].marks.confirmed <= log[k].marks.cleared <= k
    ensures EpochIs(GuardAt(start, log, m), owner[log[k].axis], log[k].ticket)
  {
    var d := log[k];
    assert Sound(start, owner, log, k);
    EpochsGrow(start, log, owner[d.axis], d.marks.ticketed, m);
    EpochsGrow(start, log, owner[d.axis], m, d.marks.confirmed);
  }

  /** A preparation was accepted while its group was not live, and stored only after the guard was seen
      without an inhibit. */
  lemma PreparationWasEarned(start: Guard, owner: seq<Name>, log: Log, k: nat)
    requires AllSound(start, owner, log) && k < |log| && log[k].Prepared?
    ensures log[k].axis < |owner| && ClearedAt(start, log, owner[log[k].axis], log[k].marks, log[k].ticket)
    ensures log[k].marks.quiet <= log[k].marks.ticketed <= log[k].marks.confirmed <= log[k].marks.cleared <= k
  {
    assert Sound(start, owner, log, k);
  }

  // ---- What a refused write may take away ----

  /** The call at position `m` is an accepted arm of group `n`. */
  ghost predicate ArmedBy(start: Guard, log: Log, n: Name, m: nat)
    requires m < |log|
  {
    && log[m].Called? && log[m].call == Arm(n)
    && ArmAccepts(Propagated(GuardAt(start, log, m), log[m].now), n, log[m].now)
  }

  /** The arm at `m` was accepted, and nothing has ended the session or run it since. */
  ghost predicate ArmStands(start: Guard, log: Log, n: Name, m: nat, k: nat)
    requires m < k <= |log|
  {
    ArmedBy(start, log, n, m) && forall j | m < j <= k :: GroupIs(GuardAt(start, log, j), n, Armed)
  }

  lemma ArmWasAccepted(s: Guard, c: Call, now: int, n: Name)
    requires n in s.groups && !GroupIs(s, n, Armed) && GroupIs(Step(s, c, now), n, Armed)
    ensures c == Arm(n) && ArmAccepts(Propagated(s, now), n, now)
  {
    hide Propagated, ArmAccepts, Lowered, Fenced;
    StepOnGroup(s, c, now, n);
    if !ArmAccepts(Propagated(s, now), n, now) { ArmRefused(s, now, n); }
  }

  lemma ArmRefused(s: Guard, now: int, n: Name)
    requires n in s.groups && !GroupIs(s, n, Armed) && !ArmAccepts(Propagated(s, now), n, now)
    ensures !GroupIs(Step(s, Arm(n), now), n, Armed)
  {
    hide Propagated, ArmAccepts;
    PropagateLowers(s, now, n);
  }

  /** A group that is Armed now and was not at `seen` has been armed in between, for the last time at `m`. */
  lemma {:induction false} ArmingIsOnRecord(start: Guard, log: Log, n: Name, seen: nat, k: nat) returns (m: nat)
    requires seen <= k <= |log| && n in GuardAt(start, log, seen).groups
    requires !GroupIs(GuardAt(start, log, seen), n, Armed) && GroupIs(GuardAt(start, log, k), n, Armed)
    ensures seen <= m < k && ArmStands(start, log, n, m, k)
    decreases k
  {
    EpochsGrow(start, log, n, seen, k - 1);
    if GroupIs(GuardAt(start, log, k - 1), n, Armed) {
      m := ArmingIsOnRecord(start, log, n, seen, k - 1);
    } else {
      m := k - 1;
      ArmWasAccepted(GuardAt(start, log, m), log[m].call, log[m].now, n);
    }
  }

  /** A refused write looks at the group at `seen` and withdraws the preparation of its axis at `k`, with
      other threads in between.  By then the group never runs at the epoch of the axis, nor ever will; and
      it is Armed exactly when somebody armed it after that look and nothing has ended that session since.
      So a new session can lose its preparation, but only if it was armed in that window. */
  lemma WithdrawalHitsExactly(start: Guard, owner: seq<Name>, log: Log, k: nat)
    requires AllSound(start, owner, log) && k < |log| && log[k].Withdrawn?
    ensures log[k].axis < |owner| && log[k].seen <= k
    ensures forall j | k <= j <= |log| :: !RunningAt(GuardAt(start, log, j), owner[log[k].axis], log[k].epoch)
    ensures GroupIs(GuardAt(start, log, k), owner[log[k].axis], Armed) <==>
      exists m | log[k].seen <= m < k :: ArmStands(start, log, owner[log[k].axis], m, k)
  {
    assert Sound(start, owner, log, k);
    var n, e, seen := owner[log[k].axis], log[k].epoch, log[k].seen;
    forall j | k <= j <= |log| ensures !RunningAt(GuardAt(start, log, j), n, e) {
      SpentStays(start, log, n, e, seen, j);
    }
    if GroupIs(GuardAt(start, log, k), n, Armed) {
      var m := ArmingIsOnRecord(start, log, n, seen, k);
    }
  }
}
