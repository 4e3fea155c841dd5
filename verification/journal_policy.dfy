/** The maintenance policy: write-ahead journal, readback, rollback and restore. */
module JournalPolicy {
  import opened Basics
  import opened JournalIo

  type Update = (Obj, int)

  function Masked(v: int): int { v % U32 }

  function Signed(v: int): int { if v >= 0x8000_0000 then v - U32 else v }

  predicate IsInt32(v: int) { -0x8000_0000 <= v < 0x8000_0000 }

  lemma SignedUndoesMask(v: int)
    requires IsInt32(v)
    ensures Signed(Masked(v)) == v && 0 <= Masked(v) < U32
  {
  }

  /** Device counts: the nearest integer, halves away from zero, refused outside 32 bits. */
  function Counts(scaled: real): Option<int> {
    if !(-2147483648.0 <= scaled <= 2147483647.0) then None
    else if scaled >= 0.0 then Some((scaled + 0.5).Floor)
    else Some(-((-scaled + 0.5).Floor))
  }

  /** The range of 32 bits is refused from outside only, and counts are the nearest integers. */
  lemma CountsAreExact(scaled: real, n: int)
    ensures Counts(scaled).Some? <==> -2147483648.0 <= scaled <= 2147483647.0
    ensures Counts(scaled) == Some(n) ==> -0.5 <= (n as real) - scaled <= 0.5
    ensures -2147483648 <= n <= 2147483647 ==> Counts(n as real) == Some(n)
  {
  }

  lemma CountsAreNearest(scaled: real, other: real)
    requires Counts(scaled).Some?
    ensures var c := Counts(scaled).value;
      && IsInt32(c)
      && -0.5 <= (c as real) - scaled <= 0.5
      && ((c as real) - scaled == -0.5 ==> scaled < 0.0) && ((c as real) - scaled == 0.5 ==> scaled >= 0.0)
      && (scaled <= other && Counts(other).Some? ==> c <= Counts(other).value)
  {
  }

  /** All updates folded into the four maintained values. */
  function Folded(b: Objects, updates: seq<Update>): Objects
    decreases updates
  {
    if updates == [] then b
    else
      var (o, v) := updates[|updates| - 1];
      Folded(b, updates[..|updates| - 1]).Set(o, Masked(v))
  }

  lemma FoldedStep(b: Objects, updates: seq<Update>, i: nat)
    requires i < |updates|
    ensures Folded(b, updates[..i + 1]) == Folded(b, updates[..i]).Set(updates[i].0, Masked(updates[i].1))
  {
    assert updates[..i + 1][..i] == updates[..i];
  }

  // ---- What the history says about the steps of a sequence of writes ----

  /** The entries after `h0` are the first writes of `updates`, each on top of the complete earlier ones. */
  ghost predicate Stepwise(j: Joint, updates: seq<Update>, b: Objects, h0: seq<Entry>, h: seq<Entry>) {
    && |h0| <= |h| <= |h0| + |updates| && h[..|h0|] == h0
    && forall k | |h0| <= k < |h| :: StepOf(j, updates, b, k - |h0|, h[k])
  }

  ghost predicate StepOf(j: Joint, updates: seq<Update>, b: Objects, n: nat, e: Entry)
    requires n < |updates|
  {
    var o := updates[n].0;
    && e.Wrote? && e.joint == j && e.obj == o && e.asked == Masked(updates[n].1)
    && Values(e.memory, j) == Folded(b, updates[..n]).Set(o, Values(e.memory, j).Get(o))
  }

  /** A dirty record that leaves the values alone, then the steps. */
  ghost predicate Attempted(j: Joint, updates: seq<Update>, b: Objects, h0: seq<Entry>, h: seq<Entry>) {
    && |h0| < |h| && h0 <= h && h[|h0|].Journaled? && Values(h[|h0|].memory, j) == b
    && Stepwise(j, updates, b, h[..|h0| + 1], h)
  }

  /** The entries after `h0` are the first `n` writes of a rollback: the recorded home offset, upper limit, lower
      limit and, last, the switch. */
  ghost predicate PutBack(j: Joint, b: Objects, h0: seq<Entry>, h: seq<Entry>, n: nat) {
    && h0 <= h && |h| == |h0| + n && n <= 4
    && forall k | |h0| <= k < |h| :: PutBackAt(j, b, k - |h0|, h[k])
  }

  predicate PutBackAt(j: Joint, b: Objects, k: nat, e: Entry) {
    && e.Wrote? && e.joint == j
    && e.obj == (if k == 0 then Home else if k == 1 then MaxLimit else if k == 2 then MinLimit else Enable)
    && e.asked == (if k == 0 then b.home else if k == 1 then b.max else if k == 2 then b.min else b.enable)
  }

  /** The history ends with a request to save everything that joint `j` holds, asked for with the word "save". */
  ghost predicate SaveAsked(j: Joint, h0: seq<Entry>, h: seq<Entry>) {
    && |h| == |h0| + 1 && h0 <= h && h[|h0|].Wrote? && h[|h0|].joint == j && h[|h0|].obj == Save && h[|h0|].asked == 0x65766173
  }

  /** After the updates came the request to save, if one was asked for, and a clean record; nothing else. */
  ghost predicate Closed(j: Joint, save: bool, forward: seq<Entry>, h: seq<Entry>) {
    && |h| == |forward| + (if save then 2 else 1) && forward <= h
    && h[|h| - 1].Journaled? && !h[|h| - 1].journal.dirty
    && (save ==> SaveAsked(j, forward, h[..|forward| + 1]))
  }

  ghost predicate Undoing(j: Joint, save: bool, b: Objects, forward: seq<Entry>, saved: seq<Entry>, undone: seq<Entry>, h: seq<Entry>) {
    && (saved == forward || (save && SaveAsked(j, forward, saved))) && PutBack(j, b, saved, undone, 4)
    && (h == undone || (|h| == |undone| + 1 && undone <= h && h[|undone|].Journaled?))
  }

  /** After the failure came the four writes of the rollback, and at most one record. */
  ghost predicate Undone(j: Joint, save: bool, b: Objects, forward: seq<Entry>, h: seq<Entry>) {
    exists saved, undone :: Undoing(j, save, b, forward, saved, undone, h)
  }

  /** Whenever the limits of `j` are enabled, their pair is one of two complete pairs. */
  ghost predicate NeverMixed(j: Joint, h0: seq<Entry>, h: seq<Entry>, p: Objects, q: Objects) {
    forall k | |h0| <= k < |h| :: Unmixed(Values(h[k].memory, j), p, q)
  }

  predicate Unmixed(v: Objects, p: Objects, q: Objects) {
    v.enable != 0 ==> (v.min == p.min && v.max == p.max) || (v.min == q.min && v.max == q.max)
  }

  function LimitUpdates(lo: int, hi: int): seq<Update> {
    [(Enable, 0), (MaxLimit, hi), (MinLimit, lo), (Enable, LIMITS_ON)]
  }

  /** The four values once `n` steps of the limit sequence are complete. */
  function AfterLimitSteps(b: Objects, lo: int, hi: int, n: nat): Objects {
    if n == 0 then b
    else if n == 1 then b.(enable := 0)
    else if n == 2 then b.(enable := 0, max := Masked(hi))
    else if n == 3 then b.(enable := 0, max := Masked(hi), min := Masked(lo))
    else b.(enable := LIMITS_ON, max := Masked(hi), min := Masked(lo))
  }

  /** The values with the new pair of limits. */
  function LimitPair(b: Objects, lower: real, upper: real): Objects {
    var lo, hi := Counts(lower), Counts(upper);
    if lo.Some? && hi.Some? then b.(enable := LIMITS_ON, max := Masked(hi.value), min := Masked(lo.value)) else b
  }

  lemma LimitsFold(b: Objects, lo: int, hi: int)
    ensures forall n | 0 <= n <= 4 :: Folded(b, LimitUpdates(lo, hi)[..n]) == AfterLimitSteps(b, lo, hi, n)
  {
    var u := LimitUpdates(lo, hi);
    FoldedStep(b, u, 0);
    FoldedStep(b, u, 1);
    FoldedStep(b, u, 2);
    FoldedStep(b, u, 3);
    assert u[..0] == [];
  }

  /** However the forward limit sequence is cut off, and whatever a device stored in place of the asked
      values, enabled limits are always the old pair or the new pair, never one side of each. */
  lemma LimitsAreNeverMixed(j: Joint, lo: int, hi: int, b: Objects, h0: seq<Entry>, h: seq<Entry>)
    requires Stepwise(j, LimitUpdates(lo, hi), b, h0, h)
    ensures NeverMixed(j, h0, h, b, Folded(b, LimitUpdates(lo, hi)))
  {
    LimitsFold(b, lo, hi);
    var u := LimitUpdates(lo, hi);
    assert u[..4] == u;
    forall k | |h0| <= k < |h| ensures Unmixed(Values(h[k].memory, j), b, Folded(b, u)) {
      assert StepOf(j, u, b, k - |h0|, h[k]);
    }
  }

  // ---- The writes of a restore ----

  const RESTORE: seq<Obj> := [Enable, Home, MaxLimit, MinLimit, Enable]

  /** The values once `n` writes of a restore of `b` are complete, when the switch stored `x` first. */
  function RestoreSteps(s: Objects, b: Objects, x: int, n: nat): Objects {
    if n == 0 then s
    else if n == 1 then s.(enable := x)
    else if n == 2 then s.(enable := x, home := b.home)
    else if n == 3 then s.(enable := x, home := b.home, max := b.max)
    else if n == 4 then b.(enable := x)
    else b
  }

  /** The entries after `h0` are the first writes of a restore of `b`: the switch, which is not read back
      and has stored `x`, then each value on top of the complete earlier ones. */
  ghost predicate Restoring(j: Joint, s: Objects, b: Objects, x: int, h0: seq<Entry>, h: seq<Entry>) {
    && |h0| <= |h| <= |h0| + |RESTORE| && h[..|h0|] == h0
    && forall k | |h0| <= k < |h| :: RestoreStep(j, s, b, x, k - |h0|, h[k], k == |h| - 1)
  }

  ghost predicate RestoreStep(j: Joint, s: Objects, b: Objects, x: int, n: nat, e: Entry, last: bool)
    requires n < |RESTORE|
  {
    && e.Wrote? && e.joint == j && e.obj == RESTORE[n] && e.asked == (if n == 0 then 0 else b.Get(RESTORE[n]))
    && Values(e.memory, j) == RestoreSteps(s, b, x, n).Set(RESTORE[n], Values(e.memory, j).Get(RESTORE[n]))
    && (n == 0 || !last ==> Values(e.memory, j) == RestoreSteps(s, b, x, n + 1))
  }

  /** A restore whose first write has really switched the limits off never enables a mixed pair, wherever
      it is cut off and whatever the later writes store. */
  lemma SwitchedOffIsUnmixed(j: Joint, s: Objects, b: Objects, h0: seq<Entry>, h: seq<Entry>)
    requires Restoring(j, s, b, 0, h0, h)
    ensures NeverMixed(j, h0, h, s, b)
  {
    forall k | |h0| <= k < |h| ensures Unmixed(Values(h[k].memory, j), s, b) {
      assert RestoreStep(j, s, b, 0, k - |h0|, h[k], k == |h| - 1);
    }
  }

  /** A restore that writes everything back keeps enabled limits unmixed if and only if the switch was really
      off, or one of the two bounds did not have to change. */
  lemma RestoreIsUnmixedExactly(j: Joint, s: Objects, b: Objects, x: int, h0: seq<Entry>, h: seq<Entry>)
    requires Restoring(j, s, b, x, h0, h) && |h| == |h0| + |RESTORE|
    ensures NeverMixed(j, h0, h, s, b) <==> x == 0 || s.min == b.min || s.max == b.max
  {
    var k := |h0|;
    assert RestoreStep(j, s, b, x, 0, h[k], false) && RestoreStep(j, s, b, x, 1, h[k + 1], false);
    assert RestoreStep(j, s, b, x, 2, h[k + 2], false) && RestoreStep(j, s, b, x, 3, h[k + 3], false);
    assert RestoreStep(j, s, b, x, 4, h[k + 4], true);
    assert Values(h[k + 2].memory, j) == RestoreSteps(s, b, x, 3);
    if x == 0 {
      SwitchedOffIsUnmixed(j, s, b, h0, h);
    } else if s.min == b.min || s.max == b.max {
      forall m | |h0| <= m < |h| ensures Unmixed(Values(h[m].memory, j), s, b) {}
    } else {
      assert !Unmixed(Values(h[k + 2].memory, j), s, b);
    }
  }

  /** For instance: limits 10 to 20 are enabled and 30 to 40 are restored.  A switch that acknowledges 0 but
      stays on has the device move within 10 to 40 for a while. */
  lemma StuckSwitchMixesLimits()
    ensures var s, b := Objects(0, LIMITS_ON, 10, 20), Objects(0, LIMITS_ON, 30, 40);
      var v := RestoreSteps(s, b, LIMITS_ON, 3);
      v.enable == LIMITS_ON && v.min == 10 && v.max == 40 && !Unmixed(v, s, b)
  {
  }

  /** May this journal be restored? */
  predicate Restorable(j: Option<Journal>) {
    && j.Some? && j.value.joint.Some? && Known(j.value.joint.value)
    && j.value.before.Keys == {Home, Enable, MinLimit, MaxLimit}
    && forall o | o in j.value.before :: 0 <= j.value.before[o] < U32
  }

  function FromRecord(before: map<Obj, int>): Objects
    requires before.Keys == {Home, Enable, MinLimit, MaxLimit}
  {
    Objects(before[Home], before[Enable], before[MinLimit], before[MaxLimit])
  }

  /** The journal names one of the six joints and has four values of 32 bits. */
  predicate InOrder(journal: Option<Journal>) {
    && journal.Some? && journal.value.joint.Some? && 1 <= journal.value.joint.value <= 6
    && journal.value.before.Keys == {Home, Enable, MinLimit, MaxLimit}
    && forall o | o in {Home, Enable, MinLimit, MaxLimit} :: 0 <= journal.value.before[o] < 0x1_0000_0000
  }

  /** The journal has the four values that joint `j` has in `m`. */
  predicate Holds(journal: Option<Journal>, j: Joint, m: Memory) {
    && journal.Some? && journal.value.before.Keys == {Home, Enable, MinLimit, MaxLimit}
    && forall o | o in {Home, Enable, MinLimit, MaxLimit} :: journal.value.before[o] == At(m, j, o)
  }

  lemma RecordedHolds(journal: Option<Journal>, j: Joint, m: Memory)
    requires journal.Some? && journal.value.before == Recorded(Values(m, j))
    ensures Holds(journal, j, m)
  {
  }

  const JOINTS: set<Joint> := {1, 2, 3, 4, 5, 6}
  const ROLLBACK: seq<Obj> := [Home, MaxLimit, MinLimit, Enable]

  /** Maintenance of joint `j` leaves no other axis unresolved that was not so before. */
  predicate Scoped(before: set<Joint>, after: set<Joint>, j: Joint) {
    after == before || after == {} || after == {j}
  }

  datatype Outcome = Done | Raised

  class Policy {
    const io: Io
    const commissioned: bool
    var dirty: bool

    ghost predicate Valid()
      reads this, io
    {
      io.Valid() && dirty == IsDirty(io.journal)
    }

    /** Starting up, also after a crash: the flag is whatever the journal on disk says. */
    constructor (io: Io, commissioned: bool)
      requires io.Valid()
      ensures Valid() && this.io == io && this.commissioned == commissioned
      ensures io.memory == old(io.memory) && io.journal == old(io.journal) && io.history == old(io.history)
    {
      this.io, this.commissioned := io, commissioned;
      dirty := io.journal.Some? && io.journal.value.dirty;
    }

    /** Axes that must not be armed. */
    function DirtyAxes(): (axes: set<Joint>)
      reads this, io
      ensures forall j :: j in axes <==>
        && dirty && io.journal.Some? && 1 <= j <= 6
        && (io.journal.value.joint == Some(j) || io.journal.value.joint == None
            || io.journal.value.joint.value < 1 || io.journal.value.joint.value > 6)
    {
      if !dirty || io.journal.None? then {}
      else if io.journal.value.joint.Some? && Known(io.journal.value.joint.value) then {io.journal.value.joint.value}
      else JOINTS
    }

    method Record(next: Journal) returns (ok: bool)
      requires Valid()
      requires IsDirty(io.journal) ==> next.joint == io.journal.value.joint && next.before == io.journal.value.before
      requires next.dirty ==>
        || (io.journal.Some? && next.joint == io.journal.value.joint && next.before == io.journal.value.before)
        || (next.joint.Some? && next.before == Recorded(Values(io.memory, next.joint.value)))
      modifies this`dirty, io`fates, io`journal, io`history
      ensures Valid()
      ensures ok ==> io.journal == Some(next) && io.history == old(io.history) + [Journaled(next, io.memory)]
      ensures !ok ==> io.journal == old(io.journal) && io.history == old(io.history)
      ensures Smooth(old(io.fates)) ==> ok && Smooth(io.fates)
    {
      ok := io.Replace(next);
      if ok { dirty := next.dirty; }
    }

    method ReadObjects(j: Joint) returns (ok: bool, b: Objects)
      modifies io`fates
      ensures ok ==> b == Values(io.memory, j)
      ensures Smooth(old(io.fates)) ==> ok && Smooth(io.fates)
    {
      var ok0, home := io.Read(j, Home);
      b := Objects(home, 0, 0, 0);
      if !ok0 { return false, b; }
      var ok1, enable := io.Read(j, Enable);
      if !ok1 { return false, b; }
      var ok2, min := io.Read(j, MinLimit);
      if !ok2 { return false, b; }
      var ok3, max := io.Read(j, MaxLimit);
      return ok3, Objects(home, enable, min, max);
    }

    /** The journal is dirty for joint `j` and holds `b`. */
    ghost predicate Holding(j: Joint, b: Objects)
      reads this, io
    {
      Valid() && dirty && io.journal.Some? && io.journal.value.joint == Some(j) && io.journal.value.before == Recorded(b) && Known(j)
    }

    /** Write one object and read it back. */
    method WriteVerified(j: Joint, o: Obj, v: int, ghost b: Objects) returns (ok: bool, ghost stored: int)
      requires Holding(j, b)
      modifies io`fates, io`memory, io`history
      ensures Holding(j, b)
      ensures io.memory == old(io.memory)[(j, o) := stored] && io.history == old(io.history) + [Wrote(j, o, v, io.memory)]
      ensures ok ==> stored == v
      ensures Smooth(old(io.fates)) ==> ok && Smooth(io.fates)
    {
      var acknowledged, kept := io.Write(j, o, v);
      stored := kept;
      if !acknowledged { return false, stored; }
      var readable, back := io.Read(j, o);
      ok := readable && back == v;
    }

    /** The forward half of a transaction.  After `n` complete updates at most one more object was touched. */
    method Forward(j: Joint, updates: seq<Update>, ghost b: Objects) returns (ok: bool)
      requires Holding(j, b) && b == Values(io.memory, j)
      modifies io`fates, io`memory, io`history
      ensures Holding(j, b)
      ensures ok ==> Values(io.memory, j) == Folded(b, updates) && |io.history| == |old(io.history)| + |updates|
      ensures forall i | i != j :: Values(io.memory, i) == Values(old(io.memory), i)
      ensures Stepwise(j, updates, b, old(io.history), io.history)
      ensures Smooth(old(io.fates)) ==> ok && Smooth(io.fates)
    {
      hide Masked, Disciplined;
      for n := 0 to |updates|
        invariant Holding(j, b) && Values(io.memory, j) == Folded(b, updates[..n])
        invariant forall i | i != j :: Values(io.memory, i) == Values(old(io.memory), i)
        invariant Stepwise(j, updates, b, old(io.history), io.history) && |io.history| == |old(io.history)| + n
        invariant Smooth(old(io.fates)) ==> Smooth(io.fates)
      {
        var (o, v) := updates[n];
        ghost var m := io.memory;
        var written, stored := WriteVerified(j, o, Masked(v), b);
        WritingOne(m, j, o, stored);
        FoldedStep(b, updates, n);
        if !written { return false; }
      }
      assert updates[..|updates|] == updates;
      return true;
    }

    /** Put the recorded values back, the enable switch last; keep going when a write fails. */
    method RollBack(j: Joint, b: Objects) returns (restored: bool)
      requires Holding(j, b)
      modifies io`fates, io`memory, io`history
      ensures Holding(j, b) && PutBack(j, b, old(io.history), io.history, 4)
      ensures restored ==> Values(io.memory, j) == b
      ensures forall i | i != j :: Values(io.memory, i) == Values(old(io.memory), i)
      ensures Smooth(old(io.fates)) ==> restored && Smooth(io.fates)
    {
      restored := true;
      for n := 0 to 4
        invariant Holding(j, b) && PutBack(j, b, old(io.history), io.history, n)
        invariant Smooth(old(io.fates)) ==> restored && Smooth(io.fates)
        invariant restored ==> forall k | 0 <= k < n :: Values(io.memory, j).Get(ROLLBACK[k]) == b.Get(ROLLBACK[k])
        invariant forall i | i != j :: Values(io.memory, i) == Values(old(io.memory), i)
      {
        ghost var m := io.memory;
        var written, stored := WriteVerified(j, ROLLBACK[n], b.Get(ROLLBACK[n]), b);
        WritingOne(m, j, ROLLBACK[n], stored);
        if !written { restored := false; }
      }
      if restored {
        assert Values(io.memory, j).Get(ROLLBACK[0]) == b.Get(ROLLBACK[0]) && Values(io.memory, j).Get(ROLLBACK[1]) == b.Get(ROLLBACK[1])
            && Values(io.memory, j).Get(ROLLBACK[2]) == b.Get(ROLLBACK[2]) && Values(io.memory, j).Get(ROLLBACK[3]) == b.Get(ROLLBACK[3]);
      }
    }

    method RequestSave(j: Joint, ghost b: Objects) returns (ok: bool)
      requires Holding(j, b)
      modifies io`fates, io`memory, io`history
      ensures Holding(j, b) && SaveAsked(j, old(io.history), io.history) && io.history[|old(io.history)|].memory == io.memory
      ensures forall i :: Values(io.memory, i) == Values(old(io.memory), i)
      ensures Smooth(old(io.fates)) ==> ok && Smooth(io.fates)
    {
      ghost var m := io.memory;
      var acknowledged, stored := io.Write(j, Save, SAVE_SIGNATURE);
      WritingOne(m, j, Save, stored);
      if !acknowledged { return false; }
      var readable, support := io.Read(j, Save);
      return readable;
    }

    /** All or nothing: done, every update is in, and saved if that was asked for; raised with a clean journal,
        nothing changed; otherwise the journal stays dirty, and always after a save was requested and anything
        failed.  `forward` is the history when the updates ended, before any save or rollback, and `rest` is how
        the calls after a failure go. */
    method Transaction(j: Joint, updates: seq<Update>, save: bool)
      returns (outcome: Outcome, ghost forward: seq<Entry>, ghost rest: seq<Fate>)
      requires Valid()
      modifies this`dirty, io`fates, io`memory, io`journal, io`history
      ensures Valid()
      ensures outcome == Done ==> !dirty && Values(io.memory, j) == Folded(Values(old(io.memory), j), updates)
      ensures outcome == Done ==> |forward| == |old(io.history)| + 1 + |updates| && Closed(j, save, forward, io.history)
      ensures outcome == Raised && !dirty ==> Values(io.memory, j) == Values(old(io.memory), j)
      ensures outcome == Raised && save && io.history != old(io.history) ==> dirty
      ensures outcome == Raised && dirty && io.history != old(io.history) ==>
                io.journal.value.joint == Some(j) && io.journal.value.before == Recorded(Values(old(io.memory), j))
      ensures outcome == Raised && dirty && io.history != old(io.history) ==> Holds(io.journal, j, old(io.memory))
      ensures old(io.history) <= forward <= io.history
      ensures forward != old(io.history) ==> Attempted(j, updates, Values(old(io.memory), j), old(io.history), forward)
      ensures outcome == Raised && io.history != old(io.history) ==>
                Undone(j, save, Values(old(io.memory), j), forward, io.history)
      ensures forall i | i != j :: Values(io.memory, i) == Values(old(io.memory), i)
      ensures Scoped(old(DirtyAxes()), DirtyAxes(), j)
      ensures old(dirty) || !Known(j) || !commissioned ==> outcome == Raised && io.history == old(io.history) && io.journal == old(io.journal)
      ensures !old(dirty) && Known(j) && commissioned && Smooth(old(io.fates)) ==> outcome == Done
      ensures outcome == Raised && io.history != old(io.history) && !save && Smooth(rest) ==> !dirty
    {
      hide Recorded, Disciplined, DisciplinedAt, InForce, MemoryAt, Values;
      rest := io.fates;
      if !Known(j) || !commissioned || dirty { return Raised, io.history, rest; }
      var readable, before := ReadObjects(j);
      if !readable { return Raised, io.history, rest; }
      var recorded := Record(Journal(true, Some(j), Recorded(before)));
      if !recorded { return Raised, io.history, rest; }
      var ok := Forward(j, updates, before);
      forward := io.history;
      if ok && save { ok := RequestSave(j, before); }
      ghost var saved := io.history;
      if ok { ok := Record(Journal(false, Some(j), Recorded(before))); }
      if ok { return Done, forward, rest; }
      rest := io.fates;
      var restored := RollBack(j, before);
      ghost var undone := io.history;
      var closed := Record(Journal(save || !restored, Some(j), Recorded(before)));
      assert Undoing(j, save, before, forward, saved, undone, io.history);
      RecordedHolds(io.journal, j, old(io.memory));
      return Raised, forward, rest;
    }

    /** The writes of a restore: switch the limits off, then each value with readback, stop at a failure.
        `switched` is what the first, unchecked write stored. */
    method WriteBack(j: Joint, b: Objects) returns (ok: bool, ghost switched: int)
      requires Holding(j, b)
      modifies io`fates, io`memory, io`history
      ensures Holding(j, b) && old(io.history) <= io.history
      ensures ok ==> Values(io.memory, j) == b && |io.history| == |old(io.history)| + |RESTORE|
      ensures forall i | i != j :: Values(io.memory, i) == Values(old(io.memory), i)
      ensures Restoring(j, Values(old(io.memory), j), b, switched, old(io.history), io.history)
      ensures Smooth(old(io.fates)) ==> ok && Smooth(io.fates)
    {
      hide Values;
      ghost var start := Values(io.memory, j);
      ghost var m := io.memory;
      var acknowledged, stored := io.Write(j, Enable, 0);
      switched := stored;
      WritingOne(m, j, Enable, stored);
      if !acknowledged { return false, switched; }
      for n := 0 to 4
        invariant Holding(j, b) && |io.history| == |old(io.history)| + 1 + n
        invariant Values(io.memory, j) == RestoreSteps(start, b, switched, n + 1)
        invariant forall i | i != j :: Values(io.memory, i) == Values(old(io.memory), i)
        invariant Restoring(j, start, b, switched, old(io.history), io.history)
        invariant io.history[|io.history| - 1].memory == io.memory
        invariant Smooth(old(io.fates)) ==> Smooth(io.fates)
      {
        m := io.memory;
        ghost var before := io.history;
        var written, kept := WriteVerified(j, ROLLBACK[n], b.Get(ROLLBACK[n]), b);
        WritingOne(m, j, ROLLBACK[n], kept);
        RestoringOn(j, start, b, switched, old(io.history), before, io.history[|before|], n + 1);
        if !written { return false, switched; }
      }
      return true, switched;
    }

    /** The recorded values, then the request to save them.  `written` is the history in between. */
    method Replay(j: Joint, b: Objects) returns (ok: bool, ghost switched: int, ghost written: seq<Entry>)
      requires Holding(j, b)
      modifies io`fates, io`memory, io`history
      ensures Holding(j, b) && old(io.history) <= written <= io.history
      ensures ok ==> Values(io.memory, j) == b && |written| == |old(io.history)| + |RESTORE|
      ensures forall i | i != j :: Values(io.memory, i) == Values(old(io.memory), i)
      ensures Restoring(j, Values(old(io.memory), j), b, switched, old(io.history), written)
      ensures forall k | |written| <= k < |io.history| :: Values(io.history[k].memory, j) == b
      ensures ok ==> SaveAsked(j, written, io.history)
      ensures Smooth(old(io.fates)) ==> ok && Smooth(io.fates)
    {
      ok, switched := WriteBack(j, b);
      written := io.history;
      if ok { ok := RequestSave(j, b); }
    }

    /** Bring back the values of the journal, the limits disabled first and enabled last.  Success leaves
        exactly those values and a clean journal; every failure after the first record leaves the journal
        dirty, with the same joint and before-values.  `switched` is what the first device write stored, and
        `began` and `written` bound the device writes in the history: while that value is 0, enabled limits
        are never a mixed pair. */
    method Restore() returns (outcome: Outcome, ghost switched: int, ghost began: seq<Entry>, ghost written: seq<Entry>)
      requires Valid()
      modifies this`dirty, io`fates, io`memory, io`journal, io`history
      ensures Valid()
      ensures !Restorable(old(io.journal)) ==>
        outcome == Raised && io.history == old(io.history) && io.journal == old(io.journal) && io.memory == old(io.memory)
      ensures outcome == Done ==> !dirty && Restorable(old(io.journal))
      ensures outcome == Raised && io.history != old(io.history) ==> dirty
      ensures io.history != old(io.history) ==> SameRecord(io.journal, old(io.journal))
      ensures Restorable(old(io.journal)) ==> Scoped(old(DirtyAxes()), DirtyAxes(), old(io.journal).value.joint.value)
      ensures old(io.history) <= began <= written <= io.history
      ensures outcome == Done ==> InOrder(old(io.journal))
      ensures InOrder(old(io.journal)) && Smooth(old(io.fates)) ==> outcome == Done
      ensures outcome == Done ==> Holds(old(io.journal), old(io.journal).value.joint.value, io.memory)
      ensures Restorable(old(io.journal)) ==>
        var j := old(io.journal).value.joint.value;
        var s, b := Values(old(io.memory), j), FromRecord(old(io.journal).value.before);
        && (outcome == Done ==> Values(io.memory, j) == b && |written| == |began| + |RESTORE| && Closed(j, true, written, io.history))
        && (forall i | i != j :: Values(io.memory, i) == Values(old(io.memory), i))
        && Restoring(j, s, b, switched, began, written)
        && (switched == 0 ==> NeverMixed(j, old(io.history), io.history, s, b))
    {
      switched, began, written := 0, io.history, io.history;
      if io.journal.None? || io.journal.value.joint.None? { return Raised, switched, began, written; }
      var j, before := io.journal.value.joint.value, io.journal.value.before;
      if !Known(j) || before.Keys != {Home, Enable, MinLimit, MaxLimit} { return Raised, switched, began, written; }
      if exists o | o in before :: !(0 <= before[o] < U32) { return Raised, switched, began, written; }
      assert Recorded(FromRecord(before)) == before;
      outcome, switched, began, written := RestoreRecorded(j, before);
    }

    /** The same for a journal that has been found in order. */
    method RestoreRecorded(j: Joint, before: map<Obj, int>)
      returns (outcome: Outcome, ghost switched: int, ghost began: seq<Entry>, ghost written: seq<Entry>)
      requires Valid() && Known(j) && before.Keys == {Home, Enable, MinLimit, MaxLimit} && Recorded(FromRecord(before)) == before
      requires io.journal.Some? && io.journal.value.joint == Some(j) && io.journal.value.before == before
      modifies this`dirty, io`fates, io`memory, io`journal, io`history
      ensures Valid() && io.journal.Some? && io.journal.value.joint == Some(j) && io.journal.value.before == before
      ensures outcome == Done ==> !dirty && Values(io.memory, j) == FromRecord(before) && |written| == |began| + |RESTORE|
      ensures outcome == Done ==> Closed(j, true, written, io.history)
      ensures Smooth(old(io.fates)) ==> outcome == Done
      ensures outcome == Raised ==> (io.history == old(io.history) && dirty == old(dirty)) || dirty
      ensures old(io.history) <= began <= written <= io.history
      ensures forall i | i != j :: Values(io.memory, i) == Values(old(io.memory), i)
      ensures Restoring(j, Values(old(io.memory), j), FromRecord(before), switched, began, written)
      ensures switched == 0 ==> NeverMixed(j, old(io.history), io.history, Values(old(io.memory), j), FromRecord(before))
    {
      var b := FromRecord(before);
      ghost var s := Values(io.memory, j);
      switched, began, written := 0, io.history, io.history;
      var recorded := Record(Journal(true, Some(j), before));
      if !recorded { return Raised, switched, began, written; }
      began := io.history;
      var ok;
      ok, switched, written := Replay(j, b);
      if switched == 0 { RestoreStaysUnmixed(j, s, b, old(io.history), began, written, io.history); }
      hide Restoring, Unmixed;
      ghost var replayed := io.history;
      var closed := Record(Journal(!ok, Some(j), before));
      if switched == 0 && closed { UnmixedGrows(j, old(io.history), replayed, io.history[|replayed|], s, b); }
      return if ok && closed then Done else Raised, switched, began, written;
    }

    // ---- Maintenance operations ----

    /** The home offset is lowered by the actual position; an offset that does not fit 32 bits is refused. */
    method SetZero(j: Joint, save: bool) returns (outcome: Outcome, ghost forward: seq<Entry>)
      requires Valid()
      modifies this`dirty, io`fates, io`memory, io`journal, io`history
      ensures Valid() && old(io.history) <= forward <= io.history
      ensures outcome == Done ==> !dirty && Values(io.memory, j).(home := 0) == Values(old(io.memory), j).(home := 0)
      ensures outcome == Done ==> Signed(At(io.memory, j, Home)) == Signed(At(old(io.memory), j, Home)) - Signed(At(old(io.memory), j, Actual))
      ensures outcome == Done ==> |forward| == |old(io.history)| + 2 && Closed(j, save, forward, io.history)
      ensures outcome == Raised && !dirty ==> Values(io.memory, j) == Values(old(io.memory), j)
      ensures var value := Signed(At(old(io.memory), j, Home)) - Signed(At(old(io.memory), j, Actual));
        && (!(-0x8000_0000 <= value < 0x8000_0000) ==> outcome == Raised && io.history == old(io.history))
        && (-0x8000_0000 <= value < 0x8000_0000 && old(Ready(j)) ==> outcome == Done)
    {
      forward := io.history;
      var ok, home := io.Read(j, Home);
      if !ok { return Raised, forward; }
      var readable, actual := io.Read(j, Actual);
      if !readable { return Raised, forward; }
      var value := Signed(home) - Signed(actual);
      if !IsInt32(value) { return Raised, forward; }
      SignedUndoesMask(value);
      ghost var rest;
      outcome, forward, rest := Transaction(j, [(Home, value)], save);
      assert Folded(Values(old(io.memory), j), [(Home, value)]) == Values(old(io.memory), j).Set(Home, Masked(value));
    }

    /** Nothing stands in the way of a transaction on joint `j`, and nothing will fail. */
    predicate Ready(j: Joint)
      reads this, io
    {
      !dirty && 1 <= j <= 6 && commissioned && Smooth(io.fates)
    }

    method SetOffset(j: Joint, offset: real, save: bool) returns (outcome: Outcome, ghost forward: seq<Entry>)
      requires Valid()
      modifies this`dirty, io`fates, io`memory, io`journal, io`history
      ensures Valid() && old(io.history) <= forward <= io.history
      ensures outcome == Done ==> !dirty && Values(io.memory, j).(home := 0) == Values(old(io.memory), j).(home := 0)
      ensures outcome == Done ==> -0.5 <= (Signed(At(io.memory, j, Home)) as real) - offset <= 0.5
      ensures outcome == Done ==> |forward| == |old(io.history)| + 2 && Closed(j, save, forward, io.history)
      ensures outcome == Raised && !dirty ==> Values(io.memory, j) == Values(old(io.memory), j)
      ensures -2147483648.0 <= offset <= 2147483647.0 && old(Ready(j)) ==> outcome == Done
    {
      forward := io.history;
      var home := Counts(offset);
      CountsAreExact(offset, 0);
      if home.None? { return Raised, forward; }
      CountsAreNearest(offset, offset);
      SignedUndoesMask(home.value);
      ghost var rest;
      outcome, forward, rest := Transaction(j, [(Home, home.value)], save);
      assert Folded(Values(old(io.memory), j), [(Home, home.value)]) == Values(old(io.memory), j).Set(Home, Masked(home.value));
    }

    method DisableLimits(j: Joint, save: bool) returns (outcome: Outcome, ghost forward: seq<Entry>)
      requires Valid()
      modifies this`dirty, io`fates, io`memory, io`journal, io`history
      ensures Valid() && old(io.history) <= forward <= io.history
      ensures outcome == Done ==> !dirty && Values(io.memory, j) == Values(old(io.memory), j).(enable := 0)
      ensures outcome == Done ==> |forward| == |old(io.history)| + 2 && Closed(j, save, forward, io.history)
      ensures outcome == Raised && !dirty ==> Values(io.memory, j) == Values(old(io.memory), j)
      ensures old(Ready(j)) ==> outcome == Done
    {
      ghost var rest;
      outcome, forward, rest := Transaction(j, [(Enable, 0)], save);
      assert Folded(Values(old(io.memory), j), [(Enable, 0)]) == Values(old(io.memory), j).Set(Enable, Masked(0));
    }

    /** Strictly ordered limits, switched off first and on last. */
    method SetLimits(j: Joint, lower: real, upper: real, save: bool) returns (outcome: Outcome, ghost forward: seq<Entry>)
      requires Valid()
      modifies this`dirty, io`fates, io`memory, io`journal, io`history
      ensures Valid() && old(io.history) <= forward <= io.history
      ensures outcome == Done ==> !dirty && Counts(lower).Some? && Counts(upper).Some? && At(io.memory, j, Enable) == 0x4C494D54
      ensures outcome == Done ==> Counts(lower).value < Counts(upper).value
      ensures outcome == Done ==> Signed(At(io.memory, j, MinLimit)) == Counts(lower).value
      ensures outcome == Done ==> Signed(At(io.memory, j, MaxLimit)) == Counts(upper).value
      ensures outcome == Done ==> At(io.memory, j, Home) == At(old(io.memory), j, Home)
      ensures outcome == Done ==> |forward| == |old(io.history)| + 5 && Closed(j, save, forward, io.history)
      ensures outcome == Done ==> SwitchedAround(j, forward[|old(io.history)| + 1..])
      ensures forward != old(io.history) ==> NeverMixed(j, old(io.history), forward, Values(old(io.memory), j), LimitPair(Values(old(io.memory), j), lower, upper))
      ensures outcome == Raised && !dirty ==> Values(io.memory, j) == Values(old(io.memory), j)
      ensures Counts(lower).Some? && Counts(upper).Some? && Counts(lower).value < Counts(upper).value && old(Ready(j)) ==> outcome == Done
    {
      forward := io.history;
      var lo, hi := Counts(lower), Counts(upper);
      if lo.None? || hi.None? || lo.value >= hi.value { return Raised, forward; }
      CountsAreNearest(lower, lower);
      CountsAreNearest(upper, upper);
      SignedUndoesMask(lo.value);
      SignedUndoesMask(hi.value);
      ghost var rest;
      outcome, forward, rest := Transaction(j, LimitUpdates(lo.value, hi.value), save);
      ghost var b := Values(old(io.memory), j);
      if forward != old(io.history) {
        LimitsAreNeverMixed(j, lo.value, hi.value, b, forward[..|old(io.history)| + 1], forward);
      }
      LimitsFold(b, lo.value, hi.value);
      assert LimitUpdates(lo.value, hi.value)[..4] == LimitUpdates(lo.value, hi.value);
      if outcome == Done { LimitsSwitchAround(j, lo.value, hi.value, b, forward[..|old(io.history)| + 1], forward); }
    }
  }

  /** Four writes, the first and the last of the switch: off, the bounds, on. */
  ghost predicate SwitchedAround(j: Joint, h: seq<Entry>) {
    && |h| == 4 && (forall k | 0 <= k < 4 :: h[k].Wrote? && h[k].joint == j)
    && h[0].obj == Enable && h[0].asked == 0 && h[1].obj == MaxLimit && h[2].obj == MinLimit
    && h[3].obj == Enable && h[3].asked == 0x4C494D54
  }

  lemma LimitsSwitchAround(j: Joint, lo: int, hi: int, b: Objects, h0: seq<Entry>, h: seq<Entry>)
    requires Stepwise(j, LimitUpdates(lo, hi), b, h0, h) && |h| == |h0| + 4
    ensures SwitchedAround(j, h[|h0|..])
  {
    var u, n := LimitUpdates(lo, hi), |h0|;
    hide Folded, Values;
    assert StepOf(j, u, b, n - |h0|, h[n]) && StepOf(j, u, b, n + 1 - |h0|, h[n + 1]);
    assert StepOf(j, u, b, n + 2 - |h0|, h[n + 2]) && StepOf(j, u, b, n + 3 - |h0|, h[n + 3]);
  }

  /** A new journal record leaves the values alone. */
  lemma UnmixedGrows(j: Joint, h0: seq<Entry>, h: seq<Entry>, e: Entry, s: Objects, b: Objects)
    requires |h0| < |h| && NeverMixed(j, h0, h, s, b) && e.memory == h[|h| - 1].memory
    ensures NeverMixed(j, h0, h + [e], s, b)
  {
    assert Unmixed(Values(h[|h| - 1].memory, j), s, b);
  }

  /** One more write of a restore, the one before it being complete. */
  lemma RestoringOn(j: Joint, s: Objects, b: Objects, x: int, h0: seq<Entry>, h: seq<Entry>, e: Entry, n: nat)
    requires Restoring(j, s, b, x, h0, h) && 0 < n < |RESTORE| && |h| == |h0| + n
    requires Values(h[|h| - 1].memory, j) == RestoreSteps(s, b, x, n)
    requires RestoreStep(j, s, b, x, n, e, true)
    ensures Restoring(j, s, b, x, h0, h + [e])
  {
    forall k | |h0| <= k < |h| ensures RestoreStep(j, s, b, x, k - |h0|, (h + [e])[k], false) {
      assert RestoreStep(j, s, b, x, k - |h0|, h[k], k == |h| - 1);
    }
    assert (h + [e])[..|h0|] == h0;
  }

  lemma RestoreStaysUnmixed(j: Joint, s: Objects, b: Objects, h0: seq<Entry>, began: seq<Entry>, written: seq<Entry>, h: seq<Entry>)
    requires h0 <= began <= written <= h && |began| == |h0| + 1 && Values(began[|h0|].memory, j) == s
    requires Restoring(j, s, b, 0, began, written)
    requires forall k | |written| <= k < |h| :: Values(h[k].memory, j) == b
    ensures NeverMixed(j, h0, h, s, b)
  {
    SwitchedOffIsUnmixed(j, s, b, began, written);
    forall k | |h0| <= k < |h| ensures Unmixed(Values(h[k].memory, j), s, b) {
      if k < |began| { assert h[k] == began[|h0|]; } else if k < |written| { assert h[k] == written[k]; }
    }
  }
}
