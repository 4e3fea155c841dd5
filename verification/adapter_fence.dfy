/** The client side of the remote calls: a call that timed out may still take effect, so it stays on
    record until its future completes, and fences re-arming until then. */
module AdapterFence {

  /** Under which key a timed-out call is kept: the group its thread was working on, none, or a shared
      hardware component. */
  datatype Key = OfGroup(name: nat) | Unscoped | OfResource(name: nat)

  /** What is asked of the guard, of the controllers and of the hardware: commands, and the
      questions whether the objects of a group verify and whether it is ready. */
  datatype Operation =
    | Arm | Run | Halt | Acknowledge | MaintenanceClear | MaintenanceLock | OwnerReset
    | StartControllers | StopControllers | Transition | Initialize | DisableAxis | WriteObject | Prepare
    | Verify | Await

  /** What happens, in order: a mutation times out, a late answer arrives, a key is found settled or not,
      something is asked for, and what was asked for is denied, or is given up without an answer.
      `holder` says that a timed-out call was made under the scope of a group whose lock its thread held;
      the monitor stops groups without their locks. */
  datatype Event =
    | TimedOut(id: nat, keys: set<Key>, holder: bool)
    | Resolved(id: nat)
    | Settled(key: Key)
    | Unsettled(key: Key, group: nat)
    | Asked(operation: Operation, group: nat)
    | Denied(operation: Operation, group: nat)
    | Lost(operation: Operation, group: nat)

  type Log = seq<Event>

  /** Everything that timed out under `key` or unscoped before `k` has been answered before `k`. */
  ghost predicate SettledAt(log: Log, key: Key, k: nat)
    requires k <= |log|
  {
    forall j | 0 <= j < k && log[j].TimedOut? && (key in log[j].keys || Unscoped in log[j].keys) ::
      exists r | j < r < k :: log[r] == Resolved(log[j].id)
  }

  ghost predicate TimedOutIn(log: Log, id: nat, key: Key) {
    exists j | 0 <= j < |log| :: log[j].TimedOut? && log[j].id == id && key in log[j].keys
  }

  function Unfinished(ids: seq<nat>, done: set<nat>): (r: seq<nat>)
    ensures forall i :: i in r <==> i in ids && i !in done
  {
    if ids == [] then []
    else if ids[0] in done then Unfinished(ids[1..], done)
    else [ids[0]] + Unfinished(ids[1..], done)
  }

  function Waiting(pending: map<Key, seq<nat>>, key: Key): seq<nat> {
    if key in pending then pending[key] else []
  }

  /** The pending lists hold every unanswered call under each of its keys, and nothing foreign. */
  ghost predicate Tracks(pending: map<Key, seq<nat>>, done: set<nat>, log: Log) {
    && (forall j, key | 0 <= j < |log| && log[j].TimedOut? && key in log[j].keys && log[j].id !in done ::
          log[j].id in Waiting(pending, key))
    && (forall key, id | id in Waiting(pending, key) :: TimedOutIn(log, id, key) || TimedOutIn(log, id, Unscoped))
  }

  /** Calls are numbered in the order they time out, and are answered later, if at all. */
  ghost predicate Numbered(done: set<nat>, log: Log, next: nat) {
    && (forall j | 0 <= j < |log| && log[j].TimedOut? :: log[j].id < next)
    && (forall i, j | 0 <= i < j < |log| && log[i].TimedOut? && log[j].TimedOut? :: log[i].id < log[j].id)
    && (forall id | id in done :: exists r | 0 <= r < |log| :: log[r] == Resolved(id))
    && (forall r | 0 <= r < |log| && log[r].Resolved? ::
          log[r].id in done && log[r].id < next
          && forall j | r < j < |log| && log[j].TimedOut? :: log[j].id != log[r].id)
  }

  lemma AnsweredLater(done: set<nat>, log: Log, next: nat, j: nat) returns (r: nat)
    requires Numbered(done, log, next) && j < |log| && log[j].TimedOut? && log[j].id in done
    ensures j < r < |log| && log[r] == Resolved(log[j].id)
  {
    r :| 0 <= r < |log| && log[r] == Resolved(log[j].id);
    assert r != j && !(r < j);
  }

  /** The check on the lists is exact: nothing is waiting if and only if everything has been answered. */
  lemma NothingWaitsExactly(pending: map<Key, seq<nat>>, done: set<nat>, log: Log, next: nat, key: Key)
    requires Tracks(pending, done, log) && Numbered(done, log, next)
    ensures Unfinished(Waiting(pending, key) + Waiting(pending, Unscoped), done) == [] <==> SettledAt(log, key, |log|)
  {
    var waiting := Unfinished(Waiting(pending, key) + Waiting(pending, Unscoped), done);
    if waiting == [] {
      forall j | 0 <= j < |log| && log[j].TimedOut? && (key in log[j].keys || Unscoped in log[j].keys)
        ensures exists r | j < r < |log| :: log[r] == Resolved(log[j].id)
      {
        assert log[j].id !in waiting;
        var r := AnsweredLater(done, log, next, j);
      }
    } else {
      var id := waiting[0];
      assert id in waiting;
      assert id in Waiting(pending, key) || id in Waiting(pending, Unscoped);
      var where := if TimedOutIn(log, id, key) then key else Unscoped;
      assert TimedOutIn(log, id, where);
      var j :| 0 <= j < |log| && log[j].TimedOut? && log[j].id == id && where in log[j].keys;
      forall r | 0 <= r < |log| ensures log[r] != Resolved(log[j].id) {}
    }
  }

  /** The call that timed out at `j` counts for the key. */
  predicate Concerns(log: Log, j: nat, key: Key)
    requires j < |log|
  {
    log[j].TimedOut? && (key in log[j].keys || Unscoped in log[j].keys)
  }

  ghost predicate AnsweredBefore(log: Log, j: nat, k: nat)
    requires j < |log| && k <= |log| && log[j].TimedOut?
  {
    exists r | j < r < k :: log[r] == Resolved(log[j].id)
  }

  /** The request to arm was preceded by a check that found its group settled, and since then only threads
      that do not hold the lock of the group have left anything behind. */
  ghost predicate FencedBy(log: Log, k: nat, c: nat)
    requires k < |log| && log[k].Asked?
  {
    var key := OfGroup(log[k].group);
    && c < k && log[c] == Settled(key) && SettledAt(log, key, c)
    && forall j | c < j < k && Concerns(log, j, key) :: !log[j].holder
  }

  ghost predicate ArmsFenced(log: Log) {
    forall k | 0 <= k < |log| && log[k].Asked? && log[k].operation == Arm :: exists c :: FencedBy(log, k, c)
  }

  /** No request to arm overtakes a call of the same group, or an unscoped one, that timed out before the
      check at `c`; and nothing that the holder of the lock left behind is overtaken at all. */
  lemma ArmWaitsForLateCalls(log: Log, k: nat) returns (c: nat)
    requires ArmsFenced(log) && k < |log| && log[k].Asked? && log[k].operation == Arm
    ensures FencedBy(log, k, c)
    ensures forall j | 0 <= j < c && Concerns(log, j, OfGroup(log[k].group)) :: AnsweredBefore(log, j, c)
    ensures forall j | 0 <= j < k && Concerns(log, j, OfGroup(log[k].group)) && log[j].holder :: AnsweredBefore(log, j, c)
  {
    c :| FencedBy(log, k, c);
    forall j | 0 <= j < k && Concerns(log, j, OfGroup(log[k].group)) && (j < c || log[j].holder)
      ensures AnsweredBefore(log, j, c)
    {
      assert j < c;
      var r :| j < r < c && log[r] == Resolved(log[j].id);
    }
  }

  /** What was settled at the check is settled at the request if and only if everything that timed out in
      between has been answered as well. */
  lemma SettledSinceExactly(log: Log, key: Key, c: nat, k: nat)
    requires c <= k <= |log| && SettledAt(log, key, c)
    ensures SettledAt(log, key, k) <==> forall j | c <= j < k && Concerns(log, j, key) :: AnsweredBefore(log, j, k)
  {
    if SettledAt(log, key, k) {
      forall j | c <= j < k && Concerns(log, j, key) ensures AnsweredBefore(log, j, k) {
        var r :| j < r < k && log[r] == Resolved(log[j].id);
      }
    }
    if forall j | c <= j < k && Concerns(log, j, key) :: AnsweredBefore(log, j, k) {
      forall j | 0 <= j < k && Concerns(log, j, key) ensures exists r | j < r < k :: log[r] == Resolved(log[j].id) {
        if j < c {
          var r :| j < r < c && log[r] == Resolved(log[j].id);
        } else {
          assert AnsweredBefore(log, j, k);
        }
      }
    }
  }

  /** The arm request at `k`, checked at `c`, overtakes nothing if and only if every call that a thread
      without the lock left behind in between has been answered. */
  lemma ArmIsSettledExactly(log: Log, k: nat, c: nat)
    requires k < |log| && log[k].Asked? && FencedBy(log, k, c)
    ensures SettledAt(log, OfGroup(log[k].group), k) <==>
      forall j | c < j < k && Concerns(log, j, OfGroup(log[k].group)) && !log[j].holder :: AnsweredBefore(log, j, k)
  {
    SettledSinceExactly(log, OfGroup(log[k].group), c, k);
  }

  /** The monitor stops every group without its lock.  When its halt times out between the check and the
      request, the request overtakes a call of its own group. */
  lemma UnlockedHaltSlipsThrough(g: nat)
    ensures var log := [Settled(OfGroup(g)), TimedOut(0, {OfGroup(g)}, false), Asked(Arm, g)];
      ArmsFenced(log) && !SettledAt(log, OfGroup(g), 2)
  {
    var log := [Settled(OfGroup(g)), TimedOut(0, {OfGroup(g)}, false), Asked(Arm, g)];
    assert FencedBy(log, 2, 0);
    assert log[1].TimedOut? && OfGroup(g) in log[1].keys;
  }

  /** So does a call of a thread that works on no group. */
  lemma UnscopedSlipsThrough(g: nat)
    ensures var log := [Settled(OfGroup(g)), TimedOut(0, {Unscoped}, false), Asked(Arm, g)];
      ArmsFenced(log) && !SettledAt(log, OfGroup(g), 2)
  {
    var log := [Settled(OfGroup(g)), TimedOut(0, {Unscoped}, false), Asked(Arm, g)];
    assert FencedBy(log, 2, 0);
    assert log[1].TimedOut? && Unscoped in log[1].keys;
  }

  lemma FenceStands(log: Log, more: Log, k: nat, c: nat)
    requires k < |log| && log <= more && log[k].Asked? && FencedBy(log, k, c)
    ensures FencedBy(more, k, c)
  {
    forall j | 0 <= j < k ensures more[j] == log[j] {}
    assert SettledAt(more, OfGroup(log[k].group), c) by {
      forall j | 0 <= j < c && more[j].TimedOut? && (OfGroup(log[k].group) in more[j].keys || Unscoped in more[j].keys)
        ensures exists r | j < r < c :: more[r] == Resolved(more[j].id)
      {
        assert log[j].TimedOut?;
        var r :| j < r < c && log[r] == Resolved(log[j].id);
        assert more[r] == Resolved(more[j].id);
      }
    }
  }

  lemma FencesGrow(log: Log, e: Event)
    requires ArmsFenced(log) && (e.Asked? && e.operation == Arm ==> exists c :: FencedBy(log + [e], |log|, c))
    ensures ArmsFenced(log + [e])
  {
    var more := log + [e];
    forall k | 0 <= k < |more| && more[k].Asked? && more[k].operation == Arm ensures exists c :: FencedBy(more, k, c) {
      if k < |log| {
        var c :| FencedBy(log, k, c);
        FenceStands(log, more, k, c);
      }
    }
  }

  class Adapter {
    var pending: map<Key, seq<nat>>
    var done: set<nat>
    var scope: Key
    var next: nat
    ghost var log: Log

    ghost predicate Valid()
      reads this
    {
      Tracks(pending, done, log) && Numbered(done, log, next) && ArmsFenced(log)
    }

    constructor ()
      ensures Valid() && log == [] && scope == Unscoped
    {
      pending, done, scope, next, log := map[], {}, Unscoped, 0, [];
    }

    method BeginScope(key: Key)
      requires Valid()
      modifies this`scope
      ensures Valid() && scope == key
    {
      scope := key;
    }

    /** Refuse, on behalf of a group, while anything under the key, or unscoped, may still take effect. */
    method EnsureSettled(key: Key, ghost group: nat) returns (settled: bool)
      requires Valid()
      modifies this`pending, this`log
      ensures Valid() && settled == SettledAt(old(log), key, |old(log)|)
      ensures log == old(log) + [if settled then Settled(key) else Unsettled(key, group)]
    {
      NothingWaitsExactly(pending, done, log, next, key);
      var waiting := Unfinished(Waiting(pending, key) + Waiting(pending, Unscoped), done);
      Pruned(pending, done, log, key, waiting);
      pending := pending[key := waiting];
      settled := waiting == [];
      Note(if settled then Settled(key) else Unsettled(key, group));
    }

    /** Something that leaves no call behind and asks for nothing. */
    ghost method Note(e: Event)
      requires Valid() && (e.Settled? || e.Unsettled? || e.Denied? || e.Lost?)
      modifies this`log
      ensures Valid() && log == old(log) + [e]
    {
      Unremarkable(pending, done, log, next, e);
      FencesGrow(log, e);
      log := log + [e];
    }

    method Ask(operation: Operation, group: nat)
      requires Valid() && (operation == Arm ==> exists c :: FencedBy(log + [Asked(operation, group)], |log|, c))
      modifies this`log
      ensures Valid() && log == old(log) + [Asked(operation, group)]
    {
      Overhear(operation, group);
    }

    /** A request of any thread. */
    ghost method Overhear(operation: Operation, group: nat)
      requires Valid() && (operation == Arm ==> exists c :: FencedBy(log + [Asked(operation, group)], |log|, c))
      modifies this`log
      ensures Valid() && log == old(log) + [Asked(operation, group)]
    {
      Unremarkable(pending, done, log, next, Asked(operation, group));
      FencesGrow(log, Asked(operation, group));
      log := log + [Asked(operation, group)];
    }

    /** A mutation that got no answer in time, kept under the scope of its thread and its resource. */
    method TimeOut(keys: set<Key>, ghost holder: bool)
      requires Valid()
      modifies this`pending, this`next, this`log
      ensures Valid() && log == old(log) + [TimedOut(old(next), keys, holder)]
    {
      ghost var before := pending;
      var rest := keys;
      while exists k :: k in rest
        invariant rest <= keys && log == old(log) && next == old(next)
        invariant forall k :: Waiting(pending, k) == if k in keys - rest then Waiting(before, k) + [next] else Waiting(before, k)
        decreases rest
      {
        var k :| k in rest;
        pending := pending[k := Waiting(pending, k) + [next]];
        rest := rest - {k};
      }
      OneMoreWaits(before, pending, done, log, next, keys, holder);
      FencesGrow(log, TimedOut(next, keys, holder));
      log := log + [TimedOut(next, keys, holder)];
      next := next + 1;
    }

    /** A late answer. */
    method Resolve(id: nat)
      requires Valid() && id < next
      modifies this`done, this`log
      ensures Valid() && log == old(log) + [Resolved(id)]
    {
      assert Tracks(pending, done + {id}, log + [Resolved(id)]) by { StillTracked(pending, done, log, Resolved(id), done + {id}); }
      AnswerIsNumbered(done, log, next, id);
      FencesGrow(log, Resolved(id));
      done := done + {id};
      log := log + [Resolved(id)];
    }
  }

  lemma TimedOutStays(log: Log, e: Event, id: nat, key: Key)
    requires TimedOutIn(log, id, key)
    ensures TimedOutIn(log + [e], id, key)
  {
    var j :| 0 <= j < |log| && log[j].TimedOut? && log[j].id == id && key in log[j].keys;
    assert (log + [e])[j] == log[j];
  }

  lemma StillTracked(pending: map<Key, seq<nat>>, done: set<nat>, log: Log, e: Event, more: set<nat>)
    requires Tracks(pending, done, log) && !e.TimedOut? && done <= more
    ensures Tracks(pending, more, log + [e])
  {
    forall key, id | id in Waiting(pending, key) ensures TimedOutIn(log + [e], id, key) || TimedOutIn(log + [e], id, Unscoped) {
      if TimedOutIn(log, id, key) { TimedOutStays(log, e, id, key); } else { TimedOutStays(log, e, id, Unscoped); }
    }
  }

  lemma Unremarkable(pending: map<Key, seq<nat>>, done: set<nat>, log: Log, next: nat, e: Event)
    requires Tracks(pending, done, log) && Numbered(done, log, next) && !e.TimedOut? && !e.Resolved?
    ensures Tracks(pending, done, log + [e]) && Numbered(done, log + [e], next)
  {
    StillTracked(pending, done, log, e, done);
    forall id | id in done ensures exists r | 0 <= r < |log + [e]| :: (log + [e])[r] == Resolved(id) {
      var r :| 0 <= r < |log| && log[r] == Resolved(id);
      assert (log + [e])[r] == Resolved(id);
    }
  }

  lemma AnswerIsNumbered(done: set<nat>, log: Log, next: nat, id: nat)
    requires Numbered(done, log, next) && id < next
    ensures Numbered(done + {id}, log + [Resolved(id)], next)
  {
    var more := log + [Resolved(id)];
    forall d | d in done + {id} ensures exists r | 0 <= r < |more| :: more[r] == Resolved(d) {
      if d in done {
        var r :| 0 <= r < |log| && log[r] == Resolved(d);
        assert more[r] == Resolved(d);
      } else {
        assert more[|log|] == Resolved(d);
      }
    }
  }

  lemma Pruned(pending: map<Key, seq<nat>>, done: set<nat>, log: Log, key: Key, waiting: seq<nat>)
    requires Tracks(pending, done, log)
    requires waiting == Unfinished(Waiting(pending, key) + Waiting(pending, Unscoped), done)
    ensures Tracks(pending[key := waiting], done, log)
  {
    var pruned := pending[key := waiting];
    forall j, k | 0 <= j < |log| && log[j].TimedOut? && k in log[j].keys && log[j].id !in done
      ensures log[j].id in Waiting(pruned, k)
    {
      assert log[j].id in Waiting(pending, k);
    }
    forall k, id | id in Waiting(pruned, k) ensures TimedOutIn(log, id, k) || TimedOutIn(log, id, Unscoped) {
      if k == key && id !in Waiting(pending, key) { assert id in Waiting(pending, Unscoped); }
    }
  }

  lemma OneMoreWaits(before: map<Key, seq<nat>>, pending: map<Key, seq<nat>>, done: set<nat>, log: Log, next: nat, keys: set<Key>,
                     holder: bool)
    requires Tracks(before, done, log) && Numbered(done, log, next)
    requires forall k :: Waiting(pending, k) == if k in keys then Waiting(before, k) + [next] else Waiting(before, k)
    ensures Tracks(pending, done, log + [TimedOut(next, keys, holder)]) && Numbered(done, log + [TimedOut(next, keys, holder)], next + 1)
  {
    var more := log + [TimedOut(next, keys, holder)];
    forall key, id | id in Waiting(pending, key) ensures TimedOutIn(more, id, key) || TimedOutIn(more, id, Unscoped) {
      if id == next && key in keys {
        assert more[|log|].TimedOut? && key in more[|log|].keys;
      } else if TimedOutIn(log, id, key) {
        TimedOutStays(log, more[|log|], id, key);
      } else {
        TimedOutStays(log, more[|log|], id, Unscoped);
      }
    }
    forall id | id in done ensures exists r | 0 <= r < |more| :: more[r] == Resolved(id) {
      var r :| 0 <= r < |log| && log[r] == Resolved(id);
      assert more[r] == Resolved(id);
    }
  }
}
