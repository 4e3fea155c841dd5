/** The devices and the journal file as the maintenance policy sees them: every read, write and journal
    replacement may fail, and a failed device write may still have taken effect. */
module JournalIo {
  import opened Basics

  type Joint = nat

  /** The joints behind the CANopen bus, by node id. */
  predicate Known(j: Joint) { 1 <= j <= 6 }

  const U32: int := 0x1_0000_0000
  const LIMITS_ON: int := 0x4C494D54
  const SAVE_SIGNATURE: int := 0x65766173

  datatype Obj = Home | Enable | MinLimit | MaxLimit | Actual | Save

  /** The four maintained objects of one joint. */
  datatype Objects = Objects(home: int, enable: int, min: int, max: int) {
    function Get(o: Obj): int {
      match o
      case Home => home
      case Enable => enable
      case MinLimit => min
      case MaxLimit => max
      case _ => 0
    }

    function Set(o: Obj, v: int): Objects {
      match o
      case Home => this.(home := v)
      case Enable => this.(enable := v)
      case MinLimit => this.(min := v)
      case MaxLimit => this.(max := v)
      case _ => this
    }
  }

  type Memory = map<(Joint, Obj), int>

  function At(m: Memory, j: Joint, o: Obj): int {
    if (j, o) in m then m[(j, o)] else 0
  }

  function Values(m: Memory, j: Joint): Objects {
    Objects(At(m, j, Home), At(m, j, Enable), At(m, j, MinLimit), At(m, j, MaxLimit))
  }

  lemma WritingOne(m: Memory, j: Joint, o: Obj, v: int)
    ensures Values(m[(j, o) := v], j) == Values(m, j).Set(o, v)
    ensures forall i | i != j :: Values(m[(j, o) := v], i) == Values(m, i)
  {
  }

  // ---- The journal file ----

  /** The journal on disk.  An older one may lack its joint or some recorded values. */
  datatype Journal = Journal(dirty: bool, joint: Option<Joint>, before: map<Obj, int>)

  predicate IsDirty(j: Option<Journal>) { j.Some? && j.value.dirty }

  function Recorded(b: Objects): map<Obj, int> {
    map[Home := b.home, Enable := b.enable, MinLimit := b.min, MaxLimit := b.max]
  }

  // ---- The world and its history ----

  /** Everything that durably happened: a write to a device, with the value asked for, and a replacement of the
      journal, each with the device memory that resulted. */
  datatype Entry =
    | Wrote(joint: Joint, obj: Obj, asked: int, memory: Memory)
    | Journaled(journal: Journal, memory: Memory)

  /** How one call to the outside goes: as asked; refused without effect; refused although it took
      effect; or acknowledged although the device stored something else. */
  datatype Fate = Works | Lost | Late | Alters(stored: int)

  /** From here on every call to the outside goes as asked. */
  predicate Smooth(fates: seq<Fate>) {
    forall k | 0 <= k < |fates| :: fates[k] == Works
  }

  /** The journal in force after the first `k` entries. */
  ghost function InForce(first: Option<Journal>, h: seq<Entry>, k: nat): Option<Journal>
    requires k <= |h|
  {
    if k == 0 then first
    else if h[k - 1].Journaled? then Some(h[k - 1].journal)
    else InForce(first, h, k - 1)
  }

  ghost function MemoryAt(start: Memory, h: seq<Entry>, k: nat): Memory
    requires k <= |h|
  {
    if k == 0 then start else h[k - 1].memory
  }

  /** The write-ahead discipline at entry `k`.
      A device is written only while the journal is dirty and holds that joint's four before-values.
      While the journal is dirty, its joint and its before-values are never replaced by others.  A
      journal that becomes dirty records the values the device has at that moment, or keeps the ones
      recorded last (a repeated restore). */
  ghost predicate DisciplinedAt(start: Memory, first: Option<Journal>, h: seq<Entry>, k: nat)
    requires k < |h|
  {
    var j := InForce(first, h, k);
    match h[k]
    case Wrote(joint, _, _, _) =>
      IsDirty(j) && j.value.joint == Some(joint) && Known(joint) && j.value.before.Keys == {Home, Enable, MinLimit, MaxLimit}
    case Journaled(next, _) =>
      var kept := j.Some? && next.joint == j.value.joint && next.before == j.value.before;
      && (IsDirty(j) ==> kept)
      && (next.dirty ==> kept || (next.joint.Some? && next.before == Recorded(Values(MemoryAt(start, h, k), next.joint.value))))
      && h[k].memory == MemoryAt(start, h, k)
  }

  ghost predicate Disciplined(start: Memory, first: Option<Journal>, h: seq<Entry>) {
    forall k | 0 <= k < |h| :: DisciplinedAt(start, first, h, k)
  }

  lemma {:induction false} InForcePrefix(first: Option<Journal>, h: seq<Entry>, h': seq<Entry>, k: nat)
    requires k <= |h| <= |h'| && h == h'[..|h|]
    ensures InForce(first, h, k) == InForce(first, h', k)
  {
    if k > 0 {
      assert h[k - 1] == h'[k - 1];
      InForcePrefix(first, h, h', k - 1);
    }
  }

  lemma DisciplinedPrefix(start: Memory, first: Option<Journal>, h: seq<Entry>, h': seq<Entry>, k: nat)
    requires k < |h| <= |h'| && h == h'[..|h|]
    ensures DisciplinedAt(start, first, h, k) == DisciplinedAt(start, first, h', k)
  {
    InForcePrefix(first, h, h', k);
    assert h[k] == h'[k];
    if k > 0 { assert h[k - 1] == h'[k - 1]; }
  }

  /** A crash cuts the history short; what is left still obeys the discipline. */
  lemma CrashKeepsDiscipline(start: Memory, first: Option<Journal>, h: seq<Entry>, cut: nat)
    requires Disciplined(start, first, h) && cut <= |h|
    ensures Disciplined(start, first, h[..cut])
  {
    forall k | 0 <= k < cut ensures DisciplinedAt(start, first, h[..cut], k) {
      DisciplinedPrefix(start, first, h[..cut], h, k);
    }
  }

  predicate SameRecord(a: Option<Journal>, b: Option<Journal>) {
    a.Some? && b.Some? && a.value.joint == b.value.joint && a.value.before == b.value.before
  }

  /** From the first dirty record to the next clean one, joint and before-values never change. */
  lemma {:induction false} DirtySpanIsFixed(start: Memory, first: Option<Journal>, h: seq<Entry>, i: nat, k: nat)
    requires Disciplined(start, first, h) && i <= k <= |h|
    requires forall m | i <= m < k :: IsDirty(InForce(first, h, m))
    ensures i < k ==> SameRecord(InForce(first, h, k), InForce(first, h, i))
    decreases k
  {
    if i < k {
      DirtySpanIsFixed(start, first, h, i, k - 1);
      assert DisciplinedAt(start, first, h, k - 1);
    }
  }

  /** Whatever was written to a device since the journal went dirty, the values recorded when it went
      dirty are still in the journal at each of those writes. */
  lemma WritesAreRecoverable(start: Memory, first: Option<Journal>, h: seq<Entry>, i: nat, k: nat)
    requires Disciplined(start, first, h) && i < k < |h| && h[k].Wrote? && h[i].Journaled? && h[i].journal.dirty
    requires forall m | i < m <= k :: IsDirty(InForce(first, h, m))
    requires !IsDirty(InForce(first, h, i))
    ensures h[i].journal.joint == Some(h[k].joint)
    ensures SameRecord(InForce(first, h, k), Some(h[i].journal))
    ensures h[i].journal.before == Recorded(Values(MemoryAt(start, h, i), h[k].joint))
            || (InForce(first, h, i).Some? && h[i].journal.before == InForce(first, h, i).value.before)
  {
    assert DisciplinedAt(start, first, h, i) && DisciplinedAt(start, first, h, k);
    assert InForce(first, h, i + 1) == Some(h[i].journal);
    DirtySpanIsFixed(start, first, h, i + 1, k);
  }

  class Io {
    var memory: Memory
    var journal: Option<Journal>
    var fates: seq<Fate>
    ghost var history: seq<Entry>
    ghost const start: Memory
    ghost const first: Option<Journal>

    ghost predicate Valid()
      reads this
    {
      && memory == MemoryAt(start, history, |history|)
      && journal == InForce(first, history, |history|)
      && Disciplined(start, first, history)
    }

    constructor (memory: Memory, journal: Option<Journal>, fates: seq<Fate>)
      ensures Valid() && history == [] && this.memory == memory && this.journal == journal
    {
      this.memory, this.journal, this.fates := memory, journal, fates;
      start, first, history := memory, journal, [];
    }

    method Next() returns (f: Fate)
      modifies this`fates
      ensures Smooth(old(fates)) ==> f == Works && Smooth(fates)
    {
      if fates == [] { return Works; }
      f := fates[0];
      fates := fates[1..];
    }

    method Read(j: Joint, o: Obj) returns (ok: bool, v: int)
      modifies this`fates
      ensures ok ==> v == At(memory, j, o)
      ensures Smooth(old(fates)) ==> ok && Smooth(fates)
    {
      var f := Next();
      return f == Works, At(memory, j, o);
    }

    /** A device write, allowed only under a dirty journal of this joint. */
    method Write(j: Joint, o: Obj, v: int) returns (ok: bool, ghost stored: int)
      requires Valid() && IsDirty(journal) && journal.value.joint == Some(j) && Known(j)
      requires journal.value.before.Keys == {Home, Enable, MinLimit, MaxLimit}
      modifies this`fates, this`memory, this`history
      ensures Valid()
      ensures memory == old(memory)[(j, o) := stored] && history == old(history) + [Wrote(j, o, v, memory)]
      ensures Smooth(old(fates)) ==> ok && stored == v && Smooth(fates)
    {
      var f := Next();
      var kept := match f
        case Works => v
        case Lost => At(memory, j, o)
        case Late => v
        case Alters(x) => x;
      ok := f == Works || f.Alters?;
      stored := kept;
      memory := memory[(j, o) := kept];
      history := history + [Wrote(j, o, v, memory)];
      forall k | 0 <= k < |history| ensures DisciplinedAt(start, first, history, k) {
        if k < |old(history)| { DisciplinedPrefix(start, first, old(history), history, k); }
        else { InForcePrefix(first, old(history), history, k); }
      }
      InForcePrefix(first, old(history), history, |old(history)|);
    }

    /** Replacing the journal file is atomic: it happens, or the old file stays. */
    method Replace(next: Journal) returns (ok: bool)
      requires Valid()
      requires IsDirty(journal) ==> next.joint == journal.value.joint && next.before == journal.value.before
      requires next.dirty ==>
        || (journal.Some? && next.joint == journal.value.joint && next.before == journal.value.before)
        || (next.joint.Some? && next.before == Recorded(Values(memory, next.joint.value)))
      modifies this`fates, this`journal, this`history
      ensures Valid()
      ensures ok ==> journal == Some(next) && history == old(history) + [Journaled(next, memory)]
      ensures !ok ==> journal == old(journal) && history == old(history)
      ensures Smooth(old(fates)) ==> ok && Smooth(fates)
    {
      var f := Next();
      ok := f == Works;
      if ok {
        journal := Some(next);
        history := history + [Journaled(next, memory)];
        forall k | 0 <= k < |history| ensures DisciplinedAt(start, first, history, k) {
          if k < |old(history)| { DisciplinedPrefix(start, first, old(history), history, k); }
          else { InForcePrefix(first, old(history), history, k); }
        }
      }
    }
  }
}
