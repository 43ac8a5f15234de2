/**
 Crash-safe replacement of a workspace: the two-rename directory swap with its intent marker, and the in-place database restore
 under a new generation.

 Before every file operation the environment decides whether it succeeds, raises, or the process dies there. Directory renames
 and the replacement of one file are atomic; a file being written may be left torn. No other writer is active meanwhile.
 */
module Restore {
  import opened Wrappers

  datatype Fault = Fine | Raise | Crash

  /** A workspace directory as far as it has been written: authoritative data, generation file, epoch file. */
  datatype Dir = Dir(data: Option<string>, generation: Option<string>, epoch: Option<nat>)

  predicate Complete(d: Dir) {
    d.data.Some? && d.generation.Some? && (d.epoch.Some? ==> d.epoch.value >= 1)
  }

  datatype Backup = Backup(data: string, generation: nat, intact: bool)

  /** How a method ended: returned a value, raised, or the process died. */
  datatype Outcome<T> = Returned(value: T) | Raised | Died

  /** The epoch a restore publishes: above the current one, or the backup's own where nothing is to be fenced. */
  function NextEpoch(backup: nat, current: nat): nat {
    if current == 0 then backup else (if backup > current then backup else current) + 1
  }

  function Current(d: Option<Dir>, given: nat): nat {
    if d.Some? && d.value.epoch.Some? && d.value.epoch.value > given then d.value.epoch.value else given
  }

  function Published(b: Backup, generation: string, before: Option<Dir>, given: nat): Dir {
    Dir(Some(b.data), Some(generation), Some(NextEpoch(b.generation, Current(before, given))))
  }

  /** One file system: the target, staging directories, retained previous directories, and the intent marker next to the target
      (torn, or naming a previous directory). */
  class Disk {
    var target: Option<Dir>
    var stages: map<nat, Dir>
    var fallbacks: map<nat, Dir>
    var marker: Option<Option<nat>>

    /** The workspace a start-up would find: the target, or what the marker lets recovery bring back. */
    ghost function Visible(): Option<Dir>
      reads this
    {
      if target.Some? then target
      else if marker.Some? && marker.value.Some? && marker.value.value in fallbacks then Some(fallbacks[marker.value.value])
      else None
    }

    ghost predicate Valid()
      reads this
    {
      Visible().Some? ==> Complete(Visible().value)
    }

    /** Start-up recovery: whatever the crash left, the visible workspace is the target again, unchanged. */
    method Recover(f1: Fault, f2: Fault) returns (r: Outcome<bool>)
      requires Valid()
      modifies this
      ensures Valid() && Visible() == old(Visible()) && stages == old(stages) && fallbacks.Keys <= old(fallbacks.Keys)
      ensures forall f :: f in fallbacks ==> fallbacks[f] == old(fallbacks[f])
      ensures r.Returned? ==> target == old(Visible()) && (target.Some? ==> marker.None?)
      ensures r.Returned? && r.value ==> old(target).None? && target.Some?
      ensures f1.Fine? && f2.Fine? ==> r.Returned?
    {
      if marker.None? { return Returned(false); }
      var restored := false;
      if target.None? {
        if marker.value.Some? && marker.value.value in fallbacks {
          if f1.Raise? { return Raised; }
          if f1.Crash? { return Died; }
          var f := marker.value.value;
          target, fallbacks := Some(fallbacks[f]), fallbacks - {f};
          restored := true;
        } else {
          return Returned(false);
        }
      }
      if f2.Raise? { return Raised; }
      if f2.Crash? { return Died; }
      marker := None;
      return Returned(restored);
    }

    /** The whole restore. `faults` decides the operations in program order; after the list everything succeeds. Whatever happens,
        the visible workspace is exactly the old one or exactly the new one. */
    method RestoreAuthoritative(b: Backup, given: nat, allow: bool, managed: bool, busy: bool, generation: string, stage: nat, previous: nat,
                                faults: seq<Fault>)
      returns (r: Outcome<nat>)
      requires Valid() && stage !in stages && previous !in fallbacks
      modifies this
      ensures Valid()
      ensures Leads(old(Visible()), Attempt(b, generation, given), Visible())
      ensures r.Returned? ==>
                Visible() == target == Some(Published(b, generation, old(Visible()), given)) && marker.None?
                && r.value == NextEpoch(b.generation, Current(old(Visible()), given))
      ensures r.Returned? ==> b.intact && b.generation >= 1 && (allow || b.generation >= Current(old(Visible()), given))
    {
      var recovered := Recover(At(faults, 0), At(faults, 1));
      if recovered.Raised? { return Raised; }
      if recovered.Died? { return Died; }
      if !b.intact || b.generation < 1 || (target.Some? && !managed) { return Raised; }
      var current := if target.Some? && target.value.epoch.Some? && target.value.epoch.value > given then target.value.epoch.value else given;
      if b.generation < current && !allow { return Raised; }
      var epoch := NextEpoch(b.generation, current);
      var end := Swap(b, epoch, busy, generation, stage, previous, faults);
      match end
      case Died => return Died;
      case Raised =>
        var cleaned := Finish(stage, At(faults, 11), At(faults, 12));
        return if cleaned.Died? then Died else Raised;
      case Returned(_) =>
        var cleaned := Finish(stage, At(faults, 11), At(faults, 12));
        if cleaned.Died? { return Died; }
        if cleaned.Raised? { return Raised; }
        return Returned(epoch);
    }

    /** A restore that may die anywhere, and the start-up that follows: the target is the complete old workspace or the complete new one. */
    method RestoreAndStart(b: Backup, given: nat, allow: bool, managed: bool, busy: bool, generation: string, stage: nat, previous: nat,
                           faults: seq<Fault>)
      requires Valid() && stage !in stages && previous !in fallbacks
      modifies this
      ensures target == old(Visible()) || (b.generation >= 1 && target == Some(Published(b, generation, old(Visible()), given)))
      ensures target.Some? ==> Complete(target.value) && marker.None?
    {
      var _ := RestoreAuthoritative(b, given, allow, managed, busy, generation, stage, previous, faults);
      var _ := Recover(Fine, Fine);
    }

    /** Stage, mark, move aside, publish; on an exception the previous directory is moved back. */
    method Swap(b: Backup, epoch: nat, busy: bool, generation: string, stage: nat, previous: nat, faults: seq<Fault>) returns (r: Outcome<()>)
      requires Valid() && stage !in stages && previous !in fallbacks && target == Visible() && epoch >= 1
      requires target.Some? ==> marker.None?
      modifies this
      ensures Valid()
      ensures !r.Died? ==> target == Visible() || Visible() == old(target)
      ensures r.Returned? ==> target == Some(Dir(Some(b.data), Some(generation), Some(epoch)))
      ensures !r.Returned? ==> Visible() == old(target)
    {
      if At(faults, 2).Raise? { return Raised; }
      if At(faults, 2).Crash? { return Died; }
      stages := stages[stage := Dir(None, None, None)];
      if At(faults, 3).Raise? { return Raised; }
      if At(faults, 3).Crash? { return Died; }
      stages := stages[stage := Dir(Some(b.data), None, None)];
      if At(faults, 4).Raise? { return Raised; }
      if At(faults, 4).Crash? { return Died; }
      stages := stages[stage := Dir(Some(b.data), Some(generation), None)];
      if At(faults, 5).Raise? { return Raised; }
      if At(faults, 5).Crash? { return Died; }
      stages := stages[stage := Dir(Some(b.data), Some(generation), Some(epoch))];
      var moved := false;
      if target.Some? {
        if busy || At(faults, 6).Raise? { return Raised; }
        if At(faults, 6).Crash? { return Died; }
        marker := Some(None);
        if At(faults, 7).Raise? { return Raised; }
        if At(faults, 7).Crash? { return Died; }
        marker := Some(Some(previous));
        if At(faults, 8).Raise? { return Raised; }
        if At(faults, 8).Crash? { return Died; }
        fallbacks, target := fallbacks[previous := target.value], None;
        moved := true;
      }
      if At(faults, 9).Crash? { return Died; }
      if At(faults, 9).Raise? {
        if moved {
          if At(faults, 10).Raise? { return Raised; }
          if At(faults, 10).Crash? { return Died; }
          target, fallbacks := Some(fallbacks[previous]), fallbacks - {previous};
        }
        return Raised;
      }
      target, stages := Some(stages[stage]), stages - {stage};
      return Returned(());
    }

    /** Discard the staging directory; once the target is there, the marker is no longer needed. */
    method Finish(stage: nat, f1: Fault, f2: Fault) returns (r: Outcome<()>)
      requires Valid()
      modifies this`stages, this`marker
      ensures Valid() && Visible() == old(Visible())
      ensures r.Returned? && target.Some? ==> marker.None?
    {
      if stage in stages {
        if f1.Raise? { return Raised; }
        if f1.Crash? { return Died; }
        stages := stages - {stage};
      }
      if target.Some? {
        if f2.Raise? { return Raised; }
        if f2.Crash? { return Died; }
        marker := None;
      }
      return Returned(());
    }
  }

  function At(faults: seq<Fault>, i: nat): Fault {
    if i < |faults| then faults[i] else Fine
  }

  // ---------------------------------------------------------------- any sequence of restores

  /** One restore attempt, from the workspace visible before it to the one visible after it. */
  datatype Attempt = Attempt(backup: Backup, generation: string, given: nat)

  predicate Leads(before: Option<Dir>, a: Attempt, after: Option<Dir>) {
    after == before || (a.backup.generation >= 1 && after == Some(Published(a.backup, a.generation, before, a.given)))
  }

  ghost predicate History(states: seq<Option<Dir>>, attempts: seq<Attempt>) {
    |states| == |attempts| + 1 && forall i :: 0 <= i < |attempts| ==> Leads(states[i], attempts[i], states[i + 1])
  }

  function EpochOf(d: Option<Dir>): nat {
    if d.Some? && d.value.epoch.Some? then d.value.epoch.value else 0
  }

  /** Along any sequence of restores, interrupted or not, epochs never go back, and every one that takes effect is above all earlier
      ones. */
  lemma {:induction false} EpochsIncrease(states: seq<Option<Dir>>, attempts: seq<Attempt>, i: nat, j: nat)
    requires History(states, attempts) && i <= j < |states|
    ensures EpochOf(states[i]) <= EpochOf(states[j])
    ensures i < j && states[j] != states[j - 1] ==> EpochOf(states[i]) < EpochOf(states[j])
    decreases j - i
  {
    if i < j {
      EpochsIncrease(states, attempts, i, j - 1);
      assert Leads(states[j - 1], attempts[j - 1], states[j]);
    }
  }

  // ---------------------------------------------------------------- restoring the database in place

  /** The database file with the generation file beside it. */
  class Home {
    var db: string
    var generation: string

    /** Copy, validate, NEW generation, replace. At every point where the process may die, and at every end, the restored state never
        stands under the old generation. */
    method RestoreSnapshot(snapshot: string, valid: bool, busy: bool, unseen: string, faults: seq<Fault>) returns (r: Outcome<string>)
      requires unseen != generation
      modifies this
      ensures (db == old(db) && (generation == old(generation) || generation == unseen)) || (db == snapshot && generation == unseen)
      ensures r.Returned? ==> db == snapshot && generation == unseen && r.value == unseen
      ensures r.Raised? ==> db == old(db) || generation == unseen
    {
      if At(faults, 0).Raise? || !valid || busy { return Raised; }
      if At(faults, 0).Crash? { return Died; }
      var was := generation;
      if At(faults, 1).Raise? { return Raised; }
      if At(faults, 1).Crash? { return Died; }
      generation := unseen;
      if At(faults, 2).Crash? { return Died; }
      if At(faults, 2).Raise? {
        if At(faults, 3).Crash? { return Died; }
        if At(faults, 3).Raise? { return Raised; }
        generation := was;
        return Raised;
      }
      db := snapshot;
      if At(faults, 4).Raise? { return Raised; }
      if At(faults, 4).Crash? { return Died; }
      return Returned(unseen);
    }
  }
}
