// Replacing the identity file: the swap of a staged seed for the current one, its
// rollback, and the recovery at the next start, over a disk whose operations may
// fail one by one and which may crash between any two of them. A directory entry
// that was written is assumed to survive the crash.
module IdentityFiles {
  import opened Wrappers

  datatype Name = Path | Backup | Staged

  datatype File = Seed(key: int) | Damaged

  type Disk = map<Name, File>

  /** Which operations fail, and after how many the process dies. */
  datatype Weather = Weather(fails: nat -> bool, crash: nat)

  datatype Result = Done | Missing | Broken

  datatype Machine = Machine(disk: Disk, ops: nat, last: Result)

  datatype Ended = Ended(ok: bool, m: Machine)

  predicate Works(w: Weather, n: nat) {
    n < w.crash && !w.fails(n)
  }

  // ---- File operations --------------------------------------------------

  function Stat(m: Machine, w: Weather, name: Name): Machine {
    Machine(m.disk, m.ops + 1, if !Works(w, m.ops) then Broken else if name in m.disk then Done else Missing)
  }

  function Remove(m: Machine, w: Weather, name: Name): Machine {
    var r := Stat(m, w, name);
    if r.last == Done then r.(disk := m.disk - {name}) else r
  }

  function Rename(m: Machine, w: Weather, from: Name, to: Name): Machine {
    var r := Stat(m, w, from);
    if r.last == Done then r.(disk := (m.disk - {from})[to := m.disk[from]]) else r
  }

  /** Changing the mode of the file, or flushing the directory. */
  function Touch(m: Machine, w: Weather): Machine {
    Machine(m.disk, m.ops + 1, if Works(w, m.ops) then Done else Broken)
  }

  // ---- The swap ---------------------------------------------------------

  function Rollback(m: Machine, w: Weather, hadExisting: bool): Machine {
    var removed := Remove(m, w, Path);
    Touch(if hadExisting then Rename(removed, w, Backup, Path) else removed, w)
  }

  function Install(m: Machine, w: Weather, hadExisting: bool): Ended {
    var moved := Rename(m, w, Staged, Path);
    if moved.last != Done then Ended(false, if hadExisting then Rename(moved, w, Backup, Path) else moved)
    else
      var synced := Touch(moved, w);
      if synced.last != Done then Ended(false, Rollback(synced, w, hadExisting))
      else Ended(true, Touch(Remove(synced, w, Backup), w))
  }

  function CommitSwap(m: Machine, w: Weather): Ended {
    var cleared := Remove(m, w, Backup);
    if cleared.last == Broken then Ended(false, cleared)
    else
      var found := Stat(cleared, w, Path);
      match found.last
      case Broken => Ended(false, found)
      case Missing => Install(found, w, false)
      case Done =>
        var kept := Rename(found, w, Path, Backup);
        if kept.last != Done then Ended(false, kept) else Install(kept, w, true)
  }

  // ---- Recovery ---------------------------------------------------------

  function Recover(m: Machine, w: Weather): Ended {
    var read := Stat(m, w, Path);
    match read.last
    case Broken => Ended(false, read)
    case Done =>
      if m.disk[Path].Damaged? then Ended(false, read)
      else
        var mode := Touch(read, w);
        if mode.last != Done then Ended(false, mode)
        else Ended(true, Remove(Touch(Remove(mode, w, Backup), w), w, Staged))
    case Missing => RecoverBackup(read, w)
  }

  function RecoverBackup(m: Machine, w: Weather): Ended {
    var read := Stat(m, w, Backup);
    match read.last
    case Broken => Ended(false, read)
    case Missing => Ended(true, Remove(read, w, Staged))
    case Done =>
      if m.disk[Backup].Damaged? then Ended(false, read)
      else
        var moved := Rename(read, w, Backup, Path);
        if moved.last != Done then Ended(false, moved)
        else
          var mode := Touch(moved, w);
          if mode.last != Done then Ended(false, mode)
          else
            var synced := Touch(mode, w);
            if synced.last != Done then Ended(false, synced) else Ended(true, Remove(synced, w, Staged))
  }

  // ---- The same as operations on a file system object -------------------

  class FileSystem {
    var m: Machine
    const w: Weather

    constructor (disk: Disk, w: Weather)
      ensures m == Machine(disk, 0, Done) && this.w == w
    {
      m := Machine(disk, 0, Done);
      this.w := w;
    }

    method RollBack(hadExisting: bool)
      modifies this
      ensures m == Rollback(old(m), w, hadExisting)
    {
      m := Remove(m, w, Path);
      if hadExisting {
        m := Rename(m, w, Backup, Path);
      }
      m := Touch(m, w);
    }

    method CommitStaged() returns (ok: bool)
      modifies this
      ensures Ended(ok, m) == CommitSwap(old(m), w)
    {
      m := Remove(m, w, Backup);
      if m.last == Broken {
        return false;
      }
      var hadExisting := false;
      m := Stat(m, w, Path);
      if m.last == Done {
        m := Rename(m, w, Path, Backup);
        if m.last != Done {
          return false;
        }
        hadExisting := true;
      } else if m.last == Broken {
        return false;
      }
      m := Rename(m, w, Staged, Path);
      if m.last != Done {
        if hadExisting {
          m := Rename(m, w, Backup, Path);
        }
        return false;
      }
      m := Touch(m, w);
      if m.last != Done {
        RollBack(hadExisting);
        return false;
      }
      m := Remove(m, w, Backup);
      m := Touch(m, w);
      return true;
    }

    method RecoverSwap() returns (ok: bool)
      modifies this
      ensures Ended(ok, m) == Recover(old(m), w)
    {
      var disk := m.disk;
      m := Stat(m, w, Path);
      if m.last == Done {
        if disk[Path].Damaged? {
          return false;
        }
        m := Touch(m, w);
        if m.last != Done {
          return false;
        }
        m := Remove(m, w, Backup);
        m := Touch(m, w);
        m := Remove(m, w, Staged);
        return true;
      }
      if m.last == Broken {
        return false;
      }
      m := Stat(m, w, Backup);
      if m.last == Broken {
        return false;
      }
      if m.last == Done {
        if disk[Backup].Damaged? {
          return false;
        }
        m := Rename(m, w, Backup, Path);
        if m.last != Done {
          return false;
        }
        m := Touch(m, w);
        if m.last != Done {
          return false;
        }
        m := Touch(m, w);
        if m.last != Done {
          return false;
        }
      }
      m := Remove(m, w, Staged);
      return true;
    }
  }

  // ---- Safety -----------------------------------------------------------

  /** The path holds exactly one of the two seeds. */
  predicate Holds(disk: Disk, before: int, next: int) {
    Path in disk && (disk[Path] == Seed(before) || disk[Path] == Seed(next))
  }

  /** ... or will after recovery. */
  predicate Safe(disk: Disk, before: int, next: int) {
    Holds(disk, before, next) || (Path !in disk && Backup in disk && disk[Backup] == Seed(before))
  }

  lemma InstallIsSafe(m: Machine, w: Weather, before: int, next: int)
    requires Path !in m.disk && Backup in m.disk && m.disk[Backup] == Seed(before)
    requires Staged in m.disk && m.disk[Staged] == Seed(next)
    ensures Safe(Install(m, w, true).m.disk, before, next)
    ensures Install(m, w, true).ok ==> Install(m, w, true).m.disk[Path] == Seed(next)
  {
  }

  /** A swap that starts with a seed at the path is recoverable wherever it stops
      and whichever of its operations fail, the rollback's included. */
  lemma SwapIsSafe(m: Machine, w: Weather, before: int, next: int)
    requires Path in m.disk && m.disk[Path] == Seed(before)
    requires Staged in m.disk && m.disk[Staged] == Seed(next)
    ensures Safe(CommitSwap(m, w).m.disk, before, next)
    ensures CommitSwap(m, w).ok ==> CommitSwap(m, w).m.disk[Path] == Seed(next)
  {
    var cleared := Remove(m, w, Backup);
    var found := Stat(cleared, w, Path);
    if cleared.last != Broken && found.last == Done {
      var kept := Rename(found, w, Path, Backup);
      if kept.last == Done { InstallIsSafe(kept, w, before, next); }
    }
  }

  /** Recovery itself may be interrupted; once it succeeds the path holds a seed,
      and it never replaces one that is there. */
  lemma RecoverIsSafe(m: Machine, w: Weather, before: int, next: int)
    requires Safe(m.disk, before, next)
    ensures Safe(Recover(m, w).m.disk, before, next)
    ensures Recover(m, w).ok ==> Holds(Recover(m, w).m.disk, before, next)
    ensures Path in m.disk ==> Path in Recover(m, w).m.disk && Recover(m, w).m.disk[Path] == m.disk[Path]
  {
  }

  function Calm(): Weather {
    Weather((n: nat) => false, 100)
  }

  function Boot(disk: Disk): Machine {
    Machine(disk, 0, Done)
  }

  /** The disk after starts under the given weathers. */
  function Restarted(disk: Disk, weathers: seq<Weather>): Disk {
    if weathers == [] then disk
    else Recover(Boot(Restarted(disk, weathers[..|weathers| - 1])), weathers[|weathers| - 1]).m.disk
  }

  /** A swap, any number of disturbed starts, and one undisturbed start. */
  function SwapAndRecover(disk: Disk, w: Weather, weathers: seq<Weather>): Ended {
    Recover(Boot(Restarted(CommitSwap(Boot(disk), w).m.disk, weathers)), Calm())
  }

  lemma {:induction false} RestartsAreSafe(disk: Disk, weathers: seq<Weather>, before: int, next: int)
    requires Safe(disk, before, next)
    ensures Safe(Restarted(disk, weathers), before, next)
  {
    if weathers == [] {
    } else {
      var front := weathers[..|weathers| - 1];
      RestartsAreSafe(disk, front, before, next);
      RecoverIsSafe(Boot(Restarted(disk, front)), weathers[|weathers| - 1], before, next);
    }
  }

  lemma CalmRecoverySucceeds(disk: Disk, before: int, next: int)
    requires Safe(disk, before, next)
    ensures Recover(Boot(disk), Calm()).ok && Holds(Recover(Boot(disk), Calm()).m.disk, before, next)
  {
    RecoverIsSafe(Boot(disk), Calm(), before, next);
  }

  /** Whatever interrupts the swap and the starts after it, the next undisturbed
      start finds exactly the old or the new seed: never none. */
  lemma SeedSurvives(disk: Disk, w: Weather, weathers: seq<Weather>, before: int, next: int)
    requires Path in disk && disk[Path] == Seed(before)
    requires Staged in disk && disk[Staged] == Seed(next)
    ensures SwapAndRecover(disk, w, weathers).ok
    ensures Holds(SwapAndRecover(disk, w, weathers).m.disk, before, next)
  {
    SwapIsSafe(Boot(disk), w, before, next);
    RestartsAreSafe(CommitSwap(Boot(disk), w).m.disk, weathers, before, next);
    CalmRecoverySucceeds(Restarted(CommitSwap(Boot(disk), w).m.disk, weathers), before, next);
  }

  /** Dying right after the first operation of the swap. */
  function DieEarly(): Weather {
    Weather((n: nat) => false, 1)
  }

  lemma DyingEarlyKeepsOnlyThePath(disk: Disk)
    ensures CommitSwap(Boot(disk), DieEarly()).m.disk == disk - {Backup}
    ensures var after := SwapAndRecover(disk, DieEarly(), []).m.disk;
            (Path in after <==> Path in disk) && (Path in disk ==> after[Path] == disk[Path])
  {
  }

  /** The seed at the path is also necessary: a swap survives every disturbance if
      and only if it starts with one there. A seed that is only in the backup, as
      after a rollback that failed, can be lost. */
  lemma SwapSurvivesIff(disk: Disk, before: int, next: int)
    requires Staged in disk && disk[Staged] == Seed(next)
    ensures (forall w, weathers :: Holds(SwapAndRecover(disk, w, weathers).m.disk, before, next))
            <==> Holds(disk, before, next)
  {
    if Holds(disk, before, next) {
      var current := disk[Path].key;
      forall w, weathers ensures Holds(SwapAndRecover(disk, w, weathers).m.disk, before, next) {
        SeedSurvives(disk, w, weathers, current, next);
      }
    } else {
      DyingEarlyKeepsOnlyThePath(disk);
      assert !Holds(SwapAndRecover(disk, DieEarly(), []).m.disk, before, next);
    }
  }

  /** A failed swap in which a single operation failed has restored the old seed. */
  lemma OneFailureRestores(disk: Disk, w: Weather, k: nat, before: int, next: int)
    requires Path in disk && disk[Path] == Seed(before)
    requires Staged in disk && disk[Staged] == Seed(next)
    requires w.crash >= 100 && forall n: nat :: w.fails(n) ==> n == k
    requires !CommitSwap(Boot(disk), w).ok
    ensures Path in CommitSwap(Boot(disk), w).m.disk && CommitSwap(Boot(disk), w).m.disk[Path] == Seed(before)
  {
  }

  // ---- Undisturbed ------------------------------------------------------

  /** An undisturbed swap succeeds, with or without an old seed: the new one is at the
      path, and neither the backup nor the staged file is left. */
  lemma CalmSwapSucceeds(disk: Disk, next: int)
    requires Staged in disk && disk[Staged] == Seed(next)
    ensures CommitSwap(Boot(disk), Calm()).ok
    ensures CommitSwap(Boot(disk), Calm()).m.disk == map[Path := Seed(next)]
  {
    NamesAreThree(CommitSwap(Boot(disk), Calm()).m.disk);
  }

  lemma NamesAreThree(disk: Disk)
    requires Backup !in disk && Staged !in disk
    ensures disk == if Path in disk then map[Path := disk[Path]] else map[]
  {
    forall name | name in disk ensures name == Path {
      match name case Path => case Backup => case Staged =>
    }
  }

  /** An undisturbed recovery fails exactly if the file it would use is damaged, and
      then changes nothing; otherwise it leaves only the seed at the path, taking it
      from the backup if there is none. */
  lemma CalmRecovery(disk: Disk)
    ensures var r := Recover(Boot(disk), Calm());
            var used := if Path in disk then Some(disk[Path]) else if Backup in disk then Some(disk[Backup]) else None;
            && (r.ok <==> used != Some(Damaged))
            && r.m.disk == (if used == Some(Damaged) then disk
                            else if used.Some? then map[Path := used.value] else map[])
  {
    var after := Recover(Boot(disk), Calm()).m.disk;
    if Backup !in after && Staged !in after { NamesAreThree(after); }
  }
}
