/** How the store file is replaced and recovered, with a crash possible after any rename or removal. */
module LicensingDisk {
  import opened Prelude

  /** The store file and its `.previous` backup. Temporary files are never read back. */
  datatype Disk<C> = Disk(main: Option<C>, previous: Option<C>)

  /** Whether each call of replaceFile, in source order, succeeds when it can. */
  datatype Fates = Fates(
    install: bool, dropBackup: bool, setAside: bool, installAgain: bool, rollBack: bool, dropLast: bool)

  /** Whether each call of load succeeds when it can: reading either file, and the rename back. */
  datatype Reads = Reads(main: bool, backup: bool, rename: bool)

  /** Whether load gets hold of the contents. */
  predicate Loads<C>(d: Disk<C>, io: Reads) {
    if d.main.Some? then io.main else d.previous.Some? ==> io.backup && io.rename
  }

  /** What a restart finds: the store file, else the backup, else a new empty store. */
  function Recovered<C>(d: Disk<C>, empty: C): C {
    if d.main.Some? then d.main.value else if d.previous.Some? then d.previous.value else empty
  }

  /** The store file exists, or neither file does. */
  predicate Sound<C>(d: Disk<C>) {
    d.main.Some? || d.previous.None?
  }

  /** The four file operations, each with its fate; `None` as main or previous makes a rename fail. */
  function Install<C>(d: Disk<C>, next: C): Disk<C> {
    d.(main := Some(next))
  }

  function DropBackup<C>(d: Disk<C>): Disk<C> {
    d.(previous := None)
  }

  function SetAside<C>(d: Disk<C>): Disk<C> {
    if d.main.Some? then Disk(None, d.main) else d
  }

  function RollBack<C>(d: Disk<C>): Disk<C> {
    if d.previous.Some? then Disk(d.previous, None) else d
  }

  /** replaceFile: the disks after each of its file operations, the last one being the result. */
  function Images<C>(d: Disk<C>, next: C, f: Fates): (images: seq<Disk<C>>)
    ensures images != []
  {
    if f.install then [Install(d, next)]
    else
      var d1 := if f.dropBackup then DropBackup(d) else d;
      if d1.main.Some? && !f.setAside then [d, d1, d1]
      else
        var d2 := SetAside(d1);
        if !f.installAgain then
          [d, d1, d2, d2, if f.rollBack then RollBack(d2) else d2]
        else
          var d3 := Install(d2, next);
          [d, d1, d2, d3, if f.dropLast then DropBackup(d3) else d3]
  }

  /** Whether replaceFile returns an error. */
  predicate Fails<C>(d: Disk<C>, f: Fates) {
    !f.install && ((d.main.Some? && !f.setAside) || !f.installAgain)
  }

  function Final<C>(d: Disk<C>, next: C, f: Fates): Disk<C> {
    var images := Images(d, next, f);
    images[|images| - 1]
  }

  /** Every disk a crash can leave behind is recovered as the old or the new contents. */
  predicate Atomic<C(==)>(d: Disk<C>, next: C, empty: C, f: Fates) {
    forall i :: 0 <= i < |Images(d, next, f)| ==>
      var r := Recovered(Images(d, next, f)[i], empty); r == Recovered(d, empty) || r == next
  }

  /** From a sound disk a replacement is atomic, and its return value tells which contents remain. */
  lemma ReplaceIsAtomic<C>(d: Disk<C>, next: C, empty: C, f: Fates)
    requires Sound(d)
    ensures Atomic(d, next, empty, f)
    ensures Recovered(Final(d, next, f), empty) == if Fails(d, f) then Recovered(d, empty) else next
    ensures !Fails(d, f) || f.rollBack ==> Sound(Final(d, next, f))
  {
  }

  /** Soundness is exactly what atomicity needs: with only a backup on disk that is worth anything,
      some fates lose it, because the backup is removed before the store file is in place. */
  lemma AtomicIffSound<C>(d: Disk<C>, empty: C)
    ensures (forall next: C, f: Fates :: Atomic(d, next, empty, f))
            <==> Sound(d) || d.previous == Some(empty)
  {
    if Sound(d) {
      forall next: C, f: Fates ensures Atomic(d, next, empty, f) {
        ReplaceIsAtomic(d, next, empty, f);
      }
    } else if d.previous == Some(empty) {
      forall next: C, f: Fates ensures Atomic(d, next, empty, f) {
      }
    } else {
      var f := Fates(false, true, true, false, true, true);
      var kept := d.previous.value;
      assert Images(d, kept, f)[1] == Disk(None, None);
      assert !Atomic(d, kept, empty, f);
    }
  }

  /** A concrete loss: the rollback of one replacement fails, and the next replacement fails too. */
  lemma TwoFailuresLoseTheStore()
    ensures var d := Disk(Some(1), None);
      var unlucky := Fates(false, true, true, false, false, true);
      var d1 := Final(d, 2, unlucky);
      && Recovered(d1, 0) == 1 && !Sound(d1)
      && Recovered(Final(d1, 3, unlucky), 0) == 0
  {
  }

  // ----- the same as a file system that is changed in place -----

  class FileSystem<C> {
    var disk: Disk<C>
    ghost var seen: seq<Disk<C>>

    constructor (disk: Disk<C>)
      ensures this.disk == disk && seen == []
    {
      this.disk := disk;
      seen := [];
    }

    /** A file operation: the disk afterwards is recorded as one a crash could leave behind. */
    method Record(after: Disk<C>)
      modifies this
      ensures disk == after && seen == old(seen) + [after]
    {
      disk := after;
      seen := seen + [after];
    }

    method RenameTempToMain(next: C, fate: bool) returns (ok: bool)
      modifies this
      ensures ok == fate && disk == (if fate then Install(old(disk), next) else old(disk))
      ensures seen == old(seen) + [disk]
    {
      Record(if fate then Disk(Some(next), disk.previous) else disk);
      ok := fate;
    }

    method RemovePrevious(fate: bool)
      modifies this
      ensures disk == (if fate then DropBackup(old(disk)) else old(disk)) && seen == old(seen) + [disk]
    {
      Record(if fate then Disk(disk.main, None) else disk);
    }

    method RenameMainToPrevious(fate: bool) returns (ok: bool, missing: bool)
      modifies this
      ensures missing == old(disk).main.None? && ok == (fate && !missing)
      ensures disk == (if ok then SetAside(old(disk)) else old(disk)) && seen == old(seen) + [disk]
    {
      missing := disk.main.None?;
      ok := fate && !missing;
      Record(if ok then Disk(None, disk.main) else disk);
    }

    method RenamePreviousToMain(fate: bool) returns (ok: bool)
      modifies this
      ensures ok == (fate && old(disk).previous.Some?)
      ensures disk == (if ok then RollBack(old(disk)) else old(disk)) && seen == old(seen) + [disk]
    {
      ok := fate && disk.previous.Some?;
      Record(if ok then Disk(disk.previous, None) else disk);
    }

    /** replaceFile, step by step. */
    method ReplaceFile(next: C, f: Fates) returns (failed: bool)
      modifies this
      ensures failed == Fails(old(disk), f)
      ensures seen == old(seen) + Images(old(disk), next, f)
      ensures disk == Final(old(disk), next, f)
    {
      var ok := RenameTempToMain(next, f.install);
      if ok {
        return false;
      }
      RemovePrevious(f.dropBackup);
      var aside, missing := RenameMainToPrevious(f.setAside);
      if !aside && !missing {
        return true;
      }
      ok := RenameTempToMain(next, f.installAgain);
      if !ok {
        var _ := RenamePreviousToMain(f.rollBack);
        return true;
      }
      RemovePrevious(f.dropLast);
      return false;
    }

    /** load: the store file, or the backup renamed back into place, or a new store. */
    method Load(empty: C, io: Reads) returns (r: Option<C>)
      modifies this
      ensures r.Some? <==> Loads(old(disk), io)
      ensures r.Some? ==> r.value == Recovered(old(disk), empty) && Sound(disk)
      ensures forall c :: Recovered(disk, c) == Recovered(old(disk), c)
    {
      if disk.main.Some? {
        return if io.main then disk.main else None;
      }
      if disk.previous.None? {
        return Some(empty);
      }
      if !io.backup {
        return None;
      }
      var data := disk.previous;
      var ok := RenamePreviousToMain(io.rename);
      r := if ok then data else None;
    }
  }

  // ----- runs of a store over its disk -----

  /** A process that may be down, what it holds in memory, and the disk. */
  datatype Node<C> = Node(up: bool, memory: C, disk: Disk<C>)

  datatype DiskStep<C> =
    | Commit(next: C, f: Fates)
    | CrashInCommit(next: C, f: Fates, after: nat)
    | Crash
    | Start(io: Reads)

  function LoadedDisk<C>(d: Disk<C>): Disk<C> {
    if d.main.None? then RollBack(d) else d
  }

  /** One step. A commit whose rollback rename fails is outside the claim. */
  ghost predicate NodeNext<C(!new)>(n: Node<C>, step: DiskStep<C>, empty: C, n': Node<C>) {
    match step
    case Commit(next, f) =>
      && n.up && (Fails(n.disk, f) ==> f.rollBack)
      && n' == Node(true, if Fails(n.disk, f) then n.memory else next, Final(n.disk, next, f))
    case CrashInCommit(next, f, after) =>
      && n.up && after < |Images(n.disk, next, f)|
      && n' == n.(up := false, disk := Images(n.disk, next, f)[after])
    case Crash => n.up && n' == n.(up := false)
    case Start(io) =>
      && !n.up
      && n' == if Loads(n.disk, io) then Node(true, Recovered(n.disk, empty), LoadedDisk(n.disk)) else n
  }

  /** What the node stands for: the contents that survive a crash right now. */
  function Contents<C>(n: Node<C>, empty: C): C {
    Recovered(n.disk, empty)
  }

  ghost predicate NodeOk<C>(n: Node<C>, empty: C) {
    n.up ==> Sound(n.disk) && n.memory == Contents(n, empty)
  }

  /** A store whose commits happen all at once or not at all; `failed` is what a commit reports. */
  ghost predicate AtomicStep<C(!new)>(before: C, step: DiskStep<C>, failed: bool, after: C) {
    match step
    case Commit(next, _) => after == if failed then before else next
    case CrashInCommit(next, _, _) => after == before || after == next
    case Crash => after == before
    case Start(_) => after == before
  }

  predicate Failed<C>(n: Node<C>, step: DiskStep<C>) {
    step.Commit? && Fails(n.disk, step.f)
  }

  /** Every step acts on the contents like a step of the atomic store. */
  lemma StepsAreAtomic<C(!new)>(n: Node<C>, step: DiskStep<C>, empty: C, n': Node<C>)
    requires NodeOk(n, empty) && NodeNext(n, step, empty, n')
    ensures NodeOk(n', empty)
    ensures AtomicStep(Contents(n, empty), step, Failed(n, step), Contents(n', empty))
  {
    match step
    case Commit(next, f) => ReplaceIsAtomic(n.disk, next, empty, f);
    case CrashInCommit(next, f, after) => ReplaceIsAtomic(n.disk, next, empty, f);
    case Crash =>
    case Start(_) =>
  }

  ghost predicate NodeRun<C(!new)>(nodes: seq<Node<C>>, steps: seq<DiskStep<C>>, empty: C) {
    && |nodes| == |steps| + 1
    && nodes[0] == Node(false, empty, Disk(None, None))
    && forall i :: 0 <= i < |steps| ==> NodeNext(nodes[i], steps[i], empty, nodes[i + 1])
  }

  /** Every run of commits, crashes and restarts refines a run of the atomic store, and a running
      store holds in memory exactly what a crash would bring back. */
  lemma {:induction false} RunsRefineAtomicStore<C(!new)>(nodes: seq<Node<C>>, steps: seq<DiskStep<C>>, empty: C,
                                                   i: nat)
    requires NodeRun(nodes, steps, empty) && i < |nodes|
    ensures Contents(nodes[0], empty) == empty
    ensures nodes[i].up ==> nodes[i].memory == Contents(nodes[i], empty)
    ensures NodeOk(nodes[i], empty)
    ensures i < |steps| ==>
              AtomicStep(Contents(nodes[i], empty), steps[i], Failed(nodes[i], steps[i]), Contents(nodes[i + 1], empty))
  {
    if i > 0 {
      RunsRefineAtomicStore(nodes, steps, empty, i - 1);
      StepsAreAtomic(nodes[i - 1], steps[i - 1], empty, nodes[i]);
    }
    if i < |steps| {
      StepsAreAtomic(nodes[i], steps[i], empty, nodes[i + 1]);
    }
  }

  /** Whatever a commit reported is what later restarts find, as long as nothing else is committed. */
  lemma {:induction false} CommittedStays<C(!new)>(nodes: seq<Node<C>>, steps: seq<DiskStep<C>>, empty: C, i: nat,
                                            j: nat)
    requires NodeRun(nodes, steps, empty) && i < j < |nodes|
    requires steps[i].Commit? && !Fails(nodes[i].disk, steps[i].f)
    requires forall k :: i < k < j ==> steps[k].Crash? || steps[k].Start? || Failed(nodes[k], steps[k])
    ensures Contents(nodes[j], empty) == steps[i].next
    ensures nodes[j].up ==> nodes[j].memory == steps[i].next
  {
    RunsRefineAtomicStore(nodes, steps, empty, j - 1);
    StepsAreAtomic(nodes[j - 1], steps[j - 1], empty, nodes[j]);
    if i + 1 < j {
      CommittedStays(nodes, steps, empty, i, j - 1);
    }
  }
}
