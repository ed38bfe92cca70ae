/**
 Importing state into the data directory: stage a copy, validate it, move the previous
 state aside and rename the copy into place.

 Every change to the disk has a fate: it works, the system call raises, or the process
 is killed before it.  What a killed copy leaves in the staging folder is arbitrary.
 */
module StateImport {
  import opened Common
  import opened StateArchive
  import opened StateArchiveProperties

  // ----- Subtrees -----

  // The subtree at p with paths relative to it; empty when there is nothing at p.
  function Lift(e: Entries, p: Path): (t: Entries)
    ensures forall r {:trigger r in t} :: r in t <==> p + r in e
    ensures forall r {:trigger r in t} :: r in t ==> t[r] == e[p + r]
  {
    LiftKeys(e, p);
    map r | r in (set q | q in e && p <= q :: q[|p|..]) :: e[p + r]
  }

  lemma LiftKeys(e: Entries, p: Path)
    ensures forall r :: r in (set q | q in e && p <= q :: q[|p|..]) <==> p + r in e
  {
    forall r ensures r in (set q | q in e && p <= q :: q[|p|..]) <==> p + r in e {
      assert (p + r)[|p|..] == r && p <= p + r;
      assert forall q :: q in e && p <= q && q[|p|..] == r ==> q == p + r;
    }
  }

  function Without(e: Entries, p: Path): (f: Entries)
    ensures forall q :: q in f <==> q in e && !(p <= q)
    ensures forall q :: q in f ==> f[q] == e[q]
  {
    map q | q in e && !(p <= q) :: e[q]
  }

  // The disk with this tree put at p.
  function Put(e: Entries, p: Path, t: Entries): (f: Entries)
    ensures forall q {:trigger q in f} :: q in f <==> q in e || (p <= q && q[|p|..] in t)
    ensures forall q {:trigger q in f} {:trigger f[q]} :: q in f ==>
      f[q] == if p <= q && q[|p|..] in t then t[q[|p|..]] else e[q]
  {
    PutKeys(p, t);
    e + map q | q in (set r | r in t :: p + r) :: t[q[|p|..]]
  }

  lemma PutKeys(p: Path, t: Entries)
    ensures forall q :: q in (set r | r in t :: p + r) <==> p <= q && q[|p|..] in t
  {
    forall q ensures q in (set r | r in t :: p + r) <==> p <= q && q[|p|..] in t {
      assert p <= q ==> q == p + q[|p|..];
      assert forall r :: r in t && q == p + r ==> q[|p|..] == r;
    }
  }

  function Renamed(e: Entries, from: Path, to: Path): Entries {
    Put(Without(e, from), to, Lift(e, from))
  }

  ghost predicate Apart(a: Path, b: Path) {
    !(a <= b) && !(b <= a)
  }

  // A tree: everything but its root lies in one of its folders.
  ghost predicate TreeForm(t: Entries) {
    && [] in t
    && forall p {:trigger Parent(p)} :: p in t && p != [] ==> Parent(p) in t && t[Parent(p)] == Directory
  }

  lemma LiftIsTree(e: Entries, p: Path)
    requires WellFormed(e) && p in e
    ensures TreeForm(Lift(e, p))
  {
    var t := Lift(e, p);
    assert p + [] == p;
    forall r | r in t && r != [] ensures Parent(r) in t && t[Parent(r)] == Directory {
      assert Parent(p + r) == p + Parent(r);
    }
  }

  lemma NothingBelowNothing(e: Entries, p: Path)
    requires WellFormed(e) && p !in e
    ensures Untouched(e.Keys, p) && Lift(e, p) == map[]
  {
    forall q | q in e.Keys ensures !(p <= q) {
      if p <= q && p != q {
        AncestorsAreFolders(e, p, q);
      }
    }
    assert forall r :: p <= p + r;
  }

  lemma PutKeepsForm(e: Entries, p: Path, t: Entries)
    requires WellFormed(e) && TreeForm(t) && p !in e
    requires p != [] && Parent(p) in e && e[Parent(p)] == Directory
    ensures WellFormed(Put(e, p, t))
  {
    NothingBelowNothing(e, p);
    var f := Put(e, p, t);
    forall q | q in f && q != [] ensures Parent(q) in f && f[Parent(q)] == Directory {
      if q in e {
        assert !(p <= Parent(q)) by {
          assert Parent(q) in e.Keys;
        }
      } else if q == p {
        assert !(p <= Parent(p));
      } else {
        PrefixOfParent(p, q);
        assert Parent(q)[|p|..] == Parent(q[|p|..]);
      }
    }
  }

  lemma WithoutKeepsForm(e: Entries, p: Path)
    requires WellFormed(e) && p != []
    ensures WellFormed(Without(e, p))
  {
  }

  lemma PutApart(e: Entries, p: Path, t: Entries, other: Path)
    requires Apart(p, other)
    ensures Lift(Put(e, p, t), other) == Lift(e, other)
  {
  }

  lemma PutHere(e: Entries, p: Path, t: Entries)
    requires Untouched(e.Keys, p)
    ensures Lift(Put(e, p, t), p) == t
  {
  }

  lemma WithoutApart(e: Entries, p: Path, other: Path)
    requires Apart(p, other)
    ensures Lift(Without(e, p), other) == Lift(e, other)
  {
  }

  // Making missing folders above p leaves the subtrees apart from them alone.
  lemma FoldersApart(e: Entries, p: Path, other: Path)
    requires CanMake(e, p) && !(other <= p)
    ensures Lift(WithFolders(e, p), other) == Lift(e, other)
  {
  }

  // ----- The import -----

  // Asked in order for: 0 the parent folder, 1 the scratch folder, 2 staging, 3 moving the
  // previous state aside, 4 moving the staged state in, 5 removing the scratch folder.
  datatype Fate = Works | Raises | Killed

  datatype Outcome =
    | Imported(backup: Option<Path>)
    | Refused(reason: string)
    | Failed
    | Dead

  const DATABASE := "modeldeck.sqlite3"

  // What validation asks of a state directory; `sound` judges the database itself.
  predicate Importable(t: Entries, sound: string -> bool) {
    && [] in t && t[[]] == Directory
    && [DATABASE] in t && t[[DATABASE]].Document? && sound(t[[DATABASE]].content)
    && forall q :: q in t ==> t[q] != Link
  }

  // There is something in it.
  predicate Occupied(t: Entries) {
    exists r :: r in t && r != []
  }

  datatype Job = Job(source: Path, dest: Path, scratchName: string, stamp: string)
  {
    function Above(): Path
      requires dest != []
    {
      Parent(dest)
    }

    function Scratch(): Path
      requires dest != []
    {
      Above() + [scratchName]
    }

    function Staged(): Path
      requires dest != []
    {
      Scratch() + ["state"]
    }

    function BackupName(): string
      requires dest != []
    {
      dest[|dest| - 1] + ".backup-" + stamp
    }

    function Backup(): Path
      requires dest != []
    {
      Above() + [BackupName()]
    }

    // Neither of source and destination lies in the other.
    ghost predicate Separate() {
      Apart(source, dest)
    }

    // A scratch folder whose name is not taken.
    ghost predicate Sane(e: Entries) {
      && dest != [] && ".." !in dest
      && Untouched(e.Keys, Scratch())
      && !(Scratch() <= source)
      && scratchName != dest[|dest| - 1] && scratchName != BackupName() && scratchName != ".."
    }
  }

  lemma JobPathsApart(job: Job)
    requires job.dest != [] && job.scratchName != job.dest[|job.dest| - 1] && job.scratchName != job.BackupName()
    ensures Apart(job.dest, job.Backup()) && Apart(job.Scratch(), job.dest) && Apart(job.Scratch(), job.Backup())
    ensures Apart(job.Staged(), job.dest) && Apart(job.Staged(), job.Backup()) && Parent(job.Staged()) == job.Scratch()
    ensures Parent(job.Scratch()) == job.Above() && Parent(job.Backup()) == job.Above()
    ensures !(job.dest <= job.Above()) && !(job.Backup() <= job.Above()) && !(job.Scratch() <= job.Above())
  {
  }

  lemma ScratchApart(job: Job)
    requires job.dest != [] && job.Separate() && !(job.Scratch() <= job.source)
    ensures Apart(job.Scratch(), job.source) && Apart(job.Staged(), job.source)
    ensures !(job.source <= job.Above())
  {
  }

  // Something that is there, and disjoint from the destination, is apart from whatever
  // lies beside the destination and is not there.
  lemma ThereIsApart(e: Entries, job: Job, p: Path)
    requires WellFormed(e) && job.dest != [] && job.Separate() && job.source in e
    requires p != [] && Parent(p) == job.Above() && p !in e
    ensures Apart(p, job.source)
  {
    NothingBelowNothing(e, p);
    if job.source <= p {
      PrefixOfParent(job.source, p);
      PrefixOfParent(job.source, job.dest);
    }
  }

  // Destination and backup hold what they held, and so does a source apart from them.
  ghost predicate SameSlots(before: Entries, after: Entries, job: Job)
    requires job.dest != []
  {
    && (job.Separate() ==> Lift(after, job.source) == Lift(before, job.source))
    && Lift(after, job.dest) == Lift(before, job.dest)
    && Lift(after, job.Backup()) == Lift(before, job.Backup())
  }

  /** What must hold whenever the import stops.  A source apart from the destination is
      as it was (one inside it counts as previous state).  Previous
      state that is not empty is either still at the destination, with nothing new at
      the backup path, or complete at the backup path, which was free.  The destination
      holds its previous state, nothing, or a validated state. */
  ghost predicate SwapSafe(before: Entries, after: Entries, job: Job, sound: string -> bool)
    requires job.dest != []
  {
    var previous := Lift(before, job.dest);
    var kept := Lift(after, job.dest) == previous && Lift(after, job.Backup()) == Lift(before, job.Backup());
    var replaced := Lift(after, job.dest) == map[] || Importable(Lift(after, job.dest), sound);
    && (job.Separate() ==> Lift(after, job.source) == Lift(before, job.source))
    && if Occupied(previous) then
         kept || (replaced && Lift(before, job.Backup()) == map[] && Lift(after, job.Backup()) == previous)
       else
         kept || (replaced && Lift(after, job.Backup()) == Lift(before, job.Backup()))
  }

  // Nothing disappears or changes but below the destination and the scratch folder.
  ghost predicate Kept(before: Entries, after: Entries, job: Job)
    requires job.dest != []
  {
    forall q :: q in before && !(job.dest <= q) && !(job.Scratch() <= q) ==> q in after && after[q] == before[q]
  }

  lemma SlotsThenSwap(a: Entries, b: Entries, c: Entries, job: Job, sound: string -> bool)
    requires job.dest != [] && SameSlots(a, b, job) && SwapSafe(b, c, job, sound)
    ensures SwapSafe(a, c, job, sound)
  {
  }

  lemma SwapThenSlots(a: Entries, b: Entries, c: Entries, job: Job, sound: string -> bool)
    requires job.dest != [] && SwapSafe(a, b, job, sound) && SameSlots(b, c, job)
    ensures SwapSafe(a, c, job, sound)
  {
  }

  lemma SameSlotsAreSafe(a: Entries, b: Entries, job: Job, sound: string -> bool)
    requires job.dest != [] && SameSlots(a, b, job)
    ensures SwapSafe(a, b, job, sound)
  {
  }

  // ----- Moving things on the disk -----

  lemma RenameWorks(e: Entries, from: Path, to: Path)
    requires WellFormed(e) && from != [] && from in e && to !in e && Apart(from, to)
    requires to != [] && Parent(to) in e && e[Parent(to)] == Directory && !(from <= Parent(to))
    ensures WellFormed(Renamed(e, from, to))
    ensures Lift(Renamed(e, from, to), to) == Lift(e, from) && Lift(Renamed(e, from, to), from) == map[]
  {
    hide Put, Without, Lift, TreeForm, Untouched;
    var rest, tree := Without(e, from), Lift(e, from);
    LiftIsTree(e, from);
    WithoutKeepsForm(e, from);
    NothingBelowNothing(rest, to);
    PutKeepsForm(rest, to, tree);
    PutHere(rest, to, tree);
    PutApart(rest, to, tree, from);
  }

  lemma RenameSpares(e: Entries, from: Path, to: Path, other: Path)
    requires Apart(from, other) && Apart(to, other)
    ensures Lift(Renamed(e, from, to), other) == Lift(e, other)
  {
    hide Put, Without, Lift;
    WithoutApart(e, from, other);
    PutApart(Without(e, from), to, Lift(e, from), other);
  }

  lemma RenameKeeps(e: Entries, from: Path, to: Path)
    requires WellFormed(e) && to !in e
    ensures forall q :: q in e && !(from <= q) ==> q in Renamed(e, from, to) && Renamed(e, from, to)[q] == e[q]
  {
    NothingBelowNothing(e, to);
  }

  method Rename(disk: Disk, from: Path, to: Path)
    requires disk.Valid() && from != [] && from in disk.entries && to !in disk.entries && Apart(from, to)
    requires to != [] && Parent(to) in disk.entries && disk.entries[Parent(to)] == Directory && !(from <= Parent(to))
    modifies disk
    ensures disk.Valid() && disk.entries == Renamed(old(disk.entries), from, to)
  {
    RenameWorks(disk.entries, from, to);
    disk.entries := Put(Without(disk.entries, from), to, Lift(disk.entries, from));
  }

  method RemoveTree(disk: Disk, p: Path)
    requires disk.Valid() && p != []
    modifies disk
    ensures disk.Valid() && disk.entries == Without(old(disk.entries), p)
  {
    WithoutKeepsForm(disk.entries, p);
    disk.entries := Without(disk.entries, p);
  }

  // The destination is free and the previous state, if any, is at the backup path.
  ghost predicate Aside(before: Entries, now: Entries, job: Job)
    requires job.dest != []
  {
    var previous := Lift(before, job.dest);
    && WellFormed(now) && job.dest !in now
    && (job.Separate() ==> Lift(now, job.source) == Lift(before, job.source))
    && (if Occupied(previous)
        then Lift(before, job.Backup()) == map[] && Lift(now, job.Backup()) == previous
        else Lift(now, job.Backup()) == Lift(before, job.Backup()))
    && Lift(now, job.Staged()) == Lift(before, job.Staged())
  }

  lemma AsideIsSafe(before: Entries, aside: Entries, now: Entries, job: Job, sound: string -> bool)
    requires job.dest != [] && Aside(before, aside, job)
    requires job.Separate() ==> Lift(now, job.source) == Lift(aside, job.source)
    requires Lift(now, job.Backup()) == Lift(aside, job.Backup())
    requires Lift(now, job.dest) == map[] || Importable(Lift(now, job.dest), sound)
    ensures SwapSafe(before, now, job, sound)
  {
  }

  // What the swap needs of the disk and the paths.
  ghost predicate Ready(e: Entries, job: Job) {
    && job.dest != [] && (job.Separate() ==> job.source in e)
    && job.scratchName != job.dest[|job.dest| - 1] && job.scratchName != job.BackupName()
    && !(job.Scratch() <= job.source)
    && job.Staged() in e
    && job.Above() in e && e[job.Above()] == Directory
  }

  lemma AsideByRename(e: Entries, job: Job)
    requires WellFormed(e) && Ready(e, job) && job.dest in e && job.Backup() !in e
    requires Occupied(Lift(e, job.dest))
    ensures
      var now := Renamed(e, job.dest, job.Backup());
      Aside(e, now, job) && Kept(e, now, job) && Ready(now, job)
    ensures Apart(job.dest, job.Backup()) && Parent(job.Backup()) == job.Above() && !(job.dest <= job.Above())
  {
    hide Without, Put, Lift, Occupied, Renamed, Apart, WellFormed;
    var backup := job.Backup();
    var now := Renamed(e, job.dest, backup);
    JobPathsApart(job);
    Turned(job.dest, job.Staged());
    Turned(job.dest, job.source);
    Turned(backup, job.Staged());
    NothingBelowNothing(e, backup);
    RenameWorks(e, job.dest, backup);
    RenameKeeps(e, job.dest, backup);
    if job.Separate() {
      ThereIsApart(e, job, backup);
      RenameSpares(e, job.dest, backup, job.source);
    }
    RenameSpares(e, job.dest, backup, job.Staged());
    RootsDecide(e, now, job);
  }

  lemma AsideByRemoval(e: Entries, job: Job)
    requires WellFormed(e) && Ready(e, job) && job.dest in e && !Occupied(Lift(e, job.dest))
    ensures
      var now := Without(e, job.dest);
      Aside(e, now, job) && Kept(e, now, job) && Ready(now, job)
  {
    hide Lift, Occupied, Apart, WellFormed;
    var now := Without(e, job.dest);
    JobPathsApart(job);
    Turned(job.dest, job.Staged());
    Turned(job.dest, job.source);
    WithoutKeepsForm(e, job.dest);
    if job.Separate() {
      WithoutApart(e, job.dest, job.source);
    }
    WithoutApart(e, job.dest, job.Backup());
    WithoutApart(e, job.dest, job.Staged());
    RootsDecide(e, now, job);
  }

  lemma RootsDecide(e: Entries, now: Entries, job: Job)
    requires job.dest != []
    ensures job.dest in now <==> [] in Lift(now, job.dest)
    ensures Lift(now, job.Staged()) == Lift(e, job.Staged()) ==> (job.Staged() in now <==> job.Staged() in e)
    ensures Lift(now, job.source) == Lift(e, job.source) ==> (job.source in now <==> job.source in e)
  {
    hide Lift;
    RootOfLift(now, job.dest);
    RootOfLift(e, job.Staged());
    RootOfLift(now, job.Staged());
    RootOfLift(e, job.source);
    RootOfLift(now, job.source);
  }

  // Move the previous state to the backup path, or remove an empty destination.
  method MoveAside(disk: Disk, job: Job, existing: bool)
    requires disk.Valid() && Ready(disk.entries, job) && job.dest in disk.entries
    requires existing == Occupied(Lift(disk.entries, job.dest))
    requires existing ==> job.Backup() !in disk.entries
    modifies disk
    ensures disk.Valid() && Aside(old(disk.entries), disk.entries, job)
    ensures Ready(disk.entries, job) && Kept(old(disk.entries), disk.entries, job)
  {
    hide Without, Put, Lift, Occupied, Renamed, Apart, Aside, Kept;
    if existing {
      AsideByRename(disk.entries, job);
      Rename(disk, job.dest, job.Backup());
    } else {
      AsideByRemoval(disk.entries, job);
      RemoveTree(disk, job.dest);
    }
  }

  lemma Turned(a: Path, b: Path)
    ensures Apart(a, b) <==> Apart(b, a)
  {
  }

  // Something is at p exactly when the subtree there has a root.
  lemma RootOfLift(e: Entries, p: Path)
    ensures p in e <==> [] in Lift(e, p)
  {
    assert p + [] == p;
  }

  lemma KeptChains(a: Entries, b: Entries, c: Entries, job: Job)
    requires job.dest != [] && Kept(a, b, job) && Kept(b, c, job)
    ensures Kept(a, c, job)
  {
  }

  lemma MovingInSpares(aside: Entries, job: Job)
    requires Ready(aside, job)
    ensures
      var now := Renamed(aside, job.Staged(), job.dest);
      && (job.Separate() ==> Lift(now, job.source) == Lift(aside, job.source))
      && Lift(now, job.Backup()) == Lift(aside, job.Backup())
    ensures Apart(job.Staged(), job.dest) && !(job.Staged() <= job.Above())
  {
    hide Renamed, Apart;
    JobPathsApart(job);
    Turned(job.dest, job.source);
    if job.Separate() {
      ScratchApart(job);
      RenameSpares(aside, job.Staged(), job.dest, job.source);
    }
    Turned(job.dest, job.Backup());
    RenameSpares(aside, job.Staged(), job.dest, job.Backup());
    StagedIsInScratch(job, job.Above());
  }

  // Renaming the staged state into the free destination.
  lemma MovingInIsSafe(before: Entries, aside: Entries, job: Job, sound: string -> bool)
    requires Ready(aside, job) && Aside(before, aside, job) && Importable(Lift(before, job.Staged()), sound)
    ensures
      var now := Renamed(aside, job.Staged(), job.dest);
      && SwapSafe(before, now, job, sound) && Kept(aside, now, job)
      && Lift(now, job.dest) == Lift(before, job.Staged())
    ensures Apart(job.Staged(), job.dest) && !(job.Staged() <= job.Above())
  {
    hide Without, Put, Lift, Occupied, Renamed, Apart, SwapSafe, Importable, WellFormed;
    MovingInSpares(aside, job);
    RenameWorks(aside, job.Staged(), job.dest);
    RenameKeeps(aside, job.Staged(), job.dest);
    AsideIsSafe(before, aside, Renamed(aside, job.Staged(), job.dest), job, sound);
    forall q | q in aside ensures job.Staged() <= q ==> job.Scratch() <= q {
      StagedIsInScratch(job, q);
    }
  }

  lemma StagedIsInScratch(job: Job, q: Path)
    requires job.dest != []
    ensures job.Staged() <= q ==> job.Scratch() <= q
  {
  }

  // The previous state can be moved aside, and both renames work.
  ghost predicate CanSwap(e: Entries, job: Job, fate: nat -> Fate)
    requires job.dest != []
  {
    && (job.dest in e ==> fate(3) == Works && (Occupied(Lift(e, job.dest)) ==> job.Backup() !in e))
    && fate(4) == Works
  }

  // The last lines of both imports: move the previous state aside, then the staged
  // state into place.
  method Swap(disk: Disk, job: Job, sound: string -> bool, fate: nat -> Fate) returns (outcome: Outcome)
    requires disk.Valid() && Ready(disk.entries, job) && Importable(Lift(disk.entries, job.Staged()), sound)
    modifies disk
    ensures disk.Valid() && Kept(old(disk.entries), disk.entries, job)
    ensures SwapSafe(old(disk.entries), disk.entries, job, sound)
    ensures outcome.Refused? ==> SameSlots(old(disk.entries), disk.entries, job)
    ensures outcome.Imported? ==>
      && Lift(disk.entries, job.dest) == Lift(old(disk.entries), job.Staged())
      && outcome.backup == if Occupied(Lift(old(disk.entries), job.dest)) then Some(job.Backup()) else None
    ensures outcome.Imported? <==> CanSwap(old(disk.entries), job, fate)
  {
    hide Without, Put, Lift, Importable, Occupied, SwapSafe, Apart;
    ghost var before := disk.entries;
    SameSlotsAreSafe(before, before, job, sound);
    var existing := Occupied(Lift(disk.entries, job.dest));
    if job.dest in disk.entries {
      if existing && job.Backup() in disk.entries {
        return Refused("Backup destination already exists");
      }
      if fate(3) != Works {
        return if fate(3) == Killed then Dead else Failed;
      }
      MoveAside(disk, job, existing);
    } else {
      NothingBelowNothing(before, job.dest);
      EmptyIsNotOccupied();
    }
    ghost var aside := disk.entries;
    if fate(4) != Works {
      NothingBelowNothing(aside, job.dest);
      AsideIsSafe(before, aside, aside, job, sound);
      return if fate(4) == Killed then Dead else Failed;
    }
    MovingInIsSafe(before, aside, job, sound);
    Rename(disk, job.Staged(), job.dest);
    KeptChains(before, aside, disk.entries, job);
    return Imported(if existing then Some(job.Backup()) else None);
  }

  lemma EmptyIsNotOccupied()
    ensures !Occupied(map[])
  {
  }

  // ----- Staging -----

  // The scratch folder has been made and nothing is staged yet.
  ghost predicate Prepared(e: Entries, job: Job) {
    && WellFormed(e)
    && job.dest != [] && ".." !in job.dest && !(job.Scratch() <= job.source)
    && job.scratchName != job.dest[|job.dest| - 1] && job.scratchName != job.BackupName() && job.scratchName != ".."
    && job.Above() in e && e[job.Above()] == Directory
    && job.Scratch() in e && e[job.Scratch()] == Directory
    && job.Staged() !in e
  }

  lemma ParentFolders(e: Entries, job: Job)
    requires WellFormed(e) && job.Sane(e) && CanMake(e, job.Above())
    ensures
      var now := WithFolders(e, job.Above());
      WellFormed(now) && SameSlots(e, now, job) && Kept(e, now, job) && job.Sane(now)
      && job.Above() in now && now[job.Above()] == Directory
  {
    hide CanMake, Lift;
    var now := WithFolders(e, job.Above());
    JobPathsApart(job);
    FoldersKeepForm(e, job.Above());
    FolderIsThere(e, job.Above());
    if job.Separate() {
      ScratchApart(job);
      FoldersApart(e, job.Above(), job.source);
    }
    FoldersApart(e, job.Above(), job.dest);
    FoldersApart(e, job.Above(), job.Backup());
    FoldersKeep(e, job.Above());
    forall q | q in now.Keys ensures !(job.Scratch() <= q) {
      assert q in e.Keys || q <= job.Above();
    }
  }

  lemma FoldersKeep(e: Entries, p: Path)
    requires CanMake(e, p)
    ensures forall q :: q in e ==> q in WithFolders(e, p) && WithFolders(e, p)[q] == e[q]
  {
  }

  // Putting something new at a path apart from the three slots.
  lemma PutAside(e: Entries, job: Job, p: Path, t: Entries)
    requires WellFormed(e) && TreeForm(t) && job.dest != [] && p != [] && p !in e
    requires Parent(p) in e && e[Parent(p)] == Directory
    requires (job.Separate() ==> Apart(p, job.source)) && Apart(p, job.dest) && Apart(p, job.Backup())
    ensures
      var now := Put(e, p, t);
      WellFormed(now) && SameSlots(e, now, job) && Kept(e, now, job) && Lift(now, p) == t && p in now
      && forall q :: q in e ==> q in now && now[q] == e[q]
  {
    hide Lift;
    NothingBelowNothing(e, p);
    PutKeepsForm(e, p, t);
    PutHere(e, p, t);
    if job.Separate() {
      PutApart(e, p, t, job.source);
    }
    PutApart(e, p, t, job.dest);
    PutApart(e, p, t, job.Backup());
    assert p <= p && p[|p|..] == [];
  }

  // The parent folder can be made, the destination is free or may be replaced, and the
  // scratch folder can be made.
  ghost predicate CanPrepare(e: Entries, job: Job, replaceExisting: bool, fate: nat -> Fate)
    requires job.dest != []
  {
    && fate(0) == Works && CanMake(e, job.Above())
    && (job.dest in e ==> e[job.dest] == Directory)
    && (Occupied(Lift(e, job.dest)) ==> replaceExisting)
    && fate(1) == Works
  }

  // Make the parent folder, look at the destination and make the scratch folder.
  method Prepare(disk: Disk, job: Job, replaceExisting: bool, fate: nat -> Fate) returns (stopped: Option<Outcome>)
    requires disk.Valid() && job.Sane(disk.entries)
    modifies disk
    ensures disk.Valid() && SameSlots(old(disk.entries), disk.entries, job)
      && Kept(old(disk.entries), disk.entries, job)
    ensures stopped.None? ==> Prepared(disk.entries, job)
    ensures stopped.None? ==> replaceExisting || !Occupied(Lift(old(disk.entries), job.dest))
    ensures stopped.Some? ==> !stopped.value.Imported?
    ensures stopped.None? <==> CanPrepare(old(disk.entries), job, replaceExisting, fate)
  {
    hide Lift, Occupied, Put, WithFolders, CanMake, WellFormed, Untouched, Apart, Prefixes;
    if fate(0) != Works {
      return Some(if fate(0) == Killed then Dead else Failed);
    }
    ghost var e := disk.entries;
    var ok := disk.MakeFolders(job.Above());
    if !ok {
      return Some(Failed);
    }
    ParentFolders(e, job);
    ghost var made := disk.entries;
    SameRoot(e, made, job.dest);
    if job.dest in disk.entries && disk.entries[job.dest] != Directory {
      return Some(Failed);
    }
    if Occupied(Lift(disk.entries, job.dest)) && !replaceExisting {
      return Some(Refused("The packaged-app data directory is not empty; confirm replacement first"));
    }
    if fate(1) != Works {
      return Some(if fate(1) == Killed then Dead else Failed);
    }
    ScratchMade(made, job);
    disk.entries := Put(disk.entries, job.Scratch(), map[[] := Directory]);
    KeptChains(e, made, disk.entries, job);
    return None;
  }

  lemma ScratchMade(e: Entries, job: Job)
    requires WellFormed(e) && job.Sane(e) && job.Above() in e && e[job.Above()] == Directory
    ensures
      var now := Put(e, job.Scratch(), map[[] := Directory]);
      Prepared(now, job) && SameSlots(e, now, job) && Kept(e, now, job)
  {
    hide Lift, Put, WellFormed;
    JobPathsApart(job);
    if job.Separate() {
      ScratchApart(job);
    }
    assert job.Scratch() <= job.Scratch();
    PutAside(e, job, job.Scratch(), map[[] := Directory]);
    var now := Put(e, job.Scratch(), map[[] := Directory]);
    RootOfLift(now, job.Scratch());
    assert now[job.Scratch() + []] == Directory && job.Scratch() + [] == job.Scratch();
    assert ["state"] !in Lift(now, job.Scratch());
  }

  // Staging something leaves the slots alone.
  lemma StagedTree(e: Entries, job: Job, t: Entries)
    requires Prepared(e, job) && TreeForm(t)
    ensures
      var now := Put(e, job.Staged(), t);
      WellFormed(now) && SameSlots(e, now, job) && Kept(e, now, job) && Lift(now, job.Staged()) == t
      && (job.source in e ==> Ready(now, job))
  {
    hide Lift, Put, WellFormed;
    JobPathsApart(job);
    if job.Separate() {
      ScratchApart(job);
    }
    PutAside(e, job, job.Staged(), t);
  }

  // Remove the scratch folder on the way out, however the work ended.
  method CleanUp(disk: Disk, job: Job, outcome: Outcome, fate: nat -> Fate) returns (final: Outcome)
    requires disk.Valid() && job.dest != [] && !(job.Scratch() <= job.source)
    requires job.scratchName != job.dest[|job.dest| - 1] && job.scratchName != job.BackupName()
    modifies disk
    ensures disk.Valid() && SameSlots(old(disk.entries), disk.entries, job)
      && Kept(old(disk.entries), disk.entries, job)
    ensures final == outcome || final == Dead || final == Failed
    ensures final.Imported? || final.Refused? ==> Lift(disk.entries, job.Scratch()) == map[]
    ensures final.Imported? <==> outcome.Imported? && fate(5) == Works
  {
    hide Lift, Apart;
    if outcome.Dead? || fate(5) == Killed {
      return Dead;
    }
    if fate(5) == Raises {
      return Failed;
    }
    JobPathsApart(job);
    ghost var e := disk.entries;
    if job.Separate() {
      ScratchApart(job);
      WithoutApart(e, job.Scratch(), job.source);
    }
    WithoutApart(e, job.Scratch(), job.dest);
    WithoutApart(e, job.Scratch(), job.Backup());
    RemoveTree(disk, job.Scratch());
    return outcome;
  }

  // ----- The two imports -----

  /** Import a state directory.  `partial` is what a copy that raises or is killed
      leaves behind; a copy of a tree into itself, which is what a destination inside the
      source asks for, never works. */
  method ImportDirectory(disk: Disk, job: Job, replaceExisting: bool, sound: string -> bool,
      partial: Entries, fate: nat -> Fate) returns (outcome: Outcome)
    requires disk.Valid() && job.Sane(disk.entries) && TreeForm(partial)
    modifies disk
    ensures disk.Valid() && Kept(old(disk.entries), disk.entries, job)
    ensures SwapSafe(old(disk.entries), disk.entries, job, sound)
    ensures outcome.Refused? || (Occupied(Lift(old(disk.entries), job.dest)) && !replaceExisting) ==>
      SameSlots(old(disk.entries), disk.entries, job)
    ensures outcome.Imported? ==>
      && !(job.source <= job.dest)
      && Lift(disk.entries, job.dest) == Lift(old(disk.entries), job.source)
      && Importable(Lift(disk.entries, job.dest), sound)
      && Lift(disk.entries, job.Scratch()) == map[]
      && outcome.backup == if Occupied(Lift(old(disk.entries), job.dest)) then Some(job.Backup()) else None
    ensures outcome.Imported? <==>
      && !(job.source <= job.dest) && Importable(Lift(old(disk.entries), job.source), sound)
      && CanPrepare(old(disk.entries), job, replaceExisting, fate) && CanSwap(old(disk.entries), job, fate)
      && fate(2) == Works && fate(5) == Works
    ensures HasLink(old(disk.entries), job.source) ==> outcome.Refused?
  {
    hide Lift, Put, Occupied, Importable, SwapSafe, WellFormed, Apart, Ready, TreeForm, Prepared, CanPrepare, CanSwap,
         HasLink;
    ghost var before := disk.entries;
    LinksAreRefused(before, job.source, sound);
    SameSlotsAreSafe(before, before, job, sound);
    if job.source == job.dest {
      return Refused("The source and destination data directories must differ");
    }
    if !Importable(Lift(disk.entries, job.source), sound) {
      return Refused("Select a ModelDeck data directory containing modeldeck.sqlite3");
    }
    ImportableIsThere(before, job.source, sound);
    var stopped := Prepare(disk, job, replaceExisting, fate);
    ghost var prepared := disk.entries;
    if stopped.Some? {
      SameSlotsAreSafe(before, prepared, job, sound);
      return stopped.value;
    }
    PreparedMeans(prepared, job);
    var copies := fate(2) == Works && !(job.source <= job.dest);
    var tree := if copies then Lift(disk.entries, job.source) else partial;
    if copies {
      SameSource(before, prepared, job);
      LiftIsTree(prepared, job.source);
    }
    StagedTree(prepared, job, tree);
    disk.entries := Put(disk.entries, job.Staged(), tree);
    ghost var staged := disk.entries;
    KeptChains(before, prepared, staged, job);
    SwapsAlike(before, staged, job, fate);
    if !copies {
      outcome := if fate(2) == Killed then Dead else Failed;
      SameSlotsAreSafe(staged, staged, job, sound);
    } else {
      outcome := Swap(disk, job, sound, fate);
    }
    ghost var swapped := disk.entries;
    KeptChains(before, staged, swapped, job);
    SlotsThenSwap(before, staged, swapped, job, sound);
    outcome := CleanUp(disk, job, outcome, fate);
    SwapThenSlots(before, swapped, disk.entries, job, sound);
    KeptChains(before, swapped, disk.entries, job);
  }

  // There is a symbolic link in the tree at this path.
  ghost predicate HasLink(e: Entries, p: Path) {
    exists q :: q in e && p <= q && e[q] == Link
  }

  lemma LinksAreRefused(e: Entries, p: Path, sound: string -> bool)
    ensures HasLink(e, p) ==> !Importable(Lift(e, p), sound)
  {
    if q :| q in e && p <= q && e[q] == Link {
      assert p + q[|p|..] == q;
      assert q[|p|..] in Lift(e, p);
    }
  }

  // Whether the swap is possible shows in the slots alone.
  lemma SwapsAlike(before: Entries, now: Entries, job: Job, fate: nat -> Fate)
    requires job.dest != [] && SameSlots(before, now, job)
    ensures CanSwap(now, job, fate) <==> CanSwap(before, job, fate)
  {
    hide Lift, Occupied;
    SameRoot(before, now, job.dest);
    SameRoot(before, now, job.Backup());
  }

  // A source that is not above the destination is copied as it was before.
  lemma SameSource(before: Entries, now: Entries, job: Job)
    requires job.dest != [] && SameSlots(before, now, job) && !(job.source <= job.dest)
    ensures Lift(now, job.source) == Lift(before, job.source)
    ensures job.source in now <==> job.source in before
  {
    hide Lift;
    if job.dest <= job.source {
      LiftWithin(before, now, job.dest, job.source);
    }
    RootOfLift(now, job.source);
    RootOfLift(before, job.source);
  }

  lemma LiftWithin(a: Entries, b: Entries, p: Path, q: Path)
    requires Lift(a, p) == Lift(b, p) && p <= q
    ensures Lift(a, q) == Lift(b, q)
  {
    hide Lift;
    forall x | q <= x ensures x in a <==> x in b
      ensures x in a ==> a[x] == b[x]
    {
      InLift(a, p, x);
      InLift(b, p, x);
    }
    assert forall r :: q <= q + r;
  }

  lemma InLift(e: Entries, p: Path, x: Path)
    requires p <= x
    ensures x in e <==> x[|p|..] in Lift(e, p)
    ensures x in e ==> Lift(e, p)[x[|p|..]] == e[x]
  {
    assert x == p + x[|p|..];
  }

  lemma ImportableIsThere(e: Entries, p: Path, sound: string -> bool)
    requires Importable(Lift(e, p), sound)
    ensures p in e
  {
    RootOfLift(e, p);
  }

  lemma PreparedMeans(e: Entries, job: Job)
    requires Prepared(e, job)
    ensures WellFormed(e) && job.dest != [] && !(job.Scratch() <= job.source)
    ensures job.scratchName != job.dest[|job.dest| - 1] && job.scratchName != job.BackupName()
  {
  }

  // Extraction below the staging path leaves the slots alone.
  lemma ExtractionSpares(e: Entries, after: Entries, job: Job)
    requires Prepared(e, job) && Contained(e, after, job.Staged()) && WellFormed(after)
    ensures SameSlots(e, after, job) && Kept(e, after, job)
    ensures job.source in e && job.Staged() in after ==> Ready(after, job)
  {
    hide Lift;
    JobPathsApart(job);
    NewIsStaged(e, after, job);
    if job.Separate() {
      ScratchApart(job);
      NewSpares(e, after, job, job.source);
    }
    NewSpares(e, after, job, job.dest);
    NewSpares(e, after, job, job.Backup());
  }

  lemma NewIsStaged(e: Entries, after: Entries, job: Job)
    requires Prepared(e, job) && Contained(e, after, job.Staged())
    ensures forall q :: q in after && q !in e ==> job.Staged() <= q
  {
    forall q | q in after && q !in e ensures job.Staged() <= q {
      if q <= job.Staged() && q != job.Staged() {
        PrefixOfParent(q, job.Staged());
        assert Parent(job.Staged()) == job.Scratch();
        assert q != job.Scratch();
        AncestorsAreFolders(e, q, job.Scratch());
      }
    }
  }

  lemma NewSpares(e: Entries, after: Entries, job: Job, other: Path)
    requires job.dest != [] && Apart(job.Staged(), other) && Contained(e, after, job.Staged())
    requires forall q :: q in after && q !in e ==> job.Staged() <= q
    ensures Lift(after, other) == Lift(e, other)
  {
  }

  // A tree lies the same way wherever it lies.
  lemma {:induction false} LaidMoves(n: Node, p: Path, rel: Path)
    ensures forall q :: q in Laid(n, rel) <==> p + q in Laid(n, p + rel)
    ensures forall q :: q in Laid(n, rel) ==> Laid(n, p + rel)[p + q] == Laid(n, rel)[q]
    decreases n
  {
    if n.Dir? {
      AllLaidMoves(n.children, p, rel);
    }
    forall q ensures q == rel <==> p + q == p + rel {
      assert (p + q)[|p|..] == q && (p + rel)[|p|..] == rel;
    }
  }

  lemma {:induction false} AllLaidMoves(f: Forest, p: Path, rel: Path)
    ensures forall q :: q in LaidAll(f, rel) <==> p + q in LaidAll(f, p + rel)
    ensures forall q :: q in LaidAll(f, rel) ==> LaidAll(f, p + rel)[p + q] == LaidAll(f, rel)[q]
    decreases f
  {
    if f.Entry? {
      assert p + (rel + [f.name]) == p + rel + [f.name];
      LaidMoves(f.node, p, rel + [f.name]);
      AllLaidMoves(f.rest, p, rel);
    }
  }

  lemma LaidLifts(e: Entries, p: Path, n: Node)
    requires Untouched(e.Keys, p)
    ensures Lift(e + Laid(n, p), p) == Laid(n, [])
  {
    hide Laid;
    LaidMoves(n, p, []);
    assert p + [] == p;
    forall r ensures r in Lift(e + Laid(n, p), p) <==> r in Laid(n, []) {
      assert p <= p + r;
    }
  }

  // The entry of this name in a folder.
  function ChildOf(f: Forest, name: string): Option<Node> {
    if f.Empty? then None else if f.name == name then Some(f.node) else ChildOf(f.rest, name)
  }

  lemma {:induction false} NoLinksLaid(n: Node, p: Path)
    ensures forall q :: q in Laid(n, p) ==> Laid(n, p)[q] != Link
    decreases n
  {
    if n.Dir? {
      NoLinksInFolder(n.children, p);
    }
  }

  lemma {:induction false} NoLinksInFolder(f: Forest, p: Path)
    ensures forall q :: q in LaidAll(f, p) ==> LaidAll(f, p)[q] != Link
    decreases f
  {
    if f.Entry? {
      NoLinksLaid(f.node, p + [f.name]);
      NoLinksInFolder(f.rest, p);
    }
  }

  lemma RootLaid(n: Node, p: Path)
    ensures p in Laid(n, p) <==> n.File? || n.Dir?
    ensures n.File? ==> Laid(n, p)[p] == Document(n.content)
    ensures n.Dir? ==> Laid(n, p)[p] == Directory
  {
    if n.Dir? {
      FolderNotAmongChildren(n.children, p);
    }
  }

  lemma {:induction false} FolderNotAmongChildren(f: Forest, p: Path)
    ensures p !in LaidAll(f, p)
    decreases f
  {
    if f.Entry? {
      LaidBelow(f.node, p + [f.name]);
      FolderNotAmongChildren(f.rest, p);
    }
  }

  lemma {:induction false} ChildLaid(f: Forest, name: string)
    requires WellNamedAll(f)
    ensures
      var child := ChildOf(f, name);
      && ([name] in LaidAll(f, []) <==> child.Some? && (child.value.File? || child.value.Dir?))
      && (child.Some? && child.value.File? ==> LaidAll(f, [])[[name]] == Document(child.value.content))
      && (child.Some? && child.value.Dir? ==> LaidAll(f, [])[[name]] == Directory)
    ensures ChildOf(f, name).Some? <==> Named(name, f)
    decreases f
  {
    if f.Entry? {
      ChildLaid(f.rest, name);
      assert [] + [f.name] == [f.name];
      if f.name == name {
        RootLaid(f.node, [name]);
      } else {
        LaidBelow(f.node, [f.name]);
        assert [name][0] != [f.name][0] && !([f.name] <= [name]);
        assert [name] !in Laid(f.node, [f.name]).Keys;
      }
    }
  }

  /** An exported tree is state to import exactly if it is a folder whose own entry
      modeldeck.sqlite3 is a file with a sound database; its other files do not matter. */
  lemma ExportedStateIsImportable(n: Node, sound: string -> bool)
    requires WellNamed(n) && Plain(n)
    ensures Importable(Laid(n, []), sound) <==>
      && n.Dir?
      && match ChildOf(n.children, "modeldeck.sqlite3")
         case Some(File(content)) => sound(content)
         case _ => false
  {
    hide Laid;
    NoLinksLaid(n, []);
    RootLaid(n, []);
    if n.Dir? {
      ChildLaid(n.children, DATABASE);
      FolderLaid(n, DATABASE);
    }
  }

  lemma FolderLaid(n: Node, name: string)
    requires n.Dir?
    ensures [name] in Laid(n, []) <==> [name] in LaidAll(n.children, [])
    ensures [name] in Laid(n, []) ==> Laid(n, [])[[name]] == LaidAll(n.children, [])[[name]]
  {
  }

  // What a file holds, read as an archive.
  function ArchiveAt(e: Entries, p: Path, read: string -> Option<seq<Member>>): Option<seq<Member>> {
    if p in e && e[p].Document? then read(e[p].content) else None
  }

  // The archive is there, passes the checks, and no file in it lies above another member.
  ghost predicate CanExtract(archive: Option<seq<Member>>) {
    archive.Some? && Refusal(archive.value).None? && !FileAboveMember(archive.value)
  }

  // Extract the archive into the staging folder and validate the result.
  method StageArchive(disk: Disk, job: Job, read: string -> Option<seq<Member>>, sound: string -> bool,
      ghost exported: Option<Node>)
      returns (objection: Option<Outcome>)
    requires disk.Valid() && Prepared(disk.entries, job)
    requires exported.Some? ==>
      && WellNamed(exported.value) && Plain(exported.value) && !exported.value.Socket?
      && ArchiveAt(disk.entries, job.source, read) == Some(Members(exported.value, [ROOT]))
    modifies disk
    ensures disk.Valid() && SameSlots(old(disk.entries), disk.entries, job)
      && Kept(old(disk.entries), disk.entries, job)
    ensures objection.Some? ==> objection.value.Refused?
    ensures objection.None? ==> Ready(disk.entries, job) && Importable(Lift(disk.entries, job.Staged()), sound)
    ensures objection.None? && exported.Some? ==> Lift(disk.entries, job.Staged()) == Laid(exported.value, [])
    ensures objection.None? ==> CanExtract(ArchiveAt(old(disk.entries), job.source, read))
    ensures exported.Some? ==> (objection.None? <==> Importable(Laid(exported.value, []), sound))
  {
    hide Lift, Laid, Importable, PlaceAll, Contained, WellFormed, Apart, Ready, Untouched, Members, WellNamed, Plain,
         FileAboveMember;
    ghost var e := disk.entries;
    PreparedMeans(e, job);
    var members := ArchiveAt(disk.entries, job.source, read);
    if members.None? {
      return Some(Refused("Select a ModelDeck state archive file"));
    }
    var error := disk.Extract(members.value, job.Staged());
    if exported.Some? {
      ExportIsAcceptedExactlyWhenPlain(exported.value);
    }
    if Refusal(members.value).Some? {
      return Some(Refused("The selected state archive was rejected"));
    }
    ExtractionIsContained(e, job.Staged(), members.value);
    ExtractionSpares(e, disk.entries, job);
    ExtractsStaged(e, job, members.value);
    if exported.Some? {
      NothingBelowNothing(e, job.Staged());
      ArchiveRoundTrip(exported.value, e, job.Staged());
      LaidLifts(e, job.Staged(), exported.value);
    }
    if error.Some? {
      return Some(Refused("The selected state archive is unreadable"));
    }
    if !Importable(Lift(disk.entries, job.Staged()), sound) {
      return Some(Refused("The selected data is not importable"));
    }
    ImportableIsThere(disk.entries, job.Staged(), sound);
    return None;
  }

  lemma ExtractsStaged(e: Entries, job: Job, members: seq<Member>)
    requires Prepared(e, job) && Refusal(members).None?
    ensures PlaceAll(e, job.Staged(), members).1 <==> !FileAboveMember(members)
  {
    hide PlaceAll, FileAboveMember, Extracted, WellFormed, Refusal;
    PreparedMeans(e, job);
    NothingBelowNothing(e, job.Staged());
    forall q | q in e && q <= job.Staged() ensures e[q] == Directory {
      PrefixOfParent(q, job.Staged());
      assert Parent(job.Staged()) == job.Scratch();
      if q != job.Scratch() {
        AncestorsAreFolders(e, q, job.Scratch());
      }
    }
    ExtractionSucceedsExactlyWhenNoFileIsAFolder(e, job.Staged(), members);
  }

  /** Import a state archive.  If the archive was exported from the tree `exported`, an
      import that completes leaves exactly that tree at the destination. */
  method ImportArchive(disk: Disk, job: Job, read: string -> Option<seq<Member>>, replaceExisting: bool,
      sound: string -> bool, partial: Entries, fate: nat -> Fate, ghost exported: Option<Node>)
    returns (outcome: Outcome)
    requires disk.Valid() && job.Sane(disk.entries) && TreeForm(partial)
    requires exported.Some? ==>
      && WellNamed(exported.value) && Plain(exported.value) && !exported.value.Socket?
      && ArchiveAt(disk.entries, job.source, read) == Some(Members(exported.value, [ROOT]))
    modifies disk
    ensures disk.Valid() && Kept(old(disk.entries), disk.entries, job)
    ensures SwapSafe(old(disk.entries), disk.entries, job, sound)
    ensures outcome.Refused? || (Occupied(Lift(old(disk.entries), job.dest)) && !replaceExisting) ==>
      SameSlots(old(disk.entries), disk.entries, job)
    ensures outcome.Imported? ==>
      && Importable(Lift(disk.entries, job.dest), sound)
      && (exported.Some? ==> Lift(disk.entries, job.dest) == Laid(exported.value, []))
      && Lift(disk.entries, job.Scratch()) == map[]
      && outcome.backup == if Occupied(Lift(old(disk.entries), job.dest)) then Some(job.Backup()) else None
    ensures outcome.Imported? ==>
      && job.source != job.dest && CanExtract(ArchiveAt(old(disk.entries), job.source, read))
      && CanPrepare(old(disk.entries), job, replaceExisting, fate) && CanSwap(old(disk.entries), job, fate)
      && fate(2) == Works && fate(5) == Works
    ensures exported.Some? ==>
      (outcome.Imported? <==>
        && job.source != job.dest && Importable(Laid(exported.value, []), sound)
        && CanPrepare(old(disk.entries), job, replaceExisting, fate) && CanSwap(old(disk.entries), job, fate)
        && fate(2) == Works && fate(5) == Works)
  {
    hide Lift, Laid, Put, Occupied, Importable, SwapSafe, WellFormed, Apart, Ready, TreeForm, Prepared, Members,
         WellNamed, Plain, ArchiveAt, CanPrepare, CanSwap, CanExtract;
    ghost var before := disk.entries;
    if job.source == job.dest {
      SameSlotsAreSafe(before, before, job, sound);
      return Refused("The source archive and destination data directory must differ");
    }
    var stopped := Prepare(disk, job, replaceExisting, fate);
    ghost var prepared := disk.entries;
    if stopped.Some? {
      SameSlotsAreSafe(before, prepared, job, sound);
      return stopped.value;
    }
    PreparedMeans(prepared, job);
    SameFile(before, prepared, job, read);
    SwapsAlike(before, prepared, job, fate);
    if fate(2) != Works {
      StagedTree(prepared, job, partial);
      disk.entries := Put(disk.entries, job.Staged(), partial);
      outcome := if fate(2) == Killed then Dead else Failed;
      SameSlotsAreSafe(prepared, disk.entries, job, sound);
    } else {
      var objection := StageArchive(disk, job, read, sound, exported);
      ghost var staged := disk.entries;
      SwapsAlike(prepared, staged, job, fate);
      if objection.Some? {
        outcome := objection.value;
        SameSlotsAreSafe(prepared, staged, job, sound);
      } else {
        outcome := Swap(disk, job, sound, fate);
        SlotsThenSwap(prepared, staged, disk.entries, job, sound);
        KeptChains(prepared, staged, disk.entries, job);
      }
    }
    ghost var swapped := disk.entries;
    KeptChains(before, prepared, swapped, job);
    SlotsThenSwap(before, prepared, swapped, job, sound);
    outcome := CleanUp(disk, job, outcome, fate);
    SwapThenSlots(before, swapped, disk.entries, job, sound);
    KeptChains(before, swapped, disk.entries, job);
  }

  lemma SameFile(a: Entries, b: Entries, job: Job, read: string -> Option<seq<Member>>)
    requires Prepared(b, job) && SameSlots(a, b, job) && Kept(a, b, job) && job.source != job.dest
    ensures ArchiveAt(b, job.source, read) == ArchiveAt(a, job.source, read)
  {
    hide Lift;
    if job.source <= job.dest {
      PrefixOfParent(job.source, job.dest);
      if job.source != job.Above() {
        AncestorsAreFolders(b, job.source, job.Above());
      }
      assert job.source in a ==> b[job.source] == a[job.source];
    } else {
      SameSource(a, b, job);
      SameRoot(a, b, job.source);
    }
  }

  lemma SameRoot(a: Entries, b: Entries, p: Path)
    requires Lift(a, p) == Lift(b, p)
    ensures p in a <==> p in b
    ensures p in a ==> a[p] == b[p]
  {
    assert p + [] == p;
    assert [] in Lift(a, p) <==> p in a;
    assert [] in Lift(b, p) <==> p in b;
    assert p in a ==> Lift(a, p)[[]] == a[p];
    assert p in b ==> Lift(b, p)[[]] == b[p];
  }
}
