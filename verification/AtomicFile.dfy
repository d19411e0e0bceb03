/** The crash-safe file write over a file system that forgets what was not synced. */
module AtomicFile {
  import opened Records

  /** Absolute, clean paths; the root is the empty sequence. */
  type Path = seq<string>

  function Dir(p: Path): Path {
    if p == [] then [] else p[..|p| - 1]
  }

  datatype File = File(data: seq<bv8>, mode: int)

  /** What processes see now, and what a crash may leave: for every name the entries that may survive (`mayHold`, only
      the current one when the name is absent), the directories whose entries are durable, the inodes whose contents
      are. */
  datatype Disk = Disk(
    dirs: set<Path>, durableDirs: set<Path>, files: map<Path, nat>, mayHold: map<Path, set<Option<nat>>>,
    inodes: map<nat, File>, synced: set<nat>, next: nat)

  function Entry(d: Disk, p: Path): Option<nat> {
    if p in d.files then Some(d.files[p]) else None
  }

  function Possible(d: Disk, p: Path): set<Option<nat>> {
    if p in d.mayHold then d.mayHold[p] else {Entry(d, p)}
  }

  function Read(d: Disk, p: Path): Option<File> {
    if p in d.files && d.files[p] in d.inodes then Some(d.inodes[d.files[p]]) else None
  }

  ghost predicate Valid(d: Disk) {
    && [] in d.dirs && (forall p :: p in d.dirs ==> Dir(p) in d.dirs)
    && (forall p :: p in d.files ==> d.files[p] in d.inodes && p !in d.dirs && Dir(p) in d.dirs)
    && (forall p :: p in d.mayHold ==> Entry(d, p) in d.mayHold[p])
    && (forall p, n :: p in d.mayHold && Some(n) in d.mayHold[p] ==> n in d.inodes)
    && (forall n :: n in d.inodes ==> n < d.next)
  }

  /** After a crash the name can have this content: an entry that may survive, with anything in it that was not synced. */
  ghost predicate Survives(d: Disk, p: Path, content: Option<File>) {
    exists e :: e in Possible(d, p) && EntryHolds(d, e, content)
  }

  ghost predicate EntryHolds(d: Disk, e: Option<nat>, content: Option<File>) {
    match e
    case None => content == None
    case Some(n) => content.Some? && n in d.inodes && (n in d.synced ==> content.value == d.inodes[n])
  }

  /** Whatever a crash may leave now, it could have left before the write, or it is the complete new file. */
  ghost predicate CrashSafe(before: Disk, d: Disk, p: Path, file: File) {
    forall content :: Survives(d, p, content) ==> Survives(before, p, content) || content == Some(file)
  }

  /** After a crash the name has exactly this content. */
  ghost predicate Durable(d: Disk, p: Path, file: File) {
    forall content :: Survives(d, p, content) <==> content == Some(file)
  }

  /** The name is as before, for processes and for a crash. */
  ghost predicate Unaffected(before: Disk, d: Disk, p: Path) {
    Read(d, p) == Read(before, p) && forall content :: Survives(d, p, content) <==> Survives(before, p, content)
  }

  // ---- The effects of the system calls ---------------------------------------------------------------------

  function MakeDir(d: Disk, p: Path): Disk {
    d.(dirs := d.dirs + {p})
  }

  function SyncedDir(d: Disk, dir: Path): Disk {
    d.(durableDirs := d.durableDirs + (set p | p in d.dirs && Dir(p) == dir),
       mayHold := map p | p in d.mayHold && Dir(p) != dir :: d.mayHold[p])
  }

  function SetEntry(d: Disk, p: Path, e: Option<nat>): Disk {
    d.(files := if e.Some? then d.files[p := e.value] else d.files - {p},
       mayHold := d.mayHold[p := Possible(d, p) + {e}])
  }

  function CreateEmpty(d: Disk, p: Path): Disk {
    SetEntry(d.(inodes := d.inodes[d.next := File([], 0x180)], next := d.next + 1), p, Some(d.next))
  }

  function Rewrite(d: Disk, n: nat, file: File): Disk {
    d.(inodes := d.inodes[n := file], synced := d.synced - {n})
  }

  function Renamed(d: Disk, from: Path, to: Path): Disk
    requires from in d.files
  {
    SetEntry(SetEntry(d, to, Some(d.files[from])), from, None)
  }

  // ---- Every call keeps the name safe ------------------------------------------------------------------------

  /** The disks agree on everything a crash can leave under the name. */
  ghost predicate SameUnder(a: Disk, b: Disk, p: Path) {
    && Entry(a, p) == Entry(b, p) && Possible(a, p) == Possible(b, p)
    && forall n :: Some(n) in Possible(a, p) ==>
         (n in a.inodes <==> n in b.inodes) && (n in a.inodes ==> a.inodes[n] == b.inodes[n])
         && (n in a.synced <==> n in b.synced)
  }

  lemma SameIsUnaffected(a: Disk, b: Disk, p: Path)
    requires SameUnder(a, b, p) && Valid(a)
    ensures Unaffected(a, b, p)
  {
    forall content ensures Survives(b, p, content) <==> Survives(a, p, content) {
      if Survives(a, p, content) {
        var e :| e in Possible(a, p) && EntryHolds(a, e, content);
        assert EntryHolds(b, e, content);
      }
      if Survives(b, p, content) {
        var e :| e in Possible(b, p) && EntryHolds(b, e, content);
        assert EntryHolds(a, e, content);
      }
    }
  }

  lemma SameTransitive(a: Disk, b: Disk, c: Disk, p: Path)
    requires SameUnder(a, b, p) && SameUnder(b, c, p)
    ensures SameUnder(a, c, p)
  {
  }

  lemma SameIsSafe(before: Disk, d: Disk, p: Path, file: File)
    requires SameUnder(before, d, p) && Valid(before)
    ensures CrashSafe(before, d, p, file)
  {
    SameIsUnaffected(before, d, p);
  }

  lemma MakeDirKeeps(d: Disk, dir: Path, p: Path)
    requires Valid(d) && Dir(dir) in d.dirs && dir !in d.files
    ensures Valid(MakeDir(d, dir)) && SameUnder(d, MakeDir(d, dir), p)
  {
  }

  lemma SyncedDirKeeps(d: Disk, dir: Path, p: Path)
    requires Valid(d) && p != [] && Dir(p) != dir
    ensures Valid(SyncedDir(d, dir)) && SameUnder(d, SyncedDir(d, dir), p)
  {
  }

  lemma SetEntryIs(d: Disk, p: Path, e: Option<nat>)
    requires Valid(d) && (e.Some? ==> e.value in d.inodes && p !in d.dirs && Dir(p) in d.dirs)
    ensures Valid(SetEntry(d, p, e)) && Entry(SetEntry(d, p, e), p) == e
    ensures Possible(SetEntry(d, p, e), p) == Possible(d, p) + {e}
    ensures forall q :: q != p ==> SameUnder(d, SetEntry(d, p, e), q)
  {
    var d' := SetEntry(d, p, e);
    assert Entry(d, p).Some? ==> Entry(d, p).value in d.inodes;
    forall q, n | q in d'.mayHold && Some(n) in d'.mayHold[q] ensures n in d'.inodes {
    }
  }

  lemma CreateEmptyKeeps(d: Disk, tmp: Path, p: Path)
    requires Valid(d) && p != tmp && tmp !in d.files && tmp !in d.dirs && Dir(tmp) in d.dirs
    ensures Valid(CreateEmpty(d, tmp)) && SameUnder(d, CreateEmpty(d, tmp), p)
    ensures Entry(CreateEmpty(d, tmp), tmp) == Some(d.next) && d.next in CreateEmpty(d, tmp).inodes
    ensures Some(d.next) !in Possible(d, p)
  {
    var grown := d.(inodes := d.inodes[d.next := File([], 0x180)], next := d.next + 1);
    NewInodeKeeps(d, p);
    hide Valid, SameUnder, SetEntry, Possible;
    SetEntryIs(grown, tmp, Some(d.next));
    SameTransitive(d, grown, CreateEmpty(d, tmp), p);
    CreateEmptyFrame(d, tmp);
  }

  lemma NewInodeKeeps(d: Disk, p: Path)
    requires Valid(d)
    ensures var grown := d.(inodes := d.inodes[d.next := File([], 0x180)], next := d.next + 1);
      Valid(grown) && SameUnder(d, grown, p)
    ensures Some(d.next) !in Possible(d, p)
  {
  }

  lemma CreateEmptyFrame(d: Disk, tmp: Path)
    ensures var c := CreateEmpty(d, tmp);
      c.files == d.files[tmp := d.next] && c.dirs == d.dirs && c.durableDirs == d.durableDirs
  {
  }

  lemma RewriteKeeps(d: Disk, n: nat, file: File, p: Path)
    requires Valid(d) && n in d.inodes && Some(n) !in Possible(d, p)
    ensures Valid(Rewrite(d, n, file)) && SameUnder(d, Rewrite(d, n, file), p)
    ensures Possible(Rewrite(d, n, file), p) == Possible(d, p)
  {
  }

  lemma SyncFileKeeps(d: Disk, n: nat, p: Path)
    requires Valid(d) && n in d.inodes && Some(n) !in Possible(d, p)
    ensures Valid(d.(synced := d.synced + {n})) && SameUnder(d, d.(synced := d.synced + {n}), p)
  {
  }

  /** Renaming adds the new, synced file to what may survive, and nothing else. */
  lemma RenamedIsSafe(before: Disk, d: Disk, tmp: Path, p: Path, file: File)
    requires Valid(before) && Valid(d) && SameUnder(before, d, p) && p != tmp
    requires p !in d.dirs && Dir(p) in d.dirs
    requires tmp in d.files && d.files[tmp] in d.synced && d.inodes[d.files[tmp]] == file
    ensures Valid(Renamed(d, tmp, p)) && CrashSafe(before, Renamed(d, tmp, p), p, file)
    ensures Read(Renamed(d, tmp, p), p) == Some(file) && Entry(Renamed(d, tmp, p), p) == Some(d.files[tmp])
    ensures tmp !in Renamed(d, tmp, p).files
  {
    var n := d.files[tmp];
    var moved, renamed := SetEntry(d, p, Some(n)), Renamed(d, tmp, p);
    SetEntryIs(d, p, Some(n));
    SetEntryIs(moved, tmp, None);
    SameIsUnaffected(before, d, p);
    forall content | Survives(renamed, p, content) ensures Survives(before, p, content) || content == Some(file) {
      var e :| e in Possible(renamed, p) && EntryHolds(renamed, e, content);
      if e != Some(n) {
        assert e in Possible(d, p) && EntryHolds(d, e, content);
      }
    }
  }

  lemma RenamedEntry(d: Disk, tmp: Path, p: Path)
    requires tmp in d.files && tmp != p
    ensures Renamed(d, tmp, p).files == (d.files - {tmp})[p := d.files[tmp]]
    ensures Renamed(d, tmp, p).synced == d.synced && Renamed(d, tmp, p).inodes == d.inodes
    ensures Renamed(d, tmp, p).dirs == d.dirs && Renamed(d, tmp, p).durableDirs == d.durableDirs
  {
  }

  /** Syncing the directory leaves only the current entry. */
  lemma SyncedEntryIsDurable(d: Disk, p: Path, file: File)
    requires Valid(d) && p in d.files && d.files[p] in d.synced && d.inodes[d.files[p]] == file
    ensures Valid(SyncedDir(d, Dir(p))) && Durable(SyncedDir(d, Dir(p)), p, file)
  {
    var s := SyncedDir(d, Dir(p));
    assert Possible(s, p) == {Some(d.files[p])};
    forall content ensures Survives(s, p, content) <==> content == Some(file) {
      assert EntryHolds(s, Some(d.files[p]), Some(file));
    }
  }

  // ---- The write ---------------------------------------------------------------------------------------------

  datatype Stage =
    | StatDir | MakeDirs | SyncParents | CreateTemp | ChmodTemp | WriteTemp | SyncTemp | CloseTemp | RenameTemp | SyncFinal

  datatype Outcome = Written | Failed(stage: Stage)

  /** The calls that write the file, in their order. */
  const WRITING := [CreateTemp, ChmodTemp, WriteTemp, SyncTemp, CloseTemp, RenameTemp, SyncFinal]

  /** The call behind the `k`-th is the first one to fail. */
  ghost predicate FailsFirst(faults: nat -> bool, from: nat, k: nat) {
    Quiet(faults, from, from + k) && faults(from + k)
  }

  /** The call of the stage, counted from the first one that fills the temporary file, is the first one to fail. */
  ghost predicate FailsInFilling(faults: nat -> bool, from: nat, to: nat, stage: Stage) {
    || (stage.ChmodTemp? && from < to && FailsFirst(faults, from, 0))
    || (stage.WriteTemp? && from + 1 < to && FailsFirst(faults, from, 1))
    || (stage.SyncTemp? && from + 2 < to && FailsFirst(faults, from, 2))
    || (stage.CloseTemp? && from + 3 < to && FailsFirst(faults, from, 3))
  }

  /** The call of the stage, counted from the creation of the temporary file, is the first one to fail. */
  ghost predicate FailsAtStage(faults: nat -> bool, from: nat, to: nat, stage: Stage) {
    exists k :: 0 <= k < |WRITING| && from + k < to && WRITING[k] == stage && FailsFirst(faults, from, k)
  }

  /** The file system as the write uses it; every system call can fail, and `history` records every state. */
  class FileSystem {
    const faults: nat -> bool
    /** How much of the data a failing write has written. */
    const written: nat -> nat
    const suffixes: nat -> string
    var calls: nat
    var disk: Disk
    ghost var history: seq<Disk>

    constructor (disk: Disk, faults: nat -> bool, written: nat -> nat, suffixes: nat -> string)
      ensures this.disk == disk && this.faults == faults && this.written == written && this.suffixes == suffixes
      ensures calls == 0 && history == []
    {
      this.disk, this.faults, this.written, this.suffixes := disk, faults, written, suffixes;
      calls, history := 0, [];
    }

    method Fails() returns (fails: bool)
      modifies this`calls
      ensures calls == old(calls) + 1 && fails == faults(old(calls))
    {
      fails := faults(calls);
      calls := calls + 1;
    }

    method Become(next: Disk)
      modifies this`disk, this`history
      ensures disk == next && history == old(history) + [next]
    {
      disk := next;
      history := history + [next];
    }

    /** `missingDirChain`: the missing directories of the path, from the root downwards. */
    method MissingDirChain(dir: Path) returns (missing: seq<Path>, ok: bool)
      requires Valid(disk)
      modifies this`calls
      ensures ok ==> IsMissingChain(disk, dir, missing)
      ensures calls >= old(calls) && (ok <==> Quiet(faults, old(calls), calls))
    {
      missing := [];
      var current, ended := dir, false;
      while !ended
        invariant |current| + |missing| == |dir| && current == dir[..|current|]
        invariant forall i :: 0 <= i < |missing| ==> missing[i] == dir[..|dir| - i] && Absent(disk, missing[i])
        invariant ended ==> !Absent(disk, current)
        invariant calls >= old(calls) && Quiet(faults, old(calls), calls)
        decreases |current|, !ended
      {
        var fails := Fails();
        if fails {
          return [], false;
        }
        if !Absent(disk, current) {
          ended := true;
        } else {
          missing := missing + [current];
          if Dir(current) == current {
            assert false;
          }
          current := Dir(current);
        }
      }
      missing := Reversed(missing);
      ok := true;
    }

    method SyncDir(dir: Path) returns (ok: bool)
      modifies this
      ensures ok <==> !faults(old(calls)) && dir in old(disk).dirs
      ensures calls == old(calls) + 1
      ensures disk == if ok then SyncedDir(old(disk), dir) else old(disk)
      ensures history == if ok then old(history) + [disk] else old(history)
    {
      var fails := Fails();
      ok := !fails && dir in disk.dirs;
      if ok {
        Become(SyncedDir(disk, dir));
      }
    }

    /** `os.MkdirAll`: creates the missing directories one by one; what was created before a failure stays. */
    method MkdirAll(dir: Path, ghost before: Disk, ghost p: Path, ghost file: File) returns (ok: bool)
      requires Valid(disk) && Valid(before) && SameUnder(before, disk, p)
      modifies this
      ensures Valid(disk) && SameUnder(before, disk, p)
      ensures Extends(old(history), history, before, p, file)
      ensures disk.files == old(disk).files && disk.durableDirs == old(disk).durableDirs && disk.synced == old(disk).synced
      ensures old(disk).dirs <= disk.dirs
      ensures forall q :: q in disk.dirs ==> q in old(disk).dirs || |q| <= |dir|
      ensures ok ==> AllDirs(disk.dirs, dir)
      ensures calls >= old(calls) && (ok ==> Quiet(faults, old(calls), calls))
      ensures !ok && Quiet(faults, old(calls), calls) ==> exists k :: 0 <= k <= |dir| && dir[..k] in old(disk).files
    {
      hide SameUnder, Valid, CrashSafe;
      RootIsDir(disk);
      for k := 0 to |dir|
        invariant Valid(disk) && SameUnder(before, disk, p)
        invariant Extends(old(history), history, before, p, file)
        invariant disk.files == old(disk).files && disk.durableDirs == old(disk).durableDirs
        invariant disk.synced == old(disk).synced && old(disk).dirs <= disk.dirs
        invariant forall j :: 0 <= j <= k ==> dir[..j] in disk.dirs
        invariant forall q :: q in disk.dirs ==> q in old(disk).dirs || |q| <= |dir|
        invariant calls >= old(calls) && Quiet(faults, old(calls), calls)
      {
        var next := dir[..k + 1];
        if next !in disk.dirs {
          var fails := Fails();
          if fails || next in disk.files {
            return false;
          }
          assert Dir(next) == dir[..k];
          MakeDirKeeps(disk, next, p);
          SameTransitive(before, disk, MakeDir(disk, next), p);
          SameIsSafe(before, MakeDir(disk, next), p, file);
          Become(MakeDir(disk, next));
        }
      }
      ok := true;
    }

    method AtomicWriteFile(path: Path, data: seq<bv8>, mode: int) returns (r: Outcome)
      requires Valid(disk) && path != []
      modifies this
      ensures Valid(disk) && Extends(old(history), history, old(disk), path, File(data, mode))
      ensures r.Written? ==> Durable(disk, path, File(data, mode)) && Read(disk, path) == Some(File(data, mode))
      ensures r.Written? ==> disk.files.Keys == old(disk).files.Keys + {path}
      ensures r.Written? ==>
        forall k :: 0 <= k <= |Dir(path)| && Dir(path)[..k] !in old(disk).dirs ==>
          Dir(path)[..k] in disk.dirs && Dir(path)[..k] in disk.durableDirs
      ensures r.Failed? && !r.stage.SyncFinal? ==> Unaffected(old(disk), disk, path)
      ensures r.Failed? && !r.stage.SyncFinal? ==> disk.files == old(disk).files || (calls > 0 && faults(calls - 1))
      ensures r == Failed(SyncFinal) ==> Read(disk, path) == Some(File(data, mode))
      ensures calls >= old(calls) && (r.Written? ==> Quiet(faults, old(calls), calls))
      ensures r.Failed? && Quiet(faults, old(calls), calls) ==> Obstructed(old(disk), path, suffixes)
    {
      hide SameUnder, Valid, CrashSafe, Survives, Unaffected, Durable, FailsAtStage;
      ghost var before, file := disk, File(data, mode);
      var dir := Dir(path);
      SameAsItself(disk, path);
      SameIsUnaffected(disk, disk, path);
      var missing, ok := MissingDirChain(dir);
      if !ok {
        return Failed(StatDir);
      }
      ok := MkdirAll(dir, before, path, file);
      SameIsUnaffected(before, disk, path);
      if !ok {
        return Failed(MakeDirs);
      }
      NewDirsWereAbsent(before, disk, dir);
      ok := SyncNewDirs(missing, path, before, file);
      SameIsUnaffected(before, disk, path);
      if !ok {
        return Failed(SyncParents);
      }
      StillClear(before, disk, path);
      assert dir[..|dir|] == dir;
      ghost var begun := calls;
      r := WriteInDir(path, data, mode, before);
      QuietThrough(faults, old(calls), begun, calls);
      if r.Failed? && FailsAtStage(faults, begun, calls, r.stage) {
        StageIsNotQuiet(faults, begun, calls, r.stage);
      }
    }

    /** The parents of the directories that were created, from the root downwards. */
    method SyncNewDirs(missing: seq<Path>, path: Path, ghost before: Disk, ghost file: File) returns (ok: bool)
      requires Valid(disk) && Valid(before) && SameUnder(before, disk, path) && path != []
      requires IsMissingChain(before, Dir(path), missing)
      requires AllDirs(disk.dirs, Dir(path))
      modifies this
      ensures Valid(disk) && SameUnder(before, disk, path)
      ensures Extends(old(history), history, before, path, file)
      ensures disk.files == old(disk).files && disk.dirs == old(disk).dirs
      ensures ok ==> forall k :: 0 <= k <= |Dir(path)| && Absent(before, Dir(path)[..k]) ==> Dir(path)[..k] in disk.durableDirs
      ensures calls >= old(calls) && (ok <==> Quiet(faults, old(calls), calls))
    {
      hide SameUnder, Valid, CrashSafe, Absent;
      for i := 0 to |missing|
        invariant Valid(disk) && SameUnder(before, disk, path)
        invariant Extends(old(history), history, before, path, file)
        invariant disk.files == old(disk).files && disk.dirs == old(disk).dirs
        invariant forall j :: 0 <= j < i ==> missing[j] in disk.durableDirs
        invariant calls >= old(calls) && Quiet(faults, old(calls), calls)
      {
        ghost var was := disk;
        ChainMember(before, Dir(path), missing, i);
        SyncedDirKeeps(disk, Dir(missing[i]), path);
        var synced := SyncDir(Dir(missing[i]));
        if !synced {
          return false;
        }
        SameTransitive(before, was, disk, path);
        SameIsSafe(before, disk, path, file);
      }
      ok := true;
      ChainIsComplete(before, path, missing);
    }

    /** From the temporary file to the final sync; the temporary file is removed on every failure. */
    method WriteInDir(path: Path, data: seq<bv8>, mode: int, ghost before: Disk) returns (r: Outcome)
      requires Valid(disk) && Valid(before) && SameUnder(before, disk, path) && path != []
      modifies this
      ensures Valid(disk) && Extends(old(history), history, before, path, File(data, mode))
      ensures disk.dirs == old(disk).dirs && old(disk).durableDirs <= disk.durableDirs
      ensures r.Written? ==> Durable(disk, path, File(data, mode)) && Read(disk, path) == Some(File(data, mode))
      ensures r.Written? ==> disk.files.Keys == old(disk).files.Keys + {path}
      ensures r.Failed? && !r.stage.SyncFinal? ==> Unaffected(before, disk, path)
      ensures r.Failed? && !r.stage.SyncFinal? ==> disk.files == old(disk).files || (calls > 0 && faults(calls - 1))
      ensures r == Failed(SyncFinal) ==> Read(disk, path) == Some(File(data, mode))
      ensures calls >= old(calls) && (r.Written? ==> Quiet(faults, old(calls), calls))
      ensures r.Written? ==> calls == old(calls) + 7
      ensures r.Failed? ==> FailsAtStage(faults, old(calls), calls, r.stage) || IsInTheWay(old(disk), path, suffixes)
    {
      hide SameUnder, Valid, CrashSafe, Unaffected, Durable, Possible, Quiet, FailsFirst, FailsAtStage, FailsInFilling,
           IsInTheWay, Absent;
      ghost var file, from := File(data, mode), calls;
      StillQuiet(faults, from, from);
      SameIsUnaffected(before, disk, path);
      var tmp := TempName(path, suffixes(calls));
      assert tmp[|path| - 1] != path[|path| - 1];
      WayIsBlocked(disk, path, suffixes, calls);
      assert Dir(tmp) == Dir(path);
      var n := CreateTempFile(tmp, path, before, file);
      QuietOn(faults, from, from);
      if n.None? {
        CreationFails(faults, from, calls);
        return Failed(CreateTemp);
      }
      var stage := WriteThrough(tmp, n.value, path, data, mode, before, from);
      if stage.None? {
        return Written;
      }
      if !stage.value.SyncFinal? {
        ghost var failed := calls;
        RemoveTemp(tmp, path, before, file);
        StillFails(faults, from, failed, calls, stage.value);
      }
      r := Failed(stage.value);
    }

    /** Everything behind the creation of the temporary file; `from` is the call that created it. */
    method WriteThrough(tmp: Path, n: nat, path: Path, data: seq<bv8>, mode: int, ghost before: Disk, ghost from: nat)
      returns (stage: Option<Stage>)
      requires Valid(disk) && Valid(before) && SameUnder(before, disk, path) && tmp in disk.files && disk.files[tmp] == n
      requires n in disk.inodes && Some(n) !in Possible(disk, path) && tmp != path && Dir(path) in disk.dirs
      requires calls == from + 1 && !faults(from)
      modifies this
      ensures Valid(disk) && Extends(old(history), history, before, path, File(data, mode))
      ensures disk.dirs == old(disk).dirs && old(disk).durableDirs <= disk.durableDirs && calls > from
      ensures stage.None? ==> Durable(disk, path, File(data, mode)) && Quiet(faults, from, calls) && calls == from + 7
      ensures stage.Some? && !stage.value.SyncFinal? ==> SameUnder(before, disk, path) && disk.files == old(disk).files
      ensures stage.None? || stage.value.SyncFinal? ==>
        && Read(disk, path) == Some(File(data, mode))
        && disk.files.Keys == old(disk).files.Keys - {tmp} + {path}
      ensures stage.Some? ==> FailsAtStage(faults, from, calls, stage.value) || path in disk.dirs
    {
      hide SameUnder, Valid, CrashSafe, Durable, Possible, Quiet, FailsFirst, FailsAtStage, FailsInFilling, Extends;
      ghost var was := history;
      StillQuiet(faults, from, from);
      QuietOn(faults, from, from);
      stage := FillTemp(tmp, n, path, data, mode, before);
      ghost var filled, midway := calls, history;
      QuietThrough(faults, from, from + 1, filled);
      if stage.None? {
        stage := Commit(tmp, path, before, File(data, mode));
        CommitEnds(faults, from, calls, stage, path in disk.dirs);
        ExtendsOn(was, midway, history, before, path, File(data, mode));
      } else {
        FillingFails(faults, from, calls, stage.value);
      }
    }

    /** `os.CreateTemp` in the directory of the file. */
    method CreateTempFile(tmp: Path, path: Path, ghost before: Disk, ghost file: File) returns (n: Option<nat>)
      requires Valid(disk) && Valid(before) && SameUnder(before, disk, path) && tmp != path
      modifies this
      ensures Valid(disk) && SameUnder(before, disk, path)
      ensures Extends(old(history), history, before, path, file)
      ensures disk.dirs == old(disk).dirs && disk.durableDirs == old(disk).durableDirs
      ensures n.Some? ==>
        && n.value in disk.inodes && Some(n.value) !in Possible(disk, path)
        && tmp !in old(disk).files && disk.files == old(disk).files[tmp := n.value] && Dir(tmp) in disk.dirs
      ensures n.None? ==> disk == old(disk)
      ensures calls == old(calls) + 1
      ensures n.Some? <==> !faults(old(calls)) && Absent(old(disk), tmp) && Dir(tmp) in old(disk).dirs
    {
      hide SameUnder, Valid, CrashSafe, Possible;
      var fails := Fails();
      if fails || !Absent(disk, tmp) || Dir(tmp) !in disk.dirs {
        return None;
      }
      n := Some(disk.next);
      CreateEmptyKeeps(disk, tmp, path);
      SameTransitive(before, disk, CreateEmpty(disk, tmp), path);
      SameIsSafe(before, CreateEmpty(disk, tmp), path, file);
      SamePossible(disk, CreateEmpty(disk, tmp), path);
      CreateEmptyFrame(disk, tmp);
      Become(CreateEmpty(disk, tmp));
    }

    /** Rename and final sync of the directory; after a failed sync the deferred removal finds nothing to remove. */
    method Commit(tmp: Path, path: Path, ghost before: Disk, ghost file: File) returns (stage: Option<Stage>)
      requires Valid(disk) && Valid(before) && SameUnder(before, disk, path) && tmp != path && Dir(path) in disk.dirs
      requires tmp in disk.files && disk.files[tmp] in disk.synced && disk.files[tmp] in disk.inodes
      requires disk.inodes[disk.files[tmp]] == file
      modifies this
      ensures Valid(disk) && Extends(old(history), history, before, path, file)
      ensures disk.dirs == old(disk).dirs && old(disk).durableDirs <= disk.durableDirs
      ensures stage.Some? ==> stage.value in {RenameTemp, SyncFinal}
      ensures stage == Some(RenameTemp) ==>
        && disk == old(disk) && calls == old(calls) + 1 && (faults(old(calls)) || path in disk.dirs)
      ensures stage == Some(SyncFinal) ==> calls > old(calls) + 1 && !faults(old(calls)) && faults(old(calls) + 1)
      ensures stage.None? ==> calls == old(calls) + 2 && !faults(old(calls)) && !faults(old(calls) + 1)
      ensures stage != Some(RenameTemp) ==>
        Read(disk, path) == Some(file) && disk.files.Keys == old(disk).files.Keys - {tmp} + {path}
      ensures stage.None? ==> Durable(disk, path, file)
    {
      hide SameUnder, Valid, CrashSafe, Durable, Possible, Renamed;
      var fails := Fails();
      if fails || path in disk.dirs {
        return Some(RenameTemp);
      }
      RenamedIsSafe(before, disk, tmp, path, file);
      RenamedEntry(disk, tmp, path);
      Become(Renamed(disk, tmp, path));
      SyncedEntryIsDurable(disk, path, file);
      var synced := SyncDir(Dir(path));
      if synced {
        DurableIsSafe(before, disk, path, file);
        stage := None;
      } else {
        fails := Fails();
        stage := Some(SyncFinal);
      }
    }

    /** Mode, contents, sync and close of the temporary file; the stage that failed, if any. */
    method FillTemp(tmp: Path, n: nat, path: Path, data: seq<bv8>, mode: int, ghost before: Disk)
      returns (stage: Option<Stage>)
      requires Valid(disk) && Valid(before) && SameUnder(before, disk, path) && tmp in disk.files && disk.files[tmp] == n
      requires n in disk.inodes && Some(n) !in Possible(disk, path)
      modifies this
      ensures Valid(disk) && SameUnder(before, disk, path)
      ensures Extends(old(history), history, before, path, File(data, mode))
      ensures disk.files == old(disk).files && disk.dirs == old(disk).dirs && disk.durableDirs == old(disk).durableDirs
      ensures stage.None? ==> n in disk.synced && n in disk.inodes && disk.inodes[n] == File(data, mode)
      ensures calls >= old(calls) && (stage.None? <==> Quiet(faults, old(calls), calls))
      ensures stage.None? ==> calls == old(calls) + 4
      ensures stage.Some? ==> FailsInFilling(faults, old(calls), calls, stage.value) && !stage.value.SyncFinal?
    {
      hide SameUnder, Valid, CrashSafe, Possible, Quiet, FailsFirst;
      ghost var from := calls;
      StillQuiet(faults, from, from);
      var fails := Fails();
      QuietOn(faults, from, calls - 1);
      if fails {
        FirstToFail(faults, from, 0);
        return Some(ChmodTemp);
      }
      RewriteTemp(n, File(disk.inodes[n].data, mode), path, before, File(data, mode));
      fails := Fails();
      QuietOn(faults, from, calls - 1);
      if fails {
        FirstToFail(faults, from, 1);
        var cut := written(calls);
        RewriteTemp(n, File(if cut <= |data| then data[..cut] else data, mode), path, before, File(data, mode));
        return Some(WriteTemp);
      }
      RewriteTemp(n, File(data, mode), path, before, File(data, mode));
      ghost var midway := calls;
      stage := FinishTemp(n, path, before, File(data, mode));
      QuietThrough(faults, from, midway, calls);
      if stage.Some? {
        FailsLater(faults, from, 2, if stage.value.SyncTemp? then 0 else 1);
      }
    }

    /** Sync and close of the temporary file. */
    method FinishTemp(n: nat, path: Path, ghost before: Disk, ghost file: File) returns (stage: Option<Stage>)
      requires Valid(disk) && Valid(before) && SameUnder(before, disk, path)
      requires n in disk.inodes && Some(n) !in Possible(disk, path)
      modifies this
      ensures Valid(disk) && SameUnder(before, disk, path)
      ensures Extends(old(history), history, before, path, file)
      ensures disk == old(disk).(synced := disk.synced) && (stage.None? ==> n in disk.synced)
      ensures calls >= old(calls) && (stage.None? <==> Quiet(faults, old(calls), calls))
      ensures stage.None? ==> calls == old(calls) + 2
      ensures stage.Some? ==> stage.value in {SyncTemp, CloseTemp}
      ensures stage == Some(SyncTemp) ==> FailsFirst(faults, old(calls), 0)
      ensures stage == Some(CloseTemp) ==> FailsFirst(faults, old(calls), 1)
    {
      hide SameUnder, Valid, CrashSafe, Possible;
      var fails := Fails();
      if fails {
        return Some(SyncTemp);
      }
      SyncFileKeeps(disk, n, path);
      SameTransitive(before, disk, disk.(synced := disk.synced + {n}), path);
      SameIsSafe(before, disk.(synced := disk.synced + {n}), path, file);
      Become(disk.(synced := disk.synced + {n}));
      fails := Fails();
      stage := if fails then Some(CloseTemp) else None;
    }

    method RewriteTemp(n: nat, contents: File, path: Path, ghost before: Disk, ghost file: File)
      requires Valid(disk) && Valid(before) && SameUnder(before, disk, path)
      requires n in disk.inodes && Some(n) !in Possible(disk, path)
      modifies this`disk, this`history
      ensures disk == Rewrite(old(disk), n, contents) && Valid(disk) && SameUnder(before, disk, path)
      ensures Possible(disk, path) == Possible(old(disk), path)
      ensures Extends(old(history), history, before, path, file)
    {
      hide SameUnder, Valid, CrashSafe, Possible;
      RewriteKeeps(disk, n, contents, path);
      SameTransitive(before, disk, Rewrite(disk, n, contents), path);
      SameIsSafe(before, Rewrite(disk, n, contents), path, file);
      Become(Rewrite(disk, n, contents));
    }

    /** `os.Remove`, its error ignored. */
    method RemoveTemp(tmp: Path, path: Path, ghost before: Disk, ghost file: File)
      requires Valid(disk) && Valid(before) && SameUnder(before, disk, path) && tmp != path
      modifies this
      ensures Valid(disk) && SameUnder(before, disk, path) && Unaffected(before, disk, path)
      ensures Extends(old(history), history, before, path, file)
      ensures disk.dirs == old(disk).dirs && disk.durableDirs == old(disk).durableDirs
      ensures calls == old(calls) + 1 && (!faults(old(calls)) ==> disk.files == old(disk).files - {tmp})
    {
      hide SameUnder, Valid, CrashSafe, Possible, Unaffected;
      SameIsUnaffected(before, disk, path);
      var fails := Fails();
      if !fails && tmp in disk.files {
        SetEntryIs(disk, tmp, None);
        SameTransitive(before, disk, SetEntry(disk, tmp, None), path);
        SameIsSafe(before, SetEntry(disk, tmp, None), path, file);
        SameIsUnaffected(before, SetEntry(disk, tmp, None), path);
        Become(SetEntry(disk, tmp, None));
      }
    }
  }

  /** None of the calls has failed. */
  ghost predicate Quiet(faults: nat -> bool, from: nat, to: nat) {
    forall n :: from <= n < to ==> !faults(n)
  }

  lemma StillQuiet(faults: nat -> bool, from: nat, to: nat)
    requires to <= from
    ensures Quiet(faults, from, to)
  {
  }

  lemma QuietOn(faults: nat -> bool, from: nat, to: nat)
    requires from <= to
    ensures Quiet(faults, from, to + 1) <==> Quiet(faults, from, to) && !faults(to)
  {
  }

  /** The directory is missing, the path is a directory, or the name of a temporary file is taken. */
  ghost predicate IsInTheWay(d: Disk, path: Path, suffixes: nat -> string)
    requires path != []
  {
    Dir(path) !in d.dirs || path in d.dirs || exists n :: !Absent(d, TempName(path, suffixes(n)))
  }

  lemma WayIsBlocked(d: Disk, path: Path, suffixes: nat -> string, n: nat)
    requires path != []
    ensures Dir(path) !in d.dirs || path in d.dirs || !Absent(d, TempName(path, suffixes(n))) ==>
      IsInTheWay(d, path, suffixes)
  {
  }

  lemma FirstToFail(faults: nat -> bool, from: nat, k: nat)
    requires Quiet(faults, from, from + k) && faults(from + k)
    ensures FailsFirst(faults, from, k)
  {
  }

  lemma FailsLater(faults: nat -> bool, from: nat, d: nat, k: nat)
    requires Quiet(faults, from, from + d) && FailsFirst(faults, from + d, k)
    ensures FailsFirst(faults, from, d + k)
  {
  }

  lemma FillingFails(faults: nat -> bool, from: nat, to: nat, stage: Stage)
    requires !faults(from) && FailsInFilling(faults, from + 1, to, stage)
    ensures FailsAtStage(faults, from, to, stage)
  {
    hide FailsFirst;
    var k := if stage.ChmodTemp? then 0 else if stage.WriteTemp? then 1 else if stage.SyncTemp? then 2 else 3;
    StillQuiet(faults, from, from);
    QuietOn(faults, from, from);
    FailsLater(faults, from, 1, k);
    assert WRITING[1 + k] == stage;
  }

  lemma StageFails(faults: nat -> bool, from: nat, to: nat, k: nat)
    requires k < |WRITING| && Quiet(faults, from, from + k) && faults(from + k) && from + k < to
    ensures FailsAtStage(faults, from, to, WRITING[k])
  {
    FirstToFail(faults, from, k);
  }

  /** What follows when everything up to the rename has succeeded. */
  lemma CommitEnds(faults: nat -> bool, from: nat, to: nat, stage: Option<Stage>, blocked: bool)
    requires Quiet(faults, from, from + 5)
    requires stage.Some? ==> stage.value in {RenameTemp, SyncFinal}
    requires stage == Some(RenameTemp) ==> to == from + 6 && (faults(from + 5) || blocked)
    requires stage == Some(SyncFinal) ==> to > from + 6 && !faults(from + 5) && faults(from + 6)
    requires stage.None? ==> to == from + 7 && !faults(from + 5) && !faults(from + 6)
    ensures stage.None? ==> Quiet(faults, from, to)
    ensures stage.Some? ==> blocked || FailsAtStage(faults, from, to, stage.value)
  {
    hide Quiet, FailsAtStage;
    QuietOn(faults, from, from + 5);
    QuietOn(faults, from, from + 6);
    if stage == Some(RenameTemp) && faults(from + 5) {
      StageFails(faults, from, to, 5);
    } else if stage == Some(SyncFinal) {
      StageFails(faults, from, to, 6);
    }
  }

  lemma CreationFails(faults: nat -> bool, from: nat, to: nat)
    requires from < to
    ensures faults(from) ==> FailsAtStage(faults, from, to, CreateTemp)
  {
    if faults(from) {
      StageFails(faults, from, to, 0);
    }
  }

  lemma StillFails(faults: nat -> bool, from: nat, to: nat, later: nat, stage: Stage)
    requires to <= later
    ensures FailsAtStage(faults, from, to, stage) ==> FailsAtStage(faults, from, later, stage)
  {
  }

  lemma StageIsNotQuiet(faults: nat -> bool, from: nat, to: nat, stage: Stage)
    requires FailsAtStage(faults, from, to, stage)
    ensures !Quiet(faults, from, to)
  {
  }

  lemma QuietThrough(faults: nat -> bool, from: nat, midway: nat, to: nat)
    requires from <= midway <= to
    ensures Quiet(faults, from, to) <==> Quiet(faults, from, midway) && Quiet(faults, midway, to)
  {
  }

  lemma StillClear(before: Disk, d: Disk, path: Path)
    requires path != [] && d.files == before.files
    requires forall q :: q in d.dirs ==> q in before.dirs || |q| <= |Dir(path)|
    ensures path in d.dirs ==> path in before.dirs
    ensures forall suffix :: Absent(before, TempName(path, suffix)) ==> Absent(d, TempName(path, suffix))
  {
  }

  /** A temporary file of the path: a sibling whose name goes on from the path's. */
  function TempName(path: Path, suffix: string): Path
    requires path != []
  {
    Dir(path) + [path[|path| - 1] + ".tmp-" + suffix]
  }

  /** Something is in the way: a file where the path needs a directory, a directory at the path itself, or anything under
      the name of a temporary file. */
  ghost predicate Obstructed(d: Disk, path: Path, suffixes: nat -> string)
    requires path != []
  {
    || path in d.dirs || (exists k :: 0 <= k <= |Dir(path)| && Dir(path)[..k] in d.files)
    || exists n :: !Absent(d, TempName(path, suffixes(n)))
  }

  ghost predicate AllDirs(dirs: set<Path>, dir: Path) {
    forall k :: 0 <= k <= |dir| ==> dir[..k] in dirs
  }

  predicate Absent(d: Disk, p: Path) {
    p !in d.dirs && p !in d.files
  }

  /** Every state since is safe for a crash. */
  ghost predicate Extends(was: seq<Disk>, history: seq<Disk>, before: Disk, p: Path, file: File) {
    was <= history && forall k :: |was| <= k < |history| ==> CrashSafe(before, history[k], p, file)
  }

  lemma ExtendsOn(a: seq<Disk>, b: seq<Disk>, c: seq<Disk>, before: Disk, p: Path, file: File)
    requires Extends(a, b, before, p, file) && Extends(b, c, before, p, file)
    ensures Extends(a, c, before, p, file)
  {
    hide CrashSafe;
    assert forall k :: |a| <= k < |b| ==> c[k] == b[k];
  }

  function Reversed(s: seq<Path>): (r: seq<Path>)
    ensures |r| == |s| && forall i :: 0 <= i < |s| ==> r[i] == s[|s| - 1 - i]
  {
    seq(|s|, i requires 0 <= i < |s| => s[|s| - 1 - i])
  }

  /** The absent prefixes of the path that end at the path itself, shortest first, up to the first one that exists. */
  ghost predicate IsMissingChain(d: Disk, dir: Path, missing: seq<Path>) {
    && |missing| <= |dir|
    && (forall i :: 0 <= i < |missing| ==> missing[i] == dir[..|dir| - |missing| + 1 + i] && Absent(d, missing[i]))
    && !Absent(d, dir[..|dir| - |missing|])
  }

  lemma NewDirsWereAbsent(before: Disk, d: Disk, dir: Path)
    requires Valid(d) && d.files == before.files && AllDirs(d.dirs, dir)
    ensures forall k :: 0 <= k <= |dir| && dir[..k] !in before.dirs ==> Absent(before, dir[..k])
  {
  }

  lemma RootIsDir(d: Disk)
    requires Valid(d)
    ensures [] in d.dirs
  {
  }

  lemma SameAsItself(d: Disk, p: Path)
    ensures SameUnder(d, d, p)
  {
  }

  lemma SamePossible(a: Disk, b: Disk, p: Path)
    requires SameUnder(a, b, p)
    ensures Possible(a, p) == Possible(b, p)
  {
  }

  lemma DurableIsSafe(before: Disk, d: Disk, p: Path, file: File)
    requires Durable(d, p, file)
    ensures CrashSafe(before, d, p, file)
  {
  }

  lemma ChainMember(d: Disk, dir: Path, missing: seq<Path>, i: nat)
    requires IsMissingChain(d, dir, missing) && i < |missing|
    ensures Dir(missing[i]) != dir && missing[i] != []
    ensures missing[i] == dir[..|dir| - |missing| + 1 + i]
  {
  }

  lemma {:induction false} AncestorsExist(d: Disk, p: Path, k: nat)
    requires Valid(d) && k <= |p| && !Absent(d, p)
    ensures !Absent(d, p[..k])
  {
    if k == |p| {
      assert p[..k] == p;
    } else {
      assert Dir(p)[..k] == p[..k];
      AncestorsExist(d, Dir(p), k);
    }
  }

  /** Every directory of the path that is missing is in the chain. */
  lemma ChainIsComplete(d: Disk, path: Path, missing: seq<Path>)
    requires Valid(d) && path != [] && IsMissingChain(d, Dir(path), missing)
    ensures forall k :: 0 <= k <= |Dir(path)| && Absent(d, Dir(path)[..k]) ==> Dir(path)[..k] in missing
  {
    hide Valid, Absent;
    var dir := Dir(path);
    forall k | 0 <= k <= |dir| && Absent(d, dir[..k]) ensures dir[..k] in missing {
      var top := dir[..|dir| - |missing|];
      if k <= |top| {
        assert top[..k] == dir[..k];
        AncestorsExist(d, top, k);
      } else {
        assert missing[k - |top| - 1] == dir[..k];
      }
    }
  }

  /** A disk with nothing but the root is valid. */
  lemma EmptyDiskIsValid()
    ensures Valid(Disk({[]}, {[]}, map[], map[], map[], {}, 0))
  {
  }
}
