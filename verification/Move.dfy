/** A small file system: a tree of names over files, directories and symbolic links, and the calls a move
    is made of. Any call may fail, and a call that fails changes nothing. */
module FileSystem {
  import opened Wrappers

  /** A path below the served root, one name a segment; the root is the empty path. */
  type Path = seq<string>

  datatype Node = File(inode: nat) | Directory | Symlink

  type Names = map<Path, Node>

  datatype Errno = EEXIST | ENOENT | ENOTDIR | EISDIR | ENOTEMPTY | EACCES | EPERM | EINVAL | ENOSPC | EIO

  function Parent(p: Path): Path
    requires p != []
  {
    p[..|p| - 1]
  }

  predicate IsDirectory(names: Names, p: Path) {
    p in names && names[p].Directory?
  }

  /** The root is a directory, and so is the parent of everything else. */
  ghost predicate IsTree(names: Names) {
    IsDirectory(names, []) && forall p {:trigger Parent(p)} :: p in names && p != [] ==> IsDirectory(names, Parent(p))
  }

  predicate IsEmpty(names: Names, p: Path) {
    forall q :: q in names ==> !(p < q)
  }

  /** Where a path stands once `src` has become `dst`. */
  function Forth(p: Path, src: Path, dst: Path): Path {
    if src <= p then dst + p[|src|..] else p
  }

  /** Where a path stood before. */
  function Back(q: Path, src: Path, dst: Path): Path {
    Forth(q, dst, src)
  }

  lemma BackForth(p: Path, src: Path, dst: Path)
    requires !(dst <= p)
    ensures Back(Forth(p, src, dst), src, dst) == p
  {
    if src <= p {
      assert (dst + p[|src|..])[|dst|..] == p[|src|..];
      assert src + p[|src|..] == p;
    }
  }

  /** The whole subtree of `src` under the name `dst`, and no longer under `src`. */
  function Relocated(names: Names, src: Path, dst: Path): Names {
    map q | q in Targets(names, src, dst) && Back(q, src, dst) in names :: names[Back(q, src, dst)]
  }

  function Targets(names: Names, src: Path, dst: Path): set<Path> {
    set p | p in names :: Forth(p, src, dst)
  }

  /** `dst` can be the new name of `src`: free, in a directory, and not inside what moves. */
  ghost predicate IsFree(names: Names, src: Path, dst: Path) {
    && src in names && src != [] && dst != [] && dst !in names
    && IsDirectory(names, Parent(dst)) && !(src <= dst)
  }

  lemma {:induction false} AncestorIsDirectory(names: Names, p: Path, q: Path)
    requires IsTree(names) && q in names && p < q
    ensures IsDirectory(names, p)
    decreases |q|
  {
    if |p| < |q| - 1 {
      assert p == q[..|p|] == Parent(q)[..|p|];
      AncestorIsDirectory(names, p, Parent(q));
    } else {
      assert p == Parent(q);
    }
  }

  lemma NothingBelowFree(names: Names, dst: Path)
    requires IsTree(names) && dst !in names
    ensures forall q :: q in names ==> !(dst <= q)
  {
    forall q | q in names
      ensures !(dst <= q)
    {
      assert |dst| == |q| ==> dst == q[..|dst|] || !(dst <= q);
      assert q[..|q|] == q;
      if dst < q {
        AncestorIsDirectory(names, dst, q);
      }
    }
  }

  /** A relocation renames and does nothing else: every path is found again, with what it named, under
      its new path, every new path comes from an old one, and no two share one. */
  lemma RelocationIsRenaming(names: Names, src: Path, dst: Path)
    requires IsTree(names) && IsFree(names, src, dst)
    ensures var after := Relocated(names, src, dst);
            && (forall p :: p in names ==> Forth(p, src, dst) in after && after[Forth(p, src, dst)] == names[p])
            && (forall q :: q in after ==> Back(q, src, dst) in names && Forth(Back(q, src, dst), src, dst) == q)
            && (forall p :: p in names ==> Back(Forth(p, src, dst), src, dst) == p)
  {
    NothingBelowFree(names, dst);
    forall p | p in names
      ensures Back(Forth(p, src, dst), src, dst) == p
    {
      BackForth(p, src, dst);
    }
  }

  lemma ForthOfParent(p: Path, src: Path, dst: Path)
    requires p != [] && dst != [] && src < p
    ensures Forth(p, src, dst) != [] && Parent(Forth(p, src, dst)) == Forth(Parent(p), src, dst)
  {
    assert src <= Parent(p);
    assert p[|src|..][..|p| - 1 - |src|] == Parent(p)[|src|..];
    assert Parent(dst + p[|src|..]) == dst + p[|src|..][..|p| - 1 - |src|];
  }

  lemma RelocatedIsTree(names: Names, src: Path, dst: Path)
    requires IsTree(names) && IsFree(names, src, dst)
    ensures IsTree(Relocated(names, src, dst))
  {
    var after := Relocated(names, src, dst);
    RelocationIsRenaming(names, src, dst);
    assert Forth([], src, dst) == [];
    forall q | q in after && q != []
      ensures IsDirectory(after, Parent(q))
    {
      var p := Back(q, src, dst);
      if q == dst {
        assert !(src <= Parent(dst));
        assert Forth(Parent(dst), src, dst) == Parent(dst);
      } else if src <= p {
        assert p[..|p|] == p && Forth(src, src, dst) == dst;
        ForthOfParent(p, src, dst);
        assert IsDirectory(names, Parent(p));
      } else {
        assert p == q;
        assert !(src <= Parent(q));
        assert Forth(Parent(q), src, dst) == Parent(q);
      }
    }
  }

  /** The old name of what moved is free again. */
  lemma SourceIsFreeAfter(names: Names, src: Path, dst: Path)
    requires IsTree(names) && IsFree(names, src, dst)
    ensures IsFree(Relocated(names, src, dst), dst, src)
  {
    NothingBelowFree(names, dst);
    RelocationIsRenaming(names, src, dst);
    assert Forth(src, src, dst) == dst && Back(src, src, dst) == src;
    assert !(src <= Parent(src));
    assert Forth(Parent(src), src, dst) == Parent(src);
  }

  /** Moving back undoes a move. */
  lemma MovingBackUndoes(names: Names, src: Path, dst: Path)
    requires IsTree(names) && IsFree(names, src, dst)
    ensures IsFree(Relocated(names, src, dst), dst, src)
    ensures Relocated(Relocated(names, src, dst), dst, src) == names
  {
    var after := Relocated(names, src, dst);
    RelocationIsRenaming(names, src, dst);
    RelocatedIsTree(names, src, dst);
    SourceIsFreeAfter(names, src, dst);
    RelocationIsRenaming(after, dst, src);
    var again := Relocated(after, dst, src);
    forall p | p in names
      ensures p in again && again[p] == names[p]
    {
      assert Forth(Forth(p, src, dst), dst, src) == Back(Forth(p, src, dst), src, dst);
    }
    forall p | p in again
      ensures p in names
    {
      assert Back(p, dst, src) in after;
    }
  }

  /** A file has nothing below it, so moving its subtree is renaming one entry. */
  lemma RelocatingAFile(names: Names, src: Path, dst: Path)
    requires IsTree(names) && IsFree(names, src, dst) && !names[src].Directory?
    ensures Relocated(names, src, dst) == names[dst := names[src]] - {src}
  {
    var after, one := Relocated(names, src, dst), names[dst := names[src]] - {src};
    RelocationIsRenaming(names, src, dst);
    NothingBelowFree(names, dst);
    assert Forth(src, src, dst) == dst;
    forall p | p in names && p != src
      ensures p in after && after[p] == names[p]
    {
      OnlyItself(names, src, p);
      assert Forth(p, src, dst) == p;
    }
    forall q | q in after
      ensures q in one
    {
      var p := Back(q, src, dst);
      assert p in names && Forth(p, src, dst) == q;
      OnlyItself(names, src, p);
    }
  }

  lemma OnlyItself(names: Names, src: Path, p: Path)
    requires IsTree(names) && src in names && !names[src].Directory? && p in names
    ensures src <= p ==> p == src
  {
    assert p[..|p|] == p;
    if src < p {
      AncestorIsDirectory(names, src, p);
    }
  }

  // ---------------------------------------------------------------------------------------------
  // The calls. `faults` says which of the coming ones fail of their own accord, and how.

  function FaultAt(faults: seq<Option<Errno>>, i: nat): Option<Errno> {
    if i < |faults| then faults[i] else None
  }

  ghost predicate Reliable(faults: seq<Option<Errno>>) {
    forall f :: f in faults ==> f.None?
  }

  function After(faults: seq<Option<Errno>>, calls: nat): seq<Option<Errno>> {
    if calls <= |faults| then faults[calls..] else []
  }

  lemma {:induction false} FaultAfter(faults: seq<Option<Errno>>, calls: nat, i: nat)
    ensures FaultAt(After(faults, calls), i) == FaultAt(faults, calls + i)
    ensures After(After(faults, calls), i) == After(faults, calls + i)
    ensures Reliable(faults) ==> FaultAt(faults, i).None? && Reliable(After(faults, calls))
  {
  }

  lemma AfterAfter(faults: seq<Option<Errno>>, calls: nat, more: nat)
    ensures After(After(faults, calls), more) == After(faults, calls + more)
  {
  }

  predicate CanCreate(names: Names, p: Path) {
    p != [] && p !in names && IsDirectory(names, Parent(p))
  }

  /** The error for naming something that is not there: one kind if a file or a link stands in the way, another
      if the path just ends. */
  function Absence(names: Names, p: Path): Errno {
    if exists n :: 0 <= n < |p| && p[..n] in names && !names[p[..n]].Directory? then ENOTDIR else ENOENT
  }

  class Disk {
    var names: Names
    var faults: seq<Option<Errno>>

    constructor (names: Names, faults: seq<Option<Errno>>)
      ensures this.names == names && this.faults == faults
    {
      this.names, this.faults := names, faults;
    }

    ghost predicate Valid()
      reads this
    {
      IsTree(names)
    }

    /** The next call's own failure, if it has one. */
    method Fault() returns (e: Option<Errno>)
      modifies this`faults
      ensures e == FaultAt(old(faults), 0) && faults == After(old(faults), 1)
    {
      if faults == [] {
        return None;
      }
      e := faults[0];
      faults := faults[1..];
    }

    method Stat(p: Path) returns (r: Result<Node, Errno>)
      modifies this`faults
      ensures faults == After(old(faults), 1)
      ensures r.Ok? <==> FaultAt(old(faults), 0).None? && p in names
      ensures r.Ok? ==> r.value == names[p]
      ensures FaultAt(old(faults), 0).None? && p !in names ==> r == Err(Absence(names, p))
      ensures FaultAt(old(faults), 0).Some? ==> r == Err(FaultAt(old(faults), 0).value)
    {
      var e := Fault();
      if e.Some? {
        return Err(e.value);
      }
      if p !in names {
        return Err(Absence(names, p));
      }
      r := Ok(names[p]);
    }

    /** A second name for a file, never over an existing one. */
    method Link(src: Path, dst: Path) returns (e: Option<Errno>)
      requires Valid() && dst != []
      modifies this
      ensures Valid() && faults == After(old(faults), 1)
      ensures e.Some? ==> names == old(names)
      ensures FaultAt(old(faults), 0).Some? ==> e == FaultAt(old(faults), 0)
      ensures e.None? <==> FaultAt(old(faults), 0).None? && CanCreate(old(names), dst)
                           && src in old(names) && !old(names)[src].Directory?
      ensures e.None? ==> names == old(names)[dst := old(names)[src]]
      ensures FaultAt(old(faults), 0).None? && src in old(names) && dst in old(names) ==> e == Some(EEXIST)
    {
      e := Fault();
      if e.Some? {
        return;
      }
      if src !in names {
        return Some(Absence(names, src));
      }
      if dst in names {
        return Some(EEXIST);
      }
      if !IsDirectory(names, Parent(dst)) {
        return Some(Absence(names, dst));
      }
      if names[src].Directory? {
        return Some(EPERM);
      }
      names := names[dst := names[src]];
    }

    method Unlink(p: Path) returns (e: Option<Errno>)
      requires Valid()
      modifies this
      ensures Valid() && faults == After(old(faults), 1)
      ensures e.Some? ==> names == old(names)
      ensures FaultAt(old(faults), 0).Some? ==> e == FaultAt(old(faults), 0)
      ensures e.None? <==> FaultAt(old(faults), 0).None? && p in old(names) && !old(names)[p].Directory?
      ensures e.None? ==> names == old(names) - {p}
    {
      e := Fault();
      if e.Some? {
        return;
      }
      if p !in names {
        return Some(Absence(names, p));
      }
      if names[p].Directory? {
        return Some(EISDIR);
      }
      names := names - {p};
    }

    method Mkdir(p: Path) returns (e: Option<Errno>)
      requires Valid() && p != []
      modifies this
      ensures Valid() && faults == After(old(faults), 1)
      ensures e.Some? ==> names == old(names)
      ensures FaultAt(old(faults), 0).Some? ==> e == FaultAt(old(faults), 0)
      ensures e.None? <==> FaultAt(old(faults), 0).None? && CanCreate(old(names), p)
      ensures e.None? ==> names == old(names)[p := Directory]
      ensures FaultAt(old(faults), 0).None? && p in old(names) ==> e == Some(EEXIST)
    {
      e := Fault();
      if e.Some? {
        return;
      }
      if p in names {
        return Some(EEXIST);
      }
      if !IsDirectory(names, Parent(p)) {
        return Some(Absence(names, p));
      }
      names := names[p := Directory];
    }

    /** Removes a directory, if nothing is in it. */
    method Rmdir(p: Path) returns (e: Option<Errno>)
      requires Valid() && p != []
      modifies this
      ensures Valid() && faults == After(old(faults), 1)
      ensures e.Some? ==> names == old(names)
      ensures FaultAt(old(faults), 0).Some? ==> e == FaultAt(old(faults), 0)
      ensures e.None? <==> FaultAt(old(faults), 0).None? && IsDirectory(old(names), p) && IsEmpty(old(names), p)
      ensures e.None? ==> names == old(names) - {p}
    {
      e := Fault();
      if e.Some? {
        return;
      }
      if p !in names {
        return Some(Absence(names, p));
      }
      if !names[p].Directory? {
        return Some(ENOTDIR);
      }
      if !IsEmpty(names, p) {
        return Some(ENOTEMPTY);
      }
      RemovingALeaf(names, p);
      names := names - {p};
    }

    /** Moves a directory; onto another only if that one is empty, and never into itself. */
    method RenameDirectory(src: Path, dst: Path) returns (e: Option<Errno>)
      requires Valid() && src != [] && dst != [] && src != dst && IsDirectory(names, src)
      modifies this
      ensures Valid() && faults == After(old(faults), 1)
      ensures e.Some? ==> names == old(names)
      ensures FaultAt(old(faults), 0).Some? ==> e == FaultAt(old(faults), 0)
      ensures e.None? <==> FaultAt(old(faults), 0).None? && !(src <= dst) && IsDirectory(old(names), Parent(dst))
                           && (dst in old(names) ==> IsDirectory(old(names), dst) && IsEmpty(old(names), dst))
      ensures e.None? ==> names == Relocated(old(names) - {dst}, src, dst)
    {
      e := Fault();
      if e.Some? {
        return;
      }
      if src <= dst {
        return Some(EINVAL);
      }
      if !IsDirectory(names, Parent(dst)) {
        return Some(Absence(names, dst));
      }
      if dst in names && !names[dst].Directory? {
        return Some(ENOTDIR);
      }
      if dst in names && !IsEmpty(names, dst) {
        return Some(ENOTEMPTY);
      }
      RemovingALeaf(names, dst);
      RelocatedIsTree(names - {dst}, src, dst);
      names := Relocated(names - {dst}, src, dst);
    }
  }

  lemma RemovingALeaf(names: Names, p: Path)
    requires IsTree(names) && p != [] && (p in names ==> IsEmpty(names, p))
    ensures IsTree(names - {p})
  {
    forall q | q in names && q != [] && q != p
      ensures IsDirectory(names - {p}, Parent(q))
    {
      assert Parent(q) < q;
    }
  }
}

/** Moving one item, or a batch of them, into a directory without ever replacing what is there. */
module Move {
  import opened Wrappers
  import opened FileSystem

  /** A path that names an entry; the root is not one. */
  type EntryPath = p: Path | p != [] witness [""]

  datatype Code = INVALID_REQUEST | NOT_FOUND | CONFLICT | FILE_NOT_WRITABLE | STORAGE_EXHAUSTED | INTERNAL_ERROR

  datatype Attempt = Done | Conflict | Failed(errno: Errno)

  function CodeOf(e: Errno): Code {
    match e
    case ENOENT => NOT_FOUND
    case EISDIR | ENOTDIR => INVALID_REQUEST
    case EACCES | EPERM => FILE_NOT_WRITABLE
    case ENOSPC => STORAGE_EXHAUSTED
    case EEXIST | ENOTEMPTY | EINVAL | EIO => INTERNAL_ERROR
  }

  /** What a move may leave behind when its second call fails and so does the rollback: a second name for
      the file, or the empty directory reserved for the folder. */
  function Residue(names: Names, src: Path, dst: Path): Names
    requires src in names
  {
    names[dst := names[src]]
  }

  /** What an attempt did: on success the whole subtree stands under the new name; otherwise nothing has
      changed, or the residue is left. */
  ghost predicate Attempted(before: Names, after: Names, src: Path, dst: Path, faults: seq<Option<Errno>>, r: Attempt)
    requires src in before
  {
    && r == Verdict(before, src, dst, faults)
    && (r.Done? ==> dst !in before && after == Relocated(before, src, dst))
    && (!r.Done? ==> after == if Stranded(before, dst, faults) then Residue(before, src, dst) else before)
  }

  /** Moves one item. The destination is created, never replaced: a file by a second link, a folder by
      reserving its name first; then the source goes, or the creation is taken back. */
  method MoveWithoutOverwrite(disk: Disk, src: EntryPath, dst: EntryPath) returns (r: Attempt)
    requires disk.Valid() && src in disk.names && !disk.names[src].Symlink?
    requires IsDirectory(disk.names, Parent(dst)) && !(src <= dst)
    modifies disk
    ensures disk.Valid() && Attempted(old(disk.names), disk.names, src, dst, old(disk.faults), r)
    ensures r.Done? ==> disk.faults == After(old(disk.faults), 2)
    ensures Reliable(old(disk.faults)) ==> Reliable(disk.faults)
  {
    if !disk.names[src].Directory? {
      r := MoveFile(disk, src, dst);
    } else {
      r := MoveFolder(disk, src, dst);
    }
  }

  method MoveFile(disk: Disk, src: EntryPath, dst: EntryPath) returns (r: Attempt)
    requires disk.Valid() && src in disk.names && disk.names[src].File?
    requires IsDirectory(disk.names, Parent(dst)) && !(src <= dst)
    modifies disk
    ensures disk.Valid() && Attempted(old(disk.names), disk.names, src, dst, old(disk.faults), r)
    ensures r.Done? ==> disk.faults == After(old(disk.faults), 2)
    ensures Reliable(old(disk.faults)) ==> Reliable(disk.faults)
  {
    ghost var names, faults := disk.names, disk.faults;
    ThreeFaults(faults);
    var e := disk.Link(src, dst);
    if e.Some? {
      return if e.value == EEXIST then Conflict else Failed(e.value);
    }
    RelocatingAFile(names, src, dst);
    e := disk.Unlink(src);
    if e.Some? {
      var _ := disk.Unlink(dst);
      assert names[dst := names[src]] - {dst} == names;
      return Failed(e.value);
    }
    return Done;
  }

  method MoveFolder(disk: Disk, src: EntryPath, dst: EntryPath) returns (r: Attempt)
    requires disk.Valid() && IsDirectory(disk.names, src)
    requires IsDirectory(disk.names, Parent(dst)) && !(src <= dst)
    modifies disk
    ensures disk.Valid() && Attempted(old(disk.names), disk.names, src, dst, old(disk.faults), r)
    ensures r.Done? ==> disk.faults == After(old(disk.faults), 2)
    ensures Reliable(old(disk.faults)) ==> Reliable(disk.faults)
  {
    ghost var names, faults := disk.names, disk.faults;
    ThreeFaults(faults);
    var e := disk.Mkdir(dst);
    if e.Some? {
      return if e.value == EEXIST then Conflict else Failed(e.value);
    }
    assert IsEmpty(disk.names, dst) by {
      NothingBelowFree(names, dst);
    }
    assert names[dst := Directory] - {dst} == names;
    assert Parent(dst) != dst;
    e := disk.RenameDirectory(src, dst);
    if e.Some? {
      var _ := disk.Rmdir(dst);
      return if e.value == EEXIST || e.value == ENOTEMPTY then Conflict else Failed(e.value);
    }
    return Done;
  }

  lemma ThreeFaults(faults: seq<Option<Errno>>)
    ensures forall calls :: 0 <= calls <= 2 ==> FaultAt(After(faults, calls), 0) == FaultAt(faults, calls)
    ensures After(After(faults, 1), 1) == After(faults, 2) && After(After(faults, 2), 1) == After(faults, 3)
    ensures Reliable(faults) ==> Reliable(After(faults, 1)) && Reliable(After(faults, 2)) && Reliable(After(faults, 3))
  {
    FaultAfter(faults, 1, 1);
    FaultAfter(faults, 2, 1);
    FaultAfter(faults, 3, 0);
  }

  /** How the attempt ends: by the first call that fails, of its own accord or because the name is taken.
      A taken name is a conflict whichever call reports it. */
  function Verdict(names: Names, src: Path, dst: Path, faults: seq<Option<Errno>>): Attempt
    requires src in names
  {
    var first, second := FaultAt(faults, 0), FaultAt(faults, 1);
    if first.Some? then if first.value == EEXIST then Conflict else Failed(first.value)
    else if dst in names then Conflict
    else if second.None? then Done
    else if names[src].Directory? && second.value in {EEXIST, ENOTEMPTY} then Conflict
    else Failed(second.value)
  }

  /** On a disk that does not fail, an attempt moves exactly when the name is free, strands nothing, and a
      conflict is the only other end. */
  lemma ReliableVerdict(names: Names, src: Path, dst: Path, faults: seq<Option<Errno>>)
    requires src in names && Reliable(faults)
    ensures Verdict(names, src, dst, faults) == if dst in names then Conflict else Done
    ensures !Stranded(names, dst, faults)
  {
    FaultAfter(faults, 0, 0);
    FaultAfter(faults, 0, 1);
  }

  /** Something stays behind exactly when the destination was created, the second call failed, and so did
      the rollback. */
  predicate Stranded(names: Names, dst: Path, faults: seq<Option<Errno>>) {
    dst !in names && FaultAt(faults, 0).None? && FaultAt(faults, 1).Some? && FaultAt(faults, 2).Some?
  }

  datatype Item = Item(sourcePath: EntryPath, path: Path, stayed: bool)

  function Target(src: EntryPath, dir: Path): EntryPath
  {
    dir + [src[|src| - 1]]
  }

  /** An item keeps its own name in the directory it goes to. */
  lemma TargetKeepsName(src: EntryPath, dir: Path)
    ensures Parent(Target(src, dir)) == dir && Target(src, dir)[|dir|] == src[|src| - 1]
  {
  }

  function Moved(names: Names, src: EntryPath, dir: Path): Names
  {
    if Target(src, dir) == src then names else Relocated(names, src, Target(src, dir))
  }

  /** The item may be asked to go there: a file or folder that exists, into a directory outside it. */
  predicate Placeable(names: Names, src: EntryPath, dir: Path) {
    && src in names && !names[src].Symlink? && IsDirectory(names, dir)
    && !(names[src].Directory? && src <= dir)
  }

  /** And it can: its name is free there, or it is there already. */
  predicate Movable(names: Names, src: EntryPath, dir: Path) {
    Placeable(names, src, dir) && (Target(src, dir) == src || Target(src, dir) !in names)
  }

  lemma TargetIsOutside(names: Names, src: EntryPath, dir: Path)
    requires IsTree(names) && Placeable(names, src, dir) && Target(src, dir) != src
    ensures Parent(Target(src, dir)) == dir && !(src <= Target(src, dir))
  {
    var dst := Target(src, dir);
    assert dir[..|dir|] == dir && dst[..|dst|] == dst && dst[..|dir|] == dir;
    assert src <= dir && |src| == |dir| ==> src == dir;
    assert src <= dst && |src| == |dst| ==> src == dst;
    assert src <= dst && |src| <= |dir| ==> src <= dir;
    if src < dir {
      AncestorIsDirectory(names, src, dir);
    }
  }

  /** Why an item may not be asked to go there, the first reason found: it is not there, it is a link, the
      destination is not there or no directory, or it lies in what would move. */
  function Refusal(names: Names, src: EntryPath, dir: Path): Code
    requires !Placeable(names, src, dir)
  {
    if src !in names then CodeOf(Absence(names, src))
    else if !names[src].Symlink? && dir !in names then CodeOf(Absence(names, dir))
    else INVALID_REQUEST
  }

  /** The three calls that look at the item and its destination do not fail of their own accord. */
  predicate Clear(faults: seq<Option<Errno>>) {
    FaultAt(faults, 0).None? && FaultAt(faults, 1).None? && FaultAt(faults, 2).None?
  }

  /** The item moves, or is there already. */
  predicate Goes(names: Names, src: EntryPath, dir: Path, faults: seq<Option<Errno>>) {
    && Placeable(names, src, dir) && Clear(faults)
    && (Target(src, dir) == src || Verdict(names, src, Target(src, dir), After(faults, 3)).Done?)
  }

  /** It leaves its residue: its attempt is made, and strands it. */
  predicate Strands(names: Names, src: EntryPath, dir: Path, faults: seq<Option<Errno>>) {
    && Placeable(names, src, dir) && Clear(faults)
    && Target(src, dir) != src && Stranded(names, Target(src, dir), After(faults, 3))
  }

  /** The calls an item that goes takes. */
  function CallsFor(src: EntryPath, dir: Path): nat {
    if Target(src, dir) == src then 3 else 5
  }

  lemma GoesIsMovable(names: Names, src: EntryPath, dir: Path, faults: seq<Option<Errno>>)
    ensures Goes(names, src, dir, faults) ==> Movable(names, src, dir)
    ensures Reliable(faults) ==> (Goes(names, src, dir, faults) <==> Movable(names, src, dir))
    ensures Reliable(faults) ==> !Strands(names, src, dir, faults)
  {
    ThreeFaults(faults);
    FaultAfter(faults, 0, 0);
    FaultAfter(faults, 0, 1);
    FaultAfter(faults, 0, 2);
    if Placeable(names, src, dir) && Reliable(faults) {
      ReliableVerdict(names, src, Target(src, dir), After(faults, 3));
    }
  }

  /** Why an item is not resolved: the first call that fails, of its own accord or for what it finds. */
  function Unresolved(names: Names, src: EntryPath, dir: Path, faults: seq<Option<Errno>>): Code
    requires !(Placeable(names, src, dir) && Clear(faults))
  {
    if FaultAt(faults, 0).Some? then CodeOf(FaultAt(faults, 0).value)
    else if src !in names then CodeOf(Absence(names, src))
    else if names[src].Symlink? then INVALID_REQUEST
    else if FaultAt(faults, 1).Some? then CodeOf(FaultAt(faults, 1).value)
    else if dir !in names then CodeOf(Absence(names, dir))
    else if !names[dir].Directory? then INVALID_REQUEST
    else if FaultAt(faults, 2).Some? then CodeOf(FaultAt(faults, 2).value)
    else INVALID_REQUEST
  }

  /** Why an item does not go. */
  function WhyNot(names: Names, src: EntryPath, dir: Path, faults: seq<Option<Errno>>): Code
    requires !Goes(names, src, dir, faults)
  {
    if !(Placeable(names, src, dir) && Clear(faults)) then Unresolved(names, src, dir, faults)
    else match Verdict(names, src, Target(src, dir), After(faults, 3))
      case Failed(e) => CodeOf(e)
      case _ => CONFLICT
  }

  /** On a disk that does not fail, a taken name is the conflict, and anything else the refusal it deserves. */
  lemma ReliableWhyNot(names: Names, src: EntryPath, dir: Path, faults: seq<Option<Errno>>)
    requires Reliable(faults) && !Goes(names, src, dir, faults)
    ensures WhyNot(names, src, dir, faults) == if Placeable(names, src, dir) then CONFLICT else Refusal(names, src, dir)
  {
    ThreeFaults(faults);
    FaultAfter(faults, 0, 0);
    FaultAfter(faults, 0, 1);
    FaultAfter(faults, 0, 2);
    if Placeable(names, src, dir) {
      ReliableVerdict(names, src, Target(src, dir), After(faults, 3));
    }
  }

  /** Where the item would go, or why it may not; nothing is changed yet. */
  method ResolveMoveTarget(disk: Disk, src: EntryPath, dir: Path) returns (r: Result<EntryPath, Code>)
    requires disk.Valid()
    modifies disk`faults
    ensures r.Ok? <==> Placeable(disk.names, src, dir) && Clear(old(disk.faults))
    ensures r.Ok? ==> r.value == Target(src, dir) && disk.faults == After(old(disk.faults), 3)
    ensures r.Err? ==> r.error == Unresolved(disk.names, src, dir, old(disk.faults)) != CONFLICT
  {
    ThreeFaults(disk.faults);
    var source := disk.Stat(src);
    if source.Err? {
      return Err(CodeOf(source.error));
    }
    if source.value.Symlink? {
      return Err(INVALID_REQUEST);
    }
    var directory := disk.Stat(dir);
    if directory.Err? {
      return Err(CodeOf(directory.error));
    }
    if !directory.value.Directory? {
      return Err(INVALID_REQUEST);
    }
    source := disk.Stat(src);
    if source.Err? {
      return Err(CodeOf(source.error));
    }
    if source.value.Directory? && src <= dir {
      return Err(INVALID_REQUEST);
    }
    return Ok(Target(src, dir));
  }

  /** Moves one item of a batch, or says why it could not be moved. */
  method MoveOne(disk: Disk, src: EntryPath, dir: Path) returns (r: Result<Item, Code>)
    requires disk.Valid()
    modifies disk
    ensures disk.Valid()
    ensures r.Ok? <==> Goes(old(disk.names), src, dir, old(disk.faults))
    ensures r.Ok? ==>
              && r.value == ItemFor(src, dir) && disk.names == Moved(old(disk.names), src, dir)
              && disk.faults == After(old(disk.faults), CallsFor(src, dir))
    ensures r.Err? ==> Refuses(old(disk.names), disk.names, src, dir, old(disk.faults))
    ensures r.Err? ==> r.error == WhyNot(old(disk.names), src, dir, old(disk.faults))
  {
    ghost var names, faults := disk.names, disk.faults;
    FaultAfter(faults, 3, 2);
    var target := ResolveMoveTarget(disk, src, dir);
    if target.Err? {
      return Err(target.error);
    }
    var dst := target.value;
    if dst == src {
      return Ok(Item(src, dst, true));
    }
    TargetIsOutside(names, src, dir);
    var attempt := MoveWithoutOverwrite(disk, src, dst);
    match attempt {
      case Done => return Ok(Item(src, dst, false));
      case Conflict => return Err(CONFLICT);
      case Failed(e) => return Err(CodeOf(e));
    }
  }

  /** A failed item changes nothing, except exactly when it strands: then its residue stands under a name
      that was free. */
  predicate Refuses(before: Names, after: Names, src: EntryPath, dir: Path, faults: seq<Option<Errno>>) {
    && !Goes(before, src, dir, faults)
    && after == if Strands(before, src, dir, faults) then Residue(before, src, Target(src, dir)) else before
  }

  function ItemFor(src: EntryPath, dir: Path): Item {
    Item(src, Target(src, dir), Target(src, dir) == src)
  }

  // ---------------------------------------------------------------------------------------------
  // Batches.

  datatype Failure = Failure(code: Code, sourcePath: Option<EntryPath>)

  /** Refused outright while no item has succeeded; answered with results, and a failure if one stopped it, after. */
  datatype Answer = Refused(failure: Failure) | Answered(results: seq<Item>, stopped: Option<Failure>)

  /** The names after moving the first `k` sources in turn. */
  function MovedAll(names: Names, sources: seq<EntryPath>, k: nat, dir: Path): Names
    requires k <= |sources|
  {
    if k == 0 then names else Moved(MovedAll(names, sources, k - 1, dir), sources[k - 1], dir)
  }

  /** Each of the first `k` sources can be moved when its turn comes. */
  ghost predicate AllMovable(names: Names, sources: seq<EntryPath>, k: nat, dir: Path)
    requires k <= |sources|
  {
    forall i {:trigger MovableNext(names, sources, i, dir)} :: 0 <= i < k ==> MovableNext(names, sources, i, dir)
  }

  /** The source in place `k` can be moved, after all before it. */
  ghost predicate MovableNext(names: Names, sources: seq<EntryPath>, k: nat, dir: Path)
    requires k < |sources|
  {
    Movable(MovedAll(names, sources, k, dir), sources[k], dir)
  }

  lemma OneLessMovable(names: Names, sources: seq<EntryPath>, k: nat, dir: Path)
    requires 0 < k <= |sources| && AllMovable(names, sources, k, dir)
    ensures AllMovable(names, sources, k - 1, dir)
    ensures Movable(MovedAll(names, sources, k - 1, dir), sources[k - 1], dir)
  {
    var last := k - 1;
    assert MovableNext(names, sources, last, dir);
  }

  /** Where moving one source takes a path. */
  function Step(p: Path, src: EntryPath, dir: Path): Path {
    if Target(src, dir) == src then p else Forth(p, src, Target(src, dir))
  }

  /** Where a path ends up after the first `k` moves. */
  function Trail(p: Path, sources: seq<EntryPath>, k: nat, dir: Path): Path
    requires k <= |sources|
  {
    if k == 0 then p else Step(Trail(p, sources, k - 1, dir), sources[k - 1], dir)
  }

  /** Everything there was is still there, at the end of its trail, naming what it named. */
  ghost predicate Kept(before: Names, after: Names, sources: seq<EntryPath>, k: nat, dir: Path)
    requires k <= |sources|
  {
    forall p {:trigger Trail(p, sources, k, dir)} ::
      p in before ==> Trail(p, sources, k, dir) in after && after[Trail(p, sources, k, dir)] == before[p]
  }

  /** No two trails meet. */
  ghost predicate Apart(before: Names, sources: seq<EntryPath>, k: nat, dir: Path)
    requires k <= |sources|
  {
    forall p, q :: p in before && q in before && Trail(p, sources, k, dir) == Trail(q, sources, k, dir) ==> p == q
  }

  ghost predicate IsTrailEnd(before: Names, q: Path, sources: seq<EntryPath>, k: nat, dir: Path)
    requires k <= |sources|
  {
    exists p :: p in before && Trail(p, sources, k, dir) == q
  }

  /** One move: every path is found where it was taken, no two are taken to one place, and nothing else is
      there. */
  ghost predicate StepKeeps(before: Names, after: Names, src: EntryPath, dir: Path) {
    forall p {:trigger Step(p, src, dir)} :: p in before ==> Step(p, src, dir) in after && after[Step(p, src, dir)] == before[p]
  }

  ghost predicate StepsApart(before: Names, src: EntryPath, dir: Path) {
    forall p, q :: p in before && q in before && Step(p, src, dir) == Step(q, src, dir) ==> p == q
  }

  ghost predicate IsStepEnd(before: Names, q: Path, src: EntryPath, dir: Path) {
    exists p :: p in before && Step(p, src, dir) == q
  }

  lemma StepIsRenaming(names: Names, src: EntryPath, dir: Path)
    requires IsTree(names) && Movable(names, src, dir)
    ensures IsTree(Moved(names, src, dir))
    ensures StepKeeps(names, Moved(names, src, dir), src, dir) && StepsApart(names, src, dir)
    ensures forall q :: q in Moved(names, src, dir) ==> IsStepEnd(names, q, src, dir)
  {
    var dst := Target(src, dir);
    if dst != src {
      TargetIsOutside(names, src, dir);
      RelocatedIsTree(names, src, dst);
      RelocationIsRenaming(names, src, dst);
      forall q | q in Moved(names, src, dir)
        ensures IsStepEnd(names, q, src, dir)
      {
        assert Step(Back(q, src, dst), src, dir) == q;
      }
    } else {
      forall q | q in names
        ensures IsStepEnd(names, q, src, dir)
      {
        assert Step(q, src, dir) == q;
      }
    }
  }

  lemma {:induction false} MovedAllIsTree(names: Names, sources: seq<EntryPath>, k: nat, dir: Path)
    requires k <= |sources| && IsTree(names) && AllMovable(names, sources, k, dir)
    ensures IsTree(MovedAll(names, sources, k, dir))
  {
    if k > 0 {
      OneLessMovable(names, sources, k, dir);
      MovedAllIsTree(names, sources, k - 1, dir);
      StepIsRenaming(MovedAll(names, sources, k - 1, dir), sources[k - 1], dir);
    }
  }

  lemma KeptOnce(names: Names, before: Names, after: Names, sources: seq<EntryPath>, k: nat, dir: Path)
    requires 0 < k <= |sources| && Kept(names, before, sources, k - 1, dir)
    requires StepKeeps(before, after, sources[k - 1], dir)
    ensures Kept(names, after, sources, k, dir)
  {
  }

  lemma ApartOnce(names: Names, before: Names, sources: seq<EntryPath>, k: nat, dir: Path)
    requires 0 < k <= |sources| && Kept(names, before, sources, k - 1, dir) && Apart(names, sources, k - 1, dir)
    requires StepsApart(before, sources[k - 1], dir)
    ensures Apart(names, sources, k, dir)
  {
  }

  lemma EndsOnce(names: Names, before: Names, q: Path, sources: seq<EntryPath>, k: nat, dir: Path)
    requires 0 < k <= |sources| && IsStepEnd(before, q, sources[k - 1], dir)
    requires forall b :: b in before ==> IsTrailEnd(names, b, sources, k - 1, dir)
    ensures IsTrailEnd(names, q, sources, k, dir)
  {
    var b :| b in before && Step(b, sources[k - 1], dir) == q;
    var p :| p in names && Trail(p, sources, k - 1, dir) == b;
    assert Trail(p, sources, k, dir) == q;
  }

  /** A batch renames and does nothing else: every path is found at the end of its trail with what it
      named, no two trails meet, and every path found is the end of one. */
  lemma {:induction false} BatchIsRenaming(names: Names, sources: seq<EntryPath>, k: nat, dir: Path)
    requires k <= |sources| && IsTree(names) && AllMovable(names, sources, k, dir)
    ensures Kept(names, MovedAll(names, sources, k, dir), sources, k, dir)
    ensures Apart(names, sources, k, dir)
    ensures forall q :: q in MovedAll(names, sources, k, dir) ==> IsTrailEnd(names, q, sources, k, dir)
  {
    if k > 0 {
      var before, after := MovedAll(names, sources, k - 1, dir), MovedAll(names, sources, k, dir);
      OneLessMovable(names, sources, k, dir);
      MovedAllIsTree(names, sources, k - 1, dir);
      BatchIsRenaming(names, sources, k - 1, dir);
      StepIsRenaming(before, sources[k - 1], dir);
      KeptOnce(names, before, after, sources, k, dir);
      ApartOnce(names, before, sources, k, dir);
      forall q | q in after
        ensures IsTrailEnd(names, q, sources, k, dir)
      {
        EndsOnce(names, before, q, sources, k, dir);
      }
    } else {
      forall q | q in names
        ensures IsTrailEnd(names, q, sources, 0, dir)
      {
        assert Trail(q, sources, 0, dir) == q;
      }
    }
  }

  /** Paths outside everything that moves stay where they are. */
  lemma {:induction false} TrailStays(p: Path, sources: seq<EntryPath>, k: nat, dir: Path)
    requires k <= |sources| && forall i :: 0 <= i < k ==> !(sources[i] <= p)
    ensures Trail(p, sources, k, dir) == p
  {
    if k > 0 {
      TrailStays(p, sources, k - 1, dir);
    }
  }

  /** The calls the first `k` sources take if they go. */
  function CallsForAll(sources: seq<EntryPath>, k: nat, dir: Path): nat
    requires k <= |sources|
  {
    if k == 0 then 0 else CallsForAll(sources, k - 1, dir) + CallsFor(sources[k - 1], dir)
  }

  /** Each of the first `k` sources goes when its turn comes. */
  ghost predicate AllGo(names: Names, sources: seq<EntryPath>, k: nat, dir: Path, faults: seq<Option<Errno>>)
    requires k <= |sources|
  {
    forall i {:trigger GoesNext(names, sources, i, dir, faults)} :: 0 <= i < k ==> GoesNext(names, sources, i, dir, faults)
  }

  /** The source in place `k` goes, after all before it. */
  ghost predicate GoesNext(names: Names, sources: seq<EntryPath>, k: nat, dir: Path, faults: seq<Option<Errno>>)
    requires k < |sources|
  {
    Goes(MovedAll(names, sources, k, dir), sources[k], dir, After(faults, CallsForAll(sources, k, dir)))
  }

  /** Where a stopped batch left the names: as the items before the failed one left them, but for what
      that one could not take back. */
  ghost predicate StoppedAt(before: Names, after: Names, sources: seq<EntryPath>, k: nat, dir: Path,
                            faults: seq<Option<Errno>>)
  {
    && k < |sources| && AllGo(before, sources, k, dir, faults)
    && Refuses(MovedAll(before, sources, k, dir), after, sources[k], dir, After(faults, CallsForAll(sources, k, dir)))
  }

  /** Why the source in place `k` does not go, after all before it. */
  ghost function StoppedBy(names: Names, sources: seq<EntryPath>, k: nat, dir: Path, faults: seq<Option<Errno>>): Code
    requires k < |sources| && !GoesNext(names, sources, k, dir, faults)
  {
    WhyNot(MovedAll(names, sources, k, dir), sources[k], dir, After(faults, CallsForAll(sources, k, dir)))
  }

  lemma NextIsMovable(names: Names, sources: seq<EntryPath>, k: nat, dir: Path, faults: seq<Option<Errno>>)
    requires k < |sources|
    ensures GoesNext(names, sources, k, dir, faults) ==> MovableNext(names, sources, k, dir)
    ensures Reliable(faults) ==> (GoesNext(names, sources, k, dir, faults) <==> MovableNext(names, sources, k, dir))
  {
    var calls := CallsForAll(sources, k, dir);
    FaultAfter(faults, calls, 0);
    GoesIsMovable(MovedAll(names, sources, k, dir), sources[k], dir, After(faults, calls));
  }

  lemma AllGoIsMovable(names: Names, sources: seq<EntryPath>, k: nat, dir: Path, faults: seq<Option<Errno>>)
    requires k <= |sources|
    ensures AllGo(names, sources, k, dir, faults) ==> AllMovable(names, sources, k, dir)
    ensures Reliable(faults) && AllMovable(names, sources, k, dir) ==> AllGo(names, sources, k, dir, faults)
  {
    forall i | 0 <= i < k
      ensures GoesNext(names, sources, i, dir, faults) ==> MovableNext(names, sources, i, dir)
      ensures Reliable(faults) && MovableNext(names, sources, i, dir) ==> GoesNext(names, sources, i, dir, faults)
    {
      NextIsMovable(names, sources, i, dir, faults);
    }
  }

  lemma OneMoreGoes(names: Names, sources: seq<EntryPath>, k: nat, dir: Path, faults: seq<Option<Errno>>)
    requires k < |sources| && AllGo(names, sources, k, dir, faults) && GoesNext(names, sources, k, dir, faults)
    ensures AllGo(names, sources, k + 1, dir, faults)
  {
  }

  /** A batch that stopped does not go through. */
  lemma StoppedDoesNotGo(names: Names, sources: seq<EntryPath>, j: nat, k: nat, dir: Path, faults: seq<Option<Errno>>)
    requires j < k <= |sources| && !GoesNext(names, sources, j, dir, faults)
    ensures !AllGo(names, sources, k, dir, faults)
  {
  }

  /** What is answered for the first `k` sources. */
  function Items(sources: seq<EntryPath>, k: nat, dir: Path): (r: seq<Item>)
    requires k <= |sources|
    ensures |r| == k
  {
    if k == 0 then [] else Items(sources, k - 1, dir) + [ItemFor(sources[k - 1], dir)]
  }

  /** The sources one by one, up to the first that fails. */
  method MoveEach(disk: Disk, sources: seq<EntryPath>, dir: Path) returns (results: seq<Item>, failed: Option<Code>)
    requires disk.Valid()
    modifies disk
    ensures disk.Valid()
    ensures |results| <= |sources| && results == Items(sources, |results|, dir)
    ensures failed.None? <==> AllGo(old(disk.names), sources, |sources|, dir, old(disk.faults))
    ensures failed.None? ==> |results| == |sources| && disk.names == MovedAll(old(disk.names), sources, |sources|, dir)
    ensures failed.Some? ==> StoppedAt(old(disk.names), disk.names, sources, |results|, dir, old(disk.faults))
                             && failed.value == StoppedBy(old(disk.names), sources, |results|, dir, old(disk.faults))
  {
    ghost var names, faults := disk.names, disk.faults;
    results, failed := [], None;
    NothingMoved(names, faults, sources, dir);
    for i := 0 to |sources|
      invariant disk.Valid() && failed.None? && results == Items(sources, i, dir)
      invariant Begun(names, faults, disk.names, disk.faults, sources, i, dir)
    {
      var one := MoveNext(disk, sources, i, dir, names, faults);
      if one.Err? {
        failed := Some(one.error);
        return;
      }
      results := results + [one.value];
    }
  }

  /** The first `k` sources have gone. */
  ghost predicate Begun(names: Names, faults: seq<Option<Errno>>, now: Names, left: seq<Option<Errno>>,
                        sources: seq<EntryPath>, k: nat, dir: Path)
    requires k <= |sources|
  {
    && AllGo(names, sources, k, dir, faults)
    && now == MovedAll(names, sources, k, dir) && left == After(faults, CallsForAll(sources, k, dir))
  }

  lemma NothingMoved(names: Names, faults: seq<Option<Errno>>, sources: seq<EntryPath>, dir: Path)
    ensures Begun(names, faults, names, faults, sources, 0, dir)
  {
  }

  lemma OneMoved(names: Names, faults: seq<Option<Errno>>, now: Names, left: seq<Option<Errno>>,
                 sources: seq<EntryPath>, k: nat, dir: Path)
    requires k < |sources| && Begun(names, faults, now, left, sources, k, dir)
    ensures Goes(now, sources[k], dir, left) <==> GoesNext(names, sources, k, dir, faults)
    ensures Goes(now, sources[k], dir, left) ==>
              Begun(names, faults, Moved(now, sources[k], dir), After(left, CallsFor(sources[k], dir)), sources, k + 1, dir)
    ensures !Goes(now, sources[k], dir, left) ==>
              !AllGo(names, sources, |sources|, dir, faults)
              && StoppedBy(names, sources, k, dir, faults) == WhyNot(now, sources[k], dir, left)
  {
    AfterAfter(faults, CallsForAll(sources, k, dir), CallsFor(sources[k], dir));
    if Goes(now, sources[k], dir, left) {
      OneMoreGoes(names, sources, k, dir, faults);
    } else {
      StoppedDoesNotGo(names, sources, k, |sources|, dir, faults);
    }
  }

  /** The next item of a batch. */
  method MoveNext(disk: Disk, sources: seq<EntryPath>, k: nat, dir: Path, ghost names: Names, ghost faults: seq<Option<Errno>>)
    returns (r: Result<Item, Code>)
    requires disk.Valid() && k < |sources| && Begun(names, faults, disk.names, disk.faults, sources, k, dir)
    modifies disk
    ensures disk.Valid()
    ensures r.Ok? ==> r.value == ItemFor(sources[k], dir) && Begun(names, faults, disk.names, disk.faults, sources, k + 1, dir)
    ensures r.Err? ==>
              && !AllGo(names, sources, |sources|, dir, faults) && StoppedAt(names, disk.names, sources, k, dir, faults)
              && r.error == StoppedBy(names, sources, k, dir, faults)
  {
    OneMoved(names, faults, disk.names, disk.faults, sources, k, dir);
    r := MoveOne(disk, sources[k], dir);
  }

  /** On a disk that does not fail, a batch goes through exactly when each of its sources can be moved when
      its turn comes, and one that stops leaves no residue. */
  lemma ReliableBatchIff(before: Names, after: Names, sources: seq<EntryPath>, k: nat, dir: Path, faults: seq<Option<Errno>>)
    requires Reliable(faults)
    ensures AllGo(before, sources, |sources|, dir, faults) <==> AllMovable(before, sources, |sources|, dir)
    ensures StoppedAt(before, after, sources, k, dir, faults) ==>
              after == MovedAll(before, sources, k, dir) && !Movable(after, sources[k], dir)
  {
    AllGoIsMovable(before, sources, |sources|, dir, faults);
    if k < |sources| {
      var calls := CallsForAll(sources, k, dir);
      FaultAfter(faults, calls, 0);
      GoesIsMovable(MovedAll(before, sources, k, dir), sources[k], dir, After(faults, calls));
    }
  }

  /** However a batch stops, no entry is lost: what an item could not take back stands under a name that
      was free. */
  lemma StoppedBatchKeeps(before: Names, after: Names, sources: seq<EntryPath>, k: nat, dir: Path,
                          faults: seq<Option<Errno>>)
    requires IsTree(before) && StoppedAt(before, after, sources, k, dir, faults)
    ensures Kept(before, after, sources, k, dir)
  {
    AllGoIsMovable(before, sources, k, dir, faults);
    BatchIsRenaming(before, sources, k, dir);
    ResidueKeeps(before, MovedAll(before, sources, k, dir), after, sources, k, dir, After(faults, CallsForAll(sources, k, dir)));
  }

  lemma ResidueKeeps(before: Names, moved: Names, after: Names, sources: seq<EntryPath>, k: nat, dir: Path,
                     faults: seq<Option<Errno>>)
    requires k < |sources| && Kept(before, moved, sources, k, dir) && Refuses(moved, after, sources[k], dir, faults)
    ensures Kept(before, after, sources, k, dir)
  {
  }

  /** And no entry outside what moved is touched, at the destination or anywhere else. */
  lemma NothingIsClobbered(before: Names, after: Names, sources: seq<EntryPath>, k: nat, dir: Path, p: Path)
    requires k <= |sources| && Kept(before, after, sources, k, dir)
    requires p in before && forall i :: 0 <= i < k ==> !(sources[i] <= p)
    ensures p in after && after[p] == before[p]
  {
    TrailStays(p, sources, k, dir);
  }

  /** The whole request. A path that cannot be said refuses it before anything moves; a batch is
      snapshotted once, if anything moved at all. */
  method MoveFileContent(disk: Disk, sources: seq<Option<EntryPath>>, destination: Option<Path>)
    returns (answer: Answer, snapshot: bool)
    requires disk.Valid()
    modifies disk
    ensures disk.Valid()
    ensures sources == [] || None in sources || destination.None? ==>
              answer == Refused(Failure(INVALID_REQUEST, None)) && !snapshot && disk.names == old(disk.names)
    ensures sources != [] && None !in sources && destination.Some? ==>
              var paths := Said(sources);
              var k := if answer.Refused? then 0 else |answer.results|;
              && k <= |paths| && Kept(old(disk.names), disk.names, paths, k, destination.value)
              && (answer.Refused? ==>
                    StoppedAt(old(disk.names), disk.names, paths, 0, destination.value, old(disk.faults))
                    && answer.failure == Failure(StoppedBy(old(disk.names), paths, 0, destination.value, old(disk.faults)),
                                                 Some(paths[0])))
              && (answer.Answered? ==> k > 0 && answer.results == Items(paths, k, destination.value))
              && (answer.Answered? && answer.stopped.None? <==>
                    AllGo(old(disk.names), paths, |paths|, destination.value, old(disk.faults)))
              && (answer.Answered? && answer.stopped.None? ==>
                    k == |paths| && disk.names == MovedAll(old(disk.names), paths, k, destination.value))
              && (answer.Answered? && answer.stopped.Some? ==>
                    StoppedAt(old(disk.names), disk.names, paths, k, destination.value, old(disk.faults))
                    && answer.stopped == Some(Failure(
                         StoppedBy(old(disk.names), paths, k, destination.value, old(disk.faults)), Some(paths[k]))))
              && (snapshot <==> answer.Answered? && exists r :: r in answer.results && !r.stayed)
  {
    snapshot := false;
    if sources == [] || None in sources || destination.None? {
      answer := Refused(Failure(INVALID_REQUEST, None));
      return;
    }
    var paths, dir := Said(sources), destination.value;
    ghost var names, faults := disk.names, disk.faults;
    var results, failed := MoveEach(disk, paths, dir);
    if failed.Some? {
      StoppedBatchKeeps(names, disk.names, paths, |results|, dir, faults);
    } else {
      AllGoIsMovable(names, paths, |paths|, dir, faults);
      BatchIsRenaming(names, paths, |paths|, dir);
    }
    snapshot := exists r :: r in results && !r.stayed;
    if failed.Some? && results == [] {
      answer := Refused(Failure(failed.value, Some(paths[0])));
      return;
    }
    answer := Answered(results, if failed.Some? then Some(Failure(failed.value, Some(paths[|results|]))) else None);
  }

  function Said(sources: seq<Option<EntryPath>>): seq<EntryPath>
    requires None !in sources
  {
    seq(|sources|, i requires 0 <= i < |sources| => assert sources[i] in sources; sources[i].value)
  }

  /** A file, or an empty folder, whose move strands it: its destination is made, and the next two calls fail. */
  method MoveStrands(node: Node) returns (r: Result<Item, Code>, names: Names)
    requires !node.Symlink?
    ensures r == Err(INTERNAL_ERROR)
    ensures names == map[[] := Directory, ["d"] := Directory, ["a"] := node, ["d", "a"] := node]
  {
    var before: Names := map[[] := Directory, ["d"] := Directory, ["a"] := node];
    var disk := new Disk(before, [None, None, None, None, Some(EIO), Some(EIO)]);
    assert Target(["a"], ["d"]) == ["d", "a"];
    r := MoveOne(disk, ["a"], ["d"]);
    names := disk.names;
  }
}
