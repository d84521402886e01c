/** The operating system's file tree as the handlers reach it through `os`,
    `open` and `shutil`: a map from absolute canonical paths to nodes. The root
    is always a directory and is never stored in the map. */
module Disk {
  import opened Text
  import opened Paths
  import opened Wrappers

  datatype Node = File(text: string) | Dir

  type Tree = map<Path, Node>

  predicate IsDir(fs: Tree, p: Path) {
    p == [] || (p in fs && fs[p].Dir?)
  }

  predicate IsFile(fs: Tree, p: Path) {
    p in fs && fs[p].File?
  }

  /** `os.path.exists`. */
  predicate Exists(fs: Tree, p: Path) {
    p == [] || p in fs
  }

  /** Every stored path is canonical and sits in a directory. */
  predicate WellFormed(fs: Tree) {
    forall p :: p in fs ==> p != [] && IsCanonical(p) && IsDir(fs, Parent(p))
  }

  /** The text `{e}` shows for the OS errors the handlers meet. */
  function NotFoundText(p: Path): string {
    "[Errno 2] No such file or directory: '" + Render(p) + "'"
  }

  function NotADirText(p: Path): string {
    "[Errno 20] Not a directory: '" + Render(p) + "'"
  }

  function IsADirText(p: Path): string {
    "[Errno 21] Is a directory: '" + Render(p) + "'"
  }

  function FileExistsText(p: Path): string {
    "[Errno 17] File exists: '" + Render(p) + "'"
  }

  const RootBusyText := "[Errno 16] Device or resource busy: '/'"
  const RootRenameText := "[Errno 16] Device or resource busy: '/' -> '/'"

  /** Why looking up directory `d` fails, walking from the root. */
  datatype Fault = Missing | NotDir

  function LookupFault(fs: Tree, d: Path): (r: Option<Fault>)
    ensures r == None <==> IsDir(fs, d) && (d != [] ==> LookupFault(fs, Parent(d)) == None)
    decreases |d|
  {
    if d == [] then None
    else match LookupFault(fs, Parent(d))
      case Some(f) => Some(f)
      case None => if IsDir(fs, d) then None else if d in fs then Some(NotDir) else Some(Missing)
  }

  function FaultText(f: Fault, p: Path): string {
    if f == Missing then NotFoundText(p) else NotADirText(p)
  }

  /** Why `open(p, "w")` or `open(p, "a")` fails, if it does. */
  function OpenForWrite(fs: Tree, p: Path): (r: Option<string>)
    ensures r == None ==> !IsDir(fs, p) && IsDir(fs, Parent(p))
  {
    if IsDir(fs, p) then Some(IsADirText(p))
    else match LookupFault(fs, Parent(p))
      case Some(f) => Some(FaultText(f, p))
      case None => None
  }

  /** `open(p, mode).write(data)` after `OpenForWrite` found nothing wrong. */
  function WriteFile(fs: Tree, p: Path, data: string, append: bool): (r: Tree)
    requires p != []
    ensures p in r && r[p] == File(if append && IsFile(fs, p) then fs[p].text + data else data)
    ensures forall q :: q != p ==> (q in r <==> q in fs) && (q in fs ==> r[q] == fs[q])
  {
    fs[p := File(if append && IsFile(fs, p) then fs[p].text + data else data)]
  }

  lemma WriteFileWellFormed(fs: Tree, p: Path, data: string, append: bool)
    requires WellFormed(fs) && p != [] && IsCanonical(p)
    requires OpenForWrite(fs, p) == None
    ensures WellFormed(WriteFile(fs, p, data, append))
  {
  }

  /** Every directory on the way to a stored path exists. */
  lemma {:induction false} AncestorsExist(fs: Tree, q: Path, p: Path)
    requires WellFormed(fs) && q in fs && HasPrefix(q, p)
    ensures IsDir(fs, p) || p == q
    decreases |q|
  {
    if p != q {
      var u := Parent(q);
      assert |p| < |q|;
      assert HasPrefix(u, p) by { assert u[..|p|] == q[..|p|]; }
      if u != [] {
        AncestorsExist(fs, u, p);
      } else {
        assert p == [];
      }
    }
  }

  /** A missing path has nothing stored beneath it. */
  lemma NothingBeneathMissing(fs: Tree, p: Path, q: Path)
    requires WellFormed(fs) && !Exists(fs, p) && HasPrefix(q, p)
    ensures q !in fs
  {
    if q in fs {
      AncestorsExist(fs, q, p);
    }
  }

  /** A file has nothing stored beneath it. */
  lemma NothingBeneathFile(fs: Tree, p: Path, q: Path)
    requires WellFormed(fs) && IsFile(fs, p) && HasPrefix(q, p) && q != p
    ensures q !in fs
  {
    if q in fs {
      AncestorsExist(fs, q, p);
    }
  }

  /** No file lies on the way to `p`, `p` itself included. */
  predicate NoFileAlong(fs: Tree, p: Path)
    decreases |p|
  {
    p == [] || (!IsFile(fs, p) && NoFileAlong(fs, Parent(p)))
  }

  /** The shortest missing path on the way to `p`: the directory `makedirs` tries to make first. */
  function FirstMissing(fs: Tree, p: Path): (r: Path)
    requires !Exists(fs, p)
    ensures r != [] && HasPrefix(p, r) && r !in fs && Exists(fs, Parent(r))
    decreases |p|
  {
    if Exists(fs, Parent(p)) then p
    else
      var r := FirstMissing(fs, Parent(p));
      assert p[..|r|] == Parent(p)[..|r|];
      r
  }

  /** `os.makedirs(p)` once it is known to succeed: every missing directory on the
      way to `p`, and `p`, are created. */
  function MakeDirs(fs: Tree, p: Path): (r: Tree)
    requires WellFormed(fs) && IsCanonical(p) && NoFileAlong(fs, p)
    ensures WellFormed(r) && IsDir(r, p)
    ensures forall q :: q in fs ==> q in r && r[q] == fs[q]
    ensures forall q :: q in r && q !in fs ==> HasPrefix(p, q) && r[q] == Dir
    decreases |p|
  {
    if p == [] then fs
    else
      var f := MakeDirs(fs, Parent(p));
      var r := if p in f then f else f[p := Dir];
      MakeDirsStep(fs, f, p, r);
      r
  }

  /** One step of `makedirs`: with the parent made, `p` is made unless it is already there. */
  lemma MakeDirsStep(fs: Tree, f: Tree, p: Path, r: Tree)
    requires WellFormed(fs) && p != [] && IsCanonical(p) && !IsFile(fs, p)
    requires WellFormed(f) && IsDir(f, Parent(p))
    requires forall q :: q in fs ==> q in f && f[q] == fs[q]
    requires forall q :: q in f && q !in fs ==> HasPrefix(Parent(p), q) && f[q] == Dir
    requires r == if p in f then f else f[p := Dir]
    ensures WellFormed(r) && IsDir(r, p)
    ensures forall q :: q in fs ==> q in r && r[q] == fs[q]
    ensures forall q :: q in r && q !in fs ==> HasPrefix(p, q) && r[q] == Dir
  {
    if p in f {
      assert !HasPrefix(Parent(p), p);
      assert p in fs;
    } else {
      forall q | q in r && q !in fs ensures HasPrefix(p, q) {
        if q != p { assert Parent(p)[..|q|] == p[..|q|]; }
      }
    }
  }

  /** `shutil.rmtree(p)` (or `os.remove(p)` for a file): `p` and everything beneath it go. */
  function RemoveTree(fs: Tree, p: Path): (r: Tree)
    ensures forall q :: q in r <==> q in fs && !HasPrefix(q, p)
    ensures forall q :: q in r ==> r[q] == fs[q]
  {
    map q | q in fs && !HasPrefix(q, p) :: fs[q]
  }

  lemma RemoveTreeWellFormed(fs: Tree, p: Path)
    requires WellFormed(fs)
    ensures WellFormed(RemoveTree(fs, p))
  {
    var r := RemoveTree(fs, p);
    forall q | q in r ensures IsDir(r, Parent(q)) {
      PrefixOfParent(q, p);
    }
  }

  /** On a file, removal takes exactly that file away. */
  lemma RemoveFile(fs: Tree, p: Path)
    requires WellFormed(fs) && IsFile(fs, p)
    ensures RemoveTree(fs, p) == map q | q in fs && q != p :: fs[q]
  {
    forall q | q in fs && q != p && HasPrefix(q, p) ensures false {
      NothingBeneathFile(fs, p, q);
    }
  }

  lemma PrefixOfParent(q: Path, p: Path)
    requires q != []
    ensures HasPrefix(Parent(q), p) ==> HasPrefix(q, p)
  {
    if HasPrefix(Parent(q), p) {
      assert q[..|p|] == Parent(q)[..|p|];
    }
  }

  lemma PrefixOfConcat(p: Path, r: Path)
    ensures HasPrefix(p + r, p) && (p + r)[|p|..] == r
  {
    assert (p + r)[..|p|] == p;
  }

  /** The paths below `src`, relative to it. */
  function Below(fs: Tree, src: Path): set<Path> {
    set q | q in fs && HasPrefix(q, src) :: q[|src|..]
  }

  /** The tree with the subtree at `src` renamed to `dst`. */
  function MoveTree(fs: Tree, src: Path, dst: Path): Tree {
    var kept := map q | q in fs && !HasPrefix(q, src) :: fs[q];
    var moved := map q | q in (set r | r in Below(fs, src) :: dst + r) ::
      if |dst| <= |q| && src + q[|dst|..] in fs then fs[src + q[|dst|..]] else Dir;
    kept + moved
  }

  lemma BelowAt(fs: Tree, src: Path, r: Path)
    ensures r in Below(fs, src) <==> src + r in fs
  {
    if src + r in fs {
      assert (src + r)[..|src|] == src && (src + r)[|src|..] == r;
    }
    if r in Below(fs, src) {
      var q :| q in fs && HasPrefix(q, src) && r == q[|src|..];
      assert q == src + r;
    }
  }

  /** Renaming moves every node below `src` to the same place below `dst`,
      keeps everything else, and adds nothing. */
  lemma MoveTreeAt(fs: Tree, src: Path, dst: Path, q: Path)
    requires WellFormed(fs) && src in fs && !Exists(fs, dst) && !HasPrefix(dst, src)
    ensures HasPrefix(q, dst) ==>
      (q in MoveTree(fs, src, dst) <==> src + q[|dst|..] in fs) &&
      (q in MoveTree(fs, src, dst) ==> MoveTree(fs, src, dst)[q] == fs[src + q[|dst|..]])
    ensures !HasPrefix(q, dst) ==>
      (q in MoveTree(fs, src, dst) <==> q in fs && !HasPrefix(q, src)) &&
      (q in MoveTree(fs, src, dst) ==> MoveTree(fs, src, dst)[q] == fs[q])
  {
    var m := MoveTree(fs, src, dst);
    var movedKeys := set r | r in Below(fs, src) :: dst + r;
    if HasPrefix(q, dst) {
      NothingBeneathMissing(fs, dst, q);
      var r := q[|dst|..];
      assert q == dst + r;
      BelowAt(fs, src, r);
      if q in movedKeys {
        var r' :| r' in Below(fs, src) && q == dst + r';
        assert r' == r;
      }
    } else {
      assert q !in movedKeys by {
        forall r' | r' in Below(fs, src) ensures q != dst + r' {
          PrefixOfConcat(dst, r');
        }
      }
    }
  }

  /** Where a moved node lands, its directory is there too. */
  lemma MovedParent(fs: Tree, src: Path, dst: Path, q: Path)
    requires WellFormed(fs) && src in fs && !Exists(fs, dst) && !HasPrefix(dst, src)
    requires IsCanonical(dst) && IsDir(fs, Parent(dst))
    requires q in MoveTree(fs, src, dst) && HasPrefix(q, dst)
    ensures q != [] && IsCanonical(q) && IsDir(MoveTree(fs, src, dst), Parent(q))
  {
    if q == dst {
      MovedRootParent(fs, src, dst);
    } else {
      MovedInnerParent(fs, src, dst, q);
    }
  }

  /** The moved node itself lands in `dst`'s directory, which the move keeps. */
  lemma MovedRootParent(fs: Tree, src: Path, dst: Path)
    requires WellFormed(fs) && src in fs && !Exists(fs, dst) && !HasPrefix(dst, src)
    requires IsCanonical(dst) && IsDir(fs, Parent(dst))
    ensures IsDir(MoveTree(fs, src, dst), Parent(dst))
  {
    var u := Parent(dst);
    MoveTreeAt(fs, src, dst, u);
    assert !HasPrefix(u, dst);
    PrefixOfParent(dst, src);
  }

  /** A node strictly below the moved one lands below a moved directory. */
  lemma MovedInnerParent(fs: Tree, src: Path, dst: Path, q: Path)
    requires WellFormed(fs) && src in fs && !Exists(fs, dst) && !HasPrefix(dst, src)
    requires IsCanonical(dst)
    requires q in MoveTree(fs, src, dst) && HasPrefix(q, dst) && q != dst
    ensures q != [] && IsCanonical(q) && IsDir(MoveTree(fs, src, dst), Parent(q))
  {
    var tail := q[|dst|..];
    assert q == dst + tail;
    MoveTreeAt(fs, src, dst, q);
    var s := src + tail;
    assert s in fs;
    ConcatCanonical(dst, src, tail);
    ParentOfConcat(dst, tail);
    ParentOfConcat(src, tail);
    PrefixOfConcat(dst, Parent(tail));
    MoveTreeAt(fs, src, dst, dst + Parent(tail));
    AncestorsExist(fs, s, Parent(s));
  }

  lemma ParentOfConcat(a: Path, b: Path)
    requires b != []
    ensures Parent(a + b) == a + Parent(b)
  {
    assert (a + b)[..|a| + |b| - 1] == a + b[..|b| - 1];
  }

  /** Trading the lead of a canonical path for another canonical lead keeps it canonical. */
  lemma ConcatCanonical(d: Path, s: Path, t: Path)
    requires IsCanonical(d) && IsCanonical(s + t)
    ensures IsCanonical(d + t)
  {
    forall k | 0 <= k < |d + t| ensures IsSegment((d + t)[k]) {
      if k >= |d| { assert (d + t)[k] == (s + t)[|s| + k - |d|]; }
    }
  }

  /** Where a kept node stays, its directory stays too. */
  lemma KeptParent(fs: Tree, src: Path, dst: Path, q: Path)
    requires WellFormed(fs) && src in fs && !Exists(fs, dst) && !HasPrefix(dst, src)
    requires q in MoveTree(fs, src, dst) && !HasPrefix(q, dst)
    ensures q != [] && IsCanonical(q) && IsDir(MoveTree(fs, src, dst), Parent(q))
  {
    MoveTreeAt(fs, src, dst, q);
    var u := Parent(q);
    MoveTreeAt(fs, src, dst, u);
    PrefixOfParent(q, dst);
    PrefixOfParent(q, src);
  }

  lemma MoveTreeWellFormed(fs: Tree, src: Path, dst: Path)
    requires WellFormed(fs) && src in fs && !Exists(fs, dst) && !HasPrefix(dst, src)
    requires IsCanonical(dst) && IsDir(fs, Parent(dst))
    ensures WellFormed(MoveTree(fs, src, dst))
  {
    forall q | q in MoveTree(fs, src, dst)
      ensures q != [] && IsCanonical(q) && IsDir(MoveTree(fs, src, dst), Parent(q))
    {
      if HasPrefix(q, dst) {
        MovedParent(fs, src, dst, q);
      } else {
        KeptParent(fs, src, dst, q);
      }
    }
  }

  /** A move that happened leaves the tree `tree` with `src` now at `landed`;
      `copied` says it went by copy and delete, so that the directories under
      `src` are new ones and the old ones are gone. */
  datatype MoveResult = Moved(tree: Tree, landed: Path, copied: bool) | MoveFailed(reason: string)

  /** Where `shutil.move(src, dst)` puts `src`: inside `dst` when that is a directory. */
  function MoveTarget(fs: Tree, src: Path, dst: Path): Path {
    if IsDir(fs, dst) then dst + [BaseName(src)] else dst
  }

  /** `shutil.move(src, dst)` on an existing `src`: `os.rename`, and when that
      fails the copy-then-delete fallback, with the errors each of them raises. */
  function ShutilMove(fs: Tree, src: Path, dst: Path): (r: MoveResult)
    requires WellFormed(fs) && IsCanonical(src) && IsCanonical(dst) && Exists(fs, src)
    ensures r.Moved? ==> WellFormed(r.tree)
  {
    var place := MoveTarget(fs, src, dst);
    if src == [] then
      // `_basename("/")` is "", so a directory target becomes `dst + "/"`
      if dst == [] then MoveFailed(RootRenameText)
      else if IsDir(fs, dst) then MoveFailed("Destination path '" + Render(dst) + "/' already exists")
      else MoveFailed("Cannot move a directory '/' into itself '" + Render(dst) + "'.")
    else if IsDir(fs, dst) && dst == src then Moved(fs, src, false)
    else if IsDir(fs, dst) && Exists(fs, place) then
      MoveFailed("Destination path '" + Render(place) + "' already exists")
    else if place == src then Moved(fs, src, false)
    else if IsDir(fs, src) && HasPrefix(place, src) then
      MoveFailed("Cannot move a directory '" + Render(src) + "' into itself '" + Render(dst) + "'.")
    else
      assert place != [] && IsCanonical(place);
      assert place in fs ==> IsFile(fs, place);
      MoveOnto(fs, src, place)
  }

  /** The rest of `shutil.move` once `place` is known to differ from `src` and
      not to lie inside a directory `src`: replace a file, rename into an existing
      directory, or (for a directory) create the missing directories first. */
  function MoveOnto(fs: Tree, src: Path, place: Path): (r: MoveResult)
    requires WellFormed(fs) && src in fs && place != [] && IsCanonical(place) && place != src
    requires IsDir(fs, src) ==> !HasPrefix(place, src)
    requires place in fs ==> IsFile(fs, place)
    ensures r.Moved? ==> WellFormed(r.tree)
  {
    if place in fs then
      if IsFile(fs, src) then Moved(ReplaceFile(fs, src, place), place, false)
      else MoveFailed(FileExistsText(place))
    else
      match LookupFault(fs, Parent(place))
      case None =>
        NotBeneathFile(fs, src, place);
        Moved(Relocate(fs, src, place), place, false)
      case Some(f) =>
        if IsDir(fs, src) then
          if NoFileAlong(fs, Parent(place)) then
            var made := MakeDirs(fs, Parent(place));
            assert !HasPrefix(Parent(place), place);
            Moved(Relocate(made, src, place), place, true)
          else MoveFailed(NotADirText(FirstMissing(fs, place)))
        else MoveFailed(FaultText(f, place))
  }

  /** Renaming `src` to a free `place` whose directory is there. */
  function Relocate(fs: Tree, src: Path, place: Path): (r: Tree)
    requires WellFormed(fs) && src in fs && !Exists(fs, place) && !HasPrefix(place, src)
    requires IsCanonical(place) && IsDir(fs, Parent(place))
    ensures WellFormed(r) && r == MoveTree(fs, src, place)
  {
    MoveTreeWellFormed(fs, src, place);
    MoveTree(fs, src, place)
  }

  /** Renaming file `src` over another file `place`, which it replaces. */
  function ReplaceFile(fs: Tree, src: Path, place: Path): (r: Tree)
    requires WellFormed(fs) && IsFile(fs, src) && IsFile(fs, place) && place != src && IsCanonical(place)
    ensures WellFormed(r) && r == MoveTree(RemoveTree(fs, place), src, place)
  {
    NotBeneathFile(fs, src, place);
    RemoveTreeWellFormed(fs, place);
    RemoveFile(fs, place);
    Relocate(RemoveTree(fs, place), src, place)
  }

  /** Nothing is stored beneath a file, so a target found beneath a file
      source must be the source itself. */
  lemma NotBeneathFile(fs: Tree, src: Path, place: Path)
    requires WellFormed(fs) && place != src
    requires IsFile(fs, src) || !HasPrefix(place, src)
    requires place in fs || (place != [] && IsDir(fs, Parent(place)))
    ensures !HasPrefix(place, src)
  {
    if HasPrefix(place, src) && IsFile(fs, src) {
      if place in fs {
        NothingBeneathFile(fs, src, place);
      } else {
        PrefixOfParentBack(place, src);
        if Parent(place) != src {
          NothingBeneathFile(fs, src, Parent(place));
        }
      }
    }
  }

  /** Looking up an existing directory meets no fault on the way. */
  lemma {:induction false} DirHasNoFault(fs: Tree, d: Path)
    requires WellFormed(fs) && IsDir(fs, d)
    ensures LookupFault(fs, d) == None
    decreases |d|
  {
    if d != [] {
      DirHasNoFault(fs, Parent(d));
    }
  }

  lemma PrefixOfParentBack(q: Path, p: Path)
    requires q != [] && HasPrefix(q, p) && q != p
    ensures HasPrefix(Parent(q), p)
  {
    assert Parent(q)[..|p|] == q[..|p|];
  }

  /** Renaming a path to one that does not exist yet leaves the source gone and
      the target holding exactly what the source held. */
  lemma RenameMovesNode(fs: Tree, src: Path, dst: Path)
    requires WellFormed(fs) && IsCanonical(src) && IsCanonical(dst)
    requires src in fs && !Exists(fs, dst) && IsDir(fs, Parent(dst)) && !HasPrefix(dst, src)
    ensures ShutilMove(fs, src, dst) == Moved(MoveTree(fs, src, dst), dst, false)
    ensures var t := MoveTree(fs, src, dst); src !in t && dst in t && t[dst] == fs[src]
  {
    DirHasNoFault(fs, Parent(dst));
    assert MoveTarget(fs, src, dst) == dst;
    PrefixOfConcat(dst, []);
    assert dst + [] == dst && src + [] == src;
    MoveTreeAt(fs, src, dst, dst);
    if HasPrefix(src, dst) {
      NothingBeneathMissing(fs, dst, src);
    }
    MoveTreeAt(fs, src, dst, src);
  }
}
