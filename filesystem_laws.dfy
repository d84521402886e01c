/** What the filesystem handlers promise, stated over their specifications:
    how `cd` and `pwd` agree, what `mkdir` and `rm` do to the tree, how the
    three writing forms of `cat` leave the target, and what `mv` moves. */
module FileSystemLaws {
  import opened Wrappers
  import opened Text
  import opened Paths
  import opened Disk
  import opened Redirection
  import opened Terminal
  import opened FileSystem

  // ---------------------------------------------------------------- cd and pwd

  /** `cd` changes the working directory exactly when its argument names a
      directory, and then `pwd` shows that directory's absolute form; the
      process follows it there. */
  lemma CdThenPwd(s: Session, a: string)
    requires ValidSession(s)
    ensures var o := CdSpec(s, [a]); var p := Resolve(s.cwd, a);
      o.after.fs == s.fs && o.after.input == s.input && o.raised == None &&
      (IsDir(s.fs, p) ==> o.out == "" && PwdSpec(o.after).out == Say(Render(p)) && o.after.process == Some(p)) &&
      (!IsDir(s.fs, p) ==> o.after == s && o.out == Say("cd: no such directory: " + a))
  {
  }

  /** `cd` to the text `pwd` printed for a directory returns to that directory. */
  lemma CdToPrinted(s: Session, q: Path)
    requires ValidSession(s) && IsCanonical(q) && IsDir(s.fs, q)
    ensures CdSpec(s, [Render(q)]).after.cwd == q
  {
    RenderRoundTrip(s.cwd, q);
  }

  /** `cd ..` climbs one level and stays at the root once there. */
  lemma CdUp(s: Session)
    requires ValidSession(s) && IsDir(s.fs, s.cwd)
    ensures CdSpec(s, [".."]).after.cwd == if s.cwd == [] then [] else Parent(s.cwd)
  {
    ResolveUp(s.cwd);
    if s.cwd != [] {
      assert IsDir(s.fs, Parent(s.cwd));
    }
  }

  // ---------------------------------------------------------------- mkdir and rm

  /** A second `mkdir` of the same name reports the conflict and changes nothing. */
  lemma MkdirTwice(s: Session, d: string)
    requires ValidSession(s)
    requires var p := Resolve(s.cwd, d); !Exists(s.fs, p) && NoFileAlong(s.fs, p)
    ensures var first := MkdirSpec(s, [d]);
      first.out == Say("Directory created: " + Render(Resolve(s.cwd, d))) &&
      MkdirSpec(first.after, [d]) ==
        Unchanged(first.after, Say("mkdir: cannot create directory '" + d + "': File exists"))
  {
  }

  /** A fresh directory made inside an existing one, then removed, leaves the
      tree as it was. */
  lemma {:induction false} MkdirThenRm(s: Session, d: string)
    requires ValidSession(s)
    requires var p := Resolve(s.cwd, d); p != [] && !Exists(s.fs, p) && IsDir(s.fs, Parent(p))
    ensures RmSpec(MkdirSpec(s, [d]).after, [d]).after.fs == s.fs
  {
    var p := Resolve(s.cwd, d);
    assert NoFileAlong(s.fs, p) by { FreshChildAlong(s.fs, p); }
    var made := MakeDirs(s.fs, p);
    forall q | q in made && q !in s.fs ensures q == p {
      assert HasPrefix(p, q);
      if q != p {
        PrefixOfParentBack(p, q);
        AncestorsExist(s.fs, Parent(p), q);
      }
    }
    forall q | q in s.fs ensures !HasPrefix(q, p) {
      if HasPrefix(q, p) {
        NothingBeneathMissing(s.fs, p, q);
      }
    }
    var back := RemoveTree(made, p);
    assert forall q :: q in back <==> q in s.fs;
  }

  /** With its parent a directory, a path that does not exist has no file on its way. */
  lemma FreshChildAlong(fs: Tree, p: Path)
    requires WellFormed(fs) && p != [] && !Exists(fs, p) && IsDir(fs, Parent(p))
    ensures NoFileAlong(fs, p)
  {
    DirHasNoFault(fs, Parent(p));
    NoFileAlongOfDir(fs, Parent(p));
  }

  lemma {:induction false} NoFileAlongOfDir(fs: Tree, d: Path)
    requires WellFormed(fs) && IsDir(fs, d)
    ensures NoFileAlong(fs, d)
  {
    if d != [] {
      NoFileAlongOfDir(fs, Parent(d));
    }
  }

  /** `rm` of a file removes that one entry and nothing else. */
  lemma RmFile(s: Session, a: string)
    requires ValidSession(s) && IsFile(s.fs, Resolve(s.cwd, a))
    ensures var p := Resolve(s.cwd, a); var o := RmSpec(s, [a]);
      o.after.fs == (map q | q in s.fs && q != p :: s.fs[q]) &&
      o.out == Say("Removed file: " + Render(p)) && o.raised == None && o.after.process == s.process
  {
    RemoveFile(s.fs, Resolve(s.cwd, a));
  }

  /** `rm` of a directory other than the root removes it and everything under
      it; if the process's directory lay there, the process has lost its
      working directory. */
  lemma RmDir(s: Session, a: string)
    requires ValidSession(s)
    requires var p := Resolve(s.cwd, a); p != [] && IsDir(s.fs, p)
    ensures var p := Resolve(s.cwd, a); var o := RmSpec(s, [a]);
      (forall q :: q in o.after.fs <==> q in s.fs && !HasPrefix(q, p)) &&
      (forall q :: q in o.after.fs ==> o.after.fs[q] == s.fs[q]) &&
      !Exists(o.after.fs, p) &&
      o.out == Say("Removed directory: " + Render(p)) && o.raised == None &&
      (s.process.Some? && HasPrefix(s.process.value, p) ==> o.after.process == None) &&
      (s.process.None? || !HasPrefix(s.process.value, p) ==> o.after.process == s.process)
  {
  }

  /** `rm` of a missing path reports it and changes nothing. */
  lemma RmMissing(s: Session, a: string)
    requires ValidSession(s) && !Exists(s.fs, Resolve(s.cwd, a))
    ensures RmSpec(s, [a]) ==
      Unchanged(s, Say("rm: cannot remove '" + a + "': No such file or directory"))
  {
  }

  // ---------------------------------------------------------------- cat

  predicate IsName(f: string) {
    f != ">" && f != ">>"
  }

  /** Without an operator, the content argument plays no part. */
  lemma ContentNeedsOperator(s: Session, args: seq<string>, c: string)
    requires ValidSession(s) && args != [] && !HasOperator(args)
    ensures CatSpec(s, args, Some(c)) == CatSpec(s, args, None)
  {
  }

  lemma SplitSimple(f: string, m: Mode)
    requires IsName(f)
    ensures SplitRedirection([OpToken(m), f]) == Some(Redirect([], f, m))
  {
    var args := [OpToken(m), f];
    assert HasOperator(args);
    assert ChosenMode(args) == m;
  }

  /** `cat f` shows `f` alone. */
  lemma DisplayOne(s: Session, f: string)
    requires ValidSession(s) && IsName(f)
    ensures CatSpec(s, [f], None) == Unchanged(s, Shown(ReadSource(s.fs, s.cwd, f)))
  {
    assert !HasOperator([f]);
    assert PlanCat([f], None) == Display([f]);
    assert [f][..0] == [];
    var shown := Shown(ReadSource(s.fs, s.cwd, f));
    assert DisplayText(s.fs, s.cwd, [f]) == "" + shown;
    assert "" + shown == shown;
  }

  /** `cat > f` with content, then `cat f`, shows the content and a newline as
      text mode reads them back: exactly what was written when it holds no "\r". */
  lemma WriteThenDisplay(s: Session, f: string, x: string)
    requires ValidSession(s) && IsName(f) && OpenForWrite(s.fs, Resolve(s.cwd, f)) == None
    ensures var o := CatSpec(s, [">", f], Some(x));
      o.out == Say("cat: content written to " + f) &&
      CatSpec(o.after, [f], None).out == Universal(x + "\n") &&
      ('\r' !in x ==> CatSpec(o.after, [f], None).out == x + "\n")
  {
    SplitSimple(f, Overwrite);
    var p := Resolve(s.cwd, f);
    assert PlanCat([">", f], Some(x)) == WriteContent(f, Overwrite, x + "\n");
    var o := CatSpec(s, [">", f], Some(x));
    assert o == Deliver(s, f, x + "\n", false, "cat: content written to " + f);
    assert o.after == s.(fs := WriteFile(s.fs, p, x + "\n", false));
    DisplayOne(o.after, f);
    assert ReadSource(o.after.fs, s.cwd, f) == Got(Universal(x + "\n"));
    if '\r' !in x {
      UniversalPlain(x + "\n");
    }
  }

  /** An existing file can be opened for writing. */
  lemma OpenExistingFile(fs: Tree, p: Path)
    requires WellFormed(fs) && IsFile(fs, p)
    ensures OpenForWrite(fs, p) == None
  {
    DirHasNoFault(fs, Parent(p));
  }

  /** `cat >> f` with content adds the content and a newline to what `f` held. */
  lemma AppendContent(s: Session, f: string, x: string)
    requires ValidSession(s) && IsName(f) && IsFile(s.fs, Resolve(s.cwd, f))
    ensures var p := Resolve(s.cwd, f); var o := CatSpec(s, [">>", f], Some(x));
      o.after.fs[p] == File(s.fs[p].text + x + "\n") &&
      o.out == Say("cat: content appended to " + f)
  {
    SplitSimple(f, Append);
    var p := Resolve(s.cwd, f);
    OpenExistingFile(s.fs, p);
    assert s.fs[p].text + (x + "\n") == s.fs[p].text + x + "\n";
  }

  /** `cat a >> f` leaves `f` holding its old text followed by `a`'s as text
      mode reads it. */
  lemma ConcatenateAppend(s: Session, a: string, f: string)
    requires ValidSession(s) && IsName(a) && IsName(f)
    requires IsFile(s.fs, Resolve(s.cwd, a)) && IsFile(s.fs, Resolve(s.cwd, f))
    ensures var pa := Resolve(s.cwd, a); var pf := Resolve(s.cwd, f);
      var o := CatSpec(s, [a, ">>", f], None);
      o.after.fs[pf] == File(s.fs[pf].text + Universal(s.fs[pa].text)) &&
      o.out == Say("cat: written to " + f)
  {
    var args := [a, ">>", f];
    assert HasOperator(args) && ChosenMode(args) == Append;
    assert IndexOf(args, ">>") == 1;
    assert args[..1] == [a];
    assert SplitRedirection(args) == Some(Redirect([a], f, Append));
    OpenExistingFile(s.fs, Resolve(s.cwd, f));
    assert [a][..0] == [];
    assert SourceTexts(s.fs, s.cwd, [a]) == [Universal(s.fs[Resolve(s.cwd, a)].text)];
    assert SourceErrors(s.fs, s.cwd, [a]) == "";
  }

  /** The worked example: a target holding "A\n" and a source holding "B" give "A\nB". */
  lemma ConcatenateAppendExample(s: Session, a: string, f: string)
    requires ValidSession(s) && IsName(a) && IsName(f)
    requires Resolve(s.cwd, a) in s.fs && s.fs[Resolve(s.cwd, a)] == File("B")
    requires Resolve(s.cwd, f) in s.fs && s.fs[Resolve(s.cwd, f)] == File("A\n")
    ensures CatSpec(s, [a, ">>", f], None).after.fs[Resolve(s.cwd, f)] == File("A\nB")
  {
    ConcatenateAppend(s, a, f);
    var pa, pf := Resolve(s.cwd, a), Resolve(s.cwd, f);
    UniversalPlain("B");
    assert s.fs[pf].text + Universal(s.fs[pa].text) == "A\n" + "B" == "A\nB";
  }

  /** `cat > f` alone reads the typed lines up to end of input and saves them cleaned. */
  lemma InteractiveSaves(s: Session, f: string)
    requires ValidSession(s) && IsName(f) && OpenForWrite(s.fs, Resolve(s.cwd, f)) == None
    ensures var o := CatSpec(s, [">", f], None);
      o.after.fs[Resolve(s.cwd, f)] == File(Join("\n", CleanLines(LinesTyped(s.input))) + "\n") &&
      o.after.input == AfterTyping(s.input) &&
      o.out == PromptFor(f) + Say("\ncat: created " + f)
  {
    SplitSimple(f, Overwrite);
  }

  // ---------------------------------------------------------------- mv

  /** Renaming to a name not yet taken, inside an existing directory, moves the
      entry: the source is gone and the destination holds what it held. If the
      process's directory lay in the moved subtree, the process moves with it. */
  lemma MvRenames(s: Session, a: string, b: string)
    requires ValidSession(s)
    requires var src := Resolve(s.cwd, a); var dst := Resolve(s.cwd, b);
      src in s.fs && !Exists(s.fs, dst) && IsDir(s.fs, Parent(dst)) && !HasPrefix(dst, src)
    ensures var src := Resolve(s.cwd, a); var dst := Resolve(s.cwd, b); var o := MvSpec(s, [a, b]);
      o.after.fs == MoveTree(s.fs, src, dst) &&
      src !in o.after.fs && dst in o.after.fs && o.after.fs[dst] == s.fs[src] &&
      o.out == Say("Moved/Renamed: " + Render(src) + Arrow + Render(dst)) &&
      (s.process.Some? && HasPrefix(s.process.value, src) ==>
        o.after.process == Some(dst + s.process.value[|src|..])) &&
      (s.process.None? || !HasPrefix(s.process.value, src) ==> o.after.process == s.process)
  {
    RenameMovesNode(s.fs, Resolve(s.cwd, a), Resolve(s.cwd, b));
  }

  /** A missing source is reported and nothing changes. */
  lemma MvMissingSource(s: Session, a: string, b: string)
    requires ValidSession(s) && !Exists(s.fs, Resolve(s.cwd, a))
    ensures MvSpec(s, [a, b]) == Unchanged(s, Say("mv: source does not exist: " + a))
  {
  }

  /** Moving into a directory that already holds an entry of the source's name
      is refused, and nothing changes. */
  lemma MvIntoOccupied(s: Session, a: string, b: string)
    requires ValidSession(s)
    requires var src := Resolve(s.cwd, a); var dst := Resolve(s.cwd, b);
      src != [] && Exists(s.fs, src) && IsDir(s.fs, dst) && dst != src && Exists(s.fs, dst + [BaseName(src)])
    ensures var src := Resolve(s.cwd, a); var dst := Resolve(s.cwd, b);
      MvSpec(s, [a, b]) == Unchanged(s, Say("mv: error moving '" + a + "' to '" + b + "': " +
        ("Destination path '" + Render(dst + [BaseName(src)]) + "' already exists")))
  {
    var src := Resolve(s.cwd, a);
    var dst := Resolve(s.cwd, b);
    assert MoveTarget(s.fs, src, dst) == dst + [BaseName(src)];
    assert ShutilMove(s.fs, src, dst) ==
      MoveFailed("Destination path '" + Render(dst + [BaseName(src)]) + "' already exists");
  }

  /** The root cannot be moved: wherever it is sent, `mv` reports the error
      `shutil.move` raises and nothing changes. */
  lemma MvRootRefused(s: Session, a: string, b: string)
    requires ValidSession(s) && Resolve(s.cwd, a) == []
    ensures var dst := Resolve(s.cwd, b); var o := MvSpec(s, [a, b]);
      var failed := "mv: error moving '" + a + "' to '" + b + "': ";
      o.after == s && o.raised == None &&
      (dst == [] ==> o.out == Say(failed + "[Errno 16] Device or resource busy: '/' -> '/'")) &&
      (dst != [] && IsDir(s.fs, dst) ==>
        o.out == Say(failed + "Destination path '" + Render(dst) + "/' already exists")) &&
      (!IsDir(s.fs, dst) ==>
        o.out == Say(failed + "Cannot move a directory '/' into itself '" + Render(dst) + "'."))
  {
    var dst := Resolve(s.cwd, b);
    assert Exists(s.fs, []);
    var m := ShutilMove(s.fs, [], dst);
    if dst == [] {
      assert m == MoveFailed(RootRenameText);
    } else if IsDir(s.fs, dst) {
      assert m == MoveFailed("Destination path '" + Render(dst) + "/' already exists");
    } else {
      assert m == MoveFailed("Cannot move a directory '/' into itself '" + Render(dst) + "'.");
    }
  }

  // ---------------------------------------------------------------- what ls lists

  /** A directory made in the working directory is among what `ls` lists there. */
  lemma MkdirThenListed(s: Session, x: string)
    requires ValidSession(s) && IsSegment(x) && IsDir(s.fs, s.cwd) && !Exists(s.fs, s.cwd + [x])
    ensures x in Children(MkdirSpec(s, [x]).after.fs, s.cwd)
  {
    ResolveChild(s.cwd, x);
    var q := s.cwd + [x];
    assert Parent(q) == s.cwd;
    FreshChildAlong(s.fs, q);
    assert q[..|s.cwd|] == s.cwd && q[|s.cwd|] == x;
  }

  /** After `rm x` in the working directory, `ls` there no longer lists `x`. */
  lemma RmThenUnlisted(s: Session, x: string)
    requires ValidSession(s) && IsSegment(x)
    ensures x !in Children(RmSpec(s, [x]).after.fs, s.cwd)
  {
    ResolveChild(s.cwd, x);
    var q := s.cwd + [x];
    var t := RmSpec(s, [x]).after.fs;
    assert q !in t by {
      if q in s.fs {
        assert HasPrefix(q, q);
        assert t == RemoveTree(s.fs, q);
      }
    }
    forall r | r in t && |r| == |s.cwd| + 1 && r[..|s.cwd|] == s.cwd
      ensures r[|s.cwd|] != x
    {
      assert r == r[..|s.cwd|] + [r[|s.cwd|]];
    }
  }
}
