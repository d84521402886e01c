/** The filesystem handlers (`FileSystemCommands`): `ls`, `pwd`, `cd`, `mkdir`,
    `cat` with its redirection engine, `mv` and `rm`, over the tree of `Disk`.
    Each handler is specified by a function from the session before the call to
    its outcome; the class's methods carry out the same steps on their fields
    and the console, and are proved to reach that outcome. */
module FileSystem {
  import opened Wrappers
  import opened Text
  import opened Paths
  import opened Disk
  import opened Redirection
  import opened Terminal

  /** What a handler works on: `current_dir`, the file tree, what standard
      input has yet to deliver, and the directory `os.getcwd()` finds the
      process in (`None` once that directory has been deleted). */
  datatype Session = Session(cwd: Path, fs: Tree, input: seq<InputEvent>, process: Option<Path>)

  /** The effect of one handler call: the session afterwards, the text printed
      (one `console.print` each, newline included), and the exception that
      escaped the handler, if any. */
  datatype Outcome = Outcome(after: Session, out: string, raised: Option<Exception>)

  predicate ValidSession(s: Session) {
    IsCanonical(s.cwd) && WellFormed(s.fs)
  }

  /** What `console.print(msg)` writes. */
  function Say(msg: string): string {
    msg + "\n"
  }

  function Unchanged(s: Session, out: string): Outcome {
    Outcome(s, out, None)
  }

  // ---------------------------------------------------------------- pwd, cd

  function PwdSpec(s: Session): Outcome {
    Unchanged(s, Say(Render(s.cwd)))
  }

  function CdSpec(s: Session, args: seq<string>): (o: Outcome)
    requires ValidSession(s)
    ensures o.after.fs == s.fs && o.after.input == s.input
  {
    if args == [] then Unchanged(s, Say("cd: missing argument"))
    else
      var p := Resolve(s.cwd, args[0]);
      if IsDir(s.fs, p) then Unchanged(s.(cwd := p, process := Some(p)), "")
      else Unchanged(s, Say("cd: no such directory: " + args[0]))
  }

  // ---------------------------------------------------------------- ls

  /** The names directly inside directory `p`. */
  function Children(fs: Tree, p: Path): set<string> {
    set q | q in fs && |q| == |p| + 1 && q[..|p|] == p :: q[|p|]
  }

  /** `items` lists every element of `names` once, in some order. */
  ghost predicate Enumerates(items: seq<string>, names: set<string>) {
    |items| == |names| && (forall x :: x in items <==> x in names)
  }

  /** One printed line per name. */
  function Rows(items: seq<string>): string {
    if items == [] then "" else Rows(items[..|items| - 1]) + Say(items[|items| - 1])
  }

  /** The directory `ls` lists: the working directory, or its first argument. */
  function LsTarget(s: Session, args: seq<string>): Path
    requires ValidSession(s)
  {
    if args == [] then s.cwd else Resolve(s.cwd, args[0])
  }

  /** `ls` prints a table headed by the directory's base name with one row per
      entry; `os.listdir` fixes no order, so any enumeration is allowed. A path
      that is missing is reported; one that is not a directory raises. */
  ghost predicate LsAllowed(s: Session, args: seq<string>, o: Outcome)
    requires ValidSession(s)
  {
    var p := LsTarget(s, args);
    o.after == s &&
    match LookupFault(s.fs, p)
    case Some(Missing) => o.out == Say("No such directory: " + Render(p)) && o.raised == None
    case Some(NotDir) => o.out == "" && o.raised == Some(OtherException(NotADirText(p)))
    case None =>
      o.raised == None &&
      exists items :: Enumerates(items, Children(s.fs, p)) && o.out == Say(BaseName(p)) + Rows(items)
  }

  // ---------------------------------------------------------------- mkdir, rm, mv

  function MkdirSpec(s: Session, args: seq<string>): (o: Outcome)
    requires ValidSession(s)
    ensures ValidSession(o.after) && o.after.cwd == s.cwd && o.after.input == s.input
  {
    if args == [] then Unchanged(s, Say("mkdir: missing directory name"))
    else
      var p := Resolve(s.cwd, args[0]);
      if Exists(s.fs, p) then
        Unchanged(s, Say("mkdir: cannot create directory '" + args[0] + "': File exists"))
      else if !NoFileAlong(s.fs, p) then
        Outcome(s, "", Some(OtherException(NotADirText(FirstMissing(s.fs, p)))))
      else
        Unchanged(s.(fs := MakeDirs(s.fs, p)), Say("Directory created: " + Render(p)))
  }

  function RmSpec(s: Session, args: seq<string>): (o: Outcome)
    requires ValidSession(s)
    ensures ValidSession(o.after) && o.after.cwd == s.cwd && o.after.input == s.input
  {
    if args == [] then Unchanged(s, Say("rm: missing file/directory name"))
    else
      var p := Resolve(s.cwd, args[0]);
      RemoveTreeWellFormed(s.fs, p);
      if IsFile(s.fs, p) then
        Unchanged(s.(fs := RemoveTree(s.fs, p)), Say("Removed file: " + Render(p)))
      else if p == [] then
        // rmtree empties the root, then cannot remove the root itself
        Outcome(s.(fs := RemoveTree(s.fs, p), process := Removed(s.process, p)), "",
          Some(OtherException(RootBusyText)))
      else if IsDir(s.fs, p) then
        Unchanged(s.(fs := RemoveTree(s.fs, p), process := Removed(s.process, p)),
          Say("Removed directory: " + Render(p)))
      else
        Unchanged(s, Say("rm: cannot remove '" + args[0] + "': No such file or directory"))
  }

  const Arrow := " \U{e2}\U{2020}\U{2019} "

  /** Where the process's directory is after `rmtree(p)`: gone when it lay at
      or beneath `p`, except for the root, which `rmtree` cannot remove. */
  function Removed(process: Option<Path>, p: Path): Option<Path> {
    if process.Some? && process.value != [] && HasPrefix(process.value, p) then None else process
  }

  /** Where the process's directory is after renaming `src` to `landed`: an
      open directory moves with the subtree it lies in. */
  function Followed(process: Option<Path>, src: Path, landed: Path): Option<Path> {
    if process.Some? && HasPrefix(process.value, src) then Some(landed + process.value[|src|..])
    else process
  }

  function MvSpec(s: Session, args: seq<string>): (o: Outcome)
    requires ValidSession(s)
    ensures ValidSession(o.after) && o.after.cwd == s.cwd && o.after.input == s.input
  {
    if |args| < 2 then Unchanged(s, Say("mv: missing source or destination"))
    else
      var src := Resolve(s.cwd, args[0]);
      var dst := Resolve(s.cwd, args[1]);
      if !Exists(s.fs, src) then Unchanged(s, Say("mv: source does not exist: " + args[0]))
      else match ShutilMove(s.fs, src, dst)
        case Moved(t, landed, copied) =>
          var process := if copied then Removed(s.process, src) else Followed(s.process, src, landed);
          Unchanged(s.(fs := t, process := process), Say("Moved/Renamed: " + Render(src) + Arrow + Render(dst)))
        case MoveFailed(e) =>
          Unchanged(s, Say("mv: error moving '" + args[0] + "' to '" + args[1] + "': " + e))
  }

  // ---------------------------------------------------------------- cat

  /** Reading one named source: its text as text mode reads it, or the
      complaint printed instead. */
  datatype Read = Got(text: string) | Complaint(msg: string)

  function ReadSource(fs: Tree, cwd: Path, name: string): Read
    requires IsCanonical(cwd)
  {
    var p := Resolve(cwd, name);
    if !Exists(fs, p) then Complaint("cat: " + name + " does not exist")
    else if IsDir(fs, p) then Complaint("Error reading " + name + ": " + IsADirText(p))
    else Got(Universal(fs[p].text))
  }

  /** What displaying one file prints: its raw text (no newline added), or the complaint. */
  function Shown(r: Read): string {
    match r
    case Got(t) => t
    case Complaint(m) => Say(m)
  }

  function DisplayText(fs: Tree, cwd: Path, files: seq<string>): string
    requires IsCanonical(cwd)
  {
    if files == [] then ""
    else DisplayText(fs, cwd, files[..|files| - 1]) + Shown(ReadSource(fs, cwd, files[|files| - 1]))
  }

  /** The texts of the sources that could be read, in order. */
  function SourceTexts(fs: Tree, cwd: Path, files: seq<string>): seq<string>
    requires IsCanonical(cwd)
  {
    if files == [] then []
    else
      var r := ReadSource(fs, cwd, files[|files| - 1]);
      SourceTexts(fs, cwd, files[..|files| - 1]) + (if r.Got? then [r.text] else [])
  }

  /** The complaints printed for the sources that could not be read, in order. */
  function SourceErrors(fs: Tree, cwd: Path, files: seq<string>): string
    requires IsCanonical(cwd)
  {
    if files == [] then ""
    else
      var r := ReadSource(fs, cwd, files[|files| - 1]);
      SourceErrors(fs, cwd, files[..|files| - 1]) + (if r.Complaint? then Say(r.msg) else "")
  }

  /** The lines typed before the first end-of-input or interrupt. */
  function LinesTyped(ev: seq<InputEvent>): seq<string> {
    if ev == [] || !ev[0].Line? then [] else [ev[0].text] + LinesTyped(ev[1..])
  }

  /** What standard input still holds after that end-of-input or interrupt. */
  function AfterTyping(ev: seq<InputEvent>): seq<InputEvent> {
    if ev == [] then [] else if ev[0].Line? then AfterTyping(ev[1..]) else ev[1..]
  }

  /** Typing consumes at least the event that ends it. */
  lemma {:induction false} AfterTypingShorter(ev: seq<InputEvent>)
    ensures |AfterTyping(ev)| <= |ev|
    ensures ev != [] ==> |AfterTyping(ev)| < |ev|
  {
    if ev != [] && ev[0].Line? {
      AfterTypingShorter(ev[1..]);
    }
  }

  function WriteError(target: string, e: string): string {
    Say("Error writing to " + target + ": " + e)
  }

  function PromptFor(target: string): string {
    Say("Enter content for " + target + " (Ctrl+D or Ctrl+Z+Enter to save):")
  }

  /** The text of the file the interactive mode creates. */
  function TypedText(lines: seq<string>): string {
    Join("\n", CleanLines(lines)) + "\n"
  }

  /** `with open(target_path, mode) as f: f.write(text)`, then the report `done`;
      a target that cannot be opened is reported instead and nothing is written. */
  function Deliver(s: Session, target: string, text: string, append: bool, done: string): (o: Outcome)
    requires ValidSession(s)
    ensures ValidSession(o.after) && o.raised == None && o.after.cwd == s.cwd && o.after.input == s.input
  {
    var p := Resolve(s.cwd, target);
    match OpenForWrite(s.fs, p)
    case Some(e) => Unchanged(s, WriteError(target, e))
    case None =>
      WriteFileWellFormed(s.fs, p, text, append);
      Unchanged(s.(fs := WriteFile(s.fs, p, text, append)), Say(done))
  }

  /** The report after writing the forwarded content: `cat: content {action} {target}`. */
  function ContentDone(append: bool, target: string): string {
    if append then "cat: content appended to " + target else "cat: content written to " + target
  }

  /** What was printed before the outcome `o`, and `o` itself. */
  function After(printed: string, o: Outcome): Outcome {
    o.(out := printed + o.out)
  }

  function CatSpec(s: Session, args: seq<string>, content: Option<string>): (o: Outcome)
    requires ValidSession(s)
    ensures ValidSession(o.after) && o.raised == None && o.after.cwd == s.cwd
    ensures o.after.input == s.input || o.after.input == AfterTyping(s.input)
  {
    match PlanCat(args, content)
    case MissingArguments => Unchanged(s, Say("cat: missing arguments"))
    case Display(files) => Unchanged(s, DisplayText(s.fs, s.cwd, files))
    case BadRedirection => Unchanged(s, Say("cat: invalid redirection usage"))
    case WriteContent(target, mode, text) =>
      Deliver(s, target, text, mode == Append,
        ContentDone(mode == Append, target))
    case Interactive(target) =>
      After(PromptFor(target),
        Deliver(s.(input := AfterTyping(s.input)), target, TypedText(LinesTyped(s.input)), false,
          "\ncat: created " + target))
    case Concatenate(files, target, mode) =>
      After(SourceErrors(s.fs, s.cwd, files),
        Deliver(s, target, Join("\n", SourceTexts(s.fs, s.cwd, files)), mode == Append,
          "cat: written to " + target))
  }

  // ---------------------------------------------------------------- the handlers

  class FileSystemCommands {
    var cwd: Path
    var fs: Tree
    var process: Option<Path>
    const console: Console

    ghost predicate Valid()
      reads this, console
    {
      console.Valid() && IsCanonical(cwd) && WellFormed(fs)
    }

    function State(): Session
      reads this, console
    {
      Session(cwd, fs, console.input, process)
    }

    /** The call took the session to `o.after` and printed `o.out` to wherever
        `sys.stdout` pointed. */
    twostate predicate Did(o: Outcome)
      reads this, console
    {
      Valid() && State() == o.after &&
      console.current == old(console.current) && old(console.current) < |old(console.sinks)| &&
      console.sinks == old(console.sinks)[old(console.current) := old(console.sinks)[old(console.current)] + o.out]
    }

    /** `__init__`: the session starts in the process's working directory. */
    constructor (c: Console, start: Path, tree: Tree)
      requires c.Valid() && IsCanonical(start) && WellFormed(tree) && IsDir(tree, start)
      ensures Valid() && console == c && cwd == start && fs == tree && process == Some(start)
    {
      console, cwd, fs, process := c, start, tree, Some(start);
    }

    method Pwd(args: seq<string>) returns (raised: Option<Exception>)
      requires Valid()
      modifies console
      ensures Did(PwdSpec(old(State()))) && raised == None
    {
      console.Print(Render(cwd));
      raised := None;
    }

    method Cd(args: seq<string>) returns (raised: Option<Exception>)
      requires Valid()
      modifies this, console
      ensures Did(CdSpec(old(State()), args)) && raised == None
    {
      raised := None;
      if args == [] {
        console.Print("cd: missing argument");
        return;
      }
      var p := Resolve(cwd, args[0]);
      if IsDir(fs, p) {
        cwd, process := p, Some(p);
        AppendNothing(console.sinks, console.current);
      } else {
        console.Print("cd: no such directory: " + args[0]);
      }
    }

    method Ls(args: seq<string>) returns (raised: Option<Exception>, ghost printed: string)
      requires Valid()
      modifies console
      ensures Did(Outcome(old(State()), printed, raised))
      ensures LsAllowed(old(State()), args, Outcome(old(State()), printed, raised))
    {
      var p := if args == [] then cwd else Resolve(cwd, args[0]);
      match LookupFault(fs, p) {
        case Some(Missing) =>
          console.Print("No such directory: " + Render(p));
          raised, printed := None, Say("No such directory: " + Render(p));
        case Some(NotDir) =>
          raised, printed := Some(OtherException(NotADirText(p))), "";
          AppendNothing(console.sinks, console.current);
        case None =>
          ghost var items;
          var table;
          table, items := Table(p);
          console.Write(table);
          raised, printed := None, table;
      }
    }

    /** The table `ls` prints: a header and one row per entry of `os.listdir`. */
    method Table(p: Path) returns (table: string, ghost items: seq<string>)
      ensures Enumerates(items, Children(fs, p)) && table == Say(BaseName(p)) + Rows(items)
    {
      var names := Children(fs, p);
      var left := names;
      items := [];
      table := Say(BaseName(p));
      while left != {}
        invariant left <= names
        invariant |items| + |left| == |names|
        invariant forall x :: x in items <==> x in names && x !in left
        invariant table == Say(BaseName(p)) + Rows(items)
        decreases |left|
      {
        var x :| x in left;
        ghost var next := items + [x];
        assert next[..|items|] == items;
        table, items, left := table + Say(x), next, left - {x};
      }
    }

    method Mkdir(args: seq<string>) returns (raised: Option<Exception>)
      requires Valid()
      modifies this, console
      ensures Did(MkdirSpec(old(State()), args)) && raised == MkdirSpec(old(State()), args).raised
    {
      raised := None;
      if args == [] {
        console.Print("mkdir: missing directory name");
        return;
      }
      var p := Resolve(cwd, args[0]);
      if Exists(fs, p) {
        console.Print("mkdir: cannot create directory '" + args[0] + "': File exists");
      } else if !NoFileAlong(fs, p) {
        raised := Some(OtherException(NotADirText(FirstMissing(fs, p))));
        AppendNothing(console.sinks, console.current);
      } else {
        fs := MakeDirs(fs, p);
        console.Print("Directory created: " + Render(p));
      }
    }

    method Rm(args: seq<string>) returns (raised: Option<Exception>)
      requires Valid()
      modifies this, console
      ensures Did(RmSpec(old(State()), args)) && raised == RmSpec(old(State()), args).raised
    {
      raised := None;
      if args == [] {
        console.Print("rm: missing file/directory name");
        return;
      }
      var p := Resolve(cwd, args[0]);
      RemoveTreeWellFormed(fs, p);
      if IsFile(fs, p) {
        fs := RemoveTree(fs, p);
        console.Print("Removed file: " + Render(p));
      } else if IsDir(fs, p) {
        fs, process := RemoveTree(fs, p), Removed(process, p);
        if p == [] {
          raised := Some(OtherException(RootBusyText));
          AppendNothing(console.sinks, console.current);
          return;
        }
        console.Print("Removed directory: " + Render(p));
      } else {
        console.Print("rm: cannot remove '" + args[0] + "': No such file or directory");
      }
    }

    method Mv(args: seq<string>) returns (raised: Option<Exception>)
      requires Valid()
      modifies this, console
      ensures Did(MvSpec(old(State()), args)) && raised == None
    {
      raised := None;
      if |args| < 2 {
        console.Print("mv: missing source or destination");
        return;
      }
      var src := Resolve(cwd, args[0]);
      var dst := Resolve(cwd, args[1]);
      if !Exists(fs, src) {
        console.Print("mv: source does not exist: " + args[0]);
        return;
      }
      match ShutilMove(fs, src, dst)
      case Moved(t, landed, copied) =>
        fs, process := t, if copied then Removed(process, src) else Followed(process, src, landed);
        console.Print("Moved/Renamed: " + Render(src) + Arrow + Render(dst));
      case MoveFailed(e) =>
        console.Print("mv: error moving '" + args[0] + "' to '" + args[1] + "': " + e);
    }

    method Cat(args: seq<string>, content: Option<string>) returns (raised: Option<Exception>)
      requires Valid()
      modifies this, console
      ensures Did(CatSpec(old(State()), args, content)) && raised == None
    {
      raised := None;
      if args == [] && content == None {
        console.Print("cat: missing arguments");
        return;
      }
      if HasOperator(args) {
        HandleRedirection(args, content);
        return;
      }
      DisplayFiles(args);
    }

    /** The loop that prints each file in turn, skipping the ones it cannot read. */
    method DisplayFiles(files: seq<string>)
      requires Valid()
      modifies console
      ensures Valid() && State() == old(State()) && console.current == old(console.current)
      ensures console.sinks == old(console.sinks)[console.current :=
        old(console.sinks)[console.current] + DisplayText(fs, cwd, files)]
    {
      var c := console.current;
      ghost var before := console.sinks[c];
      AppendNothing(console.sinks, c);
      for i := 0 to |files|
        invariant Valid() && State() == old(State()) && console.current == c
        invariant console.sinks == old(console.sinks)[c := before + DisplayText(fs, cwd, files[..i])]
      {
        assert files[..i + 1][..i] == files[..i];
        ghost var acc := DisplayText(fs, cwd, files[..i]);
        ghost var piece := Shown(ReadSource(fs, cwd, files[i]));
        assert DisplayText(fs, cwd, files[..i + 1]) == acc + piece;
        DisplayFile(files[i]);
        Appended(old(console.sinks), c, before, acc, piece);
      }
      assert files[..|files|] == files;
    }

    /** One turn of that loop: the file's text, or why it cannot be read. */
    method DisplayFile(name: string)
      requires Valid()
      modifies console
      ensures Valid() && State() == old(State()) && console.current == old(console.current)
      ensures console.sinks == old(console.sinks)[console.current :=
        old(console.sinks)[console.current] + Shown(ReadSource(fs, cwd, name))]
    {
      var p := Resolve(cwd, name);
      if !Exists(fs, p) {
        console.Print("cat: " + name + " does not exist");
      } else if IsDir(fs, p) {
        console.Print("Error reading " + name + ": " + IsADirText(p));
      } else {
        console.Write(Universal(fs[p].text));
      }
    }

    method HandleRedirection(args: seq<string>, content: Option<string>)
      requires Valid() && HasOperator(args)
      modifies this, console
      ensures Did(CatSpec(old(State()), args, content))
    {
      var split := SplitRedirection(args);
      if split.None? {
        console.Print("cat: invalid redirection usage");
        return;
      }
      var Redirect(files, target, mode) := split.value;
      if content.Some? {
        WriteTarget(target, content.value + "\n", mode == Append,
          ContentDone(mode == Append, target));
        return;
      }
      if files == [] && mode == Overwrite {
        CreateInteractively(target);
        return;
      }
      ConcatenateInto(files, target, mode == Append);
    }

    /** The writing step every redirection ends with. */
    method WriteTarget(target: string, text: string, append: bool, done: string)
      requires Valid()
      modifies this, console
      ensures Did(Deliver(old(State()), target, text, append, done))
    {
      var p := Resolve(cwd, target);
      match OpenForWrite(fs, p) {
        case Some(e) =>
          console.Print("Error writing to " + target + ": " + e);
        case None =>
          WriteFileWellFormed(fs, p, text, append);
          fs := WriteFile(fs, p, text, append);
          console.Print(done);
      }
    }

    /** `cat > target` with no sources and no content: prompt, read until end of input, save. */
    method CreateInteractively(target: string)
      requires Valid()
      modifies this, console
      ensures var s := old(State());
        Did(After(PromptFor(target),
          Deliver(s.(input := AfterTyping(s.input)), target, TypedText(LinesTyped(s.input)), false,
            "\ncat: created " + target)))
    {
      ghost var c := console.current;
      ghost var before := console.sinks[c];
      console.Print("Enter content for " + target + " (Ctrl+D or Ctrl+Z+Enter to save):");
      var lines := ReadTyped();
      var text := Join("\n", CleanLines(lines)) + "\n";
      ghost var mid := console.sinks[c];
      WriteTarget(target, text, false, "\ncat: created " + target);
      ghost var o := Deliver(old(State()).(input := AfterTyping(old(State()).input)), target, text, false, "\ncat: created " + target);
      Appended(old(console.sinks), c, before, PromptFor(target), o.out);
    }

    /** `cat a b > target` / `>>`: collect the sources, then write them joined by newlines. */
    method ConcatenateInto(files: seq<string>, target: string, append: bool)
      requires Valid()
      modifies this, console
      ensures var s := old(State());
        Did(After(SourceErrors(s.fs, s.cwd, files),
          Deliver(s, target, Join("\n", SourceTexts(s.fs, s.cwd, files)), append, "cat: written to " + target)))
    {
      ghost var c := console.current;
      ghost var before := console.sinks[c];
      ghost var errs := SourceErrors(fs, cwd, files);
      var outputData := CollectSources(files);
      ghost var mid := console.sinks[c];
      ghost var o := Deliver(old(State()), target, Join("\n", outputData), append, "cat: written to " + target);
      WriteTarget(target, Join("\n", outputData), append, "cat: written to " + target);
      Appended(old(console.sinks), c, before, errs, o.out);
    }

    /** The interactive loop: `lines.append(input())` until end-of-input or interrupt. */
    method ReadTyped() returns (lines: seq<string>)
      requires Valid()
      modifies console
      ensures Valid() && cwd == old(cwd) && fs == old(fs)
      ensures console.sinks == old(console.sinks) && console.current == old(console.current)
      ensures lines == LinesTyped(old(console.input)) && console.input == AfterTyping(old(console.input))
    {
      lines := [];
      while true
        invariant Valid() && console.sinks == old(console.sinks) && console.current == old(console.current)
        invariant LinesTyped(old(console.input)) == lines + LinesTyped(console.input)
        invariant AfterTyping(old(console.input)) == AfterTyping(console.input)
        decreases |console.input|
      {
        ghost var pending := console.input;
        var e := console.Read();
        if !e.Line? {
          return;
        }
        assert LinesTyped(pending) == [e.text] + LinesTyped(console.input);
        lines := lines + [e.text];
      }
    }

    /** The concatenation loop: collect each readable source, report the others. */
    method CollectSources(files: seq<string>) returns (outputData: seq<string>)
      requires Valid()
      modifies console
      ensures Valid() && State() == old(State()) && console.current == old(console.current)
      ensures outputData == SourceTexts(fs, cwd, files)
      ensures console.sinks == old(console.sinks)[console.current :=
        old(console.sinks)[console.current] + SourceErrors(fs, cwd, files)]
    {
      var c := console.current;
      ghost var before := console.sinks[c];
      outputData := [];
      AppendNothing(console.sinks, c);
      for i := 0 to |files|
        invariant Valid() && State() == old(State()) && console.current == c
        invariant outputData == SourceTexts(fs, cwd, files[..i])
        invariant console.sinks == old(console.sinks)[c := before + SourceErrors(fs, cwd, files[..i])]
      {
        assert files[..i + 1][..i] == files[..i];
        ghost var acc := SourceErrors(fs, cwd, files[..i]);
        var p := Resolve(cwd, files[i]);
        if !Exists(fs, p) {
          console.Print("cat: " + files[i] + " does not exist");
          Appended(old(console.sinks), c, before, acc, Say("cat: " + files[i] + " does not exist"));
        } else if IsDir(fs, p) {
          console.Print("Error reading " + files[i] + ": " + IsADirText(p));
          Appended(old(console.sinks), c, before, acc, Say("Error reading " + files[i] + ": " + IsADirText(p)));
        } else {
          outputData := outputData + [Universal(fs[p].text)];
          assert acc + "" == acc;
        }
      }
      assert files[..|files|] == files;
    }
  }
}
