/** `CommandParser`: the registry of the eleven commands and `execute`, which
    tokenises a line, looks its first word up, runs the handler (handing the
    optional content to `cat` alone), and when asked captures what the handler
    printed by pointing `sys.stdout` at a fresh buffer. */
module Parser {
  import opened Wrappers
  import opened Text
  import opened Shlex
  import opened Terminal
  import opened Paths
  import opened Disk
  import opened FileSystem

  datatype Handler = Ls | Pwd | Cd | Mkdir | Cat | Rm | Mv | Cpu | Mem | Processes | Help

  /** `self.commands` as `__init__` builds it. */
  const Registry: map<string, Handler> := map[
    "ls" := Ls, "pwd" := Pwd, "cd" := Cd, "mkdir" := Mkdir, "cat" := Cat, "rm" := Rm,
    "mv" := Mv, "cpu" := Cpu, "mem" := Mem, "processes" := Processes, "help" := Help]

  /** The registry names exactly eleven commands. */
  lemma RegistryKeys()
    ensures Registry.Keys ==
      {"ls", "pwd", "cd", "mkdir", "cat", "rm", "mv", "cpu", "mem", "processes", "help"}
  {
  }

  lemma RegistrySize()
    ensures |Registry| == 11
  {
  }

  /** Every handler is reachable through the registry. */
  lemma RegistryValues()
    ensures Registry.Values == {Ls, Pwd, Cd, Mkdir, Cat, Rm, Mv, Cpu, Mem, Processes, Help}
  {
    assert Registry["ls"] == Ls && Registry["pwd"] == Pwd && Registry["cd"] == Cd;
    assert Registry["mkdir"] == Mkdir && Registry["cat"] == Cat && Registry["rm"] == Rm;
    assert Registry["mv"] == Mv && Registry["cpu"] == Cpu && Registry["mem"] == Mem;
    assert Registry["processes"] == Processes && Registry["help"] == Help;
  }

  /** How `execute` reads a line: a `ValueError` from tokenising, no words, a
      first word that is not registered, or a registered command with its arguments. */
  datatype Parsed = BadSyntax(msg: string) | Blank | Unknown(cmd: string) | Known(h: Handler, args: seq<string>)

  function Dispatch(line: string): (r: Parsed)
    ensures r.Known? ==> exists cmd ::
      cmd in Registry && Registry[cmd] == r.h && Tokenize(Strip(line)) == Tokens([cmd] + r.args)
    ensures r.Unknown? ==> r.cmd !in Registry && exists args :: Tokenize(Strip(line)) == Tokens([r.cmd] + args)
    ensures Tokenize(Strip(line)).LexError? <==> r.BadSyntax?
    ensures Tokenize(Strip(line)).LexError? ==> r == BadSyntax(Tokenize(Strip(line)).msg)
    ensures r == Blank <==> Tokenize(Strip(line)) == Tokens([])
    ensures
      (Tokenize(Strip(line)).Tokens? && Tokenize(Strip(line)).words != [] &&
       Tokenize(Strip(line)).words[0] in Registry) ==>
      r == Known(Registry[Tokenize(Strip(line)).words[0]], Tokenize(Strip(line)).words[1..])
  {
    match Tokenize(Strip(line))
    case LexError(m) => BadSyntax(m)
    case Tokens(words) =>
      if words == [] then Blank
      else
        var cmd, args := words[0], words[1..];
        assert Tokenize(Strip(line)) == Tokens([cmd] + args) by { assert words == [cmd] + args; }
        if cmd in Registry then Known(Registry[cmd], args) else Unknown(cmd)
  }

  /** Only whitespace is no command at all. */
  lemma BlankDispatch(line: string)
    requires forall k :: 0 <= k < |line| ==> IsSpace(line[k])
    ensures Dispatch(line) == Blank
  {
    StripEmptyIff(line);
  }

  /** Plain words separated by single spaces: the first names the command and
      the rest are its arguments. */
  lemma WordsDispatch(cmd: string, args: seq<string>)
    requires IsTypedWord(cmd) && forall k :: 0 <= k < |args| ==> IsTypedWord(args[k])
    ensures Dispatch(Join(" ", [cmd] + args)) ==
      if cmd in Registry then Known(Registry[cmd], args) else Unknown(cmd)
  {
    var ws := [cmd] + args;
    var line := Join(" ", ws);
    JoinEdges(ws);
    StripUnpadded(line);
    forall k | 0 <= k < |ws| ensures IsPlainWord(ws[k]) {
      if k == 0 {
        assert ws[k] == cmd && IsTypedWord(cmd);
      } else {
        assert ws[k] == args[k - 1] && IsTypedWord(args[k - 1]);
      }
    }
    TokenizeJoined(ws);
    assert ws[0] == cmd && ws[1..] == args;
  }

  /** A word the tokeniser and `strip` both leave alone. */
  predicate IsTypedWord(w: string) {
    IsPlainWord(w) && forall k :: 0 <= k < |w| ==> !IsSpace(w[k])
  }

  /** A space-joined line starts with its first word and ends with its last. */
  lemma {:induction false} JoinEdges(ws: seq<string>)
    requires ws != [] && ws[0] != [] && ws[|ws| - 1] != []
    ensures var j := Join(" ", ws); j != [] && j[0] == ws[0][0] && j[|j| - 1] == ws[|ws| - 1][|ws[|ws| - 1]| - 1]
  {
    if |ws| > 1 {
      var init := ws[..|ws| - 1];
      var last := ws[|ws| - 1];
      assert init + [last] == ws;
      JoinSnoc(" ", init, last);
      assert init[0] == ws[0];
      if |init| > 1 {
        assert init[..|init| - 1] + [init[|init| - 1]] == init;
        JoinSnoc(" ", init[..|init| - 1], init[|init| - 1]);
        JoinStart(init);
      }
    }
  }

  lemma {:induction false} JoinStart(ws: seq<string>)
    requires ws != [] && ws[0] != []
    ensures var j := Join(" ", ws); j != [] && j[0] == ws[0][0]
  {
    if |ws| > 1 {
      var init := ws[..|ws| - 1];
      assert init + [ws[|ws| - 1]] == ws;
      JoinSnoc(" ", init, ws[|ws| - 1]);
      assert init[0] == ws[0];
      JoinStart(init);
    }
  }

  // ---------------------------------------------------------------- messages

  /** What `execute` returns for an error: the markup is kept in the string. */
  function Marked(kind: string, detail: string): string {
    "[red]" + kind + "[/red] " + detail
  }

  /** What the console shows for the same message: the markup is rendered away. */
  function Rendered(kind: string, detail: string): string {
    kind + " " + detail
  }

  const ParsingError := "Parsing error:"
  const ExecutionError := "Error executing command:"
  const UnknownCommand := "Unknown command:"

  /** A `ValueError` is a parsing error; any other exception an execution error. */
  function ErrorLabel(e: Exception): string {
    if e.ValueError? then ParsingError else ExecutionError
  }

  function ErrorMsg(e: Exception): string {
    match e
    case ValueError(m) => m
    case OtherException(m) => m
  }

  // ---------------------------------------------------------------- handlers

  /** The system and help handlers, which only print. */
  predicate IsReport(h: Handler) {
    h == Cpu || h == Mem || h == Processes || h == Help
  }

  /** A handler's effect. `cpu`, `mem`, `processes` and `help` print text taken
      from outside the model (`readings`); the others act on the filesystem. */
  ghost predicate Handles(h: Handler, readings: Handler -> string, s: Session, args: seq<string>,
                          content: Option<string>, o: Outcome)
    requires ValidSession(s)
  {
    if IsReport(h) then o == Unchanged(s, ReportText(h, readings))
    else FileHandles(h, s, args, content, o)
  }

  /** The filesystem handlers' effects; `ls` may list in any order. */
  ghost predicate FileHandles(h: Handler, s: Session, args: seq<string>, content: Option<string>, o: Outcome)
    requires ValidSession(s) && !IsReport(h)
  {
    match h
    case Ls => LsAllowed(s, args, o)
    case Pwd => o == PwdSpec(s)
    case Cd => o == CdSpec(s, args)
    case Mkdir => o == MkdirSpec(s, args)
    case Cat => o == CatSpec(s, args, content)
    case Rm => o == RmSpec(s, args)
    case Mv => o == MvSpec(s, args)
  }

  /** No handler gives standard input back: at most `cat`'s interactive mode consumes some. */
  lemma HandlesConsume(h: Handler, readings: Handler -> string, s: Session, args: seq<string>,
                       content: Option<string>, o: Outcome)
    requires ValidSession(s) && Handles(h, readings, s, args, content, o)
    ensures |o.after.input| <= |s.input|
  {
    if h == Cat {
      AfterTypingShorter(s.input);
    }
  }

  /** `show_commands`: the command table and two closing lines. */
  const TalkLine := "Apart from the above mentioned commands, I can also talk and follow your instructions ^_^"
  const PrefixLine := "Use !ai prefix to talk with me or instruct me."

  function HelpText(table: string): string {
    Say(table) +
    Say(TalkLine) +
    Say(PrefixLine)
  }

  /** What the system and help handlers print. */
  function ReportText(h: Handler, readings: Handler -> string): string
    requires IsReport(h)
  {
    match h
    case Cpu => Say("CPU Usage: " + readings(Cpu) + "%")
    case Mem => Say(readings(Mem))
    case Processes => Say(readings(Processes))
    case Help => HelpText(readings(Help))
  }

  /** What `execute` hands each handler: the content goes to `cat` only. */
  function Forwarded(h: Handler, content: Option<string>): Option<string> {
    if h == Cat then content else None
  }

  /** `execute(line, capture, content)` run from session `s`, with the output
      streams `before` and `sys.stdout` at `before[cur]`, returns `r`, has
      outcome `o` and leaves the streams `sinks` with `sys.stdout` at `current`. */
  ghost predicate Executes(readings: Handler -> string, line: string, capture: bool, content: Option<string>,
                           s: Session, before: seq<string>, cur: nat,
                           r: Option<string>, o: Outcome, sinks: seq<string>, current: nat)
  {
    ValidSession(s) && cur < |before| &&
    match Dispatch(line)
    case BadSyntax(m) =>
      o == Unchanged(s, "") && current == cur &&
      (capture ==> r == Some(Marked(ParsingError, m)) && sinks == before) &&
      (!capture ==> r == None && sinks == before[cur := before[cur] + Say(Rendered(ParsingError, m))])
    case Blank =>
      o == Unchanged(s, "") && r == Some("") && current == cur && sinks == before
    case Unknown(cmd) =>
      o == Unchanged(s, "") && current == cur &&
      sinks == before[cur := before[cur] + Say(Rendered(UnknownCommand, cmd))] &&
      r == Some(if capture then Marked(UnknownCommand, cmd) else "")
    case Known(h, args) =>
      Invokes(readings, h, args, capture, Forwarded(h, content), s, before, cur, r, o, sinks, current)
  }

  /** A registered command ran with outcome `o`. Printing it plainly returns
      nothing; capturing it collects its output in a fresh buffer and returns
      that text stripped, except that a capture whose handler raised returns
      the error without pointing `sys.stdout` back: the buffer stays current. */
  ghost predicate Invokes(readings: Handler -> string, h: Handler, args: seq<string>, capture: bool,
                          content: Option<string>, s: Session, before: seq<string>, cur: nat,
                          r: Option<string>, o: Outcome, sinks: seq<string>, current: nat)
  {
    ValidSession(s) && cur < |before| &&
    Handles(h, readings, s, args, content, o) &&
    (!capture ==>
      current == cur && r == None &&
      sinks == before[cur := before[cur] + o.out +
        (if o.raised.Some? then Say(Rendered(ErrorLabel(o.raised.value), ErrorMsg(o.raised.value))) else "")]) &&
    (capture ==>
      sinks == before + [o.out] &&
      (o.raised == None ==> current == cur && r == Some(Strip(o.out))) &&
      (o.raised.Some? ==>
        current == |before| &&
        r == Some(Marked(ErrorLabel(o.raised.value), ErrorMsg(o.raised.value)))))
  }

  /** A captured command that raises nothing returns its output stripped,
      points `sys.stdout` back where it was, and leaves the text it printed in
      the new buffer only. */
  lemma CaptureReturnsOutput(readings: Handler -> string, line: string, content: Option<string>,
                             s: Session, before: seq<string>, cur: nat,
                             r: Option<string>, o: Outcome, sinks: seq<string>, current: nat)
    requires Executes(readings, line, true, content, s, before, cur, r, o, sinks, current)
    requires Dispatch(line).Known? && o.raised == None
    ensures r == Some(Strip(o.out)) && current == cur && sinks == before + [o.out]
  {
    var Known(h, args) := Dispatch(line);
    assert Invokes(readings, h, args, true, Forwarded(h, content), s, before, cur, r, o, sinks, current);
  }

  class CommandParser {
    const console: Console
    const files: FileSystemCommands
    /** `self.commands`. */
    const commands: map<string, Handler> := Registry
    /** The readings and tables of the system and help commands. */
    const readings: Handler -> string

    ghost predicate Valid()
      reads this, files, console
    {
      files.console == console && files.Valid()
    }

    ghost function State(): Session
      reads this, files, console
      requires Valid()
    {
      files.State()
    }

    constructor (c: Console, start: Path, tree: Tree, r: Handler -> string)
      requires c.Valid() && IsCanonical(start) && WellFormed(tree) && IsDir(tree, start)
      ensures Valid() && console == c && readings == r && fresh(files)
      ensures files.cwd == start && files.fs == tree && files.process == Some(start)
    {
      console := c;
      files := new FileSystemCommands(c, start, tree);
      readings := r;
    }

    /** `self.commands[cmd](args, ...)`. */
    method Run(h: Handler, args: seq<string>, content: Option<string>)
      returns (raised: Option<Exception>, ghost o: Outcome)
      requires Valid()
      modifies files, console
      ensures Valid() && raised == o.raised && files.Did(o)
      ensures Handles(h, readings, old(State()), args, content, o)
      ensures |o.after.input| <= |old(State()).input|
    {
      if IsReport(h) {
        o := Report(h);
        raised := None;
      } else {
        raised, o := RunFiles(h, args, content);
      }
      HandlesConsume(h, readings, old(State()), args, content, o);
    }

    /** The filesystem handlers. */
    method RunFiles(h: Handler, args: seq<string>, content: Option<string>)
      returns (raised: Option<Exception>, ghost o: Outcome)
      requires Valid() && !IsReport(h)
      modifies files, console
      ensures Valid() && raised == o.raised && files.Did(o)
      ensures FileHandles(h, old(State()), args, content, o)
    {
      ghost var s := files.State();
      match h {
        case Ls =>
          ghost var printed;
          raised, printed := files.Ls(args);
          o := Outcome(s, printed, raised);
        case Pwd =>
          raised := files.Pwd(args);
          o := PwdSpec(s);
        case Cd =>
          raised := files.Cd(args);
          o := CdSpec(s, args);
        case Mkdir =>
          raised := files.Mkdir(args);
          o := MkdirSpec(s, args);
        case Cat =>
          raised := files.Cat(args, content);
          o := CatSpec(s, args, content);
        case Rm =>
          raised := files.Rm(args);
          o := RmSpec(s, args);
        case Mv =>
          raised := files.Mv(args);
          o := MvSpec(s, args);
      }
    }

    /** The system and help handlers: they print and change nothing else. */
    method Report(h: Handler) returns (ghost o: Outcome)
      requires Valid() && IsReport(h)
      modifies console
      ensures Valid() && o.raised == None && files.Did(o)
      ensures o == Unchanged(old(State()), ReportText(h, readings))
    {
      ghost var s := files.State();
      ghost var c := console.current;
      ghost var before := console.sinks[c];
      match h {
        case Cpu =>
          console.Print("CPU Usage: " + readings(Cpu) + "%");
          o := Unchanged(s, Say("CPU Usage: " + readings(Cpu) + "%"));
        case Mem =>
          console.Print(readings(Mem));
          o := Unchanged(s, Say(readings(Mem)));
        case Processes =>
          console.Print(readings(Processes));
          o := Unchanged(s, Say(readings(Processes)));
        case Help =>
          ghost var s0 := console.sinks;
          ghost var table := before + Say(readings(Help));
          ghost var talk := Say(TalkLine);
          ghost var prefix := Say(PrefixLine);
          console.Print(readings(Help));
          console.Print(TalkLine);
          Overwritten(s0, c, table, table + talk);
          console.Print(PrefixLine);
          Overwritten(s0, c, table + talk, table + talk + prefix);
          o := Unchanged(s, HelpText(readings(Help)));
          assert table + talk + prefix == before + o.out;
      }
    }

    /** `execute(user_input, capture_output, content)`. */
    method Execute(line: string, capture: bool, content: Option<string>)
      returns (r: Option<string>, ghost o: Outcome)
      requires Valid()
      modifies files, console
      ensures Valid() && State() == o.after
      ensures Executed(line, capture, content, r, o)
      ensures capture ==> r.Some?
      ensures |console.input| <= old(|console.input|)
    {
      o := Unchanged(files.State(), "");
      match Dispatch(line) {
        case BadSyntax(m) =>
          if capture {
            r := Some(Marked(ParsingError, m));
          } else {
            console.Print(Rendered(ParsingError, m));
            r := None;
          }
        case Blank =>
          r := Some("");
        case Unknown(cmd) =>
          console.Print(Rendered(UnknownCommand, cmd));
          r := Some(if capture then Marked(UnknownCommand, cmd) else "");
        case Known(h, args) =>
          r, o := Invoke(h, args, capture, Forwarded(h, content));
      }
    }

    /** Running a registered command, through a capture buffer when asked. */
    method Invoke(h: Handler, args: seq<string>, capture: bool, content: Option<string>)
      returns (r: Option<string>, ghost o: Outcome)
      requires Valid()
      modifies files, console
      ensures Valid() && State() == o.after
      ensures Invoked(h, args, capture, content, r, o)
      ensures |console.input| <= old(|console.input|)
    {
      if capture {
        r, o := Captured(h, args, content);
      } else {
        r, o := Direct(h, args, content);
      }
    }

    /** The capturing branch: output goes to a fresh buffer, which a failure leaves installed. */
    method Captured(h: Handler, args: seq<string>, content: Option<string>)
      returns (r: Option<string>, ghost o: Outcome)
      requires Valid()
      modifies files, console
      ensures Valid() && State() == o.after
      ensures Invoked(h, args, true, content, r, o)
      ensures |console.input| <= old(|console.input|)
    {
      var saved, buf := console.Redirect();
      ghost var mid := console.sinks;
      var raised;
      raised, o := Run(h, args, content);
      assert mid[buf := mid[buf] + o.out] == old(console.sinks) + [o.out] by {
        assert mid[buf] + o.out == o.out;
      }
      if raised.Some? {
        return Some(Marked(ErrorLabel(raised.value), ErrorMsg(raised.value))), o;
      }
      console.Restore(saved);
      assert console.sinks[buf] == o.out;
      return Some(Strip(console.sinks[buf])), o;
    }

    /** The direct branch: the handler prints where `sys.stdout` points, followed by the error if any. */
    method Direct(h: Handler, args: seq<string>, content: Option<string>)
      returns (r: Option<string>, ghost o: Outcome)
      requires Valid()
      modifies files, console
      ensures Valid() && State() == o.after
      ensures Invoked(h, args, false, content, r, o)
      ensures |console.input| <= old(|console.input|)
    {
      var raised;
      raised, o := Run(h, args, content);
      if raised.Some? {
        ghost var c := console.current;
        console.Print(Rendered(ErrorLabel(raised.value), ErrorMsg(raised.value)));
        Appended(old(console.sinks), c, old(console.sinks)[c], o.out,
          Say(Rendered(ErrorLabel(raised.value), ErrorMsg(raised.value))));
      } else {
        AppendNothing(console.sinks, console.current);
        assert old(console.sinks)[console.current] + o.out + "" == old(console.sinks)[console.current] + o.out;
      }
      return None, o;
    }

    /** What `execute` promises, case by case. */
    twostate predicate Executed(line: string, capture: bool, content: Option<string>,
                                new r: Option<string>, new o: Outcome)
      reads this, files, console
    {
      old(Valid()) &&
      Executes(readings, line, capture, content, old(files.State()), old(console.sinks), old(console.current),
        r, o, console.sinks, console.current)
    }

    /** What running a registered command promises. */
    twostate predicate Invoked(h: Handler, args: seq<string>, capture: bool, content: Option<string>,
                               new r: Option<string>, new o: Outcome)
      reads this, files, console
    {
      old(Valid()) &&
      Invokes(readings, h, args, capture, content, old(files.State()), old(console.sinks), old(console.current),
        r, o, console.sinks, console.current)
    }
  }
}
