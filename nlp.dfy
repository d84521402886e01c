/** `nlp.py`: the two-step conversation with the language model, and the
    translation of the function calls it asks for into command lines that
    `CommandParser.execute` runs with its output captured. */
module Nlp {
  import opened Wrappers
  import opened Text
  import opened Terminal
  import opened FileSystem
  import opened Parser
  import Schema

  // ---------------------------------------------------------------- function calls

  /** The arguments of a function call: the string-valued ones, and the `files` list. */
  datatype CallArgs = CallArgs(text: map<string, string>, files: Option<seq<string>>)

  /** `func_args.get(key, default)` for a string argument. */
  function Get(a: CallArgs, key: string, default: string): string {
    if key in a.text then a.text[key] else default
  }

  /** `func_args.get(key)`, which is `None` when the argument is absent. */
  function Find(a: CallArgs, key: string): Option<string> {
    if key in a.text then Some(a.text[key]) else None
  }

  /** The functions `handle_function_call` knows. */
  datatype Fn = ListDirectory | PrintWorkingDirectory | ChangeDirectory | MakeDirectory | CatFile
              | RemovePath | MovePath | ShowCpu | ShowMemory | ListProcesses | ShowHelp | ExitTerminal

  /** The chain of name comparisons: which function a name selects, if any. */
  function FnNamed(name: string): Option<Fn> {
    if name == "list_directory" then Some(ListDirectory)
    else if name == "print_working_directory" then Some(PrintWorkingDirectory)
    else if name == "change_directory" then Some(ChangeDirectory)
    else if name == "make_directory" then Some(MakeDirectory)
    else if name == "cat_file" then Some(CatFile)
    else if name == "remove_path" then Some(RemovePath)
    else if name == "move_path" then Some(MovePath)
    else if name == "show_cpu" then Some(ShowCpu)
    else if name == "show_memory" then Some(ShowMemory)
    else if name == "list_processes" then Some(ListProcesses)
    else if name == "show_help" then Some(ShowHelp)
    else if name == "exit_terminal" then Some(ExitTerminal)
    else None
  }

  /** The name each function is declared under. */
  function NameOf(f: Fn): string {
    match f
    case ListDirectory => Schema.ListDirectory.name
    case PrintWorkingDirectory => Schema.PrintWorkingDirectory.name
    case ChangeDirectory => Schema.ChangeDirectory.name
    case MakeDirectory => Schema.MakeDirectory.name
    case CatFile => Schema.CatFile.name
    case RemovePath => Schema.RemovePath.name
    case MovePath => Schema.MovePath.name
    case ShowCpu => Schema.ShowCpu.name
    case ShowMemory => Schema.ShowMemory.name
    case ListProcesses => Schema.ListProcesses.name
    case ShowHelp => Schema.ShowHelp.name
    case ExitTerminal => Schema.ExitTerminal.name
  }

  /** A name selects a function exactly when it is that function's declared name. */
  lemma NamedIff(name: string, f: Fn)
    ensures FnNamed(name) == Some(f) <==> name == NameOf(f)
  {
    match f
    case ListDirectory =>
    case PrintWorkingDirectory =>
    case ChangeDirectory =>
    case MakeDirectory =>
    case CatFile =>
    case RemovePath =>
    case MovePath =>
    case ShowCpu =>
    case ShowMemory =>
    case ListProcesses =>
    case ShowHelp =>
    case ExitTerminal =>
  }

  /** Every declared function has a handler, and every other name falls through. */
  lemma DeclaredIffHandled(name: string)
    ensures FnNamed(name).Some? <==> Schema.Declared(name)
  {
    if FnNamed(name).Some? {
      var f := FnNamed(name).value;
      NamedIff(name, f);
      NameListed(f);
    }
    if Schema.Declared(name) {
      var i :| 0 <= i < |Schema.DeclaredNames| && Schema.DeclaredNames[i] == name;
      ListedNamed(i);
    }
  }

  lemma NameListed(f: Fn)
    ensures NameOf(f) in Schema.DeclaredNames
  {
    var ds := Schema.DeclaredNames;
    match f
    case ListDirectory => assert ds[0] == NameOf(f);
    case PrintWorkingDirectory => assert ds[1] == NameOf(f);
    case ChangeDirectory => assert ds[2] == NameOf(f);
    case MakeDirectory => assert ds[3] == NameOf(f);
    case MovePath => assert ds[4] == NameOf(f);
    case CatFile => assert ds[5] == NameOf(f);
    case RemovePath => assert ds[6] == NameOf(f);
    case ShowCpu => assert ds[7] == NameOf(f);
    case ShowMemory => assert ds[8] == NameOf(f);
    case ListProcesses => assert ds[9] == NameOf(f);
    case ShowHelp => assert ds[10] == NameOf(f);
    case ExitTerminal => assert ds[11] == NameOf(f);
  }

  lemma ListedNamed(i: nat)
    requires i < |Schema.DeclaredNames|
    ensures FnNamed(Schema.DeclaredNames[i]).Some?
  {
    var n := Schema.DeclaredNames[i];
    if i < 6 {
      assert n == "list_directory" || n == "print_working_directory" || n == "change_directory" ||
        n == "make_directory" || n == "move_path" || n == "cat_file";
    } else {
      assert n == "remove_path" || n == "show_cpu" || n == "show_memory" ||
        n == "list_processes" || n == "show_help" || n == "exit_terminal";
    }
  }

  /** What handling one call does: run a command line with its output captured
      (`keeps` when the captured text becomes the call's result, otherwise the
      result is empty), end the program, or report the name as unknown. */
  datatype Action = Issue(line: string, content: Option<string>, keeps: bool) | Leave | Unimplemented

  /** `handle_function_call`'s branches: the line each function runs. */
  function Translate(name: string, a: CallArgs): Action {
    match FnNamed(name)
    case None => Unimplemented
    case Some(f) => Act(f, a)
  }

  function Act(f: Fn, a: CallArgs): Action {
    match f
    case ListDirectory => Issue(Strip("ls " + Get(a, "path", "")), None, true)
    case PrintWorkingDirectory => Issue("pwd", None, true)
    case ChangeDirectory => Issue("cd " + Get(a, "path", ""), None, true)
    case MakeDirectory => Issue("mkdir " + Get(a, "path", ""), None, true)
    case CatFile => CatCall(a)
    case RemovePath => Issue("rm " + Get(a, "path", ""), None, true)
    case MovePath => Issue("mv " + Get(a, "source", "") + " " + Get(a, "destination", ""), None, false)
    case ShowCpu => Issue("cpu", None, true)
    case ShowMemory => Issue("mem", None, true)
    case ListProcesses => Issue("processes", None, true)
    case ShowHelp => Issue("help", None, true)
    case ExitTerminal => Leave
  }

  /** `cat_file`: the files joined by spaces, then a redirection to a non-empty
      target when the mode writes or appends; any other mode drops the target
      and the content. */
  function CatCall(a: CallArgs): Action {
    var files := if a.files.Some? then a.files.value else [];
    var names := Join(" ", files);
    var target := Find(a, "target");
    var mode := Get(a, "mode", "read");
    if target.Some? && target.value != "" then
      if mode == "write" || mode == "append" then
        Issue("cat " + names + " " + (if mode == "write" then ">" else ">>") + " " + target.value,
          Find(a, "content"), false)
      else Issue("cat " + names, None, false)
    else Issue("cat " + names, Find(a, "content"), false)
  }

  function NotImplementedText(name: string): string {
    "[red]Function '" + name + "' is not implemented yet[/red]"
  }

  /** Only `exit_terminal` ends the program. */
  lemma LeaveOnlyOnExit(name: string, a: CallArgs)
    ensures Translate(name, a) == Leave <==> name == "exit_terminal"
  {
    if FnNamed(name).Some? {
      NamedIff(name, FnNamed(name).value);
    }
  }

  /** The command each function is meant to reach. */
  function Reaches(f: Fn): Handler
    requires f != ExitTerminal
  {
    match f
    case ListDirectory => Ls
    case PrintWorkingDirectory => Pwd
    case ChangeDirectory => Cd
    case MakeDirectory => Mkdir
    case CatFile => Cat
    case RemovePath => Rm
    case MovePath => Mv
    case ShowCpu => Cpu
    case ShowMemory => Mem
    case ListProcesses => Processes
    case ShowHelp => Help
  }

  /** The word that command is registered under. */
  function Word(f: Fn): string
    requires f != ExitTerminal
  {
    match f
    case ListDirectory => "ls"
    case PrintWorkingDirectory => "pwd"
    case ChangeDirectory => "cd"
    case MakeDirectory => "mkdir"
    case CatFile => "cat"
    case RemovePath => "rm"
    case MovePath => "mv"
    case ShowCpu => "cpu"
    case ShowMemory => "mem"
    case ListProcesses => "processes"
    case ShowHelp => "help"
  }

  lemma WordRegistered(f: Fn)
    requires f != ExitTerminal
    ensures Word(f) in Registry && Registry[Word(f)] == Reaches(f) && IsTypedWord(Word(f))
  {
  }

  /** A registered word alone on a line runs its command with no arguments. */
  lemma CommandWord(cmd: string)
    requires cmd in Registry && IsTypedWord(cmd)
    ensures Dispatch(cmd) == Known(Registry[cmd], [])
  {
    assert Join(" ", [cmd] + []) == cmd;
    WordsDispatch(cmd, []);
  }

  /** A registered word, a space and one plain argument. */
  lemma CommandWithArgument(cmd: string, arg: string)
    requires cmd in Registry && IsTypedWord(cmd) && IsTypedWord(arg)
    ensures Dispatch(cmd + " " + arg) == Known(Registry[cmd], [arg])
  {
    assert Join(" ", [cmd] + [arg]) == cmd + " " + arg;
    WordsDispatch(cmd, [arg]);
  }

  /** A registered word followed by plain words joined with spaces. */
  lemma CommandWithArguments(cmd: string, args: seq<string>)
    requires cmd in Registry && IsTypedWord(cmd)
    requires args != [] && forall k :: 0 <= k < |args| ==> IsTypedWord(args[k])
    ensures Dispatch(cmd + " " + Join(" ", args)) == Known(Registry[cmd], args)
  {
    assert ([cmd] + args)[1..] == args;
    assert Join(" ", [cmd] + args) == cmd + " " + Join(" ", args);
    WordsDispatch(cmd, args);
  }

  /** The argument-free calls run their command alone and keep what it prints. */
  lemma PlainCall(f: Fn, a: CallArgs)
    requires f in {PrintWorkingDirectory, ShowCpu, ShowMemory, ListProcesses, ShowHelp}
    ensures Act(f, a).Issue? && Act(f, a).keeps && Act(f, a).content == None
    ensures Dispatch(Act(f, a).line) == Known(Reaches(f), [])
  {
    var line := Act(f, a).line;
    WordRegistered(f);
    assert line == Word(f);
    CommandWord(line);
  }

  /** A path argument is the single argument of `cd`, `mkdir` and `rm`. */
  lemma PathCall(f: Fn, a: CallArgs)
    requires f in {ChangeDirectory, MakeDirectory, RemovePath}
    requires "path" in a.text && IsTypedWord(a.text["path"])
    ensures Act(f, a).Issue? && Act(f, a).keeps && Act(f, a).content == None
    ensures Dispatch(Act(f, a).line) == Known(Reaches(f), [a.text["path"]])
  {
    WordRegistered(f);
    assert Act(f, a).line == Word(f) + " " + a.text["path"];
    CommandWithArgument(Word(f), a.text["path"]);
  }

  /** Without a path `list_directory` runs a bare `ls`: the strip removes the trailing space. */
  lemma ListLineBare(a: CallArgs)
    requires Get(a, "path", "") == ""
    ensures Act(ListDirectory, a).line == Word(ListDirectory)
  {
    var raw := "ls " + Get(a, "path", "");
    StripTrailingSpace(raw[..2]);
    assert raw == raw[..2] + " ";
  }

  /** With a plain path it runs `ls` and the path. */
  lemma ListLinePath(a: CallArgs)
    requires "path" in a.text && IsTypedWord(a.text["path"])
    ensures Act(ListDirectory, a).line == Word(ListDirectory) + " " + a.text["path"]
  {
    var path := a.text["path"];
    var raw := "ls " + path;
    assert Act(ListDirectory, a).line == Strip(raw);
    assert Strip(raw) == raw by {
      assert path != [] && !IsSpace(path[|path| - 1]);
      assert raw[|raw| - 1] == path[|path| - 1] && !IsSpace(raw[0]);
      StripUnpadded(raw);
    }
    assert Word(ListDirectory) + " " == "ls ";
  }

  /** `list_directory` without a path lists the working directory; with one it
      lists that path. */
  lemma ListCall(a: CallArgs)
    requires "path" in a.text ==> a.text["path"] == "" || IsTypedWord(a.text["path"])
    ensures Act(ListDirectory, a).Issue? && Act(ListDirectory, a).keeps
    ensures Dispatch(Act(ListDirectory, a).line) ==
      Known(Ls, if Get(a, "path", "") == "" then [] else [a.text["path"]])
  {
    WordRegistered(ListDirectory);
    if Get(a, "path", "") == "" {
      ListLineBare(a);
      CommandWord(Word(ListDirectory));
    } else {
      ListLinePath(a);
      CommandWithArgument(Word(ListDirectory), a.text["path"]);
    }
  }

  /** `move_path` runs `mv` with both ends; its printed report is not the result. */
  lemma MoveCall(a: CallArgs)
    requires "source" in a.text && IsTypedWord(a.text["source"])
    requires "destination" in a.text && IsTypedWord(a.text["destination"])
    ensures Act(MovePath, a).Issue? && !Act(MovePath, a).keeps
    ensures Dispatch(Act(MovePath, a).line) == Known(Mv, [a.text["source"], a.text["destination"]])
  {
    var src, dst := a.text["source"], a.text["destination"];
    WordRegistered(MovePath);
    assert Join(" ", [src, dst]) == src + " " + dst;
    assert Act(MovePath, a).line == Word(MovePath) + " " + Join(" ", [src, dst]);
    CommandWithArguments(Word(MovePath), [src, dst]);
  }

  /** The redirection operator a writing mode selects. */
  function Operator(a: CallArgs): string {
    if Get(a, "mode", "read") == "write" then ">" else ">>"
  }

  /** The line of a writing `cat_file`: the names, the operator and the target, joined by spaces. */
  lemma CatWriteLine(a: CallArgs)
    requires a.files.Some? && a.files.value != []
    requires "target" in a.text && a.text["target"] != ""
    requires Get(a, "mode", "read") == "write" || Get(a, "mode", "read") == "append"
    ensures Act(CatFile, a) ==
      Issue(Word(CatFile) + " " + Join(" ", a.files.value + [Operator(a), a.text["target"]]), Find(a, "content"), false)
  {
    var files, op, target := a.files.value, Operator(a), a.text["target"];
    JoinSnoc(" ", files, op);
    JoinSnoc(" ", files + [op], target);
    assert files + [op] + [target] == files + [op, target];
  }

  /** Writing or appending to a target runs `cat` with a redirection, hands the
      content on, and discards what it prints. */
  lemma CatWriteCall(a: CallArgs)
    requires a.files.Some? && a.files.value != []
    requires forall k :: 0 <= k < |a.files.value| ==> IsTypedWord(a.files.value[k])
    requires "target" in a.text && IsTypedWord(a.text["target"])
    requires Get(a, "mode", "read") == "write" || Get(a, "mode", "read") == "append"
    ensures var c := Act(CatFile, a);
      c.Issue? && !c.keeps && c.content == Find(a, "content") &&
      Dispatch(c.line) ==
        Known(Cat, a.files.value + [if Get(a, "mode", "read") == "write" then ">" else ">>", a.text["target"]])
  {
    CatWriteLine(a);
    var files, op := a.files.value, Operator(a);
    var words := files + [op, a.text["target"]];
    assert IsTypedWord(op) by {
      assert forall k :: 0 <= k < |op| ==> op[k] == '>';
    }
    forall k | 0 <= k < |words|
      ensures IsTypedWord(words[k])
    {
      if k < |files| {
        assert words[k] == files[k];
      }
    }
    WordRegistered(CatFile);
    CommandWithArguments(Word(CatFile), words);
  }

  /** A mode that neither writes nor appends runs a plain `cat` of the files:
      the target and the content are dropped. */
  lemma CatReadCall(a: CallArgs)
    requires a.files.Some? && a.files.value != []
    requires forall k :: 0 <= k < |a.files.value| ==> IsTypedWord(a.files.value[k])
    requires "target" in a.text && a.text["target"] != ""
    requires Get(a, "mode", "read") != "write" && Get(a, "mode", "read") != "append"
    ensures var c := Act(CatFile, a);
      c.Issue? && !c.keeps && c.content == None && Dispatch(c.line) == Known(Cat, a.files.value)
  {
    WordRegistered(CatFile);
    assert Act(CatFile, a).line == Word(CatFile) + " " + Join(" ", a.files.value);
    CommandWithArguments(Word(CatFile), a.files.value);
  }

  /** The names are joined with plain spaces, so one name that holds a space
      reaches `cat` as two. */
  lemma CatNameSplit(a: CallArgs, x: string, y: string)
    requires IsTypedWord(x) && IsTypedWord(y)
    requires a == CallArgs(map[], Some([x + " " + y]))
    ensures Dispatch(Act(CatFile, a).line) == Known(Cat, [x, y])
  {
    assert Join(" ", [x, y]) == x + " " + y;
    WordRegistered(CatFile);
    assert Act(CatFile, a).line == Word(CatFile) + " " + Join(" ", [x, y]);
    CommandWithArguments(Word(CatFile), [x, y]);
  }

  /** What handling a call produced: the result text, or the process exited. */
  datatype Handled = Result(text: string) | Exit

  // ---------------------------------------------------------------- the conversation

  /** A part of a message: text, a call the model asks for, or a call's result
      (`Part.from_function_response`). */
  datatype Part = TextPart(text: string) | CallPart(name: string, args: CallArgs) | ResponsePart(name: string, result: string)

  /** `types.Content`. */
  datatype Message = Message(role: string, parts: seq<Part>)

  /** What `generate_content` gives: an error, or the candidates of a response. */
  datatype Reply = ApiError(msg: string) | Replied(candidates: seq<Message>)

  /** How a request ended: the loop carries on, or the process stops because
      the model asked to exit or an exception escaped. */
  datatype Ending = Carried | Exited | Crashed

  /** `part.text`, which prints as `None` on a part that holds no text. */
  function PartText(p: Part): string {
    if p.TextPart? then p.text else "None"
  }

  /** `response.text`: the texts of the first candidate's text parts, or `None`
      when there are none. */
  function ReplyText(cs: seq<Message>): (r: string)
    ensures cs != [] && |cs[0].parts| == 1 && cs[0].parts[0].TextPart? ==> r == cs[0].parts[0].text
  {
    var t := if cs == [] then [] else Texts(cs[0].parts);
    if t == [] then "None" else Join("", t)
  }

  function Texts(ps: seq<Part>): (r: seq<string>)
    ensures |r| <= |ps|
    ensures (forall k :: 0 <= k < |ps| ==> !ps[k].TextPart?) ==> r == []
  {
    if ps == [] then [] else (if ps[0].TextPart? then [ps[0].text] else []) + Texts(ps[1..])
  }

  /** The first request: the user's text alone. */
  function Opening(request: string): seq<Message> {
    [Message("user", [TextPart(request)])]
  }

  /** The request that follows a call: the opening, the model's message, and the
      call's result under the function's name. */
  function FollowUp(request: string, model: Message, name: string, result: string): (c: seq<Message>)
    ensures |c| == 3 && c[..1] == Opening(request) && c[1] == model
    ensures c[2] == Message("function", [ResponsePart(name, result)])
  {
    Opening(request) + [model] + [Message("function", [ResponsePart(name, result)])]
  }

  /** What handling one call went through: its result `h`, what `execute`
      returned (`raw`) and the outcome `o` of the command it ran, and the
      streams `sinks`, with `sys.stdout` at `current`, as the call left them. */
  datatype Call = Call(h: Handled, raw: Option<string>, o: Outcome, sinks: seq<string>, current: nat)

  const Goodbye := "Hope we meet again ^_^"
  const Leaving := "Exiting PyTerminal..."

  /** `handle_function_call(name, args)` from session `s`, with the streams
      `before` and `sys.stdout` at `before[cur]`, went through `c` and left the
      session `t`: a translated command runs through `execute` with its output
      captured, and its captured text is the result when the function keeps
      it; `exit_terminal` prints the two farewells; any other name is
      answered as not implemented and changes nothing. */
  ghost predicate CallHandled(readings: Handler -> string, name: string, a: CallArgs,
                              s: Session, before: seq<string>, cur: nat, c: Call, t: Session)
  {
    ValidSession(s) && cur < |before| && c.current < |c.sinks| &&
    match Translate(name, a)
    case Issue(line, content, keeps) =>
      Executes(readings, line, true, content, s, before, cur, c.raw, c.o, c.sinks, c.current) &&
      t == c.o.after && c.raw.Some? && c.h == Result(if keeps then c.raw.value else "")
    case Leave =>
      c.h == Exit && t == s && c.current == cur &&
      c.sinks == before[cur := before[cur] + Say(Goodbye) + Say(Leaving)]
    case Unimplemented =>
      c.h == Result(NotImplementedText(name)) && t == s && c.current == cur && c.sinks == before
  }

  /** The model's call `name(a)`, made in `model` in answer to `request`, was
      handled as `c` (from `s`, `before`, `cur` to `t`, `c.sinks`, `c.current`);
      unless it exited, its result went back in the request `second`, whose
      answer is printed, and whose failure raises. The streams end as `sinks`
      with `sys.stdout` at `current`. */
  ghost predicate CallAnswered(readings: Handler -> string, llm: seq<Message> -> Reply, request: string,
                               model: Message, name: string, a: CallArgs,
                               s: Session, before: seq<string>, cur: nat, c: Call, t: Session,
                               ending: Ending, second: Option<seq<Message>>, sinks: seq<string>, current: nat)
  {
    CallHandled(readings, name, a, s, before, cur, c, t) && current == c.current &&
    match c.h
    case Exit => ending == Exited && second == None && sinks == c.sinks
    case Result(result) =>
      second == Some(FollowUp(request, model, name, result)) &&
      match llm(second.value)
      case ApiError(_) => ending == Crashed && sinks == c.sinks
      case Replied(final) =>
        ending == Carried && sinks == c.sinks[c.current := c.sinks[c.current] + Say(ReplyText(final))]
  }

  /** `process_nlp_input(request)` from session `s`, with the streams `before`
      and `sys.stdout` at `before[cur]`, sent the requests `asked`, and left the
      session `t` and the streams `sinks` with `sys.stdout` at `current`: a
      failed first request is reported; an answer with no candidate or no part
      raises; a function call is handled and answered as `CallAnswered` says
      (`c` being what the call went through); any other part is printed. */
  ghost predicate Conversed(readings: Handler -> string, llm: seq<Message> -> Reply, request: string,
                            s: Session, before: seq<string>, cur: nat,
                            ending: Ending, asked: seq<seq<Message>>, c: Call, t: Session,
                            sinks: seq<string>, current: nat)
  {
    ValidSession(s) && cur < |before| && 1 <= |asked| <= 2 && asked[0] == Opening(request) &&
    match llm(asked[0])
    case ApiError(m) =>
      |asked| == 1 && ending == Carried && t == s && current == cur &&
      sinks == before[cur := before[cur] + Say("Error calling Gemini API: " + m)]
    case Replied(cs) =>
      if cs == [] || cs[0].parts == [] then
        |asked| == 1 && ending == Crashed && t == s && current == cur && sinks == before
      else if cs[0].parts[0].CallPart? then
        CallAnswered(readings, llm, request, cs[0], cs[0].parts[0].name, cs[0].parts[0].args,
          s, before, cur, c, t, ending, if |asked| == 2 then Some(asked[1]) else None, sinks, current)
      else
        |asked| == 1 && ending == Carried && t == s && current == cur &&
        sinks == before[cur := before[cur] + Say(PartText(cs[0].parts[0]))]
  }

  /** `handle_function_call`: runs the call's command line through `execute` with
      its output captured, prints two farewell lines for `exit_terminal`, or
      returns the not-implemented message for any other name. */
  method HandleFunctionCall(p: CommandParser, name: string, a: CallArgs)
    returns (h: Handled, ghost raw: Option<string>, ghost o: Outcome)
    requires p.Valid()
    modifies p.files, p.console
    ensures p.Valid() && |p.console.input| <= old(|p.console.input|)
    ensures CallHandled(p.readings, name, a, old(p.State()), old(p.console.sinks), old(p.console.current),
      Call(h, raw, o, p.console.sinks, p.console.current), p.State())
  {
    o := Unchanged(p.State(), "");
    raw := None;
    match Translate(name, a) {
      case Issue(line, content, keeps) =>
        var r;
        r, o := p.Execute(line, true, content);
        raw := r;
        h := Result(if keeps then r.value else "");
      case Leave =>
        ghost var c := p.console.current;
        p.console.Print(Goodbye);
        p.console.Print(Leaving);
        Appended(old(p.console.sinks), c, old(p.console.sinks)[c], Say(Goodbye), Say(Leaving));
        h := Exit;
      case Unimplemented =>
        h := Result(NotImplementedText(name));
    }
  }

  /** `process_nlp_input`: asks the model about the user's text, as
      `Conversed` says. `llm` stands for the model, `asked` are the requests
      sent and `c` is what a function call went through. */
  method ProcessNlpInput(p: CommandParser, llm: seq<Message> -> Reply, request: string)
    returns (ending: Ending, ghost asked: seq<seq<Message>>, ghost c: Call)
    requires p.Valid()
    modifies p.files, p.console
    ensures p.Valid() && |p.console.input| <= old(|p.console.input|)
    ensures Conversed(p.readings, llm, request, old(p.State()), old(p.console.sinks), old(p.console.current),
      ending, asked, c, p.State(), p.console.sinks, p.console.current)
  {
    c := Call(Exit, None, Unchanged(p.State(), ""), p.console.sinks, p.console.current);
    var contents := Opening(request);
    asked := [contents];
    var response := llm(contents);
    if response.ApiError? {
      p.console.Print("Error calling Gemini API: " + response.msg);
      return Carried, asked, c;
    }
    if response.candidates == [] || response.candidates[0].parts == [] {
      return Crashed, asked, c;
    }
    var candidate := response.candidates[0];
    var part := candidate.parts[0];
    if !part.CallPart? {
      p.console.Print(PartText(part));
      return Carried, asked, c;
    }
    ghost var second;
    ending, second, c := AnswerCall(p, llm, request, candidate, part.name, part.args);
    if second.Some? {
      asked := asked + [second.value];
    }
  }

  /** The model asked for function `name`: the call is handled, and unless it
      exited, its result goes back in a second request (`second`) whose answer
      is printed; a failing second request raises out of the read-eval loop.
      `c` is what handling the call went through. */
  method AnswerCall(p: CommandParser, llm: seq<Message> -> Reply, request: string, model: Message,
                    name: string, a: CallArgs)
    returns (ending: Ending, ghost second: Option<seq<Message>>, ghost c: Call)
    requires p.Valid()
    modifies p.files, p.console
    ensures p.Valid() && |p.console.input| <= old(|p.console.input|)
    ensures CallAnswered(p.readings, llm, request, model, name, a,
      old(p.State()), old(p.console.sinks), old(p.console.current), c, p.State(),
      ending, second, p.console.sinks, p.console.current)
  {
    var handled, raw, o := HandleFunctionCall(p, name, a);
    c := Call(handled, raw, o, p.console.sinks, p.console.current);
    if handled.Exit? {
      return Exited, None, c;
    }
    var sent := handled.text;
    var contents := Opening(request);
    contents := contents + [model];
    contents := contents + [Message("function", [ResponsePart(name, sent)])];
    second := Some(contents);
    ending := Relay(p, llm, contents);
  }

  /** The second request: its answer is printed, and a failure raises. */
  method Relay(p: CommandParser, llm: seq<Message> -> Reply, contents: seq<Message>) returns (ending: Ending)
    requires p.Valid()
    modifies p.console
    ensures p.Valid() && p.State() == old(p.State()) && p.console.current == old(p.console.current)
    ensures match llm(contents)
      case ApiError(_) => ending == Crashed && p.console.sinks == old(p.console.sinks)
      case Replied(final) =>
        ending == Carried &&
        p.console.sinks == old(p.console.sinks)[old(p.console.current) :=
          old(p.console.sinks)[old(p.console.current)] + Say(ReplyText(final))]
  {
    var last := llm(contents);
    if last.ApiError? {
      return Crashed;
    }
    p.console.Print(ReplyText(last.candidates));
    ending := Carried;
  }

  // ---------------------------------------------------------------- what a conversation does

  /** A first answer that calls a function takes the call branch of `Conversed`. */
  lemma CallBranch(readings: Handler -> string, llm: seq<Message> -> Reply, request: string,
                   s: Session, before: seq<string>, cur: nat, ending: Ending, asked: seq<seq<Message>>,
                   c: Call, t: Session, sinks: seq<string>, current: nat,
                   cs: seq<Message>, name: string, a: CallArgs)
    requires Conversed(readings, llm, request, s, before, cur, ending, asked, c, t, sinks, current)
    requires llm(Opening(request)) == Replied(cs) && cs != [] && cs[0].parts != []
    requires cs[0].parts[0] == CallPart(name, a)
    ensures 1 <= |asked| <= 2 && asked[0] == Opening(request)
    ensures CallAnswered(readings, llm, request, cs[0], name, a, s, before, cur, c, t, ending,
      if |asked| == 2 then Some(asked[1]) else None, sinks, current)
  {
  }

  /** A first answer that calls `exit_terminal` prints the farewells, sends no
      second request and ends the program, with the session untouched. */
  lemma ExitCallEnds(readings: Handler -> string, llm: seq<Message> -> Reply, request: string,
                     s: Session, before: seq<string>, cur: nat, ending: Ending, asked: seq<seq<Message>>,
                     c: Call, t: Session, sinks: seq<string>, current: nat, cs: seq<Message>, a: CallArgs)
    requires Conversed(readings, llm, request, s, before, cur, ending, asked, c, t, sinks, current)
    requires llm(Opening(request)) == Replied(cs) && cs != [] && cs[0].parts != []
    requires cs[0].parts[0] == CallPart("exit_terminal", a)
    ensures ending == Exited && asked == [Opening(request)] && t == s && current == cur
    ensures sinks == before[cur := before[cur] + Say(Goodbye) + Say(Leaving)]
  {
    CallBranch(readings, llm, request, s, before, cur, ending, asked, c, t, sinks, current, cs, "exit_terminal", a);
    LeaveOnlyOnExit("exit_terminal", a);
  }

  /** Any other call is answered: a second request carries its result back,
      the program goes on unless that request fails, and the answer is printed
      where the call left `sys.stdout`. */
  lemma OtherCallAnswered(readings: Handler -> string, llm: seq<Message> -> Reply, request: string,
                          s: Session, before: seq<string>, cur: nat, ending: Ending, asked: seq<seq<Message>>,
                          c: Call, t: Session, sinks: seq<string>, current: nat,
                          cs: seq<Message>, name: string, a: CallArgs)
    requires Conversed(readings, llm, request, s, before, cur, ending, asked, c, t, sinks, current)
    requires llm(Opening(request)) == Replied(cs) && cs != [] && cs[0].parts != []
    requires cs[0].parts[0] == CallPart(name, a) && name != "exit_terminal"
    ensures c.h.Result? && |asked| == 2 && asked[1] == FollowUp(request, cs[0], name, c.h.text)
    ensures ending != Exited && (ending == Crashed <==> llm(asked[1]).ApiError?)
    ensures current == c.current
    ensures FnNamed(name) == None ==>
      c.h.text == NotImplementedText(name) && t == s && sinks[current] ==
        before[cur] + (if llm(asked[1]).Replied? then Say(ReplyText(llm(asked[1]).candidates)) else "")
  {
    CallBranch(readings, llm, request, s, before, cur, ending, asked, c, t, sinks, current, cs, name, a);
    LeaveOnlyOnExit(name, a);
  }

  /** A call whose command runs without raising and whose output the function
      keeps: the command's output is captured, not shown, and goes back to the
      model stripped; the terminal then shows only the model's answer. */
  lemma CapturedOutputSentBack(readings: Handler -> string, llm: seq<Message> -> Reply, request: string,
                               s: Session, before: seq<string>, cur: nat, ending: Ending,
                               asked: seq<seq<Message>>, c: Call, t: Session, sinks: seq<string>, current: nat,
                               cs: seq<Message>, name: string, a: CallArgs)
    requires Conversed(readings, llm, request, s, before, cur, ending, asked, c, t, sinks, current)
    requires llm(Opening(request)) == Replied(cs) && cs != [] && cs[0].parts != []
    requires cs[0].parts[0] == CallPart(name, a)
    requires Translate(name, a).Issue? && Translate(name, a).keeps
    requires Dispatch(Translate(name, a).line).Known? && c.o.raised == None
    ensures |asked| == 2 && asked[1] == FollowUp(request, cs[0], name, Strip(c.o.out))
    ensures t == c.o.after && current == cur && |sinks| == |before| + 1 && sinks[|before|] == c.o.out
    ensures llm(asked[1]).Replied? ==>
      ending == Carried && sinks[cur] == before[cur] + Say(ReplyText(llm(asked[1]).candidates))
  {
    CallBranch(readings, llm, request, s, before, cur, ending, asked, c, t, sinks, current, cs, name, a);
    assert CallHandled(readings, name, a, s, before, cur, c, t);
    var Issue(line, content, keeps) := Translate(name, a);
    assert Executes(readings, line, true, content, s, before, cur, c.raw, c.o, c.sinks, c.current);
    CaptureReturnsOutput(readings, line, content, s, before, cur, c.raw, c.o, c.sinks, c.current);
  }
}
