/** `main.py`: the read-eval loop. Each round prompts with the working
    directory, reads a line, and routes it: `exit` or `quit` ends the loop,
    a line starting with `!ai` goes to the language model, and anything else
    to `CommandParser.execute`. */
module Repl {
  import opened Wrappers
  import opened Text
  import opened Paths
  import opened Disk
  import opened Terminal
  import opened FileSystem
  import opened Parser
  import opened Nlp

  /** Where a line goes. */
  datatype Choice = Quit | Ask(request: string) | Shell(line: string)

  /** The tests of the loop body, in their order: the quit words first (the
      line stripped and lower-cased), then the `!ai` prefix on the raw line. */
  function Route(line: string): Choice {
    var word := Lower(Strip(line));
    if word == "exit" || word == "quit" then Quit
    else if StartsWith(line, "!ai") then Ask(Strip(RemoveFirst(line, "!ai")))
    else Shell(line)
  }

  /** A line that starts with `!ai` always reaches the model, with the rest of
      the line stripped, even when that rest is `exit`. */
  lemma AskPrefix(line: string)
    requires StartsWith(line, "!ai")
    ensures Route(line) == Ask(Strip(line[3..]))
  {
    assert line[..3] == "!ai";
    assert line[0] == '!';
    StripKeepsFirst(line);
    var word := Lower(Strip(line));
    assert word[0] == '!';
    assert word != "exit" && word != "quit" by {
      assert "exit"[0] == 'e' && "quit"[0] == 'q';
    }
  }

  /** Leading spaces do not hide the `!ai` prefix: `Prompt.ask` strips them first. */
  lemma IndentedAsk(pad: string, rest: string)
    requires AllSpace(pad)
    ensures Route(Strip(pad + "!ai" + rest)).Ask?
  {
    var w := "!ai" + rest;
    assert pad + "!ai" + rest == pad + w;
    assert w[..3] == "!ai";
    StripPaddedStart(pad, w);
    AskPrefix(Strip(pad + w));
  }

  /** Stripping leading whitespace and whatever trails keeps a word's first
      three characters when none of them is whitespace. */
  lemma StripPaddedStart(pad: string, w: string)
    requires AllSpace(pad) && |w| >= 3 && !IsSpace(w[0]) && !IsSpace(w[1]) && !IsSpace(w[2])
    ensures |Strip(pad + w)| >= 3 && Strip(pad + w)[..3] == w[..3]
  {
    TrimLeftPadded(pad, w);
    var r := TrimRight(w);
    assert r == w[..|r|] && AllSpace(w[|r|..]);
    assert |r| >= 3;
    assert r[..3] == w[..3];
  }

  /** A string that starts with a non-space keeps that first character through the strip. */
  lemma StripKeepsFirst(s: string)
    requires s != [] && !IsSpace(s[0])
    ensures Strip(s) != [] && Strip(s)[0] == s[0]
  {
    assert TrimLeft(s) == s;
    var r := TrimRight(s);
    if |r| < |s| {
      assert s[|r|..][0] == s[|r|];
    }
  }

  /** The quit words are recognised in any case and with whitespace around them. */
  lemma QuitWords(pad: string, w: string, pad2: string)
    requires AllSpace(pad) && AllSpace(pad2)
    requires Lower(w) == "exit" || Lower(w) == "quit"
    ensures Route(pad + w + pad2) == Quit
  {
    assert |w| == 4 && LowerChar(w[0]) != ' ' && LowerChar(w[3]) != ' ';
    assert !IsSpace(w[0]) && !IsSpace(w[3]);
    assert pad + w + pad2 == pad + (w + pad2);
    TrimLeftPadded(pad, w + pad2);
    TrimRightPadded(w, pad2);
    assert Strip(pad + w + pad2) == w;
  }

  /** A typed line that, once `Prompt.ask` has stripped it, is neither a quit
      word nor starts with `!ai` is a command, passed on as stripped. */
  lemma ShellOtherwise(text: string)
    requires !StartsWith(Strip(text), "!ai")
    requires Lower(Strip(text)) != "exit" && Lower(Strip(text)) != "quit"
    ensures Route(Strip(text)) == Shell(Strip(text))
  {
    StripIdempotent(text);
  }

  /** What `Prompt.ask` writes: the prompt with its markup rendered and the default `: ` suffix. */
  function PromptText(cwd: Path): string {
    "\nCurrent Directory: " + Render(cwd) + "\nPyTerminal>>: "
  }

  const Farewell := "Exiting PyTerminal..."
  const UseExit := "\nUse 'exit' to quit."

  /** Why the loop stopped: a quit word, end of input, `exit_terminal`, or an
      exception that nothing catches (the working directory gone, or a failure
      in the conversation with the model). */
  datatype Stop = Quitted | InputEnded | ModelExited | Raised

  /** The loop's verdict on how a request to the model ended. */
  function StopOf(e: Ending): Option<Stop> {
    match e
    case Carried => None
    case Exited => Some(ModelExited)
    case Crashed => Some(Raised)
  }

  /** One round of the loop: `None` carries on. `Prompt.ask` hands back the
      typed line stripped. A request to the model ends as `ending`, with the
      requests `asked` and the call `c` of `Conversed`; a command line returns
      `r` from `execute` with outcome `o`. */
  method Round(p: CommandParser, llm: seq<Message> -> Reply)
    returns (stop: Option<Stop>, ghost ending: Ending, ghost asked: seq<seq<Message>>, ghost c: Call,
             ghost r: Option<string>, ghost o: Outcome)
    requires p.Valid()
    modifies p.files, p.console
    ensures p.Valid() && |p.console.input| <= old(|p.console.input|)
    ensures stop.None? ==> |p.console.input| < old(|p.console.input|)
    ensures stop == Some(InputEnded) ==> p.State().process.Some?
    ensures old(p.State()).process.None? ==>
      stop == Some(Raised) && p.State() == old(p.State()) && p.console.sinks == old(p.console.sinks)
    ensures old(p.State()).process.Some? ==>
      var cur := old(p.console.current);
      var shown := old(p.console.sinks)[cur] + PromptText(old(p.State()).process.value);
      var ev := old(p.console.input);
      var rest := if ev == [] then [] else ev[1..];
      match (if ev == [] then EndOfInput else ev[0])
      case EndOfInput =>
        stop == Some(InputEnded) && p.State() == old(p.State()).(input := rest) &&
        p.console.current == cur && p.console.sinks == old(p.console.sinks)[cur := shown]
      case Interrupt =>
        stop == None && p.State() == old(p.State()).(input := ev[1..]) &&
        p.console.current == cur && p.console.sinks == old(p.console.sinks)[cur := shown + Say(UseExit)]
      case Line(text) =>
        Answered(p.readings, llm, Strip(text), old(p.State()).(input := ev[1..]),
          old(p.console.sinks)[cur := shown + Say("")], cur,
          stop, ending, asked, c, r, o, p.State(), p.console.sinks, p.console.current)
  {
    ending, asked, r := Carried, [], None;
    o := Unchanged(p.State(), "");
    c := Call(Exit, None, o, p.console.sinks, p.console.current);
    if p.files.process.None? {
      stop := Some(Raised);
      return;
    }
    ghost var cur := p.console.current;
    ghost var s0 := p.console.sinks;
    ghost var shown := s0[cur] + PromptText(p.files.process.value);
    p.console.Write(PromptText(p.files.process.value));
    var e := p.console.Read();
    match e {
      case EndOfInput =>
        stop := Some(InputEnded);
      case Interrupt =>
        p.console.Print(UseExit);
        Overwritten(s0, cur, shown, shown + Say(UseExit));
        stop := None;
      case Line(text) =>
        p.console.Print("");
        Overwritten(s0, cur, shown, shown + Say(""));
        stop, ending, asked, c, r, o := Respond(p, llm, Strip(text));
    }
  }

  /** The line `line` read from session `s`, with the streams `before` and
      `sys.stdout` at `before[cur]`, and answered, leaves the session `t` and
      the streams `sinks` with `sys.stdout` at `current`: a quit word prints
      the farewell and stops; a request to the model goes as `Conversed` says
      (ending as `ending`, with the requests `asked` and the call `c`), and
      stops when that ends the program; any other line runs through `execute`,
      which returns `r` with outcome `o`, and the loop goes on. */
  ghost predicate Answered(readings: Handler -> string, llm: seq<Message> -> Reply, line: string,
                           s: Session, before: seq<string>, cur: nat,
                           stop: Option<Stop>, ending: Ending, asked: seq<seq<Message>>, c: Call,
                           r: Option<string>, o: Outcome, t: Session, sinks: seq<string>, current: nat)
  {
    cur < |before| &&
    match Route(line)
    case Quit =>
      stop == Some(Quitted) && t == s && current == cur && sinks == before[cur := before[cur] + Say(Farewell)]
    case Ask(request) =>
      stop == StopOf(ending) && Conversed(readings, llm, request, s, before, cur, ending, asked, c, t, sinks, current)
    case Shell(command) =>
      stop == None && t == o.after && Executes(readings, command, false, None, s, before, cur, r, o, sinks, current)
  }

  /** The body of the loop once the line is read and the blank line printed. */
  method Respond(p: CommandParser, llm: seq<Message> -> Reply, line: string)
    returns (stop: Option<Stop>, ghost ending: Ending, ghost asked: seq<seq<Message>>, ghost c: Call,
             ghost r: Option<string>, ghost o: Outcome)
    requires p.Valid()
    modifies p.files, p.console
    ensures p.Valid() && |p.console.input| <= old(|p.console.input|)
    ensures stop != Some(InputEnded)
    ensures Answered(p.readings, llm, line, old(p.State()), old(p.console.sinks), old(p.console.current),
      stop, ending, asked, c, r, o, p.State(), p.console.sinks, p.console.current)
  {
    ending, asked, r := Carried, [], None;
    o := Unchanged(p.State(), "");
    c := Call(Exit, None, o, p.console.sinks, p.console.current);
    match Route(line) {
      case Quit =>
        p.console.Print(Farewell);
        stop := Some(Quitted);
      case Ask(request) =>
        var ended;
        ended, asked, c := ProcessNlpInput(p, llm, request);
        ending, stop := ended, StopOf(ended);
      case Shell(command) =>
        r, o := p.Execute(command, false, None);
        stop := None;
    }
  }

  /** `main`'s loop: rounds until one stops it; every round that carries on
      consumed at least one input event. */
  method Loop(p: CommandParser, llm: seq<Message> -> Reply) returns (stop: Stop)
    requires p.Valid()
    modifies p.files, p.console
    ensures p.Valid() && |p.console.input| <= old(|p.console.input|)
    ensures stop == InputEnded ==> p.State().process.Some?
  {
    var next: Option<Stop> := None;
    while next.None?
      invariant p.Valid() && |p.console.input| <= old(|p.console.input|)
      invariant next == Some(InputEnded) ==> p.State().process.Some?
      decreases if next.None? then 1 else 0, |p.console.input|
    {
      ghost var ending, asked, c, r, o;
      next, ending, asked, c, r, o := Round(p, llm);
    }
    stop := next.value;
  }
}
