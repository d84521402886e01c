/** The decisions the `cat` handler takes before it touches any file: which of
    its five behaviours an argument list selects, how `>` and `>>` split the
    arguments, and how interactively typed lines are cleaned. */
module Redirection {
  import opened Text
  import opened Wrappers

  /** `open(..., "w")` or `open(..., "a")`. */
  datatype Mode = Overwrite | Append

  function OpToken(m: Mode): string {
    if m == Append then ">>" else ">"
  }

  /** The split around the redirection operator. */
  datatype Redirect = Redirect(files: seq<string>, target: string, mode: Mode)

  predicate HasOperator(args: seq<string>) {
    ">" in args || ">>" in args
  }

  /** The operator that is acted on: `>>` whenever it occurs at all. */
  function ChosenMode(args: seq<string>): Mode {
    if ">>" in args then Append else Overwrite
  }

  /** `args.index(x)`. */
  function IndexOf(xs: seq<string>, x: string): (i: nat)
    requires x in xs
    ensures i < |xs| && xs[i] == x && x !in xs[..i]
  {
    if xs[0] == x then 0
    else
      var i := 1 + IndexOf(xs[1..], x);
      assert xs[..i] == [xs[0]] + xs[1..][..i - 1];
      i
  }

  /** `_handle_redirection`'s split: the sources are everything before the first
      occurrence of the chosen operator and the target is the token right after
      it; `None` is the `IndexError` reported as "invalid redirection usage". */
  function SplitRedirection(args: seq<string>): (r: Option<Redirect>)
    requires HasOperator(args)
    ensures r.None? <==>
      (args[|args| - 1] == OpToken(ChosenMode(args)) &&
       OpToken(ChosenMode(args)) !in args[..|args| - 1])
    ensures r.Some? ==>
      var rd := r.value;
      rd.mode == ChosenMode(args) &&
      |rd.files| + 1 < |args| &&
      args[..|rd.files|] == rd.files &&
      args[|rd.files|] == OpToken(rd.mode) &&
      OpToken(rd.mode) !in rd.files &&
      rd.target == args[|rd.files| + 1]
  {
    var op := OpToken(ChosenMode(args));
    var i := IndexOf(args, op);
    if i + 1 < |args| then Some(Redirect(args[..i], args[i + 1], ChosenMode(args)))
    else
      assert args[..|args| - 1] == args[..i];
      None
  }

  /** What `cat(args, content)` does. */
  datatype CatPlan =
    | MissingArguments                              // "cat: missing arguments"
    | Display(files: seq<string>)                   // print each file in turn
    | BadRedirection                                // "cat: invalid redirection usage"
    | WriteContent(target: string, mode: Mode, text: string)
    | Interactive(target: string)                   // read stdin, overwrite target
    | Concatenate(files: seq<string>, target: string, mode: Mode)

  function PlanCat(args: seq<string>, content: Option<string>): (r: CatPlan)
    ensures r == MissingArguments <==> args == [] && content == None
    ensures r.Display? <==> (args != [] || content.Some?) && !HasOperator(args)
    ensures r.Display? ==> r.files == args
    ensures r == BadRedirection <==> HasOperator(args) && SplitRedirection(args).None?
    ensures r.WriteContent? <==> HasOperator(args) && SplitRedirection(args).Some? && content.Some?
    ensures r.WriteContent? ==> r.text == content.value + "\n"
    ensures r.Interactive? <==>
      HasOperator(args) && content == None && SplitRedirection(args).Some? &&
      SplitRedirection(args).value.files == [] && SplitRedirection(args).value.mode == Overwrite
    ensures (r.WriteContent? || r.Interactive? || r.Concatenate?) ==>
      var rd := SplitRedirection(args).value;
      r.target == rd.target && (!r.Interactive? ==> r.mode == rd.mode)
    ensures r.Concatenate? ==> r.files == SplitRedirection(args).value.files && r.files + [OpToken(r.mode)] <= args
  {
    if args == [] && content == None then MissingArguments
    else if !HasOperator(args) then Display(args)
    else
      match SplitRedirection(args)
      case None => BadRedirection
      case Some(Redirect(files, target, mode)) =>
        if content.Some? then WriteContent(target, mode, content.value + "\n")
        else if files == [] && mode == Overwrite then Interactive(target)
        else Concatenate(files, target, mode)
  }

  /** One kept interactive line: `l.replace("\x1a", "").strip()`. */
  function CleanLine(l: string): string {
    Strip(RemoveChar(l, '\U{1a}'))
  }

  /** A kept line: no end-of-transmission marker and nothing left to strip. */
  predicate IsClean(l: string) {
    '\U{1a}' !in l && Strip(l) == l
  }

  /** `[CleanLine(l) for l in lines if l.strip() != ""]`. */
  function CleanLines(lines: seq<string>): (r: seq<string>)
    ensures |r| <= |lines|
  {
    if lines == [] then []
    else
      var rest := CleanLines(lines[1..]);
      if Strip(lines[0]) == "" then rest else [CleanLine(lines[0])] + rest
  }

  /** A cleaned line is clean. */
  lemma CleanLineClean(l: string)
    ensures IsClean(CleanLine(l))
  {
    StripIdempotent(RemoveChar(l, '\U{1a}'));
    StripIsSlice(RemoveChar(l, '\U{1a}'));
  }

  /** Every kept line is clean. */
  lemma {:induction false} CleanLinesClean(lines: seq<string>)
    ensures forall k :: 0 <= k < |CleanLines(lines)| ==> IsClean(CleanLines(lines)[k])
  {
    if lines != [] {
      var rest := CleanLines(lines[1..]);
      CleanLinesClean(lines[1..]);
      if Strip(lines[0]) != "" {
        var c := CleanLine(lines[0]);
        CleanLineClean(lines[0]);
        var r := [c] + rest;
        assert CleanLines(lines) == r;
        forall k | 0 <= k < |r| ensures IsClean(r[k]) {
          if k > 0 { assert r[k] == rest[k - 1]; }
        }
      }
    }
  }

  /** Lines of whitespace only are all dropped. */
  lemma {:induction false} BlankLinesDropped(lines: seq<string>)
    requires forall k :: 0 <= k < |lines| ==> AllSpace(lines[k])
    ensures CleanLines(lines) == []
  {
    if lines != [] {
      assert AllSpace(lines[0]);
      StripEmptyIff(lines[0]);
      forall k | 0 <= k < |lines| - 1 ensures AllSpace(lines[1..][k]) {
        assert lines[1..][k] == lines[k + 1] && AllSpace(lines[k + 1]);
      }
      BlankLinesDropped(lines[1..]);
    }
  }

  /** Cleaning works line by line. */
  lemma {:induction false} CleanLinesAppend(a: seq<string>, b: seq<string>)
    ensures CleanLines(a + b) == CleanLines(a) + CleanLines(b)
  {
    if a == [] {
      assert a + b == b;
    } else {
      assert (a + b)[0] == a[0];
      assert (a + b)[1..] == a[1..] + b;
      CleanLinesAppend(a[1..], b);
    }
  }

  /** A line holding only the end-of-transmission marker is kept, as an empty line. */
  lemma CtrlZLineKept()
    ensures CleanLines(["\U{1a}"]) == [""]
  {
    assert !IsSpace('\U{1a}');
    assert Strip("\U{1a}") != "" by { StripEmptyIff("\U{1a}"); }
    assert RemoveChar("\U{1a}", '\U{1a}') == "";
  }
}
