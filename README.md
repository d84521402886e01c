# PyTerminal, modelled in Dafny

PyTerminal is an interactive shell written in Python. Each round of its loop
prompts with the working directory and reads a line. `exit` or `quit` ends
the loop. A line starting with `!ai` goes to a language model, which may answer
with one function call from a fixed list of twelve. Any other line goes to
`CommandParser.execute`. `execute` tokenises the line, looks up its first word
in a registry of eleven commands and runs the handler. When asked to, it
captures what the handler printed by pointing `sys.stdout` at a buffer.

The filesystem handlers are `ls`, `pwd`, `cd`, `mkdir`, `mv`, `rm` and `cat`.
`cat` has a five-way redirection engine: display, direct write, interactive
capture, concatenation, and the two error reports. The handlers work on a file
tree owned by the model.

The model follows the source's structure:

| Module | What it models |
|---|---|
| `Disk` | The operating system's file tree, as a map from canonical absolute paths to nodes, plus what `open`, `os.makedirs`, `os.remove`, `shutil.rmtree` and `shutil.move` do to it, errors included, except the `ValueError` for names holding NUL (see "## Left out"). |
| `Paths` | `_resolve_path`, that is `os.path.abspath(os.path.join(cwd, p))`. |
| `Text`, `Shlex` | The string operations the source relies on: `str.strip`, `str.join`, `str.replace`, `str.lower`, and `shlex.split` in POSIX mode. |
| `Terminal` | A class `Console`. `sinks` holds every stream written so far: index 0 is the terminal, later ones are `StringIO` buffers. `current` is the sink `sys.stdout` points at. `input` is the list of events standard input still holds: a line, end of input, or an interrupt. |
| `Redirection` | The decisions `cat` takes before it touches a file. |
| `FileSystem` | The class `FileSystemCommands`, which holds `current_dir`, the tree and the directory the process is in as fields. Each handler is a method. Each method is proved to reach the outcome a specification function (`CdSpec`, `CatSpec`, …) gives for the session before the call. |
| `FileSystemLaws` | The laws of the handlers, stated over those specification functions. |
| `Parser` | The class `CommandParser`: the registry and `execute`. |
| `Schema` | `FUNCTION_DEFINITIONS`. |
| `Nlp` | `handle_function_call` and `process_nlp_input`. The model's replies are a parameter `llm`. |
| `Repl` | The routing of a line, one round of `main`'s loop, and the loop itself. |

Behaviours of the code worth knowing, all of which the model follows:

- A capture whose handler raised returns the error message but never points
  `sys.stdout` back at the terminal. The buffer stays current, and later
  output goes to it. `Parser.CommandParser.Invoked` states this.
- A captured result is stripped at both ends, not only at the end.
- A call to `execute` without capture returns `None`, not `""`, when the command
  ran, and also when it failed with a parsing or execution error.
- `mkdir` calls `os.makedirs`, so it creates any missing intermediate
  directories.
- The results of `cat_file` and `move_path` are discarded. The model receives
  `""` for them.
- Files are read in text mode, so `cat` shows and concatenates a file's text
  with each `\r\n` and each lone `\r` turned into `\n`. Writes store the
  text as given.
- `Prompt.ask` returns the typed line stripped, so `  !ai list files` reaches
  the model and a command line reaches `execute` already stripped.
- The prompt shows `os.getcwd()`, which is where the process is, not
  `current_dir`. The two agree until a directory holding the process is
  renamed: the process moves with it, `current_dir` keeps the old path, and
  `pwd` then prints the old path. Once the process's directory is deleted,
  `os.getcwd()` fails, even if a directory of the same name is made again.
- `shutil.move` of the root, whatever its destination, fails with the error
  that `shutil` raises, and `mv` reports it.
- The loop is not crash-proof. The model follows three of the ways it stops
  on an uncaught exception:
  - `os.getcwd()` fails once the process's directory has been deleted;
  - the first reply has no candidate or no part;
  - the second call to the model fails.

  A fourth way, a stray closing markup tag in printed text, is not modelled.
  "## Left out" describes it under Rich markup.

## Model

| member | source | states |
|---|---|---|
| Text.TrimLeft | src/utils/parser.py:37 | The result is a suffix of the input, all it removed is whitespace, and it does not start with whitespace. |
| Text.TrimRight | src/utils/parser.py:37 | The result is a prefix of the input, all it removed is whitespace, and it does not end with whitespace. |
| Text.Strip | src/main.py:53 | The result is a slice of the input with only whitespace taken off each end, and has no whitespace left at either end. |
| Text.StripIsSlice | src/commands/filesystem.py:89 | Every character of a stripped line comes from the line, so stripping cannot bring back a removed `\x1a`. |
| Text.StripEmptyIff | src/commands/filesystem.py:89 | A line strips to `""` exactly when it is all whitespace. This is the blank-line test of the interactive mode. |
| Text.StripIdempotent | src/utils/parser.py:63 | Stripping twice is the same as stripping once. |
| Text.StripUnpadded | src/nlp.py:34 | A string with no whitespace at either end is unchanged by `strip`. |
| Text.StripTrailingSpace | src/nlp.py:34 | An illustration: `ls ` with its trailing space strips back to `ls`. |
| Text.TrimLeftPadded | src/main.py:53 | Whitespace in front of a word is removed and nothing else is. |
| Text.TrimRightPadded | src/main.py:53 | Whitespace after a word is removed and nothing else is. |
| Text.JoinLength | src/commands/filesystem.py:91 | A join has the elements' total length plus one separator between each pair of neighbours. |
| Text.JoinSnoc | src/commands/filesystem.py:112 | Appending one more element to a join adds exactly one separator and that element. |
| Text.RemoveChar | src/commands/filesystem.py:89 | `replace("\x1a", "")`: the result holds every other character of the string as often as the string does, and none of the removed one. A string without the character is unchanged. |
| Text.RemoveCharAppend | src/commands/filesystem.py:89 | Removing the character from a concatenation removes it from each part. |
| Text.RemoveFirst | src/main.py:58 | `replace("!ai", "", 1)` on a string that starts with the pattern removes exactly that prefix. Otherwise the length is unchanged or shorter by the pattern. |
| Text.RemoveFirstAbsent | src/main.py:58 | `replace(pat, "", 1)` leaves a string in which `pat` does not occur unchanged. |
| Text.RemoveFirstAt | src/main.py:58 | `replace(pat, "", 1)` cuts out exactly the first occurrence of `pat`, and keeps what comes before and after it. |
| Text.Lower | src/main.py:53 | Lower-casing keeps the length and lower-cases each character separately. |
| Text.Universal | src/commands/filesystem.py:40-41 | What text mode reads holds no carriage return and is no longer than the stored text. |
| Text.UniversalCrLf | src/commands/filesystem.py:40-41 | A `\r\n` pair reads as a single `\n`, and the rest reads as it would alone. |
| Text.UniversalLoneCr | src/commands/filesystem.py:40-41 | A `\r` that is not followed by `\n` reads as `\n`. |
| Text.UniversalOther | src/commands/filesystem.py:40-41 | Every character other than `\r` reads as itself. |
| Text.UniversalPlain | src/commands/filesystem.py:105-106 | A text without carriage returns is read back unchanged. |
| Text.UniversalIdempotent | src/commands/filesystem.py:105-106 | Translating what was already read changes nothing. |
| Paths.Split | src/commands/filesystem.py:12 | Splitting on `/` gives at least one piece, and no piece contains a slash. |
| Paths.Normalize | src/commands/filesystem.py:12 | Normalising segments onto a canonical base gives a canonical path. |
| Paths.Resolve | src/commands/filesystem.py:11-12 | `_resolve_path` always gives a canonical absolute path: no empty, `.` or `..` segment. |
| Paths.ResolveAbsolute | src/commands/filesystem.py:12 | An absolute argument resolves the same way whatever the working directory. |
| Paths.NormalizeSegments | src/commands/filesystem.py:12 | Canonical segments are appended to the base unchanged. |
| Paths.SplitJoin | src/commands/filesystem.py:12 | Splitting the text of a canonical path gives back its segments. |
| Paths.RenderRoundTrip | src/commands/filesystem.py:11-12 | Resolving the printed form of a canonical path gives that path, from any working directory. |
| Paths.ResolveEmpty | src/commands/filesystem.py:11-12 | The empty argument resolves to the working directory. |
| Paths.ResolveUp | src/commands/filesystem.py:11-12 | `..` resolves to the parent, and the root stays the root. |
| Paths.ResolveChild | src/commands/filesystem.py:11-12 | A plain name resolves to the working directory with that one segment added. |
| Paths.SplitAt | src/commands/filesystem.py:12 | Splitting `a/b` gives `a` followed by the pieces of `b`. |
| Shlex.TokenizeJoined | src/utils/parser.py:37 | Plain words joined by single spaces tokenise back to exactly those words. |
| Shlex.LexJoined | src/utils/parser.py:37 | The same holds after words that were already read. |
| Shlex.TokenizeBlank | src/utils/parser.py:37-39 | A line of blanks gives no tokens. |
| Shlex.TokenizeEmptyQuotes | src/utils/parser.py:37 | `""` gives one empty token. |
| Shlex.TokenizeUnclosed | src/utils/parser.py:37 | An unclosed single quote raises `ValueError("No closing quotation")`. |
| Shlex.LexSingle | src/utils/parser.py:37 | Inside a single quote with no closing quote, the lexer ends in that error, whatever came before. |
| Terminal.Console.constructor | src/main.py:11 | A fresh console writes to the terminal, has written nothing, and holds the given input events. |
| Terminal.Console.Write | src/main.py:51 | The prompt text is appended to the current sink only. |
| Terminal.Console.Print | src/commands/filesystem.py:25 | `console.print(msg)` appends `msg` and a newline to the sink `sys.stdout` points at, and changes nothing else. |
| Terminal.Console.Read | src/commands/filesystem.py:83 | `input()` delivers the next event and consumes it. Once input is exhausted it delivers end of input. |
| Terminal.Console.Redirect | src/utils/parser.py:52-53 | A fresh empty buffer is added and becomes current, and the sink that was current is returned. |
| Terminal.Console.Restore | src/utils/parser.py:62 | `sys.stdout = old_stdout`: the saved sink is current again, and no stream changes. |
| Disk.LookupFault | src/commands/filesystem.py:121 | Looking up a directory fails exactly when it, or one of its ancestors, is missing or not a directory. |
| Disk.DirHasNoFault | src/commands/filesystem.py:121 | An existing directory can always be listed. |
| Disk.OpenForWrite | src/commands/filesystem.py:67 | Opening for writing succeeds only when the target is not a directory and its parent is one. |
| Disk.WriteFile | src/commands/filesystem.py:67-68 | After the write, the target is a file holding the data. In append mode an existing file holds its old text followed by the data. Every other entry is unchanged. |
| Disk.WriteFileWellFormed | src/commands/filesystem.py:67-68 | A write that could open its target keeps the tree well formed: every entry sits in a directory. |
| Disk.FirstMissing | src/commands/filesystem.py:150 | A missing path has a first missing ancestor, whose parent exists. `os.makedirs` names it in its error. |
| Disk.MakeDirs | src/commands/filesystem.py:150 | `os.makedirs` keeps the tree well formed and makes the path a directory. It keeps every existing entry, and adds only directories on the way to the path. |
| Disk.RemoveTree | src/commands/filesystem.py:183-186 | Exactly the entries not under the path remain, unchanged. |
| Disk.RemoveTreeWellFormed | src/commands/filesystem.py:186 | Removing a subtree keeps the tree well formed. |
| Disk.RemoveFile | src/commands/filesystem.py:183 | `os.remove` of a file takes out that one entry. |
| Disk.AncestorsExist | src/commands/filesystem.py:182-187 | Every ancestor of a stored path is a directory. |
| Disk.NothingBeneathMissing | src/commands/filesystem.py:167 | Nothing is stored under a path that does not exist. |
| Disk.NothingBeneathFile | src/commands/filesystem.py:182 | Nothing is stored under a file. |
| Disk.MoveTreeAt | src/commands/filesystem.py:172 | After a rename, every path under the destination holds what the matching path under the source held. Every other path holds what it held, unless it was under the source. |
| Disk.MoveTreeWellFormed | src/commands/filesystem.py:172 | A rename into an existing directory keeps the tree well formed. |
| Disk.ShutilMove | src/commands/filesystem.py:172 | `shutil.move` either fails with the error `shutil` raises, or leaves a well-formed tree. |
| Disk.MoveOnto | src/commands/filesystem.py:172 | Moving to the final place, once the destination directory has been taken into account, leaves a well-formed tree when it succeeds. |
| Disk.Relocate | src/commands/filesystem.py:172 | A move to a free place in an existing directory is a rename of the subtree and keeps the tree well formed. |
| Disk.ReplaceFile | src/commands/filesystem.py:172 | A file moved onto another file replaces it, and the tree stays well formed. |
| Disk.RenameMovesNode | src/commands/filesystem.py:172 | Moving to a fresh name in an existing directory is a rename: the source is gone and the destination holds the source's node. |
| FileSystem.FileSystemCommands.constructor | src/commands/filesystem.py:7-9 | `current_dir` starts where the process is, on the given tree. |
| FileSystem.CdSpec | src/commands/filesystem.py:133-142 | `cd` never changes the tree or standard input. |
| FileSystem.FileSystemCommands.Pwd | src/commands/filesystem.py:130-131 | `pwd` prints the working directory and changes nothing. |
| FileSystem.FileSystemCommands.Cd | src/commands/filesystem.py:133-142 | The method reaches the outcome `CdSpec` gives. |
| FileSystem.FileSystemCommands.Ls | src/commands/filesystem.py:118-128 | `ls` on a directory prints a table: a header with the base name, and one row for each entry, each listed once in some order. A missing path is reported. A path that is not a directory raises `NotADirectoryError`. |
| FileSystem.FileSystemCommands.Table | src/commands/filesystem.py:121-125 | The table lists exactly the entries directly inside the directory, each once. |
| FileSystem.MkdirSpec | src/commands/filesystem.py:144-153 | `mkdir` keeps the tree well formed and leaves the working directory and input alone. |
| FileSystem.FileSystemCommands.Mkdir | src/commands/filesystem.py:144-153 | The method reaches the outcome `MkdirSpec` gives, and raises what it raises. |
| FileSystem.RmSpec | src/commands/filesystem.py:177-189 | `rm` keeps the tree well formed and leaves the working directory and input alone. |
| FileSystem.FileSystemCommands.Rm | src/commands/filesystem.py:177-189 | The method reaches the outcome `RmSpec` gives. |
| FileSystem.MvSpec | src/commands/filesystem.py:155-175 | `mv` keeps the tree well formed and leaves the working directory and input alone. |
| FileSystem.FileSystemCommands.Mv | src/commands/filesystem.py:155-175 | The method reaches the outcome `MvSpec` gives. Every error is reported, so nothing escapes. |
| FileSystem.CatSpec | src/commands/filesystem.py:14-115 | `cat` never raises, keeps the tree well formed and never changes the working directory. Input is untouched, except in the interactive mode, which consumes it up to end of input. |
| FileSystem.FileSystemCommands.Cat | src/commands/filesystem.py:14-43 | The method reaches the outcome `CatSpec` gives. |
| FileSystem.FileSystemCommands.DisplayFiles | src/commands/filesystem.py:34-43 | The display loop prints, in order, each readable file's text as text mode reads it, with line endings translated and no newline added, and a complaint for each other file. |
| FileSystem.FileSystemCommands.DisplayFile | src/commands/filesystem.py:35-43 | One turn of the display loop prints what `Shown` gives for the file, and changes nothing else. |
| FileSystem.FileSystemCommands.HandleRedirection | src/commands/filesystem.py:45-115 | With an operator among the arguments, the method reaches the outcome `CatSpec` gives. |
| FileSystem.Deliver | src/commands/filesystem.py:110-115 | Writing the target never raises and never changes the working directory or input. |
| FileSystem.FileSystemCommands.WriteTarget | src/commands/filesystem.py:110-115 | The method opens, writes and reports as `Deliver` says. A target it cannot open is reported, and nothing is written. |
| FileSystem.FileSystemCommands.CreateInteractively | src/commands/filesystem.py:76-95 | The method prints the prompt, reads until end of input or interrupt, and saves the cleaned lines joined by newlines, with a final newline. |
| FileSystem.FileSystemCommands.ReadTyped | src/commands/filesystem.py:80-86 | The input loop collects exactly the lines typed before the first end of input or interrupt, and consumes that event too. |
| FileSystem.FileSystemCommands.ConcatenateInto | src/commands/filesystem.py:98-115 | The method reports unreadable sources, then writes the readable ones joined by newlines. |
| FileSystem.FileSystemCommands.CollectSources | src/commands/filesystem.py:98-108 | The collection loop gathers, in order, the texts of the readable sources as text mode reads them, and prints a complaint for each other source. |
| FileSystem.AfterTypingShorter | src/commands/filesystem.py:82-86 | The interactive mode consumes at least the event that ends it. |
| Redirection.IndexOf | src/commands/filesystem.py:49 | `args.index(x)` is the first position holding `x`. |
| Redirection.SplitRedirection | src/commands/filesystem.py:47-60 | `>>` wins whenever it occurs. The split fails exactly when the first such operator is the last argument. Otherwise the sources are the arguments before it, and the target is the one after it. |
| Redirection.PlanCat | src/commands/filesystem.py:24-97 | Each of the five behaviours is chosen exactly under its condition, in the source's order: missing arguments, display, invalid redirection, direct content (content plus a newline), interactive (`>` with no sources), and concatenation. |
| Redirection.CleanLines | src/commands/filesystem.py:89 | Cleaning never adds lines. |
| Redirection.CleanLinesClean | src/commands/filesystem.py:89 | Every kept line is free of `\x1a` and of whitespace at either end. |
| Redirection.BlankLinesDropped | src/commands/filesystem.py:89 | Blank lines alone give nothing. |
| Redirection.CleanLinesAppend | src/commands/filesystem.py:89 | Cleaning works line by line, so it distributes over concatenation. |
| Redirection.CtrlZLineKept | src/commands/filesystem.py:89 | A line holding only `\x1a` passes the blank test, because the test runs before the replacement. It is kept as an empty line. |
| FileSystemLaws.CdThenPwd | src/commands/filesystem.py:130-142 | `cd` changes directory exactly when its target is a directory. `pwd` then prints that target's absolute form, and `os.chdir` has moved the process there. Otherwise `cd` reports and changes nothing. |
| FileSystemLaws.CdToPrinted | src/commands/filesystem.py:133-142 | `cd` to the text `pwd` printed returns to that directory. |
| FileSystemLaws.CdUp | src/commands/filesystem.py:133-142 | `cd ..` climbs one level, and stays at the root once there. |
| FileSystemLaws.MkdirTwice | src/commands/filesystem.py:144-153 | A second `mkdir` of the same name reports the conflict and changes nothing. |
| FileSystemLaws.MkdirThenRm | src/commands/filesystem.py:144-189 | `mkdir` of a fresh name in an existing directory, followed by `rm` of it, gives back the original tree. |
| FileSystemLaws.FreshChildAlong | src/commands/filesystem.py:150 | A fresh name in an existing directory has no file on its way, so `os.makedirs` does not raise. |
| FileSystemLaws.RmFile | src/commands/filesystem.py:181-184 | `rm` of a file removes that one entry and nothing else. The process stays where it is. |
| FileSystemLaws.RmDir | src/commands/filesystem.py:185-187 | `rm` of a directory removes it and exactly what lies under it. If the process's directory lay there, the process has no working directory left. Otherwise the process stays where it is. |
| FileSystemLaws.RmMissing | src/commands/filesystem.py:188-189 | `rm` of a missing path reports it and changes nothing. |
| FileSystemLaws.ContentNeedsOperator | src/commands/filesystem.py:29-43 | Without an operator, the content argument plays no part. |
| FileSystemLaws.SplitSimple | src/commands/filesystem.py:48-57 | `> f` or `>> f` alone splits into no sources and target `f`. |
| FileSystemLaws.DisplayOne | src/commands/filesystem.py:34-43 | `cat f` shows `f` alone and changes nothing. |
| FileSystemLaws.WriteThenDisplay | src/commands/filesystem.py:34-70 | `cat > f` with content `x`, followed by `cat f`, shows `x` and a newline as text mode reads them back. That is exactly `x` and a newline when `x` holds no `\r`. |
| FileSystemLaws.OpenExistingFile | src/commands/filesystem.py:67 | An existing file can always be opened for writing. |
| FileSystemLaws.AppendContent | src/commands/filesystem.py:65-70 | `cat >> f` with content adds the content and a newline to what `f` held. |
| FileSystemLaws.ConcatenateAppend | src/commands/filesystem.py:98-113 | `cat a >> f` leaves `f` holding its old text followed by `a`'s text as text mode reads it. |
| FileSystemLaws.ConcatenateAppendExample | src/commands/filesystem.py:98-113 | An illustration: a target holding `A\n` and a source holding `B` give `A\nB`. |
| FileSystemLaws.InteractiveSaves | src/commands/filesystem.py:76-92 | `cat > f` alone prompts, consumes input up to end of input, saves the cleaned typed lines and reports `created`. |
| FileSystemLaws.MvRenames | src/commands/filesystem.py:160-173 | `mv a b` to a free name in an existing directory: `a` is gone, `b` holds what `a` held, and the move is reported. If the process's directory lay under `a`, the process is now at the matching place under `b`. Otherwise it stays where it is. |
| FileSystemLaws.MvMissingSource | src/commands/filesystem.py:167-169 | A missing source is reported, and nothing changes. |
| FileSystemLaws.MvIntoOccupied | src/commands/filesystem.py:171-175 | A move into a directory that already holds the source's name is refused with `shutil`'s message, and nothing changes. |
| FileSystemLaws.MvRootRefused | src/commands/filesystem.py:171-175 | Moving the root changes nothing, and reports one of three errors. Onto the root itself, it is `os.rename`'s `[Errno 16]`. Onto another directory, the target `dst/` already exists. Anywhere else, the root cannot move into itself. |
| FileSystemLaws.MkdirThenListed | src/commands/filesystem.py:118-153 | A directory made in the working directory is among the names `ls` lists there. |
| FileSystemLaws.RmThenUnlisted | src/commands/filesystem.py:118-189 | After `rm x`, `ls` in the working directory no longer lists `x`. |
| Parser.RegistryKeys | src/utils/parser.py:16-28 | The registry names exactly the eleven commands. |
| Parser.RegistrySize | src/utils/parser.py:16-28 | The registry has eleven entries. |
| Parser.RegistryValues | src/utils/parser.py:16-28 | Every handler is registered. |
| Parser.Dispatch | src/utils/parser.py:36-42 | A tokenising error, and only that, gives `BadSyntax` with its message. A line with no tokens, and only that, is `Blank`. A registered first token gives `Known` with that token's handler and the remaining tokens as arguments, and `Known` arises only that way. An unknown first token is reported as it is. |
| Parser.BlankDispatch | src/utils/parser.py:37-39 | A blank line is no command. |
| Parser.WordsDispatch | src/utils/parser.py:37-42 | Plain words joined by spaces dispatch to the first word's handler, with the other words as its arguments. |
| Parser.HandlesConsume | src/utils/parser.py:56-59 | No handler adds to standard input. |
| Parser.CommandParser.constructor | src/utils/parser.py:10-28 | A fresh parser shares the console, and starts its filesystem handlers in the given directory. |
| Parser.CommandParser.Run | src/utils/parser.py:56-59 | The registered handler is called, and it behaves as its specification says. |
| Parser.CommandParser.RunFiles | src/utils/parser.py:56-59 | A filesystem handler behaves as its specification says. |
| Parser.CommandParser.Report | src/commands/system.py:1-31 | The system and help commands print their text and change nothing else. |
| Parser.CommandParser.Execute | src/utils/parser.py:30-74 | The cases of `execute`, each with what is printed and where. A parsing error is returned when capturing, and printed otherwise. A blank line returns `""`. An unknown command is printed in both cases, and returned when capturing. Only `cat` receives the content. A capture always returns text. |
| Parser.CommandParser.Invoke | src/utils/parser.py:50-74 | Without capture, the handler's output is printed, followed by the error if one was raised, and nothing is returned. With capture, the output goes to a fresh buffer and the stripped text is returned. If the handler raised, the error is returned and the buffer stays current. |
| Parser.CommandParser.Captured | src/utils/parser.py:50-73 | The capturing half of `Invoke`. |
| Parser.CommandParser.Direct | src/utils/parser.py:55-74 | The direct half of `Invoke`. |
| Parser.CaptureReturnsOutput | src/utils/parser.py:50-63 | A captured command that raises nothing returns what it printed, stripped. `sys.stdout` points back where it was, and the printed text sits in the new buffer only. |
| Schema.NamesListed | src/agentic_functions.py:3-131 | The declarations carry the twelve listed names, in order. |
| Schema.NamesDistinct | src/agentic_functions.py:3-131 | There are twelve declarations, and no two share a name. |
| Schema.RequiredAreProperties | src/agentic_functions.py:3-131 | Every required parameter is one the declaration defines. |
| Schema.RequiredLists | src/agentic_functions.py:3-131 | `path` is required by `change_directory`, `make_directory` and `remove_path`. Both ends are required by `move_path`, and `mode` by `cat_file`. Nothing else requires parameters. |
| Schema.CatFileParameters | src/agentic_functions.py:66-92 | `cat_file` takes `files`, `target`, `mode` and `content`. Its mode is one of `read`, `write` and `append`. Only `files` is a list. |
| Nlp.NamedIff | src/nlp.py:32-89 | The chain of comparisons selects a function exactly when the name is that function's declared name. |
| Nlp.DeclaredIffHandled | src/nlp.py:32-89 | `handle_function_call` knows exactly the declared functions. |
| Nlp.LeaveOnlyOnExit | src/nlp.py:83-86 | Only `exit_terminal` ends the program. |
| Nlp.WordRegistered | src/utils/parser.py:16-28 | Every command word the translator emits is registered, and names the intended handler. |
| Nlp.CommandWord | src/utils/parser.py:37-42 | A registered word alone on a line runs its command with no arguments. |
| Nlp.CommandWithArgument | src/utils/parser.py:37-42 | A registered word and one plain argument run that command with that argument. |
| Nlp.CommandWithArguments | src/utils/parser.py:37-42 | A registered word followed by plain words runs that command with those words. |
| Nlp.PlainCall | src/nlp.py:71-81 | `print_working_directory`, `show_cpu`, `show_memory`, `list_processes` and `show_help` run their command with no arguments, and keep its output. |
| Nlp.PathCall | src/nlp.py:39-64 | `change_directory`, `make_directory` and `remove_path` run their command on exactly the given path. For example, `make_directory` with path `x` is `mkdir x`. |
| Nlp.ListLineBare | src/nlp.py:32-34 | `list_directory` without a path issues `ls` alone. |
| Nlp.ListLinePath | src/nlp.py:32-34 | `list_directory` with a path issues `ls` and that path. |
| Nlp.ListCall | src/nlp.py:32-34 | `list_directory` runs `ls` on the path, or without one, and keeps the output. |
| Nlp.MoveCall | src/nlp.py:66-69 | `move_path` runs `mv` on the source and destination, and discards the output. |
| Nlp.CatWriteLine | src/nlp.py:53-56 | A writing `cat_file` issues the names, the operator and the target, joined by spaces, and forwards the content. |
| Nlp.CatWriteCall | src/nlp.py:47-56 | A writing `cat_file` over plain names runs `cat` with the operator of its mode, and forwards the content. |
| Nlp.CatReadCall | src/nlp.py:54-58 | A `cat_file` with a target but a reading mode drops the target and the content. |
| Nlp.CatNameSplit | src/nlp.py:53 | Any file name made of two plain words joined by a space reaches `cat` as those two words. |
| Nlp.ReplyText | src/nlp.py:143 | A reply whose first candidate is one text part reads as that text. |
| Nlp.Texts | src/nlp.py:143 | A reply with no text parts contributes no text. |
| Nlp.FollowUp | src/nlp.py:127-134 | The second request is the opening, the model's message, and the result under the function's name, in that order. |
| Nlp.HandleFunctionCall | src/nlp.py:25-91 | The effect, as `CallHandled` states it. A known function runs its command line through `execute` with capture, as `Executes` states. It returns the captured text, or `""` for `cat_file` and `move_path`, and the session is what the command left. `exit_terminal` prints the two farewells, changes nothing else, and ends. An unknown name returns the not-implemented message and changes nothing. |
| Nlp.ProcessNlpInput | src/nlp.py:97-147 | The effect, as `Conversed` states it. An API error is printed. A reply with no candidate or no part crashes. A text reply is printed. A function call is handled and answered as `Nlp.AnswerCall` states, with the session, the streams and the ending passed on. |
| Nlp.AnswerCall | src/nlp.py:119-143 | The effect, as `CallAnswered` states it. The call is handled as `Nlp.HandleFunctionCall` states. `exit_terminal` ends with no second request. Any other call's result goes back in the follow-up. The final reply is printed where the call left `sys.stdout`, and a failing second request crashes. |
| Nlp.Relay | src/nlp.py:136-143 | The final reply's text is printed, or the failure escapes. |
| Nlp.ExitCallEnds | src/nlp.py:83-124 | A first reply that calls `exit_terminal` prints the two farewells, sends no second request, leaves the session alone and ends the program. |
| Nlp.OtherCallAnswered | src/nlp.py:119-143 | Any other call gets a second request carrying its result. The program carries on unless that request fails. An unknown function is told it is not implemented, and nothing changes. |
| Nlp.CapturedOutputSentBack | src/nlp.py:119-143 | For a call whose command runs without raising and whose output is kept, the model receives that output stripped. The output goes to a buffer only, and the terminal shows just the model's answer. |
| Repl.AskPrefix | src/main.py:57-58 | A line beginning with `!ai` always reaches the model with the rest stripped, even when that rest is `exit`. |
| Repl.QuitWords | src/main.py:53-55 | `exit` and `quit` end the loop, in any case and with any whitespace around them. |
| Repl.ShellOtherwise | src/main.py:51-60 | A typed line that, once stripped, is neither a quit word nor starts with `!ai` goes to `execute` stripped. |
| Repl.IndentedAsk | src/main.py:51-58 | Leading spaces do not hide the `!ai` prefix, because the line is stripped before it is routed. |
| Repl.Round | src/main.py:48-65 | One round, case by case. If the process's directory was deleted, it crashes. Otherwise it prompts with the process's directory. End of input stops. An interrupt prints the reminder and carries on. A line is stripped, and after the blank line it is answered as `Repl.Respond` states. Every round that carries on consumes input. |
| Repl.Respond | src/main.py:53-60 | The effect, as `Answered` states it. A quit word prints the farewell and stops. A request to the model goes as `Nlp.ProcessNlpInput` states: it stops when the model exits or a failure escapes. Any other line runs through `execute` without capture, as `Executes` states, and the loop goes on. |
| Repl.Loop | src/main.py:47-65 | The loop runs rounds until one stops it, and ends because each continuing round consumes input. |

## Left out

- The readings of `cpu`, `mem` and `processes`, and the help table, come from
  `psutil` and static data. They are a parameter `readings` of the parser.
  Only their fixed wrapping is modelled: `CPU Usage: …%` and the two closing
  lines of `help`.
- Rich markup and rendering: printed messages are stored with the markup
  removed, and messages that are returned keep it as text. The `ls` table is
  a header line followed by one line per entry. `clear_screen` and
  `show_welcome` are not modelled.
- Rich markup in interpolated text is not modelled. `console.print` parses
  every printed string as markup, and that includes command words, paths,
  file contents and the model's replies. A closing tag that matches no open
  tag, such as `[/x]`, makes Rich raise `MarkupError`, which is an
  `Exception` and not a `ValueError`. Two examples:
  - The typed line `[/x]` fails while "Unknown command" is printed
    (src/utils/parser.py:47). It also fails again when the "Error executing
    command" message is printed (src/utils/parser.py:74). The exception then
    escapes `execute`, and `main` does not catch it, so the program stops.
  - `cat f` on a file holding `[/x]` fails the same way, and so does a reply
    from the model holding it.

  The model treats such text as plain characters: it prints "Unknown command:
  [/x]", or the file or the reply, and the loop carries on. With capture
  on, the source returns the error message instead of crashing. The model
  returns the unknown-command message there.
- The language model service is a parameter `llm`. The system instructions,
  the model name, the client configuration and the API key are not modelled.
  The `description` texts of `FUNCTION_DEFINITIONS` are prose for the model
  and are not modelled either.
- `shlex.split` is modelled with the options `execute` uses: POSIX mode,
  whitespace splitting and no comments. Its other options are not modelled.
- OS errors beyond those the tree explains are not modelled: permissions, full
  disks, and encodings. File contents are character strings.
- Names holding a NUL character (`\0`) are treated as ordinary path
  segments. The operating-system calls instead raise `ValueError` ("embedded
  null byte"). The existence tests `os.path.exists`, `isfile` and `isdir`
  answer `False` for such a name, as the model does for a name that is not
  in the tree. The calls that raise are listed below, one line per member.
- Disk.MakeDirs: does not raise `ValueError` for a segment holding NUL.
  `os.makedirs` creates the missing directories before that segment, then
  `os.mkdir` raises. `mkdir` catches only `FileExistsError`, so `execute`
  prints "Parsing error: embedded null byte" (src/utils/parser.py:65-69). The
  model creates the directory instead. The same gap holds for
  FileSystem.MkdirSpec.
- Disk.OpenForWrite: does not fail for a target holding NUL. `open` raises
  `ValueError`, and `cat` prints "Error writing to …: embedded null byte"
  (src/commands/filesystem.py:71-72, 93-94 and 114-115). The model writes the
  file. The same gap holds for FileSystem.Deliver.
- Disk.ShutilMove: does not fail for a destination holding NUL. `os.rename`
  raises `ValueError`, which is not an `OSError`, so `shutil` does not fall
  back to copying, and `mv` prints "mv: error moving …: embedded null byte"
  (src/commands/filesystem.py:174-175). The model performs the move. The
  same gap holds for FileSystem.MvSpec.
- FileSystem.FileSystemCommands.Ls: for a path holding NUL, `os.listdir`
  raises `ValueError`. The handler catches only `FileNotFoundError`, so
  `execute` prints "Parsing error: embedded null byte". The model reports "No
  such directory" instead.
- `os.listdir` order: any enumeration of the entries is allowed.
- Function-call arguments that are not strings, or `files` that is not a list
  of strings, are not modelled.
- An interrupt is modelled only where the source reads input: the prompt and
  the interactive mode of `cat`.
- Directories are identified by their path. Only the directory the process
  is in is followed from one path to another: through a rename, and through
  deletion.
- The exit status of `exit(1)` is not modelled. The loop ends with `ModelExited`.
- Text.Lower: folds only `A`–`Z`, while Python's `str.lower` also folds other
  letters. This makes no difference to the `exit` and `quit` test.
- Paths.Resolve: `posix.normpath` keeps a path that starts with exactly two
  slashes as such, so `cd //tmp` followed by `pwd` prints `//tmp`. The model
  collapses every run of leading slashes to one, so `pwd` prints `/tmp`. The
  directory reached is the same.
- Repl.Loop: states that the loop keeps the parser valid and ends. The
  effect of each round is stated by `Repl.Round`.
