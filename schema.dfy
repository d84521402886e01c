/** `FUNCTION_DEFINITIONS`: the twelve function declarations offered to the
    language model, each with its parameters and the ones it requires. */
module Schema {

  datatype ParamType = StringParam | StringArray

  /** One entry of `parameters.properties`; `choices` is its `enum`, empty when absent. */
  datatype Property = Property(name: string, kind: ParamType, choices: seq<string>)

  datatype Declaration = Declaration(name: string, properties: seq<Property>, required: seq<string>)

  function Text(name: string): Property {
    Property(name, StringParam, [])
  }

  const ModeChoices: seq<string> := ["read", "write", "append"]

  const ListDirectory := Declaration("list_directory", [Text("path")], [])
  const PrintWorkingDirectory := Declaration("print_working_directory", [], [])
  const ChangeDirectory := Declaration("change_directory", [Text("path")], ["path"])
  const MakeDirectory := Declaration("make_directory", [Text("path")], ["path"])
  const MovePath := Declaration("move_path", [Text("source"), Text("destination")], ["source", "destination"])
  const CatFile := Declaration("cat_file",
    [Property("files", StringArray, []), Text("target"), Property("mode", StringParam, ModeChoices), Text("content")],
    ["mode"])
  const RemovePath := Declaration("remove_path", [Text("path")], ["path"])
  const ShowCpu := Declaration("show_cpu", [], [])
  const ShowMemory := Declaration("show_memory", [], [])
  const ListProcesses := Declaration("list_processes", [], [])
  const ShowHelp := Declaration("show_help", [], [])
  const ExitTerminal := Declaration("exit_terminal", [], [])

  const Definitions: seq<Declaration> := [
    ListDirectory, PrintWorkingDirectory, ChangeDirectory, MakeDirectory, MovePath, CatFile,
    RemovePath, ShowCpu, ShowMemory, ListProcesses, ShowHelp, ExitTerminal]

  /** The declared names, in order. */
  const DeclaredNames: seq<string> := [
    "list_directory", "print_working_directory", "change_directory", "make_directory",
    "move_path", "cat_file", "remove_path", "show_cpu", "show_memory", "list_processes",
    "show_help", "exit_terminal"]

  function Names(ds: seq<Declaration>): (r: seq<string>)
    ensures |r| == |ds| && forall i :: 0 <= i < |ds| ==> r[i] == ds[i].name
  {
    if ds == [] then [] else [ds[0].name] + Names(ds[1..])
  }

  /** The names of a declaration's parameters, in order. */
  function PropertyNames(ps: seq<Property>): seq<string> {
    seq(|ps|, i requires 0 <= i < |ps| => ps[i].name)
  }

  predicate Declared(name: string) {
    name in DeclaredNames
  }

  /** The declarations carry exactly the listed names. */
  lemma NamesListed()
    ensures Names(Definitions) == DeclaredNames
  {
  }

  /** Twelve declarations, no two of the same name. */
  lemma NamesDistinct()
    ensures |Definitions| == 12
    ensures forall i, j :: 0 <= i < j < |Definitions| ==> Definitions[i].name != Definitions[j].name
  {
    NamesListed();
    NameListDistinct();
    forall i, j | 0 <= i < j < |Definitions|
      ensures Definitions[i].name != Definitions[j].name
    {
      assert Definitions[i].name == DeclaredNames[i] && Definitions[j].name == DeclaredNames[j];
    }
  }

  lemma NameListDistinct()
    ensures forall i, j :: 0 <= i < j < |DeclaredNames| ==> DeclaredNames[i] != DeclaredNames[j]
  {
  }

  /** Every required parameter is one the declaration defines. */
  lemma RequiredAreProperties()
    ensures forall i, r :: 0 <= i < |Definitions| && r in Definitions[i].required ==>
      r in PropertyNames(Definitions[i].properties)
  {
    assert PropertyNames(MovePath.properties) == ["source", "destination"];
    assert PropertyNames(CatFile.properties) == ["files", "target", "mode", "content"];
    assert PropertyNames([Text("path")]) == ["path"];
  }

  /** What a declaration of this name requires: a path for `cd`, `mkdir` and `rm`,
      both ends for `mv`, the mode for `cat`, and nothing for the others. */
  function ExpectedRequired(name: string): seq<string> {
    if name == "change_directory" || name == "make_directory" || name == "remove_path" then ["path"]
    else if name == "move_path" then ["source", "destination"]
    else if name == "cat_file" then ["mode"]
    else []
  }

  lemma RequiredLists()
    ensures forall i :: 0 <= i < |Definitions| ==> Definitions[i].required == ExpectedRequired(Definitions[i].name)
  {
    forall i | 0 <= i < |Definitions|
      ensures Definitions[i].required == ExpectedRequired(Definitions[i].name)
    {
      if i < 6 {
        assert i == 0 || i == 1 || i == 2 || i == 3 || i == 4 || i == 5;
      } else {
        assert i == 6 || i == 7 || i == 8 || i == 9 || i == 10 || i == 11;
      }
    }
  }

  /** `cat_file`'s mode takes one of three values; its files are a list of strings
      and every other parameter is a string. */
  lemma CatFileParameters()
    ensures Definitions[5] == CatFile && CatFile.name == "cat_file"
    ensures PropertyNames(CatFile.properties) == ["files", "target", "mode", "content"]
    ensures CatFile.properties[2].choices == ["read", "write", "append"]
    ensures forall k :: 0 <= k < |CatFile.properties| ==>
      (CatFile.properties[k].kind == StringArray <==> k == 0)
  {
  }
}
