/**
 * The project records of Data/Chip.py: valves, annotations, images, scripts
 * (built in, or backed by a file) and program instances, and the chip that
 * holds them together with the path conversion applied around saving.
 * Paths are strings; the filesystem calls are function parameters.
 */
module Chip {
  import opened Common

  /** The index of the last occurrence of `c` in `s`, or -1. */
  function LastIndexOf(s: string, c: char): (r: int)
    ensures -1 <= r < |s|
    ensures r >= 0 ==> s[r] == c
    ensures forall k :: r < k < |s| ==> s[k] != c
  {
    if s == [] then -1
    else if s[|s| - 1] == c then |s| - 1
    else LastIndexOf(s[..|s| - 1], c)
  }

  /** The final component of a '/'-separated path. */
  function FileName(path: string): (name: string)
    ensures '/' !in name
  {
    path[LastIndexOf(path, '/') + 1..]
  }

  /** pathlib's stem: the final component without its last suffix; a leading or trailing dot is not a suffix. */
  function Stem(path: string): (stem: string)
    ensures '/' !in stem
  {
    var name := FileName(path);
    var i := LastIndexOf(name, '.');
    if 0 < i < |name| - 1 then name[..i] else name
  }

  /** Where the searched character sits at a known place with none after it, that place is what is found. */
  lemma {:induction false} LastIndexOfAt(s: string, c: char, i: nat)
    requires i < |s| && s[i] == c && forall k :: i < k < |s| ==> s[k] != c
    ensures LastIndexOf(s, c) == i
  {
    if i != |s| - 1 {
      LastIndexOfAt(s[..|s| - 1], c, i);
    }
  }

  /** The stem of `dir/base.ext` is `base`, whatever dots `base` itself holds. */
  lemma StemOfFile(dir: string, base: string, ext: string)
    requires base != [] && ext != []
    requires '/' !in base && '/' !in ext && '.' !in ext
    ensures Stem(dir + "/" + base + "." + ext) == base
  {
    var path := dir + "/" + base + "." + ext;
    var slash := |dir|;
    LastIndexOfAt(path, '/', slash);
    var name := FileName(path);
    assert name == base + "." + ext;
    LastIndexOfAt(name, '.', |base|);
  }

  /** A file without a suffix keeps its whole name as stem. */
  lemma StemWithoutSuffix(dir: string, name: string)
    requires '/' !in name && '.' !in name
    ensures Stem(dir + "/" + name) == name
  {
    var path := dir + "/" + name;
    LastIndexOfAt(path, '/', |dir|);
    assert FileName(path) == name;
  }

  datatype Valve = Valve(name: string, rect: seq<int>, solenoidNumber: int)

  /** Valve.__init__ */
  const DefaultValve := Valve("", [0, 0, 0, 0], 0)

  datatype Color = Color(r: int, g: int, b: int)

  datatype Text = Text(rect: seq<int>, fontSize: int, text: string, color: Color)

  /** Text.__init__ */
  const DefaultText := Text([0, 0, 0, 0], 12, "New annotation", Color(0, 0, 0))

  class Image {
    var rect: seq<int>
    var path: string

    constructor (path: string)
      ensures this.path == path && rect == [0, 0, 0, 0]
    {
      rect := [0, 0, 0, 0];
      this.path := path;
    }
  }

  class Script {
    /** None only for a built-in script. */
    var path: Option<string>
    const isBuiltIn: bool
    const biScript: string
    const biName: string

    ghost predicate Valid()
      reads this
    {
      isBuiltIn || path.Some?
    }

    constructor (path: Option<string>, isBuiltIn: bool := false, biScript: string := "", biName: string := "")
      ensures this.path == path && this.isBuiltIn == isBuiltIn
      ensures this.biScript == biScript && this.biName == biName
    {
      this.path := path;
      this.isBuiltIn := isBuiltIn;
      this.biScript := biScript;
      this.biName := biName;
    }

    /** The source text: the embedded text of a built-in, otherwise what `readFile` returns for the path. */
    function Read(readFile: string -> string): (text: string)
      reads this
      requires Valid()
    {
      if isBuiltIn then biScript else readFile(path.value)
    }

    /** The name shown for the script: the built-in's name, or the stem of its file. */
    function Name(): (name: string)
      reads this
      requires Valid()
    {
      if isBuiltIn then biName else Stem(path.value)
    }
  }

  /** A built-in script reads its embedded text whatever the filesystem holds, and is named by its stored name. */
  lemma BuiltInIgnoresFiles(s: Script, readFile: string -> string, otherReadFile: string -> string)
    requires s.isBuiltIn
    ensures s.Read(readFile) == s.Read(otherReadFile) == s.biScript
    ensures s.Name() == s.biName
  {
  }

  /** A file-backed script at `dir/base.ext` is named `base` and reads what the file holds. */
  lemma FileScriptName(s: Script, dir: string, base: string, ext: string, readFile: string -> string)
    requires !s.isBuiltIn && s.path == Some(dir + "/" + base + "." + ext)
    requires base != [] && ext != [] && '/' !in base && '/' !in ext && '.' !in ext
    ensures s.Name() == base
    ensures s.Read(readFile) == readFile(dir + "/" + base + "." + ext)
  {
    StemOfFile(dir, base, ext);
  }

  /** A pickled program as loaded; files saved before the field existed have no hideMessages. */
  datatype SavedProgram = SavedProgram(
    script: Script,
    position: seq<real>,
    scale: real,
    parameterValues: map<string, Value>,
    parameterVisibility: map<string, bool>,
    name: string,
    hideMessages: Option<bool>)

  class Program {
    var script: Script
    var position: seq<real>
    var scale: real
    var parameterValues: map<string, Value>
    var parameterVisibility: map<string, bool>
    var name: string
    var hideMessages: bool

    constructor (script: Script)
      ensures this.script == script && position == [0.0, 0.0] && scale == 1.0
      ensures parameterValues == map[] && parameterVisibility == map[]
      ensures name == "" && !hideMessages
    {
      this.script := script;
      position := [0.0, 0.0];
      scale := 1.0;
      parameterValues := map[];
      parameterVisibility := map[];
      name := "";
      hideMessages := false;
    }

    /** Program.__setstate__: install a saved record, back-filling hideMessages as False when it was not saved. */
    method SetState(state: SavedProgram)
      modifies this
      ensures script == state.script && position == state.position && scale == state.scale
      ensures parameterValues == state.parameterValues && parameterVisibility == state.parameterVisibility
      ensures name == state.name
      ensures hideMessages == (state.hideMessages.Some? && state.hideMessages.value)
      ensures state.hideMessages.Some? ==> hideMessages == state.hideMessages.value
    {
      script := state.script;
      position := state.position;
      scale := state.scale;
      parameterValues := state.parameterValues;
      parameterVisibility := state.parameterVisibility;
      name := state.name;
      hideMessages := if state.hideMessages.Some? then state.hideMessages.value else false;
    }
  }

  /** One entry of the Builtins directory: the file's stem and its contents. */
  datatype BuiltinFile = BuiltinFile(stem: string, contents: string)

  class Chip {
    var valves: seq<Valve>
    var images: seq<Image>
    var text: seq<Text>
    var programs: seq<Program>
    var scripts: seq<Script>

    /** Every list holds each object once, and every file-backed script has a path. */
    ghost predicate Valid()
      reads this, scripts
    {
      && (forall i, j :: 0 <= i < |scripts| && 0 <= j < |scripts| && i != j ==> scripts[i] != scripts[j])
      && (forall i, j :: 0 <= i < |images| && 0 <= j < |images| && i != j ==> images[i] != images[j])
      && (forall s :: s in scripts ==> s.Valid())
    }

    /** Chip.__init__ over the listed Builtins directory. */
    constructor (builtins: seq<BuiltinFile>)
      ensures Valid()
      ensures valves == [] && images == [] && text == [] && programs == []
      ensures |scripts| == |builtins|
      ensures forall i :: 0 <= i < |scripts| ==>
        && fresh(scripts[i]) && scripts[i].isBuiltIn && scripts[i].path == None
        && scripts[i].biScript == builtins[i].contents && scripts[i].biName == builtins[i].stem
    {
      valves := [];
      images := [];
      text := [];
      programs := [];
      scripts := [];
      new;
      for k := 0 to |builtins|
        invariant valves == [] && images == [] && text == [] && programs == []
        invariant Valid() && |scripts| == k
        invariant forall i :: 0 <= i < k ==>
          && fresh(scripts[i]) && scripts[i].isBuiltIn && scripts[i].path == None
          && scripts[i].biScript == builtins[i].contents && scripts[i].biName == builtins[i].stem
      {
        var s := new Script(None, true, builtins[k].contents, builtins[k].stem);
        scripts := scripts + [s];
      }
    }

    /** `scripts.append(script)` for a script the chip does not hold yet. */
    method AddScript(script: Script)
      requires Valid() && script.Valid() && script !in scripts
      modifies this`scripts
      ensures Valid() && scripts == old(scripts) + [script]
    {
      scripts := scripts + [script];
    }

    /** `scripts.remove(script)` for a script the chip holds. */
    method RemoveScript(script: Script)
      requires Valid() && script in scripts
      modifies this`scripts
      ensures Valid()
      ensures scripts == RemoveFirst(old(scripts), script) && script !in scripts
    {
      DistinctCount(scripts, script);
      scripts := RemoveFirst(scripts, script);
      assert script !in multiset(scripts);
    }

    /** Give a script of the chip the file `path`. */
    method Relocate(script: Script, path: string)
      requires Valid() && script in scripts
      modifies script`path
      ensures Valid() && script.path == Some(path)
    {
      script.path := Some(path);
    }

    /** Rewrite image paths and file-backed script paths relative to `basePath`; built-ins are skipped. */
    method ConvertPathsToRelative(basePath: string, relpath: (string, string) -> string)
      requires Valid()
      modifies images`path, scripts`path
      ensures Valid()
      ensures forall i :: 0 <= i < |images| ==> images[i].path == relpath(old(images[i].path), basePath)
      ensures forall s :: s in scripts ==>
        s.path == if s.isBuiltIn then old(s.path) else Some(relpath(old(s.path.value), basePath))
    {
      ConvertPaths(p => relpath(p, basePath));
    }

    /** Rewrite image paths and file-backed script paths to `(basePath / path).absolute()`; built-ins are skipped. */
    method ConvertPathsToAbsolute(basePath: string, absolute: (string, string) -> string)
      requires Valid()
      modifies images`path, scripts`path
      ensures Valid()
      ensures forall i :: 0 <= i < |images| ==> images[i].path == absolute(basePath, old(images[i].path))
      ensures forall s :: s in scripts ==>
        s.path == if s.isBuiltIn then old(s.path) else Some(absolute(basePath, old(s.path.value)))
    {
      ConvertPaths(p => absolute(basePath, p));
    }

    /** The two loops both conversions share, with the per-path rewrite as a parameter. */
    method ConvertPaths(convert: string -> string)
      requires Valid()
      modifies images`path, scripts`path
      ensures Valid()
      ensures forall i :: 0 <= i < |images| ==> images[i].path == convert(old(images[i].path))
      ensures forall s :: s in scripts ==>
        s.path == if s.isBuiltIn then old(s.path) else Some(convert(old(s.path.value)))
    {
      ConvertImagePaths(convert);
      ConvertScriptPaths(convert);
    }

    method ConvertImagePaths(convert: string -> string)
      requires Valid()
      modifies images`path
      ensures Valid()
      ensures forall i :: 0 <= i < |images| ==> images[i].path == convert(old(images[i].path))
    {
      for k := 0 to |images|
        invariant forall i :: 0 <= i < k ==> images[i].path == convert(old(images[i].path))
        invariant forall i :: k <= i < |images| ==> images[i].path == old(images[i].path)
      {
        images[k].path := convert(images[k].path);
      }
    }

    method ConvertScriptPaths(convert: string -> string)
      requires Valid()
      modifies scripts`path
      ensures Valid()
      ensures forall s :: s in scripts ==>
        s.path == if s.isBuiltIn then old(s.path) else Some(convert(old(s.path.value)))
    {
      for k := 0 to |scripts|
        invariant Valid()
        invariant forall s :: s in scripts ==> s.isBuiltIn || old(s.path).Some?
        invariant forall i :: 0 <= i < k ==>
          scripts[i].path == if scripts[i].isBuiltIn then old(scripts[i].path) else Some(convert(old(scripts[i].path.value)))
        invariant forall i :: k <= i < |scripts| ==> scripts[i].path == old(scripts[i].path)
      {
        var script := scripts[k];
        if script.isBuiltIn {
          continue;
        }
        script.path := Some(convert(script.path.value));
      }
    }
  }
}
