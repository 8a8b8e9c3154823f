/**
 * The script list of the chip project as the script browser shows and edits
 * it (UI/ScriptBrowser.py): built-ins first, each group ordered by name;
 * importing by path without duplicates; relocating a missing script; the
 * rule for when a script may be removed. The file dialog's answer is a
 * parameter ("" when cancelled); the chip is the one the application holds.
 */
module ScriptBrowser {
  import opened Common
  import opened Chip

  /** Python's `<=` on str: lexicographic over code points. */
  predicate NameLe(a: string, b: string)
    decreases |a|
  {
    a == [] || (b != [] && (a[0] < b[0] || (a[0] == b[0] && NameLe(a[1..], b[1..]))))
  }

  lemma {:induction false} NameLeTotal(a: string, b: string)
    ensures NameLe(a, b) || NameLe(b, a)
    decreases |a|
  {
    if a != [] && b != [] && a[0] == b[0] {
      NameLeTotal(a[1..], b[1..]);
    }
  }

  lemma {:induction false} NameLeTrans(a: string, b: string, c: string)
    requires NameLe(a, b) && NameLe(b, c)
    ensures NameLe(a, c)
    decreases |a|
  {
    if a != [] && b != [] && c != [] && a[0] == b[0] && b[0] == c[0] {
      NameLeTrans(a[1..], b[1..], c[1..]);
    }
  }

  /** A script paired with the name `sorted` compares it by. */
  datatype Entry = Entry(name: string, script: Script)

  predicate SortedByName(es: seq<Entry>) {
    forall i, j :: 0 <= i < j < |es| ==> NameLe(es[i].name, es[j].name)
  }

  function EntryScripts(es: seq<Entry>): (r: seq<Script>)
    ensures |r| == |es|
    ensures forall i :: 0 <= i < |es| ==> r[i] == es[i].script
  {
    seq(|es|, i requires 0 <= i < |es| => es[i].script)
  }

  lemma EntryScriptsAppend(a: seq<Entry>, b: seq<Entry>)
    ensures EntryScripts(a + b) == EntryScripts(a) + EntryScripts(b)
  {
  }

  /** Insert before the first entry whose name is not smaller, so equal names keep their order. */
  function InsertByName(e: Entry, sorted: seq<Entry>): (r: seq<Entry>)
    ensures multiset(r) == multiset(sorted) + multiset{e}
  {
    if sorted == [] then [e]
    else if NameLe(e.name, sorted[0].name) then [e] + sorted
    else
      assert sorted == [sorted[0]] + sorted[1..];
      [sorted[0]] + InsertByName(e, sorted[1..])
  }

  lemma {:induction false} InsertScripts(e: Entry, sorted: seq<Entry>)
    ensures multiset(EntryScripts(InsertByName(e, sorted))) == multiset(EntryScripts(sorted)) + multiset{e.script}
  {
    if sorted == [] {
      assert EntryScripts([e]) == [e.script];
    } else if NameLe(e.name, sorted[0].name) {
      EntryScriptsAppend([e], sorted);
      assert EntryScripts([e]) == [e.script];
    } else {
      InsertScripts(e, sorted[1..]);
      assert sorted == [sorted[0]] + sorted[1..];
      EntryScriptsAppend([sorted[0]], sorted[1..]);
      EntryScriptsAppend([sorted[0]], InsertByName(e, sorted[1..]));
      assert EntryScripts([sorted[0]]) == [sorted[0].script];
    }
  }

  lemma InsertFrontSorted(e: Entry, sorted: seq<Entry>)
    requires SortedByName(sorted) && sorted != [] && NameLe(e.name, sorted[0].name)
    ensures SortedByName([e] + sorted)
  {
    forall j | 1 < j < |sorted| + 1
      ensures NameLe(e.name, ([e] + sorted)[j].name)
    {
      NameLeTrans(e.name, sorted[0].name, sorted[j - 1].name);
    }
  }

  lemma {:induction false} InsertSorted(e: Entry, sorted: seq<Entry>)
    requires SortedByName(sorted)
    ensures SortedByName(InsertByName(e, sorted))
  {
    if sorted != [] {
      if NameLe(e.name, sorted[0].name) {
        InsertFrontSorted(e, sorted);
      } else {
        InsertSorted(e, sorted[1..]);
        NameLeTotal(e.name, sorted[0].name);
        var rest := InsertByName(e, sorted[1..]);
        forall x | x in rest
          ensures NameLe(sorted[0].name, x.name)
        {
          assert x in multiset(rest);
        }
      }
    }
  }

  /** `sorted(..., key=lambda x: x.Name())`: a stable insertion sort on the names. */
  function SortByName(es: seq<Entry>): (r: seq<Entry>)
    ensures multiset(r) == multiset(es)
    ensures multiset(EntryScripts(r)) == multiset(EntryScripts(es))
  {
    if es == [] then []
    else
      assert es == [es[0]] + es[1..];
      EntryScriptsAppend([es[0]], es[1..]);
      assert EntryScripts([es[0]]) == [es[0].script];
      InsertScripts(es[0], SortByName(es[1..]));
      InsertByName(es[0], SortByName(es[1..]))
  }

  lemma {:induction false} SortByNameSorted(es: seq<Entry>)
    ensures SortedByName(SortByName(es))
  {
    if es != [] {
      SortByNameSorted(es[1..]);
      InsertSorted(es[0], SortByName(es[1..]));
    }
  }

  predicate AllValid(ls: seq<Script>)
    reads ls
  {
    forall s :: s in ls ==> s.isBuiltIn || s.path.Some?
  }

  /** Each script with the name it is listed under. */
  function Entries(ls: seq<Script>): (es: seq<Entry>)
    reads ls
    requires AllValid(ls)
    ensures EntryScripts(es) == ls
    ensures forall e :: e in es ==> e.name == e.script.Name()
  {
    seq(|ls|, i requires 0 <= i < |ls| && AllValid(ls) reads ls => Entry(ls[i].Name(), ls[i]))
  }

  /** The scripts of `ls` that are (or are not) built in, in list order. */
  function OfKind(ls: seq<Script>, builtIn: bool): (r: seq<Script>)
    ensures forall s :: s in r ==> s in ls && s.isBuiltIn == builtIn
  {
    if ls == [] then []
    else
      var rest := OfKind(ls[..|ls| - 1], builtIn);
      if ls[|ls| - 1].isBuiltIn == builtIn then rest + [ls[|ls| - 1]] else rest
  }

  lemma {:induction false} OfKindSplits(ls: seq<Script>)
    ensures multiset(OfKind(ls, true)) + multiset(OfKind(ls, false)) == multiset(ls)
  {
    if ls != [] {
      OfKindSplits(ls[..|ls| - 1]);
      assert ls == ls[..|ls| - 1] + [ls[|ls| - 1]];
    }
  }

  /** The order the browser lists scripts in: built-ins before the rest, then by name. */
  predicate ListedBefore(a: Script, b: Script)
    reads a, b
    requires a.Valid() && b.Valid()
  {
    (a.isBuiltIn && !b.isBuiltIn) || (a.isBuiltIn == b.isBuiltIn && NameLe(a.Name(), b.Name()))
  }

  /** The sorted scripts of one kind. */
  function SortedKind(ls: seq<Script>, builtIn: bool): (r: seq<Script>)
    reads ls
    requires AllValid(ls)
    ensures multiset(r) == multiset(OfKind(ls, builtIn))
  {
    EntryScripts(SortByName(Entries(OfKind(ls, builtIn))))
  }

  lemma SortedKindOrdered(ls: seq<Script>, builtIn: bool)
    requires AllValid(ls)
    ensures forall s :: s in SortedKind(ls, builtIn) ==> s in ls && s.isBuiltIn == builtIn
    ensures var r := SortedKind(ls, builtIn);
      forall i, j :: 0 <= i < j < |r| ==> NameLe(r[i].Name(), r[j].Name())
  {
    var kind := OfKind(ls, builtIn);
    var es := Entries(kind);
    var sorted := SortByName(es);
    SortByNameSorted(es);
    var r := SortedKind(ls, builtIn);
    forall s | s in r
      ensures s in ls && s.isBuiltIn == builtIn
    {
      assert s in multiset(kind);
    }
    forall i | 0 <= i < |sorted|
      ensures sorted[i].name == r[i].Name()
    {
      assert sorted[i] in multiset(es);
    }
  }

  /** ScriptBrowser.Scripts: every script of the chip, built-ins first, each group by name. */
  function Scripts(ls: seq<Script>): (r: seq<Script>)
    reads ls
    requires AllValid(ls)
    ensures multiset(r) == multiset(ls)
    ensures forall s :: s in r ==> s in ls
  {
    OfKindSplits(ls);
    var r := SortedKind(ls, true) + SortedKind(ls, false);
    assert forall s :: s in r ==> s in multiset(ls);
    r
  }

  /** The listing is ordered: a built-in before every file-backed script, and names ascending within each group. */
  lemma ScriptsOrdered(ls: seq<Script>)
    requires AllValid(ls)
    ensures var r := Scripts(ls);
      forall i, j :: 0 <= i < j < |r| ==> ListedBefore(r[i], r[j])
  {
    SortedKindOrdered(ls, true);
    SortedKindOrdered(ls, false);
    var bis, rest := SortedKind(ls, true), SortedKind(ls, false);
    var r := Scripts(ls);
    forall i, j | 0 <= i < j < |r|
      ensures ListedBefore(r[i], r[j])
    {
      if j < |bis| {
        assert r[i] == bis[i] && r[j] == bis[j];
      } else if i >= |bis| {
        assert r[i] == rest[i - |bis|] && r[j] == rest[j - |bis|];
      } else {
        assert r[i] in bis && r[j] in rest;
      }
    }
  }

  /** True when one of `programs` runs `s`. */
  predicate InUse(s: Script, programs: seq<Program>)
    reads programs
  {
    exists p :: p in programs && p.script == s
  }

  /**
   * The browser's own state is the list widget's current row (-1 when
   * nothing is selected); the operations below take it and return the new one.
   */
  function SelectedScript(ls: seq<Script>, row: int): (s: Option<Script>)
    reads ls
    requires AllValid(ls)
    ensures s.Some? ==> s.value in ls
  {
    var listed := Scripts(ls);
    var s := PyIndex(listed, row);
    assert s.Some? ==> s.value in multiset(listed);
    s
  }

  /** Relist: the list is refilled and its first row selected (an empty list keeps no current row). */
  function Relist(ls: seq<Script>): (row: int) {
    if ls == [] then -1 else 0
  }

  /**
   * After a relist the selection is the first listed script, which is a
   * built-in whenever the chip has one; with no scripts nothing is selected.
   */
  lemma RelistSelectsFirst(ls: seq<Script>)
    requires AllValid(ls)
    ensures ls == [] <==> SelectedScript(ls, Relist(ls)).None?
    ensures ls != [] ==> SelectedScript(ls, Relist(ls)) == Some(Scripts(ls)[0])
    ensures (exists b :: b in ls && b.isBuiltIn) ==> SelectedScript(ls, Relist(ls)).value.isBuiltIn
  {
    var r := Scripts(ls);
    assert |r| == |multiset(r)| == |multiset(ls)| == |ls|;
    if b :| b in ls && b.isBuiltIn {
      assert b in multiset(ls);
      var j :| 0 <= j < |r| && r[j] == b;
      ScriptsOrdered(ls);
      if j > 0 {
        assert ListedBefore(r[0], r[j]);
      }
    }
  }

  /** SelectScript: the row of `script` in the listing; the row is kept for a script that is not listed. */
  function SelectScript(ls: seq<Script>, script: Script, row: int): (r: int)
    reads ls
    requires AllValid(ls)
    ensures script !in ls ==> r == row
    ensures script in ls ==> SelectedScript(ls, r) == Some(script)
  {
    var listed := Scripts(ls);
    assert script in ls <==> script in multiset(listed);
    if script !in listed then row else IndexOf(listed, script)
  }

  /** The remove rule of SelectionChanged: only a file-backed script no program uses may be removed. */
  function RemoveEnabled(ls: seq<Script>, programs: seq<Program>, row: int): (enabled: bool)
    reads ls, programs
    requires AllValid(ls) && SelectedScript(ls, row).Some?
    ensures var s := SelectedScript(ls, row).value;
      enabled <==> !s.isBuiltIn && forall p :: p in programs ==> p.script != s
  {
    var s := SelectedScript(ls, row).value;
    if s.isBuiltIn then false else !InUse(s, programs)
  }

  /**
   * RemoveScript: drop the selected script from the chip, then relist. A row
   * the listing cannot be indexed with (no scripts left to list) raises
   * IndexError (true) before anything changes.
   */
  method RemoveScript(chip: Chip, row: int) returns (indexError: bool, newRow: int)
    requires chip.Valid() && AllValid(chip.scripts)
    modifies chip`scripts
    ensures chip.Valid()
    ensures indexError <==> old(SelectedScript(chip.scripts, row)).None?
    ensures indexError ==> chip.scripts == old(chip.scripts) && newRow == row
    ensures !indexError ==>
      && old(SelectedScript(chip.scripts, row)).Some?
      && var s := old(SelectedScript(chip.scripts, row)).value;
      && chip.scripts == RemoveFirst(old(chip.scripts), s) && s !in chip.scripts
      && newRow == Relist(chip.scripts)
  {
    var selected := SelectedScript(chip.scripts, row);
    if selected.None? {
      return true, row;
    }
    indexError := false;
    chip.RemoveScript(selected.value);
    newRow := Relist(chip.scripts);
  }

  /** True when a file-backed script of `ls` already has `path`. */
  predicate HasScriptAt(ls: seq<Script>, path: string)
    reads ls
  {
    exists s :: s in ls && !s.isBuiltIn && s.path == Some(path)
  }

  /** `s` is a file-backed script of `ls` at `path`, and no file-backed script before it has that path. */
  predicate FirstAtPath(ls: seq<Script>, s: Script, path: string)
    reads ls, s
  {
    && s in ls && !s.isBuiltIn && s.path == Some(path)
    && forall i :: 0 <= i < IndexOf(ls, s) ==> ls[i].isBuiltIn || ls[i].path != Some(path)
  }

  /** A script with that path appended after scripts none of which has it comes first. */
  lemma FirstAtPathAppended(ls: seq<Script>, s: Script, path: string)
    requires s !in ls && !s.isBuiltIn && s.path == Some(path)
    requires forall t :: t in ls ==> t.isBuiltIn || t.path != Some(path)
    ensures FirstAtPath(ls + [s], s, path)
  {
    assert IndexOf(ls + [s], s) == |ls|;
    assert forall i :: 0 <= i < |ls| ==> (ls + [s])[i] == ls[i];
  }

  /**
   * BrowseForScript after the dialog returned `chosen`: the first file-backed
   * script already at that path, otherwise a new script for it; None when
   * the dialog was cancelled.
   */
  method BrowseForScript(chip: Chip, chosen: string) returns (s: Option<Script>)
    ensures chosen == "" <==> s.None?
    ensures s.Some? && s.value in chip.scripts ==> FirstAtPath(chip.scripts, s.value, chosen)
    ensures s.Some? && s.value !in chip.scripts ==>
      && fresh(s.value) && !s.value.isBuiltIn && s.value.path == Some(chosen)
      && forall t :: t in chip.scripts ==> t.isBuiltIn || t.path != Some(chosen)
  {
    if chosen == "" {
      return None;
    }
    for i := 0 to |chip.scripts|
      invariant forall k :: 0 <= k < i ==> chip.scripts[k].isBuiltIn || chip.scripts[k].path != Some(chosen)
    {
      var existingScript := chip.scripts[i];
      if !existingScript.isBuiltIn && existingScript.path == Some(chosen) {
        assert IndexOf(chip.scripts, existingScript) == i by {
          var j := IndexOf(chip.scripts, existingScript);
          assert j <= i;
        }
        return Some(existingScript);
      }
    }
    var script := new Script(Some(chosen));
    return Some(script);
  }

  /** ImportScript: add the chosen file unless the chip already has a script for it, then select it. */
  method ImportScript(chip: Chip, chosen: string, row: int) returns (newRow: int)
    requires chip.Valid()
    modifies chip`scripts
    ensures chip.Valid() && AllValid(chip.scripts)
    ensures chosen == "" ==> chip.scripts == old(chip.scripts) && newRow == row
    ensures chosen != "" && old(HasScriptAt(chip.scripts, chosen)) ==> chip.scripts == old(chip.scripts)
    ensures chosen != "" && !old(HasScriptAt(chip.scripts, chosen)) ==>
      && |chip.scripts| == |old(chip.scripts)| + 1 && chip.scripts[..|old(chip.scripts)|] == old(chip.scripts)
      && fresh(chip.scripts[|old(chip.scripts)|])
    ensures chosen != "" ==>
      && SelectedScript(chip.scripts, newRow).Some?
      && !SelectedScript(chip.scripts, newRow).value.isBuiltIn
      && SelectedScript(chip.scripts, newRow).value.path == Some(chosen)
    ensures chosen != "" ==>
      SelectedScript(chip.scripts, newRow).Some? && FirstAtPath(chip.scripts, SelectedScript(chip.scripts, newRow).value, chosen)
  {
    var s := BrowseForScript(chip, chosen);
    if s.None? {
      return row;
    }
    var script := s.value;
    AddUnlessHeld(chip, script, chosen);
    newRow := SelectScript(chip.scripts, script, Relist(chip.scripts));
    assert SelectedScript(chip.scripts, newRow) == Some(script);
  }

  /** The `if script not in chip.scripts` step of ImportScript, for the script BrowseForScript returned. */
  method AddUnlessHeld(chip: Chip, script: Script, chosen: string)
    requires chip.Valid()
    requires script in chip.scripts ==> FirstAtPath(chip.scripts, script, chosen)
    requires script !in chip.scripts ==>
      && !script.isBuiltIn && script.path == Some(chosen)
      && forall t :: t in chip.scripts ==> t.isBuiltIn || t.path != Some(chosen)
    modifies chip`scripts
    ensures chip.Valid() && AllValid(chip.scripts) && FirstAtPath(chip.scripts, script, chosen)
    ensures chip.scripts == if old(script in chip.scripts) then old(chip.scripts) else old(chip.scripts) + [script]
    ensures HasScriptAt(chip.scripts, chosen) && (old(HasScriptAt(chip.scripts, chosen)) <==> old(script in chip.scripts))
  {
    if script !in chip.scripts {
      assert !HasScriptAt(chip.scripts, chosen);
      FirstAtPathAppended(chip.scripts, script, chosen);
      chip.AddScript(script);
    } else {
      assert HasScriptAt(chip.scripts, chosen);
    }
  }

  /** The script the row selects, as a set: empty when the row indexes nothing. */
  function SelectedSet(ls: seq<Script>, row: int): (r: set<Script>)
    reads ls
    requires AllValid(ls)
    ensures r == {} <==> SelectedScript(ls, row).None?
    ensures forall s :: s in r ==> Some(s) == SelectedScript(ls, row)
  {
    match SelectedScript(ls, row)
    case Some(s) => {s}
    case None => {}
  }

  /**
   * The first half of RefindScript: browse for a file and, unless the chip
   * already has a script for it (an error, true), point the selected script
   * at it. The selection is read only when relocating, so a row that
   * indexes nothing raises IndexError there (true) and nothing changes.
   */
  method RelocateSelected(chip: Chip, chosen: string, row: int) returns (browsed: Option<Script>, error: bool, indexError: bool)
    requires chip.Valid() && AllValid(chip.scripts)
    modifies SelectedSet(chip.scripts, row)`path
    ensures chip.Valid() && AllValid(chip.scripts)
    ensures browsed.None? <==> chosen == ""
    ensures error <==> chosen != "" && old(HasScriptAt(chip.scripts, chosen))
    ensures indexError <==> chosen != "" && !error && old(SelectedScript(chip.scripts, row)).None?
    ensures old(SelectedScript(chip.scripts, row)).Some? ==>
      var target := old(SelectedScript(chip.scripts, row)).value;
      target.path == if chosen != "" && !error then Some(chosen) else old(target.path)
    ensures error ==> browsed.value in chip.scripts && browsed.value.path == Some(chosen)
    ensures browsed.Some? && !error ==> browsed.value !in chip.scripts
  {
    ghost var target := SelectedScript(chip.scripts, row);
    browsed := BrowseForScript(chip, chosen);
    if browsed.None? {
      return browsed, false, false;
    }
    error := browsed.value in chip.scripts;
    assert error <==> HasScriptAt(chip.scripts, chosen);
    indexError := false;
    if !error {
      var selected := SelectedScript(chip.scripts, row);
      if selected.None? {
        return browsed, false, true;
      }
      chip.Relocate(selected.value, chosen);
      assert target == selected && AllValid(chip.scripts);
    }
  }

  /**
   * RefindScript: relocate the selected script as RelocateSelected does,
   * then rebuild the list and select the browsed script, which the list
   * holds only in the error case.
   */
  method RefindScript(chip: Chip, chosen: string, row: int) returns (error: bool, indexError: bool, newRow: int)
    requires chip.Valid() && AllValid(chip.scripts)
    modifies SelectedSet(chip.scripts, row)`path
    ensures chip.Valid() && AllValid(chip.scripts)
    ensures error <==> chosen != "" && old(HasScriptAt(chip.scripts, chosen))
    ensures indexError <==> chosen != "" && !error && old(SelectedScript(chip.scripts, row)).None?
    ensures old(SelectedScript(chip.scripts, row)).Some? ==>
      var target := old(SelectedScript(chip.scripts, row)).value;
      target.path == if chosen != "" && !error then Some(chosen) else old(target.path)
    ensures chosen == "" || indexError ==> newRow == row
    ensures error ==> SelectedScript(chip.scripts, newRow).Some? && SelectedScript(chip.scripts, newRow).value.path == Some(chosen)
    ensures chosen != "" && !error && !indexError ==> newRow == 0
  {
    var browsed;
    browsed, error, indexError := RelocateSelected(chip, chosen, row);
    if browsed.None? || indexError {
      return error, indexError, row;
    }
    newRow := SelectScript(chip.scripts, browsed.value, Relist(chip.scripts));
  }

  /** RefindScript as evidently intended: after relocating, the relocated script is the one selected. */
  method RefindScriptReselecting(chip: Chip, chosen: string, row: int) returns (error: bool, indexError: bool, newRow: int)
    requires chip.Valid() && AllValid(chip.scripts)
    modifies SelectedSet(chip.scripts, row)`path
    ensures chip.Valid() && AllValid(chip.scripts)
    ensures error <==> chosen != "" && old(HasScriptAt(chip.scripts, chosen))
    ensures indexError <==> chosen != "" && !error && old(SelectedScript(chip.scripts, row)).None?
    ensures old(SelectedScript(chip.scripts, row)).Some? ==>
      var target := old(SelectedScript(chip.scripts, row)).value;
      target.path == if chosen != "" && !error then Some(chosen) else old(target.path)
    ensures chosen == "" || indexError ==> newRow == row
    ensures chosen != "" && !indexError ==>
      SelectedScript(chip.scripts, newRow).Some? && SelectedScript(chip.scripts, newRow).value.path == Some(chosen)
    ensures chosen != "" && !error && !indexError ==>
      SelectedScript(chip.scripts, newRow) == old(SelectedScript(chip.scripts, row))
  {
    var target := SelectedScript(chip.scripts, row);
    var browsed;
    browsed, error, indexError := RelocateSelected(chip, chosen, row);
    if browsed.None? || indexError {
      return error, indexError, row;
    }
    var script := if error then browsed.value else target.value;
    newRow := SelectScript(chip.scripts, script, Relist(chip.scripts));
  }
}
