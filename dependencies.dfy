/**
 * `DependenciesManager` of lib/dependencies-loader.py: the list of Python
 * packages the application needs, its validator `ck_depf`, the reference
 * count, and `install` / `install_all`, which mark entries as installed and
 * issue one `pip` command per entry they mark.
 */
module Dependencies {
  import opened Results
  import opened PyJson
  import opened Text
  import opened Disk

  /** `DependenciesLoadError`, `InvalidDependencies` with the code `ck_depf`
      gave, `DependencyNotFound`, or a built-in exception nothing catches. */
  datatype DepFault =
    | DependenciesLoadError
    | InvalidDependencies(code: nat)
    | DependencyNotFound
    | Escaped(exc: PyExc)

  /** The first element of the tuple `ck_depf` returns, or what it raises. */
  datatype DepCheck = Code(n: nat) | Raises(exc: PyExc)

  // ---------------------------------------------------------------------------
  // ext_countref

  /** How many of `items` carry `Name == ref`, visiting them in order; the
      first entry without a subscriptable Name stops the count. */
  function NameCount(items: seq<Json>, ref: string): Result<nat, PyExc>
  {
    if items == [] then Ok(0)
    else
      match Subscript(items[0], "Name")
      case Err(e) => Err(e)
      case Ok(name) =>
        match NameCount(items[1..], ref)
        case Err(e) => Err(e)
        case Ok(c) => Ok(c + if name == JStr(ref) then 1 else 0)
  }

  /** The count succeeds exactly when every entry has a Name; it is then at
      most the number of entries, and positive exactly when some Name is `ref`;
      a failure is the error of some entry's Name. */
  lemma {:induction false} NameCountSpec(items: seq<Json>, ref: string)
    ensures var r := NameCount(items, ref);
      && (r.Ok? <==> forall k :: 0 <= k < |items| ==> Subscript(items[k], "Name").Ok?)
      && (r.Ok? ==> r.value <= |items|)
      && (r.Ok? ==> (r.value > 0 <==> exists k :: 0 <= k < |items| && Subscript(items[k], "Name") == Ok(JStr(ref))))
      && (r.Err? ==> exists k :: 0 <= k < |items| && Subscript(items[k], "Name") == Err(r.error))
  {
    if items != [] {
      NameCountSpec(items[1..], ref);
      assert forall k :: 1 <= k < |items| ==> items[k] == items[1..][k - 1];
    }
  }

  /** `ext_countref(ref, doc)`. */
  function ExtCount(ref: string, doc: Json): Result<nat, PyExc>
  {
    match Subscript(doc, "Dependencies")
    case Err(e) => Err(e)
    case Ok(deps) =>
      match Elements(deps)
      case Err(e) => Err(e)
      case Ok(items) => NameCount(items, ref)
  }

  function AddCount(c: nat, r: Result<nat, PyExc>): Result<nat, PyExc>
  {
    if r.Ok? then Ok(c + r.value) else r
  }

  /** Counting from entry `i` on is one entry's contribution and the count from `i + 1`. */
  lemma NameCountStep(items: seq<Json>, i: nat, ref: string)
    requires i < |items|
    ensures NameCount(items[i..], ref) ==
      match Subscript(items[i], "Name")
      case Err(e) => Err(e)
      case Ok(n) => AddCount(if n == JStr(ref) then 1 else 0, NameCount(items[i + 1..], ref))
  {
    assert items[i..][0] == items[i] && items[i..][1..] == items[i + 1..];
  }

  /** The counting loop of `ext_countref`. */
  method ExtCountref(ref: string, doc: Json) returns (r: Result<nat, PyExc>)
    ensures r == ExtCount(ref, doc)
  {
    var deps := Subscript(doc, "Dependencies");
    if deps.Err? {
      return Err(deps.error);
    }
    var elems := Elements(deps.value);
    if elems.Err? {
      return Err(elems.error);
    }
    var items := elems.value;
    var c: nat := 0;
    assert items[0..] == items;
    for i := 0 to |items|
      invariant NameCount(items, ref) == AddCount(c, NameCount(items[i..], ref))
    {
      NameCountStep(items, i, ref);
      var name := Subscript(items[i], "Name");
      if name.Err? {
        return Err(name.error);
      }
      if name.value == JStr(ref) {
        c := c + 1;
      }
    }
    assert items[|items|..] == [];
    r := Ok(c);
  }

  // ---------------------------------------------------------------------------
  // ck_depf

  /**
   * `ck_depf` on a path. `dep is not dict` holds of every entry, so any
   * entry in Dependencies gives 4; `restrict is not bool` holds of every
   * value, so a complete GenInfo gives 4 too. An absent file reaches
   * `"..." + e`, which raises TypeError instead of returning 2, and
   * PermissionError escapes the `except FileNotFoundError or PermissionError`
   * clause. No file gets the code 0.
   */
  function CkDepf(files: map<string, FileEntry>, path: string): (r: DepCheck)
    ensures r != Code(0)
    ensures r.Code? ==> r.n in {1, 3, 4}
    ensures Extension(path) != "json" ==> r == Code(1)
    ensures Extension(path) == "json" && path !in files ==> r == Raises(TypeError)
    ensures Extension(path) == "json" && path in files && files[path].Denied? ==> r == Raises(PermissionError)
    ensures Extension(path) == "json" && path in files && files[path].Undecodable? ==> r == Code(1)
  {
    if Extension(path) != "json" then Code(1)
    else
      match Read(files, path)
      case Err(FileNotFoundError) => Raises(TypeError)
      case Err(JSONDecodeError) => Code(1)
      case Err(e) => Raises(e)
      case Ok(prs) => CheckDepDoc(prs)
  }

  /** The body of `ck_depf` on a parsed document. */
  function CheckDepDoc(prs: Json): (r: DepCheck)
    ensures r.Code? ==> r.n in {3, 4}
    ensures Subscript(prs, "Dependencies") == Err(KeyError) ==> r == Code(3)
    ensures (Subscript(prs, "Dependencies").Ok? && Elements(Subscript(prs, "Dependencies").value) == Ok([])
             && var info := Subscript(prs, "GenInfo");
                || info == Err(KeyError)
                || (info.Ok? && Subscript(info.value, "Version") == Err(KeyError))
                || (info.Ok? && Subscript(info.value, "Version").Ok? && Subscript(info.value, "Restrict") == Err(KeyError)))
            ==> r == Code(3)
    ensures r.Raises? ==> r.exc != KeyError
    ensures (Subscript(prs, "Dependencies").Ok? && Elements(Subscript(prs, "Dependencies").value).Ok?
             && |Elements(Subscript(prs, "Dependencies").value).value| > 0) ==> r == Code(4)
    ensures r == Code(4) <==>
      && Subscript(prs, "Dependencies").Ok?
      && Elements(Subscript(prs, "Dependencies").value).Ok?
      && (|Elements(Subscript(prs, "Dependencies").value).value| > 0
          || (Subscript(prs, "GenInfo").Ok?
              && Subscript(Subscript(prs, "GenInfo").value, "Version").Ok?
              && Subscript(Subscript(prs, "GenInfo").value, "Restrict").Ok?))
  {
    match Subscript(prs, "Dependencies")
    case Err(KeyError) => Code(3)
    case Err(e) => Raises(e)
    case Ok(deps) =>
      match Elements(deps)
      case Err(e) => Raises(e)
      case Ok(items) =>
        if |items| > 0 then Code(4)
        else
          match Subscript(prs, "GenInfo")
          case Err(KeyError) => Code(3)
          case Err(e) => Raises(e)
          case Ok(info) =>
            match Subscript(info, "Version")
            case Err(KeyError) => Code(3)
            case Err(e) => Raises(e)
            case Ok(ver) =>
              match Subscript(info, "Restrict")
              case Err(KeyError) => Code(3)
              case Err(e) => Raises(e)
              case Ok(restrict) => Code(4)
  }

  /** The document the class documentation describes, one package under a
      `.json` name, is refused with the code 4. */
  lemma DocumentedFileRefused(files: map<string, FileEntry>, path: string, name: string, package: string)
    requires Extension(path) == "json"
    requires path in files
    requires files[path] == Doc(JObj([
      ("Dependencies", JArr([JObj([("Name", JStr(name)), ("Package", JStr(package)), ("Installed", JBool(false))])])),
      ("GenInfo", JObj([("Version", JStr("1.0")), ("Restrict", JBool(true))]))]))
    ensures CkDepf(files, path) == Code(4)
  {
    var prs := files[path].json;
    assert prs.fields[0].0 == "Dependencies";
  }

  // ---------------------------------------------------------------------------
  // install and install_all

  /** `"2." in sys.version`. */
  predicate MentionsTwoDot(version: string)
  {
    exists i :: 0 <= i < |version| - 1 && version[i] == '2' && version[i + 1] == '.'
  }

  /** The command prefix `install` picks for the interpreter's `sys.version`. */
  function PipFor(version: string): string
  {
    if MentionsTwoDot(version) then "pip install " else "pip3 install "
  }

  /** The test meant to recognise Python 2 also matches a Python 3 whose minor
      version ends in 2: under 3.12 the commands use `pip`, not `pip3`. */
  lemma MinorTwelvePicksPip(version: string)
    requires |version| >= 5 && version[..5] == "3.12."
    ensures PipFor(version) == "pip install "
  {
    assert version[3] == '2' && version[4] == '.';
  }

  /** The entries a run is asked to install. */
  predicate Selected(dep: Json, only: Option<string>)
  {
    only.None? || Subscript(dep, "Name") == Ok(JStr(only.value))
  }

  /** What the loop body does with one entry. */
  datatype Step = Keep | Mark(marked: Json, command: string) | Fail(exc: PyExc)

  /**
   * One pass of the loop of `install(ref)` (`only == Some(ref)`) or of
   * `install_all` (`only == None`): an entry that is not selected or already
   * truthy as Installed is kept; otherwise `pip install <Package>` is issued
   * and Installed is set to True in place.
   */
  function StepOf(dep: Json, only: Option<string>, version: string): (s: Step)
    ensures s.Mark? <==>
      && Selected(dep, only)
      && Subscript(dep, "Installed").Ok? && !Truthy(Subscript(dep, "Installed").value)
      && Subscript(dep, "Package").Ok? && Subscript(dep, "Package").value.JStr?
    ensures s.Mark? ==>
      && dep.JObj? && s.marked.JObj?
      && |s.marked.fields| == |dep.fields|
      && (forall k :: 0 <= k < |dep.fields| ==> s.marked.fields[k].0 == dep.fields[k].0)
      && (forall k :: 0 <= k < |dep.fields| && dep.fields[k].0 != "Installed" ==> s.marked.fields[k] == dep.fields[k])
      && Subscript(s.marked, "Installed") == Ok(JBool(true))
      && Subscript(dep, "Package").Ok? && Subscript(dep, "Package").value.JStr?
      && s.command == PipFor(version) + Subscript(dep, "Package").value.s
  {
    var named :=
      if only.None? then Ok(true)
      else
        match Subscript(dep, "Name")
        case Err(e) => Err(e)
        case Ok(n) => Ok(n == JStr(only.value));
    match named
    case Err(e) => Fail(e)
    case Ok(false) => Keep
    case Ok(true) =>
      match Subscript(dep, "Installed")
      case Err(e) => Fail(e)
      case Ok(inst) =>
        if Truthy(inst) then Keep
        else
          match Subscript(dep, "Package")
          case Err(e) => Fail(e)
          case Ok(pkg) =>
            if !pkg.JStr? then Fail(TypeError)
            else
              var fields := SetField(dep.fields, "Installed", JBool(true));
              LookupSet(dep.fields, "Installed", JBool(true));
              Mark(JObj(fields), PipFor(version) + pkg.s)
  }

  /** After `d[key] = v` on a present key, `d[key]` is `v`. */
  lemma LookupSet(fields: seq<(string, Json)>, key: string, v: Json)
    requires Lookup(fields, key).Some?
    ensures Lookup(SetField(fields, key, v), key) == Some(v)
  {
    if fields[0].0 != key {
      LookupSet(fields[1..], key, v);
      assert SetField(fields, key, v)[1..] == SetField(fields[1..], key, v);
    }
  }

  /** The step the loop body takes on each entry, in order. */
  function Steps(items: seq<Json>, only: Option<string>, version: string): (steps: seq<Step>)
    ensures |steps| == |items|
    ensures forall k :: 0 <= k < |items| ==> steps[k] == StepOf(items[k], only, version)
  {
    seq(|items|, k requires 0 <= k < |items| => StepOf(items[k], only, version))
  }

  /** An entry as a step leaves it. */
  function Apply(step: Step, dep: Json): Json
  {
    if step.Mark? then step.marked else dep
  }

  /**
   * The loop from entry `i` on, given the step of each entry. `updated` holds
   * the entries as the earlier passes left them and `issued` the commands
   * issued so far. The result is the entries as they are left, every command
   * issued, and the exception that stopped the loop; the entries marked before
   * it stay marked.
   */
  function RunFrom(steps: seq<Step>, i: nat, updated: seq<Json>, issued: seq<string>)
    : (r: (seq<Json>, seq<string>, Option<PyExc>))
    requires i <= |steps| && |updated| == |steps|
    ensures |r.0| == |steps|
    ensures |r.1| <= |issued| + |steps| - i
    decreases |steps| - i
  {
    if i == |steps| then (updated, issued, None)
    else
      match steps[i]
      case Fail(e) => (updated, issued, Some(e))
      case Keep => RunFrom(steps, i + 1, updated, issued)
      case Mark(d, cmd) => RunFrom(steps, i + 1, updated[i := d], issued + [cmd])
  }

  /** The whole loop over `items`. */
  function Run(items: seq<Json>, only: Option<string>, version: string): (seq<Json>, seq<string>, Option<PyExc>)
  {
    RunFrom(Steps(items, only, version), 0, items, [])
  }

  /** An entry as its own pass leaves it. */
  function After(dep: Json, only: Option<string>, version: string): Json
  {
    Apply(StepOf(dep, only, version), dep)
  }

  /** A run that raised nothing met no failing step and left each entry from
      `i` on as its step leaves it, and the earlier ones alone. */
  lemma {:induction false} RunFromShape(steps: seq<Step>, i: nat, updated: seq<Json>, issued: seq<string>)
    requires i <= |steps| && |updated| == |steps|
    requires RunFrom(steps, i, updated, issued).2.None?
    ensures var u := RunFrom(steps, i, updated, issued).0;
      && (forall k :: 0 <= k < i ==> u[k] == updated[k])
      && (forall k :: i <= k < |steps| ==> !steps[k].Fail? && u[k] == Apply(steps[k], updated[k]))
    decreases |steps| - i
  {
    if i < |steps| {
      if steps[i].Mark? {
        RunFromShape(steps, i + 1, updated[i := steps[i].marked], issued + [steps[i].command]);
      } else {
        RunFromShape(steps, i + 1, updated, issued);
      }
    }
  }

  /** The commands of the marking steps, in order. */
  function MarkCommands(steps: seq<Step>): seq<string>
  {
    if steps == [] then []
    else (if steps[0].Mark? then [steps[0].command] else []) + MarkCommands(steps[1..])
  }

  /** The first step from `i` on that raises, or `|steps|` when none does. */
  function FirstFail(steps: seq<Step>, i: nat): (j: nat)
    requires i <= |steps|
    ensures i <= j <= |steps|
    ensures forall k :: i <= k < j ==> !steps[k].Fail?
    ensures j < |steps| ==> steps[j].Fail?
    decreases |steps| - i
  {
    if i == |steps| || steps[i].Fail? then i else FirstFail(steps, i + 1)
  }

  /** The loop from `i` on issues the commands of the marking steps before the
      first step that raises, in order, and stops with that step's exception. */
  lemma {:induction false} RunFromCommands(steps: seq<Step>, i: nat, updated: seq<Json>, issued: seq<string>)
    requires i <= |steps| && |updated| == |steps|
    ensures var j := FirstFail(steps, i);
      var r := RunFrom(steps, i, updated, issued);
      && r.1 == issued + MarkCommands(steps[i..j])
      && r.2 == (if j < |steps| then Some(steps[j].exc) else None)
    decreases |steps| - i
  {
    var j := FirstFail(steps, i);
    if i < |steps| && !steps[i].Fail? {
      assert j == FirstFail(steps, i + 1);
      assert steps[i..j][0] == steps[i] && steps[i..j][1..] == steps[i + 1..j];
      if steps[i].Mark? {
        var cmd := steps[i].command;
        RunFromCommands(steps, i + 1, updated[i := steps[i].marked], issued + [cmd]);
        assert issued + [cmd] + MarkCommands(steps[i + 1..j]) == issued + ([cmd] + MarkCommands(steps[i + 1..j]));
      } else {
        RunFromCommands(steps, i + 1, updated, issued);
        assert [] + MarkCommands(steps[i + 1..j]) == MarkCommands(steps[i + 1..j]);
      }
    } else {
      assert steps[i..j] == [];
      assert issued + [] == issued;
    }
  }

  /**
   * The commands a run issues: `pip install <Package>` (or `pip3`) for each
   * entry it marks, that is each selected entry whose Installed is falsy,
   * in the order of the entries, up to the first entry that raises.
   */
  lemma RunCommands(items: seq<Json>, only: Option<string>, version: string)
    ensures var steps := Steps(items, only, version);
      var j := FirstFail(steps, 0);
      && Run(items, only, version).1 == MarkCommands(steps[..j])
      && Run(items, only, version).2 == (if j < |items| then Some(steps[j].exc) else None)
  {
    var steps := Steps(items, only, version);
    RunFromCommands(steps, 0, items, []);
    assert steps[0..FirstFail(steps, 0)] == steps[..FirstFail(steps, 0)];
    assert [] + MarkCommands(steps[..FirstFail(steps, 0)]) == MarkCommands(steps[..FirstFail(steps, 0)]);
  }

  /** After a run that raised nothing, every selected entry has a truthy
      Installed, and every other entry is as it was. */
  lemma RunMarksSelected(items: seq<Json>, only: Option<string>, version: string)
    requires Run(items, only, version).2.None?
    ensures var u := Run(items, only, version).0;
      forall k :: 0 <= k < |items| ==>
        && (Selected(items[k], only) ==> Subscript(u[k], "Installed").Ok? && Truthy(Subscript(u[k], "Installed").value))
        && (!Selected(items[k], only) ==> u[k] == items[k])
  {
    RunFromShape(Steps(items, only, version), 0, items, []);
    forall k | 0 <= k < |items|
      ensures var a := After(items[k], only, version);
        && (Selected(items[k], only) ==> Subscript(a, "Installed").Ok? && Truthy(Subscript(a, "Installed").value))
        && (!Selected(items[k], only) ==> a == items[k])
    {
      StepFacts(items[k], only, version);
    }
  }

  /** One pass on an entry that does not raise: a selected entry ends with a
      truthy Installed; any other entry is left alone. */
  lemma StepFacts(dep: Json, only: Option<string>, version: string)
    requires !StepOf(dep, only, version).Fail?
    ensures Selected(dep, only) ==>
      Subscript(After(dep, only, version), "Installed").Ok? && Truthy(Subscript(After(dep, only, version), "Installed").value)
    ensures !Selected(dep, only) ==> After(dep, only, version) == dep
  {
  }

  /** A marked entry is still selected and its name is unchanged. */
  lemma MarkKeepsName(dep: Json, only: Option<string>, version: string)
    requires StepOf(dep, only, version).Mark?
    ensures Subscript(StepOf(dep, only, version).marked, "Name") == Subscript(dep, "Name")
    ensures Selected(StepOf(dep, only, version).marked, only)
  {
    var fields := dep.fields;
    var fields' := SetField(fields, "Installed", JBool(true));
    LookupOther(fields, "Installed", JBool(true), "Name");
  }

  /** `d[key] = v` leaves every other key's value as it was. */
  lemma LookupOther(fields: seq<(string, Json)>, key: string, v: Json, other: string)
    requires other != key
    ensures Lookup(SetField(fields, key, v), other) == Lookup(fields, other)
  {
    if fields != [] {
      LookupOther(fields[1..], key, v, other);
      assert SetField(fields, key, v)[1..] == SetField(fields[1..], key, v);
    }
  }

  /** Running again after a run that raised nothing changes no entry and issues no command. */
  lemma RunIdempotent(items: seq<Json>, only: Option<string>, version: string)
    requires Run(items, only, version).2.None?
    ensures var u := Run(items, only, version).0;
      Run(u, only, version) == (u, [], None)
  {
    var u := Run(items, only, version).0;
    RunFromShape(Steps(items, only, version), 0, items, []);
    var again := Steps(u, only, version);
    forall k | 0 <= k < |u| ensures again[k] == Keep {
      AfterIsKept(items[k], only, version);
    }
    AllKeptRun(again, 0, u, []);
  }

  /** An entry a pass has been through is kept by the next pass. */
  lemma AfterIsKept(dep: Json, only: Option<string>, version: string)
    requires !StepOf(dep, only, version).Fail?
    ensures StepOf(After(dep, only, version), only, version) == Keep
  {
    if StepOf(dep, only, version).Mark? {
      MarkKeepsName(dep, only, version);
    }
  }

  /** Steps that all keep their entry: the run issues nothing and changes nothing. */
  lemma {:induction false} AllKeptRun(steps: seq<Step>, i: nat, updated: seq<Json>, issued: seq<string>)
    requires i <= |steps| && |updated| == |steps|
    requires forall k :: i <= k < |steps| ==> steps[k] == Keep
    ensures RunFrom(steps, i, updated, issued) == (updated, issued, None)
    decreases |steps| - i
  {
    if i < |steps| {
      AllKeptRun(steps, i + 1, updated, issued);
    }
  }

  /** `self.document['Dependencies']` after the loop: the entries were changed
      in place, which shows in the document only when Dependencies is a list. */
  function WriteBack(doc: Json, updated: seq<Json>): Json
  {
    if doc.JObj? && Subscript(doc, "Dependencies").Ok? && Subscript(doc, "Dependencies").value.JArr?
    then JObj(SetField(doc.fields, "Dependencies", JArr(updated)))
    else doc
  }

  /** The loop over `document['Dependencies']` shared by `install` and `install_all`:
      the new document, the commands issued, and the exception, if any. */
  function InstallLoop(doc: Json, only: Option<string>, version: string): (Json, seq<string>, Option<PyExc>)
  {
    match Subscript(doc, "Dependencies")
    case Err(e) => (doc, [], Some(e))
    case Ok(deps) =>
      match Elements(deps)
      case Err(e) => (doc, [], Some(e))
      case Ok(items) =>
        var (u, c, f) := Run(items, only, version);
        (WriteBack(doc, u), c, f)
  }

  /** The loop of `install` / `install_all` over the entries, one at a time;
      the entries it changed stay changed when a later entry raises. */
  method RunEntries(items: seq<Json>, only: Option<string>, version: string)
    returns (updated: seq<Json>, commands: seq<string>, fault: Option<PyExc>)
    ensures (updated, commands, fault) == Run(items, only, version)
  {
    updated := items;
    commands := [];
    fault := None;
    ghost var steps := Steps(items, only, version);
    var i := 0;
    while i < |items|
      invariant i <= |items| && |updated| == |items|
      invariant RunFrom(steps, i, updated, commands) == Run(items, only, version)
    {
      var step := StepOf(items[i], only, version);
      if step.Fail? {
        return updated, commands, Some(step.exc);
      }
      if step.Mark? {
        updated := updated[i := step.marked];
        commands := commands + [step.command];
      }
      i := i + 1;
    }
  }

  /** `for dep in self.document['Dependencies']` around `RunEntries`. */
  method RunLoop(doc: Json, only: Option<string>, version: string) returns (doc': Json, commands: seq<string>, fault: Option<PyExc>)
    ensures (doc', commands, fault) == InstallLoop(doc, only, version)
  {
    var deps := Subscript(doc, "Dependencies");
    if deps.Err? {
      return doc, [], Some(deps.error);
    }
    var elems := Elements(deps.value);
    if elems.Err? {
      return doc, [], Some(elems.error);
    }
    var updated;
    updated, commands, fault := RunEntries(elems.value, only, version);
    doc' := WriteBack(doc, updated);
  }

  // ---------------------------------------------------------------------------
  // The store

  class DependenciesManager {
    /** `dep_file` and `document`: unset until something assigns them. */
    var depFile: Option<string>
    var document: Option<Json>
    var gotFile: bool

    ghost predicate Valid()
      reads this
    {
      gotFile ==> depFile.Some? && document.Some?
    }

    /** `DependenciesManager()`: `got_file` is the class default False, nothing else is set. */
    constructor ()
      ensures Valid() && depFile == None && document == None && !gotFile
    {
      depFile, document, gotFile := None, None, false;
    }

    /** An instance whose attributes a caller assigned directly, the only way
        one gets a document, since `load_file` never succeeds. */
    constructor Assigned(path: string, doc: Json)
      ensures Valid() && depFile == Some(path) && document == Some(doc) && gotFile
    {
      depFile, document, gotFile := Some(path), Some(doc), true;
    }

    /** `load_file`: refuses a second load, then gives up with the code of
        `ck_depf`, which is never 0, or lets its exception out. */
    method LoadFile(disk: Disk, path: string) returns (fault: Option<DepFault>)
      modifies this
      ensures fault.Some? && unchanged(this)
      ensures old(gotFile) ==> fault == Some(DependenciesLoadError)
      ensures !old(gotFile) ==>
        fault == match CkDepf(disk.files, path)
                 case Code(c) => Some(InvalidDependencies(c))
                 case Raises(e) => Some(Escaped(e))
    {
      if gotFile {
        return Some(DependenciesLoadError);
      }
      match CkDepf(disk.files, path)
      case Raises(e) =>
        return Some(Escaped(e));
      case Code(c) =>
        if c != 0 {
          return Some(InvalidDependencies(c));
        }
        assert false;
    }

    /** `DependenciesManager(dep)`: with a file the construction always fails. */
    static method Create(disk: Disk, dep: Option<string>) returns (r: Result<DependenciesManager, DepFault>)
      ensures dep.None? ==> r.Ok? && fresh(r.value) && !r.value.gotFile && r.value.document == None
      ensures dep.Some? ==> r.Err?
    {
      var m := new DependenciesManager();
      if dep.Some? {
        var fault := m.LoadFile(disk, dep.value);
        return Err(fault.value);
      }
      return Ok(m);
    }

    /** `countref(ref)`. */
    method Countref(ref: string) returns (r: Result<nat, DepFault>)
      requires Valid()
      ensures !gotFile ==> r == Err(DependenciesLoadError)
      ensures gotFile ==> r == match ExtCount(ref, document.value)
                               case Ok(n) => Ok(n)
                               case Err(e) => Err(Escaped(e))
    {
      if !gotFile {
        return Err(DependenciesLoadError);
      }
      var c := ExtCountref(ref, document.value);
      r := if c.Ok? then Ok(c.value) else Err(Escaped(c.error));
    }

    /** `install(ref)`: the entries named `ref` that are not installed yet get
        a `pip` command each and Installed set to True. */
    method Install(ref: string, version: string) returns (commands: seq<string>, fault: Option<DepFault>)
      requires Valid()
      modifies this
      ensures Valid() && depFile == old(depFile) && gotFile == old(gotFile)
      ensures !old(gotFile) ==> fault == Some(DependenciesLoadError) && commands == [] && unchanged(this)
      ensures old(gotFile) && ExtCount(ref, old(document.value)).Err? ==>
        fault == Some(Escaped(ExtCount(ref, old(document.value)).error)) && commands == [] && unchanged(this)
      ensures old(gotFile) && ExtCount(ref, old(document.value)) == Ok(0) ==>
        fault == Some(DependencyNotFound) && commands == [] && unchanged(this)
      ensures old(gotFile) && ExtCount(ref, old(document.value)).Ok? && ExtCount(ref, old(document.value)).value > 0 ==>
        var (doc', cmds, f) := InstallLoop(old(document.value), Some(ref), version);
        && document == Some(doc') && commands == cmds
        && fault == (if f.Some? then Some(Escaped(f.value)) else None)
    {
      var count := Countref(ref);
      if count.Err? {
        return [], Some(count.error);
      }
      if count.value == 0 {
        return [], Some(DependencyNotFound);
      }
      var doc', f;
      doc', commands, f := RunLoop(document.value, Some(ref), version);
      document := Some(doc');
      fault := if f.Some? then Some(Escaped(f.value)) else None;
    }

    /** `install_all`: every entry not installed yet gets a `pip` command and
        Installed set to True. */
    method InstallAll(version: string) returns (commands: seq<string>, fault: Option<DepFault>)
      requires Valid()
      modifies this
      ensures Valid() && depFile == old(depFile) && gotFile == old(gotFile)
      ensures !old(gotFile) ==> fault == Some(DependenciesLoadError) && commands == [] && unchanged(this)
      ensures old(gotFile) ==>
        var (doc', cmds, f) := InstallLoop(old(document.value), None, version);
        && document == Some(doc') && commands == cmds
        && fault == (if f.Some? then Some(Escaped(f.value)) else None)
    {
      if !gotFile {
        return [], Some(DependenciesLoadError);
      }
      var doc', f;
      doc', commands, f := RunLoop(document.value, None, version);
      document := Some(doc');
      fault := if f.Some? then Some(Escaped(f.value)) else None;
    }

    /** `reload`: reads the file again, without validating it. */
    method Reload(disk: Disk) returns (fault: Option<DepFault>)
      requires Valid()
      modifies this
      ensures Valid() && depFile == old(depFile) && gotFile == old(gotFile)
      ensures !gotFile ==> fault == Some(DependenciesLoadError) && unchanged(this)
      ensures gotFile ==>
        var read := Read(disk.files, depFile.value);
        if read.Ok? then fault == None && document == Some(read.value)
        else fault == Some(Escaped(read.error)) && unchanged(this)
    {
      if !gotFile {
        return Some(DependenciesLoadError);
      }
      var read := Read(disk.files, depFile.value);
      if read.Err? {
        return Some(Escaped(read.error));
      }
      document := Some(read.value);
      fault := None;
    }

    /** `commit`: writes `json.dumps(document)` over the file. */
    method Commit(disk: Disk) returns (fault: Option<DepFault>)
      requires Valid()
      modifies disk
      ensures !gotFile ==> fault == Some(DependenciesLoadError) && unchanged(disk)
      ensures gotFile ==>
        var path := depFile.value;
        if path in old(disk.files) && old(disk.files)[path].Denied?
        then fault == Some(Escaped(PermissionError)) && disk.files == old(disk.files)
        else fault == None && disk.files == old(disk.files)[path := Doc(document.value)]
    {
      if !gotFile {
        return Some(DependenciesLoadError);
      }
      PlainWriteRereads(document.value);
      var e := disk.Write(depFile.value, Written(document.value, {}));
      fault := if e.Some? then Some(Escaped(e.value)) else None;
    }

    /** `unload_file`: commits, then forgets the document. */
    method UnloadFile(disk: Disk) returns (fault: Option<DepFault>)
      requires Valid()
      modifies this, disk
      ensures Valid()
      ensures !old(gotFile) ==> fault == Some(DependenciesLoadError)
      ensures old(gotFile) ==>
        var path := old(depFile.value);
        fault == if path in old(disk.files) && old(disk.files)[path].Denied? then Some(Escaped(PermissionError)) else None
      ensures fault.Some? ==> unchanged(this) && disk.files == old(disk.files)
      ensures fault.None? ==>
        && disk.files == old(disk.files)[old(depFile.value) := Doc(old(document.value))]
        && document == Some(JObj([])) && depFile == Some("") && !gotFile
    {
      if !gotFile {
        return Some(DependenciesLoadError);
      }
      fault := Commit(disk);
      if fault.None? {
        document, depFile, gotFile := Some(JObj([])), Some(""), false;
      }
    }
  }

  /** Installing everything twice: the second pass issues no command and
      leaves the document as the first left it. */
  method InstallAllTwice(path: string, doc: Json, version: string)
    returns (first: seq<string>, second: seq<string>, fault: Option<DepFault>)
    ensures fault.None? ==> second == []
  {
    var m := new DependenciesManager.Assigned(path, doc);
    first, fault := m.InstallAll(version);
    if fault.Some? {
      return first, [], fault;
    }
    InstallLoopIdempotent(doc, None, version);
    second, fault := m.InstallAll(version);
  }

  /** The loop on the document it left behind, after it raised nothing,
      issues no command and changes nothing. */
  lemma InstallLoopIdempotent(doc: Json, only: Option<string>, version: string)
    requires InstallLoop(doc, only, version).2.None?
    ensures var doc' := InstallLoop(doc, only, version).0;
      InstallLoop(doc', only, version) == (doc', [], None)
  {
    var deps := Subscript(doc, "Dependencies").value;
    var items := Elements(deps).value;
    var u := Run(items, only, version).0;
    RunIdempotent(items, only, version);
    if deps.JArr? {
      var doc' := JObj(SetField(doc.fields, "Dependencies", JArr(u)));
      assert InstallLoop(doc, only, version).0 == doc';
      LookupSet(doc.fields, "Dependencies", JArr(u));
      assert Subscript(doc', "Dependencies") == Ok(JArr(u));
      assert Elements(JArr(u)) == Ok(u);
      SetFieldTwice(doc.fields, "Dependencies", JArr(u));
      assert WriteBack(doc', u) == doc';
    } else {
      NoStringSurvives(items, only, version);
    }
  }

  /** Setting a key to the value it was just set to changes nothing. */
  lemma SetFieldTwice(fields: seq<(string, Json)>, key: string, v: Json)
    ensures SetField(SetField(fields, key, v), key, v) == SetField(fields, key, v)
  {
  }

  /** The entries of a dict or a string (its keys, its characters) are strings,
      which refuse a string index: a run over them raises unless there are none. */
  lemma NoStringSurvives(items: seq<Json>, only: Option<string>, version: string)
    requires forall k :: 0 <= k < |items| ==> items[k].JStr?
    requires Run(items, only, version).2.None?
    ensures items == []
  {
  }
}
