/**
 * `SocketConfig` of lib/auth/authcore.py: the authentication client's JSON
 * configuration file, its validator `ckfile`, the load-once store around the
 * parsed document and the text layout `commit` gives the document.
 */
module SocketConfigs {
  import opened Results
  import opened PyJson
  import opened Text
  import opened Disk

  /** What `open(value)` does with the value of the Action section's `auth-file`
      key (the model does not decide which values name a readable file). */
  datatype Probe = Opens | NotFound | Fails(exc: PyExc)

  /** `ConfigLoadError`, `InvalidFile`, or a built-in exception nothing catches. */
  datatype SocketFault = ConfigLoadError | InvalidFile(why: Why) | Raised(exc: PyExc)

  /** The exception `load_file` lets out for a failed `ckfile`. */
  function LoadFault(v: Verdict): SocketFault
    requires !v.Pass?
  {
    match v
    case Reject(w) => InvalidFile(w)
    case Crash(e) => Raised(e)
  }

  const AddrKeys: set<string> := {"Port", "Name", "IP", "IP Protocol"}
  const ActionKeys: set<string> := {"auth-file", "Permissive", "SendingMode"}
  const ServerKeys: set<string> := {"Port", "IP", "Name", "IP Protocol", "WaitHS"}

  // ---------------------------------------------------------------------------
  // ckfile

  /** One key of the Addr section. `len(str(v)) <= 0` holds only of the empty string. */
  function AddrEntry(key: string, v: Json): (r: Verdict)
    ensures r.Pass? <==>
      && key in AddrKeys
      && (key == "Port" ==> PyInt(v).Ok? && PyInt(v).value > 0)
      && (key == "Name" || key == "IP" ==> v != JStr(""))
      && (key == "IP Protocol" ==> PyInt(v).Ok? && PyInt(v).value in {4, 6})
    ensures r.Crash? <==> (key == "Port" || key == "IP Protocol") && PyInt(v).Err?
  {
    if key == "Port" then
      (match PyInt(v)
       case Err(e) => Crash(e)
       case Ok(p) => if p <= 0 then Reject(BadValue("Addr", key)) else Pass)
    else if key == "Name" || key == "IP" then
      (if v == JStr("") then Reject(BadValue("Addr", key)) else Pass)
    else if key == "IP Protocol" then
      (match PyInt(v)
       case Err(e) => Crash(e)
       case Ok(p) => if p != 4 && p != 6 then Reject(BadValue("Addr", key)) else Pass)
    else Reject(UnknownField("Addr", key))
  }

  /** The `open` of the auth-file raised FileNotFoundError, the one exception
      the `except FileNotFoundError or PermissionError` clause catches. */
  predicate Missing(p: Probe)
  {
    p == NotFound || p == Fails(FileNotFoundError)
  }

  /** One key of the Action section. `bool(v)` accepts every value, so Permissive
      is never refused; the auth-file is refused only when it does not exist,
      and any other exception its `open` raises escapes. */
  function ActionEntry(key: string, v: Json, probe: Json -> Probe): (r: Verdict)
    ensures r.Pass? <==>
      && key in ActionKeys
      && (key == "auth-file" ==> probe(v) == Opens)
      && (key == "SendingMode" ==> PyInt(v).Ok? && PyInt(v).value in {0, 1, 2})
    ensures r.Reject? && key == "auth-file" <==> key == "auth-file" && Missing(probe(v))
    ensures r.Crash? && key == "auth-file" <==>
      key == "auth-file" && probe(v).Fails? && probe(v).exc != FileNotFoundError
  {
    if key == "auth-file" then
      (match probe(v)
       case Opens => Pass
       case NotFound => Reject(BadAuthFile)
       case Fails(e) => if e == FileNotFoundError then Reject(BadAuthFile) else Crash(e))
    else if key == "Permissive" then Pass
    else if key == "SendingMode" then
      (match PyInt(v)
       case Err(e) => Crash(e)
       case Ok(m) => if m !in {0, 1, 2} then Reject(BadValue("Action", key)) else Pass)
    else Reject(UnknownField("Action", key))
  }

  /** `int(str(v))`, which the Server Port goes through: a boolean prints as
      "True"/"False", null as "None", so only integers and numeric strings pass. */
  function IntOfStr(v: Json): Result<int, PyExc>
  {
    match v
    case JInt(i) => Ok(i)
    case JStr(s) =>
      (match ParseDecimal(s)
       case Some(n) => Ok(n)
       case None => Err(ValueError))
    case _ => Err(ValueError)
  }

  /** One key of the Server section; WaitHS, like Permissive, accepts every value. */
  function ServerEntry(key: string, v: Json): (r: Verdict)
    ensures r.Pass? <==>
      && key in ServerKeys
      && (key == "Port" ==> IntOfStr(v).Ok? && IntOfStr(v).value > 0)
      && (key == "Name" || key == "IP" ==> v != JStr(""))
      && (key == "IP Protocol" ==> PyInt(v).Ok? && PyInt(v).value in {4, 6})
    ensures key == "Port" && v.JBool? ==> r == Crash(ValueError)
  {
    if key == "Port" then
      (match IntOfStr(v)
       case Err(e) => Crash(e)
       case Ok(p) => if p <= 0 then Reject(BadValue("Server", key)) else Pass)
    else if key == "Name" || key == "IP" then
      (if v == JStr("") then Reject(BadValue("Server", key)) else Pass)
    else if key == "IP Protocol" then
      (match PyInt(v)
       case Err(e) => Crash(e)
       case Ok(p) => if p != 4 && p != 6 then Reject(BadValue("Server", key)) else Pass)
    else if key == "WaitHS" then Pass
    else Reject(UnknownField("Server", key))
  }

  /** `prs[name].keys()`. */
  function SectionEntries(doc: Json, name: string): Result<seq<(string, Json)>, PyExc>
  {
    match Subscript(doc, name)
    case Err(e) => Err(e)
    case Ok(section) => Entries(section)
  }

  /** The three loops of `ckfile` over a parsed document, Addr then Action then Server. */
  function CheckSocketDoc(doc: Json, probe: Json -> Probe): Verdict
  {
    match SectionEntries(doc, "Addr")
    case Err(e) => Crash(e)
    case Ok(addr) =>
      var a := Scan(addr, AddrEntry);
      if !a.Pass? then a
      else
        match SectionEntries(doc, "Action")
        case Err(e) => Crash(e)
        case Ok(action) =>
          var b := Scan(action, (k, v) => ActionEntry(k, v, probe));
          if !b.Pass? then b
          else
            match SectionEntries(doc, "Server")
            case Err(e) => Crash(e)
            case Ok(server) => Scan(server, ServerEntry)
  }

  /** The file a document passes `ckfile` with, said declaratively: three
      sections that are objects, and every key present in one allowed there
      with a value in range. Keys that are absent are not required. */
  ghost predicate SocketDocOk(doc: Json, probe: Json -> Probe)
  {
    && SectionEntries(doc, "Addr").Ok?
    && SectionEntries(doc, "Action").Ok?
    && SectionEntries(doc, "Server").Ok?
    && (var addr := SectionEntries(doc, "Addr").value;
        forall i :: 0 <= i < |addr| ==> AddrEntry(addr[i].0, addr[i].1).Pass?)
    && (var action := SectionEntries(doc, "Action").value;
        forall i :: 0 <= i < |action| ==> ActionEntry(action[i].0, action[i].1, probe).Pass?)
    && (var server := SectionEntries(doc, "Server").value;
        forall i :: 0 <= i < |server| ==> ServerEntry(server[i].0, server[i].1).Pass?)
  }

  /** `ckfile` accepts a document exactly when it is well formed. */
  lemma CheckSocketDocSpec(doc: Json, probe: Json -> Probe)
    ensures CheckSocketDoc(doc, probe).Pass? <==> SocketDocOk(doc, probe)
  {
    if SectionEntries(doc, "Addr").Ok? && Scan(SectionEntries(doc, "Addr").value, AddrEntry).Pass?
      && SectionEntries(doc, "Action").Ok?
    {
      var action := SectionEntries(doc, "Action").value;
      var check := (k, v) => ActionEntry(k, v, probe);
      assert forall i :: 0 <= i < |action| ==>
        check(action[i].0, action[i].1) == ActionEntry(action[i].0, action[i].1, probe);
    }
  }

  /** A Port that is an integer of at most 0, or an IP Protocol that is an
      integer other than 4 and 6, in the Addr or the Server section, fails `ckfile`. */
  lemma RejectsBadPortOrProtocol(doc: Json, probe: Json -> Probe, section: string, i: nat, n: int)
    requires section == "Addr" || section == "Server"
    requires SectionEntries(doc, section).Ok?
    requires i < |SectionEntries(doc, section).value|
    requires || (SectionEntries(doc, section).value[i] == ("Port", JInt(n)) && n <= 0)
             || (SectionEntries(doc, section).value[i] == ("IP Protocol", JInt(n)) && n != 4 && n != 6)
    ensures !CheckSocketDoc(doc, probe).Pass?
  {
    CheckSocketDocSpec(doc, probe);
  }

  /** A key outside the allow-list of its section fails `ckfile`. */
  lemma RejectsUnknownKey(doc: Json, probe: Json -> Probe, section: string, i: nat)
    requires section in {"Addr", "Action", "Server"}
    requires SectionEntries(doc, section).Ok?
    requires i < |SectionEntries(doc, section).value|
    requires var key := SectionEntries(doc, section).value[i].0;
      || (section == "Addr" && key !in AddrKeys)
      || (section == "Action" && key !in ActionKeys)
      || (section == "Server" && key !in ServerKeys)
    ensures !CheckSocketDoc(doc, probe).Pass?
  {
    CheckSocketDocSpec(doc, probe);
  }

  /** Only present keys are checked: three empty sections pass. */
  lemma EmptySectionsPass(probe: Json -> Probe)
    ensures CheckSocketDoc(JObj([("Addr", JObj([])), ("Action", JObj([])), ("Server", JObj([]))]), probe) == Pass
  {
  }

  /** `ckfile` on a path: an absent file and text that is not JSON are rejected
      as `InvalidFile`; a file it may not open raises PermissionError, which the
      `except FileNotFoundError or PermissionError` clause does not catch. */
  function CkFile(files: map<string, FileEntry>, path: string, probe: Json -> Probe): (r: Verdict)
    ensures r.Pass? <==> Read(files, path).Ok? && SocketDocOk(Read(files, path).value, probe)
    ensures path in files && files[path].Denied? ==> r == Crash(PermissionError)
    ensures path !in files ==> r == Reject(Unreachable)
    ensures path in files && files[path].Undecodable? ==> r == Reject(Unparsable)
  {
    match Read(files, path)
    case Err(FileNotFoundError) => Reject(Unreachable)
    case Err(JSONDecodeError) => Reject(Unparsable)
    case Err(e) => Crash(e)
    case Ok(doc) =>
      CheckSocketDocSpec(doc, probe);
      CheckSocketDoc(doc, probe)
  }

  // ---------------------------------------------------------------------------
  // The layout `commit(format_json=True)` gives the dumped document

  /** One character of the `dumps` output after the first `passes` passes of the
      formatter: `{` gains a line feed after it, `}` one on each side, `,` one after. */
  function CommitPiece(x: char, passes: nat): string
  {
    if passes >= 1 && x == '{' then "{\n"
    else if passes >= 2 && x == '}' then "\n}\n"
    else if passes >= 3 && x == ',' then ",\n"
    else [x]
  }

  function CommitStage(s: string, passes: nat): string
  {
    if s == [] then [] else CommitPiece(s[0], passes) + CommitStage(s[1..], passes)
  }

  /** The text `commit` writes for the `dumps` output `s`. */
  function CommitLayout(s: string): string
  {
    CommitStage(s, 3)
  }

  /** The replacements of the formatter's pass `k`. */
  function CommitPass(t: string, k: nat): string
    requires k < 3
  {
    if k == 0 then Replace(t, '{', "{\n")
    else if k == 1 then Replace(Replace(t, '}', "\n}"), '}', "}\n")
    else Replace(t, ',', ",\n")
  }

  lemma CommitPassPiece(x: char, k: nat)
    requires k < 3
    ensures CommitPass(CommitPiece(x, k), k) == CommitPiece(x, k + 1)
  {
    var p := CommitPiece(x, k);
    if k == 1 && x == '}' {
      assert p == "}";
      assert Replace(p, '}', "\n}") == "\n}" + Replace([], '}', "\n}");
      assert Replace("\n}", '}', "}\n") == "\n" + Replace("}", '}', "}\n");
    } else if k == 1 {
      ReplaceAbsent(p, '}', "\n}");
      ReplaceAbsent(p, '}', "}\n");
    } else {
      var c := if k == 0 then '{' else ',';
      if x == c {
        assert p == [c];
        assert Replace(p, c, [c, '\n']) == [c, '\n'] + Replace([], c, [c, '\n']);
      } else {
        ReplaceAbsent(p, c, [c, '\n']);
      }
    }
  }

  /** Pass `k` turns the text after `k` passes into the text after `k + 1`. */
  lemma {:induction false} CommitPassStep(s: string, k: nat)
    requires k < 3
    ensures CommitPass(CommitStage(s, k), k) == CommitStage(s, k + 1)
  {
    if s != [] {
      CommitPassStep(s[1..], k);
      CommitPassPiece(s[0], k);
      var p := CommitPiece(s[0], k);
      var rest := CommitStage(s[1..], k);
      if k == 1 {
        ReplaceAppend(p, rest, '}', "\n}");
        ReplaceAppend(Replace(p, '}', "\n}"), Replace(rest, '}', "\n}"), '}', "}\n");
      } else if k == 0 {
        ReplaceAppend(p, rest, '{', "{\n");
      } else {
        ReplaceAppend(p, rest, ',', ",\n");
      }
    }
  }

  lemma {:induction false} CommitStageZero(s: string)
    ensures CommitStage(s, 0) == s
  {
    if s != [] {
      CommitStageZero(s[1..]);
      assert [s[0]] + s[1..] == s;
    }
  }

  /** The loop of `commit` that reassigns `tmp` once per character of
      `["{", "}", ","]`; the `}` pass replaces twice. */
  method FormatForCommit(dumped: string) returns (formatted: string)
    ensures formatted == CommitLayout(dumped)
  {
    var chars := ['{', '}', ','];
    var tmp := "";
    for k := 0 to |chars|
      invariant k > 0 ==> tmp == CommitStage(dumped, k)
    {
      var ck := chars[k];
      if ck == '{' {
        tmp := Replace(dumped, ck, [ck, '\n']);
        CommitStageZero(dumped);
      } else {
        if ck == '}' {
          tmp := Replace(tmp, ck, ['\n', ck]);
        }
        tmp := Replace(tmp, ck, [ck, '\n']);
      }
      CommitPassStep(dumped, k);
    }
    formatted := tmp;
  }

  /** Deleting every line feed from the formatted text gives back the
      (line-feed free) `dumps` output. */
  lemma {:induction false} CommitLayoutStrips(s: string)
    requires '\n' !in s
    ensures StripNewlines(CommitLayout(s)) == s
  {
    if s != [] {
      CommitLayoutStrips(s[1..]);
      var p := CommitPiece(s[0], 3);
      StripAppend(p, CommitLayout(s[1..]));
      StripPiece(s[0]);
      assert [s[0]] + s[1..] == s;
    }
  }

  lemma StripPiece(x: char)
    requires x != '\n'
    ensures StripNewlines(CommitPiece(x, 3)) == [x]
  {
    var p := CommitPiece(x, 3);
    if x == '}' {
      assert p[1..] == "}\n" && p[1..][1..] == "\n" && p[1..][1..][1..] == [];
      assert StripNewlines("\n") == [];
      assert StripNewlines("}\n") == "}" + StripNewlines("\n");
      assert StripNewlines(p) == StripNewlines("}\n");
    } else if x == '{' || x == ',' {
      assert p[1..] == "\n" && p[1..][1..] == [];
    }
  }

  /** The formatter adds one character per `{` and `,` and two per `}`. */
  lemma {:induction false} CommitLayoutLength(s: string)
    ensures |CommitLayout(s)| == |s| + CountIn(s, {'{', ','}) + 2 * CountIn(s, {'}'})
  {
    if s != [] {
      CommitLayoutLength(s[1..]);
    }
  }

  // ---------------------------------------------------------------------------
  // The store

  /** The characters next to which a formatted commit inserts a line feed. */
  const CommitNewlineChars: set<char> := {'{', '}', ','}

  class SocketConfig {
    /** `file_got`, `config`: unset (None) until a file is loaded. */
    var fileGot: Option<string>
    var config: Option<Json>
    var gotFile: bool

    ghost predicate Valid()
      reads this
    {
      gotFile ==> fileGot.Some? && config.Some?
    }

    /** A new instance: `got_file` is the class default False, nothing else is set. */
    constructor ()
      ensures Valid() && !gotFile && fileGot == None && config == None
    {
      fileGot, config, gotFile := None, None, false;
    }

    /** `load_file`: refuses a second load; otherwise validates and keeps the parsed document. */
    method LoadFile(disk: Disk, path: string, probe: Json -> Probe) returns (fault: Option<SocketFault>)
      requires Valid()
      modifies this
      ensures Valid()
      ensures old(gotFile) ==> fault == Some(ConfigLoadError)
      ensures !old(gotFile) ==>
        var check := CkFile(disk.files, path, probe);
        fault == if check.Pass? then None else Some(LoadFault(check))
      ensures fault.Some? ==> unchanged(this)
      ensures fault.None? ==>
        && gotFile && fileGot == Some(path)
        && Read(disk.files, path).Ok? && config == Some(Read(disk.files, path).value)
    {
      if gotFile {
        return Some(ConfigLoadError);
      }
      match CkFile(disk.files, path, probe)
      case Reject(w) => fault := Some(InvalidFile(w));
      case Crash(e) => fault := Some(Raised(e));
      case Pass =>
        fileGot := Some(path);
        config := Some(Read(disk.files, path).value);
        gotFile := true;
        fault := None;
    }

    /** `commit`: refuses when nothing is loaded; otherwise overwrites the loaded
        file with the document, laid out by `FormatForCommit` when `formatJson`. */
    method Commit(disk: Disk, formatJson: bool) returns (fault: Option<SocketFault>)
      requires Valid()
      modifies disk
      ensures !gotFile ==> fault == Some(ConfigLoadError) && unchanged(disk)
      ensures gotFile ==>
        var entry := Written(config.value, if formatJson then CommitNewlineChars else {});
        var path := fileGot.value;
        if path in old(disk.files) && old(disk.files)[path].Denied?
        then fault == Some(Raised(PermissionError)) && disk.files == old(disk.files)
        else fault == None && disk.files == old(disk.files)[path := entry]
    {
      if !gotFile {
        return Some(ConfigLoadError);
      }
      var entry := Written(config.value, if formatJson then CommitNewlineChars else {});
      var e := disk.Write(fileGot.value, entry);
      fault := if e.Some? then Some(Raised(e.value)) else None;
    }

    /** `unload`: commits (formatted), then forgets the document. */
    method Unload(disk: Disk) returns (fault: Option<SocketFault>)
      requires Valid()
      modifies this, disk
      ensures Valid()
      ensures !old(gotFile) ==> fault == Some(ConfigLoadError)
      ensures old(gotFile) ==>
        var path := old(fileGot.value);
        fault == if path in old(disk.files) && old(disk.files)[path].Denied? then Some(Raised(PermissionError)) else None
      ensures fault.Some? ==> unchanged(this) && disk.files == old(disk.files)
      ensures fault.None? ==>
        && old(gotFile)
        && disk.files == old(disk.files)[old(fileGot.value) := Written(old(config.value), CommitNewlineChars)]
        && config == Some(JObj([])) && fileGot == Some("") && !gotFile
    {
      if !gotFile {
        return Some(ConfigLoadError);
      }
      fault := Commit(disk, true);
      if fault.None? {
        config, fileGot, gotFile := Some(JObj([])), Some(""), false;
      }
    }

    /** `SocketConfig(config)`: a fresh instance, loading `config` when given. */
    static method Create(disk: Disk, config: Option<string>, probe: Json -> Probe)
      returns (r: Result<SocketConfig, SocketFault>)
      ensures r.Ok? ==> fresh(r.value) && r.value.Valid()
      ensures config.None? ==> r.Ok? && !r.value.gotFile && r.value.config == None
      ensures config.Some? ==> (r.Ok? <==> CkFile(disk.files, config.value, probe).Pass?)
      ensures config.Some? && r.Ok? ==>
        && r.value.gotFile && r.value.fileGot == config
        && r.value.config == Some(Read(disk.files, config.value).value)
      ensures config.Some? && r.Err? ==> r.error == LoadFault(CkFile(disk.files, config.value, probe))
    {
      var s := new SocketConfig();
      if config.Some? {
        var fault := s.LoadFile(disk, config.value, probe);
        if fault.Some? {
          return Err(fault.value);
        }
      }
      return Ok(s);
    }
  }

  /** A formatted commit of a document with a comma inside a string leaves a
      file the next load cannot parse. */
  lemma FormattedCommitCorruptsCommas()
    ensures Written(JObj([("Server", JObj([("Name", JStr("a,b"))]))]), CommitNewlineChars) == Undecodable
  {
    var inner := JObj([("Name", JStr("a,b"))]);
    assert !StringsAvoid(JStr("a,b"), CommitNewlineChars) by {
      assert "a,b"[1] == ',';
    }
    assert inner.fields[0].1 == JStr("a,b");
    assert !StringsAvoid(inner, CommitNewlineChars);
    var outer := JObj([("Server", inner)]);
    assert outer.fields[0].1 == inner;
    assert !StringsAvoid(outer, CommitNewlineChars);
  }
}
