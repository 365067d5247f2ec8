/**
 * `Configurations` of config/configurations.py: the application's settings
 * file, its validator `ckconfig`, the text layout `format_json` and the
 * load-once store around the parsed document.
 */
module AppConfig {
  import opened Results
  import opened PyJson
  import opened Text
  import opened Disk

  /** `ConfigurationsLoadError`, `InvalidConfig`, or a built-in exception nothing catches. */
  datatype ConfigFault = ConfigurationsLoadError | InvalidConfig(why: Why) | Uncaught(exc: PyExc)

  const MainFields: set<string> := {"Dependencies", "CLI", "GUI", "Login", "Logs"}
  const DependencyKeys: set<string> := {"AutoCheck", "RunWithout", "Checked"}
  const CliKeys: set<string> := {"Color", "Min", "VerboseAlways", "ErrorSource", "LogActivity"}
  const GuiKeys: set<string> := {"Min", "ShowErrors", "LogActivity"}
  const LoginFlags: set<string> := {"Enabled", "UsingToken"}
  const LoginFields: set<string> := {"Username", "Token", "Password"}
  const LogKeys: set<string> := {"Auth", "Database", "GUI", "CLI", "General"}

  // ---------------------------------------------------------------------------
  // ckconfig

  /** One key of a section whose allowed keys all take a boolean. */
  function FlagEntry(section: string, allowed: set<string>, key: string, v: Json): (r: Verdict)
    ensures r.Pass? <==> key in allowed && v.JBool?
    ensures !r.Crash?
  {
    if key in allowed then (if v.JBool? then Pass else Reject(BadValue(section, key)))
    else Reject(UnknownField(section, key))
  }

  /** One key of Logs: every allowed key takes a string. */
  function LogEntry(key: string, v: Json): (r: Verdict)
    ensures r.Pass? <==> key in LogKeys && v.JStr?
    ensures !r.Crash?
  {
    if key in LogKeys then (if v.JStr? then Pass else Reject(BadValue("Logs", key)))
    else Reject(UnknownField("Logs", key))
  }

  /** One key of Login's Data: Username a string; Token and Password a string or null. */
  function DataEntry(key: string, v: Json): (r: Verdict)
    ensures r.Pass? <==>
      && key in LoginFields
      && (key == "Username" ==> v.JStr?)
      && (key != "Username" ==> v.JStr? || v.JNull?)
    ensures !r.Crash?
  {
    if key !in LoginFields then Reject(UnknownField("Data::Login", key))
    else if key == "Username" then (if v.JStr? then Pass else Reject(BadValue("Login::Data", key)))
    else if v.JStr? || v.JNull? then Pass
    else Reject(BadValue("Login::Data", key))
  }

  /** `d.keys()` of a section, then its loop. */
  function ScanSection(v: Json, check: (string, Json) -> Verdict): (r: Verdict)
    ensures r.Pass? <==> v.JObj? && forall i :: 0 <= i < |v.fields| ==> check(v.fields[i].0, v.fields[i].1).Pass?
    ensures !v.JObj? ==> r == Crash(AttributeError)
  {
    match Entries(v)
    case Err(e) => Crash(e)
    case Ok(fields) => Scan(fields, check)
  }

  predicate DataOk(v: Json)
  {
    v.JObj? && forall i :: 0 <= i < |v.fields| ==> DataEntry(v.fields[i].0, v.fields[i].1).Pass?
  }

  /** One key of Login: the two flags, or Data, which must be a dict of allowed fields. */
  function LoginEntry(key: string, v: Json): (r: Verdict)
    ensures r.Pass? <==> (key in LoginFlags && v.JBool?) || (key == "Data" && DataOk(v))
  {
    if key in LoginFlags then (if v.JBool? then Pass else Reject(BadValue("Login", key)))
    else if key == "Data" then ScanSection(v, DataEntry)
    else Reject(UnknownField("Login", key))
  }

  /** The loop a top-level key selects; its value must be a dict. */
  function SectionCheck(name: string, v: Json): Verdict
    requires name in MainFields
  {
    if name == "Dependencies" then ScanSection(v, (k, x) => FlagEntry("Dependencies", DependencyKeys, k, x))
    else if name == "CLI" then ScanSection(v, (k, x) => FlagEntry("CLI", CliKeys, k, x))
    else if name == "GUI" then ScanSection(v, (k, x) => FlagEntry("GUI", GuiKeys, k, x))
    else if name == "Login" then ScanSection(v, LoginEntry)
    else ScanSection(v, LogEntry)
  }

  /** One top-level key: one of the five sections, checked by its loop. */
  function TopEntry(key: string, v: Json): Verdict
  {
    if key !in MainFields then Reject(UnknownField("JSON_WHOLE", key))
    else SectionCheck(key, v)
  }

  /** The body of `ckconfig` on a parsed document. */
  function CheckConfigDoc(doc: Json): Verdict
  {
    ScanSection(doc, TopEntry)
  }

  /** The keys an allowed section may hold, and what their values must be. */
  ghost predicate SectionOk(name: string, v: Json)
  {
    && v.JObj?
    && forall i :: 0 <= i < |v.fields| ==>
      var (k, x) := v.fields[i];
      if name == "Dependencies" then k in DependencyKeys && x.JBool?
      else if name == "CLI" then k in CliKeys && x.JBool?
      else if name == "GUI" then k in GuiKeys && x.JBool?
      else if name == "Login" then (k in LoginFlags && x.JBool?) || (k == "Data" && DataOk(x))
      else k in LogKeys && x.JStr?
  }

  /** The documents `ckconfig` accepts, said declaratively: a dict of allowed
      sections, each a dict of allowed keys with values of the right type.
      Nothing is required to be present. */
  ghost predicate ConfigDocOk(doc: Json)
  {
    && doc.JObj?
    && forall i :: 0 <= i < |doc.fields| ==>
      doc.fields[i].0 in MainFields && SectionOk(doc.fields[i].0, doc.fields[i].1)
  }

  lemma SectionCheckSpec(name: string, v: Json)
    requires name in MainFields
    ensures SectionCheck(name, v).Pass? <==> SectionOk(name, v)
  {
    if v.JObj? {
      var fs := v.fields;
      if name == "Dependencies" {
        var check := (k, x) => FlagEntry("Dependencies", DependencyKeys, k, x);
        assert forall i :: 0 <= i < |fs| ==> check(fs[i].0, fs[i].1) == FlagEntry(name, DependencyKeys, fs[i].0, fs[i].1);
      } else if name == "CLI" {
        var check := (k, x) => FlagEntry("CLI", CliKeys, k, x);
        assert forall i :: 0 <= i < |fs| ==> check(fs[i].0, fs[i].1) == FlagEntry(name, CliKeys, fs[i].0, fs[i].1);
      } else if name == "GUI" {
        var check := (k, x) => FlagEntry("GUI", GuiKeys, k, x);
        assert forall i :: 0 <= i < |fs| ==> check(fs[i].0, fs[i].1) == FlagEntry(name, GuiKeys, fs[i].0, fs[i].1);
      }
    }
  }

  /** `ckconfig` accepts a document exactly when it is well formed. */
  lemma CheckConfigDocSpec(doc: Json)
    ensures CheckConfigDoc(doc).Pass? <==> ConfigDocOk(doc)
  {
    if doc.JObj? {
      forall i | 0 <= i < |doc.fields| && doc.fields[i].0 in MainFields
        ensures SectionCheck(doc.fields[i].0, doc.fields[i].1).Pass? <==> SectionOk(doc.fields[i].0, doc.fields[i].1)
      {
        SectionCheckSpec(doc.fields[i].0, doc.fields[i].1);
      }
    }
  }

  /** A section that is not a dict is not reported as an invalid configuration:
      `.keys()` raises AttributeError out of `ckconfig`. */
  lemma NonDictSectionCrashes(name: string, v: Json)
    requires name in MainFields && !v.JObj?
    ensures CheckConfigDoc(JObj([(name, v)])) == Crash(AttributeError)
  {
    var doc := JObj([(name, v)]);
    assert doc.fields[0] == (name, v);
    assert TopEntry(name, v) == Crash(AttributeError);
  }

  /** Token and Password may be null, while Username must be a string. */
  lemma NullTokenAccepted(user: string)
    ensures CheckConfigDoc(JObj([("Login", JObj([("Data",
      JObj([("Username", JStr(user)), ("Token", JNull), ("Password", JNull)]))]))])) == Pass
    ensures CheckConfigDoc(JObj([("Login", JObj([("Data", JObj([("Username", JNull)]))]))])).Reject?
  {
    var data := JObj([("Username", JStr(user)), ("Token", JNull), ("Password", JNull)]);
    assert DataOk(data);
    var login := JObj([("Data", data)]);
    assert login.fields[0] == ("Data", data);
    assert LoginEntry("Data", data) == Pass;
    var doc := JObj([("Login", login)]);
    assert doc.fields[0] == ("Login", login);
    assert TopEntry("Login", login) == Pass;
    var bad := JObj([("Username", JNull)]);
    assert bad.fields[0] == ("Username", JNull);
    assert DataEntry("Username", JNull).Reject?;
    var badLogin := JObj([("Data", bad)]);
    assert badLogin.fields[0] == ("Data", bad);
    assert LoginEntry("Data", bad).Reject?;
    var badDoc := JObj([("Login", badLogin)]);
    assert badDoc.fields[0] == ("Login", badLogin);
  }

  /** `ckconfig` on a path: an absent file and text that is not JSON are
      rejected as InvalidConfig; PermissionError escapes the
      `except FileNotFoundError or PermissionError` clause, which catches only
      the first. */
  function CkConfig(files: map<string, FileEntry>, path: string): (r: Verdict)
    ensures r.Pass? <==> Read(files, path).Ok? && ConfigDocOk(Read(files, path).value)
    ensures path !in files ==> r == Reject(Unreachable)
    ensures path in files && files[path].Undecodable? ==> r == Reject(Unparsable)
    ensures path in files && files[path].Denied? ==> r == Crash(PermissionError)
  {
    match Read(files, path)
    case Err(FileNotFoundError) => Reject(Unreachable)
    case Err(JSONDecodeError) => Reject(Unparsable)
    case Err(e) => Crash(e)
    case Ok(doc) =>
      CheckConfigDocSpec(doc);
      CheckConfigDoc(doc)
  }

  /** The exception `load_config` lets out for a failed `ckconfig`. */
  function LoadFault(v: Verdict): ConfigFault
    requires !v.Pass?
  {
    match v
    case Reject(w) => InvalidConfig(w)
    case Crash(e) => Uncaught(e)
  }

  // ---------------------------------------------------------------------------
  // format_json

  /** The characters `format_json` puts a line feed after, in the order of its passes. */
  const FormatChars: seq<char> := ['{', '}', '[', ']', ',']

  /** One character after the first `passes` passes of `format_json`. */
  function FormatPiece(x: char, passes: nat): string
  {
    if x in FormatChars[..if passes <= |FormatChars| then passes else |FormatChars|] then [x, '\n'] else [x]
  }

  function FormatStage(s: string, passes: nat): string
  {
    if s == [] then [] else FormatPiece(s[0], passes) + FormatStage(s[1..], passes)
  }

  /** The text `format_json(s)` returns. */
  function JsonLayout(s: string): string
  {
    FormatStage(s, |FormatChars|)
  }

  lemma FormatPassPiece(x: char, k: nat)
    requires k < |FormatChars|
    ensures Replace(FormatPiece(x, k), FormatChars[k], [FormatChars[k], '\n']) == FormatPiece(x, k + 1)
  {
    var c := FormatChars[k];
    var p := FormatPiece(x, k);
    assert FormatChars[..k + 1] == FormatChars[..k] + [c];
    if x == c {
      assert c !in FormatChars[..k];
      assert p == [c];
      assert Replace(p, c, [c, '\n']) == [c, '\n'] + Replace([], c, [c, '\n']);
    } else {
      assert c != '\n';
      ReplaceAbsent(p, c, [c, '\n']);
    }
  }

  /** Pass `k` of the loop turns the text after `k` passes into the text after `k + 1`. */
  lemma {:induction false} FormatPassStep(s: string, k: nat)
    requires k < |FormatChars|
    ensures Replace(FormatStage(s, k), FormatChars[k], [FormatChars[k], '\n']) == FormatStage(s, k + 1)
  {
    if s != [] {
      FormatPassStep(s[1..], k);
      FormatPassPiece(s[0], k);
      ReplaceAppend(FormatPiece(s[0], k), FormatStage(s[1..], k), FormatChars[k], [FormatChars[k], '\n']);
    }
  }

  lemma {:induction false} FormatStageZero(s: string)
    ensures FormatStage(s, 0) == s
  {
    if s != [] {
      FormatStageZero(s[1..]);
      assert FormatPiece(s[0], 0) == [s[0]];
      assert [s[0]] + s[1..] == s;
    }
  }

  /** `format_json`: one `replace` per character, the first reading the input. */
  method FormatJson(content: string) returns (formatted: string)
    ensures formatted == JsonLayout(content)
  {
    var tmp := "";
    for k := 0 to |FormatChars|
      invariant k > 0 ==> tmp == FormatStage(content, k)
    {
      var c := FormatChars[k];
      if c == '{' {
        FormatStageZero(content);
        tmp := Replace(content, c, [c, '\n']);
      } else {
        tmp := Replace(tmp, c, [c, '\n']);
      }
      FormatPassStep(content, k);
    }
    formatted := tmp;
  }

  /** The layout adds exactly one character, a line feed, per formatting character. */
  lemma {:induction false} JsonLayoutLength(s: string)
    ensures |JsonLayout(s)| == |s| + CountIn(s, set c | c in FormatChars)
  {
    if s != [] {
      JsonLayoutLength(s[1..]);
    }
  }

  /** Deleting the line feeds of the layout gives back a line-feed free input. */
  lemma {:induction false} JsonLayoutStrips(s: string)
    requires '\n' !in s
    ensures StripNewlines(JsonLayout(s)) == s
  {
    if s != [] {
      JsonLayoutStrips(s[1..]);
      var p := FormatPiece(s[0], |FormatChars|);
      StripAppend(p, JsonLayout(s[1..]));
      if p == [s[0], '\n'] {
        assert p[1..] == "\n" && p[1..][1..] == [];
      }
      assert [s[0]] + s[1..] == s;
    }
  }

  /** The characters after which a formatted commit inserts a line feed. */
  const FormatCharSet: set<char> := {'{', '}', '[', ']', ','}

  /** A commit and a later `ckconfig` of the same file: an accepted document
      still passes after a plain commit, and after a formatted one unless one of
      its strings holds a formatting character. */
  lemma CommitThenCheck(files: map<string, FileEntry>, path: string, doc: Json, formatting: bool)
    requires ConfigDocOk(doc)
    ensures var after := files[path := Written(doc, if formatting then FormatCharSet else {})];
      CkConfig(after, path) ==
        if formatting && !StringsAvoid(doc, FormatCharSet) then Reject(Unparsable) else Pass
  {
    if !formatting {
      PlainWriteRereads(doc);
    }
  }

  // ---------------------------------------------------------------------------
  // The store

  class Configurations {
    var configF: string
    var document: Json
    var gotFile: bool

    /** `Configurations()` without a file: an empty document, no path, nothing loaded. */
    constructor ()
      ensures configF == "" && document == JObj([]) && !gotFile
    {
      configF, document, gotFile := "", JObj([]), false;
    }

    /** `load_config`: refuses a second load; otherwise validates, then keeps the path and the parsed document. */
    method LoadConfig(disk: Disk, path: string) returns (fault: Option<ConfigFault>)
      modifies this
      ensures old(gotFile) ==> fault == Some(ConfigurationsLoadError)
      ensures !old(gotFile) ==>
        var check := CkConfig(disk.files, path);
        fault == if check.Pass? then None else Some(LoadFault(check))
      ensures fault.Some? ==> unchanged(this)
      ensures fault.None? ==>
        && gotFile && configF == path
        && Read(disk.files, path).Ok? && document == Read(disk.files, path).value
        && ConfigDocOk(document)
    {
      if gotFile {
        return Some(ConfigurationsLoadError);
      }
      var check := CkConfig(disk.files, path);
      if !check.Pass? {
        return Some(LoadFault(check));
      }
      configF := path;
      document := Read(disk.files, path).value;
      gotFile := true;
      fault := None;
    }

    /** `commit`: refuses when nothing is loaded; otherwise overwrites the file,
        laid out by `format_json` when `formatting`. */
    method Commit(disk: Disk, formatting: bool) returns (fault: Option<ConfigFault>)
      modifies disk
      ensures !gotFile ==> fault == Some(ConfigurationsLoadError) && unchanged(disk)
      ensures gotFile ==>
        var entry := Written(document, if formatting then FormatCharSet else {});
        if configF in old(disk.files) && old(disk.files)[configF].Denied?
        then fault == Some(Uncaught(PermissionError)) && disk.files == old(disk.files)
        else fault == None && disk.files == old(disk.files)[configF := entry]
    {
      if !gotFile {
        return Some(ConfigurationsLoadError);
      }
      var entry := Written(document, if formatting then FormatCharSet else {});
      var e := disk.Write(configF, entry);
      fault := if e.Some? then Some(Uncaught(e.value)) else None;
    }

    /** `unload_file`: a formatted commit, then the defaults again. */
    method UnloadFile(disk: Disk) returns (fault: Option<ConfigFault>)
      modifies this, disk
      ensures !old(gotFile) ==> fault == Some(ConfigurationsLoadError)
      ensures old(gotFile) ==>
        fault == if old(configF) in old(disk.files) && old(disk.files)[old(configF)].Denied?
                 then Some(Uncaught(PermissionError)) else None
      ensures fault.Some? ==> unchanged(this) && disk.files == old(disk.files)
      ensures fault.None? ==>
        && old(gotFile)
        && disk.files == old(disk.files)[old(configF) := Written(old(document), FormatCharSet)]
        && document == JObj([]) && configF == "" && !gotFile
    {
      if !gotFile {
        return Some(ConfigurationsLoadError);
      }
      fault := Commit(disk, true);
      if fault.None? {
        document, configF, gotFile := JObj([]), "", false;
      }
    }

    /** `Configurations(config)`: loads `config` when one is given. */
    static method Create(disk: Disk, config: Option<string>) returns (r: Result<Configurations, ConfigFault>)
      ensures r.Ok? ==> fresh(r.value)
      ensures config.None? ==> r.Ok? && !r.value.gotFile && r.value.document == JObj([])
      ensures config.Some? ==> (r.Ok? <==> CkConfig(disk.files, config.value).Pass?)
      ensures config.Some? && r.Ok? ==>
        && r.value.gotFile && r.value.configF == config.value
        && r.value.document == Read(disk.files, config.value).value
      ensures config.Some? && r.Err? ==> r.error == LoadFault(CkConfig(disk.files, config.value))
    {
      var c := new Configurations();
      if config.Some? {
        var fault := c.LoadConfig(disk, config.value);
        if fault.Some? {
          return Err(fault.value);
        }
      }
      return Ok(c);
    }
  }
}
