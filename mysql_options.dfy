/**
 * `MySQLConnectionOptions` of lib/core.py: the database client's settings
 * file (a General section with the server's host and port and the local
 * account), its validator `ckconfig` and the load-once store around it.
 */
module MySqlOptions {
  import opened Results
  import opened PyJson
  import opened Disk

  /** `FileError`, `InvalidConfigurationsFile`, or a built-in exception nothing catches. */
  datatype MySqlFault = FileError | InvalidConfigurationsFile(why: Why) | Escaped(exc: PyExc)

  /** The keys of General that some value can pass. Connection-Logs is not one
      of them: its test `(type(l) is not AnyStr or str)` is true of every value. */
  const GeneralKeys: set<string> := {"Primary-Host", "Default-Port", "LocalAccountID"}

  /** One `(i, l)` of `loaded['General'].items()`. */
  function GeneralEntry(key: string, v: Json): (r: Verdict)
    ensures r.Pass? <==>
      || (key == "Primary-Host" && v.JStr? && v.s != "")
      || (key in {"Default-Port", "LocalAccountID"} && v.JInt? && v.i > 0)
    ensures !r.Crash?
  {
    if key == "Primary-Host" then
      (if !v.JStr? || |v.s| == 0 then Reject(BadValue("General", key)) else Pass)
    else if key == "Default-Port" then
      (if !v.JInt? || v.i <= 0 then Reject(BadValue("General", key)) else Pass)
    else if key == "Connection-Logs" then Reject(BadValue("General", key))
    else if key == "LocalAccountID" then
      (if !v.JInt? || v.i <= 0 then Reject(BadValue("General", key)) else Pass)
    else Reject(UnknownField("General", key))
  }

  /** The body of `ckconfig` on a parsed document. A missing General is the
      caught KeyError; a document that is not a dict raises TypeError, and a
      General that is not a dict has no `.items()`. */
  function CheckMySqlDoc(doc: Json): (r: Verdict)
    ensures doc.JObj? && Subscript(doc, "General").Err? ==> r == Reject(MissingField)
    ensures r.Crash? ==> r.exc in {TypeError, AttributeError}
  {
    match Subscript(doc, "General")
    case Err(KeyError) => Reject(MissingField)
    case Err(e) => Crash(e)
    case Ok(general) =>
      match Entries(general)
      case Err(e) => Crash(e)
      case Ok(fields) => Scan(fields, GeneralEntry)
  }

  /** The documents `ckconfig` accepts, said declaratively: a General dict
      whose keys are among Primary-Host (a non-empty string), Default-Port and
      LocalAccountID (positive integers). */
  predicate MySqlDocOk(doc: Json)
  {
    && Subscript(doc, "General").Ok?
    && Subscript(doc, "General").value.JObj?
    && var fields := Subscript(doc, "General").value.fields;
       forall i :: 0 <= i < |fields| ==>
         && fields[i].0 in GeneralKeys
         && (fields[i].0 == "Primary-Host" ==> fields[i].1.JStr? && fields[i].1.s != "")
         && (fields[i].0 != "Primary-Host" ==> fields[i].1.JInt? && fields[i].1.i > 0)
  }

  lemma CheckMySqlDocSpec(doc: Json)
    ensures CheckMySqlDoc(doc).Pass? <==> MySqlDocOk(doc)
  {
  }

  /** The documented Connection-Logs field fails every document it appears in. */
  lemma ConnectionLogsRejected(doc: Json, i: nat)
    requires Subscript(doc, "General").Ok? && Subscript(doc, "General").value.JObj?
    requires i < |Subscript(doc, "General").value.fields|
    requires Subscript(doc, "General").value.fields[i].0 == "Connection-Logs"
    ensures CheckMySqlDoc(doc).Reject?
  {
    var fields := Subscript(doc, "General").value.fields;
    assert !GeneralEntry(fields[i].0, fields[i].1).Pass?;
  }

  /** A document that is not a dict escapes `ckconfig` as TypeError; a General
      that is not a dict escapes it as AttributeError. */
  lemma NonDictCrashes(doc: Json)
    ensures !doc.JObj? ==> CheckMySqlDoc(doc) == Crash(TypeError)
    ensures Subscript(doc, "General").Ok? && !Subscript(doc, "General").value.JObj? ==>
      CheckMySqlDoc(doc) == Crash(AttributeError)
  {
  }

  /** `ckconfig` on a path: an absent file and text that is not JSON are
      rejected; PermissionError escapes the `except FileNotFoundError or
      PermissionError` clause. */
  function CkConfig(files: map<string, FileEntry>, path: string): (r: Verdict)
    ensures r.Pass? <==> Read(files, path).Ok? && MySqlDocOk(Read(files, path).value)
    ensures path !in files ==> r == Reject(Unreachable)
    ensures path in files && files[path].Denied? ==> r == Crash(PermissionError)
    ensures path in files && files[path].Undecodable? ==> r == Reject(Unparsable)
    ensures Read(files, path).Ok? && Read(files, path).value.JObj? && Subscript(Read(files, path).value, "General").Err? ==>
      r == Reject(MissingField)
  {
    match Read(files, path)
    case Err(FileNotFoundError) => Reject(Unreachable)
    case Err(JSONDecodeError) => Reject(Unparsable)
    case Err(e) => Crash(e)
    case Ok(doc) =>
      CheckMySqlDocSpec(doc);
      CheckMySqlDoc(doc)
  }

  function LoadFault(v: Verdict): MySqlFault
    requires !v.Pass?
  {
    match v
    case Reject(w) => InvalidConfigurationsFile(w)
    case Crash(e) => Escaped(e)
  }

  class MySQLConnectionOptions {
    /** `file_load`: unset until a file is loaded. */
    var fileLoad: Option<string>
    var document: Json
    var gotFile: bool

    ghost predicate Valid()
      reads this
    {
      gotFile ==> fileLoad.Some?
    }

    /** `MySQLConnectionOptions(None)`: the class defaults, an empty document and no file. */
    constructor ()
      ensures Valid() && fileLoad == None && document == JObj([]) && !gotFile
    {
      fileLoad, document, gotFile := None, JObj([]), false;
    }

    /** `load_config`: refuses a second load; otherwise validates and keeps the document. */
    method LoadConfig(disk: Disk, path: string) returns (fault: Option<MySqlFault>)
      requires Valid()
      modifies this
      ensures Valid()
      ensures old(gotFile) ==> fault == Some(FileError)
      ensures !old(gotFile) ==>
        var check := CkConfig(disk.files, path);
        fault == if check.Pass? then None else Some(LoadFault(check))
      ensures fault.Some? ==> unchanged(this)
      ensures fault.None? ==>
        && gotFile && fileLoad == Some(path)
        && Read(disk.files, path).Ok? && document == Read(disk.files, path).value
        && MySqlDocOk(document)
    {
      if gotFile {
        return Some(FileError);
      }
      var check := CkConfig(disk.files, path);
      if !check.Pass? {
        return Some(LoadFault(check));
      }
      fileLoad := Some(path);
      document := Read(disk.files, path).value;
      gotFile := true;
      fault := None;
    }

    /** `commit`: writes `json.dumps(document)` over the loaded file. */
    method Commit(disk: Disk) returns (fault: Option<MySqlFault>)
      requires Valid()
      modifies disk
      ensures !gotFile ==> fault == Some(FileError) && unchanged(disk)
      ensures gotFile ==>
        var path := fileLoad.value;
        if path in old(disk.files) && old(disk.files)[path].Denied?
        then fault == Some(Escaped(PermissionError)) && disk.files == old(disk.files)
        else fault == None && disk.files == old(disk.files)[path := Doc(document)]
    {
      if !gotFile {
        return Some(FileError);
      }
      PlainWriteRereads(document);
      var e := disk.Write(fileLoad.value, Written(document, {}));
      fault := if e.Some? then Some(Escaped(e.value)) else None;
    }

    /** `unload`: commits, then forgets the document. */
    method Unload(disk: Disk) returns (fault: Option<MySqlFault>)
      requires Valid()
      modifies this, disk
      ensures Valid()
      ensures !old(gotFile) ==> fault == Some(FileError)
      ensures old(gotFile) ==>
        var path := old(fileLoad.value);
        fault == if path in old(disk.files) && old(disk.files)[path].Denied? then Some(Escaped(PermissionError)) else None
      ensures fault.Some? ==> unchanged(this) && disk.files == old(disk.files)
      ensures fault.None? ==>
        && old(gotFile)
        && disk.files == old(disk.files)[old(fileLoad.value) := Doc(old(document))]
        && document == JObj([]) && fileLoad == Some("") && !gotFile
    {
      if !gotFile {
        return Some(FileError);
      }
      fault := Commit(disk);
      if fault.None? {
        document, fileLoad, gotFile := JObj([]), Some(""), false;
      }
    }

    /** `MySQLConnectionOptions(config)`: loads `config` when one is given. */
    static method Create(disk: Disk, config: Option<string>) returns (r: Result<MySQLConnectionOptions, MySqlFault>)
      ensures r.Ok? ==> fresh(r.value) && r.value.Valid()
      ensures config.None? ==> r.Ok? && !r.value.gotFile && r.value.fileLoad == None
      ensures config.Some? ==> (r.Ok? <==> CkConfig(disk.files, config.value).Pass?)
      ensures config.Some? && r.Ok? ==>
        r.value.gotFile && r.value.document == Read(disk.files, config.value).value
      ensures config.Some? && r.Err? ==> r.error == LoadFault(CkConfig(disk.files, config.value))
    {
      var c := new MySQLConnectionOptions();
      if config.Some? {
        var fault := c.LoadConfig(disk, config.value);
        if fault.Some? {
          return Err(fault.value);
        }
      }
      return Ok(c);
    }
  }

  /** Loading, unloading and loading the same file again gives back the same
      document: the commit in between rewrites it unchanged. */
  method ReloadAfterUnload(disk: Disk, path: string) returns (first: Json, second: Json, ok: bool)
    modifies disk
    ensures ok ==> first == second
    ensures ok <==> CkConfig(old(disk.files), path).Pass?
  {
    var c := new MySQLConnectionOptions();
    var f := c.LoadConfig(disk, path);
    if f.Some? {
      return JObj([]), JObj([]), false;
    }
    first := c.document;
    assert path in disk.files && disk.files[path].Doc?;
    var u := c.Unload(disk);
    assert u.None?;
    var f2 := c.LoadConfig(disk, path);
    assert f2.None?;
    second := c.document;
    ok := true;
  }
}
