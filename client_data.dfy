/**
 * `ClientData` of lib/client_data.py: the client's own settings file
 * (RootMode, Mode, LocalAccountID, an optional Warning), read once and never
 * written back. Its validator `ck_file` ends in `finally: return True`, which
 * discards whatever the check raised, so every file that parses is loaded.
 */
module ClientSettings {
  import opened Results
  import opened PyJson
  import opened Text
  import opened Disk

  /** `FileError`, or a built-in exception nothing catches. `InvalidFile` is
      raised only inside `ck_file`, whose `finally` swallows it. */
  datatype ClientDataFault = FileError | Thrown(exc: PyExc)

  /** The file `ClientData()` loads when no argument is given. */
  const DefaultClientConfig: string := "lib/client_config.json"

  /** The settings the class documentation asks for: a dict with a boolean
      RootMode, a Mode of 0 or 1 and a positive LocalAccountID. */
  predicate ClientDocOk(ld: Json)
  {
    && Subscript(ld, "RootMode").Ok? && Subscript(ld, "RootMode").value.JBool?
    && Subscript(ld, "Mode").Ok? && Subscript(ld, "Mode").value.JInt?
    && Subscript(ld, "Mode").value.i in {0, 1}
    && Subscript(ld, "LocalAccountID").Ok? && Subscript(ld, "LocalAccountID").value.JInt?
    && Subscript(ld, "LocalAccountID").value.i > 0
  }

  /** What the `try` block of `ck_file` would conclude about a file: the
      extension test, the read, and the three fields in order. A missing field
      is the caught KeyError; a document that is not a dict makes `ld[...]`
      raise TypeError, which nothing catches. */
  function CheckBody(files: map<string, FileEntry>, path: string): (r: Verdict)
    ensures r.Pass? <==> Extension(path) == "json" && Read(files, path).Ok? && ClientDocOk(Read(files, path).value)
    ensures Extension(path) == "json" && path in files && files[path].Denied? ==> r == Crash(PermissionError)
  {
    if Extension(path) != "json" then Reject(NotJsonName)
    else
      match Read(files, path)
      case Err(FileNotFoundError) => Reject(Unreachable)
      case Err(JSONDecodeError) => Reject(Unparsable)
      case Err(e) => Crash(e)
      case Ok(ld) => CheckFields(ld)
  }

  function CheckFields(ld: Json): (r: Verdict)
    ensures r.Pass? <==> ClientDocOk(ld)
    ensures r.Crash? <==> !ld.JObj?
  {
    match Subscript(ld, "RootMode")
    case Err(KeyError) => Reject(MissingField)
    case Err(e) => Crash(e)
    case Ok(root) =>
      if !root.JBool? then Reject(BadValue("", "RootMode"))
      else
        match Subscript(ld, "Mode")
        case Err(e) => Reject(MissingField)
        case Ok(mode) =>
          if !mode.JInt? || mode.i !in {0, 1} then Reject(BadValue("", "Mode"))
          else
            match Subscript(ld, "LocalAccountID")
            case Err(e) => Reject(MissingField)
            case Ok(id) =>
              if !id.JInt? || id.i <= 0 then Reject(BadValue("", "LocalAccountID"))
              else Pass
  }

  /** `ck_file`: `finally: return True` overrides every outcome of the `try`. */
  function CkFile(files: map<string, FileEntry>, path: string): (r: bool)
    ensures r
  {
    var _ := CheckBody(files, path);
    true
  }

  class ClientData {
    var fileLoaded: string
    var gotFile: bool
    var rawDoc: Json

    /** `ClientData(None)`: no file, an empty document. */
    constructor ()
      ensures fileLoaded == "" && !gotFile && rawDoc == JObj([])
    {
      fileLoaded, gotFile, rawDoc := "", false, JObj([]);
    }

    /** `load_file`: refuses a second load; otherwise keeps whatever the file
        parses to, valid or not. Read errors escape. */
    method LoadFile(disk: Disk, path: string) returns (fault: Option<ClientDataFault>)
      modifies this
      ensures old(gotFile) ==> fault == Some(FileError) && unchanged(this)
      ensures !old(gotFile) ==> (fault.None? <==> Read(disk.files, path).Ok?)
      ensures !old(gotFile) && fault.Some? ==> fault == Some(Thrown(Read(disk.files, path).error)) && unchanged(this)
      ensures fault.None? ==> gotFile && fileLoaded == path && rawDoc == Read(disk.files, path).value
    {
      if gotFile {
        return Some(FileError);
      }
      if CkFile(disk.files, path) {
        var ld := Read(disk.files, path);
        if ld.Err? {
          return Some(Thrown(ld.error));
        }
        rawDoc := ld.value;
        fileLoaded := path;
        gotFile := true;
      }
      fault := None;
    }

    /** `unload_file`: nothing is written back. */
    method UnloadFile() returns (fault: Option<ClientDataFault>)
      modifies this
      ensures !old(gotFile) ==> fault == Some(FileError) && unchanged(this)
      ensures old(gotFile) ==> fault == None && rawDoc == JObj([]) && !gotFile && fileLoaded == ""
    {
      if !gotFile {
        return Some(FileError);
      }
      rawDoc, gotFile, fileLoaded := JObj([]), false, "";
      fault := None;
    }

    /** `ClientData(config)`; the default argument is `Some(DefaultClientConfig)`. */
    static method Create(disk: Disk, config: Option<string>) returns (r: Result<ClientData, ClientDataFault>)
      ensures r.Ok? ==> fresh(r.value)
      ensures config.None? ==> r.Ok? && !r.value.gotFile
      ensures config.Some? ==> (r.Ok? <==> Read(disk.files, config.value).Ok?)
      ensures config.Some? && r.Ok? ==>
        r.value.gotFile && r.value.rawDoc == Read(disk.files, config.value).value
    {
      var c := new ClientData();
      if config.Some? {
        var fault := c.LoadFile(disk, config.value);
        if fault.Some? {
          return Err(fault.value);
        }
      }
      return Ok(c);
    }

    /** The `rootMode` property: `bool(raw_doc['RootMode'])`. */
    function RootMode(): (r: Result<bool, ClientDataFault>)
      reads this
      ensures !gotFile ==> r == Err(FileError)
      ensures gotFile && ClientDocOk(rawDoc) ==> r == Ok(Subscript(rawDoc, "RootMode").value.b)
      ensures gotFile && Subscript(rawDoc, "RootMode").Ok? && Subscript(rawDoc, "RootMode").value.JBool? ==>
        r == Ok(Subscript(rawDoc, "RootMode").value.b)
      ensures gotFile && Subscript(rawDoc, "RootMode").Err? ==> r == Err(Thrown(Subscript(rawDoc, "RootMode").error))
      ensures gotFile && !rawDoc.JObj? ==> r == Err(Thrown(TypeError))
    {
      if !gotFile then Err(FileError)
      else
        match Subscript(rawDoc, "RootMode")
        case Err(e) => Err(Thrown(e))
        case Ok(v) => Ok(Truthy(v))
    }

    /** The `mode` property: `int(raw_doc['Mode'])`. */
    function Mode(): (r: Result<int, ClientDataFault>)
      reads this
      ensures !gotFile ==> r == Err(FileError)
      ensures gotFile && ClientDocOk(rawDoc) ==> r == Ok(Subscript(rawDoc, "Mode").value.i) && r.value in {0, 1}
      ensures gotFile && Subscript(rawDoc, "Mode").Ok? && Subscript(rawDoc, "Mode").value.JInt? ==>
        r == Ok(Subscript(rawDoc, "Mode").value.i)
      ensures gotFile && Subscript(rawDoc, "Mode").Err? ==> r == Err(Thrown(Subscript(rawDoc, "Mode").error))
      ensures gotFile && !rawDoc.JObj? ==> r == Err(Thrown(TypeError))
    {
      if !gotFile then Err(FileError)
      else
        match Subscript(rawDoc, "Mode")
        case Err(e) => Err(Thrown(e))
        case Ok(v) =>
          (match PyInt(v)
           case Err(e) => Err(Thrown(e))
           case Ok(m) => Ok(m))
    }

    /** A Mode written as a decimal string reads as its number: `int("1") == 1`. */
    lemma ModeOfDecimalText(n: int)
      requires gotFile && Subscript(rawDoc, "Mode") == Ok(JStr(IntToDecimal(n)))
      ensures Mode() == Ok(n)
    {
      DecimalRoundTrip(n);
    }

    /** The `ownerID` property: `int(raw_doc['LocalAccountID'])`. */
    function OwnerId(): (r: Result<int, ClientDataFault>)
      reads this
      ensures !gotFile ==> r == Err(FileError)
      ensures gotFile && ClientDocOk(rawDoc) ==> r == Ok(Subscript(rawDoc, "LocalAccountID").value.i) && r.value > 0
      ensures gotFile && Subscript(rawDoc, "LocalAccountID").Ok? && Subscript(rawDoc, "LocalAccountID").value.JInt? ==>
        r == Ok(Subscript(rawDoc, "LocalAccountID").value.i)
      ensures gotFile && Subscript(rawDoc, "LocalAccountID").Err? ==>
        r == Err(Thrown(Subscript(rawDoc, "LocalAccountID").error))
      ensures gotFile && !rawDoc.JObj? ==> r == Err(Thrown(TypeError))
    {
      if !gotFile then Err(FileError)
      else
        match Subscript(rawDoc, "LocalAccountID")
        case Err(e) => Err(Thrown(e))
        case Ok(v) =>
          (match PyInt(v)
           case Err(e) => Err(Thrown(e))
           case Ok(n) => Ok(n))
    }

    /** The `warnings` property: the optional Warning, null when absent; a
        document that is not a dict has no `.keys()`. */
    function Warnings(): (r: Result<Json, ClientDataFault>)
      reads this
      ensures !gotFile ==> r == Err(FileError)
      ensures gotFile && !rawDoc.JObj? ==> r == Err(Thrown(AttributeError))
      ensures gotFile && rawDoc.JObj? ==> r.Ok?
      ensures r.Ok? && r.value != JNull ==> (exists i :: 0 <= i < |rawDoc.fields| && rawDoc.fields[i] == ("Warning", r.value))
      ensures gotFile && rawDoc.JObj? && (forall i :: 0 <= i < |rawDoc.fields| ==> rawDoc.fields[i].0 != "Warning") ==> r == Ok(JNull)
      ensures gotFile && rawDoc.JObj? ==>
        forall i ::
          (0 <= i < |rawDoc.fields| && rawDoc.fields[i].0 == "Warning" &&
           forall j :: 0 <= j < i ==> rawDoc.fields[j].0 != "Warning")
          ==> r == Ok(rawDoc.fields[i].1)
    {
      if !gotFile then Err(FileError)
      else
        match Entries(rawDoc)
        case Err(e) => Err(Thrown(e))
        case Ok(fields) =>
          (forall i | 0 <= i < |fields| && fields[i].0 == "Warning" &&
              forall j :: 0 <= j < i ==> fields[j].0 != "Warning"
             ensures Lookup(fields, "Warning") == Some(fields[i].1)
           {
             LookupFirst(fields, "Warning", i);
           }
           match Lookup(fields, "Warning")
           case Some(w) => Ok(w)
           case None => Ok(JNull))
    }
  }

  /** Loading settings that fail the documented checks succeeds, and the
      properties then answer field by field: RootMode is still read, a Mode of
      "x" reaches `int()` as a ValueError, and the missing LocalAccountID is a
      KeyError. */
  method LoadInvalidSettings()
    returns (load: Option<ClientDataFault>, rootMode: Result<bool, ClientDataFault>,
             mode: Result<int, ClientDataFault>, owner: Result<int, ClientDataFault>)
    ensures load == None && rootMode == Ok(true) && mode == Err(Thrown(ValueError))
    ensures owner == Err(Thrown(KeyError))
  {
    var doc := JObj([("RootMode", JBool(true)), ("Mode", JStr("x"))]);
    var disk := new Disk(map[DefaultClientConfig := Doc(doc)]);
    var c := new ClientData();
    load := c.LoadFile(disk, DefaultClientConfig);
    assert doc.fields[0] == ("RootMode", JBool(true));
    assert doc.fields[1] == ("Mode", JStr("x"));
    assert ParseDecimal("x") == None;
    rootMode := c.RootMode();
    mode := c.Mode();
    owner := c.OwnerId();
  }
}
