/**
 * The file system the stores read their documents from and commit them to:
 * a map from path to what `open` + `json.loads` find there. Reading JSON text
 * and `json.dumps` are taken as given; only their outcome is modelled.
 */
module Disk {
  import opened Results
  import opened PyJson

  /** A file that parses to a document, one whose text is not JSON, or one the
      process may not open. */
  datatype FileEntry = Doc(json: Json) | Undecodable | Denied

  /** `with open(path) as f: json.loads(f.read())`. */
  function Read(files: map<string, FileEntry>, path: string): (r: Result<Json, PyExc>)
    ensures r.Ok? <==> path in files && files[path].Doc?
    ensures r.Ok? ==> files[path] == Doc(r.value)
    ensures r.Err? ==> r.error in {FileNotFoundError, JSONDecodeError, PermissionError}
  {
    if path !in files then Err(FileNotFoundError)
    else
      match files[path]
      case Doc(j) => Ok(j)
      case Undecodable => Err(JSONDecodeError)
      case Denied => Err(PermissionError)
  }

  /**
   * What a later read finds in a file to which `json.dumps(doc)` was written
   * with a line feed inserted next to every character of `newlineAt`. Between
   * tokens a line feed is white space; inside a string literal it is a raw
   * control character, which `json.loads` refuses.
   */
  function Written(doc: Json, newlineAt: set<char>): FileEntry
  {
    if StringsAvoid(doc, newlineAt) then Doc(doc) else Undecodable
  }

  lemma {:induction false} AvoidsNothing(doc: Json)
    ensures StringsAvoid(doc, {})
    decreases doc
  {
    match doc
    case JArr(items) =>
      forall k | 0 <= k < |items| ensures StringsAvoid(items[k], {}) { AvoidsNothing(items[k]); }
    case JObj(fields) =>
      forall k | 0 <= k < |fields| ensures StringsAvoid(fields[k].1, {}) { AvoidsNothing(fields[k].1); }
    case _ =>
  }

  /** An unformatted commit is read back as the very document that was committed. */
  lemma PlainWriteRereads(doc: Json)
    ensures Written(doc, {}) == Doc(doc)
  {
    AvoidsNothing(doc);
  }

  class Disk {
    var files: map<string, FileEntry>

    constructor (files: map<string, FileEntry>)
      ensures this.files == files
    {
      this.files := files;
    }

    /** `with open(path, "w") as f: f.write(...)`, leaving `entry` behind. */
    method Write(path: string, entry: FileEntry) returns (fault: Option<PyExc>)
      modifies this
      ensures path in old(files) && old(files)[path].Denied? ==>
        fault == Some(PermissionError) && files == old(files)
      ensures !(path in old(files) && old(files)[path].Denied?) ==>
        fault == None && files == old(files)[path := entry]
    {
      if path in files && files[path].Denied? {
        fault := Some(PermissionError);
      } else {
        files := files[path := entry];
        fault := None;
      }
    }
  }
}
