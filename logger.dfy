/**
 * `DefaultLogger` of lib/logger.py: a logs file chosen either on the class
 * (`errorLogs`, `mysqlLogs`, `genLogs`) or on an instance (`__init__`), and
 * `addLog`, which appends one record to the chosen file.
 *
 * The class attributes and the instance attributes are two separate objects
 * here: the class methods set the class's `logsFile` / `gotFile`; `__init__`
 * reads the class's `gotFile` (the instance has none of its own yet) and then
 * gives the instance its own pair, which `unloadFile` and `addLog` use.
 */
module Logging {
  import opened Results
  import opened PyJson
  import opened Text

  /** `NoLogFileFound`, `LogFileAlreadyLoaded`, or a built-in exception. */
  datatype LogFault = NoLogFileFound | LogFileAlreadyLoaded | Raised(exc: PyExc)

  const ErrorLogPath: string := "logs/error.log"
  const MySqlLogPath: string := "logs/client-mysql.log"
  const GeneralLogPath: string := "logs/general.log"

  /** The separator `addLog` joins a record's fields with: four spaces. */
  const FieldSep: string := "    "

  /** The text of the logs files, by path: what `open(path, "a+")` appends to. */
  class LogFiles {
    var texts: map<string, string>

    constructor (texts: map<string, string>)
      ensures this.texts == texts
    {
      this.texts := texts;
    }

    /** The text of `path`; a file that does not exist yet reads as empty, as
        mode "a+" creates it. */
    function TextOf(path: string): string
      reads this
    {
      if path in texts then texts[path] else ""
    }
  }

  /** The class object `DefaultLogger` and its class attributes. */
  class LoggerClass {
    var logsFile: Option<string>
    var gotFile: bool

    /** The class as defined: `gotFile = False` and `logsFile` only annotated. */
    constructor ()
      ensures logsFile == None && !gotFile
    {
      logsFile := None;
      gotFile := false;
    }

    /** The common body of the three class methods: refuse a second file,
        otherwise set the class's file to `path`. */
    method LoadDefault(path: string) returns (fault: Option<LogFault>)
      modifies this
      ensures old(gotFile) ==> fault == Some(LogFileAlreadyLoaded) && unchanged(this)
      ensures !old(gotFile) ==> fault == None && logsFile == Some(path) && gotFile
    {
      if gotFile {
        return Some(LogFileAlreadyLoaded);
      }
      logsFile := Some(path);
      gotFile := true;
      fault := None;
    }

    /** `errorLogs()`. */
    method ErrorLogs() returns (fault: Option<LogFault>)
      modifies this
      ensures old(gotFile) ==> fault == Some(LogFileAlreadyLoaded) && unchanged(this)
      ensures !old(gotFile) ==> fault == None && logsFile == Some(ErrorLogPath) && gotFile
    {
      fault := LoadDefault(ErrorLogPath);
    }

    /** `mysqlLogs()`. */
    method MysqlLogs() returns (fault: Option<LogFault>)
      modifies this
      ensures old(gotFile) ==> fault == Some(LogFileAlreadyLoaded) && unchanged(this)
      ensures !old(gotFile) ==> fault == None && logsFile == Some(MySqlLogPath) && gotFile
    {
      fault := LoadDefault(MySqlLogPath);
    }

    /** `genLogs()`. */
    method GenLogs() returns (fault: Option<LogFault>)
      modifies this
      ensures old(gotFile) ==> fault == Some(LogFileAlreadyLoaded) && unchanged(this)
      ensures !old(gotFile) ==> fault == None && logsFile == Some(GeneralLogPath) && gotFile
    {
      fault := LoadDefault(GeneralLogPath);
    }
  }

  // ---------------------------------------------------------------------------
  // The record addLog writes

  /** The second field of a record: empty on success, otherwise `str(err_code)`,
      which is "None" when no code was given. */
  function CodeField(success: bool, errCode: Option<int>): (f: string)
    ensures success ==> f == ""
    ensures !success && errCode.None? ==> f == "None"
    ensures !success && errCode.Some? ==> ParseDecimal(f) == Some(errCode.value)
  {
    if success then ""
    else
      match errCode
      case None => "None"
      case Some(n) =>
        DecimalRoundTrip(n);
        IntToDecimal(n)
  }

  /**
   * `"    ".join([timestamp, code, action, msg, "\n"])`: the five fields in
   * that order, each followed by four spaces but the last. On failure the message
   * is `err_msg` itself, so a failure without a message puts None in the list
   * and `join` raises TypeError.
   */
  function Record(timestamp: string, action: string, success: bool,
                  errMsg: Option<string>, errCode: Option<int>): (r: Result<string, PyExc>)
    ensures r.Err? <==> !success && errMsg.None?
    ensures r.Err? ==> r.error == TypeError
    ensures r.Ok? ==>
      var msg := if success then "" else errMsg.value;
      r.value == timestamp + FieldSep + CodeField(success, errCode) + FieldSep + action + FieldSep
                 + msg + FieldSep + "\n"
    ensures r.Ok? ==> |r.value| >= 5 && r.value[|r.value| - 5..] == FieldSep + "\n"
  {
    var msg := if success then Ok("") else if errMsg.Some? then Ok(errMsg.value) else Err(TypeError);
    if msg.Err? then Err(TypeError)
    else
      var parts := [timestamp, CodeField(success, errCode), action, msg.value, "\n"];
      var line := JoinWith(parts, FieldSep);
      JoinFive(parts, FieldSep);
      assert line[|line| - 5..] == FieldSep + "\n";
      Ok(line)
  }

  /** Joining five fields writes the separator between each two neighbours. */
  lemma JoinFive(parts: seq<string>, sep: string)
    requires |parts| == 5
    ensures JoinWith(parts, sep) == parts[0] + sep + parts[1] + sep + parts[2] + sep + parts[3] + sep + parts[4]
  {
    var j3 := JoinWith(parts[3..], sep);
    assert parts[3..][1..] == parts[4..] && parts[4..] == [parts[4]];
    assert |parts[3..]| == 2 && parts[3..][0] == parts[3];
    assert JoinWith(parts[4..], sep) == parts[4];
    assert j3 == parts[3] + sep + parts[4];
    assert parts[2..][1..] == parts[3..];
    var j2 := JoinWith(parts[2..], sep);
    assert j2 == parts[2] + sep + j3;
    assert parts[1..][1..] == parts[2..];
    var j1 := JoinWith(parts[1..], sep);
    assert j1 == parts[1] + sep + j2;
  }

  /** A success record is the same whatever error message and code come with it. */
  lemma SuccessIgnoresError(timestamp: string, action: string,
                            msg1: Option<string>, code1: Option<int>, msg2: Option<string>, code2: Option<int>)
    ensures Record(timestamp, action, true, msg1, code1).Ok?
    ensures Record(timestamp, action, true, msg1, code1) == Record(timestamp, action, true, msg2, code2)
  {
  }

  /** The code field never holds a line feed: it is empty, "None", or a decimal number. */
  lemma CodeFieldOneLine(success: bool, errCode: Option<int>)
    ensures CountIn(CodeField(success, errCode), {'\n'}) == 0
  {
    var f := CodeField(success, errCode);
    if !success && errCode.Some? {
      var n := errCode.value;
      var ds := NatDigits(if n < 0 then -n else n);
      assert forall k :: 0 <= k < |ds| ==> ds[k] != '\n';
      CountInZero(ds, {'\n'});
      if n < 0 {
        CountInAppend("-", ds, {'\n'});
      }
    } else {
      CountInZero(f, {'\n'});
    }
  }

  /** A record holds the line feeds of its timestamp, action and message, and one more. */
  lemma RecordLineFeeds(timestamp: string, action: string, success: bool,
                        errMsg: Option<string>, errCode: Option<int>)
    requires Record(timestamp, action, success, errMsg, errCode).Ok?
    ensures var msg := if success then "" else errMsg.value;
      CountIn(Record(timestamp, action, success, errMsg, errCode).value, {'\n'})
        == CountIn(timestamp, {'\n'}) + CountIn(action, {'\n'}) + CountIn(msg, {'\n'}) + 1
  {
    var nl := {'\n'};
    var msg := if success then "" else errMsg.value;
    var code := CodeField(success, errCode);
    CodeFieldOneLine(success, errCode);
    CountInZero(FieldSep, nl);
    CountInZero("", nl);
    assert CountIn("\n", nl) == 1;
    var p1 := timestamp + FieldSep;
    var p2 := p1 + code;
    var p3 := p2 + FieldSep;
    var p4 := p3 + action;
    var p5 := p4 + FieldSep;
    var p6 := p5 + msg;
    var p7 := p6 + FieldSep;
    CountInAppend(timestamp, FieldSep, nl);
    CountInAppend(p1, code, nl);
    CountInAppend(p2, FieldSep, nl);
    CountInAppend(p3, action, nl);
    CountInAppend(p4, FieldSep, nl);
    CountInAppend(p5, msg, nl);
    CountInAppend(p6, FieldSep, nl);
    CountInAppend(p7, "\n", nl);
  }

  /** When the timestamp, the action and the message are single lines, a record is
      exactly one line: its only line feed is its last character. */
  lemma RecordIsOneLine(timestamp: string, action: string, success: bool,
                        errMsg: Option<string>, errCode: Option<int>)
    requires Record(timestamp, action, success, errMsg, errCode).Ok?
    requires '\n' !in timestamp && '\n' !in action
    requires !success ==> '\n' !in errMsg.value
    ensures var line := Record(timestamp, action, success, errMsg, errCode).value;
      line[|line| - 1] == '\n' && forall k :: 0 <= k < |line| - 1 ==> line[k] != '\n'
  {
    var nl := {'\n'};
    var line := Record(timestamp, action, success, errMsg, errCode).value;
    var msg := if success then "" else errMsg.value;
    CountInZero(timestamp, nl);
    CountInZero(action, nl);
    CountInZero(msg, nl);
    RecordLineFeeds(timestamp, action, success, errMsg, errCode);
    var body := line[..|line| - 1];
    assert line == body + [line[|line| - 1]];
    assert line[|line| - 1] == '\n';
    CountInAppend(body, [line[|line| - 1]], nl);
    assert CountIn([line[|line| - 1]], nl) == 1;
    CountInZero(body, nl);
  }

  // ---------------------------------------------------------------------------
  // The instances

  /** An instance of `DefaultLogger` with its own `logsFile` / `gotFile`. */
  class DefaultLogger {
    const cls: LoggerClass
    var logsFile: string
    var gotFile: bool

    constructor Allocate(cls: LoggerClass, logsFile: string, gotFile: bool)
      ensures this.cls == cls && this.logsFile == logsFile && this.gotFile == gotFile
    {
      this.cls := cls;
      this.logsFile := logsFile;
      this.gotFile := gotFile;
    }

    /** `DefaultLogger(logs_file)`: refused while the class has a file; otherwise
        the instance gets `logs_file`, or "" and no file when it is None. */
    static method New(cls: LoggerClass, logsFile: Option<string>) returns (logger: DefaultLogger?, fault: Option<LogFault>)
      ensures cls.gotFile ==> logger == null && fault == Some(LogFileAlreadyLoaded)
      ensures !cls.gotFile ==>
        && fault == None && logger != null && fresh(logger) && logger.cls == cls
        && (logger.gotFile <==> logsFile.Some?)
        && logger.logsFile == (if logsFile.Some? then logsFile.value else "")
    {
      if cls.gotFile {
        return null, Some(LogFileAlreadyLoaded);
      }
      if logsFile.None? {
        logger := new DefaultLogger.Allocate(cls, "", false);
      } else {
        logger := new DefaultLogger.Allocate(cls, logsFile.value, true);
      }
      fault := None;
    }

    /** `unloadFile()`. */
    method UnloadFile() returns (fault: Option<LogFault>)
      modifies this
      ensures !old(gotFile) ==> fault == Some(NoLogFileFound) && unchanged(this)
      ensures old(gotFile) ==> fault == None && logsFile == "" && !gotFile
    {
      if !gotFile {
        return Some(NoLogFileFound);
      }
      logsFile := "";
      gotFile := false;
      fault := None;
    }

    /**
     * `addLog(action, success, err_msg, err_code)` at the time `timestamp`.
     * The file is opened for appending before the record is built, so a record
     * that cannot be built still leaves the file created. The empty path cannot
     * be opened.
     */
    method AddLog(files: LogFiles, action: string, success: bool, errMsg: Option<string>,
                  errCode: Option<int>, timestamp: string) returns (fault: Option<LogFault>)
      modifies files
      ensures !gotFile ==> fault == Some(NoLogFileFound) && unchanged(files)
      ensures gotFile && logsFile == "" ==> fault == Some(Raised(FileNotFoundError)) && unchanged(files)
      ensures gotFile && logsFile != "" ==>
        match Record(timestamp, action, success, errMsg, errCode)
        case Err(e) =>
          fault == Some(Raised(e)) && files.texts == old(files.texts)[logsFile := old(files.TextOf(logsFile))]
        case Ok(line) =>
          fault == None && files.texts == old(files.texts)[logsFile := old(files.TextOf(logsFile)) + line]
    {
      if !gotFile {
        return Some(NoLogFileFound);
      }
      if logsFile == "" {
        return Some(Raised(FileNotFoundError));
      }
      var before := files.TextOf(logsFile);
      files.texts := files.texts[logsFile := before];
      var line := Record(timestamp, action, success, errMsg, errCode);
      if line.Err? {
        return Some(Raised(line.error));
      }
      files.texts := files.texts[logsFile := before + line.value];
      fault := None;
    }
  }

  /** Once a class method has chosen a file, no instance can be made, whatever
      file it is given: nothing ever clears the class's `gotFile`. */
  method ClassFileBlocksInstances(logsFile: Option<string>) returns (fault: Option<LogFault>)
    ensures fault == Some(LogFileAlreadyLoaded)
  {
    var cls := new LoggerClass();
    var loaded := cls.ErrorLogs();
    var logger;
    logger, fault := DefaultLogger.New(cls, logsFile);
  }

  /** Two successful records land in the file one after the other. */
  method LogTwice(path: string, first: string, second: string, timestamp: string) returns (text: string)
    requires path != ""
    ensures text == Record(timestamp, first, true, None, None).value + Record(timestamp, second, true, None, None).value
  {
    var cls := new LoggerClass();
    var files := new LogFiles(map[]);
    var logger, fault := DefaultLogger.New(cls, Some(path));
    SuccessIgnoresError(timestamp, first, None, None, None, None);
    SuccessIgnoresError(timestamp, second, None, None, None, None);
    var f1 := logger.AddLog(files, first, true, None, None, timestamp);
    var f2 := logger.AddLog(files, second, true, None, None, timestamp);
    text := files.TextOf(path);
  }
}
