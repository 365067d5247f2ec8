# lpgp-python load-once JSON stores, in Dafny

This project models the configuration and data stores of lpgp-python.
Each store is a class that loads one JSON file, validates it, keeps the
parsed document, can write it back, and refuses to load a second file
before the first is unloaded. The stores are:

- `SocketConfig` (lib/auth/authcore.py), the settings of the
  authentication client; the `Client4` client copies its Server values into
  a dict shared by the class and parses the authentication server's reply;
- `Configurations` (config/configurations.py), the application settings,
  with the text layout `format_json`;
- `ClientData` (lib/client_data.py), the client's own settings and their
  properties;
- `MySQLConnectionOptions` (lib/core.py), the database client's settings;
- `DependenciesManager` (lib/dependencies-loader.py), the package list with
  its reference count and `install` / `install_all`;
- `DefaultLogger` (lib/logger.py), which picks a logs file on the class or on
  an instance and appends records to it.

Modules:

- `PyJson` holds parsed documents, the built-in exceptions, and the Python
  operations the stores use on them: `d[key]`, `.keys()`, iteration, `int()`,
  truthiness and `str()` of an integer.
- `Text` holds `split`, `join` (on a character and on a string), `replace` and the file name extension.
- `Disk` holds the file system. It maps a path to a parsed document, to text
  that is not JSON, or to a file the process may not open.
- Each store has its own module: `SocketConfigs`, `AuthClient`,
  `AppConfig`, `ClientSettings`, `MySqlOptions`, `Dependencies` and `Logging`.

A validator is a function that returns a verdict:

- `Pass`;
- `Reject(why)`, for the store's own "invalid file" exception;
- `Crash(exc)`, for a built-in exception that escapes the validator.

Each validator is proved equal to a declarative description of the documents
it accepts. The methods of a store state the whole new state of the object
and of the disk.

The code is modelled as written. Where it does something other than its
documentation says, the model follows the code and a lemma states the
difference:

- `except FileNotFoundError or PermissionError` catches only
  FileNotFoundError, so every store lets PermissionError out.
- `ClientData.ck_file` ends in `finally: return True`. Every file that
  parses is loaded, whatever its fields are.
- In `MySQLConnectionOptions.ckconfig`, the test
  `(type(l) is not AnyStr or str)` is true of every value. A document with
  the documented Connection-Logs key is always rejected.
- `ck_depf` never returns 0.
  - `dep is not dict` and `restrict is not bool` are true of every value,
    so every document yields 4 or 3.
  - An absent file raises TypeError, because the code concatenates a string
    and an exception. It does not return 2.
  - As a result, `DependenciesManager.load_file` never succeeds.
- `"2." in sys.version` was meant to recognise Python 2. It also holds
  under Python 3.12, where `install` then issues `pip`, not `pip3`.
- The configurations validator accepts null for Token and Password.
- `SocketConfig.commit(format_json=True)` puts a line feed around every
  `{`, `}` and `,` of the dumped text, including those inside string
  values. The file then cannot be parsed again. `Configurations.commit`
  does the same with `[` and `]` added.
- `connect_auth` connects only when HSRe is truthy. `init_direct` never sets HSRe, so after it, and with a falsy WaitHS, the first `send` goes to a socket that never connected and raises OSError.
- `connect_auth` decodes the reply as UTF-8 before it splits `repr(response)`. A reply that is not UTF-8 raises UnicodeDecodeError, even one whose `repr` holds a "1".
- `Client4()` without a configuration loads the default file. It then
  builds a second, empty `SocketConfig` and fails on its missing `config`.

## Model

| member | source | states |
|---|---|---|
| PyJson.Lookup | lib/client_data.py:148 | a dict lookup finds a value exactly when some entry has the key, and the value is that entry's |
| PyJson.LookupFirst | lib/client_data.py:148 | the value found is that of the first entry with the key |
| PyJson.Elements | lib/dependencies-loader.py:54 | iterating a list yields its items, a dict its keys and a string its characters (all strings); anything else raises TypeError |
| PyJson.SetField | lib/dependencies-loader.py:190 | `d[key] = v` on a present key changes that value only and keeps the key order |
| PyJson.DecimalRoundTrip | lib/logger.py:103 | `int(str(n)) == n` for every integer `n` |
| PyJson.Scan | config/configurations.py:78-127 | a loop over the entries raises at the first entry that fails and passes exactly when every entry passes |
| Text.Split | lib/auth/authcore.py:300 | `split` yields at least one part, no part holds the separator, and joining the parts gives the text back |
| Text.SplitJoin | lib/auth/authcore.py:300 | splitting a join of separator-free parts gives the parts back |
| Disk.Read | config/configurations.py:74-75 | opening and parsing a file succeeds exactly when it holds a document; otherwise FileNotFoundError, JSONDecodeError or PermissionError |
| Disk.PlainWriteRereads | lib/core.py:109-111 | the plain `dumps` of a document is read back as the same document |
| Disk.Disk.Write | lib/core.py:109-111 | writing replaces the file's content, except for a file the process may not open, which raises PermissionError and changes nothing |
| SocketConfigs.AddrEntry | lib/auth/authcore.py:70-80 | an Addr key passes exactly when it is allowed, Port is an `int()` above 0, Name and IP are not empty, and IP Protocol is 4 or 6; `int()` failures escape |
| SocketConfigs.ActionEntry | lib/auth/authcore.py:81-97 | an Action key passes exactly when it is allowed, its auth-file opens, and SendingMode is 0, 1 or 2; Permissive accepts every value; an auth-file whose `open` raises FileNotFoundError is InvalidFile, and any other exception from `open` escapes |
| SocketConfigs.ServerEntry | lib/auth/authcore.py:98-112 | a Server key passes exactly when it is allowed, Port is `int(str(v))` above 0, Name and IP are not empty, and IP Protocol is 4 or 6; a boolean Port raises ValueError |
| SocketConfigs.CheckSocketDocSpec | lib/auth/authcore.py:68-113 | `ckfile` accepts a document exactly when Addr, Action and Server are dicts of allowed keys with values in range |
| SocketConfigs.RejectsBadPortOrProtocol | lib/auth/authcore.py:71-78 | an integer Port at most 0, or an IP Protocol other than 4 and 6, in Addr or Server, fails the file |
| SocketConfigs.RejectsUnknownKey | lib/auth/authcore.py:79-80 | a key outside its section's allow-list fails the file |
| SocketConfigs.EmptySectionsPass | lib/auth/authcore.py:70-113 | only present keys are checked, so three empty sections pass |
| SocketConfigs.CkFile | lib/auth/authcore.py:67-116 | a file passes exactly when it parses to a document `SocketDocOk` accepts; an absent file and text that is not JSON are InvalidFile; PermissionError escapes |
| SocketConfigs.CommitPassStep | lib/auth/authcore.py:142-146 | each pass of the commit formatter adds the line feeds of its character to those of the earlier passes |
| SocketConfigs.FormatForCommit | lib/auth/authcore.py:139-147 | the formatter loop yields the layout with a line feed after `{`, around `}` and after `,` |
| SocketConfigs.CommitLayoutStrips | lib/auth/authcore.py:141-147 | deleting the line feeds of the layout gives the dumped text back |
| SocketConfigs.CommitLayoutLength | lib/auth/authcore.py:141-147 | the layout adds one character per `{` and `,` and two per `}` |
| SocketConfigs.FormattedCommitCorruptsCommas | lib/auth/authcore.py:140-148 | a formatted commit of a document with a comma in a string leaves a file that no longer parses |
| SocketConfigs.SocketConfig.constructor | lib/auth/authcore.py:24-26 | a new instance has nothing loaded |
| SocketConfigs.SocketConfig.LoadFile | lib/auth/authcore.py:118-128 | a second load raises ConfigLoadError; otherwise the load succeeds exactly when `ckfile` passes, and then keeps the path and the parsed document |
| SocketConfigs.SocketConfig.Commit | lib/auth/authcore.py:130-149 | without a file it raises ConfigLoadError; otherwise it writes the document, formatted when asked, over the loaded file |
| SocketConfigs.SocketConfig.Unload | lib/auth/authcore.py:151-161 | it commits formatted, then resets the attributes; it fails only when nothing is loaded or the file may not be written; when it fails, neither the object nor the disk changes |
| SocketConfigs.SocketConfig.Create | lib/auth/authcore.py:163-168 | construction with a file succeeds exactly when `ckfile` passes, and then holds the parsed document |
| AuthClient.ParseResponse | lib/auth/authcore.py:300-305 | the reply authenticates exactly when the first `/`-piece of its `repr` contains "1"; the returned pieces join back to the `repr`; otherwise it raises AuthenticationError only with `auto_raise` |
| AuthClient.ReprOfPlain | lib/auth/authcore.py:300 | the `repr` of printable ASCII bytes is the text inside `b'` and `'` |
| AuthClient.PlainReply | lib/auth/authcore.py:300-302 | on a plain reply the status is read from the text's first piece, and the returned pieces carry `b'` and `'` on the first and last |
| AuthClient.AcceptedExample | lib/auth/authcore.py:300-302 | the reply "1/alice/secret" returns `("b'1", "alice", "secret'")` |
| AuthClient.RefusedExample | lib/auth/authcore.py:303-305 | the reply "0/reason" returns `("0", None)`, or raises AuthenticationError with `auto_raise` |
| AuthClient.ControlByteAuthenticates | lib/auth/authcore.py:300-301 | the one-byte reply 0x01 authenticates, because its escape `\x01` holds a "1" |
| AuthClient.AsciiIsUtf8 | lib/auth/authcore.py:299 | bytes below 0x80 always decode as UTF-8 |
| AuthClient.EncodePointValid | lib/auth/authcore.py:299 | the UTF-8 form of a scalar value in front of decodable bytes still decodes |
| AuthClient.EncodeTextValid | lib/auth/authcore.py:299 | the UTF-8 form of every text decodes |
| AuthClient.LoneBytesFail | lib/auth/authcore.py:299-301 | the lone bytes 0xb1 and 0xc3 do not decode, although the parse alone would accept 0xb1 |
| AuthClient.PopulateCopiesServer | lib/auth/authcore.py:228-231 | the copy into `con_info` succeeds exactly when Server has IP, Port, Name (and WaitHS), and then holds those values |
| AuthClient.PopulatePartial | lib/auth/authcore.py:228-229 | a Server section with an IP but no Port leaves the new Host in the shared dict and raises KeyError |
| AuthClient.CheckedAuthFileOpens | lib/auth/authcore.py:259-265 | on a document `ckfile` accepted, `get_auth` opens the auth-file exactly when Action names one, and raises KeyError otherwise |
| AuthClient.Client4Class.constructor | lib/auth/authcore.py:188-195 | the class starts with all four `con_info` values None, `got_info` False and its one socket not connected |
| AuthClient.Client4Class.InitDirect | lib/auth/authcore.py:234-248 | refused once `got_info` is set; otherwise adopts the sender and copies IP, Port and Name, setting `got_info` only when all three exist |
| AuthClient.Client4.New | lib/auth/authcore.py:219-232 | refused when the class's `got_info` is set; without a configuration it always fails; with one it fails as the SocketConfig load fails, or copies the Server values into the class's `con_info` |
| AuthClient.Client4.ConnectAuth | lib/auth/authcore.py:290-305 | without configuration it raises ConfigNotLoaded; with a truthy HSRe it connects the class socket (OSError if already connected, or the connect's own failure) and raises UnicodeDecodeError on a handshake that is not UTF-8; then `get_auth`'s failure to open the auth-file escapes; a socket that never connected raises OSError at the send; a reply that is not UTF-8 raises UnicodeDecodeError; otherwise the result is the parse of the reply |
| AuthClient.ConstructAfterInitDirect | lib/auth/authcore.py:225-247 | after a successful `init_direct` every construction is refused |
| AuthClient.ConstructTwice | lib/auth/authcore.py:228-231 | after two constructions, both instances see the second file's Server IP in the shared `con_info` |
| AuthClient.ConnectWithoutWaitHS | lib/auth/authcore.py:290-296 | with a falsy WaitHS the class socket never connects, so `connect_auth` raises whatever the server would answer |
| AppConfig.FlagEntry | config/configurations.py:83-101 | a key of Dependencies, CLI or GUI passes exactly when it is allowed there and its value is a boolean |
| AppConfig.LogEntry | config/configurations.py:123-127 | a Logs key passes exactly when it is allowed and its value is a string |
| AppConfig.DataEntry | config/configurations.py:108-119 | a Data key passes exactly when it is allowed, Username is a string, and Token and Password are strings or null |
| AppConfig.LoginEntry | config/configurations.py:103-121 | a Login key passes exactly when it is a boolean flag, or Data holding only allowed fields |
| AppConfig.ScanSection | config/configurations.py:78 | a section passes exactly when it is a dict whose entries all pass; any other value raises AttributeError |
| AppConfig.SectionCheckSpec | config/configurations.py:82-127 | each section's loop accepts exactly the dicts of its allowed keys with values of the right type |
| AppConfig.CheckConfigDocSpec | config/configurations.py:75-128 | `ckconfig` accepts exactly the dicts of allowed sections that are each well formed; nothing is required to be present |
| AppConfig.NonDictSectionCrashes | config/configurations.py:83 | a section that is not a dict makes `.keys()` raise AttributeError out of `ckconfig` |
| AppConfig.NullTokenAccepted | config/configurations.py:112-117 | Token and Password may be null, but Username must be a string |
| AppConfig.CkConfig | config/configurations.py:73-132 | a file passes exactly when it parses to an accepted document; absent or unparsable files are InvalidConfig; PermissionError escapes |
| AppConfig.FormatPassPiece | config/configurations.py:156-158 | one pass of `format_json` adds a line feed after its character and changes nothing else in a piece |
| AppConfig.FormatJson | config/configurations.py:148-159 | `format_json` yields the layout with a line feed after every `{`, `}`, `[`, `]` and `,` |
| AppConfig.JsonLayoutLength | config/configurations.py:156-158 | the layout adds exactly one character per formatting character |
| AppConfig.JsonLayoutStrips | config/configurations.py:156-158 | deleting the line feeds of the layout gives the input back |
| AppConfig.CommitThenCheck | config/configurations.py:169-171 | after a plain commit an accepted document passes `ckconfig` again; after a formatted one it does so only when none of its strings holds a formatting character |
| AppConfig.Configurations.constructor | config/configurations.py:192-195 | without a file the document is empty and nothing is loaded |
| AppConfig.Configurations.LoadConfig | config/configurations.py:134-145 | a second load raises ConfigurationsLoadError; otherwise the load succeeds exactly when `ckconfig` passes, and then keeps the path and the well-formed document |
| AppConfig.Configurations.Commit | config/configurations.py:161-172 | without a file it raises ConfigurationsLoadError; otherwise it writes the document, formatted when asked, over the loaded file |
| AppConfig.Configurations.UnloadFile | config/configurations.py:174-184 | it commits formatted, then resets the attributes; it fails only when nothing is loaded or the file may not be written; when it fails, neither the object nor the disk changes |
| AppConfig.Configurations.Create | config/configurations.py:186-195 | construction with a file succeeds exactly when `ckconfig` passes |
| Text.Extension | lib/client_data.py:49 | the extension is the text after the last dot and holds no dot |
| Text.ExtensionOfName | lib/dependencies-loader.py:89 | a name ending in `.ext` has the extension `ext` |
| Text.JoinWithChar | lib/logger.py:105 | `sep.join` with a one-character separator string is the join on that character |
| ClientSettings.CheckFields | lib/client_data.py:53-58 | the field checks pass exactly when RootMode is a boolean, Mode is 0 or 1 and LocalAccountID a positive integer; they raise exactly when the document is not a dict |
| ClientSettings.CheckBody | lib/client_data.py:48-64 | the `try` block passes exactly when the name ends in `.json` and the file parses to valid settings |
| ClientSettings.CkFile | lib/client_data.py:35-65 | `ck_file` returns True for every path, because `finally: return True` discards every outcome |
| ClientSettings.ClientData.constructor | lib/client_data.py:97-100 | without a file nothing is loaded |
| ClientSettings.ClientData.LoadFile | lib/client_data.py:67-78 | a second load raises FileError; otherwise the load succeeds exactly when the file parses, valid or not |
| ClientSettings.ClientData.UnloadFile | lib/client_data.py:80-89 | without a file it raises FileError; otherwise the attributes are reset |
| ClientSettings.ClientData.Create | lib/client_data.py:91-100 | construction with a file succeeds exactly when the file parses |
| ClientSettings.ClientData.RootMode | lib/client_data.py:109-117 | without a file it raises FileError; a boolean RootMode is returned as it is, whether or not the other settings are valid; a missing RootMode raises KeyError |
| ClientSettings.ClientData.Mode | lib/client_data.py:119-127 | without a file it raises FileError; an integer Mode is returned as it is, so valid settings give their Mode, 0 or 1; a missing Mode raises KeyError, a document that is not a dict TypeError |
| ClientSettings.ClientData.ModeOfDecimalText | lib/client_data.py:127 | a Mode written as the decimal text of n reads as n |
| ClientSettings.ClientData.OwnerId | lib/client_data.py:129-137 | without a file it raises FileError; an integer LocalAccountID is returned as it is, so valid settings give their positive LocalAccountID; a missing one raises KeyError |
| ClientSettings.ClientData.Warnings | lib/client_data.py:139-149 | without a file it raises FileError; it returns the value of the Warning entry when there is one and None when there is not; a document that is not a dict raises AttributeError |
| ClientSettings.LoadInvalidSettings | lib/client_data.py:65-137 | settings with RootMode true, Mode "x" and no LocalAccountID load; `rootMode` then gives True, `mode` raises ValueError and `ownerID` KeyError |
| MySqlOptions.CheckMySqlDoc | lib/core.py:51-81 | a dict without General is InvalidConfigurationsFile (the caught KeyError); the only exceptions that escape are TypeError and AttributeError |
| MySqlOptions.GeneralEntry | lib/core.py:52-73 | a General key passes exactly when it is Primary-Host with a non-empty string, or Default-Port or LocalAccountID with a positive integer; Connection-Logs never passes |
| MySqlOptions.CheckMySqlDocSpec | lib/core.py:51-74 | `ckconfig` accepts exactly the documents whose General is a dict of those keys and values |
| MySqlOptions.ConnectionLogsRejected | lib/core.py:59-61 | a General holding Connection-Logs is always rejected |
| MySqlOptions.NonDictCrashes | lib/core.py:52 | a document that is not a dict raises TypeError, and a General that is not a dict raises AttributeError |
| MySqlOptions.CkConfig | lib/core.py:49-81 | a file passes exactly when it parses to an accepted document; an absent file, text that is not JSON and a dict without General are InvalidConfigurationsFile; PermissionError escapes |
| MySqlOptions.MySQLConnectionOptions.constructor | lib/core.py:20-22 | a new instance has an empty document and nothing loaded |
| MySqlOptions.MySQLConnectionOptions.LoadConfig | lib/core.py:83-94 | a second load raises FileError; otherwise the load succeeds exactly when `ckconfig` passes, and then keeps the path and the document |
| MySqlOptions.MySQLConnectionOptions.Commit | lib/core.py:103-112 | without a file it raises FileError; otherwise the document is written back unchanged |
| MySqlOptions.MySQLConnectionOptions.Unload | lib/core.py:114-124 | it commits, then resets the attributes; it fails only when nothing is loaded or the file may not be written; when it fails, neither the object nor the disk changes |
| MySqlOptions.MySQLConnectionOptions.Create | lib/core.py:96-101 | construction with a file succeeds exactly when `ckconfig` passes |
| MySqlOptions.ReloadAfterUnload | lib/core.py:83-124 | loading, unloading and loading a file again gives the same document |
| Dependencies.NameCountSpec | lib/dependencies-loader.py:53-56 | the count succeeds exactly when every entry has a Name, is at most the number of entries, and is positive exactly when some Name is the reference |
| Dependencies.ExtCountref | lib/dependencies-loader.py:46-56 | the counting loop computes the count of entries named by the reference |
| Dependencies.CkDepf | lib/dependencies-loader.py:67-113 | `ck_depf` never yields 0; a non-`.json` name or unparsable text gives 1; an absent file raises TypeError; PermissionError escapes |
| Dependencies.CheckDepDoc | lib/dependencies-loader.py:93-112 | on a parsed document the code is 3 or 4, and 4 whenever Dependencies has any entry; a missing Dependencies, or an empty Dependencies with GenInfo, Version or Restrict missing, gives 3; a KeyError never escapes |
| Dependencies.DocumentedFileRefused | lib/dependencies-loader.py:69-78 | the document of the documented shape is refused with code 4 |
| Dependencies.MinorTwelvePicksPip | lib/dependencies-loader.py:186-189 | under Python 3.12 the command uses `pip`, not `pip3` |
| Dependencies.StepOf | lib/dependencies-loader.py:183-190 | a pass marks an entry exactly when it is selected, its Installed is falsy and its Package is a string; a marked entry keeps every key and every value but Installed, which becomes True, and issues the pip command for its Package |
| Dependencies.RunFrom | lib/dependencies-loader.py:182-191 | the loop keeps the entry count and issues at most one command per entry |
| Dependencies.RunFromShape | lib/dependencies-loader.py:182-191 | a loop that raised nothing met no failing entry, and each entry is as its own pass leaves it |
| Dependencies.RunMarksSelected | lib/dependencies-loader.py:182-206 | after a loop that raised nothing, every selected entry has a truthy Installed and every other entry is unchanged |
| Dependencies.FirstFail | lib/dependencies-loader.py:182-206 | the first entry whose pass raises, after entries that all pass |
| Dependencies.RunFromCommands | lib/dependencies-loader.py:182-191 | from any entry on, the loop issues the commands of the marked entries before the first raising one, in order, and stops with that entry's exception |
| Dependencies.RunCommands | lib/dependencies-loader.py:182-206 | a run issues exactly the pip commands of the entries it marks, in the order of the entries, up to the first entry that raises |
| Dependencies.RunIdempotent | lib/dependencies-loader.py:182-206 | a second loop over the result changes nothing and issues nothing |
| Dependencies.MarkKeepsName | lib/dependencies-loader.py:183-190 | marking an entry keeps its Name, so it stays selected |
| Dependencies.RunEntries | lib/dependencies-loader.py:182-206 | the loop over the entries computes the run |
| Dependencies.RunLoop | lib/dependencies-loader.py:182-206 | the loop over `document['Dependencies']` computes the new document, the commands and the exception |
| Dependencies.InstallLoopIdempotent | lib/dependencies-loader.py:193-206 | on the document a loop left behind, after it raised nothing, the loop issues nothing and changes nothing |
| Dependencies.DependenciesManager.constructor | lib/dependencies-loader.py:23-25 | a new instance has nothing loaded |
| Dependencies.DependenciesManager.LoadFile | lib/dependencies-loader.py:115-128 | the load always fails: with DependenciesLoadError, with InvalidDependencies and the nonzero code, or with the exception `ck_depf` lets out |
| Dependencies.DependenciesManager.Create | lib/dependencies-loader.py:159-164 | construction with a file always fails |
| Dependencies.DependenciesManager.Countref | lib/dependencies-loader.py:58-65 | without a file it raises DependenciesLoadError; otherwise it is the reference count |
| Dependencies.DependenciesManager.Install | lib/dependencies-loader.py:172-191 | without a file or with a count of 0 it raises and changes nothing; otherwise the selected entries are marked and their commands issued |
| Dependencies.DependenciesManager.InstallAll | lib/dependencies-loader.py:193-206 | without a file it raises; otherwise every entry not installed is marked and its command issued |
| Dependencies.DependenciesManager.Reload | lib/dependencies-loader.py:140-146 | the document becomes the file's content again, without validation |
| Dependencies.DependenciesManager.Commit | lib/dependencies-loader.py:130-138 | the document is written back and reads back unchanged |
| Dependencies.DependenciesManager.UnloadFile | lib/dependencies-loader.py:148-157 | it commits, then resets the attributes; it fails only when nothing is loaded or the file may not be written; when it fails, neither the object nor the disk changes |
| Dependencies.InstallAllTwice | lib/dependencies-loader.py:193-206 | a second `install_all` after a successful one issues no command |
| Logging.LoggerClass.constructor | lib/logger.py:18-19 | the class starts with no logs file |
| Logging.LoggerClass.LoadDefault | lib/logger.py:37-39 | a class method refuses a second file, and otherwise sets the class's file |
| Logging.LoggerClass.ErrorLogs | lib/logger.py:31-40 | `errorLogs` sets the class's file to logs/error.log unless one is already set |
| Logging.LoggerClass.MysqlLogs | lib/logger.py:42-50 | `mysqlLogs` sets the class's file to logs/client-mysql.log unless one is already set |
| Logging.LoggerClass.GenLogs | lib/logger.py:52-60 | `genLogs` sets the class's file to logs/general.log unless one is already set |
| Logging.CodeField | lib/logger.py:103 | the code field is empty on success, "None" without a code, and otherwise parses back to the code |
| Logging.Record | lib/logger.py:103-105 | a record can be built unless a failure has no message (TypeError); it is the timestamp, the code field, the action, the message (empty on success) and a line feed, in that order, each followed by four spaces except the last |
| Logging.SuccessIgnoresError | lib/logger.py:103-104 | a success record ignores any message and code given |
| Logging.RecordLineFeeds | lib/logger.py:103-105 | a record holds the line feeds of its timestamp, action and message, plus one |
| Logging.RecordIsOneLine | lib/logger.py:103-105 | with single-line fields, a record is one line ending in its only line feed |
| Logging.DefaultLogger.New | lib/logger.py:62-74 | construction is refused while the class has a file; otherwise the instance gets the given file, or "" and no file |
| Logging.DefaultLogger.UnloadFile | lib/logger.py:76-82 | without a file it raises NoLogFileFound; otherwise the instance's file is cleared |
| Logging.DefaultLogger.AddLog | lib/logger.py:91-106 | without a file it raises NoLogFileFound; otherwise the record is appended to the file, which is created even when the record cannot be built |
| Logging.ClassFileBlocksInstances | lib/logger.py:37-68 | after `errorLogs`, no instance can be constructed |
| Logging.LogTwice | lib/logger.py:101-105 | two records are appended one after the other |

## Left out

- AuthClient.Client4.ConnectAuth: the network is an input. What `connect` raises, the handshake bytes and the reply bytes are parameters. A `send` or `recv` failing on a connected socket is not modelled. The content of the auth-file is not modelled: only whether `open` succeeds, so a decode failure in `auth.read()` is not modelled.
- `Client4.add_log` and the talkback file are not modelled, because they only append text to a file.
- The `__del__` methods are not modelled, because Python calls them at an unpredictable time.
- Floating-point JSON numbers are not modelled. Documents hold null, booleans, integers, strings, lists and dicts. Dicts have distinct keys, as `json.loads` yields them.
- PyJson.PyInt: the model's `int()` on a string accepts an optional sign and ASCII digits. It does not accept surrounding white space or underscores.
- SocketConfigs.ActionEntry: whether the auth-file path opens is a parameter. The model does not decide which values name a readable file.
- The text of `json.dumps` is not modelled, only whether the written file parses back. A formatted commit is modelled by which characters gain a line feed. Its effect is proved on the text by `FormatForCommit` and `FormatJson`.
- Dependencies.DependenciesManager.Install: `os.system` is not run. The commands are returned as strings.
- `sys.version` is a parameter.
- Logging.DefaultLogger.AddLog: the clock is a parameter, and I/O failures other than the empty path are not modelled.
- `errorLogs` returns the class object rather than an instance. The class methods are modelled only by their effect on the class's attributes.
- Messages of the raised exceptions are modelled as the section and the key, not as the message text.
- The stores' class-level dicts (`document: dict = dict()`) shared between instances are not modelled: every instance that loads gets its own document. Client4's `con_info` is modelled as shared, because its sharing is visible.
- Dependencies.DependenciesManager.Assigned: `load_file` never succeeds, so an instance holding a document is made by assigning its attributes directly.
- envfunc.py, lib/gui/core.py and teste.py are not part of this model.
