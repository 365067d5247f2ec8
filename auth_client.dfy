/**
 * `Client4` of lib/auth/authcore.py: the class-shared connection info filled
 * from a `SocketConfig`, and the parse of the authentication server's reply in
 * `connect_auth`. The socket traffic itself is not modelled: the reply is an input.
 */
module AuthClient {
  import opened Results
  import opened PyJson
  import opened Text
  import opened Disk
  import opened SocketConfigs

  type Byte = b: int | 0 <= b < 256

  datatype ClientFault =
    | SocketAlreadyConfigured
    | ConfigNotLoaded
    | AuthenticationError
    | Config(fault: SocketFault)
    | Failed(exc: PyExc)

  /** The file `Client4()` loads when no configuration is given. */
  const DefaultConfigPath: string := "lib/auth/config.json"

  // ---------------------------------------------------------------------------
  // repr(bytes) and the reply parse

  function HexDigit(d: int): char
    requires 0 <= d < 16
  {
    if d < 10 then ('0' as int + d) as char else ('a' as int + d - 10) as char
  }

  /** How `repr` writes one byte inside the quotes. */
  function ReprByte(b: Byte, quote: char): string
  {
    var c := b as char;
    if c == quote || c == '\\' then ['\\', c]
    else if c == '\t' then "\\t"
    else if c == '\n' then "\\n"
    else if c == '\r' then "\\r"
    else if b < 0x20 || b >= 0x7f then ['\\', 'x', HexDigit(b / 16), HexDigit(b % 16)]
    else [c]
  }

  function ReprBody(bs: seq<Byte>, quote: char): string
  {
    if bs == [] then [] else ReprByte(bs[0], quote) + ReprBody(bs[1..], quote)
  }

  /** The quote `repr` picks: double only when the bytes hold a single quote and no double one. */
  function ReprQuote(bs: seq<Byte>): char
  {
    if 0x27 in bs && 0x22 !in bs then '"' else '\''
  }

  /** `repr(bs)` for a `bytes` value: `b'...'` with escapes. */
  function BytesRepr(bs: seq<Byte>): string
  {
    ['b', ReprQuote(bs)] + ReprBody(bs, ReprQuote(bs)) + [ReprQuote(bs)]
  }

  /** What `connect_auth` returns: `tuple(splt)`, or `("0", None)`. */
  datatype AuthReply = Accepted(fields: seq<string>) | Refused

  /** The tail of `connect_auth`: split `repr(response)` on `/`, authenticate when
      the first piece contains "1", otherwise raise or return `("0", None)`. */
  function ParseResponse(response: seq<Byte>, autoRaise: bool): (r: Result<AuthReply, ClientFault>)
    ensures (r.Ok? && r.value.Accepted?) <==> '1' in Split(BytesRepr(response), '/')[0]
    ensures r.Ok? && r.value.Accepted? ==>
      && |r.value.fields| >= 1
      && Join(r.value.fields, '/') == BytesRepr(response)
      && forall i :: 0 <= i < |r.value.fields| ==> '/' !in r.value.fields[i]
    ensures r.Err? <==> autoRaise && '1' !in Split(BytesRepr(response), '/')[0]
    ensures r.Err? ==> r.error == AuthenticationError
  {
    var splt := Split(BytesRepr(response), '/');
    if '1' in splt[0] then Ok(Accepted(splt))
    else if autoRaise then Err(AuthenticationError)
    else Ok(Refused)
  }

  /** A piece without the separator in front of a text joins the text's first part. */
  lemma {:induction false} SplitPrepend(p: string, t: string, sep: char)
    requires sep !in p
    ensures Split(p + t, sep) == [p + Split(t, sep)[0]] + Split(t, sep)[1..]
  {
    if p != [] {
      SplitPrepend(p[1..], t, sep);
      assert (p + t)[1..] == p[1..] + t;
      var rest := Split(p[1..] + t, sep);
      assert rest[0] == p[1..] + Split(t, sep)[0];
      assert rest[1..] == Split(t, sep)[1..];
      assert (p + t)[0] == p[0] && p[0] != sep;
      assert Split(p + t, sep) == [[p[0]] + rest[0]] + rest[1..];
      assert [p[0]] + (p[1..] + Split(t, sep)[0]) == p + Split(t, sep)[0];
    } else {
      assert p + t == t;
      assert p + Split(t, sep)[0] == Split(t, sep)[0];
      assert [Split(t, sep)[0]] + Split(t, sep)[1..] == Split(t, sep);
    }
  }

  /** A character other than the separator at the end of a text joins the last part. */
  lemma {:induction false} SplitAppend(t: string, q: char, sep: char)
    requires q != sep
    ensures var parts := Split(t, sep);
      Split(t + [q], sep) == parts[..|parts| - 1] + [parts[|parts| - 1] + [q]]
  {
    if t == [] {
      assert t + [q] == [q];
    } else {
      SplitAppend(t[1..], q, sep);
      assert (t + [q])[1..] == t[1..] + [q];
    }
  }

  /** The printable ASCII characters `repr` copies as they are under a single quote. */
  predicate PlainChar(c: char)
  {
    ' ' <= c && (c as int) < 0x7f && c != '\'' && c != '\\'
  }

  /** The bytes of an ASCII text. */
  function Encode(text: string): (bs: seq<Byte>)
    requires forall k :: 0 <= k < |text| ==> PlainChar(text[k])
    ensures |bs| == |text| && forall k :: 0 <= k < |text| ==> bs[k] == text[k] as int
  {
    if text == [] then []
    else
      assert PlainChar(text[0]);
      var b: Byte := text[0] as int;
      [b] + Encode(text[1..])
  }

  lemma {:induction false} ReprBodyPlain(text: string)
    requires forall k :: 0 <= k < |text| ==> PlainChar(text[k])
    ensures ReprBody(Encode(text), '\'') == text
  {
    if text != [] {
      ReprBodyPlain(text[1..]);
      assert Encode(text)[1..] == Encode(text[1..]);
      assert [text[0]] + text[1..] == text;
    }
  }

  /** For a reply of plain ASCII text, `repr` only wraps it in `b'` and `'`. */
  lemma ReprOfPlain(text: string)
    requires forall k :: 0 <= k < |text| ==> PlainChar(text[k])
    ensures BytesRepr(Encode(text)) == "b'" + text + "'"
  {
    assert 0x27 !in Encode(text);
    ReprBodyPlain(text);
  }

  /**
   * On a plain ASCII reply `text`, the status test reads the text's first
   * `/`-piece, and the tuple returned carries the pieces of the text with
   * `b'` glued to the first one and `'` to the last one.
   */
  lemma PlainReply(text: string, autoRaise: bool)
    requires forall k :: 0 <= k < |text| ==> PlainChar(text[k])
    ensures var segs := Split(text, '/');
      var r := ParseResponse(Encode(text), autoRaise);
      && ((r.Ok? && r.value.Accepted?) <==> '1' in segs[0])
      && (r.Ok? && r.value.Accepted? ==>
            var quoted := [("b'" + segs[0])] + segs[1..];
            r.value.fields == quoted[..|quoted| - 1] + [quoted[|quoted| - 1] + "'"])
  {
    ReprOfPlain(text);
    var segs := Split(text, '/');
    SplitPrepend("b'", text, '/');
    assert "b'" + text + "'" == ("b'" + text) + ['\''];
    SplitAppend("b'" + text, '\'', '/');
    assert '1' in "b'" + segs[0] <==> '1' in segs[0] by {
      assert forall k :: 0 <= k < |segs[0]| ==> ("b'" + segs[0])[k + 2] == segs[0][k];
    }
  }

  /** The reply "1/alice/secret" authenticates, and the fields keep the repr's quote marks. */
  lemma AcceptedExample(text: string, autoRaise: bool)
    requires text == "1/alice/secret"
    ensures ParseResponse(Encode(text), autoRaise) == Ok(Accepted(["b'1", "alice", "secret'"]))
  {
    var parts := ["1", "alice", "secret"];
    assert Join(parts, '/') == text by {
      assert Join(parts[2..], '/') == "secret";
      assert Join(parts[1..], '/') == "alice/secret";
    }
    SplitJoin(parts, '/');
    PlainReply(text, autoRaise);
    var quoted := [("b'" + parts[0])] + parts[1..];
    assert "b'" + parts[0] == "b'1";
    assert parts[1..] == ["alice", "secret"];
    assert quoted == ["b'1", "alice", "secret"];
    assert "secret" + "'" == "secret'";
    assert '1' in parts[0];
    assert quoted[..2] + [quoted[2] + "'"] == ["b'1", "alice", "secret'"];
  }

  /** The reply "0/reason" is refused: `("0", None)`, or AuthenticationError with `auto_raise`. */
  lemma RefusedExample()
    ensures ParseResponse(Encode("0/reason"), false) == Ok(Refused)
    ensures ParseResponse(Encode("0/reason"), true) == Err(AuthenticationError)
  {
    var parts := ["0", "reason"];
    assert Join(parts, '/') == "0/reason";
    SplitJoin(parts, '/');
    PlainReply("0/reason", false);
    PlainReply("0/reason", true);
  }

  /** A reply made of the single byte 0x01 authenticates: its escape `\x01` holds a "1". */
  lemma ControlByteAuthenticates(autoRaise: bool)
    ensures ParseResponse([1], autoRaise).Ok? && ParseResponse([1], autoRaise).value.Accepted?
  {
    var text := BytesRepr([1]);
    assert text == "b'\\x01'";
    SplitNoSep(text, '/');
    assert text[5] == '1';
  }

  // ---------------------------------------------------------------------------
  // str(bytes, "UTF-8")

  predicate Continuation(b: Byte) { 0x80 <= b < 0xC0 }

  /**
   * The bytes `str(bs, "UTF-8")` decodes without raising UnicodeDecodeError:
   * the well-formed sequences of table 3-7 of the Unicode Standard (also
   * section 4 of RFC 3629), which have no overlong form, no surrogate and
   * nothing above U+10FFFF.
   */
  predicate ValidUtf8(bs: seq<Byte>)
    decreases |bs|
  {
    if bs == [] then true
    else
      var b := bs[0];
      if b < 0x80 then ValidUtf8(bs[1..])
      else if 0xC2 <= b <= 0xDF then
        |bs| >= 2 && Continuation(bs[1]) && ValidUtf8(bs[2..])
      else if 0xE0 <= b <= 0xEF then
        && |bs| >= 3
        && (if b == 0xE0 then 0xA0 <= bs[1] < 0xC0
            else if b == 0xED then 0x80 <= bs[1] < 0xA0
            else Continuation(bs[1]))
        && Continuation(bs[2])
        && ValidUtf8(bs[3..])
      else if 0xF0 <= b <= 0xF4 then
        && |bs| >= 4
        && (if b == 0xF0 then 0x90 <= bs[1] < 0xC0
            else if b == 0xF4 then 0x80 <= bs[1] < 0x90
            else Continuation(bs[1]))
        && Continuation(bs[2]) && Continuation(bs[3])
        && ValidUtf8(bs[4..])
      else false
  }

  /** ASCII decodes: every reply of plain text is valid UTF-8. */
  lemma {:induction false} AsciiIsUtf8(bs: seq<Byte>)
    requires forall k :: 0 <= k < |bs| ==> bs[k] < 0x80
    ensures ValidUtf8(bs)
  {
    if bs != [] {
      AsciiIsUtf8(bs[1..]);
    }
  }

  /** A Unicode scalar value: a code point that is not a surrogate. */
  predicate Scalar(cp: int)
  {
    0 <= cp < 0x110000 && !(0xD800 <= cp < 0xE000)
  }

  /** The UTF-8 form of one scalar value, as `str.encode("UTF-8")` writes it. */
  function EncodePoint(cp: int): seq<Byte>
    requires Scalar(cp)
  {
    if cp < 0x80 then [cp]
    else if cp < 0x800 then [0xC0 + cp / 64, 0x80 + cp % 64]
    else if cp < 0x10000 then [0xE0 + cp / 4096, 0x80 + (cp / 64) % 64, 0x80 + cp % 64]
    else [0xF0 + cp / 262144, 0x80 + (cp / 4096) % 64, 0x80 + (cp / 64) % 64, 0x80 + cp % 64]
  }

  /** The UTF-8 form of a text given as scalar values. */
  function EncodeText(cps: seq<int>): seq<Byte>
    requires forall k :: 0 <= k < |cps| ==> Scalar(cps[k])
  {
    if cps == [] then [] else EncodePoint(cps[0]) + EncodeText(cps[1..])
  }

  /** One encoded scalar value in front of valid bytes keeps them valid. */
  lemma EncodePointValid(cp: int, rest: seq<Byte>)
    requires Scalar(cp) && ValidUtf8(rest)
    ensures ValidUtf8(EncodePoint(cp) + rest)
  {
    var e := EncodePoint(cp);
    var bs := e + rest;
    assert bs[|e|..] == rest;
    if cp < 0x80 {
    } else if cp < 0x800 {
      assert 0xC2 <= bs[0] <= 0xDF && Continuation(bs[1]);
    } else if cp < 0x10000 {
      ThreeByteLead(cp, bs[1]);
    } else {
      FourByteLead(cp, bs[1]);
    }
  }

  /** The second byte of a three-byte form is in the range its lead byte allows. */
  lemma ThreeByteLead(cp: int, b1: int)
    requires Scalar(cp) && 0x800 <= cp < 0x10000 && b1 == 0x80 + (cp / 64) % 64
    ensures var b0 := 0xE0 + cp / 4096;
      && 0xE0 <= b0 <= 0xEF
      && (if b0 == 0xE0 then 0xA0 <= b1 < 0xC0 else if b0 == 0xED then 0x80 <= b1 < 0xA0 else 0x80 <= b1 < 0xC0)
  {
  }

  /** The second byte of a four-byte form is in the range its lead byte allows. */
  lemma FourByteLead(cp: int, b1: int)
    requires Scalar(cp) && 0x10000 <= cp && b1 == 0x80 + (cp / 4096) % 64
    ensures var b0 := 0xF0 + cp / 262144;
      && 0xF0 <= b0 <= 0xF4
      && (if b0 == 0xF0 then 0x90 <= b1 < 0xC0 else if b0 == 0xF4 then 0x80 <= b1 < 0x90 else 0x80 <= b1 < 0xC0)
  {
  }

  /** Every text `str.encode("UTF-8")` can produce decodes again. */
  lemma {:induction false} EncodeTextValid(cps: seq<int>)
    requires forall k :: 0 <= k < |cps| ==> Scalar(cps[k])
    ensures ValidUtf8(EncodeText(cps))
  {
    if cps != [] {
      EncodeTextValid(cps[1..]);
      EncodePointValid(cps[0], EncodeText(cps[1..]));
    }
  }

  /** A continuation byte cannot start a character, and a lead byte needs its
      continuations: the lone bytes 0xb1 and 0xc3 both fail to decode, although
      `repr` of the first holds a "1" and would authenticate. */
  lemma LoneBytesFail()
    ensures !ValidUtf8([0xb1]) && !ValidUtf8([0xc3])
    ensures ParseResponse([0xb1], true).Ok? && ParseResponse([0xb1], true).value.Accepted?
  {
    var text := BytesRepr([0xb1]);
    assert text == "b'\\xb1'";
    SplitNoSep(text, '/');
    assert text[5] == '1';
  }

  // ---------------------------------------------------------------------------
  // The class-shared connection info

  /** `con_info`: Host, Port, Name and HSRe, JNull standing for Python's None. */
  datatype ConInfo = ConInfo(host: Json, port: Json, name: Json, hsRe: Json)

  /** `sock_conf.config[section][key]`; a SocketConfig that never loaded has no `config`. */
  function SectionValue(conf: Option<Json>, section: string, key: string): Result<Json, PyExc>
  {
    match conf
    case None => Err(AttributeError)
    case Some(doc) =>
      (match Subscript(doc, section)
       case Err(e) => Err(e)
       case Ok(s) => Subscript(s, key))
  }

  /** `sock_conf.config['Server'][key]`. */
  function ServerValue(conf: Option<Json>, key: string): Result<Json, PyExc>
  {
    SectionValue(conf, "Server", key)
  }

  /** What `get_auth` raises opening `sock_conf.config['Action']['auth-file']`, if anything. */
  function AuthFileFault(conf: Option<Json>, probe: Json -> Probe): Option<PyExc>
  {
    match SectionValue(conf, "Action", "auth-file")
    case Err(e) => Some(e)
    case Ok(v) =>
      (match probe(v)
       case Opens => None
       case NotFound => Some(FileNotFoundError)
       case Fails(e) => Some(e))
  }

  /** On a document `ckfile` accepted, `get_auth` opens the auth-file exactly
      when the Action section names one, and raises KeyError otherwise. */
  lemma CheckedAuthFileOpens(doc: Json, probe: Json -> Probe)
    requires SocketDocOk(doc, probe)
    ensures var action := SectionEntries(doc, "Action").value;
      && (AuthFileFault(Some(doc), probe).None? <==> exists i :: 0 <= i < |action| && action[i].0 == "auth-file")
      && (AuthFileFault(Some(doc), probe).Some? ==> AuthFileFault(Some(doc), probe) == Some(KeyError))
  {
    var action := SectionEntries(doc, "Action").value;
    var v := Lookup(action, "auth-file");
    if v.Some? {
      var i :| 0 <= i < |action| && action[i] == ("auth-file", v.value);
      assert ActionEntry(action[i].0, action[i].1, probe).Pass?;
    }
  }

  /** The assignments into `con_info`, one key after the other, HSRe only when
      `withHS`; the first failing lookup stops them and leaves the earlier ones done. */
  function Populate(info: ConInfo, conf: Option<Json>, withHS: bool): (ConInfo, Option<PyExc>)
  {
    match ServerValue(conf, "IP")
    case Err(e) => (info, Some(e))
    case Ok(ip) =>
      var info1 := info.(host := ip);
      match ServerValue(conf, "Port")
      case Err(e) => (info1, Some(e))
      case Ok(port) =>
        var info2 := info1.(port := port);
        match ServerValue(conf, "Name")
        case Err(e) => (info2, Some(e))
        case Ok(name) =>
          var info3 := info2.(name := name);
          if !withHS then (info3, None)
          else
            match ServerValue(conf, "WaitHS")
            case Err(e) => (info3, Some(e))
            case Ok(hs) => (info3.(hsRe := hs), None)
  }

  /** The copy succeeds exactly when the Server section has IP, Port, Name (and
      WaitHS when it is copied), and then `con_info` holds those values; without
      WaitHS the old HSRe stays. */
  lemma PopulateCopiesServer(info: ConInfo, conf: Option<Json>, withHS: bool)
    ensures var (info', err) := Populate(info, conf, withHS);
      && (err.None? <==>
            ServerValue(conf, "IP").Ok? && ServerValue(conf, "Port").Ok? && ServerValue(conf, "Name").Ok?
            && (withHS ==> ServerValue(conf, "WaitHS").Ok?))
      && (err.None? ==>
            info' == ConInfo(ServerValue(conf, "IP").value, ServerValue(conf, "Port").value,
                             ServerValue(conf, "Name").value,
                             if withHS then ServerValue(conf, "WaitHS").value else info.hsRe))
  {
  }

  /** A Server section with an IP but no Port leaves the new Host in the shared
      dict beside the old Port, Name and HSRe. */
  lemma PopulatePartial(info: ConInfo, ip: Json, withHS: bool)
    ensures var conf := Some(JObj([("Server", JObj([("IP", ip)]))]));
      Populate(info, conf, withHS) == (info.(host := ip), Some(KeyError))
  {
  }

  /** The class object `Client4`: its attributes are shared by every instance. */
  class Client4Class {
    var conInfo: ConInfo
    var gotInfo: bool
    /** `cls.sock_conf`, set by `init_direct`. */
    var sockConf: Option<SocketConfig>
    /** Whether the class's one socket `sock` has connected to the server. */
    var connected: bool

    constructor ()
      ensures conInfo == ConInfo(JNull, JNull, JNull, JNull) && !gotInfo && sockConf == None && !connected
    {
      conInfo := ConInfo(JNull, JNull, JNull, JNull);
      gotInfo := false;
      sockConf := None;
      connected := false;
    }

    /** `init_direct`: adopts `sender`, copies IP, Port and Name (not WaitHS) and
        sets the class-level `got_info`. */
    method InitDirect(sender: SocketConfig) returns (fault: Option<ClientFault>)
      modifies this
      ensures old(gotInfo) ==> fault == Some(SocketAlreadyConfigured) && unchanged(this)
      ensures !old(gotInfo) ==>
        && sockConf == Some(sender) && connected == old(connected)
        && var (info, err) := Populate(old(conInfo), sender.config, false);
           && conInfo == info
           && gotInfo == err.None?
           && fault == (if err.None? then None else Some(Failed(err.value)))
    {
      if gotInfo {
        return Some(SocketAlreadyConfigured);
      }
      sockConf := Some(sender);
      var ip := ServerValue(sender.config, "IP");
      if ip.Err? {
        return Some(Failed(ip.error));
      }
      conInfo := conInfo.(host := ip.value);
      var port := ServerValue(sender.config, "Port");
      if port.Err? {
        return Some(Failed(port.error));
      }
      conInfo := conInfo.(port := port.value);
      var name := ServerValue(sender.config, "Name");
      if name.Err? {
        return Some(Failed(name.error));
      }
      conInfo := conInfo.(name := name.value);
      gotInfo := true;
      fault := None;
    }
  }

  /** An instance of `Client4`. Its `got_info` is an instance attribute that
      shadows the class one; `con_info` is the class's. */
  class Client4 {
    const cls: Client4Class
    var sockConf: SocketConfig
    var gotInfo: bool

    constructor Allocate(cls: Client4Class, sockConf: SocketConfig)
      ensures this.cls == cls && this.sockConf == sockConf && gotInfo
    {
      this.cls := cls;
      this.sockConf := sockConf;
      gotInfo := true;
    }

    /**
     * `Client4(config)`. The check reads the class-level `got_info`, which only
     * `init_direct` sets. Without a configuration the default file is loaded and
     * dropped, and a second, empty SocketConfig is kept, whose missing `config`
     * makes the construction fail. The Server values go into the shared
     * `con_info`; the flag set at the end is the instance's own.
     */
    static method New(cls: Client4Class, disk: Disk, config: Option<string>, probe: Json -> Probe)
      returns (r: Result<Client4, ClientFault>)
      modifies cls
      ensures r.Ok? ==> fresh(r.value) && r.value.cls == cls && r.value.gotInfo
      ensures cls.gotInfo == old(cls.gotInfo) && cls.sockConf == old(cls.sockConf) && cls.connected == old(cls.connected)
      ensures old(cls.gotInfo) ==> r == Err(SocketAlreadyConfigured) && cls.conInfo == old(cls.conInfo)
      ensures !old(cls.gotInfo) && config.None? ==>
        && cls.conInfo == old(cls.conInfo)
        && var check := CkFile(disk.files, DefaultConfigPath, probe);
           r == Err(if check.Pass? then Failed(AttributeError) else Config(LoadFault(check)))
      ensures !old(cls.gotInfo) && config.Some? ==>
        var check := CkFile(disk.files, config.value, probe);
        if !check.Pass? then r == Err(Config(LoadFault(check))) && cls.conInfo == old(cls.conInfo)
        else
          var (info, err) := Populate(old(cls.conInfo), Some(Read(disk.files, config.value).value), true);
          && cls.conInfo == info
          && (r.Ok? <==> err.None?)
          && (err.Some? ==> r == Err(Failed(err.value)))
    {
      if cls.gotInfo {
        return Err(SocketAlreadyConfigured);
      }
      if config.None? {
        var dropped := SocketConfig.Create(disk, Some(DefaultConfigPath), probe);
        if dropped.Err? {
          return Err(Config(dropped.error));
        }
      }
      var sc := SocketConfig.Create(disk, config, probe);
      if sc.Err? {
        return Err(Config(sc.error));
      }
      var conf := sc.value.config;
      var ip := ServerValue(conf, "IP");
      if ip.Err? {
        return Err(Failed(ip.error));
      }
      cls.conInfo := cls.conInfo.(host := ip.value);
      var port := ServerValue(conf, "Port");
      if port.Err? {
        return Err(Failed(port.error));
      }
      cls.conInfo := cls.conInfo.(port := port.value);
      var name := ServerValue(conf, "Name");
      if name.Err? {
        return Err(Failed(name.error));
      }
      cls.conInfo := cls.conInfo.(name := name.value);
      var hs := ServerValue(conf, "WaitHS");
      if hs.Err? {
        return Err(Failed(hs.error));
      }
      cls.conInfo := cls.conInfo.(hsRe := hs.value);
      var c := new Client4.Allocate(cls, sc.value);
      return Ok(c);
    }

    /**
     * `connect_auth`, with the network as inputs: `connectFault` is what
     * `connect` raises on a socket not yet connected (None when the server
     * accepts), and `handshake` and `response` are what the two `recv` calls
     * return. The socket is the class's, so a connection one call makes is
     * still there at the next. A falsy HSRe skips the connect, and `send` on a
     * socket that never connected raises OSError, as `connect` on a connected
     * one does. Both received texts are decoded as UTF-8 before they are used.
     */
    method ConnectAuth(autoRaise: bool, connectFault: Option<PyExc>, handshake: seq<Byte>,
                       probe: Json -> Probe, response: seq<Byte>)
      returns (r: Result<AuthReply, ClientFault>)
      modifies cls
      ensures cls.conInfo == old(cls.conInfo) && cls.gotInfo == old(cls.gotInfo) && cls.sockConf == old(cls.sockConf)
      ensures !gotInfo ==> r == Err(ConfigNotLoaded) && cls.connected == old(cls.connected)
      ensures gotInfo ==>
        var hs := Truthy(cls.conInfo.hsRe);
        && cls.connected == (old(cls.connected) || (hs && connectFault.None?))
        && (hs && old(cls.connected) ==> r == Err(Failed(OSError)))
        && (hs && !old(cls.connected) && connectFault.Some? ==> r == Err(Failed(connectFault.value)))
        && (hs && !old(cls.connected) && connectFault.None? && !ValidUtf8(handshake) ==>
              r == Err(Failed(UnicodeDecodeError)))
        && (!hs || (!old(cls.connected) && connectFault.None? && ValidUtf8(handshake)) ==>
              var authFault := AuthFileFault(sockConf.config, probe);
              && (authFault.Some? ==> r == Err(Failed(authFault.value)))
              && (authFault.None? && !cls.connected ==> r == Err(Failed(OSError)))
              && (authFault.None? && cls.connected && !ValidUtf8(response) ==> r == Err(Failed(UnicodeDecodeError)))
              && (authFault.None? && cls.connected && ValidUtf8(response) ==> r == ParseResponse(response, autoRaise)))
      ensures r.Ok? ==> gotInfo && cls.connected && ValidUtf8(response) && r == ParseResponse(response, autoRaise)
    {
      if !gotInfo {
        return Err(ConfigNotLoaded);
      }
      if Truthy(cls.conInfo.hsRe) {
        if cls.connected {
          return Err(Failed(OSError));
        }
        if connectFault.Some? {
          return Err(Failed(connectFault.value));
        }
        cls.connected := true;
        if !ValidUtf8(handshake) {
          return Err(Failed(UnicodeDecodeError));
        }
      }
      var authFault := AuthFileFault(sockConf.config, probe);
      if authFault.Some? {
        return Err(Failed(authFault.value));
      }
      if !cls.connected {
        return Err(Failed(OSError));
      }
      if !ValidUtf8(response) {
        return Err(Failed(UnicodeDecodeError));
      }
      r := ParseResponse(response, autoRaise);
    }
  }

  /** Once `init_direct` has succeeded on the class, every later construction is
      refused, whatever configuration it is given. */
  method ConstructAfterInitDirect(disk: Disk, sender: SocketConfig, config: Option<string>, probe: Json -> Probe)
    returns (initFault: Option<ClientFault>, r: Result<Client4, ClientFault>)
    ensures initFault.None? ==> r == Err(SocketAlreadyConfigured)
  {
    var cls := new Client4Class();
    initFault := cls.InitDirect(sender);
    r := Client4.New(cls, disk, config, probe);
  }

  /** Two successful constructions on one class: both instances see the second
      file's Server values, because `con_info` belongs to the class. */
  method ConstructTwice(disk: Disk, first: string, second: string, probe: Json -> Probe)
    returns (a: Result<Client4, ClientFault>, b: Result<Client4, ClientFault>)
    ensures a.Ok? && b.Ok? ==>
      && a.value.cls == b.value.cls
      && Read(disk.files, second).Ok?
      && ServerValue(Some(Read(disk.files, second).value), "IP").Ok?
      && a.value.cls.conInfo.host == ServerValue(Some(Read(disk.files, second).value), "IP").value
  {
    var cls := new Client4Class();
    a := Client4.New(cls, disk, Some(first), probe);
    ghost var between := cls.conInfo;
    b := Client4.New(cls, disk, Some(second), probe);
    if a.Ok? && b.Ok? {
      PopulateCopiesServer(between, Some(Read(disk.files, second).value), true);
    }
  }

  /** A configuration whose WaitHS is falsy never connects the class's fresh
      socket, so `connect_auth` raises whatever the server would have answered. */
  method ConnectWithoutWaitHS(disk: Disk, path: string, probe: Json -> Probe, response: seq<Byte>)
    returns (c: Result<Client4, ClientFault>, r: Result<AuthReply, ClientFault>)
    ensures c.Ok? ==>
      && Read(disk.files, path).Ok?
      && ServerValue(Some(Read(disk.files, path).value), "WaitHS").Ok?
      && (!Truthy(ServerValue(Some(Read(disk.files, path).value), "WaitHS").value) ==> r.Err?)
  {
    var cls := new Client4Class();
    c := Client4.New(cls, disk, Some(path), probe);
    if c.Err? {
      return c, Err(c.error);
    }
    PopulateCopiesServer(ConInfo(JNull, JNull, JNull, JNull), Some(Read(disk.files, path).value), true);
    r := c.value.ConnectAuth(false, None, [], probe, response);
  }
}
