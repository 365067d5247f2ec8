/**
 * Parsed JSON documents, as Python's `json.loads` hands them to the stores, and
 * the Python built-ins the stores apply to them: subscripting, `.keys()`,
 * iteration, `int()`, truthiness and `str()` of an integer.
 */
module PyJson {
  import opened Results

  /** A parsed document. Objects keep the order of their keys, and `json.loads`
      never yields an object with the same key twice. */
  datatype Json =
    | JNull
    | JBool(b: bool)
    | JInt(i: int)
    | JStr(s: string)
    | JArr(items: seq<Json>)
    | JObj(fields: seq<(string, Json)>)

  /** The built-in exceptions that can escape from the stores. */
  datatype PyExc =
    | KeyError
    | TypeError
    | ValueError
    | AttributeError
    | FileNotFoundError
    | PermissionError
    | JSONDecodeError
    | UnicodeDecodeError
    | OSError

  /** Why a validator rejected a document (the message of the exception it raised). */
  datatype Why =
    | BadValue(section: string, key: string)
    | UnknownField(section: string, key: string)
    | MissingField
    | Unreachable
    | Unparsable
    | BadAuthFile
    | NotJsonName

  /** The outcome of a validator: accepted, rejected with the store's own
      exception, or stopped by a built-in exception it does not catch. */
  datatype Verdict = Pass | Reject(why: Why) | Crash(exc: PyExc)

  /** The value of the first entry named `key`. */
  function Lookup(fields: seq<(string, Json)>, key: string): (r: Option<Json>)
    ensures r.Some? <==> exists i :: 0 <= i < |fields| && fields[i].0 == key
    ensures r.Some? ==> exists i :: 0 <= i < |fields| && fields[i] == (key, r.value)
  {
    if fields == [] then None
    else if fields[0].0 == key then Some(fields[0].1)
    else
      var r := Lookup(fields[1..], key);
      assert forall i :: 1 <= i < |fields| ==> fields[i] == fields[1..][i - 1];
      r
  }

  /** The lookup gives the value of the first entry with the key, as a dict
      built from the entries in order keeps one value per key. */
  lemma {:induction false} LookupFirst(fields: seq<(string, Json)>, key: string, i: nat)
    requires i < |fields| && fields[i].0 == key
    requires forall j :: 0 <= j < i ==> fields[j].0 != key
    ensures Lookup(fields, key) == Some(fields[i].1)
  {
    if i > 0 {
      LookupFirst(fields[1..], key, i - 1);
    }
  }

  /** `j[key]`: a dict lookup; every other JSON value refuses a string index. */
  function Subscript(j: Json, key: string): Result<Json, PyExc>
  {
    match j
    case JObj(fields) =>
      (match Lookup(fields, key)
       case Some(v) => Ok(v)
       case None => Err(KeyError))
    case _ => Err(TypeError)
  }

  /** `j.keys()` / `j.items()`: only a dict has them. */
  function Entries(j: Json): Result<seq<(string, Json)>, PyExc>
  {
    if j.JObj? then Ok(j.fields) else Err(AttributeError)
  }

  /** `for x in j`: a list yields its items, a dict its keys, a string its
      characters; null, booleans and numbers are not iterable. */
  function Elements(j: Json): (r: Result<seq<Json>, PyExc>)
    ensures r.Ok? && j.JArr? ==> r.value == j.items
    ensures r.Ok? && !j.JArr? ==> forall k :: 0 <= k < |r.value| ==> r.value[k].JStr?
    ensures r.Ok? <==> j.JArr? || j.JObj? || j.JStr?
  {
    match j
    case JArr(items) => Ok(items)
    case JObj(fields) => Ok(seq(|fields|, k requires 0 <= k < |fields| => JStr(fields[k].0)))
    case JStr(s) => Ok(seq(|s|, k requires 0 <= k < |s| => JStr([s[k]])))
    case _ => Err(TypeError)
  }

  /** `d[key] = v` on a dict whose key is present: the value changes, the order does not. */
  function SetField(fields: seq<(string, Json)>, key: string, v: Json): (r: seq<(string, Json)>)
    ensures |r| == |fields|
    ensures forall k :: 0 <= k < |r| ==> r[k].0 == fields[k].0
    ensures forall k :: 0 <= k < |r| && fields[k].0 != key ==> r[k] == fields[k]
    ensures forall k :: 0 <= k < |r| && fields[k].0 == key ==> r[k].1 == v
  {
    seq(|fields|, k requires 0 <= k < |fields| => if fields[k].0 == key then (key, v) else fields[k])
  }

  /** Python truthiness, as `if x:` and `bool(x)` see a JSON value. */
  predicate Truthy(j: Json)
  {
    match j
    case JNull => false
    case JBool(b) => b
    case JInt(i) => i != 0
    case JStr(s) => s != ""
    case JArr(items) => items != []
    case JObj(fields) => fields != []
  }

  /** True of the strings (keys and values) anywhere in `j` that hold none of `cs`. */
  predicate StringsAvoid(j: Json, cs: set<char>)
    decreases j
  {
    match j
    case JStr(s) => forall c :: c in s ==> c !in cs
    case JArr(items) => forall k :: 0 <= k < |items| ==> StringsAvoid(items[k], cs)
    case JObj(fields) =>
      forall k :: 0 <= k < |fields| ==>
        (forall c :: c in fields[k].0 ==> c !in cs) && StringsAvoid(fields[k].1, cs)
    case _ => true
  }

  // ---------------------------------------------------------------------------
  // int() and str() on integers

  predicate IsDigit(c: char) { '0' <= c <= '9' }

  predicate AllDigits(s: string) { forall k :: 0 <= k < |s| ==> IsDigit(s[k]) }

  function DigitsValue(ds: string): nat
    requires AllDigits(ds)
  {
    if ds == [] then 0 else DigitsValue(ds[..|ds| - 1]) * 10 + (ds[|ds| - 1] as int - '0' as int)
  }

  /** `int(s)` on a string: an optional sign followed by decimal digits. */
  function ParseDecimal(s: string): Option<int>
  {
    if |s| > 1 && (s[0] == '-' || s[0] == '+') && AllDigits(s[1..]) then
      var m: int := DigitsValue(s[1..]);
      Some(if s[0] == '-' then -m else m)
    else if |s| > 0 && AllDigits(s) then Some(DigitsValue(s))
    else None
  }

  /** `int(j)`: integers as they are, booleans as 0 and 1, strings parsed, the rest refused. */
  function PyInt(j: Json): Result<int, PyExc>
  {
    match j
    case JInt(i) => Ok(i)
    case JBool(b) => Ok(if b then 1 else 0)
    case JStr(s) =>
      (match ParseDecimal(s)
       case Some(n) => Ok(n)
       case None => Err(ValueError))
    case _ => Err(TypeError)
  }

  function DigitChar(d: nat): char
    requires d < 10
  {
    ('0' as int + d) as char
  }

  function NatDigits(n: nat): (ds: string)
    ensures |ds| > 0 && AllDigits(ds)
  {
    if n < 10 then [DigitChar(n)] else NatDigits(n / 10) + [DigitChar(n % 10)]
  }

  /** `str(n)` for an integer. */
  function IntToDecimal(n: int): string
  {
    if n < 0 then "-" + NatDigits(-n) else NatDigits(n)
  }

  lemma {:induction false} NatDigitsValue(n: nat)
    ensures DigitsValue(NatDigits(n)) == n
  {
    var ds := NatDigits(n);
    if n >= 10 {
      NatDigitsValue(n / 10);
      assert ds[..|ds| - 1] == NatDigits(n / 10);
    }
  }

  /** `int(str(n)) == n`: the decimal rendering of an integer parses back to it. */
  lemma DecimalRoundTrip(n: int)
    ensures ParseDecimal(IntToDecimal(n)) == Some(n)
  {
    if n < 0 {
      var ds := NatDigits(-n);
      assert IntToDecimal(n)[1..] == ds;
      NatDigitsValue(-n);
    } else {
      NatDigitsValue(n);
    }
  }

  // ---------------------------------------------------------------------------
  // Scanning the entries of a dict, as the validators' `for key in d.keys()` loops do

  /** The verdict of the first entry that fails `check`, or Pass when none does:
      the loops raise at the first bad entry and never look at the rest. */
  function Scan(fields: seq<(string, Json)>, check: (string, Json) -> Verdict): (v: Verdict)
    ensures v.Pass? <==> forall i :: 0 <= i < |fields| ==> check(fields[i].0, fields[i].1).Pass?
    ensures !v.Pass? ==>
      exists i :: 0 <= i < |fields| && v == check(fields[i].0, fields[i].1) &&
        forall j :: 0 <= j < i ==> check(fields[j].0, fields[j].1).Pass?
  {
    if fields == [] then Pass
    else
      var v0 := check(fields[0].0, fields[0].1);
      if v0.Pass? then
        var v := Scan(fields[1..], check);
        assert forall i :: 1 <= i < |fields| ==> fields[i] == fields[1..][i - 1];
        v
      else v0
  }
}
