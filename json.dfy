/** JSON values as the client builds and reads them, Python's `json.dumps`
    with its default settings (separators ", " and ": ", `ensure_ascii`), and
    key lookup on a parsed reply. */
module Json {
  import opened Wrappers
  import opened Errors

  /** A JSON value. Objects keep their members in insertion order, as a
      Python dict does; floating-point numbers are not modelled. */
  datatype Value =
    | Null
    | Bool(b: bool)
    | Int(n: int)
    | Str(s: string)
    | Arr(items: seq<Value>)
    | Obj(fields: seq<Member>)

  datatype Member = Member(key: string, value: Value)

  /** The lower-case hexadecimal digit for `d`. */
  function HexDigit(d: nat): (c: char)
    requires d < 16
    ensures '0' <= c <= '9' || 'a' <= c <= 'f'
  {
    if d < 10 then (48 + d) as char else (87 + d) as char
  }

  /** The four lower-case hexadecimal digits of `n`, most significant first. */
  function Hex4(n: nat): (r: string)
    requires n < 0x1_0000
    ensures |r| == 4
    ensures forall i :: 0 <= i < 4 ==> '0' <= r[i] <= '9' || 'a' <= r[i] <= 'f'
  {
    [HexDigit(n / 0x1000), HexDigit(n / 0x100 % 16), HexDigit(n / 0x10 % 16), HexDigit(n % 16)]
  }

  /** The decimal digits of `n`, without leading zeros. */
  function DecimalDigits(n: nat): (r: string)
    ensures |r| > 0
    ensures forall i :: 0 <= i < |r| ==> '0' <= r[i] <= '9'
  {
    if n < 10 then [(48 + n) as char] else DecimalDigits(n / 10) + [(48 + n % 10) as char]
  }

  /** Python's `repr` of an int. */
  function IntToString(n: int): (r: string)
    ensures '\n' !in r
    ensures |r| > 0 && (n < 0 <==> r[0] == '-')
  {
    if n < 0 then "-" + DecimalDigits(-n) else DecimalDigits(n)
  }

  /** The JSON spelling of one character under `ensure_ascii`: a backslash,
      a double quote and the five named controls get two-character escapes,
      anything outside the printable ASCII range ' '..'~' a `\uXXXX` escape
      (a UTF-16 surrogate pair beyond the Basic Multilingual Plane). */
  function EscapeChar(c: char): (r: string)
    ensures |r| > 0
    ensures '\n' !in r
    ensures ' ' <= c <= '~' && c != '"' && c != '\\' ==> r == [c]
  {
    if c == '"' then "\\\""
    else if c == '\\' then "\\\\"
    else if c == '\n' then "\\n"
    else if c == '\r' then "\\r"
    else if c == '\t' then "\\t"
    else if c as int == 0x08 then "\\b"
    else if c as int == 0x0C then "\\f"
    else if ' ' <= c <= '~' then [c]
    else if (c as int) < 0x1_0000 then "\\u" + Hex4(c as int)
    else
      var m := c as int - 0x1_0000;
      "\\u" + Hex4(0xD800 + m / 0x400) + "\\u" + Hex4(0xDC00 + m % 0x400)
  }

  /** The escaped body of a JSON string literal. */
  function EscapeString(s: string): (r: string)
    ensures '\n' !in r
    ensures |r| >= |s|
  {
    if s == [] then [] else EscapeChar(s[0]) + EscapeString(s[1..])
  }

  /** Printable ASCII without quotes or backslashes is emitted verbatim. */
  predicate Plain(s: string)
  {
    forall i :: 0 <= i < |s| ==> ' ' <= s[i] <= '~' && s[i] != '"' && s[i] != '\\'
  }

  lemma {:induction false} EscapePlain(s: string)
    requires Plain(s)
    ensures EscapeString(s) == s
  {
    if s != [] {
      EscapePlain(s[1..]);
      assert [s[0]] + s[1..] == s;
    }
  }

  /** A JSON string literal for `s`. */
  function Quote(s: string): (r: string)
    ensures '\n' !in r
    ensures |r| >= 2 && r[0] == '"' && r[|r| - 1] == '"'
  {
    "\"" + EscapeString(s) + "\""
  }

  /** Python's `json.dumps(v)` with default arguments. Its output is one
      line: every newline inside a string is escaped. */
  function Dumps(v: Value): (r: string)
    ensures '\n' !in r
    ensures |r| > 0
    decreases v
  {
    match v
    case Null => "null"
    case Bool(b) => if b then "true" else "false"
    case Int(n) => IntToString(n)
    case Str(s) => Quote(s)
    case Arr(items) => "[" + DumpsItems(items) + "]"
    case Obj(fields) => "{" + DumpsMembers(fields) + "}"
  }

  /** The elements of an array, separated by ", ". */
  function DumpsItems(items: seq<Value>): (r: string)
    ensures '\n' !in r
    decreases items
  {
    if |items| == 0 then ""
    else if |items| == 1 then Dumps(items[0])
    else Dumps(items[0]) + ", " + DumpsItems(items[1..])
  }

  /** The members of an object as `key: value`, separated by ", ". */
  function DumpsMembers(fields: seq<Member>): (r: string)
    ensures '\n' !in r
    decreases fields
  {
    if |fields| == 0 then ""
    else
      var m := Quote(fields[0].key) + ": " + Dumps(fields[0].value);
      if |fields| == 1 then m else m + ", " + DumpsMembers(fields[1..])
  }

  /** The value of the last member named `key`, as a Python dict built by
      `json.loads` keeps the last of duplicated keys. */
  function Find(fields: seq<Member>, key: string): (r: Option<Value>)
    ensures r.Some? <==> exists i :: 0 <= i < |fields| && fields[i].key == key
    ensures r.Some? ==> Member(key, r.value) in fields
  {
    if |fields| == 0 then None
    else if fields[|fields| - 1].key == key then Some(fields[|fields| - 1].value)
    else Find(fields[..|fields| - 1], key)
  }

  /** Of duplicated keys, the last member wins. */
  lemma {:induction false} FindLast(fields: seq<Member>, key: string, i: nat)
    requires i < |fields| && fields[i].key == key
    requires forall j :: i < j < |fields| ==> fields[j].key != key
    ensures Find(fields, key) == Some(fields[i].value)
  {
    if i < |fields| - 1 {
      FindLast(fields[..|fields| - 1], key, i);
    }
  }

  /** `v[key]` on a parsed JSON value: a `TypeError` unless `v` is an
      object, a `KeyError` when the object has no such member. */
  function Get(v: Value, key: string): (r: Result<Value, Error>)
    ensures !v.Obj? ==> r == Failure(TypeError)
    ensures v.Obj? ==> (r.Success? <==> exists i :: 0 <= i < |v.fields| && v.fields[i].key == key)
    ensures v.Obj? && r.Failure? ==> r == Failure(KeyError(key))
    ensures r.Success? ==> Member(key, r.value) in v.fields
  {
    if !v.Obj? then Failure(TypeError)
    else match Find(v.fields, key)
      case None => Failure(KeyError(key))
      case Some(x) => Success(x)
  }

  /** `v[outer][inner]`, the lookup the bulk reply needs for each item. */
  function Get2(v: Value, outer: string, inner: string): (r: Result<Value, Error>)
    ensures r.Success? <==> Get(v, outer).Success? && Get(Get(v, outer).value, inner).Success?
    ensures r.Success? ==>
      Member(outer, Get(v, outer).value) in v.fields && Member(inner, r.value) in Get(v, outer).value.fields
    ensures r.Failure? ==> r.error in {TypeError, KeyError(outer), KeyError(inner)}
  {
    match Get(v, outer)
    case Failure(e) => Failure(e)
    case Success(x) => Get(x, inner)
  }
}
