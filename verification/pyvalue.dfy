/** Values produced by `json.loads` and `yaml.safe_load`, with the Python
    operations the core applies to them: truthiness, `in`, `len`, `.get`,
    subscripting, iteration and rendering with `str`/`repr`.
    Each operation that can raise returns the exception Python raises. */
module PyValue {
  import opened Wrappers
  import opened Errors
  import Dict

  /** A Python float: a finite value (`Finite(0.0)` is +0.0), negative zero,
      an infinity, or NaN. `json.loads` reads the last three from `-0.0`,
      `Infinity` / `-Infinity` (and from a literal too large, such as 1e400)
      and `NaN`. A finite value is carried as its real value; IEEE-754
      rounding is not modelled. */
  datatype Float = Finite(r: real) | NegativeZero | Infinite(negative: bool) | NaN

  /** A parsed document. Objects keep their fields in document order, read as
      a dict built by inserting them one after another. */
  datatype Json =
    | JNull
    | JBool(b: bool)
    | JInt(i: int)
    | JFloat(f: Float)
    | JString(s: string)
    | JArray(items: seq<Json>)
    | JObject(fields: seq<(string, Json)>)

  /** Python's `type(x).__name__`. */
  function TypeName(j: Json): string {
    match j
    case JNull => "NoneType"
    case JBool(_) => "bool"
    case JInt(_) => "int"
    case JFloat(_) => "float"
    case JString(_) => "str"
    case JArray(_) => "list"
    case JObject(_) => "dict"
  }

  /** Python's `bool(x)`: None, False, zero and empty containers are falsy. */
  predicate Truthy(j: Json) {
    match j
    case JNull => false
    case JBool(b) => b
    case JInt(i) => i != 0
    case JFloat(f) => f != Finite(0.0) && f != NegativeZero
    case JString(s) => |s| > 0
    case JArray(xs) => |xs| > 0
    case JObject(fs) => Dict.Len(fs) > 0
  }

  /** `needle` occurs as a contiguous block of `hay` (Python `needle in hay` on str). */
  predicate Occurs(needle: string, hay: string)
    decreases |hay|
  {
    |needle| <= |hay| && (hay[..|needle|] == needle || Occurs(needle, hay[1..]))
  }

  /** The exceptions the operations below raise on a value of the wrong type or
      a missing key. */
  predicate LookupFailure(k: Kind) {
    k == TypeError || k == KeyError || k == AttributeError
  }

  /** Python's `key in container` for a str key. */
  function In(key: string, container: Json): (r: Result<bool, PyError>)
    ensures container.JObject? ==> r == Ok(Dict.HasKey(container.fields, key))
    ensures r.Err? <==> !(container.JObject? || container.JArray? || container.JString?)
    ensures r.Err? ==> r.error.kind == TypeError
  {
    match container
    case JObject(fs) => Ok(Dict.HasKey(fs, key))
    case JArray(xs) => Ok(JString(key) in xs)
    case JString(s) => Ok(Occurs(key, s))
    case _ => Err(PyError(TypeError, "argument of type '" + TypeName(container) + "' is not iterable"))
  }

  /** Python's `len(x)`. */
  function Len(j: Json): (r: Result<nat, PyError>)
    ensures r.Ok? <==> (j.JObject? || j.JArray? || j.JString?)
    ensures j.JArray? ==> r == Ok(|j.items|)
    ensures r.Err? ==> r.error.kind == TypeError
  {
    match j
    case JObject(fs) => Ok(Dict.Len(fs))
    case JArray(xs) => Ok(|xs|)
    case JString(s) => Ok(|s|)
    case _ => Err(PyError(TypeError, "object of type '" + TypeName(j) + "' has no len()"))
  }

  /** Python's `x.get(key, default)`: only dicts have it. */
  function GetOr(j: Json, key: string, default: Json): (r: Result<Json, PyError>)
    ensures r.Ok? <==> j.JObject?
    ensures j.JObject? && !Dict.HasKey(j.fields, key) ==> r == Ok(default)
    ensures r.Err? ==> r.error.kind == AttributeError
  {
    match j
    case JObject(fs) =>
      (match Dict.Get(fs, key)
       case Some(v) => Ok(v)
       case None => Ok(default))
    case _ => Err(PyError(AttributeError, "'" + TypeName(j) + "' object has no attribute 'get'"))
  }

  /** Python's `x[key]` for a str key. */
  function Subscript(j: Json, key: string): (r: Result<Json, PyError>)
    ensures r.Ok? <==> j.JObject? && Dict.HasKey(j.fields, key)
    ensures r.Ok? ==> Dict.Get(j.fields, key) == Some(r.value)
    ensures j.JObject? && r.Err? ==> r.error.kind == KeyError
    ensures r.Err? ==> LookupFailure(r.error.kind)
  {
    match j
    case JObject(fs) =>
      (match Dict.Get(fs, key)
       case Some(v) => Ok(v)
       case None => Err(PyError(KeyError, Repr(key))))
    case JArray(_) => Err(PyError(TypeError, "list indices must be integers or slices, not str"))
    case JString(_) => Err(PyError(TypeError, "string indices must be integers, not 'str'"))
    case _ => Err(PyError(TypeError, "'" + TypeName(j) + "' object is not subscriptable"))
  }

  /** The texts of `x[key]`'s failures: a missing key is shown by its repr,
      and a str cannot be indexed by a str. */
  lemma SubscriptErrors(j: Json, key: string)
    ensures j.JObject? && !Dict.HasKey(j.fields, key) ==> Subscript(j, key) == Err(PyError(KeyError, Repr(key)))
    ensures j.JString? ==> Subscript(j, key) == Err(PyError(TypeError, "string indices must be integers, not 'str'"))
  {
  }

  /** Python's `x[0]`. */
  function First(j: Json): (r: Result<Json, PyError>)
    ensures j.JArray? && |j.items| > 0 ==> r == Ok(j.items[0])
    ensures r.Ok? <==> ((j.JArray? && |j.items| > 0) || (j.JString? && |j.s| > 0))
  {
    match j
    case JArray(xs) =>
      if |xs| > 0 then Ok(xs[0]) else Err(PyError(IndexError, "list index out of range"))
    case JString(s) =>
      if |s| > 0 then Ok(JString([s[0]])) else Err(PyError(IndexError, "string index out of range"))
    case JObject(_) => Err(PyError(KeyError, "0"))
    case _ => Err(PyError(TypeError, "'" + TypeName(j) + "' object is not subscriptable"))
  }

  /** Python's `for x in j`: list items, dict keys, or the characters of a str. */
  function Iterate(j: Json): (r: Result<seq<Json>, PyError>)
    ensures j.JArray? ==> r == Ok(j.items)
    ensures r.Ok? <==> (j.JObject? || j.JArray? || j.JString?)
    ensures r.Err? ==> r.error.kind == TypeError
  {
    match j
    case JArray(xs) => Ok(xs)
    case JObject(fs) =>
      var ks := Dict.Keys(fs);
      Ok(seq(|ks|, i requires 0 <= i < |ks| => JString(ks[i])))
    case JString(s) => Ok(seq(|s|, i requires 0 <= i < |s| => JString([s[i]])))
    case _ => Err(PyError(TypeError, "'" + TypeName(j) + "' object is not iterable"))
  }

  // ---------------------------------------------------------------------------
  // `repr` of a str

  /** The hexadecimal digit of d, in lower case as `repr` writes it. */
  function HexDigit(d: nat): (c: char)
    requires d < 16
    ensures HexValue(c) == Some(d)
  {
    if d < 10 then ('0' as int + d) as char else ('a' as int + d - 10) as char
  }

  /** The value of a lower-case hexadecimal digit. */
  function HexValue(c: char): Option<nat> {
    if '0' <= c <= '9' then Some(c as int - '0' as int)
    else if 'a' <= c <= 'f' then Some(c as int - 'a' as int + 10)
    else None
  }

  /** The characters up to U+00FF that `repr` writes as `\xNN`: the C0
      controls other than tab, newline and carriage return, DEL, the C1
      controls, no-break space and soft hyphen. */
  predicate HexEscaped(c: char) {
    c != '\t' && c != '\n' && c != '\r'
    && (c < ' ' || (0x7f <= c as int <= 0xa0) || c as int == 0xad)
  }

  /** A character `repr` copies as it is, whichever quote it chose. */
  predicate Plain(c: char) {
    c != '\'' && c != '"' && c != '\\' && c != '\t' && c != '\n' && c != '\r' && !HexEscaped(c)
  }

  /** The quote `repr` delimits s with: a double quote when s holds a single
      quote and no double quote, otherwise a single quote. */
  function QuoteFor(s: string): char {
    if '\'' in s && '"' !in s then '"' else '\''
  }

  /** How `repr` writes one character inside quotes q. */
  function EscapeChar(c: char, q: char): (e: string)
    ensures |e| > 0
  {
    if c == q || c == '\\' then ['\\', c]
    else if c == '\t' then "\\t"
    else if c == '\n' then "\\n"
    else if c == '\r' then "\\r"
    else if HexEscaped(c) then ['\\', 'x', HexDigit(c as int / 16), HexDigit(c as int % 16)]
    else [c]
  }

  /** Every character of s written as `repr` writes it inside quotes q. */
  function EscapeAll(s: string, q: char): (e: string)
    ensures |e| >= |s|
  {
    if |s| == 0 then "" else EscapeChar(s[0], q) + EscapeAll(s[1..], q)
  }

  /** Python's `repr` of a str: quoted with `QuoteFor(s)`, the chosen quote and
      backslashes escaped, tab, newline and carriage return as `\t`, `\n`,
      `\r`, and the other non-printable characters up to U+00FF as `\xNN`. */
  function Repr(s: string): (r: string)
    ensures |r| >= 2 && r[0] == QuoteFor(s) && r[|r| - 1] == QuoteFor(s)
  {
    var q := QuoteFor(s);
    [q] + EscapeAll(s, q) + [q]
  }

  /** A str of plain characters is shown between single quotes as it is. */
  lemma ReprPlain(s: string)
    requires forall i :: 0 <= i < |s| ==> Plain(s[i])
    ensures Repr(s) == "'" + s + "'"
  {
    PlainUnescaped(s, '\'');
  }

  /** c prepended to a decoded string, if decoding succeeded. */
  function Prepend(c: char, o: Option<string>): (r: Option<string>)
    ensures r.Some? <==> o.Some?
  {
    if o.Some? then Some([c] + o.value) else None
  }

  /** Reading back the body of a str literal that uses the escapes `repr`
      writes; None on a malformed escape. */
  function Unescape(e: string): Option<string>
    decreases |e|
  {
    if |e| == 0 then Some("")
    else if e[0] != '\\' then Prepend(e[0], Unescape(e[1..]))
    else if |e| < 2 then None
    else if e[1] == '\\' || e[1] == '\'' || e[1] == '"' then Prepend(e[1], Unescape(e[2..]))
    else if e[1] == 't' then Prepend('\t', Unescape(e[2..]))
    else if e[1] == 'n' then Prepend('\n', Unescape(e[2..]))
    else if e[1] == 'r' then Prepend('\r', Unescape(e[2..]))
    else if e[1] == 'x' && |e| >= 4 && HexValue(e[2]).Some? && HexValue(e[3]).Some? then
      Prepend((HexValue(e[2]).value * 16 + HexValue(e[3]).value) as char, Unescape(e[4..]))
    else None
  }

  /** Reading back a quoted str literal. */
  function Unrepr(r: string): Option<string> {
    if |r| >= 2 && (r[0] == '\'' || r[0] == '"') && r[|r| - 1] == r[0] then Unescape(r[1..|r| - 1])
    else None
  }

  /** A string of plain characters is written as it is. */
  lemma {:induction false} PlainUnescaped(s: string, q: char)
    requires q == '\'' || q == '"'
    requires forall i :: 0 <= i < |s| ==> Plain(s[i])
    ensures EscapeAll(s, q) == s
  {
    if |s| > 0 {
      PlainUnescaped(s[1..], q);
    }
  }

  /** Decoding a written character followed by anything decodes the rest
      after that character. */
  lemma UnescapeStep(c: char, q: char, rest: string)
    requires q == '\'' || q == '"'
    ensures Unescape(EscapeChar(c, q) + rest) == Prepend(c, Unescape(rest))
  {
    var e := EscapeChar(c, q) + rest;
    if |EscapeChar(c, q)| == 1 {
      assert e[1..] == rest;
    } else if |EscapeChar(c, q)| == 2 {
      assert e[2..] == rest;
    } else {
      assert e[4..] == rest;
      var n := c as int;
      assert HexValue(e[2]).value * 16 + HexValue(e[3]).value == n;
    }
  }

  /** Decoding undoes the escaping. */
  lemma {:induction false} EscapeRoundTrip(s: string, q: char)
    requires q == '\'' || q == '"'
    ensures Unescape(EscapeAll(s, q)) == Some(s)
  {
    if |s| > 0 {
      EscapeRoundTrip(s[1..], q);
      UnescapeStep(s[0], q, EscapeAll(s[1..], q));
      assert [s[0]] + s[1..] == s;
    }
  }

  /** `repr` loses nothing: the str reads back from its repr, so different
      strs have different reprs. */
  lemma ReprRoundTrip(s: string)
    ensures Unrepr(Repr(s)) == Some(s)
  {
    var q := QuoteFor(s);
    var r := Repr(s);
    assert r == [q] + EscapeAll(s, q) + [q];
    assert r[1..|r| - 1] == EscapeAll(s, q);
    EscapeRoundTrip(s, q);
  }

  /** A str with a single quote and no double quote is delimited with double
      quotes, and the single quote is kept as it is. */
  lemma ReprSingleQuote()
    ensures Repr("it's") == "\"it's\""
  {
    var q := QuoteFor("it's");
    assert q == '"' by { assert "it's"[2] == '\''; }
    assert EscapeAll("s", q) == "s";
    assert EscapeAll("'s", q) == "'s";
    assert EscapeAll("t's", q) == "t's";
    assert EscapeAll("it's", q) == "it's";
  }

  /** With both quotes present the single quote delimits and is escaped. */
  lemma ReprBothQuotes()
    ensures Repr("\"'") == "'\"\\''"
  {
    var q := QuoteFor("\"'");
    assert q == '\'' by { assert "\"'"[0] == '"'; }
    assert EscapeAll("'", q) == "\\'";
    assert EscapeAll("\"'", q) == "\"\\'";
  }

  /** A backslash and a newline are written as escapes. */
  lemma ReprEscapes()
    ensures Repr("a\\b") == "'a\\\\b'"
    ensures Repr("\n") == "'\\n'"
  {
    assert QuoteFor("a\\b") == '\'';
    assert EscapeAll("b", '\'') == "b";
    assert EscapeAll("\\b", '\'') == "\\\\b";
    assert EscapeAll("a\\b", '\'') == "a\\\\b";
    assert QuoteFor("\n") == '\'';
    assert EscapeAll("\n", '\'') == "\\n";
  }

  /** Python's `repr(x)` for scalars; a str is quoted. */
  function ReprOf(j: Json): string {
    if j.JString? then Repr(j.s) else Str(j)
  }

  /** The decimal digits of a natural number. */
  function NatToString(n: nat): (s: string)
    ensures |s| > 0
    ensures forall i :: 0 <= i < |s| ==> '0' <= s[i] <= '9'
    decreases n
  {
    var d := [(n % 10) as char + '0' as char];
    if n < 10 then d else NatToString(n / 10) + d
  }

  /** Python's `str` of an int. */
  function IntToString(i: int): string {
    if i < 0 then "-" + NatToString(-i) else NatToString(i)
  }

  /** Python's `str(x)` for scalars; floats and containers are rendered by type name only. */
  function Str(j: Json): string {
    match j
    case JNull => "None"
    case JBool(b) => if b then "True" else "False"
    case JInt(i) => IntToString(i)
    case JString(s) => s
    case _ => "<" + TypeName(j) + ">"
  }
}
