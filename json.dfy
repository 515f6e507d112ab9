/** Decoded JSON responses and the Python operations the transformers apply
    to them: subscripting, `len`, iteration, `int()`, `float()`, `str()` and
    `json.dumps`. */
module JsonValues {
  import opened Results
  import opened Text

  /** A value as `response.json()` returns it. An object keeps its members
      in document order. Non-integer JSON numbers are not part of this model. */
  datatype Json =
    | JNull
    | JBool(b: bool)
    | JInt(i: int)
    | JStr(s: string)
    | JArr(items: seq<Json>)
    | JObj(members: seq<(string, Json)>)

  /** The value an object holds under key: the last member with that key,
      as `json.loads` keeps the last of duplicated keys. */
  function Lookup(members: seq<(string, Json)>, key: string): (r: Option<Json>)
    ensures r.Some? <==> exists k :: 0 <= k < |members| && members[k].0 == key
    ensures r.Some? ==> exists k :: 0 <= k < |members| && members[k] == (key, r.value)
  {
    if members == [] then None
    else if members[|members| - 1].0 == key then Some(members[|members| - 1].1)
    else
      var r := Lookup(members[..|members| - 1], key);
      assert forall k :: 0 <= k < |members| - 1 ==> members[..|members| - 1][k] == members[k];
      r
  }

  /** The position Python's `x[i]` reads in a sequence of length n: a
      negative i counts from the end; None is an IndexError. */
  function PyIndex(n: nat, i: int): (r: Option<nat>)
    ensures r.Some? <==> -(n as int) <= i < n
    ensures r.Some? ==> r.value < n && (r.value == i || r.value == n + i)
  {
    if 0 <= i < n then Some(i) else if -(n as int) <= i < 0 then Some(n + i) else None
  }

  /** Python's `v[key]` with a string key. */
  function Get(v: Json, key: string): Result<Json>
  {
    match v
    case JObj(ms) => (match Lookup(ms, key) case Some(x) => Ok(x) case None => Err(KeyError))
    case _ => Err(TypeError)
  }

  /** Python's `v[i]` with an integer index; on a string it yields a
      one-character string, and a dict decoded from JSON has no integer keys. */
  function At(v: Json, i: int): Result<Json>
  {
    match v
    case JArr(items) => (match PyIndex(|items|, i) case Some(k) => Ok(items[k]) case None => Err(IndexError))
    case JStr(s) => (match PyIndex(|s|, i) case Some(k) => Ok(JStr([s[k]])) case None => Err(IndexError))
    case JObj(_) => Err(KeyError)
    case _ => Err(TypeError)
  }

  /** One subscript of a chain such as `json_res["response"][0]["team"]`. */
  datatype Step = Key(name: string) | Index(i: int)

  /** Applies a chain of subscripts left to right; the first failing one raises. */
  function Walk(v: Json, path: seq<Step>): (r: Result<Json>)
    ensures r.Err? ==> r.error == KeyError || r.error == IndexError || r.error == TypeError
    decreases |path|
  {
    if path == [] then Ok(v)
    else
      var next :- match path[0] case Key(k) => Get(v, k) case Index(i) => At(v, i);
      Walk(next, path[1..])
  }

  lemma {:induction false} WalkConcat(v: Json, p: seq<Step>, q: seq<Step>)
    ensures Walk(v, p + q) == (match Walk(v, p) case Ok(w) => Walk(w, q) case Err(e) => Err(e))
    decreases |p|
  {
    if p == [] {
      assert p + q == q;
    } else {
      assert (p + q)[0] == p[0] && (p + q)[1..] == p[1..] + q;
      var next := match p[0] case Key(k) => Get(v, k) case Index(i) => At(v, i);
      if next.Ok? { WalkConcat(next.value, p[1..], q); }
    }
  }

  /** Python's `len(v)`. */
  function Len(v: Json): Result<nat>
  {
    match v
    case JArr(items) => Ok(|items|)
    case JStr(s) => Ok(|s|)
    case JObj(ms) => Ok(|ms|)
    case _ => Err(TypeError)
  }

  /** What `for x in v` visits: the items of an array, the one-character
      strings of a string, the keys of an object. */
  function Elements(v: Json): Result<seq<Json>>
  {
    match v
    case JArr(items) => Ok(items)
    case JStr(s) => Ok(seq(|s|, k requires 0 <= k < |s| => JStr([s[k]])))
    case JObj(ms) => Ok(seq(|ms|, k requires 0 <= k < |ms| => JStr(ms[k].0)))
    case _ => Err(TypeError)
  }

  /** Python's `int(v)`: None and containers raise TypeError, a string must
      spell an integer (ValueError otherwise), a bool is 0 or 1. */
  function PyInt(v: Json): (r: Result<int>)
    ensures r.Err? ==> r.error == TypeError || r.error == ValueError(InvalidIntLiteral)
  {
    match v
    case JNull => Err(TypeError)
    case JBool(b) => Ok(if b then 1 else 0)
    case JInt(i) => Ok(i)
    case JStr(s) => ParseInt(s)
    case _ => Err(TypeError)
  }

  /** Python's `float(v)`, kept as the exact decimal it reads. */
  function PyFloat(v: Json): Result<Decimal>
  {
    match v
    case JNull => Err(TypeError)
    case JBool(b) => Ok(Decimal(if b then 1 else 0, 0))
    case JInt(i) => Ok(Decimal(i, 0))
    case JStr(s) => ParseFloat(s)
    case _ => Err(TypeError)
  }

  /** Python's `str(v)` for scalars; the repr of a list or dict is not modelled. */
  function PyStr(v: Json): Result<string>
  {
    match v
    case JNull => Ok("None")
    case JBool(b) => Ok(if b then "True" else "False")
    case JInt(i) => Ok(IntToString(i))
    case JStr(s) => Ok(s)
    case _ => Err(NotModelled)
  }

  /** A character `json.dumps` writes as itself inside a string literal:
      printable ASCII other than '"' and '\', plus every non-ASCII character
      when `ensure_ascii` is off. */
  predicate Verbatim(c: char, ensureAscii: bool)
  {
    c != '"' && c != '\\' && c as int >= 0x20 && (!ensureAscii || c as int < 0x7f)
  }

  /** Python's `json.dumps(v)` for scalars. Strings that need an escape
      sequence, and containers, are not modelled. */
  function Dumps(v: Json, ensureAscii: bool): Result<string>
  {
    match v
    case JNull => Ok("null")
    case JBool(b) => Ok(if b then "true" else "false")
    case JInt(i) => Ok(IntToString(i))
    case JStr(s) =>
      if forall k :: 0 <= k < |s| ==> Verbatim(s[k], ensureAscii) then Ok("\"" + s + "\"")
      else Err(NotModelled)
    case _ => Err(NotModelled)
  }

  /** The transformers' `str(json.dumps(v)).strip('"')`. */
  function DumpedText(v: Json, ensureAscii: bool): Result<string>
  {
    var d :- Dumps(v, ensureAscii);
    Ok(StripChar(d, '"'))
  }

  /** Encoding a plain string and stripping the quotes gives the string back. */
  lemma DumpedTextOfString(s: string, ensureAscii: bool)
    requires forall k :: 0 <= k < |s| ==> Verbatim(s[k], ensureAscii)
    ensures DumpedText(JStr(s), ensureAscii) == Ok(s)
  {
    StripCharUnquotes(s);
  }

  /** A null becomes the text "null". */
  lemma DumpedTextOfNull(ensureAscii: bool)
    ensures DumpedText(JNull, ensureAscii) == Ok("null")
  {
    assert "null"[3] != '"';
  }

  /** An integer becomes its decimal digits. */
  lemma DumpedTextOfInt(i: int, ensureAscii: bool)
    ensures DumpedText(JInt(i), ensureAscii) == Ok(IntToString(i))
  {
    var t := IntToString(i);
    if i < 0 {
      assert t[|t| - 1] == t[1..][|t| - 2];
    }
    assert t[|t| - 1] != '"';
  }

  /** `int()` recovers an integer from its JSON form and from its decimal text. */
  lemma PyIntOfIntegers(i: int)
    ensures PyInt(JInt(i)) == Ok(i)
    ensures PyInt(JStr(IntToString(i))) == Ok(i)
  {
    ParseIntRoundTrip(i);
  }
}
