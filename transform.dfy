/** The field reads the API transformers repeat: each output column takes
    one value out of a decoded response through a chain of subscripts and
    converts it with `int()`, `float()`, `str()`, `json.dumps`, `strptime`,
    or a try/except that substitutes a default. */
module Transform {
  import opened Results
  import opened Text
  import opened JsonValues
  import opened Timestamps
  import opened Frames

  /** How a field turns the value its subscript chain reaches into a cell. */
  datatype Conversion =
    | ToInt                        // int(v)
    | ToFloat                      // float(v)
    | ToStr                        // str(v)
    | Unquoted                     // str(v).strip('"')
    | Dumped(ensureAscii: bool)    // str(json.dumps(v)).strip('"')
    | IntOrDefault(default: Cell)  // int(v) in a try whose except appends default
    | ToDate                       // strptime with %z, then strftime("%Y-%m-%d")
    | ToTime                       // strptime with a literal Z, then strftime("%H:%M:%S")

  /** One appended value of a transformer loop: a subscript chain and its
      conversion, or the full name built from two chains. */
  datatype Field =
    | Read(path: seq<Step>, conv: Conversion)
    | FullNameField(first: seq<Step>, last: seq<Step>)

  /** The try/except of an optional integer: the subscript chain and the
      `int()` call both sit inside the `try`, so a TypeError or ValueError
      from either, like a None value, gives the default; a KeyError or an
      IndexError is not caught. */
  function CatchInt(walked: Result<Json>, default: Cell): (r: Result<Cell>)
    ensures r.Err? ==> walked == Err(r.error) && r.error != TypeError && !r.error.ValueError?
  {
    match walked
    case Err(e) => if e == TypeError || e.ValueError? then Ok(default) else Err(e)
    case Ok(JNull) => Ok(default)
    case Ok(v) =>
      match PyInt(v)
      case Ok(i) => Ok(IntCell(i))
      case Err(_) => Ok(default)
  }

  /** What a conversion appends, given the result of its subscript chain;
      outside the try/except an exception of the chain propagates. */
  function Convert(conv: Conversion, walked: Result<Json>): Result<Cell>
  {
    if conv.IntOrDefault? then CatchInt(walked, conv.default)
    else
      var v :- walked;
      match conv
      case ToInt =>
        var i :- PyInt(v);
        Ok(IntCell(i))
      case ToFloat =>
        var d :- PyFloat(v);
        Ok(DecimalCell(d))
      case ToStr =>
        var s :- PyStr(v);
        Ok(TextCell(s))
      case Unquoted =>
        var s :- PyStr(v);
        Ok(TextCell(StripChar(s, '"')))
      case Dumped(ensureAscii) =>
        var s :- DumpedText(v, ensureAscii);
        Ok(TextCell(s))
      case ToDate =>
        var dt :- StrptimeJson(v, UtcOffset);
        Ok(TextCell(DateText(dt)))
      case ToTime =>
        var dt :- StrptimeJson(v, Literal("Z"));
        Ok(TextCell(TimeText(dt)))
      case IntOrDefault(_) => assert false; Err(NotModelled)
  }

  /** The kind of cell each conversion appends: `int()` an integer, the
      defaulting read an integer or its default, `float()` a decimal, and
      every other conversion a text. */
  lemma ConvertKind(conv: Conversion, walked: Result<Json>)
    requires Convert(conv, walked).Ok?
    ensures conv == ToInt ==> Convert(conv, walked).value.IntCell?
    ensures conv == ToFloat ==> Convert(conv, walked).value.DecimalCell?
    ensures conv.IntOrDefault? ==> Convert(conv, walked).value.IntCell? || Convert(conv, walked).value == conv.default
    ensures conv in {ToStr, Unquoted, Dumped(true), Dumped(false), ToDate, ToTime} ==> Convert(conv, walked).value.TextCell?
  {
  }

  /** The first name and the last name, each dumped with `ensure_ascii`
      off and stripped of quotes, joined by one space. */
  function FullName(first: Result<Json>, last: Result<Json>): Result<string>
  {
    var fv :- first;
    var f :- DumpedText(fv, false);
    var lv :- last;
    var l :- DumpedText(lv, false);
    Ok(f + " " + l)
  }

  /** The value one field appends, or the exception it raises. */
  function ReadField(body: Json, f: Field): Result<Cell>
  {
    match f
    case Read(path, conv) => Convert(conv, Walk(body, path))
    case FullNameField(first, last) =>
      var name :- FullName(Walk(body, first), Walk(body, last));
      Ok(TextCell(name))
  }

  /** The fields of one loop iteration, read in order; the first
      exception ends the iteration. */
  function ReadRow(body: Json, fields: seq<Field>): (r: Result<seq<Cell>>)
    ensures r.Ok? <==> forall k :: 0 <= k < |fields| ==> ReadField(body, fields[k]).Ok?
    ensures r.Ok? ==> |r.value| == |fields| && forall k :: 0 <= k < |fields| ==> ReadField(body, fields[k]) == Ok(r.value[k])
    ensures r.Err? ==> exists k :: 0 <= k < |fields| && ReadField(body, fields[k]) == Err(r.error) &&
                                   forall j :: 0 <= j < k ==> ReadField(body, fields[j]).Ok?
  {
    if fields == [] then Ok([])
    else
      var c :- ReadField(body, fields[0]);
      var rest :- ReadRow(body, fields[1..]);
      Ok([c] + rest)
  }

  /** Two rows read with the same first n fields agree on their first n cells. */
  lemma SharedFieldsReadAlike(body: Json, f: seq<Field>, g: seq<Field>, n: nat)
    requires n <= |f| && n <= |g| && f[..n] == g[..n]
    requires ReadRow(body, f).Ok? && ReadRow(body, g).Ok?
    ensures ReadRow(body, f).value[..n] == ReadRow(body, g).value[..n]
  {
    var a, b := ReadRow(body, f).value, ReadRow(body, g).value;
    forall k | 0 <= k < n ensures a[k] == b[k] {
      assert f[k] == f[..n][k] == g[k];
    }
  }

  /** A field that defaults never fails on a None, a non-integer or a
      subscript of the wrong type, and reads integers as themselves. */
  lemma IntOrDefaultCatches(body: Json, path: seq<Step>, default: Cell)
    ensures Walk(body, path) == Ok(JNull) ==> ReadField(body, Read(path, IntOrDefault(default))) == Ok(default)
    ensures Walk(body, path) == Err(TypeError) ==> ReadField(body, Read(path, IntOrDefault(default))) == Ok(default)
    ensures (Walk(body, path).Ok? && Walk(body, path).value != JNull && PyInt(Walk(body, path).value).Err?)
      ==> ReadField(body, Read(path, IntOrDefault(default))) == Ok(default)
    ensures (Walk(body, path).Ok? && PyInt(Walk(body, path).value).Ok?)
      ==> ReadField(body, Read(path, IntOrDefault(default))) == Ok(IntCell(PyInt(Walk(body, path).value).value))
  {
  }

  /** A strict integer field raises TypeError on a None. */
  lemma IntFieldRejectsNull(body: Json, path: seq<Step>)
    requires Walk(body, path) == Ok(JNull)
    ensures ReadField(body, Read(path, ToInt)) == Err(TypeError)
  {
  }

  /** Both fields agree wherever the strict one succeeds, and the defaulting
      one fails only where the strict one fails with the same KeyError or
      IndexError. */
  lemma IntOrDefaultExtendsIntField(body: Json, path: seq<Step>, default: Cell)
    ensures ReadField(body, Read(path, ToInt)).Ok? ==>
      ReadField(body, Read(path, IntOrDefault(default))) == ReadField(body, Read(path, ToInt))
    ensures ReadField(body, Read(path, IntOrDefault(default))).Err? ==>
      ReadField(body, Read(path, IntOrDefault(default))) == ReadField(body, Read(path, ToInt))
  {
  }

  lemma FullNameOfTexts(first: Result<Json>, last: Result<Json>, f: string, l: string)
    requires first.Ok? && DumpedText(first.value, false) == Ok(f)
    requires last.Ok? && DumpedText(last.value, false) == Ok(l)
    ensures FullName(first, last) == Ok(f + " " + l)
  {
  }

  /** A full name of two plain names is the first, a space, and the last. */
  lemma FullNameOfStrings(f: string, l: string)
    requires forall k :: 0 <= k < |f| ==> Verbatim(f[k], false)
    requires forall k :: 0 <= k < |l| ==> Verbatim(l[k], false)
    ensures FullName(Ok(JStr(f)), Ok(JStr(l))) == Ok(f + " " + l)
  {
    assert DumpedText(JStr(f), false) == Ok(f) by { DumpedTextOfString(f, false); }
    assert DumpedText(JStr(l), false) == Ok(l) by { DumpedTextOfString(l, false); }
    FullNameOfTexts(Ok(JStr(f)), Ok(JStr(l)), f, l);
  }

  /** A missing first name reads as the text "null". */
  lemma FullNameOfNull(l: string)
    requires forall k :: 0 <= k < |l| ==> Verbatim(l[k], false)
    ensures FullName(Ok(JNull), Ok(JStr(l))) == Ok("null" + " " + l)
  {
    assert DumpedText(JNull, false) == Ok("null") by { DumpedTextOfNull(false); }
    assert DumpedText(JStr(l), false) == Ok(l) by { DumpedTextOfString(l, false); }
    FullNameOfTexts(Ok(JNull), Ok(JStr(l)), "null", l);
  }

  /** The field with prefix put in front of each of its subscript chains. */
  function Prefixed(prefix: seq<Step>, f: Field): Field
  {
    match f
    case Read(path, conv) => Read(prefix + path, conv)
    case FullNameField(first, last) => FullNameField(prefix + first, prefix + last)
  }

  function PrefixAll(prefix: seq<Step>, fields: seq<Field>): (r: seq<Field>)
    ensures |r| == |fields|
    ensures forall k :: 0 <= k < |fields| ==> r[k] == Prefixed(prefix, fields[k])
  {
    seq(|fields|, k requires 0 <= k < |fields| => Prefixed(prefix, fields[k]))
  }

  /** A field read under prefix reads the value at prefix; when the prefix
      itself cannot be subscripted, its exception propagates, except that a
      defaulting field catches a TypeError. */
  lemma ReadFieldPrefixed(body: Json, prefix: seq<Step>, f: Field)
    ensures Walk(body, prefix).Ok? ==> ReadField(body, Prefixed(prefix, f)) == ReadField(Walk(body, prefix).value, f)
    ensures Walk(body, prefix).Err? ==>
              ReadField(body, Prefixed(prefix, f)) ==
              (if f.Read? && f.conv.IntOrDefault? && Walk(body, prefix).error == TypeError
               then Ok(f.conv.default) else Err(Walk(body, prefix).error))
  {
    match f
    case Read(path, conv) =>
      WalkConcat(body, prefix, path);
    case FullNameField(first, last) =>
      WalkConcat(body, prefix, first);
      WalkConcat(body, prefix, last);
  }

  /** A row whose chains all start at prefix reads the value at prefix
      and nothing else of the body. */
  lemma {:induction false} ReadRowPrefixed(body: Json, prefix: seq<Step>, fields: seq<Field>)
    requires Walk(body, prefix).Ok?
    ensures ReadRow(body, PrefixAll(prefix, fields)) == ReadRow(Walk(body, prefix).value, fields)
    decreases |fields|
  {
    if fields != [] {
      ReadFieldPrefixed(body, prefix, fields[0]);
      assert PrefixAll(prefix, fields)[1..] == PrefixAll(prefix, fields[1..]);
      ReadRowPrefixed(body, prefix, fields[1..]);
    }
  }

  /** Two field lists that read alike, field by field, read the same row. */
  lemma {:induction false} ReadRowAgree(body: Json, fields: seq<Field>, others: seq<Field>)
    requires |fields| == |others|
    requires forall k :: 0 <= k < |fields| ==> ReadField(body, fields[k]) == ReadField(body, others[k])
    ensures ReadRow(body, fields) == ReadRow(body, others)
    decreases |fields|
  {
    if fields != [] {
      ReadRowAgree(body, fields[1..], others[1..]);
    }
  }
}
