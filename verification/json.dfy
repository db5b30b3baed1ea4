/**
  The values `json.loads` yields, with the bits of Python behaviour the core
  applies to them: truthiness, type names, dictionary lookup and `str()`.
  The parser itself is not modelled (it is a parameter of the adapters).
 */
module JsonValues {
  import opened Wrappers
  import opened Text

  /**
    A parsed JSON document. An object lists its keys in insertion order;
    `json.loads` yields each key once. A number carries the Python `repr` of
    the `int` or `float` it was parsed to.
   */
  datatype Json =
    | JNull
    | JBool(b: bool)
    | JNumber(repr: string)
    | JString(str: string)
    | JArray(items: seq<Json>)
    | JObject(fields: seq<(string, Json)>)

  /** Python's `not value`. */
  predicate Falsy(j: Json) {
    match j
    case JNull => true
    case JBool(b) => !b
    case JNumber(r) => r == "0" || r == "0.0" || r == "-0.0"
    case JString(s) => s == ""
    case JArray(xs) => xs == []
    case JObject(fs) => fs == []
  }

  /** Python's truthiness of an optional string (`if value:`): present and non-empty. */
  predicate Truthy(s: Option<string>) {
    s.Some? && s.value != ""
  }

  /** Python's `type(value).__name__`. */
  function TypeName(j: Json): string {
    match j
    case JNull => "NoneType"
    case JBool(_) => "bool"
    case JNumber(r) =>
      if '.' in r || 'e' in r || r == "inf" || r == "-inf" || r == "nan" then "float" else "int"
    case JString(_) => "str"
    case JArray(_) => "list"
    case JObject(_) => "dict"
  }

  /** The keys of an object, in order. */
  function Keys(fields: seq<(string, Json)>): (ks: seq<string>)
    ensures |ks| == |fields|
    ensures forall i :: 0 <= i < |fields| ==> ks[i] == fields[i].0
  {
    seq(|fields|, i requires 0 <= i < |fields| => fields[i].0)
  }

  /** Python's `d.get(key)`: the value stored under `key`, if any. */
  function Get(fields: seq<(string, Json)>, key: string): (r: Option<Json>)
    ensures r.None? <==> key !in Keys(fields)
    ensures r.Some? ==> exists i :: 0 <= i < |fields| && fields[i] == (key, r.value)
  {
    if |fields| == 0 then None
    else if fields[0].0 == key then Some(fields[0].1)
    else
      var r := Get(fields[1..], key);
      assert Keys(fields) == [fields[0].0] + Keys(fields[1..]);
      assert r.Some? ==> exists i :: 0 <= i < |fields[1..]| && fields[1..][i] == (key, r.value);
      r
  }

  /** `Get` finds the first pair carrying the key. */
  lemma {:induction false} GetAt(fields: seq<(string, Json)>, key: string, i: nat)
    requires i < |fields| && fields[i].0 == key
    requires forall k :: 0 <= k < i ==> fields[k].0 != key
    ensures Get(fields, key) == Some(fields[i].1)
    decreases i
  {
    if i > 0 {
      assert fields[1..][i - 1] == fields[i];
      GetAt(fields[1..], key, i - 1);
    }
  }

  /** Python's `repr()` of a string: quoted, with quote, backslash and line breaks escaped. */
  function ReprString(s: string): string {
    var quote := if '\'' in s && '"' !in s then '"' else '\'';
    [quote] + Escape(s, quote) + [quote]
  }

  function Escape(s: string, quote: char): string {
    if |s| == 0 then ""
    else
      var c := s[0];
      var e :=
        if c == '\\' then "\\\\"
        else if c == quote then ['\\', quote]
        else if c == '\n' then "\\n"
        else if c == '\r' then "\\r"
        else if c == '\t' then "\\t"
        else [c];
      e + Escape(s[1..], quote)
  }

  /** Python's `repr()` of a parsed value, as it appears inside a list or dict. */
  function Repr(j: Json): string
    decreases j
  {
    match j
    case JNull => "None"
    case JBool(b) => if b then "True" else "False"
    case JNumber(r) => r
    case JString(s) => ReprString(s)
    case JArray(xs) =>
      "[" + Join(seq(|xs|, i requires 0 <= i < |xs| => Repr(xs[i])), ", ") + "]"
    case JObject(fs) =>
      "{" + Join(seq(|fs|, i requires 0 <= i < |fs| => ReprString(fs[i].0) + ": " + Repr(fs[i].1)), ", ") + "}"
  }

  /** Python's `str()` of a parsed value: a string is itself, anything else its `repr`. */
  function Show(j: Json): string {
    if j.JString? then j.str else Repr(j)
  }
}
