/**
  The slice of Python's runtime that the request handler leans on: decoded
  JSON values, the exceptions raised by `dict.get`, `str.lower`, `str.strip`
  and subscripting when a value has the wrong shape, and the text `str(e)`
  gives for each of them (CPython 3.12 wording).
 */
module PyValues {

  /** A value produced by decoding a JSON document. */
  datatype Json =
    | JNull
    | JBool(b: bool)
    | JNum(n: int)
    | JFloat(literal: string)   // a number with a fraction or exponent; only its type matters here
    | JStr(s: string)
    | JArr(items: seq<Json>)
    | JObj(fields: map<string, Json>)

  /** A subscript: `v["name"]` or `v[0]`. */
  datatype Key = Name(name: string) | Index(i: nat)

  /** The exceptions that the handler's expressions can raise. */
  datatype PyError =
    | AttributeError(typeName: string, attr: string)
    | KeyError(key: Key)
    | IndexError(typeName: string)
    | TypeError(message: string)
    | Raised(detail: string)    // raised inside a library whose text is not modelled

  datatype Option<+T> = None | Some(value: T)

  /** The outcome of evaluating an expression that may raise. */
  datatype Result<+T> = Ok(value: T) | Err(error: PyError) {
    predicate IsFailure() { Err? }
    function PropagateFailure<U>(): Result<U> requires Err? { Err(error) }
    function Extract(): T requires Ok? { value }
  }

  /** `type(v).__name__` for a decoded JSON value. */
  function TypeName(v: Json): string
  {
    match v
    case JNull => "NoneType"
    case JBool(_) => "bool"
    case JNum(_) => "int"
    case JFloat(_) => "float"
    case JStr(_) => "str"
    case JArr(_) => "list"
    case JObj(_) => "dict"
  }

  /** `repr(k)` for the keys the handler uses (plain names without quotes). */
  function KeyRepr(k: Key): string
  {
    match k
    case Name(n) => "'" + n + "'"
    case Index(i) => NatToString(i)
  }

  function DigitChar(d: nat): char
    requires d < 10
  {
    "0123456789"[d]
  }

  function NatToString(n: nat): (r: string)
    ensures |r| > 0
  {
    if n < 10 then [DigitChar(n)] else NatToString(n / 10) + [DigitChar(n % 10)]
  }

  /** `str(e)` */
  function Message(e: PyError): string
  {
    match e
    case AttributeError(t, a) => "'" + t + "' object has no attribute '" + a + "'"
    case KeyError(k) => KeyRepr(k)
    case IndexError(t) => (if t == "str" then "string" else t) + " index out of range"
    case TypeError(m) => m
    case Raised(d) => d
  }

  /** `v.get(name, default)` */
  function Get(v: Json, name: string, default: Json): (r: Result<Json>)
    ensures r.Err? <==> !v.JObj?
    ensures r.Err? ==> r.error == AttributeError(TypeName(v), "get")
    ensures r.Ok? && name in v.fields ==> r.value == v.fields[name]
    ensures r.Ok? && name !in v.fields ==> r.value == default
  {
    match v
    case JObj(m) => Ok(if name in m then m[name] else default)
    case _ => Err(AttributeError(TypeName(v), "get"))
  }

  /** The exception `v[k]` raises when `v` has no element at `k`. */
  function SubscriptError(v: Json, k: Key): PyError
  {
    match v
    case JObj(_) => KeyError(k)
    case JArr(_) =>
      if k.Name? then TypeError("list indices must be integers or slices, not str") else IndexError("list")
    case JStr(_) =>
      if k.Name? then TypeError("string indices must be integers, not 'str'") else IndexError("str")
    case _ => TypeError("'" + TypeName(v) + "' object is not subscriptable")
  }

  /** `v[k]` */
  function Subscript(v: Json, k: Key): (r: Result<Json>)
    ensures r.Ok? ==>
              || (v.JObj? && k.Name? && k.name in v.fields && r.value == v.fields[k.name])
              || (v.JArr? && k.Index? && k.i < |v.items| && r.value == v.items[k.i])
              || (v.JStr? && k.Index? && k.i < |v.s| && r.value == JStr([v.s[k.i]]))
    ensures v.JObj? && k.Name? && k.name in v.fields ==> r.Ok?
    ensures v.JArr? && k.Index? && k.i < |v.items| ==> r.Ok?
    ensures v.JStr? && k.Index? && k.i < |v.s| ==> r.Ok?
    ensures r.Err? ==> r.error == SubscriptError(v, k)
  {
    if v.JObj? && k.Name? && k.name in v.fields then Ok(v.fields[k.name])
    else if v.JArr? && k.Index? && k.i < |v.items| then Ok(v.items[k.i])
    else if v.JStr? && k.Index? && k.i < |v.s| then Ok(JStr([v.s[k.i]]))
    else Err(SubscriptError(v, k))
  }

  // ---------------------------------------------------------------------
  // str.lower and str.strip

  /** Lower-cases ASCII letters; every other character is kept. */
  function LowerChar(c: char): char
  {
    if 'A' <= c <= 'Z' then (c as int + 32) as char else c
  }

  function LowerString(s: string): (r: string)
    ensures |r| == |s|
  {
    if s == [] then [] else [LowerChar(s[0])] + LowerString(s[1..])
  }

  /** `LowerString` lower-cases character by character. */
  lemma {:induction false} LowerStringMapsLowerChar(s: string)
    ensures forall i | 0 <= i < |s| :: LowerString(s)[i] == LowerChar(s[i])
  {
    if s != [] {
      LowerStringMapsLowerChar(s[1..]);
      assert forall i | 1 <= i < |s| :: LowerString(s)[i] == LowerString(s[1..])[i - 1];
    }
  }

  /** The characters for which Python's `str.isspace()` holds. */
  predicate IsSpace(c: char)
  {
    ('\t' <= c <= '\r') || ('\U{1C}' <= c <= ' ') || c == '\U{85}' || c == '\U{A0}'
    || c == '\U{1680}' || ('\U{2000}' <= c <= '\U{200A}') || c == '\U{2028}' || c == '\U{2029}'
    || c == '\U{202F}' || c == '\U{205F}' || c == '\U{3000}'
  }

  function TrimStart(s: string): string
  {
    if s != [] && IsSpace(s[0]) then TrimStart(s[1..]) else s
  }

  function TrimEnd(s: string): string
  {
    if s != [] && IsSpace(s[|s| - 1]) then TrimEnd(s[..|s| - 1]) else s
  }

  /** `s.strip()` */
  function Strip(s: string): string
  {
    TrimEnd(TrimStart(s))
  }

  /** `TrimStart` drops exactly the leading white space. */
  lemma {:induction false} TrimStartDropsLeadingSpace(s: string)
    ensures var r := TrimStart(s);
            |r| <= |s| && r == s[|s| - |r|..]
            && (forall i | 0 <= i < |s| - |r| :: IsSpace(s[i]))
            && (r != [] ==> !IsSpace(r[0]))
  {
    if s != [] && IsSpace(s[0]) {
      var t := s[1..];
      TrimStartDropsLeadingSpace(t);
      var r := TrimStart(t);
      assert TrimStart(s) == r;
      assert t[|t| - |r|..] == s[|s| - |r|..];
      forall i | 0 <= i < |s| - |r|
        ensures IsSpace(s[i])
      {
        if i > 0 {
          assert s[i] == t[i - 1];
        }
      }
    }
  }

  /** `TrimEnd` drops exactly the trailing white space. */
  lemma {:induction false} TrimEndDropsTrailingSpace(s: string)
    ensures var r := TrimEnd(s);
            |r| <= |s| && r == s[..|r|]
            && (forall i | |r| <= i < |s| :: IsSpace(s[i]))
            && (r != [] ==> !IsSpace(r[|r| - 1]))
  {
    if s != [] && IsSpace(s[|s| - 1]) {
      TrimEndDropsTrailingSpace(s[..|s| - 1]);
    }
  }

  /** `s.strip()` is the slice of `s` left once the white space at both
      ends is removed: it neither starts nor ends with white space, and it
      is empty exactly when `s` is all white space. */
  lemma StripRemovesOuterSpace(s: string)
    ensures exists i, j | 0 <= i <= j <= |s| :: Strip(s) == s[i..j]
              && (forall k | 0 <= k < i :: IsSpace(s[k]))
              && (forall k | j <= k < |s| :: IsSpace(s[k]))
    ensures Strip(s) != [] ==> !IsSpace(Strip(s)[0]) && !IsSpace(Strip(s)[|Strip(s)| - 1])
    ensures Strip(s) == [] <==> forall k | 0 <= k < |s| :: IsSpace(s[k])
  {
    var t := TrimStart(s);
    var r := TrimEnd(t);
    TrimStartDropsLeadingSpace(s);
    TrimEndDropsTrailingSpace(t);
    var i := |s| - |t|;
    assert r == s[i..][..|r|] == s[i..i + |r|];
    assert forall k | i + |r| <= k < |s| :: s[k] == t[k - i];
  }

  /** `v.lower()` */
  function Lower(v: Json): (r: Result<string>)
    ensures r.Ok? <==> v.JStr?
    ensures r.Err? ==> r.error == AttributeError(TypeName(v), "lower")
  {
    if v.JStr? then Ok(LowerString(v.s)) else Err(AttributeError(TypeName(v), "lower"))
  }

  /** `v.strip()` */
  function StripValue(v: Json): (r: Result<string>)
    ensures r.Ok? <==> v.JStr?
    ensures r.Err? ==> r.error == AttributeError(TypeName(v), "strip")
  {
    if v.JStr? then Ok(Strip(v.s)) else Err(AttributeError(TypeName(v), "strip"))
  }
}
