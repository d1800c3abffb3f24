/** Shared vocabulary of the backend: optional values, results carrying an API
    error, Python's dynamically typed values as they travel through dicts and
    table rows, Python truthiness, `dict.get` with a default, the blank-string
    test `not s or not s.strip()` and the substring test `needle in hay`. */
module Common {

  datatype Option<+T> = None | Some(value: T) {
    function GetOr(default: T): T {
      match this
      case Some(v) => v
      case None => default
    }
  }

  /** An `ApiError(status_code, message, error_code)`; the message text is not
      modelled, the HTTP status and the error code are. */
  datatype ApiError = ApiError(status: int, code: string)

  datatype Result<+T> = Ok(value: T) | Err(error: ApiError)

  /** A Python value as it appears in a dict, a JSON response or a table row.
      Floats and callables are not represented. */
  datatype Value =
    | Null
    | Bool(b: bool)
    | Int(i: int)
    | Str(s: string)
    | List(items: seq<Value>)
    | Dict(fields: map<string, Value>)

  /** A dict with string keys: a table row, a record, an options mapping. */
  type Row = map<string, Value>

  /** Python's `bool(v)`. */
  predicate Truthy(v: Value) {
    match v
    case Null => false
    case Bool(b) => b
    case Int(i) => i != 0
    case Str(s) => s != ""
    case List(items) => items != []
    case Dict(fields) => fields != map[]
  }

  /** `row.get(key, default)`. */
  function Get(row: Row, key: string, default: Value): (v: Value)
    ensures key in row ==> v == row[key]
    ensures key !in row ==> v == default
  {
    if key in row then row[key] else default
  }

  /** `row.get(key)` used as a condition: the key is present with a truthy value. */
  predicate HasTruthy(row: Row, key: string) {
    key in row && Truthy(row[key])
  }

  /** The characters `str.strip()` removes (exactly those for which
      `str.isspace()` holds). */
  predicate IsWhitespace(c: char) {
    || ('\U{0009}' <= c <= '\U{000D}')
    || ('\U{001C}' <= c <= '\U{0020}')
    || c == '\U{0085}' || c == '\U{00A0}' || c == '\U{1680}'
    || ('\U{2000}' <= c <= '\U{200A}')
    || c == '\U{2028}' || c == '\U{2029}' || c == '\U{202F}' || c == '\U{205F}' || c == '\U{3000}'
  }

  /** `not s or not s.strip()`: the string is empty or consists of whitespace only. */
  predicate IsBlank(s: string) {
    forall i :: 0 <= i < |s| ==> IsWhitespace(s[i])
  }

  /** Python's `needle in hay` on strings. */
  predicate Contains(hay: string, needle: string)
    decreases |hay|
  {
    |needle| <= |hay| && (hay[..|needle|] == needle || (0 < |hay| && Contains(hay[1..], needle)))
  }

  /** `needle` occurs in `hay` starting at position `i`. */
  ghost predicate OccursAt(hay: string, needle: string, i: int) {
    0 <= i && i + |needle| <= |hay| && hay[i..i + |needle|] == needle
  }

  /** The recursive substring test agrees with "occurs at some position". */
  lemma {:induction false} ContainsIffOccurs(hay: string, needle: string)
    ensures Contains(hay, needle) <==> exists i :: OccursAt(hay, needle, i)
    decreases |hay|
  {
    if Contains(hay, needle) {
      if hay[..|needle|] == needle {
        assert OccursAt(hay, needle, 0);
      } else {
        ContainsIffOccurs(hay[1..], needle);
        var i :| OccursAt(hay[1..], needle, i);
        assert hay[1..][i..i + |needle|] == hay[i + 1..i + 1 + |needle|];
        assert OccursAt(hay, needle, i + 1);
      }
    }
    if exists i :: OccursAt(hay, needle, i) {
      var i :| OccursAt(hay, needle, i);
      if 0 < i && hay[..|needle|] != needle {
        assert hay[1..][i - 1..i - 1 + |needle|] == hay[i..i + |needle|];
        assert OccursAt(hay[1..], needle, i - 1);
        ContainsIffOccurs(hay[1..], needle);
      }
    }
  }

  /** A string never occurs inside a shorter one. */
  lemma NotContainsLonger(hay: string, needle: string)
    requires |hay| < |needle|
    ensures !Contains(hay, needle)
  {
  }

  /** Two different strings of the same length do not contain each other. */
  lemma NotContainsSameLength(hay: string, needle: string)
    requires |hay| == |needle| && hay != needle
    ensures !Contains(hay, needle)
  {
    assert hay[..|needle|] == hay;
    if 0 < |hay| {
      NotContainsLonger(hay[1..], needle);
    }
  }

  /** `a` is `b` with some elements left out, the others kept in order. */
  ghost predicate IsSubsequence<T>(a: seq<T>, b: seq<T>)
    decreases |b|
  {
    a == [] || (b != [] && ((a[0] == b[0] && IsSubsequence(a[1..], b[1..])) || IsSubsequence(a, b[1..])))
  }

  predicate IsDigit(c: char) {
    '0' <= c <= '9'
  }

  function Digit(c: char): nat
    requires IsDigit(c)
  {
    c as int - '0' as int
  }

  /** The value of a string of decimal digits. */
  function DecimalValue(s: string): nat
    requires forall i :: 0 <= i < |s| ==> IsDigit(s[i])
  {
    if s == [] then 0 else DecimalValue(s[..|s| - 1]) * 10 + Digit(s[|s| - 1])
  }

  function DigitChar(d: nat): (c: char)
    requires d < 10
    ensures IsDigit(c) && Digit(c) == d
  {
    ('0' as int + d) as char
  }

  /** Python's `str(n)` for a natural number. */
  function NatToDecimal(n: nat): (s: string)
    ensures 0 < |s| && forall i :: 0 <= i < |s| ==> IsDigit(s[i])
    decreases n
  {
    if n < 10 then [DigitChar(n)] else NatToDecimal(n / 10) + [DigitChar(n % 10)]
  }

  /** Reading the rendered number back gives the number. */
  lemma {:induction false} DecimalRoundTrip(n: nat)
    ensures DecimalValue(NatToDecimal(n)) == n
    decreases n
  {
    var s := NatToDecimal(n);
    if n < 10 {
      assert s[..|s| - 1] == [];
    } else {
      assert s[..|s| - 1] == NatToDecimal(n / 10);
      DecimalRoundTrip(n / 10);
    }
  }

  /** Python's `str(v)` as an f-string renders it, for None, a bool, an int
      and a string; None for a list or dict, whose rendering is not modelled. */
  function PyStr(v: Value): (r: Option<string>)
    ensures v.Str? ==> r == Some(v.s)
    ensures v.Int? && 0 <= v.i ==>
      r.Some? && 0 < |r.value| && (forall k :: 0 <= k < |r.value| ==> IsDigit(r.value[k])) && DecimalValue(r.value) == v.i
    ensures v.Int? && v.i < 0 ==>
      r.Some? && 1 < |r.value| && r.value[0] == '-'
      && (forall k :: 1 <= k < |r.value| ==> IsDigit(r.value[k])) && DecimalValue(r.value[1..]) == -v.i
    ensures r.None? <==> v.List? || v.Dict?
  {
    match v
    case Null => Some("None")
    case Bool(b) => Some(if b then "True" else "False")
    case Int(i) =>
      if 0 <= i then (DecimalRoundTrip(i); Some(NatToDecimal(i)))
      else (DecimalRoundTrip(-i); assert ("-" + NatToDecimal(-i))[1..] == NatToDecimal(-i); Some("-" + NatToDecimal(-i)))
    case Str(s) => Some(s)
    case _ => None
  }

  function Min(a: int, b: int): int {
    if a < b then a else b
  }

  function Max(a: int, b: int): int {
    if a < b then b else a
  }

  /** Python's `needle in container` for a string needle; None when the
      container does not support `in` (None, a bool, an int). */
  function In(needle: string, container: Value): (r: Option<bool>)
    ensures container.Str? ==> r == Some(Contains(container.s, needle))
    ensures container.List? ==> r == Some(Str(needle) in container.items)
    ensures container.Dict? ==> r == Some(needle in container.fields)
    ensures r.None? <==> container.Null? || container.Bool? || container.Int?
  {
    match container
    case Str(s) => Some(Contains(s, needle))
    case List(items) => Some(Str(needle) in items)
    case Dict(fields) => Some(needle in fields)
    case _ => None
  }

  /** Iterating a value whose elements are then used as dicts: the elements of
      a list; nothing for an empty string or dict; None when iterating raises
      (None, a bool, an int) or yields strings (a non-empty string or dict). */
  function Elements(v: Value): (r: Option<seq<Value>>)
    ensures v.List? ==> r == Some(v.items)
    ensures !v.List? ==> (r.Some? <==> v == Str("") || v == Dict(map[])) && (r.Some? ==> r.value == [])
  {
    if v.List? then Some(v.items)
    else if v == Str("") || v == Dict(map[]) then Some([])
    else None
  }
}
