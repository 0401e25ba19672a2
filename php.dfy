/** The PHP value semantics the adapters rely on: decoded JSON payloads and
    configuration arrays, the three "default" operators (`??`, `?:` and the
    falsy test `!$x`), Laravel's `Arr::get`, casts to string, parameter
    coercion and the few string functions the adapters call. */
module Php {

  /** A decoded JSON document, which in PHP is a scalar or an array. Objects
      keep their keys in document order, as a PHP array does; lists are
      arrays with the keys 0..n-1. JSON numbers are integers here. */
  datatype Json =
    | JNull
    | JBool(b: bool)
    | JInt(i: int)
    | JStr(s: string)
    | JList(elems: seq<Json>)
    | JObj(fields: seq<(string, Json)>)

  datatype Option<+T> = None | Some(value: T)

  /** The exceptions the core raises or lets through. */
  datatype Error =
    | RuntimeError(message: string)     // RuntimeException
    | LogicError(message: string)       // LogicException (not implemented)
    | InvalidArgument(message: string)  // InvalidArgumentException
    | TypeError(message: string)        // a parameter of the wrong type
    | TransportError(message: string)   // what the HTTP client threw
    | ErrorException(message: string)   // a PHP warning, which Laravel's error handler throws

  /** What a payload value of the wrong type raises: a TypeError from a
      parameter or an operator, or the `ErrorException` of a warning. */
  predicate FieldError(e: Error) {
    e.TypeError? || e.ErrorException?
  }

  datatype Result<+T> = Ok(value: T) | Err(error: Error) {
    predicate IsFailure() { Err? }
    function PropagateFailure<U>(): Result<U> requires Err? { Err(error) }
    function Extract(): T requires Ok? { value }
  }

  const EmptyArray: Json := JList([])

  predicate IsArray(j: Json) { j.JList? || j.JObj? }

  /** The value stored under `k` in an object, if the key exists (its value
      may be null). Lists are never indexed by the non-numeric keys used
      here, so a list has no such key. */
  function Member(j: Json, k: string): (r: Option<Json>)
    ensures r.Some? ==> j.JObj? && exists i :: 0 <= i < |j.fields| && j.fields[i] == (k, r.value)
    ensures r.None? && j.JObj? ==> forall i :: 0 <= i < |j.fields| ==> j.fields[i].0 != k
  {
    if j.JObj? then Find(j.fields, k) else None
  }

  function Find(fields: seq<(string, Json)>, k: string): (r: Option<Json>)
    ensures r.Some? ==> exists i :: 0 <= i < |fields| && fields[i] == (k, r.value)
    ensures r.None? <==> forall i :: 0 <= i < |fields| ==> fields[i].0 != k
  {
    if fields == [] then None
    else if fields[0].0 == k then Some(fields[0].1)
    else
      var r := Find(fields[1..], k);
      assert forall i :: 1 <= i < |fields| ==> fields[i] == fields[1..][i - 1];
      r
  }

  /** The first field with key `k` is the one `Find` returns. */
  lemma {:induction false} FindFirst(fields: seq<(string, Json)>, k: string, i: nat)
    requires i < |fields| && fields[i].0 == k
    requires forall m :: 0 <= m < i ==> fields[m].0 != k
    ensures Find(fields, k) == Some(fields[i].1)
    decreases i
  {
    if i > 0 {
      FindFirst(fields[1..], k, i - 1);
    }
  }

  /** `$j[k]` read under `??` or `isset`: an absent key, an index into a
      scalar and a stored null all read as null. */
  function Index(j: Json, k: string): (r: Json)
    ensures r != JNull <==> Member(j, k).Some? && Member(j, k).value != JNull
    ensures r != JNull ==> r == Member(j, k).value
  {
    match Member(j, k)
    case Some(v) => v
    case None => JNull
  }

  /** `a ?? b`: falls through only when `a` is null (or absent). */
  function Coalesce(a: Json, b: Json): (r: Json)
    ensures a != JNull ==> r == a
    ensures a == JNull ==> r == b
  {
    if a.JNull? then b else a
  }

  /** PHP truthiness: null, false, 0, "", "0" and the empty array are falsy. */
  predicate Truthy(j: Json) {
    match j
    case JNull => false
    case JBool(b) => b
    case JInt(i) => i != 0
    case JStr(s) => s != "" && s != "0"
    case JList(e) => e != []
    case JObj(f) => f != []
  }

  /** `a ?: b`: also falls through on false, 0, "", "0" and []. */
  function Elvis(a: Json, b: Json): (r: Json)
    ensures Truthy(a) ==> r == a
    ensures !Truthy(a) ==> r == b
  {
    if Truthy(a) then a else b
  }

  predicate TruthyString(s: string) { Truthy(JStr(s)) }

  /** Laravel's `Arr::get($j, $key, $default)`: a key that exists is returned
      even when its value is null; otherwise a dotted key is walked segment
      by segment; anything that is not an array yields the default. */
  function ArrGet(j: Json, key: string, default: Json): (r: Json)
    ensures !IsArray(j) ==> r == default
    ensures Member(j, key).Some? ==> r == Member(j, key).value
    ensures IsArray(j) && Member(j, key).None? && '.' !in key ==> r == default
  {
    if !IsArray(j) then default
    else match Member(j, key)
      case Some(v) => v
      case None => if '.' in key then Walk(j, Split(key), default) else default
  }

  /** A key with one dot names two segments. */
  lemma {:induction false} SplitAtDot(a: string, b: string)
    requires '.' !in a && '.' !in b
    ensures Split(a + "." + b) == [a, b]
    decreases |a|
  {
    if a == [] {
      assert (a + "." + b)[1..] == b;
    } else {
      SplitAtDot(a[1..], b);
      assert (a + "." + b)[1..] == a[1..] + "." + b;
      assert [a[0]] + a[1..] == a;
    }
  }

  /** `Arr::get` with a key `a.b` that is not itself a key: the member `b`
      of the member `a`, else the default. */
  lemma ArrGetDotted(j: Json, a: string, b: string, default: Json)
    requires '.' !in a && '.' !in b && IsArray(j) && Member(j, a + "." + b).None?
    ensures ArrGet(j, a + "." + b, default) ==
      match Member(j, a)
      case Some(v) => if IsArray(v) && Member(v, b).Some? then Member(v, b).value else default
      case None => default
  {
    SplitAtDot(a, b);
    assert (a + "." + b)[|a|] == '.';
    var key := a + "." + b;
    assert ArrGet(j, key, default) == Walk(j, [a, b], default);
    assert [a, b][1..] == [b] && [b][1..] == [];
    match Member(j, a) {
      case Some(v) =>
        assert Walk(j, [a, b], default) == Walk(v, [b], default);
      case None =>
    }
  }

  function Walk(j: Json, segments: seq<string>, default: Json): Json
    decreases |segments|
  {
    if segments == [] then j
    else if IsArray(j) && Member(j, segments[0]).Some? then Walk(Member(j, segments[0]).value, segments[1..], default)
    else default
  }

  /** `explode('.', key)`. */
  function Split(key: string): (r: seq<string>)
    ensures |r| >= 1
    ensures '.' !in key ==> r == [key]
  {
    if key == [] then [""]
    else
      var rest := Split(key[1..]);
      assert key == [key[0]] + key[1..];
      if key[0] == '.' then [""] + rest
      else [[key[0]] + rest[0]] + rest[1..]
  }

  /** The values of an array, in order; a scalar has none (`Iterate` is
      the `foreach` that raises on a scalar). */
  function Items(j: Json): (r: seq<Json>)
    ensures j.JList? ==> r == j.elems
    ensures j.JObj? ==> |r| == |j.fields| && forall i :: 0 <= i < |r| ==> r[i] == j.fields[i].1
    ensures !IsArray(j) ==> r == []
  {
    match j
    case JList(e) => e
    case JObj(f) => seq(|f|, i requires 0 <= i < |f| => f[i].1)
    case _ => []
  }

  /** Decimal rendering of an integer, as `(string)` gives it. */
  function IntToString(i: int): (r: string)
    ensures |r| >= 1
    ensures i < 0 <==> r[0] == '-'
  {
    if i < 0 then "-" + NatToString(-i) else NatToString(i)
  }

  function NatToString(n: nat): (r: string)
    ensures |r| >= 1 && forall k :: 0 <= k < |r| ==> '0' <= r[k] <= '9'
    decreases n
  {
    var d := [(('0' as int) + n % 10) as char];
    if n < 10 then d else NatToString(n / 10) + d
  }

  /** The `(string)` cast: null and false give "", true gives "1", an array
      gives "Array". */
  function ToStr(j: Json): (r: string)
    ensures j.JStr? ==> r == j.s
    ensures j.JNull? ==> r == ""
  {
    match j
    case JNull => ""
    case JBool(b) => if b then "1" else ""
    case JInt(i) => IntToString(i)
    case JStr(s) => s
    case JList(_) => "Array"
    case JObj(_) => "Array"
  }

  /** `(string) $j` inside the application: casting an array draws the
      warning "Array to string conversion", which Laravel's error handler
      turns into an `ErrorException`; every other value casts as `ToStr`. */
  function Cast(j: Json): (r: Result<string>)
    ensures r.Err? <==> IsArray(j)
    ensures r.Ok? ==> r.value == ToStr(j)
    ensures r.Err? ==> r.error == ErrorException(ArrayToString)
  {
    if IsArray(j) then Err(ErrorException(ArrayToString)) else Ok(ToStr(j))
  }

  const ArrayToString := "Array to string conversion"

  /** `foreach ($j as ...)` inside the application: a value that is not an
      array draws the warning "foreach() argument must be of type
      array|object", which Laravel's error handler turns into an
      `ErrorException`; an array yields its values in order. */
  function Iterate(j: Json): (r: Result<seq<Json>>)
    ensures r.Err? <==> !IsArray(j)
    ensures r.Ok? ==> r.value == Items(j)
    ensures r.Err? ==> r.error.ErrorException?
  {
    if IsArray(j) then Ok(Items(j))
    else Err(ErrorException(NotIterable(TypeName(j))))
  }

  /** The message of the `foreach` warning for a value of the given type. */
  function NotIterable(typeName: string): string {
    "foreach() argument must be of type array|object, " + typeName + " given"
  }

  /** The type name PHP reports for a scalar. */
  function TypeName(j: Json): string {
    match j
    case JNull => "null"
    case JBool(_) => "bool"
    case JInt(_) => "int"
    case JStr(_) => "string"
    case JList(_) => "array"
    case JObj(_) => "array"
  }

  /** Passing `j` to a `?string` parameter: scalars are coerced as by the
      cast, null stays null, an array raises a TypeError. */
  function NullableString(j: Json): (r: Result<Option<string>>)
    ensures r.Err? <==> IsArray(j)
    ensures j.JNull? ==> r == Ok(None)
    ensures !IsArray(j) && !j.JNull? ==> r == Ok(Some(ToStr(j)))
  {
    if IsArray(j) then Err(TypeError("array given where ?string expected"))
    else if j.JNull? then Ok(None)
    else Ok(Some(ToStr(j)))
  }

  /** Passing `j` to a `string` parameter: null and arrays raise. */
  function StringParam(j: Json): (r: Result<string>)
    ensures r.Ok? <==> !IsArray(j) && !j.JNull?
    ensures r.Ok? ==> r.value == ToStr(j)
  {
    if IsArray(j) || j.JNull? then Err(TypeError("string expected")) else Ok(ToStr(j))
  }

  /** Passing `j` to a `?array` parameter: a scalar raises a TypeError. */
  function NullableArray(j: Json): (r: Result<Option<Json>>)
    ensures r.Ok? <==> IsArray(j) || j.JNull?
    ensures r.Ok? ==> r.value == (if j.JNull? then None else Some(j))
  {
    if j.JNull? then Ok(None)
    else if IsArray(j) then Ok(Some(j))
    else Err(TypeError("array expected"))
  }

  /** `(string) $x` applied to a value that is already a nullable string. */
  function OrEmpty(s: Option<string>): string {
    match s
    case Some(v) => v
    case None => ""
  }

  /** `strtolower`, which is ASCII-only. */
  function Lower(s: string): (r: string)
    ensures |r| == |s|
    ensures forall i :: 0 <= i < |s| ==> r[i] == LowerChar(s[i])
  {
    if s == [] then [] else [LowerChar(s[0])] + Lower(s[1..])
  }

  function LowerChar(c: char): char {
    if 'A' <= c <= 'Z' then (c as int + 32) as char else c
  }

  /** `strtoupper`, which is ASCII-only. */
  function Upper(s: string): (r: string)
    ensures |r| == |s|
    ensures forall i :: 0 <= i < |s| ==> r[i] == UpperChar(s[i])
  {
    if s == [] then [] else [UpperChar(s[0])] + Upper(s[1..])
  }

  function UpperChar(c: char): char {
    if 'a' <= c <= 'z' then (c as int - 32) as char else c
  }

  /** `str_contains($hay, $needle)`. */
  predicate Contains(hay: string, needle: string)
    decreases |hay|
  {
    needle <= hay || (hay != [] && Contains(hay[1..], needle))
  }

  /** The needle occurs in the haystack at position `i`. */
  ghost predicate OccursAt(hay: string, needle: string, i: int) {
    0 <= i && i + |needle| <= |hay| && hay[i..i + |needle|] == needle
  }

  /** `Contains` holds exactly when the needle occurs at some position. */
  lemma ContainsIffOccurs(hay: string, needle: string)
    ensures Contains(hay, needle) <==> exists i :: OccursAt(hay, needle, i)
  {
    if Contains(hay, needle) {
      var i := ContainsWitness(hay, needle);
    } else {
      forall i | OccursAt(hay, needle, i) ensures false {
        OccursContains(hay, needle, i);
      }
    }
  }

  lemma {:induction false} ContainsWitness(hay: string, needle: string) returns (i: int)
    requires Contains(hay, needle)
    ensures OccursAt(hay, needle, i)
    decreases |hay|
  {
    if needle <= hay {
      assert hay[..|needle|] == needle;
      i := 0;
    } else {
      var j := ContainsWitness(hay[1..], needle);
      assert hay[j + 1..j + 1 + |needle|] == hay[1..][j..j + |needle|];
      i := j + 1;
    }
  }

  lemma {:induction false} OccursContains(hay: string, needle: string, i: int)
    requires OccursAt(hay, needle, i)
    ensures Contains(hay, needle)
    decreases |hay|
  {
    if i == 0 {
      assert hay[..|needle|] == needle;
    } else {
      assert hay[i..i + |needle|] == hay[1..][i - 1..i - 1 + |needle|];
      OccursContains(hay[1..], needle, i - 1);
    }
  }

  /** `rtrim($s, '/')`: every trailing slash is removed. */
  function RTrimSlash(s: string): (r: string)
    ensures r <= s
    ensures r == [] || r[|r| - 1] != '/'
    ensures forall i :: |r| <= i < |s| ==> s[i] == '/'
    decreases |s|
  {
    if s != [] && s[|s| - 1] == '/' then RTrimSlash(s[..|s| - 1]) else s
  }
}
