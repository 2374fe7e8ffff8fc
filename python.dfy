/**
 * The slice of Python's runtime that the crawlers lean on: the JSON values
 * `response.json()` and `json.load` produce, the exceptions that dict access
 * and `float()` raise, and the few string operations the code performs itself.
 * Library routines whose behaviour is not part of this model are fields of
 * `Runtime`, supplied by the caller.
 */
module Python {
  import opened Wrappers

  /** A decoded JSON value as Python holds it (`dict`, `list`, `str`, `int`, `float`, `bool`, `None`). */
  datatype Json =
    | Null
    | Bool(b: bool)
    | Int(i: int)
    | Float(x: real)
    | Str(s: string)
    | Arr(elems: seq<Json>)
    | Obj(fields: map<string, Json>)

  /** The exceptions raised on the paths modelled here. */
  datatype Error =
    | KeyError(key: string)          // `d[k]` with `k` missing
    | TypeError                      // subscripting, iterating or converting a value of the wrong kind
    | AttributeError                 // `.get`, `.replace` or `.split` on a value that lacks it
    | ValueError(reason: string)     // a value of the right kind that the operation still rejects
    | ValidationError(model: string) // pydantic refused a field of the named model

  /** A `datetime`, naive or carrying a UTC offset. */
  datatype DateTime = DateTime(
    year: int, month: int, day: int,
    hour: int, minute: int, second: int, microsecond: int,
    utcOffsetSeconds: Option<int>)

  /**
   * Library behaviour that is outside this model, passed in as functions:
   * `float(s)` on a string, pydantic's string-to-int coercion,
   * `datetime.fromisoformat`, `datetime.fromtimestamp`, `strftime("%Y-%m-%d")`
   * and `str()` of a float, list or dict. `None` stands for the exception.
   */
  datatype Runtime = Runtime(
    floatFromStr: string -> Option<real>,
    intFromStr: string -> Option<int>,
    fromIsoFormat: string -> Option<DateTime>,
    fromTimestamp: real -> Option<DateTime>,
    dateString: DateTime -> string,
    reprOther: Json -> string)

  predicate HasKey(j: Json, k: string) {
    j.Obj? && k in j.fields
  }

  /** `j[k]` for a string key `k`. */
  function Index(j: Json, k: string): (r: Result<Json, Error>)
    ensures r.Ok? <==> HasKey(j, k)
    ensures r.Ok? ==> r.value == j.fields[k]
    ensures j.Obj? && k !in j.fields ==> r == Err(KeyError(k))
    ensures !j.Obj? ==> r == Err(TypeError)
  {
    match j
    case Obj(m) => if k in m then Ok(m[k]) else Err(KeyError(k))
    case _ => Err(TypeError)
  }

  /** `j.get(k, default)`; `j.get(k)` is the case `default == Null`. */
  function Get(j: Json, k: string, default: Json): (r: Result<Json, Error>)
    ensures r.Ok? <==> j.Obj?
    ensures r.Ok? ==> r.value == if k in j.fields then j.fields[k] else default
    ensures r.Err? ==> r.error == AttributeError
  {
    match j
    case Obj(m) => Ok(if k in m then m[k] else default)
    case _ => Err(AttributeError)
  }

  /** `d.get(k, default)` on a value already known to be a dict. */
  function DictGet(d: map<string, Json>, k: string, default: Json): (r: Json)
    ensures k in d ==> r == d[k]
    ensures k !in d ==> r == default
  {
    if k in d then d[k] else default
  }

  /** Whether `float(j)` succeeds. */
  predicate FloatConvertible(rt: Runtime, j: Json) {
    j.Int? || j.Float? || j.Bool? || (j.Str? && rt.floatFromStr(j.s).Some?)
  }

  /** `float(j)`, with real arithmetic in place of IEEE doubles. */
  function ToFloat(rt: Runtime, j: Json): (r: Result<real, Error>)
    ensures r.Ok? <==> FloatConvertible(rt, j)
    ensures j.Int? ==> r == Ok(j.i as real)
    ensures j.Float? ==> r == Ok(j.x)
    ensures j.Bool? ==> r == Ok(if j.b then 1.0 else 0.0)
    ensures j.Str? && rt.floatFromStr(j.s).Some? ==> r == Ok(rt.floatFromStr(j.s).value)
    ensures j.Str? && rt.floatFromStr(j.s).None? ==> r == Err(ValueError("could not convert string to float"))
    ensures j.Null? || j.Arr? || j.Obj? ==> r == Err(TypeError)
  {
    match j
    case Int(i) => Ok(i as real)
    case Float(x) => Ok(x)
    case Bool(b) => Ok(if b then 1.0 else 0.0)
    case Str(s) =>
      (match rt.floatFromStr(s)
       case Some(x) => Ok(x)
       case None => Err(ValueError("could not convert string to float")))
    case _ => Err(TypeError)
  }

  /** Whether `datetime.fromtimestamp(j)` succeeds: `j` is a number the platform can represent. */
  predicate TimestampValid(rt: Runtime, j: Json) {
    (j.Int? && rt.fromTimestamp(j.i as real).Some?)
    || (j.Float? && rt.fromTimestamp(j.x).Some?)
    || (j.Bool? && rt.fromTimestamp(if j.b then 1.0 else 0.0).Some?)
  }

  /** `datetime.fromtimestamp(j)`: a number is required, and out-of-range values are rejected. */
  function FromTimestamp(rt: Runtime, j: Json): (r: Result<DateTime, Error>)
    ensures r.Ok? <==> TimestampValid(rt, j)
    ensures j.Int? && r.Ok? ==> Some(r.value) == rt.fromTimestamp(j.i as real)
    ensures j.Float? && r.Ok? ==> Some(r.value) == rt.fromTimestamp(j.x)
  {
    var seconds :-
      match j
      case Int(i) => Ok(i as real)
      case Float(x) => Ok(x)
      case Bool(b) => Ok(if b then 1.0 else 0.0)
      case _ => Err(TypeError);
    match rt.fromTimestamp(seconds)
    case Some(d) => Ok(d)
    case None => Err(ValueError("timestamp out of range"))
  }

  /** The text `datetime.fromisoformat` is given: every `Z` spelled as `+00:00`. */
  function IsoText(s: string): (t: string)
    ensures 'Z' !in t
    ensures 'Z' !in s ==> t == s
  {
    ReplaceCharRemoves(s, 'Z', "+00:00");
    ReplaceCharAbsent(s, 'Z', "+00:00");
    ReplaceChar(s, 'Z', "+00:00")
  }

  /** Whether `datetime.fromisoformat(j.replace('Z', '+00:00'))` succeeds. */
  predicate IsoDateValid(rt: Runtime, j: Json) {
    j.Str? && rt.fromIsoFormat(IsoText(j.s)).Some?
  }

  /** `datetime.fromisoformat(j.replace('Z', '+00:00'))`: `j` must be a string. */
  function FromIsoFormat(rt: Runtime, j: Json): (r: Result<DateTime, Error>)
    ensures r.Ok? <==> IsoDateValid(rt, j)
    ensures r.Ok? ==> Some(r.value) == rt.fromIsoFormat(IsoText(j.s))
    ensures !j.Str? ==> r == Err(AttributeError)
    ensures j.Str? && rt.fromIsoFormat(IsoText(j.s)).None? ==> r == Err(ValueError("Invalid isoformat string"))
  {
    if !j.Str? then Err(AttributeError)
    else
      match rt.fromIsoFormat(IsoText(j.s))
      case Some(d) => Ok(d)
      case None => Err(ValueError("Invalid isoformat string"))
  }

  /** `str(j)`, which is also what an f-string substitutes for `{j}`. */
  function PyStr(rt: Runtime, j: Json): (r: string)
    ensures j.Str? ==> r == j.s
    ensures j.Int? ==> r == IntToDecimal(j.i)
    ensures j.Bool? ==> r == (if j.b then "True" else "False")
    ensures j.Null? ==> r == "None"
  {
    match j
    case Str(s) => s
    case Int(i) => IntToDecimal(i)
    case Bool(b) => if b then "True" else "False"
    case Null => "None"
    case _ => rt.reprOther(j)
  }

  /**
   * The elements a `for x in j` loop visits. A list yields its elements and a
   * string its one-character strings. A dict yields its keys, which are strings;
   * every loop modelled here subscripts each element with a string key, which a
   * string rejects with TypeError, so a non-empty dict is that error directly.
   */
  function Iterate(j: Json): (r: Result<seq<Json>, Error>)
    ensures j.Arr? ==> r == Ok(j.elems)
    ensures j.Str? ==> r.Ok? && |r.value| == |j.s| && forall i :: 0 <= i < |j.s| ==> r.value[i] == Str([j.s[i]])
    ensures j.Obj? ==> r == if j.fields == map[] then Ok([]) else Err(TypeError)
    ensures r.Ok? <==> j.Arr? || j.Str? || j == Obj(map[])
    ensures j.Null? || j.Bool? || j.Int? || j.Float? ==> r == Err(TypeError)
  {
    match j
    case Arr(xs) => Ok(xs)
    case Str(s) => Ok(seq(|s|, i requires 0 <= i < |s| => Str([s[i]])))
    case Obj(m) => if m == map[] then Ok([]) else Err(TypeError)
    case _ => Err(TypeError)
  }

  /** Python truthiness: `None`, `False`, zero and empty containers are false. */
  predicate Truthy(j: Json) {
    match j
    case Null => false
    case Bool(b) => b
    case Int(i) => i != 0
    case Float(x) => x != 0.0
    case Str(s) => s != ""
    case Arr(xs) => xs != []
    case Obj(m) => m != map[]
  }

  // ---------------------------------------------------------------------------
  // `str.replace` with a one-character pattern

  /** `s.replace(c, rep)` for a one-character pattern `c`: every occurrence of `c` becomes `rep`. */
  function ReplaceChar(s: string, c: char, rep: string): string
  {
    if s == [] then [] else (if s[0] == c then rep else [s[0]]) + ReplaceChar(s[1..], c, rep)
  }

  /** Replacing distributes over concatenation. */
  lemma {:induction false} ReplaceCharConcat(a: string, b: string, c: char, rep: string)
    ensures ReplaceChar(a + b, c, rep) == ReplaceChar(a, c, rep) + ReplaceChar(b, c, rep)
  {
    if a == [] {
      assert a + b == b;
    } else {
      assert (a + b)[0] == a[0];
      assert (a + b)[1..] == a[1..] + b;
      ReplaceCharConcat(a[1..], b, c, rep);
    }
  }

  /** A string without the pattern comes back unchanged. */
  lemma {:induction false} ReplaceCharAbsent(s: string, c: char, rep: string)
    ensures c !in s ==> ReplaceChar(s, c, rep) == s
  {
    if s != [] && c !in s {
      assert c !in s[1..] by { assert forall k :: 0 <= k < |s| - 1 ==> s[1..][k] == s[k + 1]; }
      assert s == [s[0]] + s[1..];
      ReplaceCharAbsent(s[1..], c, rep);
    }
  }

  /** When the replacement does not contain the pattern, no occurrence survives. */
  lemma {:induction false} ReplaceCharRemoves(s: string, c: char, rep: string)
    requires c !in rep
    ensures c !in ReplaceChar(s, c, rep)
  {
    if s != [] {
      ReplaceCharRemoves(s[1..], c, rep);
    }
  }

  /** Replacing twice is replacing once, when the replacement does not contain the pattern. */
  lemma ReplaceCharIdempotent(s: string, c: char, rep: string)
    requires c !in rep
    ensures ReplaceChar(ReplaceChar(s, c, rep), c, rep) == ReplaceChar(s, c, rep)
  {
    ReplaceCharRemoves(s, c, rep);
    ReplaceCharAbsent(ReplaceChar(s, c, rep), c, rep);
  }

  // ---------------------------------------------------------------------------
  // `s.split(c)[0]`

  /** `s.split(c)[0]` for a one-character separator: everything before the first `c`, or all of `s`. */
  function SplitFirst(s: string, c: char): (r: string)
    ensures r <= s
    ensures c !in r
    ensures |r| < |s| ==> s[|r|] == c
  {
    if s == [] then [] else if s[0] == c then [] else [s[0]] + SplitFirst(s[1..], c)
  }

  /** The prefix before the first separator is the only string with those properties. */
  lemma SplitFirstUnique(s: string, c: char, p: string)
    requires p <= s && c !in p && (|p| < |s| ==> s[|p|] == c)
    ensures p == SplitFirst(s, c)
  {
  }

  // ---------------------------------------------------------------------------
  // `str(int)`

  function DigitChar(d: nat): (ch: char)
    requires d < 10
    ensures '0' <= ch <= '9'
  {
    ((('0' as int) + d) as char)
  }

  function DigitValue(ch: char): (d: nat)
    requires '0' <= ch <= '9'
    ensures d < 10
  {
    (ch as int) - ('0' as int)
  }

  predicate AllDigits(s: string) {
    forall i :: 0 <= i < |s| ==> '0' <= s[i] <= '9'
  }

  /** The decimal digits of `n`, most significant first, without leading zeros. */
  function NatToDecimal(n: nat): (s: string)
    ensures |s| >= 1 && AllDigits(s)
    ensures s[0] == '0' ==> n == 0
    decreases n
  {
    if n < 10 then [DigitChar(n)] else NatToDecimal(n / 10) + [DigitChar(n % 10)]
  }

  /** `str(i)` for a Python `int`. */
  function IntToDecimal(i: int): (s: string)
    ensures |s| >= 1
    ensures s[0] == '-' <==> i < 0
  {
    if i < 0 then "-" + NatToDecimal(-i) else NatToDecimal(i)
  }

  /** The value of a non-empty digit string. */
  function DecimalValue(s: string): nat
    requires |s| >= 1 && AllDigits(s)
  {
    if |s| == 1 then DigitValue(s[0]) else DecimalValue(s[..|s| - 1]) * 10 + DigitValue(s[|s| - 1])
  }

  /** Reads back what `IntToDecimal` writes. */
  function DecimalToInt(s: string): Option<int>
  {
    if |s| >= 2 && s[0] == '-' && AllDigits(s[1..]) then Some(0 - DecimalValue(s[1..]) as int)
    else if |s| >= 1 && AllDigits(s) then Some(DecimalValue(s))
    else None
  }

  lemma {:induction false} NatToDecimalRoundTrip(n: nat)
    ensures DecimalValue(NatToDecimal(n)) == n
    decreases n
  {
    if n >= 10 {
      var s := NatToDecimal(n);
      assert s[..|s| - 1] == NatToDecimal(n / 10);
      NatToDecimalRoundTrip(n / 10);
    }
  }

  /** `str(i)` can be parsed back to `i`. */
  lemma IntToDecimalRoundTrip(i: int)
    ensures DecimalToInt(IntToDecimal(i)) == Some(i)
  {
    var s := IntToDecimal(i);
    if i < 0 {
      assert s[1..] == NatToDecimal(-i);
      assert AllDigits(s[1..]);
      NatToDecimalRoundTrip(-i);
    } else {
      assert s == NatToDecimal(i);
      assert s[0] != '-';
      NatToDecimalRoundTrip(i);
    }
  }

  /** Distinct integers print differently. */
  lemma IntToDecimalInjective(i: int, j: int)
    requires IntToDecimal(i) == IntToDecimal(j)
    ensures i == j
  {
    IntToDecimalRoundTrip(i);
    IntToDecimalRoundTrip(j);
  }
}
