/** JavaScript values as the employees page sees them after `response.json()`,
    with the handful of language operations the page applies to them:
    truthiness, `||`, optional chaining, `Number(...)` and `String(...)`. */
module JsValues {

  datatype Option<+T> = None | Some(value: T)

  /** A parsed JSON value, plus `undefined` (what a missing key reads as).
      Numbers are integers in this model. */
  datatype Value =
    | Undefined
    | Null
    | Bool(b: bool)
    | Num(n: int)
    | Str(s: string)
    | Arr(items: seq<Value>)
    | Obj(fields: map<string, Value>)

  /** JavaScript truthiness: `undefined`, `null`, `false`, `0` and `""` are falsy. */
  predicate Truthy(v: Value) {
    match v
    case Undefined => false
    case Null => false
    case Bool(b) => b
    case Num(n) => n != 0
    case Str(s) => s != ""
    case Arr(_) => true
    case Obj(_) => true
  }

  predicate Nullish(v: Value) {
    v.Undefined? || v.Null?
  }

  /** `v?.key`. Every key the page reads is an own data key: none of them
      is a property of a number, string or array, so those read `undefined`. */
  function Get(v: Value, key: string): Value {
    if v.Obj? && key in v.fields then v.fields[key] else Undefined
  }

  /** `v.key` without `?.`: `None` is the TypeError thrown on null/undefined. */
  function Member(v: Value, key: string): (r: Option<Value>)
    ensures r.None? <==> Nullish(v)
    ensures r.Some? ==> r.value == Get(v, key)
  {
    if Nullish(v) then None else Some(Get(v, key))
  }

  /** `a || b`. */
  function Or(a: Value, b: Value): (r: Value)
    ensures Truthy(a) ==> r == a
    ensures !Truthy(a) ==> r == b
  {
    if Truthy(a) then a else b
  }

  /** `v?.p0?.p1?...`: an optional chain along a path of keys. */
  function Lookup(v: Value, path: seq<string>): Value
    decreases |path|
  {
    if path == [] then v else Lookup(Get(v, path[0]), path[1..])
  }

  /** Resolution by a fixed priority list: the value at the first path whose
      value is truthy, else `fallback` -- the reading of
      `v?.p || v?.q || ... || fallback`. */
  function Resolve(v: Value, paths: seq<seq<string>>, fallback: Value): Value
    decreases |paths|
  {
    if paths == [] then fallback
    else Or(Lookup(v, paths[0]), Resolve(v, paths[1..], fallback))
  }

  /** The index of the path that wins, or |paths| when none is truthy. */
  ghost predicate FirstTruthyAt(v: Value, paths: seq<seq<string>>, i: nat) {
    i <= |paths| &&
    (i < |paths| ==> Truthy(Lookup(v, paths[i]))) &&
    forall j :: 0 <= j < i ==> !Truthy(Lookup(v, paths[j]))
  }

  /** Resolve returns the candidate at the first truthy path: every falsy
      value (0, "", false, null, a missing key) at a higher priority falls
      through to the next candidate, and the fallback is reached only when
      all candidates are falsy. */
  lemma {:induction false} ResolvePicksFirstTruthy(v: Value, paths: seq<seq<string>>, fallback: Value, i: nat)
    requires FirstTruthyAt(v, paths, i)
    ensures Resolve(v, paths, fallback) == if i < |paths| then Lookup(v, paths[i]) else fallback
    decreases |paths|
  {
    if paths != [] {
      if i > 0 {
        assert !Truthy(Lookup(v, paths[0]));
        assert FirstTruthyAt(v, paths[1..], i - 1) by {
          forall j | 0 <= j < i - 1
            ensures !Truthy(Lookup(v, paths[1..][j]))
          {
            assert paths[1..][j] == paths[j + 1];
          }
        }
        ResolvePicksFirstTruthy(v, paths[1..], fallback, i - 1);
      }
    }
  }

  /** Every value of `Resolve` is one of the candidates or the fallback, and it
      is falsy only when it is the fallback. */
  lemma {:induction false} ResolveIsCandidate(v: Value, paths: seq<seq<string>>, fallback: Value)
    ensures var r := Resolve(v, paths, fallback);
      r == fallback || exists i :: 0 <= i < |paths| && r == Lookup(v, paths[i]) && Truthy(r)
    decreases |paths|
  {
    if paths != [] {
      ResolveIsCandidate(v, paths[1..], fallback);
      var r := Resolve(v, paths, fallback);
      if !Truthy(Lookup(v, paths[0])) && r != fallback {
        var i :| 0 <= i < |paths[1..]| && r == Lookup(v, paths[1..][i]) && Truthy(r);
        assert paths[1..][i] == paths[i + 1];
      }
    }
  }

  // ---------------------------------------------------------------------------
  // Number(...)

  /** The result of `Number(v)`. `FromString(s)` stands for the numeric parse
      of the text `s`, which this model does not compute. */
  datatype Numeric = Finite(value: int) | NaN | FromString(text: string)

  /** `Number(v)`: null, false, "", `[]` and `[null]` give 0, true gives 1,
      an array of two or more elements or an object gives NaN, a one-element
      array converts through its element's string form. Of the falsy values
      only `undefined` gives NaN, and a non-zero number comes only from a
      truthy value. */
  function ToNumber(v: Value): (r: Numeric)
    ensures !Truthy(v) ==> (r == NaN <==> v.Undefined?)
    ensures !Truthy(v) && !v.Undefined? ==> r == Finite(0)
    ensures r.Finite? && r.value != 0 ==> Truthy(v)
    ensures v.Obj? ==> r == NaN
  {
    match v
    case Undefined => NaN
    case Null => Finite(0)
    case Bool(b) => Finite(if b then 1 else 0)
    case Num(n) => Finite(n)
    case Str(s) => if s == "" then Finite(0) else FromString(s)
    case Obj(_) => NaN
    case Arr(xs) =>
      if |xs| == 0 then Finite(0)
      else if |xs| > 1 then NaN
      else match xs[0]
        case Undefined => Finite(0)
        case Null => Finite(0)
        case Bool(_) => NaN
        case Num(n) => Finite(n)
        case Str(s) => if s == "" then Finite(0) else FromString(s)
        case Obj(_) => NaN
        case Arr(_) => ToNumber(xs[0])
  }

  /** `Number(x || 0)`: a field read with a zero default. It is 0 exactly when
      the candidate is falsy, is the number itself for a number, and is NaN
      only when the winning candidate is an object or a multi-element array
      (or nests one inside single-element arrays). */
  lemma NumberOrZero(x: Value)
    ensures !Truthy(x) ==> ToNumber(Or(x, Num(0))) == Finite(0)
    ensures x.Num? ==> ToNumber(Or(x, Num(0))) == Finite(x.n)
    ensures x.Obj? ==> ToNumber(Or(x, Num(0))) == NaN
    ensures x.Str? && x.s != "" ==> ToNumber(Or(x, Num(0))) == FromString(x.s)
  {
  }

  // ---------------------------------------------------------------------------
  // Decimal text of integers (template literals and String(n))

  function DigitChar(d: nat): (c: char)
    requires d < 10
    ensures '0' <= c <= '9'
  {
    "0123456789"[d]
  }

  /** The decimal numeral of a natural number, most significant digit first. */
  function Digits(n: nat): (s: string)
    ensures |s| >= 1
    ensures forall i :: 0 <= i < |s| ==> '0' <= s[i] <= '9'
  {
    if n < 10 then [DigitChar(n)] else Digits(n / 10) + [DigitChar(n % 10)]
  }

  /** The value of a string of decimal digits. */
  function DigitsValue(s: string): nat
    requires forall i :: 0 <= i < |s| ==> '0' <= s[i] <= '9'
  {
    if s == [] then 0 else 10 * DigitsValue(s[..|s| - 1]) + (s[|s| - 1] as int - '0' as int)
  }

  /** Reading the numeral back gives the number: the numeral is a faithful
      decimal rendering. */
  lemma {:induction false} DigitsRoundTrip(n: nat)
    ensures DigitsValue(Digits(n)) == n
  {
    var s := Digits(n);
    if n >= 10 {
      DigitsRoundTrip(n / 10);
      assert s[..|s| - 1] == Digits(n / 10);
    }
  }

  /** How JavaScript writes an integer: `String(n)` and `${n}`. */
  function IntText(n: int): (s: string)
    ensures |s| >= 1
    ensures (s[0] == '-') <==> n < 0
  {
    if n < 0 then "-" + Digits(-n) else Digits(n)
  }

  // ---------------------------------------------------------------------------
  // String(...)

  /** `String(v)`: arrays are joined with commas, writing null and undefined
      elements as empty text; objects read "[object Object]". Outside
      arrays, the text is empty exactly for the empty string. */
  function ToText(v: Value): (r: string)
    ensures !v.Arr? ==> (r == "" <==> v == Str(""))
    ensures v.Num? ==> (r[0] == '-' <==> v.n < 0)
    decreases v, 1
  {
    match v
    case Undefined => "undefined"
    case Null => "null"
    case Bool(b) => if b then "true" else "false"
    case Num(n) => IntText(n)
    case Str(s) => s
    case Arr(xs) => JoinElements(xs)
    case Obj(_) => "[object Object]"
  }

  function JoinElements(xs: seq<Value>): string
    decreases xs, 0
  {
    if |xs| == 0 then ""
    else
      (if Nullish(xs[0]) then "" else ToText(xs[0]))
      + (if |xs| == 1 then "" else "," + JoinElements(xs[1..]))
  }

  /** `String(x || '')`: a text field read with an empty default is empty
      exactly when the candidate is falsy, and is the string itself for a
      string. */
  lemma TextOrEmpty(x: Value)
    ensures !Truthy(x) ==> ToText(Or(x, Str(""))) == ""
    ensures x.Str? ==> ToText(Or(x, Str(""))) == x.s
    ensures x.Num? && x.n > 0 ==> DigitsValue(ToText(Or(x, Str("")))) == x.n
  {
    if x.Num? && x.n > 0 {
      DigitsRoundTrip(x.n);
    }
  }

  /** `===` between two values of separate JSON responses: primitives compare
      by value, while arrays and objects are distinct references and never equal. */
  predicate StrictEquals(a: Value, b: Value): (r: bool)
    ensures r ==> a == b
    ensures a == b && !a.Arr? && !a.Obj? ==> r
  {
    match a
    case Arr(_) => false
    case Obj(_) => false
    case _ => !b.Arr? && !b.Obj? && a == b
  }

  /** `===` is symmetric and transitive, and reflexive exactly on primitives. */
  lemma StrictEqualsIsPartialEquivalence(a: Value, b: Value, c: Value)
    ensures StrictEquals(a, b) ==> StrictEquals(b, a)
    ensures StrictEquals(a, b) && StrictEquals(b, c) ==> StrictEquals(a, c)
    ensures StrictEquals(a, a) <==> !a.Arr? && !a.Obj?
  {
  }
}
