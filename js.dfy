/**
 * JavaScript values as the handlers see them once a body has been decoded:
 * JSON values, JavaScript truthiness, property reads (with and without
 * optional chaining), and the two string conversions the handlers use
 * (template-literal interpolation and Number.prototype.toFixed).
 */
module Js {
  import opened Wrappers

  /** A value produced by JSON.parse. Numbers are kept as exact reals. */
  datatype Json =
    | Null
    | Bool(b: bool)
    | Num(n: real)
    | Str(s: string)
    | Arr(items: seq<Json>)
    | Obj(fields: map<string, Json>)

  /** JavaScript truthiness; `None` stands for `undefined`. */
  predicate Truthy(v: Option<Json>)
  {
    match v
    case None => false
    case Some(Null) => false
    case Some(Bool(b)) => b
    case Some(Num(n)) => n != 0.0
    case Some(Str(s)) => s != ""
    case Some(Arr(_)) => true
    case Some(Obj(_)) => true
  }

  /** `a || b` where `b` is always defined. */
  function Or(a: Option<Json>, b: Json): Json
  {
    if Truthy(a) then a.value else b
  }

  /**
   * `v?.key`: undefined when `v` is undefined or null, otherwise the own
   * property `key`. Only objects carry the keys the handlers read; numbers,
   * strings, booleans and arrays yield undefined for them.
   */
  function Property(v: Option<Json>, key: string): Option<Json>
  {
    match v
    case Some(Obj(m)) => if key in m then Some(m[key]) else None
    case _ => None
  }

  /** The TypeError message V8 gives for reading `key` of null. */
  function NullReadMessage(key: string): string
  {
    "Cannot read properties of null (reading '" + key + "')"
  }

  /** `v.key` on a defined value: reading a property of null throws. */
  function Dot(v: Json, key: string): Result<Option<Json>>
  {
    if v == Null then Err(NullReadMessage(key)) else Ok(Property(Some(v), key))
  }

  /**
   * `items.map(f)` where the callback may throw: the first element whose
   * callback throws aborts the whole map with that error; otherwise the
   * results keep the length and order of the input.
   */
  function MapOrThrow<A, B(==)>(f: A -> Result<B>, items: seq<A>): (r: Result<seq<B>>)
    ensures r.Ok? <==> forall i :: 0 <= i < |items| ==> f(items[i]).Ok?
    ensures r.Ok? ==> |r.value| == |items|
    ensures r.Ok? ==> forall i :: 0 <= i < |items| ==> f(items[i]) == Ok(r.value[i])
    ensures r.Err? ==> exists i :: 0 <= i < |items| && f(items[i]) == Err(r.error)
                                   && forall j :: 0 <= j < i ==> f(items[j]).Ok?
  {
    if items == [] then Ok([])
    else
      match f(items[0])
      case Err(message) => Err(message)
      case Ok(head) =>
        var tail := MapOrThrow(f, items[1..]);
        assert forall i :: 1 <= i < |items| ==> items[i] == items[1..][i - 1];
        match tail
        case Err(message) =>
          var k :| 0 <= k < |items[1..]| && f(items[1..][k]) == Err(message)
                   && forall j :: 0 <= j < k ==> f(items[1..][j]).Ok?;
          assert f(items[k + 1]) == Err(message);
          Err(message)
        case Ok(rest) => Ok([head] + rest)
  }

  /** `s.startsWith(prefix)` */
  predicate StartsWith(s: string, prefix: string)
  {
    |prefix| <= |s| && s[..|prefix|] == prefix
  }

  /** `s.includes(sub)` */
  predicate Contains(s: string, sub: string)
    decreases |s|
  {
    StartsWith(s, sub) || (|s| > 0 && Contains(s[1..], sub))
  }

  lemma {:induction false} ContainsNeedsRoom(s: string, sub: string)
    requires Contains(s, sub)
    ensures |sub| <= |s|
    decreases |s|
  {
    if !StartsWith(s, sub) {
      ContainsNeedsRoom(s[1..], sub);
    }
  }

  /** A string contains every one of its infixes. */
  lemma {:induction false} ContainsInfix(a: string, b: string, c: string)
    ensures Contains(a + b + c, b)
    decreases |a|
  {
    var s := a + b + c;
    if a == [] {
      assert s[..|b|] == b;
    } else {
      assert s[1..] == a[1..] + b + c;
      ContainsInfix(a[1..], b, c);
    }
  }

  function DigitChar(d: nat): char
    requires d < 10
  {
    "0123456789"[d]
  }

  /** Decimal digits of a natural number, without leading zeros. */
  function NatToString(n: nat): (r: string)
    ensures |r| >= 1
    ensures forall i :: 0 <= i < |r| ==> '0' <= r[i] <= '9'
    ensures n >= 10 ==> r[0] != '0'
    decreases n
  {
    if n < 10 then [DigitChar(n)] else NatToString(n / 10) + [DigitChar(n % 10)]
  }

  /** `${n}` for an integral number. */
  function IntToString(n: int): string
  {
    if n < 0 then "-" + NatToString(-n) else NatToString(n)
  }

  function Pow10(k: nat): (r: nat)
    ensures r >= 1
  {
    if k == 0 then 1 else 10 * Pow10(k - 1)
  }

  function Zeros(k: nat): (r: string)
    ensures |r| == k
    ensures forall i :: 0 <= i < k ==> r[i] == '0'
  {
    if k == 0 then "" else "0" + Zeros(k - 1)
  }

  /**
   * Number.prototype.toFixed(f) of ECMA-262 (section 21.1.3.3 of the 2023
   * edition), taken over the exact value x: the integer n nearest to
   * x * 10^f (the larger one on a tie), written with f digits after the point
   * and a leading "-" whenever x is negative.
   */
  function ToFixed(x: real, f: nat): (r: string)
    ensures f > 0 ==> |r| >= f + 2 && r[|r| - f - 1] == '.'
    ensures f > 0 ==> forall i :: |r| - f <= i < |r| ==> '0' <= r[i] <= '9'
    ensures |r| >= 1 && (x < 0.0) == (r[0] == '-')
  {
    if x < 0.0 then "-" + FixedMagnitude(-x, f) else FixedMagnitude(x, f)
  }

  function FixedMagnitude(x: real, f: nat): (r: string)
    requires x >= 0.0
    ensures |r| >= 1 && r[0] != '-'
    ensures f > 0 ==> |r| >= f + 2 && r[|r| - f - 1] == '.'
    ensures f > 0 ==> forall i :: |r| - f <= i < |r| ==> '0' <= r[i] <= '9'
  {
    var n := (x * (Pow10(f) as real) + 0.5).Floor;
    var m := NatToString(n);
    if f == 0 then m
    else
      var padded := if |m| <= f then Zeros(f + 1 - |m|) + m else m;
      padded[..|padded| - f] + "." + padded[|padded| - f..]
  }

  /** Most fractional digits written when a non-integral number is interpolated. */
  const MaxFractionDigits: nat := 17

  /**
   * `${x}` for a number: integral values in plain decimal, others as their
   * exact decimal expansion cut after MaxFractionDigits digits.
   */
  function NumberText(x: real): string
  {
    var mag := if x < 0.0 then -x else x;
    var whole := mag.Floor;
    var frac := mag - whole as real;
    (if x < 0.0 then "-" else "") + NatToString(whole)
      + (if frac == 0.0 then "" else "." + FractionDigits(frac, MaxFractionDigits))
  }

  function FractionDigits(frac: real, fuel: nat): string
    requires 0.0 <= frac < 1.0
    decreases fuel
  {
    if fuel == 0 || frac == 0.0 then ""
    else
      var d := (frac * 10.0).Floor;
      [DigitChar(d)] + FractionDigits(frac * 10.0 - d as real, fuel - 1)
  }

  /** `${v}` in a template literal; `None` is undefined. */
  function JsText(v: Option<Json>): string
  {
    match v
    case None => "undefined"
    case Some(j) => ValueText(j)
  }

  function ValueText(v: Json): string
    decreases v, 1
  {
    match v
    case Null => "null"
    case Bool(b) => if b then "true" else "false"
    case Num(n) => NumberText(n)
    case Str(s) => s
    case Arr(items) => JoinText(items, v)
    case Obj(_) => "[object Object]"
  }

  /** Array.prototype.join(",") as String(array) uses it: null elements print empty. */
  function JoinText(items: seq<Json>, ghost whole: Json): string
    requires whole.Arr? && items <= whole.items
    decreases whole, 0, |items|
  {
    if items == [] then ""
    else
      var last := items[|items| - 1];
      var head := JoinText(items[..|items| - 1], whole);
      var text := if last == Null then "" else ValueText(last);
      if |items| == 1 then text else head + "," + text
  }
}
