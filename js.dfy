/**
 * JavaScript values as the dashboard client sees them: parsed JSON plus
 * `undefined`, with the few operators of the language the client's state
 * layer relies on (truthiness, `typeof`, property reads, object spread and
 * the conversion of a value to a property key).
 */
module Js {

  datatype Option<T> = None | Some(value: T)

  /** A JavaScript value. Numbers are reals: JSON has no NaN or infinities. */
  datatype Value =
    | Undefined
    | Null
    | Bool(b: bool)
    | Num(x: real)
    | Str(s: string)
    | Arr(items: seq<Value>)
    | Obj(fields: map<string, Value>)

  /** The `typeof` operator. */
  function TypeOf(v: Value): string
  {
    match v
    case Undefined => "undefined"
    case Null => "object"
    case Bool(_) => "boolean"
    case Num(_) => "number"
    case Str(_) => "string"
    case Arr(_) => "object"
    case Obj(_) => "object"
  }

  /** JavaScript truthiness (`!!v`). */
  predicate Truthy(v: Value)
  {
    match v
    case Undefined => false
    case Null => false
    case Bool(b) => b
    case Num(x) => x != 0.0
    case Str(s) => s != ""
    case Arr(_) => true
    case Obj(_) => true
  }

  /** `isPlainObject` of app.js: truthy, of type "object" and not an array. */
  predicate IsPlainObject(v: Value)
    ensures IsPlainObject(v) <==> v.Obj?
  {
    Truthy(v) && TypeOf(v) == "object" && !v.Arr?
  }

  /**
   * `v.k` for the named properties this client reads (never `length`, an
   * index or a prototype member): an object's own entry, `undefined`
   * otherwise. The client only reads properties of values it has first
   * tested for truthiness or of its own state, so the TypeError of reading
   * a property of null or undefined is modelled where it can happen (see
   * Updates.ReceiveElo).
   */
  function Prop(v: Value, k: string): Value
  {
    if v.Obj? && k in v.fields then v.fields[k] else Undefined
  }

  /** `v[i]` for an array, a string or an object, `undefined` for the rest. */
  function Member(v: Value, i: nat): Value
  {
    match v
    case Arr(xs) => if i < |xs| then xs[i] else Undefined
    case Str(s) => if i < |s| then Str([s[i]]) else Undefined
    case Obj(m) => if NatToString(i) in m then m[NatToString(i)] else Undefined
    case _ => Undefined
  }

  /** The own enumerable properties copied by `{ ...v }`. */
  function Spread(v: Value): map<string, Value>
  {
    match v
    case Obj(m) => m
    case Arr(xs) => Indexed(xs, 0)
    case Str(s) => Indexed(seq(|s|, i requires 0 <= i < |s| => Str([s[i]])), 0)
    case _ => map[]
  }

  /** The properties "from", "from + 1", ... of an array-like whose elements are `xs[from..]`. */
  function Indexed(xs: seq<Value>, from: nat): (m: map<string, Value>)
    requires from <= |xs|
    ensures forall i :: from <= i < |xs| ==> NatToString(i) in m
    decreases |xs| - from
  {
    if from == |xs| then map[] else Indexed(xs, from + 1)[NatToString(from) := xs[from]]
  }

  predicate IsDigit(c: char)
  {
    '0' <= c <= '9'
  }

  predicate AllDigits(s: string)
  {
    forall i :: 0 <= i < |s| ==> IsDigit(s[i])
  }

  function DigitChar(d: nat): (c: char)
    requires d < 10
    ensures IsDigit(c) && (c as int) - ('0' as int) == d
  {
    (('0' as int) + d) as char
  }

  /** The decimal text of a natural number, as template literals print it. */
  function NatToString(n: nat): (s: string)
    ensures |s| >= 1 && AllDigits(s)
    ensures s[0] == '0' ==> n == 0
    decreases n
  {
    if n < 10 then [DigitChar(n)] else NatToString(n / 10) + [DigitChar(n % 10)]
  }

  /** The value of a string of decimal digits. */
  function ParseDigits(s: string): nat
    requires AllDigits(s)
    decreases |s|
  {
    if s == [] then 0 else ParseDigits(s[..|s| - 1]) * 10 + ((s[|s| - 1] as int) - ('0' as int))
  }

  /** Printing a natural number and reading it back gives the number. */
  lemma {:induction false} ParseNatToString(n: nat)
    ensures ParseDigits(NatToString(n)) == n
    decreases n
  {
    if n >= 10 {
      var s := NatToString(n);
      assert s[..|s| - 1] == NatToString(n / 10);
      ParseNatToString(n / 10);
    }
  }

  /** Distinct numbers print differently, so index keys never collide. */
  lemma NatToStringInjective(m: nat, n: nat)
    requires NatToString(m) == NatToString(n)
    ensures m == n
  {
    ParseNatToString(m);
    ParseNatToString(n);
  }

  /** The decimal text of an integer. */
  function IntToString(i: int): (s: string)
    ensures i >= 0 ==> s == NatToString(i)
    ensures i < 0 ==> s == "-" + NatToString(-i)
  {
    if i >= 0 then NatToString(i) else "-" + NatToString(-i)
  }

  /** Distinct integers, negative ones included, print differently. */
  lemma IntToStringInjective(a: int, b: int)
    requires IntToString(a) == IntToString(b)
    ensures a == b
  {
    var s := IntToString(a);
    if a >= 0 && b >= 0 {
      NatToStringInjective(a, b);
    } else if a < 0 && b < 0 {
      assert NatToString(-a) == s[1..] == NatToString(-b);
      NatToStringInjective(-a, -b);
    }
    // otherwise one text starts with '-' and the other with a digit
  }

  /**
   * `String(v)` where `v` is used as a property key (`live[key]`).
   * Integral numbers below 10^21 print in decimal; what JavaScript prints
   * for any other number is not modelled and gives a fixed placeholder.
   */
  function KeyString(v: Value): string
  {
    match v
    case Undefined => "undefined"
    case Null => "null"
    case Bool(b) => if b then "true" else "false"
    case Num(x) =>
      if x == x.Floor as real && -1_000_000_000_000_000_000_000 < x.Floor < 1_000_000_000_000_000_000_000
      then IntToString(x.Floor) else "<number>"
    case Str(s) => s
    case Arr(xs) => Join(xs)
    case Obj(_) => "[object Object]"
  }

  /** `Array.prototype.join(",")` as `String` applies it to an array: holes, null and undefined print as "". */
  function Join(xs: seq<Value>): string
    decreases xs
  {
    if xs == [] then ""
    else
      var last := xs[|xs| - 1];
      var text := if last.Undefined? || last.Null? then "" else KeyString(last);
      if |xs| == 1 then text else Join(xs[..|xs| - 1]) + "," + text
  }
}
