/**
  The fragment of JavaScript value semantics that `src/lib/matrix-api.js`
  relies on: the values `JSON.parse` can produce plus `undefined`, property
  reads (which throw on `null` and `undefined`), truthiness as used by `||`
  and `if`, the canonical decimal property keys through which `x[0]` reads
  element 0, and the string conversion a template literal applies.
 */
module Js {

  datatype Option<+T> = None | Some(value: T)

  /** A JavaScript value of the kinds JSON produces, plus `undefined`.
      Numbers are kept as exact reals: JSON text never yields NaN. */
  datatype Json =
    | Undefined
    | Null
    | Bool(b: bool)
    | Num(n: real)
    | Str(s: string)
    | Arr(items: seq<Json>)
    | Obj(fields: map<string, Json>)

  /** Reading a property of these two values throws a TypeError. */
  predicate Nullish(v: Json) {
    v.Undefined? || v.Null?
  }

  /** ToBoolean, as `a || b` and `if (a)` apply it. */
  predicate Truthy(v: Json)
    ensures Truthy(v) ==> !Nullish(v)
    ensures v.Str? ==> (Truthy(v) <==> v.s != "")
    ensures v.Arr? || v.Obj? ==> Truthy(v)
  {
    match v
    case Undefined => false
    case Null => false
    case Bool(b) => b
    case Num(n) => n != 0.0
    case Str(s) => s != ""
    case Arr(_) => true
    case Obj(_) => true
  }

  /** The outcome of evaluating one property read `v[key]`. */
  datatype Access = Throws | Value(v: Json)

  // ---------------------------------------------------------------------
  // Canonical numeric property keys: `x[0]` reads the property named "0".
  // ---------------------------------------------------------------------

  predicate IsDigit(c: char) {
    '0' <= c <= '9'
  }

  predicate AllDigits(s: string) {
    forall i :: 0 <= i < |s| ==> IsDigit(s[i])
  }

  function DigitChar(d: nat): (c: char)
    requires d < 10
    ensures IsDigit(c) && c as int - '0' as int == d
  {
    ('0' as int + d) as char
  }

  /** The value of a string of decimal digits, read most significant first. */
  function DigitsValue(s: string): nat
    requires AllDigits(s)
  {
    if s == [] then 0
    else DigitsValue(s[..|s| - 1]) * 10 + (s[|s| - 1] as int - '0' as int)
  }

  /** The property key JavaScript uses for the number `n`: its decimal
      representation without leading zeros. */
  function NatKey(n: nat): (key: string)
    decreases n
  {
    if n < 10 then [DigitChar(n)]
    else NatKey(n / 10) + [DigitChar(n % 10)]
  }

  /** The array index a property key denotes, if any: keys that are the
      canonical decimal form of a natural number. */
  function IndexKey(key: string): (r: Option<nat>)
  {
    if key != [] && AllDigits(key) && (key[0] != '0' || key == "0")
    then Some(DigitsValue(key))
    else None
  }

  lemma {:induction false} NatKeyShape(n: nat)
    ensures |NatKey(n)| >= 1 && AllDigits(NatKey(n))
    ensures NatKey(n)[0] != '0' || n == 0
    ensures n == 0 ==> NatKey(n) == "0"
    ensures DigitsValue(NatKey(n)) == n
    decreases n
  {
    if n >= 10 {
      NatKeyShape(n / 10);
      var s := NatKey(n);
      assert s == NatKey(n / 10) + [DigitChar(n % 10)];
      assert s[..|s| - 1] == NatKey(n / 10);
    }
  }

  lemma {:induction false} CanonicalDigitsPositive(s: string)
    requires s != [] && AllDigits(s) && s[0] != '0'
    ensures DigitsValue(s) >= 1
    decreases |s|
  {
    if |s| > 1 {
      CanonicalDigitsPositive(s[..|s| - 1]);
    }
  }

  lemma {:induction false} CanonicalKeyIsNatKey(s: string)
    requires s != [] && AllDigits(s) && (s[0] != '0' || s == "0")
    ensures NatKey(DigitsValue(s)) == s
    decreases |s|
  {
    if |s| > 1 {
      var p := s[..|s| - 1];
      assert s == p + [s[|s| - 1]];
      CanonicalDigitsPositive(p);
      CanonicalKeyIsNatKey(p);
    }
  }

  /** Property keys and array indices correspond one to one: a key denotes
      index `n` exactly when it is the key JavaScript writes for `n`. */
  lemma {:induction false} IndexKeyIsNatKeyInverse(key: string, n: nat)
    ensures IndexKey(key) == Some(n) <==> key == NatKey(n)
  {
    NatKeyShape(n);
    if IndexKey(key) == Some(n) {
      CanonicalKeyIsNatKey(key);
    }
  }

  // ---------------------------------------------------------------------
  // Property reads
  // ---------------------------------------------------------------------

  /** `v[key]` for a value that is neither null nor undefined. Booleans and
      numbers have none of the keys read here; strings and arrays answer
      their index keys; objects answer their own fields. Every other key
      reads as `undefined`. */
  function Member(v: Json, key: string): (r: Json)
    requires !Nullish(v)
    ensures v.Obj? ==> r == (if key in v.fields then v.fields[key] else Undefined)
    ensures v.Arr? ==> (r != Undefined ==> exists i :: 0 <= i < |v.items| && r == v.items[i])
    ensures v.Str? ==> (r != Undefined ==> exists i :: 0 <= i < |v.s| && r == Str([v.s[i]]))
    ensures v.Bool? || v.Num? ==> r == Undefined
  {
    match v
    case Bool(_) => Undefined
    case Num(_) => Undefined
    case Str(s) =>
      (match IndexKey(key)
       case Some(i) => if i < |s| then Str([s[i]]) else Undefined
       case None => Undefined)
    case Arr(xs) =>
      (match IndexKey(key)
       case Some(i) => if i < |xs| then xs[i] else Undefined
       case None => Undefined)
    case Obj(m) => if key in m then m[key] else Undefined
  }

  /** `v[key]` as an expression that may throw. */
  function Get(v: Json, key: string): (a: Access)
    ensures a.Throws? <==> Nullish(v)
  {
    if Nullish(v) then Throws else Value(Member(v, key))
  }

  /** `e[key]` where `e` is itself an expression that may have thrown: an
      exception propagates, otherwise the read is evaluated. */
  function Then(a: Access, key: string): (r: Access)
    ensures a.Throws? ==> r.Throws?
  {
    match a
    case Throws => Throws
    case Value(v) => Get(v, key)
  }

  /** `xs[0]` on a non-empty array reads its first element. */
  lemma FirstElement(xs: seq<Json>)
    requires |xs| > 0
    ensures Member(Arr(xs), NatKey(0)) == xs[0]
  {
    ArrayElement(xs, 0);
  }

  /** Element `n` of an array is the property read with key NatKey(n). */
  lemma ArrayElement(xs: seq<Json>, n: nat)
    requires n < |xs|
    ensures Member(Arr(xs), NatKey(n)) == xs[n]
  {
    IndexKeyIsNatKeyInverse(NatKey(n), n);
  }

  // ---------------------------------------------------------------------
  // String conversion, as `${v}` in a template literal applies it
  // ---------------------------------------------------------------------

  /** Whether `${v}` throws. An object from JSON is converted by calling its
      `toString` and then its `valueOf`; an own field named "toString" (never
      callable in JSON) hides the inherited method, and the inherited
      `valueOf` yields the object itself, so the conversion throws a
      TypeError. An array is converted by joining its items, so it throws when
      an item that is neither null nor undefined does. */
  predicate ConversionThrows(v: Json)
    decreases v
  {
    match v
    case Obj(m) => "toString" in m
    case Arr(xs) => exists i :: 0 <= i < |xs| && !Nullish(xs[i]) && ConversionThrows(xs[i])
    case _ => false
  }

  /** An array item makes the join throw: it is converted and that throws. */
  predicate ItemThrows(x: Json) {
    !Nullish(x) && ConversionThrows(x)
  }

  /** ToString as `${v}` applies it: None when it throws. Number formatting
      is the engine's and is passed in as `showNumber`. An array prints as
      its items joined with ",", where null and undefined items print as the
      empty string. */
  function ToString(v: Json, showNumber: real -> string): (r: Option<string>)
    ensures r.None? <==> ConversionThrows(v)
    ensures v.Str? ==> r == Some(v.s)
    ensures v.Undefined? ==> r == Some("undefined")
    ensures v.Obj? && r.Some? ==> r.value == "[object Object]"
    decreases v
  {
    match v
    case Undefined => Some("undefined")
    case Null => Some("null")
    case Bool(b) => if b then Some("true") else Some("false")
    case Num(n) => Some(showNumber(n))
    case Str(s) => Some(s)
    case Arr(xs) => JoinItems(xs, showNumber)
    case Obj(m) => if "toString" in m then None else Some("[object Object]")
  }

  /** `items.join(",")`, evaluated left to right: the first item whose
      conversion throws makes the whole join throw. */
  function JoinItems(xs: seq<Json>, showNumber: real -> string): (r: Option<string>)
    ensures r.None? <==> exists i :: 0 <= i < |xs| && ItemThrows(xs[i])
    decreases xs
  {
    if xs == [] then Some("")
    else
      var head := if Nullish(xs[0]) then Some("") else ToString(xs[0], showNumber);
      if head.None? then None
      else if |xs| == 1 then head
      else
        var tail := JoinItems(xs[1..], showNumber);
        assert forall i :: 1 <= i < |xs| ==> xs[i] == xs[1..][i - 1];
        if tail.None? then None else Some(head.value + "," + tail.value)
  }
}
