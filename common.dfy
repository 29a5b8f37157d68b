/**
 * Shared vocabulary of the emulator model: optional and failing results,
 * the JSON values that the upstream API, the datagram protocol and the
 * WebSocket channel exchange, 16-bit words and bytes, the small set of
 * Python string operations the core relies on, and decimal rounding.
 */
module Common {

  datatype Option<+T> = None | Some(value: T) {
    function GetOr(default: T): T {
      match this
      case Some(v) => v
      case None => default
    }
  }

  datatype Result<+T, +E> = Ok(value: T) | Err(error: E)

  /** The Python exceptions the modelled code can raise or catch. */
  datatype PyError = AttributeError | TypeError | ValueError | KeyError | IndexError

  /** A 16-bit Modbus register value. */
  type Word = x: int | 0 <= x < 0x1_0000

  /** One byte of an encoded string or hardware address. */
  type Byte = x: int | 0 <= x < 0x100

  /** An unsigned 32-bit pattern (the bytes an IEEE-754 single or a uint32 occupies). */
  type Bits32 = x: int | 0 <= x < 0x1_0000_0000

  /**
   * A JSON value as Python's json module hands it over: None, bool, int,
   * float, str, list and dict with string keys.
   */
  datatype Json =
    | JNull
    | JBool(b: bool)
    | JInt(i: int)
    | JNum(r: real)
    | JStr(s: string)
    | JArr(items: seq<Json>)
    | JObj(fields: map<string, Json>)

  /** Python truthiness of a JSON value. */
  predicate Truthy(j: Json) {
    match j
    case JNull => false
    case JBool(b) => b
    case JInt(i) => i != 0
    case JNum(r) => r != 0.0
    case JStr(s) => s != ""
    case JArr(xs) => xs != []
    case JObj(m) => m != map[]
  }

  /** `d.get(key, default)` on a dict. */
  function Get(m: map<string, Json>, key: string, default: Json): (r: Json)
    ensures key in m ==> r == m[key]
    ensures key !in m ==> r == default
  {
    if key in m then m[key] else default
  }

  /** The numeric value Python compares a bool, int or float by. */
  function NumberOf(j: Json): Option<real> {
    match j
    case JBool(b) => Some(if b then 1.0 else 0.0)
    case JInt(i) => Some(i as real)
    case JNum(r) => Some(r)
    case _ => None
  }

  /**
   * Python `==` on JSON values: numbers compare by value whatever their
   * type (True == 1 == 1.0), everything else structurally.
   */
  predicate PyEq(a: Json, b: Json)
    decreases a
  {
    if NumberOf(a).Some? || NumberOf(b).Some? then
      NumberOf(a).Some? && NumberOf(b).Some? && NumberOf(a).value == NumberOf(b).value
    else
      match a
      case JNull => b.JNull?
      case JStr(s) => b.JStr? && b.s == s
      case JArr(xs) =>
        b.JArr? && |xs| == |b.items| &&
        forall i :: 0 <= i < |xs| ==> PyEq(xs[i], b.items[i])
      case JObj(m) =>
        b.JObj? && m.Keys == b.fields.Keys &&
        forall k :: k in m ==> PyEq(m[k], b.fields[k])
      case _ => false
  }

  lemma {:induction false} PyEqReflexive(a: Json)
    ensures PyEq(a, a)
    decreases a
  {
    match a
    case JArr(xs) =>
      forall i | 0 <= i < |xs| ensures PyEq(xs[i], xs[i]) {
        PyEqReflexive(xs[i]);
      }
    case JObj(m) =>
      forall k | k in m ensures PyEq(m[k], m[k]) {
        PyEqReflexive(m[k]);
      }
    case _ =>
  }

  /**
   * Python's `needle in container` on JSON values: substring on strings,
   * membership by `==` on lists, key membership on dicts (whose keys are
   * strings); a TypeError on anything else, or for an unhashable needle
   * looked up in a dict.
   */
  function PyIn(needle: Json, container: Json): (r: Result<bool, PyError>)
    ensures container.JArr? ==> r == Ok(exists i :: 0 <= i < |container.items| && PyEq(needle, container.items[i]))
    ensures container.JStr? ==> (r.Ok? <==> needle.JStr?)
    ensures container.JObj? ==> (r.Err? <==> needle.JArr? || needle.JObj?)
    ensures container.JObj? && needle.JStr? ==> r == Ok(needle.s in container.fields)
    ensures !(container.JArr? || container.JStr? || container.JObj?) ==> r == Err(TypeError)
  {
    match container
    case JStr(c) => if needle.JStr? then Ok(IsSubstring(needle.s, c)) else Err(TypeError)
    case JArr(xs) => Ok(exists i :: 0 <= i < |xs| && PyEq(needle, xs[i]))
    case JObj(m) =>
      if needle.JArr? || needle.JObj? then Err(TypeError)
      else Ok(needle.JStr? && needle.s in m)
    case _ => Err(TypeError)
  }

  // ---------------------------------------------------------------------
  // Strings

  predicate StartsWith(s: string, prefix: string) {
    |prefix| <= |s| && s[..|prefix|] == prefix
  }

  predicate EndsWith(s: string, suffix: string) {
    |suffix| <= |s| && s[|s| - |suffix|..] == suffix
  }

  /** `needle in haystack` for two Python strings. */
  predicate IsSubstring(needle: string, haystack: string) {
    exists i :: 0 <= i <= |haystack| - |needle| && OccursAt(needle, haystack, i)
  }

  predicate OccursAt(needle: string, haystack: string, i: int) {
    0 <= i <= |haystack| - |needle| && haystack[i..i + |needle|] == needle
  }

  function LowerChar(c: char): char {
    if 'A' <= c <= 'Z' then (c as int + 32) as char else c
  }

  function UpperChar(c: char): char {
    if 'a' <= c <= 'z' then (c as int - 32) as char else c
  }

  /** `str.lower()` restricted to ASCII letters (other characters are kept). */
  function Lower(s: string): (r: string)
    ensures |r| == |s|
    ensures forall i :: 0 <= i < |s| ==> r[i] == LowerChar(s[i])
  {
    if s == [] then [] else [LowerChar(s[0])] + Lower(s[1..])
  }

  /** `str.upper()` restricted to ASCII letters (other characters are kept). */
  function Upper(s: string): (r: string)
    ensures |r| == |s|
    ensures forall i :: 0 <= i < |s| ==> r[i] == UpperChar(s[i])
  {
    if s == [] then [] else [UpperChar(s[0])] + Upper(s[1..])
  }

  /** `s.replace(c, "")` for a one-character `c`. */
  function RemoveChar(s: string, c: char): (r: string)
    ensures c !in r
    ensures |r| <= |s|
    ensures forall x :: x in r <==> x in s && x != c
  {
    if s == [] then []
    else if s[0] == c then RemoveChar(s[1..], c)
    else [s[0]] + RemoveChar(s[1..], c)
  }

  /** `s.rstrip(c)` for a one-character `c`. */
  function RStrip(s: string, c: char): (r: string)
    ensures |r| <= |s| && r == s[..|r|]
    ensures r == [] || r[|r| - 1] != c
    ensures forall i :: |r| <= i < |s| ==> s[i] == c
  {
    if s == [] || s[|s| - 1] != c then s else RStrip(s[..|s| - 1], c)
  }

  // ---------------------------------------------------------------------
  // Decimal rounding

  function Pow10(d: nat): (r: nat)
    ensures r >= 1
  {
    if d == 0 then 1 else 10 * Pow10(d - 1)
  }

  /** `int(x)`: truncation toward zero. */
  function Trunc(x: real): int {
    if x >= 0.0 then x.Floor else -((-x).Floor)
  }

  predicate IsInteger(x: real) {
    x.Floor as real == x
  }

  /** The integer nearest to `x`, ties to the even neighbour. */
  function RoundHalfEven(x: real): (k: int)
    ensures -(1.0 / 2.0) <= k as real - x <= 1.0 / 2.0
  {
    var f := x.Floor;
    var frac := x - f as real;
    if frac < 1.0 / 2.0 then f
    else if frac > 1.0 / 2.0 then f + 1
    else if f % 2 == 0 then f else f + 1
  }

  /**
   * Python's `round(x, d)` on the exact decimal value `x`: the nearest
   * multiple of 10^-d, ties to even. Lemmas about callers use only what the
   * contract and RoundDigitsOnGrid say: the result lies within half a step
   * of `x` and is a whole number of steps.
   */
  function RoundDigits(x: real, d: nat): (r: real)
    ensures -(1.0 / 2.0) <= (r - x) * (Pow10(d) as real) <= 1.0 / 2.0
  {
    RoundHalfEven(x * (Pow10(d) as real)) as real / (Pow10(d) as real)
  }

  /** The rounded value is a whole multiple of 10^-d. */
  lemma RoundDigitsOnGrid(x: real, d: nat)
    ensures IsInteger(RoundDigits(x, d) * (Pow10(d) as real))
  {
    var k := RoundHalfEven(x * (Pow10(d) as real));
    var p := RoundDigits(x, d) * (Pow10(d) as real);
    assert p == k as real;
    assert (k as real).Floor == k;
  }

}
