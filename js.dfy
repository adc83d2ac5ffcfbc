/**
 * The fragment of JavaScript value semantics the services rely on: JSON-like
 * values, truthiness (`!x`), property access, `Object.keys(x).length`,
 * `String(x)` and `parseInt(s, 10)`, and the string tests used on error
 * messages (`startsWith`, `includes`).
 */
module Js {

  /** A JavaScript number restricted to integers and NaN. */
  datatype Number = NaN | Int(i: int)

  /** A JavaScript value as it flows through request and response bodies. */
  datatype Value =
    | Undefined
    | Null
    | Bool(b: bool)
    | Num(n: Number)
    | Str(s: string)
    | Arr(items: seq<Value>)
    | Obj(fields: map<string, Value>)

  /** A JavaScript object literal with string keys. */
  type Record = map<string, Value>

  function IntValue(n: int): Value { Num(Int(n)) }

  /** `!!v`: false for undefined, null, false, 0, NaN and "". */
  predicate Truthy(v: Value) {
    match v
    case Undefined => false
    case Null => false
    case Bool(b) => b
    case Num(n) => n.Int? && n.i != 0
    case Str(s) => s != ""
    case Arr(_) => true
    case Obj(_) => true
  }

  /**
   * `v[k]` for the own data properties of a parsed JSON object; every other
   * value has none of the keys the services look up.
   */
  function Prop(v: Value, k: string): (r: Value)
    ensures r != Undefined ==> v.Obj? && k in v.fields && r == v.fields[k]
    ensures v.Obj? && k in v.fields ==> r == v.fields[k]
  {
    if v.Obj? && k in v.fields then v.fields[k] else Undefined
  }

  /** `a || b` */
  function Or(a: Value, b: Value): (r: Value)
    ensures Truthy(a) ==> r == a
    ensures !Truthy(a) ==> r == b
  {
    if Truthy(a) then a else b
  }

  /** `Object.keys(v).length` for a value that is not null or undefined. */
  function KeyCount(v: Value): nat {
    match v
    case Obj(m) => |m.Keys|
    case Arr(xs) => |xs|
    case Str(s) => |s|
    case _ => 0
  }

  /** `v && Object.keys(v).length > 0`: a body worth forwarding. */
  predicate HasKeys(v: Value) {
    Truthy(v) && KeyCount(v) > 0
  }

  /** `typeof v === 'object'` (true for null, arrays and objects). */
  predicate IsObjectType(v: Value) {
    v.Null? || v.Arr? || v.Obj?
  }

  /** The fields `{ ...v }` takes from `v`: an object's own fields; null, undefined and, in this model, every non-object add none. */
  function Spread(v: Value): Record {
    if v.Obj? then v.fields else map[]
  }

  // ---------------------------------------------------------------------------
  // Decimal formatting and parseInt

  function DigitChar(d: int): char
    requires 0 <= d < 10
  {
    "0123456789"[d]
  }

  predicate IsDigit(c: char) { '0' <= c <= '9' }

  predicate AllDigits(s: string) { forall i :: 0 <= i < |s| ==> IsDigit(s[i]) }

  function DigitOf(c: char): (d: nat)
    requires IsDigit(c)
    ensures d < 10
  {
    (c as int) - ('0' as int)
  }

  /** The decimal digits of a natural number, most significant first. */
  function NatToString(n: nat): (s: string)
    ensures |s| > 0 && AllDigits(s)
    decreases n
  {
    if n < 10 then [DigitChar(n)] else NatToString(n / 10) + [DigitChar(n % 10)]
  }

  /** `String(n)` for an integer. */
  function IntToString(n: int): (s: string)
    ensures |s| > 0
    ensures n >= 0 ==> s == NatToString(n)
    ensures n < 0 ==> s == "-" + NatToString(-n)
  {
    if n < 0 then "-" + NatToString(-n) else NatToString(n)
  }

  /** `String(v)`, also what a template literal `${v}` produces. */
  function ToString(v: Value): string
    decreases v, 1, 0
  {
    match v
    case Undefined => "undefined"
    case Null => "null"
    case Bool(b) => if b then "true" else "false"
    case Num(NaN) => "NaN"
    case Num(Int(n)) => IntToString(n)
    case Str(s) => s
    case Arr(_) => JoinFrom(v, 0)
    case Obj(_) => "[object Object]"
  }

  /** `Array.prototype.join(',')` from index i on; null and undefined become "". */
  function JoinFrom(v: Value, i: nat): string
    requires v.Arr? && i <= |v.items|
    decreases v, 0, |v.items| - i
  {
    if i == |v.items| then ""
    else
      var x := v.items[i];
      assert x < v;
      var here := if x.Null? || x.Undefined? then "" else ToString(x);
      if i + 1 == |v.items| then here else here + "," + JoinFrom(v, i + 1)
  }

  /** The characters `parseInt` skips before the number (StrWhiteSpaceChar). */
  predicate IsSpace(c: char) {
    || c == ' ' || c == '\t' || c == '\n' || c == '\r' || c == '\U{000B}' || c == '\U{000C}'
    || c == '\U{00A0}' || c == '\U{1680}' || ('\U{2000}' <= c <= '\U{200A}')
    || c == '\U{2028}' || c == '\U{2029}' || c == '\U{202F}' || c == '\U{205F}'
    || c == '\U{3000}' || c == '\U{FEFF}'
  }

  /** The string without its leading white space. */
  function TrimStart(s: string): (r: string)
    ensures |r| <= |s| && r == s[|s| - |r|..]
    ensures r == [] || !IsSpace(r[0])
  {
    if s != [] && IsSpace(s[0]) then TrimStart(s[1..]) else s
  }

  /** The longest prefix of s made of decimal digits. */
  function DigitPrefix(s: string): (r: string)
    ensures AllDigits(r)
    ensures |r| <= |s| && r == s[..|r|]
    ensures |r| < |s| ==> !IsDigit(s[|r|])
  {
    if s != [] && IsDigit(s[0]) then [s[0]] + DigitPrefix(s[1..]) else []
  }

  /** The value of a string of decimal digits. */
  function DigitsValue(ds: string): nat
    requires AllDigits(ds)
  {
    if ds == [] then 0 else DigitsValue(ds[..|ds| - 1]) * 10 + DigitOf(ds[|ds| - 1])
  }

  /** The digits at the start of u, read as a number, or NaN when there are none. */
  function ParseDigits(u: string): Number {
    var ds := DigitPrefix(u);
    if ds == [] then NaN else Int(DigitsValue(ds))
  }

  function Negate(n: Number): Number {
    if n.Int? then Int(-n.i) else NaN
  }

  /** An optional sign followed by digits. */
  function ParseSigned(t: string): Number {
    if t != [] && t[0] == '-' then Negate(ParseDigits(t[1..]))
    else if t != [] && t[0] == '+' then ParseDigits(t[1..])
    else ParseDigits(t)
  }

  /** `parseInt(s, 10)`. */
  function ParseInt(s: string): Number {
    ParseSigned(TrimStart(s))
  }

  /** `parseInt(v, 10)` for any value: the argument is converted with String first. */
  function ParseIntValue(v: Value): Number {
    ParseInt(ToString(v))
  }

  /** `isNaN(n)` */
  predicate IsNaN(n: Number) { n.NaN? }

  lemma {:induction false} DigitPrefixOfDigits(s: string)
    requires AllDigits(s)
    ensures DigitPrefix(s) == s
  {
    if s != [] {
      DigitPrefixOfDigits(s[1..]);
    }
  }

  lemma {:induction false} NatToStringValue(n: nat)
    ensures DigitsValue(NatToString(n)) == n
    decreases n
  {
    var s := NatToString(n);
    if n >= 10 {
      NatToStringValue(n / 10);
      assert s[..|s| - 1] == NatToString(n / 10);
    }
  }

  lemma TrimStartNoSpace(s: string)
    requires s != [] && !IsSpace(s[0])
    ensures TrimStart(s) == s
  {
  }

  lemma ParseIntOfDigits(ds: string)
    requires ds != [] && AllDigits(ds)
    ensures ParseInt(ds) == Int(DigitsValue(ds))
  {
    assert IsDigit(ds[0]);
    TrimStartNoSpace(ds);
    DigitPrefixOfDigits(ds);
  }

  lemma ParseIntOfNegativeDigits(s: string)
    requires |s| > 1 && s[0] == '-' && AllDigits(s[1..])
    ensures ParseInt(s) == Int(-(DigitsValue(s[1..]) as int))
  {
    TrimStartNoSpace(s);
    DigitPrefixOfDigits(s[1..]);
  }

  /** parseInt reads back every integer that String wrote. */
  lemma ParseIntToString(n: int)
    ensures ParseInt(IntToString(n)) == Int(n)
  {
    var m: nat := if n < 0 then -n else n;
    if n < 0 {
      var s := IntToString(n);
      assert s[1..] == NatToString(m);
      ParseIntOfNegativeDigits(s);
    } else {
      ParseIntOfDigits(NatToString(m));
    }
    NatToStringValue(m);
  }

  /** The same for numbers that reach parseInt as values. */
  lemma ParseIntValueOfInt(n: int)
    ensures ParseIntValue(IntValue(n)) == Int(n)
  {
    ParseIntToString(n);
  }

  // ---------------------------------------------------------------------------
  // String tests used on error messages

  predicate StartsWith(s: string, prefix: string) {
    |prefix| <= |s| && s[..|prefix|] == prefix
  }

  /** t occurs in s starting at index i. */
  predicate OccursAt(s: string, t: string, i: nat) {
    i + |t| <= |s| && s[i..i + |t|] == t
  }

  /** `s.includes(t)` */
  predicate Contains(s: string, t: string) {
    exists i: nat | i <= |s| :: OccursAt(s, t, i)
  }

  lemma PrefixContained(s: string, t: string)
    requires StartsWith(s, t)
    ensures Contains(s, t)
  {
    assert OccursAt(s, t, 0) by {
      assert s[0..0 + |t|] == s[..|t|];
    }
  }

  /** A string contains its own prefix. */
  lemma ConcatContainsHead(head: string, tail: string)
    ensures Contains(head + tail, head)
  {
    assert (head + tail)[..|head|] == head;
    PrefixContained(head + tail, head);
  }

  /** A string that lacks one of the characters of t does not contain t. */
  lemma MissingCharNotContained(s: string, t: string, j: nat)
    requires j < |t| && t[j] !in s
    ensures !Contains(s, t)
  {
    forall i: nat | i <= |s| && i + |t| <= |s|
      ensures !OccursAt(s, t, i)
    {
      assert s[i..i + |t|][j] == s[i + j];
    }
  }
}
