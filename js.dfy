/**
 * The JavaScript values the command layer handles: numbers (with NaN and the
 * infinities), the values found in an argument or option dictionary, and the
 * string helpers that templates and console output are built from.
 */
module Js {

  datatype Option<+T> = None | Some(value: T) {
    function GetOr(default: T): T {
      match this
      case Some(v) => v
      case None => default
    }
  }

  /** A JavaScript number. Its arithmetic is not modelled; only its identity and truthiness are. */
  datatype Number = NaN | Finite(value: real) | Infinity(negative: bool)

  /** ToBoolean of a number: false exactly for NaN and for zero. */
  predicate NumberTruthy(n: Number) {
    match n
    case NaN => false
    case Finite(x) => x != 0.0
    case Infinity(_) => true
  }

  /**
   * A value of an argument dictionary (`Record<string, unknown>`) or of an option
   * dictionary. `Absent` is `undefined`; a missing key reads as `Absent`.
   */
  datatype Value = Absent | Null | Bool(b: bool) | Str(s: string) | Num(n: Number) | StrList(items: seq<string>)

  type Dict = map<string, Value>

  /** ToBoolean of a value: false for undefined, null, false, the empty string, NaN and zero. */
  predicate Truthy(v: Value) {
    match v
    case Absent => false
    case Null => false
    case Bool(b) => b
    case Str(s) => s != ""
    case Num(n) => NumberTruthy(n)
    case StrList(_) => true
  }

  /** `args[key]`: undefined for a key that is not there. */
  function Get(args: Dict, key: string): Value {
    if key in args then args[key] else Absent
  }

  /** `v === true` */
  predicate IsTrue(v: Value) {
    v == Bool(true)
  }

  /** `v && typeof v === "string"`: a string, and not the empty (falsy) one. */
  predicate IsNonEmptyString(v: Value) {
    v.Str? && v.s != ""
  }

  /** Truthiness of an optional string field (`if (x)` on `string | undefined`). */
  predicate Present(s: Option<string>) {
    s.Some? && s.value != ""
  }

  /** `key in o` with the value `o[key]` exactly when `cond` holds. */
  predicate SetExactlyWhen(o: Dict, key: string, cond: bool, v: Value) {
    (key in o <==> cond) && (key in o ==> o[key] == v)
  }

  /** What `console.log(s)` writes: the string and a newline. */
  function Line(s: string): string {
    s + "\n"
  }

  /** String concatenation is associative; the formatters' proofs regroup their appends with it. */
  lemma AppendAssoc(a: string, b: string, c: string)
    ensures a + b + c == a + (b + c)
  {
  }

  /** The concatenation of a sequence of strings, in order. */
  function Concat(ss: seq<string>): string
    decreases |ss|
  {
    if ss == [] then "" else Concat(ss[..|ss| - 1]) + ss[|ss| - 1]
  }

  lemma {:induction false} ConcatAppend(a: seq<string>, b: seq<string>)
    ensures Concat(a + b) == Concat(a) + Concat(b)
    decreases |b|
  {
    if b == [] {
      assert a + b == a;
    } else {
      var b', x := b[..|b| - 1], b[|b| - 1];
      assert (a + b)[..|a + b| - 1] == a + b';
      assert (a + b)[|a + b| - 1] == x;
      assert Concat(a + b) == Concat(a + b') + x;
      assert Concat(b) == Concat(b') + x;
      ConcatAppend(a, b');
      AppendAssoc(Concat(a), Concat(b'), x);
    }
  }

  /** One more element of a prefix adds that element at the end of the concatenation. */
  lemma ConcatPrefixStep(ss: seq<string>, i: nat)
    requires i < |ss|
    ensures Concat(ss[..i + 1]) == Concat(ss[..i]) + ss[i]
  {
    assert ss[..i + 1][..i] == ss[..i];
  }

  /** The concatenation around one element: what comes before it, the element, what comes after it. */
  lemma ConcatSplit(ss: seq<string>, k: nat)
    requires k < |ss|
    ensures Concat(ss) == Concat(ss[..k]) + ss[k] + Concat(ss[k + 1..])
  {
    var before, after := ss[..k + 1], ss[k + 1..];
    assert ss == before + after;
    ConcatAppend(before, after);
    ConcatPrefixStep(ss, k);
  }

  /** A string is the prefix of its own extension. */
  lemma PrefixOfAppend(a: string, b: string)
    ensures |a| <= |a + b| && (a + b)[..|a|] == a
  {
  }

  /** `ss.join(sep)` */
  function JoinWith(ss: seq<string>, sep: string): string
    decreases |ss|
  {
    if ss == [] then "" else if |ss| == 1 then ss[0] else ss[0] + sep + JoinWith(ss[1..], sep)
  }

  function Digit(d: nat): (c: char)
    requires d < 10
    ensures '0' <= c <= '9'
  {
    "0123456789"[d]
  }

  /** A string of decimal digits (stated from the end, as digits are read). */
  predicate IsDigits(s: string)
    decreases |s|
  {
    s == [] || (IsDigits(s[..|s| - 1]) && '0' <= s[|s| - 1] <= '9')
  }

  /** The decimal notation of a natural number, as a template literal `${n}` renders it. */
  function Decimal(n: nat): (r: string)
    ensures |r| >= 1
    ensures IsDigits(r)
    ensures n > 0 ==> r[0] != '0'
    decreases n
  {
    if n < 10 then [Digit(n)] else
      var p := Decimal(n / 10);
      assert (p + [Digit(n % 10)])[..|p|] == p;
      p + [Digit(n % 10)]
  }

  /** Reads back a string of decimal digits. */
  function DigitsValue(s: string): nat
    requires IsDigits(s)
    decreases |s|
  {
    if s == [] then 0 else 10 * DigitsValue(s[..|s| - 1]) + (s[|s| - 1] as int - '0' as int)
  }

  /** Distinct numbers get distinct labels: reading a label back gives the number. */
  lemma {:induction false} DecimalRoundTrip(n: nat)
    ensures DigitsValue(Decimal(n)) == n
    decreases n
  {
    if n >= 10 {
      var r := Decimal(n);
      var q, d := n / 10, n % 10;
      assert r == Decimal(q) + [Digit(d)];
      assert r[..|r| - 1] == Decimal(q);
      assert r[|r| - 1] as int - '0' as int == d by {
        assert "0123456789"[d] as int - '0' as int == d;
      }
      DecimalRoundTrip(q);
      assert n == 10 * q + d;
    } else {
      assert Decimal(n) == [Digit(n)];
      assert [Digit(n)][..0] == [];
      assert "0123456789"[n] as int - '0' as int == n;
    }
  }
}
