/**
 * The Python values that the webhook handles after Flask has decoded a JSON
 * request body, and the few pieces of Python semantics that app.py relies on:
 * `dict.get` with a default, truthiness (`if not alerts`, `if alert_data`),
 * iteration in a comprehension, hashability of dict keys and `str()` as used
 * by f-string interpolation.
 */
module PyValue {

  datatype Option<T> = None | Some(value: T)

  /** The exception a Python expression raises where the model needs one. */
  datatype Exception = TypeError | AttributeError

  /** What evaluating a Python expression does: return a value or raise. */
  datatype Outcome<T> = Returned(value: T) | Raised(error: Exception)

  /**
   * A decoded JSON value. A `Dict` holds the dict's items in insertion order;
   * as in every Python dict its keys are distinct. A `Float` carries the text
   * that Python's `repr` gives for the decoded double.
   */
  datatype Value =
    | Null
    | Bool(b: bool)
    | Int(i: int)
    | Float(repr: string)
    | Str(s: string)
    | List(items: seq<Value>)
    | Dict(entries: seq<(string, Value)>)

  type Entries = seq<(string, Value)>

  /** `key` is bound at position `i` of `d` and nowhere after it. */
  predicate BoundLastAt(d: Entries, key: string, i: int)
  {
    0 <= i < |d| && d[i].0 == key && forall j :: i < j < |d| ==> d[j].0 != key
  }

  predicate HasKey(d: Entries, key: string)
  {
    exists i :: 0 <= i < |d| && d[i].0 == key
  }

  /** `d.get(key, default)`. */
  function Get(d: Entries, key: string, default: Value): (r: Value)
    ensures !HasKey(d, key) ==> r == default
    ensures forall i :: BoundLastAt(d, key, i) ==> r == d[i].1
  {
    if |d| == 0 then default
    else if d[|d| - 1].0 == key then d[|d| - 1].1
    else Get(d[..|d| - 1], key, default)
  }

  /** Once `key` is bound, the default passed to `get` makes no difference. */
  lemma {:induction false} GetIgnoresDefault(d: Entries, key: string, a: Value, b: Value)
    requires HasKey(d, key)
    ensures Get(d, key, a) == Get(d, key, b)
  {
    if d[|d| - 1].0 != key {
      var i :| 0 <= i < |d| && d[i].0 == key;
      assert i < |d| - 1 && d[..|d| - 1][i].0 == key;
      GetIgnoresDefault(d[..|d| - 1], key, a, b);
    }
  }

  /** `len(v)` for the values that have a length. */
  function Len(v: Value): Option<nat>
  {
    match v
    case Str(s) => Some(|s|)
    case List(items) => Some(|items|)
    case Dict(entries) => Some(|entries|)
    case _ => None
  }

  /**
   * Python truthiness of a decoded value: None is false, and a value with a
   * length is true exactly when that length is not zero.
   */
  predicate Truthy(v: Value)
    ensures v.Null? ==> !Truthy(v)
    ensures Len(v).Some? ==> (Truthy(v) <==> Len(v).value != 0)
  {
    match v
    case Null => false
    case Bool(b) => b
    case Int(i) => i != 0
    case Float(r) => r != "0.0" && r != "-0.0"
    case Str(s) => s != ""
    case List(items) => items != []
    case Dict(entries) => entries != []
  }

  /** Lists and dicts are unhashable and cannot be dict keys. */
  predicate Hashable(v: Value)
  {
    !v.List? && !v.Dict?
  }

  /**
   * The elements a `for` clause draws from `v`: the items of a list, the
   * one-character strings of a string, the keys of a dict; anything else is
   * not iterable.
   */
  function Iterate(v: Value): (r: Outcome<seq<Value>>)
    ensures r.Raised? <==> v.Null? || v.Bool? || v.Int? || v.Float?
    ensures r.Returned? ==> (|r.value| == 0 <==> !Truthy(v))
  {
    match v
    case List(items) => Returned(items)
    case Str(s) => Returned(seq(|s|, i requires 0 <= i < |s| => Str([s[i]])))
    case Dict(entries) => Returned(seq(|entries|, i requires 0 <= i < |entries| => Str(entries[i].0)))
    case _ => Raised(TypeError)
  }

  /**
   * `str(v)`, which is what an f-string inserts for `{v}`: a string as it is,
   * an integer as a numeral that `int()` reads back as the same integer.
   */
  function ToStr(v: Value): (r: string)
    ensures v.Null? ==> r == "None"
    ensures v.Str? ==> r == v.s
    ensures v.Int? ==> ParseInt(r) == Some(v.i)
  {
    if v.Int? then IntDecimalRoundTrip(v.i); Render(v, false)
    else Render(v, false)
  }

  /**
   * `str(v)` when `quoted` is false, `repr(v)` when it is true. A list is
   * bracketed, a dict braced, and `repr` of a string is wrapped in one kind
   * of quote on both sides.
   */
  function Render(v: Value, quoted: bool): (r: string)
    ensures v.List? ==> |r| >= 2 && r[0] == '[' && r[|r| - 1] == ']'
    ensures v.Dict? ==> |r| >= 2 && r[0] == '{' && r[|r| - 1] == '}'
    ensures v.Str? && quoted ==> |r| >= 2 && r[0] == r[|r| - 1] && (r[0] == '\'' || r[0] == '"')
    ensures v.Str? && !quoted ==> r == v.s
    decreases v
  {
    match v
    case Null => "None"
    case Bool(b) => if b then "True" else "False"
    case Int(i) => IntToDecimal(i)
    case Float(r) => r
    case Str(s) => if quoted then Quote(s) else s
    case List(items) =>
      "[" + Join(", ", seq(|items|, k requires 0 <= k < |items| => Render(items[k], true))) + "]"
    case Dict(entries) =>
      "{" + Join(", ", seq(|entries|, k requires 0 <= k < |entries| =>
                                Quote(entries[k].0) + ": " + Render(entries[k].1, true))) + "}"
  }

  function Join(sep: string, parts: seq<string>): string
  {
    if |parts| == 0 then ""
    else if |parts| == 1 then parts[0]
    else parts[0] + sep + Join(sep, parts[1..])
  }

  function IntToDecimal(i: int): string
  {
    if i < 0 then "-" + NatToDecimal(-i) else NatToDecimal(i)
  }

  function NatToDecimal(n: nat): string
  {
    if n < 10 then [Digit(n)] else NatToDecimal(n / 10) + [Digit(n % 10)]
  }

  function Digit(d: nat): char
    requires d < 16
  {
    if d < 10 then ('0' as int + d) as char else ('a' as int + d - 10) as char
  }

  predicate IsDigit(c: char)
  {
    '0' <= c <= '9'
  }

  /** The value of a run of decimal digits. */
  function DigitsValue(s: string): nat
    requires forall k :: 0 <= k < |s| ==> IsDigit(s[k])
  {
    if |s| == 0 then 0
    else
      assert IsDigit(s[|s| - 1]);
      DigitsValue(s[..|s| - 1]) * 10 + (s[|s| - 1] as int - '0' as int)
  }

  /** `int(s)` for a numeral made of an optional minus sign and at least one digit. */
  function ParseInt(s: string): Option<int>
  {
    var negative := |s| > 0 && s[0] == '-';
    var digits := if negative then s[1..] else s;
    if |digits| == 0 || exists k :: 0 <= k < |digits| && !IsDigit(digits[k]) then None
    else
      var value: int := DigitsValue(digits);
      Some(if negative then -value else value)
  }

  /** The numeral of `n` is a non-empty run of digits whose value is `n`. */
  lemma {:induction false} NatDecimalRoundTrip(n: nat)
    ensures |NatToDecimal(n)| > 0
    ensures forall k :: 0 <= k < |NatToDecimal(n)| ==> IsDigit(NatToDecimal(n)[k])
    ensures DigitsValue(NatToDecimal(n)) == n
  {
    var s := NatToDecimal(n);
    if n >= 10 {
      NatDecimalRoundTrip(n / 10);
      assert s[..|s| - 1] == NatToDecimal(n / 10);
    }
  }

  lemma IntDecimalRoundTrip(i: int)
    ensures ParseInt(IntToDecimal(i)) == Some(i)
  {
    if i < 0 {
      NatDecimalRoundTrip(-i);
      assert IntToDecimal(i)[1..] == NatToDecimal(-i);
    } else {
      NatDecimalRoundTrip(i);
    }
  }

  /**
   * `repr` of a string: single quotes unless the text holds a single quote
   * and no double quote; the chosen quote, backslash and control characters
   * escaped.
   */
  function Quote(s: string): string
  {
    var q := if '\'' in s && '"' !in s then '"' else '\'';
    [q] + EscapeAll(s, q) + [q]
  }

  function EscapeAll(s: string, q: char): string
  {
    if |s| == 0 then "" else Escape(s[0], q) + EscapeAll(s[1..], q)
  }

  function Escape(c: char, q: char): string
  {
    if c == q || c == '\\' then ['\\', c]
    else if c == '\t' then "\\t"
    else if c == '\n' then "\\n"
    else if c == '\r' then "\\r"
    else if c as int < 32 || c as int == 127 then "\\x" + [Digit(c as int / 16), Digit(c as int % 16)]
    else [c]
  }
}
