/** JavaScript values as the controllers see them in a parsed JSON request body,
    with the parts of JavaScript's semantics the validators depend on:
    truthiness, property reads, conversion to text and loose equality (`==`)
    against a string. */
module Json {

  /** A value read from a request body. `Undefined` is a property that is not
      there; numbers are finite and held as reals. */
  datatype Value =
    | Undefined
    | Null
    | Bool(b: bool)
    | Num(n: real)
    | Str(s: string)
    | Arr(items: seq<Value>)
    | Obj(fields: map<string, Value>)

  /** `false`, `0`, `""`, `null` and `undefined` are falsy; every array and
      every object, even an empty one, is truthy. */
  predicate Truthy(v: Value) {
    match v
    case Undefined => false
    case Null => false
    case Bool(b) => b
    case Num(n) => n != 0.0
    case Str(s) => s != ""
    case Arr(_) => true
    case Obj(_) => true
  }

  /** Reading a property of `null` or `undefined` throws a TypeError. */
  predicate Nullish(v: Value) {
    v.Undefined? || v.Null?
  }

  /** `v[key]` on a value that is not nullish: the own properties of an object,
      and `length` of a string or an array; everything else reads as
      `undefined`. On a nullish value the result is `Undefined` too; callers
      that model a throwing read test `Nullish` first. */
  function Get(v: Value, key: string): Value {
    match v
    case Obj(fields) => if key in fields then fields[key] else Undefined
    case Str(s) => if key == "length" then Num(|s| as real) else Undefined
    case Arr(items) => if key == "length" then Num(|items| as real) else Undefined
    case _ => Undefined
  }

  /** `typeof x === "number" && x > 0`: a number above zero. */
  predicate IsPositiveNumber(x: Value) {
    x.Num? && x.n > 0.0
  }

  /** Converting `v` to a primitive (for `==` or `>` against a primitive, or
      for a template literal) throws a TypeError. A JSON object with its own
      `toString` key hides the inherited method behind a value that cannot
      be called, and the inherited `valueOf` gives back the object itself.
      An array converts through `join`, which converts every element that is
      not `null` or `undefined`. */
  predicate ConversionThrows(v: Value) {
    match v
    case Obj(fields) => "toString" in fields
    case Arr(items) => exists i :: 0 <= i < |items| && ConversionThrows(items[i])
    case _ => false
  }

  /** `x > c` for an integer `c`, when converting `x` does not throw.
      JavaScript converts `x` to a number first: `null` is 0, booleans are 0
      and 1, a string is read as a numeral, an array or object is read
      through the text it converts to, and `undefined` (like any text that is
      not a numeral) is NaN, which is greater than nothing. */
  predicate GreaterThan(x: Value, c: int) {
    match x
    case Undefined => false
    case Null => 0 > c
    case Bool(b) => (if b then 1 else 0) > c
    case Num(n) => n > c as real
    case Str(s) => IsNumeral(s) && NumeralValue(s) > c
    case Arr(_) => IsNumeral(Text(x)) && NumeralValue(Text(x)) > c
    case Obj(_) => IsNumeral(Text(x)) && NumeralValue(Text(x)) > c
  }

  /** `v == {}` against a freshly built object: an array or object is a
      different object, and `null` and `undefined` equal no object; a number
      or boolean meets `Number("[object Object]")`, which is NaN; only a
      string compares, with the text `[object Object]`. */
  predicate LooselyEqualsNewObject(v: Value) {
    v.Str? && v.s == Text(Obj(map[]))
  }

  // ---------------------------------------------------------------------
  // Conversion to text: template literals, `Array.prototype.join`, and the
  // string an array or object turns into when compared with `==`.
  // ---------------------------------------------------------------------

  function DigitChar(d: nat): char
    requires d < 10
  {
    "0123456789"[d]
  }

  /** The decimal digits of a natural number. */
  function NatText(n: nat): string
    decreases n
  {
    if n < 10 then [DigitChar(n)] else NatText(n / 10) + [DigitChar(n % 10)]
  }

  function IntText(i: int): string {
    if i < 0 then "-" + NatText(-i) else NatText(i)
  }

  /** The text of a number: exact for integers; a non-integer gets a
      non-empty stand-in, since the shortest round-trip decimal form of a
      double is not part of this model. */
  function NumberText(n: real): string {
    if n == n.Floor as real then IntText(n.Floor) else IntText(n.Floor) + ".<fraction>"
  }

  /** `parts.join(",")`. */
  function Join(parts: seq<string>): string {
    if |parts| == 0 then ""
    else if |parts| == 1 then parts[0]
    else Join(parts[..|parts| - 1]) + "," + parts[|parts| - 1]
  }

  /** `String(v)`, for a value whose conversion does not throw. An array joins
      its elements with commas, where `null` and `undefined` elements
      contribute nothing; an object without its own `toString` prints as
      `[object Object]`. */
  function Text(v: Value): string {
    match v
    case Undefined => "undefined"
    case Null => "null"
    case Bool(b) => if b then "true" else "false"
    case Num(n) => NumberText(n)
    case Str(s) => s
    case Arr(items) =>
      Join(seq(|items|, i requires 0 <= i < |items| =>
        if Nullish(items[i]) then "" else Text(items[i])))
    case Obj(_) => "[object Object]"
  }

  // ---------------------------------------------------------------------
  // Loose equality `v == t` where `t` is a string.
  // ---------------------------------------------------------------------

  predicate IsDigit(c: char) {
    '0' <= c <= '9'
  }

  /** Strings that `Number(t)` reads as a number in this model: the empty
      string (0) and plain decimal digits. */
  predicate IsNumeral(t: string) {
    forall i :: 0 <= i < |t| ==> IsDigit(t[i])
  }

  function NumeralValue(t: string): nat
    requires IsNumeral(t)
  {
    if |t| == 0 then 0
    else 10 * NumeralValue(t[..|t| - 1]) + ((t[|t| - 1] as int) - ('0' as int))
  }

  /** JavaScript's `v == t` for a string `t`, when converting `v` does not
      throw: a string compares by contents, an array or object by the text it
      converts to, a number or boolean by the number `t` converts to, and
      `null`/`undefined` equal no string. */
  predicate LooselyEquals(v: Value, t: string) {
    match v
    case Undefined => false
    case Null => false
    case Bool(b) => IsNumeral(t) && NumeralValue(t) == (if b then 1 else 0)
    case Num(n) => IsNumeral(t) && NumeralValue(t) as real == n
    case Str(s) => s == t
    case Arr(_) => Text(v) == t
    case Obj(_) => Text(v) == t
  }

  // ---------------------------------------------------------------------
  // Properties
  // ---------------------------------------------------------------------

  /** Joining two or more parts always puts a comma in the result. */
  lemma {:induction false} JoinHasComma(parts: seq<string>)
    requires |parts| >= 2
    ensures ',' in Join(parts)
  {
    var prefix := Join(parts[..|parts| - 1]);
    assert Join(parts) == prefix + "," + parts[|parts| - 1];
    assert Join(parts)[|prefix|] == ',';
  }

  /** An array prints as the empty string exactly when it is empty or holds a
      single element that prints as nothing (`null`, `undefined`, `""`, or
      such an array again). */
  lemma ArrayTextIsEmpty(items: seq<Value>)
    ensures Text(Arr(items)) == "" <==>
      |items| == 0 || (|items| == 1 && (Nullish(items[0]) || Text(items[0]) == ""))
  {
    if |items| >= 2 {
      JoinHasComma(seq(|items|, i requires 0 <= i < |items| =>
        if Nullish(items[i]) then "" else Text(items[i])));
    }
  }

  /** An array of two or more elements prints with a comma in it. */
  lemma LongArrayTextHasComma(items: seq<Value>)
    requires |items| >= 2
    ensures ',' in Text(Arr(items))
  {
    JoinHasComma(seq(|items|, i requires 0 <= i < |items| =>
      if Nullish(items[i]) then "" else Text(items[i])));
  }

  /** A truthy value is loosely equal to `""` only if it is an array that
      prints as the empty string. */
  lemma TruthyLooselyEmptyIsArray(v: Value)
    requires Truthy(v) && LooselyEquals(v, "")
    ensures v.Arr? && Text(v) == ""
  {
  }

  /** The decimal text of a natural number is never empty, and has two or more
      digits from 10 on. */
  lemma {:induction false} NatTextLength(n: nat)
    ensures |NatText(n)| >= 1
    ensures n >= 10 ==> |NatText(n)| >= 2
    decreases n
  {
    if n >= 10 {
      NatTextLength(n / 10);
    }
  }

  /** Different numbers have different decimal texts. */
  lemma {:induction false} NatTextInjective(a: nat, b: nat)
    requires NatText(a) == NatText(b)
    ensures a == b
    decreases a
  {
    NatTextLength(a);
    NatTextLength(b);
    if a < 10 && b < 10 {
      assert NatText(a)[0] == DigitChar(a) && NatText(b)[0] == DigitChar(b);
    } else if a >= 10 && b >= 10 {
      var ta, tb := NatText(a), NatText(b);
      assert ta[..|ta| - 1] == NatText(a / 10);
      assert tb[..|tb| - 1] == NatText(b / 10);
      NatTextInjective(a / 10, b / 10);
      assert ta[|ta| - 1] == DigitChar(a % 10) && tb[|tb| - 1] == DigitChar(b % 10);
    }
  }
}
