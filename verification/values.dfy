/**
 Ruby values as they reach the request engine: option values supplied by a
 caller and the entries of an endpoint's path-parameter hash, together with
 the three Ruby (and ActiveSupport) notions the engine relies on: truthiness
 and `||`, `to_s`, and `blank?` / `present?`.
 */
module Values {

  datatype Value = Nil | Bool(b: bool) | Str(s: string) | Int(i: int)

  /** A caller's option hash; keys are strings (the hash has indifferent access). */
  type Options = map<string, Value>

  /** Hash#[]: the stored value, or nil when the key is absent. */
  function Lookup(m: map<string, Value>, key: string): Value
  {
    if key in m then m[key] else Nil
  }

  /** Everything except nil and false is true in a Ruby condition. */
  predicate Truthy(v: Value)
  {
    !(v.Nil? || v == Bool(false))
  }

  /** Ruby's `a || b`: `a` when it is truthy, otherwise `b`. */
  function Or(a: Value, b: Value): (r: Value)
    ensures Truthy(a) ==> r == a
    ensures !Truthy(a) ==> r == b
  {
    if Truthy(a) then a else b
  }

  /** The characters of the Unicode White_Space property, which is what
      ActiveSupport's `[[:space:]]` matches in a Unicode string. */
  predicate IsSpace(c: char)
  {
    || c == ' '
    || ('\t' <= c <= '\r')
    || c == '\U{85}'
    || c == '\U{A0}'
    || c == '\U{1680}'
    || ('\U{2000}' <= c <= '\U{200A}')
    || c == '\U{2028}'
    || c == '\U{2029}'
    || c == '\U{202F}'
    || c == '\U{205F}'
    || c == '\U{3000}'
  }

  /** String#blank?: empty or whitespace only. */
  predicate BlankText(s: string)
  {
    forall i :: 0 <= i < |s| ==> IsSpace(s[i])
  }

  /** Object#blank? as ActiveSupport defines it for the four kinds of value:
      nil and false are blank, true is not, a number never is. */
  predicate Blank(v: Value)
  {
    match v
    case Nil => true
    case Bool(b) => !b
    case Str(s) => BlankText(s)
    case Int(_) => false
  }

  predicate Present(v: Value)
  {
    !Blank(v)
  }

  function Digit(d: nat): (c: char)
    requires d < 10
    ensures '0' <= c <= '9'
  {
    (48 + d) as char
  }

  predicate IsDigits(s: string)
  {
    forall i :: 0 <= i < |s| ==> '0' <= s[i] <= '9'
  }

  /** Integer#to_s on a non-negative number: its decimal digits. */
  function NatToS(n: nat): (r: string)
    ensures |r| > 0
    ensures IsDigits(r)
    ensures n < 10 <==> |r| == 1
    decreases n
  {
    if n < 10 then [Digit(n)] else NatToS(n / 10) + [Digit(n % 10)]
  }

  /** The number a string of decimal digits denotes. */
  function DigitsValue(s: string): nat
    requires IsDigits(s)
    decreases |s|
  {
    if s == [] then 0
    else 10 * DigitsValue(s[..|s| - 1]) + ((s[|s| - 1] as int) - 48)
  }

  /** Integer#to_s: a minus sign before the digits of a negative number. */
  function IntToS(i: int): string
  {
    if i < 0 then "-" + NatToS(-i) else NatToS(i)
  }

  /** Object#to_s for the four kinds of value; nil becomes the empty string. */
  function ToS(v: Value): string
  {
    match v
    case Nil => ""
    case Bool(b) => if b then "true" else "false"
    case Str(s) => s
    case Int(i) => IntToS(i)
  }

  /** The decimal text of a number reads back as that number. */
  lemma {:induction false} NatToSRoundTrip(n: nat)
    ensures DigitsValue(NatToS(n)) == n
    decreases n
  {
    var r := NatToS(n);
    if n >= 10 {
      NatToSRoundTrip(n / 10);
      assert r[..|r| - 1] == NatToS(n / 10);
      assert r[|r| - 1] == Digit(n % 10);
    }
  }

  /** A number's string form is never blank, so with a leading slash asked
      for, the slash always goes in before it. */
  lemma IntToSPresent(i: int)
    ensures |ToS(Int(i))| > 0
    ensures Present(Str(ToS(Int(i))))
  {
    var s := ToS(Int(i));
    assert !IsSpace(s[0]);
  }

  /** The values whose string form is blank are exactly nil and blank strings;
      false is blank, but it stringifies to the non-blank "false". */
  lemma BlankStringForm(v: Value)
    ensures BlankText(ToS(v)) <==> (v.Nil? || (v.Str? && BlankText(v.s)))
  {
    match v
    case Nil =>
    case Bool(b) =>
      assert !IsSpace(ToS(v)[0]);
    case Str(s) =>
    case Int(i) =>
      IntToSPresent(i);
  }
}
