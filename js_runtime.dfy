/** The few JavaScript runtime behaviours the data-access layer relies on:
    truthiness of an `if (x)` test, the text a template literal `${x}`
    produces, the decimal rendering of a number, and `String.prototype.toLowerCase`. */
module JsRuntime {

  /** A primitive JavaScript value as it can reach the data-access layer.
      Numbers are integers here (no fractions, no NaN, no infinities), and
      objects and arrays are not represented. */
  datatype JsValue =
    | Undefined
    | Null
    | Bool(b: bool)
    | Num(n: int)
    | Str(s: string)

  /** JavaScript truthiness: `undefined`, `null`, `false`, `0` and `""` are falsy,
      everything else is truthy. */
  predicate Truthy(v: JsValue)
    ensures !Truthy(v) <==> v == Undefined || v == Null || v == Bool(false) || v == Num(0) || v == Str("")
  {
    match v
    case Undefined => false
    case Null => false
    case Bool(b) => b
    case Num(n) => n != 0
    case Str(s) => s != ""
  }

  /** A default parameter `x = d`: the default applies only when the argument is
      `undefined`; `null`, `0`, `false` and `""` are passed through untouched. */
  function WithDefault(v: JsValue, d: JsValue): (r: JsValue)
    ensures v.Undefined? ==> r == d
    ensures !v.Undefined? ==> r == v
  {
    if v.Undefined? then d else v
  }

  predicate IsDigit(c: char) {
    '0' <= c <= '9'
  }

  predicate AllDigits(s: string) {
    forall i :: 0 <= i < |s| ==> IsDigit(s[i])
  }

  function DigitChar(d: nat): (c: char)
    requires d < 10
    ensures IsDigit(c) && c as int - '0' as int == d
  {
    ('0' as int + d) as char
  }

  /** The decimal text of a non-negative number, as `String(n)` gives it:
      no sign, no leading zeros. */
  function NatToText(n: nat): (s: string)
    ensures 1 <= |s| && AllDigits(s)
    ensures |s| > 1 ==> s[0] != '0'
    decreases n
  {
    if n < 10 then [DigitChar(n)] else NatToText(n / 10) + [DigitChar(n % 10)]
  }

  /** Reads a string of decimal digits back as a number. */
  function ParseDigits(s: string): nat
    requires AllDigits(s)
  {
    if s == [] then 0 else ParseDigits(s[..|s| - 1]) * 10 + (s[|s| - 1] as int - '0' as int)
  }

  /** The rendering of a number reads back as that number, so distinct
      numbers are rendered as distinct placeholders. */
  lemma {:induction false} ParseNatToText(n: nat)
    ensures ParseDigits(NatToText(n)) == n
    decreases n
  {
    var s := NatToText(n);
    if n >= 10 {
      var prefix := NatToText(n / 10);
      assert s[..|s| - 1] == prefix;
      ParseNatToText(n / 10);
    }
  }

  lemma NatToTextInjective(a: nat, b: nat)
    ensures NatToText(a) == NatToText(b) <==> a == b
  {
    if NatToText(a) == NatToText(b) {
      ParseNatToText(a);
      ParseNatToText(b);
    }
  }

  /** The decimal text of an integer, with a leading minus when negative: the
      digits after the sign read back as the integer's magnitude. */
  function IntToText(i: int): (s: string)
    ensures 1 <= |s|
    ensures (s[0] == '-') <==> i < 0
    ensures var d := s[(if i < 0 then 1 else 0)..];
      && 1 <= |d| && AllDigits(d) && ParseDigits(d) == (if i < 0 then -i else i)
      && (|d| > 1 ==> d[0] != '0')
  {
    var magnitude := if i < 0 then -i else i;
    ParseNatToText(magnitude);
    if i < 0 then
      assert ("-" + NatToText(magnitude))[1..] == NatToText(magnitude);
      "-" + NatToText(magnitude)
    else NatToText(i)
  }

  /** The text a template literal substitutes for `${v}`: a string as it is, a
      number as its decimal text, the other values as their names. */
  function ToText(v: JsValue): (s: string)
    ensures v.Str? ==> s == v.s
    ensures v.Num? ==> s == IntToText(v.n)
    ensures v == Undefined ==> s == "undefined"
    ensures v == Null ==> s == "null"
    ensures v.Bool? ==> s == (if v.b then "true" else "false")
    ensures s == "" <==> v == Str("")
  {
    match v
    case Undefined => "undefined"
    case Null => "null"
    case Bool(b) => if b then "true" else "false"
    case Num(n) => IntToText(n)
    case Str(s) => s
  }

  function LowerChar(c: char): char {
    if 'A' <= c <= 'Z' then (c as int - 'A' as int + 'a' as int) as char else c
  }

  /** `toLowerCase` on ASCII letters: every character is lowered in place. */
  function ToLower(s: string): (r: string)
    ensures |r| == |s|
    ensures forall i :: 0 <= i < |s| ==> r[i] == LowerChar(s[i])
  {
    if s == [] then [] else [LowerChar(s[0])] + ToLower(s[1..])
  }

  /** A string with no upper-case ASCII letter. */
  predicate IsLowerCase(s: string) {
    forall i :: 0 <= i < |s| ==> LowerChar(s[i]) == s[i]
  }

  /** Two strings that differ only in the case of their letters. */
  predicate EqualIgnoringCase(a: string, b: string) {
    |a| == |b| && forall i :: 0 <= i < |a| ==> LowerChar(a[i]) == LowerChar(b[i])
  }

  /** Lower-casing identifies exactly the strings that differ only in case. */
  lemma ToLowerIdentifiesCase(a: string, b: string)
    ensures ToLower(a) == ToLower(b) <==> EqualIgnoringCase(a, b)
  {
    if ToLower(a) == ToLower(b) {
      forall i | 0 <= i < |a| ensures LowerChar(a[i]) == LowerChar(b[i]) {
        assert ToLower(a)[i] == ToLower(b)[i];
      }
    }
  }

  /** Lower-casing yields a lower-case string and leaves one unchanged. */
  lemma ToLowerIsLowerCase(s: string)
    ensures IsLowerCase(ToLower(s))
    ensures ToLower(s) == s <==> IsLowerCase(s)
  {
    if IsLowerCase(s) {
      assert ToLower(s) == s;
    }
  }

  /** Lower-casing changes only the case of letters. */
  lemma ToLowerKeepsLetters(s: string)
    ensures EqualIgnoringCase(ToLower(s), s)
  {
  }
}
