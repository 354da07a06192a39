/** Shared vocabulary of the model: an optional value, the string operations the
    console's TypeScript relies on (prefix, substring search, `slice(-1)`, `join`),
    and the decimal text of numbers (template-literal printing and `parseInt`). */
module Common {

  /** `null`/`undefined` versus a present value. */
  datatype Option<+T> = None | Some(value: T)

  /** The outcome of a handler that may throw a TypeError (a property read of
      `undefined`, a method called on a value that lacks it). */
  datatype Result<+T> = Ok(value: T) | Thrown

  // ---------------------------------------------------------------------------
  // Strings
  // ---------------------------------------------------------------------------

  predicate StartsWith(s: string, prefix: string)
  {
    |prefix| <= |s| && s[..|prefix|] == prefix
  }

  /** `t` occurs in `s` starting at index `i`. */
  predicate OccursAt(s: string, t: string, i: int)
  {
    0 <= i && i + |t| <= |s| && s[i..i + |t|] == t
  }

  /** `String.prototype.indexOf(t, k)`: the first occurrence of `t` at or after `k`, or -1. */
  function IndexOfFrom(s: string, t: string, k: nat): (r: int)
    decreases |s| - k
    ensures r == -1 || (k <= r && OccursAt(s, t, r))
    ensures r == -1 ==> forall i :: k <= i ==> !OccursAt(s, t, i)
    ensures r != -1 ==> forall i :: k <= i < r ==> !OccursAt(s, t, i)
  {
    if k + |t| > |s| then -1
    else if s[k..k + |t|] == t then k
    else IndexOfFrom(s, t, k + 1)
  }

  /** `String.prototype.indexOf(t)`. */
  function IndexOf(s: string, t: string): (r: int)
    ensures r == -1 <==> forall i :: !OccursAt(s, t, i)
    ensures r != -1 ==> OccursAt(s, t, r) && forall i :: 0 <= i < r ==> !OccursAt(s, t, i)
  {
    IndexOfFrom(s, t, 0)
  }

  /** `s.indexOf(t) !== -1`. */
  predicate Contains(s: string, t: string)
  {
    IndexOf(s, t) != -1
  }

  /** A prefix found by `indexOf` is found at index 0. */
  lemma StartsWithIsIndexZero(s: string, prefix: string)
    ensures StartsWith(s, prefix) <==> IndexOf(s, prefix) == 0
  {
    if StartsWith(s, prefix) {
      assert OccursAt(s, prefix, 0);
    }
  }

  /** `s.slice(-1)`: the last character, or the empty string. */
  function LastChar(s: string): (r: string)
    ensures |r| == (if |s| == 0 then 0 else 1)
    ensures |s| > 0 ==> r[0] == s[|s| - 1]
  {
    if |s| == 0 then "" else [s[|s| - 1]]
  }

  /** A string of at most one character is its own last character. */
  lemma LastCharOfShort(s: string)
    requires |s| <= 1
    ensures LastChar(s) == s
  {
  }

  /** `s.substring(a)` for a start index that may be negative or past the end. */
  function SubstringFrom(s: string, a: int): (r: string)
    ensures |r| <= |s|
  {
    if a <= 0 then s else if a >= |s| then "" else s[a..]
  }

  /** `s.substring(0, b)` for an end index that may be negative or past the end. */
  function SubstringTo(s: string, b: int): (r: string)
    ensures |r| <= |s|
  {
    if b <= 0 then "" else if b >= |s| then s else s[..b]
  }

  /** ASCII upper-casing of one character (`toUpperCase` outside ASCII is not modelled). */
  function UpperChar(c: char): char
  {
    if 'a' <= c <= 'z' then (c as int - 32) as char else c
  }

  function Upper(s: string): (r: string)
    ensures |r| == |s|
    ensures forall i :: 0 <= i < |s| ==> r[i] == UpperChar(s[i])
  {
    if |s| == 0 then "" else [UpperChar(s[0])] + Upper(s[1..])
  }

  /** `Array.prototype.join(sep)` over strings. */
  function Join(items: seq<string>, sep: string): string
  {
    if |items| == 0 then ""
    else if |items| == 1 then items[0]
    else items[0] + sep + Join(items[1..], sep)
  }

  // ---------------------------------------------------------------------------
  // Numbers as text
  // ---------------------------------------------------------------------------

  /** A JavaScript number as produced by `parseInt`: an integer or NaN. */
  datatype JsNum = Finite(n: int) | NaN

  predicate IsDigit(c: char)
  {
    '0' <= c <= '9'
  }

  function DigitChar(d: nat): (c: char)
    requires d < 10
    ensures IsDigit(c)
  {
    ('0' as int + d) as char
  }

  function DigitValue(c: char): (d: nat)
    requires IsDigit(c)
    ensures d < 10
  {
    c as int - '0' as int
  }

  /** The decimal digits of a natural number, most significant first, no leading zeros. */
  function NatToString(n: nat): (r: string)
    ensures |r| > 0
    ensures forall i :: 0 <= i < |r| ==> IsDigit(r[i])
    ensures n > 0 ==> r[0] != '0'
  {
    if n < 10 then [DigitChar(n)] else NatToString(n / 10) + [DigitChar(n % 10)]
  }

  /** A number printed by a template literal (`${n}`). */
  function IntToString(i: int): (r: string)
    ensures |r| > 0
  {
    if i < 0 then "-" + NatToString(-i) else NatToString(i)
  }

  /** The value of a run of decimal digits. */
  function DigitsValue(s: string): nat
    requires forall i :: 0 <= i < |s| ==> IsDigit(s[i])
  {
    if |s| == 0 then 0 else DigitsValue(s[..|s| - 1]) * 10 + DigitValue(s[|s| - 1])
  }

  /** The longest prefix of `s` made of decimal digits. */
  function DigitRun(s: string): (r: nat)
    ensures r <= |s|
    ensures forall i :: 0 <= i < r ==> IsDigit(s[i])
    ensures r < |s| ==> !IsDigit(s[r])
  {
    if |s| == 0 || !IsDigit(s[0]) then 0 else 1 + DigitRun(s[1..])
  }

  predicate IsSpace(c: char)
  {
    c == ' ' || c == '\t' || c == '\n' || c == '\r' || c == '\U{B}' || c == '\U{C}'
  }

  function TrimStart(s: string): (r: string)
    ensures |r| <= |s|
    ensures |r| > 0 ==> !IsSpace(r[0])
  {
    if |s| > 0 && IsSpace(s[0]) then TrimStart(s[1..]) else s
  }

  /** The value of the longest run of digits at the start of `u`, or NaN when there is none. */
  function ParseDigits(u: string): (r: JsNum)
    ensures r.NaN? <==> (|u| == 0 || !IsDigit(u[0]))
    ensures r.Finite? ==> r.n >= 0
  {
    var k := DigitRun(u);
    if k == 0 then NaN else Finite(DigitsValue(u[..k]))
  }

  function Negate(a: JsNum): (r: JsNum)
    ensures a.Finite? <==> r.Finite?
    ensures a.Finite? ==> r.n == -a.n
  {
    match a
    case Finite(x) => Finite(-x)
    case NaN => NaN
  }

  /** `parseInt(s)` in radix 10: leading blanks, an optional sign, then the longest
      run of digits; NaN when there is no digit. */
  function ParseInt(s: string): (r: JsNum)
  {
    var t := TrimStart(s);
    if |t| > 0 && t[0] == '-' then Negate(ParseDigits(t[1..]))
    else if |t| > 0 && t[0] == '+' then ParseDigits(t[1..])
    else ParseDigits(t)
  }

  /** JavaScript `+` on numbers: NaN absorbs. */
  function AddNum(a: JsNum, b: int): (r: JsNum)
    ensures a.Finite? <==> r.Finite?
    ensures a.Finite? ==> r.n == a.n + b
  {
    match a
    case Finite(x) => Finite(x + b)
    case NaN => NaN
  }

  /** `${x}` for a number that may be NaN. */
  function NumToString(a: JsNum): string
  {
    match a
    case Finite(x) => IntToString(x)
    case NaN => "NaN"
  }

  lemma {:induction false} DigitsValueOfNatToString(n: nat)
    ensures DigitsValue(NatToString(n)) == n
    decreases n
  {
    if n >= 10 {
      var r := NatToString(n);
      var p := NatToString(n / 10);
      assert r == p + [DigitChar(n % 10)];
      assert r[..|r| - 1] == p;
      DigitsValueOfNatToString(n / 10);
    }
  }

  lemma DigitRunOfDigits(s: string)
    requires forall i :: 0 <= i < |s| ==> IsDigit(s[i])
    ensures DigitRun(s) == |s|
  {
    if |s| > 0 {
      DigitRunOfDigits(s[1..]);
    }
  }

  /** A run of digits reads as its value. */
  lemma ParseDigitsOfDigits(d: string)
    requires forall i :: 0 <= i < |d| ==> IsDigit(d[i])
    ensures |d| > 0 ==> ParseDigits(d) == Finite(DigitsValue(d))
  {
    DigitRunOfDigits(d);
    assert d[..|d|] == d;
  }

  /** Leading blanks are all `TrimStart` removes. */
  lemma TrimStartOfNonBlank(s: string)
    requires |s| > 0 && !IsSpace(s[0])
    ensures TrimStart(s) == s
  {
  }

  /** A minus sign in front negates what follows it. */
  lemma ParseIntOfNegated(u: string)
    ensures ParseInt("-" + u) == Negate(ParseDigits(u))
  {
    var s := "-" + u;
    TrimStartOfNonBlank(s);
    assert s[1..] == u;
  }

  /** A run of digits, with or without a minus sign in front, reads as its
      value, negated when the sign is there. */
  lemma ParseIntOfDigits(d: string)
    requires |d| > 0 && forall i :: 0 <= i < |d| ==> IsDigit(d[i])
    ensures ParseInt(d) == Finite(DigitsValue(d))
    ensures ParseInt("-" + d) == Finite(-(DigitsValue(d) as int))
  {
    ParseDigitsOfDigits(d);
    assert IsDigit(d[0]);
    TrimStartOfNonBlank(d);
    ParseIntOfNegated(d);
  }

  /** Printing a number and parsing it back gives the number: the offset
      arithmetic of the search query is exact. */
  lemma ParseIntOfIntToString(i: int)
    ensures ParseInt(IntToString(i)) == Finite(i)
  {
    var m: nat := if i < 0 then -i else i;
    DigitsValueOfNatToString(m);
    ParseIntOfDigits(NatToString(m));
  }
}
