/** Values, characters and strings shared by the backend and frontend models. */
module Common {

  datatype Option<T> = None | Some(value: T)

  /** A JavaScript value as it appears in request bodies, form state and payloads. */
  datatype JVal = Undefined | Null | JBool(b: bool) | JNum(n: int) | JStr(s: string)

  /** JavaScript truthiness (`if (v)`, `v || d`, `!v`). NaN is not a modelled number. */
  predicate Truthy(v: JVal)
  {
    match v
    case Undefined => false
    case Null => false
    case JBool(b) => b
    case JNum(n) => n != 0
    case JStr(s) => s != ""
  }

  /** Property access on a plain object: a missing key reads as `undefined`. */
  function Get(m: map<string, JVal>, k: string): (v: JVal)
    ensures k !in m ==> v == Undefined
    ensures k in m ==> v == m[k]
  {
    if k in m then m[k] else Undefined
  }

  /** A form field's value: typed text, the chosen file, or nothing (`null`, or no file chosen). */
  datatype Field = Str(text: string) | Chosen(file: string) | Nothing

  /** The parts of an input's change event the handlers read. */
  datatype InputEvent = InputEvent(name: string, value: string, isFile: bool, files: seq<string>)

  /** `isFile ? files[0] : value`: a file input yields its first file, any other input its text. */
  function EventValue(e: InputEvent): Field
  {
    if !e.isFile then Str(e.value)
    else if e.files == [] then Nothing
    else Chosen(e.files[0])
  }

  /** `a || b` on two values. */
  function Or(a: JVal, b: JVal): (v: JVal)
    ensures Truthy(a) ==> v == a
    ensures !Truthy(a) ==> v == b
  {
    if Truthy(a) then a else b
  }

  // ---------------------------------------------------------------- characters

  predicate IsDigit(c: char) { '0' <= c <= '9' }
  predicate IsUpper(c: char) { 'A' <= c <= 'Z' }
  predicate IsLower(c: char) { 'a' <= c <= 'z' }
  predicate IsLetter(c: char) { IsUpper(c) || IsLower(c) }
  /** The `\w` class of a regular expression. */
  predicate IsWord(c: char) { IsLetter(c) || IsDigit(c) || c == '_' }
  /** The `\s` class, restricted to ASCII white space and the no-break space. */
  predicate IsSpace(c: char)
  {
    c == ' ' || c == '\t' || c == '\n' || c == '\r' || c == '\U{000B}' || c == '\U{000C}' || c == '\U{00A0}'
  }

  predicate AllDigits(s: string) { forall i :: 0 <= i < |s| ==> IsDigit(s[i]) }
  predicate NoSpace(s: string) { forall i :: 0 <= i < |s| ==> !IsSpace(s[i]) }

  // ---------------------------------------------------------------- strings

  predicate StartsWith(s: string, p: string) { |p| <= |s| && s[..|p|] == p }

  /** `s.includes(sub)`. */
  predicate Contains(s: string, sub: string)
  {
    StartsWith(s, sub) || (s != [] && Contains(s[1..], sub))
  }

  /** `s.replace(/\D/g, '')`: keeps the digits, in order. */
  function DigitsOf(s: string): (r: string)
    ensures AllDigits(r) && |r| <= |s|
    ensures AllDigits(s) ==> r == s
  {
    if s == [] then []
    else if IsDigit(s[0]) then [s[0]] + DigitsOf(s[1..])
    else DigitsOf(s[1..])
  }

  /** `s.replace(/\s/g, '')` (and `/\s+/g`): drops every white-space character. */
  function StripSpaces(s: string): (r: string)
    ensures NoSpace(r) && |r| <= |s|
    ensures NoSpace(s) ==> r == s
  {
    if s == [] then []
    else if IsSpace(s[0]) then StripSpaces(s[1..])
    else [s[0]] + StripSpaces(s[1..])
  }

  function TrimStart(s: string): (r: string)
  {
    if s != [] && IsSpace(s[0]) then TrimStart(s[1..]) else s
  }

  function TrimEnd(s: string): (r: string)
  {
    if s != [] && IsSpace(s[|s| - 1]) then TrimEnd(s[..|s| - 1]) else s
  }

  /** `s.trim()`. */
  function Trim(s: string): (r: string)
  {
    TrimEnd(TrimStart(s))
  }

  /** Text with no white space at either end is its own trim. */
  lemma TrimUnchanged(s: string)
    requires s != [] && !IsSpace(s[0]) && !IsSpace(s[|s| - 1])
    ensures Trim(s) == s
  {
    assert TrimStart(s) == s;
  }

  /** `s.trim() !== ''`, the "non-blank" test used by the forms. */
  predicate Blank(s: string) { Trim(s) == "" }

  function LowerChar(c: char): char { if IsUpper(c) then (c as int + 32) as char else c }
  function UpperChar(c: char): char { if IsLower(c) then (c as int - 32) as char else c }

  /** `s.toLowerCase()` on ASCII letters. */
  function Lower(s: string): (r: string)
    ensures |r| == |s| && forall i :: 0 <= i < |s| ==> r[i] == LowerChar(s[i])
  {
    if s == [] then [] else [LowerChar(s[0])] + Lower(s[1..])
  }

  /** `s.toUpperCase()` on ASCII letters. */
  function Upper(s: string): (r: string)
    ensures |r| == |s| && forall i :: 0 <= i < |s| ==> r[i] == UpperChar(s[i])
  {
    if s == [] then [] else [UpperChar(s[0])] + Upper(s[1..])
  }

  // ---------------------------------------------------------------- numbers

  function DigitChar(d: nat): char
    requires d < 10
  {
    "0123456789"[d]
  }

  /** The decimal form of a natural number, without leading zeros (`String(n)`). */
  function NatToString(n: nat): (r: string)
    ensures |r| >= 1 && AllDigits(r)
    ensures n < 10 <==> |r| == 1
    decreases n
  {
    if n < 10 then [DigitChar(n)] else NatToString(n / 10) + [DigitChar(n % 10)]
  }

  /** The decimal form of an integer (`${n}`). */
  function IntToString(n: int): (r: string)
    ensures |r| >= 1
    ensures n >= 0 ==> r == NatToString(n)
    ensures n < 0 ==> r[0] == '-'
  {
    if n >= 0 then NatToString(n) else "-" + NatToString(-n)
  }

  /** `${v}`: the text a value interpolates to. */
  function Render(v: JVal): string
  {
    match v
    case Undefined => "undefined"
    case Null => "null"
    case JBool(b) => if b then "true" else "false"
    case JNum(n) => IntToString(n)
    case JStr(s) => s
  }

  function DigitValue(c: char): nat
    requires IsDigit(c)
  {
    c as int - '0' as int
  }

  /** The value of a run of decimal digits; the empty run is 0. */
  function DigitsValue(s: string): nat
    requires AllDigits(s)
  {
    if s == [] then 0 else DigitsValue(s[..|s| - 1]) * 10 + DigitValue(s[|s| - 1])
  }

  function Pow10(k: nat): (r: nat)
    ensures r >= 1
  {
    if k == 0 then 1 else 10 * Pow10(k - 1)
  }

  /** `s.padStart(width, '0')`. */
  function PadZeros(s: string, width: nat): (r: string)
    ensures |r| == if |s| >= width then |s| else width
    ensures r[|r| - |s|..] == s
    ensures forall i :: 0 <= i < |r| - |s| ==> r[i] == '0'
    decreases width - |s|
  {
    if |s| >= width then s else PadZeros("0" + s, width)
  }

  /**
   * `Math.round(a / b)` for a positive divisor: the nearest integer, halves
   * rounded up (towards positive infinity), as JavaScript does.
   */
  function RoundDiv(a: int, b: int): (r: int)
    requires b > 0
    ensures 2 * b * r <= 2 * a + b < 2 * b * r + 2 * b
  {
    (2 * a + b) / (2 * b)
  }

  /** `Math.floor(a / b)` for a positive divisor. */
  function FloorDiv(a: int, b: int): (r: int)
    requires b > 0
    ensures b * r <= a < b * r + b
  {
    a / b
  }

  /**
   * `Number(s)` for decimal literals without exponent: `None` stands for NaN.
   * A blank string is 0, as in JavaScript; surrounding white space is ignored.
   */
  function JsNumber(s: string): (r: Option<real>)
    ensures Blank(s) ==> r == Some(0.0)
  {
    var t := Trim(s);
    if t == "" then Some(0.0) else DecimalLiteral(t)
  }

  /** A decimal literal `[+-]?digits[.digits]` (or `[+-]?.digits`) and its value. */
  function DecimalLiteral(t: string): (r: Option<real>)
    ensures t == "" ==> r == None
  {
    if t == "" then None
    else if t[0] == '-' then
      match UnsignedDecimal(t[1..]) case None => None case Some(x) => Some(-x)
    else if t[0] == '+' then UnsignedDecimal(t[1..])
    else UnsignedDecimal(t)
  }

  function UnsignedDecimal(t: string): (r: Option<real>)
    ensures r.Some? ==> r.value >= 0.0
  {
    if AllDigits(t) && t != [] then Some(DigitsValue(t) as real)
    else if exists i :: 0 <= i < |t| && t[i] == '.' then
      var i := FirstIndex(t, '.');
      var whole, frac := t[..i], t[i + 1..];
      if AllDigits(whole) && AllDigits(frac) && |whole| + |frac| > 0 then
        Some(DigitsValue(whole) as real + DigitsValue(frac) as real / Pow10(|frac|) as real)
      else None
    else None
  }

  /** The first position of `c` in `s`. */
  function FirstIndex(s: string, c: char): (i: nat)
    requires exists k :: 0 <= k < |s| && s[k] == c
    ensures i < |s| && s[i] == c
    ensures forall k :: 0 <= k < i ==> s[k] != c
  {
    if s[0] == c then 0 else 1 + FirstIndex(s[1..], c)
  }

  lemma {:induction false} DigitsOfPrefixDigits(p: string, s: string)
    requires AllDigits(p)
    ensures DigitsOf(p + s) == p + DigitsOf(s)
  {
    if p == [] {
      assert p + s == s;
    } else {
      var q := p[1..];
      assert p == [p[0]] + q;
      assert p + s == [p[0]] + (q + s);
      DigitsOfPrefixDigits(q, s);
      assert DigitsOf(p + s) == [p[0]] + DigitsOf(q + s);
    }
  }

  /** A nonzero multiple of `a` is at least `a` away from 0. */
  lemma MultipleAwayFromZero(a: int, d: int)
    requires a > 0
    ensures d >= 1 ==> a * d >= a
    ensures d <= -1 ==> a * d <= -a
  {
    if d >= 1 {
      assert a * d == a + a * (d - 1);
    } else if d <= -1 {
      assert a * d == -a - a * (-d - 1);
    }
  }

  /** Quotient and remainder are the only pair that splits `t` this way. */
  lemma DivModUnique(t: int, a: int, q: int, r: int)
    requires a > 0 && t == a * q + r && 0 <= r < a
    ensures t / a == q && t % a == r
  {
    var q', r' := t / a, t % a;
    var d := q - q';
    assert a * q == a * q' + a * d;
    MultipleAwayFromZero(a, d);
  }

  /** Taking the remainder by a multiple of `a` first does not change the remainder by `a`. */
  lemma ModOfMod(t: int, k: int, a: int)
    requires t >= 0 && k > 0 && a > 0
    ensures (t % (k * a)) % a == t % a
  {
    var q, r := t / (k * a), t % (k * a);
    var q2, r2 := r / a, r % a;
    assert t == a * (k * q + q2) + r2;
    DivModUnique(t, a, k * q + q2, r2);
  }
}

/** Ordering used by the `sort({field: -1})` queries: newest (largest key) first. */
module Sorting {

  predicate SortedDesc<T>(s: seq<T>, key: T -> int)
  {
    forall i, j :: 0 <= i < j < |s| ==> key(s[i]) >= key(s[j])
  }

  function Insert<T>(x: T, s: seq<T>, key: T -> int): seq<T>
  {
    if s == [] || key(x) >= key(s[0]) then [x] + s else [s[0]] + Insert(x, s[1..], key)
  }

  /** A stable sort by descending key. */
  function SortDesc<T>(s: seq<T>, key: T -> int): seq<T>
  {
    if s == [] then [] else Insert(s[0], SortDesc(s[1..], key), key)
  }

  lemma {:induction false} InsertBound<T>(x: T, s: seq<T>, key: T -> int, b: int)
    requires key(x) <= b && forall k :: 0 <= k < |s| ==> key(s[k]) <= b
    ensures forall k :: 0 <= k < |Insert(x, s, key)| ==> key(Insert(x, s, key)[k]) <= b
    decreases |s|
  {
    if s != [] && key(x) < key(s[0]) {
      InsertBound(x, s[1..], key, b);
    }
  }

  lemma {:induction false} InsertSorted<T>(x: T, s: seq<T>, key: T -> int)
    requires SortedDesc(s, key)
    ensures SortedDesc(Insert(x, s, key), key)
    decreases |s|
  {
    if s != [] && key(x) < key(s[0]) {
      InsertSorted(x, s[1..], key);
      InsertBound(x, s[1..], key, key(s[0]));
    }
  }

  lemma {:induction false} InsertPerm<T>(x: T, s: seq<T>, key: T -> int)
    ensures multiset(Insert(x, s, key)) == multiset(s) + multiset{x}
    decreases |s|
  {
    if s != [] && key(x) < key(s[0]) {
      InsertPerm(x, s[1..], key);
      assert s == [s[0]] + s[1..];
    }
  }

  /** The sort returns the same elements, ordered by descending key. */
  lemma {:induction false} SortDescProperties<T>(s: seq<T>, key: T -> int)
    ensures SortedDesc(SortDesc(s, key), key)
    ensures multiset(SortDesc(s, key)) == multiset(s)
    ensures |SortDesc(s, key)| == |s|
    decreases |s|
  {
    if s != [] {
      SortDescProperties(s[1..], key);
      InsertSorted(s[0], SortDesc(s[1..], key), key);
      InsertPerm(s[0], SortDesc(s[1..], key), key);
      assert s == [s[0]] + s[1..];
      assert |SortDesc(s, key)| == |multiset(SortDesc(s, key))|;
    }
  }
}
