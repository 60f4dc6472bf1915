// Shared helpers: Option/Result, and the few pieces of Python's built-in
// string and number semantics that the modelled code relies on.

module Wrappers {
  datatype Option<T> = None | Some(value: T)

  datatype Result<T, E> = Ok(value: T) | Err(error: E) {
    predicate IsFailure() { Err? }

    function PropagateFailure<U>(): Result<U, E>
      requires Err?
    {
      Err(error)
    }

    function Extract(): T
      requires Ok?
    {
      value
    }
  }
}

/** Python `str` behaviour used by the modelled code, over `seq<char>`. */
module PyText {
  import opened Wrappers

  /** Characters for which Python's `str.isspace()` holds: the white space `strip`, `int()` and `float()` remove. */
  predicate IsSpace(c: char) {
    var k := c as int;
    || k == 32 || 9 <= k <= 13 || 28 <= k <= 31 || k == 0x85 || k == 0xA0
    || k == 0x1680 || 0x2000 <= k <= 0x200A || k == 0x2028 || k == 0x2029
    || k == 0x202F || k == 0x205F || k == 0x3000
  }

  /** `s.lstrip()` */
  function TrimStart(s: string): (r: string)
    ensures |r| <= |s| && r == s[|s| - |r|..]
    ensures r == [] || !IsSpace(r[0])
    ensures forall i :: 0 <= i < |s| - |r| ==> IsSpace(s[i])
  {
    if s != [] && IsSpace(s[0]) then TrimStart(s[1..]) else s
  }

  /** `s.rstrip()` */
  function TrimEnd(s: string): (r: string)
    ensures |r| <= |s| && r == s[..|r|]
    ensures r == [] || !IsSpace(r[|r| - 1])
    ensures forall i :: |r| <= i < |s| ==> IsSpace(s[i])
  {
    if s != [] && IsSpace(s[|s| - 1]) then TrimEnd(s[..|s| - 1]) else s
  }

  /** `s.strip()` */
  function Strip(s: string): (r: string)
  {
    TrimEnd(TrimStart(s))
  }

  /** Stripping removes exactly the surrounding white space and keeps a slice of the input. */
  lemma StripIsTrimmedSlice(s: string)
    ensures var r := Strip(s);
      && (r == [] || (!IsSpace(r[0]) && !IsSpace(r[|r| - 1])))
      && exists i :: OccursAt(s, r, i)
  {
    var t := TrimStart(s);
    var r := TrimEnd(t);
    var i := |s| - |t|;
    assert r != [] ==> r[0] == t[0];
    assert r == t[..|r|] == s[i..][..|r|] == s[i..i + |r|];
    assert OccursAt(s, r, i);
  }

  /** `s.strip()` is idempotent. */
  lemma StripIdempotent(s: string)
    ensures Strip(Strip(s)) == Strip(s)
  {
    var r := Strip(s);
    StripIsTrimmedSlice(s);
    assert TrimStart(r) == r;
    assert TrimEnd(r) == r;
  }

  predicate IsAsciiUpper(c: char) { 'A' <= c <= 'Z' }
  predicate IsAsciiLower(c: char) { 'a' <= c <= 'z' }

  /** `s.lower()` on ASCII letters. */
  function Lower(s: string): (r: string)
    ensures |r| == |s|
    ensures forall i :: 0 <= i < |s| ==> !IsAsciiUpper(r[i])
    ensures forall i :: 0 <= i < |s| ==> (r[i] == s[i] || (IsAsciiUpper(s[i]) && r[i] == s[i] - 'A' + 'a'))
  {
    if s == [] then []
    else [if IsAsciiUpper(s[0]) then s[0] - 'A' + 'a' else s[0]] + Lower(s[1..])
  }

  /** Lower-casing twice is lower-casing once. */
  lemma LowerIdempotent(s: string)
    ensures Lower(Lower(s)) == Lower(s)
  {
    var r := Lower(s);
    assert forall i :: 0 <= i < |r| ==> Lower(r)[i] == r[i];
  }

  /** `s.upper()` on ASCII letters. */
  function Upper(s: string): (r: string)
    ensures |r| == |s|
    ensures forall i :: 0 <= i < |s| ==> !IsAsciiLower(r[i])
    ensures forall i :: 0 <= i < |s| ==> (r[i] == s[i] || (IsAsciiLower(s[i]) && r[i] == s[i] - 'a' + 'A'))
  {
    if s == [] then []
    else [if IsAsciiLower(s[0]) then s[0] - 'a' + 'A' else s[0]] + Upper(s[1..])
  }

  /** `p` is a prefix of `s` (Python `s.startswith(p)`). */
  predicate StartsWith(s: string, p: string) {
    |p| <= |s| && s[..|p|] == p
  }

  /** `sub` occurs in `s` at position `i`. */
  predicate OccursAt(s: string, sub: string, i: int) {
    0 <= i <= |s| - |sub| && s[i..i + |sub|] == sub
  }

  /** Python `sub in s` for strings. */
  predicate Contains(s: string, sub: string) {
    exists i | 0 <= i <= |s| - |sub| :: OccursAt(s, sub, i)
  }

  /** `s.split(sep)[0]`: the text before the first occurrence of `sep`. */
  function BeforeFirst(s: string, sep: char): (r: string)
    ensures |r| <= |s| && r == s[..|r|]
    ensures sep !in r
    ensures |r| < |s| ==> s[|r|] == sep
  {
    if s == [] || s[0] == sep then [] else [s[0]] + BeforeFirst(s[1..], sep)
  }

  /** `s.split(sep)`: the pieces between occurrences of `sep`, at least one. */
  function Split(s: string, sep: char): (r: seq<string>)
    ensures |r| >= 1
    ensures forall i :: 0 <= i < |r| ==> sep !in r[i]
    decreases |s|
  {
    var head := BeforeFirst(s, sep);
    if |head| == |s| then [s] else [head] + Split(s[|head| + 1..], sep)
  }

  /** A text without `sep` is everything before the first `sep` of any continuation. */
  lemma {:induction false} BeforeFirstOfJoin(x: string, sep: char, y: string)
    requires sep !in x
    ensures BeforeFirst(x + [sep] + y, sep) == x
    decreases |x|
  {
    if x != [] {
      BeforeFirstOfJoin(x[1..], sep, y);
      assert (x + [sep] + y)[1..] == x[1..] + [sep] + y;
    }
  }

  /** A text without `sep` is its own first piece. */
  lemma {:induction false} BeforeFirstWithoutSeparator(s: string, sep: char)
    requires sep !in s
    ensures BeforeFirst(s, sep) == s
  {
    if s != [] {
      BeforeFirstWithoutSeparator(s[1..], sep);
    }
  }

  /** Splitting two separator-free pieces joined by `sep` gives the two pieces back. */
  lemma SplitOfJoin(x: string, sep: char, y: string)
    requires sep !in x && sep !in y
    ensures Split(x + [sep] + y, sep) == [x, y]
  {
    var s := x + [sep] + y;
    BeforeFirstOfJoin(x, sep, y);
    assert s[|x| + 1..] == y;
    assert BeforeFirst(y, sep) == y;
  }

  function DigitChar(d: nat): (c: char)
    requires d < 10
    ensures '0' <= c <= '9'
  {
    "0123456789"[d]
  }

  function DigitValue(c: char): (d: nat)
    requires '0' <= c <= '9'
    ensures d < 10
  {
    c as int - '0' as int
  }

  /** Decimal digits of a natural number, as Python's `str(n)` writes them. */
  function NatToString(n: nat): (r: string)
    ensures |r| >= 1
    ensures forall i :: 0 <= i < |r| ==> '0' <= r[i] <= '9'
    ensures n > 0 ==> r[0] != '0'
    decreases n
  {
    if n < 10 then [DigitChar(n)] else NatToString(n / 10) + [DigitChar(n % 10)]
  }

  /** Python `str(i)` for an `int`. */
  function IntToString(i: int): (r: string)
    ensures |r| >= 1
    ensures (r[0] == '-') <==> i < 0
  {
    if i < 0 then "-" + NatToString(-i) else NatToString(i)
  }

  /** Value of a string of decimal digits. */
  function DigitsValue(s: string): (n: nat)
    requires forall i :: 0 <= i < |s| ==> '0' <= s[i] <= '9'
    decreases |s|
  {
    if s == [] then 0 else DigitsValue(s[..|s| - 1]) * 10 + DigitValue(s[|s| - 1])
  }

  predicate AllDigits(s: string) {
    forall i :: 0 <= i < |s| ==> '0' <= s[i] <= '9'
  }

  /** Decimal digits with single `_` separators between them, as `int()` and `float()` accept them. */
  predicate DigitGroups(s: string) {
    && s != [] && '0' <= s[0] <= '9' && '0' <= s[|s| - 1] <= '9'
    && (forall i :: 0 <= i < |s| ==> '0' <= s[i] <= '9' || s[i] == '_')
    && !Contains(s, "__")
  }

  /** The text with its `_` separators removed. */
  function WithoutSeparators(s: string): (r: string)
    ensures |r| <= |s|
    ensures forall c :: c in r ==> c in s && c != '_'
  {
    if s == [] then [] else (if s[0] == '_' then [] else [s[0]]) + WithoutSeparators(s[1..])
  }

  /** Removing the separators of digit groups leaves the digits, at least one. */
  lemma DigitGroupsDigits(s: string)
    requires DigitGroups(s)
    ensures AllDigits(WithoutSeparators(s)) && WithoutSeparators(s) != []
  {
    var r := WithoutSeparators(s);
    forall i | 0 <= i < |r| ensures '0' <= r[i] <= '9' {
      assert r[i] in r;
      var j :| 0 <= j < |s| && s[j] == r[i];
    }
    assert s[0] != '_';
  }

  /** A text without separators is its own digits. */
  lemma {:induction false} NoSeparators(s: string)
    requires '_' !in s
    ensures WithoutSeparators(s) == s
  {
    if s != [] {
      NoSeparators(s[1..]);
    }
  }

  /** Plain digits are a single group, worth their value. */
  lemma DigitsAreGroups(s: string)
    requires s != [] && AllDigits(s)
    ensures DigitGroups(s) && GroupsValue(s) == DigitsValue(s)
  {
    assert '_' !in s by {
      forall i | 0 <= i < |s| ensures s[i] != '_' {
        assert '0' <= s[i] <= '9';
      }
    }
    assert !Contains(s, "__") by {
      forall i | 0 <= i <= |s| - 2 ensures !OccursAt(s, "__", i) {
        assert s[i..i + 2][0] == s[i];
      }
    }
    NoSeparators(s);
  }

  /** The value of digit groups, or 0 for the empty text. */
  function GroupsValue(s: string): (n: nat)
    requires s == [] || DigitGroups(s)
  {
    if s == [] then 0
    else
      DigitGroupsDigits(s);
      DigitsValue(WithoutSeparators(s))
  }

  /** Python's `int(s)` for a text: surrounding white space, an optional sign, then decimal
      digits in groups separated by single `_`; anything else is a `ValueError` (here `None`). */
  function ParseInt(s: string): (r: Option<int>)
    ensures r.Some? ==> Strip(s) != []
  {
    IntOfTrimmed(Strip(s))
  }

  /** `int()` of a text without surrounding white space. */
  function IntOfTrimmed(t: string): (r: Option<int>)
    ensures r.Some? ==> t != []
  {
    var signed := t != [] && (t[0] == '-' || t[0] == '+');
    var body := if signed then t[1..] else t;
    if DigitGroups(body) then Some(if signed && t[0] == '-' then -(GroupsValue(body) as int) else GroupsValue(body))
    else None
  }

  function Pow10(n: nat): (r: nat)
    ensures r >= 1
  {
    if n == 0 then 1 else 10 * Pow10(n - 1)
  }

  /** Python's `float(s)` for a decimal text: surrounding white space, an optional sign, then
      a whole part and a fraction after at most one decimal point, each empty or digit groups,
      not both empty; anything else is a `ValueError` (here `None`). */
  function ParseDecimal(s: string): (r: Option<real>)
    ensures r.Some? ==> Strip(s) != []
  {
    DecimalOfTrimmed(Strip(s))
  }

  /** `float()` of a text without surrounding white space. */
  function DecimalOfTrimmed(t: string): (r: Option<real>)
    ensures r.Some? ==> t != []
  {
    var signed := t != [] && (t[0] == '-' || t[0] == '+');
    var body := if signed then t[1..] else t;
    match DecimalBody(body)
    case None => None
    case Some(v) => Some(if signed && t[0] == '-' then -v else v)
  }

  /** The unsigned part of a decimal text: at most one decimal point, a whole part and a
      fraction, each empty or digit groups, not both empty. */
  function DecimalBody(body: string): (r: Option<real>)
    ensures r.Some? ==> body != []
  {
    var parts := Split(body, '.');
    if |parts| > 2 then None
    else
      var whole := parts[0];
      var frac := if |parts| == 2 then parts[1] else [];
      if (whole == [] || DigitGroups(whole)) && (frac == [] || DigitGroups(frac)) && |whole| + |frac| > 0 then
        Some(DecimalValue(whole, frac))
      else None
  }

  /** The value of `whole.frac`. */
  function DecimalValue(whole: string, frac: string): real
    requires whole == [] || DigitGroups(whole)
    requires frac == [] || DigitGroups(frac)
  {
    GroupsValue(whole) as real + GroupsValue(frac) as real / Pow10(|WithoutSeparators(frac)|) as real
  }

  /** A text that starts, after white space, with a letter is no number for `int()` or `float()`. */
  lemma LetterIsNoNumber(s: string)
    requires Strip(s) != [] && (IsAsciiLower(Strip(s)[0]) || IsAsciiUpper(Strip(s)[0]))
    ensures ParseDecimal(s) == None && ParseInt(s) == None
  {
    LetterIsNoNumberText(Strip(s));
  }

  /** A word that starts with a letter and has no white space at either end is no number. */
  lemma WordIsNoNumber(s: string)
    requires s != [] && !IsSpace(s[0]) && !IsSpace(s[|s| - 1])
    requires IsAsciiLower(s[0]) || IsAsciiUpper(s[0])
    ensures ParseDecimal(s) == None && ParseInt(s) == None
  {
    StripOfUnspaced(s);
    LetterIsNoNumberText(s);
  }

  /** The same, for a text without surrounding white space. */
  lemma LetterIsNoNumberText(t: string)
    requires t != [] && (IsAsciiLower(t[0]) || IsAsciiUpper(t[0]))
    ensures DecimalOfTrimmed(t) == None && IntOfTrimmed(t) == None
  {
    var parts := Split(t, '.');
    assert BeforeFirst(t, '.') != [] && BeforeFirst(t, '.')[0] == t[0];
    assert !DigitGroups(parts[0]);
  }

  /** A text without the separator splits into itself alone. */
  lemma SplitWithoutSeparator(s: string, sep: char)
    requires sep !in s
    ensures Split(s, sep) == [s]
  {
    assert BeforeFirst(s, sep) == s;
  }

  /** A text `int()` accepts is accepted by `float()` with the same value. */
  lemma ParseDecimalOfInteger(s: string)
    requires ParseInt(s).Some?
    ensures ParseDecimal(s) == Some(ParseInt(s).value as real)
  {
    DecimalOfIntegerText(Strip(s));
  }

  /** The same, for a text without surrounding white space. */
  lemma DecimalOfIntegerText(t: string)
    requires IntOfTrimmed(t).Some?
    ensures DecimalOfTrimmed(t) == Some(IntOfTrimmed(t).value as real)
  {
    var body := if t[0] == '-' || t[0] == '+' then t[1..] else t;
    DecimalBodyOfGroups(body);
  }

  /** Digit groups without a decimal point read as their integer value. */
  lemma DecimalBodyOfGroups(body: string)
    requires DigitGroups(body)
    ensures DecimalBody(body) == Some(GroupsValue(body) as real)
  {
    GroupsHaveNoPoint(body);
    SplitWithoutSeparator(body, '.');
    assert Split(body, '.') == [body];
    assert GroupsValue([]) == 0 && WithoutSeparators([]) == [] && Pow10(0) == 1;
    assert DecimalValue(body, []) == GroupsValue(body) as real;
  }

  /** Digit groups hold no decimal point. */
  lemma GroupsHaveNoPoint(s: string)
    requires DigitGroups(s)
    ensures '.' !in s
  {
    forall i | 0 <= i < |s| ensures s[i] != '.' {
      assert '0' <= s[i] <= '9' || s[i] == '_';
    }
  }

  lemma {:induction false} DigitValueOfDigitChar(d: nat)
    requires d < 10
    ensures DigitValue(DigitChar(d)) == d
  {
  }

  /** Reading back the digits that `NatToString` writes gives the number. */
  lemma {:induction false} NatToStringRoundTrip(n: nat)
    ensures DigitsValue(NatToString(n)) == n
    decreases n
  {
    var s := NatToString(n);
    if n < 10 {
      DigitValueOfDigitChar(n);
    } else {
      NatToStringRoundTrip(n / 10);
      DigitValueOfDigitChar(n % 10);
      assert s[..|s| - 1] == NatToString(n / 10);
    }
  }

  /** `int(str(n))` is `n`. */
  lemma ParseIntOfNatToString(n: nat)
    ensures ParseInt(NatToString(n)) == Some(n)
  {
    var s := NatToString(n);
    assert !IsSpace(s[0]) && !IsSpace(s[|s| - 1]);
    StripOfUnspaced(s);
    DigitsAreGroups(s);
    assert s[0] != '-' && s[0] != '+';
    NatToStringRoundTrip(n);
  }

  /** A text that neither starts nor ends with white space is its own strip. */
  lemma StripOfUnspaced(s: string)
    requires s != [] && !IsSpace(s[0]) && !IsSpace(s[|s| - 1])
    ensures Strip(s) == s
  {
    assert TrimStart(s) == s;
    assert TrimEnd(s) == s;
  }


}

/** Python number behaviour used by the modelled code, over `real` and `int`. */
module PyNum {

  /** Python's `round(x)` for a float: the nearest integer, ties to the even one. */
  function RoundHalfEven(x: real): (r: int)
    ensures (r as real) - x <= 1.0 / 2.0 && x - (r as real) <= 1.0 / 2.0
    ensures (r as real) - x == 1.0 / 2.0 || x - (r as real) == 1.0 / 2.0 ==> r % 2 == 0
  {
    var f := x.Floor;
    var d := x - f as real;
    if d < 1.0 / 2.0 then f
    else if d > 1.0 / 2.0 then f + 1
    else if f % 2 == 0 then f else f + 1
  }

  /** An integral value rounds to itself. */
  lemma RoundIntegral(n: int)
    ensures RoundHalfEven(n as real) == n
  {
  }

  /** A value nearer to an integer than one half rounds to that integer. */
  lemma RoundNear(x: real, n: int)
    requires (n as real) - 1.0 / 2.0 < x < (n as real) + 1.0 / 2.0
    ensures RoundHalfEven(x) == n
  {
    var r := RoundHalfEven(x);
    assert ((r - n) as real) < 1.0 && ((n - r) as real) < 1.0;
  }

  /** Rounding is monotone. */
  lemma {:induction false} RoundMonotone(x: real, y: real)
    requires x <= y
    ensures RoundHalfEven(x) <= RoundHalfEven(y)
  {
    var rx, ry := RoundHalfEven(x), RoundHalfEven(y);
    if x < y {
      assert (rx - ry) as real < 1.0;
    }
  }

  /** Rounding stays between two integer bounds of its argument. */
  lemma RoundWithin(x: real, lo: int, hi: int)
    requires lo as real <= x <= hi as real
    ensures lo <= RoundHalfEven(x) <= hi
  {
    RoundMonotone(lo as real, x);
    RoundMonotone(x, hi as real);
    RoundIntegral(lo);
    RoundIntegral(hi);
  }

  /** Python's `int(x)` for a float: truncation toward zero. */
  function TruncToInt(x: real): (r: int)
    ensures 0.0 <= x ==> r == x.Floor
    ensures x < 0.0 ==> r == -((-x).Floor)
    ensures (if r < 0 then -r else r) as real <= (if x < 0.0 then -x else x)
  {
    if x >= 0.0 then x.Floor else -((-x).Floor)
  }

  /** `b ** n` for a natural exponent. */
  function Pow(b: real, n: nat): real
  {
    if n == 0 then 1.0 else Pow(b, n - 1) * b
  }

  function Abs(x: real): real { if x < 0.0 then -x else x }

  /** Powers of a factor strictly between 0 and 1 shrink strictly and stay positive. */
  lemma {:induction false} PowShrinks(b: real, n: nat)
    requires 0.0 < b < 1.0
    ensures 0.0 < Pow(b, n + 1) < Pow(b, n)
  {
    if n > 0 {
      PowShrinks(b, n - 1);
    }
  }

  /** `max(x, 0)` as `Series.clip(lower=0)` computes it. */
  function ClipLow0(x: real): (r: real)
    ensures r >= 0.0 && r >= x
    ensures r == x || r == 0.0
  {
    if x < 0.0 then 0.0 else x
  }
}
