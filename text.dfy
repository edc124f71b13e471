/**
 * String operations of the Python and TypeScript standard libraries that the
 * core relies on, written out over `seq<char>`: prefix tests, first-occurrence
 * replacement, Python's `str.split`, `str.strip` and `", ".join`, ASCII
 * upper-casing, decimal rendering of integers and JavaScript's `Math.round`.
 */
module Text {

  predicate StartsWith(s: string, prefix: string) {
    |prefix| <= |s| && s[..|prefix|] == prefix
  }

  /** `sep` occurs in `s` at index `i`. */
  predicate OccursAt(s: string, sep: string, i: nat) {
    i <= |s| && StartsWith(s[i..], sep)
  }

  /** `sep` occurs in `s` at some index strictly before `n`. */
  predicate OccursBefore(s: string, sep: string, n: nat) {
    exists i: nat :: i < n && OccursAt(s, sep, i)
  }

  // ---------------------------------------------------------------------
  // First-occurrence replacement (JS `s.replace(pattern, replacement)` with a
  // string pattern replaces only the first match).

  function ReplaceFirst(s: string, pat: string, rep: string): (r: string)
    decreases |s|
  {
    if StartsWith(s, pat) then rep + s[|pat|..]
    else if s == [] then []
    else [s[0]] + ReplaceFirst(s[1..], pat, rep)
  }

  /** A string that does not contain the pattern is returned unchanged. */
  lemma {:induction false} ReplaceFirstAbsent(s: string, pat: string, rep: string)
    requires !OccursBefore(s, pat, |s| + 1)
    ensures ReplaceFirst(s, pat, rep) == s
    decreases |s|
  {
    assert !OccursAt(s, pat, 0);
    if s != [] {
      forall i: nat | i < |s[1..]| + 1
        ensures !OccursAt(s[1..], pat, i)
      {
        assert s[1..][i..] == s[i + 1..];
        assert !OccursAt(s, pat, i + 1);
      }
      ReplaceFirstAbsent(s[1..], pat, rep);
    }
  }

  /** Replacing the first occurrence: the text before it is kept, the pattern becomes `rep`. */
  lemma {:induction false} ReplaceFirstAt(a: string, pat: string, rep: string, b: string)
    requires !OccursBefore(a + pat + b, pat, |a|)
    ensures ReplaceFirst(a + pat + b, pat, rep) == a + rep + b
    decreases |a|
  {
    var s := a + pat + b;
    if a == [] {
      assert s == pat + b;
      assert s[..|pat|] == pat;
      assert s[|pat|..] == b;
    } else {
      assert !OccursAt(s, pat, 0);
      assert s[1..] == a[1..] + pat + b;
      forall i: nat | i < |a[1..]|
        ensures !OccursAt(a[1..] + pat + b, pat, i)
      {
        assert s[1..][i..] == s[i + 1..];
        assert !OccursAt(s, pat, i + 1);
      }
      ReplaceFirstAt(a[1..], pat, rep, b);
      assert [s[0]] + (a[1..] + rep + b) == a + rep + b;
    }
  }

  /** JS `s.replace('T', ' ')` on a single character keeps the length. */
  lemma {:induction false} ReplaceFirstCharLength(s: string, c: char, d: char)
    ensures |ReplaceFirst(s, [c], [d])| == |s|
    decreases |s|
  {
    if !StartsWith(s, [c]) && s != [] {
      ReplaceFirstCharLength(s[1..], c, d);
    }
  }

  // ---------------------------------------------------------------------
  // Python `s.split(sep)`: scanning left to right, non-overlapping.

  function Split(s: string, sep: string): (pieces: seq<string>)
    requires sep != []
    ensures |pieces| >= 1
    decreases |s|
  {
    if s == [] then [[]]
    else if StartsWith(s, sep) then [[]] + Split(s[|sep|..], sep)
    else
      var rest := Split(s[1..], sep);
      [[s[0]] + rest[0]] + rest[1..]
  }

  /** Python `sep.join(pieces)`. */
  function Join(pieces: seq<string>, sep: string): (r: string)
    decreases |pieces|
  {
    if pieces == [] then []
    else if |pieces| == 1 then pieces[0]
    else pieces[0] + sep + Join(pieces[1..], sep)
  }

  /** Splitting and re-joining with the same separator gives the string back. */
  lemma {:induction false} JoinSplit(s: string, sep: string)
    requires sep != []
    ensures Join(Split(s, sep), sep) == s
    decreases |s|
  {
    if s == [] {
    } else if StartsWith(s, sep) {
      var rest := Split(s[|sep|..], sep);
      JoinSplit(s[|sep|..], sep);
      assert Split(s, sep) == [[]] + rest;
      assert ([[]] + rest)[1..] == rest;
      assert s == sep + s[|sep|..];
    } else {
      var rest := Split(s[1..], sep);
      JoinSplit(s[1..], sep);
      assert Split(s, sep) == [[s[0]] + rest[0]] + rest[1..];
      JoinCons(s[0], rest, sep);
      assert s == [s[0]] + s[1..];
    }
  }

  /** Prefixing the first piece with a character prefixes the joined string with it. */
  lemma JoinCons(c: char, pieces: seq<string>, sep: string)
    requires |pieces| >= 1
    ensures Join([[c] + pieces[0]] + pieces[1..], sep) == [c] + Join(pieces, sep)
  {
    var p := [[c] + pieces[0]] + pieces[1..];
    if |pieces| > 1 {
      assert p[1..] == pieces[1..];
    }
  }

  /** A string without the separator splits into itself alone. */
  lemma {:induction false} SplitAbsent(s: string, sep: string)
    requires sep != []
    requires !OccursBefore(s, sep, |s| + 1)
    ensures Split(s, sep) == [s]
    decreases |s|
  {
    assert !OccursAt(s, sep, 0);
    if s != [] {
      forall i: nat | i < |s[1..]| + 1
        ensures !OccursAt(s[1..], sep, i)
      {
        assert s[1..][i..] == s[i + 1..];
        assert !OccursAt(s, sep, i + 1);
      }
      SplitAbsent(s[1..], sep);
      assert !StartsWith(s, sep);
      assert [s[0]] + s[1..] == s;
    }
  }

  /** The first piece of a split is the text before the first separator. */
  lemma {:induction false} SplitFirstPiece(a: string, sep: string, b: string)
    requires sep != []
    requires !OccursBefore(a + sep + b, sep, |a|)
    ensures Split(a + sep + b, sep)[0] == a
    decreases |a|
  {
    var s := a + sep + b;
    if a == [] {
      assert s[..|sep|] == sep;
    } else {
      assert !OccursAt(s, sep, 0);
      assert s[1..] == a[1..] + sep + b;
      forall i: nat | i < |a[1..]|
        ensures !OccursAt(a[1..] + sep + b, sep, i)
      {
        assert s[1..][i..] == s[i + 1..];
        assert !OccursAt(s, sep, i + 1);
      }
      SplitFirstPiece(a[1..], sep, b);
    }
  }

  /** Splitting after a first piece free of the separator peels that piece off. */
  lemma {:induction false} SplitAfter(a: string, sep: string, b: string)
    requires sep != []
    requires !OccursBefore(a + sep + b, sep, |a|)
    ensures Split(a + sep + b, sep) == [a] + Split(b, sep)
    decreases |a|
  {
    var s := a + sep + b;
    if a == [] {
      assert s == sep + b;
      assert s[..|sep|] == sep;
      assert s[|sep|..] == b;
    } else {
      assert !OccursAt(s, sep, 0);
      assert s[1..] == a[1..] + sep + b;
      forall i: nat | i < |a[1..]|
        ensures !OccursAt(a[1..] + sep + b, sep, i)
      {
        assert s[1..][i..] == s[i + 1..];
        assert !OccursAt(s, sep, i + 1);
      }
      SplitAfter(a[1..], sep, b);
      assert [s[0]] + a[1..] == a;
    }
  }

  /** No piece of a split on a one-character separator contains that character. */
  lemma {:induction false} SplitCharFree(s: string, c: char)
    ensures forall p :: p in Split(s, [c]) ==> c !in p
    decreases |s|
  {
    if s == [] {
    } else if StartsWith(s, [c]) {
      SplitCharFree(s[1..], c);
    } else {
      assert s[..1] == [s[0]];
      var rest := Split(s[1..], [c]);
      SplitCharFree(s[1..], c);
      assert c !in rest[0];
      assert forall p :: p in rest[1..] ==> p in rest;
    }
  }

  /** A string without the character `c` has no occurrence of `[c]`. */
  lemma CharAbsent(s: string, c: char)
    requires c !in s
    ensures !OccursBefore(s, [c], |s| + 1)
  {
    forall i: nat | i < |s| + 1
      ensures !OccursAt(s, [c], i)
    {
      if i < |s| {
        assert s[i..][0] == s[i];
      }
    }
  }

  /** A pattern whose first character does not occur among the first `n` characters is not found before `n`. */
  lemma FirstCharAbsentBefore(s: string, pat: string, n: nat)
    requires pat != [] && n <= |s|
    requires forall i :: 0 <= i < n ==> s[i] != pat[0]
    ensures !OccursBefore(s, pat, n)
  {
    forall i: nat | i < n
      ensures !OccursAt(s, pat, i)
    {
      assert s[i..][0] == s[i];
    }
  }

  /** JavaScript `slice(0, n)` on a string or array: the first `n` elements, or all of them when there are fewer. */
  function Slice<T>(s: seq<T>, n: nat): (r: seq<T>)
    ensures |r| == if n <= |s| then n else |s|
    ensures r == s[..|r|]
  {
    if n <= |s| then s[..n] else s
  }

  /** The elements in the opposite order. */
  function Reversed<T>(s: seq<T>): (r: seq<T>)
    ensures |r| == |s|
  {
    if s == [] then [] else [s[|s| - 1]] + Reversed(s[..|s| - 1])
  }

  lemma {:induction false} ReversedAt<T>(s: seq<T>, i: nat)
    requires i < |s|
    ensures Reversed(s)[i] == s[|s| - 1 - i]
  {
    if i > 0 {
      ReversedAt(s[..|s| - 1], i - 1);
    }
  }

  predicate EndsWith(s: string, suffix: string) {
    |suffix| <= |s| && s[|s| - |suffix|..] == suffix
  }

  function Last<T>(s: seq<T>): T
    requires s != []
  {
    s[|s| - 1]
  }

  /** A join ends with its last piece. */
  lemma {:induction false} JoinEndsWithLast(pieces: seq<string>, sep: string)
    requires pieces != []
    ensures EndsWith(Join(pieces, sep), Last(pieces))
    decreases |pieces|
  {
    if |pieces| > 1 {
      JoinEndsWithLast(pieces[1..], sep);
      var j := Join(pieces[1..], sep);
      var s := pieces[0] + sep + j;
      assert Last(pieces[1..]) == Last(pieces);
      assert s[|s| - |j|..] == j;
      assert s[|s| - |Last(pieces)|..] == j[|j| - |Last(pieces)|..];
    }
  }

  // ---------------------------------------------------------------------
  // Python `str.strip()` (ASCII whitespace).

  predicate IsSpace(c: char) {
    c == ' ' || c == '\t' || c == '\n' || c == '\r' || c == '\U{0B}' || c == '\U{0C}'
  }

  function TrimStart(s: string): (r: string)
    ensures |r| <= |s| && r == s[|s| - |r|..]
    ensures r != [] ==> !IsSpace(r[0])
    ensures forall i :: 0 <= i < |s| - |r| ==> IsSpace(s[i])
    decreases |s|
  {
    if s != [] && IsSpace(s[0]) then TrimStart(s[1..]) else s
  }

  function TrimEnd(s: string): (r: string)
    ensures |r| <= |s| && r == s[..|r|]
    ensures r != [] ==> !IsSpace(r[|r| - 1])
    ensures forall i :: |r| <= i < |s| ==> IsSpace(s[i])
    decreases |s|
  {
    if s != [] && IsSpace(s[|s| - 1]) then TrimEnd(s[..|s| - 1]) else s
  }

  /** `r` is `s` from index `i` on, with only whitespace before it and after it. */
  predicate StrippedAt(s: string, r: string, i: int) {
    0 <= i <= |s| - |r| && r == s[i..i + |r|]
    && (forall k :: 0 <= k < i ==> IsSpace(s[k]))
    && (forall k :: i + |r| <= k < |s| ==> IsSpace(s[k]))
  }

  /** The text between the leading and the trailing whitespace. */
  function Strip(s: string): (r: string)
    ensures exists i :: StrippedAt(s, r, i)
    ensures r != [] ==> !IsSpace(r[0]) && !IsSpace(r[|r| - 1])
  {
    var t := TrimStart(s);
    var r := TrimEnd(t);
    assert r == s[|s| - |t|..][..|r|];
    assert StrippedAt(s, r, |s| - |t|);
    r
  }

  /** Stripping twice is stripping once. */
  lemma StripIdempotent(s: string)
    ensures Strip(Strip(s)) == Strip(s)
  {
    var r := Strip(s);
    if r != [] {
      assert !IsSpace(r[0]);
      assert TrimStart(r) == r;
      assert !IsSpace(r[|r| - 1]);
      assert TrimEnd(r) == r;
    }
  }

  // ---------------------------------------------------------------------
  // ASCII case mapping (`toUpperCase` restricted to a-z).

  function UpperChar(c: char): char {
    if 'a' <= c <= 'z' then (c as int - 32) as char else c
  }

  function Upper(s: string): (r: string)
    ensures |r| == |s|
    ensures forall i :: 0 <= i < |s| ==> r[i] == UpperChar(s[i])
  {
    seq(|s|, i requires 0 <= i < |s| => UpperChar(s[i]))
  }

  // ---------------------------------------------------------------------
  // Decimal rendering of integers (`str(n)`, `${n}`).

  function DigitChar(d: nat): char
    requires d < 10
  {
    "0123456789"[d]
  }

  function NatToString(n: nat): (r: string)
    ensures r != []
    ensures forall i :: 0 <= i < |r| ==> '0' <= r[i] <= '9'
    decreases n
  {
    if n < 10 then [DigitChar(n)] else NatToString(n / 10) + [DigitChar(n % 10)]
  }

  function IntToString(n: int): string {
    if n < 0 then "-" + NatToString(-n) else NatToString(n)
  }

  // ---------------------------------------------------------------------
  // Reading decimal text back, the reference for the renderings above.

  predicate AllDigits(s: string) {
    forall i :: 0 <= i < |s| ==> '0' <= s[i] <= '9'
  }

  /** The number a string of decimal digits denotes. */
  function DigitsValue(s: string): nat
    requires AllDigits(s)
  {
    if s == [] then 0 else DigitsValue(s[..|s| - 1]) * 10 + (s[|s| - 1] as int - '0' as int)
  }

  predicate Negative(s: string) {
    s != [] && s[0] == '-'
  }

  /** The text after an optional leading minus sign. */
  function Unsigned(s: string): string {
    if Negative(s) then s[1..] else s
  }

  /** An optional minus sign followed by digits. */
  predicate IsIntText(s: string) {
    Unsigned(s) != [] && AllDigits(Unsigned(s))
  }

  /** The integer an `IsIntText` string denotes. */
  function IntValue(s: string): int
    requires IsIntText(s)
  {
    if Negative(s) then -(DigitsValue(Unsigned(s)) as int) else DigitsValue(Unsigned(s))
  }

  /** An optional minus sign, digits, a point and one digit. */
  predicate IsFixed1Text(s: string) {
    var u := Unsigned(s);
    |u| >= 3 && u[|u| - 2] == '.' && AllDigits(u[..|u| - 2]) && AllDigits(u[|u| - 1..])
  }

  /** The number of tenths an `IsFixed1Text` string denotes. */
  function Tenths(s: string): int
    requires IsFixed1Text(s)
  {
    var u := Unsigned(s);
    var t := DigitsValue(u[..|u| - 2]) * 10 + DigitsValue(u[|u| - 1..]);
    if Negative(s) then -t else t
  }

  lemma DigitValue(d: nat)
    requires d < 10
    ensures '0' <= DigitChar(d) <= '9' && DigitChar(d) as int - '0' as int == d
  {
  }

  /** `str(n)` of a natural number reads back as that number. */
  lemma {:induction false} NatToStringValue(n: nat)
    ensures AllDigits(NatToString(n)) && DigitsValue(NatToString(n)) == n
    decreases n
  {
    var r := NatToString(n);
    if n < 10 {
      DigitValue(n);
    } else {
      NatToStringValue(n / 10);
      DigitValue(n % 10);
      assert r[..|r| - 1] == NatToString(n / 10);
    }
  }

  /** `str(n)` reads back as n, a minus sign exactly for a negative n. */
  lemma IntToStringValue(n: int)
    ensures IsIntText(IntToString(n)) && IntValue(IntToString(n)) == n
    ensures Negative(IntToString(n)) <==> n < 0
  {
    if n < 0 {
      NatToStringValue(-n);
      assert Unsigned(IntToString(n)) == NatToString(-n);
    } else {
      NatToStringValue(n);
      assert NatToString(n)[0] != '-';
    }
  }

  /** A sign in front of unsigned text is what `Unsigned` and `Negative` see. */
  lemma SignedText(sign: string, u: string)
    requires sign == "" || sign == "-"
    requires u != [] && u[0] != '-'
    ensures Unsigned(sign + u) == u && (Negative(sign + u) <==> sign == "-")
  {
    if sign == "-" {
      assert (sign + u)[1..] == u;
    } else {
      assert sign + u == u;
    }
  }

  lemma OneDigitValue(d: nat)
    requires d < 10
    ensures AllDigits([DigitChar(d)]) && DigitsValue([DigitChar(d)]) == d
  {
    DigitValue(d);
    assert [DigitChar(d)][..0] == [];
  }

  /** Digits, a point and one more digit read back as tenths. */
  lemma FixedPieces(sign: string, q: nat, d: nat)
    requires sign == "" || sign == "-"
    requires d < 10
    ensures IsFixed1Text(sign + NatToString(q) + "." + [DigitChar(d)])
    ensures Tenths(sign + NatToString(q) + "." + [DigitChar(d)]) == if sign == "-" then -(q * 10 + d) else q * 10 + d
    ensures Negative(sign + NatToString(q) + "." + [DigitChar(d)]) <==> sign == "-"
  {
    var ds := NatToString(q);
    var u := ds + "." + [DigitChar(d)];
    var s := sign + ds + "." + [DigitChar(d)];
    assert s == sign + u;
    NatToStringValue(q);
    OneDigitValue(d);
    SignedText(sign, u);
    assert u[..|u| - 2] == ds;
    assert u[|u| - 1..] == [DigitChar(d)];
    assert u[|u| - 2] == '.';
  }

  function Abs(n: int): nat {
    if n < 0 then -n else n
  }

  /** `a` tenths as digits, a point and the last digit, after a minus sign when `negative`. */
  function SignedTenths(negative: bool, a: nat): string {
    (if negative then "-" else "") + NatToString(a / 10) + "." + [DigitChar(a % 10)]
  }

  /** The text of a count of tenths reads back as that count, signed. */
  lemma TenthsText(negative: bool, a: nat)
    ensures IsFixed1Text(SignedTenths(negative, a))
    ensures Tenths(SignedTenths(negative, a)) == if negative then -(a as int) else a
    ensures Negative(SignedTenths(negative, a)) <==> negative
  {
    FixedPieces(if negative then "-" else "", a / 10, a % 10);
  }

  // ---------------------------------------------------------------------
  // Rounded renderings of exact values (`{x:.0%}`, `{x:.1f}`).

  /** The nearest integer, ties to the even one. */
  function RoundHalfEven(x: real): (n: int)
    ensures x - 0.5 <= n as real <= x + 0.5
    ensures n as real == x ==> x.Floor == n
  {
    var f := x.Floor;
    var d := x - f as real;
    if d < 0.5 then f else if d > 0.5 then f + 1 else if f % 2 == 0 then f else f + 1
  }

  /** JavaScript `Math.round`: the nearest integer, halves rounded up. */
  function JsRound(x: real): (n: int)
    ensures x - 0.5 < n as real <= x + 0.5
  {
    (x + 0.5).Floor
  }

  /** Rounding keeps the sign of what it rounds. */
  lemma RoundHalfEvenSign(y: real)
    ensures y >= 0.0 ==> RoundHalfEven(y) >= 0
    ensures y < 0.0 ==> RoundHalfEven(y) <= 0
  {
  }

  /** `{x:.0%}`: a fraction as a whole percentage; a negative fraction that rounds to 0 keeps its sign. */
  function PercentText(x: real): string {
    var n := RoundHalfEven(x * 100.0);
    (if x < 0.0 && n == 0 then "-" else "") + IntToString(n) + "%"
  }

  /** The percentage reads back as x * 100 rounded half to even, signed as x is, followed by "%". */
  lemma PercentTextValue(x: real)
    ensures var s := PercentText(x);
            s != [] && s[|s| - 1] == '%' && IsIntText(s[..|s| - 1])
            && IntValue(s[..|s| - 1]) == RoundHalfEven(x * 100.0)
            && (Negative(s) <==> x < 0.0)
  {
    var n := RoundHalfEven(x * 100.0);
    var s := PercentText(x);
    IntToStringValue(n);
    RoundHalfEvenSign(x * 100.0);
    if x < 0.0 && n == 0 {
      assert s[..|s| - 1] == "-0";
      assert Unsigned("-0") == "0";
      assert DigitsValue("0") == 0 by { assert "0"[..0] == []; }
    } else {
      assert s[..|s| - 1] == IntToString(n);
    }
  }

  /** `{x:.1f}`: one decimal place, the sign kept also when the digits round to zero (`-0.0`). */
  function Fixed1(x: real): string {
    SignedTenths(x < 0.0, Abs(RoundHalfEven(x * 10.0)))
  }

  /** The text reads back as x * 10 rounded half to even, in tenths, signed as x is: within 0.05 of x. */
  lemma Fixed1Value(x: real)
    ensures IsFixed1Text(Fixed1(x)) && Tenths(Fixed1(x)) == RoundHalfEven(x * 10.0)
    ensures Negative(Fixed1(x)) <==> x < 0.0
    ensures x - 0.05 <= Tenths(Fixed1(x)) as real / 10.0 <= x + 0.05
  {
    RoundHalfEvenSign(x * 10.0);
    TenthsText(x < 0.0, Abs(RoundHalfEven(x * 10.0)));
  }

  /** A negative value that rounds to zero keeps its sign, as Python's formatting does. */
  lemma Fixed1NegativeZero()
    ensures Fixed1(-0.04) == "-0.0"
    ensures Fixed1(0.04) == "0.0"
  {
    assert RoundHalfEven(-0.4) == 0;
    assert RoundHalfEven(0.4) == 0;
  }

  /**
   * JavaScript `x.toFixed(1)` on an exact value: the sign, then the digits
   * of |x| rounded to one decimal, halves away from zero.
   */
  function JsFixed1(x: real): string {
    SignedTenths(x < 0.0, HalfUpTenths(if x < 0.0 then -x else x))
  }

  /** A non-negative value in tenths, a half rounded up. */
  function HalfUpTenths(a: real): (n: nat)
    requires a >= 0.0
    ensures a * 10.0 - 0.5 < n as real <= a * 10.0 + 0.5
  {
    (a * 10.0 + 0.5).Floor
  }

  /** The text reads back within 0.05 of x, signed as x is, a half of a tenth rounded away from zero. */
  lemma JsFixed1Value(x: real)
    ensures IsFixed1Text(JsFixed1(x)) && (Negative(JsFixed1(x)) <==> x < 0.0)
    ensures x >= 0.0 ==> x - 0.05 < Tenths(JsFixed1(x)) as real / 10.0 <= x + 0.05
    ensures x < 0.0 ==> x - 0.05 <= Tenths(JsFixed1(x)) as real / 10.0 < x + 0.05
  {
    TenthsText(x < 0.0, HalfUpTenths(if x < 0.0 then -x else x));
  }
}
