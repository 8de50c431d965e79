/**
 * The string primitives the screens rely on, written out on `seq<char>`:
 * JavaScript's whitespace class (shared by `\s` and `String.prototype.trim`),
 * digit strings with their numeric value and `toString`, ASCII case mapping,
 * `String.prototype.includes`, and the decimal numbers a numeric keyboard produces.
 */
module Text {
  import opened Flow

  // ---------------------------------------------------------------- whitespace

  /** The characters JavaScript's `\s` matches and `trim` removes (WhiteSpace and LineTerminator). */
  predicate IsWhitespace(c: char) {
    var n := c as int;
    n == 0x09 || n == 0x0A || n == 0x0B || n == 0x0C || n == 0x0D || n == 0x20 ||
    n == 0xA0 || n == 0x1680 || (0x2000 <= n <= 0x200A) ||
    n == 0x2028 || n == 0x2029 || n == 0x202F || n == 0x205F || n == 0x3000 || n == 0xFEFF
  }

  predicate AllWhitespace(s: string) {
    forall i :: 0 <= i < |s| ==> IsWhitespace(s[i])
  }

  /** Drops the leading whitespace: what is kept starts with a character that is not whitespace. */
  function TrimStart(s: string): (r: string)
    ensures |r| <= |s|
    ensures r == [] || !IsWhitespace(r[0])
  {
    if |s| > 0 && IsWhitespace(s[0]) then TrimStart(s[1..]) else s
  }

  /** Drops the trailing whitespace: what is kept ends with a character that is not whitespace. */
  function TrimEnd(s: string): (r: string)
    ensures |r| <= |s|
    ensures r == [] || !IsWhitespace(r[|r| - 1])
  {
    if |s| > 0 && IsWhitespace(s[|s| - 1]) then TrimEnd(s[..|s| - 1]) else s
  }

  /** `s.trim()`. */
  function Trim(s: string): string {
    TrimEnd(TrimStart(s))
  }

  /** `!s.trim()`: the string is empty once trimmed. */
  predicate IsBlank(s: string) {
    Trim(s) == ""
  }

  /** Trimming the front removes everything exactly when everything is whitespace. */
  lemma {:induction false} TrimStartEmptyIff(s: string)
    ensures TrimStart(s) == [] <==> AllWhitespace(s)
  {
    if |s| > 0 && IsWhitespace(s[0]) {
      TrimStartEmptyIff(s[1..]);
      assert AllWhitespace(s) <==> AllWhitespace(s[1..]) by {
        if AllWhitespace(s[1..]) {
          forall i | 0 < i < |s| ensures IsWhitespace(s[i]) {
            assert s[i] == s[1..][i - 1];
          }
        }
      }
    }
  }

  /** Trimming the back of a string whose first character is not whitespace leaves that character. */
  lemma {:induction false} TrimEndKeepsHead(t: string)
    requires t != [] && !IsWhitespace(t[0])
    ensures TrimEnd(t) != []
  {
    if IsWhitespace(t[|t| - 1]) {
      TrimEndKeepsHead(t[..|t| - 1]);
    }
  }

  /** A string is blank exactly when every character of it is whitespace. */
  lemma BlankIffAllWhitespace(s: string)
    ensures IsBlank(s) <==> AllWhitespace(s)
  {
    TrimStartEmptyIff(s);
    if TrimStart(s) != [] {
      TrimEndKeepsHead(TrimStart(s));
    }
  }

  /** `s.replace(/\s/g, '')`. */
  function RemoveWhitespace(s: string): (r: string)
    ensures |r| <= |s|
    ensures forall i :: 0 <= i < |r| ==> !IsWhitespace(r[i])
  {
    if s == [] then []
    else (if IsWhitespace(s[0]) then [] else [s[0]]) + RemoveWhitespace(s[1..])
  }

  // ---------------------------------------------------------------- digits

  predicate IsDigit(c: char) {
    '0' <= c <= '9'
  }

  predicate AllDigits(s: string) {
    forall i :: 0 <= i < |s| ==> IsDigit(s[i])
  }

  /** A string of decimal digits only, possibly empty: what a numeric input holds. */
  type Digits = s: string | AllDigits(s)

  /** `s.replace(/[^0-9]/g, '')`. */
  function KeepDigits(s: string): (r: Digits)
    ensures |r| <= |s|
    ensures forall c :: c in r <==> c in s && IsDigit(c)
  {
    if s == [] then []
    else (if IsDigit(s[0]) then [s[0]] else []) + KeepDigits(s[1..])
  }

  /** Filtering distributes over concatenation, so the kept digits stay in their order. */
  lemma {:induction false} KeepDigitsAppend(a: string, b: string)
    ensures KeepDigits(a + b) == KeepDigits(a) + KeepDigits(b)
  {
    if a != [] {
      assert (a + b)[1..] == a[1..] + b;
      KeepDigitsAppend(a[1..], b);
    } else {
      assert a + b == b;
    }
  }

  /** A string that is already all digits is left as it is; in particular filtering twice is filtering once. */
  lemma {:induction false} KeepDigitsOfDigits(s: string)
    requires AllDigits(s)
    ensures KeepDigits(s) == s
  {
    if s != [] {
      KeepDigitsOfDigits(s[1..]);
    }
  }

  function DigitValue(c: char): (d: nat)
    requires IsDigit(c)
    ensures d < 10
  {
    c as int - '0' as int
  }

  function DigitChar(d: nat): (c: char)
    requires d < 10
    ensures IsDigit(c) && DigitValue(c) == d
  {
    ('0' as int + d) as char
  }

  function Pow10(n: nat): (p: nat)
    ensures p >= 1
  {
    if n == 0 then 1 else 10 * Pow10(n - 1)
  }

  /** The number a digit string denotes (`parseFloat(s) || 0` on a digit string, so "" is 0). */
  function DigitsValue(s: Digits): (v: nat)
    ensures v < Pow10(|s|)
  {
    if s == [] then 0 else 10 * DigitsValue(s[..|s| - 1]) + DigitValue(s[|s| - 1])
  }

  /** `n.toString()`: the shortest decimal digit string of `n`. */
  function NatToDigits(n: nat): (r: Digits)
    ensures r != [] && (r[0] == '0' ==> n == 0)
  {
    if n < 10 then [DigitChar(n)] else NatToDigits(n / 10) + [DigitChar(n % 10)]
  }

  /** Parsing what `toString` printed gives the number back. */
  lemma {:induction false} DigitsValueOfNatToDigits(n: nat)
    ensures DigitsValue(NatToDigits(n)) == n
  {
    if n >= 10 {
      var s := NatToDigits(n);
      assert s[..|s| - 1] == NatToDigits(n / 10);
      DigitsValueOfNatToDigits(n / 10);
    }
  }

  /** A digit string of at most six characters (a `maxLength={6}` input) denotes at most 999999. */
  lemma SixDigitsBound(s: Digits)
    requires |s| <= 6
    ensures DigitsValue(s) <= 999999
  {
    Pow10Monotone(|s|, 6);
    assert Pow10(6) == 1000000;
  }

  lemma {:induction false} Pow10Monotone(a: nat, b: nat)
    requires a <= b
    ensures Pow10(a) <= Pow10(b)
    decreases b - a
  {
    if a < b {
      Pow10Monotone(a + 1, b);
    }
  }

  // ---------------------------------------------------------------- case mapping (ASCII)

  function LowerChar(c: char): char {
    if 'A' <= c <= 'Z' then (c as int + 32) as char else c
  }

  function UpperChar(c: char): char {
    if 'a' <= c <= 'z' then (c as int - 32) as char else c
  }

  /** `s.toLowerCase()` restricted to ASCII letters. */
  function ToLower(s: string): (r: string)
    ensures |r| == |s| && forall i :: 0 <= i < |s| ==> r[i] == LowerChar(s[i])
  {
    seq(|s|, i requires 0 <= i < |s| => LowerChar(s[i]))
  }

  /** `s.toUpperCase()` restricted to ASCII letters. */
  function ToUpper(s: string): (r: string)
    ensures |r| == |s| && forall i :: 0 <= i < |s| ==> r[i] == UpperChar(s[i])
  {
    seq(|s|, i requires 0 <= i < |s| => UpperChar(s[i]))
  }

  // ---------------------------------------------------------------- substring search

  predicate StartsWith(s: string, prefix: string) {
    |prefix| <= |s| && s[..|prefix|] == prefix
  }

  /** `needle` occurs in `hay` starting at index `i`. */
  predicate OccursAt(hay: string, needle: string, i: int) {
    0 <= i && i + |needle| <= |hay| && hay[i..i + |needle|] == needle
  }

  /** `hay.includes(needle)`, by trying each start position in turn. */
  predicate Includes(hay: string, needle: string)
    decreases |hay|
  {
    StartsWith(hay, needle) || (|hay| > 0 && Includes(hay[1..], needle))
  }

  /** `Includes` holds exactly when the needle occurs at some position. */
  lemma {:induction false} IncludesIff(hay: string, needle: string)
    ensures Includes(hay, needle) <==> exists i :: OccursAt(hay, needle, i)
  {
    if StartsWith(hay, needle) {
      assert OccursAt(hay, needle, 0);
    } else if |hay| > 0 {
      IncludesIff(hay[1..], needle);
      if Includes(hay[1..], needle) {
        var i :| OccursAt(hay[1..], needle, i);
        assert hay[1..][i..i + |needle|] == hay[i + 1..i + 1 + |needle|];
        assert OccursAt(hay, needle, i + 1);
      } else {
        forall i | OccursAt(hay, needle, i) ensures false {
          assert i != 0;
          assert hay[1..][i - 1..i - 1 + |needle|] == hay[i..i + |needle|];
          assert OccursAt(hay[1..], needle, i - 1);
        }
      }
    }
  }

  /** Every string includes the empty string. */
  lemma {:induction false} IncludesEmpty(hay: string)
    ensures Includes(hay, "")
  {
    assert StartsWith(hay, "");
  }

  // ---------------------------------------------------------------- decimal numbers

  /** Index of the first '.', or `|t|` when there is none. */
  function IndexOfDot(t: string): (k: nat)
    ensures k <= |t|
    ensures k < |t| ==> t[k] == '.'
    ensures forall j :: 0 <= j < k ==> t[j] != '.'
  {
    if t == [] then 0 else if t[0] == '.' then 0 else 1 + IndexOfDot(t[1..])
  }

  /**
   * A number as typed: the sign, all its digits read as one whole number, and how many of
   * them come after the point. "-12.50" is `Decimal(true, 1250, 2)`, that is -1250 / 10^2.
   */
  datatype Decimal = Decimal(negative: bool, digits: nat, places: nat)

  /** Greater than 0. */
  predicate IsPositive(d: Decimal) {
    !d.negative && d.digits > 0
  }

  /** Not less than 0 (a negative zero counts as 0, as `-0 < 0` is false). */
  predicate IsNonNegative(d: Decimal) {
    !d.negative || d.digits == 0
  }

  /** `digits [. digits]` with at least one digit, read as an exact decimal. */
  function ParseUnsigned(t: string): (r: Option<Decimal>)
    ensures r.Some? ==> t != [] && !r.value.negative
  {
    var k := IndexOfDot(t);
    var whole := t[..k];
    var fraction := if k < |t| then t[k + 1..] else "";
    if AllDigits(whole) && AllDigits(fraction) && |whole| + |fraction| > 0 then
      Some(Decimal(false, DigitsValue(whole + fraction), |fraction|))
    else
      None
  }

  /**
   * A number typed into a numeric field: surrounding whitespace, an optional sign,
   * then `digits [. digits]`. `None` plays the part of `NaN`.
   */
  function ParseDecimal(s: string): (r: Option<Decimal>)
    ensures r.Some? ==> !IsBlank(s)
  {
    var t := Trim(s);
    if t == [] then None else ParseSigned(t)
  }

  /** A trimmed, non-empty number: an optional sign, then `digits [. digits]`. */
  function ParseSigned(t: string): Option<Decimal>
    requires t != []
  {
    if t[0] == '-' then
      (match ParseUnsigned(t[1..])
       case Some(d) => Some(d.(negative := true))
       case None => None)
    else if t[0] == '+' then ParseUnsigned(t[1..])
    else ParseUnsigned(t)
  }

  /** Digits alone, with no point, read as the whole number they denote. */
  lemma UnsignedOfDigits(s: Digits)
    requires s != []
    ensures ParseUnsigned(s) == Some(Decimal(false, DigitsValue(s), 0))
  {
    assert IndexOfDot(s) == |s|;
    assert s[..|s|] == s;
    assert s + "" == s;
  }

  /** A non-empty digit string parses to the whole number it denotes. */
  lemma DecimalOfDigits(s: Digits)
    requires s != []
    ensures ParseDecimal(s) == Some(Decimal(false, DigitsValue(s), 0))
  {
    assert !IsWhitespace(s[0]) && !IsWhitespace(s[|s| - 1]);
    assert TrimStart(s) == s;
    assert TrimEnd(s) == s;
    UnsignedOfDigits(s);
  }

  /** A string that neither starts nor ends with whitespace is its own trim. */
  lemma TrimOfUnpadded(t: string)
    requires t != [] && !IsWhitespace(t[0]) && !IsWhitespace(t[|t| - 1])
    ensures Trim(t) == t
  {
    assert TrimStart(t) == t;
  }

  /** A minus sign before a non-empty digit string gives the negated number. */
  lemma DecimalOfNegatedDigits(s: Digits)
    requires s != []
    ensures ParseDecimal(['-'] + s) == Some(Decimal(true, DigitsValue(s), 0))
  {
    var t := ['-'] + s;
    assert Trim(t) == t by {
      var last := s[|s| - 1];
      assert IsDigit(last) && t[|t| - 1] == last;
      TrimOfUnpadded(t);
    }
    assert ParseUnsigned(t[1..]) == Some(Decimal(false, DigitsValue(s), 0)) by {
      assert t[1..] == s;
      UnsignedOfDigits(s);
    }
    NegatedSigned(t);
  }

  /** A leading minus sign negates what follows it. */
  lemma NegatedSigned(t: string)
    requires |t| > 1 && t[0] == '-' && ParseUnsigned(t[1..]).Some?
    ensures ParseSigned(t) == Some(ParseUnsigned(t[1..]).value.(negative := true))
  {
  }

  /**
   * Digits, a point and digits (either side may be empty, not both): all the digits read as
   * one whole number, with as many places as there are digits after the point; "2.5" is 25 / 10.
   */
  lemma DecimalOfFraction(w: Digits, f: Digits)
    requires |w| + |f| > 0
    ensures ParseDecimal(w + ['.'] + f) == Some(Decimal(false, DigitsValue(w + f), |f|))
  {
    var t := w + ['.'] + f;
    assert ParseDecimal(t) == ParseUnsigned(t) by {
      var first := if w != [] then w[0] else '.';
      var last := if f != [] then f[|f| - 1] else '.';
      assert t[0] == first && t[|t| - 1] == last;
      DecimalOfUnpadded(t);
    }
    UnsignedOfFraction(w, f);
  }

  /**
   * Reading digits one after the other: the front is worth 10^|back| times its own value, so
   * the `Decimal` read from "w.f" is w + f / 10^|f|.
   */
  lemma {:induction false} DigitsValueAppend(front: Digits, back: Digits)
    ensures DigitsValue(front + back) == DigitsValue(front) * Pow10(|back|) + DigitsValue(back)
  {
    if back == [] {
      assert front + back == front;
    } else {
      var s := front + back;
      var init := back[..|back| - 1];
      var d := DigitValue(back[|back| - 1]);
      assert s[..|s| - 1] == front + init;
      assert s[|s| - 1] == back[|back| - 1];
      var v, p := DigitsValue(front), Pow10(|init|);
      calc {
        DigitsValue(s);
        10 * DigitsValue(front + init) + d;
        { DigitsValueAppend(front, init); }
        10 * (v * p + DigitsValue(init)) + d;
        { TimesTen(v, p); }
        v * (10 * p) + DigitsValue(back);
      }
    }
  }

  lemma TimesTen(a: nat, b: nat)
    ensures a * (10 * b) == 10 * (a * b)
  {
  }

  /** A number neither padded nor signed is read by the unsigned grammar alone. */
  lemma DecimalOfUnpadded(t: string)
    requires t != [] && (IsDigit(t[0]) || t[0] == '.') && (IsDigit(t[|t| - 1]) || t[|t| - 1] == '.')
    ensures ParseDecimal(t) == ParseUnsigned(t)
  {
    TrimOfUnpadded(t);
  }

  lemma UnsignedOfFraction(w: Digits, f: Digits)
    requires |w| + |f| > 0
    ensures ParseUnsigned(w + ['.'] + f) == Some(Decimal(false, DigitsValue(w + f), |f|))
  {
    var t := w + ['.'] + f;
    IndexOfDotAfterDigits(w, ['.'] + f);
    assert t == w + (['.'] + f);
    assert t[..|w|] == w;
    assert t[|w| + 1..] == f;
  }

  /** In digits followed by a point, the first point is that one. */
  lemma {:induction false} IndexOfDotAfterDigits(w: Digits, rest: string)
    requires rest != [] && rest[0] == '.'
    ensures IndexOfDot(w + rest) == |w|
  {
    if w != [] {
      assert (w + rest)[1..] == w[1..] + rest;
      IndexOfDotAfterDigits(w[1..], rest);
    }
  }

  /** The characters a number typed into a numeric field can be made of. */
  predicate NumberChar(c: char) {
    IsWhitespace(c) || IsDigit(c) || c == '.' || c == '+' || c == '-'
  }

  /**
   * Text holding any other character is not a number. `parseFloat` would instead read the
   * numeric prefix before such a character.
   */
  lemma ForeignCharRejected(s: string, i: int)
    requires 0 <= i < |s| && !NumberChar(s[i])
    ensures ParseDecimal(s) == None
  {
    var j := TrimStartKeeps(s, i);
    var t := Trim(s);
    var m := TrimEndKeeps(TrimStart(s), j);
    assert t[m] == s[i];
    if t[0] == '-' || t[0] == '+' {
      assert m > 0 && t[1..][m - 1] == s[i];
      UnsignedRejects(t[1..], m - 1);
    } else {
      UnsignedRejects(t, m);
    }
  }

  /** A character that is not whitespace survives `TrimStart`. */
  lemma {:induction false} TrimStartKeeps(s: string, i: int) returns (j: int)
    requires 0 <= i < |s| && !IsWhitespace(s[i])
    ensures 0 <= j < |TrimStart(s)| && TrimStart(s)[j] == s[i]
  {
    if IsWhitespace(s[0]) {
      assert s[1..][i - 1] == s[i];
      j := TrimStartKeeps(s[1..], i - 1);
    } else {
      j := i;
    }
  }

  /** A character that is not whitespace survives `TrimEnd`, at the same position. */
  lemma {:induction false} TrimEndKeeps(s: string, i: int) returns (j: int)
    requires 0 <= i < |s| && !IsWhitespace(s[i])
    ensures j == i && i < |TrimEnd(s)| && TrimEnd(s)[i] == s[i]
  {
    if IsWhitespace(s[|s| - 1]) {
      assert s[..|s| - 1][i] == s[i];
      j := TrimEndKeeps(s[..|s| - 1], i);
    } else {
      j := i;
    }
  }

  /** Unsigned text holding anything but digits and one point does not parse. */
  lemma UnsignedRejects(u: string, m: int)
    requires 0 <= m < |u| && !IsDigit(u[m]) && u[m] != '.'
    ensures ParseUnsigned(u) == None
  {
    var k := IndexOfDot(u);
    if m < k {
      assert u[..k][m] == u[m];
    } else {
      assert k < |u| && u[k + 1..][m - k - 1] == u[m];
    }
  }
}
