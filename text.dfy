/**
 * String helpers with JavaScript's meaning: `Number.prototype.toString(radix)`,
 * `String.prototype.padStart`, `trim`, `split(sep)[0]`, `startsWith` and `includes`.
 */
module Text {

  /** The digit alphabet JavaScript uses to print numbers in radix 2 to 36. */
  const DIGITS: string := "0123456789abcdefghijklmnopqrstuvwxyz"

  function DigitChar(d: nat): (c: char)
    requires d < 36
  {
    DIGITS[d]
  }

  /** The value of a lower-case digit character, or -1 for any other character. */
  function DigitValue(c: char): (v: int)
    ensures -1 <= v < 36
  {
    if '0' <= c <= '9' then c as int - '0' as int
    else if 'a' <= c <= 'z' then c as int - 'a' as int + 10
    else -1
  }

  lemma DigitCharValue(d: nat)
    requires d < 36
    ensures DigitValue(DigitChar(d)) == d
  {
  }

  predicate IsDigitIn(c: char, radix: nat) {
    0 <= DigitValue(c) < radix
  }

  predicate AllDigitsIn(s: string, radix: nat) {
    forall i :: 0 <= i < |s| ==> IsDigitIn(s[i], radix)
  }

  function Pow(b: nat, k: nat): (r: nat)
    ensures b >= 1 ==> r >= 1
  {
    if k == 0 then 1 else b * Pow(b, k - 1)
  }

  /** Euclidean division by a radix, as the digit recursion below uses it. */
  lemma DivStep(v: nat, radix: nat)
    requires 2 <= radix && radix <= v
    ensures 1 <= v / radix < v
    ensures v == (v / radix) * radix + v % radix && 0 <= v % radix < radix
  {
    var q, m := v / radix, v % radix;
    assert v == q * radix + m;
    MulAtLeast(q, radix);
  }

  /** q * radix is at least 2 * q. */
  lemma {:induction false} MulAtLeast(q: nat, radix: nat)
    requires 2 <= radix
    ensures q * radix >= 2 * q
  {
    if q > 0 {
      MulAtLeast(q - 1, radix);
      assert q * radix == (q - 1) * radix + radix;
    }
  }

  lemma DivBound(v: nat, radix: nat, p: nat)
    requires 2 <= radix && v < radix * p
    ensures v / radix < p
  {
    var q := v / radix;
    assert v == q * radix + v % radix;
    MulMonotone(p, q, radix);
  }

  /** p <= q implies p * radix <= q * radix. */
  lemma {:induction false} MulMonotone(p: nat, q: nat, radix: nat)
    ensures p <= q ==> p * radix <= q * radix
    decreases q
  {
    if p <= q && p < q {
      MulMonotone(p, q - 1, radix);
      assert q * radix == (q - 1) * radix + radix;
    }
  }

  /** `v.toString(radix)` for a non-negative integer: the shortest digit string, "0" for zero. */
  function ToRadix(v: nat, radix: nat): (s: string)
    requires 2 <= radix <= 36
    ensures |s| >= 1 && AllDigitsIn(s, radix)
    decreases v
  {
    if v < radix then
      DigitCharValue(v);
      [DigitChar(v)]
    else
      DivStep(v, radix);
      DigitCharValue(v % radix);
      var high := ToRadix(v / radix, radix);
      var s := high + [DigitChar(v % radix)];
      assert forall i :: 0 <= i < |high| ==> s[i] == high[i];
      s
  }

  /** The value of a digit string read most significant digit first (the reading `parseInt` does). */
  function ParseRadix(s: string, radix: nat): int
    requires 2 <= radix <= 36
  {
    if s == [] then 0 else ParseRadix(s[..|s| - 1], radix) * radix + DigitValue(s[|s| - 1])
  }

  /** Printing a number and reading it back gives the number. */
  lemma {:induction false} ParseToRadix(v: nat, radix: nat)
    requires 2 <= radix <= 36
    ensures ParseRadix(ToRadix(v, radix), radix) == v
    decreases v
  {
    if v < radix {
      DigitCharValue(v);
    } else {
      DivStep(v, radix);
      var s := ToRadix(v, radix);
      assert s[..|s| - 1] == ToRadix(v / radix, radix);
      ParseToRadix(v / radix, radix);
      DigitCharValue(v % radix);
      assert ParseRadix(s, radix) == (v / radix) * radix + v % radix;
    }
  }

  /** A number below radix^k prints in at most k digits. */
  lemma {:induction false} ToRadixLength(v: nat, radix: nat, k: nat)
    requires 2 <= radix <= 36 && k >= 1
    requires v < Pow(radix, k)
    ensures |ToRadix(v, radix)| <= k
  {
    if v >= radix {
      assert Pow(radix, 1) == radix;
      DivStep(v, radix);
      DivBound(v, radix, Pow(radix, k - 1));
      ToRadixLength(v / radix, radix, k - 1);
    }
  }

  function Repeat(c: char, n: nat): (s: string)
    ensures |s| == n && forall i :: 0 <= i < n ==> s[i] == c
  {
    if n == 0 then [] else [c] + Repeat(c, n - 1)
  }

  /** `s.padStart(n, c)`: `s` preceded by copies of `c` up to length `n`; `s` itself when already that long. */
  function PadStart(s: string, n: nat, c: char): (r: string)
    ensures |r| == if |s| >= n then |s| else n
    ensures r[|r| - |s|..] == s
    ensures forall i :: 0 <= i < |r| - |s| ==> r[i] == c
  {
    if |s| >= n then s else Repeat(c, n - |s|) + s
  }

  /** Leading zero digits do not change the value read. */
  lemma {:induction false} ParseLeadingZeros(z: string, s: string, radix: nat)
    requires 2 <= radix <= 36
    requires forall i :: 0 <= i < |z| ==> z[i] == '0'
    ensures ParseRadix(z + s, radix) == ParseRadix(s, radix)
    decreases |s|
  {
    if s == [] {
      assert z + s == z;
      ZerosParseToZero(z, radix);
    } else {
      assert (z + s)[..|z + s| - 1] == z + s[..|s| - 1];
      ParseLeadingZeros(z, s[..|s| - 1], radix);
    }
  }

  lemma {:induction false} ZerosParseToZero(z: string, radix: nat)
    requires 2 <= radix <= 36
    requires forall i :: 0 <= i < |z| ==> z[i] == '0'
    ensures ParseRadix(z, radix) == 0
  {
    if z != [] {
      ZerosParseToZero(z[..|z| - 1], radix);
    }
  }

  /** A number printed in radix `radix` and left-padded with zeros to `n` digits. */
  function FixedDigits(v: nat, radix: nat, n: nat): (s: string)
    requires 2 <= radix <= 36
  {
    PadStart(ToRadix(v, radix), n, '0')
  }

  /** Below radix^n the padded form has exactly n digits, all of the radix, and reads back as v. */
  lemma FixedDigitsShape(v: nat, radix: nat, n: nat)
    requires 2 <= radix <= 36 && n >= 1
    requires v < Pow(radix, n)
    ensures |FixedDigits(v, radix, n)| == n
    ensures AllDigitsIn(FixedDigits(v, radix, n), radix)
    ensures ParseRadix(FixedDigits(v, radix, n), radix) == v
  {
    var t := ToRadix(v, radix);
    ToRadixLength(v, radix, n);
    var z := Repeat('0', n - |t|);
    assert FixedDigits(v, radix, n) == z + t;
    assert IsDigitIn('0', radix);
    ParseLeadingZeros(z, t, radix);
    ParseToRadix(v, radix);
  }

  /** The characters JavaScript's `trim` and the regular-expression class `\s` treat as white space. */
  predicate IsJsWhitespace(c: char) {
    || '\t' <= c <= '\r'
    || c == ' ' || c == '\U{00A0}' || c == '\U{1680}'
    || '\U{2000}' <= c <= '\U{200A}'
    || c == '\U{2028}' || c == '\U{2029}' || c == '\U{202F}' || c == '\U{205F}'
    || c == '\U{3000}' || c == '\U{FEFF}'
  }

  predicate AllWhitespace(s: string) {
    forall i :: 0 <= i < |s| ==> IsJsWhitespace(s[i])
  }

  /** The number of white-space characters `s` starts with. */
  function LeadingSpace(s: string): (n: nat)
    ensures n <= |s| && forall k :: 0 <= k < n ==> IsJsWhitespace(s[k])
    ensures n < |s| ==> !IsJsWhitespace(s[n])
  {
    if s != [] && IsJsWhitespace(s[0]) then 1 + LeadingSpace(s[1..]) else 0
  }

  /** The number of white-space characters `s` ends with. */
  function TrailingSpace(s: string): (n: nat)
    ensures n <= |s| && forall k :: |s| - n <= k < |s| ==> IsJsWhitespace(s[k])
    ensures n < |s| ==> !IsJsWhitespace(s[|s| - n - 1])
  {
    if s != [] && IsJsWhitespace(s[|s| - 1]) then 1 + TrailingSpace(s[..|s| - 1]) else 0
  }

  /**
   * `s.trim()`: `s` with its leading and trailing white space removed. The result is the
   * stretch of `s` after its leading white space, everything after it is white space, and it
   * neither starts nor ends with white space.
   */
  function Trim(s: string): (r: string)
    ensures var i := LeadingSpace(s);
      && i + |r| <= |s| && s[i..i + |r|] == r
      && forall k :: 0 <= k < |s| && (k < i || i + |r| <= k) ==> IsJsWhitespace(s[k])
    ensures r != [] ==> !IsJsWhitespace(r[0]) && !IsJsWhitespace(r[|r| - 1])
  {
    var i := LeadingSpace(s);
    if i == |s| then []
    else
      var j := TrailingSpace(s);
      assert i < |s| - j;
      s[i..|s| - j]
  }

  lemma {:induction false} LeadingSpacePadded(w: string, x: string)
    requires AllWhitespace(w)
    requires x != [] && !IsJsWhitespace(x[0])
    ensures LeadingSpace(w + x) == |w|
  {
    if w != [] {
      assert (w + x)[1..] == w[1..] + x;
      LeadingSpacePadded(w[1..], x);
    }
  }

  lemma {:induction false} TrailingSpacePadded(x: string, w: string)
    requires AllWhitespace(w)
    requires x != [] && !IsJsWhitespace(x[|x| - 1])
    ensures TrailingSpace(x + w) == |w|
    decreases |w|
  {
    if w != [] {
      assert (x + w)[..|x + w| - 1] == x + w[..|w| - 1];
      TrailingSpacePadded(x, w[..|w| - 1]);
    } else {
      assert x + w == x;
    }
  }

  /** Trimming recovers a word that neither starts nor ends with white space from any white-space padding. */
  lemma TrimPadded(w1: string, x: string, w2: string)
    requires AllWhitespace(w1) && AllWhitespace(w2)
    requires x != [] && !IsJsWhitespace(x[0]) && !IsJsWhitespace(x[|x| - 1])
    ensures Trim(w1 + x + w2) == x
  {
    var s := w1 + x + w2;
    assert s == w1 + (x + w2);
    LeadingSpacePadded(w1, x + w2);
    TrailingSpacePadded(w1 + x, w2);
    assert s[|w1|..|s| - |w2|] == x;
  }

  /** The length of `s.split(sep)[0]`: the position of the first `sep`, or `|s|` without one. */
  function FieldLength(s: string, sep: char): (n: nat)
    ensures n <= |s| && sep !in s[..n]
    ensures n < |s| ==> s[n] == sep
  {
    if s == [] || s[0] == sep then 0
    else
      var n := 1 + FieldLength(s[1..], sep);
      assert s[..n] == [s[0]] + s[1..][..n - 1];
      n
  }

  /** `s.split(sep)[0]`: the longest prefix of `s` without `sep`. */
  function FirstField(s: string, sep: char): (r: string)
    ensures |r| <= |s| && r == s[..|r|]
    ensures sep !in r
    ensures |r| < |s| ==> s[|r|] == sep
  {
    s[..FieldLength(s, sep)]
  }

  /** `s.split(sep)[1]`, for a string that contains `sep`: the field after the first `sep`. */
  function SecondField(s: string, sep: char): (r: string)
    requires sep in s
  {
    var head := FirstField(s, sep);
    FirstField(s[|head| + 1..], sep)
  }

  /** The two fields of `a + [sep] + b` when neither part contains `sep`. */
  lemma SplitJoined(a: string, sep: char, b: string)
    requires sep !in a && sep !in b
    ensures sep in a + [sep] + b
    ensures FirstField(a + [sep] + b, sep) == a
    ensures SecondField(a + [sep] + b, sep) == b
  {
    var s := a + [sep] + b;
    assert s[|a|] == sep;
    FieldBeforeSep(a, sep, b);
    assert s[|a| + 1..] == b;
    FieldBeforeSep(b, sep, []);
    assert b + [sep] + [] == b + [sep];
    assert FirstField(b, sep) == FirstField(b + [sep], sep) by {
      FieldOfSepFree(b, sep);
    }
  }

  lemma {:induction false} FieldBeforeSep(a: string, sep: char, rest: string)
    requires sep !in a
    ensures FieldLength(a + [sep] + rest, sep) == |a|
    ensures FirstField(a + [sep] + rest, sep) == a
  {
    if a != [] {
      assert (a + [sep] + rest)[1..] == a[1..] + [sep] + rest;
      FieldBeforeSep(a[1..], sep, rest);
    }
    assert (a + [sep] + rest)[..|a|] == a;
  }

  lemma {:induction false} FieldOfSepFree(s: string, sep: char)
    requires sep !in s
    ensures FieldLength(s, sep) == |s|
    ensures FirstField(s, sep) == s
  {
    if s != [] {
      FieldOfSepFree(s[1..], sep);
    }
  }

  /**
   * JavaScript's `length`: the number of UTF-16 code units, in which a character beyond
   * U+FFFF takes two.
   */
  function Utf16Length(s: string): (n: nat)
    ensures |s| <= n <= 2 * |s|
  {
    if s == [] then 0 else (if s[0] as int < 0x1_0000 then 1 else 2) + Utf16Length(s[1..])
  }

  /** The length counts characters exactly when none lies beyond U+FFFF. */
  lemma {:induction false} Utf16LengthOfBmp(s: string)
    ensures Utf16Length(s) == |s| <==> forall i :: 0 <= i < |s| ==> s[i] as int < 0x1_0000
    decreases |s|
  {
    if s != [] {
      Utf16LengthOfBmp(s[1..]);
      assert forall i :: 1 <= i < |s| ==> s[i] == s[1..][i - 1];
    }
  }

  /** The code units of a concatenation are those of its parts. */
  lemma {:induction false} Utf16LengthAppend(a: string, b: string)
    ensures Utf16Length(a + b) == Utf16Length(a) + Utf16Length(b)
    decreases |a|
  {
    if a == [] {
      assert a + b == b;
    } else {
      assert (a + b)[1..] == a[1..] + b;
      Utf16LengthAppend(a[1..], b);
    }
  }

  predicate StartsWith(s: string, prefix: string) {
    |prefix| <= |s| && s[..|prefix|] == prefix
  }

  /** `s.includes(t)`. */
  predicate Contains(s: string, t: string)
    decreases |s|
  {
    StartsWith(s, t) || (s != [] && Contains(s[1..], t))
  }

  /** A string without the first character of `t` does not contain `t`. */
  lemma {:induction false} NotContainsChar(s: string, t: string)
    requires t != [] && t[0] !in s
    ensures !Contains(s, t)
  {
    if s != [] {
      assert s[0] in s;
      NotContainsChar(s[1..], t);
    }
  }

  /** A text that starts with characters other than the first of `t` contains `t` only after them. */
  lemma {:induction false} ContainsSkipsPrefix(a: string, b: string, t: string)
    requires t != [] && t[0] !in a
    ensures Contains(a + b, t) <==> Contains(b, t)
  {
    if a == [] {
      assert a + b == b;
    } else {
      assert (a + b)[0] == a[0];
      assert (a + b)[1..] == a[1..] + b;
      assert a[0] in a;
      ContainsSkipsPrefix(a[1..], b, t);
    }
  }
}
