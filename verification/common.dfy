/** JavaScript value semantics that every component relies on: absent values
    (`null` / `undefined`), string truthiness and `||` fallbacks,
    `String.prototype.trim`, `.length` counted in UTF-16 code units, and the
    decimal rendering of a non-negative integer. */
module Common {

  /** `T | null` (and `undefined`). */
  datatype Option<+T> = None | Some(value: T)

  /** A string is truthy in JavaScript exactly when it is not empty. */
  predicate Truthy(s: string) {
    s != []
  }

  /** `x?.y` used as a condition: present and truthy. */
  predicate PresentTruthy(o: Option<string>) {
    o.Some? && Truthy(o.value)
  }

  /** `a || b` on strings. */
  function OrElse(a: string, b: string): string {
    if Truthy(a) then a else b
  }

  /** `x?.y || b`, where the property may be absent. */
  function OptOrElse(o: Option<string>, b: string): string {
    if PresentTruthy(o) then o.value else b
  }

  /** `x || null` on a string: the empty string becomes null. */
  function EmptyToNull(s: string): (r: Option<string>)
    ensures r.None? <==> s == []
    ensures r.Some? ==> r.value == s
  {
    if Truthy(s) then Some(s) else None
  }

  /** `x || ''` on a nullable string. */
  function NullToEmpty(o: Option<string>): (r: string)
    ensures o.Some? ==> r == o.value
    ensures o.None? ==> r == []
  {
    if o.Some? then o.value else []
  }

  /** The characters `String.prototype.trim` removes: ECMAScript WhiteSpace
      (tab, vertical tab, form feed, space, no-break space, byte order mark and
      the Unicode space separators) and LineTerminator. */
  predicate IsWhitespace(c: char) {
    var n := c as int;
    n == 0x09 || n == 0x0A || n == 0x0B || n == 0x0C || n == 0x0D || n == 0x20
    || n == 0xA0 || n == 0x1680 || (0x2000 <= n <= 0x200A)
    || n == 0x2028 || n == 0x2029 || n == 0x202F || n == 0x205F
    || n == 0x3000 || n == 0xFEFF
  }

  /** Every character of `s` is whitespace (vacuously true of ""). */
  predicate IsBlank(s: string) {
    forall i :: 0 <= i < |s| ==> IsWhitespace(s[i])
  }

  /** Drops leading whitespace. */
  function TrimStart(s: string): (r: string)
    ensures |r| <= |s| && r == s[|s| - |r|..]
    ensures r == [] || !IsWhitespace(r[0])
    ensures forall i :: 0 <= i < |s| - |r| ==> IsWhitespace(s[i])
  {
    if s != [] && IsWhitespace(s[0]) then TrimStart(s[1..]) else s
  }

  /** Drops trailing whitespace. */
  function TrimEnd(s: string): (r: string)
    ensures |r| <= |s| && r == s[..|r|]
    ensures r == [] || !IsWhitespace(r[|r| - 1])
    ensures forall i :: |r| <= i < |s| ==> IsWhitespace(s[i])
  {
    if s != [] && IsWhitespace(s[|s| - 1]) then TrimEnd(s[..|s| - 1]) else s
  }

  /** `s.trim()`: `s` without its leading and trailing whitespace; it is
      empty exactly when `s` holds nothing but whitespace. */
  function Trim(s: string): (r: string)
    ensures |r| <= |s|
    ensures r == [] || (!IsWhitespace(r[0]) && !IsWhitespace(r[|r| - 1]))
    ensures r == [] <==> IsBlank(s)
    ensures InnerSlice(s, |s| - |TrimStart(s)|, r)
  {
    var t := TrimStart(s);
    var r := TrimEnd(t);
    TrimmedEmptyIffBlank(s, t, r);
    TrimIsInnerSlice(s, t, r);
    r
  }

  /** Neither the first nor the last character is whitespace. */
  predicate Unpadded(s: string) {
    s == [] || (!IsWhitespace(s[0]) && !IsWhitespace(s[|s| - 1]))
  }

  lemma TrimIsUnpadded(s: string)
    ensures Unpadded(Trim(s))
  {
  }

  /** Trimming is trimming the front, then the back. */
  lemma TrimIsBothEnds(s: string)
    ensures Trim(s) == TrimEnd(TrimStart(s))
  {
  }

  /** `r` is the run of `s` starting at `a`, and everything of `s` before and
      after that run is whitespace. */
  predicate InnerSlice(s: string, a: nat, r: string) {
    && a + |r| <= |s|
    && (forall i :: 0 <= i < |r| ==> r[i] == s[a + i])
    && (forall i :: 0 <= i < a ==> IsWhitespace(s[i]))
    && (forall i :: a + |r| <= i < |s| ==> IsWhitespace(s[i]))
  }

  /** A blank-free run inside a tail of `s` is an inner slice of `s`. */
  lemma TrimIsInnerSlice(s: string, t: string, r: string)
    requires |t| <= |s| && t == s[|s| - |t|..]
    requires forall i :: 0 <= i < |s| - |t| ==> IsWhitespace(s[i])
    requires |r| <= |t| && r == t[..|r|]
    requires forall i :: |r| <= i < |t| ==> IsWhitespace(t[i])
    ensures InnerSlice(s, |s| - |t|, r)
  {
    var a := |s| - |t|;
    forall i | a + |r| <= i < |s|
      ensures IsWhitespace(s[i])
    {
      assert s[i] == t[i - a];
    }
  }

  lemma TrimmedEmptyIffBlank(s: string, t: string, r: string)
    requires t == TrimStart(s) && r == TrimEnd(t)
    ensures r == [] <==> IsBlank(s)
  {
    if r == [] {
      assert t == [];
    } else {
      assert t[0] == s[|s| - |t|];
      assert t != [];
      assert !IsWhitespace(t[0]);
    }
  }

  /** `s.length`: the number of UTF-16 code units, where every character
      above U+FFFF takes a surrogate pair. */
  function Utf16Length(s: string): (n: nat)
    ensures |s| <= n <= 2 * |s|
    ensures (forall i :: 0 <= i < |s| ==> s[i] as int <= 0xFFFF) ==> n == |s|
    ensures (exists i :: 0 <= i < |s| && s[i] as int > 0xFFFF) ==> n > |s|
  {
    if s == [] then 0
    else (if s[0] as int > 0xFFFF then 2 else 1) + Utf16Length(s[1..])
  }

  /** One character takes two units above U+FFFF and one otherwise. */
  lemma Utf16LengthOfChar(c: char)
    ensures Utf16Length([c]) == if c as int > 0xFFFF then 2 else 1
  {
    assert [c][1..] == [];
  }

  /** The length of a concatenation is the sum of the lengths. */
  lemma {:induction false} Utf16LengthAppend(a: string, b: string)
    ensures Utf16Length(a + b) == Utf16Length(a) + Utf16Length(b)
    decreases |a|
  {
    if a == [] {
      assert a + b == b;
    } else {
      assert (a + b)[0] == a[0] && (a + b)[1..] == a[1..] + b;
      Utf16LengthAppend(a[1..], b);
    }
  }

  predicate IsDigit(c: char) {
    '0' <= c <= '9'
  }

  function DigitValue(c: char): nat
    requires IsDigit(c)
  {
    c as int - '0' as int
  }

  function Pow10(k: nat): (p: nat)
    ensures p >= 1
  {
    if k == 0 then 1 else 10 * Pow10(k - 1)
  }

  /** How many decimal digits `n` is written with. */
  function DigitCount(n: nat): nat {
    if n < 10 then 1 else 1 + DigitCount(n / 10)
  }

  /** A number in [10^k, 10^(k+1)) has k + 1 digits. */
  lemma {:induction false} DigitCountOfRange(n: nat, k: nat)
    requires Pow10(k) <= n < Pow10(k + 1)
    ensures DigitCount(n) == k + 1
  {
    if k > 0 {
      DigitCountOfRange(n / 10, k - 1);
    }
  }

  /** `n.toString()` for a non-negative integer: decimal digits with no
      leading zero, as many as `n` has. */
  function DecimalString(n: nat): (s: string)
    ensures |s| == DigitCount(n)
    ensures forall i :: 0 <= i < |s| ==> IsDigit(s[i])
    ensures s[0] != '0' || n == 0
  {
    if n < 10 then [('0' as int + n) as char]
    else DecimalString(n / 10) + [('0' as int + n % 10) as char]
  }

  /** Reads a string of decimal digits back as a number. */
  function ParseDecimal(s: string): nat
    requires forall i :: 0 <= i < |s| ==> IsDigit(s[i])
  {
    if s == [] then 0
    else 10 * ParseDecimal(s[..|s| - 1]) + DigitValue(s[|s| - 1])
  }

  /** Rendering then reading a number gives the number back. */
  lemma {:induction false} ParseDecimalString(n: nat)
    ensures ParseDecimal(DecimalString(n)) == n
  {
    var s := DecimalString(n);
    if n >= 10 {
      ParseDecimalString(n / 10);
      assert s[..|s| - 1] == DecimalString(n / 10);
    }
  }

  /** A six-digit number renders as exactly six characters. */
  lemma SixDigitRendering(n: nat)
    requires 100000 <= n <= 999999
    ensures |DecimalString(n)| == 6
  {
    assert Pow10(5) == 100000 && Pow10(6) == 1000000;
    DigitCountOfRange(n, 5);
  }
}
