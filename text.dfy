/**
 * Character classes and the small string functions that the invoice
 * scripts take from Python: the `\s`, `\d` and bracket classes of their
 * regular expressions, `str.replace(c, "")`, `str.strip()`, `str.zfill()`
 * and the decimal spelling of a counter in an f-string.
 */
module Text {

  /** Python's `\s` and `str.isspace()` (the same 29 code points). */
  predicate IsSpace(c: char) {
    || ('\t' <= c <= '\r')
    || ('\U{1c}' <= c <= '\U{1f}')
    || c == ' ' || c == '\U{85}' || c == '\U{a0}' || c == '\U{1680}'
    || ('\U{2000}' <= c <= '\U{200a}')
    || c == '\U{2028}' || c == '\U{2029}' || c == '\U{202f}' || c == '\U{205f}'
    || c == '\U{3000}'
  }

  /** `\d`, restricted to the ASCII digits. */
  predicate IsDigit(c: char) { '0' <= c <= '9' }

  /** `[\d\.]`, the characters of an amount. */
  predicate IsAmountChar(c: char) { IsDigit(c) || c == '.' }

  /** `[一-龥A-Za-z0-9\(\)（）]`, the characters of a company name. */
  predicate IsNameChar(c: char) {
    || ('\U{4e00}' <= c <= '\U{9fa5}')
    || ('A' <= c <= 'Z') || ('a' <= c <= 'z') || IsDigit(c)
    || c == '(' || c == ')' || c == '（' || c == '）'
  }

  /** `[:：]`, the ASCII or the full-width colon. */
  predicate IsColon(c: char) { c == ':' || c == '：' }

  /** `[¥￥]`, the half-width or the full-width yen sign. */
  predicate IsYen(c: char) { c == '¥' || c == '￥' }

  /** The character classes that the patterns repeat with `*` or `+`. */
  datatype CharClass = Space | Digit | AmountChar | NameChar

  predicate In(c: char, k: CharClass) {
    match k
    case Space => IsSpace(c)
    case Digit => IsDigit(c)
    case AmountChar => IsAmountChar(c)
    case NameChar => IsNameChar(c)
  }

  /** Every character of `s` belongs to class `k`. */
  predicate AllIn(s: string, k: CharClass) {
    forall m :: 0 <= m < |s| ==> In(s[m], k)
  }

  /** No character of `s` is in `cs`. */
  predicate NoneOf(s: string, cs: set<char>) {
    forall m :: 0 <= m < |s| ==> s[m] !in cs
  }

  /** A concatenation avoids `cs` exactly when both parts do. */
  lemma NoneOfConcat(a: string, b: string, cs: set<char>)
    ensures NoneOf(a + b, cs) <==> NoneOf(a, cs) && NoneOf(b, cs)
  {
    if NoneOf(a + b, cs) {
      forall m | 0 <= m < |a| ensures a[m] !in cs {
        assert a[m] == (a + b)[m];
      }
      forall m | 0 <= m < |b| ensures b[m] !in cs {
        assert b[m] == (a + b)[|a| + m];
      }
    }
    if NoneOf(a, cs) && NoneOf(b, cs) {
      forall m | 0 <= m < |a + b| ensures (a + b)[m] !in cs {
        if m < |a| { assert (a + b)[m] == a[m]; } else { assert (a + b)[m] == b[m - |a|]; }
      }
    }
  }

  /** The literal `lit` occurs in `s` at position `i`. */
  predicate HasAt(s: string, i: nat, lit: string) {
    i + |lit| <= |s| && s[i..i + |lit|] == lit
  }

  /** `sub in s`, Python's substring test. */
  predicate Contains(s: string, sub: string) {
    exists i :: 0 <= i <= |s| && HasAt(s, i, sub)
  }

  /**
   * Where a greedy `k*` that starts at `i` stops: the end of the longest
   * run of class-`k` characters beginning at `i`.
   */
  function RunEnd(s: string, i: nat, k: CharClass): (j: nat)
    requires i <= |s|
    ensures i <= j <= |s|
    ensures forall m :: i <= m < j ==> In(s[m], k)
    ensures j == |s| || !In(s[j], k)
    decreases |s| - i
  {
    if i < |s| && In(s[i], k) then RunEnd(s, i + 1, k) else i
  }

  /** Every character of `s[i..j]` belongs to class `k`. */
  predicate Span(s: string, i: nat, j: nat, k: CharClass) {
    i <= j <= |s| && forall m :: i <= m < j ==> In(s[m], k)
  }

  /**
   * A greedy run is determined by where it ends: a span of the class that
   * is followed by the end of the string or by a character outside it is
   * exactly the run `RunEnd` finds.
   */
  lemma {:induction false} RunEndIs(s: string, i: nat, j: nat, k: CharClass)
    requires Span(s, i, j, k) && (j == |s| || !In(s[j], k))
    ensures RunEnd(s, i, k) == j
    decreases j - i
  {
    if i < j {
      RunEndIs(s, i + 1, j, k);
    }
  }

  /** Every slice that starts a greedy run and ends within it lies in the class. */
  lemma RunSlice(s: string, i: nat, j: nat, k: CharClass)
    requires i <= |s| && i <= j <= RunEnd(s, i, k)
    ensures AllIn(s[i..j], k)
  {
    forall m | 0 <= m < j - i ensures In(s[i..j][m], k) {
      assert s[i..j][m] == s[i + m];
    }
  }

  /** `s` with every character of `cs` taken out, the rest kept in order. */
  function Without(s: string, cs: set<char>): (r: string)
    ensures NoneOf(r, cs)
    ensures |r| <= |s|
  {
    if s == [] then []
    else (if s[0] in cs then [] else [s[0]]) + Without(s[1..], cs)
  }

  /** Removal distributes over concatenation. */
  lemma {:induction false} WithoutConcat(a: string, b: string, cs: set<char>)
    ensures Without(a + b, cs) == Without(a, cs) + Without(b, cs)
  {
    if a == [] {
      assert a + b == b;
    } else {
      assert (a + b)[1..] == a[1..] + b;
      WithoutConcat(a[1..], b, cs);
    }
  }

  /** Removal changes a string exactly when the string holds one of the characters. */
  lemma {:induction false} WithoutIdentity(s: string, cs: set<char>)
    ensures Without(s, cs) == s <==> NoneOf(s, cs)
  {
    if s != [] && NoneOf(s, cs) {
      WithoutIdentity(s[1..], cs);
    }
  }

  /** Removing the same characters twice is removing them once. */
  lemma WithoutIdempotent(s: string, cs: set<char>)
    ensures Without(Without(s, cs), cs) == Without(s, cs)
  {
    WithoutIdentity(Without(s, cs), cs);
  }

  /** Removing `a` and then `b` is removing both at once. */
  lemma {:induction false} WithoutTwice(s: string, a: set<char>, b: set<char>)
    ensures Without(Without(s, a), b) == Without(s, a + b)
  {
    if s != [] {
      WithoutTwice(s[1..], a, b);
      WithoutConcat(if s[0] in a then [] else [s[0]], Without(s[1..], a), b);
    }
  }

  /** End of the trailing whitespace scan: the largest `r` in `lo..j` after which `s[r..j]` is all space. */
  function TrailEnd(s: string, lo: nat, j: nat): (r: nat)
    requires lo <= j <= |s|
    ensures lo <= r <= j
    ensures forall m :: r <= m < j ==> IsSpace(s[m])
    ensures r == lo || !IsSpace(s[r - 1])
    decreases j
  {
    if lo < j && IsSpace(s[j - 1]) then TrailEnd(s, lo, j - 1) else j
  }

  /**
   * Where `str.strip()` cuts: everything before the first bound and from the
   * second bound on is whitespace, and what lies between neither starts nor
   * ends with whitespace.
   */
  function StripBounds(s: string): (p: (nat, nat))
    ensures p.0 <= p.1 <= |s|
    ensures forall m :: 0 <= m < p.0 ==> IsSpace(s[m])
    ensures forall m :: p.1 <= m < |s| ==> IsSpace(s[m])
    ensures p.0 < p.1 ==> !IsSpace(s[p.0]) && !IsSpace(s[p.1 - 1])
  {
    var a := RunEnd(s, 0, Space);
    (a, TrailEnd(s, a, |s|))
  }

  /** `r` is `s` with only whitespace cut off at its two ends. */
  ghost predicate Trimmed(s: string, r: string) {
    exists a: nat :: a + |r| <= |s| && r == s[a..a + |r|] && Span(s, 0, a, Space) && Span(s, a + |r|, |s|, Space)
  }

  /** `str.strip()`: `s` without its leading and trailing whitespace. */
  function Strip(s: string): (r: string)
    ensures Trimmed(s, r)
    ensures r == [] || (!IsSpace(r[0]) && !IsSpace(r[|r| - 1]))
  {
    var p := StripBounds(s);
    assert Span(s, 0, p.0, Space) && Span(s, p.1, |s|, Space);
    s[p.0..p.1]
  }

  /**
   * The converse of `Strip`'s contract: whitespace, then a string that
   * neither starts nor ends with whitespace, then whitespace, strips to
   * that string.
   */
  lemma StripPadded(s: string, a: nat, b: nat)
    requires a <= b <= |s| && Span(s, 0, a, Space) && Span(s, b, |s|, Space)
    requires a < b ==> !IsSpace(s[a]) && !IsSpace(s[b - 1])
    ensures Strip(s) == s[a..b]
  {
    var p := StripBounds(s);
    if a < b {
      RunEndIs(s, 0, a, Space);
      assert p.0 == a;
      assert TrailEnd(s, a, |s|) == b by {
        TrailEndIs(s, a, b, |s|);
      }
    } else {
      assert Span(s, 0, |s|, Space);
      RunEndIs(s, 0, |s|, Space);
    }
  }

  /** The trailing scan stops at the last non-space character. */
  lemma {:induction false} TrailEndIs(s: string, lo: nat, b: nat, j: nat)
    requires lo < b <= j <= |s| && !IsSpace(s[b - 1]) && Span(s, b, j, Space)
    ensures TrailEnd(s, lo, j) == b
    decreases j
  {
    if b < j {
      TrailEndIs(s, lo, b, j - 1);
    }
  }

  /** `strip()` leaves a string alone exactly when it neither starts nor ends with whitespace. */
  lemma StripIdentity(s: string)
    ensures Strip(s) == s <==> (s == [] || (!IsSpace(s[0]) && !IsSpace(s[|s| - 1])))
  {
    if s != [] && !IsSpace(s[0]) && !IsSpace(s[|s| - 1]) {
      var p := StripBounds(s);
      assert p.0 == 0;
      assert p.1 == |s|;
    }
  }

  /** `strip()` is idempotent. */
  lemma StripIdempotent(s: string)
    ensures Strip(Strip(s)) == Strip(s)
  {
    StripIdentity(Strip(s));
  }

  /** A run of `n` zero digits. */
  function Zeros(n: nat): (r: string)
    ensures |r| == n && forall m :: 0 <= m < n ==> r[m] == '0'
  {
    if n == 0 then [] else ['0'] + Zeros(n - 1)
  }

  /** `str.zfill(width)`: left-pad with zeros, after a leading sign if there is one. */
  function ZFill(s: string, width: nat): (r: string)
    ensures |r| == if |s| >= width then |s| else width
  {
    if |s| >= width then s
    else if s != [] && (s[0] == '+' || s[0] == '-') then [s[0]] + Zeros(width - |s|) + s[1..]
    else Zeros(width - |s|) + s
  }

  /** The character of a decimal digit. */
  function DigitChar(d: nat): (c: char)
    requires d < 10
    ensures IsDigit(c)
  {
    ('0' as int + d) as char
  }

  /** The value of a decimal digit character. */
  function DigitValue(c: char): (d: nat)
    requires IsDigit(c)
    ensures d < 10
  {
    c as int - '0' as int
  }

  /** The value of a string of decimal digits. */
  function Value(s: string): nat
    requires AllIn(s, Digit)
  {
    if s == [] then 0 else Value(s[..|s| - 1]) * 10 + DigitValue(s[|s| - 1])
  }

  /** `str(n)` / `f"{n}"` for a natural number: its decimal digits, no leading zero. */
  function Dec(n: nat): (r: string)
    ensures r != [] && AllIn(r, Digit)
    ensures |r| > 1 ==> r[0] != '0'
  {
    if n < 10 then [DigitChar(n)] else Dec(n / 10) + [DigitChar(n % 10)]
  }

  /** Reading the decimal spelling back gives the number: the spelling loses nothing. */
  lemma {:induction false} DecValue(n: nat)
    ensures Value(Dec(n)) == n
  {
    if n >= 10 {
      var d := Dec(n / 10);
      DecValue(n / 10);
      assert (d + [DigitChar(n % 10)])[..|d|] == d;
    }
  }

  /** Different numbers are spelled differently. */
  lemma DecInjective(j: nat, k: nat)
    ensures Dec(j) == Dec(k) ==> j == k
  {
    DecValue(j);
    DecValue(k);
  }
}
