/** Models of the Python string built-ins the scanner relies on:
    `str.isspace`, `str.strip()`, `str.upper()` and `int()` applied to a string. */
module PyText {
  import opened Wrappers

  /** The characters for which Python's `str.isspace()` holds; `str.strip()` removes
      exactly these from both ends. Among ASCII they are tab, line feed, vertical tab,
      form feed, carriage return, the four separators U+001C..U+001F and space. */
  predicate IsSpace(c: char)
  {
    || c == ' '
    || ('\t' <= c <= '\r')
    || ('\U{1C}' <= c <= '\U{1F}')
    || c == '\U{85}' || c == '\U{A0}' || c == '\U{1680}'
    || ('\U{2000}' <= c <= '\U{200A}')
    || c == '\U{2028}' || c == '\U{2029}' || c == '\U{202F}' || c == '\U{205F}' || c == '\U{3000}'
  }

  /** Among ASCII, the whitespace of `str.isspace()` is the ten characters listed; no
      digit, sign or underscore is whitespace. */
  lemma IsSpaceAscii(c: char)
    ensures c as int < 128 ==> (IsSpace(c) <==> c in " \t\n\U{B}\U{C}\r\U{1C}\U{1D}\U{1E}\U{1F}")
    ensures IsSpace(c) ==> !IsNumeralChar(c)
  {
  }

  /** The whitespace `int()` skips around a number: the ASCII characters of C's
      `isspace` (tab, line feed, vertical tab, form feed, carriage return and space),
      and the non-ASCII characters for which `str.isspace()` holds, which `int()` first
      turns into spaces. */
  predicate IsIntSpace(c: char) {
    c == ' ' || ('\t' <= c <= '\r') || (c as int >= 128 && IsSpace(c))
  }

  /** `int()` skips the whitespace of `str.isspace()` except the separators U+001C..U+001F. */
  lemma IntSpaceIsSpace(c: char)
    ensures IsIntSpace(c) <==> IsSpace(c) && !('\U{1C}' <= c <= '\U{1F}')
  {
  }

  /** Length of the longest prefix of `s` made of characters that satisfy `sp`. */
  function LeadingCount(sp: char -> bool, s: string): (k: nat)
    ensures k <= |s|
    ensures forall i :: 0 <= i < k ==> sp(s[i])
    ensures k < |s| ==> !sp(s[k])
  {
    if s == [] || !sp(s[0]) then 0 else 1 + LeadingCount(sp, s[1..])
  }

  /** Length of the longest suffix of `s` made of characters that satisfy `sp`. */
  function TrailingCount(sp: char -> bool, s: string): (k: nat)
    ensures k <= |s|
    ensures forall i :: |s| - k <= i < |s| ==> sp(s[i])
    ensures k < |s| ==> !sp(s[|s| - 1 - k])
  {
    if s == [] || !sp(s[|s| - 1]) then 0 else 1 + TrailingCount(sp, s[..|s| - 1])
  }

  /** `s` without the characters satisfying `sp` at either end: the infix of `s` that
      follows the longest such prefix, with only such characters after it, and neither
      end satisfying `sp`. */
  function StripBy(sp: char -> bool, s: string): (r: string)
    ensures LeadingCount(sp, s) + |r| <= |s|
    ensures r == s[LeadingCount(sp, s)..LeadingCount(sp, s) + |r|]
    ensures forall i :: LeadingCount(sp, s) + |r| <= i < |s| ==> sp(s[i])
    ensures r != [] ==> !sp(r[0]) && !sp(r[|r| - 1])
  {
    var lead := LeadingCount(sp, s);
    var rest := s[lead..];
    var keep := |rest| - TrailingCount(sp, rest);
    StripParts(sp, s, lead, rest, keep);
    rest[..keep]
  }

  /** The facts behind `StripBy`, from what the two counts promise. */
  lemma StripParts(sp: char -> bool, s: string, lead: nat, rest: string, keep: nat)
    requires lead <= |s| && rest == s[lead..] && keep <= |rest|
    requires lead < |s| ==> !sp(s[lead])
    requires forall i :: keep <= i < |rest| ==> sp(rest[i])
    requires keep > 0 ==> !sp(rest[keep - 1])
    ensures rest[..keep] == s[lead..lead + keep]
    ensures forall i :: lead + keep <= i < |s| ==> sp(s[i])
    ensures keep > 0 ==> !sp(rest[0]) && !sp(rest[keep - 1])
  {
    forall i | lead + keep <= i < |s| ensures sp(s[i]) {
      assert s[i] == rest[i - lead];
    }
    if keep > 0 {
      assert rest[0] == s[lead];
    }
  }

  /** A text whose ends do not satisfy `sp` is its own `StripBy`. */
  lemma StripByUnchanged(sp: char -> bool, s: string)
    requires s == [] || (!sp(s[0]) && !sp(s[|s| - 1]))
    ensures StripBy(sp, s) == s
  {
    if s != [] {
      assert LeadingCount(sp, s) == 0;
      assert TrailingCount(sp, s) == 0;
    }
  }

  lemma {:induction false} LeadingSkip(sp: char -> bool, p: string, y: string)
    requires forall i :: 0 <= i < |p| ==> sp(p[i])
    requires y != [] && !sp(y[0])
    ensures LeadingCount(sp, p + y) == |p|
  {
    if p != [] {
      assert (p + y)[1..] == p[1..] + y;
      LeadingSkip(sp, p[1..], y);
    }
  }

  lemma {:induction false} TrailingSkip(sp: char -> bool, y: string, q: string)
    requires forall i :: 0 <= i < |q| ==> sp(q[i])
    requires y != [] && !sp(y[|y| - 1])
    ensures TrailingCount(sp, y + q) == |q|
  {
    if q != [] {
      assert (y + q)[..|y + q| - 1] == y + q[..|q| - 1];
      TrailingSkip(sp, y, q[..|q| - 1]);
    }
  }

  /** `StripBy` removes exactly the padding around a text whose ends do not satisfy `sp`. */
  lemma StripByPadded(sp: char -> bool, p: string, x: string, q: string)
    requires forall i :: 0 <= i < |p| ==> sp(p[i])
    requires forall i :: 0 <= i < |q| ==> sp(q[i])
    requires x != [] && !sp(x[0]) && !sp(x[|x| - 1])
    ensures StripBy(sp, p + x + q) == x
  {
    var s := p + x + q;
    assert s == p + (x + q);
    LeadingSkip(sp, p, x + q);
    assert s[|p|..] == x + q;
    TrailingSkip(sp, x, q);
    assert (x + q)[..|x|] == x;
  }

  /** `s.strip()`: the part of `s` that follows its whitespace prefix, with only
      whitespace after it, and neither end whitespace. */
  function Strip(s: string): (r: string)
    ensures LeadingCount(IsSpace, s) + |r| <= |s|
    ensures r == s[LeadingCount(IsSpace, s)..LeadingCount(IsSpace, s) + |r|]
    ensures forall i :: LeadingCount(IsSpace, s) + |r| <= i < |s| ==> IsSpace(s[i])
    ensures r != [] ==> !IsSpace(r[0]) && !IsSpace(r[|r| - 1])
  {
    StripBy(IsSpace, s)
  }

  /** A string whose ends are not whitespace is left alone by `strip()`. */
  lemma StripUnchanged(s: string)
    requires s == [] || (!IsSpace(s[0]) && !IsSpace(s[|s| - 1]))
    ensures Strip(s) == s
  {
    StripByUnchanged(IsSpace, s);
  }

  /** `strip()` removes exactly the whitespace padding around a text whose ends are
      not whitespace. */
  lemma StripPadded(p: string, x: string, q: string)
    requires forall i :: 0 <= i < |p| ==> IsSpace(p[i])
    requires forall i :: 0 <= i < |q| ==> IsSpace(q[i])
    requires x != [] && !IsSpace(x[0]) && !IsSpace(x[|x| - 1])
    ensures Strip(p + x + q) == x
  {
    StripByPadded(IsSpace, p, x, q);
  }

  /** `str.upper()` on one character, for the characters whose upper-case form is one
      ASCII letter: the ASCII lower-case letters, U+0131 (dotless i) and U+017F (long s).
      Every other character is kept. */
  function UpperChar(c: char): (u: char)
    ensures !('a' <= u <= 'z')
    ensures 'A' <= c <= 'Z' ==> u == c
  {
    if 'a' <= c <= 'z' then (c as int - 32) as char
    else if c == '\U{131}' then 'I'
    else if c == '\U{17F}' then 'S'
    else c
  }

  /** `s.upper()`, character by character. */
  function Upper(s: string): string
  {
    seq(|s|, i requires 0 <= i < |s| => UpperChar(s[i]))
  }

  /** The characters `upper()` maps to the ASCII capital `u`: `u` itself, its
      lower-case letter, and U+0131 for I and U+017F for S. */
  predicate UpperFrom(c: char, u: char) {
    c == u || c as int == u as int + 32 || (u == 'I' && c == '\U{131}') || (u == 'S' && c == '\U{17F}')
  }

  lemma UpperCharTo(c: char, u: char)
    requires 'A' <= u <= 'Z'
    ensures UpperChar(c) == u <==> UpperFrom(c, u)
  {
  }

  /** A text upper-cases to a text of ASCII capitals exactly when it has the same length
      and each of its characters is one that `upper()` maps to the capital at that place. */
  lemma UpperTo(s: string, t: string)
    requires forall i :: 0 <= i < |t| ==> 'A' <= t[i] <= 'Z'
    ensures Upper(s) == t <==> |s| == |t| && forall i :: 0 <= i < |s| ==> UpperFrom(s[i], t[i])
  {
    if |s| == |t| {
      forall i | 0 <= i < |s|
        ensures Upper(s)[i] == t[i] <==> UpperFrom(s[i], t[i])
      {
        UpperCharTo(s[i], t[i]);
      }
    }
  }

  /** Upper-casing twice is upper-casing once. */
  lemma UpperIdempotent(s: string)
    ensures Upper(Upper(s)) == Upper(s)
  {
    forall i | 0 <= i < |s|
      ensures Upper(Upper(s))[i] == Upper(s)[i]
    {
      var u := UpperChar(s[i]);
      assert UpperChar(u) == u;
    }
  }

  predicate IsDigit(c: char) {
    '0' <= c <= '9'
  }

  /** Digits with single underscores between them, the body of a base-10 literal
      that `int()` accepts ("1_000", not "_1", "1_" or "1__0"). */
  predicate IsDigitGroup(s: string) {
    && |s| > 0
    && IsDigit(s[0])
    && IsDigit(s[|s| - 1])
    && (forall i :: 0 <= i < |s| ==> IsDigit(s[i]) || s[i] == '_')
    && (forall i :: 0 <= i < |s| - 1 ==> s[i] == '_' ==> IsDigit(s[i + 1]))
  }

  /** The number the digits of `s` spell, underscores skipped. */
  function DigitsValue(s: string): nat
  {
    if s == [] then 0
    else if IsDigit(s[|s| - 1]) then 10 * DigitsValue(s[..|s| - 1]) + (s[|s| - 1] as int - '0' as int)
    else DigitsValue(s[..|s| - 1])
  }

  /** `int(s)` for a string `s`: one optional sign and a digit group, with whitespace
      that `int()` skips around them; `None` where Python raises ValueError. A text it
      accepts has a digit, a minus sign when the number is negative, and no character
      but the whitespace `int()` skips, digits, signs and underscores. */
  function ParseInt(s: string): (r: Option<int>)
    ensures r.Some? ==> exists i :: 0 <= i < |s| && IsDigit(s[i])
    ensures r.Some? && r.value < 0 ==> exists i :: 0 <= i < |s| && s[i] == '-'
    ensures r.Some? ==> forall i :: 0 <= i < |s| ==> IsIntSpace(s[i]) || IsNumeralChar(s[i])
  {
    var t := StripBy(IsIntSpace, s);
    ParsedChars(s, t);
    ParseStripped(t)
  }

  predicate IsNumeralChar(c: char) {
    IsDigit(c) || c == '+' || c == '-' || c == '_'
  }

  /** `int()` on text already stripped of the whitespace it skips. */
  function ParseStripped(t: string): Option<int>
  {
    if t != [] && (t[0] == '+' || t[0] == '-') then
      var v: int := DigitsValue(t[1..]);
      if IsDigitGroup(t[1..]) then Some(if t[0] == '-' then -v else v) else None
    else if IsDigitGroup(t) then Some(DigitsValue(t))
    else None
  }

  /** What the characters of a text are when `int()` accepts it. */
  lemma ParsedChars(s: string, t: string)
    requires t == StripBy(IsIntSpace, s)
    ensures ParseStripped(t).Some? ==> exists i :: 0 <= i < |s| && IsDigit(s[i])
    ensures ParseStripped(t).Some? && ParseStripped(t).value < 0 ==> exists i :: 0 <= i < |s| && s[i] == '-'
    ensures ParseStripped(t).Some? ==> forall i :: 0 <= i < |s| ==> IsIntSpace(s[i]) || IsNumeralChar(s[i])
  {
    if ParseStripped(t).Some? {
      var lead := LeadingCount(IsIntSpace, s);
      assert forall j :: 0 <= j < |t| ==> t[j] == s[lead + j];
      var d := if t[0] == '+' || t[0] == '-' then 1 else 0;
      assert IsDigit(t[d]);
      assert IsDigit(s[lead + d]);
      if ParseStripped(t).value < 0 {
        assert s[lead] == '-';
      }
      forall i | 0 <= i < |s| ensures IsIntSpace(s[i]) || IsNumeralChar(s[i]) {
        if lead <= i < lead + |t| {
          assert s[i] == t[i - lead];
        }
      }
    }
  }

  function DigitChar(d: nat): char
    requires d < 10
  {
    ('0' as int + d) as char
  }

  function NatDigits(n: nat): string
    decreases n
  {
    if n < 10 then [DigitChar(n)] else NatDigits(n / 10) + [DigitChar(n % 10)]
  }

  /** The decimal text of `n`, as `str(n)` writes it. */
  function DecimalString(n: int): string
  {
    if n < 0 then "-" + NatDigits(-n) else NatDigits(n)
  }

  /** The decimal text of a natural number is a digit group that spells it. */
  lemma {:induction false} NatDigitsSpell(n: nat)
    ensures |NatDigits(n)| > 0
    ensures forall i :: 0 <= i < |NatDigits(n)| ==> IsDigit(NatDigits(n)[i])
    ensures DigitsValue(NatDigits(n)) == n
    decreases n
  {
    if n >= 10 {
      NatDigitsSpell(n / 10);
      var s := NatDigits(n);
      assert s[..|s| - 1] == NatDigits(n / 10);
    }
  }

  /** The text `str()` writes for `n` parses back to `n`, and neither of its ends is
      whitespace. */
  lemma DecimalParses(n: int)
    ensures DecimalString(n) != []
    ensures !IsSpace(DecimalString(n)[0]) && !IsSpace(DecimalString(n)[|DecimalString(n)| - 1])
    ensures ParseStripped(DecimalString(n)) == Some(n)
  {
    var m: nat := if n < 0 then -n else n;
    NatDigitsSpell(m);
    var d := NatDigits(m);
    assert IsDigit(d[0]) && IsDigit(d[|d| - 1]);
    assert IsDigitGroup(d);
    if n < 0 {
      assert DecimalString(n)[1..] == d;
    }
  }

  /** `int()` reads back what `str()` writes, with any padding of the whitespace it
      skips around it. */
  lemma ParseIntDecimal(n: int, p: string, q: string)
    requires forall i :: 0 <= i < |p| ==> IsIntSpace(p[i])
    requires forall i :: 0 <= i < |q| ==> IsIntSpace(q[i])
    ensures ParseInt(p + DecimalString(n) + q) == Some(n)
  {
    DecimalParses(n);
    var x := DecimalString(n);
    IntSpaceIsSpace(x[0]);
    IntSpaceIsSpace(x[|x| - 1]);
    StripByPadded(IsIntSpace, p, x, q);
  }
}
