/**
 * The pieces of the Kotlin/Java string library that the player's logic leans on:
 * prefix/suffix/substring tests (optionally case-insensitive), `substringBeforeLast`
 * and `substringAfterLast`, `trim`, decimal rendering with `%02d`, `toIntOrNull`,
 * truncating integer division, and `String.hashCode` (the key under which
 * resume positions are stored).
 */
module Text {

  datatype Option<T> = None | Some(value: T)

  // ---------------------------------------------------------------- case folding

  /** ASCII lower-casing of one character; every other character is kept. */
  function LowerChar(c: char): char
  {
    if 'A' <= c <= 'Z' then (c as int + 32) as char else c
  }

  function Lower(s: string): (r: string)
    ensures |r| == |s|
    ensures forall i :: 0 <= i < |s| ==> r[i] == LowerChar(s[i])
  {
    if s == [] then [] else [LowerChar(s[0])] + Lower(s[1..])
  }

  // ---------------------------------------------------------------- prefixes, suffixes, infixes

  predicate StartsWith(s: string, prefix: string)
  {
    |prefix| <= |s| && s[..|prefix|] == prefix
  }

  predicate EndsWith(s: string, suffix: string)
  {
    |suffix| <= |s| && s[|s| - |suffix|..] == suffix
  }

  predicate OccursAt(s: string, part: string, i: int)
  {
    0 <= i && i + |part| <= |s| && s[i..i + |part|] == part
  }

  predicate Contains(s: string, part: string)
  {
    exists i :: 0 <= i <= |s| - |part| && OccursAt(s, part, i)
  }

  /** `startsWith(prefix, ignoreCase = true)` */
  predicate StartsWithIgnoreCase(s: string, prefix: string)
  {
    StartsWith(Lower(s), Lower(prefix))
  }

  /** `endsWith(suffix, ignoreCase = true)` */
  predicate EndsWithIgnoreCase(s: string, suffix: string)
  {
    EndsWith(Lower(s), Lower(suffix))
  }

  /** `contains(part, ignoreCase = true)` */
  predicate ContainsIgnoreCase(s: string, part: string)
  {
    Contains(Lower(s), Lower(part))
  }

  lemma ContainsEmpty(s: string)
    ensures Contains(s, "")
  {
    assert OccursAt(s, "", 0);
  }

  // ---------------------------------------------------------------- last occurrence of a delimiter

  /** Index of the last `c` in `s`, or -1 when there is none. */
  function LastIndexOf(s: string, c: char): (r: int)
    ensures -1 <= r < |s|
    ensures r == -1 <==> c !in s
    ensures r >= 0 ==> s[r] == c
    ensures forall j :: r < j < |s| ==> s[j] != c
  {
    if s == [] then -1
    else if s[|s| - 1] == c then |s| - 1
    else LastIndexOf(s[..|s| - 1], c)
  }

  /** `substringBeforeLast(c)`: the whole string when `c` does not occur. */
  function SubstringBeforeLast(s: string, c: char): (r: string)
    ensures c !in s ==> r == s
    ensures c in s ==> |r| < |s| && s[..|r|] == r && s[|r|] == c && c !in s[|r| + 1..]
  {
    var i := LastIndexOf(s, c);
    if i < 0 then s else s[..i]
  }

  /** `substringAfterLast(c, missing)`: `missing` when `c` does not occur. */
  function SubstringAfterLastOr(s: string, c: char, missing: string): (r: string)
    ensures c !in s ==> r == missing
    ensures c in s ==> c !in r && |r| < |s| && s[|s| - |r|..] == r && s[|s| - |r| - 1] == c
  {
    var i := LastIndexOf(s, c);
    if i < 0 then missing else s[i + 1..]
  }

  /** `substringAfterLast(c)`: the whole string when `c` does not occur. */
  function SubstringAfterLast(s: string, c: char): string
  {
    SubstringAfterLastOr(s, c, s)
  }

  lemma SplitAtLast(s: string, c: char)
    requires c in s
    ensures SubstringBeforeLast(s, c) + [c] + SubstringAfterLast(s, c) == s
  {
    var i := LastIndexOf(s, c);
    assert s == s[..i] + [c] + s[i + 1..];
  }

  // ---------------------------------------------------------------- trim

  /**
   * Kotlin's `Char.isWhitespace()`, which `trim()` uses: Java's `isWhitespace` or
   * `isSpaceChar`. That is the controls U+0009-U+000D and U+001C-U+001F, and the Unicode
   * space, line and paragraph separators (the no-break spaces included).
   */
  predicate IsWhitespace(c: char)
  {
    ('\U{0009}' <= c <= '\U{000D}') || ('\U{001C}' <= c <= '\U{0020}')
    || c == '\U{00A0}' || c == '\U{1680}' || ('\U{2000}' <= c <= '\U{200A}')
    || c == '\U{2028}' || c == '\U{2029}' || c == '\U{202F}' || c == '\U{205F}' || c == '\U{3000}'
  }

  function TrimStart(s: string): (r: string)
    ensures |r| <= |s| && s[|s| - |r|..] == r
    ensures r == [] || !IsWhitespace(r[0])
    ensures forall i :: 0 <= i < |s| - |r| ==> IsWhitespace(s[i])
  {
    if s == [] || !IsWhitespace(s[0]) then s else TrimStart(s[1..])
  }

  function TrimEnd(s: string): (r: string)
    ensures |r| <= |s| && s[..|r|] == r
    ensures r == [] || !IsWhitespace(r[|r| - 1])
    ensures forall i :: |r| <= i < |s| ==> IsWhitespace(s[i])
  {
    if s == [] || !IsWhitespace(s[|s| - 1]) then s else TrimEnd(s[..|s| - 1])
  }

  function Trim(s: string): string
  {
    TrimEnd(TrimStart(s))
  }

  /** A trimmed string is empty exactly when the input was all whitespace. */
  lemma TrimEmpty(s: string)
    ensures Trim(s) == [] <==> forall i :: 0 <= i < |s| ==> IsWhitespace(s[i])
  {
    var t := TrimStart(s);
    if Trim(s) == [] {
      forall i | 0 <= i < |s| ensures IsWhitespace(s[i]) {
        if i >= |s| - |t| {
          assert s[i] == t[i - (|s| - |t|)];
        }
      }
    } else {
      var k := |s| - |t|;
      assert s[k] == t[0] && !IsWhitespace(s[k]);
    }
  }

  /** A trimmed text trims to itself at both ends. */
  lemma TrimmedEnds(s: string)
    requires Trim(s) == s
    ensures TrimStart(s) == s && TrimEnd(s) == s
  {
    assert |TrimEnd(TrimStart(s))| <= |TrimStart(s)| <= |s|;
  }

  /** Appending a character to a text that does not start with whitespace keeps its start. */
  lemma TrimStartSnoc(s: string, d: char)
    requires s != [] && TrimStart(s) == s
    ensures TrimStart(s + [d]) == s + [d]
  {
    assert (s + [d])[0] == s[0];
  }

  /**
   * The information separators U+001C-U+001F are trimmed like spaces, as `trim()` does:
   * wrapping an already trimmed text in two of them trims back to the text.
   */
  lemma TrimDropsSeparators(s: string, c: char, d: char)
    requires '\U{001C}' <= c <= '\U{001F}' && '\U{001C}' <= d <= '\U{001F}'
    requires Trim(s) == s
    ensures Trim([c] + s + [d]) == s
  {
    TrimmedEnds(s);
    TrimStartCons(c, s, d);
    TrimSnoc(s, d);
  }

  /** A leading whitespace character is dropped by `TrimStart`. */
  lemma TrimStartCons(c: char, s: string, d: char)
    requires IsWhitespace(c)
    ensures TrimStart([c] + s + [d]) == TrimStart(s + [d])
  {
    var t := [c] + s + [d];
    assert t[0] == c && t[1..] == s + [d];
  }

  /** After a text that does not start with whitespace, a trailing whitespace character trims away. */
  lemma TrimSnoc(s: string, d: char)
    requires IsWhitespace(d) && TrimStart(s) == s
    ensures TrimEnd(TrimStart(s + [d])) == TrimEnd(s)
  {
    if s == [] {
      assert s + [d] == [d] && [d][1..] == [];
    } else {
      TrimStartSnoc(s, d);
      TrimEndSnoc(s, d);
    }
  }

  /** A trailing whitespace character is dropped by `TrimEnd`. */
  lemma TrimEndSnoc(u: string, d: char)
    requires IsWhitespace(d)
    ensures TrimEnd(u + [d]) == TrimEnd(u)
  {
    assert (u + [d])[|u|] == d && (u + [d])[..|u|] == u;
  }

  // ---------------------------------------------------------------- integers

  /** The JVM's `/` on integers: truncation toward zero (the divisor is positive here). */
  function TruncDiv(a: int, b: int): (q: int)
    requires b > 0
    ensures a >= 0 ==> q == a / b
    ensures a < 0 ==> q == -((-a) / b)
  {
    if a >= 0 then a / b else -((-a) / b)
  }

  /** The JVM's `%`: the remainder takes the sign of the dividend. */
  function TruncRem(a: int, b: int): (r: int)
    requires b > 0
    ensures a == TruncDiv(a, b) * b + r
    ensures a >= 0 ==> 0 <= r < b
    ensures a < 0 ==> -b < r <= 0
  {
    a - TruncDiv(a, b) * b
  }

  /** Two's-complement wrap of an integer into the range of a 32-bit `Int`. */
  function ToInt32(x: int): (r: int)
    ensures -0x8000_0000 <= r < 0x8000_0000
    ensures (r - x) % 0x1_0000_0000 == 0
    ensures -0x8000_0000 <= x < 0x8000_0000 ==> r == x
  {
    (x + 0x8000_0000) % 0x1_0000_0000 - 0x8000_0000
  }

  const DIGITS: string := "0123456789"

  function DigitChar(d: nat): char
    requires d < 10
  {
    DIGITS[d]
  }

  function NatToString(n: nat): (r: string)
    ensures |r| >= 1
    ensures n >= 10 ==> |r| >= 2
    ensures forall i :: 0 <= i < |r| ==> '0' <= r[i] <= '9'
    decreases n
  {
    if n < 10 then [DigitChar(n)] else NatToString(n / 10) + [DigitChar(n % 10)]
  }

  /** `toString()` of an integer. */
  function IntToString(n: int): string
  {
    if n < 0 then "-" + NatToString(-n) else NatToString(n)
  }

  /** `String.format("%02d", n)`: at least two characters, zero-padded. */
  function Pad2(n: int): (r: string)
    ensures |r| >= 2
  {
    if 0 <= n < 10 then "0" + NatToString(n) else IntToString(n)
  }

  function DigitValue(c: char): int
  {
    c as int - '0' as int
  }

  predicate AllDigits(s: string)
  {
    forall i :: 0 <= i < |s| ==> '0' <= s[i] <= '9'
  }

  /** Value of a non-empty run of decimal digits. */
  function DigitsValue(s: string): (v: nat)
    requires AllDigits(s)
  {
    if s == [] then 0 else DigitsValue(s[..|s| - 1]) * 10 + DigitValue(s[|s| - 1])
  }

  /**
   * `toIntOrNull()`: an optional sign followed by at least one decimal digit, whose
   * value fits a 32-bit `Int`; anything else is `null`.
   */
  function ParseInt(s: string): (r: Option<int>)
    ensures r.Some? ==> -0x8000_0000 <= r.value < 0x8000_0000
    ensures s == [] ==> r == None
  {
    if s == [] then None
    else
      var negative := s[0] == '-';
      var body := if s[0] == '-' || s[0] == '+' then s[1..] else s;
      if body == [] || !AllDigits(body) then None
      else
        var magnitude: int := DigitsValue(body);
        var v := if negative then -magnitude else magnitude;
        if -0x8000_0000 <= v < 0x8000_0000 then Some(v) else None
  }

  lemma {:induction false} DigitsRoundTrip(n: nat)
    ensures AllDigits(NatToString(n)) && DigitsValue(NatToString(n)) == n
    decreases n
  {
    if n >= 10 {
      DigitsRoundTrip(n / 10);
      var s := NatToString(n);
      assert s[..|s| - 1] == NatToString(n / 10);
    }
  }

  /** `toIntOrNull` reads back what `toString` wrote, for every 32-bit value. */
  lemma ParseIntRoundTrip(n: int)
    requires -0x8000_0000 <= n < 0x8000_0000
    ensures ParseInt(IntToString(n)) == Some(n)
  {
    if n < 0 {
      ParseNegative(n);
    } else {
      ParseNonNegative(n);
    }
  }

  lemma ParseNonNegative(n: nat)
    requires n < 0x8000_0000
    ensures ParseInt(IntToString(n)) == Some(n)
  {
    var s := NatToString(n);
    assert IntToString(n) == s;
    DigitsRoundTrip(n);
    assert s != [] && s[0] != '-' && s[0] != '+';
  }

  lemma ParseNegative(n: int)
    requires -0x8000_0000 <= n < 0
    ensures ParseInt(IntToString(n)) == Some(n)
  {
    var m: nat := -n;
    var digits := NatToString(m);
    var s := "-" + digits;
    assert IntToString(n) == s;
    DigitsRoundTrip(m);
    assert s[0] == '-' && s[1..] == digits;
  }

  // ---------------------------------------------------------------- ordering

  /** Lexicographic order on code-unit sequences, a proper prefix first. */
  predicate UnitsLess(a: seq<int>, b: seq<int>)
  {
    if a == [] then b != []
    else if b == [] then false
    else a[0] < b[0] || (a[0] == b[0] && UnitsLess(a[1..], b[1..]))
  }

  lemma {:induction false} UnitsLessIrreflexive(a: seq<int>)
    ensures !UnitsLess(a, a)
  {
    if a != [] { UnitsLessIrreflexive(a[1..]); }
  }

  lemma {:induction false} UnitsLessTransitive(a: seq<int>, b: seq<int>, c: seq<int>)
    requires UnitsLess(a, b) && UnitsLess(b, c)
    ensures UnitsLess(a, c)
  {
    if a != [] && b != [] && c != [] && a[0] == b[0] && b[0] == c[0] {
      UnitsLessTransitive(a[1..], b[1..], c[1..]);
    }
  }

  lemma {:induction false} UnitsLessTotal(a: seq<int>, b: seq<int>)
    ensures a == b || UnitsLess(a, b) || UnitsLess(b, a)
  {
    if a != [] && b != [] && a[0] == b[0] {
      UnitsLessTotal(a[1..], b[1..]);
      if a[1..] == b[1..] {
        assert a == [a[0]] + a[1..] && b == [b[0]] + b[1..];
      }
    }
  }

  /**
   * `String.compareTo(...) < 0`: lexicographic by UTF-16 code unit, a proper prefix first.
   * A character above U+FFFF compares by its high surrogate.
   */
  predicate LexLess(a: string, b: string)
  {
    UnitsLess(Utf16(a), Utf16(b))
  }

  lemma LexLessIrreflexive(a: string)
    ensures !LexLess(a, a)
  {
    UnitsLessIrreflexive(Utf16(a));
  }

  lemma LexLessTransitive(a: string, b: string, c: string)
    requires LexLess(a, b) && LexLess(b, c)
    ensures LexLess(a, c)
  {
    UnitsLessTransitive(Utf16(a), Utf16(b), Utf16(c));
  }

  lemma LexLessTotal(a: string, b: string)
    ensures a == b || LexLess(a, b) || LexLess(b, a)
  {
    UnitsLessTotal(Utf16(a), Utf16(b));
    if Utf16(a) == Utf16(b) {
      Utf16Injective(a, b);
    }
  }

  /** An emoji (U+1F600) sorts before a fullwidth letter (U+FF21): D83D < FF21. */
  lemma SurrogatesSortBeforeHighBmp()
    ensures LexLess("\U{1F600}", "\U{FF21}")
    ensures !LexLess("\U{FF21}", "\U{1F600}")
  {
    var e, f := "\U{1F600}", "\U{FF21}";
    assert e[..0] == [] && f[..0] == [];
    assert Utf16(e) == Utf16Units('\U{1F600}') == [0xD83D, 0xDE00];
    assert Utf16(f) == [0xFF21];
  }

  // ---------------------------------------------------------------- hashing

  /**
   * The UTF-16 code units of one character, as a Java `String` stores it: the character
   * itself in the Basic Multilingual Plane, a high and a low surrogate above it.
   */
  function Utf16Units(c: char): (r: seq<int>)
    ensures |r| == 1 <==> c as int < 0x1_0000
    ensures |r| == 1 ==> r[0] == c as int
    ensures |r| != 1 ==> |r| == 2 && 0xD800 <= r[0] < 0xDC00 <= r[1] < 0xE000
                         && 0x1_0000 + (r[0] - 0xD800) * 0x400 + (r[1] - 0xDC00) == c as int
  {
    var v := c as int;
    if v < 0x1_0000 then [v]
    else [0xD800 + (v - 0x1_0000) / 0x400, 0xDC00 + (v - 0x1_0000) % 0x400]
  }

  /** The UTF-16 encoding of a string: its characters' code units, in order. */
  function Utf16(s: string): (r: seq<int>)
    ensures |r| >= |s|
    ensures (forall i :: 0 <= i < |s| ==> s[i] as int < 0x1_0000) ==> r == seq(|s|, i requires 0 <= i < |s| => s[i] as int)
  {
    if s == [] then [] else Utf16(s[..|s| - 1]) + Utf16Units(s[|s| - 1])
  }

  /** Only the characters above U+FFFF end in a low surrogate. */
  lemma Utf16UnitsTail(c: char)
    ensures var r := Utf16Units(c); |r| == 2 <==> 0xDC00 <= r[|r| - 1] < 0xE000
  {
  }

  /** Two splits of one sequence with suffixes of the same length are the same split. */
  lemma SameSplit(p: seq<int>, u: seq<int>, q: seq<int>, v: seq<int>)
    requires p + u == q + v && |u| == |v|
    ensures p == q && u == v
  {
    var w := p + u;
    assert p == w[..|p|] && q == w[..|q|];
    assert u == w[|p|..] && v == w[|q|..];
  }

  /** A character is decided by its units. */
  lemma Utf16UnitsInjective(c: char, d: char)
    requires Utf16Units(c) == Utf16Units(d)
    ensures c == d
  {
  }

  /** The last element of a concatenation is the last of its second part. */
  lemma LastOfConcat(p: seq<int>, u: seq<int>)
    requires u != []
    ensures (p + u)[|p + u| - 1] == u[|u| - 1]
  {
  }

  /** The last character's units are decided by the encoding's last unit. */
  lemma LastUnitsAgree(a: string, b: string)
    requires a != [] && b != [] && Utf16(a) == Utf16(b)
    ensures a[|a| - 1] == b[|b| - 1] && Utf16(a[..|a| - 1]) == Utf16(b[..|b| - 1])
  {
    var ca, cb := a[|a| - 1], b[|b| - 1];
    var ua, ub := Utf16Units(ca), Utf16Units(cb);
    var pa, pb := Utf16(a[..|a| - 1]), Utf16(b[..|b| - 1]);
    assert pa + ua == pb + ub;
    assert |ua| == |ub| by {
      LastOfConcat(pa, ua);
      LastOfConcat(pb, ub);
      Utf16UnitsTail(ca);
      Utf16UnitsTail(cb);
    }
    SameSplit(pa, ua, pb, ub);
    Utf16UnitsInjective(ca, cb);
  }

  /** Different strings have different encodings. */
  lemma {:induction false} Utf16Injective(a: string, b: string)
    requires Utf16(a) == Utf16(b)
    ensures a == b
    decreases |a|
  {
    if a != [] && b != [] {
      LastUnitsAgree(a, b);
      Utf16Injective(a[..|a| - 1], b[..|b| - 1]);
      assert a == a[..|a| - 1] + [a[|a| - 1]];
      assert b == b[..|b| - 1] + [b[|b| - 1]];
    }
  }

  /** h = 31 * h + u over a sequence of code units, wrapped to 32 bits after every step. */
  function HashUnits(units: seq<int>): (h: int)
    ensures -0x8000_0000 <= h < 0x8000_0000
  {
    if units == [] then 0 else ToInt32(31 * HashUnits(units[..|units| - 1]) + units[|units| - 1])
  }

  /**
   * Java's `String.hashCode()`: the 32-bit fold of `HashUnits` over the string's UTF-16
   * code units, so a character above U+FFFF contributes both of its surrogates.
   */
  function JavaHashCode(s: string): (h: int)
    ensures -0x8000_0000 <= h < 0x8000_0000
  {
    HashUnits(Utf16(s))
  }

  /** Appending one character folds its code units onto the hash of the prefix. */
  lemma JavaHashCodeAppend(s: string, c: char)
    ensures c as int < 0x1_0000 ==> JavaHashCode(s + [c]) == ToInt32(31 * JavaHashCode(s) + c as int)
    ensures c as int >= 0x1_0000 ==>
      JavaHashCode(s + [c]) == ToInt32(31 * ToInt32(31 * JavaHashCode(s) + Utf16Units(c)[0]) + Utf16Units(c)[1])
  {
    if c as int < 0x1_0000 {
      JavaHashCodeAppendBmp(s, c);
    } else {
      JavaHashCodeAppendPair(s, c);
    }
  }

  /** A character below U+10000 is one code unit. */
  lemma JavaHashCodeAppendBmp(s: string, c: char)
    requires c as int < 0x1_0000
    ensures JavaHashCode(s + [c]) == ToInt32(31 * JavaHashCode(s) + c as int)
  {
    var u := Utf16(s);
    Utf16Snoc(s, c);
    assert Utf16(s + [c]) == u + [c as int];
    HashUnitsSnoc(u, c as int);
  }

  /** A character above U+FFFF is a surrogate pair, folded in one unit at a time. */
  lemma JavaHashCodeAppendPair(s: string, c: char)
    requires c as int >= 0x1_0000
    ensures JavaHashCode(s + [c]) == ToInt32(31 * ToInt32(31 * JavaHashCode(s) + Utf16Units(c)[0]) + Utf16Units(c)[1])
  {
    var u := Utf16(s);
    var units := Utf16Units(c);
    Utf16Snoc(s, c);
    assert Utf16(s + [c]) == u + [units[0], units[1]];
    HashUnitsSnoc2(u, units[0], units[1]);
  }

  /** Two more code units fold onto the hash one after the other. */
  lemma HashUnitsSnoc2(u: seq<int>, x: int, y: int)
    ensures HashUnits(u + [x, y]) == ToInt32(31 * ToInt32(31 * HashUnits(u) + x) + y)
  {
    HashUnitsSnoc(u, x);
    HashUnitsSnoc(u + [x], y);
    assert u + [x, y] == u + [x] + [y];
  }

  /** The encoding of a string with one more character ends in that character's units. */
  lemma Utf16Snoc(s: string, c: char)
    ensures Utf16(s + [c]) == Utf16(s) + Utf16Units(c)
  {
    assert (s + [c])[..|s|] == s;
  }

  /** One more code unit folds onto the hash of the units before it. */
  lemma HashUnitsSnoc(u: seq<int>, x: int)
    ensures HashUnits(u + [x]) == ToInt32(31 * HashUnits(u) + x)
  {
    assert (u + [x])[..|u|] == u;
  }

  /** `uri.hashCode().toString()`, the key of the resume-position object. */
  function HashKey(s: string): string
  {
    IntToString(JavaHashCode(s))
  }
}
