/**
 * The string operations the pages use: `toLowerCase`, `includes`, `join`, number-to-string
 * conversion and the default string order of `Array.prototype.sort`.
 */
module Text {

  import opened Sorting

  /**
   * `toLowerCase` on one character, for these capitals: A-Z; Latin-1 U+00C0-U+00DE (but the
   * sign U+00D7); Greek U+0386, U+0388-U+038A, U+038C, U+038E-U+038F and U+0391-U+03AB (but
   * U+03A2); Cyrillic U+0400-U+042F, U+04C0 (the palochka, lowered to U+04CF), and the capital
   * of each capital-small pair in U+0460-U+0481, U+048A-U+04BF, U+04C1-U+04CE and
   * U+04D0-U+052F. Every other character is kept as it is.
   */
  function LowerChar(c: char): (r: char)
    ensures 'A' <= c <= 'Z' ==> r as int == c as int + 32
    ensures !IsCapital(c) ==> r == c
    ensures !IsCapital(r)
  {
    var n := c as int;
    if 'A' <= c <= 'Z' then (n + 32) as char
    else if 0xC0 <= n <= 0xDE && n != 0xD7 then (n + 32) as char
    else if n == 0x386 then (n + 38) as char
    else if 0x388 <= n <= 0x38A then (n + 37) as char
    else if n == 0x38C then (n + 64) as char
    else if 0x38E <= n <= 0x38F then (n + 63) as char
    else if 0x391 <= n <= 0x3AB && n != 0x3A2 then (n + 32) as char
    else if 0x400 <= n <= 0x40F then (n + 80) as char
    else if 0x410 <= n <= 0x42F then (n + 32) as char
    else if n == 0x4C0 then 0x4CF as char
    else if PairedCapital(n) then (n + 1) as char
    else c
  }

  /**
   * The capitals of the Cyrillic capital-small pairs past U+045F: the even code points of
   * U+0460-U+0481, U+048A-U+04BF and U+04D0-U+052F, and the odd ones of U+04C1-U+04CE.
   */
  predicate PairedCapital(n: int)
  {
    || ((0x460 <= n <= 0x481 || 0x48A <= n <= 0x4BF || 0x4D0 <= n <= 0x52F) && n % 2 == 0)
    || (0x4C1 <= n <= 0x4CE && n % 2 == 1)
  }

  /** The capital letters `LowerChar` maps to their small forms. */
  predicate IsCapital(c: char)
  {
    var n := c as int;
    || 'A' <= c <= 'Z'
    || (0xC0 <= n <= 0xDE && n != 0xD7)
    || n == 0x386 || 0x388 <= n <= 0x38A || n == 0x38C || 0x38E <= n <= 0x38F
    || (0x391 <= n <= 0x3AB && n != 0x3A2)
    || 0x400 <= n <= 0x42F
    || n == 0x4C0
    || PairedCapital(n)
  }

  function ToLower(s: string): (r: string)
    ensures |r| == |s|
  {
    seq(|s|, i requires 0 <= i < |s| => LowerChar(s[i]))
  }

  predicate IsPrefix(p: string, s: string)
  {
    |p| <= |s| && s[..|p|] == p
  }

  /** `s.includes(t)`: `t` occurs in `s` at some position. */
  predicate Includes(s: string, t: string)
  {
    IsPrefix(t, s) || (s != [] && Includes(s[1..], t))
  }

  /** Every string includes the empty string. */
  lemma IncludesEmpty(s: string)
    ensures Includes(s, "")
  {
  }

  /** `t` occurs in `s` starting at index `i`. */
  predicate OccursAt(s: string, t: string, i: int)
  {
    0 <= i <= |s| - |t| && s[i..i + |t|] == t
  }

  /** `Includes` holds exactly when `t` occurs in `s` at some index. */
  lemma {:induction false} IncludesAt(s: string, t: string)
    ensures Includes(s, t) <==> exists i :: OccursAt(s, t, i)
  {
    if s == [] {
      if Includes(s, t) {
        assert OccursAt(s, t, 0);
      }
    } else {
      IncludesAt(s[1..], t);
      if Includes(s, t) {
        if IsPrefix(t, s) {
          assert OccursAt(s, t, 0);
        } else {
          var i :| OccursAt(s[1..], t, i);
          assert s[i + 1..i + 1 + |t|] == s[1..][i..i + |t|];
          assert OccursAt(s, t, i + 1);
        }
      }
      if exists i :: OccursAt(s, t, i) {
        var i :| OccursAt(s, t, i);
        if i > 0 {
          assert s[1..][i - 1..i - 1 + |t|] == s[i..i + |t|];
          assert OccursAt(s[1..], t, i - 1);
        } else {
          assert IsPrefix(t, s);
        }
      }
    }
  }

  /** `ToLower` changes nothing a second time. */
  lemma ToLowerIdempotent(s: string)
    ensures ToLower(ToLower(s)) == ToLower(s)
  {
    assert forall i :: 0 <= i < |s| ==> LowerChar(LowerChar(s[i])) == LowerChar(s[i]);
  }

  /** The search test of the list pages: `field.toLowerCase().includes(term.toLowerCase())`. */
  predicate MatchesTerm(field: string, term: string)
  {
    Includes(ToLower(field), ToLower(term))
  }

  /** Accented capitals fold too: "é" finds "École" and "JOSÉ" finds "José". */
  lemma AccentedSearchMatches()
    ensures MatchesTerm("\U{00C9}cole", "\U{00E9}")
    ensures MatchesTerm("Jos\U{00E9}", "JOS\U{00C9}")
  {
    assert ToLower("\U{00C9}cole") == "\U{00E9}cole";
    assert ToLower("Jos\U{00E9}") == "jos\U{00E9}" == ToLower("JOS\U{00C9}");
    assert IsPrefix("jos\U{00E9}", "jos\U{00E9}");
  }

  /** Greek and Cyrillic capitals fold too: "ά" finds "Άγιος" and "ґ" finds "Ґанок". */
  lemma GreekAndCyrillicSearchMatches()
    ensures MatchesTerm("\U{0386}\U{03B3}\U{03B9}\U{03BF}\U{03C2}", "\U{03AC}")
    ensures MatchesTerm("\U{0490}\U{0430}\U{043D}\U{043E}\U{043A}", "\U{0491}")
  {
    assert ToLower("\U{03AC}") == "\U{03AC}";
    assert ToLower("\U{0386}\U{03B3}\U{03B9}\U{03BF}\U{03C2}") == "\U{03AC}\U{03B3}\U{03B9}\U{03BF}\U{03C2}";
    assert IsPrefix("\U{03AC}", "\U{03AC}\U{03B3}\U{03B9}\U{03BF}\U{03C2}");
    assert ToLower("\U{0491}") == "\U{0491}";
    assert ToLower("\U{0490}\U{0430}\U{043D}\U{043E}\U{043A}") == "\U{0491}\U{0430}\U{043D}\U{043E}\U{043A}";
    assert IsPrefix("\U{0491}", "\U{0491}\U{0430}\U{043D}\U{043E}\U{043A}");
  }

  /** The search ignores case on both sides, and the empty term matches every field. */
  lemma MatchesTermIgnoresCase(field: string, term: string)
    ensures MatchesTerm(ToLower(field), term) == MatchesTerm(field, term)
    ensures MatchesTerm(field, ToLower(term)) == MatchesTerm(field, term)
    ensures MatchesTerm(field, "")
  {
    ToLowerIdempotent(field);
    ToLowerIdempotent(term);
    IncludesEmpty(ToLower(field));
  }

  /** `parts.join(sep)`. */
  function Join(parts: seq<string>, sep: string): string
  {
    if parts == [] then ""
    else if |parts| == 1 then parts[0]
    else parts[0] + sep + Join(parts[1..], sep)
  }

  function DigitChar(d: nat): char
    requires d < 10
  {
    ('0' as int + d) as char
  }

  function NatToString(n: nat): (r: string)
    ensures |r| >= 1
    ensures forall i :: 0 <= i < |r| ==> '0' <= r[i] <= '9'
  {
    if n < 10 then [DigitChar(n)] else NatToString(n / 10) + [DigitChar(n % 10)]
  }

  /** `String(n)` for an integer. */
  function IntToString(n: int): (r: string)
    ensures forall i :: 0 <= i < |r| ==> r[i] == '-' || '0' <= r[i] <= '9'
  {
    if n < 0 then "-" + NatToString(-n) else NatToString(n)
  }

  /**
   * The place of a character in UTF-16 code-unit order. A character above U+FFFF is written as
   * a surrogate pair whose first unit lies in U+D800..U+DBFF, so it sorts after the characters
   * below U+D800 and before those from U+E000 to U+FFFF; among themselves such characters keep
   * code-point order.
   */
  function CodeUnitRank(c: char): (k: int)
    ensures c as int < 0xD800 ==> k == c as int
    ensures 0xE000 <= c as int < 0x10000 ==> k > 0x10FFFF
  {
    if c as int < 0xD800 || 0x10000 <= c as int then c as int else c as int + 0x110000
  }

  /** A character above U+FFFF sorts before a full-width one, as its first code unit is lower. */
  lemma AstralBeforeFullWidth()
    ensures LexLe("\U{1F600}", "\U{FF01}") && !LexLe("\U{FF01}", "\U{1F600}")
  {
  }

  /**
   * JavaScript's default string order (the default `sort()` and string `<`): lexicographic on
   * UTF-16 code units, a proper prefix first.
   */
  predicate LexLe(a: string, b: string)
  {
    if a == [] then true
    else if b == [] then false
    else if a[0] != b[0] then CodeUnitRank(a[0]) < CodeUnitRank(b[0])
    else LexLe(a[1..], b[1..])
  }

  lemma {:induction false} LexLeTotal(a: string, b: string)
    ensures LexLe(a, b) || LexLe(b, a)
  {
    if a != [] && b != [] && a[0] == b[0] {
      LexLeTotal(a[1..], b[1..]);
    }
  }

  lemma {:induction false} LexLeTransitive(a: string, b: string, c: string)
    requires LexLe(a, b) && LexLe(b, c)
    ensures LexLe(a, c)
  {
    if a != [] && b != [] && c != [] && a[0] == b[0] && b[0] == c[0] {
      LexLeTransitive(a[1..], b[1..], c[1..]);
    }
  }

  lemma {:induction false} LexLeAntisymmetric(a: string, b: string)
    requires LexLe(a, b) && LexLe(b, a)
    ensures a == b
  {
    if a != [] && b != [] {
      LexLeAntisymmetric(a[1..], b[1..]);
      assert a == [a[0]] + a[1..] && b == [b[0]] + b[1..];
    }
  }

  /** The default string order is a consistent comparator on any list of strings. */
  lemma LexLeTotalPreorder(s: seq<string>)
    ensures TotalPreorderOn(s, LexLe)
  {
    forall a, b {
      LexLeTotal(a, b);
    }
    forall a, b, c | LexLe(a, b) && LexLe(b, c) {
      LexLeTransitive(a, b, c);
    }
  }
}
