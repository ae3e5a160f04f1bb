/**
 * The string operations the storefront relies on: whitespace and `trim`,
 * case folding, substring search (`includes`), `split`/`join` on one
 * character, `String(n)` for a natural number, `slice(-n)`, the default
 * string order of `sort()` (code points here; JavaScript compares UTF-16
 * code units), and the clock-stamped numbers built from the last six
 * digits of a reading.
 */
module Text {
  import opened Seqs

  /** ECMAScript WhiteSpace and LineTerminator: what `\s` and `trim` recognise. */
  predicate IsWhitespace(c: char) {
    || c == '\t' || c == '\n' || c == '\U{000B}' || c == '\U{000C}' || c == '\r'
    || c == ' ' || c == '\U{00A0}' || c == '\U{1680}'
    || ('\U{2000}' <= c <= '\U{200A}')
    || c == '\U{2028}' || c == '\U{2029}' || c == '\U{202F}' || c == '\U{205F}'
    || c == '\U{3000}' || c == '\U{FEFF}'
  }

  // ---------------------------------------------------------------- case folding

  /** Lower case for Basic Latin and Cyrillic letters; other characters are kept. */
  function LowerChar(c: char): char {
    if 'A' <= c <= 'Z' then (c as int + 32) as char
    else if '\U{0410}' <= c <= '\U{042F}' then (c as int + 32) as char
    else if '\U{0400}' <= c <= '\U{040F}' then (c as int + 80) as char
    else c
  }

  /** Upper case for Basic Latin and Cyrillic letters; other characters are kept. */
  function UpperChar(c: char): char {
    if 'a' <= c <= 'z' then (c as int - 32) as char
    else if '\U{0430}' <= c <= '\U{044F}' then (c as int - 32) as char
    else if '\U{0450}' <= c <= '\U{045F}' then (c as int - 80) as char
    else c
  }

  function ToLower(s: string): (r: string)
    ensures |r| == |s|
  {
    seq(|s|, i requires 0 <= i < |s| => LowerChar(s[i]))
  }

  function ToUpper(s: string): (r: string)
    ensures |r| == |s|
  {
    seq(|s|, i requires 0 <= i < |s| => UpperChar(s[i]))
  }

  /** Upper-casing twice is upper-casing once. */
  lemma ToUpperIdempotent(s: string)
    ensures ToUpper(ToUpper(s)) == ToUpper(s)
  {
    forall i | 0 <= i < |s| ensures UpperChar(UpperChar(s[i])) == UpperChar(s[i]) {
      var c := s[i];
      if 'a' <= c <= 'z' {
        assert 'A' <= UpperChar(c) <= 'Z';
      } else if '\U{0430}' <= c <= '\U{044F}' {
        assert '\U{0410}' <= UpperChar(c) <= '\U{042F}';
      } else if '\U{0450}' <= c <= '\U{045F}' {
        assert '\U{0400}' <= UpperChar(c) <= '\U{040F}';
      }
    }
  }

  /** Upper-casing forgets whether a letter was lower-cased first. */
  lemma UpperOfLower(s: string)
    ensures ToUpper(ToLower(s)) == ToUpper(s)
  {
    forall i | 0 <= i < |s| ensures UpperChar(LowerChar(s[i])) == UpperChar(s[i]) {
      var c := s[i];
      if 'A' <= c <= 'Z' {
        assert 'a' <= LowerChar(c) <= 'z';
      } else if '\U{0410}' <= c <= '\U{042F}' {
        assert '\U{0430}' <= LowerChar(c) <= '\U{044F}';
      } else if '\U{0400}' <= c <= '\U{040F}' {
        assert '\U{0450}' <= LowerChar(c) <= '\U{045F}';
      }
    }
  }

  /** Lower-casing forgets whether a letter was upper-cased first. */
  lemma LowerOfUpper(s: string)
    ensures ToLower(ToUpper(s)) == ToLower(s)
  {
    forall i | 0 <= i < |s| ensures LowerChar(UpperChar(s[i])) == LowerChar(s[i]) {
      var c := s[i];
      if 'a' <= c <= 'z' {
        assert 'A' <= UpperChar(c) <= 'Z';
      } else if '\U{0430}' <= c <= '\U{044F}' {
        assert '\U{0410}' <= UpperChar(c) <= '\U{042F}';
      } else if '\U{0450}' <= c <= '\U{045F}' {
        assert '\U{0400}' <= UpperChar(c) <= '\U{040F}';
      }
    }
  }

  /** Lower-casing twice is lower-casing once. */
  lemma ToLowerIdempotent(s: string)
    ensures ToLower(ToLower(s)) == ToLower(s)
  {
    forall i | 0 <= i < |s| ensures LowerChar(LowerChar(s[i])) == LowerChar(s[i]) {
      var c := s[i];
      if 'A' <= c <= 'Z' {
        assert 'a' <= LowerChar(c) <= 'z';
      } else if '\U{0410}' <= c <= '\U{042F}' {
        assert '\U{0430}' <= LowerChar(c) <= '\U{044F}';
      } else if '\U{0400}' <= c <= '\U{040F}' {
        assert '\U{0450}' <= LowerChar(c) <= '\U{045F}';
      }
    }
  }

  // ---------------------------------------------------------------- includes

  /** `t` occurs in `s` starting at index `i`. */
  predicate OccursAt(s: string, t: string, i: int) {
    0 <= i <= |s| - |t| && s[i..i + |t|] == t
  }

  /** `s.includes(t)`: `t` occurs in `s` at some position. */
  function Contains(s: string, t: string): (r: bool)
    ensures r <==> exists i :: OccursAt(s, t, i)
    decreases |s|
  {
    if |t| > |s| then false
    else if s[..|t|] == t then assert OccursAt(s, t, 0); true
    else
      var rest := Contains(s[1..], t);
      assert rest ==> exists i :: OccursAt(s, t, i) by {
        if rest {
          var i :| OccursAt(s[1..], t, i);
          assert s[1..][i..i + |t|] == s[i + 1..i + 1 + |t|];
          assert OccursAt(s, t, i + 1);
        }
      }
      assert (exists i :: OccursAt(s, t, i)) ==> rest by {
        if exists i :: OccursAt(s, t, i) {
          var i :| OccursAt(s, t, i);
          assert i != 0;
          assert s[1..][i - 1..i - 1 + |t|] == s[i..i + |t|];
          assert OccursAt(s[1..], t, i - 1);
        }
      }
      rest
  }

  // ---------------------------------------------------------------- numbers

  function DigitChar(d: nat): (c: char)
    requires d < 10
    ensures '0' <= c <= '9'
  {
    ('0' as int + d) as char
  }

  /** `String(n)` for a natural number: its decimal digits without leading zeros. */
  function DecimalString(n: nat): (r: string)
    ensures 1 <= |r|
    ensures forall i :: 0 <= i < |r| ==> '0' <= r[i] <= '9'
    ensures |r| > 1 ==> r[0] != '0'
  {
    if n < 10 then [DigitChar(n)]
    else DecimalString(n / 10) + [DigitChar(n % 10)]
  }

  /** The value of a string of decimal digits. */
  function DecimalValue(s: string): nat
    requires forall i :: 0 <= i < |s| ==> '0' <= s[i] <= '9'
  {
    if s == [] then 0
    else 10 * DecimalValue(s[..|s| - 1]) + (s[|s| - 1] as int - '0' as int)
  }

  /** `String(n)` loses nothing: reading its digits back gives `n`. */
  lemma {:induction false} DecimalRoundTrip(n: nat)
    ensures DecimalValue(DecimalString(n)) == n
  {
    if n >= 10 {
      DecimalRoundTrip(n / 10);
      var s := DecimalString(n);
      assert s[..|s| - 1] == DecimalString(n / 10);
    }
  }

  // ---------------------------------------------------------------- digits of a number

  function Pow10(k: nat): (r: nat)
    ensures r >= 1
  {
    if k == 0 then 1 else 10 * Pow10(k - 1)
  }

  /** A decimal string is longer than `k` digits exactly when the number reaches `10^k`. */
  lemma {:induction false} DecimalLength(n: nat, k: nat)
    requires k >= 1
    ensures |DecimalString(n)| > k <==> n >= Pow10(k)
  {
    if n >= 10 && k > 1 {
      DecimalLength(n / 10, k - 1);
    }
  }

  lemma ModUnique(x: int, q: int, m: int, r: int)
    requires m >= 1 && 0 <= r < m && x == q * m + r
    ensures x % m == r
  {
    var q' := x / m;
    assert (q - q') * m == x % m - r;
    if q - q' >= 1 {
      MulMonotone(1, q - q', m);
    } else if q - q' <= -1 {
      MulMonotone(q - q', -1, m);
    }
  }

  lemma ModShift(a: nat, d: nat, m: nat)
    requires d < 10 && m >= 1
    ensures (10 * a + d) % (10 * m) == 10 * (a % m) + d
  {
    var q := a / m;
    assert 10 * a + d == q * (10 * m) + (10 * (a % m) + d);
    ModUnique(10 * a + d, q, 10 * m, 10 * (a % m) + d);
  }

  /** The last `k` digits of a decimal string spell the number modulo `10^k`. */
  lemma {:induction false} SuffixValue(s: string, k: nat)
    requires forall i :: 0 <= i < |s| ==> '0' <= s[i] <= '9'
    requires k <= |s|
    ensures DecimalValue(s[|s| - k..]) == DecimalValue(s) % Pow10(k)
  {
    if k > 0 {
      var init := s[..|s| - 1];
      var t := s[|s| - k..];
      assert t[..|t| - 1] == init[|init| - (k - 1)..];
      SuffixValue(init, k - 1);
      ModShift(DecimalValue(init), s[|s| - 1] as int - '0' as int, Pow10(k - 1));
    }
  }

  lemma Pow10Six()
    ensures Pow10(5) == 100000 && Pow10(6) == 1000000
  {
    assert Pow10(2) == 100;
    assert Pow10(4) == 10000;
  }

  /** The last six digits of a clock reading spell it modulo a million. */
  lemma LastSixDigits(now: nat)
    ensures var tail := TakeLast(DecimalString(now), 6);
            && |tail| <= 6
            && (now >= 100000 ==> |tail| == 6)
            && (forall i :: 0 <= i < |tail| ==> '0' <= tail[i] <= '9')
            && DecimalValue(tail) == now % 1000000
  {
    DigitsOnly(DecimalString(now));
    DecimalLength(now, 5);
    Pow10Six();
    if |DecimalString(now)| <= 6 {
      ShortReading(now);
    } else {
      LongReading(now);
    }
  }

  /** A reading of at most six digits is kept whole, and is below a million. */
  lemma ShortReading(now: nat)
    requires |DecimalString(now)| <= 6
    ensures DecimalValue(TakeLast(DecimalString(now), 6)) == now % 1000000
  {
    var digits := DecimalString(now);
    assert TakeLast(digits, 6) == digits;
    DecimalRoundTrip(now);
    DecimalLength(now, 6);
    Pow10Six();
    ModUnique(now, 0, 1000000, now);
  }

  /** A longer reading keeps its last six digits, which spell it modulo a million. */
  lemma LongReading(now: nat)
    requires |DecimalString(now)| > 6
    ensures DecimalValue(TakeLast(DecimalString(now), 6)) == now % 1000000
  {
    var digits := DecimalString(now);
    DecimalRoundTrip(now);
    SuffixValue(digits, 6);
    Pow10Six();
  }

  /** Every character of a suffix of a digit string is a digit. */
  lemma DigitsOnly(digits: string)
    requires forall i :: 0 <= i < |digits| ==> '0' <= digits[i] <= '9'
    ensures var tail := TakeLast(digits, 6);
            forall i :: 0 <= i < |tail| ==> '0' <= tail[i] <= '9'
  {
    var tail := TakeLast(digits, 6);
    forall i | 0 <= i < |tail| ensures '0' <= tail[i] <= '9' {
      assert tail[i] == digits[|digits| - |tail| + i];
    }
  }

  // ---------------------------------------------------------------- slice(-n)

  /**
   * `s.slice(-n)`: the last `n` characters, or all of `s` when it is shorter;
   * `slice(-0)` is `slice(0)`, the whole string.
   */
  function TakeLast(s: string, n: nat): (r: string)
    ensures |r| == if |s| <= n || n == 0 then |s| else n
    ensures r == s[|s| - |r|..]
  {
    var r := JsSlice(s, -(n as int), |s|);
    assert r == s[ClampIndex(-(n as int), |s|)..];
    r
  }

  /**
   * `prefix + String(now).slice(-6)`: the prefix and the last six digits
   * of a clock reading. The digits spell the reading modulo a million, any
   * reading of at least 100000 gives exactly six of them, and a reading
   * below a million is kept whole, without leading zeros.
   */
  function ClockStamp(prefix: string, now: nat): (r: string)
    ensures |prefix| <= |r| <= |prefix| + 6 && r[..|prefix|] == prefix
    ensures now >= 100000 ==> |r| == |prefix| + 6
    ensures forall i :: |prefix| <= i < |r| ==> '0' <= r[i] <= '9'
    ensures DecimalValue(r[|prefix|..]) == now % 1000000
    ensures now < 1000000 ==> r[|prefix|..] == DecimalString(now)
  {
    var tail := SixDigits(now);
    var r := prefix + tail;
    assert r[|prefix|..] == tail;
    r
  }

  /** `String(now).slice(-6)`. */
  function SixDigits(now: nat): (tail: string)
    ensures |tail| <= 6
    ensures now >= 100000 ==> |tail| == 6
    ensures forall i :: 0 <= i < |tail| ==> '0' <= tail[i] <= '9'
    ensures DecimalValue(tail) == now % 1000000
    ensures now < 1000000 ==> tail == DecimalString(now)
  {
    LastSixDigits(now);
    WholeReading(now);
    TakeLast(DecimalString(now), 6)
  }

  /** A reading below a million has at most six digits, so `slice(-6)` keeps all of them. */
  lemma WholeReading(now: nat)
    ensures now < 1000000 ==> TakeLast(DecimalString(now), 6) == DecimalString(now)
  {
    DecimalLength(now, 6);
    Pow10Six();
  }

  // ---------------------------------------------------------------- split / join / trim

  /** `s.split(sep)` for a one-character separator. */
  function Split(s: string, sep: char): (r: seq<string>)
    ensures |r| >= 1
    ensures forall i :: 0 <= i < |r| ==> sep !in r[i]
  {
    if s == [] then [""]
    else
      var rest := Split(s[1..], sep);
      if s[0] == sep then [""] + rest
      else [[s[0]] + rest[0]] + rest[1..]
  }

  /** `xs.join(sep)`. */
  function Join(xs: seq<string>, sep: char): string
    requires |xs| >= 1
  {
    if |xs| == 1 then xs[0] else xs[0] + [sep] + Join(xs[1..], sep)
  }

  lemma {:induction false} SplitPrefix(x: string, sep: char, s: string)
    requires sep !in x
    ensures Split(x + [sep] + s, sep) == [x] + Split(s, sep)
  {
    if x == [] {
      assert x + [sep] + s == [sep] + s;
      assert ([sep] + s)[1..] == s;
    } else {
      SplitPrefix(x[1..], sep, s);
      assert (x + [sep] + s)[1..] == x[1..] + [sep] + s;
      assert [x[0]] + x[1..] == x;
    }
  }

  lemma {:induction false} SplitNoSep(x: string, sep: char)
    requires sep !in x
    ensures Split(x, sep) == [x]
  {
    if x != [] {
      SplitNoSep(x[1..], sep);
      assert [x[0]] + x[1..] == x;
    }
  }

  /** Splitting a join of separator-free pieces gives the pieces back. */
  lemma {:induction false} SplitJoin(xs: seq<string>, sep: char)
    requires |xs| >= 1
    requires forall i :: 0 <= i < |xs| ==> sep !in xs[i]
    ensures Split(Join(xs, sep), sep) == xs
  {
    if |xs| == 1 {
      SplitNoSep(xs[0], sep);
    } else {
      SplitJoin(xs[1..], sep);
      SplitPrefix(xs[0], sep, Join(xs[1..], sep));
      assert [xs[0]] + xs[1..] == xs;
    }
  }

  /** Joining the pieces of a split gives the string back. */
  lemma {:induction false} JoinSplit(s: string, sep: char)
    ensures Join(Split(s, sep), sep) == s
  {
    if s != [] {
      JoinSplit(s[1..], sep);
      var rest := Split(s[1..], sep);
      if s[0] == sep {
        assert ([""] + rest)[1..] == rest;
        assert s == [sep] + s[1..];
      } else {
        var r := [[s[0]] + rest[0]] + rest[1..];
        if |rest| == 1 {
          assert s == [s[0]] + s[1..];
        } else {
          assert r[1..] == rest[1..];
          assert Join(rest, sep) == rest[0] + [sep] + Join(rest[1..], sep);
          assert s == [s[0]] + s[1..];
        }
      }
    }
  }

  function TrimStart(s: string): (r: string)
    ensures r == [] || !IsWhitespace(r[0])
    ensures |r| <= |s| && r == s[|s| - |r|..]
    ensures forall i :: 0 <= i < |s| - |r| ==> IsWhitespace(s[i])
  {
    if s != [] && IsWhitespace(s[0]) then TrimStart(s[1..]) else s
  }

  function TrimEnd(s: string): (r: string)
    ensures r == [] || !IsWhitespace(r[|r| - 1])
    ensures |r| <= |s| && r == s[..|r|]
    ensures forall i :: |r| <= i < |s| ==> IsWhitespace(s[i])
  {
    if s != [] && IsWhitespace(s[|s| - 1]) then TrimEnd(s[..|s| - 1]) else s
  }

  /** `s.trim()`: the string without leading and trailing whitespace. */
  function Trim(s: string): (r: string)
    ensures r == [] || (!IsWhitespace(r[0]) && !IsWhitespace(r[|r| - 1]))
    ensures var i := |TrimEnd(s)| - |r|;
            && 0 <= i && i + |r| <= |s| && r == s[i..i + |r|]
            && (forall j :: 0 <= j < i ==> IsWhitespace(s[j]))
            && (forall j :: i + |r| <= j < |s| ==> IsWhitespace(s[j]))
  {
    var e := TrimEnd(s);
    var r := TrimStart(e);
    assert r == s[|e| - |r|..|e|];
    r
  }

  // ---------------------------------------------------------------- default sort order

  /**
   * The order of `Array.prototype.sort()` without a comparator on strings:
   * lexicographic by character, a proper prefix first.
   */
  predicate StrLt(a: string, b: string) {
    if a == [] then b != []
    else if b == [] then false
    else if a[0] != b[0] then a[0] < b[0]
    else StrLt(a[1..], b[1..])
  }

  predicate StrLe(a: string, b: string) {
    a == b || StrLt(a, b)
  }

  lemma {:induction false} StrLtIrreflexive(a: string)
    ensures !StrLt(a, a)
  {
    if a != [] {
      StrLtIrreflexive(a[1..]);
    }
  }

  lemma {:induction false} StrLtTransitive(a: string, b: string, c: string)
    requires StrLt(a, b) && StrLt(b, c)
    ensures StrLt(a, c)
  {
    if a != [] && b != [] && c != [] && a[0] == b[0] && b[0] == c[0] {
      StrLtTransitive(a[1..], b[1..], c[1..]);
    }
  }

  lemma {:induction false} StrLtTotal(a: string, b: string)
    requires a != b
    ensures StrLt(a, b) || StrLt(b, a)
  {
    if a != [] && b != [] && a[0] == b[0] {
      assert a == [a[0]] + a[1..];
      assert b == [b[0]] + b[1..];
      StrLtTotal(a[1..], b[1..]);
    }
  }

  lemma {:induction false} StrLtAsymmetric(a: string, b: string)
    requires StrLt(a, b)
    ensures !StrLt(b, a)
  {
    if a != [] && b != [] && a[0] == b[0] {
      StrLtAsymmetric(a[1..], b[1..]);
    }
  }

  /** The default string order is a total order. */
  lemma StrLePreorder()
    ensures TotalPreorderOfStrLe()
  {
    forall a: string, b: string ensures StrLe(a, b) || StrLe(b, a) {
      if a != b { StrLtTotal(a, b); }
    }
    forall a: string, b: string, c: string | StrLe(a, b) && StrLe(b, c) ensures StrLe(a, c) {
      if a != b && b != c { StrLtTransitive(a, b, c); }
    }
  }

  ghost predicate TotalPreorderOfStrLe() {
    && (forall a: string, b: string :: StrLe(a, b) || StrLe(b, a))
    && (forall a: string, b: string, c: string :: StrLe(a, b) && StrLe(b, c) ==> StrLe(a, c))
  }
}
