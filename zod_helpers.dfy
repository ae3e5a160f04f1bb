/**
 * The shared validation helpers: the pagination and sort schemas, the
 * positive-price and Russian phone-number checks, `safeParse`, and the
 * flattening of validation issues into a path-to-message record.
 *
 * A JavaScript number is an exact rational (`real`) here; integrality is
 * `x.Floor as real == x`.
 */
module ZodHelpers {
  import opened Wrappers
  import opened Seqs
  import opened Text

  predicate IsInteger(x: real) {
    x.Floor as real == x
  }

  // ---------------------------------------------------------------- pagination

  datatype Pagination = Pagination(page: int, limit: int)

  /** `z.number().int().positive()`: the value as an integer, if it is a positive whole number. */
  function PositiveInt(x: real): (r: Option<int>)
    ensures r.Some? <==> IsInteger(x) && x > 0.0
    ensures r.Some? ==> r.value >= 1 && r.value as real == x
  {
    if IsInteger(x) && x > 0.0 then Some(x.Floor) else None
  }

  /**
   * `paginationSchema`: `page` a positive integer, 1 when absent; `limit` a
   * positive integer at most 100, 12 when absent.
   */
  function ParsePagination(page: Option<real>, limit: Option<real>): (r: Option<Pagination>)
    ensures r.Some? <==> && (page.None? || (IsInteger(page.value) && page.value > 0.0))
                         && (limit.None? || (IsInteger(limit.value) && 0.0 < limit.value <= 100.0))
    ensures r.Some? ==> r.value.page >= 1 && 1 <= r.value.limit <= 100
    ensures r.Some? && page.None? ==> r.value.page == 1
    ensures r.Some? && limit.None? ==> r.value.limit == 12
    ensures r.Some? && page.Some? ==> r.value.page as real == page.value
    ensures r.Some? && limit.Some? ==> r.value.limit as real == limit.value
  {
    var p := if page.None? then Some(1) else PositiveInt(page.value);
    var l := if limit.None? then Some(12) else PositiveInt(limit.value);
    if p.Some? && l.Some? && l.value <= 100 then Some(Pagination(p.value, l.value)) else None
  }

  // ---------------------------------------------------------------- sort

  datatype Direction = Asc | Desc

  datatype Sort = Sort(field: string, direction: Direction)

  /** `z.enum(['asc', 'desc']).default('asc')` */
  function ParseDirection(direction: Option<string>): (r: Option<Direction>)
    ensures r.Some? <==> direction.None? || direction.value in {"asc", "desc"}
    ensures r == Some(Desc) <==> direction == Some("desc")
  {
    match direction
    case None => Some(Asc)
    case Some(d) => if d == "asc" then Some(Asc) else if d == "desc" then Some(Desc) else None
  }

  /**
   * `createSortSchema(fields)`: the field must be one of `fields`; the
   * direction is 'asc' or 'desc', 'asc' when absent.
   */
  function ParseSort(fields: seq<string>, field: string, direction: Option<string>): (r: Option<Sort>)
    ensures r.Some? <==> field in fields && ParseDirection(direction).Some?
    ensures r.Some? ==> r.value.field == field && r.value.field in fields
    ensures r.Some? && direction.None? ==> r.value.direction == Asc
  {
    var d := ParseDirection(direction);
    if field in fields && d.Some? then Some(Sort(field, d.value)) else None
  }

  // ---------------------------------------------------------------- price

  /** `priceSchema`: a strictly positive number. */
  function ParsePrice(x: real): (r: Option<real>)
    ensures r.Some? <==> x > 0.0
    ensures r.Some? ==> r.value == x
  {
    if x > 0.0 then Some(x) else None
  }

  // ---------------------------------------------------------------- phone

  predicate IsDigit(c: char) {
    '0' <= c <= '9'
  }

  predicate AllDigits(s: string) {
    forall i :: 0 <= i < |s| ==> IsDigit(s[i])
  }

  /** `[\s-]` */
  predicate IsSeparator(c: char) {
    IsWhitespace(c) || c == '-'
  }

  predicate IsPlus(c: char) { c == '+' }
  predicate IsTrunk(c: char) { c == '7' || c == '8' }
  predicate IsOpen(c: char) { c == '(' }
  predicate IsClose(c: char) { c == ')' }

  /**
   * A phone number split along `^\+?[78][\s-]?\(?\d{3}\)?[\s-]?\d{3}[\s-]?\d{2}[\s-]?\d{2}$`:
   * each optional piece of the pattern is a flag or an optional character.
   * `PhoneTail` holds what follows the three-digit area code.
   */
  datatype PhoneParts = PhoneParts(plus: bool, trunk: char, sep1: Option<char>, open: bool, area: string, tail: PhoneTail)

  datatype PhoneTail = PhoneTail(
    close: bool, sep2: Option<char>, first: string, sep3: Option<char>, second: string, sep4: Option<char>, third: string)

  predicate OptSeparator(c: Option<char>) {
    c.None? || IsSeparator(c.value)
  }

  /** The parts fit the pattern's character classes and group lengths. */
  predicate WellFormedPhone(p: PhoneParts) {
    && IsTrunk(p.trunk) && OptSeparator(p.sep1)
    && |p.area| == 3 && AllDigits(p.area)
    && WellFormedTail(p.tail)
  }

  predicate WellFormedTail(t: PhoneTail) {
    && OptSeparator(t.sep2) && OptSeparator(t.sep3) && OptSeparator(t.sep4)
    && |t.first| == 3 && AllDigits(t.first)
    && |t.second| == 2 && AllDigits(t.second)
    && |t.third| == 2 && AllDigits(t.third)
  }

  function Flag(b: bool, c: char): string {
    if b then [c] else []
  }

  function Opt(c: Option<char>): string {
    if c.Some? then [c.value] else []
  }

  /** The text the parts spell, piece after piece. */
  function PhoneText(p: PhoneParts): string {
    Flag(p.plus, '+') + ([p.trunk] + (Opt(p.sep1) + (Flag(p.open, '(') + (p.area + TailText(p.tail)))))
  }

  function TailText(t: PhoneTail): string {
    Flag(t.close, ')') + (Opt(t.sep2) + (t.first + (Opt(t.sep3) + (t.second + (Opt(t.sep4) + t.third)))))
  }

  /** Reads one optional character of a kind. */
  function OptionalChar(s: string, kind: char -> bool): (r: (Option<char>, string))
    ensures s == Opt(r.0) + r.1
    ensures r.0.Some? ==> kind(r.0.value)
  {
    if |s| > 0 && kind(s[0]) then (Some(s[0]), s[1..]) else (None, s)
  }

  /** Reads exactly `n` digits. */
  function Digits(s: string, n: nat): (r: Option<(string, string)>)
    ensures r.Some? ==> |r.value.0| == n && AllDigits(r.value.0) && s == r.value.0 + r.value.1
  {
    if |s| >= n && AllDigits(s[..n]) then Some((s[..n], s[n..])) else None
  }

  /**
   * The phone pattern as a left-to-right reader. Each optional piece is
   * taken when present; no piece's kind overlaps the kind of what may
   * follow it, so the reader never needs to backtrack.
   */
  function ParsePhone(s: string): (r: Option<PhoneParts>)
    ensures r.Some? ==> WellFormedPhone(r.value) && PhoneText(r.value) == s
  {
    var (plus, s1) := OptionalChar(s, IsPlus);
    var (trunk, s2) := OptionalChar(s1, IsTrunk);
    var (sep1, s3) := OptionalChar(s2, IsSeparator);
    var (open, s4) := OptionalChar(s3, IsOpen);
    var area := Digits(s4, 3);
    if trunk.None? || area.None? then None
    else
      var tail := ParseTail(area.value.1);
      if tail.None? then None
      else
        var p := PhoneParts(plus.Some?, trunk.value, sep1, open.Some?, area.value.0, tail.value);
        assert Flag(p.plus, '+') == Opt(plus);
        assert Flag(p.open, '(') == Opt(open);
        Some(p)
  }

  /** The reader for what follows the area code. */
  function ParseTail(s: string): (r: Option<PhoneTail>)
    ensures r.Some? ==> WellFormedTail(r.value) && TailText(r.value) == s
  {
    var (close, s1) := OptionalChar(s, IsClose);
    var (sep2, s2) := OptionalChar(s1, IsSeparator);
    var first := Digits(s2, 3);
    if first.None? then None
    else
      var (sep3, s4) := OptionalChar(first.value.1, IsSeparator);
      var second := Digits(s4, 2);
      if second.None? then None
      else
        var (sep4, s6) := OptionalChar(second.value.1, IsSeparator);
        if |s6| == 2 && AllDigits(s6) then
          var t := PhoneTail(close.Some?, sep2, first.value.0, sep3, second.value.0, sep4, s6);
          assert Flag(t.close, ')') == Opt(close);
          Some(t)
        else None
  }

  /** `phoneSchema`: the string matches the pattern. */
  predicate IsPhone(s: string) {
    ParsePhone(s).Some?
  }

  lemma OptionalCharOf(c: Option<char>, rest: string, kind: char -> bool)
    requires c.Some? ==> kind(c.value)
    requires c.None? && rest != [] ==> !kind(rest[0])
    ensures OptionalChar(Opt(c) + rest, kind) == (c, rest)
  {
    if c.Some? {
      assert (Opt(c) + rest)[1..] == rest;
    } else {
      assert Opt(c) + rest == rest;
    }
  }

  lemma FlagOf(b: bool, c: char, rest: string, kind: char -> bool)
    requires kind(c)
    requires !b && rest != [] ==> !kind(rest[0])
    ensures OptionalChar(Flag(b, c) + rest, kind) == (if b then Some(c) else None, rest)
  {
    OptionalCharOf(if b then Some(c) else None, rest, kind);
  }

  lemma DigitIsNoSeparator(c: char)
    requires IsDigit(c)
    ensures !IsSeparator(c) && !IsClose(c) && !IsOpen(c)
  {
  }

  lemma DigitsOf(d: string, rest: string)
    requires AllDigits(d)
    ensures Digits(d + rest, |d|) == Some((d, rest))
  {
    assert (d + rest)[..|d|] == d;
    assert (d + rest)[|d|..] == rest;
  }

  /**
   * Every string the pattern describes is read back into the same parts, so
   * the reader accepts exactly the pattern's language.
   */
  lemma ParsePhoneComplete(p: PhoneParts)
    requires WellFormedPhone(p)
    ensures ParsePhone(PhoneText(p)) == Some(p)
  {
    var r5 := TailText(p.tail);
    var r4 := p.area + r5;
    var r3 := Flag(p.open, '(') + r4;
    var r2 := Opt(p.sep1) + r3;
    var r1 := [p.trunk] + r2;
    assert r4[0] == p.area[0];
    FlagOf(p.plus, '+', r1, IsPlus);
    OptionalCharOf(Some(p.trunk), r2, IsTrunk);
    OptionalCharOf(p.sep1, r3, IsSeparator);
    FlagOf(p.open, '(', r4, IsOpen);
    DigitsOf(p.area, r5);
    ParseTailComplete(p.tail);
  }

  lemma ParseTailComplete(t: PhoneTail)
    requires WellFormedTail(t)
    ensures ParseTail(TailText(t)) == Some(t)
  {
    var r6 := t.third;
    var r5 := Opt(t.sep4) + r6;
    var r4 := t.second + r5;
    var r3 := Opt(t.sep3) + r4;
    var r2 := t.first + r3;
    var r1 := Opt(t.sep2) + r2;
    DigitIsNoSeparator(t.first[0]);
    DigitIsNoSeparator(t.second[0]);
    DigitIsNoSeparator(t.third[0]);
    assert r2[0] == t.first[0];
    assert r4[0] == t.second[0];
    assert r6[0] == t.third[0];
    FlagOf(t.close, ')', r1, IsClose);
    OptionalCharOf(t.sep2, r2, IsSeparator);
    DigitsOf(t.first, r3);
    OptionalCharOf(t.sep3, r4, IsSeparator);
    DigitsOf(t.second, r5);
    OptionalCharOf(t.sep4, r6, IsSeparator);
    var close := if t.close then Some(')') else None;
    assert OptionalChar(TailText(t), IsClose) == (close, r1);
    assert Digits(r2, 3) == Some((t.first, r3));
    assert Digits(r4, 2) == Some((t.second, r5));
  }

  /** The seed user's phone number "+7 (999) 123-45-67" passes the check. */
  lemma SeedPhoneAccepted()
    ensures IsPhone("+7 (999) 123-45-67")
  {
    var p := PhoneParts(true, '7', Some(' '), true, "999", PhoneTail(true, Some(' '), "123", Some('-'), "45", Some('-'), "67"));
    assert PhoneText(p) == "+7 (999) 123-45-67";
    ParsePhoneComplete(p);
  }

  // ---------------------------------------------------------------- safeParse

  /** One element of an issue's path: an object key or an array index. */
  datatype PathSegment = Key(name: string) | Index(position: nat)

  /** A validation issue: where it is and what it says. */
  datatype Issue = Issue(path: seq<PathSegment>, message: string)

  /** A schema's outcome: the parsed value or the issues found. */
  type Outcome<T> = Result<T, seq<Issue>>

  /** The result record of `safeParse`. */
  datatype SafeParseResult<T> = Parsed(data: T) | Rejected(errors: seq<Issue>)

  /** `safeParse(schema, data)`: success with the data exactly when the schema accepts. */
  function SafeParse<I, T>(schema: I -> Outcome<T>, input: I): (r: SafeParseResult<T>)
    ensures r.Parsed? <==> schema(input).Success?
    ensures r.Parsed? ==> r.data == schema(input).data
    ensures r.Rejected? ==> r.errors == schema(input).error
  {
    match schema(input)
    case Success(data) => Parsed(data)
    case Failure(errors) => Rejected(errors)
  }

  // ---------------------------------------------------------------- validation errors

  function SegmentText(segment: PathSegment): string {
    match segment
    case Key(name) => name
    case Index(position) => DecimalString(position)
  }

  /** `issue.path.join('.')` */
  function PathKey(path: seq<PathSegment>): string {
    if path == [] then "" else Join(seq(|path|, i requires 0 <= i < |path| => SegmentText(path[i])), '.')
  }

  /** The record the issue loop leaves behind after the given issues. */
  function ErrorsOf(issues: seq<Issue>): map<string, string> {
    if issues == [] then map[]
    else
      var last := issues[|issues| - 1];
      ErrorsOf(issues[..|issues| - 1])[PathKey(last.path) := last.message]
  }

  /**
   * `getValidationErrors`: one entry per issue path, joined with '.'; an
   * issue overwrites the entry of an earlier issue with the same path.
   */
  method GetValidationErrors(issues: seq<Issue>) returns (errors: map<string, string>)
    ensures errors == ErrorsOf(issues)
  {
    errors := map[];
    var i := 0;
    while i < |issues|
      invariant 0 <= i <= |issues|
      invariant errors == ErrorsOf(issues[..i])
    {
      assert issues[..i + 1][..i] == issues[..i];
      errors := errors[PathKey(issues[i].path) := issues[i].message];
      i := i + 1;
    }
    assert issues[..|issues|] == issues;
  }

  /** The record has a key exactly for each issue path. */
  lemma {:induction false} ErrorsOfKeys(issues: seq<Issue>, key: string)
    ensures key in ErrorsOf(issues) <==> exists j :: 0 <= j < |issues| && PathKey(issues[j].path) == key
  {
    if issues != [] {
      var n := |issues| - 1;
      var init := issues[..n];
      ErrorsOfKeys(init, key);
      assert forall j :: 0 <= j < n ==> init[j] == issues[j];
      if PathKey(issues[n].path) != key && key in ErrorsOf(issues) {
        assert key in ErrorsOf(init);
      }
    }
  }

  /** Each key holds the message of the last issue with that path. */
  lemma {:induction false} ErrorsOfLastWins(issues: seq<Issue>, key: string)
    ensures key in ErrorsOf(issues) ==>
              exists j :: && 0 <= j < |issues| && PathKey(issues[j].path) == key
                          && ErrorsOf(issues)[key] == issues[j].message
                          && forall k :: j < k < |issues| ==> PathKey(issues[k].path) != key
  {
    if issues != [] {
      var n := |issues| - 1;
      var init := issues[..n];
      ErrorsOfLastWins(init, key);
      if PathKey(issues[n].path) != key && key in ErrorsOf(issues) {
        assert key in ErrorsOf(init);
        var j :| && 0 <= j < |init| && PathKey(init[j].path) == key
                 && ErrorsOf(init)[key] == init[j].message
                 && forall k :: j < k < |init| ==> PathKey(init[k].path) != key;
        assert forall k :: j < k < n ==> issues[k] == init[k];
        assert forall k :: j < k < |issues| ==> PathKey(issues[k].path) != key;
      }
    }
  }
}
