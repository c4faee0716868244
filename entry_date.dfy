/** `parseEntryDate`: the scan of a watchlist entry's free text for the
    regular expression `/ENTRY DATE:\s*(\d{1,2})\s+(\w+)\s+(\d{4})/i`, the
    lookup of the month word in a table of English month names, and the
    arguments handed to the `Date` constructor.

    The scanner `MatchAt` follows the regular expression's greedy matching.
    Backtracking never changes the outcome: each quantified class is followed
    by a class it shares no character with (`\s` then `\d`, `\d` then `\s`,
    `\s` then `\w`, `\w` then `\s`, `\s` then `\d`), so a shorter run would
    leave a character the next item cannot take. `PatternAt` is the
    declarative reading of the same expression, and the two are proved to
    agree in both directions. */
module EntryDate {
  import opened Wrappers
  import opened Text

  /** JavaScript's `\s`: white space and line terminators. */
  predicate IsSpace(c: char)
  {
    var n := c as int;
    (9 <= n <= 13) || n == 32 || n == 0xA0 || n == 0x1680 || (0x2000 <= n <= 0x200A) ||
    n == 0x2028 || n == 0x2029 || n == 0x202F || n == 0x205F || n == 0x3000 || n == 0xFEFF
  }

  /** JavaScript's `\w` (no Unicode flag): ASCII letters, digits and `_`. */
  predicate IsWordChar(c: char)
  {
    IsAsciiLower(c) || IsAsciiUpper(c) || IsDigit(c) || c == '_'
  }

  /** The literal part of the pattern, matched without regard to ASCII case. */
  const Header: string := "ENTRY DATE:"

  /** The character classes the pattern uses: `\s`, `\d` and `\w`. */
  datatype CharClass = Space | Digit | Word

  predicate InClass(cls: CharClass, c: char)
  {
    match cls
    case Space => IsSpace(c)
    case Digit => IsDigit(c)
    case Word => IsWordChar(c)
  }

  /** Every character of `s[i..j]` is in class `cls`. */
  predicate AllIn(cls: CharClass, s: string, i: nat, j: nat)
    requires i <= j <= |s|
  {
    forall k {:trigger InClass(cls, s[k])} :: i <= k < j ==> InClass(cls, s[k])
  }

  /** The end of the longest run of class `cls` starting at `i`: what a
      greedy quantifier consumes. */
  function SkipWhile(cls: CharClass, s: string, i: nat): (j: nat)
    requires i <= |s|
    ensures i <= j <= |s|
    decreases |s| - i
  {
    if i < |s| && InClass(cls, s[i]) then SkipWhile(cls, s, i + 1) else i
  }

  /** The greedy scan stops at the end of a run of class `cls`. */
  lemma {:induction false} SkipWhileRun(cls: CharClass, s: string, i: nat)
    requires i <= |s|
    ensures AllIn(cls, s, i, SkipWhile(cls, s, i))
    ensures SkipWhile(cls, s, i) < |s| ==> !InClass(cls, s[SkipWhile(cls, s, i)])
    decreases |s| - i
  {
    if i < |s| && InClass(cls, s[i]) {
      SkipWhileRun(cls, s, i + 1);
    }
  }

  /** A run of class `cls` that cannot be extended is exactly what the greedy
      scan finds. */
  lemma SkipWhileStops(cls: CharClass, s: string, i: nat, j: nat)
    requires i <= j <= |s| && AllIn(cls, s, i, j)
    requires j < |s| ==> !InClass(cls, s[j])
    ensures SkipWhile(cls, s, i) == j
  {
    SkipWhileRun(cls, s, i);
  }

  /** "ENTRY DATE:" (in any ASCII case) starts at position `p`. */
  predicate HeaderAt(s: string, p: nat)
  {
    p + |Header| <= |s| && Upper(s[p..p + |Header|]) == Header
  }

  /** Where a match starts and where its three capture groups lie: the day
      is `s[dayStart..dayEnd]`, the month word `s[monthStart..monthEnd]`, the
      year the four characters from `yearStart`. */
  datatype Groups = Groups(start: nat, dayStart: nat, dayEnd: nat, monthStart: nat, monthEnd: nat, yearStart: nat)

  /** The regular expression matches at `g.start` with its groups at `g`:
      header, optional spaces, one or two digits, spaces, a word, spaces,
      four digits. */
  predicate PatternAt(s: string, g: Groups)
  {
    g.start + |Header| <= g.dayStart <= g.dayEnd <= g.monthStart <= g.monthEnd <= g.yearStart &&
    g.yearStart + 4 <= |s| &&
    HeaderAt(s, g.start) &&
    AllIn(Space, s, g.start + |Header|, g.dayStart) &&
    1 <= g.dayEnd - g.dayStart <= 2 && AllIn(Digit, s, g.dayStart, g.dayEnd) &&
    g.dayEnd < g.monthStart && AllIn(Space, s, g.dayEnd, g.monthStart) &&
    g.monthStart < g.monthEnd && AllIn(Word, s, g.monthStart, g.monthEnd) &&
    g.monthEnd < g.yearStart && AllIn(Space, s, g.monthEnd, g.yearStart) &&
    AllIn(Digit, s, g.yearStart, g.yearStart + 4)
  }

  /** The greedy scan from position `p`: where each run of the pattern ends
      when its quantifier takes as many characters as it can. */
  function Scan(s: string, p: nat): (g: Groups)
    ensures g.start == p
  {
    var afterHeader := if p + |Header| <= |s| then p + |Header| else |s|;
    var dayStart := SkipWhile(Space, s, afterHeader);
    var dayEnd := SkipWhile(Digit, s, dayStart);
    var monthStart := SkipWhile(Space, s, dayEnd);
    var monthEnd := SkipWhile(Word, s, monthStart);
    var yearStart := SkipWhile(Space, s, monthEnd);
    Groups(p, dayStart, dayEnd, monthStart, monthEnd, yearStart)
  }

  /** The attempt to match the regular expression at position `p`: the
      greedy scan, kept when its runs have the lengths the pattern asks for. */
  function MatchAt(s: string, p: nat): (r: Option<Groups>)
    ensures r.Some? ==> r.value.start == p && PatternAt(s, r.value)
  {
    var g := Scan(s, p);
    if PatternAt(s, g) then Some(g) else None
  }

  /** Whenever the regular expression can match at a position, the scanner
      matches there, and with the same groups: the groups are unique. */
  lemma MatchAtComplete(s: string, g: Groups)
    requires PatternAt(s, g)
    ensures MatchAt(s, g.start) == Some(g)
  {
    assert InClass(Digit, s[g.dayStart]) && InClass(Space, s[g.dayEnd]) && InClass(Word, s[g.monthStart]);
    assert InClass(Space, s[g.monthEnd]) && InClass(Digit, s[g.yearStart]);
    SkipWhileStops(Space, s, g.start + |Header|, g.dayStart);
    SkipWhileStops(Digit, s, g.dayStart, g.dayEnd);
    SkipWhileStops(Space, s, g.dayEnd, g.monthStart);
    SkipWhileStops(Word, s, g.monthStart, g.monthEnd);
    SkipWhileStops(Space, s, g.monthEnd, g.yearStart);
  }

  /** Where "ENTRY DATE:" is absent, no match starts. */
  lemma NoHeaderNoMatch(s: string, q: nat)
    requires !HeaderAt(s, q)
    ensures MatchAt(s, q).None?
  {
  }

  /** The index of the first successful attempt at or after `i`. */
  function FirstSomeIndex<T>(attempts: seq<Option<T>>, i: nat): (r: Option<nat>)
    requires i <= |attempts|
    ensures r.None? ==> forall q :: i <= q < |attempts| ==> attempts[q].None?
    ensures r.Some? ==> i <= r.value < |attempts| && attempts[r.value].Some?
    ensures r.Some? ==> forall q :: i <= q < r.value ==> attempts[q].None?
    decreases |attempts| - i
  {
    if i == |attempts| then None
    else if attempts[i].Some? then Some(i)
    else FirstSomeIndex(attempts, i + 1)
  }

  /** An attempt that succeeds after only failed ones is the first. */
  lemma {:induction false} FirstSomeIndexIs<T>(attempts: seq<Option<T>>, i: nat, k: nat)
    requires i <= k < |attempts| && attempts[k].Some?
    requires forall q :: i <= q < k ==> attempts[q].None?
    ensures FirstSomeIndex(attempts, i) == Some(k)
    decreases k - i
  {
    if i < k {
      FirstSomeIndexIs(attempts, i + 1, k);
    }
  }

  /** The attempts to match at every start position, left to right. */
  function Attempts(s: string): (r: seq<Option<Groups>>)
    ensures |r| == |s| + 1
  {
    seq(|s| + 1, q requires 0 <= q <= |s| => MatchAt(s, q))
  }

  /** The leftmost match (`String.prototype.match` without the global flag
      tries start positions from left to right and stops at the first). */
  function FirstMatch(s: string): (r: Option<Groups>)
    ensures r.None? ==> forall q :: 0 <= q <= |s| ==> MatchAt(s, q).None?
    ensures r.Some? ==> r.value.start <= |s| && MatchAt(s, r.value.start) == r
    ensures r.Some? ==> forall q :: 0 <= q < r.value.start ==> MatchAt(s, q).None?
  {
    var attempts := Attempts(s);
    match FirstSomeIndex(attempts, 0)
    case None =>
      assert forall q :: 0 <= q <= |s| ==> attempts[q] == MatchAt(s, q);
      None
    case Some(q) =>
      assert forall q' :: 0 <= q' <= |s| ==> attempts[q'] == MatchAt(s, q');
      attempts[q]
  }

  /** A match preceded by no other match is the first match. */
  lemma FirstMatchIs(s: string, g: Groups)
    requires PatternAt(s, g)
    requires forall q: nat :: q < g.start ==> !HeaderAt(s, q)
    ensures FirstMatch(s) == Some(g)
  {
    MatchAtComplete(s, g);
    var attempts := Attempts(s);
    forall q | 0 <= q < g.start ensures attempts[q].None? {
      NoHeaderNoMatch(s, q);
    }
    FirstSomeIndexIs(attempts, 0, g.start);
  }

  /** A run of digits read as a string holds digits only. */
  lemma DigitRun(s: string, i: nat, j: nat)
    requires i <= j <= |s| && AllIn(Digit, s, i, j)
    ensures forall k :: 0 <= k < |s[i..j]| ==> IsDigit(s[i..j][k])
  {
    forall k | 0 <= k < |s[i..j]| ensures IsDigit(s[i..j][k]) {
      assert InClass(Digit, s[i + k]);
    }
  }

  function DayText(s: string, g: Groups): (r: string)
    requires PatternAt(s, g)
  {
    s[g.dayStart..g.dayEnd]
  }

  function MonthText(s: string, g: Groups): (r: string)
    requires PatternAt(s, g)
  {
    s[g.monthStart..g.monthEnd]
  }

  function YearText(s: string, g: Groups): (r: string)
    requires PatternAt(s, g)
  {
    s[g.yearStart..g.yearStart + 4]
  }

  /** `monthMap`: three-letter and full English month names to the
      zero-based month number the `Date` constructor takes. */
  const MonthTable: map<string, nat> := map[
    "jan" := 0, "january" := 0,
    "feb" := 1, "february" := 1,
    "mar" := 2, "march" := 2,
    "apr" := 3, "april" := 3,
    "may" := 4,
    "jun" := 5, "june" := 5,
    "jul" := 6, "july" := 6,
    "aug" := 7, "august" := 7,
    "sep" := 8, "september" := 8,
    "oct" := 9, "october" := 9,
    "nov" := 10, "november" := 10,
    "dec" := 11, "december" := 11
  ]

  /** The month table holds nothing but month numbers. */
  lemma MonthNumbers()
    ensures forall k :: k in MonthTable ==> MonthTable[k] < 12
  {
  }

  /** The month table names every month by its three-letter abbreviation. */
  lemma MonthAbbreviations()
    ensures MonthTable["jan"] == 0 && MonthTable["feb"] == 1 && MonthTable["mar"] == 2 &&
      MonthTable["apr"] == 3 && MonthTable["may"] == 4 && MonthTable["jun"] == 5 &&
      MonthTable["jul"] == 6 && MonthTable["aug"] == 7 && MonthTable["sep"] == 8 &&
      MonthTable["oct"] == 9 && MonthTable["nov"] == 10 && MonthTable["dec"] == 11
  {
  }

  /** The three numbers handed to `new Date(year, monthIndex, day)`. */
  datatype CalendarDate = CalendarDate(year: nat, month: nat, day: nat)

  /** What `parseEntryDate` returns: `null`, a `Date` built from a table month,
      or a `Date` built from a non-numeric month (an invalid date). */
  datatype ParsedDate = NoDate | InvalidDate | ValidDate(date: CalendarDate)

  /** The lower-cased month word of a match: the key looked up in `monthMap`. */
  function MonthKey(s: string, g: Groups): (r: string)
    requires PatternAt(s, g)
  {
    Lower(MonthText(s, g))
  }

  /** The date built from a match whose month key is in the table. */
  function DateOf(s: string, g: Groups): (d: CalendarDate)
    requires PatternAt(s, g) && MonthKey(s, g) in MonthTable
    ensures d.month < 12 && d.day < 100 && d.year < 10000
  {
    MonthNumbers();
    DigitRun(s, g.dayStart, g.dayEnd);
    DigitRun(s, g.yearStart, g.yearStart + 4);
    ParseDecimalBound(DayText(s, g));
    ParseDecimalBound(YearText(s, g));
    CalendarDate(ParseDecimal(YearText(s, g)), MonthTable[MonthKey(s, g)], ParseDecimal(DayText(s, g)))
  }

  /** `parseEntryDate` as written. The month word is looked up on a plain
      object, so a key the object inherits ("constructor", "__proto__") is
      found too; the `Date` then gets a non-numeric month and is invalid. */
  function ParseEntryDate(s: string): (r: ParsedDate)
    ensures r.ValidDate? ==> r.date.month < 12 && r.date.day < 100 && r.date.year < 10000
  {
    match FirstMatch(s)
    case None => NoDate
    case Some(g) =>
      var key := MonthKey(s, g);
      if key in MonthTable then ValidDate(DateOf(s, g))
      else if key in InheritedKeys then InvalidDate
      else NoDate
  }

  /** `parseEntryDate` as intended: a date exactly when the first match's
      month word is in the table, and nothing otherwise. */
  function ParseEntryDateStrict(s: string): (r: Option<CalendarDate>)
    ensures r.Some? <==> FirstMatch(s).Some? && MonthKey(s, FirstMatch(s).value) in MonthTable
    ensures r.Some? ==> r.value.month < 12 && r.value.day < 100 && r.value.year < 10000
  {
    match FirstMatch(s)
    case None => None
    case Some(g) => if MonthKey(s, g) in MonthTable then Some(DateOf(s, g)) else None
  }

  /** The two readings agree on every valid date; they differ only where the
      as-written lookup finds an inherited key and yields an invalid date. */
  lemma ParseEntryDateAgrees(s: string)
    ensures ParseEntryDate(s).ValidDate? <==> ParseEntryDateStrict(s).Some?
    ensures ParseEntryDate(s).ValidDate? ==> ParseEntryDateStrict(s) == Some(ParseEntryDate(s).date)
    ensures ParseEntryDate(s).InvalidDate? ==>
      FirstMatch(s).Some? && MonthKey(s, FirstMatch(s).value) in InheritedKeys
  {
  }

  /** Text with no "ENTRY DATE:" in it, in any case, has no entry date. */
  lemma NoHeaderNoDate(s: string)
    requires forall q: nat :: !HeaderAt(s, q)
    ensures ParseEntryDate(s) == NoDate
    ensures ParseEntryDateStrict(s) == None
  {
    if FirstMatch(s).Some? {
      NoHeaderNoMatch(s, FirstMatch(s).value.start);
    }
  }

  /** Only the first match is tried: once a match is the leftmost one, its
      month word alone decides the result, whatever follows it. */
  lemma FirstMatchDecides(s: string, g: Groups)
    requires PatternAt(s, g)
    requires forall q: nat :: q < g.start ==> !HeaderAt(s, q)
    ensures MonthKey(s, g) in MonthTable ==> ParseEntryDateStrict(s) == Some(DateOf(s, g))
    ensures MonthKey(s, g) !in MonthTable ==> ParseEntryDateStrict(s) == None
  {
    FirstMatchIs(s, g);
  }

  /** A header starts with an 'E' or an 'e', followed by an 'N' or an 'n'. */
  lemma HeaderStartsWithE(s: string, q: nat)
    ensures HeaderAt(s, q) ==> s[q] == 'E' || s[q] == 'e'
    ensures HeaderAt(s, q) ==> s[q + 1] == 'N' || s[q + 1] == 'n'
  {
    if HeaderAt(s, q) {
      assert Upper(s[q..q + |Header|])[0] == 'E';
      assert Upper(s[q..q + |Header|])[1] == 'N';
      assert s[q..q + |Header|][0] == s[q];
      assert s[q..q + |Header|][1] == s[q + 1];
    }
  }

  /** A piece of text every character of which is in class `cls`, found at
      position `i`, is a run of that class. */
  lemma SliceRun(cls: CharClass, s: string, i: nat, w: string)
    requires i + |w| <= |s| && s[i..i + |w|] == w
    requires forall k :: 0 <= k < |w| ==> InClass(cls, w[k])
    ensures AllIn(cls, s, i, i + |w|)
  {
    forall k | i <= k < i + |w| ensures InClass(cls, s[k]) {
      assert s[k] == w[k - i];
    }
  }

  /** Where each piece of a written entry date lies in the text. */
  lemma WrittenDateLayout(prefix: string, header: string, dd: string, name: string, yy: string,
                          suffix: string)
    requires |header| == |Header|
    ensures var s := prefix + header + " " + dd + " " + name + " " + yy + suffix;
      var p := |prefix|;
      |s| == p + 14 + |dd| + |name| + |yy| + |suffix| &&
      s[p..p + |Header|] == header &&
      s[p + 12..p + 12 + |dd|] == dd &&
      s[p + 13 + |dd|..p + 13 + |dd| + |name|] == name &&
      s[p + 14 + |dd| + |name|..p + 14 + |dd| + |name| + |yy|] == yy &&
      s[p + 11] == ' ' && s[p + 12 + |dd|] == ' ' && s[p + 13 + |dd| + |name|] == ' '
  {
  }

  /** An entry date written as header, single space, day digits, single
      space, month word, single space and four year digits matches the
      pattern, with those pieces as its groups. */
  lemma WrittenDatePattern(prefix: string, header: string, dd: string, name: string, yy: string,
                           suffix: string) returns (g: Groups)
    requires |header| == |Header| && Upper(header) == Header
    requires 1 <= |dd| <= 2 && forall i :: 0 <= i < |dd| ==> IsDigit(dd[i])
    requires |name| > 0 && forall i :: 0 <= i < |name| ==> IsWordChar(name[i])
    requires |yy| == 4 && forall i :: 0 <= i < |yy| ==> IsDigit(yy[i])
    ensures var s := prefix + header + " " + dd + " " + name + " " + yy + suffix;
      g.start == |prefix| && PatternAt(s, g) &&
      DayText(s, g) == dd && MonthText(s, g) == name && YearText(s, g) == yy
  {
    var s := prefix + header + " " + dd + " " + name + " " + yy + suffix;
    var p := |prefix|;
    WrittenDateLayout(prefix, header, dd, name, yy, suffix);
    g := Groups(p, p + 12, p + 12 + |dd|, p + 13 + |dd|, p + 13 + |dd| + |name|,
                p + 14 + |dd| + |name|);
    SliceRun(Digit, s, g.dayStart, dd);
    SliceRun(Word, s, g.monthStart, name);
    SliceRun(Digit, s, g.yearStart, yy);
  }

  /** After text in which no header starts, such a written entry date is the
      first match. */
  lemma WrittenDateMatches(prefix: string, header: string, dd: string, name: string, yy: string,
                           suffix: string) returns (g: Groups)
    requires forall q: nat :: q < |prefix| ==>
      !HeaderAt(prefix + header + " " + dd + " " + name + " " + yy + suffix, q)
    requires |header| == |Header| && Upper(header) == Header
    requires 1 <= |dd| <= 2 && forall i :: 0 <= i < |dd| ==> IsDigit(dd[i])
    requires |name| > 0 && forall i :: 0 <= i < |name| ==> IsWordChar(name[i])
    requires |yy| == 4 && forall i :: 0 <= i < |yy| ==> IsDigit(yy[i])
    ensures var s := prefix + header + " " + dd + " " + name + " " + yy + suffix;
      PatternAt(s, g) && FirstMatch(s) == Some(g) &&
      DayText(s, g) == dd && MonthText(s, g) == name && YearText(s, g) == yy
  {
    var s := prefix + header + " " + dd + " " + name + " " + yy + suffix;
    g := WrittenDatePattern(prefix, header, dd, name, yy, suffix);
    FirstMatchIs(s, g);
  }

  /** Round trip: an entry date written as header, day, month name and
      four-digit year, after text in which no header starts, reads back as
      that date. */
  lemma ParseWrittenDate(prefix: string, header: string, day: nat, dayWidth: nat,
                         name: string, year: nat, suffix: string)
    requires |header| == |Header| && Upper(header) == Header
    requires 1 <= dayWidth <= 2 && day < Pow10(dayWidth)
    requires |name| > 0 && forall i :: 0 <= i < |name| ==> IsWordChar(name[i])
    requires Lower(name) in MonthTable
    requires year < 10000
    requires forall q: nat :: q < |prefix| ==>
      !HeaderAt(prefix + header + " " + Digits(day, dayWidth) + " " + name + " " + Digits(year, 4) + suffix, q)
    ensures ParseEntryDateStrict(prefix + header + " " + Digits(day, dayWidth) + " " + name + " " +
                                 Digits(year, 4) + suffix) ==
      Some(CalendarDate(year, MonthTable[Lower(name)], day))
  {
    var g := WrittenDateMatches(prefix, header, Digits(day, dayWidth), name, Digits(year, 4), suffix);
    ParseDigits(day, dayWidth);
    ParseDigits(year, 4);
  }

  /** The month word "constructor" is not a month, yet the as-written lookup
      finds `Object.prototype.constructor` and returns an invalid date where
      `null` is intended; the same text has no date when read as intended. */
  lemma InheritedMonthGivesInvalidDate(prefix: string, suffix: string)
    requires forall i :: 0 <= i < |prefix| ==> prefix[i] != 'E' && prefix[i] != 'e'
    ensures ParseEntryDate(prefix + "ENTRY DATE: 1 constructor 2020" + suffix) == InvalidDate
    ensures ParseEntryDateStrict(prefix + "ENTRY DATE: 1 constructor 2020" + suffix) == None
  {
    var s := prefix + "ENTRY DATE: 1 constructor 2020" + suffix;
    var g := WrittenConstructorDate(prefix, suffix);
    ConstructorIsInheritedKey();
    assert MonthKey(s, g) == Lower("constructor");
  }

  lemma ConstructorIsInheritedKey()
    ensures Lower("constructor") !in MonthTable && Lower("constructor") in InheritedKeys
  {
    assert Lower("constructor") == "constructor";
  }

  lemma WrittenConstructorDate(prefix: string, suffix: string) returns (g: Groups)
    requires forall i :: 0 <= i < |prefix| ==> prefix[i] != 'E' && prefix[i] != 'e'
    ensures var s := prefix + "ENTRY DATE: 1 constructor 2020" + suffix;
      PatternAt(s, g) && FirstMatch(s) == Some(g) && MonthText(s, g) == "constructor"
  {
    HeaderIsUpper();
    var s := prefix + "ENTRY DATE:" + " " + "1" + " " + "constructor" + " " + "2020" + suffix;
    assert s == prefix + "ENTRY DATE: 1 constructor 2020" + suffix;
    forall q: nat | q < |prefix| ensures !HeaderAt(s, q) {
      HeaderStartsWithE(s, q);
    }
    g := WrittenDateMatches(prefix, "ENTRY DATE:", "1", "constructor", "2020", suffix);
  }

  /** Text before the header may hold 'e's: "Retest first. ENTRY DATE: 14
      Jan 2026" reads as 14 January 2026. */
  lemma DateAfterNotes()
    ensures ParseEntryDateStrict("Retest first. ENTRY DATE: 14 Jan 2026") == Some(CalendarDate(2026, 0, 14))
  {
    NotesText();
    NoHeaderInNotes("Retest first. ENTRY DATE: 14 Jan 2026");
    JanIsFirstMonth();
    HeaderIsUpper();
    ParseWrittenDate("Retest first. ", "ENTRY DATE:", 14, 2, "Jan", 2026, "");
  }

  lemma NotesText()
    ensures "Retest first. " + "ENTRY DATE:" + " " + Digits(14, 2) + " " + "Jan" + " " + Digits(2026, 4) + "" ==
      "Retest first. ENTRY DATE: 14 Jan 2026"
  {
    DigitsExample();
  }

  lemma HeaderIsUpper()
    ensures Upper("ENTRY DATE:") == Header
  {
  }

  lemma NoHeaderInNotes(s: string)
    requires "Retest first. " <= s
    ensures forall q: nat :: q < 14 ==> !HeaderAt(s, q)
  {
    forall q: nat | q < 14 ensures !HeaderAt(s, q) {
      HeaderStartsWithE(s, q);
      assert s[q] == "Retest first. "[q];
      if q == 1 || q == 3 {
        assert s[q + 1] == "Retest first. "[q + 1];
      }
    }
  }

  lemma DigitsExample()
    ensures Digits(14, 2) == "14" && Digits(2026, 4) == "2026"
  {
  }

  lemma JanIsFirstMonth()
    ensures Lower("Jan") == "jan" && "jan" in MonthTable && MonthTable["jan"] == 0
  {
    assert Lower("Jan")[0] == 'j';
  }
}
