/**
 * `normalizeDate` of src/App.tsx: a date cell is read with the pattern
 * `dd/MM/yyyy`, and failing that with `yyyy-MM-dd`, the way date-fns `parse`
 * and `isValid` read them, and a date that is read is written back as the
 * canonical `yyyy-MM-dd` key that the daily rows are keyed and sorted by.
 */
module DateKeys {
  import opened Wrappers
  import opened Decimal
  import opened Calendar
  import opened LexOrder

  /** Dates that a four-digit year field can express and that exist. */
  predicate Keyable(dt: Date) {
    IsValidDate(dt) && dt.year < 10000
  }

  /** How many characters a numeric field of at most `max` digits takes: date-fns reads them greedily. */
  function FieldLength(s: string, max: nat): (n: nat)
    ensures n <= max && n <= |s| && AllDigits(s[..n])
  {
    var run := DigitRun(s);
    if run < max then run else (assert s[..max] == s[..run][..max]; max)
  }

  /** A numeric field followed by the literal `sep`: the field's value and the text after `sep`. */
  function ReadField(s: string, max: nat, sep: char): (r: Option<(nat, string)>)
    ensures r.Some? ==> r.value.0 < Pow10(max)
  {
    var n := FieldLength(s, max);
    if n == 0 || n >= |s| || s[n] != sep then None
    else
      DigitsValueBound(s[..n]);
      Pow10Monotone(n, max);
      Some((DigitsValue(s[..n]), s[n + 1..]))
  }

  /** The last numeric field of a pattern: anything after it must be white space. */
  function ReadLastField(s: string, max: nat): (r: Option<nat>)
    ensures r.Some? ==> r.value < Pow10(max)
  {
    var n := FieldLength(s, max);
    if n == 0 || !AllSpaces(s[n..]) then None
    else
      DigitsValueBound(s[..n]);
      Pow10Monotone(n, max);
      Some(DigitsValue(s[..n]))
  }

  /** `isValid` on what the fields set: a positive year, a month of the year, a day of that month. */
  function Checked(year: nat, month: nat, day: nat): (r: Option<Date>)
    ensures r.Some? ==> IsValidDate(r.value) && r.value == Date(year, month, day)
    ensures r.None? <==> !IsValidDate(Date(year, month, day))
  {
    if IsValidDate(Date(year, month, day)) then Some(Date(year, month, day)) else None
  }

  /** `parse(d, 'dd/MM/yyyy', new Date())` when the result `isValid`. */
  function ParseDayFirst(s: string): (r: Option<Date>)
    ensures r.Some? ==> Keyable(r.value)
  {
    match ReadField(s, 2, '/')
    case None => None
    case Some((day, rest)) =>
      match ReadField(rest, 2, '/')
      case None => None
      case Some((month, rest')) =>
        match ReadLastField(rest', 4)
        case None => None
        case Some(year) => Checked(year, month, day)
  }

  /** `parse(d, 'yyyy-MM-dd', new Date())` when the result `isValid`. */
  function ParseIso(s: string): (r: Option<Date>)
    ensures r.Some? ==> Keyable(r.value)
  {
    match ReadField(s, 4, '-')
    case None => None
    case Some((year, rest)) =>
      match ReadField(rest, 2, '-')
      case None => None
      case Some((month, rest')) =>
        match ReadLastField(rest', 2)
        case None => None
        case Some(day) => Checked(year, month, day)
  }

  /** The day-first pattern is tried first; the ISO pattern only when it fails. */
  function ParseDate(s: string): (r: Option<Date>)
    ensures r.Some? ==> Keyable(r.value)
    ensures ParseDayFirst(s).Some? ==> r == ParseDayFirst(s)
    ensures ParseDayFirst(s).None? ==> r == ParseIso(s)
  {
    if ParseDayFirst(s).Some? then ParseDayFirst(s) else ParseIso(s)
  }

  /** `format(parsed, 'yyyy-MM-dd')`. */
  function FormatKey(dt: Date): (k: string)
    requires Keyable(dt)
    ensures |k| == 10
  {
    Digits(dt.year, 4) + "-" + Digits(dt.month, 2) + "-" + Digits(dt.day, 2)
  }

  /** Day, month and year written `dd/MM/yyyy`, whether or not they name a date. */
  function DayFirstFields(day: nat, month: nat, year: nat): string
    requires day < 100 && month < 100 && year < 10000
  {
    Digits(day, 2) + "/" + Digits(month, 2) + "/" + Digits(year, 4)
  }

  /** The same date written day first, as the merchant's files write it. */
  function DayFirstText(dt: Date): string
    requires Keyable(dt)
  {
    DayFirstFields(dt.day, dt.month, dt.year)
  }

  /** A key of the canonical shape `yyyy-MM-dd` that names a date that exists. */
  predicate IsCanonicalKey(k: string) {
    && |k| == 10
    && AllDigits(k[..4]) && k[4] == '-' && AllDigits(k[5..7]) && k[7] == '-' && AllDigits(k[8..])
    && ParseIso(k).Some?
  }

  /**
   * `normalizeDate`: no key for a missing or empty cell, nor for one that
   * neither pattern reads; otherwise the canonical key of the date read,
   * which reads back as that same date.
   */
  function NormalizeDate(d: Option<string>): (r: Option<string>)
    ensures r.None? <==> d.None? || d.value == "" || ParseDate(d.value).None?
    ensures r.Some? ==> IsCanonicalKey(r.value) && ParseIso(r.value) == ParseDate(d.value)
  {
    if d.None? || d.value == "" then None
    else
      match ParseDate(d.value)
      case None => None
      case Some(dt) =>
        KeyRoundTrip(dt);
        Some(FormatKey(dt))
  }

  /** A field written with `Digits` and followed by `sep` is read back. */
  lemma ReadFieldOf(x: nat, w: nat, max: nat, sep: char, rest: string)
    requires 1 <= w <= max && x < Pow10(w) && !IsDigit(sep)
    ensures ReadField(Digits(x, w) + [sep] + rest, max, sep) == Some((x, rest))
  {
    var s := Digits(x, w) + [sep] + rest;
    assert s == Digits(x, w) + ([sep] + rest);
    DigitRunOf(Digits(x, w), [sep] + rest);
    assert s[..w] == Digits(x, w);
    DigitsRoundTrip(x, w);
  }

  /** A last field written with `Digits` is read back. */
  lemma ReadLastFieldOf(x: nat, w: nat, max: nat)
    requires 1 <= w <= max && x < Pow10(w)
    ensures ReadLastField(Digits(x, w), max) == Some(x)
  {
    var s := Digits(x, w);
    DigitRunOf(s, []);
    assert s + [] == s;
    assert s[..w] == s;
    DigitsRoundTrip(x, w);
  }

  /** A canonical key reads back, with the ISO pattern, as the date it was written from. */
  lemma KeyRoundTrip(dt: Date)
    requires Keyable(dt)
    ensures ParseIso(FormatKey(dt)) == Some(dt)
  {
    var y, m, d := Digits(dt.year, 4), Digits(dt.month, 2), Digits(dt.day, 2);
    assert FormatKey(dt) == y + ['-'] + (m + "-" + d);
    ReadFieldOf(dt.year, 4, 4, '-', m + "-" + d);
    ReadFieldOf(dt.month, 2, 2, '-', d);
    ReadLastFieldOf(dt.day, 2, 2);
  }

  /** No canonical key matches the day-first pattern: its first field runs into the year's third digit. */
  lemma KeyIsNotDayFirst(dt: Date)
    requires Keyable(dt)
    ensures ParseDayFirst(FormatKey(dt)) == None
  {
    var k := FormatKey(dt);
    var y := Digits(dt.year, 4);
    assert k == y + ("-" + Digits(dt.month, 2) + "-" + Digits(dt.day, 2));
    DigitRunOf(y, "-" + Digits(dt.month, 2) + "-" + Digits(dt.day, 2));
    assert k[2] == y[2];
  }

  /**
   * A date written day first (`dd/MM/yyyy`) and the same date written
   * `yyyy-MM-dd` normalise to the same key, and a canonical key
   * normalises to itself.
   */
  lemma DayFirstMatchesIso(dt: Date)
    requires Keyable(dt)
    ensures NormalizeDate(Some(DayFirstText(dt))) == Some(FormatKey(dt))
    ensures NormalizeDate(Some(FormatKey(dt))) == Some(FormatKey(dt))
  {
    var d, m, y := Digits(dt.day, 2), Digits(dt.month, 2), Digits(dt.year, 4);
    assert DayFirstText(dt) == d + ['/'] + (m + "/" + y);
    ReadFieldOf(dt.day, 2, 2, '/', m + "/" + y);
    ReadFieldOf(dt.month, 2, 2, '/', y);
    ReadLastFieldOf(dt.year, 4, 4);
    assert ParseDayFirst(DayFirstText(dt)) == Some(dt);
    KeyIsNotDayFirst(dt);
    KeyRoundTrip(dt);
  }

  /** Fixed-width numerals compare, character by character, as the numbers they write. */
  lemma {:induction false} DigitsOrder(x: nat, y: nat, w: nat)
    requires x < Pow10(w) && y < Pow10(w)
    ensures LexLess(Digits(x, w), Digits(y, w)) <==> x < y
  {
    if w > 0 {
      var a, b := Digits(x / 10, w - 1), Digits(y / 10, w - 1);
      var cx, cy := DigitChar(x % 10), DigitChar(y % 10);
      LexConcat(a, [cx], b, [cy]);
      assert LexLess([cx], [cy]) <==> x % 10 < y % 10;
      DigitsOrder(x / 10, y / 10, w - 1);
      DigitsRoundTrip(x / 10, w - 1);
      DigitsRoundTrip(y / 10, w - 1);
      assert a == b <==> x / 10 == y / 10;
      assert x == 10 * (x / 10) + x % 10 && y == 10 * (y / 10) + y % 10;
    }
  }

  /** Sorting canonical keys as strings sorts their dates chronologically. */
  lemma KeyOrder(a: Date, b: Date)
    requires Keyable(a) && Keyable(b)
    ensures LexLess(FormatKey(a), FormatKey(b)) <==> DateLess(a, b)
  {
    var ya, ma, da := Digits(a.year, 4), Digits(a.month, 2), Digits(a.day, 2);
    var yb, mb, db := Digits(b.year, 4), Digits(b.month, 2), Digits(b.day, 2);
    assert FormatKey(a) == ya + (['-'] + (ma + (['-'] + da)));
    assert FormatKey(b) == yb + (['-'] + (mb + (['-'] + db)));
    LexConcat(ya, ['-'] + (ma + (['-'] + da)), yb, ['-'] + (mb + (['-'] + db)));
    LexConcat(['-'], ma + (['-'] + da), ['-'], mb + (['-'] + db));
    LexConcat(ma, ['-'] + da, mb, ['-'] + db);
    LexConcat(['-'], da, ['-'], db);
    LexIrreflexive(['-']);
    DigitsOrder(a.year, b.year, 4);
    DigitsOrder(a.month, b.month, 2);
    DigitsOrder(a.day, b.day, 2);
    DigitsRoundTrip(a.year, 4);
    DigitsRoundTrip(b.year, 4);
    DigitsRoundTrip(a.month, 2);
    DigitsRoundTrip(b.month, 2);
  }

  /** A day key: the text that formatting the date it reads back as gives again. */
  predicate IsDayKey(k: string) {
    ParseIso(k).Some? && FormatKey(ParseIso(k).value) == k
  }

  /** Every key `normalizeDate` produces is a day key. */
  lemma NormalizedIsDayKey(d: Option<string>)
    ensures NormalizeDate(d).Some? ==> IsDayKey(NormalizeDate(d).value)
  {
    if NormalizeDate(d).Some? {
      KeyRoundTrip(ParseDate(d.value).value);
    }
  }

  /** On day keys, the order of the texts is the order of the dates. */
  /** Both keys stand for dates and the first date comes before the second. */
  predicate KeyBefore(a: string, b: string) {
    ParseIso(a).Some? && ParseIso(b).Some? && DateLess(ParseIso(a).value, ParseIso(b).value)
  }

  lemma DayKeyOrder(a: string, b: string)
    requires IsDayKey(a) && IsDayKey(b)
    ensures LexLess(a, b) <==> KeyBefore(a, b)
  {
    KeyOrder(ParseIso(a).value, ParseIso(b).value);
  }

  /** A text that is no date in either pattern gets no key. */
  lemma NotADateHasNoKey()
    ensures NormalizeDate(Some("not-a-date")) == None
  {
    assert DigitRun("not-a-date") == 0;
  }

  lemma ExampleDigits()
    ensures Digits(5, 2) == "05" && Digits(3, 2) == "03" && Digits(23, 2) == "23" && Digits(23, 4) == "0023"
  {
    assert DigitChar(0) == '0' && DigitChar(2) == '2' && DigitChar(3) == '3' && DigitChar(5) == '5';
    assert Digits(0, 1) == "0" && Digits(2, 1) == "2" && Digits(0, 2) == "00";
    assert Digits(2, 2) == "02";
    assert Digits(2, 3) == "002";
  }

  /**
   * The `yyyy` field reads the digits it is given as the year itself: a
   * two-digit year is not moved into the 2000s.
   */
  lemma TwoDigitYearIsReadLiterally(text: string)
    requires text == "05/03/23"
    ensures NormalizeDate(Some(text)) == Some("0023-03-05")
  {
    ShortYearText(text);
    ShortYearKey();
    ShortYearCase(text, "0023-03-05");
  }

  lemma ShortYearText(text: string)
    requires text == "05/03/23"
    ensures text == Digits(5, 2) + ['/'] + (Digits(3, 2) + "/" + Digits(23, 2))
  {
    ExampleDigits();
  }

  lemma ShortYearKey()
    ensures FormatKey(Date(23, 3, 5)) == "0023-03-05"
  {
    ExampleDigits();
  }

  lemma ShortYearCase(text: string, key: string)
    requires text == Digits(5, 2) + ['/'] + (Digits(3, 2) + "/" + Digits(23, 2))
    requires key == FormatKey(Date(23, 3, 5))
    ensures NormalizeDate(Some(text)) == Some(key)
  {
    ShortYearFields(5, 3, 23);
  }

  /** A day-first date whose year is written with two digits is read with that number as its year. */
  lemma ShortYearFields(day: nat, month: nat, year: nat)
    requires day < 100 && month < 100 && year < 100
    requires IsValidDate(Date(year, month, day))
    ensures ParseDayFirst(Digits(day, 2) + ['/'] + (Digits(month, 2) + "/" + Digits(year, 2))) == Some(Date(year, month, day))
  {
    ReadFieldOf(day, 2, 2, '/', Digits(month, 2) + "/" + Digits(year, 2));
    ReadFieldOf(month, 2, 2, '/', Digits(year, 2));
    ReadLastFieldOf(year, 2, 4);
  }

  // ---------------------------------------------------------------------------
  // The calendar rule of `isValid`

  /**
   * Day-first text with a two-digit day and month and a four-digit year gets
   * a key exactly when the three fields name a date of the calendar; the ISO
   * pattern does not rescue text that the day-first pattern refuses.
   */
  lemma DayFirstCalendar(day: nat, month: nat, year: nat)
    requires day < 100 && month < 100 && year < 10000
    ensures IsValidDate(Date(year, month, day)) ==>
              NormalizeDate(Some(DayFirstFields(day, month, year))) == Some(FormatKey(Date(year, month, day)))
    ensures !IsValidDate(Date(year, month, day)) ==> NormalizeDate(Some(DayFirstFields(day, month, year))) == None
  {
    var d, m, y := Digits(day, 2), Digits(month, 2), Digits(year, 4);
    var s := DayFirstFields(day, month, year);
    assert s == d + ['/'] + (m + "/" + y);
    ReadFieldOf(day, 2, 2, '/', m + "/" + y);
    ReadFieldOf(month, 2, 2, '/', y);
    ReadLastFieldOf(year, 4, 4);
    assert s == d + (['/'] + (m + "/" + y));
    DigitRunOf(d, ['/'] + (m + "/" + y));
    assert s[2] == '/';
  }

  lemma ExampleNumerals()
    ensures Digits(29, 2) == "29" && Digits(2, 2) == "02" && Digits(2024, 4) == "2024" && Digits(2023, 4) == "2023"
  {
    assert Digits(0, 1) == "0" && Digits(2, 1) == "2";
    assert Digits(20, 2) == "20" && Digits(202, 3) == "202";
  }

  /**
   * The 29th of February exists in leap years only: years divisible by 4,
   * except century years, which must be divisible by 400.
   */
  lemma LeapDay(year: nat)
    requires 1 <= year < 10000
    ensures NormalizeDate(Some(DayFirstFields(29, 2, year))).Some? <==> year % 4 == 0 && (year % 100 != 0 || year % 400 == 0)
  {
    DayFirstCalendar(29, 2, year);
  }

  /** The 31st exists in January, March, May, July, August, October and December, and in no other month. */
  lemma MonthEnd(month: nat, year: nat)
    requires month < 100 && 1 <= year < 10000
    ensures NormalizeDate(Some(DayFirstFields(31, month, year))).Some?
            <==> month == 1 || month == 3 || month == 5 || month == 7 || month == 8 || month == 10 || month == 12
  {
    DayFirstCalendar(31, month, year);
    assert IsValidDate(Date(year, month, 31))
           <==> month == 1 || month == 3 || month == 5 || month == 7 || month == 8 || month == 10 || month == 12;
  }

  /** A day that every month has is a date exactly in the months `01` to `12`, and never in year `0000` or on day `00`. */
  lemma FieldRanges(day: nat, month: nat, year: nat)
    requires day < 100 && month < 100 && year < 10000
    ensures 1 <= day <= 28 && 1 <= year ==> (NormalizeDate(Some(DayFirstFields(day, month, year))).Some? <==> 1 <= month <= 12)
    ensures year == 0 || day == 0 ==> NormalizeDate(Some(DayFirstFields(day, month, year))) == None
  {
    DayFirstCalendar(day, month, year);
  }

  /** A text that spells out the fields day first gets the key that spells out their date, or none when there is no such date. */
  lemma SpelledOut(text: string, key: string, day: nat, month: nat, year: nat)
    requires day < 100 && month < 100 && year < 10000
    requires text == DayFirstFields(day, month, year)
    requires Keyable(Date(year, month, day)) ==> key == FormatKey(Date(year, month, day))
    ensures IsValidDate(Date(year, month, day)) ==> NormalizeDate(Some(text)) == Some(key)
    ensures !IsValidDate(Date(year, month, day)) ==> NormalizeDate(Some(text)) == None
  {
    DayFirstCalendar(day, month, year);
  }

  lemma LeapDayText()
    ensures DayFirstFields(29, 2, 2024) == "29/02/2024" && FormatKey(Date(2024, 2, 29)) == "2024-02-29"
  {
    ExampleNumerals();
  }

  lemma CommonYearText()
    ensures DayFirstFields(29, 2, 2023) == "29/02/2023"
  {
    ExampleNumerals();
  }

  /** `29/02/2024` is the day `2024-02-29`. */
  lemma LeapDayExample(text: string, key: string)
    requires text == "29/02/2024" && key == "2024-02-29"
    ensures NormalizeDate(Some(text)) == Some(key)
  {
    LeapDayText();
    LeapDayFields(text, key);
  }

  lemma LeapDayFields(text: string, key: string)
    requires text == DayFirstFields(29, 2, 2024) && key == FormatKey(Date(2024, 2, 29))
    ensures NormalizeDate(Some(text)) == Some(key)
  {
    SpelledOut(text, key, 29, 2, 2024);
  }

  /** `29/02/2023` is no day. */
  lemma CommonYearExample(text: string)
    requires text == "29/02/2023"
    ensures NormalizeDate(Some(text)) == None
  {
    CommonYearText();
    SpelledOut(text, "", 29, 2, 2023);
  }
}
