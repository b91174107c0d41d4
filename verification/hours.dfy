/** When a merchant is open: weekly hours that may run past midnight. */
module Hours {
  import opened Basics

  const DAY := 1440
  const WEEK := 10080

  type Byte = x: int | 0 <= x < 256

  const ZERO: Byte := 48
  const COLON: Byte := 58

  datatype OpeningHours = OpeningHours(weekday: int, opens: seq<Byte>, closes: seq<Byte>)

  /** Subtraction of bytes wraps around. */
  function Minus(a: Byte, b: Byte): Byte { (a - b) % 256 }

  predicate Digit(b: Byte) { ZERO <= b <= ZERO + 9 }

  function ParseHM(s: seq<Byte>): Option<int> {
    if |s| != 5 || s[2] != COLON then None
    else
      var h, m := Minus(s[0], ZERO) * 10 + Minus(s[1], ZERO), Minus(s[3], ZERO) * 10 + Minus(s[4], ZERO);
      if || h < 0 || h > 23 || m < 0 || m > 59
         || !Digit(s[0]) || !Digit(s[1]) || !Digit(s[3]) || !Digit(s[4])
      then None
      else Some(h * 60 + m)
  }

  /** Two digits, a colon, two digits. */
  function Format(minute: int): seq<Byte>
    requires 0 <= minute < DAY
  {
    var h, m := minute / 60, minute % 60;
    [ZERO + h / 10, ZERO + h % 10, COLON, ZERO + m / 10, ZERO + m % 10]
  }

  lemma DigitsOf(a: int, b: int, c: int, d: int, v: int)
    requires 0 <= a < 10 && 0 <= b < 10 && 0 <= c < 6 && 0 <= d < 10 && v == (a * 10 + b) * 60 + (c * 10 + d)
    ensures v / 60 / 10 == a && v / 60 % 10 == b && v % 60 / 10 == c && v % 60 % 10 == d
  {
    assert v / 60 == a * 10 + b && v % 60 == c * 10 + d;
  }

  lemma MinusDigit(b: Byte)
    requires Digit(b)
    ensures Minus(b, ZERO) == b - ZERO
  {
  }

  /** What is parsed is the one spelling of its minute. */
  lemma ParsedIsFormat(s: seq<Byte>)
    requires ParseHM(s).Some?
    ensures 0 <= ParseHM(s).value < DAY && s == Format(ParseHM(s).value)
  {
    MinusDigit(s[0]);
    MinusDigit(s[1]);
    MinusDigit(s[3]);
    MinusDigit(s[4]);
    DigitsOf(s[0] - ZERO, s[1] - ZERO, s[3] - ZERO, s[4] - ZERO, ParseHM(s).value);
  }

  /** Every minute of the day is parsed back from its spelling. */
  lemma FormatIsParsed(v: int)
    requires 0 <= v < DAY
    ensures ParseHM(Format(v)) == Some(v)
  {
    var s, h, m := Format(v), v / 60, v % 60;
    MinusDigit(s[0]);
    MinusDigit(s[1]);
    MinusDigit(s[3]);
    MinusDigit(s[4]);
    assert h / 10 * 10 + h % 10 == h && m / 10 * 10 + m % 10 == m;
  }

  /** The minutes a row stands for, as an interval on the circle of the week: it starts at its
      opening time and lasts until the next closing time, a whole day if the two are equal. */
  function Start(h: OpeningHours, opens: int): int { h.weekday * DAY + opens }

  function Length(opens: int, closes: int): int { (closes - opens - 1) % DAY + 1 }

  predicate Covers(h: OpeningHours, weekday: int, minute: int) {
    var o, c := ParseHM(h.opens), ParseHM(h.closes);
    && o.Some? && c.Some?
    && (weekday * DAY + minute - Start(h, o.value)) % WEEK < Length(o.value, c.value)
  }

  ghost predicate OpenDuring(hours: seq<OpeningHours>, weekday: int, minute: int) {
    exists i :: 0 <= i < |hours| && Covers(hours[i], weekday, minute)
  }

  /** The test of one row. */
  predicate RowOpen(h: OpeningHours, opens: int, closes: int, today: int, minute: int) {
    if closes > opens then h.weekday == today && minute >= opens && minute < closes
    else (h.weekday == today && minute >= opens) || (h.weekday == (today + 6) % 7 && minute < closes)
  }

  method OpenAt(hours: seq<OpeningHours>, weekday: int, minute: int) returns (open: bool)
    requires 0 <= weekday < 7 && 0 <= minute < DAY
    requires forall i :: 0 <= i < |hours| ==> 0 <= hours[i].weekday < 7
    ensures open <==> OpenDuring(hours, weekday, minute)
  {
    var today, yesterday := weekday, (weekday + 6) % 7;
    for i := 0 to |hours|
      invariant forall k :: 0 <= k < i ==> !Covers(hours[k], weekday, minute)
    {
      var h := hours[i];
      var o, c := ParseHM(h.opens), ParseHM(h.closes);
      if o.None? || c.None? { continue; }
      ParsedIsFormat(h.opens);
      ParsedIsFormat(h.closes);
      RowOpenIsCovers(h.weekday, o.value, c.value, weekday, minute);
      if c.value > o.value {   // within the day
        if h.weekday == today && minute >= o.value && minute < c.value { return true; }
      } else {                 // past midnight
        if h.weekday == today && minute >= o.value { return true; }
        if h.weekday == yesterday && minute < c.value { return true; }
      }
    }
    return false;
  }

  /** Arithmetic on the circle: Saturday night runs into Sunday. */
  lemma RowOpenIsCovers(day: int, o: int, c: int, today: int, minute: int)
    requires 0 <= day < 7 && 0 <= today < 7 && 0 <= o < DAY && 0 <= c < DAY && 0 <= minute < DAY
    ensures RowOpen(OpeningHours(day, [], []), o, c, today, minute) <==>
      (today * DAY + minute - (day * DAY + o)) % WEEK < Length(o, c)
  {
    var d := (today - day) * DAY + minute - o;
    assert today * DAY + minute - (day * DAY + o) == d;
    assert Length(o, c) == if c > o then c - o else c - o + DAY;
    if d < 0 { assert d % WEEK == d + WEEK; } else { assert d % WEEK == d; }
  }

  // -------------------------------------------------- the same rule, in the database

  /** A row of the hours table: times of day in minutes. */
  datatype HoursRow = HoursRow(weekday: int, opens: int, closes: int)

  /** The query's condition on one row, at a second of the day. */
  predicate RowMatches(r: HoursRow, dow: int, second: int) {
    || (r.closes > r.opens && r.weekday == dow && second >= r.opens * 60 && second < r.closes * 60)
    || (r.closes <= r.opens
        && ((r.weekday == dow && second >= r.opens * 60) || (r.weekday == (dow + 6) % 7 && second < r.closes * 60)))
  }

  ghost predicate OpenNow(rows: seq<HoursRow>, dow: int, second: int) {
    exists i :: 0 <= i < |rows| && RowMatches(rows[i], dow, second)
  }

  function Displayed(r: HoursRow): OpeningHours
    requires 0 <= r.opens < DAY && 0 <= r.closes < DAY
  {
    OpeningHours(r.weekday, Format(r.opens), Format(r.closes))
  }

  lemma RowAgrees(r: HoursRow, dow: int, second: int)
    requires 0 <= dow < 7 && 0 <= second < DAY * 60
    requires 0 <= r.weekday < 7 && 0 <= r.opens < DAY && 0 <= r.closes < DAY
    ensures RowMatches(r, dow, second) <==> Covers(Displayed(r), dow, second / 60)
  {
    FormatIsParsed(r.opens);
    FormatIsParsed(r.closes);
    assert second >= r.opens * 60 <==> second / 60 >= r.opens;
    assert second < r.closes * 60 <==> second / 60 < r.closes;
    RowOpenIsCovers(r.weekday, r.opens, r.closes, dow, second / 60);
  }

  /** Both programs answer alike at every second of the week. */
  lemma QueryAgrees(rows: seq<HoursRow>, hours: seq<OpeningHours>, dow: int, second: int)
    requires 0 <= dow < 7 && 0 <= second < DAY * 60
    requires forall i :: 0 <= i < |rows| ==>
      0 <= rows[i].weekday < 7 && 0 <= rows[i].opens < DAY && 0 <= rows[i].closes < DAY
    requires |hours| == |rows| && forall i :: 0 <= i < |rows| ==> hours[i] == Displayed(rows[i])
    ensures OpenNow(rows, dow, second) <==> OpenDuring(hours, dow, second / 60)
  {
    forall i | 0 <= i < |rows|
      ensures RowMatches(rows[i], dow, second) <==> Covers(hours[i], dow, second / 60)
    {
      RowAgrees(rows[i], dow, second);
    }
  }
}
