/** The date labels of the day selector (src/utils/helpers.ts) and the way
    a day cell splits a label back into its day and month parts
    (src/components/DayCell/DayCell.tsx). Calendar arithmetic is left
    abstract: the caller supplies the date that lies a given number of days
    after the start date. */
module Helpers {
  import opened Interfaces

  /** What JavaScript's Date reports for a day: getDate() and getMonth()
      (1..31 and 0..11 for a valid date), or an invalid date, whose getters
      both return NaN. */
  datatype CalendarDate = CalendarDate(date: int, month: int) | InvalidDate

  predicate IsDigit(c: char) {
    '0' <= c <= '9'
  }

  predicate AllDigits(s: string) {
    forall i :: 0 <= i < |s| ==> IsDigit(s[i])
  }

  function DigitChar(d: int): (c: char)
    requires 0 <= d <= 9
    ensures IsDigit(c) && c as int - '0' as int == d
  {
    (d + '0' as int) as char
  }

  /** The value of a string of decimal digits, most significant first. */
  function DecimalValue(s: string): (v: nat)
    requires AllDigits(s)
  {
    if s == [] then 0
    else DecimalValue(s[..|s| - 1]) * 10 + (s[|s| - 1] as int - '0' as int)
  }

  /** The decimal text of a natural number, as a template literal prints it
      for every number below 10^21 (larger ones print in exponent form). */
  function NatToString(n: nat): string {
    if n < 10 then [DigitChar(n)]
    else NatToString(n / 10) + [DigitChar(n % 10)]
  }

  /** The text is one digit below ten, two digits from ten to 99, and only
      ever decimal digits. */
  lemma {:induction false} NatToStringDigits(n: nat)
    ensures 1 <= |NatToString(n)| && AllDigits(NatToString(n))
    ensures n < 10 <==> |NatToString(n)| == 1
    ensures 10 <= n < 100 <==> |NatToString(n)| == 2
  {
    if n >= 10 {
      NatToStringDigits(n / 10);
      var s := NatToString(n);
      assert s == NatToString(n / 10) + [DigitChar(n % 10)];
      assert forall i :: 0 <= i < |s| - 1 ==> s[i] == NatToString(n / 10)[i];
    }
  }

  /** Printing a natural number and reading the digits back gives the number. */
  lemma {:induction false} NatToStringRoundTrip(n: nat)
    ensures AllDigits(NatToString(n)) && DecimalValue(NatToString(n)) == n
  {
    NatToStringDigits(n);
    if n >= 10 {
      NatToStringRoundTrip(n / 10);
      var s := NatToString(n);
      assert s[..|s| - 1] == NatToString(n / 10);
    }
  }

  /** The decimal text of an integer: a minus sign before negative numbers.
      A template literal prints it this way when the magnitude is below 10^21. */
  function NumberToString(n: int): string {
    if n < 0 then "-" + NatToString(-n) else NatToString(n)
  }

  /** addLeadingZero: numbers below ten get a "0" in front (the source applies
      this to negative numbers too, giving "0-5" for -5). */
  function AddLeadingZero(num: int): string {
    if num < 10 then "0" + NumberToString(num) else NumberToString(num)
  }

  /** For every day number a calendar can report (indeed for 0..99), the
      padded text is exactly two decimal digits whose value is the number. */
  lemma AddLeadingZeroTwoDigits(num: int)
    requires 0 <= num <= 99
    ensures |AddLeadingZero(num)| == 2 && AllDigits(AddLeadingZero(num))
    ensures DecimalValue(AddLeadingZero(num)) == num
  {
    NatToStringDigits(num);
    NatToStringRoundTrip(num);
    var s := AddLeadingZero(num);
    if num < 10 {
      assert s == "0" + NatToString(num);
      assert s[..|s| - 1] == "0";
    }
  }

  const MonthsAbbreviation: seq<string> :=
    ["Jan", "Feb", "Mar", "Apr", "May", "Jun", "Jul", "Aug", "Sep", "Oct", "Nov", "Dec"]

  /** getMonthAbbreviation: the table entry, or `undefined` outside 0..11. */
  function MonthAbbreviation(month: int): (name: Option<string>)
    ensures name.Some? <==> 0 <= month < 12
    ensures name.Some? ==> |name.value| == 3 && name.value == MonthsAbbreviation[month]
  {
    if 0 <= month < |MonthsAbbreviation| then Some(MonthsAbbreviation[month]) else None
  }

  /** The twelve abbreviations are pairwise distinct and none contains a
      space, so a month index can be read back from its name. */
  lemma MonthAbbreviationInjective(m1: int, m2: int)
    requires 0 <= m1 < 12 && 0 <= m2 < 12
    requires MonthAbbreviation(m1) == MonthAbbreviation(m2)
    ensures m1 == m2
  {
  }

  /** How a template literal prints a possibly-undefined string. */
  function Stringify(s: Option<string>): string {
    match s
    case Some(v) => v
    case None => "undefined"
  }

  /** One label of formatDateArray: padded day, a space, month abbreviation.
      An invalid date prints NaN for the day and `undefined` for the month. */
  function Label(d: CalendarDate): string {
    match d
    case CalendarDate(date, month) => AddLeadingZero(date) + " " + Stringify(MonthAbbreviation(month))
    case InvalidDate => "NaN undefined"
  }

  /** The date `i` days after the one `dateStr` denotes. `addDays(s, i)`
      stands for `new Date(s)` moved on by JavaScript's Date.setDate, which
      may itself be invalid; `new Date(undefined)` is always invalid, and
      setDate keeps an invalid date invalid. */
  function DateAfter(dateStr: Option<string>, i: nat, addDays: (string, nat) -> CalendarDate): CalendarDate {
    if dateStr.Some? then addDays(dateStr.value, i) else InvalidDate
  }

  /** formatDateArray: one label for each of the `l` days starting at the
      date `dateStr` denotes; with no date at all every label reads
      "NaN undefined". */
  method FormatDateArray(dateStr: Option<string>, l: int, addDays: (string, nat) -> CalendarDate)
    returns (dateArray: seq<string>)
    ensures |dateArray| == if l > 0 then l else 0
    ensures forall i :: 0 <= i < |dateArray| ==> dateArray[i] == Label(DateAfter(dateStr, i, addDays))
    ensures dateStr.None? ==> forall i :: 0 <= i < |dateArray| ==> dateArray[i] == "NaN undefined"
  {
    dateArray := [];
    ghost var labelOf := (k: nat) => Label(DateAfter(dateStr, k, addDays));
    var i := 0;
    while i < l
      invariant 0 <= i && (if l > 0 then i <= l else i == 0)
      invariant |dateArray| == i
      invariant forall k :: 0 <= k < i ==> dateArray[k] == labelOf(k)
    {
      var currentDate := DateAfter(dateStr, i, addDays);
      dateArray := dateArray + [Label(currentDate)];
      i := i + 1;
    }
  }

  /** String.prototype.slice(start, end) for non-negative bounds: both are
      clamped to the length. */
  function Slice(s: string, start: nat, end: nat): string {
    var e := if end <= |s| then end else |s|;
    var b := if start <= e then start else e;
    s[b..e]
  }

  /** The day part a day cell shows: `date.slice(0, 2)`. */
  function DayCellDay(text: string): string {
    Slice(text, 0, 2)
  }

  /** The month part a day cell shows: `date.slice(3)`. */
  function DayCellMonth(text: string): string {
    Slice(text, 3, |text|)
  }

  /** Round trip between formatDateArray and DayCell: for a valid calendar
      date the first two characters give back the day number, character 2 is
      the space, and the rest is exactly the month's abbreviation. */
  lemma LabelRoundTrip(date: int, month: int)
    requires 1 <= date <= 31 && 0 <= month < 12
    ensures var text := Label(CalendarDate(date, month));
      && |text| == 6 && text[2] == ' '
      && DayCellDay(text) == AddLeadingZero(date)
      && AllDigits(DayCellDay(text)) && DecimalValue(DayCellDay(text)) == date
      && DayCellMonth(text) == MonthsAbbreviation[month]
  {
    AddLeadingZeroTwoDigits(date);
    var text := Label(CalendarDate(date, month));
    var day := AddLeadingZero(date);
    var name := MonthsAbbreviation[month];
    assert text == day + " " + name;
    assert text[..2] == day;
    assert text[3..] == name;
  }
}
