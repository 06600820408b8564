/**
 * The opening-hours check of the storefront hook: a fixed table of
 * "HH:MM - HH:MM" ranges per Portuguese day name, a mapping from the
 * week-day index (0 is Sunday) to that name, and the half-open test
 * openingTime <= now < closingTime on minutes since midnight. The clock
 * is not read here: the day index, hour and minute are parameters.
 */
module OpeningHours {
  import opened Wrappers
  import opened Text

  /** Day names indexed by `Date.getDay()`. */
  const DayNames: seq<string> := [
    "Domingo", "Segunda-feira", "Ter\U{00E7}a-feira", "Quarta-feira",
    "Quinta-feira", "Sexta-feira", "S\U{00E1}bado"
  ]

  /** The fixed opening-hours table. */
  const Table: map<string, string> := map[
    "Segunda-feira" := "11:00 - 22:00",
    "Ter\U{00E7}a-feira" := "11:00 - 22:00",
    "Quarta-feira" := "11:00 - 22:00",
    "Quinta-feira" := "11:00 - 22:00",
    "Sexta-feira" := "11:00 - 22:00",
    "S\U{00E1}bado" := "10:00 - 23:00",
    "Domingo" := "10:00 - 21:00"
  ]

  const OpenStatus: string := "Aberto agora"
  const ClosedStatus: string := "Fechado"

  /** `dayNames[dayOfWeek]`, undefined outside the array. */
  function DayName(dayOfWeek: int): (r: Option<string>)
    ensures r.Some? <==> 0 <= dayOfWeek < 7
    ensures r.Some? ==> r.value == DayNames[dayOfWeek]
  {
    if 0 <= dayOfWeek < |DayNames| then Some(DayNames[dayOfWeek]) else None
  }

  /** Minutes since midnight, `hour * 60 + minute`. */
  function Minutes(hour: int, minute: int): int {
    hour * 60 + minute
  }

  /**
   * `Number(s)` on a run of ASCII digits, which it reads as that whole
   * number (the empty string reads as 0); every other string is None.
   * This covers the pieces of the fixed table. `Number` itself reads more
   * strings than these (surrounding spaces, a sign, hex, decimals,
   * exponents).
   */
  function ToNumber(s: string): Option<nat> {
    if AllDigits(s) then Some(DecimalValue(s)) else None
  }

  /**
   * `const [h, m] = time.split(':').map(Number); h * 60 + m`, where a
   * missing piece is `undefined` and every NaN operand makes the result NaN.
   */
  function ParseClock(time: string): Option<int> {
    var parts := Split(time, ":");
    if |parts| < 2 then None
    else
      match (ToNumber(parts[0]), ToNumber(parts[1]))
      case (Some(h), Some(m)) => Some(Minutes(h, m))
      case _ => None
  }

  /** The opening and closing minute of a "HH:MM - HH:MM" entry. */
  function ParseHours(hours: string): Option<(int, int)> {
    var parts := Split(hours, " - ");
    if |parts| < 2 then None
    else
      match (ParseClock(parts[0]), ParseClock(parts[1]))
      case (Some(o), Some(c)) => Some((o, c))
      case _ => None
  }

  /** The table entry for a day index, when there is a non-empty one. */
  function HoursFor(dayOfWeek: int): Option<string> {
    match DayName(dayOfWeek)
    case None => None
    case Some(name) => if name in Table && Table[name] != "" then Some(Table[name]) else None
  }

  /**
   * The restaurant is open at the given time iff the day has an entry and
   * the time lies in its half-open range.
   */
  function IsOpenAt(dayOfWeek: int, hour: int, minute: int): bool {
    match HoursFor(dayOfWeek)
    case None => false
    case Some(hours) =>
      match ParseHours(hours)
      case None => false
      case Some((o, c)) => o <= Minutes(hour, minute) < c
  }

  function Status(isOpen: bool): (s: string)
    ensures s == OpenStatus <==> isOpen
    ensures s == ClosedStatus <==> !isOpen
  {
    if isOpen then OpenStatus else ClosedStatus
  }

  /** A clock reading "hh:mm" is read as hh * 60 + mm. */
  lemma {:induction false} ParseClockOf(hh: string, mm: string)
    requires AllDigits(hh) && AllDigits(mm)
    ensures ParseClock(hh + ":" + mm) == Some(DecimalValue(hh) * 60 + DecimalValue(mm))
  {
    SplitClock(hh, mm);
  }

  lemma {:induction false} SplitClock(hh: string, mm: string)
    requires AllDigits(hh) && AllDigits(mm)
    ensures Split(hh + ":" + mm, ":") == [hh, mm]
  {
    NoColonInDigits(hh);
    NoColonInDigits(mm);
    SplitAtSeparator(hh, ":", mm);
    SplitWithoutSeparator(mm, ":");
  }

  lemma {:induction false} NoColonInDigits(s: string)
    requires AllDigits(s)
    ensures forall i :: 0 <= i < |s| ==> s[i] != ":"[0]
  {
    forall i | 0 <= i < |s| ensures s[i] != ":"[0] { assert IsDigit(s[i]); }
  }

  /** An entry "o - c" is read as the pair of its two clock readings. */
  lemma {:induction false} ParseHoursOf(o: string, c: string)
    requires forall i :: 0 <= i < |o| ==> o[i] != ' '
    requires forall i :: 0 <= i < |c| ==> c[i] != ' '
    ensures ParseHours(o + " - " + c) ==
      match (ParseClock(o), ParseClock(c))
      case (Some(x), Some(y)) => Some((x, y))
      case _ => None
  {
    SplitAtSeparator(o, " - ", c);
    SplitWithoutSeparator(c, " - ");
  }

  /** "hh:00 - HH:00", read with two-digit hours, gives the pair of whole hours in minutes. */
  lemma {:induction false} RangeOf(o1: char, o2: char, c1: char, c2: char)
    requires IsDigit(o1) && IsDigit(o2) && IsDigit(c1) && IsDigit(c2)
    ensures ParseHours([o1, o2] + ":00" + " - " + [c1, c2] + ":00") ==
      Some((DecimalValue([o1, o2]) * 60, DecimalValue([c1, c2]) * 60))
  {
    var o := [o1, o2] + ":00";
    var c := [c1, c2] + ":00";
    assert o == [o1, o2] + ":" + "00";
    assert c == [c1, c2] + ":" + "00";
    assert DecimalValue("00") == 0 by {
      assert "00"[..1] == "0";
    }
    ParseClockOf([o1, o2], "00");
    ParseClockOf([c1, c2], "00");
    assert forall i :: 0 <= i < |o| ==> o[i] != ' ' by {
      forall i | 0 <= i < |o| ensures o[i] != ' ' { assert i < 2 ==> IsDigit(o[i]); }
    }
    assert forall i :: 0 <= i < |c| ==> c[i] != ' ' by {
      forall i | 0 <= i < |c| ensures c[i] != ' ' { assert i < 2 ==> IsDigit(c[i]); }
    }
    assert ParseClock(o) == Some(DecimalValue([o1, o2]) * 60);
    assert ParseClock(c) == Some(DecimalValue([c1, c2]) * 60);
    ParseHoursOf(o, c);
    assert o + " - " + c == [o1, o2] + ":00" + " - " + [c1, c2] + ":00";
  }

  /** The weekday entry reads as minutes 660 to 1320. */
  lemma {:induction false} WeekdayRange(hours: string)
    requires hours == "11:00 - 22:00"
    ensures ParseHours(hours) == Some((660, 1320))
  {
    RangeOf('1', '1', '2', '2');
    assert hours == ['1', '1'] + ":00" + " - " + ['2', '2'] + ":00";
    assert DecimalValue(['1', '1']) == 11 && DecimalValue(['2', '2']) == 22;
  }

  /** The Saturday entry reads as minutes 600 to 1380. */
  lemma {:induction false} SaturdayRange(hours: string)
    requires hours == "10:00 - 23:00"
    ensures ParseHours(hours) == Some((600, 1380))
  {
    RangeOf('1', '0', '2', '3');
    assert hours == ['1', '0'] + ":00" + " - " + ['2', '3'] + ":00";
    assert DecimalValue(['1', '0']) == 10 && DecimalValue(['2', '3']) == 23;
  }

  /** The Sunday entry reads as minutes 600 to 1260. */
  lemma {:induction false} SundayRange(hours: string)
    requires hours == "10:00 - 21:00"
    ensures ParseHours(hours) == Some((600, 1260))
  {
    RangeOf('1', '0', '2', '1');
    assert hours == ['1', '0'] + ":00" + " - " + ['2', '1'] + ":00";
    assert DecimalValue(['1', '0']) == 10 && DecimalValue(['2', '1']) == 21;
  }

  /** Monday to Friday the restaurant is open from minute 660 (11:00) up to, not including, minute 1320 (22:00). */
  lemma {:induction false} WeekdayHours(dayOfWeek: int, hour: int, minute: int)
    requires 1 <= dayOfWeek <= 5
    ensures IsOpenAt(dayOfWeek, hour, minute) <==> 660 <= Minutes(hour, minute) < 1320
  {
    var hours := HoursFor(dayOfWeek).value;
    assert HoursFor(dayOfWeek) == Some("11:00 - 22:00");
    WeekdayRange(hours);
  }

  /** Saturday: open from minute 600 (10:00) up to, not including, minute 1380 (23:00). */
  lemma {:induction false} SaturdayHours(hour: int, minute: int)
    ensures IsOpenAt(6, hour, minute) <==> 600 <= Minutes(hour, minute) < 1380
  {
    var hours := HoursFor(6).value;
    assert HoursFor(6) == Some("10:00 - 23:00");
    SaturdayRange(hours);
  }

  /** Sunday: open from minute 600 (10:00) up to, not including, minute 1260 (21:00). */
  lemma {:induction false} SundayHours(hour: int, minute: int)
    ensures IsOpenAt(0, hour, minute) <==> 600 <= Minutes(hour, minute) < 1260
  {
    var hours := HoursFor(0).value;
    assert HoursFor(0) == Some("10:00 - 21:00");
    SundayRange(hours);
  }

  /** A day index outside 0..6 has no name, hence no entry, and is closed. */
  lemma UnknownDayClosed(dayOfWeek: int, hour: int, minute: int)
    requires dayOfWeek < 0 || dayOfWeek > 6
    ensures HoursFor(dayOfWeek) == None && !IsOpenAt(dayOfWeek, hour, minute)
  {
  }

  /** The hook's state: the last result of the check and its status text. */
  class OpeningHoursHook {
    var isOpen: bool
    var currentStatus: string

    constructor ()
      ensures !isOpen && currentStatus == ""
    {
      isOpen := false;
      currentStatus := "";
    }

    /** One run of the check: compute, store both results, return the boolean. */
    method CheckIfOpen(dayOfWeek: int, hour: int, minute: int) returns (result: bool)
      modifies this
      ensures result == IsOpenAt(dayOfWeek, hour, minute)
      ensures isOpen == result && currentStatus == Status(result)
    {
      var currentTime := Minutes(hour, minute);
      var hours := HoursFor(dayOfWeek);
      if hours.None? {
        isOpen, currentStatus := false, ClosedStatus;
        return false;
      }
      var range := ParseHours(hours.value);
      var isCurrentlyOpen := range.Some? && range.value.0 <= currentTime < range.value.1;
      isOpen := isCurrentlyOpen;
      currentStatus := if isCurrentlyOpen then OpenStatus else ClosedStatus;
      result := isCurrentlyOpen;
    }
  }
}
