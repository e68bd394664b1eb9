/** The strict timestamp grammar of public requests, its reader and its printer. */
module IsoDate {
  import opened Wrappers
  import opened Calendar
  import opened Numerals

  datatype Zone = Utc | Offset(negative: bool, hour: nat, minute: nat)

  /** The parts of a timestamp text; the milliseconds may be left out. */
  datatype Stamp = Stamp(
    year: nat, month: nat, day: nat, hour: nat, minute: nat, second: nat, millisecond: Option<nat>, zone: Zone)

  // ---------- fields ----------

  /** A number printed with leading zeros. */
  function Pad(n: nat, width: nat): string {
    Padded(n, Decimal, width)
  }

  lemma PadReads(n: nat, width: nat)
    requires n < Power(Decimal, width)
    ensures |Pad(n, width)| == width && AllDigits(Pad(n, width), Decimal) && Value(Pad(n, width), Decimal) == n
  {
    PaddedReads(n, Decimal, width);
  }

  /** A field of fixed width with a value in a range. */
  function Field(s: string, low: nat, high: nat): Option<nat> {
    if AllDigits(s, Decimal) && low <= Value(s, Decimal) <= high then Some(Value(s, Decimal)) else None
  }

  lemma FieldIsPad(s: string, width: nat, low: nat, high: nat, n: nat)
    requires high < Power(Decimal, width)
    ensures |s| == width && Field(s, low, high) == Some(n) <==> low <= n <= high && s == Pad(n, width)
  {
    if low <= n <= high {
      PadReads(n, width);
    }
    if AllDigits(s, Decimal) {
      ReadIsPadded(s, Decimal);
    }
  }

  lemma Powers()
    ensures Power(Decimal, 2) == 100 && Power(Decimal, 3) == 1000 && Power(Decimal, 4) == 10000
  {
    assert Power(Decimal, 1) == 10;
    assert Power(Decimal, 2) == 100;
    assert Power(Decimal, 3) == 1000;
  }

  // ---------- the grammar ----------

  function MatchZone(z: string): Option<Zone> {
    if z == "Z" then Some(Utc)
    else if |z| != 6 || (z[0] != '+' && z[0] != '-') || z[3] != ':' then None
    else match (Field(z[1..3], 0, 23), Field(z[4..6], 0, 59))
      case (Some(h), Some(m)) => Some(Offset(z[0] == '-', h, m))
      case _ => None
  }

  function PrintZone(zone: Zone): string {
    match zone
    case Utc => "Z"
    case Offset(negative, h, m) => [if negative then '-' else '+'] + Pad(h, 2) + [':'] + Pad(m, 2)
  }

  predicate ZoneOk(zone: Zone) {
    zone.Offset? ==> zone.hour <= 23 && zone.minute <= 59
  }

  /** What follows the seconds: optional milliseconds, then the zone. */
  function MatchTail(s: string): Option<(Option<nat>, Zone)> {
    if |s| > 0 && s[0] == '.' then
      if |s| < 4 then None
      else match (Field(s[1..4], 0, 999), MatchZone(s[4..]))
        case (Some(ms), Some(zone)) => Some((Some(ms), zone))
        case _ => None
    else if MatchZone(s).Some? then Some((None, MatchZone(s).value)) else None
  }

  function PrintTail(ms: Option<nat>, zone: Zone): string {
    (if ms.Some? then ['.'] + Pad(ms.value, 3) else []) + PrintZone(zone)
  }

  /** The first 19 characters: date, 'T' and time of day. */
  function MatchHead(s: string): Option<(nat, nat, nat, nat, nat, nat)>
    requires |s| == 19
  {
    if s[4] != '-' || s[7] != '-' || s[10] != 'T' || s[13] != ':' || s[16] != ':' then None
    else
      var y := Field(s[0..4], 0, 9999);
      var mo := Field(s[5..7], 1, 12);
      var d := Field(s[8..10], 1, 31);
      var h := Field(s[11..13], 0, 23);
      var mi := Field(s[14..16], 0, 59);
      var se := Field(s[17..19], 0, 59);
      if y.Some? && mo.Some? && d.Some? && h.Some? && mi.Some? && se.Some?
      then Some((y.value, mo.value, d.value, h.value, mi.value, se.value)) else None
  }

  function PrintHead(y: nat, mo: nat, d: nat, h: nat, mi: nat, se: nat): string {
    Pad(y, 4) + ['-'] + Pad(mo, 2) + ['-'] + Pad(d, 2) + ['T'] + Pad(h, 2) + [':'] + Pad(mi, 2) + [':'] + Pad(se, 2)
  }

  function Match(s: string): (r: Option<Stamp>)
    ensures r.Some? ==> InGrammar(r.value)
  {
    if |s| < 19 then None
    else match (MatchHead(s[..19]), MatchTail(s[19..]))
      case (Some((y, mo, d, h, mi, se)), Some((ms, zone))) => Some(Stamp(y, mo, d, h, mi, se, ms, zone))
      case _ => None
  }

  function Print(f: Stamp): string {
    PrintHead(f.year, f.month, f.day, f.hour, f.minute, f.second) + PrintTail(f.millisecond, f.zone)
  }

  predicate HeadOk(y: nat, mo: nat, d: nat, h: nat, mi: nat, se: nat) {
    y <= 9999 && 1 <= mo <= 12 && 1 <= d <= 31 && h <= 23 && mi <= 59 && se <= 59
  }

  /** The ranges of the grammar; a day up to 31 is allowed in any month. */
  predicate InGrammar(f: Stamp) {
    && HeadOk(f.year, f.month, f.day, f.hour, f.minute, f.second)
    && (f.millisecond.Some? ==> f.millisecond.value <= 999)
    && ZoneOk(f.zone)
  }

  // ---------- the reader ----------

  function OffsetMinutes(zone: Zone): int {
    match zone
    case Utc => 0
    case Offset(negative, h, m) => (if negative then -1 else 1) * (h * 60 + m)
  }

  /** Date.UTC takes the years 0 to 99 for 1900 to 1999. */
  function UtcYear(year: nat): nat {
    if year <= 99 then 1900 + year else year
  }

  function MsOf(f: Stamp): nat {
    if f.millisecond.Some? then f.millisecond.value else 0
  }

  function LocalClock(f: Stamp): Clock {
    Clock(Date(f.year, f.month, f.day), f.hour, f.minute, f.second, MsOf(f))
  }

  function DateUtc(f: Stamp): int
    requires InGrammar(f)
  {
    MakeTime(LocalClock(f).(date := Date(UtcYear(f.year), f.month, f.day)))
  }

  function ParseIsoDate(s: string): Option<int> {
    var f := Match(s);
    if f.None? then None
    else
      var offset := OffsetMinutes(f.value.zone) * MS_PER_MINUTE;
      var timestamp := DateUtc(f.value) - offset;
      if ClockOf(timestamp + offset) == LocalClock(f.value) then Some(timestamp) else None
  }

  // ---------- the text of a grammar ----------

  lemma OffsetPrinted(sign: char, h: string, m: string)
    requires |h| == |m| == 2
    ensures var s := [sign] + h + [':'] + m;
            |s| == 6 && s[0] == sign && s[1..3] == h && s[3] == ':' && s[4..6] == m
  {
  }

  lemma OffsetSlices(z: string)
    requires |z| == 6
    ensures z == [z[0]] + z[1..3] + [z[3]] + z[4..6]
  {
  }

  lemma OffsetText(z: string, negative: bool, h: nat, m: nat)
    ensures MatchZone(z) == Some(Offset(negative, h, m))
            <==> h <= 23 && m <= 59 && z == [if negative then '-' else '+'] + Pad(h, 2) + [':'] + Pad(m, 2)
  {
    hide Field, Pad;
    Powers();
    if h <= 23 && m <= 59 {
      PadReads(h, 2);
      PadReads(m, 2);
      OffsetPrinted(if negative then '-' else '+', Pad(h, 2), Pad(m, 2));
    }
    if |z| == 6 {
      FieldIsPad(z[1..3], 2, 0, 23, h);
      FieldIsPad(z[4..6], 2, 0, 59, m);
      OffsetSlices(z);
    }
  }

  lemma ZoneText(z: string, zone: Zone)
    ensures MatchZone(z) == Some(zone) <==> ZoneOk(zone) && z == PrintZone(zone)
  {
    hide Field, Pad;
    if zone.Offset? {
      OffsetText(z, zone.negative, zone.hour, zone.minute);
    }
  }

  lemma ZoneStarts(zone: Zone)
    ensures PrintZone(zone) != [] && PrintZone(zone)[0] != '.'
  {
  }

  lemma TailText(s: string, ms: Option<nat>, zone: Zone)
    ensures MatchTail(s) == Some((ms, zone))
            <==> (ms.Some? ==> ms.value <= 999) && ZoneOk(zone) && s == PrintTail(ms, zone)
  {
    hide MatchZone, PrintZone, Field, Pad, ZoneOk;
    Powers();
    ZoneStarts(zone);
    ZoneText(s, zone);
    if ms.Some? {
      if ms.value <= 999 {
        PadReads(ms.value, 3);
        var p := PrintTail(ms, zone);
        assert p[1..4] == Pad(ms.value, 3) && p[4..] == PrintZone(zone);
      }
      if |s| >= 4 {
        FieldIsPad(s[1..4], 3, 0, 999, ms.value);
        ZoneText(s[4..], zone);
        assert s == [s[0]] + s[1..4] + s[4..];
      }
    } else {
      assert PrintTail(ms, zone) == PrintZone(zone);
    }
  }

  lemma HeadSlices(s: string)
    requires |s| == 19
    ensures s == s[0..4] + [s[4]] + s[5..7] + [s[7]] + s[8..10] + [s[10]] + s[11..13] + [s[13]] + s[14..16] + [s[16]] + s[17..19]
  {
  }

  lemma HeadPrinted(a: string, b: string, c: string, d: string, e: string, f: string)
    requires |a| == 4 && |b| == |c| == |d| == |e| == |f| == 2
    ensures var s := a + ['-'] + b + ['-'] + c + ['T'] + d + [':'] + e + [':'] + f;
            && |s| == 19
            && s[0..4] == a && s[5..7] == b && s[8..10] == c && s[11..13] == d && s[14..16] == e && s[17..19] == f
            && s[4] == '-' && s[7] == '-' && s[10] == 'T' && s[13] == ':' && s[16] == ':'
  {
  }

  lemma HeadText(s: string, y: nat, mo: nat, d: nat, h: nat, mi: nat, se: nat)
    ensures HeadOk(y, mo, d, h, mi, se) ==> |PrintHead(y, mo, d, h, mi, se)| == 19
    ensures |s| == 19 && MatchHead(s) == Some((y, mo, d, h, mi, se))
            <==> HeadOk(y, mo, d, h, mi, se) && s == PrintHead(y, mo, d, h, mi, se)
  {
    hide Field, Pad;
    Powers();
    if HeadOk(y, mo, d, h, mi, se) {
      PadReads(y, 4);
      PadReads(mo, 2);
      PadReads(d, 2);
      PadReads(h, 2);
      PadReads(mi, 2);
      PadReads(se, 2);
      HeadPrinted(Pad(y, 4), Pad(mo, 2), Pad(d, 2), Pad(h, 2), Pad(mi, 2), Pad(se, 2));
    }
    if |s| == 19 {
      FieldIsPad(s[0..4], 4, 0, 9999, y);
      FieldIsPad(s[5..7], 2, 1, 12, mo);
      FieldIsPad(s[8..10], 2, 1, 31, d);
      FieldIsPad(s[11..13], 2, 0, 23, h);
      FieldIsPad(s[14..16], 2, 0, 59, mi);
      FieldIsPad(s[17..19], 2, 0, 59, se);
      HeadSlices(s);
    }
  }

  /** A text matches the grammar as some parts exactly if they are in range and print as that text. */
  lemma MatchIsPrint(s: string, f: Stamp)
    ensures Match(s) == Some(f) <==> InGrammar(f) && s == Print(f)
  {
    hide MatchHead, MatchTail, PrintHead, PrintTail, HeadOk, ZoneOk;
    var head := PrintHead(f.year, f.month, f.day, f.hour, f.minute, f.second);
    HeadText(if |s| >= 19 then s[..19] else s, f.year, f.month, f.day, f.hour, f.minute, f.second);
    if |s| >= 19 {
      TailText(s[19..], f.millisecond, f.zone);
      assert s == s[..19] + s[19..];
    }
    if InGrammar(f) && s == Print(f) {
      assert s[..19] == head && s[19..] == PrintTail(f.millisecond, f.zone);
    }
  }

  // ---------- main results ----------

  /** The instant that a timestamp names: its local time of day after the start of its date, less the zone's offset. */
  function Names(f: Stamp): int
    requires 1 <= f.month <= 12
  {
    var local := 86_400_000 * MakeDay(Date(f.year, f.month, f.day)) + 3_600_000 * f.hour + 60_000 * f.minute + 1_000 * f.second
                 + if f.millisecond.Some? then f.millisecond.value else 0;
    match f.zone
    case Utc => local
    case Offset(negative, h, m) => if negative then local + 3_600_000 * h + 60_000 * m else local - (3_600_000 * h + 60_000 * m)
  }

  lemma NamesIsLocal(f: Stamp)
    requires 1 <= f.month <= 12
    ensures Names(f) == MakeTime(LocalClock(f)) - OffsetMinutes(f.zone) * MS_PER_MINUTE
  {
    hide MakeDay;
  }

  function Character(n: nat): char {
    "0123456789"[n % 10]
  }

  function Two(n: nat): string {
    [Character(n / 10), Character(n)]
  }

  /** The text of parts in range, character by character. */
  lemma PrintedText(f: Stamp)
    requires InGrammar(f)
    ensures Print(f)
            == [Character(f.year / 1000), Character(f.year / 100)] + Two(f.year) + "-" + Two(f.month) + "-" + Two(f.day) + "T"
               + Two(f.hour) + ":" + Two(f.minute) + ":" + Two(f.second)
               + (if f.millisecond.None? then "" else "." + [Character(f.millisecond.value / 100)] + Two(f.millisecond.value))
               + (match f.zone
                  case Utc => "Z"
                  case Offset(negative, h, m) => (if negative then "-" else "+") + Two(h) + ":" + Two(m))
  {
    hide Pad, Two, PrintHead, PrintTail;
    PrintedHead(f);
    PrintedTail(f);
  }

  lemma PrintedHead(f: Stamp)
    requires InGrammar(f)
    ensures PrintHead(f.year, f.month, f.day, f.hour, f.minute, f.second)
            == [Character(f.year / 1000), Character(f.year / 100)] + Two(f.year) + "-" + Two(f.month) + "-" + Two(f.day) + "T"
               + Two(f.hour) + ":" + Two(f.minute) + ":" + Two(f.second)
  {
    hide Pad, Two;
    PaddedTwo(f.month);
    PaddedTwo(f.day);
    PaddedTwo(f.hour);
    PaddedTwo(f.minute);
    PaddedTwo(f.second);
    PaddedMore(f.year);
  }

  lemma PrintedTail(f: Stamp)
    requires InGrammar(f)
    ensures PrintTail(f.millisecond, f.zone)
            == (if f.millisecond.None? then "" else "." + [Character(f.millisecond.value / 100)] + Two(f.millisecond.value))
               + (match f.zone
                  case Utc => "Z"
                  case Offset(negative, h, m) => (if negative then "-" else "+") + Two(h) + ":" + Two(m))
  {
    hide Pad, Two;
    if f.millisecond.Some? {
      PaddedMore(f.millisecond.value);
    }
    if f.zone.Offset? {
      PaddedTwo(f.zone.hour);
      PaddedTwo(f.zone.minute);
    }
  }

  lemma DigitIsCharacter(n: nat)
    ensures Digit(Remainder(n, Decimal), Decimal) == Character(n)
  {
  }

  lemma PaddedTwo(n: nat)
    ensures Pad(n, 2) == Two(n)
  {
    DigitIsCharacter(n);
    DigitIsCharacter(n / 10);
    assert Padded(n / 100, Decimal, 0) == [];
    assert Padded(n / 10, Decimal, 1) == Padded(Quotient(n / 10, Decimal), Decimal, 0) + [Character(n / 10)];
    assert Padded(n, Decimal, 2) == Padded(Quotient(n, Decimal), Decimal, 1) + [Character(n)];
  }

  lemma PaddedMore(n: nat)
    ensures Pad(n, 3) == [Character(n / 100)] + Two(n)
    ensures Pad(n, 4) == [Character(n / 1000), Character(n / 100)] + Two(n)
  {
    PaddedTwo(n / 10);
    PaddedTwo(n / 100);
    DigitIsCharacter(n);
    DigitIsCharacter(n / 10);
    assert n / 10 / 10 == n / 100 && n / 100 / 10 == n / 1000;
    assert Padded(n, Decimal, 3) == Padded(Quotient(n, Decimal), Decimal, 2) + [Character(n)];
    assert Padded(n / 10, Decimal, 3) == Padded(Quotient(n / 10, Decimal), Decimal, 2) + [Character(n / 10)];
    assert Padded(n, Decimal, 4) == Padded(Quotient(n, Decimal), Decimal, 3) + [Character(n)];
  }

  /** Main result: a text is read as an instant exactly if it is the text of parts in range with a date that is
      on the calendar and a year from 100 on, and the instant is the one they name. */
  lemma AcceptsExactlyRealDates(s: string, t: int)
    ensures ParseIsoDate(s) == Some(t)
            <==> exists f: Stamp ::
                   InGrammar(f) && f.year >= 100 && RealDate(Date(f.year, f.month, f.day)) && s == Print(f) && t == Names(f)
  {
    hide Match, Print, MakeTime, ClockOf, RealDate;
    var matched := Match(s);
    if matched.Some? {
      MatchIsPrint(s, matched.value);
      ReadValue(s, matched.value);
    }
    forall f: Stamp | InGrammar(f) && s == Print(f) ensures matched == Some(f) {
      MatchIsPrint(s, f);
    }
  }

  /** What the reader makes of parts in range. */
  lemma ReadValue(s: string, f: Stamp)
    requires Match(s) == Some(f)
    ensures ParseIsoDate(s) == if f.year >= 100 && RealDate(Date(f.year, f.month, f.day)) then Some(Names(f)) else None
  {
    hide Match, MakeTime, ClockOf, Names;
    NamesIsLocal(f);
    var utc := LocalClock(f).(date := Date(UtcYear(f.year), f.month, f.day));
    ClockReadsBackExactly(utc);
    if f.year <= 99 {
      TimeOfItsClock(DateUtc(f));
      NineteenCenturiesApart(LocalClock(f), utc);
    }
  }

  lemma NineteenCenturiesApart(x: Clock, y: Clock)
    requires RealOrLonger(x.date) && y == x.(date := x.date.(year := x.date.year + 1900))
    ensures MakeTime(x) < MakeTime(y)
  {
    hide DayFromYear;
    YearsGrow(x.date.year, y.date.year);
  }

  /** A month and a day of some month, perhaps not of this one. */
  predicate RealOrLonger(d: Date) {
    1 <= d.month <= 12 && 1 <= d.day <= 31
  }

  /** The parts of an instant seen from a zone. */
  function PartsOf(t: int, zone: Zone): Clock {
    ClockOf(t + OffsetMinutes(zone) * MS_PER_MINUTE)
  }

  function StampOf(c: Clock, zone: Zone): Stamp
    requires c.date.year >= 0 && c.date.month >= 0 && c.date.day >= 0
    requires c.hour >= 0 && c.minute >= 0 && c.second >= 0 && c.ms >= 0
  {
    Stamp(c.date.year, c.date.month, c.date.day, c.hour, c.minute, c.second, Some(c.ms), zone)
  }

  /** Main result: an instant printed in any zone, with a local year that has four digits and is not below 100,
      is read back as the same instant. */
  lemma PrintThenParse(t: int, zone: Zone)
    requires ZoneOk(zone) && 100 <= PartsOf(t, zone).date.year <= 9999
    ensures RealDate(PartsOf(t, zone).date) && OnTheClock(PartsOf(t, zone))
    ensures ParseIsoDate(Print(StampOf(PartsOf(t, zone), zone))) == Some(t)
  {
    hide Match, Print, MakeTime, ClockOf, RealDate;
    var c := PartsOf(t, zone);
    TimeOfItsClock(t + OffsetMinutes(zone) * MS_PER_MINUTE);
    MonthsAreShort(c.date);
    var f := StampOf(c, zone);
    NamesIsLocal(f);
    MatchIsPrint(Print(f), f);
    ReadValue(Print(f), f);
  }

  lemma MonthsAreShort(d: Date)
    requires RealDate(d)
    ensures 1 <= d.month <= 12 && 1 <= d.day <= 31
  {
  }

  /** No timestamp of the years 0 to 99 is accepted, although the grammar allows them and their dates exist. */
  lemma FirstCenturyIsRejected(f: Stamp)
    requires InGrammar(f) && f.year < 100
    ensures Match(Print(f)) == Some(f) && ParseIsoDate(Print(f)) == None
  {
    hide Match, Print, MakeTime, ClockOf;
    MatchIsPrint(Print(f), f);
    ReadValue(Print(f), f);
  }
}
