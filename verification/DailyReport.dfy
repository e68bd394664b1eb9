/** The daily report log: one row a day, claimed under a lease, and the retention that follows it. */
module DailyReport {
  import opened Wrappers

  type Instant = int
  /** A UTC calendar date, as a day number. */
  type Day = int
  type Token = nat

  const DAY_MS := 24 * 60 * 60_000
  const LEASE_MS := 15 * 60_000

  function DayOf(t: Instant): Day {
    t / DAY_MS
  }

  function StartOf(d: Day): Instant {
    d * DAY_MS
  }

  function LatestCompleted(now: Instant): Day {
    DayOf(now) - 1
  }

  datatype Status = Pending | Delivered

  datatype ReportRow = ReportRow(
    date: Day, status: Status, token: Token, leaseExpires: Instant, attemptedAt: Instant, deliveredAt: Option<Instant>)

  // ---------- the next date ----------

  /** The rows are in date order. The query keeps those up to a date. */
  function UpTo(rows: seq<ReportRow>, latest: Day): seq<ReportRow> {
    if rows == [] then []
    else (if rows[0].date <= latest then [rows[0]] else []) + UpTo(rows[1..], latest)
  }

  function FirstPending(rows: seq<ReportRow>): Option<Day> {
    if rows == [] then None
    else if rows[0].status == Pending then Some(rows[0].date)
    else FirstPending(rows[1..])
  }

  function LastDelivered(rows: seq<ReportRow>): Option<Day> {
    if rows == [] then None
    else if rows[|rows| - 1].status == Delivered then Some(rows[|rows| - 1].date)
    else LastDelivered(rows[..|rows| - 1])
  }

  function NotAfter(date: Option<Day>, latest: Day): Option<Day> {
    if date.Some? && date.value <= latest then date else None
  }

  /** The earlier of the first pending date and the day after the last delivered one, as far as these are
      completed days; otherwise the latest completed day. */
  function NextFrom(first: Option<Day>, last: Option<Day>, latest: Day): Day {
    var pending := NotAfter(first, latest);
    var following := NotAfter(if last.Some? then Some(last.value + 1) else None, latest);
    match (pending, following)
    case (Some(p), Some(f)) => if p <= f then p else f
    case (Some(p), None) => p
    case (None, Some(f)) => f
    case (None, None) => latest
  }

  function NextReportDate(rows: seq<ReportRow>, latest: Day): Day {
    NextFrom(FirstPending(UpTo(rows, latest)), LastDelivered(UpTo(rows, latest)), latest)
  }

  // ---------- the table ----------

  function Position(rows: seq<ReportRow>, date: Day): (i: nat)
    ensures i <= |rows|
    ensures i < |rows| ==> rows[i].date >= date
    ensures forall j :: 0 <= j < i ==> rows[j].date < date
  {
    if rows == [] || rows[0].date >= date then 0 else 1 + Position(rows[1..], date)
  }

  predicate HasDate(rows: seq<ReportRow>, date: Day) {
    Position(rows, date) < |rows| && rows[Position(rows, date)].date == date
  }

  predicate ClaimSucceeds(rows: seq<ReportRow>, date: Day, now: Instant) {
    HasDate(rows, date) ==>
      rows[Position(rows, date)].status == Pending && rows[Position(rows, date)].leaseExpires <= now
  }

  function LeasedRow(date: Day, token: Token, now: Instant): ReportRow {
    ReportRow(date, Pending, token, now + LEASE_MS, now, None)
  }

  function ClaimDelivery(rows: seq<ReportRow>, date: Day, token: Token, now: Instant): seq<ReportRow> {
    var i := Position(rows, date);
    if !ClaimSucceeds(rows, date, now) then rows
    else if HasDate(rows, date) then rows[i := LeasedRow(date, token, now)]
    else rows[..i] + [LeasedRow(date, token, now)] + rows[i..]
  }

  predicate HoldsLease(rows: seq<ReportRow>, date: Day, token: Token) {
    HasDate(rows, date) && rows[Position(rows, date)].status == Pending && rows[Position(rows, date)].token == token
  }

  function ReleaseDelivery(rows: seq<ReportRow>, date: Day, token: Token, now: Instant): seq<ReportRow> {
    if HoldsLease(rows, date, token)
    then rows[Position(rows, date) := rows[Position(rows, date)].(leaseExpires := now)] else rows
  }

  function CompleteDelivery(rows: seq<ReportRow>, date: Day, token: Token, now: Instant): seq<ReportRow> {
    if HoldsLease(rows, date, token)
    then rows[Position(rows, date) := rows[Position(rows, date)].(status := Delivered, deliveredAt := Some(now))] else rows
  }

  method FindPending(rows: seq<ReportRow>) returns (date: Option<Day>)
    ensures date == FirstPending(rows)
  {
    for i := 0 to |rows|
      invariant FirstPending(rows) == FirstPending(rows[i..])
    {
      if rows[i].status == Pending {
        return Some(rows[i].date);
      }
      assert rows[i..][1..] == rows[i + 1..];
    }
    date := None;
  }

  method FindDelivered(rows: seq<ReportRow>) returns (date: Option<Day>)
    ensures date == LastDelivered(rows)
  {
    assert rows[..|rows|] == rows;
    for n := |rows| downto 0
      invariant LastDelivered(rows) == LastDelivered(rows[..n])
    {
      assert rows[..n + 1][..n] == rows[..n];
      if rows[n].status == Delivered {
        return Some(rows[n].date);
      }
    }
    date := None;
  }

  class ReportTable {
    var rows: seq<ReportRow>

    constructor ()
      ensures rows == []
    {
      rows := [];
    }

    method ResolveNext(now: Instant) returns (date: Day)
      ensures date == NextReportDate(rows, LatestCompleted(now))
    {
      hide UpTo, FirstPending, LastDelivered;
      var latest := LatestCompleted(now);
      var visible := UpTo(rows, latest);
      var pending := FindPending(visible);
      var last := FindDelivered(visible);
      date := latest;
      if last.Some? && last.value + 1 <= latest {
        date := last.value + 1;
      }
      if pending.Some? && pending.value <= date {
        date := pending.value;
      }
    }

    method Locate(date: Day) returns (i: nat)
      ensures i == Position(rows, date)
    {
      i := 0;
      while i < |rows| && rows[i].date < date
        invariant 0 <= i <= |rows|
        invariant Position(rows, date) == i + Position(rows[i..], date)
      {
        i := i + 1;
      }
    }

    method Claim(date: Day, token: Token, now: Instant) returns (claimed: bool)
      modifies this
      ensures rows == ClaimDelivery(old(rows), date, token, now)
      ensures claimed == ClaimSucceeds(old(rows), date, now)
      ensures claimed ==> HoldsLease(rows, date, token)
    {
      var i := Locate(date);
      claimed := true;
      if i < |rows| && rows[i].date == date {
        claimed := rows[i].status == Pending && rows[i].leaseExpires <= now;
        if claimed {
          ReplacedPosition(rows, date, LeasedRow(date, token, now));
          rows := rows[i := LeasedRow(date, token, now)];
        }
      } else {
        InsertedPosition(rows, date, LeasedRow(date, token, now));
        rows := rows[..i] + [LeasedRow(date, token, now)] + rows[i..];
      }
    }

    method Release(date: Day, token: Token, now: Instant)
      modifies this
      ensures rows == ReleaseDelivery(old(rows), date, token, now)
    {
      var i := Locate(date);
      if i < |rows| && rows[i].date == date && rows[i].status == Pending && rows[i].token == token {
        rows := rows[i := rows[i].(leaseExpires := now)];
      }
    }

    /** False stands for the error the source throws when no row changed. */
    method Complete(date: Day, token: Token, now: Instant) returns (persisted: bool)
      modifies this
      ensures rows == CompleteDelivery(old(rows), date, token, now)
      ensures persisted == HoldsLease(old(rows), date, token)
    {
      var i := Locate(date);
      persisted := i < |rows| && rows[i].date == date && rows[i].status == Pending && rows[i].token == token;
      if persisted {
        rows := rows[i := rows[i].(status := Delivered, deliveredAt := Some(now))];
      }
    }
  }

  lemma {:induction false} PositionIs(rows: seq<ReportRow>, date: Day, i: nat)
    requires i <= |rows| && (forall j :: 0 <= j < i ==> rows[j].date < date) && (i < |rows| ==> rows[i].date >= date)
    ensures Position(rows, date) == i
  {
    if i > 0 {
      PositionIs(rows[1..], date, i - 1);
    }
  }

  lemma ReplacedPosition(rows: seq<ReportRow>, date: Day, row: ReportRow)
    requires HasDate(rows, date) && row.date == date
    ensures Position(rows[Position(rows, date) := row], date) == Position(rows, date)
  {
    PositionIs(rows[Position(rows, date) := row], date, Position(rows, date));
  }

  lemma InsertedPosition(rows: seq<ReportRow>, date: Day, row: ReportRow)
    requires row.date == date
    ensures var i := Position(rows, date);
            Position(rows[..i] + [row] + rows[i..], date) == i
  {
    var i := Position(rows, date);
    PositionIs(rows[..i] + [row] + rows[i..], date, i);
  }

  // ---------- one row for each date ----------

  predicate Ascending(rows: seq<ReportRow>) {
    forall i, j :: 0 <= i < j < |rows| ==> rows[i].date < rows[j].date
  }

  function RowOn(rows: seq<ReportRow>, date: Day): Option<ReportRow> {
    if HasDate(rows, date) then Some(rows[Position(rows, date)]) else None
  }

  lemma RewrittenRows(rows: seq<ReportRow>, i: nat, row: ReportRow, d: Day)
    requires Ascending(rows) && i < |rows| && row.date == rows[i].date
    ensures Ascending(rows[i := row])
    ensures RowOn(rows[i := row], d) == if d == row.date then Some(row) else RowOn(rows, d)
  {
    var after := rows[i := row];
    assert forall j :: 0 <= j < |rows| ==> after[j].date == rows[j].date;
    PositionIs(after, d, Position(rows, d));
    PositionIs(rows, row.date, i);
  }

  function Inserted(rows: seq<ReportRow>, row: ReportRow): seq<ReportRow> {
    rows[..Position(rows, row.date)] + [row] + rows[Position(rows, row.date)..]
  }

  lemma AfterPosition(rows: seq<ReportRow>, date: Day)
    requires Ascending(rows) && !HasDate(rows, date)
    ensures forall j :: Position(rows, date) <= j < |rows| ==> rows[j].date > date
  {
    var i := Position(rows, date);
    assert forall j :: i < j < |rows| ==> rows[i].date < rows[j].date;
  }

  lemma InsertedAt(rows: seq<ReportRow>, row: ReportRow)
    requires Ascending(rows) && !HasDate(rows, row.date)
    ensures var i := Position(rows, row.date);
            var after := Inserted(rows, row);
            && |after| == |rows| + 1 && after[i] == row
            && (forall j :: 0 <= j < i ==> after[j] == rows[j] && rows[j].date < row.date)
            && (forall j :: i < j < |after| ==> after[j] == rows[j - 1] && rows[j - 1].date > row.date)
  {
    AfterPosition(rows, row.date);
    hide Position, HasDate, Ascending;
  }

  lemma InsertedAscends(rows: seq<ReportRow>, row: ReportRow)
    requires Ascending(rows) && !HasDate(rows, row.date)
    ensures Ascending(Inserted(rows, row))
  {
    hide Inserted, HasDate;
    InsertedAt(rows, row);
  }

  lemma InsertedRows(rows: seq<ReportRow>, row: ReportRow, d: Day)
    requires Ascending(rows) && !HasDate(rows, row.date)
    ensures Ascending(Inserted(rows, row))
    ensures RowOn(Inserted(rows, row), d) == if d == row.date then Some(row) else RowOn(rows, d)
  {
    hide Inserted, Position;
    InsertedAscends(rows, row);
    InsertedAt(rows, row);
    var after := Inserted(rows, row);
    var i, p := Position(rows, row.date), Position(rows, d);
    hide Ascending;
    if d <= row.date {
      NoLater(rows, d, row.date);
      PositionIs(after, d, p);
    } else {
      NoLater(rows, row.date, d);
      PositionIs(after, d, p + 1);
    }
  }

  lemma {:induction false} NoLater(rows: seq<ReportRow>, d: Day, e: Day)
    requires d <= e
    ensures Position(rows, d) <= Position(rows, e)
  {
    if rows != [] && rows[0].date < d {
      NoLater(rows[1..], d, e);
    }
  }

  /** A claim writes the row of its own date if it succeeds, and nothing else. */
  lemma ClaimWritesOneDate(rows: seq<ReportRow>, date: Day, token: Token, now: Instant, d: Day)
    requires Ascending(rows)
    ensures Ascending(ClaimDelivery(rows, date, token, now))
    ensures RowOn(ClaimDelivery(rows, date, token, now), d)
            == if d == date && ClaimSucceeds(rows, date, now) then Some(LeasedRow(date, token, now)) else RowOn(rows, d)
  {
    hide Ascending, Position;
    if HasDate(rows, date) {
      RewrittenRows(rows, Position(rows, date), LeasedRow(date, token, now), d);
    } else {
      InsertedRows(rows, LeasedRow(date, token, now), d);
    }
  }

  /** A release and a completion change the row of their own date while its lease is held, and nothing else. */
  lemma HolderWritesOneDate(rows: seq<ReportRow>, date: Day, token: Token, now: Instant, d: Day)
    requires Ascending(rows)
    ensures Ascending(ReleaseDelivery(rows, date, token, now)) && Ascending(CompleteDelivery(rows, date, token, now))
    ensures RowOn(ReleaseDelivery(rows, date, token, now), d)
            == if d == date && HoldsLease(rows, date, token)
               then Some(RowOn(rows, date).value.(leaseExpires := now)) else RowOn(rows, d)
    ensures RowOn(CompleteDelivery(rows, date, token, now), d)
            == if d == date && HoldsLease(rows, date, token)
               then Some(RowOn(rows, date).value.(status := Delivered, deliveredAt := Some(now))) else RowOn(rows, d)
  {
    hide Ascending, Position;
    if HoldsLease(rows, date, token) {
      var i := Position(rows, date);
      RewrittenRows(rows, i, rows[i].(leaseExpires := now), d);
      RewrittenRows(rows, i, rows[i].(status := Delivered, deliveredAt := Some(now)), d);
    }
  }

  // ---------- tidy tables ----------

  /** The dates follow each other without a gap, and only the last row may be pending. */
  predicate Tidy(rows: seq<ReportRow>) {
    forall i :: 0 <= i < |rows| ==> rows[i].date == rows[0].date + i && (i + 1 < |rows| ==> rows[i].status == Delivered)
  }

  function Last(rows: seq<ReportRow>): ReportRow
    requires rows != []
  {
    rows[|rows| - 1]
  }

  lemma TidyPosition(rows: seq<ReportRow>, date: Day)
    requires Tidy(rows) && rows != [] && rows[0].date <= date <= Last(rows).date + 1
    ensures Position(rows, date) == date - rows[0].date
    ensures HasDate(rows, date) <==> date <= Last(rows).date
  {
    PositionIs(rows, date, date - rows[0].date);
  }

  lemma {:induction false} AllVisible(rows: seq<ReportRow>, latest: Day)
    requires forall i :: 0 <= i < |rows| ==> rows[i].date <= latest
    ensures UpTo(rows, latest) == rows
  {
    if rows != [] {
      AllVisible(rows[1..], latest);
    }
  }

  lemma {:induction false} NoneBefore(rows: seq<ReportRow>)
    requires rows != [] && forall i :: 0 <= i < |rows| - 1 ==> rows[i].status == Delivered
    ensures FirstPending(rows) == if Last(rows).status == Pending then Some(Last(rows).date) else None
  {
    if |rows| > 1 {
      NoneBefore(rows[1..]);
    }
  }

  /** On a tidy table the next date is the pending one, or the day after the last one if it is completed. */
  lemma NextOfTidy(rows: seq<ReportRow>, latest: Day)
    requires Tidy(rows) && (rows != [] ==> Last(rows).date <= latest)
    ensures NextReportDate(rows, latest)
            == if rows == [] then latest
               else if Last(rows).status == Pending || Last(rows).date == latest then Last(rows).date
               else Last(rows).date + 1
  {
    AllVisible(rows, latest);
    if rows != [] {
      NoneBefore(rows);
      var n := |rows|;
      assert rows[n - 1].date == rows[0].date + n - 1;
      assert n == 1 && Last(rows).status == Pending ==> LastDelivered(rows) == LastDelivered([]) == None;
      if Last(rows).status == Pending && n > 1 {
        var front := rows[..n - 1];
        assert front[n - 2] == rows[n - 2] && rows[n - 2].date == rows[0].date + n - 2 && rows[n - 2].status == Delivered;
        assert LastDelivered(front) == Some(rows[n - 2].date);
      }
    }
  }

  /** The table has the date, or the date comes next after a delivered one, or there is no row yet. */
  predicate Extends(rows: seq<ReportRow>, date: Day) {
    rows == [] || HasDate(rows, date) || (date == Last(rows).date + 1 && Last(rows).status == Delivered)
  }

  /** A claim leaves a tidy table tidy exactly if its date extends the table or is on it already. */
  lemma ClaimKeepsTidyExactly(rows: seq<ReportRow>, date: Day, token: Token, now: Instant)
    requires Tidy(rows)
    ensures Tidy(ClaimDelivery(rows, date, token, now))
            <==> Extends(rows, date)
  {
    var i := Position(rows, date);
    var after := ClaimDelivery(rows, date, token, now);
    if rows != [] {
      if HasDate(rows, date) {
        assert forall j :: 0 <= j < |after| ==> after[j].date == rows[j].date;
      } else if i == |rows| {
        assert after == rows + [LeasedRow(date, token, now)];
        assert forall j :: 0 <= j < |rows| ==> after[j] == rows[j];
        assert after[|rows|].date == date && after[|rows| - 1] == Last(rows);
      } else {
        assert after[i].status == Pending && i + 1 < |after|;
      }
    }
  }
}
