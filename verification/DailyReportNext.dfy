/** How the next report date moves when the table or the clock does. Dates ascend; nothing else is asked of
    the table, which may have gaps and several pending rows. */
module DailyReportNext {
  import opened Wrappers
  import opened DailyReport

  predicate PendingOn(rows: seq<ReportRow>, d: Day) {
    RowOn(rows, d).Some? && RowOn(rows, d).value.status == Pending
  }

  predicate DeliveredOn(rows: seq<ReportRow>, d: Day) {
    RowOn(rows, d).Some? && RowOn(rows, d).value.status == Delivered
  }

  // ---------- rows by place and by date ----------

  lemma RowOnAt(rows: seq<ReportRow>, i: nat)
    requires Ascending(rows) && i < |rows|
    ensures RowOn(rows, rows[i].date) == Some(rows[i])
  {
    PositionIs(rows, rows[i].date, i);
  }

  lemma RowOnSome(rows: seq<ReportRow>, d: Day)
    requires RowOn(rows, d).Some?
    ensures exists i :: 0 <= i < |rows| && rows[i].date == d && RowOn(rows, d) == Some(rows[i])
  {
  }

  lemma {:induction false} FirstPendingAt(rows: seq<ReportRow>)
    ensures FirstPending(rows).None? ==> forall i :: 0 <= i < |rows| ==> rows[i].status == Delivered
    ensures FirstPending(rows).Some? ==>
              exists i :: 0 <= i < |rows| && rows[i].date == FirstPending(rows).value && rows[i].status == Pending
                          && forall j :: 0 <= j < i ==> rows[j].status == Delivered
  {
    if rows != [] && rows[0].status == Delivered {
      FirstPendingAt(rows[1..]);
      assert forall i :: 0 < i < |rows| ==> rows[i] == rows[1..][i - 1];
      if FirstPending(rows).Some? {
        var k :| 0 <= k < |rows[1..]| && rows[1..][k].date == FirstPending(rows).value && rows[1..][k].status == Pending
                 && forall j :: 0 <= j < k ==> rows[1..][j].status == Delivered;
        assert rows[k + 1] == rows[1..][k];
        assert forall j :: 0 <= j < k + 1 ==> rows[j].status == Delivered;
      }
    }
  }

  lemma {:induction false} LastDeliveredAt(rows: seq<ReportRow>)
    ensures LastDelivered(rows).None? ==> forall i :: 0 <= i < |rows| ==> rows[i].status == Pending
    ensures LastDelivered(rows).Some? ==>
              exists i :: 0 <= i < |rows| && rows[i].date == LastDelivered(rows).value && rows[i].status == Delivered
                          && forall j :: i < j < |rows| ==> rows[j].status == Pending
  {
    if rows != [] && rows[|rows| - 1].status == Pending {
      var front := rows[..|rows| - 1];
      LastDeliveredAt(front);
      assert forall i :: 0 <= i < |front| ==> rows[i] == front[i];
    }
  }

  /** The first pending date is the least one. */
  lemma FirstPendingIs(rows: seq<ReportRow>)
    requires Ascending(rows)
    ensures FirstPending(rows).Some? ==> PendingOn(rows, FirstPending(rows).value)
    ensures forall d | PendingOn(rows, d) :: FirstPending(rows).Some? && FirstPending(rows).value <= d
  {
    hide RowOn, FirstPending;
    FirstPendingAt(rows);
    if FirstPending(rows).Some? {
      var i :| 0 <= i < |rows| && rows[i].date == FirstPending(rows).value && rows[i].status == Pending
               && forall j :: 0 <= j < i ==> rows[j].status == Delivered;
      RowOnAt(rows, i);
    }
    forall d | PendingOn(rows, d) ensures FirstPending(rows).Some? && FirstPending(rows).value <= d {
      RowOnSome(rows, d);
    }
  }

  /** The last delivered date is the greatest one. */
  lemma LastDeliveredIs(rows: seq<ReportRow>)
    requires Ascending(rows)
    ensures LastDelivered(rows).Some? ==> DeliveredOn(rows, LastDelivered(rows).value)
    ensures forall d | DeliveredOn(rows, d) :: LastDelivered(rows).Some? && d <= LastDelivered(rows).value
  {
    hide RowOn, LastDelivered;
    LastDeliveredAt(rows);
    if LastDelivered(rows).Some? {
      var i :| 0 <= i < |rows| && rows[i].date == LastDelivered(rows).value && rows[i].status == Delivered
               && forall j :: i < j < |rows| ==> rows[j].status == Pending;
      RowOnAt(rows, i);
    }
    forall d | DeliveredOn(rows, d) ensures LastDelivered(rows).Some? && d <= LastDelivered(rows).value {
      RowOnSome(rows, d);
    }
  }

  // ---------- the visible rows ----------

  lemma {:induction false} UpToIsPrefix(rows: seq<ReportRow>, latest: Day)
    requires Ascending(rows)
    ensures UpTo(rows, latest) == rows[..Position(rows, latest + 1)]
  {
    if rows != [] {
      UpToIsPrefix(rows[1..], latest);
      if rows[0].date > latest {
        assert forall i :: 0 <= i < |rows[1..]| ==> rows[1..][i].date > latest;
        NoneVisible(rows[1..], latest);
      }
    }
  }

  lemma NoneVisible(rows: seq<ReportRow>, latest: Day)
    requires forall i :: 0 <= i < |rows| ==> rows[i].date > latest
    ensures UpTo(rows, latest) == []
  {
  }

  /** The rows of the visible dates, and no others. */
  lemma VisibleRows(rows: seq<ReportRow>, latest: Day, d: Day)
    requires Ascending(rows)
    ensures Ascending(UpTo(rows, latest))
    ensures RowOn(UpTo(rows, latest), d) == if d <= latest then RowOn(rows, d) else None
  {
    UpToIsPrefix(rows, latest);
    hide UpTo;
    var k := Position(rows, latest + 1);
    var visible := rows[..k];
    if d <= latest {
      NoLater(rows, d, latest + 1);
      PositionIs(visible, d, Position(rows, d));
    } else {
      PositionIs(visible, d, k);
    }
  }

  lemma AllDatesVisible(rows: seq<ReportRow>, latest: Day)
    requires forall i :: 0 <= i < |rows| ==> rows[i].date <= latest
    ensures NextReportDate(rows, latest) == NextFrom(FirstPending(rows), LastDelivered(rows), latest)
  {
    AllVisible(rows, latest);
  }

  lemma NextNotAfter(first: Option<Day>, last: Option<Day>, latest: Day)
    ensures NextFrom(first, last, latest) <= latest
  {
  }

  // ---------- a later reading ----------

  /** What the first pending and the last delivered dates of a longer visible table can be. */
  predicate Longer(first: Option<Day>, last: Option<Day>, latest: Day, first': Option<Day>, last': Option<Day>) {
    && (first.Some? ==> first.value <= latest && first' == first)
    && (last.Some? ==> last.value <= latest && last'.Some? && last.value <= last'.value)
    && (first.None? && first'.Some? ==> first'.value > latest)
    && (last.None? && last'.Some? ==> last'.value > latest)
  }

  lemma LongerNext(first: Option<Day>, last: Option<Day>, latest: Day, first': Option<Day>, last': Option<Day>, latest': Day)
    requires Longer(first, last, latest, first', last') && latest <= latest'
    ensures NextFrom(first, last, latest) <= NextFrom(first', last', latest')
  {
  }

  lemma LongerVisible(rows: seq<ReportRow>, latest: Day, latest': Day)
    requires Ascending(rows) && latest <= latest'
    ensures Longer(FirstPending(UpTo(rows, latest)), LastDelivered(UpTo(rows, latest)), latest,
                   FirstPending(UpTo(rows, latest')), LastDelivered(UpTo(rows, latest')))
  {
    hide RowOn, UpTo, FirstPending, LastDelivered, Ascending;
    var a, b := UpTo(rows, latest), UpTo(rows, latest');
    forall d
      ensures Ascending(a) && Ascending(b)
      ensures RowOn(a, d) == if d <= latest then RowOn(rows, d) else None
      ensures RowOn(b, d) == if d <= latest' then RowOn(rows, d) else None
    {
      VisibleRows(rows, latest, d);
      VisibleRows(rows, latest', d);
    }
    VisibleRows(rows, latest, 0);
    VisibleRows(rows, latest', 0);
    FirstPendingIs(a);
    FirstPendingIs(b);
    LastDeliveredIs(a);
    LastDeliveredIs(b);
    assert forall d :: PendingOn(a, d) <==> d <= latest && PendingOn(b, d);
    assert forall d :: DeliveredOn(a, d) <==> d <= latest && DeliveredOn(b, d);
  }

  /** A later reading of the clock never gives an earlier next date. */
  lemma NextMonotone(rows: seq<ReportRow>, latest: Day, latest': Day)
    requires Ascending(rows) && latest <= latest'
    ensures NextReportDate(rows, latest) <= NextReportDate(rows, latest')
  {
    hide UpTo, FirstPending, LastDelivered, Ascending, NextFrom;
    LongerVisible(rows, latest, latest');
    LongerNext(FirstPending(UpTo(rows, latest)), LastDelivered(UpTo(rows, latest)), latest,
               FirstPending(UpTo(rows, latest')), LastDelivered(UpTo(rows, latest')), latest');
  }

  // ---------- a changed table ----------

  predicate Completed(rows: seq<ReportRow>, latest: Day) {
    Ascending(rows) && forall i :: 0 <= i < |rows| ==> rows[i].date <= latest
  }

  lemma DateCompleted(rows: seq<ReportRow>, latest: Day, d: Day)
    requires Completed(rows, latest) && RowOn(rows, d).Some?
    ensures d <= latest
  {
    RowOnSome(rows, d);
  }

  lemma StillCompleted(rows: seq<ReportRow>, latest: Day)
    requires Ascending(rows) && forall d | RowOn(rows, d).Some? :: d <= latest
    ensures Completed(rows, latest)
  {
    forall i | 0 <= i < |rows| ensures rows[i].date <= latest {
      RowOnAt(rows, i);
    }
  }

  /** The other table has the same rows, except that it has this one on its date. */
  ghost predicate Differs(rows: seq<ReportRow>, after: seq<ReportRow>, row: ReportRow) {
    && Ascending(rows) && Ascending(after)
    && forall d :: RowOn(after, d) == if d == row.date then Some(row) else RowOn(rows, d)
  }

  lemma CompletedAfter(rows: seq<ReportRow>, after: seq<ReportRow>, row: ReportRow, latest: Day)
    requires Differs(rows, after, row) && Completed(rows, latest) && row.date <= latest
    ensures Completed(after, latest)
  {
    hide RowOn, Completed;
    forall d | RowOn(after, d).Some? ensures d <= latest {
      if d != row.date {
        DateCompleted(rows, latest, d);
      }
    }
    StillCompleted(after, latest);
  }

  /** A pending row is added: the next date falls back exactly if the new date lies before it. */
  lemma NextAfterInsert(rows: seq<ReportRow>, after: seq<ReportRow>, row: ReportRow, latest: Day)
    requires Completed(rows, latest) && Differs(rows, after, row) && row.date <= latest
    requires row.status == Pending && RowOn(rows, row.date).None?
    ensures NextReportDate(rows, latest) <= NextReportDate(after, latest) <==> NextReportDate(rows, latest) <= row.date
  {
    hide RowOn, FirstPending, LastDelivered, NextReportDate, Ascending;
    CompletedAfter(rows, after, row, latest);
    AllDatesVisible(rows, latest);
    AllDatesVisible(after, latest);
    Ends(rows);
    Ends(after);
    assert forall d :: PendingOn(after, d) <==> d == row.date || PendingOn(rows, d);
    assert forall d :: DeliveredOn(after, d) <==> DeliveredOn(rows, d);
    EndsCompleted(rows, latest);
    var first, last := FirstPending(rows), LastDelivered(rows);
    assert PendingOn(after, row.date);
    assert FirstPending(after) == Some(if first.Some? && first.value <= row.date then first.value else row.date);
    assert last.Some? ==> DeliveredOn(rows, last.value) && DeliveredOn(after, last.value);
    assert LastDelivered(after) == last;
    EarlierOf(first, last, row.date, latest);
  }

  lemma EarlierOf(first: Option<Day>, last: Option<Day>, d: Day, latest: Day)
    requires d <= latest && (first.Some? ==> first.value <= latest) && (last.Some? ==> last.value <= latest)
    requires first != Some(d) && last != Some(d)
    ensures var first' := Some(if first.Some? && first.value <= d then first.value else d);
            NextFrom(first, last, latest) <= NextFrom(first', last, latest) <==> NextFrom(first, last, latest) <= d
  {
  }

  lemma Ends(rows: seq<ReportRow>)
    requires Ascending(rows)
    ensures FirstPending(rows).Some? ==> PendingOn(rows, FirstPending(rows).value)
    ensures forall d | PendingOn(rows, d) :: FirstPending(rows).Some? && FirstPending(rows).value <= d
    ensures LastDelivered(rows).Some? ==> DeliveredOn(rows, LastDelivered(rows).value)
    ensures forall d | DeliveredOn(rows, d) :: LastDelivered(rows).Some? && d <= LastDelivered(rows).value
  {
    FirstPendingIs(rows);
    LastDeliveredIs(rows);
  }

  lemma EndsCompleted(rows: seq<ReportRow>, latest: Day)
    requires Completed(rows, latest)
    ensures FirstPending(rows).Some? ==> FirstPending(rows).value <= latest
    ensures LastDelivered(rows).Some? ==> LastDelivered(rows).value <= latest
  {
    hide RowOn, FirstPending, LastDelivered;
    Ends(rows);
    if FirstPending(rows).Some? {
      DateCompleted(rows, latest, FirstPending(rows).value);
    }
    if LastDelivered(rows).Some? {
      DateCompleted(rows, latest, LastDelivered(rows).value);
    }
  }

  /** A pending row is leased again or released: the next date stays. */
  lemma NextAfterLease(rows: seq<ReportRow>, after: seq<ReportRow>, row: ReportRow, latest: Day)
    requires Completed(rows, latest) && Differs(rows, after, row)
    requires row.status == Pending && PendingOn(rows, row.date)
    ensures NextReportDate(after, latest) == NextReportDate(rows, latest)
  {
    hide RowOn, FirstPending, LastDelivered, NextReportDate, Ascending;
    DateCompleted(rows, latest, row.date);
    CompletedAfter(rows, after, row, latest);
    AllDatesVisible(rows, latest);
    AllDatesVisible(after, latest);
    Ends(rows);
    Ends(after);
    assert forall d :: PendingOn(after, d) <==> PendingOn(rows, d);
    assert forall d :: DeliveredOn(after, d) <==> DeliveredOn(rows, d);
  }

  /** A pending row is delivered: the next date does not fall back. */
  lemma NextAfterDelivery(rows: seq<ReportRow>, after: seq<ReportRow>, row: ReportRow, latest: Day)
    requires Completed(rows, latest) && Differs(rows, after, row)
    requires row.status == Delivered && PendingOn(rows, row.date)
    ensures NextReportDate(rows, latest) <= NextReportDate(after, latest)
  {
    hide RowOn, FirstPending, LastDelivered, NextReportDate, Ascending;
    DateCompleted(rows, latest, row.date);
    CompletedAfter(rows, after, row, latest);
    AllDatesVisible(rows, latest);
    AllDatesVisible(after, latest);
    Ends(rows);
    Ends(after);
    EndsCompleted(rows, latest);
    assert forall d :: PendingOn(after, d) <==> d != row.date && PendingOn(rows, d);
    assert forall d :: DeliveredOn(after, d) <==> d == row.date || DeliveredOn(rows, d);
  }
}
