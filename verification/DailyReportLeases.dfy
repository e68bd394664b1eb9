/** What each step of a run makes of the row of a date, how long a lease is held, which date comes next, and exactly
    which events a sweep deletes. */
module DailyReportLeases {
  import opened Wrappers
  import opened DailyReport
  import opened DailyReportNext
  import opened DailyReportRuns

  // ---------- which date comes next ----------

  /** This day is over at that time, and the following one is not. */
  lemma CompletedDay(now: Instant)
    ensures 86_400_000 * (LatestCompleted(now) + 1) <= now < 86_400_000 * (LatestCompleted(now) + 2)
    ensures forall d :: StartOf(d) == 86_400_000 * d
  {
  }

  /** Of the days up to the latest, this is the last delivered one. */
  ghost predicate LastOn(rows: seq<ReportRow>, latest: Day, d: Day) {
    DeliveredOn(rows, d) && forall x :: d < x <= latest ==> !DeliveredOn(rows, x)
  }

  /** Main result, for any table in date order: the next date is the earliest of the pending days and the day after the
      last delivered one, as far as these are over, and the latest day that is over if there is none of them. */
  lemma NextIsExactly(rows: seq<ReportRow>, latest: Day, n: Day)
    requires Ascending(rows)
    ensures n == NextReportDate(rows, latest)
            <==> && n <= latest
                 && (forall d :: PendingOn(rows, d) && d <= latest ==> n <= d)
                 && (forall d :: LastOn(rows, latest, d) && d < latest ==> n <= d + 1)
                 && (n == latest || PendingOn(rows, n) || LastOn(rows, latest, n - 1))
  {
    hide UpTo, FirstPending, LastDelivered, Ascending, RowOn;
    var visible := UpTo(rows, latest);
    var first, last := FirstPending(visible), LastDelivered(visible);
    forall d ensures RowOn(visible, d) == if d <= latest then RowOn(rows, d) else None {
      VisibleRows(rows, latest, d);
    }
    VisibleRows(rows, latest, 0);
    FirstPendingIs(visible);
    LastDeliveredIs(visible);
    assert forall d :: PendingOn(visible, d) <==> PendingOn(rows, d) && d <= latest;
    assert forall d :: DeliveredOn(visible, d) <==> DeliveredOn(rows, d) && d <= latest;
    assert last.Some? ==> LastOn(rows, latest, last.value);
    assert forall d :: LastOn(rows, latest, d) && d <= latest ==> last == Some(d);
  }

  /** In every run a resolved day is over. */
  lemma ResolvedDayIsOver(clock: Instant, acts: seq<Action>, p: Pid)
    requires var w := Run(Init(clock), acts); p in w.procs && w.procs[p].Resolved?
    ensures var w := Run(Init(clock), acts);
            86_400_000 * (w.procs[p].date + 1) <= w.clock
  {
    hide Run, NextReportDate;
    InitOver(clock);
    DaysRun(Init(clock), acts);
    CompletedDay(Run(Init(clock), acts).clock);
  }

  // ---------- the row of a date ----------

  /** This step claims the report of the date: there is no row yet, or a pending one whose lease has ended. */
  predicate Grants(w: World, act: Action, date: Day) {
    && act.Claim? && act.p in w.procs && w.procs[act.p].Resolved? && w.procs[act.p].date == date
    && (RowOn(w.rows, date).Some? ==>
          RowOn(w.rows, date).value.status == Pending && RowOn(w.rows, date).value.leaseExpires <= w.procs[act.p].now)
  }

  /** This worker holds the lease of the date. */
  predicate Holder(w: World, p: Pid, date: Day) {
    && p in w.procs && w.procs[p].Claimed? && w.procs[p].date == date
    && RowOn(w.rows, date).Some? && RowOn(w.rows, date).value.status == Pending && RowOn(w.rows, date).value.token == w.procs[p].token
  }

  function NextRow(w: World, act: Action, date: Day): Option<ReportRow> {
    var row := RowOn(w.rows, date);
    match act
    case Claim(p) =>
      if Grants(w, act, date)
      then var now := w.procs[p].now; Some(ReportRow(date, Pending, w.nextToken, now + 900_000, now, None))
      else row
    case Release(p) => if Holder(w, p, date) then Some(row.value.(leaseExpires := w.procs[p].now)) else row
    case Complete(p) =>
      if Holder(w, p, date) then Some(row.value.(status := Delivered, deliveredAt := Some(w.procs[p].now))) else row
    case _ => row
  }

  /** Main result: in every run, what the next step makes of the row of a date. A claim is granted for 15 minutes. */
  lemma RowChart(clock: Instant, acts: seq<Action>, act: Action, date: Day)
    ensures var w := Run(Init(clock), acts);
            var t := Run(Init(clock), acts + [act]);
            && RowOn(t.rows, date) == NextRow(w, act, date)
            && (Grants(w, act, date) ==> t.procs == w.procs[act.p := Claimed(date, w.nextToken, w.procs[act.p].now)])
            && (act.Claim? && act.p in w.procs && w.procs[act.p].Resolved? && !Grants(w, act, w.procs[act.p].date) ==>
                  t.rows == w.rows && act.p !in t.procs)
  {
    hide Run, Step, Drawn;
    NextWorld(clock, acts, act);
    RowStep(Run(Init(clock), acts), act, date);
  }

  lemma NextWorld(clock: Instant, acts: seq<Action>, act: Action)
    ensures Drawn(Run(Init(clock), acts)) && Run(Init(clock), acts + [act]) == Step(Run(Init(clock), acts), act)
  {
    hide Run, Drawn, Step, RowsForward;
    LaterRows(clock, acts, []);
    RunAppend(Init(clock), acts, [act]);
    RunOne(Run(Init(clock), acts), act);
  }

  lemma GrantsExactly(w: World, date: Day, now: Instant)
    ensures ClaimSucceeds(w.rows, date, now) <==>
              (RowOn(w.rows, date).Some? ==> RowOn(w.rows, date).value.status == Pending && RowOn(w.rows, date).value.leaseExpires <= now)
    ensures !ClaimSucceeds(w.rows, date, now) ==> ClaimDelivery(w.rows, date, w.nextToken, now) == w.rows
  {
  }

  lemma RowStep(w: World, act: Action, date: Day)
    requires Drawn(w)
    ensures RowOn(Step(w, act).rows, date) == NextRow(w, act, date)
    ensures Grants(w, act, date) ==> Step(w, act).procs == w.procs[act.p := Claimed(date, w.nextToken, w.procs[act.p].now)]
    ensures act.Claim? && act.p in w.procs && w.procs[act.p].Resolved? && !Grants(w, act, w.procs[act.p].date) ==>
              Step(w, act).rows == w.rows && act.p !in Step(w, act).procs
  {
    hide RowOn, ClaimDelivery, ClaimSucceeds, ReleaseDelivery, CompleteDelivery, HoldsLease, Ascending, NextReportDate, Kept, UpTo;
    match act
    case Claim(p) =>
      if p in w.procs && w.procs[p].Resolved? {
        var k := w.procs[p];
        GrantsExactly(w, k.date, k.now);
        ClaimWritesOneDate(w.rows, k.date, w.nextToken, k.now, date);
      }
    case Release(p) =>
      if p in w.procs && w.procs[p].Claimed? {
        HolderWritesOneDate(w.rows, w.procs[p].date, w.procs[p].token, w.procs[p].now, date);
        HeldIsPending(w.rows, w.procs[p].date, w.procs[p].token);
      }
    case Complete(p) =>
      if p in w.procs && w.procs[p].Claimed? {
        HolderWritesOneDate(w.rows, w.procs[p].date, w.procs[p].token, w.procs[p].now, date);
        HeldIsPending(w.rows, w.procs[p].date, w.procs[p].token);
      }
    case _ =>
  }

  // ---------- how long a lease is held ----------

  /** This step takes a lease over, or is its completion. */
  predicate Loses(w: World, act: Action, date: Day) {
    Grants(w, act, date) || (act.Complete? && Holder(w, act.p, date))
  }

  lemma LeaseStep(w: World, act: Action, date: Day, token: Token)
    requires Drawn(w) && HoldsLease(w.rows, date, token)
    ensures HoldsLease(Step(w, act).rows, date, token) <==> !Loses(w, act, date)
    ensures RowOn(w.rows, date).Some? && RowOn(Step(w, act).rows, date).Some?
    ensures HoldsLease(Step(w, act).rows, date, token) && !(act.Release? && Holder(w, act.p, date)) ==>
              RowOn(Step(w, act).rows, date) == RowOn(w.rows, date)
  {
    hide Step;
    HeldIsPending(w.rows, date, token);
    HeldIsPending(Step(w, act).rows, date, token);
    RowStep(w, act, date);
    hide RowOn, HoldsLease, Ascending;
  }

  /** Main result: in every run a lease is still held later exactly if no step in between is a claim of the date whose
      reading has reached the end of the lease, or the completion by its holder. */
  lemma {:induction false} LeaseHeldExactly(clock: Instant, acts: seq<Action>, more: seq<Action>, date: Day, token: Token)
    requires HoldsLease(Run(Init(clock), acts).rows, date, token)
    ensures HoldsLease(Run(Init(clock), acts + more).rows, date, token)
            <==> forall i | 0 <= i < |more| :: !Loses(Run(Init(clock), acts + more[..i]), more[i], date)
    decreases |more|
  {
    hide Run, Step, Drawn, Loses, HoldsLease;
    if more == [] {
      assert acts + more == acts;
    } else {
      var n := |more| - 1;
      var some := more[..n];
      LeaseHeldExactly(clock, acts, some, date, token);
      forall i | 0 <= i < n ensures some[..i] == more[..i] && some[i] == more[i] {}
      assert acts + more == (acts + some) + [more[n]];
      NextWorld(clock, acts + some, more[n]);
      var w := Run(Init(clock), acts + some);
      if HoldsLease(w.rows, date, token) {
        LeaseStep(w, more[n], date, token);
      } else {
        TokenDrawn(clock, acts, some, date, token);
        LostLeaseIsLostForGood(clock, acts + some, [more[n]], date, token);
      }
    }
  }

  lemma TokenDrawn(clock: Instant, acts: seq<Action>, some: seq<Action>, date: Day, token: Token)
    requires HoldsLease(Run(Init(clock), acts).rows, date, token)
    ensures token < Run(Init(clock), acts + some).nextToken
  {
    hide Run, RowOn;
    HeldIsPending(Run(Init(clock), acts).rows, date, token);
    LaterRows(clock, acts, some);
  }

  /** So while no claim of the date has a reading at or after the end of the lease, and the holder neither releases nor
      completes, the lease is held, in any run, and its end does not move. */
  lemma {:induction false} RunningLeaseIsSafe(clock: Instant, acts: seq<Action>, more: seq<Action>, date: Day, token: Token)
    requires HoldsLease(Run(Init(clock), acts).rows, date, token) && RowOn(Run(Init(clock), acts).rows, date).Some?
    requires forall i | 0 <= i < |more| ::
               var w := Run(Init(clock), acts + more[..i]);
               && (more[i].Claim? && more[i].p in w.procs && w.procs[more[i].p].Resolved? && w.procs[more[i].p].date == date ==>
                     w.procs[more[i].p].now < RowOn(Run(Init(clock), acts).rows, date).value.leaseExpires)
               && (more[i].Release? || more[i].Complete? ==> !Holder(w, more[i].p, date))
    ensures HoldsLease(Run(Init(clock), acts + more).rows, date, token)
    ensures RowOn(Run(Init(clock), acts + more).rows, date) == RowOn(Run(Init(clock), acts).rows, date)
    decreases |more|
  {
    hide Run, Step, Drawn, HoldsLease, RowOn, Holder;
    if more == [] {
      assert acts + more == acts;
    } else {
      var n := |more| - 1;
      var some := more[..n];
      forall i | 0 <= i < n ensures some[..i] == more[..i] && some[i] == more[i] {}
      RunningLeaseIsSafe(clock, acts, some, date, token);
      assert acts + more == (acts + some) + [more[n]];
      NextWorld(clock, acts + some, more[n]);
      LeaseStep(Run(Init(clock), acts + some), more[n], date, token);
    }
  }

  /** A claim of a delivered date, or of one whose lease has not ended, changes nothing; a pending one whose lease has
      ended passes to the new token. A released lease has ended. */
  lemma LeaseDecides(rows: seq<ReportRow>, date: Day, token: Token, now: Instant)
    requires RowOn(rows, date).Some?
    ensures var row := RowOn(rows, date).value;
            && (row.status == Delivered || now < row.leaseExpires ==> ClaimDelivery(rows, date, token, now) == rows)
            && (row.status == Pending && row.leaseExpires <= now ==> HoldsLease(ClaimDelivery(rows, date, token, now), date, token))
            && (row.status == Pending ==>
                  HoldsLease(ClaimDelivery(ReleaseDelivery(rows, date, row.token, now), date, token, now), date, token))
  {
    var row := RowOn(rows, date).value;
    var released := rows[Position(rows, date) := row.(leaseExpires := now)];
    ReplacedPosition(rows, date, LeasedRow(date, token, now));
    ReplacedPosition(rows, date, row.(leaseExpires := now));
    ReplacedPosition(released, date, LeasedRow(date, token, now));
  }

  // ---------- what a sweep deletes ----------

  /** Main result: in every run, whatever happens between the two steps of a sweep, an event is left exactly if its day
      is not before the next report date the sweep resolved or its time is not before the configured cutoff. No
      contents change and nothing is added. */
  lemma SweptExactly(clock: Instant, acts: seq<Action>, p: Pid, reading: Instant, mid: seq<Action>, configured: Instant, e: EventId)
    requires p !in Run(Init(clock), acts).procs && reading <= Run(Init(clock), acts).clock
    requires var s := Step(Run(Init(clock), acts), StartSweep(p, reading));
             var v := Run(s, mid);
             p in v.procs && v.procs[p] == s.procs[p]
    ensures var w := Run(Init(clock), acts);
            var v := Run(Step(w, StartSweep(p, reading)), mid);
            var t := Step(v, Sweep(p, configured));
            && (e in t.events <==>
                  && e in v.events
                  && (v.events[e] / 86_400_000 >= NextReportDate(w.rows, reading / 86_400_000 - 1) || v.events[e] >= configured))
            && (e in t.events ==> t.events[e] == v.events[e])
            && t.rows == v.rows
  {
    hide Run, NextReportDate;
    var w := Run(Init(clock), acts);
    var v := Run(Step(w, StartSweep(p, reading)), mid);
    if e in v.events {
      BeforeStart(v.events[e], NextReportDate(w.rows, LatestCompleted(reading)));
    }
  }
}
