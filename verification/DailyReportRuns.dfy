/** Interleaved report workers and retention sweeps. A handler reads the time once, before its other work; its
    reading is never ahead of the clock, which never goes back, but may be behind it by any amount. */
module DailyReportRuns {
  import opened Wrappers
  import opened DailyReport
  import opened DailyReportNext

  type Pid = nat
  type EventId = nat

  /** A worker has resolved a date, perhaps without a row in sight, or holds a claim; a sweep has resolved what it
      must preserve. */
  datatype Proc =
    | Resolved(date: Day, now: Instant, sawNone: bool)
    | Claimed(date: Day, token: Token, now: Instant)
    | Sweeping(preserveFrom: Instant)

  datatype World = World(
    clock: Instant, rows: seq<ReportRow>, procs: map<Pid, Proc>, nextToken: Token, events: map<EventId, Instant>)

  datatype Action =
    | Tick(t: Instant)
    | Observe(e: EventId, at: Instant)
    | Resolve(p: Pid, reading: Instant)
    | Claim(p: Pid)
    | Release(p: Pid)
    | Complete(p: Pid)
    | StartSweep(p: Pid, reading: Instant)
    | Sweep(p: Pid, configured: Instant)

  function Leave(procs: map<Pid, Proc>, p: Pid): map<Pid, Proc> {
    map q | q in procs && q != p :: procs[q]
  }

  function NextDate(w: World): Day {
    NextReportDate(w.rows, LatestCompleted(w.clock))
  }

  /** Rows before the earlier of the two cutoffs are deleted. */
  function Kept(events: map<EventId, Instant>, preserveFrom: Instant, configured: Instant): map<EventId, Instant> {
    var cutoff := if preserveFrom < configured then preserveFrom else configured;
    map e | e in events && events[e] >= cutoff :: events[e]
  }

  function ClaimStep(w: World, p: Pid, date: Day, now: Instant): World {
    World(
      w.clock,
      ClaimDelivery(w.rows, date, w.nextToken, now),
      if ClaimSucceeds(w.rows, date, now) then w.procs[p := Claimed(date, w.nextToken, now)] else Leave(w.procs, p),
      w.nextToken + 1,
      w.events)
  }

  function Step(w: World, act: Action): World {
    match act
    case Tick(t) => if t >= w.clock then w.(clock := t) else w
    case Observe(e, at) => if e in w.events then w else w.(events := w.events[e := at])
    case Resolve(p, reading) =>
      var latest := LatestCompleted(reading);
      if p in w.procs || reading > w.clock then w
      else w.(procs := w.procs[p := Resolved(NextReportDate(w.rows, latest), reading, UpTo(w.rows, latest) == [])])
    case Claim(p) =>
      if p in w.procs && w.procs[p].Resolved? then ClaimStep(w, p, w.procs[p].date, w.procs[p].now) else w
    case Release(p) =>
      if p in w.procs && w.procs[p].Claimed?
      then w.(rows := ReleaseDelivery(w.rows, w.procs[p].date, w.procs[p].token, w.procs[p].now), procs := Leave(w.procs, p))
      else w
    case Complete(p) =>
      if p in w.procs && w.procs[p].Claimed?
      then w.(rows := CompleteDelivery(w.rows, w.procs[p].date, w.procs[p].token, w.procs[p].now), procs := Leave(w.procs, p))
      else w
    case StartSweep(p, reading) =>
      if p in w.procs || reading > w.clock then w
      else w.(procs := w.procs[p := Sweeping(StartOf(NextReportDate(w.rows, LatestCompleted(reading))))])
    case Sweep(p, configured) =>
      if p in w.procs && w.procs[p].Sweeping?
      then w.(events := Kept(w.events, w.procs[p].preserveFrom, configured), procs := Leave(w.procs, p))
      else w
  }

  function Run(w: World, acts: seq<Action>): World
    decreases |acts|
  {
    if acts == [] then w else Run(Step(w, acts[0]), acts[1..])
  }

  function Init(clock: Instant): World {
    World(clock, [], map[], 0, map[])
  }

  // ---------- leases and delivered rows, in every run ----------

  predicate Apart(x: Proc, y: Proc) {
    x.Claimed? && y.Claimed? ==> x.token != y.token
  }

  /** Dates ascend, and every token in use was drawn. */
  ghost predicate Drawn(w: World) {
    && Ascending(w.rows)
    && (forall d :: RowOn(w.rows, d).Some? ==> RowOn(w.rows, d).value.token < w.nextToken)
    && (forall p <- w.procs.Keys :: w.procs[p].Claimed? ==> w.procs[p].token < w.nextToken)
    && (forall p <- w.procs.Keys, q <- w.procs.Keys :: p != q ==> Apart(w.procs[p], w.procs[q]))
  }

  /** A row is never removed, a delivered one never written, and a lease only passes to a token drawn later. */
  predicate RowForward(x: Option<ReportRow>, y: Option<ReportRow>, drawn: Token) {
    && (x.Some? ==> y.Some?)
    && (x.Some? && x.value.status == Delivered ==> y == x)
    && (y.Some? ==> y.value.token >= drawn || (x.Some? && x.value.token == y.value.token))
  }

  ghost predicate RowsForward(v: World, w: World) {
    v.nextToken <= w.nextToken && forall d :: RowForward(RowOn(v.rows, d), RowOn(w.rows, d), v.nextToken)
  }

  lemma SameRowsForward(v: World, w: World)
    requires v.rows == w.rows && v.nextToken == w.nextToken
    ensures RowsForward(v, w)
  {
  }

  lemma ClaimRows(w: World, p: Pid)
    requires Drawn(w) && p in w.procs && w.procs[p].Resolved?
    ensures var t := Step(w, Claim(p));
            && Ascending(t.rows) && RowsForward(w, t)
            && (forall d :: RowOn(t.rows, d).Some? ==> RowOn(t.rows, d).value.token < t.nextToken)
  {
    hide RowOn, ClaimDelivery, ClaimSucceeds, Ascending;
    var date, now := w.procs[p].date, w.procs[p].now;
    var t := Step(w, Claim(p));
    ClaimWritesOneDate(w.rows, date, w.nextToken, now, date);
    forall d ensures RowForward(RowOn(w.rows, d), RowOn(t.rows, d), w.nextToken)
      ensures RowOn(t.rows, d).Some? ==> RowOn(t.rows, d).value.token < t.nextToken
    {
      ClaimWritesOneDate(w.rows, date, w.nextToken, now, d);
      SucceedsUndelivered(w.rows, date, now);
    }
  }

  lemma SucceedsUndelivered(rows: seq<ReportRow>, date: Day, now: Instant)
    ensures ClaimSucceeds(rows, date, now) && RowOn(rows, date).Some? ==> RowOn(rows, date).value.status == Pending
  {
  }

  lemma HolderRows(w: World, date: Day, token: Token, now: Instant, after: seq<ReportRow>)
    requires Drawn(w)
    requires after == ReleaseDelivery(w.rows, date, token, now) || after == CompleteDelivery(w.rows, date, token, now)
    ensures Ascending(after) && RowsForward(w, w.(rows := after))
    ensures forall d :: RowOn(after, d).Some? ==> RowOn(after, d).value.token < w.nextToken
  {
    hide RowOn, ReleaseDelivery, CompleteDelivery, HoldsLease, Ascending;
    HolderWritesOneDate(w.rows, date, token, now, date);
    forall d ensures RowForward(RowOn(w.rows, d), RowOn(after, d), w.nextToken)
      ensures RowOn(after, d).Some? ==> RowOn(after, d).value.token < w.nextToken
    {
      HolderWritesOneDate(w.rows, date, token, now, d);
      HeldIsPending(w.rows, date, token);
    }
  }

  lemma HeldIsPending(rows: seq<ReportRow>, date: Day, token: Token)
    ensures HoldsLease(rows, date, token) <==>
              RowOn(rows, date).Some? && RowOn(rows, date).value.status == Pending && RowOn(rows, date).value.token == token
  {
  }

  lemma DrawnStep(w: World, act: Action)
    requires Drawn(w)
    ensures Drawn(Step(w, act)) && RowsForward(w, Step(w, act))
  {
    hide RowOn, ClaimDelivery, ClaimSucceeds, ReleaseDelivery, CompleteDelivery, Ascending, RowsForward, NextReportDate, Kept;
    match act
    case Claim(p) =>
      if p in w.procs && w.procs[p].Resolved? {
        ClaimRows(w, p);
      } else {
        SameRowsForward(w, w);
      }
    case Release(p) =>
      if p in w.procs && w.procs[p].Claimed? {
        var k := w.procs[p];
        HolderRows(w, k.date, k.token, k.now, ReleaseDelivery(w.rows, k.date, k.token, k.now));
        SameForward(w, w.(rows := Step(w, act).rows), Step(w, act));
      } else {
        SameRowsForward(w, w);
      }
    case Complete(p) =>
      if p in w.procs && w.procs[p].Claimed? {
        var k := w.procs[p];
        HolderRows(w, k.date, k.token, k.now, CompleteDelivery(w.rows, k.date, k.token, k.now));
        SameForward(w, w.(rows := Step(w, act).rows), Step(w, act));
      } else {
        SameRowsForward(w, w);
      }
    case _ => SameRowsForward(w, Step(w, act));
  }

  lemma SameForward(v: World, w: World, t: World)
    requires RowsForward(v, w) && t.rows == w.rows && t.nextToken == w.nextToken
    ensures RowsForward(v, t)
  {
  }

  lemma RowsForwardTransitive(u: World, v: World, w: World)
    requires RowsForward(u, v) && RowsForward(v, w)
    ensures RowsForward(u, w)
  {
    hide RowOn;
    forall d ensures RowForward(RowOn(u.rows, d), RowOn(w.rows, d), u.nextToken) {
      assert RowForward(RowOn(u.rows, d), RowOn(v.rows, d), u.nextToken);
      assert RowForward(RowOn(v.rows, d), RowOn(w.rows, d), v.nextToken);
    }
  }

  lemma {:induction false} DrawnRun(w: World, acts: seq<Action>)
    requires Drawn(w)
    ensures Drawn(Run(w, acts)) && RowsForward(w, Run(w, acts))
    decreases |acts|
  {
    hide Drawn, RowsForward, Step;
    if acts == [] {
      SameRowsForward(w, w);
    } else {
      DrawnStep(w, acts[0]);
      DrawnRun(Step(w, acts[0]), acts[1..]);
      RowsForwardTransitive(w, Step(w, acts[0]), Run(w, acts));
    }
  }

  lemma {:induction false} RunAppend(w: World, acts: seq<Action>, more: seq<Action>)
    ensures Run(w, acts + more) == Run(Run(w, acts), more)
    decreases |acts|
  {
    hide Step;
    if acts == [] {
      assert acts + more == more;
    } else {
      assert (acts + more)[0] == acts[0] && (acts + more)[1..] == acts[1..] + more;
      RunAppend(Step(w, acts[0]), acts[1..], more);
    }
  }

  lemma InitDrawn(clock: Instant)
    ensures Drawn(Init(clock))
  {
  }

  lemma LaterRows(clock: Instant, acts: seq<Action>, more: seq<Action>)
    ensures Drawn(Run(Init(clock), acts)) && Drawn(Run(Init(clock), acts + more))
    ensures RowsForward(Run(Init(clock), acts), Run(Init(clock), acts + more))
  {
    hide Drawn, RowsForward, Run;
    RunAppend(Init(clock), acts, more);
    InitDrawn(clock);
    DrawnRun(Init(clock), acts);
    DrawnRun(Run(Init(clock), acts), more);
  }

  /** Main result, for every run: a delivered row stays on the log and is never written again. */
  lemma DeliveredForGood(clock: Instant, acts: seq<Action>, more: seq<Action>, date: Day)
    requires var row := RowOn(Run(Init(clock), acts).rows, date); row.Some? && row.value.status == Delivered
    ensures RowOn(Run(Init(clock), acts + more).rows, date) == RowOn(Run(Init(clock), acts).rows, date)
  {
    hide Run, Drawn, RowOn;
    LaterRows(clock, acts, more);
    assert RowForward(RowOn(Run(Init(clock), acts).rows, date), RowOn(Run(Init(clock), acts + more).rows, date),
                      Run(Init(clock), acts).nextToken);
  }

  /** Main result, for every run: a lease that a drawn token does not hold on a date, because another token took it
      over or the row is delivered, it never holds again. */
  lemma LostLeaseIsLostForGood(clock: Instant, acts: seq<Action>, more: seq<Action>, date: Day, token: Token)
    requires var v := Run(Init(clock), acts); token < v.nextToken && !HoldsLease(v.rows, date, token)
    ensures !HoldsLease(Run(Init(clock), acts + more).rows, date, token)
  {
    hide Run, Drawn, RowOn, HoldsLease;
    LaterRows(clock, acts, more);
    var v, w := Run(Init(clock), acts), Run(Init(clock), acts + more);
    HeldIsPending(v.rows, date, token);
    HeldIsPending(w.rows, date, token);
    assert RowForward(RowOn(v.rows, date), RowOn(w.rows, date), v.nextToken);
  }

  predicate LostLease(w: World, p: Pid) {
    p in w.procs && w.procs[p].Claimed? && !HoldsLease(w.rows, w.procs[p].date, w.procs[p].token)
  }

  /** So a worker whose lease was taken over never releases or completes the report, however late it tries. */
  lemma LostLeaseChangesNothing(clock: Instant, acts: seq<Action>, more: seq<Action>, p: Pid)
    requires LostLease(Run(Init(clock), acts), p)
    requires var w := Run(Init(clock), acts + more); p in w.procs && w.procs[p] == Run(Init(clock), acts).procs[p]
    ensures var w := Run(Init(clock), acts + more);
            Step(w, Complete(p)).rows == w.rows && Step(w, Release(p)).rows == w.rows
  {
    hide Run, HoldsLease, RowsForward, RowOn;
    var k := Run(Init(clock), acts).procs[p];
    LaterRows(clock, acts, more);
    LostLeaseIsLostForGood(clock, acts, more, k.date, k.token);
  }

  /** Two workers never hold the lease of the same date at once, in any run. */
  lemma OneHolder(clock: Instant, acts: seq<Action>, p: Pid, q: Pid)
    requires var w := Run(Init(clock), acts);
             && p in w.procs && q in w.procs && w.procs[p].Claimed? && w.procs[q].Claimed? && w.procs[p].date == w.procs[q].date
             && HoldsLease(w.rows, w.procs[p].date, w.procs[p].token)
             && HoldsLease(w.rows, w.procs[q].date, w.procs[q].token)
    ensures p == q
  {
    hide Run, RowsForward, RowOn;
    LaterRows(clock, acts, []);
    var w := Run(Init(clock), acts);
    assert p != q ==> Apart(w.procs[p], w.procs[q]);
  }

  // ---------- runs that keep the log without gaps ----------

  /** A claim whose date was resolved with no row in sight, because there was none or the reading was too old to
      see it, extends the table if it succeeds. */
  predicate InOrder(w: World, act: Action) {
    act.Claim? && act.p in w.procs && w.procs[act.p].Resolved? && w.procs[act.p].sawNone
    && ClaimSucceeds(w.rows, w.procs[act.p].date, w.procs[act.p].now) ==>
      Extends(w.rows, w.procs[act.p].date)
  }

  predicate Orderly(w: World, acts: seq<Action>)
    decreases |acts|
  {
    acts == [] || (InOrder(w, acts[0]) && Orderly(Step(w, acts[0]), acts[1..]))
  }

  predicate TableOk(w: World) {
    && Tidy(w.rows)
    && (w.rows != [] ==> Last(w.rows).date <= LatestCompleted(w.clock))
  }

  predicate ProcOk(w: World, k: Proc) {
    match k
    case Resolved(date, now, sawNone) =>
      && date <= LatestCompleted(w.clock)
      && (!sawNone ==> w.rows != [] && w.rows[0].date <= date && (date <= Last(w.rows).date || Extends(w.rows, date)))
    case Claimed(date, token, now) => w.rows != [] && w.rows[0].date <= date <= Last(w.rows).date
    case Sweeping(_) => true
  }

  predicate Inv(w: World) {
    TableOk(w) && forall p <- w.procs.Keys :: ProcOk(w, w.procs[p])
  }

  /** Rows keep their places and their dates, and delivered ones their contents. */
  predicate Forward(v: World, w: World) {
    && v.clock <= w.clock
    && |v.rows| <= |w.rows|
    && (forall i :: 0 <= i < |v.rows| ==>
          w.rows[i].date == v.rows[i].date && (v.rows[i].status == Delivered ==> w.rows[i] == v.rows[i]))
  }

  lemma DayMonotone(x: Instant, y: Instant)
    requires x <= y
    ensures DayOf(x) <= DayOf(y)
  {
  }

  lemma TickForward(w: World, t: Instant)
    requires TableOk(w) && t >= w.clock
    ensures var v := w.(clock := t); TableOk(v) && Forward(w, v)
  {
    DayMonotone(w.clock, t);
  }

  /** The rows change in one place only, and the place holds the last row. */
  lemma LastRowForward(w: World, row: ReportRow)
    requires TableOk(w) && w.rows != [] && Last(w.rows).status == Pending && row.date == Last(w.rows).date
    ensures var v := w.(rows := w.rows[|w.rows| - 1 := row]); TableOk(v) && Forward(w, v)
  {
    var v := w.(rows := w.rows[|w.rows| - 1 := row]);
    assert Tidy(v.rows) by {
      assert forall i :: 0 <= i < |v.rows| - 1 ==> v.rows[i] == w.rows[i];
    }
  }

  lemma AppendForward(w: World, row: ReportRow)
    requires TableOk(w) && row.status == Pending && row.date <= LatestCompleted(w.clock)
    requires w.rows != [] ==> Last(w.rows).status == Delivered && row.date == Last(w.rows).date + 1
    ensures var v := w.(rows := w.rows + [row]); TableOk(v) && Forward(w, v)
  {
    var v := w.(rows := w.rows + [row]);
    assert Tidy(v.rows) by {
      assert forall i :: 0 <= i < |w.rows| ==> v.rows[i] == w.rows[i];
    }
  }

  /** What a claim does to a gap-free table that its date extends or is on. */
  lemma ClaimOnTidy(rows: seq<ReportRow>, date: Day, token: Token, now: Instant)
    requires Tidy(rows) && Extends(rows, date)
    ensures if !ClaimSucceeds(rows, date, now) then ClaimDelivery(rows, date, token, now) == rows
            else if HasDate(rows, date)
            then rows != [] && date == Last(rows).date && Last(rows).status == Pending
                 && ClaimDelivery(rows, date, token, now) == rows[|rows| - 1 := LeasedRow(date, token, now)]
            else (rows != [] ==> date == Last(rows).date + 1 && Last(rows).status == Delivered)
                 && ClaimDelivery(rows, date, token, now) == rows + [LeasedRow(date, token, now)]
  {
    if rows != [] {
      if HasDate(rows, date) {
        OnTheTable(rows, date);
      }
      TidyPosition(rows, date);
    }
  }

  lemma OnTheTable(rows: seq<ReportRow>, date: Day)
    requires Tidy(rows) && HasDate(rows, date)
    ensures rows != [] && rows[0].date <= date <= Last(rows).date
  {
    var i := Position(rows, date);
    assert rows[i].date == rows[0].date + i;
    assert rows[|rows| - 1].date == rows[0].date + |rows| - 1;
  }

  predicate Ready(w: World, date: Day, now: Instant) {
    date <= LatestCompleted(w.clock) && (ClaimSucceeds(w.rows, date, now) ==> Extends(w.rows, date))
  }

  lemma ClaimForward(w: World, date: Day, token: Token, now: Instant)
    requires TableOk(w) && Ready(w, date, now)
    ensures var v := w.(rows := ClaimDelivery(w.rows, date, token, now));
            && TableOk(v) && Forward(w, v)
            && (ClaimSucceeds(w.rows, date, now) ==> v.rows != [] && v.rows[0].date <= date <= Last(v.rows).date)
  {
    hide TableOk, Forward, ClaimDelivery, ClaimSucceeds, NextReportDate, Tidy, HasDate;
    var rows := w.rows;
    assert Tidy(rows) by { TableFacts(w); }
    if !ClaimSucceeds(rows, date, now) {
      TurnedDown(rows, date, token, now);
      assert Forward(w, w) by { ForwardReflexive(w); }
    } else {
      ClaimOnTidy(rows, date, token, now);
      if HasDate(rows, date) {
        LastRowForward(w, LeasedRow(date, token, now));
        OnTheTable(rows, date);
      } else {
        AppendForward(w, LeasedRow(date, token, now));
        FirstBeforeLast(rows);
      }
    }
  }

  lemma TurnedDown(rows: seq<ReportRow>, date: Day, token: Token, now: Instant)
    requires !ClaimSucceeds(rows, date, now)
    ensures ClaimDelivery(rows, date, token, now) == rows && rows != [] && RowOn(rows, date).Some?
  {
  }

  lemma FirstBeforeLast(rows: seq<ReportRow>)
    requires Tidy(rows)
    ensures rows != [] ==> rows[0].date <= Last(rows).date
  {
    assert rows != [] ==> rows[|rows| - 1].date == rows[0].date + |rows| - 1;
  }

  lemma TableFacts(w: World)
    requires TableOk(w)
    ensures Tidy(w.rows) && (w.rows != [] ==> Last(w.rows).date <= LatestCompleted(w.clock))
  {
  }

  lemma SettleForward(w: World, date: Day, token: Token, now: Instant)
    requires TableOk(w) && w.rows != [] && w.rows[0].date <= date <= Last(w.rows).date
    ensures var v := w.(rows := CompleteDelivery(w.rows, date, token, now)); TableOk(v) && Forward(w, v)
    ensures var v := w.(rows := ReleaseDelivery(w.rows, date, token, now)); TableOk(v) && Forward(w, v)
  {
    hide TableOk, Forward, NextReportDate;
    TableFacts(w);
    TidyPosition(w.rows, date);
    if HoldsLease(w.rows, date, token) {
      var n := |w.rows| - 1;
      assert Position(w.rows, date) == n;
      LastRowForward(w, w.rows[n].(status := Delivered, deliveredAt := Some(now)));
      LastRowForward(w, w.rows[n].(leaseExpires := now));
    } else {
      assert Forward(w, w) by { ForwardReflexive(w); }
    }
  }

  lemma ForwardReflexive(w: World)
    ensures Forward(w, w)
  {
  }

  /** A process whose own data did not change stays sound as the table moves forward. */
  lemma ProcForward(v: World, w: World, k: Proc)
    requires Forward(v, w) && TableOk(v) && TableOk(w) && ProcOk(v, k)
    ensures ProcOk(w, k)
  {
    DayMonotone(v.clock, w.clock);
    if v.rows != [] && (k.Claimed? || (k.Resolved? && !k.sawNone)) {
      var m, n := |v.rows|, |w.rows|;
      assert w.rows[0].date == v.rows[0].date && w.rows[m - 1].date == v.rows[m - 1].date;
      assert w.rows[m - 1].date == w.rows[0].date + m - 1 && w.rows[n - 1].date == w.rows[0].date + n - 1;
      if k.Resolved? && k.date > Last(v.rows).date {
        WithinTable(v.rows, k.date);
      }
    }
  }

  lemma WithinTable(rows: seq<ReportRow>, date: Day)
    requires Tidy(rows) && rows != [] && Extends(rows, date) && date > Last(rows).date
    ensures date == Last(rows).date + 1 && Last(rows).status == Delivered
  {
    if HasDate(rows, date) {
      OnTheTable(rows, date);
    }
  }

  /** A worker's claim, in order, either is turned down or extends the table. */
  lemma ClaimReady(w: World, p: Pid)
    requires Inv(w) && InOrder(w, Claim(p)) && p in w.procs && w.procs[p].Resolved?
    ensures Ready(w, w.procs[p].date, w.procs[p].now)
  {
    hide ClaimSucceeds;
    var k := w.procs[p];
    assert ProcOk(w, k);
    if !k.sawNone && k.date <= Last(w.rows).date {
      TidyPosition(w.rows, k.date);
    }
  }

  // ---------- one step ----------

  lemma SameTable(v: World, w: World, from: World)
    requires v.clock == w.clock && v.rows == w.rows
    ensures TableOk(v) <==> TableOk(w)
    ensures Forward(from, v) <==> Forward(from, w)
  {
  }

  lemma TableStep(w: World, act: Action)
    requires Inv(w) && InOrder(w, act)
    ensures TableOk(Step(w, act)) && Forward(w, Step(w, act))
  {
    hide TableOk, Forward, NextReportDate, ClaimDelivery, ReleaseDelivery, CompleteDelivery, Kept, Extends, ClaimSucceeds;
    assert TableOk(w);
    ForwardReflexive(w);
    match act
    case Tick(t) => if t >= w.clock { TickForward(w, t); }
    case Claim(p) =>
      if p in w.procs && w.procs[p].Resolved? {
        ClaimReady(w, p);
        ClaimForward(w, w.procs[p].date, w.nextToken, w.procs[p].now);
        SameTable(w.(rows := ClaimDelivery(w.rows, w.procs[p].date, w.nextToken, w.procs[p].now)), Step(w, act), w);
      }
    case Release(p) =>
      if p in w.procs && w.procs[p].Claimed? {
        assert ProcOk(w, w.procs[p]);
        SettleForward(w, w.procs[p].date, w.procs[p].token, w.procs[p].now);
        SameTable(w.(rows := ReleaseDelivery(w.rows, w.procs[p].date, w.procs[p].token, w.procs[p].now)), Step(w, act), w);
      }
    case Complete(p) =>
      if p in w.procs && w.procs[p].Claimed? {
        assert ProcOk(w, w.procs[p]);
        SettleForward(w, w.procs[p].date, w.procs[p].token, w.procs[p].now);
        SameTable(w.(rows := CompleteDelivery(w.rows, w.procs[p].date, w.procs[p].token, w.procs[p].now)), Step(w, act), w);
      }
    case _ => SameTable(w, Step(w, act), w);
  }

  lemma StepKeeps(w: World, act: Action)
    requires Inv(w) && InOrder(w, act)
    ensures Inv(Step(w, act)) && Forward(w, Step(w, act))
  {
    hide TableOk, Forward, NextReportDate, ClaimDelivery, ReleaseDelivery, CompleteDelivery, Kept, Extends, ClaimSucceeds;
    TableStep(w, act);
    var t := Step(w, act);
    forall p <- t.procs.Keys ensures ProcOk(t, t.procs[p]) {
      if p in w.procs && t.procs[p] == w.procs[p] {
        ProcForward(w, t, w.procs[p]);
      } else {
        NewProc(w, act, p);
      }
    }
  }

  lemma NewProc(w: World, act: Action, p: Pid)
    requires Inv(w) && InOrder(w, act) && p in Step(w, act).procs
    requires !(p in w.procs && Step(w, act).procs[p] == w.procs[p])
    ensures ProcOk(Step(w, act), Step(w, act).procs[p])
  {
    hide Forward, NextReportDate, ReleaseDelivery, CompleteDelivery, Kept, ClaimDelivery, TableOk, ClaimSucceeds, Extends;
    match act
    case Claim(q) =>
      if q in w.procs && w.procs[q].Resolved? {
        ClaimReady(w, q);
        ClaimForward(w, w.procs[q].date, w.nextToken, w.procs[q].now);
      }
    case Resolve(q, reading) =>
      if q !in w.procs && reading <= w.clock {
        DayMonotone(reading, w.clock);
        ResolvedDate(w, LatestCompleted(reading));
      }
    case _ =>
  }

  lemma TidyAscends(rows: seq<ReportRow>)
    requires Tidy(rows)
    ensures Ascending(rows)
  {
  }

  /** A date resolved with a row in sight, however old the reading, is on the table or extends it. */
  lemma ResolvedDate(w: World, latest: Day)
    requires TableOk(w)
    ensures var d := NextReportDate(w.rows, latest);
            && d <= latest
            && (UpTo(w.rows, latest) != [] ==>
                  w.rows != [] && w.rows[0].date <= d && (d <= Last(w.rows).date || Extends(w.rows, d)))
  {
    hide NextFrom, HasDate, UpTo, FirstPending, LastDelivered;
    var rows, visible := w.rows, UpTo(w.rows, latest);
    NextNotAfter(FirstPending(visible), LastDelivered(visible), latest);
    if visible != [] {
      VisibleIsTidy(rows, latest);
      NextOfTidy(visible, latest);
      FirstBeforeLast(visible);
    }
  }

  /** The visible part of a gap-free table is gap-free, looks the same to the same reading, and is all of the table
      unless it ends on the day of the reading. */
  lemma VisibleIsTidy(rows: seq<ReportRow>, latest: Day)
    requires Tidy(rows) && UpTo(rows, latest) != []
    ensures var visible := UpTo(rows, latest);
            && rows != [] && Tidy(visible) && UpTo(visible, latest) == visible && Last(visible).date <= latest
            && visible[0].date == rows[0].date && Last(visible).date <= Last(rows).date
            && (visible == rows || (Last(visible).date == latest && Last(visible).status == Delivered))
  {
    hide HasDate, UpTo, Position;
    var visible := UpTo(rows, latest);
    var k := Position(rows, latest + 1);
    TidyAscends(rows);
    UpToIsPrefix(rows, latest);
    assert forall i :: 0 <= i < k ==> visible[i] == rows[i] && rows[i].date <= latest;
    assert Tidy(visible);
    AllVisible(visible, latest);
    assert rows[k - 1].date == rows[0].date + k - 1;
    assert k < |rows| ==> rows[k].date == rows[0].date + k && rows[k].date > latest;
    assert rows[|rows| - 1].date == rows[0].date + |rows| - 1;
    assert k == |rows| ==> visible == rows;
  }

  // ---------- orderly runs ----------

  lemma ForwardTransitive(u: World, v: World, w: World)
    requires Forward(u, v) && Forward(v, w)
    ensures Forward(u, w)
  {
    forall i | 0 <= i < |u.rows|
      ensures w.rows[i].date == u.rows[i].date
      ensures u.rows[i].status == Delivered ==> w.rows[i] == u.rows[i]
    {
      assert v.rows[i].date == u.rows[i].date && w.rows[i].date == v.rows[i].date;
    }
  }

  lemma {:induction false} RunKeeps(w: World, acts: seq<Action>)
    requires Inv(w) && Orderly(w, acts)
    ensures Inv(Run(w, acts)) && Forward(w, Run(w, acts))
    decreases |acts|
  {
    hide Inv, Forward, InOrder, Step;
    if acts == [] {
      assert Forward(w, w) by { ForwardReflexive(w); }
    } else {
      StepKeeps(w, acts[0]);
      RunKeeps(Step(w, acts[0]), acts[1..]);
      ForwardTransitive(w, Step(w, acts[0]), Run(w, acts));
    }
  }

  lemma InitOk(clock: Instant)
    ensures Inv(Init(clock))
  {
  }

  /** Main result: in a run in which every claim resolved with no row in sight extends the table or is turned down,
      every day between two days on the log is on it, and all rows but the last are delivered. */
  lemma LogHasNoGap(clock: Instant, acts: seq<Action>, i: nat, j: nat, date: Day)
    requires Orderly(Init(clock), acts)
    requires i <= j < |Run(Init(clock), acts).rows|
    requires Run(Init(clock), acts).rows[i].date <= date <= Run(Init(clock), acts).rows[j].date
    ensures var rows := Run(Init(clock), acts).rows;
            && (exists k :: i <= k <= j && rows[k].date == date)
            && (i < j ==> rows[i].status == Delivered)
  {
    hide Run, Orderly, Forward;
    InitOk(clock);
    RunKeeps(Init(clock), acts);
    var rows := Run(Init(clock), acts).rows;
    assert rows[i].date == rows[0].date + i && rows[j].date == rows[0].date + j;
    var k := date - rows[0].date;
    assert rows[k].date == rows[0].date + k;
  }

  /** That is exact, claim by claim: from a reachable gap-free table, a claim leaves it gap-free exactly if it is
      in order. */
  lemma InOrderIsExact(clock: Instant, acts: seq<Action>, p: Pid)
    requires Orderly(Init(clock), acts)
    requires p in Run(Init(clock), acts).procs && Run(Init(clock), acts).procs[p].Resolved?
    ensures Tidy(Step(Run(Init(clock), acts), Claim(p)).rows) <==> InOrder(Run(Init(clock), acts), Claim(p))
  {
    hide Run, Orderly, Forward;
    InitOk(clock);
    RunKeeps(Init(clock), acts);
    var w := Run(Init(clock), acts);
    var k := w.procs[p];
    ClaimKeepsTidyExactly(w.rows, k.date, w.nextToken, k.now);
    if InOrder(w, Claim(p)) {
      TableStep(w, Claim(p));
    }
  }

  // ---------- the next report date and retention, in every run ----------

  /** The days on the table, and those resolved but not claimed yet, are over. */
  predicate DaysOver(w: World) {
    && Completed(w.rows, LatestCompleted(w.clock))
    && forall p <- w.procs.Keys :: w.procs[p].Resolved? ==> w.procs[p].date <= LatestCompleted(w.clock)
  }

  /** The step adds a row for a day before the next report date. */
  predicate StartsBehind(w: World, act: Action) {
    && act.Claim? && act.p in w.procs && w.procs[act.p].Resolved?
    && RowOn(w.rows, w.procs[act.p].date).None? && w.procs[act.p].date < NextDate(w)
  }

  lemma ClaimMovesNext(w: World, date: Day, token: Token, now: Instant)
    requires Completed(w.rows, LatestCompleted(w.clock)) && date <= LatestCompleted(w.clock)
    ensures var rows := ClaimDelivery(w.rows, date, token, now);
            && Completed(rows, LatestCompleted(w.clock))
            && (NextDate(w) <= NextReportDate(rows, LatestCompleted(w.clock)) <==> RowOn(w.rows, date).Some? || NextDate(w) <= date)
  {
    hide RowOn, ClaimDelivery, ClaimSucceeds, NextReportDate, Ascending, FirstPending, LastDelivered;
    var latest := LatestCompleted(w.clock);
    var row := LeasedRow(date, token, now);
    var rows := ClaimDelivery(w.rows, date, token, now);
    assert Ascending(w.rows);
    if ClaimSucceeds(w.rows, date, now) {
      forall d ensures Ascending(rows) && RowOn(rows, d) == if d == date then Some(row) else RowOn(w.rows, d) {
        ClaimWritesOneDate(w.rows, date, token, now, d);
      }
      ClaimWritesOneDate(w.rows, date, token, now, date);
      assert Differs(w.rows, rows, row);
      CompletedAfter(w.rows, rows, row, latest);
      if RowOn(w.rows, date).Some? {
        SucceedsUndelivered(w.rows, date, now);
        NextAfterLease(w.rows, rows, row, latest);
      } else {
        NextAfterInsert(w.rows, rows, row, latest);
      }
    } else {
      TurnedDown(w.rows, date, token, now);
    }
  }

  lemma HolderMovesNext(w: World, date: Day, token: Token, now: Instant, after: seq<ReportRow>)
    requires Completed(w.rows, LatestCompleted(w.clock))
    requires after == ReleaseDelivery(w.rows, date, token, now) || after == CompleteDelivery(w.rows, date, token, now)
    ensures Completed(after, LatestCompleted(w.clock)) && NextDate(w) <= NextReportDate(after, LatestCompleted(w.clock))
  {
    hide RowOn, ReleaseDelivery, CompleteDelivery, HoldsLease, NextReportDate, Ascending, FirstPending, LastDelivered;
    var latest := LatestCompleted(w.clock);
    assert Ascending(w.rows);
    HeldIsPending(w.rows, date, token);
    if HoldsLease(w.rows, date, token) {
      DateCompleted(w.rows, latest, date);
      var held := RowOn(w.rows, date).value;
      OnItsDate(w.rows, date);
      var row := if after == ReleaseDelivery(w.rows, date, token, now) then held.(leaseExpires := now)
                 else held.(status := Delivered, deliveredAt := Some(now));
      forall d ensures Ascending(after) && RowOn(after, d) == if d == date then Some(row) else RowOn(w.rows, d) {
        HolderWritesOneDate(w.rows, date, token, now, d);
      }
      HolderWritesOneDate(w.rows, date, token, now, date);
      assert Differs(w.rows, after, row);
      CompletedAfter(w.rows, after, row, latest);
      if row.status == Pending {
        NextAfterLease(w.rows, after, row, latest);
      } else {
        NextAfterDelivery(w.rows, after, row, latest);
      }
    } else {
      NotHeld(w.rows, date, token, now);
    }
  }

  lemma OnItsDate(rows: seq<ReportRow>, d: Day)
    ensures RowOn(rows, d).Some? ==> RowOn(rows, d).value.date == d
  {
  }

  lemma NotHeld(rows: seq<ReportRow>, date: Day, token: Token, now: Instant)
    requires !HoldsLease(rows, date, token)
    ensures ReleaseDelivery(rows, date, token, now) == rows && CompleteDelivery(rows, date, token, now) == rows
  {
  }

  lemma TickMovesNext(w: World, t: Instant)
    requires DaysOver(w) && t >= w.clock
    ensures DaysOver(w.(clock := t)) && NextDate(w) <= NextDate(w.(clock := t))
  {
    hide NextReportDate;
    DayMonotone(w.clock, t);
    NextMonotone(w.rows, LatestCompleted(w.clock), LatestCompleted(t));
  }

  lemma DaysStep(w: World, act: Action)
    requires DaysOver(w)
    ensures DaysOver(Step(w, act))
    ensures NextDate(w) <= NextDate(Step(w, act)) <==> !StartsBehind(w, act)
  {
    hide Completed, RowOn, ClaimDelivery, ClaimSucceeds, ReleaseDelivery, CompleteDelivery, NextFrom, Kept, UpTo, FirstPending, LastDelivered;
    match act
    case Tick(t) => if t >= w.clock { TickMovesNext(w, t); }
    case Claim(p) =>
      if p in w.procs && w.procs[p].Resolved? {
        ClaimMovesNext(w, w.procs[p].date, w.nextToken, w.procs[p].now);
      }
    case Release(p) =>
      if p in w.procs && w.procs[p].Claimed? {
        var k := w.procs[p];
        HolderMovesNext(w, k.date, k.token, k.now, ReleaseDelivery(w.rows, k.date, k.token, k.now));
      }
    case Complete(p) =>
      if p in w.procs && w.procs[p].Claimed? {
        var k := w.procs[p];
        HolderMovesNext(w, k.date, k.token, k.now, CompleteDelivery(w.rows, k.date, k.token, k.now));
      }
    case Resolve(p, reading) =>
      if reading <= w.clock {
        DayMonotone(reading, w.clock);
        NextNotAfter(FirstPending(UpTo(w.rows, LatestCompleted(reading))), LastDelivered(UpTo(w.rows, LatestCompleted(reading))),
                     LatestCompleted(reading));
      }
    case _ =>
  }

  lemma {:induction false} DaysRun(w: World, acts: seq<Action>)
    requires DaysOver(w)
    ensures DaysOver(Run(w, acts))
    decreases |acts|
  {
    hide DaysOver, Step;
    if acts != [] {
      DaysStep(w, acts[0]);
      DaysRun(Step(w, acts[0]), acts[1..]);
    }
  }

  lemma InitOver(clock: Instant)
    ensures DaysOver(Init(clock))
  {
  }

  /** Main result, for every run and every step: the next report date falls back exactly if a claim adds a row for
      a day before it. */
  lemma NextDateFallsExactly(clock: Instant, acts: seq<Action>, act: Action)
    ensures NextDate(Run(Init(clock), acts + [act])) < NextDate(Run(Init(clock), acts)) <==> StartsBehind(Run(Init(clock), acts), act)
  {
    hide Run, Step, DaysOver, NextReportDate;
    var w := Run(Init(clock), acts);
    InitOver(clock);
    DaysRun(Init(clock), acts);
    DaysStep(w, act);
    RunAppend(Init(clock), acts, [act]);
    assert Run(w, [act]) == Step(w, act) by { RunOne(w, act); }
  }

  lemma RunOne(w: World, act: Action)
    ensures Run(w, [act]) == Step(w, act)
  {
    hide Step;
    assert [act][1..] == [];
  }

  /** No step of the run adds a row for a day before the next report date. */
  predicate NeverBehind(w: World, acts: seq<Action>)
    decreases |acts|
  {
    acts == [] || (!StartsBehind(w, acts[0]) && NeverBehind(Step(w, acts[0]), acts[1..]))
  }

  lemma {:induction false} NextForward(w: World, acts: seq<Action>)
    requires DaysOver(w) && NeverBehind(w, acts)
    ensures NextDate(w) <= NextDate(Run(w, acts))
    decreases |acts|
  {
    hide DaysOver, StartsBehind, Step, NextReportDate;
    if acts != [] {
      DaysStep(w, acts[0]);
      NextForward(Step(w, acts[0]), acts[1..]);
    }
  }

  /** Main result: whatever happened before, a sweep that resolves what to preserve, with however old a reading, and
      acts on it however late, deletes only events of days before every later next report date, as long as no
      step from its resolving on adds a row for a day before that date. */
  lemma RetentionStaysBehindReports(clock: Instant, acts: seq<Action>, p: Pid, reading: Instant, mid: seq<Action>,
                                    configured: Instant, more: seq<Action>, e: EventId)
    requires p !in Run(Init(clock), acts).procs && reading <= Run(Init(clock), acts).clock
    requires var s := Step(Run(Init(clock), acts), StartSweep(p, reading));
             var v := Run(s, mid);
             && p in v.procs && v.procs[p] == s.procs[p]
             && e in v.events && e !in Step(v, Sweep(p, configured)).events
             && NeverBehind(s, mid + more)
    ensures var s := Step(Run(Init(clock), acts), StartSweep(p, reading));
            DayOf(Run(s, mid).events[e]) < NextDate(Run(s, mid + more))
  {
    hide Run, DaysOver, NeverBehind, NextReportDate;
    var w := Run(Init(clock), acts);
    var s := Step(w, StartSweep(p, reading));
    InitOver(clock);
    DaysRun(Init(clock), acts);
    DaysStep(w, StartSweep(p, reading));
    NextForward(s, mid + more);
    DayMonotone(reading, w.clock);
    assert Ascending(w.rows) by { OverAscends(w); }
    NextMonotone(w.rows, LatestCompleted(reading), LatestCompleted(w.clock));
    BeforeStart(Run(s, mid).events[e], NextReportDate(w.rows, LatestCompleted(reading)));
  }

  lemma OverAscends(w: World)
    requires DaysOver(w)
    ensures Ascending(w.rows)
  {
  }

  lemma BeforeStart(t: Instant, d: Day)
    ensures t < StartOf(d) <==> DayOf(t) < d
  {
  }

  // ---------- runs out of order, and late ones ----------

  const Early := StartOf(10)
  const Late := StartOf(12)

  function Row(date: Day, token: Token, now: Instant): ReportRow {
    LeasedRow(date, token, now)
  }

  function Sent(row: ReportRow, now: Instant): ReportRow {
    row.(status := Delivered, deliveredAt := Some(now))
  }

  lemma TwoWorkersResolve()
    ensures Step(Step(Step(Init(Early), Resolve(0, Early)), Tick(Late)), Resolve(1, Late))
            == World(Late, [], map[0 := Resolved(9, Early, true), 1 := Resolved(11, Late, true)], 0, map[])
  {
  }

  lemma ClaimAndComplete(w: World, p: Pid)
    requires p in w.procs && w.procs[p].Resolved? && w.rows == []
    ensures var date, now := w.procs[p].date, w.procs[p].now;
            var v := Step(Step(w, Claim(p)), Complete(p));
            && v.rows == [Sent(Row(date, w.nextToken, now), now)] && v.procs == Leave(w.procs, p)
            && v.nextToken == w.nextToken + 1 && v.clock == w.clock && v.events == w.events
  {
  }

  lemma ClaimAndCompleteBefore(w: World, p: Pid)
    requires p in w.procs && w.procs[p].Resolved? && |w.rows| == 1 && w.procs[p].date < w.rows[0].date
    ensures var date, now := w.procs[p].date, w.procs[p].now;
            Step(Step(w, Claim(p)), Complete(p)).rows == [Sent(Row(date, w.nextToken, now), now), w.rows[0]]
  {
    var date, now := w.procs[p].date, w.procs[p].now;
    assert ClaimDelivery(w.rows, date, w.nextToken, now) == [Row(date, w.nextToken, now), w.rows[0]];
  }

  lemma {:induction false} Seven(w: World, acts: seq<Action>)
    requires |acts| == 7
    ensures Run(w, acts)
            == Step(Step(Step(Step(Step(Step(Step(w, acts[0]), acts[1]), acts[2]), acts[3]), acts[4]), acts[5]), acts[6])
  {
    hide Step;
    var w1 := Step(w, acts[0]);
    assert Run(w, acts) == Run(w1, acts[1..]);
    var w2 := Step(w1, acts[1]);
    assert Run(w1, acts[1..]) == Run(w2, acts[2..]) by { assert acts[1..][1..] == acts[2..]; }
    var w3 := Step(w2, acts[2]);
    assert Run(w2, acts[2..]) == Run(w3, acts[3..]) by { assert acts[2..][1..] == acts[3..]; }
    var w4 := Step(w3, acts[3]);
    assert Run(w3, acts[3..]) == Run(w4, acts[4..]) by { assert acts[3..][1..] == acts[4..]; }
    var w5 := Step(w4, acts[4]);
    assert Run(w4, acts[4..]) == Run(w5, acts[5..]) by { assert acts[4..][1..] == acts[5..]; }
    var w6 := Step(w5, acts[5]);
    assert Run(w5, acts[5..]) == Run(w6, acts[6..]) by { assert acts[5..][1..] == acts[6..]; }
    assert Run(w6, acts[6..]) == Step(w6, acts[6]) by { assert acts[6..][1..] == []; }
  }

  /** Out of order, a day can be skipped for good: a worker that resolved its date on the empty
      table claims it days later, after another worker started the log. Day 10 is then never reported. */
  lemma LateFirstClaimLeavesAGap()
    ensures var acts := [Resolve(0, Early), Tick(Late), Resolve(1, Late), Claim(1), Complete(1), Claim(0), Complete(0)];
            var rows := Run(Init(Early), acts).rows;
            && |rows| == 2 && rows[0].date == 9 && rows[1].date == 11
            && rows[0].status == rows[1].status == Delivered
            && forall latest: Day :: latest >= 11 ==> NextReportDate(rows, latest) >= 11
  {
    hide Run, Step, NextReportDate;
    var acts := [Resolve(0, Early), Tick(Late), Resolve(1, Late), Claim(1), Complete(1), Claim(0), Complete(0)];
    Seven(Init(Early), acts);
    TwoWorkersResolve();
    var w3 := Step(Step(Step(Init(Early), Resolve(0, Early)), Tick(Late)), Resolve(1, Late));
    ClaimAndComplete(w3, 1);
    var w5 := Step(Step(w3, Claim(1)), Complete(1));
    ClaimAndCompleteBefore(w5, 0);
    var rows := Run(Init(Early), acts).rows;
    forall latest: Day | latest >= 11 ensures NextReportDate(rows, latest) >= 11 {
      BothDelivered(rows, latest);
    }
  }

  lemma BothDelivered(rows: seq<ReportRow>, latest: Day)
    requires |rows| == 2 && rows[0].status == rows[1].status == Delivered && rows[0].date < rows[1].date <= latest
    ensures NextReportDate(rows, latest) >= rows[1].date
  {
    AllVisible(rows, latest);
    assert FirstPending(rows) == FirstPending(rows[1..]);
    assert FirstPending(rows[1..]) == FirstPending(rows[1..][1..]);
  }

  lemma SweepBeforeLateClaim()
    ensures Step(Step(Step(Step(Step(Init(Early), Observe(0, Early)), Resolve(0, Early)), Tick(Late)), StartSweep(1, Late)), Sweep(1, Late))
            == World(Late, [], map[0 := Resolved(9, Early, true)], 0, map[])
  {
    var w1 := Step(Init(Early), Observe(0, Early));
    assert w1 == World(Early, [], map[], 0, map[0 := Early]);
    var w3 := Step(Step(w1, Resolve(0, Early)), Tick(Late));
    assert w3 == World(Late, [], map[0 := Resolved(9, Early, true)], 0, map[0 := Early]);
    var w4 := Step(w3, StartSweep(1, Late));
    assert w4 == World(Late, [], map[0 := Resolved(9, Early, true), 1 := Sweeping(StartOf(11))], 0, map[0 := Early]);
  }

  lemma OnlyDelivered(rows: seq<ReportRow>, latest: Day)
    requires |rows| == 1 && rows[0].status == Delivered && rows[0].date < latest
    ensures NextReportDate(rows, latest) == rows[0].date + 1
  {
    NextOfTidy(rows, latest);
  }

  /** A claim behind the next report date can cost a day its events: retention looks at the empty table on day 12,
      and then a worker starts the log with day 9. Day 10 is reported next, and its event is gone. */
  lemma LateStartLosesEvents()
    ensures var acts := [Observe(0, Early), Resolve(0, Early), Tick(Late), StartSweep(1, Late), Sweep(1, Late), Claim(0), Complete(0)];
            && Run(Init(Early), acts[..1]).events == map[0 := Early] && DayOf(Early) == 10
            && Run(Init(Early), acts).events == map[] && NextDate(Run(Init(Early), acts)) == 10
  {
    hide Run, Step, NextReportDate;
    var acts := [Observe(0, Early), Resolve(0, Early), Tick(Late), StartSweep(1, Late), Sweep(1, Late), Claim(0), Complete(0)];
    Seven(Init(Early), acts);
    SweepBeforeLateClaim();
    var w5 := World(Late, [], map[0 := Resolved(9, Early, true)], 0, map[]);
    ClaimAndComplete(w5, 0);
    OnlyDelivered(Run(Init(Early), acts).rows, LatestCompleted(Late));
    assert Run(Init(Early), acts[..1]).events == map[0 := Early] by { ObserveOnce(acts[..1]); }
  }

  lemma ObserveOnce(acts: seq<Action>)
    requires acts == [Observe(0, Early)]
    ensures Run(Init(Early), acts).events == map[0 := Early]
  {
    assert acts[1..] == [];
  }

  const Following := StartOf(11)

  lemma Extend(w: World, acts: seq<Action>, act: Action)
    ensures Run(w, acts + [act]) == Step(Run(w, acts), act)
  {
    hide Step;
    RunAppend(w, acts, [act]);
    RunOne(Run(w, acts), act);
  }

  lemma ResolveOnEmpty(w: World, p: Pid, reading: Instant)
    requires w.rows == [] && p !in w.procs && reading <= w.clock
    ensures Step(w, Resolve(p, reading)) == w.(procs := w.procs[p := Resolved(LatestCompleted(reading), reading, true)])
  {
  }

  lemma ResolveHidden(w: World, p: Pid, reading: Instant)
    requires |w.rows| == 1 && w.rows[0].date > LatestCompleted(reading) && p !in w.procs && reading <= w.clock
    ensures Step(w, Resolve(p, reading)) == w.(procs := w.procs[p := Resolved(LatestCompleted(reading), reading, true)])
  {
    NoneVisible(w.rows, LatestCompleted(reading));
  }

  lemma ClaimBefore(w: World, p: Pid)
    requires p in w.procs && w.procs[p].Resolved? && w.procs[p].sawNone
    requires |w.rows| == 1 && w.procs[p].date < w.rows[0].date
    ensures Step(w, Claim(p)).rows == [Row(w.procs[p].date, w.nextToken, w.procs[p].now), w.rows[0]]
    ensures !InOrder(w, Claim(p))
  {
    var date, now := w.procs[p].date, w.procs[p].now;
    assert ClaimDelivery(w.rows, date, w.nextToken, now) == [Row(date, w.nextToken, now), w.rows[0]];
  }

  /** The log can fall out of order although it was started on time and no date was resolved on the empty table
      but that one: a handler scheduled on day 10 and held up by its other work resolves its date with that
      reading, on day 11, when the row of day 10 is already there. The reading hides that row, and the handler
      adds day 9 before it. */
  lemma OldReadingAddsADayBefore()
    ensures var acts := [Resolve(1, Following), Claim(1), Complete(1), Resolve(0, Early), Claim(0)];
            var rows := Run(Init(Following), acts).rows;
            && |rows| == 2 && rows[0].date == 9 && rows[0].status == Pending && rows[1].date == 10 && rows[1].status == Delivered
            && !Tidy(rows)
            && InOrder(Run(Init(Following), acts[..1]), Claim(1)) && !StartsBehind(Run(Init(Following), acts[..1]), Claim(1))
            && Run(Init(Following), acts[..3]).rows != [] && !InOrder(Run(Init(Following), acts[..4]), Claim(0))
  {
    hide Run, Step, NextReportDate, InOrder, StartsBehind;
    var r1, c1, d1, r0, c0 := Resolve(1, Following), Claim(1), Complete(1), Resolve(0, Early), Claim(0);
    var acts := [r1, c1, d1, r0, c0];
    var w0 := Init(Following);
    ResolveOnEmpty(w0, 1, Following);
    var w1 := Step(w0, r1);
    ClaimAndComplete(w1, 1);
    var w3 := Step(Step(w1, c1), d1);
    ResolveHidden(w3, 0, Early);
    var w4 := Step(w3, r0);
    ClaimBefore(w4, 0);
    RunOne(w0, r1);
    Extend(w0, [r1], c1);
    Extend(w0, [r1, c1], d1);
    Extend(w0, [r1, c1, d1], r0);
    Extend(w0, [r1, c1, d1, r0], c0);
    assert [r1] + [c1] == [r1, c1] && [r1, c1] + [d1] == [r1, c1, d1] && [r1, c1, d1] + [r0] == [r1, c1, d1, r0];
    assert [r1, c1, d1, r0] + [c0] == acts;
    assert acts[..1] == [r1] && acts[..3] == [r1, c1, d1] && acts[..4] == [r1, c1, d1, r0];
    StartedOnTime(w1);
  }

  lemma StartedOnTime(w: World)
    requires w.rows == [] && w.clock == Following && w.procs == map[1 := Resolved(10, Following, true)]
    ensures InOrder(w, Claim(1)) && !StartsBehind(w, Claim(1))
  {
  }
}
