/** What each event makes of the live schedule, its count, limit, deadline and due time, and what is reported. */
module RetrySchedules {
  import opened Wrappers
  import opened RetryChannel
  import opened RetryEpisodes
  import opened RetryRuns

  /** The event asks for this episode with a trigger not yet seen, and its ended marker does not forbid it. */
  predicate Asks(st: State, e: Event, k: Episode) {
    Names(e, k) && e.intent.generation != st.observed && st.ended != Some(k)
  }

  /** What the episode has to its credit once it is asked for: the running allowance, or else a new one. */
  function Allowance(st: State, e: Event, k: Episode): Accounting
    requires Names(e, k)
  {
    if Accounted(st, k) then st.accounting.value
    else Accounting(k.target, k.phase, k.generation, 0, Limit(e), e.at + e.policy.deadline)
  }

  /** Main result: asking for an episode with a new trigger schedules it exactly if completions are left and the
      deadline of its accounting is not past, and takes any live schedule away otherwise. The due time stays that of
      a live schedule of the episode and is one cadence away for any other. */
  lemma AskedSchedule(c: Channel, st: State, e: Event, k: Episode)
    requires Ok(c, st) && Asks(st, e, k)
    ensures var t := After1(c, st, e);
            var a := Allowance(st, e, k);
            && t.observed == e.intent.generation && t.ended.None? && t.accounting == Some(a)
            && t.schedule == (if a.completed < a.maxCompleted && e.at <= a.deadline
                              then Some(Schedule(c, e.intent.generation.value, e.intent.scene, k.target, a.completed, a.maxCompleted,
                                                 k.phase, k.generation, a.deadline,
                                                 if Live(st, k) then st.schedule.value.nextDue else e.at + e.policy.cadence))
                              else None)
  {
  }

  /** Every other reconcile: with nothing asked for, schedule and accounting end and leave the marker of the episode;
      another episode under the old trigger only takes the schedule away; a marked episode, and the live one under its
      old trigger, change nothing but the trigger seen. */
  lemma OtherReconciles(c: Channel, st: State, e: Event)
    requires Ok(c, st) && e.EReconcile? && !(exists k :: Asks(st, e, k))
    ensures var t := After1(c, st, e);
            && t.observed == e.intent.generation
            && (if e.intent.Complete()
                then && t.accounting == st.accounting && t.ended == st.ended
                     && t.schedule == (if st.schedule.None? || st.schedule.value.Key() == e.intent.Key() then st.schedule else None)
                else && t.schedule.None? && t.accounting.None?
                     && t.ended == (if st.accounting.Some? then Some(st.accounting.value.Key()) else st.ended))
  {
    assert e.intent.Complete() ==> !Asks(st, e, e.intent.Key());
  }

  /** Main result: what a reconcile reports. A live schedule that is taken away or replaced is reported first, as
      "replaced" if an episode was asked for and else as "cancelled"; then comes the schedule asked for, as "scheduled"
      exactly if it is live afterwards, with its cause handed on exactly if that is wanted and there was one. */
  lemma ReportedExactly(c: Channel, st: State, e: Event, transfer: bool)
    requires Ok(c, st) && e.EReconcile?
    ensures var t := After1(c, st, e);
            var r := ReconcileReport(c, st, e.intent, e.at, e.policy, e.streamMax, transfer);
            if e.intent.Complete() && Asks(st, e, e.intent.Key()) then
              var a := Allowance(st, e, e.intent.Key());
              var n := if st.schedule.Some? then 1 else 0;
              && |r.transitions| == n + 1
              && (n == 1 ==> r.transitions[0] == Transition(st.schedule.value, "replaced"))
              && AccountingOf(r.transitions[n].schedule) == a
              && r.transitions[n].schedule.trigger == e.intent.generation.value && r.transitions[n].schedule.scene == e.intent.scene
              && (t.schedule.Some? ==> t.schedule == Some(r.transitions[n].schedule))
              && (r.transitions[n].outcome == "scheduled" <==> t.schedule.Some?)
              && (r.transitions[n].outcome == "disabled" <==> a.maxCompleted == 0)
              && (r.transitions[n].outcome == "exhausted" <==> 0 < a.maxCompleted <= a.completed)
              && (r.transitions[n].outcome == "expired" <==> a.completed < a.maxCompleted && e.at > a.deadline)
              && r.causeTransfer == (if transfer && n == 1 then Some((st.schedule.value, r.transitions[n].schedule)) else None)
            else
              && r.causeTransfer.None?
              && r.transitions == (if st.schedule.Some? && t.schedule.None? then [Transition(st.schedule.value, "cancelled")] else [])
  {
    OutcomesDiffer();
    if e.intent.Complete() && Asks(st, e, e.intent.Key()) {
      AskedSchedule(c, st, e, e.intent.Key());
    }
  }

  lemma OutcomesDiffer()
    ensures "scheduled" != "expired" && "scheduled" != "disabled" && "scheduled" != "exhausted"
    ensures "expired" != "disabled" && "expired" != "exhausted" && "disabled" != "exhausted"
  {
    assert "scheduled"[0] != "expired"[0] && "scheduled"[0] != "disabled"[0] && "expired"[1] == 'x' && "exhausted"[2] == 'h' && "expired"[2] == 'p';
  }

  /** The live schedule is the captured one, or took its due time over from it when the episode was triggered again. */
  predicate Stands(st: State, captured: Schedule) {
    && st.schedule.Some?
    && var s := st.schedule.value;
    && s.channel == captured.channel && s.target == captured.target && s.phase == captured.phase && s.episode == captured.episode
    && (|| (s.trigger == captured.trigger && s.scene == captured.scene)
        || (&& s.trigger > captured.trigger && s.scene > captured.scene
            && s.completed == captured.completed && s.maxCompleted == captured.maxCompleted
            && s.deadline == captured.deadline && s.nextDue == captured.nextDue))
  }

  /** Main result: a completion counts exactly if the captured schedule stands. It then is counted in the accounting
      too, the next one is due one cadence later, and the schedule stays live exactly if completions are left and the
      deadline is not past. */
  lemma CompletedExactly(c: Channel, st: State, captured: Schedule, at: Instant, cadence: Duration)
    requires Ok(c, st)
    ensures var t := After1(c, st, EComplete(captured, at, cadence));
            if Stands(st, captured) then
              var s := st.schedule.value;
              && t.accounting == Some(AccountingOf(s).(completed := s.completed + 1))
              && t.schedule == (if s.completed + 1 < s.maxCompleted && at <= s.deadline
                                then Some(s.(completed := s.completed + 1, nextDue := at + cadence)) else None)
              && t.observed == st.observed && t.ended == st.ended
            else t == st
    ensures Credits(st, captured) <==> Stands(st, captured)
  {
  }

  /** A deferral moves the due time of the captured schedule, and of no other, to one cadence later, but not beyond the
      first instant after its deadline. A failure forgets the episode without leaving a marker. */
  lemma SmallSteps(c: Channel, st: State, captured: Schedule, at: Instant, cadence: Duration)
    requires Ok(c, st)
    ensures var t := After1(c, st, EDefer(captured, at, cadence));
            if st.schedule.Some? && captured == st.schedule.value.(completed := captured.completed, maxCompleted := captured.maxCompleted,
                                                                    deadline := captured.deadline, nextDue := captured.nextDue)
            then var s := st.schedule.value;
                 && t == st.(schedule := t.schedule) && t.schedule.Some? && t.schedule.value == s.(nextDue := t.schedule.value.nextDue)
                 && t.schedule.value.nextDue <= at + cadence && t.schedule.value.nextDue <= s.deadline + 1
                 && (t.schedule.value.nextDue == at + cadence || t.schedule.value.nextDue == s.deadline + 1)
            else t == st
    ensures MatchingSchedule(st, captured).Some? ==>
              MatchingSchedule(st, captured) == st.schedule
              && st.schedule.value.trigger == captured.trigger && st.schedule.value.scene == captured.scene
    ensures After1(c, st, EFail) == State(st.observed, None, None, st.ended)
    ensures After1(c, st, EClear) == State(st.observed, None, None, None)
    ensures After1(c, st, ETake) == State(st.observed, None, st.accounting, st.ended)
    ensures After1(c, st, ESetNextDue(at)).schedule
            == if st.schedule.Some? then Some(st.schedule.value.(nextDue := at)) else None
  {
  }

  // ---------- the deadline, over every run ----------

  /** From the i-th event on, every reconcile comes after this time. */
  predicate AllLate(events: seq<Event>, i: nat, deadline: Instant) {
    forall j | i <= j < |events| :: events[j].EReconcile? ==> events[j].at > deadline
  }

  /** Main result: once an episode is not live and its deadline is past, no later event makes it live, unless one gives
      it a new allowance. */
  lemma ExpiredStaysDown(c: Channel, events: seq<Event>, k: Episode, i: nat, n: nat)
    requires i <= n <= |events| && !LiveAt(c, events, k, i) && Accounted(After(c, events[..i]), k) && NotRenewed(c, events, k, i)
    requires AllLate(events, i, After(c, events[..i]).accounting.value.deadline)
    ensures !LiveAt(c, events, k, n)
  {
    hide Ok, After, After1, LiveAt, RevivedAt, Renews, Accounted;
    if LiveAt(c, events, k, n) {
      var j := SomeStepRevives(c, events, k, i, n);
      PrefixNotRenewed(c, events, k, i, j);
      assert events[..j][..i] == events[..i];
      AllowanceIsFixed(c, events[..j], k, i);
      NoLateRevival(c, events, k, i, j);
    }
  }

  lemma PrefixNotRenewed(c: Channel, events: seq<Event>, k: Episode, i: nat, n: nat)
    requires i <= n <= |events| && NotRenewed(c, events, k, i)
    ensures NotRenewed(c, events[..n], k, i)
  {
    hide After, Renews;
    forall j | i <= j < n ensures !Renews(After(c, events[..n][..j]), events[..n][j], k) {
      assert events[..n][..j] == events[..j] && events[..n][j] == events[j];
    }
  }

  lemma NoLateRevival(c: Channel, events: seq<Event>, k: Episode, i: nat, j: nat)
    requires i <= j < |events| && NotRenewed(c, events, k, i) && RevivedAt(c, events, k, j)
    requires Accounted(After(c, events[..i]), k)
    requires var first := After(c, events[..i]).accounting.value;
             Accounted(After(c, events[..j]), k) ==> After(c, events[..j]).accounting.value.deadline == first.deadline
    ensures events[j].EReconcile? && events[j].at <= After(c, events[..i]).accounting.value.deadline
  {
    hide After;
    assert !Renews(After(c, events[..j]), events[j], k);
  }

  /** A live episode is not live any more after it is asked for, or completed, past its deadline. */
  lemma LateStepEnds(c: Channel, st: State, e: Event, k: Episode)
    requires Ok(c, st) && Live(st, k)
    requires Asks(st, e, k) || IsCredit(st, e, k)
    ensures e.at > st.schedule.value.deadline ==> After1(c, st, e).schedule.None?
    ensures e.at <= st.schedule.value.deadline && Asks(st, e, k) ==>
              After1(c, st, e).schedule == Some(st.schedule.value.(trigger := e.intent.generation.value, scene := e.intent.scene))
  {
  }

  // ---------- the audit line of a transition ----------

  /** What a line says: the schedule's own data, the time since the log began and the times left until it is due and
      until its deadline, none of them below zero, and whether the schedule is the live one. */
  lemma FactSays(s: Schedule, outcome: string, now: Instant, startedAt: Instant, sequence: nat, active: bool)
    ensures var f := FactOf(s, outcome, now, startedAt, sequence, active);
            && f.outcome == outcome && f.sequence == sequence && f.active == active
            && f.channel == s.channel && f.trigger == s.trigger && f.scene == s.scene && f.target == s.target
            && f.phase == s.phase && f.episode == s.episode && f.completed == s.completed && f.maxCompleted == s.maxCompleted
            && (f.at == now - startedAt || (f.at == 0 && now <= startedAt))
            && (f.dueIn == s.nextDue - now || (f.dueIn == 0 && s.nextDue <= now))
            && (f.deadlineIn == s.deadline - now || (f.deadlineIn == 0 && s.deadline <= now))
  {
  }
}
