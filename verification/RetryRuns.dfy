/** Whole runs of one retry channel: the budget of an episode, and completions that outlive their schedule. */
module RetryRuns {
  import opened Wrappers
  import opened RetryChannel
  import opened RetryEpisodes

  datatype Event =
    | EReconcile(intent: Intent, at: Instant, policy: Policy, streamMax: nat)
    | ETake
    | ESetNextDue(due: Instant)
    | EDefer(captured: Schedule, at: Instant, cadence: Duration)
    | EComplete(captured: Schedule, at: Instant, cadence: Duration)
    | EFail
    | EClear

  function After1(c: Channel, st: State, e: Event): State {
    match e
    case EReconcile(intent, at, policy, streamMax) => Reconcile(c, st, intent, at, policy, streamMax)
    case ETake => TakeSchedule(st)
    case ESetNextDue(due) => SetNextDue(st, due)
    case EDefer(captured, at, cadence) => DeferCachedRehandoff(st, captured, at, cadence)
    case EComplete(captured, at, cadence) => CompleteMatching(st, captured, at, cadence)
    case EFail => FailMatching(st)
    case EClear => Cleared(st)
  }

  /** The channel after a run from the idle state. */
  function After(c: Channel, events: seq<Event>): State {
    if events == [] then Idle else After1(c, After(c, events[..|events| - 1]), events[|events| - 1])
  }

  lemma StepKeeps(c: Channel, st: State, e: Event)
    requires Ok(c, st)
    ensures Ok(c, After1(c, st, e))
  {
    hide Ok, Reconcile, CompleteMatching;
    match e
    case EReconcile(intent, at, policy, streamMax) => ReconcileKeeps(c, st, intent, at, policy, streamMax);
    case EComplete(captured, at, cadence) => CompleteKeeps(c, st, captured, at, cadence);
    case _ => SmallStepKeeps(c, st, e);
  }

  lemma SmallStepKeeps(c: Channel, st: State, e: Event)
    requires Ok(c, st) && !e.EReconcile? && !e.EComplete?
    ensures Ok(c, After1(c, st, e))
  {
  }

  /** In every reachable state the live schedule, the accounting and the ended marker agree. */
  lemma {:induction false} AlwaysOk(c: Channel, events: seq<Event>)
    ensures Ok(c, After(c, events))
  {
    hide Ok, After1;
    if events == [] {
      assert Ok(c, Idle) by { IdleOk(c); }
    } else {
      AlwaysOk(c, events[..|events| - 1]);
      StepKeeps(c, After(c, events[..|events| - 1]), events[|events| - 1]);
    }
  }

  lemma IdleOk(c: Channel)
    ensures Ok(c, Idle)
  {
  }

  // ---------- episodes in a run ----------

  /** The event asks for this episode. */
  predicate Names(e: Event, k: Episode) {
    e.EReconcile? && e.intent.Complete() && e.intent.Key() == k
  }

  /** The event asks for some other episode. */
  predicate NamesOther(e: Event, k: Episode) {
    e.EReconcile? && e.intent.Complete() && e.intent.Key() != k
  }

  predicate Accounted(st: State, k: Episode) {
    st.accounting.Some? && st.accounting.value.Key() == k
  }

  predicate Live(st: State, k: Episode) {
    st.schedule.Some? && st.schedule.value.Key() == k
  }

  /** Whether the event is a completion that the episode is credited with. */
  predicate IsCredit(st: State, e: Event, k: Episode) {
    e.EComplete? && Credits(st, e.captured) && Live(st, k)
  }

  function Completions(c: Channel, events: seq<Event>, k: Episode): nat {
    if events == [] then 0
    else
      var before := events[..|events| - 1];
      Completions(c, before, k) + (if IsCredit(After(c, before), events[|events| - 1], k) then 1 else 0)
  }

  lemma WithinLimit(c: Channel, st: State)
    requires Ok(c, st)
    ensures st.accounting.Some? ==> st.accounting.value.completed <= st.accounting.value.maxCompleted
    ensures st.schedule.Some? ==>
              && st.accounting == Some(AccountingOf(st.schedule.value))
              && st.schedule.value.completed < st.schedule.value.maxCompleted
    ensures st.ended.Some? ==> st.accounting.None? && st.schedule.None?
  {
  }

  lemma AfterLast(c: Channel, events: seq<Event>)
    requires events != []
    ensures After(c, events) == After1(c, After(c, events[..|events| - 1]), events[|events| - 1])
  {
    hide After1;
  }

  // ---------- exactly which step does what to an episode ----------

  /** The step gives the episode a new allowance: it is asked for with a new trigger, while nothing is accounted
      for it and its ended marker does not forbid it. */
  predicate Renews(st: State, e: Event, k: Episode) {
    Names(e, k) && GenerationChanged(st, e.intent) && st.ended != Some(k) && !Accounted(st, k)
  }

  /** The limit that such a step grants. */
  function Limit(e: Event): nat {
    if !e.EReconcile? then 0
    else if e.intent.tail.Some? && e.intent.tail.value.phase == Stream && e.streamMax < e.policy.maxCompleted then e.streamMax
    else e.policy.maxCompleted
  }

  /** An episode comes to be accounted exactly at such steps, with nothing completed and a limit and a deadline
      that the policy of the step gives. */
  lemma RenewsExactly(c: Channel, st: State, e: Event, k: Episode)
    requires Ok(c, st)
    ensures !Accounted(st, k) && Accounted(After1(c, st, e), k) <==> Renews(st, e, k)
    ensures Renews(st, e, k) ==>
              After1(c, st, e).accounting.value == Accounting(k.target, k.phase, k.generation, 0, Limit(e), e.at + e.policy.deadline)
  {
  }

  /** A step that leaves an episode accounted leaves its limit and deadline alone and counts its completions. */
  lemma AllowanceStep(c: Channel, st: State, e: Event, k: Episode)
    requires Ok(c, st) && Accounted(st, k)
    ensures var t := After1(c, st, e);
            if Accounted(t, k)
            then t.accounting.value == st.accounting.value.(completed := st.accounting.value.completed + if IsCredit(st, e, k) then 1 else 0)
            else !IsCredit(st, e, k)
  {
  }

  lemma NoCreditUnaccounted(c: Channel, st: State, e: Event, k: Episode)
    requires Ok(c, st) && !Accounted(st, k)
    ensures !IsCredit(st, e, k)
  {
  }

  /** The step makes the episode live: it is asked for with a new trigger, no ended marker forbids it, and it has
      completions left by its deadline, or is granted some. */
  predicate Revives(st: State, e: Event, k: Episode) {
    && !Live(st, k)
    && Names(e, k) && e.intent.generation != st.observed && st.ended != Some(k)
    && if Accounted(st, k) then st.accounting.value.completed < st.accounting.value.maxCompleted && e.at <= st.accounting.value.deadline
       else Limit(e) > 0
  }

  lemma RevivesExactly(c: Channel, st: State, e: Event, k: Episode)
    requires Ok(c, st)
    ensures !Live(st, k) && Live(After1(c, st, e), k) <==> Revives(st, e, k)
  {
  }

  /** The ended marker of an episode is lifted exactly by a clear, or by asking for another episode with a new
      trigger. */
  lemma MarkerLiftedExactly(c: Channel, st: State, e: Event, k: Episode)
    requires st.ended == Some(k) && Ok(c, st)
    ensures After1(c, st, e).ended != Some(k) <==> e.EClear? || (NamesOther(e, k) && GenerationChanged(st, e.intent))
  {
  }

  // ---------- completions against allowances, over every run ----------

  /** The sum of the limits granted to an episode along a run. */
  function Granted(c: Channel, events: seq<Event>, k: Episode): nat {
    if events == [] then 0
    else
      var before := events[..|events| - 1];
      var e := events[|events| - 1];
      Granted(c, before, k) + (if Renews(After(c, before), e, k) then Limit(e) else 0)
  }

  /** Main result, for every run: an episode is never credited with more completions than it was granted, and
      what is left of a running allowance is still to its credit. */
  lemma {:induction false} CompletionsWithinGrants(c: Channel, events: seq<Event>, k: Episode)
    ensures Completions(c, events, k) <= Granted(c, events, k)
    ensures var st := After(c, events);
            Accounted(st, k) ==>
              Completions(c, events, k) + (st.accounting.value.maxCompleted - st.accounting.value.completed) <= Granted(c, events, k)
  {
    hide Ok, After1, Renews, IsCredit, Limit;
    if events != [] {
      var before := events[..|events| - 1];
      var e := events[|events| - 1];
      var st := After(c, before);
      CompletionsWithinGrants(c, before, k);
      AlwaysOk(c, before);
      AlwaysOk(c, events);
      WithinLimit(c, After(c, events));
      RenewsExactly(c, st, e, k);
      if Accounted(st, k) {
        AllowanceStep(c, st, e, k);
      } else {
        NoCreditUnaccounted(c, st, e, k);
      }
    }
  }

  /** No step from the i-th on gives the episode a new allowance. */
  predicate NotRenewed(c: Channel, events: seq<Event>, k: Episode, i: nat) {
    forall j | i <= j < |events| :: !Renews(After(c, events[..j]), events[j], k)
  }

  lemma NotRenewedPrefix(c: Channel, events: seq<Event>, k: Episode, i: nat)
    requires i < |events| && NotRenewed(c, events, k, i)
    ensures NotRenewed(c, events[..|events| - 1], k, i)
    ensures !Renews(After(c, events[..|events| - 1]), events[|events| - 1], k)
  {
    hide After, Renews;
    var before := events[..|events| - 1];
    forall j | i <= j < |before| ensures !Renews(After(c, before[..j]), before[j], k) {
      assert before[..j] == events[..j] && before[j] == events[j];
    }
  }

  /** Main result: from any point at which an episode is accounted, as long as no step renews it, its limit and
      its deadline do not change, its count is the number of its completions, and these stay within what was
      left of the limit at that point. */
  lemma {:induction false} AllowanceIsFixed(c: Channel, events: seq<Event>, k: Episode, i: nat)
    requires i <= |events| && Accounted(After(c, events[..i]), k) && NotRenewed(c, events, k, i)
    ensures var first := After(c, events[..i]).accounting.value;
            var made := Completions(c, events, k) - Completions(c, events[..i], k);
            var st := After(c, events);
            && 0 <= made <= first.maxCompleted - first.completed
            && (Accounted(st, k) ==> st.accounting.value == first.(completed := first.completed + made))
            && (Live(st, k) ==>
                  && st.schedule.value.maxCompleted == first.maxCompleted && st.schedule.value.deadline == first.deadline
                  && st.schedule.value.completed == first.completed + made < first.maxCompleted)
    decreases |events|
  {
    hide Ok, After, After1, Renews, IsCredit;
    AlwaysOk(c, events);
    WithinLimit(c, After(c, events));
    if i == |events| {
      assert events[..i] == events;
    } else {
      var before := events[..|events| - 1];
      var e := events[|events| - 1];
      NotRenewedPrefix(c, events, k, i);
      assert before[..i] == events[..i];
      AllowanceIsFixed(c, before, k, i);
      AlwaysOk(c, before);
      AfterLast(c, events);
      RenewsExactly(c, After(c, before), e, k);
      if Accounted(After(c, before), k) {
        AllowanceStep(c, After(c, before), e, k);
      } else {
        NoCreditUnaccounted(c, After(c, before), e, k);
      }
    }
  }

  // ---------- cancelled episodes, over every run ----------

  /** The reconcile step that withdraws the live schedule without putting another in its place. */
  predicate Cancels(st: State, e: Event) {
    && e.EReconcile? && st.schedule.Some?
    && (!e.intent.Complete() || (EpisodeChanged(st, e.intent) && !GenerationChanged(st, e.intent)))
  }

  /** A cancelled episode keeps its accounting if another episode took over with the same trigger, and gets an
      ended marker if nothing was asked for. */
  lemma CancelStep(c: Channel, st: State, e: Event, k: Episode)
    requires Ok(c, st) && Live(st, k) && Cancels(st, e)
    ensures !Live(After1(c, st, e), k)
    ensures e.intent.Complete() ==> After1(c, st, e).accounting == st.accounting && After1(c, st, e).ended.None?
    ensures !e.intent.Complete() ==> After1(c, st, e).accounting.None? && After1(c, st, e).ended == Some(k)
  {
  }

  predicate LiveAt(c: Channel, events: seq<Event>, k: Episode, j: nat)
    requires j <= |events|
  {
    Live(After(c, events[..j]), k)
  }

  predicate RevivedAt(c: Channel, events: seq<Event>, k: Episode, j: nat)
    requires j < |events|
  {
    Revives(After(c, events[..j]), events[j], k)
  }

  lemma RevivedIsLive(c: Channel, events: seq<Event>, k: Episode, j: nat)
    requires j < |events|
    ensures !LiveAt(c, events, k, j) && LiveAt(c, events, k, j + 1) <==> RevivedAt(c, events, k, j)
  {
    hide Ok, After, After1, Revives, Live;
    var upto := events[..j + 1];
    assert upto[..j] == events[..j] && upto[j] == events[j];
    AlwaysOk(c, events[..j]);
    AfterLast(c, upto);
    RevivesExactly(c, After(c, events[..j]), events[j], k);
  }

  /** Between a point where an episode is not live and a later one where it is, some step revives it. */
  lemma {:induction false} SomeStepRevives(c: Channel, events: seq<Event>, k: Episode, i: nat, n: nat) returns (j: nat)
    requires i <= n <= |events| && !LiveAt(c, events, k, i) && LiveAt(c, events, k, n)
    ensures i <= j < n && RevivedAt(c, events, k, j)
    decreases n
  {
    hide LiveAt, RevivedAt;
    RevivedIsLive(c, events, k, n - 1);
    if LiveAt(c, events, k, n - 1) {
      j := SomeStepRevives(c, events, k, i, n - 1);
    } else {
      j := n - 1;
    }
  }

  /** Main result: an episode whose live schedule a reconcile cancelled is live again at some later point exactly if
      a later step revives it. */
  lemma CancelledIsNotRescheduled(c: Channel, events: seq<Event>, k: Episode, i: nat)
    requires i < |events| && LiveAt(c, events, k, i) && Cancels(After(c, events[..i]), events[i])
    ensures !LiveAt(c, events, k, i + 1)
    ensures (exists n: nat :: i < n <= |events| && LiveAt(c, events, k, n))
            <==> (exists j: nat :: i < j < |events| && RevivedAt(c, events, k, j))
  {
    hide Ok, After, After1, LiveAt, RevivedAt;
    assert !LiveAt(c, events, k, i + 1) by { NotLiveAfterCancel(c, events, k, i); }
    if n: nat :| i < n <= |events| && LiveAt(c, events, k, n) {
      var j := SomeStepRevives(c, events, k, i + 1, n);
    }
    forall j: nat | i < j < |events| && RevivedAt(c, events, k, j) ensures LiveAt(c, events, k, j + 1) {
      RevivedIsLive(c, events, k, j);
    }
  }

  lemma NotLiveAfterCancel(c: Channel, events: seq<Event>, k: Episode, i: nat)
    requires i < |events| && LiveAt(c, events, k, i) && Cancels(After(c, events[..i]), events[i])
    ensures !LiveAt(c, events, k, i + 1)
  {
    hide Ok, After, After1, Cancels, Live;
    var upto := events[..i + 1];
    assert upto[..i] == events[..i] && upto[i] == events[i];
    AlwaysOk(c, events[..i]);
    AfterLast(c, upto);
    CancelStep(c, After(c, events[..i]), events[i], k);
  }

  // ---------- a condition on the events alone ----------

  predicate Asked(events: seq<Event>, k: Episode) {
    exists h :: 0 <= h < |events| && Names(events[h], k)
  }

  /** The episode was asked for and later another one was. */
  predicate LeftBehind(events: seq<Event>, k: Episode) {
    exists h, i :: 0 <= h < i < |events| && Names(events[h], k) && NamesOther(events[i], k)
  }

  /** An episode left for another one is not asked for again. */
  predicate NoReturn(events: seq<Event>, k: Episode) {
    forall i :: 0 <= i < |events| && Names(events[i], k) ==> !LeftBehind(events[..i], k)
  }

  predicate Remembering(events: seq<Event>) {
    forall e <- events :: !e.EFail? && !e.EClear?
  }

  lemma PrefixAsked(events: seq<Event>, k: Episode)
    requires events != []
    ensures var before := events[..|events| - 1];
            var e := events[|events| - 1];
            && (Asked(before, k) || Names(e, k) ==> Asked(events, k))
            && (LeftBehind(before, k) || (Asked(before, k) && NamesOther(e, k)) ==> LeftBehind(events, k))
  {
    var before := events[..|events| - 1];
    var e := events[|events| - 1];
    if Asked(before, k) {
      var h :| 0 <= h < |before| && Names(before[h], k);
      assert Names(events[h], k);
      if NamesOther(e, k) {
        assert Names(events[h], k) && NamesOther(events[|events| - 1], k);
      }
    }
    if Names(e, k) {
      assert Names(events[|events| - 1], k);
    }
    if LeftBehind(before, k) {
      var h, i :| 0 <= h < i < |before| && Names(before[h], k) && NamesOther(before[i], k);
      assert Names(events[h], k) && NamesOther(events[i], k);
    }
  }

  lemma PrefixCondition(events: seq<Event>, k: Episode)
    requires events != [] && NoReturn(events, k) && Remembering(events)
    ensures var before := events[..|events| - 1];
            var e := events[|events| - 1];
            && NoReturn(before, k) && Remembering(before)
            && (Names(e, k) ==> !LeftBehind(before, k)) && !e.EFail? && !e.EClear?
  {
    hide LeftBehind, Names;
    var before := events[..|events| - 1];
    var e := events[|events| - 1];
    forall i | 0 <= i < |before| && Names(before[i], k) ensures !LeftBehind(before[..i], k) {
      assert Names(events[i], k) && before[..i] == events[..i];
    }
    assert e in events && forall x <- before :: x in events;
  }

  /** An episode that is accounted was asked for; if it is not accounted any more, its ended marker or its having
      been left says why. */
  predicate Settled(c: Channel, events: seq<Event>, k: Episode, was: bool) {
    var st := After(c, events);
    && (Accounted(st, k) || st.ended == Some(k) ==> Asked(events, k))
    && (was && !Accounted(st, k) ==> Asked(events, k) && (st.ended == Some(k) || LeftBehind(events, k)))
  }

  lemma SettledStep(c: Channel, st: State, e: Event, k: Episode)
    requires Ok(c, st) && !e.EFail? && !e.EClear?
    ensures var t := After1(c, st, e);
            && (Accounted(st, k) && !Accounted(t, k) ==> t.ended == Some(k) || NamesOther(e, k))
            && (st.ended == Some(k) && t.ended != Some(k) ==> NamesOther(e, k))
            && (Accounted(t, k) && !Accounted(st, k) ==> Names(e, k) && st.ended != Some(k))
            && (t.ended == Some(k) ==> st.ended == Some(k) || Accounted(st, k))
  {
  }

  lemma {:induction false} StaysSettled(c: Channel, events: seq<Event>, k: Episode, i: nat)
    requires Remembering(events) && NoReturn(events, k) && i <= |events|
    ensures Settled(c, events, k, Accounted(After(c, events[..i]), k))
    decreases |events|
  {
    hide Ok, After, After1, LeftBehind, Asked, NoReturn, Remembering, Names, NamesOther;
    if events == [] {
      assert events[..i] == events && After(c, events) == Idle by { Nothing(c, k); }
    } else {
      var before := events[..|events| - 1];
      var n := if i == |events| then i - 1 else i;
      PrefixAsked(events, k);
      PrefixCondition(events, k);
      assert before[..n] == events[..n];
      StaysSettled(c, before, k, n);
      assert i == |events| ==> events[..i] == events;
      AlwaysOk(c, before);
      AfterLast(c, events);
      SettledStep(c, After(c, before), events[|events| - 1], k);
    }
  }

  /** If nothing fails or is cleared and the episode does not return once left, no step renews it after it has
      been accounted. So the bound then holds with the first allowance. */
  lemma NoReturnNeverRenews(c: Channel, events: seq<Event>, k: Episode, i: nat)
    requires Remembering(events) && NoReturn(events, k) && i <= |events| && Accounted(After(c, events[..i]), k)
    ensures NotRenewed(c, events, k, i)
  {
    hide Ok, After, After1, LeftBehind, Asked, Names, NamesOther, GenerationChanged;
    forall j | i <= j < |events| ensures !Renews(After(c, events[..j]), events[j], k) {
      PrefixesKeep(events, k, j);
      assert events[..j][..i] == events[..i];
      StaysSettled(c, events[..j], k, i);
    }
  }

  lemma PrefixesKeep(events: seq<Event>, k: Episode, i: nat)
    requires i <= |events| && Remembering(events) && NoReturn(events, k)
    ensures Remembering(events[..i]) && NoReturn(events[..i], k)
  {
    hide LeftBehind, Names;
    forall j | 0 <= j < i && Names(events[..i][j], k) ensures !LeftBehind(events[..i][..j], k) {
      assert events[..i][..j] == events[..j];
    }
  }

  /** The episode is barred: it was left, or its ended marker stands. */
  predicate Barred(c: Channel, events: seq<Event>, k: Episode) {
    Asked(events, k) && (LeftBehind(events, k) || After(c, events).ended == Some(k))
  }

  lemma {:induction false} StaysBarred(c: Channel, events: seq<Event>, k: Episode, i: nat)
    requires Remembering(events) && NoReturn(events, k) && i <= |events| && Barred(c, events[..i], k)
    ensures Barred(c, events, k)
    decreases |events|
  {
    hide Ok, After, After1, LeftBehind, Asked, NoReturn, Remembering, Names, NamesOther;
    if i == |events| {
      assert events[..i] == events;
    } else {
      var before := events[..|events| - 1];
      PrefixAsked(events, k);
      PrefixCondition(events, k);
      assert before[..i] == events[..i];
      StaysBarred(c, before, k, i);
      AlwaysOk(c, before);
      AfterLast(c, events);
      SettledStep(c, After(c, before), events[|events| - 1], k);
    }
  }

  /** In such a run no step revives a cancelled episode either. */
  lemma NoReturnNeverRevives(c: Channel, events: seq<Event>, k: Episode, i: nat, j: nat)
    requires Remembering(events) && NoReturn(events, k) && i < j < |events|
    requires LiveAt(c, events, k, i) && Cancels(After(c, events[..i]), events[i])
    ensures !RevivedAt(c, events, k, j)
  {
    hide Ok, After, After1, LeftBehind, Asked, Names, GenerationChanged, Disabled, NextSchedule, Remembering;
    PrefixesKeep(events, k, j);
    PrefixesKeep(events, k, i + 1);
    assert events[..j][..i + 1] == events[..i + 1];
    CancelBars(c, events, k, i);
    StaysBarred(c, events[..j], k, i + 1);
  }

  lemma CancelBars(c: Channel, events: seq<Event>, k: Episode, i: nat)
    requires i < |events| && Remembering(events[..i + 1]) && NoReturn(events[..i + 1], k)
    requires LiveAt(c, events, k, i) && Cancels(After(c, events[..i]), events[i])
    ensures Barred(c, events[..i + 1], k)
  {
    hide Ok, After, After1, LeftBehind, Asked, NoReturn, Remembering;
    var upto := events[..i + 1];
    assert upto[..i] == events[..i] && upto[i] == events[i];
    PrefixAsked(upto, k);
    PrefixCondition(upto, k);
    AlwaysOk(c, events[..i]);
    AfterLast(c, upto);
    WithinLimit(c, After(c, events[..i]));
    assert events[..i][..i] == events[..i];
    StaysSettled(c, events[..i], k, i);
    CancelStep(c, After(c, events[..i]), events[i], k);
  }

  // ---------- returns ----------

  lemma Push(c: Channel, events: seq<Event>, e: Event, k: Episode)
    ensures After(c, events + [e]) == After1(c, After(c, events), e)
    ensures Completions(c, events + [e], k) == Completions(c, events, k) + (if IsCredit(After(c, events), e, k) then 1 else 0)
  {
    assert (events + [e])[..|events|] == events;
  }

  const ReturnPolicy := Policy(1, 10, 1)
  const Returning := Episode("caption", Final, 1)
  const FirstTry := Schedule(SelfChannel, 1, 1, "caption", 0, 1, Final, 1, 10, 1)

  function Ask(trigger: nat, episode: nat): Event {
    EReconcile(Intent(Some(trigger), Some(QuietTail(Final, episode)), Some("caption"), trigger), 0, ReturnPolicy, 4)
  }

  const SecondTry := FirstTry.(trigger := 3, scene := 3)

  lemma ReturnSteps()
    ensures var c := SelfChannel;
            var st1 := After1(c, Idle, Ask(1, 1));
            var st2 := After1(c, st1, EComplete(FirstTry, 1, 1));
            var st4 := After1(c, After1(c, st2, Ask(2, 2)), Ask(3, 1));
            && Accounted(st1, Returning) && st1.accounting.value.maxCompleted == 1
            && IsCredit(st1, EComplete(FirstTry, 1, 1), Returning)
            && IsCredit(st4, EComplete(SecondTry, 1, 1), Returning)
  {
    var c := SelfChannel;
    var st1 := After1(c, Idle, Ask(1, 1));
    assert st1 == State(Some(1), Some(FirstTry), Some(AccountingOf(FirstTry)), None);
    var st2 := After1(c, st1, EComplete(FirstTry, 1, 1));
    assert st2 == State(Some(1), None, Some(AccountingOf(FirstTry).(completed := 1)), None);
    var other := FirstTry.(trigger := 2, scene := 2, episode := 2);
    assert After1(c, st2, Ask(2, 2)) == State(Some(2), Some(other), Some(AccountingOf(other)), None);
  }

  lemma Push5(c: Channel, k: Episode, e1: Event, e2: Event, e3: Event, e4: Event, e5: Event)
    ensures After(c, [e1]) == After1(c, Idle, e1)
    ensures var st1 := After1(c, Idle, e1);
            var st2 := After1(c, st1, e2);
            var st4 := After1(c, After1(c, st2, e3), e4);
            Completions(c, [e1, e2, e3, e4, e5], k) >= (if IsCredit(st1, e2, k) then 1 else 0) + (if IsCredit(st4, e5, k) then 1 else 0)
  {
    hide After, Completions, After1, IsCredit;
    assert After(c, []) == Idle && Completions(c, [], k) == 0 by { Nothing(c, k); }
    Push(c, [], e1, k);
    Push(c, [e1], e2, k);
    Push(c, [e1, e2], e3, k);
    Push(c, [e1, e2, e3], e4, k);
    Push(c, [e1, e2, e3, e4], e5, k);
    assert [] + [e1] == [e1] && [e1] + [e2] == [e1, e2] && [e1, e2] + [e3] == [e1, e2, e3];
    assert [e1, e2, e3] + [e4] == [e1, e2, e3, e4] && [e1, e2, e3, e4] + [e5] == [e1, e2, e3, e4, e5];
  }

  /** A renewing step does add to what an episode can be credited with: left for another and asked for again, it
      completes more than its first limit. */
  lemma ReturnStartsOver()
    ensures var events := [Ask(1, 1), EComplete(FirstTry, 1, 1), Ask(2, 2), Ask(3, 1), EComplete(SecondTry, 1, 1)];
            && Remembering(events)
            && Accounted(After(SelfChannel, events[..1]), Returning)
            && Completions(SelfChannel, events, Returning) > After(SelfChannel, events[..1]).accounting.value.maxCompleted
  {
    hide After, Completions, After1, IsCredit;
    var events := [Ask(1, 1), EComplete(FirstTry, 1, 1), Ask(2, 2), Ask(3, 1), EComplete(SecondTry, 1, 1)];
    ReturnSteps();
    Push5(SelfChannel, Returning, events[0], events[1], events[2], events[3], events[4]);
    assert events[..1] == [Ask(1, 1)];
  }

  /** A cancelled episode can be live again with its old allowance: another one takes over with the same trigger,
      and then it is asked for with a new trigger. */
  lemma CancelledCanReturn()
    ensures var events := [Ask(1, 1), Ask(1, 2), Ask(2, 1)];
            && LiveAt(SelfChannel, events, Returning, 1) && Cancels(After(SelfChannel, events[..1]), events[1])
            && !LiveAt(SelfChannel, events, Returning, 2) && RevivedAt(SelfChannel, events, Returning, 2)
            && NotRenewed(SelfChannel, events, Returning, 1)
            && After(SelfChannel, events).schedule == Some(FirstTry.(trigger := 2, scene := 2, nextDue := 1))
  {
    var c := SelfChannel;
    var events := [Ask(1, 1), Ask(1, 2), Ask(2, 1)];
    var st1 := State(Some(1), Some(FirstTry), Some(AccountingOf(FirstTry)), None);
    var st2 := st1.(schedule := None);
    assert After1(c, Idle, Ask(1, 1)) == st1;
    assert After1(c, st1, Ask(1, 2)) == st2;
    assert After1(c, st2, Ask(2, 1)).schedule == Some(FirstTry.(trigger := 2, scene := 2, nextDue := 1));
    assert Cancels(st1, Ask(1, 2)) && Live(st1, Returning) && !Live(st2, Returning) && Revives(st2, Ask(2, 1), Returning);
    assert !Renews(st1, Ask(1, 2), Returning) && !Renews(st2, Ask(2, 1), Returning);
    hide After, After1, Cancels, Live, Revives, Renews;
    Nothing(c, Returning);
    Push(c, [], Ask(1, 1), Returning);
    Push(c, [Ask(1, 1)], Ask(1, 2), Returning);
    Push(c, [Ask(1, 1), Ask(1, 2)], Ask(2, 1), Returning);
    assert [] + [Ask(1, 1)] == [Ask(1, 1)] == events[..1];
    assert [Ask(1, 1)] + [Ask(1, 2)] == [Ask(1, 1), Ask(1, 2)] == events[..2];
    assert [Ask(1, 1), Ask(1, 2)] + [Ask(2, 1)] == events;
  }

  lemma Nothing(c: Channel, k: Episode)
    ensures After(c, []) == Idle && Completions(c, [], k) == 0
  {
  }

  // ---------- a completion that outlives its schedule ----------

  predicate RetriggerAt(s: Schedule, events: seq<Event>, i: int)
    requires 0 <= i < |events|
  {
    && Names(events[i], s.Key())
    && events[i].at <= s.deadline
    && TriggerOf(events[i]) > (if i == 0 then s.trigger else TriggerOf(events[i - 1]))
    && SceneOf(events[i]) > (if i == 0 then s.scene else SceneOf(events[i - 1]))
  }

  /** Retriggers of one episode, none after its deadline, each with a later trigger and a later scene. */
  predicate Retriggers(s: Schedule, events: seq<Event>) {
    forall i | 0 <= i < |events| :: RetriggerAt(s, events, i)
  }

  function TriggerOf(e: Event): nat {
    if e.EReconcile? && e.intent.generation.Some? then e.intent.generation.value else 0
  }

  function SceneOf(e: Event): nat {
    if e.EReconcile? then e.intent.scene else 0
  }

  function Continue(c: Channel, st: State, events: seq<Event>): State {
    if events == [] then st else After1(c, Continue(c, st, events[..|events| - 1]), events[|events| - 1])
  }

  /** The captured schedule with the last retrigger's trigger and scene in it. */
  function Moved(s: Schedule, events: seq<Event>): Schedule {
    if events == [] then s
    else s.(trigger := TriggerOf(events[|events| - 1]), scene := SceneOf(events[|events| - 1]))
  }

  lemma RetriggerStep(c: Channel, st: State, s: Schedule, e: Event)
    requires Ok(c, st) && st.schedule == Some(s) && Names(e, s.Key()) && e.at <= s.deadline && TriggerOf(e) > s.trigger
    ensures After1(c, st, e).schedule == Some(s.(trigger := TriggerOf(e), scene := SceneOf(e)))
  {
  }

  lemma PrefixRetriggers(s: Schedule, events: seq<Event>, n: nat)
    requires Retriggers(s, events) && n <= |events|
    ensures Retriggers(s, events[..n])
  {
    var before := events[..n];
    forall i | 0 <= i < n ensures RetriggerAt(s, before, i) {
      assert RetriggerAt(s, events, i);
      assert before[i] == events[i] && (i > 0 ==> before[i - 1] == events[i - 1]);
    }
  }

  lemma {:induction false} RetriggersMove(c: Channel, st: State, s: Schedule, events: seq<Event>)
    requires Ok(c, st) && st.schedule == Some(s) && Retriggers(s, events)
    ensures Ok(c, Continue(c, st, events))
    ensures Continue(c, st, events).schedule == Some(Moved(s, events))
    ensures events != [] ==> TriggerOf(events[|events| - 1]) > s.trigger && SceneOf(events[|events| - 1]) > s.scene
    decreases |events|
  {
    hide Ok, After1;
    if events != [] {
      var before := events[..|events| - 1];
      var e := events[|events| - 1];
      PrefixRetriggers(s, events, |before|);
      RetriggersMove(c, st, s, before);
      var moved := Moved(s, before);
      assert RetriggerAt(s, events, |events| - 1) && moved.Key() == s.Key();
      RetriggerStep(c, Continue(c, st, before), moved, e);
      StepKeeps(c, Continue(c, st, before), e);
    }
  }

  /** Main result: however often the episode is retriggered before its deadline, its due time is not
      postponed and a completion of the replaced schedule is still credited, once. */
  lemma RetriggeredCompletionCounts(c: Channel, st: State, s: Schedule, events: seq<Event>, at: Instant, cadence: Duration)
    requires Ok(c, st) && st.schedule == Some(s) && Retriggers(s, events)
    ensures var t := Continue(c, st, events);
            var u := CompleteMatching(t, s, at, cadence);
            && t.schedule.Some? && t.schedule.value.nextDue == s.nextDue && t.schedule.value.deadline == s.deadline
            && Credits(t, s)
            && Accounted(u, s.Key()) && u.accounting.value.completed == s.completed + 1
            && (events != [] ==> !Credits(u, s))
  {
    RetriggersMove(c, st, s, events);
  }
}
