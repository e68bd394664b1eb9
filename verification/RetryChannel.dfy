/** One retry channel as a value: its live schedule, its budget accounting and its ended-episode marker. */
module RetryChannel {
  import opened Wrappers

  /** Points in time, and spans between them, in nanoseconds. */
  type Instant = int
  type Duration = nat

  datatype Channel = SelfChannel | Peer

  datatype Phase = Stream | Final

  datatype Policy = Policy(cadence: Duration, deadline: Duration, maxCompleted: nat)

  /** What a budget belongs to: a target, a phase and an episode generation. */
  datatype Episode = Episode(target: string, phase: Phase, generation: nat)

  datatype Schedule = Schedule(
    channel: Channel,
    trigger: nat,
    scene: nat,
    target: string,
    completed: nat,
    maxCompleted: nat,
    phase: Phase,
    episode: nat,
    deadline: Instant,
    nextDue: Instant)
  {
    function Key(): Episode {
      Episode(target, phase, episode)
    }

    predicate SameIntent(other: Schedule) {
      && channel == other.channel
      && trigger == other.trigger
      && scene == other.scene
      && target == other.target
      && episode == other.episode
      && phase == other.phase
    }

    predicate ExpiredAt(now: Instant) {
      now > deadline
    }

    predicate AcceptsTransferredDueFrom(other: Schedule) {
      && channel == other.channel
      && trigger > other.trigger
      && scene > other.scene
      && target == other.target
      && completed == other.completed
      && maxCompleted == other.maxCompleted
      && phase == other.phase
      && episode == other.episode
      && deadline == other.deadline
      && nextDue == other.nextDue
    }
  }

  datatype Accounting = Accounting(
    target: string, phase: Phase, episode: nat, completed: nat, maxCompleted: nat, deadline: Instant)
  {
    function Key(): Episode {
      Episode(target, phase, episode)
    }
  }

  datatype QuietTail = QuietTail(phase: Phase, generation: nat)

  datatype Intent = Intent(generation: Option<nat>, tail: Option<QuietTail>, target: Option<string>, scene: nat)
  {
    predicate Complete() {
      generation.Some? && tail.Some? && target.Some?
    }

    function Key(): Episode
      requires Complete()
    {
      Episode(target.value, tail.value.phase, tail.value.generation)
    }
  }

  datatype Transition = Transition(schedule: Schedule, outcome: string)

  datatype Report = Report(transitions: seq<Transition>, causeTransfer: Option<(Schedule, Schedule)>)

  datatype State = State(
    observed: Option<nat>, schedule: Option<Schedule>, accounting: Option<Accounting>, ended: Option<Episode>)

  const Idle := State(None, None, None, None)

  // ---------- reconcile ----------

  predicate GenerationChanged(st: State, intent: Intent) {
    intent.generation.Some? && intent.generation != st.observed
  }

  predicate EpisodeChanged(st: State, intent: Intent) {
    st.schedule.Some?
    && (|| intent.target != Some(st.schedule.value.target)
        || intent.tail.None?
        || intent.tail.value.generation != st.schedule.value.episode
        || intent.tail.value.phase != st.schedule.value.phase)
  }

  predicate Continues(st: State, intent: Intent)
    requires intent.Complete()
  {
    st.accounting.Some? && st.accounting.value.Key() == intent.Key()
  }

  /** The schedule a changed generation asks for. A running episode keeps its count, limit, deadline and
      due time; another one starts afresh. */
  function NextSchedule(c: Channel, st: State, intent: Intent, now: Instant, policy: Policy, streamMax: nat): Schedule
    requires intent.Complete()
  {
    var same := Continues(st, intent);
    var limit := if intent.tail.value.phase == Stream && streamMax < policy.maxCompleted then streamMax else policy.maxCompleted;
    Schedule(
      c,
      intent.generation.value,
      intent.scene,
      intent.target.value,
      if same then st.accounting.value.completed else 0,
      if same then st.accounting.value.maxCompleted else limit,
      intent.tail.value.phase,
      intent.tail.value.generation,
      if same then st.accounting.value.deadline else now + policy.deadline,
      if same && st.schedule.Some? then st.schedule.value.nextDue else now + policy.cadence)
  }

  function AccountingOf(s: Schedule): Accounting {
    Accounting(s.target, s.phase, s.episode, s.completed, s.maxCompleted, s.deadline)
  }

  predicate Disabled(s: Schedule, now: Instant) {
    s.maxCompleted == 0 || s.completed >= s.maxCompleted || s.ExpiredAt(now)
  }

  function OutcomeOf(s: Schedule, now: Instant): string {
    if s.maxCompleted == 0 then "disabled"
    else if s.completed >= s.maxCompleted then "exhausted"
    else if s.ExpiredAt(now) then "expired"
    else "scheduled"
  }

  function Withdrawn(schedule: Option<Schedule>, outcome: string): seq<Transition> {
    if schedule.Some? then [Transition(schedule.value, outcome)] else []
  }

  function EndAccounting(st: State): State {
    if st.accounting.Some? then st.(accounting := None, ended := Some(st.accounting.value.Key())) else st
  }

  function Reconcile(c: Channel, st: State, intent: Intent, now: Instant, policy: Policy, streamMax: nat): State {
    var seen := st.(observed := intent.generation);
    if !intent.Complete() then EndAccounting(seen).(schedule := None)
    else if !GenerationChanged(st, intent) then
      if EpisodeChanged(st, intent) then seen.(schedule := None) else seen
    else if st.ended == Some(intent.Key()) then seen
    else
      var next := NextSchedule(c, st, intent, now, policy, streamMax);
      State(intent.generation, if Disabled(next, now) then None else Some(next), Some(AccountingOf(next)), None)
  }

  function ReconcileReport(c: Channel, st: State, intent: Intent, now: Instant, policy: Policy, streamMax: nat, transfer: bool): Report {
    if !intent.Complete() || (EpisodeChanged(st, intent) && !GenerationChanged(st, intent))
    then Report(Withdrawn(st.schedule, "cancelled"), None)
    else if !GenerationChanged(st, intent) || st.ended == Some(intent.Key()) then Report([], None)
    else
      var next := NextSchedule(c, st, intent, now, policy, streamMax);
      Report(Withdrawn(st.schedule, "replaced") + [Transition(next, OutcomeOf(next, now))],
             if transfer && st.schedule.Some? then Some((st.schedule.value, next)) else None)
  }

  // ---------- the other operations ----------

  function TakeSchedule(st: State): State {
    st.(schedule := None)
  }

  function SetNextDue(st: State, due: Instant): State {
    if st.schedule.Some? then st.(schedule := Some(st.schedule.value.(nextDue := due))) else st
  }

  function FailMatching(st: State): State {
    st.(schedule := None, accounting := None)
  }

  function MatchingSchedule(st: State, captured: Schedule): Option<Schedule> {
    if st.schedule.Some? && st.schedule.value.SameIntent(captured) then st.schedule else None
  }

  function DeferCachedRehandoff(st: State, captured: Schedule, now: Instant, cadence: Duration): State {
    if st.schedule.Some? && st.schedule.value.SameIntent(captured)
    then
      var last := st.schedule.value.deadline + 1;
      st.(schedule := Some(st.schedule.value.(nextDue := if now + cadence < last then now + cadence else last)))
    else st
  }

  predicate Credits(st: State, captured: Schedule) {
    st.schedule.Some? && (st.schedule.value.SameIntent(captured) || st.schedule.value.AcceptsTransferredDueFrom(captured))
  }

  function Credited(s: Schedule, now: Instant, cadence: Duration): Schedule {
    s.(completed := s.completed + 1, nextDue := now + cadence)
  }

  function CompleteMatching(st: State, captured: Schedule, now: Instant, cadence: Duration): State {
    if !Credits(st, captured) then st
    else
      var done := Credited(st.schedule.value, now, cadence);
      State(
        st.observed,
        if done.completed >= done.maxCompleted || now > done.deadline then None else Some(done),
        if st.accounting.Some? && st.accounting.value.Key() == done.Key()
        then Some(st.accounting.value.(completed := done.completed)) else st.accounting,
        st.ended)
  }

  function Cleared(st: State): State {
    State(st.observed, None, None, None)
  }

  // ---------- what every operation keeps ----------

  /** A live schedule agrees with its accounting and has budget left; an ended marker rules both out. */
  predicate Ok(c: Channel, st: State) {
    && (st.schedule.Some? ==>
          var s := st.schedule.value;
          && s.channel == c
          && s.completed < s.maxCompleted
          && st.observed == Some(s.trigger)
          && st.accounting == Some(AccountingOf(s)))
    && (st.accounting.Some? ==> st.accounting.value.completed <= st.accounting.value.maxCompleted)
    && (st.ended.Some? ==> st.accounting.None? && st.schedule.None?)
  }
}
