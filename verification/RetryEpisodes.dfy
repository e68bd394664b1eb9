/** The two retry channels and the bounded audit log, updated in place. */
module RetryEpisodes {
  import opened Wrappers
  import opened RetryChannel

  const AUDIT_CAPACITY := 128
  const U64_MAX := 0xFFFF_FFFF_FFFF_FFFF

  /** One audit line. The target identity stands for its hash. */
  datatype AuditFact = AuditFact(
    channel: Channel,
    trigger: nat,
    outcome: string,
    completed: nat,
    at: Duration,
    sequence: nat,
    scene: nat,
    episode: nat,
    phase: Phase,
    target: string,
    maxCompleted: nat,
    active: bool,
    dueIn: Duration,
    deadlineIn: Duration)

  function SaturatingIncrement(n: nat): nat {
    if n >= U64_MAX then U64_MAX else n + 1
  }

  function SaturatingSince(later: Instant, earlier: Instant): Duration {
    if later <= earlier then 0 else later - earlier
  }

  function FactOf(s: Schedule, outcome: string, now: Instant, startedAt: Instant, sequence: nat, active: bool): AuditFact {
    AuditFact(s.channel, s.trigger, outcome, s.completed, SaturatingSince(now, startedAt), sequence, s.scene,
              s.episode, s.phase, s.target, s.maxCompleted, active, SaturatingSince(s.nextDue, now), SaturatingSince(s.deadline, now))
  }

  function Present(schedule: Option<Schedule>): seq<Schedule> {
    if schedule.Some? then [schedule.value] else []
  }

  /** The facts of an audit that are newer than a sequence number. */
  function NewerThan(audit: seq<AuditFact>, sequence: nat): seq<AuditFact> {
    if audit == [] then []
    else
      var rest := NewerThan(audit[..|audit| - 1], sequence);
      if audit[|audit| - 1].sequence > sequence then rest + [audit[|audit| - 1]] else rest
  }

  predicate Numbered(history: seq<AuditFact>) {
    forall i :: 0 <= i < |history| ==> history[i].sequence == (if i + 1 <= U64_MAX then i + 1 else U64_MAX)
  }

  /** The log holds the newest records, and the counters say how many there were, up to their width. */
  predicate AuditOk(audit: seq<AuditFact>, dropped: nat, next: nat, history: seq<AuditFact>) {
    var lost := if |history| <= AUDIT_CAPACITY then 0 else |history| - AUDIT_CAPACITY;
    && audit == history[lost..]
    && dropped == (if lost <= U64_MAX then lost else U64_MAX)
    && next == (if |history| + 1 <= U64_MAX then |history| + 1 else U64_MAX)
    && Numbered(history)
  }

  class RetryEpisodes {
    var observedSelf: Option<nat>
    var observedPeer: Option<nat>
    var selfSchedule: Option<Schedule>
    var peerSchedule: Option<Schedule>
    var selfAccounting: Option<Accounting>
    var peerAccounting: Option<Accounting>
    var selfEnded: Option<Episode>
    var peerEnded: Option<Episode>
    var auditStartedAt: Instant
    var audit: seq<AuditFact>
    var auditDropped: nat
    var nextAuditSequence: nat
    /** Every record made so far. */
    ghost var history: seq<AuditFact>

    function View(c: Channel): State
      reads this
    {
      match c
      case SelfChannel => State(observedSelf, selfSchedule, selfAccounting, selfEnded)
      case Peer => State(observedPeer, peerSchedule, peerAccounting, peerEnded)
    }

    ghost predicate Valid()
      reads this
    {
      && Ok(SelfChannel, View(SelfChannel))
      && Ok(Peer, View(Peer))
      && AuditOk(audit, auditDropped, nextAuditSequence, history)
    }

    constructor (now: Instant)
      ensures Valid()
      ensures View(SelfChannel) == Idle && View(Peer) == Idle
      ensures history == []
    {
      observedSelf, observedPeer := None, None;
      selfSchedule, peerSchedule := None, None;
      selfAccounting, peerAccounting := None, None;
      selfEnded, peerEnded := None, None;
      auditStartedAt, audit, auditDropped, nextAuditSequence := now, [], 0, 1;
      history := [];
    }

    method ObserveGeneration(c: Channel, generation: Option<nat>)
      modifies this`observedSelf, this`observedPeer
      ensures forall d: Channel :: View(d) == if d == c then old(View(d)).(observed := generation) else old(View(d))
    {
      match c {
        case SelfChannel => observedSelf := generation;
        case Peer => observedPeer := generation;
      }
    }

    method TakeSchedule(c: Channel) returns (taken: Option<Schedule>)
      modifies this`selfSchedule, this`peerSchedule
      ensures forall d: Channel :: View(d) == if d == c then RetryChannel.TakeSchedule(old(View(d))) else old(View(d))
      ensures taken == old(View(c)).schedule
      ensures old(Valid()) ==> Valid()
    {
      match c {
        case SelfChannel => taken, selfSchedule := selfSchedule, None;
        case Peer => taken, peerSchedule := peerSchedule, None;
      }
    }

    method ReplaceSchedule(c: Channel, schedule: Schedule) returns (replaced: Option<Schedule>)
      modifies this`selfSchedule, this`peerSchedule
      ensures forall d: Channel :: View(d) == if d == c then old(View(d)).(schedule := Some(schedule)) else old(View(d))
      ensures replaced == old(View(c)).schedule
    {
      match c {
        case SelfChannel => replaced, selfSchedule := selfSchedule, Some(schedule);
        case Peer => replaced, peerSchedule := peerSchedule, Some(schedule);
      }
    }

    method SetAccounting(c: Channel, accounting: Option<Accounting>)
      modifies this`selfAccounting, this`peerAccounting
      ensures forall d: Channel :: View(d) == if d == c then old(View(d)).(accounting := accounting) else old(View(d))
    {
      match c {
        case SelfChannel => selfAccounting := accounting;
        case Peer => peerAccounting := accounting;
      }
    }

    method SetEndedEpisode(c: Channel, episode: Option<Episode>)
      modifies this`selfEnded, this`peerEnded
      ensures forall d: Channel :: View(d) == if d == c then old(View(d)).(ended := episode) else old(View(d))
    {
      match c {
        case SelfChannel => selfEnded := episode;
        case Peer => peerEnded := episode;
      }
    }

    method EndAccounting(c: Channel)
      modifies this`selfAccounting, this`peerAccounting, this`selfEnded, this`peerEnded
      ensures forall d: Channel :: View(d) == if d == c then RetryChannel.EndAccounting(old(View(d))) else old(View(d))
    {
      var accounting := View(c).accounting;
      SetAccounting(c, None);
      if accounting.Some? {
        SetEndedEpisode(c, Some(accounting.value.Key()));
      }
    }

    method Reconcile(c: Channel, intent: Intent, now: Instant, policy: Policy, streamMax: nat, transfer: bool) returns (report: Report)
      requires Valid()
      modifies this
      ensures Valid() && history == old(history)
      ensures forall d: Channel ::
                View(d) == if d == c then RetryChannel.Reconcile(c, old(View(c)), intent, now, policy, streamMax) else old(View(d))
      ensures report == ReconcileReport(c, old(View(c)), intent, now, policy, streamMax, transfer)
    {
      hide Ok, AuditOk, NextSchedule, OutcomeOf, Disabled;
      var before := View(c);
      ReconcileKeeps(c, before, intent, now, policy, streamMax);
      var generationChanged := GenerationChanged(before, intent);
      var episodeChanged := EpisodeChanged(before, intent);
      ObserveGeneration(c, intent.generation);
      report := Report([], None);
      if intent.target.None? || intent.generation.None? || intent.tail.None? {
        EndAccounting(c);
        var cancelled := TakeSchedule(c);
        report := Report(Withdrawn(cancelled, "cancelled"), None);
        return;
      }
      if episodeChanged && !generationChanged {
        var cancelled := TakeSchedule(c);
        report := Report(Withdrawn(cancelled, "cancelled"), None);
        return;
      }
      if !generationChanged {
        return;
      }
      if View(c).ended == Some(intent.Key()) {
        return;
      }
      SetEndedEpisode(c, None);
      var next := NextSchedule(c, before, intent, now, policy, streamMax);
      var cause := if transfer && before.schedule.Some? then Some((before.schedule.value, next)) else None;
      SetAccounting(c, Some(AccountingOf(next)));
      var replaced: Option<Schedule>;
      if Disabled(next, now) {
        replaced := TakeSchedule(c);
      } else {
        replaced := ReplaceSchedule(c, next);
      }
      report := Report(Withdrawn(replaced, "replaced") + [Transition(next, OutcomeOf(next, now))], cause);
    }

    method SetAllNextDue(due: Instant)
      modifies this`selfSchedule, this`peerSchedule
      ensures forall d: Channel :: View(d) == SetNextDue(old(View(d)), due)
      ensures old(Valid()) ==> Valid()
    {
      if selfSchedule.Some? {
        selfSchedule := Some(selfSchedule.value.(nextDue := due));
      }
      if peerSchedule.Some? {
        peerSchedule := Some(peerSchedule.value.(nextDue := due));
      }
    }

    method FailMatching(captured: Schedule) returns (failed: Option<Schedule>)
      modifies this`selfSchedule, this`peerSchedule, this`selfAccounting, this`peerAccounting
      ensures forall d: Channel :: View(d) == if d == captured.channel then RetryChannel.FailMatching(old(View(d))) else old(View(d))
      ensures failed == MatchingSchedule(old(View(captured.channel)), captured)
      ensures old(Valid()) ==> Valid()
    {
      SetAccounting(captured.channel, None);
      var taken := TakeSchedule(captured.channel);
      failed := if taken.Some? && taken.value.SameIntent(captured) then taken else None;
    }

    method DeferCachedRehandoff(captured: Schedule, now: Instant, cadence: Duration) returns (deferred: Option<Schedule>)
      modifies this`selfSchedule, this`peerSchedule
      ensures forall d: Channel ::
                View(d) == if d == captured.channel then RetryChannel.DeferCachedRehandoff(old(View(d)), captured, now, cadence)
                           else old(View(d))
      ensures deferred == MatchingSchedule(View(captured.channel), captured)
      ensures old(Valid()) ==> Valid()
    {
      deferred := MatchingSchedule(View(captured.channel), captured);
      if deferred.Some? {
        var last := deferred.value.deadline + 1;
        deferred := Some(deferred.value.(nextDue := if now + cadence < last then now + cadence else last));
        var _ := ReplaceSchedule(captured.channel, deferred.value);
      }
    }

    method CompleteMatching(captured: Schedule, now: Instant, cadence: Duration) returns (completed: Option<Schedule>)
      requires Valid()
      modifies this`selfSchedule, this`peerSchedule, this`selfAccounting, this`peerAccounting
      ensures Valid()
      ensures forall d: Channel ::
                View(d) == if d == captured.channel then RetryChannel.CompleteMatching(old(View(d)), captured, now, cadence)
                           else old(View(d))
      ensures completed == if Credits(old(View(captured.channel)), captured)
                           then Some(Credited(old(View(captured.channel)).schedule.value, now, cadence)) else None
    {
      var c := captured.channel;
      var before := View(c);
      CompleteKeeps(c, before, captured, now, cadence);
      if !Credits(before, captured) {
        return None;
      }
      var done := Credited(before.schedule.value, now, cadence);
      var _ := ReplaceSchedule(c, done);
      if done.completed >= done.maxCompleted || now > done.deadline {
        var _ := TakeSchedule(c);
      }
      if before.accounting.Some? && before.accounting.value.Key() == done.Key() {
        SetAccounting(c, Some(before.accounting.value.(completed := done.completed)));
      }
      completed := Some(done);
    }

    method Clear() returns (schedules: seq<Schedule>)
      modifies this`selfSchedule, this`peerSchedule, this`selfAccounting, this`peerAccounting, this`selfEnded, this`peerEnded
      ensures forall d: Channel :: View(d) == Cleared(old(View(d)))
      ensures schedules == Present(old(selfSchedule)) + Present(old(peerSchedule))
      ensures old(Valid()) ==> Valid()
    {
      schedules := Present(selfSchedule) + Present(peerSchedule);
      selfSchedule, peerSchedule := None, None;
      selfAccounting, peerAccounting := None, None;
      selfEnded, peerEnded := None, None;
    }

    method Record(schedule: Schedule, outcome: string, now: Instant)
      requires Valid()
      modifies this`audit, this`auditDropped, this`nextAuditSequence, this`history
      ensures Valid()
      ensures history == old(history)
                         + [FactOf(schedule, outcome, now, auditStartedAt, old(nextAuditSequence),
                                   MatchingSchedule(View(schedule.channel), schedule).Some?)]
    {
      hide Ok;
      if |audit| == AUDIT_CAPACITY {
        audit := audit[1..];
        auditDropped := SaturatingIncrement(auditDropped);
      }
      var fact := FactOf(schedule, outcome, now, auditStartedAt, nextAuditSequence,
                         MatchingSchedule(View(schedule.channel), schedule).Some?);
      audit := audit + [fact];
      history := history + [fact];
      nextAuditSequence := SaturatingIncrement(nextAuditSequence);
    }
  }

  // ---------- the operations keep each channel consistent ----------

  lemma ReconcileKeeps(c: Channel, st: State, intent: Intent, now: Instant, policy: Policy, streamMax: nat)
    requires Ok(c, st)
    ensures Ok(c, RetryChannel.Reconcile(c, st, intent, now, policy, streamMax))
  {
  }

  lemma CompleteKeeps(c: Channel, st: State, captured: Schedule, now: Instant, cadence: Duration)
    requires Ok(c, st)
    ensures Ok(c, RetryChannel.CompleteMatching(st, captured, now, cadence))
  {
  }

  // ---------- the audit log ----------

  /** Kept and dropped facts account for every record, exactly until the dropped counter saturates. */
  lemma AuditAccounts(audit: seq<AuditFact>, dropped: nat, next: nat, history: seq<AuditFact>)
    requires AuditOk(audit, dropped, next, history)
    ensures |audit| == if |history| < 128 then |history| else 128
    ensures |audit| + dropped == |history| <==> |history| <= 128 + 0xFFFF_FFFF_FFFF_FFFF
  {
  }

  /** Asking for what is newer than a sequence number gives every later record still kept, in order,
      exactly while sequence numbers have not saturated below it. */
  lemma {:induction false} NewerIsTheTail(audit: seq<AuditFact>, dropped: nat, next: nat, history: seq<AuditFact>, sequence: nat)
    requires AuditOk(audit, dropped, next, history) && |history| <= U64_MAX
    ensures var lost := |history| - |audit|;
            NewerThan(audit, sequence) == history[(if sequence >= |history| then |history| else if sequence > lost then sequence else lost)..]
  {
    var lost := |history| - |audit|;
    assert forall i :: 0 <= i < |audit| ==> audit[i].sequence == lost + i + 1;
    NewerByNumber(audit, lost, sequence);
    var from := if sequence >= |history| then |history| else if sequence > lost then sequence else lost;
    assert audit[from - lost..] == history[from..];
  }

  lemma {:induction false} NewerByNumber(audit: seq<AuditFact>, lost: nat, sequence: nat)
    requires forall i :: 0 <= i < |audit| ==> audit[i].sequence == lost + i + 1
    ensures var from := if sequence >= lost + |audit| then |audit| else if sequence > lost then sequence - lost else 0;
            NewerThan(audit, sequence) == audit[from..]
  {
    if audit != [] {
      var front := audit[..|audit| - 1];
      NewerByNumber(front, lost, sequence);
      assert audit == front + [audit[|audit| - 1]];
      var from := if sequence >= lost + |front| then |front| else if sequence > lost then sequence - lost else 0;
      if sequence < lost + |audit| {
        assert audit[from..] == front[from..] + [audit[|audit| - 1]];
      }
    }
  }
}
