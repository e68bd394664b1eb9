/** The broker's tables as one mutable store, with a method for every statement or batch, and the
    cleanup and sweep procedures that drive them. Every method is proved against BrokerSql. */
module BrokerStore {
  import opened Wrappers
  import opened BrokerTypes
  import opened BrokerSql

  /** What a lookup of a key by its name reports. */
  datatype ScanAnswer = Found(key: KeyHash) | Missed(complete: bool, nextOffset: nat)

  /** What disabling and deleting a key, and then reading it back, report. */
  datatype CleanupAnswer = CleanupAnswer(ok: bool, absent: bool)

  // ---------- what one undisturbed cleanup does ----------

  function ScanVerdict(t: Attempt, scan: ScanAnswer): (Option<KeyHash>, bool, nat) {
    if t.credential.Some? then (t.credential, false, t.scanOffset)
    else match scan
      case Found(key) => (Some(key), false, t.scanOffset)
      case Missed(complete, nextOffset) => (None, complete && !t.inFlight, if complete then 0 else nextOffset)
  }

  /** The tables after reconcileUnknownAttempt runs with nobody else in between. */
  function Reconciled(db: Db, a: AttemptId, subject: Subject, tok: Token, now: Instant, cron: bool,
                      scan: ScanAnswer, cleanup: CleanupAnswer): Db {
    var repaired := RepairInsert(db, a);
    var claimed := ClaimBatch(repaired, a, tok, now, cron);
    if a.index == 0 then db
    else if !CanClaim(repaired, a, now, cron) || !HoldsToken(claimed, a, tok) then claimed
    else
      var (key, complete, next) := ScanVerdict(claimed.attempts[a], scan);
      var pinned := if key.Some? then PinCredential(claimed, a, tok, key.value) else claimed;
      var clean := if key.Some? then cleanup.ok && cleanup.absent else complete;
      if clean then CleanBatch(pinned, a, tok, subject, key, now) else UncleanBatch(pinned, a, tok, next)
  }

  function ExpiredOps(db: Db, os: seq<OperationId>): Db {
    if os == [] then db else ExpireOperation(ExpiredOps(db, os[..|os| - 1]), os[|os| - 1])
  }

  class Store {
    var ops: map<OperationId, Operation>
    var attempts: map<AttemptId, Attempt>
    var deliveries: map<DeliveryId, Delivery>
    var entitlements: map<EntitlementId, Entitlement>

    constructor ()
      ensures Snapshot() == Db(map[], map[], map[], map[])
    {
      ops, attempts, deliveries, entitlements := map[], map[], map[], map[];
    }

    function Snapshot(): Db
      reads this
    {
      Db(ops, attempts, deliveries, entitlements)
    }

    // ---------- managed_operations ----------

    method CreateOperation(o: OperationId, subject: Subject, now: Instant)
      modifies this`ops
      ensures Snapshot() == BrokerSql.CreateOperation(old(Snapshot()), o, subject, now)
    {
      if o !in ops {
        ops := ops[o := Operation(subject, Authenticated, Wait, 0, 0, now + AUTH_TTL_MS, None)];
      }
    }

    method Transition(o: OperationId, to: OperationState, from: set<OperationState>, guard: Option<nat>) returns (changes: nat)
      modifies this`ops
      ensures Snapshot() == BrokerSql.Transition(old(Snapshot()), o, to, from, guard)
      ensures changes == if TransitionApplies(old(Snapshot()), o, from, guard) then 1 else 0
    {
      changes := 0;
      if TransitionApplies(Snapshot(), o, from, guard) {
        ops := ops[o := ops[o].(state := to, clientAction := ClientActionForState(to))];
        changes := 1;
      }
    }

    method Expire(o: OperationId)
      modifies this`ops
      ensures Snapshot() == ExpireOperation(old(Snapshot()), o)
    {
      if o in ops && ops[o].state != Active && ops[o].state != Failed {
        ops := ops[o := ops[o].(state := Failed, clientAction := ActionRequired, failure := Some(AuthorizationExpired))];
      }
    }

    method Fail(o: OperationId, index: nat, reason: FailureReason)
      modifies this`ops
      ensures Snapshot() == FailOperation(old(Snapshot()), o, index, reason)
    {
      if FailApplies(Snapshot(), o, index) {
        ops := ops[o := ops[o].(state := Failed, clientAction := ActionRequired, failure := Some(reason))];
      }
    }

    /** markOperationActiveOnAck: true exactly when the operation of the delivery is active afterwards. */
    method MarkActiveOnAck(d: DeliveryId) returns (active: bool)
      modifies this`ops
      ensures Snapshot() == ActivateOnAck(old(Snapshot()), d)
      ensures d in deliveries ==> (active <==> StateIn(Snapshot(), deliveries[d].attempt.op, {Active}))
      ensures d !in deliveries ==> active
    {
      if d !in deliveries {
        return true;
      }
      var o := deliveries[d].attempt.op;
      if ActivateApplies(Snapshot(), d) {
        ops := ops[o := ops[o].(state := Active, clientAction := Wait, failure := None)];
      }
      active := o in ops && ops[o].state == Active;
    }

    // ---------- attempts ----------

    /** The start batch. It reports the changes of its first statement, as the caller reads them. */
    method StartAttempt(o: OperationId, seen: nat, now: Instant) returns (changes: nat)
      modifies this`ops, this`attempts
      ensures Snapshot() == StartBatch(old(Snapshot()), o, seen, now)
      ensures changes == if CanStart(old(Snapshot()), o, seen, now) then 1 else 0
    {
      changes := 0;
      if CanStart(Snapshot(), o, seen, now) {
        ops := ops[o := ops[o].(state := Creating, clientAction := Wait, attemptCount := seen + 1, currentIndex := seen + 1)];
        changes := 1;
      }
      if StateIn(Snapshot(), o, {Creating}) && ops[o].attemptCount == seen + 1 && ops[o].currentIndex == seen + 1
         && AttemptId(o, seen + 1) !in attempts
      {
        attempts := attempts[AttemptId(o, seen + 1) := FreshAttempt];
      }
    }

    method ClaimCreate(a: AttemptId) returns (changes: nat)
      modifies this`attempts
      ensures Snapshot() == BrokerSql.ClaimCreate(old(Snapshot()), a)
      ensures changes == if CanClaimCreate(old(Snapshot()), a) then 1 else 0
    {
      changes := 0;
      if CanClaimCreate(Snapshot(), a) {
        attempts := attempts[a := attempts[a].(inFlight := true)];
        changes := 1;
      }
    }

    method WriteBack(a: AttemptId, key: Option<KeyHash>)
      modifies this`attempts
      ensures Snapshot() == BrokerSql.WriteBack(old(Snapshot()), a, key)
    {
      if a in attempts && attempts[a].inFlight {
        if key.Some? {
          attempts := attempts[a := attempts[a].(credential := key, outcome := Created)];
        }
        attempts := attempts[a := attempts[a].(inFlight := false)];
      }
    }

    method RecordCredential(a: AttemptId, h: KeyHash) returns (recorded: bool)
      modifies this`attempts
      ensures Snapshot() == BrokerSql.RecordCredential(old(Snapshot()), a, h)
      ensures recorded == CanRecord(old(Snapshot()), a, h)
    {
      recorded := CanRecord(Snapshot(), a, h);
      if recorded {
        attempts := attempts[a := attempts[a].(credential := Some(h), outcome := Created)];
      }
    }

    /** markAttemptUnknown: two statements, the attempt row and then the operation. */
    method MarkAttemptUnknown(a: AttemptId)
      modifies this`attempts, this`ops
      ensures Snapshot() == BrokerSql.Transition(MarkUnknown(old(Snapshot()), a), a.op, CreateUnknown, {Creating}, Some(a.index))
    {
      if CanMarkUnknown(Snapshot(), a) {
        attempts := attempts[a := attempts[a].(outcome := Unknown)];
      }
      var _ := Transition(a.op, CreateUnknown, {Creating}, Some(a.index));
    }

    /** releaseUnstartedOperationAttempt: true exactly when the operation ended up ready for a retry. */
    method ReleaseUnstarted(a: AttemptId) returns (released: bool)
      modifies this`attempts, this`ops
      ensures Snapshot() ==
              if CanRelease(old(Snapshot()), a)
              then BrokerSql.Transition(BrokerSql.ReleaseUnstarted(old(Snapshot()), a), a.op, RetryReady,
                                        {Creating, CreateUnknown}, Some(a.index))
              else old(Snapshot())
      ensures released ==> StateIn(Snapshot(), a.op, {RetryReady}) && a in attempts && Settled(attempts[a])
      ensures CanRelease(old(Snapshot()), a) ==> released
    {
      if !CanRelease(Snapshot(), a) {
        return false;
      }
      attempts := attempts[a := attempts[a].(outcome := Cleaned)];
      var _ := Transition(a.op, RetryReady, {Creating, CreateUnknown}, Some(a.index));
      released := a.op in ops && ops[a.op].state == RetryReady;
    }

    // ---------- deliveries ----------

    method InsertDelivery(d: DeliveryId, a: AttemptId, h: KeyHash, expiresAt: Instant) returns (changes: nat)
      modifies this`deliveries
      ensures Snapshot() == BrokerSql.InsertDelivery(old(Snapshot()), d, a, h, expiresAt)
      ensures changes == 1 <==> d !in old(deliveries) && CanDeliver(old(Snapshot()), a, h)
    {
      changes := 0;
      if d !in deliveries && CanDeliver(Snapshot(), a, h) {
        deliveries := deliveries[d := Delivery(a, h, AwaitingAck, expiresAt, None, None)];
        changes := 1;
      }
    }

    /** The acknowledgement batch, statement by statement; an abort restores what the first one changed. */
    method Acknowledge(d: DeliveryId, e: EntitlementId, recorded: bool)
      modifies this`deliveries, this`entitlements
      ensures Snapshot() == AckBatch(old(Snapshot()), d, e, recorded)
    {
      if d !in deliveries || deliveries[d].status != AwaitingAck
         || e !in entitlements || entitlements[e].credential != Some(deliveries[d].credential)
      {
        return;
      }
      var before := entitlements;
      if entitlements[e].phase == AwaitingDelivery {
        if !EntitlementAllowed(Snapshot(), deliveries[d].credential) {
          return;
        }
        entitlements := entitlements[e := entitlements[e].(phase := Granted)];
      }
      if entitlements[e].phase == Granted && recorded {
        if !AckAllowed(Snapshot(), deliveries[d]) {
          entitlements := before;
          return;
        }
        deliveries := deliveries[d := deliveries[d].(status := Acknowledged)];
      }
      assert recorded && CanAck(old(Snapshot()), d, e) ==> entitlements == before[e := before[e].(phase := Granted)];
    }

    method ExpireDelivery(d: DeliveryId, now: Instant) returns (changed: bool)
      modifies this`deliveries
      ensures Snapshot() == BrokerSql.ExpireDelivery(old(Snapshot()), d, now)
      ensures changed <==> d in old(deliveries) && old(deliveries)[d].status == AwaitingAck
    {
      changed := d in deliveries && deliveries[d].status == AwaitingAck;
      if changed {
        deliveries := deliveries[d := deliveries[d].(status := Expired, failedAt := Some(now), failure := Some(ResumeStaleDeliveryExpired))];
      }
    }

    // ---------- cleanup ----------

    /** The claim batch, statement by statement; the later ones act only if this token is held. */
    method ClaimCleanup(a: AttemptId, tok: Token, now: Instant, cron: bool) returns (changes: nat)
      modifies this`attempts, this`deliveries, this`ops
      ensures Snapshot() == ClaimBatch(old(Snapshot()), a, tok, now, cron)
      ensures changes == if CanClaim(old(Snapshot()), a, now, cron) then 1 else 0
      ensures changes == 1 ==> HoldsToken(Snapshot(), a, tok)
    {
      changes := 0;
      if CanClaim(Snapshot(), a, now, cron) {
        attempts := attempts[a := attempts[a].(token := Some(tok), startedAt := Some(now), checkedAt := Some(now))];
        changes := 1;
      }
      assert Snapshot() == ClaimAttempt(old(Snapshot()), a, tok, now, cron);
      if HoldsToken(Snapshot(), a, tok) {
        deliveries := ExpireAll(Snapshot(), a, {AwaitingAck, NeedsCleanup, Expired}, now, OperationCleanupClaimed);
      }
      if HoldsToken(Snapshot(), a, tok) && IsCurrent(Snapshot(), a) {
        var failed := ops[a.op].state == Failed;
        ops := ops[a.op := ops[a.op].(state := if failed then Failed else Reconciling,
                                      clientAction := if failed then ActionRequired else Wait)];
      }
    }

    method Pin(a: AttemptId, tok: Token, h: KeyHash) returns (changes: nat)
      modifies this`attempts
      ensures Snapshot() == PinCredential(old(Snapshot()), a, tok, h)
      ensures changes == if HoldsToken(old(Snapshot()), a, tok) then 1 else 0
    {
      changes := 0;
      if HoldsToken(Snapshot(), a, tok) {
        attempts := attempts[a := attempts[a].(credential := Some(h), inFlight := false)];
        changes := 1;
      }
    }

    method DeleteEntitlements(a: AttemptId, tok: Token, subject: Subject, credential: Option<KeyHash>)
      modifies this`entitlements
      ensures Snapshot() == CleanEntitlements(old(Snapshot()), a, tok, subject, credential)
    {
      hide Deletable;
      if HoldsToken(Snapshot(), a, tok) {
        entitlements := map e | e in entitlements && !Deletable(entitlements[e], subject, credential) :: entitlements[e];
      }
    }

    method ExpireCleaned(a: AttemptId, tok: Token, now: Instant)
      modifies this`deliveries
      ensures Snapshot() == CleanDeliveries(old(Snapshot()), a, tok, now)
    {
      hide ExpireAll;
      if HoldsToken(Snapshot(), a, tok) {
        deliveries := ExpireAll(Snapshot(), a, {AwaitingAck, Expired, NeedsCleanup}, now, AckExpiredChildKeyCleaned);
      }
    }

    method MakeRetryReady(a: AttemptId, tok: Token, now: Instant)
      modifies this`ops
      ensures Snapshot() == CleanOperation(old(Snapshot()), a, tok, now)
    {
      if HoldsToken(Snapshot(), a, tok) && IsCurrent(Snapshot(), a) && ops[a.op].state == Reconciling && ops[a.op].authExpiresAt > now {
        ops := ops[a.op := ops[a.op].(state := RetryReady, clientAction := RetryAuthorized)];
      }
    }

    method MarkCleaned(a: AttemptId, tok: Token)
      modifies this`attempts
      ensures Snapshot() == CleanAttempt(old(Snapshot()), a, tok)
    {
      if HoldsToken(Snapshot(), a, tok) {
        attempts := attempts[a := attempts[a].(outcome := Cleaned, token := None, startedAt := None, scanOffset := 0)];
      }
    }

    /** The batch after a verified cleanup. The attempt row comes last: it gives the token up. */
    method FinishClean(a: AttemptId, tok: Token, subject: Subject, credential: Option<KeyHash>, now: Instant)
      modifies this
      ensures Snapshot() == CleanBatch(old(Snapshot()), a, tok, subject, credential, now)
    {
      hide CleanEntitlements, CleanDeliveries, CleanOperation, CleanAttempt;
      DeleteEntitlements(a, tok, subject, credential);
      ExpireCleaned(a, tok, now);
      MakeRetryReady(a, tok, now);
      MarkCleaned(a, tok);
    }

    method FinishUnclean(a: AttemptId, tok: Token, nextOffset: nat)
      modifies this`ops, this`attempts
      ensures Snapshot() == UncleanBatch(old(Snapshot()), a, tok, nextOffset)
    {
      if HoldsToken(Snapshot(), a, tok) && IsCurrent(Snapshot(), a) {
        ops := ops[a.op := ops[a.op].(state := if ops[a.op].state == Failed then Failed else CleanupRequired)];
      }
      if HoldsToken(Snapshot(), a, tok) {
        attempts := attempts[a := attempts[a].(token := None, startedAt := None, scanOffset := nextOffset)];
      }
    }

    method RepairAttempt(a: AttemptId)
      modifies this`attempts
      ensures Snapshot() == RepairInsert(old(Snapshot()), a)
    {
      if a.index > 0 && IsCurrent(Snapshot(), a) && StateIn(Snapshot(), a.op, Cleanable) && a !in attempts {
        attempts := attempts[a := FreshAttempt.(inFlight := true)];
      }
    }

    /** reconcileUnknownAttempt with the provider's answers given and nobody else in between. */
    method ReconcileUnknownAttempt(a: AttemptId, subject: Subject, tok: Token, now: Instant, cron: bool,
                                   scan: ScanAnswer, cleanup: CleanupAnswer)
      modifies this
      ensures Snapshot() == Reconciled(old(Snapshot()), a, subject, tok, now, cron, scan, cleanup)
    {
      hide CanClaim, ClaimBatch, CleanBatch, UncleanBatch, PinCredential, RepairInsert;
      if a.index == 0 {
        return;
      }
      RepairAttempt(a);
      var claimed := ClaimCleanup(a, tok, now, cron);
      if claimed != 1 {
        return;
      }
      var target := attempts[a];
      var clean := false;
      var key := target.credential;
      var nextOffset := target.scanOffset;
      if key.None? {
        match scan {
          case Found(h) => key := Some(h);
          case Missed(complete, next) =>
            clean := complete && !target.inFlight;
            nextOffset := if complete then 0 else next;
        }
      }
      if key.Some? {
        var pinned := Pin(a, tok, key.value);
        clean := cleanup.ok && cleanup.absent;
      }
      if clean {
        FinishClean(a, tok, subject, key, now);
      } else {
        FinishUnclean(a, tok, nextOffset);
      }
    }

    // ---------- the sweep's first loop ----------

    /** Expires every listed operation; the sweep lists those past their authorization. */
    method ExpireStale(stale: seq<OperationId>)
      modifies this`ops
      ensures Snapshot() == ExpiredOps(old(Snapshot()), stale)
      ensures forall o <- stale :: o in ops ==> ops[o].state in {Active, Failed}
      ensures forall o <- old(ops).Keys :: o !in stale ==> o in ops && ops[o] == old(ops)[o]
      ensures forall o <- old(ops).Keys :: o in ops && (old(ops)[o].state == Active ==> ops[o] == old(ops)[o])
    {
      for i := 0 to |stale|
        invariant Snapshot() == ExpiredOps(old(Snapshot()), stale[..i])
        invariant forall o <- stale[..i] :: o in ops ==> ops[o].state in {Active, Failed}
        invariant forall o <- old(ops).Keys :: o !in stale[..i] ==> o in ops && ops[o] == old(ops)[o]
        invariant forall o <- old(ops).Keys :: o in ops && (old(ops)[o].state == Active ==> ops[o] == old(ops)[o])
      {
        assert stale[..i + 1][..i] == stale[..i];
        Expire(stale[i]);
      }
      assert stale[..|stale|] == stale;
    }
  }
}
