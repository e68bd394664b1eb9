/** What forbids each statement, on any tables, reachable or not: a held claim, a later attempt, the state of the
    operation, and what is recorded on the attempt. */
module OperationGuards {
  import opened Wrappers
  import opened BrokerTypes
  import opened BrokerSql

  predicate Held(db: Db, a: AttemptId) {
    a in db.attempts && db.attempts[a].token.Some?
  }

  /** A held cleanup claim on an attempt stops every statement of requests, acknowledgements and sweeps that
      concerns the attempt. */
  lemma HeldClaimBlocks(db: Db, a: AttemptId, to: OperationState, from: set<OperationState>, reason: FailureReason, h: KeyHash,
                        d: DeliveryId, e: EntitlementId, expiresAt: Instant, at: Option<Instant>, recorded: bool)
    requires Held(db, a)
    ensures Transition(db, a.op, to, from, Some(a.index)) == db
    ensures FailOperation(db, a.op, a.index, reason) == db
    ensures ClaimCreate(db, a) == db && RecordCredential(db, a, h) == db && MarkUnknown(db, a) == db && ReleaseUnstarted(db, a) == db
    ensures InsertDelivery(db, d, a, h, expiresAt) == db
    ensures d in db.deliveries && db.deliveries[d].attempt == a ==>
              && ActivateOnAck(db, d) == db && RepairAck(db, d) == db && AckCleanupClaim(db, d, at) == db
              && AckBatch(db, d, e, recorded).deliveries == db.deliveries
  {
    hide EntitlementAllowed;
  }

  /** Once a later attempt is current, an older one is changed by none of them, nor claimed for cleanup. */
  lemma LaterAttemptBlocks(db: Db, a: AttemptId, to: OperationState, from: set<OperationState>, reason: FailureReason, h: KeyHash,
                           d: DeliveryId, e: EntitlementId, expiresAt: Instant, at: Option<Instant>, recorded: bool)
    requires a.op in db.ops && db.ops[a.op].currentIndex != a.index
    ensures Transition(db, a.op, to, from, Some(a.index)) == db
    ensures FailOperation(db, a.op, a.index, reason) == db
    ensures ClaimCreate(db, a) == db && RecordCredential(db, a, h) == db && MarkUnknown(db, a) == db && ReleaseUnstarted(db, a) == db
    ensures InsertDelivery(db, d, a, h, expiresAt) == db && RepairInsert(db, a) == db
    ensures d in db.deliveries && db.deliveries[d].attempt == a ==>
              && ActivateOnAck(db, d) == db && RepairAck(db, d) == db && AckCleanupClaim(db, d, at) == db
              && AckBatch(db, d, e, recorded).deliveries == db.deliveries
  {
    hide EntitlementAllowed;
  }

  lemma LaterAttemptBlocksClaim(db: Db, a: AttemptId, tok: Token, now: Instant, cron: bool)
    requires a.op in db.ops && db.ops[a.op].currentIndex != a.index && !HoldsToken(db, a, tok)
    ensures ClaimBatch(db, a, tok, now, cron) == db
  {
    hide Finalized;
  }

  /** The states in which each statement can act, and no others. */
  lemma StateBlocks(db: Db, a: AttemptId, h: KeyHash, d: DeliveryId, expiresAt: Instant, at: Option<Instant>, reason: FailureReason)
    requires a.op in db.ops
    ensures db.ops[a.op].state != Creating ==> ClaimCreate(db, a) == db && InsertDelivery(db, d, a, h, expiresAt) == db
    ensures db.ops[a.op].state !in {Creating, CreateUnknown, CleanupRequired, Failed} ==>
              RecordCredential(db, a, h) == db && MarkUnknown(db, a) == db
    ensures db.ops[a.op].state !in {Creating, CreateUnknown} ==> ReleaseUnstarted(db, a) == db
    ensures db.ops[a.op].state in {Active, Failed} ==> ExpireOperation(db, a.op) == db && FailOperation(db, a.op, a.index, reason) == db
    ensures db.ops[a.op].state !in {CreateUnknown, Reconciling, CleanupRequired, Clean, DeliveryPending, Failed} ==> RepairInsert(db, a) == db
    ensures d in db.deliveries && db.deliveries[d].attempt == a ==>
              && (db.ops[a.op].state !in {DeliveryPending, Failed} ==> ActivateOnAck(db, d) == db)
              && (db.ops[a.op].state !in {Creating, DeliveryPending, Failed} ==> RepairAck(db, d) == db && AckCleanupClaim(db, d, at) == db)
  {
  }

  lemma StateBlocksAck(db: Db, d: DeliveryId, e: EntitlementId, recorded: bool)
    requires d in db.deliveries && db.deliveries[d].attempt.op in db.ops
    requires db.ops[db.deliveries[d].attempt.op].state !in {Creating, DeliveryPending, Failed}
    ensures AckBatch(db, d, e, recorded).deliveries == db.deliveries
  {
    hide EntitlementAllowed;
  }

  /** What is recorded on the attempt forbids: a cleaned one is never written, a recorded credential is not replaced,
      a create is claimed once, and only an attempt with nothing recorded and no delivery is released. */
  lemma RecordBlocks(db: Db, a: AttemptId, h: KeyHash, d: DeliveryId, expiresAt: Instant)
    requires a in db.attempts
    ensures db.attempts[a].outcome == Cleaned ==>
              && ClaimCreate(db, a) == db && RecordCredential(db, a, h) == db && MarkUnknown(db, a) == db && ReleaseUnstarted(db, a) == db
              && InsertDelivery(db, d, a, h, expiresAt) == db
    ensures db.attempts[a].credential.Some? ==> ClaimCreate(db, a) == db && ReleaseUnstarted(db, a) == db
    ensures db.attempts[a].credential.Some? && db.attempts[a].credential != Some(h) ==>
              RecordCredential(db, a, h) == db && InsertDelivery(db, d, a, h, expiresAt) == db
    ensures db.attempts[a].credential.None? ==> InsertDelivery(db, d, a, h, expiresAt) == db
    ensures db.attempts[a].inFlight ==> ClaimCreate(db, a) == db && ReleaseUnstarted(db, a) == db
    ensures !db.attempts[a].inFlight ==> WriteBack(db, a, Some(h)) == db && WriteBack(db, a, None) == db
    ensures db.attempts[a].outcome != Unknown ==> ClaimCreate(db, a) == db && ReleaseUnstarted(db, a) == db
    ensures db.attempts[a].outcome != Created ==> InsertDelivery(db, d, a, h, expiresAt) == db
    ensures (exists k :: k in db.deliveries && db.deliveries[k].attempt == a) ==> ReleaseUnstarted(db, a) == db
  {
  }

  // ---------- starting an attempt ----------

  /** A start changes nothing when the authorization is over, an attempt of the subject is open, a delivery of the
      operation is, or the snapshot is old. */
  lemma StartRefused(db: Db, o: OperationId, seen: nat, now: Instant)
    requires o in db.ops
    requires || db.ops[o].authExpiresAt <= now
             || db.ops[o].state !in {Authenticated, IssueReady, RetryReady}
             || db.ops[o].attemptCount != seen
             || (exists a :: a in db.attempts && a.op in db.ops && db.ops[a.op].subject == db.ops[o].subject
                             && (db.attempts[a].outcome != Cleaned || db.attempts[a].token.Some? || db.attempts[a].inFlight))
             || (exists d :: d in db.deliveries && db.deliveries[d].attempt.op == o && db.deliveries[d].status != Expired)
    ensures StartBatch(db, o, seen, now).ops == db.ops
  {
  }

  /** Otherwise it opens the next attempt: the operation is creating and the attempt has an empty row. */
  lemma StartOpens(db: Db, o: OperationId, now: Instant)
    requires o in db.ops && db.ops[o].authExpiresAt > now && db.ops[o].state in {Authenticated, IssueReady, RetryReady}
    requires forall a :: a in db.attempts && (a.op == o || (a.op in db.ops && db.ops[a.op].subject == db.ops[o].subject)) ==>
               db.attempts[a].outcome == Cleaned && db.attempts[a].token.None? && !db.attempts[a].inFlight
    requires forall d :: d in db.deliveries && db.deliveries[d].attempt.op == o ==> db.deliveries[d].status == Expired
    requires AttemptId(o, db.ops[o].attemptCount + 1) !in db.attempts
    ensures var n := db.ops[o].attemptCount + 1;
            var t := StartBatch(db, o, n - 1, now);
            && t.ops[o].state == Creating && t.ops[o].clientAction == Wait
            && t.ops[o].attemptCount == t.ops[o].currentIndex == n
            && AttemptId(o, n) in t.attempts
            && t.attempts[AttemptId(o, n)] == Attempt(None, Unknown, None, None, None, false, 0)
  {
  }

  // ---------- claims ----------

  /** Nothing on the deliveries of the attempt, or on an entitlement with its credential, forbids a claim at this time. */
  predicate NothingForbids(db: Db, a: AttemptId, now: Instant) {
    && (forall d <- db.deliveries.Keys :: db.deliveries[d].attempt == a ==>
          db.deliveries[d].status != Acknowledged && (db.deliveries[d].status == AwaitingAck ==> db.deliveries[d].expiresAt < now))
    && (a in db.attempts && db.attempts[a].credential.Some? ==>
          forall e <- db.entitlements.Keys :: db.entitlements[e].credential == db.attempts[a].credential ==> db.entitlements[e].phase != Granted)
  }

  /** The attempt's turn has come: a claim is 16 minutes old, or there is none and, for a sweep, the last check is
      6 hours ago or was never made. */
  predicate TurnHasCome(t: Attempt, now: Instant, cron: bool) {
    if t.token.Some? then t.startedAt.Some? && now - t.startedAt.value >= 960_000
    else !cron || t.checkedAt.None? || now - t.checkedAt.value >= 21_600_000
  }

  /** Main result, on any tables: a new token is held after a claim exactly if the current attempt, in a state that
      allows cleanup, is not cleaned, its turn has come and nothing forbids it. Otherwise nothing changes. */
  lemma ClaimTakenExactly(db: Db, a: AttemptId, tok: Token, now: Instant, cron: bool)
    requires !HoldsToken(db, a, tok)
    ensures HoldsToken(ClaimBatch(db, a, tok, now, cron), a, tok)
            <==> && a in db.attempts && a.op in db.ops && db.ops[a.op].currentIndex == a.index
                 && db.ops[a.op].state in {CreateUnknown, Reconciling, CleanupRequired, Clean, DeliveryPending, Failed}
                 && db.attempts[a].outcome != Cleaned
                 && TurnHasCome(db.attempts[a], now, cron) && NothingForbids(db, a, now)
    ensures !HoldsToken(ClaimBatch(db, a, tok, now, cron), a, tok) ==> ClaimBatch(db, a, tok, now, cron) == db
  {
    var t := ClaimBatch(db, a, tok, now, cron);
    ClaimKeepsToken(db, a, tok, now, cron);
    NotFinalized(db, a);
    hide ClaimBatch, Finalized;
  }

  lemma ClaimKeepsToken(db: Db, a: AttemptId, tok: Token, now: Instant, cron: bool)
    requires !HoldsToken(db, a, tok)
    ensures HoldsToken(ClaimBatch(db, a, tok, now, cron), a, tok) <==> CanClaim(db, a, now, cron)
    ensures !CanClaim(db, a, now, cron) ==> ClaimBatch(db, a, tok, now, cron) == db
  {
    hide CanClaim, ExpireAll;
    assert CanClaim(db, a, now, cron) ==> a in db.attempts by { ClaimedExists(db, a, now, cron); }
  }

  lemma ClaimedExists(db: Db, a: AttemptId, now: Instant, cron: bool)
    ensures CanClaim(db, a, now, cron) ==> a in db.attempts
  {
  }

  lemma NotFinalized(db: Db, a: AttemptId)
    ensures a in db.attempts && db.attempts[a].credential.Some? ==>
              (Finalized(db, db.attempts[a].credential.value)
               <==> exists e <- db.entitlements.Keys :: db.entitlements[e].credential == db.attempts[a].credential && db.entitlements[e].phase == Granted)
  {
  }

  /** What a successful claim does: token and times on the attempt, every delivery of the attempt expired for this
      reason, the operation reconciling unless it is failed, and nothing else. */
  lemma ClaimEffects(db: Db, a: AttemptId, tok: Token, now: Instant, cron: bool)
    requires CanClaim(db, a, now, cron)
    ensures var t := ClaimBatch(db, a, tok, now, cron);
            && t.attempts == db.attempts[a := db.attempts[a].(token := Some(tok), startedAt := Some(now), checkedAt := Some(now))]
            && t.entitlements == db.entitlements
            && t.ops.Keys == db.ops.Keys && (forall o :: o in db.ops && o != a.op ==> t.ops[o] == db.ops[o])
            && t.ops[a.op] == (if db.ops[a.op].state == Failed then db.ops[a.op].(clientAction := ActionRequired)
                               else db.ops[a.op].(state := Reconciling, clientAction := Wait))
            && t.deliveries.Keys == db.deliveries.Keys
            && (forall d :: d in db.deliveries ==>
                  t.deliveries[d] == if db.deliveries[d].attempt == a
                                     then db.deliveries[d].(status := Expired, failedAt := Some(now), failure := Some(OperationCleanupClaimed))
                                     else db.deliveries[d])
  {
    NoneAcknowledged(db, a, now, cron);
    hide CanClaim, Finalized;
  }

  lemma NoneAcknowledged(db: Db, a: AttemptId, now: Instant, cron: bool)
    requires CanClaim(db, a, now, cron)
    ensures a in db.attempts && a.op in db.ops && db.ops[a.op].currentIndex == a.index
    ensures forall d :: d in db.deliveries && db.deliveries[d].attempt == a ==> db.deliveries[d].status != Acknowledged
  {
    hide Finalized;
  }

  // ---------- what a verified cleanup deletes ----------

  /** The unfinished entitlements that a verified cleanup of a subject with this key deletes: those with that key, which
      for QQ must be the subject's, and the QQ subject's own ones with no key that still wait for one. */
  predicate Doomed(row: Entitlement, subject: Subject, key: Option<KeyHash>) {
    && row.phase in {Issuing, AwaitingDelivery, NeedsRepair}
    && match row.subject.source
       case Discord => key.Some? && row.credential == key
       case Qq => row.subject == subject && (if row.credential.Some? then row.credential == key else row.phase != AwaitingDelivery)
  }

  /** Main result, on any tables: after a verified cleanup no entitlement is new or changed, and the deleted ones are
      exactly the doomed ones. */
  lemma CleanedEntitlements(db: Db, a: AttemptId, tok: Token, subject: Subject, key: Option<KeyHash>, now: Instant, e: EntitlementId)
    requires HoldsToken(db, a, tok)
    ensures var t := CleanBatch(db, a, tok, subject, key, now);
            && (e in t.entitlements ==> e in db.entitlements && t.entitlements[e] == db.entitlements[e])
            && (e in db.entitlements && e !in t.entitlements
                <==> e in db.entitlements && Doomed(db.entitlements[e], subject, key))
  {
    CleanedRows(db, a, tok, subject, key, now);
  }

  lemma CleanedRows(db: Db, a: AttemptId, tok: Token, subject: Subject, key: Option<KeyHash>, now: Instant)
    requires HoldsToken(db, a, tok)
    ensures CleanBatch(db, a, tok, subject, key, now).entitlements
            == map e | e in db.entitlements && !Deletable(db.entitlements[e], subject, key) :: db.entitlements[e]
  {
    hide Deletable, ExpireAll;
  }

  /** So a granted entitlement stays, and so does one of another subject that does not carry the cleaned key. */
  lemma OthersKeepTheirEntitlements(db: Db, a: AttemptId, tok: Token, subject: Subject, key: Option<KeyHash>, now: Instant, e: EntitlementId)
    requires e in db.entitlements
    requires || db.entitlements[e].phase == Granted
             || (db.entitlements[e].subject != subject && (db.entitlements[e].credential.None? || db.entitlements[e].credential != key))
    ensures var t := CleanBatch(db, a, tok, subject, key, now);
            e in t.entitlements && t.entitlements[e] == db.entitlements[e]
  {
    if HoldsToken(db, a, tok) {
      CleanedEntitlements(db, a, tok, subject, key, now, e);
    } else {
      LostBatchIdle(db, a, tok, subject, key, now);
    }
  }

  lemma LostBatchIdle(db: Db, a: AttemptId, tok: Token, subject: Subject, key: Option<KeyHash>, now: Instant)
    requires !HoldsToken(db, a, tok)
    ensures CleanBatch(db, a, tok, subject, key, now) == db
  {
  }

  /** And the other tables: every delivery of the attempt that is not acknowledged ends for this reason, the
      operation becomes ready for a retry exactly if it is reconciling this attempt and still authorized, and the
      attempt is cleaned with its claim and scan position given up. */
  lemma CleanedTables(db: Db, a: AttemptId, tok: Token, subject: Subject, key: Option<KeyHash>, now: Instant)
    requires HoldsToken(db, a, tok)
    ensures var t := CleanBatch(db, a, tok, subject, key, now);
            && t.attempts == db.attempts[a := db.attempts[a].(outcome := Cleaned, token := None, startedAt := None, scanOffset := 0)]
            && t.deliveries.Keys == db.deliveries.Keys
            && (forall d :: d in db.deliveries ==>
                  t.deliveries[d] == if db.deliveries[d].attempt == a && db.deliveries[d].status != Acknowledged
                                     then db.deliveries[d].(status := Expired, failedAt := Some(now), failure := Some(AckExpiredChildKeyCleaned))
                                     else db.deliveries[d])
            && t.ops.Keys == db.ops.Keys
            && (forall o :: o in db.ops ==>
                  t.ops[o] == if o == a.op && db.ops[o].currentIndex == a.index && db.ops[o].state == Reconciling && db.ops[o].authExpiresAt > now
                              then db.ops[o].(state := RetryReady, clientAction := RetryAuthorized)
                              else db.ops[o])
  {
    hide Deletable;
  }

  /** The batch of an unfinished cleanup: the claim is given up, the scan position kept for the next one, and the
      operation asks for cleanup unless it is failed. */
  lemma UncleanTables(db: Db, a: AttemptId, tok: Token, next: nat)
    requires HoldsToken(db, a, tok)
    ensures var t := UncleanBatch(db, a, tok, next);
            && t.attempts == db.attempts[a := db.attempts[a].(token := None, startedAt := None, scanOffset := next)]
            && t.deliveries == db.deliveries && t.entitlements == db.entitlements && t.ops.Keys == db.ops.Keys
            && (forall o :: o in db.ops ==>
                  t.ops[o] == if o == a.op && db.ops[o].currentIndex == a.index && db.ops[o].state != Failed
                              then db.ops[o].(state := CleanupRequired) else db.ops[o])
  {
  }

  // ---------- deliveries and entitlements ----------

  /** A pending delivery is acknowledged exactly when the triggers and the batch find what they ask for. */
  lemma AcknowledgedExactly(db: Db, d: DeliveryId, e: EntitlementId, recorded: bool)
    requires d in db.deliveries && db.deliveries[d].status == AwaitingAck
    requires e in db.entitlements && db.entitlements[e].credential == Some(db.deliveries[d].credential)
    ensures var a := db.deliveries[d].attempt;
            var t := AckBatch(db, d, e, recorded);
            && d in t.deliveries
            && (t.deliveries[d].status == Acknowledged
                <==> && recorded
                     && a in db.attempts && a.op in db.ops && db.ops[a.op].currentIndex == a.index
                     && db.ops[a.op].state in {Creating, DeliveryPending, Failed}
                     && db.attempts[a].outcome == Created && db.attempts[a].token.None?
                     && db.attempts[a].credential == Some(db.deliveries[d].credential)
                     && db.entitlements[e].phase in {Granted, AwaitingDelivery})
            && (t.deliveries[d].status == Acknowledged ==> t.entitlements[e] == db.entitlements[e].(phase := Granted))
  {
    var a := db.deliveries[d].attempt;
    if a in db.attempts && AckAllowed(db, db.deliveries[d]) {
      assert a in db.attempts.Keys;
      assert EntitlementAllowed(db, db.deliveries[d].credential);
    }
    hide EntitlementAllowed;
  }

  /** An entitlement that carries an attempt's key is granted or offered only while some current attempt with that
      key is created, unclaimed, and its operation creating, pending, active or failed. */
  lemma EntitlementGuard(db: Db, e: EntitlementId, subject: Subject, h: KeyHash, phase: EntitlementPhase, a: AttemptId)
    requires a in db.attempts && db.attempts[a].credential == Some(h) && phase in {AwaitingDelivery, Granted}
    requires forall b :: b in db.attempts && db.attempts[b].credential == Some(h) ==>
               || b.op !in db.ops || db.ops[b.op].currentIndex != b.index
               || db.ops[b.op].state !in {Creating, DeliveryPending, Active, Failed}
               || db.attempts[b].outcome != Created || db.attempts[b].token.Some?
    ensures WriteEntitlement(db, e, subject, h, phase) == db
  {
    assert a in db.attempts.Keys;
  }

  /** Only the subject's own reserved entitlement, without another key, is written by a request. */
  lemma EntitlementWrite(db: Db, e: EntitlementId, subject: Subject, h: KeyHash, phase: EntitlementPhase)
    requires || e !in db.entitlements || db.entitlements[e].subject != subject || db.entitlements[e].phase != Issuing
             || (db.entitlements[e].credential.Some? && db.entitlements[e].credential != Some(h))
    ensures WriteEntitlement(db, e, subject, h, phase) == db
  {
    hide EntitlementAllowed;
  }

  /** Resume expires pending deliveries only; a cleanup claim's repair and the sweep's repair touch their own kind. */
  lemma DeliveryStatusBlocks(db: Db, d: DeliveryId, e: EntitlementId, now: Instant, at: Option<Instant>, recorded: bool)
    requires d in db.deliveries
    ensures db.deliveries[d].status != AwaitingAck ==>
              ExpireDelivery(db, d, now) == db && RepairAck(db, d) == db && AckBatch(db, d, e, recorded) == db
    ensures db.deliveries[d].status != Expired || db.deliveries[d].failure != Some(StaleDeliveryCleanupClaimed) || db.deliveries[d].failedAt != at ==>
              AckCleanupClaim(db, d, at) == db
    ensures db.deliveries[d].status != Acknowledged ==> ActivateOnAck(db, d) == db
    ensures db.deliveries[d].status == AwaitingAck ==>
              ExpireDelivery(db, d, now).deliveries[d]
              == db.deliveries[d].(status := Expired, failedAt := Some(now), failure := Some(ResumeStaleDeliveryExpired))
  {
    hide EntitlementAllowed, AckAllowed;
  }
}
