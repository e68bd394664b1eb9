/** Each SQL statement, or atomic batch, of the managed-key flow as a function on the tables.
    A statement whose WHERE clause matches nothing leaves the tables as they are. */
module BrokerSql {
  import opened Wrappers
  import opened BrokerTypes

  const AUTH_TTL_MS := 60 * 60_000
  const CLAIM_TTL_MS := 16 * 60_000
  const CLEANUP_RETRY_MS := 6 * 60 * 60_000

  function ClientActionForState(state: OperationState): ClientAction {
    match state
    case RetryReady => RetryAuthorized
    case DeliveryPending => AcknowledgeDelivery
    case Failed => ActionRequired
    case _ => Wait
  }

  predicate HoldsToken(db: Db, a: AttemptId, tok: Token) {
    a in db.attempts && db.attempts[a].token == Some(tok)
  }

  /** NOT EXISTS an attempt row with this key and a cleanup token. */
  predicate TokenFree(db: Db, a: AttemptId) {
    a in db.attempts ==> db.attempts[a].token.None?
  }

  predicate IsCurrent(db: Db, a: AttemptId) {
    a.op in db.ops && db.ops[a.op].currentIndex == a.index
  }

  predicate StateIn(db: Db, o: OperationId, states: set<OperationState>) {
    o in db.ops && db.ops[o].state in states
  }

  /** The negation of what blocks a new attempt: cleaned, unclaimed and with no create in flight. */
  predicate Settled(t: Attempt) {
    t.outcome == Cleaned && t.token.None? && !t.inFlight
  }

  function SetOp(db: Db, o: OperationId, row: Operation): Db {
    db.(ops := db.ops[o := row])
  }

  function SetAttempt(db: Db, a: AttemptId, row: Attempt): Db {
    db.(attempts := db.attempts[a := row])
  }

  function SetDelivery(db: Db, d: DeliveryId, row: Delivery): Db {
    db.(deliveries := db.deliveries[d := row])
  }

  // ---------- managed_operations ----------

  function CreateOperation(db: Db, o: OperationId, subject: Subject, now: Instant): Db {
    if o in db.ops then db
    else SetOp(db, o, Operation(subject, Authenticated, Wait, 0, 0, now + AUTH_TTL_MS, None))
  }

  predicate TransitionApplies(db: Db, o: OperationId, from: set<OperationState>, guard: Option<nat>) {
    && o in db.ops
    && (from == {} || db.ops[o].state in from)
    && (guard.None? || (db.ops[o].currentIndex == guard.value && TokenFree(db, AttemptId(o, guard.value))))
  }

  function Transition(db: Db, o: OperationId, to: OperationState, from: set<OperationState>, guard: Option<nat>): Db {
    if TransitionApplies(db, o, from, guard)
    then SetOp(db, o, db.ops[o].(state := to, clientAction := ClientActionForState(to)))
    else db
  }

  function ExpireOperation(db: Db, o: OperationId): Db {
    if o in db.ops && db.ops[o].state != Active && db.ops[o].state != Failed
    then SetOp(db, o, db.ops[o].(state := Failed, clientAction := ActionRequired, failure := Some(AuthorizationExpired)))
    else db
  }

  predicate FailApplies(db: Db, o: OperationId, index: nat) {
    && o in db.ops
    && db.ops[o].currentIndex == index
    && db.ops[o].state != Active && db.ops[o].state != Failed
    && TokenFree(db, AttemptId(o, index))
  }

  function FailOperation(db: Db, o: OperationId, index: nat, reason: FailureReason): Db {
    if FailApplies(db, o, index)
    then SetOp(db, o, db.ops[o].(state := Failed, clientAction := ActionRequired, failure := Some(reason)))
    else db
  }

  predicate ActivateApplies(db: Db, d: DeliveryId) {
    && d in db.deliveries
    && db.deliveries[d].status == Acknowledged
    && var a := db.deliveries[d].attempt;
    && StateIn(db, a.op, {DeliveryPending, Failed})
    && IsCurrent(db, a)
    && TokenFree(db, a)
  }

  function ActivateOnAck(db: Db, d: DeliveryId): Db {
    if ActivateApplies(db, d)
    then
      var o := db.deliveries[d].attempt.op;
      SetOp(db, o, db.ops[o].(state := Active, clientAction := Wait, failure := None))
    else db
  }

  // ---------- starting an attempt ----------

  predicate AttemptsSettled(db: Db, o: OperationId) {
    forall a <- db.attempts.Keys :: a.op == o ==> Settled(db.attempts[a])
  }

  predicate NoOpenDelivery(db: Db, o: OperationId) {
    forall d <- db.deliveries.Keys :: db.deliveries[d].attempt.op == o ==> db.deliveries[d].status == Expired
  }

  predicate SubjectSettled(db: Db, o: OperationId)
    requires o in db.ops
  {
    forall a <- db.attempts.Keys ::
      a.op != o && a.op in db.ops && db.ops[a.op].subject == db.ops[o].subject ==> Settled(db.attempts[a])
  }

  predicate CanStart(db: Db, o: OperationId, seen: nat, now: Instant) {
    && StateIn(db, o, {Authenticated, IssueReady, RetryReady})
    && db.ops[o].attemptCount == seen
    && db.ops[o].authExpiresAt > now
    && AttemptsSettled(db, o)
    && NoOpenDelivery(db, o)
    && SubjectSettled(db, o)
  }

  const FreshAttempt := Attempt(None, Unknown, None, None, None, false, 0)

  /** The second statement of the start batch, which runs whether or not the first one changed a row. */
  function InsertStartedAttempt(db: Db, o: OperationId, index: nat): Db {
    if StateIn(db, o, {Creating}) && db.ops[o].attemptCount == index && db.ops[o].currentIndex == index
       && AttemptId(o, index) !in db.attempts
    then SetAttempt(db, AttemptId(o, index), FreshAttempt)
    else db
  }

  function StartBatch(db: Db, o: OperationId, seen: nat, now: Instant): Db {
    var claimed :=
      if CanStart(db, o, seen, now)
      then SetOp(db, o, db.ops[o].(state := Creating, clientAction := Wait, attemptCount := seen + 1, currentIndex := seen + 1))
      else db;
    InsertStartedAttempt(claimed, o, seen + 1)
  }

  // ---------- managed_operation_attempts, written by the request that started the attempt ----------

  predicate CanClaimCreate(db: Db, a: AttemptId) {
    && a in db.attempts
    && var t := db.attempts[a];
    && !t.inFlight && t.outcome == Unknown && t.credential.None? && t.token.None?
    && IsCurrent(db, a) && StateIn(db, a.op, {Creating})
  }

  function ClaimCreate(db: Db, a: AttemptId): Db {
    if CanClaimCreate(db, a) then SetAttempt(db, a, db.attempts[a].(inFlight := true)) else db
  }

  function WriteBack(db: Db, a: AttemptId, key: Option<KeyHash>): Db {
    if a in db.attempts && db.attempts[a].inFlight
    then
      var t := db.attempts[a];
      SetAttempt(db, a, t.(inFlight := false,
                           credential := if key.Some? then key else t.credential,
                           outcome := if key.Some? then Created else t.outcome))
    else db
  }

  const Recordable := {Creating, CreateUnknown, CleanupRequired, Failed}

  predicate CanRecord(db: Db, a: AttemptId, h: KeyHash) {
    && a in db.attempts
    && var t := db.attempts[a];
    && t.outcome != Cleaned && t.token.None?
    && (t.credential.None? || t.credential == Some(h))
    && IsCurrent(db, a) && StateIn(db, a.op, Recordable)
  }

  function RecordCredential(db: Db, a: AttemptId, h: KeyHash): Db {
    if CanRecord(db, a, h) then SetAttempt(db, a, db.attempts[a].(credential := Some(h), outcome := Created)) else db
  }

  predicate CanMarkUnknown(db: Db, a: AttemptId) {
    && a in db.attempts
    && db.attempts[a].outcome != Cleaned && db.attempts[a].token.None?
    && IsCurrent(db, a) && StateIn(db, a.op, Recordable)
  }

  function MarkUnknown(db: Db, a: AttemptId): Db {
    if CanMarkUnknown(db, a) then SetAttempt(db, a, db.attempts[a].(outcome := Unknown)) else db
  }

  predicate CanRelease(db: Db, a: AttemptId) {
    && a in db.attempts
    && var t := db.attempts[a];
    && t.outcome == Unknown && t.credential.None? && t.token.None? && !t.inFlight
    && IsCurrent(db, a) && StateIn(db, a.op, {Creating, CreateUnknown})
    && (forall d <- db.deliveries.Keys :: db.deliveries[d].attempt != a)
  }

  function ReleaseUnstarted(db: Db, a: AttemptId): Db {
    if CanRelease(db, a) then SetAttempt(db, a, db.attempts[a].(outcome := Cleaned)) else db
  }

  // ---------- managed_key_deliveries and entitlements ----------

  predicate CanDeliver(db: Db, a: AttemptId, h: KeyHash) {
    && a in db.attempts
    && IsCurrent(db, a) && StateIn(db, a.op, {Creating})
    && db.attempts[a].token.None? && db.attempts[a].outcome == Created && db.attempts[a].credential == Some(h)
  }

  function InsertDelivery(db: Db, d: DeliveryId, a: AttemptId, h: KeyHash, expiresAt: Instant): Db {
    if d !in db.deliveries && CanDeliver(db, a, h)
    then SetDelivery(db, d, Delivery(a, h, AwaitingAck, expiresAt, None, None))
    else db
  }

  /** Trigger managed_delivery_ack_cleanup_guard: every move to 'acknowledged' of a bound delivery must pass it. */
  predicate AckAllowed(db: Db, row: Delivery) {
    && IsCurrent(db, row.attempt) && StateIn(db, row.attempt.op, {Creating, DeliveryPending, Failed})
    && row.attempt in db.attempts
    && var t := db.attempts[row.attempt];
    && t.outcome == Created && t.token.None? && t.credential == Some(row.credential)
  }

  /** Triggers managed_discord_entitlement_cleanup_guard and managed_qq_entitlement_cleanup_guard. */
  predicate EntitlementAllowed(db: Db, h: KeyHash) {
    || (forall a <- db.attempts.Keys :: db.attempts[a].credential != Some(h))
    || (exists a <- db.attempts.Keys ::
          && db.attempts[a].credential == Some(h)
          && IsCurrent(db, a) && StateIn(db, a.op, {Creating, DeliveryPending, Active, Failed})
          && db.attempts[a].outcome == Created && db.attempts[a].token.None?)
  }

  predicate CanAck(db: Db, d: DeliveryId, e: EntitlementId) {
    && d in db.deliveries && db.deliveries[d].status == AwaitingAck
    && e in db.entitlements && db.entitlements[e].credential == Some(db.deliveries[d].credential)
    && (|| db.entitlements[e].phase == Granted
        || (db.entitlements[e].phase == AwaitingDelivery && EntitlementAllowed(db, db.deliveries[d].credential)))
    && AckAllowed(db, db.deliveries[d])
  }

  predicate CanGrant(db: Db, d: DeliveryId, e: EntitlementId) {
    && d in db.deliveries && db.deliveries[d].status == AwaitingAck
    && e in db.entitlements && db.entitlements[e].credential == Some(db.deliveries[d].credential)
    && db.entitlements[e].phase == AwaitingDelivery
    && EntitlementAllowed(db, db.deliveries[d].credential)
  }

  function Grant(db: Db, e: EntitlementId): Db
    requires e in db.entitlements
  {
    db.(entitlements := db.entitlements[e := db.entitlements[e].(phase := Granted)])
  }

  /** The acknowledgement batch. `recorded` says that the rows of other tables which its delivery update also
      asks for are there; without them the entitlement may be granted and the delivery left pending. A trigger
      that aborts undoes everything. */
  function AckBatch(db: Db, d: DeliveryId, e: EntitlementId, recorded: bool): Db {
    if recorded then
      if CanAck(db, d, e) then SetDelivery(Grant(db, e), d, db.deliveries[d].(status := Acknowledged)) else db
    else if CanGrant(db, d, e) then Grant(db, e)
    else db
  }

  predicate Finalized(db: Db, h: KeyHash) {
    exists e <- db.entitlements.Keys :: db.entitlements[e].credential == Some(h) && db.entitlements[e].phase == Granted
  }

  /** The sweep's repair of a pending delivery. The sweep has read before that the entitlement is granted, which
      may no longer be so; the update itself looks at the delivery alone. */
  function RepairAck(db: Db, d: DeliveryId): Db {
    if d in db.deliveries && db.deliveries[d].status == AwaitingAck && AckAllowed(db, db.deliveries[d])
    then SetDelivery(db, d, db.deliveries[d].(status := Acknowledged))
    else db
  }

  /** The sweep's repair of an expired delivery that carries the stale-delivery claim reason. */
  function AckCleanupClaim(db: Db, d: DeliveryId, claimedAt: Option<Instant>): Db {
    if d in db.deliveries && db.deliveries[d].status == Expired
       && db.deliveries[d].failure == Some(StaleDeliveryCleanupClaimed) && db.deliveries[d].failedAt == claimedAt
       && AckAllowed(db, db.deliveries[d])
    then SetDelivery(db, d, db.deliveries[d].(status := Acknowledged, failedAt := None, failure := None))
    else db
  }

  function ExpireDelivery(db: Db, d: DeliveryId, now: Instant): Db {
    if d in db.deliveries && db.deliveries[d].status == AwaitingAck
    then SetDelivery(db, d, db.deliveries[d].(status := Expired, failedAt := Some(now), failure := Some(ResumeStaleDeliveryExpired)))
    else db
  }

  predicate CanWriteEntitlement(db: Db, e: EntitlementId, subject: Subject, h: KeyHash, phase: EntitlementPhase) {
    && e in db.entitlements
    && var row := db.entitlements[e];
    && row.subject == subject && row.phase == Issuing
    && (row.credential.None? || row.credential == Some(h))
    && phase in {Issuing, AwaitingDelivery, Granted}
    && (phase != Issuing ==> EntitlementAllowed(db, h))
  }

  /** Attaches a new key to the reserved entitlement, or moves it to delivery-pending or active. */
  function WriteEntitlement(db: Db, e: EntitlementId, subject: Subject, h: KeyHash, phase: EntitlementPhase): Db {
    if CanWriteEntitlement(db, e, subject, h, phase)
    then db.(entitlements := db.entitlements[e := Entitlement(subject, Some(h), phase)])
    else db
  }

  // ---------- reconcileUnknownAttempt ----------

  const Cleanable := {CreateUnknown, Reconciling, CleanupRequired, Clean, DeliveryPending, Failed}

  /** The repair insert: it adds a row only when the current attempt has none. */
  function RepairInsert(db: Db, a: AttemptId): Db {
    if a.index > 0 && IsCurrent(db, a) && StateIn(db, a.op, Cleanable) && a !in db.attempts
    then SetAttempt(db, a, FreshAttempt.(inFlight := true))
    else db
  }

  predicate CanClaim(db: Db, a: AttemptId, now: Instant, cron: bool) {
    && a in db.attempts
    && var t := db.attempts[a];
    && t.outcome != Cleaned
    && (|| (t.token.Some? && t.startedAt.Some? && t.startedAt.value <= now - CLAIM_TTL_MS)
        || (t.token.None? && (!cron || t.checkedAt.None? || t.checkedAt.value <= now - CLEANUP_RETRY_MS)))
    && IsCurrent(db, a) && StateIn(db, a.op, Cleanable)
    && (forall d <- db.deliveries.Keys :: db.deliveries[d].attempt == a ==>
          && db.deliveries[d].status != Acknowledged
          && !(db.deliveries[d].status == AwaitingAck && db.deliveries[d].expiresAt >= now))
    && (t.credential.Some? ==> !Finalized(db, t.credential.value))
  }

  function ExpireAll(db: Db, a: AttemptId, from: set<DeliveryStatus>, now: Instant, failure: DeliveryFailure): map<DeliveryId, Delivery> {
    map d | d in db.deliveries ::
      if db.deliveries[d].attempt == a && db.deliveries[d].status in from
      then db.deliveries[d].(status := Expired, failedAt := Some(now), failure := Some(failure))
      else db.deliveries[d]
  }

  function ClaimAttempt(db: Db, a: AttemptId, tok: Token, now: Instant, cron: bool): Db {
    if CanClaim(db, a, now, cron)
    then SetAttempt(db, a, db.attempts[a].(token := Some(tok), startedAt := Some(now), checkedAt := Some(now)))
    else db
  }

  function ClaimDeliveries(db: Db, a: AttemptId, tok: Token, now: Instant): Db {
    if HoldsToken(db, a, tok)
    then db.(deliveries := ExpireAll(db, a, {AwaitingAck, NeedsCleanup, Expired}, now, OperationCleanupClaimed))
    else db
  }

  function ClaimOperation(db: Db, a: AttemptId, tok: Token): Db {
    if HoldsToken(db, a, tok) && IsCurrent(db, a)
    then
      var row := db.ops[a.op];
      SetOp(db, a.op, row.(state := if row.state == Failed then Failed else Reconciling,
                           clientAction := if row.state == Failed then ActionRequired else Wait))
    else db
  }

  function ClaimBatch(db: Db, a: AttemptId, tok: Token, now: Instant, cron: bool): Db {
    ClaimOperation(ClaimDeliveries(ClaimAttempt(db, a, tok, now, cron), a, tok, now), a, tok)
  }

  function PinCredential(db: Db, a: AttemptId, tok: Token, h: KeyHash): Db {
    if HoldsToken(db, a, tok)
    then SetAttempt(db, a, db.attempts[a].(credential := Some(h), inFlight := false))
    else db
  }

  /** The rows of openrouter_entitlements or qq_managed_entitlements that a verified cleanup deletes. */
  predicate Deletable(row: Entitlement, subject: Subject, credential: Option<KeyHash>) {
    match row.subject.source
    case Discord =>
      credential.Some? && row.credential == credential && row.phase in {Issuing, AwaitingDelivery, NeedsRepair}
    case Qq =>
      row.subject == subject && row.phase in {Issuing, AwaitingDelivery, NeedsRepair}
      && (|| (credential.Some? && row.credential == credential)
          || (row.credential.None? && row.phase in {Issuing, NeedsRepair}))
  }

  function CleanEntitlements(db: Db, a: AttemptId, tok: Token, subject: Subject, credential: Option<KeyHash>): Db {
    if HoldsToken(db, a, tok)
    then db.(entitlements := map e | e in db.entitlements && !Deletable(db.entitlements[e], subject, credential) :: db.entitlements[e])
    else db
  }

  function CleanDeliveries(db: Db, a: AttemptId, tok: Token, now: Instant): Db {
    if HoldsToken(db, a, tok)
    then db.(deliveries := ExpireAll(db, a, {AwaitingAck, Expired, NeedsCleanup}, now, AckExpiredChildKeyCleaned))
    else db
  }

  function CleanOperation(db: Db, a: AttemptId, tok: Token, now: Instant): Db {
    if HoldsToken(db, a, tok) && IsCurrent(db, a) && StateIn(db, a.op, {Reconciling}) && db.ops[a.op].authExpiresAt > now
    then SetOp(db, a.op, db.ops[a.op].(state := RetryReady, clientAction := RetryAuthorized))
    else db
  }

  function CleanAttempt(db: Db, a: AttemptId, tok: Token): Db {
    if HoldsToken(db, a, tok)
    then SetAttempt(db, a, db.attempts[a].(outcome := Cleaned, token := None, startedAt := None, scanOffset := 0))
    else db
  }

  function CleanBatch(db: Db, a: AttemptId, tok: Token, subject: Subject, credential: Option<KeyHash>, now: Instant): Db {
    var entitled := CleanEntitlements(db, a, tok, subject, credential);
    CleanAttempt(CleanOperation(CleanDeliveries(entitled, a, tok, now), a, tok, now), a, tok)
  }

  function UncleanOperation(db: Db, a: AttemptId, tok: Token): Db {
    if HoldsToken(db, a, tok) && IsCurrent(db, a)
    then
      var row := db.ops[a.op];
      SetOp(db, a.op, row.(state := if row.state == Failed then Failed else CleanupRequired))
    else db
  }

  function UncleanAttempt(db: Db, a: AttemptId, tok: Token, nextOffset: nat): Db {
    if HoldsToken(db, a, tok)
    then SetAttempt(db, a, db.attempts[a].(token := None, startedAt := None, scanOffset := nextOffset))
    else db
  }

  function UncleanBatch(db: Db, a: AttemptId, tok: Token, nextOffset: nat): Db {
    UncleanAttempt(UncleanOperation(db, a, tok), a, tok, nextOffset)
  }
}
