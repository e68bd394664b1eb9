/** What can never be undone: facts that hold between any state and every later state of the same run. */
module OperationForward {
  import opened Wrappers
  import opened BrokerTypes
  import opened BrokerSql
  import opened OperationProtocol
  import opened OperationInvariant
  import opened OperationPreserved
  import opened OperationSteps
  import opened OperationWorkers

  predicate RowForward(before: Attempt, after: Attempt, nextToken: Token) {
    && (before.outcome == Cleaned ==> after.outcome == Cleaned)
    && (before.credential.Some? ==> after.credential == before.credential)
    && (after.token.Some? ==> after.token == before.token || after.token.value >= nextToken)
  }

  predicate DeliveryForward(before: Delivery, after: Delivery) {
    && after.attempt == before.attempt && after.credential == before.credential
    && (before.status == Acknowledged ==> after.status == Acknowledged)
    && (before.status == Expired ==> after.status == Expired)
  }

  predicate OpForward(before: Operation, after: Operation) {
    && after.subject == before.subject && after.authExpiresAt == before.authExpiresAt
    && before.attemptCount <= after.attemptCount
    && (before.state == Active ==> after.state == Active && after.currentIndex == before.currentIndex)
    && (before.state == Failed ==> after.state in {Failed, Active} && after.currentIndex == before.currentIndex)
  }

  ghost predicate RowsForward(before: Rows, after: Rows, nextToken: Token) {
    && (forall a <- before.Keys :: a in after && RowForward(before[a], after[a], nextToken))
    && (forall a <- after.Keys :: a !in before ==> after[a].token.None? || after[a].token.value >= nextToken)
  }

  ghost predicate DeliveriesForward(before: map<DeliveryId, Delivery>, after: map<DeliveryId, Delivery>) {
    forall d <- before.Keys :: d in after && DeliveryForward(before[d], after[d])
  }

  ghost predicate OpsForward(before: Ops, after: Ops) {
    forall o <- before.Keys :: o in after && OpForward(before[o], after[o])
  }

  ghost predicate DbForward(before: Db, after: Db, nextToken: Token) {
    && RowsForward(before.attempts, after.attempts, nextToken)
    && DeliveriesForward(before.deliveries, after.deliveries)
    && OpsForward(before.ops, after.ops)
  }

  ghost predicate ProvForward(before: Provider, after: Provider) {
    forall h <- before.minted.Keys ::
      h in after.minted && after.minted[h] == before.minted[h] && (h in after.live ==> h in before.live)
  }

  ghost predicate Forward(s: Sys, t: Sys) {
    && DbForward(s.db, t.db, s.nextToken)
    && ProvForward(s.prov, t.prov)
    && s.claimed <= t.claimed
    && s.nextToken <= t.nextToken
  }

  lemma SameForward(db: Db, nextToken: Token)
    ensures DbForward(db, db, nextToken)
  {
  }

  lemma OpSetForward(db: Db, o: OperationId, row: Operation, nextToken: Token)
    requires o in db.ops ==> OpForward(db.ops[o], row)
    ensures DbForward(db, SetOp(db, o, row), nextToken)
  {
  }

  lemma RowSetForward(db: Db, a: AttemptId, t: Attempt, nextToken: Token)
    requires if a in db.attempts then RowForward(db.attempts[a], t, nextToken) else t.token.None?
    ensures DbForward(db, SetAttempt(db, a, t), nextToken)
  {
  }

  lemma DeliverySetForward(db: Db, d: DeliveryId, row: Delivery, nextToken: Token)
    requires d in db.deliveries ==> DeliveryForward(db.deliveries[d], row)
    ensures DbForward(db, SetDelivery(db, d, row), nextToken)
  {
  }

  lemma EntitlementsForward(db: Db, entitlements: map<EntitlementId, Entitlement>, nextToken: Token)
    ensures DbForward(db, db.(entitlements := entitlements), nextToken)
  {
  }

  lemma ExpireAllForward(db: Db, a: AttemptId, from: set<DeliveryStatus>, now: Instant, failure: DeliveryFailure, nextToken: Token)
    requires Acknowledged !in from
    ensures DbForward(db, db.(deliveries := ExpireAll(db, a, from, now, failure)), nextToken)
  {
  }

  lemma ThenForward(a: Db, b: Db, c: Db, nextToken: Token, later: Token)
    requires DbForward(a, b, nextToken) && DbForward(b, c, later) && nextToken <= later
    ensures DbForward(a, c, nextToken)
  {
    forall k <- a.attempts.Keys ensures k in c.attempts && RowForward(a.attempts[k], c.attempts[k], nextToken) {
      assert RowForward(a.attempts[k], b.attempts[k], nextToken);
    }
    forall k <- c.attempts.Keys | k !in a.attempts ensures k in b.attempts ==> c.attempts[k].token.None? || c.attempts[k].token.value >= nextToken {
      assert k in b.attempts ==> RowForward(b.attempts[k], c.attempts[k], later);
    }
  }

  lemma ForwardTransitive(s: Sys, t: Sys, u: Sys)
    requires Forward(s, t) && Forward(t, u)
    ensures Forward(s, u)
  {
    hide RowsForward, DeliveriesForward, OpsForward;
    ThenForward(s.db, t.db, u.db, s.nextToken, t.nextToken);
  }

  // ---------- one step ----------

  lemma TransitionForward(db: Db, o: OperationId, to: OperationState, from: set<OperationState>, guard: Option<nat>, nextToken: Token)
    requires from != {} && Active !in from && Failed !in from
    ensures DbForward(db, Transition(db, o, to, from, guard), nextToken)
  {
    hide DbForward;
    SameForward(db, nextToken);
    if TransitionApplies(db, o, from, guard) {
      OpSetForward(db, o, db.ops[o].(state := to, clientAction := ClientActionForState(to)), nextToken);
    }
  }

  lemma TableForward(s: Sys, t: TableAction)
    requires Inv(s)
    ensures Forward(s, TableStep(s, t))
  {
    hide Inv, DbForward, EntitlementAllowed, AckAllowed, AckBatch, HousekeepingAllowed, Transition, RepairInsert, AckCleanupClaim;
    var db := s.db;
    SameForward(db, s.nextToken);
    match t
    case ACreateOperation(o, subject, now) =>
      if o !in db.ops {
        OpSetForward(db, o, Operation(subject, Authenticated, Wait, 0, 0, now + AUTH_TTL_MS, None), s.nextToken);
      }
    case AIssueReady(o) => TransitionForward(db, o, IssueReady, {Authenticated}, None, s.nextToken);
    case AExpire(o) =>
      if o in db.ops {
        OpSetForward(db, o, db.ops[o].(state := if db.ops[o].state == Active then Active else Failed,
                                       clientAction := ActionRequired, failure := Some(AuthorizationExpired)), s.nextToken);
      }
    case AFail(o, index, reason) =>
      if FailApplies(db, o, index) {
        OpSetForward(db, o, db.ops[o].(state := Failed, clientAction := ActionRequired, failure := Some(reason)), s.nextToken);
      }
    case AStaleCreating(o, index) => TransitionForward(db, o, CreateUnknown, {Creating}, Some(index), s.nextToken);
    case AStaleDelivery(o, index) => TransitionForward(db, o, CreateUnknown, {DeliveryPending}, Some(index), s.nextToken);
    case AExpireDelivery(d, now) =>
      if d in db.deliveries && db.deliveries[d].status == AwaitingAck {
        DeliverySetForward(db, d, db.deliveries[d].(status := Expired, failedAt := Some(now), failure := Some(ResumeStaleDeliveryExpired)), s.nextToken);
      }
    case AAck(d, e, recorded) => AckForward(db, d, e, recorded, s.nextToken);
    case ARepairAck(d) =>
      if d in db.deliveries && db.deliveries[d].status == AwaitingAck {
        DeliverySetForward(db, d, db.deliveries[d].(status := Acknowledged), s.nextToken);
      }
    case AAckCleanupClaim(d, at) => AckCleanupClaimIdle(s, d, at);
    case AActivate(d) =>
      if ActivateApplies(db, d) {
        var o := db.deliveries[d].attempt.op;
        OpSetForward(db, o, db.ops[o].(state := Active, clientAction := Wait, failure := None), s.nextToken);
      }
    case ARepairInsert(a) => RepairInsertIdle(s, a);
    case AHousekeep(e, row) =>
      EntitlementsForward(db, Housekeep(s, e, row).db.entitlements, s.nextToken);
  }

  lemma AckForward(db: Db, d: DeliveryId, e: EntitlementId, recorded: bool, nextToken: Token)
    ensures DbForward(db, AckBatch(db, d, e, recorded), nextToken)
  {
    hide DbForward, EntitlementAllowed, AckAllowed;
    SameForward(db, nextToken);
    if CanAck(db, d, e) || CanGrant(db, d, e) {
      var granted := Grant(db, e);
      EntitlementsForward(db, granted.entitlements, nextToken);
      if recorded && CanAck(db, d, e) {
        DeliverySetForward(granted, d, db.deliveries[d].(status := Acknowledged), nextToken);
        ThenForward(db, granted, AckBatch(db, d, e, recorded), nextToken, nextToken);
      }
    }
  }

  lemma StartForward(s: Sys, p: Pid, o: OperationId, seen: nat, now: Instant)
    requires Inv(s)
    ensures Forward(s, Start(s, p, o, seen, now))
  {
    hide Inv, DbForward, CanStart;
    SameForward(s.db, s.nextToken);
    if CanStart(s.db, o, seen, now) {
      StartedForward(s, o, seen, now);
    } else {
      LostStartIdle(s, o, seen, now);
    }
  }

  lemma StartedForward(s: Sys, o: OperationId, seen: nat, now: Instant)
    requires Inv(s) && CanStart(s.db, o, seen, now)
    ensures DbForward(s.db, StartBatch(s.db, o, seen, now), s.nextToken)
  {
    hide Inv, DbForward, AttemptsSettled, NoOpenDelivery, SubjectSettled, StartBatch;
    assert StartBatch(s.db, o, seen, now) == SetAttempt(SetOp(s.db, o, StartedOp(s.db.ops[o])), AttemptId(o, seen + 1), FreshAttempt)
      by { StartedBatch(s, o, seen, now); }
    OpSetForward(s.db, o, StartedOp(s.db.ops[o]), s.nextToken);
    var db1 := SetOp(s.db, o, StartedOp(s.db.ops[o]));
    assert AttemptId(o, seen + 1) !in s.db.attempts by { StartedBatch(s, o, seen, now); }
    RowSetForward(db1, AttemptId(o, seen + 1), FreshAttempt, s.nextToken);
    ThenForward(s.db, db1, SetAttempt(db1, AttemptId(o, seen + 1), FreshAttempt), s.nextToken, s.nextToken);
  }

  lemma StartedBatch(s: Sys, o: OperationId, seen: nat, now: Instant)
    requires Inv(s) && CanStart(s.db, o, seen, now)
    ensures AttemptId(o, seen + 1) !in s.db.attempts
    ensures StartBatch(s.db, o, seen, now) == SetAttempt(SetOp(s.db, o, StartedOp(s.db.ops[o])), AttemptId(o, seen + 1), FreshAttempt)
  {
    hide TablesOk, Procs, ProcsApart, StartBatch;
    StartTables(s.db, s.prov, s.claimed, s.nextToken, o, now);
  }

  lemma RecordForward(db: Db, a: AttemptId, h: KeyHash, nextToken: Token)
    ensures DbForward(db, RecordCredential(db, a, h), nextToken)
  {
    hide DbForward;
    SameForward(db, nextToken);
    if CanRecord(db, a, h) {
      RowSetForward(db, a, db.attempts[a].(credential := Some(h), outcome := Created), nextToken);
    }
  }

  lemma RequestForward(s: Sys, p: Pid, r: RequestAction)
    requires Inv(s)
    ensures Forward(s, RequestStep(s, p, r))
  {
    hide Inv, DbForward, Start, RecordCredential, WriteBackAnswer, Transition, InsertDelivery;
    var db := s.db;
    SameForward(db, s.nextToken);
    match r
    case AStart(o, seen, now) => StartForward(s, p, o, seen, now);
    case AWriteBack(returned) => WriteBackForward(s, p, returned);
    case AReadCredential(_) =>
    case AAdopt =>
      if p in s.procs && s.procs[p].Adopting? {
        RecordForward(db, s.procs[p].a, s.procs[p].key, s.nextToken);
      }
    case ASendCreate =>
      if p in s.procs && s.procs[p].Fresh? && CanClaimCreate(db, s.procs[p].a) {
        RowSetForward(db, s.procs[p].a, db.attempts[s.procs[p].a].(inFlight := true), s.nextToken);
      }
    case AReceive(_) =>
    case AReject =>
    case AGiveUp =>
    case ARecord =>
      if p in s.procs && (s.procs[p].Holding? || (s.procs[p].Unwinding? && s.procs[p].known.Some?)) {
        RecordForward(db, s.procs[p].a, if s.procs[p].Holding? then s.procs[p].key else s.procs[p].known.value, s.nextToken);
      }
    case AWriteEntitlement(e, phase) =>
      EntitlementsForward(db, OwnerWritesEntitlement(s, p, e, phase).db.entitlements, s.nextToken);
    case ADeliver(d, expiresAt) =>
      if p in s.procs && s.procs[p].Recorded? && d !in db.deliveries {
        InsertForward(db, d, s.procs[p].a, s.procs[p].key, expiresAt, s.nextToken);
      }
    case ASettle =>
      if p in s.procs && (s.procs[p].Recorded? || s.procs[p].Delivered?) {
        var pc := s.procs[p];
        TransitionForward(db, pc.a.op, if pc.Delivered? then DeliveryPending else Active, {Creating}, Some(pc.a.index), s.nextToken);
      }
    case AMarkUnknown =>
      if p in s.procs && s.procs[p].Unwinding? && CanMarkUnknown(db, s.procs[p].a) {
        RowSetForward(db, s.procs[p].a, db.attempts[s.procs[p].a].(outcome := Unknown), s.nextToken);
      }
    case ARelease =>
      if p in s.procs && (s.procs[p].Fresh? || s.procs[p].Unwinding?) && CanRelease(db, s.procs[p].a) {
        RowSetForward(db, s.procs[p].a, db.attempts[s.procs[p].a].(outcome := Cleaned), s.nextToken);
      }
    case AReleaseOperation =>
      if p in s.procs && s.procs[p].Releasing? {
        var a := s.procs[p].a;
        TransitionForward(db, a.op, RetryReady, {Creating, CreateUnknown}, Some(a.index), s.nextToken);
      }
  }

  lemma InsertForward(db: Db, d: DeliveryId, a: AttemptId, h: KeyHash, expiresAt: Instant, nextToken: Token)
    ensures DbForward(db, InsertDelivery(db, d, a, h, expiresAt), nextToken)
  {
    hide DbForward;
    SameForward(db, nextToken);
    if d !in db.deliveries {
      DeliverySetForward(db, d, Delivery(a, h, AwaitingAck, expiresAt, None, None), nextToken);
    }
  }

  lemma WriteBackForward(s: Sys, p: Pid, returned: bool)
    requires Inv(s)
    ensures Forward(s, WriteBackAnswer(s, p, returned))
  {
    hide Inv, DbForward;
    SameForward(s.db, s.nextToken);
    if p in s.procs && (s.procs[p].Answered? || s.procs[p].Rejected?) {
      var a := s.procs[p].a;
      PcFacts(s, p);
      RowFacts(s, a);
      var t := s.db.attempts[a];
      if t.inFlight {
        var key := if s.procs[p].Answered? then Some(s.procs[p].key) else None;
        RowSetForward(s.db, a, t.(inFlight := false, credential := if key.Some? then key else t.credential,
                                  outcome := if key.Some? then Created else t.outcome), s.nextToken);
      }
    }
  }

  lemma ProviderForward(s: Sys, e: ProviderEvent)
    requires Inv(s)
    ensures Forward(s, ProviderStep(s, e))
  {
    hide Inv, DbForward;
    SameForward(s.db, s.nextToken);
    if s.prov.nextHash in s.prov.minted {
      KeyFacts(s, s.prov.nextHash);
    }
  }

  lemma ClaimForward(s: Sys, p: Pid, a: AttemptId, now: Instant, cron: bool)
    requires Inv(s)
    ensures Forward(s, Claim(s, p, a, now, cron))
  {
    hide Inv, DbForward, CanClaim, ClaimBatch;
    SameForward(s.db, s.nextToken);
    ClaimBatchWhole(s, a, now, cron);
    if CanClaim(s.db, a, now, cron) {
      ClaimIsCleanable(s.db, a, now, cron);
      ClaimedForward(s.db, a, s.nextToken, now);
    }
  }

  lemma ClaimIsCleanable(db: Db, a: AttemptId, now: Instant, cron: bool)
    requires CanClaim(db, a, now, cron)
    ensures a.op in db.ops && db.ops[a.op].state in Cleanable
  {
  }

  lemma ClaimedForward(db: Db, a: AttemptId, tok: Token, now: Instant)
    requires a in db.attempts && a.op in db.ops && db.ops[a.op].state != Active
    ensures DbForward(db, ClaimedDb(db, a, tok, now), tok)
  {
  }

  lemma UncleanForward(s: Sys, a: AttemptId, tok: Token, offset: nat)
    requires Inv(s)
    ensures DbForward(s.db, UncleanBatch(s.db, a, tok, offset), s.nextToken)
  {
    hide Inv, DbForward;
    SameForward(s.db, s.nextToken);
    if HoldsToken(s.db, a, tok) {
      RowFacts(s, a);
      var row := s.db.ops[a.op].(state := if s.db.ops[a.op].state == Failed then Failed else CleanupRequired);
      var db1 := SetOp(s.db, a.op, row);
      OpSetForward(s.db, a.op, row, s.nextToken);
      RowSetForward(db1, a, s.db.attempts[a].(token := None, startedAt := None, scanOffset := offset), s.nextToken);
      ThenForward(s.db, db1, UncleanBatch(s.db, a, tok, offset), s.nextToken, s.nextToken);
    }
  }

  lemma CleanForward(db: Db, a: AttemptId, tok: Token, subject: Subject, credential: Option<KeyHash>, now: Instant, nextToken: Token)
    ensures DbForward(db, CleanBatch(db, a, tok, subject, credential, now), nextToken)
  {
    hide DbForward, Deletable;
    SameForward(db, nextToken);
    if HoldsToken(db, a, tok) {
      var db1 := CleanEntitlements(db, a, tok, subject, credential);
      var db2 := CleanDeliveries(db1, a, tok, now);
      var db3 := CleanOperation(db2, a, tok, now);
      EntitlementsForward(db, db1.entitlements, nextToken);
      ExpireAllForward(db1, a, {AwaitingAck, Expired, NeedsCleanup}, now, AckExpiredChildKeyCleaned, nextToken);
      ThenForward(db, db1, db2, nextToken, nextToken);
      SameForward(db2, nextToken);
      if StateIn(db2, a.op, {Reconciling}) {
        OpSetForward(db2, a.op, db2.ops[a.op].(state := RetryReady, clientAction := RetryAuthorized), nextToken);
      }
      ThenForward(db, db2, db3, nextToken, nextToken);
      RowSetForward(db3, a, db3.attempts[a].(outcome := Cleaned, token := None, startedAt := None, scanOffset := 0), nextToken);
      ThenForward(db, db3, CleanAttempt(db3, a, tok), nextToken, nextToken);
    }
  }

  lemma PinForward(s: Sys, p: Pid)
    requires Inv(s)
    ensures Forward(s, Pin(s, p))
  {
    hide Inv, DbForward;
    SameForward(s.db, s.nextToken);
    if p in s.procs && s.procs[p].Pinning? && HoldsToken(s.db, s.procs[p].a, s.procs[p].token) {
      PcFacts(s, p);
      var a := s.procs[p].a;
      RowSetForward(s.db, a, s.db.attempts[a].(credential := Some(s.procs[p].key), inFlight := false), s.nextToken);
    }
  }

  lemma WorkerForward(s: Sys, p: Pid, w: WorkerAction)
    requires Inv(s)
    ensures Forward(s, WorkerStep(s, p, w))
  {
    hide Inv, DbForward, Claim, Pin, CleanBatch, UncleanBatch;
    SameForward(s.db, s.nextToken);
    match w
    case AClaim(a, now, cron) => ClaimForward(s, p, a, now, cron);
    case AReadTarget =>
    case ALocate(_) =>
    case AScanMiss(_, _) =>
    case APin => PinForward(s, p);
    case ADelete(_, _) =>
    case AVerify(_) =>
    case AFinish(now) =>
      if p in s.procs && s.procs[p].Verdict? && s.procs[p].a.op in s.db.ops {
        var pc := s.procs[p];
        CleanForward(s.db, pc.a, pc.token, s.db.ops[pc.a.op].subject, pc.credential, now, s.nextToken);
        UncleanForward(s, pc.a, pc.token, pc.offset);
      }
  }

  lemma StepForward(s: Sys, act: Action)
    requires Inv(s)
    ensures Forward(s, Step(s, act))
  {
    hide Inv, Forward, TableStep, RequestStep, ProviderStep, WorkerStep;
    match act
    case OnTables(t) => TableForward(s, t);
    case ByRequest(p, r) => RequestForward(s, p, r);
    case AtProvider(e) => ProviderForward(s, e);
    case ByWorker(p, w) => WorkerForward(s, p, w);
  }

  lemma {:induction false} RunForward(s: Sys, acts: seq<Action>)
    requires Inv(s)
    ensures Forward(s, Run(s, acts))
    decreases |acts|
  {
    hide Inv, Forward, Step;
    if acts == [] {
      assert Forward(s, s) by { ForwardReflexive(s); }
    } else {
      StepKeeps(s, acts[0]);
      StepForward(s, acts[0]);
      RunForward(Step(s, acts[0]), acts[1..]);
      ForwardTransitive(s, Step(s, acts[0]), Run(Step(s, acts[0]), acts[1..]));
    }
  }

  lemma ForwardReflexive(s: Sys)
    ensures Forward(s, s)
  {
    SameForward(s.db, s.nextToken);
  }
}
