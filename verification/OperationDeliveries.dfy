/** The life of one delivery and one entitlement row in every run, and where new rows come from. */
module OperationDeliveries {
  import opened Wrappers
  import opened BrokerTypes
  import opened BrokerSql
  import opened OperationGuards
  import opened OperationProtocol
  import opened OperationInvariant
  import opened OperationPreserved
  import opened OperationSteps
  import opened OperationWorkers
  import opened OperationForward
  import opened OperationSafety
  import opened OperationCharts
  import opened OperationRows

  // ---------- deliveries ----------

  /** The key of a delivery is recorded on an attempt that is created, and its operation can still become active. */
  predicate Ackable(s: Sys, row: Delivery) {
    && row.status == AwaitingAck
    && row.attempt in s.db.attempts && s.db.attempts[row.attempt].outcome == Created
    && row.attempt.op in s.db.ops && s.db.ops[row.attempt.op].state in {Creating, DeliveryPending, Failed}
  }

  function Expire(row: Delivery, now: Instant, failure: DeliveryFailure): Delivery {
    row.(status := Expired, failedAt := Some(now), failure := Some(failure))
  }

  function NextDelivery(s: Sys, act: Action, d: DeliveryId): Delivery
    requires d in s.db.deliveries
  {
    var row := s.db.deliveries[d];
    if Wins(s, act, row.attempt) then Expire(row, act.w.now, OperationCleanupClaimed)
    else if Ends(s, act, row.attempt) && s.procs[act.p].clean then Expire(row, act.w.now, AckExpiredChildKeyCleaned)
    else match act
      case OnTables(AExpireDelivery(q, now)) =>
        if q == d && row.status == AwaitingAck then Expire(row, now, ResumeStaleDeliveryExpired) else row
      case OnTables(ARepairAck(q)) => if q == d && Ackable(s, row) then row.(status := Acknowledged) else row
      case OnTables(AAck(q, e, recorded)) =>
        if && q == d && Ackable(s, row) && recorded && e in s.db.entitlements
           && s.db.entitlements[e].credential == Some(row.credential) && s.db.entitlements[e].phase in {AwaitingDelivery, Granted}
        then row.(status := Acknowledged) else row
      case _ => row
  }

  /** Main result: in every run, what the next step makes of a delivery. */
  lemma DeliveryChart(acts: seq<Action>, act: Action, d: DeliveryId)
    requires d in Run(Init, acts).db.deliveries
    ensures var t := Run(Init, acts + [act]);
            d in t.db.deliveries && t.db.deliveries[d] == NextDelivery(Run(Init, acts), act, d)
  {
    hide Inv, Run, Step, NextDelivery;
    NextState(acts, act);
    DeliveryNext(Run(Init, acts), act, d);
  }

  lemma DeliveryNext(s: Sys, act: Action, d: DeliveryId)
    requires Inv(s) && d in s.db.deliveries
    ensures d in Step(s, act).db.deliveries && Step(s, act).db.deliveries[d] == NextDelivery(s, act, d)
  {
    hide Inv, TableStep, RequestStep, WorkerStep, NextDelivery;
    match act
    case OnTables(t) => DeliveryByTables(s, t, d);
    case ByRequest(p, r) => DeliveryByRequest(s, p, r, d);
    case AtProvider(e) => assert NextDelivery(s, act, d) == s.db.deliveries[d] by { NextOfIdle(s, e, d); }
    case ByWorker(p, w) => DeliveryByWorker(s, p, w, d);
  }

  lemma NextOfIdle(s: Sys, e: ProviderEvent, d: DeliveryId)
    requires d in s.db.deliveries
    ensures NextDelivery(s, AtProvider(e), d) == s.db.deliveries[d]
  {
  }

  /** In a reachable state a pending delivery passes the trigger exactly if it is ackable. */
  lemma AckableIsAllowed(s: Sys, d: DeliveryId)
    requires Inv(s) && d in s.db.deliveries && s.db.deliveries[d].status == AwaitingAck
    ensures AckAllowed(s.db, s.db.deliveries[d]) <==> Ackable(s, s.db.deliveries[d])
    ensures Ackable(s, s.db.deliveries[d]) ==> EntitlementAllowed(s.db, s.db.deliveries[d].credential)
  {
    hide Inv;
    var a := s.db.deliveries[d].attempt;
    DeliveryFacts(s, d);
    RowFacts(s, a);
    OpenIsCurrent(s, a);
  }

  lemma DeliveryByTables(s: Sys, t: TableAction, d: DeliveryId)
    requires Inv(s) && d in s.db.deliveries
    ensures d in TableStep(s, t).db.deliveries && TableStep(s, t).db.deliveries[d] == NextDelivery(s, OnTables(t), d)
  {
    hide Inv, TableStep, NextDelivery;
    if t.AAck? || t.ARepairAck? {
      DeliveryByAck(s, t, d);
    } else {
      DeliveryByOthers(s, t, d);
    }
  }

  lemma DeliveryByAck(s: Sys, t: TableAction, d: DeliveryId)
    requires Inv(s) && d in s.db.deliveries && (t.AAck? || t.ARepairAck?)
    ensures d in TableStep(s, t).db.deliveries && TableStep(s, t).db.deliveries[d] == NextDelivery(s, OnTables(t), d)
  {
    hide Inv, AckAllowed, EntitlementAllowed, Ackable;
    if s.db.deliveries[d].status == AwaitingAck {
      AckableIsAllowed(s, d);
    } else {
      NotPendingNotAckable(s, s.db.deliveries[d]);
    }
  }

  lemma DeliveryByOthers(s: Sys, t: TableAction, d: DeliveryId)
    requires Inv(s) && d in s.db.deliveries && !t.AAck? && !t.ARepairAck?
    ensures d in TableStep(s, t).db.deliveries && TableStep(s, t).db.deliveries[d] == NextDelivery(s, OnTables(t), d)
  {
    hide Inv, HousekeepingAllowed, FailApplies, TransitionApplies, ActivateApplies, RepairInsert, Ackable, AckCleanupClaim;
    match t
    case ARepairInsert(b) => RepairInsertIdle(s, b);
    case AAckCleanupClaim(q, at) => AckCleanupClaimIdle(s, q, at);
    case _ =>
  }

  lemma NotPendingNotAckable(s: Sys, row: Delivery)
    ensures Ackable(s, row) ==> row.status == AwaitingAck
  {
  }

  lemma RequestStatementsKeepDeliveries(db: Db)
    ensures forall o, seen, now :: StartBatch(db, o, seen, now).deliveries == db.deliveries
    ensures forall o, to, from, guard :: Transition(db, o, to, from, guard).deliveries == db.deliveries
    ensures forall a, h :: RecordCredential(db, a, h).deliveries == db.deliveries
    ensures forall a, key :: WriteBack(db, a, key).deliveries == db.deliveries
    ensures forall a :: MarkUnknown(db, a).deliveries == ReleaseUnstarted(db, a).deliveries == ClaimCreate(db, a).deliveries == db.deliveries
    ensures forall e, subject, h, phase :: WriteEntitlement(db, e, subject, h, phase).deliveries == db.deliveries
  {
    hide EntitlementAllowed, CanStart;
  }

  lemma OthersDeliverNothing(s: Sys, p: Pid, r: RequestAction)
    requires !r.ADeliver?
    ensures RequestStep(s, p, r).db.deliveries == s.db.deliveries
  {
    hide StartBatch, CanStart, RecordCredential, WriteBack, Transition, WriteEntitlement, MarkUnknown, ReleaseUnstarted, ClaimCreate;
    hide CanRelease, CanRecord, CanClaimCreate;
    RequestStatementsKeepDeliveries(s.db);
  }

  lemma DeliveryByRequest(s: Sys, p: Pid, r: RequestAction, d: DeliveryId)
    requires Inv(s) && d in s.db.deliveries
    ensures d in RequestStep(s, p, r).db.deliveries
    ensures RequestStep(s, p, r).db.deliveries[d] == s.db.deliveries[d] == NextDelivery(s, ByRequest(p, r), d)
  {
    hide Inv, RequestStep;
    if r.ADeliver? {
      OldByDeliver(s, p, r, d);
    } else {
      OthersDeliverNothing(s, p, r);
    }
  }

  lemma OldByDeliver(s: Sys, p: Pid, r: RequestAction, d: DeliveryId)
    requires d in s.db.deliveries && r.ADeliver?
    ensures d in RequestStep(s, p, r).db.deliveries && RequestStep(s, p, r).db.deliveries[d] == s.db.deliveries[d]
  {
  }

  lemma DeliveryByWorker(s: Sys, p: Pid, w: WorkerAction, d: DeliveryId)
    requires Inv(s) && d in s.db.deliveries
    ensures d in WorkerStep(s, p, w).db.deliveries
    ensures WorkerStep(s, p, w).db.deliveries[d] == NextDelivery(s, ByWorker(p, w), d)
  {
    hide Inv, Claim, Finish;
    match w
    case AClaim(b, now, cron) => DeliveryByClaim(s, p, b, now, cron, d);
    case AFinish(now) => DeliveryByFinish(s, p, now, d);
    case _ =>
  }

  lemma DeliveryByClaim(s: Sys, p: Pid, b: AttemptId, now: Instant, cron: bool, d: DeliveryId)
    requires Inv(s) && d in s.db.deliveries
    ensures d in Claim(s, p, b, now, cron).db.deliveries
    ensures Claim(s, p, b, now, cron).db.deliveries[d] == NextDelivery(s, ByWorker(p, AClaim(b, now, cron)), d)
  {
    hide Inv, CanClaim, ClaimBatch, Wins;
    WinsIsClaim(s, p, b, now, cron);
    WinsItsOwn(s, p, b, now, cron, s.db.deliveries[d].attempt);
    if CanClaim(s.db, b, now, cron) {
      NoneAcknowledged(s.db, b, now, cron);
      ClaimEffects(s.db, b, s.nextToken, now, cron);
    }
  }

  lemma DeliveryByFinish(s: Sys, p: Pid, now: Instant, d: DeliveryId)
    requires Inv(s) && d in s.db.deliveries
    ensures d in Finish(s, p, now).db.deliveries
    ensures Finish(s, p, now).db.deliveries[d] == NextDelivery(s, ByWorker(p, AFinish(now)), d)
  {
    hide Inv, CleanBatch, UncleanBatch;
    DeliveryFacts(s, d);
    if p in s.procs && s.procs[p].Verdict? {
      var pc := s.procs[p];
      PcFacts(s, p);
      RowFacts(s, pc.a);
      var subject := s.db.ops[pc.a.op].subject;
      if HoldsToken(s.db, pc.a, pc.token) {
        CleanedTables(s.db, pc.a, pc.token, subject, pc.credential, now);
        UncleanTables(s.db, pc.a, pc.token, pc.offset);
      } else {
        LostBatches(s.db, pc.a, pc.token, subject, pc.credential, now, pc.offset);
      }
    }
  }

  // ---------- entitlements ----------

  /** Some current attempt with this key is created and unclaimed and its operation is not giving it up, or no attempt
      has the key. */
  predicate Offerable(s: Sys, h: KeyHash) {
    (exists a :: a in s.db.attempts && s.db.attempts[a].credential == Some(h)) ==>
      exists a :: a in s.db.attempts && s.db.attempts[a].credential == Some(h) && s.db.attempts[a].outcome == Created
                  && s.db.attempts[a].token.None? && a.op in s.db.ops && s.db.ops[a.op].state in {Creating, DeliveryPending, Active, Failed}
  }

  function NextEntitlement(s: Sys, act: Action, e: EntitlementId): Option<Entitlement>
    requires e in s.db.entitlements
  {
    var row := s.db.entitlements[e];
    match act
    case OnTables(AHousekeep(q, change)) =>
      if q != e then Some(row)
      else if change.None? then None
      else if HousekeepingAllowed(s, e, change.value) then change else Some(row)
    case OnTables(AAck(d, q, recorded)) =>
      if && q == e && d in s.db.deliveries && s.db.deliveries[d].status == AwaitingAck
         && row.credential == Some(s.db.deliveries[d].credential) && row.phase in {AwaitingDelivery, Granted}
         && (if recorded then Ackable(s, s.db.deliveries[d]) else Offerable(s, s.db.deliveries[d].credential))
      then Some(row.(phase := Granted)) else Some(row)
    case ByRequest(p, AWriteEntitlement(q, phase)) =>
      if && q == e && p in s.procs && (s.procs[p].Holding? || s.procs[p].Recorded?)
         && s.procs[p].a.op in s.db.ops && row.subject == s.db.ops[s.procs[p].a.op].subject && row.phase == Issuing
         && (row.credential.None? || row.credential == Some(s.procs[p].key))
         && (phase == Issuing || (phase in {AwaitingDelivery, Granted} && Offerable(s, s.procs[p].key)))
      then Some(Entitlement(row.subject, Some(s.procs[p].key), phase)) else Some(row)
    case ByWorker(p, AFinish(_)) =>
      if && p in s.procs && Ends(s, act, s.procs[p].a) && s.procs[p].clean && s.procs[p].a.op in s.db.ops
         && Doomed(row, s.db.ops[s.procs[p].a.op].subject, s.procs[p].credential)
      then None else Some(row)
    case _ => Some(row)
  }

  /** Main result: in every run, what the next step makes of an entitlement; a granted one is never deleted by a
      cleanup. */
  lemma EntitlementChart(acts: seq<Action>, act: Action, e: EntitlementId)
    requires e in Run(Init, acts).db.entitlements
    ensures var s := Run(Init, acts);
            var t := Run(Init, acts + [act]);
            && (if e in t.db.entitlements then Some(t.db.entitlements[e]) else None) == NextEntitlement(s, act, e)
            && (s.db.entitlements[e].phase == Granted && act.ByWorker? ==>
                  e in t.db.entitlements && t.db.entitlements[e] == s.db.entitlements[e])
  {
    var s := Run(Init, acts);
    hide Inv, Run, Step, NextEntitlement;
    NextState(acts, act);
    EntitlementNext(s, act, e);
    assert s.db.entitlements[e].phase == Granted && act.ByWorker? ==> NextEntitlement(s, act, e) == Some(s.db.entitlements[e])
      by { GrantedStays(s, act, e); }
  }

  lemma GrantedStays(s: Sys, act: Action, e: EntitlementId)
    requires e in s.db.entitlements
    ensures s.db.entitlements[e].phase == Granted && act.ByWorker? ==> NextEntitlement(s, act, e) == Some(s.db.entitlements[e])
  {
    hide HousekeepingAllowed, Ackable, Offerable, Ends;
  }

  function Row(db: Db, e: EntitlementId): Option<Entitlement> {
    if e in db.entitlements then Some(db.entitlements[e]) else None
  }

  lemma EntitlementNext(s: Sys, act: Action, e: EntitlementId)
    requires Inv(s) && e in s.db.entitlements
    ensures Row(Step(s, act).db, e) == NextEntitlement(s, act, e)
  {
    hide Inv, TableStep, RequestStep, WorkerStep;
    match act
    case OnTables(t) => EntitlementByTables(s, t, e);
    case ByRequest(p, r) => EntitlementByRequest(s, p, r, e);
    case AtProvider(_) =>
    case ByWorker(p, w) => EntitlementByWorker(s, p, w, e);
  }

  lemma OfferableIsAllowed(s: Sys, h: KeyHash)
    requires Inv(s)
    ensures Offerable(s, h) <==> EntitlementAllowed(s.db, h)
  {
    hide Inv;
    forall a | a in s.db.attempts ensures s.db.attempts[a].outcome == Created ==> IsCurrent(s.db, a) {
      OpenIsCurrent(s, a);
    }
  }

  lemma EntitlementByTables(s: Sys, t: TableAction, e: EntitlementId)
    requires Inv(s) && e in s.db.entitlements
    ensures Row(TableStep(s, t).db, e) == NextEntitlement(s, OnTables(t), e)
  {
    hide Inv, TableStep, NextEntitlement;
    if t.AAck? {
      EntitlementByAck(s, t.d, t.e, t.recorded, e);
    } else {
      EntitlementByOthers(s, t, e);
    }
  }

  lemma EntitlementByAck(s: Sys, d: DeliveryId, q: EntitlementId, recorded: bool, e: EntitlementId)
    requires Inv(s) && e in s.db.entitlements
    ensures Row(TableStep(s, AAck(d, q, recorded)).db, e) == NextEntitlement(s, OnTables(AAck(d, q, recorded)), e)
  {
    hide Inv, AckAllowed, EntitlementAllowed, Ackable, Offerable;
    if d in s.db.deliveries && s.db.deliveries[d].status == AwaitingAck {
      AckableIsAllowed(s, d);
      OfferableIsAllowed(s, s.db.deliveries[d].credential);
    }
  }

  lemma EntitlementByOthers(s: Sys, t: TableAction, e: EntitlementId)
    requires e in s.db.entitlements && !t.AAck?
    ensures Row(TableStep(s, t).db, e) == NextEntitlement(s, OnTables(t), e)
  {
    hide AckAllowed, EntitlementAllowed, HousekeepingAllowed, FailApplies, TransitionApplies, ActivateApplies, RepairInsert;
    RepairKeepsOthers(s.db);
  }

  lemma EntitlementByRequest(s: Sys, p: Pid, r: RequestAction, e: EntitlementId)
    requires Inv(s) && e in s.db.entitlements
    ensures Row(RequestStep(s, p, r).db, e) == NextEntitlement(s, ByRequest(p, r), e)
  {
    hide Inv, EntitlementAllowed, Offerable, Transition, TransitionApplies;
    hide StartBatch, CanStart, RecordCredential, WriteBack, Transition, MarkUnknown, ReleaseUnstarted, ClaimCreate, InsertDelivery;
    hide CanRelease, CanRecord, CanDeliver, CanClaimCreate;
    RequestStatementsKeepEntitlements(s.db);
    if p in s.procs && (s.procs[p].Holding? || s.procs[p].Recorded?) {
      OfferableIsAllowed(s, s.procs[p].key);
    }
  }

  lemma RequestStatementsKeepEntitlements(db: Db)
    ensures forall o, seen, now :: StartBatch(db, o, seen, now).entitlements == db.entitlements
    ensures forall o, to, from, guard :: Transition(db, o, to, from, guard).entitlements == db.entitlements
    ensures forall a, h :: RecordCredential(db, a, h).entitlements == db.entitlements
    ensures forall a, key :: WriteBack(db, a, key).entitlements == db.entitlements
    ensures forall a :: MarkUnknown(db, a).entitlements == ReleaseUnstarted(db, a).entitlements == ClaimCreate(db, a).entitlements == db.entitlements
    ensures forall d, a, h, at :: InsertDelivery(db, d, a, h, at).entitlements == db.entitlements
  {
    hide CanStart, CanRelease;
  }

  lemma EntitlementByWorker(s: Sys, p: Pid, w: WorkerAction, e: EntitlementId)
    requires Inv(s) && e in s.db.entitlements
    ensures Row(WorkerStep(s, p, w).db, e) == NextEntitlement(s, ByWorker(p, w), e)
  {
    hide Inv, Finish, ClaimBatch, CanClaim, Doomed;
    match w
    case AClaim(a, now, cron) => ClaimBatchKeepsEntitlements(s.db, a, s.nextToken, now, cron);
    case AFinish(now) => EntitlementByFinish(s, p, now, e);
    case _ =>
  }

  lemma ClaimBatchKeepsEntitlements(db: Db, a: AttemptId, tok: Token, now: Instant, cron: bool)
    ensures ClaimBatch(db, a, tok, now, cron).entitlements == db.entitlements
  {
    hide CanClaim, ExpireAll;
  }

  lemma EntitlementByFinish(s: Sys, p: Pid, now: Instant, e: EntitlementId)
    requires Inv(s) && e in s.db.entitlements
    ensures Row(Finish(s, p, now).db, e) == NextEntitlement(s, ByWorker(p, AFinish(now)), e)
  {
    hide Inv, CleanBatch, UncleanBatch;
    if p in s.procs && s.procs[p].Verdict? {
      var pc := s.procs[p];
      PcFacts(s, p);
      RowFacts(s, pc.a);
      var subject := s.db.ops[pc.a.op].subject;
      if HoldsToken(s.db, pc.a, pc.token) {
        CleanedEntitlements(s.db, pc.a, pc.token, subject, pc.credential, now, e);
        UncleanTables(s.db, pc.a, pc.token, pc.offset);
      } else {
        LostBatches(s.db, pc.a, pc.token, subject, pc.credential, now, pc.offset);
      }
    }
  }

  // ---------- new rows ----------

  /** This step inserts the delivery of the key that the request made and recorded. */
  predicate Delivers(s: Sys, act: Action, d: DeliveryId) {
    && act.ByRequest? && act.r.ADeliver? && act.r.d == d && d !in s.db.deliveries
    && act.p in s.procs && s.procs[act.p].Recorded? && s.procs[act.p].a in s.db.attempts
    && s.db.attempts[s.procs[act.p].a].outcome == Created
    && s.procs[act.p].a.op in s.db.ops && s.db.ops[s.procs[act.p].a.op].state == Creating
  }

  /** Main result: in every run a new row of the first three tables comes from one kind of step only, and with these
      contents. */
  lemma NewRows(acts: seq<Action>, act: Action, o: OperationId, a: AttemptId, d: DeliveryId)
    ensures var s := Run(Init, acts);
            var t := Run(Init, acts + [act]);
            && (o !in s.db.ops ==>
                  && (o in t.db.ops <==> act.OnTables? && act.t.ACreateOperation? && act.t.o == o)
                  && (o in t.db.ops ==> t.db.ops[o] == Operation(act.t.subject, Authenticated, Wait, 0, 0, act.t.now + 3_600_000, None)))
            && (a !in s.db.attempts ==>
                  && (a in t.db.attempts <==> Opens(s, act, a.op) && a.index == s.db.ops[a.op].attemptCount + 1)
                  && (a in t.db.attempts ==> t.db.attempts[a] == Attempt(None, Unknown, None, None, None, false, 0)))
            && (d !in s.db.deliveries ==>
                  && (d in t.db.deliveries <==> Delivers(s, act, d))
                  && (d in t.db.deliveries ==>
                        t.db.deliveries[d] == Delivery(s.procs[act.p].a, s.procs[act.p].key, AwaitingAck, act.r.expiresAt, None, None)))
  {
    hide Inv, Run, Step, Opens, Delivers;
    NextState(acts, act);
    var s := Run(Init, acts);
    if o !in s.db.ops {
      NewOperation(s, act, o);
    }
    if a !in s.db.attempts {
      NewAttempt(s, act, a);
    }
    if d !in s.db.deliveries {
      NewDelivery(s, act, d);
    }
  }

  lemma NewOperation(s: Sys, act: Action, o: OperationId)
    requires Inv(s) && o !in s.db.ops
    ensures o in Step(s, act).db.ops <==> act.OnTables? && act.t.ACreateOperation? && act.t.o == o
    ensures o in Step(s, act).db.ops ==>
              Step(s, act).db.ops[o] == Operation(act.t.subject, Authenticated, Wait, 0, 0, act.t.now + 3_600_000, None)
  {
    hide Inv, TableStep, RequestStep, WorkerStep;
    match act
    case OnTables(t) => TablesKeepOpKeys(s, t);
    case ByRequest(p, r) => RequestKeepsOpKeys(s, p, r);
    case AtProvider(_) =>
    case ByWorker(p, w) => WorkerKeepsKeys(s, p, w);
  }

  lemma TablesKeepOpKeys(s: Sys, t: TableAction)
    ensures !t.ACreateOperation? ==> TableStep(s, t).db.ops.Keys == s.db.ops.Keys
    ensures t.ACreateOperation? ==>
              TableStep(s, t).db.ops == if t.o in s.db.ops then s.db.ops
                                        else s.db.ops[t.o := Operation(t.subject, Authenticated, Wait, 0, 0, t.now + 3_600_000, None)]
  {
    hide AckBatch, RepairAck, AckCleanupClaim, ExpireDelivery, RepairInsert, Housekeep, TokenFree, AckAllowed, EntitlementAllowed;
    RowsKeepOps(s.db);
    HousekeepKeepsOps(s);
  }

  lemma RequestKeepsOpKeys(s: Sys, p: Pid, r: RequestAction)
    ensures RequestStep(s, p, r).db.ops.Keys == s.db.ops.Keys
  {
    hide RecordCredential, WriteBack, InsertDelivery, ReleaseUnstarted, MarkUnknown, ClaimCreate, WriteEntitlement, TokenFree;
    hide CanRelease, CanRecord, CanDeliver, CanClaimCreate, StartBatch, CanStart, Transition;
    RequestRowsKeepOps(s.db);
    StatementsKeepOpKeys(s.db);
  }

  lemma StatementsKeepOpKeys(db: Db)
    ensures forall o, seen, now :: StartBatch(db, o, seen, now).ops.Keys == db.ops.Keys
    ensures forall o, to, from, guard :: Transition(db, o, to, from, guard).ops.Keys == db.ops.Keys
  {
    hide AttemptsSettled, SubjectSettled, NoOpenDelivery, TokenFree;
  }

  lemma WorkerKeepsKeys(s: Sys, p: Pid, w: WorkerAction)
    requires Inv(s)
    ensures var t := WorkerStep(s, p, w);
            t.db.ops.Keys == s.db.ops.Keys && t.db.attempts.Keys == s.db.attempts.Keys && t.db.deliveries.Keys == s.db.deliveries.Keys
  {
    hide Inv, ClaimBatch, CleanBatch, UncleanBatch, CanClaim;
    match w
    case AClaim(a, now, cron) =>
      WinsIsClaim(s, p, a, now, cron);
      if CanClaim(s.db, a, now, cron) {
        NoneAcknowledged(s.db, a, now, cron);
        ClaimEffects(s.db, a, s.nextToken, now, cron);
      }
    case AFinish(now) =>
      if p in s.procs && s.procs[p].Verdict? {
        FinishKeepsKeys(s, p, now);
      }
    case _ =>
  }

  lemma FinishKeepsKeys(s: Sys, p: Pid, now: Instant)
    requires Inv(s) && p in s.procs && s.procs[p].Verdict?
    ensures var t := Finish(s, p, now);
            t.db.ops.Keys == s.db.ops.Keys && t.db.attempts.Keys == s.db.attempts.Keys && t.db.deliveries.Keys == s.db.deliveries.Keys
  {
    hide Inv, CleanBatch, UncleanBatch;
    var pc := s.procs[p];
    PcFacts(s, p);
    RowFacts(s, pc.a);
    var subject := s.db.ops[pc.a.op].subject;
    if HoldsToken(s.db, pc.a, pc.token) {
      CleanedTables(s.db, pc.a, pc.token, subject, pc.credential, now);
      UncleanTables(s.db, pc.a, pc.token, pc.offset);
    } else {
      LostBatches(s.db, pc.a, pc.token, subject, pc.credential, now, pc.offset);
    }
  }

  lemma NewAttempt(s: Sys, act: Action, a: AttemptId)
    requires Inv(s) && a !in s.db.attempts
    ensures a in Step(s, act).db.attempts <==> Opens(s, act, a.op) && a.index == s.db.ops[a.op].attemptCount + 1
    ensures a in Step(s, act).db.attempts ==> Step(s, act).db.attempts[a] == Attempt(None, Unknown, None, None, None, false, 0)
  {
    hide Inv, TableStep, RequestStep, WorkerStep, Opens;
    if act.ByRequest? && act.r.AStart? {
      NewByStart(s, act.p, act.r.o, act.r.seen, act.r.now, a);
    } else {
      OpensByStart(s, act, a.op);
      AttemptKeysStay(s, act);
    }
  }

  lemma OpensByStart(s: Sys, act: Action, o: OperationId)
    ensures Opens(s, act, o) ==> act.ByRequest? && act.r.AStart?
  {
  }

  lemma AttemptKeysStay(s: Sys, act: Action)
    requires Inv(s) && !(act.ByRequest? && act.r.AStart?)
    ensures Step(s, act).db.attempts.Keys == s.db.attempts.Keys
  {
    hide Inv, TableStep, RequestStep, WorkerStep;
    match act
    case OnTables(t) => TablesKeepAttempts(s, t);
    case ByRequest(p, r) => RequestKeepsAttemptKeys(s, p, r);
    case AtProvider(_) =>
    case ByWorker(p, w) => WorkerKeepsKeys(s, p, w);
  }

  lemma RequestKeepsAttemptKeys(s: Sys, p: Pid, r: RequestAction)
    requires !r.AStart?
    ensures RequestStep(s, p, r).db.attempts.Keys == s.db.attempts.Keys
  {
    hide Transition, InsertDelivery, WriteEntitlement, RecordCredential, WriteBack, MarkUnknown, ReleaseUnstarted, ClaimCreate;
    hide CanRelease, CanRecord, CanDeliver, CanClaimCreate;
    RequestStatementsKeepAttempts(s.db);
    StatementsKeepAttemptKeys(s.db);
  }

  lemma StatementsKeepAttemptKeys(db: Db)
    ensures forall a, h :: RecordCredential(db, a, h).attempts.Keys == db.attempts.Keys
    ensures forall a, key :: WriteBack(db, a, key).attempts.Keys == db.attempts.Keys
    ensures forall a :: MarkUnknown(db, a).attempts.Keys
              == ReleaseUnstarted(db, a).attempts.Keys == ClaimCreate(db, a).attempts.Keys == db.attempts.Keys
  {
  }

  lemma NewByStart(s: Sys, p: Pid, o: OperationId, seen: nat, now: Instant, a: AttemptId)
    requires Inv(s) && a !in s.db.attempts
    ensures var act := ByRequest(p, AStart(o, seen, now));
            && (a in Step(s, act).db.attempts <==> Opens(s, act, a.op) && a.index == s.db.ops[a.op].attemptCount + 1)
            && (a in Step(s, act).db.attempts ==> Step(s, act).db.attempts[a] == Attempt(None, Unknown, None, None, None, false, 0))
  {
    hide Inv, CanStart, StartBatch, Opens;
    OpensIsStart(s, p, o, seen, now);
    OpensItsOwn(s, p, o, seen, now, a.op);
    if CanStart(s.db, o, seen, now) {
      StartedBatch(s, o, seen, now);
    } else {
      LostStartIdle(s, o, seen, now);
    }
  }

  lemma NewDelivery(s: Sys, act: Action, d: DeliveryId)
    requires Inv(s) && d !in s.db.deliveries
    ensures d in Step(s, act).db.deliveries <==> Delivers(s, act, d)
    ensures d in Step(s, act).db.deliveries ==>
              Step(s, act).db.deliveries[d] == Delivery(s.procs[act.p].a, s.procs[act.p].key, AwaitingAck, act.r.expiresAt, None, None)
  {
    hide Inv, TableStep, RequestStep, WorkerStep;
    match act
    case OnTables(t) => TablesKeepDeliveryKeys(s, t);
    case ByRequest(p, r) => NewByRequest(s, p, r, d);
    case AtProvider(_) =>
    case ByWorker(p, w) => WorkerKeepsKeys(s, p, w);
  }

  lemma TablesKeepDeliveryKeys(s: Sys, t: TableAction)
    ensures TableStep(s, t).db.deliveries.Keys == s.db.deliveries.Keys
  {
    hide AckAllowed, EntitlementAllowed, HousekeepingAllowed, FailApplies, TransitionApplies, ActivateApplies, RepairInsert;
    RepairKeepsOthers(s.db);
  }

  lemma RepairKeepsOthers(db: Db)
    ensures forall a :: RepairInsert(db, a).deliveries == db.deliveries && RepairInsert(db, a).entitlements == db.entitlements
  {
  }

  lemma NewByRequest(s: Sys, p: Pid, r: RequestAction, d: DeliveryId)
    requires Inv(s) && d !in s.db.deliveries
    ensures d in RequestStep(s, p, r).db.deliveries <==> Delivers(s, ByRequest(p, r), d)
    ensures d in RequestStep(s, p, r).db.deliveries ==>
              RequestStep(s, p, r).db.deliveries[d] == Delivery(s.procs[p].a, s.procs[p].key, AwaitingAck, r.expiresAt, None, None)
  {
    hide Inv, RequestStep;
    if r.ADeliver? {
      NewByDeliver(s, p, r, d);
    } else {
      assert RequestStep(s, p, r).db.deliveries == s.db.deliveries by { OthersDeliverNothing(s, p, r); }
    }
  }

  lemma NewByDeliver(s: Sys, p: Pid, r: RequestAction, d: DeliveryId)
    requires Inv(s) && d !in s.db.deliveries && r.ADeliver?
    ensures d in RequestStep(s, p, r).db.deliveries <==> Delivers(s, ByRequest(p, r), d)
    ensures d in RequestStep(s, p, r).db.deliveries ==>
              RequestStep(s, p, r).db.deliveries[d] == Delivery(s.procs[p].a, s.procs[p].key, AwaitingAck, r.expiresAt, None, None)
  {
    hide Inv, CanDeliver;
    if p in s.procs && s.procs[p].Recorded? {
      DeliversExactly(s, p);
    }
  }

  lemma DeliversExactly(s: Sys, p: Pid)
    requires Inv(s) && p in s.procs && s.procs[p].Recorded?
    ensures var a := s.procs[p].a;
            && a in s.db.attempts
            && (CanDeliver(s.db, a, s.procs[p].key) <==> s.db.attempts[a].outcome == Created && StateIn(s.db, a.op, {Creating}))
  {
    hide Inv;
    PcFacts(s, p);
    RowFacts(s, s.procs[p].a);
    OpenIsCurrent(s, s.procs[p].a);
  }
}
