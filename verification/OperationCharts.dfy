/** The life of one row: what any step makes of one operation, attempt, delivery or entitlement of a reachable
    state. It is told row by row, without the statements and without the guards that no reachable state needs. */
module OperationCharts {
  import opened Wrappers
  import opened BrokerTypes
  import opened BrokerSql
  import opened OperationGuards
  import opened OperationProtocol
  import opened OperationInvariant
  import opened OperationPreserved
  import opened OperationSteps
  import opened OperationWorkers
  import opened OperationForward
  import opened OperationSafety

  // ---------- operations ----------

  /** This step is a cleanup claim that wins the attempt. */
  predicate Wins(s: Sys, act: Action, a: AttemptId) {
    && act.ByWorker? && act.w.AClaim? && act.w.a == a && act.p !in s.procs
    && a in s.db.attempts && a.op in s.db.ops && s.db.ops[a.op].currentIndex == a.index
    && s.db.ops[a.op].state in {CreateUnknown, Reconciling, CleanupRequired, DeliveryPending, Failed}
    && s.db.attempts[a].outcome != Cleaned
    && TurnHasCome(s.db.attempts[a], act.w.now, act.w.cron) && NothingForbids(s.db, a, act.w.now)
  }

  /** This step is the last batch of a worker that still holds its claim on the attempt. */
  predicate Ends(s: Sys, act: Action, a: AttemptId) {
    && act.ByWorker? && act.w.AFinish? && act.p in s.procs && s.procs[act.p].Verdict? && s.procs[act.p].a == a
    && a in s.db.attempts && s.db.attempts[a].token == Some(s.procs[act.p].token)
  }

  /** This start wins: the operation may open its next attempt, and nothing of its subject is open. */
  predicate Opens(s: Sys, act: Action, o: OperationId) {
    && act.ByRequest? && act.r.AStart? && act.r.o == o && act.p !in s.procs
    && o in s.db.ops && s.db.ops[o].state in {Authenticated, IssueReady, RetryReady}
    && s.db.ops[o].attemptCount == act.r.seen && s.db.ops[o].authExpiresAt > act.r.now
    && (forall a <- s.db.attempts.Keys :: a.op in s.db.ops && s.db.ops[a.op].subject == s.db.ops[o].subject ==>
          s.db.attempts[a].outcome == Cleaned && s.db.attempts[a].token.None? && !s.db.attempts[a].inFlight)
  }

  function Enter(op: Operation, state: OperationState): Operation {
    op.(state := state, failure := None,
        clientAction := if state == RetryReady then RetryAuthorized
                        else if state == DeliveryPending then AcknowledgeDelivery
                        else Wait)
  }

  function Fall(op: Operation, reason: FailureReason): Operation {
    op.(state := Failed, clientAction := ActionRequired, failure := Some(reason))
  }

  function NextByTables(s: Sys, t: TableAction, o: OperationId): Operation
    requires o in s.db.ops
  {
    var op := s.db.ops[o];
    match t
    case AIssueReady(q) => if q == o && op.state == Authenticated then Enter(op, IssueReady) else op
    case AExpire(q) => if q == o && op.state !in {Active, Failed} then Fall(op, AuthorizationExpired) else op
    case AFail(q, index, reason) =>
      if q == o && index == op.currentIndex && op.state !in {Active, Failed} && !Held(s.db, AttemptId(o, index)) then Fall(op, reason) else op
    case AStaleCreating(q, index) => if q == o && index == op.currentIndex && op.state == Creating then Enter(op, CreateUnknown) else op
    case AStaleDelivery(q, index) => if q == o && index == op.currentIndex && op.state == DeliveryPending then Enter(op, CreateUnknown) else op
    case AActivate(d) => if AcknowledgedFor(s, d, o) && op.state in {DeliveryPending, Failed} then Enter(op, Active) else op
    case _ => op
  }

  function NextByRequest(s: Sys, p: Pid, r: RequestAction, o: OperationId): Operation
    requires o in s.db.ops
  {
    var op := s.db.ops[o];
    var mine := p in s.procs && s.procs[p].a == AttemptId(o, op.currentIndex);
    match r
    case AStart(_, seen, _) =>
      if Opens(s, ByRequest(p, r), o) then Enter(op.(attemptCount := seen + 1, currentIndex := seen + 1), Creating) else op
    case ASettle =>
      if mine && op.state == Creating && s.procs[p].Delivered? then Enter(op, DeliveryPending)
      else if mine && op.state == Creating && s.procs[p].Recorded? then Enter(op, Active)
      else op
    case AReleaseOperation =>
      if mine && op.state in {Creating, CreateUnknown} && s.procs[p].Releasing? then Enter(op, RetryReady) else op
    case _ => op
  }

  function NextByWorker(s: Sys, p: Pid, w: WorkerAction, o: OperationId): Operation
    requires o in s.db.ops
  {
    var op := s.db.ops[o];
    var cur := AttemptId(o, op.currentIndex);
    if op.state == Failed then op
    else if Wins(s, ByWorker(p, w), cur) then Enter(op, Reconciling)
    else if !Ends(s, ByWorker(p, w), cur) then op
    else if !s.procs[p].clean then Enter(op, CleanupRequired)
    else if op.authExpiresAt > w.now then Enter(op, RetryReady)
    else op
  }

  function NextOperation(s: Sys, act: Action, o: OperationId): Operation
    requires o in s.db.ops
  {
    match act
    case OnTables(t) => NextByTables(s, t, o)
    case ByRequest(p, r) => NextByRequest(s, p, r, o)
    case AtProvider(_) => s.db.ops[o]
    case ByWorker(p, w) => NextByWorker(s, p, w, o)
  }

  /** Main result: in every run, what the next step makes of an operation. */
  lemma OperationChart(acts: seq<Action>, act: Action, o: OperationId)
    requires o in Run(Init, acts).db.ops
    ensures var t := Run(Init, acts + [act]);
            o in t.db.ops && t.db.ops[o] == NextOperation(Run(Init, acts), act, o)
  {
    hide Inv, Run, Step, NextOperation;
    NextState(acts, act);
    OperationNext(Run(Init, acts), act, o);
  }

  lemma NextState(acts: seq<Action>, act: Action)
    ensures Inv(Run(Init, acts)) && Run(Init, acts + [act]) == Step(Run(Init, acts), act)
  {
    hide Inv, Run, Step;
    Reached(acts);
    RunAppend(Init, acts, [act]);
    RunSingle(Run(Init, acts), act);
  }

  lemma OperationNext(s: Sys, act: Action, o: OperationId)
    requires Inv(s) && o in s.db.ops
    ensures o in Step(s, act).db.ops && Step(s, act).db.ops[o] == NextOperation(s, act, o)
  {
    hide Inv, TableStep, RequestStep, WorkerStep, NextByTables, NextByRequest, NextByWorker;
    match act
    case OnTables(t) => OperationByTables(s, t, o);
    case ByRequest(p, r) => OperationByRequest(s, p, r, o);
    case AtProvider(_) =>
    case ByWorker(p, w) => OperationByWorker(s, p, w, o);
  }

  lemma OperationByTables(s: Sys, t: TableAction, o: OperationId)
    requires Inv(s) && o in s.db.ops
    ensures o in TableStep(s, t).db.ops && TableStep(s, t).db.ops[o] == NextByTables(s, t, o)
  {
    hide Inv, AckBatch, RepairAck, AckCleanupClaim, ExpireDelivery, RepairInsert, Housekeep, Transition, ActivateOnAck, TokenFree, Held;
    hide AcknowledgedFor, FailOperation, ExpireOperation, CreateOperation;
    match t
    case AIssueReady(q) => TransitionMoves(s, q, IssueReady, {Authenticated}, None, o);
    case AStaleCreating(q, index) => TransitionMoves(s, q, CreateUnknown, {Creating}, Some(index), o);
    case AStaleDelivery(q, index) => TransitionMoves(s, q, CreateUnknown, {DeliveryPending}, Some(index), o);
    case AActivate(d) => ActivateMoves(s, d, o);
    case AFail(_, _, _) => FallMoves(s, t, o);
    case AExpire(_) => FallMoves(s, t, o);
    case _ => RowsStay(s, t, o);
  }

  lemma FallMoves(s: Sys, t: TableAction, o: OperationId)
    requires o in s.db.ops && (t.AFail? || t.AExpire?)
    ensures o in TableStep(s, t).db.ops && TableStep(s, t).db.ops[o] == NextByTables(s, t, o)
  {
  }

  lemma RowsStay(s: Sys, t: TableAction, o: OperationId)
    requires o in s.db.ops && !t.AIssueReady? && !t.AStaleCreating? && !t.AStaleDelivery? && !t.AActivate? && !t.AFail? && !t.AExpire?
    ensures o in TableStep(s, t).db.ops && TableStep(s, t).db.ops[o] == NextByTables(s, t, o)
  {
    hide AckBatch, RepairAck, AckCleanupClaim, ExpireDelivery, RepairInsert, Housekeep;
    RowsKeepOps(s.db);
    HousekeepKeepsOps(s);
  }

  lemma HousekeepKeepsOps(s: Sys)
    ensures forall e, row :: Housekeep(s, e, row).db.ops == s.db.ops
  {
    hide HousekeepingAllowed;
  }

  /** From a state without a held claim, a transition happens exactly in one of the given states, and if guarded only
      for the current attempt. */
  lemma TransitionMoves(s: Sys, q: OperationId, to: OperationState, from: set<OperationState>, guard: Option<nat>, o: OperationId)
    requires Inv(s) && o in s.db.ops && from != {} && Reconciling !in from && Failed !in from
    requires to !in {Failed, Clean}
    ensures var op := s.db.ops[o];
            var t := Transition(s.db, q, to, from, guard);
            && o in t.ops
            && t.ops[o] == if q == o && op.state in from && (guard.Some? ==> guard.value == op.currentIndex) then Enter(op, to) else op
  {
    hide Inv;
    OpFacts(s, o);
    FreeUnlessHeld(s, o);
  }

  lemma ActivateMoves(s: Sys, d: DeliveryId, o: OperationId)
    requires Inv(s) && o in s.db.ops
    ensures var op := s.db.ops[o];
            var t := ActivateOnAck(s.db, d);
            && o in t.ops
            && t.ops[o] == if AcknowledgedFor(s, d, o) && op.state in {DeliveryPending, Failed} then Enter(op, Active) else op
  {
    hide Inv;
    if d in s.db.deliveries && s.db.deliveries[d].status == Acknowledged {
      DeliveryFacts(s, d);
      RowFacts(s, s.db.deliveries[d].attempt);
    }
  }

  /** Unless the operation is reconciling or failed, its current attempt is not held. */
  lemma FreeUnlessHeld(s: Sys, o: OperationId)
    requires Inv(s) && o in s.db.ops
    ensures s.db.ops[o].state !in {Reconciling, Failed} ==> TokenFree(s.db, AttemptId(o, s.db.ops[o].currentIndex))
  {
    hide Inv;
    if AttemptId(o, s.db.ops[o].currentIndex) in s.db.attempts {
      RowFacts(s, AttemptId(o, s.db.ops[o].currentIndex));
    }
  }

  lemma OperationByRequest(s: Sys, p: Pid, r: RequestAction, o: OperationId)
    requires Inv(s) && o in s.db.ops
    ensures o in RequestStep(s, p, r).db.ops && RequestStep(s, p, r).db.ops[o] == NextByRequest(s, p, r, o)
  {
    hide Inv, Start, RecordCredential, WriteBack, InsertDelivery, ReleaseUnstarted, MarkUnknown, ClaimCreate, WriteEntitlement, Opens;
    hide CanRelease, CanRecord, CanDeliver, CanClaimCreate, Transition;
    match r
    case AStart(q, seen, now) => OperationByStart(s, p, q, seen, now, o);
    case ASettle =>
      if p in s.procs {
        var pc := s.procs[p];
        TransitionMoves(s, pc.a.op, if pc.Delivered? then DeliveryPending else Active, {Creating}, Some(pc.a.index), o);
      }
    case AReleaseOperation =>
      if p in s.procs {
        TransitionMoves(s, s.procs[p].a.op, RetryReady, {Creating, CreateUnknown}, Some(s.procs[p].a.index), o);
      }
    case _ => RequestRowsKeepOps(s.db);
  }

  lemma RequestRowsKeepOps(db: Db)
    ensures forall a, h :: RecordCredential(db, a, h).ops == db.ops
    ensures forall a, h :: WriteBack(db, a, h).ops == db.ops
    ensures forall d, a, h, at :: InsertDelivery(db, d, a, h, at).ops == db.ops
    ensures forall a :: ReleaseUnstarted(db, a).ops == db.ops && MarkUnknown(db, a).ops == db.ops && ClaimCreate(db, a).ops == db.ops
    ensures forall e, subject, h, phase :: WriteEntitlement(db, e, subject, h, phase).ops == db.ops
  {
    hide EntitlementAllowed;
  }

  lemma OperationByStart(s: Sys, p: Pid, q: OperationId, seen: nat, now: Instant, o: OperationId)
    requires Inv(s) && o in s.db.ops
    ensures var r := AStart(q, seen, now);
            o in Start(s, p, q, seen, now).db.ops && Start(s, p, q, seen, now).db.ops[o] == NextByRequest(s, p, r, o)
  {
    hide Inv, CanStart, Opens, StartBatch;
    OpFacts(s, o);
    OpensIsStart(s, p, q, seen, now);
    if p !in s.procs && CanStart(s.db, q, seen, now) {
      StartedBatch(s, q, seen, now);
    } else if p !in s.procs {
      LostStartIdle(s, q, seen, now);
    }
    OpensItsOwn(s, p, q, seen, now, o);
  }

  lemma OpensItsOwn(s: Sys, p: Pid, q: OperationId, seen: nat, now: Instant, o: OperationId)
    ensures Opens(s, ByRequest(p, AStart(q, seen, now)), o) ==> q == o && p !in s.procs
  {
  }

  lemma OpensIsStart(s: Sys, p: Pid, o: OperationId, seen: nat, now: Instant)
    requires Inv(s)
    ensures p !in s.procs ==> (CanStart(s.db, o, seen, now) <==> Opens(s, ByRequest(p, AStart(o, seen, now)), o))
    ensures CanStart(s.db, o, seen, now) ==> o in s.db.ops && s.db.ops[o].attemptCount == seen && s.db.ops[o].state != Failed
  {
    hide Inv;
    if Opens(s, ByRequest(p, AStart(o, seen, now)), o) {
      forall d <- s.db.deliveries.Keys | s.db.deliveries[d].attempt.op == o ensures s.db.deliveries[d].status == Expired {
        OpenDeliveryIsUnclean(s, d);
      }
    }
  }

  lemma OpenDeliveryIsUnclean(s: Sys, d: DeliveryId)
    requires Inv(s) && d in s.db.deliveries
    ensures s.db.deliveries[d].attempt in s.db.attempts
    ensures s.db.deliveries[d].status != Expired ==>
              s.db.attempts[s.db.deliveries[d].attempt].outcome != Cleaned && s.db.deliveries[d].attempt !in s.claimed
  {
    hide Inv;
    DeliveryFacts(s, d);
    KeyFacts(s, s.db.deliveries[d].credential);
  }

  lemma OperationByWorker(s: Sys, p: Pid, w: WorkerAction, o: OperationId)
    requires Inv(s) && o in s.db.ops
    ensures o in WorkerStep(s, p, w).db.ops && WorkerStep(s, p, w).db.ops[o] == NextByWorker(s, p, w, o)
  {
    hide Inv, Claim, Finish, PinCredential;
    OpFacts(s, o);
    match w
    case AClaim(a, now, cron) => OperationByClaim(s, p, a, now, cron, o);
    case AFinish(now) => OperationByFinish(s, p, now, o);
    case APin => PinKeepsOps(s, p);
    case _ =>
  }

  lemma PinKeepsOps(s: Sys, p: Pid)
    ensures Pin(s, p).db.ops == s.db.ops
  {
  }

  lemma WinsIsClaim(s: Sys, p: Pid, a: AttemptId, now: Instant, cron: bool)
    requires Inv(s)
    ensures p !in s.procs && a.index != 0 ==> (CanClaim(s.db, a, now, cron) <==> Wins(s, ByWorker(p, AClaim(a, now, cron)), a))
    ensures a.index == 0 || p in s.procs ==> !Wins(s, ByWorker(p, AClaim(a, now, cron)), a)
    ensures !CanClaim(s.db, a, now, cron) ==> ClaimBatch(s.db, a, s.nextToken, now, cron) == s.db
  {
    hide Inv, CanClaim, ClaimBatch, NothingForbids;
    if a in s.db.attempts {
      RowFacts(s, a);
      OpFacts(s, a.op);
    }
    ClaimKeepsToken(s.db, a, s.nextToken, now, cron);
    ClaimTakenExactly(s.db, a, s.nextToken, now, cron);
  }

  lemma OperationByClaim(s: Sys, p: Pid, a: AttemptId, now: Instant, cron: bool, o: OperationId)
    requires Inv(s) && o in s.db.ops
    ensures var w := AClaim(a, now, cron);
            o in Claim(s, p, a, now, cron).db.ops && Claim(s, p, a, now, cron).db.ops[o] == NextByWorker(s, p, w, o)
  {
    hide Inv, CanClaim, ClaimBatch, Wins;
    OpFacts(s, o);
    WinsIsClaim(s, p, a, now, cron);
    WinsItsOwn(s, p, a, now, cron, AttemptId(o, s.db.ops[o].currentIndex));
    if CanClaim(s.db, a, now, cron) {
      NoneAcknowledged(s.db, a, now, cron);
      ClaimEffects(s.db, a, s.nextToken, now, cron);
    }
  }

  lemma WinsItsOwn(s: Sys, p: Pid, a: AttemptId, now: Instant, cron: bool, b: AttemptId)
    ensures Wins(s, ByWorker(p, AClaim(a, now, cron)), b) ==> a == b
  {
  }

  lemma OperationByFinish(s: Sys, p: Pid, now: Instant, o: OperationId)
    requires Inv(s) && o in s.db.ops
    ensures o in Finish(s, p, now).db.ops && Finish(s, p, now).db.ops[o] == NextByWorker(s, p, AFinish(now), o)
  {
    hide Inv, CleanBatch, UncleanBatch;
    OpFacts(s, o);
    if p in s.procs && s.procs[p].Verdict? {
      var pc := s.procs[p];
      PcFacts(s, p);
      RowFacts(s, pc.a);
      var subject := s.db.ops[pc.a.op].subject;
      if HoldsToken(s.db, pc.a, pc.token) {
        CleanedTables(s.db, pc.a, pc.token, subject, pc.credential, now);
        UncleanTables(s.db, pc.a, pc.token, pc.offset);
        OpFacts(s, pc.a.op);
      } else {
        LostBatches(s.db, pc.a, pc.token, subject, pc.credential, now, pc.offset);
      }
    }
  }

  lemma LostBatches(db: Db, a: AttemptId, tok: Token, subject: Subject, key: Option<KeyHash>, now: Instant, next: nat)
    requires !HoldsToken(db, a, tok)
    ensures CleanBatch(db, a, tok, subject, key, now) == db && UncleanBatch(db, a, tok, next) == db
  {
  }
}
