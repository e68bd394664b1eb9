/** The promises of the managed-key protocol, for every run from the empty tables. */
module OperationSafety {
  import opened Wrappers
  import opened BrokerTypes
  import opened BrokerSql
  import opened OperationProtocol
  import opened OperationInvariant
  import opened OperationPreserved
  import opened OperationSteps
  import opened OperationWorkers
  import opened OperationForward

  lemma {:induction false} RunAppend(s: Sys, acts: seq<Action>, more: seq<Action>)
    ensures Run(s, acts + more) == Run(Run(s, acts), more)
    decreases |acts|
  {
    hide Step;
    if acts == [] {
      assert acts + more == more;
    } else {
      assert (acts + more)[0] == acts[0] && (acts + more)[1..] == acts[1..] + more;
      RunAppend(Step(s, acts[0]), acts[1..], more);
    }
  }

  lemma Reached(acts: seq<Action>)
    ensures Inv(Run(Init, acts))
  {
    InitOk();
    RunKeeps(Init, acts);
  }

  /** What holds in a reachable state, in every later one, and between the two. */
  lemma Later(acts: seq<Action>, more: seq<Action>)
    ensures Inv(Run(Init, acts)) && Inv(Run(Init, acts + more))
    ensures Forward(Run(Init, acts), Run(Init, acts + more))
  {
    hide Inv, Forward, Step;
    RunAppend(Init, acts, more);
    Reached(acts);
    RunForward(Run(Init, acts), more);
    RunKeeps(Run(Init, acts), more);
  }

  // ---------- one key per subject ----------

  /** A key that exists at the provider, or a create that may still produce one. */
  datatype KeySource = LiveKey(key: KeyHash) | PendingCreate(attempt: AttemptId)

  predicate MayExist(s: Sys, x: KeySource) {
    match x
    case LiveKey(h) => h in s.prov.live && h in s.prov.minted
    case PendingCreate(a) => a in s.prov.pending
  }

  function AttemptOf(s: Sys, x: KeySource): AttemptId
    requires MayExist(s, x)
  {
    match x
    case LiveKey(h) => s.prov.minted[h]
    case PendingCreate(a) => a
  }

  lemma SourceIsOpen(s: Sys, x: KeySource)
    requires Inv(s) && MayExist(s, x)
    ensures var a := AttemptOf(s, x);
            && a in s.db.attempts && !Settled(s.db.attempts[a]) && s.db.attempts[a].outcome != Cleaned
  {
    hide Inv;
    match x
    case LiveKey(h) => KeyFacts(s, h);
    case PendingCreate(a) =>
      PendingFacts(s, a);
      RowFacts(s, a);
  }

  lemma OneSourceEach(s: Sys, x: KeySource, y: KeySource)
    requires Inv(s) && MayExist(s, x) && MayExist(s, y) && AttemptOf(s, x) == AttemptOf(s, y)
    ensures x == y
  {
    hide Inv;
    match (x, y)
    case (LiveKey(h), LiveKey(k)) => OneKey(s, h, k);
    case (LiveKey(h), PendingCreate(b)) => KeyFacts(s, h);
    case (PendingCreate(a), LiveKey(k)) => KeyFacts(s, k);
    case (PendingCreate(_), PendingCreate(_)) =>
  }

  /** Main result: whatever the interleaving, a subject never has two keys that exist or may come to exist. */
  lemma AtMostOneKeyPerSubject(acts: seq<Action>, x: KeySource, y: KeySource)
    requires var s := Run(Init, acts);
             MayExist(s, x) && MayExist(s, y) && SameSubject(s.db.ops, AttemptOf(s, x), AttemptOf(s, y))
    ensures x == y
  {
    var s := Run(Init, acts);
    hide Inv, Run;
    Reached(acts);
    SourceIsOpen(s, x);
    SourceIsOpen(s, y);
    if AttemptOf(s, x) == AttemptOf(s, y) {
      OneSourceEach(s, x, y);
    } else {
      OthersSettled(s, AttemptOf(s, x), AttemptOf(s, y));
    }
  }

  /** The operation of a key source is on record, so every source has a subject. */
  lemma EverySourceHasASubject(acts: seq<Action>, x: KeySource)
    requires MayExist(Run(Init, acts), x)
    ensures AttemptOf(Run(Init, acts), x).op in Run(Init, acts).db.ops
  {
    var s := Run(Init, acts);
    hide Inv, Run;
    Reached(acts);
    SourceIsOpen(s, x);
    RowFacts(s, AttemptOf(s, x));
  }

  // ---------- cleaned is final and means gone ----------

  /** Once cleaned, an attempt stays cleaned, unclaimed and idle, and never has a key or a create again. */
  lemma CleanedForGood(acts: seq<Action>, more: seq<Action>, a: AttemptId)
    requires CleanedIn(Run(Init, acts).db.attempts, a)
    ensures var t := Run(Init, acts + more);
            && CleanedIn(t.db.attempts, a)
            && t.db.attempts[a].token.None? && !t.db.attempts[a].inFlight
            && a !in t.prov.pending
            && (forall h <- t.prov.live :: !MintedBy(t.prov.minted, h, a))
  {
    var s := Run(Init, acts);
    var t := Run(Init, acts + more);
    hide Inv, Run, OpsForward;
    Later(acts, more);
    RowFacts(t, a);
    LiveKeysOf(t, a);
  }

  // ---------- acknowledgement and cleanup exclude each other ----------

  /** After an acknowledgement the attempt is never claimed, never cleaned, and its key is never deleted. */
  lemma AcknowledgedIsSafe(acts: seq<Action>, more: seq<Action>, d: DeliveryId)
    requires var s := Run(Init, acts); d in s.db.deliveries && s.db.deliveries[d].status == Acknowledged
    ensures var s := Run(Init, acts);
            var t := Run(Init, acts + more);
            var a := s.db.deliveries[d].attempt;
            && d in t.db.deliveries && t.db.deliveries[d].status == Acknowledged
            && a in t.db.attempts && a !in t.claimed && t.db.attempts[a].outcome != Cleaned && t.db.attempts[a].token.None?
            && t.db.attempts[a].credential == Some(s.db.deliveries[d].credential)
            && s.db.deliveries[d].credential in t.prov.live
  {
    var s := Run(Init, acts);
    var t := Run(Init, acts + more);
    hide Inv, Run, OpsForward;
    Later(acts, more);
    assert d in t.db.deliveries && DeliveryForward(s.db.deliveries[d], t.db.deliveries[d]);
    DeliveryFacts(t, d);
    RowFacts(t, t.db.deliveries[d].attempt);
    KeyFacts(t, t.db.deliveries[d].credential);
  }

  /** After a claim no delivery of the attempt is acknowledged, now or later, and the operation does not
      become active on it. */
  lemma ClaimedIsNeverDelivered(acts: seq<Action>, more: seq<Action>, a: AttemptId)
    requires a in Run(Init, acts).claimed
    ensures var t := Run(Init, acts + more);
            && (forall d <- t.db.deliveries.Keys :: t.db.deliveries[d].attempt == a ==> t.db.deliveries[d].status == Expired)
            && (a.op in t.db.ops && t.db.ops[a.op].currentIndex == a.index ==>
                  t.db.ops[a.op].state in {Reconciling, CleanupRequired, Failed, RetryReady})
  {
    var s := Run(Init, acts);
    var t := Run(Init, acts + more);
    hide Inv, Run, OpsForward;
    Later(acts, more);
    forall d <- t.db.deliveries.Keys | t.db.deliveries[d].attempt == a ensures t.db.deliveries[d].status == Expired {
      DeliveryFacts(t, d);
    }
    if a.op in t.db.ops {
      OpFacts(t, a.op);
    }
  }

  /** An active operation has a live key that its current attempt made and that no worker ever claimed. */
  lemma ActiveHasItsKey(acts: seq<Action>, o: OperationId)
    requires var s := Run(Init, acts); o in s.db.ops && s.db.ops[o].state == Active
    ensures var s := Run(Init, acts);
            var a := AttemptId(o, s.db.ops[o].currentIndex);
            && a in s.db.attempts && a !in s.claimed && s.db.attempts[a].credential.Some?
            && s.db.attempts[a].credential.value in s.prov.live
            && MintedBy(s.prov.minted, s.db.attempts[a].credential.value, a)
  {
    var s := Run(Init, acts);
    hide Inv, Run;
    Reached(acts);
    OpFacts(s, o);
    KeyFacts(s, s.db.attempts[AttemptId(o, s.db.ops[o].currentIndex)].credential.value);
  }

  // ---------- a worker that lost its claim ----------

  predicate LostClaim(s: Sys, p: Pid) {
    p in s.procs && IsWorker(s.procs[p]) && !HoldsToken(s.db, s.procs[p].a, s.procs[p].token)
  }

  /** A lost token is never held again, whatever happens later. */
  lemma LostForGood(acts: seq<Action>, more: seq<Action>, p: Pid)
    requires LostClaim(Run(Init, acts), p)
    ensures var pc := Run(Init, acts).procs[p];
            !HoldsToken(Run(Init, acts + more).db, pc.a, pc.token)
  {
    var s := Run(Init, acts);
    hide Inv, Run, OpsForward, DeliveriesForward;
    Later(acts, more);
    PcFacts(s, p);
    assert RowForward(s.db.attempts[s.procs[p].a], Run(Init, acts + more).db.attempts[s.procs[p].a], s.nextToken);
  }

  /** A worker that lost its claim changes no table in any of its later steps, nor what is claimed. */
  lemma LostWorkerChangesNothing(acts: seq<Action>, more: seq<Action>, p: Pid, w: WorkerAction)
    requires LostClaim(Run(Init, acts), p)
    requires var t := Run(Init, acts + more);
             && p in t.procs && IsWorker(t.procs[p])
             && t.procs[p].a == Run(Init, acts).procs[p].a && t.procs[p].token == Run(Init, acts).procs[p].token
    ensures var t := Run(Init, acts + more);
            WorkerStep(t, p, w).db == t.db && WorkerStep(t, p, w).claimed == t.claimed
  {
    LostForGood(acts, more, p);
    hide Run, CanClaim, Deletable;
  }

  /** A key that any worker is about to delete, however late, has no delivery that is acknowledged or
      ever will be. */
  lemma DeletableKeyIsNeverAcknowledged(acts: seq<Action>, more: seq<Action>, p: Pid)
    requires var s := Run(Init, acts); p in s.procs && s.procs[p].Pinned?
    ensures var t := Run(Init, acts + more);
            forall d <- t.db.deliveries.Keys ::
              t.db.deliveries[d].credential == Run(Init, acts).procs[p].key ==> t.db.deliveries[d].status == Expired
  {
    var s := Run(Init, acts);
    var t := Run(Init, acts + more);
    hide Inv, Run, Forward;
    Later(acts, more);
    PinnedStays(s, t, p);
    forall d <- t.db.deliveries.Keys | t.db.deliveries[d].credential == s.procs[p].key
      ensures t.db.deliveries[d].status == Expired
    {
      BorrowedKeyExpired(t, s.procs[p].a, d);
    }
  }

  lemma PinnedStays(s: Sys, t: Sys, p: Pid)
    requires Inv(s) && Forward(s, t) && p in s.procs && s.procs[p].Pinned?
    ensures var a := s.procs[p].a;
            a in t.claimed && a in t.db.attempts && t.db.attempts[a].credential == Some(s.procs[p].key)
  {
    hide Inv, OpsForward, DeliveriesForward;
    PcFacts(s, p);
    assert RowForward(s.db.attempts[s.procs[p].a], t.db.attempts[s.procs[p].a], s.nextToken);
  }

  /** A delivery whose key is recorded on a claimed attempt is expired, whichever attempt made the key. */
  lemma BorrowedKeyExpired(t: Sys, a: AttemptId, d: DeliveryId)
    requires Inv(t) && a in t.claimed && a in t.db.attempts && d in t.db.deliveries
    requires t.db.attempts[a].credential == Some(t.db.deliveries[d].credential)
    ensures t.db.deliveries[d].status == Expired
  {
    hide Inv;
    DeliveryFacts(t, d);
    RowFacts(t, a);
    KeyFacts(t, t.db.deliveries[d].credential);
  }

  // ---------- states ----------

  /** ACTIVE is never left; the shown client action always fits the state; a failure reason is recorded
      exactly while the operation is failed; the state CLEAN is never entered. */
  lemma ActiveIsFinal(acts: seq<Action>, more: seq<Action>, o: OperationId)
    requires var s := Run(Init, acts); o in s.db.ops && s.db.ops[o].state == Active
    ensures var t := Run(Init, acts + more);
            && o in t.db.ops && t.db.ops[o].state == Active
            && t.db.ops[o].currentIndex == Run(Init, acts).db.ops[o].currentIndex
  {
    var s := Run(Init, acts);
    hide Inv, Run, RowsForward, DeliveriesForward;
    Later(acts, more);
    assert OpForward(s.db.ops[o], Run(Init, acts + more).db.ops[o]);
  }

  lemma StateColumnsAgree(acts: seq<Action>, o: OperationId)
    requires o in Run(Init, acts).db.ops
    ensures var op := Run(Init, acts).db.ops[o];
            && (op.clientAction == RetryAuthorized <==> op.state == RetryReady)
            && (op.clientAction == AcknowledgeDelivery <==> op.state == DeliveryPending)
            && (op.clientAction == ActionRequired <==> op.state == Failed)
            && (op.failure.Some? <==> op.state == Failed)
            && op.state != Clean
  {
    hide Inv, Run;
    Reached(acts);
    OpFacts(Run(Init, acts), o);
  }

  /** The only way out of FAILED is to ACTIVE, in a step that follows an acknowledged delivery of the
      current attempt. */
  lemma FailedOnlyToActive(acts: seq<Action>, act: Action, o: OperationId)
    requires var s := Run(Init, acts); o in s.db.ops && s.db.ops[o].state == Failed
    requires var t := Run(Init, acts + [act]); o in t.db.ops && t.db.ops[o].state != Failed
    ensures Run(Init, acts + [act]).db.ops[o].state == Active
    ensures act.OnTables? && act.t.AActivate? && AcknowledgedFor(Run(Init, acts), act.t.d, o)
  {
    var s := Run(Init, acts);
    hide Inv, Run, Step, Forward, AcknowledgedFor;
    RunAppend(Init, acts, [act]);
    RunSingle(s, act);
    Reached(acts);
    StepForward(s, act);
    FailedForward(s, Step(s, act), o);
    OnlyAckLeavesFailed(s, act, o);
  }

  lemma RunSingle(s: Sys, act: Action)
    ensures Run(s, [act]) == Step(s, act)
  {
    hide Step;
    assert [act][1..] == [];
  }

  lemma FailedForward(s: Sys, t: Sys, o: OperationId)
    requires Forward(s, t) && o in s.db.ops && s.db.ops[o].state == Failed
    ensures o in t.db.ops && t.db.ops[o].state in {Failed, Active}
  {
    hide RowsForward, DeliveriesForward;
    assert OpForward(s.db.ops[o], t.db.ops[o]);
  }

  predicate AcknowledgedFor(s: Sys, d: DeliveryId, o: OperationId) {
    && d in s.db.deliveries && s.db.deliveries[d].status == Acknowledged
    && o in s.db.ops && s.db.deliveries[d].attempt == AttemptId(o, s.db.ops[o].currentIndex)
  }

  lemma OnlyAckLeavesFailed(s: Sys, act: Action, o: OperationId)
    requires Inv(s) && o in s.db.ops && s.db.ops[o].state == Failed
    requires o in Step(s, act).db.ops && Step(s, act).db.ops[o].state == Active
    ensures act.OnTables? && act.t.AActivate? && AcknowledgedFor(s, act.t.d, o)
  {
    hide Inv, RecordCredential, WriteBack, InsertDelivery, ReleaseUnstarted, MarkUnknown, ClaimCreate, WriteEntitlement;
    hide CanClaim, CanStart, CanRelease, CanRecord, CanDeliver, AckAllowed, Finalized, EntitlementAllowed, Deletable;
    hide HousekeepingAllowed, AckBatch, RepairAck, AckCleanupClaim, ExpireDelivery, RepairInsert;
    RowsKeepOps(s.db);
    match act
    case OnTables(t) =>
      if t.AActivate? {
        assert ActivateApplies(s.db, t.d);
        assert AcknowledgedFor(s, t.d, o);
      } else {
        OtherTablesKeepFailed(s, t, o);
      }
    case ByRequest(p, r) => RequestKeepsFailed(s, p, r, o);
    case AtProvider(e) =>
    case ByWorker(p, w) => WorkerKeepsFailed(s, p, w, o);
  }

  lemma RowsKeepOps(db: Db)
    ensures forall a, h :: RecordCredential(db, a, h).ops == db.ops
    ensures forall d, e, recorded :: AckBatch(db, d, e, recorded).ops == db.ops
    ensures forall d :: RepairAck(db, d).ops == db.ops
    ensures forall d, at :: AckCleanupClaim(db, d, at).ops == db.ops
    ensures forall d, now :: ExpireDelivery(db, d, now).ops == db.ops
    ensures forall a :: RepairInsert(db, a).ops == db.ops
  {
  }

  lemma OtherTablesKeepFailed(s: Sys, t: TableAction, o: OperationId)
    requires o in s.db.ops && s.db.ops[o].state == Failed && !t.AActivate?
    ensures TableStep(s, t).db.ops[o].state == Failed
  {
    hide AckAllowed, Finalized, EntitlementAllowed, HousekeepingAllowed;
  }

  lemma RequestBatchesKeepFailed(db: Db, o: OperationId)
    requires o in db.ops && db.ops[o].state == Failed
    ensures forall q, seen, now :: StartBatch(db, q, seen, now).ops[o].state == Failed
    ensures forall q, to, index :: Transition(db, q, to, {Creating}, index).ops[o].state == Failed
    ensures forall q, to, index :: Transition(db, q, to, {Creating, CreateUnknown}, index).ops[o].state == Failed
  {
    hide EntitlementAllowed, AttemptsSettled, SubjectSettled, NoOpenDelivery;
  }

  lemma RequestKeepsFailed(s: Sys, p: Pid, r: RequestAction, o: OperationId)
    requires o in s.db.ops && s.db.ops[o].state == Failed
    ensures RequestStep(s, p, r).db.ops[o].state == Failed
  {
    hide StartBatch, Transition, EntitlementAllowed, CanStart, CanRelease, CanRecord, CanDeliver, CanMarkUnknown, CanClaimCreate;
    RequestBatchesKeepFailed(s.db, o);
  }

  lemma WorkerBatchesKeepFailed(db: Db, a: AttemptId, tok: Token, o: OperationId)
    requires o in db.ops && db.ops[o].state == Failed
    ensures forall now, cron :: o in ClaimBatch(db, a, tok, now, cron).ops && ClaimBatch(db, a, tok, now, cron).ops[o].state == Failed
    ensures forall next :: o in UncleanBatch(db, a, tok, next).ops && UncleanBatch(db, a, tok, next).ops[o].state == Failed
  {
    hide CanClaim, ExpireAll;
  }

  lemma CleanBatchKeepsFailed(db: Db, a: AttemptId, tok: Token, subject: Subject, key: Option<KeyHash>, now: Instant, o: OperationId)
    requires o in db.ops && db.ops[o].state == Failed
    ensures o in CleanBatch(db, a, tok, subject, key, now).ops && CleanBatch(db, a, tok, subject, key, now).ops[o].state == Failed
  {
    hide Deletable, ExpireAll;
  }

  lemma WorkerKeepsFailed(s: Sys, p: Pid, w: WorkerAction, o: OperationId)
    requires o in s.db.ops && s.db.ops[o].state == Failed
    ensures o in WorkerStep(s, p, w).db.ops && WorkerStep(s, p, w).db.ops[o].state == Failed
  {
    hide CanClaim, ClaimBatch, CleanBatch, UncleanBatch;
    match w
    case AClaim(a, _, _) => WorkerBatchesKeepFailed(s.db, a, s.nextToken, o);
    case AFinish(now) =>
      if p in s.procs && s.procs[p].Verdict? && s.procs[p].a.op in s.db.ops {
        var pc := s.procs[p];
        WorkerBatchesKeepFailed(s.db, pc.a, pc.token, o);
        CleanBatchKeepsFailed(s.db, pc.a, pc.token, s.db.ops[pc.a.op].subject, pc.credential, now, o);
      }
    case _ =>
  }

  // ---------- attempt numbers ----------

  /** The attempts of an operation are numbered 1 to attempt_count, the last one is current, all older
      ones are settled, and RETRY_READY means all of them are. */
  lemma AttemptNumbers(acts: seq<Action>, o: OperationId)
    requires o in Run(Init, acts).db.ops
    ensures var s := Run(Init, acts);
            var op := s.db.ops[o];
            && op.currentIndex == op.attemptCount
            && (forall i: nat :: AttemptId(o, i) in s.db.attempts <==> 1 <= i <= op.attemptCount)
            && (forall i: nat :: 1 <= i < op.attemptCount ==> Settled(s.db.attempts[AttemptId(o, i)]))
            && (op.state == RetryReady ==> forall i: nat :: 1 <= i <= op.attemptCount ==> Settled(s.db.attempts[AttemptId(o, i)]))
  {
    var s := Run(Init, acts);
    hide Inv, Run;
    Reached(acts);
    OpFacts(s, o);
    forall i: nat
      ensures AttemptId(o, i) in s.db.attempts <==> 1 <= i <= s.db.ops[o].attemptCount
      ensures 1 <= i < s.db.ops[o].attemptCount ==> Settled(s.db.attempts[AttemptId(o, i)])
    {
      if AttemptId(o, i) in s.db.attempts {
        RowFacts(s, AttemptId(o, i));
      }
    }
  }

  /** Once one start has won from a snapshot, every other start from that snapshot loses, however late. */
  lemma OneStartPerSnapshot(acts: seq<Action>, p: Pid, o: OperationId, seen: nat, now: Instant, more: seq<Action>, later: Instant)
    requires p !in Run(Init, acts).procs && CanStart(Run(Init, acts).db, o, seen, now)
    ensures var t := Run(Init, acts + [ByRequest(p, AStart(o, seen, now))] + more);
            && !CanStart(t.db, o, seen, later)
            && StartBatch(t.db, o, seen, later) == t.db
  {
    var s := Run(Init, acts);
    var act := ByRequest(p, AStart(o, seen, now));
    var s1 := Step(s, act);
    RunAppend(Init, acts, [act]);
    RunAppend(Init, acts + [act], more);
    assert Run(s, [act]) == s1 by { assert [act][1..] == []; }
    Reached(acts);
    StepKeeps(s, act);
    RunForward(s1, more);
    RunKeeps(s1, more);
    var t := Run(s1, more);
    hide Inv, Run, Step;
    StartBumps(s, p, o, seen, now);
    assert OpForward(s1.db.ops[o], t.db.ops[o]);
    LostStartIdle(t, o, seen, later);
  }

  lemma StartBumps(s: Sys, p: Pid, o: OperationId, seen: nat, now: Instant)
    requires p !in s.procs && CanStart(s.db, o, seen, now)
    ensures o in Step(s, ByRequest(p, AStart(o, seen, now))).db.ops
    ensures Step(s, ByRequest(p, AStart(o, seen, now))).db.ops[o].attemptCount == seen + 1
  {
    hide AttemptsSettled, SubjectSettled, NoOpenDelivery;
  }

  /** The repair insert of a cleanup never adds a row in a reachable state. */
  lemma RepairInsertNeverNeeded(acts: seq<Action>, a: AttemptId)
    ensures RepairInsert(Run(Init, acts).db, a) == Run(Init, acts).db
  {
    hide Inv, Run, RepairInsert;
    Reached(acts);
    RepairInsertIdle(Run(Init, acts), a);
  }
}
