/** The cleanup procedure of the store is a run of the protocol, so every promise about runs covers it. */
module CleanupRuns {
  import opened Wrappers
  import opened BrokerTypes
  import opened BrokerSql
  import opened BrokerStore
  import opened OperationGuards
  import opened OperationProtocol
  import opened OperationInvariant
  import opened OperationPreserved
  import opened OperationSteps
  import opened OperationSafety

  /** A lookup answer the provider can give in this state for attempt `a`. */
  predicate Honest(prov: Provider, a: AttemptId, scan: ScanAnswer) {
    match scan
    case Found(key) => key in prov.minted && prov.minted[key] == a
    case Missed(complete, _) => complete ==> forall h <- prov.live :: h in prov.minted ==> prov.minted[h] != a
  }

  function KeySteps(p: Pid, now: Instant, key: KeyHash, cleanup: CleanupAnswer): seq<Action> {
    [ByWorker(p, AReadTarget), ByWorker(p, ALocate(key)), ByWorker(p, APin),
     ByWorker(p, ADelete(true, cleanup.ok)), ByWorker(p, AVerify(cleanup.absent)), ByWorker(p, AFinish(now))]
  }

  function MissSteps(p: Pid, now: Instant, complete: bool, next: nat): seq<Action> {
    [ByWorker(p, AReadTarget), ByWorker(p, AScanMiss(complete, next)), ByWorker(p, AFinish(now))]
  }

  function AfterClaimSteps(t: Attempt, p: Pid, now: Instant, scan: ScanAnswer, cleanup: CleanupAnswer): seq<Action> {
    if t.credential.Some? then KeySteps(p, now, t.credential.value, cleanup)
    else match scan
      case Found(key) => KeySteps(p, now, key, cleanup)
      case Missed(complete, next) => MissSteps(p, now, complete, next)
  }

  /** The steps of one worker, from the repair insert to its last batch. */
  function CleanupSteps(s: Sys, p: Pid, a: AttemptId, now: Instant, cron: bool, scan: ScanAnswer, cleanup: CleanupAnswer): seq<Action> {
    var repaired := RepairInsert(s.db, a);
    [OnTables(ARepairInsert(a))]
    + ([ByWorker(p, AClaim(a, now, cron))]
       + if CanClaim(repaired, a, now, cron) then AfterClaimSteps(repaired.attempts[a], p, now, scan, cleanup) else [])
  }

  lemma RunFirst(s: Sys, act: Action, rest: seq<Action>)
    ensures Run(s, [act] + rest) == Run(Step(s, act), rest)
  {
    hide Step;
    assert ([act] + rest)[1..] == rest;
  }

  lemma RunOne(s: Sys, act: Action)
    ensures Run(s, [act]) == Step(s, act)
  {
    hide Step;
    assert [act][1..] == [];
  }

  /** With honest answers and a deletion that takes effect, the procedure ends as these steps do. */
  lemma CleanupIsARun(s: Sys, p: Pid, a: AttemptId, now: Instant, cron: bool, scan: ScanAnswer, cleanup: CleanupAnswer)
    requires p !in s.procs && a.index > 0 && a.op in s.db.ops && Honest(s.prov, a, scan)
    requires !HoldsToken(s.db, a, s.nextToken)
    ensures Run(s, CleanupSteps(s, p, a, now, cron, scan, cleanup)).db
            == Reconciled(s.db, a, s.db.ops[a.op].subject, s.nextToken, now, cron, scan, cleanup)
  {
    hide Run, Step, RepairInsert, CanClaim, PinCredential, CleanBatch, UncleanBatch, ClaimBatch, Honest, KeySteps, MissSteps;
    var begin := ByWorker(p, AClaim(a, now, cron));
    var s1 := Step(s, OnTables(ARepairInsert(a)));
    var s2 := Step(s1, begin);
    RepairStep(s, a);
    ClaimStep(s1, p, a, now, cron);
    if CanClaim(s1.db, a, now, cron) {
      ClaimedHolds(s1.db, a, s.nextToken, now, cron);
      var rest := AfterClaimSteps(s1.db.attempts[a], p, now, scan, cleanup);
      RunFirst(s, OnTables(ARepairInsert(a)), [begin] + rest);
      RunFirst(s1, begin, rest);
      AfterClaim(s2, p, a, s.nextToken, now, scan, cleanup);
    } else {
      RunFirst(s, OnTables(ARepairInsert(a)), [begin] + []);
      RunFirst(s1, begin, []);
      RunNone(s2);
    }
  }

  /** The same after any run from the empty tables: there the claim token is always a new one. */
  lemma CleanupExtendsAnyRun(acts: seq<Action>, p: Pid, a: AttemptId, now: Instant, cron: bool, scan: ScanAnswer, cleanup: CleanupAnswer)
    requires var s := Run(Init, acts);
             p !in s.procs && a.index > 0 && a.op in s.db.ops && Honest(s.prov, a, scan)
    ensures var s := Run(Init, acts);
            Run(Init, acts + CleanupSteps(s, p, a, now, cron, scan, cleanup)).db
            == Reconciled(s.db, a, s.db.ops[a.op].subject, s.nextToken, now, cron, scan, cleanup)
  {
    var s := Run(Init, acts);
    hide Inv, Run, Step, Reconciled, CleanupSteps, Honest;
    Reached(acts);
    if a in s.db.attempts {
      RowFacts(s, a);
    }
    RunAppend(Init, acts, CleanupSteps(s, p, a, now, cron, scan, cleanup));
    CleanupIsARun(s, p, a, now, cron, scan, cleanup);
  }

  lemma RepairStep(s: Sys, a: AttemptId)
    ensures Step(s, OnTables(ARepairInsert(a))) == WithDb(s, RepairInsert(s.db, a))
    ensures RepairInsert(s.db, a).ops == s.db.ops
  {
  }

  lemma ClaimStep(s: Sys, p: Pid, a: AttemptId, now: Instant, cron: bool)
    requires p !in s.procs && a.index > 0
    ensures var t := Step(s, ByWorker(p, AClaim(a, now, cron)));
            && t.db == ClaimBatch(s.db, a, s.nextToken, now, cron) && t.prov == s.prov
            && (CanClaim(s.db, a, now, cron) ==> p in t.procs && t.procs[p] == Claimed(a, s.nextToken))
  {
    hide ClaimBatch, CanClaim;
  }

  lemma RunNone(s: Sys)
    ensures Run(s, []) == s
  {
    hide Step;
  }

  lemma ClaimedHolds(db: Db, a: AttemptId, tok: Token, now: Instant, cron: bool)
    requires CanClaim(db, a, now, cron)
    ensures a in db.attempts && a.op in db.ops
    ensures var after := ClaimBatch(db, a, tok, now, cron);
            && HoldsToken(after, a, tok)
            && after.attempts[a].credential == db.attempts[a].credential
            && a.op in after.ops && after.ops[a.op].subject == db.ops[a.op].subject
  {
  }

  lemma AfterClaim(s: Sys, p: Pid, a: AttemptId, tok: Token, now: Instant, scan: ScanAnswer, cleanup: CleanupAnswer)
    requires p in s.procs && s.procs[p] == Claimed(a, tok) && HoldsToken(s.db, a, tok) && a.op in s.db.ops
    requires Honest(s.prov, a, scan)
    ensures var (key, complete, next) := ScanVerdict(s.db.attempts[a], scan);
            var pinned := if key.Some? then PinCredential(s.db, a, tok, key.value) else s.db;
            var clean := if key.Some? then cleanup.ok && cleanup.absent else complete;
            Run(s, AfterClaimSteps(s.db.attempts[a], p, now, scan, cleanup)).db
            == if clean then CleanBatch(pinned, a, tok, s.db.ops[a.op].subject, key, now)
               else UncleanBatch(pinned, a, tok, next)
  {
    hide Run, PinCredential, CleanBatch, UncleanBatch, KeySteps, MissSteps;
    var t := s.db.attempts[a];
    if t.credential.Some? {
      KeyPath(s, p, a, tok, now, t.credential.value, cleanup);
    } else {
      match scan
      case Found(key) => KeyPath(s, p, a, tok, now, key, cleanup);
      case Missed(complete, next) => MissPath(s, p, a, tok, now, complete, next);
    }
  }

  // ---------- the worker's steps one by one ----------

  lemma ReadTargetStep(s: Sys, p: Pid, a: AttemptId, tok: Token)
    requires p in s.procs && s.procs[p] == Claimed(a, tok) && HoldsToken(s.db, a, tok)
    ensures var t := s.db.attempts[a];
            Step(s, ByWorker(p, AReadTarget)) == Goto(s, p, Scanning(a, tok, t.credential, t.inFlight, t.scanOffset))
  {
  }

  lemma LocateStep(s: Sys, p: Pid, key: KeyHash)
    requires p in s.procs && s.procs[p].Scanning?
    requires s.procs[p].seen == Some(key)
             || (s.procs[p].seen.None? && key in s.prov.minted && s.prov.minted[key] == s.procs[p].a)
    ensures Step(s, ByWorker(p, ALocate(key))) == Goto(s, p, Pinning(s.procs[p].a, s.procs[p].token, key, s.procs[p].offset))
  {
  }

  lemma MissStep(s: Sys, p: Pid, complete: bool, next: nat)
    requires p in s.procs && s.procs[p].Scanning? && s.procs[p].seen.None?
    requires complete ==> forall h <- s.prov.live :: h in s.prov.minted ==> s.prov.minted[h] != s.procs[p].a
    ensures Step(s, ByWorker(p, AScanMiss(complete, next)))
            == Goto(s, p, Verdict(s.procs[p].a, s.procs[p].token, None, complete && !s.procs[p].seenInFlight, if complete then 0 else next))
  {
  }

  lemma PinStep(s: Sys, p: Pid)
    requires p in s.procs && s.procs[p].Pinning? && HoldsToken(s.db, s.procs[p].a, s.procs[p].token)
    ensures var pc := s.procs[p];
            Step(s, ByWorker(p, APin))
            == Goto(WithDb(s, PinCredential(s.db, pc.a, pc.token, pc.key)), p, Pinned(pc.a, pc.token, pc.key, pc.offset))
  {
    hide PinCredential;
  }

  lemma DeleteAndVerify(s: Sys, p: Pid, cleanup: CleanupAnswer)
    requires p in s.procs && s.procs[p].Pinned?
    ensures var pc := s.procs[p];
            var t := Step(Step(s, ByWorker(p, ADelete(true, cleanup.ok))), ByWorker(p, AVerify(cleanup.absent)));
            && t.db == s.db && p in t.procs
            && t.procs[p] == Verdict(pc.a, pc.token, Some(pc.key), cleanup.ok && cleanup.absent, pc.offset)
  {
  }

  lemma FinishStep(s: Sys, p: Pid, now: Instant)
    requires p in s.procs && s.procs[p].Verdict? && s.procs[p].a.op in s.db.ops
    ensures var pc := s.procs[p];
            Step(s, ByWorker(p, AFinish(now))).db
            == if pc.clean then CleanBatch(s.db, pc.a, pc.token, s.db.ops[pc.a.op].subject, pc.credential, now)
               else UncleanBatch(s.db, pc.a, pc.token, pc.offset)
  {
    hide CleanBatch, UncleanBatch;
  }

  /** From the claim on, with a key to delete. */
  lemma KeyPath(s: Sys, p: Pid, a: AttemptId, tok: Token, now: Instant, key: KeyHash, cleanup: CleanupAnswer)
    requires p in s.procs && s.procs[p] == Claimed(a, tok) && HoldsToken(s.db, a, tok) && a.op in s.db.ops
    requires s.db.attempts[a].credential == Some(key)
             || (s.db.attempts[a].credential.None? && key in s.prov.minted && s.prov.minted[key] == a)
    ensures var pinned := PinCredential(s.db, a, tok, key);
            Run(s, KeySteps(p, now, key, cleanup)).db
            == if cleanup.ok && cleanup.absent then CleanBatch(pinned, a, tok, s.db.ops[a.op].subject, Some(key), now)
               else UncleanBatch(pinned, a, tok, s.db.attempts[a].scanOffset)
  {
    hide Run, Step, PinCredential, CleanBatch, UncleanBatch;
    ReadTargetStep(s, p, a, tok);
    var s1 := Step(s, ByWorker(p, AReadTarget));
    LocateStep(s1, p, key);
    var s2 := Step(s1, ByWorker(p, ALocate(key)));
    PinStep(s2, p);
    var s3 := Step(s2, ByWorker(p, APin));
    DeleteAndVerify(s3, p, cleanup);
    var s4 := Step(Step(s3, ByWorker(p, ADelete(true, cleanup.ok))), ByWorker(p, AVerify(cleanup.absent)));
    PinKeepsOps(s.db, a, tok, key);
    FinishStep(s4, p, now);
    RunSix(s, ByWorker(p, AReadTarget), ByWorker(p, ALocate(key)), ByWorker(p, APin),
           ByWorker(p, ADelete(true, cleanup.ok)), ByWorker(p, AVerify(cleanup.absent)), ByWorker(p, AFinish(now)));
  }

  /** From the claim on, with nothing to delete. */
  lemma MissPath(s: Sys, p: Pid, a: AttemptId, tok: Token, now: Instant, complete: bool, next: nat)
    requires p in s.procs && s.procs[p] == Claimed(a, tok) && HoldsToken(s.db, a, tok) && a.op in s.db.ops
    requires s.db.attempts[a].credential.None?
    requires complete ==> forall h <- s.prov.live :: h in s.prov.minted ==> s.prov.minted[h] != a
    ensures Run(s, MissSteps(p, now, complete, next)).db
            == if complete && !s.db.attempts[a].inFlight then CleanBatch(s.db, a, tok, s.db.ops[a.op].subject, None, now)
               else UncleanBatch(s.db, a, tok, if complete then 0 else next)
  {
    hide Run, Step, CleanBatch, UncleanBatch;
    ReadTargetStep(s, p, a, tok);
    var s1 := Step(s, ByWorker(p, AReadTarget));
    MissStep(s1, p, complete, next);
    var s2 := Step(s1, ByWorker(p, AScanMiss(complete, next)));
    FinishStep(s2, p, now);
    RunThree(s, ByWorker(p, AReadTarget), ByWorker(p, AScanMiss(complete, next)), ByWorker(p, AFinish(now)));
  }

  lemma PinKeepsOps(db: Db, a: AttemptId, tok: Token, h: KeyHash)
    ensures PinCredential(db, a, tok, h).ops == db.ops
  {
  }

  lemma RunThree(s: Sys, a1: Action, a2: Action, a3: Action)
    ensures Run(s, [a1, a2, a3]) == Step(Step(Step(s, a1), a2), a3)
  {
    hide Run, Step;
    RunFirst(s, a1, [a2, a3]);
    RunFirst(Step(s, a1), a2, [a3]);
    RunOne(Step(Step(s, a1), a2), a3);
    assert [a1, a2, a3] == [a1] + [a2, a3] && [a2, a3] == [a2] + [a3];
  }

  lemma RunSix(s: Sys, a1: Action, a2: Action, a3: Action, a4: Action, a5: Action, a6: Action)
    ensures Run(s, [a1, a2, a3, a4, a5, a6]) == Step(Step(Step(Step(Step(Step(s, a1), a2), a3), a4), a5), a6)
  {
    hide Run, Step;
    RunThree(Step(Step(Step(s, a1), a2), a3), a4, a5, a6);
    RunFirst(s, a1, [a2, a3, a4, a5, a6]);
    RunFirst(Step(s, a1), a2, [a3, a4, a5, a6]);
    RunFirst(Step(Step(s, a1), a2), a3, [a4, a5, a6]);
    assert [a1, a2, a3, a4, a5, a6] == [a1] + [a2, a3, a4, a5, a6];
    assert [a2, a3, a4, a5, a6] == [a2] + [a3, a4, a5, a6];
    assert [a3, a4, a5, a6] == [a3] + [a4, a5, a6];
  }

  // ---------- what the procedure decides ----------

  /** A procedure that wins its claim cleans the attempt exactly if the key it knows or finds was deleted and then seen
      absent, or a complete lookup missed the name with no create in flight. Either way it gives the claim up, a key it
      knows or finds stays recorded, and the scan position of an unfinished lookup is kept for the next one. */
  lemma CleansExactly(db: Db, a: AttemptId, subject: Subject, tok: Token, now: Instant, cron: bool, scan: ScanAnswer, cleanup: CleanupAnswer)
    requires a.index > 0 && a in db.attempts && !HoldsToken(db, a, tok) && CanClaim(db, a, now, cron)
    ensures var t := db.attempts[a];
            var r := Reconciled(db, a, subject, tok, now, cron, scan, cleanup);
            var known := t.credential.Some? || scan.Found?;
            var clean := if known then cleanup.ok && cleanup.absent else scan.complete && !t.inFlight;
            && a in r.attempts
            && (r.attempts[a].outcome == Cleaned <==> clean)
            && r.attempts[a].token.None? && r.attempts[a].startedAt.None? && r.attempts[a].checkedAt == Some(now)
            && r.attempts[a].credential == (if t.credential.None? && scan.Found? then Some(scan.key) else t.credential)
            && (known ==> !r.attempts[a].inFlight) && (!known ==> r.attempts[a].inFlight == t.inFlight)
            && (forall e :: e in r.entitlements <==>
                  && e in db.entitlements
                  && !(clean && Doomed(db.entitlements[e], subject, if t.credential.None? && scan.Found? then Some(scan.key) else t.credential)))
            && r.attempts[a].scanOffset == (if clean || (!known && scan.complete) then 0 else if known then t.scanOffset else scan.nextOffset)
  {
    hide CanClaim, RepairInsert, ClaimBatch, CleanBatch, UncleanBatch;
    assert RepairInsert(db, a) == db by { RepairIdleOn(db, a); }
    ClaimKeepsToken(db, a, tok, now, cron);
    ClaimRow(db, a, tok, now, cron);
    var claimed := ClaimBatch(db, a, tok, now, cron);
    var (key, _, next) := ScanVerdict(claimed.attempts[a], scan);
    var pinned := if key.Some? then PinCredential(claimed, a, tok, key.value) else claimed;
    CleanedTables(pinned, a, tok, subject, key, now);
    UncleanTables(pinned, a, tok, next);
    forall e ensures e in CleanBatch(pinned, a, tok, subject, key, now).entitlements
                     <==> e in db.entitlements && !Doomed(db.entitlements[e], subject, key)
    {
      CleanedEntitlements(pinned, a, tok, subject, key, now, e);
    }
    hide Doomed;
  }

  lemma RepairIdleOn(db: Db, a: AttemptId)
    requires a in db.attempts
    ensures RepairInsert(db, a) == db
  {
  }

  lemma ClaimRow(db: Db, a: AttemptId, tok: Token, now: Instant, cron: bool)
    requires a in db.attempts && CanClaim(db, a, now, cron)
    ensures var t := ClaimBatch(db, a, tok, now, cron);
            && t.attempts == db.attempts[a := db.attempts[a].(token := Some(tok), startedAt := Some(now), checkedAt := Some(now))]
            && db.attempts[a].outcome != Cleaned && t.entitlements == db.entitlements
  {
    hide ClaimBatch;
    ClaimEffects(db, a, tok, now, cron);
    hide Finalized;
  }
}
