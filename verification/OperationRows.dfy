/** The life of one attempt, delivery and entitlement row in every run, and how long a cleanup claim is held. */
module OperationRows {
  import opened Wrappers
  import opened BrokerTypes
  import opened BrokerSql
  import opened OperationGuards
  import opened OperationProtocol
  import opened OperationInvariant
  import opened OperationPreserved
  import opened OperationSteps
  import opened OperationWorkers
  import opened OperationForward
  import opened OperationSafety
  import opened OperationCharts

  // ---------- attempts ----------

  /** An uncleaned, unclaimed attempt whose operation still takes a credential for it. */
  predicate Writable(db: Db, a: AttemptId) {
    && a in db.attempts && db.attempts[a].outcome != Cleaned && db.attempts[a].token.None?
    && a.op in db.ops && db.ops[a.op].state in {Creating, CreateUnknown, CleanupRequired, Failed}
  }

  /** An attempt for which nothing has been asked of the provider, in one of these states of its operation. */
  predicate Untried(db: Db, a: AttemptId, states: set<OperationState>) {
    && a in db.attempts && db.attempts[a].outcome == Unknown && !db.attempts[a].inFlight
    && db.attempts[a].credential.None? && db.attempts[a].token.None?
    && a.op in db.ops && db.ops[a.op].state in states
  }

  /** The key that a request brings with it when it records a credential. */
  function KeyToRecord(pc: Pc, r: RequestAction): Option<KeyHash> {
    match (r, pc)
    case (AAdopt, Adopting(_, key)) => Some(key)
    case (ARecord, Holding(_, key)) => Some(key)
    case (ARecord, Unwinding(_, known)) => known
    case _ => None
  }

  function WithKey(t: Attempt, key: KeyHash): Attempt {
    t.(credential := Some(key), outcome := Created)
  }

  /** What the request that owns an attempt makes of its row. */
  function NextByOwner(s: Sys, pc: Pc, r: RequestAction, a: AttemptId): Attempt
    requires a in s.db.attempts
  {
    var t := s.db.attempts[a];
    var key := KeyToRecord(pc, r);
    if key.Some? then
      if Writable(s.db, a) && (t.credential.None? || t.credential == key) then WithKey(t, key.value) else t
    else match r
      case ASendCreate => if pc.Fresh? && Untried(s.db, a, {Creating}) then t.(inFlight := true) else t
      case AWriteBack(_) =>
        if t.inFlight && pc.Answered? then WithKey(t, pc.key).(inFlight := false)
        else if t.inFlight && pc.Rejected? then t.(inFlight := false)
        else t
      case AMarkUnknown => if pc.Unwinding? && Writable(s.db, a) then t.(outcome := Unknown) else t
      case ARelease => if (pc.Fresh? || pc.Unwinding?) && Untried(s.db, a, {Creating, CreateUnknown}) then t.(outcome := Cleaned) else t
      case _ => t
  }

  function NextAttempt(s: Sys, act: Action, a: AttemptId): Attempt
    requires a in s.db.attempts
  {
    var t := s.db.attempts[a];
    if Wins(s, act, a) then t.(token := Some(s.nextToken), startedAt := Some(act.w.now), checkedAt := Some(act.w.now))
    else if Ends(s, act, a) then
      if s.procs[act.p].clean then t.(outcome := Cleaned, token := None, startedAt := None, scanOffset := 0)
      else t.(token := None, startedAt := None, scanOffset := s.procs[act.p].offset)
    else match act
      case ByRequest(p, r) => if p in s.procs && s.procs[p].a == a then NextByOwner(s, s.procs[p], r, a) else t
      case ByWorker(p, APin) =>
        if p in s.procs && s.procs[p].Pinning? && s.procs[p].a == a && t.token == Some(s.procs[p].token)
        then t.(credential := Some(s.procs[p].key), inFlight := false) else t
      case _ => t
  }

  /** Main result: in every run, what the next step makes of an attempt. */
  lemma AttemptChart(acts: seq<Action>, act: Action, a: AttemptId)
    requires a in Run(Init, acts).db.attempts
    ensures var t := Run(Init, acts + [act]);
            a in t.db.attempts && t.db.attempts[a] == NextAttempt(Run(Init, acts), act, a)
  {
    hide Inv, Run, Step, NextAttempt;
    NextState(acts, act);
    AttemptNext(Run(Init, acts), act, a);
  }

  lemma AttemptNext(s: Sys, act: Action, a: AttemptId)
    requires Inv(s) && a in s.db.attempts
    ensures a in Step(s, act).db.attempts && Step(s, act).db.attempts[a] == NextAttempt(s, act, a)
  {
    hide Inv, TableStep, RequestStep, WorkerStep, NextByOwner, NextAttempt;
    match act
    case OnTables(t) =>
      TablesKeepAttempts(s, t);
      TablesIdle(s, t, a);
    case ByRequest(p, r) => AttemptByRequest(s, p, r, a);
    case AtProvider(e) => AttemptByProvider(s, e, a);
    case ByWorker(p, w) => AttemptByWorker(s, p, w, a);
  }

  lemma TablesIdle(s: Sys, t: TableAction, a: AttemptId)
    requires a in s.db.attempts
    ensures NextAttempt(s, OnTables(t), a) == s.db.attempts[a]
  {
  }

  lemma TablesKeepAttempts(s: Sys, t: TableAction)
    requires Inv(s)
    ensures TableStep(s, t).db.attempts == s.db.attempts
  {
    hide Inv, AckAllowed, EntitlementAllowed, HousekeepingAllowed, FailApplies, TransitionApplies, ActivateApplies, RepairInsert;
    match t
    case ARepairInsert(b) => RepairInsertIdle(s, b);
    case _ =>
  }

  lemma AttemptByProvider(s: Sys, e: ProviderEvent, a: AttemptId)
    requires a in s.db.attempts
    ensures Step(s, AtProvider(e)).db == s.db
    ensures NextAttempt(s, AtProvider(e), a) == s.db.attempts[a]
  {
  }

  /** An attempt that is not cleaned is the current one of its operation. */
  lemma OpenIsCurrent(s: Sys, a: AttemptId)
    requires Inv(s) && a in s.db.attempts
    ensures a.op in s.db.ops
    ensures s.db.attempts[a].outcome != Cleaned ==> s.db.ops[a.op].currentIndex == a.index
  {
    hide Inv;
    RowFacts(s, a);
    OpFacts(s, a.op);
  }

  lemma AttemptByRequest(s: Sys, p: Pid, r: RequestAction, a: AttemptId)
    requires Inv(s) && a in s.db.attempts
    ensures a in RequestStep(s, p, r).db.attempts
    ensures RequestStep(s, p, r).db.attempts[a] == NextAttempt(s, ByRequest(p, r), a)
  {
    hide Inv, Start, Transition, InsertDelivery, WriteEntitlement, RequestStep, NextByOwner;
    if r.AStart? {
      AttemptByStart(s, p, r, a);
    } else if p in s.procs {
      PcFacts(s, p);
      AttemptByOwner(s, p, r, a);
    } else {
      assert RequestStep(s, p, r) == s by { NobodyActs(s, p, r); }
    }
  }

  lemma NobodyActs(s: Sys, p: Pid, r: RequestAction)
    requires p !in s.procs && !r.AStart?
    ensures RequestStep(s, p, r) == s
  {
  }

  lemma RequestStatementsKeepAttempts(db: Db)
    ensures forall o, to, from, guard :: Transition(db, o, to, from, guard).attempts == db.attempts
    ensures forall d, a, h, at :: InsertDelivery(db, d, a, h, at).attempts == db.attempts
    ensures forall e, subject, h, phase :: WriteEntitlement(db, e, subject, h, phase).attempts == db.attempts
  {
    hide EntitlementAllowed;
  }

  lemma AttemptByStart(s: Sys, p: Pid, r: RequestAction, a: AttemptId)
    requires Inv(s) && a in s.db.attempts && r.AStart?
    ensures a in RequestStep(s, p, r).db.attempts && RequestStep(s, p, r).db.attempts[a] == s.db.attempts[a]
    ensures NextAttempt(s, ByRequest(p, r), a) == s.db.attempts[a]
  {
    hide Inv, CanStart, StartBatch;
    if CanStart(s.db, r.o, r.seen, r.now) {
      StartedBatch(s, r.o, r.seen, r.now);
    } else {
      LostStartIdle(s, r.o, r.seen, r.now);
    }
  }

  /** The statements of a request, without the guards that hold in every reachable state. */
  lemma OwnerStatements(s: Sys, b: AttemptId, h: KeyHash)
    requires Inv(s) && b in s.db.attempts
    ensures var db := s.db;
            var t := db.attempts[b];
            && RecordCredential(db, b, h).attempts
               == (if Writable(db, b) && (t.credential.None? || t.credential == Some(h)) then db.attempts[b := WithKey(t, h)] else db.attempts)
            && MarkUnknown(db, b).attempts == (if Writable(db, b) then db.attempts[b := t.(outcome := Unknown)] else db.attempts)
            && (CanClaimCreate(db, b) <==> Untried(db, b, {Creating}))
            && (CanRelease(db, b) <==> Untried(db, b, {Creating, CreateUnknown}))
  {
    hide Inv;
    OpenIsCurrent(s, b);
    if d :| d in s.db.deliveries && s.db.deliveries[d].attempt == b {
      DeliveryFacts(s, d);
    }
  }

  lemma AttemptByOwner(s: Sys, p: Pid, r: RequestAction, a: AttemptId)
    requires Inv(s) && a in s.db.attempts && p in s.procs && s.procs[p].a in s.db.attempts && !r.AStart?
    ensures a in RequestStep(s, p, r).db.attempts
    ensures RequestStep(s, p, r).db.attempts[a] == if s.procs[p].a == a then NextByOwner(s, s.procs[p], r, a) else s.db.attempts[a]
  {
    hide Inv, RequestStep, NextByOwner;
    match r
    case AAdopt => AttemptByRecord(s, p, r, a);
    case ARecord => AttemptByRecord(s, p, r, a);
    case ASendCreate => AttemptBySend(s, p, r, a);
    case AWriteBack(_) => AttemptBySend(s, p, r, a);
    case AMarkUnknown => AttemptByRelease(s, p, r, a);
    case ARelease => AttemptByRelease(s, p, r, a);
    case _ => AttemptByOthers(s, p, r, a);
  }

  lemma AttemptByRecord(s: Sys, p: Pid, r: RequestAction, a: AttemptId)
    requires Inv(s) && a in s.db.attempts && p in s.procs && s.procs[p].a in s.db.attempts && (r.AAdopt? || r.ARecord?)
    ensures a in RequestStep(s, p, r).db.attempts
    ensures RequestStep(s, p, r).db.attempts[a] == if s.procs[p].a == a then NextByOwner(s, s.procs[p], r, a) else s.db.attempts[a]
  {
    hide Inv, RecordCredential, Writable, CanRecord;
    var key := KeyToRecord(s.procs[p], r);
    OwnerStatements(s, s.procs[p].a, if key.Some? then key.value else 0);
  }

  lemma AttemptBySend(s: Sys, p: Pid, r: RequestAction, a: AttemptId)
    requires Inv(s) && a in s.db.attempts && p in s.procs && s.procs[p].a in s.db.attempts && (r.ASendCreate? || r.AWriteBack?)
    ensures a in RequestStep(s, p, r).db.attempts
    ensures RequestStep(s, p, r).db.attempts[a] == if s.procs[p].a == a then NextByOwner(s, s.procs[p], r, a) else s.db.attempts[a]
  {
    hide Inv, Writable, CanClaimCreate, Untried;
    OwnerStatements(s, s.procs[p].a, 0);
  }

  lemma AttemptByRelease(s: Sys, p: Pid, r: RequestAction, a: AttemptId)
    requires Inv(s) && a in s.db.attempts && p in s.procs && s.procs[p].a in s.db.attempts && (r.AMarkUnknown? || r.ARelease?)
    ensures a in RequestStep(s, p, r).db.attempts
    ensures RequestStep(s, p, r).db.attempts[a] == if s.procs[p].a == a then NextByOwner(s, s.procs[p], r, a) else s.db.attempts[a]
  {
    hide Inv, Writable, MarkUnknown, CanRelease, Untried;
    OwnerStatements(s, s.procs[p].a, 0);
  }

  lemma AttemptByOthers(s: Sys, p: Pid, r: RequestAction, a: AttemptId)
    requires a in s.db.attempts && p in s.procs
    requires !r.AStart? && !r.AAdopt? && !r.ARecord? && !r.ASendCreate? && !r.AWriteBack? && !r.AMarkUnknown? && !r.ARelease?
    ensures RequestStep(s, p, r).db.attempts == s.db.attempts
    ensures NextByOwner(s, s.procs[p], r, a) == s.db.attempts[a]
  {
    hide Transition, InsertDelivery, WriteEntitlement, CanDeliver;
    RequestStatementsKeepAttempts(s.db);
  }

  lemma AttemptByWorker(s: Sys, p: Pid, w: WorkerAction, a: AttemptId)
    requires Inv(s) && a in s.db.attempts
    ensures a in WorkerStep(s, p, w).db.attempts
    ensures WorkerStep(s, p, w).db.attempts[a] == NextAttempt(s, ByWorker(p, w), a)
  {
    hide Inv, Claim, Finish;
    match w
    case AClaim(b, now, cron) => AttemptByClaim(s, p, b, now, cron, a);
    case AFinish(now) => AttemptByFinish(s, p, now, a);
    case _ =>
  }

  lemma AttemptByClaim(s: Sys, p: Pid, b: AttemptId, now: Instant, cron: bool, a: AttemptId)
    requires Inv(s) && a in s.db.attempts
    ensures a in Claim(s, p, b, now, cron).db.attempts
    ensures Claim(s, p, b, now, cron).db.attempts[a] == NextAttempt(s, ByWorker(p, AClaim(b, now, cron)), a)
  {
    hide Inv, CanClaim, ClaimBatch, Wins;
    WinsIsClaim(s, p, b, now, cron);
    WinsItsOwn(s, p, b, now, cron, a);
    if CanClaim(s.db, b, now, cron) {
      NoneAcknowledged(s.db, b, now, cron);
      ClaimEffects(s.db, b, s.nextToken, now, cron);
    }
  }

  lemma AttemptByFinish(s: Sys, p: Pid, now: Instant, a: AttemptId)
    requires Inv(s) && a in s.db.attempts
    ensures a in Finish(s, p, now).db.attempts
    ensures Finish(s, p, now).db.attempts[a] == NextAttempt(s, ByWorker(p, AFinish(now)), a)
  {
    hide Inv, CleanBatch, UncleanBatch;
    if p in s.procs && s.procs[p].Verdict? {
      var pc := s.procs[p];
      PcFacts(s, p);
      RowFacts(s, pc.a);
      var subject := s.db.ops[pc.a.op].subject;
      if HoldsToken(s.db, pc.a, pc.token) {
        CleanedTables(s.db, pc.a, pc.token, subject, pc.credential, now);
        UncleanTables(s.db, pc.a, pc.token, pc.offset);
      } else {
        LostBatches(s.db, pc.a, pc.token, subject, pc.credential, now, pc.offset);
      }
    }
  }

  // ---------- how long a claim is held ----------

  /** This step takes the claim on an attempt over: at least 16 minutes after it began, and with no granted
      entitlement for the key of the attempt. */
  predicate TakesOver(s: Sys, act: Action, a: AttemptId) {
    && act.ByWorker? && act.w.AClaim? && act.w.a == a && act.p !in s.procs
    && a in s.db.attempts && s.db.attempts[a].startedAt.Some? && act.w.now >= s.db.attempts[a].startedAt.value + 960_000
    && (s.db.attempts[a].credential.Some? ==>
          forall e <- s.db.entitlements.Keys :: s.db.entitlements[e].credential == s.db.attempts[a].credential
              ==> s.db.entitlements[e].phase != Granted)
  }

  lemma HeldFacts(s: Sys, a: AttemptId, tok: Token)
    requires Inv(s) && HoldsToken(s.db, a, tok)
    ensures tok < s.nextToken && a in s.claimed && s.db.attempts[a].startedAt.Some? && s.db.attempts[a].outcome != Cleaned
    ensures a.op in s.db.ops && s.db.ops[a.op].currentIndex == a.index && s.db.ops[a.op].state in {Reconciling, Failed}
    ensures forall d <- s.db.deliveries.Keys :: s.db.deliveries[d].attempt == a ==> s.db.deliveries[d].status == Expired
  {
    hide Inv;
    RowFacts(s, a);
    forall d <- s.db.deliveries.Keys | s.db.deliveries[d].attempt == a ensures s.db.deliveries[d].status == Expired {
      DeliveryFacts(s, d);
    }
  }

  lemma HeldStep(s: Sys, act: Action, a: AttemptId, tok: Token)
    requires Inv(s) && HoldsToken(s.db, a, tok)
    ensures var t := Step(s, act);
            && a in t.db.attempts
            && (HoldsToken(t.db, a, tok) <==> !TakesOver(s, act, a) && !Ends(s, act, a))
            && (HoldsToken(t.db, a, tok) ==> t.db.attempts[a].startedAt == s.db.attempts[a].startedAt)
            && (TakesOver(s, act, a) ==> t.db.attempts[a].token == Some(s.nextToken) && t.procs == s.procs[act.p := Claimed(a, s.nextToken)])
  {
    hide Inv, Step, Ends;
    AttemptNext(s, act, a);
    HeldFacts(s, a, tok);
    assert Wins(s, act, a) <==> TakesOver(s, act, a);
    assert act.ByWorker? && act.w.AClaim? ==> !Ends(s, act, a) by { ClaimEndsNothing(s, act, a); }
    if TakesOver(s, act, a) {
      TakenBy(s, act, a);
    }
  }

  lemma ClaimEndsNothing(s: Sys, act: Action, a: AttemptId)
    ensures act.ByWorker? && act.w.AClaim? ==> !Ends(s, act, a)
  {
  }

  lemma TakenBy(s: Sys, act: Action, a: AttemptId)
    requires Inv(s) && Wins(s, act, a)
    ensures Step(s, act).procs == s.procs[act.p := Claimed(a, s.nextToken)]
  {
    hide Inv, CanClaim, ClaimBatch;
    RowFacts(s, a);
    WinsIsClaim(s, act.p, a, act.w.now, act.w.cron);
  }

  /** Main result: in every run a held claim is still held later exactly if no step in between takes it over after
      its 16 minutes and its holder does not end it; while it is held its start time stays. */
  lemma {:induction false} HeldExactly(acts: seq<Action>, more: seq<Action>, a: AttemptId, tok: Token)
    requires HoldsToken(Run(Init, acts).db, a, tok)
    ensures var t := Run(Init, acts + more);
            && (HoldsToken(t.db, a, tok)
                <==> forall i | 0 <= i < |more| ::
                       !TakesOver(Run(Init, acts + more[..i]), more[i], a) && !Ends(Run(Init, acts + more[..i]), more[i], a))
            && (HoldsToken(t.db, a, tok) ==> t.db.attempts[a].startedAt == Run(Init, acts).db.attempts[a].startedAt)
    decreases |more|
  {
    hide Inv, Run, Step, TakesOver, Ends;
    if more == [] {
      assert acts + more == acts;
    } else {
      var n := |more| - 1;
      var some := more[..n];
      var s := Run(Init, acts + some);
      HeldExactly(acts, some, a, tok);
      forall i | 0 <= i < n ensures some[..i] == more[..i] && some[i] == more[i] {}
      assert acts + more == (acts + some) + [more[n]];
      NextState(acts + some, more[n]);
      if HoldsToken(s.db, a, tok) {
        HeldStep(s, more[n], a, tok);
      } else {
        LostStaysLost(acts, some, more, a, tok);
      }
    }
  }

  lemma LostStaysLost(acts: seq<Action>, some: seq<Action>, more: seq<Action>, a: AttemptId, tok: Token)
    requires |some| < |more| && some == more[..|some|]
    requires HoldsToken(Run(Init, acts).db, a, tok) && !HoldsToken(Run(Init, acts + some).db, a, tok)
    ensures !HoldsToken(Run(Init, acts + more).db, a, tok)
  {
    hide Inv, Run, OpsForward, DeliveriesForward;
    Later(acts, some);
    var rest := more[|some|..];
    assert acts + more == (acts + some) + rest;
    Later(acts + some, rest);
    HeldFacts(Run(Init, acts), a, tok);
    assert RowForward(Run(Init, acts + some).db.attempts[a], Run(Init, (acts + some) + rest).db.attempts[a], Run(Init, acts + some).nextToken);
  }

  /** So no claim with a reading before the 16 minutes are over takes it, in any run. */
  lemma RunningClaimIsSafe(acts: seq<Action>, more: seq<Action>, a: AttemptId, tok: Token)
    requires HoldsToken(Run(Init, acts).db, a, tok) && Run(Init, acts).db.attempts[a].startedAt.Some?
    requires forall act <- more :: act.ByWorker? && act.w.AClaim? && act.w.a == a ==>
               act.w.now < Run(Init, acts).db.attempts[a].startedAt.value + 960_000
    requires forall i | 0 <= i < |more| :: !Ends(Run(Init, acts + more[..i]), more[i], a)
    ensures HoldsToken(Run(Init, acts + more).db, a, tok)
    decreases |more|
  {
    hide Inv, Run, Step, Ends;
    if more == [] {
      assert acts + more == acts;
    } else {
      var n := |more| - 1;
      var some := more[..n];
      forall i | 0 <= i < n ensures some[..i] == more[..i] && some[i] == more[i] {}
      RunningClaimIsSafe(acts, some, a, tok);
      HeldExactly(acts, some, a, tok);
      assert acts + more == (acts + some) + [more[n]];
      NextState(acts + some, more[n]);
      HeldStep(Run(Init, acts + some), more[n], a, tok);
      assert more[n] in more;
    }
  }

  /** And one that is left for 16 minutes can be taken over, unless the key of the attempt is granted. */
  lemma AbandonedClaimIsTaken(acts: seq<Action>, p: Pid, a: AttemptId, tok: Token, now: Instant, cron: bool)
    requires var s := Run(Init, acts);
             && HoldsToken(s.db, a, tok) && p !in s.procs
             && (s.db.attempts[a].startedAt.Some? ==> now >= s.db.attempts[a].startedAt.value + 960_000)
             && forall e <- s.db.entitlements.Keys :: s.db.entitlements[e].phase == Granted ==>
                  s.db.entitlements[e].credential.None? || s.db.entitlements[e].credential != s.db.attempts[a].credential
    ensures var s := Run(Init, acts);
            var t := Run(Init, acts + [ByWorker(p, AClaim(a, now, cron))]);
            && p in t.procs && t.procs[p] == Claimed(a, s.nextToken)
            && HoldsToken(t.db, a, s.nextToken) && t.db.attempts[a].startedAt == Some(now)
  {
    hide Inv, Run, Step;
    NextState(acts, ByWorker(p, AClaim(a, now, cron)));
    HeldFacts(Run(Init, acts), a, tok);
    HeldStep(Run(Init, acts), ByWorker(p, AClaim(a, now, cron)), a, tok);
    AttemptNext(Run(Init, acts), ByWorker(p, AClaim(a, now, cron)), a);
  }
}
