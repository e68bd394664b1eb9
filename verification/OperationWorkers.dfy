/** Every step keeps the invariant: starting an attempt, the provider, and cleanup workers. */
module OperationWorkers {
  import opened Wrappers
  import opened BrokerTypes
  import opened BrokerSql
  import opened OperationProtocol
  import opened OperationInvariant
  import opened OperationPreserved
  import opened OperationSteps

  // ---------- starting an attempt ----------

  /** The operation row after a start that claimed it. */
  function StartedOp(op: Operation): Operation {
    op.(state := Creating, clientAction := Wait, attemptCount := op.attemptCount + 1, currentIndex := op.attemptCount + 1)
  }

  lemma StartTables(db: Db, prov: Provider, claimed: set<AttemptId>, nextToken: Token, o: OperationId, now: Instant)
    requires TablesOk(db, prov, claimed, nextToken) && o in db.ops && CanStart(db, o, db.ops[o].attemptCount, now)
    ensures var a := AttemptId(o, db.ops[o].attemptCount + 1);
            && a !in db.attempts
            && StartBatch(db, o, db.ops[o].attemptCount, now)
               == SetAttempt(SetOp(db, o, StartedOp(db.ops[o])), a, FreshAttempt)
  {
    hide TablesOk, CanStart, AttemptOk;
    var a := AttemptId(o, db.ops[o].attemptCount + 1);
    NextIndexIsFree(db, prov, claimed, nextToken, o);
  }

  lemma NextIndexIsFree(db: Db, prov: Provider, claimed: set<AttemptId>, nextToken: Token, o: OperationId)
    requires TablesOk(db, prov, claimed, nextToken) && o in db.ops
    ensures AttemptId(o, db.ops[o].attemptCount + 1) !in db.attempts
  {
    hide Credentials, OneOpen, Operations, Indices, Currents, Keys, OneKeyEach, Pendings, Deliveries, Entitlements, ClaimedKnown;
    forall a <- db.attempts.Keys | a.op == o ensures a.index <= db.ops[o].attemptCount {
      assert AttemptOk(db.attempts, db.ops, claimed, nextToken, a);
    }
  }

  lemma StartRows(rows: Rows, ops: Ops, claimed: set<AttemptId>, nextToken: Token, o: OperationId)
    requires Attempts(rows, ops, claimed, nextToken) && Operations(ops) && o in ops && ops[o].state != Failed
    requires forall b <- rows.Keys :: b.op == o ==> Settled(rows[b])
    ensures var ops' := ops[o := StartedOp(ops[o])];
            var rows' := rows[AttemptId(o, ops[o].attemptCount + 1) := FreshAttempt];
            Attempts(rows', ops', claimed, nextToken) && Operations(ops')
  {
    var ops' := ops[o := StartedOp(ops[o])];
    var rows' := rows[AttemptId(o, ops[o].attemptCount + 1) := FreshAttempt];
    forall b <- rows'.Keys ensures AttemptOk(rows', ops', claimed, nextToken, b) {
      assert b in rows ==> AttemptOk(rows, ops, claimed, nextToken, b);
    }
    forall k <- ops'.Keys ensures OperationOk(ops'[k]) {
      assert OperationOk(ops[k]);
    }
  }

  lemma StartOneOpen(db: Db, claimed: set<AttemptId>, nextToken: Token, o: OperationId)
    requires Attempts(db.attempts, db.ops, claimed, nextToken) && OneOpen(db.attempts, db.ops) && o in db.ops
    requires AttemptsSettled(db, o) && SubjectSettled(db, o)
    ensures OneOpen(db.attempts[AttemptId(o, db.ops[o].attemptCount + 1) := FreshAttempt], db.ops[o := StartedOp(db.ops[o])])
  {
    var a := AttemptId(o, db.ops[o].attemptCount + 1);
    var rows' := db.attempts[a := FreshAttempt];
    var ops' := db.ops[o := StartedOp(db.ops[o])];
    forall b <- rows'.Keys, c <- rows'.Keys | b != c && SameSubject(ops', b, c)
      ensures Settled(rows'[b]) || Settled(rows'[c])
    {
      assert SameSubject(db.ops, b, c);
    }
  }

  lemma StartFocus(rows: Rows, ops: Ops, claimed: set<AttemptId>, minted: Minted, o: OperationId)
    requires Indices(rows, ops) && Currents(rows, ops, claimed, minted) && ClaimedKnown(rows, claimed)
    requires o in ops && AttemptId(o, ops[o].attemptCount + 1) !in rows
    ensures var ops' := ops[o := StartedOp(ops[o])];
            var rows' := rows[AttemptId(o, ops[o].attemptCount + 1) := FreshAttempt];
            Indices(rows', ops') && Currents(rows', ops', claimed, minted) && ClaimedKnown(rows', claimed)
  {
    var ops' := ops[o := StartedOp(ops[o])];
    var rows' := rows[AttemptId(o, ops[o].attemptCount + 1) := FreshAttempt];
    forall k <- ops'.Keys ensures Indexed(rows', k, ops'[k].attemptCount) {
      assert Indexed(rows, k, ops[k].attemptCount);
    }
    forall k <- ops'.Keys
      ensures CurrentOk(rows', claimed, minted, AttemptId(k, ops'[k].currentIndex), ops'[k].state)
    {
      assert CurrentOk(rows, claimed, minted, AttemptId(k, ops[k].currentIndex), ops[k].state);
    }
  }

  lemma StartProvider(db: Db, prov: Provider, claimed: set<AttemptId>, a: AttemptId)
    requires a !in db.attempts
    requires Credentials(db.attempts, prov.minted, prov.nextHash) && Keys(db.attempts, prov, claimed) && Pendings(db.attempts, prov)
    requires Deliveries(db.deliveries, db.attempts, prov.minted, claimed)
    ensures var rows' := db.attempts[a := FreshAttempt];
            && Credentials(rows', prov.minted, prov.nextHash) && Keys(rows', prov, claimed) && Pendings(rows', prov)
            && Deliveries(db.deliveries, rows', prov.minted, claimed)
            && NoKeyOf(prov, a)
  {
    var rows' := db.attempts[a := FreshAttempt];
    forall b <- rows'.Keys ensures CredentialOk(rows', prov.minted, prov.nextHash, b) {
      assert b != a ==> CredentialOk(db.attempts, prov.minted, prov.nextHash, b);
    }
    forall h <- prov.minted.Keys ensures KeyOk(rows', prov, claimed, h) {
      assert KeyOk(db.attempts, prov, claimed, h);
    }
    forall b <- prov.pending ensures PendingOk(rows', b) {
      assert PendingOk(db.attempts, b);
    }
    forall d <- db.deliveries.Keys ensures DeliveryOk(rows', prov.minted, claimed, db.deliveries[d]) {
      assert DeliveryOk(db.attempts, prov.minted, claimed, db.deliveries[d]);
    }
    assert a in prov.pending ==> PendingOk(db.attempts, a);
  }

  lemma StartOthers(s: Sys, o: OperationId, p: Pid)
    requires o in s.db.ops && AttemptId(o, s.db.ops[o].attemptCount + 1) !in s.db.attempts && p !in s.procs
    requires Entitlements(s.db.entitlements, s.db.ops, s.prov)
    requires Procs(s.procs, s.db.attempts, s.db.ops, s.prov, s.claimed, s.nextToken) && ProcsApart(s.procs)
    requires NoKeyOf(s.prov, AttemptId(o, s.db.ops[o].attemptCount + 1))
    ensures var a := AttemptId(o, s.db.ops[o].attemptCount + 1);
            var ops' := s.db.ops[o := StartedOp(s.db.ops[o])];
            && Entitlements(s.db.entitlements, ops', s.prov)
            && Procs(s.procs[p := Fresh(a)], s.db.attempts[a := FreshAttempt], ops', s.prov, s.claimed, s.nextToken)
            && ProcsApart(s.procs[p := Fresh(a)])
  {
    var a := AttemptId(o, s.db.ops[o].attemptCount + 1);
    var ops' := s.db.ops[o := StartedOp(s.db.ops[o])];
    var rows' := s.db.attempts[a := FreshAttempt];
    var procs' := s.procs[p := Fresh(a)];
    forall e <- s.db.entitlements.Keys ensures EntitlementOk(ops', s.prov, s.db.entitlements[e]) {
      assert EntitlementOk(s.db.ops, s.prov, s.db.entitlements[e]);
    }
    forall q <- procs'.Keys ensures PcOk(rows', ops', s.prov, s.claimed, s.nextToken, procs'[q]) {
      assert q != p ==> PcOk(s.db.attempts, s.db.ops, s.prov, s.claimed, s.nextToken, s.procs[q]);
    }
    forall q <- procs'.Keys, r <- procs'.Keys | q != r ensures Apart(procs'[q], procs'[r]) {
      assert q != p ==> PcOk(s.db.attempts, s.db.ops, s.prov, s.claimed, s.nextToken, s.procs[q]);
      assert r != p ==> PcOk(s.db.attempts, s.db.ops, s.prov, s.claimed, s.nextToken, s.procs[r]);
    }
  }

  /** A start that did not claim the operation changes nothing: its insert finds the row in place. */
  lemma LostStartIdle(s: Sys, o: OperationId, seen: nat, now: Instant)
    requires Inv(s) && !CanStart(s.db, o, seen, now)
    ensures StartBatch(s.db, o, seen, now) == s.db
  {
    hide Inv;
    if o in s.db.ops {
      OpFacts(s, o);
    }
  }

  lemma StartKeeps(s: Sys, p: Pid, o: OperationId, seen: nat, now: Instant)
    requires Inv(s)
    ensures Inv(Start(s, p, o, seen, now))
  {
    hide Attempts, Credentials, OneOpen, Operations, Indices, Currents, Keys, OneKeyEach, Pendings, Deliveries;
    hide Entitlements, ClaimedKnown, Procs, ProcsApart, NoKeyOf, AttemptsSettled, SubjectSettled, NoOpenDelivery;
    if p !in s.procs {
      if CanStart(s.db, o, seen, now) {
        StartTables(s.db, s.prov, s.claimed, s.nextToken, o, now);
        StartRows(s.db.attempts, s.db.ops, s.claimed, s.nextToken, o) by { SettledAttempts(s.db, o); }
        StartOneOpen(s.db, s.claimed, s.nextToken, o);
        StartFocus(s.db.attempts, s.db.ops, s.claimed, s.prov.minted, o);
        StartProvider(s.db, s.prov, s.claimed, AttemptId(o, seen + 1));
        StartOthers(s, o, p);
      } else {
        LostStartIdle(s, o, seen, now);
      }
    }
  }

  lemma SettledAttempts(db: Db, o: OperationId)
    requires AttemptsSettled(db, o)
    ensures forall b <- db.attempts.Keys :: b.op == o ==> Settled(db.attempts[b])
  {
  }

  // ---------- sending and rejecting a create ----------

  lemma SendCreateProcs(s: Sys, p: Pid, a: AttemptId)
    requires Procs(s.procs, s.db.attempts, s.db.ops, s.prov, s.claimed, s.nextToken) && ProcsApart(s.procs)
    requires p in s.procs && s.procs[p] == Fresh(a) && CanClaimCreate(s.db, a)
    ensures Procs(s.procs[p := Requested(a)], s.db.attempts[a := s.db.attempts[a].(inFlight := true)], s.db.ops,
                  s.prov.(pending := s.prov.pending + {a}), s.claimed, s.nextToken)
  {
    var procs' := s.procs[p := Requested(a)];
    var rows' := s.db.attempts[a := s.db.attempts[a].(inFlight := true)];
    var prov' := s.prov.(pending := s.prov.pending + {a});
    forall q <- procs'.Keys ensures PcOk(rows', s.db.ops, prov', s.claimed, s.nextToken, procs'[q]) {
      assert PcOk(s.db.attempts, s.db.ops, s.prov, s.claimed, s.nextToken, s.procs[q]);
      assert q != p ==> Apart(s.procs[p], s.procs[q]);
    }
  }

  lemma SendCreateTables(db: Db, prov: Provider, claimed: set<AttemptId>, nextToken: Token, a: AttemptId)
    requires TablesOk(db, prov, claimed, nextToken) && CanClaimCreate(db, a) && NoKeyOf(prov, a)
    ensures TablesOk(ClaimCreate(db, a), prov.(pending := prov.pending + {a}), claimed, nextToken)
  {
    hide Credentials, OneOpen, Operations, Indices, Currents, OneKeyEach, Deliveries, Entitlements, ClaimedKnown;
    var t := db.attempts[a].(inFlight := true);
    var prov' := prov.(pending := prov.pending + {a});
    assert RowChange(db.attempts, prov, a, t) && AttemptOk(db.attempts[a := t], db.ops, claimed, nextToken, a) by {
      assert AttemptOk(db.attempts, db.ops, claimed, nextToken, a);
    }
    RowTables(db, prov, claimed, nextToken, a, t);
    assert Keys(db.attempts[a := t], prov', claimed) by {
      hide Attempts, Pendings, RowChange, AttemptOk;
      forall h <- prov'.minted.Keys ensures KeyOk(db.attempts[a := t], prov', claimed, h) {
        assert KeyOk(db.attempts[a := t], prov, claimed, h);
      }
    }
    assert Entitlements(db.entitlements, db.ops, prov') by { SamePendingEntitlements(db, prov, prov'); }
  }

  lemma SamePendingEntitlements(db: Db, prov: Provider, after: Provider)
    requires Entitlements(db.entitlements, db.ops, prov)
    requires after.minted == prov.minted && after.nextHash == prov.nextHash
    ensures Entitlements(db.entitlements, db.ops, after)
  {
    forall e <- db.entitlements.Keys ensures EntitlementOk(db.ops, after, db.entitlements[e]) {
      assert EntitlementOk(db.ops, prov, db.entitlements[e]);
    }
  }

  lemma SendCreateKeeps(s: Sys, p: Pid)
    requires Inv(s)
    ensures Inv(SendCreate(s, p))
  {
    if p in s.procs && s.procs[p].Fresh? {
      var a := s.procs[p].a;
      if CanClaimCreate(s.db, a) {
        PcFacts(s, p);
        hide TablesOk, Procs, ProcsApart, NoKeyOf;
        SendCreateTables(s.db, s.prov, s.claimed, s.nextToken, a);
        SendCreateProcs(s, p, a);
        ApartMoved(s.procs, p, Requested(a));
      } else {
        hide Inv;
        PcFacts(s, p);
        MoveKeeps(s, p, Unwinding(a, None));
      }
    }
  }

  // ---------- events at the provider ----------

  lemma UnpendTables(db: Db, prov: Provider, claimed: set<AttemptId>, nextToken: Token, a: AttemptId)
    requires TablesOk(db, prov, claimed, nextToken)
    ensures TablesOk(db, prov.(pending := prov.pending - {a}), claimed, nextToken)
  {
    hide Attempts, Credentials, OneOpen, Operations, Indices, Currents, OneKeyEach, Deliveries, Entitlements, ClaimedKnown;
    var prov' := prov.(pending := prov.pending - {a});
    forall h <- prov'.minted.Keys ensures KeyOk(db.attempts, prov', claimed, h) {
      assert KeyOk(db.attempts, prov, claimed, h);
    }
    SamePendingEntitlements(db, prov, prov');
  }

  lemma UnpendProcs(s: Sys, a: AttemptId)
    requires Procs(s.procs, s.db.attempts, s.db.ops, s.prov, s.claimed, s.nextToken)
    ensures Procs(s.procs, s.db.attempts, s.db.ops, s.prov.(pending := s.prov.pending - {a}), s.claimed, s.nextToken)
  {
    var prov' := s.prov.(pending := s.prov.pending - {a});
    forall p <- s.procs.Keys ensures PcOk(s.db.attempts, s.db.ops, prov', s.claimed, s.nextToken, s.procs[p]) {
      assert PcOk(s.db.attempts, s.db.ops, s.prov, s.claimed, s.nextToken, s.procs[p]);
    }
  }

  lemma LoseKeeps(s: Sys, a: AttemptId)
    requires Inv(s)
    ensures Inv(Lose(s, a))
  {
    hide TablesOk, Procs, ProcsApart;
    UnpendTables(s.db, s.prov, s.claimed, s.nextToken, a);
    UnpendProcs(s, a);
  }

  lemma RejectKeeps(s: Sys, p: Pid)
    requires Inv(s)
    ensures Inv(Reject(s, p))
  {
    hide Inv;
    if p in s.procs && s.procs[p].Requested? && s.procs[p].a in s.prov.pending {
      var a := s.procs[p].a;
      PendingHasNoKey(s, a);
      LoseKeeps(s, a);
      PcFacts(s, p);
      MoveKeeps(Lose(s, a), p, Rejected(a));
    }
  }

  lemma PendingHasNoKey(s: Sys, a: AttemptId)
    requires Inv(s) && a in s.prov.pending
    ensures forall h <- s.prov.minted.Keys :: s.prov.minted[h] != a
  {
  }

  lemma ForeignKeyKeeps(s: Sys)
    requires Inv(s)
    ensures Inv(ForeignKey(s))
  {
    hide Attempts, OneOpen, Operations, Indices, Currents, OneKeyEach, Deliveries, ClaimedKnown, ProcsApart;
    var prov' := s.prov.(nextHash := s.prov.nextHash + 1);
    forall b <- s.db.attempts.Keys ensures CredentialOk(s.db.attempts, prov'.minted, prov'.nextHash, b) {
      assert CredentialOk(s.db.attempts, s.prov.minted, s.prov.nextHash, b);
    }
    forall h <- prov'.minted.Keys ensures KeyOk(s.db.attempts, prov', s.claimed, h) {
      assert KeyOk(s.db.attempts, s.prov, s.claimed, h);
    }
    forall e <- s.db.entitlements.Keys ensures EntitlementOk(s.db.ops, prov', s.db.entitlements[e]) {
      assert EntitlementOk(s.db.ops, s.prov, s.db.entitlements[e]);
    }
    forall p <- s.procs.Keys ensures PcOk(s.db.attempts, s.db.ops, prov', s.claimed, s.nextToken, s.procs[p]) {
      assert PcOk(s.db.attempts, s.db.ops, s.prov, s.claimed, s.nextToken, s.procs[p]);
    }
  }

  function LandedProvider(prov: Provider, a: AttemptId): Provider {
    Provider(prov.live + {prov.nextHash}, prov.pending - {a}, prov.minted[prov.nextHash := a], prov.nextHash + 1)
  }

  lemma LandKeys(rows: Rows, claimed: set<AttemptId>, prov: Provider, a: AttemptId)
    requires Keys(rows, prov, claimed) && Pendings(rows, prov) && OneKeyEach(prov.minted)
    requires a in prov.pending && a in rows && RowOk(rows[a])
    ensures var prov' := LandedProvider(prov, a);
            Keys(rows, prov', claimed) && Pendings(rows, prov') && OneKeyEach(prov'.minted)
  {
    var prov' := LandedProvider(prov, a);
    forall h <- prov'.minted.Keys ensures KeyOk(rows, prov', claimed, h) {
      assert h != prov.nextHash ==> KeyOk(rows, prov, claimed, h);
      assert PendingOk(rows, a);
    }
  }

  lemma NextHashIsFree(rows: Rows, claimed: set<AttemptId>, prov: Provider)
    requires Keys(rows, prov, claimed)
    ensures prov.nextHash !in prov.minted
  {
    assert prov.nextHash in prov.minted ==> KeyOk(rows, prov, claimed, prov.nextHash);
  }

  lemma LandCredentials(rows: Rows, prov: Provider, a: AttemptId)
    requires Credentials(rows, prov.minted, prov.nextHash) && prov.nextHash !in prov.minted
    ensures Credentials(rows, LandedProvider(prov, a).minted, LandedProvider(prov, a).nextHash)
  {
    var prov' := LandedProvider(prov, a);
    forall b <- rows.Keys ensures CredentialOk(rows, prov'.minted, prov'.nextHash, b) {
      assert CredentialOk(rows, prov.minted, prov.nextHash, b);
    }
  }

  lemma LandCurrents(rows: Rows, ops: Ops, claimed: set<AttemptId>, prov: Provider, a: AttemptId)
    requires Currents(rows, ops, claimed, prov.minted) && prov.nextHash !in prov.minted
    ensures Currents(rows, ops, claimed, LandedProvider(prov, a).minted)
  {
    var prov' := LandedProvider(prov, a);
    forall o <- ops.Keys ensures CurrentOk(rows, claimed, prov'.minted, AttemptId(o, ops[o].currentIndex), ops[o].state) {
      assert CurrentOk(rows, claimed, prov.minted, AttemptId(o, ops[o].currentIndex), ops[o].state);
    }
  }

  lemma LandRows(db: Db, claimed: set<AttemptId>, nextToken: Token, prov: Provider, a: AttemptId)
    requires Attempts(db.attempts, db.ops, claimed, nextToken) && a in db.attempts
    requires Credentials(db.attempts, prov.minted, prov.nextHash) && Currents(db.attempts, db.ops, claimed, prov.minted)
    requires Deliveries(db.deliveries, db.attempts, prov.minted, claimed)
    requires Keys(db.attempts, prov, claimed)
    ensures var prov' := LandedProvider(prov, a);
            && Credentials(db.attempts, prov'.minted, prov'.nextHash)
            && Currents(db.attempts, db.ops, claimed, prov'.minted)
            && Deliveries(db.deliveries, db.attempts, prov'.minted, claimed)
  {
    hide Attempts, Credentials, Currents, Keys;
    var prov' := LandedProvider(prov, a);
    NextHashIsFree(db.attempts, claimed, prov);
    LandCredentials(db.attempts, prov, a);
    LandCurrents(db.attempts, db.ops, claimed, prov, a);
    forall d <- db.deliveries.Keys ensures DeliveryOk(db.attempts, prov'.minted, claimed, db.deliveries[d]) {
      assert DeliveryOk(db.attempts, prov.minted, claimed, db.deliveries[d]);
    }
  }

  lemma LandEntitlements(db: Db, claimed: set<AttemptId>, prov: Provider, a: AttemptId)
    requires Entitlements(db.entitlements, db.ops, prov)
    ensures Entitlements(db.entitlements, db.ops, LandedProvider(prov, a))
  {
    forall e <- db.entitlements.Keys ensures EntitlementOk(db.ops, LandedProvider(prov, a), db.entitlements[e]) {
      assert EntitlementOk(db.ops, prov, db.entitlements[e]);
    }
  }

  lemma LandProcs(s: Sys, a: AttemptId)
    requires Procs(s.procs, s.db.attempts, s.db.ops, s.prov, s.claimed, s.nextToken)
    requires a in s.prov.pending && Pendings(s.db.attempts, s.prov) && Keys(s.db.attempts, s.prov, s.claimed)
    requires a in s.db.attempts && RowOk(s.db.attempts[a])
    ensures Procs(s.procs, s.db.attempts, s.db.ops, LandedProvider(s.prov, a), s.claimed, s.nextToken)
  {
    var prov' := LandedProvider(s.prov, a);
    assert s.prov.nextHash !in s.prov.minted by {
      assert s.prov.nextHash in s.prov.minted ==> KeyOk(s.db.attempts, s.prov, s.claimed, s.prov.nextHash);
    }
    assert PendingOk(s.db.attempts, a);
    forall p <- s.procs.Keys ensures PcOk(s.db.attempts, s.db.ops, prov', s.claimed, s.nextToken, s.procs[p]) {
      assert PcOk(s.db.attempts, s.db.ops, s.prov, s.claimed, s.nextToken, s.procs[p]);
    }
  }

  lemma LandKeeps(s: Sys, a: AttemptId)
    requires Inv(s)
    ensures Inv(Land(s, a))
  {
    hide Attempts, Credentials, OneOpen, Operations, Indices, Currents, Keys, OneKeyEach, Pendings, Deliveries;
    hide Entitlements, ClaimedKnown, Procs, ProcsApart, RowOk;
    if a in s.prov.pending {
      PendingFacts(s, a);
      LandKeys(s.db.attempts, s.claimed, s.prov, a);
      LandRows(s.db, s.claimed, s.nextToken, s.prov, a);
      LandEntitlements(s.db, s.claimed, s.prov, a);
      LandProcs(s, a);
    }
  }

  lemma PendingFacts(s: Sys, a: AttemptId)
    requires Inv(s) && a in s.prov.pending
    ensures a in s.db.attempts && RowOk(s.db.attempts[a])
  {
    hide Credentials, OneOpen, Operations, Indices, Currents, Keys, OneKeyEach, Deliveries;
    hide Entitlements, ClaimedKnown, Procs, ProcsApart;
    assert PendingOk(s.db.attempts, a);
    assert AttemptOk(s.db.attempts, s.db.ops, s.claimed, s.nextToken, a);
  }

  // ---------- cleanup workers ----------

  /** The repair insert finds a row for every current attempt, so it adds nothing. */
  lemma RepairInsertIdle(s: Sys, a: AttemptId)
    requires Inv(s)
    ensures RepairInsert(s.db, a) == s.db
  {
    hide Inv;
    if a.op in s.db.ops {
      OpFacts(s, a.op);
    }
  }

  lemma ReadTargetKeeps(s: Sys, p: Pid)
    requires Inv(s)
    ensures Inv(ReadTarget(s, p))
  {
    hide Inv;
    if p in s.procs && s.procs[p].Claimed? {
      var pc := s.procs[p];
      if HoldsToken(s.db, pc.a, pc.token) {
        PcFacts(s, p);
        RowFacts(s, pc.a);
        var t := s.db.attempts[pc.a];
        MoveKeeps(s, p, Scanning(pc.a, pc.token, t.credential, t.inFlight, t.scanOffset));
      } else {
        LeaveKeeps(s, p);
      }
    }
  }

  lemma LocateKeeps(s: Sys, p: Pid, key: KeyHash)
    requires Inv(s)
    ensures Inv(Locate(s, p, key))
  {
    hide Inv;
    if Locate(s, p, key) != s {
      var pc := s.procs[p];
      PcFacts(s, p);
      if pc.seen.None? && HoldsToken(s.db, pc.a, pc.token) && s.db.attempts[pc.a].credential.Some? {
        OneKey(s, key, s.db.attempts[pc.a].credential.value);
      }
      MoveKeeps(s, p, Pinning(pc.a, pc.token, key, pc.offset));
    }
  }

  lemma ScanMissKeeps(s: Sys, p: Pid, complete: bool, nextOffset: nat)
    requires Inv(s)
    ensures Inv(ScanMiss(s, p, complete, nextOffset))
  {
    hide Inv;
    if ScanMiss(s, p, complete, nextOffset) != s {
      var pc := s.procs[p];
      PcFacts(s, p);
      LiveKeysOf(s, pc.a);
      MoveKeeps(s, p, Verdict(pc.a, pc.token, None, complete && !pc.seenInFlight, if complete then 0 else nextOffset));
    }
  }

  lemma PinProcs(s: Sys, p: Pid, pc: Pc)
    requires Procs(s.procs, s.db.attempts, s.db.ops, s.prov, s.claimed, s.nextToken) && ProcsApart(s.procs)
    requires OneKeyEach(s.prov.minted)
    requires p in s.procs && pc == s.procs[p] && pc.Pinning? && HoldsToken(s.db, pc.a, pc.token)
    ensures var t := s.db.attempts[pc.a].(credential := Some(pc.key), inFlight := false);
            Procs(s.procs[p := Pinned(pc.a, pc.token, pc.key, pc.offset)], s.db.attempts[pc.a := t], s.db.ops,
                  s.prov, s.claimed, s.nextToken)
  {
    var t := s.db.attempts[pc.a].(credential := Some(pc.key), inFlight := false);
    var next := Pinned(pc.a, pc.token, pc.key, pc.offset);
    var procs' := s.procs[p := next];
    assert PcOk(s.db.attempts, s.db.ops, s.prov, s.claimed, s.nextToken, pc);
    forall q <- procs'.Keys ensures PcOk(s.db.attempts[pc.a := t], s.db.ops, s.prov, s.claimed, s.nextToken, procs'[q]) {
      if q != p {
        assert PcOk(s.db.attempts, s.db.ops, s.prov, s.claimed, s.nextToken, s.procs[q]);
        assert Apart(s.procs[p], s.procs[q]);
        PinPc(s, pc, t, s.procs[q]);
      }
    }
  }

  lemma PinPc(s: Sys, pc: Pc, t: Attempt, other: Pc)
    requires PcOk(s.db.attempts, s.db.ops, s.prov, s.claimed, s.nextToken, pc)
    requires PcOk(s.db.attempts, s.db.ops, s.prov, s.claimed, s.nextToken, other)
    requires pc.Pinning? && HoldsToken(s.db, pc.a, pc.token) && Apart(pc, other)
    requires t == s.db.attempts[pc.a].(credential := Some(pc.key), inFlight := false)
    ensures PcOk(s.db.attempts[pc.a := t], s.db.ops, s.prov, s.claimed, s.nextToken, other)
  {
  }

  lemma PinKeeps(s: Sys, p: Pid)
    requires Inv(s)
    ensures Inv(Pin(s, p))
  {
    hide Attempts, Credentials, OneOpen, Operations, Indices, Currents, Keys, Pendings, Deliveries;
    hide Entitlements, ClaimedKnown, Procs, ProcsApart, RowChange, OneKeyEach, AttemptOk, PcOk;
    if p in s.procs && s.procs[p].Pinning? {
      var pc := s.procs[p];
      if HoldsToken(s.db, pc.a, pc.token) {
        var t := s.db.attempts[pc.a].(credential := Some(pc.key), inFlight := false);
        PinRow(s, p, pc);
        RowTables(s.db, s.prov, s.claimed, s.nextToken, pc.a, t);
        PinProcs(s, p, pc);
        ApartMoved(s.procs, p, Pinned(pc.a, pc.token, pc.key, pc.offset));
      } else {
        LostPinKeeps(s, p);
      }
    }
  }

  lemma LostPinKeeps(s: Sys, p: Pid)
    requires Inv(s) && p in s.procs && s.procs[p].Pinning? && !HoldsToken(s.db, s.procs[p].a, s.procs[p].token)
    ensures Inv(Pin(s, p))
  {
    hide Inv;
    var pc := s.procs[p];
    PcFacts(s, p);
    MoveKeeps(s, p, Verdict(pc.a, pc.token, Some(pc.key), false, pc.offset));
  }

  /** While its create is still under way an attempt has no key, so a pinned attempt has none under way. */
  lemma PinPending(s: Sys, p: Pid, pc: Pc)
    requires Inv(s) && p in s.procs && pc == s.procs[p] && pc.Pinning? && HoldsToken(s.db, pc.a, pc.token)
    ensures pc.a !in s.prov.pending
  {
    hide Inv;
    PcFacts(s, p);
    RowFacts(s, pc.a);
    if pc.a in s.prov.pending {
      PendingHasNoKey(s, pc.a);
    }
  }

  lemma PinRow(s: Sys, p: Pid, pc: Pc)
    requires Inv(s) && p in s.procs && pc == s.procs[p] && pc.Pinning? && HoldsToken(s.db, pc.a, pc.token)
    ensures var t := s.db.attempts[pc.a].(credential := Some(pc.key), inFlight := false);
            && RowChange(s.db.attempts, s.prov, pc.a, t)
            && AttemptOk(s.db.attempts[pc.a := t], s.db.ops, s.claimed, s.nextToken, pc.a)
  {
    hide Inv;
    PcFacts(s, p);
    RowFacts(s, pc.a);
    LiveKeysOf(s, pc.a);
    PinPending(s, p, pc);
    if s.db.attempts[pc.a].credential.None? {
      KeyFacts(s, pc.key);
      forall h <- s.prov.live | MintedBy(s.prov.minted, h, pc.a) ensures h == pc.key {
        OneKey(s, h, pc.key);
      }
    }
  }

  lemma DeleteTables(db: Db, prov: Provider, claimed: set<AttemptId>, nextToken: Token, a: AttemptId, h: KeyHash)
    requires TablesOk(db, prov, claimed, nextToken) && a in claimed && a in db.attempts && db.attempts[a].credential == Some(h)
    ensures TablesOk(db, prov.(live := prov.live - {h}), claimed, nextToken)
  {
    hide Attempts, OneOpen, Operations, Indices, Currents, OneKeyEach, Pendings, Deliveries, Entitlements, ClaimedKnown;
    var prov' := prov.(live := prov.live - {h});
    assert CredentialOk(db.attempts, prov.minted, prov.nextHash, a);
    forall k <- prov'.minted.Keys ensures KeyOk(db.attempts, prov', claimed, k) {
      assert KeyOk(db.attempts, prov, claimed, k);
    }
    SamePendingEntitlements(db, prov, prov');
    assert Pendings(db.attempts, prov') by { SamePendings(db.attempts, prov, prov'); }
  }

  lemma SamePendings(rows: Rows, prov: Provider, after: Provider)
    requires Pendings(rows, prov) && after.minted == prov.minted && after.pending == prov.pending
    ensures Pendings(rows, after)
  {
  }

  lemma DeleteProcs(s: Sys, h: KeyHash)
    requires Procs(s.procs, s.db.attempts, s.db.ops, s.prov, s.claimed, s.nextToken)
    ensures Procs(s.procs, s.db.attempts, s.db.ops, s.prov.(live := s.prov.live - {h}), s.claimed, s.nextToken)
  {
    var prov' := s.prov.(live := s.prov.live - {h});
    forall p <- s.procs.Keys ensures PcOk(s.db.attempts, s.db.ops, prov', s.claimed, s.nextToken, s.procs[p]) {
      assert PcOk(s.db.attempts, s.db.ops, s.prov, s.claimed, s.nextToken, s.procs[p]);
    }
  }

  lemma DeleteKeeps(s: Sys, p: Pid, removed: bool, ok: bool)
    requires Inv(s)
    ensures Inv(Delete(s, p, removed, ok))
  {
    hide TablesOk, Procs, ProcsApart;
    if p in s.procs && s.procs[p].Pinned? && (ok ==> removed) {
      var pc := s.procs[p];
      PcFacts(s, p);
      var s1 := if removed then s.(prov := s.prov.(live := s.prov.live - {pc.key})) else s;
      if removed {
        DeleteTables(s.db, s.prov, s.claimed, s.nextToken, pc.a, pc.key);
        DeleteProcs(s, pc.key);
      }
      assert Inv(s1);
      MoveKeeps(s1, p, Deleted(pc.a, pc.token, pc.key, ok, pc.offset));
    }
  }

  lemma VerifyKeeps(s: Sys, p: Pid, absent: bool)
    requires Inv(s)
    ensures Inv(Verify(s, p, absent))
  {
    hide Inv;
    if p in s.procs && s.procs[p].Deleted? && (absent ==> s.procs[p].key !in s.prov.live) {
      var pc := s.procs[p];
      PcFacts(s, p);
      RowFacts(s, pc.a);
      LiveKeysOf(s, pc.a);
      MoveKeeps(s, p, Verdict(pc.a, pc.token, Some(pc.key), pc.ok && absent, pc.offset));
    }
  }

  lemma ExpireAllKeeps(s: Sys, a: AttemptId, from: set<DeliveryStatus>, now: Instant, failure: DeliveryFailure)
    requires Inv(s) && failure != StaleDeliveryCleanupClaimed
    ensures Inv(WithDb(s, s.db.(deliveries := ExpireAll(s.db, a, from, now, failure))))
  {
    hide Attempts, Credentials, OneOpen, Operations, Indices, Currents, Keys, OneKeyEach, Pendings;
    hide Entitlements, ClaimedKnown, Procs, ProcsApart;
  }

  /** The claim batch in one piece: all three statements take effect or none does. */
  function ClaimedDb(db: Db, a: AttemptId, tok: Token, now: Instant): Db
    requires a in db.attempts && a.op in db.ops
  {
    var op := db.ops[a.op];
    var failed := op.state == Failed;
    Db(db.ops[a.op := op.(state := if failed then Failed else Reconciling, clientAction := if failed then ActionRequired else Wait)],
       db.attempts[a := db.attempts[a].(token := Some(tok), startedAt := Some(now), checkedAt := Some(now))],
       ExpireAll(db, a, {AwaitingAck, NeedsCleanup, Expired}, now, OperationCleanupClaimed),
       db.entitlements)
  }

  lemma ClaimBatchWhole(s: Sys, a: AttemptId, now: Instant, cron: bool)
    requires Inv(s)
    ensures !CanClaim(s.db, a, now, cron) ==> ClaimBatch(s.db, a, s.nextToken, now, cron) == s.db
    ensures CanClaim(s.db, a, now, cron) ==>
              a in s.db.attempts && a.op in s.db.ops
              && ClaimBatch(s.db, a, s.nextToken, now, cron) == ClaimedDb(s.db, a, s.nextToken, now)
  {
    hide Inv;
    if a in s.db.attempts {
      RowFacts(s, a);
    }
    if CanClaim(s.db, a, now, cron) {
      var db1 := ClaimAttempt(s.db, a, s.nextToken, now, cron);
      assert HoldsToken(db1, a, s.nextToken);
      assert ExpireAll(db1, a, {AwaitingAck, NeedsCleanup, Expired}, now, OperationCleanupClaimed)
             == ExpireAll(s.db, a, {AwaitingAck, NeedsCleanup, Expired}, now, OperationCleanupClaimed);
    }
  }

  /** Marking an attempt as claimed, once it holds a new token and its deliveries are expired. */
  lemma ClaimKeeps(s: Sys, p: Pid, a: AttemptId, now: Instant, cron: bool)
    requires Inv(s)
    ensures Inv(Claim(s, p, a, now, cron))
  {
    hide Attempts, Credentials, OneOpen, Operations, Indices, Currents, Keys, OneKeyEach, Pendings, Deliveries;
    hide Entitlements, ClaimedKnown, Procs, ProcsApart, ClaimBatch, CanClaim, ClaimedDb;
    if p !in s.procs && a.index > 0 {
      ClaimBatchWhole(s, a, now, cron);
      if CanClaim(s.db, a, now, cron) {
        ClaimTables(s, a, now, cron);
        ClaimProcs(s, p, a, now);
      } else {
        TokenBumpKeeps(s);
      }
    }
  }

  lemma TokenBumpKeeps(s: Sys)
    requires Inv(s)
    ensures Inv(s.(nextToken := s.nextToken + 1))
  {
    hide Credentials, OneOpen, Operations, Indices, Currents, Keys, OneKeyEach, Pendings, Deliveries;
    hide Entitlements, ClaimedKnown, ProcsApart;
    forall b <- s.db.attempts.Keys ensures AttemptOk(s.db.attempts, s.db.ops, s.claimed, s.nextToken + 1, b) {
      assert AttemptOk(s.db.attempts, s.db.ops, s.claimed, s.nextToken, b);
    }
    forall p <- s.procs.Keys ensures PcOk(s.db.attempts, s.db.ops, s.prov, s.claimed, s.nextToken + 1, s.procs[p]) {
      assert PcOk(s.db.attempts, s.db.ops, s.prov, s.claimed, s.nextToken, s.procs[p]);
    }
  }

  /** The row a claim leaves behind. */
  function ClaimedRow(t: Attempt, tok: Token, now: Instant): Attempt {
    t.(token := Some(tok), startedAt := Some(now), checkedAt := Some(now))
  }

  lemma ClaimRowChange(s: Sys, a: AttemptId, now: Instant, cron: bool)
    requires Inv(s) && CanClaim(s.db, a, now, cron)
    ensures RowChange(s.db.attempts, s.prov, a, ClaimedRow(s.db.attempts[a], s.nextToken, now))
    ensures a.op in s.db.ops && Gentle(s.prov, s.nextToken, a, s.db.attempts[a], ClaimedRow(s.db.attempts[a], s.nextToken, now))
  {
    hide Inv;
    RowFacts(s, a);
    LiveKeysOf(s, a);
  }

  lemma ClaimTables(s: Sys, a: AttemptId, now: Instant, cron: bool)
    requires Inv(s) && CanClaim(s.db, a, now, cron) && a in s.db.attempts && a.op in s.db.ops
    ensures TablesOk(ClaimedDb(s.db, a, s.nextToken, now), s.prov, s.claimed + {a}, s.nextToken + 1)
  {
    hide Attempts, Credentials, OneOpen, Operations, Indices, Currents, Keys, OneKeyEach, Pendings, Deliveries;
    hide Entitlements, ClaimedKnown, Procs, ProcsApart, CanClaim, RowChange, Gentle;
    var row := ClaimedRow(s.db.attempts[a], s.nextToken, now);
    var rows' := s.db.attempts[a := row];
    var ops' := ClaimedDb(s.db, a, s.nextToken, now).ops;
    ClaimRowChange(s, a, now, cron);
    RowCredentials(s.db.attempts, s.prov, a, row);
    RowKeys(s.db.attempts, s.claimed, s.prov, a, row);
    RowIndices(s.db.attempts, s.db.ops, s.claimed, a, row);
    RowOneOpen(s.db.attempts, s.db.ops, s.prov, a, row);
    OpUpdateOneOpen(rows', s.db.ops, a.op, ops'[a.op]);
    ClaimOps(s, a, now, cron);
    ClaimKnownKeys(rows', s.claimed, s.prov, a);
    ClaimDeliveriesOk(s, a, now, cron);
  }

  lemma ClaimKnownKeys(rows: Rows, claimed: set<AttemptId>, prov: Provider, a: AttemptId)
    requires Keys(rows, prov, claimed) && ClaimedKnown(rows, claimed) && a in rows
    ensures Keys(rows, prov, claimed + {a}) && ClaimedKnown(rows, claimed + {a})
  {
    forall h <- prov.minted.Keys ensures KeyOk(rows, prov, claimed + {a}, h) {
      assert KeyOk(rows, prov, claimed, h);
    }
  }

  lemma ClaimAttempts(db: Db, claimed: set<AttemptId>, a: AttemptId, tok: Token, now: Instant, cron: bool)
    requires Attempts(db.attempts, db.ops, claimed, tok) && CanClaim(db, a, now, cron) && a.op in db.ops
    ensures Attempts(ClaimedDb(db, a, tok, now).attempts, ClaimedDb(db, a, tok, now).ops, claimed + {a}, tok + 1)
  {
    hide Finalized;
    var db' := ClaimedDb(db, a, tok, now);
    forall b <- db'.attempts.Keys ensures AttemptOk(db'.attempts, db'.ops, claimed + {a}, tok + 1, b) {
      assert AttemptOk(db.attempts, db.ops, claimed, tok, b);
    }
  }

  lemma ClaimOps(s: Sys, a: AttemptId, now: Instant, cron: bool)
    requires Inv(s) && CanClaim(s.db, a, now, cron) && a.op in s.db.ops
    ensures var db' := ClaimedDb(s.db, a, s.nextToken, now);
            && Attempts(db'.attempts, db'.ops, s.claimed + {a}, s.nextToken + 1)
            && Operations(db'.ops) && Indices(db'.attempts, db'.ops)
            && Currents(db'.attempts, db'.ops, s.claimed + {a}, s.prov.minted)
            && Entitlements(db'.entitlements, db'.ops, s.prov)
  {
    hide Attempts, Operations, Indices, Currents, Entitlements, CanClaim, ClaimedDb;
    hide Credentials, OneOpen, Keys, OneKeyEach, Pendings, Deliveries, ClaimedKnown, Procs, ProcsApart;
    ClaimAttempts(s.db, s.claimed, a, s.nextToken, now, cron);
    ClaimCurrents(s.db, s.claimed, s.prov, a, s.nextToken, now, cron);
  }

  lemma ClaimCurrents(db: Db, claimed: set<AttemptId>, prov: Provider, a: AttemptId, tok: Token, now: Instant, cron: bool)
    requires CanClaim(db, a, now, cron) && a.op in db.ops
    requires Operations(db.ops) && Indices(db.attempts, db.ops) && Currents(db.attempts, db.ops, claimed, prov.minted)
    requires Entitlements(db.entitlements, db.ops, prov)
    ensures var db' := ClaimedDb(db, a, tok, now);
            && Operations(db'.ops) && Indices(db'.attempts, db'.ops)
            && Currents(db'.attempts, db'.ops, claimed + {a}, prov.minted)
            && Entitlements(db'.entitlements, db'.ops, prov)
  {
    hide Finalized;
    var db' := ClaimedDb(db, a, tok, now);
    forall o <- db'.ops.Keys
      ensures OperationOk(db'.ops[o]) && Indexed(db'.attempts, o, db'.ops[o].attemptCount)
      ensures CurrentOk(db'.attempts, claimed + {a}, prov.minted, AttemptId(o, db'.ops[o].currentIndex), db'.ops[o].state)
    {
      assert OperationOk(db.ops[o]) && Indexed(db.attempts, o, db.ops[o].attemptCount);
      assert CurrentOk(db.attempts, claimed, prov.minted, AttemptId(o, db.ops[o].currentIndex), db.ops[o].state);
    }
    forall e <- db.entitlements.Keys ensures EntitlementOk(db'.ops, prov, db.entitlements[e]) {
      assert EntitlementOk(db.ops, prov, db.entitlements[e]);
    }
  }

  lemma ClaimDeliveriesOk(s: Sys, a: AttemptId, now: Instant, cron: bool)
    requires Inv(s) && CanClaim(s.db, a, now, cron) && a.op in s.db.ops
    ensures var db' := ClaimedDb(s.db, a, s.nextToken, now);
            Deliveries(db'.deliveries, db'.attempts, s.prov.minted, s.claimed + {a})
  {
    hide Inv;
    var db' := ClaimedDb(s.db, a, s.nextToken, now);
    forall d <- db'.deliveries.Keys ensures DeliveryOk(db'.attempts, s.prov.minted, s.claimed + {a}, db'.deliveries[d]) {
      DeliveryFacts(s, d);
    }
  }

  lemma ClaimProcs(s: Sys, p: Pid, a: AttemptId, now: Instant)
    requires Inv(s) && p !in s.procs && a in s.db.attempts && a.op in s.db.ops
    ensures var db' := ClaimedDb(s.db, a, s.nextToken, now);
            var procs' := s.procs[p := Claimed(a, s.nextToken)];
            && Procs(procs', db'.attempts, db'.ops, s.prov, s.claimed + {a}, s.nextToken + 1)
            && ProcsApart(procs')
  {
    hide Inv, ClaimedDb;
    var db' := ClaimedDb(s.db, a, s.nextToken, now);
    var procs' := s.procs[p := Claimed(a, s.nextToken)];
    forall q <- procs'.Keys ensures PcOk(db'.attempts, db'.ops, s.prov, s.claimed + {a}, s.nextToken + 1, procs'[q]) {
      ClaimPc(s, p, a, now, q);
    }
    forall q <- procs'.Keys, r <- procs'.Keys | q != r ensures Apart(procs'[q], procs'[r]) {
      if q in s.procs { PcFacts(s, q); }
      if r in s.procs { PcFacts(s, r); }
      if q != p && r != p { ApartFacts(s, q, r); }
    }
  }

  lemma ApartFacts(s: Sys, p: Pid, q: Pid)
    requires Inv(s) && p in s.procs && q in s.procs && p != q
    ensures Apart(s.procs[p], s.procs[q])
  {
  }

  lemma ClaimPc(s: Sys, p: Pid, a: AttemptId, now: Instant, q: Pid)
    requires Inv(s) && p !in s.procs && a in s.db.attempts && a.op in s.db.ops && (q == p || q in s.procs)
    ensures var db' := ClaimedDb(s.db, a, s.nextToken, now);
            PcOk(db'.attempts, db'.ops, s.prov, s.claimed + {a}, s.nextToken + 1,
                 if q == p then Claimed(a, s.nextToken) else s.procs[q])
  {
    hide Inv;
    if q != p {
      PcFacts(s, q);
    }
  }

  // ---------- the two endings of a cleanup ----------

  lemma UncleanKeeps(s: Sys, a: AttemptId, tok: Token, nextOffset: nat)
    requires Inv(s)
    ensures Inv(WithDb(s, UncleanBatch(s.db, a, tok, nextOffset)))
  {
    hide Inv;
    if HoldsToken(s.db, a, tok) {
      RowFacts(s, a);
      LiveKeysOf(s, a);
      OpFacts(s, a.op);
      var t := s.db.attempts[a].(token := None, startedAt := None, scanOffset := nextOffset);
      GentleKeeps(s, a, t);
      var s1 := WithDb(s, SetAttempt(s.db, a, t));
      var row := s.db.ops[a.op];
      OpUpdateKeeps(s1, a.op, row.(state := if row.state == Failed then Failed else CleanupRequired));
    }
  }

  lemma CleanKeeps(s: Sys, a: AttemptId, tok: Token, subject: Subject, credential: Option<KeyHash>, now: Instant)
    requires Inv(s) && a in s.db.attempts
    requires HoldsToken(s.db, a, tok) ==>
               !s.db.attempts[a].inFlight && forall h <- s.prov.live :: !MintedBy(s.prov.minted, h, a)
    ensures Inv(WithDb(s, CleanBatch(s.db, a, tok, subject, credential, now)))
  {
    hide Inv, Deletable;
    if HoldsToken(s.db, a, tok) {
      EntitlementsOk(s);
      var entitled := CleanEntitlements(s.db, a, tok, subject, credential);
      EntitlementsChangeKeeps(s, entitled.entitlements);
      var s1 := WithDb(s, entitled);
      ExpireAllKeeps(s1, a, {AwaitingAck, Expired, NeedsCleanup}, now, AckExpiredChildKeyCleaned);
      var s2 := WithDb(s, CleanDeliveries(entitled, a, tok, now));
      CleanRows(s2, a, tok, now);
    }
  }

  lemma CleanRows(s: Sys, a: AttemptId, tok: Token, now: Instant)
    requires Inv(s) && HoldsToken(s.db, a, tok)
    requires !s.db.attempts[a].inFlight && forall h <- s.prov.live :: !MintedBy(s.prov.minted, h, a)
    ensures Inv(WithDb(s, CleanAttempt(CleanOperation(s.db, a, tok, now), a, tok)))
  {
    hide Inv;
    RowFacts(s, a);
    OpFacts(s, a.op);
    var t := s.db.attempts[a].(outcome := Cleaned, token := None, startedAt := None, scanOffset := 0);
    GentleKeeps(s, a, t);
    var s1 := WithDb(s, SetAttempt(s.db, a, t));
    if StateIn(s.db, a.op, {Reconciling}) && s.db.ops[a.op].authExpiresAt > now {
      OpUpdateKeeps(s1, a.op, s.db.ops[a.op].(state := RetryReady, clientAction := RetryAuthorized));
    }
  }

  lemma FinishKeeps(s: Sys, p: Pid, now: Instant)
    requires Inv(s)
    ensures Inv(Finish(s, p, now))
  {
    hide Inv, CleanBatch, UncleanBatch;
    if p in s.procs && s.procs[p].Verdict? && s.procs[p].a.op in s.db.ops {
      var pc := s.procs[p];
      PcFacts(s, p);
      if pc.clean {
        CleanKeeps(s, pc.a, pc.token, s.db.ops[pc.a.op].subject, pc.credential, now);
        LeaveKeeps(WithDb(s, CleanBatch(s.db, pc.a, pc.token, s.db.ops[pc.a.op].subject, pc.credential, now)), p);
      } else {
        UncleanKeeps(s, pc.a, pc.token, pc.offset);
        LeaveKeeps(WithDb(s, UncleanBatch(s.db, pc.a, pc.token, pc.offset)), p);
      }
    }
  }

  // ---------- all steps, all runs ----------

  lemma TableStepKeeps(s: Sys, t: TableAction)
    requires Inv(s)
    ensures Inv(TableStep(s, t))
  {
    hide Inv, CreateOperation, Transition, ExpireOperation, FailOperation, ExpireDelivery, AckBatch, RepairAck;
    hide AckCleanupClaim, ActivateOnAck, RepairInsert, Housekeep;
    match t
    case ACreateOperation(o, subject, now) => CreateOperationKeeps(s, o, subject, now);
    case AIssueReady(o) => TransitionKeeps(s, o, IssueReady, {Authenticated}, None);
    case AExpire(o) => ExpireKeeps(s, o);
    case AFail(o, index, reason) => FailKeeps(s, o, index, reason);
    case AStaleCreating(o, index) => TransitionKeeps(s, o, CreateUnknown, {Creating}, Some(index));
    case AStaleDelivery(o, index) => TransitionKeeps(s, o, CreateUnknown, {DeliveryPending}, Some(index));
    case AExpireDelivery(d, now) => ExpireDeliveryKeeps(s, d, now);
    case AAck(d, e, recorded) => AckKeeps(s, d, e, recorded);
    case ARepairAck(d) => RepairAckKeeps(s, d);
    case AAckCleanupClaim(d, at) => AckCleanupClaimIdle(s, d, at);
    case AActivate(d) => ActivateKeeps(s, d);
    case ARepairInsert(a) => RepairInsertIdle(s, a);
    case AHousekeep(e, row) => HousekeepKeeps(s, e, row);
  }

  lemma RequestStepKeeps(s: Sys, p: Pid, r: RequestAction)
    requires Inv(s)
    ensures Inv(RequestStep(s, p, r))
  {
    hide Inv, Start, ReadCredential, Adopt, SendCreate, Receive, Reject, GiveUp, WriteBackAnswer, Record;
    hide OwnerWritesEntitlement, Deliver, Settle, OwnerMarksUnknown, Release, ReleaseOperation;
    match r
    case AStart(o, seen, now) => StartKeeps(s, p, o, seen, now);
    case AReadCredential(e) => ReadCredentialKeeps(s, p, e);
    case AAdopt => AdoptKeeps(s, p);
    case ASendCreate => SendCreateKeeps(s, p);
    case AReceive(key) => ReceiveKeeps(s, p, key);
    case AReject => RejectKeeps(s, p);
    case AGiveUp => GiveUpKeeps(s, p);
    case AWriteBack(returned) => WriteBackKeeps(s, p, returned);
    case ARecord => RecordStepKeeps(s, p);
    case AWriteEntitlement(e, phase) => OwnerWritesEntitlementKeeps(s, p, e, phase);
    case ADeliver(d, expiresAt) => DeliverKeeps(s, p, d, expiresAt);
    case ASettle => SettleKeeps(s, p);
    case AMarkUnknown => MarkUnknownKeeps(s, p);
    case ARelease => ReleaseKeeps(s, p);
    case AReleaseOperation => ReleaseOperationKeeps(s, p);
  }

  lemma ProviderStepKeeps(s: Sys, e: ProviderEvent)
    requires Inv(s)
    ensures Inv(ProviderStep(s, e))
  {
    hide Inv, Land, Lose, ForeignKey;
    match e
    case ALand(a) => LandKeeps(s, a);
    case ALose(a) => LoseKeeps(s, a);
    case AForeignKey => ForeignKeyKeeps(s);
  }

  lemma WorkerStepKeeps(s: Sys, p: Pid, w: WorkerAction)
    requires Inv(s)
    ensures Inv(WorkerStep(s, p, w))
  {
    hide Inv, Claim, ReadTarget, Locate, ScanMiss, Pin, Delete, Verify, Finish;
    match w
    case AClaim(a, now, cron) => ClaimKeeps(s, p, a, now, cron);
    case AReadTarget => ReadTargetKeeps(s, p);
    case ALocate(key) => LocateKeeps(s, p, key);
    case AScanMiss(complete, nextOffset) => ScanMissKeeps(s, p, complete, nextOffset);
    case APin => PinKeeps(s, p);
    case ADelete(removed, ok) => DeleteKeeps(s, p, removed, ok);
    case AVerify(absent) => VerifyKeeps(s, p, absent);
    case AFinish(now) => FinishKeeps(s, p, now);
  }

  lemma StepKeeps(s: Sys, act: Action)
    requires Inv(s)
    ensures Inv(Step(s, act))
  {
    hide Inv, TableStep, RequestStep, ProviderStep, WorkerStep;
    match act
    case OnTables(t) => TableStepKeeps(s, t);
    case ByRequest(p, r) => RequestStepKeeps(s, p, r);
    case AtProvider(e) => ProviderStepKeeps(s, e);
    case ByWorker(p, w) => WorkerStepKeeps(s, p, w);
  }

  lemma {:induction false} RunKeeps(s: Sys, acts: seq<Action>)
    requires Inv(s)
    ensures Inv(Run(s, acts))
    decreases |acts|
  {
    hide Inv, Step;
    if acts != [] {
      StepKeeps(s, acts[0]);
      RunKeeps(Step(s, acts[0]), acts[1..]);
    }
  }
}
