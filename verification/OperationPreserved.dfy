/** Every step keeps the invariant: one lemma for each kind of row change, then one for each step. */
module OperationPreserved {
  import opened Wrappers
  import opened BrokerTypes
  import opened BrokerSql
  import opened OperationProtocol
  import opened OperationInvariant

  // ---------- changing the state of one operation ----------

  predicate SameButState(before: Operation, after: Operation) {
    && before.subject == after.subject
    && before.attemptCount == after.attemptCount && before.currentIndex == after.currentIndex
  }

  lemma OpUpdateAttempts(rows: Rows, ops: Ops, claimed: set<AttemptId>, nextToken: Token, o: OperationId, row: Operation)
    requires Attempts(rows, ops, claimed, nextToken) && o in ops && SameButState(ops[o], row)
    requires var cur := AttemptId(o, row.currentIndex);
             row.state in {Reconciling, Failed} || (cur in rows ==> rows[cur].token.None?)
    ensures Attempts(rows, ops[o := row], claimed, nextToken)
  {
    forall a <- rows.Keys ensures AttemptOk(rows, ops[o := row], claimed, nextToken, a) {
      assert AttemptOk(rows, ops, claimed, nextToken, a);
      assert a.op == o && a.index == row.currentIndex ==> a == AttemptId(o, row.currentIndex);
    }
  }

  lemma OpUpdateOneOpen(rows: Rows, ops: Ops, o: OperationId, row: Operation)
    requires OneOpen(rows, ops) && o in ops && SameButState(ops[o], row)
    ensures OneOpen(rows, ops[o := row])
  {
    forall a <- rows.Keys, b <- rows.Keys | a != b && SameSubject(ops[o := row], a, b)
      ensures Settled(rows[a]) || Settled(rows[b])
    {
      assert SameSubject(ops, a, b);
    }
  }

  lemma OpUpdateProcs(procs: map<Pid, Pc>, rows: Rows, ops: Ops, prov: Provider, claimed: set<AttemptId>, nextToken: Token,
                      o: OperationId, row: Operation)
    requires Procs(procs, rows, ops, prov, claimed, nextToken) && o in ops && SameButState(ops[o], row)
    ensures Procs(procs, rows, ops[o := row], prov, claimed, nextToken)
  {
    forall p <- procs.Keys ensures PcOk(rows, ops[o := row], prov, claimed, nextToken, procs[p]) {
      assert PcOk(rows, ops, prov, claimed, nextToken, procs[p]);
    }
  }

  lemma OpUpdateRest(db: Db, prov: Provider, claimed: set<AttemptId>, o: OperationId, row: Operation)
    requires o in db.ops && SameButState(db.ops[o], row) && OperationOk(row)
    requires CurrentOk(db.attempts, claimed, prov.minted, AttemptId(o, row.currentIndex), row.state)
    requires Operations(db.ops) && Indices(db.attempts, db.ops) && Currents(db.attempts, db.ops, claimed, prov.minted)
    requires Entitlements(db.entitlements, db.ops, prov)
    ensures Operations(db.ops[o := row]) && Indices(db.attempts, db.ops[o := row])
    ensures Currents(db.attempts, db.ops[o := row], claimed, prov.minted)
    ensures Entitlements(db.entitlements, db.ops[o := row], prov)
  {
    forall e <- db.entitlements.Keys ensures EntitlementOk(db.ops[o := row], prov, db.entitlements[e]) {
      assert EntitlementOk(db.ops, prov, db.entitlements[e]);
    }
  }

  lemma OpUpdateKeeps(s: Sys, o: OperationId, row: Operation)
    requires Inv(s) && o in s.db.ops && SameButState(s.db.ops[o], row) && OperationOk(row)
    requires CurrentOk(s.db.attempts, s.claimed, s.prov.minted, AttemptId(o, row.currentIndex), row.state)
    requires row.state in {Reconciling, Failed} || TokenFree(s.db, AttemptId(o, row.currentIndex))
    ensures Inv(WithDb(s, SetOp(s.db, o, row)))
  {
    hide Attempts, Credentials, OneOpen, Operations, Indices, Currents, Keys, OneKeyEach, Pendings, Deliveries;
    hide Entitlements, ClaimedKnown, Procs, ProcsApart, CurrentOk;
    OpUpdateAttempts(s.db.attempts, s.db.ops, s.claimed, s.nextToken, o, row);
    OpUpdateOneOpen(s.db.attempts, s.db.ops, o, row);
    OpUpdateProcs(s.procs, s.db.attempts, s.db.ops, s.prov, s.claimed, s.nextToken, o, row);
    OpUpdateRest(s.db, s.prov, s.claimed, o, row);
  }

  // ---------- changing one attempt row ----------

  /** How a row may change with every invariant about it kept: credentials are written once, a cleaned
      or settled row stays so, and no key or pending create of the attempt is lost sight of. */
  ghost predicate RowChange(rows: Rows, prov: Provider, a: AttemptId, t: Attempt) {
    && a in rows && RowOk(t)
    && (rows[a].credential.Some? ==> t.credential == rows[a].credential)
    && (rows[a].outcome == Cleaned ==> t.outcome == Cleaned)
    && (Settled(rows[a]) ==> Settled(t))
    && (t.credential.Some? ==> CredentialOk(rows[a := t], prov.minted, prov.nextHash, a))
    && (a in prov.pending ==> t.inFlight)
    && (forall h <- prov.live :: MintedBy(prov.minted, h, a) ==> t.outcome != Cleaned && (t.inFlight || t.credential == Some(h)))
  }

  lemma RowAttempts(rows: Rows, ops: Ops, claimed: set<AttemptId>, nextToken: Token, prov: Provider, a: AttemptId, t: Attempt)
    requires Attempts(rows, ops, claimed, nextToken) && RowChange(rows, prov, a, t)
    requires AttemptOk(rows[a := t], ops, claimed, nextToken, a)
    ensures Attempts(rows[a := t], ops, claimed, nextToken)
  {
    var after := rows[a := t];
    forall b <- after.Keys ensures AttemptOk(after, ops, claimed, nextToken, b) {
      assert b != a ==> AttemptOk(rows, ops, claimed, nextToken, b);
    }
  }

  lemma RowCredentials(rows: Rows, prov: Provider, a: AttemptId, t: Attempt)
    requires Credentials(rows, prov.minted, prov.nextHash) && RowChange(rows, prov, a, t)
    ensures Credentials(rows[a := t], prov.minted, prov.nextHash)
  {
    var after := rows[a := t];
    forall b <- after.Keys ensures CredentialOk(after, prov.minted, prov.nextHash, b) {
      assert b != a ==> CredentialOk(rows, prov.minted, prov.nextHash, b);
    }
  }

  lemma RowOneOpen(rows: Rows, ops: Ops, prov: Provider, a: AttemptId, t: Attempt)
    requires OneOpen(rows, ops) && RowChange(rows, prov, a, t)
    ensures OneOpen(rows[a := t], ops)
  {
  }

  lemma RowCurrents(rows: Rows, ops: Ops, claimed: set<AttemptId>, prov: Provider, a: AttemptId, t: Attempt)
    requires Currents(rows, ops, claimed, prov.minted) && RowChange(rows, prov, a, t)
    ensures Currents(rows[a := t], ops, claimed, prov.minted)
  {
    forall o <- ops.Keys
      ensures CurrentOk(rows[a := t], claimed, prov.minted, AttemptId(o, ops[o].currentIndex), ops[o].state)
    {
      assert CurrentOk(rows, claimed, prov.minted, AttemptId(o, ops[o].currentIndex), ops[o].state);
    }
  }

  lemma RowKeys(rows: Rows, claimed: set<AttemptId>, prov: Provider, a: AttemptId, t: Attempt)
    requires Keys(rows, prov, claimed) && Pendings(rows, prov) && RowChange(rows, prov, a, t)
    ensures Keys(rows[a := t], prov, claimed) && Pendings(rows[a := t], prov)
  {
    forall h <- prov.minted.Keys ensures KeyOk(rows[a := t], prov, claimed, h) {
      assert KeyOk(rows, prov, claimed, h);
    }
    forall b <- prov.pending ensures PendingOk(rows[a := t], b) {
      assert PendingOk(rows, b);
    }
  }

  lemma RowDeliveries(deliveries: map<DeliveryId, Delivery>, rows: Rows, claimed: set<AttemptId>, prov: Provider, a: AttemptId, t: Attempt)
    requires Deliveries(deliveries, rows, prov.minted, claimed) && RowChange(rows, prov, a, t)
    ensures Deliveries(deliveries, rows[a := t], prov.minted, claimed)
  {
    forall d <- deliveries.Keys ensures DeliveryOk(rows[a := t], prov.minted, claimed, deliveries[d]) {
      assert DeliveryOk(rows, prov.minted, claimed, deliveries[d]);
    }
  }

  lemma RowIndices(rows: Rows, ops: Ops, claimed: set<AttemptId>, a: AttemptId, t: Attempt)
    requires Indices(rows, ops) && ClaimedKnown(rows, claimed) && a in rows
    ensures Indices(rows[a := t], ops) && ClaimedKnown(rows[a := t], claimed)
  {
    forall o <- ops.Keys ensures Indexed(rows[a := t], o, ops[o].attemptCount) {
      assert Indexed(rows, o, ops[o].attemptCount);
    }
  }

  lemma RowTables(db: Db, prov: Provider, claimed: set<AttemptId>, nextToken: Token, a: AttemptId, t: Attempt)
    requires TablesOk(db, prov, claimed, nextToken) && RowChange(db.attempts, prov, a, t)
    requires AttemptOk(db.attempts[a := t], db.ops, claimed, nextToken, a)
    ensures TablesOk(SetAttempt(db, a, t), prov, claimed, nextToken)
  {
    hide Attempts, Credentials, OneOpen, Operations, Indices, Currents, Keys, OneKeyEach, Pendings, Deliveries;
    hide Entitlements, ClaimedKnown, CurrentOk, RowChange, AttemptOk;
    RowAttempts(db.attempts, db.ops, claimed, nextToken, prov, a, t);
    RowCredentials(db.attempts, prov, a, t);
    RowOneOpen(db.attempts, db.ops, prov, a, t);
    RowCurrents(db.attempts, db.ops, claimed, prov, a, t);
    RowKeys(db.attempts, claimed, prov, a, t);
    RowDeliveries(db.deliveries, db.attempts, claimed, prov, a, t);
    RowIndices(db.attempts, db.ops, claimed, a, t) by { RowChangeIn(db.attempts, prov, a, t); }
  }

  lemma RowChangeIn(rows: Rows, prov: Provider, a: AttemptId, t: Attempt)
    requires RowChange(rows, prov, a, t)
    ensures a in rows
  {
  }

  /** A row change that no other request or worker can notice to its harm. */
  predicate Gentle(prov: Provider, nextToken: Token, a: AttemptId, before: Attempt, after: Attempt) {
    && (!before.inFlight ==> !after.inFlight)
    && (before.credential.Some? ==> after.credential == before.credential)
    && (before.outcome == Cleaned ==> after.outcome == Cleaned)
    && (after.token.Some? ==> after.token == before.token || after.token.value >= nextToken)
    && (after.credential != before.credential ==>
          after.token.None? || (before.inFlight && after.credential.Some? && MintedBy(prov.minted, after.credential.value, a)))
  }

  lemma GentlePc(rows: Rows, ops: Ops, prov: Provider, claimed: set<AttemptId>, nextToken: Token, a: AttemptId, t: Attempt, pc: Pc)
    requires PcOk(rows, ops, prov, claimed, nextToken, pc) && OneKeyEach(prov.minted)
    requires a in rows && Gentle(prov, nextToken, a, rows[a], t)
    ensures PcOk(rows[a := t], ops, prov, claimed, nextToken, pc)
  {
  }

  // ---------- requests and workers ----------

  lemma ApartMoved(procs: map<Pid, Pc>, p: Pid, pc: Pc)
    requires ProcsApart(procs) && p in procs
    requires IsOwner(procs[p]) <==> IsOwner(pc)
    requires if IsOwner(pc) then pc.a == procs[p].a else pc.token == procs[p].token
    ensures ProcsApart(procs[p := pc])
  {
  }

  lemma ApartLeft(procs: map<Pid, Pc>, p: Pid)
    requires ProcsApart(procs)
    ensures ProcsApart(map q | q in procs && q != p :: procs[q])
  {
  }

  lemma MovedProcs(s: Sys, p: Pid, pc: Pc)
    requires Procs(s.procs, s.db.attempts, s.db.ops, s.prov, s.claimed, s.nextToken)
    requires PcOk(s.db.attempts, s.db.ops, s.prov, s.claimed, s.nextToken, pc)
    ensures Procs(s.procs[p := pc], s.db.attempts, s.db.ops, s.prov, s.claimed, s.nextToken)
  {
  }

  lemma LeftProcs(s: Sys, p: Pid)
    requires Procs(s.procs, s.db.attempts, s.db.ops, s.prov, s.claimed, s.nextToken)
    ensures Procs(Leave(s, p).procs, s.db.attempts, s.db.ops, s.prov, s.claimed, s.nextToken)
  {
  }

  lemma GentleProcs(s: Sys, a: AttemptId, t: Attempt)
    requires Procs(s.procs, s.db.attempts, s.db.ops, s.prov, s.claimed, s.nextToken) && OneKeyEach(s.prov.minted)
    requires a in s.db.attempts && Gentle(s.prov, s.nextToken, a, s.db.attempts[a], t)
    ensures Procs(s.procs, s.db.attempts[a := t], s.db.ops, s.prov, s.claimed, s.nextToken)
  {
    forall p <- s.procs.Keys ensures PcOk(s.db.attempts[a := t], s.db.ops, s.prov, s.claimed, s.nextToken, s.procs[p]) {
      hide OneKeyEach, Gentle, PcOk;
      GentlePc(s.db.attempts, s.db.ops, s.prov, s.claimed, s.nextToken, a, t, s.procs[p]);
    }
  }

  /** A move of one request or worker that touches nothing else. */
  lemma MoveKeeps(s: Sys, p: Pid, pc: Pc)
    requires Inv(s) && p in s.procs
    requires IsOwner(s.procs[p]) <==> IsOwner(pc)
    requires if IsOwner(pc) then pc.a == s.procs[p].a else pc.token == s.procs[p].token
    requires PcOk(s.db.attempts, s.db.ops, s.prov, s.claimed, s.nextToken, pc)
    ensures Inv(Goto(s, p, pc))
  {
    hide TablesOk, Procs, ProcsApart, PcOk;
    ApartMoved(s.procs, p, pc);
    MovedProcs(s, p, pc);
  }

  lemma LeaveKeeps(s: Sys, p: Pid)
    requires Inv(s)
    ensures Inv(Leave(s, p))
  {
    hide TablesOk, Procs, ProcsApart;
    ApartLeft(s.procs, p);
    LeftProcs(s, p);
  }

  lemma GentleKeeps(s: Sys, a: AttemptId, t: Attempt)
    requires Inv(s) && RowChange(s.db.attempts, s.prov, a, t)
    requires AttemptOk(s.db.attempts[a := t], s.db.ops, s.claimed, s.nextToken, a)
    requires Gentle(s.prov, s.nextToken, a, s.db.attempts[a], t)
    ensures Inv(WithDb(s, SetAttempt(s.db, a, t)))
  {
    hide Attempts, Credentials, OneOpen, Operations, Indices, Currents, Keys, OneKeyEach, Pendings, Deliveries;
    hide Entitlements, ClaimedKnown, Procs, ProcsApart, CurrentOk, RowChange, AttemptOk, Gentle;
    RowTables(s.db, s.prov, s.claimed, s.nextToken, a, t);
    RowChangeIn(s.db.attempts, s.prov, a, t);
    GentleProcs(s, a, t);
  }

  // ---------- what the invariant says about one row ----------

  lemma OpFacts(s: Sys, o: OperationId)
    requires Inv(s) && o in s.db.ops
    ensures OperationOk(s.db.ops[o])
    ensures CurrentOk(s.db.attempts, s.claimed, s.prov.minted, AttemptId(o, s.db.ops[o].currentIndex), s.db.ops[o].state)
    ensures Indexed(s.db.attempts, o, s.db.ops[o].attemptCount)
  {
  }

  lemma RowFacts(s: Sys, a: AttemptId)
    requires Inv(s) && a in s.db.attempts
    ensures AttemptOk(s.db.attempts, s.db.ops, s.claimed, s.nextToken, a)
    ensures CredentialOk(s.db.attempts, s.prov.minted, s.prov.nextHash, a)
    ensures a in s.prov.pending ==> s.db.attempts[a].inFlight
  {
  }

  lemma DeliveryFacts(s: Sys, d: DeliveryId)
    requires Inv(s) && d in s.db.deliveries
    ensures DeliveryOk(s.db.attempts, s.prov.minted, s.claimed, s.db.deliveries[d])
  {
  }

  lemma KeyFacts(s: Sys, h: KeyHash)
    requires Inv(s) && h in s.prov.minted
    ensures KeyOk(s.db.attempts, s.prov, s.claimed, h)
    ensures s.prov.minted[h] !in s.prov.pending
  {
  }

  lemma PcFacts(s: Sys, p: Pid)
    requires Inv(s) && p in s.procs
    ensures PcOk(s.db.attempts, s.db.ops, s.prov, s.claimed, s.nextToken, s.procs[p])
  {
  }

  lemma EntitlementFacts(s: Sys, e: EntitlementId)
    requires Inv(s) && e in s.db.entitlements
    ensures EntitlementOk(s.db.ops, s.prov, s.db.entitlements[e])
  {
  }

  /** Every live key of an attempt is its recorded credential unless its create is still in flight. */
  lemma LiveKeysOf(s: Sys, a: AttemptId)
    requires Inv(s) && a in s.db.attempts
    ensures forall h <- s.prov.live :: MintedBy(s.prov.minted, h, a) ==>
              && s.db.attempts[a].outcome != Cleaned
              && (s.db.attempts[a].inFlight || s.db.attempts[a].credential == Some(h))
  {
    forall h <- s.prov.live | MintedBy(s.prov.minted, h, a)
      ensures s.db.attempts[a].outcome != Cleaned
      ensures s.db.attempts[a].inFlight || s.db.attempts[a].credential == Some(h)
    {
      hide Inv;
      KeyFacts(s, h);
    }
  }

  // ---------- the steps on operations ----------

  lemma CreateOperationTables(db: Db, prov: Provider, claimed: set<AttemptId>, nextToken: Token, o: OperationId, row: Operation)
    requires TablesOk(db, prov, claimed, nextToken) && o !in db.ops
    requires OperationOk(row) && row.attemptCount == 0 && row.state == Authenticated
    ensures Attempts(db.attempts, db.ops[o := row], claimed, nextToken)
    ensures Operations(db.ops[o := row]) && Indices(db.attempts, db.ops[o := row])
    ensures Currents(db.attempts, db.ops[o := row], claimed, prov.minted)
  {
    hide Credentials, OneOpen, Keys, OneKeyEach, Pendings, Deliveries, Entitlements;
    forall a <- db.attempts.Keys ensures AttemptOk(db.attempts, db.ops[o := row], claimed, nextToken, a) {
      assert AttemptOk(db.attempts, db.ops, claimed, nextToken, a);
    }
    assert AttemptId(o, 0) !in claimed;
  }

  lemma CreateOperationOneOpen(rows: Rows, ops: Ops, claimed: set<AttemptId>, nextToken: Token, o: OperationId, row: Operation)
    requires Attempts(rows, ops, claimed, nextToken) && OneOpen(rows, ops) && o !in ops
    ensures OneOpen(rows, ops[o := row])
  {
    forall a <- rows.Keys, b <- rows.Keys | a != b && SameSubject(ops[o := row], a, b)
      ensures Settled(rows[a]) || Settled(rows[b])
    {
      assert AttemptOk(rows, ops, claimed, nextToken, a) && AttemptOk(rows, ops, claimed, nextToken, b);
      assert SameSubject(ops, a, b);
    }
  }

  lemma CreateOperationProcs(s: Sys, o: OperationId, row: Operation)
    requires Entitlements(s.db.entitlements, s.db.ops, s.prov) && o !in s.db.ops
    requires Procs(s.procs, s.db.attempts, s.db.ops, s.prov, s.claimed, s.nextToken)
    ensures Entitlements(s.db.entitlements, s.db.ops[o := row], s.prov)
    ensures Procs(s.procs, s.db.attempts, s.db.ops[o := row], s.prov, s.claimed, s.nextToken)
  {
    forall e <- s.db.entitlements.Keys ensures EntitlementOk(s.db.ops[o := row], s.prov, s.db.entitlements[e]) {
      assert EntitlementOk(s.db.ops, s.prov, s.db.entitlements[e]);
    }
    forall p <- s.procs.Keys ensures PcOk(s.db.attempts, s.db.ops[o := row], s.prov, s.claimed, s.nextToken, s.procs[p]) {
      assert PcOk(s.db.attempts, s.db.ops, s.prov, s.claimed, s.nextToken, s.procs[p]);
    }
  }

  lemma CreateOperationKeeps(s: Sys, o: OperationId, subject: Subject, now: Instant)
    requires Inv(s)
    ensures Inv(WithDb(s, CreateOperation(s.db, o, subject, now)))
  {
    hide Attempts, Credentials, OneOpen, Operations, Indices, Currents, Keys, OneKeyEach, Pendings, Deliveries;
    hide Entitlements, ClaimedKnown, Procs, ProcsApart;
    if o !in s.db.ops {
      var row := Operation(subject, Authenticated, Wait, 0, 0, now + AUTH_TTL_MS, None);
      CreateOperationTables(s.db, s.prov, s.claimed, s.nextToken, o, row);
      CreateOperationOneOpen(s.db.attempts, s.db.ops, s.claimed, s.nextToken, o, row);
      CreateOperationProcs(s, o, row);
    }
  }

  lemma TransitionKeeps(s: Sys, o: OperationId, to: OperationState, from: set<OperationState>, guard: Option<nat>)
    requires Inv(s)
    requires (to == IssueReady && from == {Authenticated})
          || (to == CreateUnknown && from in {{Creating}, {DeliveryPending}})
          || (to == DeliveryPending && from == {Creating})
    ensures Inv(WithDb(s, Transition(s.db, o, to, from, guard)))
  {
    hide Inv;
    if TransitionApplies(s.db, o, from, guard) {
      OpFacts(s, o);
      var cur := AttemptId(o, s.db.ops[o].currentIndex);
      if cur in s.db.attempts {
        RowFacts(s, cur);
      }
      OpUpdateKeeps(s, o, s.db.ops[o].(state := to, clientAction := ClientActionForState(to)));
    }
  }

  lemma ExpireKeeps(s: Sys, o: OperationId)
    requires Inv(s)
    ensures Inv(WithDb(s, ExpireOperation(s.db, o)))
  {
    hide Inv;
    if o in s.db.ops && s.db.ops[o].state != Active && s.db.ops[o].state != Failed {
      OpFacts(s, o);
      OpUpdateKeeps(s, o, s.db.ops[o].(state := Failed, clientAction := ActionRequired, failure := Some(AuthorizationExpired)));
    }
  }

  lemma FailKeeps(s: Sys, o: OperationId, index: nat, reason: FailureReason)
    requires Inv(s)
    ensures Inv(WithDb(s, FailOperation(s.db, o, index, reason)))
  {
    hide Inv;
    if FailApplies(s.db, o, index) {
      OpFacts(s, o);
      OpUpdateKeeps(s, o, s.db.ops[o].(state := Failed, clientAction := ActionRequired, failure := Some(reason)));
    }
  }

  lemma ActivateKeeps(s: Sys, d: DeliveryId)
    requires Inv(s)
    ensures Inv(WithDb(s, ActivateOnAck(s.db, d)))
  {
    hide Inv;
    if ActivateApplies(s.db, d) {
      var o := s.db.deliveries[d].attempt.op;
      DeliveryFacts(s, d);
      OpFacts(s, o);
      RowFacts(s, s.db.deliveries[d].attempt);
      OpUpdateKeeps(s, o, s.db.ops[o].(state := Active, clientAction := Wait, failure := None));
    }
  }
}
