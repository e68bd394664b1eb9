/** Every step keeps the invariant: deliveries, requests, the provider and cleanup workers. */
module OperationSteps {
  import opened Wrappers
  import opened BrokerTypes
  import opened BrokerSql
  import opened OperationProtocol
  import opened OperationInvariant
  import opened OperationPreserved

  // ---------- deliveries and entitlements ----------

  lemma DeliveryChangeKeeps(s: Sys, d: DeliveryId, row: Delivery)
    requires Inv(s) && DeliveryOk(s.db.attempts, s.prov.minted, s.claimed, row)
    ensures Inv(WithDb(s, SetDelivery(s.db, d, row)))
  {
    hide Attempts, Credentials, OneOpen, Operations, Indices, Currents, Keys, OneKeyEach, Pendings;
    hide Entitlements, ClaimedKnown, Procs, ProcsApart, DeliveryOk;
  }

  lemma EntitlementsChangeKeeps(s: Sys, entitlements: map<EntitlementId, Entitlement>)
    requires Inv(s)
    requires forall e <- entitlements.Keys :: EntitlementOk(s.db.ops, s.prov, entitlements[e])
    ensures Inv(WithDb(s, s.db.(entitlements := entitlements)))
  {
    hide Attempts, Credentials, OneOpen, Operations, Indices, Currents, Keys, OneKeyEach, Pendings, Deliveries;
    hide ClaimedKnown, Procs, ProcsApart, EntitlementOk;
  }

  lemma EntitlementsOk(s: Sys)
    requires Inv(s)
    ensures forall e <- s.db.entitlements.Keys :: EntitlementOk(s.db.ops, s.prov, s.db.entitlements[e])
  {
    hide Attempts, Credentials, OneOpen, Operations, Indices, Currents, Keys, OneKeyEach, Pendings, Deliveries;
    hide ClaimedKnown, Procs, ProcsApart, EntitlementOk;
  }

  lemma ExpireDeliveryKeeps(s: Sys, d: DeliveryId, now: Instant)
    requires Inv(s)
    ensures Inv(WithDb(s, ExpireDelivery(s.db, d, now)))
  {
    hide Inv;
    if d in s.db.deliveries && s.db.deliveries[d].status == AwaitingAck {
      DeliveryFacts(s, d);
      DeliveryChangeKeeps(s, d, s.db.deliveries[d].(status := Expired, failedAt := Some(now), failure := Some(ResumeStaleDeliveryExpired)));
    }
  }

  lemma GrantKeeps(s: Sys, e: EntitlementId)
    requires Inv(s) && e in s.db.entitlements
    ensures Inv(WithDb(s, Grant(s.db, e)))
  {
    hide Inv;
    EntitlementsOk(s);
    EntitlementsChangeKeeps(s, Grant(s.db, e).entitlements);
  }

  lemma AckKeeps(s: Sys, d: DeliveryId, e: EntitlementId, recorded: bool)
    requires Inv(s)
    ensures Inv(WithDb(s, AckBatch(s.db, d, e, recorded)))
  {
    hide Inv;
    if CanAck(s.db, d, e) || CanGrant(s.db, d, e) {
      GrantKeeps(s, e);
      if recorded && CanAck(s.db, d, e) {
        DeliveryFacts(s, d);
        DeliveryChangeKeeps(WithDb(s, Grant(s.db, e)), d, s.db.deliveries[d].(status := Acknowledged));
      }
    }
  }

  lemma RepairAckKeeps(s: Sys, d: DeliveryId)
    requires Inv(s)
    ensures Inv(WithDb(s, RepairAck(s.db, d)))
  {
    hide Inv;
    if d in s.db.deliveries {
      DeliveryFacts(s, d);
      if s.db.deliveries[d].status == AwaitingAck {
        DeliveryChangeKeeps(s, d, s.db.deliveries[d].(status := Acknowledged));
      }
    }
  }

  /** A bound delivery never carries the stale-delivery claim reason, so this repair never fires. */
  lemma AckCleanupClaimIdle(s: Sys, d: DeliveryId, at: Option<Instant>)
    requires Inv(s)
    ensures AckCleanupClaim(s.db, d, at) == s.db
  {
    hide Inv;
    if d in s.db.deliveries {
      DeliveryFacts(s, d);
    }
  }

  lemma HousekeepKeeps(s: Sys, e: EntitlementId, row: Option<Entitlement>)
    requires Inv(s)
    ensures Inv(Housekeep(s, e, row))
  {
    hide Inv;
    EntitlementsOk(s);
    if row.None? {
      EntitlementsChangeKeeps(s, map k | k in s.db.entitlements && k != e :: s.db.entitlements[k]);
    } else if HousekeepingAllowed(s, e, row.value) {
      EntitlementsChangeKeeps(s, s.db.entitlements[e := row.value]);
    }
  }

  lemma OwnerWritesEntitlementKeeps(s: Sys, p: Pid, e: EntitlementId, phase: EntitlementPhase)
    requires Inv(s)
    ensures Inv(OwnerWritesEntitlement(s, p, e, phase))
  {
    hide Inv;
    if p in s.procs && (s.procs[p].Holding? || s.procs[p].Recorded?) && s.procs[p].a.op in s.db.ops {
      var pc := s.procs[p];
      EntitlementsOk(s);
      PcFacts(s, p);
      KeyFacts(s, pc.key);
      EntitlementsChangeKeeps(s, s.db.entitlements[e := Entitlement(s.db.ops[pc.a.op].subject, Some(pc.key), phase)]);
    }
  }

  // ---------- the request that owns an attempt ----------

  lemma ReadCredentialKeeps(s: Sys, p: Pid, e: EntitlementId)
    requires Inv(s)
    ensures Inv(ReadCredential(s, p, e))
  {
    hide Inv;
    if ReadCredential(s, p, e) != s {
      PcFacts(s, p);
      EntitlementFacts(s, e);
      var h := s.db.entitlements[e].credential.value;
      MoveKeeps(s, p, Adopting(s.procs[p].a, h));
    }
  }

  /** What a record of key `h` needs: it was made by this attempt, or by a settled one of its subject. */
  lemma RecordKeeps(s: Sys, a: AttemptId, h: KeyHash)
    requires Inv(s) && a in s.db.attempts && h < s.prov.nextHash
    requires !s.db.attempts[a].inFlight
    requires h in s.prov.minted && s.prov.minted[h] != a ==>
               s.prov.minted[h] in s.db.attempts && SameSubject(s.db.ops, s.prov.minted[h], a)
    ensures Inv(WithDb(s, RecordCredential(s.db, a, h)))
  {
    hide Inv;
    if CanRecord(s.db, a, h) {
      var t := s.db.attempts[a].(credential := Some(h), outcome := Created);
      RowFacts(s, a);
      LiveKeysOf(s, a);
      if h in s.prov.minted && s.prov.minted[h] != a {
        OthersSettled(s, a, s.prov.minted[h]);
      }
      GentleKeeps(s, a, t);
    }
  }

  lemma OthersSettled(s: Sys, a: AttemptId, b: AttemptId)
    requires Inv(s) && a in s.db.attempts && b in s.db.attempts && a != b && SameSubject(s.db.ops, a, b)
    ensures Settled(s.db.attempts[a]) || Settled(s.db.attempts[b])
  {
  }

  lemma AdoptKeeps(s: Sys, p: Pid)
    requires Inv(s)
    ensures Inv(Adopt(s, p))
  {
    hide Inv;
    if p in s.procs && s.procs[p].Adopting? {
      var pc := s.procs[p];
      PcFacts(s, p);
      if pc.key in s.prov.minted {
        KeyFacts(s, pc.key);
      }
      RecordKeeps(s, pc.a, pc.key);
      MoveKeeps(WithDb(s, RecordCredential(s.db, pc.a, pc.key)), p, Unwinding(pc.a, None));
    }
  }

  lemma RecordStepKeeps(s: Sys, p: Pid)
    requires Inv(s)
    ensures Inv(Record(s, p))
  {
    hide Inv;
    if p in s.procs && (s.procs[p].Holding? || (s.procs[p].Unwinding? && s.procs[p].known.Some?)) {
      var pc := s.procs[p];
      var h := if pc.Holding? then pc.key else pc.known.value;
      PcFacts(s, p);
      KeyFacts(s, h);
      RecordKeeps(s, pc.a, h);
      var next := if pc.Unwinding? then Unwinding(pc.a, None)
                  else if CanRecord(s.db, pc.a, h) then Recorded(pc.a, h) else Unwinding(pc.a, Some(h));
      MoveKeeps(WithDb(s, RecordCredential(s.db, pc.a, h)), p, next);
    }
  }

  lemma ReceiveKeeps(s: Sys, p: Pid, key: KeyHash)
    requires Inv(s)
    ensures Inv(Receive(s, p, key))
  {
    hide Inv;
    if Receive(s, p, key) != s {
      PcFacts(s, p);
      MoveKeeps(s, p, Answered(s.procs[p].a, key));
    }
  }

  lemma GiveUpKeeps(s: Sys, p: Pid)
    requires Inv(s)
    ensures Inv(GiveUp(s, p))
  {
    hide Inv;
    if p in s.procs && IsOwner(s.procs[p]) {
      PcFacts(s, p);
      RowFacts(s, s.procs[p].a);
      MoveKeeps(s, p, Unwinding(s.procs[p].a, KnownKey(s.procs[p])));
    }
  }

  lemma WriteBackKeeps(s: Sys, p: Pid, returned: bool)
    requires Inv(s)
    ensures Inv(WriteBackAnswer(s, p, returned))
  {
    hide Inv;
    if p in s.procs && (s.procs[p].Answered? || s.procs[p].Rejected?) {
      var pc := s.procs[p];
      var a := pc.a;
      PcFacts(s, p);
      RowFacts(s, a);
      LiveKeysOf(s, a);
      var key := if pc.Answered? then Some(pc.key) else None;
      if pc.Answered? {
        KeyFacts(s, pc.key);
      }
      var s1 := WithDb(s, WriteBack(s.db, a, key));
      if s.db.attempts[a].inFlight {
        WriteBackRow(s, a, key);
      }
      var next := if pc.Rejected? then Unwinding(a, None)
                  else if returned then Holding(a, pc.key) else Unwinding(a, Some(pc.key));
      MoveKeeps(s1, p, next);
    }
  }

  lemma WriteBackRow(s: Sys, a: AttemptId, key: Option<KeyHash>)
    requires Inv(s) && a in s.db.attempts && s.db.attempts[a].inFlight && a !in s.prov.pending
    requires if key.Some? then MintedBy(s.prov.minted, key.value, a) else NoKeyOf(s.prov, a)
    ensures Inv(WithDb(s, WriteBack(s.db, a, key)))
  {
    hide Inv;
    var t := s.db.attempts[a].(inFlight := false, credential := if key.Some? then key else s.db.attempts[a].credential,
                               outcome := if key.Some? then Created else s.db.attempts[a].outcome);
    RowFacts(s, a);
    LiveKeysOf(s, a);
    if key.Some? {
      KeyFacts(s, key.value);
      forall h <- s.prov.live | MintedBy(s.prov.minted, h, a) ensures h == key.value {
        OneKey(s, h, key.value);
      }
    }
    GentleKeeps(s, a, t);
  }

  lemma OneKey(s: Sys, h: KeyHash, k: KeyHash)
    requires Inv(s) && h in s.prov.minted && k in s.prov.minted && s.prov.minted[h] == s.prov.minted[k]
    ensures h == k
  {
  }

  lemma DeliverKeeps(s: Sys, p: Pid, d: DeliveryId, expiresAt: Instant)
    requires Inv(s)
    ensures Inv(Deliver(s, p, d, expiresAt))
  {
    hide Inv;
    if p in s.procs && s.procs[p].Recorded? && d !in s.db.deliveries {
      var pc := s.procs[p];
      PcFacts(s, p);
      RowFacts(s, pc.a);
      if CanDeliver(s.db, pc.a, pc.key) {
        OpFacts(s, pc.a.op);
        DeliveryChangeKeeps(s, d, Delivery(pc.a, pc.key, AwaitingAck, expiresAt, None, None));
      }
      MoveKeeps(WithDb(s, InsertDelivery(s.db, d, pc.a, pc.key, expiresAt)), p,
                if CanDeliver(s.db, pc.a, pc.key) then Delivered(pc.a, pc.key) else Unwinding(pc.a, Some(pc.key)));
    }
  }

  lemma SettleKeeps(s: Sys, p: Pid)
    requires Inv(s)
    ensures Inv(Settle(s, p))
  {
    hide Inv;
    if p in s.procs && (s.procs[p].Recorded? || s.procs[p].Delivered?) {
      var pc := s.procs[p];
      PcFacts(s, p);
      RowFacts(s, pc.a);
      var to := if pc.Delivered? then DeliveryPending else Active;
      var db := Transition(s.db, pc.a.op, to, {Creating}, Some(pc.a.index));
      if TransitionApplies(s.db, pc.a.op, {Creating}, Some(pc.a.index)) {
        OpFacts(s, pc.a.op);
        OpUpdateKeeps(s, pc.a.op, s.db.ops[pc.a.op].(state := to, clientAction := ClientActionForState(to)));
      }
      MoveKeeps(WithDb(s, db), p, Unwinding(pc.a, Some(pc.key)));
    }
  }

  lemma MarkUnknownKeeps(s: Sys, p: Pid)
    requires Inv(s)
    ensures Inv(OwnerMarksUnknown(s, p))
  {
    hide Inv;
    if p in s.procs && s.procs[p].Unwinding? && CanMarkUnknown(s.db, s.procs[p].a) {
      var a := s.procs[p].a;
      RowFacts(s, a);
      LiveKeysOf(s, a);
      GentleKeeps(s, a, s.db.attempts[a].(outcome := Unknown));
    }
  }

  lemma ReleaseKeeps(s: Sys, p: Pid)
    requires Inv(s)
    ensures Inv(Release(s, p))
  {
    hide Inv;
    if p in s.procs && (s.procs[p].Fresh? || s.procs[p].Unwinding?) && CanRelease(s.db, s.procs[p].a) {
      var a := s.procs[p].a;
      PcFacts(s, p);
      RowFacts(s, a);
      LiveKeysOf(s, a);
      GentleKeeps(s, a, s.db.attempts[a].(outcome := Cleaned));
      MoveKeeps(WithDb(s, ReleaseUnstarted(s.db, a)), p, Releasing(a));
    }
  }

  lemma ReleaseOperationKeeps(s: Sys, p: Pid)
    requires Inv(s)
    ensures Inv(ReleaseOperation(s, p))
  {
    hide Inv;
    if p in s.procs && s.procs[p].Releasing? {
      var a := s.procs[p].a;
      PcFacts(s, p);
      RowFacts(s, a);
      var db := Transition(s.db, a.op, RetryReady, {Creating, CreateUnknown}, Some(a.index));
      if TransitionApplies(s.db, a.op, {Creating, CreateUnknown}, Some(a.index)) {
        OpFacts(s, a.op);
        OpUpdateKeeps(s, a.op, s.db.ops[a.op].(state := RetryReady, clientAction := RetryAuthorized));
      }
      MoveKeeps(WithDb(s, db), p, Unwinding(a, None));
    }
  }
}
