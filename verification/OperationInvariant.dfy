/** What every reachable state of the protocol satisfies, one predicate for each group of tables. */
module OperationInvariant {
  import opened Wrappers
  import opened BrokerTypes
  import opened BrokerSql
  import opened OperationProtocol

  type Ops = map<OperationId, Operation>
  type Rows = map<AttemptId, Attempt>
  type Minted = map<KeyHash, AttemptId>

  predicate MintedBy(minted: Minted, h: KeyHash, a: AttemptId) {
    h in minted && minted[h] == a
  }

  /** The request of this attempt made no key, and no such request is under way. */
  ghost predicate NoKeyOf(prov: Provider, a: AttemptId) {
    a !in prov.pending && forall h <- prov.minted.Keys :: prov.minted[h] != a
  }

  predicate CleanedIn(rows: Rows, a: AttemptId) {
    a in rows && rows[a].outcome == Cleaned
  }

  predicate SameSubject(ops: Ops, a: AttemptId, b: AttemptId) {
    a.op in ops && b.op in ops && ops[a.op].subject == ops[b.op].subject
  }

  // ---------- attempts ----------

  predicate RowOk(t: Attempt) {
    && (t.outcome == Cleaned ==> t.token.None? && !t.inFlight)
    && (t.inFlight ==> t.credential.None?)
    && (t.token.Some? ==> t.startedAt.Some?)
  }

  /** Each attempt has its operation, older attempts are settled, and a token is held only on the
      current attempt of an operation that is reconciling or failed. */
  predicate AttemptOk(rows: Rows, ops: Ops, claimed: set<AttemptId>, nextToken: Token, a: AttemptId)
    requires a in rows
  {
    && RowOk(rows[a])
    && a.op in ops
    && 1 <= a.index <= ops[a.op].attemptCount
    && (a.index < ops[a.op].currentIndex ==> Settled(rows[a]))
    && (rows[a].token.Some? ==>
          && a.index == ops[a.op].currentIndex && ops[a.op].state in {Reconciling, Failed}
          && a in claimed && rows[a].token.value < nextToken)
  }

  ghost predicate Attempts(rows: Rows, ops: Ops, claimed: set<AttemptId>, nextToken: Token) {
    forall a <- rows.Keys :: AttemptOk(rows, ops, claimed, nextToken, a)
  }

  /** A recorded credential that another attempt's request produced belongs to a cleaned attempt. */
  predicate CredentialOk(rows: Rows, minted: Minted, nextHash: KeyHash, a: AttemptId)
    requires a in rows
  {
    rows[a].credential.Some? ==>
      var h := rows[a].credential.value;
      h < nextHash && (h in minted && minted[h] != a ==> CleanedIn(rows, minted[h]))
  }

  ghost predicate Credentials(rows: Rows, minted: Minted, nextHash: KeyHash) {
    forall a <- rows.Keys :: CredentialOk(rows, minted, nextHash, a)
  }

  /** Of the attempts of one subject, at most one is not settled. */
  ghost predicate OneOpen(rows: Rows, ops: Ops) {
    forall a <- rows.Keys, b <- rows.Keys :: a != b && SameSubject(ops, a, b) ==> Settled(rows[a]) || Settled(rows[b])
  }

  // ---------- operations ----------

  predicate OperationOk(op: Operation) {
    && op.currentIndex == op.attemptCount
    && op.clientAction == ClientActionForState(op.state)
    && (op.failure.Some? <==> op.state == Failed)
    && op.state != Clean
    && (op.state in {Authenticated, IssueReady} ==> op.attemptCount == 0)
    && (op.state !in {Authenticated, IssueReady, Failed} ==> op.attemptCount > 0)
  }

  ghost predicate Operations(ops: Ops) {
    forall o <- ops.Keys :: OperationOk(ops[o])
  }

  predicate Indexed(rows: Rows, o: OperationId, count: nat) {
    forall i | 1 <= i <= count :: AttemptId(o, i) in rows
  }

  ghost predicate Indices(rows: Rows, ops: Ops) {
    forall o <- ops.Keys :: Indexed(rows, o, ops[o].attemptCount)
  }

  /** What the state of an operation says about its current attempt. */
  predicate CurrentOk(rows: Rows, claimed: set<AttemptId>, minted: Minted, cur: AttemptId, state: OperationState) {
    && (state == RetryReady ==> cur in rows && Settled(rows[cur]))
    && (state == Active ==>
          && cur in rows && cur !in claimed && rows[cur].credential.Some?
          && MintedBy(minted, rows[cur].credential.value, cur))
    && (cur in claimed ==> state in {Reconciling, CleanupRequired, Failed, RetryReady})
  }

  ghost predicate Currents(rows: Rows, ops: Ops, claimed: set<AttemptId>, minted: Minted) {
    forall o <- ops.Keys :: CurrentOk(rows, claimed, minted, AttemptId(o, ops[o].currentIndex), ops[o].state)
  }

  // ---------- provider keys ----------

  /** A live key is in flight or recorded on an uncleaned attempt; a key dies only after a claim. */
  predicate KeyOk(rows: Rows, prov: Provider, claimed: set<AttemptId>, h: KeyHash)
    requires h in prov.minted
  {
    var a := prov.minted[h];
    && h < prov.nextHash
    && a in rows
    && (h in prov.live ==> rows[a].outcome != Cleaned && (rows[a].inFlight || rows[a].credential == Some(h)))
    && (h !in prov.live ==> a in claimed)
  }

  ghost predicate Keys(rows: Rows, prov: Provider, claimed: set<AttemptId>) {
    && (forall h <- prov.live :: h in prov.minted)
    && (forall h <- prov.minted.Keys :: KeyOk(rows, prov, claimed, h))
  }

  ghost predicate OneKeyEach(minted: Minted) {
    forall h <- minted.Keys, k <- minted.Keys :: minted[h] == minted[k] ==> h == k
  }

  predicate PendingOk(rows: Rows, a: AttemptId) {
    a in rows && rows[a].inFlight
  }

  ghost predicate Pendings(rows: Rows, prov: Provider) {
    && (forall a <- prov.pending :: PendingOk(rows, a))
    && (forall h <- prov.minted.Keys :: prov.minted[h] !in prov.pending)
  }

  // ---------- deliveries and entitlements ----------

  predicate DeliveryOk(rows: Rows, minted: Minted, claimed: set<AttemptId>, row: Delivery) {
    && row.attempt in rows
    && rows[row.attempt].credential == Some(row.credential)
    && MintedBy(minted, row.credential, row.attempt)
    && row.status != NeedsCleanup
    && row.failure != Some(StaleDeliveryCleanupClaimed)
    && (row.status != Expired ==> row.attempt !in claimed)
  }

  ghost predicate Deliveries(deliveries: map<DeliveryId, Delivery>, rows: Rows, minted: Minted, claimed: set<AttemptId>) {
    forall d <- deliveries.Keys :: DeliveryOk(rows, minted, claimed, deliveries[d])
  }

  predicate EntitlementOk(ops: Ops, prov: Provider, row: Entitlement) {
    row.credential.Some? ==>
      var h := row.credential.value;
      && h < prov.nextHash
      && (h in prov.minted ==> prov.minted[h].op in ops && ops[prov.minted[h].op].subject == row.subject)
  }

  ghost predicate Entitlements(entitlements: map<EntitlementId, Entitlement>, ops: Ops, prov: Provider) {
    forall e <- entitlements.Keys :: EntitlementOk(ops, prov, entitlements[e])
  }

  // ---------- requests and workers ----------

  ghost predicate OwnerOk(t: Attempt, ops: Ops, prov: Provider, pc: Pc)
    requires IsOwner(pc)
  {
    match pc
    case Fresh(a) => NoKeyOf(prov, a) && !t.inFlight
    case Adopting(a, h) =>
      && NoKeyOf(prov, a) && !t.inFlight && h < prov.nextHash
      && (h in prov.minted ==> SameSubject(ops, prov.minted[h], a))
    case Requested(a) => true
    case Answered(a, h) => MintedBy(prov.minted, h, a)
    case Rejected(a) => NoKeyOf(prov, a)
    case Holding(a, h) => MintedBy(prov.minted, h, a) && !t.inFlight
    case Recorded(a, h) => MintedBy(prov.minted, h, a) && t.credential == Some(h)
    case Delivered(a, h) => MintedBy(prov.minted, h, a) && t.credential == Some(h)
    case Unwinding(a, known) => known.Some? ==> MintedBy(prov.minted, known.value, a) && !t.inFlight
    case Releasing(a) => t.outcome == Cleaned
  }

  ghost predicate WorkerOk(t: Attempt, prov: Provider, pc: Pc)
    requires IsWorker(pc)
  {
    match pc
    case Claimed(a, tok) => true
    case Scanning(a, tok, seen, seenInFlight, _) =>
      && (seen.Some? ==> t.credential == seen)
      && (t.token == Some(tok) && seen.None? ==>
            && (!seenInFlight ==> !t.inFlight && t.credential.None?)
            && (t.credential.Some? ==> MintedBy(prov.minted, t.credential.value, a)))
    case Pinning(a, tok, h, _) =>
      t.token == Some(tok) ==> t.credential == Some(h) || (t.credential.None? && MintedBy(prov.minted, h, a))
    case Pinned(a, tok, h, _) => t.credential == Some(h)
    case Deleted(a, tok, h, _, _) => t.credential == Some(h)
    case Verdict(a, tok, _, clean, _) =>
      clean && t.token == Some(tok) ==> !t.inFlight && forall h <- prov.live :: !MintedBy(prov.minted, h, a)
  }

  ghost predicate PcOk(rows: Rows, ops: Ops, prov: Provider, claimed: set<AttemptId>, nextToken: Token, pc: Pc) {
    && pc.a in rows
    && if IsOwner(pc) then OwnerOk(rows[pc.a], ops, prov, pc)
       else pc.token < nextToken && pc.a in claimed && WorkerOk(rows[pc.a], prov, pc)
  }

  ghost predicate Procs(procs: map<Pid, Pc>, rows: Rows, ops: Ops, prov: Provider, claimed: set<AttemptId>, nextToken: Token) {
    forall p <- procs.Keys :: PcOk(rows, ops, prov, claimed, nextToken, procs[p])
  }

  predicate Apart(x: Pc, y: Pc) {
    && (IsOwner(x) && IsOwner(y) ==> x.a != y.a)
    && (IsWorker(x) && IsWorker(y) ==> x.token != y.token)
  }

  ghost predicate ProcsApart(procs: map<Pid, Pc>) {
    forall p <- procs.Keys, q <- procs.Keys :: p != q ==> Apart(procs[p], procs[q])
  }

  ghost predicate ClaimedKnown(rows: Rows, claimed: set<AttemptId>) {
    claimed <= rows.Keys
  }

  // ---------- the whole invariant ----------

  ghost predicate TablesOk(db: Db, prov: Provider, claimed: set<AttemptId>, nextToken: Token) {
    && Attempts(db.attempts, db.ops, claimed, nextToken)
    && Credentials(db.attempts, prov.minted, prov.nextHash)
    && OneOpen(db.attempts, db.ops)
    && Operations(db.ops)
    && Indices(db.attempts, db.ops)
    && Currents(db.attempts, db.ops, claimed, prov.minted)
    && Keys(db.attempts, prov, claimed)
    && OneKeyEach(prov.minted)
    && Pendings(db.attempts, prov)
    && Deliveries(db.deliveries, db.attempts, prov.minted, claimed)
    && Entitlements(db.entitlements, db.ops, prov)
    && ClaimedKnown(db.attempts, claimed)
  }

  ghost predicate Inv(s: Sys) {
    && TablesOk(s.db, s.prov, s.claimed, s.nextToken)
    && Procs(s.procs, s.db.attempts, s.db.ops, s.prov, s.claimed, s.nextToken)
    && ProcsApart(s.procs)
  }

  lemma InitOk()
    ensures Inv(Init)
  {
  }
}
