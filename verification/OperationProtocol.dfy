/** The managed-key protocol as a state machine. Issue and resume requests, acknowledgements, cleanup
    workers, cron sweeps and the key provider take turns; one step is one SQL statement or batch, one
    answer read from the provider, or one event at the provider.

    An action that is not enabled leaves the system as it is, so a run is any sequence of actions.
    Every statement carries its own clock reading, with no relation assumed between readings. */
module OperationProtocol {
  import opened Wrappers
  import opened BrokerTypes
  import opened BrokerSql

  type Pid = nat

  /** `minted` remembers which attempt's request produced a key; `live` holds the keys not yet deleted. */
  datatype Provider = Provider(
    live: set<KeyHash>,
    pending: set<AttemptId>,
    minted: map<KeyHash, AttemptId>,
    nextHash: KeyHash)

  /** Where a request or worker stands between two steps. */
  datatype Pc =
    // the request that started an attempt
    | Fresh(a: AttemptId)
    | Adopting(a: AttemptId, key: KeyHash)
    | Requested(a: AttemptId)
    | Answered(a: AttemptId, key: KeyHash)
    | Rejected(a: AttemptId)
    | Holding(a: AttemptId, key: KeyHash)
    | Recorded(a: AttemptId, key: KeyHash)
    | Delivered(a: AttemptId, key: KeyHash)
    | Unwinding(a: AttemptId, known: Option<KeyHash>)
    | Releasing(a: AttemptId)
    // a cleanup worker that won a claim
    | Claimed(a: AttemptId, token: Token)
    | Scanning(a: AttemptId, token: Token, seen: Option<KeyHash>, seenInFlight: bool, offset: nat)
    | Pinning(a: AttemptId, token: Token, key: KeyHash, offset: nat)
    | Pinned(a: AttemptId, token: Token, key: KeyHash, offset: nat)
    | Deleted(a: AttemptId, token: Token, key: KeyHash, ok: bool, offset: nat)
    | Verdict(a: AttemptId, token: Token, credential: Option<KeyHash>, clean: bool, offset: nat)

  predicate IsOwner(pc: Pc) {
    pc.Fresh? || pc.Adopting? || pc.Requested? || pc.Answered? || pc.Rejected? || pc.Holding?
    || pc.Recorded? || pc.Delivered? || pc.Unwinding? || pc.Releasing?
  }

  predicate IsWorker(pc: Pc) {
    !IsOwner(pc)
  }

  /** `claimed` remembers every attempt a cleanup worker has ever claimed. */
  datatype Sys = Sys(
    db: Db,
    prov: Provider,
    procs: map<Pid, Pc>,
    claimed: set<AttemptId>,
    nextToken: Token)

  /** Statements that any request, acknowledgement or sweep may run at any time. */
  datatype TableAction =
    | ACreateOperation(o: OperationId, subject: Subject, now: Instant)
    | AIssueReady(o: OperationId)
    | AExpire(o: OperationId)
    | AFail(o: OperationId, index: nat, reason: FailureReason)
    | AStaleCreating(o: OperationId, index: nat)
    | AStaleDelivery(o: OperationId, index: nat)
    | AExpireDelivery(d: DeliveryId, now: Instant)
    | AAck(d: DeliveryId, e: EntitlementId, recorded: bool)
    | ARepairAck(d: DeliveryId)
    | AAckCleanupClaim(d: DeliveryId, at: Option<Instant>)
    | AActivate(d: DeliveryId)
    | ARepairInsert(a: AttemptId)
    | AHousekeep(e: EntitlementId, row: Option<Entitlement>)

  /** Steps of a request that starts an attempt. */
  datatype RequestAction =
    | AStart(o: OperationId, seen: nat, now: Instant)
    | AReadCredential(e: EntitlementId)
    | AAdopt
    | ASendCreate
    | AReceive(key: KeyHash)
    | AReject
    | AGiveUp
    | AWriteBack(returned: bool)
    | ARecord
    | AWriteEntitlement(e: EntitlementId, phase: EntitlementPhase)
    | ADeliver(d: DeliveryId, expiresAt: Instant)
    | ASettle
    | AMarkUnknown
    | ARelease
    | AReleaseOperation

  datatype ProviderEvent = ALand(a: AttemptId) | ALose(a: AttemptId) | AForeignKey

  /** Steps of a cleanup worker. */
  datatype WorkerAction =
    | AClaim(a: AttemptId, now: Instant, cron: bool)
    | AReadTarget
    | ALocate(key: KeyHash)
    | AScanMiss(complete: bool, nextOffset: nat)
    | APin
    | ADelete(removed: bool, ok: bool)
    | AVerify(absent: bool)
    | AFinish(now: Instant)

  datatype Action =
    | OnTables(t: TableAction)
    | ByRequest(p: Pid, r: RequestAction)
    | AtProvider(e: ProviderEvent)
    | ByWorker(p: Pid, w: WorkerAction)

  function WithDb(s: Sys, db: Db): Sys { s.(db := db) }

  function Goto(s: Sys, p: Pid, pc: Pc): Sys { s.(procs := s.procs[p := pc]) }

  function Leave(s: Sys, p: Pid): Sys { s.(procs := map q | q in s.procs && q != p :: s.procs[q]) }

  // ---------- requests ----------

  /** A request starts the next attempt of the snapshot it read and owns it from then on. */
  function Start(s: Sys, p: Pid, o: OperationId, seen: nat, now: Instant): Sys {
    if p in s.procs then s
    else if CanStart(s.db, o, seen, now)
    then Goto(WithDb(s, StartBatch(s.db, o, seen, now)), p, Fresh(AttemptId(o, seen + 1)))
    else WithDb(s, StartBatch(s.db, o, seen, now))
  }

  /** A resume finds a credential in its subject's entitlement and takes it for this attempt. */
  function ReadCredential(s: Sys, p: Pid, e: EntitlementId): Sys {
    if && p in s.procs && s.procs[p].Fresh? && e in s.db.entitlements && s.db.entitlements[e].credential.Some?
       && s.procs[p].a.op in s.db.ops && s.db.entitlements[e].subject == s.db.ops[s.procs[p].a.op].subject
    then Goto(s, p, Adopting(s.procs[p].a, s.db.entitlements[e].credential.value))
    else s
  }

  function Adopt(s: Sys, p: Pid): Sys {
    if p in s.procs && s.procs[p].Adopting?
    then
      var pc := s.procs[p];
      Goto(WithDb(s, RecordCredential(s.db, pc.a, pc.key)), p, Unwinding(pc.a, None))
    else s
  }

  /** Claims the create and sends the request to the provider. */
  function SendCreate(s: Sys, p: Pid): Sys {
    if p in s.procs && s.procs[p].Fresh?
    then
      var a := s.procs[p].a;
      if CanClaimCreate(s.db, a)
      then Goto(WithDb(s, ClaimCreate(s.db, a)).(prov := s.prov.(pending := s.prov.pending + {a})), p, Requested(a))
      else Goto(s, p, Unwinding(a, None))
    else s
  }

  function Receive(s: Sys, p: Pid, key: KeyHash): Sys {
    if p in s.procs && s.procs[p].Requested? && key in s.prov.minted && s.prov.minted[key] == s.procs[p].a
    then Goto(s, p, Answered(s.procs[p].a, key))
    else s
  }

  /** A definitive 4xx answer: the provider made no key and will make none. */
  function Reject(s: Sys, p: Pid): Sys {
    if p in s.procs && s.procs[p].Requested? && s.procs[p].a in s.prov.pending
    then Goto(s.(prov := s.prov.(pending := s.prov.pending - {s.procs[p].a})), p, Rejected(s.procs[p].a))
    else s
  }

  function KnownKey(pc: Pc): Option<KeyHash> {
    match pc
    case Holding(_, key) => Some(key)
    case Recorded(_, key) => Some(key)
    case Delivered(_, key) => Some(key)
    case Unwinding(_, known) => known
    case _ => None
  }

  /** Any failure of the request: it continues in its error handler, knowing the key only once
      the write-back statement has run. */
  function GiveUp(s: Sys, p: Pid): Sys {
    if p in s.procs && IsOwner(s.procs[p])
    then Goto(s, p, Unwinding(s.procs[p].a, KnownKey(s.procs[p])))
    else s
  }

  /** The write-back in the `finally` block; `returned` is false when the call rethrows. */
  function WriteBackAnswer(s: Sys, p: Pid, returned: bool): Sys {
    if p !in s.procs then s
    else match s.procs[p]
      case Answered(a, key) =>
        Goto(WithDb(s, WriteBack(s.db, a, Some(key))), p, if returned then Holding(a, key) else Unwinding(a, Some(key)))
      case Rejected(a) => Goto(WithDb(s, WriteBack(s.db, a, None)), p, Unwinding(a, None))
      case _ => s
  }

  function Record(s: Sys, p: Pid): Sys {
    if p !in s.procs then s
    else match s.procs[p]
      case Holding(a, key) =>
        Goto(WithDb(s, RecordCredential(s.db, a, key)), p,
             if CanRecord(s.db, a, key) then Recorded(a, key) else Unwinding(a, Some(key)))
      case Unwinding(a, Some(key)) => Goto(WithDb(s, RecordCredential(s.db, a, key)), p, Unwinding(a, None))
      case _ => s
  }

  function OwnerWritesEntitlement(s: Sys, p: Pid, e: EntitlementId, phase: EntitlementPhase): Sys {
    if p in s.procs && (s.procs[p].Holding? || s.procs[p].Recorded?) && s.procs[p].a.op in s.db.ops
    then WithDb(s, WriteEntitlement(s.db, e, s.db.ops[s.procs[p].a.op].subject, s.procs[p].key, phase))
    else s
  }

  function Deliver(s: Sys, p: Pid, d: DeliveryId, expiresAt: Instant): Sys {
    if p in s.procs && s.procs[p].Recorded? && d !in s.db.deliveries
    then
      var pc := s.procs[p];
      Goto(WithDb(s, InsertDelivery(s.db, d, pc.a, pc.key, expiresAt)), p,
           if CanDeliver(s.db, pc.a, pc.key) then Delivered(pc.a, pc.key) else Unwinding(pc.a, Some(pc.key)))
    else s
  }

  /** The post-create transition: to delivery-pending, or straight to active without acknowledgement. */
  function Settle(s: Sys, p: Pid): Sys {
    if p in s.procs && (s.procs[p].Recorded? || s.procs[p].Delivered?)
    then
      var pc := s.procs[p];
      var to := if pc.Delivered? then DeliveryPending else Active;
      Goto(WithDb(s, Transition(s.db, pc.a.op, to, {Creating}, Some(pc.a.index))), p, Unwinding(pc.a, Some(pc.key)))
    else s
  }

  function OwnerMarksUnknown(s: Sys, p: Pid): Sys {
    if p in s.procs && s.procs[p].Unwinding? then WithDb(s, MarkUnknown(s.db, s.procs[p].a)) else s
  }

  function Release(s: Sys, p: Pid): Sys {
    if p in s.procs && (s.procs[p].Fresh? || s.procs[p].Unwinding?) && CanRelease(s.db, s.procs[p].a)
    then Goto(WithDb(s, ReleaseUnstarted(s.db, s.procs[p].a)), p, Releasing(s.procs[p].a))
    else s
  }

  function ReleaseOperation(s: Sys, p: Pid): Sys {
    if p in s.procs && s.procs[p].Releasing?
    then
      var a := s.procs[p].a;
      Goto(WithDb(s, Transition(s.db, a.op, RetryReady, {Creating, CreateUnknown}, Some(a.index))), p, Unwinding(a, None))
    else s
  }

  // ---------- the provider ----------

  function Land(s: Sys, a: AttemptId): Sys {
    if a in s.prov.pending
    then
      var h := s.prov.nextHash;
      s.(prov := Provider(s.prov.live + {h}, s.prov.pending - {a}, s.prov.minted[h := a], h + 1))
    else s
  }

  function Lose(s: Sys, a: AttemptId): Sys {
    s.(prov := s.prov.(pending := s.prov.pending - {a}))
  }

  /** A key that no operation attempt asked for takes up a hash. */
  function ForeignKey(s: Sys): Sys {
    s.(prov := s.prov.(nextHash := s.prov.nextHash + 1))
  }

  // ---------- cleanup workers ----------

  function Claim(s: Sys, p: Pid, a: AttemptId, now: Instant, cron: bool): Sys {
    if p in s.procs || a.index == 0 then s
    else if CanClaim(s.db, a, now, cron)
    then
      Goto(s.(db := ClaimBatch(s.db, a, s.nextToken, now, cron), claimed := s.claimed + {a}, nextToken := s.nextToken + 1),
           p, Claimed(a, s.nextToken))
    else s.(db := ClaimBatch(s.db, a, s.nextToken, now, cron), nextToken := s.nextToken + 1)
  }

  function ReadTarget(s: Sys, p: Pid): Sys {
    if p in s.procs && s.procs[p].Claimed?
    then
      var pc := s.procs[p];
      if HoldsToken(s.db, pc.a, pc.token)
      then
        var t := s.db.attempts[pc.a];
        Goto(s, p, Scanning(pc.a, pc.token, t.credential, t.inFlight, t.scanOffset))
      else Leave(s, p)
    else s
  }

  /** The key to delete: the recorded one, or one the scan listed under the attempt's name. */
  function Locate(s: Sys, p: Pid, key: KeyHash): Sys {
    if p in s.procs && s.procs[p].Scanning?
       && (|| s.procs[p].seen == Some(key)
           || (s.procs[p].seen.None? && key in s.prov.minted && s.prov.minted[key] == s.procs[p].a))
    then Goto(s, p, Pinning(s.procs[p].a, s.procs[p].token, key, s.procs[p].offset))
    else s
  }

  /** A scan that did not find the name; it may be complete only while no live key bears the name. */
  function ScanMiss(s: Sys, p: Pid, complete: bool, nextOffset: nat): Sys {
    if p in s.procs && s.procs[p].Scanning? && s.procs[p].seen.None?
       && (complete ==> forall h <- s.prov.live :: h in s.prov.minted ==> s.prov.minted[h] != s.procs[p].a)
    then
      var pc := s.procs[p];
      Goto(s, p, Verdict(pc.a, pc.token, None, complete && !pc.seenInFlight, if complete then 0 else nextOffset))
    else s
  }

  function Pin(s: Sys, p: Pid): Sys {
    if p in s.procs && s.procs[p].Pinning?
    then
      var pc := s.procs[p];
      Goto(WithDb(s, PinCredential(s.db, pc.a, pc.token, pc.key)), p,
           if HoldsToken(s.db, pc.a, pc.token) then Pinned(pc.a, pc.token, pc.key, pc.offset)
           else Verdict(pc.a, pc.token, Some(pc.key), false, pc.offset))
    else s
  }

  /** Disable and delete at the provider. It may take effect and still be reported as failed. */
  function Delete(s: Sys, p: Pid, removed: bool, ok: bool): Sys {
    if p in s.procs && s.procs[p].Pinned? && (ok ==> removed)
    then
      var pc := s.procs[p];
      Goto(if removed then s.(prov := s.prov.(live := s.prov.live - {pc.key})) else s,
           p, Deleted(pc.a, pc.token, pc.key, ok, pc.offset))
    else s
  }

  function Verify(s: Sys, p: Pid, absent: bool): Sys {
    if p in s.procs && s.procs[p].Deleted? && (absent ==> s.procs[p].key !in s.prov.live)
    then
      var pc := s.procs[p];
      Goto(s, p, Verdict(pc.a, pc.token, Some(pc.key), pc.ok && absent, pc.offset))
    else s
  }

  function Finish(s: Sys, p: Pid, now: Instant): Sys {
    if p in s.procs && s.procs[p].Verdict? && s.procs[p].a.op in s.db.ops
    then
      var pc := s.procs[p];
      var subject := s.db.ops[pc.a.op].subject;
      Leave(WithDb(s, if pc.clean then CleanBatch(s.db, pc.a, pc.token, subject, pc.credential, now)
                      else UncleanBatch(s.db, pc.a, pc.token, pc.offset)), p)
    else s
  }

  // ---------- reservations, releases and other flows on the entitlement tables ----------

  /** Any change of an entitlement row that brings in no key of an operation attempt and that the
      cleanup triggers let through. */
  predicate HousekeepingAllowed(s: Sys, e: EntitlementId, row: Entitlement) {
    && (|| row.credential.None?
        || (e in s.db.entitlements && row.credential == s.db.entitlements[e].credential && row.subject == s.db.entitlements[e].subject)
        || (row.credential.value !in s.prov.minted && row.credential.value < s.prov.nextHash))
    && (row.phase in {AwaitingDelivery, Granted} ==>
          && row.credential.Some?
          && (EntitlementAllowed(s.db, row.credential.value) || (e in s.db.entitlements && row == s.db.entitlements[e])))
  }

  function Housekeep(s: Sys, e: EntitlementId, row: Option<Entitlement>): Sys {
    match row
    case None => WithDb(s, s.db.(entitlements := map k | k in s.db.entitlements && k != e :: s.db.entitlements[k]))
    case Some(r) => if HousekeepingAllowed(s, e, r) then WithDb(s, s.db.(entitlements := s.db.entitlements[e := r])) else s
  }

  // ---------- runs ----------

  function TableStep(s: Sys, t: TableAction): Sys {
    match t
    case ACreateOperation(o, subject, now) => WithDb(s, CreateOperation(s.db, o, subject, now))
    case AIssueReady(o) => WithDb(s, Transition(s.db, o, IssueReady, {Authenticated}, None))
    case AExpire(o) => WithDb(s, ExpireOperation(s.db, o))
    case AFail(o, index, reason) => WithDb(s, FailOperation(s.db, o, index, reason))
    case AStaleCreating(o, index) => WithDb(s, Transition(s.db, o, CreateUnknown, {Creating}, Some(index)))
    case AStaleDelivery(o, index) => WithDb(s, Transition(s.db, o, CreateUnknown, {DeliveryPending}, Some(index)))
    case AExpireDelivery(d, now) => WithDb(s, ExpireDelivery(s.db, d, now))
    case AAck(d, e, recorded) => WithDb(s, AckBatch(s.db, d, e, recorded))
    case ARepairAck(d) => WithDb(s, RepairAck(s.db, d))
    case AAckCleanupClaim(d, at) => WithDb(s, AckCleanupClaim(s.db, d, at))
    case AActivate(d) => WithDb(s, ActivateOnAck(s.db, d))
    case ARepairInsert(a) => WithDb(s, RepairInsert(s.db, a))
    case AHousekeep(e, row) => Housekeep(s, e, row)
  }

  function RequestStep(s: Sys, p: Pid, r: RequestAction): Sys {
    match r
    case AStart(o, seen, now) => Start(s, p, o, seen, now)
    case AReadCredential(e) => ReadCredential(s, p, e)
    case AAdopt => Adopt(s, p)
    case ASendCreate => SendCreate(s, p)
    case AReceive(key) => Receive(s, p, key)
    case AReject => Reject(s, p)
    case AGiveUp => GiveUp(s, p)
    case AWriteBack(returned) => WriteBackAnswer(s, p, returned)
    case ARecord => Record(s, p)
    case AWriteEntitlement(e, phase) => OwnerWritesEntitlement(s, p, e, phase)
    case ADeliver(d, expiresAt) => Deliver(s, p, d, expiresAt)
    case ASettle => Settle(s, p)
    case AMarkUnknown => OwnerMarksUnknown(s, p)
    case ARelease => Release(s, p)
    case AReleaseOperation => ReleaseOperation(s, p)
  }

  function ProviderStep(s: Sys, e: ProviderEvent): Sys {
    match e
    case ALand(a) => Land(s, a)
    case ALose(a) => Lose(s, a)
    case AForeignKey => ForeignKey(s)
  }

  function WorkerStep(s: Sys, p: Pid, w: WorkerAction): Sys {
    match w
    case AClaim(a, now, cron) => Claim(s, p, a, now, cron)
    case AReadTarget => ReadTarget(s, p)
    case ALocate(key) => Locate(s, p, key)
    case AScanMiss(complete, nextOffset) => ScanMiss(s, p, complete, nextOffset)
    case APin => Pin(s, p)
    case ADelete(removed, ok) => Delete(s, p, removed, ok)
    case AVerify(absent) => Verify(s, p, absent)
    case AFinish(now) => Finish(s, p, now)
  }

  function Step(s: Sys, act: Action): Sys {
    match act
    case OnTables(t) => TableStep(s, t)
    case ByRequest(p, r) => RequestStep(s, p, r)
    case AtProvider(e) => ProviderStep(s, e)
    case ByWorker(p, w) => WorkerStep(s, p, w)
  }

  const Init := Sys(Db(map[], map[], map[], map[]), Provider({}, {}, map[], 0), map[], {}, 0)

  function Run(s: Sys, acts: seq<Action>): Sys
    decreases |acts|
  {
    if acts == [] then s else Run(Step(s, acts[0]), acts[1..])
  }
}
