/** The rows of the broker's managed-key tables and the columns the protocol depends on. */
module BrokerTypes {
  import opened Wrappers

  datatype Source = Discord | Qq

  /** The pair (issue_source, subject_ref) that one managed key is granted to. */
  datatype Subject = Subject(source: Source, ref: nat)

  type OperationId = nat
  type KeyHash = nat
  type Token = nat
  type DeliveryId = nat
  type EntitlementId = nat
  /** An ISO timestamp column, as milliseconds. */
  type Instant = int

  datatype OperationState =
    | Authenticated
    | IssueReady
    | Creating
    | CreateUnknown
    | Reconciling
    | CleanupRequired
    | Clean
    | RetryReady
    | DeliveryPending
    | Active
    | Failed

  datatype FailureReason = AuthorizationExpired | TerminalProviderFailure | CleanupFailedTerminal

  datatype ClientAction = Wait | RetryAuthorized | AcknowledgeDelivery | ActionRequired

  datatype Operation = Operation(
    subject: Subject,
    state: OperationState,
    clientAction: ClientAction,
    attemptCount: nat,
    currentIndex: nat,
    authExpiresAt: Instant,
    failure: Option<FailureReason>)

  /** The unique key (operation_id, attempt_index); it also stands for the attempt's provider key name. */
  datatype AttemptId = AttemptId(op: OperationId, index: nat)

  datatype Outcome = Created | Unknown | Cleaned

  datatype Attempt = Attempt(
    credential: Option<KeyHash>,
    outcome: Outcome,
    token: Option<Token>,
    startedAt: Option<Instant>,
    checkedAt: Option<Instant>,
    inFlight: bool,
    scanOffset: nat)

  datatype DeliveryStatus = AwaitingAck | Acknowledged | Expired | NeedsCleanup

  datatype DeliveryFailure =
    | OperationCleanupClaimed
    | StaleDeliveryCleanupClaimed
    | ResumeStaleDeliveryExpired
    | AckExpiredChildKeyCleaned

  datatype Delivery = Delivery(
    attempt: AttemptId,
    credential: KeyHash,
    status: DeliveryStatus,
    expiresAt: Instant,
    failedAt: Option<Instant>,
    failure: Option<DeliveryFailure>)

  /** Granted is status 'active' with a delivery timestamp; Closed stands for 'expired' and 'revoked'. */
  datatype EntitlementPhase = Issuing | AwaitingDelivery | Granted | NeedsRepair | Closed

  datatype Entitlement = Entitlement(subject: Subject, credential: Option<KeyHash>, phase: EntitlementPhase)

  datatype Db = Db(
    ops: map<OperationId, Operation>,
    attempts: map<AttemptId, Attempt>,
    deliveries: map<DeliveryId, Delivery>,
    entitlements: map<EntitlementId, Entitlement>)
}
