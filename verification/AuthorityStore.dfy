/** The tables behind the authority chain: permissions, decisions and confirmations, tasks,
    and workflows with their plans, recorded steps and execution envelopes. */
module AuthorityStore {
  import opened Common
  import opened Scopes

  // ---------------------------------------------------------------- environment of a call

  /** Risk levels, NEGLIGIBLE to CRITICAL. */
  type RiskLevel = level: nat | level <= 5

  /** Server-owned description of a capability (backend/app/permissions/models.py). */
  datatype Capability = Capability(
    enabled: bool,
    allowedActions: seq<string>,
    defaultRisk: RiskLevel,
    financial: bool,
    externalSideEffect: bool,
    dataDestructive: bool,
    privacyImpact: bool)

  type Capabilities = map<string, Capability>

  datatype User = User(authUser: Id, disabled: bool)
  datatype Device = Device(owner: Id, revoked: bool)
  datatype Identity = Identity(user: Id, authUser: Id, device: Option<Id>, aal2: bool)

  datatype SafeMode = Normal | Safe | Maintenance
  datatype Policy = Policy(safeMode: SafeMode, aiEnabled: bool, actionsEnabled: bool)

  /** What a service call reads outside the authority tables. It may differ arbitrarily
      between calls; the capability table is the one part that stays fixed. `uuid` is the number
      behind the identifier that a permission granted in this call gets. */
  datatype World = World(now: Time, users: map<Id, User>, devices: map<Id, Device>, policy: Policy, uuid: nat)

  // ---------------------------------------------------------------- permissions

  datatype PermissionStatus = Active | Expired | Revoked
  datatype ConfirmationPolicy = Never | Once | EveryTime | HighRiskOnly

  /** `uuid` is the random number of the row's identifier; it only breaks ties in the search. */
  datatype Permission = Permission(
    uuid: nat,
    user: Id,
    capability: string,
    device: Option<Id>,
    scope: Scope,
    status: PermissionStatus,
    policy: ConfirmationPolicy,
    autoExecute: bool,
    grantedAt: Time,
    expiresAt: Option<Time>,
    revokedAt: Option<Time>,
    confirmedOnceAt: Option<Time>,
    lastUsedAt: Option<Time>)

  datatype Kind = Allow | Deny | RequireConfirmation

  datatype Reason =
    | Authorized | NoPermission | PermissionRevoked | PermissionExpired | ScopeMismatch
    | DeviceScopeMismatch | DeviceRevoked | CapabilityDisabled | CapabilityNotFound
    | ActionNotAllowed | ConfirmationRequired | ConfirmationExpired | ConfirmationRejected
    | ConfirmationMismatch | ConfirmationReplayed | FinancialExecutionBlocked
    | UserDisabled | InvalidIdentity | EvaluationFailed

  /** Immutable evidence of one evaluation. The source always records exactly one reason. */
  datatype Decision = Decision(
    user: Id,
    device: Option<Id>,
    permission: Option<Id>,
    capability: string,
    action: string,
    scope: Scope,
    kind: Kind,
    reason: Reason,
    risk: nat,
    scopeMatch: bool,
    financialGuard: bool,
    at: Time)

  datatype ConfirmationStatus = Pending | Approved | Rejected | Lapsed

  datatype Confirmation = Confirmation(
    user: Id,
    decision: Id,
    permission: Id,
    capability: string,
    action: string,
    scope: Scope,
    status: ConfirmationStatus,
    requestedAt: Time,
    expiresAt: Time,
    confirmedAt: Option<Time>,
    rejectedAt: Option<Time>,
    consumedAt: Option<Time>)

  datatype AuthorizationRequest = AuthorizationRequest(
    capability: string,
    action: string,
    scope: Scope,
    confirmation: Option<Id>)

  // ---------------------------------------------------------------- tasks

  datatype TaskStatus =
    | TaskPending | Queued | WaitingConnection | TaskWaitingPermission
    | TaskWaitingConfirmation | Running | Completed | TaskFailed | TaskCancelled | TaskExpired

  /** Idempotency keys. The orchestrator uses "orch:<workflow id>"; clients may send any key,
      including that one. */
  datatype IdempotencyKey = ClientKey(name: string) | OrchestrationKey(workflow: Id)

  /** Client metadata, or the orchestrator's record of the workflow a task belongs to. */
  datatype TaskMetadata = ClientMetadata(text: string) | FlowMetadata(workflow: Id)

  /** A task proposal without its key. Its fingerprint covers every field here, so the proposal
      stands for its own fingerprint. */
  datatype TaskRequest = TaskRequest(
    capability: string,
    action: string,
    scope: Scope,
    device: Option<Id>,
    highPriority: bool,
    expiresAt: Option<Time>,
    parent: Option<Id>,
    metadata: TaskMetadata)

  datatype Attempt = AttemptRunning | AttemptCompleted | AttemptFailed

  /** `attempts` lists the execution attempts of the task, oldest first. */
  datatype Task = Task(
    user: Id,
    request: TaskRequest,
    status: TaskStatus,
    key: IdempotencyKey,
    decision: Id,
    confirmation: Option<Id>,
    attempts: seq<Attempt>,
    version: nat)

  // ---------------------------------------------------------------- workflows

  datatype FlowState =
    | Received | ContextPrepared | Routed | ProposalGenerated | PlanValidated
    | WaitingPermission | WaitingConfirmation | ReadyForExecution
    | CompletedNoAction | Denied | Failed | Cancelled | FlowExpired

  datatype IntentCategory = Informational | MemoryIntent | ActionIntent | Destructive | Unsupported

  datatype CandidateAction = CandidateAction(
    capability: string, action: string, scope: Scope, arguments: string)

  /** A validated proposal; the plan stands for its own SHA-256 fingerprint. */
  datatype Plan = Plan(summary: string, actions: seq<CandidateAction>)

  datatype StoredPlan = StoredPlan(fingerprint: Plan, payload: string)

  datatype Workflow = Workflow(
    user: Id,
    device: Option<Id>,
    category: IntentCategory,
    state: FlowState,
    key: string,
    fingerprint: string,
    task: Option<Id>,
    decision: Option<Id>,
    confirmation: Option<Id>,
    plan: Option<Plan>,
    failed: bool,
    expiresAt: Option<Time>,
    version: nat)

  datatype Step = Step(from: Option<FlowState>, to: FlowState)

  datatype Envelope = Envelope(
    workflow: Id,
    user: Id,
    device: Option<Id>,
    task: Id,
    capability: string,
    action: string,
    arguments: string,
    scope: Scope,
    plan: Plan,
    permission: Id,
    decision: Id,
    confirmation: Option<Id>,
    risk: nat,
    expiresAt: Option<Time>)

  // ---------------------------------------------------------------- the store

  /** `steps[w]` lists the recorded steps of workflow `w`, oldest first. */
  datatype Db = Db(
    permissions: seq<Permission>,
    decisions: seq<Decision>,
    confirmations: seq<Confirmation>,
    tasks: seq<Task>,
    workflows: seq<Workflow>,
    steps: seq<seq<Step>>,
    plans: map<Id, StoredPlan>,
    envelopes: seq<Envelope>)

  const EMPTY := Db([], [], [], [], [], [], map[], [])

  datatype Error =
    | StepUpRequired | InvalidPermissionData | UnknownCapability | DisabledCapability
    | ActionRefused | DeviceMissing | DeviceUnusable | PermissionMissing
    | ConfirmationMissing | ConfirmationTooLate | ConfirmationRefused
    | TaskMissing | TaskTerminal | TaskTransitionInvalid | TaskConflict | TaskNotClaimable
    | TaskDeviceInvalid | TaskKeyConflict
    | FlowMissing | FlowDataInvalid | FlowTransitionInvalid | FlowConflict | FlowKeyConflict

  type Outcome<+T> = Result<T, Error>

  /** What a call leaves behind: its result on success, the old store if it raised. */
  predicate Commits(before: Db, after: Db, r: Outcome<()>, spec: Outcome<Db>) {
    match spec
    case Ok(db) => r == Ok(()) && after == db
    case Raised(e) => r == Raised(e) && after == before
  }

  /** A transactional database session. The services mutate `db`; a call that raises leaves it
      as it was, because the session rolls back (backend/app/core/database.py:80-92). */
  class Session {
    var db: Db

    constructor ()
      ensures db == EMPTY
    {
      db := EMPTY;
    }
  }
}
