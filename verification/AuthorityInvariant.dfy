/** What every committed state of the authority chain satisfies, and how states evolve. */
module AuthorityInvariant {
  import opened Common
  import opened Scopes
  import opened AuthorityStore
  import opened PermissionsEngine
  import TaskEngine
  import Orchestrator

  // ---------------------------------------------------------------- conservation of confirmations

  /** One use of confirmed authority: who used which permission for what, and when. */
  datatype Use = Use(user: Id, permission: Id, capability: string, action: string, scope: Scope, at: Time)

  /** The permission's policy asks for a confirmation on every use at this risk. */
  predicate AsksEveryUse(p: Permission, risk: nat) {
    p.policy == EveryTime || (p.policy == HighRiskOnly && risk >= RISK_HIGH)
  }

  predicate IsUse(d: Decision, perms: seq<Permission>, u: Use) {
    && d.kind == Allow
    && d.permission == Some(u.permission) && u.permission < |perms|
    && AsksEveryUse(perms[u.permission], d.risk)
    && u == Use(d.user, u.permission, d.capability, d.action, d.scope, d.at)
  }

  predicate IsConsumption(c: Confirmation, u: Use) {
    c.consumedAt.Some? && u == Use(c.user, c.permission, c.capability, c.action, c.scope, c.consumedAt.value)
  }

  function One(b: bool): nat {
    if b then 1 else 0
  }

  /** The ALLOW decisions that are use `u`. */
  ghost function Uses(ds: seq<Decision>, perms: seq<Permission>, u: Use): nat {
    if ds == [] then 0 else Uses(ds[..|ds| - 1], perms, u) + One(IsUse(ds[|ds| - 1], perms, u))
  }

  /** The consumed confirmations that paid for use `u`. */
  ghost function Consumptions(cs: seq<Confirmation>, u: Use): nat {
    if cs == [] then 0 else Consumptions(cs[..|cs| - 1], u) + One(IsConsumption(cs[|cs| - 1], u))
  }

  /** The same two counts with the instant left out. */
  ghost function UsesEver(ds: seq<Decision>, perms: seq<Permission>, u: Use): nat {
    if ds == [] then 0
    else var d := ds[|ds| - 1]; UsesEver(ds[..|ds| - 1], perms, u) + One(IsUse(d, perms, u.(at := d.at)))
  }

  predicate WasConsumption(c: Confirmation, u: Use) {
    c.consumedAt.Some? && IsConsumption(c, u.(at := c.consumedAt.value))
  }

  ghost function ConsumptionsEver(cs: seq<Confirmation>, u: Use): nat {
    if cs == [] then 0 else ConsumptionsEver(cs[..|cs| - 1], u) + One(WasConsumption(cs[|cs| - 1], u))
  }

  /** Every use is paid for by exactly one consumed confirmation and vice versa. */
  ghost predicate Balanced(db: Db) {
    forall u: Use :: Uses(db.decisions, db.permissions, u) == Consumptions(db.confirmations, u)
  }

  // ---------------------------------------------------------------- permissions, decisions, confirmations

  ghost predicate DecisionOk(db: Db, caps: Capabilities, d: Decision) {
    && (d.permission.Some? ==>
          && d.permission.value < |db.permissions|
          && db.permissions[d.permission.value].user == d.user
          && db.permissions[d.permission.value].capability == d.capability
          && Authorizes(db.permissions[d.permission.value].scope, d.scope))
    && (d.kind != Deny ==>
          && d.permission.Some? && !d.financialGuard
          && d.capability in caps && !Blocked(caps[d.capability]))
    && (d.kind == Allow && db.permissions[d.permission.value].policy == Once ==>
          db.permissions[d.permission.value].confirmedOnceAt.Some?
              && Backed(db.confirmations, d.permission.value, d.at))
  }

  /** A confirmation of the permission had been approved by then. */
  ghost predicate Backed(confirmations: seq<Confirmation>, permission: Id, when: Time) {
    exists c | 0 <= c < |confirmations| ::
      confirmations[c].permission == permission && confirmations[c].confirmedAt.Some?
          && confirmations[c].confirmedAt.value <= when
  }

  ghost predicate ConfirmationOk(db: Db, clock: Time, c: Confirmation) {
    && c.permission < |db.permissions| && db.permissions[c.permission].user == c.user
    && c.decision < |db.decisions|
    && Asked(c, db.decisions[c.decision])
    && c.expiresAt == c.requestedAt + CONFIRMATION_TTL
    && LifecycleOk(c, clock)
    && (c.confirmedAt.Some? && db.permissions[c.permission].policy == Once ==>
        db.permissions[c.permission].confirmedOnceAt.Some?)
    && (c.consumedAt.Some? ==> db.permissions[c.permission].policy in {EveryTime, HighRiskOnly})
  }

  /** The confirmation repeats the decision that asked for it. */
  predicate Asked(c: Confirmation, d: Decision) {
    && d.kind == RequireConfirmation && d.user == c.user && d.permission == Some(c.permission)
    && d.capability == c.capability && d.action == c.action && d.scope == c.scope
  }

  /** Approved or rejected but not both; consumed only after approval and before expiry. */
  predicate LifecycleOk(c: Confirmation, clock: Time) {
    && (c.status == Pending ==> c.confirmedAt.None? && c.rejectedAt.None? && c.consumedAt.None?)
    && (c.status == Approved ==> c.confirmedAt.Some?)
    && (c.status == Rejected ==> c.rejectedAt.Some?)
    && !(c.confirmedAt.Some? && c.rejectedAt.Some?)
    && (c.confirmedAt.Some? ==> c.confirmedAt.value <= clock && c.confirmedAt.value < c.expiresAt)
    && (c.consumedAt.Some? ==> c.confirmedAt.Some? && c.confirmedAt.value <= c.consumedAt.value < c.expiresAt)
  }

  /** A permission confirmed "once" really had a confirmation approved. */
  ghost predicate OnceOk(db: Db, p: Id) {
    p < |db.permissions| && db.permissions[p].confirmedOnceAt.Some? ==>
      exists c | 0 <= c < |db.confirmations| ::
          db.confirmations[c].permission == p && db.confirmations[c].confirmedAt.Some?
  }

  ghost predicate InvRows(db: Db, caps: Capabilities, clock: Time) {
    && (forall d | 0 <= d < |db.decisions| :: DecisionOk(db, caps, db.decisions[d]))
    && (forall c | 0 <= c < |db.confirmations| :: ConfirmationOk(db, clock, db.confirmations[c]))
    && (forall p: Id :: OnceOk(db, p))
  }

  ghost predicate InvAuthority(db: Db, caps: Capabilities, clock: Time) {
    InvRows(db, caps, clock) && Balanced(db)
  }

  // ---------------------------------------------------------------- tasks

  ghost predicate TaskOk(db: Db, t: Task) {
    && t.decision < |db.decisions|
    && t.version >= 1
    && Evidence(t, db.decisions[t.decision])
    && (t.status in {Queued, Running, Completed} ==> db.decisions[t.decision].kind == Allow)
    && (t.status == TaskWaitingPermission ==> db.decisions[t.decision].kind == Deny)
    && (t.status == TaskWaitingConfirmation ==>
          && t.confirmation.Some? && t.confirmation.value < |db.confirmations|
          && db.confirmations[t.confirmation.value].decision == t.decision)
    && t.status != TaskPending && t.status != WaitingConnection
    && AttemptsOk(t.status, t.attempts)
  }

  /** A task is tried at most once: while it runs, and only then, an attempt is running. */
  predicate AttemptsOk(status: TaskStatus, attempts: seq<Attempt>) {
    match status
    case Running => attempts == [AttemptRunning]
    case Completed => attempts == [AttemptCompleted]
    case TaskFailed => attempts == [] || attempts == [AttemptFailed]
    case _ => attempts == []
  }

  /** The decision was taken for this very task proposal. */
  predicate Evidence(t: Task, d: Decision) {
    d.user == t.user && d.capability == t.request.capability && d.action == t.request.action
        && d.scope == t.request.scope
  }

  ghost predicate InvTasks(db: Db) {
    && (forall t | 0 <= t < |db.tasks| :: TaskOk(db, db.tasks[t]))
    && (forall i, j | 0 <= i < j < |db.tasks| ::
        !(db.tasks[i].user == db.tasks[j].user && db.tasks[i].key == db.tasks[j].key))
  }

  // ---------------------------------------------------------------- workflows

  /** The recorded steps replay: they start at RECEIVED, chain along the table, end in the
      current state, and there is one per version. */
  ghost predicate Replays(steps: seq<Step>, f: Workflow) {
    && |steps| == f.version && |steps| >= 1
    && steps[0] == Step(None, Received)
    && (forall i | 0 < i < |steps| ::
        steps[i].from == Some(steps[i - 1].to) && steps[i].to in Orchestrator.AllowedTargets(steps[i - 1].to))
    && steps[|steps| - 1].to == f.state
  }

  ghost predicate ReachedReady(steps: seq<Step>) {
    exists i | 0 <= i < |steps| :: steps[i].to == ReadyForExecution
  }

  ghost predicate HasEnvelope(envelopes: seq<Envelope>, id: Id) {
    exists e | 0 <= e < |envelopes| :: envelopes[e].workflow == id
  }

  /** The task carries out the single action of the workflow's plan and is keyed by it. */
  predicate Linked(t: Task, id: Id, f: Workflow) {
    && t.user == f.user && t.key == OrchestrationKey(id)
    && f.plan.Some? && |f.plan.value.actions| == 1
    && t.request.capability == f.plan.value.actions[0].capability
    && t.request.action == f.plan.value.actions[0].action
    && t.request.scope == f.plan.value.actions[0].scope
  }

  /** Past waiting: queued, or whatever follows. */
  predicate Settled(s: TaskStatus) {
    s in {Queued, Running, Completed, TaskFailed, TaskCancelled, TaskExpired}
  }

  /** How the workflow state constrains the status of its linked task. */
  ghost predicate Agrees(db: Db, f: Workflow, state: FlowState)
    requires f.task.Some? ==> f.task.value < |db.tasks|
  {
    && (state == WaitingPermission ==>
        f.task.Some? && db.tasks[f.task.value].status in {TaskWaitingPermission, TaskCancelled, TaskExpired})
    && (state == WaitingConfirmation ==>
        f.task.Some? && db.tasks[f.task.value].status in {TaskWaitingConfirmation, TaskCancelled, TaskExpired})
    && (state == ReadyForExecution ==> f.task.Some? && Settled(db.tasks[f.task.value].status))
    && (state == Cancelled && f.task.Some? ==> db.tasks[f.task.value].status == TaskCancelled)
  }

  ghost predicate Coupled(db: Db, id: Id, f: Workflow, state: FlowState) {
    && (f.plan.Some? ==> id in db.plans && db.plans[id].fingerprint == f.plan.value)
    && (f.task.Some? ==> f.task.value < |db.tasks| && Linked(db.tasks[f.task.value], id, f))
    && Agrees(db, f, state)
  }

  ghost predicate FlowOk(db: Db, id: Id)
    requires id < |db.workflows| == |db.steps|
  {
    && Replays(db.steps[id], db.workflows[id])
    && Coupled(db, id, db.workflows[id], db.workflows[id].state)
    && (ReachedReady(db.steps[id]) <==> HasEnvelope(db.envelopes, id))
  }

  /** The envelope repeats the plan, the task and the ALLOW decision behind it. */
  ghost predicate EnvelopeMatches(db: Db, e: Envelope, f: Workflow) {
    && e.user == f.user && f.task == Some(e.task) && f.decision == Some(e.decision) && f.plan == Some(e.plan)
    && e.task < |db.tasks| && e.decision < |db.decisions|
    && var t := db.tasks[e.task]; var d := db.decisions[e.decision];
    && t.decision == e.decision && Settled(t.status)
    && e.capability == t.request.capability == d.capability
    && e.action == t.request.action == d.action
    && e.scope == t.request.scope == d.scope
    && d.kind == Allow && d.permission == Some(e.permission) && !d.financialGuard && d.risk == e.risk
    && |e.plan.actions| == 1 && e.arguments == e.plan.actions[0].arguments
    && e.device == t.request.device && e.confirmation == t.confirmation && e.expiresAt == f.expiresAt
  }

  ghost predicate EnvelopeOk(db: Db, e: Envelope) {
    e.workflow < |db.workflows| && EnvelopeMatches(db, e, db.workflows[e.workflow])
  }

  ghost predicate InvFlows(db: Db) {
    && |db.steps| == |db.workflows|
    && (forall id | 0 <= id < |db.workflows| :: FlowOk(db, id))
    && (forall e | 0 <= e < |db.envelopes| :: EnvelopeOk(db, db.envelopes[e]))
    && (forall i, j | 0 <= i < j < |db.envelopes| :: db.envelopes[i].workflow != db.envelopes[j].workflow)
    && (forall i, j | 0 <= i < j < |db.workflows| ::
        !(db.workflows[i].user == db.workflows[j].user && db.workflows[i].key == db.workflows[j].key))
  }

  ghost predicate Inv(db: Db, caps: Capabilities, clock: Time) {
    InvAuthority(db, caps, clock) && InvTasks(db) && InvFlows(db)
  }

  // ---------------------------------------------------------------- evolution

  function StatusRank(s: PermissionStatus): nat {
    match s case Active => 0 case Expired => 1 case Revoked => 2
  }

  /** The grant itself never changes; its status only moves ACTIVE, EXPIRED, REVOKED. */
  predicate PermissionEvolves(p: Permission, q: Permission) {
    && q == p.(status := q.status, revokedAt := q.revokedAt, confirmedOnceAt := q.confirmedOnceAt,
        lastUsedAt := q.lastUsedAt)
    && StatusRank(p.status) <= StatusRank(q.status)
    && (p.confirmedOnceAt.Some? ==> q.confirmedOnceAt.Some?)
  }

  /** A confirmation keeps its binding, and what happened to it stays on record. */
  predicate ConfirmationEvolves(c: Confirmation, d: Confirmation) {
    && d == c.(status := d.status, confirmedAt := d.confirmedAt, rejectedAt := d.rejectedAt, consumedAt := d.consumedAt)
    && (c.confirmedAt.Some? ==> d.confirmedAt == c.confirmedAt)
    && (c.rejectedAt.Some? ==> d.rejectedAt == c.rejectedAt)
    && (c.consumedAt.Some? ==> d.consumedAt == c.consumedAt)
  }

  predicate TaskEvolves(t: Task, u: Task) {
    && u.user == t.user && u.request == t.request && u.key == t.key && t.version <= u.version
    && (TaskEngine.Terminal(t.status) ==> u == t)
    && (t.status == Running ==> u.status in {Running, Completed, TaskFailed})
  }

  predicate FlowEvolves(f: Workflow, g: Workflow) {
    && g.user == f.user && g.key == f.key && g.fingerprint == f.fingerprint && f.version <= g.version
    && (f.plan.Some? ==> g.plan == f.plan)
    && (f.task.Some? ==> g.task == f.task)
    && (Orchestrator.Terminal(f.state) ==> g == f)
  }

  ghost predicate PermissionsEvolve(p: seq<Permission>, q: seq<Permission>) {
    |p| <= |q| && forall i | 0 <= i < |p| :: PermissionEvolves(p[i], q[i])
  }

  ghost predicate ConfirmationsEvolve(c: seq<Confirmation>, d: seq<Confirmation>) {
    |c| <= |d| && forall i | 0 <= i < |c| :: ConfirmationEvolves(c[i], d[i])
  }

  ghost predicate TasksEvolve(t: seq<Task>, u: seq<Task>) {
    |t| <= |u| && forall i | 0 <= i < |t| :: TaskEvolves(t[i], u[i])
  }

  ghost predicate FlowsEvolve(f: seq<Workflow>, g: seq<Workflow>) {
    |f| <= |g| && forall i | 0 <= i < |f| :: FlowEvolves(f[i], g[i])
  }

  ghost predicate StepsEvolve(s: seq<seq<Step>>, t: seq<seq<Step>>) {
    |s| <= |t| && forall i | 0 <= i < |s| :: s[i] <= t[i]
  }

  ghost predicate Evolves(a: Db, b: Db) {
    && PermissionsEvolve(a.permissions, b.permissions)
    && a.decisions <= b.decisions
    && ConfirmationsEvolve(a.confirmations, b.confirmations)
    && TasksEvolve(a.tasks, b.tasks)
    && FlowsEvolve(a.workflows, b.workflows)
    && StepsEvolve(a.steps, b.steps)
    && a.envelopes <= b.envelopes
  }

  lemma EvolvesTransitive(a: Db, b: Db, c: Db)
    requires Evolves(a, b) && Evolves(b, c)
    ensures Evolves(a, c)
  {
    forall i | 0 <= i < |a.permissions| ensures PermissionEvolves(a.permissions[i], c.permissions[i]) {
      assert PermissionEvolves(a.permissions[i], b.permissions[i])
          && PermissionEvolves(b.permissions[i], c.permissions[i]);
    }
    forall i | 0 <= i < |a.confirmations| ensures ConfirmationEvolves(a.confirmations[i], c.confirmations[i]) {
      assert ConfirmationEvolves(a.confirmations[i], b.confirmations[i])
          && ConfirmationEvolves(b.confirmations[i], c.confirmations[i]);
    }
    forall i | 0 <= i < |a.tasks| ensures TaskEvolves(a.tasks[i], c.tasks[i]) {
      assert TaskEvolves(a.tasks[i], b.tasks[i]) && TaskEvolves(b.tasks[i], c.tasks[i]);
    }
    forall i | 0 <= i < |a.workflows| ensures FlowEvolves(a.workflows[i], c.workflows[i]) {
      assert FlowEvolves(a.workflows[i], b.workflows[i]) && FlowEvolves(b.workflows[i], c.workflows[i]);
    }
    forall i | 0 <= i < |a.steps| ensures a.steps[i] <= c.steps[i] {
      assert a.steps[i] <= b.steps[i] && b.steps[i] <= c.steps[i];
    }
  }
}
