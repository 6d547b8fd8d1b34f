/** When resuming a workflow succeeds: the exact condition, in every reachable state. */
module ResumeProgress {
  import opened Common
  import opened Scopes
  import opened AuthorityStore
  import opened PermissionsEngine
  import opened AuthorityInvariant
  import opened AuthorityRuns
  import opened FlowSafety
  import opened Orchestrator
  import AuthorityTheorems
  import TaskEngine

  /** The status a re-evaluation now would give a waiting task. */
  function FreshStatus(db: Db, caps: Capabilities, w: World, who: Identity, t: Task): TaskStatus {
    var (_, v) := Judge(db, caps, w, who.(device := t.request.device),
                        AuthorizationRequest(t.request.capability, t.request.action, t.request.scope, t.confirmation));
    var initial := TaskEngine.InitialState(v.kind, v.reason);
    if initial.Some? then initial.value else TaskFailed
  }

  /** The workflow cannot enter the state the task's status calls for: nothing leads back to
      WAITING_PERMISSION, and WAITING_CONFIRMATION is not its own successor. */
  predicate Stuck(state: FlowState, status: TaskStatus) {
    status == TaskWaitingPermission || (status == TaskWaitingConfirmation && state == WaitingConfirmation)
  }

  predicate Waiting(f: Workflow) {
    f.state == WaitingPermission || f.state == WaitingConfirmation
  }

  /** Re-evaluating a waiting task that is not overdue. */
  lemma ReevaluateValue(db: Db, caps: Capabilities, w: World, who: Identity, task: Id)
    requires task < |db.tasks| && db.tasks[task].user == who.user && !Due(db.tasks[task].request.expiresAt, w.now)
    requires db.tasks[task].status in {TaskWaitingPermission, TaskWaitingConfirmation}
    ensures var r := TaskEngine.ReevaluateSpec(db, caps, w, who, task, db.tasks[task].version);
            r.Ok? && r.value.tasks[task].status == FreshStatus(db, caps, w, who, db.tasks[task])
                && r.value.envelopes == db.envelopes
  {
    hide Judge;
    var t := db.tasks[task];
    var req := AuthorizationRequest(t.request.capability, t.request.action, t.request.scope, t.confirmation);
    var agent := who.(device := t.request.device);
    var (db1, v) := Judge(db, caps, w, agent, req);
    var r := AuthorizeSpec(db, caps, w, agent, req);
    assert r.decisions[|db.decisions|] == Record(agent, req, v, w.now);
  }

  /** The ending of resume, on a workflow that has never been ready. */
  lemma SettleValue(db: Db, caps: Capabilities, w: World, who: Identity, id: Id, plan: Plan, task: Id)
    requires InvAuthority(db, caps, w.now) && InvTasks(db) && id < |db.workflows| == |db.steps|
    requires task < |db.tasks| && db.tasks[task].user == who.user && |plan.actions| > 0
    requires Waiting(db.workflows[id]) && FindEnvelope(db.envelopes, id).None?
    requires db.tasks[task].status in {Queued, TaskWaitingPermission, TaskWaitingConfirmation, TaskFailed}
    ensures SettleSpec(db, w, who, id, plan, task).Raised? <==> Stuck(db.workflows[id].state, db.tasks[task].status)
  {
    assert TaskOk(db, db.tasks[task]);
    assert DecisionOk(db, caps, db.decisions[db.tasks[task].decision]);
  }

  /** Resume, from the intact plan on. */
  lemma ResumeTaskValue(db: Db, caps: Capabilities, w: World, who: Identity, id: Id, task: Id, plan: Plan)
    requires Inv(db, caps, w.now) && id < |db.workflows| && Waiting(db.workflows[id])
        && db.workflows[id].task == Some(task)
    requires db.workflows[id].user == who.user && task < |db.tasks|
    requires db.tasks[task].status in {TaskWaitingPermission, TaskWaitingConfirmation}
        && !Due(db.tasks[task].request.expiresAt, w.now)
    requires db.workflows[id].plan == Some(plan)
    ensures ResumeTaskSpec(db, caps, w, who, id, task, Some(plan)).Raised? <==>
              Stuck(db.workflows[id].state, FreshStatus(db, caps, w, who, db.tasks[task]))
  {
    hide TaskEngine.ReevaluateSpec;
    hide SettleSpec;
    hide FreshStatus;
    assert FlowOk(db, id);
    NotYetReady(db.steps[id], db.workflows[id]);
    ReevaluateValue(db, caps, w, who, task);
    ReevaluateReopens(db, caps, w, who, id, task);
    var r := TaskEngine.ReevaluateSpec(db, caps, w, who, task, db.tasks[task].version).value;
    NoEnvelope(db.envelopes, id);
    FreshStatuses(db, caps, w, who, db.tasks[task]);
    SettleValue(r, caps, w, who, id, plan, task);
  }

  lemma NoEnvelope(envelopes: seq<Envelope>, id: Id)
    requires !HasEnvelope(envelopes, id)
    ensures FindEnvelope(envelopes, id).None?
  {
  }

  lemma FreshStatuses(db: Db, caps: Capabilities, w: World, who: Identity, t: Task)
    ensures FreshStatus(db, caps, w, who, t) in {Queued, TaskWaitingPermission, TaskWaitingConfirmation, TaskFailed}
  {
    hide Judge;
  }

  /** Exactly when resuming raises. Its guards come first: the workflow must exist and belong to
      the caller; one that is or becomes EXPIRED is answered; the version must be the expected one
      and the workflow must be waiting. A cancelled task then cancels the workflow and a damaged plan
      denies it. Otherwise resuming raises exactly if the task is expired or overdue, or the
      workflow cannot follow the task's fresh status. */
  ghost predicate ResumeRaises(db: Db, caps: Capabilities, w: World, who: Identity, id: Id, expected: nat,
      reparsed: Option<Plan>) {
    || id >= |db.workflows|
    || var f := db.workflows[id];
       || f.user != who.user
       || (&& f.state != FlowExpired && !(Due(f.expiresAt, w.now) && !Terminal(f.state))
           && (|| f.version != expected
               || !Waiting(f)
               || (f.task.Some? && f.task.value < |db.tasks|
                   && var t := db.tasks[f.task.value];
                      && t.status != TaskCancelled
                      && LoadPlanSpec(db, id, reparsed).Some?
                      && (|| t.status == TaskExpired
                          || Due(t.request.expiresAt, w.now)
                          || Stuck(f.state, FreshStatus(db, caps, w, who, t))))))
  }

  /** Resuming in every reachable state. */
  lemma ResumeTheorem(caps: Capabilities, calls: seq<Call>, w: World, who: Identity, id: Id, expected: nat,
      reparsed: Option<Plan>)
    requires Chronological(calls) && Clock(calls) <= w.now
    ensures var db := Run(caps, calls);
            && |db.steps| == |db.workflows|
            && (ResumeSpec(db, caps, w, who, id, expected, reparsed).Raised? <==>
                ResumeRaises(db, caps, w, who, id, expected, reparsed))
  {
    hide Run;
    hide Inv;
    var db := Run(caps, calls);
    AuthorityTheorems.LaterClock(db, caps, Clock(calls), w.now);
    ResumeValue(db, caps, w, who, id, expected, reparsed);
  }

  lemma ResumeValue(db: Db, caps: Capabilities, w: World, who: Identity, id: Id, expected: nat, reparsed: Option<Plan>)
    requires Inv(db, caps, w.now)
    ensures |db.steps| == |db.workflows|
    ensures ResumeSpec(db, caps, w, who, id, expected, reparsed).Raised? <==>
        ResumeRaises(db, caps, w, who, id, expected, reparsed)
  {
    hide ResumeTaskSpec;
    hide FreshStatus;
    hide InvAuthority;
    hide InvTasks;
    hide LoadPlanSpec;
    hide TaskEngine.GetSpec;
    if id < |db.workflows| && db.workflows[id].user == who.user && Waiting(db.workflows[id]) {
      assert FlowOk(db, id);
      hide FlowOk;
      hide InvFlows;
      TaskDecides(db, caps, w, who, id, reparsed);
    }
  }

  /** What the linked task of a waiting workflow makes of resuming. */
  lemma TaskDecides(db: Db, caps: Capabilities, w: World, who: Identity, id: Id, reparsed: Option<Plan>)
    requires Inv(db, caps, w.now) && id < |db.workflows| && Waiting(db.workflows[id])
        && db.workflows[id].user == who.user
    ensures var f := db.workflows[id];
            && f.task.Some? && f.task.value < |db.tasks|
            && var task := f.task.value; var t := db.tasks[task]; var got := TaskEngine.GetSpec(db, w, who, task);
               && got.Ok? && (t.status == TaskCancelled <==> got.value.tasks[task].status == TaskCancelled)
               && (t.status != TaskCancelled ==>
                     (ResumeTaskSpec(got.value, caps, w, who, id, task, reparsed).Raised? <==>
                        LoadPlanSpec(db, id, reparsed).Some?
                        && (t.status == TaskExpired || Due(t.request.expiresAt, w.now)
                            || Stuck(f.state, FreshStatus(db, caps, w, who, t)))))
  {
    hide ResumeTaskSpec;
    hide FreshStatus;
    hide InvAuthority;
    assert FlowOk(db, id);
    var f := db.workflows[id];
    var task := f.task.value;
    var t := db.tasks[task];
    assert TaskOk(db, t);
    var r := TaskEngine.GetSpec(db, w, who, task).value;
    ResumeTaskOther(r, caps, w, who, id, task, reparsed);
    if t.status in {TaskWaitingPermission, TaskWaitingConfirmation} && !Due(t.request.expiresAt, w.now)
        && LoadPlanSpec(db, id, reparsed).Some? {
      ResumeTaskValue(db, caps, w, who, id, task, reparsed.value);
    }
  }

  /** Resume with a damaged plan denies; with an expired task it raises. */
  lemma ResumeTaskOther(db: Db, caps: Capabilities, w: World, who: Identity, id: Id, task: Id, reparsed: Option<Plan>)
    requires id < |db.workflows| == |db.steps| && task < |db.tasks| && Waiting(db.workflows[id])
    ensures LoadPlanSpec(db, id, reparsed).None? ==> ResumeTaskSpec(db, caps, w, who, id, task, reparsed).Ok?
    ensures LoadPlanSpec(db, id, reparsed).Some? ==> LoadPlanSpec(db, id, reparsed) == reparsed
    ensures LoadPlanSpec(db, id, reparsed).Some? && db.tasks[task].status == TaskExpired ==>
        ResumeTaskSpec(db, caps, w, who, id, task, reparsed).Raised?
  {
    hide Judge;
  }

  // ---------------------------------------------------------------- inputs on which it raises

  predicate Known(caps: Capabilities, w: World, who: Identity, t: Task) {
    && who.user in w.users && w.users[who.user] == User(who.authUser, false)
    && t.request.capability in caps && caps[t.request.capability].enabled
    && AllowsOperations(caps[t.request.capability], t.request.scope.operations)
  }

  /** Whoever holds no permission for the capability that is not revoked is sent back to asking for
      one. So a workflow that waits for a confirmation cannot be resumed after its permission was
      revoked, although its task's status has changed. */
  lemma RevokedMeansWaiting(db: Db, caps: Capabilities, w: World, who: Identity, t: Task)
    requires Known(caps, w, who, t)
    requires forall p | 0 <= p < |db.permissions| ::
               db.permissions[p].user == who.user && db.permissions[p].capability == t.request.capability ==>
                   db.permissions[p].status == Revoked
    ensures FreshStatus(db, caps, w, who, t) == TaskWaitingPermission
    ensures forall state :: Stuck(state, FreshStatus(db, caps, w, who, t))
  {
    hide Candidates;
    hide AllowsOperations;
    hide AfterSearch;
    var agent := who.(device := t.request.device);
    var cap := caps[t.request.capability];
    var ids := Candidates(db.permissions, who.user, t.request.capability, |db.permissions|);
    var standings := Standings(db.permissions, ids, agent, cap, t.request.scope, w);
    assert forall k | 0 <= k < |ids| :: standings[k] == WasRevoked;
    assert ids != [] ==> standings[0] == WasRevoked;
  }

  /** Creating a task without any permission: it waits for one. */
  lemma TaskWaits(db: Db, caps: Capabilities, w: World, who: Identity, req: TaskRequest, key: IdempotencyKey)
    requires db.permissions == [] && TaskEngine.FindTask(db.tasks, who.user, key).None?
    requires req.expiresAt.None? && req.parent.None? && req.device.None?
    requires who.user in w.users && w.users[who.user] == User(who.authUser, false)
    requires req.capability in caps && caps[req.capability].enabled
        && AllowsOperations(caps[req.capability], req.scope.operations)
    ensures var r := TaskEngine.CreateSpec(db, caps, w, who, req, key);
            && r.Ok? && r.value.1 == TaskEngine.Creation(Some(|db.tasks|), Some(|db.decisions|))
            && r.value.0 == db.(decisions := r.value.0.decisions, tasks := r.value.0.tasks)
            && |r.value.0.decisions| == |db.decisions| + 1
            && r.value.0.tasks ==
               db.tasks + [Task(who.user, req, TaskWaitingPermission, key, |db.decisions|, None, [], 1)]
  {
    hide AllowsOperations;
    var auth := AuthorizationRequest(req.capability, req.action, req.scope, None);
    assert AuthorizeSpec(db, caps, w, who, auth).permissions == [];
  }

  /** The rows a workflow leaves that waits for a permission from the start. */
  ghost predicate Parked(db: Db, id: Id, who: Identity, plan: Plan) {
    && db.permissions == [] && |db.workflows| == |db.steps| && id < |db.workflows| && id in db.plans
        && db.plans[id].fingerprint == plan
    && var f := db.workflows[id];
       && f.user == who.user && f.state == WaitingPermission && f.expiresAt.None? && f.plan == Some(plan)
       && f.task.Some? && f.task.value < |db.tasks|
       && var t := db.tasks[f.task.value];
          && t.user == who.user && t.status == TaskWaitingPermission && t.request.expiresAt.None?
          && |plan.actions| == 1 && t.request.capability == plan.actions[0].capability
              && t.request.scope == plan.actions[0].scope
  }

  lemma LinkParks(db: Db, caps: Capabilities, w: World, who: Identity, req: FlowRequest, id: Id, plan: Plan,
      payload: string)
    requires |db.workflows| == |db.steps| && id < |db.workflows| && db.permissions == [] && |plan.actions| == 1
    requires db.workflows[id].state == ProposalGenerated && db.workflows[id].user == who.user
        && db.workflows[id].expiresAt.None?
    requires TaskEngine.FindTask(db.tasks, who.user, TaskEngine.FlowKey(id)).None?
    requires req.expiresAt.None? && who.device.None? && who.user in w.users
        && w.users[who.user] == User(who.authUser, false)
    requires plan.actions[0].capability in caps && caps[plan.actions[0].capability].enabled
    requires AllowsOperations(caps[plan.actions[0].capability], plan.actions[0].scope.operations)
    ensures var r := LinkSpec(db, caps, w, who, req, id, plan, payload);
            r.Ok? && Parked(r.value, id, who, plan) && |r.value.workflows| == |db.workflows|
  {
    hide AllowsOperations;
    hide TaskEngine.CreateSpec;
    var db1 := db.(plans := db.plans[id := StoredPlan(plan, payload)]);
    var db2 := MoveSpec(db1, id, db1.workflows[id].(plan := Some(plan)), PlanValidated).value;
    TaskWaits(db2, caps, w, who, TaskProposal(id, who, req, plan.actions[0]), TaskEngine.FlowKey(id));
  }

  /** A parked workflow cannot be resumed as long as no permission is granted. */
  lemma ParkedStays(db: Db, caps: Capabilities, w: World, who: Identity, id: Id, plan: Plan)
    requires Inv(db, caps, w.now) && Parked(db, id, who, plan)
    requires Known(caps, w, who, db.tasks[db.workflows[id].task.value])
    ensures ResumeSpec(db, caps, w, who, id, db.workflows[id].version, Some(plan)).Raised?
  {
    hide Inv;
    hide FreshStatus;
    hide Known;
    hide ResumeSpec;
    RevokedMeansWaiting(db, caps, w, who, db.tasks[db.workflows[id].task.value]);
    ResumeValue(db, caps, w, who, id, db.workflows[id].version, Some(plan));
  }

  const SEND := CandidateAction("mail", "send", Scope("mail", [], ["send"]), "")
  const MAIL: Capabilities := map["mail" := Capability(true, ["send"], 1, false, false, false, false)]
  const SENDER := Identity(0, 0, None, true)
  const NOON := World(0, map[0 := User(0, false)], map[], Policy(Normal, true, true), 0)
  const ERRAND := FlowRequest(ActionIntent, "key", "request", false, None)

  /** The shortest such run: a plan to send mail without any permission to do so, and a resumption. */
  lemma ResumeWithoutProgress()
    ensures var plan := Plan("mail", [SEND]);
            var made := CreateSpec(EMPTY, MAIL, NOON, SENDER, ERRAND, Answered(Some(plan), "{}"));
            && made.Ok? && |made.value.0.workflows| == |made.value.0.steps| == 1
                && made.value.0.workflows[0].state == WaitingPermission
            && ResumeSpec(made.value.0, MAIL, NOON, SENDER, 0, made.value.0.workflows[0].version, Some(plan)).Raised?
  {
    hide ResumeSpec;
    hide LinkSpec;
    var plan := Plan("mail", [SEND]);
    var ai := Answered(Some(plan), "{}");
    var db0 := ReceiveSpec(EMPTY, SENDER, ERRAND);
    var db1 := MoveSpec(db0, 0, db0.workflows[0], ContextPrepared).value;
    var db2 := MoveSpec(db1, 0, db1.workflows[0], Routed).value;
    var db3 := MoveSpec(db2, 0, db2.workflows[0], ProposalGenerated).value;
    assert ["send"][0] == "send" && ["send"][0] != "";
    assert CapabilityAllows(MAIL, "mail", "send");
    LinkParks(db3, MAIL, NOON, SENDER, ERRAND, 0, plan, "{}");
    var db := LinkSpec(db3, MAIL, NOON, SENDER, ERRAND, 0, plan, "{}").value;
    assert CreateSpec(EMPTY, MAIL, NOON, SENDER, ERRAND, ai) == Ok((db, 0));
    assert Run(MAIL, []) == EMPTY;
    AuthorityTheorems.LaterClock(EMPTY, MAIL, Clock([]), NOON.now);
    CreateKept(EMPTY, MAIL, NOON, SENDER, ERRAND, ai);
    ParkedStays(db, MAIL, NOON, SENDER, 0, plan);
  }
}
