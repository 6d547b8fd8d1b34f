/** What the calls on workflows do in every reachable state, said of the rows: which state a workflow
    ends in and along which steps, what is stored with it, and the error of every call that raises. */
module FlowMeaning {
  import opened Common
  import opened AuthorityStore
  import opened PermissionsEngine
  import opened Orchestrator
  import opened AuthorityInvariant
  import opened AuthorityRuns
  import opened AuthorizationMeaning
  import Scopes
  import TaskEngine
  import TaskMeaning
  import TaskSafety
  import FlowSafety

  // ---------------------------------------------------------------- rows

  predicate Finished(f: Workflow) {
    f.state in {CompletedNoAction, Denied, Failed, Cancelled, FlowExpired}
  }

  /** Not finished, and at or past the deadline. */
  predicate FlowOverdue(f: Workflow, now: Time) {
    !Finished(f) && f.expiresAt.Some? && now >= f.expiresAt.value
  }

  /** The recorded steps from one state along the next ones. */
  function Along(from: FlowState, states: seq<FlowState>): (r: seq<Step>)
    ensures |r| == |states|
    decreases |states|
  {
    if states == [] then [] else [Step(Some(from), states[0])] + Along(states[0], states[1..])
  }

  /** Only workflow `id` moves, through these states: each is recorded and counts one version, and
      a denial or failure marks the row. */
  ghost predicate Walked(db: Db, r: Db, id: Id, row: Workflow, states: seq<FlowState>) {
    && id < |db.workflows| == |db.steps| && states != []
    && r == db.(workflows := r.workflows, steps := r.steps)
    && |r.workflows| == |db.workflows| && |r.steps| == |db.steps|
    && (forall f | 0 <= f < |db.workflows| && f != id ::
          r.workflows[f] == db.workflows[f] && r.steps[f] == db.steps[f])
    && r.steps[id] == db.steps[id] + Along(db.workflows[id].state, states)
    && var last := states[|states| - 1];
       r.workflows[id] == row.(state := last, version := db.workflows[id].version + |states|,
                               failed := db.workflows[id].failed || last == Denied || last == Failed)
  }

  // ---------------------------------------------------------------- reading and cancelling

  ghost predicate GetMeans(db: Db, now: Time, who: Identity, id: Id, r: Outcome<Db>) {
    if id >= |db.workflows| || db.workflows[id].user != who.user then r == Raised(FlowMissing)
    else if FlowOverdue(db.workflows[id], now) then
      r.Ok? && Walked(db, r.value, id, db.workflows[id], [FlowExpired])
    else r == Ok(db)
  }

  /** A queued or waiting task before its deadline. */
  predicate Cancellable(t: Task, now: Time) {
    t.status in {Queued, TaskWaitingPermission, TaskWaitingConfirmation} && !TaskMeaning.Overdue(t, now)
  }

  /** Cancelling: the workflow follows its task, and both are cancelled or neither. */
  ghost predicate CancelMeans(db: Db, now: Time, who: Identity, id: Id, expected: nat, r: Outcome<Db>) {
    if id >= |db.workflows| || db.workflows[id].user != who.user then r == Raised(FlowMissing)
    else
      var f := db.workflows[id];
      if FlowOverdue(f, now) then r.Ok? && Walked(db, r.value, id, f, [FlowExpired])
      else if f.state == FlowExpired || f.state == Cancelled then r == Ok(db)
      else if Finished(f) then r == Raised(FlowTransitionInvalid)
      else if f.version != expected then r == Raised(FlowConflict)
      else if f.task.None? then r.Ok? && Walked(db, r.value, id, f, [Cancelled])
      else
        f.task.value < |db.tasks| &&
        var t := db.tasks[f.task.value];
        if t.status == TaskCancelled then r.Ok? && Walked(db, r.value, id, f, [Cancelled])
        else if Cancellable(t, now) then
          && r.Ok? && Walked(db.(tasks := r.value.tasks), r.value, id, f, [Cancelled])
          && TaskMeaning.OnlyRow(db, db.(tasks := r.value.tasks), f.task.value,
                                 t.(status := TaskCancelled, version := t.version + 1))
        else r == Raised(if t.status == Running then TaskTransitionInvalid else TaskTerminal)
  }

  // ---------------------------------------------------------------- concluding and resuming

  /** The envelope of a workflow: the single action of its plan, as its task was allowed to do it. */
  ghost predicate EnvelopeOf(db: Db, id: Id, plan: Plan, task: Id, decision: Id, e: Envelope) {
    && id < |db.workflows| && task < |db.tasks| && decision < |db.decisions| && |plan.actions| == 1
    && var f, t, d, a := db.workflows[id], db.tasks[task], db.decisions[decision], plan.actions[0];
       && e.workflow == id && e.user == f.user && e.task == task && e.decision == decision && e.plan == plan
       && e.capability == a.capability && e.action == a.action && e.arguments == a.arguments && e.scope == a.scope
       && e.device == t.request.device && e.confirmation == t.confirmation && e.expiresAt == f.expiresAt
       && d.permission == Some(e.permission) && e.risk == d.risk
  }

  /** The workflow takes over its task, the decision and the confirmation. */
  function LinkedTo(f: Workflow, t: Task, task: Id, decision: Id): Workflow {
    f.(task := Some(task), decision := Some(decision), confirmation := t.confirmation)
  }

  /** A workflow follows its task: a queued one makes it READY with its envelope, if the policy is for
      acting, and DENIED if not; a waiting one makes it wait, where its state allows that. */
  ghost predicate ConcludeMeans(db: Db, w: World, id: Id, plan: Plan, task: Id, decision: Id, r: Outcome<Db>) {
    && id < |db.workflows| && task < |db.tasks|
    && var f, t := db.workflows[id], db.tasks[task];
       if t.status == Queued then
         if w.policy.safeMode == Normal && w.policy.actionsEnabled then
           r.Ok? && exists e :: EnvelopeOf(db, id, plan, task, decision, e) &&
                                Walked(db.(envelopes := db.envelopes + [e]), r.value, id,
                                       LinkedTo(f, t, task, decision), [ReadyForExecution])
         else r.Ok? && Walked(db, r.value, id, f, [Denied])
       else if t.status == TaskWaitingConfirmation && f.state != WaitingConfirmation then
         r.Ok? && Walked(db, r.value, id, LinkedTo(f, t, task, decision), [WaitingConfirmation])
       else if t.status == TaskWaitingPermission && f.state == PlanValidated then
         r.Ok? && Walked(db, r.value, id, LinkedTo(f, t, task, decision), [WaitingPermission])
       else r == Raised(FlowTransitionInvalid)
  }

  /** The store in which the deadline of the task was observed. */
  ghost predicate Seen(db: Db, seen: Db, task: Id, now: Time) {
    && task < |db.tasks|
    && var t := db.tasks[task];
       if TaskMeaning.Overdue(t, now) then
         TaskMeaning.OnlyRow(db, seen, task, t.(status := TaskExpired, version := t.version + 1))
       else seen == db
  }

  /** The workflow after its task was evaluated again. */
  ghost predicate SettleMeans(db: Db, w: World, id: Id, plan: Plan, task: Id, r: Outcome<Db>) {
    && id < |db.workflows| && task < |db.tasks|
    && var f, t := db.workflows[id], db.tasks[task];
       if t.status == TaskFailed then
         r.Ok? && Walked(db, r.value, id, f.(decision := Some(t.decision), confirmation := None), [Denied])
       else ConcludeMeans(db, w, id, plan, task, t.decision, r)
  }

  /** Resuming a workflow that waits, with an intact plan and a task that waits in time. */
  ghost predicate ContinueMeans(db: Db, caps: Capabilities, w: World, who: Identity, id: Id, plan: Plan, task: Id,
      evaluated: Db, s: TaskStatus, again: Db, r: Outcome<Db>)
    requires task < |db.tasks|
  {
    && TaskMeaning.AgainMeans(db, caps, w, who, task, db.tasks[task].version, evaluated, s, Ok(again))
    && SettleMeans(again, w, id, plan, task, r)
  }

  /** Resuming, from the task on. */
  ghost predicate TaskPartMeans(db: Db, caps: Capabilities, w: World, who: Identity, id: Id, task: Id,
      reparsed: Option<Plan>, r: Outcome<Db>)
    requires id < |db.workflows| && task < |db.tasks|
  {
    var f, t := db.workflows[id], db.tasks[task];
    && f.plan.Some?
    && if t.status == TaskCancelled then r.Ok? && Walked(db, r.value, id, f, [Cancelled])
       else if reparsed != f.plan then
         r.Ok? && exists seen :: Seen(db, seen, task, w.now) && Walked(seen, r.value, id, f, [Denied])
       else if t.status == TaskExpired || TaskMeaning.Overdue(t, w.now) then r == Raised(TaskTransitionInvalid)
       else exists evaluated, s, again ::
              ContinueMeans(db, caps, w, who, id, f.plan.value, task, evaluated, s, again, r)
  }

  /** Resuming: the guards, then the task, then the plan, and then a fresh evaluation of the task. */
  ghost predicate ResumeMeans(db: Db, caps: Capabilities, w: World, who: Identity, id: Id, expected: nat,
      reparsed: Option<Plan>, r: Outcome<Db>)
  {
    if id >= |db.workflows| || db.workflows[id].user != who.user then r == Raised(FlowMissing)
    else
      var f := db.workflows[id];
      if FlowOverdue(f, w.now) then r.Ok? && Walked(db, r.value, id, f, [FlowExpired])
      else if f.state == FlowExpired then r == Ok(db)
      else if f.version != expected then r == Raised(FlowConflict)
      else if f.state != WaitingPermission && f.state != WaitingConfirmation then r == Raised(FlowTransitionInvalid)
      else
        f.task.Some? && f.task.value < |db.tasks| && TaskPartMeans(db, caps, w, who, id, f.task.value, reparsed, r)
  }

  // ---------------------------------------------------------------- creating

  /** The policy lets the intent in: not in maintenance, with AI enabled, and for an action or a
      destructive one in normal mode with actions enabled. */
  predicate LetIn(p: Policy, c: IntentCategory) {
    && p.safeMode != Maintenance && p.aiEnabled && c != Unsupported
    && (c == ActionIntent || c == Destructive ==> p.safeMode == Normal && p.actionsEnabled)
  }

  /** The workflow as it is received. */
  ghost predicate Begins(db: Db, begun: Db, who: Identity, req: FlowRequest) {
    var n := |db.workflows|;
    && n == |db.steps|
    && begun == db.(workflows := begun.workflows, steps := begun.steps)
    && |begun.workflows| == n + 1 && |begun.steps| == n + 1
    && (forall f | 0 <= f < n :: begun.workflows[f] == db.workflows[f] && begun.steps[f] == db.steps[f])
    && begun.steps[n] == [Step(None, Received)]
    && var f := begun.workflows[n];
       && f.user == who.user && f.device == who.device && f.category == req.category && f.state == Received
       && f.key == req.key && f.fingerprint == req.fingerprint && f.expiresAt == req.expiresAt
       && f.task.None? && f.decision.None? && f.confirmation.None? && f.plan.None? && !f.failed && f.version == 1
  }

  /** The memory context: reading memory is evaluated if the request uses it. */
  ghost predicate ContextMeans(db: Db, caps: Capabilities, w: World, who: Identity, useMemory: bool, r: Db,
      packed: bool) {
    if useMemory then
      && TaskMeaning.Evaluated(db, caps, w, who,
           AuthorizationRequest("memory.read", "read", Scopes.Scope("memory", [], ["read"]), None), r)
      && (packed <==> r.decisions[|db.decisions|].kind == Allow)
    else r == db && packed
  }

  /** The task a workflow proposes: the single action of its plan, for the caller's device. */
  ghost predicate Proposes(id: Id, who: Identity, req: FlowRequest, a: CandidateAction, t: TaskRequest) {
    && t.capability == a.capability && t.action == a.action && t.scope == a.scope && t.device == who.device
    && (t.highPriority <==> req.category == Destructive) && t.expiresAt == req.expiresAt && t.parent.None?
    && t.metadata == FlowMetadata(id)
  }

  /** A validated plan is stored and its action proposed as a task; the workflow follows it, or is DENIED
      if there is none. `made` is what creating the task answers. */
  ghost predicate LinkMeans(db: Db, caps: Capabilities, w: World, who: Identity, req: FlowRequest, id: Id, plan: Plan,
      payload: string, planned: Db, proposal: TaskRequest, made: Outcome<(Db, TaskEngine.Creation)>, r: Outcome<Db>)
  {
    && id < |db.workflows| && id in planned.plans && |plan.actions| == 1
    && Walked(db.(plans := db.plans[id := StoredPlan(plan, payload)]), planned, id,
              db.workflows[id].(plan := Some(plan)), [Routed, ProposalGenerated, PlanValidated])
    && Proposes(id, who, req, plan.actions[0], proposal)
    && TaskMeaning.CreateMeans(planned, caps, w, who, proposal, OrchestrationKey(id), made)
    && (match made
        case Raised(e) => r == Raised(e)
        case Ok((db3, c)) =>
          if c.task.None? || c.decision.None? then
            && r.Ok? && id < |db3.workflows|
            && Walked(db3, r.value, id, db3.workflows[id].(decision := c.decision, confirmation := None), [Denied])
          else ConcludeMeans(db3, w, id, plan, c.task.value, c.decision.value, r))
  }

  /** What the router answered decides how a workflow goes on. */
  ghost predicate AnswerMeans(db: Db, caps: Capabilities, w: World, who: Identity, req: FlowRequest, ai: AiOutcome,
      id: Id, r: Outcome<Db>)
  {
    && id < |db.workflows|
    && var f := db.workflows[id];
       match ai
       case RoutingDenied => r.Ok? && Walked(db, r.value, id, f, [Denied])
       case ProviderFailed => r.Ok? && Walked(db, r.value, id, f, [Failed])
       case Answered(plan, payload) =>
         if req.category != ActionIntent && req.category != Destructive then
           r.Ok? && Walked(db, r.value, id, f, [Routed, ProposalGenerated, CompletedNoAction])
         else if plan.None? || |plan.value.actions| != 1 then
           r.Ok? && Walked(db, r.value, id, f, [Routed, ProposalGenerated, Failed])
         else
           var a := plan.value.actions[0];
           if a.capability !in caps || !caps[a.capability].enabled || !InVocabulary(caps[a.capability], [a.action]) then
             r.Ok? && Walked(db, r.value, id, f, [Routed, ProposalGenerated, Denied])
           else exists planned, proposal, made ::
                  LinkMeans(db, caps, w, who, req, id, plan.value, payload, planned, proposal, made, r)
  }

  /** Everything after the workflow was received. */
  ghost predicate ProcessMeans(db: Db, caps: Capabilities, w: World, who: Identity, req: FlowRequest, ai: AiOutcome,
      id: Id, r: Outcome<Db>)
  {
    && id < |db.workflows|
    && if !LetIn(w.policy, req.category) then r.Ok? && Walked(db, r.value, id, db.workflows[id], [Denied])
       else exists context, packed, prepared ::
              && ContextMeans(db, caps, w, who, req.useMemory, context, packed)
              && (if packed then
                    && Walked(context, prepared, id, db.workflows[id], [ContextPrepared])
                    && AnswerMeans(prepared, caps, w, who, req, ai, id, r)
                  else r.Ok? && Walked(context, r.value, id, db.workflows[id], [Denied]))
  }

  /** Creating a workflow: a used key is answered or conflicts, an overdue request is refused, and any
      other is received and processed. */
  ghost predicate CreateMeans(db: Db, caps: Capabilities, w: World, who: Identity, req: FlowRequest, ai: AiOutcome,
      r: Outcome<(Db, Id)>)
  {
    if exists f | 0 <= f < |db.workflows| :: db.workflows[f].user == who.user && db.workflows[f].key == req.key then
      exists f: Id :: && f < |db.workflows| && db.workflows[f].user == who.user && db.workflows[f].key == req.key
                      && r == if db.workflows[f].fingerprint == req.fingerprint then Ok((db, f))
                              else Raised(FlowKeyConflict)
    else if req.expiresAt.Some? && w.now >= req.expiresAt.value then r == Raised(FlowDataInvalid)
    else
      && (r.Ok? ==> r.value.1 == |db.workflows|)
      && exists begun :: Begins(db, begun, who, req) &&
           ProcessMeans(begun, caps, w, who, req, ai, |db.workflows|,
                        if r.Ok? then Ok(r.value.0) else Raised(r.error))
  }

  // ---------------------------------------------------------------- proofs: reading and cancelling

  lemma MoveWalks(db: Db, id: Id, row: Workflow, target: FlowState)
    requires id < |db.workflows| == |db.steps|
    ensures target !in AllowedTargets(db.workflows[id].state) ==>
            MoveSpec(db, id, row, target) == Raised(FlowTransitionInvalid)
    ensures target in AllowedTargets(db.workflows[id].state) ==>
            MoveSpec(db, id, row, target).Ok? && Walked(db, MoveSpec(db, id, row, target).value, id, row, [target])
  {
    assert Along(db.workflows[id].state, [target]) == [Step(Some(db.workflows[id].state), target)];
  }

  lemma ExpireSpelled(db: Db, id: Id, now: Time)
    requires id < |db.workflows| == |db.steps|
    ensures var (r, expired) := ExpireSpec(db, id, now);
            && (if FlowOverdue(db.workflows[id], now)
                then Walked(db, r, id, db.workflows[id], [FlowExpired]) else r == db)
            && (expired <==> FlowOverdue(db.workflows[id], now) || db.workflows[id].state == FlowExpired)
  {
    hide Walked;
    if FlowOverdue(db.workflows[id], now) {
      MoveWalks(db, id, db.workflows[id], FlowExpired);
    }
  }

  lemma GetSpelled(db: Db, w: World, who: Identity, id: Id)
    requires |db.workflows| == |db.steps|
    ensures GetMeans(db, w.now, who, id, GetSpec(db, w, who, id))
  {
    hide Walked;
    hide ExpireSpec;
    if id < |db.workflows| {
      ExpireSpelled(db, id, w.now);
    }
  }

  /** Cancelling the task of a workflow. */
  lemma CancelTaskSpelled(db: Db, w: World, who: Identity, task: Id)
    requires InvTasks(db) && task < |db.tasks| && db.tasks[task].user == who.user
    ensures var r := CancelTaskSpec(db, w, who, task); var t := db.tasks[task];
            if t.status == TaskCancelled then r == Ok(db)
            else if Cancellable(t, w.now) then
              r.Ok? && TaskMeaning.OnlyRow(db, r.value, task, t.(status := TaskCancelled, version := t.version + 1))
            else r == Raised(if t.status == Running then TaskTransitionInvalid else TaskTerminal)
  {
    hide TaskEngine.GetSpec;
    hide TaskEngine.CancelSpec;
    TaskMeaning.GetSpelled(db, w, who, task);
    assert TaskOk(db, db.tasks[task]);
    hide InvTasks;
    var got := TaskEngine.GetSpec(db, w, who, task);
    if got.Ok? {
      if TaskMeaning.Overdue(db.tasks[task], w.now) {
        ExpiredRefuses(got.value, w, who, task);
      } else {
        TaskMeaning.CancelSpelled(db, w, who, task, db.tasks[task].version);
      }
    }
  }

  lemma ExpiredRefuses(db: Db, w: World, who: Identity, task: Id)
    requires task < |db.tasks| && db.tasks[task].user == who.user && db.tasks[task].status == TaskExpired
    ensures TaskEngine.CancelSpec(db, w, who, task, db.tasks[task].version) == Raised(TaskTerminal)
  {
  }

  lemma CancelSpelled(db: Db, w: World, who: Identity, id: Id, expected: nat)
    requires InvTasks(db) && InvFlows(db)
    ensures CancelMeans(db, w.now, who, id, expected, CancelSpec(db, w, who, id, expected))
  {
    hide Walked;
    hide ExpireSpec;
    hide CancelTaskSpec;
    hide MoveSpec;
    if id < |db.workflows| && db.workflows[id].user == who.user {
      assert FlowOk(db, id);
      hide InvFlows;
      ExpireSpelled(db, id, w.now);
      var f := db.workflows[id];
      MoveWalks(db, id, f, Cancelled);
      if f.task.Some? {
        CancelTaskSpelled(db, w, who, f.task.value);
        var cancelled := CancelTaskSpec(db, w, who, f.task.value);
        if cancelled.Ok? {
          MoveWalks(cancelled.value, id, f, Cancelled);
        }
      }
      hide InvTasks;
    }
  }

  // ---------------------------------------------------------------- proofs: resuming

  /** The decision of a queued task was an ALLOW under a permission. */
  lemma QueuedAllowed(db: Db, caps: Capabilities, task: Id, now: Time)
    requires InvAuthority(db, caps, now) && InvTasks(db) && task < |db.tasks| && db.tasks[task].status == Queued
    ensures var d := db.tasks[task].decision;
            && d < |db.decisions| && db.decisions[d].kind == Allow && db.decisions[d].permission.Some?
            && !db.decisions[d].financialGuard
  {
    hide Balanced;
    assert TaskOk(db, db.tasks[task]);
    assert DecisionOk(db, caps, db.decisions[db.tasks[task].decision]);
  }

  /** What the ending needs to know about the decision of a queued task. */
  ghost predicate Allowed(db: Db, task: Id, decision: Id) {
    && task < |db.tasks| && decision < |db.decisions|
    && (db.tasks[task].status == Queued ==>
          db.decisions[decision].kind == Allow && db.decisions[decision].permission.Some?
          && !db.decisions[decision].financialGuard)
  }

  lemma ConcludeSpelled(db: Db, w: World, id: Id, plan: Plan, task: Id, decision: Id)
    requires id < |db.workflows| == |db.steps| && Allowed(db, task, decision) && |plan.actions| == 1
    requires db.workflows[id].state in {PlanValidated, WaitingPermission, WaitingConfirmation}
    requires FindEnvelope(db.envelopes, id).None?
    ensures ConcludeMeans(db, w, id, plan, task, decision, ConcludeSpec(db, w, id, plan, task, decision))
  {
    if db.tasks[task].status == Queued && w.policy.safeMode == Normal && w.policy.actionsEnabled {
      ConcludesReady(db, w, id, plan, task, decision);
    } else {
      ConcludesOther(db, w, id, plan, task, decision);
    }
  }

  lemma ConcludesReady(db: Db, w: World, id: Id, plan: Plan, task: Id, decision: Id)
    requires id < |db.workflows| == |db.steps| && Allowed(db, task, decision) && |plan.actions| == 1
    requires db.workflows[id].state in {PlanValidated, WaitingPermission, WaitingConfirmation}
    requires FindEnvelope(db.envelopes, id).None?
    requires db.tasks[task].status == Queued && w.policy.safeMode == Normal && w.policy.actionsEnabled
    ensures ConcludeMeans(db, w, id, plan, task, decision, ConcludeSpec(db, w, id, plan, task, decision))
  {
    hide Walked;
    hide MoveSpec;
    hide FindEnvelope;
    var f, t := db.workflows[id], db.tasks[task];
    var e := EnvelopeFor(f, id, plan, t, task, db.decisions[decision], decision);
    assert EnvelopeOf(db, id, plan, task, decision, e);
    MoveWalks(db.(envelopes := db.envelopes + [e]), id, LinkedTo(f, t, task, decision), ReadyForExecution);
  }

  lemma ConcludesOther(db: Db, w: World, id: Id, plan: Plan, task: Id, decision: Id)
    requires id < |db.workflows| == |db.steps| && Allowed(db, task, decision) && |plan.actions| == 1
    requires db.workflows[id].state in {PlanValidated, WaitingPermission, WaitingConfirmation}
    requires !(db.tasks[task].status == Queued && w.policy.safeMode == Normal && w.policy.actionsEnabled)
    ensures ConcludeMeans(db, w, id, plan, task, decision, ConcludeSpec(db, w, id, plan, task, decision))
  {
    hide Walked;
    hide MoveSpec;
    hide EnvelopeSpec;
    var f, t := db.workflows[id], db.tasks[task];
    var linked := LinkedTo(f, t, task, decision);
    if t.status == Queued {
      MoveWalks(db, id, f, Denied);
    } else {
      MoveWalks(db, id, linked, WaitingConfirmation);
      MoveWalks(db, id, linked, WaitingPermission);
    }
  }

  lemma SettleSpelled(db: Db, caps: Capabilities, w: World, who: Identity, id: Id, plan: Plan, task: Id)
    requires InvAuthority(db, caps, w.now) && InvTasks(db) && id < |db.workflows| == |db.steps|
    requires task < |db.tasks| && db.tasks[task].user == who.user && |plan.actions| == 1
    requires db.workflows[id].state in {WaitingPermission, WaitingConfirmation}
    requires FindEnvelope(db.envelopes, id).None?
    ensures SettleMeans(db, w, id, plan, task, SettleSpec(db, w, who, id, plan, task))
  {
    hide Walked;
    hide MoveSpec;
    hide FindEnvelope;
    hide ConcludeSpec;
    hide ConcludeMeans;
    var t := db.tasks[task];
    assert TaskOk(db, t);
    if t.status == Queued {
      QueuedAllowed(db, caps, task, w.now);
    }
    hide InvTasks;
    hide InvAuthority;
    MoveWalks(db, id, db.workflows[id].(decision := Some(t.decision), confirmation := None), Denied);
    ConcludeSpelled(db, w, id, plan, task, t.decision);
  }

  lemma ContinueSpelled(db: Db, caps: Capabilities, w: World, who: Identity, id: Id, task: Id, plan: Plan)
    requires Inv(db, caps, w.now) && id < |db.workflows| && db.workflows[id].task == Some(task)
    requires db.workflows[id].state in {WaitingPermission, WaitingConfirmation}
    requires db.workflows[id].user == who.user && task < |db.tasks| && db.workflows[id].plan == Some(plan)
    requires db.tasks[task].status in {TaskWaitingPermission, TaskWaitingConfirmation}
    requires !TaskMeaning.Overdue(db.tasks[task], w.now)
    ensures exists evaluated, s, again :: ContinueMeans(db, caps, w, who, id, plan, task, evaluated, s, again,
                                            ResumeTaskSpec(db, caps, w, who, id, task, Some(plan)))
  {
    hide TaskEngine.ReevaluateSpec;
    hide SettleSpec;
    hide SettleMeans;
    hide ResumeTaskSpec;
    hide TaskMeaning.AgainMeans;
    hide InvAuthority;
    hide InvTasks;
    var again := TaskEngine.ReevaluateSpec(db, caps, w, who, task, db.tasks[task].version);
    assert db.tasks[task].user == who.user && |plan.actions| == 1 && id < |db.steps| by {
      assert FlowOk(db, id);
    }
    var evaluated, s := ReevaluatesInTime(db, caps, w, who, task);
    IntactContinues(db, caps, w, who, id, task, plan);
    assert FlowSafety.Rank(db.workflows[id].state) < FlowSafety.Rank(ReadyForExecution);
    FlowSafety.ReevaluateReopens(db, caps, w, who, id, task);
    NeverReady(again.value, id);
    hide FlowSafety.InvFlowsBut;
    hide InvFlows;
    SettleSpelled(again.value, caps, w, who, id, plan, task);
    assert ContinueMeans(db, caps, w, who, id, plan, task, evaluated, s, again.value,
                         ResumeTaskSpec(db, caps, w, who, id, task, Some(plan)));
  }

  /** With an intact plan, resuming is evaluating the task again and settling. */
  lemma IntactContinues(db: Db, caps: Capabilities, w: World, who: Identity, id: Id, task: Id, plan: Plan)
    requires InvFlows(db) && id < |db.workflows| && db.workflows[id].plan == Some(plan) && |plan.actions| == 1
    requires task < |db.tasks|
    requires TaskEngine.ReevaluateSpec(db, caps, w, who, task, db.tasks[task].version).Ok?
    ensures |db.workflows| == |db.steps|
    ensures ResumeTaskSpec(db, caps, w, who, id, task, Some(plan)) ==
            SettleSpec(TaskEngine.ReevaluateSpec(db, caps, w, who, task, db.tasks[task].version).value, w, who, id,
                       plan, task)
  {
    hide TaskEngine.ReevaluateSpec;
    hide SettleSpec;
    assert FlowOk(db, id);
  }

  lemma NeverReady(db: Db, id: Id)
    requires FlowSafety.InvFlowsBut(db, id)
    ensures id < |db.workflows| == |db.steps| && FindEnvelope(db.envelopes, id).None?
  {
  }

  /** Evaluating at its own version never conflicts. */
  lemma ReevaluatesInTime(db: Db, caps: Capabilities, w: World, who: Identity, task: Id)
      returns (evaluated: Db, s: TaskStatus)
    requires InvTasks(db) && task < |db.tasks| && db.tasks[task].user == who.user
    requires db.tasks[task].status in {TaskWaitingPermission, TaskWaitingConfirmation}
    requires !TaskMeaning.Overdue(db.tasks[task], w.now)
    ensures var again := TaskEngine.ReevaluateSpec(db, caps, w, who, task, db.tasks[task].version);
            && again.Ok?
            && TaskMeaning.AgainMeans(db, caps, w, who, task, db.tasks[task].version, evaluated, s, again)
  {
    hide InvTasks;
    hide TaskEngine.ReevaluateSpec;
    hide TaskMeaning.Evaluated;
    TaskMeaning.ReevaluateSpelled(db, caps, w, who, task, db.tasks[task].version);
    var again := TaskEngine.ReevaluateSpec(db, caps, w, who, task, db.tasks[task].version);
    evaluated, s :| TaskMeaning.AgainMeans(db, caps, w, who, task, db.tasks[task].version, evaluated, s, again);
  }

  /** A plan that is not the stored one denies the workflow. */
  lemma DamagedDenies(db: Db, caps: Capabilities, w: World, who: Identity, id: Id, task: Id, reparsed: Option<Plan>)
    requires id < |db.workflows| == |db.steps| && task < |db.tasks| && reparsed != db.workflows[id].plan
    requires db.workflows[id].state in {WaitingPermission, WaitingConfirmation}
    ensures var r := ResumeTaskSpec(db, caps, w, who, id, task, reparsed);
            r.Ok? && Walked(db, r.value, id, db.workflows[id], [Denied])
  {
    hide Walked;
    hide MoveSpec;
    hide TaskEngine.ReevaluateSpec;
    MoveWalks(db, id, db.workflows[id], Denied);
  }

  /** An expired task cannot be evaluated again. */
  lemma ExpiredRaises(db: Db, caps: Capabilities, w: World, who: Identity, id: Id, task: Id, plan: Plan)
    requires id < |db.workflows| == |db.steps| && task < |db.tasks| && db.tasks[task].status == TaskExpired
    requires db.tasks[task].user == who.user && |plan.actions| == 1
    requires db.workflows[id].plan == Some(plan) && id in db.plans && db.plans[id].fingerprint == plan
    ensures ResumeTaskSpec(db, caps, w, who, id, task, Some(plan)) == Raised(TaskTransitionInvalid)
  {
    hide AuthorizeSpec;
  }

  /** The same part of `resume` on values. */
  function TaskPart(db: Db, caps: Capabilities, w: World, who: Identity, id: Id, task: Id,
      reparsed: Option<Plan>): Outcome<Db>
    requires id < |db.workflows| && id < |db.steps|
  {
    var db2 :- TaskEngine.GetSpec(db, w, who, task);
    if db2.tasks[task].status == TaskCancelled then MoveSpec(db2, id, db2.workflows[id], Cancelled)
    else ResumeTaskSpec(db2, caps, w, who, id, task, reparsed)
  }

  lemma TaskPartSpelled(db: Db, caps: Capabilities, w: World, who: Identity, id: Id, task: Id, reparsed: Option<Plan>)
    requires Inv(db, caps, w.now) && id < |db.workflows| && db.workflows[id].task == Some(task) && task < |db.tasks|
    requires db.workflows[id].state in {WaitingPermission, WaitingConfirmation} && db.workflows[id].user == who.user
    ensures id < |db.steps|
    ensures TaskPartMeans(db, caps, w, who, id, task, reparsed, TaskPart(db, caps, w, who, id, task, reparsed))
  {
    hide Walked;
    hide MoveSpec;
    hide TaskEngine.GetSpec;
    hide ResumeTaskSpec;
    hide ContinueMeans;
    hide InvAuthority;
    var f, t := db.workflows[id], db.tasks[task];
    assert FlowOk(db, id);
    assert t.status in {TaskWaitingPermission, TaskWaitingConfirmation, TaskCancelled, TaskExpired};
    TaskMeaning.GetSpelled(db, w, who, task);
    MoveWalks(db, id, f, Cancelled);
    var seen := TaskEngine.GetSpec(db, w, who, task).value;
    assert Seen(db, seen, task, w.now);
    if t.status != TaskCancelled {
      if reparsed != f.plan {
        DamagedDenies(seen, caps, w, who, id, task, reparsed);
      } else if t.status == TaskExpired || TaskMeaning.Overdue(t, w.now) {
        ExpiredRaises(seen, caps, w, who, id, task, f.plan.value);
      } else {
        ContinueSpelled(db, caps, w, who, id, task, f.plan.value);
      }
    }
  }

  lemma ResumeSpelled(db: Db, caps: Capabilities, w: World, who: Identity, id: Id, expected: nat,
      reparsed: Option<Plan>)
    requires Inv(db, caps, w.now)
    ensures |db.steps| == |db.workflows|
    ensures ResumeMeans(db, caps, w, who, id, expected, reparsed, ResumeSpec(db, caps, w, who, id, expected, reparsed))
  {
    hide Walked;
    hide MoveSpec;
    hide ExpireSpec;
    hide TaskEngine.GetSpec;
    hide ResumeTaskSpec;
    hide ContinueMeans;
    hide Seen;
    hide InvAuthority;
    hide InvTasks;
    if id < |db.workflows| && db.workflows[id].user == who.user {
      ExpireSpelled(db, id, w.now);
      var f := db.workflows[id];
      if f.state == WaitingPermission || f.state == WaitingConfirmation {
        assert FlowOk(db, id);
        hide FlowOk;
        hide InvFlows;
        TaskPartSpelled(db, caps, w, who, id, f.task.value, reparsed);
      }
    }
  }

  // ---------------------------------------------------------------- proofs: creating

  lemma LetInSpelled(p: Policy, c: IntentCategory)
    ensures PermitsIntent(p, c) <==> LetIn(p, c)
  {
  }

  lemma ContextSpelled(db: Db, caps: Capabilities, w: World, who: Identity, useMemory: bool)
    ensures var (r, packed) := ContextSpec(db, caps, w, who, useMemory);
            ContextMeans(db, caps, w, who, useMemory, r, packed) && r.workflows == db.workflows && r.steps == db.steps
  {
    hide AuthorizeSpec;
    hide TaskMeaning.Evaluated;
    TaskMeaning.EvaluatedSpelled(db, caps, w, who, MEMORY_READ);
  }

  /** One move after others. */
  lemma WalksOn(db: Db, mid: Db, id: Id, row: Workflow, states: seq<FlowState>, next: Workflow, target: FlowState)
    requires Walked(db, mid, id, row, states) && target in AllowedTargets(mid.workflows[id].state)
    requires !mid.workflows[id].failed
    ensures MoveSpec(mid, id, next, target).Ok?
    ensures Walked(db, MoveSpec(mid, id, next, target).value, id, next, states + [target])
  {
    AlongMore(db.workflows[id].state, states, target);
  }

  lemma {:induction false} AlongMore(from: FlowState, states: seq<FlowState>, target: FlowState)
    requires states != []
    ensures Along(from, states + [target]) == Along(from, states) + [Step(Some(states[|states| - 1]), target)]
    decreases |states|
  {
    var all := states + [target];
    if |states| == 1 {
      assert all == [states[0], target];
      assert Along(states[0], [target]) == [Step(Some(states[0]), target)];
      assert all[1..] == [target];
    } else {
      assert all[1..] == states[1..] + [target];
      AlongMore(states[0], states[1..], target);
    }
  }

  /** Storing a plan beside a walk. */
  lemma WalksBeside(db: Db, mid: Db, id: Id, row: Workflow, states: seq<FlowState>, plans: map<Id, StoredPlan>)
    requires Walked(db, mid, id, row, states)
    ensures Walked(db.(plans := plans), mid.(plans := plans), id, row, states)
  {
  }

  /** A workflow row between RECEIVED and its plan. */
  ghost predicate Unplanned(db: Db, id: Id) {
    && id < |db.workflows| == |db.steps|
    && !db.workflows[id].failed && db.workflows[id].task.None?
  }

  /** State, version and mark of the row a walk starts from do not matter. */
  lemma WalkedRow(db: Db, r: Db, id: Id, row: Workflow, states: seq<FlowState>, same: Workflow)
    requires Walked(db, r, id, row, states)
    requires same == row.(state := same.state, version := same.version, failed := same.failed)
    ensures Walked(db, r, id, same, states)
  {
    hide Along;
  }

  /** The move that stores the plan. */
  lemma PlanSpelled(start: Db, db: Db, id: Id, plan: Plan, payload: string)
    requires id < |start.workflows| && Walked(start, db, id, start.workflows[id], [Routed, ProposalGenerated])
    requires !db.workflows[id].failed
    ensures var db1 := db.(plans := db.plans[id := StoredPlan(plan, payload)]);
            var moved := MoveSpec(db1, id, db1.workflows[id].(plan := Some(plan)), PlanValidated);
            && moved.Ok? && id in moved.value.plans && moved.value.workflows[id].state == PlanValidated
            && Walked(start.(plans := start.plans[id := StoredPlan(plan, payload)]), moved.value, id,
                      start.workflows[id].(plan := Some(plan)), [Routed, ProposalGenerated, PlanValidated])
  {
    hide Along;
    var plans := db.plans[id := StoredPlan(plan, payload)];
    WalksBeside(start, db, id, start.workflows[id], [Routed, ProposalGenerated], plans);
    var from, db1 := start.(plans := plans), db.(plans := plans);
    var next := db1.workflows[id].(plan := Some(plan));
    var same := start.workflows[id].(plan := Some(plan));
    assert same == next.(state := same.state, version := same.version, failed := same.failed);
    assert db1.workflows[id].state == ProposalGenerated;
    hide Walked;
    WalksOn(from, db1, id, start.workflows[id], [Routed, ProposalGenerated], next, PlanValidated);
    assert [Routed, ProposalGenerated] + [PlanValidated] == [Routed, ProposalGenerated, PlanValidated];
    WalkedRow(from, MoveSpec(db1, id, next, PlanValidated).value, id, next,
              [Routed, ProposalGenerated, PlanValidated], same);
  }

  lemma LinkSpelled(start: Db, db: Db, caps: Capabilities, w: World, who: Identity, req: FlowRequest, id: Id,
      plan: Plan, payload: string)
    requires Inv(db, caps, w.now) && Unplanned(db, id) && |plan.actions| == 1
    requires id < |start.workflows| && Walked(start, db, id, start.workflows[id], [Routed, ProposalGenerated])
    requires db.workflows[id].plan.None? && db.workflows[id].user == who.user
    ensures exists planned, proposal, made ::
        LinkMeans(start, caps, w, who, req, id, plan, payload, planned, proposal, made,
                  LinkSpec(db, caps, w, who, req, id, plan, payload))
  {
    hide TaskEngine.CreateSpec;
    hide TaskMeaning.CreateMeans;
    hide ConcludeSpec;
    hide ConcludeMeans;
    hide InvAuthority;
    hide InvTasks;
    hide InvFlows;
    hide AllowedTargets;
    hide Along;
    var db1 := db.(plans := db.plans[id := StoredPlan(plan, payload)]);
    assert FlowSafety.Rank(db.workflows[id].state) < FlowSafety.Rank(ReadyForExecution);
    PlanSpelled(start, db, id, plan, payload);
    hide Walked;
    var planned := MoveSpec(db1, id, db1.workflows[id].(plan := Some(plan)), PlanValidated).value;
    FlowSafety.PlanKept(db, id, plan, payload, caps, w.now);
    var proposal := TaskProposal(id, who, req, plan.actions[0]);
    TaskMeaning.CreateSpelled(planned, caps, w, who, proposal, OrchestrationKey(id));
    var made := TaskEngine.CreateSpec(planned, caps, w, who, proposal, OrchestrationKey(id));
    hide MoveSpec;
    if made.Ok? {
      LinkEnds(planned, caps, w, who, req, id, plan, proposal);
    }
    assert LinkMeans(start, caps, w, who, req, id, plan, payload, planned, proposal, made,
                     LinkSpec(db, caps, w, who, req, id, plan, payload));
  }

  /** From the created task to the end. */
  lemma LinkEnds(db: Db, caps: Capabilities, w: World, who: Identity, req: FlowRequest, id: Id, plan: Plan,
      proposal: TaskRequest)
    requires Inv(db, caps, w.now) && id < |db.workflows| && |plan.actions| == 1
    requires db.workflows[id].state == PlanValidated
    requires TaskEngine.CreateSpec(db, caps, w, who, proposal, OrchestrationKey(id)).Ok?
    ensures var (db3, c) := TaskEngine.CreateSpec(db, caps, w, who, proposal, OrchestrationKey(id)).value;
            && id < |db3.workflows| && id < |db3.steps|
            && (if c.task.None? || c.decision.None? then
                  var row := db3.workflows[id].(decision := c.decision, confirmation := None);
                  MoveSpec(db3, id, row, Denied).Ok?
                      && Walked(db3, MoveSpec(db3, id, row, Denied).value, id, row, [Denied])
                else ConcludeMeans(db3, w, id, plan, c.task.value, c.decision.value,
                                   ConcludeSpec(db3, w, id, plan, c.task.value, c.decision.value)))
  {
    hide TaskEngine.CreateSpec;
    hide ConcludeSpec;
    hide ConcludeMeans;
    hide InvAuthority;
    hide InvTasks;
    hide Walked;
    hide MoveSpec;
    var (db3, c) := TaskEngine.CreateSpec(db, caps, w, who, proposal, OrchestrationKey(id)).value;
    TaskSafety.CreateKeeps(db, caps, w, who, proposal, OrchestrationKey(id), w.now);
    MoveWalks(db3, id, db3.workflows[id].(decision := c.decision, confirmation := None), Denied);
    if c.task.Some? && c.decision.Some? {
      FlowSafety.Open(db3, id);
      NeverReady(db3, id);
      if db3.tasks[c.task.value].status == Queued {
        QueuedAllowed(db3, caps, c.task.value, w.now);
      }
      ConcludeSpelled(db3, w, id, plan, c.task.value, c.decision.value);
    }
  }

  /** A workflow that was prepared for the router's answer. */
  ghost predicate Prepared(db: Db, caps: Capabilities, w: World, who: Identity, id: Id) {
    && Inv(db, caps, w.now) && Unplanned(db, id) && db.workflows[id].state == ContextPrepared
    && db.workflows[id].plan.None? && db.workflows[id].user == who.user
  }

  /** The two plain moves after the answer. */
  lemma ProposalMoves(db: Db, caps: Capabilities, w: World, who: Identity, id: Id)
    requires Prepared(db, caps, w, who, id)
    ensures var routed := MoveSpec(db, id, db.workflows[id], Routed);
            && routed.Ok? && id < |routed.value.workflows| == |routed.value.steps|
            && var proposed := MoveSpec(routed.value, id, routed.value.workflows[id], ProposalGenerated);
               && proposed.Ok? && Inv(proposed.value, caps, w.now)
               && Unplanned(proposed.value, id)
               && proposed.value.workflows[id].plan.None? && proposed.value.workflows[id].user == who.user
               && proposed.value.workflows[id].state == ProposalGenerated
               && Walked(db, proposed.value, id, db.workflows[id], [Routed, ProposalGenerated])
  {
    hide Along;
    hide InvAuthority;
    hide InvTasks;
    hide InvFlows;
    var f := db.workflows[id];
    MoveWalks(db, id, f, Routed);
    var routed := MoveSpec(db, id, f, Routed).value;
    FlowSafety.PlainMoveKept(db, id, Routed, caps, w.now);
    var next := routed.workflows[id];
    hide Walked;
    WalksOn(db, routed, id, f, [Routed], next, ProposalGenerated);
    FlowSafety.PlainMoveKept(routed, id, ProposalGenerated, caps, w.now);
    assert [Routed] + [ProposalGenerated] == [Routed, ProposalGenerated];
    WalkedRow(db, MoveSpec(routed, id, next, ProposalGenerated).value, id, next, [Routed, ProposalGenerated], f);
  }

  /** One more plain move ends a workflow that got a proposal. */
  lemma ProposalEnds(start: Db, db: Db, id: Id, target: FlowState)
    requires id < |start.workflows| && Walked(start, db, id, start.workflows[id], [Routed, ProposalGenerated])
    requires Unplanned(db, id) && db.workflows[id].state == ProposalGenerated
    requires target in {CompletedNoAction, Failed, Denied}
    ensures var r := MoveSpec(db, id, db.workflows[id], target);
            r.Ok? && Walked(start, r.value, id, start.workflows[id], [Routed, ProposalGenerated, target])
  {
    hide Along;
    var next, f := db.workflows[id], start.workflows[id];
    assert f == next.(state := f.state, version := f.version, failed := f.failed);
    WalksOn(start, db, id, f, [Routed, ProposalGenerated], next, target);
    assert [Routed, ProposalGenerated] + [target] == [Routed, ProposalGenerated, target];
    WalkedRow(start, MoveSpec(db, id, next, target).value, id, next, [Routed, ProposalGenerated, target], f);
  }

  /** What the router's answer makes of a workflow. */
  function Answer(db: Db, caps: Capabilities, w: World, who: Identity, req: FlowRequest, ai: AiOutcome,
      id: Id): Outcome<Db>
    requires id < |db.workflows| && id < |db.steps|
  {
    match ai
    case RoutingDenied => MoveSpec(db, id, db.workflows[id], Denied)
    case ProviderFailed => MoveSpec(db, id, db.workflows[id], Failed)
    case Answered(plan, payload) => ProposeSpec(db, caps, w, who, req, plan, payload, id)
  }

  lemma AnswerSpelled(db: Db, caps: Capabilities, w: World, who: Identity, req: FlowRequest, ai: AiOutcome, id: Id)
    requires Prepared(db, caps, w, who, id)
    ensures AnswerMeans(db, caps, w, who, req, ai, id, Answer(db, caps, w, who, req, ai, id))
  {
    hide Walked;
    hide Inv;
    hide ProposeSpec;
    hide LinkMeans;
    if ai.Answered? {
      ProposalMoves(db, caps, w, who, id);
      var routed := MoveSpec(db, id, db.workflows[id], Routed).value;
      var proposed := MoveSpec(routed, id, routed.workflows[id], ProposalGenerated).value;
      ProposeSpelled(db, proposed, caps, w, who, req, ai.plan, ai.payload, id);
    } else {
      MoveWalks(db, id, db.workflows[id], Denied);
      MoveWalks(db, id, db.workflows[id], Failed);
    }
  }

  /** From the proposal on. */
  lemma ProposeSpelled(db: Db, proposed: Db, caps: Capabilities, w: World, who: Identity, req: FlowRequest,
      plan: Option<Plan>, payload: string, id: Id)
    requires id < |db.workflows| && id < |db.steps|
    requires var routed := MoveSpec(db, id, db.workflows[id], Routed);
             && routed.Ok? && id < |routed.value.workflows| == |routed.value.steps|
             && MoveSpec(routed.value, id, routed.value.workflows[id], ProposalGenerated) == Ok(proposed)
    requires Inv(proposed, caps, w.now) && Unplanned(proposed, id) && proposed.workflows[id].plan.None?
    requires proposed.workflows[id].user == who.user && proposed.workflows[id].state == ProposalGenerated
    requires Walked(db, proposed, id, db.workflows[id], [Routed, ProposalGenerated])
    ensures AnswerMeans(db, caps, w, who, req, Answered(plan, payload), id,
                        ProposeSpec(db, caps, w, who, req, plan, payload, id))
  {
    hide Walked;
    hide Inv;
    hide LinkSpec;
    hide LinkMeans;
    hide InVocabulary;
    hide AllowsOperations;
    hide MoveSpec;
    if !IsAction(req.category) {
      ProposalEnds(db, proposed, id, CompletedNoAction);
    } else if plan.None? || |plan.value.actions| != 1 {
      ProposalEnds(db, proposed, id, Failed);
    } else {
      var a := plan.value.actions[0];
      if a.capability in caps {
        VocabularySpelled(caps[a.capability], [a.action]);
      }
      if CapabilityAllows(caps, a.capability, a.action) {
        LinkSpelled(db, proposed, caps, w, who, req, id, plan.value, payload);
      } else {
        ProposalEnds(db, proposed, id, Denied);
      }
    }
  }

  lemma ProcessSpelled(db: Db, caps: Capabilities, w: World, who: Identity, req: FlowRequest, ai: AiOutcome, id: Id)
    requires Inv(db, caps, w.now) && Unplanned(db, id) && db.workflows[id].state == Received
    requires db.workflows[id].plan.None? && db.workflows[id].user == who.user
    ensures ProcessMeans(db, caps, w, who, req, ai, id, ProcessSpec(db, caps, w, who, req, ai, id))
  {
    hide Walked;
    hide InvAuthority;
    hide InvTasks;
    hide InvFlows;
    hide ContextSpec;
    hide ContextMeans;
    hide ProposeSpec;
    hide AnswerMeans;
    hide PermitsIntent;
    hide LetIn;
    LetInSpelled(w.policy, req.category);
    MoveWalks(db, id, db.workflows[id], Denied);
    ContextSpelled(db, caps, w, who, req.useMemory);
    FlowSafety.ContextKept(db, caps, w, who, req.useMemory);
    var (context, packed) := ContextSpec(db, caps, w, who, req.useMemory);
    var f := db.workflows[id];
    MoveWalks(context, id, f, Denied);
    MoveWalks(context, id, f, ContextPrepared);
    FlowSafety.PlainMoveKept(context, id, ContextPrepared, caps, w.now);
    var prepared := MoveSpec(context, id, f, ContextPrepared).value;
    AnswerSpelled(prepared, caps, w, who, req, ai, id);
  }

  lemma CreateSpelled(db: Db, caps: Capabilities, w: World, who: Identity, req: FlowRequest, ai: AiOutcome)
    requires Inv(db, caps, w.now)
    ensures |db.steps| == |db.workflows|
    ensures CreateMeans(db, caps, w, who, req, ai, CreateSpec(db, caps, w, who, req, ai))
  {
    hide ProcessSpec;
    hide ProcessMeans;
    hide InvAuthority;
    hide InvTasks;
    var existing := FindFlow(db.workflows, who.user, req.key);
    if existing.None? && !Due(req.expiresAt, w.now) {
      var begun := ReceiveSpec(db, who, req);
      FlowSafety.ReceiveKept(db, who, req, caps, w.now);
      hide FindFlow;
      hide InvFlows;
      assert Begins(db, begun, who, req);
      ProcessSpelled(begun, caps, w, who, req, ai, |db.workflows|);
    }
  }

  // ---------------------------------------------------------------- theorems

  /** Reading and cancelling a workflow in every reachable state. */
  lemma CancelTheorem(caps: Capabilities, calls: seq<Call>, w: World, who: Identity, id: Id, expected: nat)
    requires Chronological(calls)
    ensures var db := Run(caps, calls);
            && |db.steps| == |db.workflows|
            && GetMeans(db, w.now, who, id, GetSpec(db, w, who, id))
            && CancelMeans(db, w.now, who, id, expected, CancelSpec(db, w, who, id, expected))
  {
    hide *;
    FlowsOk(caps, calls);
    TaskMeaning.TasksOk(caps, calls);
    GetSpelled(Run(caps, calls), w, who, id);
    CancelSpelled(Run(caps, calls), w, who, id, expected);
  }

  lemma FlowsOk(caps: Capabilities, calls: seq<Call>)
    requires Chronological(calls)
    ensures InvFlows(Run(caps, calls)) && |Run(caps, calls).steps| == |Run(caps, calls).workflows|
  {
    hide Run;
  }

  /** Creating a workflow in every reachable state: where it ends, along which steps, and with which task,
      decision, confirmation, plan and envelope. */
  lemma CreateTheorem(caps: Capabilities, calls: seq<Call>, w: World, who: Identity, req: FlowRequest, ai: AiOutcome)
    requires Chronological(calls) && (calls == [] || Clock(calls) <= w.now)
    ensures var db := Run(caps, calls);
            && |db.steps| == |db.workflows|
            && CreateMeans(db, caps, w, who, req, ai, CreateSpec(db, caps, w, who, req, ai))
  {
    hide *;
    InvAt(caps, calls, w.now);
    CreateSpelled(Run(caps, calls), caps, w, who, req, ai);
  }

  /** Resuming a workflow in every reachable state. */
  lemma ResumeTheorem(caps: Capabilities, calls: seq<Call>, w: World, who: Identity, id: Id, expected: nat,
      reparsed: Option<Plan>)
    requires Chronological(calls) && (calls == [] || Clock(calls) <= w.now)
    ensures var db := Run(caps, calls);
            && |db.steps| == |db.workflows|
            && ResumeMeans(db, caps, w, who, id, expected, reparsed,
                           ResumeSpec(db, caps, w, who, id, expected, reparsed))
  {
    hide *;
    InvAt(caps, calls, w.now);
    ResumeSpelled(Run(caps, calls), caps, w, who, id, expected, reparsed);
  }
}