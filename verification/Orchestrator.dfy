/** The orchestrator (backend/app/orchestrator/service.py, state_machine.py, policy.py). */
module Orchestrator {
  import opened Common
  import opened Scopes
  import opened AuthorityStore
  import opened PermissionsEngine
  import TaskEngine

  // ---------------------------------------------------------------- state machine

  predicate Terminal(s: FlowState) {
    s == CompletedNoAction || s == Denied || s == Failed || s == Cancelled || s == FlowExpired
  }

  /** The transition table; terminal states have no entry. */
  function AllowedTargets(s: FlowState): set<FlowState> {
    match s
    case Received => {ContextPrepared, Denied, Failed, Cancelled, FlowExpired}
    case ContextPrepared => {Routed, Denied, Failed, Cancelled, FlowExpired}
    case Routed => {ProposalGenerated, Denied, Failed, Cancelled, FlowExpired}
    case ProposalGenerated => {PlanValidated, CompletedNoAction, Denied, Failed, Cancelled, FlowExpired}
    case PlanValidated => {WaitingPermission, WaitingConfirmation, ReadyForExecution, Denied, Failed, Cancelled,
        FlowExpired}
    case WaitingPermission => {WaitingConfirmation, ReadyForExecution, Denied, Cancelled, FlowExpired}
    case WaitingConfirmation => {ReadyForExecution, Denied, Cancelled, FlowExpired}
    case ReadyForExecution => {Cancelled, FlowExpired}
    case _ => {}
  }

  /** `_state_for_task` */
  function StateForTask(s: TaskStatus): Option<FlowState> {
    match s
    case Queued => Some(ReadyForExecution)
    case TaskWaitingPermission => Some(WaitingPermission)
    case TaskWaitingConfirmation => Some(WaitingConfirmation)
    case _ => None
  }

  // ---------------------------------------------------------------- policy

  predicate IsAction(c: IntentCategory) {
    c == ActionIntent || c == Destructive
  }

  predicate PermitsIntent(p: Policy, c: IntentCategory) {
    && p.safeMode != Maintenance
    && c != Unsupported
    && p.aiEnabled
    && (IsAction(c) ==> p.safeMode == Normal && p.actionsEnabled)
  }

  predicate PermitsExecutionReadiness(p: Policy) {
    p.safeMode == Normal && p.actionsEnabled
  }

  // ---------------------------------------------------------------- operations on values

  /** `_transition` on values. `row` is the workflow with the new column values in place. */
  function MoveSpec(db: Db, id: Id, row: Workflow, target: FlowState): Outcome<Db>
    requires id < |db.workflows| && id < |db.steps|
  {
    var current := db.workflows[id];
    if target !in AllowedTargets(current.state) then Raised(FlowTransitionInvalid)
    else
      Ok(db.(
        workflows := db.workflows[id := row.(
          state := target,
          failed := if target == Denied || target == Failed then true else current.failed,
          version := current.version + 1)],
        steps := db.steps[id := db.steps[id] + [Step(Some(current.state), target)]]))
  }

  /** `_expire_if_due` on values. */
  function ExpireSpec(db: Db, id: Id, now: Time): (Db, bool)
    requires id < |db.workflows| && id < |db.steps|
  {
    var f := db.workflows[id];
    if !Due(f.expiresAt, now) || Terminal(f.state) then (db, f.state == FlowExpired)
    else (MoveSpec(db, id, f, FlowExpired).value, true)
  }

  function FindFlow(flows: seq<Workflow>, user: Id, key: string): (r: Option<Id>)
    ensures r.Some? ==> r.value < |flows| && flows[r.value].user == user && flows[r.value].key == key
    ensures r.None? ==> forall i | 0 <= i < |flows| :: !(flows[i].user == user && flows[i].key == key)
  {
    if flows == [] then None
    else
      var last := |flows| - 1;
      if flows[last].user == user && flows[last].key == key then Some(last) else FindFlow(flows[..last], user, key)
  }

  function FindEnvelope(envelopes: seq<Envelope>, workflow: Id): (r: Option<Id>)
    ensures r.Some? ==> r.value < |envelopes| && envelopes[r.value].workflow == workflow
    ensures r.None? ==> forall i | 0 <= i < |envelopes| :: envelopes[i].workflow != workflow
  {
    if envelopes == [] then None
    else
      var last := |envelopes| - 1;
      if envelopes[last].workflow == workflow then Some(last) else FindEnvelope(envelopes[..last], workflow)
  }

  function EnvelopeFor(flow: Workflow, id: Id, plan: Plan, task: Task, taskId: Id, d: Decision, decision: Id): Envelope
    requires |plan.actions| > 0 && d.permission.Some?
  {
    var a := plan.actions[0];
    Envelope(id, flow.user, task.request.device, taskId, a.capability, a.action, a.arguments, a.scope, plan,
             d.permission.value, decision, task.confirmation, d.risk, flow.expiresAt)
  }

  /** `_create_envelope` on values. `decision` is the evidence the caller loaded. */
  function EnvelopeSpec(db: Db, w: World, id: Id, plan: Plan, task: Id, decision: Id): Outcome<Db>
    requires id < |db.workflows| && task < |db.tasks| && decision < |db.decisions|
    requires |plan.actions| > 0
  {
    var d := db.decisions[decision];
    if d.kind != Allow || d.permission.None? || d.financialGuard || w.policy.safeMode != Normal
    then Raised(FlowTransitionInvalid)
    else
      var existing := FindEnvelope(db.envelopes, id);
      if existing.Some? then
        if db.envelopes[existing.value].plan != plan then Raised(FlowConflict) else Ok(db)
      else
        var envelope := EnvelopeFor(db.workflows[id], id, plan, db.tasks[task], task, d, decision);
        Ok(db.(envelopes := db.envelopes + [envelope]))
  }

  datatype FlowRequest = FlowRequest(category: IntentCategory, key: string, fingerprint: string, useMemory: bool,
      expiresAt: Option<Time>)

  /** What the AI router hands back: a denial, a failure, or output that did or did not parse
      as a candidate plan. The stored payload text is kept beside the parsed plan. */
  datatype AiOutcome = RoutingDenied | ProviderFailed | Answered(plan: Option<Plan>, payload: string)

  function NewFlow(who: Identity, req: FlowRequest): Workflow {
    Workflow(who.user, who.device, req.category, Received, req.key, req.fingerprint, None, None, None, None, false,
        req.expiresAt, 1)
  }

  /** The read authority that building the memory context pack asks for. */
  const MEMORY_READ := AuthorizationRequest("memory.read", "read", Scope("memory", [], ["read"]), None)

  function TaskProposal(id: Id, who: Identity, req: FlowRequest, a: CandidateAction): TaskRequest {
    TaskRequest(a.capability, a.action, a.scope, who.device, req.category == Destructive, req.expiresAt, None,
        FlowMetadata(id))
  }

  /** `create`, up to the recorded RECEIVED step. */
  function ReceiveSpec(db: Db, who: Identity, req: FlowRequest): Db {
    db.(workflows := db.workflows + [NewFlow(who, req)], steps := db.steps + [[Step(None, Received)]])
  }

  /** `create`, the memory context: the store, and whether the pack was authorised. */
  function ContextSpec(db: Db, caps: Capabilities, w: World, who: Identity, useMemory: bool): (r: (Db, bool))
    ensures r.0 == db.(permissions := r.0.permissions, confirmations := r.0.confirmations, decisions := r.0.decisions)
  {
    if !useMemory then (db, true)
    else
      var db1 := AuthorizeSpec(db, caps, w, who, MEMORY_READ);
      (db1, db1.decisions[|db.decisions|].kind == Allow)
  }

  /** `create`, from the validated plan to the linked task. */
  function LinkSpec(db: Db, caps: Capabilities, w: World, who: Identity, req: FlowRequest, id: Id, plan: Plan,
      payload: string): Outcome<Db>
    requires id < |db.workflows| && id < |db.steps| && |plan.actions| == 1
  {
    var db1 := db.(plans := db.plans[id := StoredPlan(plan, payload)]);
    var db2 :- MoveSpec(db1, id, db1.workflows[id].(plan := Some(plan)), PlanValidated);
    var (db3, c) :- TaskEngine.CreateSpec(db2, caps, w, who, TaskProposal(id, who, req, plan.actions[0]),
        TaskEngine.FlowKey(id));
    if c.task.None? || c.decision.None? then
      MoveSpec(db3, id, db3.workflows[id].(decision := c.decision, confirmation := None), Denied)
    else
      ConcludeSpec(db3, w, id, plan, c.task.value, c.decision.value)
  }

  /** The common ending of `create` and `resume`: enter the state the linked task implies, with
      an envelope when that state is READY_FOR_EXECUTION. */
  function ConcludeSpec(db: Db, w: World, id: Id, plan: Plan, task: Id, decision: Id): Outcome<Db>
    requires id < |db.workflows| && id < |db.steps| && task < |db.tasks| && decision < |db.decisions|
    requires |plan.actions| > 0
  {
    var t := db.tasks[task];
    var target := StateForTask(t.status);
    var linked := db.workflows[id].(task := Some(task), decision := Some(decision), confirmation := t.confirmation);
    if target.None? then Raised(FlowTransitionInvalid)
    else if target.value == ReadyForExecution then
      if !PermitsExecutionReadiness(w.policy) then MoveSpec(db, id, db.workflows[id], Denied)
      else
        var db1 :- EnvelopeSpec(db, w, id, plan, task, decision);
        MoveSpec(db1, id, linked, ReadyForExecution)
    else
      MoveSpec(db, id, linked, target.value)
  }

  /** `create` on values. */
  function CreateSpec(db: Db, caps: Capabilities, w: World, who: Identity, req: FlowRequest,
      ai: AiOutcome): Outcome<(Db, Id)>
    requires |db.steps| == |db.workflows|
  {
    var existing := FindFlow(db.workflows, who.user, req.key);
    if existing.Some? then
      if db.workflows[existing.value].fingerprint != req.fingerprint then Raised(FlowKeyConflict)
      else Ok((db, existing.value))
    else if Due(req.expiresAt, w.now) then Raised(FlowDataInvalid)
    else
      var id := |db.workflows|;
      var db2 :- ProcessSpec(ReceiveSpec(db, who, req), caps, w, who, req, ai, id);
      Ok((db2, id))
  }

  /** `create`, everything after the workflow row was inserted. */
  function ProcessSpec(db: Db, caps: Capabilities, w: World, who: Identity, req: FlowRequest, ai: AiOutcome,
      id: Id): Outcome<Db>
    requires id < |db.workflows| && id < |db.steps|
  {
    if !PermitsIntent(w.policy, req.category) then MoveSpec(db, id, db.workflows[id], Denied)
    else
      var (db1, packed) := ContextSpec(db, caps, w, who, req.useMemory);
      if !packed then MoveSpec(db1, id, db1.workflows[id], Denied)
      else
        var db2 :- MoveSpec(db1, id, db1.workflows[id], ContextPrepared);
        match ai
        case RoutingDenied => MoveSpec(db2, id, db2.workflows[id], Denied)
        case ProviderFailed => MoveSpec(db2, id, db2.workflows[id], Failed)
        case Answered(plan, payload) => ProposeSpec(db2, caps, w, who, req, plan, payload, id)
  }

  /** `create`, from the routed answer on. */
  function ProposeSpec(db: Db, caps: Capabilities, w: World, who: Identity, req: FlowRequest, plan: Option<Plan>,
      payload: string, id: Id): Outcome<Db>
    requires id < |db.workflows| && id < |db.steps|
  {
    var db1 :- MoveSpec(db, id, db.workflows[id], Routed);
    var db2 :- MoveSpec(db1, id, db1.workflows[id], ProposalGenerated);
    if !IsAction(req.category) then MoveSpec(db2, id, db2.workflows[id], CompletedNoAction)
    else if plan.None? || |plan.value.actions| != 1 then MoveSpec(db2, id, db2.workflows[id], Failed)
    else if !CapabilityAllows(caps, plan.value.actions[0].capability, plan.value.actions[0].action)
    then MoveSpec(db2, id, db2.workflows[id], Denied)
    else LinkSpec(db2, caps, w, who, req, id, plan.value, payload)
  }

  /** `get_owned` on values. */
  function GetSpec(db: Db, w: World, who: Identity, id: Id): Outcome<Db>
    requires |db.steps| == |db.workflows|
  {
    if id >= |db.workflows| || db.workflows[id].user != who.user then Raised(FlowMissing)
    else
      var (db1, expired) := ExpireSpec(db, id, w.now);
      Ok(db1)
  }

  /** Cancelling the linked task, as `cancel` does before it moves the workflow. */
  function CancelTaskSpec(db: Db, w: World, who: Identity, task: Id): (r: Outcome<Db>)
    ensures r.Ok? ==> task < |r.value.tasks| && r.value.tasks[task].status == TaskCancelled
    ensures r.Ok? ==> r.value.workflows == db.workflows && r.value.steps == db.steps
  {
    var db1 :- TaskEngine.GetSpec(db, w, who, task);
    if db1.tasks[task].status == TaskCancelled then Ok(db1)
    else
      var db2 :- TaskEngine.CancelSpec(db1, w, who, task, db1.tasks[task].version);
      if db2.tasks[task].status != TaskCancelled then Raised(FlowConflict) else Ok(db2)
  }

  /** `cancel` on values. */
  function CancelSpec(db: Db, w: World, who: Identity, id: Id, expected: nat): Outcome<Db>
    requires |db.steps| == |db.workflows|
  {
    if id >= |db.workflows| || db.workflows[id].user != who.user then Raised(FlowMissing)
    else
      var (db1, expired) := ExpireSpec(db, id, w.now);
      var f := db1.workflows[id];
      if expired || f.state == Cancelled then Ok(db1)
      else if Terminal(f.state) then Raised(FlowTransitionInvalid)
      else if f.version != expected then Raised(FlowConflict)
      else
        var db2 :- if f.task.Some? then CancelTaskSpec(db1, w, who, f.task.value) else Ok(db1);
        MoveSpec(db2, id, db2.workflows[id], Cancelled)
  }

  /** `_load_validated_plan`: `reparsed` is the stored payload validated again. */
  function LoadPlanSpec(db: Db, id: Id, reparsed: Option<Plan>): (r: Option<Plan>)
    requires id < |db.workflows|
    ensures r.Some? ==> id in db.plans && Some(db.plans[id].fingerprint) == db.workflows[id].plan == r
  {
    if id !in db.plans || Some(db.plans[id].fingerprint) != db.workflows[id].plan then None
    else if reparsed == Some(db.plans[id].fingerprint) then reparsed
    else None
  }

  /** `resume` on values. */
  function ResumeSpec(db: Db, caps: Capabilities, w: World, who: Identity, id: Id, expected: nat,
      reparsed: Option<Plan>): Outcome<Db>
    requires |db.steps| == |db.workflows|
  {
    if id >= |db.workflows| || db.workflows[id].user != who.user then Raised(FlowMissing)
    else
      var (db1, expired) := ExpireSpec(db, id, w.now);
      var f := db1.workflows[id];
      if expired then Ok(db1)
      else if f.version != expected then Raised(FlowConflict)
      else if (f.state != WaitingPermission && f.state != WaitingConfirmation) || f.task.None?
      then Raised(FlowTransitionInvalid)
      else
        var task := f.task.value;
        var db2 :- TaskEngine.GetSpec(db1, w, who, task);
        if db2.tasks[task].status == TaskCancelled then MoveSpec(db2, id, db2.workflows[id], Cancelled)
        else ResumeTaskSpec(db2, caps, w, who, id, task, reparsed)
  }

  /** `resume`, from the plan integrity check on. */
  function ResumeTaskSpec(db: Db, caps: Capabilities, w: World, who: Identity, id: Id, task: Id,
      reparsed: Option<Plan>): Outcome<Db>
    requires id < |db.workflows| && id < |db.steps| && task < |db.tasks|
  {
    var plan := LoadPlanSpec(db, id, reparsed);
    if plan.None? then MoveSpec(db, id, db.workflows[id], Denied)
    else if |plan.value.actions| == 0 then Raised(FlowTransitionInvalid)
    else
      var db1 :- TaskEngine.ReevaluateSpec(db, caps, w, who, task, db.tasks[task].version);
      SettleSpec(db1, w, who, id, plan.value, task)
  }

  /** `resume`, after the task was re-evaluated. */
  function SettleSpec(db: Db, w: World, who: Identity, id: Id, plan: Plan, task: Id): Outcome<Db>
    requires |plan.actions| > 0
    requires task < |db.tasks| && id < |db.workflows| && id < |db.steps|
  {
    var t := db.tasks[task];
    if !OwnsDecision(db, who.user, t.decision) then MoveSpec(db, id, db.workflows[id], Failed)
    else if t.status == TaskFailed then
      MoveSpec(db, id, db.workflows[id].(decision := Some(t.decision), confirmation := None), Denied)
    else ConcludeSpec(db, w, id, plan, task, t.decision)
  }

  // ---------------------------------------------------------------- the service

  /** `_transition`: table check, then the versioned UPDATE and the recorded step. */
  method Move(s: Session, id: Id, row: Workflow, target: FlowState) returns (r: Outcome<()>)
    requires id < |s.db.workflows| && id < |s.db.steps|
    modifies s
    ensures Commits(old(s.db), s.db, r, MoveSpec(old(s.db), id, row, target))
  {
    var previous := s.db.workflows[id];
    if target !in AllowedTargets(previous.state) {
      return Raised(FlowTransitionInvalid);
    }
    var failed := previous.failed;
    if target == Denied || target == Failed {
      failed := true;
    }
    var moved := row.(state := target, failed := failed, version := previous.version + 1);
    s.db := s.db.(workflows := s.db.workflows[id := moved]);
    s.db := s.db.(steps := s.db.steps[id := s.db.steps[id] + [Step(Some(previous.state), target)]]);
    return Ok(());
  }

  /** `_expire_if_due` */
  method ExpireIfDue(s: Session, id: Id, now: Time) returns (expired: bool)
    requires id < |s.db.workflows| && id < |s.db.steps|
    modifies s
    ensures (s.db, expired) == ExpireSpec(old(s.db), id, now)
  {
    var f := s.db.workflows[id];
    if f.expiresAt.None? || Terminal(f.state) || now < f.expiresAt.value {
      return f.state == FlowExpired;
    }
    var moved := Move(s, id, f, FlowExpired);
    return true;
  }

  /** `_create_envelope` */
  method CreateEnvelope(s: Session, w: World, id: Id, plan: Plan, task: Id, decision: Id) returns (r: Outcome<()>)
    requires id < |s.db.workflows| && task < |s.db.tasks| && decision < |s.db.decisions|
    requires |plan.actions| > 0
    modifies s
    ensures Commits(old(s.db), s.db, r, EnvelopeSpec(old(s.db), w, id, plan, task, decision))
  {
    var d := s.db.decisions[decision];
    if d.kind != Allow || d.permission.None? || d.financialGuard || w.policy.safeMode != Normal {
      return Raised(FlowTransitionInvalid);
    }
    var existing := FindEnvelope(s.db.envelopes, id);
    if existing.Some? {
      if s.db.envelopes[existing.value].plan != plan {
        return Raised(FlowConflict);
      }
      return Ok(());
    }
    var envelope := EnvelopeFor(s.db.workflows[id], id, plan, s.db.tasks[task], task, d, decision);
    s.db := s.db.(envelopes := s.db.envelopes + [envelope]);
    return Ok(());
  }

  /** The ending shared by `create` and `resume`. */
  method Conclude(s: Session, w: World, id: Id, plan: Plan, task: Id, decision: Id) returns (r: Outcome<()>)
    requires id < |s.db.workflows| && id < |s.db.steps| && task < |s.db.tasks| && decision < |s.db.decisions|
    requires |plan.actions| > 0
    modifies s
    ensures Commits(old(s.db), s.db, r, ConcludeSpec(old(s.db), w, id, plan, task, decision))
  {
    var saved := s.db;
    var t := s.db.tasks[task];
    var target := StateForTask(t.status);
    if target.None? {
      return Raised(FlowTransitionInvalid);
    }
    if target.value == ReadyForExecution {
      if !PermitsExecutionReadiness(w.policy) {
        r := Move(s, id, s.db.workflows[id], Denied);
        return;
      }
      r := CreateEnvelope(s, w, id, plan, task, decision);
      if r.Raised? {
        return;
      }
    }
    var linked := s.db.workflows[id].(task := Some(task), decision := Some(decision), confirmation := t.confirmation);
    r := Move(s, id, linked, target.value);
    if r.Raised? {
      s.db := saved;
    }
  }

  /** `create`, from the validated plan on. */
  method Link(s: Session, caps: Capabilities, w: World, who: Identity, req: FlowRequest, id: Id, plan: Plan,
      payload: string)
    returns (r: Outcome<()>)
    requires id < |s.db.workflows| && id < |s.db.steps| && |plan.actions| == 1
    modifies s
    ensures Commits(old(s.db), s.db, r, LinkSpec(old(s.db), caps, w, who, req, id, plan, payload))
  {
    var saved := s.db;
    s.db := s.db.(plans := s.db.plans[id := StoredPlan(plan, payload)]);
    r := Move(s, id, s.db.workflows[id].(plan := Some(plan)), PlanValidated);
    if r.Raised? {
      s.db := saved;
      return;
    }
    var created := TaskEngine.Create(s, caps, w, who, TaskProposal(id, who, req, plan.actions[0]),
        TaskEngine.FlowKey(id));
    if created.Raised? {
      s.db := saved;
      return Raised(created.error);
    }
    var c := created.value;
    if c.task.None? || c.decision.None? {
      r := Move(s, id, s.db.workflows[id].(decision := c.decision, confirmation := None), Denied);
    } else {
      r := Conclude(s, w, id, plan, c.task.value, c.decision.value);
    }
    if r.Raised? {
      s.db := saved;
    }
  }

  /** `create`, everything after the workflow row was inserted. */
  method Process(s: Session, caps: Capabilities, w: World, who: Identity, req: FlowRequest, ai: AiOutcome, id: Id)
    returns (r: Outcome<()>)
    requires id < |s.db.workflows| && id < |s.db.steps|
    modifies s
    ensures Commits(old(s.db), s.db, r, ProcessSpec(old(s.db), caps, w, who, req, ai, id))
  {
    hide AuthorizeSpec;
    hide ProposeSpec;
    hide PermitsIntent;
    hide AllowedTargets;
    var saved := s.db;
    if !PermitsIntent(w.policy, req.category) {
      r := Move(s, id, s.db.workflows[id], Denied);
      return;
    }
    var packed := true;
    if req.useMemory {
      var d := Authorize(s, caps, w, who, MEMORY_READ);
      packed := s.db.decisions[d].kind == Allow;
    }
    if !packed {
      r := Move(s, id, s.db.workflows[id], Denied);
      if r.Raised? {
        s.db := saved;
      }
      return;
    }
    r := Move(s, id, s.db.workflows[id], ContextPrepared);
    if r.Raised? {
      s.db := saved;
      return;
    }
    if ai.RoutingDenied? {
      r := Move(s, id, s.db.workflows[id], Denied);
    } else if ai.ProviderFailed? {
      r := Move(s, id, s.db.workflows[id], Failed);
    } else {
      r := Propose(s, caps, w, who, req, ai.plan, ai.payload, id);
    }
    if r.Raised? {
      s.db := saved;
    }
  }

  /** `create`, from the routed answer on. */
  method Propose(s: Session, caps: Capabilities, w: World, who: Identity, req: FlowRequest, plan: Option<Plan>,
      payload: string, id: Id)
    returns (r: Outcome<()>)
    requires id < |s.db.workflows| && id < |s.db.steps|
    modifies s
    ensures Commits(old(s.db), s.db, r, ProposeSpec(old(s.db), caps, w, who, req, plan, payload, id))
  {
    var saved := s.db;
    r := Move(s, id, s.db.workflows[id], Routed);
    if r.Ok? {
      r := Move(s, id, s.db.workflows[id], ProposalGenerated);
    }
    if r.Raised? {
      s.db := saved;
      return;
    }
    if !IsAction(req.category) {
      r := Move(s, id, s.db.workflows[id], CompletedNoAction);
    } else if plan.None? || |plan.value.actions| != 1 {
      r := Move(s, id, s.db.workflows[id], Failed);
    } else if !CapabilityAllows(caps, plan.value.actions[0].capability, plan.value.actions[0].action) {
      r := Move(s, id, s.db.workflows[id], Denied);
    } else {
      r := Link(s, caps, w, who, req, id, plan.value, payload);
    }
    if r.Raised? {
      s.db := saved;
    }
  }

  /** `OrchestratorService.create` */
  method Create(s: Session, caps: Capabilities, w: World, who: Identity, req: FlowRequest, ai: AiOutcome)
      returns (r: Outcome<Id>)
    requires |s.db.steps| == |s.db.workflows|
    modifies s
    ensures match CreateSpec(old(s.db), caps, w, who, req, ai)
            case Ok((db, id)) => r == Ok(id) && s.db == db
            case Raised(e) => r == Raised(e) && s.db == old(s.db)
  {
    var existing := FindFlow(s.db.workflows, who.user, req.key);
    if existing.Some? {
      if s.db.workflows[existing.value].fingerprint != req.fingerprint {
        return Raised(FlowKeyConflict);
      }
      return Ok(existing.value);
    }
    if Due(req.expiresAt, w.now) {
      return Raised(FlowDataInvalid);
    }
    var saved := s.db;
    var id := |s.db.workflows|;
    s.db := s.db.(workflows := s.db.workflows + [NewFlow(who, req)], steps := s.db.steps + [[Step(None, Received)]]);
    var processed := Process(s, caps, w, who, req, ai, id);
    if processed.Raised? {
      s.db := saved;
      return Raised(processed.error);
    }
    return Ok(id);
  }

  method GetOwned(s: Session, w: World, who: Identity, id: Id) returns (r: Outcome<()>)
    requires |s.db.steps| == |s.db.workflows|
    modifies s
    ensures Commits(old(s.db), s.db, r, GetSpec(old(s.db), w, who, id))
  {
    if id >= |s.db.workflows| || s.db.workflows[id].user != who.user {
      return Raised(FlowMissing);
    }
    var expired := ExpireIfDue(s, id, w.now);
    return Ok(());
  }

  /** `OrchestratorService.cancel` */
  method Cancel(s: Session, w: World, who: Identity, id: Id, expected: nat) returns (r: Outcome<()>)
    requires |s.db.steps| == |s.db.workflows|
    modifies s
    ensures Commits(old(s.db), s.db, r, CancelSpec(old(s.db), w, who, id, expected))
  {
    if id >= |s.db.workflows| || s.db.workflows[id].user != who.user {
      return Raised(FlowMissing);
    }
    var saved := s.db;
    var expired := ExpireIfDue(s, id, w.now);
    var f := s.db.workflows[id];
    if expired || f.state == Cancelled {
      return Ok(());
    }
    if Terminal(f.state) {
      s.db := saved;
      return Raised(FlowTransitionInvalid);
    }
    if f.version != expected {
      s.db := saved;
      return Raised(FlowConflict);
    }
    if f.task.Some? {
      r := CancelTask(s, w, who, f.task.value);
      if r.Raised? {
        s.db := saved;
        return;
      }
    }
    r := Move(s, id, s.db.workflows[id], Cancelled);
    if r.Raised? {
      s.db := saved;
    }
  }

  /** `cancel`, the linked task. */
  method CancelTask(s: Session, w: World, who: Identity, task: Id) returns (r: Outcome<()>)
    modifies s
    ensures Commits(old(s.db), s.db, r, CancelTaskSpec(old(s.db), w, who, task))
  {
    var saved := s.db;
    r := TaskEngine.GetOwned(s, w, who, task);
    if r.Raised? {
      return;
    }
    if s.db.tasks[task].status != TaskCancelled {
      r := TaskEngine.Cancel(s, w, who, task, s.db.tasks[task].version);
      if r.Raised? {
        s.db := saved;
        return;
      }
    }
    if s.db.tasks[task].status != TaskCancelled {
      s.db := saved;
      return Raised(FlowConflict);
    }
  }

  /** `OrchestratorService.resume` */
  method Resume(s: Session, caps: Capabilities, w: World, who: Identity, id: Id, expected: nat, reparsed: Option<Plan>)
    returns (r: Outcome<()>)
    requires |s.db.steps| == |s.db.workflows|
    modifies s
    ensures Commits(old(s.db), s.db, r, ResumeSpec(old(s.db), caps, w, who, id, expected, reparsed))
  {
    if id >= |s.db.workflows| || s.db.workflows[id].user != who.user {
      return Raised(FlowMissing);
    }
    var saved := s.db;
    var expired := ExpireIfDue(s, id, w.now);
    if expired {
      return Ok(());
    }
    var f := s.db.workflows[id];
    if f.version != expected {
      s.db := saved;
      return Raised(FlowConflict);
    }
    if (f.state != WaitingPermission && f.state != WaitingConfirmation) || f.task.None? {
      s.db := saved;
      return Raised(FlowTransitionInvalid);
    }
    var task := f.task.value;
    r := TaskEngine.GetOwned(s, w, who, task);
    if r.Raised? {
      s.db := saved;
      return;
    }
    if s.db.tasks[task].status == TaskCancelled {
      r := Move(s, id, s.db.workflows[id], Cancelled);
    } else {
      r := ResumeTask(s, caps, w, who, id, task, reparsed);
    }
    if r.Raised? {
      s.db := saved;
    }
  }

  /** `resume`, from the plan integrity check on. */
  method ResumeTask(s: Session, caps: Capabilities, w: World, who: Identity, id: Id, task: Id, reparsed: Option<Plan>)
    returns (r: Outcome<()>)
    requires id < |s.db.workflows| && id < |s.db.steps| && task < |s.db.tasks|
    modifies s
    ensures Commits(old(s.db), s.db, r, ResumeTaskSpec(old(s.db), caps, w, who, id, task, reparsed))
  {
    var saved := s.db;
    if id !in s.db.plans || Some(s.db.plans[id].fingerprint) != s.db.workflows[id].plan
        || reparsed != Some(s.db.plans[id].fingerprint) {
      r := Move(s, id, s.db.workflows[id], Denied);
      return;
    }
    var plan := s.db.plans[id].fingerprint;
    if |plan.actions| == 0 {
      return Raised(FlowTransitionInvalid);
    }
    r := TaskEngine.Reevaluate(s, caps, w, who, task, s.db.tasks[task].version);
    if r.Raised? {
      return;
    }
    var t := s.db.tasks[task];
    if !OwnsDecision(s.db, who.user, t.decision) {
      r := Move(s, id, s.db.workflows[id], Failed);
    } else if t.status == TaskFailed {
      r := Move(s, id, s.db.workflows[id].(decision := Some(t.decision), confirmation := None), Denied);
    } else {
      r := Conclude(s, w, id, plan, task, t.decision);
    }
    if r.Raised? {
      s.db := saved;
    }
  }
}
