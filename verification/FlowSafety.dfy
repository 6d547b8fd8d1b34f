/** Workflow operations keep workflows, tasks and envelopes coupled. */
module FlowSafety {
  import opened Common
  import opened AuthorityStore
  import opened PermissionsEngine
  import TaskEngine
  import opened Orchestrator
  import opened AuthorityInvariant
  import opened AuthoritySafety
  import opened TaskSafety

  // ---------------------------------------------------------------- the transition graph

  /** A level that every transition raises. */
  function Rank(s: FlowState): (r: nat)
    ensures r <= 8
  {
    match s
    case Received => 0
    case ContextPrepared => 1
    case Routed => 2
    case ProposalGenerated => 3
    case PlanValidated => 4
    case WaitingPermission => 5
    case WaitingConfirmation => 6
    case ReadyForExecution => 7
    case _ => 8
  }

  /** Ranks rise along the recorded steps, so the i-th step is at rank i or more. */
  lemma {:induction false} StepsClimb(steps: seq<Step>, f: Workflow, i: nat)
    requires Replays(steps, f) && i < |steps|
    ensures |steps| - 1 - i + Rank(steps[i].to) <= Rank(f.state)
    decreases |steps| - i
  {
    if i + 1 < |steps| {
      StepsClimb(steps, f, i + 1);
      assert steps[i + 1].to in AllowedTargets(steps[i].to);
    }
  }

  /** The transition graph is acyclic: no workflow ever takes more than eight transitions. */
  lemma AtMostEightTransitions(steps: seq<Step>, f: Workflow)
    requires Replays(steps, f)
    ensures |steps| <= 9 && f.version <= 9
  {
    StepsClimb(steps, f, 0);
  }

  /** A workflow below READY has never been READY. */
  lemma NotYetReady(steps: seq<Step>, f: Workflow)
    requires Replays(steps, f) && Rank(f.state) < Rank(ReadyForExecution)
    ensures !ReachedReady(steps)
  {
    forall i | 0 <= i < |steps| ensures steps[i].to != ReadyForExecution {
      StepsClimb(steps, f, i);
    }
  }

  // ---------------------------------------------------------------- moving one workflow

  /** All workflows are in order except possibly for how `id` agrees with its task; `id` has
      no envelope yet. */
  ghost predicate InvFlowsBut(db: Db, id: Id) {
    && id < |db.workflows| == |db.steps|
    && (forall f | 0 <= f < |db.workflows| && f != id :: FlowOk(db, f))
    && Replays(db.steps[id], db.workflows[id]) && !ReachedReady(db.steps[id])
    && (forall e | 0 <= e < |db.envelopes| :: EnvelopeOk(db, db.envelopes[e]) && db.envelopes[e].workflow != id)
    && (forall i, j | 0 <= i < j < |db.envelopes| :: db.envelopes[i].workflow != db.envelopes[j].workflow)
    && (forall i, j | 0 <= i < j < |db.workflows| ::
        !(db.workflows[i].user == db.workflows[j].user && db.workflows[i].key == db.workflows[j].key))
  }

  lemma Open(db: Db, id: Id)
    requires InvFlows(db) && id < |db.workflows| && Rank(db.workflows[id].state) < Rank(ReadyForExecution)
    ensures InvFlowsBut(db, id)
  {
    assert FlowOk(db, id);
    NotYetReady(db.steps[id], db.workflows[id]);
    assert !HasEnvelope(db.envelopes, id);
  }

  lemma ReplaysNext(steps: seq<Step>, f: Workflow, g: Workflow, target: FlowState)
    requires Replays(steps, f) && target in AllowedTargets(f.state)
    requires g.version == f.version + 1 && g.state == target
    ensures Replays(steps + [Step(Some(f.state), target)], g)
    ensures ReachedReady(steps + [Step(Some(f.state), target)]) <==> ReachedReady(steps) || target == ReadyForExecution
  {
    var next := steps + [Step(Some(f.state), target)];
    if ReachedReady(steps) {
      var i :| 0 <= i < |steps| && steps[i].to == ReadyForExecution;
      assert next[i].to == ReadyForExecution;
    }
    if target == ReadyForExecution {
      assert next[|steps|].to == ReadyForExecution;
    }
    if ReachedReady(next) {
      var i :| 0 <= i < |next| && next[i].to == ReadyForExecution;
      assert i < |steps| ==> steps[i].to == ReadyForExecution;
    }
  }

  /** A transition keeps all workflows in order if the moved row agrees with its task and its
      envelope, if any, matches it. */
  lemma MoveKeeps(db: Db, id: Id, row: Workflow, target: FlowState)
    requires id < |db.workflows| == |db.steps| && MoveSpec(db, id, row, target).Ok?
    requires forall f | 0 <= f < |db.workflows| && f != id :: FlowOk(db, f)
    requires Replays(db.steps[id], db.workflows[id])
    requires row.user == db.workflows[id].user && row.key == db.workflows[id].key
    requires Coupled(db, id, row, target)
    requires ReachedReady(db.steps[id]) || target == ReadyForExecution <==> HasEnvelope(db.envelopes, id)
    requires forall e | 0 <= e < |db.envelopes| ::
        EnvelopeOk(db, db.envelopes[e]) || (db.envelopes[e].workflow == id && EnvelopeMatches(db, db.envelopes[e], row))
    requires forall e | 0 <= e < |db.envelopes| && db.envelopes[e].workflow == id ::
        EnvelopeMatches(db, db.envelopes[e], row)
    requires forall i, j | 0 <= i < j < |db.envelopes| :: db.envelopes[i].workflow != db.envelopes[j].workflow
    requires forall i, j | 0 <= i < j < |db.workflows| ::
        !(db.workflows[i].user == db.workflows[j].user && db.workflows[i].key == db.workflows[j].key)
    ensures InvFlows(MoveSpec(db, id, row, target).value)
  {
    var r := MoveSpec(db, id, row, target).value;
    ReplaysNext(db.steps[id], db.workflows[id], r.workflows[id], target);
    forall f | 0 <= f < |r.workflows| ensures FlowOk(r, f) {
      if f != id {
        assert FlowOk(db, f);
      }
    }
    forall e | 0 <= e < |r.envelopes| ensures EnvelopeOk(r, r.envelopes[e]) {
      assert EnvelopeOk(db, db.envelopes[e])
          || (db.envelopes[e].workflow == id && EnvelopeMatches(db, db.envelopes[e], row));
    }
  }

  /** What moving one workflow guarantees. */
  ghost predicate FlowStep(db: Db, r: Db, id: Id) {
    && InvFlows(r)
    && r == db.(workflows := r.workflows, steps := r.steps, envelopes := r.envelopes)
    && |r.workflows| == |db.workflows| && id < |db.workflows|
    && FlowsEvolve(db.workflows, r.workflows) && StepsEvolve(db.steps, r.steps) && db.envelopes <= r.envelopes
  }

  lemma MoveEvolves(db: Db, id: Id, row: Workflow, target: FlowState)
    requires id < |db.workflows| == |db.steps| && MoveSpec(db, id, row, target).Ok?
    requires row == db.workflows[id].(task := row.task, decision := row.decision, confirmation := row.confirmation,
        plan := row.plan)
    requires db.workflows[id].task.Some? ==> row.task == db.workflows[id].task
    requires db.workflows[id].plan.Some? ==> row.plan == db.workflows[id].plan
    ensures var r := MoveSpec(db, id, row, target).value;
            && r == db.(workflows := r.workflows, steps := r.steps) && |r.workflows| == |db.workflows|
            && FlowsEvolve(db.workflows, r.workflows) && StepsEvolve(db.steps, r.steps)
            && r.workflows[id].state == target
  {
  }

  /** A transition that keeps the workflow's links. */
  lemma PlainMove(db: Db, id: Id, target: FlowState)
    requires InvFlows(db) && id < |db.workflows|
    requires MoveSpec(db, id, db.workflows[id], target).Ok?
    requires target !in {WaitingPermission, WaitingConfirmation, ReadyForExecution}
    requires target == Cancelled && db.workflows[id].task.Some? ==>
        db.workflows[id].task.value < |db.tasks| && db.tasks[db.workflows[id].task.value].status == TaskCancelled
    ensures FlowStep(db, MoveSpec(db, id, db.workflows[id], target).value, id)
    ensures MoveSpec(db, id, db.workflows[id], target).value.workflows[id].state == target
  {
    assert FlowOk(db, id);
    forall e | 0 <= e < |db.envelopes|
        && db.envelopes[e].workflow == id ensures EnvelopeMatches(db, db.envelopes[e], db.workflows[id]) {
      assert EnvelopeOk(db, db.envelopes[e]);
    }
    MoveKeeps(db, id, db.workflows[id], target);
    MoveEvolves(db, id, db.workflows[id], target);
  }

  /** A transition of a workflow that has not reached READY, with new links. */
  lemma OpenMove(db: Db, id: Id, row: Workflow, target: FlowState)
    requires InvFlowsBut(db, id) && MoveSpec(db, id, row, target).Ok? && target != ReadyForExecution
    requires row == db.workflows[id].(task := row.task, decision := row.decision, confirmation := row.confirmation,
        plan := row.plan)
    requires db.workflows[id].task.Some? ==> row.task == db.workflows[id].task
    requires db.workflows[id].plan.Some? ==> row.plan == db.workflows[id].plan
    requires Coupled(db, id, row, target)
    ensures FlowStep(db, MoveSpec(db, id, row, target).value, id)
    ensures MoveSpec(db, id, row, target).value.workflows[id].state == target
  {
    MoveKeeps(db, id, row, target);
    MoveEvolves(db, id, row, target);
  }

  /** Entering READY_FOR_EXECUTION together with the envelope. */
  lemma ReadyMove(db: Db, w: World, id: Id, plan: Plan, task: Id, row: Workflow)
    requires InvFlowsBut(db, id) && task < |db.tasks| && TaskOk(db, db.tasks[task]) && |plan.actions| == 1
    requires row == db.workflows[id].(task := Some(task), decision := Some(db.tasks[task].decision),
        confirmation := db.tasks[task].confirmation)
    requires row.plan == Some(plan) && db.tasks[task].status == Queued && Linked(db.tasks[task], id, row)
    requires id in db.plans && db.plans[id].fingerprint == plan
    requires db.workflows[id].task.Some? ==> db.workflows[id].task == Some(task)
    requires EnvelopeSpec(db, w, id, plan, task, db.tasks[task].decision).Ok?
    requires MoveSpec(EnvelopeSpec(db, w, id, plan, task, db.tasks[task].decision).value, id, row,
        ReadyForExecution).Ok?
    ensures var db1 := EnvelopeSpec(db, w, id, plan, task, db.tasks[task].decision).value;
            FlowStep(db, MoveSpec(db1, id, row, ReadyForExecution).value, id)
  {
    var d := db.tasks[task].decision;
    var db1 := EnvelopeSpec(db, w, id, plan, task, d).value;
    var env := EnvelopeFor(db.workflows[id], id, plan, db.tasks[task], task, db.decisions[d], d);
    assert FindEnvelope(db.envelopes, id).None?;
    assert db1 == db.(envelopes := db.envelopes + [env]);
    assert EnvelopeMatches(db1, env, row);
    EnvelopeFrame(db, db1, id, env);
    assert db1.envelopes[|db.envelopes|].workflow == id;
    MoveKeeps(db1, id, row, ReadyForExecution);
    MoveEvolves(db1, id, row, ReadyForExecution);
  }

  lemma EnvelopesFrame(db: Db, db1: Db, id: Id, env: Envelope)
    requires InvFlowsBut(db, id) && db1 == db.(envelopes := db.envelopes + [env]) && env.workflow == id
    ensures forall e | 0 <= e < |db.envelopes| :: EnvelopeOk(db1, db1.envelopes[e]) && db1.envelopes[e].workflow != id
  {
    hide FlowOk;
    forall e | 0 <= e < |db.envelopes| ensures EnvelopeOk(db1, db1.envelopes[e]) && db1.envelopes[e].workflow != id {
      assert EnvelopeOk(db, db.envelopes[e]);
    }
  }

  lemma EnvelopeFrame(db: Db, db1: Db, id: Id, env: Envelope)
    requires InvFlowsBut(db, id) && db1 == db.(envelopes := db.envelopes + [env]) && env.workflow == id
    ensures forall f | 0 <= f < |db.workflows| && f != id :: FlowOk(db1, f)
    ensures forall e | 0 <= e < |db.envelopes| :: EnvelopeOk(db1, db1.envelopes[e]) && db1.envelopes[e].workflow != id
    ensures forall i, j | 0 <= i < j < |db1.envelopes| :: db1.envelopes[i].workflow != db1.envelopes[j].workflow
  {
    hide EnvelopeOk;
    forall f | 0 <= f < |db.workflows| && f != id ensures FlowOk(db1, f) {
      assert FlowOk(db, f);
      if HasEnvelope(db.envelopes, f) {
        var e :| 0 <= e < |db.envelopes| && db.envelopes[e].workflow == f;
        assert db1.envelopes[e].workflow == f;
      }
      if HasEnvelope(db1.envelopes, f) {
        var e :| 0 <= e < |db1.envelopes| && db1.envelopes[e].workflow == f;
        assert e < |db.envelopes| && db.envelopes[e].workflow == f;
      }
    }
    EnvelopesFrame(db, db1, id, env);
  }

  /** The shared ending of `create` and `resume`. */
  lemma ConcludeKeeps(db: Db, w: World, id: Id, plan: Plan, task: Id)
    requires InvFlowsBut(db, id) && task < |db.tasks| && TaskOk(db, db.tasks[task]) && |plan.actions| == 1
    requires db.workflows[id].plan == Some(plan) && id in db.plans && db.plans[id].fingerprint == plan
    requires Linked(db.tasks[task], id, db.workflows[id])
    requires db.workflows[id].task.Some? ==> db.workflows[id].task == Some(task)
    requires ConcludeSpec(db, w, id, plan, task, db.tasks[task].decision).Ok?
    ensures FlowStep(db, ConcludeSpec(db, w, id, plan, task, db.tasks[task].decision).value, id)
  {
    var t := db.tasks[task];
    var linked := db.workflows[id].(task := Some(task), decision := Some(t.decision), confirmation := t.confirmation);
    var target := StateForTask(t.status).value;
    if target == ReadyForExecution {
      if PermitsExecutionReadiness(w.policy) {
        ReadyMove(db, w, id, plan, task, linked);
      } else {
        OpenMove(db, id, db.workflows[id], Denied);
      }
    } else {
      OpenMove(db, id, linked, target);
    }
  }

  // ---------------------------------------------------------------- operations

  /** The whole invariant still holds, and nothing on record was undone. */
  ghost predicate Kept(db: Db, r: Db, caps: Capabilities, now: Time) {
    Inv(r, caps, now) && Evolves(db, r)
  }

  lemma KeptTransitive(a: Db, b: Db, c: Db, caps: Capabilities, now: Time)
    requires Kept(a, b, caps, now) && Kept(b, c, caps, now)
    ensures Kept(a, c, caps, now)
  {
    EvolvesTransitive(a, b, c);
  }

  lemma FlowStepKept(db: Db, r: Db, id: Id, caps: Capabilities, now: Time)
    requires InvAuthority(db, caps, now) && InvTasks(db) && FlowStep(db, r, id)
    ensures Kept(db, r, caps, now)
  {
    FrameAuthority(db, r, caps, now);
    forall t | 0 <= t < |r.tasks| ensures TaskOk(r, r.tasks[t]) {
      assert TaskOk(db, db.tasks[t]);
    }
  }

  lemma TaskStepKept(db: Db, r: Db, id: Id, caps: Capabilities, now: Time)
    requires InvAuthority(db, caps, now) && TaskStep(db, r, id)
    ensures Kept(db, r, caps, now)
  {
    FrameAuthority(db, r, caps, now);
  }

  lemma PlainMoveKept(db: Db, id: Id, target: FlowState, caps: Capabilities, now: Time)
    requires Inv(db, caps, now) && id < |db.workflows|
    requires MoveSpec(db, id, db.workflows[id], target).Ok?
    requires target !in {WaitingPermission, WaitingConfirmation, ReadyForExecution, Cancelled}
    ensures var r := MoveSpec(db, id, db.workflows[id], target).value;
            && Kept(db, r, caps, now) && |r.workflows| == |db.workflows|
            && r.workflows[id].state == target
            && r.workflows[id] == db.workflows[id].(state := target, failed := r.workflows[id].failed,
                version := r.workflows[id].version)
  {
    PlainMove(db, id, target);
    FlowStepKept(db, MoveSpec(db, id, db.workflows[id], target).value, id, caps, now);
  }

  lemma ReceiveKept(db: Db, who: Identity, req: FlowRequest, caps: Capabilities, now: Time)
    requires Inv(db, caps, now) && FindFlow(db.workflows, who.user, req.key).None?
    ensures Kept(db, ReceiveSpec(db, who, req), caps, now)
  {
    var r := ReceiveSpec(db, who, req);
    FrameAuthority(db, r, caps, now);
    forall t | 0 <= t < |r.tasks| ensures TaskOk(r, r.tasks[t]) {
      assert TaskOk(db, db.tasks[t]);
    }
    var id := |db.workflows|;
    forall f | 0 <= f < |r.workflows| ensures FlowOk(r, f) {
      if f < id {
        assert FlowOk(db, f);
      } else {
        assert forall e | 0 <= e < |db.envelopes| :: EnvelopeOk(db, db.envelopes[e]);
      }
    }
    forall e | 0 <= e < |r.envelopes| ensures EnvelopeOk(r, r.envelopes[e]) {
      assert EnvelopeOk(db, db.envelopes[e]);
    }
  }

  lemma ContextKept(db: Db, caps: Capabilities, w: World, who: Identity, useMemory: bool)
    requires Inv(db, caps, w.now)
    ensures Kept(db, ContextSpec(db, caps, w, who, useMemory).0, caps, w.now)
  {
    if useMemory {
      hide AuthorizeSpec;
      AuthorizeKeeps(db, caps, w, who, MEMORY_READ, w.now);
      AuthorizedGrowth(db, AuthorizeSpec(db, caps, w, who, MEMORY_READ), caps, who, MEMORY_READ, w.now);
    }
  }

  /** Storing the validated plan and entering PLAN_VALIDATED. */
  lemma PlanKept(db: Db, id: Id, plan: Plan, payload: string, caps: Capabilities, now: Time)
    requires Inv(db, caps, now) && id < |db.workflows|
    requires db.workflows[id].plan.None? && db.workflows[id].task.None?
        && Rank(db.workflows[id].state) < Rank(ReadyForExecution)
    requires MoveSpec(db.(plans := db.plans[id := StoredPlan(plan, payload)]), id,
        db.workflows[id].(plan := Some(plan)), PlanValidated).Ok?
    ensures var r := MoveSpec(db.(plans := db.plans[id := StoredPlan(plan, payload)]), id,
        db.workflows[id].(plan := Some(plan)), PlanValidated).value;
            && Kept(db, r, caps, now) && |r.workflows| == |db.workflows|
            && r.workflows[id].plan == Some(plan) && r.workflows[id].task.None?
                && r.workflows[id].state == PlanValidated
            && r.workflows[id].user == db.workflows[id].user
            && id in r.plans && r.plans[id].fingerprint == plan
  {
    var db1 := db.(plans := db.plans[id := StoredPlan(plan, payload)]);
    Open(db, id);
    forall f | 0 <= f < |db.workflows| && f != id ensures FlowOk(db1, f) {
      assert FlowOk(db, f);
    }
    forall e | 0 <= e < |db.envelopes| ensures EnvelopeOk(db1, db1.envelopes[e]) && db1.envelopes[e].workflow != id {
      assert EnvelopeOk(db, db.envelopes[e]);
    }
    assert InvFlowsBut(db1, id);
    FrameAuthority(db, db1, caps, now);
    forall t | 0 <= t < |db1.tasks| ensures TaskOk(db1, db1.tasks[t]) {
      assert TaskOk(db, db.tasks[t]);
    }
    var row := db.workflows[id].(plan := Some(plan));
    OpenMove(db1, id, row, PlanValidated);
    FlowStepKept(db1, MoveSpec(db1, id, row, PlanValidated).value, id, caps, now);
  }

  lemma LinkKept(db: Db, caps: Capabilities, w: World, who: Identity, req: FlowRequest, id: Id, plan: Plan,
      payload: string)
    requires Inv(db, caps, w.now) && id < |db.workflows| && |plan.actions| == 1
    requires db.workflows[id].plan.None? && db.workflows[id].task.None? && db.workflows[id].user == who.user
    requires Rank(db.workflows[id].state) < Rank(ReadyForExecution)
    requires LinkSpec(db, caps, w, who, req, id, plan, payload).Ok?
    ensures Kept(db, LinkSpec(db, caps, w, who, req, id, plan, payload).value, caps, w.now)
  {
    hide TaskEngine.CreateSpec;
    hide ConcludeSpec;
    hide InvAuthority;
    hide AllowedTargets;
    var r := LinkSpec(db, caps, w, who, req, id, plan, payload).value;
    var db1 := db.(plans := db.plans[id := StoredPlan(plan, payload)]);
    var db2 := MoveSpec(db1, id, db1.workflows[id].(plan := Some(plan)), PlanValidated).value;
    PlanKept(db, id, plan, payload, caps, w.now);
    var proposal := TaskProposal(id, who, req, plan.actions[0]);
    var key := TaskEngine.FlowKey(id);
    var (db3, c) := TaskEngine.CreateSpec(db2, caps, w, who, proposal, key).value;
    CreateKeeps(db2, caps, w, who, proposal, key, w.now);
    KeptTransitive(db, db2, db3, caps, w.now);
    Open(db3, id);
    LinkEnding(db3, caps, w, id, plan, c, r, who, proposal);
    KeptTransitive(db, db3, r, caps, w.now);
  }

  lemma LinkEnding(db: Db, caps: Capabilities, w: World, id: Id, plan: Plan, c: TaskEngine.Creation, r: Db,
      who: Identity, proposal: TaskRequest)
    requires Inv(db, caps, w.now) && InvFlowsBut(db, id) && |plan.actions| == 1
    requires db.workflows[id].plan == Some(plan) && db.workflows[id].task.None? && db.workflows[id].user == who.user
    requires id in db.plans && db.plans[id].fingerprint == plan
    requires proposal.capability == plan.actions[0].capability && proposal.action == plan.actions[0].action
        && proposal.scope == plan.actions[0].scope
    requires c.task.Some? ==> c.task.value < |db.tasks|
    requires c.task.Some? ==>
               var t := db.tasks[c.task.value];
               && t.user == who.user && t.key == OrchestrationKey(id) && t.request == proposal
               && c.decision == Some(t.decision)
    requires if c.task.None? || c.decision.None?
             then MoveSpec(db, id, db.workflows[id].(decision := c.decision, confirmation := None), Denied) == Ok(r)
             else (&& c.decision.value < |db.decisions|
                   && ConcludeSpec(db, w, id, plan, c.task.value, c.decision.value) == Ok(r))
    ensures Kept(db, r, caps, w.now)
  {
    if c.task.None? {
      OpenMove(db, id, db.workflows[id].(decision := c.decision, confirmation := None), Denied);
    } else {
      assert TaskOk(db, db.tasks[c.task.value]);
      ConcludeKeeps(db, w, id, plan, c.task.value);
    }
    FlowStepKept(db, r, id, caps, w.now);
  }

  lemma ProposeKept(db: Db, caps: Capabilities, w: World, who: Identity, req: FlowRequest, plan: Option<Plan>,
      payload: string, id: Id)
    requires Inv(db, caps, w.now) && id < |db.workflows|
    requires db.workflows[id].plan.None? && db.workflows[id].task.None? && db.workflows[id].user == who.user
    requires ProposeSpec(db, caps, w, who, req, plan, payload, id).Ok?
    ensures Kept(db, ProposeSpec(db, caps, w, who, req, plan, payload, id).value, caps, w.now)
  {
    hide LinkSpec;
    var r := ProposeSpec(db, caps, w, who, req, plan, payload, id).value;
    var db1 := MoveSpec(db, id, db.workflows[id], Routed).value;
    PlainMoveKept(db, id, Routed, caps, w.now);
    var db2 := MoveSpec(db1, id, db1.workflows[id], ProposalGenerated).value;
    PlainMoveKept(db1, id, ProposalGenerated, caps, w.now);
    KeptTransitive(db, db1, db2, caps, w.now);
    if !IsAction(req.category) {
      PlainMoveKept(db2, id, CompletedNoAction, caps, w.now);
    } else if plan.None? || |plan.value.actions| != 1 {
      PlainMoveKept(db2, id, Failed, caps, w.now);
    } else if !CapabilityAllows(caps, plan.value.actions[0].capability, plan.value.actions[0].action) {
      PlainMoveKept(db2, id, Denied, caps, w.now);
    } else {
      LinkKept(db2, caps, w, who, req, id, plan.value, payload);
    }
    KeptTransitive(db, db2, r, caps, w.now);
  }

  lemma ProcessKept(db: Db, caps: Capabilities, w: World, who: Identity, req: FlowRequest, ai: AiOutcome, id: Id)
    requires Inv(db, caps, w.now) && id < |db.workflows|
    requires db.workflows[id].plan.None? && db.workflows[id].task.None? && db.workflows[id].user == who.user
    requires ProcessSpec(db, caps, w, who, req, ai, id).Ok?
    ensures Kept(db, ProcessSpec(db, caps, w, who, req, ai, id).value, caps, w.now)
  {
    hide ProposeSpec;
    hide ContextSpec;
    hide InvAuthority;
    hide InvTasks;
    hide AllowedTargets;
    var r := ProcessSpec(db, caps, w, who, req, ai, id).value;
    if !PermitsIntent(w.policy, req.category) {
      PlainMoveKept(db, id, Denied, caps, w.now);
    } else {
      var (db1, packed) := ContextSpec(db, caps, w, who, req.useMemory);
      ContextKept(db, caps, w, who, req.useMemory);
      if !packed {
        PlainMoveKept(db1, id, Denied, caps, w.now);
      } else {
        PlainMoveKept(db1, id, ContextPrepared, caps, w.now);
        var db2 := MoveSpec(db1, id, db1.workflows[id], ContextPrepared).value;
        match ai
        case RoutingDenied => PlainMoveKept(db2, id, Denied, caps, w.now);
        case ProviderFailed => PlainMoveKept(db2, id, Failed, caps, w.now);
        case Answered(plan, payload) => ProposeKept(db2, caps, w, who, req, plan, payload, id);
        KeptTransitive(db1, db2, r, caps, w.now);
      }
      KeptTransitive(db, db1, r, caps, w.now);
    }
  }

  /** `create` keeps the invariant. */
  lemma CreateKept(db: Db, caps: Capabilities, w: World, who: Identity, req: FlowRequest, ai: AiOutcome)
    requires Inv(db, caps, w.now)
    requires CreateSpec(db, caps, w, who, req, ai).Ok?
    ensures Kept(db, CreateSpec(db, caps, w, who, req, ai).value.0, caps, w.now)
  {
    hide ProcessSpec;
    var (r, id) := CreateSpec(db, caps, w, who, req, ai).value;
    if FindFlow(db.workflows, who.user, req.key).None? {
      var db1 := ReceiveSpec(db, who, req);
      ReceiveKept(db, who, req, caps, w.now);
      ProcessKept(db1, caps, w, who, req, ai, id);
      KeptTransitive(db, db1, r, caps, w.now);
    }
  }

  lemma ExpireKept(db: Db, id: Id, caps: Capabilities, now: Time)
    requires Inv(db, caps, now) && id < |db.workflows|
    ensures var (r, expired) := ExpireSpec(db, id, now);
            && Kept(db, r, caps, now) && |r.workflows| == |db.workflows| && r.tasks == db.tasks
                && r.decisions == db.decisions
            && (!expired ==> r == db)
            && r.workflows[id].user == db.workflows[id].user
  {
    if Due(db.workflows[id].expiresAt, now) && !Terminal(db.workflows[id].state) {
      PlainMoveKept(db, id, FlowExpired, caps, now);
    }
  }

  lemma GetKept(db: Db, w: World, who: Identity, id: Id, caps: Capabilities)
    requires Inv(db, caps, w.now) && GetSpec(db, w, who, id).Ok?
    ensures Kept(db, GetSpec(db, w, who, id).value, caps, w.now)
  {
    ExpireKept(db, id, caps, w.now);
  }

  lemma TaskGetKept(db: Db, w: World, who: Identity, task: Id, caps: Capabilities)
    requires Inv(db, caps, w.now) && TaskEngine.GetSpec(db, w, who, task).Ok?
    ensures var r := TaskEngine.GetSpec(db, w, who, task).value;
            && Kept(db, r, caps, w.now) && TaskStep(db, r, task)
            && (r.tasks[task] == db.tasks[task] || r.tasks[task].status == TaskExpired)
  {
    ExpireStep(db, task, w.now);
    TaskStepKept(db, TaskEngine.GetSpec(db, w, who, task).value, task, caps, w.now);
  }

  lemma CancelTaskKept(db: Db, w: World, who: Identity, task: Id, caps: Capabilities)
    requires Inv(db, caps, w.now) && CancelTaskSpec(db, w, who, task).Ok?
    ensures var r := CancelTaskSpec(db, w, who, task).value;
            Kept(db, r, caps, w.now) && r == db.(tasks := r.tasks) && |r.tasks| == |db.tasks|
  {
    TaskGetKept(db, w, who, task, caps);
    var db1 := TaskEngine.GetSpec(db, w, who, task).value;
    if db1.tasks[task].status != TaskCancelled {
      CancelStep(db1, w, who, task, db1.tasks[task].version);
      var db2 := TaskEngine.CancelSpec(db1, w, who, task, db1.tasks[task].version).value;
      TaskStepKept(db1, db2, task, caps, w.now);
      KeptTransitive(db, db1, db2, caps, w.now);
    }
  }

  lemma CancelMoveKept(db: Db, id: Id, caps: Capabilities, now: Time)
    requires Inv(db, caps, now) && id < |db.workflows| && MoveSpec(db, id, db.workflows[id], Cancelled).Ok?
    requires db.workflows[id].task.Some? ==>
        db.workflows[id].task.value < |db.tasks| && db.tasks[db.workflows[id].task.value].status == TaskCancelled
    ensures Kept(db, MoveSpec(db, id, db.workflows[id], Cancelled).value, caps, now)
  {
    PlainMove(db, id, Cancelled);
    FlowStepKept(db, MoveSpec(db, id, db.workflows[id], Cancelled).value, id, caps, now);
  }

  /** `cancel` keeps the invariant. */
  lemma CancelKept(db: Db, w: World, who: Identity, id: Id, expected: nat, caps: Capabilities)
    requires Inv(db, caps, w.now) && CancelSpec(db, w, who, id, expected).Ok?
    ensures Kept(db, CancelSpec(db, w, who, id, expected).value, caps, w.now)
  {
    hide CancelTaskSpec;
    ExpireKept(db, id, caps, w.now);
    var r := CancelSpec(db, w, who, id, expected).value;
    var (db1, expired) := ExpireSpec(db, id, w.now);
    var f := db1.workflows[id];
    if !expired && f.state != Cancelled {
      if f.task.Some? {
        CancelTaskKept(db1, w, who, f.task.value, caps);
        var db2 := CancelTaskSpec(db1, w, who, f.task.value).value;
        CancelMoveKept(db2, id, caps, w.now);
        KeptTransitive(db, db2, r, caps, w.now);
      } else {
        CancelMoveKept(db1, id, caps, w.now);
      }
    }
  }

  // ---------------------------------------------------------------- resume

  /** Changing the waiting task of a waiting workflow leaves every other workflow in order. */
  lemma WaitingTaskChange(db: Db, flow: Id, task: Id, row: Task)
    requires InvTasks(db) && InvFlows(db) && flow < |db.workflows| && task < |db.tasks|
    requires db.workflows[flow].task == Some(task) && Rank(db.workflows[flow].state) < Rank(ReadyForExecution)
    requires !Settled(db.tasks[task].status)
    requires row.user == db.tasks[task].user && row.key == db.tasks[task].key && row.request == db.tasks[task].request
    requires TaskOk(db, row)
    ensures var r := db.(tasks := db.tasks[task := row]); InvTasks(r) && InvFlowsBut(r, flow)
  {
    var r := db.(tasks := db.tasks[task := row]);
    RowKeepsTasks(db, task, row);
    Open(db, flow);
    assert FlowOk(db, flow);
    forall f | 0 <= f < |r.workflows| && f != flow ensures FlowOk(r, f) {
      assert FlowOk(db, f);
    }
    forall e | 0 <= e < |r.envelopes| ensures EnvelopeOk(r, r.envelopes[e]) && r.envelopes[e].workflow != flow {
      assert EnvelopeOk(db, db.envelopes[e]);
    }
  }

  /** What re-evaluating the linked task of a waiting workflow guarantees. */
  ghost predicate Reopened(db: Db, r: Db, flow: Id, task: Id, caps: Capabilities, now: Time) {
    && task < |db.tasks| == |r.tasks|
    && InvAuthority(r, caps, now) && InvTasks(r) && InvFlowsBut(r, flow) && Evolves(db, r)
    && r == db.(permissions := r.permissions, confirmations := r.confirmations, decisions := r.decisions,
        tasks := r.tasks)
    && r.tasks[task].user == db.tasks[task].user && r.tasks[task].key == db.tasks[task].key
        && r.tasks[task].request == db.tasks[task].request
  }

  lemma ReevaluateReopens(db: Db, caps: Capabilities, w: World, who: Identity, flow: Id, task: Id)
    requires Inv(db, caps, w.now) && flow < |db.workflows| && task < |db.tasks|
    requires db.workflows[flow].task == Some(task) && Rank(db.workflows[flow].state) < Rank(ReadyForExecution)
    requires TaskEngine.ReevaluateSpec(db, caps, w, who, task, db.tasks[task].version).Ok?
    ensures Reopened(db, TaskEngine.ReevaluateSpec(db, caps, w, who, task, db.tasks[task].version).value, flow, task,
        caps, w.now)
  {
    hide AuthorizeSpec;
    hide InvRows;
    hide Balanced;
    var r := TaskEngine.ReevaluateSpec(db, caps, w, who, task, db.tasks[task].version).value;
    ExpireStep(db, task, w.now);
    var (db1, expired) := TaskEngine.ExpireSpec(db, task, w.now).value;
    if expired {
      TaskStepKept(db, db1, task, caps, w.now);
      Open(db1, flow);
    } else {
      hide InvTasks;
      hide InvFlows;
      var t := db.tasks[task];
      var auth := AuthorizationRequest(t.request.capability, t.request.action, t.request.scope, t.confirmation);
      var agent := who.(device := t.request.device);
      AuthorizeKeeps(db, caps, w, agent, auth, w.now);
      var db2 := AuthorizeSpec(db, caps, w, agent, auth);
      AuthorizedGrowth(db, db2, caps, agent, auth, w.now);
      Reevaluated(db, db2, caps, agent, auth, w.now, flow, task, r);
    }
  }

  lemma Reevaluated(db: Db, db2: Db, caps: Capabilities, who: Identity, auth: AuthorizationRequest, now: Time,
      flow: Id, task: Id, r: Db)
    requires InvTasks(db2) && InvFlows(db2) && AuthorizeStep(db, db2, caps, who, auth, now) && Evolves(db, db2)
    requires flow < |db.workflows| && task < |db.tasks|
    requires db.workflows[flow].task == Some(task) && Rank(db.workflows[flow].state) < Rank(ReadyForExecution)
    requires who.user == db.tasks[task].user
    requires var t := db.tasks[task]; auth == AuthorizationRequest(t.request.capability, t.request.action,
        t.request.scope, t.confirmation)
    requires db.tasks[task].status in {TaskWaitingPermission, TaskWaitingConfirmation}
    requires var t := db.tasks[task];
             var d := |db.decisions|;
             var target := TaskEngine.ReevaluatedStatus(db2.decisions[d]);
             var asked := AskedConfirmation(db2);
             var confirmation := if asked.Some? then asked else t.confirmation;
             if target == t.status then r == db2
             else
               var row := t.(decision := d, confirmation := confirmation);
               TaskEngine.MoveSpec(db2, task, row, target, t.version) == Ok(r)
    ensures Reopened(db, r, flow, task, caps, now)
  {
    if r == db2 {
      Open(db2, flow);
    } else {
      WaitingTaskChange(db2, flow, task, r.tasks[task]);
      assert r == db2.(tasks := db2.tasks[task := r.tasks[task]]);
      FrameAuthority(db2, r, caps, now);
      assert TasksEvolve(db2.tasks, r.tasks);
    }
  }

  lemma SettleKept(db: Db, caps: Capabilities, w: World, who: Identity, id: Id, plan: Plan, task: Id)
    requires InvAuthority(db, caps, w.now) && InvTasks(db) && InvFlowsBut(db, id) && task < |db.tasks|
    requires db.workflows[id].plan == Some(plan) && |plan.actions| == 1 && id in db.plans
        && db.plans[id].fingerprint == plan
    requires db.workflows[id].task == Some(task) && Linked(db.tasks[task], id, db.workflows[id])
    requires SettleSpec(db, w, who, id, plan, task).Ok?
    ensures Kept(db, SettleSpec(db, w, who, id, plan, task).value, caps, w.now)
  {
    hide ConcludeSpec;
    var r := SettleSpec(db, w, who, id, plan, task).value;
    var t := db.tasks[task];
    assert TaskOk(db, t);
    if !OwnsDecision(db, who.user, t.decision) {
      OpenMove(db, id, db.workflows[id], Failed);
    } else if t.status == TaskFailed {
      OpenMove(db, id, db.workflows[id].(decision := Some(t.decision), confirmation := None), Denied);
    } else {
      ConcludeKeeps(db, w, id, plan, task);
    }
    FlowStepKept(db, r, id, caps, w.now);
  }

  lemma ResumeTaskKept(db: Db, caps: Capabilities, w: World, who: Identity, id: Id, task: Id, reparsed: Option<Plan>)
    requires Inv(db, caps, w.now) && id < |db.workflows| && task < |db.tasks|
    requires db.workflows[id].task == Some(task) && Rank(db.workflows[id].state) < Rank(ReadyForExecution)
    requires ResumeTaskSpec(db, caps, w, who, id, task, reparsed).Ok?
    ensures Kept(db, ResumeTaskSpec(db, caps, w, who, id, task, reparsed).value, caps, w.now)
  {
    hide TaskEngine.ReevaluateSpec;
    hide SettleSpec;
    var r := ResumeTaskSpec(db, caps, w, who, id, task, reparsed).value;
    var plan := LoadPlanSpec(db, id, reparsed);
    assert FlowOk(db, id);
    if plan.None? {
      PlainMoveKept(db, id, Denied, caps, w.now);
    } else {
      ReevaluateReopens(db, caps, w, who, id, task);
      var db1 := TaskEngine.ReevaluateSpec(db, caps, w, who, task, db.tasks[task].version).value;
      SettleKept(db1, caps, w, who, id, plan.value, task);
      EvolvesTransitive(db, db1, r);
    }
  }

  /** `resume` keeps the invariant: the task and the workflow move together or not at all. */
  lemma ResumeKept(db: Db, caps: Capabilities, w: World, who: Identity, id: Id, expected: nat, reparsed: Option<Plan>)
    requires Inv(db, caps, w.now) && ResumeSpec(db, caps, w, who, id, expected, reparsed).Ok?
    ensures Kept(db, ResumeSpec(db, caps, w, who, id, expected, reparsed).value, caps, w.now)
  {
    hide ResumeTaskSpec;
    hide InvAuthority;
    hide InvTasks;
    hide AllowedTargets;
    ExpireKept(db, id, caps, w.now);
    var r := ResumeSpec(db, caps, w, who, id, expected, reparsed).value;
    var (db1, expired) := ExpireSpec(db, id, w.now);
    if !expired {
      var task := db.workflows[id].task.value;
      TaskGetKept(db, w, who, task, caps);
      var db2 := TaskEngine.GetSpec(db, w, who, task).value;
      if db2.tasks[task].status == TaskCancelled {
        CancelMoveKept(db2, id, caps, w.now);
      } else {
        ResumeTaskKept(db2, caps, w, who, id, task, reparsed);
      }
      KeptTransitive(db, db2, r, caps, w.now);
    }
  }
}
