/** What the authority chain promises its users, read off the invariant: statements about every
    reachable state, and about any two states of one run. */
module AuthorityTheorems {
  import opened Common
  import opened AuthorityStore
  import opened PermissionsEngine
  import opened AuthorityInvariant
  import opened AuthorityRuns
  import FlowSafety
  import AuthoritySafety
  import TaskSafety
  import TaskEngine
  import Orchestrator

  /** Envelopes. A workflow has one exactly when it has reached READY_FOR_EXECUTION, never two,
      and it repeats the stored plan, the linked task and an ALLOW decision with a permission
      and no financial block. */
  lemma EnvelopeTheorem(caps: Capabilities, calls: seq<Call>, id: Id)
    requires Chronological(calls)
    ensures var db := Run(caps, calls);
            && |db.steps| == |db.workflows|
            && (id < |db.workflows| ==> (ReachedReady(db.steps[id]) <==> HasEnvelope(db.envelopes, id)))
            && (forall i, j | 0 <= i < |db.envelopes| && 0 <= j < |db.envelopes| ::
                db.envelopes[i].workflow == id == db.envelopes[j].workflow ==> i == j)
            && (forall e | 0 <= e < |db.envelopes| && db.envelopes[e].workflow == id ::
                  && id < |db.workflows| && EnvelopeMatches(db, db.envelopes[e], db.workflows[id])
                  && id in db.plans && db.plans[id].fingerprint == db.envelopes[e].plan)
  {
    var db := Run(caps, calls);
    hide Run;
    if id < |db.workflows| {
      assert FlowOk(db, id);
    }
    forall e | 0 <= e < |db.envelopes| && db.envelopes[e].workflow == id
      ensures id < |db.workflows| && EnvelopeMatches(db, db.envelopes[e], db.workflows[id]) && id in db.plans
          && db.plans[id].fingerprint == db.envelopes[e].plan
    {
      assert EnvelopeOk(db, db.envelopes[e]);
    }
  }

  /** Coupling. The state of a workflow and the status of its task never drift apart. */
  lemma CouplingTheorem(caps: Capabilities, calls: seq<Call>, id: Id)
    requires Chronological(calls)
    ensures var db := Run(caps, calls);
            id < |db.workflows| ==>
              var f := db.workflows[id];
              && (f.task.Some? ==> f.task.value < |db.tasks| && Linked(db.tasks[f.task.value], id, f))
              && Agrees(db, f, f.state)
              && (f.state == ReadyForExecution ==>
                    && f.decision == Some(db.tasks[f.task.value].decision)
                    && f.decision.value < |db.decisions| && db.decisions[f.decision.value].kind == Allow)
  {
    var db := Run(caps, calls);
    hide Run;
    if id < |db.workflows| {
      CoupledFlow(db, id);
    }
  }

  lemma CoupledFlow(db: Db, id: Id)
    requires InvFlows(db) && InvTasks(db) && id < |db.workflows|
    ensures var f := db.workflows[id];
            && (f.task.Some? ==> f.task.value < |db.tasks| && Linked(db.tasks[f.task.value], id, f))
            && Agrees(db, f, f.state)
            && (f.state == ReadyForExecution ==>
                  && f.decision == Some(db.tasks[f.task.value].decision)
                  && f.decision.value < |db.decisions| && db.decisions[f.decision.value].kind == Allow)
  {
    var f := db.workflows[id];
    assert FlowOk(db, id);
    if f.state == ReadyForExecution {
      var steps := db.steps[id];
      assert steps[|steps| - 1].to == ReadyForExecution;
      var e :| 0 <= e < |db.envelopes| && db.envelopes[e].workflow == id;
      assert EnvelopeOk(db, db.envelopes[e]);
    }
  }

  /** A cancelled workflow stays cancelled, and so does its task, whatever happens later. */
  lemma CancelledForever(caps: Capabilities, calls: seq<Call>, i: nat, id: Id)
    requires Chronological(calls) && i <= |calls|
    ensures var now, later := Run(caps, calls[..i]), Run(caps, calls);
            id < |now.workflows| && now.workflows[id].state == Cancelled ==>
              && id < |later.workflows| && later.workflows[id] == now.workflows[id]
              && (later.workflows[id].task.Some? ==>
                    later.workflows[id].task.value < |later.tasks|
                        && later.tasks[later.workflows[id].task.value].status == TaskCancelled)
  {
    hide Run;
    hide InvAuthority;
    hide InvTasks;
    hide InvFlows;
    hide Evolves;
    RunEvolves(caps, calls, i);
    var now := Run(caps, calls[..i]);
    if id < |now.workflows| && now.workflows[id].state == Cancelled {
      CancelledStays(now, Run(caps, calls), id);
    }
  }

  lemma CancelledStays(now: Db, later: Db, id: Id)
    requires InvFlows(now) && Evolves(now, later) && id < |now.workflows| && now.workflows[id].state == Cancelled
    ensures id < |later.workflows| && later.workflows[id] == now.workflows[id]
    ensures later.workflows[id].task.Some? ==>
              later.workflows[id].task.value < |later.tasks|
                  && later.tasks[later.workflows[id].task.value].status == TaskCancelled
  {
    assert FlowEvolves(now.workflows[id], later.workflows[id]);
    assert FlowOk(now, id);
    if now.workflows[id].task.Some? {
      var t := now.workflows[id].task.value;
      assert TaskEvolves(now.tasks[t], later.tasks[t]);
    }
  }

  /** Conservation. For every use of confirmed authority the ALLOW decisions and the consumed
      confirmations balance, at every instant and over all instants together, and a consumed
      confirmation was approved, not rejected, and used after its approval and before its expiry. */
  lemma ConservationTheorem(caps: Capabilities, calls: seq<Call>, u: Use, c: Id)
    requires Chronological(calls)
    ensures var db := Run(caps, calls);
            && Uses(db.decisions, db.permissions, u) == Consumptions(db.confirmations, u)
            && UsesEver(db.decisions, db.permissions, u) == ConsumptionsEver(db.confirmations, u)
            && (c < |db.confirmations| && db.confirmations[c].consumedAt.Some? ==>
                  var row := db.confirmations[c];
                  && row.confirmedAt.Some? && row.rejectedAt.None?
                  && row.confirmedAt.value <= row.consumedAt.value < row.expiresAt
                  && row.decision < |db.decisions| && Asked(row, db.decisions[row.decision]))
  {
    var db := Run(caps, calls);
    hide Run;
    if c < |db.confirmations| {
      assert ConfirmationOk(db, Clock(calls), db.confirmations[c]);
    }
    AuthoritySafety.BalancedEver(db.decisions, db.permissions, db.confirmations, u);
  }

  /** Attempts. A task is tried at most once, an attempt is running exactly while the task is, and
      finishing raises exactly if the task is missing, not RUNNING, or at another version. */
  lemma AttemptTheorem(caps: Capabilities, calls: seq<Call>, id: Id, target: TaskStatus, expected: nat)
    requires Chronological(calls) && (target == Completed || target == TaskFailed)
    ensures var db := Run(caps, calls);
            && (id < |db.tasks| ==>
                  && |db.tasks[id].attempts| <= 1
                  && (AttemptRunning in db.tasks[id].attempts <==> db.tasks[id].status == Running))
            && (TaskEngine.FinishSpec(db, id, target, expected).Raised? <==>
                  id >= |db.tasks| || db.tasks[id].status != Running || db.tasks[id].version != expected)
  {
    var db := Run(caps, calls);
    hide Run;
    TaskSafety.FinishStep(db, id, target, expected);
    if id < |db.tasks| {
      assert TaskOk(db, db.tasks[id]);
    }
  }

  /** An answer that comes too late raises, so the EXPIRED mark it would set is rolled back and the
      store stays as it was. */
  lemma LateAnswer(caps: Capabilities, calls: seq<Call>, w: World, who: Identity, id: Id)
    requires Chronological(calls)
    ensures var db := Run(caps, calls);
            id < |db.confirmations| && db.confirmations[id].expiresAt <= w.now ==>
              Apply(db, caps, Call(w, Approve(who, id))) == db && Apply(db, caps, Call(w, Reject(who, id))) == db
  {
  }

  /** A confirmation is spent at most once: once consumed, the record of when never changes. */
  lemma SpentOnce(caps: Capabilities, calls: seq<Call>, i: nat, c: Id)
    requires Chronological(calls) && i <= |calls|
    ensures var now, later := Run(caps, calls[..i]).confirmations, Run(caps, calls).confirmations;
            c < |now| && now[c].consumedAt.Some? ==> c < |later| && later[c].consumedAt == now[c].consumedAt
  {
    hide Run;
    RunEvolves(caps, calls, i);
    var now, later := Run(caps, calls[..i]).confirmations, Run(caps, calls).confirmations;
    assert c < |now| ==> ConfirmationEvolves(now[c], later[c]);
  }

  /** Every ALLOW under a ONCE permission follows an approval for that permission. */
  lemma OnceTheorem(caps: Capabilities, calls: seq<Call>, d: Id)
    requires Chronological(calls)
    ensures var db := Run(caps, calls);
            d < |db.decisions| && db.decisions[d].kind == Allow ==>
              var p := db.decisions[d].permission;
              && p.Some? && p.value < |db.permissions|
              && (db.permissions[p.value].policy == Once ==>
                    exists c | 0 <= c < |db.confirmations| ::
                      db.confirmations[c].permission == p.value && db.confirmations[c].confirmedAt.Some?
                          && db.confirmations[c].confirmedAt.value <= db.decisions[d].at)
  {
    var db := Run(caps, calls);
    hide Run;
    if d < |db.decisions| {
      assert DecisionOk(db, caps, db.decisions[d]);
    }
  }

  /** No run ever allows, asks to confirm, queues, runs or hands over an action of a capability
      that is both financial and externally effecting. */
  lemma FinancialTheorem(caps: Capabilities, calls: seq<Call>, capability: string)
    requires Chronological(calls) && capability in caps && Blocked(caps[capability])
    ensures var db := Run(caps, calls);
            && (forall d | 0 <= d < |db.decisions| :: db.decisions[d].capability == capability ==>
                db.decisions[d].kind == Deny)
            && (forall c | 0 <= c < |db.confirmations| :: db.confirmations[c].capability != capability)
            && (forall t | 0 <= t < |db.tasks| :: db.tasks[t].request.capability == capability ==>
                  db.tasks[t].status !in {Queued, Running, Completed, TaskWaitingConfirmation})
            && (forall e | 0 <= e < |db.envelopes| :: db.envelopes[e].capability != capability)
  {
    var db := Run(caps, calls);
    forall d | 0 <= d < |db.decisions| ensures db.decisions[d].capability == capability ==>
        db.decisions[d].kind == Deny {
      assert DecisionOk(db, caps, db.decisions[d]);
    }
    forall c | 0 <= c < |db.confirmations| ensures db.confirmations[c].capability != capability {
      assert ConfirmationOk(db, Clock(calls), db.confirmations[c]);
    }
    forall t | 0 <= t < |db.tasks|
      ensures db.tasks[t].request.capability == capability ==>
          db.tasks[t].status !in {Queued, Running, Completed, TaskWaitingConfirmation}
    {
      assert TaskOk(db, db.tasks[t]);
      var c := db.tasks[t].confirmation;
      assert db.tasks[t].status == TaskWaitingConfirmation ==>
          ConfirmationOk(db, Clock(calls), db.confirmations[c.value]);
    }
    forall e | 0 <= e < |db.envelopes| ensures db.envelopes[e].capability != capability {
      assert EnvelopeOk(db, db.envelopes[e]);
    }
  }

  /** Over a run a permission keeps its grant and only moves ACTIVE, EXPIRED, REVOKED. */
  lemma PermissionTheorem(caps: Capabilities, calls: seq<Call>, i: nat, p: Id)
    requires Chronological(calls) && i <= |calls|
    ensures var now, later := Run(caps, calls[..i]).permissions, Run(caps, calls).permissions;
            p < |now| ==> p < |later| && PermissionEvolves(now[p], later[p])
  {
    hide Run;
    RunEvolves(caps, calls, i);
  }

  /** The recorded steps of a workflow replay its whole life: one per version, chained along the
      transition table into the current state, at most eight transitions. */
  lemma EvidenceTheorem(caps: Capabilities, calls: seq<Call>, id: Id)
    requires Chronological(calls)
    ensures var db := Run(caps, calls);
            id < |db.workflows| ==>
                id < |db.steps| && Replays(db.steps[id], db.workflows[id]) && db.workflows[id].version <= 9
  {
    var db := Run(caps, calls);
    hide Run;
    if id < |db.workflows| {
      assert FlowOk(db, id);
      FlowSafety.AtMostEightTransitions(db.steps[id], db.workflows[id]);
    }
  }

  /** Replaying a create request returns the same workflow and changes nothing. */
  lemma CreateIsIdempotent(caps: Capabilities, calls: seq<Call>, w: World, w': World, who: Identity,
      req: Orchestrator.FlowRequest, ai: Orchestrator.AiOutcome, ai': Orchestrator.AiOutcome)
    requires Chronological(calls) && Clock(calls) <= w.now
    ensures var made := Orchestrator.CreateSpec(Run(caps, calls), caps, w, who, req, ai);
            made.Ok? ==>
              && |made.value.0.steps| == |made.value.0.workflows|
              && Orchestrator.CreateSpec(made.value.0, caps, w', who, req, ai') == made
  {
    hide Run;
    hide InvAuthority;
    hide InvTasks;
    hide Orchestrator.CreateSpec;
    var before := Run(caps, calls);
    var made := Orchestrator.CreateSpec(before, caps, w, who, req, ai);
    if made.Ok? {
      var (db, id) := made.value;
      LaterClock(before, caps, Clock(calls), w.now);
      FlowSafety.CreateKept(before, caps, w, who, req, ai);
      CreatedRow(before, caps, w, who, req, ai);
      ReplayedCreate(db, caps, w', who, req, ai', id);
    }
  }

  lemma ReplayedCreate(db: Db, caps: Capabilities, w: World, who: Identity, req: Orchestrator.FlowRequest,
      ai: Orchestrator.AiOutcome, id: Id)
    requires InvFlows(db) && id < |db.workflows|
    requires db.workflows[id].user == who.user && db.workflows[id].key == req.key
        && db.workflows[id].fingerprint == req.fingerprint
    ensures Orchestrator.CreateSpec(db, caps, w, who, req, ai) == Ok((db, id))
  {
    hide Orchestrator.ProcessSpec;
    var found := Orchestrator.FindFlow(db.workflows, who.user, req.key);
    assert found.Some?;
    assert found.value == id;
  }

  lemma CreatedRow(before: Db, caps: Capabilities, w: World, who: Identity, req: Orchestrator.FlowRequest,
      ai: Orchestrator.AiOutcome)
    requires Inv(before, caps, w.now)
    requires Orchestrator.CreateSpec(before, caps, w, who, req, ai).Ok?
    ensures var (db, id) := Orchestrator.CreateSpec(before, caps, w, who, req, ai).value;
            id < |db.workflows| && db.workflows[id].user == who.user && db.workflows[id].key == req.key
                && db.workflows[id].fingerprint == req.fingerprint
  {
    var (db, id) := Orchestrator.CreateSpec(before, caps, w, who, req, ai).value;
    if Orchestrator.FindFlow(before.workflows, who.user, req.key).None? {
      hide Orchestrator.ProcessSpec;
      var db1 := Orchestrator.ReceiveSpec(before, who, req);
      FlowSafety.ReceiveKept(before, who, req, caps, w.now);
      FlowSafety.ProcessKept(db1, caps, w, who, req, ai, id);
      assert FlowEvolves(db1.workflows[id], db.workflows[id]);
    }
  }

  lemma LaterClock(db: Db, caps: Capabilities, clock: Time, now: Time)
    requires Inv(db, caps, clock) && clock <= now
    ensures Inv(db, caps, now)
  {
    AuthoritySafety.Idle(db, caps, clock, now);
  }
}
