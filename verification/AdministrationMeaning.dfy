/** Who may grant, revoke, approve and reject in every reachable state, said of the rows: exactly when
    each call succeeds, the error of every other case, and every row it leaves behind. */
module AdministrationMeaning {
  import opened Common
  import opened Scopes
  import opened AuthorityStore
  import opened PermissionsEngine
  import opened PermissionAdministration
  import opened AuthorityInvariant
  import opened AuthorityRuns
  import opened AuthorizationMeaning
  import TaskEngine
  import Orchestrator

  // ---------------------------------------------------------------- confirmations

  /** The caller is stepped up, and the confirmation is the caller's and not past its expiry. */
  ghost predicate MayAnswer(db: Db, w: World, who: Identity, id: Id) {
    && who.aal2 && id < |db.confirmations| && db.confirmations[id].user == who.user
    && w.now < db.confirmations[id].expiresAt
  }

  /** Why a confirmation cannot be answered at all. */
  ghost predicate CannotAnswer(db: Db, w: World, who: Identity, id: Id, e: Error) {
    if !who.aal2 then e == StepUpRequired
    else if id >= |db.confirmations| || db.confirmations[id].user != who.user then e == ConfirmationMissing
    else w.now >= db.confirmations[id].expiresAt && e == ConfirmationTooLate
  }

  /** The tables after a pending confirmation was answered: it alone changes, and with an approval
      the ONCE permission it is for. */
  ghost predicate AnsweredWith(db: Db, r: Db, id: Id, row: Confirmation, approvedAt: Option<Time>)
    requires id < |db.confirmations|
  {
    && r == db.(permissions := r.permissions, confirmations := r.confirmations)
    && |r.confirmations| == |db.confirmations| && r.confirmations[id] == row
    && (forall c | 0 <= c < |db.confirmations| && c != id :: r.confirmations[c] == db.confirmations[c])
    && |r.permissions| == |db.permissions|
    && (forall p | 0 <= p < |db.permissions| :: r.permissions[p] ==
          if approvedAt.Some? && p == db.confirmations[id].permission && db.permissions[p].policy == Once
          then db.permissions[p].(confirmedOnceAt := approvedAt) else db.permissions[p])
  }

  ghost predicate ApproveMeans(db: Db, w: World, who: Identity, id: Id, r: Outcome<Db>) {
    && (r.Ok? <==>
          && MayAnswer(db, w, who, id)
          && (db.confirmations[id].status == Pending || db.confirmations[id].status == Approved))
    && (r.Ok? && db.confirmations[id].status == Approved ==> r.value == db)
    && (r.Ok? && db.confirmations[id].status == Pending ==>
          AnsweredWith(db, r.value, id, db.confirmations[id].(status := Approved, confirmedAt := Some(w.now)),
                       Some(w.now)))
    && (r.Raised? ==>
          if !MayAnswer(db, w, who, id) then CannotAnswer(db, w, who, id, r.error)
          else r.error == if db.confirmations[id].status == Rejected then ConfirmationRefused else ConfirmationTooLate)
  }

  ghost predicate RejectMeans(db: Db, w: World, who: Identity, id: Id, r: Outcome<Db>) {
    && (r.Ok? <==> MayAnswer(db, w, who, id) && db.confirmations[id].status != Approved)
    && (r.Ok? && db.confirmations[id].status != Pending ==> r.value == db)
    && (r.Ok? && db.confirmations[id].status == Pending ==>
          AnsweredWith(db, r.value, id, db.confirmations[id].(status := Rejected, rejectedAt := Some(w.now)), None))
    && (r.Raised? ==>
          if !MayAnswer(db, w, who, id) then CannotAnswer(db, w, who, id, r.error) else r.error == ConfirmationRefused)
  }

  lemma ApproveSpelled(db: Db, caps: Capabilities, w: World, who: Identity, id: Id)
    requires InvRows(db, caps, w.now)
    ensures ApproveMeans(db, w, who, id, ApproveSpec(db, w, who, id))
  {
    if id < |db.confirmations| {
      assert ConfirmationOk(db, w.now, db.confirmations[id]);
    }
  }

  lemma RejectSpelled(db: Db, w: World, who: Identity, id: Id)
    ensures RejectMeans(db, w, who, id, RejectSpec(db, w, who, id))
  {
  }

  /** An approval succeeds exactly for its owner with step-up, in time, and while it is pending or
      already approved; what it asks about is never missing. */
  lemma ApproveTheorem(caps: Capabilities, calls: seq<Call>, w: World, who: Identity, id: Id)
    requires Chronological(calls + [Call(w, Approve(who, id))])
    ensures Chronological(calls)
    ensures var db, r := Run(caps, calls), Run(caps, calls + [Call(w, Approve(who, id))]);
            && ApproveMeans(db, w, who, id, ApproveSpec(db, w, who, id))
            && r == if ApproveSpec(db, w, who, id).Ok? then ApproveSpec(db, w, who, id).value else db
  {
    hide ApproveSpec;
    hide Run;
    OneMoreCall(caps, calls, Call(w, Approve(who, id)));
    hide InvRows;
    hide Balanced;
    hide InvTasks;
    hide InvFlows;
    ApproveSpelled(Run(caps, calls), caps, w, who, id);
  }

  /** A rejection succeeds exactly for its owner with step-up, in time, unless it was approved. */
  lemma RejectTheorem(caps: Capabilities, calls: seq<Call>, w: World, who: Identity, id: Id)
    requires Chronological(calls + [Call(w, Reject(who, id))])
    ensures Chronological(calls)
    ensures var db, r := Run(caps, calls), Run(caps, calls + [Call(w, Reject(who, id))]);
            && RejectMeans(db, w, who, id, RejectSpec(db, w, who, id))
            && r == if RejectSpec(db, w, who, id).Ok? then RejectSpec(db, w, who, id).value else db
  {
    hide RejectSpec;
    hide Run;
    OneMoreCall(caps, calls, Call(w, Reject(who, id)));
    hide Inv;
    RejectSpelled(Run(caps, calls), w, who, id);
  }

  // ---------------------------------------------------------------- permissions

  /** An unexpired ACTIVE permission of the caller with exactly the requested terms but its expiry. */
  predicate Stands(p: Permission, who: Identity, req: GrantRequest, now: Time) {
    && p.user == who.user && p.capability == req.capability && p.device == req.device && p.scope == req.scope
    && p.policy == req.policy && p.autoExecute == req.autoExecute && p.status == Active
    && (p.expiresAt.None? || now < p.expiresAt.value)
  }

  /** The error of a grant, or None if it is made. */
  ghost predicate GrantRefused(caps: Capabilities, w: World, who: Identity, req: GrantRequest, e: Option<Error>) {
    if !who.aal2 then e == Some(StepUpRequired)
    else if req.expiresAt.Some? && req.expiresAt.value <= w.now then e == Some(InvalidPermissionData)
    else if req.capability !in caps then e == Some(UnknownCapability)
    else if !caps[req.capability].enabled then e == Some(DisabledCapability)
    else if !InVocabulary(caps[req.capability], req.scope.operations) then e == Some(ActionRefused)
    else if req.device.Some? && (req.device.value !in w.devices || w.devices[req.device.value].owner != who.user)
    then e == Some(DeviceMissing)
    else if req.device.Some? && w.devices[req.device.value].revoked then e == Some(DeviceUnusable)
    else e.None?
  }

  /** Rows of the requested terms that are ACTIVE, whatever their expiry. */
  predicate SameTerms(p: Permission, who: Identity, req: GrantRequest) {
    && p.user == who.user && p.capability == req.capability && p.device == req.device && p.scope == req.scope
    && p.policy == req.policy && p.autoExecute == req.autoExecute && p.status == Active
  }

  /** Two ACTIVE rows with the same terms but their expiry. */
  predicate Twins(p: Permission, q: Permission) {
    && p.status == Active && q.status == Active && p.user == q.user && p.capability == q.capability
    && p.device == q.device && p.scope == q.scope && p.policy == q.policy && p.autoExecute == q.autoExecute
  }

  ghost predicate NoTwins(perms: seq<Permission>) {
    forall i, j | 0 <= i < j < |perms| :: !Twins(perms[i], perms[j])
  }

  /** A new row with the requested terms, valid from now on. */
  ghost predicate FreshGrant(p: Permission, w: World, who: Identity, req: GrantRequest) {
    && p.user == who.user && p.capability == req.capability && p.device == req.device && p.scope == req.scope
    && p.policy == req.policy && p.autoExecute == req.autoExecute && p.expiresAt == req.expiresAt
    && p.status == Active && p.grantedAt == w.now && p.uuid == w.uuid
    && p.revokedAt.None? && p.confirmedOnceAt.None? && p.lastUsedAt.None?
  }

  /** What a grant that is not refused does: a standing grant answers it; otherwise a row is added, and
      an overdue row of the same terms is marked EXPIRED. */
  ghost predicate Granted(db: Db, w: World, who: Identity, req: GrantRequest, r: Db, id: Id) {
    && r == db.(permissions := r.permissions) && id < |r.permissions|
    && (if exists p | 0 <= p < |db.permissions| :: Stands(db.permissions[p], who, req, w.now) then
          r == db && Stands(db.permissions[id], who, req, w.now)
        else
          && id == |db.permissions| && |r.permissions| == |db.permissions| + 1
          && FreshGrant(r.permissions[id], w, who, req)
          && (forall p | 0 <= p < |db.permissions| :: r.permissions[p] ==
                if SameTerms(db.permissions[p], who, req) then db.permissions[p].(status := Expired)
                else db.permissions[p]))
  }

  ghost predicate GrantMeans(db: Db, caps: Capabilities, w: World, who: Identity, req: GrantRequest,
      r: Outcome<(Db, Id)>)
  {
    && GrantRefused(caps, w, who, req, if r.Raised? then Some(r.error) else None)
    && (r.Ok? ==> Granted(db, w, who, req, r.value.0, r.value.1))
  }

  lemma GrantSpelled(db: Db, caps: Capabilities, w: World, who: Identity, req: GrantRequest)
    requires NoTwins(db.permissions)
    ensures GrantMeans(db, caps, w, who, req, GrantSpec(db, caps, w, who, req))
  {
    hide AllowsOperations;
    hide InVocabulary;
    if req.capability in caps {
      VocabularySpelled(caps[req.capability], req.scope.operations);
    }
    var r := GrantSpec(db, caps, w, who, req);
    assert forall p :: SameGrant(p, who, req) <==> SameTerms(p, who, req);
    if r.Ok? {
      GrantedSpelled(db, caps, w, who, req);
    }
  }

  lemma GrantedSpelled(db: Db, caps: Capabilities, w: World, who: Identity, req: GrantRequest)
    requires NoTwins(db.permissions) && GrantSpec(db, caps, w, who, req).Ok?
    ensures Granted(db, w, who, req, GrantSpec(db, caps, w, who, req).value.0,
                    GrantSpec(db, caps, w, who, req).value.1)
  {
    hide AllowsOperations;
    var perms := db.permissions;
    var existing := ExistingGrant(perms, who, req);
    assert forall p :: SameGrant(p, who, req) <==> SameTerms(p, who, req);
    if existing.None? {
      assert forall p | 0 <= p < |perms| :: !SameTerms(perms[p], who, req);
    } else {
      assert SameTerms(perms[existing.value], who, req);
      forall p | 0 <= p < |perms| && SameTerms(perms[p], who, req) ensures p == existing.value {
        assert Twins(perms[p], perms[existing.value]);
      }
    }
  }

  // ---------------------------------------------------------------- no twins

  /** Rows that only evolve grow no twins. */
  lemma EvolveNoTwins(perms: seq<Permission>, later: seq<Permission>)
    requires NoTwins(perms) && PermissionsEvolve(perms, later) && |later| == |perms|
    ensures NoTwins(later)
  {
    forall i, j | 0 <= i < j < |later| ensures !Twins(later[i], later[j]) {
      assert PermissionEvolves(perms[i], later[i]) && PermissionEvolves(perms[j], later[j]);
      assert !Twins(perms[i], perms[j]);
    }
  }

  /** A grant adds no twin of a row that is still ACTIVE. */
  lemma GrantNoTwins(db: Db, caps: Capabilities, w: World, who: Identity, req: GrantRequest)
    requires NoTwins(db.permissions) && GrantSpec(db, caps, w, who, req).Ok?
    ensures NoTwins(GrantSpec(db, caps, w, who, req).value.0.permissions)
  {
    GrantedSpelled(db, caps, w, who, req);
    hide GrantSpec;
    var (r, id) := GrantSpec(db, caps, w, who, req).value;
    if r != db {
      var old_, new_ := db.permissions, r.permissions;
      forall i, j | 0 <= i < j < |new_| ensures !Twins(new_[i], new_[j]) {
        if j < |old_| {
          assert !Twins(old_[i], old_[j]);
        } else {
          assert Twins(new_[i], new_[j]) ==> SameTerms(old_[i], who, req);
        }
      }
    }
  }

  lemma EvaluateCounts(db: Db, caps: Capabilities, w: World, who: Identity, req: AuthorizationRequest)
    ensures |AuthorizeSpec(db, caps, w, who, req).permissions| == |db.permissions|
  {
    hide AuthorizeSpec;
    hide PermissionLeft;
    hide ConfirmationLeft;
    JudgeLeaves(db, caps, w, who, req);
  }

  lemma TaskCounts(db: Db, caps: Capabilities, w: World, who: Identity, req: TaskRequest, key: IdempotencyKey)
    ensures var r := TaskEngine.CreateSpec(db, caps, w, who, req, key);
            r.Ok? ==> |r.value.0.permissions| == |db.permissions|
  {
    hide AuthorizeSpec;
    var evaluated := if req.device.Some? then who.(device := req.device) else who;
    EvaluateCounts(db, caps, w, evaluated, AuthorizationRequest(req.capability, req.action, req.scope, None));
  }

  lemma ReevaluateCounts(db: Db, caps: Capabilities, w: World, who: Identity, id: Id, expected: nat)
    ensures var r := TaskEngine.ReevaluateSpec(db, caps, w, who, id, expected);
            r.Ok? ==> |r.value.permissions| == |db.permissions|
  {
    hide AuthorizeSpec;
    forall db: Db, who, req ensures |AuthorizeSpec(db, caps, w, who, req).permissions| == |db.permissions| {
      EvaluateCounts(db, caps, w, who, req);
    }
  }

  lemma ConcludeCounts(db: Db, w: World, id: Id, plan: Plan, task: Id, decision: Id)
    requires id < |db.workflows| && id < |db.steps| && task < |db.tasks| && decision < |db.decisions|
    requires |plan.actions| > 0
    ensures var r := Orchestrator.ConcludeSpec(db, w, id, plan, task, decision);
            r.Ok? ==> r.value.permissions == db.permissions
  {
  }

  lemma LinkCounts(db: Db, caps: Capabilities, w: World, who: Identity, req: Orchestrator.FlowRequest, id: Id,
      plan: Plan, payload: string)
    requires id < |db.workflows| && id < |db.steps| && |plan.actions| == 1
    ensures var r := Orchestrator.LinkSpec(db, caps, w, who, req, id, plan, payload);
            r.Ok? ==> |r.value.permissions| == |db.permissions|
  {
    hide TaskEngine.CreateSpec;
    hide Orchestrator.ConcludeSpec;
    var db1 := db.(plans := db.plans[id := StoredPlan(plan, payload)]);
    var moved := Orchestrator.MoveSpec(db1, id, db1.workflows[id].(plan := Some(plan)), PlanValidated);
    if moved.Ok? {
      var proposal, key := Orchestrator.TaskProposal(id, who, req, plan.actions[0]), TaskEngine.FlowKey(id);
      TaskCounts(moved.value, caps, w, who, proposal, key);
      var made := TaskEngine.CreateSpec(moved.value, caps, w, who, proposal, key);
      if made.Ok? && made.value.1.task.Some? && made.value.1.decision.Some? {
        ConcludeCounts(made.value.0, w, id, plan, made.value.1.task.value, made.value.1.decision.value);
      }
    }
  }

  lemma ProposeCounts(db: Db, caps: Capabilities, w: World, who: Identity, req: Orchestrator.FlowRequest,
      plan: Option<Plan>, payload: string, id: Id)
    requires id < |db.workflows| && id < |db.steps|
    ensures var r := Orchestrator.ProposeSpec(db, caps, w, who, req, plan, payload, id);
            r.Ok? ==> |r.value.permissions| == |db.permissions|
  {
    hide Orchestrator.LinkSpec;
    hide CapabilityAllows;
    if plan.Some? && |plan.value.actions| == 1 {
      var routed := Orchestrator.MoveSpec(db, id, db.workflows[id], Routed);
      if routed.Ok? {
        var row := routed.value.workflows[id];
        var proposed := Orchestrator.MoveSpec(routed.value, id, row, ProposalGenerated);
        if proposed.Ok? {
          LinkCounts(proposed.value, caps, w, who, req, id, plan.value, payload);
        }
      }
    }
  }

  lemma ProcessCounts(db: Db, caps: Capabilities, w: World, who: Identity, req: Orchestrator.FlowRequest,
      ai: Orchestrator.AiOutcome, id: Id)
    requires id < |db.workflows| && id < |db.steps|
    ensures var r := Orchestrator.ProcessSpec(db, caps, w, who, req, ai, id);
            r.Ok? ==> |r.value.permissions| == |db.permissions|
  {
    hide AuthorizeSpec;
    hide Orchestrator.ProposeSpec;
    hide Orchestrator.PermitsIntent;
    EvaluateCounts(db, caps, w, who, Orchestrator.MEMORY_READ);
    var db1 := Orchestrator.ContextSpec(db, caps, w, who, req.useMemory).0;
    var prepared := Orchestrator.MoveSpec(db1, id, db1.workflows[id], ContextPrepared);
    if prepared.Ok? && ai.Answered? {
      ProposeCounts(prepared.value, caps, w, who, req, ai.plan, ai.payload, id);
    }
  }

  lemma CreateCounts(db: Db, caps: Capabilities, w: World, who: Identity, req: Orchestrator.FlowRequest,
      ai: Orchestrator.AiOutcome)
    requires |db.steps| == |db.workflows|
    ensures var r := Orchestrator.CreateSpec(db, caps, w, who, req, ai);
            r.Ok? ==> |r.value.0.permissions| == |db.permissions|
  {
    hide Orchestrator.ProcessSpec;
    ProcessCounts(Orchestrator.ReceiveSpec(db, who, req), caps, w, who, req, ai, |db.workflows|);
  }

  lemma SettleCounts(db: Db, caps: Capabilities, w: World, who: Identity, id: Id, task: Id, reparsed: Option<Plan>)
    requires id < |db.workflows| && id < |db.steps| && task < |db.tasks|
    ensures var r := Orchestrator.ResumeTaskSpec(db, caps, w, who, id, task, reparsed);
            r.Ok? ==> |r.value.permissions| == |db.permissions|
  {
    hide TaskEngine.ReevaluateSpec;
    hide Orchestrator.ConcludeSpec;
    ReevaluateCounts(db, caps, w, who, task, db.tasks[task].version);
    var again := TaskEngine.ReevaluateSpec(db, caps, w, who, task, db.tasks[task].version);
    var plan := Orchestrator.LoadPlanSpec(db, id, reparsed);
    if again.Ok? && plan.Some? && |plan.value.actions| > 0 {
      var decision := again.value.tasks[task].decision;
      if decision < |again.value.decisions| {
        ConcludeCounts(again.value, w, id, plan.value, task, decision);
      }
    }
  }

  lemma ResumeCounts(db: Db, caps: Capabilities, w: World, who: Identity, id: Id, expected: nat,
      reparsed: Option<Plan>)
    requires |db.steps| == |db.workflows|
    ensures var r := Orchestrator.ResumeSpec(db, caps, w, who, id, expected, reparsed);
            r.Ok? ==> |r.value.permissions| == |db.permissions|
  {
    hide Orchestrator.ResumeTaskSpec;
    hide TaskEngine.GetSpec;
    forall db: Db, task: Id ensures
        && var r := TaskEngine.GetSpec(db, w, who, task); (r.Ok? ==> r.value.permissions == db.permissions) {
      MoveCounts(db, w, who, task, 0, Completed);
    }
    forall db: Db, task: Id | id < |db.workflows| && id < |db.steps| && task < |db.tasks|
      ensures Orchestrator.ResumeTaskSpec(db, caps, w, who, id, task, reparsed).Ok? ==>
          |Orchestrator.ResumeTaskSpec(db, caps, w, who, id, task, reparsed).value.permissions| == |db.permissions| {
      SettleCounts(db, caps, w, who, id, task, reparsed);
    }
  }

  /** Calls on tasks and workflows that evaluate nothing. */
  lemma MoveCounts(db: Db, w: World, who: Identity, id: Id, expected: nat, target: TaskStatus)
    requires target == Completed || target == TaskFailed
    ensures var r := TaskEngine.GetSpec(db, w, who, id); r.Ok? ==> r.value.permissions == db.permissions
    ensures var r := TaskEngine.CancelSpec(db, w, who, id, expected); r.Ok? ==> r.value.permissions == db.permissions
    ensures var r := TaskEngine.ClaimSpec(db, w, id, expected); r.Ok? ==> r.value.permissions == db.permissions
    ensures var r := TaskEngine.FinishSpec(db, id, target, expected); r.Ok? ==> r.value.permissions == db.permissions
  {
  }

  lemma CancelTaskCounts(db: Db, w: World, who: Identity, task: Id)
    ensures var r := Orchestrator.CancelTaskSpec(db, w, who, task); r.Ok? ==> r.value.permissions == db.permissions
  {
    hide TaskEngine.GetSpec;
    hide TaskEngine.CancelSpec;
    MoveCounts(db, w, who, task, 0, Completed);
    var got := TaskEngine.GetSpec(db, w, who, task);
    if got.Ok? {
      MoveCounts(got.value, w, who, task, got.value.tasks[task].version, Completed);
    }
  }

  lemma FlowCounts(db: Db, w: World, who: Identity, id: Id, expected: nat)
    requires |db.steps| == |db.workflows|
    ensures var r := Orchestrator.GetSpec(db, w, who, id); r.Ok? ==> r.value.permissions == db.permissions
    ensures var r := Orchestrator.CancelSpec(db, w, who, id, expected); r.Ok? ==> r.value.permissions == db.permissions
  {
    hide Orchestrator.CancelTaskSpec;
    if id < |db.workflows| {
      var db1 := Orchestrator.ExpireSpec(db, id, w.now).0;
      if db1.workflows[id].task.Some? {
        CancelTaskCounts(db1, w, who, db1.workflows[id].task.value);
      }
    }
  }

  /** Only a grant adds a permission. */
  lemma ApplyCounts(db: Db, caps: Capabilities, call: Call)
    requires |db.steps| == |db.workflows| && !call.command.Grant?
    ensures |Apply(db, caps, call).permissions| == |db.permissions|
  {
    hide AuthorizeSpec;
    hide TaskEngine.CreateSpec;
    hide TaskEngine.GetSpec;
    hide TaskEngine.CancelSpec;
    hide TaskEngine.ClaimSpec;
    hide TaskEngine.FinishSpec;
    hide Orchestrator.CreateSpec;
    hide Orchestrator.GetSpec;
    hide Orchestrator.CancelSpec;
    hide Orchestrator.ResumeSpec;
    var w := call.world;
    match call.command {
      case Evaluate(who, req) => EvaluateCounts(db, caps, w, who, req);
      case CreateTask(who, req, key) => TaskCounts(db, caps, w, who, req, key);
      case GetTask(who, id) => MoveCounts(db, w, who, id, 0, Completed);
      case CancelTask(who, id, expected) => MoveCounts(db, w, who, id, expected, Completed);
      case ClaimTask(id, expected) => MoveCounts(db, w, Identity(0, 0, None, false), id, expected, Completed);
      case FinishTask(id, succeeded, expected) =>
        MoveCounts(db, w, Identity(0, 0, None, false), id, expected, if succeeded then Completed else TaskFailed);
      case CreateFlow(who, req, ai) => CreateCounts(db, caps, w, who, req, ai);
      case GetFlow(who, id) => FlowCounts(db, w, who, id, 0);
      case CancelFlow(who, id, expected) => FlowCounts(db, w, who, id, expected);
      case ResumeFlow(who, id, expected, reparsed) => ResumeCounts(db, caps, w, who, id, expected, reparsed);
      case _ =>
    }
  }

  lemma ApplyNoTwins(db: Db, caps: Capabilities, call: Call)
    requires |db.steps| == |db.workflows| && NoTwins(db.permissions)
    requires PermissionsEvolve(db.permissions, Apply(db, caps, call).permissions)
    ensures NoTwins(Apply(db, caps, call).permissions)
  {
    hide GrantSpec;
    hide NoTwins;
    if call.command.Grant? {
      if GrantSpec(db, caps, call.world, call.command.who, call.command.grant).Ok? {
        GrantNoTwins(db, caps, call.world, call.command.who, call.command.grant);
      }
    } else {
      hide Apply;
      ApplyCounts(db, caps, call);
      EvolveNoTwins(db.permissions, Apply(db, caps, call).permissions);
    }
  }

  /** In no reachable state are there two ACTIVE permissions with the same terms but their expiry. */
  lemma {:induction false} NoTwinsTheorem(caps: Capabilities, calls: seq<Call>)
    requires Chronological(calls)
    ensures NoTwins(Run(caps, calls).permissions)
  {
    hide Apply;
    hide Inv;
    hide NoTwins;
    if calls == [] {
      assert NoTwins([]) by {
        Nobody();
      }
    } else {
      var n := |calls| - 1;
      NoTwinsTheorem(caps, calls[..n]);
      LastCall(caps, calls);
      assert calls[..n + 1] == calls;
      NextCall(caps, calls, n);
      ApplyNoTwins(Run(caps, calls[..n]), caps, calls[n]);
    }
  }

  lemma Nobody()
    ensures NoTwins([])
  {
  }

  // ---------------------------------------------------------------- theorems on permissions

  /** A grant in every reachable state: the error of every case in which it is refused, and otherwise
      the standing grant that answers it or the new row. */
  lemma GrantTheorem(caps: Capabilities, calls: seq<Call>, w: World, who: Identity, req: GrantRequest)
    requires Chronological(calls + [Call(w, Grant(who, req))])
    ensures Chronological(calls)
    ensures var db, r := Run(caps, calls), Run(caps, calls + [Call(w, Grant(who, req))]);
            var g := GrantSpec(db, caps, w, who, req);
            GrantMeans(db, caps, w, who, req, g) && r == if g.Ok? then g.value.0 else db
  {
    hide GrantSpec;
    hide GrantMeans;
    hide Run;
    OneMoreCall(caps, calls, Call(w, Grant(who, req)));
    hide Inv;
    NoTwinsTheorem(caps, calls);
    hide NoTwins;
    GrantSpelled(Run(caps, calls), caps, w, who, req);
  }

  /** The row is overdue: ACTIVE past its expiry. */
  predicate Overdue(p: Permission, now: Time) {
    p.status == Active && p.expiresAt.Some? && now >= p.expiresAt.value
  }

  /** Revoking and listing in every reachable state: the owner alone revokes, nothing but that row
      changes and an earlier revocation keeps its instant; listing marks the caller's overdue rows. */
  lemma RevokeTheorem(caps: Capabilities, calls: seq<Call>, w: World, who: Identity, id: Id)
    requires Chronological(calls + [Call(w, Revoke(who, id))])
    ensures Chronological(calls)
    ensures var db, r := Run(caps, calls), Run(caps, calls + [Call(w, Revoke(who, id))]);
            var mine := id < |db.permissions| && db.permissions[id].user == who.user;
            && (RevokeSpec(db, w, who, id) == if mine then Ok(r) else Raised(PermissionMissing))
            && r == db.(permissions := r.permissions) && |r.permissions| == |db.permissions|
            && (forall p | 0 <= p < |db.permissions| :: r.permissions[p] ==
                  if mine && p == id && db.permissions[p].status != Revoked
                  then db.permissions[p].(status := Revoked, revokedAt := Some(w.now)) else db.permissions[p])
  {
    hide Run;
    OneMoreCall(caps, calls, Call(w, Revoke(who, id)));
    hide Inv;
  }

  lemma ListTheorem(caps: Capabilities, calls: seq<Call>, w: World, who: Identity)
    requires Chronological(calls + [Call(w, ListPermissions(who))])
    ensures Chronological(calls)
    ensures var db, r := Run(caps, calls), Run(caps, calls + [Call(w, ListPermissions(who))]);
            && r == db.(permissions := r.permissions) && |r.permissions| == |db.permissions|
            && (forall p | 0 <= p < |db.permissions| :: r.permissions[p] ==
                  if db.permissions[p].user == who.user && Overdue(db.permissions[p], w.now)
                  then db.permissions[p].(status := Expired) else db.permissions[p])
  {
    hide Run;
    OneMoreCall(caps, calls, Call(w, ListPermissions(who)));
    hide Inv;
  }
}
