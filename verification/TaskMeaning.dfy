/** What the calls on tasks do in every reachable state, said of the rows: exactly when each
    succeeds, the error of every other case, and the row it leaves behind. */
module TaskMeaning {
  import opened Common
  import opened AuthorityStore
  import opened PermissionsEngine
  import opened TaskEngine
  import opened AuthorityInvariant
  import opened AuthorityRuns
  import opened AuthorizationMeaning

  predicate Over(t: Task) {
    t.status == Completed || t.status == TaskFailed || t.status == TaskCancelled || t.status == TaskExpired
  }

  /** Not over, and at or past the deadline. */
  predicate Overdue(t: Task, now: Time) {
    !Over(t) && t.request.expiresAt.Some? && now >= t.request.expiresAt.value
  }

  /** Only this row of the store changes. */
  ghost predicate OnlyRow(db: Db, r: Db, id: Id, row: Task) {
    && id < |db.tasks| && r == db.(tasks := r.tasks) && |r.tasks| == |db.tasks|
    && (forall t | 0 <= t < |db.tasks| && t != id :: r.tasks[t] == db.tasks[t])
    && r.tasks[id] == row
  }

  /** What a call on an existing task does once the deadline is reached: the task expires, unless
      it is running, where no deadline can be observed. */
  ghost predicate DeadlineMeans(db: Db, id: Id, r: Outcome<Db>)
    requires id < |db.tasks|
  {
    var t := db.tasks[id];
    if t.status == Running then r == Raised(TaskTransitionInvalid)
    else r.Ok? && OnlyRow(db, r.value, id, t.(status := TaskExpired, version := t.version + 1))
  }

  ghost predicate GetMeans(db: Db, now: Time, who: Identity, id: Id, r: Outcome<Db>) {
    if id >= |db.tasks| || db.tasks[id].user != who.user then r == Raised(TaskMissing)
    else if Overdue(db.tasks[id], now) then DeadlineMeans(db, id, r)
    else r == Ok(db)
  }

  /** A claim: a QUEUED task at the expected version starts its first attempt. */
  ghost predicate ClaimMeans(db: Db, now: Time, id: Id, expected: nat, r: Outcome<Db>) {
    if id >= |db.tasks| then r == Raised(TaskMissing)
    else
      var t := db.tasks[id];
      if Overdue(t, now) then DeadlineMeans(db, id, r)
      else
        && (r.Ok? <==> t.status == Queued && t.version == expected)
        && (r.Ok? ==> OnlyRow(db, r.value, id, t.(status := Running, attempts := [AttemptRunning],
                                                  version := t.version + 1)))
        && (r.Raised? ==> r.error == if t.status == Queued then TaskConflict else TaskNotClaimable)
  }

  /** A cancellation: it succeeds on a cancelled task, and at the expected version on one that is
      queued or waiting. */
  ghost predicate CancelMeans(db: Db, now: Time, who: Identity, id: Id, expected: nat, r: Outcome<Db>) {
    if id >= |db.tasks| || db.tasks[id].user != who.user then r == Raised(TaskMissing)
    else
      var t := db.tasks[id];
      if Overdue(t, now) then DeadlineMeans(db, id, r)
      else if t.status == TaskCancelled then r == Ok(db)
      else
        && (r.Ok? <==> (t.status == Queued || t.status == TaskWaitingPermission || t.status == TaskWaitingConfirmation)
                       && t.version == expected)
        && (r.Ok? ==> OnlyRow(db, r.value, id, t.(status := TaskCancelled, version := t.version + 1)))
        && (r.Raised? ==> r.error == if Over(t) then TaskTerminal
                                     else if t.status == Running then TaskTransitionInvalid else TaskConflict)
  }

  /** Completing or failing: a RUNNING task at the expected version ends with its attempt. */
  ghost predicate FinishMeans(db: Db, id: Id, succeeded: bool, expected: nat, r: Outcome<Db>) {
    if id >= |db.tasks| then r == Raised(TaskMissing)
    else
      var t := db.tasks[id];
      && (r.Ok? <==> t.status == Running && t.version == expected)
      && (r.Ok? ==>
            OnlyRow(db, r.value, id,
                    t.(status := if succeeded then Completed else TaskFailed,
                       attempts := [if succeeded then AttemptCompleted else AttemptFailed], version := t.version + 1)))
      && (r.Raised? ==> r.error == if t.status == Running then TaskConflict
                                   else if Over(t) then TaskTerminal else TaskTransitionInvalid)
  }

  // ---------------------------------------------------------------- creation

  /** The reasons of a DENY that a later grant can cure. */
  predicate Curable(r: Reason) {
    r in {NoPermission, PermissionRevoked, PermissionExpired, ScopeMismatch, DeviceScopeMismatch}
  }

  /** The status a decision gives a task, or None if it gives none. */
  ghost predicate StatusFor(d: Decision, s: Option<TaskStatus>) {
    && (s == Some(Queued) <==> d.kind == Allow)
    && (s == Some(TaskWaitingConfirmation) <==> d.kind == RequireConfirmation)
    && (s == Some(TaskWaitingPermission) <==> d.kind == Deny && Curable(d.reason))
    && (s.None? <==> d.kind == Deny && !Curable(d.reason))
  }

  predicate OwnDevice(w: World, who: Identity, device: Id) {
    device in w.devices && w.devices[device].owner == who.user && !w.devices[device].revoked
  }

  /** Why a proposal is refused with an error. */
  ghost predicate ProposalError(db: Db, w: World, who: Identity, req: TaskRequest, e: Option<Error>) {
    if req.parent.Some? && !(req.parent.value < |db.tasks| && db.tasks[req.parent.value].user == who.user)
    then e == Some(TaskMissing)
    else if req.device.Some? && !OwnDevice(w, who, req.device.value) then e == Some(TaskDeviceInvalid)
    else e.None?
  }

  /** A request evaluated for a task: the new decision answers it, with everything an evaluation
      leaves behind. */
  ghost predicate Evaluated(db: Db, caps: Capabilities, w: World, who: Identity, req: AuthorizationRequest, r: Db) {
    && |r.decisions| == |db.decisions| + 1
    && var d := r.decisions[|db.decisions|];
       Answers(db, caps, w, who, req, d) && Leaves(db, caps, w, who, req, d, r)
  }

  /** The task of a fresh decision. */
  ghost predicate NewTask(db: Db, r: Db, who: Identity, req: TaskRequest, key: IdempotencyKey, c: Creation) {
    var n, d := |db.tasks|, |db.decisions|;
    && d < |r.decisions| && c.decision == Some(d)
    && (forall t | 0 <= t < n :: t < |r.tasks| && r.tasks[t] == db.tasks[t])
    && (exists s :: StatusFor(r.decisions[d], s) && TaskRow(db, r, who, req, key, c.task, s))
  }

  /** The row of a task with this status; no row if there is none. */
  ghost predicate TaskRow(db: Db, r: Db, who: Identity, req: TaskRequest, key: IdempotencyKey, task: Option<Id>,
      s: Option<TaskStatus>)
  {
    var n, d := |db.tasks|, |db.decisions|;
    && d < |r.decisions|
    && (s.None? ==> task.None? && |r.tasks| == n)
    && (s.Some? ==>
          && task == Some(n) && |r.tasks| == n + 1
          && r.tasks[n] == Task(who.user, req, s.value, key, d,
                                if r.decisions[d].kind == RequireConfirmation then Some(|db.confirmations|) else None,
                                [], 1))
  }

  /** Creating a task: a used key replays or conflicts, an overdue or ill-formed proposal is refused,
      and any other is evaluated for exactly what it asks. */
  ghost predicate CreateMeans(db: Db, caps: Capabilities, w: World, who: Identity, req: TaskRequest,
      key: IdempotencyKey, r: Outcome<(Db, Creation)>)
  {
    if exists t | 0 <= t < |db.tasks| :: db.tasks[t].user == who.user && db.tasks[t].key == key then
      exists t: Id :: && t < |db.tasks| && db.tasks[t].user == who.user && db.tasks[t].key == key
                  && r == if db.tasks[t].request == req then Ok((db, Creation(Some(t), Some(db.tasks[t].decision))))
                          else Raised(TaskKeyConflict)
    else if req.expiresAt.Some? && w.now >= req.expiresAt.value then r == Ok((db, Creation(None, None)))
    else
      && ProposalError(db, w, who, req, if r.Raised? then Some(r.error) else None)
      && (r.Ok? ==>
            var as_ := if req.device.Some? then who.(device := req.device) else who;
            && Evaluated(db, caps, w, as_, AuthorizationRequest(req.capability, req.action, req.scope, None),
                         r.value.0.(tasks := db.tasks))
            && NewTask(db, r.value.0, who, req, key, r.value.1))
  }

  /** The status of a waiting task after a fresh decision: FAILED if the denial has no cure. */
  ghost predicate FreshStatus(d: Decision, s: TaskStatus) {
    StatusFor(d, Some(s)) || (s == TaskFailed && StatusFor(d, None))
  }

  /** The task after a fresh decision put it into another status. */
  ghost predicate Reassessed(t: Task, u: Task, s: TaskStatus, decision: Id, asked: Option<Id>) {
    u == t.(status := s, decision := decision, confirmation := if asked.Some? then asked else t.confirmation,
            version := t.version + 1)
  }

  /** Evaluating a waiting task again: for its own proposal, on its own device, with the confirmation
      it has. The row changes, at the expected version, exactly if its status does. */
  ghost predicate ReevaluateMeans(db: Db, caps: Capabilities, w: World, who: Identity, id: Id, expected: nat,
      r: Outcome<Db>)
  {
    if id >= |db.tasks| || db.tasks[id].user != who.user then r == Raised(TaskMissing)
    else
      var t := db.tasks[id];
      if Overdue(t, w.now) then DeadlineMeans(db, id, r)
      else if t.status != TaskWaitingPermission && t.status != TaskWaitingConfirmation
      then r == Raised(TaskTransitionInvalid)
      else exists evaluated: Db, s: TaskStatus :: AgainMeans(db, caps, w, who, id, expected, evaluated, s, r)
  }

  ghost predicate AgainMeans(db: Db, caps: Capabilities, w: World, who: Identity, id: Id, expected: nat,
      evaluated: Db, s: TaskStatus, r: Outcome<Db>)
    requires id < |db.tasks|
  {
    var t, d := db.tasks[id], |db.decisions|;
    && Evaluated(db, caps, w, who.(device := t.request.device),
                 AuthorizationRequest(t.request.capability, t.request.action, t.request.scope, t.confirmation),
                 evaluated)
    && FreshStatus(evaluated.decisions[d], s)
    && (if s == t.status then r == Ok(evaluated)
        else if t.version != expected then r == Raised(TaskConflict)
        else
          && r.Ok? && id < |r.value.tasks| && OnlyRow(evaluated, r.value, id, r.value.tasks[id])
          && Reassessed(t, r.value.tasks[id], s, d,
                        if evaluated.decisions[d].kind == RequireConfirmation then Some(|db.confirmations|) else None))
  }

  // ---------------------------------------------------------------- proofs

  lemma GetSpelled(db: Db, w: World, who: Identity, id: Id)
    requires InvTasks(db)
    ensures GetMeans(db, w.now, who, id, GetSpec(db, w, who, id))
  {
    if id < |db.tasks| {
      assert TaskOk(db, db.tasks[id]);
      hide InvTasks;
    }
  }

  lemma ClaimSpelled(db: Db, w: World, id: Id, expected: nat)
    requires InvTasks(db)
    ensures ClaimMeans(db, w.now, id, expected, ClaimSpec(db, w, id, expected))
  {
    if id < |db.tasks| {
      assert TaskOk(db, db.tasks[id]);
      hide InvTasks;
    }
  }

  lemma CancelSpelled(db: Db, w: World, who: Identity, id: Id, expected: nat)
    requires InvTasks(db)
    ensures CancelMeans(db, w.now, who, id, expected, CancelSpec(db, w, who, id, expected))
  {
    if id < |db.tasks| {
      assert TaskOk(db, db.tasks[id]);
      hide InvTasks;
    }
  }

  lemma FinishSpelled(db: Db, id: Id, succeeded: bool, expected: nat)
    requires InvTasks(db)
    ensures FinishMeans(db, id, succeeded, expected,
                        FinishSpec(db, id, if succeeded then Completed else TaskFailed, expected))
  {
    if id < |db.tasks| {
      assert TaskOk(db, db.tasks[id]);
      assert RunningAttempt([AttemptRunning]) == Some(0);
      hide InvTasks;
      hide RunningAttempt;
    }
  }

  lemma EvaluatedSpelled(db: Db, caps: Capabilities, w: World, who: Identity, req: AuthorizationRequest)
    ensures Evaluated(db, caps, w, who, req, AuthorizeSpec(db, caps, w, who, req))
  {
    hide Judge;
    hide Answers;
    hide Leaves;
    JudgeSpelled(db, caps, w, who, req);
    JudgeLeaves(db, caps, w, who, req);
  }

  /** What an evaluation says about the confirmations table. */
  lemma EvaluatedAsks(db: Db, caps: Capabilities, w: World, who: Identity, req: AuthorizationRequest)
    ensures var r := AuthorizeSpec(db, caps, w, who, req);
            AskedConfirmation(r) == if r.decisions[|db.decisions|].kind == RequireConfirmation
                                    then Some(|db.confirmations|) else None
  {
    hide AuthorizeSpec;
    hide PermissionLeft;
    hide ConfirmationLeft;
    hide Answers;
    EvaluatedSpelled(db, caps, w, who, req);
  }

  lemma InitialSpelled(d: Decision)
    ensures StatusFor(d, InitialState(d.kind, d.reason))
  {
  }

  lemma CreateSpelled(db: Db, caps: Capabilities, w: World, who: Identity, req: TaskRequest, key: IdempotencyKey)
    requires InvTasks(db)
    ensures CreateMeans(db, caps, w, who, req, key, CreateSpec(db, caps, w, who, req, key))
  {
    hide AuthorizeSpec;
    hide Evaluated;
    var existing := FindTask(db.tasks, who.user, key);
    if existing.Some? {
      assert TaskOk(db, db.tasks[existing.value]);
      hide InvTasks;
      hide FindTask;
    } else {
      hide InvTasks;
      FreshSpelled(db, caps, w, who, req, key);
    }
  }

  lemma FreshSpelled(db: Db, caps: Capabilities, w: World, who: Identity, req: TaskRequest, key: IdempotencyKey)
    requires FindTask(db.tasks, who.user, key).None?
    ensures CreateMeans(db, caps, w, who, req, key, CreateSpec(db, caps, w, who, req, key))
  {
    hide AuthorizeSpec;
    hide Evaluated;
    hide FindTask;
    hide StatusFor;
    hide InitialState;
    hide AskedConfirmation;
    var evaluated := if req.device.Some? then who.(device := req.device) else who;
    var ask := AuthorizationRequest(req.capability, req.action, req.scope, None);
    var db1 := AuthorizeSpec(db, caps, w, evaluated, ask);
    EvaluatedSpelled(db, caps, w, evaluated, ask);
    EvaluatedAsks(db, caps, w, evaluated, ask);
    var r := CreateSpec(db, caps, w, who, req, key);
    if r.Ok? && r.value.1.decision.Some? {
      var s := InitialState(db1.decisions[|db.decisions|].kind, db1.decisions[|db.decisions|].reason);
      InitialSpelled(db1.decisions[|db.decisions|]);
      assert TaskRow(db, r.value.0, who, req, key, r.value.1.task, s);
      assert r.value.0.(tasks := db.tasks) == db1;
    }
  }

  lemma AgainSpelled(db: Db, caps: Capabilities, w: World, who: Identity, id: Id, expected: nat)
    requires id < |db.tasks| && db.tasks[id].user == who.user && !Overdue(db.tasks[id], w.now)
    requires db.tasks[id].status == TaskWaitingPermission || db.tasks[id].status == TaskWaitingConfirmation
    ensures var t := db.tasks[id];
            var ask := AuthorizationRequest(t.request.capability, t.request.action, t.request.scope, t.confirmation);
            var evaluated := AuthorizeSpec(db, caps, w, who.(device := t.request.device), ask);
            var s := ReevaluatedStatus(evaluated.decisions[|db.decisions|]);
            AgainMeans(db, caps, w, who, id, expected, evaluated, s, ReevaluateSpec(db, caps, w, who, id, expected))
  {
    hide AuthorizeSpec;
    hide Evaluated;
    hide AskedConfirmation;
    var t := db.tasks[id];
    var ask := AuthorizationRequest(t.request.capability, t.request.action, t.request.scope, t.confirmation);
    EvaluatedSpelled(db, caps, w, who.(device := t.request.device), ask);
    EvaluatedAsks(db, caps, w, who.(device := t.request.device), ask);
    var evaluated := AuthorizeSpec(db, caps, w, who.(device := t.request.device), ask);
    FreshStatusSpelled(evaluated.decisions[|db.decisions|]);
    hide ReevaluatedStatus;
    hide FreshStatus;
  }

  lemma FreshStatusSpelled(d: Decision)
    ensures FreshStatus(d, ReevaluatedStatus(d))
    ensures ReevaluatedStatus(d) in {Queued, TaskWaitingConfirmation, TaskWaitingPermission, TaskFailed}
  {
  }

  lemma ReevaluateSpelled(db: Db, caps: Capabilities, w: World, who: Identity, id: Id, expected: nat)
    requires InvTasks(db)
    ensures ReevaluateMeans(db, caps, w, who, id, expected, ReevaluateSpec(db, caps, w, who, id, expected))
  {
    hide AuthorizeSpec;
    hide AgainMeans;
    if id < |db.tasks| && db.tasks[id].user == who.user {
      assert TaskOk(db, db.tasks[id]);
      hide InvTasks;
      var t := db.tasks[id];
      if !Overdue(t, w.now) && (t.status == TaskWaitingPermission || t.status == TaskWaitingConfirmation) {
        AgainSpelled(db, caps, w, who, id, expected);
      }
    }
  }

  // ---------------------------------------------------------------- theorems

  /** The calls on one task, in every reachable state. */
  lemma TaskCallTheorem(caps: Capabilities, calls: seq<Call>, w: World, who: Identity, id: Id, expected: nat,
      succeeded: bool)
    requires Chronological(calls)
    ensures var db := Run(caps, calls); var target := if succeeded then Completed else TaskFailed;
            && GetMeans(db, w.now, who, id, GetSpec(db, w, who, id))
            && ClaimMeans(db, w.now, id, expected, ClaimSpec(db, w, id, expected))
            && CancelMeans(db, w.now, who, id, expected, CancelSpec(db, w, who, id, expected))
            && FinishMeans(db, id, succeeded, expected, FinishSpec(db, id, target, expected))
  {
    hide *;
    var db := Run(caps, calls);
    assert InvTasks(db) by {
      TasksOk(caps, calls);
    }
    GetSpelled(db, w, who, id);
    ClaimSpelled(db, w, id, expected);
    CancelSpelled(db, w, who, id, expected);
    FinishSpelled(db, id, succeeded, expected);
  }

  lemma TasksOk(caps: Capabilities, calls: seq<Call>)
    requires Chronological(calls)
    ensures InvTasks(Run(caps, calls))
  {
    hide Run;
    hide InvTasks;
  }

  /** Creating a task in every reachable state. */
  lemma CreateTheorem(caps: Capabilities, calls: seq<Call>, w: World, who: Identity, req: TaskRequest,
      key: IdempotencyKey)
    requires Chronological(calls)
    ensures var db := Run(caps, calls);
            CreateMeans(db, caps, w, who, req, key, CreateSpec(db, caps, w, who, req, key))
  {
    hide *;
    TasksOk(caps, calls);
    CreateSpelled(Run(caps, calls), caps, w, who, req, key);
  }

  /** Evaluating a task again in every reachable state. */
  lemma ReevaluateTheorem(caps: Capabilities, calls: seq<Call>, w: World, who: Identity, id: Id, expected: nat)
    requires Chronological(calls)
    ensures var db := Run(caps, calls);
            ReevaluateMeans(db, caps, w, who, id, expected, ReevaluateSpec(db, caps, w, who, id, expected))
  {
    hide *;
    TasksOk(caps, calls);
    ReevaluateSpelled(Run(caps, calls), caps, w, who, id, expected);
  }
}
