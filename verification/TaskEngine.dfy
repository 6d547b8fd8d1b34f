/** The Task Engine (backend/app/tasks/service.py and state_machine.py). */
module TaskEngine {
  import opened Common
  import opened AuthorityStore
  import opened PermissionsEngine

  // ---------------------------------------------------------------- state machine

  predicate Terminal(s: TaskStatus) {
    s == Completed || s == TaskFailed || s == TaskCancelled || s == TaskExpired
  }

  /** The transition table. */
  function AllowedTargets(s: TaskStatus): set<TaskStatus> {
    match s
    case TaskPending => {Queued, WaitingConnection, TaskWaitingPermission, TaskWaitingConfirmation, TaskCancelled,
        TaskExpired}
    case Queued => {Running, WaitingConnection, TaskWaitingPermission, TaskWaitingConfirmation, TaskCancelled,
        TaskExpired}
    case WaitingConnection => {Queued, TaskCancelled, TaskExpired}
    case TaskWaitingPermission => {Queued, TaskWaitingConfirmation, TaskCancelled, TaskFailed, TaskExpired}
    case TaskWaitingConfirmation => {Queued, TaskWaitingPermission, TaskCancelled, TaskFailed, TaskExpired}
    case Running => {Completed, TaskFailed}
    case Completed => {}
    case TaskFailed => {}
    case TaskCancelled => {}
    case TaskExpired => {}
  }

  /** `_transition` on values: table check, then compare-and-set on the version. `row` is the
      task with the extra column values already in place. */
  function MoveSpec(db: Db, id: Id, row: Task, target: TaskStatus, expected: nat): Outcome<Db>
    requires id < |db.tasks|
  {
    if target !in AllowedTargets(db.tasks[id].status)
    then Raised(if Terminal(db.tasks[id].status) then TaskTerminal else TaskTransitionInvalid)
    else if db.tasks[id].version != expected then Raised(TaskConflict)
    else Ok(db.(tasks := db.tasks[id := row.(status := target, version := expected + 1)]))
  }

  /** `_expire_if_due` on values: whether the task expired just now. */
  function ExpireSpec(db: Db, id: Id, now: Time): Outcome<(Db, bool)>
    requires id < |db.tasks|
  {
    var t := db.tasks[id];
    if !Due(t.request.expiresAt, now) || Terminal(t.status) then Ok((db, false))
    else
      var db1 :- MoveSpec(db, id, t, TaskExpired, t.version);
      Ok((db1, true))
  }

  /** Observing a deadline raises in exactly one case: a RUNNING task has no EXPIRED successor,
      so while it is overdue every read that checks its deadline fails. */
  lemma ExpiryRaisesOnlyWhileRunning(db: Db, id: Id, now: Time)
    requires id < |db.tasks|
    ensures ExpireSpec(db, id, now).Raised? <==>
        db.tasks[id].status == Running && Due(db.tasks[id].request.expiresAt, now)
  {
  }

  /** Which DENY reasons a later grant can cure. */
  predicate Resolvable(r: Reason) {
    r == NoPermission || r == PermissionRevoked || r == PermissionExpired || r == ScopeMismatch
        || r == DeviceScopeMismatch
  }

  /** `_initial_state` */
  function InitialState(kind: Kind, reason: Reason): Option<TaskStatus> {
    match kind
    case Allow => Some(Queued)
    case RequireConfirmation => Some(TaskWaitingConfirmation)
    case Deny => if Resolvable(reason) then Some(TaskWaitingPermission) else None
  }

  // ---------------------------------------------------------------- operations on values

  /** The row with this idempotency key, if the user has one. */
  function FindTask(tasks: seq<Task>, user: Id, key: IdempotencyKey): (r: Option<Id>)
    ensures r.Some? ==> r.value < |tasks| && tasks[r.value].user == user && tasks[r.value].key == key
    ensures r.None? ==> forall i | 0 <= i < |tasks| :: !(tasks[i].user == user && tasks[i].key == key)
  {
    if tasks == [] then None
    else
      var last := |tasks| - 1;
      if tasks[last].user == user && tasks[last].key == key then Some(last) else FindTask(tasks[..last], user, key)
  }

  /** The key `create` uses for the task of workflow `id`: "orch:<id>". */
  function FlowKey(id: Id): IdempotencyKey {
    OrchestrationKey(id)
  }

  datatype Creation = Creation(task: Option<Id>, decision: Option<Id>)

  /** `create` on values. `hard_denied` is the absence of a task. */
  function CreateSpec(db: Db, caps: Capabilities, w: World, who: Identity, req: TaskRequest,
      key: IdempotencyKey): (r: Outcome<(Db, Creation)>)
    ensures r.Ok? ==> r.value.0.workflows == db.workflows && r.value.0.steps == db.steps
    ensures r.Ok? && r.value.1.task.Some? ==> r.value.1.task.value < |r.value.0.tasks|
    ensures r.Ok? && r.value.1.decision.Some? ==> r.value.1.decision.value < |r.value.0.decisions|
  {
    var existing := FindTask(db.tasks, who.user, key);
    if existing.Some? then
      var t := db.tasks[existing.value];
      if t.request != req then Raised(TaskKeyConflict)
      else Ok((db, Creation(existing, if OwnsDecision(db, who.user, t.decision) then Some(t.decision) else None)))
    else if Due(req.expiresAt, w.now) then Ok((db, Creation(None, None)))
    else if req.parent.Some? && (req.parent.value >= |db.tasks| || db.tasks[req.parent.value].user != who.user)
    then Raised(TaskMissing)
    else if req.device.Some?
        && (req.device.value !in w.devices || w.devices[req.device.value].owner != who.user
        || w.devices[req.device.value].revoked)
    then Raised(TaskDeviceInvalid)
    else
      var evaluated := if req.device.Some? then who.(device := req.device) else who;
      var db1 := AuthorizeSpec(db, caps, w, evaluated,
          AuthorizationRequest(req.capability, req.action, req.scope, None));
      var d := |db.decisions|;
      var initial := InitialState(db1.decisions[d].kind, db1.decisions[d].reason);
      if initial.None? then Ok((db1, Creation(None, Some(d))))
      else
        var row := Task(who.user, req, initial.value, key, d, AskedConfirmation(db1), [], 1);
        Ok((db1.(tasks := db1.tasks + [row]), Creation(Some(|db.tasks|), Some(d))))
  }

  /** `get_owned` on values. */
  function GetSpec(db: Db, w: World, who: Identity, id: Id): (r: Outcome<Db>)
    ensures r.Ok? ==> id < |db.tasks| == |r.value.tasks|
    ensures r.Ok? ==> r.value.workflows == db.workflows && r.value.steps == db.steps
  {
    if id >= |db.tasks| || db.tasks[id].user != who.user then Raised(TaskMissing)
    else
      var (db1, expired) :- ExpireSpec(db, id, w.now);
      Ok(db1)
  }

  /** `cancel` on values. */
  function CancelSpec(db: Db, w: World, who: Identity, id: Id, expected: nat): (r: Outcome<Db>)
    ensures r.Ok? ==> id < |db.tasks| == |r.value.tasks|
    ensures r.Ok? ==> r.value.workflows == db.workflows && r.value.steps == db.steps
  {
    if id >= |db.tasks| || db.tasks[id].user != who.user then Raised(TaskMissing)
    else
      var (db1, expired) :- ExpireSpec(db, id, w.now);
      var t := db1.tasks[id];
      if expired || t.status == TaskCancelled then Ok(db1)
      else if Terminal(t.status) then Raised(TaskTerminal)
      else MoveSpec(db1, id, t, TaskCancelled, expected)
  }

  /** `claim_task` on values. */
  function ClaimSpec(db: Db, w: World, id: Id, expected: nat): Outcome<Db> {
    if id >= |db.tasks| then Raised(TaskMissing)
    else
      var (db1, expired) :- ExpireSpec(db, id, w.now);
      var t := db1.tasks[id];
      if expired then Ok(db1)
      else if t.status != Queued then Raised(TaskNotClaimable)
      else MoveSpec(db1, id, t.(attempts := t.attempts + [AttemptRunning]), Running, expected)
  }

  /** `_running_attempt`: the position of an attempt that is running. */
  function RunningAttempt(attempts: seq<Attempt>): (r: Option<nat>)
    ensures r.Some? ==> r.value < |attempts| && attempts[r.value] == AttemptRunning
    ensures r.None? ==> AttemptRunning !in attempts
  {
    if attempts == [] then None
    else
      var last := |attempts| - 1;
      if attempts[last] == AttemptRunning then Some(last) else RunningAttempt(attempts[..last])
  }

  /** `complete_task` and `fail_task` on values. */
  function FinishSpec(db: Db, id: Id, target: TaskStatus, expected: nat): Outcome<Db>
    requires target == Completed || target == TaskFailed
  {
    if id >= |db.tasks| then Raised(TaskMissing)
    else
      var t := db.tasks[id];
      if t.status != Running then Raised(if Terminal(t.status) then TaskTerminal else TaskTransitionInvalid)
      else
        var db1 :- MoveSpec(db, id, t, target, expected);
        var running := RunningAttempt(t.attempts);
        if running.None? then Raised(TaskConflict)
        else
          var row := db1.tasks[id];
          Ok(db1.(tasks := db1.tasks[id := row.(attempts := row.attempts[running.value := Finished(target)])]))
  }

  function Finished(target: TaskStatus): Attempt {
    if target == Completed then AttemptCompleted else AttemptFailed
  }

  /** The state a fresh decision puts a waiting task into. */
  function ReevaluatedStatus(d: Decision): TaskStatus {
    var initial := InitialState(d.kind, d.reason);
    if initial.Some? then initial.value else TaskFailed
  }

  /** `reevaluate` on values. */
  function ReevaluateSpec(db: Db, caps: Capabilities, w: World, who: Identity, id: Id, expected: nat): (r: Outcome<Db>)
    ensures r.Ok? ==> id < |db.tasks| == |r.value.tasks|
    ensures r.Ok? ==> r.value.workflows == db.workflows && r.value.steps == db.steps
  {
    if id >= |db.tasks| || db.tasks[id].user != who.user then Raised(TaskMissing)
    else
      var (db1, expired) :- ExpireSpec(db, id, w.now);
      var t := db1.tasks[id];
      if expired then Ok(db1)
      else if t.status != TaskWaitingPermission && t.status != TaskWaitingConfirmation
      then Raised(TaskTransitionInvalid)
      else
        var db2 := AuthorizeSpec(db1, caps, w, who.(device := t.request.device),
          AuthorizationRequest(t.request.capability, t.request.action, t.request.scope, t.confirmation));
        var d := |db1.decisions|;
        var target := ReevaluatedStatus(db2.decisions[d]);
        if target == t.status then Ok(db2)
        else
          var asked := AskedConfirmation(db2);
          MoveSpec(db2, id, t.(decision := d, confirmation := if asked.Some? then asked else t.confirmation), target,
              expected)
  }

  // ---------------------------------------------------------------- the service

  /** `_transition`: the versioned UPDATE. */
  method Move(s: Session, id: Id, row: Task, target: TaskStatus, expected: nat) returns (r: Outcome<()>)
    requires id < |s.db.tasks|
    modifies s
    ensures Commits(old(s.db), s.db, r, MoveSpec(old(s.db), id, row, target, expected))
  {
    var current := s.db.tasks[id];
    if target !in AllowedTargets(current.status) {
      if Terminal(current.status) {
        return Raised(TaskTerminal);
      }
      return Raised(TaskTransitionInvalid);
    }
    if current.version != expected {
      return Raised(TaskConflict);
    }
    s.db := s.db.(tasks := s.db.tasks[id := row.(status := target, version := expected + 1)]);
    return Ok(());
  }

  /** `_expire_if_due` */
  method ExpireIfDue(s: Session, id: Id, now: Time) returns (r: Outcome<bool>)
    requires id < |s.db.tasks|
    modifies s
    ensures match ExpireSpec(old(s.db), id, now)
            case Ok((db, expired)) => r == Ok(expired) && s.db == db
            case Raised(e) => r == Raised(e) && s.db == old(s.db)
  {
    var t := s.db.tasks[id];
    if t.request.expiresAt.None? || Terminal(t.status) || now < t.request.expiresAt.value {
      return Ok(false);
    }
    var moved := Move(s, id, t, TaskExpired, t.version);
    if moved.Raised? {
      return Raised(moved.error);
    }
    return Ok(true);
  }

  method Create(s: Session, caps: Capabilities, w: World, who: Identity, req: TaskRequest, key: IdempotencyKey)
    returns (r: Outcome<Creation>)
    modifies s
    ensures match CreateSpec(old(s.db), caps, w, who, req, key)
            case Ok((db, c)) => r == Ok(c) && s.db == db
            case Raised(e) => r == Raised(e) && s.db == old(s.db)
  {
    var existing := FindTask(s.db.tasks, who.user, key);
    if existing.Some? {
      var t := s.db.tasks[existing.value];
      if t.request != req {
        return Raised(TaskKeyConflict);
      }
      return Ok(Creation(existing, if OwnsDecision(s.db, who.user, t.decision) then Some(t.decision) else None));
    }
    if Due(req.expiresAt, w.now) {
      return Ok(Creation(None, None));
    }
    if req.parent.Some? {
      if req.parent.value >= |s.db.tasks| || s.db.tasks[req.parent.value].user != who.user {
        return Raised(TaskMissing);
      }
    }
    var evaluated := who;
    if req.device.Some? {
      if req.device.value !in w.devices || w.devices[req.device.value].owner != who.user
          || w.devices[req.device.value].revoked {
        return Raised(TaskDeviceInvalid);
      }
      evaluated := who.(device := req.device);
    }
    var id := |s.db.tasks|;
    var d := Authorize(s, caps, w, evaluated, AuthorizationRequest(req.capability, req.action, req.scope, None));
    var initial := InitialState(s.db.decisions[d].kind, s.db.decisions[d].reason);
    if initial.None? {
      return Ok(Creation(None, Some(d)));
    }
    s.db := s.db.(tasks := s.db.tasks + [Task(who.user, req, initial.value, key, d, AskedConfirmation(s.db), [], 1)]);
    return Ok(Creation(Some(id), Some(d)));
  }

  method GetOwned(s: Session, w: World, who: Identity, id: Id) returns (r: Outcome<()>)
    modifies s
    ensures Commits(old(s.db), s.db, r, GetSpec(old(s.db), w, who, id))
  {
    if id >= |s.db.tasks| || s.db.tasks[id].user != who.user {
      return Raised(TaskMissing);
    }
    var expired := ExpireIfDue(s, id, w.now);
    if expired.Raised? {
      return Raised(expired.error);
    }
    return Ok(());
  }

  method Cancel(s: Session, w: World, who: Identity, id: Id, expected: nat) returns (r: Outcome<()>)
    modifies s
    ensures Commits(old(s.db), s.db, r, CancelSpec(old(s.db), w, who, id, expected))
  {
    if id >= |s.db.tasks| || s.db.tasks[id].user != who.user {
      return Raised(TaskMissing);
    }
    var expired := ExpireIfDue(s, id, w.now);
    if expired.Raised? {
      return Raised(expired.error);
    }
    if expired.value || s.db.tasks[id].status == TaskCancelled {
      return Ok(());
    }
    if Terminal(s.db.tasks[id].status) {
      return Raised(TaskTerminal);
    }
    r := Move(s, id, s.db.tasks[id], TaskCancelled, expected);
  }

  method Claim(s: Session, w: World, id: Id, expected: nat) returns (r: Outcome<()>)
    modifies s
    ensures Commits(old(s.db), s.db, r, ClaimSpec(old(s.db), w, id, expected))
  {
    if id >= |s.db.tasks| {
      return Raised(TaskMissing);
    }
    var expired := ExpireIfDue(s, id, w.now);
    if expired.Raised? {
      return Raised(expired.error);
    }
    if expired.value {
      return Ok(());
    }
    if s.db.tasks[id].status != Queued {
      return Raised(TaskNotClaimable);
    }
    var t := s.db.tasks[id];
    r := Move(s, id, t.(attempts := t.attempts + [AttemptRunning]), Running, expected);
  }

  method Finish(s: Session, id: Id, target: TaskStatus, expected: nat) returns (r: Outcome<()>)
    requires target == Completed || target == TaskFailed
    modifies s
    ensures Commits(old(s.db), s.db, r, FinishSpec(old(s.db), id, target, expected))
  {
    if id >= |s.db.tasks| {
      return Raised(TaskMissing);
    }
    if s.db.tasks[id].status != Running {
      if Terminal(s.db.tasks[id].status) {
        return Raised(TaskTerminal);
      }
      return Raised(TaskTransitionInvalid);
    }
    var saved := s.db;
    r := Move(s, id, s.db.tasks[id], target, expected);
    if r.Raised? {
      return;
    }
    var row := s.db.tasks[id];
    var running := RunningAttempt(row.attempts);
    if running.None? {
      s.db := saved;
      return Raised(TaskConflict);
    }
    s.db := s.db.(tasks := s.db.tasks[id := row.(attempts := row.attempts[running.value := Finished(target)])]);
  }

  method Reevaluate(s: Session, caps: Capabilities, w: World, who: Identity, id: Id, expected: nat)
      returns (r: Outcome<()>)
    modifies s
    ensures Commits(old(s.db), s.db, r, ReevaluateSpec(old(s.db), caps, w, who, id, expected))
  {
    if id >= |s.db.tasks| || s.db.tasks[id].user != who.user {
      return Raised(TaskMissing);
    }
    var saved := s.db;
    var expired := ExpireIfDue(s, id, w.now);
    if expired.Raised? {
      return Raised(expired.error);
    }
    if expired.value {
      return Ok(());
    }
    var t := s.db.tasks[id];
    if t.status != TaskWaitingPermission && t.status != TaskWaitingConfirmation {
      return Raised(TaskTransitionInvalid);
    }
    var d := Authorize(s, caps, w, who.(device := t.request.device),
      AuthorizationRequest(t.request.capability, t.request.action, t.request.scope, t.confirmation));
    var initial := InitialState(s.db.decisions[d].kind, s.db.decisions[d].reason);
    var target := if initial.Some? then initial.value else TaskFailed;
    if target == t.status {
      return Ok(());
    }
    var asked := AskedConfirmation(s.db);
    r := Move(s, id, t.(decision := d, confirmation := if asked.Some? then asked else t.confirmation), target,
        expected);
    if r.Raised? {
      s.db := saved;
    }
  }
}
