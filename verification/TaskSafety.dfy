/** Task operations keep the task invariant and never disturb a workflow they are not part of. */
module TaskSafety {
  import opened Common
  import opened AuthorityStore
  import opened PermissionsEngine
  import opened TaskEngine
  import opened AuthorityInvariant
  import opened AuthoritySafety

  // ---------------------------------------------------------------- frames

  /** New decisions and confirmations do not disturb tasks or workflows. */
  lemma GrowthKeeps(db: Db, r: Db)
    requires InvTasks(db) && InvFlows(db)
    requires r == db.(permissions := r.permissions, confirmations := r.confirmations, decisions := r.decisions)
    requires db.decisions <= r.decisions && ConfirmationsEvolve(db.confirmations, r.confirmations)
    ensures InvTasks(r) && InvFlows(r)
  {
    forall t | 0 <= t < |r.tasks| ensures TaskOk(r, r.tasks[t]) {
      assert TaskOk(db, db.tasks[t]);
      var c := r.tasks[t].confirmation;
      assert c.Some? && c.value < |db.confirmations| ==>
          ConfirmationEvolves(db.confirmations[c.value], r.confirmations[c.value]);
    }
    forall id | 0 <= id < |r.workflows| ensures FlowOk(r, id) {
      assert FlowOk(db, id);
    }
    forall e | 0 <= e < |r.envelopes| ensures EnvelopeOk(r, r.envelopes[e]) {
      assert EnvelopeOk(db, db.envelopes[e]);
    }
  }

  /** How a task may move while its workflow looks on. */
  predicate Drifts(s: TaskStatus, t: TaskStatus) {
    || s == t
    || (t in {TaskCancelled, TaskExpired} && s in {Queued, TaskWaitingPermission, TaskWaitingConfirmation})
    || (s == Queued && t == Running)
    || (s == Running && t in {Completed, TaskFailed})
  }

  /** A drifting task keeps every workflow coupled. */
  lemma DriftKeepsFlows(db: Db, id: Id, row: Task)
    requires InvFlows(db) && id < |db.tasks|
    requires row == db.tasks[id].(status := row.status, attempts := row.attempts, version := row.version)
    requires Drifts(db.tasks[id].status, row.status)
    ensures InvFlows(db.(tasks := db.tasks[id := row]))
  {
    var r := db.(tasks := db.tasks[id := row]);
    forall f | 0 <= f < |r.workflows| ensures FlowOk(r, f) {
      assert FlowOk(db, f);
    }
    forall e | 0 <= e < |r.envelopes| ensures EnvelopeOk(r, r.envelopes[e]) {
      assert EnvelopeOk(db, db.envelopes[e]);
    }
  }

  lemma RowKeepsTasks(db: Db, id: Id, row: Task)
    requires InvTasks(db) && id < |db.tasks|
    requires row.user == db.tasks[id].user && row.key == db.tasks[id].key
    requires TaskOk(db, row)
    ensures InvTasks(db.(tasks := db.tasks[id := row]))
  {
    var r := db.(tasks := db.tasks[id := row]);
    forall t | 0 <= t < |r.tasks| ensures TaskOk(r, r.tasks[t]) {
      assert TaskOk(db, db.tasks[t]);
    }
  }

  lemma AppendKeeps(db: Db, row: Task)
    requires InvTasks(db) && InvFlows(db)
    requires TaskOk(db, row) && FindTask(db.tasks, row.user, row.key).None?
    ensures InvTasks(db.(tasks := db.tasks + [row])) && InvFlows(db.(tasks := db.tasks + [row]))
  {
    var r := db.(tasks := db.tasks + [row]);
    forall t | 0 <= t < |r.tasks| ensures TaskOk(r, r.tasks[t]) {
      if t < |db.tasks| {
        assert TaskOk(db, db.tasks[t]);
      }
    }
    forall f | 0 <= f < |r.workflows| ensures FlowOk(r, f) {
      assert FlowOk(db, f);
    }
    forall e | 0 <= e < |r.envelopes| ensures EnvelopeOk(r, r.envelopes[e]) {
      assert EnvelopeOk(db, db.envelopes[e]);
    }
  }

  // ---------------------------------------------------------------- operations

  /** The effect of an operation that only moves task `id`. */
  ghost predicate TaskStep(db: Db, r: Db, id: Id) {
    && id < |db.tasks| == |r.tasks|
    && r == db.(tasks := db.tasks[id := r.tasks[id]])
    && InvTasks(r) && InvFlows(r)
    && TasksEvolve(db.tasks, r.tasks)
    && Drifts(db.tasks[id].status, r.tasks[id].status)
  }

  /** Replacing the row of a task that drifts. */
  lemma DriftStep(db: Db, id: Id, row: Task)
    requires InvTasks(db) && InvFlows(db) && id < |db.tasks|
    requires row == db.tasks[id].(status := row.status, attempts := row.attempts, version := db.tasks[id].version + 1)
    requires Drifts(db.tasks[id].status, row.status) && db.tasks[id].status != row.status
        && AttemptsOk(row.status, row.attempts)
    ensures TaskStep(db, db.(tasks := db.tasks[id := row]), id)
  {
    assert TaskOk(db, db.tasks[id]);
    DriftKeepsFlows(db, id, row);
    RowKeepsTasks(db, id, row);
  }

  /** Observing a deadline expires the task or changes nothing. */
  lemma ExpireStep(db: Db, id: Id, now: Time)
    requires InvTasks(db) && InvFlows(db) && id < |db.tasks|
    requires ExpireSpec(db, id, now).Ok?
    ensures var (r, expired) := ExpireSpec(db, id, now).value;
            TaskStep(db, r, id)
                && (if expired then r.tasks[id].status == TaskExpired && Due(db.tasks[id].request.expiresAt, now)
                else r == db)
  {
    assert TaskOk(db, db.tasks[id]);
    assert db.tasks[id := db.tasks[id]] == db.tasks;
    if Due(db.tasks[id].request.expiresAt, now) && !Terminal(db.tasks[id].status) {
      DriftStep(db, id, db.tasks[id].(status := TaskExpired, version := db.tasks[id].version + 1));
    }
  }

  /** The row after an operation that checks the deadline first: EXPIRED if it was overdue and
      not over, otherwise moved on from the version the caller expected. */
  predicate MovedOn(t: Task, u: Task, target: TaskStatus, expected: nat, now: Time) {
    if Due(t.request.expiresAt, now) && !Terminal(t.status)
    then u == t.(status := TaskExpired, version := t.version + 1)
    else t.version == expected && u == t.(status := target, attempts := u.attempts, version := expected + 1)
  }

  lemma CancelStep(db: Db, w: World, who: Identity, id: Id, expected: nat)
    requires InvTasks(db) && InvFlows(db)
    requires CancelSpec(db, w, who, id, expected).Ok?
    ensures var r := CancelSpec(db, w, who, id, expected).value;
            && TaskStep(db, r, id)
            && ((r.tasks[id] == db.tasks[id] && r.tasks[id].status == TaskCancelled)
                || (db.tasks[id].status in {Queued, TaskWaitingPermission, TaskWaitingConfirmation}
                    && MovedOn(db.tasks[id], r.tasks[id], TaskCancelled, expected, w.now)))
  {
    ExpireStep(db, id, w.now);
    var (db1, expired) := ExpireSpec(db, id, w.now).value;
    assert TaskOk(db, db.tasks[id]);
    hide InvTasks;
    hide InvFlows;
    if !expired && db.tasks[id].status != TaskCancelled {
      DriftStep(db, id, db.tasks[id].(status := TaskCancelled, version := expected + 1));
    }
  }

  /** The store a claim leaves behind. */
  lemma ClaimValue(db: Db, w: World, id: Id, expected: nat)
    requires id < |db.tasks| && (db.tasks[id].status == Queued ==> db.tasks[id].attempts == [])
    requires ClaimSpec(db, w, id, expected).Ok?
    ensures ExpireSpec(db, id, w.now).Ok?
    ensures var t := db.tasks[id]; var (db1, expired) := ExpireSpec(db, id, w.now).value;
            var row := t.(status := Running, attempts := [AttemptRunning], version := expected + 1);
            if expired then ClaimSpec(db, w, id, expected).value == db1
            else
              && t.status == Queued && t.version == expected
              && ClaimSpec(db, w, id, expected).value == db.(tasks := db.tasks[id := row])
  {
    assert [] + [AttemptRunning] == [AttemptRunning];
  }

  lemma ClaimStep(db: Db, w: World, id: Id, expected: nat)
    requires InvTasks(db) && InvFlows(db)
    requires ClaimSpec(db, w, id, expected).Ok?
    ensures var r := ClaimSpec(db, w, id, expected).value;
            && TaskStep(db, r, id)
            && MovedOn(db.tasks[id], r.tasks[id], Running, expected, w.now)
            && (r.tasks[id].status == Running ==>
                db.tasks[id].status == Queued && r.tasks[id].attempts == [AttemptRunning])
  {
    assert TaskOk(db, db.tasks[id]);
    ClaimValue(db, w, id, expected);
    ExpireStep(db, id, w.now);
    hide InvTasks;
    hide InvFlows;
    hide ClaimSpec;
    if !ExpireSpec(db, id, w.now).value.1 {
      DriftStep(db, id, db.tasks[id].(status := Running, attempts := [AttemptRunning], version := expected + 1));
    }
  }

  lemma FinishValue(db: Db, id: Id, target: TaskStatus, expected: nat)
    requires id < |db.tasks| && db.tasks[id].status == Running && db.tasks[id].version == expected
    requires db.tasks[id].attempts == [AttemptRunning] && (target == Completed || target == TaskFailed)
    ensures FinishSpec(db, id, target, expected) ==
            var row := db.tasks[id].(status := target, attempts := [Finished(target)], version := expected + 1);
            Ok(db.(tasks := db.tasks[id := row]))
  {
    assert [AttemptRunning][0 := Finished(target)] == [Finished(target)];
    assert RunningAttempt([AttemptRunning]) == Some(0);
    var row := db.tasks[id].(status := target, version := expected + 1);
    assert db.tasks[id := row][id := row.(attempts := [Finished(target)])] ==
        db.tasks[id := row.(attempts := [Finished(target)])];
  }

  /** Finishing succeeds exactly on a RUNNING task at the expected version: its attempt is never
      missing. */
  lemma FinishStep(db: Db, id: Id, target: TaskStatus, expected: nat)
    requires InvTasks(db) && InvFlows(db) && (target == Completed || target == TaskFailed)
    ensures FinishSpec(db, id, target, expected).Ok? <==>
              id < |db.tasks| && db.tasks[id].status == Running && db.tasks[id].version == expected
    ensures FinishSpec(db, id, target, expected).Ok? ==>
              var r := FinishSpec(db, id, target, expected).value;
              && TaskStep(db, r, id)
              && r.tasks[id] == db.tasks[id].(status := target, attempts := [Finished(target)], version := expected + 1)
  {
    if id < |db.tasks| && db.tasks[id].status == Running && db.tasks[id].version == expected {
      assert TaskOk(db, db.tasks[id]);
      hide InvTasks;
      hide InvFlows;
      FinishValue(db, id, target, expected);
      hide FinishSpec;
      DriftStep(db, id, db.tasks[id].(status := target, attempts := [Finished(target)], version := expected + 1));
    }
  }

  /** What task creation guarantees. */
  ghost predicate CreateStep(db: Db, r: Db, c: Creation, caps: Capabilities, who: Identity, req: TaskRequest,
      key: IdempotencyKey, now: Time) {
    && InvAuthority(r, caps, now) && InvTasks(r) && InvFlows(r)
    && r == db.(permissions := r.permissions, confirmations := r.confirmations, decisions := r.decisions,
        tasks := r.tasks)
    && Evolves(db, r)
    && (c.task.Some? ==>
          && c.task.value < |r.tasks|
          && var t := r.tasks[c.task.value];
          && t.user == who.user && t.key == key && t.request == req && c.decision == Some(t.decision))
  }

  /** A create call either replays the task it made earlier, refuses, or makes one bound to a
      fresh decision taken for exactly that proposal. */
  lemma CreateKeeps(db: Db, caps: Capabilities, w: World, who: Identity, req: TaskRequest, key: IdempotencyKey,
      clock: Time)
    requires Inv(db, caps, clock) && clock <= w.now
    requires CreateSpec(db, caps, w, who, req, key).Ok?
    ensures var (r, c) := CreateSpec(db, caps, w, who, req, key).value;
            CreateStep(db, r, c, caps, who, req, key, w.now)
  {
    hide AuthorizeSpec;
    hide InvAuthority;
    var (r, c) := CreateSpec(db, caps, w, who, req, key).value;
    if FindTask(db.tasks, who.user, key).Some? {
      Idle(db, caps, clock, w.now);
      assert TaskOk(db, db.tasks[c.task.value]);
    } else if Due(req.expiresAt, w.now) {
      Idle(db, caps, clock, w.now);
    } else {
      hide InvTasks;
      hide InvFlows;
      var evaluated := if req.device.Some? then who.(device := req.device) else who;
      var auth := AuthorizationRequest(req.capability, req.action, req.scope, None);
      AuthorizeKeeps(db, caps, w, evaluated, auth, clock);
      var db1 := AuthorizeSpec(db, caps, w, evaluated, auth);
      AuthorizedGrowth(db, db1, caps, evaluated, auth, w.now);
      var d := |db.decisions|;
      var initial := InitialState(db1.decisions[d].kind, db1.decisions[d].reason);
      if initial.Some? {
        NewTask(db, db1, caps, evaluated, auth, w.now,
            Task(who.user, req, initial.value, key, d, AskedConfirmation(db1), [], 1));
      }
    }
  }

  lemma AuthorizedGrowth(db: Db, r: Db, caps: Capabilities, who: Identity, req: AuthorizationRequest, now: Time)
    requires InvTasks(db) && InvFlows(db) && AuthorizeStep(db, r, caps, who, req, now)
    ensures InvTasks(r) && InvFlows(r) && Evolves(db, r)
  {
    GrowthKeeps(db, r);
  }

  /** Inserting the task a fresh decision calls for. */
  lemma NewTask(db: Db, db1: Db, caps: Capabilities, who: Identity, req: AuthorizationRequest, now: Time, row: Task)
    requires InvTasks(db1) && InvFlows(db1) && AuthorizeStep(db, db1, caps, who, req, now) && Evolves(db, db1)
    requires FindTask(db.tasks, row.user, row.key).None?
    requires row.decision == |db.decisions| && row.version == 1 && row.attempts == []
        && row.confirmation == AskedConfirmation(db1)
    requires Evidence(row, db1.decisions[row.decision])
    requires InitialState(db1.decisions[row.decision].kind, db1.decisions[row.decision].reason) == Some(row.status)
    ensures var r := db1.(tasks := db1.tasks + [row]);
            InvAuthority(r, caps, now) && InvTasks(r) && InvFlows(r) && Evolves(db, r)
  {
    var r := db1.(tasks := db1.tasks + [row]);
    AppendKeeps(db1, row);
    FrameAuthority(db1, r, caps, now);
  }

  /** The authority invariant only looks at its own three tables. */
  lemma FrameAuthority(db: Db, r: Db, caps: Capabilities, clock: Time)
    requires InvAuthority(db, caps, clock)
    requires r.permissions == db.permissions && r.decisions == db.decisions && r.confirmations == db.confirmations
    ensures InvAuthority(r, caps, clock)
  {
    forall d | 0 <= d < |r.decisions| ensures DecisionOk(r, caps, r.decisions[d]) {
      DecisionKept(db, r, caps, db.decisions[d]);
    }
    forall c | 0 <= c < |r.confirmations| ensures ConfirmationOk(r, clock, r.confirmations[c]) {
      assert ConfirmationOk(db, clock, db.confirmations[c]);
    }
    forall p: Id ensures OnceOk(r, p) {
      assert OnceOk(db, p);
    }
    forall u: Use ensures Uses(r.decisions, r.permissions, u) == Consumptions(r.confirmations, u) {
      assert Uses(db.decisions, db.permissions, u) == Consumptions(db.confirmations, u);
    }
  }
}
