/** Safety of the authority chain over every run: any number of service calls, by any users,
    in any order, with any environment, clock readings never going back. */
module AuthorityRuns {
  import opened Common
  import opened AuthorityStore
  import opened PermissionsEngine
  import opened AuthorityInvariant
  import opened AuthoritySafety
  import opened TaskSafety
  import opened FlowSafety
  import Administration = PermissionAdministration
  import TaskEngine
  import Orchestrator

  datatype Command =
    | Grant(who: Identity, grant: Administration.GrantRequest)
    | ListPermissions(who: Identity)
    | Revoke(who: Identity, id: Id)
    | Approve(who: Identity, id: Id)
    | Reject(who: Identity, id: Id)
    | Evaluate(who: Identity, request: AuthorizationRequest)
    | CreateTask(who: Identity, proposal: TaskRequest, key: IdempotencyKey)
    | GetTask(who: Identity, id: Id)
    | CancelTask(who: Identity, id: Id, expected: nat)
    | ClaimTask(id: Id, expected: nat)
    | FinishTask(id: Id, succeeded: bool, expected: nat)
    | CreateFlow(who: Identity, flow: Orchestrator.FlowRequest, ai: Orchestrator.AiOutcome)
    | GetFlow(who: Identity, id: Id)
    | CancelFlow(who: Identity, id: Id, expected: nat)
    | ResumeFlow(who: Identity, id: Id, expected: nat, reparsed: Option<Plan>)

  datatype Call = Call(world: World, command: Command)

  function Committed(before: Db, r: Outcome<Db>): Db {
    if r.Ok? then r.value else before
  }

  function CommittedPair<T>(before: Db, r: Outcome<(Db, T)>): Db {
    if r.Ok? then r.value.0 else before
  }

  /** The store one call leaves behind. */
  function Apply(db: Db, caps: Capabilities, call: Call): Db
    requires |db.steps| == |db.workflows|
  {
    var w := call.world;
    match call.command
    case Grant(who, req) => CommittedPair(db, Administration.GrantSpec(db, caps, w, who, req))
    case ListPermissions(who) => Administration.ListSpec(db, w, who)
    case Revoke(who, id) => Committed(db, Administration.RevokeSpec(db, w, who, id))
    case Approve(who, id) => Committed(db, Administration.ApproveSpec(db, w, who, id))
    case Reject(who, id) => Committed(db, Administration.RejectSpec(db, w, who, id))
    case Evaluate(who, req) => AuthorizeSpec(db, caps, w, who, req)
    case CreateTask(who, req, key) => CommittedPair(db, TaskEngine.CreateSpec(db, caps, w, who, req, key))
    case GetTask(who, id) => Committed(db, TaskEngine.GetSpec(db, w, who, id))
    case CancelTask(who, id, expected) => Committed(db, TaskEngine.CancelSpec(db, w, who, id, expected))
    case ClaimTask(id, expected) => Committed(db, TaskEngine.ClaimSpec(db, w, id, expected))
    case FinishTask(id, succeeded, expected) => Committed(db,
        TaskEngine.FinishSpec(db, id, if succeeded then Completed else TaskFailed, expected))
    case CreateFlow(who, req, ai) => CommittedPair(db, Orchestrator.CreateSpec(db, caps, w, who, req, ai))
    case GetFlow(who, id) => Committed(db, Orchestrator.GetSpec(db, w, who, id))
    case CancelFlow(who, id, expected) => Committed(db, Orchestrator.CancelSpec(db, w, who, id, expected))
    case ResumeFlow(who, id, expected, reparsed) =>
        Committed(db, Orchestrator.ResumeSpec(db, caps, w, who, id, expected, reparsed))
  }

  lemma GrowthKept(db: Db, r: Db, caps: Capabilities, now: Time)
    requires InvTasks(db) && InvFlows(db) && InvAuthority(r, caps, now)
    requires r == db.(permissions := r.permissions, confirmations := r.confirmations, decisions := r.decisions)
    requires PermissionsEvolve(db.permissions, r.permissions) && db.decisions <= r.decisions
        && ConfirmationsEvolve(db.confirmations, r.confirmations)
    ensures Kept(db, r, caps, now)
  {
    GrowthKeeps(db, r);
  }

  lemma Refl(db: Db, caps: Capabilities, now: Time)
    requires Inv(db, caps, now)
    ensures Kept(db, db, caps, now)
  {
  }

  /** Permission and confirmation calls. */
  lemma AdministrationKept(db: Db, caps: Capabilities, call: Call)
    requires Inv(db, caps, call.world.now)
    requires call.command.Grant? || call.command.ListPermissions? || call.command.Revoke? || call.command.Approve?
        || call.command.Reject? || call.command.Evaluate?
    ensures Kept(db, Apply(db, caps, call), caps, call.world.now)
  {
    hide InvRows;
    hide Balanced;
    hide InvTasks;
    var w := call.world;
    var r := Apply(db, caps, call);
    if r == db {
      Refl(db, caps, w.now);
    } else {
      match call.command {
        case Grant(who, req) => GrantKeeps(db, caps, w, who, req, w.now);
        case ListPermissions(who) => ListKeeps(db, caps, w, who, w.now);
        case Revoke(who, id) => RevokeKeeps(db, caps, w, who, id, w.now);
        case Approve(who, id) => ApproveKeeps(db, caps, w, who, id, w.now);
        case Reject(who, id) => RejectKeeps(db, caps, w, who, id, w.now);
        case Evaluate(who, req) => AuthorizeKeeps(db, caps, w, who, req, w.now);
      }
      GrowthKept(db, r, caps, w.now);
    }
  }

  /** Task calls. */
  lemma TaskCallKept(db: Db, caps: Capabilities, call: Call)
    requires Inv(db, caps, call.world.now)
    requires call.command.CreateTask? || call.command.GetTask? || call.command.CancelTask? || call.command.ClaimTask?
        || call.command.FinishTask?
    ensures Kept(db, Apply(db, caps, call), caps, call.world.now)
  {
    hide InvRows;
    hide Balanced;
    var w := call.world;
    var r := Apply(db, caps, call);
    if r == db {
      Refl(db, caps, w.now);
    } else if call.command.CreateTask? {
      CreateKeeps(db, caps, w, call.command.who, call.command.proposal, call.command.key, w.now);
    } else {
      match call.command {
        case GetTask(who, id) => TaskGetKept(db, w, who, id, caps);
        case CancelTask(who, id, expected) => CancelStep(db, w, who, id, expected);
        case ClaimTask(id, expected) => ClaimStep(db, w, id, expected);
        case FinishTask(id, succeeded, expected) =>
          FinishStep(db, id, if succeeded then Completed else TaskFailed, expected);
      }
      TaskStepKept(db, r, call.command.id, caps, w.now);
    }
  }

  /** Workflow calls. */
  lemma FlowCallKept(db: Db, caps: Capabilities, call: Call)
    requires Inv(db, caps, call.world.now)
    requires call.command.CreateFlow? || call.command.GetFlow? || call.command.CancelFlow? || call.command.ResumeFlow?
    ensures Kept(db, Apply(db, caps, call), caps, call.world.now)
  {
    hide InvRows;
    hide Balanced;
    hide InvTasks;
    hide Orchestrator.CreateSpec;
    hide Orchestrator.GetSpec;
    hide Orchestrator.CancelSpec;
    hide Orchestrator.ResumeSpec;
    var w := call.world;
    Refl(db, caps, w.now);
    match call.command {
      case CreateFlow(who, req, ai) =>
        if Orchestrator.CreateSpec(db, caps, w, who, req, ai).Ok? {
          CreateKept(db, caps, w, who, req, ai);
        }
      case GetFlow(who, id) =>
        if Orchestrator.GetSpec(db, w, who, id).Ok? {
          GetKept(db, w, who, id, caps);
        }
      case CancelFlow(who, id, expected) =>
        if Orchestrator.CancelSpec(db, w, who, id, expected).Ok? {
          CancelKept(db, w, who, id, expected, caps);
        }
      case ResumeFlow(who, id, expected, reparsed) =>
        if Orchestrator.ResumeSpec(db, caps, w, who, id, expected, reparsed).Ok? {
          ResumeKept(db, caps, w, who, id, expected, reparsed);
        }
    }
  }

  /** Every call keeps the invariant and only evolves the store. */
  lemma ApplyKept(db: Db, caps: Capabilities, call: Call, clock: Time)
    requires Inv(db, caps, clock) && clock <= call.world.now
    ensures Kept(db, Apply(db, caps, call), caps, call.world.now)
  {
    hide Apply;
    Idle(db, caps, clock, call.world.now);
    match call.command {
      case CreateFlow(_, _, _) => FlowCallKept(db, caps, call);
      case GetFlow(_, _) => FlowCallKept(db, caps, call);
      case CancelFlow(_, _, _) => FlowCallKept(db, caps, call);
      case ResumeFlow(_, _, _, _) => FlowCallKept(db, caps, call);
      case CreateTask(_, _, _) => TaskCallKept(db, caps, call);
      case GetTask(_, _) => TaskCallKept(db, caps, call);
      case CancelTask(_, _, _) => TaskCallKept(db, caps, call);
      case ClaimTask(_, _) => TaskCallKept(db, caps, call);
      case FinishTask(_, _, _) => TaskCallKept(db, caps, call);
      case _ => AdministrationKept(db, caps, call);
    }
  }

  // ---------------------------------------------------------------- runs

  /** The clock never goes back. */
  ghost predicate Chronological(calls: seq<Call>) {
    forall i, j | 0 <= i <= j < |calls| :: calls[i].world.now <= calls[j].world.now
  }

  function Clock(calls: seq<Call>): Time {
    if calls == [] then 0 else calls[|calls| - 1].world.now
  }

  /** The store after a run of calls on an empty database. Its contract is the main safety
      theorem: the invariant holds in every reachable committed state. */
  ghost function Run(caps: Capabilities, calls: seq<Call>): (db: Db)
    requires Chronological(calls)
    ensures Inv(db, caps, Clock(calls))
  {
    if calls == [] then EMPTY
    else
      var n := |calls| - 1;
      var before := Run(caps, calls[..n]);
      if n == 0 then ApplyKept(EMPTY, caps, calls[0], calls[0].world.now); Apply(EMPTY, caps, calls[0])
      else ApplyKept(before, caps, calls[n], calls[n - 1].world.now); Apply(before, caps, calls[n])
  }

  /** Nothing on record is ever undone: every later state of a run evolves from every earlier one. */
  lemma {:induction false} RunEvolves(caps: Capabilities, calls: seq<Call>, i: nat)
    requires Chronological(calls) && i <= |calls|
    ensures Evolves(Run(caps, calls[..i]), Run(caps, calls))
  {
    hide Apply;
    hide Inv;
    if i == |calls| {
      assert calls[..i] == calls;
    } else {
      var n := |calls| - 1;
      RunEvolves(caps, calls[..n], i);
      assert calls[..n][..i] == calls[..i];
      LastCall(caps, calls);
      EvolvesTransitive(Run(caps, calls[..i]), Run(caps, calls[..n]), Run(caps, calls));
    }
  }

  lemma LastCall(caps: Capabilities, calls: seq<Call>)
    requires Chronological(calls) && calls != []
    ensures Evolves(Run(caps, calls[..|calls| - 1]), Run(caps, calls))
  {
    var n := |calls| - 1;
    if n == 0 {
      ApplyKept(EMPTY, caps, calls[0], calls[0].world.now);
    } else {
      ApplyKept(Run(caps, calls[..n]), caps, calls[n], calls[n - 1].world.now);
    }
  }

  lemma NextCall(caps: Capabilities, calls: seq<Call>, i: nat)
    requires Chronological(calls) && i < |calls|
    ensures |Run(caps, calls[..i]).steps| == |Run(caps, calls[..i]).workflows|
    ensures Run(caps, calls[..i + 1]) == Apply(Run(caps, calls[..i]), caps, calls[i])
  {
    hide Apply;
    assert calls[..i + 1][..i] == calls[..i];
  }

  lemma OneCallLater(calls: seq<Call>, call: Call)
    requires Chronological(calls + [call])
    ensures Chronological(calls) && (calls == [] || Clock(calls) <= call.world.now)
    ensures var all := calls + [call]; all[..|calls|] == calls && all[..|calls| + 1] == all && all[|calls|] == call
  {
    var all := calls + [call];
    assert forall i | 0 <= i < |calls| :: all[i] == calls[i];
    if calls != [] {
      assert all[|calls| - 1].world.now <= all[|calls|].world.now;
    }
  }

  /** One more call of a run. */
  lemma OneMoreCall(caps: Capabilities, calls: seq<Call>, call: Call)
    requires Chronological(calls + [call])
    ensures Chronological(calls) && |Run(caps, calls).steps| == |Run(caps, calls).workflows|
    ensures Run(caps, calls + [call]) == Apply(Run(caps, calls), caps, call)
    ensures Inv(Run(caps, calls), caps, call.world.now)
  {
    hide *;
    OneCallLater(calls, call);
    NextCall(caps, calls + [call], |calls|);
    InvAt(caps, calls, call.world.now);
  }

  /** The invariant of a reachable state holds at every instant from its clock on. */
  lemma InvAt(caps: Capabilities, calls: seq<Call>, now: Time)
    requires Chronological(calls) && (calls == [] || Clock(calls) <= now)
    ensures Inv(Run(caps, calls), caps, now)
  {
    hide Apply;
    if calls != [] {
      hide Run;
      AuthoritySafety.Idle(Run(caps, calls), caps, Clock(calls), now);
    }
  }

  /** The imperative services, dispatched call by call, reach exactly the states of `Run`. */
  method Serve(s: Session, caps: Capabilities, calls: seq<Call>)
    requires s.db == EMPTY && Chronological(calls)
    modifies s
    ensures s.db == Run(caps, calls)
  {
    hide Apply;
    hide Inv;
    var i := 0;
    while i < |calls|
      invariant 0 <= i <= |calls|
      invariant s.db == Run(caps, calls[..i])
    {
      NextCall(caps, calls, i);
      Dispatch(s, caps, calls[i]);
      i := i + 1;
    }
    assert calls[..i] == calls;
  }

  method Dispatch(s: Session, caps: Capabilities, call: Call)
    requires |s.db.steps| == |s.db.workflows|
    modifies s
    ensures s.db == Apply(old(s.db), caps, call)
  {
    hide AuthorizeSpec;
    hide TaskEngine.CreateSpec;
    hide Orchestrator.CreateSpec;
    hide Orchestrator.CancelSpec;
    hide Orchestrator.ResumeSpec;
    var w := call.world;
    match call.command {
      case Grant(who, req) =>
        var r := Administration.Grant(s, caps, w, who, req);
      case ListPermissions(who) =>
        Administration.ListOwned(s, w, who);
      case Revoke(who, id) =>
        var r := Administration.Revoke(s, w, who, id);
      case Approve(who, id) =>
        var r := Administration.ApproveConfirmation(s, w, who, id);
      case Reject(who, id) =>
        var r := Administration.RejectConfirmation(s, w, who, id);
      case Evaluate(who, req) =>
        var d := PermissionsEngine.Authorize(s, caps, w, who, req);
      case CreateTask(who, req, key) =>
        var r := TaskEngine.Create(s, caps, w, who, req, key);
      case GetTask(who, id) =>
        var r := TaskEngine.GetOwned(s, w, who, id);
      case CancelTask(who, id, expected) =>
        var r := TaskEngine.Cancel(s, w, who, id, expected);
      case ClaimTask(id, expected) =>
        var r := TaskEngine.Claim(s, w, id, expected);
      case FinishTask(id, succeeded, expected) =>
        var r := TaskEngine.Finish(s, id, if succeeded then Completed else TaskFailed, expected);
      case CreateFlow(who, req, ai) =>
        var r := Orchestrator.Create(s, caps, w, who, req, ai);
      case GetFlow(who, id) =>
        var r := Orchestrator.GetOwned(s, w, who, id);
      case CancelFlow(who, id, expected) =>
        var r := Orchestrator.Cancel(s, w, who, id, expected);
      case ResumeFlow(who, id, expected, reparsed) =>
        var r := Orchestrator.Resume(s, caps, w, who, id, expected, reparsed);
    }
  }
}
