/** The default-deny authority pipeline (backend/app/permissions/engine.py): capability,
    permission search, risk, financial guard, confirmation, immutable decision. */
module PermissionsEngine {
  import opened Common
  import opened Scopes
  import opened AuthorityStore

  const CONFIRMATION_TTL: Time := 300
  const RISK_MODERATE: nat := 2
  const RISK_ELEVATED: nat := 3
  const RISK_HIGH: nat := 4
  const RISK_CRITICAL: nat := 5

  // ---------------------------------------------------------------- capability rules

  /** `Capability.allows_operations`: fails closed on an empty or malformed vocabulary. */
  predicate AllowsOperations(cap: Capability, operations: seq<string>) {
    && cap.allowedActions != []
    && "" !in cap.allowedActions
    && forall op | op in operations :: op in cap.allowedActions
  }

  /** `FinancialExecutionGuard.blocks` */
  predicate Blocked(cap: Capability) {
    cap.financial && cap.externalSideEffect
  }

  /** `RiskEngine.evaluate`: floors applied in order to the capability's default level. */
  function Risk(cap: Capability): (level: RiskLevel)
    ensures level >= cap.defaultRisk
    ensures cap.privacyImpact ==> level >= RISK_MODERATE
    ensures cap.externalSideEffect ==> level >= RISK_ELEVATED
    ensures cap.dataDestructive ==> level >= RISK_HIGH
    ensures Blocked(cap) ==> level == RISK_CRITICAL
  {
    var l0 := cap.defaultRisk;
    var l1 := if cap.privacyImpact && l0 < RISK_MODERATE then RISK_MODERATE else l0;
    var l2 := if cap.externalSideEffect && l1 < RISK_ELEVATED then RISK_ELEVATED else l1;
    var l3 := if cap.dataDestructive && l2 < RISK_HIGH then RISK_HIGH else l2;
    if Blocked(cap) then RISK_CRITICAL else l3
  }

  predicate CapabilityAllows(caps: Capabilities, capability: string, action: string) {
    capability in caps && caps[capability].enabled && AllowsOperations(caps[capability], [action])
  }

  // ---------------------------------------------------------------- permission search

  /** The query order: newest grant first, random identifiers break ties. Positions make the order
      total where two rows were given the same number, which `uuid4` is trusted never to do. */
  predicate Before(perms: seq<Permission>, i: Id, j: Id)
    requires i < |perms| && j < |perms|
  {
    var p, q := perms[i], perms[j];
    p.grantedAt > q.grantedAt || (p.grantedAt == q.grantedAt && (p.uuid < q.uuid || (p.uuid == q.uuid && i < j)))
  }

  predicate Within(ids: seq<Id>, n: nat) {
    forall k | 0 <= k < |ids| :: ids[k] < n
  }

  function InsertNewest(perms: seq<Permission>, id: Id, ids: seq<Id>): (r: seq<Id>)
    requires id < |perms| && Within(ids, |perms|)
    ensures Within(r, |perms|)
    ensures forall k | 0 <= k < |r| :: r[k] == id || r[k] in ids
  {
    if ids == [] || Before(perms, id, ids[0]) then [id] + ids
    else [ids[0]] + InsertNewest(perms, id, ids[1..])
  }

  /** The rows selected for one user and capability among the first `n` permissions. */
  function Candidates(perms: seq<Permission>, user: Id, capability: string, n: nat): (ids: seq<Id>)
    requires n <= |perms|
    ensures Within(ids, n)
    ensures forall k | 0 <= k < |ids| :: perms[ids[k]].user == user && perms[ids[k]].capability == capability
  {
    if n == 0 then []
    else
      var rest := Candidates(perms, user, capability, n - 1);
      if perms[n - 1].user == user && perms[n - 1].capability == capability
      then InsertNewest(perms, n - 1, rest) else rest
  }

  lemma {:induction false} InsertNewestKeeps(perms: seq<Permission>, id: Id, ids: seq<Id>, i: Id)
    requires id < |perms| && Within(ids, |perms|)
    requires i == id || i in ids
    ensures i in InsertNewest(perms, id, ids)
  {
    if ids != [] && !Before(perms, id, ids[0]) && i != ids[0] {
      assert ids == [ids[0]] + ids[1..];
      InsertNewestKeeps(perms, id, ids[1..], i);
    }
  }

  /** No permission of the user for the capability is missing from the candidates. */
  lemma {:induction false} CandidatesComplete(perms: seq<Permission>, user: Id, capability: string, n: nat, i: Id)
    requires i < n <= |perms| && perms[i].user == user && perms[i].capability == capability
    ensures i in Candidates(perms, user, capability, n)
  {
    var rest := Candidates(perms, user, capability, n - 1);
    if i < n - 1 {
      CandidatesComplete(perms, user, capability, n - 1, i);
    }
    if perms[n - 1].user == user && perms[n - 1].capability == capability {
      InsertNewestKeeps(perms, n - 1, rest, i);
    }
  }

  ghost predicate NewestFirst(perms: seq<Permission>, ids: seq<Id>)
    requires Within(ids, |perms|)
  {
    forall i, j | 0 <= i < j < |ids| :: Before(perms, ids[i], ids[j])
  }

  lemma ConsOrdered(perms: seq<Permission>, first: Id, rest: seq<Id>)
    requires first < |perms| && Within(rest, |perms|) && NewestFirst(perms, rest)
    requires forall j | 0 <= j < |rest| :: Before(perms, first, rest[j])
    ensures Within([first] + rest, |perms|) && NewestFirst(perms, [first] + rest)
  {
    hide Before;
    var all := [first] + rest;
    assert forall j | 1 <= j < |all| :: all[j] == rest[j - 1];
  }

  lemma TailOrdered(perms: seq<Permission>, ids: seq<Id>, n: nat)
    requires ids != [] && n <= |perms| && Within(ids, n) && NewestFirst(perms, ids)
    ensures Within(ids[1..], n) && NewestFirst(perms, ids[1..])
    ensures forall j | 0 <= j < |ids[1..]| :: Before(perms, ids[0], ids[1..][j])
  {
    hide Before;
    var rest := ids[1..];
    assert forall j | 0 <= j < |rest| :: rest[j] == ids[j + 1];
  }

  lemma {:induction false} InsertNewestOrdered(perms: seq<Permission>, id: Id, ids: seq<Id>)
    requires id < |perms| && Within(ids, id)
    requires NewestFirst(perms, ids)
    ensures NewestFirst(perms, InsertNewest(perms, id, ids))
  {
    hide NewestFirst;
    if ids == [] {
      assert NewestFirst(perms, []) by {
        EmptyOrdered(perms);
      }
      ConsOrdered(perms, id, []);
    } else {
      TailOrdered(perms, ids, id);
      var tail := ids[1..];
      if Before(perms, id, ids[0]) {
        assert [ids[0]] + tail == ids;
        forall j | 0 <= j < |ids| ensures Before(perms, id, ids[j]) {
          if j > 0 {
            assert ids[j] == tail[j - 1];
          }
        }
        ConsOrdered(perms, id, ids);
      } else {
        InsertNewestOrdered(perms, id, tail);
        var rest := InsertNewest(perms, id, tail);
        assert forall j | 0 <= j < |rest| :: rest[j] == id || rest[j] in tail;
        ConsOrdered(perms, ids[0], rest);
      }
    }
  }

  lemma EmptyOrdered(perms: seq<Permission>)
    ensures NewestFirst(perms, [])
  {
  }

  /** The candidate list is in query order, so it also has no repetitions. */
  lemma {:induction false} CandidatesOrdered(perms: seq<Permission>, user: Id, capability: string, n: nat)
    requires n <= |perms|
    ensures NewestFirst(perms, Candidates(perms, user, capability, n))
  {
    if n > 0 {
      CandidatesOrdered(perms, user, capability, n - 1);
      InsertNewestOrdered(perms, n - 1, Candidates(perms, user, capability, n - 1));
    }
  }

  /** Why a permission does or does not serve a request. */
  datatype Standing = WasRevoked | WasExpired | BadVocabulary | OutOfScope | OtherDevice | OnRevokedDevice | Usable

  function StandingOf(p: Permission, who: Identity, cap: Capability, requested: Scope, w: World): Standing {
    if p.status == Revoked then WasRevoked
    else if p.status == Expired || Due(p.expiresAt, w.now) then WasExpired
    else if !AllowsOperations(cap, p.scope.operations) then BadVocabulary
    else if !Authorizes(p.scope, requested) then OutOfScope
    else if p.device.None? then Usable
    else if who.device != p.device then OtherDevice
    else if p.device.value !in w.devices || w.devices[p.device.value].owner != who.user then OtherDevice
    else if w.devices[p.device.value].revoked then OnRevokedDevice
    else Usable
  }

  /** The standings of the candidates, in query order. */
  function Standings(perms: seq<Permission>, ids: seq<Id>, who: Identity, cap: Capability, requested: Scope,
      w: World): (r: seq<Standing>)
    requires Within(ids, |perms|)
    ensures |r| == |ids|
    ensures forall k | 0 <= k < |ids| :: r[k] == StandingOf(perms[ids[k]], who, cap, requested, w)
  {
    seq(|ids|, k requires 0 <= k < |ids| => StandingOf(perms[ids[k]], who, cap, requested, w))
  }

  /** How many candidates the search passes over before it meets a usable one. */
  function Misses(standings: seq<Standing>): (k: nat)
    ensures k <= |standings|
    ensures Usable !in standings[..k]
    ensures k < |standings| ==> standings[k] == Usable
  {
    if standings == [] || standings[0] == Usable then 0
    else
      var rest := Misses(standings[1..]);
      assert standings[..1 + rest] == [standings[0]] + standings[1..][..rest];
      1 + rest
  }

  datatype Search = Search(found: Option<Id>, reason: Reason, scopeMatch: bool)

  /** The fixed precedence of refusal reasons. */
  function Refusal(standings: seq<Standing>): Search {
    if OnRevokedDevice in standings then Search(None, DeviceRevoked, true)
    else if OtherDevice in standings then Search(None, DeviceScopeMismatch, true)
    else if BadVocabulary in standings then Search(None, ActionNotAllowed, false)
    else if WasExpired in standings then Search(None, PermissionExpired, false)
    else if WasRevoked in standings then Search(None, PermissionRevoked, false)
    else Search(None, ScopeMismatch, false)
  }

  /** Expiry is recorded on every due permission the search looked at, and on no other. */
  function Observed(perms: seq<Permission>, looked: seq<Id>, now: Time): (r: seq<Permission>)
    ensures |r| == |perms|
    ensures forall i | 0 <= i < |perms| :: r[i] == perms[i] || r[i] == perms[i].(status := Expired)
    ensures forall i | 0 <= i < |perms| :: r[i] != perms[i] ==> perms[i].status == Active
  {
    seq(|perms|, i requires 0 <= i < |perms| =>
      if i in looked && perms[i].status == Active && Due(perms[i].expiresAt, now)
      then perms[i].(status := Expired) else perms[i])
  }

  /** The declarative meaning of `_find_permission`: the newest usable permission, or the
      refusal reason picked by the fixed precedence. */
  function FindSpec(perms: seq<Permission>, who: Identity, capability: string, cap: Capability, requested: Scope,
      w: World): (r: Search)
    ensures r.found.Some? ==>
      && r.found.value < |perms|
      && perms[r.found.value].user == who.user
      && perms[r.found.value].capability == capability
      && StandingOf(perms[r.found.value], who, cap, requested, w) == Usable
  {
    var ids := Candidates(perms, who.user, capability, |perms|);
    var standings := Standings(perms, ids, who, cap, requested, w);
    var k := Misses(standings);
    if ids == [] then Search(None, NoPermission, false)
    else if k < |ids| then Search(Some(ids[k]), Authorized, true)
    else Refusal(standings)
  }

  /** The permissions table after the search. */
  function AfterSearch(perms: seq<Permission>, who: Identity, capability: string, cap: Capability, requested: Scope,
      w: World): (r: seq<Permission>)
    ensures |r| == |perms|
    ensures forall i | 0 <= i < |perms| :: r[i] == perms[i] || r[i] == perms[i].(status := Expired)
    ensures forall i | 0 <= i < |perms| :: r[i] != perms[i] ==> perms[i].status == Active
  {
    var ids := Candidates(perms, who.user, capability, |perms|);
    Observed(perms, ids[..Misses(Standings(perms, ids, who, cap, requested, w))], w.now)
  }

  /** Looking at one more candidate. */
  lemma ObservedStep(perms: seq<Permission>, ids: seq<Id>, k: nat, now: Time)
    requires k < |ids| && ids[k] < |perms|
    ensures Observed(perms, ids[..k + 1], now) ==
            if perms[ids[k]].status == Active && Due(perms[ids[k]].expiresAt, now)
            then Observed(perms, ids[..k], now)[ids[k] := perms[ids[k]].(status := Expired)]
            else Observed(perms, ids[..k], now)
  {
    assert ids[..k + 1] == ids[..k] + [ids[k]];
  }

  lemma UnvisitedRow(perms: seq<Permission>, ids: seq<Id>, k: nat, now: Time)
    requires Within(ids, |perms|) && NewestFirst(perms, ids) && k < |ids|
    ensures Observed(perms, ids[..k], now)[ids[k]] == perms[ids[k]]
  {
    assert forall i | 0 <= i < k :: ids[..k][i] == ids[i] && Before(perms, ids[i], ids[k]);
  }

  /** The body of the search loop: one permission against the request, its expiry observed. */
  method Inspect(s: Session, id: Id, who: Identity, cap: Capability, requested: Scope, w: World) returns (r: Standing)
    requires id < |s.db.permissions|
    modifies s
    ensures r == StandingOf(old(s.db.permissions[id]), who, cap, requested, w)
    ensures var p := old(s.db.permissions[id]);
            s.db == if p.status == Active && Due(p.expiresAt, w.now)
                    then old(s.db).(permissions := old(s.db.permissions)[id := p.(status := Expired)])
                    else old(s.db)
  {
    var p := s.db.permissions[id];
    if p.status == Revoked {
      return WasRevoked;
    }
    if p.status == Expired || Due(p.expiresAt, w.now) {
      if p.status == Active {
        s.db := s.db.(permissions := s.db.permissions[id := p.(status := Expired)]);
      }
      return WasExpired;
    }
    if !AllowsOperations(cap, p.scope.operations) {
      return BadVocabulary;
    }
    if !Authorizes(p.scope, requested) {
      return OutOfScope;
    }
    if p.device.Some? {
      if who.device != p.device {
        return OtherDevice;
      }
      if p.device.value !in w.devices || w.devices[p.device.value].owner != who.user {
        return OtherDevice;
      }
      if w.devices[p.device.value].revoked {
        return OnRevokedDevice;
      }
    }
    return Usable;
  }

  /** `_find_permission`: the search loop with its `saw_*` flags. */
  method FindPermission(s: Session, who: Identity, capability: string, cap: Capability, requested: Scope, w: World)
    returns (r: Search)
    modifies s
    ensures r == FindSpec(old(s.db.permissions), who, capability, cap, requested, w)
    ensures s.db == old(s.db).(permissions := AfterSearch(old(s.db.permissions), who, capability, cap, requested, w))
  {
    ghost var perms := s.db.permissions;
    var ids := Candidates(s.db.permissions, who.user, capability, |s.db.permissions|);
    CandidatesOrdered(perms, who.user, capability, |perms|);
    ghost var standings := Standings(perms, ids, who, cap, requested, w);
    SearchStarts(perms, ids, standings, w.now);
    hide *;
    if ids == [] {
      SearchEnds(perms, who, capability, cap, requested, w, 0);
      return Search(None, NoPermission, false);
    }
    var sawRevoked, sawExpired, sawScopeMatch, sawInvalidAction := false, false, false, false;
    var deviceReason := DeviceScopeMismatch;
    var k := 0;
    while k < |ids|
      invariant 0 <= k <= |ids|
      invariant Usable !in Seen(standings, k)
      invariant s.db == old(s.db).(permissions := Looked(perms, ids, k, w.now))
      invariant sawRevoked == (WasRevoked in Seen(standings, k))
      invariant sawExpired == (WasExpired in Seen(standings, k))
      invariant sawInvalidAction == (BadVocabulary in Seen(standings, k))
      invariant sawScopeMatch == (OtherDevice in Seen(standings, k) || OnRevokedDevice in Seen(standings, k))
      invariant deviceReason == if OnRevokedDevice in Seen(standings, k) then DeviceRevoked else DeviceScopeMismatch
    {
      LookFurther(perms, ids, k, w.now);
      OneMore(standings, k);
      var standing := Inspect(s, ids[k], who, cap, requested, w);
      assert standings[k] == standing;
      if standing == Usable {
        SearchEnds(perms, who, capability, cap, requested, w, k);
        UsableUntouched(perms, ids[k], who, cap, requested, w);
        return Search(Some(ids[k]), Authorized, true);
      }
      sawRevoked := sawRevoked || standing == WasRevoked;
      sawExpired := sawExpired || standing == WasExpired;
      sawInvalidAction := sawInvalidAction || standing == BadVocabulary;
      sawScopeMatch := sawScopeMatch || standing == OtherDevice || standing == OnRevokedDevice;
      deviceReason := if standing == OnRevokedDevice then DeviceRevoked else deviceReason;
      k := k + 1;
    }
    SearchEnds(perms, who, capability, cap, requested, w, k);
    if sawScopeMatch {
      return Search(None, deviceReason, true);
    }
    if sawInvalidAction {
      return Search(None, ActionNotAllowed, false);
    }
    if sawExpired {
      return Search(None, PermissionExpired, false);
    }
    if sawRevoked {
      return Search(None, PermissionRevoked, false);
    }
    return Search(None, ScopeMismatch, false);
  }

  /** The standings met, and the table left, after looking at the first `k` candidates. */
  ghost function Seen(standings: seq<Standing>, k: nat): set<Standing>
    requires k <= |standings|
  {
    set t | t in standings[..k]
  }

  ghost function Looked(perms: seq<Permission>, ids: seq<Id>, k: nat, now: Time): seq<Permission>
    requires k <= |ids|
  {
    Observed(perms, ids[..k], now)
  }

  lemma SearchStarts(perms: seq<Permission>, ids: seq<Id>, standings: seq<Standing>, now: Time)
    ensures Seen(standings, 0) == {} && Looked(perms, ids, 0, now) == perms
  {
  }

  lemma LookFurther(perms: seq<Permission>, ids: seq<Id>, k: nat, now: Time)
    requires k < |ids| && Within(ids, |perms|) && NewestFirst(perms, ids)
    ensures ids[k] < |perms| && |Looked(perms, ids, k, now)| == |perms|
    ensures Looked(perms, ids, k, now)[ids[k]] == perms[ids[k]]
    ensures Looked(perms, ids, k + 1, now) ==
            if perms[ids[k]].status == Active && Due(perms[ids[k]].expiresAt, now)
            then Looked(perms, ids, k, now)[ids[k] := perms[ids[k]].(status := Expired)]
            else Looked(perms, ids, k, now)
  {
    UnvisitedRow(perms, ids, k, now);
    ObservedStep(perms, ids, k, now);
  }

  /** The search is over at the first usable candidate or behind the last one. */
  lemma SearchEnds(perms: seq<Permission>, who: Identity, capability: string, cap: Capability, requested: Scope,
      w: World, k: nat)
    requires var ids := Candidates(perms, who.user, capability, |perms|);
             var standings := Standings(perms, ids, who, cap, requested, w);
             k <= |ids| && Usable !in Seen(standings, k) && (k < |ids| ==> standings[k] == Usable)
    ensures var ids := Candidates(perms, who.user, capability, |perms|);
            var standings := Standings(perms, ids, who, cap, requested, w);
            && AfterSearch(perms, who, capability, cap, requested, w) == Looked(perms, ids, k, w.now)
            && FindSpec(perms, who, capability, cap, requested, w) ==
               if ids == [] then Search(None, NoPermission, false)
               else if k < |ids| then Search(Some(ids[k]), Authorized, true)
               else if OnRevokedDevice in Seen(standings, k) then Search(None, DeviceRevoked, true)
               else if OtherDevice in Seen(standings, k) then Search(None, DeviceScopeMismatch, true)
               else if BadVocabulary in Seen(standings, k) then Search(None, ActionNotAllowed, false)
               else if WasExpired in Seen(standings, k) then Search(None, PermissionExpired, false)
               else if WasRevoked in Seen(standings, k) then Search(None, PermissionRevoked, false)
               else Search(None, ScopeMismatch, false)
  {
    hide Candidates;
    hide Observed;
    var ids := Candidates(perms, who.user, capability, |perms|);
    var standings := Standings(perms, ids, who, cap, requested, w);
    FirstUsable(standings, k);
    if k == |ids| {
      assert standings[..k] == standings;
    }
  }

  lemma OneMore(standings: seq<Standing>, k: nat)
    requires k < |standings|
    ensures Seen(standings, k + 1) == Seen(standings, k) + {standings[k]}
  {
    assert standings[..k + 1] == standings[..k] + [standings[k]];
  }

  lemma UsableUntouched(perms: seq<Permission>, id: Id, who: Identity, cap: Capability, requested: Scope, w: World)
    requires id < |perms| && StandingOf(perms[id], who, cap, requested, w) == Usable
    ensures !Due(perms[id].expiresAt, w.now)
  {
  }

  lemma FirstUsable(standings: seq<Standing>, k: nat)
    requires k <= |standings| && Usable !in standings[..k]
    requires k < |standings| ==> standings[k] == Usable
    ensures Misses(standings) == k
  {
    var m := Misses(standings);
    assert forall i | 0 <= i < k :: standings[i] == standings[..k][i];
    assert forall i | 0 <= i < m :: standings[i] == standings[..m][i];
  }

  /** The permission found is the newest one that would serve the request. */
  lemma FoundIsNewest(perms: seq<Permission>, who: Identity, capability: string, cap: Capability, requested: Scope,
      w: World, other: Id)
    requires other < |perms| && perms[other].user == who.user && perms[other].capability == capability
    requires StandingOf(perms[other], who, cap, requested, w) == Usable
    ensures var r := FindSpec(perms, who, capability, cap, requested, w);
            r.found.Some? && (r.found.value == other || Before(perms, r.found.value, other))
  {
    var ids := Candidates(perms, who.user, capability, |perms|);
    CandidatesOrdered(perms, who.user, capability, |perms|);
    CandidatesComplete(perms, who.user, capability, |perms|, other);
    hide Candidates;
    hide StandingOf;
    hide Before;
    hide Misses;
    hide NewestFirst;
    var j :| 0 <= j < |ids| && ids[j] == other;
    FirstComesFirst(perms, ids, Standings(perms, ids, who, cap, requested, w), j);
  }

  lemma FirstComesFirst(perms: seq<Permission>, ids: seq<Id>, standings: seq<Standing>, j: nat)
    requires Within(ids, |perms|) && NewestFirst(perms, ids) && |standings| == |ids|
    requires j < |standings| && standings[j] == Usable
    ensures var k := Misses(standings); k < |ids| && (k == j || Before(perms, ids[k], ids[j]))
  {
    hide Before;
    var k := Misses(standings);
    assert forall i | 0 <= i < k :: standings[i] == standings[..k][i];
  }

  // ---------------------------------------------------------------- confirmation

  /** Whether the permission's policy asks for a confirmation at this risk. */
  predicate NeedsConfirmation(p: Permission, risk: nat) {
    || p.policy == EveryTime
    || (p.policy == Once && p.confirmedOnceAt.None?)
    || (p.policy == HighRiskOnly && risk >= RISK_HIGH)
  }

  predicate Binds(c: Confirmation, permission: Id, req: AuthorizationRequest) {
    c.permission == permission && c.capability == req.capability && c.action == req.action && c.scope == req.scope
  }

  datatype Check = Proceed | Stop(kind: Kind, reason: Reason)

  /** What presenting confirmation `c` yields at instant `now`, and the confirmation afterwards. */
  function Present(c: Confirmation, permission: Id, req: AuthorizationRequest, now: Time): (Confirmation, Check) {
    if !Binds(c, permission, req) then (c, Stop(Deny, ConfirmationMismatch))
    else if now >= c.expiresAt || c.status == Lapsed then (c.(status := Lapsed), Stop(Deny, ConfirmationExpired))
    else if c.status == Rejected then (c, Stop(Deny, ConfirmationRejected))
    else if c.status != Approved then (c, Stop(RequireConfirmation, ConfirmationRequired))
    else if c.consumedAt.Some? then (c, Stop(Deny, ConfirmationReplayed))
    else (c.(consumedAt := Some(now)), Proceed)
  }

  /** `_confirmation_result` on values. */
  function ConfirmationSpec(db: Db, who: Identity, req: AuthorizationRequest, permission: Id, risk: nat,
      now: Time): (r: (Db, Check))
    requires permission < |db.permissions|
  {
    if !NeedsConfirmation(db.permissions[permission], risk) then (db, Proceed)
    else if req.confirmation.None? then (db, Stop(RequireConfirmation, ConfirmationRequired))
    else
      var c := req.confirmation.value;
      if c >= |db.confirmations| || db.confirmations[c].user != who.user then (db, Stop(Deny, ConfirmationMismatch))
      else
        var (row, check) := Present(db.confirmations[c], permission, req, now);
        (db.(confirmations := db.confirmations[c := row]), check)
  }

  /** `_confirmation_result` */
  method ConfirmationResult(s: Session, who: Identity, req: AuthorizationRequest, permission: Id, risk: nat, now: Time)
    returns (r: Check)
    requires permission < |s.db.permissions|
    modifies s
    ensures (s.db, r) == ConfirmationSpec(old(s.db), who, req, permission, risk, now)
  {
    var p := s.db.permissions[permission];
    var policyRequires :=
      || p.policy == EveryTime
      || (p.policy == Once && p.confirmedOnceAt.None?)
      || (p.policy == HighRiskOnly && risk >= RISK_HIGH);
    if !policyRequires {
      return Proceed;
    }
    if req.confirmation.None? {
      return Stop(RequireConfirmation, ConfirmationRequired);
    }
    var id := req.confirmation.value;
    if id >= |s.db.confirmations| || s.db.confirmations[id].user != who.user {
      return Stop(Deny, ConfirmationMismatch);
    }
    var c := s.db.confirmations[id];
    assert s.db.confirmations[id := c] == s.db.confirmations;
    if c.permission != permission || c.capability != req.capability || c.action != req.action || c.scope != req.scope {
      return Stop(Deny, ConfirmationMismatch);
    }
    if now >= c.expiresAt || c.status == Lapsed {
      s.db := s.db.(confirmations := s.db.confirmations[id := c.(status := Lapsed)]);
      return Stop(Deny, ConfirmationExpired);
    }
    if c.status == Rejected {
      return Stop(Deny, ConfirmationRejected);
    }
    if c.status != Approved {
      return Stop(RequireConfirmation, ConfirmationRequired);
    }
    if c.consumedAt.Some? {
      return Stop(Deny, ConfirmationReplayed);
    }
    s.db := s.db.(confirmations := s.db.confirmations[id := c.(consumedAt := Some(now))]);
    return Proceed;
  }

  // ---------------------------------------------------------------- the decision

  datatype Verdict = Verdict(kind: Kind, reason: Reason, permission: Option<Id>, risk: nat, scopeMatch: bool,
      financialGuard: bool)

  /** Everything `authorize` does before it records the decision: the store after the side
      effects of the search and of the confirmation check, and the verdict. */
  function Judge(db: Db, caps: Capabilities, w: World, who: Identity, req: AuthorizationRequest): (r: (Db, Verdict))
    ensures r.1.kind == RequireConfirmation ==> r.1.permission.Some?
    ensures r.0 == db.(permissions := r.0.permissions, confirmations := r.0.confirmations)
    ensures |r.0.confirmations| == |db.confirmations|
  {
    if who.user !in w.users || w.users[who.user].authUser != who.authUser
    then (db, Verdict(Deny, InvalidIdentity, None, 0, false, false))
    else if w.users[who.user].disabled then (db, Verdict(Deny, UserDisabled, None, 0, false, false))
    else if req.capability !in caps then (db, Verdict(Deny, CapabilityNotFound, None, 0, false, false))
    else
      var cap := caps[req.capability];
      if !cap.enabled then (db, Verdict(Deny, CapabilityDisabled, None, cap.defaultRisk, false, false))
      else if !AllowsOperations(cap, req.scope.operations)
      then (db, Verdict(Deny, ActionNotAllowed, None, cap.defaultRisk, false, false))
      else JudgeSearch(db, cap, w, who, req)
  }

  /** The pipeline from the permission search on. */
  function JudgeSearch(db: Db, cap: Capability, w: World, who: Identity, req: AuthorizationRequest): (r: (Db, Verdict))
    ensures r.1.kind == RequireConfirmation ==> r.1.permission.Some?
    ensures r.0 == db.(permissions := r.0.permissions, confirmations := r.0.confirmations)
    ensures |r.0.confirmations| == |db.confirmations|
  {
    var search := FindSpec(db.permissions, who, req.capability, cap, req.scope, w);
    var db1 := db.(permissions := AfterSearch(db.permissions, who, req.capability, cap, req.scope, w));
    if search.found.None? then (db1, Verdict(Deny, search.reason, None, cap.defaultRisk, search.scopeMatch, false))
    else JudgeUse(db1, cap, who, req, search.found.value, w.now)
  }

  /** The pipeline once a permission covers the request: risk, financial guard, confirmation. */
  function JudgeUse(db: Db, cap: Capability, who: Identity, req: AuthorizationRequest, p: Id,
      now: Time): (r: (Db, Verdict))
    requires p < |db.permissions|
    ensures r.1.permission == Some(p)
    ensures r.0 == db.(permissions := r.0.permissions, confirmations := r.0.confirmations)
    ensures |r.0.confirmations| == |db.confirmations|
  {
    if !AllowsOperations(cap, [req.action])
    then (db, Verdict(Deny, EvaluationFailed, Some(p), RISK_CRITICAL, true, false))
    else if Blocked(cap) then (db, Verdict(Deny, FinancialExecutionBlocked, Some(p), RISK_CRITICAL, true, true))
    else
      var (db1, check) := ConfirmationSpec(db, who, req, p, Risk(cap), now);
      match check
      case Stop(kind, reason) => (db1, Verdict(kind, reason, Some(p), Risk(cap), true, false))
      case Proceed =>
        (db1.(permissions := db1.permissions[p := db1.permissions[p].(lastUsedAt := Some(now))]),
         Verdict(Allow, Authorized, Some(p), Risk(cap), true, false))
  }

  function Record(who: Identity, req: AuthorizationRequest, v: Verdict, now: Time): Decision {
    Decision(who.user, who.device, v.permission, req.capability, req.action, req.scope, v.kind, v.reason, v.risk,
        v.scopeMatch, v.financialGuard, now)
  }

  function Request(who: Identity, req: AuthorizationRequest, decision: Id, permission: Id, now: Time): Confirmation {
    Confirmation(who.user, decision, permission, req.capability, req.action, req.scope, Pending,
                 now, now + CONFIRMATION_TTL, None, None, None)
  }

  /** `_finalize` on values: one immutable decision, and one pending confirmation if asked for. */
  function FinalizeSpec(db: Db, who: Identity, req: AuthorizationRequest, v: Verdict, now: Time): (r: Db)
    requires v.kind == RequireConfirmation ==> v.permission.Some?
  {
    var db1 := db.(decisions := db.decisions + [Record(who, req, v, now)]);
    if v.kind == RequireConfirmation
    then db1.(confirmations := db1.confirmations + [Request(who, req, |db.decisions|, v.permission.value, now)])
    else db1
  }

  /** The whole pipeline on values. The new decision is the last row of the decisions table. */
  function AuthorizeSpec(db: Db, caps: Capabilities, w: World, who: Identity, req: AuthorizationRequest): (r: Db)
    ensures |r.decisions| == |db.decisions| + 1
    ensures r == db.(permissions := r.permissions, confirmations := r.confirmations, decisions := r.decisions)
  {
    var (db1, v) := Judge(db, caps, w, who, req);
    FinalizeSpec(db1, who, req, v, w.now)
  }

  /** The confirmation a fresh decision asked for, if any. */
  function AskedConfirmation(db: Db): (c: Option<Id>)
    requires |db.decisions| > 0
  {
    if db.decisions[|db.decisions| - 1].kind == RequireConfirmation && |db.confirmations| > 0
    then Some(|db.confirmations| - 1) else None
  }

  /** `_finalize` */
  method Finalize(s: Session, who: Identity, req: AuthorizationRequest, v: Verdict, now: Time) returns (decision: Id)
    requires v.kind == RequireConfirmation ==> v.permission.Some?
    modifies s
    ensures s.db == FinalizeSpec(old(s.db), who, req, v, now)
    ensures decision == |old(s.db.decisions)|
  {
    decision := |s.db.decisions|;
    s.db := s.db.(decisions := s.db.decisions + [Record(who, req, v, now)]);
    if v.kind == RequireConfirmation {
      s.db := s.db.(confirmations := s.db.confirmations + [Request(who, req, decision, v.permission.value, now)]);
    }
  }

  /** `PermissionsEngine.authorize` */
  method Authorize(s: Session, caps: Capabilities, w: World, who: Identity, req: AuthorizationRequest)
      returns (decision: Id)
    modifies s
    ensures s.db == AuthorizeSpec(old(s.db), caps, w, who, req)
    ensures decision == |old(s.db.decisions)| == |s.db.decisions| - 1
  {
    hide FindSpec;
    hide AfterSearch;
    hide AllowsOperations;
    if who.user !in w.users || w.users[who.user].authUser != who.authUser {
      decision := Finalize(s, who, req, Verdict(Deny, InvalidIdentity, None, 0, false, false), w.now);
      return;
    }
    if w.users[who.user].disabled {
      decision := Finalize(s, who, req, Verdict(Deny, UserDisabled, None, 0, false, false), w.now);
      return;
    }
    if req.capability !in caps {
      decision := Finalize(s, who, req, Verdict(Deny, CapabilityNotFound, None, 0, false, false), w.now);
      return;
    }
    var cap := caps[req.capability];
    if !cap.enabled {
      decision := Finalize(s, who, req, Verdict(Deny, CapabilityDisabled, None, cap.defaultRisk, false, false), w.now);
      return;
    }
    if !AllowsOperations(cap, req.scope.operations) {
      decision := Finalize(s, who, req, Verdict(Deny, ActionNotAllowed, None, cap.defaultRisk, false, false), w.now);
      return;
    }
    var search := FindPermission(s, who, req.capability, cap, req.scope, w);
    if search.found.None? {
      decision := Finalize(s, who, req, Verdict(Deny, search.reason, None, cap.defaultRisk, search.scopeMatch, false),
          w.now);
      return;
    }
    if !AllowsOperations(cap, [req.action]) {
      decision := Finalize(s, who, req, Verdict(Deny, EvaluationFailed, search.found, RISK_CRITICAL, true, false),
          w.now);
      return;
    }
    if Blocked(cap) {
      var blocked := Verdict(Deny, FinancialExecutionBlocked, search.found, RISK_CRITICAL, true, true);
      decision := Finalize(s, who, req, blocked, w.now);
      return;
    }
    var p := search.found.value;
    var check := ConfirmationResult(s, who, req, p, Risk(cap), w.now);
    if check.Stop? {
      decision := Finalize(s, who, req, Verdict(check.kind, check.reason, search.found, Risk(cap), true, false), w.now);
      return;
    }
    s.db := s.db.(permissions := s.db.permissions[p := s.db.permissions[p].(lastUsedAt := Some(w.now))]);
    decision := Finalize(s, who, req, Verdict(Allow, Authorized, search.found, Risk(cap), true, false), w.now);
  }

  /** `get_owned_decision`: visible to its owner only. */
  predicate OwnsDecision(db: Db, user: Id, decision: Id) {
    decision < |db.decisions| && db.decisions[decision].user == user
  }
}
