/** A user's own permissions and confirmations (backend/app/permissions/service.py). */
module PermissionAdministration {
  import opened Common
  import opened Scopes
  import opened AuthorityStore
  import opened PermissionsEngine

  datatype GrantRequest = GrantRequest(
    capability: string,
    scope: Scope,
    device: Option<Id>,
    policy: ConfirmationPolicy,
    autoExecute: bool,
    expiresAt: Option<Time>)

  /** `_is_expired` */
  predicate IsExpired(p: Permission, now: Time) {
    p.status == Active && Due(p.expiresAt, now)
  }

  function ObserveExpiry(p: Permission, now: Time): Permission {
    if IsExpired(p, now) then p.(status := Expired) else p
  }

  predicate SameGrant(p: Permission, who: Identity, req: GrantRequest) {
    && p.user == who.user && p.capability == req.capability && p.device == req.device
    && p.scope == req.scope && p.status == Active && p.policy == req.policy
    && p.autoExecute == req.autoExecute
  }

  /** The active row of the same grant, if there is one. */
  function ExistingGrant(perms: seq<Permission>, who: Identity, req: GrantRequest): (r: Option<Id>)
    ensures r.Some? ==> r.value < |perms| && SameGrant(perms[r.value], who, req)
    ensures r.None? ==> forall i | 0 <= i < |perms| :: !SameGrant(perms[i], who, req)
  {
    if perms == [] then None
    else
      var last := |perms| - 1;
      if SameGrant(perms[last], who, req) then Some(last) else ExistingGrant(perms[..last], who, req)
  }

  function NewGrant(w: World, who: Identity, req: GrantRequest): Permission {
    Permission(w.uuid, who.user, req.capability, req.device, req.scope, Active, req.policy, req.autoExecute, w.now,
        req.expiresAt,
               None, None, None)
  }

  /** `grant` on values: the store and the permission that answers the request. */
  function GrantSpec(db: Db, caps: Capabilities, w: World, who: Identity, req: GrantRequest): Outcome<(Db, Id)> {
    if !who.aal2 then Raised(StepUpRequired)
    else if req.expiresAt.Some? && req.expiresAt.value <= w.now then Raised(InvalidPermissionData)
    else if req.capability !in caps then Raised(UnknownCapability)
    else if !caps[req.capability].enabled then Raised(DisabledCapability)
    else if !AllowsOperations(caps[req.capability], req.scope.operations) then Raised(ActionRefused)
    else if req.device.Some? && (req.device.value !in w.devices || w.devices[req.device.value].owner != who.user)
    then Raised(DeviceMissing)
    else if req.device.Some? && w.devices[req.device.value].revoked then Raised(DeviceUnusable)
    else
      var existing := ExistingGrant(db.permissions, who, req);
      if existing.Some? && !IsExpired(db.permissions[existing.value], w.now) then Ok((db, existing.value))
      else
        var kept :=
          if existing.Some? then db.permissions[existing.value := ObserveExpiry(db.permissions[existing.value], w.now)]
          else db.permissions;
        Ok((db.(permissions := kept + [NewGrant(w, who, req)]), |db.permissions|))
  }

  /** When the permission that answers a grant has the expiry that was asked for: a live grant with
      the same other terms is returned as it is, whatever expiry it has. */
  lemma GrantExpiry(db: Db, caps: Capabilities, w: World, who: Identity, req: GrantRequest)
    requires GrantSpec(db, caps, w, who, req).Ok?
    ensures var (r, id) := GrantSpec(db, caps, w, who, req).value;
            var existing := ExistingGrant(db.permissions, who, req);
            && id < |r.permissions|
            && (r.permissions[id].expiresAt == req.expiresAt <==>
                  || existing.None?
                  || IsExpired(db.permissions[existing.value], w.now)
                  || db.permissions[existing.value].expiresAt == req.expiresAt)
  {
  }

  /** One input on which it does not: granted without expiry, then again until instant 10. */
  lemma GrantKeepsOldExpiry()
    ensures var scope := Scope("mail", [], ["send"]);
            var caps := map["mail" := Capability(true, ["send"], 1, false, false, false, false)];
            var w := World(0, map[], map[], Policy(Normal, true, true), 0);
            var who := Identity(0, 0, None, true);
            var forever := GrantRequest("mail", scope, None, Never, false, None);
            var db := GrantSpec(EMPTY, caps, w, who, forever);
            && db.Ok?
            && var again := GrantSpec(db.value.0, caps, w, who, forever.(expiresAt := Some(10)));
               again.Ok? && again.value.1 == 0 && again.value.0.permissions[0].expiresAt.None?
  {
    var scope := Scope("mail", [], ["send"]);
    var who := Identity(0, 0, None, true);
    var forever := GrantRequest("mail", scope, None, Never, false, None);
    var w := World(0, map[], map[], Policy(Normal, true, true), 0);
    var row := NewGrant(w, who, forever);
    assert ExistingGrant([], who, forever).None?;
    assert [] + [row] == [row] && [row][0] == row;
    assert ExistingGrant([row], who, forever.(expiresAt := Some(10))) == Some(0);
  }

  /** `get_owned` on values. */
  function ReadSpec(db: Db, w: World, who: Identity, id: Id): Outcome<Db> {
    if id >= |db.permissions| || db.permissions[id].user != who.user then Raised(PermissionMissing)
    else Ok(db.(permissions := db.permissions[id := ObserveExpiry(db.permissions[id], w.now)]))
  }

  /** `list_owned` on values: every due permission of the user is marked expired. */
  function ListSpec(db: Db, w: World, who: Identity): Db {
    db.(permissions := seq(|db.permissions|, i requires 0 <= i < |db.permissions| =>
      if db.permissions[i].user == who.user then ObserveExpiry(db.permissions[i], w.now) else db.permissions[i]))
  }

  /** `revoke` on values. */
  function RevokeSpec(db: Db, w: World, who: Identity, id: Id): Outcome<Db> {
    var db1 :- ReadSpec(db, w, who, id);
    var p := db1.permissions[id];
    if p.status == Revoked then Ok(db1)
    else Ok(db1.(permissions := db1.permissions[id := p.(status := Revoked, revokedAt := Some(w.now))]))
  }

  /** `approve_confirmation` on values. */
  function ApproveSpec(db: Db, w: World, who: Identity, id: Id): Outcome<Db> {
    if !who.aal2 then Raised(StepUpRequired)
    else if id >= |db.confirmations| || db.confirmations[id].user != who.user then Raised(ConfirmationMissing)
    else
      var c := db.confirmations[id];
      if w.now >= c.expiresAt then Raised(ConfirmationTooLate)
      else if c.status == Rejected then Raised(ConfirmationRefused)
      else if c.status == Lapsed then Raised(ConfirmationTooLate)
      else if c.status == Approved then Ok(db)
      else if c.permission >= |db.permissions| || db.permissions[c.permission].user != who.user
      then Raised(PermissionMissing)
      else
        var p := db.permissions[c.permission];
        Ok(db.(
          confirmations := db.confirmations[id := c.(status := Approved, confirmedAt := Some(w.now))],
          permissions := if p.policy == Once
                         then db.permissions[c.permission := p.(confirmedOnceAt := Some(w.now))]
                         else db.permissions))
  }

  /** `reject_confirmation` on values. */
  function RejectSpec(db: Db, w: World, who: Identity, id: Id): Outcome<Db> {
    if !who.aal2 then Raised(StepUpRequired)
    else if id >= |db.confirmations| || db.confirmations[id].user != who.user then Raised(ConfirmationMissing)
    else
      var c := db.confirmations[id];
      if w.now >= c.expiresAt then Raised(ConfirmationTooLate)
      else if c.status == Approved then Raised(ConfirmationRefused)
      else if c.status == Pending
      then Ok(db.(confirmations := db.confirmations[id := c.(status := Rejected, rejectedAt := Some(w.now))]))
      else Ok(db)
  }

  method Grant(s: Session, caps: Capabilities, w: World, who: Identity, req: GrantRequest) returns (r: Outcome<Id>)
    modifies s
    ensures match GrantSpec(old(s.db), caps, w, who, req)
            case Ok((db, id)) => r == Ok(id) && s.db == db
            case Raised(e) => r == Raised(e) && s.db == old(s.db)
  {
    if !who.aal2 {
      return Raised(StepUpRequired);
    }
    if req.expiresAt.Some? && req.expiresAt.value <= w.now {
      return Raised(InvalidPermissionData);
    }
    if req.capability !in caps {
      return Raised(UnknownCapability);
    }
    if !caps[req.capability].enabled {
      return Raised(DisabledCapability);
    }
    if !AllowsOperations(caps[req.capability], req.scope.operations) {
      return Raised(ActionRefused);
    }
    if req.device.Some? {
      if req.device.value !in w.devices || w.devices[req.device.value].owner != who.user {
        return Raised(DeviceMissing);
      }
      if w.devices[req.device.value].revoked {
        return Raised(DeviceUnusable);
      }
    }
    var existing := ExistingGrant(s.db.permissions, who, req);
    if existing.Some? && !IsExpired(s.db.permissions[existing.value], w.now) {
      return Ok(existing.value);
    }
    if existing.Some? {
      var expired := s.db.permissions[existing.value].(status := Expired);
      s.db := s.db.(permissions := s.db.permissions[existing.value := expired]);
    }
    s.db := s.db.(permissions := s.db.permissions + [NewGrant(w, who, req)]);
    return Ok(|s.db.permissions| - 1);
  }

  method ListOwned(s: Session, w: World, who: Identity)
    modifies s
    ensures s.db == ListSpec(old(s.db), w, who)
  {
    ghost var was := s.db;
    var i := 0;
    while i < |s.db.permissions|
      invariant 0 <= i <= |s.db.permissions| == |was.permissions|
      invariant s.db == was.(permissions := s.db.permissions)
      invariant s.db.permissions[..i] == ListSpec(was, w, who).permissions[..i]
      invariant s.db.permissions[i..] == was.permissions[i..]
    {
      var p := s.db.permissions[i];
      assert p == s.db.permissions[i..][0] == was.permissions[i];
      if p.user == who.user && IsExpired(p, w.now) {
        s.db := s.db.(permissions := s.db.permissions[i := p.(status := Expired)]);
      }
      assert s.db.permissions[i] == ListSpec(was, w, who).permissions[i];
      i := i + 1;
    }
  }

  method Revoke(s: Session, w: World, who: Identity, id: Id) returns (r: Outcome<()>)
    modifies s
    ensures Commits(old(s.db), s.db, r, RevokeSpec(old(s.db), w, who, id))
  {
    if id >= |s.db.permissions| || s.db.permissions[id].user != who.user {
      return Raised(PermissionMissing);
    }
    var p := s.db.permissions[id];
    assert s.db.permissions[id := p] == s.db.permissions;
    if IsExpired(p, w.now) {
      p := p.(status := Expired);
      s.db := s.db.(permissions := s.db.permissions[id := p]);
    }
    if p.status != Revoked {
      s.db := s.db.(permissions := s.db.permissions[id := p.(status := Revoked, revokedAt := Some(w.now))]);
    }
    return Ok(());
  }

  method ApproveConfirmation(s: Session, w: World, who: Identity, id: Id) returns (r: Outcome<()>)
    modifies s
    ensures Commits(old(s.db), s.db, r, ApproveSpec(old(s.db), w, who, id))
  {
    if !who.aal2 {
      return Raised(StepUpRequired);
    }
    if id >= |s.db.confirmations| || s.db.confirmations[id].user != who.user {
      return Raised(ConfirmationMissing);
    }
    var saved := s.db;
    var c := s.db.confirmations[id];
    if w.now >= c.expiresAt {
      s.db := s.db.(confirmations := s.db.confirmations[id := c.(status := Lapsed)]);
      s.db := saved;
      return Raised(ConfirmationTooLate);
    }
    if c.status == Rejected {
      return Raised(ConfirmationRefused);
    }
    if c.status == Lapsed {
      return Raised(ConfirmationTooLate);
    }
    if c.status == Pending {
      s.db := s.db.(confirmations := s.db.confirmations[id := c.(status := Approved, confirmedAt := Some(w.now))]);
      if c.permission >= |s.db.permissions| || s.db.permissions[c.permission].user != who.user {
        s.db := saved;
        return Raised(PermissionMissing);
      }
      var p := s.db.permissions[c.permission];
      if p.policy == Once {
        s.db := s.db.(permissions := s.db.permissions[c.permission := p.(confirmedOnceAt := Some(w.now))]);
      }
    }
    return Ok(());
  }

  method RejectConfirmation(s: Session, w: World, who: Identity, id: Id) returns (r: Outcome<()>)
    modifies s
    ensures Commits(old(s.db), s.db, r, RejectSpec(old(s.db), w, who, id))
  {
    if !who.aal2 {
      return Raised(StepUpRequired);
    }
    if id >= |s.db.confirmations| || s.db.confirmations[id].user != who.user {
      return Raised(ConfirmationMissing);
    }
    var c := s.db.confirmations[id];
    if w.now >= c.expiresAt {
      return Raised(ConfirmationTooLate);
    }
    if c.status == Approved {
      return Raised(ConfirmationRefused);
    }
    if c.status == Pending {
      s.db := s.db.(confirmations := s.db.confirmations[id := c.(status := Rejected, rejectedAt := Some(w.now))]);
    }
    return Ok(());
  }
}
