/** Every operation on permissions, confirmations and decisions keeps the authority invariant. */
module AuthoritySafety {
  import opened Common
  import opened Scopes
  import opened AuthorityStore
  import opened PermissionsEngine
  import opened PermissionAdministration
  import opened AuthorityInvariant

  // ---------------------------------------------------------------- counting

  lemma UsesAppend(ds: seq<Decision>, d: Decision, perms: seq<Permission>, u: Use)
    ensures Uses(ds + [d], perms, u) == Uses(ds, perms, u) + One(IsUse(d, perms, u))
  {
    assert (ds + [d])[..|ds|] == ds;
  }

  lemma ConsumptionsAppend(cs: seq<Confirmation>, c: Confirmation, u: Use)
    ensures Consumptions(cs + [c], u) == Consumptions(cs, u) + One(IsConsumption(c, u))
  {
    assert (cs + [c])[..|cs|] == cs;
  }

  lemma {:induction false} UsesFrame(ds: seq<Decision>, perms: seq<Permission>, perms': seq<Permission>, u: Use)
    requires PermissionsEvolve(perms, perms')
    requires forall d | 0 <= d < |ds| :: ds[d].permission.Some? ==> ds[d].permission.value < |perms|
    ensures Uses(ds, perms, u) == Uses(ds, perms', u)
  {
    if ds != [] {
      UsesFrame(ds[..|ds| - 1], perms, perms', u);
      var d := ds[|ds| - 1];
      if d.permission.Some? {
        assert PermissionEvolves(perms[d.permission.value], perms'[d.permission.value]);
      }
    }
  }

  /** Changing one confirmation changes the count by that confirmation only. */
  lemma {:induction false} ConsumptionsUpdate(cs: seq<Confirmation>, i: nat, c: Confirmation, u: Use)
    requires i < |cs|
    ensures Consumptions(cs[i := c], u) + One(IsConsumption(cs[i], u)) == Consumptions(cs, u) + One(IsConsumption(c, u))
  {
    var n := |cs| - 1;
    if i == n {
      assert cs[i := c][..n] == cs[..n];
    } else {
      ConsumptionsUpdate(cs[..n], i, c, u);
      assert cs[i := c][..n] == cs[..n][i := c];
    }
  }

  lemma {:induction false} EverUpdate(cs: seq<Confirmation>, i: nat, c: Confirmation, u: Use)
    requires i < |cs|
    ensures ConsumptionsEver(cs[i := c], u) + One(WasConsumption(cs[i], u)) ==
            ConsumptionsEver(cs, u) + One(WasConsumption(c, u))
  {
    var n := |cs| - 1;
    if i == n {
      assert cs[i := c][..n] == cs[..n];
    } else {
      EverUpdate(cs[..n], i, c, u);
      assert cs[i := c][..n] == cs[..n][i := c];
    }
  }

  lemma {:induction false} NothingConsumed(cs: seq<Confirmation>, u: Use)
    requires forall t: Time :: Consumptions(cs, u.(at := t)) == 0
    ensures ConsumptionsEver(cs, u) == 0
  {
    if cs != [] {
      var c := cs[|cs| - 1];
      forall t: Time ensures Consumptions(cs[..|cs| - 1], u.(at := t)) == 0 && !IsConsumption(c, u.(at := t)) {
        assert Consumptions(cs, u.(at := t)) == 0;
      }
      NothingConsumed(cs[..|cs| - 1], u);
    }
  }

  lemma {:induction false} SomeConsumption(cs: seq<Confirmation>, u: Use) returns (i: nat)
    requires Consumptions(cs, u) > 0
    ensures i < |cs| && IsConsumption(cs[i], u)
  {
    i := |cs| - 1;
    if !IsConsumption(cs[i], u) {
      i := SomeConsumption(cs[..i], u);
    }
  }

  /** Counts that agree at every instant agree when the instant is left out: each use is matched
      with the confirmation that paid for it. */
  lemma {:induction false} BalancedEver(ds: seq<Decision>, perms: seq<Permission>, cs: seq<Confirmation>, u: Use)
    requires forall t: Time :: Uses(ds, perms, u.(at := t)) == Consumptions(cs, u.(at := t))
    ensures UsesEver(ds, perms, u) == ConsumptionsEver(cs, u)
    decreases |ds|
  {
    if ds == [] {
      forall t: Time ensures Consumptions(cs, u.(at := t)) == 0 {
        assert Uses(ds, perms, u.(at := t)) == 0;
      }
      NothingConsumed(cs, u);
    } else {
      var rest, d := ds[..|ds| - 1], ds[|ds| - 1];
      var mine := u.(at := d.at);
      if IsUse(d, perms, mine) {
        assert Uses(ds, perms, u.(at := d.at)) == Consumptions(cs, u.(at := d.at));
        var i := SomeConsumption(cs, mine);
        var unspent := cs[i].(consumedAt := None);
        forall t: Time ensures Uses(rest, perms, u.(at := t)) == Consumptions(cs[i := unspent], u.(at := t)) {
          assert Uses(ds, perms, u.(at := t)) == Consumptions(cs, u.(at := t));
          ConsumptionsUpdate(cs, i, unspent, u.(at := t));
        }
        BalancedEver(rest, perms, cs[i := unspent], u);
        EverUpdate(cs, i, unspent, u);
      } else {
        forall t: Time ensures Uses(rest, perms, u.(at := t)) == Consumptions(cs, u.(at := t)) {
          assert Uses(ds, perms, u.(at := t)) == Consumptions(cs, u.(at := t));
        }
        BalancedEver(rest, perms, cs, u);
      }
    }
  }

  // ---------------------------------------------------------------- permissions only

  /** An approval stays on record. */
  lemma BackedKept(c: seq<Confirmation>, d: seq<Confirmation>, permission: Id, when: Time)
    requires ConfirmationsEvolve(c, d) && Backed(c, permission, when)
    ensures Backed(d, permission, when)
  {
    var i :| 0 <= i < |c| && c[i].permission == permission && c[i].confirmedAt.Some? && c[i].confirmedAt.value <= when;
    assert ConfirmationEvolves(c[i], d[i]);
  }

  /** A decision stays in order when permissions keep their rows and confirmations evolve. */
  lemma DecisionKept(db: Db, r: Db, caps: Capabilities, d: Decision)
    requires DecisionOk(db, caps, d) && PermissionsEvolve(db.permissions, r.permissions)
        && ConfirmationsEvolve(db.confirmations, r.confirmations)
    ensures DecisionOk(r, caps, d)
  {
    hide Backed;
    if d.permission.Some? {
      assert PermissionEvolves(db.permissions[d.permission.value], r.permissions[d.permission.value]);
      if d.kind == Allow && db.permissions[d.permission.value].policy == Once {
        BackedKept(db.confirmations, r.confirmations, d.permission.value, d.at);
      }
    }
  }

  ghost predicate NoNewOnce(p: seq<Permission>, q: seq<Permission>) {
    forall i | 0 <= i < |q| :: q[i].confirmedOnceAt.Some? ==> i < |p| && p[i].confirmedOnceAt.Some?
  }

  lemma PermissionRows(db: Db, perms: seq<Permission>, caps: Capabilities, clock: Time, now: Time)
    requires InvRows(db, caps, clock) && clock <= now
    requires PermissionsEvolve(db.permissions, perms) && NoNewOnce(db.permissions, perms)
    ensures InvRows(db.(permissions := perms), caps, now)
  {
    var db' := db.(permissions := perms);
    forall d | 0 <= d < |db.decisions| ensures DecisionOk(db', caps, db.decisions[d]) {
      DecisionKept(db, db', caps, db.decisions[d]);
    }
    forall c | 0 <= c < |db.confirmations| ensures ConfirmationOk(db', now, db.confirmations[c]) {
      assert ConfirmationOk(db, clock, db.confirmations[c]);
      var p := db.confirmations[c].permission;
      assert PermissionEvolves(db.permissions[p], perms[p]);
    }
    forall p: Id ensures OnceOk(db', p) {
      assert OnceOk(db, p);
    }
  }

  lemma UsesUnderPermissions(db: Db, perms: seq<Permission>, caps: Capabilities, clock: Time)
    requires InvRows(db, caps, clock) && PermissionsEvolve(db.permissions, perms)
    ensures forall u: Use :: Uses(db.decisions, perms, u) == Uses(db.decisions, db.permissions, u)
  {
    assert forall d | 0 <= d < |db.decisions| :: DecisionOk(db, caps, db.decisions[d]);
    forall u: Use ensures Uses(db.decisions, perms, u) == Uses(db.decisions, db.permissions, u) {
      UsesFrame(db.decisions, db.permissions, perms, u);
    }
  }

  /** An operation that only grants, ages or uses permissions keeps the invariant. */
  lemma PermissionsOnly(db: Db, perms: seq<Permission>, caps: Capabilities, clock: Time, now: Time)
    requires InvAuthority(db, caps, clock) && clock <= now
    requires PermissionsEvolve(db.permissions, perms) && NoNewOnce(db.permissions, perms)
    ensures InvAuthority(db.(permissions := perms), caps, now)
  {
    PermissionRows(db, perms, caps, clock, now);
    UsesUnderPermissions(db, perms, caps, clock);
  }

  lemma Idle(db: Db, caps: Capabilities, clock: Time, now: Time)
    requires InvAuthority(db, caps, clock) && clock <= now
    ensures InvAuthority(db, caps, now)
  {
    PermissionsOnly(db, db.permissions, caps, clock, now);
    assert db.(permissions := db.permissions) == db;
  }

  lemma GrantKeeps(db: Db, caps: Capabilities, w: World, who: Identity, req: GrantRequest, clock: Time)
    requires InvAuthority(db, caps, clock) && clock <= w.now
    requires GrantSpec(db, caps, w, who, req).Ok?
    ensures var r := GrantSpec(db, caps, w, who, req).value;
            && r.0 == db.(permissions := r.0.permissions)
            && InvAuthority(r.0, caps, w.now)
            && PermissionsEvolve(db.permissions, r.0.permissions)
            && r.1 < |r.0.permissions|
            && SameGrant(r.0.permissions[r.1], who, req) && !IsExpired(r.0.permissions[r.1], w.now)
  {
    var r := GrantSpec(db, caps, w, who, req).value;
    PermissionsOnly(db, r.0.permissions, caps, clock, w.now);
  }

  lemma RevokeKeeps(db: Db, caps: Capabilities, w: World, who: Identity, id: Id, clock: Time)
    requires InvAuthority(db, caps, clock) && clock <= w.now
    requires RevokeSpec(db, w, who, id).Ok?
    ensures var r := RevokeSpec(db, w, who, id).value;
            && r == db.(permissions := r.permissions)
            && InvAuthority(r, caps, w.now)
            && PermissionsEvolve(db.permissions, r.permissions)
            && r.permissions[id].status == Revoked
  {
    PermissionsOnly(db, RevokeSpec(db, w, who, id).value.permissions, caps, clock, w.now);
  }

  lemma ListKeeps(db: Db, caps: Capabilities, w: World, who: Identity, clock: Time)
    requires InvAuthority(db, caps, clock) && clock <= w.now
    ensures var r := ListSpec(db, w, who);
            && r == db.(permissions := r.permissions)
            && InvAuthority(r, caps, w.now)
            && PermissionsEvolve(db.permissions, r.permissions)
  {
    PermissionsOnly(db, ListSpec(db, w, who).permissions, caps, clock, w.now);
  }

  // ---------------------------------------------------------------- approval and rejection

  /** Approving a pending confirmation, and with it a ONCE permission. */
  lemma ApprovePending(db: Db, caps: Capabilities, id: Id, perms: seq<Permission>, clock: Time, now: Time)
    requires InvAuthority(db, caps, clock) && clock <= now
    requires id < |db.confirmations| && db.confirmations[id].status == Pending && now < db.confirmations[id].expiresAt
    requires var p := db.confirmations[id].permission;
             && p < |db.permissions|
             && perms == (if db.permissions[p].policy == Once
                          then db.permissions[p := db.permissions[p].(confirmedOnceAt := Some(now))]
                          else db.permissions)
    ensures var row := db.confirmations[id].(status := Approved, confirmedAt := Some(now));
            InvAuthority(db.(permissions := perms, confirmations := db.confirmations[id := row]), caps, now)
  {
    var c := db.confirmations[id];
    hide Uses;
    hide Consumptions;
    hide Backed;
    var row := c.(status := Approved, confirmedAt := Some(now));
    var r := db.(permissions := perms, confirmations := db.confirmations[id := row]);
    assert PermissionsEvolve(db.permissions, perms);
    assert ConfirmationOk(db, clock, c);
    forall d | 0 <= d < |db.decisions| ensures DecisionOk(r, caps, r.decisions[d]) {
      assert DecisionOk(db, caps, db.decisions[d]);
      DecisionKept(db, r, caps, db.decisions[d]);
    }
    forall i | 0 <= i < |r.confirmations| ensures ConfirmationOk(r, now, r.confirmations[i]) {
      assert ConfirmationOk(db, clock, db.confirmations[i]);
    }
    forall p: Id ensures OnceOk(r, p) {
      assert OnceOk(db, p);
      if p < |r.permissions| && r.permissions[p].confirmedOnceAt.Some? {
        var i := id;
        if p != c.permission {
          i :| 0 <= i < |db.confirmations| && db.confirmations[i].permission == p
              && db.confirmations[i].confirmedAt.Some?;
        } else if db.permissions[p].policy != Once {
          i :| 0 <= i < |db.confirmations| && db.confirmations[i].permission == p
              && db.confirmations[i].confirmedAt.Some?;
        }
        assert r.confirmations[i].permission == p && r.confirmations[i].confirmedAt.Some?;
      }
    }
    ApproveBalance(db, caps, id, row, perms, clock);
  }

  lemma ApproveBalance(db: Db, caps: Capabilities, id: Id, row: Confirmation, perms: seq<Permission>, clock: Time)
    requires InvAuthority(db, caps, clock) && PermissionsEvolve(db.permissions, perms)
    requires id < |db.confirmations| && db.confirmations[id].status == Pending
    requires row == db.confirmations[id].(status := Approved, confirmedAt := row.confirmedAt)
    ensures Balanced(db.(permissions := perms, confirmations := db.confirmations[id := row]))
  {
    hide Uses;
    hide Consumptions;
    var r := db.(permissions := perms, confirmations := db.confirmations[id := row]);
    forall u: Use ensures Uses(r.decisions, r.permissions, u) == Consumptions(r.confirmations, u) {
      assert forall d | 0 <= d < |db.decisions| :: DecisionOk(db, caps, db.decisions[d]);
      UsesFrame(db.decisions, db.permissions, perms, u);
      assert ConfirmationOk(db, clock, db.confirmations[id]);
      ConsumptionsUpdate(db.confirmations, id, row, u);
    }
  }

  lemma ApproveKeeps(db: Db, caps: Capabilities, w: World, who: Identity, id: Id, clock: Time)
    requires InvAuthority(db, caps, clock) && clock <= w.now
    requires ApproveSpec(db, w, who, id).Ok?
    ensures var r := ApproveSpec(db, w, who, id).value;
            && r == db.(permissions := r.permissions, confirmations := r.confirmations)
            && InvAuthority(r, caps, w.now)
            && PermissionsEvolve(db.permissions, r.permissions)
            && ConfirmationsEvolve(db.confirmations, r.confirmations)
            && r.confirmations[id].status == Approved
  {
    var r := ApproveSpec(db, w, who, id).value;
    assert ConfirmationOk(db, clock, db.confirmations[id]);
    if db.confirmations[id].status == Approved {
      Idle(db, caps, clock, w.now);
    } else {
      ApprovePending(db, caps, id, r.permissions, clock, w.now);
    }
  }

  /** Replacing one confirmation by a later form of itself that keeps its own rules. */
  lemma ConfirmationUpdate(db: Db, caps: Capabilities, id: Id, row: Confirmation, clock: Time, now: Time)
    requires InvRows(db, caps, clock) && clock <= now && id < |db.confirmations|
    requires ConfirmationEvolves(db.confirmations[id], row)
    requires ConfirmationOk(db, now, row)
    ensures InvRows(db.(confirmations := db.confirmations[id := row]), caps, now)
    ensures ConfirmationsEvolve(db.confirmations, db.confirmations[id := row])
  {
    var r := db.(confirmations := db.confirmations[id := row]);
    assert ConfirmationsEvolve(db.confirmations, r.confirmations);
    forall d | 0 <= d < |db.decisions| ensures DecisionOk(r, caps, r.decisions[d]) {
      assert DecisionOk(db, caps, db.decisions[d]);
      DecisionKept(db, r, caps, db.decisions[d]);
    }
    forall c | 0 <= c < |r.confirmations| ensures ConfirmationOk(r, now, r.confirmations[c]) {
      assert ConfirmationOk(db, clock, db.confirmations[c]);
    }
    forall p: Id ensures OnceOk(r, p) {
      assert OnceOk(db, p);
      if p < |r.permissions| && r.permissions[p].confirmedOnceAt.Some? {
        var c :| 0 <= c < |db.confirmations| && db.confirmations[c].permission == p
            && db.confirmations[c].confirmedAt.Some?;
        assert r.confirmations[c].permission == p && r.confirmations[c].confirmedAt.Some?;
      }
    }
  }

  lemma RejectKeeps(db: Db, caps: Capabilities, w: World, who: Identity, id: Id, clock: Time)
    requires InvAuthority(db, caps, clock) && clock <= w.now
    requires RejectSpec(db, w, who, id).Ok?
    ensures var r := RejectSpec(db, w, who, id).value;
            && r == db.(confirmations := r.confirmations)
            && InvAuthority(r, caps, w.now)
            && ConfirmationsEvolve(db.confirmations, r.confirmations)
  {
    var r := RejectSpec(db, w, who, id).value;
    assert ConfirmationOk(db, clock, db.confirmations[id]);
    assert r.confirmations == db.confirmations[id := r.confirmations[id]];
    ConfirmationUpdate(db, caps, id, r.confirmations[id], clock, w.now);
    forall u: Use ensures Uses(r.decisions, r.permissions, u) == Consumptions(r.confirmations, u) {
      ConsumptionsUpdate(db.confirmations, id, r.confirmations[id], u);
    }
  }

  // ---------------------------------------------------------------- authorize

  /** Recording a decision restores the balance the confirmation check left open. */
  lemma FinalizeKeeps(db: Db, caps: Capabilities, who: Identity, req: AuthorizationRequest, v: Verdict, now: Time)
    requires v.kind == RequireConfirmation ==> v.permission.Some?
    requires InvRows(db, caps, now)
    requires DecisionOk(db, caps, Record(who, req, v, now))
    requires forall u: Use ::
        Uses(db.decisions, db.permissions, u) + One(IsUse(Record(who, req, v, now), db.permissions, u)) ==
        Consumptions(db.confirmations, u)
    ensures InvAuthority(FinalizeSpec(db, who, req, v, now), caps, now)
    ensures ConfirmationsEvolve(db.confirmations, FinalizeSpec(db, who, req, v, now).confirmations)
  {
    FinalizeRows(db, caps, who, req, v, now);
    FinalizeBalance(db, who, req, v, now);
    hide DecisionOk;
    hide ConfirmationOk;
    hide OnceOk;
  }

  lemma FinalizeBalance(db: Db, who: Identity, req: AuthorizationRequest, v: Verdict, now: Time)
    requires v.kind == RequireConfirmation ==> v.permission.Some?
    requires forall u: Use ::
        Uses(db.decisions, db.permissions, u) + One(IsUse(Record(who, req, v, now), db.permissions, u)) ==
        Consumptions(db.confirmations, u)
    ensures var r := FinalizeSpec(db, who, req, v, now);
            forall u: Use :: Uses(r.decisions, r.permissions, u) == Consumptions(r.confirmations, u)
  {
    hide Uses;
    hide Consumptions;
    hide IsUse;
    var r := FinalizeSpec(db, who, req, v, now);
    forall u: Use ensures Uses(r.decisions, r.permissions, u) == Consumptions(r.confirmations, u) {
      UsesAppend(db.decisions, Record(who, req, v, now), db.permissions, u);
      if v.kind == RequireConfirmation {
        ConsumptionsAppend(db.confirmations, Request(who, req, |db.decisions|, v.permission.value, now), u);
      }
    }
  }

  lemma FinalizeRows(db: Db, caps: Capabilities, who: Identity, req: AuthorizationRequest, v: Verdict, now: Time)
    requires v.kind == RequireConfirmation ==> v.permission.Some?
    requires InvRows(db, caps, now)
    requires DecisionOk(db, caps, Record(who, req, v, now))
    ensures InvRows(FinalizeSpec(db, who, req, v, now), caps, now)
    ensures ConfirmationsEvolve(db.confirmations, FinalizeSpec(db, who, req, v, now).confirmations)
  {
    var r := FinalizeSpec(db, who, req, v, now);
    assert r.decisions == db.decisions + [Record(who, req, v, now)];
    assert ConfirmationsEvolve(db.confirmations, r.confirmations);
    forall i | 0 <= i < |r.decisions| ensures DecisionOk(r, caps, r.decisions[i]) {
      DecisionKept(db, r, caps, r.decisions[i]);
    }
    forall c | 0 <= c < |r.confirmations| ensures ConfirmationOk(r, now, r.confirmations[c]) {
      if c < |db.confirmations| {
        assert ConfirmationOk(db, now, db.confirmations[c]);
      }
    }
    forall p: Id ensures OnceOk(r, p) {
      assert OnceOk(db, p);
      if p < |r.permissions| && r.permissions[p].confirmedOnceAt.Some? {
        var c :| 0 <= c < |db.confirmations| && db.confirmations[c].permission == p
            && db.confirmations[c].confirmedAt.Some?;
        assert r.confirmations[c].permission == p && r.confirmations[c].confirmedAt.Some?;
      }
    }
  }

  lemma OnceBacked(db: Db, caps: Capabilities, p: Id, clock: Time, now: Time)
    requires InvRows(db, caps, clock) && clock <= now && p < |db.permissions| && db.permissions[p].confirmedOnceAt.Some?
    ensures Backed(db.confirmations, p, now)
  {
    assert OnceOk(db, p);
    var c :| 0 <= c < |db.confirmations| && db.confirmations[c].permission == p
        && db.confirmations[c].confirmedAt.Some?;
    assert ConfirmationOk(db, clock, db.confirmations[c]);
  }

  /** The confirmation check pays for exactly the use it lets through. */
  lemma CheckPays(db: Db, caps: Capabilities, who: Identity, req: AuthorizationRequest, p: Id, risk: nat, clock: Time,
      now: Time)
    requires InvAuthority(db, caps, clock) && clock <= now && p < |db.permissions|
    ensures var (r, check) := ConfirmationSpec(db, who, req, p, risk, now);
            && r == db.(confirmations := r.confirmations)
            && InvRows(r, caps, now)
            && ConfirmationsEvolve(db.confirmations, r.confirmations)
            && (check.Stop? ==> check.kind != Allow)
            && (check.Proceed? && db.permissions[p].policy == Once ==>
                db.permissions[p].confirmedOnceAt.Some? && Backed(r.confirmations, p, now))
            && forall u: Use :: Consumptions(r.confirmations, u) == Consumptions(db.confirmations, u) +
                 One(check.Proceed? && AsksEveryUse(db.permissions[p], risk)
                     && u == Use(who.user, p, req.capability, req.action, req.scope, now))
  {
    hide Uses;
    hide Consumptions;
    var (r, check) := ConfirmationSpec(db, who, req, p, risk, now);
    if check.Proceed? && db.permissions[p].policy == Once {
      OnceBacked(db, caps, p, clock, now);
    }
    hide Backed;
    if !NeedsConfirmation(db.permissions[p], risk) || req.confirmation.None?
        || req.confirmation.value >= |db.confirmations|
       || db.confirmations[req.confirmation.value].user != who.user {
      Idle(db, caps, clock, now);
    } else {
      var id := req.confirmation.value;
      var c := db.confirmations[id];
      assert ConfirmationOk(db, clock, c);
      ConfirmationUpdate(db, caps, id, r.confirmations[id], clock, now);
      forall u: Use ensures Consumptions(r.confirmations, u) == Consumptions(db.confirmations, u) +
                 One(check.Proceed? && AsksEveryUse(db.permissions[p], risk)
                     && u == Use(who.user, p, req.capability, req.action, req.scope, now))
      {
        ConsumptionsUpdate(db.confirmations, id, r.confirmations[id], u);
      }
    }
  }

  /** What a call to `authorize` guarantees. */
  ghost predicate AuthorizeStep(db: Db, r: Db, caps: Capabilities, who: Identity, req: AuthorizationRequest,
      now: Time) {
    && InvAuthority(r, caps, now)
    && r == db.(permissions := r.permissions, confirmations := r.confirmations, decisions := r.decisions)
    && PermissionsEvolve(db.permissions, r.permissions)
    && ConfirmationsEvolve(db.confirmations, r.confirmations)
    && |r.decisions| == |db.decisions| + 1 && db.decisions <= r.decisions
    && var d := r.decisions[|db.decisions|];
    && d.user == who.user && d.capability == req.capability && d.action == req.action && d.scope == req.scope
        && d.at == now
    && (d.kind == RequireConfirmation ==>
        |r.confirmations| == |db.confirmations| + 1 && r.confirmations[|db.confirmations|].decision == |db.decisions|)
  }

  /** The state the pipeline hands to `_finalize`: rows in order, and the balance off by
      exactly the use that the new decision is about to record. */
  ghost predicate Judged(db: Db, r: Db, d: Decision, caps: Capabilities, now: Time) {
    && InvRows(r, caps, now)
    && DecisionOk(r, caps, d)
    && PermissionsEvolve(db.permissions, r.permissions)
    && ConfirmationsEvolve(db.confirmations, r.confirmations)
    && forall u: Use ::
        Uses(r.decisions, r.permissions, u) + One(IsUse(d, r.permissions, u)) == Consumptions(r.confirmations, u)
  }

  lemma RefusedJudged(db: Db, r: Db, d: Decision, caps: Capabilities, now: Time)
    requires InvAuthority(r, caps, now) && d.kind == Deny
    requires d.permission.Some? ==> DecisionOk(r, caps, d)
    requires PermissionsEvolve(db.permissions, r.permissions) && db.confirmations == r.confirmations
    ensures Judged(db, r, d, caps, now)
  {
  }

  /** `authorize` keeps the invariant: no confirmation is lost, forged or spent twice. */
  lemma AuthorizeKeeps(db: Db, caps: Capabilities, w: World, who: Identity, req: AuthorizationRequest, clock: Time)
    requires InvAuthority(db, caps, clock) && clock <= w.now
    ensures AuthorizeStep(db, AuthorizeSpec(db, caps, w, who, req), caps, who, req, w.now)
  {
    hide Judge;
    hide InvRows;
    hide Balanced;
    var (db1, v) := Judge(db, caps, w, who, req);
    JudgeKeeps(db, caps, w, who, req, clock);
    FinalizeKeeps(db1, caps, who, req, v, w.now);
    var r := AuthorizeSpec(db, caps, w, who, req);
    forall i | 0 <= i < |db.confirmations| ensures ConfirmationEvolves(db.confirmations[i], r.confirmations[i]) {
      assert ConfirmationEvolves(db.confirmations[i], db1.confirmations[i])
          && ConfirmationEvolves(db1.confirmations[i], r.confirmations[i]);
    }
  }

  lemma JudgeKeeps(db: Db, caps: Capabilities, w: World, who: Identity, req: AuthorizationRequest, clock: Time)
    requires InvAuthority(db, caps, clock) && clock <= w.now
    ensures var (r, v) := Judge(db, caps, w, who, req);
            Judged(db, r, Record(who, req, v, w.now), caps, w.now)
  {
    hide InvRows;
    hide Balanced;
    hide JudgeSearch;
    Idle(db, caps, clock, w.now);
    var (r, v) := Judge(db, caps, w, who, req);
    if r == db && v.kind == Deny && v.permission.None? {
      RefusedJudged(db, db, Record(who, req, v, w.now), caps, w.now);
    } else {
      JudgeSearchKeeps(db, caps, w, who, req);
    }
  }

  lemma JudgeSearchKeeps(db: Db, caps: Capabilities, w: World, who: Identity, req: AuthorizationRequest)
    requires InvAuthority(db, caps, w.now) && req.capability in caps
    ensures var (r, v) := JudgeSearch(db, caps[req.capability], w, who, req);
            Judged(db, r, Record(who, req, v, w.now), caps, w.now)
  {
    hide InvRows;
    hide Balanced;
    hide JudgeUse;
    hide AfterSearch;
    hide Candidates;
    var cap := caps[req.capability];
    var (r, v) := JudgeSearch(db, cap, w, who, req);
    var perms := AfterSearch(db.permissions, who, req.capability, cap, req.scope, w);
    var search := FindSpec(db.permissions, who, req.capability, cap, req.scope, w);
    var db1 := db.(permissions := perms);
    PermissionsOnly(db, perms, caps, w.now, w.now);
    if search.found.None? {
      RefusedJudged(db, db1, Record(who, req, v, w.now), caps, w.now);
    } else {
      JudgeUseKeeps(db1, caps, w.now, who, req, search.found.value);
      forall i | 0 <= i < |perms| ensures PermissionEvolves(db.permissions[i], r.permissions[i]) {
        assert PermissionEvolves(db.permissions[i], perms[i]) && PermissionEvolves(perms[i], r.permissions[i]);
      }
    }
  }

  /** The last leg of the pipeline, for a permission that covers the request. */
  lemma JudgeUseKeeps(db: Db, caps: Capabilities, now: Time, who: Identity, req: AuthorizationRequest, p: Id)
    requires InvAuthority(db, caps, now) && req.capability in caps
    requires p < |db.permissions| && db.permissions[p].user == who.user
        && db.permissions[p].capability == req.capability
    requires Authorizes(db.permissions[p].scope, req.scope)
    ensures var (r, v) := JudgeUse(db, caps[req.capability], who, req, p, now);
            Judged(db, r, Record(who, req, v, now), caps, now)
  {
    var cap := caps[req.capability];
    var (r, v) := JudgeUse(db, cap, who, req, p, now);
    var d := Record(who, req, v, now);
    if !AllowsOperations(cap, [req.action]) || Blocked(cap) {
      RefusedJudged(db, db, d, caps, now);
    } else {
      CheckPays(db, caps, who, req, p, Risk(cap), now, now);
      var (db1, check) := ConfirmationSpec(db, who, req, p, Risk(cap), now);
      var used := db1.permissions[p := db1.permissions[p].(lastUsedAt := Some(now))];
      PermissionRows(db1, used, caps, now, now);
      UsesUnderPermissions(db1, used, caps, now);
      JudgedUse(db, db1, r, d, p, check, caps, now);
    }
  }

  /** Putting the last leg together. */
  lemma JudgedUse(db: Db, db1: Db, r: Db, d: Decision, p: Id, check: Check, caps: Capabilities, now: Time)
    requires Balanced(db) && db1 == db.(confirmations := db1.confirmations) && p < |db.permissions|
    requires r == if check.Stop? then db1
        else db1.(permissions := db1.permissions[p := db1.permissions[p].(lastUsedAt := Some(now))])
    requires InvRows(r, caps, now)
    requires DecisionOk(r, caps, d) && d.permission == Some(p) && (d.kind == Allow <==> check.Proceed?)
    requires ConfirmationsEvolve(db.confirmations, r.confirmations)
    requires forall u: Use :: Uses(r.decisions, r.permissions, u) == Uses(db.decisions, db.permissions, u)
    requires forall u: Use :: Consumptions(r.confirmations, u) == Consumptions(db.confirmations, u) +
               One(check.Proceed? && AsksEveryUse(db.permissions[p], d.risk)
                   && u == Use(d.user, p, d.capability, d.action, d.scope, d.at))
    ensures Judged(db, r, d, caps, now)
  {
    forall u: Use ensures IsUse(d, r.permissions, u) ==
        (check.Proceed? && AsksEveryUse(db.permissions[p], d.risk)
        && u == Use(d.user, p, d.capability, d.action, d.scope, d.at)) {
    }
  }
}
