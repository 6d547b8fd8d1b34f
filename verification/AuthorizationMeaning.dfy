/** What `authorize` answers, said of the rows themselves: when exactly it allows, when it asks for a
    confirmation, why it denies, and what it leaves behind. */
module AuthorizationMeaning {
  import opened Common
  import opened Scopes
  import opened AuthorityStore
  import opened PermissionsEngine
  import opened AuthorityRuns

  // ---------------------------------------------------------------- the request

  /** Every operation is one the capability knows. */
  predicate InVocabulary(cap: Capability, operations: seq<string>) {
    && cap.allowedActions != [] && "" !in cap.allowedActions
    && forall i | 0 <= i < |operations| :: operations[i] in cap.allowedActions
  }

  predicate KnownUser(w: World, who: Identity) {
    who.user in w.users && w.users[who.user].authUser == who.authUser
  }

  /** The request may be matched against permissions at all. */
  predicate Admitted(caps: Capabilities, w: World, who: Identity, req: AuthorizationRequest) {
    && KnownUser(w, who) && !w.users[who.user].disabled
    && req.capability in caps && caps[req.capability].enabled
    && InVocabulary(caps[req.capability], req.scope.operations)
  }

  // ---------------------------------------------------------------- permissions

  /** The granted scope contains the requested one. A grant without resources covers only requests
      without resources. */
  predicate Covers(granted: Scope, requested: Scope) {
    && granted.resourceType == requested.resourceType
    && (forall i | 0 <= i < |requested.operations| :: requested.operations[i] in granted.operations)
    && (requested.resourceIds == [] <==> granted.resourceIds == [])
    && (forall i | 0 <= i < |requested.resourceIds| :: requested.resourceIds[i] in granted.resourceIds)
  }

  predicate Mine(p: Permission, who: Identity, capability: string) {
    p.user == who.user && p.capability == capability
  }

  predicate PastExpiry(p: Permission, now: Time) {
    p.expiresAt.Some? && p.expiresAt.value <= now
  }

  /** In force, within the vocabulary, and wide enough. */
  predicate Fits(p: Permission, who: Identity, cap: Capability, req: AuthorizationRequest, now: Time) {
    && Mine(p, who, req.capability) && p.status == Active && !PastExpiry(p, now)
    && InVocabulary(cap, p.scope.operations) && Covers(p.scope, req.scope)
  }

  predicate AtItsDevice(p: Permission, who: Identity, w: World) {
    && p.device.Some? && who.device == p.device && p.device.value in w.devices
    && w.devices[p.device.value].owner == who.user
  }

  /** The permission serves the request. */
  predicate Serves(p: Permission, who: Identity, cap: Capability, req: AuthorizationRequest, w: World) {
    && Fits(p, who, cap, req, w.now)
    && (p.device.None? || (AtItsDevice(p, who, w) && !w.devices[p.device.value].revoked))
  }

  /** Granted later; granted at the same instant, with the smaller random identifier. */
  predicate Newer(perms: seq<Permission>, i: Id, j: Id)
    requires i < |perms| && j < |perms|
  {
    || perms[i].grantedAt > perms[j].grantedAt
    || (perms[i].grantedAt == perms[j].grantedAt
        && (perms[i].uuid < perms[j].uuid || (perms[i].uuid == perms[j].uuid && i < j)))
  }

  /** The newest permission that serves the request. */
  ghost predicate Chosen(perms: seq<Permission>, p: Id, who: Identity, cap: Capability, req: AuthorizationRequest,
      w: World) {
    && p < |perms| && Serves(perms[p], who, cap, req, w)
    && forall q | 0 <= q < |perms| && q != p && Serves(perms[q], who, cap, req, w) :: Newer(perms, p, q)
  }

  ghost predicate AnyServes(perms: seq<Permission>, who: Identity, cap: Capability, req: AuthorizationRequest,
      w: World) {
    exists q | 0 <= q < |perms| :: Serves(perms[q], who, cap, req, w)
  }

  /** Why no permission serves: the most telling of what the user's permissions for the capability
      show, in a fixed order. */
  ghost function WhyNone(perms: seq<Permission>, who: Identity, cap: Capability, req: AuthorizationRequest,
      w: World): Reason {
    if !exists q | 0 <= q < |perms| :: Mine(perms[q], who, req.capability) then NoPermission
    else if exists q | 0 <= q < |perms| :: Fits(perms[q], who, cap, req, w.now) && AtItsDevice(perms[q], who, w)
    then DeviceRevoked
    else if exists q | 0 <= q < |perms| :: Fits(perms[q], who, cap, req, w.now) then DeviceScopeMismatch
    else if exists q | 0 <= q < |perms| ::
              && Mine(perms[q], who, req.capability) && perms[q].status == Active && !PastExpiry(perms[q], w.now)
              && !InVocabulary(cap, perms[q].scope.operations)
    then ActionNotAllowed
    else if exists q | 0 <= q < |perms| ::
              && Mine(perms[q], who, req.capability) && perms[q].status != Revoked
              && (perms[q].status == Expired || PastExpiry(perms[q], w.now))
    then PermissionExpired
    else if exists q | 0 <= q < |perms| :: Mine(perms[q], who, req.capability) && perms[q].status == Revoked
    then PermissionRevoked
    else ScopeMismatch
  }

  // ---------------------------------------------------------------- risk and confirmation

  /** The level is the least one that reaches the capability's default and every floor that applies:
      MODERATE for an impact on privacy, ELEVATED for an external effect, HIGH for destroying data;
      and CRITICAL for money that leaves. */
  predicate RiskOf(cap: Capability, level: nat) {
    if cap.financial && cap.externalSideEffect then level == 5
    else
      && level >= cap.defaultRisk
      && (cap.privacyImpact ==> level >= 2) && (cap.externalSideEffect ==> level >= 3)
      && (cap.dataDestructive ==> level >= 4)
      && (|| level == cap.defaultRisk || (level == 2 && cap.privacyImpact) || (level == 3 && cap.externalSideEffect)
          || (level == 4 && cap.dataDestructive))
  }

  lemma RiskTheorem(cap: Capability)
    ensures RiskOf(cap, Risk(cap)) && forall level :: RiskOf(cap, level) ==> level == Risk(cap)
  {
  }

  /** The permission's policy asks for a confirmation of this use: always, once, or at HIGH risk. */
  predicate Asks(p: Permission, cap: Capability) {
    match p.policy
    case Never => false
    case EveryTime => true
    case Once => p.confirmedOnceAt.None?
    case HighRiskOnly => cap.defaultRisk >= 4 || cap.dataDestructive
  }

  predicate Bound(c: Confirmation, p: Id, req: AuthorizationRequest) {
    c.permission == p && c.capability == req.capability && c.action == req.action && c.scope == req.scope
  }

  /** The presented confirmation is the user's and was asked for just this use. */
  predicate Presented(db: Db, who: Identity, req: AuthorizationRequest, p: Id) {
    && req.confirmation.Some? && req.confirmation.value < |db.confirmations|
    && db.confirmations[req.confirmation.value].user == who.user
    && Bound(db.confirmations[req.confirmation.value], p, req)
  }

  predicate Late(c: Confirmation, now: Time) {
    now >= c.expiresAt || c.status == Lapsed
  }

  /** The use needs no confirmation, or the one presented is approved, unexpired and unconsumed. */
  predicate Confirmed(db: Db, who: Identity, cap: Capability, req: AuthorizationRequest, p: Id, now: Time)
    requires p < |db.permissions|
  {
    || !Asks(db.permissions[p], cap)
    || (&& Presented(db, who, req, p)
        && var c := db.confirmations[req.confirmation.value];
           !Late(c, now) && c.status == Approved && c.consumedAt.None?)
  }

  /** The use needs a confirmation, and none was presented, or one that is still to be answered. */
  predicate Unanswered(db: Db, who: Identity, cap: Capability, req: AuthorizationRequest, p: Id, now: Time)
    requires p < |db.permissions|
  {
    && Asks(db.permissions[p], cap)
    && (|| req.confirmation.None?
        || (&& Presented(db, who, req, p)
            && var c := db.confirmations[req.confirmation.value];
               !Late(c, now) && c.status == Pending))
  }

  function ConfirmationReason(db: Db, who: Identity, req: AuthorizationRequest, p: Id, now: Time): Reason {
    if req.confirmation.None? then ConfirmationRequired
    else if !Presented(db, who, req, p) then ConfirmationMismatch
    else
      var c := db.confirmations[req.confirmation.value];
      if Late(c, now) then ConfirmationExpired
      else if c.status == Rejected then ConfirmationRejected
      else if c.status == Pending then ConfirmationRequired
      else ConfirmationReplayed
  }

  // ---------------------------------------------------------------- the answer

  /** A permission was chosen, the action is in the vocabulary, and no money leaves. */
  ghost predicate Ready(db: Db, caps: Capabilities, w: World, who: Identity, req: AuthorizationRequest, p: Id) {
    && Admitted(caps, w, who, req) && Chosen(db.permissions, p, who, caps[req.capability], req, w)
    && InVocabulary(caps[req.capability], [req.action])
    && !(caps[req.capability].financial && caps[req.capability].externalSideEffect)
  }

  /** Why the request is answered as it is. */
  ghost predicate ReasonIs(db: Db, caps: Capabilities, w: World, who: Identity, req: AuthorizationRequest,
      d: Decision) {
    if !KnownUser(w, who) then d.reason == InvalidIdentity
    else if w.users[who.user].disabled then d.reason == UserDisabled
    else if req.capability !in caps then d.reason == CapabilityNotFound
    else if !caps[req.capability].enabled then d.reason == CapabilityDisabled
    else if !InVocabulary(caps[req.capability], req.scope.operations) then d.reason == ActionNotAllowed
    else if !AnyServes(db.permissions, who, caps[req.capability], req, w)
    then d.reason == WhyNone(db.permissions, who, caps[req.capability], req, w)
    else if !InVocabulary(caps[req.capability], [req.action]) then d.reason == EvaluationFailed
    else if caps[req.capability].financial && caps[req.capability].externalSideEffect
    then d.reason == FinancialExecutionBlocked
    else
      && d.permission.Some? && d.permission.value < |db.permissions|
      && d.reason == if Confirmed(db, who, caps[req.capability], req, d.permission.value, w.now) then Authorized
                     else ConfirmationReason(db, who, req, d.permission.value, w.now)
  }

  /** The decision on a request, said of the rows that were there before. */
  ghost predicate Answers(db: Db, caps: Capabilities, w: World, who: Identity, req: AuthorizationRequest, d: Decision) {
    && d.user == who.user && d.device == who.device && d.capability == req.capability && d.action == req.action
    && d.scope == req.scope && d.at == w.now
    && (d.kind == Allow <==>
          exists p :: Ready(db, caps, w, who, req, p) && Confirmed(db, who, caps[req.capability], req, p, w.now))
    && (d.kind == RequireConfirmation <==>
          exists p :: Ready(db, caps, w, who, req, p) && Unanswered(db, who, caps[req.capability], req, p, w.now))
    && ReasonIs(db, caps, w, who, req, d)
    && (match d.permission
        case Some(p) => Admitted(caps, w, who, req) && Chosen(db.permissions, p, who, caps[req.capability], req, w)
        case None => !Admitted(caps, w, who, req) || !AnyServes(db.permissions, who, caps[req.capability], req, w))
    && (d.financialGuard <==> d.reason == FinancialExecutionBlocked)
    && (d.permission.Some? && d.reason !in {EvaluationFailed, FinancialExecutionBlocked} ==>
        RiskOf(caps[req.capability], d.risk))
  }

  // ---------------------------------------------------------------- proofs

  lemma VocabularySpelled(cap: Capability, operations: seq<string>)
    ensures AllowsOperations(cap, operations) <==> InVocabulary(cap, operations)
  {
    if AllowsOperations(cap, operations) {
      assert forall i | 0 <= i < |operations| :: operations[i] in operations;
    }
  }

  lemma CoversSpelled(granted: Scope, requested: Scope)
    ensures Authorizes(granted, requested) <==> Covers(granted, requested)
  {
    ElementsWithin(requested.operations, granted.operations);
    ElementsWithin(requested.resourceIds, granted.resourceIds);
  }

  lemma ElementsWithin(xs: seq<string>, ys: seq<string>)
    ensures Elements(xs) <= Elements(ys) <==> forall i | 0 <= i < |xs| :: xs[i] in ys
  {
    if Elements(xs) <= Elements(ys) {
      forall i | 0 <= i < |xs| ensures xs[i] in ys {
        assert xs[i] in Elements(xs);
      }
    }
  }

  /** What a standing means for a permission of the user for the capability. */
  lemma StandingSpelled(p: Permission, who: Identity, cap: Capability, req: AuthorizationRequest, w: World)
    requires Mine(p, who, req.capability)
    ensures var s := StandingOf(p, who, cap, req.scope, w);
            && (s == Usable <==> Serves(p, who, cap, req, w))
            && (s == OnRevokedDevice <==>
                Fits(p, who, cap, req, w.now) && AtItsDevice(p, who, w) && w.devices[p.device.value].revoked)
            && (s == OtherDevice <==> Fits(p, who, cap, req, w.now) && p.device.Some? && !AtItsDevice(p, who, w))
            && (s == BadVocabulary <==>
                p.status == Active && !PastExpiry(p, w.now) && !InVocabulary(cap, p.scope.operations))
            && (s == WasExpired <==> p.status != Revoked && (p.status == Expired || PastExpiry(p, w.now)))
            && (s == WasRevoked <==> p.status == Revoked)
  {
    hide AllowsOperations;
    hide InVocabulary;
    hide Authorizes;
    hide Covers;
    VocabularySpelled(cap, p.scope.operations);
    CoversSpelled(p.scope, req.scope);
  }

  /** A standing is met in the search exactly if some permission of the user has it. */
  lemma MetSpelled(perms: seq<Permission>, who: Identity, cap: Capability, req: AuthorizationRequest, w: World,
      s: Standing)
    ensures var ids := Candidates(perms, who.user, req.capability, |perms|);
            s in Standings(perms, ids, who, cap, req.scope, w) <==> Met(perms, who, cap, req, w, s)
  {
    hide StandingOf;
    var ids := Candidates(perms, who.user, req.capability, |perms|);
    var standings := Standings(perms, ids, who, cap, req.scope, w);
    if s in standings {
      var k :| 0 <= k < |standings| && standings[k] == s;
      assert Mine(perms[ids[k]], who, req.capability);
    }
    if Met(perms, who, cap, req, w, s) {
      var q :| 0 <= q < |perms| && Mine(perms[q], who, req.capability)
               && StandingOf(perms[q], who, cap, req.scope, w) == s;
      CandidatesComplete(perms, who.user, req.capability, |perms|, q);
      var k :| 0 <= k < |ids| && ids[k] == q;
      assert standings[k] == s;
    }
  }

  /** Some permission of the user for the capability has this standing. */
  ghost predicate Met(perms: seq<Permission>, who: Identity, cap: Capability, req: AuthorizationRequest, w: World,
      s: Standing) {
    exists q | 0 <= q < |perms| ::
        Mine(perms[q], who, req.capability) && StandingOf(perms[q], who, cap, req.scope, w) == s
  }

  /** The refusal of the search, from the standings met. */
  lemma WhyNoneSpelled(perms: seq<Permission>, who: Identity, cap: Capability, req: AuthorizationRequest, w: World)
    requires !AnyServes(perms, who, cap, req, w) && exists q | 0 <= q < |perms| :: Mine(perms[q], who, req.capability)
    ensures WhyNone(perms, who, cap, req, w) ==
            if Met(perms, who, cap, req, w, OnRevokedDevice) then DeviceRevoked
            else if Met(perms, who, cap, req, w, OtherDevice) then DeviceScopeMismatch
            else if Met(perms, who, cap, req, w, BadVocabulary) then ActionNotAllowed
            else if Met(perms, who, cap, req, w, WasExpired) then PermissionExpired
            else if Met(perms, who, cap, req, w, WasRevoked) then PermissionRevoked
            else ScopeMismatch
  {
    hide StandingOf;
    hide Fits;
    hide InVocabulary;
    forall q | 0 <= q < |perms| && Mine(perms[q], who, req.capability)
      ensures !Serves(perms[q], who, cap, req, w)
      ensures var s := StandingOf(perms[q], who, cap, req.scope, w);
              && (s == OnRevokedDevice <==> Fits(perms[q], who, cap, req, w.now) && AtItsDevice(perms[q], who, w))
              && (s == OtherDevice <==> Fits(perms[q], who, cap, req, w.now) && !AtItsDevice(perms[q], who, w))
              && (s == BadVocabulary <==>
                  perms[q].status == Active && !PastExpiry(perms[q], w.now)
                  && !InVocabulary(cap, perms[q].scope.operations))
              && (s == WasExpired <==>
                  perms[q].status != Revoked && (perms[q].status == Expired || PastExpiry(perms[q], w.now)))
              && (s == WasRevoked <==> perms[q].status == Revoked)
    {
      StandingSpelled(perms[q], who, cap, req, w);
    }
    forall q | 0 <= q < |perms| && Fits(perms[q], who, cap, req, w.now) ensures Mine(perms[q], who, req.capability) {
      FitsMine(perms[q], who, cap, req, w.now);
    }
  }

  lemma FitsMine(p: Permission, who: Identity, cap: Capability, req: AuthorizationRequest, now: Time)
    requires Fits(p, who, cap, req, now)
    ensures Mine(p, who, req.capability)
  {
  }

  /** The search, said of the rows. */
  lemma SearchSpelled(perms: seq<Permission>, who: Identity, cap: Capability, req: AuthorizationRequest, w: World)
    ensures var r := FindSpec(perms, who, req.capability, cap, req.scope, w);
            match r.found
            case Some(p) => Chosen(perms, p, who, cap, req, w)
            case None => !AnyServes(perms, who, cap, req, w) && r.reason == WhyNone(perms, who, cap, req, w)
  {
    hide StandingOf;
    var r := FindSpec(perms, who, req.capability, cap, req.scope, w);
    forall q | 0 <= q < |perms| && Serves(perms[q], who, cap, req, w)
      ensures r.found.Some? && (r.found.value == q || Newer(perms, r.found.value, q))
    {
      StandingSpelled(perms[q], who, cap, req, w);
      FoundIsNewest(perms, who, req.capability, cap, req.scope, w, q);
    }
    if r.found.Some? {
      StandingSpelled(perms[r.found.value], who, cap, req, w);
    } else {
      NoneFound(perms, who, cap, req, w);
    }
  }

  lemma NoneFound(perms: seq<Permission>, who: Identity, cap: Capability, req: AuthorizationRequest, w: World)
    requires !AnyServes(perms, who, cap, req, w) && FindSpec(perms, who, req.capability, cap, req.scope, w).found.None?
    ensures FindSpec(perms, who, req.capability, cap, req.scope, w).reason == WhyNone(perms, who, cap, req, w)
  {
    hide StandingOf;
    hide Serves;
    hide Candidates;
    var ids := Candidates(perms, who.user, req.capability, |perms|);
    if ids == [] {
      forall q | 0 <= q < |perms| ensures !Mine(perms[q], who, req.capability) {
        if Mine(perms[q], who, req.capability) {
          CandidatesComplete(perms, who.user, req.capability, |perms|, q);
        }
      }
    } else {
      assert Mine(perms[ids[0]], who, req.capability);
      WhyNoneSpelled(perms, who, cap, req, w);
      forall s: Standing ensures s in Standings(perms, ids, who, cap, req.scope, w) <==>
          Met(perms, who, cap, req, w, s) {
        MetSpelled(perms, who, cap, req, w, s);
      }
    }
  }

  /** The confirmation check, said of the rows. */
  lemma CheckSpelled(db: Db, who: Identity, cap: Capability, req: AuthorizationRequest, p: Id, now: Time)
    requires p < |db.permissions| && !(cap.financial && cap.externalSideEffect)
    ensures var check := ConfirmationSpec(db, who, req, p, Risk(cap), now).1;
            && (check.Proceed? <==> Confirmed(db, who, cap, req, p, now))
            && (check.Stop? ==>
                  && check.reason == ConfirmationReason(db, who, req, p, now)
                  && check.kind == if Unanswered(db, who, cap, req, p, now) then RequireConfirmation else Deny)
  {
    RiskTheorem(cap);
  }

  lemma ChosenOnce(perms: seq<Permission>, p: Id, q: Id, who: Identity, cap: Capability, req: AuthorizationRequest,
      w: World)
    requires Chosen(perms, p, who, cap, req, w) && Chosen(perms, q, who, cap, req, w)
    ensures p == q
  {
    hide Serves;
  }

  /** The pipeline, said of the rows. */
  lemma JudgeSpelled(db: Db, caps: Capabilities, w: World, who: Identity, req: AuthorizationRequest)
    ensures Answers(db, caps, w, who, req, Record(who, req, Judge(db, caps, w, who, req).1, w.now))
  {
    hide Answers;
    hide JudgeSearch;
    hide InVocabulary;
    hide FindSpec;
    hide AllowsOperations;
    VocabularyOf(caps, req);
    if !Admitted(caps, w, who, req) {
      NotAdmitted(db, caps, w, who, req);
    } else {
      var cap := caps[req.capability];
      SearchSpelled(db.permissions, who, cap, req, w);
      if FindSpec(db.permissions, who, req.capability, cap, req.scope, w).found.None? {
        NoneServes(db, caps, w, who, req);
      } else {
        OneServes(db, caps, w, who, req);
      }
    }
  }

  lemma NotAdmitted(db: Db, caps: Capabilities, w: World, who: Identity, req: AuthorizationRequest)
    requires !Admitted(caps, w, who, req)
    ensures Answers(db, caps, w, who, req, Record(who, req, Judge(db, caps, w, who, req).1, w.now))
  {
    hide InVocabulary;
    hide JudgeSearch;
    hide Chosen;
    hide AllowsOperations;
    VocabularyOf(caps, req);
  }

  lemma NoneServes(db: Db, caps: Capabilities, w: World, who: Identity, req: AuthorizationRequest)
    requires Admitted(caps, w, who, req)
    requires FindSpec(db.permissions, who, req.capability, caps[req.capability], req.scope, w).found.None?
    ensures Answers(db, caps, w, who, req,
                    Record(who, req, JudgeSearch(db, caps[req.capability], w, who, req).1, w.now))
  {
    hide InVocabulary;
    hide Chosen;
    hide AnyServes;
    hide FindSpec;
    hide WhyNone;
    var cap := caps[req.capability];
    SearchSpelled(db.permissions, who, cap, req, w);
    WhyNoneKinds(db.permissions, who, cap, req, w);
    forall q ensures !Chosen(db.permissions, q, who, cap, req, w) {
      NotChosen(db.permissions, q, who, cap, req, w);
    }
  }

  lemma WhyNoneKinds(perms: seq<Permission>, who: Identity, cap: Capability, req: AuthorizationRequest, w: World)
    ensures WhyNone(perms, who, cap, req, w) != FinancialExecutionBlocked
  {
    hide Fits;
    hide InVocabulary;
  }

  lemma OneServes(db: Db, caps: Capabilities, w: World, who: Identity, req: AuthorizationRequest)
    requires Admitted(caps, w, who, req)
    requires FindSpec(db.permissions, who, req.capability, caps[req.capability], req.scope, w).found.Some?
    ensures Answers(db, caps, w, who, req,
                    Record(who, req, JudgeSearch(db, caps[req.capability], w, who, req).1, w.now))
  {
    hide Chosen;
    hide AnyServes;
    hide FindSpec;
    hide AllowsOperations;
    hide InVocabulary;
    hide ConfirmationSpec;
    hide Confirmed;
    hide Unanswered;
    hide ConfirmationReason;
    hide RiskOf;
    var cap := caps[req.capability];
    var p := FindSpec(db.permissions, who, req.capability, cap, req.scope, w).found.value;
    SearchSpelled(db.permissions, who, cap, req, w);
    VocabularyOf(caps, req);
    FoundServes(db.permissions, p, who, cap, req, w);
    forall q | Chosen(db.permissions, q, who, cap, req, w) ensures q == p {
      ChosenOnce(db.permissions, q, p, who, cap, req, w);
    }
    UseSpelled(db, caps, w, who, req, p);
    NotBoth(db, who, cap, req, p, w.now);
    hide Admitted;
    OnlyOne(db, caps, w, who, req, p);
  }

  /** A confirmed use is not an unanswered one, and the reasons of a stop are its own. */
  lemma NotBoth(db: Db, who: Identity, cap: Capability, req: AuthorizationRequest, p: Id, now: Time)
    requires p < |db.permissions|
    ensures !(Confirmed(db, who, cap, req, p, now) && Unanswered(db, who, cap, req, p, now))
    ensures ConfirmationReason(db, who, req, p, now) !in {FinancialExecutionBlocked, EvaluationFailed}
  {
  }

  /** The chosen permission is the only one there is to speak of. */
  lemma OnlyOne(db: Db, caps: Capabilities, w: World, who: Identity, req: AuthorizationRequest, p: Id)
    requires Admitted(caps, w, who, req) && p < |db.permissions|
    requires forall q | Chosen(db.permissions, q, who, caps[req.capability], req, w) :: q == p
    ensures forall q | Ready(db, caps, w, who, req, q) :: q == p
  {
    hide Chosen;
  }

  lemma VocabularyOf(caps: Capabilities, req: AuthorizationRequest)
    ensures req.capability in caps ==>
              && (AllowsOperations(caps[req.capability], req.scope.operations) <==>
                  InVocabulary(caps[req.capability], req.scope.operations))
              && (AllowsOperations(caps[req.capability], [req.action]) <==>
                  InVocabulary(caps[req.capability], [req.action]))
  {
    if req.capability in caps {
      VocabularySpelled(caps[req.capability], req.scope.operations);
      VocabularySpelled(caps[req.capability], [req.action]);
    }
  }

  lemma FoundServes(perms: seq<Permission>, p: Id, who: Identity, cap: Capability, req: AuthorizationRequest, w: World)
    requires Chosen(perms, p, who, cap, req, w)
    ensures p < |perms| && AnyServes(perms, who, cap, req, w)
  {
  }

  lemma NotChosen(perms: seq<Permission>, q: Id, who: Identity, cap: Capability, req: AuthorizationRequest, w: World)
    requires !AnyServes(perms, who, cap, req, w)
    ensures !Chosen(perms, q, who, cap, req, w)
  {
  }

  /** The last leg, for the permission that was found. */
  lemma UseSpelled(db: Db, caps: Capabilities, w: World, who: Identity, req: AuthorizationRequest, p: Id)
    requires p < |db.permissions| && req.capability in caps
    ensures var cap := caps[req.capability];
            var db1 := db.(permissions := AfterSearch(db.permissions, who, req.capability, cap, req.scope, w));
            var check := ConfirmationSpec(db1, who, req, p, Risk(cap), w.now).1;
            && RiskOf(cap, Risk(cap))
            && (!(cap.financial && cap.externalSideEffect) ==>
                  && (check.Proceed? <==> Confirmed(db, who, cap, req, p, w.now))
                  && (check.Stop? ==>
                        && check.reason == ConfirmationReason(db, who, req, p, w.now)
                        && check.kind == if Unanswered(db, who, cap, req, p, w.now) then RequireConfirmation else Deny))
  {
    hide AfterSearch;
    hide ConfirmationSpec;
    var cap := caps[req.capability];
    var db1 := db.(permissions := AfterSearch(db.permissions, who, req.capability, cap, req.scope, w));
    RiskTheorem(cap);
    if !(cap.financial && cap.externalSideEffect) {
      CheckSpelled(db1, who, cap, req, p, w.now);
    }
  }

  // ---------------------------------------------------------------- the theorem

  /** In every reachable state: the decision that evaluating a request records. */
  lemma AuthorizeTheorem(caps: Capabilities, calls: seq<Call>, w: World, who: Identity, req: AuthorizationRequest)
    requires Chronological(calls + [Call(w, Evaluate(who, req))])
    ensures Chronological(calls)
    ensures var db, r := Run(caps, calls), Run(caps, calls + [Call(w, Evaluate(who, req))]);
            && |r.decisions| == |db.decisions| + 1 && db.decisions <= r.decisions
            && Answers(db, caps, w, who, req, r.decisions[|db.decisions|])
  {
    hide Judge;
    hide Answers;
    EvaluateRuns(caps, calls, w, who, req);
    hide Run;
    JudgeSpelled(Run(caps, calls), caps, w, who, req);
  }

  lemma EvaluateRuns(caps: Capabilities, calls: seq<Call>, w: World, who: Identity, req: AuthorizationRequest)
    requires Chronological(calls + [Call(w, Evaluate(who, req))])
    ensures Chronological(calls)
    ensures Run(caps, calls + [Call(w, Evaluate(who, req))]) == AuthorizeSpec(Run(caps, calls), caps, w, who, req)
  {
    hide Run;
    hide AuthorizeSpec;
    OneMoreCall(caps, calls, Call(w, Evaluate(who, req)));
  }

  // ---------------------------------------------------------------- what is left behind

  /** The search came across the permission: it is the user's for the capability, and no newer one
      serves. */
  ghost predicate Reached(perms: seq<Permission>, i: Id, who: Identity, cap: Capability, req: AuthorizationRequest,
      w: World)
    requires i < |perms|
  {
    && Mine(perms[i], who, req.capability)
    && forall q | 0 <= q < |perms| && Serves(perms[q], who, cap, req, w) :: q != i && Newer(perms, i, q)
  }

  /** The permission after an evaluation: marked EXPIRED if the search came across it overdue, and
      stamped if it was used. */
  ghost predicate PermissionLeft(db: Db, caps: Capabilities, w: World, who: Identity, req: AuthorizationRequest,
      d: Decision, i: Id, p: Permission)
    requires i < |db.permissions|
  {
    var old_ := db.permissions[i];
    var lapses := Admitted(caps, w, who, req) && old_.status == Active && PastExpiry(old_, w.now)
                  && Reached(db.permissions, i, who, caps[req.capability], req, w);
    p == old_.(status := if lapses then Expired else old_.status,
               lastUsedAt := if d.kind == Allow && d.permission == Some(i) then Some(w.now) else old_.lastUsedAt)
  }

  /** The search came across exactly the candidates in front of the one it chose. */
  lemma ReachedSpelled(perms: seq<Permission>, i: Id, who: Identity, cap: Capability, req: AuthorizationRequest,
      w: World)
    requires i < |perms|
    ensures var ids := Candidates(perms, who.user, req.capability, |perms|);
            i in ids[..Misses(Standings(perms, ids, who, cap, req.scope, w))] <==> Reached(perms, i, who, cap, req, w)
  {
    hide StandingOf;
    hide Candidates;
    hide Serves;
    var ids := Candidates(perms, who.user, req.capability, |perms|);
    CandidatesOrdered(perms, who.user, req.capability, |perms|);
    var standings := Standings(perms, ids, who, cap, req.scope, w);
    var k := Misses(standings);
    assert forall j | 0 <= j < k :: standings[j] == standings[..k][j];
    if i in ids[..k] {
      var j :| 0 <= j < k && ids[j] == i;
      ReachedForward(perms, ids, standings, k, j, who, cap, req, w);
    }
    if Reached(perms, i, who, cap, req, w) {
      CandidatesComplete(perms, who.user, req.capability, |perms|, i);
      var j :| 0 <= j < |ids| && ids[j] == i;
      if j >= k {
        StandingSpelled(perms[ids[k]], who, cap, req, w);
      }
      assert ids[..k][j] == i;
    }
  }

  lemma ReachedForward(perms: seq<Permission>, ids: seq<Id>, standings: seq<Standing>, k: nat, j: nat, who: Identity,
      cap: Capability, req: AuthorizationRequest, w: World)
    requires ids == Candidates(perms, who.user, req.capability, |perms|) && NewestFirst(perms, ids)
    requires standings == Standings(perms, ids, who, cap, req.scope, w) && j < k <= |ids|
    requires forall n | 0 <= n < k :: standings[n] != Usable
    ensures Reached(perms, ids[j], who, cap, req, w)
  {
    hide StandingOf;
    hide Candidates;
    forall q | 0 <= q < |perms| && Serves(perms[q], who, cap, req, w) ensures q != ids[j] && Newer(perms, ids[j], q) {
      StandingSpelled(perms[q], who, cap, req, w);
      CandidatesComplete(perms, who.user, req.capability, |perms|, q);
      var n :| 0 <= n < |ids| && ids[n] == q;
      assert standings[n] == Usable;
    }
  }

  /** The presented confirmation was looked at: the chosen permission asks for one, and it is bound. */
  ghost predicate LookedAt(db: Db, caps: Capabilities, w: World, who: Identity, req: AuthorizationRequest, c: Id) {
    exists p: Id :: && Ready(db, caps, w, who, req, p) && Asks(db.permissions[p], caps[req.capability])
                && Presented(db, who, req, p) && req.confirmation == Some(c)
  }

  /** The confirmation after an evaluation: consumed if it paid for the use, EXPIRED if it came late. */
  ghost predicate ConfirmationLeft(db: Db, caps: Capabilities, w: World, who: Identity, req: AuthorizationRequest,
      d: Decision, i: Id, c: Confirmation)
    requires i < |db.confirmations|
  {
    var old_ := db.confirmations[i];
    var looked := LookedAt(db, caps, w, who, req, i);
    c == old_.(status := if looked && Late(old_, w.now) then Lapsed else old_.status,
               consumedAt := if looked && d.kind == Allow then Some(w.now) else old_.consumedAt)
  }

  /** Everything an evaluation leaves behind besides its decision. */
  ghost predicate Leaves(db: Db, caps: Capabilities, w: World, who: Identity, req: AuthorizationRequest, d: Decision,
      r: Db) {
    && r == db.(permissions := r.permissions, confirmations := r.confirmations, decisions := db.decisions + [d])
    && |r.permissions| == |db.permissions|
    && (forall i | 0 <= i < |db.permissions| :: PermissionLeft(db, caps, w, who, req, d, i, r.permissions[i]))
    && |r.confirmations| == |db.confirmations| + (if d.kind == RequireConfirmation then 1 else 0)
    && (forall i | 0 <= i < |db.confirmations| :: ConfirmationLeft(db, caps, w, who, req, d, i, r.confirmations[i]))
    && (d.kind == RequireConfirmation ==>
          && d.permission.Some?
          && r.confirmations[|db.confirmations|] ==
             Confirmation(who.user, |db.decisions|, d.permission.value, req.capability, req.action, req.scope, Pending,
                          w.now, w.now + 300, None, None, None))
  }

  /** The table after the search. */
  lemma SearchLeaves(perms: seq<Permission>, i: Id, who: Identity, cap: Capability, req: AuthorizationRequest, w: World)
    requires i < |perms|
    ensures var after := AfterSearch(perms, who, req.capability, cap, req.scope, w);
            after[i] == if perms[i].status == Active && PastExpiry(perms[i], w.now)
                           && Reached(perms, i, who, cap, req, w)
                        then perms[i].(status := Expired) else perms[i]
  {
    hide Reached;
    hide Candidates;
    hide Misses;
    ReachedSpelled(perms, i, who, cap, req, w);
  }

  /** The confirmations after the check, for the permission that was found. */
  lemma CheckLeaves(db: Db, who: Identity, cap: Capability, req: AuthorizationRequest, p: Id, now: Time, i: Id)
    requires p < |db.permissions| && !(cap.financial && cap.externalSideEffect) && i < |db.confirmations|
    ensures var (r, check) := ConfirmationSpec(db, who, req, p, Risk(cap), now); var c := db.confirmations[i];
            var looked := Asks(db.permissions[p], cap) && Presented(db, who, req, p) && req.confirmation == Some(i);
            && |r.confirmations| == |db.confirmations|
            && r.confirmations[i] == c.(status := if looked && Late(c, now) then Lapsed else c.status,
                                        consumedAt := if looked && check.Proceed? then Some(now) else c.consumedAt)
  {
    RiskTheorem(cap);
  }

  lemma JudgeLeaves(db: Db, caps: Capabilities, w: World, who: Identity, req: AuthorizationRequest)
    ensures var d := Record(who, req, Judge(db, caps, w, who, req).1, w.now);
            Leaves(db, caps, w, who, req, d, AuthorizeSpec(db, caps, w, who, req))
  {
    hide Reached;
    hide InVocabulary;
    hide FindSpec;
    hide AllowsOperations;
    hide JudgeSearch;
    hide LookedAt;
    VocabularyOf(caps, req);
    var r := AuthorizeSpec(db, caps, w, who, req);
    if Admitted(caps, w, who, req) {
      SearchUseLeaves(db, caps, w, who, req);
    } else {
      forall i | 0 <= i < |db.confirmations| ensures !LookedAt(db, caps, w, who, req, i) {
        NotLooked(db, caps, w, who, req, i);
      }
    }
  }

  lemma NotLooked(db: Db, caps: Capabilities, w: World, who: Identity, req: AuthorizationRequest, i: Id)
    requires !Admitted(caps, w, who, req) || !AnyServes(db.permissions, who, caps[req.capability], req, w)
             || !InVocabulary(caps[req.capability], [req.action])
             || (caps[req.capability].financial && caps[req.capability].externalSideEffect)
    ensures !LookedAt(db, caps, w, who, req, i)
  {
    hide Serves;
    hide InVocabulary;
  }

  lemma SearchUseLeaves(db: Db, caps: Capabilities, w: World, who: Identity, req: AuthorizationRequest)
    requires Admitted(caps, w, who, req)
    ensures var (db1, v) := JudgeSearch(db, caps[req.capability], w, who, req);
            Leaves(db, caps, w, who, req, Record(who, req, v, w.now), FinalizeSpec(db1, who, req, v, w.now))
  {
    hide Reached;
    hide InVocabulary;
    hide Candidates;
    hide FindSpec;
    hide AllowsOperations;
    hide ConfirmationSpec;
    hide AfterSearch;
    hide LookedAt;
    hide Chosen;
    hide AnyServes;
    hide Confirmed;
    hide Unanswered;
    hide RiskOf;
    VocabularyOf(caps, req);
    var cap := caps[req.capability];
    var perms := AfterSearch(db.permissions, who, req.capability, cap, req.scope, w);
    forall i | 0 <= i < |db.permissions|
      ensures perms[i] == if db.permissions[i].status == Active && PastExpiry(db.permissions[i], w.now)
                             && Reached(db.permissions, i, who, cap, req, w)
                          then db.permissions[i].(status := Expired) else db.permissions[i]
    {
      SearchLeaves(db.permissions, i, who, cap, req, w);
    }
    SearchSpelled(db.permissions, who, cap, req, w);
    var found := FindSpec(db.permissions, who, req.capability, cap, req.scope, w).found;
    if found.None? || !InVocabulary(cap, [req.action]) || (cap.financial && cap.externalSideEffect) {
      forall i | 0 <= i < |db.confirmations| ensures !LookedAt(db, caps, w, who, req, i) {
        NotLooked(db, caps, w, who, req, i);
      }
    } else {
      FoundServes(db.permissions, found.value, who, cap, req, w);
      var db1 := db.(permissions := perms);
      forall i | 0 <= i < |db.confirmations|
        ensures var (r, check) := ConfirmationSpec(db1, who, req, found.value, Risk(cap), w.now);
                var c := db.confirmations[i];
                var looked := LookedAt(db, caps, w, who, req, i);
                && |r.confirmations| == |db.confirmations|
                && r.confirmations[i] == c.(status := if looked && Late(c, w.now) then Lapsed else c.status,
                                            consumedAt := if looked && check.Proceed? then Some(w.now)
                                                          else c.consumedAt)
      {
        CheckLeaves(db1, who, cap, req, found.value, w.now, i);
        LookedFor(db, caps, w, who, req, found.value, i);
      }
      ConfirmationSpecFrame(db1, who, req, found.value, Risk(cap), w.now);
      UseSpelled(db, caps, w, who, req, found.value);
    }
  }

  lemma ConfirmationSpecFrame(db: Db, who: Identity, req: AuthorizationRequest, p: Id, risk: nat, now: Time)
    requires p < |db.permissions|
    ensures var r := ConfirmationSpec(db, who, req, p, risk, now).0;
            r == db.(confirmations := r.confirmations) && |r.confirmations| == |db.confirmations|
  {
  }

  lemma LookedFor(db: Db, caps: Capabilities, w: World, who: Identity, req: AuthorizationRequest, p: Id, i: Id)
    requires Ready(db, caps, w, who, req, p)
    ensures LookedAt(db, caps, w, who, req, i) <==>
              Asks(db.permissions[p], caps[req.capability]) && Presented(db, who, req, p) && req.confirmation == Some(i)
  {
    hide Serves;
    hide InVocabulary;
    forall q | Ready(db, caps, w, who, req, q) ensures q == p {
      ChosenOnce(db.permissions, q, p, who, caps[req.capability], req, w);
    }
  }

  /** In every reachable state: what evaluating a request leaves behind besides its decision. */
  lemma EvaluationTheorem(caps: Capabilities, calls: seq<Call>, w: World, who: Identity, req: AuthorizationRequest)
    requires Chronological(calls + [Call(w, Evaluate(who, req))])
    ensures Chronological(calls)
    ensures var db, r := Run(caps, calls), Run(caps, calls + [Call(w, Evaluate(who, req))]);
            |r.decisions| > |db.decisions| && Leaves(db, caps, w, who, req, r.decisions[|db.decisions|], r)
  {
    hide Judge;
    hide Leaves;
    EvaluateRuns(caps, calls, w, who, req);
    hide Run;
    JudgeLeaves(Run(caps, calls), caps, w, who, req);
  }
}
