/** What a routing decision is, spelled out on the fields of models, providers, request, health and
    budget: which models are eligible, in which order they stand, when and why a request is denied,
    and which reasons a selection gives. */
module RoutingMeaning {
  import opened Common
  import opened Ordering
  import opened Scopes
  import opened RoutingPolicy
  import opened RoutingTheorems

  // ---------------------------------------------------------------- eligibility

  /** The model can be called at all. */
  ghost predicate Reachable(x: Context, m: Model) {
    && m.routable && m.enabled && !m.deprecated
    && m.provider in x.providers && x.providers[m.provider].enabled
    && (m.provider in x.health ==> x.health[m.provider] == Available || x.health[m.provider] == Degraded)
  }

  /** A general model is good enough for a complexity. */
  ghost predicate GoodEnough(m: Model, c: Complexity) {
    match c
    case Trivial => m.quality >= 1
    case Low => m.quality >= 1
    case Medium => m.quality >= 2
    case High => m.quality >= 3
    case VeryHigh => m.quality >= 3
  }

  ghost predicate StrongEnough(m: Model, c: Complexity) {
    match c
    case Trivial => m.class_ == Fast || m.class_ == Standard || m.class_ == Advanced
    case Low => m.class_ == Fast || m.class_ == Standard || m.class_ == Advanced
    case Medium => m.class_ == Standard || m.class_ == Advanced
    case High => m.class_ == Advanced
    case VeryHigh => m.class_ == Advanced
  }

  /** The model is of the kind the request needs. */
  ghost predicate Suitable(x: Context, m: Model) {
    var r := x.request;
    && (r.embedding ==> m.class_ == Embedding)
    && (r.realtime && !r.embedding ==> m.class_ == Realtime)
    && (!r.embedding && !r.realtime ==> GoodEnough(m, r.complexity))
    && (!r.embedding && !r.realtime && r.localOnly ==> m.class_ == Local)
    && (!r.embedding && !r.realtime && !r.localOnly ==> StrongEnough(m, r.complexity))
    && (r.localOnly ==> m.provider in x.providers && x.providers[m.provider].local)
  }

  /** The model can do what the request asks for. */
  ghost predicate Able(x: Context, m: Model) {
    var r := x.request;
    && (forall c | c in r.required :: c in m.capabilities)
    && (r.embedding ==> Embeddings in m.capabilities)
    && (r.realtime && !r.embedding ==> AudioRealtime in m.capabilities)
    && (!r.embedding && !r.realtime ==> TextGeneration in m.capabilities)
    && (r.structured ==> StructuredOutput in m.capabilities)
    && (r.tools ==> ToolCalling in m.capabilities)
  }

  /** The request carries data of this sensitivity. */
  ghost predicate Carries(r: Request, s: Sensitivity) {
    r.sensitivity == s || s in r.contexts
  }

  /** `s` is at most `t`, from PUBLIC up to CRITICAL. */
  ghost predicate AtMost(s: Sensitivity, t: Sensitivity) {
    match s
    case Public => true
    case Internal => t != Public
    case Private => t == Private || t == Sensitive || t == Critical
    case Sensitive => t == Sensitive || t == Critical
    case Critical => t == Critical
  }

  /** Nothing the request carries is above the limits of provider and model, and the provider is
      approved for the most sensitive of it. */
  ghost predicate Trusted(x: Context, m: Model) {
    var r := x.request;
    && m.provider in x.providers
    && var p := x.providers[m.provider];
       && (forall s | Carries(r, s) :: AtMost(s, p.maxSensitivity) && AtMost(s, m.maxSensitivity))
       && (Carries(r, Critical) ==> p.local && p.criticalApproved)
       && (Carries(r, Sensitive) && !Carries(r, Critical) ==> p.sensitiveApproved)
       && (Carries(r, Private) && !Carries(r, Sensitive) && !Carries(r, Critical) ==> p.privateApproved)
  }

  ghost predicate AnswerFits(x: Context, m: Model) {
    x.request.outputTokens <= m.outputLimit
  }

  ghost predicate WindowFits(x: Context, m: Model) {
    x.request.inputTokens + x.request.outputTokens <= m.contextLimit
  }

  /** The first `n` of the six conditions. */
  ghost predicate Meets(x: Context, n: nat, m: Model) {
    && (n > 0 ==> Reachable(x, m)) && (n > 1 ==> Suitable(x, m)) && (n > 2 ==> Able(x, m))
    && (n > 3 ==> Trusted(x, m)) && (n > 4 ==> AnswerFits(x, m)) && (n > 5 ==> WindowFits(x, m))
  }

  /** Some model meets the first `n` conditions. */
  ghost predicate Left(x: Context, models: seq<Model>, n: nat) {
    exists m :: m in models && Meets(x, n, m)
  }

  /** Why no model was left, in the order in which the conditions are tried. */
  ghost predicate NoneLeft(x: Context, models: seq<Model>, reason: Reason) {
    && (reason == ProviderUnavailable <==> !Left(x, models, 1))
    && (reason == LocalOnlyRequired <==> Left(x, models, 1) && !Left(x, models, 2) && x.request.localOnly)
    && (reason == NoEligibleModel <==> Left(x, models, 1) && !Left(x, models, 2) && !x.request.localOnly)
    && (reason == RequiredCapability <==> Left(x, models, 2) && !Left(x, models, 3))
    && (reason == SensitivityRestriction <==> Left(x, models, 3) && !Left(x, models, 4))
    && (reason == OutputLimit <==> Left(x, models, 4) && !Left(x, models, 5))
    && (reason == ContextLimit <==> Left(x, models, 5) && !Left(x, models, 6))
  }

  // ---------------------------------------------------------------- order

  /** FAST before STANDARD before ADVANCED before any other class. */
  function Level(c: ModelClass): nat {
    if c == Fast then 0 else if c == Standard then 1 else if c == Advanced then 2 else 3
  }

  /** `a` comes before `b` in a dictionary, or is the same. */
  ghost predicate Alphabetical(a: string, b: string) {
    || a <= b
    || exists i | 0 <= i < |a| && i < |b| :: a[..i] == b[..i] && a[i] < b[i]
  }

  ghost predicate IsDegraded(x: Context, m: Model) {
    m.provider in x.health && x.health[m.provider] != Available
  }

  /** The whole microunits that cover the price of the request. */
  ghost predicate Costs(x: Context, m: Model, cost: nat) {
    var price := x.request.inputTokens * m.pricing.input + x.request.outputTokens * m.pricing.output;
    price <= cost * 1_000_000 && (cost == 0 || (cost - 1) * 1_000_000 < price)
  }

  ghost predicate Dearer(x: Context, a: Model, b: Model) {
    exists m: nat, n: nat :: Costs(x, a, m) && Costs(x, b, n) && m > n
  }

  /** `a` is preferred to `b`: a lower class, then a lower quality, then an available provider before a
      degraded one, then the less sensitive provider, the lower price, the lower priority number, and
      last provider and identifier in alphabetical order. */
  ghost predicate Preferred(x: Context, a: Model, b: Model)
    requires a.provider in x.providers && b.provider in x.providers
  {
    var p, q := x.providers[a.provider].maxSensitivity, x.providers[b.provider].maxSensitivity;
    && Level(a.class_) <= Level(b.class_)
    && (Level(a.class_) == Level(b.class_) ==>
      && a.quality <= b.quality
      && (a.quality == b.quality ==>
        && (IsDegraded(x, a) ==> IsDegraded(x, b))
        && ((IsDegraded(x, a) <==> IsDegraded(x, b)) ==>
          && AtMost(p, q)
          && (p == q ==>
            && !Dearer(x, a, b)
            && (!Dearer(x, b, a) ==>
              && a.priority <= b.priority
              && (a.priority == b.priority ==>
                && Alphabetical(a.provider, b.provider)
                && (a.provider == b.provider ==> Alphabetical(a.id, b.id))))))))
  }

  // ---------------------------------------------------------------- decision

  /** The eligible models, each once, in the order of preference. */
  ghost predicate Line(x: Context, models: seq<Model>, chain: seq<Model>) {
    && chain != []
    && (forall m :: m in chain <==> m in models && Meets(x, 6, m))
    && (forall i, j | 0 <= i < j < |chain| :: chain[i] != chain[j])
    && (forall i | 0 <= i < |chain| :: chain[i].provider in x.providers)
    && (forall i, j | 0 <= i < j < |chain| :: Preferred(x, chain[i], chain[j]))
  }

  /** A hard limit of the request, the day or the month would be passed. */
  ghost predicate OverLimit(x: Context, cost: nat) {
    || (x.budget.hardRequest.Some? && cost > x.budget.hardRequest.value)
    || (x.budget.dailyHard.Some? && x.usage.daily + cost > x.budget.dailyHard.value)
    || (x.budget.monthlyHard.Some? && x.usage.monthly + cost > x.budget.monthlyHard.value)
  }

  ghost predicate Names(r: Reference, m: Model) {
    r.provider == m.provider && r.id == m.id && r.class_ == m.class_ && r.quality == m.quality
  }

  /** What is decided about a line of eligible models. */
  ghost predicate Decided(x: Context, chain: seq<Model>, d: Decision)
    requires chain != []
  {
    exists cost: nat ::
      && Costs(x, chain[0], cost)
      && (if OverLimit(x, cost) then d == Denied(HardBudgetExceeded)
          else
            && d.Selected? && d.cost == cost && Names(d.selected, chain[0])
            && |d.fallbacks| == |chain| - 1
            && (forall i | 0 <= i < |d.fallbacks| :: Names(d.fallbacks[i], chain[i + 1]))
            && ReasonsMean(x, chain, cost, d.reasons))
  }

  // ---------------------------------------------------------------- reasons

  /** The first reason of every selection. */
  ghost predicate BaseReason(r: Request, reason: Reason) {
    && (reason == EmbeddingRequired <==> r.embedding)
    && (reason == RealtimeRequired <==> r.realtime && !r.embedding)
    && (reason == LocalOnlyRequired <==> r.localOnly && !r.realtime && !r.embedding)
    && (reason == LowComplexityFast <==>
          !r.localOnly && !r.realtime && !r.embedding && (r.complexity == Trivial || r.complexity == Low))
    && (reason == DefaultStandard <==> !r.localOnly && !r.realtime && !r.embedding && r.complexity == Medium)
    && (reason == HighComplexityAdvanced <==>
          !r.localOnly && !r.realtime && !r.embedding && (r.complexity == High || r.complexity == VeryHigh))
  }

  /** The capability every request of its kind needs. */
  ghost predicate Basic(r: Request, c: Capability) {
    if r.embedding then c == Embeddings else if r.realtime then c == AudioRealtime else c == TextGeneration
  }

  ghost predicate Alike(a: Model, b: Model) {
    a.class_ == b.class_ && a.quality == b.quality
  }

  ghost predicate OverWarning(x: Context, cost: nat) {
    || (x.budget.softRequest.Some? && cost > x.budget.softRequest.value)
    || (x.budget.dailySoft.Some? && x.usage.daily + cost > x.budget.dailySoft.value)
    || (x.budget.monthlySoft.Some? && x.usage.monthly + cost > x.budget.monthlySoft.value)
  }

  /** The place of a further reason in the list. */
  function Place(r: Reason): nat {
    match r
    case RequiredCapability => 1
    case QualityEscalation => 2
    case CostNeutralOptimization => 3
    case BudgetWarning => 4
    case EquivalentProviderFallback => 5
    case _ => 0
  }

  /** The reasons of a selection: the base reason first, and then, each at most once and in their
      places, those whose condition holds and no other. */
  ghost predicate ReasonsMean(x: Context, chain: seq<Model>, cost: nat, reasons: seq<Reason>)
    requires chain != []
  {
    var r := x.request;
    && reasons != [] && BaseReason(r, reasons[0]) && Place(reasons[0]) == 0
    && (forall i, j | 0 <= i < j < |reasons| :: Place(reasons[i]) < Place(reasons[j]))
    && (RequiredCapability in reasons <==>
          r.structured || r.tools || exists c :: c in r.required && !Basic(r, c))
    && (QualityEscalation in reasons <==>
          && !r.embedding && !r.realtime && !r.localOnly
          && (((r.complexity == Trivial || r.complexity == Low) && chain[0].class_ != Fast)
              || (r.complexity == Medium && chain[0].class_ == Advanced)))
    && (CostNeutralOptimization in reasons <==> exists i | 1 <= i < |chain| :: Alike(chain[i], chain[0]))
    && (BudgetWarning in reasons <==> OverWarning(x, cost))
    && (EquivalentProviderFallback in reasons <==>
          exists i | 1 <= i < |chain| :: Alike(chain[i], chain[0]) && chain[i].provider != chain[0].provider)
  }

  /** The decision on every request: denied for the first condition that no model meets, or else made
      about the eligible models in order of preference. */
  ghost predicate DecisionMeans(x: Context, models: seq<Model>, d: Decision) {
    if Left(x, models, 6) then exists chain :: Line(x, models, chain) && Decided(x, chain, d)
    else d.Denied? && NoneLeft(x, models, d.reason)
  }

  // ---------------------------------------------------------------- proofs: filters

  lemma RanksAtMost(s: Sensitivity, t: Sensitivity)
    ensures AtMost(s, t) <==> Rank(s) <= Rank(t)
  {
  }

  lemma PrivacySpelled(x: Context, m: Model)
    requires m.provider in x.providers
    ensures Passes(x, Privacy, m) <==> Trusted(x, m)
  {
    var r, p := x.request, x.providers[m.provider];
    var e := EffectiveSensitivity(r);
    assert Carries(r, e);
    forall s | Carries(r, s) ensures Rank(s) <= Rank(e) {
      if s != r.sensitivity {
        var i :| 0 <= i < |r.contexts| && r.contexts[i] == s;
      }
    }
    assert forall s, t :: AtMost(s, t) <==> Rank(s) <= Rank(t);
    hide EffectiveSensitivity;
  }

  lemma CapabilitiesSpelled(x: Context, m: Model)
    requires m.provider in x.providers
    ensures Passes(x, Capabilities, m) <==> Able(x, m)
  {
    var r := x.request;
    var needed := EffectiveCapabilities(r);
    if Able(x, m) {
      assert forall c | c in needed :: c in m.capabilities;
    } else {
      assert BaseCapability(r) in needed;
      assert r.structured ==> StructuredOutput in needed;
      assert r.tools ==> ToolCalling in needed;
      assert forall c | c in r.required :: c in needed;
    }
  }

  lemma ClassSpelled(x: Context, m: Model)
    requires m.provider in x.providers
    ensures Passes(x, ClassFit, m) <==> Suitable(x, m)
  {
  }

  lemma PlainSpelled(x: Context, m: Model)
    ensures Passes(x, Availability, m) <==> Reachable(x, m)
    ensures m.provider in x.providers ==> (Passes(x, Output, m) <==> AnswerFits(x, m))
    ensures m.provider in x.providers ==> (Passes(x, Window, m) <==> WindowFits(x, m))
  {
  }

  /** Passing the first filters is meeting the first conditions. */
  lemma StagesSpelled(x: Context, n: nat, m: Model)
    requires n <= 6
    ensures PassesAll(x, STAGES[..n], m) <==> Meets(x, n, m)
  {
    hide Passes;
    PlainSpelled(x, m);
    if n > 0 {
      assert STAGES[..n][0] == Availability;
      if Reachable(x, m) {
        ClassSpelled(x, m);
        CapabilitiesSpelled(x, m);
        PrivacySpelled(x, m);
        hide Reachable;
        hide Suitable;
        hide Able;
        hide Trusted;
        assert n > 1 ==> STAGES[..n][1] == ClassFit;
        assert n > 2 ==> STAGES[..n][2] == Capabilities;
        assert n > 3 ==> STAGES[..n][3] == Privacy;
        assert n > 4 ==> STAGES[..n][4] == Output;
        assert n > 5 ==> STAGES[..n][5] == Window;
      }
    }
  }

  lemma EligibleSpelled(x: Context, m: Model)
    ensures Eligible(x, m) <==> Meets(x, 6, m)
  {
    assert STAGES[..6] == STAGES;
    StagesSpelled(x, 6, m);
  }

  /** Some model passes every one of the filters. */
  ghost predicate Through(x: Context, stages: seq<Stage>, models: seq<Model>) {
    exists m :: m in models && PassesAll(x, stages, m)
  }

  /** Filtering gives up at the first filter that nothing is left after. */
  lemma {:induction false} SieveStops(x: Context, stages: seq<Stage>, models: seq<Model>) returns (k: nat)
    requires models != [] && Sieve(x, stages, models).Raised?
    ensures k < |stages| && Sieve(x, stages, models).error == DenialOf(x, stages[k])
    ensures Through(x, stages[..k], models) && !Through(x, stages[..k + 1], models)
  {
    hide Passes;
    hide DenialOf;
    var kept := Keep(x, stages[0], models);
    if kept == [] {
      k := 0;
      assert models[0] in models && PassesAll(x, stages[..0], models[0]);
      forall m | m in models ensures !PassesAll(x, stages[..1], m) {
        KeptMeans(x, stages[0], models, m);
        assert stages[..1][0] == stages[0];
      }
    } else {
      var rest := stages[1..];
      var j := SieveStops(x, rest, kept);
      k := j + 1;
      forall m, n: nat | n <= |rest|
        ensures m in models && PassesAll(x, stages[..n + 1], m) <==> m in kept && PassesAll(x, rest[..n], m) {
        KeptMeans(x, stages[0], models, m);
        assert stages[..n + 1] == [stages[0]] + rest[..n];
        PassesCons(x, stages[0], rest[..n], m);
      }
      ThroughCons(x, stages, models, kept, j);
      ThroughCons(x, stages, models, kept, j + 1);
    }
  }

  lemma ThroughCons(x: Context, stages: seq<Stage>, models: seq<Model>, kept: seq<Model>, n: nat)
    requires stages != [] && n <= |stages[1..]|
    requires forall m :: m in models && PassesAll(x, stages[..n + 1], m) <==>
                         m in kept && PassesAll(x, stages[1..][..n], m)
    ensures Through(x, stages[..n + 1], models) <==> Through(x, stages[1..][..n], kept)
  {
    hide PassesAll;
  }

  lemma PassesCons(x: Context, stage: Stage, rest: seq<Stage>, m: Model)
    ensures PassesAll(x, [stage] + rest, m) <==> Passes(x, stage, m) && PassesAll(x, rest, m)
  {
    hide Passes;
    var all := [stage] + rest;
    assert forall i | 0 <= i < |rest| :: all[i + 1] == rest[i];
    assert all[0] == stage;
  }

  lemma KeptMeans(x: Context, stage: Stage, models: seq<Model>, m: Model)
    ensures m in Keep(x, stage, models) <==> m in models && Passes(x, stage, m)
  {
    hide Passes;
    hide Keep;
    KeepCounts(x, stage, models, m);
    assert m in Keep(x, stage, models) <==> m in multiset(Keep(x, stage, models));
    assert m in models <==> m in multiset(models);
  }

  lemma ThroughSpelled(x: Context, models: seq<Model>, n: nat)
    requires n <= 6
    ensures Through(x, STAGES[..n], models) <==> Left(x, models, n)
  {
    hide PassesAll;
    hide Meets;
    forall m ensures PassesAll(x, STAGES[..n], m) <==> Meets(x, n, m) {
      StagesSpelled(x, n, m);
    }
  }

  lemma LeftFewer(x: Context, models: seq<Model>, n: nat, k: nat)
    requires k <= n && Left(x, models, n)
    ensures Left(x, models, k)
  {
    hide Reachable;
    hide Suitable;
    hide Able;
    hide Trusted;
    var m :| m in models && Meets(x, n, m);
    assert Meets(x, k, m);
  }

  lemma DenialSpelled(x: Context, models: seq<Model>)
    requires Sieve(x, STAGES, models).Raised?
    ensures NoneLeft(x, models, Sieve(x, STAGES, models).error) && !Left(x, models, 6)
  {
    hide Sieve;
    hide Passes;
    hide PassesAll;
    hide Meets;
    if models == [] {
      assert Sieve(x, STAGES, models).error == ProviderUnavailable by {
        EmptyDenied(x);
      }
    } else {
      var k := SieveStops(x, STAGES, models);
      ThroughSpelled(x, models, k);
      ThroughSpelled(x, models, k + 1);
      hide Left;
      forall n: nat | n <= k ensures Left(x, models, n) {
        LeftFewer(x, models, k, n);
      }
      forall n: nat | n > k ensures !Left(x, models, n) {
        if Left(x, models, n) {
          LeftFewer(x, models, n, k + 1);
        }
      }
    }
  }

  lemma EmptyDenied(x: Context)
    ensures Sieve(x, STAGES, []) == Raised(ProviderUnavailable)
  {
  }

  // ---------------------------------------------------------------- proofs: order

  /** Where two keys first differ, the earlier key has the smaller part. */
  lemma {:induction false} LexAt<T>(le: (T, T) -> bool, a: seq<T>, b: seq<T>, i: nat)
    requires LexLe(le, a, b) && i < |a| && i < |b| && a[..i] == b[..i]
    ensures a[i] == b[i] || le(a[i], b[i])
  {
    if i > 0 {
      assert a[0] == a[..i][0] == b[..i][0] == b[0];
      assert a[1..][..i - 1] == a[..i][1..] && b[1..][..i - 1] == b[..i][1..];
      LexAt(le, a[1..], b[1..], i - 1);
    }
  }

  lemma {:induction false} CodesAlphabetical(a: string, b: string, i: nat)
    requires i <= |a| && i <= |b| && a[..i] == b[..i] && CodesLe(Codes(a)[i..], Codes(b)[i..])
    ensures Alphabetical(a, b)
    decreases |a| - i
  {
    if i == |a| {
      assert a <= b;
    } else {
      assert i < |b|;
      assert Codes(a)[i..][0] == a[i] as int && Codes(b)[i..][0] == b[i] as int;
      if a[i] == b[i] {
        assert a[..i + 1] == a[..i] + [a[i]] && b[..i + 1] == b[..i] + [b[i]];
        assert Codes(a)[i..][1..] == Codes(a)[i + 1..] && Codes(b)[i..][1..] == Codes(b)[i + 1..];
        CodesAlphabetical(a, b, i + 1);
      } else {
        assert a[i] < b[i];
      }
    }
  }

  /** A part of the key at which everything before it is equal. */
  lemma KeyAt(x: Context, a: Model, b: Model, i: nat)
    requires Before(x, a, b) && i < 8 && SelectionKey(x, a)[..i] == SelectionKey(x, b)[..i]
    ensures SelectionKey(x, a)[i] == SelectionKey(x, b)[i] || CodesLe(SelectionKey(x, a)[i], SelectionKey(x, b)[i])
  {
    hide SelectionKey;
    hide CodesLe;
    LexAt(CodesLe, SelectionKey(x, a), SelectionKey(x, b), i);
  }

  lemma NumberAt(x: Context, a: Model, b: Model, i: nat, m: int, n: int)
    requires Before(x, a, b) && i < 8 && SelectionKey(x, a)[..i] == SelectionKey(x, b)[..i]
    requires SelectionKey(x, a)[i] == [m] && SelectionKey(x, b)[i] == [n]
    ensures m <= n
    ensures m == n ==> SelectionKey(x, a)[..i + 1] == SelectionKey(x, b)[..i + 1]
  {
    hide SelectionKey;
    hide Before;
    KeyAt(x, a, b, i);
    var k, l := SelectionKey(x, a), SelectionKey(x, b);
    assert k[..i + 1] == k[..i] + [k[i]] && l[..i + 1] == l[..i] + [l[i]];
    assert [m][0] == m && [n][0] == n;
  }

  lemma StringAt(x: Context, a: Model, b: Model, i: nat, s: string, t: string)
    requires Before(x, a, b) && i < 8 && SelectionKey(x, a)[..i] == SelectionKey(x, b)[..i]
    requires SelectionKey(x, a)[i] == Codes(s) && SelectionKey(x, b)[i] == Codes(t)
    ensures Alphabetical(s, t)
    ensures s == t ==> SelectionKey(x, a)[..i + 1] == SelectionKey(x, b)[..i + 1]
  {
    hide SelectionKey;
    hide Before;
    hide CodesLe;
    KeyAt(x, a, b, i);
    var k, l := SelectionKey(x, a), SelectionKey(x, b);
    assert k[..i + 1] == k[..i] + [k[i]] && l[..i + 1] == l[..i] + [l[i]];
    if Codes(s) == Codes(t) {
      CodesInjective(s, t);
      assert s <= t;
    } else {
      assert Codes(s)[0..] == Codes(s) && Codes(t)[0..] == Codes(t);
      CodesAlphabetical(s, t, 0);
    }
  }

  /** The numbers in the key, by the fields they stand for. */
  lemma KeyParts(x: Context, m: Model)
    requires m.provider in x.providers
    ensures var k := SelectionKey(x, m);
            && k[0] == [Level(m.class_) as int + 1] && k[1] == [m.quality as int]
            && k[2] == [if IsDegraded(x, m) then 1 else 0]
            && k[3] == [Rank(x.providers[m.provider].maxSensitivity) as int]
            && k[4] == [Estimate(m.pricing, x.request.inputTokens, x.request.outputTokens) as int]
            && k[5] == [m.priority as int] && k[6] == Codes(m.provider) && k[7] == Codes(m.id)
  {
    hide Estimate;
    hide Codes;
  }

  /** The estimate is the only cost there is. */
  lemma CostIs(x: Context, m: Model, cost: nat)
    ensures Costs(x, m, cost) <==> cost == Estimate(m.pricing, x.request.inputTokens, x.request.outputTokens)
  {
    var price := x.request.inputTokens * m.pricing.input + x.request.outputTokens * m.pricing.output;
    CeilingIs(price, cost);
  }

  lemma CeilingIs(price: nat, cost: nat)
    ensures price <= cost * 1_000_000 && (cost == 0 || (cost - 1) * 1_000_000 < price)
            <==> cost == (price + 999_999) / 1_000_000
  {
  }

  lemma DearerIs(x: Context, a: Model, b: Model)
    ensures Dearer(x, a, b) <==> Estimate(a.pricing, x.request.inputTokens, x.request.outputTokens)
                                 > Estimate(b.pricing, x.request.inputTokens, x.request.outputTokens)
  {
    hide Estimate;
    hide Costs;
    forall cost: nat ensures
        Costs(x, a, cost) <==> cost == Estimate(a.pricing, x.request.inputTokens, x.request.outputTokens) {
      CostIs(x, a, cost);
    }
    forall cost: nat ensures
        Costs(x, b, cost) <==> cost == Estimate(b.pricing, x.request.inputTokens, x.request.outputTokens) {
      CostIs(x, b, cost);
    }
    assert Costs(x, a, Estimate(a.pricing, x.request.inputTokens, x.request.outputTokens));
    assert Costs(x, b, Estimate(b.pricing, x.request.inputTokens, x.request.outputTokens));
  }

  /** The selection order is the order of preference. */
  lemma OrderSpelled(x: Context, a: Model, b: Model)
    requires Before(x, a, b) && a.provider in x.providers && b.provider in x.providers
    ensures Preferred(x, a, b)
  {
    hide Before;
    hide SelectionKey;
    hide Estimate;
    hide Alphabetical;
    hide Dearer;
    hide Codes;
    KeyParts(x, a);
    KeyParts(x, b);
    DearerIs(x, a, b);
    DearerIs(x, b, a);
    var k, l := SelectionKey(x, a), SelectionKey(x, b);
    var p, q := x.providers[a.provider].maxSensitivity, x.providers[b.provider].maxSensitivity;
    RanksAtMost(p, q);
    assert p == q <==> Rank(p) == Rank(q);
    assert k[..0] == l[..0];
    NumberAt(x, a, b, 0, Level(a.class_) + 1, Level(b.class_) + 1);
    if Level(a.class_) == Level(b.class_) {
      NumberAt(x, a, b, 1, a.quality, b.quality);
      if a.quality == b.quality {
        NumberAt(x, a, b, 2, if IsDegraded(x, a) then 1 else 0, if IsDegraded(x, b) then 1 else 0);
        if IsDegraded(x, a) <==> IsDegraded(x, b) {
          NumberAt(x, a, b, 3, Rank(p), Rank(q));
          if p == q {
            OrderTail(x, a, b);
          }
        }
      }
    }
  }

  lemma OrderTail(x: Context, a: Model, b: Model)
    requires Before(x, a, b) && a.provider in x.providers && b.provider in x.providers
    requires SelectionKey(x, a)[..4] == SelectionKey(x, b)[..4]
    ensures !Dearer(x, a, b)
    ensures !Dearer(x, b, a) ==> a.priority <= b.priority
    ensures !Dearer(x, b, a) && a.priority == b.priority ==> Alphabetical(a.provider, b.provider)
    ensures !Dearer(x, b, a) && a.priority == b.priority && a.provider == b.provider ==> Alphabetical(a.id, b.id)
  {
    hide Before;
    hide SelectionKey;
    hide Estimate;
    hide Alphabetical;
    hide Dearer;
    hide Codes;
    KeyParts(x, a);
    KeyParts(x, b);
    DearerIs(x, a, b);
    DearerIs(x, b, a);
    var m := Estimate(a.pricing, x.request.inputTokens, x.request.outputTokens);
    var n := Estimate(b.pricing, x.request.inputTokens, x.request.outputTokens);
    NumberAt(x, a, b, 4, m, n);
    if m == n {
      NumberAt(x, a, b, 5, a.priority, b.priority);
      if a.priority == b.priority {
        StringAt(x, a, b, 6, a.provider, b.provider);
        if a.provider == b.provider {
          StringAt(x, a, b, 7, a.id, b.id);
        }
      }
    }
  }

  // ---------------------------------------------------------------- proofs: decision

  /** The ordered models are a line of the eligible ones. */
  lemma LineBuilt(x: Context, models: seq<Model>)
    requires DistinctModels(models) && Sieve(x, STAGES, models).Ok?
    ensures Sieve(x, STAGES, models).value != []
    ensures Line(x, models, Ordered(x, Sieve(x, STAGES, models).value))
  {
    hide Sieve;
    hide PassesAll;
    hide Meets;
    hide Before;
    hide Preferred;
    SieveNonempty(x, models);
    ChainBuilt(x, models);
    var chain := Ordered(x, Sieve(x, STAGES, models).value);
    forall m ensures Eligible(x, m) <==> Meets(x, 6, m) {
      EligibleSpelled(x, m);
    }
    forall i | 0 <= i < |chain| ensures chain[i].provider in x.providers {
      assert chain[i] in chain;
      EligibleKnown(x, chain[i]);
    }
    forall i, j | 0 <= i < j < |chain| ensures Preferred(x, chain[i], chain[j]) {
      assert Order(x)(chain[i], chain[j]);
      OrderSpelled(x, chain[i], chain[j]);
    }
  }

  lemma EligibleKnown(x: Context, m: Model)
    requires Meets(x, 6, m)
    ensures m.provider in x.providers
  {
    hide Suitable;
    hide Able;
    hide Trusted;
  }

  lemma {:induction false} CountSpelled(models: seq<Model>, selected: Model)
    ensures CountEquivalent(models, selected) > 0 <==> exists i | 0 <= i < |models| :: Alike(models[i], selected)
  {
    if models != [] {
      CountSpelled(models[1..], selected);
      assert forall i | 1 <= i < |models| :: models[i] == models[1..][i - 1];
      assert forall i | 0 <= i < |models| - 1 :: models[1..][i] == models[i + 1];
    }
  }

  /** Another model of the line is like the selected one. */
  lemma EquivalentSpelled(chain: seq<Model>)
    requires chain != []
    ensures CountEquivalent(chain, chain[0]) > 1 <==> exists i | 1 <= i < |chain| :: Alike(chain[i], chain[0])
  {
    var rest := chain[1..];
    CountSpelled(rest, chain[0]);
    assert CountEquivalent(chain, chain[0]) == 1 + CountEquivalent(rest, chain[0]);
    assert forall i | 1 <= i < |chain| :: chain[i] == rest[i - 1];
    assert forall i | 0 <= i < |rest| :: rest[i] == chain[i + 1];
  }

  lemma OtherProviderSpelled(chain: seq<Model>, fallbacks: seq<Reference>)
    requires chain != [] && |fallbacks| == |chain| - 1
    requires forall i | 0 <= i < |fallbacks| :: Names(fallbacks[i], chain[i + 1])
    ensures OffersOtherProvider(fallbacks, chain[0]) <==>
            exists i | 1 <= i < |chain| :: Alike(chain[i], chain[0]) && chain[i].provider != chain[0].provider
  {
    if i :| 1 <= i < |chain| && Alike(chain[i], chain[0]) && chain[i].provider != chain[0].provider {
      assert Names(fallbacks[i - 1], chain[i - 1 + 1]);
    }
  }

  lemma NeedsSpelled(r: Request)
    ensures EffectiveCapabilities(r) - {BaseCapability(r)} != {} <==>
            r.structured || r.tools || exists c :: c in r.required && !Basic(r, c)
  {
    var more := EffectiveCapabilities(r) - {BaseCapability(r)};
    if r.structured {
      assert StructuredOutput in more;
    } else if r.tools {
      assert ToolCalling in more;
    } else if c :| c in r.required && !Basic(r, c) {
      assert c in more;
    }
  }

  lemma BaseSpelled(r: Request)
    ensures BaseReason(r, TargetClass(r).1) && Place(TargetClass(r).1) == 0
  {
  }

  lemma EscalationSpelled(x: Context, m: Model)
    requires Suitable(x, m)
    ensures var r := x.request;
            Escalates(m, TargetClass(r).0) <==>
              && !r.embedding && !r.realtime && !r.localOnly
              && (((r.complexity == Trivial || r.complexity == Low) && m.class_ != Fast)
                  || (r.complexity == Medium && m.class_ == Advanced))
  {
  }

  /** Reasons in their places up to `n`. */
  ghost predicate Placed(reasons: seq<Reason>, n: nat) {
    && reasons != []
    && (forall i, j | 0 <= i < j < |reasons| :: Place(reasons[i]) < Place(reasons[j]))
    && (forall i | 0 <= i < |reasons| :: Place(reasons[i]) <= n)
  }

  lemma AddPlaced(reasons: seq<Reason>, n: nat, c: bool, r: Reason)
    requires Placed(reasons, n) && Place(r) == n + 1
    ensures Placed(Add(reasons, c, r), n + 1) && (r in Add(reasons, c, r) <==> c)
    ensures Add(reasons, c, r)[0] == reasons[0]
    ensures forall other | Place(other) <= n :: other in Add(reasons, c, r) <==> other in reasons
  {
  }

  /** Five reasons added one after the other, each if its condition holds. */
  function Listed(base: Reason, needs: bool, escalates: bool, neutral: bool, warns: bool, other: bool): seq<Reason> {
    var r2 := Add(Add([base], needs, RequiredCapability), escalates, QualityEscalation);
    Add(Add(Add(r2, neutral, CostNeutralOptimization), warns, BudgetWarning), other, EquivalentProviderFallback)
  }

  lemma ListedPlaced(base: Reason, needs: bool, escalates: bool, neutral: bool, warns: bool, other: bool)
    requires Place(base) == 0
    ensures var reasons := Listed(base, needs, escalates, neutral, warns, other);
            && Placed(reasons, 5) && reasons[0] == base
            && (RequiredCapability in reasons <==> needs) && (QualityEscalation in reasons <==> escalates)
            && (CostNeutralOptimization in reasons <==> neutral) && (BudgetWarning in reasons <==> warns)
            && (EquivalentProviderFallback in reasons <==> other)
  {
    hide Add;
    assert Placed([base], 0);
    hide Placed;
    var r1 := Add([base], needs, RequiredCapability);
    AddPlaced([base], 0, needs, RequiredCapability);
    var r2 := Add(r1, escalates, QualityEscalation);
    AddPlaced(r1, 1, escalates, QualityEscalation);
    var r3 := Add(r2, neutral, CostNeutralOptimization);
    AddPlaced(r2, 2, neutral, CostNeutralOptimization);
    var r4 := Add(r3, warns, BudgetWarning);
    AddPlaced(r3, 3, warns, BudgetWarning);
    AddPlaced(r4, 4, other, EquivalentProviderFallback);
  }

  lemma ReasonsListed(x: Context, selected: Model, ordered: seq<Model>, fallbacks: seq<Reference>, cost: nat)
    ensures Reasons(x, selected, ordered, fallbacks, cost) ==
            Listed(TargetClass(x.request).1, EffectiveCapabilities(x.request) - {BaseCapability(x.request)} != {},
                   Escalates(selected, TargetClass(x.request).0), CountEquivalent(ordered, selected) > 1,
                   OverSoft(x, cost), OffersOtherProvider(fallbacks, selected))
  {
    hide TargetClass;
    hide EffectiveCapabilities;
    hide BaseCapability;
    hide OffersOtherProvider;
    hide OverSoft;
    hide CountEquivalent;
    hide Escalates;
    hide Add;
  }

  lemma ReasonsSpelled(x: Context, chain: seq<Model>, fallbacks: seq<Reference>, cost: nat)
    requires chain != [] && |fallbacks| == |chain| - 1 && Suitable(x, chain[0])
    requires forall i | 0 <= i < |fallbacks| :: Names(fallbacks[i], chain[i + 1])
    ensures ReasonsMean(x, chain, cost, Reasons(x, chain[0], chain, fallbacks, cost))
  {
    hide Reasons;
    hide EffectiveCapabilities;
    hide Basic;
    hide BaseReason;
    hide Suitable;
    hide Listed;
    hide TargetClass;
    hide Escalates;
    hide CountEquivalent;
    hide OffersOtherProvider;
    hide Alike;
    assert OverSoft(x, cost) <==> OverWarning(x, cost);
    hide OverSoft;
    hide OverWarning;
    ReasonsListed(x, chain[0], chain, fallbacks, cost);
    BaseSpelled(x.request);
    ListedPlaced(TargetClass(x.request).1, EffectiveCapabilities(x.request) - {BaseCapability(x.request)} != {},
                 Escalates(chain[0], TargetClass(x.request).0), CountEquivalent(chain, chain[0]) > 1,
                 OverSoft(x, cost), OffersOtherProvider(fallbacks, chain[0]));
    NeedsSpelled(x.request);
    EscalationSpelled(x, chain[0]);
    EquivalentSpelled(chain);
    OtherProviderSpelled(chain, fallbacks);
  }

  lemma DecidedSpelled(x: Context, models: seq<Model>)
    requires DistinctModels(models) && Sieve(x, STAGES, models).Ok?
    ensures Sieve(x, STAGES, models).value != []
    ensures Decided(x, Ordered(x, Sieve(x, STAGES, models).value), DecideSpec(x, models))
  {
    hide Order;
    hide Reasons;
    hide Estimate;
    hide Sieve;
    hide Fallbacks;
    hide Costs;
    hide ReasonsMean;
    hide PassesAll;
    SieveNonempty(x, models);
    FallbackTheorem(x, models);
    LineBuilt(x, models);
    var chain := Ordered(x, Sieve(x, STAGES, models).value);
    var cost := Estimate(chain[0].pricing, x.request.inputTokens, x.request.outputTokens);
    CostIs(x, chain[0], cost);
    assert chain[0] in chain && Meets(x, 6, chain[0]);
    hide Line;
    assert OverHard(x, cost) <==> OverLimit(x, cost);
    hide OverHard;
    hide OverLimit;
    hide Suitable;
    var fallbacks := References(chain[1..]);
    assert forall i | 0 <= i < |fallbacks| :: Names(fallbacks[i], chain[i + 1]);
    ReasonsSpelled(x, chain, fallbacks, cost);
  }

  // ---------------------------------------------------------------- theorems

  /** Eligibility is one conjunction over the fields of model, provider, request and health. */
  lemma EligibilityTheorem(x: Context, m: Model)
    ensures Eligible(x, m) <==>
            && Reachable(x, m) && Suitable(x, m) && Able(x, m) && Trusted(x, m)
            && AnswerFits(x, m) && WindowFits(x, m)
  {
    hide PassesAll;
    hide Reachable;
    hide Suitable;
    hide Able;
    hide Trusted;
    EligibleSpelled(x, m);
  }

  /** Every decision about a catalog without duplicates: why it is denied, or the eligible models in
      order of preference with cost and reasons; denied for its budget exactly if the model preferred
      to all others costs more than one of the three hard limits leaves. */
  lemma DecisionTheorem(x: Context, models: seq<Model>)
    requires DistinctModels(models)
    ensures DecisionMeans(x, models, DecideSpec(x, models))
  {
    hide Sieve;
    hide DistinctModels;
    hide Line;
    hide Decided;
    hide NoneLeft;
    hide Left;
    if Sieve(x, STAGES, models).Raised? {
      DenialSpelled(x, models);
      assert DecideSpec(x, models) == Denied(Sieve(x, STAGES, models).error);
    } else {
      LineBuilt(x, models);
      DecidedSpelled(x, models);
      LineLeft(x, models, Ordered(x, Sieve(x, STAGES, models).value));
    }
  }

  lemma LineLeft(x: Context, models: seq<Model>, chain: seq<Model>)
    requires Line(x, models, chain)
    ensures Left(x, models, 6)
  {
    hide Meets;
    hide Preferred;
    assert chain[0] in chain;
  }
}
