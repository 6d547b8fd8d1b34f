/** Deterministic model routing (backend/app/ai_router/policy.py, schemas.py and catalog.py): a
    sequence of filters, a lexicographic sort, budgets, and a fallback chain. */
module RoutingPolicy {
  import opened Common
  import opened Ordering
  import opened Scopes

  datatype Sensitivity = Public | Internal | Private | Sensitive | Critical
  datatype ModelClass = Fast | Standard | Advanced | Realtime | Embedding | Local
  datatype Complexity = Trivial | Low | Medium | High | VeryHigh
  datatype Capability = TextGeneration | StructuredOutput | ToolCalling | Streaming | AudioRealtime | Embeddings
  datatype Health = Available | Degraded | Unavailable | Disabled
  datatype Reason =
    | DefaultStandard | LowComplexityFast | HighComplexityAdvanced | RequiredCapability | RealtimeRequired
    | EmbeddingRequired | LocalOnlyRequired | SensitivityRestriction | ContextLimit | OutputLimit
    | ProviderUnavailable | NoEligibleModel | EquivalentProviderFallback | QualityEscalation
    | CostNeutralOptimization | BudgetWarning | HardBudgetExceeded

  datatype Pricing = Pricing(input: nat, cached: Option<nat>, output: nat)

  datatype Provider = Provider(
    enabled: bool, local: bool, maxSensitivity: Sensitivity,
    privateApproved: bool, sensitiveApproved: bool, criticalApproved: bool)

  /** Quality tiers are the integers 1 to 4. */
  datatype Model = Model(
    provider: string, id: string, class_: ModelClass, enabled: bool, routable: bool, capabilities: set<Capability>,
    contextLimit: nat, outputLimit: nat, maxSensitivity: Sensitivity, quality: nat, pricing: Pricing,
    deprecated: bool, priority: nat)

  datatype Request = Request(
    complexity: Complexity, required: set<Capability>, sensitivity: Sensitivity, contexts: seq<Sensitivity>,
    inputTokens: nat, outputTokens: nat, realtime: bool, embedding: bool, structured: bool, tools: bool,
        localOnly: bool)

  datatype Budget = Budget(
    softRequest: Option<nat>, hardRequest: Option<nat>, dailySoft: Option<nat>, monthlySoft: Option<nat>,
    dailyHard: Option<nat>, monthlyHard: Option<nat>)
  datatype Usage = Usage(daily: nat, monthly: nat)

  /** Everything a decision depends on besides the order of the catalog's models. */
  datatype Context = Context(providers: map<string, Provider>, request: Request, health: map<string, Health>,
      budget: Budget, usage: Usage)

  datatype Reference = Reference(provider: string, id: string, class_: ModelClass, quality: nat)

  datatype Decision =
    | Denied(reason: Reason)
    | Selected(selected: Reference, reasons: seq<Reason>, fallbacks: seq<Reference>, cost: nat)

  // ---------------------------------------------------------------- vocabulary

  function Rank(s: Sensitivity): nat {
    match s
    case Public => 0
    case Internal => 1
    case Private => 2
    case Sensitive => 3
    case Critical => 4
  }

  /** `highest_sensitivity` of a first value and more. */
  function Highest(first: Sensitivity, more: seq<Sensitivity>): (r: Sensitivity)
    ensures Rank(first) <= Rank(r) && forall i | 0 <= i < |more| :: Rank(more[i]) <= Rank(r)
    ensures r == first || r in more
  {
    if more == [] then first
    else
      var earlier := Highest(first, more[..|more| - 1]);
      if Rank(more[|more| - 1]) > Rank(earlier) then more[|more| - 1] else earlier
  }

  function EffectiveSensitivity(r: Request): Sensitivity {
    Highest(r.sensitivity, r.contexts)
  }

  function BaseCapability(r: Request): Capability {
    if r.embedding then Embeddings else if r.realtime then AudioRealtime else TextGeneration
  }

  function EffectiveCapabilities(r: Request): set<Capability> {
    r.required + {BaseCapability(r)}
    + (if r.structured then {StructuredOutput} else {}) + (if r.tools then {ToolCalling} else {})
  }

  /** `estimate_microunits` without cached tokens: the least number of microunits that covers
      the exact price. */
  function Estimate(p: Pricing, input: nat, output: nat): (r: nat)
    ensures r * 1_000_000 >= input * p.input + output * p.output
    ensures forall fewer: nat | fewer * 1_000_000 >= input * p.input + output * p.output :: r <= fewer
  {
    (input * p.input + output * p.output + 999_999) / 1_000_000
  }

  /** The exact price in millionths of a microunit. */
  function Price(p: Pricing, input: nat, output: nat, cached: nat): nat
    requires cached <= input
  {
    (input - cached) * p.input + cached * (if p.cached.Some? then p.cached.value else p.input) + output * p.output
  }

  /** `estimate_microunits`; None where it raises. */
  function EstimateMicrounits(p: Pricing, input: int, output: int, cached: int): (r: Option<nat>)
    ensures r.None? <==> input < 0 || output < 0 || cached < 0 || cached > input
    ensures r.Some? ==> r.value * 1_000_000 >= Price(p, input, output, cached)
    ensures r.Some? ==> forall fewer: nat | fewer * 1_000_000 >= Price(p, input, output, cached) :: r.value <= fewer
    ensures r.Some? && cached == 0 ==> r == Some(Estimate(p, input, output))
  {
    if input < 0 || output < 0 || cached < 0 || cached > input then None
    else Some((Price(p, input, output, cached) + 999_999) / 1_000_000)
  }

  /** `validate_approval_chain` */
  predicate ApprovalChain(p: Provider) {
    && (p.criticalApproved ==> p.local && p.sensitiveApproved)
    && (p.sensitiveApproved ==> p.privateApproved)
  }

  // ---------------------------------------------------------------- filters

  function StatusFor(health: map<string, Health>, provider: string): Health {
    if provider in health then health[provider] else Available
  }

  /** `SensitivityRoutingPolicy.allows` */
  predicate Allows(s: Sensitivity, p: Provider, m: Model) {
    if Rank(s) > Rank(p.maxSensitivity) then false
    else if Rank(s) > Rank(m.maxSensitivity) then false
    else if s == Private && !p.privateApproved then false
    else if s == Sensitive && !p.sensitiveApproved then false
    else if s == Critical then p.local && p.criticalApproved
    else true
  }

  function TargetClass(r: Request): (ModelClass, Reason) {
    if r.embedding then (Embedding, EmbeddingRequired)
    else if r.realtime then (Realtime, RealtimeRequired)
    else if r.localOnly then (Local, LocalOnlyRequired)
    else if r.complexity in {Trivial, Low} then (Fast, LowComplexityFast)
    else if r.complexity == Medium then (Standard, DefaultStandard)
    else (Advanced, HighComplexityAdvanced)
  }

  predicate General(c: ModelClass) {
    c in {Fast, Standard, Advanced}
  }

  /** `_GENERAL_MODEL_RANK`, with 4 for every other class. */
  function ClassRank(c: ModelClass): nat {
    match c
    case Fast => 1
    case Standard => 2
    case Advanced => 3
    case _ => 4
  }

  function QualityFloor(c: Complexity): nat {
    match c
    case Trivial => 1
    case Low => 1
    case Medium => 2
    case _ => 3
  }

  /** `_meets_class` */
  predicate MeetsClass(m: Model, target: ModelClass, r: Request) {
    if target in {Realtime, Embedding} then m.class_ == target
    else if target == Local then m.class_ == Local && m.quality >= QualityFloor(r.complexity)
    else if !General(m.class_) then false
    else ClassRank(m.class_) >= ClassRank(target) && m.quality >= QualityFloor(r.complexity)
  }

  /** The filters of `decide`, in order. */
  datatype Stage = Availability | ClassFit | Capabilities | Privacy | Output | Window

  const STAGES: seq<Stage> := [Availability, ClassFit, Capabilities, Privacy, Output, Window]

  predicate Passes(x: Context, stage: Stage, m: Model) {
    m.provider in x.providers &&
    match stage
    case Availability =>
      && m.routable && m.enabled && !m.deprecated && x.providers[m.provider].enabled
      && StatusFor(x.health, m.provider) !in {Unavailable, Disabled}
    case ClassFit => MeetsClass(m, TargetClass(x.request).0, x.request)
        && (x.request.localOnly ==> x.providers[m.provider].local)
    case Capabilities => EffectiveCapabilities(x.request) <= m.capabilities
    case Privacy => Allows(EffectiveSensitivity(x.request), x.providers[m.provider], m)
    case Output => x.request.outputTokens <= m.outputLimit
    case Window => x.request.inputTokens + x.request.outputTokens <= m.contextLimit
  }

  /** The reason given when a filter leaves nothing. */
  function DenialOf(x: Context, stage: Stage): Reason {
    match stage
    case Availability => ProviderUnavailable
    case ClassFit => if x.request.localOnly then LocalOnlyRequired else NoEligibleModel
    case Capabilities => RequiredCapability
    case Privacy => SensitivityRestriction
    case Output => OutputLimit
    case Window => ContextLimit
  }

  function Keep(x: Context, stage: Stage, models: seq<Model>): seq<Model> {
    if models == [] then []
    else (if Passes(x, stage, models[0]) then [models[0]] else []) + Keep(x, stage, models[1..])
  }

  /** Filtering stage by stage, giving up at the first stage that leaves nothing. */
  function Sieve(x: Context, stages: seq<Stage>, models: seq<Model>): (r: Result<seq<Model>, Reason>)
    ensures r.Ok? && stages != [] ==> r.value != []
  {
    if stages == [] then Ok(models)
    else
      var kept := Keep(x, stages[0], models);
      if kept == [] then Raised(DenialOf(x, stages[0])) else Sieve(x, stages[1..], kept)
  }

  ghost predicate PassesAll(x: Context, stages: seq<Stage>, m: Model) {
    forall i | 0 <= i < |stages| :: Passes(x, stages[i], m)
  }

  /** A model takes part in the decision exactly if it passes every filter. */
  ghost predicate Eligible(x: Context, m: Model) {
    PassesAll(x, STAGES, m)
  }

  // ---------------------------------------------------------------- order

  predicate CodesLe(a: seq<int>, b: seq<int>) {
    LexLe(IntLe, a, b)
  }

  /** The order of keys; a number is a key part of one element, a string one of its code points. */
  predicate KeyLe(a: seq<seq<int>>, b: seq<seq<int>>) {
    LexLe(CodesLe, a, b)
  }

  /** `_selection_key` */
  function SelectionKey(x: Context, m: Model): (k: seq<seq<int>>)
    ensures |k| == 8
  {
    [[ClassRank(m.class_)], [m.quality],
     [if StatusFor(x.health, m.provider) == Available then 0 else 1],
     [if m.provider in x.providers then Rank(x.providers[m.provider].maxSensitivity) else 0],
     [Estimate(m.pricing, x.request.inputTokens, x.request.outputTokens)],
     [m.priority], Codes(m.provider), Codes(m.id)]
  }

  predicate Before(x: Context, a: Model, b: Model) {
    KeyLe(SelectionKey(x, a), SelectionKey(x, b))
  }

  function Order(x: Context): (Model, Model) -> bool {
    (a, b) => Before(x, a, b)
  }

  lemma CodesLeTotalOrder()
    ensures TotalOrder(CodesLe)
  {
    forall a, b, c | CodesLe(a, b) && CodesLe(b, c) ensures CodesLe(a, c) {
      LexTransitive(IntLe, a, b, c);
    }
    forall a, b ensures CodesLe(a, b) || CodesLe(b, a) {
      LexTotal(IntLe, a, b);
    }
    forall a, b | CodesLe(a, b) && CodesLe(b, a) ensures a == b {
      LexAntisymmetric(IntLe, a, b);
    }
  }

  lemma KeyLeTotalOrder()
    ensures TotalOrder(KeyLe)
  {
    CodesLeTotalOrder();
    forall a, b, c | KeyLe(a, b) && KeyLe(b, c) ensures KeyLe(a, c) {
      LexTransitive(CodesLe, a, b, c);
    }
    forall a, b ensures KeyLe(a, b) || KeyLe(b, a) {
      LexTotal(CodesLe, a, b);
    }
    forall a, b | KeyLe(a, b) && KeyLe(b, a) ensures a == b {
      LexAntisymmetric(CodesLe, a, b);
    }
  }

  /** The selection order is total, and only the same provider and identifier tie. */
  lemma OrderTotal(x: Context)
    ensures Transitive(Order(x)) && Total(Order(x))
    ensures forall a, b | Order(x)(a, b) && Order(x)(b, a) :: a.provider == b.provider && a.id == b.id
  {
    hide KeyLe;
    KeyLeTotalOrder();
    forall a, b | Order(x)(a, b) && Order(x)(b, a) ensures a.provider == b.provider && a.id == b.id {
      assert SelectionKey(x, a) == SelectionKey(x, b);
      assert SelectionKey(x, a)[6] == SelectionKey(x, b)[6] && SelectionKey(x, a)[7] == SelectionKey(x, b)[7];
      CodesInjective(a.provider, b.provider);
      CodesInjective(a.id, b.id);
    }
  }

  /** The eligible models in selection order. */
  function Ordered(x: Context, eligible: seq<Model>): (r: seq<Model>)
    ensures |r| == |eligible| && multiset(r) == multiset(eligible) && Sorted(Order(x), r)
  {
    OrderTotal(x);
    SortCorrect(Order(x), eligible);
    Sort(Order(x), eligible)
  }

  predicate Equivalent(m: Model, selected: Model) {
    m.class_ == selected.class_ && m.quality == selected.quality
  }

  function FallbackKey(x: Context, selected: Model, m: Model): seq<seq<int>> {
    [[if Equivalent(m, selected) then 0 else 1]] + SelectionKey(x, m)
  }

  function FallbackOrder(x: Context, selected: Model): (Model, Model) -> bool {
    (a, b) => KeyLe(FallbackKey(x, selected, a), FallbackKey(x, selected, b))
  }

  // ---------------------------------------------------------------- decision

  predicate Exceeds(limit: Option<nat>, amount: nat) {
    limit.Some? && amount > limit.value
  }

  predicate OverHard(x: Context, cost: nat) {
    Exceeds(x.budget.hardRequest, cost) || Exceeds(x.budget.dailyHard, x.usage.daily + cost)
        || Exceeds(x.budget.monthlyHard, x.usage.monthly + cost)
  }

  predicate OverSoft(x: Context, cost: nat) {
    Exceeds(x.budget.softRequest, cost) || Exceeds(x.budget.dailySoft, x.usage.daily + cost)
        || Exceeds(x.budget.monthlySoft, x.usage.monthly + cost)
  }

  function Without(models: seq<Model>, selected: Model): seq<Model> {
    if models == [] then [] else (if models[0] != selected then [models[0]] else []) + Without(models[1..], selected)
  }

  function Refer(m: Model): Reference {
    Reference(m.provider, m.id, m.class_, m.quality)
  }

  function References(models: seq<Model>): (r: seq<Reference>)
    ensures |r| == |models| && forall i | 0 <= i < |r| :: r[i] == Refer(models[i])
  {
    seq(|models|, i requires 0 <= i < |models| => Refer(models[i]))
  }

  /** `_fallbacks`, with its second sort. */
  function Fallbacks(x: Context, selected: Model, ordered: seq<Model>): seq<Model> {
    Sort(FallbackOrder(x, selected), Without(ordered, selected))
  }

  function CountEquivalent(models: seq<Model>, selected: Model): nat {
    if models == [] then 0
    else (if Equivalent(models[0], selected) then 1 else 0) + CountEquivalent(models[1..], selected)
  }

  predicate OffersOtherProvider(fallbacks: seq<Reference>, selected: Model) {
    exists i | 0 <= i < |fallbacks| ::
      fallbacks[i].provider != selected.provider && fallbacks[i].class_ == selected.class_
          && fallbacks[i].quality == selected.quality
  }

  function Add(reasons: seq<Reason>, c: bool, r: Reason): seq<Reason> {
    if c then reasons + [r] else reasons
  }

  predicate Escalates(selected: Model, target: ModelClass) {
    General(target) && General(selected.class_) && ClassRank(selected.class_) > ClassRank(target)
  }

  function Reasons(x: Context, selected: Model, ordered: seq<Model>, fallbacks: seq<Reference>,
      cost: nat): seq<Reason> {
    var (target, base) := TargetClass(x.request);
    var r1 := Add([base], EffectiveCapabilities(x.request) - {BaseCapability(x.request)} != {}, RequiredCapability);
    var r2 := Add(r1, Escalates(selected, target), QualityEscalation);
    var r3 := Add(r2, CountEquivalent(ordered, selected) > 1, CostNeutralOptimization);
    var r4 := Add(r3, OverSoft(x, cost), BudgetWarning);
    Add(r4, OffersOtherProvider(fallbacks, selected), EquivalentProviderFallback)
  }

  /** `decide` on values. */
  function DecideSpec(x: Context, models: seq<Model>): Decision {
    match Sieve(x, STAGES, models)
    case Raised(reason) => Denied(reason)
    case Ok(eligible) =>
      var ordered := Ordered(x, eligible);
      var selected := ordered[0];
      var cost := Estimate(selected.pricing, x.request.inputTokens, x.request.outputTokens);
      if OverHard(x, cost) then Denied(HardBudgetExceeded)
      else
        var fallbacks := References(Fallbacks(x, selected, ordered));
        Selected(Refer(selected), Reasons(x, selected, ordered, fallbacks, cost), fallbacks, cost)
  }
}
