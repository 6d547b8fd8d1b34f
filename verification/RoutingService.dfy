/** Deciding and invoking (backend/app/ai_router/policy.py, catalog.py and service.py): the
    decision step by step, and the bounded loop of provider attempts along its chain. */
module RoutingService {
  import opened Common
  import opened RoutingPolicy
  import opened RoutingTheorems

  // ---------------------------------------------------------------- catalog

  predicate DistinctProviders(providers: seq<(string, Provider)>) {
    forall i, j | 0 <= i < j < |providers| :: providers[i].0 != providers[j].0
  }

  predicate Offered(providers: seq<(string, Provider)>, key: string) {
    exists i | 0 <= i < |providers| :: providers[i].0 == key
  }

  /** The provider loop of `ModelCatalog.__init__`; None where a key repeats. */
  method CollectProviders(providers: seq<(string, Provider)>) returns (r: Option<map<string, Provider>>)
    ensures r.Some? <==> DistinctProviders(providers)
    ensures r.Some? ==> forall key :: key in r.value <==> Offered(providers, key)
    ensures r.Some? ==> forall i | 0 <= i < |providers| ::
        providers[i].0 in r.value && r.value[providers[i].0] == providers[i].1
  {
    var collected: map<string, Provider> := map[];
    for i := 0 to |providers|
      invariant DistinctProviders(providers[..i])
      invariant forall key :: key in collected <==> exists j | 0 <= j < i :: providers[j].0 == key
      invariant forall j | 0 <= j < i :: collected[providers[j].0] == providers[j].1
    {
      if providers[i].0 in collected {
        return None;
      }
      collected := collected[providers[i].0 := providers[i].1];
    }
    assert providers[..|providers|] == providers;
    return Some(collected);
  }

  /** `ModelCatalog.__init__`: a catalog is accepted exactly if no provider key and no model repeats,
      every model names a known provider, and there is at least one of both. */
  method BuildCatalog(providers: seq<(string, Provider)>, models: seq<Model>) returns (ok: bool)
    ensures ok <==> DistinctProviders(providers) && DistinctModels(models)
                    && (forall i | 0 <= i < |models| :: Offered(providers, models[i].provider))
                    && models != [] && providers != []
  {
    hide Offered;
    var collected := CollectProviders(providers);
    if collected.None? {
      return false;
    }
    var seen: set<(string, string)> := {};
    for i := 0 to |models|
      invariant DistinctModels(models[..i])
      invariant forall j | 0 <= j < i ::
          models[j].provider in collected.value && (models[j].provider, models[j].id) in seen
      invariant forall k | k in seen :: exists j | 0 <= j < i :: (models[j].provider, models[j].id) == k
    {
      if (models[i].provider, models[i].id) in seen {
        return false;
      }
      if models[i].provider !in collected.value {
        return false;
      }
      seen := seen + {(models[i].provider, models[i].id)};
    }
    assert models[..|models|] == models;
    return models != [] && providers != [];
  }

  // ---------------------------------------------------------------- decide

  lemma SieveStep(x: Context, stages: seq<Stage>, models: seq<Model>, stage: Stage)
    requires stages != [] && stages[0] == stage
    ensures Sieve(x, stages, models) ==
            if Keep(x, stage, models) == [] then Raised(DenialOf(x, stage))
            else Sieve(x, stages[1..], Keep(x, stage, models))
  {
  }

  /** `decide` up to the sort. */
  method FilterModels(x: Context, models: seq<Model>) returns (r: Result<seq<Model>, Reason>)
    ensures r == Sieve(x, STAGES, models)
  {
    hide Sieve;
    hide Keep;
    var available := Keep(x, Availability, models);
    SieveStep(x, STAGES, models, Availability);
    if available == [] {
      return Raised(ProviderUnavailable);
    }
    var fitting := Keep(x, ClassFit, available);
    SieveStep(x, STAGES[1..], available, ClassFit);
    if fitting == [] {
      return Raised(if x.request.localOnly then LocalOnlyRequired else NoEligibleModel);
    }
    var capable := Keep(x, Capabilities, fitting);
    SieveStep(x, STAGES[1..][1..], fitting, Capabilities);
    if capable == [] {
      return Raised(RequiredCapability);
    }
    var permitted := Keep(x, Privacy, capable);
    SieveStep(x, STAGES[1..][1..][1..], capable, Privacy);
    if permitted == [] {
      return Raised(SensitivityRestriction);
    }
    var answering := Keep(x, Output, permitted);
    SieveStep(x, STAGES[1..][1..][1..][1..], permitted, Output);
    if answering == [] {
      return Raised(OutputLimit);
    }
    var fits := Keep(x, Window, answering);
    SieveStep(x, STAGES[1..][1..][1..][1..][1..], answering, Window);
    if fits == [] {
      return Raised(ContextLimit);
    }
    assert Sieve(x, [], fits) == Ok(fits) by {
      SieveEnds(x, fits);
    }
    assert STAGES[1..][1..][1..][1..][1..][1..] == [];
    return Ok(fits);
  }

  lemma SieveEnds(x: Context, models: seq<Model>)
    ensures Sieve(x, [], models) == Ok(models)
  {
  }

  /** The reasons of a selection, appended one by one. */
  method GiveReasons(x: Context, selected: Model, ordered: seq<Model>, fallbacks: seq<Reference>, cost: nat)
      returns (reasons: seq<Reason>)
    ensures reasons == Reasons(x, selected, ordered, fallbacks, cost)
  {
    hide EffectiveCapabilities;
    hide OffersOtherProvider;
    hide OverSoft;
    hide CountEquivalent;
    hide Escalates;
    var (target, base) := TargetClass(x.request);
    reasons := [base];
    if EffectiveCapabilities(x.request) - {BaseCapability(x.request)} != {} {
      reasons := reasons + [RequiredCapability];
    }
    if Escalates(selected, target) {
      reasons := reasons + [QualityEscalation];
    }
    if CountEquivalent(ordered, selected) > 1 {
      reasons := reasons + [CostNeutralOptimization];
    }
    if OverSoft(x, cost) {
      reasons := reasons + [BudgetWarning];
    }
    if OffersOtherProvider(fallbacks, selected) {
      reasons := reasons + [EquivalentProviderFallback];
    }
  }

  /** `decide` */
  method Decide(x: Context, models: seq<Model>) returns (d: Decision)
    ensures d == DecideSpec(x, models)
  {
    hide Sieve;
    hide Fallbacks;
    hide Estimate;
    hide Reasons;
    hide OverHard;
    var eligible := FilterModels(x, models);
    if eligible.Raised? {
      return Denied(eligible.error);
    }
    var ordered := Ordered(x, eligible.value);
    var selected := ordered[0];
    var cost := Estimate(selected.pricing, x.request.inputTokens, x.request.outputTokens);
    if OverHard(x, cost) {
      return Denied(HardBudgetExceeded);
    }
    var fallbacks := References(Fallbacks(x, selected, ordered));
    var reasons := GiveReasons(x, selected, ordered, fallbacks, cost);
    return Selected(Refer(selected), reasons, fallbacks, cost);
  }

  // ---------------------------------------------------------------- invoke

  datatype Category =
    | ProviderDown | RateLimited | Timeout | AuthenticationError | InvalidRequest | ContextExceeded
    | ContentPolicy | Unsupported | MalformedResponse | InternalProviderError | Cancelled

  /** `is_retryable_failure` */
  predicate Retryable(c: Category) {
    c in {ProviderDown, RateLimited, Timeout, InternalProviderError}
  }

  datatype Answer = Response(inputTokens: nat, outputTokens: nat, cachedTokens: nat, actual: Option<nat>,
      text: string) | Fails(category: Category)

  datatype UsageRecord = UsageRecord(
    model: Reference, attempt: nat, inputTokens: nat, outputTokens: nat, cachedTokens: nat,
    failure: Option<Category>, estimated: nat, actual: Option<nat>)

  /** What an invocation runs against: the catalog, the adapters that are registered, the routed
      request and the output budget given to the provider. */
  datatype Calling = Calling(models: seq<Model>, registered: set<string>, request: Request, outputBudget: nat)

  datatype InvokeError = RoutingDenied | ExecutionFailed

  /** One attempt: an unknown adapter and an answer over budget are failures. */
  function Attempt(e: Calling, model: Reference, answer: Answer): (r: Answer)
    ensures r.Response? <==> answer.Response? && answer.outputTokens <= e.outputBudget && model.provider in e.registered
    ensures r.Response? ==> r == answer
  {
    if model.provider !in e.registered then Fails(ProviderDown)
    else if answer.Response? && answer.outputTokens > e.outputBudget then Fails(MalformedResponse)
    else answer
  }

  function PricingOf(models: seq<Model>, r: Reference): (p: Pricing)
    ensures p == Pricing(0, None, 0) || exists m | m in models ::
        m.pricing == p && m.provider == r.provider && m.id == r.id
  {
    if models == [] then Pricing(0, None, 0)
    else if models[0].provider == r.provider && models[0].id == r.id then models[0].pricing
    else PricingOf(models[1..], r)
  }

  /** `_record_success_usage` and `_record_failure_usage` */
  function UsageOf(e: Calling, model: Reference, number: nat, outcome: Answer): UsageRecord {
    var pricing := PricingOf(e.models, model);
    match outcome
    case Response(i, o, c, actual, _) => UsageRecord(model, number, i, o, c, None, Estimate(pricing, i, o), actual)
    case Fails(category) => UsageRecord(model, number, 0, 0, 0, Some(category),
        Estimate(pricing, e.request.inputTokens, e.request.outputTokens), None)
  }

  /** The records of the attempts from position `k` of the chain on. */
  function Attempts(e: Calling, chain: seq<Reference>, k: nat, limit: nat, answers: nat -> Answer): seq<UsageRecord>
    decreases limit - k
  {
    if k >= |chain| || k >= limit then []
    else
      var outcome := Attempt(e, chain[k], answers(k));
      var record := UsageOf(e, chain[k], k + 1, outcome);
      [record] + if outcome.Fails? && Retryable(outcome.category) then Attempts(e, chain, k + 1, limit, answers) else []
  }

  /** A failure that another provider, or the same one later, may not repeat. */
  predicate Transient(c: Category) {
    match c
    case ProviderDown => true
    case RateLimited => true
    case Timeout => true
    case InternalProviderError => true
    case _ => false
  }

  lemma RetriesTransient(c: Category)
    ensures Retryable(c) <==> Transient(c)
  {
  }

  /** What the records of one invocation say, for every behaviour of the providers. They follow
      the chain from its head, numbered 1, 2, ...; every attempt but the last failed in a
      retryable way; the last one succeeded within the budget, or failed for good, or was the
      last one allowed. */
  ghost predicate Chronicle(e: Calling, chain: seq<Reference>, first: nat, limit: nat, records: seq<UsageRecord>) {
    && first + |records| <= (if |chain| < limit then |chain| else limit)
    && (forall i | 0 <= i < |records| :: records[i].attempt == first + i + 1 && records[i].model == chain[first + i])
    && (forall i | 0 <= i < |records| - 1 :: records[i].failure.Some? && Transient(records[i].failure.value))
    && (forall i | 0 <= i < |records| :: records[i].failure.None? ==>
        records[i].outputTokens <= e.outputBudget && records[i].model.provider in e.registered)
    && (records != [] ==>
          var last := records[|records| - 1];
          last.failure.Some? && Transient(last.failure.value) ==>
              first + |records| == (if |chain| < limit then |chain| else limit))
  }

  lemma {:induction false} AttemptsChronicle(e: Calling, chain: seq<Reference>, k: nat, limit: nat,
      answers: nat -> Answer)
    requires k <= |chain| && k <= limit
    ensures Chronicle(e, chain, k, limit, Attempts(e, chain, k, limit, answers))
    ensures k < |chain| && k < limit ==> Attempts(e, chain, k, limit, answers) != []
    decreases limit - k
  {
    hide UsageOf;
    hide Retryable;
    hide Transient;
    if k < |chain| && k < limit {
      var outcome := Attempt(e, chain[k], answers(k));
      var record := UsageOf(e, chain[k], k + 1, outcome);
      RecordShows(e, chain[k], k + 1, outcome);
      if outcome.Fails? {
        RetriesTransient(outcome.category);
      }
      if outcome.Fails? && Retryable(outcome.category) {
        var rest := Attempts(e, chain, k + 1, limit, answers);
        AttemptsChronicle(e, chain, k + 1, limit, answers);
        ChronicleGrows(e, chain, k, limit, record, rest);
      }
    }
  }

  lemma ChronicleGrows(e: Calling, chain: seq<Reference>, k: nat, limit: nat, record: UsageRecord,
      rest: seq<UsageRecord>)
    requires k < |chain| && k < limit && Chronicle(e, chain, k + 1, limit, rest)
    requires k + 1 < |chain| && k + 1 < limit ==> rest != []
    requires record.attempt == k + 1 && record.model == chain[k] && record.failure.Some?
        && Transient(record.failure.value)
    ensures Chronicle(e, chain, k, limit, [record] + rest)
  {
    hide Transient;
    var all := [record] + rest;
    assert forall i | 1 <= i < |all| :: all[i] == rest[i - 1];
  }

  /** The least number of microunits that covers the tokens at the price of the referenced model. */
  ghost predicate Charged(models: seq<Model>, r: Reference, input: nat, output: nat, cost: nat) {
    forall m | m in models && m.provider == r.provider && m.id == r.id ::
      var price := input * m.pricing.input + output * m.pricing.output;
      price <= cost * 1_000_000 && (cost == 0 || (cost - 1) * 1_000_000 < price)
  }

  /** What is recorded of one attempt, spelled out: an answer of a registered adapter within the budget
      with its own counts, and of a failure its category and the price that was expected. */
  ghost predicate RecordMeans(e: Calling, model: Reference, answer: Answer, record: UsageRecord) {
    var registered := model.provider in e.registered;
    && (record.failure.None? <==> registered && answer.Response? && answer.outputTokens <= e.outputBudget)
    && (record.failure.None? ==>
          && record.inputTokens == answer.inputTokens && record.outputTokens == answer.outputTokens
          && record.cachedTokens == answer.cachedTokens && record.actual == answer.actual
          && Charged(e.models, model, answer.inputTokens, answer.outputTokens, record.estimated))
    && (record.failure.Some? ==>
          && record.inputTokens == 0 && record.outputTokens == 0 && record.cachedTokens == 0 && record.actual.None?
          && Charged(e.models, model, e.request.inputTokens, e.request.outputTokens, record.estimated))
    && (!registered ==> record.failure == Some(ProviderDown))
    && (registered && answer.Response? && answer.outputTokens > e.outputBudget ==>
          record.failure == Some(MalformedResponse))
    && (registered && answer.Fails? ==> record.failure == Some(answer.category))
  }

  lemma {:induction false} PricingFound(models: seq<Model>, m: Model, r: Reference)
    requires DistinctModels(models) && m in models && m.provider == r.provider && m.id == r.id
    ensures PricingOf(models, r) == m.pricing
  {
    if models[0] != m {
      assert models == [models[0]] + models[1..];
      var i :| 0 < i < |models| && models[i] == m;
      PricingFound(models[1..], m, r);
    }
  }

  lemma EstimateCharged(models: seq<Model>, r: Reference, input: nat, output: nat)
    requires DistinctModels(models)
    ensures Charged(models, r, input, output, Estimate(PricingOf(models, r), input, output))
  {
    hide PricingOf;
    forall m | m in models && m.provider == r.provider && m.id == r.id ensures PricingOf(models, r) == m.pricing {
      PricingFound(models, m, r);
    }
  }

  ghost predicate RecordAt(e: Calling, chain: seq<Reference>, k: nat, answers: nat -> Answer, record: UsageRecord) {
    k < |chain| && RecordMeans(e, chain[k], answers(k), record)
  }

  /** The records of an invocation say what the adapters answered, one by one. */
  lemma {:induction false} AttemptsMean(e: Calling, chain: seq<Reference>, k: nat, limit: nat, answers: nat -> Answer)
    requires DistinctModels(e.models)
    ensures RecordsMean(e, chain, k, answers, Attempts(e, chain, k, limit, answers))
    decreases limit - k
  {
    hide Retryable;
    hide RecordAt;
    hide UsageOf;
    hide Attempt;
    if k < |chain| && k < limit {
      RecordSpelled(e, chain, k, answers);
      AttemptsMean(e, chain, k + 1, limit, answers);
      var record := UsageOf(e, chain[k], k + 1, Attempt(e, chain[k], answers(k)));
      RecordsGrow(e, chain, k, answers, record, Attempts(e, chain, k + 1, limit, answers));
      RecordsGrow(e, chain, k, answers, record, []);
    }
  }

  ghost predicate RecordsMean(e: Calling, chain: seq<Reference>, k: nat, answers: nat -> Answer,
      records: seq<UsageRecord>) {
    forall i | 0 <= i < |records| :: RecordAt(e, chain, k + i, answers, records[i])
  }

  lemma RecordsGrow(e: Calling, chain: seq<Reference>, k: nat, answers: nat -> Answer, record: UsageRecord,
      rest: seq<UsageRecord>)
    requires RecordAt(e, chain, k, answers, record) && RecordsMean(e, chain, k + 1, answers, rest)
    ensures RecordsMean(e, chain, k, answers, [record] + rest)
  {
    hide RecordAt;
    var records := [record] + rest;
    forall i | 0 <= i < |records| ensures RecordAt(e, chain, k + i, answers, records[i]) {
      if i > 0 {
        assert records[i] == rest[i - 1] && k + 1 + (i - 1) == k + i;
      }
    }
  }

  lemma RecordSpelled(e: Calling, chain: seq<Reference>, k: nat, answers: nat -> Answer)
    requires DistinctModels(e.models) && k < |chain|
    ensures RecordAt(e, chain, k, answers, UsageOf(e, chain[k], k + 1, Attempt(e, chain[k], answers(k))))
  {
    hide Charged;
    hide Estimate;
    var answer, model := answers(k), chain[k];
    EstimateCharged(e.models, model, e.request.inputTokens, e.request.outputTokens);
    if answer.Response? {
      EstimateCharged(e.models, model, answer.inputTokens, answer.outputTokens);
    }
  }

  /** The router's tables: routing decisions and usage records. */
  class AIRouter {
    const models: seq<Model>
    const registered: set<string>
    const maxAttempts: nat
    var decisions: seq<Decision>
    var usage: seq<UsageRecord>

    constructor (models: seq<Model>, registered: set<string>, maxAttempts: nat)
      ensures this.models == models && this.registered == registered && this.maxAttempts == maxAttempts
      ensures decisions == [] && usage == []
    {
      this.models, this.registered, this.maxAttempts := models, registered, maxAttempts;
      decisions, usage := [], [];
    }

    /** `route` */
    method Route(x: Context) returns (d: Decision)
      modifies this`decisions
      ensures d == DecideSpec(x, models) && decisions == old(decisions) + [d]
    {
      d := Decide(x, models);
      decisions := decisions + [d];
    }

    /** `invoke`: `answers(k)` is what the k-th adapter called answers. */
    method Invoke(x: Context, outputBudget: nat, structured: bool, tools: bool, answers: nat -> Answer)
      returns (r: Result<(Reference, Answer), InvokeError>)
      modifies this
      ensures var excessive := || outputBudget > x.request.outputTokens
                               || (structured && !x.request.structured) || (tools && !x.request.tools);
              if excessive then r == Raised(RoutingDenied) && decisions == old(decisions) && usage == old(usage)
              else
                var d := DecideSpec(x, models);
                && decisions == old(decisions) + [d]
                && (d.Denied? ==> r == Raised(RoutingDenied) && usage == old(usage))
                && (d.Selected? ==>
                      var e := Calling(models, registered, x.request, outputBudget);
                      var records := Attempts(e, [d.selected] + d.fallbacks, 0, maxAttempts, answers);
                      && usage == old(usage) + records
                      && Chronicle(e, [d.selected] + d.fallbacks, 0, maxAttempts, records)
                      && (r.Ok? <==> records != [] && records[|records| - 1].failure.None?)
                      && (r.Ok? ==> r.value.0 == records[|records| - 1].model && r.value.1 == answers(|records| - 1))
                      && (r.Raised? ==> r.error == ExecutionFailed))
    {
      hide *;
      if outputBudget > x.request.outputTokens
          || (structured && !x.request.structured) || (tools && !x.request.tools) {
        return Raised(RoutingDenied);
      }
      var d := Route(x);
      if d.Denied? {
        return Raised(RoutingDenied);
      }
      var chain := [d.selected] + d.fallbacks;
      var e := Calling(models, registered, x.request, outputBudget);
      AttemptsChronicle(e, chain, 0, maxAttempts, answers);
      r := TryChain(e, chain, answers);
    }

    /** The attempt loop of `invoke`. */
    method TryChain(e: Calling, chain: seq<Reference>, answers: nat -> Answer)
        returns (r: Result<(Reference, Answer), InvokeError>)
      modifies this`usage
      ensures var records := Attempts(e, chain, 0, maxAttempts, answers);
              && usage == old(usage) + records
              && (r.Ok? <==> records != [] && records[|records| - 1].failure.None?)
              && (r.Ok? ==> r.value == (records[|records| - 1].model, answers(|records| - 1)))
              && (r.Raised? ==> r.error == ExecutionFailed)
    {
      hide *;
      ghost var all := Attempts(e, chain, 0, maxAttempts, answers);
      assert all[0..] == all;
      var k, going := 0, true;
      while going && k < |chain| && k < maxAttempts
        invariant k <= |all| && k <= |chain| && k <= maxAttempts && usage == old(usage) + all[..k]
        invariant if going then all[k..] == Attempts(e, chain, k, maxAttempts, answers) else k == |all|
        invariant k > 0 ==> all[k - 1].failure.Some?
        invariant !going ==> k > 0
        decreases maxAttempts - k
      {
        var outcome := Attempt(e, chain[k], answers(k));
        var record := UsageOf(e, chain[k], k + 1, outcome);
        AttemptsStep(e, chain, k, maxAttempts, answers, all);
        usage := usage + [record];
        assert all[..k] + [all[k]] == all[..k + 1];
        k := k + 1;
        if outcome.Response? {
          assert all[..k] == all;
          return Ok((chain[k - 1], outcome));
        }
        going := Retryable(outcome.category);
      }
      if going {
        AttemptsEnd(e, chain, k, maxAttempts, answers);
      }
      assert all[..k] == all;
      return Raised(ExecutionFailed);
    }
  }

  lemma AttemptsEnd(e: Calling, chain: seq<Reference>, k: nat, limit: nat, answers: nat -> Answer)
    requires k >= |chain| || k >= limit
    ensures Attempts(e, chain, k, limit, answers) == []
  {
  }

  /** One step along the records of an invocation. */
  lemma AttemptsStep(e: Calling, chain: seq<Reference>, k: nat, limit: nat, answers: nat -> Answer,
      all: seq<UsageRecord>)
    requires k < |chain| && k < limit && k <= |all| && all[k..] == Attempts(e, chain, k, limit, answers)
    ensures var outcome := Attempt(e, chain[k], answers(k));
            && k < |all| && all[k] == UsageOf(e, chain[k], k + 1, outcome)
            && all[k].model == chain[k] && (all[k].failure.None? <==> outcome.Response?)
            && (if outcome.Fails? && Retryable(outcome.category)
                then all[k + 1..] == Attempts(e, chain, k + 1, limit, answers)
                else |all| == k + 1)
  {
    hide UsageOf;
    var outcome := Attempt(e, chain[k], answers(k));
    RecordShows(e, chain[k], k + 1, outcome);
    assert all[k] == all[k..][0];
    assert all[k..][1..] == all[k + 1..];
  }

  lemma RecordShows(e: Calling, model: Reference, number: nat, outcome: Answer)
    ensures UsageOf(e, model, number, outcome).failure.None? <==> outcome.Response?
    ensures UsageOf(e, model, number, outcome).model == model && UsageOf(e, model, number, outcome).attempt == number
    ensures outcome.Fails? ==> UsageOf(e, model, number, outcome).failure == Some(outcome.category)
    ensures outcome.Response? ==> UsageOf(e, model, number, outcome).outputTokens == outcome.outputTokens
  {
  }
}
