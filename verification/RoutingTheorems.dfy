/** What routing promises for every catalog, request, health snapshot and budget. */
module RoutingTheorems {
  import opened Ordering
  import opened RoutingPolicy

  // ---------------------------------------------------------------- filters

  lemma {:induction false} KeepCounts(x: Context, stage: Stage, models: seq<Model>, m: Model)
    ensures multiset(Keep(x, stage, models))[m] == if Passes(x, stage, m) then multiset(models)[m] else 0
  {
    hide Passes;
    if models != [] {
      KeepCounts(x, stage, models[1..], m);
      assert models == [models[0]] + models[1..];
    }
  }

  lemma KeepPermuted(x: Context, stage: Stage, a: seq<Model>, b: seq<Model>)
    requires multiset(a) == multiset(b)
    ensures multiset(Keep(x, stage, a)) == multiset(Keep(x, stage, b))
    ensures Keep(x, stage, a) == [] <==> Keep(x, stage, b) == []
  {
    hide Passes;
    hide Keep;
    forall m ensures multiset(Keep(x, stage, a))[m] == multiset(Keep(x, stage, b))[m] {
      KeepCounts(x, stage, a, m);
      KeepCounts(x, stage, b, m);
    }
    assert |multiset(Keep(x, stage, a))| == |Keep(x, stage, a)| && |multiset(Keep(x, stage, b))| == |Keep(x, stage, b)|;
  }

  /** Filtering forgets the order of the catalog, in what it keeps and in why it gives up. */
  lemma {:induction false} SievePermuted(x: Context, stages: seq<Stage>, a: seq<Model>, b: seq<Model>)
    requires multiset(a) == multiset(b)
    ensures var s, t := Sieve(x, stages, a), Sieve(x, stages, b);
            if s.Ok? then t.Ok? && multiset(s.value) == multiset(t.value) else t == s
  {
    hide Keep;
    if stages != [] {
      KeepPermuted(x, stages[0], a, b);
      if Keep(x, stages[0], a) != [] {
        SievePermuted(x, stages[1..], Keep(x, stages[0], a), Keep(x, stages[0], b));
      }
    }
  }

  /** The filters keep exactly the models that pass all of them. */
  lemma {:induction false} SieveCounts(x: Context, stages: seq<Stage>, models: seq<Model>, m: Model)
    ensures Sieve(x, stages, models).Ok? ==>
              multiset(Sieve(x, stages, models).value)[m] == if PassesAll(x, stages, m) then multiset(models)[m] else 0
  {
    hide Passes;
    hide Keep;
    if stages != [] {
      var kept := Keep(x, stages[0], models);
      KeepCounts(x, stages[0], models, m);
      if kept != [] {
        SieveCounts(x, stages[1..], kept, m);
        assert PassesAll(x, stages, m) <==> Passes(x, stages[0], m) && PassesAll(x, stages[1..], m) by {
          assert forall i | 0 <= i < |stages| - 1 :: stages[1..][i] == stages[i + 1];
        }
      }
    }
  }

  lemma {:induction false} SieveDenies(x: Context, stages: seq<Stage>, models: seq<Model>, m: Model)
    requires Sieve(x, stages, models).Raised? && m in models
    ensures !PassesAll(x, stages, m)
  {
    hide Passes;
    hide Keep;
    var kept := Keep(x, stages[0], models);
    KeepCounts(x, stages[0], models, m);
    if Passes(x, stages[0], m) {
      assert m in multiset(kept) && m in kept;
      SieveDenies(x, stages[1..], kept, m);
    }
  }

  // ---------------------------------------------------------------- order

  ghost predicate DistinctModels(models: seq<Model>) {
    forall i, j | 0 <= i < j < |models| :: (models[i].provider, models[i].id) != (models[j].provider, models[j].id)
  }

  lemma DistinctCounts(models: seq<Model>, m: Model)
    requires DistinctModels(models)
    ensures multiset(models)[m] <= 1
  {
    if models != [] {
      assert models == [models[0]] + models[1..];
      DistinctCounts(models[1..], m);
    }
  }

  /** Models that a catalog without duplicates lists are told apart by provider and identifier. */
  ghost predicate ToldApart(models: seq<Model>) {
    && (forall m :: multiset(models)[m] <= 1)
    && (forall a, b | a in models && b in models && a.provider == b.provider && a.id == b.id :: a == b)
  }

  lemma SieveToldApart(x: Context, models: seq<Model>)
    requires DistinctModels(models) && Sieve(x, STAGES, models).Ok?
    ensures ToldApart(Sieve(x, STAGES, models).value)
    ensures forall m | m in Sieve(x, STAGES, models).value :: m in models && Eligible(x, m)
    ensures forall m | m in models && Eligible(x, m) :: m in Sieve(x, STAGES, models).value
  {
    hide Sieve;
    hide PassesAll;
    var kept := Sieve(x, STAGES, models).value;
    forall m ensures multiset(kept)[m] <= 1 && (m in kept <==> m in models && Eligible(x, m)) {
      SieveCounts(x, STAGES, models, m);
      DistinctCounts(models, m);
      assert m in kept <==> m in multiset(kept);
      assert m in models <==> m in multiset(models);
    }
  }

  /** Routing is independent of the order of the catalog. */
  lemma PermutationTheorem(x: Context, a: seq<Model>, b: seq<Model>)
    requires multiset(a) == multiset(b) && DistinctModels(a)
    ensures DecideSpec(x, a) == DecideSpec(x, b)
  {
    hide Sieve;
    hide Reasons;
    hide Fallbacks;
    hide Estimate;
    SievePermuted(x, STAGES, a, b);
    if Sieve(x, STAGES, a).Ok? {
      SieveToldApart(x, a);
      OrderTotal(x);
      SortCanonical(Order(x), Sieve(x, STAGES, a).value, Sieve(x, STAGES, b).value);
    }
  }

  // ---------------------------------------------------------------- the chain

  /** All models of a decision meet the target class, so equal rank means equal class. */
  lemma RankDeterminesClass(x: Context, a: Model, b: Model)
    requires Eligible(x, a) && Eligible(x, b) && ClassRank(a.class_) == ClassRank(b.class_)
    ensures a.class_ == b.class_
  {
    assert Passes(x, STAGES[1], a) && Passes(x, STAGES[1], b);
  }

  /** What the first two parts of the key decide. */
  lemma KeyHead(x: Context, a: Model, b: Model)
    requires Before(x, a, b)
    ensures ClassRank(a.class_) < ClassRank(b.class_)
        || (ClassRank(a.class_) == ClassRank(b.class_) && a.quality <= b.quality)
  {
    hide Estimate;
    var k, l := SelectionKey(x, a), SelectionKey(x, b);
    assert k[0] == [ClassRank(a.class_) as int] && l[0] == [ClassRank(b.class_) as int];
    if k[0] == l[0] {
      assert LexLe(CodesLe, k[1..], l[1..]);
      assert k[1..][0] == [a.quality as int] && l[1..][0] == [b.quality as int];
      assert k[1..][0] == l[1..][0] || CodesLe([a.quality], [b.quality]);
    } else {
      assert CodesLe(k[0], l[0]);
    }
  }

  /** Putting the models equivalent to the best one first does not disturb a sorted list. */
  lemma FallbackAgrees(x: Context, selected: Model, a: Model, b: Model)
    requires Eligible(x, a) && Eligible(x, b) && Eligible(x, selected)
    requires Before(x, selected, a) && Before(x, a, b)
    ensures FallbackOrder(x, selected)(a, b)
  {
    hide Estimate;
    hide Before;
    hide PassesAll;
    KeyHead(x, selected, a);
    KeyHead(x, a, b);
    if Equivalent(b, selected) {
      RankDeterminesClass(x, a, b);
    }
    var k, l := FallbackKey(x, selected, a), FallbackKey(x, selected, b);
    assert k[1..] == SelectionKey(x, a) && l[1..] == SelectionKey(x, b);
    assert KeyLe(SelectionKey(x, a), SelectionKey(x, b)) by {
      BeforeMeans(x, a, b);
    }
    if k[0] != l[0] {
      assert k[0] == [0] && l[0] == [1];
      assert CodesLe([0], [1]);
    }
  }

  lemma BeforeMeans(x: Context, a: Model, b: Model)
    requires Before(x, a, b)
    ensures KeyLe(SelectionKey(x, a), SelectionKey(x, b))
  {
  }

  lemma FallbackTotal(x: Context, selected: Model)
    ensures Transitive(FallbackOrder(x, selected)) && Total(FallbackOrder(x, selected))
    ensures forall a, b | FallbackOrder(x, selected)(a, b) && FallbackOrder(x, selected)(b, a) ::
        a.provider == b.provider && a.id == b.id
  {
    hide KeyLe;
    hide SelectionKey;
    KeyLeTotalOrder();
    OrderTotal(x);
    forall a, b | FallbackOrder(x, selected)(a, b) && FallbackOrder(x, selected)(b, a) ensures a.provider == b.provider
        && a.id == b.id {
      assert FallbackKey(x, selected, a) == FallbackKey(x, selected, b);
      assert FallbackKey(x, selected, a)[1..] == SelectionKey(x, a)
          && FallbackKey(x, selected, b)[1..] == SelectionKey(x, b);
      assert KeyLe(SelectionKey(x, a), SelectionKey(x, a));
      assert Order(x)(a, b) && Order(x)(b, a);
    }
  }

  lemma {:induction false} WithoutAbsent(models: seq<Model>, selected: Model)
    requires selected !in models
    ensures Without(models, selected) == models
  {
    if models != [] {
      WithoutAbsent(models[1..], selected);
    }
  }

  lemma FallbackSorted(x: Context, ordered: seq<Model>)
    requires ordered != [] && Sorted(Order(x), ordered) && forall m | m in ordered :: Eligible(x, m)
    ensures Sorted(FallbackOrder(x, ordered[0]), ordered[1..])
  {
    hide PassesAll;
    hide Before;
    hide KeyLe;
    hide FallbackKey;
    var selected, rest := ordered[0], ordered[1..];
    forall i, j | 0 <= i < j < |rest| ensures FallbackOrder(x, selected)(rest[i], rest[j]) {
      assert rest[i] == ordered[i + 1] && rest[j] == ordered[j + 1];
      assert Order(x)(selected, ordered[i + 1]) && Order(x)(ordered[i + 1], ordered[j + 1]);
      FallbackAgrees(x, selected, rest[i], rest[j]);
    }
  }

  lemma FallbackStays(x: Context, selected: Model, rest: seq<Model>)
    requires Sorted(FallbackOrder(x, selected), rest)
    requires forall a, b | a in rest && b in rest && a.provider == b.provider && a.id == b.id :: a == b
    ensures Sort(FallbackOrder(x, selected), rest) == rest
  {
    hide FallbackOrder;
    FallbackTotal(x, selected);
    SortCorrect(FallbackOrder(x, selected), rest);
    SortedUnique(FallbackOrder(x, selected), rest, Sort(FallbackOrder(x, selected), rest));
  }

  /** A permutation of models that are told apart: no model twice, none added. */
  lemma OrderedToldApart(eligible: seq<Model>, ordered: seq<Model>)
    requires ToldApart(eligible) && multiset(ordered) == multiset(eligible) && ordered != []
    ensures forall m :: m in ordered <==> m in eligible
    ensures ordered[0] !in ordered[1..]
  {
    forall m ensures m in ordered <==> m in eligible {
      assert m in ordered <==> m in multiset(ordered);
      assert m in eligible <==> m in multiset(eligible);
    }
    assert ordered == [ordered[0]] + ordered[1..];
    assert multiset(ordered)[ordered[0]] == 1 + multiset(ordered[1..])[ordered[0]];
    assert multiset(eligible)[ordered[0]] <= 1;
  }

  lemma FallbacksUnsorted(x: Context, ordered: seq<Model>)
    requires ordered != [] && Sorted(Order(x), ordered) && forall m | m in ordered :: Eligible(x, m)
    requires ordered[0] !in ordered[1..]
    requires forall a, b | a in ordered && b in ordered && a.provider == b.provider && a.id == b.id :: a == b
    ensures Fallbacks(x, ordered[0], ordered) == ordered[1..]
  {
    hide PassesAll;
    hide Order;
    hide FallbackOrder;
    var selected, rest := ordered[0], ordered[1..];
    FallbackSorted(x, ordered);
    WithoutAbsent(rest, selected);
    assert Without(ordered, selected) == [] + rest == rest;
    FallbackStays(x, selected, rest);
  }

  /** The second sort never changes the order left by the first. */
  lemma FallbackTheorem(x: Context, models: seq<Model>)
    requires DistinctModels(models) && Sieve(x, STAGES, models).Ok?
    ensures var ordered := Ordered(x, Sieve(x, STAGES, models).value);
            Fallbacks(x, ordered[0], ordered) == ordered[1..]
  {
    hide Sieve;
    hide PassesAll;
    hide Order;
    hide Fallbacks;
    var eligible := Sieve(x, STAGES, models).value;
    SieveToldApart(x, models);
    OrderedToldApart(eligible, Ordered(x, eligible));
    FallbacksUnsorted(x, Ordered(x, eligible));
  }

  /** A chain that consists of exactly the eligible models, each once, with the best class and
      then the best quality at its head. */
  ghost predicate ChainOf(x: Context, models: seq<Model>, chain: seq<Model>) {
    && chain != []
    && (forall m :: m in chain <==> m in models && Eligible(x, m))
    && (forall i, j | 0 <= i < j < |chain| :: chain[i] != chain[j])
    && (forall m | m in chain ::
        ClassRank(chain[0].class_) < ClassRank(m.class_)
        || (chain[0].class_ == m.class_ && chain[0].quality <= m.quality))
  }

  /** The chain of a request for which some model is eligible. */
  lemma ChainBuilt(x: Context, models: seq<Model>)
    requires DistinctModels(models) && Sieve(x, STAGES, models).Ok?
    ensures ChainOf(x, models, Ordered(x, Sieve(x, STAGES, models).value))
  {
    hide PassesAll;
    hide Sieve;
    hide ChainOf;
    hide Order;
    var eligible := Sieve(x, STAGES, models).value;
    SieveNonempty(x, models);
    SieveToldApart(x, models);
    ChainCorrect(x, models, eligible);
  }

  lemma SieveNonempty(x: Context, models: seq<Model>)
    requires Sieve(x, STAGES, models).Ok?
    ensures Sieve(x, STAGES, models).value != []
  {
  }

  /** What the decision makes of the chain. */
  lemma ChainDecided(x: Context, models: seq<Model>)
    requires DistinctModels(models) && Sieve(x, STAGES, models).Ok?
    ensures var chain := Ordered(x, Sieve(x, STAGES, models).value);
            var cost := Estimate(chain[0].pricing, x.request.inputTokens, x.request.outputTokens);
            match DecideSpec(x, models)
            case Denied(reason) => reason == HardBudgetExceeded && OverHard(x, cost)
            case Selected(selected, _, fallbacks, c) =>
              !OverHard(x, cost) && c == cost && [selected] + fallbacks == References(chain)
  {
    hide Order;
    hide Reasons;
    hide Estimate;
    hide OverHard;
    hide Sieve;
    hide Fallbacks;
    SieveNonempty(x, models);
    FallbackTheorem(x, models);
    var chain := Ordered(x, Sieve(x, STAGES, models).value);
    assert [Refer(chain[0])] + References(chain[1..]) == References(chain);
  }

  /** A request is denied for want of a model exactly if no model is eligible, or for its budget;
      otherwise the selected model and the fallbacks are such a chain, in selection order. */
  lemma ChainTheorem(x: Context, models: seq<Model>)
    requires DistinctModels(models)
    ensures Sieve(x, STAGES, models).Ok? <==> exists m :: m in models && Eligible(x, m)
    ensures Sieve(x, STAGES, models).Ok? ==>
              var chain := Ordered(x, Sieve(x, STAGES, models).value);
              && ChainOf(x, models, chain)
              && var cost := Estimate(chain[0].pricing, x.request.inputTokens, x.request.outputTokens);
                 match DecideSpec(x, models)
                 case Denied(reason) => reason == HardBudgetExceeded && OverHard(x, cost)
                 case Selected(selected, _, fallbacks, c) =>
              !OverHard(x, cost) && c == cost && [selected] + fallbacks == References(chain)
  {
    hide PassesAll;
    hide Order;
    hide Sieve;
    hide DecideSpec;
    hide Estimate;
    hide OverHard;
    if Sieve(x, STAGES, models).Raised? {
      forall m | m in models ensures !Eligible(x, m) {
        SieveDenies(x, STAGES, models, m);
      }
    } else {
      ChainBuilt(x, models);
      ChainDecided(x, models);
      var chain := Ordered(x, Sieve(x, STAGES, models).value);
      assert chain[0] in models && Eligible(x, chain[0]);
    }
  }

  lemma ChainCorrect(x: Context, models: seq<Model>, eligible: seq<Model>)
    requires ToldApart(eligible) && eligible != []
    requires forall m :: m in eligible <==> m in models && Eligible(x, m)
    ensures ChainOf(x, models, Ordered(x, eligible))
  {
    hide PassesAll;
    var chain := Ordered(x, eligible);
    OrderedToldApart(eligible, chain);
    forall i, j | 0 <= i < j < |chain| ensures chain[i] != chain[j] {
      CountTwice(chain, i, j);
      assert multiset(eligible)[chain[i]] <= 1;
    }
    forall m | m in chain ensures ClassRank(chain[0].class_) < ClassRank(m.class_)
        || (chain[0].class_ == m.class_ && chain[0].quality <= m.quality) {
      var i :| 0 <= i < |chain| && chain[i] == m;
      if i > 0 {
        assert Order(x)(chain[0], chain[i]);
        KeyHead(x, chain[0], m);
        if ClassRank(chain[0].class_) == ClassRank(m.class_) {
          RankDeterminesClass(x, chain[0], m);
        }
      }
    }
  }

  lemma CountTwice(models: seq<Model>, i: nat, j: nat)
    requires i < j < |models|
    ensures models[i] == models[j] ==> multiset(models)[models[i]] >= 2
  {
    var a, b := models[..j], models[j..];
    assert models == a + b;
    assert a[i] == models[i] && b[0] == models[j];
    assert a[i] in multiset(a) && b[0] in multiset(b);
  }

  // ---------------------------------------------------------------- sensitivity

  /** `r` with some of its sensitivities raised and contexts added. */
  ghost predicate Raises(q: Request, r: Request) {
    && r == q.(sensitivity := r.sensitivity, contexts := r.contexts)
    && Rank(q.sensitivity) <= Rank(r.sensitivity)
    && |q.contexts| <= |r.contexts|
    && forall i | 0 <= i < |q.contexts| :: Rank(q.contexts[i]) <= Rank(r.contexts[i])
  }

  lemma HighestMonotone(q: Request, r: Request)
    requires Raises(q, r)
    ensures Rank(EffectiveSensitivity(q)) <= Rank(EffectiveSensitivity(r))
  {
    var e := EffectiveSensitivity(q);
    if e != q.sensitivity {
      var i :| 0 <= i < |q.contexts| && q.contexts[i] == e;
      assert Rank(q.contexts[i]) <= Rank(r.contexts[i]);
    }
  }

  /** With a consistent approval chain, data that may go to a model may go there when it is less
      sensitive. */
  lemma AllowsMonotone(low: Sensitivity, high: Sensitivity, p: Provider, m: Model)
    requires ApprovalChain(p) && Rank(low) <= Rank(high) && Allows(high, p, m)
    ensures Allows(low, p, m)
  {
  }

  /** Raising sensitivities only removes models: from the eligible ones, and from the chain. A
      request that is served stays served when they are lowered, unless its budget forbids it. */
  lemma SensitivityTheorem(x: Context, r: Request, models: seq<Model>)
    requires DistinctModels(models) && Raises(x.request, r) && forall k | k in x.providers ::
        ApprovalChain(x.providers[k])
    ensures var y := x.(request := r);
            && (forall m | Eligible(y, m) :: Eligible(x, m))
            && (Sieve(y, STAGES, models).Ok? ==> Sieve(x, STAGES, models).Ok?)
            && (DecideSpec(y, models).Selected? ==>
                  match DecideSpec(x, models)
                  case Denied(reason) => reason == HardBudgetExceeded
                  case Selected(selected, _, fallbacks, _) =>
                    forall f | f in [DecideSpec(y, models).selected] + DecideSpec(y, models).fallbacks ::
                        f in [selected] + fallbacks)
  {
    hide Sieve;
    hide OverHard;
    hide Estimate;
    hide Reasons;
    hide Order;
    var y := x.(request := r);
    HighestMonotone(x.request, r);
    forall m | Eligible(y, m) ensures Eligible(x, m) {
      EligibleMonotone(x, y, m);
    }
    hide PassesAll;
    ChainTheorem(x, models);
    ChainTheorem(y, models);
    if Sieve(y, STAGES, models).Ok? {
      var m :| m in models && Eligible(y, m);
      assert m in models && Eligible(x, m);
    }
    if DecideSpec(y, models).Selected? && DecideSpec(x, models).Selected? {
      ChainsNest(x, y, models, Ordered(x, Sieve(x, STAGES, models).value), Ordered(y, Sieve(y, STAGES, models).value));
    }
  }

  lemma EligibleMonotone(x: Context, y: Context, m: Model)
    requires Raises(x.request, y.request) && y == x.(request := y.request) && Eligible(y, m)
    requires Rank(EffectiveSensitivity(x.request)) <= Rank(EffectiveSensitivity(y.request))
    requires forall k | k in x.providers :: ApprovalChain(x.providers[k])
    ensures Eligible(x, m)
  {
    assert Passes(y, STAGES[3], m);
    AllowsMonotone(EffectiveSensitivity(x.request), EffectiveSensitivity(y.request), x.providers[m.provider], m);
    forall i | 0 <= i < |STAGES| ensures Passes(x, STAGES[i], m) {
      assert Passes(y, STAGES[i], m);
    }
  }

  lemma ChainsNest(x: Context, y: Context, models: seq<Model>, a: seq<Model>, b: seq<Model>)
    requires ChainOf(x, models, a) && ChainOf(y, models, b) && forall m | Eligible(y, m) :: Eligible(x, m)
    ensures forall f | f in References(b) :: f in References(a)
  {
    hide PassesAll;
    forall f | f in References(b) ensures f in References(a) {
      var i :| 0 <= i < |b| && References(b)[i] == f;
      assert b[i] in b && b[i] in a;
      var j :| 0 <= j < |a| && a[j] == b[i];
      assert References(a)[j] == f;
    }
  }

  // ---------------------------------------------------------------- reasons

  ghost predicate Distinctive(reasons: seq<Reason>) {
    forall i, j | 0 <= i < j < |reasons| :: reasons[i] != reasons[j]
  }

  lemma AddDistinct(reasons: seq<Reason>, c: bool, r: Reason)
    requires Distinctive(reasons) && r !in reasons
    ensures Distinctive(Add(reasons, c, r))
    ensures forall other | other != r :: other in Add(reasons, c, r) <==> other in reasons
  {
  }

  /** No reason is given twice, so removing duplicates leaves the list alone. */
  lemma ReasonsDistinct(x: Context, selected: Model, ordered: seq<Model>, fallbacks: seq<Reference>, cost: nat)
    ensures Distinctive(Reasons(x, selected, ordered, fallbacks, cost))
  {
    hide EffectiveCapabilities;
    hide OffersOtherProvider;
    hide OverSoft;
    hide CountEquivalent;
    hide Escalates;
    hide Distinctive;
    hide Add;
    var (target, base) := TargetClass(x.request);
    assert Distinctive([base]) by {
      OneReason(base);
    }
    var r1 := Add([base], EffectiveCapabilities(x.request) - {BaseCapability(x.request)} != {}, RequiredCapability);
    AddDistinct([base], EffectiveCapabilities(x.request) - {BaseCapability(x.request)} != {}, RequiredCapability);
    var r2 := Add(r1, Escalates(selected, target), QualityEscalation);
    AddDistinct(r1, Escalates(selected, target), QualityEscalation);
    var r3 := Add(r2, CountEquivalent(ordered, selected) > 1, CostNeutralOptimization);
    AddDistinct(r2, CountEquivalent(ordered, selected) > 1, CostNeutralOptimization);
    var r4 := Add(r3, OverSoft(x, cost), BudgetWarning);
    AddDistinct(r3, OverSoft(x, cost), BudgetWarning);
    AddDistinct(r4, OffersOtherProvider(fallbacks, selected), EquivalentProviderFallback);
  }

  lemma OneReason(r: Reason)
    ensures Distinctive([r])
  {
  }
}
