/** What the steps of a benchmark run write, said of the files: when a runner starts and with which
    pairs, what is checkpointed before a call, and what the record of a call takes from its answer. */
module BenchmarkMeaning {
  import opened Common
  import opened BenchmarkStore
  import opened BenchmarkRunner

  // ---------------------------------------------------------------- the record of a call

  predicate AtMost(s: Option<string>, limit: nat) {
    s.Some? ==> |s.value| <= limit
  }

  /** The answer makes a record that can be stored. */
  predicate Storable(a: Answer) {
    match a
    case Failure(category, latency) => |category| <= 128 && latency >= 0
    case Response(status, reported, reason, input, cached, output, reasoning, latency, cost, text) =>
      && AtMost(reported, 128) && AtMost(reason, 128) && |text| <= 1_000_000
      && 0 <= cached <= input && 0 <= reasoning <= output && latency >= 0 && cost >= 0
      && (status == Incomplete ==> reason.Some? && reason.value != "")
      && (status == Completed ==> text != "")
  }

  /** What the record of a finished call takes from the answer. */
  ghost predicate Records(run: string, key: Key, a: Answer, r: Record) {
    && r.run == run && r.caseId == key.0 && r.model == key.1 && r.state == Finished
    && match a
       case Failure(category, latency) =>
         && r.status == Some(ProviderError) && r.succeeded == Some(false) && r.failure == Some(category)
         && r.latency == latency && r.cost == 0
         && r.inputTokens == 0 && r.cachedTokens == 0 && r.outputTokens == 0 && r.reasoningTokens == 0
         && r.reported.None? && r.incompleteReason.None? && r.text.None?
       case Response(status, reported, reason, input, cached, output, reasoning, latency, cost, text) =>
         && r.status == Some(status) && (r.succeeded == Some(true) <==> status == Completed) && r.succeeded.Some?
         && r.inputTokens == input && r.cachedTokens == cached && r.outputTokens == output
         && r.reasoningTokens == reasoning && r.latency == latency && r.cost == cost
         && r.reported == reported && r.incompleteReason == reason && r.failure.None?
         && (if text == "" then r.text.None? else r.text == Some(text))
  }

  /** The totals of a run grow by what the record consumed. */
  ghost predicate Accounted(before: Aggregates, after: Aggregates, r: Record) {
    && after.attempted == before.attempted && after.finished == before.finished + 1
    && after.completed == before.completed + (if r.status == Some(Completed) then 1 else 0)
    && after.inputTokens == before.inputTokens + r.inputTokens
    && after.cachedTokens == before.cachedTokens + r.cachedTokens
    && after.outputTokens == before.outputTokens + r.outputTokens
    && after.reasoningTokens == before.reasoningTokens + r.reasoningTokens
    && after.latency == before.latency + r.latency && after.cost == before.cost + r.cost
  }

  /** Every file but this one and every record but this one is as it was. */
  ghost predicate OnlyRecord(st: State, n: State, c: Call, r: Record) {
    && n.disk.Keys == st.disk.Keys && OnDisk(n.disk, c) == Some(r)
    && (forall other: Call | other != c :: OnDisk(n.disk, other) == OnDisk(st.disk, other))
    && (forall run | run in st.disk && run != c.run :: n.disk[run] == st.disk[run])
    && n.log == st.log && n.dirs == st.dirs
  }

  /** What ending a call does. */
  ghost predicate EndMeans(st: State, answer: Answer, n: State) {
    st.runner.Some? && st.runner.value.phase == Called ==>
      var p := st.runner.value;
      && p.pending != []
      && var c := Call(p.run, p.pending[0]);
         if Storable(answer) then
           && (exists r :: Records(p.run, p.pending[0], answer, r) && OnlyRecord(st, n, c, r)
                           && p.run in st.disk && Accounted(st.disk[p.run].aggregates, n.disk[p.run].aggregates, r))
           && (n.runner.Some? <==> answer.Response? && answer.status == Completed && |p.pending| > 1)
           && (n.runner.Some? ==> n.runner.value == Runner(p.run, n.disk[p.run], p.pending[1..], p.ceiling, Ready))
         else n == st.(runner := None)
  }

  lemma StorableSpelled(run: string, key: Key, a: Answer)
    requires RunIdOk(run) && 1 <= |key.0| <= 128 && 1 <= |key.1| <= 128
    ensures ValidRecord(FinishedRecord(run, key, a)) <==> Storable(a)
    ensures Records(run, key, a, FinishedRecord(run, key, a))
  {
    hide RunIdOk;
  }

  /** The record in progress can be turned into a finished one. */
  lemma CheckpointFinishes(d: Doc, r: Record)
    requires r.run == d.run && IsFinished(r)
    requires RecordFor(d, KeyOf(r)).Some? && !IsFinished(RecordFor(d, KeyOf(r)).value)
    ensures CheckpointSpec(d, r).Ok?
  {
  }

  lemma AccountsSpelled(d: Doc, r: Record)
    requires ValidDoc(d) && ValidRecord(r) && IsFinished(r) && CheckpointSpec(d, r).Ok?
    ensures Accounted(d.aggregates, CheckpointSpec(d, r).value.aggregates, r)
  {
    hide ValidDoc;
    hide ValidRecord;
    hide CheckpointSpec;
    CheckpointAccounts(d, r);
  }

  lemma RecordedKey(d: Doc, key: Key)
    requires ValidDoc(d) && RecordFor(d, key).Some?
    ensures RunIdOk(d.run) && 1 <= |key.0| <= 128 && 1 <= |key.1| <= 128
  {
    hide FromCalls;
  }

  lemma EndSpelled(st: State, answer: Answer)
    requires Inv(st)
    ensures EndMeans(st, answer, Next(st, EndCall(answer)))
  {
    hide ValidDoc;
    hide ValidRecord;
    hide CheckpointSpec;
    hide RecordFor;
    hide LogOk;
    hide Records;
    hide Storable;
    hide Accounted;
    hide RunIdOk;
    if st.runner.Some? && st.runner.value.phase == Called {
      var p, n := st.runner.value, Next(st, EndCall(answer));
      var key := p.pending[0];
      var record := FinishedRecord(p.run, key, answer);
      RecordedKey(p.doc, key);
      StorableSpelled(p.run, key, answer);
      if Storable(answer) {
        assert KeyOf(record) == key && IsFinished(record) && record.run == p.run;
        CheckpointFinishes(p.doc, record);
        CheckpointOnDisk(st.disk, p.run, record);
        AccountsSpelled(p.doc, record);
        assert OnlyRecord(st, n, Call(p.run, key), record);
        assert record.status == Some(Completed) <==> answer.Response? && answer.status == Completed;
      }
    }
  }

  /** In every reachable state: the record on disk after a call carries what the provider answered. */
  lemma RecordTheorem(steps: seq<Step>, answer: Answer)
    ensures EndMeans(Run(steps), answer, Run(steps + [EndCall(answer)]))
  {
    hide EndMeans;
    hide Inv;
    hide Next;
    ExecuteOne(State(map[], {}, [], None), steps, EndCall(answer));
    EndSpelled(Run(steps), answer);
  }

  // ---------------------------------------------------------------- the checkpoint before a call

  /** A record in progress: nothing is known of the answer yet. */
  ghost predicate JustStarted(run: string, key: Key, r: Record) {
    && r.run == run && r.caseId == key.0 && r.model == key.1 && r.state == InProgress
    && r.status.None? && r.succeeded.None? && r.reported.None? && r.incompleteReason.None? && r.text.None?
    && r.failure.None? && r.inputTokens == 0 && r.cachedTokens == 0 && r.outputTokens == 0
    && r.reasoningTokens == 0 && r.latency == 0 && r.cost == 0
  }

  function OneMore(a: Aggregates): Aggregates {
    a.(attempted := a.attempted + 1)
  }

  /** What beginning a call does: the pair is put on record before the provider is called, unless the
      ceiling is reached, the pair has no valid name or it is on record already. */
  ghost predicate BeginMeans(st: State, n: State) {
    st.runner.Some? && st.runner.value.phase == Ready ==>
      var p := st.runner.value;
      && p.pending != [] && p.run in st.disk
      && var key := p.pending[0];
         if && st.disk[p.run].aggregates.attempted < p.ceiling
            && 1 <= |key.0| <= 128 && 1 <= |key.1| <= 128 && OnDisk(st.disk, Call(p.run, key)).None?
         then
           && (exists r :: JustStarted(p.run, key, r) && OnlyRecord(st, n, Call(p.run, key), r))
           && n.disk[p.run].aggregates == OneMore(st.disk[p.run].aggregates)
           && n.runner == Some(p.(doc := n.disk[p.run], phase := Started))
         else n == st.(runner := None)
  }

  lemma StartedSpelled(run: string, key: Key)
    requires RunIdOk(run)
    ensures ValidRecord(StartedRecord(run, key)) <==> 1 <= |key.0| <= 128 && 1 <= |key.1| <= 128
    ensures JustStarted(run, key, StartedRecord(run, key))
  {
    hide RunIdOk;
  }

  lemma CheckpointStarts(d: Doc, r: Record)
    requires r.run == d.run && !IsFinished(r)
    ensures CheckpointSpec(d, r).Ok? <==> RecordFor(d, KeyOf(r)).None?
  {
  }

  lemma StartAccounts(d: Doc, r: Record)
    requires ValidDoc(d) && ValidRecord(r) && !IsFinished(r) && CheckpointSpec(d, r).Ok?
    ensures CheckpointSpec(d, r).value.aggregates == OneMore(d.aggregates)
  {
    hide ValidDoc;
    hide ValidRecord;
    hide CheckpointSpec;
    CheckpointAccounts(d, r);
  }

  lemma DocRun(d: Doc)
    requires ValidDoc(d)
    ensures RunIdOk(d.run)
  {
  }

  lemma BeginSpelled(st: State)
    requires Inv(st)
    ensures BeginMeans(st, Next(st, BeginCall))
  {
    hide ValidDoc;
    hide ValidRecord;
    hide CheckpointSpec;
    hide RecordFor;
    hide LogOk;
    hide JustStarted;
    hide RunIdOk;
    if st.runner.Some? && st.runner.value.phase == Ready {
      var p, n := st.runner.value, Next(st, BeginCall);
      var key := p.pending[0];
      var record := StartedRecord(p.run, key);
      DocRun(p.doc);
      StartedSpelled(p.run, key);
      assert KeyOf(record) == key && !IsFinished(record) && record.run == p.run;
      CheckpointStarts(p.doc, record);
      if ValidRecord(record) && CheckpointSpec(p.doc, record).Ok? {
        CheckpointOnDisk(st.disk, p.run, record);
        StartAccounts(p.doc, record);
        if p.doc.aggregates.attempted < p.ceiling {
          assert OnlyRecord(st, n, Call(p.run, key), record);
        }
      }
    }
  }

  /** In every reachable state: what is on disk before the provider is called. */
  lemma BeginTheorem(steps: seq<Step>)
    ensures BeginMeans(Run(steps), Run(steps + [BeginCall]))
  {
    hide BeginMeans;
    hide Inv;
    hide Next;
    ExecuteOne(State(map[], {}, [], None), steps, BeginCall);
    BeginSpelled(Run(steps));
  }

  // ---------------------------------------------------------------- starting a runner

  /** No record of the run names the pair. */
  ghost predicate Untried(st: State, run: string, key: Key) {
    OnDisk(st.disk, Call(run, key)).None?
  }

  ghost predicate Ambiguous(st: State, run: string, key: Key) {
    OnDisk(st.disk, Call(run, key)).Some? && OnDisk(st.disk, Call(run, key)).value.state == InProgress
  }

  /** The pairs at these positions, in order. */
  ghost predicate PicksInOrder(pairs: seq<Key>, picks: seq<nat>, pending: seq<Key>) {
    && |picks| == |pending|
    && (forall i | 0 <= i < |picks| :: picks[i] < |pairs| && pending[i] == pairs[picks[i]])
    && (forall i, j | 0 <= i < j < |picks| :: picks[i] < picks[j])
  }

  /** The selected pairs that were not tried, in the order of the selection. */
  ghost predicate LeftToDo(st: State, run: string, pairs: seq<Key>, pending: seq<Key>) {
    exists picks :: PicksInOrder(pairs, picks, pending) && forall i | 0 <= i < |pairs| ::
      i in picks <==> Untried(st, run, pairs[i])
  }

  /** When a launch puts a runner to work: a well-formed name and ceiling, a run that exists exactly if it
      is to be resumed, no selected pair of unknown outcome, one that was not tried, and calls left. */
  ghost predicate MayStart(st: State, step: Step)
    requires step.Launch?
  {
    && RunIdOk(step.run) && 1 <= step.ceiling <= 20 && step.configured
    && (if step.resume then step.run in st.disk else step.run !in st.disk && step.run !in st.dirs)
    && (forall i | 0 <= i < |step.pairs| :: !Ambiguous(st, step.run, step.pairs[i]))
    && (exists i | 0 <= i < |step.pairs| :: Untried(st, step.run, step.pairs[i]))
    && (step.run in st.disk ==> |st.disk[step.run].calls| < step.ceiling)
  }

  /** The launch makes a new run, whether or not there is anything to do in it. */
  ghost predicate Creates(st: State, step: Step)
    requires step.Launch?
  {
    && !step.resume && RunIdOk(step.run) && 1 <= step.ceiling <= 20
    && step.run !in st.disk && step.run !in st.dirs
  }

  ghost predicate LaunchMeans(st: State, step: Step, n: State)
    requires step.Launch?
  {
    && n.log == st.log
    && (st.runner.None? ==> if Creates(st, step)
                            then n.disk == st.disk[step.run := Doc(step.run, [], Aggregates(0, 0, 0, 0, 0, 0, 0, 0, 0))]
                                 && n.dirs == st.dirs + {step.run}
                            else n.disk == st.disk && n.dirs == st.dirs)
    && (st.runner.None? ==> (n.runner.Some? <==> MayStart(st, step)))
    && (st.runner.None? && n.runner.Some? ==>
          var p := n.runner.value;
          && p.run == step.run && p.ceiling == step.ceiling && p.phase == Ready
          && p.run in n.disk && p.doc == n.disk[p.run] && LeftToDo(st, p.run, step.pairs, p.pending))
    && (st.runner.Some? ==> n == st)
  }

  ghost predicate PicksMissing(d: Doc, pairs: seq<Key>, picks: seq<nat>) {
    forall i | 0 <= i < |pairs| :: i in picks <==> RecordFor(d, pairs[i]).None?
  }

  lemma PickOne(d: Doc, pairs: seq<Key>, picks: seq<nat>, pending: seq<Key>)
    requires pairs != [] && RecordFor(d, pairs[|pairs| - 1]).None?
    requires PicksInOrder(pairs[..|pairs| - 1], picks, pending) && PicksMissing(d, pairs[..|pairs| - 1], picks)
    ensures PicksInOrder(pairs, picks + [|pairs| - 1], pending + [pairs[|pairs| - 1]])
    ensures PicksMissing(d, pairs, picks + [|pairs| - 1])
  {
    hide RecordFor;
    var n := |pairs| - 1;
    forall i | 0 <= i < n ensures i in picks + [n] <==> RecordFor(d, pairs[i]).None? {
      assert pairs[..n][i] == pairs[i];
    }
  }

  lemma PickNone(d: Doc, pairs: seq<Key>, picks: seq<nat>, pending: seq<Key>)
    requires pairs != [] && RecordFor(d, pairs[|pairs| - 1]).Some?
    requires PicksInOrder(pairs[..|pairs| - 1], picks, pending) && PicksMissing(d, pairs[..|pairs| - 1], picks)
    ensures PicksInOrder(pairs, picks, pending) && PicksMissing(d, pairs, picks)
  {
    hide RecordFor;
    var n := |pairs| - 1;
    forall i | 0 <= i < n ensures i in picks <==> RecordFor(d, pairs[i]).None? {
      assert pairs[..n][i] == pairs[i];
    }
  }

  /** The pending list picks the pairs without a record. */
  lemma {:induction false} PendingPicks(d: Doc, pairs: seq<Key>) returns (picks: seq<nat>)
    requires Pending(d, pairs).Some?
    ensures PicksInOrder(pairs, picks, Pending(d, pairs).value) && PicksMissing(d, pairs, picks)
  {
    hide RecordFor;
    picks := [];
    if pairs != [] {
      hide PicksInOrder;
      hide PicksMissing;
      var n := |pairs| - 1;
      picks := PendingPicks(d, pairs[..n]);
      var earlier := Pending(d, pairs[..n]).value;
      if RecordFor(d, pairs[n]).None? {
        PickOne(d, pairs, picks, earlier);
        picks := picks + [n];
      } else {
        PickNone(d, pairs, picks, earlier);
      }
    }
  }

  /** What a run holds when it is launched: the file, or nothing for a new run. */
  lemma OpenedRecords(st: State, run: string, resume: bool)
    requires DiskOk(st.disk)
    ensures OpenDoc(st, run, resume).Some? <==>
              RunIdOk(run) && if resume then run in st.disk else run !in st.disk && run !in st.dirs
    ensures OpenDoc(st, run, resume).Some? ==>
              var d := OpenDoc(st, run, resume).value;
              && (forall key :: RecordFor(d, key) == OnDisk(st.disk, Call(run, key)))
              && d.aggregates.attempted == |d.calls|
              && (if run in st.disk then d == st.disk[run]
                  else d == Doc(run, [], Aggregates(0, 0, 0, 0, 0, 0, 0, 0, 0)))
  {
    assert FromCalls([]) == Aggregates(0, 0, 0, 0, 0, 0, 0, 0, 0);
    hide Filter;
    hide Sum;
  }

  lemma LaunchSpelled(st: State, step: Step)
    requires Inv(st) && step.Launch?
    ensures LaunchMeans(st, step, Next(st, step))
  {
    hide DiskOk;
    hide LogOk;
    hide OpenDoc;
    hide RunIdOk;
    hide OnDisk;
    hide Pending;
    if st.runner.None? {
      OpenedRecords(st, step.run, step.resume);
      var found := OpenDoc(st, step.run, step.resume);
      if found.Some? {
        PendingSpelled(st, found.value, step.run, step.pairs);
      }
      hide RecordFor;
    }
  }

  lemma PendingSpelled(st: State, d: Doc, run: string, pairs: seq<Key>)
    requires forall key :: RecordFor(d, key) == OnDisk(st.disk, Call(run, key))
    ensures Pending(d, pairs).Some? <==> forall i | 0 <= i < |pairs| :: !Ambiguous(st, run, pairs[i])
    ensures Pending(d, pairs).Some? ==> LeftToDo(st, run, pairs, Pending(d, pairs).value)
    ensures Pending(d, pairs).Some? ==>
              (Pending(d, pairs).value != [] <==> exists i | 0 <= i < |pairs| :: Untried(st, run, pairs[i]))
  {
    hide RecordFor;
    hide OnDisk;
    if Pending(d, pairs).Some? {
      var picks := PendingPicks(d, pairs);
      var pending := Pending(d, pairs).value;
      if i :| 0 <= i < |pairs| && Untried(st, run, pairs[i]) {
        assert i in picks;
      }
      if pending != [] {
        assert Untried(st, run, pairs[picks[0]]);
      }
    }
  }

  /** In every reachable state: exactly when a launch puts a runner to work, and with which pairs. */
  lemma LaunchTheorem(steps: seq<Step>, step: Step)
    requires step.Launch?
    ensures LaunchMeans(Run(steps), step, Run(steps + [step]))
  {
    hide LaunchMeans;
    hide Inv;
    hide Next;
    ExecuteOne(State(map[], {}, [], None), steps, step);
    LaunchSpelled(Run(steps), step);
  }

  // ---------------------------------------------------------------- the selection

  /** The models a run may be asked for. */
  predicate Known(model: string) {
    model == "gpt-5-nano" || model == "gpt-5.6-luna"
  }

  /** The case was asked for, or none was. */
  predicate Wanted(asked: Option<string>, name: string) {
    asked.None? || asked == Some(name)
  }

  ghost predicate OccursOnce(names: seq<string>, name: string) {
    multiset(names)[name] == 1
  }

  lemma {:induction false} MatchingSpelled(names: seq<string>, name: string)
    ensures |Matching(names, name)| == multiset(names)[name]
    ensures forall i | 0 <= i < |Matching(names, name)| :: Matching(names, name)[i] == name
  {
    if names != [] {
      var rest := Matching(names[1..], name);
      MatchingSpelled(names[1..], name);
      HeadCounts(names, name);
      if names[0] == name {
        assert Matching(names, name) == [name] + rest;
      } else {
        assert Matching(names, name) == [] + rest == rest;
      }
    }
  }

  lemma HeadCounts(names: seq<string>, name: string)
    requires names != []
    ensures multiset(names)[name] == (if names[0] == name then 1 else 0) + multiset(names[1..])[name]
  {
    assert names == [names[0]] + names[1..];
  }

  lemma {:induction false} ProductSpelled(cases: seq<string>, models: seq<string>, key: Key)
    ensures key in Product(cases, models) <==> key.0 in cases && key.1 in models
  {
    if cases != [] {
      ProductSpelled(cases[1..], models, key);
      var first := seq(|models|, i requires 0 <= i < |models| => (cases[0], models[i]));
      assert key in first <==> key.0 == cases[0] && key.1 in models by {
        if key.0 == cases[0] && key.1 in models {
          var i :| 0 <= i < |models| && models[i] == key.1;
          assert first[i] == key;
        }
      }
      assert cases == [cases[0]] + cases[1..];
    }
  }

  /** The pairs of an invocation: refused exactly if the case does not occur once or the model is not one
      of the two; otherwise every fixture asked for with every model asked for. */
  lemma SelectionTheorem(job: Job, key: Key)
    ensures SelectedPairs(job).Some? <==>
              && (job.caseKey.Some? ==> OccursOnce(job.fixtures, job.caseKey.value))
              && (job.modelId.Some? ==> Known(job.modelId.value))
    ensures SelectedPairs(job).Some? ==>
              (key in SelectedPairs(job).value <==>
                 && key.0 in job.fixtures && Wanted(job.caseKey, key.0)
                 && Known(key.1) && Wanted(job.modelId, key.1))
  {
    if job.caseKey.Some? {
      assert job.caseKey.value in job.fixtures <==> job.caseKey.value in multiset(job.fixtures);
      MatchingSpelled(job.fixtures, job.caseKey.value);
    }
    hide Matching;
    var cases, models := SelectedCases(job.fixtures, job.caseKey), SelectedModels(job.modelId);
    if cases.Some? && models.Some? {
      ProductSpelled(cases.value, models.value, key);
    }
  }
}