/** The durable checkpoint documents of the model benchmark
    (backend/app/ai_router/benchmark_store.py). */
module BenchmarkStore {
  import opened Common

  datatype CheckpointState = InProgress | Finished
  datatype Status = Completed | Incomplete | MalformedResponse | ProviderError

  /** `BenchmarkCallRecord` without its timestamp. */
  datatype Record = Record(
    run: string, caseId: string, model: string, reported: Option<string>, state: CheckpointState,
    status: Option<Status>, incompleteReason: Option<string>, succeeded: Option<bool>,
    inputTokens: int, cachedTokens: int, outputTokens: int, reasoningTokens: int, latency: int, cost: int,
    text: Option<string>, failure: Option<string>)

  type Key = (string, string)

  function KeyOf(r: Record): Key {
    (r.caseId, r.model)
  }

  datatype Aggregates = Aggregates(
    attempted: nat, finished: nat, completed: nat,
    inputTokens: int, cachedTokens: int, outputTokens: int, reasoningTokens: int, latency: int, cost: int)

  datatype Doc = Doc(run: string, calls: seq<Record>, aggregates: Aggregates)

  datatype Error = MixedRuns | NotStarted | Immutable | DuplicateStart

  // ---------------------------------------------------------------- validation

  predicate Alphanumeric(c: char) {
    'A' <= c <= 'Z' || 'a' <= c <= 'z' || '0' <= c <= '9'
  }

  /** The run identifier pattern. */
  predicate RunIdOk(run: string) {
    && 1 <= |run| <= 64 && Alphanumeric(run[0])
    && forall i | 0 <= i < |run| :: Alphanumeric(run[i]) || run[i] in "._-"
  }

  /** An optional string that Python treats as true. */
  predicate Present(s: Option<string>) {
    s.Some? && s.value != ""
  }

  predicate Within(s: Option<string>, limit: nat) {
    s.Some? ==> |s.value| <= limit
  }

  /** `validate_checkpoint_shape` and the field constraints. */
  predicate ValidRecord(r: Record) {
    && RunIdOk(r.run) && 1 <= |r.caseId| <= 128 && 1 <= |r.model| <= 128
    && Within(r.reported, 128) && Within(r.incompleteReason, 128) && Within(r.text, 1_000_000) && Within(r.failure, 128)
    && r.inputTokens >= 0 && r.cachedTokens >= 0 && r.outputTokens >= 0 && r.reasoningTokens >= 0 && r.latency >= 0
        && r.cost >= 0
    && r.cachedTokens <= r.inputTokens && r.reasoningTokens <= r.outputTokens
    && match r.state
       case InProgress =>
         && r.status.None? && r.succeeded.None?
         && !Present(r.reported) && !Present(r.incompleteReason) && !Present(r.text) && !Present(r.failure)
         && r.inputTokens == r.cachedTokens == r.outputTokens == r.reasoningTokens == r.latency == r.cost == 0
       case Finished =>
         && r.status.Some? && r.succeeded == Some(r.status == Some(Completed))
         && (r.status == Some(Incomplete) ==> Present(r.incompleteReason))
         && (r.status == Some(Completed) ==> Present(r.text))
  }

  predicate IsFinished(r: Record) {
    r.state == Finished
  }

  predicate IsCompleted(r: Record) {
    r.status == Some(Completed)
  }

  function Filter(keep: Record -> bool, calls: seq<Record>): seq<Record> {
    if calls == [] then []
    else Filter(keep, calls[..|calls| - 1]) + if keep(calls[|calls| - 1]) then [calls[|calls| - 1]] else []
  }

  /** The numbers that are summed. */
  datatype Field = InputTokens | CachedTokens | OutputTokens | ReasoningTokens | Latency | Cost

  function Value(field: Field, r: Record): int {
    match field
    case InputTokens => r.inputTokens
    case CachedTokens => r.cachedTokens
    case OutputTokens => r.outputTokens
    case ReasoningTokens => r.reasoningTokens
    case Latency => r.latency
    case Cost => r.cost
  }

  function Sum(field: Field, calls: seq<Record>): int {
    if calls == [] then 0 else Sum(field, calls[..|calls| - 1]) + Value(field, calls[|calls| - 1])
  }

  /** `from_calls` */
  function FromCalls(calls: seq<Record>): Aggregates {
    var finished := Filter(IsFinished, calls);
    Aggregates(
      |calls|, |finished|, |Filter(IsCompleted, finished)|,
      Sum(InputTokens, finished), Sum(CachedTokens, finished),
      Sum(OutputTokens, finished), Sum(ReasoningTokens, finished),
      Sum(Latency, finished), Sum(Cost, finished))
  }

  predicate DistinctKeys(calls: seq<Record>) {
    forall i, j | 0 <= i < j < |calls| :: KeyOf(calls[i]) != KeyOf(calls[j])
  }

  /** What `validate_run` accepts, declaratively. */
  predicate ValidDoc(d: Doc) {
    && RunIdOk(d.run)
    && (forall i | 0 <= i < |d.calls| :: ValidRecord(d.calls[i]) && d.calls[i].run == d.run)
    && DistinctKeys(d.calls)
    && d.aggregates == FromCalls(d.calls)
  }

  /** `validate_run`: the records were validated when they were built. */
  method ValidateRun(d: Doc) returns (ok: bool)
    requires forall i | 0 <= i < |d.calls| :: ValidRecord(d.calls[i])
    ensures ok <==> ValidDoc(d)
  {
    if !RunIdOk(d.run) {
      return false;
    }
    var keys: set<Key> := {};
    for i := 0 to |d.calls|
      invariant forall j | 0 <= j < i :: d.calls[j].run == d.run
      invariant DistinctKeys(d.calls[..i])
      invariant forall j | 0 <= j < i :: KeyOf(d.calls[j]) in keys
      invariant forall k | k in keys :: exists j | 0 <= j < i :: KeyOf(d.calls[j]) == k
    {
      if d.calls[i].run != d.run {
        return false;
      }
      if KeyOf(d.calls[i]) in keys {
        return false;
      }
      keys := keys + {KeyOf(d.calls[i])};
    }
    assert d.calls[..|d.calls|] == d.calls;
    return d.aggregates == FromCalls(d.calls);
  }

  // ---------------------------------------------------------------- aggregates

  function Plus(a: Aggregates, b: Aggregates): Aggregates {
    Aggregates(a.attempted + b.attempted, a.finished + b.finished, a.completed + b.completed,
               a.inputTokens + b.inputTokens, a.cachedTokens + b.cachedTokens, a.outputTokens + b.outputTokens,
               a.reasoningTokens + b.reasoningTokens, a.latency + b.latency, a.cost + b.cost)
  }

  lemma {:induction false} FilterConcat(keep: Record -> bool, a: seq<Record>, b: seq<Record>)
    ensures Filter(keep, a + b) == Filter(keep, a) + Filter(keep, b)
  {
    if b == [] {
      assert a + b == a;
    } else {
      var n := |b| - 1;
      FilterConcat(keep, a, b[..n]);
      assert (a + b)[..|a| + n] == a + b[..n];
    }
  }

  lemma {:induction false} SumConcat(field: Field, a: seq<Record>, b: seq<Record>)
    ensures Sum(field, a + b) == Sum(field, a) + Sum(field, b)
  {
    if b == [] {
      assert a + b == a;
    } else {
      var n := |b| - 1;
      SumConcat(field, a, b[..n]);
      assert (a + b)[..|a| + n] == a + b[..n];
    }
  }

  /** The aggregates of two lists of calls add up. */
  lemma AggregatesAdd(a: seq<Record>, b: seq<Record>)
    ensures FromCalls(a + b) == Plus(FromCalls(a), FromCalls(b))
  {
    FilterConcat(IsFinished, a, b);
    var x, y := Filter(IsFinished, a), Filter(IsFinished, b);
    FilterConcat(IsCompleted, x, y);
    hide Filter;
    hide Sum;
    forall field: Field ensures Sum(field, x + y) == Sum(field, x) + Sum(field, y) {
      SumConcat(field, x, y);
    }
  }

  /** What one record adds to the aggregates. */
  function Share(r: Record): Aggregates {
    if IsFinished(r) then
      Aggregates(1, 1, if IsCompleted(r) then 1 else 0,
                 r.inputTokens, r.cachedTokens, r.outputTokens, r.reasoningTokens, r.latency, r.cost)
    else Aggregates(1, 0, 0, 0, 0, 0, 0, 0, 0)
  }

  lemma ShareCorrect(r: Record)
    ensures FromCalls([r]) == Share(r)
  {
    assert [r][..0] == [];
    FilterOne(IsFinished, r);
    FilterOne(IsCompleted, r);
    forall field: Field ensures Sum(field, [r]) == Value(field, r) {
      assert Sum(field, [r]) == Sum(field, [r][..0]) + Value(field, r);
    }
  }

  lemma FilterOne(keep: Record -> bool, r: Record)
    ensures Filter(keep, [r]) == if keep(r) then [r] else []
  {
    assert [r][..0] == [];
  }

  /** Exchanging one record moves the aggregates by the difference of the two shares. */
  lemma AggregatesReplace(calls: seq<Record>, i: nat, r: Record)
    requires i < |calls|
    ensures Plus(FromCalls(calls[i := r]), Share(calls[i])) == Plus(FromCalls(calls), Share(r))
  {
    var a, b := calls[..i], calls[i + 1..];
    assert calls == a + ([calls[i]] + b) && calls[i := r] == a + ([r] + b);
    AggregatesAdd(a, [calls[i]] + b);
    AggregatesAdd([calls[i]], b);
    AggregatesAdd(a, [r] + b);
    AggregatesAdd([r], b);
    ShareCorrect(calls[i]);
    ShareCorrect(r);
  }

  // ---------------------------------------------------------------- checkpoints

  /** The position of the record with a key, if there is one. */
  function IndexOf(calls: seq<Record>, key: Key): (r: Option<nat>)
    ensures r.Some? ==> r.value < |calls| && KeyOf(calls[r.value]) == key
    ensures r.None? ==> forall i | 0 <= i < |calls| :: KeyOf(calls[i]) != key
    ensures r.Some? ==> forall i | 0 <= i < r.value :: KeyOf(calls[i]) != key
  {
    if calls == [] then None
    else
      var n := |calls| - 1;
      var earlier := IndexOf(calls[..n], key);
      if earlier.Some? then earlier
      else if KeyOf(calls[n]) == key then Some(n) else None
  }

  /** `record_for` */
  function RecordFor(d: Doc, key: Key): (r: Option<Record>)
    ensures r.Some? ==> r.value in d.calls && KeyOf(r.value) == key
    ensures r.None? <==> forall i | 0 <= i < |d.calls| :: KeyOf(d.calls[i]) != key
  {
    var i := IndexOf(d.calls, key);
    if i.Some? then Some(d.calls[i.value]) else None
  }

  /** `checkpoint` on values. */
  function CheckpointSpec(d: Doc, r: Record): Result<Doc, Error> {
    if r.run != d.run then Raised(MixedRuns)
    else
      var i := IndexOf(d.calls, KeyOf(r));
      if i.None? then
        if r.state != InProgress then Raised(NotStarted)
        else Ok(d.(calls := d.calls + [r], aggregates := FromCalls(d.calls + [r])))
      else if IsFinished(d.calls[i.value]) then Raised(Immutable)
      else if r.state != Finished then Raised(DuplicateStart)
      else Ok(d.(calls := d.calls[i.value := r], aggregates := FromCalls(d.calls[i.value := r])))
  }

  /** A checkpoint always passes the re-validation that follows it. It adds one record in
      progress, or turns one record in progress into a finished one; every other record,
      finished ones above all, stays where and as it was. */
  lemma CheckpointKeeps(d: Doc, r: Record)
    requires ValidDoc(d) && ValidRecord(r) && CheckpointSpec(d, r).Ok?
    ensures var e := CheckpointSpec(d, r).value;
            && ValidDoc(e) && e.run == d.run
            && RecordFor(e, KeyOf(r)) == Some(r)
            && (forall k: Key | k != KeyOf(r) :: RecordFor(e, k) == RecordFor(d, k))
            && (RecordFor(d, KeyOf(r)).Some? ==> !IsFinished(RecordFor(d, KeyOf(r)).value) && IsFinished(r))
            && (RecordFor(d, KeyOf(r)).None? ==> !IsFinished(r))
  {
    hide FromCalls;
    hide ValidRecord;
    var e := CheckpointSpec(d, r).value;
    assert forall i | 0 <= i < |d.calls| :: ValidRecord(d.calls[i]) && d.calls[i].run == d.run;
    forall k: Key ensures RecordFor(e, k) == if k == KeyOf(r) then Some(r) else RecordFor(d, k) {
      LookupUnique(e, k);
      LookupUnique(d, k);
      var before, after := IndexOf(d.calls, k), IndexOf(e.calls, k);
      if before.Some? {
        assert KeyOf(e.calls[before.value]) == k;
      } else if after.Some? {
        assert after.value == |d.calls|;
      }
      if k == KeyOf(r) {
        var at := if before.Some? then before.value else |d.calls|;
        assert e.calls[at] == r;
      }
    }
  }

  /** With distinct keys, the first record with a key is the only one. */
  lemma LookupUnique(d: Doc, key: Key)
    requires DistinctKeys(d.calls)
    ensures forall i | 0 <= i < |d.calls| && KeyOf(d.calls[i]) == key ::
        IndexOf(d.calls, key) == Some(i) && RecordFor(d, key) == Some(d.calls[i])
  {
  }

  /** The recomputed aggregates are the old ones plus exactly what the call consumed. */
  lemma CheckpointAccounts(d: Doc, r: Record)
    requires ValidDoc(d) && ValidRecord(r) && CheckpointSpec(d, r).Ok?
    ensures CheckpointSpec(d, r).value.aggregates ==
            if IsFinished(r) then Plus(d.aggregates, Share(r).(attempted := 0)) else Plus(d.aggregates, Share(r))
  {
    hide FromCalls;
    hide ValidRecord;
    var i := IndexOf(d.calls, KeyOf(r));
    if i.None? {
      AggregatesAdd(d.calls, [r]);
      ShareCorrect(r);
    } else {
      AggregatesReplace(d.calls, i.value, r);
    }
  }

  /** `checkpoint` up to the write: the list is copied, changed in one place, re-validated. */
  method Checkpoint(d: Doc, r: Record) returns (result: Result<Doc, Error>)
    requires ValidDoc(d) && ValidRecord(r)
    ensures result == CheckpointSpec(d, r)
    ensures result.Ok? ==> ValidDoc(result.value)
  {
    if r.run != d.run {
      return Raised(MixedRuns);
    }
    var calls := d.calls;
    var i := IndexOf(calls, KeyOf(r));
    if i.None? {
      if r.state != InProgress {
        return Raised(NotStarted);
      }
      calls := calls + [r];
    } else {
      if IsFinished(calls[i.value]) {
        return Raised(Immutable);
      }
      if r.state != Finished {
        return Raised(DuplicateStart);
      }
      calls := calls[i.value := r];
    }
    var updated := d.(calls := calls, aggregates := FromCalls(calls));
    CheckpointKeeps(d, r);
    return Ok(updated);
  }

  function EmptyDoc(run: string): Doc {
    Doc(run, [], FromCalls([]))
  }
}
