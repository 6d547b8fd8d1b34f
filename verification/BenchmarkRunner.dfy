/** The benchmark runner (scripts/run_nano_luna_benchmark.py) as a crash-recovery protocol: a
    checkpoint before each provider call, one after it, and resumption from the file. */
module BenchmarkRunner {
  import opened Common
  import opened BenchmarkStore

  datatype Call = Call(run: string, key: Key)

  /** Where a runner stands in its loop: about to checkpoint, checkpointed, provider called. */
  datatype Phase = Ready | Started | Called

  datatype Runner = Runner(run: string, doc: Doc, pending: seq<Key>, ceiling: int, phase: Phase)

  /** The result files, the run directories, the provider calls ever made, and the process. */
  datatype State = State(disk: map<string, Doc>, dirs: set<string>, log: seq<Call>, runner: Option<Runner>)

  /** What the provider answers. */
  datatype Answer =
    | Failure(category: string, latency: int)
    | Response(status: Status, reported: Option<string>, incompleteReason: Option<string>,
               inputTokens: int, cachedTokens: int, outputTokens: int, reasoningTokens: int, latency: int, cost: int,
                   text: string)

  /** The atomic effects of a run, in the order in which the program takes them. A process can
      stop between any two of them, and while creating a run after making its directory. */
  datatype Step =
    | Launch(run: string, pairs: seq<Key>, ceiling: int, resume: bool, configured: bool)
    | LaunchDies(run: string)
    | BeginCall
    | CallProvider
    | EndCall(answer: Answer)
    | Crash

  // ---------------------------------------------------------------- steps

  /** `_started_record` */
  function StartedRecord(run: string, key: Key): Record {
    Record(run, key.0, key.1, None, InProgress, None, None, None, 0, 0, 0, 0, 0, 0, None, None)
  }

  /** `_finished_record`, as the two call sites fill it. */
  function FinishedRecord(run: string, key: Key, answer: Answer): Record {
    match answer
    case Failure(category, latency) =>
      Record(run, key.0, key.1, None, Finished, Some(ProviderError), None, Some(false), 0, 0, 0, 0, latency, 0, None,
          Some(category))
    case Response(status, reported, reason, input, cached, output, reasoning, latency, cost, text) =>
      Record(run, key.0, key.1, reported, Finished, Some(status), reason, Some(status == Completed), input, cached,
          output, reasoning, latency, cost,
             if text == "" then None else Some(text), None)
  }

  /** The selected pairs without a record, in order; None if one is in progress. */
  function Pending(d: Doc, pairs: seq<Key>): (r: Option<seq<Key>>)
    ensures r.Some? ==> forall k | k in r.value :: k in pairs && RecordFor(d, k).None?
    ensures r.None? <==> exists i | 0 <= i < |pairs| ::
        RecordFor(d, pairs[i]).Some? && !IsFinished(RecordFor(d, pairs[i]).value)
    ensures r.Some? ==> forall i | 0 <= i < |pairs| ::
        pairs[i] in r.value || (RecordFor(d, pairs[i]).Some? && IsFinished(RecordFor(d, pairs[i]).value))
  {
    if pairs == [] then Some([])
    else
      var n := |pairs| - 1;
      var earlier := Pending(d, pairs[..n]);
      var existing := RecordFor(d, pairs[n]);
      if earlier.None? then None
      else if existing.None? then Some(earlier.value + [pairs[n]])
      else if IsFinished(existing.value) then earlier
      else None
  }

  /** The loaded or created document; None where the runner gives up. */
  function OpenDoc(st: State, run: string, resume: bool): Option<Doc> {
    if !RunIdOk(run) then None
    else if resume then
      if run in st.disk && ValidDoc(st.disk[run]) && st.disk[run].run == run then Some(st.disk[run]) else None
    else if run in st.disk || run in st.dirs then None
    else Some(EmptyDoc(run))
  }

  function Launched(st: State, run: string, pairs: seq<Key>, ceiling: int, resume: bool, configured: bool): State {
    if !(1 <= ceiling <= 20) then st
    else
      var found := OpenDoc(st, run, resume);
      if found.None? then st
      else
        var d := found.value;
        var st1 := if resume then st else st.(disk := st.disk[run := d], dirs := st.dirs + {run});
        var pending := Pending(d, pairs);
        if pending.None? || pending.value == [] || d.aggregates.attempted >= ceiling || !configured then st1
        else st1.(runner := Some(Runner(run, d, pending.value, ceiling, Ready)))
  }

  /** The checkpoint that precedes a call. */
  function Begun(st: State, r: Runner): State
    requires r.pending != []
  {
    var record := StartedRecord(r.run, r.pending[0]);
    if r.doc.aggregates.attempted >= r.ceiling || !ValidRecord(record) || CheckpointSpec(r.doc, record).Raised?
    then st.(runner := None)
    else
      var d := CheckpointSpec(r.doc, record).value;
      st.(disk := st.disk[r.run := d], runner := Some(r.(doc := d, phase := Started)))
  }

  /** The checkpoint that follows a call. An answer that makes no valid record ends the process
      before anything is written. */
  function Concluded(st: State, r: Runner, answer: Answer): State
    requires r.pending != []
  {
    var record := FinishedRecord(r.run, r.pending[0], answer);
    if !ValidRecord(record) || CheckpointSpec(r.doc, record).Raised? then st.(runner := None)
    else
      var d := CheckpointSpec(r.doc, record).value;
      var st1 := st.(disk := st.disk[r.run := d]);
      if record.status != Some(Completed) || |r.pending| == 1 then st1.(runner := None)
      else st1.(runner := Some(Runner(r.run, d, r.pending[1..], r.ceiling, Ready)))
  }

  /** A step that does not apply changes nothing; in particular there is one runner at a time. */
  function Next(st: State, step: Step): State {
    match step
    case Launch(run, pairs, ceiling, resume, configured) =>
      if st.runner.Some? then st else Launched(st, run, pairs, ceiling, resume, configured)
    case LaunchDies(run) =>
      if st.runner.Some? || !RunIdOk(run) || run in st.disk || run in st.dirs then st else st.(dirs := st.dirs + {run})
    case BeginCall =>
      if st.runner.None? || st.runner.value.phase != Ready || st.runner.value.pending == [] then st
      else Begun(st, st.runner.value)
    case CallProvider =>
      if st.runner.None? || st.runner.value.phase != Started || st.runner.value.pending == [] then st
      else st.(log := st.log + [Call(st.runner.value.run, st.runner.value.pending[0])],
          runner := Some(st.runner.value.(phase := Called)))
    case EndCall(answer) =>
      if st.runner.None? || st.runner.value.phase != Called || st.runner.value.pending == [] then st
      else Concluded(st, st.runner.value, answer)
    case Crash => st.(runner := None)
  }

  function Execute(st: State, steps: seq<Step>): State {
    if steps == [] then st else Next(Execute(st, steps[..|steps| - 1]), steps[|steps| - 1])
  }

  lemma {:induction false} ExecuteConcat(st: State, a: seq<Step>, b: seq<Step>)
    ensures Execute(st, a + b) == Execute(Execute(st, a), b)
  {
    if b == [] {
      assert a + b == a;
    } else {
      var n := |b| - 1;
      ExecuteConcat(st, a, b[..n]);
      assert (a + b)[..|a| + n] == a + b[..n];
    }
  }

  lemma ExecuteOne(st: State, steps: seq<Step>, step: Step)
    ensures Execute(st, steps + [step]) == Next(Execute(st, steps), step)
  {
    assert (steps + [step])[..|steps|] == steps;
  }

  // ---------------------------------------------------------------- invariant

  /** The record a run holds for a pair. */
  ghost function OnDisk(disk: map<string, Doc>, c: Call): Option<Record> {
    if c.run in disk then RecordFor(disk[c.run], c.key) else None
  }

  ghost predicate DiskOk(disk: map<string, Doc>) {
    forall run | run in disk :: ValidDoc(disk[run]) && disk[run].run == run
  }

  /** A provider call was checkpointed before it was made, and made only once; a finished record
      belongs to a call that was made. */
  ghost predicate LogOk(disk: map<string, Doc>, log: seq<Call>) {
    && (forall i, j | 0 <= i < j < |log| :: log[i] != log[j])
    && (forall i | 0 <= i < |log| :: OnDisk(disk, log[i]).Some?)
    && (forall c: Call | OnDisk(disk, c).Some? && IsFinished(OnDisk(disk, c).value) :: c in log)
  }

  ghost predicate RunnerOk(st: State, r: Runner) {
    && r.run in st.disk && st.disk[r.run] == r.doc && r.pending != []
    && var c := Call(r.run, r.pending[0]);
       && (r.phase != Ready ==> OnDisk(st.disk, c).Some? && !IsFinished(OnDisk(st.disk, c).value))
       && (r.phase == Started ==> c !in st.log)
       && (r.phase == Called ==> c in st.log)
  }

  ghost predicate Inv(st: State) {
    DiskOk(st.disk) && LogOk(st.disk, st.log) && (st.runner.Some? ==> RunnerOk(st, st.runner.value))
  }

  /** Files and finished records are never lost or changed, and calls are only added. */
  ghost predicate Evolves(st: State, n: State) {
    && st.log <= n.log
    && (forall run | run in st.disk :: run in n.disk)
    && (forall c: Call | OnDisk(st.disk, c).Some? ::
          OnDisk(n.disk, c).Some? && (IsFinished(OnDisk(st.disk, c).value) ==> OnDisk(n.disk, c) == OnDisk(st.disk, c)))
  }

  lemma CheckpointOnDisk(disk: map<string, Doc>, run: string, r: Record)
    requires DiskOk(disk) && run in disk && ValidRecord(r) && r.run == run && CheckpointSpec(disk[run], r).Ok?
    ensures var after := disk[run := CheckpointSpec(disk[run], r).value]; var mine := Call(run, KeyOf(r));
            && DiskOk(after)
            && (forall c: Call | c != mine :: OnDisk(after, c) == OnDisk(disk, c))
            && OnDisk(after, mine) == Some(r)
            && (OnDisk(disk, mine).Some? ==> !IsFinished(OnDisk(disk, mine).value) && IsFinished(r))
            && (OnDisk(disk, mine).None? ==> !IsFinished(r))
  {
    hide ValidDoc;
    hide ValidRecord;
    hide CheckpointSpec;
    hide RecordFor;
    CheckpointKeeps(disk[run], r);
  }

  lemma EmptyValid(run: string)
    requires RunIdOk(run)
    ensures ValidDoc(EmptyDoc(run)) && forall k: Key :: RecordFor(EmptyDoc(run), k).None?
  {
  }

  /** Launching adds at most an empty document: no record appears, changes or disappears. */
  lemma LaunchedDisk(st: State, run: string, pairs: seq<Key>, ceiling: int, resume: bool, configured: bool)
    requires DiskOk(st.disk)
    ensures var n := Launched(st, run, pairs, ceiling, resume, configured);
            && DiskOk(n.disk) && st.disk.Keys <= n.disk.Keys && n.log == st.log
            && (forall c: Call :: OnDisk(n.disk, c) == OnDisk(st.disk, c))
            && (forall other | other in n.disk ::
                if other in st.disk then n.disk[other] == st.disk[other] else n.disk[other] == EmptyDoc(other))
  {
    hide ValidDoc;
    hide RecordFor;
    hide Pending;
    hide FromCalls;
    var n := Launched(st, run, pairs, ceiling, resume, configured);
    if RunIdOk(run) {
      EmptyValid(run);
    }
    assert run in st.disk ==> n.disk == st.disk;
  }

  lemma LaunchKept(st: State, run: string, pairs: seq<Key>, ceiling: int, resume: bool, configured: bool)
    requires Inv(st) && st.runner.None?
    ensures Inv(Launched(st, run, pairs, ceiling, resume, configured))
        && Evolves(st, Launched(st, run, pairs, ceiling, resume, configured))
  {
    hide DiskOk;
    hide OnDisk;
    hide Pending;
    LaunchedDisk(st, run, pairs, ceiling, resume, configured);
  }

  lemma BeginKept(st: State)
    requires Inv(st) && st.runner.Some? && st.runner.value.phase == Ready
    ensures Inv(Next(st, BeginCall)) && Evolves(st, Next(st, BeginCall))
  {
    hide ValidDoc;
    hide ValidRecord;
    hide CheckpointSpec;
    hide RecordFor;
    var r := st.runner.value;
    var record := StartedRecord(r.run, r.pending[0]);
    if ValidRecord(record) && CheckpointSpec(r.doc, record).Ok? {
      assert KeyOf(record) == r.pending[0];
      CheckpointOnDisk(st.disk, r.run, record);
    }
  }

  lemma CallKept(st: State)
    requires Inv(st) && st.runner.Some? && st.runner.value.phase == Started
    ensures Inv(Next(st, CallProvider)) && Evolves(st, Next(st, CallProvider))
  {
    hide ValidDoc;
    hide RecordFor;
  }

  lemma EndKept(st: State, answer: Answer)
    requires Inv(st) && st.runner.Some? && st.runner.value.phase == Called
    ensures Inv(Next(st, EndCall(answer))) && Evolves(st, Next(st, EndCall(answer)))
  {
    hide ValidDoc;
    hide ValidRecord;
    hide CheckpointSpec;
    hide RecordFor;
    var r := st.runner.value;
    var record := FinishedRecord(r.run, r.pending[0], answer);
    if ValidRecord(record) && CheckpointSpec(r.doc, record).Ok? {
      assert KeyOf(record) == r.pending[0];
      CheckpointOnDisk(st.disk, r.run, record);
    }
  }

  lemma NextKept(st: State, step: Step)
    requires Inv(st)
    ensures Inv(Next(st, step)) && Evolves(st, Next(st, step))
  {
    hide LogOk;
    hide DiskOk;
    match step {
      case Launch(run, pairs, ceiling, resume, configured) =>
        if st.runner.None? {
          LaunchKept(st, run, pairs, ceiling, resume, configured);
        }
      case BeginCall =>
        if st.runner.Some? && st.runner.value.phase == Ready {
          BeginKept(st);
        }
      case CallProvider =>
        if st.runner.Some? && st.runner.value.phase == Started {
          CallKept(st);
        }
      case EndCall(answer) =>
        if st.runner.Some? && st.runner.value.phase == Called {
          EndKept(st, answer);
        }
      case LaunchDies(_) =>
      case Crash =>
    }
  }

  // ---------------------------------------------------------------- runs

  lemma {:induction false} ExecuteKept(st: State, steps: seq<Step>)
    requires Inv(st)
    ensures Inv(Execute(st, steps)) && Evolves(st, Execute(st, steps))
  {
    hide Inv;
    hide Next;
    hide OnDisk;
    if steps != [] {
      var n := |steps| - 1;
      ExecuteKept(st, steps[..n]);
      NextKept(Execute(st, steps[..n]), steps[n]);
    }
  }

  /** The state after any sequence of steps, from an empty result directory. */
  ghost function Run(steps: seq<Step>): (st: State)
    ensures Inv(st)
  {
    var empty := State(map[], {}, [], None);
    ExecuteKept(empty, steps);
    Execute(empty, steps)
  }

  /** The step launches a runner: nothing was running, and it neither gave up nor had nothing to do. */
  predicate Starts(st: State, step: Step) {
    step.Launch? && st.runner.None? && Next(st, step).runner.Some?
  }

  /** The largest ceiling with which a runner of this run was ever started. */
  ghost function Ceiling(steps: seq<Step>, run: string): nat {
    if steps == [] then 0
    else
      var n := |steps| - 1;
      var earlier, step := Ceiling(steps[..n], run), steps[n];
      if Starts(Run(steps[..n]), step) && step.run == run && step.ceiling > earlier then step.ceiling else earlier
  }

  lemma RunEvolves(steps: seq<Step>, continued: seq<Step>)
    ensures Evolves(Run(steps), Run(steps + continued))
  {
    hide Next;
    var empty := State(map[], {}, [], None);
    ExecuteConcat(empty, steps, continued);
    ExecuteKept(Run(steps), continued);
  }

  /** Over any sequence of runs, crashes and resumptions no pair is sent to the provider twice in
      a run, every call made was checkpointed first, and every finished record was called. */
  lemma OnceTheorem(steps: seq<Step>, i: nat, j: nat)
    ensures var st := Run(steps);
            && (i < j < |st.log| ==> st.log[i] != st.log[j])
            && (i < |st.log| ==> OnDisk(st.disk, st.log[i]).Some?)
    ensures forall c: Call | OnDisk(Run(steps).disk, c).Some? && IsFinished(OnDisk(Run(steps).disk, c).value) ::
        c in Run(steps).log
  {
    hide Next;
    hide OnDisk;
    assert Inv(Run(steps));
  }

  /** Every stored document passes validation: its aggregates equal a recomputation. So resuming
      a run never finds a corrupt file. */
  lemma StoredTheorem(steps: seq<Step>, run: string)
    requires run in Run(steps).disk
    ensures ValidDoc(Run(steps).disk[run]) && RunIdOk(run)
    ensures OpenDoc(Run(steps), run, true) == Some(Run(steps).disk[run])
  {
    hide Next;
    hide FromCalls;
    assert Inv(Run(steps));
  }

  /** A finished record is the same in every continuation. */
  lemma FinishedTheorem(steps: seq<Step>, continued: seq<Step>, c: Call)
    requires OnDisk(Run(steps).disk, c).Some? && IsFinished(OnDisk(Run(steps).disk, c).value)
    ensures OnDisk(Run(steps + continued).disk, c) == OnDisk(Run(steps).disk, c)
  {
    hide Run;
    RunEvolves(steps, continued);
  }

  /** The invariant behind the ceiling, for the bounds in force. */
  ghost predicate Bounded(st: State, bound: string -> nat) {
    && (forall run | run in st.disk :: st.disk[run].aggregates.attempted <= bound(run))
    && (st.runner.Some? ==> st.runner.value.ceiling <= bound(st.runner.value.run))
  }

  lemma BoundedNext(st: State, step: Step, before: string -> nat, after: string -> nat)
    requires Inv(st) && Bounded(st, before)
    requires forall run :: before(run) <= after(run)
    requires Starts(st, step) ==> step.ceiling <= after(step.run)
    ensures Bounded(Next(st, step), after)
  {
    hide ValidRecord;
    hide ValidDoc;
    hide CheckpointSpec;
    hide RecordFor;
    hide LogOk;
    hide Pending;
    if step.Launch? && st.runner.None? {
      LaunchedDisk(st, step.run, step.pairs, step.ceiling, step.resume, step.configured);
    }
    if st.runner.Some? && st.runner.value.pending != [] {
      var r := st.runner.value;
      if step.BeginCall? {
        Attempts(r.doc, StartedRecord(r.run, r.pending[0]));
      } else if step.EndCall? {
        Attempts(r.doc, FinishedRecord(r.run, r.pending[0], step.answer));
      }
    }
  }

  lemma Attempts(d: Doc, r: Record)
    requires ValidDoc(d)
    ensures CheckpointSpec(d, r).Ok? ==>
              CheckpointSpec(d, r).value.aggregates.attempted == d.aggregates.attempted + if IsFinished(r) then 0 else 1
  {
  }

  lemma {:induction false} RunBounded(steps: seq<Step>)
    ensures Bounded(Run(steps), run => Ceiling(steps, run))
  {
    hide Inv;
    hide Next;
    if steps != [] {
      var n := |steps| - 1;
      RunBounded(steps[..n]);
      var st := Run(steps[..n]);
      assert Run(steps) == Next(st, steps[n]);
      BoundedNext(st, steps[n], run => Ceiling(steps[..n], run), run => Ceiling(steps, run));
    }
  }

  lemma {:induction false} CeilingAtMostTwenty(steps: seq<Step>, run: string)
    ensures Ceiling(steps, run) <= 20
  {
    hide Inv;
    if steps != [] {
      CeilingAtMostTwenty(steps[..|steps| - 1], run);
    }
  }

  /** The calls on record for a run never exceed the largest ceiling with which a runner of it was
      started, and so never the program's limit. A launch that is refused does not count. */
  lemma CeilingTheorem(steps: seq<Step>, run: string)
    ensures run in Run(steps).disk ==> |Run(steps).disk[run].calls| <= Ceiling(steps, run) <= 20
  {
    hide Next;
    hide Ceiling;
    RunBounded(steps);
    CeilingAtMostTwenty(steps, run);
    var st := Run(steps);
    assert run in st.disk ==> ValidDoc(st.disk[run]);
  }

  // ---------------------------------------------------------------- the program

  /** When the process stops, if it does, in one iteration of the loop; or what it is answered. */
  datatype Fate = StopsBefore | StopsAfterCheckpoint | StopsDuringCall | Answered(answer: Answer)

  datatype Exit = Complete | Abort | Died

  /** The command line and the surroundings of one invocation: the benchmark's fixtures, whether the
      catalog lists Nano for evaluation only and Luna for routing, whether a key is configured, and
      whether creating the run stops. */
  datatype Job = Job(
    run: string, fixtures: seq<string>, caseKey: Option<string>, modelId: Option<string>, ceiling: int, resume: bool,
    nanoOk: bool, lunaOk: bool, keyPresent: bool, creationStops: bool)

  /** The three checks between opening the run and looking for pending pairs. */
  predicate CatalogOk(job: Job) {
    job.nanoOk && job.lunaOk && |job.fixtures| == 10
  }

  const ALLOWED_MODELS: seq<string> := ["gpt-5-nano", "gpt-5.6-luna"]

  function Matching(fixtures: seq<string>, key: string): seq<string> {
    if fixtures == [] then [] else (if fixtures[0] == key then [key] else []) + Matching(fixtures[1..], key)
  }

  /** `_selected_cases` */
  function SelectedCases(fixtures: seq<string>, caseKey: Option<string>): Option<seq<string>> {
    if caseKey.None? then Some(fixtures)
    else if |Matching(fixtures, caseKey.value)| != 1 then None
    else Some(Matching(fixtures, caseKey.value))
  }

  /** `_selected_models` */
  function SelectedModels(modelId: Option<string>): Option<seq<string>> {
    if modelId.None? then Some(ALLOWED_MODELS)
    else if modelId.value !in ALLOWED_MODELS then None
    else Some([modelId.value])
  }

  /** All pairs of a case and a model, case by case. */
  function Product(cases: seq<string>, models: seq<string>): seq<Key> {
    if cases == [] then []
    else seq(|models|, i requires 0 <= i < |models| => (cases[0], models[i])) + Product(cases[1..], models)
  }

  function SelectedPairs(job: Job): Option<seq<Key>> {
    var cases, models := SelectedCases(job.fixtures, job.caseKey), SelectedModels(job.modelId);
    if cases.None? || models.None? then None else Some(Product(cases.value, models.value))
  }

  predicate FinishedIn(d: Doc, key: Key) {
    RecordFor(d, key).Some? && IsFinished(RecordFor(d, key).value)
  }

  predicate AllFinished(d: Doc, pairs: seq<Key>) {
    forall k | 0 <= k < |pairs| :: FinishedIn(d, pairs[k])
  }

  lemma ExecuteNothing(st: State)
    ensures Execute(st, []) == st && Evolves(st, st)
  {
  }

  /** The file system and the provider as the program sees them. */
  class Bench {
    var disk: map<string, Doc>
    var dirs: set<string>
    var log: seq<Call>

    constructor ()
      ensures View(None) == Run([])
    {
      disk, dirs, log := map[], {}, [];
    }

    ghost function View(runner: Option<Runner>): State
      reads this
    {
      State(disk, dirs, log, runner)
    }

    /** The pending list, or None at an ambiguous checkpoint. */
    method FindPending(d: Doc, pairs: seq<Key>) returns (r: Option<seq<Key>>)
      ensures r == Pending(d, pairs)
    {
      var pending: seq<Key> := [];
      var i := 0;
      while i < |pairs|
        invariant 0 <= i <= |pairs|
        invariant Pending(d, pairs[..i]) == Some(pending)
      {
        var existing := RecordFor(d, pairs[i]);
        assert pairs[..i + 1][..i] == pairs[..i];
        if existing.None? {
          pending := pending + [pairs[i]];
        } else if !IsFinished(existing.value) {
          return None;
        }
        i := i + 1;
      }
      assert pairs[..|pairs|] == pairs;
      return Some(pending);
    }

    /** `_run`. The effects are exactly those of `trace`, a sequence of steps of the protocol
        that launches this run at most once, and the process is gone at the end. */
    method RunBenchmark(job: Job, fates: nat -> Fate) returns (exit: Exit, ghost trace: seq<Step>)
      requires Inv(View(None))
      modifies this
      ensures Inv(View(None)) && Evolves(old(View(None)), View(None))
      ensures View(None) == Execute(old(View(None)), trace)
      ensures forall i | 0 <= i < |trace| && trace[i].Launch? ::
                i == 0 && SelectedPairs(job).Some?
                && trace[i] == Launch(job.run, SelectedPairs(job).value, job.ceiling, job.resume, CatalogOk(job)
                    && job.keyPresent)
      ensures exit == Complete ==>
          SelectedPairs(job).Some? && job.run in disk && AllFinished(disk[job.run], SelectedPairs(job).value)
    {
      hide Execute;
      if job.ceiling < 1 || job.ceiling > 20 {
        ExecuteNothing(View(None));
        return Abort, [];
      }
      var pairs := SelectedPairs(job);
      if pairs.None? {
        ExecuteNothing(View(None));
        return Abort, [];
      }
      exit, trace := RunPairs(job.run, pairs.value, job.ceiling, job.resume, CatalogOk(job), job.keyPresent,
          job.creationStops, fates);
    }

    /** `_run`, from the result store on. */
    method RunPairs(run: string, pairs: seq<Key>, ceiling: int, resume: bool, catalogOk: bool, keyPresent: bool,
                    creationStops: bool, fates: nat -> Fate)
      returns (exit: Exit, ghost trace: seq<Step>)
      requires Inv(View(None)) && 1 <= ceiling <= 20
      modifies this
      ensures Inv(View(None)) && Evolves(old(View(None)), View(None))
      ensures View(None) == Execute(old(View(None)), trace)
      ensures forall i | 0 <= i < |trace| && trace[i].Launch? ::
                i == 0 && trace[i] == Launch(run, pairs, ceiling, resume, catalogOk && keyPresent)
      ensures exit == Complete ==> run in disk && AllFinished(disk[run], pairs)
    {
      hide ValidDoc;
      hide FromCalls;
      hide LogOk;
      hide RecordFor;
      hide Pending;
      ghost var start := View(None);
      ghost var launch := Launch(run, pairs, ceiling, resume, catalogOk && keyPresent);
      trace := [launch];
      ExecuteKept(start, trace);
      ExecuteOne(start, [], launch);
      assert [] + [launch] == trace;
      var document: Doc;
      if resume {
        if !RunIdOk(run) || run !in disk || !ValidDoc(disk[run]) || disk[run].run != run {
          return Abort, trace;
        }
        document := disk[run];
      } else {
        if !RunIdOk(run) || run in disk {
          return Abort, trace;
        }
        if run in dirs {
          return Died, trace;
        }
        dirs := dirs + {run};
        if creationStops {
          trace := [LaunchDies(run)];
          ExecuteOne(start, [], LaunchDies(run));
          assert [] + [LaunchDies(run)] == trace;
          ExecuteKept(start, trace);
          return Died, trace;
        }
        document := EmptyDoc(run);
        disk := disk[run := document];
      }
      if !catalogOk {
        return Abort, trace;
      }
      var pending := FindPending(document, pairs);
      if pending.None? {
        return Abort, trace;
      }
      if pending.value == [] {
        assert disk[run] == document;
        return Complete, trace;
      }
      if document.aggregates.attempted >= ceiling || !keyPresent {
        return Abort, trace;
      }
      ghost var runner := Runner(run, document, pending.value, ceiling, Ready);
      ghost var calls: seq<Step>;
      ghost var launched := View(Some(runner));
      assert launched == Execute(start, trace);
      exit, calls := CallPending(runner, run, document, pending.value, ceiling, fates);
      ExecuteConcat(start, trace, calls);
      ExecuteKept(start, trace + calls);
      ExecuteKept(launched, calls);
      if exit == Complete {
        StillFinished(launched, View(None), run, pairs, pending.value, document);
      }
      trace := trace + calls;
    }

    /** One call of the loop: the checkpoint before it, the call, the checkpoint after it. */
    method CallOne(ghost r: Runner, run: string, document0: Doc, key: Key, ceiling: int, fate: Fate)
      returns (result: Result<Doc, Exit>, ghost trace: seq<Step>)
      requires Inv(View(Some(r))) && r.run == run && r.doc == document0 && r.ceiling == ceiling && r.phase == Ready
          && r.pending[0] == key
      modifies this
      ensures forall i | 0 <= i < |trace| :: !trace[i].Launch?
      ensures match result
              case Ok(d) =>
                && View(if |r.pending| == 1 then None else Some(Runner(run, d, r.pending[1..], ceiling, Ready))) ==
                    Execute(old(View(Some(r))), trace)
                && run in disk && disk[run] == d && RecordFor(d, key).Some? && IsFinished(RecordFor(d, key).value)
              case Raised(exit) => exit != Complete && View(None) == Execute(old(View(Some(r))), trace)
    {
      hide ValidDoc;
      hide FromCalls;
      hide LogOk;
      hide RecordFor;
      hide ValidRecord;
      hide CheckpointSpec;
      ghost var start := View(Some(r));
      trace := [];
      if fate.StopsBefore? {
        return Raised(Died), Did(start, trace, Crash);
      }
      var started := StartedRecord(run, key);
      trace := Did(start, trace, BeginCall);
      if document0.aggregates.attempted >= ceiling {
        return Raised(Abort), trace;
      }
      if !ValidRecord(started) {
        return Raised(Died), trace;
      }
      var saved := Checkpoint(document0, started);
      if saved.Raised? {
        return Raised(Abort), trace;
      }
      var document := saved.value;
      disk := disk[run := document];
      if fate.StopsAfterCheckpoint? {
        return Raised(Died), Did(start, trace, Crash);
      }
      log := log + [Call(run, key)];
      trace := Did(start, trace, CallProvider);
      if fate.StopsDuringCall? {
        return Raised(Died), Did(start, trace, Crash);
      }
      var finished := FinishedRecord(run, key, fate.answer);
      trace := Did(start, trace, EndCall(fate.answer));
      if !ValidRecord(finished) {
        return Raised(Died), trace;
      }
      saved := Checkpoint(document, finished);
      if saved.Raised? {
        return Raised(Died), trace;
      }
      CheckpointKeeps(document, finished);
      disk := disk[run := saved.value];
      if finished.status != Some(Completed) {
        return Raised(Abort), trace;
      }
      return Ok(saved.value), trace;
    }

    /** The call loop of `_run`. */
    method CallPending(ghost runner: Runner, run: string, document0: Doc, pending: seq<Key>, ceiling: int,
        fates: nat -> Fate)
      returns (exit: Exit, ghost trace: seq<Step>)
      requires runner == Runner(run, document0, pending, ceiling, Ready) && pending != [] && Inv(View(Some(runner)))
      modifies this
      ensures View(None) == Execute(old(View(Some(runner))), trace)
      ensures forall i | 0 <= i < |trace| :: !trace[i].Launch?
      ensures exit == Complete ==> run in disk && AllFinished(disk[run], pending)
    {
      hide Inv;
      hide RecordFor;
      hide Next;
      ghost var start := View(Some(runner));
      var document, i := document0, 0;
      trace := [];
      while i < |pending|
        invariant 0 <= i <= |pending|
        invariant i < |pending| ==>
            View(Some(Runner(run, document, pending[i..], ceiling, Ready))) == Execute(start, trace)
        invariant i == |pending| ==> View(None) == Execute(start, trace)
        invariant forall k | 0 <= k < |trace| :: !trace[k].Launch?
        invariant i > 0 ==> run in disk && disk[run] == document
        invariant AllFinished(document, pending[..i])
      {
        ExecuteKept(start, trace);
        ghost var before := Execute(start, trace);
        ghost var calls: seq<Step>;
        var result: Result<Doc, Exit>;
        result, calls := CallOne(before.runner.value, run, document, pending[i], ceiling, fates(i));
        ExecuteConcat(start, trace, calls);
        ExecuteKept(before, calls);
        trace := trace + calls;
        if result.Raised? {
          return result.error, trace;
        }
        assert pending[i..][1..] == pending[i + 1..];
        forall k | 0 <= k < i ensures FinishedIn(result.value, pending[k]) {
          assert pending[..i][k] == pending[k];
          assert OnDisk(before.disk, Call(run, pending[k])) == RecordFor(document, pending[k]);
        }
        document := result.value;
        i := i + 1;
      }
      assert pending[..i] == pending;
      return Complete, trace;
    }
  }

  /** One more step of a trace. */
  ghost function Did(start: State, trace: seq<Step>, step: Step): (r: seq<Step>)
    ensures r == trace + [step] && Execute(start, r) == Next(Execute(start, trace), step)
  {
    ExecuteOne(start, trace, step);
    trace + [step]
  }

  /** Pairs that were finished when the run was launched still are. */
  lemma StillFinished(st: State, n: State, run: string, pairs: seq<Key>, pending: seq<Key>, document: Doc)
    requires Evolves(st, n) && run in st.disk && st.disk[run] == document && Pending(document, pairs) == Some(pending)
    requires run in n.disk && AllFinished(n.disk[run], pending)
    ensures AllFinished(n.disk[run], pairs)
  {
    forall k | 0 <= k < |pairs| ensures FinishedIn(n.disk[run], pairs[k]) {
      if pairs[k] !in pending {
        assert OnDisk(st.disk, Call(run, pairs[k])).Some?;
      }
    }
  }

  /** Any series of jobs, each stopping where it may, on an empty result directory: what is on
      disk and what the provider was asked are those of a run of the protocol. */
  method Campaign(jobs: seq<Job>, fates: (nat, nat) -> Fate) returns (bench: Bench, ghost trace: seq<Step>)
    ensures bench.View(None) == Run(trace)
  {
    hide Execute;
    hide Inv;
    bench := new Bench();
    trace := [];
    ghost var empty := bench.View(None);
    assert empty == Run([]);
    for i := 0 to |jobs|
      invariant fresh(bench) && bench.View(None) == Run(trace)
    {
      ghost var steps: seq<Step>;
      var exit: Exit;
      exit, steps := bench.RunBenchmark(jobs[i], (n: nat) => fates(i, n));
      ExecuteConcat(State(map[], {}, [], None), trace, steps);
      trace := trace + steps;
    }
  }
}
