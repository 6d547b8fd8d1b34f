/** The Memory Core over every run: stored revisions reconstruct the whole history of a record,
    deletion scrubs it for good, and the deduplication key always agrees with the contents. */
module MemoryHistory {
  import opened Common
  import opened MemoryCore

  // ---------------------------------------------------------------- history

  /** The revisions of one record, in the order they were written. */
  ghost function Trail(revisions: seq<Revision>, id: Id): seq<Revision> {
    if revisions == [] then []
    else
      var n := |revisions| - 1;
      Trail(revisions[..n], id) + if revisions[n].memory == id then [revisions[n]] else []
  }

  /** The fields of a record through time: its revisions, then what it holds now. */
  ghost function History(s: Store, id: Id): (h: seq<Fields>)
    requires id < |s.records|
    ensures |h| == |Trail(s.revisions, id)| + 1
  {
    var trail := Trail(s.revisions, id);
    seq(|trail|, k requires 0 <= k < |trail| => trail[k].fields) + [s.records[id].fields]
  }

  lemma TrailAppend(revisions: seq<Revision>, r: Revision, id: Id)
    ensures Trail(revisions + [r], id) == Trail(revisions, id) + if r.memory == id then [r] else []
  {
    assert (revisions + [r])[..|revisions|] == revisions;
  }

  lemma {:induction false} TrailMembers(revisions: seq<Revision>, id: Id)
    requires forall i | 0 <= i < |revisions| :: revisions[i].memory != id
    ensures Trail(revisions, id) == []
  {
    if revisions != [] {
      TrailMembers(revisions[..|revisions| - 1], id);
    }
  }

  /** Scrubbing one record leaves the revisions of the others alone, and renumbers nothing. */
  lemma {:induction false} TrailScrub(revisions: seq<Revision>, gone: Id, id: Id)
    ensures id != gone ==> Trail(ScrubRevisions(revisions, gone), id) == Trail(revisions, id)
    ensures var t, u := Trail(revisions, id), Trail(ScrubRevisions(revisions, gone), id);
            id == gone ==> |u| == |t| && forall k | 0 <= k < |t| :: u[k] == t[k].(fields := Scrub(t[k].fields, gone))
  {
    if revisions != [] {
      var n := |revisions| - 1;
      TrailScrub(revisions[..n], gone, id);
      assert ScrubRevisions(revisions, gone)[..n] == ScrubRevisions(revisions[..n], gone);
    }
  }

  // ---------------------------------------------------------------- invariant

  /** One revision per past version; archiving and expiring take a version but no revision. */
  ghost predicate TrailOk(r: Record, trail: seq<Revision>) {
    && (forall k | 0 <= k < |trail| :: trail[k].number == k + 1)
    && match r.status
       case Active => r.version == |trail| + 1
       case Archived => r.version == |trail| + 2
       case Expired => r.version == |trail| + 2
       case Deleted => r.version >= |trail| + 2
  }

  /** A deleted record and its revisions hold nothing but tombstones. */
  ghost predicate Erased(r: Record, trail: seq<Revision>, id: Id) {
    && r.fields == Scrub(r.fields, id) && r.key.None?
    && forall k | 0 <= k < |trail| :: trail[k].fields == Scrub(trail[k].fields, id)
  }

  /** The key of an active record is the fingerprint of what it holds now. */
  predicate Indexed(x: Texts, r: Record) {
    && r.fields.fingerprint == FingerprintOf(x, r.fields.class_, r.fields.content, r.fields.subject)
    && r.key == KeyFor(r.fields.class_, r.fields.fingerprint)
  }

  ghost predicate RecordOk(s: Store, x: Texts, id: Id)
    requires id < |s.records|
  {
    var r, trail := s.records[id], Trail(s.revisions, id);
    && TrailOk(r, trail)
    && (r.status == Deleted ==> Erased(r, trail, id))
    && (r.status == Active ==> Indexed(x, r))
  }

  /** The partial unique index holds. */
  ghost predicate KeysUnique(rs: seq<Record>) {
    forall i, j | 0 <= i < j < |rs| :: rs[j].status == Active ==>
        !Occupies(rs[i], rs[j].user, rs[j].fields.class_, rs[j].key)
  }

  ghost predicate Inv(s: Store, x: Texts) {
    && (forall id | 0 <= id < |s.records| :: RecordOk(s, x, id))
    && (forall i | 0 <= i < |s.revisions| :: s.revisions[i].memory < |s.records|)
    && KeysUnique(s.records)
  }

  /** How one record may change: ownership and class stay, every change takes a version, an inactive
      record never becomes active again, a deleted one is frozen, and otherwise history only grows. */
  ghost predicate RecordEvolves(s: Store, t: Store, id: Id)
    requires id < |s.records| <= |t.records|
  {
    var a, b := s.records[id], t.records[id];
    && b.user == a.user && b.fields.class_ == a.fields.class_ && (b == a || a.version < b.version)
    && (a.status != Active ==> b.status == a.status || b.status == Deleted)
    && (a.status == Deleted ==> b == a && Trail(t.revisions, id) == Trail(s.revisions, id))
    && (b.status != Deleted ==> History(s, id) <= History(t, id))
  }

  ghost predicate Evolves(s: Store, t: Store) {
    |s.records| <= |t.records| && forall id | 0 <= id < |s.records| :: RecordEvolves(s, t, id)
  }

  lemma EvolvesTransitive(a: Store, b: Store, c: Store)
    requires Evolves(a, b) && Evolves(b, c)
    ensures Evolves(a, c)
  {
    forall id | 0 <= id < |a.records| ensures RecordEvolves(a, c, id) {
      assert RecordEvolves(a, b, id) && RecordEvolves(b, c, id);
    }
  }

  ghost predicate Kept(s: Store, t: Store, x: Texts) {
    Inv(t, x) && Evolves(s, t)
  }

  // ---------------------------------------------------------------- operations

  /** Replacing one record, the revisions staying as they are. */
  lemma RowChange(s: Store, x: Texts, id: Id, row: Record)
    requires Inv(s, x) && id < |s.records|
    requires var r := s.records[id];
             && row.user == r.user && row.fields == r.fields && r.status != Deleted
             && (row == r || (row.status in {Archived, Expired} && r.status == Active && r.version < row.version))
    requires TrailOk(row, Trail(s.revisions, id))
    ensures Kept(s, s.(records := s.records[id := row]), x)
  {
    var t := s.(records := s.records[id := row]);
    forall i | 0 <= i < |t.records| ensures RecordOk(t, x, i) {
      assert RecordOk(s, x, i);
    }
    forall i | 0 <= i < |s.records| ensures RecordEvolves(s, t, i) {
      assert RecordOk(s, x, i);
    }
  }

  lemma Still(s: Store, x: Texts)
    requires Inv(s, x)
    ensures Kept(s, s, x)
  {
    forall i | 0 <= i < |s.records| ensures RecordEvolves(s, s, i) {
    }
  }

  lemma LapseKept(s: Store, x: Texts, id: Id, version: nat)
    requires Inv(s, x)
    ensures Kept(s, LapseSpec(s, id, version).0, x)
  {
    Still(s, x);
    if Current(s, id, version) {
      assert RecordOk(s, x, id);
      RowChange(s, x, id, Lapsed(s.records[id]));
    }
  }

  /** Inserting, whatever has happened to the duplicate and to the key since they were read. */
  lemma CreateKept(s: Store, x: Texts, row: Record, lapsing: Option<(Id, nat)>)
    requires Inv(s, x) && row.status == Active && row.version == 1 && Indexed(x, row)
    ensures Kept(s, InsertSpec(s, row, lapsing).0, x)
  {
    hide Inv;
    hide Evolves;
    hide LapseSpec;
    if lapsing.None? {
      InsertRowKept(s, x, row);
    } else {
      LapseKept(s, x, lapsing.value.0, lapsing.value.1);
      var t := LapseSpec(s, lapsing.value.0, lapsing.value.1).0;
      InsertRowKept(t, x, row);
      EvolvesTransitive(s, t, InsertRowSpec(t, row).0);
    }
  }

  lemma InsertRowKept(s: Store, x: Texts, row: Record)
    requires Inv(s, x) && row.status == Active && row.version == 1 && Indexed(x, row)
    ensures Kept(s, InsertRowSpec(s, row).0, x)
  {
    if ActiveDuplicate(s.records, row.user, row.fields.class_, row.key).None? {
      InsertKept(s, x, row);
    } else {
      Still(s, x);
    }
  }

  lemma InsertKept(s: Store, x: Texts, row: Record)
    requires Inv(s, x) && row.status == Active && row.version == 1 && Indexed(x, row)
    requires forall i | 0 <= i < |s.records| :: !Occupies(s.records[i], row.user, row.fields.class_, row.key)
    ensures Kept(s, s.(records := s.records + [row]), x)
  {
    var t := s.(records := s.records + [row]);
    TrailMembers(s.revisions, |s.records|);
    forall i | 0 <= i < |t.records| ensures RecordOk(t, x, i) {
      if i < |s.records| {
        assert RecordOk(s, x, i);
      }
    }
    forall i | 0 <= i < |s.records| ensures RecordEvolves(s, t, i) {
    }
  }

  /** The versioned UPDATE, from a row that was current when it was read: if it goes through, the
      row has not changed since, and so the snapshot is of what it held until now. */
  lemma UpdateKept(s: Store, x: Texts, id: Id, seen: Record, u: Update)
    requires Inv(s, x) && FlightOk(s, x, Updating(id, seen, u)) && WriteUpdateSpec(s, x, id, seen, u).Ok?
    ensures Kept(s, WriteUpdateSpec(s, x, id, seen, u).value, x)
    ensures s.records[id] == seen
  {
    assert RecordOk(s, x, id);
    RevisionKept(s, x, id, UpdatedRecord(x, seen.fields, seen, u));
  }

  /** Exactly when it goes through: the row is as it was read and active, and no other row holds the
      new key. The unique index on revision numbers is never what stops it. */
  lemma UpdateSucceeds(s: Store, x: Texts, id: Id, seen: Record, u: Update)
    requires Inv(s, x) && FlightOk(s, x, Updating(id, seen, u))
    ensures WriteUpdateSpec(s, x, id, seen, u).Ok? <==>
              && s.records[id] == seen && seen.status == Active
              && !KeyTaken(s.records, id, UpdatedRecord(x, seen.fields, seen, u))
  {
    assert RecordOk(s, x, id);
    if s.records[id] == seen && seen.status == Active {
      forall i | 0 <= i < |s.revisions| && s.revisions[i].memory == id ensures s.revisions[i].number < seen.version {
        TrailHolds(s.revisions, id, i);
      }
    }
  }

  lemma {:induction false} TrailHolds(revisions: seq<Revision>, id: Id, i: nat)
    requires i < |revisions| && revisions[i].memory == id
    ensures revisions[i] in Trail(revisions, id)
  {
    var n := |revisions| - 1;
    if i < n {
      TrailHolds(revisions[..n], id, i);
    }
  }

  /** Replacing the fields of an active record and snapshotting the old ones. */
  lemma RevisionKept(s: Store, x: Texts, id: Id, row: Record)
    requires Inv(s, x) && id < |s.records| && s.records[id].status == Active
    requires row.user == s.records[id].user && row.fields.class_ == s.records[id].fields.class_
    requires row.status == Active && row.version == s.records[id].version + 1 && Indexed(x, row)
    requires !KeyTaken(s.records, id, row)
    ensures var snapshot := Revision(id, s.records[id].version, s.records[id].fields);
            Kept(s, Store(s.records[id := row], s.revisions + [snapshot]), x)
  {
    var r := s.records[id];
    var snapshot := Revision(id, r.version, r.fields);
    var t := Store(s.records[id := row], s.revisions + [snapshot]);
    forall i | 0 <= i < |t.records| ensures RecordOk(t, x, i) && RecordEvolves(s, t, i) {
      assert RecordOk(s, x, i);
      TrailAppend(s.revisions, snapshot, i);
    }
    forall i, j | 0 <= i < j < |t.records| && t.records[j].status == Active
      ensures !Occupies(t.records[i], t.records[j].user, t.records[j].fields.class_, t.records[j].key)
    {
      assert s.records[j].status == Active ==>
          !Occupies(s.records[i], s.records[j].user, s.records[j].fields.class_, s.records[j].key);
      assert i != id ==> !Occupies(s.records[i], row.user, row.fields.class_, row.key);
      assert j != id ==> !Occupies(s.records[j], row.user, row.fields.class_, row.key);
    }
  }

  lemma ArchiveKept(s: Store, x: Texts, user: Id, id: Id, expected: nat)
    requires Inv(s, x) && WriteArchiveSpec(s, user, id, expected).Ok?
    ensures Kept(s, WriteArchiveSpec(s, user, id, expected).value, x)
  {
    assert RecordOk(s, x, id);
    RowChange(s, x, id, s.records[id].(status := Archived, version := expected + 1));
  }

  lemma DeleteKept(s: Store, x: Texts, user: Id, id: Id, expected: nat)
    requires Inv(s, x) && WriteDeleteSpec(s, user, id, expected).Ok?
    ensures Kept(s, WriteDeleteSpec(s, user, id, expected).value, x)
    ensures WriteDeleteSpec(s, user, id, expected).value.records[id].status == Deleted
  {
    var t := WriteDeleteSpec(s, user, id, expected).value;
    forall i | 0 <= i < |t.records| ensures RecordOk(t, x, i) && RecordEvolves(s, t, i) {
      assert RecordOk(s, x, i);
      TrailScrub(s.revisions, id, i);
    }
  }

  // ---------------------------------------------------------------- calls in flight

  /** What is still known of what a call has read: a row to insert is fresh; a row to update is the
      current one as long as its version is. */
  ghost predicate FlightOk(s: Store, x: Texts, f: Flight) {
    match f
    case Inserting(row, lapsing) =>
      && row.status == Active && row.version == 1 && Indexed(x, row)
      && (lapsing.Some? ==> row.key.Some? && Remembered(s, row, lapsing.value.0, lapsing.value.1))
    case Rereading(row) => row.key.Some?
    case Updating(id, seen, u) =>
      && id < |s.records| && seen.version == u.expected && seen.fields.class_ != HistoricalDecision
      && seen.version <= s.records[id].version
      && (seen.version == s.records[id].version ==> s.records[id] == seen)
    case _ => true
  }

  /** The duplicate a create has found: at the version it had then, it still holds the key. */
  ghost predicate Remembered(s: Store, row: Record, id: Id, version: nat) {
    && id < |s.records| && version <= s.records[id].version
    && (s.records[id].version == version ==> Occupies(s.records[id], row.user, row.fields.class_, row.key))
  }

  lemma FlightKept(s: Store, t: Store, x: Texts, f: Flight)
    requires FlightOk(s, x, f) && Evolves(s, t)
    ensures FlightOk(t, x, f)
  {
    if f.Updating? {
      assert RecordEvolves(s, t, f.id);
    } else if f.Inserting? && f.lapsing.Some? {
      assert RecordEvolves(s, t, f.lapsing.value.0);
    }
  }

  lemma PursueKept(s: Store, x: Texts, user: Id, id: Id, now: Time, pursuit: Pursuit)
    requires id < |s.records| && PursueSpec(user, id, s.records[id], now, pursuit).Ok?
    ensures var p := PursueSpec(user, id, s.records[id], now, pursuit).value; p.Continues? ==> FlightOk(s, x, p.flight)
  {
  }

  /** Reading is all a call does before its first write, and it reads what is there. */
  lemma BeginKept(s: Store, x: Texts, c: Call)
    requires BeginSpec(s, x, c).Ok?
    ensures var p := BeginSpec(s, x, c).value; p.Continues? ==> FlightOk(s, x, p.flight)
  {
    hide PursueSpec;
    hide DueRows;
    if c.allowed {
      match c.command {
        case Get(id) =>
          if id < |s.records| && PursueSpec(c.user, id, s.records[id], c.now, Reading).Ok? {
            PursueKept(s, x, c.user, id, c.now, Reading);
          }
        case Change(id, u) =>
          if id < |s.records| && PursueSpec(c.user, id, s.records[id], c.now, Changing(u)).Ok? {
            PursueKept(s, x, c.user, id, c.now, Changing(u));
          }
        case Archive(id, expected) =>
          if id < |s.records| && PursueSpec(c.user, id, s.records[id], c.now, Shelving(expected)).Ok? {
            PursueKept(s, x, c.user, id, c.now, Shelving(expected));
          }
        case _ =>
      }
    }
  }

  lemma AdvanceKept(s: Store, x: Texts, f: Flight)
    requires Inv(s, x) && FlightOk(s, x, f) && AdvanceSpec(s, x, f).Ok?
    ensures var (t, p) := AdvanceSpec(s, x, f).value; Kept(s, t, x) && (p.Continues? ==> FlightOk(t, x, p.flight))
  {
    hide Inv;
    hide Kept;
    hide PursueSpec;
    hide LapseSpec;
    Still(s, x);
    match f {
      case Lapsing(user, id, version, now, pursuit) =>
        LapseKept(s, x, id, version);
        var t := LapseSpec(s, id, version).0;
        if id < |t.records| && PursueSpec(user, id, t.records[id], now, pursuit).Ok? {
          PursueKept(t, x, user, id, now, pursuit);
        }
      case Sweeping(due) =>
        if due != [] {
          LapseKept(s, x, due[0].0, due[0].1);
        }
      case Inserting(row, lapsing) => CreateKept(s, x, row, lapsing);
      case Rereading(row) =>
      case Updating(id, seen, u) => UpdateKept(s, x, id, seen, u);
      case Archiving(user, id, expected) => ArchiveKept(s, x, user, id, expected);
      case Deleting(user, id, expected) => DeleteKept(s, x, user, id, expected);
    }
  }

  // ---------------------------------------------------------------- runs

  ghost predicate StateOk(st: State, x: Texts) {
    Inv(st.store, x) && forall c | c in st.flights :: FlightOk(st.store, x, st.flights[c])
  }

  lemma NextKept(st: State, x: Texts, step: Step)
    requires StateOk(st, x)
    ensures StateOk(Next(st, x, step), x) && Evolves(st.store, Next(st, x, step).store)
  {
    hide Inv;
    hide BeginSpec;
    hide AdvanceSpec;
    hide FlightOk;
    Still(st.store, x);
    var n := Next(st, x, step);
    match step {
      case Begin(client, call) =>
        if BeginSpec(st.store, x, call).Ok? {
          BeginKept(st.store, x, call);
        }
      case Advance(client) =>
        if client in st.flights && AdvanceSpec(st.store, x, st.flights[client]).Ok? {
          AdvanceKept(st.store, x, st.flights[client]);
        }
    }
    hide Evolves;
    forall c | c in n.flights ensures FlightOk(n.store, x, n.flights[c]) {
      if c in st.flights && n.flights[c] == st.flights[c] {
        FlightKept(st.store, n.store, x, st.flights[c]);
      }
    }
  }

  /** The state after any interleaving of the parts of any calls. */
  ghost function Run(x: Texts, steps: seq<Step>): (st: State)
    ensures StateOk(st, x)
  {
    if steps == [] then State(Store([], []), map[])
    else
      var before := Run(x, steps[..|steps| - 1]);
      NextKept(before, x, steps[|steps| - 1]);
      Next(before, x, steps[|steps| - 1])
  }

  lemma {:induction false} RunEvolves(x: Texts, steps: seq<Step>, i: nat)
    requires i <= |steps|
    ensures Evolves(Run(x, steps[..i]).store, Run(x, steps).store)
  {
    hide StateOk;
    hide Next;
    hide Evolves;
    if i == |steps| {
      assert steps[..i] == steps;
      assert Inv(Run(x, steps).store, x) by {
        Consistent(x, steps);
      }
      Still(Run(x, steps).store, x);
    } else {
      var n := |steps| - 1;
      RunEvolves(x, steps[..n], i);
      assert steps[..n][..i] == steps[..i];
      NextKept(Run(x, steps[..n]), x, steps[n]);
      EvolvesTransitive(Run(x, steps[..i]).store, Run(x, steps[..n]).store, Run(x, steps).store);
    }
  }

  lemma Consistent(x: Texts, steps: seq<Step>)
    ensures Inv(Run(x, steps).store, x)
  {
    hide Next;
  }

  /** The service, called part by part, reaches exactly the states of `Run`. */
  method Serve(x: Texts, steps: seq<Step>) returns (service: MemoryService, flights: map<Id, Flight>)
    ensures State(service.View(), flights) == Run(x, steps)
  {
    hide BeginSpec;
    hide AdvanceSpec;
    hide StateOk;
    service := new MemoryService();
    flights := map[];
    for i := 0 to |steps|
      invariant fresh(service) && State(service.View(), flights) == Run(x, steps[..i])
    {
      assert steps[..i + 1][..i] == steps[..i];
      match steps[i] {
        case Begin(client, call) =>
          var begun := service.Receive(x, call);
          if begun.Ok? {
            flights := Follow(flights, client, begun.value);
          }
        case Advance(client) =>
          if client in flights {
            var done := service.Write(x, flights[client]);
            flights := if done.Ok? then Follow(flights, client, done.value) else flights - {client};
          }
      }
    }
    assert steps[..|steps|] == steps;
  }

  // ---------------------------------------------------------------- theorems

  /** How many contents a record has had: archiving and expiring take a version but change none. */
  function Contents(r: Record): int {
    if r.status == Active then r.version else r.version - 1
  }

  /** What the trail of a record, as it is now, shows of an earlier state. */
  ghost predicate Shows(then_: Record, now: Record, trail: seq<Revision>) {
    && 1 <= Contents(then_) <= Contents(now) == |trail| + 1
    && (forall k | 0 <= k < |trail| :: trail[k].number == k + 1)
    && then_.fields == if Contents(then_) == Contents(now) then now.fields else trail[Contents(then_) - 1].fields
  }

  lemma HistoryBetween(then_: Store, now: Store, x: Texts, id: Id)
    requires id < |then_.records| <= |now.records| && now.records[id].status != Deleted
    requires RecordOk(then_, x, id) && RecordEvolves(then_, now, id) && RecordOk(now, x, id)
    ensures Shows(then_.records[id], now.records[id], Trail(now.revisions, id))
  {
    hide Trail;
    hide Indexed;
    hide Erased;
    var k := Contents(then_.records[id]) - 1;
    assert History(then_, id)[k] == then_.records[id].fields;
    assert History(now, id)[k] == then_.records[id].fields;
  }

  /** History is reconstructable, under every interleaving of overlapping calls. For any two points of
      a run at the later of which a record is not deleted, whether active, archived or expired: its
      revisions are numbered 1, 2, ... without gap, one per content it has had before, and what it
      held at the earlier point is the revision of that number, or what it still holds. */
  lemma HistoryTheorem(x: Texts, steps: seq<Step>, i: nat, id: Id)
    requires i <= |steps|
    ensures var then_, now := Run(x, steps[..i]).store, Run(x, steps).store;
            id < |then_.records| ==>
              && id < |now.records|
              && (now.records[id].status != Deleted ==>
                    Shows(then_.records[id], now.records[id], Trail(now.revisions, id)))
  {
    hide Run;
    hide RecordOk;
    hide RecordEvolves;
    hide Trail;
    hide FlightOk;
    hide Shows;
    RunEvolves(x, steps, i);
    var then_, now := Run(x, steps[..i]).store, Run(x, steps).store;
    if id < |then_.records| && now.records[id].status != Deleted {
      HistoryBetween(then_, now, x, id);
    }
  }

  /** Deletion is final: a deleted record and its revisions hold only tombstones, and nothing that
      comes later, started before or after, restores content, adds a revision or revives it. */
  lemma DeletionTheorem(x: Texts, steps: seq<Step>, i: nat, id: Id)
    requires i <= |steps|
    ensures var then_, now := Run(x, steps[..i]).store, Run(x, steps).store;
            id < |then_.records| && then_.records[id].status == Deleted ==>
              && id < |now.records| && now.records[id] == then_.records[id]
              && Trail(now.revisions, id) == Trail(then_.revisions, id)
              && Erased(now.records[id], Trail(now.revisions, id), id)
  {
    hide Run;
    hide FlightOk;
    RunEvolves(x, steps, i);
    var then_, now := Run(x, steps[..i]).store, Run(x, steps).store;
    if id < |then_.records| && then_.records[id].status == Deleted {
      assert RecordEvolves(then_, now, id);
      assert RecordOk(now, x, id);
    }
  }

  /** The deduplication key agrees with the contents, so no user has two active records of one
      non-historical class with the same canonical content and subject. */
  lemma DeduplicationTheorem(x: Texts, steps: seq<Step>, i: Id, j: Id)
    ensures var s := Run(x, steps).store;
            i < |s.records| && j < |s.records| && s.records[i].status == Active && s.records[j].status == Active ==>
              var a, b := s.records[i], s.records[j];
              && Indexed(x, a)
              && (a.user == b.user && a.fields.class_ == b.fields.class_ != HistoricalDecision
                  && FingerprintOf(x, a.fields.class_, a.fields.content, a.fields.subject)
                     == FingerprintOf(x, b.fields.class_, b.fields.content, b.fields.subject)
                  ==> i == j)
  {
    hide Run;
    hide FlightOk;
    hide Trail;
    var s := Run(x, steps).store;
    if i < |s.records| && j < |s.records| {
      assert RecordOk(s, x, i) && RecordOk(s, x, j);
      if i < j {
        assert s.records[j].status == Active ==>
            !Occupies(s.records[i], s.records[j].user, s.records[j].fields.class_, s.records[j].key);
      } else if j < i {
        assert s.records[i].status == Active ==>
            !Occupies(s.records[j], s.records[i].user, s.records[i].fields.class_, s.records[i].key);
      }
    }
  }

  // ---------------------------------------------------------------- what create answers

  /** Create raises before it writes exactly on an expired proposal or an invalid provenance. */
  lemma CreateBegins(s: Store, x: Texts, c: Call)
    requires c.command.Create? && c.allowed
    ensures BeginSpec(s, x, c).Raised? <==> Due(c.command.proposal.expiresAt, c.now) || !c.command.provenance
  {
  }

  /** The record holds the key of the row. */
  predicate Holder(s: Store, id: Id, row: Record) {
    id < |s.records| && Occupies(s.records[id], row.user, row.fields.class_, row.key)
  }

  /** What has become of the overdue duplicate does not mislead create: there was none, it has
      expired, it is still as it was read, or it still holds the key. */
  predicate SoundDuplicate(s: Store, row: Record, lapsing: Option<(Id, nat)>) {
    NoDuplicate(s, lapsing) || Current(s, lapsing.value.0, lapsing.value.1) || Holder(s, lapsing.value.0, row)
  }

  /** No overdue duplicate was found, or it has expired by now. */
  predicate NoDuplicate(s: Store, lapsing: Option<(Id, nat)>) {
    lapsing.None? || (lapsing.value.0 < |s.records| && s.records[lapsing.value.0].status == Expired)
  }

  /** The write of a create, in every reachable state. An answer is the record that holds the key
      exactly if the duplicate does not mislead it, and otherwise a record that does not hold it. The
      INSERT fails exactly if another record has taken the key and no duplicate is in the way, and then
      nothing was written: a create never has a write of its own to undo. */
  lemma CreateTheorem(x: Texts, steps: seq<Step>, client: Id)
    ensures var st := Run(x, steps);
            client in st.flights && st.flights[client].Inserting? && st.flights[client].row.key.Some? ==>
              var row, lapsing := st.flights[client].row, st.flights[client].lapsing;
              var (t, p) := InsertSpec(st.store, row, lapsing);
              && (p.Continues? <==> NoDuplicate(st.store, lapsing) && exists h :: Holder(st.store, h, row))
              && match p
                 case Answered(a) =>
                   && a.Some? && a.value < |t.records|
                   && (Holder(t, a.value, row) <==> SoundDuplicate(st.store, row, lapsing))
                 case Continues(f) => f == Rereading(row) && t == st.store
  {
    hide Run;
    hide RecordOk;
    var st := Run(x, steps);
    if client in st.flights && st.flights[client].Inserting? && st.flights[client].row.key.Some? {
      assert FlightOk(st.store, x, st.flights[client]);
      InsertAnswers(st.store, x, st.flights[client].row, st.flights[client].lapsing);
    }
  }

  lemma InsertAnswers(s: Store, x: Texts, row: Record, lapsing: Option<(Id, nat)>)
    requires Inv(s, x) && FlightOk(s, x, Inserting(row, lapsing)) && row.key.Some?
    ensures var (t, p) := InsertSpec(s, row, lapsing);
            && (p.Continues? <==> NoDuplicate(s, lapsing) && exists h :: Holder(s, h, row))
            && match p
               case Answered(a) =>
                 && a.Some? && a.value < |t.records|
                 && (Holder(t, a.value, row) <==> SoundDuplicate(s, row, lapsing))
               case Continues(f) => f == Rereading(row) && t == s
  {
    hide RecordOk;
    if lapsing.Some? && Current(s, lapsing.value.0, lapsing.value.1) {
      FreedByExpiry(s, x, row, lapsing.value.0);
    }
    var (t, p) := InsertSpec(s, row, lapsing);
    if p.Continues? {
      assert Holder(t, ActiveDuplicate(t.records, row.user, row.fields.class_, row.key).value, row);
    }
  }

  /** Expiring the holder of a key frees it. */
  lemma FreedByExpiry(s: Store, x: Texts, row: Record, e: Id)
    requires Inv(s, x) && row.key.Some? && Holder(s, e, row)
    ensures ActiveDuplicate(s.records[e := Lapsed(s.records[e])], row.user, row.fields.class_, row.key).None?
  {
    var rs := s.records[e := Lapsed(s.records[e])];
    forall i | 0 <= i < |rs| ensures !Occupies(rs[i], row.user, row.fields.class_, row.key) {
      var r := s.records[e];
      if i < e {
        assert !Occupies(s.records[i], r.user, r.fields.class_, r.key);
      } else if e < i {
        assert s.records[i].status == Active ==>
                 !Occupies(r, s.records[i].user, s.records[i].fields.class_, s.records[i].key);
      }
    }
  }

  /** After a failed INSERT create answers with the record that holds the key by then, and raises
      exactly if none does any more. */
  lemma RereadTheorem(s: Store, row: Record)
    ensures RereadSpec(s, row).Raised? <==> !exists h :: Holder(s, h, row)
    ensures RereadSpec(s, row).Ok? ==>
              var p := RereadSpec(s, row).value; p.Answered? && p.answer.Some? && Holder(s, p.answer.value, row)
  {
    var existing := ActiveDuplicate(s.records, row.user, row.fields.class_, row.key);
    if existing.Some? {
      assert Holder(s, existing.value, row);
    }
  }

  const NOTE := Proposal(PersistentPreference, "tea", None, None, "user", None, 1, 1, 1, Some(10), "{}")
  const LASTING_NOTE := NOTE.(expiresAt := None)

  function Creating(now: Time, p: Proposal): Call {
    Call(0, now, true, Create(p, true))
  }

  function Deletion(id: Id, expected: nat): Call {
    Call(0, 0, true, Delete(id, expected))
  }

  /** One more step of a run whose state is known. */
  lemma Plays(x: Texts, before: seq<Step>, st: State, step: Step, after: State) returns (played: seq<Step>)
    requires Run(x, before) == st && Next(st, x, step) == after
    ensures played == before + [step] && Run(x, played) == after
  {
    played := before + [step];
    assert played[..|before|] == before;
  }

  /** Storing what no active record holds, undisturbed. */
  lemma Stored(x: Texts, before: seq<Step>, s: Store, flights: map<Id, Flight>, client: Id, now: Time, p: Proposal)
    requires Run(x, before) == State(s, flights) && client !in flights && !Due(p.expiresAt, now)
    requires ActiveDuplicate(s.records, 0, p.class_, NewRecord(x, 0, p).key).None?
    ensures Run(x, before + [Begin(client, Creating(now, p)), Advance(client)]) ==
              State(s.(records := s.records + [NewRecord(x, 0, p)]), flights)
  {
    hide Run;
    var begun := flights[client := Inserting(NewRecord(x, 0, p), None)];
    assert begun - {client} == flights;
    var q := Plays(x, before, State(s, flights), Begin(client, Creating(now, p)), State(s, begun));
    var r := Plays(x, q, State(s, begun), Advance(client),
                   State(s.(records := s.records + [NewRecord(x, 0, p)]), flights));
    assert r == before + [Begin(client, Creating(now, p)), Advance(client)];
  }

  /** Deleting an active record at version 1, undisturbed. */
  lemma Removed(x: Texts, before: seq<Step>, records: seq<Record>, flights: map<Id, Flight>, client: Id, id: Id)
    requires Run(x, before) == State(Store(records, []), flights) && client !in flights
    requires id < |records| && records[id].user == 0 && records[id].status == Active && records[id].version == 1
    ensures Run(x, before + [Begin(client, Deletion(id, 1)), Advance(client)]) ==
              State(Store(records[id := Erase(records[id], id)], []), flights)
  {
    hide Run;
    var s := Store(records, []);
    var begun := flights[client := Deleting(0, id, 1)];
    assert begun - {client} == flights && ScrubRevisions([], id) == [];
    var q := Plays(x, before, State(s, flights), Begin(client, Deletion(id, 1)), State(s, begun));
    var r := Plays(x, q, State(s, begun), Advance(client),
                   State(Store(records[id := Erase(records[id], id)], []), flights));
    assert r == before + [Begin(client, Deletion(id, 1)), Advance(client)];
  }

  /** A run in which create answers with a deleted record although another one holds the key: client 1
      stores a note until 10 and again at 20; in between client 2 deletes the overdue note and client 3
      stores it anew. */
  lemma CreateAnswersDeleted(x: Texts)
    ensures var steps := [Begin(1, Creating(0, NOTE)), Advance(1), Begin(1, Creating(20, LASTING_NOTE)),
                          Begin(2, Deletion(0, 1)), Advance(2), Begin(3, Creating(20, LASTING_NOTE)), Advance(3)];
            var st := Run(x, steps);
            && 1 in st.flights && |st.store.records| == 2
            && AdvanceSpec(st.store, x, st.flights[1]) == Ok((st.store, Answered(Some(0))))
            && st.store.records[0].status == Deleted
            && st.flights[1].Inserting? && Holder(st.store, 1, st.flights[1].row)
  {
    var gone, b := Erase(NewRecord(x, 0, NOTE), 0), NewRecord(x, 0, LASTING_NOTE);
    var waiting := map[1 := Inserting(b, Some((0, 1)))];
    DeletedMeanwhile(x);
    Freed(x);
    MisledAnswer(x, gone, b);
    assert !Due(LASTING_NOTE.expiresAt, 20) && gone.status == Deleted;
    hide *;
    var r := [Begin(1, Creating(0, NOTE)), Advance(1), Begin(1, Creating(20, LASTING_NOTE)), Begin(2, Deletion(0, 1)),
              Advance(2)];
    Stored(x, r, Store([gone], []), waiting, 3, 20, LASTING_NOTE);
    assert [gone] + [b] == [gone, b];
    assert r + [Begin(3, Creating(20, LASTING_NOTE)), Advance(3)] ==
           [Begin(1, Creating(0, NOTE)), Advance(1), Begin(1, Creating(20, LASTING_NOTE)), Begin(2, Deletion(0, 1)),
            Advance(2), Begin(3, Creating(20, LASTING_NOTE)), Advance(3)];
  }

  /** The key of a deleted note is free, and goes to the next one. */
  lemma Freed(x: Texts)
    ensures var gone, b := Erase(NewRecord(x, 0, NOTE), 0), NewRecord(x, 0, LASTING_NOTE);
            && ActiveDuplicate([gone], 0, LASTING_NOTE.class_, b.key).None?
            && Holder(Store([gone, b], []), 1, b)
  {
    var gone := Erase(NewRecord(x, 0, NOTE), 0);
    assert [gone][..0] == [];
  }

  lemma DeletedMeanwhile(x: Texts)
    ensures var gone, b := Erase(NewRecord(x, 0, NOTE), 0), NewRecord(x, 0, LASTING_NOTE);
            Run(x, [Begin(1, Creating(0, NOTE)), Advance(1), Begin(1, Creating(20, LASTING_NOTE)),
                    Begin(2, Deletion(0, 1)), Advance(2)]) ==
              State(Store([gone], []), map[1 := Inserting(b, Some((0, 1)))])
  {
    var a, b := NewRecord(x, 0, NOTE), NewRecord(x, 0, LASTING_NOTE);
    OverdueNoticed(x);
    assert a.user == 0 && a.status == Active && a.version == 1;
    hide *;
    var q := [Begin(1, Creating(0, NOTE)), Advance(1), Begin(1, Creating(20, LASTING_NOTE))];
    Removed(x, q, [a], map[1 := Inserting(b, Some((0, 1)))], 2, 0);
    assert [a][0 := Erase(a, 0)] == [Erase(a, 0)];
    assert q + [Begin(2, Deletion(0, 1)), Advance(2)] ==
           [Begin(1, Creating(0, NOTE)), Advance(1), Begin(1, Creating(20, LASTING_NOTE)), Begin(2, Deletion(0, 1)),
            Advance(2)];
  }

  lemma OverdueNoticed(x: Texts)
    ensures var a, b := NewRecord(x, 0, NOTE), NewRecord(x, 0, LASTING_NOTE);
            Run(x, [Begin(1, Creating(0, NOTE)), Advance(1), Begin(1, Creating(20, LASTING_NOTE))]) ==
              State(Store([a], []), map[1 := Inserting(b, Some((0, 1)))])
  {
    var a, b := NewRecord(x, 0, NOTE), NewRecord(x, 0, LASTING_NOTE);
    assert Run(x, []) == State(Store([], []), map[]);
    assert !Due(NOTE.expiresAt, 0);
    assert ActiveDuplicate([], 0, NOTE.class_, a.key).None?;
    FindsOverdue(x);
    hide *;
    Stored(x, [], Store([], []), map[], 1, 0, NOTE);
    assert [] + [a] == [a];
    var p := [] + [Begin(1, Creating(0, NOTE)), Advance(1)];
    var q := Plays(x, p, State(Store([a], []), map[]), Begin(1, Creating(20, LASTING_NOTE)),
                   State(Store([a], []), map[1 := Inserting(b, Some((0, 1)))]));
    assert q == [Begin(1, Creating(0, NOTE)), Advance(1), Begin(1, Creating(20, LASTING_NOTE))];
  }

  /** What a create does whose duplicate was deleted. */
  lemma MisledAnswer(x: Texts, gone: Record, b: Record)
    requires gone.status == Deleted
    ensures var s := Store([gone, b], []); AdvanceSpec(s, x, Inserting(b, Some((0, 1)))) == Ok((s, Answered(Some(0))))
  {
    var s := Store([gone, b], []);
    assert s.records[0] == gone;
  }

  lemma FindsOverdue(x: Texts)
    ensures var a, b := NewRecord(x, 0, NOTE), NewRecord(x, 0, LASTING_NOTE);
            Next(State(Store([a], []), map[]), x, Begin(1, Creating(20, LASTING_NOTE))) ==
              State(Store([a], []), map[1 := Inserting(b, Some((0, 1)))])
  {
    var a, b := NewRecord(x, 0, NOTE), NewRecord(x, 0, LASTING_NOTE);
    assert Occupies([a][0], 0, PersistentPreference, b.key);
    assert ActiveDuplicate([a], 0, PersistentPreference, b.key) == Some(0);
  }

  /** A run in which create raises: client 2 stores the same note first and deletes it again between
      client 1's failed INSERT and its look at who holds the key. */
  lemma CreateRaises(x: Texts)
    ensures var note := Creating(0, LASTING_NOTE);
            var steps := [Begin(1, note), Begin(2, note), Advance(2), Advance(1), Begin(2, Deletion(0, 1)), Advance(2)];
            var st := Run(x, steps);
            1 in st.flights && AdvanceSpec(st.store, x, st.flights[1]) == Raised(Concurrent)
  {
    var b, note := NewRecord(x, 0, LASTING_NOTE), Creating(0, LASTING_NOTE);
    var first, lost := map[1 := Inserting(b, None)], map[1 := Rereading(b)];
    FailsInsert(x);
    assert AdvanceSpec(Store([Erase(b, 0)], []), x, Rereading(b)) == Raised(Concurrent);
    hide Run;
    hide Next;
    hide AdvanceSpec;
    var q := [Begin(1, note), Begin(2, note), Advance(2), Advance(1)];
    Removed(x, q, [b], lost, 2, 0);
    assert [b][0 := Erase(b, 0)] == [Erase(b, 0)];
    assert q + [Begin(2, Deletion(0, 1)), Advance(2)] ==
           [Begin(1, note), Begin(2, note), Advance(2), Advance(1), Begin(2, Deletion(0, 1)), Advance(2)];
  }

  lemma FailsInsert(x: Texts)
    ensures var b, note := NewRecord(x, 0, LASTING_NOTE), Creating(0, LASTING_NOTE);
            Run(x, [Begin(1, note), Begin(2, note), Advance(2), Advance(1)]) ==
              State(Store([b], []), map[1 := Rereading(b)])
  {
    var b, note := NewRecord(x, 0, LASTING_NOTE), Creating(0, LASTING_NOTE);
    var none, first, lost := map[], map[1 := Inserting(b, None)], map[1 := Rereading(b)];
    assert Run(x, []) == State(Store([], []), none);
    assert none[1 := Inserting(b, None)] == first;
    assert ActiveDuplicate([], 0, PersistentPreference, b.key).None?;
    assert Next(State(Store([], []), none), x, Begin(1, note)) == State(Store([], []), first);
    assert !Due(LASTING_NOTE.expiresAt, 0) && LASTING_NOTE.class_ == PersistentPreference;
    LosesKey(x);
    hide *;
    assert note == Creating(0, LASTING_NOTE);
    var p := Plays(x, [], State(Store([], []), none), Begin(1, note), State(Store([], []), first));
    Stored(x, p, Store([], []), first, 2, 0, LASTING_NOTE);
    assert [] + [b] == [b];
    var q := Plays(x, p + [Begin(2, note), Advance(2)], State(Store([b], []), first), Advance(1),
                   State(Store([b], []), lost));
    assert q == [Begin(1, note), Begin(2, note), Advance(2), Advance(1)];
  }

  lemma LosesKey(x: Texts)
    ensures var b := NewRecord(x, 0, LASTING_NOTE);
            Next(State(Store([b], []), map[1 := Inserting(b, None)]), x, Advance(1)) ==
              State(Store([b], []), map[1 := Rereading(b)])
  {
    var b := NewRecord(x, 0, LASTING_NOTE);
    assert Occupies([b][0], 0, PersistentPreference, b.key);
    assert ActiveDuplicate([b], 0, PersistentPreference, b.key) == Some(0);
    assert map[1 := Inserting(b, None)][1 := Rereading(b)] == map[1 := Rereading(b)];
  }

  // ---------------------------------------------------------------- lost expiries

  /** A call on a record it found overdue, in every reachable state. If the record is as it was read
      it expires; if it has expired meanwhile nothing changes; either way the call answers with
      nothing. If it has become anything else the call goes on with it as it is then: reading answers
      with it, even archived or deleted, and a change goes through at most if the record is active at
      the version the caller expected, and is not overdue under the expiry it will have. */
  lemma LostExpiryTheorem(x: Texts, steps: seq<Step>, client: Id)
    ensures var st := Run(x, steps);
            client in st.flights && st.flights[client].Lapsing? && st.flights[client].id < |st.store.records| ==>
              var f := st.flights[client]; var r := st.store.records[f.id];
              match AdvanceSpec(st.store, x, f)
              case Raised(e) => f.pursuit != Reading && r.status != Expired && !Current(st.store, f.id, f.version)
              case Ok((t, p)) =>
                && (p == Answered(None) <==> t.records[f.id].status == Expired)
                && (t != st.store <==> Current(st.store, f.id, f.version))
                && (p != Answered(None) && f.pursuit == Reading ==> p == Answered(Some(f.id)))
                && (p.Continues? && f.pursuit.Changing? ==>
                      p.flight == Updating(f.id, r, f.pursuit.update) && r.version == f.pursuit.update.expected
                      && !Due(Pick(f.pursuit.update.expiresAt, r.fields.expiresAt), f.now))
                && (p.Continues? && f.pursuit.Shelving? ==>
                      p.flight == Archiving(f.user, f.id, r.version) && r.version == f.pursuit.expected)
  {
    hide Run;
  }
}
