/** The Memory Core (backend/app/memory/service.py): optimistic versions, revision snapshots,
    the deduplication key, lazy expiry, archive and scrubbing delete. */
module MemoryCore {
  import opened Common

  datatype MemoryClass = PersistentPreference | Operational | HistoricalDecision | TemporaryContext | Discardable
  datatype Status = Active | Archived | Expired | Deleted

  /** `normalize_memory_text` and `str.casefold`; the proofs hold for any two functions. */
  datatype Texts = Texts(normalize: string -> string, fold: string -> string)

  /** `memory_fingerprint` hashes the class and the canonical content and subject, and is taken
      to be injective; a deleted record carries a tombstone made from its identifier. */
  datatype Fingerprint = Canonical(class_: MemoryClass, content: string, subject: Option<string>) | Tombstone(id: Id)

  function FingerprintOf(x: Texts, c: MemoryClass, content: string, subject: Option<string>): Fingerprint {
    Canonical(c, x.fold(x.normalize(content)),
      if subject.Some? && subject.value != "" then Some(x.fold(x.normalize(subject.value))) else None)
  }

  /** The columns a revision snapshots. */
  datatype Fields = Fields(
    class_: MemoryClass,
    sourceType: string,
    sourceReference: Option<string>,
    content: string,
    normalized: Option<string>,
    summary: Option<string>,
    subject: Option<string>,
    confidence: nat,
    importance: nat,
    sensitivity: nat,
    expiresAt: Option<Time>,
    fingerprint: Fingerprint,
    metadata: string)

  datatype Record = Record(user: Id, status: Status, fields: Fields, key: Option<Fingerprint>, version: nat)
  datatype Revision = Revision(memory: Id, number: nat, fields: Fields)

  datatype Store = Store(records: seq<Record>, revisions: seq<Revision>)

  datatype Error = InvalidData | Immutable | Concurrent | Duplicate
  type Outcome<+T> = Result<T, Error>

  const EMPTY_METADATA := "{}"
  const DELETED_CONTENT := "[DELETED]"

  // ---------------------------------------------------------------- expiry

  predicate IsDue(r: Record, now: Time) {
    r.status == Active && Due(r.fields.expiresAt, now)
  }

  function Lapsed(r: Record): Record {
    r.(status := Expired, version := r.version + 1, key := None)
  }

  /** The record is active and still at the version that was read. */
  predicate Current(s: Store, id: Id, version: nat) {
    id < |s.records| && s.records[id].status == Active && s.records[id].version == version
  }

  /** The versioned UPDATE of `_expire_if_due`: the store, and whether the record is expired now. A
      lost UPDATE refreshes the record, which may have become anything. */
  function LapseSpec(s: Store, id: Id, version: nat): (Store, bool) {
    if Current(s, id, version) then (s.(records := s.records[id := Lapsed(s.records[id])]), true)
    else (s, id < |s.records| && s.records[id].status == Expired)
  }

  /** `_materialize_due_expirations` on values, with nothing in between. */
  function MaterializeSpec(s: Store, user: Id, now: Time): Store {
    s.(records := seq(|s.records|, i requires 0 <= i < |s.records| =>
      if s.records[i].user == user && IsDue(s.records[i], now) then Lapsed(s.records[i]) else s.records[i]))
  }

  // ---------------------------------------------------------------- create

  datatype Proposal = Proposal(
    class_: MemoryClass, content: string, summary: Option<string>, subject: Option<string>,
    sourceType: string, sourceReference: Option<string>, confidence: nat, importance: nat,
    sensitivity: nat, expiresAt: Option<Time>, metadata: string)

  function KeyFor(c: MemoryClass, f: Fingerprint): Option<Fingerprint> {
    if c == HistoricalDecision then None else Some(f)
  }

  function NewRecord(x: Texts, user: Id, p: Proposal): Record {
    var f := FingerprintOf(x, p.class_, p.content, p.subject);
    Record(user, Active,
      Fields(p.class_, p.sourceType, p.sourceReference, p.content, Some(x.normalize(p.content)), p.summary, p.subject,
             p.confidence, p.importance, p.sensitivity, p.expiresAt, f, p.metadata),
      KeyFor(p.class_, f), 1)
  }

  /** The partial unique index: an active row of the user and class with this key. */
  predicate Occupies(r: Record, user: Id, c: MemoryClass, key: Option<Fingerprint>) {
    r.status == Active && r.user == user && r.fields.class_ == c && key.Some? && r.key == key
  }

  function ActiveDuplicate(rs: seq<Record>, user: Id, c: MemoryClass, key: Option<Fingerprint>): (r: Option<Id>)
    ensures r.Some? ==> r.value < |rs| && Occupies(rs[r.value], user, c, key)
    ensures r.None? ==> forall i | 0 <= i < |rs| :: !Occupies(rs[i], user, c, key)
  {
    if rs == [] then None
    else
      var last := |rs| - 1;
      if Occupies(rs[last], user, c, key) then Some(last) else ActiveDuplicate(rs[..last], user, c, key)
  }

  // ---------------------------------------------------------------- calls

  /** Absent outer option: the field is not in the request. */
  datatype Update = Update(
    expected: nat, content: Option<string>, summary: Option<Option<string>>, subject: Option<Option<string>>,
    importance: Option<nat>, sensitivity: Option<nat>, expiresAt: Option<Option<Time>>,
    metadata: Option<Option<string>>)

  datatype Command =
    | Create(proposal: Proposal, provenance: bool)
    | Get(id: Id)
    | List
    | Change(id: Id, update: Update)
    | Archive(id: Id, expected: nat)
    | Delete(id: Id, expected: nat)

  datatype Call = Call(user: Id, now: Time, allowed: bool, command: Command)

  /** What a call does with a record once its deadline has been observed. */
  datatype Pursuit = Reading | Changing(update: Update) | Shelving(expected: nat)

  /** What a call still has to do after it has read: any other transaction may commit before it goes
      on. `lapsing` is the overdue duplicate, at the version read, that a create expires first. A
      failed insertion and the look at who holds the key are two statements. */
  datatype Flight =
    | Lapsing(user: Id, id: Id, version: nat, now: Time, pursuit: Pursuit)
    | Sweeping(due: seq<(Id, nat)>)
    | Inserting(row: Record, lapsing: Option<(Id, nat)>)
    | Rereading(row: Record)
    | Updating(id: Id, seen: Record, update: Update)
    | Archiving(user: Id, id: Id, expected: nat)
    | Deleting(user: Id, id: Id, expected: nat)

  /** A call is over, answering with a record or with none, or goes on. */
  datatype Progress = Answered(answer: Option<Id>) | Continues(flight: Flight)

  // ---------------------------------------------------------------- reading

  /** `_create` up to the first write, after authorisation. `provenance` is the outcome of
      `_validate_provenance`. */
  function BeginCreateSpec(s: Store, x: Texts, now: Time, user: Id, p: Proposal, provenance: bool): Outcome<Progress> {
    if Due(p.expiresAt, now) || !provenance then Raised(InvalidData)
    else
      var row := NewRecord(x, user, p);
      var existing := ActiveDuplicate(s.records, user, p.class_, row.key);
      if existing.None? then Ok(Continues(Inserting(row, None)))
      else if !IsDue(s.records[existing.value], now) then Ok(Answered(existing))
      else Ok(Continues(Inserting(row, Some((existing.value, s.records[existing.value].version)))))
  }

  predicate Owned(s: Store, user: Id, id: Id) {
    id < |s.records| && s.records[id].user == user
  }

  function Pick<T>(change: Option<T>, current: T): T {
    if change.Some? then change.value else current
  }

  /** A call on a record that is not expired, as far as it knows: `r` is the row last read. */
  function PursueSpec(user: Id, id: Id, r: Record, now: Time, pursuit: Pursuit): Outcome<Progress> {
    match pursuit
    case Reading => Ok(Answered(Some(id)))
    case Shelving(expected) =>
      if r.version != expected then Raised(Concurrent) else Ok(Continues(Archiving(user, id, expected)))
    case Changing(u) =>
      var expiry := Pick(u.expiresAt, r.fields.expiresAt);
      if r.fields.class_ == HistoricalDecision then Raised(Immutable)
      else if r.version != u.expected then Raised(Concurrent)
      else if r.fields.class_ == TemporaryContext && expiry.None? then Raised(InvalidData)
      else if Due(expiry, now) then Raised(InvalidData)
      else Ok(Continues(Updating(id, r, u)))
  }

  /** A call on an active record: an overdue one is expired first. */
  function ObserveSpec(s: Store, user: Id, id: Id, now: Time, pursuit: Pursuit): Outcome<Progress>
    requires id < |s.records|
  {
    if IsDue(s.records[id], now) then Ok(Continues(Lapsing(user, id, s.records[id].version, now, pursuit)))
    else PursueSpec(user, id, s.records[id], now, pursuit)
  }

  /** `delete_owned` up to the versioned UPDATE, after authorisation. */
  function BeginDeleteSpec(s: Store, user: Id, id: Id, expected: nat): Outcome<Progress> {
    if !Owned(s, user, id) then Ok(Answered(None))
    else if s.records[id].status == Deleted then Ok(Answered(Some(id)))
    else if s.records[id].version != expected then Raised(Concurrent)
    else Ok(Continues(Deleting(user, id, expected)))
  }

  /** The overdue records of a user among the first `n`, with the versions read. */
  function DueRows(records: seq<Record>, user: Id, now: Time, n: nat): (due: seq<(Id, nat)>)
    requires n <= |records|
    ensures forall i | 0 <= i < n ::
              (records[i].user == user && IsDue(records[i], now)) <==> (i, records[i].version) in due
    ensures forall d | d in due :: d.0 < n && d.1 == records[d.0].version
  {
    if n == 0 then []
    else
      var r := records[n - 1];
      DueRows(records, user, now, n - 1) + if r.user == user && IsDue(r, now) then [(n - 1, r.version)] else []
  }

  function Sweep(due: seq<(Id, nat)>): Progress {
    if due == [] then Answered(None) else Continues(Sweeping(due))
  }

  /** A call up to its first write. Without an ALLOW decision nothing happens. */
  function BeginSpec(s: Store, x: Texts, c: Call): Outcome<Progress> {
    if !c.allowed then Ok(Answered(None))
    else match c.command
      case Create(p, provenance) => BeginCreateSpec(s, x, c.now, c.user, p, provenance)
      case Get(id) =>
        if !Owned(s, c.user, id) || s.records[id].status != Active then Ok(Answered(None))
        else ObserveSpec(s, c.user, id, c.now, Reading)
      case List => Ok(Sweep(DueRows(s.records, c.user, c.now, |s.records|)))
      case Change(id, u) =>
        if !Owned(s, c.user, id) || s.records[id].status != Active then Ok(Answered(None))
        else ObserveSpec(s, c.user, id, c.now, Changing(u))
      case Archive(id, expected) =>
        if !Owned(s, c.user, id) || s.records[id].status in {Deleted, Expired} then Ok(Answered(None))
        else if s.records[id].status == Archived then Ok(Answered(Some(id)))
        else ObserveSpec(s, c.user, id, c.now, Shelving(expected))
      case Delete(id, expected) => BeginDeleteSpec(s, c.user, id, expected)
  }

  // ---------------------------------------------------------------- writing

  /** `_expire_if_due` and what follows: expired, the call answers with nothing; otherwise it goes on
      with the record as refreshed. */
  function ExpireSpec(s: Store, user: Id, id: Id, version: nat, now: Time, pursuit: Pursuit)
    : Outcome<(Store, Progress)>
  {
    var (t, expired) := LapseSpec(s, id, version);
    if expired || id >= |t.records| then Ok((t, Answered(None)))
    else
      var next :- PursueSpec(user, id, t.records[id], now, pursuit);
      Ok((t, next))
  }

  /** `_create` from the first write on. The duplicate is expired if it is still as it was read; if it
      has become something else than expired, it is the answer as it is. */
  function InsertSpec(s: Store, row: Record, lapsing: Option<(Id, nat)>): (Store, Progress) {
    if lapsing.None? then InsertRowSpec(s, row)
    else
      var (t, expired) := LapseSpec(s, lapsing.value.0, lapsing.value.1);
      if expired then InsertRowSpec(t, row) else (t, Answered(Some(lapsing.value.0)))
  }

  /** The INSERT itself. A row that took the key in the meantime makes it fail. */
  function InsertRowSpec(s: Store, row: Record): (Store, Progress) {
    if ActiveDuplicate(s.records, row.user, row.fields.class_, row.key).Some? then (s, Continues(Rereading(row)))
    else (s.(records := s.records + [row]), Answered(Some(|s.records|)))
  }

  /** `_create` after a failed INSERT: the record that holds the key by now, or an error. */
  function RereadSpec(s: Store, row: Record): Outcome<Progress> {
    var existing := ActiveDuplicate(s.records, row.user, row.fields.class_, row.key);
    if existing.None? then Raised(Concurrent) else Ok(Answered(existing))
  }

  /** The row after the versioned UPDATE: the requested columns of `r` change; the fingerprint is
      that of the content and subject as they were read. */
  function UpdatedRecord(x: Texts, seen: Fields, r: Record, u: Update): Record {
    var f := r.fields;
    var rehash := u.content.Some? || u.subject.Some?;
    var fp := FingerprintOf(x, seen.class_, Pick(u.content, seen.content), Pick(u.subject, seen.subject));
    r.(fields := f.(content := Pick(u.content, f.content),
                    normalized := if u.content.Some? then Some(x.normalize(u.content.value)) else f.normalized,
                    summary := Pick(u.summary, f.summary),
                    subject := Pick(u.subject, f.subject),
                    importance := Pick(u.importance, f.importance),
                    sensitivity := Pick(u.sensitivity, f.sensitivity),
                    expiresAt := Pick(u.expiresAt, f.expiresAt),
                    metadata := if u.metadata.Some? then Pick(u.metadata.value, EMPTY_METADATA) else f.metadata,
                    fingerprint := if rehash then fp else f.fingerprint),
       key := if rehash then Some(fp) else r.key,
       version := u.expected + 1)
  }

  /** Another active row already holds the key this row would take. */
  predicate KeyTaken(rs: seq<Record>, id: Id, row: Record) {
    exists i | 0 <= i < |rs| :: i != id && Occupies(rs[i], row.user, row.fields.class_, row.key)
  }

  predicate RevisionTaken(revisions: seq<Revision>, id: Id, number: nat) {
    exists i | 0 <= i < |revisions| :: revisions[i].memory == id && revisions[i].number == number
  }

  /** `update_owned` from the versioned UPDATE on: the snapshot is of the row that was read. */
  function WriteUpdateSpec(s: Store, x: Texts, id: Id, seen: Record, u: Update): Outcome<Store> {
    if !Owned(s, seen.user, id) || !Current(s, id, u.expected) then Raised(Concurrent)
    else
      var row := UpdatedRecord(x, seen.fields, s.records[id], u);
      if KeyTaken(s.records, id, row) || RevisionTaken(s.revisions, id, seen.version) then Raised(Duplicate)
      else Ok(Store(s.records[id := row], s.revisions + [Revision(id, seen.version, seen.fields)]))
  }

  /** `archive_owned` from the versioned UPDATE on. */
  function WriteArchiveSpec(s: Store, user: Id, id: Id, expected: nat): Outcome<Store> {
    if !Owned(s, user, id) || !Current(s, id, expected) then Raised(Concurrent)
    else Ok(s.(records := s.records[id := s.records[id].(status := Archived, version := expected + 1)]))
  }

  function Scrub(f: Fields, id: Id): Fields {
    f.(content := DELETED_CONTENT, normalized := None, summary := None, subject := None,
       sourceReference := None, fingerprint := Tombstone(id), metadata := EMPTY_METADATA)
  }

  function ScrubRevision(r: Revision, id: Id): Revision {
    if r.memory == id then r.(fields := Scrub(r.fields, id)) else r
  }

  function ScrubRevisions(revisions: seq<Revision>, id: Id): (r: seq<Revision>)
    ensures |r| == |revisions|
    ensures forall i | 0 <= i < |r| :: r[i] == ScrubRevision(revisions[i], id)
  {
    seq(|revisions|, i requires 0 <= i < |revisions| => ScrubRevision(revisions[i], id))
  }

  function Erase(r: Record, id: Id): Record {
    r.(status := Deleted, fields := Scrub(r.fields, id), key := None, version := r.version + 1)
  }

  /** `delete_owned` from the versioned UPDATE on. */
  function WriteDeleteSpec(s: Store, user: Id, id: Id, expected: nat): Outcome<Store> {
    if !Owned(s, user, id) || s.records[id].status == Deleted || s.records[id].version != expected
    then Raised(Concurrent)
    else Ok(Store(s.records[id := Erase(s.records[id], id)], ScrubRevisions(s.revisions, id)))
  }

  function Written(r: Outcome<Store>, id: Id): Outcome<(Store, Progress)> {
    if r.Ok? then Ok((r.value, Answered(Some(id)))) else Raised(r.error)
  }

  /** A call's next write, on the store as it is by then. */
  function AdvanceSpec(s: Store, x: Texts, f: Flight): Outcome<(Store, Progress)> {
    match f
    case Lapsing(user, id, version, now, pursuit) => ExpireSpec(s, user, id, version, now, pursuit)
    case Sweeping(due) =>
      if due == [] then Ok((s, Answered(None))) else Ok((LapseSpec(s, due[0].0, due[0].1).0, Sweep(due[1..])))
    case Inserting(row, lapsing) => Ok(InsertSpec(s, row, lapsing))
    case Rereading(row) =>
      var next :- RereadSpec(s, row);
      Ok((s, next))
    case Updating(id, seen, u) => Written(WriteUpdateSpec(s, x, id, seen, u), id)
    case Archiving(user, id, expected) => Written(WriteArchiveSpec(s, user, id, expected), id)
    case Deleting(user, id, expected) => Written(WriteDeleteSpec(s, user, id, expected), id)
  }

  // ---------------------------------------------------------------- steps

  /** The committed tables, and the clients' calls that have read but are not over. */
  datatype State = State(store: Store, flights: map<Id, Flight>)

  datatype Step = Begin(client: Id, call: Call) | Advance(client: Id)

  function Follow(flights: map<Id, Flight>, client: Id, p: Progress): map<Id, Flight> {
    if p.Continues? then flights[client := p.flight] else flights - {client}
  }

  function Next(st: State, x: Texts, step: Step): State {
    match step
    case Begin(client, call) =>
      var b := BeginSpec(st.store, x, call);
      if b.Raised? then st else st.(flights := Follow(st.flights, client, b.value))
    case Advance(client) =>
      if client !in st.flights then st
      else
        var r := AdvanceSpec(st.store, x, st.flights[client]);
        if r.Raised? then st.(flights := st.flights - {client})
        else State(r.value.0, Follow(st.flights, client, r.value.1))
  }

  // ---------------------------------------------------------------- the service

  /** The two tables the service updates in place. A raising call is rolled back; no call raises after
      a write of its own. */
  class MemoryService {
    var records: seq<Record>
    var revisions: seq<Revision>

    constructor ()
      ensures View() == Store([], [])
    {
      records, revisions := [], [];
    }

    function View(): Store
      reads this
    {
      Store(records, revisions)
    }

    /** What a write promises. */
    ghost predicate Wrote(r: Outcome<()>, was: Store, spec: Outcome<Store>)
      reads this
    {
      match spec
      case Ok(s) => r == Ok(()) && View() == s
      case Raised(e) => r == Raised(e) && View() == was
    }

    ghost predicate Advanced(r: Outcome<Progress>, was: Store, spec: Outcome<(Store, Progress)>)
      reads this
    {
      match spec
      case Ok((s, p)) => r == Ok(p) && View() == s
      case Raised(e) => r == Raised(e) && View() == was
    }

    /** The versioned UPDATE of `_expire_if_due`. */
    method ExpireRow(id: Id, version: nat) returns (expired: bool)
      modifies this
      ensures (View(), expired) == LapseSpec(old(View()), id, version)
    {
      if id >= |records| || records[id].status != Active || records[id].version != version {
        return id < |records| && records[id].status == Expired;
      }
      var r := records[id];
      records := records[id := r.(status := Expired, version := version + 1, key := None)];
      return true;
    }

    /** `_materialize_due_expirations`, with nothing in between. */
    method MaterializeDueExpirations(user: Id, now: Time)
      modifies this
      ensures View() == MaterializeSpec(old(View()), user, now)
    {
      ghost var was := View();
      var i := 0;
      while i < |records|
        invariant 0 <= i <= |records| == |was.records|
        invariant revisions == was.revisions
        invariant records[..i] == MaterializeSpec(was, user, now).records[..i]
        invariant records[i..] == was.records[i..]
      {
        assert records[i] == records[i..][0] == was.records[i];
        if records[i].user == user && IsDue(records[i], now) {
          var expired := ExpireRow(i, records[i].version);
        }
        assert records[i] == MaterializeSpec(was, user, now).records[i];
        i := i + 1;
      }
    }

    /** `_create` up to the first write. */
    method BeginCreate(x: Texts, now: Time, user: Id, p: Proposal, provenance: bool) returns (r: Outcome<Progress>)
      ensures r == BeginCreateSpec(View(), x, now, user, p, provenance)
    {
      if Due(p.expiresAt, now) || !provenance {
        return Raised(InvalidData);
      }
      var row := NewRecord(x, user, p);
      var existing := ActiveDuplicate(records, user, p.class_, row.key);
      if existing.Some? {
        if !IsDue(records[existing.value], now) {
          return Ok(Answered(existing));
        }
        return Ok(Continues(Inserting(row, Some((existing.value, records[existing.value].version)))));
      }
      return Ok(Continues(Inserting(row, None)));
    }

    /** `_create` from the first write up to the INSERT. */
    method Insert(row: Record, lapsing: Option<(Id, nat)>) returns (p: Progress)
      modifies this
      ensures (View(), p) == InsertSpec(old(View()), row, lapsing)
    {
      if lapsing.Some? {
        var expired := ExpireRow(lapsing.value.0, lapsing.value.1);
        if !expired {
          return Answered(Some(lapsing.value.0));
        }
      }
      var taken := ActiveDuplicate(records, row.user, row.fields.class_, row.key);
      if taken.Some? {
        return Continues(Rereading(row));
      }
      records := records + [row];
      return Answered(Some(|records| - 1));
    }

    /** `_create` after a failed INSERT. */
    method Reread(row: Record) returns (r: Outcome<Progress>)
      ensures r == RereadSpec(View(), row)
    {
      var existing := ActiveDuplicate(records, row.user, row.fields.class_, row.key);
      if existing.None? {
        return Raised(Concurrent);
      }
      return Ok(Answered(existing));
    }

    /** `update_owned` from the observed deadline up to the versioned UPDATE. */
    method CheckUpdate(id: Id, current: Record, now: Time, u: Update) returns (r: Outcome<Progress>)
      ensures forall user :: r == PursueSpec(user, id, current, now, Changing(u))
    {
      if current.fields.class_ == HistoricalDecision {
        return Raised(Immutable);
      }
      if current.version != u.expected {
        return Raised(Concurrent);
      }
      var expiry := if u.expiresAt.Some? then u.expiresAt.value else current.fields.expiresAt;
      if current.fields.class_ == TemporaryContext && expiry.None? {
        return Raised(InvalidData);
      }
      if Due(expiry, now) {
        return Raised(InvalidData);
      }
      return Ok(Continues(Updating(id, current, u)));
    }

    /** What a call does with a record it takes to be unexpired. */
    method Pursue(user: Id, id: Id, current: Record, now: Time, pursuit: Pursuit) returns (r: Outcome<Progress>)
      ensures r == PursueSpec(user, id, current, now, pursuit)
    {
      match pursuit {
        case Reading =>
          return Ok(Answered(Some(id)));
        case Changing(u) =>
          r := CheckUpdate(id, current, now, u);
        case Shelving(expected) =>
          if current.version != expected {
            return Raised(Concurrent);
          }
          return Ok(Continues(Archiving(user, id, expected)));
      }
    }

    /** `get_owned`, `update_owned` and `archive_owned` on an active record, up to the first write. */
    method Observe(user: Id, id: Id, now: Time, pursuit: Pursuit) returns (r: Outcome<Progress>)
      requires id < |records|
      ensures r == ObserveSpec(View(), user, id, now, pursuit)
    {
      if IsDue(records[id], now) {
        return Ok(Continues(Lapsing(user, id, records[id].version, now, pursuit)));
      }
      r := Pursue(user, id, records[id], now, pursuit);
    }

    /** The same on a record found overdue: `_expire_if_due`, and what follows. */
    method Expire(user: Id, id: Id, version: nat, now: Time, pursuit: Pursuit) returns (r: Outcome<Progress>)
      modifies this
      ensures Advanced(r, old(View()), ExpireSpec(old(View()), user, id, version, now, pursuit))
    {
      var expired := ExpireRow(id, version);
      if expired || id >= |records| {
        return Ok(Answered(None));
      }
      r := Pursue(user, id, records[id], now, pursuit);
    }

    /** `update_owned` from the versioned UPDATE on. */
    method WriteUpdate(x: Texts, id: Id, seen: Record, u: Update) returns (r: Outcome<()>)
      modifies this
      ensures Wrote(r, old(View()), WriteUpdateSpec(old(View()), x, id, seen, u))
    {
      var savedRecords := records;
      if id >= |records| || records[id].user != seen.user || records[id].status != Active
         || records[id].version != u.expected {
        return Raised(Concurrent);
      }
      var row := UpdatedRecord(x, seen.fields, records[id], u);
      if KeyTaken(records, id, row) {
        return Raised(Duplicate);
      }
      records := records[id := row];
      if RevisionTaken(revisions, id, seen.version) {
        records := savedRecords;
        return Raised(Duplicate);
      }
      revisions := revisions + [Revision(id, seen.version, seen.fields)];
      return Ok(());
    }

    /** `archive_owned` from the versioned UPDATE on. */
    method WriteArchive(user: Id, id: Id, expected: nat) returns (r: Outcome<()>)
      modifies this
      ensures Wrote(r, old(View()), WriteArchiveSpec(old(View()), user, id, expected))
    {
      if !Owned(View(), user, id) || records[id].status != Active || records[id].version != expected {
        return Raised(Concurrent);
      }
      records := records[id := records[id].(status := Archived, version := expected + 1)];
      return Ok(());
    }

    /** `delete_owned` up to the versioned UPDATE. */
    method BeginDelete(user: Id, id: Id, expected: nat) returns (r: Outcome<Progress>)
      ensures r == BeginDeleteSpec(View(), user, id, expected)
    {
      if !Owned(View(), user, id) {
        return Ok(Answered(None));
      }
      if records[id].status == Deleted {
        return Ok(Answered(Some(id)));
      }
      if records[id].version != expected {
        return Raised(Concurrent);
      }
      return Ok(Continues(Deleting(user, id, expected)));
    }

    /** `delete_owned` from the versioned UPDATE on. */
    method WriteDelete(user: Id, id: Id, expected: nat) returns (r: Outcome<()>)
      modifies this
      ensures Wrote(r, old(View()), WriteDeleteSpec(old(View()), user, id, expected))
    {
      if !Owned(View(), user, id) || records[id].status == Deleted || records[id].version != expected {
        return Raised(Concurrent);
      }
      var r0 := records[id];
      records := records[id := r0.(status := Deleted, fields := Scrub(r0.fields, id), key := None,
                                   version := expected + 1)];
      revisions := ScrubRevisions(revisions, id);
      return Ok(());
    }

    /** Any call up to its first write. */
    method Receive(x: Texts, c: Call) returns (r: Outcome<Progress>)
      ensures r == BeginSpec(View(), x, c)
    {
      if !c.allowed {
        return Ok(Answered(None));
      }
      match c.command {
        case Create(p, provenance) =>
          r := BeginCreate(x, c.now, c.user, p, provenance);
        case Get(id) =>
          if !Owned(View(), c.user, id) || records[id].status != Active {
            return Ok(Answered(None));
          }
          r := Observe(c.user, id, c.now, Reading);
        case List =>
          return Ok(Sweep(DueRows(records, c.user, c.now, |records|)));
        case Change(id, u) =>
          if !Owned(View(), c.user, id) || records[id].status != Active {
            return Ok(Answered(None));
          }
          r := Observe(c.user, id, c.now, Changing(u));
        case Archive(id, expected) =>
          if !Owned(View(), c.user, id) || records[id].status == Deleted || records[id].status == Expired {
            return Ok(Answered(None));
          }
          if records[id].status == Archived {
            return Ok(Answered(Some(id)));
          }
          r := Observe(c.user, id, c.now, Shelving(expected));
        case Delete(id, expected) =>
          r := BeginDelete(c.user, id, expected);
      }
    }

    /** Any call's next write. */
    method Write(x: Texts, f: Flight) returns (r: Outcome<Progress>)
      modifies this
      ensures Advanced(r, old(View()), AdvanceSpec(old(View()), x, f))
    {
      match f {
        case Lapsing(user, id, version, now, pursuit) =>
          r := Expire(user, id, version, now, pursuit);
        case Sweeping(due) =>
          if due == [] {
            return Ok(Answered(None));
          }
          var expired := ExpireRow(due[0].0, due[0].1);
          return Ok(Sweep(due[1..]));
        case Inserting(row, lapsing) =>
          var p := Insert(row, lapsing);
          return Ok(p);
        case Rereading(row) =>
          r := Reread(row);
        case Updating(id, seen, u) =>
          var done := WriteUpdate(x, id, seen, u);
          return if done.Ok? then Ok(Answered(Some(id))) else Raised(done.error);
        case Archiving(user, id, expected) =>
          var done := WriteArchive(user, id, expected);
          return if done.Ok? then Ok(Answered(Some(id))) else Raised(done.error);
        case Deleting(user, id, expected) =>
          var done := WriteDelete(user, id, expected);
          return if done.Ok? then Ok(Answered(Some(id))) else Raised(done.error);
      }
    }
  }
}
