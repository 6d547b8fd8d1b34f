/** What the memory calls store and answer, column by column. */
module MemoryMeaning {
  import opened Common
  import opened MemoryCore
  import opened MemoryHistory

  // ---------------------------------------------------------------- columns

  /** The fingerprint covers the class, and the canonical content and subject; an empty subject is none. */
  predicate FingerprintIs(x: Texts, f: Fields, fp: Fingerprint) {
    && fp.Canonical? && fp.class_ == f.class_ && fp.content == x.fold(x.normalize(f.content))
    && (f.subject.None? || f.subject.value == "" ==> fp.subject.None?)
    && (f.subject.Some? && f.subject.value != "" ==> fp.subject == Some(x.fold(x.normalize(f.subject.value))))
  }

  /** A column that may have been asked for: it holds the requested value, or what it held. */
  predicate Column<T(==)>(asked: Option<T>, before: T, after: T) {
    match asked
    case Some(v) => after == v
    case None => after == before
  }

  /** The row after an update. */
  predicate Updated(x: Texts, before: Record, u: Update, after: Record) {
    var f, g := before.fields, after.fields;
    && after.user == before.user && after.status == before.status && after.version == before.version + 1
    && Column(u.content, f.content, g.content)
    && g.normalized == (if u.content.Some? then Some(x.normalize(u.content.value)) else f.normalized)
    && Column(u.summary, f.summary, g.summary) && Column(u.subject, f.subject, g.subject)
    && Column(u.importance, f.importance, g.importance) && Column(u.sensitivity, f.sensitivity, g.sensitivity)
    && Column(u.expiresAt, f.expiresAt, g.expiresAt)
    && (match u.metadata
        case None => g.metadata == f.metadata
        case Some(None) => g.metadata == "{}"
        case Some(Some(m)) => g.metadata == m)
    && g.class_ == f.class_ && g.sourceType == f.sourceType && g.sourceReference == f.sourceReference
    && g.confidence == f.confidence
    && (if u.content.Some? || u.subject.Some?
        then FingerprintIs(x, g, g.fingerprint) && after.key == Some(g.fingerprint)
        else g.fingerprint == f.fingerprint && after.key == before.key)
  }

  /** The row of a proposal. */
  predicate Proposed(x: Texts, user: Id, p: Proposal, row: Record) {
    var g := row.fields;
    && row.user == user && row.status == Active && row.version == 1
    && g.class_ == p.class_ && g.content == p.content && g.normalized == Some(x.normalize(p.content))
    && g.summary == p.summary && g.subject == p.subject && g.sourceType == p.sourceType
    && g.sourceReference == p.sourceReference && g.confidence == p.confidence && g.importance == p.importance
    && g.sensitivity == p.sensitivity && g.expiresAt == p.expiresAt && g.metadata == p.metadata
    && FingerprintIs(x, g, g.fingerprint)
    && row.key == (if p.class_ == HistoricalDecision then None else Some(g.fingerprint))
  }

  /** The contents of a deleted record: everything that could tell what it said is gone. */
  predicate Blank(f: Fields, g: Fields, id: Id) {
    && g.content == "[DELETED]" && g.normalized.None? && g.summary.None? && g.subject.None? && g.sourceReference.None?
    && g.fingerprint == Tombstone(id) && g.metadata == "{}"
    && g.class_ == f.class_ && g.sourceType == f.sourceType && g.confidence == f.confidence
    && g.importance == f.importance && g.sensitivity == f.sensitivity && g.expiresAt == f.expiresAt
  }

  /** Only record `id` changes. */
  predicate OnlyRow(s: Store, t: Store, id: Id) {
    && id < |s.records| == |t.records|
    && forall i | 0 <= i < |s.records| && i != id :: t.records[i] == s.records[i]
  }

  // ---------------------------------------------------------------- writing

  /** What a write does when it succeeds. */
  ghost predicate Stores(x: Texts, s: Store, f: Flight, t: Store) {
    match f
    case Updating(id, seen, u) =>
      && OnlyRow(s, t, id) && Updated(x, s.records[id], u, t.records[id])
      && t.revisions == s.revisions + [Revision(id, s.records[id].version, s.records[id].fields)]
    case Archiving(user, id, expected) =>
      && OnlyRow(s, t, id) && t.revisions == s.revisions && s.records[id].status == Active
      && t.records[id] == s.records[id].(status := Archived, version := s.records[id].version + 1)
    case Deleting(user, id, expected) =>
      && OnlyRow(s, t, id) && |t.revisions| == |s.revisions|
      && t.records[id].status == Deleted && t.records[id].user == s.records[id].user && t.records[id].key.None?
      && t.records[id].version == s.records[id].version + 1 && Blank(s.records[id].fields, t.records[id].fields, id)
      && (forall i | 0 <= i < |s.revisions| ::
            && t.revisions[i].memory == s.revisions[i].memory && t.revisions[i].number == s.revisions[i].number
            && (if s.revisions[i].memory == id then Blank(s.revisions[i].fields, t.revisions[i].fields, id)
                else t.revisions[i] == s.revisions[i]))
    case _ => true
  }

  /** When a write of an update, an archive or a delete goes through: the record is the caller's, in a
      status that allows it and at the expected version; and an update finds its new key free. */
  ghost predicate GoesThrough(x: Texts, s: Store, f: Flight) {
    match f
    case Updating(id, seen, u) =>
      && id < |s.records| && s.records[id].user == seen.user && s.records[id].status == Active
      && s.records[id].version == u.expected
      && forall after | Updated(x, s.records[id], u, after) ::
           forall i | 0 <= i < |s.records| && i != id ::
             !(s.records[i].status == Active && s.records[i].user == after.user
               && s.records[i].fields.class_ == after.fields.class_
               && after.key.Some? && s.records[i].key == after.key)
    case Archiving(user, id, expected) =>
      && id < |s.records| && s.records[id].user == user && s.records[id].status == Active
      && s.records[id].version == expected
    case Deleting(user, id, expected) =>
      && id < |s.records| && s.records[id].user == user && s.records[id].status != Deleted
      && s.records[id].version == expected
    case _ => true
  }

  /** In every reachable state: the next write of an update, an archive or a delete goes through under
      exactly this condition, stores exactly these columns, and answers with the record. */
  lemma WriteTheorem(x: Texts, steps: seq<Step>, client: Id)
    ensures var st := Run(x, steps);
            client in st.flights
                && (st.flights[client].Updating? || st.flights[client].Archiving? || st.flights[client].Deleting?) ==>
              var f := st.flights[client]; var r := AdvanceSpec(st.store, x, f);
              && (r.Ok? <==> GoesThrough(x, st.store, f))
              && (r.Ok? ==> r.value.1 == Answered(Some(f.id)) && Stores(x, st.store, f, r.value.0))
              && (r.Raised? ==> r.error == if f.Updating? && Available(st.store, f.seen.user, f.id)
                                              && st.store.records[f.id].version == f.update.expected
                                           then Duplicate else Concurrent)
  {
    hide Run;
    var st := Run(x, steps);
    if client in st.flights {
      var f := st.flights[client];
      assert FlightOk(st.store, x, f);
      if f.Updating? {
        UpdateSpelled(st.store, x, f.id, f.seen, f.update);
      }
    }
  }

  lemma UpdateSpelled(s: Store, x: Texts, id: Id, seen: Record, u: Update)
    requires Inv(s, x) && FlightOk(s, x, Updating(id, seen, u))
    ensures var r := WriteUpdateSpec(s, x, id, seen, u);
            && (r.Ok? <==> GoesThrough(x, s, Updating(id, seen, u)))
            && (r.Ok? ==> Stores(x, s, Updating(id, seen, u), r.value))
            && (r.Raised? ==> r.error == if Available(s, seen.user, id) && s.records[id].version == u.expected
                                         then Duplicate else Concurrent)
  {
    hide RecordOk;
    hide RevisionTaken;
    UpdateSucceeds(s, x, id, seen, u);
    if id < |s.records| && s.records[id] == seen {
      var row := UpdatedRecord(x, seen.fields, seen, u);
      RowSpelled(x, seen, u);
      forall after | Updated(x, seen, u, after) ensures after == row {
        UpdatedOnce(x, seen, u, row, after);
      }
    }
  }

  lemma RowSpelled(x: Texts, seen: Record, u: Update)
    requires seen.version == u.expected
    ensures Updated(x, seen, u, UpdatedRecord(x, seen.fields, seen, u))
  {
  }

  lemma UpdatedOnce(x: Texts, r: Record, u: Update, a: Record, b: Record)
    requires Updated(x, r, u, a) && Updated(x, r, u, b)
    ensures a == b
  {
    assert a.fields.fingerprint == b.fields.fingerprint;
    assert a.fields == b.fields;
  }

  /** An active record that holds the key of the row. */
  ghost predicate HoldsKey(r: Record, row: Record) {
    && r.status == Active && r.user == row.user && r.fields.class_ == row.fields.class_
    && row.key.Some? && r.key == row.key
  }

  /** What inserting answers: the duplicate, if it is no longer as it was read and has not expired; to
      look again, if another record holds the key; and otherwise the new record. */
  ghost predicate InsertAnswers(s: Store, row: Record, lapsing: Option<(Id, nat)>, p: Progress) {
    if lapsing.Some? && lapsing.value.0 < |s.records|
       && s.records[lapsing.value.0].status != Expired
       && !(s.records[lapsing.value.0].status == Active && s.records[lapsing.value.0].version == lapsing.value.1)
    then p == Answered(Some(lapsing.value.0))
    else if exists i | 0 <= i < |s.records| :: !(lapsing.Some? && lapsing.value.0 == i) && HoldsKey(s.records[i], row)
    then p == Continues(Rereading(row))
    else p == Answered(Some(|s.records|))
  }

  /** Inserting, and expiring the overdue duplicate first. */
  lemma InsertTheorem(x: Texts, steps: seq<Step>, client: Id)
    ensures var st := Run(x, steps);
            client in st.flights && st.flights[client].Inserting? ==>
              var row, lapsing := st.flights[client].row, st.flights[client].lapsing;
              var (t, p) := InsertSpec(st.store, row, lapsing);
              && t.revisions == st.store.revisions
              && InsertAnswers(st.store, row, lapsing, p)
              && |t.records| == |st.store.records| + (if p == Answered(Some(|st.store.records|)) then 1 else 0)
              && (p == Answered(Some(|st.store.records|)) ==> t.records[|st.store.records|] == row)
              && (forall i | 0 <= i < |st.store.records| ::
                    var r := st.store.records[i];
                    t.records[i] == if lapsing == Some((i, r.version)) && r.status == Active
                                    then r.(status := Expired, version := r.version + 1, key := None) else r)
  {
    hide Run;
    hide RecordOk;
    var st := Run(x, steps);
    if client in st.flights && st.flights[client].Inserting? {
      assert FlightOk(st.store, x, st.flights[client]);
    }
  }

  // ---------------------------------------------------------------- reading

  /** The record is the caller's and active. */
  predicate Available(s: Store, user: Id, id: Id) {
    id < |s.records| && s.records[id].user == user && s.records[id].status == Active
  }

  predicate Overdue(r: Record, now: Time) {
    r.fields.expiresAt.Some? && r.fields.expiresAt.value <= now
  }

  /** What an update is refused for, or that it goes on, from the row last read. */
  predicate UpdateChecked(id: Id, r: Record, now: Time, u: Update, result: Outcome<Progress>) {
    var expiry := if u.expiresAt.Some? then u.expiresAt.value else r.fields.expiresAt;
    match result
    case Raised(Immutable) => r.fields.class_ == HistoricalDecision
    case Raised(Concurrent) => r.fields.class_ != HistoricalDecision && r.version != u.expected
    case Raised(InvalidData) =>
      && r.fields.class_ != HistoricalDecision && r.version == u.expected
      && ((r.fields.class_ == TemporaryContext && expiry.None?) || (expiry.Some? && expiry.value <= now))
    case Raised(Duplicate) => false
    case Ok(p) =>
      && p == Continues(Updating(id, r, u))
      && r.fields.class_ != HistoricalDecision && r.version == u.expected
      && (expiry.None? ==> r.fields.class_ != TemporaryContext) && (expiry.Some? ==> now < expiry.value)
  }

  /** A create: refused, answered with the record that has the same contents, or to insert the row of
      the proposal, after the overdue record that has the same contents, if there is one. */
  ghost predicate CreateBegun(x: Texts, s: Store, user: Id, now: Time, p: Proposal, provenance: bool,
      result: Outcome<Progress>) {
    if (p.expiresAt.Some? && p.expiresAt.value <= now) || !provenance then result == Raised(InvalidData)
    else
      && result.Ok?
      && (result.value.Answered? ==>
            && result.value.answer.Some?
            && var a := result.value.answer.value;
               && Available(s, user, a) && !Overdue(s.records[a], now)
               && exists row :: Proposed(x, user, p, row) && Twin(s.records[a], row))
      && (result.value.Continues? ==>
            && result.value.flight.Inserting? && Proposed(x, user, p, result.value.flight.row)
            && var row, lapsing := result.value.flight.row, result.value.flight.lapsing;
               && (lapsing.None? ==>
                     forall i | 0 <= i < |s.records| && Available(s, user, i) :: !Twin(s.records[i], row))
               && (lapsing.Some? ==>
                     && var e := lapsing.value.0;
                        && Available(s, user, e) && Overdue(s.records[e], now) && Twin(s.records[e], row)
                        && lapsing.value.1 == s.records[e].version))
  }

  /** A list: the overdue records of the user, with the versions read, are to be expired. */
  ghost predicate ListBegun(s: Store, user: Id, now: Time, result: Outcome<Progress>) {
    && result.Ok?
    && (result.value.Answered? ==>
          && result.value.answer.None?
          && forall i | 0 <= i < |s.records| && Available(s, user, i) :: !Overdue(s.records[i], now))
    && (result.value.Continues? ==>
          && result.value.flight.Sweeping?
          && forall i | 0 <= i < |s.records| ::
               (i, s.records[i].version) in result.value.flight.due <==>
                   Available(s, user, i) && Overdue(s.records[i], now))
  }

  /** What a call does up to its first write, said of the rows it reads. */
  ghost predicate Begins(x: Texts, s: Store, c: Call, result: Outcome<Progress>) {
    match c.command
    case Create(p, provenance) => CreateBegun(x, s, c.user, c.now, p, provenance, result)
    case Get(id) =>
      result == Ok(if !Available(s, c.user, id) then Answered(None)
                   else if Overdue(s.records[id], c.now)
                   then Continues(Lapsing(c.user, id, s.records[id].version, c.now, Reading))
                   else Answered(Some(id)))
    case List => ListBegun(s, c.user, c.now, result)
    case Change(id, u) =>
      if !Available(s, c.user, id) then result == Ok(Answered(None))
      else if Overdue(s.records[id], c.now)
      then result == Ok(Continues(Lapsing(c.user, id, s.records[id].version, c.now, Changing(u))))
      else UpdateChecked(id, s.records[id], c.now, u, result)
    case Archive(id, expected) =>
      if id >= |s.records| || s.records[id].user != c.user || s.records[id].status in {Deleted, Expired}
      then result == Ok(Answered(None))
      else if s.records[id].status == Archived then result == Ok(Answered(Some(id)))
      else if Overdue(s.records[id], c.now)
      then result == Ok(Continues(Lapsing(c.user, id, s.records[id].version, c.now, Shelving(expected))))
      else if s.records[id].version != expected then result == Raised(Concurrent)
      else result == Ok(Continues(Archiving(c.user, id, expected)))
    case Delete(id, expected) =>
      if id >= |s.records| || s.records[id].user != c.user then result == Ok(Answered(None))
      else if s.records[id].status == Deleted then result == Ok(Answered(Some(id)))
      else if s.records[id].version != expected then result == Raised(Concurrent)
      else result == Ok(Continues(Deleting(c.user, id, expected)))
  }

  /** Two active records that may not both be: one non-historical class, the same canonical content
      and subject. */
  predicate Twin(r: Record, row: Record) {
    r.fields.class_ == row.fields.class_ != HistoricalDecision && r.fields.fingerprint == row.fields.fingerprint
  }

  /** In every reachable state: a call that was allowed begins as stated, any other does nothing. */
  lemma BeginTheorem(x: Texts, steps: seq<Step>, c: Call)
    ensures var s := Run(x, steps).store;
            if c.allowed then Begins(x, s, c, BeginSpec(s, x, c)) else BeginSpec(s, x, c) == Ok(Answered(None))
  {
    hide Run;
    var s := Run(x, steps).store;
    if c.allowed && c.command.Create? {
      CreateSpelled(s, x, c);
    }
  }

  lemma CreateSpelled(s: Store, x: Texts, c: Call)
    requires Inv(s, x) && c.allowed && c.command.Create?
    ensures Begins(x, s, c, BeginSpec(s, x, c))
  {
    var p := c.command.proposal;
    var row := NewRecord(x, c.user, p);
    assert Proposed(x, c.user, p, row);
    forall i | 0 <= i < |s.records| && Available(s, c.user, i)
      ensures Twin(s.records[i], row) <==> Occupies(s.records[i], c.user, p.class_, row.key)
    {
      assert RecordOk(s, x, i);
    }
  }

  /** A call that has to expire a record first: it expires it and answers with nothing if the record is as
      it was read; otherwise, unless it has expired meanwhile, the call goes on with the record as it is. */
  ghost predicate LapseMeans(s: Store, f: Flight, result: Outcome<(Store, Progress)>)
    requires f.Lapsing? && f.id < |s.records|
  {
    var r := s.records[f.id];
    if r.status == Active && r.version == f.version then
      && result.Ok? && result.value.1 == Answered(None) && OnlyRow(s, result.value.0, f.id)
      && result.value.0.revisions == s.revisions
      && result.value.0.records[f.id] == r.(status := Expired, key := None, version := r.version + 1)
    else if r.status == Expired then result == Ok((s, Answered(None)))
    else
      && (result.Ok? ==> result.value.0 == s)
      && var next := if result.Ok? then Ok(result.value.1) else Raised(result.error);
         match f.pursuit
         case Reading => next == Ok(Answered(Some(f.id)))
         case Shelving(expected) =>
           next == if r.version == expected then Ok(Continues(Archiving(f.user, f.id, expected)))
                   else Raised(Concurrent)
         case Changing(u) => UpdateChecked(f.id, r, f.now, u, next)
  }

  /** In every reachable state: what expiring a record that was found overdue does. */
  lemma LapseTheorem(x: Texts, steps: seq<Step>, client: Id)
    ensures var st := Run(x, steps);
            client in st.flights && st.flights[client].Lapsing? && st.flights[client].id < |st.store.records| ==>
              LapseMeans(st.store, st.flights[client], AdvanceSpec(st.store, x, st.flights[client]))
  {
    hide Run;
    hide StateOk;
  }

  /** In every reachable state: a list expires the next of its overdue records iff it is as it was read, and
      goes on with the others. */
  lemma SweepTheorem(x: Texts, steps: seq<Step>, client: Id)
    ensures var st := Run(x, steps);
            client in st.flights && st.flights[client].Sweeping? && st.flights[client].due != [] ==>
              var due := st.flights[client].due; var result := AdvanceSpec(st.store, x, st.flights[client]);
              && result.Ok? && result.value.0.revisions == st.store.revisions
              && |result.value.0.records| == |st.store.records|
              && (forall i | 0 <= i < |st.store.records| ::
                    var r := st.store.records[i];
                    result.value.0.records[i] ==
                      if due[0] == (i, r.version) && r.status == Active
                      then r.(status := Expired, key := None, version := r.version + 1) else r)
              && result.value.1 == if |due| == 1 then Answered(None) else Continues(Sweeping(due[1..]))
  {
    hide Run;
    hide StateOk;
  }
}
