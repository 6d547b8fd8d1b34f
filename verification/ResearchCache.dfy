/** The bounded TTL cache of the research service (backend/app/research/cache.py), against the
    unbounded map of latest puts. */
module ResearchCache {
  import opened Common

  datatype Entry<+T> = Entry(key: string, created: real, value: T)

  /** An ordered dictionary: entries with distinct keys, least recently touched first. */
  ghost predicate DistinctEntries<T>(items: seq<Entry<T>>) {
    forall i, j | 0 <= i < j < |items| :: items[i].key != items[j].key
  }

  function Position<T>(items: seq<Entry<T>>, key: string): (r: Option<nat>)
    ensures r.Some? ==> r.value < |items| && items[r.value].key == key
    ensures r.None? <==> forall i | 0 <= i < |items| :: items[i].key != key
  {
    if items == [] then None
    else
      var n := |items| - 1;
      if items[n].key == key then Some(n) else Position(items[..n], key)
  }

  function Remove<T>(items: seq<Entry<T>>, key: string): seq<Entry<T>> {
    var at := Position(items, key);
    if at.None? then items else items[..at.value] + items[at.value + 1..]
  }

  /** `get` on values: the entries afterwards, and the value if it is a hit. */
  function GetSpec<T>(items: seq<Entry<T>>, ttl: real, key: string, now: real): (seq<Entry<T>>, Option<T>) {
    var at := Position(items, key);
    if at.None? then (items, None)
    else
      var e := items[at.value];
      if now - e.created > ttl then (Remove(items, key), None) else (Remove(items, key) + [e], Some(e.value))
  }

  function Newest<T>(items: seq<Entry<T>>, bound: nat): seq<Entry<T>> {
    if |items| <= bound then items else items[|items| - bound..]
  }

  /** `put` on values. */
  function PutSpec<T>(items: seq<Entry<T>>, bound: nat, key: string, value: T, now: real): seq<Entry<T>> {
    Newest(Remove(items, key) + [Entry(key, now, value)], bound)
  }

  class BoundedTTLCache<T> {
    const bound: nat
    const ttl: real
    var items: seq<Entry<T>>

    constructor (bound: nat, ttl: real)
      requires bound >= 1 && ttl > 0.0
      ensures this.bound == bound && this.ttl == ttl && items == []
    {
      this.bound, this.ttl, items := bound, ttl, [];
    }

    method Get(key: string, now: real) returns (r: Option<T>)
      modifies this
      ensures (items, r) == GetSpec(old(items), ttl, key, now)
    {
      var at := Position(items, key);
      if at.None? {
        return None;
      }
      var e := items[at.value];
      items := items[..at.value] + items[at.value + 1..];
      if now - e.created > ttl {
        return None;
      }
      items := items + [e];
      return Some(e.value);
    }

    method Put(key: string, value: T, now: real)
      modifies this
      ensures items == PutSpec(old(items), bound, key, value, now)
    {
      items := Remove(items, key) + [Entry(key, now, value)];
      ghost var all := items;
      while |items| > bound
        invariant |items| <= |all| && items == all[|all| - |items|..]
        invariant |items| >= bound || items == all
      {
        items := items[1..];
      }
    }

    method Clear()
      modifies this
      ensures items == []
    {
      items := [];
    }
  }

  // ---------------------------------------------------------------- runs

  datatype Op<+T> = Put(key: string, value: T, now: real) | Get(key: string, now: real) | Clear

  function Next<T>(items: seq<Entry<T>>, bound: nat, ttl: real, op: Op<T>): seq<Entry<T>> {
    match op
    case Put(key, value, now) => PutSpec(items, bound, key, value, now)
    case Get(key, now) => GetSpec(items, ttl, key, now).0
    case Clear => []
  }

  function Run<T>(bound: nat, ttl: real, ops: seq<Op<T>>): seq<Entry<T>> {
    if ops == [] then [] else Next(Run(bound, ttl, ops[..|ops| - 1]), bound, ttl, ops[|ops| - 1])
  }

  /** The reference: an unbounded map from keys to their latest put. */
  function Latest<T>(ops: seq<Op<T>>): map<string, (real, T)> {
    if ops == [] then map[] else NextLatest(Latest(ops[..|ops| - 1]), ops[|ops| - 1])
  }

  function NextLatest<T>(latest: map<string, (real, T)>, op: Op<T>): map<string, (real, T)> {
    match op
    case Put(key, value, now) => latest[key := (now, value)]
    case Get(_, _) => latest
    case Clear => map[]
  }

  /** The cache is a part of the reference. */
  ghost predicate Refines<T>(items: seq<Entry<T>>, latest: map<string, (real, T)>) {
    && DistinctEntries(items)
    && forall i | 0 <= i < |items| :: Listed(items[i], latest)
  }

  lemma RemoveKept<T>(items: seq<Entry<T>>, key: string)
    requires DistinctEntries(items)
    ensures DistinctEntries(Remove(items, key)) && Position(Remove(items, key), key).None?
    ensures |Remove(items, key)| <= |items|
    ensures forall i | 0 <= i < |Remove(items, key)| :: Remove(items, key)[i] in items
  {
    var at := Position(items, key);
    if at.Some? {
      var rest := Remove(items, key);
      assert forall i | 0 <= i < |rest| :: rest[i] == items[if i < at.value then i else i + 1];
      hide Remove;
    }
  }

  ghost predicate Listed<T>(e: Entry<T>, latest: map<string, (real, T)>) {
    e.key in latest && latest[e.key] == (e.created, e.value)
  }

  lemma AppendRefines<T>(rest: seq<Entry<T>>, latest: map<string, (real, T)>, e: Entry<T>)
    requires Refines(rest, latest) && Position(rest, e.key).None?
    ensures Refines(rest + [e], latest[e.key := (e.created, e.value)])
  {
    var after := latest[e.key := (e.created, e.value)];
    forall i | 0 <= i < |rest| + 1 ensures Listed((rest + [e])[i], after) {
      if i < |rest| {
        assert Listed(rest[i], latest);
      }
    }
  }

  lemma NewestRefines<T>(items: seq<Entry<T>>, latest: map<string, (real, T)>, bound: nat)
    requires Refines(items, latest)
    ensures Refines(Newest(items, bound), latest)
  {
  }

  lemma RemoveRefines<T>(items: seq<Entry<T>>, latest: map<string, (real, T)>, key: string)
    requires Refines(items, latest)
    ensures Refines(Remove(items, key), latest) && Position(Remove(items, key), key).None?
    ensures |Remove(items, key)| == if Position(items, key).Some? then |items| - 1 else |items|
  {
    RemoveKept(items, key);
    var rest := Remove(items, key);
    hide Listed;
    forall i | 0 <= i < |rest| ensures Listed(rest[i], latest) {
      assert rest[i] in items;
    }
  }

  lemma PutRefines<T>(items: seq<Entry<T>>, latest: map<string, (real, T)>, bound: nat, key: string, value: T,
      now: real)
    requires Refines(items, latest)
    ensures Refines(PutSpec(items, bound, key, value, now), latest[key := (now, value)])
  {
    hide Refines;
    hide Newest;
    hide Remove;
    RemoveRefines(items, latest, key);
    AppendRefines(Remove(items, key), latest, Entry(key, now, value));
    NewestRefines(Remove(items, key) + [Entry(key, now, value)], latest[key := (now, value)], bound);
  }

  lemma GetRefines<T>(items: seq<Entry<T>>, latest: map<string, (real, T)>, ttl: real, key: string, now: real)
    requires Refines(items, latest)
    ensures Refines(GetSpec(items, ttl, key, now).0, latest)
    ensures |GetSpec(items, ttl, key, now).0| <= |items|
  {
    RemoveRefines(items, latest, key);
    hide Remove;
    var at := Position(items, key);
    if at.Some? {
      var e := items[at.value];
      assert Listed(e, latest);
      AppendRefines(Remove(items, key), latest, e);
      assert latest[e.key := (e.created, e.value)] == latest;
    }
  }

  lemma NextRefines<T>(items: seq<Entry<T>>, latest: map<string, (real, T)>, bound: nat, ttl: real, op: Op<T>)
    requires bound >= 1 && |items| <= bound && Refines(items, latest)
    ensures Refines(Next(items, bound, ttl, op), NextLatest(latest, op)) && |Next(items, bound, ttl, op)| <= bound
  {
    hide Remove;
    hide GetSpec;
    match op {
      case Put(key, value, now) =>
        PutRefines(items, latest, bound, key, value, now);
      case Get(key, now) =>
        GetRefines(items, latest, ttl, key, now);
      case Clear =>
    }
  }

  lemma {:induction false} RunRefines<T>(bound: nat, ttl: real, ops: seq<Op<T>>)
    requires bound >= 1
    ensures Refines(Run(bound, ttl, ops), Latest(ops)) && |Run(bound, ttl, ops)| <= bound
  {
    hide Refines;
    hide Next;
    if ops == [] {
      assert Refines<T>([], map[]) by {
        EmptyRefines<T>();
      }
    } else {
      var n := |ops| - 1;
      RunRefines(bound, ttl, ops[..n]);
      NextRefines(Run(bound, ttl, ops[..n]), Latest(ops[..n]), bound, ttl, ops[n]);
    }
  }

  lemma EmptyRefines<T>()
    ensures Refines<T>([], map[])
  {
  }

  /** A hit returns the latest put of its key, not older than the TTL, and the cache never
      exceeds its bound. */
  lemma HitTheorem<T>(bound: nat, ttl: real, ops: seq<Op<T>>, key: string, now: real)
    requires bound >= 1
    ensures |Run(bound, ttl, ops)| <= bound
    ensures var hit := GetSpec(Run(bound, ttl, ops), ttl, key, now).1;
            hit.Some? ==> key in Latest(ops) && hit.value == Latest(ops)[key].1 && now - Latest(ops)[key].0 <= ttl
  {
    RunRefines(bound, ttl, ops);
  }

  /** The cache, called operation by operation, holds exactly the entries of `Run`. */
  method Serve<T>(bound: nat, ttl: real, ops: seq<Op<T>>) returns (cache: BoundedTTLCache<T>)
    requires bound >= 1 && ttl > 0.0
    ensures cache.items == Run(bound, ttl, ops)
  {
    hide GetSpec;
    hide PutSpec;
    cache := new BoundedTTLCache<T>(bound, ttl);
    for i := 0 to |ops|
      invariant fresh(cache) && cache.bound == bound && cache.ttl == ttl && cache.items == Run(bound, ttl, ops[..i])
    {
      assert ops[..i + 1][..i] == ops[..i];
      match ops[i] {
        case Put(key, value, now) =>
          cache.Put(key, value, now);
        case Get(key, now) =>
          var entry := cache.Get(key, now);
        case Clear =>
          cache.Clear();
      }
    }
    assert ops[..|ops|] == ops;
  }

  // ---------------------------------------------------------------- must-hit

  ghost function Fresh<T>(items: seq<Entry<T>>, ttl: real, op: Op<T>): set<string> {
    if op.Put? || (op.Get? && GetSpec(items, ttl, op.key, op.now).1.Some?) then {op.key} else {}
  }

  /** The keys that `ops` put or hit, from the given entries on. */
  ghost function Touched<T>(items: seq<Entry<T>>, bound: nat, ttl: real, ops: seq<Op<T>>): set<string>
    decreases |ops|
  {
    if ops == [] then {}
    else
      var op := ops[0];
      Fresh(items, ttl, op) + Touched(Next(items, bound, ttl, op), bound, ttl, ops[1..])
  }

  /** From entries on, without clearing and without putting `key`, up to `now`. */
  ghost predicate Undisturbed<T>(ops: seq<Op<T>>, key: string, now: real) {
    forall i | 0 <= i < |ops| :: !ops[i].Clear? && ops[i].now <= now && (ops[i].Put? ==> ops[i].key != key)
  }

  function Play<T>(items: seq<Entry<T>>, bound: nat, ttl: real, ops: seq<Op<T>>): seq<Entry<T>>
    decreases |ops|
  {
    if ops == [] then items else Play(Next(items, bound, ttl, ops[0]), bound, ttl, ops[1..])
  }

  /** The entry `e` is cached at `p`, and every entry behind it has a key among `recent`. */
  ghost predicate Behind<T>(items: seq<Entry<T>>, p: nat, e: Entry<T>, recent: set<string>) {
    && DistinctEntries(items)
    && p < |items| && items[p] == e && forall j | p < j < |items| :: items[j].key in recent
  }

  /** Keys of pairwise different entries are as many as the entries. */
  lemma {:induction false} KeysCount<T>(items: seq<Entry<T>>, keys: set<string>)
    requires DistinctEntries(items) && forall i | 0 <= i < |items| :: items[i].key in keys
    ensures |items| <= |keys|
  {
    if items != [] {
      var n := |items| - 1;
      KeysCount(items[..n], keys - {items[n].key});
    }
  }

  lemma RemoveBehind<T>(items: seq<Entry<T>>, p: nat, e: Entry<T>, recent: set<string>, key: string) returns (q: nat)
    requires Behind(items, p, e, recent) && key != e.key
    ensures Behind(Remove(items, key), q, e, recent)
  {
    RemoveKept(items, key);
    var at := Position(items, key);
    q := if at.Some? && at.value < p then p - 1 else p;
  }

  lemma AppendBehind<T>(items: seq<Entry<T>>, p: nat, e: Entry<T>, recent: set<string>, last: Entry<T>)
    requires Behind(items, p, e, recent) && Position(items, last.key).None?
    ensures Behind(items + [last], p, e, recent + {last.key})
  {
  }

  /** Trimming drops entries in front of `e` only, as fewer than `bound` are behind it. */
  lemma TrimBehind<T>(items: seq<Entry<T>>, bound: nat, p: nat, e: Entry<T>, recent: set<string>) returns (q: nat)
    requires Behind(items, p, e, recent) && |recent| < bound
    ensures Behind(Newest(items, bound), q, e, recent)
  {
    KeysCount(items[p + 1..], recent);
    q := p - (|items| - |Newest(items, bound)|);
  }

  lemma PutBehind<T>(items: seq<Entry<T>>, bound: nat, p: nat, e: Entry<T>, recent: set<string>, key: string, value: T,
      now: real) returns (q: nat)
    requires Behind(items, p, e, recent) && key != e.key && |recent + {key}| < bound
    ensures Behind(PutSpec(items, bound, key, value, now), q, e, recent + {key})
  {
    assert DistinctEntries(items);
    RemoveKept(items, key);
    hide Behind;
    hide Remove;
    hide Newest;
    q := RemoveBehind(items, p, e, recent, key);
    AppendBehind(Remove(items, key), q, e, recent, Entry(key, now, value));
    q := TrimBehind(Remove(items, key) + [Entry(key, now, value)], bound, q, e, recent + {key});
  }

  lemma HitMine<T>(items: seq<Entry<T>>, ttl: real, p: nat, e: Entry<T>, recent: set<string>, now: real)
    requires Behind(items, p, e, recent) && now - e.created <= ttl
    ensures var after := GetSpec(items, ttl, e.key, now).0; after != [] && Behind(after, |after| - 1, e, recent)
    ensures GetSpec(items, ttl, e.key, now).1 == Some(e.value)
  {
    RemoveKept(items, e.key);
    assert Position(items, e.key).Some?;
    assert Position(items, e.key) == Some(p);
    hide Remove;
  }

  lemma GetBehind<T>(items: seq<Entry<T>>, ttl: real, p: nat, e: Entry<T>, recent: set<string>, key: string, now: real)
      returns (q: nat)
    requires Behind(items, p, e, recent) && key != e.key
    ensures var (after, hit) := GetSpec(items, ttl, key, now);
            Behind(after, q, e, if hit.Some? then recent + {key} else recent)
  {
    assert DistinctEntries(items);
    RemoveKept(items, key);
    hide Behind;
    hide Remove;
    q := p;
    var at := Position(items, key);
    if at.Some? {
      q := RemoveBehind(items, p, e, recent, key);
      AppendBehind(Remove(items, key), q, e, recent, items[at.value]);
    }
  }

  lemma StepBehind<T>(items: seq<Entry<T>>, bound: nat, ttl: real, op: Op<T>, p: nat, e: Entry<T>, recent: set<string>)
      returns (q: nat)
    requires Behind(items, p, e, recent) && e.key !in recent && !op.Clear?
    requires if op.key == e.key then op.Get? && op.now - e.created <= ttl else |recent + {op.key}| < bound || op.Get?
    ensures Behind(Next(items, bound, ttl, op), q, e, recent + (Fresh(items, ttl, op) - {e.key}))
  {
    hide Behind;
    hide GetSpec;
    hide PutSpec;
    if op.Put? {
      q := PutBehind(items, bound, p, e, recent, op.key, op.value, op.now);
      assert Fresh(items, ttl, op) - {e.key} == {op.key};
    } else if op.key == e.key {
      HitMine(items, ttl, p, e, recent, op.now);
      q := |Next(items, bound, ttl, op)| - 1;
      assert recent + (Fresh(items, ttl, op) - {e.key}) == recent;
    } else {
      q := GetBehind(items, ttl, p, e, recent, op.key, op.now);
      var hit := GetSpec(items, ttl, op.key, op.now).1.Some?;
      assert recent + (Fresh(items, ttl, op) - {e.key}) == if hit then recent + {op.key} else recent;
    }
  }

  lemma {:induction false} PlayBehind<T>(items: seq<Entry<T>>, bound: nat, ttl: real, ops: seq<Op<T>>, p: nat,
      e: Entry<T>, recent: set<string>, now: real) returns (q: nat)
    requires Behind(items, p, e, recent) && e.key !in recent
    requires Undisturbed(ops, e.key, now) && now - e.created <= ttl
    requires |recent + (Touched(items, bound, ttl, ops) - {e.key})| < bound
    ensures Behind(Play(items, bound, ttl, ops), q, e, recent + (Touched(items, bound, ttl, ops) - {e.key}))
    decreases |ops|
  {
    hide Behind;
    hide Next;
    var all := recent + (Touched(items, bound, ttl, ops) - {e.key});
    if ops == [] {
      assert all == recent;
      q := p;
    } else {
      var op := ops[0];
      assert !op.Clear? && op.now <= now;
      var mine := recent + (Fresh(items, ttl, op) - {e.key});
      var next := Next(items, bound, ttl, op);
      assert all == mine + (Touched(next, bound, ttl, ops[1..]) - {e.key});
      if op.Put? {
        Subset(recent + {op.key}, all);
      }
      hide Fresh;
      hide Touched;
      q := StepBehind(items, bound, ttl, op, p, e, recent);
      q := PlayBehind(next, bound, ttl, ops[1..], q, e, mine, now);
    }
  }

  lemma Subset(a: set<string>, b: set<string>)
    requires a <= b
    ensures |a| <= |b|
  {
    assert b == a + (b - a);
  }

  lemma {:induction false} RunPlays<T>(bound: nat, ttl: real, a: seq<Op<T>>, b: seq<Op<T>>)
    ensures Run(bound, ttl, a + b) == Play(Run(bound, ttl, a), bound, ttl, b)
    decreases |b|
  {
    hide Next;
    if b == [] {
      assert a + b == a;
    } else {
      RunPlays(bound, ttl, a + [b[0]], b[1..]);
      assert (a + [b[0]]) + b[1..] == a + b;
      assert (a + [b[0]])[..|a|] == a;
    }
  }

  lemma {:induction false} LatestUndisturbed<T>(a: seq<Op<T>>, b: seq<Op<T>>, key: string, now: real)
    requires Undisturbed(b, key, now) && key in Latest(a)
    ensures key in Latest(a + b) && Latest(a + b)[key] == Latest(a)[key]
  {
    if b == [] {
      assert a + b == a;
    } else {
      var n := |b| - 1;
      LatestUndisturbed(a, b[..n], key, now);
      assert (a + b)[..|a| + n] == a + b[..n];
      assert (a + b)[|a| + n] == b[n];
    }
  }

  /** The last operation of `ops` put or hit `key`. */
  predicate Touches<T>(bound: nat, ttl: real, ops: seq<Op<T>>, key: string) {
    && ops != []
    && var op := ops[|ops| - 1];
       || (op.Put? && op.key == key)
       || (op.Get? && op.key == key && GetSpec(Run(bound, ttl, ops[..|ops| - 1]), ttl, key, op.now).1.Some?)
  }

  lemma TouchedLast<T>(bound: nat, ttl: real, ops: seq<Op<T>>, key: string)
    requires bound >= 1 && Touches(bound, ttl, ops, key)
    ensures var items := Run(bound, ttl, ops); items != [] && items[|items| - 1].key == key
  {
  }

  /** A key that was touched, and whose latest put is not older than the TTL now, is a hit if
      since then fewer other keys than the cache has room for were put or hit, the cache was not
      cleared, and the clock never ran backwards. */
  lemma MustHitTheorem<T>(bound: nat, ttl: real, before: seq<Op<T>>, since: seq<Op<T>>, key: string, now: real)
    requires bound >= 1 && Touches(bound, ttl, before, key) && key in Latest(before)
    requires Undisturbed(since, key, now) && now - Latest(before)[key].0 <= ttl
    requires |Touched(Run(bound, ttl, before), bound, ttl, since) - {key}| < bound
    ensures key in Latest(before + since)
    ensures GetSpec(Run(bound, ttl, before + since), ttl, key, now).1 == Some(Latest(before + since)[key].1)
  {
    hide Run;
    hide Latest;
    hide Touched;
    hide GetSpec;
    hide Play;
    var items := Run(bound, ttl, before);
    RunRefines(bound, ttl, before);
    TouchedLast(bound, ttl, before, key);
    var e := items[|items| - 1];
    assert Behind(items, |items| - 1, e, {});
    assert {} + (Touched(items, bound, ttl, since) - {key}) == Touched(items, bound, ttl, since) - {key};
    var q := PlayBehind(items, bound, ttl, since, |items| - 1, e, {}, now);
    RunPlays(bound, ttl, before, since);
    LatestUndisturbed(before, since, key, now);
    HitMine(Play(items, bound, ttl, since), ttl, q, e, Touched(items, bound, ttl, since) - {key}, now);
  }
}
