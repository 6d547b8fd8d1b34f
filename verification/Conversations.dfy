/** Conversations of the Text Assistant (backend/app/text_assistant/service.py): idempotent
    submission, and message pairs reserved by compare-and-set on the conversation version. */
module Conversations {
  import opened Common

  /** Idempotency keys. The voice service derives its key from the session and the logical turn;
      the derivation is a hash of public values, so a text client may send that key as well. */
  datatype Key = ClientKey(name: string) | VoiceKey(session: Id, turn: string)

  /** `AssistantRequest`; `options` stands for the remaining fields its fingerprint covers. */
  datatype Request = Request(content: string, options: string, key: Key, expected: nat)

  datatype Fingerprint = Fingerprint(conversation: Id, content: string, options: string)

  datatype Conversation = Conversation(user: Id, version: nat, nextSequence: nat)

  datatype Role = User | Assistant

  datatype Message = Message(
    conversation: Id, user: Id, role: Role, sequence: nat, content: string,
    key: Option<Key>, fingerprint: Option<Fingerprint>, replyTo: Option<Id>)

  datatype Store = Store(conversations: seq<Conversation>, messages: seq<Message>)

  datatype Error = NotFound | Concurrent | KeyConflict | DispatchFailed | ConstraintViolated
  type Outcome<+T> = Result<T, Error>

  // ---------------------------------------------------------------- operations on values

  function CreateSpec(s: Store, user: Id): Store {
    s.(conversations := s.conversations + [Conversation(user, 1, 1)])
  }

  predicate Holds(m: Message, user: Id, key: Key) {
    m.user == user && m.role == User && m.key == Some(key)
  }

  /** `_idempotent_existing` */
  function Existing(messages: seq<Message>, user: Id, key: Key): (r: Option<Id>)
    ensures r.Some? ==> r.value < |messages| && Holds(messages[r.value], user, key)
    ensures r.None? ==> forall i | 0 <= i < |messages| :: !Holds(messages[i], user, key)
  {
    if messages == [] then None
    else
      var last := |messages| - 1;
      if Holds(messages[last], user, key) then Some(last) else Existing(messages[..last], user, key)
  }

  function FingerprintOf(conversation: Id, r: Request): Fingerprint {
    Fingerprint(conversation, r.content, r.options)
  }

  /** Answering from the message that already holds the key. */
  function Replay(s: Store, existing: Id, conversation: Id, r: Request): Outcome<Id>
    requires existing < |s.messages|
  {
    if s.messages[existing].fingerprint != Some(FingerprintOf(conversation, r)) then Raised(KeyConflict)
    else if !HasReply(s.messages, existing) then Raised(Concurrent)
    else Ok(existing)
  }

  /** The reply lookup of `_existing_response`. */
  predicate HasReply(messages: seq<Message>, to: Id)
    requires to < |messages|
  {
    exists i | 0 <= i < |messages| ::
        messages[i].replyTo == Some(to) && messages[i].user == messages[to].user && messages[i].role == Assistant
  }

  /** The first half of `submit`: idempotency, ownership and version, on the state read. The
      answer is an earlier message, or the conversation row that was read. */
  datatype Begun = Answered(message: Id) | Reading(seen: Conversation)

  function BeginSpec(s: Store, user: Id, conversation: Id, r: Request): Outcome<Begun> {
    var existing := Existing(s.messages, user, r.key);
    if existing.Some? then
      var m :- Replay(s, existing.value, conversation, r);
      Ok(Answered(m))
    else if conversation >= |s.conversations| || s.conversations[conversation].user != user then Raised(NotFound)
    else if s.conversations[conversation].version != r.expected then Raised(Concurrent)
    else Ok(Reading(s.conversations[conversation]))
  }

  predicate SequenceTaken(messages: seq<Message>, conversation: Id, sequence: nat) {
    exists i | 0 <= i < |messages| :: messages[i].conversation == conversation && messages[i].sequence == sequence
  }

  function UserMessage(user: Id, conversation: Id, r: Request, sequence: nat): Message {
    Message(conversation, user, User, sequence, r.content, Some(r.key), Some(FingerprintOf(conversation, r)), None)
  }

  function ReplyMessage(user: Id, conversation: Id, to: Id, sequence: nat, content: string): Message {
    Message(conversation, user, Assistant, sequence, content, None, None, Some(to))
  }

  /** `_reserve_message_pair` on values: the versioned UPDATE, computed from the row read earlier. */
  function ReserveSpec(s: Store, conversation: Id, expected: nat, seen: Conversation): Outcome<Store> {
    if conversation >= |s.conversations| || s.conversations[conversation].version != expected then Raised(Concurrent)
    else Ok(s.(conversations := s.conversations[conversation :=
      s.conversations[conversation].(version := expected + 1, nextSequence := seen.nextSequence + 2)]))
  }

  /** The second half of `submit`, on the state at the time of the UPDATE, which other
      transactions may have changed since `seen` was read. `reply` is what the dispatched
      handler produced, or None if it raised. */
  function CompleteSpec(s: Store, user: Id, conversation: Id, r: Request, seen: Conversation,
      reply: Option<string>): Outcome<(Store, Id)> {
    var reserved := ReserveSpec(s, conversation, r.expected, seen);
    var existing := Existing(s.messages, user, r.key);
    if reserved.Raised? then
      if existing.None? then Raised(Concurrent)
      else
        var m :- Replay(s, existing.value, conversation, r);
        Ok((s, m))
    else
      var s1 := reserved.value;
      var id := |s1.messages|;
      if existing.Some? then
        var m :- Replay(s1, existing.value, conversation, r);
        Ok((s1, m))
      else if SequenceTaken(s1.messages, conversation, seen.nextSequence) then Raised(Concurrent)
      else if reply.None? then Raised(DispatchFailed)
      else if SequenceTaken(s1.messages + [UserMessage(user, conversation, r, seen.nextSequence)], conversation,
          seen.nextSequence + 1) then Raised(ConstraintViolated)
      else Ok((s1.(messages := s1.messages + [UserMessage(user, conversation, r, seen.nextSequence),
                                              ReplyMessage(user, conversation, id, seen.nextSequence + 1,
                                                           reply.value)]), id))
  }

  // ---------------------------------------------------------------- invariant

  /** How many of the message pairs belong to a conversation. */
  ghost function Pairs(messages: seq<Message>, conversation: Id): nat {
    if |messages| < 2 then 0
    else
      var n := |messages| - 2;
      Pairs(messages[..n], conversation) + if messages[n].conversation == conversation then 1 else 0
  }

  /** A user message and, directly after it, its reply: the n-th pair of a conversation carries
      the sequence numbers 2n - 1 and 2n. */
  ghost predicate PairOk(messages: seq<Message>, k: nat)
    requires k + 1 < |messages|
  {
    var m, a := messages[k], messages[k + 1];
    && m.role == User && m.key.Some? && m.fingerprint.Some? && m.replyTo.None?
    && m.fingerprint.value.conversation == m.conversation && m.fingerprint.value.content == m.content
    && m.sequence == 2 * Pairs(messages[..k], m.conversation) + 1
    && a.role == Assistant && a.replyTo == Some(k) && a.user == m.user && a.conversation == m.conversation
        && a.sequence == m.sequence + 1
  }

  ghost predicate RowOk(c: Conversation) {
    c.version >= 1 && c.nextSequence == 2 * c.version - 1
  }

  ghost predicate Inv(s: Store) {
    && |s.messages| % 2 == 0
    && (forall k | 0 <= k < |s.messages| - 1 && k % 2 == 0 :: PairOk(s.messages, k))
    && (forall c | 0 <= c < |s.conversations| ::
        RowOk(s.conversations[c]) && Pairs(s.messages, c) == s.conversations[c].version - 1)
    && (forall i | 0 <= i < |s.messages| :: s.messages[i].conversation < |s.conversations|)
    && (forall i, j | 0 <= i < j < |s.messages| :: s.messages[j].key.Some? ==>
        !Holds(s.messages[i], s.messages[j].user, s.messages[j].key.value))
  }

  lemma {:induction false} PairsMonotone(messages: seq<Message>, k: nat, conversation: Id)
    requires k <= |messages| && k % 2 == 0 && |messages| % 2 == 0
    ensures Pairs(messages[..k], conversation) <= Pairs(messages, conversation)
    ensures k < |messages| && messages[k].conversation == conversation ==>
        Pairs(messages[..k], conversation) < Pairs(messages, conversation)
  {
    if k == |messages| {
      assert messages[..k] == messages;
    } else {
      var n := |messages| - 2;
      PairsMonotone(messages[..n], k, conversation);
      assert messages[..n][..k] == messages[..k];
    }
  }

  lemma PairsAppend(messages: seq<Message>, m: Message, a: Message, conversation: Id)
    ensures Pairs(messages + [m, a], conversation) ==
            Pairs(messages, conversation) + if m.conversation == conversation then 1 else 0
  {
    assert (messages + [m, a])[..|messages|] == messages;
  }

  lemma PairsNone(messages: seq<Message>, c: Id)
    requires forall i | 0 <= i < |messages| :: messages[i].conversation != c
    ensures Pairs(messages, c) == 0
  {
  }

  /** No two messages of a conversation share a sequence number. */
  lemma SequencesDistinct(s: Store, i: nat, j: nat)
    requires Inv(s) && i < j < |s.messages| && s.messages[i].conversation == s.messages[j].conversation
    ensures s.messages[i].sequence < s.messages[j].sequence
  {
    var k, l := i - i % 2, j - j % 2;
    assert PairOk(s.messages, k) && PairOk(s.messages, l);
    if k < l {
      PairsMonotone(s.messages[..l], k, s.messages[i].conversation);
      assert s.messages[..l][..k] == s.messages[..k];
    }
  }

  /** What completing a submission may do: nothing, or append exactly one pair. */
  ghost predicate Appended(s: Store, t: Store, user: Id, conversation: Id, r: Request, reply: Option<string>) {
    && Existing(s.messages, user, r.key).None?
    && conversation < |s.conversations| && reply.Some? && s.conversations[conversation].version == r.expected
    && t.conversations == s.conversations[conversation := s.conversations[conversation].(
                            version := r.expected + 1,
                            nextSequence := s.conversations[conversation].nextSequence + 2)]
    && t.messages == s.messages + [UserMessage(user, conversation, r, s.conversations[conversation].nextSequence),
                                   ReplyMessage(user, conversation, |s.messages|,
                                       s.conversations[conversation].nextSequence + 1, reply.value)]
  }

  /** A submission in flight: what it asks, and the conversation row it read. */
  datatype Flight = Flight(user: Id, conversation: Id, request: Request, seen: Conversation)

  /** The row read was a committed one, and while the conversation has not moved on since, no
      message in it holds the key. */
  ghost predicate FlightOk(s: Store, f: Flight) {
    && RowOk(f.seen) && f.seen.version == f.request.expected
    && f.conversation < |s.conversations| && s.conversations[f.conversation].user == f.user
    && f.seen.version <= s.conversations[f.conversation].version
    && (f.seen.version == s.conversations[f.conversation].version ==>
          forall i | 0 <= i < |s.messages| :: Holds(s.messages[i], f.user, f.request.key) ==>
              s.messages[i].conversation != f.conversation)
  }

  function Complete(s: Store, f: Flight, reply: Option<string>): Outcome<(Store, Id)> {
    CompleteSpec(s, f.user, f.conversation, f.request, f.seen, reply)
  }

  /** Completing a submission, however stale the row it read: either the store is unchanged and
      the answer is the message that already holds the key, or exactly one pair is appended. The
      branch that would keep a reservation without messages cannot be reached. */
  lemma CompleteKept(s: Store, f: Flight, reply: Option<string>)
    requires Inv(s) && FlightOk(s, f) && Complete(s, f, reply).Ok?
    ensures var (t, m) := Complete(s, f, reply).value;
            && Inv(t)
            && (t == s || Appended(s, t, f.user, f.conversation, f.request, reply))
            && m < |t.messages| && Holds(t.messages[m], f.user, f.request.key)
            && t.messages[m].fingerprint == Some(FingerprintOf(f.conversation, f.request))
  {
    hide SequenceTaken;
    hide HasReply;
    var (t, m) := Complete(s, f, reply).value;
    var existing := Existing(s.messages, f.user, f.request.key);
    assert RowOk(s.conversations[f.conversation]);
    hide Inv;
    if existing.Some? {
      ReplayUnchanged(s, f, reply, existing.value);
    } else {
      assert f.seen.nextSequence == s.conversations[f.conversation].nextSequence;
      AppendKept(s, t, f.user, f.conversation, f.request, reply.value);
    }
  }

  lemma ReplayUnchanged(s: Store, f: Flight, reply: Option<string>, existing: Id)
    requires Inv(s) && FlightOk(s, f) && Complete(s, f, reply).Ok?
    requires Existing(s.messages, f.user, f.request.key) == Some(existing)
    ensures Complete(s, f, reply).value == (s, existing)
    ensures s.messages[existing].fingerprint == Some(FingerprintOf(f.conversation, f.request))
  {
    hide HasReply;
    hide Pairs;
    hide SequenceTaken;
    assert PairOk(s.messages, existing - existing % 2);
  }

  lemma AppendKept(s: Store, t: Store, user: Id, conversation: Id, r: Request, reply: string)
    requires Inv(s) && Appended(s, t, user, conversation, r, Some(reply))
    ensures Inv(t)
  {
    var n := |s.messages|;
    var m, a := t.messages[n], t.messages[n + 1];
    assert RowOk(s.conversations[conversation])
        && Pairs(s.messages, conversation) == s.conversations[conversation].version - 1;
    forall k | 0 <= k < |t.messages| - 1 && k % 2 == 0 ensures PairOk(t.messages, k) {
      if k < n {
        assert PairOk(s.messages, k);
        assert t.messages[..k] == s.messages[..k];
      } else {
        assert t.messages[..k] == s.messages;
      }
    }
    forall c | 0 <= c < |t.conversations| ensures RowOk(t.conversations[c])
        && Pairs(t.messages, c) == t.conversations[c].version - 1 {
      assert RowOk(s.conversations[c]) && Pairs(s.messages, c) == s.conversations[c].version - 1;
      PairsAppend(s.messages, m, a, c);
    }
  }

  // ---------------------------------------------------------------- runs

  /** Reading is not repeated at commit time, so submissions of different clients overlap: each
      is two steps, and any number of other steps may come in between. */
  datatype State = State(store: Store, flights: map<Id, Flight>)

  datatype Step =
    | OpenConversation(user: Id)
    | Begin(client: Id, user: Id, conversation: Id, request: Request)
    | Finish(client: Id, reply: Option<string>)

  function Next(st: State, step: Step): State {
    match step
    case OpenConversation(user) => st.(store := CreateSpec(st.store, user))
    case Begin(client, user, conversation, r) =>
      var b := BeginSpec(st.store, user, conversation, r);
      if b.Ok? && b.value.Reading?
      then st.(flights := st.flights[client := Flight(user, conversation, r, b.value.seen)]) else st
    case Finish(client, reply) =>
      if client !in st.flights then st
      else
        var done := Complete(st.store, st.flights[client], reply);
        State(if done.Ok? then done.value.0 else st.store, st.flights - {client})
  }

  ghost predicate StateOk(st: State) {
    Inv(st.store) && forall c | c in st.flights :: FlightOk(st.store, st.flights[c])
  }

  lemma OpenKept(s: Store, user: Id)
    requires Inv(s)
    ensures Inv(CreateSpec(s, user))
  {
    var t := CreateSpec(s, user);
    PairsNone(s.messages, |s.conversations|);
    forall k | 0 <= k < |t.messages| - 1 && k % 2 == 0 ensures PairOk(t.messages, k) {
      assert PairOk(s.messages, k);
    }
  }

  lemma FinishKept(st: State, client: Id, reply: Option<string>)
    requires StateOk(st) && client in st.flights
    ensures StateOk(Next(st, Finish(client, reply)))
        && st.store.messages <= Next(st, Finish(client, reply)).store.messages
  {
    hide Inv;
    hide CompleteSpec;
    var n := Next(st, Finish(client, reply));
    var f := st.flights[client];
    assert FlightOk(st.store, f);
    if Complete(st.store, f, reply).Ok? {
      CompleteKept(st.store, f, reply);
      assert n.store == st.store || Appended(st.store, n.store, f.user, f.conversation, f.request, reply);
    }
    forall c | c in n.flights ensures FlightOk(n.store, n.flights[c]) {
      assert FlightOk(st.store, st.flights[c]);
    }
  }

  lemma BeginKept(st: State, client: Id, user: Id, conversation: Id, r: Request)
    requires StateOk(st)
    ensures StateOk(Next(st, Begin(client, user, conversation, r)))
    ensures Next(st, Begin(client, user, conversation, r)).store == st.store
  {
    hide Pairs;
    var n := Next(st, Begin(client, user, conversation, r));
    forall c | c in n.flights ensures FlightOk(n.store, n.flights[c]) {
      if c in st.flights && n.flights[c] == st.flights[c] {
        assert FlightOk(st.store, st.flights[c]);
      } else {
        assert RowOk(st.store.conversations[conversation]);
      }
    }
  }

  lemma NextKept(st: State, step: Step)
    requires StateOk(st)
    ensures StateOk(Next(st, step))
    ensures st.store.messages <= Next(st, step).store.messages
  {
    hide Inv;
    match step {
      case OpenConversation(user) =>
        OpenKept(st.store, user);
        assert forall c | c in st.flights :: FlightOk(st.store, st.flights[c]);
      case Begin(client, user, conversation, r) =>
        BeginKept(st, client, user, conversation, r);
      case Finish(client, reply) =>
        if client in st.flights {
          FinishKept(st, client, reply);
        }
    }
  }

  /** The state after any interleaving of overlapping submissions. */
  ghost function Run(steps: seq<Step>): (st: State)
    ensures StateOk(st)
  {
    if steps == [] then State(Store([], []), map[])
    else
      var before := Run(steps[..|steps| - 1]);
      NextKept(before, steps[|steps| - 1]);
      Next(before, steps[|steps| - 1])
  }

  /** In every reachable state the next sequence number is 2 * version - 1, no two messages of a
      conversation share a number, and every user message is directly followed by its reply. */
  lemma SequenceTheorem(steps: seq<Step>, c: Id, i: nat, j: nat)
    ensures var s := Run(steps).store;
            && (c < |s.conversations| ==> s.conversations[c].nextSequence == 2 * s.conversations[c].version - 1)
            && (i < j < |s.messages| && s.messages[i].conversation == s.messages[j].conversation ==>
                s.messages[i].sequence < s.messages[j].sequence)
            && (i < |s.messages| && s.messages[i].role == User ==>
                  i + 1 < |s.messages| && s.messages[i + 1].replyTo == Some(i)
                      && s.messages[i + 1].sequence == s.messages[i].sequence + 1
                  && s.messages[i + 1].conversation == s.messages[i].conversation)
  {
    hide Run;
    hide PairOk;
    var s := Run(steps).store;
    if c < |s.conversations| {
      assert RowOk(s.conversations[c]);
    }
    if i < j < |s.messages| && s.messages[i].conversation == s.messages[j].conversation {
      SequencesDistinct(s, i, j);
    }
    if i < |s.messages| && s.messages[i].role == User {
      ReplyFollows(s, i);
    }
  }

  lemma ReplyFollows(s: Store, i: nat)
    requires Inv(s) && i < |s.messages| && s.messages[i].role == User
    ensures i + 1 < |s.messages| && s.messages[i + 1].replyTo == Some(i)
        && s.messages[i + 1].sequence == s.messages[i].sequence + 1
    ensures s.messages[i + 1].conversation == s.messages[i].conversation
  {
    hide Pairs;
    assert PairOk(s.messages, i - i % 2);
  }

  lemma KeyUnique(s: Store, user: Id, key: Key, i: nat, j: nat)
    requires Inv(s) && i < |s.messages| && j < |s.messages|
    requires Holds(s.messages[i], user, key) && Holds(s.messages[j], user, key)
    ensures i == j
  {
  }

  /** In every reachable state an idempotency key is used for at most one message of a user, and
      that message carries the content its fingerprint says. */
  lemma KeyTheorem(steps: seq<Step>, user: Id, key: Key, i: nat, j: nat)
    ensures var m := Run(steps).store.messages;
            && (i < |m| && j < |m| && Holds(m[i], user, key) && Holds(m[j], user, key) ==> i == j)
            && (i < |m| && m[i].role == User ==>
                  m[i].fingerprint.Some? && m[i].fingerprint.value.content == m[i].content
                      && m[i].fingerprint.value.conversation == m[i].conversation)
  {
    hide Run;
    hide Pairs;
    var s := Run(steps).store;
    if i < |s.messages| && j < |s.messages| && Holds(s.messages[i], user, key) && Holds(s.messages[j], user, key) {
      KeyUnique(s, user, key, i, j);
    }
    if i < |s.messages| {
      assert PairOk(s.messages, i - i % 2);
    }
  }

  // ---------------------------------------------------------------- what a reader may rely on

  /** `t` is a later state of the tables than `s`. */
  ghost predicate Later(s: Store, t: Store) {
    && Inv(s) && Inv(t) && s.messages <= t.messages && |s.conversations| <= |t.conversations|
    && (forall c | 0 <= c < |s.conversations| :: t.conversations[c].user == s.conversations[c].user)
    && (forall f: Flight :: FlightOk(s, f) ==> FlightOk(t, f))
  }

  lemma NextLater(st: State, step: Step)
    requires StateOk(st)
    ensures Later(st.store, Next(st, step).store)
  {
    NextKept(st, step);
    hide Inv;
    if step.Finish? && step.client in st.flights {
      FinishLater(st, step.client, step.reply);
    }
  }

  lemma FinishLater(st: State, client: Id, reply: Option<string>)
    requires StateOk(st) && client in st.flights
    ensures var n := Next(st, Finish(client, reply));
            && |st.store.conversations| == |n.store.conversations|
            && (forall c | 0 <= c < |st.store.conversations| ::
                  n.store.conversations[c].user == st.store.conversations[c].user)
            && (forall f: Flight :: FlightOk(st.store, f) ==> FlightOk(n.store, f))
  {
    hide Inv;
    hide CompleteSpec;
    var f := st.flights[client];
    var n := Next(st, Finish(client, reply));
    assert FlightOk(st.store, f);
    if Complete(st.store, f, reply).Ok? {
      CompleteKept(st.store, f, reply);
      assert n.store == st.store || Appended(st.store, n.store, f.user, f.conversation, f.request, reply);
    }
  }

  function After(st: State, steps: seq<Step>): State {
    if steps == [] then st else Next(After(st, steps[..|steps| - 1]), steps[|steps| - 1])
  }

  lemma {:induction false} AfterLater(st: State, steps: seq<Step>)
    requires StateOk(st)
    ensures StateOk(After(st, steps)) && Later(st.store, After(st, steps).store)
  {
    hide Inv;
    hide Next;
    hide FlightOk;
    if steps != [] {
      var before := After(st, steps[..|steps| - 1]);
      AfterLater(st, steps[..|steps| - 1]);
      NextLater(before, steps[|steps| - 1]);
      NextKept(before, steps[|steps| - 1]);
    }
  }

  // ---------------------------------------------------------------- the service

  /** The conversation and message tables. A raising call is rolled back. */
  class TextAssistantService {
    var conversations: seq<Conversation>
    var messages: seq<Message>

    constructor ()
      ensures View() == Store([], [])
    {
      conversations, messages := [], [];
    }

    function View(): Store
      reads this
    {
      Store(conversations, messages)
    }

    /** `create_conversation` */
    method CreateConversation(user: Id) returns (id: Id)
      modifies this`conversations
      ensures View() == CreateSpec(old(View()), user) && id == |old(conversations)|
    {
      conversations := conversations + [Conversation(user, 1, 1)];
      return |conversations| - 1;
    }

    /** `submit`, up to the point where the conversation row has been read. */
    method BeginSubmit(user: Id, conversation: Id, r: Request) returns (b: Outcome<Begun>)
      ensures b == BeginSpec(View(), user, conversation, r)
    {
      var existing := Existing(messages, user, r.key);
      if existing.Some? {
        if messages[existing.value].fingerprint != Some(FingerprintOf(conversation, r)) {
          return Raised(KeyConflict);
        }
        if !HasReply(messages, existing.value) {
          return Raised(Concurrent);
        }
        return Ok(Answered(existing.value));
      }
      if conversation >= |conversations| || conversations[conversation].user != user {
        return Raised(NotFound);
      }
      if conversations[conversation].version != r.expected {
        return Raised(Concurrent);
      }
      return Ok(Reading(conversations[conversation]));
    }

    /** `_reserve_message_pair` */
    method ReserveMessagePair(conversation: Id, expected: nat, seen: Conversation) returns (r: Outcome<nat>)
      modifies this`conversations
      ensures match ReserveSpec(old(View()), conversation, expected, seen)
              case Ok(s) => View() == s && r == Ok(seen.nextSequence)
              case Raised(e) => View() == old(View()) && r == Raised(e)
    {
      var sequence := seen.nextSequence;
      if conversation >= |conversations| || conversations[conversation].version != expected {
        return Raised(Concurrent);
      }
      conversations := conversations[conversation :=
          conversations[conversation].(version := expected + 1, nextSequence := sequence + 2)];
      return Ok(sequence);
    }

    /** `submit`, from the reservation on. */
    method CompleteSubmit(user: Id, conversation: Id, request: Request, seen: Conversation, reply: Option<string>)
      returns (r: Outcome<Id>)
      modifies this
      ensures match CompleteSpec(old(View()), user, conversation, request, seen, reply)
              case Ok((s, m)) => View() == s && r == Ok(m)
              case Raised(e) => View() == old(View()) && r == Raised(e)
    {
      var savedConversations, savedMessages := conversations, messages;
      var reserved := ReserveMessagePair(conversation, request.expected, seen);
      var existing := Existing(messages, user, request.key);
      if reserved.Raised? && existing.None? {
        return Raised(reserved.error);
      }
      if existing.Some? {
        if messages[existing.value].fingerprint != Some(FingerprintOf(conversation, request)) {
          r := Raised(KeyConflict);
        } else if !HasReply(messages, existing.value) {
          r := Raised(Concurrent);
        } else {
          return Ok(existing.value);
        }
        conversations := savedConversations;
        return;
      }
      var sequence := reserved.value;
      var id := |messages|;
      if SequenceTaken(messages, conversation, sequence) {
        conversations := savedConversations;
        return Raised(Concurrent);
      }
      messages := messages + [UserMessage(user, conversation, request, sequence)];
      if reply.None? {
        conversations, messages := savedConversations, savedMessages;
        return Raised(DispatchFailed);
      }
      if SequenceTaken(messages, conversation, sequence + 1) {
        conversations, messages := savedConversations, savedMessages;
        return Raised(ConstraintViolated);
      }
      messages := messages + [ReplyMessage(user, conversation, id, sequence + 1, reply.value)];
      return Ok(id);
    }
  }

  /** The service, with its clients' submissions overlapping in any way, reaches exactly the states
      of `Run`. */
  method Serve(steps: seq<Step>) returns (service: TextAssistantService, flights: map<Id, Flight>)
    ensures State(service.View(), flights) == Run(steps)
  {
    hide BeginSpec;
    hide CompleteSpec;
    hide StateOk;
    service := new TextAssistantService();
    flights := map[];
    for i := 0 to |steps|
      invariant fresh(service) && State(service.View(), flights) == Run(steps[..i])
    {
      assert steps[..i + 1][..i] == steps[..i];
      match steps[i] {
        case OpenConversation(user) =>
          var id := service.CreateConversation(user);
        case Begin(client, user, conversation, r) =>
          var begun := service.BeginSubmit(user, conversation, r);
          if begun.Ok? && begun.value.Reading? {
            flights := flights[client := Flight(user, conversation, r, begun.value.seen)];
          }
        case Finish(client, reply) =>
          if client in flights {
            var f := flights[client];
            var done := service.CompleteSubmit(f.user, f.conversation, f.request, f.seen, reply);
            flights := flights - {client};
          }
      }
    }
    assert steps[..|steps|] == steps;
  }
}
