/** What submitting a message does in every reachable state, spelled out on the rows: when it is
    answered from an earlier message, when it is refused and why, and the two messages it adds. */
module ConversationMeaning {
  import opened Common
  import opened Conversations

  /** `m` is the position of the user's message that holds the key. */
  ghost predicate HeldAt(s: Store, user: Id, key: Key, m: Id) {
    && m < |s.messages| && s.messages[m].user == user && s.messages[m].role == User && s.messages[m].key == Some(key)
  }

  ghost predicate Unheld(s: Store, user: Id, key: Key) {
    forall m: Id :: !HeldAt(s, user, key, m)
  }

  /** The message at `m` was sent by a request with the same content and options, to the same
      conversation. */
  ghost predicate SameRequest(s: Store, m: Id, conversation: Id, r: Request) {
    m < |s.messages| && s.messages[m].fingerprint == Some(Fingerprint(conversation, r.content, r.options))
  }

  ghost predicate Owns(s: Store, user: Id, conversation: Id) {
    conversation < |s.conversations| && s.conversations[conversation].user == user
  }

  /** What the reading half of a submission answers. */
  ghost predicate BeginMeans(s: Store, user: Id, conversation: Id, r: Request, b: Outcome<Begun>) {
    && (b == Raised(KeyConflict) <==>
          exists m: Id :: HeldAt(s, user, r.key, m) && !SameRequest(s, m, conversation, r))
    && (forall m: Id :: b == Ok(Answered(m)) <==> HeldAt(s, user, r.key, m) && SameRequest(s, m, conversation, r))
    && (b == Raised(NotFound) <==> Unheld(s, user, r.key) && !Owns(s, user, conversation))
    && (b == Raised(Concurrent) <==>
          && Unheld(s, user, r.key) && Owns(s, user, conversation)
          && s.conversations[conversation].version != r.expected)
    && (b.Ok? && b.value.Reading? <==>
          && Unheld(s, user, r.key) && Owns(s, user, conversation)
          && s.conversations[conversation].version == r.expected)
    && (b.Ok? && b.value.Reading? ==> b.value.seen == s.conversations[conversation])
    && b != Raised(DispatchFailed) && b != Raised(ConstraintViolated)
  }

  /** The two messages a submission adds at the end, and the conversation it moves on. The user's
      message carries the request, the next one carries the handler's answer to it. */
  ghost predicate PairAdded(s: Store, t: Store, user: Id, conversation: Id, r: Request, answer: string) {
    var n := |s.messages|;
    && conversation < |s.conversations| && |t.conversations| == |s.conversations|
    && (forall c | 0 <= c < |s.conversations| && c != conversation :: t.conversations[c] == s.conversations[c])
    && var before, after := s.conversations[conversation], t.conversations[conversation];
       && after.user == before.user && after.version == before.version + 1
       && after.nextSequence == before.nextSequence + 2
       && |t.messages| == n + 2 && (forall i | 0 <= i < n :: t.messages[i] == s.messages[i])
       && var m, a := t.messages[n], t.messages[n + 1];
          && m.role == User && m.content == r.content && m.key == Some(r.key) && m.replyTo.None?
          && m.fingerprint == Some(Fingerprint(conversation, r.content, r.options))
          && a.role == Assistant && a.content == answer && a.replyTo == Some(n)
          && a.key.None? && a.fingerprint.None?
          && m.user == user && a.user == user && m.conversation == conversation && a.conversation == conversation
          && m.sequence == before.nextSequence && a.sequence == before.nextSequence + 1
  }

  /** What the writing half answers, in whatever state the tables are by then. */
  ghost predicate CompleteMeans(s: Store, f: Flight, reply: Option<string>, done: Outcome<(Store, Id)>)
    requires f.conversation < |s.conversations|
  {
    var r := f.request; var moved := s.conversations[f.conversation].version != r.expected;
    && (done == Raised(KeyConflict) <==>
          exists m: Id :: HeldAt(s, f.user, r.key, m) && !SameRequest(s, m, f.conversation, r))
    && (forall m: Id :: HeldAt(s, f.user, r.key, m) && SameRequest(s, m, f.conversation, r) ==> done == Ok((s, m)))
    && (done == Raised(Concurrent) <==> Unheld(s, f.user, r.key) && moved)
    && (done == Raised(DispatchFailed) <==> Unheld(s, f.user, r.key) && !moved && reply.None?)
    && (Unheld(s, f.user, r.key) && !moved && reply.Some? ==>
          && done.Ok? && done.value.1 == |s.messages|
          && PairAdded(s, done.value.0, f.user, f.conversation, r, reply.value))
    && done != Raised(NotFound) && done != Raised(ConstraintViolated)
  }

  // ---------------------------------------------------------------- proofs

  /** A message that holds a key is the one the lookup finds. */
  lemma HolderFound(s: Store, user: Id, key: Key)
    requires Inv(s)
    ensures Existing(s.messages, user, key).None? <==> Unheld(s, user, key)
    ensures forall m: Id :: HeldAt(s, user, key, m) <==> Existing(s.messages, user, key) == Some(m)
  {
    hide PairOk;
    hide Pairs;
    forall m: Id ensures HeldAt(s, user, key, m) <==> Existing(s.messages, user, key) == Some(m) {
      if HeldAt(s, user, key, m) {
        assert Holds(s.messages[m], user, key);
        KeyUnique(s, user, key, m, Existing(s.messages, user, key).value);
      }
    }
    if Existing(s.messages, user, key).Some? {
      assert HeldAt(s, user, key, Existing(s.messages, user, key).value);
    }
  }

  lemma ReplyThere(s: Store, m: Id)
    requires Inv(s) && m < |s.messages| && s.messages[m].role == User
    ensures HasReply(s.messages, m)
  {
    hide Pairs;
    assert PairOk(s.messages, m - m % 2);
    assert s.messages[m + 1].replyTo == Some(m);
  }

  lemma BeginSpelled(s: Store, user: Id, conversation: Id, r: Request)
    requires Inv(s)
    ensures BeginMeans(s, user, conversation, r, BeginSpec(s, user, conversation, r))
  {
    HolderFound(s, user, r.key);
    var existing := Existing(s.messages, user, r.key);
    if existing.Some? {
      ReplyThere(s, existing.value);
      assert HeldAt(s, user, r.key, existing.value);
    }
    hide Inv;
    hide HasReply;
    hide Existing;
  }

  /** A sequence number from the next one on is never taken. */
  lemma SequenceFree(s: Store, conversation: Id, sequence: nat)
    requires Inv(s) && conversation < |s.conversations| && s.conversations[conversation].nextSequence <= sequence
    ensures !SequenceTaken(s.messages, conversation, sequence)
  {
    forall i | 0 <= i < |s.messages| && s.messages[i].conversation == conversation
      ensures s.messages[i].sequence < sequence
    {
      var k := i - i % 2;
      assert PairOk(s.messages, k);
      assert RowOk(s.conversations[conversation]);
      PairsMonotone(s.messages, k, conversation);
    }
  }

  lemma CompleteSpelled(s: Store, f: Flight, reply: Option<string>)
    requires Inv(s) && FlightOk(s, f)
    ensures CompleteMeans(s, f, reply, Complete(s, f, reply))
  {
    var existing := Existing(s.messages, f.user, f.request.key);
    HolderFound(s, f.user, f.request.key);
    assert RowOk(s.conversations[f.conversation]);
    if existing.Some? {
      ReplyThere(s, existing.value);
      HeldCompletes(s, f, reply, existing.value);
    } else {
      FreeCompletes(s, f, reply);
    }
  }

  /** A message that holds the key answers; it was not sent to the conversation if that has not moved. */
  lemma HeldCompletes(s: Store, f: Flight, reply: Option<string>, m: Id)
    requires Inv(s) && FlightOk(s, f) && Existing(s.messages, f.user, f.request.key) == Some(m)
    requires HasReply(s.messages, m)
    requires forall k: Id :: HeldAt(s, f.user, f.request.key, k) <==> k == m
    ensures CompleteMeans(s, f, reply, Complete(s, f, reply))
  {
    hide HasReply;
    hide Existing;
    hide Pairs;
    assert HeldAt(s, f.user, f.request.key, m);
    assert Holds(s.messages[m], f.user, f.request.key);
    assert PairOk(s.messages, m - m % 2);
    var same := SameRequest(s, m, f.conversation, f.request);
    if same {
      assert Complete(s, f, reply) == Ok((s, m));
    } else {
      assert Complete(s, f, reply) == Raised(KeyConflict);
    }
    hide Inv;
    hide CompleteSpec;
  }

  lemma FreeCompletes(s: Store, f: Flight, reply: Option<string>)
    requires Inv(s) && FlightOk(s, f) && Existing(s.messages, f.user, f.request.key).None?
    requires Unheld(s, f.user, f.request.key) && RowOk(s.conversations[f.conversation])
    ensures CompleteMeans(s, f, reply, Complete(s, f, reply))
  {
    if s.conversations[f.conversation].version == f.request.expected {
      SequenceFree(s, f.conversation, f.seen.nextSequence);
      SequenceFree(s, f.conversation, f.seen.nextSequence + 1);
    }
    hide Inv;
    hide Existing;
  }

  // ---------------------------------------------------------------- theorems

  /** Reading and writing, in every reachable state of overlapping submissions: a submission is
      refused exactly for the stated reason, answered by the message that holds its key if that was
      the same request, and otherwise adds its message and the handler's answer. */
  lemma SubmitTheorem(steps: seq<Step>, user: Id, conversation: Id, r: Request, client: Id, reply: Option<string>)
    ensures var st := Run(steps);
            && BeginMeans(st.store, user, conversation, r, BeginSpec(st.store, user, conversation, r))
            && (client in st.flights ==>
                  && st.flights[client].conversation < |st.store.conversations|
                  && CompleteMeans(st.store, st.flights[client], reply,
                                   Complete(st.store, st.flights[client], reply)))
  {
    hide Run;
    hide Inv;
    hide BeginMeans;
    hide CompleteMeans;
    hide BeginSpec;
    hide Complete;
    var st := Run(steps);
    BeginSpelled(st.store, user, conversation, r);
    if client in st.flights {
      CompleteSpelled(st.store, st.flights[client], reply);
    }
  }

  /** Opening a conversation in every reachable state adds one row, of the user, at version 1. */
  lemma OpenTheorem(steps: seq<Step>, user: Id)
    ensures var st, n := Run(steps), Run(steps + [OpenConversation(user)]);
            && n.flights == st.flights && n.store.messages == st.store.messages
            && |n.store.conversations| == |st.store.conversations| + 1
            && (forall c | 0 <= c < |st.store.conversations| :: n.store.conversations[c] == st.store.conversations[c])
            && n.store.conversations[|st.store.conversations|] == Conversation(user, 1, 1)
  {
    hide StateOk;
    assert (steps + [OpenConversation(user)])[..|steps|] == steps;
  }
}
