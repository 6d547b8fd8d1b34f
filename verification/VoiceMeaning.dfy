/** What the calls on a voice session do in every reachable state, spelled out on the columns of the
    session: whom a stream is opened for and what is committed, and what the other calls answer. */
module VoiceMeaning {
  import opened Common
  import opened VoiceSession
  import opened VoiceProtocol
  import opened VoiceRuns
  import opened ConversationMeaning
  import Conversations

  // ---------------------------------------------------------------- opening

  /** The session has neither ended nor failed, and its time is not over. */
  predicate Alive(p: Policy, s: Session, now: Time) {
    s.state != Ended && s.state != Failed && now < s.startedAt + p.maxSession
  }

  /** The credential is the stored one and current, and the identity behind it is still valid. */
  predicate Entitled(s: Session, now: Time, credential: string, identityOk: bool) {
    credential == s.credential && now < s.credentialExpires && identityOk
  }

  /** A connection that was active within the idle timeout. */
  predicate InUse(p: Policy, s: Session, now: Time) {
    s.connection.Some? && now < s.lastActivity + p.idleTimeout
  }

  predicate OutOfReconnects(p: Policy, s: Session) {
    s.connectedAt.Some? && s.reconnects >= p.maxReconnects
  }

  /** Whom a stream is opened for. */
  predicate Admits(p: Policy, s: Session, now: Time, credential: string, identityOk: bool) {
    Entitled(s, now, credential, identityOk) && Alive(p, s, now) && !InUse(p, s, now) && !OutOfReconnects(p, s)
  }

  /** The session of an opened stream: LISTENING on the next connection, a reconnection counted
      unless it is the first, and everything the caller was entitled by left alone. */
  ghost predicate Opened(s: Session, t: Session, now: Time) {
    && t.state == Listening && t.connection == Some(s.opens + 1) && t.opens == s.opens + 1
    && t.reconnects == (if s.connectedAt.Some? then s.reconnects + 1 else s.reconnects)
    && t.connectedAt == Some(now) && t.lastActivity == now && t.version == s.version + 1
    && t.user == s.user && t.conversation == s.conversation && t.startedAt == s.startedAt
    && t.credential == s.credential && t.credentialExpires == s.credentialExpires
  }

  /** Every failing case of opening and its error. */
  ghost predicate Refusal(p: Policy, s: Session, now: Time, credential: string, identityOk: bool, e: Error) {
    var alive := Entitled(s, now, credential, identityOk) && Alive(p, s, now);
    && (e == AuthFailed <==> credential != s.credential)
    && (e == IdentityInvalid <==> credential == s.credential && now < s.credentialExpires && !identityOk)
    && (e == SessionExpired <==>
          || (credential == s.credential && s.credentialExpires <= now)
          || (Entitled(s, now, credential, identityOk) && !Alive(p, s, now)))
    && (e == SessionConflict <==> alive && InUse(p, s, now))
    && (e == ReconnectExhausted <==> alive && !InUse(p, s, now) && OutOfReconnects(p, s))
  }

  /** What a refused opening leaves in the transaction: a session past its time has FAILED, one out of
      reconnections has FAILED and lost its idle connection, any other is as before. */
  ghost predicate Refused(p: Policy, s: Session, t: Session, now: Time, credential: string, identityOk: bool) {
    if !Entitled(s, now, credential, identityOk) || s.state == Ended || s.state == Failed then t == s
    else if !Alive(p, s, now) then t == s.(state := Failed)
    else if InUse(p, s, now) then t == s
    else t == s.(state := Failed, connection := None)
  }

  /** Opening, on any session an invariant of the runs holds of. */
  lemma OpenSpelled(p: Policy, d: Data, now: Time, credential: string, identityOk: bool)
    requires SessionOk(p, d.session)
    ensures var r := OpenSpec(p, d, now, credential, identityOk); var s := d.session; var t := r.data.session;
            && r.data == d.(session := t)
            && (r.result.Ok? <==> Admits(p, s, now, credential, identityOk))
            && (r.result.Ok? ==> r.result == Ok(s.opens + 1) && Opened(s, t, now))
            && (r.result.Raised? ==> Refusal(p, s, now, credential, identityOk, r.result.error)
                                     && Refused(p, s, t, now, credential, identityOk))
  {
  }

  /** In every reachable state a stream is opened exactly for a caller with the stored, current
      credential and a valid identity, on a session that is alive, not in use by an active connection
      and not out of reconnections; every refusal has the error of the first thing that is missing. */
  lemma OpenTheorem(p: Policy, o: Opening, steps: seq<Step>, now: Time, credential: string, identityOk: bool)
    requires Startable(o)
    ensures var d := Run(p, o, steps).data; var s := d.session;
            var r := OpenSpec(p, d, now, credential, identityOk); var t := r.data.session;
            && r.data == d.(session := t)
            && (r.result.Ok? <==> Admits(p, s, now, credential, identityOk))
            && (r.result.Ok? ==> r.result == Ok(s.opens + 1) && Opened(s, t, now))
            && (r.result.Raised? ==> Refusal(p, s, now, credential, identityOk, r.result.error)
                                     && Refused(p, s, t, now, credential, identityOk))
  {
    hide Run;
    hide OpenSpec;
    OpenSpelled(p, Run(p, o, steps).data, now, credential, identityOk);
  }

  /** What the stream handler commits. A stream is accepted exactly if it was opened, the provider is
      reached and the session is still in time afterwards. */
  lemma AcceptTheorem(p: Policy, o: Opening, steps: seq<Step>, credential: string, identityOk: bool,
      providerOk: bool, now: Time, later: Time)
    requires Startable(o)
    ensures var w := Run(p, o, steps); var s := w.data.session;
            var n := Next(p, w, Connect(credential, identityOk, providerOk, now, later));
            var t := n.data.session; var c := s.opens + 1;
            var admitted := Admits(p, s, now, credential, identityOk);
            && n.data == w.data.(session := t) && n.flights == w.flights
            && (c in n.streams <==> admitted && providerOk && later < s.startedAt + p.maxSession)
            && (c in n.streams ==>
                  n.streams == w.streams[c := Coordinator(c, map[], None, false)] && Opened(s, t, now))
            && (c !in n.streams ==> n.streams == w.streams)
            && (!admitted ==> Refused(p, s, t, now, credential, identityOk))
            && (admitted && !providerOk ==> t == s)
            && (admitted && providerOk && c !in n.streams ==>
                  t.state == Failed && Opened(s, t.(state := Listening), now))
  {
    hide Run;
    hide OpenSpec;
    hide Conversations.StateOk;
    var w := Run(p, o, steps);
    OpenSpelled(p, w.data, now, credential, identityOk);
    assert forall c | c in w.streams :: Coupled(w.data, w.streams[c]);
  }

  // ---------------------------------------------------------------- the other calls

  /** A connection is let go of: the session is left alone unless the connection is its current
      one; it goes to `target` unless it is over. */
  ghost predicate Released(d: Data, e: Data, c: Id, target: State, now: Time) {
    if d.session.connection != Some(c) then e == d
    else
      e == d.(session := d.session.(
        state := if d.session.state == Ended || d.session.state == Failed then d.session.state else target,
        connection := None, lastActivity := now, version := d.session.version + 1))
  }

  lemma LeaveSpelled(p: Policy, d: Data, c: Id, end: bool, now: Time)
    requires SessionOk(p, d.session)
    ensures Released(d, DisconnectSpec(d, c, end, now).data, c, if end then Ended else Reconnecting, now)
    ensures Released(d, FailSpec(d, c, now).data, c, Failed, now)
    ensures DisconnectSpec(d, c, end, now).result.Ok? && FailSpec(d, c, now).result.Ok?
  {
  }

  /** What idle timeouts, lost clients, crashes, ending and refreshing commit in every reachable state. */
  lemma LeaveTheorem(p: Policy, o: Opening, steps: seq<Step>, c: Id, now: Time, credential: string, expires: Time)
    requires Startable(o)
    ensures var w := Run(p, o, steps); var s := w.data.session;
            var idle, gone := Next(p, w, IdleTimeout(c, now)), Next(p, w, ClientGone(c, now));
            var crashed, ended := Next(p, w, Crash(c)), Next(p, w, EndCall);
            var refreshed := Next(p, w, RefreshCall(now, credential, expires));
            && (c in w.streams ==> Released(w.data, idle.data, c, Ended, now) && idle.streams == w.streams - {c})
            && (c in w.streams ==> Released(w.data, gone.data, c, Reconnecting, now) && gone.streams == w.streams - {c})
            && crashed.data == w.data && crashed.streams == w.streams - {c}
            && ended.streams == w.streams && ended.data == w.data.(session :=
                 if s.state == Ended || s.state == Failed then s
                 else s.(state := Ended, connection := None, version := s.version + 1))
            && refreshed.streams == w.streams && refreshed.data == w.data.(session :=
                 if Alive(p, s, now) && now < expires
                 then s.(credential := credential, credentialExpires := expires, version := s.version + 1)
                 else s)
  {
    hide Run;
    hide Conversations.StateOk;
    var w := Run(p, o, steps);
    LeaveSpelled(p, w.data, c, true, now);
    LeaveSpelled(p, w.data, c, false, now);
  }

  /** The answer to a refresh. */
  lemma RefreshAnswer(p: Policy, d: Data, now: Time, credential: string, expires: Time)
    ensures var r := RefreshSpec(p, d, now, credential, expires).result;
            && (r.Ok? <==> Alive(p, d.session, now) && now < expires)
            && (r.Raised? ==> r.error == if Alive(p, d.session, now) then AuthFailed else SessionExpired)
  {
  }

  /** What a call that names a connection meets before anything else: another connection is refused
      and commits nothing, a session that is over or past its time is expired. */
  ghost predicate Barred(p: Policy, d: Data, e: Data, connection: Id, now: Time, error: Error) {
    && (error == AuthFailed <==> d.session.connection != Some(connection))
    && (error == SessionExpired <==> d.session.connection == Some(connection) && !Alive(p, d.session, now))
    && (error == AuthFailed || error == SessionExpired)
    && e == d.(session := if error == SessionExpired && d.session.state != Ended then d.session.(state := Failed)
                          else d.session)
  }

  /** The session goes back to LISTENING; rows of turns and messages stay. */
  ghost predicate Quieted(d: Data, e: Data, now: Time) {
    e == d.(session := d.session.(state := Listening, lastActivity := now, version := d.session.version + 1))
  }

  /** The client events other than audio, on a stream whose coordinator was opened: the answer, the
      events sent, the coordinator and the rows. */
  lemma EventTheorem(p: Policy, o: Opening, steps: seq<Step>, c: Id, turn: string, a: Ambient)
    requires Startable(o)
    ensures var w := Run(p, o, steps);
            c in w.streams ==>
              var d, k := w.data, w.streams[c];
              && InterruptMeans(p, d, k, turn, a, HandleSpec(p, d, k, InterruptTurn(turn), a))
              && PlaybackMeans(p, d, k, turn, a, HandleSpec(p, d, k, PlaybackDone(turn), a))
              && EndMeans(d, k, a, HandleSpec(p, d, k, EndSession, a))
  {
    hide Run;
    hide HandleSpec;
    hide SessionOk;
    hide Coupled;
    hide Conversations.StateOk;
    hide InterruptMeans;
    hide PlaybackMeans;
    hide EndMeans;
    var w := Run(p, o, steps);
    if c in w.streams {
      assert Coupled(w.data, w.streams[c]);
      assert turn in w.data.turns ==> TurnOk(w.data, turn);
      EventSpelled(p, w.data, w.streams[c], turn, a);
    }
  }

  ghost predicate InterruptMeans(p: Policy, d: Data, c: Coordinator, turn: string, a: Ambient, h: Handled) {
    var current := d.session.connection == Some(c.connection) && Alive(p, d.session, a.now);
    if c.turn != Some(turn) then h == Handled(d, c, Raised(Malformed))
    else if !a.interruptOk then h == Handled(d, c, Raised(ProviderFailed))
    else if current then
      && h.result == Ok([InterruptSent(turn), StateSent(Listening)])
      && h.coordinator == c.(turn := None) && Quieted(d, h.data, a.now)
    else
      && h.result.Raised? && h.result.error.Rejected? && h.coordinator == c
      && Barred(p, d, h.data, c.connection, a.now, h.result.error.error)
  }

  ghost predicate PlaybackMeans(p: Policy, d: Data, c: Coordinator, turn: string, a: Ambient, h: Handled) {
    var current := d.session.connection == Some(c.connection) && Alive(p, d.session, a.now);
    if c.turn != Some(turn) then h == Handled(d, c, Raised(Malformed))
    else if current then
      && h.result == Ok([StateSent(Listening)])
      && h.coordinator == c.(turn := None) && Quieted(d, h.data, a.now)
    else
      && h.result.Raised? && h.result.error.Rejected? && h.coordinator == c
      && Barred(p, d, h.data, c.connection, a.now, h.result.error.error)
  }

  ghost predicate EndMeans(d: Data, c: Coordinator, a: Ambient, h: Handled) {
    && h.coordinator == c.(ended := true)
    && (if a.closeOk then h.result == Ok([StateSent(Ended)]) && Released(d, h.data, c.connection, Ended, a.now)
        else h.result == Raised(ProviderFailed) && h.data == d)
  }

  lemma EventSpelled(p: Policy, d: Data, c: Coordinator, turn: string, a: Ambient)
    requires SessionOk(p, d.session) && Coupled(d, c)
    requires turn in d.turns ==> d.turns[turn].status == TurnCompleted
    ensures InterruptMeans(p, d, c, turn, a, HandleSpec(p, d, c, InterruptTurn(turn), a))
    ensures PlaybackMeans(p, d, c, turn, a, HandleSpec(p, d, c, PlaybackDone(turn), a))
    ensures EndMeans(d, c, a, HandleSpec(p, d, c, EndSession, a))
  {
    hide AudioSpec;
  }

  // ---------------------------------------------------------------- turns

  /** The request a turn submits, at the version of the conversation that was read. */
  function Asked(d: Data, read: Conversations.Store, turn: string, text: string): Conversations.Request
    requires d.session.conversation < |read.conversations|
  {
    Conversations.Request(text, "voice", Conversations.VoiceKey(d.id, turn),
                          read.conversations[d.session.conversation].version)
  }

  /** The conversation has messages of others since it was read. */
  ghost predicate MovedOn(d: Data, read: Conversations.Store) {
    && d.session.conversation < |read.conversations| && d.session.conversation < |d.chat.conversations|
    && d.chat.conversations[d.session.conversation].version != read.conversations[d.session.conversation].version
  }

  /** A message with the turn's key is on record, sent by the same request. */
  ghost predicate Known(d: Data, q: Conversations.Request, m: Id) {
    && HeldAt(d.chat, d.session.user, q.key, m) && SameRequest(d.chat, m, d.session.conversation, q)
  }

  /** A new turn was answered by message `m`: an earlier one, or the first of a pair it added. */
  ghost predicate Sent(d: Data, chat: Conversations.Store, q: Conversations.Request, reply: Option<string>, m: Id) {
    || (Known(d, q, m) && chat == d.chat)
    || (&& Unheld(d.chat, d.session.user, q.key) && reply.Some? && m == |d.chat.messages|
        && PairAdded(d.chat, chat, d.session.user, d.session.conversation, q, reply.value))
  }

  /** A new turn can be sent: its message is known, or its key is free, nobody else wrote to the
      conversation meanwhile and the assistant answers. */
  ghost predicate Sendable(d: Data, read: Conversations.Store, q: Conversations.Request, reply: Option<string>) {
    || (exists m: Id :: Known(d, q, m))
    || (Unheld(d.chat, d.session.user, q.key) && !MovedOn(d, read) && reply.Some?)
  }

  /** A turn that is not on record, on a session that listens. */
  ghost predicate NewTurnMeans(d: Data, turn: string, text: string, input: TurnInput, now: Time, r: Reply<bool>)
    requires d.session.conversation < |input.read.conversations|
  {
    var q := Asked(d, input.read, turn, text);
    if Sendable(d, input.read, q, input.reply) then
      && r.result == Ok(false)
      && r.data.id == d.id && r.data.session == d.session.(state := Speaking, lastActivity := now,
                                                           version := d.session.version + 1)
      && (exists m: Id :: Sent(d, r.data.chat, q, input.reply, m)
                          && r.data.turns == d.turns[turn := Turn(text, TurnCompleted, Some(m))])
    else r == Reply(d, Raised(ChatFailed))
  }

  /** What `finalize_turn` answers and writes. */
  ghost predicate TurnMeans(p: Policy, d: Data, c: Id, turn: string, text: string, input: TurnInput, now: Time,
      r: Reply<bool>)
    requires d.session.conversation < |input.read.conversations|
  {
    if d.session.connection != Some(c) || !Alive(p, d.session, now) then
      r.result.Raised? && Barred(p, d, r.data, c, now, r.result.error)
    else if !input.identityOk then r == Reply(d, Raised(IdentityInvalid))
    else if turn in d.turns then
      if d.turns[turn].transcript != text then r == Reply(d, Raised(TurnConflict))
      else r == Reply(d.(session := d.session.(lastActivity := now, version := d.session.version + 1)), Ok(true))
    else if d.session.state == Speaking then r == Reply(d, Raised(InvalidTransition))
    else NewTurnMeans(d, turn, text, input, now, r)
  }

  /** Submitting early and writing late. */
  lemma SubmitSpelled(d: Data, flights: map<Id, Conversations.Flight>, read: Conversations.Store, turn: string,
      text: string, reply: Option<string>)
    requires Conversations.StateOk(Conversations.State(d.chat, flights)) && Conversations.Later(read, d.chat)
    requires Owns(read, d.session.user, d.session.conversation)
    ensures var q := Asked(d, read, turn, text);
            var sent := SubmitSpec(read, d.chat, d.session.user, d.session.conversation, q, reply);
            && (sent.Ok? <==> Sendable(d, read, q, reply))
            && (sent.Ok? ==> Sent(d, sent.value.0, q, reply, sent.value.1))
  {
    hide Conversations.Later;
    hide Conversations.Inv;
    var q := Asked(d, read, turn, text);
    var user, conversation := d.session.user, d.session.conversation;
    assert Conversations.Inv(read) by {
      LaterOk(read, d.chat);
    }
    BeginSpelled(read, user, conversation, q);
    HolderFound(read, user, q.key);
    var held := Conversations.Existing(read.messages, user, q.key);
    if held.Some? {
      HeldEarly(d, read, q, reply, held.value);
    } else {
      ReadEarly(d, read, q, reply);
    }
  }

  lemma LaterOk(s: Conversations.Store, t: Conversations.Store)
    requires Conversations.Later(s, t)
    ensures Conversations.Inv(s) && Conversations.Inv(t) && s.messages <= t.messages
  {
  }

  /** The key was held when the submission read: it still is, by the same message. */
  lemma HeldEarly(d: Data, read: Conversations.Store, q: Conversations.Request, reply: Option<string>, m: Id)
    requires Conversations.Later(read, d.chat) && HeldAt(read, d.session.user, q.key, m)
    requires BeginMeans(read, d.session.user, d.session.conversation, q,
                        Conversations.BeginSpec(read, d.session.user, d.session.conversation, q))
    ensures var sent := SubmitSpec(read, d.chat, d.session.user, d.session.conversation, q, reply);
            && (sent.Ok? <==> Sendable(d, read, q, reply))
            && (sent.Ok? ==> Sent(d, sent.value.0, q, reply, sent.value.1))
  {
    LaterOk(read, d.chat);
    hide Conversations.Later;
    hide Conversations.BeginSpec;
    hide Conversations.CompleteSpec;
    HolderFound(d.chat, d.session.user, q.key);
    hide Conversations.Inv;
    hide Conversations.Existing;
    assert HeldAt(d.chat, d.session.user, q.key, m);
    var same := SameRequest(read, m, d.session.conversation, q);
    assert same <==> Known(d, q, m);
    assert forall k: Id :: Known(d, q, k) ==> k == m;
  }

  /** The key was free when the submission read. */
  lemma ReadEarly(d: Data, read: Conversations.Store, q: Conversations.Request, reply: Option<string>)
    requires Conversations.Later(read, d.chat) && Owns(read, d.session.user, d.session.conversation)
    requires Unheld(read, d.session.user, q.key) && q.expected == read.conversations[d.session.conversation].version
    ensures var sent := SubmitSpec(read, d.chat, d.session.user, d.session.conversation, q, reply);
            && (sent.Ok? <==> Sendable(d, read, q, reply))
            && (sent.Ok? ==> Sent(d, sent.value.0, q, reply, sent.value.1))
  {
    LaterOk(read, d.chat);
    var user, conversation := d.session.user, d.session.conversation;
    var f := Conversations.Flight(user, conversation, q, read.conversations[conversation]);
    RowsOk(read, conversation);
    BeginSpelled(read, user, conversation, q);
    hide Conversations.BeginSpec;
    hide Conversations.CompleteSpec;
    hide Conversations.Inv;
    assert forall i | 0 <= i < |read.messages| :: Conversations.Holds(read.messages[i], user, q.key) ==>
        HeldAt(read, user, q.key, i);
    assert Conversations.FlightOk(read, f);
    assert Conversations.FlightOk(d.chat, f);
    CompleteSpelled(d.chat, f, reply);
    HolderFound(d.chat, user, q.key);
    CompleteSends(d, read, f, reply);
  }

  lemma CompleteSends(d: Data, read: Conversations.Store, f: Conversations.Flight, reply: Option<string>)
    requires f.user == d.session.user && f.conversation == d.session.conversation
    requires f.conversation < |d.chat.conversations| && f.conversation < |read.conversations|
    requires f.request.expected == read.conversations[f.conversation].version
    requires CompleteMeans(d.chat, f, reply, Conversations.Complete(d.chat, f, reply))
    requires Unheld(d.chat, f.user, f.request.key) || exists m: Id :: HeldAt(d.chat, f.user, f.request.key, m)
    ensures var sent := Conversations.Complete(d.chat, f, reply);
            && (sent.Ok? <==> Sendable(d, read, f.request, reply))
            && (sent.Ok? ==> Sent(d, sent.value.0, f.request, reply, sent.value.1))
  {
    hide Conversations.Complete;
    hide PairAdded;
    if !Unheld(d.chat, f.user, f.request.key) {
      var m: Id :| HeldAt(d.chat, f.user, f.request.key, m);
      assert Known(d, f.request, m) <==> SameRequest(d.chat, m, f.conversation, f.request);
    }
  }

  lemma TurnSpelled(p: Policy, d: Data, flights: map<Id, Conversations.Flight>, c: Id, turn: string, text: string,
      input: TurnInput, now: Time)
    requires DataOk(p, d, flights) && Conversations.Later(input.read, d.chat)
    requires Owns(input.read, d.session.user, d.session.conversation)
    requires turn in d.turns ==> SubmitAnswers(d, input, turn)
    ensures TurnMeans(p, d, c, turn, text, input, now, TurnSpec(p, d, c, turn, text, input, now))
  {
    hide Conversations.Later;
    hide Conversations.StateOk;
    hide SubmitSpec;
    if turn in d.turns {
      assert TurnOk(d, turn);
      assert d.turns[turn := d.turns[turn]] == d.turns;
    } else {
      SubmitSpelled(d, flights, input.read, turn, text, input.reply);
      hide Sendable;
      hide Sent;
    }
  }

  /** Submitting a recorded turn again is answered by its message. */
  ghost predicate SubmitAnswers(d: Data, input: TurnInput, turn: string) {
    && turn in d.turns && d.turns[turn].message.Some? && d.session.conversation < |input.read.conversations|
    && SubmitSpec(input.read, d.chat, d.session.user, d.session.conversation,
                  Asked(d, input.read, turn, d.turns[turn].transcript), input.reply)
       == Ok((d.chat, d.turns[turn].message.value))
  }

  lemma RecordedAnswers(p: Policy, read: Data, readFlights: map<Id, Conversations.Flight>, d: Data,
      flights: map<Id, Conversations.Flight>, turn: string, input: TurnInput)
    requires DataOk(p, read, readFlights) && DataOk(p, d, flights) && d == read.(chat := d.chat) && turn in d.turns
    requires input.read == read.chat
    ensures SubmitAnswers(d, input, turn)
  {
    RecordedTurn(p, d, flights, turn);
    RecordedTurn(p, read, readFlights, turn);
    hide Conversations.CompleteSpec;
    hide Conversations.StateOk;
    hide Conversations.HasReply;
    assert Conversations.Existing(read.chat.messages, d.session.user, Conversations.VoiceKey(d.id, turn)) ==
        d.turns[turn].message;
  }

  /** A final transcript in every reachable state, with text clients committing between the moment it
      reads the conversation and the moment it writes: the answer, and the rows it leaves. */
  lemma FinalTheorem(p: Policy, o: Opening, steps: seq<Step>, between: seq<Conversations.Step>, c: Id, turn: string,
      text: string, input: TurnInput, now: Time)
    requires Startable(o)
    ensures var w := Run(p, o, steps);
            var d := TextSteps(w, between).data; var met := input.(read := w.data.chat);
            && d.session.conversation < |met.read.conversations|
            && TurnMeans(p, d, c, turn, text, met, now, TurnSpec(p, d, c, turn, text, met, now))
  {
    hide Run;
    hide TextSteps;
    hide TurnSpec;
    hide TurnMeans;
    hide Coupled;
    hide Conversations.StateOk;
    hide Conversations.Later;
    var w := Run(p, o, steps);
    var met := input.(read := w.data.chat);
    TextKept(p, w, between);
    var n := TextSteps(w, between);
    if turn in n.data.turns {
      RecordedAnswers(p, w.data, w.flights, n.data, n.flights, turn, met);
    }
    hide DataOk;
    TurnSpelled(p, n.data, n.flights, c, turn, text, met, now);
  }
}
