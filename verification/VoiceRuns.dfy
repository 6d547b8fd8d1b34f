/** Every run of one voice session: streams that connect, handle events, time out, vanish and
    crash, HTTP calls that refresh or end the session, and text clients on the same conversations. */
module VoiceRuns {
  import opened Common
  import opened VoiceSession
  import opened VoiceProtocol
  import Conversations

  /** The committed rows, the text submissions in flight and the coordinators of live streams. */
  datatype World = World(data: Data, flights: map<Id, Conversations.Flight>, streams: map<Id, Coordinator>)

  datatype Step =
    | Connect(credential: string, identityOk: bool, providerOk: bool, now: Time, later: Time)
    | Receive(connection: Id, payload: Option<ClientEvent>, ambient: Ambient, between: seq<Conversations.Step>)
    | IdleTimeout(connection: Id, now: Time)
    | ClientGone(connection: Id, now: Time)
    | Crash(connection: Id)
    | EndCall
    | RefreshCall(now: Time, credential: string, expires: Time)
    | TextClient(step: Conversations.Step)

  // ---------------------------------------------------------------- steps

  /** The stream handler up to its first event. */
  function ConnectStep(p: Policy, w: World, credential: string, identityOk: bool, providerOk: bool, now: Time,
      later: Time): World {
    var (data, c) := AcceptSpec(p, w.data, credential, identityOk, providerOk, now, later);
    w.(data := data,
       streams := if c.Some? then w.streams[c.value := Coordinator(c.value, map[], None, false)] else w.streams)
  }

  /** One payload. Text clients may commit between the moment a turn reads the conversation and the
      moment it writes to it; other voice calls may not, as the session row is locked. */
  function ReceiveStep(p: Policy, w: World, c: Id, payload: Option<ClientEvent>, a: Ambient,
      between: seq<Conversations.Step>): World {
    var w1 := TextSteps(w, between);
    if c !in w.streams then w1
    else
      var h := ReceiveSpec(p, w1.data, w.streams[c], payload, a.(turn := a.turn.(read := w.data.chat)));
      World(h.data, w1.flights,
            if h.result.Ok? && !h.coordinator.ended then w.streams[c := h.coordinator] else w.streams - {c})
  }

  function LeaveStep(w: World, c: Id, end: bool, now: Time): World {
    if c !in w.streams then w else w.(data := DisconnectSpec(w.data, c, end, now).data, streams := w.streams - {c})
  }

  function RefreshStep(p: Policy, w: World, now: Time, credential: string, expires: Time): World {
    var r := RefreshSpec(p, w.data, now, credential, expires);
    if r.result.Ok? then w.(data := r.data) else w
  }

  function TextSteps(w: World, steps: seq<Conversations.Step>): World {
    var next := Conversations.After(Conversations.State(w.data.chat, w.flights), steps);
    w.(data := w.data.(chat := next.store), flights := next.flights)
  }

  function Next(p: Policy, w: World, step: Step): World {
    match step
    case Connect(credential, identityOk, providerOk, now, later) =>
        ConnectStep(p, w, credential, identityOk, providerOk, now, later)
    case Receive(c, payload, a, between) => ReceiveStep(p, w, c, payload, a, between)
    case IdleTimeout(c, now) => LeaveStep(w, c, true, now)
    case ClientGone(c, now) => LeaveStep(w, c, false, now)
    case Crash(c) => w.(streams := w.streams - {c})
    case EndCall => w.(data := EndSpec(w.data))
    case RefreshCall(now, credential, expires) => RefreshStep(p, w, now, credential, expires)
    case TextClient(s) => TextSteps(w, [s])
  }

  // ---------------------------------------------------------------- invariant

  predicate Connected(s: Session) {
    s.state == Listening || s.state == Speaking
  }

  ghost predicate SessionOk(p: Policy, s: Session) {
    && s.state != IdleState && s.state != Processing && s.state != Interrupting
    && (s.connection.Some? ==> s.connection == Some(s.opens) && s.opens > 0)
    && (!Terminal(s.state) ==>
          if s.connection.Some? then Connected(s) else s.state == (if s.opens == 0 then Connecting else Reconnecting))
    && (s.connectedAt.Some? <==> s.opens > 0)
    && s.reconnects == (if s.opens == 0 then 0 else s.opens - 1)
    && s.reconnects <= p.maxReconnects
  }

  /** A recorded turn was completed, and its transcript is the message that holds its key. */
  ghost predicate TurnOk(d: Data, turn: string)
    requires turn in d.turns
  {
    var t := d.turns[turn];
    && t.status == TurnCompleted && t.message.Some? && t.message.value < |d.chat.messages|
    && Conversations.Holds(d.chat.messages[t.message.value], d.session.user, Conversations.VoiceKey(d.id, turn))
    && d.chat.messages[t.message.value].fingerprint ==
        Some(Conversations.Fingerprint(d.session.conversation, t.transcript, "voice"))
  }

  ghost predicate DataOk(p: Policy, d: Data, flights: map<Id, Conversations.Flight>) {
    && SessionOk(p, d.session)
    && (forall t | t in d.turns :: TurnOk(d, t))
    && Conversations.StateOk(Conversations.State(d.chat, flights))
    && d.session.conversation < |d.chat.conversations|
    && d.chat.conversations[d.session.conversation].user == d.session.user
  }

  /** The coupling of memory and database: while the access is current, the coordinator holds an
      assistant turn exactly while the session is SPEAKING, and that turn is on record. */
  ghost predicate Coupled(d: Data, c: Coordinator) {
    && 1 <= c.connection <= d.session.opens && !c.ended
    && (d.session.connection == Some(c.connection) && !Terminal(d.session.state) ==>
          && (c.turn.Some? <==> d.session.state == Speaking)
          && (c.turn.Some? ==> c.turn.value in d.turns))
  }

  ghost predicate Inv(p: Policy, w: World) {
    && DataOk(p, w.data, w.flights)
    && forall c | c in w.streams :: w.streams[c].connection == c && Coupled(w.data, w.streams[c])
  }

  // ---------------------------------------------------------------- the conversation side

  /** Submissions in flight stay consistent when another submission completes. */
  lemma FlightKept(s: Conversations.Store, t: Conversations.Store, f: Conversations.Flight, reply: Option<string>,
      g: Conversations.Flight)
    requires t == s || Conversations.Appended(s, t, f.user, f.conversation, f.request, reply)
    requires Conversations.FlightOk(s, g)
    ensures Conversations.FlightOk(t, g)
  {
  }

  /** A submission that reads in one state and writes in a later one: it answers with the message
      that holds the key and adds at most one pair. */
  lemma SubmitKept(d: Data, flights: map<Id, Conversations.Flight>, r: Conversations.Request,
      read: Conversations.Store, reply: Option<string>)
    requires Conversations.StateOk(Conversations.State(d.chat, flights)) && Conversations.Later(read, d.chat)
    requires SubmitSpec(read, d.chat, d.session.user, d.session.conversation, r, reply).Ok?
    ensures var (t, m) := SubmitSpec(read, d.chat, d.session.user, d.session.conversation, r, reply).value;
            && Conversations.StateOk(Conversations.State(t, flights))
            && (t == d.chat || Conversations.Appended(d.chat, t, d.session.user, d.session.conversation, r, reply))
            && m < |t.messages| && Conversations.Holds(t.messages[m], d.session.user, r.key)
            && t.messages[m].fingerprint == Some(Conversations.FingerprintOf(d.session.conversation, r))
  {
    hide Conversations.Inv;
    hide Conversations.CompleteSpec;
    var user, conversation := d.session.user, d.session.conversation;
    var begun := Conversations.BeginSpec(read, user, conversation, r).value;
    if begun.Reading? {
      var f := Conversations.Flight(user, conversation, r, begun.seen);
      assert Conversations.RowOk(read.conversations[conversation]) by {
        RowsOk(read, conversation);
      }
      assert Conversations.FlightOk(read, f);
      assert Conversations.FlightOk(d.chat, f);
      Conversations.CompleteKept(d.chat, f, reply);
      var t := Conversations.Complete(d.chat, f, reply).value.0;
      forall c | c in flights ensures Conversations.FlightOk(t, flights[c]) {
        assert Conversations.FlightOk(d.chat, Conversations.State(d.chat, flights).flights[c]);
        FlightKept(d.chat, t, f, reply, flights[c]);
      }
    } else {
      assert read.messages[begun.message] == d.chat.messages[begun.message];
    }
  }

  lemma RowsOk(s: Conversations.Store, c: Id)
    requires Conversations.Inv(s) && c < |s.conversations|
    ensures Conversations.RowOk(s.conversations[c])
  {
  }

  // ---------------------------------------------------------------- what each call keeps

  /** Opening never meets an invalid transition; a successful one numbers the connection next. */
  lemma OpenKept(p: Policy, d: Data, now: Time, credential: string, identityOk: bool)
    requires SessionOk(p, d.session)
    ensures var r := OpenSpec(p, d, now, credential, identityOk);
            && r.data == d.(session := r.data.session)
            && (r.result.Ok? || Commits(Rejected(r.result.error)) ==> SessionOk(p, r.data.session))
            && r.result != Raised(InvalidTransition)
            && (r.result.Ok? ==> r.data.session.opens == d.session.opens + 1 && r.result.value == r.data.session.opens
                                 && r.data.session.connection == Some(r.result.value)
                                     && r.data.session.state == Listening)
            && (r.result.Raised? ==> r.data.session.opens == d.session.opens)
            && (Terminal(d.session.state) ==> r.data == d && r.result.Raised?)
            && r.data.session.user == d.session.user && r.data.session.conversation == d.session.conversation
            && (Commits(if r.result.Raised? then Rejected(r.result.error) else Malformed) ==>
                r.data.session == d.session || r.data.session.state == Failed)
  {
  }

  /** Leaving and failing never meet an invalid transition. */
  lemma LeaveKept(p: Policy, d: Data, c: Id, end: bool, now: Time)
    requires SessionOk(p, d.session)
    ensures var r := DisconnectSpec(d, c, end, now);
            && r.result.Ok? && r.data == d.(session := r.data.session) && SessionOk(p, r.data.session)
            && r.data.session.opens == d.session.opens && r.data.session.connection != Some(c)
    ensures var r := FailSpec(d, c, now);
            && r.result.Ok? && r.data == d.(session := r.data.session) && SessionOk(p, r.data.session)
            && r.data.session.opens == d.session.opens && r.data.session.connection != Some(c)
  {
  }

  lemma KeyOnce(st: Conversations.State, user: Id, key: Conversations.Key, i: nat, j: nat)
    requires Conversations.StateOk(st) && i < |st.store.messages| && j < |st.store.messages|
    requires Conversations.Holds(st.store.messages[i], user, key)
        && Conversations.Holds(st.store.messages[j], user, key)
    ensures i == j
  {
    Conversations.KeyUnique(st.store, user, key, i, j);
  }

  /** The rows a successful final transcript writes. */
  lemma FinalizeWrites(d: Data, turn: string, text: string, input: TurnInput, now: Time)
    requires Connected(d.session) && FinalizeSpec(d, turn, text, input, now).result.Ok?
    ensures var r := FinalizeSpec(d, turn, text, input, now); var s := d.session;
            && s.conversation < |input.read.conversations|
            && var q := TurnRequest(d.id, turn, text, input.read.conversations[s.conversation].version);
               var sent := SubmitSpec(input.read, d.chat, s.user, s.conversation, q, input.reply);
               && sent.Ok?
               && r.data == Data(d.id,
                                 s.(state := if turn in d.turns then s.state else Speaking,
                                    lastActivity := now, version := s.version + 1),
                                 d.turns[turn := Turn(text, TurnCompleted, Some(sent.value.1))], sent.value.0)
               && (turn in d.turns ==> d.turns[turn].transcript == text)
               && (turn !in d.turns ==> s.state == Listening)
               && r.result.value == (turn in d.turns && d.turns[turn].status == TurnCompleted)
  {
    hide SubmitSpec;
  }

  /** What a final transcript leaves behind, on a session that was checked to be live. */
  lemma FinalizeKept(p: Policy, d: Data, flights: map<Id, Conversations.Flight>, turn: string, text: string,
      input: TurnInput, now: Time)
    requires DataOk(p, d, flights) && Connected(d.session) && Conversations.Later(input.read, d.chat)
    requires FinalizeSpec(d, turn, text, input, now).result.Ok?
    ensures var r := FinalizeSpec(d, turn, text, input, now);
            && DataOk(p, r.data, flights) && turn in r.data.turns
            && r.data.session.connection == d.session.connection && r.data.session.opens == d.session.opens
            && (r.result.value <==> turn in d.turns)
            && r.data.session.state == (if turn in d.turns then d.session.state else Speaking)
            && (turn !in d.turns ==> d.session.state == Listening)
            && Extends(d, r.data)
  {
    hide Conversations.StateOk;
    hide SubmitSpec;
    FinalizeWrites(d, turn, text, input, now);
    hide FinalizeSpec;
    var r := FinalizeSpec(d, turn, text, input, now);
    var q := TurnRequest(d.id, turn, text, input.read.conversations[d.session.conversation].version);
    SubmitKept(d, flights, q, input.read, input.reply);
    hide Conversations.Later;
    assert turn in d.turns ==> TurnOk(d, turn);
    assert d.chat.messages <= r.data.chat.messages;
    TurnRecorded(d, r.data, flights, turn, text, r.data.turns[turn].message.value);
    hide TurnOk;
  }

  /** Recording a turn next to the message that holds its key. */
  lemma TurnRecorded(d: Data, e: Data, flights: map<Id, Conversations.Flight>, turn: string, text: string, m: Id)
    requires forall t | t in d.turns :: TurnOk(d, t)
    requires Conversations.StateOk(Conversations.State(e.chat, flights)) && d.chat.messages <= e.chat.messages
    requires e.id == d.id && e.session.user == d.session.user && e.session.conversation == d.session.conversation
    requires e.turns == d.turns[turn := Turn(text, TurnCompleted, Some(m))]
        && (turn in d.turns ==> d.turns[turn].transcript == text)
    requires m < |e.chat.messages|
        && Conversations.Holds(e.chat.messages[m], d.session.user, Conversations.VoiceKey(d.id, turn))
    requires e.chat.messages[m].fingerprint == Some(Conversations.Fingerprint(d.session.conversation, text, "voice"))
    ensures (forall t | t in e.turns :: TurnOk(e, t)) && Extends(d, e)
  {
    hide Conversations.StateOk;
    forall t | t in e.turns ensures TurnOk(e, t) {
      if t != turn {
        assert TurnOk(d, t);
      }
    }
    if turn in d.turns {
      assert TurnOk(d, turn);
      var before := d.turns[turn].message.value;
      assert e.chat.messages[before] == d.chat.messages[before];
      KeyOnce(Conversations.State(e.chat, flights), d.session.user, Conversations.VoiceKey(d.id, turn), before, m);
    }
  }

  /** Turns and messages are only ever added. */
  ghost predicate Extends(d: Data, e: Data) {
    && e.id == d.id && e.session.user == d.session.user && e.session.conversation == d.session.conversation
    && d.chat.messages <= e.chat.messages
    && (forall t | t in d.turns :: t in e.turns && e.turns[t] == d.turns[t])
  }

  ghost predicate Frozen(d: Data, e: Data) {
    e.session.state == d.session.state && e.turns == d.turns && e.chat == d.chat && e.session.opens == d.session.opens
  }

  /** Handling an event keeps the rows consistent and coupled to the coordinator whenever its
      changes are committed; a connection that is not current changes nothing, and a terminal
      session keeps its state, turns and messages. */
  ghost predicate HandledOk(p: Policy, d: Data, flights: map<Id, Conversations.Flight>, c: Coordinator, h: Handled) {
    && (h.result.Ok? || Commits(h.result.error) ==>
          && DataOk(p, h.data, flights) && h.data.session.opens == d.session.opens && Extends(d, h.data)
          && (d.session.connection != Some(c.connection) ==> h.data == d)
          && (Terminal(d.session.state) ==> Frozen(d, h.data)))
    && h.coordinator.connection == c.connection
    && (h.result.Ok? ==> h.coordinator.ended || Coupled(h.data, h.coordinator))
  }

  lemma ReportKept(p: Policy, d: Data, flights: map<Id, Conversations.Flight>, c: Coordinator, now: Time,
      sent: seq<ServerEvent>)
    requires DataOk(p, d, flights) && Coupled(d, c)
    ensures HandledOk(p, d, flights, c, ReportSpec(p, d, c, now, sent))
    ensures ReportSpec(p, d, c, now, sent).result.Ok? ==> ReportSpec(p, d, c, now, sent).data == d
  {
    hide Conversations.StateOk;
    assert forall t | t in d.turns :: TurnOk(d, t);
  }

  lemma FinalKept(p: Policy, d: Data, flights: map<Id, Conversations.Flight>, c: Coordinator, turn: string,
      text: string, sent: seq<ServerEvent>, a: Ambient)
    requires DataOk(p, d, flights) && Coupled(d, c) && Conversations.Later(a.turn.read, d.chat)
    ensures HandledOk(p, d, flights, c, FinalSpec(p, d, c, turn, text, sent, a))
    ensures FinalSpec(p, d, c, turn, text, sent, a).result.Ok? ==>
        !FinalSpec(p, d, c, turn, text, sent, a).coordinator.ended
  {
    hide Conversations.StateOk;
    hide Conversations.Later;
    var done := TurnSpec(p, d, c.connection, turn, text, a.turn, a.now);
    if RequireConnectionSpec(p, d, c.connection, a.now).result.Raised? {
      assert forall t | t in d.turns :: TurnOk(d, t);
    } else if done.result.Ok? {
      FinalizeKept(p, d, flights, turn, text, a.turn, a.now);
      FinalReported(p, d, done.data, flights, c, turn, text, sent, a);
    } else {
      FinalizeErrors(d, turn, text, a.turn, a.now);
    }
  }

  lemma FinalizeErrors(d: Data, turn: string, text: string, input: TurnInput, now: Time)
    ensures var r := FinalizeSpec(d, turn, text, input, now); r.result.Raised? ==>
        !Commits(Rejected(r.result.error)) && r.data == d
  {
  }

  lemma FinalReported(p: Policy, d: Data, e: Data, flights: map<Id, Conversations.Flight>, c: Coordinator,
      turn: string, text: string, sent: seq<ServerEvent>, a: Ambient)
    requires DataOk(p, d, flights) && Coupled(d, c) && DataOk(p, e, flights)
    requires TurnSpec(p, d, c.connection, turn, text, a.turn, a.now).result.Ok?
        && TurnSpec(p, d, c.connection, turn, text, a.turn, a.now).data == e
    requires d.session.connection == Some(c.connection) && !Terminal(d.session.state)
    requires e.session.connection == d.session.connection && e.session.opens == d.session.opens
    requires TurnSpec(p, d, c.connection, turn, text, a.turn, a.now).result.value <==> turn in d.turns
    requires e.session.state == if turn in d.turns then d.session.state else Speaking
    requires turn in e.turns && Extends(d, e)
    ensures HandledOk(p, d, flights, c, FinalSpec(p, d, c, turn, text, sent, a))
    ensures FinalSpec(p, d, c, turn, text, sent, a).result.Ok? ==>
        !FinalSpec(p, d, c, turn, text, sent, a).coordinator.ended
  {
    hide DataOk;
    hide TurnSpec;
    hide ReportSpec;
    var answered := sent + [AnswerSent(turn, e.turns[turn].message)];
    if turn in d.turns {
      ReportKept(p, e, flights, c, a.later, answered);
    } else {
      ReportKept(p, e, flights, c.(turn := Some(turn)), a.later, answered);
    }
    ReportEnds(p, e, c, a.later, answered);
    ReportEnds(p, e, c.(turn := Some(turn)), a.later, answered);
  }

  lemma ReportEnds(p: Policy, d: Data, c: Coordinator, now: Time, sent: seq<ServerEvent>)
    ensures ReportSpec(p, d, c, now, sent).coordinator == c
  {
  }

  lemma {:induction false} HearKept(p: Policy, d: Data, flights: map<Id, Conversations.Flight>, c: Coordinator,
      turn: string, events: seq<ProviderEvent>, finalSeen: bool, sent: seq<ServerEvent>, a: Ambient)
    requires DataOk(p, d, flights) && Coupled(d, c) && (!finalSeen ==> Conversations.Later(a.turn.read, d.chat))
    ensures HandledOk(p, d, flights, c, HearSpec(p, d, c, turn, events, finalSeen, sent, a))
    decreases |events|
  {
    hide Conversations.Later;
    hide DataOk;
    hide FinalSpec;
    if events != [] {
      var e := events[0];
      if e.Transcript? && e.turn == turn {
        var heard := sent + [TranscriptSent(turn, e.final, e.text)];
        if !e.final {
          HearKept(p, d, flights, c, turn, events[1..], finalSeen, heard, a);
        } else if !finalSeen {
          var h := FinalSpec(p, d, c, turn, e.text, heard, a);
          FinalKept(p, d, flights, c, turn, e.text, heard, a);
          if h.result.Ok? {
            HearKept(p, h.data, flights, h.coordinator, turn, events[1..], true, h.result.value, a);
          }
        }
      }
    }
  }

  /** What an interrupt or a completed playback may do: return to LISTENING, or find that the
      session is over or times out. */
  ghost predicate Settles(p: Policy, d: Data, connection: Id, r: Reply<()>) {
    && r.data == d.(session := r.data.session)
    && (r.result.Ok? || r.result.error == SessionExpired ==> SessionOk(p, r.data.session))
    && r.data.session.opens == d.session.opens && r.data.session.user == d.session.user
        && r.data.session.conversation == d.session.conversation
    && (Terminal(d.session.state) ==> r.data == d)
    && (d.session.connection != Some(connection) ==> r.data == d && r.result == Raised(AuthFailed))
    && (r.result.Raised? ==> r.result.error != ReconnectExhausted)
    && (r.result.Ok? ==> r.data.session.state == Listening)
  }

  lemma InterruptSettles(p: Policy, d: Data, connection: Id, turn: string, now: Time)
    requires SessionOk(p, d.session) && (turn in d.turns ==> d.turns[turn].status == TurnCompleted)
    ensures Settles(p, d, connection, InterruptSpec(p, d, connection, turn, now))
  {
  }

  lemma PlaybackSettles(p: Policy, d: Data, connection: Id, now: Time)
    requires SessionOk(p, d.session)
    ensures Settles(p, d, connection, PlaybackSpec(p, d, connection, now))
  {
  }

  /** Settling keeps the rows consistent. */
  lemma SettledKept(p: Policy, d: Data, flights: map<Id, Conversations.Flight>, connection: Id, r: Reply<()>)
    requires DataOk(p, d, flights) && Settles(p, d, connection, r) && (r.result.Ok? || r.result.error == SessionExpired)
    ensures DataOk(p, r.data, flights) && Extends(d, r.data)
  {
    hide Conversations.StateOk;
    hide SessionOk;
    forall t | t in r.data.turns ensures TurnOk(r.data, t) {
      assert TurnOk(d, t);
    }
  }

  lemma InterruptKept(p: Policy, d: Data, flights: map<Id, Conversations.Flight>, c: Coordinator, turn: string,
      a: Ambient)
    requires DataOk(p, d, flights) && Coupled(d, c)
    ensures HandledOk(p, d, flights, c, HandleSpec(p, d, c, InterruptTurn(turn), a))
  {
    assert turn in d.turns ==> TurnOk(d, turn);
    InterruptSettles(p, d, c.connection, turn, a.now);
    hide InterruptSpec;
    hide DataOk;
    var r := InterruptSpec(p, d, c.connection, turn, a.now);
    if r.result.Ok? || r.result.error == SessionExpired {
      SettledKept(p, d, flights, c.connection, r);
    }
    hide SessionOk;
  }

  lemma PlaybackKept(p: Policy, d: Data, flights: map<Id, Conversations.Flight>, c: Coordinator, turn: string,
      a: Ambient)
    requires DataOk(p, d, flights) && Coupled(d, c)
    ensures HandledOk(p, d, flights, c, HandleSpec(p, d, c, PlaybackDone(turn), a))
  {
    PlaybackSettles(p, d, c.connection, a.now);
    hide PlaybackSpec;
    hide DataOk;
    var r := PlaybackSpec(p, d, c.connection, a.now);
    if r.result.Ok? || r.result.error == SessionExpired {
      SettledKept(p, d, flights, c.connection, r);
    }
    hide SessionOk;
  }

  lemma EndKept(p: Policy, d: Data, flights: map<Id, Conversations.Flight>, c: Coordinator, a: Ambient)
    requires DataOk(p, d, flights) && Coupled(d, c)
    ensures HandledOk(p, d, flights, c, HandleSpec(p, d, c, EndSession, a))
  {
    hide Conversations.StateOk;
    hide DisconnectSpec;
    assert forall t | t in d.turns :: TurnOk(d, t);
    LeaveKept(p, d, c.connection, true, a.now);
    LeaveStale(d, c.connection, true, a.now);
    hide SessionOk;
  }

  lemma AudioKept(p: Policy, d: Data, flights: map<Id, Conversations.Flight>, c: Coordinator, turn: string,
      sequence: nat, a: Ambient)
    requires DataOk(p, d, flights) && Coupled(d, c) && Conversations.Later(a.turn.read, d.chat)
    ensures HandledOk(p, d, flights, c, HandleSpec(p, d, c, AudioFrame(turn, sequence), a))
  {
    hide DataOk;
    hide Conversations.Later;
    hide HearSpec;
    if sequence == Expected(c, turn) && a.heard.Some? {
      HearKept(p, d, flights, c.(heard := c.heard[turn := sequence]), turn, a.heard.value, false, [], a);
    }
  }

  lemma HandleKept(p: Policy, d: Data, flights: map<Id, Conversations.Flight>, c: Coordinator, event: ClientEvent,
      a: Ambient)
    requires DataOk(p, d, flights) && Coupled(d, c) && Conversations.Later(a.turn.read, d.chat)
    ensures HandledOk(p, d, flights, c, HandleSpec(p, d, c, event, a))
  {
    hide *;
    match event {
      case AudioFrame(turn, sequence) => AudioKept(p, d, flights, c, turn, sequence, a);
      case InterruptTurn(turn) => InterruptKept(p, d, flights, c, turn, a);
      case PlaybackDone(turn) => PlaybackKept(p, d, flights, c, turn, a);
      case EndSession => EndKept(p, d, flights, c, a);
    }
  }

  lemma ReceiveKept(p: Policy, d: Data, flights: map<Id, Conversations.Flight>, c: Coordinator,
      payload: Option<ClientEvent>, a: Ambient)
    requires DataOk(p, d, flights) && Coupled(d, c) && Conversations.Later(a.turn.read, d.chat)
    ensures var h := ReceiveSpec(p, d, c, payload, a);
            && DataOk(p, h.data, flights) && h.data.session.opens == d.session.opens && Extends(d, h.data)
            && (d.session.connection != Some(c.connection) ==> h.data == d)
            && (Terminal(d.session.state) ==> Frozen(d, h.data))
            && h.coordinator.connection == c.connection
            && (h.result.Ok? ==> h.coordinator.ended || Coupled(h.data, h.coordinator))
  {
    hide Conversations.StateOk;
    hide Conversations.Later;
    hide HandleSpec;
    assert forall t | t in d.turns :: TurnOk(d, t);
    LeaveKept(p, d, c.connection, false, a.later);
    if payload.Some? {
      HandleKept(p, d, flights, c, payload.value, a);
    }
  }

  // ---------------------------------------------------------------- runs

  /** The connection a step speaks for, if it comes from a stream. */
  function Speaker(step: Step): Option<Id> {
    match step
    case Receive(c, _, _, _) => Some(c)
    case IdleTimeout(c, _) => Some(c)
    case ClientGone(c, _) => Some(c)
    case Crash(c) => Some(c)
    case _ => None
  }

  /** The text submissions that go on while a step is taken. */
  function Between(step: Step): seq<Conversations.Step> {
    match step
    case Receive(_, _, _, between) => between
    case _ => []
  }

  /** The step is a stream that was accepted: its connection is committed. */
  predicate Accepted(p: Policy, w: World, step: Step) {
    step.Connect? && step.providerOk && OpenSpec(p, w.data, step.now, step.credential, step.identityOk).result.Ok?
  }

  /** What every step does besides keeping the invariant. */
  ghost predicate Evolves(p: Policy, w: World, step: Step, n: World) {
    && Extends(w.data, n.data)
    && n.data.session.opens == w.data.session.opens + (if Accepted(p, w, step) then 1 else 0)
    && (Terminal(w.data.session.state) ==> n.data.session.state == w.data.session.state && n.data.turns == w.data.turns)
    && (Speaker(step).Some? && w.data.session.connection != Speaker(step) ==>
        n.data == TextSteps(w, Between(step)).data)
  }

  /** What connecting commits: nothing, a failed session, or the next connection. */
  lemma ConnectData(p: Policy, w: World, step: Step)
    requires SessionOk(p, w.data.session) && step.Connect?
    ensures var n := Next(p, w, step); var s := n.data.session;
            && n.data == w.data.(session := s) && n.flights == w.flights && SessionOk(p, s)
            && s.user == w.data.session.user && s.conversation == w.data.session.conversation
            && s.opens == w.data.session.opens + (if Accepted(p, w, step) then 1 else 0)
            && (Terminal(w.data.session.state) ==> n.data == w.data)
            && (n.data == w.data || Terminal(s.state)
                || (s.connection == Some(s.opens) && s.opens == w.data.session.opens + 1))
            && (n.streams == w.streams
                || (s.state == Listening && s.opens == w.data.session.opens + 1
                && n.streams == w.streams[s.opens := Coordinator(s.opens, map[], None, false)]))
  {
    hide OpenSpec;
    OpenKept(p, w.data, step.now, step.credential, step.identityOk);
  }

  lemma ConnectKept(p: Policy, w: World, step: Step)
    requires Inv(p, w) && step.Connect?
    ensures Inv(p, Next(p, w, step)) && Evolves(p, w, step, Next(p, w, step))
  {
    hide Conversations.StateOk;
    hide SessionOk;
    hide Next;
    hide Accepted;
    ConnectData(p, w, step);
    var n := Next(p, w, step);
    assert forall t | t in w.data.turns :: TurnOk(w.data, t);
    forall c | c in n.streams ensures n.streams[c].connection == c && Coupled(n.data, n.streams[c]) {
      if c in w.streams {
        assert Coupled(w.data, w.streams[c]);
      }
    }
  }

  lemma ReceiveStepKept(p: Policy, w: World, step: Step)
    requires Inv(p, w) && step.Receive?
    ensures Inv(p, Next(p, w, step)) && Evolves(p, w, step, Next(p, w, step))
  {
    hide ReceiveSpec;
    hide DataOk;
    hide Conversations.Later;
    hide Conversations.After;
    var n := Next(p, w, step);
    var w1 := TextSteps(w, step.between);
    TextKept(p, w, step.between);
    if step.connection in w.streams {
      assert Coupled(w1.data, w.streams[step.connection]);
      var a := step.ambient.(turn := step.ambient.turn.(read := w.data.chat));
      ReceiveKept(p, w1.data, w1.flights, w.streams[step.connection], step.payload, a);
      forall c | c in n.streams ensures n.streams[c].connection == c && Coupled(n.data, n.streams[c]) {
        if c != step.connection {
          assert Coupled(w1.data, w1.streams[c]);
          OtherStream(p, w1, n.data, step, c);
        }
      }
    }
  }

  /** A stream that did not speak stays coupled: either it is not current, or nothing changed. */
  lemma OtherStream(p: Policy, w: World, e: Data, step: Step, c: Id)
    requires DataOk(p, w.data, w.flights) && DataOk(p, e, w.flights)
    requires c in w.streams && Coupled(w.data, w.streams[c]) && w.streams[c].connection == c
    requires step.Receive? && step.connection != c
    requires w.data.session.connection != Some(step.connection) ==> e == w.data
    requires e.session.opens == w.data.session.opens
    ensures Coupled(e, w.streams[c])
  {
  }

  lemma LeaveStepKept(p: Policy, w: World, step: Step)
    requires Inv(p, w) && (step.IdleTimeout? || step.ClientGone?)
    ensures Inv(p, Next(p, w, step)) && Evolves(p, w, step, Next(p, w, step))
  {
    hide Conversations.StateOk;
    hide DisconnectSpec;
    LeaveKept(p, w.data, step.connection, step.IdleTimeout?, step.now);
    LeaveStale(w.data, step.connection, step.IdleTimeout?, step.now);
    var n := Next(p, w, step);
    SessionOnly(p, w, n);
  }

  /** Changing only the session keeps the turns and the messages consistent; streams stay coupled
      if the session is the same, or over, or has no connection. */
  lemma SessionOnly(p: Policy, w: World, n: World)
    requires Inv(p, w) && n.data == w.data.(session := n.data.session) && n.flights == w.flights
    requires SessionOk(p, n.data.session) && n.data.session.opens == w.data.session.opens
    requires n.data.session.user == w.data.session.user && n.data.session.conversation == w.data.session.conversation
    requires forall c | c in n.streams :: c in w.streams && n.streams[c] == w.streams[c]
    requires n.data.session.connection.None? || Terminal(n.data.session.state)
             || (n.data.session.connection == w.data.session.connection && n.data.session.state == w.data.session.state)
    ensures Inv(p, n) && Extends(w.data, n.data)
  {
    hide Conversations.StateOk;
    hide SessionOk;
    forall t | t in n.data.turns ensures TurnOk(n.data, t) {
      assert TurnOk(w.data, t);
    }
    forall c | c in n.streams ensures n.streams[c].connection == c && Coupled(n.data, n.streams[c]) {
      assert Coupled(w.data, w.streams[c]);
    }
  }

  lemma PlainKept(p: Policy, w: World, step: Step)
    requires Inv(p, w) && (step.Crash? || step.EndCall? || step.RefreshCall?)
    ensures Inv(p, Next(p, w, step)) && Evolves(p, w, step, Next(p, w, step))
  {
    hide Conversations.StateOk;
    var n := Next(p, w, step);
    SessionOnly(p, w, n);
  }

  lemma LeaveStale(d: Data, c: Id, end: bool, now: Time)
    ensures var r := DisconnectSpec(d, c, end, now).data;
            && (d.session.connection != Some(c) ==> r == d)
            && (Terminal(d.session.state) ==> r.session.state == d.session.state)
            && (r == d || r.session.connection.None?)
            && r.session.user == d.session.user && r.session.conversation == d.session.conversation
  {
  }

  /** Text clients leave the session and its turns alone, and only add messages. */
  lemma TextKept(p: Policy, w: World, steps: seq<Conversations.Step>)
    requires Inv(p, w)
    ensures var n := TextSteps(w, steps);
            && Inv(p, n) && Extends(w.data, n.data) && n.data == w.data.(chat := n.data.chat) && n.streams == w.streams
            && Conversations.Later(w.data.chat, n.data.chat)
  {
    hide Conversations.StateOk;
    hide Conversations.After;
    hide Conversations.FlightOk;
    hide Conversations.Inv;
    Conversations.AfterLater(Conversations.State(w.data.chat, w.flights), steps);
    var n := TextSteps(w, steps);
    forall t | t in n.data.turns ensures TurnOk(n.data, t) {
      assert TurnOk(w.data, t);
    }
    forall c | c in n.streams ensures n.streams[c].connection == c && Coupled(n.data, n.streams[c]) {
      assert Coupled(w.data, w.streams[c]);
    }
  }

  lemma TextStepKept(p: Policy, w: World, step: Step)
    requires Inv(p, w) && step.TextClient?
    ensures Inv(p, Next(p, w, step)) && Evolves(p, w, step, Next(p, w, step))
  {
    hide Inv;
    hide TextSteps;
    TextKept(p, w, [step.step]);
  }

  lemma NextKept(p: Policy, w: World, step: Step)
    requires Inv(p, w)
    ensures Inv(p, Next(p, w, step)) && Evolves(p, w, step, Next(p, w, step))
  {
    hide Inv;
    hide Evolves;
    match step {
      case Connect(_, _, _, _, _) => ConnectKept(p, w, step);
      case Receive(_, _, _, _) => ReceiveStepKept(p, w, step);
      case TextClient(_) => TextStepKept(p, w, step);
      case IdleTimeout(_, _) => LeaveStepKept(p, w, step);
      case ClientGone(_, _) => LeaveStepKept(p, w, step);
      case _ => PlainKept(p, w, step);
    }
  }

  /** The session as `start` creates it, on conversations that reached any state. */
  datatype Opening = Opening(before: seq<Conversations.Step>, id: Id, user: Id, conversation: Id, now: Time,
      credential: string, expires: Time)

  /** `start` checks that the conversation exists and belongs to the user. */
  ghost predicate Startable(o: Opening) {
    var chat := Conversations.Run(o.before).store;
    o.conversation < |chat.conversations| && chat.conversations[o.conversation].user == o.user
  }

  ghost function Start(o: Opening): World {
    var chat := Conversations.Run(o.before);
    var session := Session(o.user, o.conversation, Connecting, None, 0, None, o.now, o.now,
                           o.credential, o.expires, 0, 1);
    World(Data(o.id, session, map[], chat.store),
          chat.flights, map[])
  }

  /** The world after any sequence of steps. */
  ghost function Run(p: Policy, o: Opening, steps: seq<Step>): (w: World)
    requires Startable(o)
    ensures Inv(p, w)
  {
    if steps == [] then Start(o)
    else
      var before := Run(p, o, steps[..|steps| - 1]);
      NextKept(p, before, steps[|steps| - 1]);
      Next(p, before, steps[|steps| - 1])
  }

  /** How many streams were accepted. */
  ghost function Connections(p: Policy, o: Opening, steps: seq<Step>): nat
    requires Startable(o)
  {
    if steps == [] then 0
    else
      var n := |steps| - 1;
      Connections(p, o, steps[..n]) + if Accepted(p, Run(p, o, steps[..n]), steps[n]) then 1 else 0
  }

  /** `continued` extends the run `steps`. */
  lemma {:induction false} RunEvolves(p: Policy, o: Opening, steps: seq<Step>, continued: seq<Step>)
    requires Startable(o)
    ensures var w, n := Run(p, o, steps), Run(p, o, steps + continued);
            && Extends(w.data, n.data)
            && (Terminal(w.data.session.state) ==>
                n.data.session.state == w.data.session.state && n.data.turns == w.data.turns)
  {
    hide Inv;
    hide Next;
    hide Accepted;
    hide Startable;
    if continued == [] {
      assert steps + continued == steps;
    } else {
      var k := |continued| - 1;
      RunEvolves(p, o, steps, continued[..k]);
      assert (steps + continued)[..|steps| + k] == steps + continued[..k];
      var before := Run(p, o, steps + continued[..k]);
      assert Run(p, o, steps + continued) == Next(p, before, continued[k]);
      NextKept(p, before, continued[k]);
    }
  }

  // ---------------------------------------------------------------- theorems

  /** Memory and database agree across every commit and rollback. */
  lemma CouplingTheorem(p: Policy, o: Opening, steps: seq<Step>, c: Id)
    requires Startable(o)
    ensures var w := Run(p, o, steps); var s := w.data.session;
            && s.state != Processing && s.state != Interrupting
            && (c in w.streams && s.connection == Some(c) && !Terminal(s.state) ==>
                  && Connected(s)
                  && (w.streams[c].turn.Some? <==> s.state == Speaking))
  {
    hide Next;
  }

  /** The answer to a matching event, from the coupling alone. */
  lemma MatchingAnswer(p: Policy, d: Data, c: Coordinator, turn: string, interrupt: bool, a: Ambient)
    requires SessionOk(p, d.session) && Coupled(d, c) && c.turn == Some(turn)
        && d.session.connection == Some(c.connection) && a.interruptOk
    requires turn in d.turns ==> d.turns[turn].status == TurnCompleted
    ensures var h := HandleSpec(p, d, c, if interrupt then InterruptTurn(turn) else PlaybackDone(turn), a);
            if Terminal(d.session.state) || TimedOut(p, d.session, a.now) then
              h.result == Raised(Rejected(SessionExpired)) && Terminal(h.data.session.state)
            else
              h.result.Ok? && h.data.session.state == Listening && h.coordinator.turn.None? && h.data.chat == d.chat
                  && h.data.turns == d.turns
  {
    hide AudioSpec;
    hide DisconnectSpec;
  }

  /** A matching interrupt or playback event succeeds exactly on a live session that has not
      timed out; otherwise the answer is SessionExpired, never an invalid transition. */
  lemma MatchingEventTheorem(p: Policy, o: Opening, steps: seq<Step>, c: Id, turn: string, interrupt: bool, a: Ambient)
    requires Startable(o) && a.interruptOk
    ensures var w := Run(p, o, steps);
            c in w.streams && w.data.session.connection == Some(c) && w.streams[c].turn == Some(turn) ==>
              var event := if interrupt then InterruptTurn(turn) else PlaybackDone(turn);
              var h := HandleSpec(p, w.data, w.streams[c], event, a);
              if Terminal(w.data.session.state) || TimedOut(p, w.data.session, a.now) then
                h.result == Raised(Rejected(SessionExpired)) && Terminal(h.data.session.state)
              else
                h.result.Ok? && h.data.session.state == Listening && h.coordinator.turn.None?
                    && h.data.chat == w.data.chat && h.data.turns == w.data.turns
  {
    hide Run;
    hide HandleSpec;
    hide SessionOk;
    hide Coupled;
    var w := Run(p, o, steps);
    if c in w.streams && w.data.session.connection == Some(c) && w.streams[c].turn == Some(turn) {
      assert Coupled(w.data, w.streams[c]);
      assert turn in w.data.turns ==> TurnOk(w.data, turn);
      MatchingAnswer(p, w.data, w.streams[c], turn, interrupt, a);
    }
  }

  /** After n accepted streams the reconnect count is n - 1, so there are at most one more of
      them than reconnections are allowed; the current connection is the last one accepted. */
  lemma {:induction false} ConnectionTheorem(p: Policy, o: Opening, steps: seq<Step>)
    requires Startable(o)
    ensures var s := Run(p, o, steps).data.session; var n := Connections(p, o, steps);
            && s.opens == n && n <= 1 + p.maxReconnects
            && (n >= 1 ==> s.reconnects == n - 1)
            && (s.connection.Some? ==> s.connection == Some(n))
  {
    hide Next;
    hide Accepted;
    if steps != [] {
      var k := |steps| - 1;
      ConnectionTheorem(p, o, steps[..k]);
      NextKept(p, Run(p, o, steps[..k]), steps[k]);
    }
  }

  /** A stream other than the last one accepted changes no committed row, whatever it does: all that
      changes meanwhile is what text clients commit. */
  lemma StaleStreamTheorem(p: Policy, o: Opening, steps: seq<Step>, step: Step)
    requires Startable(o)
    ensures Speaker(step).Some? && Speaker(step).value != Connections(p, o, steps) ==>
              Next(p, Run(p, o, steps), step).data == TextSteps(Run(p, o, steps), Between(step)).data
  {
    hide Next;
    hide Inv;
    ConnectionTheorem(p, o, steps);
    NextKept(p, Run(p, o, steps), step);
  }

  /** ENDED and FAILED are final, and no turn is added to a session in them. */
  lemma TerminalTheorem(p: Policy, o: Opening, steps: seq<Step>, continued: seq<Step>)
    requires Startable(o)
    ensures var now, later := Run(p, o, steps).data, Run(p, o, steps + continued).data;
            Terminal(now.session.state) ==> later.session.state == now.session.state && later.turns == now.turns
  {
    hide Run;
    RunEvolves(p, o, steps, continued);
  }

  /** In no reachable state do `disconnect`, `fail_connection` or `open_connection` meet an
      invalid transition. */
  lemma TransitionTheorem(p: Policy, o: Opening, steps: seq<Step>, c: Id, end: bool, now: Time, credential: string,
      identityOk: bool)
    requires Startable(o)
    ensures var d := Run(p, o, steps).data;
            && DisconnectSpec(d, c, end, now).result.Ok? && FailSpec(d, c, now).result.Ok?
            && OpenSpec(p, d, now, credential, identityOk).result != Raised(InvalidTransition)
  {
    hide Next;
    LeaveKept(p, Run(p, o, steps).data, c, end, now);
    OpenKept(p, Run(p, o, steps).data, now, credential, identityOk);
  }

  /** Exactly-once turns. Once a turn is on record, in every continuation, whatever connection is
      current and whatever text clients commit while it is submitted again: exactly one message
      holds its key and it is followed by its reply; the same transcript is answered as a replay
      that adds no message and leaves the state alone, and any other transcript is refused. */
  lemma TurnTheorem(p: Policy, o: Opening, steps: seq<Step>, continued: seq<Step>, between: seq<Conversations.Step>,
      turn: string, text: string, input: TurnInput, now: Time)
    requires Startable(o) && input.identityOk
    ensures var w := Run(p, o, steps + continued); var earlier := Run(p, o, steps).data.turns;
            turn in earlier ==>
              var first := earlier[turn];
              var d := TextSteps(w, between).data;
              var r := FinalizeSpec(d, turn, text, input.(read := w.data.chat), now);
              && turn in d.turns && d.turns[turn] == first
              && first.message.Some? && first.message.value + 1 < |d.chat.messages|
              && d.chat.messages[first.message.value + 1].replyTo == first.message
              && (forall i | 0 <= i < |d.chat.messages| ::
                    Conversations.Holds(d.chat.messages[i], d.session.user, Conversations.VoiceKey(d.id, turn)) <==>
                        i == first.message.value)
              && (text != first.transcript ==> r.result == Raised(TurnConflict))
              && (text == first.transcript ==>
                  r.result == Ok(true) && r.data.chat == d.chat && r.data.turns == d.turns
                  && r.data.session.state == d.session.state)
  {
    hide Run;
    hide FinalizeSpec;
    hide DataOk;
    hide Coupled;
    hide TextSteps;
    hide Conversations.Holds;
    hide Conversations.Later;
    if turn in Run(p, o, steps).data.turns {
      RunEvolves(p, o, steps, continued);
      var w := Run(p, o, steps + continued);
      TextKept(p, w, between);
      var n := TextSteps(w, between);
      ReplayedTurn(p, w.data, w.flights, n.data, n.flights, turn, text, input.(read := w.data.chat), now);
    }
  }

  /** What is on record of a turn. */
  lemma RecordedTurn(p: Policy, d: Data, flights: map<Id, Conversations.Flight>, turn: string)
    requires DataOk(p, d, flights) && turn in d.turns
    ensures var m := d.turns[turn].message;
            && m.Some? && m.value + 1 < |d.chat.messages| && d.chat.messages[m.value + 1].replyTo == m
            && d.turns[turn].status == TurnCompleted
            && Conversations.HasReply(d.chat.messages, m.value)
            && d.chat.messages[m.value].fingerprint ==
               Some(Conversations.Fingerprint(d.session.conversation, d.turns[turn].transcript, "voice"))
            && (forall i | 0 <= i < |d.chat.messages| ::
                  Conversations.Holds(d.chat.messages[i], d.session.user, Conversations.VoiceKey(d.id, turn)) <==>
                      i == m.value)
  {
    hide Conversations.StateOk;
    hide Conversations.HasReply;
    var key := Conversations.VoiceKey(d.id, turn);
    assert TurnOk(d, turn);
    var m := d.turns[turn].message.value;
    forall i | 0 <= i < |d.chat.messages| ensures Conversations.Holds(d.chat.messages[i], d.session.user, key) <==>
        i == m {
      if Conversations.Holds(d.chat.messages[i], d.session.user, key) {
        KeyOnce(Conversations.State(d.chat, flights), d.session.user, key, i, m);
      }
    }
    Answerable(Conversations.State(d.chat, flights), m);
  }

  lemma ReplayedTurn(p: Policy, read: Data, readFlights: map<Id, Conversations.Flight>, d: Data, flights: map<Id,
      Conversations.Flight>, turn: string, text: string, input: TurnInput, now: Time)
    requires DataOk(p, read, readFlights) && DataOk(p, d, flights) && d == read.(chat := d.chat) && turn in d.turns
    requires input.identityOk && input.read == read.chat
    ensures var m := d.turns[turn].message; var r := FinalizeSpec(d, turn, text, input, now);
            && m.Some? && m.value + 1 < |d.chat.messages| && d.chat.messages[m.value + 1].replyTo == m
            && (forall i | 0 <= i < |d.chat.messages| ::
                  Conversations.Holds(d.chat.messages[i], d.session.user, Conversations.VoiceKey(d.id, turn)) <==>
                      i == m.value)
            && (text != d.turns[turn].transcript ==> r.result == Raised(TurnConflict))
            && (text == d.turns[turn].transcript ==>
                r.result == Ok(true) && r.data.chat == d.chat && r.data.turns == d.turns
                && r.data.session.state == d.session.state)
  {
    RecordedTurn(p, d, flights, turn);
    RecordedTurn(p, read, readFlights, turn);
    hide Conversations.CompleteSpec;
    hide Conversations.StateOk;
    hide Conversations.HasReply;
    var m := d.turns[turn].message.value;
    assert Conversations.Existing(read.chat.messages, d.session.user, Conversations.VoiceKey(d.id, turn)) == Some(m);
    assert d.turns[turn] == Turn(d.turns[turn].transcript, TurnCompleted, Some(m));
    assert d.turns[turn := d.turns[turn]] == d.turns;
  }

  lemma Answerable(st: Conversations.State, m: Id)
    requires Conversations.StateOk(st) && m < |st.store.messages| && st.store.messages[m].role == Conversations.User
    ensures m + 1 < |st.store.messages| && st.store.messages[m + 1].replyTo == Some(m)
        && Conversations.HasReply(st.store.messages, m)
  {
    hide Conversations.Pairs;
    assert Conversations.PairOk(st.store.messages, m - m % 2);
  }

  /** A stream that is no longer current is told that the session has ended when it ends itself,
      although nothing is committed. */
  lemma StaleEnd(p: Policy, d: Data, c: Coordinator, a: Ambient)
    requires d.session.connection != Some(c.connection) && !c.ended && a.closeOk
    ensures var h := ReceiveSpec(p, d, c, Some(EndSession), a); h.result == Ok([StateSent(Ended)]) && h.data == d
  {
  }
}
