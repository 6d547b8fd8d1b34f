/** What a frame of audio does on a stream in every reachable state: which provider events are passed
    on, what the final transcript of a turn sends and in which order, and when the frame is refused. */
module VoiceAudioMeaning {
  import opened Common
  import opened VoiceSession
  import opened VoiceProtocol
  import opened VoiceRuns
  import opened VoiceMeaning
  import opened ConversationMeaning
  import Conversations

  /** A transcript of this turn. */
  predicate Said(e: ProviderEvent, turn: string) {
    e.Transcript? && e.turn == turn
  }

  predicate Partial(events: seq<ProviderEvent>, turn: string) {
    forall i | 0 <= i < |events| :: Said(events[i], turn) && !events[i].final
  }

  /** One server event for every provider event, in order. */
  ghost predicate PassedOn(events: seq<ProviderEvent>, turn: string, sent: seq<ServerEvent>) {
    && |sent| == |events|
    && forall i | 0 <= i < |events| ::
        events[i].Transcript? && sent[i] == TranscriptSent(turn, events[i].final, events[i].text)
  }

  /** The answer to a final transcript: the message, the state, and the audio of a turn that is new. */
  ghost predicate AnswerGiven(turn: string, message: Id, state: State, spoken: seq<AudioPart>, sent: seq<ServerEvent>) {
    && |sent| == 2 + |spoken|
    && sent[0] == AnswerSent(turn, Some(message)) && sent[1] == StateSent(state)
    && forall i | 0 <= i < |spoken| :: sent[2 + i] == AudioSent(spoken[i])
  }

  /** The final transcript of a turn, once its rows are written (`e`): the events it adds, the turn the
      coordinator holds from then on, and what makes it fail. */
  ghost predicate FinalAnswer(p: Policy, e: Data, c: Coordinator, turn: string, replayed: bool,
      before: seq<ServerEvent>, a: Ambient, h: Handled)
  {
    var holding := if replayed then c else c.(turn := Some(turn));
    if !replayed && (a.spoken.None? || !WellFormedAudio(turn, a.spoken.value)) then
      h == Handled(e, c, Raised(Malformed))
    else if !Alive(p, e.session, a.later) then
      h == Handled(e.(session := e.session.(state := Failed)), holding, Raised(Rejected(SessionExpired)))
    else
      && h.data == e && h.coordinator == holding && h.result.Ok? && before <= h.result.value
      && turn in e.turns && e.turns[turn].message.Some?
      && AnswerGiven(turn, e.turns[turn].message.value, e.session.state, if replayed then [] else a.spoken.value,
                     h.result.value[|before|..])
  }

  ghost predicate FinalMeans(p: Policy, d: Data, c: Coordinator, turn: string, text: string, before: seq<ServerEvent>,
      a: Ambient, h: Handled)
    requires d.session.conversation < |a.turn.read.conversations|
  {
    exists done: Reply<bool> ::
      && TurnMeans(p, d, c.connection, turn, text, a.turn, a.now, done)
      && (if done.result.Raised? then h == Handled(done.data, c, Raised(Rejected(done.result.error)))
          else FinalAnswer(p, done.data, c, turn, done.result.value, before, a, h))
  }

  /** The events after the final transcript: partial ones are passed on, anything else is refused. */
  ghost predicate RestMeans(events: seq<ProviderEvent>, turn: string, done: Handled, h: Handled)
    requires done.result.Ok?
  {
    && h.data == done.data && h.coordinator == done.coordinator
    && (if Partial(events, turn) then
          && h.result.Ok? && done.result.value <= h.result.value
          && PassedOn(events, turn, h.result.value[|done.result.value|..])
        else h.result == Raised(Malformed))
  }

  /** The provider's events, after `j` partial transcripts. */
  ghost predicate HeardMeans(p: Policy, d: Data, c: Coordinator, turn: string, events: seq<ProviderEvent>, a: Ambient,
      j: nat, h: Handled)
    requires j <= |events| && Partial(events[..j], turn)
    requires d.session.conversation < |a.turn.read.conversations|
  {
    if j == |events| then
      h.data == d && h.coordinator == c && h.result.Ok? && PassedOn(events, turn, h.result.value)
    else if !Said(events[j], turn) then h == Handled(d, c, Raised(Malformed))
    else if !events[j].final then true
    else
      exists before: seq<ServerEvent>, done: Handled ::
        && PassedOn(events[..j + 1], turn, before)
        && FinalMeans(p, d, c, turn, events[j].text, before, a, done)
        && (if done.result.Raised? then h == done else RestMeans(events[j + 1..], turn, done, h))
  }

  /** A frame of audio: the next one of its turn is passed to the provider, and its events handled up
      to the first that is no partial transcript. */
  ghost predicate AudioMeans(p: Policy, d: Data, c: Coordinator, turn: string, sequence: nat, a: Ambient, h: Handled)
    requires d.session.conversation < |a.turn.read.conversations|
  {
    if sequence != (if turn in c.heard then c.heard[turn] + 1 else 0) then h == Handled(d, c, Raised(Malformed))
    else
      var listened := c.(heard := c.heard[turn := sequence]);
      if a.heard.None? then h == Handled(d, listened, Raised(Malformed))
      else
        forall j: nat | j <= |a.heard.value| && Partial(a.heard.value[..j], turn) ::
          HeardMeans(p, d, listened, turn, a.heard.value, a, j, h)
  }

  // ---------------------------------------------------------------- proofs

  function Passing(events: seq<ProviderEvent>, turn: string): (sent: seq<ServerEvent>)
    requires forall i | 0 <= i < |events| :: Said(events[i], turn)
    ensures PassedOn(events, turn, sent)
  {
    seq(|events|, i requires 0 <= i < |events| && Said(events[i], turn) =>
      TranscriptSent(turn, events[i].final, events[i].text))
  }

  /** Partial transcripts are passed on and leave everything else to the events that follow. */
  lemma {:induction false} HearPartial(p: Policy, d: Data, c: Coordinator, turn: string, events: seq<ProviderEvent>,
      j: nat, finalSeen: bool, sent: seq<ServerEvent>, a: Ambient)
    requires j <= |events| && Partial(events[..j], turn)
    ensures HearSpec(p, d, c, turn, events, finalSeen, sent, a)
            == HearSpec(p, d, c, turn, events[j..], finalSeen, sent + Passing(events[..j], turn), a)
    decreases |events|
  {
    hide FinalSpec;
    if j == 0 {
      assert events[0..] == events && sent + Passing(events[..0], turn) == sent;
    } else {
      var rest := events[1..];
      assert events[..j][0] == events[0];
      assert rest[..j - 1] == events[..j][1..] && rest[j - 1..] == events[j..];
      var heard := sent + [TranscriptSent(turn, false, events[0].text)];
      HearPartial(p, d, c, turn, rest, j - 1, finalSeen, heard, a);
      assert heard + Passing(rest[..j - 1], turn) == sent + Passing(events[..j], turn);
    }
  }

  /** After the final transcript. */
  lemma {:induction false} HearRest(p: Policy, done: Handled, turn: string, events: seq<ProviderEvent>, a: Ambient)
    requires done.result.Ok?
    ensures RestMeans(events, turn, done,
                      HearSpec(p, done.data, done.coordinator, turn, events, true, done.result.value, a))
    decreases |events|
  {
    hide FinalSpec;
    if events != [] {
      if Said(events[0], turn) && !events[0].final {
        var sent := done.result.value + [TranscriptSent(turn, false, events[0].text)];
        HearRest(p, done.(result := Ok(sent)), turn, events[1..], a);
        assert Partial(events, turn) <==> Partial(events[1..], turn) by {
          assert events == [events[0]] + events[1..];
        }
        var h := HearSpec(p, done.data, done.coordinator, turn, events, true, done.result.value, a);
        if Partial(events, turn) {
          PassedOnGrows(events, turn, done.result.value, h.result.value);
        }
      } else {
        assert !Partial(events, turn);
      }
    }
  }

  lemma PassedOnGrows(events: seq<ProviderEvent>, turn: string, before: seq<ServerEvent>, all: seq<ServerEvent>)
    requires events != [] && Said(events[0], turn) && !events[0].final
    requires var sent := before + [TranscriptSent(turn, false, events[0].text)];
             sent <= all && PassedOn(events[1..], turn, all[|sent|..])
    ensures before <= all && PassedOn(events, turn, all[|before|..])
  {
    var rest := all[|before| + 1..];
    assert forall i | 1 <= i < |events| :: all[|before|..][i] == rest[i - 1] && events[i] == events[1..][i - 1];
  }

  lemma FinalSpelled(p: Policy, d: Data, flights: map<Id, Conversations.Flight>, c: Coordinator, turn: string,
      text: string, before: seq<ServerEvent>, a: Ambient)
    requires d.session.conversation < |a.turn.read.conversations|
    requires DataOk(p, d, flights) && Conversations.Later(a.turn.read, d.chat)
    requires TurnMeans(p, d, c.connection, turn, text, a.turn, a.now,
                       TurnSpec(p, d, c.connection, turn, text, a.turn, a.now))
    ensures FinalMeans(p, d, c, turn, text, before, a, FinalSpec(p, d, c, turn, text, before, a))
  {
    hide Conversations.Later;
    hide Conversations.StateOk;
    hide TurnMeans;
    var done := TurnSpec(p, d, c.connection, turn, text, a.turn, a.now);
    if done.result.Ok? {
      TurnLeaves(p, d, c.connection, turn, text, a.turn, a.now);
      hide TurnSpec;
      hide DataOk;
      AnswerSpelled(p, d, c, turn, text, before, a);
    }
  }

  lemma TurnLeaves(p: Policy, d: Data, c: Id, turn: string, text: string, input: TurnInput, now: Time)
    requires TurnSpec(p, d, c, turn, text, input, now).result.Ok?
    ensures var e := TurnSpec(p, d, c, turn, text, input, now).data;
            && turn in e.turns && e.turns[turn].message.Some? && e.session.connection == Some(c)
            && e.session.startedAt == d.session.startedAt
            && e.session.state != Ended && e.session.state != Failed
  {
    hide SubmitSpec;
  }

  lemma AnswerSpelled(p: Policy, d: Data, c: Coordinator, turn: string, text: string, before: seq<ServerEvent>,
      a: Ambient)
    requires TurnSpec(p, d, c.connection, turn, text, a.turn, a.now).result.Ok?
    requires var e := TurnSpec(p, d, c.connection, turn, text, a.turn, a.now).data;
             && turn in e.turns && e.turns[turn].message.Some? && e.session.connection == Some(c.connection)
             && e.session.state != Ended && e.session.state != Failed
    ensures var done := TurnSpec(p, d, c.connection, turn, text, a.turn, a.now);
            FinalAnswer(p, done.data, c, turn, done.result.value, before, a, FinalSpec(p, d, c, turn, text, before, a))
  {
    hide TurnSpec;
    hide WellFormedAudio;
    var done := TurnSpec(p, d, c.connection, turn, text, a.turn, a.now);
    var h := FinalSpec(p, d, c, turn, text, before, a);
    if h.result.Ok? {
      var answer := [AnswerSent(turn, done.data.turns[turn].message), StateSent(done.data.session.state)];
      var spoken := if done.result.value then [] else a.spoken.value;
      assert h.result.value == before + (answer + AudioEvents(spoken));
      assert h.result.value[|before|..] == answer + AudioEvents(spoken);
    }
  }

  lemma HearSpelled(p: Policy, d: Data, flights: map<Id, Conversations.Flight>, c: Coordinator, turn: string,
      events: seq<ProviderEvent>, a: Ambient, j: nat)
    requires j <= |events| && Partial(events[..j], turn)
    requires d.session.conversation < |a.turn.read.conversations|
    requires DataOk(p, d, flights) && Conversations.Later(a.turn.read, d.chat)
    requires forall text :: TurnMeans(p, d, c.connection, turn, text, a.turn, a.now,
                                      TurnSpec(p, d, c.connection, turn, text, a.turn, a.now))
    ensures HeardMeans(p, d, c, turn, events, a, j, HearSpec(p, d, c, turn, events, false, [], a))
  {
    hide FinalSpec;
    hide DataOk;
    hide TurnMeans;
    hide Conversations.Later;
    HearPartial(p, d, c, turn, events, j, false, [], a);
    var passed := Passing(events[..j], turn);
    assert [] + passed == passed;
    if j == |events| {
      assert events[..j] == events;
    } else if Said(events[j], turn) && events[j].final {
      hide HearSpec;
      HearFinal(p, d, flights, c, turn, events, a, j, passed);
    }
  }

  lemma HearFinal(p: Policy, d: Data, flights: map<Id, Conversations.Flight>, c: Coordinator, turn: string,
      events: seq<ProviderEvent>, a: Ambient, j: nat, passed: seq<ServerEvent>)
    requires j < |events| && Partial(events[..j], turn) && Said(events[j], turn) && events[j].final
    requires d.session.conversation < |a.turn.read.conversations|
    requires DataOk(p, d, flights) && Conversations.Later(a.turn.read, d.chat)
    requires TurnMeans(p, d, c.connection, turn, events[j].text, a.turn, a.now,
                       TurnSpec(p, d, c.connection, turn, events[j].text, a.turn, a.now))
    requires PassedOn(events[..j], turn, passed)
    ensures HeardMeans(p, d, c, turn, events, a, j, HearSpec(p, d, c, turn, events[j..], false, passed, a))
  {
    hide FinalSpec;
    hide DataOk;
    hide TurnMeans;
    hide Conversations.Later;
    var before := passed + [TranscriptSent(turn, true, events[j].text)];
    assert PassedOn(events[..j + 1], turn, before) by {
      assert events[..j + 1] == events[..j] + [events[j]];
    }
    FinalSpelled(p, d, flights, c, turn, events[j].text, before, a);
    hide FinalMeans;
    var done := FinalSpec(p, d, c, turn, events[j].text, before, a);
    assert events[j..][0] == events[j] && events[j..][1..] == events[j + 1..];
    if done.result.Ok? {
      HearRest(p, done, turn, events[j + 1..], a);
    }
  }

  /** A frame of audio on a stream in every reachable state, with text clients committing while the
      turn is handled. */
  lemma AudioTheorem(p: Policy, o: Opening, steps: seq<Step>, between: seq<Conversations.Step>, c: Id, turn: string,
      sequence: nat, ambient: Ambient)
    requires Startable(o)
    ensures var w := Run(p, o, steps);
            c in w.streams ==>
              var d := TextSteps(w, between).data;
              var a := ambient.(turn := ambient.turn.(read := w.data.chat));
              && d.session.conversation < |w.data.chat.conversations|
              && AudioMeans(p, d, w.streams[c], turn, sequence, a,
                            HandleSpec(p, d, w.streams[c], AudioFrame(turn, sequence), a))
  {
    hide Run;
    hide TextSteps;
    hide TurnSpec;
    hide TurnMeans;
    hide HearSpec;
    hide HeardMeans;
    hide Conversations.StateOk;
    hide Conversations.Later;
    var w := Run(p, o, steps);
    var a := ambient.(turn := ambient.turn.(read := w.data.chat));
    TextKept(p, w, between);
    var n := TextSteps(w, between);
    hide DataOk;
    if c in w.streams {
      var k := w.streams[c];
      assert Coupled(w.data, k) && k.connection == c;
      forall text ensures TurnMeans(p, n.data, c, turn, text, a.turn, a.now,
                                    TurnSpec(p, n.data, c, turn, text, a.turn, a.now)) {
        FinalTheorem(p, o, steps, between, c, turn, text, ambient.turn, a.now);
      }
      if a.heard.Some? && sequence == Expected(k, turn) {
        var listened := k.(heard := k.heard[turn := sequence]);
        forall j: nat | j <= |a.heard.value| && Partial(a.heard.value[..j], turn)
          ensures HeardMeans(p, n.data, listened, turn, a.heard.value, a, j,
                             HearSpec(p, n.data, listened, turn, a.heard.value, false, [], a)) {
          HearSpelled(p, n.data, n.flights, listened, turn, a.heard.value, a, j);
        }
      }
    }
  }

  /** What a received payload commits, given what handling it answers: its changes if it succeeds or finds
      the session expired; otherwise nothing of it, and the stream is let go of, for a reconnection if
      the fault is malformed input and for good in any other case. */
  lemma ReceiveTheorem(p: Policy, o: Opening, steps: seq<Step>, between: seq<Conversations.Step>, c: Id,
      payload: Option<ClientEvent>, ambient: Ambient)
    requires Startable(o)
    ensures var w := Run(p, o, steps);
            c in w.streams ==>
              var seen := TextSteps(w, between);
              var a := ambient.(turn := ambient.turn.(read := w.data.chat));
              var n := Next(p, w, Receive(c, payload, ambient, between));
              && n.flights == seen.flights
              && (payload.None? ==>
                    Released(seen.data, n.data, c, Reconnecting, a.later) && n.streams == w.streams - {c})
              && (payload.Some? ==>
                    var h := HandleSpec(p, seen.data, w.streams[c], payload.value, a);
                    match h.result
                    case Ok(_) =>
                      n.data == h.data && n.streams == (if h.coordinator.ended then w.streams - {c}
                                                        else w.streams[c := h.coordinator])
                    case Raised(fault) =>
                      && n.streams == w.streams - {c}
                      && (if fault == Rejected(SessionExpired) || fault == Rejected(ReconnectExhausted)
                          then n.data == h.data
                          else Released(seen.data, n.data, c, if fault == Malformed then Reconnecting else Failed,
                                        a.later)))
  {
    hide Run;
    hide HandleSpec;
    hide TextSteps;
    hide DisconnectSpec;
    hide FailSpec;
    hide Conversations.StateOk;
    hide Conversations.Later;
    var w := Run(p, o, steps);
    TextKept(p, w, between);
    hide Released;
    if c in w.streams {
      LeaveSpelled(p, TextSteps(w, between).data, c, false, ambient.later);
    }
  }
}
