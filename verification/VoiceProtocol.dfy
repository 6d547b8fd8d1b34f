/** The wire coordinator of one voice connection (backend/app/voice/protocol.py) and the commit
    and rollback points of the stream that drives it (backend/app/voice/api.py). */
module VoiceProtocol {
  import opened Common
  import opened VoiceSession

  datatype ClientEvent =
    | AudioFrame(turn: string, sequence: nat)
    | InterruptTurn(turn: string)
    | PlaybackDone(turn: string)
    | EndSession

  datatype ProviderEvent = Transcript(turn: string, final: bool, text: string) | Sound(turn: string)

  /** One piece of synthesized audio. */
  datatype AudioPart = AudioPart(turn: string, sequence: int, final: bool)

  datatype ServerEvent =
    | TranscriptSent(turn: string, final: bool, text: string)
    | AnswerSent(turn: string, message: Option<Id>)
    | StateSent(state: State)
    | AudioSent(part: AudioPart)
    | InterruptSent(turn: string)

  /** The in-memory part of a connection. */
  datatype Coordinator = Coordinator(connection: Id, heard: map<string, nat>, turn: Option<string>, ended: bool)

  datatype Fault = Malformed | ProviderFailed | Rejected(error: Error)

  /** What the outside world does while one client event is handled: the transcripts heard and
      the audio synthesized (None where the provider fails), whether interrupting and closing the
      provider work, what the turn meets, and the clock at the call and after synthesis. */
  datatype Ambient = Ambient(
    heard: Option<seq<ProviderEvent>>, spoken: Option<seq<AudioPart>>, interruptOk: bool, closeOk: bool,
    turn: TurnInput, now: Time, later: Time)

  /** What handling an event leaves in the open transaction and in the coordinator. */
  datatype Handled = Handled(data: Data, coordinator: Coordinator, result: Result<seq<ServerEvent>, Fault>)

  // ---------------------------------------------------------------- synthesized audio

  /** The audio of one turn: numbered from 0 without gaps, its last part and no other final. */
  predicate WellFormedAudio(turn: string, parts: seq<AudioPart>) {
    && parts != []
    && forall i | 0 <= i < |parts| ::
        parts[i].turn == turn && parts[i].sequence == i && (parts[i].final <==> i == |parts| - 1)
  }

  /** `_validated_audio_events` */
  method ValidatedAudioEvents(turn: string, parts: seq<AudioPart>) returns (ok: bool)
    ensures ok <==> WellFormedAudio(turn, parts)
  {
    if parts == [] {
      return false;
    }
    var finalSeen := false;
    for i := 0 to |parts|
      invariant forall j | 0 <= j < i ::
          parts[j].turn == turn && parts[j].sequence == j && (parts[j].final ==> j == i - 1)
      invariant finalSeen <==> i > 0 && parts[i - 1].final
    {
      if parts[i].turn != turn || parts[i].sequence != i || finalSeen {
        assert finalSeen ==> parts[i - 1].final;
        return false;
      }
      finalSeen := parts[i].final;
    }
    return finalSeen;
  }

  // ---------------------------------------------------------------- handling on values

  function AudioEvents(parts: seq<AudioPart>): (r: seq<ServerEvent>)
    ensures |r| == |parts| && forall i | 0 <= i < |r| :: r[i] == AudioSent(parts[i])
  {
    seq(|parts|, i requires 0 <= i < |parts| => AudioSent(parts[i]))
  }

  /** `state_for_connection`, appending the state to the results. */
  function ReportSpec(p: Policy, d: Data, c: Coordinator, now: Time, sent: seq<ServerEvent>): Handled {
    var ready := RequireConnectionSpec(p, d, c.connection, now);
    Handled(ready.data, c,
            if ready.result.Raised? then Raised(Rejected(ready.result.error))
            else Ok(sent + [StateSent(d.session.state)]))
  }

  /** `finalize_turn` with its connection check. */
  function TurnSpec(p: Policy, d: Data, connection: Id, turn: string, text: string, input: TurnInput,
      now: Time): Reply<bool> {
    var ready := RequireConnectionSpec(p, d, connection, now);
    if ready.result.Raised? then Reply(ready.data, Raised(ready.result.error))
    else FinalizeSpec(d, turn, text, input, now)
  }

  /** `_audio` at the final transcript of a turn. */
  function FinalSpec(p: Policy, d: Data, c: Coordinator, turn: string, text: string, sent: seq<ServerEvent>,
      a: Ambient): Handled {
    var done := TurnSpec(p, d, c.connection, turn, text, a.turn, a.now);
    if done.result.Raised? then Handled(done.data, c, Raised(Rejected(done.result.error)))
    else
      var message := if turn in done.data.turns then done.data.turns[turn].message else None;
      var answered := sent + [AnswerSent(turn, message)];
      if done.result.value then ReportSpec(p, done.data, c, a.later, answered)
      else if a.spoken.None? || !WellFormedAudio(turn, a.spoken.value) then Handled(done.data, c, Raised(Malformed))
      else
        var reported := ReportSpec(p, done.data, c.(turn := Some(turn)), a.later, answered);
        if reported.result.Raised? then reported
        else reported.(result := Ok(reported.result.value + AudioEvents(a.spoken.value)))
  }

  /** The loop of `_audio` over the provider's events. */
  function HearSpec(p: Policy, d: Data, c: Coordinator, turn: string, events: seq<ProviderEvent>, finalSeen: bool,
      sent: seq<ServerEvent>, a: Ambient): Handled
    decreases |events|
  {
    if events == [] then Handled(d, c, Ok(sent))
    else
      var e := events[0];
      if !e.Transcript? || e.turn != turn then Handled(d, c, Raised(Malformed))
      else
        var heard := sent + [TranscriptSent(turn, e.final, e.text)];
        if !e.final then HearSpec(p, d, c, turn, events[1..], finalSeen, heard, a)
        else if finalSeen then Handled(d, c, Raised(Malformed))
        else
          var h := FinalSpec(p, d, c, turn, e.text, heard, a);
          if h.result.Raised? then h else HearSpec(p, h.data, h.coordinator, turn, events[1..], true, h.result.value, a)
  }

  function Expected(c: Coordinator, turn: string): nat {
    if turn in c.heard then c.heard[turn] + 1 else 0
  }

  /** `_audio` on values. */
  function AudioSpec(p: Policy, d: Data, c: Coordinator, turn: string, sequence: nat, a: Ambient): Handled {
    if sequence != Expected(c, turn) then Handled(d, c, Raised(Malformed))
    else
      var c1 := c.(heard := c.heard[turn := sequence]);
      if a.heard.None? then Handled(d, c1, Raised(Malformed)) else HearSpec(p, d, c1, turn, a.heard.value, false, [], a)
  }

  /** `handle` on values. */
  function HandleSpec(p: Policy, d: Data, c: Coordinator, event: ClientEvent, a: Ambient): Handled {
    if c.ended then Handled(d, c, Raised(Malformed))
    else match event
      case AudioFrame(turn, sequence) => AudioSpec(p, d, c, turn, sequence, a)
      case InterruptTurn(turn) =>
        if c.turn != Some(turn) then Handled(d, c, Raised(Malformed))
        else if !a.interruptOk then Handled(d, c, Raised(ProviderFailed))
        else
          var r := InterruptSpec(p, d, c.connection, turn, a.now);
          if r.result.Raised? then Handled(r.data, c, Raised(Rejected(r.result.error)))
          else Handled(r.data, c.(turn := None), Ok([InterruptSent(turn), StateSent(r.data.session.state)]))
      case PlaybackDone(turn) =>
        if c.turn != Some(turn) then Handled(d, c, Raised(Malformed))
        else
          var r := PlaybackSpec(p, d, c.connection, a.now);
          if r.result.Raised? then Handled(r.data, c, Raised(Rejected(r.result.error)))
          else Handled(r.data, c.(turn := None), Ok([StateSent(r.data.session.state)]))
      case EndSession =>
        var c1 := c.(ended := true);
        if !a.closeOk then Handled(d, c1, Raised(ProviderFailed))
        else
          var r := DisconnectSpec(d, c.connection, true, a.now);
          if r.result.Raised? then Handled(r.data, c1, Raised(Rejected(r.result.error)))
          else Handled(r.data, c1, Ok([StateSent(Ended)]))
  }

  /** The errors after which the stream commits what the call had changed. */
  predicate Commits(f: Fault) {
    f == Rejected(SessionExpired) || f == Rejected(ReconnectExhausted)
  }

  /** What one received payload commits (None: it did not parse), from the committed data `d`. */
  function ReceiveSpec(p: Policy, d: Data, c: Coordinator, payload: Option<ClientEvent>, a: Ambient): Handled {
    var h := if payload.None? then Handled(d, c, Raised(Malformed)) else HandleSpec(p, d, c, payload.value, a);
    if h.result.Ok? || Commits(h.result.error) then h
    else if h.result.error == Malformed then h.(data := DisconnectSpec(d, c.connection, false, a.later).data)
    else h.(data := FailSpec(d, c.connection, a.later).data)
  }

  /** What accepting a stream commits, and the connection it gets: a provider that cannot be
      reached rolls everything back, while expiry and exhaustion are committed. */
  function AcceptSpec(p: Policy, d: Data, credential: string, identityOk: bool, providerOk: bool, now: Time,
      later: Time): (Data, Option<Id>) {
    var reply := OpenSpec(p, d, now, credential, identityOk);
    if reply.result.Raised? then (if Commits(Rejected(reply.result.error)) then reply.data else d, None)
    else if !providerOk then (d, None)
    else
      var ready := RequireConnectionSpec(p, reply.data, reply.result.value, later);
      if ready.result.Raised? then (ready.data, None) else (reply.data, Some(reply.result.value))
  }

  // ---------------------------------------------------------------- the coordinator

  class VoiceProtocolCoordinator {
    const service: VoiceSessionService
    const connection: Id
    var heard: map<string, nat>
    var turn: Option<string>
    var ended: bool

    constructor (service: VoiceSessionService, connection: Id)
      ensures this.service == service && View() == Coordinator(connection, map[], None, false)
    {
      this.service, this.connection := service, connection;
      heard, turn, ended := map[], None, false;
    }

    function View(): Coordinator
      reads this
    {
      Coordinator(connection, heard, turn, ended)
    }

    /** What a call promises: its result, and the data and coordinator wherever they matter. */
    ghost predicate Did(spec: Handled, r: Result<seq<ServerEvent>, Fault>)
      reads this, service
    {
      && r == spec.result
      && (r.Ok? || Commits(r.error) ==> service.data == spec.data)
      && (r.Ok? ==> View() == spec.coordinator)
    }

    /** `state_for_connection` */
    method Report(now: Time, sent: seq<ServerEvent>) returns (r: Result<seq<ServerEvent>, Fault>)
      modifies service
      ensures Did(ReportSpec(service.policy, old(service.data), View(), now, sent), r)
    {
      if service.data.session.connection != Some(connection) {
        return Raised(Rejected(AuthFailed));
      }
      var live := service.RequireLive(now);
      if live.Raised? {
        return Raised(Rejected(live.error));
      }
      return Ok(sent + [StateSent(service.data.session.state)]);
    }

    method Final(logical: string, text: string, sent: seq<ServerEvent>, a: Ambient)
        returns (r: Result<seq<ServerEvent>, Fault>)
      modifies this, service
      ensures Did(FinalSpec(service.policy, old(service.data), old(View()), logical, text, sent, a), r)
    {
      var done := service.FinalizeTurn(connection, logical, text, a.turn, a.now);
      if done.Raised? {
        return Raised(Rejected(done.error));
      }
      var message := if logical in service.data.turns then service.data.turns[logical].message else None;
      var results := sent + [AnswerSent(logical, message)];
      if done.value {
        r := Report(a.later, results);
        return;
      }
      if a.spoken.None? {
        return Raised(Malformed);
      }
      var ok := ValidatedAudioEvents(logical, a.spoken.value);
      if !ok {
        return Raised(Malformed);
      }
      turn := Some(logical);
      r := Report(a.later, results);
      if r.Ok? {
        r := Ok(r.value + AudioEvents(a.spoken.value));
      }
    }

    /** `_audio` */
    method Audio(logical: string, sequence: nat, a: Ambient) returns (r: Result<seq<ServerEvent>, Fault>)
      modifies this, service
      ensures Did(AudioSpec(service.policy, old(service.data), old(View()), logical, sequence, a), r)
    {
      hide FinalSpec;
      if sequence != (if logical in heard then heard[logical] + 1 else 0) {
        return Raised(Malformed);
      }
      heard := heard[logical := sequence];
      if a.heard.None? {
        return Raised(Malformed);
      }
      var events := a.heard.value;
      var results: seq<ServerEvent>, finalSeen, i := [], false, 0;
      ghost var spec := AudioSpec(service.policy, old(service.data), old(View()), logical, sequence, a);
      assert events[0..] == events;
      while i < |events|
        invariant 0 <= i <= |events|
        invariant spec == HearSpec(service.policy, service.data, View(), logical, events[i..], finalSeen, results, a)
      {
        var e := events[i];
        assert events[i..][1..] == events[i + 1..];
        if !e.Transcript? || e.turn != logical {
          return Raised(Malformed);
        }
        results := results + [TranscriptSent(logical, e.final, e.text)];
        if e.final {
          if finalSeen {
            return Raised(Malformed);
          }
          finalSeen := true;
          r := Final(logical, e.text, results, a);
          if r.Raised? {
            return;
          }
          results := r.value;
        }
        i := i + 1;
      }
      return Ok(results);
    }

    /** `handle` */
    method Handle(event: ClientEvent, a: Ambient) returns (r: Result<seq<ServerEvent>, Fault>)
      modifies this, service
      ensures Did(HandleSpec(service.policy, old(service.data), old(View()), event, a), r)
    {
      hide AudioSpec;
      if ended {
        return Raised(Malformed);
      }
      match event {
        case AudioFrame(logical, sequence) =>
          r := Audio(logical, sequence, a);
        case InterruptTurn(logical) =>
          if turn != Some(logical) {
            return Raised(Malformed);
          }
          if !a.interruptOk {
            return Raised(ProviderFailed);
          }
          var done := service.Interrupt(connection, logical, a.now);
          if done.Raised? {
            return Raised(Rejected(done.error));
          }
          turn := None;
          return Ok([InterruptSent(logical), StateSent(service.data.session.state)]);
        case PlaybackDone(logical) =>
          if turn != Some(logical) {
            return Raised(Malformed);
          }
          var done := service.PlaybackCompleted(connection, a.now);
          if done.Raised? {
            return Raised(Rejected(done.error));
          }
          turn := None;
          return Ok([StateSent(service.data.session.state)]);
        case EndSession =>
          ended := true;
          if !a.closeOk {
            return Raised(ProviderFailed);
          }
          var done := service.Disconnect(connection, true, a.now);
          if done.Raised? {
            return Raised(Rejected(done.error));
          }
          return Ok([StateSent(Ended)]);
      }
    }
  }

  // ---------------------------------------------------------------- the stream

  /** One database session of a stream: `committed` is what other transactions see. */
  class VoiceStream {
    const service: VoiceSessionService
    var committed: Data

    constructor (service: VoiceSessionService)
      ensures this.service == service && committed == service.data
    {
      this.service, committed := service, service.data;
    }

    /** The stream up to its first payload: None where it is closed at once. */
    method Accept(credential: string, identityOk: bool, providerOk: bool, now: Time, later: Time)
        returns (coordinator: Option<VoiceProtocolCoordinator>)
      requires service.data == committed
      modifies this, service
      ensures service.data == committed
      ensures var spec := AcceptSpec(service.policy, old(committed), credential, identityOk, providerOk, now, later);
              && committed == spec.0
              && (coordinator.Some? <==> spec.1.Some?)
              && (coordinator.Some? ==>
                  fresh(coordinator.value) && coordinator.value.service == service
                  && coordinator.value.View() == Coordinator(spec.1.value, map[], None, false))
    {
      hide OpenSpec;
      var access := service.OpenConnection(now, credential, identityOk);
      if access.Raised? {
        if access.error == SessionExpired || access.error == ReconnectExhausted {
          committed := service.data;
        } else {
          service.data := committed;
        }
        return None;
      }
      if !providerOk {
        service.data := committed;
        return None;
      }
      var accepted := new VoiceProtocolCoordinator(service, access.value);
      committed := service.data;
      var state := accepted.Report(later, []);
      if state.Raised? {
        if state.error == Rejected(SessionExpired) {
          committed := service.data;
        } else {
          service.data := committed;
          service.FailConnection(access.value, later);
          committed := service.data;
        }
        return None;
      }
      return Some(accepted);
    }

    /** Handling one payload: `alive` says whether the stream goes on. */
    method Receive(coordinator: VoiceProtocolCoordinator, payload: Option<ClientEvent>, a: Ambient)
        returns (alive: bool)
      requires coordinator.service == service && service.data == committed
      modifies this, service, coordinator
      ensures service.data == committed
      ensures var spec := ReceiveSpec(service.policy, old(committed), old(coordinator.View()), payload, a);
              && committed == spec.data
              && (alive <==> spec.result.Ok? && !spec.coordinator.ended)
              && (spec.result.Ok? ==> coordinator.View() == spec.coordinator)
    {
      hide HandleSpec;
      var r: Result<seq<ServerEvent>, Fault> := Raised(Malformed);
      if payload.Some? {
        r := coordinator.Handle(payload.value, a);
      }
      if r.Ok? {
        committed := service.data;
        return !coordinator.ended;
      }
      if r.error == Rejected(SessionExpired) || r.error == Rejected(ReconnectExhausted) {
        committed := service.data;
        return false;
      }
      service.data := committed;
      if r.error == Malformed {
        coordinator.ended := true;
        var gone := service.Disconnect(coordinator.connection, false, a.later);
        if gone.Raised? {
          service.data := committed;
        }
      } else {
        service.FailConnection(coordinator.connection, a.later);
      }
      committed := service.data;
      return false;
    }
  }
}
