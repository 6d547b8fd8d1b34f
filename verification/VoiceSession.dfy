/** The realtime voice session (backend/app/voice/service.py and state_machine.py): one durable
    record, its logical turns, and the conversation the turns are submitted to. */
module VoiceSession {
  import opened Common
  import Conversations

  // ---------------------------------------------------------------- state machine

  datatype State =
    | IdleState | Connecting | Listening | Processing | Speaking | Interrupting | Reconnecting | Ended | Failed

  predicate Terminal(s: State) {
    s == Ended || s == Failed
  }

  /** The transition table. */
  function Targets(s: State): set<State> {
    match s
    case IdleState => {Connecting, Ended, Failed}
    case Connecting => {Listening, Ended, Failed}
    case Listening => {Processing, Reconnecting, Ended, Failed}
    case Processing => {Speaking, Listening, Reconnecting, Ended, Failed}
    case Speaking => {Interrupting, Listening, Reconnecting, Ended, Failed}
    case Interrupting => {Listening, Processing, Reconnecting, Ended, Failed}
    case Reconnecting => {Connecting, Listening, Ended, Failed}
    case Ended => {}
    case Failed => {}
  }

  // ---------------------------------------------------------------- data

  /** `opens` numbers the connections: the n-th opened connection has identifier n, which stands
      for the fresh `uuid4` the service draws. */
  datatype Session = Session(
    user: Id, conversation: Id, state: State, connection: Option<Id>, reconnects: nat,
    connectedAt: Option<Time>, startedAt: Time, lastActivity: Time,
    credential: string, credentialExpires: Time, opens: nat, version: nat)

  datatype TurnStatus = TurnProcessing | TurnCompleted | TurnInterrupted
  datatype Turn = Turn(transcript: string, status: TurnStatus, message: Option<Id>)

  datatype Data = Data(id: Id, session: Session, turns: map<string, Turn>, chat: Conversations.Store)

  datatype Policy = Policy(idleTimeout: Time, maxSession: Time, maxReconnects: nat)

  datatype Error =
    | AuthFailed | SessionExpired | ReconnectExhausted | SessionConflict | InvalidTransition
    | IdentityInvalid | TurnConflict | NotFound | ChatFailed

  /** What a service call leaves in the open transaction, raised or not. Whether that is
      committed or rolled back is decided by the caller. */
  datatype Reply<+T> = Reply(data: Data, result: Result<T, Error>)

  /** `require_voice_transition`: staying put is always allowed. */
  function Move(s: Session, target: State): Result<Session, Error> {
    if target == s.state || target in Targets(s.state) then Ok(s.(state := target)) else Raised(InvalidTransition)
  }

  predicate TimedOut(p: Policy, s: Session, now: Time) {
    s.startedAt + p.maxSession <= now
  }

  /** `_require_not_terminal_or_timed_out` on values: a timeout fails the session, then raises. */
  function RequireLiveSpec(p: Policy, d: Data, now: Time): Reply<()> {
    if Terminal(d.session.state) then Reply(d, Raised(SessionExpired))
    else if TimedOut(p, d.session, now) then Reply(d.(session := Move(d.session, Failed).value), Raised(SessionExpired))
    else Reply(d, Ok(()))
  }

  /** `_require_connection` on values. */
  function RequireConnectionSpec(p: Policy, d: Data, connection: Id, now: Time): Reply<()> {
    if d.session.connection != Some(connection) then Reply(d, Raised(AuthFailed)) else RequireLiveSpec(p, d, now)
  }

  // ---------------------------------------------------------------- connections

  /** `open_connection`: leaving a connection that went idle. */
  function TakeOverSpec(p: Policy, s: Session, now: Time): Result<Session, Error> {
    if s.connection.None? then Ok(s)
    else if s.lastActivity + p.idleTimeout > now then Raised(SessionConflict)
    else Move(s.(connection := None), Reconnecting)
  }

  /** `open_connection`: counting the reconnection. */
  function CountSpec(s: Session): Result<Session, Error> {
    if s.connectedAt.None? then Ok(s)
    else
      var s1 := s.(reconnects := s.reconnects + 1);
      if s1.state == Reconnecting then Ok(s1) else Move(s1, Reconnecting)
  }

  /** `open_connection`: entering LISTENING on a fresh connection. */
  function EnterSpec(s: Session, now: Time): Result<Session, Error> {
    var s1 :- if s.state == Reconnecting then Move(s, Connecting) else Ok(s);
    var s2 :- Move(s1, Listening);
    Ok(s2.(connection := Some(s.opens + 1), opens := s.opens + 1, connectedAt := Some(now), lastActivity := now,
           version := s.version + 1))
  }

  /** `open_connection` on values, for a session that is live. */
  function ConnectSpec(p: Policy, d: Data, now: Time): Reply<Id> {
    var taken := TakeOverSpec(p, d.session, now);
    if taken.Raised? then Reply(d, Raised(taken.error))
    else
      var s := taken.value;
      if s.connectedAt.Some? && s.reconnects >= p.maxReconnects then
        var failed := Move(s, Failed);
        if failed.Ok? then Reply(d.(session := failed.value), Raised(ReconnectExhausted))
        else Reply(d, Raised(InvalidTransition))
      else
        var counted := CountSpec(s);
        if counted.Raised? then Reply(d, Raised(counted.error))
        else
          var entered := EnterSpec(counted.value, now);
          if entered.Raised? then Reply(d, Raised(entered.error))
          else Reply(d.(session := entered.value), Ok(entered.value.opens))
  }

  /** `open_connection` on values. */
  function OpenSpec(p: Policy, d: Data, now: Time, credential: string, identityOk: bool): Reply<Id> {
    if d.session.credential != credential then Reply(d, Raised(AuthFailed))
    else if d.session.credentialExpires <= now then Reply(d, Raised(SessionExpired))
    else if !identityOk then Reply(d, Raised(IdentityInvalid))
    else
      var live := RequireLiveSpec(p, d, now);
      if live.result.Raised? then Reply(live.data, Raised(live.result.error)) else ConnectSpec(p, d, now)
  }

  /** `disconnect` on values. Another connection's session is left alone. */
  function DisconnectSpec(d: Data, connection: Id, end: bool, now: Time): Reply<()> {
    if d.session.connection != Some(connection) then Reply(d, Ok(()))
    else
      var s := d.session.(connection := None, lastActivity := now, version := d.session.version + 1);
      var moved := if Terminal(s.state) then Ok(s) else Move(s, if end then Ended else Reconnecting);
      if moved.Ok? then Reply(d.(session := moved.value), Ok(())) else Reply(d, Raised(moved.error))
  }

  /** `fail_connection` on values. */
  function FailSpec(d: Data, connection: Id, now: Time): Reply<()> {
    if d.session.connection != Some(connection) then Reply(d, Ok(()))
    else
      var s := d.session.(connection := None, lastActivity := now, version := d.session.version + 1);
      var moved := if Terminal(s.state) then Ok(s) else Move(s, Failed);
      if moved.Ok? then Reply(d.(session := moved.value), Ok(())) else Reply(d, Raised(moved.error))
  }

  /** `end_owned` on values. */
  function EndSpec(d: Data): Data {
    if Terminal(d.session.state) then d
    else d.(session := Move(d.session, Ended).value.(connection := None, version := d.session.version + 1))
  }

  /** `refresh_credential` on values. */
  function RefreshSpec(p: Policy, d: Data, now: Time, credential: string, expires: Time): Reply<()> {
    var live := RequireLiveSpec(p, d, now);
    if live.result.Raised? then live
    else if expires <= now then Reply(d, Raised(AuthFailed))
    else
      var s := d.session.(credential := credential, credentialExpires := expires, version := d.session.version + 1);
      Reply(d.(session := s), Ok(()))
  }

  // ---------------------------------------------------------------- turns

  /** Submitting to the conversation. The rows are read in `read` and written in `write`, which
      other transactions may have moved on in between. */
  function SubmitSpec(read: Conversations.Store, write: Conversations.Store, user: Id, conversation: Id,
                      r: Conversations.Request, reply: Option<string>): Conversations.Outcome<(Conversations.Store, Id)>
  {
    var begun :- Conversations.BeginSpec(read, user, conversation, r);
    match begun
    case Answered(m) => Ok((write, m))
    case Reading(seen) => Conversations.CompleteSpec(write, user, conversation, r, seen, reply)
  }

  /** The request of a turn, at the version of the conversation that was read. */
  function TurnRequest(id: Id, turn: string, transcript: string, version: nat): Conversations.Request {
    Conversations.Request(transcript, "voice", Conversations.VoiceKey(id, turn), version)
  }

  /** What a final transcript meets outside the session: is the identity still valid, what did the
      conversation tables hold when they were read, what does the assistant answer. */
  datatype TurnInput = TurnInput(identityOk: bool, read: Conversations.Store, reply: Option<string>)

  /** `finalize_turn` on values, once the connection was checked: whether it was a replay. The
      session row is locked throughout; the conversation may have moved on since `input.read`. */
  function FinalizeSpec(d: Data, turn: string, transcript: string, input: TurnInput, now: Time): Reply<bool> {
    var s, read := d.session, input.read;
    if !input.identityOk then Reply(d, Raised(IdentityInvalid))
    else if turn in d.turns && d.turns[turn].transcript != transcript then Reply(d, Raised(TurnConflict))
    else if s.conversation >= |read.conversations| || read.conversations[s.conversation].user != s.user
    then Reply(d, Raised(NotFound))
    else
      var entered := if turn in d.turns then Ok(s) else Move(s, Processing);
      if entered.Raised? then Reply(d, Raised(entered.error))
      else
        var request := TurnRequest(d.id, turn, transcript, read.conversations[s.conversation].version);
        var sent := SubmitSpec(read, d.chat, s.user, s.conversation, request, input.reply);
        if sent.Raised? then Reply(d, Raised(ChatFailed))
        else
          var (chat, m) := sent.value;
          var spoken := if entered.value.state == Processing then Move(entered.value, Speaking) else entered;
          if spoken.Raised? then Reply(d, Raised(spoken.error))
          else
            Reply(Data(d.id, spoken.value.(lastActivity := now, version := s.version + 1),
                       d.turns[turn := Turn(transcript, TurnCompleted, Some(m))], chat),
                  Ok(turn in d.turns && d.turns[turn].status == TurnCompleted))
  }

  /** `interrupt` on values. */
  function InterruptSpec(p: Policy, d: Data, connection: Id, turn: string, now: Time): Reply<()> {
    var ready := RequireConnectionSpec(p, d, connection, now);
    if ready.result.Raised? then ready
    else
      var s := d.session;
      var moved: Result<Session, Error> :=
        if s.state == Speaking then (var s1 :- Move(s, Interrupting); Move(s1, Listening))
        else if s.state == Processing then Move(s, Listening)
        else if s.state != Listening then Raised(InvalidTransition)
        else Ok(s);
      if moved.Raised? then Reply(d, Raised(moved.error))
      else
        Reply(d.(session := moved.value.(lastActivity := now, version := s.version + 1),
                 turns := if turn in d.turns && d.turns[turn].status == TurnProcessing
                          then d.turns[turn := d.turns[turn].(status := TurnInterrupted)]
                          else d.turns), Ok(()))
  }

  /** `playback_completed` on values. */
  function PlaybackSpec(p: Policy, d: Data, connection: Id, now: Time): Reply<()> {
    var ready := RequireConnectionSpec(p, d, connection, now);
    if ready.result.Raised? then ready
    else
      var s := d.session;
      var moved :=
        if s.state == Speaking then Move(s, Listening)
        else if s.state != Listening then Raised(InvalidTransition)
        else Ok(s);
      if moved.Raised? then Reply(d, Raised(moved.error))
      else Reply(d.(session := moved.value.(lastActivity := now, version := s.version + 1)), Ok(()))
  }

  // ---------------------------------------------------------------- the service

  /** The service over one open transaction: `data` is what the session has loaded and changed. */
  class VoiceSessionService {
    const policy: Policy
    var data: Data

    constructor (policy: Policy, data: Data)
      ensures this.policy == policy && this.data == data
    {
      this.policy := policy;
      this.data := data;
    }

    method RequireLive(now: Time) returns (r: Result<(), Error>)
      modifies this
      ensures Reply(data, r) == RequireLiveSpec(policy, old(data), now)
    {
      if data.session.state == Ended || data.session.state == Failed {
        return Raised(SessionExpired);
      }
      if data.session.startedAt + policy.maxSession <= now {
        data := data.(session := data.session.(state := Failed));
        return Raised(SessionExpired);
      }
      return Ok(());
    }

    method OpenConnection(now: Time, credential: string, identityOk: bool) returns (r: Result<Id, Error>)
      modifies this
      ensures var spec := OpenSpec(policy, old(data), now, credential, identityOk);
              && r == spec.result
              && (r.Ok? || r.error == SessionExpired || r.error == ReconnectExhausted ==> data == spec.data)
    {
      if data.session.credential != credential {
        return Raised(AuthFailed);
      }
      if data.session.credentialExpires <= now {
        return Raised(SessionExpired);
      }
      if !identityOk {
        return Raised(IdentityInvalid);
      }
      var live := RequireLive(now);
      if live.Raised? {
        return Raised(live.error);
      }
      if data.session.connection.Some? {
        if data.session.lastActivity + policy.idleTimeout > now {
          return Raised(SessionConflict);
        }
        var left := Move(data.session.(connection := None), Reconnecting);
        if left.Raised? {
          return Raised(left.error);
        }
        data := data.(session := left.value);
      }
      if data.session.connectedAt.Some? {
        if data.session.reconnects >= policy.maxReconnects {
          var failed := Move(data.session, Failed);
          if failed.Raised? {
            return Raised(failed.error);
          }
          data := data.(session := failed.value);
          return Raised(ReconnectExhausted);
        }
        data := data.(session := data.session.(reconnects := data.session.reconnects + 1));
        if data.session.state != Reconnecting {
          var reconnecting := Move(data.session, Reconnecting);
          if reconnecting.Raised? {
            return Raised(reconnecting.error);
          }
          data := data.(session := reconnecting.value);
        }
      }
      if data.session.state == Reconnecting {
        var connecting := Move(data.session, Connecting);
        data := data.(session := connecting.value);
      }
      var listening := Move(data.session, Listening);
      if listening.Raised? {
        return Raised(listening.error);
      }
      var connection := data.session.opens + 1;
      data := data.(session := listening.value.(
        connection := Some(connection), opens := connection, connectedAt := Some(now), lastActivity := now,
        version := data.session.version + 1));
      return Ok(connection);
    }

    method FinalizeTurn(connection: Id, turn: string, transcript: string, input: TurnInput, now: Time)
        returns (r: Result<bool, Error>)
      modifies this
      ensures var ready := RequireConnectionSpec(policy, old(data), connection, now);
              if ready.result.Raised? then r == Raised(ready.result.error) && data == ready.data
              else
                var spec := FinalizeSpec(old(data), turn, transcript, input, now);
                r == spec.result && (r.Ok? ==> data == spec.data)
    {
      if data.session.connection != Some(connection) {
        return Raised(AuthFailed);
      }
      var live := RequireLive(now);
      if live.Raised? {
        return Raised(live.error);
      }
      if !input.identityOk {
        return Raised(IdentityInvalid);
      }
      if turn in data.turns && data.turns[turn].transcript != transcript {
        return Raised(TurnConflict);
      }
      var replayed := turn in data.turns && data.turns[turn].status == TurnCompleted;
      var conversation := data.session.conversation;
      if conversation >= |input.read.conversations|
          || input.read.conversations[conversation].user != data.session.user {
        return Raised(NotFound);
      }
      if turn !in data.turns {
        var processing := Move(data.session, Processing);
        if processing.Raised? {
          return Raised(processing.error);
        }
        data := data.(session := processing.value, turns := data.turns[turn := Turn(transcript, TurnProcessing, None)]);
      }
      var request := TurnRequest(data.id, turn, transcript, input.read.conversations[conversation].version);
      var sent := SubmitSpec(input.read, data.chat, data.session.user, conversation, request, input.reply);
      if sent.Raised? {
        return Raised(ChatFailed);
      }
      data := data.(chat := sent.value.0,
                    turns := data.turns[turn := Turn(transcript, TurnCompleted, Some(sent.value.1))]);
      if data.session.state == Processing {
        data := data.(session := data.session.(state := Speaking));
      }
      data := data.(session := data.session.(lastActivity := now, version := data.session.version + 1));
      return Ok(replayed);
    }

    method Interrupt(connection: Id, turn: string, now: Time) returns (r: Result<(), Error>)
      modifies this
      ensures var spec := InterruptSpec(policy, old(data), connection, turn, now); r == spec.result && data == spec.data
    {
      if data.session.connection != Some(connection) {
        return Raised(AuthFailed);
      }
      var live := RequireLive(now);
      if live.Raised? {
        return live;
      }
      if data.session.state == Speaking {
        data := data.(session := data.session.(state := Interrupting));
        data := data.(session := data.session.(state := Listening));
      } else if data.session.state == Processing {
        data := data.(session := data.session.(state := Listening));
      } else if data.session.state != Listening {
        return Raised(InvalidTransition);
      }
      data := data.(session := data.session.(lastActivity := now, version := data.session.version + 1));
      if turn in data.turns && data.turns[turn].status == TurnProcessing {
        data := data.(turns := data.turns[turn := data.turns[turn].(status := TurnInterrupted)]);
      }
      return Ok(());
    }

    method PlaybackCompleted(connection: Id, now: Time) returns (r: Result<(), Error>)
      modifies this
      ensures var spec := PlaybackSpec(policy, old(data), connection, now); r == spec.result && data == spec.data
    {
      if data.session.connection != Some(connection) {
        return Raised(AuthFailed);
      }
      var live := RequireLive(now);
      if live.Raised? {
        return live;
      }
      if data.session.state == Speaking {
        data := data.(session := data.session.(state := Listening));
      } else if data.session.state != Listening {
        return Raised(InvalidTransition);
      }
      data := data.(session := data.session.(lastActivity := now, version := data.session.version + 1));
      return Ok(());
    }

    method Disconnect(connection: Id, end: bool, now: Time) returns (r: Result<(), Error>)
      modifies this
      ensures var spec := DisconnectSpec(old(data), connection, end, now);
              r == spec.result && (r.Ok? ==> data == spec.data)
    {
      if data.session.connection != Some(connection) {
        return Ok(());
      }
      data := data.(session := data.session.(
        connection := None, lastActivity := now, version := data.session.version + 1));
      if data.session.state != Ended && data.session.state != Failed {
        var moved := Move(data.session, if end then Ended else Reconnecting);
        if moved.Raised? {
          return Raised(moved.error);
        }
        data := data.(session := moved.value);
      }
      return Ok(());
    }

    method FailConnection(connection: Id, now: Time)
      modifies this
      ensures data == FailSpec(old(data), connection, now).data && FailSpec(old(data), connection, now).result.Ok?
    {
      if data.session.connection != Some(connection) {
        return;
      }
      data := data.(session := data.session.(
        connection := None, lastActivity := now, version := data.session.version + 1));
      if data.session.state != Ended && data.session.state != Failed {
        data := data.(session := data.session.(state := Failed));
      }
    }

    method RefreshCredential(now: Time, credential: string, expires: Time) returns (r: Result<(), Error>)
      modifies this
      ensures Reply(data, r) == RefreshSpec(policy, old(data), now, credential, expires)
    {
      var live := RequireLive(now);
      if live.Raised? {
        return live;
      }
      if expires <= now {
        return Raised(AuthFailed);
      }
      data := data.(session := data.session.(
        credential := credential, credentialExpires := expires, version := data.session.version + 1));
      return Ok(());
    }

    method EndOwned()
      modifies this
      ensures data == EndSpec(old(data))
    {
      if data.session.state != Ended && data.session.state != Failed {
        data := data.(session := data.session.(
          state := Ended, connection := None, version := data.session.version + 1));
      }
    }
  }
}
