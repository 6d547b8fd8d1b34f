/** The voice server as a program: live streams with their coordinators, over committed rows. */
module VoiceServer {
  import opened Common
  import opened VoiceSession
  import opened VoiceProtocol
  import opened VoiceRuns
  import Conversations

  /** Every handler loads the committed rows when its transaction begins, so one service over them
      stands for the services of all handlers. */
  class Server {
    const stream: VoiceStream
    var live: map<Id, VoiceProtocolCoordinator>
    var flights: map<Id, Conversations.Flight>

    constructor (policy: Policy, data: Data, flights: map<Id, Conversations.Flight>)
      ensures Valid() && fresh(stream) && fresh(stream.service) && live == map[]
      ensures stream.service.policy == policy && View() == World(data, flights, map[])
    {
      var service := new VoiceSessionService(policy, data);
      stream := new VoiceStream(service);
      live, this.flights := map[], flights;
    }

    ghost predicate Valid()
      reads this, stream, stream.service
    {
      && stream.service.data == stream.committed
      && forall c | c in live :: live[c].service == stream.service && live[c].connection == c
    }

    /** The coordinators are objects of their own, told apart by their connections. */
    ghost function View(): World
      reads this, stream, live.Values
    {
      World(stream.committed, flights, map c | c in live :: live[c].View())
    }

    method Commit(d: Data)
      requires Valid()
      modifies stream, stream.service
      ensures Valid() && stream.committed == d
    {
      stream.committed := d;
      stream.service.data := d;
    }

    method Admit(coordinator: VoiceProtocolCoordinator)
      requires Valid() && coordinator.service == stream.service
      modifies this`live
      ensures Valid() && live == old(live)[coordinator.connection := coordinator]
      ensures View() == old(View()).(streams := old(View()).streams[coordinator.connection := coordinator.View()])
    {
      live := live[coordinator.connection := coordinator];
    }

    method Connect(credential: string, identityOk: bool, providerOk: bool, now: Time, later: Time)
      requires Valid()
      modifies this`live, stream, stream.service
      ensures Valid() && fresh(live.Values - old(live.Values))
      ensures View() ==
                ConnectStep(stream.service.policy, old(View()), credential, identityOk, providerOk, now, later)
    {
      hide AcceptSpec;
      ghost var w := View();
      var coordinator := stream.Accept(credential, identityOk, providerOk, now, later);
      assert View() == w.(data := stream.committed);
      hide View;
      hide Valid;
      if coordinator.Some? {
        assert Valid();
        Admit(coordinator.value);
      }
    }

    method Receive(c: Id, payload: Option<ClientEvent>, a: Ambient, between: seq<Conversations.Step>)
      requires Valid()
      modifies this, stream, stream.service, live.Values
      ensures Valid() && live.Values <= old(live.Values)
      ensures View() == ReceiveStep(stream.service.policy, old(View()), c, payload, a, between)
    {
      hide *;
      ghost var w := View();
      ViewKeys();
      var read := stream.committed.chat;
      TextClients(between);
      var b := a.(turn := a.turn.(read := read));
      ReceiveUnfolds(stream.service.policy, w, c, payload, a, between);
      if c in live {
        Handle(c, payload, b);
      }
    }

    lemma ViewKeys()
      ensures View().streams.Keys == live.Keys && View().data == stream.committed
    {
    }

    /** A payload for a live stream. */
    method Handle(c: Id, payload: Option<ClientEvent>, a: Ambient)
      requires Valid() && c in live
      modifies this`live, stream, stream.service, live[c]
      ensures Valid() && live.Values <= old(live.Values)
      ensures var w := old(View()); var h := ReceiveSpec(stream.service.policy, w.data, w.streams[c], payload, a);
              View() == World(h.data, w.flights,
                              if h.result.Ok? && !h.coordinator.ended then w.streams[c := h.coordinator]
                              else w.streams - {c})
    {
      hide ReceiveSpec;
      ghost var w := View();
      var mine := live[c];
      assert forall k | k in live && k != c :: live[k] != mine;
      var alive := stream.Receive(mine, payload, a);
      assert View() == w.(data := stream.committed, streams := w.streams[c := mine.View()]);
      assert w.streams[c := mine.View()] - {c} == w.streams - {c};
      hide View;
      if !alive {
        Forget(c);
      }
    }

    method TextClients(steps: seq<Conversations.Step>)
      requires Valid()
      modifies this`flights, stream, stream.service
      ensures Valid() && View() == TextSteps(old(View()), steps)
    {
      hide Conversations.After;
      var next := Conversations.After(Conversations.State(stream.committed.chat, flights), steps);
      Commit(stream.committed.(chat := next.store));
      flights := next.flights;
    }

    /** The stream is gone: its coordinator is forgotten. */
    method Forget(c: Id)
      requires Valid()
      modifies this`live
      ensures Valid() && live.Values <= old(live.Values)
      ensures View() == old(View()).(streams := old(View()).streams - {c})
    {
      live := live - {c};
    }

    method Leave(c: Id, end: bool, now: Time)
      requires Valid()
      modifies this`live, stream, stream.service
      ensures Valid() && live.Values <= old(live.Values)
      ensures View() == LeaveStep(old(View()), c, end, now)
    {
      hide *;
      ViewKeys();
      LeaveUnfolds(View(), c, end, now);
      if c in live {
        Disconnected(c, end, now);
        Forget(c);
      }
    }

    method Disconnected(c: Id, end: bool, now: Time)
      requires Valid()
      modifies stream, stream.service
      ensures Valid() && View() == old(View()).(data := DisconnectSpec(old(View()).data, c, end, now).data)
    {
      hide DisconnectSpec;
      RaisedUnchanged(stream.committed, c, end, now);
      var r := stream.service.Disconnect(c, end, now);
      if r.Ok? {
        stream.committed := stream.service.data;
      } else {
        stream.service.data := stream.committed;
      }
    }

    method End()
      requires Valid()
      modifies stream, stream.service
      ensures Valid() && View() == old(View()).(data := EndSpec(old(View()).data))
    {
      hide EndSpec;
      stream.service.EndOwned();
      stream.committed := stream.service.data;
    }

    method Refresh(now: Time, credential: string, expires: Time)
      requires Valid()
      modifies stream, stream.service
      ensures Valid() && View() == RefreshStep(stream.service.policy, old(View()), now, credential, expires)
    {
      hide RefreshSpec;
      var r := stream.service.RefreshCredential(now, credential, expires);
      if r.Ok? {
        stream.committed := stream.service.data;
      } else {
        stream.service.data := stream.committed;
      }
    }

    method Serve(step: Step)
      requires Valid()
      modifies this, stream, stream.service, live.Values
      ensures Valid() && fresh(live.Values - old(live.Values))
      ensures View() == Next(stream.service.policy, old(View()), step)
    {
      hide ConnectStep;
      hide ReceiveStep;
      hide LeaveStep;
      hide RefreshStep;
      hide TextSteps;
      hide EndSpec;
      hide View;
      hide Valid;
      match step {
        case Connect(credential, identityOk, providerOk, now, later) =>
          Connect(credential, identityOk, providerOk, now, later);
        case Receive(c, payload, a, between) =>
          Receive(c, payload, a, between);
        case IdleTimeout(c, now) =>
          Leave(c, true, now);
        case ClientGone(c, now) =>
          Leave(c, false, now);
        case Crash(c) =>
          Forget(c);
        case EndCall =>
          End();
        case RefreshCall(now, credential, expires) =>
          Refresh(now, credential, expires);
        case TextClient(s) =>
          TextClients([s]);
      }
    }
  }

  lemma ReceiveUnfolds(p: Policy, w: World, c: Id, payload: Option<ClientEvent>, a: Ambient,
      between: seq<Conversations.Step>)
    ensures var w1 := TextSteps(w, between); var r := ReceiveStep(p, w, c, payload, a, between);
            && w1.streams == w.streams
            && if c !in w.streams then r == w1
               else var h := ReceiveSpec(p, w1.data, w1.streams[c], payload, a.(turn := a.turn.(read := w.data.chat)));
                    r == World(h.data, w1.flights,
                               if h.result.Ok? && !h.coordinator.ended then w1.streams[c := h.coordinator]
                               else w1.streams - {c})
  {
    hide ReceiveSpec;
    hide Conversations.After;
  }

  lemma LeaveUnfolds(w: World, c: Id, end: bool, now: Time)
    ensures LeaveStep(w, c, end, now) ==
            if c !in w.streams then w
            else w.(data := DisconnectSpec(w.data, c, end, now).data).(streams := w.streams - {c})
  {
  }

  lemma RaisedUnchanged(d: Data, c: Id, end: bool, now: Time)
    ensures DisconnectSpec(d, c, end, now).result.Raised? ==> DisconnectSpec(d, c, end, now).data == d
  {
  }

  /** The server, step by step from a fresh session, reaches exactly the states of `Run`. */
  method ServeAll(policy: Policy, ghost o: Opening, data: Data, flights: map<Id, Conversations.Flight>,
      steps: seq<Step>) returns (server: Server)
    requires Startable(o) && World(data, flights, map[]) == Start(o)
    ensures server.Valid() && server.View() == Run(policy, o, steps)
  {
    hide Next;
    hide Inv;
    server := new Server(policy, data, flights);
    for i := 0 to |steps|
      invariant fresh(server) && fresh(server.stream) && fresh(server.stream.service) && fresh(server.live.Values)
      invariant server.Valid() && server.stream.service.policy == policy && server.View() == Run(policy, o, steps[..i])
    {
      assert steps[..i + 1][..i] == steps[..i];
      server.Serve(steps[i]);
    }
    assert steps[..|steps|] == steps;
  }
}
