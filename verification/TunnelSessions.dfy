/** The server's session loop and the client's message handler, as objects updated in place. */
module TunnelSessions {
  import opened Common
  import opened Messages
  import opened TunnelSystem
  import opened TunnelInvariant
  import opened PortListeners

  /** The client table next to the listener manager; a channel is named by its session. */
  class TunnelServer {
    var clients: map<ClientId, SessionId>
    const manager: PortListenerManager

    ghost predicate Valid()
      reads this, manager, manager.listeners.Values
    {
      manager.Valid()
    }

    constructor (manager: PortListenerManager)
      requires manager.Valid()
      ensures Valid() && this.manager == manager && clients == map[]
    {
      this.manager := manager;
      clients := map[];
    }

    method AddClient(x: ClientId, s: SessionId)
      modifies this
      ensures clients == old(clients)[x := s]
    {
      clients := clients[x := s];
    }

    method RemoveClient(x: ClientId) returns (was: Option<SessionId>)
      modifies this
      ensures clients == old(clients) - {x}
      ensures was == if x in old(clients) then Some(old(clients)[x]) else None
    {
      if x in clients {
        was := Some(clients[x]);
        clients := clients - {x};
      } else {
        was := None;
      }
    }

    /** The client joins the table, replacing an older entry. */
    method ReplaceClient(x: ClientId, s: SessionId)
      modifies this
      ensures clients == (old(clients) - {x})[x := s]
    {
      if x in clients { var _ := RemoveClient(x); }
      AddClient(x, s);
    }

    /**
     Config on session `s`, whose loop remembers `id`. When every port can be opened the new table and
     bindings are those of the step system; when one cannot, the client is removed again and the ports
     bound so far stay bound.
     */
    method HandleConfig(id: Option<ClientId>, x: ClientId, ms: seq<PortMapping>, s: SessionId, startable: set<Port>)
      returns (id': Option<ClientId>)
      requires Valid()
      modifies this, manager, manager.listeners.Values
      ensures Valid()
      ensures id.Some? ==> id' == id && clients == old(clients) && manager.View() == old(manager.View())
      ensures id.None? ==>
                var n := FirstFailure(old(manager.View().Keys), ms, startable);
                && manager.View() == BindAll(old(manager.View()), x, s, ms[..n])
                && (if n == |ms| then id' == Some(x) && clients == (old(clients) - {x})[x := s]
                    else id' == None && clients == old(clients) - {x})
    {
      id' := id;
      if id.None? {
        ReplaceClient(x, s);
        var ok := manager.BindPortsForClient(x, ms, s, startable);
        ghost var bound := manager.View();
        if ok {
          id' := Some(x);
        } else {
          var _ := RemoveClient(x);
          assert clients == old(clients) - {x};
        }
        assert manager.View() == bound;
      }
    }

    /** Takeover on session `s`; `sent` lists the messages and the sessions they go to, in order. */
    method HandleTakeover(id: Option<ClientId>, x: ClientId, ms: seq<PortMapping>, n: TakeoverId, s: SessionId)
      returns (id': Option<ClientId>, sent: seq<(SessionId, Message)>)
      requires Valid()
      modifies this, manager.listeners.Values
      ensures Valid()
      ensures id.Some? ==> id' == id && sent == [] && clients == old(clients) && manager.View() == old(manager.View())
      ensures id.None? ==>
                if ms != [] && (forall m :: m in ms ==> m.remotePort !in old(manager.View())) then
                  && id' == None && sent == [(s, TakeoverFailed)]
                  && clients == old(clients) && manager.View() == old(manager.View())
                else
                  && id' == Some(x) && clients == old(clients)[x := s]
                  && manager.View() == SwitchAll(old(manager.View()), x, s, ms)
                  && sent == [(s, TakeoverReady(n))] +
                             (if x in old(clients) then [(old(clients)[x], TakeoverComplete(n))] else [])
    {
      id', sent := id, [];
      if id.None? {
        var oldChannel := if x in clients then Some(clients[x]) else None;
        ghost var before := manager.View();
        var switched := manager.SwitchClientBinding(x, s, ms);
        if switched.Some? {
          clients := clients[x := s];
          id' := Some(x);
          sent := [(s, TakeoverReady(n))];
          if oldChannel.Some? { sent := sent + [(oldChannel.value, TakeoverComplete(n))]; }
        } else {
          NothingSwitched(before, x, s, ms);
          sent := [(s, TakeoverFailed)];
        }
      }
    }

    /** The end of a session's loop: both cleanups are keyed by the client id. */
    method CleanUp(id: Option<ClientId>)
      requires Valid()
      modifies this, manager.listeners.Values
      ensures Valid()
      ensures id.None? ==> clients == old(clients) && manager.View() == old(manager.View())
      ensures id.Some? ==> clients == old(clients) - {id.value} && manager.View() == UnbindAll(old(manager.View()), id.value)
    {
      if id.Some? {
        var _ := RemoveClient(id.value);
        manager.UnbindClient(id.value);
      }
    }
  }

  lemma {:induction false} NothingSwitched(ls: Listeners, x: ClientId, s: SessionId, ms: seq<PortMapping>)
    requires forall m :: m in ms ==> m.remotePort !in ls
    ensures SwitchAll(ls, x, s, ms) == ls
  {
    if ms != [] {
      assert ms[|ms| - 1] in ms;
      NothingSwitched(ls, x, s, ms[..|ms| - 1]);
    }
  }

  // ---------- the client ----------

  /** What a client does with one server message besides updating its own state. */
  datatype Act = Ignore | Dial(conn: ConnId) | Refuse(conn: ConnId) | Deliver(conn: ConnId, data: Bytes)

  /** The client's loop state: registered connections, its phase and its mappings. */
  class TunnelClient {
    const mappings: seq<PortMapping>
    var phase: ClientPhase
    var local: set<ConnId>

    constructor (mappings: seq<PortMapping>, phase: ClientPhase)
      ensures this.mappings == mappings && this.phase == phase && local == {}
    {
      this.mappings, this.phase, local := mappings, phase, {};
    }

    /** This object is the client side of session `e`. */
    ghost predicate Is(e: Session)
      reads this
    {
      e.phase == phase && e.local == local && e.mappings == mappings
    }

    method FindMapping(p: Port) returns (found: bool)
      ensures found <==> Maps(mappings, p)
    {
      for i := 0 to |mappings|
        invariant forall j :: 0 <= j < i ==> mappings[j].remotePort != p
      {
        if mappings[i].remotePort == p {
          assert mappings[i] in mappings;
          return true;
        }
      }
      return false;
    }

    /** One message of the client's loop, in takeover mode or not. */
    method Receive(m: Message) returns (act: Act)
      requires phase.Waiting? || phase.Serving?
      modifies this
      ensures phase == AfterMessage(old(phase), m)
      ensures local == if phase.Exited? then {} else if m.Close? && old(phase).Serving? then old(local) - {m.conn} else old(local)
      ensures act == Acts(old(phase), mappings, old(local), m)
      ensures old(phase).Waiting? ==>
                && act == Ignore && local == old(local)
                && phase == (match m
                             case TakeoverReady(n) => if n == old(phase).session then Serving(true) else old(phase)
                             case TakeoverFailed => Ended
                             case _ => old(phase))
      ensures old(phase).Serving? ==>
                if m.TakeoverComplete? && !old(phase).takeover
                then phase == Exited(m.newSession) && local == {} && act == Ignore
                else phase == old(phase) && forall c :: c in local <==> c in old(local) && m != Close(c)
      ensures act.Dial? <==> old(phase).Serving? && m.Connect? && exists e :: e in mappings && e.remotePort == m.remotePort
      ensures act.Refuse? <==> old(phase).Serving? && m.Connect? && forall e :: e in mappings ==> e.remotePort != m.remotePort
      ensures act.Dial? || act.Refuse? ==> act.conn == m.conn
      ensures forall c, d :: act == Deliver(c, d) <==> old(phase).Serving? && m == Data(c, d) && c in old(local)
    {
      act := Ignore;
      if phase.Waiting? {
        match m {
          case TakeoverReady(n) => if n == phase.session { phase := Serving(true); }
          case TakeoverFailed => phase := Ended;
          case _ =>
        }
      } else if m.TakeoverComplete? && !phase.takeover {
        local := {};
        phase := Exited(m.newSession);
      } else {
        match m {
          case Connect(c, p) =>
            var found := FindMapping(p);
            act := if found then Dial(c) else Refuse(c);
          case Data(c, d) => if c in local { act := Deliver(c, d); }
          case Close(c) => local := local - {c};
          case _ =>
        }
      }
    }
  }

  function AfterMessage(phase: ClientPhase, m: Message): ClientPhase
    requires phase.Waiting? || phase.Serving?
  {
    if phase.Waiting? then
      if m == TakeoverReady(phase.session) then Serving(true) else if m.TakeoverFailed? then Ended else phase
    else if m.TakeoverComplete? && !phase.takeover then Exited(m.newSession)
    else phase
  }

  function Acts(phase: ClientPhase, mappings: seq<PortMapping>, local: set<ConnId>, m: Message): Act {
    if !phase.Serving? then Ignore
    else match m
      case Connect(c, p) => if Maps(mappings, p) then Dial(c) else Refuse(c)
      case Data(c, d) => if c in local then Deliver(c, d) else Ignore
      case _ => Ignore
  }

  // ---------- the objects and the step system ----------

  /** Table and bindings of the server object are those of the state. */
  ghost predicate Abstracts(server: TunnelServer, st: State)
    reads server, server.manager, server.manager.listeners.Values
  {
    server.Valid() && server.clients == st.table && server.manager.View() == st.listeners
  }

  /** The state with the table and bindings given, and session `s` serving `id`. */
  function Updated(st: State, s: SessionId, clients: map<ClientId, SessionId>, ls: Listeners, id: Option<ClientId>): State
    requires s in st.sessions
  {
    st.(table := clients, listeners := ls, sessions := st.sessions[s := st.sessions[s].(client := id)])
  }

  /** The messages go to their sessions, in order. */
  function PushAll(st: State, sent: seq<(SessionId, Message)>): State
    decreases |sent|
  {
    if sent == [] then st else PushAll(PushDown(st, sent[0].0, sent[0].1), sent[1..])
  }

  lemma {:induction false} PushAllKeeps(st: State, sent: seq<(SessionId, Message)>)
    ensures PushAll(st, sent).table == st.table && PushAll(st, sent).listeners == st.listeners
    decreases |sent|
  {
    if sent != [] { PushAllKeeps(PushDown(st, sent[0].0, sent[0].1), sent[1..]); }
  }

  lemma NoFailure(ports: set<Port>, ms: seq<PortMapping>, startable: set<Port>)
    requires forall m :: m in ms ==> m.remotePort in startable
    ensures FirstFailure(ports, ms, startable) == |ms|
  {
    forall i | 0 <= i < |ms| ensures ms[i].remotePort in startable { assert ms[i] in ms; }
  }

  /** Config through the object is Config of the step system, where every listener starts. */
  method ConfigStep(server: TunnelServer, ghost st: State, s: SessionId, id: Option<ClientId>, x: ClientId,
                    ms: seq<PortMapping>, startable: set<Port>) returns (id': Option<ClientId>)
    requires Abstracts(server, st) && s in st.sessions && st.sessions[s].client == id
    requires forall m :: m in ms ==> m.remotePort in startable
    modifies server, server.manager, server.manager.listeners.Values
    ensures Abstracts(server, DoConfig(st, s, x, ms))
    ensures DoConfig(st, s, x, ms) == Updated(st, s, server.clients, server.manager.View(), id')
  {
    NoFailure(server.manager.View().Keys, ms, startable);
    id' := server.HandleConfig(id, x, ms, s, startable);
    assert ms[..|ms|] == ms;
  }

  /** Takeover through the object, with the messages it sends, is Takeover of the step system. */
  method TakeoverStep(server: TunnelServer, ghost st: State, s: SessionId, id: Option<ClientId>, x: ClientId,
                      ms: seq<PortMapping>, n: TakeoverId) returns (id': Option<ClientId>, sent: seq<(SessionId, Message)>)
    requires Abstracts(server, st) && s in st.sessions && st.sessions[s].client == id
    modifies server, server.manager.listeners.Values
    ensures Abstracts(server, DoTakeover(st, s, x, ms, n))
    ensures DoTakeover(st, s, x, ms, n) == PushAll(Updated(st, s, server.clients, server.manager.View(), id'), sent)
  {
    TakeoverIs(st, s, x, ms, n);
    id', sent := server.HandleTakeover(id, x, ms, n, s);
    PushAllKeeps(Updated(st, s, server.clients, server.manager.View(), id'), sent);
  }

  /** The step system's Takeover: the new table and bindings, then the messages in order. */
  lemma TakeoverIs(st: State, s: SessionId, x: ClientId, ms: seq<PortMapping>, n: TakeoverId)
    requires s in st.sessions
    ensures var e := st.sessions[s];
            var failed := ms != [] && forall m :: m in ms ==> m.remotePort !in st.listeners;
            DoTakeover(st, s, x, ms, n) ==
            if e.client.Some? then PushAll(Updated(st, s, st.table, st.listeners, e.client), [])
            else if failed then PushAll(Updated(st, s, st.table, st.listeners, None), [(s, TakeoverFailed)])
            else PushAll(Updated(st, s, st.table[x := s], SwitchAll(st.listeners, x, s, ms), Some(x)),
                         [(s, TakeoverReady(n))] + if x in st.table then [(st.table[x], TakeoverComplete(n))] else [])
  {
    ServedZero(st.listeners, ms);
    if st.sessions[s].client.None? {
      if Served(st.listeners, ms) == 0 && ms != [] {
        PushOne(st, s, TakeoverFailed);
        assert Updated(st, s, st.table, st.listeners, None) == st;
      } else {
        var st1 := Switched(st, s, x, ms);
        PushOne(st1, s, TakeoverReady(n));
        if x in st.table { PushTwo(st1, s, TakeoverReady(n), st.table[x], TakeoverComplete(n)); }
      }
    } else {
      assert Updated(st, s, st.table, st.listeners, st.sessions[s].client) == st;
    }
  }

  lemma PushOne(st: State, s: SessionId, m: Message)
    ensures PushAll(st, [(s, m)]) == PushDown(st, s, m)
    ensures PushAll(st, [(s, m)] + []) == PushDown(st, s, m)
  {
    assert [(s, m)] + [] == [(s, m)] && [(s, m)][1..] == [];
  }

  lemma PushTwo(st: State, s: SessionId, m: Message, t: SessionId, n: Message)
    ensures PushAll(st, [(s, m)] + [(t, n)]) == PushDown(PushDown(st, s, m), t, n)
  {
    assert ([(s, m)] + [(t, n)])[1..] == [(t, n)];
    PushOne(PushDown(st, s, m), t, n);
  }

  /** The end of the session's loop through the object is the two cleanup steps of the step system. */
  method CleanUpSteps(server: TunnelServer, ghost st: State, s: SessionId, id: Option<ClientId>)
    requires Abstracts(server, st) && s in st.sessions && st.sessions[s].client == id && st.sessions[s].server.Halted?
    modifies server, server.manager.listeners.Values
    ensures var unlisted := ApplySession(st, s, ServerUnlist);
            Abstracts(server, ApplySession(unlisted, s, ServerUnbind))
  {
    server.CleanUp(id);
  }

  /**
   Cleaning a connection up in the listener of its port is the two drops of its handler, one after the
   other: the port ends in the state they lead to, and no entry of the connection is left.
   */
  method DropSteps(listener: PortListener, ghost st: State, c: ConnId)
    requires c in st.conns && st.conns[c].phase.CleanPending? && st.conns[c].port in st.listeners
    requires listener.port == st.conns[c].port && listener.View() == st.listeners[listener.port]
    modifies listener
    ensures var half := ApplyHandler(st, c, DropPending);
            && HandlerEnabled(half, c, DropActive)
            && ApplyHandler(half, c, DropActive).listeners == st.listeners[listener.port := listener.View()]
    ensures c !in listener.pending && c !in listener.active
  {
    listener.CleanupConnection(c);
  }

  /** What an act of the client does besides taking `m` off the queue and changing phase and registry. */
  function Acted(st: State, s: SessionId, m: Message, phase: ClientPhase, local: set<ConnId>, act: Act): State
    requires ClientReady(st, s)
  {
    var st1 := SetSession(st, s, st.sessions[s].(down := st.sessions[s].down[1..], phase := phase, local := local));
    if m.Data? && Targets(st, m.conn, s) then
      var k := st.conns[m.conn];
      var popped := k.down.(popped := k.down.popped + [m.data]);
      SetConn(st1, m.conn, k.(down := if act.Deliver? then popped.Accept(m.data) else popped))
    else if act.Dial? && act.conn in st.conns then SetConn(st1, act.conn, st.conns[act.conn].(task := Connecting))
    else if act.Refuse? && act.conn in st.conns then
      PushUp(SetConn(st1, act.conn, st.conns[act.conn].(task := Failed)), s, ConnectFailed(act.conn))
    else st1
  }

  /**
   The step system's client step: phase and registry follow `AfterMessage`, a dialled connection gets a
   connect task, a refused one a ConnectFailed, a chunk is accepted exactly when it is delivered, and
   nothing else changes.
   */
  lemma ClientStepIs(st: State, s: SessionId)
    requires ClientReady(st, s)
    ensures var e := st.sessions[s];
            var m := e.down[0];
            var phase := AfterMessage(e.phase, m);
            var local := if phase.Exited? then {} else if m.Close? && e.phase.Serving? then e.local - {m.conn} else e.local;
            DoClientRecv(st, s) == Acted(st, s, m, phase, local, Acts(e.phase, e.mappings, e.local, m))
  {
  }

  /** One message through the client object is the client step of the step system. */
  method ClientStep(client: TunnelClient, ghost st: State, s: SessionId, m: Message) returns (act: Act)
    requires ClientReady(st, s) && client.Is(st.sessions[s]) && m == st.sessions[s].down[0]
    modifies client
    ensures client.Is(DoClientRecv(st, s).sessions[s])
    ensures DoClientRecv(st, s) == Acted(st, s, m, client.phase, client.local, act)
  {
    ClientStepIs(st, s);
    act := client.Receive(m);
  }
}
