/** Port mappings, tunnel messages and the value-level view of a port listener. */
module Messages {
  import opened Common

  /** Identifiers are only ever compared for equality, so numbers stand for the UUIDs and names. */
  type ConnId = nat
  type ClientId = nat
  type SessionId = nat
  type TakeoverId = nat
  type Port = p: nat | p < 0x1_0000

  /** One entry of a client's configuration; `local` stands for its host and port. */
  datatype PortMapping = PortMapping(name: string, remotePort: Port, localHost: string, localPort: Port)

  datatype Message =
    | Config(client: ClientId, mappings: seq<PortMapping>)
    | Connect(conn: ConnId, remotePort: Port)
    | Connected(conn: ConnId)
    | ConnectFailed(conn: ConnId)
    | Data(conn: ConnId, data: Bytes)
    | Close(conn: ConnId)
    | Takeover(client: ClientId, mappings: seq<PortMapping>, newSession: TakeoverId)
    | TakeoverReady(session: TakeoverId)
    | TakeoverComplete(newSession: TakeoverId)
    | TakeoverFailed

  predicate Maps(mappings: seq<PortMapping>, p: Port) {
    exists m :: m in mappings && m.remotePort == p
  }

  /** The channel of a WebSocket session, held under a client id. */
  datatype Bound = Bound(client: ClientId, channel: SessionId)

  /** What handling one client message hands to a connection handler. */
  datatype Delivery = Nothing | Signal(conn: ConnId) | Forward(conn: ConnId, data: Bytes)

  /** A port listener: who is bound, who waits for Connected, who may receive data. */
  datatype Listener = Listener(bound: Option<Bound>, pending: set<ConnId>, active: set<ConnId>) {

    predicate BoundTo(x: ClientId) {
      bound.Some? && bound.value.client == x
    }

    function Bind(x: ClientId, s: SessionId): Listener {
      this.(bound := Some(Bound(x, s)))
    }

    function Unbind(x: ClientId): Listener {
      if BoundTo(x) then this.(bound := None) else this
    }

    function ClearAll(): Listener {
      this.(pending := {}, active := {})
    }

    function Cleanup(c: ConnId): Listener {
      this.(pending := pending - {c}, active := active - {c})
    }

    /** The state after one routed client message. */
    function After(m: Message): Listener {
      match m
      case Connected(c) => this.(pending := pending - {c})
      case ConnectFailed(c) => Cleanup(c)
      case Close(c) => this.(active := active - {c})
      case _ => this
    }

    /** What one routed client message gives to the handler of its connection. */
    function Gives(m: Message): Delivery {
      match m
      case Connected(c) => if c in pending then Signal(c) else Nothing
      case Data(c, d) => if c in active then Forward(c, d) else Nothing
      case _ => Nothing
    }

    /** One visit of a takeover to this port: connections are cleared only when the id stays the same. */
    function Switch(x: ClientId, s: SessionId): Listener {
      if BoundTo(x) && active != {} then ClearAll().Bind(x, s) else Bind(x, s)
    }
  }

  const FRESH_LISTENER := Listener(None, {}, {})

  type Listeners = map<Port, Listener>

  /** Config: bind every mapped port, creating the listeners that do not exist yet. */
  function BindAll(ls: Listeners, x: ClientId, s: SessionId, ms: seq<PortMapping>): Listeners {
    if ms == [] then ls
    else
      var p := ms[|ms| - 1].remotePort;
      var before := BindAll(ls, x, s, ms[..|ms| - 1]);
      before[p := (if p in before then before[p] else FRESH_LISTENER).Bind(x, s)]
  }

  /** Takeover: switch every mapped port that has a listener. */
  function SwitchAll(ls: Listeners, x: ClientId, s: SessionId, ms: seq<PortMapping>): Listeners {
    if ms == [] then ls
    else
      var p := ms[|ms| - 1].remotePort;
      var before := SwitchAll(ls, x, s, ms[..|ms| - 1]);
      if p in before then before[p := before[p].Switch(x, s)] else before
  }

  /** How many mapping entries name a port that has a listener. */
  function Served(ls: Listeners, ms: seq<PortMapping>): nat {
    if ms == [] then 0
    else Served(ls, ms[..|ms| - 1]) + (if ms[|ms| - 1].remotePort in ls then 1 else 0)
  }

  function UnbindAll(ls: Listeners, x: ClientId): Listeners {
    map p | p in ls :: ls[p].Unbind(x)
  }

  /** A client message reaches every port currently bound to that client id. */
  function Broadcast(ls: Listeners, x: ClientId, m: Message): Listeners {
    map p | p in ls :: if ls[p].BoundTo(x) then ls[p].After(m) else ls[p]
  }

  /** How many entries of `ms` name port `p`. */
  function Times(ms: seq<PortMapping>, p: Port): nat {
    if ms == [] then 0
    else Times(ms[..|ms| - 1], p) + (if ms[|ms| - 1].remotePort == p then 1 else 0)
  }

  lemma {:induction false} TimesMaps(ms: seq<PortMapping>, p: Port)
    ensures Times(ms, p) > 0 <==> Maps(ms, p)
  {
    if ms != [] {
      TimesMaps(ms[..|ms| - 1], p);
      assert ms == ms[..|ms| - 1] + [ms[|ms| - 1]];
      if Maps(ms[..|ms| - 1], p) {
        var m :| m in ms[..|ms| - 1] && m.remotePort == p;
        assert m in ms;
      }
      if Maps(ms, p) && ms[|ms| - 1].remotePort != p {
        var m :| m in ms && m.remotePort == p;
        assert m in ms[..|ms| - 1];
      }
    }
  }

  /** Config binds exactly the mapped ports and touches no connection of any port. */
  lemma {:induction false} BindAllAt(ls: Listeners, x: ClientId, s: SessionId, ms: seq<PortMapping>, p: Port)
    ensures var r := BindAll(ls, x, s, ms);
            && (p in r <==> p in ls || Maps(ms, p))
            && (Maps(ms, p) ==>
                  && r[p].bound == Some(Bound(x, s))
                  && r[p].pending == (if p in ls then ls[p].pending else {})
                  && r[p].active == (if p in ls then ls[p].active else {}))
            && (!Maps(ms, p) && p in ls ==> r[p] == ls[p])
  {
    TimesMaps(ms, p);
    if ms != [] {
      BindAllAt(ls, x, s, ms[..|ms| - 1], p);
      TimesMaps(ms[..|ms| - 1], p);
    }
  }

  /** Takeover, port by port: the effect depends only on how often the port is listed. */
  lemma {:induction false} SwitchAllAt(ls: Listeners, x: ClientId, s: SessionId, ms: seq<PortMapping>, p: Port)
    ensures var r := SwitchAll(ls, x, s, ms);
            && r.Keys == ls.Keys
            && (p in ls && !Maps(ms, p) ==> r[p] == ls[p])
            && (p in ls && Maps(ms, p) ==>
                  && r[p].bound == Some(Bound(x, s))
                  && (if (ls[p].BoundTo(x) || Times(ms, p) > 1) && ls[p].active != {}
                      then r[p].pending == {} && r[p].active == {}
                      else r[p].pending == ls[p].pending && r[p].active == ls[p].active))
  {
    TimesMaps(ms, p);
    if ms != [] {
      SwitchAllAt(ls, x, s, ms[..|ms| - 1], p);
      TimesMaps(ms[..|ms| - 1], p);
    }
  }

  /** The takeover fails exactly when no mapped port has a listener. */
  lemma {:induction false} ServedZero(ls: Listeners, ms: seq<PortMapping>)
    ensures Served(ls, ms) == 0 <==> forall m :: m in ms ==> m.remotePort !in ls
    ensures Served(ls, ms) <= |ms|
  {
    if ms != [] {
      ServedZero(ls, ms[..|ms| - 1]);
      assert ms == ms[..|ms| - 1] + [ms[|ms| - 1]];
    }
  }

  /** The count is of mapping entries, so a port listed twice counts twice. */
  lemma {:induction false} ServedCount(ls: Listeners, ms: seq<PortMapping>)
    ensures Served(ls, ms) == |set i | 0 <= i < |ms| && ms[i].remotePort in ls|
  {
    if ms != [] {
      var n := |ms| - 1;
      ServedCount(ls, ms[..n]);
      var before := set i | 0 <= i < n && ms[..n][i].remotePort in ls;
      assert (set i | 0 <= i < |ms| && ms[i].remotePort in ls) == before + if ms[n].remotePort in ls then {n} else {};
    }
  }

  /** Unbinding takes the binding of exactly the ports of that client, and touches no connection. */
  lemma UnbindAllAt(ls: Listeners, x: ClientId, p: Port)
    ensures var r := UnbindAll(ls, x);
            && (p in r <==> p in ls)
            && (p in ls ==>
                  && r[p].pending == ls[p].pending && r[p].active == ls[p].active
                  && r[p].bound == if ls[p].bound.Some? && ls[p].bound.value.client == x then None else ls[p].bound)
  {
  }

  /** One routed message, entry by entry: only ports bound to the client lose entries, and only of the connection named. */
  lemma BroadcastAt(ls: Listeners, x: ClientId, m: Message, p: Port)
    ensures var r := Broadcast(ls, x, m);
            && (p in r <==> p in ls)
            && (p in ls ==> r[p].bound == ls[p].bound)
            && (p in ls && (ls[p].bound.None? || ls[p].bound.value.client != x) ==> r[p] == ls[p])
            && (p in ls && ls[p].bound.Some? && ls[p].bound.value.client == x ==>
                  && (forall c :: c in r[p].pending <==> c in ls[p].pending && m != Connected(c) && m != ConnectFailed(c))
                  && (forall c :: c in r[p].active <==> c in ls[p].active && m != ConnectFailed(c) && m != Close(c)))
  {
  }

  /**
   What a takeover promises, duplicate ports included: exactly the mapped ports with a listener move to
   the new channel, the others do not change, and a port that already had this id ends without
   connections unless something was pending while nothing was active.
   */
  lemma SwitchContract(ls: Listeners, x: ClientId, s: SessionId, ms: seq<PortMapping>)
    ensures var r := SwitchAll(ls, x, s, ms);
            && r.Keys == ls.Keys
            && (forall p :: p in ls && Maps(ms, p) ==> r[p].bound == Some(Bound(x, s)))
            && (forall p :: p in ls && !Maps(ms, p) ==> r[p] == ls[p])
            && (forall p :: p in ls && Maps(ms, p) && ls[p].BoundTo(x) ==>
                  (r[p].pending == {} && r[p].active == {} <==> ls[p].active != {} || ls[p].pending == {}))
            && (forall p :: p in ls && Maps(ms, p) && ls[p].BoundTo(x) && ls[p].pending <= ls[p].active ==>
                  r[p].pending == {} && r[p].active == {})
  {
    SwitchAllAt(ls, x, s, ms, 0);
    forall p | p in ls
      ensures var r := SwitchAll(ls, x, s, ms);
              && (Maps(ms, p) ==> r[p].bound == Some(Bound(x, s)))
              && (!Maps(ms, p) ==> r[p] == ls[p])
              && (Maps(ms, p) && ls[p].BoundTo(x) ==>
                    (r[p].pending == {} && r[p].active == {} <==> ls[p].active != {} || ls[p].pending == {}))
    {
      SwitchAllAt(ls, x, s, ms, p);
    }
  }

  /** The one message that can leave a pending connection without its active entry. */
  lemma CloseBeforeConnected(l: Listener, m: Message)
    requires l.pending <= l.active
    ensures l.After(m).pending <= l.After(m).active <==> !(m.Close? && m.conn in l.pending)
  {
    if m.Close? && m.conn in l.pending {
      assert m.conn in l.After(m).pending && m.conn !in l.After(m).active;
    }
  }
}
