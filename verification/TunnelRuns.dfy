/** Concrete runs: what exclusivity of client ids rules out, and what closing an old session does. */
module TunnelRuns {
  import opened Common
  import opened Messages
  import opened TunnelSystem
  import opened TunnelInvariant
  import opened TunnelSafety
  import opened TunnelExclusive

  /** Whether the runs looked at have to keep distinct ids on disjoint ports. */
  datatype Care = AnyPorts | ApartPorts

  ghost predicate Careful(care: Care, st: State, step: Step) { care.ApartPorts? ==> PortsApart(st, step) }

  /** Some run of that kind leads to the state. */
  ghost predicate Can(care: Care, st: State) {
    exists run, states :: PassesCarefully(care, run, states) && states[|run|] == st
  }

  ghost predicate PassesCarefully(care: Care, run: seq<Step>, states: seq<State>) {
    Passes(run, states) && forall i {:trigger run[i]} :: 0 <= i < |run| ==> Careful(care, states[i], run[i])
  }

  lemma CanStart(care: Care)
    ensures Can(care, START)
  {
    assert PassesCarefully(care, [], [START]);
  }

  lemma CanStep(care: Care, st: State, step: Step)
    requires Can(care, st) && Enabled(st, step) && Careful(care, st, step)
    ensures Can(care, Apply(st, step))
  {
    var run, states :| PassesCarefully(care, run, states) && states[|run|] == st;
    assert PassesCarefully(care, run + [step], states + [Apply(st, step)]);
  }

  lemma CanReach(care: Care, st: State)
    requires Can(care, st)
    ensures Reachable(st)
  {
    var run, states :| PassesCarefully(care, run, states) && states[|run|] == st;
  }

  // ---------- one port, one mapping, one connection ----------

  const P: Port := 19000
  const MS := [PortMapping("minio", P, "localhost", 9000)]
  const OWNER: ClientId := 1
  const RIVAL: ClientId := 2
  const C: ConnId := 7
  const D1: Bytes := [1]
  const D2: Bytes := [2]

  lemma MapsP()
    ensures Maps(MS, P)
  {
    assert MS[0] in MS;
  }

  /** Session 1 serves OWNER and has taken the connection as far as `up` and `k` say. */
  function Base(l: Listener, q: seq<Message>, local: set<ConnId>, k: Conn): State {
    State(map[P := l], map[OWNER := 1], map[1 := Session(Some(OWNER), Open, [], q, Serving(false), MS, local)], map[C := k])
  }

  function Bare(l: Listener, s1: Session): State {
    State(map[P := l], map[OWNER := 1], map[1 := s1], map[])
  }

  const LISTENING := Listener(Some(Bound(OWNER, 1)), {}, {})
  const SERVED := Session(Some(OWNER), Open, [], [], Serving(false), MS, {})

  lemma Opened(care: Care)
    ensures Can(care, Bare(LISTENING, SERVED))
  {
    CanStart(care);
    var a := OfSession(1, OpenConfig(OWNER, MS));
    CanStep(care, START, a);
    var st := Apply(START, a);
    CanStep(care, st, OfSession(1, ServerRecv));
    assert MS[..0] == [];
    assert BindAll(st.listeners, OWNER, 1, MS[..0]) == st.listeners;
    var st' := DoServerRecv(st, 1);
    assert st'.sessions[1].up == [];
    assert st'.sessions == map[1 := SERVED];
    assert st'.table == map[OWNER := 1];
    assert st'.listeners == map[P := LISTENING];
  }

  const SENT := NewConn(P).(phase := AwaitReady, target := Some(1))
  const LINKED := SENT.(task := Up, localReader := Idle)

  lemma ConnectSent(care: Care)
    ensures Can(care, State(map[P := Listener(Some(Bound(OWNER, 1)), {C}, {C})], map[OWNER := 1],
                            map[1 := SERVED.(down := [Connect(C, P)])], map[C := SENT]))
  {
    Opened(care);
    var s0 := Bare(LISTENING, SERVED);
    CanStep(care, s0, OfHandler(C, Accept(P)));
    var s1 := Apply(s0, OfHandler(C, Accept(P)));
    CanStep(care, s1, OfHandler(C, PutPending));
    var s2 := Apply(s1, OfHandler(C, PutPending));
    CanStep(care, s2, OfHandler(C, PutActive));
    var s3 := Apply(s2, OfHandler(C, PutActive));
    CanStep(care, s3, OfHandler(C, SendConnect));
    var s4 := Apply(s3, OfHandler(C, SendConnect));
    assert s2.listeners[P].pending == {C};
    assert s3.listeners[P].active == {C};
    assert s3.listeners == map[P := Listener(Some(Bound(OWNER, 1)), {C}, {C})];
    assert s4.sessions[1].down == [Connect(C, P)];
    assert s4.sessions == map[1 := SERVED.(down := [Connect(C, P)])];
    assert s4.conns == map[C := SENT];
  }

  lemma Linked(care: Care)
    ensures Can(care, Base(Listener(Some(Bound(OWNER, 1)), {C}, {C}), [Connected(C)], {C}, LINKED))
  {
    ConnectSent(care);
    MapsP();
    var s4 := State(map[P := Listener(Some(Bound(OWNER, 1)), {C}, {C})], map[OWNER := 1],
                    map[1 := SERVED.(down := [Connect(C, P)])], map[C := SENT]);
    CanStep(care, s4, OfSession(1, ClientRecv));
    var s5 := Apply(s4, OfSession(1, ClientRecv));
    CanStep(care, s5, OfTask(C, LocalConnected));
    var s6 := Apply(s5, OfTask(C, LocalConnected));
    CanStep(care, s6, OfTask(C, SendConnected));
    var s7 := Apply(s6, OfTask(C, SendConnected));
    assert s5.sessions[1].down == [];
    assert s6.sessions[1].local == {C};
    assert s7.sessions[1].up == [Connected(C)];
    assert s7.sessions == map[1 := Session(Some(OWNER), Open, [], [Connected(C)], Serving(false), MS, {C})];
    assert s7.conns == map[C := LINKED];
  }

  /** Another session declares `x` and takes the port over by Config. */
  lemma Rebinds(care: Care, st: State, s: SessionId, x: ClientId, l: Listener)
    requires Can(care, st) && s !in st.sessions && P in st.listeners && st.listeners[P] == l
    requires care.ApartPorts? && l.bound.Some? ==> l.BoundTo(x)
    ensures Can(care, State(st.listeners[P := l.(bound := Some(Bound(x, s)))], (st.table - {x})[x := s],
                            st.sessions[s := Session(Some(x), Open, [], [], Serving(false), MS, {})], st.conns))
  {
    CanStep(care, st, OfSession(s, OpenConfig(x, MS)));
    var st1 := Apply(st, OfSession(s, OpenConfig(x, MS)));
    CanStep(care, st1, OfSession(s, ServerRecv));
    var st2 := DoServerRecv(st1, s);
    assert MS[..0] == [];
    assert BindAll(st.listeners, x, s, MS[..0]) == st.listeners;
    assert st2.sessions[s].up == [];
    assert st2.sessions == st.sessions[s := Session(Some(x), Open, [], [], Serving(false), MS, {})];
    assert st2.listeners == st.listeners[P := l.(bound := Some(Bound(x, s)))];
  }

  // ---------- a hole in the upward stream ----------

  const FORWARDING := LINKED.(phase := Forwarding, signalled := true, reader := Idle)

  lemma Forwards1(care: Care)
    ensures Can(care, Base(Listener(Some(Bound(OWNER, 1)), {}, {C}), [], {C}, FORWARDING))
  {
    Linked(care);
    var s0 := Base(Listener(Some(Bound(OWNER, 1)), {C}, {C}), [Connected(C)], {C}, LINKED);
    CanStep(care, s0, OfSession(1, ServerRecv));
    var s1 := Apply(s0, OfSession(1, ServerRecv));
    CanStep(care, s1, OfHandler(C, Await));
    var s2 := Apply(s1, OfHandler(C, Await));
    assert s1.sessions[1].up == [];
    assert s1.sessions == map[1 := SERVED.(local := {C})];
    assert s1.listeners[P].pending == {};
    assert s1.listeners == map[P := Listener(Some(Bound(OWNER, 1)), {}, {C})];
    assert s2.conns == map[C := FORWARDING];
  }

  /** The local service sends `d`, and the client puts it on the queue. */
  lemma SendsChunk(care: Care, st: State, k: Conn, d: Bytes, e: Session)
    requires Can(care, st) && C in st.conns && st.conns[C] == k && k.localReader.Idle? && k.target == Some(1)
    requires 1 in st.sessions && st.sessions[1] == e && e.Running() && |d| == 1
    ensures Can(care, st.(sessions := st.sessions[1 := e.(up := e.up + [Data(C, d)])],
                          conns := st.conns[C := k.(up := k.up.(read := k.up.read + [d], pushed := k.up.pushed + [d]))]))
  {
    CanStep(care, st, OfTask(C, ReadLocal(d)));
    var s1 := Apply(st, OfTask(C, ReadLocal(d)));
    CanStep(care, s1, OfTask(C, SendUp(false)));
    var s2 := Apply(s1, OfTask(C, SendUp(false)));
    assert s2.sessions == st.sessions[1 := e.(up := e.up + [Data(C, d)])];
    assert s2.conns == st.conns[C := k.(up := k.up.(read := k.up.read + [d], pushed := k.up.pushed + [d]))];
  }

  /** The server routes the only queued message of session 1. */
  lemma Routes(care: Care, st: State, m: Message, k: Conn, e: Session)
    requires Can(care, st) && C in st.conns && st.conns[C] == k && P in st.listeners && st.listeners.Keys == {P}
    requires 1 in st.sessions && st.sessions[1] == e && e.up == [m] && e.server.Open? && e.client == Some(OWNER)
    requires (m.Connected? || m.Data? || m.Close?) && m.conn == C
    ensures Can(care, st.(sessions := st.sessions[1 := e.(up := [])],
                          conns := st.conns[C := Routed(st, OWNER, m, k)],
                          listeners := Broadcast(st.listeners, OWNER, m)))
  {
    CanStep(care, st, OfSession(1, ServerRecv));
    var s1 := Apply(st, OfSession(1, ServerRecv));
    assert e.up[1..] == [];
    assert s1.sessions == st.sessions[1 := e.(up := [])];
    assert s1.conns == st.conns[C := Routed(st, OWNER, m, k)];
  }

  /** The remote peer has the second chunk and not the first. */
  predicate Torn(st: State) {
    && C in st.conns
    && var f := st.conns[C].up;
    && f.read == [D1, D2] && f.accepted == [D2] && f.written == 1 && !Prefix(f.Output(), Flatten(f.read))
  }

  /**
   The upward stream can lose a chunk and go on: a rival id takes the port over, a chunk is skipped,
   the owner's id comes back on a third session, and the next chunk is delivered.
   */
  lemma UpStreamHole()
    ensures exists st :: Reachable(st) && Torn(st)
  {
    Forwards1(AnyPorts);
    var l := Listener(Some(Bound(OWNER, 1)), {}, {C});
    var s0 := Base(l, [], {C}, FORWARDING);
    Rebinds(AnyPorts, s0, 2, RIVAL, l);
    var s1 := State(s0.listeners[P := l.(bound := Some(Bound(RIVAL, 2)))], (s0.table - {RIVAL})[RIVAL := 2],
                    s0.sessions[2 := Session(Some(RIVAL), Open, [], [], Serving(false), MS, {})], s0.conns);
    Skips(AnyPorts, s1, Some(Bound(RIVAL, 2)));
    var st :| Can(AnyPorts, st) && Torn(st);
    CanReach(AnyPorts, st);
  }

  /** Session 2 declares the same id, takes the port over by Config, and is cleaned up again. */
  lemma UnboundBeside() returns (st: State)
    ensures Can(ApartPorts, st) && st.listeners == map[P := Listener(None, {}, {C})] && st.sessions.Keys == {1, 2}
    ensures st.sessions[1] == SERVED.(local := {C}) && st.conns == map[C := FORWARDING]
  {
    Forwards1(ApartPorts);
    var l := Listener(Some(Bound(OWNER, 1)), {}, {C});
    var s0 := Base(l, [], {C}, FORWARDING);
    Rebinds(ApartPorts, s0, 2, OWNER, l);
    var s1 := State(s0.listeners[P := l.(bound := Some(Bound(OWNER, 2)))], (s0.table - {OWNER})[OWNER := 2],
                    s0.sessions[2 := Session(Some(OWNER), Open, [], [], Serving(false), MS, {})], s0.conns);
    CanStep(ApartPorts, s1, OfSession(2, ServerHalt));
    var s2 := Apply(s1, OfSession(2, ServerHalt));
    CanStep(ApartPorts, s2, OfSession(2, ServerUnlist));
    var s3 := Apply(s2, OfSession(2, ServerUnlist));
    CanStep(ApartPorts, s3, OfSession(2, ServerUnbind));
    st := Apply(s3, OfSession(2, ServerUnbind));
    assert st.listeners[P] == Listener(None, {}, {C});
  }

  /**
   Disjoint ports alone do not help: with one client id only, unbinding a second session of that id under
   a connection of the first tears the same hole.
   */
  lemma UnbindTearsHole()
    ensures exists st :: Can(ApartPorts, st) && Reachable(st) && Torn(st)
  {
    var s := UnboundBeside();
    Skips(ApartPorts, s, None);
    var st :| Can(ApartPorts, st) && Torn(st);
    CanReach(ApartPorts, st);
  }

  /** While the port is not bound to OWNER the first chunk is sent and skipped. */
  lemma Skips(care: Care, st: State, b: Option<Bound>)
    requires Can(care, st) && st.listeners == map[P := Listener(b, {}, {C})] && st.sessions.Keys == {1, 2}
    requires st.sessions[1] == SERVED.(local := {C}) && st.conns == map[C := FORWARDING]
    requires (b.Some? ==> b.value.client != OWNER) && (care.ApartPorts? ==> b.None?)
    ensures exists st :: Can(care, st) && Torn(st)
  {
    var e := SERVED.(local := {C});
    SendsChunk(care, st, FORWARDING, D1, e);
    var k2 := FORWARDING.(up := NO_FLOW.(read := [] + [D1], pushed := [] + [D1]));
    var s2 := st.(sessions := st.sessions[1 := e.(up := [] + [Data(C, D1)])], conns := st.conns[C := k2]);
    Routes(care, s2, Data(C, D1), k2, e.(up := [] + [Data(C, D1)]));
    var k3 := Routed(s2, OWNER, Data(C, D1), k2);
    assert k3 == k2.(up := k2.up.(popped := [] + [D1]), missed := true);
    var s3 := s2.(sessions := s2.sessions[1 := e], conns := s2.conns[C := k3],
                  listeners := Broadcast(s2.listeners, OWNER, Data(C, D1)));
    assert s3.listeners == st.listeners;
    Returns(care, s3, b, k3, e);
  }

  /** OWNER comes back on a third session, and the second chunk is sent, routed and written. */
  lemma Returns(care: Care, st: State, b: Option<Bound>, k: Conn, e: Session)
    requires Can(care, st) && C in st.conns && st.conns[C] == k && st.listeners.Keys == {P} && st.sessions.Keys == {1, 2}
    requires st.listeners[P] == Listener(b, {}, {C}) && st.sessions[1] == e && (care.ApartPorts? ==> b.None?)
    requires e == SERVED.(local := {C})
    requires k == FORWARDING.(up := NO_FLOW.(read := [D1], pushed := [D1], popped := [D1]), missed := true)
    ensures exists st :: Can(care, st) && Torn(st)
  {
    var l := Listener(b, {}, {C});
    Rebinds(care, st, 3, OWNER, l);
    var s4 := State(st.listeners[P := l.(bound := Some(Bound(OWNER, 3)))], (st.table - {OWNER})[OWNER := 3],
                    st.sessions[3 := Session(Some(OWNER), Open, [], [], Serving(false), MS, {})], st.conns);
    SendsChunk(care, s4, k, D2, e);
    var k5 := k.(up := k.up.(read := [D1] + [D2], pushed := [D1] + [D2]));
    var s5 := s4.(sessions := s4.sessions[1 := e.(up := [] + [Data(C, D2)])], conns := s4.conns[C := k5]);
    Routes(care, s5, Data(C, D2), k5, e.(up := [] + [Data(C, D2)]));
    var k6 := Routed(s5, OWNER, Data(C, D2), k5);
    var s6 := s5.(sessions := s5.sessions[1 := e], conns := s5.conns[C := k6],
                  listeners := Broadcast(s5.listeners, OWNER, Data(C, D2)));
    Writes(care, s6, k6);
  }

  lemma Writes(care: Care, st: State, k: Conn)
    requires Can(care, st) && C in st.conns && st.conns[C] == k && P in st.listeners && k.port == P && k.reader.Idle?
    requires k.up.read == [D1, D2] && k.up.accepted == [D2] && k.up.written == 0 && k.up.part == 0 && !k.up.dead
    ensures exists st :: Can(care, st) && Torn(st)
  {
    CanStep(care, st, OfHandler(C, WriteRemote));
    var st' := Apply(st, OfHandler(C, WriteRemote));
    var f := st'.conns[C].up;
    assert f.accepted[..1] == [D2] && [D2][1..] == [];
    assert Flatten([D2]) == D2 + Flatten([]) == D2;
    assert f.Output() == D2;
    assert Flatten(f.read)[0] == D1[0];
    assert Torn(st');
  }

  // ---------- a pending connection that is not active ----------

  const WAITING := Listener(Some(Bound(OWNER, 1)), {C}, {C})
  const RIVALLED := WAITING.(bound := Some(Bound(RIVAL, 2)))

  /** Connected arrives while the port is someone else's, and is dropped. */
  lemma ConnectedMissed() returns (st: State)
    ensures Can(AnyPorts, st) && st.listeners == map[P := RIVALLED] && st.sessions.Keys == {1, 2}
    ensures st.sessions[1] == SERVED.(local := {C}) && st.conns == map[C := LINKED]
  {
    Linked(AnyPorts);
    var e := SERVED.(local := {C});
    var s0 := Base(WAITING, [Connected(C)], {C}, LINKED);
    Rebinds(AnyPorts, s0, 2, RIVAL, WAITING);
    var s1 := State(s0.listeners[P := RIVALLED], (s0.table - {RIVAL})[RIVAL := 2],
                    s0.sessions[2 := Session(Some(RIVAL), Open, [], [], Serving(false), MS, {})], s0.conns);
    Routes(AnyPorts, s1, Connected(C), LINKED, e.(up := [Connected(C)]));
    st := s1.(sessions := s1.sessions[1 := e], conns := s1.conns[C := LINKED],
              listeners := Broadcast(s1.listeners, OWNER, Connected(C)));
    assert st.listeners == s1.listeners;
  }

  /** The client closes the connection, and the owner's id gets the port back before the Close is handled. */
  lemma ClosedMeanwhile() returns (st: State)
    ensures Can(AnyPorts, st) && st.listeners == map[P := WAITING.(bound := Some(Bound(OWNER, 3)))]
    ensures 1 in st.sessions && st.sessions[1] == SERVED.(local := {C}, up := [Close(C)])
    ensures st.conns == map[C := LINKED.(localReader := Removing)]
  {
    var s2 := ConnectedMissed();
    var e := SERVED.(local := {C});
    CanStep(AnyPorts, s2, OfTask(C, EndLocal));
    var s3 := Apply(s2, OfTask(C, EndLocal));
    CanStep(AnyPorts, s3, OfTask(C, CloseUp));
    var s4 := Apply(s3, OfTask(C, CloseUp));
    assert s4.sessions == s2.sessions[1 := e.(up := [] + [Close(C)])];
    Rebinds(AnyPorts, s4, 3, OWNER, RIVALLED);
    st := State(s4.listeners[P := RIVALLED.(bound := Some(Bound(OWNER, 3)))], (s4.table - {OWNER})[OWNER := 3],
                s4.sessions[3 := Session(Some(OWNER), Open, [], [], Serving(false), MS, {})], s4.conns);
    assert [] + [Close(C)] == [Close(C)];
  }

  /** Close can overtake the effect of Connected when Connected arrived while the port was someone else's. */
  lemma PendingNotActive()
    ensures exists st :: Reachable(st) && P in st.listeners && C in st.conns && st.conns[C].phase.AwaitReady?
                         && st.listeners[P].pending == {C} && st.listeners[P].active == {}
  {
    var s5 := ClosedMeanwhile();
    var e := SERVED.(local := {C}, up := [Close(C)]);
    var k := LINKED.(localReader := Removing);
    Routes(AnyPorts, s5, Close(C), k, e);
    var s6 := s5.(sessions := s5.sessions[1 := e.(up := [])], conns := s5.conns[C := Routed(s5, OWNER, Close(C), k)],
                  listeners := Broadcast(s5.listeners, OWNER, Close(C)));
    assert s6.listeners[P].pending == {C} && s6.listeners[P].active == {};
    CanReach(AnyPorts, s6);
  }

  // ---------- closing the old session after a takeover ----------

  /** Session 2 takes the port over while session 1 is still served. */
  lemma TakenOver(n: TakeoverId) returns (st: State)
    ensures Can(AnyPorts, st) && 1 in st.sessions && 2 in st.sessions && st.sessions[1].server.Open? && st.sessions[2].server.Open?
    ensures st.sessions[1].client == Some(OWNER) && st.sessions[2].client == Some(OWNER)
    ensures st.sessions[2].down == [TakeoverReady(n)]
    ensures P in st.listeners && st.listeners[P].bound == Some(Bound(OWNER, 2))
  {
    Opened(AnyPorts);
    var s0 := Bare(LISTENING, SERVED);
    CanStep(AnyPorts, s0, OfSession(2, OpenTakeover(OWNER, MS, n)));
    var s1 := Apply(s0, OfSession(2, OpenTakeover(OWNER, MS, n)));
    assert MS[..0] == [];
    assert Served(s1.listeners, MS) == 1;
    assert SwitchAll(s1.listeners, OWNER, 2, MS[..0]) == s1.listeners;
    CanStep(AnyPorts, s1, OfSession(2, ServerRecv));
    st := Apply(s1, OfSession(2, ServerRecv));
    assert st.sessions[2].down == [TakeoverReady(n)];
  }

  /**
   Cleanup is keyed by client id: after session 2 has taken the port over, closing session 1 removes
   session 2's table entry and binding although session 2 is open and registered.
   */
  lemma OldCloseUndoesTakeover(n: TakeoverId)
    ensures exists st :: Reachable(st) && 2 in st.sessions && st.sessions[2].server.Open?
                         && st.sessions[2].client == Some(OWNER) && st.sessions[2].down == [TakeoverReady(n)]
                         && P in st.listeners && st.listeners[P].bound.None? && OWNER !in st.table
  {
    var s2 := TakenOver(n);
    CanStep(AnyPorts, s2, OfSession(1, ServerHalt));
    var s3 := Apply(s2, OfSession(1, ServerHalt));
    CanStep(AnyPorts, s3, OfSession(1, ServerUnlist));
    var s4 := Apply(s3, OfSession(1, ServerUnlist));
    CanStep(AnyPorts, s4, OfSession(1, ServerUnbind));
    var s5 := Apply(s4, OfSession(1, ServerUnbind));
    assert s5.listeners[P].bound.None?;
    CanReach(AnyPorts, s5);
  }
}
