/**
 Runs in which client ids are used exclusively: distinct ids use disjoint ports, and no session is
 unbound while a connection of another open session with the same id is active on a port bound to that
 id. There the upward stream has no hole either, and every pending connection is active once it is
 registered.
 */
module TunnelExclusive {
  import opened Common
  import opened Messages
  import opened TunnelSystem
  import opened TunnelInvariant
  import opened TunnelSafety

  /** A Config or Takeover for `x` maps no port that is bound to another id. */
  ghost predicate PortsFree(st: State, x: ClientId, ms: seq<PortMapping>) {
    forall p :: p in st.listeners && Maps(ms, p) && st.listeners[p].bound.Some? ==> st.listeners[p].BoundTo(x)
  }

  /** Connection `c` of an open session other than `s`, but of the same id, is active on a port bound to that id. */
  predicate InUseBeside(st: State, s: SessionId, c: ConnId)
    requires s in st.sessions && c in st.conns
  {
    var k := st.conns[c];
    && k.target.Some? && k.target.value != s && k.target.value in st.sessions
    && st.sessions[k.target.value].server.Open?
    && st.sessions[s].client.Some? && st.sessions[k.target.value].client == st.sessions[s].client
    && k.port in st.listeners && c in st.listeners[k.port].active
    && st.listeners[k.port].BoundTo(st.sessions[s].client.value)
  }

  /** Distinct ids use disjoint ports. */
  ghost predicate PortsApart(st: State, step: Step) {
    step.OfSession? && step.a.ServerRecv? && Ready(st, step.s) && st.sessions[step.s].client.None? ==>
      var m := st.sessions[step.s].up[0];
      m.Config? || m.Takeover? ==> PortsFree(st, m.client, m.mappings)
  }

  /** A session is unbound only when this takes no port from under another session's connection. */
  ghost predicate UnbindsIdle(st: State, step: Step) {
    step.OfSession? && step.a.ServerUnbind? && step.s in st.sessions ==>
      forall c :: c in st.conns ==> !InUseBeside(st, step.s, c)
  }

  /** What the step itself has to respect; everything else is free. */
  ghost predicate Exclusive(st: State, step: Step) { PortsApart(st, step) && UnbindsIdle(st, step) }

  /** A run all of whose steps are exclusive. */
  ghost predicate PassesExclusively(run: seq<Step>, states: seq<State>) {
    && Passes(run, states)
    && forall i {:trigger run[i]} :: 0 <= i < |run| ==> Exclusive(states[i], run[i])
  }

  ghost predicate ExclusivelyReachable(st: State) {
    exists run, states :: PassesExclusively(run, states) && states[|run|] == st
  }

  // ---------- the order of Connected and Close on a queue ----------

  predicate Ordered(q: seq<Message>, c: ConnId) {
    forall i :: 0 <= i < |q| && q[i] == Close(c) ==> Connected(c) in q[..i]
  }

  lemma OrderedPush(q: seq<Message>, m: Message, c: ConnId)
    requires Ordered(q, c) && (m == Close(c) ==> Connected(c) in q)
    ensures Ordered(q + [m], c)
  {
    forall i | 0 <= i < |q| + 1 && (q + [m])[i] == Close(c) ensures Connected(c) in (q + [m])[..i] {
      assert (q + [m])[..i] == q[..i];
    }
  }

  lemma OrderedPop(q: seq<Message>, c: ConnId)
    requires q != [] && Ordered(q, c) && q[0] != Connected(c)
    ensures Ordered(q[1..], c)
    ensures Connected(c) in q ==> Connected(c) in q[1..]
  {
    forall i | 0 <= i < |q| - 1 && q[1..][i] == Close(c) ensures Connected(c) in q[1..][..i] {
      assert q[i + 1] == Close(c);
      var j :| 0 <= j < i + 1 && q[j] == Connected(c);
      assert q[1..][..i][j - 1] == Connected(c);
    }
    if Connected(c) in q {
      var j :| 0 <= j < |q| && q[j] == Connected(c);
      assert q[1..][j - 1] == Connected(c);
    }
  }

  lemma OrderedCut(q: seq<Message>, k: nat, c: ConnId)
    requires k <= |q| && Ordered(q, c)
    ensures Ordered(q[..k], c)
  {
    forall i | 0 <= i < k && q[..k][i] == Close(c) ensures Connected(c) in q[..k][..i] {
      assert q[..k][..i] == q[..i];
    }
  }

  // ---------- the invariant of exclusive runs ----------

  /** The port of an active connection stays with the id of its session for as long as the server serves that session. */
  predicate Held(st: State, k: Conn, c: ConnId) {
    && k.target.Some? && k.target.value in st.sessions && st.sessions[k.target.value].server.Open?
    && k.port in st.listeners && c in st.listeners[k.port].active ==>
      && st.sessions[k.target.value].client.Some?
      && st.listeners[k.port].BoundTo(st.sessions[k.target.value].client.value)
  }

  /** While `c` waits for Connected, its session still has Connected in front of every Close. */
  predicate Waits(q: seq<Message>, running: bool, k: Conn, c: ConnId) {
    && Ordered(q, c)
    && (k.task.Up? && running ==> Connected(c) in q)
    && (!k.task.Up? ==> Close(c) !in q)
  }

  predicate PendingActive(l: Listener, k: Conn, c: ConnId) {
    c in l.pending ==> c in l.active || k.phase.PendingSet?
  }

  predicate ExConn(st: State, c: ConnId)
    requires c in st.conns
  {
    var k := st.conns[c];
    && !k.missed
    && Held(st, k, c)
    && (k.port in st.listeners ==>
          && PendingActive(st.listeners[k.port], k, c)
          && (c in st.listeners[k.port].pending && k.target.Some? && k.target.value in st.sessions ==>
                Waits(st.sessions[k.target.value].up, st.sessions[k.target.value].Running(), k, c)))
  }

  ghost predicate ExInv(st: State) {
    forall c :: c in st.conns ==> ExConn(st, c)
  }

  // ---------- steps that leave the connection's record alone ----------

  /** The queue keeps what `Waits` needs about `c`. */
  predicate OrderKept(q: seq<Message>, running: bool, q': seq<Message>, running': bool, c: ConnId) {
    && (running' ==> running)
    && (Ordered(q, c) ==> Ordered(q', c))
    && (running' && Connected(c) in q ==> Connected(c) in q')
    && (Close(c) in q' ==> Close(c) in q)
  }

  predicate PortKept(l: Listener, l': Listener, c: ConnId) {
    && (c in l'.pending ==> c in l.pending)
    && (c in l'.active ==> c in l.active)
    && (c in l'.pending && c in l.active ==> c in l'.active)
  }

  predicate ExFrame(st: State, st': State, c: ConnId)
    requires c in st.conns
  {
    var k := st.conns[c];
    && c in st'.conns && st'.conns[c] == k
    && k.port in st.listeners && k.port in st'.listeners
    && PortKept(st.listeners[k.port], st'.listeners[k.port], c)
    && (k.target.Some? ==>
          var s := k.target.value;
          && s in st.sessions && s in st'.sessions
          && st.sessions[s].client.Some? && st'.sessions[s].client == st.sessions[s].client
          && (st'.sessions[s].server.Open? ==> st.sessions[s].server.Open?)
          && (st'.sessions[s].server.Open? && c in st'.listeners[k.port].active
              && st.listeners[k.port].BoundTo(st.sessions[s].client.value) ==>
                st'.listeners[k.port].BoundTo(st.sessions[s].client.value))
          && OrderKept(st.sessions[s].up, st.sessions[s].Running(), st'.sessions[s].up, st'.sessions[s].Running(), c))
  }

  lemma ExFrameKeeps(st: State, st': State, c: ConnId)
    requires c in st.conns && ExConn(st, c) && ExFrame(st, st', c)
    ensures ExConn(st', c)
  {
  }

  /** The facts about one connection the steps below start from. */
  predicate Placed(st: State, c: ConnId)
    requires c in st.conns
  {
    var k := st.conns[c];
    && k.port in st.listeners
    && (k.target.Some? ==> k.target.value in st.sessions && st.sessions[k.target.value].client.Some?)
  }

  lemma FrameOtherQueue(st: State, st': State, s: SessionId, c: ConnId)
    requires c in st.conns && Placed(st, c) && s in st.sessions && s in st'.sessions
    requires st'.listeners == st.listeners && c in st'.conns && st'.conns[c] == st.conns[c]
    requires st'.sessions == st.sessions[s := st'.sessions[s]]
    requires st.sessions[s].client.Some? ==> st'.sessions[s].client == st.sessions[s].client
    requires st'.sessions[s].server.Open? ==> st.sessions[s].server.Open?
    requires Targets(st, c, s) ==>
               OrderKept(st.sessions[s].up, st.sessions[s].Running(), st'.sessions[s].up, st'.sessions[s].Running(), c)
    ensures ExFrame(st, st', c)
  {
  }

  lemma ExSession(st: State, s: SessionId, a: SessionStep, c: ConnId)
    requires SessionEnabled(st, s, a) && !a.ServerRecv? && !a.ClientRecv? && !a.ServerUnbind?
    requires c in st.conns && Placed(st, c)
    ensures ExFrame(st, ApplySession(st, s, a), c)
  {
    var st' := ApplySession(st, s, a);
    if s in st.sessions {
      if a.LoseUp? && Ordered(st.sessions[s].up, c) { OrderedCut(st.sessions[s].up, a.k, c); }
      FrameOtherQueue(st, st', s, c);
    }
  }

  lemma ExUnbind(st: State, s: SessionId, c: ConnId)
    requires SessionEnabled(st, s, ServerUnbind) && UnbindsIdle(st, OfSession(s, ServerUnbind))
    requires c in st.conns && Placed(st, c)
    ensures ExFrame(st, ApplySession(st, s, ServerUnbind), c)
  {
  }

  lemma ExTakeUp(st: State, s: SessionId, c: ConnId)
    requires Ready(st, s) && st.sessions[s].up[0] != Connected(c)
    requires c in st.conns && Placed(st, c)
    ensures ExFrame(st, TakeUp(st, s), c) && Placed(TakeUp(st, s), c)
  {
    if Ordered(st.sessions[s].up, c) { OrderedPop(st.sessions[s].up, c); }
    else if Connected(c) in st.sessions[s].up { ConnectedStays(st.sessions[s].up, c); }
    FrameOtherQueue(st, TakeUp(st, s), s, c);
  }

  lemma ConnectedStays(q: seq<Message>, c: ConnId)
    requires q != [] && q[0] != Connected(c) && Connected(c) in q
    ensures Connected(c) in q[1..]
  {
    var j :| 0 <= j < |q| && q[j] == Connected(c);
    assert q[1..][j - 1] == Connected(c);
  }

  lemma ExPushDown(st: State, s: SessionId, m: Message, c: ConnId)
    requires c in st.conns && Placed(st, c)
    ensures ExFrame(st, PushDown(st, s, m), c) && Placed(PushDown(st, s, m), c)
  {
    if s in st.sessions { FrameOtherQueue(st, PushDown(st, s, m), s, c); }
  }

  lemma ExPushUp(st: State, s: SessionId, m: Message, c: ConnId)
    requires c in st.conns && Placed(st, c) && !Concerns(m, c)
    ensures ExFrame(st, PushUp(st, s, m), c) && Placed(PushUp(st, s, m), c)
  {
    if s in st.sessions {
      if Ordered(st.sessions[s].up, c) { OrderedPush(st.sessions[s].up, m, c); }
      FrameOtherQueue(st, PushUp(st, s, m), s, c);
    }
  }

  lemma ExConfig(st: State, s: SessionId, x: ClientId, ms: seq<PortMapping>, c: ConnId)
    requires s in st.sessions && (st.sessions[s].client.None? ==> PortsFree(st, x, ms))
    requires c in st.conns && Placed(st, c)
    ensures ExFrame(st, DoConfig(st, s, x, ms), c)
  {
    BindAllAt(st.listeners, x, s, ms, st.conns[c].port);
  }

  lemma ExSwitch(st: State, s: SessionId, x: ClientId, ms: seq<PortMapping>, c: ConnId)
    requires s in st.sessions && st.sessions[s].client.None? && PortsFree(st, x, ms)
    requires c in st.conns && Placed(st, c)
    ensures ExFrame(st, Switched(st, s, x, ms), c) && Placed(Switched(st, s, x, ms), c)
  {
    SwitchAllAt(st.listeners, x, s, ms, st.conns[c].port);
  }

  lemma ExTakeover(st: State, s: SessionId, x: ClientId, ms: seq<PortMapping>, n: TakeoverId, c: ConnId)
    requires s in st.sessions && (st.sessions[s].client.None? ==> PortsFree(st, x, ms))
    requires c in st.conns && Placed(st, c) && ExConn(st, c)
    ensures c in DoTakeover(st, s, x, ms, n).conns && ExConn(DoTakeover(st, s, x, ms, n), c)
  {
    if st.sessions[s].client.None? {
      if Served(st.listeners, ms) == 0 && ms != [] {
        ExPushDown(st, s, TakeoverFailed, c);
        ExFrameKeeps(st, PushDown(st, s, TakeoverFailed), c);
      } else {
        var st1 := Switched(st, s, x, ms);
        var st2 := PushDown(st1, s, TakeoverReady(n));
        ExSwitch(st, s, x, ms, c);
        ExFrameKeeps(st, st1, c);
        ExPushDown(st1, s, TakeoverReady(n), c);
        ExFrameKeeps(st1, st2, c);
        if x in st.table {
          ExPushDown(st2, st.table[x], TakeoverComplete(n), c);
          ExFrameKeeps(st2, PushDown(st2, st.table[x], TakeoverComplete(n)), c);
        }
      }
    }
  }

  // ---------- messages routed to the connection ----------

  lemma ExRouteOther(st: State, s: SessionId, m: Message, c: ConnId)
    requires s in st.sessions && Routable(m) && m.conn != c
    requires c in st.conns && Placed(st, c)
    ensures ExFrame(st, DoRoute(st, s, m), c)
  {
  }

  /** Connected takes the connection out of pending, so a Close never finds it there; a chunk is never missed. */
  lemma ExRouteSelf(st: State, s: SessionId, m: Message, c: ConnId)
    requires Ready(st, s) && m == st.sessions[s].up[0] && Routable(m) && m.conn == c
    requires c in st.conns && Placed(st, c) && ExConn(st, c) && Targets(st, c, s) && !st.conns[c].phase.PendingSet?
    requires forall p :: p in st.listeners && c in st.listeners[p].active ==> p == st.conns[c].port
    ensures c in DoRoute(TakeUp(st, s), s, m).conns && ExConn(DoRoute(TakeUp(st, s), s, m), c)
  {
    var q := st.sessions[s].up;
    var k := st.conns[c];
    if c in st.listeners[k.port].pending {
      var front := q[..0];
      assert q[0] == Close(c) ==> Connected(c) in front;
      if m != Connected(c) { OrderedPop(q, c); }
    }
  }

  lemma ExServerRecv(st: State, s: SessionId, c: ConnId)
    requires Ready(st, s) && Exclusive(st, OfSession(s, ServerRecv)) && About(st, c)
    requires c in st.conns && ExConn(st, c)
    ensures c in DoServerRecv(st, s).conns && ExConn(DoServerRecv(st, s), c)
  {
    var m := st.sessions[s].up[0];
    var st1 := TakeUp(st, s);
    ExFacts(st, s, c);
    if Routable(m) && m.conn == c {
      ExRouteSelf(st, s, m, c);
    } else {
      ExTakeUp(st, s, c);
      ExFrameKeeps(st, st1, c);
      if Routable(m) {
        ExRouteOther(st1, s, m, c);
        ExFrameKeeps(st1, DoRoute(st1, s, m), c);
      } else if m.Config? {
        ExConfig(st1, s, m.client, m.mappings, c);
        ExFrameKeeps(st1, DoConfig(st1, s, m.client, m.mappings), c);
      } else if m.Takeover? {
        ExTakeover(st1, s, m.client, m.mappings, m.newSession, c);
      }
    }
  }

  lemma ExFacts(st: State, s: SessionId, c: ConnId)
    requires Ready(st, s) && About(st, c) && c in st.conns
    ensures Placed(st, c)
    ensures Concerns(st.sessions[s].up[0], c) ==> Targets(st, c, s) && !st.conns[c].phase.PendingSet?
    ensures forall p :: p in st.listeners && c in st.listeners[p].active ==> p == st.conns[c].port
  {
    assert ConnInv(st, c) && QueueInv(st, s, c);
    forall p | p in st.listeners && c in st.listeners[p].active ensures p == st.conns[c].port {
      assert EntryInv(st, p, c);
    }
  }

  // ---------- the client's loop ----------

  lemma ExClientRecv(st: State, s: SessionId, c: ConnId)
    requires ClientReady(st, s) && c in st.conns && Placed(st, c) && ExConn(st, c)
    requires Connects(st.sessions[s].down, c) <= (if Targets(st, c, s) && st.conns[c].task.NoTask? then 1 else 0)
    ensures c in DoClientRecv(st, s).conns && ExConn(DoClientRecv(st, s), c)
  {
    var m := st.sessions[s].down[0];
    var st1 := TakeDown(st, s);
    PopAt(st.sessions[s].down, c);
    ExTakeDown(st, s, c);
    if st.sessions[s].phase.Waiting? || (m.TakeoverComplete? && !st.sessions[s].phase.takeover) {
      ExClientLeaves(st1, DoClientRecv(st, s), s, c);
    } else {
      ExServe(st1, s, m, c);
    }
  }

  lemma ExTakeDown(st: State, s: SessionId, c: ConnId)
    requires ClientReady(st, s) && c in st.conns && Placed(st, c) && ExConn(st, c)
    ensures ExConn(TakeDown(st, s), c) && Placed(TakeDown(st, s), c)
  {
    FrameOtherQueue(st, TakeDown(st, s), s, c);
    ExFrameKeeps(st, TakeDown(st, s), c);
  }

  /** Whatever the client's loop does to its own phase and registry does not matter here. */
  lemma ExClientLeaves(st: State, st': State, s: SessionId, c: ConnId)
    requires s in st.sessions && s in st'.sessions && c in st.conns && Placed(st, c) && ExConn(st, c)
    requires st'.listeners == st.listeners && c in st'.conns
    requires st'.conns[c] == st.conns[c].(down := st'.conns[c].down)
    requires st'.sessions == st.sessions[s := st'.sessions[s]]
    requires var e, e' := st.sessions[s], st'.sessions[s];
             && e'.up == e.up && e'.client == e.client && e'.server == e.server && (e'.Running() ==> e.Running())
    ensures ExConn(st', c)
  {
  }

  lemma ExServe(st: State, s: SessionId, m: Message, c: ConnId)
    requires s in st.sessions && c in st.conns && Placed(st, c) && ExConn(st, c)
    requires m.Connect? && m.conn == c ==> Targets(st, c, s) && st.conns[c].task.NoTask?
    ensures c in DoServe(st, s, m).conns && ExConn(DoServe(st, s, m), c)
  {
    match m
    case Connect(b, p) =>
      if b in st.conns {
        var t := if Maps(st.sessions[s].mappings, p) then Connecting else Failed;
        var st1 := SetConn(st, b, st.conns[b].(task := t));
        assert ExConn(st1, c);
        if t.Failed? { ExPushFailed(st1, s, b, c); }
      }
    case Data(b, d) => assert ExConn(DoServe(st, s, m), c);
    case Close(b) => ExClientLeaves(st, DoServe(st, s, m), s, c);
    case _ =>
  }

  lemma ExPushFailed(st: State, s: SessionId, b: ConnId, c: ConnId)
    requires s in st.sessions && c in st.conns && Placed(st, c) && ExConn(st, c)
    ensures ExConn(PushUp(st, s, ConnectFailed(b)), c)
  {
    if Ordered(st.sessions[s].up, c) { OrderedPush(st.sessions[s].up, ConnectFailed(b), c); }
    FrameOtherQueue(st, PushUp(st, s, ConnectFailed(b)), s, c);
    ExFrameKeeps(st, PushUp(st, s, ConnectFailed(b)), c);
  }

  // ---------- handler and task steps ----------

  lemma ExOtherConn(st: State, b: ConnId, k: Conn, c: ConnId)
    requires b != c && c in st.conns && Placed(st, c) && ExConn(st, c)
    ensures ExConn(SetConn(st, b, k), c)
  {
  }

  lemma ExHandlerOther(st: State, b: ConnId, h: HandlerStep, c: ConnId)
    requires HandlerEnabled(st, b, h) && b != c && c in st.conns && Placed(st, c) && ExConn(st, c)
    ensures c in ApplyHandler(st, b, h).conns && ExConn(ApplyHandler(st, b, h), c)
  {
    var st' := ApplyHandler(st, b, h);
    if h.SendConnect? || h.SendDown? || h.CloseDown? {
      var p := st.conns[b].port;
      var m := match h case SendConnect => Connect(b, p) case SendDown => Data(b, st.conns[b].reader.data) case _ => Close(b);
      if CanSend(st, p) {
        var s := st.listeners[p].bound.value.channel;
        ExPushDown(st, s, m, c);
        ExFrameKeeps(st, PushDown(st, s, m), c);
      }
      ExOtherConn(SendToClient(st, p, m), b, st'.conns[b], c);
    } else if Registers(h) {
      ExFrameKeeps(st, st', c);
    } else {
      ExOtherConn(st, b, st'.conns[b], c);
    }
  }

  lemma ExHandlerSelf(st: State, c: ConnId, h: HandlerStep)
    requires HandlerEnabled(st, c, h) && !h.Accept? && BindingInv(st) && LifeInv(st, c) && ExConn(st, c)
    requires forall s :: s in st.sessions && st.conns[c].target.None? ==>
               Connected(c) !in st.sessions[s].up && Close(c) !in st.sessions[s].up
    requires forall p :: p in st.listeners && c in st.listeners[p].pending ==> !st.conns[c].phase.CleanActive?
    ensures c in ApplyHandler(st, c, h).conns && ExConn(ApplyHandler(st, c, h), c)
  {
    if h.SendConnect? { ExSendConnect(st, c); }
    else if h.SendDown? || h.CloseDown? { ExSends(st, c, h); }
  }

  lemma ExSendConnect(st: State, c: ConnId)
    requires HandlerEnabled(st, c, SendConnect) && BindingInv(st) && LifeInv(st, c) && ExConn(st, c)
    requires forall s :: s in st.sessions ==> Connected(c) !in st.sessions[s].up && Close(c) !in st.sessions[s].up
    ensures ExConn(DoSendConnect(st, c), c)
  {
  }

  lemma ExSends(st: State, c: ConnId, h: HandlerStep)
    requires HandlerEnabled(st, c, h) && (h.SendDown? || h.CloseDown?) && LifeInv(st, c) && ExConn(st, c)
    ensures ExConn(ApplyHandler(st, c, h), c)
  {
    var p := st.conns[c].port;
    var m := if h.SendDown? then Data(c, st.conns[c].reader.data) else Close(c);
    if CanSend(st, p) {
      var s := st.listeners[p].bound.value.channel;
      ExPushDown(st, s, m, c);
      ExFrameKeeps(st, PushDown(st, s, m), c);
    }
    assert ExConn(SendToClient(st, p, m), c);
  }

  lemma ExAccept(st: State, c: ConnId, p: Port)
    requires HandlerEnabled(st, c, Accept(p)) && EntryInv(st, p, c)
    ensures ExConn(ApplyHandler(st, c, Accept(p)), c)
  {
  }

  lemma ExTaskOther(st: State, b: ConnId, t: TaskStep, c: ConnId)
    requires TaskEnabled(st, b, t) && b != c && c in st.conns && Placed(st, c) && ExConn(st, c)
    ensures c in ApplyTask(st, b, t).conns && ExConn(ApplyTask(st, b, t), c)
  {
    var st' := ApplyTask(st, b, t);
    var s := st.conns[b].target.value;
    var st1 := SetConn(st, b, st'.conns[b]);
    ExOtherConn(st, b, st'.conns[b], c);
    if Registry(t) {
      ExClientLeaves(st1, st', s, c);
    } else if SendsUp(t) || (t.SendUp? && !t.fails) {
      var m := if SendsUp(t) then Sent(st.conns[b], b, t).1 else Data(b, st.conns[b].localReader.data);
      ExPushUp(st1, s, m, c);
      ExFrameKeeps(st1, st', c);
    }
  }

  /** SendConnected puts Connected on the queue before any Close of the same task. */
  lemma ExTaskSends(st: State, c: ConnId, t: TaskStep)
    requires TaskEnabled(st, c, t) && (SendsUp(t) || t.SendUp?) && LifeInv(st, c) && ExConn(st, c)
    ensures c in ApplyTask(st, c, t).conns && ExConn(ApplyTask(st, c, t), c)
  {
    var k := st.conns[c];
    var q := st.sessions[k.target.value].up;
    var m := if SendsUp(t) then Sent(k, c, t).1 else Data(c, k.localReader.data);
    if c in st.listeners[k.port].pending && st.sessions[k.target.value].Running() {
      OrderedPush(q, m, c);
    }
  }

  lemma ExTaskSelf(st: State, c: ConnId, t: TaskStep)
    requires TaskEnabled(st, c, t) && LifeInv(st, c) && ExConn(st, c)
    ensures c in ApplyTask(st, c, t).conns && ExConn(ApplyTask(st, c, t), c)
  {
    if SendsUp(t) || t.SendUp? { ExTaskSends(st, c, t); }
  }

  // ---------- runs ----------

  lemma ExStep(st: State, step: Step, c: ConnId)
    requires Enabled(st, step) && Exclusive(st, step) && BindingInv(st) && About(st, c)
    requires c in st.conns ==> ExConn(st, c)
    ensures c in Apply(st, step).conns ==> ExConn(Apply(st, step), c)
  {
    if c in st.conns {
      assert ConnInv(st, c);
      match step
      case OfSession(s, a) => ExSessionStep(st, s, a, c);
      case OfHandler(b, h) =>
        if b == c {
          ExUnsent(st, c);
          ExHandlerSelf(st, c, h);
        } else { ExHandlerOther(st, b, h, c); }
      case OfTask(b, t) => if b == c { ExTaskSelf(st, c, t); } else { ExTaskOther(st, b, t, c); }
    } else if c in Apply(st, step).conns {
      ExNew(st, step, c);
    }
  }

  lemma ExUnsent(st: State, c: ConnId)
    requires About(st, c) && c in st.conns
    ensures forall s :: s in st.sessions && st.conns[c].target.None? ==>
              Connected(c) !in st.sessions[s].up && Close(c) !in st.sessions[s].up
    ensures forall p :: p in st.listeners && c in st.listeners[p].pending ==> !st.conns[c].phase.CleanActive?
  {
    forall s | s in st.sessions && st.conns[c].target.None?
      ensures Connected(c) !in st.sessions[s].up && Close(c) !in st.sessions[s].up
    {
      assert QueueInv(st, s, c);
    }
    forall p | p in st.listeners && c in st.listeners[p].pending ensures !st.conns[c].phase.CleanActive? {
      assert EntryInv(st, p, c);
    }
  }

  lemma ExSessionStep(st: State, s: SessionId, a: SessionStep, c: ConnId)
    requires SessionEnabled(st, s, a) && Exclusive(st, OfSession(s, a)) && About(st, c)
    requires c in st.conns && Placed(st, c) && ExConn(st, c)
    ensures c in ApplySession(st, s, a).conns && ExConn(ApplySession(st, s, a), c)
  {
    match a
    case ServerRecv => ExServerRecv(st, s, c);
    case ClientRecv =>
      assert QueueInv(st, s, c);
      ExClientRecv(st, s, c);
    case ServerUnbind =>
      ExUnbind(st, s, c);
      ExFrameKeeps(st, ApplySession(st, s, a), c);
    case _ =>
      ExSession(st, s, a, c);
      ExFrameKeeps(st, ApplySession(st, s, a), c);
  }

  lemma ExNew(st: State, step: Step, c: ConnId)
    requires Enabled(st, step) && About(st, c) && c !in st.conns && c in Apply(st, step).conns
    ensures ExConn(Apply(st, step), c)
  {
    NewBy(st, step, c);
    assert EntryInv(st, step.h.p, c);
    ExAccept(st, c, step.h.p);
  }

  lemma {:induction false} ExclusiveKeeps(run: seq<Step>, states: seq<State>, n: nat)
    requires PassesExclusively(run, states) && n <= |run|
    ensures ExInv(states[n])
  {
    if n > 0 {
      ExclusiveKeeps(run, states, n - 1);
      RunKeepsInv(run, states, n - 1);
      StepOf(run, states, n - 1);
      forall c | c in states[n].conns ensures ExConn(states[n], c) {
        ExStep(states[n - 1], run[n - 1], c);
      }
    }
  }

  lemma ExclusiveInv(st: State)
    requires ExclusivelyReachable(st)
    ensures ExInv(st) && Reachable(st) && Inv(st)
  {
    var run, states :| PassesExclusively(run, states) && states[|run|] == st;
    ExclusiveKeeps(run, states, |run|);
    RunKeepsInv(run, states, |run|);
  }

  /** With exclusive ids both streams of every connection are intact over every run. */
  lemma ExclusiveStreams(st: State, c: ConnId)
    requires ExclusivelyReachable(st) && c in st.conns
    ensures var k := st.conns[c];
            && k.up.written <= |k.up.accepted| && Prefix(k.up.Output(), Flatten(k.up.read))
            && k.down.written <= |k.down.accepted| && Prefix(k.down.Output(), Flatten(k.down.read))
  {
    ExclusiveInv(st);
    assert ExConn(st, c) && About(st, c);
    UpStreamOrder(st, c);
    UpStreamIntegrity(st, c);
    DownStreamIntegrity(st, c);
  }

  /** With exclusive ids a pending connection is active, save for a handler between its two registrations. */
  lemma ExclusivePending(st: State, p: Port, c: ConnId)
    requires ExclusivelyReachable(st) && p in st.listeners && c in st.listeners[p].pending
    ensures c in st.conns && (c in st.listeners[p].active || st.conns[c].phase.PendingSet?)
  {
    ExclusiveInv(st);
    assert About(st, c);
    assert EntryInv(st, p, c);
    assert ExConn(st, c);
  }
}
