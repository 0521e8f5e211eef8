/** Step by step: exactly what adds and removes entries, registrations and signals, and what is sent where. */
module TunnelProtocol {
  import opened Common
  import opened Messages
  import opened TunnelSystem
  import opened TunnelInvariant
  import opened TunnelSafety

  // ---------- the entries of a port ----------

  /** The server takes `m` off the queue of a session whose client the port is bound to. */
  predicate RoutesTo(st: State, step: Step, p: Port, m: Message) {
    && step.OfSession? && step.a.ServerRecv? && Ready(st, step.s) && st.sessions[step.s].up[0] == m
    && st.sessions[step.s].client.Some? && p in st.listeners
    && st.listeners[p].bound.Some? && st.listeners[p].bound.value.client == st.sessions[step.s].client.value
  }

  /** The mappings list the port at two places. */
  predicate Twice(ms: seq<PortMapping>, p: Port) {
    exists i, j :: 0 <= i < j < |ms| && ms[i].remotePort == p && ms[j].remotePort == p
  }

  lemma {:induction false} TimesTwice(ms: seq<PortMapping>, p: Port)
    ensures Times(ms, p) > 1 <==> Twice(ms, p)
  {
    if ms != [] {
      var n := |ms| - 1;
      TimesTwice(ms[..n], p);
      TimesMaps(ms[..n], p);
      if ms[n].remotePort == p && Maps(ms[..n], p) {
        var m :| m in ms[..n] && m.remotePort == p;
        var i :| 0 <= i < n && ms[..n][i] == m;
        assert ms[i].remotePort == p && ms[n].remotePort == p;
      }
      if Twice(ms, p) {
        var i, j :| 0 <= i < j < |ms| && ms[i].remotePort == p && ms[j].remotePort == p;
        assert ms[..n][i] == ms[i] && ms[i] in ms[..n];
        if j < n { assert ms[..n][j] == ms[j]; }
      }
    }
  }

  /** A takeover by an unregistered session that clears the port: something is active and the id stays the same at some visit. */
  predicate Clears(st: State, step: Step, p: Port) {
    && step.OfSession? && step.a.ServerRecv? && Ready(st, step.s) && st.sessions[step.s].client.None?
    && st.sessions[step.s].up[0].Takeover? && p in st.listeners && st.listeners[p].active != {}
    && var m := st.sessions[step.s].up[0];
    && Maps(m.mappings, p)
    && ((st.listeners[p].bound.Some? && st.listeners[p].bound.value.client == m.client) || Twice(m.mappings, p))
  }

  predicate AddsPending(st: State, step: Step, p: Port, c: ConnId) {
    step == OfHandler(c, PutPending) && c in st.conns && st.conns[c].port == p
  }

  predicate AddsActive(st: State, step: Step, p: Port, c: ConnId) {
    step == OfHandler(c, PutActive) && c in st.conns && st.conns[c].port == p
  }

  predicate DropsPending(st: State, step: Step, p: Port, c: ConnId) {
    || (step == OfHandler(c, DropPending) && c in st.conns && st.conns[c].port == p)
    || RoutesTo(st, step, p, Connected(c)) || RoutesTo(st, step, p, ConnectFailed(c)) || Clears(st, step, p)
  }

  predicate DropsActive(st: State, step: Step, p: Port, c: ConnId) {
    || (step == OfHandler(c, DropActive) && c in st.conns && st.conns[c].port == p)
    || RoutesTo(st, step, p, ConnectFailed(c)) || RoutesTo(st, step, p, Close(c)) || Clears(st, step, p)
  }

  /** The two maps of a port after a step, entry by entry. */
  predicate EntriesExact(st: State, step: Step, st': State, p: Port, c: ConnId)
    requires p in st.listeners
  {
    && p in st'.listeners
    && (c in st'.listeners[p].pending <==> AddsPending(st, step, p, c) || (c in st.listeners[p].pending && !DropsPending(st, step, p, c)))
    && (c in st'.listeners[p].active <==> AddsActive(st, step, p, c) || (c in st.listeners[p].active && !DropsActive(st, step, p, c)))
  }

  lemma EntriesByRoute(st: State, s: SessionId, p: Port, c: ConnId)
    requires Ready(st, s) && Routable(st.sessions[s].up[0]) && p in st.listeners
    ensures EntriesExact(st, OfSession(s, ServerRecv), DoServerRecv(st, s), p, c)
  {
    var m := st.sessions[s].up[0];
    if st.sessions[s].client.Some? {
      BroadcastAt(st.listeners, st.sessions[s].client.value, m, p);
      RouteListeners(st, s);
    }
  }

  lemma RouteListeners(st: State, s: SessionId)
    requires Ready(st, s) && Routable(st.sessions[s].up[0]) && st.sessions[s].client.Some?
    ensures DoServerRecv(st, s).listeners == Broadcast(st.listeners, st.sessions[s].client.value, st.sessions[s].up[0])
  {
  }

  lemma EntriesByConfig(st: State, s: SessionId, p: Port, c: ConnId)
    requires Ready(st, s) && st.sessions[s].up[0].Config? && p in st.listeners
    ensures EntriesExact(st, OfSession(s, ServerRecv), DoServerRecv(st, s), p, c)
  {
    var m := st.sessions[s].up[0];
    BindAllAt(st.listeners, m.client, s, m.mappings, p);
  }

  lemma EntriesByTakeover(st: State, s: SessionId, p: Port, c: ConnId)
    requires Ready(st, s) && st.sessions[s].up[0].Takeover? && p in st.listeners
    ensures EntriesExact(st, OfSession(s, ServerRecv), DoServerRecv(st, s), p, c)
  {
    var m := st.sessions[s].up[0];
    TimesTwice(m.mappings, p);
    SwitchAllAt(st.listeners, m.client, s, m.mappings, p);
    ServedZero(st.listeners, m.mappings);
    TakeoverListeners(st, s);
  }

  lemma TakeoverListeners(st: State, s: SessionId)
    requires Ready(st, s) && st.sessions[s].up[0].Takeover?
    ensures var m := st.sessions[s].up[0];
            DoServerRecv(st, s).listeners ==
            if st.sessions[s].client.Some? || (Served(st.listeners, m.mappings) == 0 && m.mappings != []) then st.listeners
            else SwitchAll(st.listeners, m.client, s, m.mappings)
  {
  }

  lemma EntriesByServer(st: State, s: SessionId, p: Port, c: ConnId)
    requires Ready(st, s) && p in st.listeners
    ensures EntriesExact(st, OfSession(s, ServerRecv), DoServerRecv(st, s), p, c)
  {
    match st.sessions[s].up[0]
    case Config(_, _) => EntriesByConfig(st, s, p, c);
    case Takeover(_, _, _) => EntriesByTakeover(st, s, p, c);
    case Connected(_) => EntriesByRoute(st, s, p, c);
    case ConnectFailed(_) => EntriesByRoute(st, s, p, c);
    case Data(_, _) => EntriesByRoute(st, s, p, c);
    case Close(_) => EntriesByRoute(st, s, p, c);
    case _ =>
  }

  lemma EntriesBySession(st: State, s: SessionId, a: SessionStep, p: Port, c: ConnId)
    requires SessionEnabled(st, s, a) && !a.ServerRecv? && p in st.listeners
    ensures EntriesExact(st, OfSession(s, a), ApplySession(st, s, a), p, c)
  {
    if a.ServerUnbind? && st.sessions[s].client.Some? { UnbindAllAt(st.listeners, st.sessions[s].client.value, p); }
    if a.ClientRecv? { ClientListeners(st, s); }
  }

  lemma ClientListeners(st: State, s: SessionId)
    requires ClientReady(st, s)
    ensures DoClientRecv(st, s).listeners == st.listeners
  {
  }

  lemma EntriesByHandler(st: State, b: ConnId, h: HandlerStep, p: Port, c: ConnId)
    requires HandlerEnabled(st, b, h) && p in st.listeners
    ensures EntriesExact(st, OfHandler(b, h), ApplyHandler(st, b, h), p, c)
  {
  }

  /**
   Exactly which steps put an entry into the two maps of a port and which take it out: the handler's own
   registrations and drops, a routed Connected, ConnectFailed or Close of the connection, and a clearing takeover.
   */
  lemma EntriesExactly(st: State, step: Step, p: Port, c: ConnId)
    requires Enabled(st, step) && p in st.listeners
    ensures EntriesExact(st, step, Apply(st, step), p, c)
  {
    match step
    case OfSession(s, a) => if a.ServerRecv? { EntriesByServer(st, s, p, c); } else { EntriesBySession(st, s, a, p, c); }
    case OfHandler(b, h) => EntriesByHandler(st, b, h, p, c);
    case OfTask(b, t) =>
  }

  /** No entry of `c` is left at the port; its other entries and its binding are as they were. */
  ghost predicate Forgotten(l: Listener, l': Listener, c: ConnId) {
    && c !in l'.pending && c !in l'.active && l'.bound == l.bound
    && (forall o :: o != c ==> (o in l'.pending <==> o in l.pending))
    && (forall o :: o != c ==> (o in l'.active <==> o in l.active))
  }

  lemma ForgottenAt(ls: Listeners, x: ClientId, c: ConnId, home: Port, p: Port)
    requires home in ls && ls[home].BoundTo(x) && p in ls
    requires p != home ==> c !in ls[p].pending && c !in ls[p].active
    ensures p in Broadcast(ls, x, ConnectFailed(c)) && Forgotten(ls[p], Broadcast(ls, x, ConnectFailed(c))[p], c)
  {
    BroadcastAt(ls, x, ConnectFailed(c), p);
  }

  lemma HomeOnly(st: State, c: ConnId, p: Port)
    requires Reachable(st) && c in st.conns && p in st.listeners && p != st.conns[c].port
    ensures c !in st.listeners[p].pending && c !in st.listeners[p].active
  {
    ReachableInv(st);
    assert About(st, c) && EntryInv(st, p, c);
  }

  /**
   After the server has handled ConnectFailed(c) from the client its port is bound to, no port has an
   entry of c; every other entry and every binding is as before.
   */
  lemma ConnectFailedForgets(st: State, s: SessionId, c: ConnId)
    requires Reachable(st) && c in st.conns && RoutesTo(st, OfSession(s, ServerRecv), st.conns[c].port, ConnectFailed(c))
    ensures var st' := Apply(st, OfSession(s, ServerRecv));
            && st'.listeners.Keys == st.listeners.Keys
            && forall p :: p in st.listeners ==> Forgotten(st.listeners[p], st'.listeners[p], c)
  {
    var x, home := st.sessions[s].client.value, st.conns[c].port;
    RouteListeners(st, s);
    forall p | p in st.listeners
      ensures p in Broadcast(st.listeners, x, ConnectFailed(c))
      ensures Forgotten(st.listeners[p], Broadcast(st.listeners, x, ConnectFailed(c))[p], c)
    {
      if p != home { HomeOnly(st, c, p); }
      ForgottenAt(st.listeners, x, c, home, p);
    }
  }

  // ---------- the registry of a client ----------

  /** The connect task of `c` registers it at session `s`. */
  predicate Enters(st: State, step: Step, s: SessionId, c: ConnId) {
    step == OfTask(c, LocalConnected) && c in st.conns && st.conns[c].target == Some(s)
  }

  /** The read task's removal, a Close the client serves, the exit by a takeover, and the end of the loop. */
  predicate Leaves(st: State, step: Step, s: SessionId, c: ConnId)
    requires s in st.sessions
  {
    var e := st.sessions[s];
    || (step == OfTask(c, RemoveLocal) && c in st.conns && st.conns[c].target == Some(s))
    || step == OfSession(s, ClientEnd)
    || (step == OfSession(s, ClientRecv) && e.phase.Serving? && e.down != [] &&
        (e.down[0] == Close(c) || (e.down[0].TakeoverComplete? && !e.phase.takeover)))
  }

  predicate RegistryExact(st: State, step: Step, st': State, s: SessionId, c: ConnId)
    requires s in st.sessions
  {
    s in st'.sessions && (c in st'.sessions[s].local <==> Enters(st, step, s, c) || (c in st.sessions[s].local && !Leaves(st, step, s, c)))
  }

  lemma RegistryByClient(st: State, t: SessionId, s: SessionId, c: ConnId)
    requires ClientReady(st, t) && s in st.sessions
    ensures RegistryExact(st, OfSession(t, ClientRecv), DoClientRecv(st, t), s, c)
  {
    if s == t { ServedRegistry(st, s, c); } else { OthersRegistry(st, t, s); }
  }

  lemma OthersRegistry(st: State, t: SessionId, s: SessionId)
    requires ClientReady(st, t) && s in st.sessions && s != t
    ensures s in DoClientRecv(st, t).sessions && DoClientRecv(st, t).sessions[s] == st.sessions[s]
  {
  }

  lemma ServedRegistry(st: State, s: SessionId, c: ConnId)
    requires ClientReady(st, s)
    ensures RegistryExact(st, OfSession(s, ClientRecv), DoClientRecv(st, s), s, c)
  {
  }

  predicate SameRest(st: State, st': State, s: SessionId)
    requires s in st.sessions
  {
    s in st'.sessions && st'.sessions[s].local == st.sessions[s].local && st'.sessions[s].server == st.sessions[s].server
  }

  lemma RestByPush(st: State, t: SessionId, m: Message, s: SessionId)
    requires s in st.sessions
    ensures SameRest(st, PushDown(st, t, m), s)
  {
  }

  lemma RestByTakeover(st: State, t: SessionId, x: ClientId, ms: seq<PortMapping>, n: TakeoverId, s: SessionId)
    requires t in st.sessions && s in st.sessions
    ensures SameRest(st, DoTakeover(st, t, x, ms, n), s)
  {
    var st1 := Switched(st, t, x, ms);
    RestByPush(st, t, TakeoverFailed, s);
    RestByPush(st1, t, TakeoverReady(n), s);
    if x in st.table { RestByPush(PushDown(st1, t, TakeoverReady(n)), st.table[x], TakeoverComplete(n), s); }
  }

  lemma RegistryByServer(st: State, t: SessionId, s: SessionId)
    requires Ready(st, t) && s in st.sessions
    ensures SameRest(st, DoServerRecv(st, t), s)
  {
    var m := st.sessions[t].up[0];
    if m.Takeover? { RestByTakeover(TakeUp(st, t), t, m.client, m.mappings, m.newSession, s); }
  }

  lemma RegistryByHandler(st: State, b: ConnId, h: HandlerStep, s: SessionId)
    requires HandlerEnabled(st, b, h) && s in st.sessions
    ensures s in ApplyHandler(st, b, h).sessions && ApplyHandler(st, b, h).sessions[s].local == st.sessions[s].local
  {
  }

  lemma RegistryByTask(st: State, b: ConnId, t: TaskStep, s: SessionId, c: ConnId)
    requires TaskEnabled(st, b, t) && s in st.sessions
    ensures RegistryExact(st, OfTask(b, t), ApplyTask(st, b, t), s, c)
  {
  }

  /** Exactly which steps register a connection at a client and which remove it. */
  lemma RegistryExactly(st: State, step: Step, s: SessionId, c: ConnId)
    requires Enabled(st, step) && s in st.sessions
    ensures RegistryExact(st, step, Apply(st, step), s, c)
  {
    match step
    case OfSession(t, a) =>
      if a.ServerRecv? { RegistryByServer(st, t, s); }
      else if a.ClientRecv? { RegistryByClient(st, t, s, c); }
    case OfHandler(b, h) => RegistryByHandler(st, b, h, s);
    case OfTask(b, t) => RegistryByTask(st, b, t, s, c);
  }

  // ---------- the signal a handler waits for ----------

  /** The server routes Connected(c) to the port of `c`, where it is still pending. */
  predicate Signals(st: State, step: Step, c: ConnId) {
    c in st.conns && RoutesTo(st, step, st.conns[c].port, Connected(c)) && c in st.listeners[st.conns[c].port].pending
  }

  predicate SameSignal(st: State, st': State, c: ConnId)
    requires c in st.conns
  {
    c in st'.conns && st'.conns[c].signalled == st.conns[c].signalled
  }

  lemma SignalByServer(st: State, s: SessionId, c: ConnId)
    requires Ready(st, s) && c in st.conns
    ensures var st' := DoServerRecv(st, s);
            c in st'.conns && (st'.conns[c].signalled <==> st.conns[c].signalled || Signals(st, OfSession(s, ServerRecv), c))
  {
  }

  lemma SignalBySession(st: State, s: SessionId, a: SessionStep, c: ConnId)
    requires SessionEnabled(st, s, a) && !a.ServerRecv? && c in st.conns
    ensures SameSignal(st, ApplySession(st, s, a), c)
  {
    if a.ClientRecv? { SignalByClient(st, s, c); }
  }

  lemma SignalByClient(st: State, s: SessionId, c: ConnId)
    requires ClientReady(st, s) && c in st.conns
    ensures SameSignal(st, DoClientRecv(st, s), c)
  {
  }

  lemma SignalByHandler(st: State, b: ConnId, h: HandlerStep, c: ConnId)
    requires HandlerEnabled(st, b, h) && c in st.conns
    ensures SameSignal(st, ApplyHandler(st, b, h), c)
  {
  }

  lemma SignalByTask(st: State, b: ConnId, t: TaskStep, c: ConnId)
    requires TaskEnabled(st, b, t) && c in st.conns
    ensures SameSignal(st, ApplyTask(st, b, t), c)
  {
  }

  lemma SignalStep(st: State, step: Step, c: ConnId)
    requires Enabled(st, step) && c in st.conns
    ensures var st' := Apply(st, step);
            c in st'.conns && (st'.conns[c].signalled <==> st.conns[c].signalled || Signals(st, step, c))
  {
    match step
    case OfSession(s, a) => if a.ServerRecv? { SignalByServer(st, s, c); } else { SignalBySession(st, s, a, c); }
    case OfHandler(b, h) => SignalByHandler(st, b, h, c);
    case OfTask(b, t) => SignalByTask(st, b, t, c);
  }

  predicate SignalledBefore(run: seq<Step>, states: seq<State>, n: nat, c: ConnId) {
    exists j :: 0 <= j < n && j < |run| && j < |states| && Signals(states[j], run[j], c)
  }

  lemma SignalledLonger(run: seq<Step>, states: seq<State>, n: nat, c: ConnId)
    requires n < |run| && |states| == |run| + 1
    ensures SignalledBefore(run, states, n + 1, c) <==> SignalledBefore(run, states, n, c) || Signals(states[n], run[n], c)
  {
    if SignalledBefore(run, states, n, c) {
      var j :| 0 <= j < n && Signals(states[j], run[j], c);
      assert 0 <= j < n + 1;
    }
  }

  lemma SignalNext(run: seq<Step>, states: seq<State>, n: nat, c: ConnId)
    requires Passes(run, states) && n < |run| && c in states[n + 1].conns
    requires c in states[n].conns ==> (states[n].conns[c].signalled <==> SignalledBefore(run, states, n, c))
    ensures states[n + 1].conns[c].signalled <==> SignalledBefore(run, states, n + 1, c)
  {
    StepOf(run, states, n);
    SignalledLonger(run, states, n, c);
    if c in states[n].conns {
      SignalStep(states[n], run[n], c);
    } else {
      NotSignalledYet(run, states, n, c);
      NewBy(states[n], run[n], c);
    }
  }

  lemma {:induction false} SignalTells(run: seq<Step>, states: seq<State>, n: nat, c: ConnId)
    requires Passes(run, states) && n <= |run| && c in states[n].conns
    ensures states[n].conns[c].signalled <==> SignalledBefore(run, states, n, c)
  {
    if n > 0 {
      if c in states[n - 1].conns { SignalTells(run, states, n - 1, c); }
      SignalNext(run, states, n - 1, c);
    }
  }

  lemma NotSignalledYet(run: seq<Step>, states: seq<State>, n: nat, c: ConnId)
    requires Passes(run, states) && n <= |run| && c !in states[n].conns
    ensures !SignalledBefore(run, states, n, c)
  {
    if SignalledBefore(run, states, n, c) {
      var j :| 0 <= j < n && Signals(states[j], run[j], c);
      ConnsStay(run, states, j, n, c);
    }
  }

  /**
   A handler that stops waiting goes on to forward if and only if the server had routed the client's
   Connected to its port while it was pending there; otherwise it cleans up.
   */
  lemma ForwardsExactly(run: seq<Step>, states: seq<State>, n: nat, c: ConnId)
    requires Passes(run, states) && n < |run| && run[n] == OfHandler(c, Await)
    ensures var k := states[n + 1].conns[c];
            if SignalledBefore(run, states, n, c) then k.phase == Forwarding && k.reader == Idle
            else k.phase == CleanPending && k.reader == states[n].conns[c].reader
  {
    StepOf(run, states, n);
    SignalTells(run, states, n, c);
  }

  /** A handler that has forwarded is still at it, or one of its two tasks has ended. */
  predicate StaysUntil(k: Conn) { k.reader.NotStarted? || k.phase.Forwarding? || k.reader.Done? || k.up.dead }

  predicate LeaveKept(st: State, st': State, c: ConnId)
    requires c in st.conns
  {
    c in st'.conns && (StaysUntil(st.conns[c]) ==> StaysUntil(st'.conns[c]))
  }

  lemma LeaveByServer(st: State, s: SessionId, c: ConnId)
    requires Ready(st, s) && c in st.conns
    ensures LeaveKept(st, DoServerRecv(st, s), c)
  {
  }

  lemma LeaveByClient(st: State, s: SessionId, c: ConnId)
    requires ClientReady(st, s) && c in st.conns
    ensures LeaveKept(st, DoClientRecv(st, s), c)
  {
  }

  lemma LeaveBySession(st: State, s: SessionId, a: SessionStep, c: ConnId)
    requires SessionEnabled(st, s, a) && c in st.conns
    ensures LeaveKept(st, ApplySession(st, s, a), c)
  {
    if a.ServerRecv? { LeaveByServer(st, s, c); }
    else if a.ClientRecv? { LeaveByClient(st, s, c); }
  }

  lemma LeaveByHandler(st: State, b: ConnId, h: HandlerStep, c: ConnId)
    requires HandlerEnabled(st, b, h) && c in st.conns && LifeInv(st, c)
    ensures LeaveKept(st, ApplyHandler(st, b, h), c)
  {
  }

  lemma LeaveByTask(st: State, b: ConnId, t: TaskStep, c: ConnId)
    requires TaskEnabled(st, b, t) && c in st.conns
    ensures LeaveKept(st, ApplyTask(st, b, t), c)
  {
  }

  lemma LeaveStep(st: State, step: Step, c: ConnId)
    requires Enabled(st, step) && c in st.conns && LifeInv(st, c)
    ensures LeaveKept(st, Apply(st, step), c)
  {
    match step
    case OfSession(s, a) => LeaveBySession(st, s, a, c);
    case OfHandler(b, h) => LeaveByHandler(st, b, h, c);
    case OfTask(b, t) => LeaveByTask(st, b, t, c);
  }

  lemma LeaveNext(run: seq<Step>, states: seq<State>, n: nat, c: ConnId)
    requires Passes(run, states) && n < |run| && c in states[n + 1].conns
    requires c in states[n].conns ==> StaysUntil(states[n].conns[c])
    ensures StaysUntil(states[n + 1].conns[c])
  {
    StepOf(run, states, n);
    if c in states[n].conns {
      RunKeepsInv(run, states, n);
      assert About(states[n], c) && ConnInv(states[n], c);
      LeaveStep(states[n], run[n], c);
    } else {
      NewBy(states[n], run[n], c);
    }
  }

  /** In every run a handler that forwarded cleans up only after its read task or its write task has ended. */
  lemma {:induction false} LeavesLast(run: seq<Step>, states: seq<State>, n: nat, c: ConnId)
    requires Passes(run, states) && n <= |run| && c in states[n].conns
    ensures StaysUntil(states[n].conns[c])
  {
    if n > 0 {
      if c in states[n - 1].conns { LeavesLast(run, states, n - 1, c); }
      LeaveNext(run, states, n - 1, c);
    }
  }

  /** The write task of the server has written everything and its connection is no longer active. */
  predicate Drained(st: State, c: ConnId)
    requires c in st.conns
  {
    var k := st.conns[c];
    && !k.reader.NotStarted? && k.up.written == |k.up.accepted|
    && k.port in st.listeners && c !in st.listeners[k.port].active
  }

  predicate DeadDrained(st: State, c: ConnId)
    requires c in st.conns
  {
    st.conns[c].up.dead ==> Drained(st, c)
  }

  predicate Fails(step: Step, c: ConnId) { step.OfHandler? && step.c == c && step.h.FailRemote? }

  /** What a dead write task has written, read and belongs to does not change, and the read task never starts over. */
  predicate DeadSame(st: State, st': State, c: ConnId)
    requires c in st.conns
  {
    && c in st'.conns
    && var k, k' := st.conns[c], st'.conns[c];
    && k'.port == k.port && (k'.up.dead ==> k.up.dead)
    && (k.up.dead ==> k'.up.written == k.up.written && k'.up.accepted == k.up.accepted && (k'.reader.NotStarted? ==> k.reader.NotStarted?))
  }

  lemma DeadByServer(st: State, s: SessionId, c: ConnId)
    requires Ready(st, s) && c in st.conns
    ensures DeadSame(st, DoServerRecv(st, s), c)
  {
  }

  lemma DeadByClient(st: State, s: SessionId, c: ConnId)
    requires ClientReady(st, s) && c in st.conns
    ensures DeadSame(st, DoClientRecv(st, s), c)
  {
  }

  lemma DeadBySession(st: State, s: SessionId, a: SessionStep, c: ConnId)
    requires SessionEnabled(st, s, a) && c in st.conns
    ensures DeadSame(st, ApplySession(st, s, a), c)
  {
    if a.ServerRecv? { DeadByServer(st, s, c); }
    else if a.ClientRecv? { DeadByClient(st, s, c); }
  }

  lemma DeadByTask(st: State, b: ConnId, t: TaskStep, c: ConnId)
    requires TaskEnabled(st, b, t) && c in st.conns
    ensures DeadSame(st, ApplyTask(st, b, t), c)
  {
  }

  lemma DeadByHandler(st: State, b: ConnId, h: HandlerStep, c: ConnId)
    requires HandlerEnabled(st, b, h) && c in st.conns && !(b == c && (h.FailRemote? || h.DrainRemote?))
    ensures DeadSame(st, ApplyHandler(st, b, h), c)
  {
  }

  lemma DrainedStep(st: State, step: Step, c: ConnId)
    requires Enabled(st, step) && c in st.conns && !Fails(step, c) && LifeInv(st, c) && DeadDrained(st, c)
    ensures c in Apply(st, step).conns && DeadDrained(Apply(st, step), c)
  {
    EntriesExactly(st, step, st.conns[c].port, c);
    match step
    case OfSession(s, a) => DeadBySession(st, s, a, c);
    case OfHandler(b, h) => if !(b == c && h.DrainRemote?) { DeadByHandler(st, b, h, c); }
    case OfTask(b, t) => DeadByTask(st, b, t, c);
  }

  lemma DrainedNext(run: seq<Step>, states: seq<State>, n: nat, c: ConnId)
    requires Passes(run, states) && n < |run| && c in states[n + 1].conns && !Fails(run[n], c)
    requires c in states[n].conns ==> DeadDrained(states[n], c)
    ensures DeadDrained(states[n + 1], c)
  {
    StepOf(run, states, n);
    if c in states[n].conns {
      RunKeepsInv(run, states, n);
      assert About(states[n], c) && ConnInv(states[n], c);
      DrainedStep(states[n], run[n], c);
    } else {
      NewBy(states[n], run[n], c);
    }
  }

  /** In a run without a write error on its socket, the server's write task ends only drained and with its entry gone. */
  lemma {:induction false} DiesDrained(run: seq<Step>, states: seq<State>, n: nat, c: ConnId)
    requires Passes(run, states) && n <= |run| && c in states[n].conns
    requires forall j :: 0 <= j < n ==> !Fails(run[j], c)
    ensures DeadDrained(states[n], c)
  {
    if n > 0 {
      if c in states[n - 1].conns { DiesDrained(run, states, n - 1, c); }
      DrainedNext(run, states, n - 1, c);
    }
  }

  // ---------- what is sent where ----------

  /** The channel of the port's client can still be sent to. */
  predicate Reaches(st: State, p: Port) {
    && p in st.listeners && st.listeners[p].bound.Some?
    && var t := st.listeners[p].bound.value.channel;
    t in st.sessions && !st.sessions[t].server.Gone?
  }

  /** Only the session the port is bound to gets the message, at the end of its queue, if its loop still runs. */
  predicate SentTo(st: State, st': State, p: Port, m: Message) {
    && st'.sessions.Keys == st.sessions.Keys
    && forall t :: t in st.sessions ==>
         && st'.sessions[t] == st.sessions[t].(down := st'.sessions[t].down)
         && st'.sessions[t].down == st.sessions[t].down +
              (if Reaches(st, p) && st.listeners[p].bound.value.channel == t && st.sessions[t].server.Open? then [m] else [])
  }

  /** A handler asks the bound client to connect and waits, or gives up when nobody can be asked. */
  lemma ConnectSent(st: State, c: ConnId)
    requires HandlerEnabled(st, c, SendConnect)
    ensures var st' := ApplyHandler(st, c, SendConnect);
            && SentTo(st, st', st.conns[c].port, Connect(c, st.conns[c].port))
            && st'.conns[c].phase == if Reaches(st, st.conns[c].port) then AwaitReady else CleanPending
  {
  }

  /** A read task sends its chunk to the bound client, or ends when nobody can be sent to. */
  lemma ChunkSent(st: State, c: ConnId)
    requires HandlerEnabled(st, c, SendDown)
    ensures var st' := ApplyHandler(st, c, SendDown);
            && SentTo(st, st', st.conns[c].port, Data(c, st.conns[c].reader.data))
            && st'.conns[c].reader == if Reaches(st, st.conns[c].port) then Idle else Ending
  {
  }

  /** A read task that has ended tells the bound client. */
  lemma CloseSent(st: State, c: ConnId)
    requires HandlerEnabled(st, c, CloseDown)
    ensures var st' := ApplyHandler(st, c, CloseDown);
            SentTo(st, st', st.conns[c].port, Close(c)) && st'.conns[c].reader == Done
  {
  }

  /** A task of the client sends to the server through its own session, which forwards it while its loop runs. */
  predicate Answers(st: State, st': State, s: SessionId, m: Message)
    requires s in st.sessions
  {
    && st'.sessions.Keys == st.sessions.Keys
    && (forall t :: t in st.sessions && t != s ==> st'.sessions[t] == st.sessions[t])
    && st'.sessions[s].up == st.sessions[s].up + (if st.sessions[s].Running() then [m] else [])
    && st'.sessions[s].down == st.sessions[s].down
  }

  /** Refusal, success, chunk and end of a connection are each told the server once. */
  lemma TasksAnswer(st: State, c: ConnId, t: TaskStep)
    requires TaskEnabled(st, c, t) && (t.LocalRefused? || t.SendConnected? || t == SendUp(false) || t.CloseUp?)
    ensures var k := st.conns[c];
            Answers(st, ApplyTask(st, c, t), k.target.value,
                    match t
                    case LocalRefused => ConnectFailed(c)
                    case SendConnected => Connected(c)
                    case SendUp(_) => Data(c, k.localReader.data)
                    case _ => Close(c))
  {
  }

  /** A client that is asked to connect dials a port it maps and refuses any other. */
  lemma ConnectServed(st: State, s: SessionId, c: ConnId, p: Port)
    requires ClientReady(st, s) && st.sessions[s].phase.Serving? && st.sessions[s].down[0] == Connect(c, p) && c in st.conns
    ensures var st' := DoClientRecv(st, s);
            var maps := exists m :: m in st.sessions[s].mappings && m.remotePort == p;
            && c in st'.conns && s in st'.sessions
            && st'.conns[c].task == (if maps then Connecting else Failed)
            && st'.sessions[s].up == st.sessions[s].up + if maps then [] else [ConnectFailed(c)]
  {
  }

  /** What a write task hands to its socket grows by the chunk it writes, or by the part it wrote before it failed. */
  lemma OutputGrows(f: Flow, n: nat)
    requires !f.dead && f.part == 0 && f.written < |f.accepted| && n <= |f.accepted[f.written]|
    ensures f.(written := f.written + 1).Output() == f.Output() + f.accepted[f.written]
    ensures f.(part := n, dead := true).Output() == f.Output() + f.accepted[f.written][..n]
  {
    assert f.accepted[..f.written + 1] == f.accepted[..f.written] + [f.accepted[f.written]];
    FlattenSum(f.accepted[..f.written], [f.accepted[f.written]]);
    assert Flatten([f.accepted[f.written]]) == f.accepted[f.written] + Flatten([]);
  }

  // ---------- a taking-over client waits ----------

  /** The client of session `s` takes TakeoverReady with this id off its queue. */
  predicate HearsReady(st: State, step: Step, s: SessionId, n: TakeoverId) {
    step == OfSession(s, ClientRecv) && s in st.sessions && st.sessions[s].down != [] && st.sessions[s].down[0] == TakeoverReady(n)
  }

  predicate ReadyBefore(run: seq<Step>, states: seq<State>, j: nat, i: nat, s: SessionId, n: TakeoverId) {
    exists k {:trigger HearsReady(states[k], run[k], s, n)} ::
      j < k < i && k < |run| && k < |states| && HearsReady(states[k], run[k], s, n)
  }

  predicate WaitsStill(st: State, s: SessionId, n: TakeoverId) {
    s in st.sessions && (st.sessions[s].phase == Waiting(n) || st.sessions[s].phase == Ended)
  }

  lemma WaitByClient(st: State, t: SessionId, s: SessionId, n: TakeoverId)
    requires ClientReady(st, t) && WaitsStill(st, s, n) && !HearsReady(st, OfSession(t, ClientRecv), s, n)
    ensures WaitsStill(DoClientRecv(st, t), s, n)
  {
    if s != t { OthersRegistry(st, t, s); }
  }

  lemma WaitByServer(st: State, t: SessionId, s: SessionId, n: TakeoverId)
    requires Ready(st, t) && WaitsStill(st, s, n)
    ensures WaitsStill(DoServerRecv(st, t), s, n)
  {
  }

  lemma WaitStep(st: State, step: Step, s: SessionId, n: TakeoverId)
    requires Enabled(st, step) && WaitsStill(st, s, n) && !HearsReady(st, step, s, n)
    ensures WaitsStill(Apply(st, step), s, n)
  {
    match step
    case OfSession(t, a) =>
      if a.ServerRecv? { WaitByServer(st, t, s, n); }
      else if a.ClientRecv? { WaitByClient(st, t, s, n); }
    case OfHandler(b, h) => WaitByHandler(st, b, h, s, n);
    case OfTask(b, t) => WaitByTask(st, b, t, s, n);
  }

  lemma WaitByHandler(st: State, b: ConnId, h: HandlerStep, s: SessionId, n: TakeoverId)
    requires HandlerEnabled(st, b, h) && WaitsStill(st, s, n)
    ensures WaitsStill(ApplyHandler(st, b, h), s, n)
  {
  }

  lemma WaitByTask(st: State, b: ConnId, t: TaskStep, s: SessionId, n: TakeoverId)
    requires TaskEnabled(st, b, t) && WaitsStill(st, s, n)
    ensures WaitsStill(ApplyTask(st, b, t), s, n)
  {
  }

  lemma NotReadyAt(run: seq<Step>, states: seq<State>, j: nat, i: nat, s: SessionId, n: TakeoverId)
    requires j < i < |run| && |states| == |run| + 1 && !ReadyBefore(run, states, j, i + 1, s, n)
    ensures !ReadyBefore(run, states, j, i, s, n) && !HearsReady(states[i], run[i], s, n)
  {
  }

  lemma WaitNext(run: seq<Step>, states: seq<State>, i: nat, s: SessionId, n: TakeoverId)
    requires Passes(run, states) && i < |run| && WaitsStill(states[i], s, n) && !HearsReady(states[i], run[i], s, n)
    ensures WaitsStill(states[i + 1], s, n)
  {
    StepOf(run, states, i);
    WaitStep(states[i], run[i], s, n);
  }

  lemma Opened(run: seq<Step>, states: seq<State>, j: nat, s: SessionId, x: ClientId, ms: seq<PortMapping>, n: TakeoverId)
    requires Passes(run, states) && j < |run| && run[j] == OfSession(s, OpenTakeover(x, ms, n))
    ensures WaitsStill(states[j + 1], s, n)
  {
    StepOf(run, states, j);
  }

  lemma WaitLonger(run: seq<Step>, states: seq<State>, j: nat, i: nat, s: SessionId, n: TakeoverId)
    requires Passes(run, states) && j < i < |run| && !ReadyBefore(run, states, j, i + 1, s, n)
    requires !ReadyBefore(run, states, j, i, s, n) ==> WaitsStill(states[i], s, n)
    ensures WaitsStill(states[i + 1], s, n)
  {
    NotReadyAt(run, states, j, i, s, n);
    WaitNext(run, states, i, s, n);
  }

  lemma {:induction false} WaitsOn(run: seq<Step>, states: seq<State>, j: nat, i: nat, s: SessionId, n: TakeoverId)
    requires Passes(run, states) && j < i <= |run| && WaitsStill(states[j + 1], s, n)
    ensures !ReadyBefore(run, states, j, i, s, n) ==> WaitsStill(states[i], s, n)
  {
    if i > j + 1 {
      WaitsOn(run, states, j, i - 1, s, n);
      if !ReadyBefore(run, states, j, i, s, n) { WaitLonger(run, states, j, i - 1, s, n); }
    }
  }

  /** A session opened to take over serves nothing before TakeoverReady with its own id has reached it. */
  lemma ServesAfterReady(run: seq<Step>, states: seq<State>, j: nat, i: nat, s: SessionId, x: ClientId,
                         ms: seq<PortMapping>, n: TakeoverId)
    requires Passes(run, states) && j < i <= |run| && run[j] == OfSession(s, OpenTakeover(x, ms, n))
    ensures s in states[i].sessions
    ensures states[i].sessions[s].phase.Serving? || states[i].sessions[s].phase.Exited? ==> ReadyBefore(run, states, j, i, s, n)
  {
    Opened(run, states, j, s, x, ms, n);
    SessionStays(run, states, j + 1, i, s);
    WaitsOn(run, states, j, i, s, n);
  }

  lemma SessionKeptBy(st: State, step: Step, s: SessionId)
    requires Enabled(st, step) && s in st.sessions
    ensures s in Apply(st, step).sessions
  {
    RegistryExactly(st, step, s, 0);
  }

  lemma SessionNext(run: seq<Step>, states: seq<State>, i: nat, s: SessionId)
    requires Passes(run, states) && i < |run| && s in states[i].sessions
    ensures s in states[i + 1].sessions
  {
    StepOf(run, states, i);
    SessionKeptBy(states[i], run[i], s);
  }

  lemma {:induction false} SessionStays(run: seq<Step>, states: seq<State>, j: nat, i: nat, s: SessionId)
    requires Passes(run, states) && j <= i <= |run| && s in states[j].sessions
    ensures s in states[i].sessions
  {
    if j < i {
      SessionStays(run, states, j, i - 1, s);
      SessionNext(run, states, i - 1, s);
    }
  }

  // ---------- what a task must have done before ----------

  lemma ReachableFlows(st: State, c: ConnId)
    requires Reachable(st) && c in st.conns
    ensures FlowOk(st.conns[c].up, st.conns[c].localReader) && FlowOk(st.conns[c].down, st.conns[c].reader)
  {
    ReachableInv(st);
    assert About(st, c) && ConnInv(st, c);
  }

  /** The remote peer gets exactly the next chunk, or the part of it that got through before an error. */
  lemma RemoteGets(st: State, c: ConnId, h: HandlerStep)
    requires Reachable(st) && HandlerEnabled(st, c, h) && (h.WriteRemote? || h.FailRemote?)
    ensures var f, st' := st.conns[c].up, ApplyHandler(st, c, h);
            && c in st'.conns && st'.conns[c].down == st.conns[c].down
            && f.written < |f.accepted| && st'.conns[c].up.written <= |st'.conns[c].up.accepted|
            && (h.FailRemote? ==> h.n <= |f.accepted[f.written]|)
            && st'.conns[c].up.Output() == f.Output() + if h.WriteRemote? then f.accepted[f.written] else f.accepted[f.written][..h.n]
  {
    ReachableFlows(st, c);
    OutputGrows(st.conns[c].up, if h.FailRemote? then h.n else 0);
  }

  /** So does the local service. */
  lemma LocalGets(st: State, c: ConnId, t: TaskStep)
    requires Reachable(st) && TaskEnabled(st, c, t) && (t.WriteLocal? || t.FailLocal?)
    ensures var f, st' := st.conns[c].down, ApplyTask(st, c, t);
            && c in st'.conns && st'.conns[c].up == st.conns[c].up
            && f.written < |f.accepted| && st'.conns[c].down.written <= |st'.conns[c].down.accepted|
            && (t.FailLocal? ==> t.n <= |f.accepted[f.written]|)
            && st'.conns[c].down.Output() == f.Output() + if t.WriteLocal? then f.accepted[f.written] else f.accepted[f.written][..t.n]
  {
    ReachableFlows(st, c);
    OutputGrows(st.conns[c].down, if t.FailLocal? then t.n else 0);
  }

  /** The read tasks of `c` are done only by having sent Close, here or before. */
  predicate DoneBy(st: State, step: Step, st': State, c: ConnId) {
    && (c in st'.conns && st'.conns[c].reader.Done? ==> step == OfHandler(c, CloseDown) || (c in st.conns && st.conns[c].reader.Done?))
    && (c in st'.conns && (st'.conns[c].localReader.Removing? || st'.conns[c].localReader.Done?) ==>
          step == OfTask(c, CloseUp) || (c in st.conns && (st.conns[c].localReader.Removing? || st.conns[c].localReader.Done?)))
  }

  lemma DoneByServer(st: State, s: SessionId, c: ConnId)
    requires Ready(st, s)
    ensures DoneBy(st, OfSession(s, ServerRecv), DoServerRecv(st, s), c)
  {
  }

  lemma DoneByClient(st: State, s: SessionId, c: ConnId)
    requires ClientReady(st, s)
    ensures DoneBy(st, OfSession(s, ClientRecv), DoClientRecv(st, s), c)
  {
  }

  lemma DoneByHandler(st: State, b: ConnId, h: HandlerStep, c: ConnId)
    requires HandlerEnabled(st, b, h)
    ensures DoneBy(st, OfHandler(b, h), ApplyHandler(st, b, h), c)
  {
  }

  lemma DoneByTask(st: State, b: ConnId, t: TaskStep, c: ConnId)
    requires TaskEnabled(st, b, t)
    ensures DoneBy(st, OfTask(b, t), ApplyTask(st, b, t), c)
  {
  }

  lemma DoneStep(st: State, step: Step, c: ConnId)
    requires Enabled(st, step)
    ensures DoneBy(st, step, Apply(st, step), c)
  {
    match step
    case OfSession(s, a) =>
      if a.ServerRecv? { DoneByServer(st, s, c); }
      else if a.ClientRecv? { DoneByClient(st, s, c); }
    case OfHandler(b, h) => DoneByHandler(st, b, h, c);
    case OfTask(b, t) => DoneByTask(st, b, t, c);
  }

  predicate StepBefore(run: seq<Step>, n: nat, step: Step) {
    exists j :: 0 <= j < n && j < |run| && run[j] == step
  }

  /** If the read tasks of `c` are done, their Close has been sent in the run. */
  predicate ClosesTold(run: seq<Step>, n: nat, st: State, c: ConnId) {
    && (c in st.conns && st.conns[c].reader.Done? ==> StepBefore(run, n, OfHandler(c, CloseDown)))
    && (c in st.conns && (st.conns[c].localReader.Removing? || st.conns[c].localReader.Done?) ==> StepBefore(run, n, OfTask(c, CloseUp)))
  }

  lemma ToldLonger(run: seq<Step>, n: nat, step: Step)
    requires n < |run| && (StepBefore(run, n, step) || run[n] == step)
    ensures StepBefore(run, n + 1, step)
  {
    if StepBefore(run, n, step) {
      var j :| 0 <= j < n && run[j] == step;
      assert 0 <= j < n + 1;
    }
  }

  lemma ClosesNext(run: seq<Step>, states: seq<State>, n: nat, c: ConnId)
    requires Passes(run, states) && n < |run| && ClosesTold(run, n, states[n], c)
    ensures ClosesTold(run, n + 1, states[n + 1], c)
  {
    StepOf(run, states, n);
    DoneStep(states[n], run[n], c);
    if c in states[n + 1].conns && states[n + 1].conns[c].reader.Done? { ToldLonger(run, n, OfHandler(c, CloseDown)); }
    if c in states[n + 1].conns && (states[n + 1].conns[c].localReader.Removing? || states[n + 1].conns[c].localReader.Done?) {
      ToldLonger(run, n, OfTask(c, CloseUp));
    }
  }

  /** In every run a read task that is done has told the other side, on the server as on the client. */
  lemma {:induction false} EndsAreTold(run: seq<Step>, states: seq<State>, n: nat, c: ConnId)
    requires Passes(run, states) && n <= |run|
    ensures ClosesTold(run, n, states[n], c)
  {
    if n > 0 {
      EndsAreTold(run, states, n - 1, c);
      ClosesNext(run, states, n - 1, c);
    }
  }

  /** A step that accepts a connection finds somebody bound to its port. */
  lemma AcceptedBound(st: State, step: Step, c: ConnId)
    requires Enabled(st, step) && c !in st.conns && c in Apply(st, step).conns
    ensures step.OfHandler? && step.h.Accept? && step.c == c && Apply(st, step).conns[c].port == step.h.p
    ensures step.h.p in st.listeners && st.listeners[step.h.p].bound.Some?
  {
    NewBy(st, step, c);
  }

  /** The server's loop for a session goes through its four phases in order, each by its own step. */
  predicate PhaseExact(st: State, step: Step, st': State, s: SessionId)
    requires s in st.sessions
  {
    && s in st'.sessions
    && st'.sessions[s].server ==
         match st.sessions[s].server
         case Open => if step == OfSession(s, ServerHalt) then Halted else Open
         case Halted => if step == OfSession(s, ServerUnlist) then Unlisted else Halted
         case Unlisted => if step == OfSession(s, ServerUnbind) then Gone else Unlisted
         case Gone => Gone
  }

  lemma PhaseByClient(st: State, t: SessionId, s: SessionId)
    requires ClientReady(st, t) && s in st.sessions
    ensures s in DoClientRecv(st, t).sessions && DoClientRecv(st, t).sessions[s].server == st.sessions[s].server
  {
  }

  lemma PhaseByHandler(st: State, b: ConnId, h: HandlerStep, s: SessionId)
    requires HandlerEnabled(st, b, h) && s in st.sessions
    ensures s in ApplyHandler(st, b, h).sessions && ApplyHandler(st, b, h).sessions[s].server == st.sessions[s].server
  {
  }

  lemma PhaseByTask(st: State, b: ConnId, t: TaskStep, s: SessionId)
    requires TaskEnabled(st, b, t) && s in st.sessions
    ensures s in ApplyTask(st, b, t).sessions && ApplyTask(st, b, t).sessions[s].server == st.sessions[s].server
  {
  }

  /** A session is taken off the table only after its loop has halted, and its ports are unbound only after that. */
  lemma ServerPhases(st: State, step: Step, s: SessionId)
    requires Enabled(st, step) && s in st.sessions
    ensures PhaseExact(st, step, Apply(st, step), s)
  {
    match step
    case OfSession(t, a) =>
      if a.ServerRecv? { RegistryByServer(st, t, s); }
      else if a.ClientRecv? { PhaseByClient(st, t, s); }
    case OfHandler(b, h) => PhaseByHandler(st, b, h, s);
    case OfTask(b, t) => PhaseByTask(st, b, t, s);
  }
}
