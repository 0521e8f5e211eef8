/** The promises of the tunnel, over every run from the empty start. */
module TunnelSafety {
  import opened Common
  import opened Messages
  import opened TunnelSystem
  import opened TunnelInvariant

  // ---------- byte streams ----------

  /** What a write task hands to its socket comes from a prefix of the chunks in `all`. */
  lemma OutputPrefix(f: Flow, r: Reader, all: seq<Bytes>)
    requires FlowOk(f, r) && Prefix(f.accepted, all)
    ensures Prefix(f.Output(), Flatten(all))
  {
    var done := f.accepted[..f.written];
    assert Prefix(done, all);
    if f.written < |f.accepted| && f.part <= |f.accepted[f.written]| {
      assert Prefix(done + [f.accepted[f.written]], all) by {
        assert done + [f.accepted[f.written]] == f.accepted[..f.written + 1];
      }
      FlattenPart(done, f.accepted[f.written], f.part, all);
    } else {
      FlattenPrefix(done, all);
    }
  }

  lemma PushedRead(f: Flow, r: Reader)
    requires FlowOk(f, r)
    ensures Prefix(f.pushed, f.read)
  {
    assert Prefix(Offered(f.read, r), f.read);
    PrefixTrans(f.pushed, Offered(f.read, r), f.read);
  }

  /** Server to client: the local service receives a prefix of what the remote peer sent, in every run. */
  lemma DownStreamIntegrity(st: State, c: ConnId)
    requires Reachable(st) && c in st.conns
    ensures var f := st.conns[c].down;
            f.written <= |f.accepted| && Prefix(f.Output(), Flatten(f.read))
  {
    ReachableInv(st);
    assert About(st, c);
    var k := st.conns[c];
    PushedRead(k.down, k.reader);
    if k.target.Some? {
      PrefixOfSum(k.down.popped, Datas(st.sessions[k.target.value].down, c), k.down.pushed);
      PrefixTrans(k.down.accepted, k.down.popped, k.down.pushed);
    }
    PrefixTrans(k.down.accepted, k.down.pushed, k.down.read);
    OutputPrefix(k.down, k.reader, k.down.read);
  }

  /**
   Nothing is lost on the way down either: with the port still bound to the connection's session, the
   queue drained and the write task caught up, the local service has everything that was read.
   */
  lemma DownStreamComplete(st: State, c: ConnId)
    requires Reachable(st) && HasTarget(st, c)
    requires var k := st.conns[c];
             && Forwards(st, k.port, k.target.value) && k.reader.Idle?
             && Datas(st.sessions[k.target.value].down, c) == [] && c in st.sessions[k.target.value].local
             && !k.down.dead && k.down.written == |k.down.accepted|
    ensures var f := st.conns[c].down;
            f.Output() == Flatten(f.read)
  {
    ReachableInv(st);
    assert About(st, c);
    var k := st.conns[c];
    assert k.down.accepted == k.down.popped + [] == k.down.read;
    assert k.down.accepted[..k.down.written] == k.down.accepted;
  }

  lemma PoppedRead(st: State, c: ConnId)
    requires Inv(st) && c in st.conns
    ensures Prefix(st.conns[c].up.popped, st.conns[c].up.read)
  {
    assert About(st, c);
    var k := st.conns[c];
    PushedRead(k.up, k.localReader);
    if k.target.Some? {
      PrefixOfSum(k.up.popped, Datas(st.sessions[k.target.value].up, c), k.up.pushed);
      PrefixTrans(k.up.popped, k.up.pushed, k.up.read);
    }
  }

  /** The chunks accepted for the remote peer are the first ones read, without a hole. */
  predicate InOrder(k: Conn) {
    forall i :: 0 <= i < |k.index| ==> k.index[i] == i
  }

  /** Where the accepted chunks come from, in one record. */
  lemma AcceptedFrom(k: Conn)
    requires IndexInv(k) && Prefix(k.up.popped, k.up.read)
    ensures forall i :: 0 <= i < |k.index| ==> k.index[i] < |k.up.read| && k.up.accepted[i] == k.up.read[k.index[i]]
    ensures InOrder(k) <==> k.lateAt.None?
  {
    forall i | 0 <= i < |k.index| ensures k.index[i] < |k.up.read| && k.up.accepted[i] == k.up.read[k.index[i]] {
      assert k.up.popped[k.index[i]] == k.up.read[..|k.up.popped|][k.index[i]];
    }
  }

  /**
   Client to server: chunks are never reordered, repeated or altered, in any run; the stream has no
   hole exactly when no chunk was accepted after routing had skipped one.
   */
  lemma UpStreamOrder(st: State, c: ConnId)
    requires Reachable(st) && c in st.conns
    ensures var k := st.conns[c];
            && |k.index| == |k.up.accepted|
            && (forall i :: 0 <= i < |k.index| ==>
                  k.index[i] < |k.up.read| && k.up.accepted[i] == k.up.read[k.index[i]])
            && (forall i, j :: 0 <= i < j < |k.index| ==> k.index[i] < k.index[j])
            && (InOrder(k) <==> k.lateAt.None?)
  {
    ReachableInv(st);
    assert About(st, c);
    PoppedRead(st, c);
    AcceptedFrom(st.conns[c]);
  }

  /** Without a hole the remote peer receives a prefix of what the local service sent. */
  lemma UpStreamIntegrity(st: State, c: ConnId)
    requires Reachable(st) && c in st.conns
    requires InOrder(st.conns[c])
    ensures var f := st.conns[c].up;
            f.written <= |f.accepted| && Prefix(f.Output(), Flatten(f.read))
  {
    UpStreamOrder(st, c);
    ReachableInv(st);
    assert About(st, c);
    var k := st.conns[c];
    assert Prefix(k.up.accepted, k.up.read) by {
      assert |k.up.accepted| <= |k.up.read| by {
        if |k.index| > 0 { assert k.index[|k.index| - 1] == |k.index| - 1; }
      }
      assert forall i :: 0 <= i < |k.index| ==> k.up.accepted[i] == k.up.read[i];
    }
    OutputPrefix(k.up, k.localReader, k.up.read);
  }

  /** The same for the way up: drained, caught up, never cleared and never missed means complete. */
  lemma UpStreamComplete(st: State, c: ConnId)
    requires Reachable(st) && HasTarget(st, c)
    requires var k := st.conns[c];
             && st.sessions[k.target.value].Running() && k.localReader.Idle? && !k.missed
             && Datas(st.sessions[k.target.value].up, c) == []
             && k.port in st.listeners && c in st.listeners[k.port].active
             && !k.up.dead && k.up.written == |k.up.accepted|
    ensures var f := st.conns[c].up;
            f.Output() == Flatten(f.read)
  {
    ReachableInv(st);
    UpStreamOrder(st, c);
    assert About(st, c);
    var k := st.conns[c];
    assert k.up.popped + [] == k.up.read;
    assert k.lateAt.None?;
    assert k.up.accepted == k.up.read;
    assert k.up.accepted[..k.up.written] == k.up.accepted;
  }

  // ---------- what tears a hole, over runs ----------

  /** The server handles a chunk of `c` from the client `x`, while `c` is active on its port. */
  predicate RoutesChunk(st: State, step: Step, c: ConnId) {
    && step.OfSession? && step.a.ServerRecv? && Ready(st, step.s) && Carries(st.sessions[step.s].up[0], c)
    && st.sessions[step.s].client.Some?
    && c in st.conns && st.conns[c].port in st.listeners && c in st.listeners[st.conns[c].port].active
  }

  /** It does so although the port is bound to somebody else or to nobody. */
  predicate SkippedAt(run: seq<Step>, states: seq<State>, i: nat, c: ConnId) {
    && i < |run| && i < |states| && RoutesChunk(states[i], run[i], c)
    && !states[i].listeners[states[i].conns[c].port].BoundTo(states[i].sessions[run[i].s].client.value)
  }

  /** It does so with the port bound to that client and the write task alive. */
  predicate TakenAt(run: seq<Step>, states: seq<State>, j: nat, c: ConnId) {
    && j < |run| && j < |states| && RoutesChunk(states[j], run[j], c)
    && states[j].listeners[states[j].conns[c].port].BoundTo(states[j].sessions[run[j].s].client.value)
    && !states[j].conns[c].up.dead
  }

  predicate SkippedBefore(run: seq<Step>, states: seq<State>, n: nat, c: ConnId) {
    exists i :: 0 <= i < n && SkippedAt(run, states, i, c)
  }

  predicate TakenAfterSkip(run: seq<Step>, states: seq<State>, n: nat, c: ConnId) {
    exists i, j :: 0 <= i < j < n && SkippedAt(run, states, i, c) && TakenAt(run, states, j, c)
  }

  lemma SkippedLonger(run: seq<Step>, states: seq<State>, n: nat, c: ConnId)
    ensures SkippedBefore(run, states, n + 1, c) <==> SkippedBefore(run, states, n, c) || SkippedAt(run, states, n, c)
    ensures TakenAfterSkip(run, states, n + 1, c) <==>
            TakenAfterSkip(run, states, n, c) || (SkippedBefore(run, states, n, c) && TakenAt(run, states, n, c))
  {
    if SkippedBefore(run, states, n, c) {
      var i :| 0 <= i < n && SkippedAt(run, states, i, c);
      assert 0 <= i < n + 1 && SkippedAt(run, states, i, c);
    }
    if TakenAfterSkip(run, states, n, c) {
      var i, j :| 0 <= i < j < n && SkippedAt(run, states, i, c) && TakenAt(run, states, j, c);
      assert 0 <= i < j < n + 1;
    }
  }

  /** A connection stays in the system, and its bookkeeping of misses changes only where a chunk is routed. */
  predicate SameMarks(st: State, st': State, c: ConnId)
    requires c in st.conns
  {
    c in st'.conns && st'.conns[c].missed == st.conns[c].missed && st'.conns[c].lateAt == st.conns[c].lateAt
  }

  lemma MarksBySession(st: State, s: SessionId, a: SessionStep, c: ConnId)
    requires SessionEnabled(st, s, a) && !a.ServerRecv? && c in st.conns
    ensures SameMarks(st, ApplySession(st, s, a), c)
  {
    match a
    case ClientRecv => MarksByClient(st, s, c);
    case _ =>
  }

  lemma MarksByClient(st: State, s: SessionId, c: ConnId)
    requires ClientReady(st, s) && c in st.conns
    ensures SameMarks(st, DoClientRecv(st, s), c)
  {
  }

  lemma MarksByHandler(st: State, b: ConnId, h: HandlerStep, c: ConnId)
    requires HandlerEnabled(st, b, h) && c in st.conns
    ensures SameMarks(st, ApplyHandler(st, b, h), c)
  {
  }

  lemma MarksByTask(st: State, b: ConnId, t: TaskStep, c: ConnId)
    requires TaskEnabled(st, b, t) && c in st.conns
    ensures SameMarks(st, ApplyTask(st, b, t), c)
  {
  }

  lemma MarksByServer(st: State, s: SessionId, c: ConnId)
    requires Ready(st, s) && c in st.conns
    ensures if RoutesChunk(st, OfSession(s, ServerRecv), c)
            then c in DoServerRecv(st, s).conns
                 && DoServerRecv(st, s).conns[c] == Routed(st, st.sessions[s].client.value, st.sessions[s].up[0], st.conns[c])
            else SameMarks(st, DoServerRecv(st, s), c)
  {
    var m := st.sessions[s].up[0];
    if Routable(m) && m.conn == c && st.sessions[s].client.Some? {
      RoutedMarks(st, st.sessions[s].client.value, m, st.conns[c]);
      RoutedBefore(st, s, m, c);
    }
  }

  lemma RoutedBefore(st: State, s: SessionId, m: Message, c: ConnId)
    requires Ready(st, s) && st.sessions[s].client.Some? && Routable(m) && m.conn == c && c in st.conns
    ensures DoRoute(TakeUp(st, s), s, m).conns == st.conns[c := Routed(st, st.sessions[s].client.value, m, st.conns[c])]
  {
  }

  lemma RoutedMarks(st: State, x: ClientId, m: Message, k: Conn)
    requires Routable(m)
    ensures var k' := Routed(st, x, m, k);
            var routed := m.Data? && k.port in st.listeners && m.conn in st.listeners[k.port].active;
            var bound := routed && st.listeners[k.port].BoundTo(x);
            && (k'.missed <==> k.missed || (routed && !bound))
            && (k'.lateAt.Some? <==> k.lateAt.Some? || (k.missed && bound && !k.up.dead))
            && (!routed ==> k'.missed == k.missed && k'.lateAt == k.lateAt)
  {
  }

  lemma MarksStep(st: State, step: Step, c: ConnId)
    requires Enabled(st, step) && c in st.conns
    ensures c in Apply(st, step).conns
    ensures !RoutesChunk(st, step, c) ==> SameMarks(st, Apply(st, step), c)
    ensures RoutesChunk(st, step, c) ==>
              Apply(st, step).conns[c] == Routed(st, st.sessions[step.s].client.value, st.sessions[step.s].up[0], st.conns[c])
  {
    match step
    case OfSession(s, a) => if a.ServerRecv? { MarksByServer(st, s, c); } else { MarksBySession(st, s, a, c); }
    case OfHandler(b, h) => MarksByHandler(st, b, h, c);
    case OfTask(b, t) => MarksByTask(st, b, t, c);
  }

  lemma {:induction false} ConnsStay(run: seq<Step>, states: seq<State>, i: nat, n: nat, c: ConnId)
    requires Passes(run, states) && i <= n <= |run| && c in states[i].conns
    ensures c in states[n].conns
  {
    if i < n {
      ConnsStay(run, states, i, n - 1, c);
      StepOf(run, states, n - 1);
      MarksStep(states[n - 1], run[n - 1], c);
    }
  }

  /** Only the accept loop creates a connection. */
  lemma NewBy(st: State, step: Step, c: ConnId)
    requires Enabled(st, step) && c !in st.conns && c in Apply(st, step).conns
    ensures step.OfHandler? && step.c == c && step.h.Accept?
  {
    match step
    case OfSession(s, a) => OldBySession(st, s, a, c);
    case OfHandler(b, h) =>
    case OfTask(b, t) => OldByTask(st, b, t, c);
  }

  lemma OldBySession(st: State, s: SessionId, a: SessionStep, c: ConnId)
    requires SessionEnabled(st, s, a) && c in ApplySession(st, s, a).conns
    ensures c in st.conns
  {
    match a
    case ServerRecv => OldByRecv(st, s, c);
    case ClientRecv => OldByClient(st, s, c);
    case _ =>
  }

  lemma OldByRecv(st: State, s: SessionId, c: ConnId)
    requires Ready(st, s) && c in DoServerRecv(st, s).conns
    ensures c in st.conns
  {
  }

  lemma OldByClient(st: State, s: SessionId, c: ConnId)
    requires ClientReady(st, s) && c in DoClientRecv(st, s).conns
    ensures c in st.conns
  {
  }

  lemma OldByTask(st: State, b: ConnId, t: TaskStep, c: ConnId)
    requires TaskEnabled(st, b, t) && c in ApplyTask(st, b, t).conns
    ensures c in st.conns
  {
  }

  lemma FreshMarks(st: State, step: Step, c: ConnId)
    requires Enabled(st, step) && c !in st.conns && c in Apply(st, step).conns
    ensures !Apply(st, step).conns[c].missed && Apply(st, step).conns[c].lateAt.None?
  {
    NewBy(st, step, c);
  }

  /** What the bookkeeping of a connection says about the run behind it. */
  lemma {:induction false} MarksTell(run: seq<Step>, states: seq<State>, n: nat, c: ConnId)
    requires Passes(run, states) && n <= |run| && c in states[n].conns
    ensures states[n].conns[c].missed <==> SkippedBefore(run, states, n, c)
    ensures states[n].conns[c].lateAt.Some? <==> TakenAfterSkip(run, states, n, c)
  {
    if n > 0 {
      var st, step := states[n - 1], run[n - 1];
      StepOf(run, states, n - 1);
      SkippedLonger(run, states, n - 1, c);
      if c in st.conns {
        MarksTell(run, states, n - 1, c);
        MarksStep(st, step, c);
        if RoutesChunk(st, step, c) {
          RoutedMarks(st, st.sessions[step.s].client.value, st.sessions[step.s].up[0], st.conns[c]);
        }
      } else {
        FreshMarks(st, step, c);
        NeverSkipped(run, states, n - 1, c);
      }
    }
  }

  lemma NeverSkipped(run: seq<Step>, states: seq<State>, n: nat, c: ConnId)
    requires Passes(run, states) && n <= |run| && c !in states[n].conns
    ensures !SkippedBefore(run, states, n, c) && !TakenAfterSkip(run, states, n, c)
  {
    forall i: nat | i < n ensures !SkippedAt(run, states, i, c) {
      if c in states[i].conns { ConnsStay(run, states, i, n, c); }
    }
  }

  /**
   What tears a hole, exactly: in any run the chunks accepted for the remote peer have one if and only
   if some chunk of the active connection was handled while its port was not bound to the client, and a
   later one while it was, with the write task alive.
   */
  lemma HoleExactly(run: seq<Step>, states: seq<State>, n: nat, c: ConnId)
    requires Passes(run, states) && n <= |run| && c in states[n].conns
    ensures !InOrder(states[n].conns[c]) <==>
            exists i, j :: 0 <= i < j < n && SkippedAt(run, states, i, c) && TakenAt(run, states, j, c)
  {
    RunKeepsInv(run, states, n);
    assert About(states[n], c) && IndexInv(states[n].conns[c]);
    MarksTell(run, states, n, c);
  }

  // ---------- no early data ----------

  /** A connection becomes registered at a client by its own connect task only. */
  lemma RegisteredBy(st: State, step: Step, c: ConnId)
    requires Enabled(st, step) && c in Apply(st, step).conns && Apply(st, step).conns[c].LocalRegistered()
    ensures (c in st.conns && st.conns[c].LocalRegistered()) || step == OfTask(c, LocalConnected)
  {
    match step
    case OfSession(s, a) =>
      if a.ServerRecv? { RegisteredByServer(st, s, c); }
      if a.ClientRecv? { RegisteredByClient(st, s, c); }
    case OfHandler(b, h) => RegisteredByHandler(st, b, h, c);
    case OfTask(b, t) => RegisteredByTask(st, b, t, c);
  }

  lemma RegisteredByHandler(st: State, b: ConnId, h: HandlerStep, c: ConnId)
    requires HandlerEnabled(st, b, h) && c in ApplyHandler(st, b, h).conns && ApplyHandler(st, b, h).conns[c].LocalRegistered()
    ensures c in st.conns && st.conns[c].LocalRegistered()
  {
  }

  lemma RegisteredByTask(st: State, b: ConnId, t: TaskStep, c: ConnId)
    requires TaskEnabled(st, b, t) && c in ApplyTask(st, b, t).conns && ApplyTask(st, b, t).conns[c].LocalRegistered()
    ensures (c in st.conns && st.conns[c].LocalRegistered()) || (b == c && t == LocalConnected)
  {
  }

  lemma RegisteredByServer(st: State, s: SessionId, c: ConnId)
    requires Ready(st, s) && c in DoServerRecv(st, s).conns && DoServerRecv(st, s).conns[c].LocalRegistered()
    ensures c in st.conns && st.conns[c].LocalRegistered()
  {
  }

  lemma RegisteredByClient(st: State, s: SessionId, c: ConnId)
    requires ClientReady(st, s) && c in DoClientRecv(st, s).conns && DoClientRecv(st, s).conns[c].LocalRegistered()
    ensures c in st.conns && st.conns[c].LocalRegistered()
  {
  }

  /** Step `j` of the run was the connect task of `c` registering it. */
  predicate RegisteredAt(run: seq<Step>, j: nat, c: ConnId) {
    j < |run| && run[j] == OfTask(c, LocalConnected)
  }

  lemma {:induction false} RegisteredEarlier(run: seq<Step>, states: seq<State>, n: nat, c: ConnId)
    requires Passes(run, states) && n <= |run| && c in states[n].conns && states[n].conns[c].LocalRegistered()
    ensures exists j :: 0 <= j < n && RegisteredAt(run, j, c)
  {
    if n > 0 {
      StepOf(run, states, n - 1);
      RegisteredBy(states[n - 1], run[n - 1], c);
      if run[n - 1] == OfTask(c, LocalConnected) {
        assert RegisteredAt(run, n - 1, c);
      } else {
        RegisteredEarlier(run, states, n - 1, c);
      }
    }
  }

  /**
   When a client session takes Data(c) off its queue, Connect(c) had gone to exactly one session;
   if that is this session, its connect task registered c earlier in the run.
   */
  lemma NoEarlyData(run: seq<Step>, states: seq<State>, n: nat, s: SessionId, c: ConnId)
    requires Passes(run, states) && n <= |run| && ClientReady(states[n], s)
    requires Carries(states[n].sessions[s].down[0], c)
    ensures c in states[n].conns && states[n].conns[c].target.Some?
    ensures states[n].conns[c].target == Some(s) ==> exists j :: 0 <= j < n && RegisteredAt(run, j, c)
  {
    var st := states[n];
    RunKeepsInv(run, states, n);
    assert About(st, c) && QueueInv(st, s, c);
    assert st.sessions[s].down[0] in st.sessions[s].down;
    RegisteredEarlier(run, states, n, c);
  }

  // ---------- no leaked entries ----------

  /** Entries of a listener are ids of handlers of that port still in flight. */
  lemma NoLeakedEntries(st: State, p: Port, c: ConnId)
    requires Reachable(st) && p in st.listeners
    ensures c in st.listeners[p].pending + st.listeners[p].active ==>
              c in st.conns && st.conns[c].port == p && st.conns[c].InFlight()
  {
    ReachableInv(st);
    assert About(st, c);
    assert EntryInv(st, p, c);
  }

  /** Once every handler has returned, every listener's two maps are empty. */
  lemma QuietMeansEmpty(st: State, p: Port)
    requires Reachable(st) && p in st.listeners
    requires forall c :: c in st.conns ==> !st.conns[c].InFlight()
    ensures st.listeners[p].pending == {} && st.listeners[p].active == {}
  {
    var l := st.listeners[p];
    forall c ensures c !in l.pending + l.active { NoLeakedEntries(st, p, c); }
    assert forall c :: c in l.pending ==> c in l.pending + l.active;
    assert forall c :: c in l.active ==> c in l.pending + l.active;
  }

  // ---------- pending connections that are not active ----------

  predicate PendingWithinActive(st: State, p: Port)
    requires p in st.listeners
  {
    st.listeners[p].pending <= st.listeners[p].active
  }

  /** A handler of the port makes its first registration, or a Close reaches the port for a waiting connection. */
  predicate LeavesPending(st: State, step: Step, p: Port)
    requires p in st.listeners
  {
    match step
    case OfSession(s, a) =>
      && a.ServerRecv? && Ready(st, s) && st.sessions[s].client.Some? && st.sessions[s].up[0].Close?
      && st.listeners[p].BoundTo(st.sessions[s].client.value) && st.sessions[s].up[0].conn in st.listeners[p].pending
    case OfHandler(c, h) => h.PutPending? && c in st.conns && st.conns[c].port == p
    case OfTask(_, _) => false
  }

  lemma PendingByRoute(st: State, s: SessionId, m: Message, p: Port)
    requires s in st.sessions && Routable(m) && p in st.listeners && PendingWithinActive(st, p)
    ensures p in DoRoute(st, s, m).listeners
    ensures !PendingWithinActive(DoRoute(st, s, m), p) <==>
            st.sessions[s].client.Some? && m.Close? && st.listeners[p].BoundTo(st.sessions[s].client.value)
            && m.conn in st.listeners[p].pending
  {
    if st.sessions[s].client.Some? && st.listeners[p].BoundTo(st.sessions[s].client.value) {
      CloseBeforeConnected(st.listeners[p], m);
    }
  }

  lemma PendingByServer(st: State, s: SessionId, p: Port)
    requires Ready(st, s) && p in st.listeners && PendingWithinActive(st, p)
    ensures p in DoServerRecv(st, s).listeners
    ensures !PendingWithinActive(DoServerRecv(st, s), p) <==> LeavesPending(st, OfSession(s, ServerRecv), p)
  {
    var m := st.sessions[s].up[0];
    var st1 := TakeUp(st, s);
    if Routable(m) {
      PendingByRoute(st1, s, m, p);
    } else if m.Config? {
      BindAllAt(st.listeners, m.client, s, m.mappings, p);
    } else if m.Takeover? {
      SwitchAllAt(st.listeners, m.client, s, m.mappings, p);
    }
  }

  lemma PendingBySession(st: State, s: SessionId, a: SessionStep, p: Port)
    requires SessionEnabled(st, s, a) && !a.ServerRecv? && p in st.listeners && PendingWithinActive(st, p)
    ensures p in ApplySession(st, s, a).listeners && PendingWithinActive(ApplySession(st, s, a), p)
  {
  }

  lemma PendingByHandler(st: State, c: ConnId, h: HandlerStep, p: Port)
    requires HandlerEnabled(st, c, h) && p in st.listeners && PendingWithinActive(st, p) && EntryInv(st, p, c)
    ensures p in ApplyHandler(st, c, h).listeners
    ensures !PendingWithinActive(ApplyHandler(st, c, h), p) <==> LeavesPending(st, OfHandler(c, h), p)
  {
    if LeavesPending(st, OfHandler(c, h), p) {
      assert c in ApplyHandler(st, c, h).listeners[p].pending && c !in ApplyHandler(st, c, h).listeners[p].active;
    }
  }

  /**
   Exactly which steps take a port from "every pending connection is active" to the contrary: the first
   of a handler's two registrations, and a Close from the bound client for a connection still waiting
   for its Connected.
   */
  lemma PendingBreaksExactly(st: State, step: Step, p: Port)
    requires Reachable(st) && Enabled(st, step) && p in st.listeners && PendingWithinActive(st, p)
    ensures p in Apply(st, step).listeners
    ensures !PendingWithinActive(Apply(st, step), p) <==> LeavesPending(st, step, p)
  {
    ReachableInv(st);
    match step
    case OfSession(s, a) => if a.ServerRecv? { PendingByServer(st, s, p); } else { PendingBySession(st, s, a, p); }
    case OfHandler(c, h) =>
      assert About(st, c) && EntryInv(st, p, c);
      PendingByHandler(st, c, h, p);
    case OfTask(c, t) =>
  }

  // ---------- takeover ----------

  /** The step handles a Takeover with id `n` from an unregistered session, and the switch succeeds. */
  predicate Switches(st: State, step: Step, n: TakeoverId) {
    && step.OfSession? && step.a.ServerRecv? && Ready(st, step.s)
    && var m := st.sessions[step.s].up[0];
    && m.Takeover? && m.newSession == n && st.sessions[step.s].client.None?
    && (Served(st.listeners, m.mappings) > 0 || m.mappings == [])
  }

  /** Every requested port that has a listener is bound to the new session's channel. */
  ghost predicate AllBound(st: State, s: SessionId, x: ClientId, ms: seq<PortMapping>) {
    forall p :: p in st.listeners && Maps(ms, p) ==> st.listeners[p].bound == Some(Bound(x, s))
  }

  predicate Told(st: State, t: SessionId, n: TakeoverId) {
    t in st.sessions && (TakeoverComplete(n) in st.sessions[t].down || st.sessions[t].phase == Exited(n))
  }

  lemma SwitchBinds(st: State, step: Step, n: TakeoverId)
    requires Switches(st, step, n) && Enabled(st, step)
    ensures var m := st.sessions[step.s].up[0];
            AllBound(Apply(st, step), step.s, m.client, m.mappings)
  {
    var m := st.sessions[step.s].up[0];
    var st' := Apply(st, step);
    forall p | p in st'.listeners && Maps(m.mappings, p) ensures st'.listeners[p].bound == Some(Bound(m.client, step.s)) {
      SwitchAllAt(st.listeners, m.client, step.s, m.mappings, p);
    }
  }

  /** The switched client id was in the table under session `t`, which had declared it. */
  predicate Replaces(st: State, step: Step, t: SessionId)
    requires step.OfSession? && Ready(st, step.s) && st.sessions[step.s].up[0].Takeover?
  {
    var x := st.sessions[step.s].up[0].client;
    x in st.table && st.table[x] == t && Declared(st, t, x)
  }

  /** Only a successful switch tells an old session that it has been taken over, and only the one it replaces. */
  lemma ToldBy(st: State, step: Step, t: SessionId, n: TakeoverId)
    requires Enabled(st, step) && BindingInv(st) && Told(Apply(st, step), t, n) && !Told(st, t, n)
    ensures Switches(st, step, n) && Replaces(st, step, t)
  {
    match step
    case OfSession(s, a) =>
      if a.ServerRecv? { ToldByServer(st, s, t, n); }
      else if a.ClientRecv? { ToldByClient(st, s, t, n); }
    case OfHandler(b, h) => ToldByHandler(st, b, h, t, n);
    case OfTask(b, u) => ToldByTask(st, b, u, t, n);
  }

  lemma ToldByTask(st: State, b: ConnId, u: TaskStep, t: SessionId, n: TakeoverId)
    requires TaskEnabled(st, b, u) && Told(ApplyTask(st, b, u), t, n)
    ensures Told(st, t, n)
  {
  }

  lemma ToldByHandler(st: State, b: ConnId, h: HandlerStep, t: SessionId, n: TakeoverId)
    requires HandlerEnabled(st, b, h) && Told(ApplyHandler(st, b, h), t, n)
    ensures Told(st, t, n)
  {
  }

  lemma ToldByServer(st: State, s: SessionId, t: SessionId, n: TakeoverId)
    requires Ready(st, s) && BindingInv(st) && Told(DoServerRecv(st, s), t, n) && !Told(st, t, n)
    ensures Switches(st, OfSession(s, ServerRecv), n) && Replaces(st, OfSession(s, ServerRecv), t)
  {
  }

  lemma ToldByClient(st: State, s: SessionId, t: SessionId, n: TakeoverId)
    requires ClientReady(st, s) && Told(DoClientRecv(st, s), t, n)
    ensures Told(st, t, n)
  {
    assert st.sessions[s].down[0] in st.sessions[s].down;
  }

  /** The step from `st` to `st'` is the switch, and it bound what it should. */
  ghost predicate SwitchedTo(st: State, step: Step, st': State, n: TakeoverId) {
    && Switches(st, step, n)
    && var m := st.sessions[step.s].up[0];
    AllBound(st', step.s, m.client, m.mappings)
  }

  /** The switch with id `n` that took the client id over from session `t` happened at position `j` of the run. */
  ghost predicate SwitchedAt(run: seq<Step>, states: seq<State>, j: nat, n: TakeoverId, t: SessionId) {
    && j < |run| && j + 1 < |states|
    && SwitchedTo(states[j], run[j], states[j + 1], n) && Replaces(states[j], run[j], t)
  }

  lemma {:induction false} ToldAfterSwitch(run: seq<Step>, states: seq<State>, i: nat, t: SessionId, n: TakeoverId)
    requires Passes(run, states) && i <= |run| && Told(states[i], t, n)
    ensures exists j :: 0 <= j < i && SwitchedAt(run, states, j, n, t)
  {
    if i > 0 {
      StepOf(run, states, i - 1);
      if Told(states[i - 1], t, n) {
        ToldAfterSwitch(run, states, i - 1, t, n);
      } else {
        RunKeepsInv(run, states, i - 1);
        ToldBy(states[i - 1], run[i - 1], t, n);
        SwitchBinds(states[i - 1], run[i - 1], n);
        assert SwitchedAt(run, states, i - 1, n, t);
      }
    }
  }

  /**
   A client leaves with TakeoverComplete(n) only after the run contains a switch for n that took the
   session's own client id over from it and bound every requested port that had a listener to the new
   session.
   */
  lemma TakeoverExitSafety(run: seq<Step>, states: seq<State>, i: nat, t: SessionId, n: TakeoverId)
    requires Passes(run, states) && i <= |run| && t in states[i].sessions && states[i].sessions[t].phase == Exited(n)
    ensures exists j :: 0 <= j < i && SwitchedAt(run, states, j, n, t)
  {
    ToldAfterSwitch(run, states, i, t, n);
  }

  /**
   A Takeover request from an unregistered session is answered by exactly one message to that session:
   TakeoverFailed exactly when ports are requested and none has a listener, TakeoverReady otherwise.
   */
  lemma TakeoverReply(st: State, s: SessionId)
    requires Reachable(st) && Ready(st, s)
    requires st.sessions[s].up[0].Takeover? && st.sessions[s].client.None?
    ensures var m := st.sessions[s].up[0];
            var e := DoServerRecv(st, s).sessions[s];
            && e.down == st.sessions[s].down +
                         [if m.mappings != [] && (forall i :: i in m.mappings ==> i.remotePort !in st.listeners)
                          then TakeoverFailed else TakeoverReady(m.newSession)]
            && (e.client == Some(m.client) <==> e.down[|e.down| - 1].TakeoverReady?)
  {
    ReachableInv(st);
    ServedZero(st.listeners, st.sessions[s].up[0].mappings);
  }

  // ---------- bindings and the client table ----------

  /** Between removing a client and unbinding its ports a session still owes the unbinding. */
  predicate OwesUnbind(st: State, x: ClientId, s: SessionId) {
    s in st.sessions && st.sessions[s].server.Unlisted? && st.sessions[s].client == Some(x)
  }

  ghost predicate Agreement(st: State) {
    forall p :: p in st.listeners && st.listeners[p].bound.Some? ==> ListedOrOwed(st, st.listeners[p].bound.value.client)
  }

  ghost predicate ListedOrOwed(st: State, x: ClientId) {
    x in st.table || exists s :: OwesUnbind(st, x, s)
  }

  /** A listed client stays listed, or a session owes its unbinding. */
  lemma ListedStep(st: State, step: Step, x: ClientId)
    requires Enabled(st, step) && BindingInv(st) && x in st.table
    ensures ListedOrOwed(Apply(st, step), x)
  {
    var st' := Apply(st, step);
    if step.OfSession? && step.a.ServerUnlist? {
      if x !in st'.table { assert OwesUnbind(st', x, step.s); }
    } else {
      ListedStays(st, step, x);
    }
  }

  lemma ListedStays(st: State, step: Step, x: ClientId)
    requires Enabled(st, step) && x in st.table && !(step.OfSession? && step.a.ServerUnlist?)
    ensures x in Apply(st, step).table
  {
    match step
    case OfSession(s, a) =>
    case OfHandler(b, h) =>
    case OfTask(b, t) =>
  }

  /** Only the unbinding itself ends the debt. */
  lemma OwedStep(st: State, step: Step, x: ClientId, s: SessionId)
    requires Enabled(st, step) && OwesUnbind(st, x, s) && step != OfSession(s, ServerUnbind)
    ensures OwesUnbind(Apply(st, step), x, s)
  {
    match step
    case OfSession(t, a) => OwedSession(st, t, a, x, s);
    case OfHandler(b, h) => OwedHandler(st, b, h, x, s);
    case OfTask(b, t) =>
  }

  lemma OwedSession(st: State, t: SessionId, a: SessionStep, x: ClientId, s: SessionId)
    requires SessionEnabled(st, t, a) && OwesUnbind(st, x, s) && OfSession(t, a) != OfSession(s, ServerUnbind)
    ensures OwesUnbind(ApplySession(st, t, a), x, s)
  {
    match a
    case ServerRecv => OwedServer(st, t, x, s);
    case ClientRecv => OwedClient(st, t, x, s);
    case _ =>
  }

  lemma OwedServer(st: State, t: SessionId, x: ClientId, s: SessionId)
    requires Ready(st, t) && OwesUnbind(st, x, s)
    ensures OwesUnbind(DoServerRecv(st, t), x, s)
  {
  }

  lemma OwedClient(st: State, t: SessionId, x: ClientId, s: SessionId)
    requires ClientReady(st, t) && OwesUnbind(st, x, s)
    ensures OwesUnbind(DoClientRecv(st, t), x, s)
  {
  }

  lemma OwedHandler(st: State, b: ConnId, h: HandlerStep, x: ClientId, s: SessionId)
    requires HandlerEnabled(st, b, h) && OwesUnbind(st, x, s)
    ensures OwesUnbind(ApplyHandler(st, b, h), x, s)
  {
  }

  /** Who may newly be bound, and that it is listed. */
  lemma NewlyBound(st: State, step: Step, p: Port)
    requires Enabled(st, step) && p in Apply(st, step).listeners && Apply(st, step).listeners[p].bound.Some?
    ensures NewBound(st, Apply(st, step), p)
  {
    match step
    case OfSession(s, a) => if a.ServerRecv? { NewlyBoundRecv(st, s, p); } else { NewlyBoundSession(st, s, a, p); }
    case OfHandler(b, h) => NewlyBoundHandler(st, b, h, p);
    case OfTask(b, t) =>
  }

  predicate NewBound(st: State, st': State, p: Port)
    requires p in st'.listeners && st'.listeners[p].bound.Some?
  {
    (p in st.listeners && st.listeners[p].bound == st'.listeners[p].bound) || st'.listeners[p].bound.value.client in st'.table
  }

  lemma NewlyBoundConfig(st: State, s: SessionId, x: ClientId, ms: seq<PortMapping>, p: Port)
    requires s in st.sessions && p in DoConfig(st, s, x, ms).listeners && DoConfig(st, s, x, ms).listeners[p].bound.Some?
    ensures NewBound(st, DoConfig(st, s, x, ms), p)
  {
    BindAllAt(st.listeners, x, s, ms, p);
  }

  lemma NewlyBoundTakeover(st: State, s: SessionId, x: ClientId, ms: seq<PortMapping>, n: TakeoverId, p: Port)
    requires s in st.sessions && p in DoTakeover(st, s, x, ms, n).listeners && DoTakeover(st, s, x, ms, n).listeners[p].bound.Some?
    ensures NewBound(st, DoTakeover(st, s, x, ms, n), p)
  {
    SwitchAllAt(st.listeners, x, s, ms, p);
  }

  lemma NewlyBoundRecv(st: State, s: SessionId, p: Port)
    requires Ready(st, s) && p in DoServerRecv(st, s).listeners && DoServerRecv(st, s).listeners[p].bound.Some?
    ensures NewBound(st, DoServerRecv(st, s), p)
  {
    var m := st.sessions[s].up[0];
    if m.Config? { NewlyBoundConfig(TakeUp(st, s), s, m.client, m.mappings, p); }
    else if m.Takeover? { NewlyBoundTakeover(TakeUp(st, s), s, m.client, m.mappings, m.newSession, p); }
  }

  lemma NewlyBoundSession(st: State, s: SessionId, a: SessionStep, p: Port)
    requires SessionEnabled(st, s, a) && !a.ServerRecv?
    requires p in ApplySession(st, s, a).listeners && ApplySession(st, s, a).listeners[p].bound.Some?
    ensures p in st.listeners && st.listeners[p].bound == ApplySession(st, s, a).listeners[p].bound
  {
  }

  lemma NewlyBoundHandler(st: State, b: ConnId, h: HandlerStep, p: Port)
    requires HandlerEnabled(st, b, h) && p in ApplyHandler(st, b, h).listeners
    ensures p in st.listeners && st.listeners[p].bound == ApplyHandler(st, b, h).listeners[p].bound
  {
  }

  lemma AgreementStep(st: State, step: Step)
    requires Enabled(st, step) && BindingInv(st) && Agreement(st)
    ensures Agreement(Apply(st, step))
  {
    var st' := Apply(st, step);
    if step.OfSession? && step.a.ServerUnbind? {
      AgreementUnbind(st, step.s);
    } else {
      forall p | p in st'.listeners && st'.listeners[p].bound.Some?
        ensures ListedOrOwed(st', st'.listeners[p].bound.value.client)
      {
        NewlyBound(st, step, p);
        if st'.listeners[p].bound.value.client !in st'.table { StillListed(st, step, st'.listeners[p].bound.value.client); }
      }
    }
  }

  lemma StillListed(st: State, step: Step, x: ClientId)
    requires Enabled(st, step) && !(step.OfSession? && step.a.ServerUnbind?) && BindingInv(st) && ListedOrOwed(st, x)
    ensures ListedOrOwed(Apply(st, step), x)
  {
    if x in st.table {
      ListedStep(st, step, x);
    } else {
      var s :| OwesUnbind(st, x, s);
      OwedStep(st, step, x, s);
    }
  }

  lemma AgreementUnbind(st: State, s: SessionId)
    requires SessionEnabled(st, s, ServerUnbind) && Agreement(st)
    ensures Agreement(ApplySession(st, s, ServerUnbind))
  {
    var st' := ApplySession(st, s, ServerUnbind);
    forall p | p in st'.listeners && st'.listeners[p].bound.Some?
      ensures ListedOrOwed(st', st'.listeners[p].bound.value.client)
    {
      var x := st'.listeners[p].bound.value.client;
      assert st.listeners[p].bound == st'.listeners[p].bound;
      assert ListedOrOwed(st, x);
      if x !in st.table {
        var t :| OwesUnbind(st, x, t);
        assert OwesUnbind(st', x, t);
      }
    }
  }

  lemma {:induction false} RunKeepsAgreement(run: seq<Step>, states: seq<State>, n: nat)
    requires Passes(run, states) && n <= |run|
    ensures Agreement(states[n])
  {
    if n > 0 {
      RunKeepsAgreement(run, states, n - 1);
      RunKeepsInv(run, states, n - 1);
      StepOf(run, states, n - 1);
      AgreementStep(states[n - 1], run[n - 1]);
    }
  }

  lemma AgreementHolds(st: State)
    requires Reachable(st)
    ensures Agreement(st)
  {
    var run, states :| Passes(run, states) && states[|run|] == st;
    RunKeepsAgreement(run, states, |run|);
  }

  /**
   In every reachable state a bound port uses the channel of a session that declared the bound id,
   and while no session is between its two cleanup calls that id is in the client table.
   */
  lemma BindingTableAgreement(st: State, p: Port)
    requires Reachable(st) && p in st.listeners && st.listeners[p].bound.Some?
    ensures var b := st.listeners[p].bound.value;
            && Declared(st, b.channel, b.client)
            && ((forall s :: s in st.sessions ==> !st.sessions[s].server.Unlisted?) ==>
                  b.client in st.table && Declared(st, st.table[b.client], b.client))
  {
    ReachableInv(st);
    AgreementHolds(st);
    assert ListedOrOwed(st, st.listeners[p].bound.value.client);
  }

  /** The steps that may change who port `p` is bound to. */
  predicate MayRebind(st: State, step: Step, p: Port) {
    && p in st.listeners && step.OfSession?
    && ( || (step.a.ServerRecv? && Ready(st, step.s) && st.sessions[step.s].client.None?
             && (st.sessions[step.s].up[0].Config? || st.sessions[step.s].up[0].Takeover?)
             && Maps(st.sessions[step.s].up[0].mappings, p))
         || (step.a.ServerUnbind? && step.s in st.sessions && st.sessions[step.s].client.Some?
             && st.listeners[p].BoundTo(st.sessions[step.s].client.value)))
  }

  lemma BoundStays(st: State, step: Step, p: Port)
    requires Enabled(st, step) && p in st.listeners && !MayRebind(st, step, p)
    ensures p in Apply(st, step).listeners && Apply(st, step).listeners[p].bound == st.listeners[p].bound
  {
    match step
    case OfSession(s, a) =>
      if a.ServerRecv? { BoundFrameRecv(st, s, p); }
    case OfHandler(b, h) =>
    case OfTask(b, u) =>
  }

  lemma BoundFrameRecv(st: State, s: SessionId, p: Port)
    requires Ready(st, s) && p in st.listeners && !MayRebind(st, OfSession(s, ServerRecv), p)
    ensures p in DoServerRecv(st, s).listeners && DoServerRecv(st, s).listeners[p].bound == st.listeners[p].bound
  {
    var m := st.sessions[s].up[0];
    if m.Config? { BindAllAt(st.listeners, m.client, s, m.mappings, p); }
    if m.Takeover? { SwitchAllAt(st.listeners, m.client, s, m.mappings, p); }
  }

  /** A step that maps or unbinds the port does change its binding: nobody is bound twice to the same channel. */
  lemma BoundMoved(st: State, step: Step, p: Port)
    requires Enabled(st, step) && BindingInv(st) && MayRebind(st, step, p)
    ensures p in Apply(st, step).listeners && Apply(st, step).listeners[p].bound != st.listeners[p].bound
  {
    if step.a.ServerRecv? {
      var m := st.sessions[step.s].up[0];
      BindAllAt(st.listeners, m.client, step.s, m.mappings, p);
      SwitchAllAt(st.listeners, m.client, step.s, m.mappings, p);
      ServedZero(st.listeners, m.mappings);
    }
  }

  /**
   Exactly which steps change who a port is bound to: a Config or Takeover of an unregistered session
   that maps it, and the cleanup of a session with the bound client id.
   */
  lemma BoundFrame(st: State, step: Step, p: Port)
    requires Reachable(st) && Enabled(st, step) && p in st.listeners
    ensures p in Apply(st, step).listeners
    ensures Apply(st, step).listeners[p].bound != st.listeners[p].bound <==> MayRebind(st, step, p)
  {
    ReachableInv(st);
    if MayRebind(st, step, p) { BoundMoved(st, step, p); } else { BoundStays(st, step, p); }
  }

  /** No step of `run` from position `i` up to `n` rebinds port `p`. */
  ghost predicate Undisturbed(run: seq<Step>, states: seq<State>, i: nat, n: nat, p: Port) {
    forall k {:trigger run[k]} :: i <= k < n && k < |run| && k < |states| ==> !MayRebind(states[k], run[k], p)
  }

  /** The port is bound at every position from `i` to `n` as it was at `i`. */
  ghost predicate BoundThroughout(states: seq<State>, i: nat, n: nat, p: Port) {
    forall k {:trigger states[k]} :: i <= k <= n && k < |states| && i < |states| && p in states[i].listeners ==>
      p in states[k].listeners && states[k].listeners[p].bound == states[i].listeners[p].bound
  }

  lemma {:induction false} ListenersStay(run: seq<Step>, states: seq<State>, i: nat, n: nat, p: Port)
    requires Passes(run, states) && i <= n <= |run| && p in states[i].listeners
    ensures p in states[n].listeners
  {
    if i < n {
      ListenersStay(run, states, i, n - 1, p);
      StepOf(run, states, n - 1);
      RunKeepsInv(run, states, n - 1);
      if MayRebind(states[n - 1], run[n - 1], p) {
        BoundMoved(states[n - 1], run[n - 1], p);
      } else {
        BoundStays(states[n - 1], run[n - 1], p);
      }
    }
  }

  /**
   A port keeps its binding through a stretch of a run if and only if no Config or Takeover in it maps
   the port and no session with the bound client id is cleaned up in it.
   */
  lemma {:induction false} BindingLasts(run: seq<Step>, states: seq<State>, i: nat, n: nat, p: Port)
    requires Passes(run, states) && i <= n <= |run| && p in states[i].listeners
    ensures BoundThroughout(states, i, n, p) <==> Undisturbed(run, states, i, n, p)
  {
    if i < n {
      var st, step := states[n - 1], run[n - 1];
      BindingLasts(run, states, i, n - 1, p);
      ListenersStay(run, states, i, n - 1, p);
      StepOf(run, states, n - 1);
      RunKeepsInv(run, states, n - 1);
      if MayRebind(st, step, p) { BoundMoved(st, step, p); } else { BoundStays(st, step, p); }
      BoundLonger(states, i, n, p);
      UndisturbedLonger(run, states, i, n, p);
    }
  }

  lemma BoundLonger(states: seq<State>, i: nat, n: nat, p: Port)
    requires i < n < |states| && p in states[i].listeners && p in states[n - 1].listeners && p in states[n].listeners
    ensures BoundThroughout(states, i, n, p) <==>
            BoundThroughout(states, i, n - 1, p) && states[n].listeners[p].bound == states[n - 1].listeners[p].bound
  {
    if BoundThroughout(states, i, n, p) { assert states[n - 1].listeners[p].bound == states[i].listeners[p].bound; }
  }

  lemma UndisturbedLonger(run: seq<Step>, states: seq<State>, i: nat, n: nat, p: Port)
    requires i < n <= |run| && |states| == |run| + 1
    ensures Undisturbed(run, states, i, n, p) <==>
            Undisturbed(run, states, i, n - 1, p) && !MayRebind(states[n - 1], run[n - 1], p)
  {
    if Undisturbed(run, states, i, n, p) { assert !MayRebind(states[n - 1], run[n - 1], p); }
  }
}
