/** What every step of the tunnel keeps, stated for one session, one port and one connection at a time. */
module TunnelInvariant {
  import opened Common
  import opened Messages
  import opened TunnelSystem

  // ---------- what a queue holds for one connection ----------

  predicate Carries(m: Message, c: ConnId) {
    m.Data? && m.conn == c
  }

  predicate Concerns(m: Message, c: ConnId) {
    match m
    case Connect(x, _) => x == c
    case Connected(x) => x == c
    case ConnectFailed(x) => x == c
    case Data(x, _) => x == c
    case Close(x) => x == c
    case _ => false
  }

  /** The chunks of `c` on a queue, oldest first. */
  function Datas(q: seq<Message>, c: ConnId): seq<Bytes> {
    if q == [] then []
    else Datas(q[..|q| - 1], c) + (if Carries(q[|q| - 1], c) then [q[|q| - 1].data] else [])
  }

  /** How many Connect messages for `c` are on a queue. */
  function Connects(q: seq<Message>, c: ConnId): nat {
    if q == [] then 0
    else Connects(q[..|q| - 1], c) + (if q[|q| - 1].Connect? && q[|q| - 1].conn == c then 1 else 0)
  }

  lemma PushAt(q: seq<Message>, m: Message, c: ConnId)
    ensures Datas(q + [m], c) == Datas(q, c) + (if Carries(m, c) then [m.data] else [])
    ensures Connects(q + [m], c) == Connects(q, c) + (if m.Connect? && m.conn == c then 1 else 0)
  {
    assert (q + [m])[..|q|] == q;
  }

  lemma {:induction false} PopAt(q: seq<Message>, c: ConnId)
    requires q != []
    ensures Datas(q, c) == (if Carries(q[0], c) then [q[0].data] else []) + Datas(q[1..], c)
    ensures Connects(q, c) == (if q[0].Connect? && q[0].conn == c then 1 else 0) + Connects(q[1..], c)
  {
    if |q| > 1 {
      PopAt(q[..|q| - 1], c);
      assert q[..|q| - 1][1..] == q[1..][..|q| - 2];
    } else {
      assert q[..0] == [] && q[1..] == [];
    }
  }

  lemma {:induction false} CutAt(q: seq<Message>, k: nat, c: ConnId)
    requires k <= |q|
    ensures Prefix(Datas(q[..k], c), Datas(q, c)) && Connects(q[..k], c) <= Connects(q, c)
  {
    if k < |q| {
      CutAt(q[..|q| - 1], k, c);
      assert q[..|q| - 1][..k] == q[..k];
    } else {
      assert q[..k] == q;
    }
  }

  lemma {:induction false} NoneAt(q: seq<Message>, c: ConnId)
    requires forall m :: m in q ==> !Carries(m, c)
    ensures Datas(q, c) == []
    ensures (forall m :: m in q ==> !Concerns(m, c)) ==> Connects(q, c) == 0
  {
    if q != [] {
      assert q[|q| - 1] in q;
      NoneAt(q[..|q| - 1], c);
    }
  }

  // ---------- the invariant ----------

  /** The session's server loop knows who it serves. */
  predicate Declared(st: State, s: SessionId, x: ClientId) {
    s in st.sessions && st.sessions[s].client == Some(x)
  }

  /** A bound port uses the channel of a session that declared the bound id; so does the client table. */
  predicate BindingInv(st: State) {
    && (forall p :: p in st.listeners && st.listeners[p].bound.Some? ==>
          Declared(st, st.listeners[p].bound.value.channel, st.listeners[p].bound.value.client))
    && (forall x :: x in st.table ==> Declared(st, st.table[x], x))
  }

  /** Entries of a port are ids of its own handlers that have not passed the matching cleanup. */
  predicate EntryInv(st: State, p: Port, c: ConnId)
    requires p in st.listeners
  {
    && (c in st.listeners[p].pending ==>
          && c in st.conns && st.conns[c].port == p
          && !st.conns[c].phase.Accepted? && !st.conns[c].phase.CleanActive? && !st.conns[c].phase.Returned?)
    && (c in st.listeners[p].active ==>
          && c in st.conns && st.conns[c].port == p
          && !st.conns[c].phase.Accepted? && !st.conns[c].phase.PendingSet? && !st.conns[c].phase.Returned?)
  }

  predicate Targets(st: State, c: ConnId, s: SessionId) {
    c in st.conns && st.conns[c].target == Some(s)
  }

  /** What session `s` may hold about connection `c`. */
  ghost predicate QueueInv(st: State, s: SessionId, c: ConnId)
    requires s in st.sessions
  {
    var e := st.sessions[s];
    && (forall m :: m in e.down && Concerns(m, c) ==> c in st.conns)
    && (forall m :: m in e.down && Carries(m, c) ==> c in st.conns && !st.conns[c].reader.NotStarted?)
    && (forall m :: m in e.up && Concerns(m, c) ==> Targets(st, c, s) && !m.Connect?)
    && (Connected(c) in e.up ==> Targets(st, c, s) && st.conns[c].task.Up?)
    && Connects(e.down, c) <= (if Targets(st, c, s) && st.conns[c].task.NoTask? then 1 else 0)
    && (c in e.local ==> Targets(st, c, s) && st.conns[c].LocalRegistered())
  }

  /** The life of a handler and its remote task up to forwarding. */
  predicate LifeInv(st: State, c: ConnId)
    requires c in st.conns
  {
    var k := st.conns[c];
    && k.port in st.listeners
    && (k.phase.Accepted? || k.phase.PendingSet? || k.phase.Registered? ==> k.target.None? && !k.signalled)
    && (k.target.Some? ==> k.target.value in st.sessions && st.sessions[k.target.value].client.Some?)
    && (k.target.None? ==> k.task.NoTask?)
    && (k.target.Some? && k.target.value in st.sessions && st.sessions[k.target.value].phase.Waiting? ==> k.task.NoTask?)
    && (k.signalled ==> k.task.Up? && k.target.Some?)
    && (!k.reader.NotStarted? ==> k.signalled)
    && (k.phase.Forwarding? ==> !k.reader.NotStarted?)
    && (k.phase.AwaitReady? ==> k.reader.NotStarted?)
    && (k.localReader.NotStarted? <==> !k.task.Up?)
  }

  /** The part of what was read that has already been offered to the session. */
  function Offered(read: seq<Bytes>, r: Reader): seq<Bytes> {
    if r.Holding? && read != [] then read[..|read| - 1] else read
  }

  predicate FlowOk(f: Flow, r: Reader) {
    && (r.NotStarted? ==> f.read == [])
    && (r.Holding? ==> f.read != [] && f.read[|f.read| - 1] == r.data)
    && Prefix(f.pushed, Offered(f.read, r))
    && f.written <= |f.accepted|
    && (f.part > 0 ==> f.dead && f.written < |f.accepted| && f.part <= |f.accepted[f.written]|)
  }

  predicate Reads(r: Reader) {
    r.NotStarted? || r.Idle? || r.Holding?
  }

  /** Popped and still queued chunks, put together, are what was pushed, or a prefix once the server has halted. */
  predicate QueuedDown(e: Session, k: Conn, c: ConnId) {
    && Prefix(k.down.popped + Datas(e.down, c), k.down.pushed)
    && (e.server.Open? ==> k.down.popped + Datas(e.down, c) == k.down.pushed)
    && (c in e.local && !k.down.dead ==> k.down.accepted == k.down.popped)
  }

  /** Remote peer to local service. */
  predicate DownInv(st: State, c: ConnId)
    requires c in st.conns
  {
    var k := st.conns[c];
    var f := k.down;
    && FlowOk(f, k.reader)
    && (!k.LocalRegistered() ==> f.pushed == [])
    && (k.target.None? ==> f.popped == [])
    && Prefix(f.accepted, f.popped)
    && (k.target.Some? && k.target.value in st.sessions ==>
          && QueuedDown(st.sessions[k.target.value], k, c)
          && (Forwards(st, k.port, k.target.value) && Reads(k.reader) ==> f.pushed == Offered(f.read, k.reader)))
  }

  /** Positions of the chunks accepted by the server's write task: always increasing. */
  predicate IndexInv(k: Conn) {
    && |k.index| == |k.up.accepted| <= |k.up.popped|
    && (forall i :: 0 <= i < |k.index| ==> k.index[i] < |k.up.popped| && k.up.accepted[i] == k.up.popped[k.index[i]])
    && (forall i, j :: 0 <= i < j < |k.index| ==> k.index[i] < k.index[j])
    && (k.lateAt.None? ==> forall i :: 0 <= i < |k.index| ==> k.index[i] == i)
    && (k.lateAt.Some? ==> k.lateAt.value < |k.index| && k.index[k.lateAt.value] != k.lateAt.value && k.missed)
    && (k.missed ==> |k.index| < |k.up.popped|)
  }

  /** While the port would route a chunk and no chunk was missed, none is missing. */
  predicate UpToDate(st: State, c: ConnId)
    requires c in st.conns
  {
    var k := st.conns[c];
    k.port in st.listeners && c in st.listeners[k.port].active && !k.missed && !k.up.dead ==>
      |k.up.accepted| == |k.up.popped|
  }

  predicate QueuedUp(e: Session, k: Conn, c: ConnId) {
    && Prefix(k.up.popped + Datas(e.up, c), k.up.pushed)
    && (e.Running() ==> k.up.popped + Datas(e.up, c) == k.up.pushed)
    && (e.Running() && Reads(k.localReader) ==> k.up.pushed == Offered(k.up.read, k.localReader))
  }

  /** Local service to remote peer. */
  predicate UpInv(st: State, c: ConnId)
    requires c in st.conns
  {
    var k := st.conns[c];
    && FlowOk(k.up, k.localReader)
    && IndexInv(k)
    && (k.target.None? ==> k.up.popped == [])
    && (k.target.Some? && k.target.value in st.sessions ==> QueuedUp(st.sessions[k.target.value], k, c))
    && UpToDate(st, c)
  }

  predicate ConnInv(st: State, c: ConnId)
    requires c in st.conns
  {
    LifeInv(st, c) && DownInv(st, c) && UpInv(st, c)
  }

  /** Everything the invariant says about one connection id, accepted or not. */
  ghost predicate About(st: State, c: ConnId) {
    && (forall p :: p in st.listeners ==> EntryInv(st, p, c))
    && (forall s :: s in st.sessions ==> QueueInv(st, s, c))
    && (c in st.conns ==> ConnInv(st, c))
  }

  ghost predicate Inv(st: State) {
    BindingInv(st) && forall c :: About(st, c)
  }

  // ---------- steps that leave a connection alone ----------

  /** `q'` tells no more about `c` than `q`; where `c` is watched its chunks are a prefix, or all of them. */
  ghost predicate QueueShrinks(q: seq<Message>, q': seq<Message>, c: ConnId, watched: bool, whole: bool) {
    && (watched ==> Prefix(Datas(q', c), Datas(q, c)) && (whole ==> Datas(q', c) == Datas(q, c)))
    && Connects(q', c) <= Connects(q, c)
    && (forall m :: m in q' && Concerns(m, c) ==> m in q)
  }

  ghost predicate SessionFrame(e: Session, e': Session, c: ConnId, watched: bool) {
    && (e.client.Some? ==> e'.client == e.client)
    && (e'.server.Open? ==> e.server.Open?)
    && (e'.Running() ==> e.Running())
    && (e'.phase.Waiting? ==> e.phase.Waiting?)
    && QueueShrinks(e.down, e'.down, c, watched, e'.server.Open?)
    && QueueShrinks(e.up, e'.up, c, watched, e'.Running())
    && (c in e'.local ==> c in e.local)
  }

  ghost predicate SilentOn(e: Session, c: ConnId) {
    && c !in e.local
    && (forall m :: m in e.down ==> !Concerns(m, c))
    && (forall m :: m in e.up ==> !Concerns(m, c))
  }

  predicate PortFrame(st: State, st': State, p: Port, c: ConnId)
    requires p in st'.listeners
  {
    && (c in st'.listeners[p].pending ==> p in st.listeners && c in st.listeners[p].pending)
    && (c in st'.listeners[p].active ==> p in st.listeners && c in st.listeners[p].active)
  }

  ghost predicate SessionKept(st: State, st': State, s: SessionId, c: ConnId)
    requires s in st.sessions && s in st'.sessions
  {
    st.sessions[s] == st'.sessions[s] || SessionFrame(st.sessions[s], st'.sessions[s], c, Targets(st, c, s))
  }

  ghost predicate Frame(st: State, st': State, c: ConnId) {
    && (c in st'.conns <==> c in st.conns)
    && (c in st.conns ==> st'.conns[c] == st.conns[c])
    && (forall p :: p in st.listeners ==> p in st'.listeners)
    && (forall p :: p in st'.listeners ==> PortFrame(st, st', p, c))
    && (forall s :: s in st.sessions ==> s in st'.sessions && SessionKept(st, st', s, c))
    && (forall s :: s in st'.sessions && s !in st.sessions ==> SilentOn(st'.sessions[s], c))
    && (c in st.conns && st.conns[c].target.Some? && Forwards(st', st.conns[c].port, st.conns[c].target.value) ==>
          Forwards(st, st.conns[c].port, st.conns[c].target.value))
  }

  lemma FrameQueue(st: State, st': State, s: SessionId, c: ConnId)
    requires Frame(st, st', c) && s in st'.sessions
    requires s in st.sessions ==> QueueInv(st, s, c)
    ensures QueueInv(st', s, c)
  {
    if s in st.sessions {
      assert SessionKept(st, st', s, c);
    } else {
      NoneAt(st'.sessions[s].down, c);
    }
  }

  lemma ShrunkPrefix(a: seq<Bytes>, b: seq<Bytes>, b': seq<Bytes>, c: seq<Bytes>)
    requires Prefix(a + b, c) && Prefix(b', b)
    ensures Prefix(a + b', c)
  {
    assert a + b' == (a + b)[..|a| + |b'|];
    PrefixTrans(a + b', a + b, c);
  }

  lemma FrameDown(st: State, st': State, c: ConnId)
    requires Frame(st, st', c) && c in st.conns && DownInv(st, c) && LifeInv(st, c)
    ensures DownInv(st', c)
  {
    var k := st.conns[c];
    if k.target.Some? {
      var s := k.target.value;
      assert SessionKept(st, st', s, c);
      ShrunkPrefix(k.down.popped, Datas(st.sessions[s].down, c), Datas(st'.sessions[s].down, c), k.down.pushed);
    }
  }

  lemma FrameUp(st: State, st': State, c: ConnId)
    requires Frame(st, st', c) && c in st.conns && UpInv(st, c) && LifeInv(st, c)
    ensures UpInv(st', c)
  {
    var k := st.conns[c];
    assert PortFrame(st, st', k.port, c);
    if k.target.Some? {
      var s := k.target.value;
      assert SessionKept(st, st', s, c);
      ShrunkPrefix(k.up.popped, Datas(st.sessions[s].up, c), Datas(st'.sessions[s].up, c), k.up.pushed);
    }
  }

  lemma FrameLife(st: State, st': State, c: ConnId)
    requires Frame(st, st', c) && c in st.conns && LifeInv(st, c)
    ensures LifeInv(st', c)
  {
    var k := st.conns[c];
    if k.target.Some? {
      assert SessionKept(st, st', k.target.value, c);
    }
  }

  lemma FrameKeeps(st: State, st': State, c: ConnId)
    requires About(st, c) && Frame(st, st', c)
    ensures About(st', c)
  {
    forall p | p in st'.listeners ensures EntryInv(st', p, c) {
      assert PortFrame(st, st', p, c);
      if p in st.listeners { assert EntryInv(st, p, c); }
    }
    forall s | s in st'.sessions ensures QueueInv(st', s, c) { FrameQueue(st, st', s, c); }
    if c in st.conns {
      FrameLife(st, st', c);
      FrameDown(st, st', c);
      FrameUp(st, st', c);
    }
  }

  lemma SameQueue(q: seq<Message>, c: ConnId)
    ensures QueueShrinks(q, q, c, true, true)
  {
  }

  lemma CutQueue(q: seq<Message>, k: nat, c: ConnId)
    requires k <= |q|
    ensures QueueShrinks(q, q[..k], c, true, false)
  {
    CutAt(q, k, c);
  }

  lemma PushOther(q: seq<Message>, m: Message, c: ConnId)
    requires !Concerns(m, c)
    ensures QueueShrinks(q, q + [m], c, true, true)
  {
    PushAt(q, m, c);
  }

  lemma PopOther(q: seq<Message>, c: ConnId, watched: bool)
    requires q != [] && (watched ==> !Carries(q[0], c))
    ensures QueueShrinks(q, q[1..], c, watched, true)
  {
    PopAt(q, c);
  }

  /** The session a connection was sent to has declared a client id, and the port has a listener. */
  predicate TargetDeclared(st: State, c: ConnId) {
    c in st.conns ==>
      && st.conns[c].port in st.listeners
      && (st.conns[c].target.Some? ==>
            st.conns[c].target.value in st.sessions && st.sessions[st.conns[c].target.value].client.Some?)
  }

  // ---------- sessions opening, halting and losing what was not on the wire ----------

  lemma FrameOneSession(st: State, st': State, s: SessionId, c: ConnId)
    requires st' == st.(sessions := st'.sessions, table := st'.table)
    requires s in st'.sessions && st'.sessions == st.sessions[s := st'.sessions[s]]
    requires s in st.sessions ==> SessionFrame(st.sessions[s], st'.sessions[s], c, Targets(st, c, s))
    requires s !in st.sessions ==> SilentOn(st'.sessions[s], c) && TargetDeclared(st, c)
    ensures Frame(st, st', c)
  {
  }

  lemma FrameSession(st: State, s: SessionId, a: SessionStep, c: ConnId)
    requires TargetDeclared(st, c) && SessionEnabled(st, s, a) && !a.ServerRecv? && !a.ClientRecv? && !a.ServerUnbind?
    ensures Frame(st, ApplySession(st, s, a), c)
  {
    var st' := ApplySession(st, s, a);
    if s in st.sessions {
      var e := st.sessions[s];
      SameQueue(e.down, c);
      SameQueue(e.up, c);
      if a.LoseDown? { CutQueue(e.down, a.k, c); }
      if a.LoseUp? { CutQueue(e.up, a.k, c); }
    }
    FrameOneSession(st, st', s, c);
  }

  lemma FrameUnbind(st: State, s: SessionId, c: ConnId)
    requires SessionEnabled(st, s, ServerUnbind)
    ensures Frame(st, ApplySession(st, s, ServerUnbind), c)
  {
    SameQueue(st.sessions[s].down, c);
    SameQueue(st.sessions[s].up, c);
  }

  // ---------- the server's session loop ----------

  /** The message at the head of the server's side of `s` is taken off. */
  function TakeUp(st: State, s: SessionId): State
    requires Ready(st, s)
  {
    SetSession(st, s, st.sessions[s].(up := st.sessions[s].up[1..]))
  }

  lemma FrameTakeUp(st: State, s: SessionId, c: ConnId)
    requires Ready(st, s) && !Concerns(st.sessions[s].up[0], c)
    ensures Frame(st, TakeUp(st, s), c)
  {
    SameQueue(st.sessions[s].down, c);
    PopOther(st.sessions[s].up, c, true);
    FrameOneSession(st, TakeUp(st, s), s, c);
  }

  lemma FrameConfig(st: State, s: SessionId, x: ClientId, ms: seq<PortMapping>, c: ConnId)
    requires s in st.sessions && TargetDeclared(st, c)
    ensures Frame(st, DoConfig(st, s, x, ms), c)
  {
    var st' := DoConfig(st, s, x, ms);
    forall p | p in st.listeners || p in st'.listeners
      ensures p in st'.listeners && PortFrame(st, st', p, c)
    {
      BindAllAt(st.listeners, x, s, ms, p);
    }
    SameQueue(st.sessions[s].down, c);
    SameQueue(st.sessions[s].up, c);
    if c in st.conns {
      BindAllAt(st.listeners, x, s, ms, st.conns[c].port);
    }
  }

  lemma FramePushDown(st: State, s: SessionId, m: Message, c: ConnId)
    requires !Concerns(m, c)
    ensures Frame(st, PushDown(st, s, m), c)
  {
    if s in st.sessions {
      PushOther(st.sessions[s].down, m, c);
      SameQueue(st.sessions[s].down, c);
      SameQueue(st.sessions[s].up, c);
      FrameOneSession(st, PushDown(st, s, m), s, c);
    }
  }

  lemma FrameSwitch(st: State, s: SessionId, x: ClientId, ms: seq<PortMapping>, c: ConnId)
    requires s in st.sessions && TargetDeclared(st, c) && st.sessions[s].client.None?
    ensures Frame(st, Switched(st, s, x, ms), c)
  {
    var st' := Switched(st, s, x, ms);
    forall p | p in st.listeners || p in st'.listeners
      ensures p in st'.listeners && PortFrame(st, st', p, c)
    {
      SwitchAllAt(st.listeners, x, s, ms, p);
    }
    SameQueue(st.sessions[s].down, c);
    SameQueue(st.sessions[s].up, c);
    if c in st.conns {
      SwitchAllAt(st.listeners, x, s, ms, st.conns[c].port);
    }
  }

  /** A message about no connection is pushed for the session. */
  lemma PushedKeeps(st: State, s: SessionId, m: Message, c: ConnId)
    requires !Concerns(m, c) && About(st, c)
    ensures About(PushDown(st, s, m), c)
  {
    FramePushDown(st, s, m, c);
    FrameKeeps(st, PushDown(st, s, m), c);
  }

  lemma TakeoverKeeps(st: State, s: SessionId, x: ClientId, ms: seq<PortMapping>, n: TakeoverId, c: ConnId)
    requires s in st.sessions && About(st, c)
    ensures About(DoTakeover(st, s, x, ms, n), c)
  {
    if st.sessions[s].client.None? {
      if Served(st.listeners, ms) == 0 && ms != [] {
        PushedKeeps(st, s, TakeoverFailed, c);
      } else {
        var st1 := Switched(st, s, x, ms);
        FrameSwitch(st, s, x, ms, c);
        FrameKeeps(st, st1, c);
        PushedKeeps(st1, s, TakeoverReady(n), c);
        if x in st.table { PushedKeeps(PushDown(st1, s, TakeoverReady(n)), st.table[x], TakeoverComplete(n), c); }
      }
    }
  }

  predicate Routable(m: Message) {
    m.Connected? || m.ConnectFailed? || m.Data? || m.Close?
  }

  /** Routing touches the upward side of a connection and its signal, nothing else of it. */
  lemma RoutedLeaves(st: State, x: ClientId, m: Message, k: Conn)
    ensures var k' := Routed(st, x, m, k);
            && k'.down == k.down && k'.reader == k.reader && k'.target == k.target && k'.port == k.port
            && k'.task == k.task && k'.localReader == k.localReader && k'.phase == k.phase
  {
  }

  lemma RouteConns(st: State, s: SessionId, m: Message, c: ConnId)
    requires s in st.sessions && Routable(m) && c in st.conns
    ensures var st' := DoRoute(st, s, m);
            && st'.sessions == st.sessions && c in st'.conns
            && (st'.conns[c] == st.conns[c]
                || (st.sessions[s].client.Some? && st'.conns[c] == Routed(st, st.sessions[s].client.value, m, st.conns[c])))
  {
  }

  lemma RoutePorts(st: State, s: SessionId, m: Message, p: Port, c: ConnId)
    requires s in st.sessions && Routable(m)
    ensures p in DoRoute(st, s, m).listeners <==> p in st.listeners
    ensures p in st.listeners ==>
              PortFrame(st, DoRoute(st, s, m), p, c) && DoRoute(st, s, m).listeners[p].bound == st.listeners[p].bound
  {
  }

  /** What routing leaves alone: sessions, bindings, and all but the upward side of the connection. */
  lemma RouteLeaves(st: State, s: SessionId, m: Message, c: ConnId)
    requires s in st.sessions && Routable(m) && c in st.conns
    ensures var st' := DoRoute(st, s, m);
            && st'.sessions == st.sessions && c in st'.conns
            && (forall p :: p in st'.listeners <==> p in st.listeners)
            && (forall p :: p in st.listeners ==> st'.listeners[p].bound == st.listeners[p].bound)
            && st'.conns[c].down == st.conns[c].down && st'.conns[c].reader == st.conns[c].reader
            && st'.conns[c].target == st.conns[c].target && st'.conns[c].port == st.conns[c].port
            && st'.conns[c].task == st.conns[c].task
  {
    RouteConns(st, s, m, c);
    if st.sessions[s].client.Some? { RoutedLeaves(st, st.sessions[s].client.value, m, st.conns[c]); }
    forall p ensures p in DoRoute(st, s, m).listeners <==> p in st.listeners { RoutePorts(st, s, m, p, c); }
    forall p | p in st.listeners ensures DoRoute(st, s, m).listeners[p].bound == st.listeners[p].bound {
      RoutePorts(st, s, m, p, c);
    }
  }

  /** Routing a message about another connection. */
  lemma FrameRoute(st: State, s: SessionId, m: Message, c: ConnId)
    requires s in st.sessions && Routable(m) && m.conn != c
    ensures Frame(st, DoRoute(st, s, m), c)
  {
    var st' := DoRoute(st, s, m);
    assert st'.sessions == st.sessions;
    forall p | p in st.listeners || p in st'.listeners ensures p in st.listeners && p in st'.listeners && PortFrame(st, st', p, c) {
      RoutePorts(st, s, m, p, c);
    }
    if c in st.conns { RoutePorts(st, s, m, st.conns[c].port, c); }
  }

  /** Routing a message about `c` itself: the ports can only lose entries. */
  lemma RouteEntry(st: State, s: SessionId, m: Message, p: Port, c: ConnId)
    requires s in st.sessions && Routable(m) && p in st.listeners && EntryInv(st, p, c)
    ensures p in DoRoute(st, s, m).listeners && EntryInv(DoRoute(st, s, m), p, c)
  {
  }

  lemma RouteQueue(st: State, s: SessionId, m: Message, t: SessionId, c: ConnId)
    requires s in st.sessions && Routable(m) && t in st.sessions && QueueInv(st, t, c)
    ensures t in DoRoute(st, s, m).sessions && QueueInv(DoRoute(st, s, m), t, c)
  {
    if c in st.conns {
      RouteLeaves(st, s, m, c);
    } else {
      RouteNoConn(st, s, m, c);
    }
  }

  lemma RouteNoConn(st: State, s: SessionId, m: Message, c: ConnId)
    requires s in st.sessions && Routable(m) && c !in st.conns
    ensures DoRoute(st, s, m).sessions == st.sessions && c !in DoRoute(st, s, m).conns
  {
  }

  /** DownInv looks at the connection's downward part and at the downward side of its session only. */
  lemma DownSame(st: State, st': State, c: ConnId)
    requires c in st.conns && c in st'.conns && DownInv(st, c)
    requires st'.conns[c].down == st.conns[c].down && st'.conns[c].reader == st.conns[c].reader
    requires st'.conns[c].target == st.conns[c].target && st'.conns[c].port == st.conns[c].port
    requires st.conns[c].LocalRegistered() ==> st'.conns[c].LocalRegistered()
    requires st.conns[c].target.Some? ==>
               var t := st.conns[c].target.value;
               && (t in st'.sessions <==> t in st.sessions)
               && (t in st.sessions ==>
                     && st'.sessions[t].down == st.sessions[t].down && st'.sessions[t].server == st.sessions[t].server
                     && (c in st'.sessions[t].local ==> c in st.sessions[t].local)
                     && (Forwards(st', st.conns[c].port, t) ==> Forwards(st, st.conns[c].port, t)))
    ensures DownInv(st', c)
  {
  }

  /** What was popped and what is queued, put together, decide UpInv's queue clauses. */
  lemma UpSame(st: State, st': State, c: ConnId)
    requires c in st.conns && c in st'.conns && UpInv(st, c) && IndexInv(st'.conns[c])
    requires var f, f' := st.conns[c].up, st'.conns[c].up;
             && f'.read == f.read && f'.pushed == f.pushed && f'.written == f.written && f'.part == f.part
             && f'.dead == f.dead && Prefix(f.accepted, f'.accepted)
    requires st'.conns[c].localReader == st.conns[c].localReader && st'.conns[c].target == st.conns[c].target
    requires st'.conns[c].port == st.conns[c].port && st.conns[c].target.Some?
    requires var t := st.conns[c].target.value;
             && t in st.sessions && t in st'.sessions && st'.sessions[t].phase == st.sessions[t].phase
             && st'.conns[c].up.popped + Datas(st'.sessions[t].up, c) == st.conns[c].up.popped + Datas(st.sessions[t].up, c)
    requires UpToDate(st', c)
    ensures UpInv(st', c)
  {
  }

  /** A chunk the write task takes extends the index by the position it came from. */
  lemma AcceptedIndex(k: Conn, d: Bytes)
    requires IndexInv(k) && !k.up.dead && (!k.missed ==> |k.up.accepted| == |k.up.popped|)
    ensures var up := k.up.(popped := k.up.popped + [d]).Accept(d);
            IndexInv(k.(up := up, index := k.index + [|k.up.popped|],
                        lateAt := if k.missed && k.lateAt.None? then Some(|k.index|) else k.lateAt))
  {
  }

  lemma PoppedIndex(k: Conn, d: Bytes)
    requires IndexInv(k)
    ensures IndexInv(k.(up := k.up.(popped := k.up.popped + [d])))
    ensures IndexInv(k.(up := k.up.(popped := k.up.popped + [d]), missed := true))
  {
  }

  lemma RoutedData(st: State, x: ClientId, m: Message, k: Conn)
    requires IndexInv(k) && m.Data?
    requires k.port in st.listeners && m.conn in st.listeners[k.port].active && !k.missed && !k.up.dead ==>
               |k.up.accepted| == |k.up.popped|
    ensures var k' := Routed(st, x, m, k);
            && IndexInv(k') && Prefix(k.up.accepted, k'.up.accepted) && k'.up.popped == k.up.popped + [m.data]
  {
    PoppedIndex(k, m.data);
    if k.port in st.listeners && m.conn in st.listeners[k.port].active && !k.up.dead { AcceptedIndex(k, m.data); }
  }

  lemma RoutedUpToDate(st: State, x: ClientId, m: Message, k: Conn)
    requires Routable(m)
    requires k.port in st.listeners && m.conn in st.listeners[k.port].active && !k.missed && !k.up.dead ==>
               |k.up.accepted| == |k.up.popped|
    ensures var k' := Routed(st, x, m, k);
            k.port in st.listeners && m.conn in st.listeners[k.port].After(m).active && !k'.missed && !k'.up.dead ==>
              |k'.up.accepted| == |k'.up.popped|
  {
  }

  lemma RoutedIndex(st: State, x: ClientId, m: Message, k: Conn)
    requires IndexInv(k) && Routable(m)
    requires k.port in st.listeners && m.conn in st.listeners[k.port].active && !k.missed && !k.up.dead ==>
               |k.up.accepted| == |k.up.popped|
    ensures var k' := Routed(st, x, m, k);
            && IndexInv(k') && Prefix(k.up.accepted, k'.up.accepted)
            && k'.up.popped == k.up.popped + (if m.Data? then [m.data] else [])
  {
    if m.Data? { RoutedData(st, x, m, k); }
  }

  lemma PoppedSame(popped: seq<Bytes>, rest: seq<Bytes>, head: seq<Bytes>)
    ensures (popped + head) + rest == popped + (head + rest)
  {
  }

  /** Routing never touches what was read, pushed or written, and `popped` grows by the routed chunk. */
  lemma RoutedFlow(st: State, x: ClientId, m: Message, k: Conn)
    requires Routable(m)
    ensures var f, f' := k.up, Routed(st, x, m, k).up;
            && f'.read == f.read && f'.pushed == f.pushed && f'.written == f.written && f'.part == f.part
            && f'.dead == f.dead && f'.popped == f.popped + (if m.Data? then [m.data] else [])
  {
  }

  lemma RoutePopped(st: State, x: ClientId, m: Message, k: Conn, q: seq<Message>, c: ConnId)
    requires q != [] && m == q[0] && Routable(m) && m.conn == c
    ensures Routed(st, x, m, k).up.popped + Datas(q[1..], c) == k.up.popped + Datas(q, c)
  {
    PopAt(q, c);
    RoutedFlow(st, x, m, k);
    PoppedSame(k.up.popped, Datas(q[1..], c), if m.Data? then [m.data] else []);
  }

  /** A routed chunk leaves the queue and joins `popped`; everything else about the flow is as before. */
  lemma RouteUp(st: State, s: SessionId, c: ConnId, m: Message)
    requires Ready(st, s) && m == st.sessions[s].up[0] && Routable(m) && m.conn == c
    requires Targets(st, c, s) && UpInv(st, c) && st.sessions[s].client.Some?
    ensures UpInv(DoRoute(TakeUp(st, s), s, m), c)
  {
    var k := st.conns[c];
    var x := st.sessions[s].client.value;
    var st1 := TakeUp(st, s);
    RoutedIndex(st1, x, m, k);
    RoutedFlow(st1, x, m, k);
    RoutedLeaves(st1, x, m, k);
    RoutePopped(st1, x, m, k, st.sessions[s].up, c);
    RouteUpToDate(st, s, c, m);
    UpSame(st, DoRoute(st1, s, m), c);
  }

  lemma RouteUpToDate(st: State, s: SessionId, c: ConnId, m: Message)
    requires Ready(st, s) && Routable(m) && m.conn == c && c in st.conns && UpToDate(st, c) && st.sessions[s].client.Some?
    ensures UpToDate(DoRoute(TakeUp(st, s), s, m), c)
  {
    RoutedUpToDate(TakeUp(st, s), st.sessions[s].client.value, m, st.conns[c]);
    RoutedLeaves(TakeUp(st, s), st.sessions[s].client.value, m, st.conns[c]);
  }

  lemma RouteLife(st: State, s: SessionId, c: ConnId, m: Message)
    requires Ready(st, s) && Routable(m) && m.conn == c
    requires c in st.conns && LifeInv(st, c) && Targets(st, c, s) && (m.Connected? ==> st.conns[c].task.Up?)
    ensures LifeInv(DoRoute(TakeUp(st, s), s, m), c)
  {
  }

  lemma RouteDown(st: State, s: SessionId, c: ConnId, m: Message)
    requires Ready(st, s) && Routable(m) && m.conn == c
    requires c in st.conns && DownInv(st, c)
    ensures DownInv(DoRoute(TakeUp(st, s), s, m), c)
  {
    DownSame(st, TakeUp(st, s), c);
    RouteLeaves(TakeUp(st, s), s, m, c);
    DownSame(TakeUp(st, s), DoRoute(TakeUp(st, s), s, m), c);
  }

  lemma RouteConn(st: State, s: SessionId, c: ConnId, m: Message)
    requires Ready(st, s) && m == st.sessions[s].up[0] && Routable(m) && m.conn == c
    requires Targets(st, c, s) && (m.Connected? ==> st.conns[c].task.Up?) && ConnInv(st, c)
    ensures c in st.conns && ConnInv(DoRoute(TakeUp(st, s), s, m), c)
  {
    RouteLife(st, s, c, m);
    RouteUp(st, s, c, m);
    RouteDown(st, s, c, m);
  }

  lemma RouteKeeps(st: State, s: SessionId, m: Message, c: ConnId)
    requires Ready(st, s) && m == st.sessions[s].up[0] && Routable(m) && About(st, c)
    ensures About(DoRoute(TakeUp(st, s), s, m), c)
  {
    var st1 := TakeUp(st, s);
    if m.conn != c {
      FrameTakeUp(st, s, c);
      FrameKeeps(st, st1, c);
      FrameRoute(st1, s, m, c);
      FrameKeeps(st1, DoRoute(st1, s, m), c);
    } else {
      assert QueueInv(st, s, c) && m in st.sessions[s].up;
      RouteConn(st, s, c, m);
      forall p | p in st.listeners ensures EntryInv(DoRoute(st1, s, m), p, c) {
        RouteEntry(st1, s, m, p, c);
      }
      forall t | t in st.sessions ensures QueueInv(DoRoute(st1, s, m), t, c) {
        TakenQueue(st, s, t, c);
        RouteQueue(st1, s, m, t, c);
      }
    }
  }

  lemma TakenQueue(st: State, s: SessionId, t: SessionId, c: ConnId)
    requires Ready(st, s) && t in st.sessions && QueueInv(st, t, c)
    ensures QueueInv(TakeUp(st, s), t, c)
  {
  }

  lemma ServerRecvKeeps(st: State, s: SessionId, c: ConnId)
    requires Ready(st, s) && About(st, c)
    ensures About(DoServerRecv(st, s), c)
  {
    var m := st.sessions[s].up[0];
    if Routable(m) {
      RouteKeeps(st, s, m, c);
    } else {
      assert QueueInv(st, s, c) && m in st.sessions[s].up;
      var st1 := TakeUp(st, s);
      FrameTakeUp(st, s, c);
      FrameKeeps(st, st1, c);
      if m.Config? {
        FrameConfig(st1, s, m.client, m.mappings, c);
        FrameKeeps(st1, DoConfig(st1, s, m.client, m.mappings), c);
      } else if m.Takeover? {
        TakeoverKeeps(st1, s, m.client, m.mappings, m.newSession, c);
      }
    }
  }

  // ---------- the client's session loop ----------

  function TakeDown(st: State, s: SessionId): State
    requires ClientReady(st, s)
  {
    SetSession(st, s, st.sessions[s].(down := st.sessions[s].down[1..]))
  }

  lemma FrameTakeDown(st: State, s: SessionId, c: ConnId)
    requires ClientReady(st, s) && (Carries(st.sessions[s].down[0], c) ==> !Targets(st, c, s))
    ensures Frame(st, TakeDown(st, s), c)
  {
    SameQueue(st.sessions[s].up, c);
    PopOther(st.sessions[s].down, c, Targets(st, c, s));
    FrameOneSession(st, TakeDown(st, s), s, c);
  }

  /** The client leaves its loop, starts serving, or drops a registered connection. */
  lemma FrameClient(st: State, s: SessionId, phase: ClientPhase, local: set<ConnId>, c: ConnId)
    requires s in st.sessions && st.sessions[s].Running() && !phase.Waiting? && local <= st.sessions[s].local
    ensures Frame(st, SetSession(st, s, st.sessions[s].(phase := phase, local := local)), c)
  {
    SameQueue(st.sessions[s].up, c);
    SameQueue(st.sessions[s].down, c);
    FrameOneSession(st, SetSession(st, s, st.sessions[s].(phase := phase, local := local)), s, c);
  }

  lemma FramePushUp(st: State, s: SessionId, m: Message, c: ConnId)
    requires !Concerns(m, c)
    ensures Frame(st, PushUp(st, s, m), c)
  {
    if s in st.sessions {
      PushOther(st.sessions[s].up, m, c);
      SameQueue(st.sessions[s].down, c);
      SameQueue(st.sessions[s].up, c);
      FrameOneSession(st, PushUp(st, s, m), s, c);
    }
  }

  lemma FrameSetConn(st: State, b: ConnId, k: Conn, c: ConnId)
    requires b != c
    ensures Frame(st, SetConn(st, b, k), c)
  {
  }

  // ---------- a step of connection c seen from c ----------

  /** `c` moves to a phase from which it may still own the entries it has. */
  predicate PhaseKeeps(k: Conn, k': Conn) {
    && k'.port == k.port
    && (k'.phase != k.phase ==>
          && (k.phase.Registered? || k.phase.AwaitReady? || k.phase.Forwarding?)
          && (k'.phase.AwaitReady? || k'.phase.Forwarding? || k'.phase.CleanPending?))
  }

  lemma OwnEntries(st: State, st': State, c: ConnId)
    requires About(st, c) && c in st.conns && c in st'.conns && st'.listeners == st.listeners
    requires PhaseKeeps(st.conns[c], st'.conns[c])
    ensures forall p :: p in st'.listeners ==> EntryInv(st', p, c)
  {
    forall p | p in st'.listeners ensures EntryInv(st', p, c) { assert EntryInv(st, p, c); }
  }

  /** What the queue of a session may say about `c` after `c` itself has changed. */
  predicate TaskKeeps(k: Conn, k': Conn) {
    && (k'.target == k.target || k.target.None?)
    && (k'.reader.NotStarted? ==> k.reader.NotStarted?)
    && (k.task.Up? ==> k'.task.Up?)
    && (k.LocalRegistered() ==> k'.LocalRegistered())
    && (k.task.NoTask? ==> k'.task.NoTask?)
  }

  lemma OwnQueue(st: State, st': State, t: SessionId, c: ConnId)
    requires t in st.sessions && t in st'.sessions && QueueInv(st, t, c) && c in st.conns && c in st'.conns
    requires TaskKeeps(st.conns[c], st'.conns[c]) && st'.sessions[t] == st.sessions[t]
    ensures QueueInv(st', t, c)
  {
  }

  /** Steps that touch no queue and no port: only the connection's own record changes. */
  lemma OwnKeeps(st: State, c: ConnId, k': Conn)
    requires About(st, c) && c in st.conns
    requires PhaseKeeps(st.conns[c], k') && TaskKeeps(st.conns[c], k') && ConnInv(SetConn(st, c, k'), c)
    ensures About(SetConn(st, c, k'), c)
  {
    var st' := SetConn(st, c, k');
    OwnEntries(st, st', c);
    forall t | t in st'.sessions ensures QueueInv(st', t, c) { OwnQueue(st, st', t, c); }
  }

  lemma ReadFlow(f: Flow, d: Bytes)
    requires FlowOk(f, Idle)
    ensures var f' := f.(read := f.read + [d]);
            FlowOk(f', Holding(d)) && Offered(f'.read, Holding(d)) == Offered(f.read, Idle)
  {
    assert (f.read + [d])[..|f.read|] == f.read;
  }

  /** The flows differ at most in what was read or written. */
  predicate FlowMoves(f: Flow, r: Reader, f': Flow, r': Reader) {
    && f'.pushed == f.pushed && f'.popped == f.popped && f'.accepted == f.accepted
    && (f'.dead == f.dead || f'.dead)
    && FlowOk(f', r')
    && (Reads(r') ==> Reads(r) && Offered(f'.read, r') == Offered(f.read, r))
  }

  lemma UpMoves(st: State, c: ConnId, k': Conn)
    requires c in st.conns && UpInv(st, c)
    requires var k := st.conns[c];
             && FlowMoves(k.up, k.localReader, k'.up, k'.localReader)
             && k'.target == k.target && k'.port == k.port && k'.index == k.index
             && k'.missed == k.missed && k'.lateAt == k.lateAt
    ensures UpInv(SetConn(st, c, k'), c)
  {
  }

  lemma DownMoves(st: State, c: ConnId, k': Conn)
    requires c in st.conns && DownInv(st, c)
    requires var k := st.conns[c];
             && FlowMoves(k.down, k.reader, k'.down, k'.reader)
             && k'.target == k.target && k'.port == k.port
             && (k.LocalRegistered() ==> k'.LocalRegistered())
    ensures DownInv(SetConn(st, c, k'), c)
  {
  }

  predicate QuietHandler(h: HandlerStep) {
    h.Await? || h.ReadRemote? || h.EndRemote? || h.WriteRemote? || h.FailRemote? || h.DrainRemote? || h.Select?
  }

  lemma QuietHandlerMoves(st: State, c: ConnId, h: HandlerStep)
    requires HandlerEnabled(st, c, h) && QuietHandler(h)
    requires LifeInv(st, c) && FlowOk(st.conns[c].down, st.conns[c].reader)
    requires FlowOk(st.conns[c].up, st.conns[c].localReader)
    ensures var k, k' := st.conns[c], ApplyHandler(st, c, h).conns[c];
            && ApplyHandler(st, c, h) == SetConn(st, c, k')
            && FlowMoves(k.down, k.reader, k'.down, k'.reader) && FlowMoves(k.up, k.localReader, k'.up, k'.localReader)
            && LifeInv(ApplyHandler(st, c, h), c) && PhaseKeeps(k, k') && TaskKeeps(k, k')
  {
    if h.ReadRemote? { ReadFlow(st.conns[c].down, h.d); }
  }

  lemma QuietHandlerKeeps(st: State, c: ConnId, h: HandlerStep)
    requires HandlerEnabled(st, c, h) && QuietHandler(h) && About(st, c)
    ensures About(ApplyHandler(st, c, h), c)
  {
    assert ConnInv(st, c);
    QuietHandlerMoves(st, c, h);
    var k' := ApplyHandler(st, c, h).conns[c];
    UpMoves(st, c, k');
    DownMoves(st, c, k');
    OwnKeeps(st, c, k');
  }

  predicate QuietTask(t: TaskStep) {
    t.ReadLocal? || t.EndLocal? || t.WriteLocal? || t.FailLocal?
  }

  lemma QuietTaskMoves(st: State, c: ConnId, t: TaskStep)
    requires TaskEnabled(st, c, t) && QuietTask(t)
    requires LifeInv(st, c) && FlowOk(st.conns[c].down, st.conns[c].reader)
    requires FlowOk(st.conns[c].up, st.conns[c].localReader)
    ensures var k, k' := st.conns[c], ApplyTask(st, c, t).conns[c];
            && ApplyTask(st, c, t) == SetConn(st, c, k')
            && FlowMoves(k.down, k.reader, k'.down, k'.reader) && FlowMoves(k.up, k.localReader, k'.up, k'.localReader)
            && LifeInv(ApplyTask(st, c, t), c) && PhaseKeeps(k, k') && TaskKeeps(k, k')
  {
    if t.ReadLocal? { ReadFlow(st.conns[c].up, t.d); }
  }

  lemma QuietTaskKeeps(st: State, c: ConnId, t: TaskStep)
    requires TaskEnabled(st, c, t) && QuietTask(t) && About(st, c)
    ensures About(ApplyTask(st, c, t), c)
  {
    assert ConnInv(st, c);
    QuietTaskMoves(st, c, t);
    var k' := ApplyTask(st, c, t).conns[c];
    UpMoves(st, c, k');
    DownMoves(st, c, k');
    OwnKeeps(st, c, k');
  }

  // ---------- registration and cleanup of connection c ----------

  lemma AcceptKeeps(st: State, c: ConnId, p: Port)
    requires HandlerEnabled(st, c, Accept(p)) && About(st, c)
    ensures About(ApplyHandler(st, c, Accept(p)), c)
  {
    var st' := ApplyHandler(st, c, Accept(p));
    forall q | q in st'.listeners ensures EntryInv(st', q, c) { assert EntryInv(st, q, c); }
    forall t | t in st'.sessions ensures QueueInv(st', t, c) { assert QueueInv(st, t, c); }
  }

  predicate Registers(h: HandlerStep) {
    h.PutPending? || h.PutActive? || h.DropPending? || h.DropActive?
  }

  lemma RegisterEntry(st: State, c: ConnId, h: HandlerStep, p: Port)
    requires HandlerEnabled(st, c, h) && Registers(h) && p in st.listeners && EntryInv(st, p, c)
    ensures p in ApplyHandler(st, c, h).listeners && EntryInv(ApplyHandler(st, c, h), p, c)
  {
  }

  lemma RegisterLife(st: State, c: ConnId, h: HandlerStep)
    requires HandlerEnabled(st, c, h) && Registers(h) && LifeInv(st, c)
    ensures LifeInv(ApplyHandler(st, c, h), c)
  {
  }

  lemma RegisterDown(st: State, c: ConnId, h: HandlerStep)
    requires HandlerEnabled(st, c, h) && Registers(h) && DownInv(st, c)
    ensures DownInv(ApplyHandler(st, c, h), c)
  {
    DownSame(st, ApplyHandler(st, c, h), c);
  }

  lemma RegisterUp(st: State, c: ConnId, h: HandlerStep)
    requires HandlerEnabled(st, c, h) && Registers(h) && UpInv(st, c) && LifeInv(st, c)
    ensures UpInv(ApplyHandler(st, c, h), c)
  {
    var st' := ApplyHandler(st, c, h);
    assert UpToDate(st, c) && UpToDate(st', c);
  }

  lemma RegisterConn(st: State, c: ConnId, h: HandlerStep)
    requires HandlerEnabled(st, c, h) && Registers(h) && ConnInv(st, c)
    ensures ConnInv(ApplyHandler(st, c, h), c)
  {
    RegisterLife(st, c, h);
    RegisterDown(st, c, h);
    RegisterUp(st, c, h);
  }

  lemma RegisterKeeps(st: State, c: ConnId, h: HandlerStep)
    requires HandlerEnabled(st, c, h) && Registers(h) && About(st, c)
    ensures About(ApplyHandler(st, c, h), c)
  {
    var st' := ApplyHandler(st, c, h);
    assert ConnInv(st, c);
    RegisterConn(st, c, h);
    forall p | p in st'.listeners ensures EntryInv(st', p, c) { RegisterEntry(st, c, h, p); }
    forall t | t in st'.sessions ensures QueueInv(st', t, c) { OwnQueue(st, st', t, c); }
  }

  // ---------- sends of connection c to its session ----------

  /** What a connection may put on the downward queue of session `s`, given its new record. */
  predicate DownAllowed(m: Message, k: Conn, k': Conn, s: SessionId) {
    match m
    case Connect(_, _) => k.target.None? && k'.target == Some(s)
    case Data(_, _) => !k'.reader.NotStarted?
    case Close(_) => true
    case _ => false
  }

  lemma OwnPushDown(st: State, st': State, s: SessionId, m: Message, t: SessionId, c: ConnId)
    requires t in st.sessions && QueueInv(st, t, c) && c in st.conns && c in st'.conns && Concerns(m, c)
    requires st' == SetConn(PushDown(st, s, m), c, st'.conns[c])
    requires LifeInv(st, c) && TaskKeeps(st.conns[c], st'.conns[c]) && DownAllowed(m, st.conns[c], st'.conns[c], s)
    requires st'.conns[c].task == st.conns[c].task
    ensures t in st'.sessions && QueueInv(st', t, c)
  {
    if t == s { PushAt(st.sessions[s].down, m, c); }
  }

  lemma SendConnectLife(st: State, c: ConnId)
    requires HandlerEnabled(st, c, SendConnect) && LifeInv(st, c) && BindingInv(st)
    ensures LifeInv(DoSendConnect(st, c), c)
  {
    var k := st.conns[c];
    if CanSend(st, k.port) {
      assert Declared(st, st.listeners[k.port].bound.value.channel, st.listeners[k.port].bound.value.client);
    }
  }

  /** Before Connect is sent nothing about the connection is on the queues of a session. */
  lemma NothingQueued(st: State, c: ConnId, s: SessionId)
    requires c in st.conns && st.conns[c].target.None? && LifeInv(st, c) && s in st.sessions && QueueInv(st, s, c)
    ensures Datas(st.sessions[s].up, c) == [] && Datas(st.sessions[s].down, c) == [] && c !in st.sessions[s].local
  {
    NoneAt(st.sessions[s].up, c);
    NoneAt(st.sessions[s].down, c);
  }

  lemma SendConnectDown(st: State, c: ConnId)
    requires HandlerEnabled(st, c, SendConnect) && DownInv(st, c) && LifeInv(st, c)
    requires forall s :: s in st.sessions ==> QueueInv(st, s, c)
    ensures DownInv(DoSendConnect(st, c), c)
  {
    var k := st.conns[c];
    if CanSend(st, k.port) {
      var s := st.listeners[k.port].bound.value.channel;
      NothingQueued(st, c, s);
      PushAt(st.sessions[s].down, Connect(c, k.port), c);
    }
  }

  lemma SendConnectUp(st: State, c: ConnId)
    requires HandlerEnabled(st, c, SendConnect) && UpInv(st, c) && LifeInv(st, c)
    requires forall s :: s in st.sessions ==> QueueInv(st, s, c)
    ensures UpInv(DoSendConnect(st, c), c)
  {
    var k := st.conns[c];
    if CanSend(st, k.port) { NothingQueued(st, c, st.listeners[k.port].bound.value.channel); }
  }

  lemma SendConnectConn(st: State, c: ConnId)
    requires HandlerEnabled(st, c, SendConnect) && ConnInv(st, c) && BindingInv(st)
    requires forall s :: s in st.sessions ==> QueueInv(st, s, c)
    ensures ConnInv(DoSendConnect(st, c), c)
  {
    SendConnectLife(st, c);
    SendConnectDown(st, c);
    SendConnectUp(st, c);
  }

  lemma SendConnectQueue(st: State, c: ConnId, t: SessionId)
    requires HandlerEnabled(st, c, SendConnect) && LifeInv(st, c) && t in st.sessions && QueueInv(st, t, c)
    ensures t in DoSendConnect(st, c).sessions && QueueInv(DoSendConnect(st, c), t, c)
  {
    var k := st.conns[c];
    var st' := DoSendConnect(st, c);
    if CanSend(st, k.port) && Forwards(st, k.port, st.listeners[k.port].bound.value.channel) {
      OwnPushDown(st, st', st.listeners[k.port].bound.value.channel, Connect(c, k.port), t, c);
    } else {
      OwnQueue(st, st', t, c);
    }
  }

  lemma SendConnectEntry(st: State, c: ConnId, p: Port)
    requires HandlerEnabled(st, c, SendConnect) && p in st.listeners && EntryInv(st, p, c)
    ensures p in DoSendConnect(st, c).listeners && EntryInv(DoSendConnect(st, c), p, c)
  {
  }

  lemma SendConnectKeeps(st: State, c: ConnId)
    requires HandlerEnabled(st, c, SendConnect) && About(st, c) && BindingInv(st)
    ensures About(DoSendConnect(st, c), c)
  {
    var st' := DoSendConnect(st, c);
    assert ConnInv(st, c);
    SendConnectConn(st, c);
    forall p | p in st'.listeners ensures EntryInv(st', p, c) { SendConnectEntry(st, c, p); }
    forall t | t in st'.sessions ensures QueueInv(st', t, c) { SendConnectQueue(st, c, t); }
  }

  lemma SendDownRefused(st: State, c: ConnId)
    requires HandlerEnabled(st, c, SendDown) && DownInv(st, c) && !CanSend(st, st.conns[c].port)
    ensures DownInv(DoSendDown(st, c), c)
  {
    var k := st.conns[c];
    PrefixTrans(k.down.pushed, Offered(k.down.read, k.reader), k.down.read);
  }

  /** The chunk joins the queue of the connection's own session. */
  lemma SendDownPushed(st: State, c: ConnId, s: SessionId)
    requires HandlerEnabled(st, c, SendDown) && DownInv(st, c) && LifeInv(st, c)
    requires Forwards(st, st.conns[c].port, s) && Targets(st, c, s)
    ensures DownInv(DoSendDown(st, c), c)
  {
    var k := st.conns[c];
    var d := k.reader.data;
    var q := Datas(st.sessions[s].down, c);
    PushAt(st.sessions[s].down, Data(c, d), c);
    assert k.down.read == Offered(k.down.read, k.reader) + [d];
    assert k.down.popped + (q + [d]) == (k.down.popped + q) + [d];
  }

  /** The chunk goes to some other session, or to one that no longer forwards. */
  lemma SendDownElsewhere(st: State, c: ConnId, s: SessionId)
    requires HandlerEnabled(st, c, SendDown) && DownInv(st, c) && CanSend(st, st.conns[c].port)
    requires s == st.listeners[st.conns[c].port].bound.value.channel
    requires !(Forwards(st, st.conns[c].port, s) && Targets(st, c, s))
    ensures DownInv(DoSendDown(st, c), c)
  {
    var k := st.conns[c];
    var d := k.reader.data;
    PushAt(st.sessions[s].down, Data(c, d), c);
    PrefixTrans(k.down.pushed, Offered(k.down.read, k.reader), k.down.read);
  }

  lemma SendDownConn(st: State, c: ConnId)
    requires HandlerEnabled(st, c, SendDown) && DownInv(st, c) && LifeInv(st, c)
    ensures DownInv(DoSendDown(st, c), c)
  {
    var p := st.conns[c].port;
    if !CanSend(st, p) {
      SendDownRefused(st, c);
    } else {
      var s := st.listeners[p].bound.value.channel;
      if Forwards(st, p, s) && Targets(st, c, s) { SendDownPushed(st, c, s); } else { SendDownElsewhere(st, c, s); }
    }
  }

  lemma SendDownQueue(st: State, c: ConnId, t: SessionId)
    requires HandlerEnabled(st, c, SendDown) && LifeInv(st, c) && t in st.sessions && QueueInv(st, t, c)
    ensures t in DoSendDown(st, c).sessions && QueueInv(DoSendDown(st, c), t, c)
  {
    var k := st.conns[c];
    var st' := DoSendDown(st, c);
    if CanSend(st, k.port) {
      OwnPushDown(st, st', st.listeners[k.port].bound.value.channel, Data(c, k.reader.data), t, c);
    } else {
      OwnQueue(st, st', t, c);
    }
  }

  lemma SendDownShape(st: State, c: ConnId)
    requires HandlerEnabled(st, c, SendDown)
    ensures var st' := DoSendDown(st, c);
            && st'.listeners == st.listeners && st'.sessions.Keys == st.sessions.Keys
            && c in st'.conns && PhaseKeeps(st.conns[c], st'.conns[c])
  {
  }

  lemma SendDownQueues(st: State, c: ConnId)
    requires HandlerEnabled(st, c, SendDown) && LifeInv(st, c)
    requires forall t :: t in st.sessions ==> QueueInv(st, t, c)
    ensures forall t :: t in DoSendDown(st, c).sessions ==> QueueInv(DoSendDown(st, c), t, c)
  {
    SendDownShape(st, c);
    forall t | t in DoSendDown(st, c).sessions ensures QueueInv(DoSendDown(st, c), t, c) { SendDownQueue(st, c, t); }
  }

  lemma SendDownKeeps(st: State, c: ConnId)
    requires HandlerEnabled(st, c, SendDown) && About(st, c)
    ensures About(DoSendDown(st, c), c)
  {
    assert ConnInv(st, c);
    SendDownShape(st, c);
    SendDownConn(st, c);
    SendDownOthers(st, c);
    OwnEntries(st, DoSendDown(st, c), c);
    SendDownQueues(st, c);
  }

  lemma SendDownOthers(st: State, c: ConnId)
    requires HandlerEnabled(st, c, SendDown) && LifeInv(st, c) && UpInv(st, c)
    ensures LifeInv(DoSendDown(st, c), c) && UpInv(DoSendDown(st, c), c)
  {
  }

  lemma CloseDownKeeps(st: State, c: ConnId)
    requires HandlerEnabled(st, c, CloseDown) && About(st, c)
    ensures About(ApplyHandler(st, c, CloseDown), c)
  {
    var k := st.conns[c];
    var st' := ApplyHandler(st, c, CloseDown);
    assert ConnInv(st, c);
    CloseDownConn(st, c);
    OwnEntries(st, st', c);
    forall t | t in st'.sessions ensures QueueInv(st', t, c) {
      if CanSend(st, k.port) {
        OwnPushDown(st, st', st.listeners[k.port].bound.value.channel, Close(c), t, c);
      } else {
        OwnQueue(st, st', t, c);
      }
    }
  }

  /** A message without data leaves what is popped and queued as it was. */
  lemma PushDownDown(st: State, s: SessionId, m: Message, c: ConnId)
    requires c in st.conns && DownInv(st, c) && !Carries(m, c)
    ensures DownInv(PushDown(st, s, m), c)
  {
    if st.conns[c].target.Some? && st.conns[c].target.value in st.sessions {
      PushedSession(st, s, m, st.conns[c].target.value, c);
    }
  }

  lemma PushedSession(st: State, s: SessionId, m: Message, t: SessionId, c: ConnId)
    requires t in st.sessions && !Carries(m, c)
    ensures t in PushDown(st, s, m).sessions
    ensures var e, e' := st.sessions[t], PushDown(st, s, m).sessions[t];
            Datas(e'.down, c) == Datas(e.down, c) && e'.server == e.server && e'.local == e.local
  {
    var e, e' := st.sessions[t], PushDown(st, s, m).sessions[t];
    if e'.down != e.down {
      assert e'.down == e.down + [m];
      PushAt(e.down, m, c);
    }
  }

  lemma CloseDownDown(st: State, c: ConnId)
    requires HandlerEnabled(st, c, CloseDown) && DownInv(st, c)
    ensures DownInv(ApplyHandler(st, c, CloseDown), c)
  {
    var k := st.conns[c];
    var k' := k.(reader := Done);
    DownMoves(st, c, k');
    var st1 := SetConn(st, c, k');
    if CanSend(st, k.port) {
      var s := st.listeners[k.port].bound.value.channel;
      PushDownDown(st1, s, Close(c), c);
      assert ApplyHandler(st, c, CloseDown) == PushDown(st1, s, Close(c));
    }
  }

  lemma CloseDownOthers(st: State, c: ConnId)
    requires HandlerEnabled(st, c, CloseDown) && LifeInv(st, c) && UpInv(st, c)
    ensures LifeInv(ApplyHandler(st, c, CloseDown), c) && UpInv(ApplyHandler(st, c, CloseDown), c)
  {
  }

  lemma CloseDownConn(st: State, c: ConnId)
    requires HandlerEnabled(st, c, CloseDown) && ConnInv(st, c)
    ensures ConnInv(ApplyHandler(st, c, CloseDown), c)
  {
    CloseDownDown(st, c);
    CloseDownOthers(st, c);
  }

  // ---------- the client's task for connection c ----------

  /** What a connection may put on the upward queue of its session. */
  predicate UpAllowed(m: Message, k': Conn) {
    match m
    case Connected(_) => k'.task.Up?
    case ConnectFailed(_) => true
    case Data(_, _) => true
    case Close(_) => true
    case _ => false
  }

  lemma OwnPushUp(st: State, st': State, s: SessionId, m: Message, t: SessionId, c: ConnId)
    requires t in st.sessions && QueueInv(st, t, c) && c in st.conns && c in st'.conns && Concerns(m, c)
    requires st' == PushUp(SetConn(st, c, st'.conns[c]), s, m)
    requires Targets(st', c, s) && UpAllowed(m, st'.conns[c])
    requires TaskKeeps(st.conns[c], st'.conns[c]) || (TaskStarts(st.conns[c], st'.conns[c]) && Connects(st.sessions[t].down, c) == 0)
    ensures t in st'.sessions && QueueInv(st', t, c)
  {
    if t == s { PushAt(st.sessions[s].up, m, c); }
  }

  /** The connect task starts, or is refused at once for want of a mapping. */
  predicate TaskStarts(k: Conn, k': Conn) {
    && k.task.NoTask? && (k'.task.Connecting? || k'.task.Failed?)
    && k' == k.(task := k'.task)
  }

  predicate SendsUp(t: TaskStep) {
    t.LocalRefused? || t.SendConnected? || t.CloseUp?
  }

  /** The new record of `c` and the message sent by a sending task step. */
  function Sent(k: Conn, c: ConnId, t: TaskStep): (Conn, Message)
    requires SendsUp(t)
  {
    match t
    case LocalRefused => (k.(task := Failed), ConnectFailed(c))
    case SendConnected => (k.(task := Up, localReader := Idle), Connected(c))
    case _ => (k.(localReader := Removing), Close(c))
  }

  lemma SendsUpShape(st: State, c: ConnId, t: TaskStep)
    requires TaskEnabled(st, c, t) && SendsUp(t)
    ensures var (k', m) := Sent(st.conns[c], c, t);
            && ApplyTask(st, c, t) == PushUp(SetConn(st, c, k'), st.conns[c].target.value, m)
            && TaskKeeps(st.conns[c], k') && PhaseKeeps(st.conns[c], k') && UpAllowed(m, k')
            && Concerns(m, c) && !Carries(m, c) && k'.target == st.conns[c].target
  {
  }

  lemma SendsUpLife(st: State, c: ConnId, t: TaskStep)
    requires TaskEnabled(st, c, t) && SendsUp(t) && LifeInv(st, c)
    ensures LifeInv(ApplyTask(st, c, t), c)
  {
  }

  /** A message without data leaves what is popped and queued as it was. */
  lemma PushUpUp(st: State, s: SessionId, m: Message, c: ConnId)
    requires c in st.conns && UpInv(st, c) && !Carries(m, c)
    ensures UpInv(PushUp(st, s, m), c)
  {
    if s in st.sessions { PushAt(st.sessions[s].up, m, c); }
  }

  lemma SendsUpFlow(st: State, c: ConnId, t: TaskStep)
    requires TaskEnabled(st, c, t) && SendsUp(t) && LifeInv(st, c) && FlowOk(st.conns[c].up, st.conns[c].localReader)
    ensures var k, k' := st.conns[c], Sent(st.conns[c], c, t).0;
            && FlowMoves(k.up, k.localReader, k'.up, k'.localReader)
            && k'.target == k.target && k'.port == k.port && k'.index == k.index
            && k'.missed == k.missed && k'.lateAt == k.lateAt
  {
  }

  lemma SendsUpUp(st: State, c: ConnId, t: TaskStep)
    requires TaskEnabled(st, c, t) && SendsUp(t) && UpInv(st, c) && LifeInv(st, c)
    ensures UpInv(ApplyTask(st, c, t), c)
  {
    var (k', m) := Sent(st.conns[c], c, t);
    SendsUpShape(st, c, t);
    SendsUpFlow(st, c, t);
    UpMoves(st, c, k');
    PushUpUp(SetConn(st, c, k'), st.conns[c].target.value, m, c);
  }

  /** The upward queue has no part in what goes down. */
  lemma PushUpDown(st: State, s: SessionId, m: Message, c: ConnId)
    requires c in st.conns && DownInv(st, c)
    ensures DownInv(PushUp(st, s, m), c)
  {
  }

  lemma SendsUpDown(st: State, c: ConnId, t: TaskStep)
    requires TaskEnabled(st, c, t) && SendsUp(t) && DownInv(st, c)
    ensures DownInv(ApplyTask(st, c, t), c)
  {
    var (k', m) := Sent(st.conns[c], c, t);
    SendsUpShape(st, c, t);
    DownMoves(st, c, k');
    PushUpDown(SetConn(st, c, k'), st.conns[c].target.value, m, c);
  }

  lemma SendsUpQueue(st: State, c: ConnId, t: TaskStep, u: SessionId)
    requires TaskEnabled(st, c, t) && SendsUp(t) && u in st.sessions && QueueInv(st, u, c)
    ensures u in ApplyTask(st, c, t).sessions && QueueInv(ApplyTask(st, c, t), u, c)
  {
    SendsUpShape(st, c, t);
    OwnPushUp(st, ApplyTask(st, c, t), st.conns[c].target.value, Sent(st.conns[c], c, t).1, u, c);
  }

  lemma SendsUpKeeps(st: State, c: ConnId, t: TaskStep)
    requires TaskEnabled(st, c, t) && SendsUp(t) && About(st, c)
    ensures About(ApplyTask(st, c, t), c)
  {
    var st' := ApplyTask(st, c, t);
    assert ConnInv(st, c);
    SendsUpShape(st, c, t);
    SendsUpLife(st, c, t);
    SendsUpDown(st, c, t);
    SendsUpUp(st, c, t);
    OwnEntries(st, st', c);
    forall u | u in st'.sessions ensures QueueInv(st', u, c) { SendsUpQueue(st, c, t, u); }
  }

  /** The held chunk is pushed, or dropped because nothing is forwarded any more. */
  lemma PushUpFlow(e: Session, e': Session, k: Conn, k': Conn, c: ConnId)
    requires k.localReader.Holding? && FlowOk(k.up, k.localReader) && QueuedUp(e, k, c)
    requires e'.phase == e.phase && (e.Running() || e'.up == e.up)
    requires e.Running() ==> e'.up == e.up + [Data(c, k.localReader.data)] && k'.localReader.Idle?
    requires !e.Running() ==> k'.localReader.Idle? || k'.localReader.Ending?
    requires k'.up == if e.Running() then k.up.(pushed := k.up.pushed + [k.localReader.data]) else k.up
    ensures QueuedUp(e', k', c) && FlowOk(k'.up, k'.localReader)
  {
    var d := k.localReader.data;
    assert k.up.read == Offered(k.up.read, k.localReader) + [d];
    PushAt(e.up, Data(c, d), c);
    if e.Running() {
      assert k.up.popped + (Datas(e.up, c) + [d]) == (k.up.popped + Datas(e.up, c)) + [d];
    } else {
      PrefixTrans(k.up.pushed, Offered(k.up.read, k.localReader), k.up.read);
    }
  }

  lemma SendUpConn(st: State, c: ConnId, fails: bool)
    requires TaskEnabled(st, c, SendUp(fails)) && UpInv(st, c)
    ensures UpInv(DoSendUp(st, c, fails), c)
  {
    var k := st.conns[c];
    var s := k.target.value;
    var st' := DoSendUp(st, c, fails);
    PushUpFlow(st.sessions[s], st'.sessions[s], k, st'.conns[c], c);
  }

  lemma SendUpOthers(st: State, c: ConnId, fails: bool)
    requires TaskEnabled(st, c, SendUp(fails)) && LifeInv(st, c) && DownInv(st, c)
    ensures LifeInv(DoSendUp(st, c, fails), c) && DownInv(DoSendUp(st, c, fails), c)
  {
    DownSame(st, DoSendUp(st, c, fails), c);
  }

  lemma SendUpKeeps(st: State, c: ConnId, fails: bool)
    requires TaskEnabled(st, c, SendUp(fails)) && About(st, c)
    ensures About(DoSendUp(st, c, fails), c)
  {
    var k := st.conns[c];
    var st' := DoSendUp(st, c, fails);
    assert ConnInv(st, c);
    SendUpConn(st, c, fails);
    SendUpOthers(st, c, fails);
    OwnEntries(st, st', c);
    forall u | u in st'.sessions ensures QueueInv(st', u, c) {
      if fails {
        OwnQueue(st, st', u, c);
      } else {
        OwnPushUp(st, st', k.target.value, Data(c, k.localReader.data), u, c);
      }
    }
  }

  predicate Registry(t: TaskStep) {
    t.LocalConnected? || t.RemoveLocal?
  }

  lemma RegistryConn(st: State, c: ConnId, t: TaskStep)
    requires TaskEnabled(st, c, t) && Registry(t) && ConnInv(st, c)
    ensures ConnInv(ApplyTask(st, c, t), c)
  {
    RegistryLife(st, c, t);
    RegistryDown(st, c, t);
    RegistryUp(st, c, t);
  }

  lemma RegistryLife(st: State, c: ConnId, t: TaskStep)
    requires TaskEnabled(st, c, t) && Registry(t) && LifeInv(st, c)
    ensures LifeInv(ApplyTask(st, c, t), c)
  {
  }

  lemma RegistryDown(st: State, c: ConnId, t: TaskStep)
    requires TaskEnabled(st, c, t) && Registry(t) && DownInv(st, c)
    ensures DownInv(ApplyTask(st, c, t), c)
  {
  }

  lemma RegistryUp(st: State, c: ConnId, t: TaskStep)
    requires TaskEnabled(st, c, t) && Registry(t) && UpInv(st, c)
    ensures UpInv(ApplyTask(st, c, t), c)
  {
  }

  lemma RegistryKeeps(st: State, c: ConnId, t: TaskStep)
    requires TaskEnabled(st, c, t) && Registry(t) && About(st, c)
    ensures About(ApplyTask(st, c, t), c)
  {
    var st' := ApplyTask(st, c, t);
    assert ConnInv(st, c);
    RegistryConn(st, c, t);
    OwnEntries(st, st', c);
    forall u | u in st'.sessions ensures QueueInv(st', u, c) { RegistryQueue(st, c, t, u); }
  }

  lemma RegistryQueue(st: State, c: ConnId, t: TaskStep, u: SessionId)
    requires TaskEnabled(st, c, t) && Registry(t) && u in st.sessions && QueueInv(st, u, c)
    ensures u in ApplyTask(st, c, t).sessions && QueueInv(ApplyTask(st, c, t), u, c)
  {
  }

  // ---------- the client's session handles a message about c ----------

  lemma ServeConnectQueue(st: State, s: SessionId, p: Port, t: SessionId, c: ConnId)
    requires s in st.sessions && Targets(st, c, s) && st.conns[c].task.NoTask?
    requires t in st.sessions && QueueInv(st, t, c) && Connects(st.sessions[t].down, c) == 0
    ensures t in DoServe(st, s, Connect(c, p)).sessions && QueueInv(DoServe(st, s, Connect(c, p)), t, c)
  {
    if !Maps(st.sessions[s].mappings, p) {
      OwnPushUp(st, DoServe(st, s, Connect(c, p)), s, ConnectFailed(c), t, c);
    }
  }

  lemma ServeConnectShape(st: State, s: SessionId, p: Port, c: ConnId)
    requires s in st.sessions && c in st.conns
    ensures var st' := DoServe(st, s, Connect(c, p));
            && st'.listeners == st.listeners && st'.sessions.Keys == st.sessions.Keys
            && c in st'.conns && PhaseKeeps(st.conns[c], st'.conns[c])
  {
  }

  lemma ServeConnectConn(st: State, s: SessionId, p: Port, c: ConnId)
    requires s in st.sessions && Targets(st, c, s) && st.conns[c].task.NoTask? && !st.sessions[s].phase.Waiting?
    requires ConnInv(st, c)
    ensures c in DoServe(st, s, Connect(c, p)).conns && ConnInv(DoServe(st, s, Connect(c, p)), c)
  {
    ServeConnectLife(st, s, p, c);
    ServeConnectDown(st, s, p, c);
    ServeConnectUp(st, s, p, c);
  }

  lemma ServeConnect(st: State, s: SessionId, p: Port, c: ConnId)
    requires s in st.sessions && About(st, c)
    requires Targets(st, c, s) && st.conns[c].task.NoTask? && !st.sessions[s].phase.Waiting?
    requires forall t :: t in st.sessions ==> Connects(st.sessions[t].down, c) == 0
    ensures About(DoServe(st, s, Connect(c, p)), c)
  {
    var st' := DoServe(st, s, Connect(c, p));
    assert ConnInv(st, c);
    ServeConnectShape(st, s, p, c);
    ServeConnectConn(st, s, p, c);
    OwnEntries(st, st', c);
    ServeConnectQueues(st, s, p, c);
  }

  lemma ServeConnectQueues(st: State, s: SessionId, p: Port, c: ConnId)
    requires s in st.sessions && Targets(st, c, s) && st.conns[c].task.NoTask?
    requires forall t :: t in st.sessions ==> QueueInv(st, t, c) && Connects(st.sessions[t].down, c) == 0
    ensures var st' := DoServe(st, s, Connect(c, p));
            forall t :: t in st'.sessions ==> QueueInv(st', t, c)
  {
    var st' := DoServe(st, s, Connect(c, p));
    ServeConnectShape(st, s, p, c);
    forall t | t in st'.sessions ensures QueueInv(st', t, c) { ServeConnectQueue(st, s, p, t, c); }
  }

  lemma ServeConnectLife(st: State, s: SessionId, p: Port, c: ConnId)
    requires s in st.sessions && Targets(st, c, s) && st.conns[c].task.NoTask? && LifeInv(st, c)
    requires !st.sessions[s].phase.Waiting?
    ensures c in DoServe(st, s, Connect(c, p)).conns && LifeInv(DoServe(st, s, Connect(c, p)), c)
  {
  }

  lemma ServeConnectDown(st: State, s: SessionId, p: Port, c: ConnId)
    requires s in st.sessions && Targets(st, c, s) && st.conns[c].task.NoTask? && DownInv(st, c)
    ensures c in DoServe(st, s, Connect(c, p)).conns && DownInv(DoServe(st, s, Connect(c, p)), c)
  {
    var k' := st.conns[c].(task := if Maps(st.sessions[s].mappings, p) then Connecting else Failed);
    DownMoves(st, c, k');
    PushUpDown(SetConn(st, c, k'), s, ConnectFailed(c), c);
  }

  lemma ServeConnectUp(st: State, s: SessionId, p: Port, c: ConnId)
    requires s in st.sessions && Targets(st, c, s) && UpInv(st, c)
    ensures c in DoServe(st, s, Connect(c, p)).conns && UpInv(DoServe(st, s, Connect(c, p)), c)
  {
    var k' := st.conns[c].(task := if Maps(st.sessions[s].mappings, p) then Connecting else Failed);
    UpMoves(st, c, k');
    PushUpUp(SetConn(st, c, k'), s, ConnectFailed(c), c);
  }

  /** The chunk at the head of the queue of `c`'s session joins `popped`, and `accepted` where `c` is registered. */
  lemma TakeDataFlow(e: Session, e': Session, k: Conn, d: Bytes, c: ConnId)
    requires e.down != [] && e.down[0] == Data(c, d) && e' == e.(down := e.down[1..])
    requires QueuedDown(e, k, c) && Prefix(k.down.accepted, k.down.popped)
    ensures var popped := k.down.(popped := k.down.popped + [d]);
            var k' := k.(down := if c in e.local then popped.Accept(d) else popped);
            QueuedDown(e', k', c) && Prefix(k'.down.accepted, k'.down.popped)
            && Prefix(k.down.accepted, k'.down.accepted)
  {
    PopAt(e.down, c);
    assert (k.down.popped + [d]) + Datas(e.down[1..], c) == k.down.popped + Datas(e.down, c);
  }

  lemma TakeDataDown(st: State, s: SessionId, d: Bytes, c: ConnId)
    requires ClientReady(st, s) && st.sessions[s].down[0] == Data(c, d) && Targets(st, c, s) && DownInv(st, c)
    ensures DownInv(DoServe(TakeDown(st, s), s, Data(c, d)), c)
  {
    var st' := DoServe(TakeDown(st, s), s, Data(c, d));
    TakeDataFlow(st.sessions[s], st'.sessions[s], st.conns[c], d, c);
    DownTakes(st, st', s, c);
  }

  /** Between queue and connection only the chunk at the head has moved. */
  lemma DownTakes(st: State, st': State, s: SessionId, c: ConnId)
    requires Targets(st, c, s) && DownInv(st, c) && s in st.sessions && s in st'.sessions && c in st'.conns
    requires var k, k' := st.conns[c], st'.conns[c];
             && k' == k.(down := k'.down) && k'.down.read == k.down.read && k'.down.pushed == k.down.pushed
             && FlowOk(k'.down, k.reader) && Prefix(k'.down.accepted, k'.down.popped)
             && QueuedDown(st'.sessions[s], k', c)
    requires st'.listeners == st.listeners && st'.sessions[s].server == st.sessions[s].server
    ensures DownInv(st', c)
  {
  }

  lemma TakeDataOthers(st: State, s: SessionId, d: Bytes, c: ConnId)
    requires ClientReady(st, s) && st.sessions[s].down[0] == Data(c, d) && Targets(st, c, s)
    requires LifeInv(st, c) && UpInv(st, c)
    ensures LifeInv(DoServe(TakeDown(st, s), s, Data(c, d)), c) && UpInv(DoServe(TakeDown(st, s), s, Data(c, d)), c)
  {
  }

  lemma TakeDataConn(st: State, s: SessionId, d: Bytes, c: ConnId)
    requires ClientReady(st, s) && st.sessions[s].down[0] == Data(c, d) && Targets(st, c, s) && ConnInv(st, c)
    ensures ConnInv(DoServe(TakeDown(st, s), s, Data(c, d)), c)
  {
    TakeDataDown(st, s, d, c);
    TakeDataOthers(st, s, d, c);
  }

  lemma TakenDown(st: State, s: SessionId, t: SessionId, c: ConnId)
    requires ClientReady(st, s) && t in st.sessions && QueueInv(st, t, c)
    ensures QueueInv(TakeDown(st, s), t, c)
  {
    PopAt(st.sessions[s].down, c);
  }

  lemma TakeDataQueue(st: State, s: SessionId, d: Bytes, c: ConnId, t: SessionId)
    requires ClientReady(st, s) && st.sessions[s].down[0] == Data(c, d) && Targets(st, c, s)
    requires t in st.sessions && QueueInv(st, t, c)
    ensures t in DoServe(TakeDown(st, s), s, Data(c, d)).sessions && QueueInv(DoServe(TakeDown(st, s), s, Data(c, d)), t, c)
  {
    TakenDown(st, s, t, c);
    OwnQueue(TakeDown(st, s), DoServe(TakeDown(st, s), s, Data(c, d)), t, c);
  }

  lemma TakeDataEntry(st: State, s: SessionId, d: Bytes, c: ConnId, p: Port)
    requires ClientReady(st, s) && Targets(st, c, s) && p in st.listeners && EntryInv(st, p, c)
    ensures p in DoServe(TakeDown(st, s), s, Data(c, d)).listeners && EntryInv(DoServe(TakeDown(st, s), s, Data(c, d)), p, c)
  {
  }

  lemma TakeDataShape(st: State, s: SessionId, d: Bytes, c: ConnId)
    requires ClientReady(st, s)
    ensures var st' := DoServe(TakeDown(st, s), s, Data(c, d));
            st'.listeners == st.listeners && st'.sessions.Keys == st.sessions.Keys && st'.conns.Keys == st.conns.Keys
  {
  }

  lemma TakeDataQueues(st: State, s: SessionId, d: Bytes, c: ConnId)
    requires ClientReady(st, s) && st.sessions[s].down[0] == Data(c, d) && Targets(st, c, s)
    requires forall t :: t in st.sessions ==> QueueInv(st, t, c)
    ensures var st' := DoServe(TakeDown(st, s), s, Data(c, d)); forall t :: t in st'.sessions ==> QueueInv(st', t, c)
  {
    var st' := DoServe(TakeDown(st, s), s, Data(c, d));
    TakeDataShape(st, s, d, c);
    forall t | t in st'.sessions ensures QueueInv(st', t, c) { TakeDataQueue(st, s, d, c, t); }
  }

  lemma TakeDataEntries(st: State, s: SessionId, d: Bytes, c: ConnId)
    requires ClientReady(st, s) && Targets(st, c, s) && forall p :: p in st.listeners ==> EntryInv(st, p, c)
    ensures var st' := DoServe(TakeDown(st, s), s, Data(c, d)); forall p :: p in st'.listeners ==> EntryInv(st', p, c)
  {
    var st' := DoServe(TakeDown(st, s), s, Data(c, d));
    TakeDataShape(st, s, d, c);
    forall p | p in st'.listeners ensures EntryInv(st', p, c) { TakeDataEntry(st, s, d, c, p); }
  }

  lemma TakeDataKeeps(st: State, s: SessionId, d: Bytes, c: ConnId)
    requires ClientReady(st, s) && st.sessions[s].down[0] == Data(c, d) && Targets(st, c, s) && About(st, c)
    ensures About(DoServe(TakeDown(st, s), s, Data(c, d)), c)
  {
    assert ConnInv(st, c);
    TakeDataShape(st, s, d, c);
    TakeDataConn(st, s, d, c);
    TakeDataEntries(st, s, d, c);
    TakeDataQueues(st, s, d, c);
  }

  /** While waiting for TakeoverReady nothing is registered, so no chunk of the session's own connections comes. */
  lemma WaitData(st: State, s: SessionId, c: ConnId)
    requires ClientReady(st, s) && st.sessions[s].phase.Waiting?
    requires QueueInv(st, s, c) && Targets(st, c, s) && LifeInv(st, c)
    ensures !Carries(st.sessions[s].down[0], c)
  {
  }

  lemma WaitFrame(st: State, s: SessionId, c: ConnId)
    requires ClientReady(st, s) && st.sessions[s].phase.Waiting?
    requires Carries(st.sessions[s].down[0], c) ==> !Targets(st, c, s)
    ensures Frame(TakeDown(st, s), DoClientRecv(st, s), c)
  {
    var m := st.sessions[s].down[0];
    var st1 := TakeDown(st, s);
    if m.TakeoverReady? && m.session == st.sessions[s].phase.session {
      FrameClient(st1, s, Serving(true), st1.sessions[s].local, c);
    } else if m.TakeoverFailed? {
      FrameClient(st1, s, Ended, st1.sessions[s].local, c);
    } else if m.Data? && m.conn in st.conns && st.conns[m.conn].target == Some(s) {
      FrameSetConn(st1, m.conn, DoClientRecv(st, s).conns[m.conn], c);
    }
  }

  lemma WaitOther(st: State, s: SessionId, c: ConnId)
    requires ClientReady(st, s) && st.sessions[s].phase.Waiting?
    requires Carries(st.sessions[s].down[0], c) ==> !Targets(st, c, s)
    requires About(TakeDown(st, s), c)
    ensures About(DoClientRecv(st, s), c)
  {
    WaitFrame(st, s, c);
    FrameKeeps(TakeDown(st, s), DoClientRecv(st, s), c);
  }

  lemma ServeOther(st: State, s: SessionId, m: Message, c: ConnId)
    requires s in st.sessions && st.sessions[s].phase.Serving? && About(st, c)
    requires (m.Connect? ==> m.conn != c) && (Carries(m, c) ==> !Targets(st, c, s))
    ensures About(DoServe(st, s, m), c)
  {
    match m
    case Connect(b, p) =>
      if b in st.conns {
        var st1 := SetConn(st, b, st.conns[b].(task := if Maps(st.sessions[s].mappings, p) then Connecting else Failed));
        FrameSetConn(st, b, st1.conns[b], c);
        FrameKeeps(st, st1, c);
        FramePushUp(st1, s, ConnectFailed(b), c);
        FrameKeeps(st1, PushUp(st1, s, ConnectFailed(b)), c);
      }
    case Data(b, d) =>
      if b in st.conns && st.conns[b].target == Some(s) {
        FrameSetConn(st, b, DoServe(st, s, m).conns[b], c);
        FrameKeeps(st, DoServe(st, s, m), c);
      }
    case Close(b) =>
      FrameClient(st, s, st.sessions[s].phase, st.sessions[s].local - {b}, c);
      FrameKeeps(st, DoServe(st, s, m), c);
    case _ =>
  }

  lemma ConnectTaken(st: State, s: SessionId, p: Port, c: ConnId, t: SessionId)
    requires ClientReady(st, s) && st.sessions[s].down[0] == Connect(c, p)
    requires QueueInv(st, s, c) && t in st.sessions && QueueInv(st, t, c)
    ensures Connects(TakeDown(st, s).sessions[t].down, c) == 0
  {
    PopAt(st.sessions[s].down, c);
  }

  /** A Connect at the head of a queue is the only one for its connection, and its session is the target. */
  lemma OnlyConnect(st: State, s: SessionId, p: Port, c: ConnId)
    requires ClientReady(st, s) && st.sessions[s].down[0] == Connect(c, p) && About(st, c)
    ensures Targets(st, c, s) && st.conns[c].task.NoTask?
    ensures forall t :: t in st.sessions ==> Connects(TakeDown(st, s).sessions[t].down, c) == 0
  {
    PopAt(st.sessions[s].down, c);
    assert QueueInv(st, s, c);
    forall t | t in st.sessions ensures Connects(TakeDown(st, s).sessions[t].down, c) == 0 {
      ConnectTaken(st, s, p, c, t);
    }
  }

  lemma ClientRecvKeeps(st: State, s: SessionId, c: ConnId)
    requires ClientReady(st, s) && About(st, c)
    ensures About(DoClientRecv(st, s), c)
  {
    var m := st.sessions[s].down[0];
    var st1 := TakeDown(st, s);
    if st.sessions[s].phase.Waiting? {
      if Targets(st, c, s) { WaitData(st, s, c); }
      FrameTakeDown(st, s, c);
      FrameKeeps(st, st1, c);
      WaitOther(st, s, c);
    } else {
      ServingRecv(st, s, c);
    }
  }

  lemma ServingRecv(st: State, s: SessionId, c: ConnId)
    requires ClientReady(st, s) && About(st, c) && !st.sessions[s].phase.Waiting?
    ensures About(DoClientRecv(st, s), c)
  {
    var m := st.sessions[s].down[0];
    var st1 := TakeDown(st, s);
    if Carries(m, c) && Targets(st, c, s) {
      TakeDataKeeps(st, s, m.data, c);
    } else {
      FrameTakeDown(st, s, c);
      FrameKeeps(st, st1, c);
      if m.Connect? && m.conn == c {
        OnlyConnect(st, s, m.remotePort, c);
        ServeConnect(st1, s, m.remotePort, c);
      } else {
        ServedOther(st, s, c);
      }
    }
  }

  lemma ServedOther(st: State, s: SessionId, c: ConnId)
    requires ClientReady(st, s) && About(TakeDown(st, s), c) && !st.sessions[s].phase.Waiting?
    requires var m := st.sessions[s].down[0]; (m.Connect? ==> m.conn != c) && (Carries(m, c) ==> !Targets(st, c, s))
    ensures About(DoClientRecv(st, s), c)
  {
    var m := st.sessions[s].down[0];
    var st1 := TakeDown(st, s);
    if m.TakeoverComplete? && !st.sessions[s].phase.takeover {
      ExitFrame(st, s, c);
      FrameKeeps(st1, DoClientRecv(st, s), c);
    } else {
      ServeOther(st1, s, m, c);
    }
  }

  lemma ExitFrame(st: State, s: SessionId, c: ConnId)
    requires ClientReady(st, s) && st.sessions[s].phase == Serving(false) && st.sessions[s].down[0].TakeoverComplete?
    ensures Frame(TakeDown(st, s), DoClientRecv(st, s), c)
  {
    FrameClient(TakeDown(st, s), s, Exited(st.sessions[s].down[0].newSession), {}, c);
  }

  // ---------- one step, any connection ----------

  lemma HandlerSelf(st: State, c: ConnId, h: HandlerStep)
    requires HandlerEnabled(st, c, h) && About(st, c) && BindingInv(st)
    ensures About(ApplyHandler(st, c, h), c)
  {
    match h
    case Accept(p) => AcceptKeeps(st, c, p);
    case SendConnect => SendConnectKeeps(st, c);
    case SendDown => SendDownKeeps(st, c);
    case CloseDown => CloseDownKeeps(st, c);
    case _ => if Registers(h) { RegisterKeeps(st, c, h); } else { QuietHandlerKeeps(st, c, h); }
  }

  lemma TaskSelf(st: State, c: ConnId, t: TaskStep)
    requires TaskEnabled(st, c, t) && About(st, c)
    ensures About(ApplyTask(st, c, t), c)
  {
    if QuietTask(t) { QuietTaskKeeps(st, c, t); }
    else if Registry(t) { RegistryKeeps(st, c, t); }
    else if SendsUp(t) { SendsUpKeeps(st, c, t); }
    else { SendUpKeeps(st, c, t.fails); }
  }

  predicate SendsDown(h: HandlerStep) { h.SendConnect? || h.SendDown? || h.CloseDown? }

  function SentDown(k: Conn, b: ConnId, h: HandlerStep): Message
    requires SendsDown(h) && (h.SendDown? ==> k.reader.Holding?)
  {
    match h
    case SendConnect => Connect(b, k.port)
    case SendDown => Data(b, k.reader.data)
    case _ => Close(b)
  }

  lemma SendFrame(st: State, p: Port, m: Message, c: ConnId)
    requires !Concerns(m, c)
    ensures Frame(st, SendToClient(st, p, m), c)
  {
    if CanSend(st, p) { FramePushDown(st, st.listeners[p].bound.value.channel, m, c); }
  }

  lemma SendsDownShape(st: State, b: ConnId, h: HandlerStep)
    requires HandlerEnabled(st, b, h) && SendsDown(h)
    ensures var st' := ApplyHandler(st, b, h);
            && b in st'.conns
            && st' == SetConn(if h.SendConnect? && !CanSend(st, st.conns[b].port) then st
                              else SendToClient(st, st.conns[b].port, SentDown(st.conns[b], b, h)), b, st'.conns[b])
  {
  }

  /** A handler step of `b` seen from another connection: at most a send and `b`'s own entries. */
  lemma HandlerFrame(st: State, b: ConnId, h: HandlerStep, c: ConnId)
    requires HandlerEnabled(st, b, h) && b != c
    ensures exists st1 :: Frame(st, st1, c) && Frame(st1, ApplyHandler(st, b, h), c)
  {
    var st' := ApplyHandler(st, b, h);
    if SendsDown(h) {
      var p, m := st.conns[b].port, SentDown(st.conns[b], b, h);
      SendsDownShape(st, b, h);
      SendFrame(st, p, m, c);
      var st1 := SendToClient(st, p, m);
      FrameSetConn(st1, b, st'.conns[b], c);
      assert Frame(st, st1, c) && Frame(st1, st', c);
    } else {
      QuietFrame(st, b, h, c);
      assert Frame(st, st, c) && Frame(st, st', c);
    }
  }

  lemma QuietFrame(st: State, b: ConnId, h: HandlerStep, c: ConnId)
    requires HandlerEnabled(st, b, h) && b != c && !SendsDown(h)
    ensures Frame(st, ApplyHandler(st, b, h), c)
  {
    if EntryStep(h) {
      EntryFrame(st, b, h, c);
    } else if h.Accept? {
      FrameSetConn(st, b, NewConn(h.p), c);
    } else {
      QuietShape(st, b, h);
      FrameSetConn(st, b, ApplyHandler(st, b, h).conns[b], c);
    }
  }

  predicate EntryStep(h: HandlerStep) { h.PutPending? || h.PutActive? || h.DropPending? || h.DropActive? }

  lemma EntryFrame(st: State, b: ConnId, h: HandlerStep, c: ConnId)
    requires HandlerEnabled(st, b, h) && b != c && EntryStep(h)
    ensures Frame(st, ApplyHandler(st, b, h), c)
  {
  }

  lemma QuietShape(st: State, c: ConnId, h: HandlerStep)
    requires HandlerEnabled(st, c, h) && QuietHandler(h)
    ensures c in ApplyHandler(st, c, h).conns
    ensures ApplyHandler(st, c, h) == SetConn(st, c, ApplyHandler(st, c, h).conns[c])
  {
  }

  lemma RegistryFrame(st: State, b: ConnId, t: TaskStep, c: ConnId)
    requires TaskEnabled(st, b, t) && Registry(t) && b != c
    ensures b in ApplyTask(st, b, t).conns
    ensures Frame(SetConn(st, b, ApplyTask(st, b, t).conns[b]), ApplyTask(st, b, t), c)
  {
    var st' := ApplyTask(st, b, t);
    var s := st.conns[b].target.value;
    SameQueue(st.sessions[s].down, c);
    SameQueue(st.sessions[s].up, c);
    FrameOneSession(SetConn(st, b, st'.conns[b]), st', s, c);
  }

  lemma TaskFrame(st: State, b: ConnId, t: TaskStep, c: ConnId)
    requires TaskEnabled(st, b, t) && b != c
    ensures exists st1 :: Frame(st, st1, c) && Frame(st1, ApplyTask(st, b, t), c)
  {
    var st' := ApplyTask(st, b, t);
    var s := st.conns[b].target.value;
    var st1 := SetConn(st, b, st'.conns[b]);
    FrameSetConn(st, b, st'.conns[b], c);
    if Registry(t) {
      RegistryFrame(st, b, t, c);
    } else if SendsUp(t) {
      FramePushUp(st1, s, Sent(st.conns[b], b, t).1, c);
    } else if t.SendUp? && !t.fails {
      FramePushUp(st1, s, Data(b, st.conns[b].localReader.data), c);
    } else {
      assert Frame(st1, st', c);
    }
    assert Frame(st, st1, c) && Frame(st1, st', c);
  }

  lemma SessionKeeps(st: State, s: SessionId, a: SessionStep, c: ConnId)
    requires SessionEnabled(st, s, a) && About(st, c)
    ensures About(ApplySession(st, s, a), c)
  {
    match a
    case ServerRecv => ServerRecvKeeps(st, s, c);
    case ClientRecv => ClientRecvKeeps(st, s, c);
    case ServerUnbind =>
      FrameUnbind(st, s, c);
      FrameKeeps(st, ApplySession(st, s, a), c);
    case _ =>
      if c in st.conns { assert ConnInv(st, c); }
      FrameSession(st, s, a, c);
      FrameKeeps(st, ApplySession(st, s, a), c);
  }

  lemma StepKeepsAbout(st: State, step: Step, c: ConnId)
    requires Enabled(st, step) && About(st, c) && BindingInv(st)
    ensures About(Apply(st, step), c)
  {
    match step
    case OfSession(s, a) => SessionKeeps(st, s, a, c);
    case OfHandler(b, h) =>
      if b == c { HandlerSelf(st, c, h); }
      else {
        HandlerFrame(st, b, h, c);
        var st1 :| Frame(st, st1, c) && Frame(st1, Apply(st, step), c);
        FrameKeeps(st, st1, c);
        FrameKeeps(st1, Apply(st, step), c);
      }
    case OfTask(b, t) =>
      if b == c { TaskSelf(st, c, t); }
      else {
        TaskFrame(st, b, t, c);
        var st1 :| Frame(st, st1, c) && Frame(st1, Apply(st, step), c);
        FrameKeeps(st, st1, c);
        FrameKeeps(st1, Apply(st, step), c);
      }
  }

  // ---------- bindings ----------

  predicate BoundMoves(st: State, st': State, p: Port, s: SessionId, x: ClientId)
    requires p in st'.listeners
  {
    || (p in st.listeners && st'.listeners[p].bound == st.listeners[p].bound)
    || (st'.listeners[p].bound == Some(Bound(x, s)) && Declared(st', s, x))
  }

  /** Every binding and table entry is an old one or belongs to session `s`, which now declares `x`. */
  ghost predicate BindingMoves(st: State, st': State, s: SessionId, x: ClientId) {
    && (forall t :: t in st.sessions && st.sessions[t].client.Some? ==>
          t in st'.sessions && st'.sessions[t].client == st.sessions[t].client)
    && (forall p :: p in st'.listeners && st'.listeners[p].bound.Some? ==> BoundMoves(st, st', p, s, x))
    && (forall y :: y in st'.table ==>
          (y in st.table && st'.table[y] == st.table[y]) || (y == x && st'.table[y] == s && Declared(st', s, x)))
  }

  lemma MovedBindings(st: State, st': State, s: SessionId, x: ClientId)
    requires BindingInv(st) && BindingMoves(st, st', s, x)
    ensures BindingInv(st')
  {
  }

  lemma ConfigMoves(st: State, s: SessionId, x: ClientId, ms: seq<PortMapping>)
    requires s in st.sessions
    ensures BindingMoves(st, DoConfig(st, s, x, ms), s, x)
  {
    var st' := DoConfig(st, s, x, ms);
    forall p | p in st'.listeners && st'.listeners[p].bound.Some? ensures BoundMoves(st, st', p, s, x) {
      BindAllAt(st.listeners, x, s, ms, p);
    }
  }

  lemma SwitchMoves(st: State, s: SessionId, x: ClientId, ms: seq<PortMapping>)
    requires s in st.sessions && st.sessions[s].client.None?
    ensures BindingMoves(st, Switched(st, s, x, ms), s, x)
  {
    var st' := Switched(st, s, x, ms);
    forall p | p in st'.listeners && st'.listeners[p].bound.Some? ensures BoundMoves(st, st', p, s, x) {
      SwitchAllAt(st.listeners, x, s, ms, p);
    }
  }

  lemma PushMoves(st: State, st1: State, t: SessionId, m: Message, s: SessionId, x: ClientId)
    requires BindingMoves(st, st1, s, x)
    ensures BindingMoves(st, PushDown(st1, t, m), s, x)
  {
  }

  lemma TakeoverMoves(st: State, s: SessionId, x: ClientId, ms: seq<PortMapping>, n: TakeoverId)
    requires s in st.sessions
    ensures BindingMoves(st, DoTakeover(st, s, x, ms, n), s, x)
  {
    if st.sessions[s].client.None? {
      if Served(st.listeners, ms) == 0 && ms != [] {
        PushMoves(st, st, s, TakeoverFailed, s, x);
      } else {
        var st1 := Switched(st, s, x, ms);
        var ready := PushDown(st1, s, TakeoverReady(n));
        SwitchMoves(st, s, x, ms);
        PushMoves(st, st1, s, TakeoverReady(n), s, x);
        if x in st.table { PushMoves(st, ready, st.table[x], TakeoverComplete(n), s, x); }
      }
    }
  }

  lemma RoutedBinding(st: State, s: SessionId, m: Message)
    requires s in st.sessions && Routable(m) && BindingInv(st)
    ensures BindingInv(DoRoute(st, s, m))
  {
    MovedBindings(st, DoRoute(st, s, m), s, 0);
  }

  lemma TakenBinding(st: State, s: SessionId)
    requires Ready(st, s) && BindingInv(st)
    ensures BindingInv(TakeUp(st, s))
  {
    MovedBindings(st, TakeUp(st, s), s, 0);
  }

  lemma ServerRecvBinding(st: State, s: SessionId)
    requires Ready(st, s) && BindingInv(st)
    ensures BindingInv(DoServerRecv(st, s))
  {
    var m := st.sessions[s].up[0];
    var st1 := TakeUp(st, s);
    TakenBinding(st, s);
    if m.Config? {
      ConfigMoves(st1, s, m.client, m.mappings);
      MovedBindings(st1, DoConfig(st1, s, m.client, m.mappings), s, m.client);
    } else if m.Takeover? {
      TakeoverMoves(st1, s, m.client, m.mappings, m.newSession);
      MovedBindings(st1, DoTakeover(st1, s, m.client, m.mappings, m.newSession), s, m.client);
    } else if Routable(m) {
      RoutedBinding(st1, s, m);
    }
  }

  /** Ports and table as before, and every session serves whom it served. */
  predicate SameBindings(st: State, st': State) {
    && st'.listeners == st.listeners && st'.table == st.table
    && forall s :: s in st.sessions ==> s in st'.sessions && st'.sessions[s].client == st.sessions[s].client
  }

  lemma SameBinding(st: State, st': State)
    requires BindingInv(st) && SameBindings(st, st')
    ensures BindingInv(st')
  {
  }

  lemma ServeBindings(st: State, s: SessionId, m: Message)
    requires s in st.sessions
    ensures SameBindings(st, DoServe(st, s, m))
  {
  }

  lemma ClientRecvBinding(st: State, s: SessionId)
    requires ClientReady(st, s) && BindingInv(st)
    ensures BindingInv(DoClientRecv(st, s))
  {
    var m := st.sessions[s].down[0];
    if !st.sessions[s].phase.Waiting? && !(m.TakeoverComplete? && !st.sessions[s].phase.takeover) {
      SameBinding(st, TakeDown(st, s));
      ServeBindings(TakeDown(st, s), s, m);
      SameBinding(TakeDown(st, s), DoClientRecv(st, s));
    } else {
      SameBinding(st, DoClientRecv(st, s));
    }
  }

  lemma SessionBinding(st: State, s: SessionId, a: SessionStep)
    requires SessionEnabled(st, s, a) && !a.ServerRecv? && !a.ClientRecv? && BindingInv(st)
    ensures BindingInv(ApplySession(st, s, a))
  {
    MovedBindings(st, ApplySession(st, s, a), s, 0);
  }

  lemma SendBinding(st: State, p: Port, m: Message)
    requires BindingInv(st)
    ensures BindingInv(SendToClient(st, p, m))
  {
  }

  /** A record of a connection has no part in the bindings. */
  lemma ConnBinding(st: State, c: ConnId, k: Conn)
    requires BindingInv(st)
    ensures BindingInv(SetConn(st, c, k))
  {
  }

  lemma HandlerBinding(st: State, b: ConnId, h: HandlerStep)
    requires HandlerEnabled(st, b, h) && BindingInv(st)
    ensures BindingInv(ApplyHandler(st, b, h))
  {
    var st' := ApplyHandler(st, b, h);
    if SendsDown(h) {
      var p, m := st.conns[b].port, SentDown(st.conns[b], b, h);
      SendsDownShape(st, b, h);
      SendBinding(st, p, m);
      ConnBinding(SendToClient(st, p, m), b, st'.conns[b]);
    } else {
      MovedBindings(st, st', 0, 0);
    }
  }

  lemma TaskBinding(st: State, b: ConnId, t: TaskStep)
    requires TaskEnabled(st, b, t) && BindingInv(st)
    ensures BindingInv(ApplyTask(st, b, t))
  {
    MovedBindings(st, ApplyTask(st, b, t), 0, 0);
  }

  lemma StepKeepsBinding(st: State, step: Step)
    requires Enabled(st, step) && BindingInv(st)
    ensures BindingInv(Apply(st, step))
  {
    match step
    case OfSession(s, a) =>
      if a.ServerRecv? { ServerRecvBinding(st, s); }
      else if a.ClientRecv? { ClientRecvBinding(st, s); }
      else { SessionBinding(st, s, a); }
    case OfHandler(b, h) => HandlerBinding(st, b, h);
    case OfTask(b, t) => TaskBinding(st, b, t);
  }

  lemma StepKeepsInv(st: State, step: Step)
    requires Enabled(st, step) && Inv(st)
    ensures Inv(Apply(st, step))
  {
    StepKeepsBinding(st, step);
    forall c ensures About(Apply(st, step), c) { StepKeepsAbout(st, step, c); }
  }

  lemma StartInv()
    ensures Inv(START)
  {
  }

  lemma {:induction false} RunKeepsInv(run: seq<Step>, states: seq<State>, n: nat)
    requires Passes(run, states) && n <= |run|
    ensures Inv(states[n])
  {
    if n == 0 {
      StartInv();
    } else {
      RunKeepsInv(run, states, n - 1);
      StepOf(run, states, n - 1);
      StepKeepsInv(states[n - 1], run[n - 1]);
    }
  }

  /** The invariant holds in every reachable state. */
  lemma ReachableInv(st: State)
    requires Reachable(st)
    ensures Inv(st)
  {
    var run, states :| Passes(run, states) && states[|run|] == st;
    RunKeepsInv(run, states, |run|);
  }
}
