/**
 The tunnel as a step system: server sessions, port listeners, connection handlers and
 client sessions, joined by one FIFO queue per direction. A step is one lock section, one
 channel operation or one socket operation of one task; Config and Takeover are one step each.
 */
module TunnelSystem {
  import opened Common
  import opened Messages

  const READ_BUFFER_SIZE := 65536

  /** Where the handler of an accepted connection stands. */
  datatype Phase =
    | Accepted | PendingSet | Registered | AwaitReady | Forwarding | CleanPending | CleanActive | Returned

  /** A read task: it holds a chunk between reading and sending it. `Removing` exists on clients only. */
  datatype Reader = NotStarted | Idle | Holding(data: Bytes) | Ending | Removing | Done

  /**
   One direction of one connection. `read` was taken from the near socket, `pushed` went onto the
   queue of the connection's session, `popped` came off it, `accepted` entered the channel of the
   far write task, which has written `written` chunks and, when it died on an error, `part` bytes
   of the next one.
   */
  datatype Flow = Flow(read: seq<Bytes>, pushed: seq<Bytes>, popped: seq<Bytes>, accepted: seq<Bytes>,
                       written: nat, part: nat, dead: bool) {

    function Accept(d: Bytes): Flow {
      if dead then this else this.(accepted := accepted + [d])
    }

    /** The bytes handed to the far socket. */
    function Output(): Bytes
      requires written <= |accepted|
    {
      Flatten(accepted[..written]) +
      (if written < |accepted| && part <= |accepted[written]| then accepted[written][..part] else [])
    }
  }

  const NO_FLOW := Flow([], [], [], [], 0, 0, false)

  /** The client's task for one connection: `LocalUp` is registered but has not sent Connected. */
  datatype Task = NoTask | Connecting | LocalUp | Up | Failed

  /**
   One accepted connection. `target` is the session whose queue took Connect. `down` runs from the
   remote peer to the local service, `up` back. `index[i]` is the position in `up.popped` of
   `up.accepted[i]`; `missed` records that routing skipped a chunk while the connection was active,
   `lateAt` the first chunk accepted after such a miss.
   */
  datatype Conn = Conn(port: Port, phase: Phase, signalled: bool, target: Option<SessionId>,
                       reader: Reader, down: Flow, task: Task, localReader: Reader, up: Flow,
                       index: seq<nat>, missed: bool, lateAt: Option<nat>) {

    predicate LocalRegistered() { task.LocalUp? || task.Up? }

    predicate InFlight() { !phase.Returned? }
  }

  function NewConn(p: Port): Conn {
    Conn(p, Accepted, false, None, NotStarted, NO_FLOW, NoTask, NotStarted, NO_FLOW, [], false, None)
  }

  /** The server's loop for a session: halted, client removed, ports unbound and channel closed. */
  datatype ServerPhase = Open | Halted | Unlisted | Gone

  /** The client's loop: waiting for TakeoverReady, serving, left by TakeoverComplete, ended otherwise. */
  datatype ClientPhase = Waiting(session: TakeoverId) | Serving(takeover: bool) | Exited(newSession: TakeoverId) | Ended

  datatype Session = Session(client: Option<ClientId>, server: ServerPhase, down: seq<Message>, up: seq<Message>,
                             phase: ClientPhase, mappings: seq<PortMapping>, local: set<ConnId>) {

    predicate Running() { phase.Waiting? || phase.Serving? }
  }

  datatype State = State(listeners: Listeners, table: map<ClientId, SessionId>,
                         sessions: map<SessionId, Session>, conns: map<ConnId, Conn>)

  const START := State(map[], map[], map[], map[])

  /** Steps of a session: its opening, the server's loop and the client's loop. */
  datatype SessionStep =
    | OpenConfig(x: ClientId, ms: seq<PortMapping>)
    | OpenTakeover(x: ClientId, ms: seq<PortMapping>, n: TakeoverId)
    | ServerRecv | ServerHalt | ServerUnlist | ServerUnbind
    | ClientRecv | ClientEnd
    | LoseDown(k: nat) | LoseUp(k: nat)

  /** Steps of a connection on the server: accept loop, handler, read task and write task. */
  datatype HandlerStep =
    | Accept(p: Port) | PutPending | PutActive | SendConnect | Await
    | ReadRemote(d: Bytes) | SendDown | EndRemote | CloseDown
    | WriteRemote | FailRemote(n: nat) | DrainRemote
    | Select | DropPending | DropActive

  /** Steps of a connection on the client: connect task, read task and write task. */
  datatype TaskStep =
    | LocalConnected | LocalRefused | SendConnected
    | ReadLocal(d: Bytes) | SendUp(fails: bool) | EndLocal | CloseUp | RemoveLocal
    | WriteLocal | FailLocal(n: nat)

  datatype Step = OfSession(s: SessionId, a: SessionStep) | OfHandler(c: ConnId, h: HandlerStep) | OfTask(c: ConnId, t: TaskStep)

  // ---------- queues ----------

  /** A send into a session's server channel; after the loop has halted it is never forwarded. */
  function PushDown(st: State, s: SessionId, m: Message): State {
    if s in st.sessions && st.sessions[s].server.Open?
    then st.(sessions := st.sessions[s := st.sessions[s].(down := st.sessions[s].down + [m])])
    else st
  }

  /** A send into a client's channel; once its loop has ended nothing reaches the server. */
  function PushUp(st: State, s: SessionId, m: Message): State {
    if s in st.sessions && st.sessions[s].Running()
    then st.(sessions := st.sessions[s := st.sessions[s].(up := st.sessions[s].up + [m])])
    else st
  }

  /** send_to_client fails when nobody is bound or the bound channel is closed. */
  predicate CanSend(st: State, p: Port) {
    && p in st.listeners
    && st.listeners[p].bound.Some?
    && st.listeners[p].bound.value.channel in st.sessions
    && !st.sessions[st.listeners[p].bound.value.channel].server.Gone?
  }

  function SendToClient(st: State, p: Port, m: Message): State {
    if CanSend(st, p) then PushDown(st, st.listeners[p].bound.value.channel, m) else st
  }

  function SetConn(st: State, c: ConnId, k: Conn): State {
    st.(conns := st.conns[c := k])
  }

  /** The session the port is bound to takes what is sent to it onto its queue. */
  predicate Forwards(st: State, p: Port, s: SessionId) {
    && p in st.listeners
    && st.listeners[p].bound.Some?
    && st.listeners[p].bound.value.channel == s
    && s in st.sessions && st.sessions[s].server.Open?
  }

  // ---------- server session ----------

  predicate Ready(st: State, s: SessionId) {
    s in st.sessions && st.sessions[s].server.Open? && st.sessions[s].up != []
  }

  function DoConfig(st: State, s: SessionId, x: ClientId, ms: seq<PortMapping>): State
    requires s in st.sessions
  {
    if st.sessions[s].client.Some? then st
    else st.(table := (st.table - {x})[x := s],
             sessions := st.sessions[s := st.sessions[s].(client := Some(x))],
             listeners := BindAll(st.listeners, x, s, ms))
  }

  /** The bindings and the client table move to session `s`. */
  function Switched(st: State, s: SessionId, x: ClientId, ms: seq<PortMapping>): State
    requires s in st.sessions
  {
    st.(listeners := SwitchAll(st.listeners, x, s, ms),
        table := st.table[x := s],
        sessions := st.sessions[s := st.sessions[s].(client := Some(x))])
  }

  function DoTakeover(st: State, s: SessionId, x: ClientId, ms: seq<PortMapping>, n: TakeoverId): State
    requires s in st.sessions
  {
    if st.sessions[s].client.Some? then st
    else if Served(st.listeners, ms) == 0 && ms != [] then PushDown(st, s, TakeoverFailed)
    else
      var ready := PushDown(Switched(st, s, x, ms), s, TakeoverReady(n));
      if x in st.table then PushDown(ready, st.table[x], TakeoverComplete(n)) else ready
  }

  /** The connection's part of a routed message; `x` is the sending session's client id. */
  function Routed(st: State, x: ClientId, m: Message, k: Conn): Conn {
    var reached := k.port in st.listeners && st.listeners[k.port].BoundTo(x);
    var gives := if reached then st.listeners[k.port].Gives(m) else Nothing;
    match m
    case Connected(c) => if gives.Signal? then k.(signalled := true) else k
    case Data(c, d) =>
      var popped := k.(up := k.up.(popped := k.up.popped + [d]));
      if gives.Forward? then
        if k.up.dead then popped
        else popped.(up := popped.up.Accept(d),
                     index := k.index + [|k.up.popped|],
                     lateAt := if k.missed && k.lateAt.None? then Some(|k.index|) else k.lateAt)
      else if k.port in st.listeners && c in st.listeners[k.port].active then popped.(missed := true)
      else popped
    case _ => k
  }

  function DoRoute(st: State, s: SessionId, m: Message): State
    requires s in st.sessions && (m.Connected? || m.ConnectFailed? || m.Data? || m.Close?)
  {
    if st.sessions[s].client.None? then st
    else
      var x := st.sessions[s].client.value;
      var st' := st.(listeners := Broadcast(st.listeners, x, m));
      if m.conn in st.conns then SetConn(st', m.conn, Routed(st, x, m, st.conns[m.conn])) else st'
  }

  function DoServerRecv(st: State, s: SessionId): State
    requires Ready(st, s)
  {
    var m := st.sessions[s].up[0];
    var st1 := st.(sessions := st.sessions[s := st.sessions[s].(up := st.sessions[s].up[1..])]);
    match m
    case Config(x, ms) => DoConfig(st1, s, x, ms)
    case Takeover(x, ms, n) => DoTakeover(st1, s, x, ms, n)
    case Connected(_) => DoRoute(st1, s, m)
    case ConnectFailed(_) => DoRoute(st1, s, m)
    case Data(_, _) => DoRoute(st1, s, m)
    case Close(_) => DoRoute(st1, s, m)
    case _ => st1
  }

  // ---------- client session ----------

  predicate ClientReady(st: State, s: SessionId) {
    s in st.sessions && st.sessions[s].Running() && st.sessions[s].down != []
  }

  function SetSession(st: State, s: SessionId, e: Session): State {
    st.(sessions := st.sessions[s := e])
  }

  /** handle_server_message, with the message already taken off the queue. */
  function DoServe(st: State, s: SessionId, m: Message): State
    requires s in st.sessions
  {
    var e := st.sessions[s];
    match m
    case Connect(c, p) =>
      if c !in st.conns then st
      else if Maps(e.mappings, p) then SetConn(st, c, st.conns[c].(task := Connecting))
      else PushUp(SetConn(st, c, st.conns[c].(task := Failed)), s, ConnectFailed(c))
    case Data(c, d) =>
      if c !in st.conns || st.conns[c].target != Some(s) then st
      else
        var k := st.conns[c];
        var popped := k.down.(popped := k.down.popped + [d]);
        SetConn(st, c, k.(down := if c in e.local then popped.Accept(d) else popped))
    case Close(c) => SetSession(st, s, e.(local := e.local - {c}))
    case _ => st
  }

  function DoClientRecv(st: State, s: SessionId): State
    requires ClientReady(st, s)
  {
    var m := st.sessions[s].down[0];
    var e := st.sessions[s].(down := st.sessions[s].down[1..]);
    var st1 := SetSession(st, s, e);
    if e.phase.Waiting? then
      if m.TakeoverReady? && m.session == e.phase.session then SetSession(st, s, e.(phase := Serving(true)))
      else if m.TakeoverFailed? then SetSession(st, s, e.(phase := Ended))
      else if m.Data? && m.conn in st.conns && st.conns[m.conn].target == Some(s) then
        var k := st.conns[m.conn];
        SetConn(st1, m.conn, k.(down := k.down.(popped := k.down.popped + [m.data])))
      else st1
    else if m.TakeoverComplete? && !e.phase.takeover then
      SetSession(st, s, e.(phase := Exited(m.newSession), local := {}))
    else DoServe(st1, s, m)
  }

  // ---------- all steps ----------

  predicate HasTarget(st: State, c: ConnId) {
    c in st.conns && st.conns[c].target.Some? && st.conns[c].target.value in st.sessions
  }

  predicate SessionEnabled(st: State, s: SessionId, a: SessionStep) {
    match a
    case OpenConfig(x, ms) => s !in st.sessions
    case OpenTakeover(x, ms, n) => s !in st.sessions
    case ServerRecv => Ready(st, s)
    case ServerHalt => s in st.sessions && st.sessions[s].server.Open?
    case ServerUnlist => s in st.sessions && st.sessions[s].server.Halted?
    case ServerUnbind => s in st.sessions && st.sessions[s].server.Unlisted?
    case ClientRecv => ClientReady(st, s)
    case ClientEnd => s in st.sessions && st.sessions[s].Running()
    case LoseDown(k) => s in st.sessions && !st.sessions[s].server.Open? && k <= |st.sessions[s].down|
    case LoseUp(k) => s in st.sessions && !st.sessions[s].Running() && k <= |st.sessions[s].up|
  }

  /** The write task of `f` runs and has a chunk to write. */
  predicate Writable(f: Flow) {
    !f.dead && f.written < |f.accepted|
  }

  predicate HandlerEnabled(st: State, c: ConnId, h: HandlerStep) {
    if h.Accept? then c !in st.conns && h.p in st.listeners && st.listeners[h.p].bound.Some?
    else
      && c in st.conns && st.conns[c].port in st.listeners
      && var k := st.conns[c];
      match h
      case PutPending => k.phase.Accepted?
      case PutActive => k.phase.PendingSet?
      case SendConnect => k.phase.Registered?
      case Await => k.phase.AwaitReady?
      case ReadRemote(d) => k.reader.Idle? && 0 < |d| <= READ_BUFFER_SIZE
      case SendDown => k.reader.Holding?
      case EndRemote => k.reader.Idle?
      case CloseDown => k.reader.Ending?
      case WriteRemote => !k.reader.NotStarted? && Writable(k.up)
      case FailRemote(n) => !k.reader.NotStarted? && Writable(k.up) && n <= |k.up.accepted[k.up.written]|
      case DrainRemote =>
        && !k.reader.NotStarted? && !k.up.dead && k.up.written == |k.up.accepted|
        && c !in st.listeners[k.port].active
      case Select => k.phase.Forwarding? && (k.reader.Done? || k.up.dead)
      case DropPending => k.phase.CleanPending?
      case DropActive => k.phase.CleanActive?
      case Accept(p) => false
  }

  predicate TaskEnabled(st: State, c: ConnId, t: TaskStep) {
    && HasTarget(st, c)
    && var k := st.conns[c];
    match t
    case LocalConnected => k.task.Connecting?
    case LocalRefused => k.task.Connecting?
    case SendConnected => k.task.LocalUp?
    case ReadLocal(d) => k.localReader.Idle? && 0 < |d| <= READ_BUFFER_SIZE
    case SendUp(fails) => k.localReader.Holding? && (fails ==> !st.sessions[k.target.value].Running())
    case EndLocal => k.localReader.Idle?
    case CloseUp => k.localReader.Ending?
    case RemoveLocal => k.localReader.Removing?
    case WriteLocal => k.task.Up? && Writable(k.down)
    case FailLocal(n) => k.task.Up? && Writable(k.down) && n <= |k.down.accepted[k.down.written]|
  }

  predicate Enabled(st: State, step: Step) {
    match step
    case OfSession(s, a) => SessionEnabled(st, s, a)
    case OfHandler(c, h) => HandlerEnabled(st, c, h)
    case OfTask(c, t) => TaskEnabled(st, c, t)
  }

  function SetListener(st: State, p: Port, l: Listener): State {
    st.(listeners := st.listeners[p := l])
  }

  function DoSendConnect(st: State, c: ConnId): State
    requires c in st.conns
  {
    var k := st.conns[c];
    if !CanSend(st, k.port) then SetConn(st, c, k.(phase := CleanPending))
    else
      var s := st.listeners[k.port].bound.value.channel;
      var target := if Forwards(st, k.port, s) then Some(s) else None;
      SetConn(SendToClient(st, k.port, Connect(c, k.port)), c, k.(phase := AwaitReady, target := target))
  }

  function DoSendDown(st: State, c: ConnId): State
    requires c in st.conns && st.conns[c].reader.Holding?
  {
    var k := st.conns[c];
    var d := k.reader.data;
    if !CanSend(st, k.port) then SetConn(st, c, k.(reader := Ending))
    else
      var s := st.listeners[k.port].bound.value.channel;
      var down := if Forwards(st, k.port, s) && k.target == Some(s)
                  then k.down.(pushed := k.down.pushed + [d]) else k.down;
      SetConn(SendToClient(st, k.port, Data(c, d)), c, k.(reader := Idle, down := down))
  }

  function DoSendUp(st: State, c: ConnId, fails: bool): State
    requires HasTarget(st, c) && st.conns[c].localReader.Holding?
  {
    var k := st.conns[c];
    var s := k.target.value;
    var d := k.localReader.data;
    if fails then SetConn(st, c, k.(localReader := Ending))
    else
      var up := if st.sessions[s].Running() then k.up.(pushed := k.up.pushed + [d]) else k.up;
      SetConn(PushUp(st, s, Data(c, d)), c, k.(localReader := Idle, up := up))
  }

  function NewSession(m: Message, phase: ClientPhase, ms: seq<PortMapping>): Session {
    Session(None, Open, [], [m], phase, ms, {})
  }

  function ApplySession(st: State, s: SessionId, a: SessionStep): State
    requires SessionEnabled(st, s, a)
  {
    match a
    case OpenConfig(x, ms) => SetSession(st, s, NewSession(Config(x, ms), Serving(false), ms))
    case OpenTakeover(x, ms, n) => SetSession(st, s, NewSession(Takeover(x, ms, n), Waiting(n), ms))
    case ServerRecv => DoServerRecv(st, s)
    case ServerHalt => SetSession(st, s, st.sessions[s].(server := Halted))
    case ServerUnlist =>
      var st' := SetSession(st, s, st.sessions[s].(server := Unlisted));
      if st.sessions[s].client.Some? then st'.(table := st.table - {st.sessions[s].client.value}) else st'
    case ServerUnbind =>
      var st' := SetSession(st, s, st.sessions[s].(server := Gone));
      if st.sessions[s].client.Some?
      then st'.(listeners := UnbindAll(st.listeners, st.sessions[s].client.value)) else st'
    case ClientRecv => DoClientRecv(st, s)
    case ClientEnd => SetSession(st, s, st.sessions[s].(phase := Ended, local := {}))
    case LoseDown(k) => SetSession(st, s, st.sessions[s].(down := st.sessions[s].down[..k]))
    case LoseUp(k) => SetSession(st, s, st.sessions[s].(up := st.sessions[s].up[..k]))
  }

  function ApplyHandler(st: State, c: ConnId, h: HandlerStep): State
    requires HandlerEnabled(st, c, h)
  {
    if h.Accept? then SetConn(st, c, NewConn(h.p))
    else
      var k := st.conns[c];
      var l := st.listeners[k.port];
      match h
      case PutPending => SetListener(SetConn(st, c, k.(phase := PendingSet)), k.port, l.(pending := l.pending + {c}))
      case PutActive => SetListener(SetConn(st, c, k.(phase := Registered)), k.port, l.(active := l.active + {c}))
      case SendConnect => DoSendConnect(st, c)
      case Await =>
        SetConn(st, c, if k.signalled then k.(phase := Forwarding, reader := Idle) else k.(phase := CleanPending))
      case ReadRemote(d) => SetConn(st, c, k.(reader := Holding(d), down := k.down.(read := k.down.read + [d])))
      case SendDown => DoSendDown(st, c)
      case EndRemote => SetConn(st, c, k.(reader := Ending))
      case CloseDown => SetConn(SendToClient(st, k.port, Close(c)), c, k.(reader := Done))
      case WriteRemote => SetConn(st, c, k.(up := k.up.(written := k.up.written + 1)))
      case FailRemote(n) => SetConn(st, c, k.(up := k.up.(part := n, dead := true)))
      case DrainRemote => SetConn(st, c, k.(up := k.up.(dead := true)))
      case Select => SetConn(st, c, k.(phase := CleanPending))
      case DropPending =>
        SetListener(SetConn(st, c, k.(phase := CleanActive)), k.port, l.(pending := l.pending - {c}))
      case DropActive => SetListener(SetConn(st, c, k.(phase := Returned)), k.port, l.(active := l.active - {c}))
      case Accept(p) => st
  }

  function ApplyTask(st: State, c: ConnId, t: TaskStep): State
    requires TaskEnabled(st, c, t)
  {
    var k := st.conns[c];
    var s := k.target.value;
    var e := st.sessions[s];
    match t
    case LocalConnected => SetConn(SetSession(st, s, e.(local := e.local + {c})), c, k.(task := LocalUp))
    case LocalRefused => PushUp(SetConn(st, c, k.(task := Failed)), s, ConnectFailed(c))
    case SendConnected => PushUp(SetConn(st, c, k.(task := Up, localReader := Idle)), s, Connected(c))
    case ReadLocal(d) => SetConn(st, c, k.(localReader := Holding(d), up := k.up.(read := k.up.read + [d])))
    case SendUp(fails) => DoSendUp(st, c, fails)
    case EndLocal => SetConn(st, c, k.(localReader := Ending))
    case CloseUp => PushUp(SetConn(st, c, k.(localReader := Removing)), s, Close(c))
    case RemoveLocal => SetConn(SetSession(st, s, e.(local := e.local - {c})), c, k.(localReader := Done))
    case WriteLocal => SetConn(st, c, k.(down := k.down.(written := k.down.written + 1)))
    case FailLocal(n) => SetConn(st, c, k.(down := k.down.(part := n, dead := true)))
  }

  /** The state after an enabled step. */
  function Apply(st: State, step: Step): State
    requires Enabled(st, step)
  {
    match step
    case OfSession(s, a) => ApplySession(st, s, a)
    case OfHandler(c, h) => ApplyHandler(st, c, h)
    case OfTask(c, t) => ApplyTask(st, c, t)
  }

  /** From the empty start the steps of `run` lead through these states. */
  ghost predicate Passes(run: seq<Step>, states: seq<State>) {
    && |states| == |run| + 1 && states[0] == START
    && forall i {:trigger run[i]} :: 0 <= i < |run| ==> Enabled(states[i], run[i]) && Apply(states[i], run[i]) == states[i + 1]
  }

  ghost predicate Reachable(st: State) {
    exists run, states :: Passes(run, states) && states[|run|] == st
  }

  lemma StartReachable()
    ensures Reachable(START)
  {
    assert Passes([], [START]);
  }

  lemma Reaches(st: State, step: Step)
    requires Reachable(st) && Enabled(st, step)
    ensures Reachable(Apply(st, step))
  {
    var run, states :| Passes(run, states) && states[|run|] == st;
    assert Passes(run + [step], states + [Apply(st, step)]);
  }

  lemma StepOf(run: seq<Step>, states: seq<State>, i: nat)
    requires Passes(run, states) && i < |run|
    ensures Enabled(states[i], run[i]) && Apply(states[i], run[i]) == states[i + 1]
  {
  }
}
