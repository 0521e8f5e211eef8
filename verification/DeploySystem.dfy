/**
 Deployments as a step system with a crash possible after every step. A step is one lock section of
 one trigger handler, worker, recovery or expiry tick; a save is three steps under the persistence lock.
 */
module DeploySystem {
  import opened Common
  import opened TaskStores
  import opened QueuePersistences
  import opened Agents

  type WorkerId = nat

  /** A trigger handler, from the running check to the reply. */
  datatype TriggerPc =
    | CheckRunning
    | CheckLength | CreateQueued | Enqueue | PersistQueued
    | CreateRunning | Register | PersistRunning | Spawn

  datatype Trigger = Trigger(project: Project, request: Request, at: Time, pc: TriggerPc)

  /** A worker: deploying, finishing, cleaning up, and taking the next task of its project. */
  datatype WorkerPc =
    | Deploying | UnregisterEarly | RemoveRecord | UnregisterLate | Dequeue
    | MarkStore | MarkRecord | RegisterNext

  datatype Worker = Worker(project: Project, id: TaskId, pc: WorkerPc)

  datatype Owner = ByTrigger(id: TaskId) | ByWorker(w: WorkerId)

  /** The temporary file: absent, half written, or complete. */
  datatype Temp = NoTemp | Half | Whole(tasks: seq<PersistedTask>)

  datatype Lock = Free | Held(owner: Owner)

  datatype Boot = Down | Recovering(todo: seq<PersistedTask>, registered: bool) | Ready

  /**
   `acked`, `durable`, `ended`, `expired` and `skipped` record what has happened to an id since it was last
   triggered: its trigger returned, its record was saved, its deployment finished, it timed out in
   the queue, recovery found its project unknown.
   */
  datatype State = State(running: map<Project, TaskId>, queues: Queues, memory: seq<PersistedTask>,
                         file: Option<seq<PersistedTask>>, temp: Temp, lock: Lock,
                         triggers: map<TaskId, Trigger>, workers: map<WorkerId, Worker>, boot: Boot,
                         acked: set<TaskId>, durable: set<TaskId>, ended: set<TaskId>,
                         expired: set<TaskId>, skipped: set<TaskId>)

  const START := State(map[], map[], [], None, NoTemp, Free, map[], map[], Down, {}, {}, {}, {}, {})

  predicate InFile(st: State, id: TaskId) {
    st.file.Some? && HasId(st.file.value, id)
  }

  predicate InSomeQueue(qs: Queues, id: TaskId) {
    exists p :: p in qs && InQueue(qs[p], id)
  }

  predicate InQueue(q: seq<QueuedDeploy>, id: TaskId) {
    exists i :: 0 <= i < |q| && q[i].id == id
  }

  predicate WorksOn(st: State, w: WorkerId, id: TaskId) {
    w in st.workers && st.workers[w].id == id
  }

  /** Somebody or something still refers to the id. */
  predicate Live(st: State, id: TaskId) {
    || id in st.triggers || InSomeQueue(st.queues, id) || HasId(st.memory, id) || InFile(st, id)
    || exists w :: w in st.workers && st.workers[w].id == id
  }

  datatype Step =
    | Start(id: TaskId, p: Project, request: Request, now: Time)
    | OfTrigger(id: TaskId, w: WorkerId, now: Time)
    | OfWorker(w: WorkerId, now: Time)
    | WriteHalf | WriteWhole | Rename
    | Expire(now: Time)
    | Crash
    | Load | Recover(known: bool, w: WorkerId)

  // ---------- saves ----------

  /** The lock holder has changed the list in memory and starts to save it. */
  function TakeLock(st: State, o: Owner, q: seq<PersistedTask>): State {
    st.(memory := q, lock := Held(o), temp := NoTemp)
  }

  function SetTrigger(st: State, id: TaskId, pc: TriggerPc): State
    requires id in st.triggers
  {
    st.(triggers := st.triggers[id := st.triggers[id].(pc := pc)])
  }

  function SetWorker(st: State, w: WorkerId, pc: WorkerPc): State
    requires w in st.workers
  {
    st.(workers := st.workers[w := st.workers[w].(pc := pc)])
  }

  function Reply(st: State, id: TaskId): State {
    st.(triggers := st.triggers - {id}, acked := st.acked + {id})
  }

  /** The file is replaced and the lock released; the holder goes on. */
  function DoRename(st: State): State
    requires st.temp.Whole? && st.lock.Held?
  {
    var saved := st.(file := Some(st.temp.tasks), temp := NoTemp, lock := Free);
    match st.lock.owner
    case ByTrigger(id) =>
      if id !in st.triggers then saved
      else
        var durable := saved.(durable := st.durable + {id});
        if st.triggers[id].pc.PersistQueued? then Reply(durable, id) else SetTrigger(durable, id, Spawn)
    case ByWorker(w) =>
      if w !in st.workers then saved
      else SetWorker(saved, w, if st.workers[w].pc.RemoveRecord? then UnregisterLate else RegisterNext)
  }

  // ---------- the actors ----------

  function DoTrigger(st: State, id: TaskId, w: WorkerId, now: Time): State
    requires id in st.triggers
  {
    var t := st.triggers[id];
    match t.pc
    case CheckRunning => SetTrigger(st, id, if t.project in st.running then CheckLength else CreateRunning)
    case CheckLength =>
      if |QueueOf(st.queues, t.project)| >= MAX_QUEUE_SIZE then st.(triggers := st.triggers - {id})
      else SetTrigger(st, id, CreateQueued)
    case CreateQueued => SetTrigger(st, id, Enqueue)
    case Enqueue =>
      var q := QueueOf(st.queues, t.project) + [QueuedDeploy(id, t.request, t.at)];
      SetTrigger(st.(queues := st.queues[t.project := q]), id, PersistQueued)
    case PersistQueued =>
      TakeLock(st, ByTrigger(id), AddTo(st.memory, PersistedTask(id, t.project, t.request, false, t.at, None)))
    case CreateRunning => SetTrigger(st, id, Register)
    case Register => SetTrigger(st.(running := st.running[t.project := id]), id, PersistRunning)
    case PersistRunning =>
      TakeLock(st, ByTrigger(id), AddTo(st.memory, PersistedTask(id, t.project, t.request, true, now, Some(now))))
    case Spawn => Reply(st.(workers := st.workers[w := Worker(t.project, id, Deploying)]), id)
  }

  function DoWorker(st: State, w: WorkerId, now: Time): State
    requires w in st.workers
  {
    var k := st.workers[w];
    match k.pc
    case Deploying => SetWorker(st.(ended := st.ended + {k.id}), w, UnregisterEarly)
    case UnregisterEarly => SetWorker(st.(running := st.running - {k.project}), w, RemoveRecord)
    case RemoveRecord =>
      if HasId(st.memory, k.id) then TakeLock(st, ByWorker(w), RemoveFrom(st.memory, k.id))
      else SetWorker(st, w, UnregisterLate)
    case UnregisterLate => SetWorker(st.(running := st.running - {k.project}), w, Dequeue)
    case Dequeue =>
      var q := QueueOf(st.queues, k.project);
      if q == [] then st.(workers := st.workers - {w})
      else st.(queues := st.queues[k.project := q[1..]], workers := st.workers[w := Worker(k.project, q[0].id, MarkStore)])
    case MarkStore => SetWorker(st, w, MarkRecord)
    case MarkRecord => TakeLock(st, ByWorker(w), MarkIn(st.memory, k.id, now))
    case RegisterNext => SetWorker(st.(running := st.running[k.project := k.id]), w, Deploying)
  }

  function FreshQueues(qs: Queues, now: Time): Queues {
    map p | p in qs :: Fresh(qs[p], now)
  }

  function StaleSet(qs: Queues, now: Time): set<TaskId> {
    set p, i | p in qs && 0 <= i < |qs[p]| && Stale(qs[p][i], now) :: qs[p][i].id
  }

  function DoRecover(st: State, known: bool, w: WorkerId): State
    requires st.boot.Recovering?
  {
    var todo := st.boot.todo;
    if todo == [] then st.(boot := Ready)
    else
      var t := todo[0];
      var rest := Recovering(todo[1..], false);
      if st.boot.registered then
        st.(workers := st.workers[w := Worker(t.project, t.id, Deploying)], boot := rest)
      else if !known then st.(skipped := st.skipped + {t.id}, boot := rest)
      else if t.running then st.(running := st.running[t.project := t.id], boot := Recovering(todo, true))
      else
        var q := QueueOf(st.queues, t.project) + [QueuedDeploy(t.id, t.request, t.queuedAt)];
        st.(queues := st.queues[t.project := q], boot := rest)
  }

  /** A persistence call has to wait for the lock. */
  predicate NeedsLock(st: State, o: Owner) {
    match o
    case ByTrigger(id) => id in st.triggers && (st.triggers[id].pc.PersistQueued? || st.triggers[id].pc.PersistRunning?)
    case ByWorker(w) => w in st.workers && (st.workers[w].pc.RemoveRecord? || st.workers[w].pc.MarkRecord?)
  }

  predicate Enabled(st: State, step: Step) {
    match step
    case Start(id, p, r, now) => st.boot.Ready? && !Live(st, id)
    case OfTrigger(id, w, now) =>
      id in st.triggers && w !in st.workers && (NeedsLock(st, ByTrigger(id)) ==> st.lock.Free?)
    case OfWorker(w, now) => w in st.workers && (NeedsLock(st, ByWorker(w)) ==> st.lock.Free?)
    case WriteHalf => st.lock.Held? && !st.temp.Whole?
    case WriteWhole => st.lock.Held? && !st.temp.Whole?
    case Rename => st.lock.Held? && st.temp.Whole?
    case Expire(now) => st.boot.Ready?
    case Crash => true
    case Load => st.boot.Down?
    case Recover(known, w) => st.boot.Recovering? && w !in st.workers
  }

  function Apply(st: State, step: Step): State
    requires Enabled(st, step)
  {
    match step
    case Start(id, p, r, now) =>
      st.(triggers := st.triggers[id := Trigger(p, r, now, CheckRunning)],
          acked := st.acked - {id}, durable := st.durable - {id}, ended := st.ended - {id},
          expired := st.expired - {id}, skipped := st.skipped - {id})
    case OfTrigger(id, w, now) => DoTrigger(st, id, w, now)
    case OfWorker(w, now) => DoWorker(st, w, now)
    case WriteHalf => st.(temp := Half)
    case WriteWhole => st.(temp := Whole(st.memory))
    case Rename => DoRename(st)
    case Expire(now) =>
      st.(queues := FreshQueues(st.queues, now), expired := st.expired + StaleSet(st.queues, now))
    case Crash =>
      st.(running := map[], queues := map[], memory := [], lock := Free, triggers := map[], workers := map[],
          boot := Down, expired := {}, skipped := {})
    case Load =>
      if st.file.None? then st.(boot := Ready)
      else st.(memory := st.file.value, boot := Recovering(st.file.value, false))
    case Recover(known, w) => DoRecover(st, known, w)
  }

  predicate Runs(st: State, run: seq<Step>)
    decreases |run|, 0
  {
    run == [] || (Runs(st, run[..|run| - 1]) && Enabled(After(st, run[..|run| - 1]), run[|run| - 1]))
  }

  function After(st: State, run: seq<Step>): State
    requires Runs(st, run)
    decreases |run|, 1
  {
    if run == [] then st else Apply(After(st, run[..|run| - 1]), run[|run| - 1])
  }

  // ---------- no acknowledged deployment is lost ----------

  /** Who holds the lock, and what the temporary file holds once it is complete. */
  predicate HolderInv(st: State) {
    st.lock.Held? ==>
      && NeedsLock(st, st.lock.owner)
      && (st.lock.owner.ByTrigger? ==> HasId(st.memory, st.lock.owner.id))
      && (st.temp.Whole? ==> st.temp.tasks == st.memory)
  }

  predicate DownInv(st: State) {
    st.boot.Down? ==> st.lock.Free? && st.triggers == map[] && st.workers == map[]
  }

  /** Only a ready agent has triggers; one that is down has nothing. */
  predicate BootInv(st: State) {
    && (!st.boot.Ready? ==> st.triggers == map[])
    && (st.boot.Down? ==> st.queues == map[] && st.workers == map[])
  }

  predicate LockInv(st: State) { HolderInv(st) && DownInv(st) }

  /** The worker's current deployment is over. */
  predicate CleaningUp(k: Worker) {
    k.pc.UnregisterEarly? || k.pc.RemoveRecord? || k.pc.UnregisterLate? || k.pc.Dequeue?
  }

  /** A saved record stays in the file, and in memory once loaded, until its deployment has ended. */
  predicate Recorded(st: State, o: TaskId) {
    o in st.durable && o !in st.ended ==> InFile(st, o) && (!st.boot.Down? ==> HasId(st.memory, o))
  }

  ghost predicate SavedInv(st: State) {
    forall id :: Recorded(st, id)
  }

  /** A trigger replies only after its record was saved. */
  predicate ReplyInv(st: State) {
    && st.acked <= st.durable
    && (forall id :: id in st.triggers && st.triggers[id].pc.Spawn? ==> id in st.durable)
  }

  predicate EndedInv(st: State) {
    forall w :: w in st.workers && CleaningUp(st.workers[w]) ==> st.workers[w].id in st.ended
  }

  ghost predicate RecordInv(st: State) { SavedInv(st) && ReplyInv(st) && EndedInv(st) }

  lemma HolderTrigger(st: State, id: TaskId, w: WorkerId, now: Time)
    requires Enabled(st, OfTrigger(id, w, now)) && HolderInv(st)
    ensures HolderInv(DoTrigger(st, id, w, now))
  {
    var t := st.triggers[id];
    var st' := DoTrigger(st, id, w, now);
    assert !NeedsLock(st, ByTrigger(id)) ==> st'.lock == st.lock && st'.memory == st.memory && st'.temp == st.temp;
    if t.pc.PersistQueued? {
      AddToIds(st.memory, PersistedTask(id, t.project, t.request, false, t.at, None), id);
    } else if t.pc.PersistRunning? {
      AddToIds(st.memory, PersistedTask(id, t.project, t.request, true, now, Some(now)), id);
    }
  }

  lemma HolderWorker(st: State, w: WorkerId, now: Time)
    requires Enabled(st, OfWorker(w, now)) && HolderInv(st)
    ensures HolderInv(DoWorker(st, w, now))
  {
    if NeedsLock(st, ByWorker(w)) { HolderSaver(st, w, now); } else { HolderOther(st, w, now); }
  }

  lemma HolderSaver(st: State, w: WorkerId, now: Time)
    requires Enabled(st, OfWorker(w, now)) && NeedsLock(st, ByWorker(w)) && HolderInv(st)
    ensures HolderInv(DoWorker(st, w, now))
  {
  }

  lemma HolderOther(st: State, w: WorkerId, now: Time)
    requires Enabled(st, OfWorker(w, now)) && !NeedsLock(st, ByWorker(w)) && HolderInv(st)
    ensures HolderInv(DoWorker(st, w, now))
  {
    var st' := DoWorker(st, w, now);
    assert st'.lock == st.lock && st'.memory == st.memory && st'.temp == st.temp && st'.triggers == st.triggers;
    assert st.lock.Held? && st.lock.owner.ByWorker? ==> st.lock.owner.w != w;
  }

  lemma HolderRecover(st: State, known: bool, w: WorkerId)
    requires Enabled(st, Recover(known, w)) && HolderInv(st)
    ensures HolderInv(DoRecover(st, known, w))
  {
  }

  lemma HolderStep(st: State, step: Step)
    requires Enabled(st, step) && HolderInv(st) && DownInv(st)
    ensures HolderInv(Apply(st, step))
  {
    match step
    case OfTrigger(id, w, now) => HolderTrigger(st, id, w, now);
    case OfWorker(w, now) => HolderWorker(st, w, now);
    case Recover(known, w) => HolderRecover(st, known, w);
    case _ =>
  }

  lemma DownStep(st: State, step: Step)
    requires Enabled(st, step) && DownInv(st)
    ensures DownInv(Apply(st, step))
  {
  }

  lemma BootTrigger(st: State, id: TaskId, w: WorkerId, now: Time)
    requires Enabled(st, OfTrigger(id, w, now)) && BootInv(st)
    ensures BootInv(DoTrigger(st, id, w, now))
  {
  }

  lemma BootWorker(st: State, w: WorkerId, now: Time)
    requires Enabled(st, OfWorker(w, now)) && BootInv(st)
    ensures BootInv(DoWorker(st, w, now))
  {
  }

  lemma BootStep(st: State, step: Step)
    requires Enabled(st, step) && BootInv(st)
    ensures BootInv(Apply(st, step))
  {
    match step
    case OfTrigger(id, w, now) => BootTrigger(st, id, w, now);
    case OfWorker(w, now) => BootWorker(st, w, now);
    case _ =>
  }

  lemma ReplyTrigger(st: State, id: TaskId, w: WorkerId, now: Time)
    requires Enabled(st, OfTrigger(id, w, now)) && ReplyInv(st)
    ensures ReplyInv(DoTrigger(st, id, w, now))
  {
    if st.triggers[id].pc.Spawn? { ReplySpawn(st, id, w, now); } else { ReplyEarlier(st, id, w, now); }
  }

  lemma ReplySpawn(st: State, id: TaskId, w: WorkerId, now: Time)
    requires Enabled(st, OfTrigger(id, w, now)) && st.triggers[id].pc.Spawn? && ReplyInv(st)
    ensures ReplyInv(DoTrigger(st, id, w, now))
  {
  }

  lemma ReplyEarlier(st: State, id: TaskId, w: WorkerId, now: Time)
    requires Enabled(st, OfTrigger(id, w, now)) && !st.triggers[id].pc.Spawn? && ReplyInv(st)
    ensures ReplyInv(DoTrigger(st, id, w, now))
  {
    var st' := DoTrigger(st, id, w, now);
    assert st'.acked == st.acked && st'.durable == st.durable;
    forall o | o in st'.triggers && st'.triggers[o].pc.Spawn? ensures o in st'.durable { assert o in st.triggers && st.triggers[o].pc.Spawn?; }
  }

  lemma ReplyRename(st: State)
    requires Enabled(st, Rename) && HolderInv(st) && ReplyInv(st)
    ensures ReplyInv(DoRename(st))
  {
  }

  lemma ReplyStep(st: State, step: Step)
    requires Enabled(st, step) && HolderInv(st) && ReplyInv(st)
    ensures ReplyInv(Apply(st, step))
  {
    match step
    case OfTrigger(id, w, now) => ReplyTrigger(st, id, w, now);
    case Rename => ReplyRename(st);
    case _ =>
  }

  lemma EndedTrigger(st: State, id: TaskId, w: WorkerId, now: Time)
    requires Enabled(st, OfTrigger(id, w, now)) && EndedInv(st)
    ensures EndedInv(DoTrigger(st, id, w, now))
  {
  }

  lemma EndedWorker(st: State, w: WorkerId, now: Time)
    requires Enabled(st, OfWorker(w, now)) && EndedInv(st)
    ensures EndedInv(DoWorker(st, w, now))
  {
  }

  lemma EndedStep(st: State, step: Step)
    requires Enabled(st, step) && EndedInv(st)
    ensures EndedInv(Apply(st, step))
  {
    match step
    case OfTrigger(id, w, now) => EndedTrigger(st, id, w, now);
    case OfWorker(w, now) => EndedWorker(st, w, now);
    case _ =>
  }

  /** A record in memory stays through the step of a trigger. */
  lemma TriggerKeepsRecord(st: State, id: TaskId, w: WorkerId, now: Time, o: TaskId)
    requires Enabled(st, OfTrigger(id, w, now)) && HasId(st.memory, o)
    ensures HasId(DoTrigger(st, id, w, now).memory, o)
  {
    var t := st.triggers[id];
    if t.pc.PersistQueued? {
      AddToIds(st.memory, PersistedTask(id, t.project, t.request, false, t.at, None), o);
    } else if t.pc.PersistRunning? {
      AddToIds(st.memory, PersistedTask(id, t.project, t.request, true, now, Some(now)), o);
    }
  }

  /** A record in memory stays through the step of a worker unless its deployment has ended. */
  lemma WorkerKeepsRecord(st: State, w: WorkerId, now: Time, o: TaskId)
    requires Enabled(st, OfWorker(w, now)) && HasId(st.memory, o)
    requires CleaningUp(st.workers[w]) ==> st.workers[w].id != o
    ensures HasId(DoWorker(st, w, now).memory, o)
  {
    var k := st.workers[w];
    if k.pc.RemoveRecord? {
      RemoveFromIds(st.memory, k.id, o);
    } else if k.pc.MarkRecord? {
      MarkInHas(st.memory, k.id, now, o);
    }
  }

  lemma SavedTrigger(st: State, id: TaskId, w: WorkerId, now: Time, o: TaskId)
    requires Enabled(st, OfTrigger(id, w, now)) && DownInv(st) && Recorded(st, o)
    ensures Recorded(DoTrigger(st, id, w, now), o)
  {
    var st' := DoTrigger(st, id, w, now);
    assert st'.durable == st.durable && st'.ended == st.ended && st'.file == st.file;
    if HasId(st.memory, o) { TriggerKeepsRecord(st, id, w, now, o); }
  }

  lemma SavedWorker(st: State, w: WorkerId, now: Time, o: TaskId)
    requires Enabled(st, OfWorker(w, now)) && DownInv(st) && Recorded(st, o)
    requires CleaningUp(st.workers[w]) ==> st.workers[w].id in st.ended
    ensures Recorded(DoWorker(st, w, now), o)
  {
    var st' := DoWorker(st, w, now);
    assert st'.durable == st.durable && st.ended <= st'.ended && st'.file == st.file;
    if HasId(st.memory, o) && o !in st.ended { WorkerKeepsRecord(st, w, now, o); }
  }

  lemma SavedRename(st: State, o: TaskId)
    requires Enabled(st, Rename) && HolderInv(st) && DownInv(st) && Recorded(st, o)
    ensures Recorded(DoRename(st), o)
  {
    var st' := DoRename(st);
    assert st'.memory == st.memory && st'.file == Some(st.memory) && st'.ended == st.ended;
  }

  lemma SavedStep(st: State, step: Step)
    requires Enabled(st, step) && HolderInv(st) && DownInv(st) && SavedInv(st) && EndedInv(st)
    ensures SavedInv(Apply(st, step))
  {
    forall o ensures Recorded(Apply(st, step), o) {
      assert Recorded(st, o);
      match step
      case OfTrigger(id, w, now) => SavedTrigger(st, id, w, now, o);
      case OfWorker(w, now) => SavedWorker(st, w, now, o);
      case Rename => SavedRename(st, o);
      case _ =>
    }
  }

  lemma {:induction false} RecordsKept(run: seq<Step>)
    requires Runs(START, run)
    ensures LockInv(After(START, run)) && RecordInv(After(START, run))
  {
    if run != [] {
      var st := After(START, run[..|run| - 1]);
      RecordsKept(run[..|run| - 1]);
      HolderStep(st, run[|run| - 1]);
      DownStep(st, run[|run| - 1]);
      SavedStep(st, run[|run| - 1]);
      ReplyStep(st, run[|run| - 1]);
      EndedStep(st, run[|run| - 1]);
    }
  }

  /**
   Whatever interleaving, crash or restart: a deployment whose trigger has returned has ended or is in
   the file on disk.
   */
  lemma NoLostDeploy(run: seq<Step>, id: TaskId)
    requires Runs(START, run) && id in After(START, run).acked
    ensures id in After(START, run).ended || InFile(After(START, run), id)
  {
    RecordsKept(run);
    assert Recorded(After(START, run), id);
  }
}
