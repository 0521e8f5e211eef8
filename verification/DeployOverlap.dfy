/**
 When two tasks of one project can run at once in the small steps: the exact steps that double a project,
 the guard under which no run does, and a doubling continuation from wherever the guard fails.
 */
module DeployOverlap {
  import opened Common
  import opened TaskStores
  import opened QueuePersistences
  import opened Agents
  import opened DeploySystem
  import opened DeployRuns
  import opened DeployExclusion

  /** A trigger that has decided to run its task at once and has not handed it to a worker yet. */
  predicate StartPath(pc: TriggerPc) { pc.CreateRunning? || pc.Register? || pc.PersistRunning? || pc.Spawn? }

  predicate OnPath(st: State, id: TaskId, p: Project) {
    id in st.triggers && st.triggers[id].project == p && StartPath(st.triggers[id].pc)
  }

  // ---------- one step ----------

  /** A trigger or recovery hands a task to a new worker although its project has one. */
  predicate StartsSecond(st: State, step: Step)
    requires Enabled(st, step)
  {
    match step
    case OfTrigger(id, w, now) => st.triggers[id].pc.Spawn? && Executes(st, st.triggers[id].project)
    case Recover(known, w) => st.boot.todo != [] && st.boot.registered && Executes(st, st.boot.todo[0].project)
    case _ => false
  }

  lemma NewWorker(st: State, st': State, w: WorkerId, k: Worker)
    requires w !in st.workers && st'.workers == st.workers[w := k] && OnePerProject(st)
    ensures OnePerProject(st') <==> !Executes(st, k.project)
  {
    if Executes(st, k.project) {
      var v :| v in st.workers && st.workers[v].project == k.project;
      assert v != w && st'.workers[v].project == st'.workers[w].project;
    }
  }

  /** Workers keep their projects; some may be gone. */
  predicate FewerWorkers(st: State, st': State) {
    forall w :: w in st'.workers ==> w in st.workers && st'.workers[w].project == st.workers[w].project
  }

  lemma FewerKeeps(st: State, st': State)
    requires FewerWorkers(st, st')
    ensures OnePerProject(st) ==> OnePerProject(st')
    ensures forall p :: Executes(st', p) ==> Executes(st, p)
  {
    forall p | Executes(st', p) ensures Executes(st, p) {
      var w :| w in st'.workers && st'.workers[w].project == p;
      assert w in st.workers && st.workers[w].project == p;
    }
  }

  lemma WorkerFewer(st: State, w: WorkerId, now: Time)
    requires Enabled(st, OfWorker(w, now))
    ensures FewerWorkers(st, DoWorker(st, w, now)) && DoWorker(st, w, now).triggers == st.triggers
    ensures DoWorker(st, w, now).boot == st.boot
  {
    if st.workers[w].pc.Dequeue? {
      DequeueFewer(st, w, now);
    } else if NeedsLock(st, ByWorker(w)) {
      SaverFewer(st, w, now);
    }
  }

  lemma DequeueFewer(st: State, w: WorkerId, now: Time)
    requires w in st.workers && st.workers[w].pc.Dequeue?
    ensures FewerWorkers(st, DoWorker(st, w, now)) && DoWorker(st, w, now).triggers == st.triggers
    ensures DoWorker(st, w, now).boot == st.boot
  {
  }

  lemma SaverFewer(st: State, w: WorkerId, now: Time)
    requires w in st.workers && (st.workers[w].pc.RemoveRecord? || st.workers[w].pc.MarkRecord?)
    ensures FewerWorkers(st, DoWorker(st, w, now)) && DoWorker(st, w, now).triggers == st.triggers
    ensures DoWorker(st, w, now).boot == st.boot
  {
  }

  lemma RenameFewer(st: State)
    requires Enabled(st, Rename)
    ensures FewerWorkers(st, DoRename(st))
  {
  }

  /** All steps but the two kinds that start a worker only keep or lose workers. */
  lemma StepFewer(st: State, step: Step)
    requires Enabled(st, step) && !step.Recover? && (step.OfTrigger? ==> !st.triggers[step.id].pc.Spawn?)
    ensures FewerWorkers(st, Apply(st, step))
  {
    match step
    case OfWorker(w, now) => WorkerFewer(st, w, now);
    case Rename => RenameFewer(st);
    case OfTrigger(id, w, now) => TriggerFewer(st, id, w, now);
    case _ =>
  }

  lemma TriggerFewer(st: State, id: TaskId, w: WorkerId, now: Time)
    requires Enabled(st, OfTrigger(id, w, now)) && !st.triggers[id].pc.Spawn?
    ensures DoTrigger(st, id, w, now).workers == st.workers && DoTrigger(st, id, w, now).boot == st.boot
  {
  }

  /** From one worker a project, a step gives some project two if and only if it starts a second one. */
  lemma StepDoublesExactly(st: State, step: Step)
    requires Enabled(st, step) && OnePerProject(st)
    ensures OnePerProject(Apply(st, step)) <==> !StartsSecond(st, step)
  {
    match step
    case OfTrigger(id, w, now) =>
      if st.triggers[id].pc.Spawn? {
        NewWorker(st, Apply(st, step), w, Worker(st.triggers[id].project, id, Deploying));
      } else {
        StepFewer(st, step);
        FewerKeeps(st, Apply(st, step));
      }
    case Recover(known, w) =>
      if st.boot.todo != [] && st.boot.registered {
        NewWorker(st, Apply(st, step), w, Worker(st.boot.todo[0].project, st.boot.todo[0].id, Deploying));
      } else {
        FewerKeeps(st, Apply(st, step));
      }
    case _ =>
      StepFewer(st, step);
      FewerKeeps(st, Apply(st, step));
  }

  // ---------- the guard ----------

  /** The project has a worker already, or another trigger is about to give it one. */
  predicate Crowded(st: State, p: Project, self: TaskId) {
    Executes(st, p) || exists id :: id in st.triggers && id != self && OnPath(st, id, p)
  }

  /** Recovery registers the running record in front of its list. */
  predicate Registers(st: State, known: bool) {
    && st.boot.Recovering? && st.boot.todo != [] && !st.boot.registered && known && st.boot.todo[0].running
  }

  /**
   The running check finds no registration although the project is crowded; or recovery registers a
   record of a project that has a worker.
   */
  predicate GuardFails(st: State, step: Step)
    requires Enabled(st, step)
  {
    match step
    case OfTrigger(id, w, now) =>
      var t := st.triggers[id];
      t.pc.CheckRunning? && t.project !in st.running && Crowded(st, t.project, id)
    case Recover(known, w) => Registers(st, known) && Executes(st, st.boot.todo[0].project)
    case _ => false
  }

  /** A project has one worker, or one trigger on its way, or one record being recovered. */
  ghost predicate PathsApart(st: State) {
    && (forall id, p :: OnPath(st, id, p) ==> !Executes(st, p))
    && (forall id, o, p :: OnPath(st, id, p) && OnPath(st, o, p) ==> id == o)
  }

  predicate RecordApart(st: State) {
    st.boot.Recovering? && st.boot.registered && st.boot.todo != [] ==> !Executes(st, st.boot.todo[0].project)
  }

  ghost predicate OneStarter(st: State) { OnePerProject(st) && PathsApart(st) && RecordApart(st) }

  /** Triggers on their way come from triggers on their way. */
  ghost predicate FewerPaths(st: State, st': State) {
    forall id, p :: OnPath(st', id, p) ==> OnPath(st, id, p)
  }

  lemma ApartKept(st: State, st': State)
    requires PathsApart(st) && FewerPaths(st, st') && FewerWorkers(st, st')
    ensures PathsApart(st')
  {
    FewerKeeps(st, st');
  }

  lemma RenamePaths(st: State)
    requires Enabled(st, Rename) && HolderInv(st)
    ensures FewerPaths(st, DoRename(st)) && DoRename(st).boot == st.boot
  {
  }

  lemma TriggerPaths(st: State, id: TaskId, w: WorkerId, now: Time)
    requires Enabled(st, OfTrigger(id, w, now)) && !(st.triggers[id].pc.CheckRunning? && st.triggers[id].project !in st.running)
    ensures FewerPaths(st, DoTrigger(st, id, w, now))
  {
    TriggerMoves(st, id, w, now);
  }

  /** The trigger is gone, waits for its save, or has moved on. */
  lemma TriggerMoves(st: State, id: TaskId, w: WorkerId, now: Time)
    requires Enabled(st, OfTrigger(id, w, now)) && !(st.triggers[id].pc.CheckRunning? && st.triggers[id].project !in st.running)
    ensures var ts := DoTrigger(st, id, w, now).triggers;
            || ts == st.triggers - {id} || ts == st.triggers
            || exists pc :: ts == st.triggers[id := st.triggers[id].(pc := pc)] && (StartPath(pc) ==> StartPath(st.triggers[id].pc))
  {
    var t := st.triggers[id];
    var ts := DoTrigger(st, id, w, now).triggers;
    match t.pc
    case CheckRunning => assert ts == st.triggers[id := t.(pc := CheckLength)];
    case CheckLength => assert ts == st.triggers - {id} || ts == st.triggers[id := t.(pc := CreateQueued)];
    case CreateQueued => assert ts == st.triggers[id := t.(pc := Enqueue)];
    case Enqueue => assert ts == st.triggers[id := t.(pc := PersistQueued)];
    case CreateRunning => assert ts == st.triggers[id := t.(pc := Register)];
    case Register => assert ts == st.triggers[id := t.(pc := PersistRunning)];
    case _ =>
  }

  lemma StarterTrigger(st: State, id: TaskId, w: WorkerId, now: Time)
    requires Enabled(st, OfTrigger(id, w, now)) && !GuardFails(st, OfTrigger(id, w, now)) && OneStarter(st)
    ensures PathsApart(DoTrigger(st, id, w, now))
  {
    var t := st.triggers[id];
    var st' := DoTrigger(st, id, w, now);
    if t.pc.Spawn? {
      SpawnApart(st, id, w, now);
    } else if t.pc.CheckRunning? && t.project !in st.running {
      EntersPath(st, id, w, now);
    } else {
      TriggerPaths(st, id, w, now);
      TriggerFewer(st, id, w, now);
      ApartKept(st, st');
    }
  }

  lemma SpawnApart(st: State, id: TaskId, w: WorkerId, now: Time)
    requires Enabled(st, OfTrigger(id, w, now)) && st.triggers[id].pc.Spawn? && PathsApart(st)
    ensures PathsApart(DoTrigger(st, id, w, now))
  {
    var st' := DoTrigger(st, id, w, now);
    var p := st.triggers[id].project;
    assert OnPath(st, id, p);
    forall o, q | OnPath(st', o, q) ensures OnPath(st, o, q) && !Executes(st', q) {
      assert OnPath(st, o, q) && q != p;
      forall v | v in st'.workers ensures st'.workers[v].project != q {
        assert v != w ==> v in st.workers && st.workers[v] == st'.workers[v];
      }
    }
  }

  lemma EntersPath(st: State, id: TaskId, w: WorkerId, now: Time)
    requires Enabled(st, OfTrigger(id, w, now)) && st.triggers[id].pc.CheckRunning? && st.triggers[id].project !in st.running
    requires !Crowded(st, st.triggers[id].project, id) && PathsApart(st)
    ensures PathsApart(DoTrigger(st, id, w, now))
  {
    var st' := DoTrigger(st, id, w, now);
    assert forall p :: Executes(st', p) <==> Executes(st, p);
    forall o, p | o != id && OnPath(st', o, p) ensures OnPath(st, o, p) && p != st.triggers[id].project {
      assert OnPath(st, o, p);
    }
  }

  lemma StarterRecover(st: State, known: bool, w: WorkerId)
    requires Enabled(st, Recover(known, w)) && !GuardFails(st, Recover(known, w)) && OneStarter(st) && BootInv(st)
    ensures PathsApart(DoRecover(st, known, w)) && RecordApart(DoRecover(st, known, w))
  {
    var st' := DoRecover(st, known, w);
    assert st'.triggers == map[];
    if Registers(st, known) { assert Executes(st', st.boot.todo[0].project) <==> Executes(st, st.boot.todo[0].project); }
  }

  lemma StarterOther(st: State, step: Step)
    requires Enabled(st, step) && OneStarter(st) && HolderInv(st)
    requires !step.Recover? && !step.OfTrigger?
    ensures PathsApart(Apply(st, step)) && RecordApart(Apply(st, step))
  {
    var st' := Apply(st, step);
    StepFewer(st, step);
    FewerKeeps(st, st');
    match step
    case OfWorker(w, now) =>
      WorkerFewer(st, w, now);
      ApartKept(st, st');
    case Rename =>
      RenamePaths(st);
      ApartKept(st, st');
    case _ => ApartKept(st, st');
  }

  lemma StarterStep(st: State, step: Step)
    requires Enabled(st, step) && !GuardFails(st, step) && OneStarter(st) && BootInv(st) && HolderInv(st)
    ensures OneStarter(Apply(st, step))
  {
    match step
    case OfTrigger(id, w, now) =>
      if st.triggers[id].pc.Spawn? { assert OnPath(st, id, st.triggers[id].project); }
      StepDoublesExactly(st, step);
      StarterTrigger(st, id, w, now);
      TriggerStays(st, id, w, now);
    case Recover(known, w) =>
      StepDoublesExactly(st, step);
      StarterRecover(st, known, w);
    case _ =>
      StepDoublesExactly(st, step);
      StarterOther(st, step);
  }

  /** Only a ready agent has triggers, so none steps while recovery has a record registered. */
  lemma TriggerStays(st: State, id: TaskId, w: WorkerId, now: Time)
    requires Enabled(st, OfTrigger(id, w, now)) && BootInv(st)
    ensures DoTrigger(st, id, w, now).boot.Ready?
  {
  }

  /** No step of the run fails the guard. */
  ghost predicate Guarded(run: seq<Step>, states: seq<State>) {
    forall i {:trigger run[i]} :: 0 <= i < |run| && i < |states| && Enabled(states[i], run[i]) ==> !GuardFails(states[i], run[i])
  }

  lemma GuardedAt(run: seq<Step>, states: seq<State>, i: nat)
    requires Passes(run, states) && Guarded(run, states) && i < |run|
    ensures |states| == |run| + 1 && Enabled(states[i], run[i]) && states[i + 1] == Apply(states[i], run[i])
    ensures !GuardFails(states[i], run[i]) && BootInv(states[i]) && HolderInv(states[i])
  {
    BasicKept(run, states, i);
    StepOf(run, states, i);
  }

  lemma {:induction false} StartersKept(run: seq<Step>, states: seq<State>, n: nat)
    requires Passes(run, states) && Guarded(run, states) && n <= |run|
    ensures OneStarter(states[n])
  {
    if n > 0 {
      StartersKept(run, states, n - 1);
      GuardedAt(run, states, n - 1);
      StarterStep(states[n - 1], run[n - 1]);
    }
  }

  /**
   In small steps, through any interleaving, crash and restart: while no running check misses a worker or
   another starting trigger of its project, and recovery registers no project that has a worker, each
   project has at most one worker.
   */
  lemma GuardExcludes(run: seq<Step>, states: seq<State>, n: nat)
    requires Passes(run, states) && Guarded(run, states) && n <= |run|
    ensures OnePerProject(states[n])
  {
    StartersKept(run, states, n);
  }

  // ---------- and where the guard fails ----------

  lemma {:induction false} Above(keys: set<nat>) returns (n: nat)
    ensures forall k :: k in keys ==> k < n
  {
    if keys == {} { return 0; }
    var k :| k in keys;
    var n' := Above(keys - {k});
    n := if k < n' then n' else k + 1;
    forall o | o in keys ensures o < n { if o != k { assert o in keys - {k}; } }
  }

  lemma FreshWorker(st: State) returns (w: WorkerId)
    ensures w !in st.workers
  {
    w := Above(st.workers.Keys);
  }

  lemma {:induction false} Longer(ids: set<TaskId>) returns (id: TaskId)
    ensures forall o :: o in ids ==> |o| < |id|
  {
    if ids == {} { return ""; }
    var o :| o in ids;
    var id' := Longer(ids - {o});
    id := id' + o + "x";
    forall i | i in ids ensures |i| < |id| { if i != o { assert i in ids - {o}; } }
  }

  lemma FreshTask(st: State) returns (id: TaskId)
    ensures !Live(st, id)
  {
    var queued := set p, i | p in st.queues && 0 <= i < |st.queues[p]| :: st.queues[p][i].id;
    var recorded := set i | 0 <= i < |st.memory| :: st.memory[i].id;
    var filed := if st.file.None? then {} else set i | 0 <= i < |st.file.value| :: st.file.value[i].id;
    var worked := set w | w in st.workers :: st.workers[w].id;
    id := Longer(st.triggers.Keys + queued + recorded + filed + worked);
  }

  function Rank(pc: TriggerPc): nat {
    if pc.CreateRunning? then 3 else if pc.Register? then 2 else if pc.PersistRunning? then 1 else 0
  }

  /** A trigger on its way steps once, saving its record if it is time to. */
  lemma Advances(origin: State, st: State, id: TaskId, w: WorkerId) returns (st': State)
    requires LeadsTo(origin, st) && st.lock.Free? && id in st.triggers && StartPath(st.triggers[id].pc) && !st.triggers[id].pc.Spawn?
    requires w !in st.workers
    ensures LeadsTo(origin, st') && st'.lock.Free? && st'.workers == st.workers && st'.boot == st.boot
    ensures id in st'.triggers && StartPath(st'.triggers[id].pc) && Rank(st'.triggers[id].pc) < Rank(st.triggers[id].pc)
    ensures st'.triggers[id].project == st.triggers[id].project && st'.triggers - {id} == st.triggers - {id}
  {
    LeadsStep(origin, st, OfTrigger(id, w, 0));
    st' := DoTrigger(st, id, w, 0);
    if st.triggers[id].pc.PersistRunning? {
      LeadsStep(origin, st', WriteWhole);
      var written := Apply(st', WriteWhole);
      LeadsStep(origin, written, Rename);
      st' := Apply(written, Rename);
    }
    SameBeside(st, st', id);
  }

  lemma SameBeside(st: State, st': State, id: TaskId)
    requires id in st.triggers && id in st'.triggers && st'.triggers == st.triggers[id := st'.triggers[id]]
    ensures st'.triggers - {id} == st.triggers - {id}
  {
  }

  /** With the lock free, a trigger on its way can go on until its task has a worker. */
  lemma Drives(origin: State, st: State, id: TaskId, w: WorkerId) returns (st': State)
    requires LeadsTo(origin, st) && st.lock.Free? && id in st.triggers && StartPath(st.triggers[id].pc) && w !in st.workers
    ensures LeadsTo(origin, st') && st'.lock.Free? && st'.boot == st.boot
    ensures st'.workers == st.workers[w := Worker(st.triggers[id].project, id, Deploying)]
    ensures st'.triggers == st.triggers - {id}
    decreases Rank(st.triggers[id].pc)
  {
    if st.triggers[id].pc.Spawn? {
      LeadsStep(origin, st, OfTrigger(id, w, 0));
      st' := DoTrigger(st, id, w, 0);
    } else {
      var next := Advances(origin, st, id, w);
      st' := Drives(origin, next, id, w);
    }
  }

  /** Whoever is saving can finish, and the triggers on their way are still on it. */
  lemma Frees(st: State) returns (st': State)
    requires HolderInv(st)
    ensures LeadsTo(st, st') && st'.lock.Free? && st'.boot == st.boot
    ensures forall w :: w in st.workers ==> w in st'.workers && st'.workers[w].project == st.workers[w].project
    ensures forall id, p :: OnPath(st, id, p) ==> OnPath(st', id, p)
  {
    LeadsSelf(st);
    st' := st;
    if st.lock.Held? {
      if !st.temp.Whole? {
        LeadsStep(st, st, WriteWhole);
        st' := Apply(st, WriteWhole);
      }
      LeadsStep(st, st', Rename);
      SavedOn(st');
      st' := Apply(st', Rename);
    }
  }

  lemma SavedOn(st: State)
    requires Enabled(st, Rename) && NeedsLock(st, st.lock.owner)
    ensures var st' := DoRename(st);
            && (forall w :: w in st.workers ==> w in st'.workers && st'.workers[w].project == st.workers[w].project)
            && (forall id, p :: OnPath(st, id, p) ==> OnPath(st', id, p))
            && st'.lock.Free? && st'.boot == st.boot
  {
  }

  // ---------- a worker goes on ----------

  /** The pc after the current one, for a worker that neither deploys nor is about to take a task. */
  function Following(pc: WorkerPc): WorkerPc
    requires !pc.Deploying? && !pc.Dequeue?
  {
    match pc
    case UnregisterEarly => RemoveRecord
    case RemoveRecord => UnregisterLate
    case UnregisterLate => Dequeue
    case MarkStore => MarkRecord
    case MarkRecord => RegisterNext
    case RegisterNext => Deploying
  }

  /** Only worker `v` has moved, to `pc`. */
  predicate OnlyMoved(st: State, st': State, v: WorkerId, pc: WorkerPc)
    requires v in st.workers
  {
    && st'.workers == st.workers[v := st.workers[v].(pc := pc)]
    && st'.queues == st.queues && st'.boot == st.boot && st'.triggers == st.triggers && st'.lock == st.lock
  }

  lemma Goes(origin: State, st: State, v: WorkerId) returns (st': State)
    requires LeadsTo(origin, st) && st.lock.Free? && v in st.workers
    requires !st.workers[v].pc.Deploying? && !st.workers[v].pc.Dequeue?
    ensures LeadsTo(origin, st') && OnlyMoved(st, st', v, Following(st.workers[v].pc))
  {
    LeadsStep(origin, st, OfWorker(v, 0));
    st' := DoWorker(st, v, 0);
    if NeedsLock(st, ByWorker(v)) {
      WorkerAsks(st, v);
      if st'.lock.Held? {
        WorkerSaved(st', v);
        LeadsStep(origin, st', WriteWhole);
        LeadsStep(origin, Apply(st', WriteWhole), Rename);
        st' := DoRename(Apply(st', WriteWhole));
      }
    }
  }

  /** A worker that saves has taken the lock and is where it was, or has found nothing to save. */
  lemma WorkerAsks(st: State, v: WorkerId)
    requires st.lock.Free? && NeedsLock(st, ByWorker(v))
    ensures var st' := DoWorker(st, v, 0);
            if st'.lock.Free? then OnlyMoved(st, st', v, Following(st.workers[v].pc))
            else st'.lock == Held(ByWorker(v)) && st'.temp.NoTemp? && st'.workers == st.workers
                 && st'.queues == st.queues && st'.boot == st.boot && st'.triggers == st.triggers
  {
  }

  lemma WorkerSaved(st: State, v: WorkerId)
    requires st.lock == Held(ByWorker(v)) && st.temp.NoTemp? && NeedsLock(st, ByWorker(v))
    ensures var st' := DoRename(Apply(st, WriteWhole));
            && st'.workers == st.workers[v := st.workers[v].(pc := Following(st.workers[v].pc))] && st'.lock.Free?
            && st'.queues == st.queues && st'.boot == st.boot && st'.triggers == st.triggers
  {
  }

  /** Steps until the worker takes a task or deploys one. */
  function Remaining(pc: WorkerPc): nat {
    match pc
    case UnregisterEarly => 3
    case RemoveRecord => 2
    case UnregisterLate => 1
    case Dequeue => 0
    case MarkStore => 3
    case MarkRecord => 2
    case RegisterNext => 1
    case Deploying => 0
  }

  function Rests(pc: WorkerPc): WorkerPc {
    if pc.UnregisterEarly? || pc.RemoveRecord? || pc.UnregisterLate? || pc.Dequeue? then Dequeue else Deploying
  }

  /** A worker can go on until it takes a task or deploys one. */
  lemma Arrives(origin: State, st: State, v: WorkerId) returns (st': State)
    requires LeadsTo(origin, st) && st.lock.Free? && v in st.workers
    ensures LeadsTo(origin, st') && OnlyMoved(st, st', v, Rests(st.workers[v].pc))
    decreases Remaining(st.workers[v].pc)
  {
    if Remaining(st.workers[v].pc) == 0 {
      st' := st;
    } else {
      var next := Goes(origin, st, v);
      st' := Arrives(origin, next, v);
    }
  }

  /** A worker takes the next task of its queue and deploys it. */
  lemma TakesNext(origin: State, st: State, v: WorkerId) returns (st': State)
    requires LeadsTo(origin, st) && st.lock.Free? && v in st.workers && st.workers[v].pc.Dequeue?
    requires QueueOf(st.queues, st.workers[v].project) != []
    ensures LeadsTo(origin, st')
    ensures v in st'.workers && st'.workers[v].project == st.workers[v].project && st'.workers[v].pc.Deploying?
    ensures forall w :: w in st.workers && w != v ==> w in st'.workers && st'.workers[w] == st.workers[w]
  {
    LeadsStep(origin, st, OfWorker(v, 0));
    st' := Arrives(origin, DoWorker(st, v, 0), v);
  }

  // ---------- a further trigger ----------

  /** Recovery can end, skipping what is left. */
  lemma Restores(origin: State, st: State) returns (st': State)
    requires LeadsTo(origin, st) && !st.boot.Down? && (st.boot.Recovering? ==> !st.boot.registered)
    ensures LeadsTo(origin, st') && st'.boot.Ready?
    ensures st'.workers == st.workers && st'.queues == st.queues && st'.running == st.running && st'.lock == st.lock
    decreases if st.boot.Recovering? then |st.boot.todo| + 1 else 0
  {
    if st.boot.Ready? {
      st' := st;
    } else {
      var w := FreshWorker(st);
      LeadsStep(origin, st, Recover(false, w));
      st' := Restores(origin, DoRecover(st, false, w));
    }
  }

  /** A new trigger makes its running check. */
  lemma Arises(origin: State, st: State, p: Project) returns (st': State, id: TaskId)
    requires LeadsTo(origin, st) && st.boot.Ready?
    ensures LeadsTo(origin, st') && st'.workers == st.workers && st'.queues == st.queues && st'.lock == st.lock
    ensures st'.boot == st.boot && id in st'.triggers
    ensures st'.triggers[id].project == p && st'.triggers[id].pc == if p in st.running then CheckLength else CreateRunning
  {
    id := FreshTask(st);
    var w := FreshWorker(st);
    LeadsStep(origin, st, Start(id, p, Request(None, None, None), 0));
    var asked := Apply(st, Start(id, p, Request(None, None, None), 0));
    LeadsStep(origin, asked, OfTrigger(id, w, 0));
    st' := DoTrigger(asked, id, w, 0);
  }

  /** A trigger that found the project registered, and no item waiting, queues its own. */
  lemma JoinsQueue(origin: State, st: State, id: TaskId) returns (st': State)
    requires LeadsTo(origin, st) && id in st.triggers && st.triggers[id].pc.CheckLength?
    requires QueueOf(st.queues, st.triggers[id].project) == []
    ensures LeadsTo(origin, st') && st'.workers == st.workers && st'.lock == st.lock && st'.boot == st.boot
    ensures QueueOf(st'.queues, st.triggers[id].project) != []
  {
    var w := FreshWorker(st);
    LeadsStep(origin, st, OfTrigger(id, w, 0));
    var checked := DoTrigger(st, id, w, 0);
    LeadsStep(origin, checked, OfTrigger(id, w, 0));
    var created := DoTrigger(checked, id, w, 0);
    LeadsStep(origin, created, OfTrigger(id, w, 0));
    st' := DoTrigger(created, id, w, 0);
  }

  // ---------- two deployments at once ----------

  predicate DeploysIn(st: State, w: WorkerId, p: Project) {
    w in st.workers && st.workers[w].project == p && st.workers[w].pc.Deploying?
  }

  /** Two workers deploy the project at the same time. */
  ghost predicate DeploysTwice(st: State, p: Project) {
    exists v, w :: v != w && DeploysIn(st, v, p) && DeploysIn(st, w, p)
  }

  /**
   Beside a worker that deploys, another of the project can come to deploy too: with a waiting task, or with
   that of a further trigger, which is queued, or started beside the first if the registration is gone.
   */
  lemma BothDeploy(origin: State, st: State, v: WorkerId, w: WorkerId, p: Project) returns (st': State)
    requires LeadsTo(origin, st) && st.lock.Free? && !st.boot.Down? && (st.boot.Recovering? ==> !st.boot.registered)
    requires v != w && v in st.workers && st.workers[v].project == p && DeploysIn(st, w, p)
    ensures LeadsTo(origin, st') && DeploysTwice(st', p)
  {
    var here := Arrives(origin, st, v);
    assert DeploysIn(here, w, p);
    if here.workers[v].pc.Deploying? {
      st' := here;
      assert DeploysIn(st', v, p);
    } else if QueueOf(here.queues, p) != [] {
      st' := TakesNext(origin, here, v);
      assert DeploysIn(st', v, p) && DeploysIn(st', w, p);
    } else {
      st' := ThirdDeploys(origin, here, v, w, p);
    }
  }

  /** The other worker is about to find no task. */
  lemma ThirdDeploys(origin: State, st: State, v: WorkerId, w: WorkerId, p: Project) returns (st': State)
    requires LeadsTo(origin, st) && st.lock.Free? && !st.boot.Down? && (st.boot.Recovering? ==> !st.boot.registered)
    requires v != w && v in st.workers && st.workers[v].project == p && st.workers[v].pc.Dequeue?
    requires DeploysIn(st, w, p) && QueueOf(st.queues, p) == []
    ensures LeadsTo(origin, st') && DeploysTwice(st', p)
  {
    var ready := Restores(origin, st);
    var asked, id := Arises(origin, ready, p);
    if asked.triggers[id].pc.CheckLength? {
      var queued := JoinsQueue(origin, asked, id);
      st' := TakesNext(origin, queued, v);
      assert DeploysIn(st', v, p) && DeploysIn(st', w, p);
    } else {
      var x := FreshWorker(asked);
      st' := Drives(origin, asked, id, x);
      assert DeploysIn(st', w, p) && DeploysIn(st', x, p) && w != x;
    }
  }

  /** A trigger on its way and a worker of the same project. */
  lemma DoublesBeside(origin: State, st: State, id: TaskId, p: Project) returns (st': State)
    requires LeadsTo(origin, st) && st.lock.Free? && st.boot.Ready? && OnPath(st, id, p) && Executes(st, p)
    ensures LeadsTo(origin, st') && DeploysTwice(st', p)
  {
    var v :| v in st.workers && st.workers[v].project == p;
    var w := FreshWorker(st);
    var next := Drives(origin, st, id, w);
    assert DeploysIn(next, w, p);
    st' := BothDeploy(origin, next, v, w, p);
  }

  /** Two triggers of one project on their way: both can get there. */
  lemma DoublesPair(origin: State, st: State, id: TaskId, o: TaskId, p: Project) returns (st': State)
    requires LeadsTo(origin, st) && st.lock.Free? && st.boot.Ready? && OnPath(st, id, p) && OnPath(st, o, p) && id != o
    ensures LeadsTo(origin, st') && DeploysTwice(st', p)
  {
    var w := FreshWorker(st);
    var next := Drives(origin, st, o, w);
    assert next.workers[w].project == p;
    st' := DoublesBeside(origin, next, id, p);
  }

  lemma CheckDoubles(st: State, id: TaskId, w: WorkerId, now: Time) returns (st': State)
    requires Enabled(st, OfTrigger(id, w, now)) && GuardFails(st, OfTrigger(id, w, now)) && HolderInv(st) && BootInv(st)
    ensures LeadsTo(DoTrigger(st, id, w, now), st') && DeploysTwice(st', st.triggers[id].project)
  {
    var p := st.triggers[id].project;
    var s1 := DoTrigger(st, id, w, now);
    HolderTrigger(st, id, w, now);
    assert OnPath(s1, id, p);
    var s2 := Frees(s1);
    if Executes(st, p) {
      var v :| v in st.workers && st.workers[v].project == p;
      assert v in s2.workers && s2.workers[v].project == p;
      st' := DoublesBeside(s1, s2, id, p);
    } else {
      var o :| o in st.triggers && o != id && OnPath(st, o, p);
      assert OnPath(s1, o, p);
      st' := DoublesPair(s1, s2, id, o, p);
    }
  }

  lemma RecoveryDoubles(st: State, known: bool, w: WorkerId) returns (st': State)
    requires Enabled(st, Recover(known, w)) && GuardFails(st, Recover(known, w)) && HolderInv(st)
    ensures LeadsTo(DoRecover(st, known, w), st') && DeploysTwice(st', st.boot.todo[0].project)
  {
    var p := st.boot.todo[0].project;
    var s1 := DoRecover(st, known, w);
    var v :| v in st.workers && st.workers[v].project == p;
    HolderRecover(st, known, w);
    var s2 := Frees(s1);
    var x := FreshWorker(s2);
    LeadsStep(s1, s2, Recover(known, x));
    var s3 := DoRecover(s2, known, x);
    assert v in s2.workers && v != x;
    assert s3.workers[v].project == p && DeploysIn(s3, x, p);
    st' := BothDeploy(s1, s3, v, x, p);
  }

  /** From every reachable state, a step that fails the guard can be followed by two deployments of one project at once. */
  lemma GuardIsNeeded(st: State, step: Step)
    requires Reachable(st) && Enabled(st, step) && GuardFails(st, step)
    ensures exists st', p :: LeadsTo(Apply(st, step), st') && DeploysTwice(st', p)
  {
    ReachableBasic(st);
    match step
    case OfTrigger(id, w, now) => var st' := CheckDoubles(st, id, w, now);
    case Recover(known, w) => var st' := RecoveryDoubles(st, known, w);
  }

  lemma TwiceIsTwo(st: State, p: Project)
    requires DeploysTwice(st, p)
    ensures !OnePerProject(st)
  {
    var v, w :| v != w && DeploysIn(st, v, p) && DeploysIn(st, w, p);
    assert st.workers[v].project == st.workers[w].project;
  }
}
