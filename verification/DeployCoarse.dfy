/**
 Deployments in large steps: a trigger is one step; so are finishing, unregistering, taking the next
 task and registering it; so is a crash with the recovery after it.
 */
module DeployCoarse {
  import opened Common
  import opened TaskStores
  import opened QueuePersistences
  import opened Agents
  import opened DeploySystem
  import opened QueueOrder
  import opened QueueRestarts

  datatype Coarse =
    | Trigger(id: TaskId, p: Project, request: Request, now: Time, w: WorkerId)
    | Finish(w: WorkerId, now: Time)
    | Timeout(now: Time)
    | Restart(known: set<Project>)

  /** No trigger handler is at work and nobody is saving. */
  predicate Idle(st: State) {
    st.boot.Ready? && st.lock.Free? && st.triggers == map[]
  }

  /** Nobody is in the middle of anything. */
  predicate Quiet(st: State) {
    && Idle(st)
    && forall w :: w in st.workers ==> st.workers[w].pc.Deploying?
  }

  /** A new use of an id. */
  function Forget(st: State, id: TaskId): State {
    st.(acked := st.acked - {id}, durable := st.durable - {id}, ended := st.ended - {id},
        expired := st.expired - {id}, skipped := st.skipped - {id})
  }

  function Saved(st: State, m: seq<PersistedTask>): State {
    st.(memory := m, file := Some(m), temp := NoTemp)
  }

  function Acked(st: State, id: TaskId): State {
    st.(acked := st.acked + {id}, durable := st.durable + {id})
  }

  function DoCoarseTrigger(st: State, id: TaskId, p: Project, r: Request, now: Time, w: WorkerId): State {
    var b := Forget(st, id);
    var q := QueueOf(st.queues, p);
    if p !in st.running then
      Acked(Saved(b.(running := st.running[p := id], workers := st.workers[w := Worker(p, id, Deploying)]),
                  AddTo(st.memory, PersistedTask(id, p, r, true, now, Some(now)))), id)
    else if |q| >= MAX_QUEUE_SIZE then b
    else
      Acked(Saved(b.(queues := st.queues[p := q + [QueuedDeploy(id, r, now)]]),
                  AddTo(st.memory, PersistedTask(id, p, r, false, now, None))), id)
  }

  /** The task has ended, its registration and its record are gone. */
  function Cleaned(st: State, w: WorkerId): State
    requires w in st.workers
  {
    var k := st.workers[w];
    var b := st.(ended := st.ended + {k.id}, running := st.running - {k.project},
                 workers := st.workers[w := Worker(k.project, k.id, Dequeue)]);
    if HasId(st.memory, k.id) then Saved(b, RemoveFrom(st.memory, k.id)) else b
  }

  function Next(st: State, w: WorkerId, now: Time): State
    requires w in st.workers
  {
    var p := st.workers[w].project;
    var q := QueueOf(st.queues, p);
    if q == [] then st.(workers := st.workers - {w})
    else
      Saved(st.(queues := st.queues[p := q[1..]], running := st.running[p := q[0].id],
                workers := st.workers[w := Worker(p, q[0].id, Deploying)]),
            MarkIn(st.memory, q[0].id, now))
  }

  /** Recovery to its end; the worker started for a record is numbered by the records still to do. */
  function RecoverAll(st: State, known: set<Project>): State
    decreases if st.boot.Recovering? then 2 * |st.boot.todo| + if st.boot.registered then 1 else 2 else 0
  {
    if !st.boot.Recovering? then st
    else
      var todo := st.boot.todo;
      RecoverAll(DoRecover(st, todo != [] && todo[0].project in known, |todo|), known)
  }

  predicate MayDo(st: State, c: Coarse) {
    match c
    case Trigger(id, p, r, now, w) => !Live(st, id) && w !in st.workers
    case Finish(w, now) => w in st.workers
    case Timeout(now) => true
    case Restart(known) => true
  }

  function DoCoarse(st: State, c: Coarse): State
    requires MayDo(st, c)
  {
    match c
    case Trigger(id, p, r, now, w) => DoCoarseTrigger(st, id, p, r, now, w)
    case Finish(w, now) => Next(Cleaned(st, w), w, now)
    case Timeout(now) =>
      st.(queues := FreshQueues(st.queues, now), expired := st.expired + StaleSet(st.queues, now))
    case Restart(known) => RecoverAll(Apply(Apply(st, Step.Crash), Load), known)
  }

  const BOOTED := START.(boot := Ready)

  predicate CoarseRuns(run: seq<Coarse>)
    decreases |run|, 0
  {
    run == [] || (CoarseRuns(run[..|run| - 1]) && MayDo(Ends(run[..|run| - 1]), run[|run| - 1]))
  }

  function Ends(run: seq<Coarse>): State
    requires CoarseRuns(run)
    decreases |run|, 1
  {
    if run == [] then BOOTED else DoCoarse(Ends(run[..|run| - 1]), run[|run| - 1])
  }

  // ---------- large steps are runs of small ones ----------

  lemma BootedReachable()
    ensures Reachable(BOOTED)
  {
    StartReachable();
    Reaches(START, Fine(Load));
  }

  /** The trigger of `id` has come as far as `pc`, and the agent is otherwise quiet. */
  function Triggering(st: State, id: TaskId, p: Project, r: Request, now: Time, pc: TriggerPc): State {
    Forget(st, id).(triggers := map[id := DeploySystem.Trigger(p, r, now, pc)])
  }

  lemma TriggerStarts(st: State, id: TaskId, p: Project, r: Request, now: Time, w: WorkerId)
    requires Reachable(st) && Idle(st) && !Live(st, id) && w !in st.workers
    ensures Reachable(Triggering(st, id, p, r, now, if p in st.running then CheckLength else CreateRunning))
  {
    Reaches(st, Fine(Start(id, p, r, now)));
    var s1 := Apply(st, Start(id, p, r, now));
    assert s1 == Triggering(st, id, p, r, now, CheckRunning);
    Reaches(s1, Fine(OfTrigger(id, w, now)));
    var pc := if p in st.running then CheckLength else CreateRunning;
    assert DoTrigger(s1, id, w, now) == Triggering(st, id, p, r, now, pc);
  }

  lemma TriggerQueues(st: State, id: TaskId, p: Project, r: Request, now: Time, w: WorkerId)
    requires Reachable(st) && Idle(st) && !Live(st, id) && w !in st.workers && p in st.running
    ensures Reachable(DoCoarseTrigger(st, id, p, r, now, w))
  {
    TriggerStarts(st, id, p, r, now, w);
    var s2 := Triggering(st, id, p, r, now, CheckLength);
    Reaches(s2, Fine(OfTrigger(id, w, now)));
    if |QueueOf(st.queues, p)| >= MAX_QUEUE_SIZE {
      assert s2.triggers - {id} == map[];
      assert DoTrigger(s2, id, w, now) == Forget(st, id);
    } else {
      var s3 := Triggering(st, id, p, r, now, CreateQueued);
      assert DoTrigger(s2, id, w, now) == s3;
      Reaches(s3, Fine(OfTrigger(id, w, now)));
      var s4 := Triggering(st, id, p, r, now, Enqueue);
      assert DoTrigger(s3, id, w, now) == s4;
      Reaches(s4, EnqueuePersisted(id, w, now));
      QueueLast(st, id, p, r, now, w);
    }
  }

  lemma QueueLast(st: State, id: TaskId, p: Project, r: Request, now: Time, w: WorkerId)
    requires Idle(st) && w !in st.workers && p in st.running && |QueueOf(st.queues, p)| < MAX_QUEUE_SIZE
    ensures Step4(Triggering(st, id, p, r, now, Enqueue), id, w, now) == DoCoarseTrigger(st, id, p, r, now, w)
  {
    var s4 := Triggering(st, id, p, r, now, Enqueue);
    var s5 := Apply(s4, OfTrigger(id, w, now));
    var s6 := Apply(s5, OfTrigger(id, w, now));
    var s7 := Apply(s6, WriteWhole);
    assert s5.triggers == map[id := DeploySystem.Trigger(p, r, now, PersistQueued)];
    assert s6.triggers == s5.triggers;
    assert s5.triggers - {id} == map[];
    assert Apply(s7, Rename).triggers == map[];
  }

  lemma TriggerCreates(st: State, id: TaskId, p: Project, r: Request, now: Time, w: WorkerId)
    requires Reachable(st) && Idle(st) && !Live(st, id) && w !in st.workers && p !in st.running
    ensures Reachable(Triggering(st, id, p, r, now, Register))
  {
    TriggerStarts(st, id, p, r, now, w);
    var s2 := Triggering(st, id, p, r, now, CreateRunning);
    Reaches(s2, Fine(OfTrigger(id, w, now)));
    assert DoTrigger(s2, id, w, now) == Triggering(st, id, p, r, now, Register);
  }

  lemma TriggerRegisters(st: State, id: TaskId, p: Project, r: Request, now: Time, w: WorkerId)
    requires Reachable(st) && Idle(st) && !Live(st, id) && w !in st.workers && p !in st.running
    ensures Reachable(Triggering(st, id, p, r, now, PersistRunning).(running := st.running[p := id]))
  {
    TriggerCreates(st, id, p, r, now, w);
    var s3 := Triggering(st, id, p, r, now, Register);
    Reaches(s3, Fine(OfTrigger(id, w, now)));
    assert DoTrigger(s3, id, w, now) == Triggering(st, id, p, r, now, PersistRunning).(running := st.running[p := id]);
  }

  /** The lock holder writes the temporary file and renames it. */
  lemma HolderSaves(s: State)
    requires Reachable(s) && s.lock.Held? && !s.temp.Whole?
    ensures Reachable(DoRename(s.(temp := Whole(s.memory))))
  {
    Reaches(s, Fine(WriteWhole));
    Reaches(Apply(s, WriteWhole), Fine(Rename));
  }

  /** A registered trigger saves its record. */
  lemma TriggerSaves(s: State, id: TaskId, t: DeploySystem.Trigger, now: Time, w: WorkerId)
    requires Reachable(s) && s.lock.Free? && s.triggers == map[id := t] && t.pc.PersistRunning? && w !in s.workers
    ensures Reachable(Saved(s.(triggers := map[id := t.(pc := Spawn)], durable := s.durable + {id}),
                            AddTo(s.memory, PersistedTask(id, t.project, t.request, true, now, Some(now)))))
  {
    Reaches(s, Fine(OfTrigger(id, w, now)));
    var s1 := TakeLock(s, ByTrigger(id), AddTo(s.memory, PersistedTask(id, t.project, t.request, true, now, Some(now))));
    assert DoTrigger(s, id, w, now) == s1;
    HolderSaves(s1);
    TriggerSaved(s, id, t, s1.memory);
  }

  lemma TriggerSaved(s: State, id: TaskId, t: DeploySystem.Trigger, m: seq<PersistedTask>)
    requires s.lock.Free? && s.triggers == map[id := t] && t.pc.PersistRunning?
    ensures DoRename(TakeLock(s, ByTrigger(id), m).(temp := Whole(m))) ==
            Saved(s.(triggers := map[id := t.(pc := Spawn)], durable := s.durable + {id}), m)
  {
    var s' := DoRename(TakeLock(s, ByTrigger(id), m).(temp := Whole(m)));
    assert s'.triggers == map[id := t.(pc := Spawn)];
  }

  lemma TriggerRuns(st: State, id: TaskId, p: Project, r: Request, now: Time, w: WorkerId)
    requires Reachable(st) && Idle(st) && !Live(st, id) && w !in st.workers && p !in st.running
    ensures Reachable(DoCoarseTrigger(st, id, p, r, now, w))
  {
    TriggerRegisters(st, id, p, r, now, w);
    var t := DeploySystem.Trigger(p, r, now, PersistRunning);
    var s4 := Forget(st, id).(triggers := map[id := t], running := st.running[p := id]);
    assert s4 == Triggering(st, id, p, r, now, PersistRunning).(running := st.running[p := id]);
    TriggerSaves(s4, id, t, now, w);
    var m := AddTo(st.memory, PersistedTask(id, p, r, true, now, Some(now)));
    var s7 := Saved(s4.(triggers := map[id := t.(pc := Spawn)], durable := s4.durable + {id}), m);
    TriggerSpawns(s7, id, t.(pc := Spawn), w);
    assert DoCoarseTrigger(st, id, p, r, now, w) ==
      s7.(triggers := map[], workers := s7.workers[w := Worker(p, id, Deploying)], acked := s7.acked + {id});
  }

  lemma TriggerSpawns(s: State, id: TaskId, t: DeploySystem.Trigger, w: WorkerId)
    requires Reachable(s) && s.triggers == map[id := t] && t.pc.Spawn? && w !in s.workers
    ensures Reachable(s.(triggers := map[], workers := s.workers[w := Worker(t.project, id, Deploying)], acked := s.acked + {id}))
  {
    Reaches(s, Fine(OfTrigger(id, w, 0)));
    assert s.triggers - {id} == map[];
    assert DoTrigger(s, id, w, 0) ==
      s.(triggers := map[], workers := s.workers[w := Worker(t.project, id, Deploying)], acked := s.acked + {id});
  }

  // ---------- finishing ----------

  function WithWorker(st: State, w: WorkerId, k: Worker): State { st.(workers := st.workers[w := k]) }

  /** The lock holder `w` writes the file and lets go. */
  lemma WorkerSaves(s: State, w: WorkerId, m: seq<PersistedTask>)
    requires Reachable(s) && s.lock == Held(ByWorker(w)) && s.memory == m && !s.temp.Whole? && w in s.workers
    ensures Reachable(SetWorker(Saved(s, m).(lock := Free), w, if s.workers[w].pc.RemoveRecord? then UnregisterLate else RegisterNext))
  {
    Reaches(s, Fine(WriteWhole));
    var s' := Apply(s, WriteWhole);
    Reaches(s', Fine(Rename));
    assert Apply(s', Rename) == SetWorker(Saved(s, m).(lock := Free), w, if s.workers[w].pc.RemoveRecord? then UnregisterLate else RegisterNext);
  }

  lemma WorkerUnregisters(st: State, w: WorkerId, now: Time)
    requires Reachable(st) && Quiet(st) && w in st.workers
    ensures var k := st.workers[w];
            Reachable(WithWorker(st.(ended := st.ended + {k.id}, running := st.running - {k.project}), w, k.(pc := RemoveRecord)))
  {
    var k := st.workers[w];
    Reaches(st, Fine(OfWorker(w, now)));
    var s1 := WithWorker(st.(ended := st.ended + {k.id}), w, k.(pc := UnregisterEarly));
    assert DoWorker(st, w, now) == s1;
    Reaches(s1, Fine(OfWorker(w, now)));
    var s2 := WithWorker(st.(ended := st.ended + {k.id}, running := st.running - {k.project}), w, k.(pc := RemoveRecord));
    assert DoWorker(s1, w, now).workers == s2.workers;
    assert DoWorker(s1, w, now) == s2;
  }

  lemma WorkerRemoves(s: State, w: WorkerId, now: Time)
    requires Reachable(s) && s.lock.Free? && w in s.workers && s.workers[w].pc.RemoveRecord?
    ensures var k := s.workers[w];
            var s' := WithWorker(s, w, k.(pc := UnregisterLate));
            Reachable(if HasId(s.memory, k.id) then Saved(s', RemoveFrom(s.memory, k.id)) else s')
  {
    var k := s.workers[w];
    Reaches(s, Fine(OfWorker(w, now)));
    if HasId(s.memory, k.id) {
      var s1 := TakeLock(s, ByWorker(w), RemoveFrom(s.memory, k.id));
      assert DoWorker(s, w, now) == s1;
      WorkerSaves(s1, w, s1.memory);
      assert SetWorker(Saved(s1, s1.memory).(lock := Free), w, UnregisterLate)
          == Saved(WithWorker(s, w, k.(pc := UnregisterLate)), RemoveFrom(s.memory, k.id));
    }
  }

  /** The second unregistration, once the record is gone. */
  lemma WorkerUnregistersAgain(s: State, w: WorkerId, now: Time)
    requires Reachable(s) && w in s.workers && s.workers[w].pc.UnregisterLate?
    ensures Reachable(WithWorker(s, w, s.workers[w].(pc := Dequeue)).(running := s.running - {s.workers[w].project}))
  {
    Reaches(s, Fine(OfWorker(w, now)));
  }

  lemma WorkerCleans(st: State, w: WorkerId, now: Time)
    requires Reachable(st) && Quiet(st) && w in st.workers
    ensures Reachable(Cleaned(st, w))
  {
    var k := st.workers[w];
    WorkerUnregisters(st, w, now);
    var s2 := WithWorker(st.(ended := st.ended + {k.id}, running := st.running - {k.project}), w, k.(pc := RemoveRecord));
    WorkerRemoves(s2, w, now);
    var s3' := WithWorker(s2, w, k.(pc := UnregisterLate));
    var s3 := if HasId(st.memory, k.id) then Saved(s3', RemoveFrom(st.memory, k.id)) else s3';
    WorkerUnregistersAgain(s3, w, now);
    CleanedIs(st, w, s3);
  }

  lemma CleanedIs(st: State, w: WorkerId, s3: State)
    requires w in st.workers
    requires var k := st.workers[w];
             var b := st.(ended := st.ended + {k.id}, running := st.running - {k.project},
                          workers := st.workers[w := k.(pc := RemoveRecord)][w := k.(pc := UnregisterLate)]);
             s3 == if HasId(st.memory, k.id) then Saved(b, RemoveFrom(st.memory, k.id)) else b
    ensures w in s3.workers
    ensures WithWorker(s3, w, s3.workers[w].(pc := Dequeue)).(running := s3.running - {s3.workers[w].project}) == Cleaned(st, w)
  {
    var s4 := WithWorker(s3, w, s3.workers[w].(pc := Dequeue)).(running := s3.running - {s3.workers[w].project});
    assert s4.workers == Cleaned(st, w).workers;
    assert s4.running == Cleaned(st, w).running;
  }

  lemma WorkerTakes(s: State, w: WorkerId, now: Time)
    requires Reachable(s) && s.lock.Free? && w in s.workers && s.workers[w].pc.Dequeue?
    ensures Reachable(Next(s, w, now))
  {
    var p := s.workers[w].project;
    var q := QueueOf(s.queues, p);
    Reaches(s, Fine(OfWorker(w, now)));
    if q != [] {
      var k := Worker(p, q[0].id, MarkRecord);
      var s1 := DoWorker(s, w, now);
      Reaches(s1, Fine(OfWorker(w, now)));
      var s2 := WithWorker(s.(queues := s.queues[p := q[1..]]), w, k);
      assert DoWorker(s1, w, now).workers == s2.workers;
      assert DoWorker(s1, w, now) == s2;
      WorkerMarks(s2, w, now);
      var done := Saved(WithWorker(s2, w, k.(pc := Deploying)).(running := s.running[p := k.id]), MarkIn(s.memory, k.id, now));
      assert done.workers == Next(s, w, now).workers;
      assert done == Next(s, w, now);
    }
  }

  lemma WorkerMarks(s: State, w: WorkerId, now: Time)
    requires Reachable(s) && s.lock.Free? && w in s.workers && s.workers[w].pc.MarkRecord?
    ensures var k := s.workers[w];
            Reachable(Saved(WithWorker(s, w, k.(pc := Deploying)).(running := s.running[k.project := k.id]), MarkIn(s.memory, k.id, now)))
  {
    var k := s.workers[w];
    Reaches(s, Fine(OfWorker(w, now)));
    var s1 := TakeLock(s, ByWorker(w), MarkIn(s.memory, k.id, now));
    assert DoWorker(s, w, now) == s1;
    WorkerSaves(s1, w, s1.memory);
    var s2 := Saved(WithWorker(s, w, k.(pc := RegisterNext)), s1.memory);
    assert SetWorker(Saved(s1, s1.memory).(lock := Free), w, RegisterNext) == s2;
    WorkerRegisters(s2, w, now);
    assert WithWorker(s2, w, k.(pc := Deploying)).workers == WithWorker(s, w, k.(pc := Deploying)).workers;
  }

  lemma WorkerRegisters(s: State, w: WorkerId, now: Time)
    requires Reachable(s) && w in s.workers && s.workers[w].pc.RegisterNext?
    ensures var k := s.workers[w];
            Reachable(WithWorker(s, w, k.(pc := Deploying)).(running := s.running[k.project := k.id]))
  {
    var k := s.workers[w];
    Reaches(s, Fine(OfWorker(w, now)));
    assert DoWorker(s, w, now) == WithWorker(s, w, k.(pc := Deploying)).(running := s.running[k.project := k.id]);
  }

  // ---------- restarting ----------

  /** Workers are numbered from the front of the list down. */
  predicate Numbered(st: State) {
    st.boot.Recovering? ==> forall w :: w in st.workers ==> w > |st.boot.todo|
  }

  /** In the middle of recovery the agent does nothing else. */
  predicate Restoring(st: State) {
    && !st.boot.Down? && st.lock.Free? && st.triggers == map[] && Numbered(st)
    && forall w :: w in st.workers ==> st.workers[w].pc.Deploying?
  }

  lemma RestoringStep(st: State, known: bool)
    requires Restoring(st) && st.boot.Recovering?
    ensures Restoring(DoRecover(st, known, |st.boot.todo|))
  {
  }

  lemma {:induction false} RecoversAll(st: State, known: set<Project>)
    requires Reachable(st) && Restoring(st)
    ensures Reachable(RecoverAll(st, known)) && Quiet(RecoverAll(st, known))
    decreases if st.boot.Recovering? then 2 * |st.boot.todo| + if st.boot.registered then 1 else 2 else 0
  {
    if st.boot.Recovering? {
      var todo := st.boot.todo;
      var k := todo != [] && todo[0].project in known;
      Reaches(st, Fine(Recover(k, |todo|)));
      RestoringStep(st, k);
      RecoversAll(DoRecover(st, k, |todo|), known);
    }
  }

  lemma RestartReaches(st: State, known: set<Project>)
    requires Reachable(st)
    ensures Reachable(DoCoarse(st, Restart(known))) && Quiet(DoCoarse(st, Restart(known)))
  {
    Reaches(st, Fine(Step.Crash));
    var s1 := Apply(st, Step.Crash);
    Reaches(s1, Fine(Load));
    RecoversAll(Apply(s1, Load), known);
  }

  lemma FinishQuiet(st: State, w: WorkerId, now: Time)
    requires Quiet(st) && w in st.workers
    ensures Quiet(Next(Cleaned(st, w), w, now))
  {
  }

  /** Every large step is a run of small steps from one quiet state to another. */
  lemma CoarseIsFine(st: State, c: Coarse)
    requires Reachable(st) && Quiet(st) && MayDo(st, c)
    ensures Reachable(DoCoarse(st, c)) && Quiet(DoCoarse(st, c))
  {
    match c
    case Trigger(id, p, r, now, w) =>
      if p in st.running { TriggerQueues(st, id, p, r, now, w); } else { TriggerRuns(st, id, p, r, now, w); }
    case Finish(w, now) =>
      WorkerCleans(st, w, now);
      WorkerTakes(Cleaned(st, w), w, now);
      FinishQuiet(st, w, now);
    case Timeout(now) => Reaches(st, Fine(Expire(now)));
    case Restart(known) => RestartReaches(st, known);
  }

  lemma {:induction false} CoarseReaches(run: seq<Coarse>)
    requires CoarseRuns(run)
    ensures Reachable(Ends(run)) && Quiet(Ends(run))
  {
    if run == [] {
      BootedReachable();
    } else {
      CoarseReaches(run[..|run| - 1]);
      CoarseIsFine(Ends(run[..|run| - 1]), run[|run| - 1]);
    }
  }
}
