/** Where an unfinished deployment is while the agent runs, and how long a queue can get. */
module DeployAccount {
  import opened Common
  import opened TaskStores
  import opened QueuePersistences
  import opened Agents
  import opened DeploySystem

  /** The worker has this deployment and it is not over. */
  predicate Busy(st: State, w: WorkerId, id: TaskId) {
    w in st.workers && st.workers[w].id == id && !CleaningUp(st.workers[w])
  }

  /** A worker has the deployment in progress or is about to start it. */
  predicate AtWork(st: State, id: TaskId) {
    exists w :: w in st.workers && Busy(st, w, id)
  }

  /** The unfinished deployment is somewhere: with its trigger, in a queue, with a worker, timed out, or still to recover. */
  predicate InHand(st: State, id: TaskId) {
    || (id in st.triggers && st.triggers[id].pc.Spawn?)
    || InSomeQueue(st.queues, id)
    || AtWork(st, id)
    || id in st.expired || id in st.skipped
    || (st.boot.Recovering? && HasId(st.boot.todo, id))
  }

  /** The deployment was acknowledged, or is about to be. */
  predicate Owed(st: State, id: TaskId) {
    (id in st.durable || (id in st.triggers && st.triggers[id].pc.PersistQueued?)) && id !in st.ended
  }

  ghost predicate Accounted(st: State) {
    !st.boot.Down? ==> forall id :: Owed(st, id) ==> InHand(st, id)
  }

  /** A queue only gains items at its end, for one id. */
  lemma QueuedAfterPush(qs: Queues, p: Project, d: QueuedDeploy, id: TaskId)
    requires InSomeQueue(qs, id) || d.id == id
    ensures InSomeQueue(qs[p := QueueOf(qs, p) + [d]], id)
  {
    var qs': Queues := qs[p := QueueOf(qs, p) + [d]];
    if d.id == id {
      assert qs'[p][|QueueOf(qs, p)|].id == id;
      assert InQueue(qs'[p], id);
    } else {
      var o :| o in qs && InQueue(qs[o], id);
      var i :| 0 <= i < |qs[o]| && qs[o][i].id == id;
      assert qs'[o][i].id == id;
      assert InQueue(qs'[o], id);
    }
  }

  lemma QueuedAfterPop(qs: Queues, p: Project, id: TaskId)
    requires QueueOf(qs, p) != [] && InSomeQueue(qs, id) && QueueOf(qs, p)[0].id != id
    ensures InSomeQueue(qs[p := QueueOf(qs, p)[1..]], id)
  {
    var qs': Queues := qs[p := QueueOf(qs, p)[1..]];
    var o :| o in qs && InQueue(qs[o], id);
    var i :| 0 <= i < |qs[o]| && qs[o][i].id == id;
    if o == p { assert qs'[p][i - 1].id == id; } else { assert qs'[o][i].id == id; }
    assert InQueue(qs'[o], id);
  }

  lemma {:induction false} FreshKeeps(q: seq<QueuedDeploy>, i: nat, now: Time)
    requires i < |q| && !Stale(q[i], now)
    ensures InQueue(Fresh(q, now), q[i].id)
  {
    var front := if Stale(q[0], now) then [] else [q[0]];
    if i == 0 {
      assert (front + Fresh(q[1..], now))[0].id == q[i].id;
    } else {
      FreshKeeps(q[1..], i - 1, now);
      var r := Fresh(q[1..], now);
      var j :| 0 <= j < |r| && r[j].id == q[i].id;
      assert (front + r)[|front| + j].id == q[i].id;
    }
  }

  lemma QueuedAfterExpire(qs: Queues, now: Time, id: TaskId)
    requires InSomeQueue(qs, id)
    ensures InSomeQueue(FreshQueues(qs, now), id) || id in StaleSet(qs, now)
  {
    var p :| p in qs && InQueue(qs[p], id);
    var i :| 0 <= i < |qs[p]| && qs[p][i].id == id;
    if !Stale(qs[p][i], now) {
      FreshKeeps(qs[p], i, now);
      assert InQueue(FreshQueues(qs, now)[p], id);
    }
  }

  lemma HasIdTail(q: seq<PersistedTask>, id: TaskId)
    requires q != [] && HasId(q, id)
    ensures q[0].id == id || HasId(q[1..], id)
  {
    var i :| 0 <= i < |q| && q[i].id == id;
    if i > 0 { assert q[1..][i - 1].id == id; }
  }

  /** Workers other than `w` stay as they are. */
  predicate SameOthers(st: State, st': State, w: WorkerId) {
    forall v :: v in st.workers && v != w ==> v in st'.workers && st'.workers[v] == st.workers[v]
  }

  lemma AtWorkElsewhere(st: State, st': State, w: WorkerId, id: TaskId)
    requires AtWork(st, id) && SameOthers(st, st', w)
    requires Busy(st, w, id) ==> AtWork(st', id)
    ensures AtWork(st', id)
  {
    var v :| v in st.workers && Busy(st, v, id);
    if v != w { assert Busy(st', v, id); }
  }

  lemma TriggerAccounts(st: State, id: TaskId, w: WorkerId, now: Time, o: TaskId)
    requires Enabled(st, OfTrigger(id, w, now)) && Owed(DoTrigger(st, id, w, now), o)
    requires Owed(st, o) ==> InHand(st, o)
    ensures InHand(DoTrigger(st, id, w, now), o)
  {
    if st.triggers[id].pc.Enqueue? {
      EnqueueAccounts(st, id, w, now, o);
    } else if st.triggers[id].pc.Spawn? {
      SpawnAccounts(st, id, w, now, o);
    }
  }

  lemma EnqueueAccounts(st: State, id: TaskId, w: WorkerId, now: Time, o: TaskId)
    requires Enabled(st, OfTrigger(id, w, now)) && st.triggers[id].pc.Enqueue? && Owed(DoTrigger(st, id, w, now), o)
    requires Owed(st, o) ==> InHand(st, o)
    ensures InHand(DoTrigger(st, id, w, now), o)
  {
    var t := st.triggers[id];
    var d := QueuedDeploy(id, t.request, t.at);
    if InSomeQueue(st.queues, o) || d.id == o { QueuedAfterPush(st.queues, t.project, d, o); }
  }

  lemma SpawnAccounts(st: State, id: TaskId, w: WorkerId, now: Time, o: TaskId)
    requires Enabled(st, OfTrigger(id, w, now)) && st.triggers[id].pc.Spawn? && Owed(DoTrigger(st, id, w, now), o)
    requires Owed(st, o) ==> InHand(st, o)
    ensures InHand(DoTrigger(st, id, w, now), o)
  {
    var st' := DoTrigger(st, id, w, now);
    if AtWork(st, o) { AtWorkElsewhere(st, st', w, o); }
    if id == o { assert Busy(st', w, o); }
  }

  lemma WorkerTakesNext(st: State, w: WorkerId, now: Time, o: TaskId)
    requires Enabled(st, OfWorker(w, now)) && InSomeQueue(st.queues, o)
    ensures InSomeQueue(DoWorker(st, w, now).queues, o) || AtWork(DoWorker(st, w, now), o)
  {
    var st' := DoWorker(st, w, now);
    var k := st.workers[w];
    if k.pc.Dequeue? && QueueOf(st.queues, k.project) != [] {
      if QueueOf(st.queues, k.project)[0].id == o {
        assert Busy(st', w, o);
      } else {
        QueuedAfterPop(st.queues, k.project, o);
      }
    }
  }

  lemma WorkerStays(st: State, w: WorkerId, now: Time, o: TaskId)
    requires Enabled(st, OfWorker(w, now)) && Busy(st, w, o) && o !in DoWorker(st, w, now).ended
    ensures Busy(DoWorker(st, w, now), w, o)
  {
  }

  lemma OthersStay(st: State, w: WorkerId, now: Time)
    requires Enabled(st, OfWorker(w, now))
    ensures SameOthers(st, DoWorker(st, w, now), w)
  {
  }

  lemma WorkerGoesOn(st: State, w: WorkerId, now: Time, o: TaskId)
    requires Enabled(st, OfWorker(w, now)) && AtWork(st, o) && o !in DoWorker(st, w, now).ended
    ensures AtWork(DoWorker(st, w, now), o)
  {
    OthersStay(st, w, now);
    if Busy(st, w, o) { WorkerStays(st, w, now, o); }
    AtWorkElsewhere(st, DoWorker(st, w, now), w, o);
  }

  lemma WorkerAccounts(st: State, w: WorkerId, now: Time, o: TaskId)
    requires Enabled(st, OfWorker(w, now)) && Owed(DoWorker(st, w, now), o)
    requires Owed(st, o) ==> InHand(st, o)
    ensures InHand(DoWorker(st, w, now), o)
  {
    if AtWork(st, o) { WorkerGoesOn(st, w, now, o); }
    if InSomeQueue(st.queues, o) { WorkerTakesNext(st, w, now, o); }
  }

  lemma RecoverAccounts(st: State, known: bool, w: WorkerId, o: TaskId)
    requires Enabled(st, Recover(known, w)) && Owed(DoRecover(st, known, w), o)
    requires Owed(st, o) ==> InHand(st, o)
    ensures InHand(DoRecover(st, known, w), o)
  {
    var st' := DoRecover(st, known, w);
    var todo := st.boot.todo;
    if AtWork(st, o) { AtWorkElsewhere(st, st', w, o); }
    if todo != [] {
      var t := todo[0];
      if HasId(todo, o) { HasIdTail(todo, o); }
      if st.boot.registered {
        if t.id == o { assert Busy(st', w, o); }
      } else if known && !t.running && (InSomeQueue(st.queues, o) || t.id == o) {
        QueuedAfterPush(st.queues, t.project, QueuedDeploy(t.id, t.request, t.queuedAt), o);
      }
    }
  }

  lemma OtherAccounts(st: State, step: Step, o: TaskId)
    requires Enabled(st, step) && (step.Start? || step.WriteHalf? || step.WriteWhole? || step.Rename? || step.Expire?)
    requires Owed(Apply(st, step), o) && LockInv(st)
    requires Owed(st, o) ==> InHand(st, o)
    ensures InHand(Apply(st, step), o)
  {
    var st' := Apply(st, step);
    if step.Expire? && InSomeQueue(st.queues, o) { QueuedAfterExpire(st.queues, step.now, o); }
    if step.Rename? {
      if AtWork(st, o) {
        var v :| v in st.workers && Busy(st, v, o);
        RenameAtWork(st, v, o);
      }
    }
  }

  /** A worker that is saving keeps its task; one that is removing a record is cleaning up anyway. */
  lemma RenameAtWork(st: State, v: WorkerId, o: TaskId)
    requires Enabled(st, Rename) && LockInv(st)
    requires Busy(st, v, o)
    ensures AtWork(DoRename(st), o)
  {
    var st' := DoRename(st);
    assert Busy(st', v, o);
  }

  lemma AccountStep(st: State, step: Step)
    requires Enabled(st, step) && LockInv(st) && RecordInv(st) && Accounted(st)
    ensures Accounted(Apply(st, step))
  {
    var st' := Apply(st, step);
    if !st'.boot.Down? {
      forall o | Owed(st', o) ensures InHand(st', o) {
        match step
        case Load => assert Recorded(st, o);
        case OfTrigger(id, w, now) => TriggerAccounts(st, id, w, now, o);
        case OfWorker(w, now) => WorkerAccounts(st, w, now, o);
        case Recover(known, w) => RecoverAccounts(st, known, w, o);
        case _ => OtherAccounts(st, step, o);
      }
    }
  }

  lemma {:induction false} AccountKept(run: seq<Step>)
    requires Runs(START, run)
    ensures Accounted(After(START, run))
  {
    if run != [] {
      AccountKept(run[..|run| - 1]);
      RecordsKept(run[..|run| - 1]);
      AccountStep(After(START, run[..|run| - 1]), run[|run| - 1]);
    }
  }

  /**
   While the agent is up and recovery is over, an acknowledged deployment has ended, waits in a queue,
   is with a worker, timed out in its queue, or belongs to a project recovery did not know.
   */
  lemma EveryDeployAccounted(run: seq<Step>, id: TaskId)
    requires Runs(START, run) && After(START, run).boot.Ready? && id in After(START, run).acked
    requires id !in After(START, run).triggers
    ensures var st := After(START, run);
            id in st.ended || InSomeQueue(st.queues, id) || AtWork(st, id) || id in st.expired || id in st.skipped
  {
    RecordsKept(run);
    assert Recorded(After(START, run), id);
    AccountKept(run);
    var st := After(START, run);
    if id !in st.ended { assert Owed(st, id); }
  }

  // ---------- the queue bound under racing triggers ----------

  /** Trigger handlers of a project between the length check and the enqueue. */
  function Window(st: State, p: Project): set<TaskId> {
    set id | id in st.triggers && st.triggers[id].project == p
             && (st.triggers[id].pc.CreateQueued? || st.triggers[id].pc.Enqueue?)
  }

  /** No step of the run is a crash, and never are more than `k` handlers of `p` inside the window. */
  predicate Bounded(run: seq<Step>, p: Project, k: nat)
    requires Runs(START, run)
  {
    run == [] ||
    (Bounded(run[..|run| - 1], p, k) && !run[|run| - 1].Crash? && |Window(After(START, run), p)| <= k)
  }

  /** Nothing was ever recovered. */
  predicate Unrecovered(st: State) {
    (st.boot.Down? ==> st.file.None?) && (st.boot.Recovering? ==> st.boot.todo == [])
  }

  lemma FreshShorter(q: seq<QueuedDeploy>, now: Time)
    ensures |Fresh(q, now)| <= |q|
  {
  }

  lemma BoundStep(st: State, step: Step, p: Project, k: nat)
    requires Enabled(st, step) && !step.Crash? && Unrecovered(st) && LockInv(st)
    requires |QueueOf(st.queues, p)| + |Window(st, p)| <= MAX_QUEUE_SIZE - 1 + k
    requires |Window(Apply(st, step), p)| <= k && |Window(st, p)| <= k
    ensures Unrecovered(Apply(st, step))
    ensures |QueueOf(Apply(st, step).queues, p)| + |Window(Apply(st, step), p)| <= MAX_QUEUE_SIZE - 1 + k
  {
    var st' := Apply(st, step);
    match step
    case OfTrigger(id, w, now) => BoundTrigger(st, id, w, now, p, k);
    case OfWorker(w, now) => BoundWorker(st, w, now, p);
    case Rename => BoundRename(st, p);
    case Start(id, q, r, now) => assert Window(st', p) == Window(st, p);
    case Expire(now) =>
      if p in st.queues { FreshShorter(st.queues[p], now); }
      assert Window(st', p) == Window(st, p);
    case _ => assert Window(st', p) == Window(st, p);
  }

  lemma WindowLeft(st: State, id: TaskId, w: WorkerId, now: Time, p: Project)
    requires Enabled(st, OfTrigger(id, w, now)) && st.triggers[id].project == p && st.triggers[id].pc.Enqueue?
    ensures Window(DoTrigger(st, id, w, now), p) == Window(st, p) - {id} && id in Window(st, p)
  {
  }

  /** Only two steps of a handler change the window of its project. */
  lemma WindowStays(st: State, id: TaskId, w: WorkerId, now: Time, p: Project)
    requires Enabled(st, OfTrigger(id, w, now))
    requires st.triggers[id].project == p ==> !st.triggers[id].pc.Enqueue?
    requires st.triggers[id].project == p && st.triggers[id].pc.CheckLength? ==> |QueueOf(st.queues, p)| >= MAX_QUEUE_SIZE
    ensures Window(DoTrigger(st, id, w, now), p) == Window(st, p)
  {
  }

  lemma QueueTrigger(st: State, id: TaskId, w: WorkerId, now: Time, p: Project)
    requires Enabled(st, OfTrigger(id, w, now))
    ensures var st' := DoTrigger(st, id, w, now);
            var t := st.triggers[id];
            |QueueOf(st'.queues, p)| == |QueueOf(st.queues, p)| + if t.project == p && t.pc.Enqueue? then 1 else 0
  {
  }

  lemma BoundTrigger(st: State, id: TaskId, w: WorkerId, now: Time, p: Project, k: nat)
    requires Enabled(st, OfTrigger(id, w, now))
    requires |QueueOf(st.queues, p)| + |Window(st, p)| <= MAX_QUEUE_SIZE - 1 + k
    requires |Window(DoTrigger(st, id, w, now), p)| <= k
    ensures |QueueOf(DoTrigger(st, id, w, now).queues, p)| + |Window(DoTrigger(st, id, w, now), p)| <= MAX_QUEUE_SIZE - 1 + k
  {
    var t := st.triggers[id];
    if t.project == p && t.pc.Enqueue? {
      WindowLeft(st, id, w, now, p);
    } else if !(t.project == p && t.pc.CheckLength? && |QueueOf(st.queues, p)| < MAX_QUEUE_SIZE) {
      WindowStays(st, id, w, now, p);
    }
    QueueTrigger(st, id, w, now, p);
  }

  lemma BoundWorker(st: State, w: WorkerId, now: Time, p: Project)
    requires Enabled(st, OfWorker(w, now))
    ensures Window(DoWorker(st, w, now), p) == Window(st, p)
    ensures |QueueOf(DoWorker(st, w, now).queues, p)| <= |QueueOf(st.queues, p)|
  {
  }

  lemma BoundRename(st: State, p: Project)
    requires Enabled(st, Rename) && HolderInv(st)
    ensures Window(DoRename(st), p) == Window(st, p)
  {
  }

  lemma {:induction false} BoundKept(run: seq<Step>, p: Project, k: nat)
    requires Runs(START, run) && Bounded(run, p, k)
    ensures var st := After(START, run);
            Unrecovered(st) && |Window(st, p)| <= k && |QueueOf(st.queues, p)| + |Window(st, p)| <= MAX_QUEUE_SIZE - 1 + k
  {
    if run != [] {
      BoundKept(run[..|run| - 1], p, k);
      RecordsKept(run[..|run| - 1]);
      BoundStep(After(START, run[..|run| - 1]), run[|run| - 1], p, k);
    }
  }

  /**
   With at most `k` trigger handlers between check and enqueue a queue never exceeds the limit by more
   than `k - 1`, in any run without recovery; serial handlers keep the limit itself.
   */
  lemma QueueBound(run: seq<Step>, p: Project, k: nat)
    requires Runs(START, run) && Bounded(run, p, k)
    ensures |QueueOf(After(START, run).queues, p)| <= MAX_QUEUE_SIZE - 1 + k
    ensures k == 1 ==> |QueueOf(After(START, run).queues, p)| <= MAX_QUEUE_SIZE
  {
    BoundKept(run, p, k);
  }
}
