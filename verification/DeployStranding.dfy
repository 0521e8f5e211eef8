/**
 When waiting work is left with nobody to run it: the exact steps that strand and that rescue it, the
 guard under which none is stranded, and a stranding continuation from wherever the guard fails.
 */
module DeployStranding {
  import opened Common
  import opened TaskStores
  import opened QueuePersistences
  import opened Agents
  import opened DeploySystem
  import DeployCoarse
  import opened DeployRuns
  import opened DeployExclusion
  import opened DeployOverlap

  /** A worker of the project, or a trigger that will start one: either goes on to empty the queue. */
  predicate Served(st: State, p: Project) {
    Executes(st, p) || exists id :: id in st.triggers && OnPath(st, id, p)
  }

  /** Recovery is over and the project's queue waits for nobody. */
  predicate Stranded(st: State, p: Project) {
    st.boot.Ready? && QueueOf(st.queues, p) != [] && !Served(st, p)
  }

  /** Between large steps that keep to one task a project, work is stranded when its project is not registered. */
  lemma StrandedQuietly(st: State)
    requires DeployCoarse.Quiet(st) && Exclusive(st)
    ensures NoneStranded(st) <==> forall p :: !Stranded(st, p)
  {
    forall p ensures Stranded(st, p) <==> p in st.queues && st.queues[p] != [] && p !in st.running {
      if w :| w in st.workers && st.workers[w].project == p { assert st.workers[w].project in st.running; }
      assert p in st.running ==> Executes(st, p);
    }
  }

  // ---------- who serves a project after a step ----------

  /** Workers and starting triggers of the project are still there. */
  predicate ServersStay(st: State, st': State, p: Project) {
    && (forall w :: w in st.workers && st.workers[w].project == p ==> w in st'.workers && st'.workers[w].project == p)
    && (forall id :: id in st.triggers && OnPath(st, id, p) ==> OnPath(st', id, p))
  }

  lemma StillServed(st: State, st': State, p: Project)
    requires ServersStay(st, st', p) && Served(st, p)
    ensures Served(st', p)
  {
    if Executes(st, p) {
      var w :| w in st.workers && st.workers[w].project == p;
      assert w in st'.workers && st'.workers[w].project == p;
    } else {
      var id :| id in st.triggers && OnPath(st, id, p);
      assert id in st'.triggers && OnPath(st', id, p);
    }
  }

  /** No worker and no starting trigger of the project is new. */
  lemma NoNewServer(st: State, st': State, p: Project)
    requires FewerWorkers(st, st') && FewerPaths(st, st') && Served(st', p)
    ensures Served(st, p)
  {
    if Executes(st', p) {
      FewerKeeps(st, st');
    } else {
      var id :| id in st'.triggers && OnPath(st', id, p);
      assert OnPath(st, id, p);
    }
  }

  // ---------- triggers ----------

  /** The running check finds the project unregistered. */
  predicate PassesCheck(st: State, id: TaskId) {
    id in st.triggers && st.triggers[id].pc.CheckRunning? && st.triggers[id].project !in st.running
  }

  lemma EntersServing(st: State, id: TaskId, w: WorkerId, now: Time)
    requires Enabled(st, OfTrigger(id, w, now)) && PassesCheck(st, id)
    ensures Served(DoTrigger(st, id, w, now), st.triggers[id].project)
  {
    assert OnPath(DoTrigger(st, id, w, now), id, st.triggers[id].project);
  }

  /** A trigger leaves the start path only by handing its task to a worker. */
  lemma TriggerServes(st: State, id: TaskId, w: WorkerId, now: Time, p: Project)
    requires Enabled(st, OfTrigger(id, w, now)) && Served(st, p)
    ensures Served(DoTrigger(st, id, w, now), p)
  {
    var st' := DoTrigger(st, id, w, now);
    if st.triggers[id].pc.Spawn? && st.triggers[id].project == p {
      assert w in st'.workers && st'.workers[w].project == p;
    } else {
      TriggerLeaves(st, id, w, now, p);
      StillServed(st, st', p);
    }
  }

  lemma TriggerLeaves(st: State, id: TaskId, w: WorkerId, now: Time, p: Project)
    requires Enabled(st, OfTrigger(id, w, now)) && !(st.triggers[id].pc.Spawn? && st.triggers[id].project == p)
    ensures ServersStay(st, DoTrigger(st, id, w, now), p)
  {
    if st.triggers[id].pc.Spawn? {
      SpawnLeaves(st, id, w, now, p);
    } else {
      TriggerFewer(st, id, w, now);
      if StartPath(st.triggers[id].pc) { PathGoesOn(st, id, w, now, p); } else { OffPathLeaves(st, id, w, now, p); }
    }
  }

  lemma SpawnLeaves(st: State, id: TaskId, w: WorkerId, now: Time, p: Project)
    requires Enabled(st, OfTrigger(id, w, now)) && st.triggers[id].pc.Spawn? && st.triggers[id].project != p
    ensures ServersStay(st, DoTrigger(st, id, w, now), p)
  {
  }

  lemma PathGoesOn(st: State, id: TaskId, w: WorkerId, now: Time, p: Project)
    requires Enabled(st, OfTrigger(id, w, now)) && StartPath(st.triggers[id].pc) && !st.triggers[id].pc.Spawn?
    ensures forall o :: o in st.triggers && OnPath(st, o, p) ==> OnPath(DoTrigger(st, id, w, now), o, p)
  {
  }

  lemma OffPathLeaves(st: State, id: TaskId, w: WorkerId, now: Time, p: Project)
    requires Enabled(st, OfTrigger(id, w, now)) && !StartPath(st.triggers[id].pc)
    ensures forall o :: o in st.triggers && OnPath(st, o, p) ==> OnPath(DoTrigger(st, id, w, now), o, p)
  {
  }

  lemma TriggerQueue(st: State, id: TaskId, w: WorkerId, now: Time, p: Project)
    requires Enabled(st, OfTrigger(id, w, now))
    ensures var st' := DoTrigger(st, id, w, now);
            && st'.boot == st.boot
            && if st.triggers[id].pc.Enqueue? && st.triggers[id].project == p then QueueOf(st'.queues, p) != []
               else QueueOf(st'.queues, p) == QueueOf(st.queues, p)
  {
    if !st.triggers[id].pc.Enqueue? { QueuesKept(st, id, w, now); }
  }

  lemma QueuesKept(st: State, id: TaskId, w: WorkerId, now: Time)
    requires Enabled(st, OfTrigger(id, w, now)) && !st.triggers[id].pc.Enqueue?
    ensures DoTrigger(st, id, w, now).queues == st.queues && DoTrigger(st, id, w, now).boot == st.boot
  {
  }

  lemma TriggerAdds(st: State, id: TaskId, w: WorkerId, now: Time, p: Project)
    requires Enabled(st, OfTrigger(id, w, now)) && !Served(st, p) && Served(DoTrigger(st, id, w, now), p)
    ensures PassesCheck(st, id) && st.triggers[id].project == p
  {
    var t := st.triggers[id];
    var st' := DoTrigger(st, id, w, now);
    if t.pc.Spawn? {
      assert OnPath(st, id, t.project);
      SpawnAdds(st, id, w, now, p);
    } else if !PassesCheck(st, id) {
      TriggerFewer(st, id, w, now);
      TriggerPaths(st, id, w, now);
      NoNewServer(st, st', p);
    } else {
      CheckAdds(st, id, w, now, p);
    }
  }

  lemma SpawnAdds(st: State, id: TaskId, w: WorkerId, now: Time, p: Project)
    requires Enabled(st, OfTrigger(id, w, now)) && st.triggers[id].pc.Spawn? && Served(DoTrigger(st, id, w, now), p)
    ensures Served(st, p)
  {
    var st' := DoTrigger(st, id, w, now);
    assert OnPath(st, id, st.triggers[id].project);
    if Executes(st', p) {
      var v :| v in st'.workers && st'.workers[v].project == p;
      assert v != w ==> v in st.workers && st.workers[v].project == p;
    } else {
      var o :| o in st'.triggers && OnPath(st', o, p);
      assert o in st.triggers && OnPath(st, o, p);
    }
  }

  lemma CheckAdds(st: State, id: TaskId, w: WorkerId, now: Time, p: Project)
    requires Enabled(st, OfTrigger(id, w, now)) && PassesCheck(st, id) && Served(DoTrigger(st, id, w, now), p)
    ensures Served(st, p) || st.triggers[id].project == p
  {
    var st' := DoTrigger(st, id, w, now);
    if Executes(st', p) {
      assert Executes(st, p);
    } else {
      var o :| o in st'.triggers && OnPath(st', o, p);
      assert o != id ==> o in st.triggers && OnPath(st, o, p);
    }
  }

  // ---------- workers ----------

  /** The worker finds no task for its project and leaves. */
  predicate Leaving(st: State, w: WorkerId) {
    w in st.workers && st.workers[w].pc.Dequeue? && QueueOf(st.queues, st.workers[w].project) == []
  }

  lemma WorkerServes(st: State, w: WorkerId, now: Time, p: Project)
    requires Enabled(st, OfWorker(w, now)) && !(Leaving(st, w) && st.workers[w].project == p) && Served(st, p)
    ensures Served(DoWorker(st, w, now), p)
  {
    WorkerFewer(st, w, now);
    WorkerStays(st, w, now, p);
    StillServed(st, DoWorker(st, w, now), p);
  }

  lemma WorkerStays(st: State, w: WorkerId, now: Time, p: Project)
    requires Enabled(st, OfWorker(w, now)) && !(Leaving(st, w) && st.workers[w].project == p)
    ensures var st' := DoWorker(st, w, now);
            forall v :: v in st.workers && st.workers[v].project == p ==> v in st'.workers && st'.workers[v].project == p
  {
  }

  /** A worker takes from its own project's queue only, and stays if there is something to take. */
  lemma WorkerQueue(st: State, w: WorkerId, now: Time, p: Project)
    requires Enabled(st, OfWorker(w, now))
    ensures QueueOf(st.queues, p) == [] ==> QueueOf(DoWorker(st, w, now).queues, p) == []
    ensures st.workers[w].project != p ==> QueueOf(DoWorker(st, w, now).queues, p) == QueueOf(st.queues, p)
  {
  }

  lemma WorkerStrandsNot(st: State, w: WorkerId, now: Time, p: Project)
    requires Enabled(st, OfWorker(w, now)) && !Stranded(st, p)
    ensures !Stranded(DoWorker(st, w, now), p)
  {
    WorkerQueue(st, w, now, p);
    WorkerFewer(st, w, now);
    if Served(st, p) && !(Leaving(st, w) && st.workers[w].project == p) { WorkerServes(st, w, now, p); }
  }

  // ---------- saves and recovery ----------

  lemma RenameServes(st: State, p: Project)
    requires Enabled(st, Rename) && HolderInv(st)
    ensures ServersStay(st, DoRename(st), p)
    ensures DoRename(st).queues == st.queues && DoRename(st).boot == st.boot
  {
  }

  lemma RenameServedSame(st: State, p: Project)
    requires Enabled(st, Rename) && HolderInv(st)
    ensures Served(DoRename(st), p) <==> Served(st, p)
  {
    RenameServes(st, p);
    RenameFewer(st);
    RenamePaths(st);
    if Served(st, p) { StillServed(st, DoRename(st), p); }
    if Served(DoRename(st), p) { NoNewServer(st, DoRename(st), p); }
  }

  lemma StartServedSame(st: State, step: Step, p: Project)
    requires Enabled(st, step) && step.Start?
    ensures Served(Apply(st, step), p) <==> Served(st, p)
  {
    var st' := Apply(st, step);
    assert step.id !in st.triggers;
    assert Executes(st', p) <==> Executes(st, p);
    if Served(st, p) { StillServed(st, st', p); }
    if Served(st', p) && !Executes(st', p) {
      var id :| id in st'.triggers && OnPath(st', id, p);
      assert id in st.triggers && OnPath(st, id, p);
    }
  }

  // ---------- the steps that strand ----------

  /** A trigger queues an item of a project nobody serves, or recovery ends with such an item queued. */
  predicate StrandsBy(st: State, step: Step, p: Project)
    requires Enabled(st, step)
  {
    match step
    case OfTrigger(id, w, now) => st.triggers[id].pc.Enqueue? && st.triggers[id].project == p && !Served(st, p)
    case Recover(known, w) => st.boot.todo == [] && QueueOf(st.queues, p) != [] && !Served(st, p)
    case _ => false
  }

  lemma TriggerStrandsExactly(st: State, id: TaskId, w: WorkerId, now: Time, p: Project)
    requires Enabled(st, OfTrigger(id, w, now)) && BootInv(st) && !Stranded(st, p)
    ensures Stranded(DoTrigger(st, id, w, now), p) <==> StrandsBy(st, OfTrigger(id, w, now), p)
  {
    TriggerQueue(st, id, w, now, p);
    if Served(st, p) {
      TriggerServes(st, id, w, now, p);
    } else if Served(DoTrigger(st, id, w, now), p) {
      TriggerAdds(st, id, w, now, p);
    }
  }

  lemma RecoverStrandsExactly(st: State, known: bool, w: WorkerId, p: Project)
    requires Enabled(st, Recover(known, w))
    ensures Stranded(DoRecover(st, known, w), p) <==> StrandsBy(st, Recover(known, w), p)
  {
    var st' := DoRecover(st, known, w);
    if st.boot.todo == [] {
      assert Executes(st', p) <==> Executes(st, p);
      assert forall id :: OnPath(st', id, p) <==> OnPath(st, id, p);
    }
  }

  lemma OtherStrandsNot(st: State, step: Step, p: Project)
    requires Enabled(st, step) && BootInv(st) && HolderInv(st) && !Stranded(st, p)
    requires !step.OfTrigger? && !step.OfWorker? && !step.Recover?
    ensures !Stranded(Apply(st, step), p)
  {
    var st' := Apply(st, step);
    match step
    case Start(id, q, r, now) => StartServedSame(st, step, p);
    case Rename =>
      RenameServes(st, p);
      RenameServedSame(st, p);
    case Expire(now) => if Served(st, p) { StillServed(st, st', p); }
    case _ => if Served(st, p) && st.boot.Ready? && !step.Crash? { StillServed(st, st', p); }
  }

  /** Exactly which steps strand a project that was not: both add the first waiting item unserved. */
  lemma StepStrandsExactly(st: State, step: Step, p: Project)
    requires Enabled(st, step) && BootInv(st) && HolderInv(st) && !Stranded(st, p)
    ensures Stranded(Apply(st, step), p) <==> StrandsBy(st, step, p)
  {
    match step
    case OfTrigger(id, w, now) => TriggerStrandsExactly(st, id, w, now, p);
    case OfWorker(w, now) => WorkerStrandsNot(st, w, now, p);
    case Recover(known, w) => RecoverStrandsExactly(st, known, w, p);
    case _ => OtherStrandsNot(st, step, p);
  }

  // ---------- a registered project is served ----------

  /** The trigger has registered its task and not handed it over. */
  predicate HoldsPlace(t: Trigger, p: Project) { t.project == p && (t.pc.PersistRunning? || t.pc.Spawn?) }

  /** The worker has at least its last unregistration before it. */
  predicate WillUnregister(k: Worker, p: Project) {
    && k.project == p
    && (k.pc.Deploying? || k.pc.UnregisterEarly? || k.pc.RemoveRecord? || k.pc.UnregisterLate?)
  }

  predicate StartsNext(boot: Boot, p: Project) {
    boot.Recovering? && boot.registered && boot.todo != [] && boot.todo[0].project == p
  }

  /** Somebody is there who will take the registration away. */
  predicate Accountable(st: State, p: Project) {
    || StartsNext(st.boot, p)
    || (exists id :: id in st.triggers && HoldsPlace(st.triggers[id], p))
    || (exists w :: w in st.workers && WillUnregister(st.workers[w], p))
  }

  predicate RegisteredInv(st: State, p: Project) { p in st.running ==> Accountable(st, p) }

  /** All who were accountable for the project still are. */
  predicate AccountStays(st: State, st': State, p: Project) {
    && (StartsNext(st.boot, p) ==> StartsNext(st'.boot, p))
    && (forall id :: id in st.triggers && HoldsPlace(st.triggers[id], p) ==> id in st'.triggers && HoldsPlace(st'.triggers[id], p))
    && (forall w :: w in st.workers && WillUnregister(st.workers[w], p) ==> w in st'.workers && WillUnregister(st'.workers[w], p))
  }

  lemma StillAccountable(st: State, st': State, p: Project)
    requires AccountStays(st, st', p) && RegisteredInv(st, p) && (p in st'.running ==> p in st.running)
    ensures RegisteredInv(st', p)
  {
    if p in st.running && !StartsNext(st.boot, p) {
      if id :| id in st.triggers && HoldsPlace(st.triggers[id], p) {
        assert id in st'.triggers && HoldsPlace(st'.triggers[id], p);
      } else {
        var w :| w in st.workers && WillUnregister(st.workers[w], p);
        assert w in st'.workers && WillUnregister(st'.workers[w], p);
      }
    }
  }

  lemma RegisteredTrigger(st: State, id: TaskId, w: WorkerId, now: Time, p: Project)
    requires Enabled(st, OfTrigger(id, w, now)) && RegisteredInv(st, p)
    ensures RegisteredInv(DoTrigger(st, id, w, now), p)
  {
    var st' := DoTrigger(st, id, w, now);
    var t := st.triggers[id];
    if t.pc.Register? && t.project == p {
      assert id in st'.triggers && HoldsPlace(st'.triggers[id], p);
    } else if t.pc.Spawn? && t.project == p {
      assert w in st'.workers && WillUnregister(st'.workers[w], p);
    } else {
      TriggerAccount(st, id, w, now, p);
      StillAccountable(st, st', p);
    }
  }

  lemma TriggerAccount(st: State, id: TaskId, w: WorkerId, now: Time, p: Project)
    requires Enabled(st, OfTrigger(id, w, now))
    requires st.triggers[id].project == p ==> !st.triggers[id].pc.Register? && !st.triggers[id].pc.Spawn?
    ensures AccountStays(st, DoTrigger(st, id, w, now), p)
    ensures p in DoTrigger(st, id, w, now).running ==> p in st.running
  {
    if !st.triggers[id].pc.Spawn? {
      TriggerFewer(st, id, w, now);
      PlacesHeld(st, id, w, now, p);
    } else {
      SpawnAccount(st, id, w, now, p);
    }
  }

  lemma SpawnAccount(st: State, id: TaskId, w: WorkerId, now: Time, p: Project)
    requires Enabled(st, OfTrigger(id, w, now)) && st.triggers[id].pc.Spawn? && st.triggers[id].project != p
    ensures AccountStays(st, DoTrigger(st, id, w, now), p) && DoTrigger(st, id, w, now).running == st.running
  {
  }

  lemma PlacesHeld(st: State, id: TaskId, w: WorkerId, now: Time, p: Project)
    requires Enabled(st, OfTrigger(id, w, now)) && !st.triggers[id].pc.Spawn?
    requires st.triggers[id].project == p ==> !st.triggers[id].pc.Register?
    ensures var st' := DoTrigger(st, id, w, now);
            && (forall o :: o in st.triggers && HoldsPlace(st.triggers[o], p) ==>
                  o in st'.triggers && HoldsPlace(st'.triggers[o], p))
            && (p in st'.running ==> p in st.running)
  {
  }

  lemma RegisteredWorker(st: State, w: WorkerId, now: Time, p: Project)
    requires Enabled(st, OfWorker(w, now)) && RegisteredInv(st, p)
    ensures RegisteredInv(DoWorker(st, w, now), p)
  {
    var st' := DoWorker(st, w, now);
    var k := st.workers[w];
    if k.project == p && (k.pc.UnregisterEarly? || k.pc.UnregisterLate?) {
      assert p !in st'.running;
    } else if k.project == p && k.pc.RegisterNext? {
      assert w in st'.workers && WillUnregister(st'.workers[w], p);
    } else {
      WorkerAccount(st, w, now, p);
      StillAccountable(st, st', p);
    }
  }

  lemma WorkerAccount(st: State, w: WorkerId, now: Time, p: Project)
    requires Enabled(st, OfWorker(w, now))
    requires var k := st.workers[w];
             k.project == p ==> !k.pc.UnregisterEarly? && !k.pc.UnregisterLate? && !k.pc.RegisterNext?
    ensures AccountStays(st, DoWorker(st, w, now), p)
    ensures p in DoWorker(st, w, now).running ==> p in st.running
  {
    WorkerFewer(st, w, now);
    WorkersAccount(st, w, now, p);
    WorkerRunning(st, w, now, p);
  }

  lemma WorkersAccount(st: State, w: WorkerId, now: Time, p: Project)
    requires Enabled(st, OfWorker(w, now))
    requires st.workers[w].project == p ==> !st.workers[w].pc.UnregisterLate?
    ensures var st' := DoWorker(st, w, now);
            forall v :: v in st.workers && WillUnregister(st.workers[v], p) ==>
              v in st'.workers && WillUnregister(st'.workers[v], p)
  {
  }

  lemma WorkerRunning(st: State, w: WorkerId, now: Time, p: Project)
    requires Enabled(st, OfWorker(w, now)) && (st.workers[w].project == p ==> !st.workers[w].pc.RegisterNext?)
    ensures p in DoWorker(st, w, now).running ==> p in st.running
  {
  }

  lemma RegisteredRecover(st: State, known: bool, w: WorkerId, p: Project)
    requires Enabled(st, Recover(known, w)) && RegisteredInv(st, p)
    ensures RegisteredInv(DoRecover(st, known, w), p)
  {
    var st' := DoRecover(st, known, w);
    if StartsNext(st.boot, p) {
      assert w in st'.workers && WillUnregister(st'.workers[w], p);
    } else if !StartsNext(st'.boot, p) {
      StillAccountable(st, st', p);
    }
  }

  lemma RegisteredRename(st: State, p: Project)
    requires Enabled(st, Rename) && HolderInv(st) && RegisteredInv(st, p)
    ensures RegisteredInv(DoRename(st), p)
  {
    RenameAccount(st, p);
    StillAccountable(st, DoRename(st), p);
  }

  lemma RenameAccount(st: State, p: Project)
    requires Enabled(st, Rename) && HolderInv(st)
    ensures AccountStays(st, DoRename(st), p) && DoRename(st).running == st.running
  {
  }

  lemma RegisteredStep(st: State, step: Step, p: Project)
    requires Enabled(st, step) && HolderInv(st) && RegisteredInv(st, p)
    ensures RegisteredInv(Apply(st, step), p)
  {
    match step
    case OfTrigger(id, w, now) => RegisteredTrigger(st, id, w, now, p);
    case OfWorker(w, now) => RegisteredWorker(st, w, now, p);
    case Recover(known, w) => RegisteredRecover(st, known, w, p);
    case Rename => RegisteredRename(st, p);
    case Crash =>
    case _ => StillAccountable(st, Apply(st, step), p);
  }

  lemma AccountableServes(st: State, p: Project)
    requires RegisteredInv(st, p) && p in st.running && st.boot.Ready?
    ensures Served(st, p)
  {
    if id :| id in st.triggers && HoldsPlace(st.triggers[id], p) {
      assert OnPath(st, id, p);
    } else {
      var w :| w in st.workers && WillUnregister(st.workers[w], p);
      assert Executes(st, p);
    }
  }

  lemma RegisteredNext(run: seq<Step>, states: seq<State>, i: nat, p: Project)
    requires Passes(run, states) && i < |run| && RegisteredInv(states[i], p)
    ensures RegisteredInv(states[i + 1], p)
  {
    StepOf(run, states, i);
    BasicKept(run, states, i);
    RegisteredStep(states[i], run[i], p);
  }

  lemma {:induction false} RegisteredKept(run: seq<Step>, states: seq<State>, n: nat, p: Project)
    requires Passes(run, states) && n <= |run|
    ensures RegisteredInv(states[n], p)
  {
    if n > 0 {
      RegisteredKept(run, states, n - 1, p);
      RegisteredNext(run, states, n - 1, p);
    }
  }

  lemma ReachableRegistered(st: State, p: Project)
    requires Reachable(st)
    ensures RegisteredInv(st, p)
  {
    var run, states :| PassesFrom(START, run, states) && states[|run|] == st;
    RegisteredKept(run, states, |run|, p);
  }

  /** Once recovery is over, no registration is left behind: somebody works for the project or is about to. */
  lemma RegisteredIsServed(st: State, p: Project)
    requires Reachable(st) && st.boot.Ready? && p in st.running
    ensures Served(st, p)
  {
    ReachableRegistered(st, p);
    AccountableServes(st, p);
  }

  // ---------- the steps that rescue ----------

  /** A trigger of the project makes its running check, the whole queue expires, or the agent crashes. */
  predicate RescuesBy(st: State, step: Step, p: Project)
    requires Enabled(st, step)
  {
    match step
    case OfTrigger(id, w, now) => st.triggers[id].pc.CheckRunning? && st.triggers[id].project == p
    case Expire(now) => Fresh(QueueOf(st.queues, p), now) == []
    case Crash => true
    case _ => false
  }

  lemma TriggerRescuesExactly(st: State, id: TaskId, w: WorkerId, now: Time, p: Project)
    requires Enabled(st, OfTrigger(id, w, now)) && Stranded(st, p) && p !in st.running
    ensures !Stranded(DoTrigger(st, id, w, now), p) <==> RescuesBy(st, OfTrigger(id, w, now), p)
  {
    TriggerQueue(st, id, w, now, p);
    if RescuesBy(st, OfTrigger(id, w, now), p) {
      EntersServing(st, id, w, now);
    } else if Served(DoTrigger(st, id, w, now), p) {
      TriggerAdds(st, id, w, now, p);
    }
  }

  lemma WorkerRescuesNot(st: State, w: WorkerId, now: Time, p: Project)
    requires Enabled(st, OfWorker(w, now)) && Stranded(st, p)
    ensures Stranded(DoWorker(st, w, now), p)
  {
    WorkerFewer(st, w, now);
    WorkerQueue(st, w, now, p);
    if Served(DoWorker(st, w, now), p) { NoNewServer(st, DoWorker(st, w, now), p); }
  }

  lemma OtherRescuesExactly(st: State, step: Step, p: Project)
    requires Enabled(st, step) && HolderInv(st) && Stranded(st, p) && !step.OfTrigger? && !step.OfWorker?
    ensures !Stranded(Apply(st, step), p) <==> RescuesBy(st, step, p)
  {
    match step
    case Start(id, q, r, now) => StartServedSame(st, step, p);
    case Rename =>
      RenameServes(st, p);
      RenameServedSame(st, p);
    case Expire(now) => if Served(Apply(st, step), p) { NoNewServer(st, Apply(st, step), p); }
    case WriteHalf => if Served(Apply(st, step), p) { NoNewServer(st, Apply(st, step), p); }
    case WriteWhole => if Served(Apply(st, step), p) { NoNewServer(st, Apply(st, step), p); }
    case _ =>
  }

  /**
   Stranded work stays so until one of these: no worker turns to it. A further trigger of the project never
   finds it registered, so it starts, and its worker goes on to the queue.
   */
  lemma StepRescuesExactly(st: State, step: Step, p: Project)
    requires Reachable(st) && Enabled(st, step) && Stranded(st, p)
    ensures !Stranded(Apply(st, step), p) <==> RescuesBy(st, step, p)
  {
    ReachableBasic(st);
    if p in st.running { RegisteredIsServed(st, p); }
    match step
    case OfTrigger(id, w, now) => TriggerRescuesExactly(st, id, w, now, p);
    case OfWorker(w, now) => WorkerRescuesNot(st, w, now, p);
    case _ => OtherRescuesExactly(st, step, p);
  }

  // ---------- the guard ----------

  /** A trigger of the project that found it registered and has not queued its item yet. */
  predicate AboutToQueue(t: Trigger, p: Project) {
    t.project == p && (t.pc.CheckLength? || t.pc.CreateQueued? || t.pc.Enqueue?)
  }

  predicate SomeoneQueues(st: State, p: Project) {
    exists id :: id in st.triggers && AboutToQueue(st.triggers[id], p)
  }

  /** Nobody but worker `w` serves the project. */
  predicate LastServer(st: State, w: WorkerId, p: Project) {
    && (forall v :: v in st.workers && st.workers[v].project == p ==> v == w)
    && (forall id :: id in st.triggers ==> !OnPath(st, id, p))
  }

  /**
   The last who serves the project leaves while a trigger is about to queue an item for it; or recovery
   ends with an item queued and nobody serving the project.
   */
  predicate Deserts(st: State, step: Step, p: Project)
    requires Enabled(st, step)
  {
    match step
    case OfWorker(w, now) => Leaving(st, w) && st.workers[w].project == p && LastServer(st, w, p) && SomeoneQueues(st, p)
    case Recover(known, w) => st.boot.todo == [] && QueueOf(st.queues, p) != [] && !Served(st, p)
    case _ => false
  }

  /** Whoever is about to queue an item has somebody who serves the project. */
  predicate Attended(st: State, p: Project) { SomeoneQueues(st, p) ==> Served(st, p) }

  lemma AttendedTrigger(st: State, id: TaskId, w: WorkerId, now: Time, p: Project)
    requires Enabled(st, OfTrigger(id, w, now)) && st.boot.Ready? && Attended(st, p) && RegisteredInv(st, p)
    ensures Attended(DoTrigger(st, id, w, now), p)
  {
    if SomeoneQueues(DoTrigger(st, id, w, now), p) {
      QueueingComes(st, id, w, now, p);
      if !SomeoneQueues(st, p) { AccountableServes(st, p); }
      TriggerServes(st, id, w, now, p);
    }
  }

  lemma QueueingComes(st: State, id: TaskId, w: WorkerId, now: Time, p: Project)
    requires Enabled(st, OfTrigger(id, w, now)) && SomeoneQueues(DoTrigger(st, id, w, now), p)
    ensures SomeoneQueues(st, p) || (st.triggers[id].pc.CheckRunning? && p in st.running)
  {
    var st' := DoTrigger(st, id, w, now);
    var o :| o in st'.triggers && AboutToQueue(st'.triggers[o], p);
    assert o != id ==> o in st.triggers && AboutToQueue(st.triggers[o], p);
    assert AboutToQueue(st.triggers[id], p) || o != id || st.triggers[id].pc.CheckRunning?;
  }

  lemma AttendedWorker(st: State, w: WorkerId, now: Time, p: Project)
    requires Enabled(st, OfWorker(w, now)) && Attended(st, p) && !Deserts(st, OfWorker(w, now), p)
    ensures Attended(DoWorker(st, w, now), p)
  {
    var st' := DoWorker(st, w, now);
    WorkerFewer(st, w, now);
    if SomeoneQueues(st', p) {
      if Leaving(st, w) && st.workers[w].project == p {
        OthersServe(st, w, now, p);
      } else {
        WorkerServes(st, w, now, p);
      }
    }
  }

  lemma OthersServe(st: State, w: WorkerId, now: Time, p: Project)
    requires Enabled(st, OfWorker(w, now)) && Leaving(st, w) && !LastServer(st, w, p)
    ensures Served(DoWorker(st, w, now), p)
  {
    var st' := DoWorker(st, w, now);
    if v :| v in st.workers && st.workers[v].project == p && v != w {
      assert v in st'.workers && st'.workers[v].project == p;
    } else {
      var id :| id in st.triggers && OnPath(st, id, p);
      assert id in st'.triggers && OnPath(st', id, p);
    }
  }

  lemma RenameQueues(st: State, p: Project)
    requires Enabled(st, Rename) && HolderInv(st) && SomeoneQueues(DoRename(st), p)
    ensures SomeoneQueues(st, p)
  {
    var id :| id in DoRename(st).triggers && AboutToQueue(DoRename(st).triggers[id], p);
    assert id in st.triggers && AboutToQueue(st.triggers[id], p);
  }

  lemma AttendedOther(st: State, step: Step, p: Project)
    requires Enabled(st, step) && BootInv(st) && HolderInv(st) && Attended(st, p)
    requires !step.OfTrigger? && !step.OfWorker?
    ensures Attended(Apply(st, step), p)
  {
    var st' := Apply(st, step);
    match step
    case Rename =>
      RenameServedSame(st, p);
      if SomeoneQueues(st', p) { RenameQueues(st, p); }
    case Start(id, q, r, now) =>
      StartServedSame(st, step, p);
      if o :| o in st'.triggers && AboutToQueue(st'.triggers[o], p) { assert o in st.triggers && AboutToQueue(st.triggers[o], p); }
    case Recover(known, w) => assert st'.triggers == map[];
    case Crash =>
    case _ => if Served(st, p) { StillServed(st, st', p); }
  }

  ghost predicate CareInv(st: State, p: Project) { !Stranded(st, p) && Attended(st, p) && RegisteredInv(st, p) }

  lemma CareStep(st: State, step: Step, p: Project)
    requires Enabled(st, step) && BasicInv(st) && CareInv(st, p) && !Deserts(st, step, p)
    ensures CareInv(Apply(st, step), p)
  {
    RegisteredStep(st, step, p);
    StepStrandsExactly(st, step, p);
    match step
    case OfTrigger(id, w, now) =>
      assert AboutToQueue(st.triggers[id], p) ==> SomeoneQueues(st, p);
      AttendedTrigger(st, id, w, now, p);
    case OfWorker(w, now) => AttendedWorker(st, w, now, p);
    case _ => AttendedOther(st, step, p);
  }

  /** Nobody deserts the project in the run. */
  ghost predicate NeverDeserted(run: seq<Step>, states: seq<State>, p: Project) {
    forall i {:trigger run[i]} :: 0 <= i < |run| && i < |states| && Enabled(states[i], run[i]) ==> !Deserts(states[i], run[i], p)
  }

  lemma CareNext(run: seq<Step>, states: seq<State>, i: nat, p: Project)
    requires Passes(run, states) && NeverDeserted(run, states, p) && i < |run| && CareInv(states[i], p)
    ensures CareInv(states[i + 1], p)
  {
    StepOf(run, states, i);
    BasicKept(run, states, i);
    CareStep(states[i], run[i], p);
  }

  lemma {:induction false} CareKept(run: seq<Step>, states: seq<State>, n: nat, p: Project)
    requires Passes(run, states) && NeverDeserted(run, states, p) && n <= |run|
    ensures CareInv(states[n], p)
  {
    if n > 0 {
      CareKept(run, states, n - 1, p);
      CareNext(run, states, n - 1, p);
    }
  }

  /** Through any interleaving, crash and restart: a project nobody deserts never has work waiting for nobody. */
  lemma GuardServes(run: seq<Step>, states: seq<State>, n: nat, p: Project)
    requires Passes(run, states) && NeverDeserted(run, states, p) && n <= |run|
    ensures !Stranded(states[n], p)
  {
    CareKept(run, states, n, p);
  }

  // ---------- and where the guard fails ----------

  function Left(pc: TriggerPc): nat {
    if pc.CheckLength? then 2 else if pc.CreateQueued? then 1 else 0
  }

  /** A trigger that is about to queue its item can do so, and nobody starts to serve the project meanwhile. */
  lemma QueuesUnserved(origin: State, st: State, id: TaskId, p: Project) returns (st': State)
    requires LeadsTo(origin, st) && st.boot.Ready? && id in st.triggers && AboutToQueue(st.triggers[id], p)
    requires QueueOf(st.queues, p) == [] && !Served(st, p)
    ensures LeadsTo(origin, st') && Stranded(st', p)
    decreases Left(st.triggers[id].pc)
  {
    var w := FreshWorker(st);
    LeadsStep(origin, st, OfTrigger(id, w, 0));
    var next := DoTrigger(st, id, w, 0);
    TriggerQueue(st, id, w, 0, p);
    if Served(next, p) { TriggerAdds(st, id, w, 0, p); }
    st' := next;
    if !st.triggers[id].pc.Enqueue? { st' := QueuesUnserved(origin, next, id, p); }
  }

  lemma LastLeaves(st: State, w: WorkerId, now: Time, p: Project)
    requires Enabled(st, OfWorker(w, now)) && Leaving(st, w) && st.workers[w].project == p && LastServer(st, w, p)
    ensures var st' := DoWorker(st, w, now);
            && !Served(st', p) && QueueOf(st'.queues, p) == [] && st'.triggers == st.triggers && st'.boot == st.boot
  {
    var st' := DoWorker(st, w, now);
    forall v | v in st'.workers ensures st'.workers[v].project != p { assert v in st.workers && v != w; }
    forall id | id in st'.triggers ensures !OnPath(st', id, p) { assert !OnPath(st, id, p); }
  }

  /** From every reachable state, a step that deserts a project can be followed by work waiting for nobody. */
  lemma ServiceIsNeeded(st: State, step: Step, p: Project)
    requires Reachable(st) && Enabled(st, step) && Deserts(st, step, p)
    ensures exists st' :: LeadsTo(Apply(st, step), st') && Stranded(st', p)
  {
    ReachableBasic(st);
    LeadsSelf(Apply(st, step));
    match step
    case OfWorker(w, now) =>
      var id :| id in st.triggers && AboutToQueue(st.triggers[id], p);
      LastLeaves(st, w, now, p);
      var st' := QueuesUnserved(Apply(st, step), Apply(st, step), id, p);
    case Recover(known, w) => RecoverStrandsExactly(st, known, w, p);
  }
}
