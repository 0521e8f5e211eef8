/** Each queue follows the order of the persisted list through every run, crash and recovery. */
module QueueRestarts {
  import opened Common
  import opened TaskStores
  import opened QueuePersistences
  import opened Agents
  import opened DeploySystem
  import opened QueueOrder

  /** A step of the deployment system, or a trigger that queues its task and saves the record in one go. */
  datatype Medium = Fine(step: Step) | EnqueuePersisted(id: TaskId, w: WorkerId, now: Time)

  predicate MayStep(st: State, m: Medium) {
    match m
    case Fine(step) => Enabled(st, step) && (step.OfTrigger? ==> !Queueing(st.triggers[step.id].pc))
    case EnqueuePersisted(id, w, now) =>
      id in st.triggers && st.triggers[id].pc.Enqueue? && st.lock.Free? && w !in st.workers
  }

  predicate Queueing(pc: TriggerPc) { pc.Enqueue? || pc.PersistQueued? }

  /** Push to the queue, add the record, write the temporary file, rename it. */
  function Step4(st: State, id: TaskId, w: WorkerId, now: Time): State
    requires MayStep(st, EnqueuePersisted(id, w, now))
  {
    var pushed := Apply(st, OfTrigger(id, w, now));
    var added := Apply(pushed, OfTrigger(id, w, now));
    var written := Apply(added, WriteWhole);
    Apply(written, Rename)
  }

  function DoMedium(st: State, m: Medium): State
    requires MayStep(st, m)
  {
    match m
    case Fine(step) => Apply(st, step)
    case EnqueuePersisted(id, w, now) => Step4(st, id, w, now)
  }

  /** From `st` the steps of `run` lead through these states. */
  ghost predicate PassesFrom(st: State, run: seq<Medium>, states: seq<State>) {
    && |states| == |run| + 1 && states[0] == st
    && forall i {:trigger run[i]} :: 0 <= i < |run| ==> MayStep(states[i], run[i]) && DoMedium(states[i], run[i]) == states[i + 1]
  }

  ghost predicate Passes(run: seq<Medium>, states: seq<State>) { PassesFrom(START, run, states) }

  /** The second state can follow the first. */
  ghost predicate LeadsTo(st: State, st': State) {
    exists run, states :: PassesFrom(st, run, states) && states[|run|] == st'
  }

  ghost predicate Reachable(st: State) { LeadsTo(START, st) }

  lemma LeadsSelf(st: State)
    ensures LeadsTo(st, st)
  {
    assert PassesFrom(st, [], [st]);
  }

  lemma LeadsStep(st: State, mid: State, m: Medium)
    requires LeadsTo(st, mid) && MayStep(mid, m)
    ensures LeadsTo(st, DoMedium(mid, m))
  {
    var run, states :| PassesFrom(st, run, states) && states[|run|] == mid;
    assert PassesFrom(st, run + [m], states + [DoMedium(mid, m)]);
  }

  lemma StartReachable()
    ensures Reachable(START)
  {
    LeadsSelf(START);
  }

  lemma Reaches(st: State, m: Medium)
    requires Reachable(st) && MayStep(st, m)
    ensures Reachable(DoMedium(st, m))
  {
    LeadsStep(START, st, m);
  }

  lemma StepOf(run: seq<Medium>, states: seq<State>, i: nat)
    requires Passes(run, states) && i < |run|
    ensures MayStep(states[i], run[i]) && DoMedium(states[i], run[i]) == states[i + 1]
  {
  }

  /** The record a queued trigger saves and the item it queues. */
  function RecordOf(id: TaskId, t: Trigger): PersistedTask {
    PersistedTask(id, t.project, t.request, false, t.at, None)
  }

  lemma Step4Is(st: State, id: TaskId, w: WorkerId, now: Time)
    requires MayStep(st, EnqueuePersisted(id, w, now))
    ensures var st' := Step4(st, id, w, now);
            var t := st.triggers[id];
            var item := QueuedDeploy(id, t.request, t.at);
            && st'.queues == st.queues[t.project := QueueOf(st.queues, t.project) + [item]]
            && st'.memory == AddTo(st.memory, RecordOf(id, t)) && st'.file == Some(st'.memory)
            && st'.triggers == st.triggers - {id} && st'.workers == st.workers && st'.boot == st.boot
            && st'.lock == Free && st'.temp == NoTemp
  {
    var t := st.triggers[id];
    var pushed := Apply(st, OfTrigger(id, w, now));
    assert pushed.triggers[id].pc == PersistQueued;
    var added := Apply(pushed, OfTrigger(id, w, now));
    assert added.triggers == pushed.triggers;
    assert pushed.triggers - {id} == st.triggers - {id};
  }

  // ---------- every id is in one place ----------

  datatype Place = AtTrigger | AtQueue(p: Project, i: nat) | AtWorker(w: WorkerId) | AtTodo(i: nat)

  predicate At(st: State, id: TaskId, a: Place) {
    match a
    case AtTrigger => id in st.triggers
    case AtQueue(p, i) => p in st.queues && i < |st.queues[p]| && st.queues[p][i].id == id
    case AtWorker(w) => WorksOn(st, w, id)
    case AtTodo(i) => st.boot.Recovering? && i < |st.boot.todo| && st.boot.todo[i].id == id
  }

  /** A task is with its trigger, once in one queue, with one worker, or once on the list to recover. */
  ghost predicate OnePlace(st: State) {
    forall id, a, b :: At(st, id, a) && At(st, id, b) ==> a == b
  }

  predicate ListsInv(st: State) {
    Distinct(st.memory) && (st.file.Some? ==> Distinct(st.file.value)) && (st.temp.Whole? ==> Distinct(st.temp.tasks))
  }

  predicate Unsaved(pc: TriggerPc) {
    pc.CheckRunning? || pc.CheckLength? || pc.CreateQueued? || pc.Enqueue?
  }

  /** A trigger that may still queue its task has no record yet. */
  predicate UnsavedInv(st: State) {
    forall id :: id in st.triggers && Unsaved(st.triggers[id].pc) ==> !HasId(st.memory, id)
  }

  /** Each place an id is in after a step comes from a place it was in before, no two from the same. */
  lemma Moved(st: State, st': State, back: (TaskId, Place) -> Place)
    requires OnePlace(st)
    requires forall id, a :: At(st', id, a) ==> At(st, id, back(id, a))
    requires forall id, a, b :: At(st', id, a) && At(st', id, b) && back(id, a) == back(id, b) ==> a == b
    ensures OnePlace(st')
  {
    forall id, a, b | At(st', id, a) && At(st', id, b) ensures a == b {
      assert At(st, id, back(id, a)) && At(st, id, back(id, b));
    }
  }

  lemma PlacedIsLive(st: State, id: TaskId, a: Place)
    requires At(st, id, a) && st.boot.Ready?
    ensures Live(st, id)
  {
    if a.AtQueue? { assert InQueue(st.queues[a.p], id); }
  }

  lemma StartPlaces(st: State, id: TaskId, p: Project, r: Request, now: Time)
    requires Enabled(st, Start(id, p, r, now)) && OnePlace(st)
    ensures OnePlace(Apply(st, Start(id, p, r, now)))
  {
    var st' := Apply(st, Start(id, p, r, now));
    forall a | At(st', id, a) ensures a == AtTrigger {
      if a != AtTrigger { PlacedIsLive(st, id, a); }
    }
    forall o, a, b | At(st', o, a) && At(st', o, b) ensures a == b {
      if o != id { assert At(st, o, a) && At(st, o, b); }
    }
  }

  lemma TriggerPlaces(st: State, id: TaskId, w: WorkerId, now: Time)
    requires Enabled(st, OfTrigger(id, w, now)) && !Queueing(st.triggers[id].pc) && OnePlace(st)
    ensures OnePlace(DoTrigger(st, id, w, now))
  {
    var st' := DoTrigger(st, id, w, now);
    var back := (o: TaskId, a: Place) => if o == id && a == AtWorker(w) then AtTrigger else a;
    assert st.triggers[id].pc.Spawn? ==> id !in st'.triggers;
    Moved(st, st', back);
  }

  lemma EnqueuePlaces(st: State, id: TaskId, w: WorkerId, now: Time)
    requires MayStep(st, EnqueuePersisted(id, w, now)) && OnePlace(st)
    ensures OnePlace(Step4(st, id, w, now))
  {
    Step4Is(st, id, w, now);
    var st' := Step4(st, id, w, now);
    var p := st.triggers[id].project;
    var last := AtQueue(p, |QueueOf(st.queues, p)|);
    Moved(st, st', (o: TaskId, a: Place) => if a == last then AtTrigger else a);
  }

  lemma WorkerPlaces(st: State, w: WorkerId, now: Time)
    requires Enabled(st, OfWorker(w, now)) && OnePlace(st)
    ensures OnePlace(DoWorker(st, w, now))
  {
    var k := st.workers[w];
    if k.pc.Dequeue? && QueueOf(st.queues, k.project) != [] {
      DequeuePlaces(st, w, now);
    } else {
      Moved(st, DoWorker(st, w, now), (o: TaskId, a: Place) => a);
    }
  }

  lemma DequeuePlaces(st: State, w: WorkerId, now: Time)
    requires Enabled(st, OfWorker(w, now)) && OnePlace(st)
    requires st.workers[w].pc.Dequeue? && QueueOf(st.queues, st.workers[w].project) != []
    ensures OnePlace(DoWorker(st, w, now))
  {
    var p := st.workers[w].project;
    Moved(st, DoWorker(st, w, now), (o: TaskId, a: Place) =>
      if a == AtWorker(w) then AtQueue(p, 0) else if a.AtQueue? && a.p == p then AtQueue(p, a.i + 1) else a);
  }

  lemma RecoverPlaces(st: State, known: bool, w: WorkerId)
    requires Enabled(st, Recover(known, w)) && OnePlace(st)
    ensures OnePlace(DoRecover(st, known, w))
  {
    var st' := DoRecover(st, known, w);
    var todo := st.boot.todo;
    if todo == [] || (!st.boot.registered && known && todo[0].running) {
      Moved(st, st', (o: TaskId, a: Place) => a);
    } else if st.boot.registered {
      Moved(st, st', (o: TaskId, a: Place) =>
        if a.AtTodo? then AtTodo(a.i + 1) else if a == AtWorker(w) then AtTodo(0) else a);
    } else {
      RequeuePlaces(st, known, w);
    }
  }

  lemma RequeuePlaces(st: State, known: bool, w: WorkerId)
    requires Enabled(st, Recover(known, w)) && OnePlace(st) && st.boot.todo != [] && !st.boot.registered
    requires !(known && st.boot.todo[0].running)
    ensures OnePlace(DoRecover(st, known, w))
  {
    var p := st.boot.todo[0].project;
    var last := AtQueue(p, |QueueOf(st.queues, p)|);
    Moved(st, DoRecover(st, known, w), (o: TaskId, a: Place) =>
      if a.AtTodo? then AtTodo(a.i + 1) else if a == last then AtTodo(0) else a);
  }

  /** Where the `i`-th item that stays was before the expiry. */
  function Origin(q: Items, i: nat, now: Time): nat {
    if q == [] then 0
    else if Stale(q[0], now) then 1 + Origin(q[1..], i, now)
    else if i == 0 then 0 else 1 + Origin(q[1..], i - 1, now)
  }

  lemma {:induction false} OriginIs(q: Items, i: nat, now: Time)
    requires i < |Fresh(q, now)|
    ensures Origin(q, i, now) < |q| && q[Origin(q, i, now)] == Fresh(q, now)[i]
  {
    if Stale(q[0], now) {
      assert Fresh(q, now) == Fresh(q[1..], now);
      OriginIs(q[1..], i, now);
    } else if i > 0 {
      assert Fresh(q, now)[i] == Fresh(q[1..], now)[i - 1];
      OriginIs(q[1..], i - 1, now);
    }
  }

  lemma {:induction false} OriginOnce(q: Items, i: nat, j: nat, now: Time)
    requires i < j < |Fresh(q, now)|
    ensures Origin(q, i, now) < Origin(q, j, now)
  {
    if Stale(q[0], now) {
      assert Fresh(q, now) == Fresh(q[1..], now);
      OriginOnce(q[1..], i, j, now);
    } else if i > 0 {
      OriginOnce(q[1..], i - 1, j - 1, now);
    }
  }

  lemma ExpirePlaces(st: State, now: Time)
    requires Enabled(st, Expire(now)) && OnePlace(st)
    ensures OnePlace(Apply(st, Expire(now)))
  {
    var st' := Apply(st, Expire(now));
    var back := (o: TaskId, a: Place) =>
      if a.AtQueue? && a.p in st.queues then AtQueue(a.p, Origin(st.queues[a.p], a.i, now)) else a;
    forall o, a | At(st', o, a) ensures At(st, o, back(o, a)) {
      if a.AtQueue? { OriginIs(st.queues[a.p], a.i, now); }
    }
    forall o, a, b | At(st', o, a) && At(st', o, b) && back(o, a) == back(o, b) ensures a == b {
      if a.AtQueue? && b.AtQueue? {
        var q := st.queues[a.p];
        if a.i < b.i { OriginOnce(q, a.i, b.i, now); } else if b.i < a.i { OriginOnce(q, b.i, a.i, now); }
      }
    }
    Moved(st, st', back);
  }

  lemma LoadPlaces(st: State)
    requires Enabled(st, Load) && BootInv(st) && ListsInv(st)
    ensures OnePlace(Apply(st, Load))
  {
  }

  lemma RenamePlaces(st: State)
    requires Enabled(st, Rename) && OnePlace(st)
    ensures OnePlace(DoRename(st))
  {
    Moved(st, DoRename(st), (o: TaskId, a: Place) => a);
  }

  lemma PlacesStep(st: State, m: Medium)
    requires MayStep(st, m) && OnePlace(st) && BootInv(st) && ListsInv(st)
    ensures OnePlace(DoMedium(st, m))
  {
    match m
    case EnqueuePersisted(id, w, now) => EnqueuePlaces(st, id, w, now);
    case Fine(Start(id, p, r, now)) => StartPlaces(st, id, p, r, now);
    case Fine(OfTrigger(id, w, now)) => TriggerPlaces(st, id, w, now);
    case Fine(OfWorker(w, now)) => WorkerPlaces(st, w, now);
    case Fine(Recover(known, w)) => RecoverPlaces(st, known, w);
    case Fine(Expire(now)) => ExpirePlaces(st, now);
    case Fine(Load) => LoadPlaces(st);
    case Fine(Rename) => RenamePlaces(st);
    case Fine(step) => Moved(st, Apply(st, step), (o: TaskId, a: Place) => a);
  }

  // ---------- the lists ----------

  lemma AddDistinct(q: seq<PersistedTask>, t: PersistedTask)
    requires Distinct(q)
    ensures Distinct(AddTo(q, t))
  {
  }

  lemma ListsTrigger(st: State, id: TaskId, w: WorkerId, now: Time)
    requires Enabled(st, OfTrigger(id, w, now)) && ListsInv(st)
    ensures ListsInv(DoTrigger(st, id, w, now))
  {
    var t := st.triggers[id];
    if t.pc.PersistQueued? {
      AddDistinct(st.memory, RecordOf(id, t));
    } else if t.pc.PersistRunning? {
      AddDistinct(st.memory, PersistedTask(id, t.project, t.request, true, now, Some(now)));
    }
  }

  lemma ListsWorker(st: State, w: WorkerId, now: Time)
    requires Enabled(st, OfWorker(w, now)) && ListsInv(st)
    ensures ListsInv(DoWorker(st, w, now))
  {
    var k := st.workers[w];
    if k.pc.RemoveRecord? {
      RemoveDistinct(st.memory, k.id);
    } else if k.pc.MarkRecord? {
      ListsMark(st, w, now);
    }
  }

  lemma ListsMark(st: State, w: WorkerId, now: Time)
    requires w in st.workers && st.workers[w].pc.MarkRecord? && ListsInv(st)
    ensures ListsInv(DoWorker(st, w, now))
  {
    MarkInIds(st.memory, st.workers[w].id, now);
  }

  lemma ListsStep(st: State, m: Medium)
    requires MayStep(st, m) && ListsInv(st)
    ensures ListsInv(DoMedium(st, m))
  {
    match m
    case EnqueuePersisted(id, w, now) => ListsEnqueue(st, id, w, now);
    case Fine(OfTrigger(id, w, now)) => ListsTrigger(st, id, w, now);
    case Fine(OfWorker(w, now)) => ListsWorker(st, w, now);
    case Fine(Rename) => ListsRename(st);
    case Fine(Recover(known, w)) => ListsRecover(st, known, w);
    case Fine(step) =>
  }

  lemma ListsRecover(st: State, known: bool, w: WorkerId)
    requires Enabled(st, Recover(known, w)) && ListsInv(st)
    ensures ListsInv(DoRecover(st, known, w))
  {
  }

  lemma ListsEnqueue(st: State, id: TaskId, w: WorkerId, now: Time)
    requires MayStep(st, EnqueuePersisted(id, w, now)) && ListsInv(st)
    ensures ListsInv(Step4(st, id, w, now))
  {
    Step4Is(st, id, w, now);
    AddDistinct(st.memory, RecordOf(id, st.triggers[id]));
  }

  lemma ListsRename(st: State)
    requires Enabled(st, Rename) && ListsInv(st)
    ensures ListsInv(DoRename(st))
  {
  }

  lemma MediumBoot(st: State, m: Medium)
    requires MayStep(st, m) && BootInv(st)
    ensures BootInv(DoMedium(st, m))
  {
    match m
    case EnqueuePersisted(id, w, now) => Step4Is(st, id, w, now);
    case Fine(step) => BootStep(st, step);
  }

  lemma UnsavedTrigger(st: State, id: TaskId, w: WorkerId, now: Time)
    requires Enabled(st, OfTrigger(id, w, now)) && !Queueing(st.triggers[id].pc) && UnsavedInv(st)
    ensures UnsavedInv(DoTrigger(st, id, w, now))
  {
    var st' := DoTrigger(st, id, w, now);
    var t := st.triggers[id];
    forall o | o in st'.triggers && Unsaved(st'.triggers[o].pc) ensures !HasId(st'.memory, o) {
      if t.pc.PersistRunning? {
        AddToIds(st.memory, PersistedTask(id, t.project, t.request, true, now, Some(now)), o);
      }
    }
  }

  lemma UnsavedWorker(st: State, w: WorkerId, now: Time)
    requires Enabled(st, OfWorker(w, now)) && UnsavedInv(st)
    ensures UnsavedInv(DoWorker(st, w, now))
  {
    var st' := DoWorker(st, w, now);
    var k := st.workers[w];
    forall o | o in st'.triggers && Unsaved(st'.triggers[o].pc) ensures !HasId(st'.memory, o) {
      if k.pc.RemoveRecord? {
        RemoveFromIds(st.memory, k.id, o);
      } else if k.pc.MarkRecord? {
        MarkInHas(st.memory, k.id, now, o);
      }
    }
  }

  lemma UnsavedStep(st: State, m: Medium)
    requires MayStep(st, m) && UnsavedInv(st) && BootInv(st)
    ensures UnsavedInv(DoMedium(st, m))
  {
    match m
    case EnqueuePersisted(id, w, now) =>
      Step4Is(st, id, w, now);
      forall o | o in st.triggers && o != id && Unsaved(st.triggers[o].pc) ensures !HasId(DoMedium(st, m).memory, o) {
        AddToIds(st.memory, RecordOf(id, st.triggers[id]), o);
      }
    case Fine(OfTrigger(id, w, now)) => UnsavedTrigger(st, id, w, now);
    case Fine(OfWorker(w, now)) => UnsavedWorker(st, w, now);
    case Fine(Rename) => UnsavedRename(st);
    case Fine(step) =>
  }

  lemma UnsavedRename(st: State)
    requires Enabled(st, Rename) && UnsavedInv(st)
    ensures UnsavedInv(DoRename(st))
  {
  }

  // ---------- the order ----------

  function FileList(st: State): seq<PersistedTask> {
    if st.file.Some? then st.file.value else []
  }

  /** What a project has waiting: its queue, then the queued records recovery has not come to. */
  function Ahead(st: State, p: Project): Items {
    QueueOf(st.queues, p) + if st.boot.Recovering? then QueuedIn(st.boot.todo, p) else []
  }

  predicate Follows(st: State, m: seq<PersistedTask>, p: Project) { Subseq(Ahead(st, p), QueuedIn(m, p)) }

  /** While the agent is up, its queues follow the list in memory and the one on disk. */
  ghost predicate OrderInv(st: State) {
    !st.boot.Down? ==> forall p :: Follows(st, st.memory, p) && Follows(st, FileList(st), p)
  }

  /** A worker's task waits nowhere. */
  lemma WorkedOnNotAhead(st: State, w: WorkerId, p: Project)
    requires OnePlace(st) && w in st.workers
    ensures NoItem(Ahead(st, p), st.workers[w].id)
  {
    var id := st.workers[w].id;
    var q := QueueOf(st.queues, p);
    assert At(st, id, AtWorker(w));
    forall i | 0 <= i < |Ahead(st, p)| ensures Ahead(st, p)[i].id != id {
      var o := Ahead(st, p)[i].id;
      if i < |q| {
        assert At(st, o, AtQueue(p, i));
      } else {
        QueuedRecord(st.boot.todo, p, i - |q|);
        var j :| 0 <= j < |st.boot.todo| && st.boot.todo[j].id == o;
        assert At(st, o, AtTodo(j));
      }
    }
  }

  lemma RunningHasNoItem(m: seq<PersistedTask>, t: PersistedTask, p: Project)
    requires t.running
    ensures QueuedIn(AddTo(m, t), p) == QueuedIn(m, p)
  {
    if !HasId(m, t.id) { QueuedInPush(m, t, p); }
  }

  lemma SameFollows(st: State, st': State, m: seq<PersistedTask>, m': seq<PersistedTask>, p: Project)
    requires Follows(st, m, p) && Ahead(st', p) == Ahead(st, p) && QueuedIn(m', p) == QueuedIn(m, p)
    ensures Follows(st', m', p)
  {
  }

  lemma SameAhead(st: State, st': State, p: Project)
    requires QueueOf(st'.queues, p) == QueueOf(st.queues, p) && st'.boot == st.boot
    ensures Ahead(st', p) == Ahead(st, p)
  {
  }

  lemma TriggerFrame(st: State, id: TaskId, w: WorkerId, now: Time)
    requires Enabled(st, OfTrigger(id, w, now)) && !Queueing(st.triggers[id].pc)
    ensures var st' := DoTrigger(st, id, w, now);
            var t := st.triggers[id];
            && st'.queues == st.queues && st'.boot == st.boot && st'.file == st.file
            && st'.memory == (if t.pc.PersistRunning?
                              then AddTo(st.memory, PersistedTask(id, t.project, t.request, true, now, Some(now)))
                              else st.memory)
  {
  }

  lemma TriggerAhead(st: State, id: TaskId, w: WorkerId, now: Time, p: Project)
    requires Enabled(st, OfTrigger(id, w, now)) && !Queueing(st.triggers[id].pc)
    ensures var st' := DoTrigger(st, id, w, now);
            && Ahead(st', p) == Ahead(st, p) && st'.file == st.file
            && QueuedIn(st'.memory, p) == QueuedIn(st.memory, p)
  {
    var t := st.triggers[id];
    TriggerFrame(st, id, w, now);
    SameAhead(st, DoTrigger(st, id, w, now), p);
    if t.pc.PersistRunning? {
      RunningHasNoItem(st.memory, PersistedTask(id, t.project, t.request, true, now, Some(now)), p);
    }
  }

  /** The queue and the list in memory gain the same item. */
  lemma EnqueueAhead(st: State, id: TaskId, w: WorkerId, now: Time, p: Project)
    requires MayStep(st, EnqueuePersisted(id, w, now)) && BootInv(st) && UnsavedInv(st)
    ensures var st' := Step4(st, id, w, now);
            var item := ItemOf(RecordOf(id, st.triggers[id]), p);
            && Ahead(st', p) == Ahead(st, p) + item && QueuedIn(st'.memory, p) == QueuedIn(st.memory, p) + item
            && FileList(st') == st'.memory
  {
    Step4Is(st, id, w, now);
    ReadyAhead(st, p);
    ReadyAhead(Step4(st, id, w, now), p);
    QueuedInPush(st.memory, RecordOf(id, st.triggers[id]), p);
  }

  lemma ReadyAhead(st: State, p: Project)
    requires st.boot.Ready?
    ensures Ahead(st, p) == QueueOf(st.queues, p)
  {
  }

  lemma OrderEnqueue(st: State, id: TaskId, w: WorkerId, now: Time, p: Project)
    requires MayStep(st, EnqueuePersisted(id, w, now)) && BootInv(st) && UnsavedInv(st)
    requires Follows(st, st.memory, p)
    ensures Follows(Step4(st, id, w, now), Step4(st, id, w, now).memory, p)
  {
    EnqueueAhead(st, id, w, now, p);
    var item := ItemOf(RecordOf(id, st.triggers[id]), p);
    if item == [] {
      SameFollows(st, Step4(st, id, w, now), st.memory, Step4(st, id, w, now).memory, p);
    } else {
      SubseqPush(Ahead(st, p), QueuedIn(st.memory, p), item[0]);
    }
  }

  predicate Takes(st: State, w: WorkerId, p: Project)
    requires w in st.workers
  {
    st.workers[w].pc.Dequeue? && st.workers[w].project == p && QueueOf(st.queues, p) != []
  }

  lemma WorkerFrame(st: State, w: WorkerId, now: Time, p: Project)
    requires Enabled(st, OfWorker(w, now))
    ensures var st' := DoWorker(st, w, now);
            var k := st.workers[w];
            && st'.file == st.file && st'.boot == st.boot
            && QueueOf(st'.queues, p) == (if Takes(st, w, p) then QueueOf(st.queues, p)[1..] else QueueOf(st.queues, p))
            && (st'.memory == st.memory
                || (k.pc.RemoveRecord? && st'.memory == RemoveFrom(st.memory, k.id))
                || (k.pc.MarkRecord? && st'.memory == MarkIn(st.memory, k.id, now)))
  {
    if st.workers[w].pc.Dequeue? {
      DequeueFrame(st, w, now, p);
    } else {
      WorkerQueues(st, w, now);
    }
  }

  lemma WorkerQueues(st: State, w: WorkerId, now: Time)
    requires w in st.workers && !st.workers[w].pc.Dequeue?
    ensures DoWorker(st, w, now).queues == st.queues && DoWorker(st, w, now).file == st.file
    ensures DoWorker(st, w, now).boot == st.boot
  {
  }

  lemma DequeueFrame(st: State, w: WorkerId, now: Time, p: Project)
    requires w in st.workers && st.workers[w].pc.Dequeue?
    ensures var st' := DoWorker(st, w, now);
            && st'.file == st.file && st'.boot == st.boot && st'.memory == st.memory
            && QueueOf(st'.queues, p) == (if Takes(st, w, p) then QueueOf(st.queues, p)[1..] else QueueOf(st.queues, p))
  {
  }

  lemma WorkerAhead(st: State, w: WorkerId, now: Time, p: Project)
    requires Enabled(st, OfWorker(w, now))
    ensures var st' := DoWorker(st, w, now);
            Ahead(st', p) == if Takes(st, w, p) then Ahead(st, p)[..0] + Ahead(st, p)[1..] else Ahead(st, p)
  {
    WorkerFrame(st, w, now, p);
    if !Takes(st, w, p) {
      SameAhead(st, DoWorker(st, w, now), p);
    } else {
      TailAhead(st, DoWorker(st, w, now), p);
    }
  }

  lemma TailAhead(st: State, st': State, p: Project)
    requires QueueOf(st.queues, p) != [] && QueueOf(st'.queues, p) == QueueOf(st.queues, p)[1..] && st'.boot == st.boot
    ensures Ahead(st', p) == Ahead(st, p)[..0] + Ahead(st, p)[1..]
  {
  }

  lemma DequeueFollows(st: State, w: WorkerId, now: Time, m: seq<PersistedTask>, p: Project)
    requires Enabled(st, OfWorker(w, now)) && Follows(st, m, p)
    ensures Follows(DoWorker(st, w, now), m, p)
  {
    WorkerAhead(st, w, now, p);
    if Takes(st, w, p) {
      SubseqDrop(Ahead(st, p), 0, QueuedIn(m, p));
    } else {
      SameFollows(st, DoWorker(st, w, now), m, m, p);
    }
  }

  /** The record a worker removes or marks is not waiting. */
  lemma RecordFollows(st: State, w: WorkerId, now: Time, p: Project)
    requires w in st.workers && OnePlace(st) && Distinct(st.memory) && Follows(st, st.memory, p)
    ensures Follows(st, RemoveFrom(st.memory, st.workers[w].id), p)
    ensures Follows(st, MarkIn(st.memory, st.workers[w].id, now), p)
  {
    WorkedOnNotAhead(st, w, p);
    SubseqRemove(Ahead(st, p), st.memory, st.workers[w].id, p);
    MarkedLikeRemoved(st.memory, st.workers[w].id, now, p);
  }

  lemma OrderWorker(st: State, w: WorkerId, now: Time, p: Project)
    requires Enabled(st, OfWorker(w, now)) && OnePlace(st) && Distinct(st.memory)
    requires Follows(st, st.memory, p)
    ensures Follows(DoWorker(st, w, now), DoWorker(st, w, now).memory, p)
  {
    WorkerFrame(st, w, now, p);
    RecordFollows(st, w, now, p);
    DequeueFollows(st, w, now, DoWorker(st, w, now).memory, p);
  }

  lemma ExpireFollows(st: State, now: Time, m: seq<PersistedTask>, p: Project)
    requires Enabled(st, Expire(now)) && Follows(st, m, p)
    ensures Follows(Apply(st, Expire(now)), m, p)
  {
    var st' := Apply(st, Expire(now));
    if p in st.queues {
      FreshSubseq(st.queues[p], now);
      assert Ahead(st', p) == Fresh(st.queues[p], now) && Ahead(st, p) == st.queues[p];
      SubseqTrans(Ahead(st', p), Ahead(st, p), QueuedIn(m, p));
    } else {
      assert Ahead(st', p) == Ahead(st, p);
    }
  }

  lemma RecoverFrame(st: State, known: bool, w: WorkerId, p: Project)
    requires Enabled(st, Recover(known, w))
    ensures var st' := DoRecover(st, known, w);
            var todo := st.boot.todo;
            var q := QueueOf(st.queues, p);
            && st'.memory == st.memory && st'.file == st.file
            && if todo == [] then st'.boot.Ready? && st'.queues == st.queues
               else st'.boot.Recovering? &&
                    if st'.boot.todo == todo then st'.queues == st.queues
                    else st'.boot.todo == todo[1..] && (QueueOf(st'.queues, p) == q || QueueOf(st'.queues, p) == q + ItemOf(todo[0], p))
  {
  }

  /** Recovery turns the next record into the next item, or leaves it out. */
  lemma RecoverAhead(st: State, known: bool, w: WorkerId, p: Project)
    requires Enabled(st, Recover(known, w))
    ensures var st' := DoRecover(st, known, w);
            var i := |QueueOf(st.queues, p)|;
            Ahead(st', p) == Ahead(st, p) || (i < |Ahead(st, p)| && Ahead(st', p) == Ahead(st, p)[..i] + Ahead(st, p)[i + 1..])
  {
    var st' := DoRecover(st, known, w);
    var todo := st.boot.todo;
    RecoverFrame(st, known, w, p);
    if todo == [] {
      assert QueuedIn(todo, p) == [];
    } else if st'.boot.todo == todo[1..] {
      assert todo == [todo[0]] + todo[1..];
      MarkedHead(todo[0], todo[1..], p);
      AheadMoves(QueueOf(st.queues, p), QueueOf(st'.queues, p), ItemOf(todo[0], p), QueuedIn(todo[1..], p));
    }
  }

  lemma AheadMoves(q: Items, q': Items, item: Items, rest: Items)
    requires |item| <= 1 && (q' == q || q' == q + item)
    ensures var a := q + (item + rest);
            q' + rest == a || (|q| < |a| && q' + rest == a[..|q|] + a[|q| + 1..])
  {
    if q' == q + item {
      assert q' + rest == q + (item + rest);
    } else {
      assert (q + (item + rest))[..|q|] == q && (q + (item + rest))[|q| + 1..] == rest;
    }
  }

  lemma RecoverFollows(st: State, known: bool, w: WorkerId, m: seq<PersistedTask>, p: Project)
    requires Enabled(st, Recover(known, w)) && Follows(st, m, p)
    ensures Follows(DoRecover(st, known, w), m, p)
  {
    RecoverAhead(st, known, w, p);
    if Ahead(DoRecover(st, known, w), p) == Ahead(st, p) {
      SameFollows(st, DoRecover(st, known, w), m, m, p);
    } else {
      SubseqDrop(Ahead(st, p), |QueueOf(st.queues, p)|, QueuedIn(m, p));
    }
  }

  lemma LoadFollows(st: State, p: Project)
    requires Enabled(st, Load) && BootInv(st) && st.memory == []
    ensures Follows(Apply(st, Load), Apply(st, Load).memory, p)
    ensures Follows(Apply(st, Load), FileList(st), p)
  {
    SubseqSelf(QueuedIn(FileList(st), p));
    assert Ahead(Apply(st, Load), p) == if st.file.Some? then QueuedIn(st.file.value, p) else [];
  }

  lemma RenameAhead(st: State, p: Project)
    requires Enabled(st, Rename) && HolderInv(st)
    ensures Ahead(DoRename(st), p) == Ahead(st, p)
    ensures DoRename(st).memory == st.memory && FileList(DoRename(st)) == st.memory
  {
  }

  predicate DownMemory(st: State) { st.boot.Down? ==> st.memory == [] }

  lemma OrderStep(st: State, m: Medium)
    requires MayStep(st, m) && OrderInv(st) && OnePlace(st) && BootInv(st) && ListsInv(st) && UnsavedInv(st)
    requires HolderInv(st) && DownMemory(st)
    ensures OrderInv(DoMedium(st, m))
  {
    var st' := DoMedium(st, m);
    if !st'.boot.Down? {
      forall p ensures Follows(st', st'.memory, p) && Follows(st', FileList(st'), p) {
        if m == Fine(Load) { LoadFollows(st, p); } else { OrderOne(st, m, p); }
      }
    }
  }

  lemma OrderOne(st: State, m: Medium, p: Project)
    requires MayStep(st, m) && m != Fine(Load) && !DoMedium(st, m).boot.Down? && OnePlace(st) && BootInv(st) && ListsInv(st)
    requires UnsavedInv(st) && HolderInv(st)
    requires Follows(st, st.memory, p) && Follows(st, FileList(st), p)
    ensures Follows(DoMedium(st, m), DoMedium(st, m).memory, p) && Follows(DoMedium(st, m), FileList(DoMedium(st, m)), p)
  {
    match m
    case EnqueuePersisted(id, w, now) =>
      OrderEnqueue(st, id, w, now, p);
      EnqueueAhead(st, id, w, now, p);
    case Fine(OfWorker(w, now)) =>
      WorkerFrame(st, w, now, p);
      OrderWorker(st, w, now, p);
      DequeueFollows(st, w, now, FileList(st), p);
    case Fine(Expire(now)) =>
      ExpireFollows(st, now, st.memory, p);
      ExpireFollows(st, now, FileList(st), p);
    case Fine(Recover(known, w)) =>
      RecoverFrame(st, known, w, p);
      RecoverFollows(st, known, w, st.memory, p);
      RecoverFollows(st, known, w, FileList(st), p);
    case Fine(step) => OrderQuiet(st, step, p);
  }

  lemma OrderQuiet(st: State, step: Step, p: Project)
    requires MayStep(st, Fine(step)) && HolderInv(st) && !st.boot.Down?
    requires !step.OfWorker? && !step.Expire? && !step.Recover? && !step.Load? && !step.Crash?
    requires Follows(st, st.memory, p) && Follows(st, FileList(st), p)
    ensures Follows(Apply(st, step), Apply(st, step).memory, p) && Follows(Apply(st, step), FileList(Apply(st, step)), p)
  {
    var st' := Apply(st, step);
    QuietAhead(st, step, p);
    SameFollows(st, st', st.memory, st'.memory, p);
    SameFollows(st, st', if step.Rename? then st.memory else FileList(st), FileList(st'), p);
  }

  /** The other steps leave what waits as it was. */
  lemma QuietAhead(st: State, step: Step, p: Project)
    requires MayStep(st, Fine(step)) && HolderInv(st) && !st.boot.Down?
    requires !step.OfWorker? && !step.Expire? && !step.Recover? && !step.Load? && !step.Crash?
    ensures var st' := Apply(st, step);
            && Ahead(st', p) == Ahead(st, p) && QueuedIn(st'.memory, p) == QueuedIn(st.memory, p)
            && FileList(st') == if step.Rename? then st.memory else FileList(st)
  {
    match step
    case OfTrigger(id, w, now) => TriggerAhead(st, id, w, now, p);
    case Rename => RenameAhead(st, p);
    case _ =>
  }

  /** Four fine steps make the queueing one. */
  lemma Step4Keeps(st: State, id: TaskId, w: WorkerId, now: Time)
    requires MayStep(st, EnqueuePersisted(id, w, now)) && HolderInv(st) && DownInv(st)
    ensures HolderInv(Step4(st, id, w, now)) && DownInv(Step4(st, id, w, now))
  {
    Step4Is(st, id, w, now);
  }

  /** Everything the waiting order rests on. */
  ghost predicate WaitingInv(st: State) {
    && OrderInv(st) && OnePlace(st) && BootInv(st) && ListsInv(st) && UnsavedInv(st)
    && HolderInv(st) && DownInv(st) && DownMemory(st)
  }

  lemma WaitingStart()
    ensures WaitingInv(START)
  {
  }

  lemma WaitingStep(st: State, m: Medium, st': State)
    requires MayStep(st, m) && st' == DoMedium(st, m) && WaitingInv(st)
    ensures WaitingInv(st')
  {
    OrderStep(st, m);
    PlacesStep(st, m);
    ListsStep(st, m);
    UnsavedStep(st, m);
    MediumBoot(st, m);
    MediumLocks(st, m);
  }

  lemma WaitingNext(run: seq<Medium>, states: seq<State>, i: nat)
    requires Passes(run, states) && i < |run| && WaitingInv(states[i])
    ensures WaitingInv(states[i + 1])
  {
    StepOf(run, states, i);
    WaitingStep(states[i], run[i], states[i + 1]);
  }

  lemma {:induction false} OrderKept(run: seq<Medium>, states: seq<State>, n: nat)
    requires Passes(run, states) && n <= |run|
    ensures WaitingInv(states[n])
  {
    if n == 0 {
      WaitingStart();
    } else {
      OrderKept(run, states, n - 1);
      WaitingNext(run, states, n - 1);
    }
  }

  lemma ReachableWaiting(st: State)
    requires Reachable(st)
    ensures WaitingInv(st)
  {
    var run, states :| PassesFrom(START, run, states) && states[|run|] == st;
    OrderKept(run, states, |run|);
  }

  lemma MediumLocks(st: State, m: Medium)
    requires MayStep(st, m) && HolderInv(st) && DownInv(st) && DownMemory(st)
    ensures HolderInv(DoMedium(st, m)) && DownInv(DoMedium(st, m)) && DownMemory(DoMedium(st, m))
  {
    match m
    case EnqueuePersisted(id, w, now) => Step4Keeps(st, id, w, now);
    case Fine(step) => HolderStep(st, step); DownStep(st, step); DownMemoryStep(st, step);
  }

  lemma DownMemoryStep(st: State, step: Step)
    requires Enabled(st, step) && DownMemory(st) && DownInv(st)
    ensures DownMemory(Apply(st, step))
  {
  }

  /**
   Whenever the agent is ready, through any crashes and restarts, a queue is an ordered subsequence of
   its project's queued records, in memory and on disk; so is what a crash now would recover.
   */
  lemma QueueFollowsRecords(st: State, p: Project, known: set<Project>)
    requires Reachable(st) && st.boot.Ready?
    ensures Subseq(QueueOf(st.queues, p), QueuedIn(st.memory, p))
    ensures Subseq(QueueOf(st.queues, p), QueuedIn(FileList(st), p))
    ensures p in known ==> Subseq(QueueOf(st.queues, p), Recovered([], FileList(st), known, p))
  {
    ReachableWaiting(st);
    assert Follows(st, st.memory, p) && Follows(st, FileList(st), p);
    assert Ahead(st, p) == QueueOf(st.queues, p);
    assert [] + QueuedIn(FileList(st), p) == QueuedIn(FileList(st), p);
  }

  /** No task is in two places, ever: not in two queues, not twice in one, not with two workers. */
  lemma EachTaskOnce(st: State, id: TaskId, a: Place, b: Place)
    requires Reachable(st) && At(st, id, a) && At(st, id, b)
    ensures a == b
  {
    ReachableWaiting(st);
  }

  predicate StartedAt(saved: seq<PersistedTask>, known: set<Project>, id: TaskId, i: nat) {
    i < |RunningIn(saved, known)| && RunningIn(saved, known)[i].1 == id
  }

  predicate QueuedAt(saved: seq<PersistedTask>, id: TaskId, p: Project, i: nat) {
    i < |QueuedIn(saved, p)| && QueuedIn(saved, p)[i].id == id
  }

  lemma {:induction false} StartedFrom(m: seq<PersistedTask>, known: set<Project>, id: TaskId, i: nat)
    requires StartedAt(m, known, id, i)
    ensures HasId(m, id)
  {
    var front, t := m[..|m| - 1], m[|m| - 1];
    assert m == front + [t];
    if i < |RunningIn(front, known)| { StartedFrom(front, known, id, i); }
    HasIdPush(front, t, id);
  }

  /** The last record adds its own start or item and nothing else. */
  lemma RecoveredLast(m: seq<PersistedTask>, known: set<Project>, id: TaskId)
    requires m != []
    ensures forall i: nat :: StartedAt(m, known, id, i) <==>
              StartedAt(m[..|m| - 1], known, id, i)
              || (m[|m| - 1].id == id && m[|m| - 1].project in known && m[|m| - 1].running && i == |RunningIn(m[..|m| - 1], known)|)
    ensures forall p, i: nat :: QueuedAt(m, id, p, i) <==>
              QueuedAt(m[..|m| - 1], id, p, i)
              || (m[|m| - 1].id == id && m[|m| - 1].project == p && !m[|m| - 1].running && i == |QueuedIn(m[..|m| - 1], p)|)
  {
  }

  /** Of different ids, each record of a known project is started once or queued once, by its kind. */
  lemma {:induction false} RecoveredOnce(saved: seq<PersistedTask>, known: set<Project>, k: nat)
    requires Distinct(saved) && k < |saved| && saved[k].project in known
    ensures var t := saved[k];
            if t.running
            then (exists i: nat :: StartedAt(saved, known, t.id, i)) && (forall p, i: nat :: !QueuedAt(saved, t.id, p, i))
            else (exists i: nat :: QueuedAt(saved, t.id, t.project, i)) && (forall i: nat :: !StartedAt(saved, known, t.id, i))
    ensures forall i: nat, j: nat :: StartedAt(saved, known, saved[k].id, i) && StartedAt(saved, known, saved[k].id, j) ==> i == j
    ensures forall p, i: nat, o, j: nat :: QueuedAt(saved, saved[k].id, p, i) && QueuedAt(saved, saved[k].id, o, j) ==> p == o && i == j
  {
    var front, t := saved[..|saved| - 1], saved[|saved| - 1];
    var id := saved[k].id;
    RecoveredLast(saved, known, id);
    if k < |front| {
      assert front[k] == saved[k];
      RecoveredOnce(front, known, k);
      if saved[k].running {
        var i: nat :| StartedAt(front, known, id, i);
        assert StartedAt(saved, known, id, i);
      } else {
        var i: nat :| QueuedAt(front, id, saved[k].project, i);
        assert QueuedAt(saved, id, saved[k].project, i);
      }
    } else {
      assert !HasId(front, id);
      forall i: nat ensures !StartedAt(front, known, id, i) {
        if StartedAt(front, known, id, i) { StartedFrom(front, known, id, i); }
      }
      forall p, i: nat ensures !QueuedAt(front, id, p, i) {
        if QueuedAt(front, id, p, i) { QueuedRecord(front, p, i); }
      }
      if t.running {
        assert StartedAt(saved, known, id, |RunningIn(front, known)|);
      } else {
        assert QueuedAt(saved, id, t.project, |QueuedIn(front, t.project)|);
      }
    }
  }
}
