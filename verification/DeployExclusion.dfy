/** One task at a time per project, and no waiting work without a worker. */
module DeployExclusion {
  import opened Common
  import opened TaskStores
  import opened QueuePersistences
  import opened Agents
  import opened DeploySystem
  import opened QueueOrder
  import opened QueueRestarts
  import opened DeployCoarse

  type Registry = map<Project, TaskId>

  /** What runs is registered. */
  predicate AllRegistered(st: State) {
    forall w :: w in st.workers ==> st.workers[w].project in st.running && st.running[st.workers[w].project] == st.workers[w].id
  }

  predicate OnePerProject(st: State) {
    forall v, w :: v in st.workers && w in st.workers && st.workers[v].project == st.workers[w].project ==> v == w
  }

  /** What is registered runs. */
  predicate AllExecuted(st: State) {
    forall p :: p in st.running ==> Executes(st, p)
  }

  predicate Executes(st: State, p: Project) {
    exists w :: w in st.workers && st.workers[w].project == p
  }

  /** Each project executes at most one task, and exactly the registered one. */
  predicate Exclusive(st: State) { AllRegistered(st) && OnePerProject(st) && AllExecuted(st) }

  /** Work that waits has a registered task before it. */
  predicate NoneStranded(st: State) {
    forall p :: p in st.queues && st.queues[p] != [] ==> p in st.running
  }

  // ---------- between restarts ----------

  /** A worker more, for a project that had none. */
  lemma WorkerAdded(st: State, st': State, w: WorkerId, k: Worker)
    requires Exclusive(st) && w !in st.workers && k.project !in st.running
    requires st'.workers == st.workers[w := k] && st'.running == st.running[k.project := k.id]
    ensures Exclusive(st')
  {
    forall o | o in st'.running ensures Executes(st', o) {
      if o in st.running {
        var v :| v in st.workers && st.workers[v].project == o;
        assert v in st'.workers && st'.workers[v].project == o;
      } else {
        assert st'.workers[w].project == o;
      }
    }
  }

  /** A worker moves on to another task of its project. */
  lemma WorkerChanged(st: State, st': State, w: WorkerId, k: Worker)
    requires Exclusive(st) && w in st.workers && k.project == st.workers[w].project
    requires st'.workers == st.workers[w := k] && st'.running == st.running[k.project := k.id]
    ensures Exclusive(st')
  {
    forall o | o in st'.running ensures Executes(st', o) {
      var v :| v in st.workers && st.workers[v].project == o;
      assert v in st'.workers && st'.workers[v].project == o;
    }
  }

  lemma WorkerGone(st: State, st': State, w: WorkerId)
    requires Exclusive(st) && w in st.workers
    requires st'.workers == st.workers - {w} && st'.running == st.running - {st.workers[w].project}
    ensures Exclusive(st')
  {
    forall o | o in st'.running ensures Executes(st', o) {
      var v :| v in st.workers && st.workers[v].project == o;
      assert v in st'.workers && st'.workers[v].project == o;
    }
  }

  lemma TriggerExclusive(st: State, id: TaskId, p: Project, r: Request, now: Time, w: WorkerId)
    requires w !in st.workers && Exclusive(st)
    ensures Exclusive(DoCoarseTrigger(st, id, p, r, now, w))
  {
    var st' := DoCoarseTrigger(st, id, p, r, now, w);
    if p !in st.running {
      WorkerAdded(st, st', w, Worker(p, id, Deploying));
    } else {
      SameExclusive(st, st');
    }
  }

  lemma SameExclusive(st: State, st': State)
    requires Exclusive(st) && st'.workers == st.workers && st'.running == st.running
    ensures Exclusive(st')
  {
    forall p | p in st'.running ensures Executes(st', p) { assert Executes(st, p); }
  }

  lemma FinishExclusive(st: State, w: WorkerId, now: Time)
    requires w in st.workers && Exclusive(st)
    ensures Exclusive(Next(Cleaned(st, w), w, now))
  {
    var st' := Next(Cleaned(st, w), w, now);
    var k := st.workers[w];
    var q := QueueOf(st.queues, k.project);
    if q == [] {
      assert st'.workers == st.workers - {w};
      WorkerGone(st, st', w);
    } else {
      var k' := Worker(k.project, q[0].id, Deploying);
      assert st'.workers == st.workers[w := k'];
      assert st'.running == st.running[k.project := q[0].id];
      WorkerChanged(st, st', w, k');
    }
  }

  lemma TriggerNotStranded(st: State, id: TaskId, p: Project, r: Request, now: Time, w: WorkerId)
    requires NoneStranded(st)
    ensures NoneStranded(DoCoarseTrigger(st, id, p, r, now, w))
  {
  }

  lemma FinishNotStranded(st: State, w: WorkerId, now: Time)
    requires w in st.workers && NoneStranded(st)
    ensures NoneStranded(Next(Cleaned(st, w), w, now))
  {
  }

  lemma TimeoutNotStranded(st: State, now: Time)
    requires NoneStranded(st)
    ensures NoneStranded(DoCoarse(st, Timeout(now)))
  {
  }

  // ---------- what the persisted list says ----------

  predicate RecordsRun(m: seq<PersistedTask>, id: TaskId, p: Project) {
    exists t :: t in m && t.running && t.id == id && t.project == p
  }

  /** A record is marked running exactly when its task is registered, save for records recovery has skipped. */
  predicate RunningRecorded(running: Registry, skipped: set<TaskId>, m: seq<PersistedTask>) {
    && (forall t :: t in m && t.running ==> (t.project in running && running[t.project] == t.id) || t.id in skipped)
    && (forall p :: p in running ==> RecordsRun(m, running[p], p))
  }

  /** The queued records of a project are its queue. */
  ghost predicate QueueRecorded(queues: Queues, m: seq<PersistedTask>) {
    forall p :: QueuedIn(m, p) == QueueOf(queues, p)
  }

  lemma {:induction false} RemoveMembers(m: seq<PersistedTask>, id: TaskId, t: PersistedTask)
    ensures t in RemoveFrom(m, id) <==> t in m && t.id != id
  {
    if m != [] {
      RemoveMembers(m[..|m| - 1], id, t);
      assert m == m[..|m| - 1] + [m[|m| - 1]];
    }
  }

  function Started(t: PersistedTask, at: Time): PersistedTask { t.(running := true, startedAt := Some(at)) }

  lemma {:induction false} MarkMembers(m: seq<PersistedTask>, k: nat, at: Time, t: PersistedTask)
    requires Distinct(m) && k < |m|
    ensures t in MarkIn(m, m[k].id, at) <==> (t in m && t.id != m[k].id) || t == Started(m[k], at)
  {
    var id := m[k].id;
    var rest := m[1..];
    assert m == [m[0]] + rest;
    if k == 0 {
      assert forall x :: x in rest ==> x.id != id;
    } else {
      assert rest[k - 1] == m[k];
      MarkMembers(rest, k - 1, at, t);
    }
  }

  lemma RunAdded(running: Registry, skipped: set<TaskId>, m: seq<PersistedTask>, t: PersistedTask)
    requires RunningRecorded(running, skipped, m) && (t.running ==> t.project !in running) && !HasId(m, t.id)
    ensures RunningRecorded(if t.running then running[t.project := t.id] else running, skipped - {t.id}, m + [t])
  {
    var running' := if t.running then running[t.project := t.id] else running;
    forall p | p in running' ensures RecordsRun(m + [t], running'[p], p) {
      if p in running {
        var x :| x in m && x.running && x.id == running[p] && x.project == p;
        assert x in m + [t];
      } else {
        assert t in m + [t];
      }
    }
  }

  lemma RunRemoved(running: Registry, skipped: set<TaskId>, m: seq<PersistedTask>, p: Project)
    requires RunningRecorded(running, skipped, m) && p in running && Distinct(m)
    ensures RunningRecorded(running - {p}, skipped, RemoveFrom(m, running[p]))
  {
    var id := running[p];
    var m' := RemoveFrom(m, id);
    var own :| own in m && own.running && own.id == id && own.project == p;
    forall t | t in m' && t.running
      ensures (t.project in running - {p} && running[t.project] == t.id) || t.id in skipped
    {
      RemoveMembers(m, id, t);
    }
    forall o | o in running - {p} ensures RecordsRun(m', running[o], o) {
      var x :| x in m && x.running && x.id == running[o] && x.project == o;
      if x.id == id { SameRecord(m, own, x); }
      RemoveMembers(m, id, x);
    }
  }

  lemma SameRecord(m: seq<PersistedTask>, s: PersistedTask, t: PersistedTask)
    requires Distinct(m) && s in m && t in m && s.id == t.id
    ensures s == t
  {
  }

  lemma RunMarked(running: Registry, skipped: set<TaskId>, m: seq<PersistedTask>, k: nat, at: Time)
    requires RunningRecorded(running, skipped, m) && Distinct(m) && k < |m| && !m[k].running && m[k].project !in running
    ensures RunningRecorded(running[m[k].project := m[k].id], skipped, MarkIn(m, m[k].id, at))
  {
    var s := m[k];
    var m' := MarkIn(m, s.id, at);
    var running' := running[s.project := s.id];
    forall t | t in m' && t.running
      ensures (t.project in running' && running'[t.project] == t.id) || t.id in skipped
    {
      MarkMembers(m, k, at, t);
    }
    forall p | p in running' ensures RecordsRun(m', running'[p], p) {
      if p == s.project {
        MarkMembers(m, k, at, Started(s, at));
      } else {
        var x :| x in m && x.running && x.id == running[p] && x.project == p;
        MarkMembers(m, k, at, x);
        if x.id == s.id { SameRecord(m, s, x); }
      }
    }
  }

  lemma {:induction false} DropNone(q: Items, id: TaskId)
    requires NoItem(q, id)
    ensures DropItem(q, id) == q
  {
    if q != [] { DropNone(q[..|q| - 1], id); }
  }

  lemma {:induction false} DropHead(q: Items)
    requires q != [] && NoItem(q[1..], q[0].id)
    ensures DropItem(q, q[0].id) == q[1..]
  {
    if |q| == 1 {
      assert q[..0] == [];
    } else {
      var front := q[..|q| - 1];
      assert front[1..] == q[1..][..|q| - 2];
      assert q[1..] == front[1..] + [q[|q| - 1]];
      assert q[|q| - 1] == q[1..][|q| - 2];
      DropHead(front);
    }
  }

  // ---------- the lists through the large steps ----------

  /** The list on disk is the one in memory. */
  predicate Mirrored(st: State) { FileList(st) == st.memory }

  lemma TriggerRecorded(st: State, id: TaskId, p: Project, r: Request, now: Time, w: WorkerId)
    requires !HasId(st.memory, id) && RunningRecorded(st.running, st.skipped, st.memory)
    ensures var st' := DoCoarseTrigger(st, id, p, r, now, w); RunningRecorded(st'.running, st'.skipped, st'.memory)
  {
    if p !in st.running {
      RunAdded(st.running, st.skipped, st.memory, PersistedTask(id, p, r, true, now, Some(now)));
    } else if |QueueOf(st.queues, p)| >= MAX_QUEUE_SIZE {
      assert forall t :: t in st.memory ==> t.id != id;
    } else {
      RunAdded(st.running, st.skipped, st.memory, PersistedTask(id, p, r, false, now, None));
    }
  }

  lemma TriggerQueueRecorded(st: State, id: TaskId, p: Project, r: Request, now: Time, w: WorkerId)
    requires !HasId(st.memory, id) && QueueRecorded(st.queues, st.memory)
    ensures var st' := DoCoarseTrigger(st, id, p, r, now, w); QueueRecorded(st'.queues, st'.memory)
  {
    var st' := DoCoarseTrigger(st, id, p, r, now, w);
    if p !in st.running {
      RecordPushed(st.queues, st.queues, st.memory, PersistedTask(id, p, r, true, now, Some(now)));
    } else if |QueueOf(st.queues, p)| < MAX_QUEUE_SIZE {
      RecordPushed(st.queues, st'.queues, st.memory, PersistedTask(id, p, r, false, now, None));
    }
  }

  lemma RecordPushed(qs: Queues, qs': Queues, m: seq<PersistedTask>, t: PersistedTask)
    requires QueueRecorded(qs, m) && forall o :: QueueOf(qs', o) == QueueOf(qs, o) + ItemOf(t, o)
    ensures QueueRecorded(qs', m + [t])
  {
    forall o ensures QueuedIn(m + [t], o) == QueueOf(qs', o) { QueuedInPush(m, t, o); }
  }

  /** The running task of a worker waits nowhere; nor does an item of a queue wait twice. */
  lemma WaitsOnce(st: State, w: WorkerId, p: Project)
    requires OnePlace(st) && w in st.workers
    ensures NoItem(QueueOf(st.queues, p), st.workers[w].id)
    ensures QueueOf(st.queues, p) != [] ==> NoItem(QueueOf(st.queues, p)[1..], QueueOf(st.queues, p)[0].id)
  {
    var q := QueueOf(st.queues, p);
    assert QueueRestarts.At(st, st.workers[w].id, AtWorker(w));
    forall i | 0 <= i < |q| ensures q[i].id != st.workers[w].id {
      assert QueueRestarts.At(st, q[i].id, AtQueue(p, i));
    }
    forall i | 0 < i < |q| ensures q[i].id != q[0].id {
      assert QueueRestarts.At(st, q[i].id, AtQueue(p, i)) && QueueRestarts.At(st, q[0].id, AtQueue(p, 0));
    }
  }

  lemma WaitsInOne(st: State, p: Project, o: Project)
    requires OnePlace(st) && p != o && QueueOf(st.queues, p) != []
    ensures NoItem(QueueOf(st.queues, o), QueueOf(st.queues, p)[0].id)
  {
    var q := QueueOf(st.queues, o);
    assert QueueRestarts.At(st, QueueOf(st.queues, p)[0].id, AtQueue(p, 0));
    forall i | 0 <= i < |q| ensures q[i].id != QueueOf(st.queues, p)[0].id {
      assert QueueRestarts.At(st, q[i].id, AtQueue(o, i));
    }
  }

  /** The list after the finished task's record is gone and the next one is marked. */
  function FinishedList(st: State, w: WorkerId, now: Time): seq<PersistedTask>
    requires w in st.workers
  {
    var k := st.workers[w];
    var q := QueueOf(st.queues, k.project);
    var m := RemoveFrom(st.memory, k.id);
    if q == [] then m else MarkIn(m, q[0].id, now)
  }

  lemma FinishIs(st: State, w: WorkerId, now: Time)
    requires w in st.workers
    ensures var st' := Next(Cleaned(st, w), w, now);
            var k := st.workers[w];
            var q := QueueOf(st.queues, k.project);
            && st'.memory == FinishedList(st, w, now)
            && st'.queues == (if q == [] then st.queues else st.queues[k.project := q[1..]])
            && st'.running == (if q == [] then st.running - {k.project} else (st.running - {k.project})[k.project := q[0].id])
            && st'.skipped == st.skipped && (Mirrored(st) ==> Mirrored(st'))
  {
    RemoveShortens(st.memory, st.workers[w].id);
  }

  lemma FinishQueueRecorded(st: State, w: WorkerId, now: Time, o: Project)
    requires w in st.workers && OnePlace(st) && Distinct(st.memory) && QueuedIn(st.memory, o) == QueueOf(st.queues, o)
    ensures var st' := Next(Cleaned(st, w), w, now); QueuedIn(st'.memory, o) == QueueOf(st'.queues, o)
  {
    var k := st.workers[w];
    var q, r := QueueOf(st.queues, k.project), QueueOf(st.queues, o);
    var m := RemoveFrom(st.memory, k.id);
    FinishIs(st, w, now);
    WaitsOnce(st, w, o);
    QueuedInRemoved(st.memory, k.id, o);
    DropNone(r, k.id);
    if q != [] {
      RemoveDistinct(st.memory, k.id);
      MarkedLikeRemoved(m, q[0].id, now, o);
      QueuedInRemoved(m, q[0].id, o);
      if o == k.project {
        DropHead(q);
      } else {
        WaitsInOne(st, k.project, o);
        DropNone(r, q[0].id);
      }
    }
  }

  lemma {:induction false} SubseqHas(a: Items, b: Items, i: nat)
    requires Subseq(a, b) && i < |a|
    ensures exists j :: 0 <= j < |b| && b[j] == a[i]
    decreases |b|
  {
    var b' := b[..|b| - 1];
    if a[|a| - 1] == b[|b| - 1] && i == |a| - 1 {
      assert b[|b| - 1] == a[i];
    } else {
      var a' := if a[|a| - 1] == b[|b| - 1] then a[..|a| - 1] else a;
      SubseqHas(a', b', i);
      var j :| 0 <= j < |b'| && b'[j] == a'[i];
      assert b[j] == a[i];
    }
  }

  lemma FinishRecorded(st: State, w: WorkerId, now: Time)
    requires w in st.workers && AllRegistered(st) && OnePlace(st) && Distinct(st.memory)
    requires Subseq(QueueOf(st.queues, st.workers[w].project), QueuedIn(st.memory, st.workers[w].project))
    requires RunningRecorded(st.running, st.skipped, st.memory)
    ensures var st' := Next(Cleaned(st, w), w, now); RunningRecorded(st'.running, st'.skipped, st'.memory)
  {
    var k := st.workers[w];
    var p := k.project;
    var q := QueueOf(st.queues, p);
    var m := RemoveFrom(st.memory, k.id);
    FinishIs(st, w, now);
    RunRemoved(st.running, st.skipped, st.memory, p);
    if q != [] {
      RemoveDistinct(st.memory, k.id);
      WaitsOnce(st, w, p);
      SubseqRemove(q, st.memory, k.id, p);
      SubseqHas(q, QueuedIn(m, p), 0);
      var i :| 0 <= i < |QueuedIn(m, p)| && QueuedIn(m, p)[i] == q[0];
      QueuedRecord(m, p, i);
      var j :| 0 <= j < |m| && m[j].id == q[0].id && m[j].project == p && !m[j].running;
      RunMarked(st.running - {p}, st.skipped, m, j, now);
    }
  }
}
