/** The agent's running map and queues, and the sequential deployment operations over them. */
module Agents {
  import opened Common
  import opened TaskStores
  import opened QueuePersistences

  const MAX_QUEUE_SIZE := 10
  const QUEUE_TIMEOUT_SECS := 600

  datatype QueuedDeploy = QueuedDeploy(id: TaskId, request: Request, queuedAt: Time)

  datatype TriggerResponse = Full | Waiting(position: nat) | Started

  type Queues = map<Project, seq<QueuedDeploy>>

  function QueueOf(qs: Queues, p: Project): seq<QueuedDeploy> {
    if p in qs then qs[p] else []
  }

  function IdsOf(q: seq<QueuedDeploy>): seq<TaskId> {
    if q == [] then [] else [q[0].id] + IdsOf(q[1..])
  }

  /** The persisted list without the given ids. */
  function Without(q: seq<PersistedTask>, ids: seq<TaskId>): seq<PersistedTask>
    decreases ids
  {
    if ids == [] then q else Without(RemoveFrom(q, ids[0]), ids[1..])
  }

  /** Marking a record running does not outlive its removal. */
  lemma {:induction false} RemoveMarked(q: seq<PersistedTask>, id: TaskId, at: Time)
    ensures RemoveFrom(MarkIn(q, id, at), id) == RemoveFrom(q, id)
  {
    if q != [] {
      RemoveHead(q, id);
      RemoveHead(MarkIn(q, id, at), id);
      if q[0].id != id { RemoveMarked(q[1..], id, at); }
    }
  }

  lemma {:induction false} RemoveHead(q: seq<PersistedTask>, id: TaskId)
    requires q != []
    ensures RemoveFrom(q, id) == (if q[0].id == id then [] else [q[0]]) + RemoveFrom(q[1..], id)
  {
    if |q| > 1 {
      RemoveHead(q[..|q| - 1], id);
      assert q[..|q| - 1][1..] == q[1..][..|q| - 2];
    } else {
      assert q[..0] == [] && q[1..] == [];
    }
  }

  /** What the removed ids leave behind. */
  lemma {:induction false} WithoutIds(q: seq<PersistedTask>, ids: seq<TaskId>)
    ensures forall t :: t in Without(q, ids) <==> t in q && t.id !in ids
    decreases ids
  {
    if ids != [] {
      RemoveFromAre(q, ids[0]);
      WithoutIds(RemoveFrom(q, ids[0]), ids[1..]);
      assert ids == [ids[0]] + ids[1..];
    }
  }

  lemma {:induction false} IdsAre(q: seq<QueuedDeploy>)
    ensures |IdsOf(q)| == |q| && forall i :: 0 <= i < |q| ==> IdsOf(q)[i] == q[i].id
  {
    if q != [] { IdsAre(q[1..]); }
  }

  /** Tasks ended in order by a drain: each active one moves to the front of the history. */
  function EndAll(lim: Limits, s: Store, ids: seq<TaskId>, outcome: TaskId -> DeployStatus, now: Time): Store
    decreases ids
  {
    if ids == [] then s
    else EndAll(lim, EndOne(lim, s, ids[0], outcome(ids[0]), now), ids[1..], outcome, now)
  }

  function EndOne(lim: Limits, s: Store, id: TaskId, status: DeployStatus, now: Time): Store {
    Do(lim, s, Op.Finish(id, status, None, now))
  }

  lemma EndOneMarked(lim: Limits, s: Store, id: TaskId, status: DeployStatus, now: Time)
    ensures EndOne(lim, Do(lim, s, Op.UpdateStatus(id, Running, None, now)), id, status, now) == EndOne(lim, s, id, status, now)
  {
    if id in s.tasks {
      var s1 := Do(lim, s, Op.UpdateStatus(id, Running, None, now));
      assert s1.tasks - {id} == s.tasks - {id};
    }
  }

  /** The entry says how the task ended. */
  predicate EndedAs(t: DeployTask, id: TaskId, status: DeployStatus, now: Time) {
    t.id == id && t.status == status && t.exitCode == None && t.finishedAt == Some(now)
  }

  predicate AllDistinct(ids: seq<TaskId>) { forall i, j :: 0 <= i < j < |ids| ==> ids[i] != ids[j] }

  /** A drain leaves its tasks at the front of the history, the last one first, each with its own outcome. */
  lemma {:induction false} EndAllAre(lim: Limits, s: Store, ids: seq<TaskId>, outcome: TaskId -> DeployStatus, now: Time)
    requires AllDistinct(ids) && |s.history| + |ids| <= lim.maxHistory
    requires forall i :: 0 <= i < |ids| ==> ids[i] in s.tasks && s.tasks[ids[i]].id == ids[i]
    ensures var s' := EndAll(lim, s, ids, outcome, now);
            && |s'.history| == |ids| + |s.history| && s'.history[|ids|..] == s.history
            && (forall i :: 0 <= i < |ids| ==> EndedAs(s'.history[|ids| - 1 - i], ids[i], outcome(ids[i]), now))
            && (forall id :: id in s'.tasks <==> id in s.tasks && id !in ids)
    decreases ids
  {
    if ids != [] {
      var s1 := EndOne(lim, s, ids[0], outcome(ids[0]), now);
      var rest := ids[1..];
      assert s1.history[1..] == s.history && EndedAs(s1.history[0], ids[0], outcome(ids[0]), now);
      assert ids == [ids[0]] + rest;
      forall i | 0 <= i < |rest| ensures rest[i] in s1.tasks && s1.tasks[rest[i]].id == rest[i] { assert rest[i] == ids[i + 1]; }
      EndAllAre(lim, s1, rest, outcome, now);
      var s' := EndAll(lim, s, ids, outcome, now);
      assert s'.history[|rest|..][0] == s1.history[0] && s'.history[|rest|..][1..] == s'.history[|ids|..];
      forall i | 0 <= i < |ids| ensures EndedAs(s'.history[|ids| - 1 - i], ids[i], outcome(ids[i]), now) {
        if i > 0 { assert EndedAs(s'.history[|rest| - 1 - (i - 1)], rest[i - 1], outcome(rest[i - 1]), now); }
      }
    }
  }

  class Agent {
    var running: map<Project, TaskId>
    var queues: Queues
    const store: TaskStore
    const persistence: QueuePersistence

    constructor (store: TaskStore, persistence: QueuePersistence)
      ensures this.store == store && this.persistence == persistence && running == map[] && queues == map[]
    {
      this.store, this.persistence := store, persistence;
      running, queues := map[], map[];
    }

    /** The position counts from 1. */
    method EnqueueDeploy(p: Project, d: QueuedDeploy) returns (position: nat)
      modifies this`queues
      ensures queues == old(queues)[p := QueueOf(old(queues), p) + [d]]
      ensures queues.Keys == old(queues).Keys + {p} && forall o :: o in old(queues) && o != p ==> queues[o] == old(queues)[o]
      ensures queues[p] == (if p in old(queues) then old(queues)[p] else []) + [d] && position == |queues[p]|
    {
      var q := if p in queues then queues[p] else [];
      queues := queues[p := q + [d]];
      position := |q| + 1;
    }

    method DequeueDeploy(p: Project) returns (next: Option<QueuedDeploy>)
      modifies this`queues
      ensures var q := QueueOf(old(queues), p);
              if q == [] then next == None && queues == old(queues)
              else next == Some(q[0]) && queues == old(queues)[p := q[1..]]
    {
      if p in queues && queues[p] != [] {
        next := Some(queues[p][0]);
        queues := queues[p := queues[p][1..]];
      } else {
        next := None;
      }
    }

    /** The run-or-queue decision of a trigger that nobody else interleaves with. */
    method Trigger(p: Project, id: TaskId, request: Request, now: Time) returns (r: TriggerResponse)
      modifies this, store, persistence, persistence.file
      ensures var busy := p in old(running);
              var q := QueueOf(old(queues), p);
              && (r.Full? <==> busy && p in old(queues) && |old(queues)[p]| >= 10)
              && (r.Started? <==> !busy)
              && (r.Full? ==> unchanged(this) && unchanged(store) && unchanged(persistence) && unchanged(persistence.file))
              && (r.Waiting? ==>
                    && r.position == |q| + 1 && running == old(running)
                    && queues == old(queues)[p := q + [QueuedDeploy(id, request, now)]]
                    && persistence.tasks == AddTo(old(persistence.tasks), PersistedTask(id, p, request, false, now, None)))
              && (r.Started? ==>
                    && running == old(running)[p := id] && queues == old(queues)
                    && persistence.tasks == AddTo(old(persistence.tasks), PersistedTask(id, p, request, true, now, Some(now))))
              && (!r.Full? ==> persistence.Synced()
                               && store.View() == old(store.View()).(tasks := old(store.tasks)[id := NewTask(id, p, busy)]))
      ensures !r.Full? ==> id in store.tasks && store.tasks[id].id == id && store.tasks[id].project == p
                           && store.tasks[id].finishedAt == None && store.tasks[id].exitCode == None
      ensures r.Waiting? ==> store.tasks[id].status == Queued
      ensures r.Started? ==> store.tasks[id].status == Running
    {
      if p in running {
        var length := if p in queues then |queues[p]| else 0;
        if length >= MAX_QUEUE_SIZE { return Full; }
        store.Create(NewTask(id, p, true));
        var position := EnqueueDeploy(p, QueuedDeploy(id, request, now));
        var _ := persistence.AddTask(PersistedTask(id, p, request, false, now, None), Saved);
        return Waiting(position);
      }
      store.Create(NewTask(id, p, false));
      running := running[p := id];
      var _ := persistence.AddTask(PersistedTask(id, p, request, true, now, Some(now)), Saved);
      return Started;
    }

    /** The deployment ends with `status`; then the record and the registration go. */
    method ExecuteSingle(p: Project, id: TaskId, status: DeployStatus, now: Time)
      modifies this`running, store, persistence, persistence.file
      ensures running == old(running) - {p}
      ensures store.View() == EndOne(store.Limit(), old(store.View()), id, status, now)
      ensures store.tasks == old(store.tasks) - {id}
      ensures id in old(store.tasks) && store.maxHistory > 0 ==>
                var t, t' := old(store.tasks)[id], store.history[0];
                && t'.id == t.id && t'.project == t.project && t'.status == status && t'.finishedAt == Some(now)
      ensures persistence.tasks == RemoveFrom(old(persistence.tasks), id)
      ensures forall t :: t in persistence.tasks <==> t in old(persistence.tasks) && t.id != id
      ensures old(persistence.Synced()) ==> persistence.Synced()
    {
      store.Finish(id, status, None, now);
      running := running - {p};
      RemoveShortens(persistence.tasks, id);
      RemoveFromAre(persistence.tasks, id);
      var _, _ := persistence.RemoveTask(id, Saved);
      running := running - {p};
    }

    /**
     With nobody else enqueueing, the loop runs the whole queue in arrival order, each task once, and
     leaves the project idle and unregistered; other projects are untouched.
     */
    method ProcessQueue(p: Project, outcome: TaskId -> DeployStatus, now: Time) returns (ran: seq<TaskId>)
      modifies this, store, persistence, persistence.file
      ensures ran == IdsOf(QueueOf(old(queues), p))
      ensures QueueOf(queues, p) == []
      ensures forall o :: o != p ==> QueueOf(queues, o) == QueueOf(old(queues), o)
      ensures running == if ran == [] then old(running) else old(running) - {p}
      ensures persistence.tasks == Without(old(persistence.tasks), ran)
      ensures if ran == [] then persistence.file.content == old(persistence.file.content) else persistence.Synced()
      ensures store.View() == EndAll(store.Limit(), old(store.View()), ran, outcome, now)
    {
      ran := [];
      ghost var q := QueueOf(queues, p);
      ghost var i := 0;
      assert q[0..] == q;
      var next := DequeueDeploy(p);
      while next.Some?
        invariant 0 <= i <= |q|
        invariant ran == IdsOf(q[..i])
        invariant if next.Some? then i < |q| && next.value == q[i] && QueueOf(queues, p) == q[i + 1..]
                  else i == |q| && QueueOf(queues, p) == []
        invariant forall o :: o != p ==> QueueOf(queues, o) == QueueOf(old(queues), o)
        invariant running == if i == 0 then old(running) else old(running) - {p}
        invariant if i == 0 then persistence.file.content == old(persistence.file.content) else persistence.Synced()
        invariant Without(persistence.tasks, IdsOf(q[i..])) == Without(old(persistence.tasks), IdsOf(q))
        invariant EndAll(store.Limit(), store.View(), IdsOf(q[i..]), outcome, now)
               == EndAll(store.Limit(), old(store.View()), IdsOf(q), outcome, now)
        decreases |q| - i, if next.Some? then 1 else 0
      {
        var id := next.value.id;
        DrainStep(store.Limit(), store.View(), persistence.tasks, q, i, outcome, now);
        RunNext(p, id, outcome(id), now);
        ran := ran + [id];
        i := i + 1;
        next := DequeueDeploy(p);
        assert q[i - 1 + 1..] == q[i..];
      }
      assert q[..i] == q && q[i..] == [];
    }

    /** One turn of the loop after a task was dequeued. */
    method RunNext(p: Project, id: TaskId, status: DeployStatus, now: Time)
      modifies this`running, store, persistence, persistence.file
      ensures running == old(running) - {p}
      ensures store.View() == EndOne(store.Limit(), old(store.View()), id, status, now)
      ensures persistence.tasks == RemoveFrom(old(persistence.tasks), id) && persistence.Synced()
    {
      EndOneMarked(store.Limit(), store.View(), id, status, now);
      RemoveMarked(persistence.tasks, id, now);
      store.UpdateStatus(id, Running, None, now);
      var _ := persistence.UpdateTaskStatus(id, now, Saved);
      running := running[p := id];
      ExecuteSingle(p, id, status, now);
      assert (old(running)[p := id]) - {p} == old(running) - {p};
    }

    /** Drops the items that have waited longer than the timeout; the persisted list is not touched. */
    method CleanupExpiredQueueItems(now: Time) returns (expired: seq<(Project, TaskId)>)
      modifies this`queues
      ensures queues.Keys == old(queues).Keys
      ensures forall p :: p in queues ==> queues[p] == Fresh(old(queues)[p], now)
      ensures forall p :: p in queues ==> OnlyFresh(old(queues)[p], queues[p], now)
      ensures forall p, id :: (p, id) in expired <==>
                p in old(queues) && exists d :: d in old(queues)[p] && d.id == id && now - d.queuedAt > 600
    {
      var rest := queues.Keys;
      expired := [];
      ghost var before := queues;
      while rest != {}
        invariant rest <= before.Keys && queues.Keys == before.Keys
        invariant forall p :: p in queues ==> queues[p] == if p in rest then before[p] else Fresh(before[p], now)
        invariant forall p, id :: (p, id) in expired <==>
                    p in before && p !in rest && exists d :: d in before[p] && d.id == id && Stale(d, now)
        decreases rest
      {
        var p :| p in rest;
        var dropped := StaleIds(p, queues[p], now);
        StaleIdsAre(p, queues[p], now);
        expired := expired + dropped;
        queues := queues[p := Fresh(queues[p], now)];
        rest := rest - {p};
      }
      QueuesFresh(before, queues, now);
    }

    /**
     Recovery walks the loaded list once. Queued records of known projects join their queue in list
     order, running ones are registered and started again; records of unknown projects are skipped.
     */
    method Recover(known: set<Project>) returns (started: seq<(Project, TaskId)>)
      modifies this, store, persistence
      ensures persistence.file.content.None? ==>
                started == [] && unchanged(this) && store.View() == old(store.View()) && persistence.tasks == old(persistence.tasks)
      ensures persistence.file.content.Some? ==>
                var saved := persistence.file.content.value;
                && persistence.tasks == saved
                && started == RunningIn(saved, known)
                && running == RegisterAll(old(running), started)
                && (forall p :: QueueOf(queues, p) == Recovered(QueueOf(old(queues), p), saved, known, p))
                && store.View() == Entered(old(store.View()), saved, known)
    {
      started := [];
      var loaded := persistence.Load();
      if loaded.None? { return; }
      var saved := loaded.value;
      for i := 0 to |saved|
        invariant persistence.tasks == saved
        invariant started == RunningIn(saved[..i], known)
        invariant running == RegisterAll(old(running), started)
        invariant store.View() == Entered(old(store.View()), saved[..i], known)
        invariant forall p :: QueueOf(queues, p) == Recovered(QueueOf(old(queues), p), saved[..i], known, p)
      {
        var t := saved[i];
        EnteredStep(old(store.View()), saved, i, known);
        StartedStep(old(running), saved, i, known);
        forall p ensures RecoveredStep(QueueOf(old(queues), p), saved, i, known, p) {
          RecoverStep(QueueOf(old(queues), p), saved, i, known, p);
        }
        if t.project in known {
          RecoverOne(t);
          if t.running { started := started + [(t.project, t.id)]; }
        }
      }
      assert saved[..|saved|] == saved;
    }

    /** One record of a known project: a task entry, and a registration or a place in the queue. */
    method RecoverOne(t: PersistedTask)
      modifies this, store
      ensures running == if t.running then old(running)[t.project := t.id] else old(running)
      ensures forall p :: QueueOf(queues, p) ==
                QueueOf(old(queues), p) + ItemOf(t, p)
      ensures store.View() == old(store.View()).(tasks := old(store.tasks)[t.id := NewTask(t.id, t.project, !t.running)])
    {
      store.Create(NewTask(t.id, t.project, !t.running));
      if t.running {
        running := running[t.project := t.id];
      } else {
        var _ := EnqueueDeploy(t.project, QueuedDeploy(t.id, t.request, t.queuedAt));
      }
    }
  }

  lemma {:induction false} IdsPush(q: seq<QueuedDeploy>, d: QueuedDeploy)
    ensures IdsOf(q + [d]) == IdsOf(q) + [d.id]
  {
    if q == [] {
      assert q + [d] == [d] && [d][1..] == [];
    } else {
      assert (q + [d])[1..] == q[1..] + [d];
      IdsPush(q[1..], d);
    }
  }

  /** What running the item at position `i` leaves to be done. */
  lemma DrainStep(lim: Limits, s: Store, tasks: seq<PersistedTask>, q: seq<QueuedDeploy>, i: nat, outcome: TaskId -> DeployStatus, now: Time)
    requires i < |q|
    ensures IdsOf(q[..i + 1]) == IdsOf(q[..i]) + [q[i].id]
    ensures Without(tasks, IdsOf(q[i..])) == Without(RemoveFrom(tasks, q[i].id), IdsOf(q[i + 1..]))
    ensures EndAll(lim, s, IdsOf(q[i..]), outcome, now)
         == EndAll(lim, EndOne(lim, s, q[i].id, outcome(q[i].id), now), IdsOf(q[i + 1..]), outcome, now)
  {
    assert q[i..][0] == q[i] && q[i..][1..] == q[i + 1..];
    IdsPush(q[..i], q[i]);
    assert q[..i + 1] == q[..i] + [q[i]];
  }

  predicate Stale(d: QueuedDeploy, now: Time) {
    now - d.queuedAt > QUEUE_TIMEOUT_SECS
  }

  /** The items still allowed to wait, in order. */
  function Fresh(q: seq<QueuedDeploy>, now: Time): seq<QueuedDeploy> {
    if q == [] then []
    else (if Stale(q[0], now) then [] else [q[0]]) + Fresh(q[1..], now)
  }

  /** What is left has waited at most ten minutes, and all of that is left. */
  ghost predicate OnlyFresh(before: seq<QueuedDeploy>, after: seq<QueuedDeploy>, now: Time) {
    forall d :: d in after <==> d in before && now - d.queuedAt <= 600
  }

  lemma {:induction false} FreshAre(q: seq<QueuedDeploy>, now: Time)
    ensures OnlyFresh(q, Fresh(q, now), now)
  {
    if q != [] {
      FreshAre(q[1..], now);
      assert q == [q[0]] + q[1..];
    }
  }

  lemma QueuesFresh(before: Queues, after: Queues, now: Time)
    requires after.Keys == before.Keys && forall p :: p in after ==> after[p] == Fresh(before[p], now)
    ensures forall p :: p in after ==> OnlyFresh(before[p], after[p], now)
  {
    forall p | p in after ensures OnlyFresh(before[p], after[p], now) { FreshAre(before[p], now); }
  }

  /** Each item is judged by itself, and the order stays. */
  lemma {:induction false} FreshSum(a: seq<QueuedDeploy>, b: seq<QueuedDeploy>, now: Time)
    ensures Fresh(a + b, now) == Fresh(a, now) + Fresh(b, now)
  {
    if a == [] {
      assert a + b == b;
    } else {
      assert (a + b)[1..] == a[1..] + b;
      FreshSum(a[1..], b, now);
    }
  }

  function StaleIds(p: Project, q: seq<QueuedDeploy>, now: Time): seq<(Project, TaskId)> {
    if q == [] then []
    else (if Stale(q[0], now) then [(p, q[0].id)] else []) + StaleIds(p, q[1..], now)
  }

  lemma {:induction false} StaleIdsAre(p: Project, q: seq<QueuedDeploy>, now: Time)
    ensures forall o, id :: (o, id) in StaleIds(p, q, now) <==> o == p && exists d :: d in q && d.id == id && Stale(d, now)
  {
    if q != [] {
      StaleIdsAre(p, q[1..], now);
      assert q == [q[0]] + q[1..];
    }
  }

  /** The queued records of a project, as queue items, in list order. */
  function QueuedIn(saved: seq<PersistedTask>, p: Project): seq<QueuedDeploy> {
    if saved == [] then []
    else
      var t := saved[|saved| - 1];
      QueuedIn(saved[..|saved| - 1], p) + ItemOf(t, p)
  }

  /** The queue item of a record, when it is a queued record of the project. */
  function ItemOf(t: PersistedTask, p: Project): seq<QueuedDeploy> {
    if p == t.project && !t.running then [QueuedDeploy(t.id, t.request, t.queuedAt)] else []
  }

  /** A queue after recovery: what it held, then the project's queued records if the project is known. */
  function Recovered(q: seq<QueuedDeploy>, saved: seq<PersistedTask>, known: set<Project>, p: Project): seq<QueuedDeploy> {
    if p in known then q + QueuedIn(saved, p) else q
  }

  predicate RecoveredStep(q: seq<QueuedDeploy>, saved: seq<PersistedTask>, i: nat, known: set<Project>, p: Project)
    requires i < |saved|
  {
    Recovered(q, saved[..i + 1], known, p) ==
    Recovered(q, saved[..i], known, p) + (if saved[i].project in known then ItemOf(saved[i], p) else [])
  }

  lemma RecoverStep(q: seq<QueuedDeploy>, saved: seq<PersistedTask>, i: nat, known: set<Project>, p: Project)
    requires i < |saved|
    ensures RecoveredStep(q, saved, i, known, p)
  {
    assert saved[..i + 1][..i] == saved[..i];
    if p in known {
      assert (q + QueuedIn(saved[..i], p)) + ItemOf(saved[i], p) == q + (QueuedIn(saved[..i], p) + ItemOf(saved[i], p));
    }
  }

  /** The task store once every record of a known project has its entry again. */
  function Entered(s: Store, saved: seq<PersistedTask>, known: set<Project>): Store {
    if saved == [] then s
    else
      var t := saved[|saved| - 1];
      var before := Entered(s, saved[..|saved| - 1], known);
      if t.project in known then before.(tasks := before.tasks[t.id := NewTask(t.id, t.project, !t.running)]) else before
  }

  /** The running records of known projects, in list order. */
  function RunningIn(saved: seq<PersistedTask>, known: set<Project>): seq<(Project, TaskId)> {
    if saved == [] then []
    else
      var t := saved[|saved| - 1];
      RunningIn(saved[..|saved| - 1], known) + (if t.project in known && t.running then [(t.project, t.id)] else [])
  }

  function RegisterAll(running: map<Project, TaskId>, started: seq<(Project, TaskId)>): map<Project, TaskId> {
    if started == [] then running
    else
      var (p, id) := started[|started| - 1];
      RegisterAll(running, started[..|started| - 1])[p := id]
  }

  lemma EnteredStep(s: Store, saved: seq<PersistedTask>, i: nat, known: set<Project>)
    requires i < |saved|
    ensures var before, t := Entered(s, saved[..i], known), saved[i];
            Entered(s, saved[..i + 1], known) ==
            if t.project in known then before.(tasks := before.tasks[t.id := NewTask(t.id, t.project, !t.running)]) else before
  {
    assert saved[..i + 1][..i] == saved[..i];
  }

  lemma StartedStep(running: map<Project, TaskId>, saved: seq<PersistedTask>, i: nat, known: set<Project>)
    requires i < |saved|
    ensures var before, t := RunningIn(saved[..i], known), saved[i];
            && RunningIn(saved[..i + 1], known) == before + (if t.project in known && t.running then [(t.project, t.id)] else [])
            && RegisterAll(running, before + [(t.project, t.id)]) == RegisterAll(running, before)[t.project := t.id]
  {
    assert saved[..i + 1][..i] == saved[..i];
    var before := RunningIn(saved[..i], known);
    assert (before + [(saved[i].project, saved[i].id)])[..|before|] == before;
  }

  // ---------- what recovery reads off the list ----------

  /** Queued records become items in list order; every other record adds nothing. */
  lemma {:induction false} QueuedInSum(a: seq<PersistedTask>, b: seq<PersistedTask>, p: Project)
    ensures QueuedIn(a + b, p) == QueuedIn(a, p) + QueuedIn(b, p)
  {
    if b == [] {
      assert a + b == a;
    } else {
      var n := |b| - 1;
      assert (a + b)[..|a + b| - 1] == a + b[..n] && (a + b)[|a + b| - 1] == b[n];
      QueuedInSum(a, b[..n], p);
    }
  }

  lemma QueuedInOne(t: PersistedTask, p: Project)
    ensures t.project != p || t.running ==> QueuedIn([t], p) == []
    ensures t.project == p && !t.running ==>
              var q := QueuedIn([t], p);
              |q| == 1 && q[0].id == t.id && q[0].request == t.request && q[0].queuedAt == t.queuedAt
  {
    assert [t][..0] == [];
  }

  lemma {:induction false} RunningInSum(a: seq<PersistedTask>, b: seq<PersistedTask>, known: set<Project>)
    ensures RunningIn(a + b, known) == RunningIn(a, known) + RunningIn(b, known)
  {
    if b == [] {
      assert a + b == a;
    } else {
      var n := |b| - 1;
      assert (a + b)[..|a + b| - 1] == a + b[..n] && (a + b)[|a + b| - 1] == b[n];
      RunningInSum(a, b[..n], known);
    }
  }

  lemma RunningInOne(t: PersistedTask, known: set<Project>)
    ensures RunningIn([t], known) == if t.running && t.project in known then [(t.project, t.id)] else []
  {
    assert [t][..0] == [];
  }

  /** Position `i` starts the project last. */
  predicate LastStart(started: seq<(Project, TaskId)>, p: Project, i: int) {
    0 <= i < |started| && started[i].0 == p && forall j :: i < j < |started| ==> started[j].0 != p
  }

  lemma {:induction false} NotStarted(running: map<Project, TaskId>, started: seq<(Project, TaskId)>, p: Project)
    requires forall i :: 0 <= i < |started| ==> started[i].0 != p
    ensures var r := RegisterAll(running, started); (p in r <==> p in running) && (p in r ==> r[p] == running[p])
  {
    if started != [] { NotStarted(running, started[..|started| - 1], p); }
  }

  /** The last task started for a project is the registered one. */
  lemma {:induction false} RegisterAllAt(running: map<Project, TaskId>, started: seq<(Project, TaskId)>, p: Project, i: nat)
    requires LastStart(started, p, i)
    ensures p in RegisterAll(running, started) && RegisterAll(running, started)[p] == started[i].1
  {
    var n := |started| - 1;
    if i < n {
      assert started[n].0 != p;
      RegisterAllAt(running, started[..n], p, i);
    }
  }

  predicate LastRecord(saved: seq<PersistedTask>, known: set<Project>, id: TaskId, i: int) {
    && 0 <= i < |saved| && saved[i].id == id && saved[i].project in known
    && forall j :: i < j < |saved| ==> saved[j].id != id || saved[j].project !in known
  }

  predicate HasKnown(saved: seq<PersistedTask>, known: set<Project>, id: TaskId) {
    exists i :: 0 <= i < |saved| && saved[i].id == id && saved[i].project in known
  }

  lemma {:induction false} NotEntered(s: Store, saved: seq<PersistedTask>, known: set<Project>, id: TaskId)
    requires !HasKnown(saved, known, id)
    ensures var s' := Entered(s, saved, known);
            (id in s'.tasks <==> id in s.tasks) && (id in s'.tasks ==> s'.tasks[id] == s.tasks[id])
  {
    if saved != [] {
      var n := |saved| - 1;
      assert saved[n].id != id || saved[n].project !in known;
      forall i | 0 <= i < n ensures saved[..n][i].id != id || saved[..n][i].project !in known { assert saved[..n][i] == saved[i]; }
      NotEntered(s, saved[..n], known, id);
    }
  }

  /** The last record of the id in a known project has its task entry, running or queued as the record is. */
  lemma {:induction false} EnteredAs(s: Store, saved: seq<PersistedTask>, known: set<Project>, id: TaskId, i: nat)
    requires LastRecord(saved, known, id, i)
    ensures var s' := Entered(s, saved, known);
            && id in s'.tasks && s'.tasks[id].id == id && s'.tasks[id].project == saved[i].project
            && s'.tasks[id].status == (if saved[i].running then Running else Queued)
            && s'.tasks[id].finishedAt == None && s'.tasks[id].exitCode == None
  {
    var n := |saved| - 1;
    if i < n {
      assert LastRecord(saved[..n], known, id, i);
      assert saved[n].id != id || saved[n].project !in known;
      EnteredAs(s, saved[..n], known, id, i);
    }
  }
}
