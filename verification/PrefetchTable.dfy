/** The table of image prefetch tasks and the cleanup that bounds it. */
module PrefetchTables {
  import opened Common

  type TaskKey = string
  /** Milliseconds. */
  type Time = int

  const MAX_PREFETCH_TASKS := 100
  const TASK_RETENTION_SECS := 3600

  datatype PrefetchStatus = Pending | Pulling | Completed | Failed

  datatype PrefetchTask = PrefetchTask(createdAt: Time, status: PrefetchStatus) {
    predicate Finished() { status.Completed? || status.Failed? }
    predicate Young(now: Time) { now - createdAt < 1000 * TASK_RETENTION_SECS }
  }

  type Table = map<TaskKey, PrefetchTask>

  /** The entries younger than the retention. */
  function Retained(tasks: Table, now: Time): Table {
    map k | k in tasks && tasks[k].Young(now) :: tasks[k]
  }

  predicate HasFinished(tasks: Table) {
    exists k :: k in tasks && tasks[k].Finished()
  }

  predicate SubTable(a: Table, b: Table) {
    forall k :: k in a ==> k in b && a[k] == b[k]
  }

  /** From `young` to `kept` only finished entries went, oldest first, and no more than had to. */
  predicate Capped(young: Table, kept: Table) {
    && SubTable(kept, young)
    && (forall k :: k in young && !young[k].Finished() ==> k in kept)
    && (forall j, k :: j in young && j !in kept && k in kept && kept[k].Finished() ==> young[j].createdAt <= kept[k].createdAt)
    && (kept != young ==> |kept| >= MAX_PREFETCH_TASKS - 1)
  }

  /** What a cleanup promises about the table it leaves. */
  predicate CleanedUp(tasks: Table, now: Time, kept: Table) {
    && Capped(Retained(tasks, now), kept)
    && (|kept| < MAX_PREFETCH_TASKS || !HasFinished(kept))
  }

  class PrefetchTable {
    var tasks: Table

    constructor ()
      ensures tasks == map[]
    {
      tasks := map[];
    }

    /** The key of a finished entry than which none is older. */
    method OldestCompleted() returns (oldest: Option<TaskKey>)
      ensures oldest.None? <==> !HasFinished(tasks)
      ensures oldest.None? <==> forall k :: k in tasks ==> tasks[k].status == Pending || tasks[k].status == Pulling
      ensures oldest.Some? ==> oldest.value in tasks && tasks[oldest.value].Finished() && !tasks[oldest.value].status.Pending? && !tasks[oldest.value].status.Pulling?
      ensures oldest.Some? ==> forall k :: k in tasks && tasks[k].Finished() ==> tasks[oldest.value].createdAt <= tasks[k].createdAt
    {
      oldest := None;
      var rest := tasks.Keys;
      while rest != {}
        invariant rest <= tasks.Keys
        invariant oldest.None? ==> forall k :: k in tasks && k !in rest ==> !tasks[k].Finished()
        invariant oldest.Some? ==> oldest.value in tasks && tasks[oldest.value].Finished()
        invariant oldest.Some? ==>
                    forall k :: k in tasks && k !in rest && tasks[k].Finished() ==> tasks[oldest.value].createdAt <= tasks[k].createdAt
        decreases rest
      {
        var k :| k in rest;
        rest := rest - {k};
        if tasks[k].Finished() && (oldest.None? || tasks[k].createdAt < tasks[oldest.value].createdAt) {
          oldest := Some(k);
        }
      }
    }

    method CleanupOldTasks(now: Time)
      modifies this
      ensures CleanedUp(old(tasks), now, tasks)
    {
      tasks := Retained(tasks, now);
      ghost var young := tasks;
      while |tasks| >= MAX_PREFETCH_TASKS
        invariant Capped(young, tasks)
        decreases |tasks|
      {
        var oldest := OldestCompleted();
        if oldest.None? { break; }
        RemoveOldest(young, tasks, oldest.value);
        tasks := tasks - {oldest.value};
      }
    }
  }

  lemma Shorter(tasks: Table, k: TaskKey)
    requires k in tasks
    ensures |tasks - {k}| == |tasks| - 1
  {
    assert (tasks - {k}).Keys == tasks.Keys - {k};
    assert |tasks.Keys| == |tasks|;
  }

  lemma RemoveOldest(young: Table, kept: Table, k: TaskKey)
    requires Capped(young, kept) && |kept| >= MAX_PREFETCH_TASKS && k in kept && kept[k].Finished()
    requires forall j :: j in kept && kept[j].Finished() ==> kept[k].createdAt <= kept[j].createdAt
    ensures Capped(young, kept - {k}) && |kept - {k}| < |kept|
  {
    Shorter(kept, k);
  }

  lemma SubTableSmaller(a: Table, b: Table)
    requires SubTable(a, b)
    ensures |a| <= |b| && (|a| == |b| ==> a == b)
  {
    assert a.Keys <= b.Keys;
    SubsetSmaller(a.Keys, b.Keys);
    assert |a.Keys| == |a| && |b.Keys| == |b|;
  }

  lemma {:induction false} SubsetSmaller(a: set<TaskKey>, b: set<TaskKey>)
    requires a <= b
    ensures |a| <= |b| && (|a| == |b| ==> a == b)
  {
    if a != b {
      var k :| k in b && k !in a;
      assert a <= b - {k};
      SubsetSmaller(a, b - {k});
    }
  }

  predicate Over(t: PrefetchTask) { t.status == Completed || t.status == Failed }

  predicate Old(t: PrefetchTask, now: Time) { now - t.createdAt >= 3_600_000 }

  /**
   Nothing an hour old is left, and all unfinished younger entries are. A younger one that is gone was
   finished, is no younger than any finished one that stays, and there were too many; a hundred are left
   only if none is finished.
   */
  lemma CleanupKeeps(tasks: Table, now: Time, kept: Table)
    requires CleanedUp(tasks, now, kept)
    ensures forall k :: k in kept ==> k in tasks && kept[k] == tasks[k] && !Old(kept[k], now)
    ensures forall k :: k in tasks && !Old(tasks[k], now) && !Over(tasks[k]) ==> k in kept
    ensures forall j, k :: j in tasks && !Old(tasks[j], now) && j !in kept && k in kept && Over(kept[k]) ==>
              tasks[j].createdAt <= kept[k].createdAt
    ensures (exists k :: k in tasks && !Old(tasks[k], now) && k !in kept) ==>
              |kept| == 99 || (|kept| > 99 && forall k :: k in kept ==> !Over(kept[k]))
    ensures |kept| >= 100 ==> forall k :: k in kept ==> !Over(kept[k])
  {
    var young := Retained(tasks, now);
    assert forall t: PrefetchTask :: t.Young(now) <==> !Old(t, now);
    assert forall t: PrefetchTask :: t.Finished() <==> Over(t);
    assert forall k :: k in young <==> k in tasks && !Old(tasks[k], now);
    SubTableSmaller(kept, young);
  }

  /** Few young entries are all left; otherwise no more went than had to. */
  lemma CleanupSpares(tasks: Table, now: Time, kept: Table)
    requires CleanedUp(tasks, now, kept)
    ensures |Retained(tasks, now)| < MAX_PREFETCH_TASKS ==> kept == Retained(tasks, now)
    ensures kept != Retained(tasks, now) ==> |kept| == MAX_PREFETCH_TASKS - 1 || !HasFinished(kept)
  {
    SubTableSmaller(kept, Retained(tasks, now));
  }

  /** A second cleanup at the same moment removes nothing. */
  lemma CleanupTwice(tasks: Table, now: Time, once: Table, twice: Table)
    requires CleanedUp(tasks, now, once) && CleanedUp(once, now, twice)
    ensures twice == once
  {
    assert forall k :: k in once ==> once[k].Young(now);
    assert Retained(once, now) == once;
    SubTableSmaller(twice, once);
    if !HasFinished(once) {
      assert SubTable(once, twice);
      SubTableSmaller(once, twice);
    }
  }
}
