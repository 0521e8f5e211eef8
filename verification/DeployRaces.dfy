/** Concrete runs in which two tasks of one project run at once, or work waits with nobody to run it. */
module DeployRaces {
  import opened Common
  import opened TaskStores
  import opened QueuePersistences
  import opened Agents
  import opened DeploySystem
  import opened QueueRestarts
  import opened DeployCoarse
  import opened DeployExclusion
  import opened DeployRestart
  import opened DeployOverlap
  import DeployRuns
  import opened DeployStranding

  const P := "web"
  const A := "a"
  const B := "b"
  const R := Request(None, None, None)
  const LATE: Time := 601

  lemma Extends(run: seq<Coarse>, c: Coarse)
    requires CoarseRuns(run) && MayDo(Ends(run), c)
    ensures CoarseRuns(run + [c]) && Ends(run + [c]) == DoCoarse(Ends(run), c)
  {
    assert (run + [c])[..|run|] == run;
  }

  const RECORD_A := PersistedTask(A, P, R, true, 0, Some(0))
  const RECORD_B := PersistedTask(B, P, R, false, 0, None)

  lemma FirstTrigger()
    ensures CoarseRuns([Coarse.Trigger(A, P, R, 0, 0)])
    ensures var st := Ends([Coarse.Trigger(A, P, R, 0, 0)]);
            && st.running == map[P := A] && st.queues == map[] && st.memory == [RECORD_A] && st.file == Some([RECORD_A])
            && st.workers == map[0 := Worker(P, A, Deploying)] && st.triggers == map[] && st.boot.Ready?
  {
    assert !InSomeQueue(BOOTED.queues, A);
    assert MayDo(BOOTED, Coarse.Trigger(A, P, R, 0, 0));
    Extends([], Coarse.Trigger(A, P, R, 0, 0));
    assert [] + [Coarse.Trigger(A, P, R, 0, 0)] == [Coarse.Trigger(A, P, R, 0, 0)];
  }

  const TWO := [Coarse.Trigger(A, P, R, 0, 0), Coarse.Trigger(B, P, R, 0, 1)]

  lemma SecondTrigger()
    ensures CoarseRuns(TWO)
    ensures var st := Ends(TWO);
            && st.running == map[P := A] && st.queues == map[P := [QueuedDeploy(B, R, 0)]]
            && st.memory == [RECORD_A, RECORD_B] && st.file == Some([RECORD_A, RECORD_B])
            && st.workers == map[0 := Worker(P, A, Deploying)]
  {
    FirstTrigger();
    var one := [Coarse.Trigger(A, P, R, 0, 0)];
    assert one[0] == TWO[0];
    var st := Ends(one);
    assert !HasId([RECORD_A], B);
    assert MayDo(st, TWO[1]);
    var item := QueuedDeploy(B, R, 0);
    assert QueueOf(st.queues, P) == [] && [] + [item] == [item];
    Extends(one, TWO[1]);
    assert one + [TWO[1]] == TWO;
  }

  const WAITED := TWO + [Timeout(LATE)]

  /** The item expires; nothing touches its record. */
  lemma ItemExpires()
    ensures CoarseRuns(WAITED)
    ensures var st := Ends(WAITED);
            && st.queues == map[P := []] && st.running == map[P := A] && st.memory == [RECORD_A, RECORD_B]
            && st.workers == map[0 := Worker(P, A, Deploying)]
  {
    SecondTrigger();
    Extends(TWO, Timeout(LATE));
    TooLate();
  }

  lemma TooLate()
    ensures FreshQueues(map[P := [QueuedDeploy(B, R, 0)]], LATE) == map[P := []]
  {
    var item := QueuedDeploy(B, R, 0);
    assert Stale(item, LATE);
    assert Fresh([item], LATE) == [] by { assert [item][1..] == []; }
  }

  const EXPIRED := WAITED + [Coarse.Finish(0, LATE)]

  lemma ExpiredThenFinished()
    ensures CoarseRuns(EXPIRED)
    ensures Ends(EXPIRED).running == map[] && Ends(EXPIRED).file == Some([RECORD_B])
  {
    ItemExpires();
    var st := Ends(WAITED);
    Extends(WAITED, Coarse.Finish(0, LATE));
    FinishIs(st, 0, LATE);
    FirstRemoved();
    assert st.running - {P} == map[];
  }

  lemma FirstRemoved()
    ensures HasId([RECORD_A, RECORD_B], A) && RemoveFrom([RECORD_A, RECORD_B], A) == [RECORD_B]
  {
    assert [RECORD_A, RECORD_B][0].id == A && A != B;
    assert [RECORD_A, RECORD_B][..1] == [RECORD_A];
    assert [RECORD_A][..0] == [];
    assert RemoveFrom([RECORD_A], A) == [];
  }

  /** After a restart the expired item waits again, and no worker is there to take it. */
  lemma ExpiryStrandsWork()
    ensures CoarseRuns(EXPIRED + [Restart({P})]) && !NoneStranded(Ends(EXPIRED + [Restart({P})]))
    ensures ProjectsKnown(EXPIRED + [Restart({P})])
  {
    ExpiredThenFinished();
    Extends(EXPIRED, Restart({P}));
    KnownThroughout();
    RestartStrandsExactly(Ends(EXPIRED), {P});
    assert [RECORD_B][..0] == [];
    assert QueuedIn([RECORD_B], P) == [QueuedDeploy(B, R, 0)];
    assert (EXPIRED + [Restart({P})])[..|EXPIRED|] == EXPIRED;
  }

  lemma KnownThroughout()
    ensures CoarseRuns(EXPIRED) && ProjectsKnown(EXPIRED)
  {
    ExpiredThenFinished();
    NoRestartsKnown(EXPIRED);
  }

  predicate NoRestart(run: seq<Coarse>) { forall i :: 0 <= i < |run| ==> !run[i].Restart? }

  lemma {:induction false} NoRestartsKnown(run: seq<Coarse>)
    requires CoarseRuns(run) && NoRestart(run)
    ensures ProjectsKnown(run)
  {
    if run != [] {
      assert NoRestart(run[..|run| - 1]);
      NoRestartsKnown(run[..|run| - 1]);
    }
  }

  // ---------- a project unknown at one restart ----------

  const SKIPPED := [Coarse.Trigger(A, P, R, 0, 0), Restart({})]

  /** The record of an unknown project stays on disk, and nothing is registered for it. */
  lemma SkippedRecordStays()
    ensures CoarseRuns(SKIPPED)
    ensures var st := Ends(SKIPPED);
            && st.running == map[] && st.queues == map[] && st.workers == map[] && st.memory == [RECORD_A]
            && st.file == Some([RECORD_A]) && st.triggers == map[]
  {
    FirstTrigger();
    var one := [Coarse.Trigger(A, P, R, 0, 0)];
    Extends(one, Restart({}));
    assert one + [Restart({})] == SKIPPED;
    var s := Reloaded(Ends(one));
    assert s.boot == Recovering([RECORD_A], false);
    var s' := DoRecover(s, false, 1);
    assert s'.boot == Recovering([], false);
    assert RecoverAll(s, {}) == RecoverAll(s', {}) == DoRecover(s', false, 0);
  }

  const RECORD_B_RUNS := PersistedTask(B, P, R, true, 0, Some(0))

  const THREE := SKIPPED + [Coarse.Trigger(B, P, R, 0, 0)]
  const DOUBLED := THREE + [Restart({P})]

  lemma SecondRecordSaved()
    ensures CoarseRuns(THREE) && Ends(THREE).file == Some([RECORD_A, RECORD_B_RUNS])
  {
    SkippedRecordStays();
    assert !HasId([RECORD_A], B) by { assert [RECORD_A][0].id != B; }
    assert MayDo(Ends(SKIPPED), Coarse.Trigger(B, P, R, 0, 0));
    Extends(SKIPPED, Coarse.Trigger(B, P, R, 0, 0));
    assert AddTo([RECORD_A], RECORD_B_RUNS) == [RECORD_A, RECORD_B_RUNS];
  }

  /** A second record of the project is saved; a restart that knows it starts both. */
  lemma SkippedThenDoubled()
    ensures CoarseRuns(DOUBLED)
    ensures Ends(DOUBLED).workers == map[2 := Worker(P, A, Deploying), 1 := Worker(P, B, Deploying)]
    ensures !OnePerProject(Ends(DOUBLED)) && !Exclusive(Ends(DOUBLED))
  {
    SecondRecordSaved();
    Extends(THREE, Restart({P}));
    BothStarted(Reloaded(Ends(THREE)));
    assert Ends(DOUBLED).workers[2].project == Ends(DOUBLED).workers[1].project;
  }

  lemma BothStarted(s: State)
    requires s.boot == Recovering([RECORD_A, RECORD_B_RUNS], false) && s.workers == map[]
    ensures RecoverAll(s, {P}).workers == map[2 := Worker(P, A, Deploying), 1 := Worker(P, B, Deploying)]
  {
    RecoverFirst(s, {P});
    var s1 := HandleFirst(s, {P});
    assert s1.boot == Recovering([RECORD_B_RUNS], false);
    RecoverFirst(s1, {P});
    var s2 := HandleFirst(s1, {P});
    assert s2.boot == Recovering([], false);
    assert RecoverAll(s2, {P}) == DoRecover(s2, false, 0);
  }

  // ---------- small steps: two workers of one project ----------

  const C := "c"

  /** A task that is over, with its registration taken away and its record still there. */
  lemma FirstUnregisters() returns (st: State)
    ensures Reachable(st) && Idle(st) && st.running == map[] && st.queues == map[] && st.memory == [RECORD_A]
    ensures st.file == Some([RECORD_A]) && st.workers == map[0 := Worker(P, A, RemoveRecord)]
  {
    FirstTrigger();
    var one := [Coarse.Trigger(A, P, R, 0, 0)];
    CoarseReaches(one);
    var s := Ends(one);
    WorkerUnregisters(s, 0, 0);
    st := WithWorker(s.(ended := s.ended + {A}, running := s.running - {P}), 0, Worker(P, A, RemoveRecord));
    assert s.running - {P} == map[];
  }

  const BOTH := [RECORD_A, RECORD_B_RUNS]

  /** A trigger comes in between the two unregistrations of the first task. */
  lemma SecondStarts() returns (st: State)
    ensures Reachable(st) && Idle(st) && st.running == map[P := B] && st.queues == map[] && st.memory == BOTH
    ensures st.file == Some(BOTH)
    ensures st.workers == map[0 := Worker(P, A, RemoveRecord), 1 := Worker(P, B, Deploying)]
  {
    var s := FirstUnregisters();
    assert !HasId([RECORD_A], B) by { assert [RECORD_A][0].id != B; }
    TriggerRuns(s, B, P, R, 0, 1);
    st := DoCoarseTrigger(s, B, P, R, 0, 1);
  }

  lemma FirstRemovesRecord() returns (st: State)
    ensures Reachable(st) && Idle(st) && st.running == map[P := B] && st.queues == map[] && st.memory == [RECORD_B_RUNS]
    ensures st.file == Some([RECORD_B_RUNS])
    ensures st.workers == map[0 := Worker(P, A, UnregisterLate), 1 := Worker(P, B, Deploying)]
  {
    var s := SecondStarts();
    WorkerRemoves(s, 0, 0);
    RemovesFirst();
    st := DeployCoarse.Saved(WithWorker(s, 0, Worker(P, A, UnregisterLate)), [RECORD_B_RUNS]);
  }

  /** The second unregistration of the first task takes away the registration of the second. */
  lemma SecondUnregistered() returns (st: State)
    ensures Reachable(st) && Idle(st) && st.running == map[] && st.queues == map[] && st.memory == [RECORD_B_RUNS]
    ensures st.file == Some([RECORD_B_RUNS])
    ensures st.workers == map[0 := Worker(P, A, Dequeue), 1 := Worker(P, B, Deploying)]
  {
    var s := FirstRemovesRecord();
    Reaches(s, Fine(OfWorker(0, 0)));
    st := DoWorker(s, 0, 0);
    assert s.running - {P} == map[];
  }

  lemma RemovesFirst()
    ensures HasId(BOTH, A) && RemoveFrom(BOTH, A) == [RECORD_B_RUNS]
  {
    assert BOTH[0].id == A && A != B;
    assert BOTH[..1] == [RECORD_A];
    assert [RECORD_A][..0] == [];
    assert RemoveFrom([RECORD_A], A) == [];
  }

  /** So a third trigger starts at once beside the second: two deployments of one project run together. */
  lemma UnregisterRace() returns (st: State)
    ensures DeployRuns.Reachable(st)
    ensures 1 in st.workers && st.workers[1] == Worker(P, B, Deploying)
    ensures 2 in st.workers && st.workers[2] == Worker(P, C, Deploying)
    ensures DeploysTwice(st, P) && !OnePerProject(st)
  {
    var s := SecondUnregistered();
    assert !HasId([RECORD_B_RUNS], C) by { assert [RECORD_B_RUNS][0].id != C; }
    TriggerRuns(s, C, P, R, 0, 2);
    st := DoCoarseTrigger(s, C, P, R, 0, 2);
    DeployRuns.MediumReachable(st);
    assert DeploysIn(st, 1, P) && DeploysIn(st, 2, P);
    TwiceIsTwo(st, P);
  }

  // ---------- small steps: nothing is unregistered ----------

  const WAITS := Trigger.Trigger(P, R, 0, CheckRunning)
  const PASSED := Trigger.Trigger(P, R, 0, CreateRunning)

  /** Two triggers of one project arrive together. */
  lemma BothArrive() returns (st: State)
    ensures Reachable(st) && st.lock.Free? && st.workers == map[] && st.running == map[]
    ensures st.triggers == map[A := WAITS, B := WAITS]
  {
    BootedReachable();
    Reaches(BOOTED, Fine(Start(A, P, R, 0)));
    var one := Apply(BOOTED, Start(A, P, R, 0));
    assert !Live(one, B);
    Reaches(one, Fine(Start(B, P, R, 0)));
    st := Apply(one, Start(B, P, R, 0));
  }

  /** Each finds the project unregistered. */
  lemma BothPass() returns (st: State)
    ensures Reachable(st) && st.lock.Free? && st.workers == map[]
    ensures st.triggers == map[A := PASSED, B := PASSED]
  {
    var s := BothArrive();
    Reaches(s, Fine(OfTrigger(A, 0, 0)));
    var one := DoTrigger(s, A, 0, 0);
    Reaches(one, Fine(OfTrigger(B, 0, 0)));
    st := DoTrigger(one, B, 0, 0);
  }

  /** So each registers and starts its own task: the check and the registration are apart. */
  lemma CheckThenRegisterRace() returns (st: State)
    ensures DeployRuns.Reachable(st)
    ensures st.workers == map[0 := Worker(P, A, Deploying), 1 := Worker(P, B, Deploying)]
    ensures DeploysTwice(st, P) && !OnePerProject(st)
  {
    var s := BothPass();
    DeployRuns.MediumReachable(s);
    var one := Drives(START, s, A, 0);
    st := Drives(START, one, B, 1);
    assert DeploysIn(st, 0, P) && DeploysIn(st, 1, P);
    TwiceIsTwo(st, P);
  }

  // ---------- small steps: work waits with nobody to run it ----------

  /** A trigger finds the first task registered and is about to queue its own. */
  lemma SecondAboutToQueue() returns (st: State)
    ensures Reachable(st) && st.boot.Ready? && st.lock.Free? && st.running == map[P := A] && st.queues == map[]
    ensures st.memory == [RECORD_A] && st.workers == map[0 := Worker(P, A, Deploying)]
    ensures st.triggers == map[B := Trigger.Trigger(P, R, 0, Enqueue)]
  {
    FirstTrigger();
    var one := [Coarse.Trigger(A, P, R, 0, 0)];
    CoarseReaches(one);
    var s := Ends(one);
    assert !HasId([RECORD_A], B) by { assert [RECORD_A][0].id != B; }
    TriggerStarts(s, B, P, R, 0, 1);
    var s1 := Triggering(s, B, P, R, 0, CheckLength);
    Reaches(s1, Fine(OfTrigger(B, 1, 0)));
    var s2 := DoTrigger(s1, B, 1, 0);
    Reaches(s2, Fine(OfTrigger(B, 1, 0)));
    st := DoTrigger(s2, B, 1, 0);
  }

  /** The first task ends, and its worker cleans up. */
  lemma FirstCleansUp() returns (st: State)
    ensures Reachable(st) && st.boot.Ready? && st.lock.Free? && st.running == map[] && st.queues == map[] && st.memory == []
    ensures st.workers == map[0 := Worker(P, A, Dequeue)] && st.triggers == map[B := Trigger.Trigger(P, R, 0, Enqueue)]
  {
    var s := SecondAboutToQueue();
    Reaches(s, Fine(OfWorker(0, 0)));
    var s1 := DoWorker(s, 0, 0);
    Reaches(s1, Fine(OfWorker(0, 0)));
    var s2 := DoWorker(s1, 0, 0);
    assert s.running - {P} == map[];
    assert s2.running == map[] && s2.workers == map[0 := Worker(P, A, RemoveRecord)];
    OnlyFirst();
    WorkerRemoves(s2, 0, 0);
    var s3 := DeployCoarse.Saved(WithWorker(s2, 0, Worker(P, A, UnregisterLate)), []);
    WorkerUnregistersAgain(s3, 0, 0);
    st := WithWorker(s3, 0, Worker(P, A, Dequeue)).(running := s3.running - {P});
  }

  lemma OnlyFirst()
    ensures HasId([RECORD_A], A) && RemoveFrom([RECORD_A], A) == []
  {
    assert [RECORD_A][0].id == A && [RECORD_A][..0] == [];
  }

  /** It finds no item and leaves; only then the trigger queues: the check and the queueing are apart. */
  lemma CheckThenEnqueueRace() returns (st: State)
    ensures DeployRuns.Reachable(st)
    ensures st.workers == map[] && st.triggers == map[] && st.running == map[] && B in st.acked
    ensures QueueOf(st.queues, P) == [QueuedDeploy(B, R, 0)]
    ensures Stranded(st, P) && !NoneStranded(st)
  {
    var s := FirstCleansUp();
    Reaches(s, Fine(OfWorker(0, 0)));
    var s1 := DoWorker(s, 0, 0);
    assert s1.workers == map[];
    Reaches(s1, EnqueuePersisted(B, 0, 0));
    st := DoMedium(s1, EnqueuePersisted(B, 0, 0));
    Step4Is(s1, B, 0, 0);
    assert s1.triggers - {B} == map[];
    DeployRuns.MediumReachable(st);
  }
}
