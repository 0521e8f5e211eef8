/** Exclusion and waiting work across crashes, with the exact condition on each restart. */
module DeployRestart {
  import opened Common
  import opened TaskStores
  import opened QueuePersistences
  import opened Agents
  import opened DeploySystem
  import opened QueueOrder
  import opened QueueRestarts
  import opened DeployCoarse
  import opened DeployExclusion

  /** Recovery will start a task of the project: it is known and has a running record. */
  predicate StartsIn(m: seq<PersistedTask>, known: set<Project>, p: Project) {
    p in known && exists t :: t in m && t.running && t.project == p
  }

  /** No known project has two running records. */
  predicate SingleRunning(m: seq<PersistedTask>, known: set<Project>) {
    forall i, j :: 0 <= i < j < |m| && m[i].running && m[j].running && m[i].project in known ==> m[i].project != m[j].project
  }

  lemma StartsHead(t: PersistedTask, rest: seq<PersistedTask>, known: set<Project>, p: Project)
    ensures StartsIn([t] + rest, known, p) <==> (t.running && t.project == p && p in known) || StartsIn(rest, known, p)
  {
    assert t in [t] + rest;
    if StartsIn(rest, known, p) {
      var s :| s in rest && s.running && s.project == p;
      assert s in [t] + rest;
    }
  }

  lemma SingleHead(t: PersistedTask, rest: seq<PersistedTask>, known: set<Project>)
    ensures SingleRunning([t] + rest, known) <==>
            SingleRunning(rest, known) && (t.running ==> !StartsIn(rest, known, t.project))
  {
    var m := [t] + rest;
    assert forall i :: 0 <= i < |rest| ==> m[i + 1] == rest[i];
    if SingleRunning(m, known) {
      forall i, j | 0 <= i < j < |rest| && rest[i].running && rest[j].running && rest[i].project in known
        ensures rest[i].project != rest[j].project
      {
        assert m[i + 1] == rest[i] && m[j + 1] == rest[j];
      }
      forall j | t.running && t.project in known && 0 <= j < |rest| && rest[j].running ensures rest[j].project != t.project {
        assert m[0] == t && m[j + 1] == rest[j];
      }
    }
    if SingleRunning(rest, known) && (t.running ==> !StartsIn(rest, known, t.project)) {
      forall i, j | 0 <= i < j < |m| && m[i].running && m[j].running && m[i].project in known ensures m[i].project != m[j].project {
        assert m[j] == rest[j - 1];
        if i > 0 { assert m[i] == rest[i - 1]; }
      }
    }
  }

  // ---------- one record at a time ----------

  /** Recovery stands between two records. */
  predicate Between(st: State) { st.boot.Recovering? && !st.boot.registered && Numbered(st) }

  /** A running record is registered, then started. */
  function StartFirst(st: State): State
    requires st.boot.Recovering? && st.boot.todo != []
  {
    var t := st.boot.todo[0];
    st.(running := st.running[t.project := t.id], workers := st.workers[|st.boot.todo| := Worker(t.project, t.id, Deploying)],
        boot := Recovering(st.boot.todo[1..], false))
  }

  function QueueFirst(st: State): State
    requires st.boot.Recovering? && st.boot.todo != []
  {
    var t := st.boot.todo[0];
    st.(queues := st.queues[t.project := QueueOf(st.queues, t.project) + [QueuedDeploy(t.id, t.request, t.queuedAt)]],
        boot := Recovering(st.boot.todo[1..], false))
  }

  function SkipFirst(st: State): State
    requires st.boot.Recovering? && st.boot.todo != []
  {
    st.(skipped := st.skipped + {st.boot.todo[0].id}, boot := Recovering(st.boot.todo[1..], false))
  }

  function HandleFirst(st: State, known: set<Project>): State
    requires st.boot.Recovering? && st.boot.todo != []
  {
    var t := st.boot.todo[0];
    if t.project !in known then SkipFirst(st) else if t.running then StartFirst(st) else QueueFirst(st)
  }

  lemma RecoverFirst(st: State, known: set<Project>)
    requires st.boot.Recovering? && !st.boot.registered && st.boot.todo != []
    ensures RecoverAll(st, known) == RecoverAll(HandleFirst(st, known), known)
  {
    var todo := st.boot.todo;
    if todo[0].project in known && todo[0].running {
      var s1 := DoRecover(st, true, |todo|);
      assert s1.boot == Recovering(todo, true);
      assert DoRecover(s1, true, |todo|) == StartFirst(st);
    }
  }

  lemma RecoverNone(st: State, known: set<Project>)
    requires st.boot.Recovering? && st.boot.todo == []
    ensures RecoverAll(st, known) == st.(boot := Ready)
  {
    assert RecoverAll(st, known) == DoRecover(st, false, 0);
  }

  lemma FirstBetween(st: State, known: set<Project>)
    requires Between(st) && st.boot.todo != []
    ensures Between(HandleFirst(st, known)) && HandleFirst(st, known).boot.todo == st.boot.todo[1..]
    ensures st.boot.todo == [st.boot.todo[0]] + st.boot.todo[1..]
  {
  }

  // ---------- the queues ----------

  lemma FirstQueue(st: State, known: set<Project>, p: Project)
    requires st.boot.Recovering? && st.boot.todo != []
    ensures QueueOf(HandleFirst(st, known).queues, p) ==
            QueueOf(st.queues, p) + if p in known then ItemOf(st.boot.todo[0], p) else []
  {
  }

  /** Each known project gets its queued records in list order, an unknown one nothing. */
  lemma {:induction false} QueuesAfter(st: State, known: set<Project>, p: Project)
    requires Between(st)
    ensures QueueOf(RecoverAll(st, known).queues, p) ==
            QueueOf(st.queues, p) + if p in known then QueuedIn(st.boot.todo, p) else []
    decreases |st.boot.todo|
  {
    if st.boot.todo == [] {
      RecoverNone(st, known);
    } else {
      var t, rest := st.boot.todo[0], st.boot.todo[1..];
      RecoverFirst(st, known);
      FirstBetween(st, known);
      FirstQueue(st, known, p);
      QueuesAfter(HandleFirst(st, known), known, p);
      MarkedHead(t, rest, p);
      assert (QueueOf(st.queues, p) + ItemOf(t, p)) + QueuedIn(rest, p) == QueueOf(st.queues, p) + (ItemOf(t, p) + QueuedIn(rest, p));
    }
  }

  // ---------- the workers ----------

  /** So far one worker a project, and the records to come start no second one. */
  ghost predicate NoDouble(st: State, known: set<Project>)
    requires st.boot.Recovering?
  {
    && OnePerProject(st) && SingleRunning(st.boot.todo, known)
    && forall p :: StartsIn(st.boot.todo, known, p) ==> !Executes(st, p)
  }

  lemma StartedWorkers(st: State)
    requires Between(st) && st.boot.todo != []
    ensures var p := st.boot.todo[0].project;
            && (OnePerProject(StartFirst(st)) <==> OnePerProject(st) && !Executes(st, p))
            && forall o :: Executes(StartFirst(st), o) <==> Executes(st, o) || o == p
  {
    var st' := StartFirst(st);
    var p, w := st.boot.todo[0].project, |st.boot.todo|;
    assert w !in st.workers && st'.workers[w].project == p;
    forall o ensures Executes(st', o) <==> Executes(st, o) || o == p {
      if Executes(st, o) {
        var v :| v in st.workers && st.workers[v].project == o;
        assert v in st'.workers && st'.workers[v].project == o;
      }
    }
    if Executes(st, p) {
      var v :| v in st.workers && st.workers[v].project == p;
      assert st'.workers[v].project == st'.workers[w].project && v != w;
    }
    if OnePerProject(st') { StillOne(st, st'); }
  }

  lemma StillOne(st: State, st': State)
    requires OnePerProject(st') && forall v :: v in st.workers ==> v in st'.workers && st'.workers[v] == st.workers[v]
    ensures OnePerProject(st)
  {
  }

  lemma FirstNoDouble(st: State, known: set<Project>)
    requires Between(st) && st.boot.todo != []
    ensures NoDouble(st, known) <==> NoDouble(HandleFirst(st, known), known)
  {
    var t, rest := st.boot.todo[0], st.boot.todo[1..];
    var st' := HandleFirst(st, known);
    FirstBetween(st, known);
    SingleHead(t, rest, known);
    StartedWorkers(st);
    forall p ensures StartsIn(st.boot.todo, known, p) <==>
                     (t.running && t.project == p && p in known) || StartsIn(rest, known, p) {
      StartsHead(t, rest, known, p);
    }
    if t.project in known && t.running {
      StartNoDouble(st, known);
    } else {
      assert forall p :: Executes(st', p) <==> Executes(st, p);
      assert t.running ==> !StartsIn(rest, known, t.project);
    }
  }

  lemma StartNoDouble(st: State, known: set<Project>)
    requires Between(st) && st.boot.todo != [] && st.boot.todo[0].project in known && st.boot.todo[0].running
    requires SingleRunning(st.boot.todo, known) <==>
               SingleRunning(st.boot.todo[1..], known) && !StartsIn(st.boot.todo[1..], known, st.boot.todo[0].project)
    requires forall p :: StartsIn(st.boot.todo, known, p) <==>
               p == st.boot.todo[0].project || StartsIn(st.boot.todo[1..], known, p)
    ensures NoDouble(st, known) <==> NoDouble(StartFirst(st), known)
  {
    StartedWorkers(st);
  }

  /** Recovery ends with one worker a project if and only if nothing on the list starts a second one. */
  lemma {:induction false} WorkersAfter(st: State, known: set<Project>)
    requires Between(st)
    ensures OnePerProject(RecoverAll(st, known)) <==> NoDouble(st, known)
    decreases |st.boot.todo|
  {
    if st.boot.todo == [] {
      RecoverNone(st, known);
    } else {
      RecoverFirst(st, known);
      FirstBetween(st, known);
      FirstNoDouble(st, known);
      WorkersAfter(HandleFirst(st, known), known);
    }
  }

  lemma FirstExclusive(st: State, known: set<Project>)
    requires Between(st) && st.boot.todo != [] && NoDouble(st, known) && Exclusive(st)
    ensures Exclusive(HandleFirst(st, known))
  {
    var t := st.boot.todo[0];
    var st' := HandleFirst(st, known);
    if t.project in known && t.running {
      assert t in st.boot.todo && StartsIn(st.boot.todo, known, t.project);
      WorkerAdded(st, st', |st.boot.todo|, Worker(t.project, t.id, Deploying));
    } else {
      SameExclusive(st, st');
    }
  }

  lemma {:induction false} ExclusiveAfter(st: State, known: set<Project>)
    requires Between(st) && NoDouble(st, known) && Exclusive(st)
    ensures Exclusive(RecoverAll(st, known))
    decreases |st.boot.todo|
  {
    if st.boot.todo == [] {
      RecoverNone(st, known);
      SameExclusive(st, RecoverAll(st, known));
    } else {
      RecoverFirst(st, known);
      FirstBetween(st, known);
      FirstNoDouble(st, known);
      FirstExclusive(st, known);
      ExclusiveAfter(HandleFirst(st, known), known);
    }
  }

  // ---------- the registry and the skipped records ----------

  /** What recovery leaves alone, and what it only adds to. */
  lemma {:induction false} ListsAfter(st: State, known: set<Project>)
    requires Between(st)
    ensures var f := RecoverAll(st, known);
            && f.memory == st.memory && f.file == st.file && f.boot.Ready? && st.skipped <= f.skipped
            && ((forall t :: t in st.boot.todo ==> t.project in known) ==> f.skipped == st.skipped)
    decreases |st.boot.todo|
  {
    if st.boot.todo == [] {
      RecoverNone(st, known);
    } else {
      RecoverFirst(st, known);
      FirstBetween(st, known);
      ListsAfter(HandleFirst(st, known), known);
      assert st.boot.todo[0] in st.boot.todo;
    }
  }

  /** A project is registered afterwards if it was before or a running record of it is known. */
  lemma {:induction false} RegisteredAfter(st: State, known: set<Project>, p: Project)
    requires Between(st)
    ensures var f := RecoverAll(st, known);
            && (p in f.running <==> p in st.running || StartsIn(st.boot.todo, known, p))
            && (p in f.running && StartsIn(st.boot.todo, known, p) ==> RecordsRun(st.boot.todo, f.running[p], p))
            && (p in st.running && !StartsIn(st.boot.todo, known, p) ==> f.running[p] == st.running[p])
    decreases |st.boot.todo|
  {
    if st.boot.todo == [] {
      RecoverNone(st, known);
    } else {
      var t, rest := st.boot.todo[0], st.boot.todo[1..];
      var f := RecoverAll(st, known);
      RecoverFirst(st, known);
      FirstBetween(st, known);
      StartsHead(t, rest, known, p);
      RegisteredAfter(HandleFirst(st, known), known, p);
      if StartsIn(rest, known, p) {
        var s :| s in rest && s.running && s.id == f.running[p] && s.project == p;
        assert s in st.boot.todo;
      } else if StartsIn(st.boot.todo, known, p) {
        assert t in st.boot.todo && f.running[p] == t.id;
      }
    }
  }

  /** A running record is registered afterwards, or its project is unknown and it has been skipped. */
  lemma {:induction false} RecordAfter(st: State, known: set<Project>, t: PersistedTask)
    requires Between(st) && SingleRunning(st.boot.todo, known) && t in st.boot.todo && t.running
    ensures var f := RecoverAll(st, known);
            if t.project in known then t.project in f.running && f.running[t.project] == t.id else t.id in f.skipped
    decreases |st.boot.todo|
  {
    var first, rest := st.boot.todo[0], st.boot.todo[1..];
    var st' := HandleFirst(st, known);
    RecoverFirst(st, known);
    FirstBetween(st, known);
    SingleHead(first, rest, known);
    if t == first {
      ListsAfter(st', known);
      RegisteredAfter(st', known, t.project);
    } else {
      assert t in rest;
      RecordAfter(st', known, t);
    }
  }

  // ---------- a whole restart, from any state ----------

  /** Where a crash leaves the agent once the file is read. */
  function Reloaded(st: State): State { Apply(Apply(st, Step.Crash), Load) }

  /**
   A restart runs two tasks of one project at once if and only if the file holds two running records of
   one project it knows; otherwise it ends with exactly what runs registered and what is registered running.
   */
  lemma RestartDoublesExactly(st: State, known: set<Project>)
    ensures OnePerProject(DoCoarse(st, Restart(known))) <==> SingleRunning(FileList(st), known)
    ensures Exclusive(DoCoarse(st, Restart(known))) <==> SingleRunning(FileList(st), known)
  {
    var s := Reloaded(st);
    if st.file.Some? {
      WorkersAfter(s, known);
      if SingleRunning(FileList(st), known) { ExclusiveAfter(s, known); }
    } else {
      assert DoCoarse(st, Restart(known)) == s;
    }
  }

  /** The queues and the registry a restart rebuilds from the file. */
  lemma RestartRebuilds(st: State, known: set<Project>, p: Project)
    ensures var f := DoCoarse(st, Restart(known));
            && QueueOf(f.queues, p) == (if p in known then QueuedIn(FileList(st), p) else [])
            && (p in f.running <==> StartsIn(FileList(st), known, p))
            && (p in f.running ==> RecordsRun(FileList(st), f.running[p], p))
            && f.memory == FileList(st) && f.file == st.file
  {
    var s := Reloaded(st);
    if st.file.Some? {
      QueuesAfter(s, known, p);
      RegisteredAfter(s, known, p);
      ListsAfter(s, known);
    } else {
      assert DoCoarse(st, Restart(known)) == s;
    }
  }

  /**
   A restart leaves work waiting without a worker if and only if some known project has queued records
   in the file and no running one.
   */
  lemma RestartStrandsExactly(st: State, known: set<Project>)
    ensures NoneStranded(DoCoarse(st, Restart(known))) <==> StrandsNothing(FileList(st), known)
  {
    var f := DoCoarse(st, Restart(known));
    forall p
      ensures QueueOf(f.queues, p) == (if p in known then QueuedIn(FileList(st), p) else [])
      ensures p in f.running <==> StartsIn(FileList(st), known, p)
    {
      RestartRebuilds(st, known, p);
    }
    if NoneStranded(f) {
      forall p | p in known && QueuedIn(FileList(st), p) != [] ensures StartsIn(FileList(st), known, p) {
        assert QueueOf(f.queues, p) != [];
      }
    }
    if StrandsNothing(FileList(st), known) {
      forall p | p in f.queues && f.queues[p] != [] ensures p in f.running { assert QueueOf(f.queues, p) != []; }
    }
  }

  predicate StrandsNothing(m: seq<PersistedTask>, known: set<Project>) {
    forall p :: p in known && QueuedIn(m, p) != [] ==> StartsIn(m, known, p)
  }

  lemma RestartRecorded(st: State, known: set<Project>)
    requires SingleRunning(FileList(st), known)
    ensures var f := DoCoarse(st, Restart(known)); RunningRecorded(f.running, f.skipped, f.memory) && Mirrored(f)
  {
    var f := DoCoarse(st, Restart(known));
    RestartRebuilds(st, known, "");
    forall p | p in f.running ensures RecordsRun(f.memory, f.running[p], p) { RestartRebuilds(st, known, p); }
    forall t | t in f.memory && t.running
      ensures (t.project in f.running && f.running[t.project] == t.id) || t.id in f.skipped
    {
      RecordAfter(Reloaded(st), known, t);
    }
  }

  // ---------- mutual exclusion over whole runs ----------

  /** No restart of the run knows a project with two running records on disk. */
  predicate RestartsSingly(run: seq<Coarse>)
    requires CoarseRuns(run)
  {
    run == [] ||
    (RestartsSingly(run[..|run| - 1]) &&
     (run[|run| - 1].Restart? ==> SingleRunning(FileList(Ends(run[..|run| - 1])), run[|run| - 1].known)))
  }

  /** After each step of the run each project has at most one worker. */
  predicate ExclusiveThroughout(run: seq<Coarse>)
    requires CoarseRuns(run)
  {
    OnePerProject(Ends(run)) && (run == [] || ExclusiveThroughout(run[..|run| - 1]))
  }

  ghost predicate ExclusionInv(st: State) {
    Exclusive(st) && Mirrored(st) && RunningRecorded(st.running, st.skipped, st.memory)
  }

  /** What every coarse-reachable state has from the small steps. */
  lemma FromSmallSteps(run: seq<Coarse>)
    requires CoarseRuns(run)
    ensures var st := Ends(run);
            && OnePlace(st) && Distinct(st.memory) && Quiet(st)
            && forall p :: Subseq(QueueOf(st.queues, p), QueuedIn(st.memory, p))
  {
    var st := Ends(run);
    CoarseReaches(run);
    ReachableWaiting(st);
    forall p ensures Subseq(QueueOf(st.queues, p), QueuedIn(st.memory, p)) { QueueFollowsRecords(st, p, {}); }
  }

  lemma ExclusionStep(st: State, c: Coarse)
    requires MayDo(st, c) && ExclusionInv(st) && OnePlace(st) && Distinct(st.memory)
    requires forall p :: Subseq(QueueOf(st.queues, p), QueuedIn(st.memory, p))
    requires c.Restart? ==> SingleRunning(FileList(st), c.known)
    ensures ExclusionInv(DoCoarse(st, c))
  {
    match c
    case Trigger(id, p, r, now, w) =>
      TriggerExclusive(st, id, p, r, now, w);
      TriggerRecorded(st, id, p, r, now, w);
    case Finish(w, now) =>
      FinishExclusive(st, w, now);
      FinishIs(st, w, now);
      FinishRecorded(st, w, now);
    case Timeout(now) => SameExclusive(st, DoCoarse(st, c));
    case Restart(known) =>
      RestartDoublesExactly(st, known);
      RestartRecorded(st, known);
  }

  /**
   Through any triggers, finishes, expiries, crashes and restarts: unless a restart knows a project with
   two running records, each project executes at most one task, exactly the registered one, and the disk
   says which; the only other running records are those recovery skipped.
   */
  lemma {:induction false} MutualExclusion(run: seq<Coarse>)
    requires CoarseRuns(run) && RestartsSingly(run)
    ensures Exclusive(Ends(run)) && FileList(Ends(run)) == Ends(run).memory
    ensures RunningRecorded(Ends(run).running, Ends(run).skipped, FileList(Ends(run)))
  {
    if run == [] {
      assert forall p :: p in BOOTED.running ==> Executes(BOOTED, p);
    } else {
      MutualExclusion(run[..|run| - 1]);
      FromSmallSteps(run[..|run| - 1]);
      ExclusionStep(Ends(run[..|run| - 1]), run[|run| - 1]);
    }
  }

  /** And only then: a run keeps to one task a project throughout if and only if its restarts meet that condition. */
  lemma {:induction false} ExclusionExactly(run: seq<Coarse>)
    requires CoarseRuns(run)
    ensures ExclusiveThroughout(run) <==> RestartsSingly(run)
  {
    if RestartsSingly(run) { MutualExclusion(run); }
    if run != [] {
      var before := run[..|run| - 1];
      ExclusionExactly(before);
      if run[|run| - 1].Restart? { RestartDoublesExactly(Ends(before), run[|run| - 1].known); }
    }
  }

  // ---------- waiting work over whole runs ----------

  /** No restart of the run strands work. */
  predicate RestartsStrandNothing(run: seq<Coarse>)
    requires CoarseRuns(run)
  {
    run == [] ||
    (RestartsStrandNothing(run[..|run| - 1]) &&
     (run[|run| - 1].Restart? ==> StrandsNothing(FileList(Ends(run[..|run| - 1])), run[|run| - 1].known)))
  }

  predicate NoneStrandedThroughout(run: seq<Coarse>)
    requires CoarseRuns(run)
  {
    NoneStranded(Ends(run)) && (run == [] || NoneStrandedThroughout(run[..|run| - 1]))
  }

  lemma StrandedStep(st: State, c: Coarse)
    requires MayDo(st, c) && !c.Restart? && NoneStranded(st)
    ensures NoneStranded(DoCoarse(st, c))
  {
    match c
    case Trigger(id, p, r, now, w) => TriggerNotStranded(st, id, p, r, now, w);
    case Finish(w, now) => FinishNotStranded(st, w, now);
    case Timeout(now) => TimeoutNotStranded(st, now);
  }

  /**
   Expiry or not, waiting work has a registered task before it throughout a run if and only if no
   restart finds a known project with queued records and no running one.
   */
  lemma {:induction false} NoStrandedWork(run: seq<Coarse>)
    requires CoarseRuns(run)
    ensures NoneStrandedThroughout(run) <==> RestartsStrandNothing(run)
  {
    if run != [] {
      var before := run[..|run| - 1];
      var c := run[|run| - 1];
      NoStrandedWork(before);
      if c.Restart? {
        RestartStrandsExactly(Ends(before), c.known);
      } else if NoneStranded(Ends(before)) {
        StrandedStep(Ends(before), c);
      }
    }
  }

  // ---------- restarts that know every recorded project ----------

  predicate AllKnown(m: seq<PersistedTask>, known: set<Project>) {
    forall t :: t in m ==> t.project in known
  }

  predicate ProjectsKnown(run: seq<Coarse>)
    requires CoarseRuns(run)
  {
    run == [] ||
    (ProjectsKnown(run[..|run| - 1]) &&
     (run[|run| - 1].Restart? ==> AllKnown(FileList(Ends(run[..|run| - 1])), run[|run| - 1].known)))
  }

  predicate NoTimeout(run: seq<Coarse>) { forall i :: 0 <= i < |run| ==> !run[i].Timeout? }

  /** With nothing skipped, different ids and the registry recorded, no project has two running records. */
  lemma RecordedSingly(running: Registry, m: seq<PersistedTask>, known: set<Project>)
    requires RunningRecorded(running, {}, m) && Distinct(m)
    ensures SingleRunning(m, known)
  {
    forall i, j | 0 <= i < j < |m| && m[i].running && m[j].running ensures m[i].project != m[j].project {
      assert m[i] in m && m[j] in m && m[i].id != m[j].id;
    }
  }

  lemma RestartRegistry(st: State, known: set<Project>)
    requires RunningRecorded(st.running, {}, FileList(st)) && AllKnown(FileList(st), known)
    ensures DoCoarse(st, Restart(known)).running == st.running
  {
    var f := DoCoarse(st, Restart(known));
    forall p ensures p in f.running <==> p in st.running
      ensures p in f.running ==> f.running[p] == st.running[p]
    {
      RestartRebuilds(st, known, p);
      RegisteredStarts(st.running, FileList(st), known, p);
    }
  }

  lemma RestartQueues(st: State, known: set<Project>)
    requires AllKnown(FileList(st), known)
    ensures forall p :: QueueOf(DoCoarse(st, Restart(known)).queues, p) == QueuedIn(FileList(st), p)
  {
    forall p ensures QueueOf(DoCoarse(st, Restart(known)).queues, p) == QueuedIn(FileList(st), p) {
      RestartRebuilds(st, known, p);
      if p !in known { UnknownWaitsNot(FileList(st), known, p); }
    }
  }

  /** A restart that knows every recorded project brings the registry and the waiting records back exactly. */
  lemma RestartRestores(st: State, known: set<Project>)
    requires RunningRecorded(st.running, {}, FileList(st)) && Distinct(FileList(st)) && AllKnown(FileList(st), known)
    ensures var f := DoCoarse(st, Restart(known));
            && Exclusive(f) && f.running == st.running && f.skipped == {} && f.memory == FileList(st) && f.file == st.file
            && forall p :: QueueOf(f.queues, p) == QueuedIn(FileList(st), p)
  {
    RecordedSingly(st.running, FileList(st), known);
    RestartDoublesExactly(st, known);
    RestartRebuilds(st, known, "");
    RestartQueues(st, known);
    RestartRegistry(st, known);
    if st.file.Some? { ListsAfter(Reloaded(st), known); }
  }

  lemma {:induction false} UnknownWaitsNot(m: seq<PersistedTask>, known: set<Project>, p: Project)
    requires AllKnown(m, known) && p !in known
    ensures QueuedIn(m, p) == []
  {
    if m != [] {
      assert m[|m| - 1] in m;
      UnknownWaitsNot(m[..|m| - 1], known, p);
    }
  }

  lemma RegisteredStarts(running: Registry, m: seq<PersistedTask>, known: set<Project>, p: Project)
    requires RunningRecorded(running, {}, m) && AllKnown(m, known)
    ensures p in running <==> StartsIn(m, known, p)
    ensures forall id :: RecordsRun(m, id, p) ==> p in running && running[p] == id
  {
    if p in running {
      var t :| t in m && t.running && t.id == running[p] && t.project == p;
    }
  }

  /** Knowing every recorded project meets the condition on each restart, and nothing is ever skipped. */
  lemma {:induction false} KnownRestartsSingly(run: seq<Coarse>)
    requires CoarseRuns(run) && ProjectsKnown(run)
    ensures RestartsSingly(run) && Ends(run).skipped == {}
  {
    if run != [] {
      var before := run[..|run| - 1];
      KnownRestartsSingly(before);
      MutualExclusion(before);
      FromSmallSteps(before);
      var st, c := Ends(before), run[|run| - 1];
      match c
      case Trigger(id, p, r, now, w) =>
      case Finish(w, now) => FinishIs(st, w, now);
      case Timeout(now) =>
      case Restart(known) =>
        RecordedSingly(st.running, st.memory, known);
        RestartRestores(st, known);
    }
  }

  ghost predicate QueuesInv(st: State) { NoneStranded(st) && QueueRecorded(st.queues, st.memory) }

  lemma QueuesStep(st: State, c: Coarse)
    requires MayDo(st, c) && !c.Timeout? && QueuesInv(st) && ExclusionInv(st) && st.skipped == {}
    requires OnePlace(st) && Distinct(st.memory)
    requires c.Restart? ==> AllKnown(FileList(st), c.known)
    ensures QueuesInv(DoCoarse(st, c))
  {
    match c
    case Trigger(id, p, r, now, w) =>
      TriggerQueueRecorded(st, id, p, r, now, w);
      TriggerNotStranded(st, id, p, r, now, w);
    case Finish(w, now) =>
      FinishNotStranded(st, w, now);
      forall o ensures QueuedIn(DoCoarse(st, c).memory, o) == QueueOf(DoCoarse(st, c).queues, o) {
        FinishQueueRecorded(st, w, now, o);
      }
    case Restart(known) =>
      RestartRestores(st, known);
      var f := DoCoarse(st, c);
      forall p | p in f.queues && f.queues[p] != [] ensures p in f.running {
        assert QueueOf(f.queues, p) == QueuedIn(st.memory, p) == QueueOf(st.queues, p);
      }
  }

  /** Without expiry that holds across restarts, and each queue is exactly its project's queued records. */
  lemma {:induction false} NoStrandedAcrossRestarts(run: seq<Coarse>)
    requires CoarseRuns(run) && ProjectsKnown(run) && NoTimeout(run)
    ensures NoneStranded(Ends(run))
    ensures forall p :: QueuedIn(FileList(Ends(run)), p) == QueueOf(Ends(run).queues, p)
  {
    KnownRestartsSingly(run);
    MutualExclusion(run);
    if run == [] {
      forall p ensures QueuedIn([], p) == QueueOf(map[], p) {}
    } else {
      var before := run[..|run| - 1];
      assert NoTimeout(before);
      NoStrandedAcrossRestarts(before);
      KnownRestartsSingly(before);
      MutualExclusion(before);
      FromSmallSteps(before);
      QueuesStep(Ends(before), run[|run| - 1]);
    }
  }
}
