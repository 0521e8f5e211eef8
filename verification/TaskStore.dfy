/** Active deployment tasks and the bounded history of finished ones. */
module TaskStores {
  import opened Common

  type TaskId = string
  type Project = string
  /** Seconds on a clock that does not run backwards. */
  type Time = int

  datatype DeployStatus = Queued | Running | Success | Failed {
    predicate IsTerminal() { Success? || Failed? }
  }

  datatype DeployTask = DeployTask(id: TaskId, project: Project, status: DeployStatus,
                                   finishedAt: Option<Time>, exitCode: Option<int>)

  /** A freshly triggered task, running at once or waiting in its queue. */
  function NewTask(id: TaskId, p: Project, queued: bool): DeployTask {
    DeployTask(id, p, if queued then Queued else Running, None, None)
  }

  function Ended(t: DeployTask, status: DeployStatus, code: Option<int>, now: Time): DeployTask {
    t.(status := status, exitCode := code, finishedAt := Some(now))
  }

  function Marked(t: DeployTask, status: DeployStatus, code: Option<int>, now: Time): DeployTask {
    t.(status := status, exitCode := code, finishedAt := if status.IsTerminal() then Some(now) else t.finishedAt)
  }

  predicate Young(t: DeployTask, cutoff: Time) {
    t.finishedAt.None? || t.finishedAt.value > cutoff
  }

  /** The entries newer than the cutoff, in the same order. */
  function Retained(h: seq<DeployTask>, cutoff: Time): seq<DeployTask> {
    if h == [] then []
    else (if Young(h[0], cutoff) then [h[0]] else []) + Retained(h[1..], cutoff)
  }

  /** Each entry is judged by itself, and the order stays. */
  lemma {:induction false} RetainedSum(a: seq<DeployTask>, b: seq<DeployTask>, cutoff: Time)
    ensures Retained(a + b, cutoff) == Retained(a, cutoff) + Retained(b, cutoff)
  {
    if a == [] {
      assert a + b == b;
    } else {
      assert (a + b)[1..] == a[1..] + b;
      RetainedSum(a[1..], b, cutoff);
    }
  }

  lemma {:induction false} RetainedAre(h: seq<DeployTask>, cutoff: Time)
    ensures forall t :: t in Retained(h, cutoff) <==> t in h && (t.finishedAt.None? || t.finishedAt.value > cutoff)
  {
    if h != [] {
      RetainedAre(h[1..], cutoff);
      assert h == [h[0]] + h[1..];
    }
  }

  function Trimmed(h: seq<DeployTask>, n: nat): seq<DeployTask> {
    if |h| > n then h[..n] else h
  }

  /** The newest history entry of a task id. */
  function Lookup(h: seq<DeployTask>, id: TaskId): Option<DeployTask> {
    if h == [] then None else if h[0].id == id then Some(h[0]) else Lookup(h[1..], id)
  }

  datatype Store = Store(tasks: map<TaskId, DeployTask>, history: seq<DeployTask>)

  datatype Op =
    | Create(task: DeployTask)
    | UpdateStatus(id: TaskId, status: DeployStatus, code: Option<int>, now: Time)
    | Finish(id: TaskId, status: DeployStatus, code: Option<int>, now: Time)
    | CleanupStale(now: Time)

  datatype Limits = Limits(maxHistory: nat, retention: nat)

  /** What each operation does to the store. */
  function Do(lim: Limits, s: Store, op: Op): Store {
    match op
    case Create(t) => s.(tasks := s.tasks[t.id := t])
    case UpdateStatus(id, status, code, now) =>
      if id in s.tasks then s.(tasks := s.tasks[id := Marked(s.tasks[id], status, code, now)]) else s
    case Finish(id, status, code, now) =>
      if id in s.tasks
      then Store(s.tasks - {id}, Trimmed([Ended(s.tasks[id], status, code, now)] + s.history, lim.maxHistory))
      else s
    case CleanupStale(now) =>
      Store(map id | id in s.tasks && (!s.tasks[id].status.IsTerminal() || Young(s.tasks[id], now - lim.retention)) :: s.tasks[id],
            Retained(s.history, now - lim.retention))
  }

  class TaskStore {
    var tasks: map<TaskId, DeployTask>
    var history: seq<DeployTask>
    const maxHistory: nat
    const retention: nat

    ghost function View(): Store
      reads this
    {
      Store(tasks, history)
    }

    ghost function Limit(): Limits { Limits(maxHistory, retention) }

    constructor (maxHistory: nat, retention: nat)
      ensures View() == Store(map[], [])
      ensures this.maxHistory == maxHistory && this.retention == retention
    {
      tasks, history := map[], [];
      this.maxHistory, this.retention := maxHistory, retention;
    }

    method Create(t: DeployTask)
      modifies this
      ensures View() == Do(Limit(), old(View()), Op.Create(t))
      ensures tasks == old(tasks)[t.id := t] && history == old(history)
    {
      tasks := tasks[t.id := t];
    }

    method UpdateStatus(id: TaskId, status: DeployStatus, code: Option<int>, now: Time)
      modifies this
      ensures View() == Do(Limit(), old(View()), Op.UpdateStatus(id, status, code, now))
      ensures history == old(history) && tasks.Keys == old(tasks).Keys
      ensures forall o :: o in tasks && o != id ==> tasks[o] == old(tasks)[o]
      ensures id in tasks ==>
                var t, t' := old(tasks)[id], tasks[id];
                && t'.id == t.id && t'.project == t.project && t'.status == status && t'.exitCode == code
                && t'.finishedAt == if status.Success? || status.Failed? then Some(now) else t.finishedAt
    {
      if id in tasks {
        var t := tasks[id].(status := status, exitCode := code);
        if status.IsTerminal() { t := t.(finishedAt := Some(now)); }
        tasks := tasks[id := t];
      }
    }

    method Finish(id: TaskId, status: DeployStatus, code: Option<int>, now: Time)
      modifies this
      ensures View() == Do(Limit(), old(View()), Op.Finish(id, status, code, now))
      ensures tasks == old(tasks) - {id}
      ensures id !in old(tasks) ==> history == old(history)
      ensures id in old(tasks) ==>
                && |history| == (if |old(history)| < maxHistory then |old(history)| + 1 else maxHistory)
                && forall i :: 0 < i < |history| ==> history[i] == old(history)[i - 1]
      ensures id in old(tasks) && maxHistory > 0 ==>
                var t, t' := old(tasks)[id], history[0];
                && t'.id == t.id && t'.project == t.project
                && t'.status == status && t'.exitCode == code && t'.finishedAt == Some(now)
    {
      if id in tasks {
        var t := tasks[id].(status := status, exitCode := code, finishedAt := Some(now));
        tasks := tasks - {id};
        AddToHistory(t);
      }
    }

    method AddToHistory(t: DeployTask)
      modifies this`history
      ensures history == Trimmed([t] + old(history), maxHistory)
      ensures |history| == (if |old(history)| < maxHistory then |old(history)| + 1 else maxHistory)
      ensures Prefix(history, [t] + old(history))
    {
      ghost var full := [t] + history;
      history := [t] + history;
      while |history| > maxHistory
        invariant |history| <= |full| && history == full[..|history|]
        invariant |history| == |full| || |history| >= maxHistory
      {
        history := history[..|history| - 1];
      }
    }

    method CleanupStale(now: Time)
      modifies this
      ensures View() == Do(Limit(), old(View()), Op.CleanupStale(now))
      ensures forall id :: id in tasks <==>
                id in old(tasks) && (var t := old(tasks)[id];
                  t.status.Queued? || t.status.Running? || t.finishedAt.None? || now - t.finishedAt.value < retention)
      ensures forall id :: id in tasks ==> tasks[id] == old(tasks)[id]
      ensures forall t :: t in history <==>
                t in old(history) && (t.finishedAt.None? || now - t.finishedAt.value < retention)
    {
      RetainedAre(history, now - retention);
      var cutoff := now - retention;
      tasks := map id | id in tasks && (!tasks[id].status.IsTerminal() || Young(tasks[id], cutoff)) :: tasks[id];
      history := Retained(history, cutoff);
    }

    method GetAny(id: TaskId) returns (t: Option<DeployTask>)
      ensures t == if id in tasks then Some(tasks[id]) else Lookup(history, id)
      ensures id in tasks ==> t == Some(tasks[id])
      ensures id !in tasks && t.Some? ==>
                exists i :: 0 <= i < |history| && history[i] == t.value && history[i].id == id && forall j :: 0 <= j < i ==> history[j].id != id
      ensures id !in tasks && t.None? ==> forall i :: 0 <= i < |history| ==> history[i].id != id
    {
      if id in tasks { return Some(tasks[id]); }
      var i := 0;
      while i < |history|
        invariant 0 <= i <= |history|
        invariant Lookup(history, id) == Lookup(history[i..], id)
        invariant forall j :: 0 <= j < i ==> history[j].id != id
      {
        if history[i].id == id { return Some(history[i]); }
        assert history[i..][1..] == history[i + 1..];
        i := i + 1;
      }
      return None;
    }
  }

  // ---------- history over whole runs of operations ----------

  const EMPTY := Store(map[], [])

  function Run(lim: Limits, ops: seq<Op>): Store {
    if ops == [] then EMPTY else Do(lim, Run(lim, ops[..|ops| - 1]), ops[|ops| - 1])
  }

  /** The operation finishes a task that is active. */
  predicate Finishes(s: Store, op: Op) {
    op.Finish? && op.id in s.tasks
  }

  function NewEntries(s: Store, op: Op): seq<DeployTask> {
    if Finishes(s, op) then [Ended(s.tasks[op.id], op.status, op.code, op.now)] else []
  }

  /** Every finish of the run, newest first, whatever became of it. */
  function FinishLog(lim: Limits, ops: seq<Op>): seq<DeployTask> {
    if ops == [] then []
    else NewEntries(Run(lim, ops[..|ops| - 1]), ops[|ops| - 1]) + FinishLog(lim, ops[..|ops| - 1])
  }

  predicate Timed(op: Op) { !op.Create? }

  /** Time does not run backwards along the run. */
  predicate Monotone(ops: seq<Op>) {
    forall i, j :: 0 <= i < j < |ops| && Timed(ops[i]) && Timed(ops[j]) ==> ops[i].now <= ops[j].now
  }

  /** Newest first: no entry is older than one behind it, and none is later than `now`. */
  predicate NewestFirst(h: seq<DeployTask>) {
    && (forall i :: 0 <= i < |h| ==> h[i].finishedAt.Some?)
    && (forall i, j :: 0 <= i < j < |h| ==> h[i].finishedAt.value >= h[j].finishedAt.value)
  }

  predicate NotAfter(h: seq<DeployTask>, now: Time) {
    forall i :: 0 <= i < |h| ==> h[i].finishedAt.Some? && h[i].finishedAt.value <= now
  }

  /** A retention cleanup of a list that is newest first cuts off a tail. */
  lemma {:induction false} RetainedIsPrefix(h: seq<DeployTask>, cutoff: Time)
    requires NewestFirst(h)
    ensures Prefix(Retained(h, cutoff), h)
    ensures forall i :: 0 <= i < |h| ==> (i < |Retained(h, cutoff)| <==> Young(h[i], cutoff))
  {
    if h != [] {
      RetainedIsPrefix(h[1..], cutoff);
      var r := Retained(h[1..], cutoff);
      if Young(h[0], cutoff) {
        assert [h[0]] + r == h[..|r| + 1];
        forall i | 0 <= i < |h| ensures i < |[h[0]] + r| <==> Young(h[i], cutoff) {
          if i > 0 { assert h[1..][i - 1] == h[i]; }
        }
      } else {
        assert forall i :: 0 <= i < |h| ==> !Young(h[i], cutoff);
        assert |h| > 1 ==> h[1..][0] == h[1];
        assert r == [];
      }
    }
  }

  lemma {:induction false} LogNewestFirst(lim: Limits, ops: seq<Op>)
    requires Monotone(ops)
    ensures NewestFirst(FinishLog(lim, ops))
    ensures forall now :: (forall i :: 0 <= i < |ops| && Timed(ops[i]) ==> ops[i].now <= now) ==> NotAfter(FinishLog(lim, ops), now)
  {
    if ops != [] {
      var before := ops[..|ops| - 1];
      LogNewestFirst(lim, before);
      var op := ops[|ops| - 1];
      if Timed(op) {
        assert forall i :: 0 <= i < |before| && Timed(before[i]) ==> before[i] == ops[i] && before[i].now <= op.now;
        assert NotAfter(FinishLog(lim, before), op.now);
      }
      forall now | forall i :: 0 <= i < |ops| && Timed(ops[i]) ==> ops[i].now <= now
        ensures NotAfter(FinishLog(lim, ops), now)
      {
        assert forall i :: 0 <= i < |before| && Timed(before[i]) ==> before[i] == ops[i] && before[i].now <= now;
        assert NotAfter(FinishLog(lim, before), now);
        assert ops[|ops| - 1] == op;
      }
    }
  }

  lemma NewestOnly(lim: Limits, ops: seq<Op>)
    requires Monotone(ops)
    ensures NewestFirst(FinishLog(lim, ops))
  {
    LogNewestFirst(lim, ops);
  }

  lemma MonotonePrefix(ops: seq<Op>, k: nat)
    requires Monotone(ops) && k <= |ops|
    ensures Monotone(ops[..k])
  {
  }

  lemma WindowPush(h: seq<DeployTask>, log: seq<DeployTask>, entry: DeployTask, n: nat)
    requires Prefix(h, log)
    ensures Prefix(Trimmed([entry] + h, n), [entry] + log) && |Trimmed([entry] + h, n)| <= n
  {
    assert ([entry] + log)[..|h| + 1] == [entry] + h;
    if |h| + 1 > n { assert ([entry] + h)[..n] == ([entry] + log)[..n]; }
  }

  lemma WindowCut(h: seq<DeployTask>, log: seq<DeployTask>, cutoff: Time)
    requires Prefix(h, log) && NewestFirst(log)
    ensures Prefix(Retained(h, cutoff), log) && |Retained(h, cutoff)| <= |h|
  {
    RetainedIsPrefix(h, cutoff);
    PrefixTrans(Retained(h, cutoff), h, log);
  }

  /** One operation keeps the history an initial part of the log. */
  lemma WindowStep(lim: Limits, s: Store, op: Op, log: seq<DeployTask>)
    requires Prefix(s.history, log) && NewestFirst(log) && |s.history| <= lim.maxHistory
    ensures Prefix(Do(lim, s, op).history, NewEntries(s, op) + log)
    ensures |Do(lim, s, op).history| <= lim.maxHistory
  {
    if Finishes(s, op) {
      WindowPush(s.history, log, Ended(s.tasks[op.id], op.status, op.code, op.now), lim.maxHistory);
    } else {
      assert NewEntries(s, op) + log == log;
      if op.CleanupStale? { WindowCut(s.history, log, op.now - lim.retention); }
    }
  }

  /** History is always the newest part of the finish log, and never longer than the limit. */
  lemma {:induction false} HistoryIsWindow(lim: Limits, ops: seq<Op>)
    requires Monotone(ops)
    ensures Prefix(Run(lim, ops).history, FinishLog(lim, ops))
    ensures |Run(lim, ops).history| <= lim.maxHistory
  {
    if ops != [] {
      var before := ops[..|ops| - 1];
      MonotonePrefix(ops, |ops| - 1);
      HistoryIsWindow(lim, before);
      NewestOnly(lim, before);
      WindowStep(lim, Run(lim, before), ops[|ops| - 1], FinishLog(lim, before));
    }
  }

  lemma {:induction false} LogGrows(lim: Limits, ops: seq<Op>, k: nat)
    requires k <= |ops|
    ensures |FinishLog(lim, ops[..k])| <= |FinishLog(lim, ops)|
    ensures FinishLog(lim, ops)[|FinishLog(lim, ops)| - |FinishLog(lim, ops[..k])|..] == FinishLog(lim, ops[..k])
  {
    if k < |ops| {
      var before := ops[..|ops| - 1];
      LogGrows(lim, before, k);
      assert before[..k] == ops[..k];
    } else {
      assert ops[..k] == ops;
    }
  }

  /** Finishes after position `n` of the run. */
  function LaterFinishes(lim: Limits, ops: seq<Op>, n: nat): nat
    requires n < |ops|
  {
    LogGrows(lim, ops, n + 1);
    |FinishLog(lim, ops)| - |FinishLog(lim, ops[..n + 1])|
  }

  /** The operation keeps an entry of that age. */
  predicate Spares(lim: Limits, op: Op, at: Time) {
    op.CleanupStale? ==> op.now - lim.retention < at
  }

  /** Every retention cleanup after position `n` still counts its finish as young. */
  predicate Survives(lim: Limits, ops: seq<Op>, n: nat)
    requires n < |ops| && ops[n].Finish?
  {
    forall j :: n < j < |ops| ==> Spares(lim, ops[j], ops[n].now)
  }

  /** The entry written by the finish at position `n`. */
  function Entry(lim: Limits, ops: seq<Op>, n: nat): DeployTask
    requires n < |ops| && Finishes(Run(lim, ops[..n]), ops[n])
  {
    Ended(Run(lim, ops[..n]).tasks[ops[n].id], ops[n].status, ops[n].code, ops[n].now)
  }

  /** One more operation moves an entry of the history down, keeps it, or drops it. */
  lemma EntryStep(lim: Limits, s: Store, op: Op, log: seq<DeployTask>, i: nat)
    requires Prefix(s.history, log) && NewestFirst(log) && |s.history| <= lim.maxHistory && i < |log|
    ensures var i' := if Finishes(s, op) then i + 1 else i;
            i' < |Do(lim, s, op).history| <==>
            i < |s.history| && i' < lim.maxHistory &&
            Spares(lim, op, log[i].finishedAt.value)
  {
    if op.CleanupStale? {
      assert forall k :: 0 <= k < |s.history| ==> s.history[k] == log[k];
      RetainedIsPrefix(s.history, op.now - lim.retention);
    }
  }

  /** The entry stands at place `i` of the log, and is in the history exactly when near the front and young enough. */
  predicate Stands(lim: Limits, log: seq<DeployTask>, h: seq<DeployTask>, entry: DeployTask, i: nat, young: bool) {
    && i < |log| && log[i] == entry
    && (i < |h| <==> i < lim.maxHistory && young)
  }

  lemma StandsStep(lim: Limits, s: Store, op: Op, log: seq<DeployTask>, entry: DeployTask, i: nat, young: bool)
    requires Prefix(s.history, log) && NewestFirst(log) && |s.history| <= lim.maxHistory
    requires Stands(lim, log, s.history, entry, i, young)
    ensures entry.finishedAt.Some?
    ensures Stands(lim, NewEntries(s, op) + log, Do(lim, s, op).history, entry, |NewEntries(s, op)| + i, young && Spares(lim, op, entry.finishedAt.value))
  {
    EntryStep(lim, s, op, log, i);
  }

  lemma StandsNow(lim: Limits, s: Store, op: Op, log: seq<DeployTask>)
    requires Finishes(s, op)
    ensures Stands(lim, NewEntries(s, op) + log, Do(lim, s, op).history, Ended(s.tasks[op.id], op.status, op.code, op.now), 0, true)
  {
  }

  /** The finish at position `n` stands where the later finishes put it. */
  predicate StandsAt(lim: Limits, ops: seq<Op>, n: nat)
    requires n < |ops| && Finishes(Run(lim, ops[..n]), ops[n])
  {
    Stands(lim, FinishLog(lim, ops), Run(lim, ops).history, Entry(lim, ops, n), LaterFinishes(lim, ops, n),
           Survives(lim, ops, n))
  }

  lemma StandsLast(lim: Limits, ops: seq<Op>)
    requires ops != [] && Finishes(Run(lim, ops[..|ops| - 1]), ops[|ops| - 1])
    ensures StandsAt(lim, ops, |ops| - 1)
  {
    assert ops[..|ops| - 1 + 1] == ops;
    StandsNow(lim, Run(lim, ops[..|ops| - 1]), ops[|ops| - 1], FinishLog(lim, ops[..|ops| - 1]));
  }

  lemma StandsLater(lim: Limits, ops: seq<Op>, n: nat)
    requires Monotone(ops) && n < |ops| - 1 && Finishes(Run(lim, ops[..n]), ops[n])
    requires Finishes(Run(lim, ops[..|ops| - 1][..n]), ops[..|ops| - 1][n]) && StandsAt(lim, ops[..|ops| - 1], n)
    ensures StandsAt(lim, ops, n)
  {
    var before := ops[..|ops| - 1];
    SamePlace(lim, ops, n);
    EntryTime(lim, before, n);
    StandsMoves(lim, ops, Entry(lim, before, n), LaterFinishes(lim, before, n), Survives(lim, before, n));
    SurvivesStep(lim, ops, n);
  }

  lemma EntryTime(lim: Limits, ops: seq<Op>, n: nat)
    requires n < |ops| && Finishes(Run(lim, ops[..n]), ops[n])
    ensures Entry(lim, ops, n).finishedAt == Some(ops[n].now)
  {
  }

  lemma StandsMoves(lim: Limits, ops: seq<Op>, entry: DeployTask, i: nat, young: bool)
    requires ops != [] && Monotone(ops) && entry.finishedAt.Some?
    requires Stands(lim, FinishLog(lim, ops[..|ops| - 1]), Run(lim, ops[..|ops| - 1]).history, entry, i, young)
    ensures Stands(lim, FinishLog(lim, ops), Run(lim, ops).history, entry,
                   |NewEntries(Run(lim, ops[..|ops| - 1]), ops[|ops| - 1])| + i, young && Spares(lim, ops[|ops| - 1], entry.finishedAt.value))
  {
    var before := ops[..|ops| - 1];
    MonotonePrefix(ops, |ops| - 1);
    HistoryIsWindow(lim, before);
    NewestOnly(lim, before);
    StandsStep(lim, Run(lim, before), ops[|ops| - 1], FinishLog(lim, before), entry, i, young);
  }

  /** Where a finish stands in the log, and exactly when it is still in the history. */
  lemma {:induction false} FinishStands(lim: Limits, ops: seq<Op>, n: nat)
    requires Monotone(ops) && n < |ops| && Finishes(Run(lim, ops[..n]), ops[n])
    ensures StandsAt(lim, ops, n)
  {
    if n == |ops| - 1 {
      StandsLast(lim, ops);
    } else {
      MonotonePrefix(ops, |ops| - 1);
      SamePlace(lim, ops, n);
      FinishStands(lim, ops[..|ops| - 1], n);
      StandsLater(lim, ops, n);
    }
  }

  /** A finish is the same finish in a longer run, with the new entries before it. */
  lemma SamePlace(lim: Limits, ops: seq<Op>, n: nat)
    requires n < |ops| - 1 && Finishes(Run(lim, ops[..n]), ops[n])
    ensures var before := ops[..|ops| - 1];
            && before[n] == ops[n] && Finishes(Run(lim, before[..n]), before[n])
            && Entry(lim, ops, n) == Entry(lim, before, n)
            && FinishLog(lim, ops) == NewEntries(Run(lim, before), ops[|ops| - 1]) + FinishLog(lim, before)
            && Run(lim, ops) == Do(lim, Run(lim, before), ops[|ops| - 1])
            && LaterFinishes(lim, ops, n) == |NewEntries(Run(lim, before), ops[|ops| - 1])| + LaterFinishes(lim, before, n)
  {
    var before := ops[..|ops| - 1];
    assert before[..n] == ops[..n] && before[..n + 1] == ops[..n + 1];
  }

  lemma SurvivesStep(lim: Limits, ops: seq<Op>, n: nat)
    requires n < |ops| - 1 && ops[n].Finish?
    ensures Survives(lim, ops, n) <==>
            Survives(lim, ops[..|ops| - 1], n) && Spares(lim, ops[|ops| - 1], ops[n].now)
  {
    var before := ops[..|ops| - 1];
    if Survives(lim, before, n) && Spares(lim, ops[|ops| - 1], ops[n].now) {
      forall j | n < j < |ops| ensures Spares(lim, ops[j], ops[n].now) {
        if j < |ops| - 1 { assert before[j] == ops[j]; }
      }
    }
    if Survives(lim, ops, n) {
      forall j | n < j < |before| ensures Spares(lim, before[j], before[n].now) {
        assert before[j] == ops[j];
      }
    }
  }

  /** Task ids are created once. */
  predicate NoReuse(ops: seq<Op>) {
    forall i, j :: 0 <= i < j < |ops| && ops[i].Create? && ops[j].Create? ==> ops[i].task.id != ops[j].task.id
  }

  predicate CreatedIn(ops: seq<Op>, id: TaskId) {
    exists i :: 0 <= i < |ops| && ops[i].Create? && ops[i].task.id == id
  }

  predicate Logged(h: seq<DeployTask>, id: TaskId) {
    exists i :: 0 <= i < |h| && h[i].id == id
  }

  /** An active task was created and is not in the log. */
  predicate ActiveOnce(ops: seq<Op>, s: Store, log: seq<DeployTask>) {
    forall id :: id in s.tasks ==> s.tasks[id].id == id && CreatedIn(ops, id) && !Logged(log, id)
  }

  /** A logged task was created, and is logged once. */
  predicate LoggedOnce(ops: seq<Op>, log: seq<DeployTask>) {
    && (forall i :: 0 <= i < |log| ==> CreatedIn(ops, log[i].id))
    && (forall i, j :: 0 <= i < j < |log| ==> log[i].id != log[j].id)
  }

  lemma CreatedEarlier(ops: seq<Op>, id: TaskId)
    requires ops != [] && CreatedIn(ops[..|ops| - 1], id)
    ensures CreatedIn(ops, id)
    ensures NoReuse(ops) && ops[|ops| - 1].Create? ==> ops[|ops| - 1].task.id != id
  {
    var before := ops[..|ops| - 1];
    var i :| 0 <= i < |before| && before[i].Create? && before[i].task.id == id;
    assert ops[i] == before[i];
  }

  lemma IdsCreate(lim: Limits, ops: seq<Op>, s: Store, log: seq<DeployTask>)
    requires ops != [] && NoReuse(ops) && ops[|ops| - 1].Create?
    requires ActiveOnce(ops[..|ops| - 1], s, log) && LoggedOnce(ops[..|ops| - 1], log)
    ensures ActiveOnce(ops, Do(lim, s, ops[|ops| - 1]), log)
  {
    var op := ops[|ops| - 1];
    var s' := Do(lim, s, op);
    assert CreatedIn(ops, op.task.id);
    forall i | 0 <= i < |log| ensures log[i].id != op.task.id { CreatedEarlier(ops, log[i].id); }
    forall id | id in s'.tasks && id != op.task.id ensures CreatedIn(ops, id) { CreatedEarlier(ops, id); }
  }

  lemma IdsFinish(ops: seq<Op>, s: Store, op: Op, log: seq<DeployTask>)
    requires ActiveOnce(ops, s, log) && LoggedOnce(ops, log) && Finishes(s, op)
    ensures LoggedOnce(ops, NewEntries(s, op) + log)
    ensures forall id :: id in s.tasks && id != op.id ==> !Logged(NewEntries(s, op) + log, id)
  {
    var entry := Ended(s.tasks[op.id], op.status, op.code, op.now);
    var log' := [entry] + log;
    assert !Logged(log, op.id);
    forall i, j | 0 <= i < j < |log'| ensures log'[i].id != log'[j].id {
      assert log'[j] == log[j - 1];
      if i > 0 { assert log'[i] == log[i - 1]; }
    }
    forall id, i | id in s.tasks && id != op.id && 0 <= i < |log'| ensures log'[i].id != id {
      assert !Logged(log, id);
      if i > 0 { assert log'[i] == log[i - 1]; }
    }
  }

  lemma IdsLonger(ops: seq<Op>, s: Store, log: seq<DeployTask>)
    requires ops != [] && ActiveOnce(ops[..|ops| - 1], s, log) && LoggedOnce(ops[..|ops| - 1], log)
    ensures ActiveOnce(ops, s, log) && LoggedOnce(ops, log)
  {
    forall id | CreatedIn(ops[..|ops| - 1], id) ensures CreatedIn(ops, id) { CreatedEarlier(ops, id); }
  }

  /** Without reuse a task is active or logged, not both, and logged once. */
  lemma {:induction false} IdsOnce(lim: Limits, ops: seq<Op>)
    requires NoReuse(ops)
    ensures ActiveOnce(ops, Run(lim, ops), FinishLog(lim, ops)) && LoggedOnce(ops, FinishLog(lim, ops))
  {
    if ops != [] {
      var before := ops[..|ops| - 1];
      var op := ops[|ops| - 1];
      var s, log := Run(lim, before), FinishLog(lim, before);
      IdsOnce(lim, before);
      IdsLonger(ops, s, log);
      if op.Create? {
        IdsCreate(lim, ops, s, log);
        assert NewEntries(s, op) + log == log;
      } else if Finishes(s, op) {
        IdsFinish(ops, s, op, log);
      } else {
        assert NewEntries(s, op) + log == log;
      }
    }
  }

  lemma {:induction false} LookupAt(h: seq<DeployTask>, i: nat)
    requires i < |h| && forall j :: 0 <= j < i ==> h[j].id != h[i].id
    ensures Lookup(h, h[i].id) == Some(h[i])
  {
    if i > 0 {
      assert forall j :: 0 <= j < i - 1 ==> h[1..][j] == h[j + 1];
      LookupAt(h[1..], i - 1);
    }
  }

  lemma {:induction false} LookupNone(h: seq<DeployTask>, id: TaskId)
    requires !Logged(h, id)
    ensures Lookup(h, id) == None
  {
    if h != [] {
      assert h[0].id != id;
      forall i | 0 <= i < |h[1..]| ensures h[1..][i].id != id {
        assert h[1..][i] == h[i + 1];
      }
      LookupNone(h[1..], id);
    }
  }

  /** What get_any answers in a state. */
  function Any(s: Store, id: TaskId): Option<DeployTask> {
    if id in s.tasks then Some(s.tasks[id]) else Lookup(s.history, id)
  }

  /** The entry says what some Create of the run said it is. */
  predicate CreatedAs(ops: seq<Op>, t: DeployTask) {
    exists i :: 0 <= i < |ops| && ops[i].Create? && ops[i].task.id == t.id && ops[i].task.project == t.project
  }

  lemma CreatedAsEarlier(ops: seq<Op>, t: DeployTask)
    requires ops != [] && CreatedAs(ops[..|ops| - 1], t)
    ensures CreatedAs(ops, t)
  {
    var before := ops[..|ops| - 1];
    var i :| 0 <= i < |before| && before[i].Create? && before[i].task.id == t.id && before[i].task.project == t.project;
    assert ops[i] == before[i];
  }

  /** Nothing changes the id or the project of an active task. */
  lemma {:induction false} ActiveAsCreated(lim: Limits, ops: seq<Op>, id: TaskId)
    requires id in Run(lim, ops).tasks
    ensures Run(lim, ops).tasks[id].id == id && CreatedAs(ops, Run(lim, ops).tasks[id])
  {
    var last := ops[|ops| - 1];
    if last.Create? && last.task.id == id {
      assert CreatedAs(ops, last.task);
    } else {
      var before := Run(lim, ops[..|ops| - 1]);
      ActiveAsCreated(lim, ops[..|ops| - 1], id);
      CreatedAsEarlier(ops, before.tasks[id]);
      assert Run(lim, ops).tasks[id].project == before.tasks[id].project;
    }
  }

  /** The operation writes the active entry of the id, if there is one. */
  predicate Writes(op: Op, id: TaskId) {
    (op.Create? && op.task.id == id) || (op.UpdateStatus? && op.id == id)
  }

  /** An active task is found with the status and the exit code it was last given. */
  lemma {:induction false} ActiveIsCurrent(lim: Limits, ops: seq<Op>, k: nat, id: TaskId)
    requires k < |ops| && Writes(ops[k], id) && forall j :: k < j < |ops| ==> !Writes(ops[j], id)
    requires id in Run(lim, ops).tasks
    ensures Any(Run(lim, ops), id).Some?
    ensures var t := Any(Run(lim, ops), id).value;
            && (ops[k].Create? ==> t == ops[k].task)
            && (ops[k].UpdateStatus? ==> t.status == ops[k].status && t.exitCode == ops[k].code)
            && (ops[k].UpdateStatus? && (ops[k].status.Success? || ops[k].status.Failed?) ==> t.finishedAt == Some(ops[k].now))
  {
    var n := |ops| - 1;
    if k < n {
      assert ops[..n][k] == ops[k];
      forall j | k < j < n ensures !Writes(ops[..n][j], id) { assert ops[..n][j] == ops[j]; }
      ActiveIsCurrent(lim, ops[..n], k, id);
    }
  }

  /** What the operation says about the task it finishes, and the entry says the same. */
  predicate Tells(ops: seq<Op>, n: nat, t: DeployTask)
    requires n < |ops| && ops[n].Finish?
  {
    && t.id == ops[n].id && t.status == ops[n].status && t.exitCode == ops[n].code && t.finishedAt == Some(ops[n].now)
    && CreatedAs(ops[..n], t)
  }

  /**
   A finished task is found, with the status, exit code and time it was finished with and the project it was
   created for, exactly until `maxHistory` later finishes or a retention cleanup at or past its age have
   dropped it; after that it is not found at all.
   */
  lemma FinishedIsFound(lim: Limits, ops: seq<Op>, n: nat)
    requires Monotone(ops) && NoReuse(ops) && n < |ops| && Finishes(Run(lim, ops[..n]), ops[n])
    ensures var found := Any(Run(lim, ops), ops[n].id);
            if LaterFinishes(lim, ops, n) < lim.maxHistory && Survives(lim, ops, n)
            then found.Some? && Tells(ops, n, found.value) else found == None
  {
    FinishedEntryFound(lim, ops, n);
    ActiveAsCreated(lim, ops[..n], ops[n].id);
    var t := Run(lim, ops[..n]).tasks[ops[n].id];
    var i :| 0 <= i < n && ops[..n][i].Create? && ops[..n][i].task.id == t.id && ops[..n][i].task.project == t.project;
    assert Entry(lim, ops, n).project == t.project && Entry(lim, ops, n).id == t.id;
    assert Tells(ops, n, Entry(lim, ops, n));
  }

  lemma FinishedEntryFound(lim: Limits, ops: seq<Op>, n: nat)
    requires Monotone(ops) && NoReuse(ops) && n < |ops| && Finishes(Run(lim, ops[..n]), ops[n])
    ensures Any(Run(lim, ops), ops[n].id) ==
            if LaterFinishes(lim, ops, n) < lim.maxHistory && Survives(lim, ops, n)
            then Some(Entry(lim, ops, n)) else None
  {
    var i := LaterFinishes(lim, ops, n);
    var h := Run(lim, ops).history;
    var log := FinishLog(lim, ops);
    FinishStands(lim, ops, n);
    HistoryIsWindow(lim, ops);
    IdsOnce(lim, ops);
    NoReusePrefix(ops, n);
    IdsOnce(lim, ops[..n]);
    assert log[i].id == ops[n].id;
    assert Logged(log, ops[n].id);
    if i < |h| {
      assert forall j :: 0 <= j <= i ==> h[j] == log[j];
      LookupAt(h, i);
    } else {
      forall j | 0 <= j < |h| ensures h[j].id != ops[n].id {
        assert h[j] == log[j];
      }
      LookupNone(h, ops[n].id);
    }
  }

  lemma NoReusePrefix(ops: seq<Op>, n: nat)
    requires NoReuse(ops) && n <= |ops|
    ensures NoReuse(ops[..n])
  {
  }
}
