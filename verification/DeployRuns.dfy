/** Runs of the deployment system with the states they pass through, and what can follow a state. */
module DeployRuns {
  import opened DeploySystem
  import Q = QueueRestarts

  /** From `st` the steps of `run` lead through these states. */
  ghost predicate PassesFrom(st: State, run: seq<Step>, states: seq<State>) {
    && |states| == |run| + 1 && states[0] == st
    && forall i {:trigger run[i]} :: 0 <= i < |run| ==> Enabled(states[i], run[i]) && Apply(states[i], run[i]) == states[i + 1]
  }

  ghost predicate Passes(run: seq<Step>, states: seq<State>) { PassesFrom(START, run, states) }

  /** The second state can follow the first. */
  ghost predicate LeadsTo(st: State, st': State) {
    exists run, states :: PassesFrom(st, run, states) && states[|run|] == st'
  }

  ghost predicate Reachable(st: State) { LeadsTo(START, st) }

  lemma LeadsSelf(st: State)
    ensures LeadsTo(st, st)
  {
    assert PassesFrom(st, [], [st]);
  }

  lemma LeadsStep(origin: State, st: State, step: Step)
    requires LeadsTo(origin, st) && Enabled(st, step)
    ensures LeadsTo(origin, Apply(st, step))
  {
    var run, states :| PassesFrom(origin, run, states) && states[|run|] == st;
    assert PassesFrom(origin, run + [step], states + [Apply(st, step)]);
  }

  lemma StepOf(run: seq<Step>, states: seq<State>, i: nat)
    requires Passes(run, states) && i < |run|
    ensures Enabled(states[i], run[i]) && Apply(states[i], run[i]) == states[i + 1]
  {
  }

  /** Who holds the lock, and who there is before the agent is ready. */
  predicate BasicInv(st: State) { HolderInv(st) && DownInv(st) && BootInv(st) }

  lemma BasicStep(st: State, step: Step, st': State)
    requires Enabled(st, step) && st' == Apply(st, step) && BasicInv(st)
    ensures BasicInv(st')
  {
    HolderStep(st, step);
    DownStep(st, step);
    BootStep(st, step);
  }

  lemma BasicNext(run: seq<Step>, states: seq<State>, i: nat)
    requires Passes(run, states) && i < |run| && BasicInv(states[i])
    ensures BasicInv(states[i + 1])
  {
    StepOf(run, states, i);
    BasicStep(states[i], run[i], states[i + 1]);
  }

  lemma {:induction false} BasicKept(run: seq<Step>, states: seq<State>, n: nat)
    requires Passes(run, states) && n <= |run|
    ensures BasicInv(states[n])
  {
    if n > 0 {
      BasicKept(run, states, n - 1);
      BasicNext(run, states, n - 1);
    }
  }

  lemma ReachableBasic(st: State)
    requires Reachable(st)
    ensures BasicInv(st)
  {
    var run, states :| PassesFrom(START, run, states) && states[|run|] == st;
    BasicKept(run, states, |run|);
  }

  // ---------- runs that queue and save in one go are runs ----------

  lemma MediumLeads(st: State, m: Q.Medium)
    requires Reachable(st) && Q.MayStep(st, m)
    ensures Reachable(Q.DoMedium(st, m))
  {
    match m
    case Fine(step) => LeadsStep(START, st, step);
    case EnqueuePersisted(id, w, now) =>
      LeadsStep(START, st, OfTrigger(id, w, now));
      var pushed := Apply(st, OfTrigger(id, w, now));
      LeadsStep(START, pushed, OfTrigger(id, w, now));
      var added := Apply(pushed, OfTrigger(id, w, now));
      LeadsStep(START, added, WriteWhole);
      LeadsStep(START, Apply(added, WriteWhole), Rename);
  }

  lemma {:induction false} MediumPasses(run: seq<Q.Medium>, states: seq<State>, n: nat)
    requires Q.Passes(run, states) && n <= |run|
    ensures Reachable(states[n])
  {
    if n == 0 {
      LeadsSelf(START);
    } else {
      MediumPasses(run, states, n - 1);
      Q.StepOf(run, states, n - 1);
      MediumLeads(states[n - 1], run[n - 1]);
    }
  }

  /** What is reachable with queueing and saving in one step is reachable. */
  lemma MediumReachable(st: State)
    requires Q.Reachable(st)
    ensures Reachable(st)
  {
    var run, states :| Q.PassesFrom(START, run, states) && states[|run|] == st;
    MediumPasses(run, states, |run|);
  }
}
