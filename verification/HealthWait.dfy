/** Waiting for a container to become healthy, with polling that slows down. */
module HealthWaits {
  import opened Common
  import PortMappings

  const INITIAL_MS := 100.0
  const MAX_MS := 2000.0
  const BACKOFF_FACTOR := 1.5
  const CANARY_MAX_WAIT_SECONDS := 60

  /** What `docker inspect` comes back with: its output, a complaint, or nothing at all. */
  datatype Inspection = Output(text: string) | Complaint(text: string) | NotRun

  datatype Outcome = Healthy | Died | Unhealthy | Gone | InspectFailed | TimedOut

  function Min(a: real, b: real): real { if a <= b then a else b }

  /** The interval in milliseconds before the `n`-th sleep. */
  function Interval(n: nat): real {
    if n == 0 then INITIAL_MS else Min(Interval(n - 1) * BACKOFF_FACTOR, MAX_MS)
  }

  /** A sleep lasts the whole milliseconds of the interval. */
  function Sleep(n: nat): int { Interval(n).Floor }

  predicate Contains(s: string, part: string) {
    |part| <= |s| && (s[..|part|] == part || (s != [] && Contains(s[1..], part)))
  }

  /** Status, health and exit code are separated by bars; missing health counts as none. */
  function Field(text: string, i: nat, missing: string): string {
    var parts := PortMappings.Split(PortMappings.Trim(text), '|');
    if i < |parts| then parts[i] else missing
  }

  /** What one inspection decides, if it decides anything. */
  function Verdict(look: Inspection, elapsedMs: real): Option<Outcome> {
    match look
    case NotRun => Some(InspectFailed)
    case Complaint(text) => if Contains(text, "No such object") then Some(Gone) else None
    case Output(text) =>
      var status, health := Field(text, 0, "unknown"), Field(text, 1, "none");
      if status == "exited" || status == "dead" then Some(Died)
      else if health == "healthy" then Some(Healthy)
      else if health == "unhealthy" then Some(Unhealthy)
      else if (health == "none" || health == "") && status == "running" && elapsedMs >= 3000.0 then Some(Healthy)
      else None
  }

  /** The clock at the top of the `n`-th turn and right after its inspection, and what that showed. */
  datatype World = World(top: nat -> real, after: nat -> real, look: nat -> Inspection)

  /** Time does not run backwards and no sleep is cut short. */
  ghost predicate Fair(w: World) {
    w.top(0) >= 0.0 && forall n: nat :: w.top(n) <= w.after(n) && w.after(n) + Sleep(n) as real <= w.top(n + 1)
  }

  function SleepTotal(n: nat): int {
    if n == 0 then 0 else SleepTotal(n - 1) + Sleep(n - 1)
  }

  // ---------- the intervals ----------

  /** Never shorter than before, between the two constants, and at the cap from the ninth on. */
  lemma {:induction false} IntervalBounds(n: nat)
    ensures INITIAL_MS <= Interval(n) <= MAX_MS
    ensures n > 0 ==> Interval(n - 1) <= Interval(n)
    ensures Interval(n) == MAX_MS <==> n >= 8
  {
    if n > 8 {
      IntervalBounds(n - 1);
    } else {
      EarlyIntervals();
    }
  }

  lemma EarlyIntervals()
    ensures Interval(0) == 100.0 && Interval(1) == 150.0 && Interval(2) == 225.0 && Interval(3) == 337.5
    ensures Interval(4) == 506.25 && Interval(5) == 759.375 && Interval(6) == 1139.0625 && Interval(7) == 1708.59375
    ensures Interval(8) == 2000.0
  {
    assert Interval(2) == 225.0;
    assert Interval(4) == 506.25;
    assert Interval(6) == 1139.0625;
  }

  lemma {:induction false} IntervalsRise(m: nat, n: nat)
    requires m <= n
    ensures Interval(m) <= Interval(n)
  {
    if m < n {
      IntervalsRise(m, n - 1);
      IntervalBounds(n);
    }
  }

  lemma FirstEight()
    ensures SleepTotal(8) == 4924
  {
    EarlyIntervals();
    assert SleepTotal(2) == 250;
    assert SleepTotal(4) == 812;
    assert SleepTotal(6) == 2077;
  }

  /** Eight growing sleeps and then two seconds each. */
  lemma {:induction false} SleepTotalIs(n: nat)
    ensures n >= 8 ==> SleepTotal(n) == 4924 + 2000 * (n - 8)
  {
    if n == 8 {
      FirstEight();
    } else if n > 8 {
      SleepTotalIs(n - 1);
      IntervalBounds(n - 1);
    }
  }

  lemma {:induction false} SleepTotalRises(m: nat, n: nat)
    requires m <= n
    ensures SleepTotal(n) >= SleepTotal(m) + 100 * (n - m)
  {
    if m < n {
      SleepTotalRises(m, n - 1);
      IntervalBounds(n - 1);
    }
  }

  /** Time passed by the top of a turn is at least the sleeps before it. */
  lemma {:induction false} SleptBefore(w: World, n: nat)
    requires Fair(w)
    ensures w.top(n) >= SleepTotal(n) as real
  {
    if n > 0 {
      SleptBefore(w, n - 1);
      assert w.after(n - 1) + Sleep(n - 1) as real <= w.top(n - 1 + 1);
    }
  }

  // ---------- the loop ----------

  /** The most inspections a wait of so many seconds can make. */
  function MostChecks(maxWaitSecs: nat): nat {
    if 1000 * maxWaitSecs < 4924 then 8 else 9 + (1000 * maxWaitSecs - 4924) / 2000
  }

  /** No inspection before the `n`-th decided anything, and each came in time. */
  ghost predicate Undecided(w: World, n: nat, maxMs: real) {
    forall k: nat :: k < n ==> Verdict(w.look(k), w.after(k)) == None && w.top(k) <= maxMs
  }

  /** The turn `n` ends the wait with this outcome. */
  predicate Ends(w: World, n: nat, maxMs: real, r: Outcome) {
    if w.top(n) > maxMs then r == TimedOut else Verdict(w.look(n), w.after(n)) == Some(r)
  }

  /** What a wait promises about its outcome and the number of its inspections. */
  ghost predicate Waited(w: World, maxWaitSecs: nat, r: Outcome, checks: nat) {
    var maxMs := (1000 * maxWaitSecs) as real;
    if r == TimedOut then Undecided(w, checks, maxMs) && Ends(w, checks, maxMs, r)
    else checks > 0 && Undecided(w, checks - 1, maxMs) && Ends(w, checks - 1, maxMs, r)
  }

  lemma InTimeBound(w: World, n: nat, maxWaitSecs: nat)
    requires Fair(w) && w.top(n) <= (1000 * maxWaitSecs) as real
    ensures n < MostChecks(maxWaitSecs)
  {
    SleptBefore(w, n);
    SleepTotalIs(n);
    if n < 8 {
      SleepTotalRises(0, n);
    } else {
      assert 4924 + 2000 * (n - 8) <= 1000 * maxWaitSecs;
    }
  }

  /**
   Polls until an inspection decides or the time is over. The number of inspections is bounded by the
   time allowed; `checks` counts them, and `slept` holds the sleeps asked for between them.
   */
  method WaitForContainerHealthy(w: World, maxWaitSecs: nat) returns (r: Outcome, checks: nat, slept: seq<int>)
    requires Fair(w)
    ensures Waited(w, maxWaitSecs, r, checks)
    ensures checks <= MostChecks(maxWaitSecs)
    ensures |slept| == (if r == TimedOut then checks else checks - 1) && forall k :: 0 <= k < |slept| ==> slept[k] == Sleep(k)
  {
    var maxMs := (1000 * maxWaitSecs) as real;
    var interval := INITIAL_MS;
    var n := 0;
    checks, slept := 0, [];
    while true
      invariant checks == n && interval == Interval(n)
      invariant |slept| == n && forall k :: 0 <= k < n ==> slept[k] == Sleep(k)
      invariant Undecided(w, n, maxMs)
      invariant n <= MostChecks(maxWaitSecs)
      decreases MostChecks(maxWaitSecs) - n
    {
      if w.top(n) > maxMs { return TimedOut, checks, slept; }
      InTimeBound(w, n, maxWaitSecs);
      checks := checks + 1;
      var v := Verdict(w.look(n), w.after(n));
      if v.Some? { return v.value, checks, slept; }
      slept := slept + [interval.Floor];
      interval := Min(interval * BACKOFF_FACTOR, MAX_MS);
      n := n + 1;
    }
  }

  /** From five seconds on the bound is exact: that many inspections fit if no sleep overruns, one more does not. */
  lemma BoundIsTight(maxWaitSecs: nat)
    requires 1000 * maxWaitSecs >= 4924
    ensures SleepTotal(MostChecks(maxWaitSecs) - 1) <= 1000 * maxWaitSecs < SleepTotal(MostChecks(maxWaitSecs))
  {
    SleepTotalIs(MostChecks(maxWaitSecs) - 1);
    SleepTotalIs(MostChecks(maxWaitSecs));
  }

  /** No inspection of a canary comes after the 36th. */
  lemma CanaryChecks(w: World, n: nat)
    requires Fair(w) && w.top(n) <= (1000 * CANARY_MAX_WAIT_SECONDS) as real
    ensures n < 36
  {
    InTimeBound(w, n, CANARY_MAX_WAIT_SECONDS);
  }

  lemma NotEarlier(w: World, m: nat, n: nat, maxMs: real, r: Outcome)
    requires Undecided(w, n, maxMs) && Ends(w, m, maxMs, r)
    ensures m >= n
  {
  }

  /** A wait has one outcome and one number of inspections. */
  lemma WaitIsDetermined(w: World, m: nat, n: nat, maxMs: real, r: Outcome, s: Outcome)
    requires Undecided(w, m, maxMs) && Ends(w, m, maxMs, r)
    requires Undecided(w, n, maxMs) && Ends(w, n, maxMs, s)
    ensures m == n && r == s
  {
    NotEarlier(w, m, n, maxMs, r);
    NotEarlier(w, n, m, maxMs, s);
  }

  // ---------- what an inspection decides ----------

  /** The wait ends with its `k`-th inspection, and with this outcome. */
  predicate EndsWith(k: nat, r: Outcome, checks: nat, outcome: Outcome) { checks == k + 1 && r == outcome }

  /** Status and health come first and second; a code may follow. */
  ghost predicate Shows(look: Inspection, status: string, health: string) {
    && look.Output? && '|' !in status && '|' !in health
    && exists before, code, after :: Printed(look.text, before, status + "|" + health + code, after) && (code == [] || code[0] == '|')
  }

  /** The text with the whitespace around it. */
  predicate Printed(text: string, before: string, core: string, after: string) {
    text == before + core + after && PortMappings.AllWhite(before) && PortMappings.AllWhite(after) && PortMappings.Trimmed(core)
  }

  lemma FieldsAre(look: Inspection, status: string, health: string)
    requires Shows(look, status, health)
    ensures Field(look.text, 0, "unknown") == status && Field(look.text, 1, "none") == health
  {
    var before, code, after :|
      Printed(look.text, before, status + "|" + health + code, after) && (code == [] || code[0] == '|');
    PortMappings.TrimBoth(before, status + "|" + health + code, after);
    PortMappings.SplitPlain(status, '|');
    PortMappings.SplitPlain(health, '|');
    assert status + "|" + health + code == status + "|" + (health + code);
    PortMappings.SplitSum(status, health + code, '|');
    if code == [] {
      assert health + code == health;
    } else {
      assert health + code == health + "|" + code[1..];
      PortMappings.SplitSum(health, code[1..], '|');
    }
  }

  lemma BareFields(text: string, before: string, status: string, after: string)
    requires Printed(text, before, status, after) && '|' !in status
    ensures Field(text, 0, "unknown") == status && Field(text, 1, "none") == "none"
  {
    PortMappings.TrimBoth(before, status, after);
    PortMappings.SplitPlain(status, '|');
  }

  lemma Decides(w: World, maxWaitSecs: nat, r: Outcome, checks: nat, k: nat)
    requires Waited(w, maxWaitSecs, r, checks) && k < checks
    ensures Verdict(w.look(k), w.after(k)).None? ==> !(checks == k + 1 && r != TimedOut)
    ensures Verdict(w.look(k), w.after(k)).Some? ==> EndsWith(k, r, checks, Verdict(w.look(k), w.after(k)).value)
  {
  }

  predicate NoHealthCheck(health: string) { health == "none" || health == "" }

  /**
   What an inspection that shows these texts decides: a dead container ends the wait whatever its health,
   else the health decides, and without a health check running for three seconds is enough.
   */
  lemma LookDecides(w: World, maxWaitSecs: nat, r: Outcome, checks: nat, k: nat, status: string, health: string)
    requires Waited(w, maxWaitSecs, r, checks) && k < checks && Shows(w.look(k), status, health)
    ensures var dead := status == "exited" || status == "dead";
            && (EndsWith(k, r, checks, Died) <==> dead)
            && (EndsWith(k, r, checks, Healthy) <==>
                  !dead && (health == "healthy" || (NoHealthCheck(health) && status == "running" && w.after(k) >= 3000.0)))
            && (EndsWith(k, r, checks, Unhealthy) <==> !dead && health == "unhealthy")
            && (checks == k + 1 ==> r == Died || r == Healthy || r == Unhealthy || r == TimedOut)
  {
    FieldsAre(w.look(k), status, health);
    Decides(w, maxWaitSecs, r, checks, k);
  }

  /** Without any bar there is a status only, and no health check. */
  lemma BareLookDecides(w: World, maxWaitSecs: nat, r: Outcome, checks: nat, k: nat, before: string, status: string, after: string)
    requires Waited(w, maxWaitSecs, r, checks) && k < checks
    requires w.look(k).Output? && Printed(w.look(k).text, before, status, after) && '|' !in status
    ensures EndsWith(k, r, checks, Died) <==> status == "exited" || status == "dead"
    ensures EndsWith(k, r, checks, Healthy) <==> status == "running" && w.after(k) >= 3000.0
    ensures checks == k + 1 ==> r == Died || r == Healthy || r == TimedOut
  {
    BareFields(w.look(k).text, before, status, after);
    Decides(w, maxWaitSecs, r, checks, k);
  }

  /** The part stands somewhere in the text. */
  ghost predicate Mentions(text: string, part: string) {
    exists before, after :: text == before + part + after
  }

  lemma MentionsHead(s: string, part: string)
    requires Mentions(s, part)
    ensures (|part| <= |s| && s[..|part|] == part) || (s != [] && Mentions(s[1..], part))
  {
    var before, after :| s == before + part + after;
    if before == [] {
      assert s[..|part|] == part;
    } else {
      assert s[1..] == before[1..] + part + after;
    }
  }

  lemma MentionsLater(s: string, part: string)
    requires s != [] && Mentions(s[1..], part)
    ensures Mentions(s, part)
  {
    var before, after :| s[1..] == before + part + after;
    assert s == ([s[0]] + before) + part + after;
  }

  lemma MentionsFirst(s: string, part: string)
    requires |part| <= |s| && s[..|part|] == part
    ensures Mentions(s, part)
  {
    assert s == [] + part + s[|part|..];
  }

  lemma {:induction false} ContainsIs(s: string, part: string)
    ensures Contains(s, part) <==> Mentions(s, part)
  {
    if |part| <= |s| && s[..|part|] == part {
      MentionsFirst(s, part);
    } else {
      if Mentions(s, part) { MentionsHead(s, part); }
      if s != [] {
        ContainsIs(s[1..], part);
        if Mentions(s[1..], part) { MentionsLater(s, part); }
      }
    }
  }

  /** An inspection that could not be run ends the wait; one that complains ends it only for a container that is gone. */
  lemma FailureDecides(w: World, maxWaitSecs: nat, r: Outcome, checks: nat, k: nat)
    requires Waited(w, maxWaitSecs, r, checks) && k < checks && !w.look(k).Output?
    ensures EndsWith(k, r, checks, InspectFailed) <==> w.look(k).NotRun?
    ensures EndsWith(k, r, checks, Gone) <==> w.look(k).Complaint? && Mentions(w.look(k).text, "No such object")
    ensures checks == k + 1 ==> r == InspectFailed || r == Gone || r == TimedOut
  {
    if w.look(k).Complaint? { ContainsIs(w.look(k).text, "No such object"); }
    Decides(w, maxWaitSecs, r, checks, k);
  }

  /** A wait makes no inspection exactly if its time is over at once; without a deciding one it ends by the clock. */
  lemma TimeDecides(w: World, maxWaitSecs: nat, r: Outcome, checks: nat)
    requires Waited(w, maxWaitSecs, r, checks)
    ensures r == TimedOut ==> w.top(checks) > (1000 * maxWaitSecs) as real
    ensures forall k: nat :: k < checks ==> w.top(k) <= (1000 * maxWaitSecs) as real
    ensures checks == 0 <==> w.top(0) > (1000 * maxWaitSecs) as real
  {
    var maxMs := (1000 * maxWaitSecs) as real;
    if checks > 0 && r != TimedOut { assert Ends(w, checks - 1, maxMs, r); }
    forall k: nat | k < checks ensures w.top(k) <= maxMs {
      if r == TimedOut || k < checks - 1 { assert Verdict(w.look(k), w.after(k)) == None && w.top(k) <= maxMs; }
    }
  }
}
