/** How old an endpoint answer can be, over any run of lookups, clears and changes around the router. */
module EndpointRuns {
  import opened Common
  import opened EndpointCaches

  /** The offer of the first source in code order that has one. */
  function Best(cfg: RouterConfig, w: World, mesh: Option<Url>, s: Service): ServiceEndpoint {
    if Offer(cfg, w, mesh, s, Local).Some? then Offer(cfg, w, mesh, s, Local).value
    else if Offer(cfg, w, mesh, s, Tunnel).Some? then Offer(cfg, w, mesh, s, Tunnel).value
    else if Offer(cfg, w, mesh, s, LanPeer).Some? then Offer(cfg, w, mesh, s, LanPeer).value
    else if Offer(cfg, w, mesh, s, Mesh).Some? then Offer(cfg, w, mesh, s, Mesh).value
    else if Offer(cfg, w, mesh, s, Config).Some? then Offer(cfg, w, mesh, s, Config).value
    else if Offer(cfg, w, mesh, s, Fallback).Some? then Offer(cfg, w, mesh, s, Fallback).value
    else NO_ENDPOINT
  }

  /** Code order is priority order. */
  lemma BestIsBest(cfg: RouterConfig, w: World, mesh: Option<Url>, s: Service)
    ensures IsBest(cfg, w, mesh, s, Best(cfg, w, mesh, s))
  {
    var e := Best(cfg, w, mesh, s);
    forall src | Offer(cfg, w, mesh, s, src).Some?
      ensures Offer(cfg, w, mesh, s, e.source) == Some(e) && e.source.Priority() <= src.Priority()
    {
      match src
      case Local =>
      case Tunnel =>
      case LanPeer =>
      case Mesh =>
      case Config =>
      case Fallback =>
    }
    if e == NO_ENDPOINT && Offer(cfg, w, mesh, s, Fallback).None? {
      assert forall src :: Offer(cfg, w, mesh, s, src).None?;
    }
  }

  datatype Step =
    | Get(service: Service, now: Time)
    | AskMesh(service: Service, now: Time)
    | ClearRouter
    | ClearMesh
    | Change(world: World)

  datatype State = State(world: World, router: RouterCache, mesh: MeshCache)

  const START := State(World([], map[], None), map[], map[])

  predicate Hit(st: State, s: Service, now: Time) {
    s in st.router && RouterFresh(st.router[s].at, now)
  }

  /** A resolution that does not look at the router's cache. */
  function Resolved(cfg: RouterConfig, st: State, s: Service, now: Time): ServiceEndpoint {
    Best(cfg, st.world, MeshSays(cfg, st.world, st.mesh, s, now), s)
  }

  function Answer(cfg: RouterConfig, st: State, s: Service, now: Time): ServiceEndpoint {
    if Hit(st, s, now) then st.router[s].value else Resolved(cfg, st, s, now)
  }

  function Apply(cfg: RouterConfig, st: State, step: Step): State {
    match step
    case Get(s, now) =>
      if Hit(st, s, now) then st
      else st.(router := st.router[s := Cached(Resolved(cfg, st, s, now), now)],
               mesh := MeshCacheAfter(cfg, st.world, st.mesh, s, now))
    case AskMesh(s, now) =>
      if st.world.registry.None? then st else st.(mesh := MeshAfter(st.mesh, st.world.registry.value, s, now))
    case ClearRouter => st.(router := map[])
    case ClearMesh => st.(mesh := map[])
    case Change(w) => st.(world := w)
  }

  /** The state before step `n` of the run. */
  function Before(cfg: RouterConfig, run: seq<Step>, n: nat): State
    requires n <= |run|
  {
    if n == 0 then START else Apply(cfg, Before(cfg, run, n - 1), run[n - 1])
  }

  predicate Timed(step: Step) { step.Get? || step.AskMesh? }

  predicate Monotone(run: seq<Step>) {
    forall i, j :: 0 <= i < j < |run| && Timed(run[i]) && Timed(run[j]) ==> run[i].now <= run[j].now
  }

  /** Step `j` asked about the service when the registry mapped it to the url. */
  predicate Gave(cfg: RouterConfig, run: seq<Step>, j: nat, s: Service, url: Url) {
    && j < |run| && Timed(run[j]) && run[j].service == s
    && Before(cfg, run, j).world.registry.Some?
    && s in Before(cfg, run, j).world.registry.value && Before(cfg, run, j).world.registry.value[s] == url
  }

  /** Step `k` looked the service up and resolved it to this endpoint. */
  predicate Looked(cfg: RouterConfig, run: seq<Step>, k: nat, s: Service, e: ServiceEndpoint) {
    && k < |run| && run[k].Get? && run[k].service == s
    && Resolved(cfg, Before(cfg, run, k), s, run[k].now) == e
  }

  /** A mesh url at this moment came from the registry less than a minute before. */
  ghost predicate MeshRecent(cfg: RouterConfig, run: seq<Step>, n: nat, s: Service, url: Url, at: Time) {
    exists j :: 0 <= j <= n && Gave(cfg, run, j, s, url) && at - run[j].now < 60_000
  }

  ghost predicate MeshInv(cfg: RouterConfig, run: seq<Step>, n: nat)
    requires n <= |run|
  {
    var c := Before(cfg, run, n).mesh;
    forall s :: s in c ==> exists j :: 0 <= j < n && Gave(cfg, run, j, s, c[s].value) && run[j].now == c[s].at
  }

  ghost predicate RouterEntry(cfg: RouterConfig, run: seq<Step>, n: nat, s: Service, e: ServiceEndpoint, at: Time) {
    exists k :: 0 <= k < n && Looked(cfg, run, k, s, e) && run[k].now == at
                && (e.source == Mesh ==> MeshRecent(cfg, run, k, s, e.url, at))
  }

  ghost predicate RouterInv(cfg: RouterConfig, run: seq<Step>, n: nat)
    requires n <= |run|
  {
    var c := Before(cfg, run, n).router;
    forall s :: s in c ==> RouterEntry(cfg, run, n, s, c[s].value, c[s].at)
  }

  /** Whatever the mesh client answers now, the registry said less than a minute ago. */
  lemma MeshAnswerRecent(cfg: RouterConfig, run: seq<Step>, n: nat, s: Service, now: Time)
    requires n < |run| && MeshInv(cfg, run, n) && Timed(run[n]) && run[n].service == s && run[n].now == now
    requires Before(cfg, run, n).world.registry.Some?
    ensures var st := Before(cfg, run, n);
            var a := MeshAnswer(st.mesh, st.world.registry.value, s, now);
            a.Some? ==> MeshRecent(cfg, run, n, s, a.value, now)
  {
    var st := Before(cfg, run, n);
    if s in st.mesh && MeshFresh(st.mesh[s].at, now) {
      var j :| 0 <= j < n && Gave(cfg, run, j, s, st.mesh[s].value) && run[j].now == st.mesh[s].at;
      assert now - run[j].now < 60_000;
    } else if s in st.world.registry.value {
      assert Gave(cfg, run, n, s, st.world.registry.value[s]);
    }
  }

  lemma MeshSourceUrl(cfg: RouterConfig, w: World, mesh: Option<Url>, s: Service)
    ensures Best(cfg, w, mesh, s).source == Mesh ==> mesh == Some(Best(cfg, w, mesh, s).url)
  {
  }

  lemma ResolvedRecent(cfg: RouterConfig, run: seq<Step>, n: nat)
    requires n < |run| && MeshInv(cfg, run, n) && run[n].Get?
    ensures var e := Resolved(cfg, Before(cfg, run, n), run[n].service, run[n].now);
            e.source == Mesh ==> MeshRecent(cfg, run, n, run[n].service, e.url, run[n].now)
  {
    var st := Before(cfg, run, n);
    var s, now := run[n].service, run[n].now;
    MeshSourceUrl(cfg, st.world, MeshSays(cfg, st.world, st.mesh, s, now), s);
    if AsksMesh(cfg, st.world, s) { MeshAnswerRecent(cfg, run, n, s, now); }
  }

  lemma MeshStep(cfg: RouterConfig, run: seq<Step>, n: nat)
    requires n < |run| && MeshInv(cfg, run, n)
    ensures MeshInv(cfg, run, n + 1)
  {
    var c, c' := Before(cfg, run, n).mesh, Before(cfg, run, n + 1).mesh;
    forall s | s in c' ensures exists j :: 0 <= j < n + 1 && Gave(cfg, run, j, s, c'[s].value) && run[j].now == c'[s].at {
      if s in c && c'[s] == c[s] {
        var j :| 0 <= j < n && Gave(cfg, run, j, s, c[s].value) && run[j].now == c[s].at;
        assert 0 <= j < n + 1;
      } else {
        assert Gave(cfg, run, n, s, c'[s].value);
      }
    }
  }

  /** A lookup that misses writes one entry; nothing else adds or changes any. */
  lemma RouterChange(cfg: RouterConfig, st: State, step: Step, s: Service)
    requires s in Apply(cfg, st, step).router
    ensures var c' := Apply(cfg, st, step).router;
            (s in st.router && c'[s] == st.router[s])
            || (step.Get? && step.service == s && c'[s] == Cached(Resolved(cfg, st, s, step.now), step.now))
  {
  }

  lemma RouterStep(cfg: RouterConfig, run: seq<Step>, n: nat)
    requires n < |run| && MeshInv(cfg, run, n) && RouterInv(cfg, run, n)
    ensures RouterInv(cfg, run, n + 1)
  {
    var st := Before(cfg, run, n);
    var c' := Before(cfg, run, n + 1).router;
    forall s | s in c' ensures RouterEntry(cfg, run, n + 1, s, c'[s].value, c'[s].at) {
      RouterChange(cfg, st, run[n], s);
      if s in st.router && c'[s] == st.router[s] {
        EntryStays(cfg, run, n, s, c'[s].value, c'[s].at);
      } else {
        ResolvedRecent(cfg, run, n);
        NewEntry(cfg, run, n);
      }
    }
  }

  lemma EntryStays(cfg: RouterConfig, run: seq<Step>, n: nat, s: Service, e: ServiceEndpoint, at: Time)
    requires RouterEntry(cfg, run, n, s, e, at)
    ensures RouterEntry(cfg, run, n + 1, s, e, at)
  {
    var k :| 0 <= k < n && Looked(cfg, run, k, s, e) && run[k].now == at
             && (e.source == Mesh ==> MeshRecent(cfg, run, k, s, e.url, at));
    assert 0 <= k < n + 1;
  }

  lemma NewEntry(cfg: RouterConfig, run: seq<Step>, n: nat)
    requires n < |run| && run[n].Get?
    requires var e := Resolved(cfg, Before(cfg, run, n), run[n].service, run[n].now);
             e.source == Mesh ==> MeshRecent(cfg, run, n, run[n].service, e.url, run[n].now)
    ensures RouterEntry(cfg, run, n + 1, run[n].service,
                        Resolved(cfg, Before(cfg, run, n), run[n].service, run[n].now), run[n].now)
  {
    assert Looked(cfg, run, n, run[n].service, Resolved(cfg, Before(cfg, run, n), run[n].service, run[n].now));
  }

  lemma {:induction false} CachesRecent(cfg: RouterConfig, run: seq<Step>, n: nat)
    requires n <= |run|
    ensures MeshInv(cfg, run, n) && RouterInv(cfg, run, n)
  {
    if n == 0 {
      CachesEmpty(cfg, run);
    } else {
      CachesRecent(cfg, run, n - 1);
      MeshStep(cfg, run, n - 1);
      RouterStep(cfg, run, n - 1);
    }
  }

  lemma CachesEmpty(cfg: RouterConfig, run: seq<Step>)
    ensures MeshInv(cfg, run, 0) && RouterInv(cfg, run, 0)
  {
    assert Before(cfg, run, 0) == START;
  }

  lemma AnswerEntry(cfg: RouterConfig, run: seq<Step>, n: nat)
    requires n < |run| && run[n].Get?
    ensures var s := run[n].service;
            exists at :: RouterEntry(cfg, run, n + 1, s, Answer(cfg, Before(cfg, run, n), s, run[n].now), at)
                         && RouterFresh(at, run[n].now)
  {
    var st := Before(cfg, run, n);
    var s, now := run[n].service, run[n].now;
    var e := Answer(cfg, st, s, now);
    CachesRecent(cfg, run, n);
    if Hit(st, s, now) {
      EntryStays(cfg, run, n, s, e, st.router[s].at);
    } else {
      ResolvedRecent(cfg, run, n);
      NewEntry(cfg, run, n);
      assert RouterEntry(cfg, run, n + 1, s, e, now) && RouterFresh(now, now);
    }
  }

  /** Step `j` asked the registry, which answered `url`, no more than `age` before `now`. */
  predicate GaveWithin(cfg: RouterConfig, run: seq<Step>, j: nat, s: Service, url: Url, now: Time, age: int) {
    Gave(cfg, run, j, s, url) && 0 <= now - run[j].now < age
  }

  /** Step `k` resolved the answer less than 30 seconds before step `n`; the registry gave a mesh url less than 90 before. */
  ghost predicate AnsweredBy(cfg: RouterConfig, run: seq<Step>, k: nat, n: nat, s: Service, e: ServiceEndpoint)
    requires n < |run| && run[n].Get?
  {
    && k <= n && Looked(cfg, run, k, s, e) && 0 <= run[n].now - run[k].now < 30_000
    && (e.source == Mesh ==> exists j :: 0 <= j <= k && GaveWithin(cfg, run, j, s, e.url, run[n].now, 90_000))
  }

  lemma EntryAnswers(cfg: RouterConfig, run: seq<Step>, n: nat, s: Service, e: ServiceEndpoint, at: Time)
    requires n < |run| && run[n].Get? && Monotone(run)
    requires RouterEntry(cfg, run, n + 1, s, e, at) && RouterFresh(at, run[n].now)
    ensures exists k :: AnsweredBy(cfg, run, k, n, s, e)
  {
    var k :| 0 <= k < n + 1 && Looked(cfg, run, k, s, e) && run[k].now == at
             && (e.source == Mesh ==> MeshRecent(cfg, run, k, s, e.url, at));
    assert 0 <= run[n].now - run[k].now < 30_000;
    if e.source == Mesh { RegistryRecent(cfg, run, n, k, s, e.url); }
    assert AnsweredBy(cfg, run, k, n, s, e);
  }

  /**
   Every answer is a resolution made less than 30 seconds ago, and a mesh answer is what the registry
   said less than 90 seconds ago, whatever was cleared or changed in between.
   */
  lemma AnswerIsRecent(cfg: RouterConfig, run: seq<Step>, n: nat)
    requires n < |run| && run[n].Get? && Monotone(run)
    ensures exists k :: AnsweredBy(cfg, run, k, n, run[n].service,
                                   Answer(cfg, Before(cfg, run, n), run[n].service, run[n].now))
  {
    var e := Answer(cfg, Before(cfg, run, n), run[n].service, run[n].now);
    AnswerEntry(cfg, run, n);
    var at :| RouterEntry(cfg, run, n + 1, run[n].service, e, at) && RouterFresh(at, run[n].now);
    EntryAnswers(cfg, run, n, run[n].service, e, at);
  }

  lemma RegistryRecent(cfg: RouterConfig, run: seq<Step>, n: nat, k: nat, s: Service, url: Url)
    requires Monotone(run) && k <= n < |run| && run[n].Get? && run[k].Get? && run[n].now - run[k].now < 30_000
    requires MeshRecent(cfg, run, k, s, url, run[k].now)
    ensures exists j :: 0 <= j <= k && GaveWithin(cfg, run, j, s, url, run[n].now, 90_000)
  {
    var j :| 0 <= j <= k && Gave(cfg, run, j, s, url) && run[k].now - run[j].now < 60_000;
    assert GaveWithin(cfg, run, j, s, url, run[n].now, 90_000);
  }

  /** Thirty seconds after an answer was cached, the best endpoint of the moment is given again. */
  lemma NewAfterExpiry(cfg: RouterConfig, st: State, s: Service, now: Time)
    requires s in st.router && now - st.router[s].at >= 30_000
    ensures IsBest(cfg, st.world, MeshSays(cfg, st.world, st.mesh, s, now), s, Answer(cfg, st, s, now))
  {
    BestIsBest(cfg, st.world, MeshSays(cfg, st.world, st.mesh, s, now), s);
  }

  /** What the router's method promises is what a lookup step does. */
  lemma LookupMatches(cfg: RouterConfig, st: State, s: Service, now: Time, e: ServiceEndpoint, st': State)
    requires st'.world == st.world
    requires if Hit(st, s, now) then e == st.router[s].value && st' == st
             else && IsBest(cfg, st.world, MeshSays(cfg, st.world, st.mesh, s, now), s, e)
                  && st'.mesh == MeshCacheAfter(cfg, st.world, st.mesh, s, now)
                  && st'.router == st.router[s := Cached(e, now)]
    ensures e == Answer(cfg, st, s, now) && st' == Apply(cfg, st, Get(s, now))
  {
    var mesh := MeshSays(cfg, st.world, st.mesh, s, now);
    BestIsBest(cfg, st.world, mesh, s);
    if !Hit(st, s, now) { BestIsUnique(cfg, st.world, mesh, s, e, Best(cfg, st.world, mesh, s)); }
  }

  /** What the mesh client's method promises is what asking it does. */
  lemma AskMatches(cfg: RouterConfig, st: State, s: Service, now: Time, st': State)
    requires st.world.registry.Some? && st'.world == st.world && st'.router == st.router
    requires st'.mesh == if !(s in st.mesh && now - st.mesh[s].at < 60_000) && s in st.world.registry.value
                         then st.mesh[s := Cached(st.world.registry.value[s], now)] else st.mesh
    ensures st' == Apply(cfg, st, AskMesh(s, now))
  {
  }

  // ---------- what the router's cache keeps ----------

  /** No step from position `i` up to `n` clears the router's cache. */
  predicate NotCleared(run: seq<Step>, i: nat, n: nat) {
    forall j :: i <= j < n && j < |run| ==> !run[j].ClearRouter?
  }

  lemma {:induction false} EntryKept(cfg: RouterConfig, run: seq<Step>, k: nat, n: nat)
    requires k < n <= |run| && run[k].Get? && Monotone(run) && NotCleared(run, k, n)
    requires !Hit(Before(cfg, run, k), run[k].service, run[k].now)
    requires forall j :: k < j < n && Timed(run[j]) ==> run[j].now - run[k].now < 30_000
    ensures var c := Before(cfg, run, n).router;
            run[k].service in c &&
            c[run[k].service] == Cached(Resolved(cfg, Before(cfg, run, k), run[k].service, run[k].now), run[k].now)
  {
    if n > k + 1 {
      EntryKept(cfg, run, k, n - 1);
      assert Before(cfg, run, n) == Apply(cfg, Before(cfg, run, n - 1), run[n - 1]);
    }
  }

  /** For thirty seconds the answer of a resolution is given again, whatever changes around the router, unless it is cleared. */
  lemma AnswerStays(cfg: RouterConfig, run: seq<Step>, k: nat, n: nat)
    requires k < n < |run| && run[k].Get? && run[n].Get? && run[n].service == run[k].service
    requires Monotone(run) && NotCleared(run, k, n) && !Hit(Before(cfg, run, k), run[k].service, run[k].now)
    requires run[n].now - run[k].now < 30_000
    ensures Answer(cfg, Before(cfg, run, n), run[n].service, run[n].now)
         == Answer(cfg, Before(cfg, run, k), run[k].service, run[k].now)
  {
    EntryKept(cfg, run, k, n);
  }

  lemma {:induction false} StaysOut(cfg: RouterConfig, run: seq<Step>, k: nat, n: nat, s: Service)
    requires k < n <= |run| && run[k].ClearRouter?
    requires forall j :: k < j < n && run[j].Get? ==> run[j].service != s
    ensures s !in Before(cfg, run, n).router
  {
    if n > k + 1 {
      StaysOut(cfg, run, k, n - 1, s);
      RouterUntouched(cfg, Before(cfg, run, n - 1), run[n - 1], s);
    }
  }

  lemma RouterUntouched(cfg: RouterConfig, st: State, step: Step, s: Service)
    requires s !in st.router && (step.Get? ==> step.service != s)
    ensures s !in Apply(cfg, st, step).router
  {
  }

  /** After the router's cache was cleared, the next lookup of a service resolves it anew. */
  lemma NewAfterClear(cfg: RouterConfig, run: seq<Step>, k: nat, n: nat)
    requires k < n < |run| && run[k].ClearRouter? && run[n].Get?
    requires forall j :: k < j < n && run[j].Get? ==> run[j].service != run[n].service
    ensures var st := Before(cfg, run, n);
            IsBest(cfg, st.world, MeshSays(cfg, st.world, st.mesh, run[n].service, run[n].now), run[n].service,
                   Answer(cfg, st, run[n].service, run[n].now))
  {
    var st := Before(cfg, run, n);
    StaysOut(cfg, run, k, n, run[n].service);
    BestIsBest(cfg, st.world, MeshSays(cfg, st.world, st.mesh, run[n].service, run[n].now), run[n].service);
  }
}
