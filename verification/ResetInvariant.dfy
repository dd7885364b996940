/** What every run of an environment reset keeps. */
module ResetInvariant {
  import opened Basics
  import opened ResetModel
  import opened ResetWorld

  // ---- Workers ----

  /** A copy is the stored state itself unless a later revision has replaced it. */
  ghost predicate Faithful(copy: State, s: State, at: int) {
    copy.validAfter <= at && copy.revision <= s.revision && (copy.revision == s.revision ==> copy == s)
  }

  /** The saved snapshot is what the deployment configured for the listed functions. */
  ghost predicate Matches(snapshot: map<string, int>, m: Manifest, configured: map<string, int>) {
    snapshot.Keys == Names(m.functions) && forall f | f in snapshot :: f in configured && snapshot[f] == configured[f]
  }

  ghost predicate AllPaused(limits: map<string, int>, names: set<string>) {
    forall f | f in names :: f in limits && limits[f] == 0
  }

  ghost predicate Emptied(d: Data, m: Manifest, p: Phase, k: nat) {
    forall i | 0 <= i < k && i < Listings(m, p) :: Listing(d, m, p, i) == {}
  }

  /** What a worker that holds the claim has found or done so far is still so. */
  ghost predicate StageFits(v: Worker, m: Manifest, limits: map<string, int>, configured: map<string, int>, d: Data) {
    match v.stage
    case Loaded => true
    case Reading(got) => v.copy.phase.Snapshot? && got.Keys <= Names(m.functions)
                         && forall f | f in got :: f in configured && got[f] == configured[f]
    case Pausing(paused) => v.copy.phase.Pause? && AllPaused(limits, paused)
    case Passing => v.copy.phase.Drain? || v.copy.phase.Purge? || v.copy.phase.QueueWait?
    case Clearing(found) => Clears(v.copy.phase) && found <= Listings(m, v.copy.phase) && Emptied(d, m, v.copy.phase, found)
    case Restoring(restored) => v.copy.phase.Restore? && forall f | f in restored :: f in limits && f in configured && limits[f] == configured[f]
    case Repausing => v.copy.phase.Restore?
  }

  ghost predicate ClaimFits(v: Worker, s: State, now: int) {
    && v.copy.leaseUntil == v.t + RESET_LEASE && !v.copy.failed && !Idle(v.copy) && v.copy.due <= v.t && v.copy.validAfter <= v.t
    && (Alive(v, now) ==> v.copy == s)
  }

  ghost predicate WorkerOk(v: Worker, s: State, now: int, m: Manifest, limits: map<string, int>, configured: map<string, int>, d: Data) {
    && 1 <= v.at <= v.t <= now && Faithful(v.copy, s, v.at)
    && (!v.stage.Loaded? ==> ClaimFits(v, s, now))
    && (v.copy == s && Alive(v, now) ==> StageFits(v, m, limits, configured, d))
  }

  ghost predicate Holds(v: Worker, s: State) {
    !v.stage.Loaded? && v.copy == s
  }

  ghost predicate OneHolder(workers: map<nat, Worker>, s: State) {
    forall j, k | j in workers && k in workers && Holds(workers[j], s) && Holds(workers[k], s) :: j == k
  }

  ghost predicate WorkersOk(workers: map<nat, Worker>, s: State, now: int, m: Manifest, limits: map<string, int>,
                            configured: map<string, int>, d: Data) {
    && (forall j | j in workers :: WorkerOk(workers[j], s, now, m, limits, configured, d))
    && OneHolder(workers, s)
  }

  // ---- What each phase means ----

  /** Every earlier invocation has ended and every upload URL is dead. */
  ghost predicate Silent(invocations: map<nat, Invocation>, urls: set<int>, now: int) {
    (forall i | i in invocations :: !Runs(invocations[i], now)) && (forall e | e in urls :: e <= now)
  }

  /** When the drain is due, they will have. */
  ghost predicate Ending(invocations: map<nat, Invocation>, due: int) {
    forall i | i in invocations :: invocations[i].at <= due - DRAIN + RESET_LIMIT
  }

  predicate PausedPhase(p: Phase) {
    p.Drain? || p.Purge? || p.QueueWait? || Clears(p)
  }

  ghost predicate LimitsOk(s: State, m: Manifest, limits: map<string, int>, configured: map<string, int>) {
    && limits.Keys == configured.Keys && Names(m.functions) <= limits.Keys
    && (forall f | f in limits && f !in Names(m.functions) :: limits[f] == configured[f])
    && (forall f | f in configured :: configured[f] >= -1)
    && (Idle(s) || s.phase.Snapshot? ==> limits == configured)
    && (!Idle(s) && !s.phase.Snapshot? ==> Matches(s.concurrency, m, configured))
    && (PausedPhase(s.phase) ==> AllPaused(limits, Names(m.functions)))
  }

  /** An upload URL was signed by some invocation while it ran. */
  ghost predicate Backed(invocations: map<nat, Invocation>, e: int) {
    exists i :: i in invocations && e <= invocations[i].at + URL_HORIZON
  }

  ghost predicate UrlsOk(invocations: map<nat, Invocation>, urls: set<int>, now: int) {
    && (forall i | i in invocations :: invocations[i].at <= now)
    && (forall e | e in urls :: e <= now + UPLOAD_LIFETIME)
    && (forall e | e in urls :: Backed(invocations, e))
  }

  ghost predicate PhaseOk(s: State, m: Manifest, invocations: map<nat, Invocation>, urls: set<int>, d: Data, now: int) {
    && (s.phase.Drain? ==> Ending(invocations, s.due))
    && (s.phase.Purge? || s.phase.QueueWait? || Clears(s.phase) ==> Silent(invocations, urls, now))
    && (s.phase.Tables? || s.phase.Objects? ==> Emptied(d, m, Users, 1))
    && (s.phase.Objects? ==> Emptied(d, m, Tables, |m.tables|))
  }

  ghost predicate CutoffOk(s: State, final: (int, string), now: int) {
    && 0 <= s.revision && s.validAfter <= now && 0 <= final.0 <= s.validAfter && (final.0 == 0 <==> s.validAfter == 0)
    && (s.revision == 0 ==> s == NO_STATE)
    && (s.phase.Restore? || s.phase.Complete? ==> final.0 > 0 && final.1 == s.operation)
  }

  ghost predicate RequestsOk(requests: map<nat, State>, s: State, now: int) {
    forall k | k in requests :: Faithful(requests[k], s, now)
  }

  ghost predicate Inv(w: World) {
    && 1 <= w.now && CutoffOk(w.state, w.final, w.now)
    && LimitsOk(w.state, w.manifest, w.limits, w.configured)
    && UrlsOk(w.invocations, w.urls, w.now)
    && PhaseOk(w.state, w.manifest, w.invocations, w.urls, w.data, w.now)
    && RequestsOk(w.requests, w.state, w.now)
    && WorkersOk(w.workers, w.state, w.now, w.manifest, w.limits, w.configured, w.data)
  }

  lemma FreshInv(w: World)
    requires Fresh(w) && forall f | f in w.configured :: w.configured[f] >= -1
    ensures Inv(w)
  {
  }

  // ---- The environment ----

  lemma TickKeeps(w: World, d: nat)
    requires Inv(w)
    ensures Inv(Step(w, Ticks(d)))
  {
    forall j | j in w.workers
      ensures WorkerOk(w.workers[j], w.state, w.now + d, w.manifest, w.limits, w.configured, w.data)
    {
      assert WorkerOk(w.workers[j], w.state, w.now, w.manifest, w.limits, w.configured, w.data);
    }
  }

  lemma ConfigureKeeps(w: World, name: string, limit: int)
    requires Inv(w)
    ensures Inv(Step(w, Configures(name, limit)))
  {
    var v := Step(w, Configures(name, limit));
    forall j | j in w.workers
      ensures WorkerOk(w.workers[j], w.state, w.now, w.manifest, v.limits, v.configured, w.data)
    {
      assert WorkerOk(w.workers[j], w.state, w.now, w.manifest, w.limits, w.configured, w.data);
    }
  }

  lemma InvokeKeeps(w: World, i: nat, name: string, signs: bool)
    requires Inv(w)
    ensures Inv(Invoke(w, i, name, signs))
  {
    var v := Invoke(w, i, name, signs);
    if v != w {
      forall e | e in w.urls ensures Backed(v.invocations, e) {
        assert Backed(w.invocations, e);
        var k :| k in w.invocations && e <= w.invocations[k].at + URL_HORIZON;
        assert k in v.invocations && v.invocations[k] == w.invocations[k];
      }
    }
  }

  lemma SignKeeps(w: World, i: nat)
    requires Inv(w)
    ensures Inv(Step(w, Signs(i)))
  {
    var v := Step(w, Signs(i));
    if v != w {
      assert Backed(w.invocations, w.now + UPLOAD_LIFETIME) by {
        assert i in w.invocations && w.now + UPLOAD_LIFETIME <= w.invocations[i].at + URL_HORIZON;
      }
    }
  }

  // ---- Data ----

  lemma AddKeeps(w: World, kind: Kind, item: string)
    requires Inv(w) && !(w.state.phase.Purge? || w.state.phase.QueueWait? || Clears(w.state.phase))
    ensures Inv(w.(data := Insert(w.data, kind, item)))
  {
    var d := Insert(w.data, kind, item);
    forall j | j in w.workers
      ensures WorkerOk(w.workers[j], w.state, w.now, w.manifest, w.limits, w.configured, d)
    {
      assert WorkerOk(w.workers[j], w.state, w.now, w.manifest, w.limits, w.configured, w.data);
    }
  }

  lemma AddsKeeps(w: World, i: nat, kind: Kind, item: string)
    requires Inv(w) && Running(w, i)
    ensures Inv(w.(data := Insert(w.data, kind, item)))
  {
    AddKeeps(w, kind, item);
  }

  lemma PutsKeeps(w: World, expiry: int, item: string)
    requires Inv(w) && expiry in w.urls && w.now < expiry
    ensures Inv(w.(data := Insert(w.data, Object, item)))
  {
    AddKeeps(w, Object, item);
  }

  // ---- Saves ----

  lemma AskKeeps(w: World, k: nat)
    requires Inv(w)
    ensures Inv(Step(w, Asks(k)))
  {
  }

  lemma RequestsSurvive(requests: map<nat, State>, s: State, now: int, next: State)
    requires RequestsOk(requests, s, now) && next.revision == s.revision + 1
    ensures RequestsOk(requests, next, now)
  {
    forall k | k in requests ensures Faithful(requests[k], next, now) {
      assert Faithful(requests[k], s, now);
    }
  }

  /** A save that no live holder of the claim stands against leaves every other worker overtaken. */
  lemma WorkersSurvive(workers: map<nat, Worker>, s: State, now: int, m: Manifest, limits: map<string, int>,
                       configured: map<string, int>, d: Data, next: State, kept: map<nat, Worker>)
    requires WorkersOk(workers, s, now, m, limits, configured, d) && next.revision == s.revision + 1
    requires forall j | j in kept :: j in workers && kept[j] == workers[j] && (Holds(kept[j], s) ==> !Alive(kept[j], now))
    ensures WorkersOk(kept, next, now, m, limits, configured, d)
  {
    forall j | j in kept ensures WorkerOk(kept[j], next, now, m, limits, configured, d) && !Holds(kept[j], next) {
      assert WorkerOk(workers[j], s, now, m, limits, configured, d);
    }
  }

  lemma StartKeeps(w: World, k: nat, operation: string, actor: string, t1: int, t2: int)
    requires Inv(w)
    ensures Inv(Start(w, k, operation, actor, t1, t2))
  {
    var v := Start(w, k, operation, actor, t1, t2);
    if v != w {
      assert Faithful(w.requests[k], w.state, w.now);
      RequestsSurvive(w.requests, w.state, w.now, v.state);
      forall j | j in w.workers ensures !Holds(w.workers[j], w.state) {
        assert WorkerOk(w.workers[j], w.state, w.now, w.manifest, w.limits, w.configured, w.data);
      }
      WorkersSurvive(w.workers, w.state, w.now, w.manifest, w.limits, w.configured, w.data, v.state, w.workers);
    }
  }

  lemma ResumeKeeps(w: World, k: nat, operation: string, actor: string, t1: int, t2: int)
    requires Inv(w)
    ensures Inv(Resume(w, k, operation, actor, t1, t2))
  {
    var v := Resume(w, k, operation, actor, t1, t2);
    if v != w {
      assert Faithful(w.requests[k], w.state, w.now);
      RequestsSurvive(w.requests, w.state, w.now, v.state);
      forall j | j in w.workers ensures !Holds(w.workers[j], w.state) {
        assert WorkerOk(w.workers[j], w.state, w.now, w.manifest, w.limits, w.configured, w.data);
      }
      WorkersSurvive(w.workers, w.state, w.now, w.manifest, w.limits, w.configured, w.data, v.state, w.workers);
    }
  }

  // ---- Workers come and go ----

  lemma WorkerJoins(workers: map<nat, Worker>, s: State, now: int, m: Manifest, limits: map<string, int>,
                    configured: map<string, int>, d: Data, j: nat, v: Worker)
    requires WorkersOk(workers - {j}, s, now, m, limits, configured, d) && WorkerOk(v, s, now, m, limits, configured, d)
    requires Holds(v, s) ==> forall k | k in workers && k != j :: !Holds(workers[k], s)
    ensures WorkersOk(workers[j := v], s, now, m, limits, configured, d)
  {
    var all := workers[j := v];
    forall k | k in all ensures WorkerOk(all[k], s, now, m, limits, configured, d) {
      if k != j {
        assert k in workers - {j};
      }
    }
    forall k, l | k in all && l in all && Holds(all[k], s) && Holds(all[l], s) ensures k == l {
      if k != j && l != j {
        assert k in workers - {j} && l in workers - {j};
      }
    }
  }

  lemma WorkerLeaves(w: World, j: nat)
    requires Inv(w)
    ensures Inv(w.(workers := w.workers - {j}))
  {
    var rest := w.workers - {j};
    forall k | k in rest ensures WorkerOk(rest[k], w.state, w.now, w.manifest, w.limits, w.configured, w.data) {
      assert WorkerOk(w.workers[k], w.state, w.now, w.manifest, w.limits, w.configured, w.data);
    }
  }

  lemma LoadKeeps(w: World, j: nat)
    requires Inv(w)
    ensures Inv(Step(w, Loads(j)))
  {
    WorkerLeaves(w, j);
    WorkerJoins(w.workers, w.state, w.now, w.manifest, w.limits, w.configured, w.data, j, Worker(w.state, w.now, w.now, Loaded));
  }

  /** The lease outlives its holder: whoever claims finds every earlier holder dead. */
  lemma ClaimFindsNobody(w: World, j: nat, t: int, k: nat)
    requires Inv(w) && ClaimCommits(w, j, t) && k in w.workers && Holds(w.workers[k], w.state)
    ensures !Alive(w.workers[k], w.now)
  {
    assert WorkerOk(w.workers[k], w.state, w.now, w.manifest, w.limits, w.configured, w.data);
    assert WorkerOk(w.workers[j], w.state, w.now, w.manifest, w.limits, w.configured, w.data);
  }

  lemma ClaimKeeps(w: World, j: nat, t: int, reported: bool)
    requires Inv(w)
    ensures Inv(Claim(w, j, t, reported))
  {
    WorkerLeaves(w, j);
    if ClaimCommits(w, j, t) {
      var v := w.workers[j];
      var next := ClaimedAt(v.copy, t);
      assert WorkerOk(v, w.state, w.now, w.manifest, w.limits, w.configured, w.data);
      RequestsSurvive(w.requests, w.state, w.now, next);
      forall k | k in w.workers && Holds(w.workers[k], w.state) ensures !Alive(w.workers[k], w.now) {
        ClaimFindsNobody(w, j, t, k);
      }
      var rest := w.workers - {j};
      WorkersSurvive(w.workers, w.state, w.now, w.manifest, w.limits, w.configured, w.data, next, rest);
      forall k | k in w.workers && k != j ensures !Holds(w.workers[k], next) {
        assert WorkerOk(w.workers[k], w.state, w.now, w.manifest, w.limits, w.configured, w.data);
      }
      WorkerJoins(w.workers, next, w.now, w.manifest, w.limits, w.configured, w.data, j, Worker(next, v.at, t, FirstStage(next.phase)));
    }
  }

  // ---- Effects of the claim's holder ----

  /** A live worker past its claim works on the stored state itself, and alone. */
  lemma HolderFacts(w: World, j: nat)
    requires Inv(w) && Acts(w, j) && !w.workers[j].stage.Loaded?
    ensures var v := w.workers[j];
            && v.copy == w.state && v.t <= w.now && w.now <= v.t + RESET_LIMIT && !Idle(v.copy) && !v.copy.failed
            && StageFits(v, w.manifest, w.limits, w.configured, w.data)
    ensures forall k | k in w.workers && k != j :: !Holds(w.workers[k], w.state)
    ensures forall k | k in w.workers && k != j && Alive(w.workers[k], w.now) && !w.workers[k].stage.Loaded? :: w.workers[k].copy != w.state
  {
    assert WorkerOk(w.workers[j], w.state, w.now, w.manifest, w.limits, w.configured, w.data);
  }

  /** Only the holder of the claim depends on the limits and the data. */
  lemma OthersDoNotLook(w: World, j: nat, limits: map<string, int>, d: Data)
    requires Inv(w) && Acts(w, j) && !w.workers[j].stage.Loaded?
    ensures WorkersOk(w.workers - {j}, w.state, w.now, w.manifest, limits, w.configured, d)
  {
    HolderFacts(w, j);
    var rest := w.workers - {j};
    forall k | k in rest ensures WorkerOk(rest[k], w.state, w.now, w.manifest, limits, w.configured, d) {
      assert WorkerOk(w.workers[k], w.state, w.now, w.manifest, w.limits, w.configured, w.data);
    }
  }

  lemma HolderMovesOn(w: World, j: nat, limits: map<string, int>, d: Data, stage: Stage)
    requires Inv(w) && Acts(w, j) && !w.workers[j].stage.Loaded? && !stage.Loaded?
    requires StageFits(w.workers[j].(stage := stage), w.manifest, limits, w.configured, d)
    ensures WorkersOk(w.workers[j := w.workers[j].(stage := stage)], w.state, w.now, w.manifest, limits, w.configured, d)
  {
    HolderFacts(w, j);
    assert WorkerOk(w.workers[j], w.state, w.now, w.manifest, w.limits, w.configured, w.data);
    OthersDoNotLook(w, j, limits, d);
    WorkerJoins(w.workers, w.state, w.now, w.manifest, limits, w.configured, d, j, w.workers[j].(stage := stage));
  }

  lemma ReadLimitKeeps(w: World, j: nat, name: string)
    requires Inv(w)
    ensures Inv(ReadLimit(w, j, name))
  {
    if ReadLimit(w, j, name) != w {
      HolderFacts(w, j);
      HolderMovesOn(w, j, w.limits, w.data, Reading(w.workers[j].stage.got[name := w.limits[name]]));
    }
  }

  lemma SetLimitKeeps(w: World, j: nat, name: string, acked: bool)
    requires Inv(w)
    ensures Inv(SetLimit(w, j, name, acked))
  {
    if MayLimit(w, j, name) {
      HolderFacts(w, j);
      var v := w.workers[j];
      var limits := w.limits[name := Target(v, name)];
      assert limits.Keys == w.limits.Keys;
      HolderMovesOn(w, j, limits, w.data, Counted(v.stage, name));
      HolderMovesOn(w, j, limits, w.data, v.stage);
      assert w.workers[j := v.(stage := v.stage)] == w.workers;
    }
  }

  lemma GiveUpKeeps(w: World, j: nat)
    requires Inv(w)
    ensures Inv(GiveUpRestore(w, j))
  {
    if GiveUpRestore(w, j) != w {
      HolderFacts(w, j);
      HolderMovesOn(w, j, w.limits, w.data, Repausing);
    }
  }

  lemma ListingsStayEmpty(d: Data, m: Manifest, p: Phase, k: nat, item: string, q: Phase, n: nat)
    requires k < Listings(m, p) && Clears(p) && Clears(q) && Emptied(d, m, q, n)
    ensures Emptied(Remove(d, m, p, k, item), m, q, n)
  {
    var after := Remove(d, m, p, k, item);
    forall i | 0 <= i < n && i < Listings(m, q) ensures Listing(after, m, q, i) == {} {
      assert Listing(d, m, q, i) == {} && Listing(after, m, q, i) <= Listing(d, m, q, i);
    }
  }

  lemma DeleteKeeps(w: World, j: nat, item: string)
    requires Inv(w)
    ensures Inv(Delete(w, j, item))
  {
    if Looks(w, j) {
      HolderFacts(w, j);
      var v := w.workers[j];
      var p, k := v.copy.phase, v.stage.found;
      var d := Delete(w, j, item).data;
      ListingsStayEmpty(w.data, w.manifest, p, k, item, p, k);
      if !p.Users? {
        ListingsStayEmpty(w.data, w.manifest, p, k, item, Users, 1);
      }
      if p.Objects? {
        ListingsStayEmpty(w.data, w.manifest, p, k, item, Tables, |w.manifest.tables|);
      }
      HolderMovesOn(w, j, w.limits, d, v.stage);
      assert w.workers[j := v.(stage := v.stage)] == w.workers;
    }
  }

  lemma FindKeeps(w: World, j: nat)
    requires Inv(w)
    ensures Inv(FindEmpty(w, j))
  {
    if FindEmpty(w, j) != w {
      HolderFacts(w, j);
      HolderMovesOn(w, j, w.limits, w.data, Clearing(w.workers[j].stage.found + 1));
    }
  }

  // ---- The final save ----

  /** What the state means after the final save, phase by phase. */
  lemma SettledPhase(w: World, j: nat, ok: bool, u: int)
    requires Inv(w) && SettleCommits(w, j, ok, u)
    ensures var v := w.workers[j];
            PhaseOk(Settled(v.copy, v.t, AnswerOf(w, j, ok), u), w.manifest, w.invocations, w.urls, w.data, w.now)
  {
    HolderFacts(w, j);
    if w.state.phase.Drain? {
      forall e | e in w.urls ensures e <= w.now {
        assert Backed(w.invocations, e);
      }
    }
  }

  lemma SettledLimits(w: World, j: nat, ok: bool, u: int)
    requires Inv(w) && SettleCommits(w, j, ok, u)
    ensures var v := w.workers[j];
            LimitsOk(Settled(v.copy, v.t, AnswerOf(w, j, ok), u), w.manifest, w.limits, w.configured)
  {
    HolderFacts(w, j);
    if w.state.phase.Restore? && ok {
      assert w.workers[j].stage.restored == Names(w.manifest.functions);
      assert w.limits == w.configured;
    }
  }

  lemma SettledCutoff(w: World, j: nat, ok: bool, u: int)
    requires Inv(w) && SettleCommits(w, j, ok, u)
    ensures var v := Settle(w, j, ok, u);
            CutoffOk(v.state, v.final, w.now) && v.state.revision == w.state.revision + 1
  {
    HolderFacts(w, j);
    assert WorkerOk(w.workers[j], w.state, w.now, w.manifest, w.limits, w.configured, w.data);
    hide LimitsOk, PhaseOk, UrlsOk, RequestsOk, WorkersOk, StageFits;
  }

  lemma SettleKeeps(w: World, j: nat, ok: bool, u: int)
    requires Inv(w)
    ensures Inv(Settle(w, j, ok, u))
  {
    hide CutoffOk, LimitsOk, PhaseOk, UrlsOk, RequestsOk, WorkersOk, StageFits, Settled, SettleCommits;
    WorkerLeaves(w, j);
    if SettleCommits(w, j, ok, u) {
      SettledCutoff(w, j, ok, u);
      SettledPhase(w, j, ok, u);
      SettledLimits(w, j, ok, u);
      SettledOthers(w, j, ok, u);
    }
  }

  lemma SettledOthers(w: World, j: nat, ok: bool, u: int)
    requires Inv(w) && SettleCommits(w, j, ok, u)
    ensures var v := Settle(w, j, ok, u);
            && RequestsOk(w.requests, v.state, w.now)
            && WorkersOk(w.workers - {j}, v.state, w.now, w.manifest, w.limits, w.configured, w.data)
  {
    HolderFacts(w, j);
    SettledCutoff(w, j, ok, u);
    var next := Settle(w, j, ok, u).state;
    hide CutoffOk, LimitsOk, PhaseOk, UrlsOk, RequestsOk, WorkersOk, StageFits, Settled, Settle, WorkerOk;
    RequestsSurvive(w.requests, w.state, w.now, next);
    WorkersSurvive(w.workers, w.state, w.now, w.manifest, w.limits, w.configured, w.data, next, w.workers - {j});
  }

  // ---- Every run ----

  lemma StepKeeps(w: World, e: Event)
    requires Inv(w)
    ensures Inv(Step(w, e))
  {
    hide Inv, Invoke, Running, Insert, Start, Resume, Claim, ReadLimit, SetLimit, GiveUpRestore, Delete, FindEmpty, Settle;
    match e
    case Ticks(d) => TickKeeps(w, d);
    case Configures(name, limit) => ConfigureKeeps(w, name, limit);
    case Invokes(i, name, signs) => InvokeKeeps(w, i, name, signs);
    case Adds(i, kind, item) => if Step(w, e) != w { AddsKeeps(w, i, kind, item); }
    case Signs(i) => SignKeeps(w, i);
    case Puts(expiry, item) => if Step(w, e) != w { PutsKeeps(w, expiry, item); }
    case Asks(k) => AskKeeps(w, k);
    case Starts(k, operation, actor, t1, t2) => StartKeeps(w, k, operation, actor, t1, t2);
    case Resumes(k, operation, actor, t1, t2) => ResumeKeeps(w, k, operation, actor, t1, t2);
    case Loads(j) => LoadKeeps(w, j);
    case Claims(j, t, reported) => ClaimKeeps(w, j, t, reported);
    case ReadsLimit(j, name) => ReadLimitKeeps(w, j, name);
    case Limits(j, name, acked) => SetLimitKeeps(w, j, name, acked);
    case GivesUpRestore(j) => GiveUpKeeps(w, j);
    case Deletes(j, item) => DeleteKeeps(w, j, item);
    case FindsEmpty(j) => FindKeeps(w, j);
    case Settles(j, ok, u) => SettleKeeps(w, j, ok, u);
    case Dies(j) => WorkerLeaves(w, j);
  }

  lemma {:induction false} RunKeeps(w: World, es: seq<Event>)
    requires Inv(w)
    ensures Inv(Run(w, es))
    decreases |es|
  {
    if es != [] {
      StepKeeps(w, es[0]);
      RunKeeps(Step(w, es[0]), es[1..]);
    }
  }
}
