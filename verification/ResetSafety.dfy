/** What every reset guarantees, whatever mix of crashes, partial pauses, failed restores and resumes happened. */
module ResetSafety {
  import opened Basics
  import opened ResetModel
  import opened ResetWorld
  import opened ResetInvariant

  /** A world that some run of an environment reaches. */
  ghost predicate Reached(w0: World, es: seq<Event>, w: World) {
    Fresh(w0) && (forall f | f in w0.configured :: w0.configured[f] >= -1) && w == Run(w0, es)
  }

  lemma Reachable(w0: World, es: seq<Event>, w: World)
    requires Reached(w0, es, w)
    ensures Inv(w)
  {
    FreshInv(w0);
    RunKeeps(w0, es);
  }

  // ---- Concurrency ----

  /** While no reset is under way, and until it first pauses something, every function has the concurrency that the deployment gave it. */
  lemma CompleteMeansRestored(w0: World, es: seq<Event>, w: World)
    requires Reached(w0, es, w) && (Idle(w.state) || w.state.phase.Snapshot?)
    ensures w.limits == w.configured
  {
    Reachable(w0, es, w);
  }

  /** The step that completes an operation leaves each listed function at the value its snapshot holds. */
  lemma CompletionRestoresSnapshot(w0: World, es: seq<Event>, w: World, e: Event)
    requires Reached(w0, es, w) && !w.state.phase.Complete? && Step(w, e).state.phase.Complete?
    ensures w.state.phase.Restore? && Step(w, e).state.operation == w.state.operation
    ensures forall f | f in w.manifest.functions :: f in w.limits && f in w.state.concurrency && w.limits[f] == w.state.concurrency[f]
  {
    Reachable(w0, es, w);
    CompletingStep(w, e);
    hide Reached, Run;
    HolderFacts(w, e.j);
    assert forall f | f in w.manifest.functions :: f in w.state.concurrency;
  }

  lemma CompletingStep(w: World, e: Event)
    requires Inv(w) && !w.state.phase.Complete? && Step(w, e).state.phase.Complete?
    ensures e.Settles? && w.state.phase.Restore? && Step(w, e).state.operation == w.state.operation && w.limits == w.configured
    ensures Acts(w, e.j) && !w.workers[e.j].stage.Loaded?
  {
    StepKeeps(w, e);
    SettlesOnly(w, e);
    hide CutoffOk, PhaseOk, UrlsOk, RequestsOk, WorkersOk, StageFits;
  }

  /** The three kinds of save: a request's start or resume, a claim, and a worker's final save. */
  lemma SettlesOnly(w: World, e: Event)
    requires Inv(w) && Step(w, e).state != w.state
    ensures match e
            case Starts(_, operation, actor, t1, t2) => Idle(w.state) && Step(w, e).state == Started(w.state, operation, actor, t1, t2)
            case Resumes(_, _, _, _, t2) => w.state.failed && Step(w, e).state == Resumed(w.state, t2)
            case Claims(_, t, _) => MayClaim(w.state, t) && Step(w, e).state == ClaimedAt(w.state, t)
            case Settles(j, ok, u) => SettleCommits(w, j, ok, u) && w.workers[j].copy == w.state
                                      && Step(w, e).state == Settled(w.state, w.workers[j].t, AnswerOf(w, j, ok), u)
            case _ => false
  {
    hide CutoffOk, LimitsOk, PhaseOk, UrlsOk, StageFits;
    match e
    case Starts(k, operation, actor, t1, t2) => StartSaves(w, k, operation, actor, t1, t2);
    case Resumes(k, operation, actor, t1, t2) => ResumeSaves(w, k, operation, actor, t1, t2);
    case Claims(j, t, reported) => ClaimSaves(w, j, t, reported);
    case Settles(j, _, _) => HolderFacts(w, j);
    case _ => OthersSaveNothing(w, e);
  }

  lemma StartSaves(w: World, k: nat, operation: string, actor: string, t1: int, t2: int)
    requires RequestsOk(w.requests, w.state, w.now) && Start(w, k, operation, actor, t1, t2).state != w.state
    ensures Idle(w.state) && Start(w, k, operation, actor, t1, t2).state == Started(w.state, operation, actor, t1, t2)
  {
    assert Faithful(w.requests[k], w.state, w.now);
  }

  lemma ResumeSaves(w: World, k: nat, operation: string, actor: string, t1: int, t2: int)
    requires RequestsOk(w.requests, w.state, w.now) && Resume(w, k, operation, actor, t1, t2).state != w.state
    ensures w.state.failed && Resume(w, k, operation, actor, t1, t2).state == Resumed(w.state, t2)
  {
    assert Faithful(w.requests[k], w.state, w.now);
  }

  lemma ClaimSaves(w: World, j: nat, t: int, reported: bool)
    requires WorkersOk(w.workers, w.state, w.now, w.manifest, w.limits, w.configured, w.data) && Claim(w, j, t, reported).state != w.state
    ensures MayClaim(w.state, t) && Claim(w, j, t, reported).state == ClaimedAt(w.state, t)
  {
    assert WorkerOk(w.workers[j], w.state, w.now, w.manifest, w.limits, w.configured, w.data);
  }

  lemma OthersSaveNothing(w: World, e: Event)
    requires !e.Starts? && !e.Resumes? && !e.Claims? && !e.Settles?
    ensures Step(w, e).state == w.state
  {
    hide Start, Resume, Claim, Settle, Insert, MayLimit, Target, Remove, Listing;
  }

  lemma OnlyLimitsChange(w: World, e: Event)
    requires Step(w, e).limits != w.limits && !e.Configures?
    ensures e.Limits? && MayLimit(w, e.j, e.name)
  {
    hide MayLimit;
  }

  /** Nothing is paused or restored before the snapshot is in the table, and that snapshot is what the deployment configured. */
  lemma SnapshotBeforePause(w0: World, es: seq<Event>, w: World, e: Event)
    requires Reached(w0, es, w) && Step(w, e).limits != w.limits && !e.Configures?
    ensures w.state.phase.Pause? || w.state.phase.Restore?
    ensures Matches(w.state.concurrency, w.manifest, w.configured)
    ensures ValidSnapshot(w.state.concurrency, w.manifest.functions)
  {
    OnlyLimitsChange(w, e);
    hide Step, Reached, Run;
    Reachable(w0, es, w);
    HolderFacts(w, e.j);
  }

  predicate PastSnapshot(s: State) {
    !Idle(s) && !s.phase.Snapshot?
  }

  predicate SameSnapshot(s: State, after: State) {
    after.concurrency == s.concurrency && after.operation == s.operation && !after.phase.Snapshot?
  }

  lemma SnapshotStep(w: World, e: Event)
    requires Inv(w) && PastSnapshot(w.state)
    ensures SameSnapshot(w.state, Step(w, e).state)
  {
    if Step(w, e).state != w.state {
      SettlesOnly(w, e);
      if e.Settles? {
        HolderFacts(w, e.j);
      }
    }
  }

  lemma {:induction false} SnapshotLasts(w: World, es: seq<Event>)
    requires Inv(w) && PastSnapshot(w.state)
    requires forall k | 0 <= k < |es| :: !Idle(Run(w, es[..k]).state)
    ensures SameSnapshot(w.state, Run(w, es).state)
    decreases |es|
  {
    if es != [] {
      hide Inv, Step;
      var v := Step(w, es[0]);
      StepKeeps(w, es[0]);
      SnapshotStep(w, es[0]);
      forall k | 0 <= k < |es| - 1 ensures !Idle(Run(v, es[1..][..k]).state) {
        assert es[..k + 1][1..] == es[1..][..k] && es[..k + 1][0] == es[0];
        assert !Idle(Run(w, es[..k + 1]).state);
      }
      if |es| > 1 {
        assert es[1..][..0] == [];
        assert !Idle(Run(v, es[1..][..0]).state);
        SnapshotLasts(v, es[1..]);
      }
    }
  }

  /** From the pause on until the operation ends, no sequence of steps overwrites its snapshot, and no other operation starts. */
  lemma SnapshotIsNeverOverwritten(w0: World, es: seq<Event>, w: World, fs: seq<Event>)
    requires Reached(w0, es, w) && PastSnapshot(w.state)
    requires forall k | 0 <= k < |fs| :: !Idle(Run(w, fs[..k]).state)
    ensures SameSnapshot(w.state, Run(w, fs).state)
  {
    Reachable(w0, es, w);
    SnapshotLasts(w, fs);
  }

  /** A manifest that lists a function twice can never get past the pause. */
  lemma PauseNeedsDistinctNames(w0: World, es: seq<Event>, w: World, e: Event)
    requires Reached(w0, es, w) && w.state.phase.Pause? && !Step(w, e).state.phase.Pause?
    ensures Step(w, e).state.phase.Drain? && Distinct(w.manifest.functions)
  {
    Reachable(w0, es, w);
    SettlesOnly(w, e);
    HolderFacts(w, e.j);
    SnapshotValidIff(w.state.concurrency, w.manifest.functions);
  }

  // ---- Clearing ----

  /** A live worker that clears data finds every listed function paused, every earlier invocation ended and every upload URL dead. */
  lemma ClearsOnlyInSilence(w0: World, es: seq<Event>, w: World, j: nat)
    requires Reached(w0, es, w) && Acts(w, j) && w.workers[j].stage.Clearing?
    ensures AllPaused(w.limits, Names(w.manifest.functions))
    ensures forall i :: !Running(w, i)
    ensures forall e | e in w.urls :: e <= w.now
    ensures forall k | Acts(w, k) && !w.workers[k].stage.Loaded? :: k == j
  {
    Reachable(w0, es, w);
    HolderFacts(w, j);
    forall k | Acts(w, k) && !w.workers[k].stage.Loaded? ensures k == j {
      HolderFacts(w, k);
    }
  }

  /** Data only disappears through such a worker. */
  lemma OnlyClearingRemoves(w0: World, es: seq<Event>, w: World, e: Event)
    requires Reached(w0, es, w) && !e.Deletes?
    ensures var d := Step(w, e).data;
            w.data.users <= d.users && w.data.objects <= d.objects && forall t :: RowsOf(w.data, t) <= RowsOf(d, t)
  {
  }

  /** At the step that enters the restore phase, users, tables and objects are all empty together. */
  lemma RestoreBeginsEmpty(w0: World, es: seq<Event>, w: World, e: Event)
    requires Reached(w0, es, w) && !w.state.phase.Restore? && Step(w, e).state.phase.Restore?
    ensures var v := Step(w, e);
            && v.data.users == {} && v.data.objects == {} && (forall t | t in v.manifest.tables :: RowsOf(v.data, t) == {})
            && AllPaused(v.limits, Names(v.manifest.functions)) && (forall i :: !Running(v, i))
  {
    Reachable(w0, es, w);
    SettlesOnly(w, e);
    HolderFacts(w, e.j);
    assert Emptied(w.data, w.manifest, Objects, 1) && Emptied(w.data, w.manifest, Users, 1);
    assert Listing(w.data, w.manifest, Objects, 0) == {} && Listing(w.data, w.manifest, Users, 0) == {};
    forall t | t in w.manifest.tables ensures RowsOf(w.data, t) == {} {
      var k :| 0 <= k < |w.manifest.tables| && w.manifest.tables[k] == t;
      assert Listing(w.data, w.manifest, Tables, k) == {};
    }
  }

  // ---- Workers ----

  /** At most one live worker is past its claim. */
  lemma OneWorkerActs(w0: World, es: seq<Event>, w: World, j: nat, k: nat)
    requires Reached(w0, es, w) && Acts(w, j) && Acts(w, k) && !w.workers[j].stage.Loaded? && !w.workers[k].stage.Loaded?
    ensures j == k
  {
    Reachable(w0, es, w);
    HolderFacts(w, j);
    HolderFacts(w, k);
  }

  /** A failed reset stays as it is until somebody resumes it. */
  lemma FailureWaitsForResume(w0: World, es: seq<Event>, w: World, e: Event)
    requires Reached(w0, es, w) && w.state.failed && !e.Resumes?
    ensures Step(w, e).state == w.state
  {
    Reachable(w0, es, w);
    if Step(w, e).state != w.state {
      SettlesOnly(w, e);
      if e.Settles? {
        HolderFacts(w, e.j);
      } else if e.Starts? {
        FailedIsNotIdle(w0, es);
      }
    }
  }

  lemma {:induction false} FailedStaysInProgress(w: World, es: seq<Event>)
    requires Inv(w) && (w.state.failed ==> !Idle(w.state))
    ensures Run(w, es).state.failed ==> !Idle(Run(w, es).state)
    decreases |es|
  {
    hide Inv, Step, Idle;
    if es != [] {
      StepKeeps(w, es[0]);
      FailedInProgressStep(w, es[0]);
      FailedStaysInProgress(Step(w, es[0]), es[1..]);
    }
  }

  lemma FailedInProgressStep(w: World, e: Event)
    requires Inv(w) && (w.state.failed ==> !Idle(w.state))
    ensures Step(w, e).state.failed ==> !Idle(Step(w, e).state)
  {
    if Step(w, e).state != w.state {
      SettlesOnly(w, e);
      if e.Settles? {
        HolderFacts(w, e.j);
      }
      hide Inv, Step;
    }
  }

  lemma FailedIsNotIdle(w0: World, es: seq<Event>)
    requires Fresh(w0) && forall f | f in w0.configured :: w0.configured[f] >= -1
    ensures Run(w0, es).state.failed ==> !Idle(Run(w0, es).state)
  {
    FreshInv(w0);
    FailedStaysInProgress(w0, es);
  }

  // ---- Tokens ----

  lemma CutoffRises(w: World, e: Event)
    requires Inv(w)
    ensures w.state.validAfter <= Step(w, e).state.validAfter && w.final.0 <= Step(w, e).final.0
  {
    if e.Settles? {
      SettledCutoffRises(w, e.j, e.ok, e.u);
    } else {
      FinalStays(w, e);
      hide Step;
      if Step(w, e).state != w.state {
        SettlesOnly(w, e);
      }
    }
  }

  lemma SettledCutoffRises(w: World, j: nat, ok: bool, u: int)
    requires Inv(w)
    ensures w.state.validAfter <= Settle(w, j, ok, u).state.validAfter && w.final.0 <= Settle(w, j, ok, u).final.0
  {
    if SettleCommits(w, j, ok, u) {
      HolderFacts(w, j);
      assert WorkerOk(w.workers[j], w.state, w.now, w.manifest, w.limits, w.configured, w.data);
      hide LimitsOk, PhaseOk, UrlsOk, RequestsOk, WorkersOk, StageFits;
    }
  }

  lemma FinalStays(w: World, e: Event)
    requires !e.Settles?
    ensures Step(w, e).final == w.final
  {
    hide Settle, Insert, MayLimit, Target, Remove, Listing;
  }

  /** The cutoff never moves back: a token refused as too old in a world stays refused in every later one. */
  lemma {:induction false} CutoffNeverMovesBack(w: World, es: seq<Event>)
    requires Inv(w)
    ensures w.state.validAfter <= Run(w, es).state.validAfter
    ensures forall iat | w.state.validAfter != 0 && iat <= w.state.validAfter :: !CheckToken(Run(w, es).state, iat)
    decreases |es|
  {
    if es != [] {
      CutoffRises(w, es[0]);
      StepKeeps(w, es[0]);
      CutoffNeverMovesBack(Step(w, es[0]), es[1..]);
    }
    RunKeeps(w, es);
  }

  /**
   A token is accepted only while no reset is under way, and only if it was issued after the worker
   that made the last final clear step was invoked. After a completed reset that step belongs to it.
   */
  lemma AcceptedTokensAreNewer(w0: World, es: seq<Event>, w: World, iat: int)
    requires Reached(w0, es, w) && CheckToken(w.state, iat)
    ensures Idle(w.state) && (w.final.0 > 0 ==> w.final.0 < iat)
    ensures w.state.phase.Complete? ==> 0 < w.final.0 < iat && w.final.1 == w.state.operation
  {
    Reachable(w0, es, w);
  }
}
