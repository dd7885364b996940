/** What every run of a capture guarantees, from the invariant of CaptureInvariant. */
module CaptureSafety {
  import opened Basics
  import opened CaptureModel
  import opened CaptureRules
  import opened CaptureWorld
  import opened CaptureInvariant

  lemma Reachable(w0: World, created: int, expiryBase: int, ms: seq<Move>)
    requires Created(w0, created, expiryBase)
    ensures Inv(Run(w0, ms).cap, Run(w0, ms).now)
  {
    NewCapInv(w0, created, expiryBase);
    RunKeeps(w0, ms);
  }

  // ---- The revision fence ----

  /** The operation behind a write, a client's or a delivered job's, with the actor's start and latest clock reading. */
  datatype Author = Client(op: ApiOp, at: int) | Delivery(step: WorkOp, phase: Phase, at: int, seen: int)

  function Written(a: Author, r: Record): Option<Record> {
    match a
    case Client(op, _) => ApiAfter(op, r)
    case Delivery(step, phase, _, _) => WorkAfter(step, phase, r)
  }

  function AuthorOf(c: Cap, e: Event): Option<Author> {
    match e
    case Writes(i, op, _) => if i in c.requests then Some(Client(op, c.requests[i].at)) else None
    case Settles(j, step, _) =>
      if j in c.workers then Some(Delivery(step, c.workers[j].phase, c.workers[j].at, c.workers[j].seen)) else None
    case _ => None
  }

  /** The copy that the author of event `e` works on. */
  function CopyOf(c: Cap, e: Event): Record {
    match e
    case Writes(i, _, _) => if i in c.requests then c.requests[i].copy else c.rec
    case Settles(j, _, _) => if j in c.workers then c.workers[j].copy else c.rec
    case _ => c.rec
  }

  /** The author is alive and its clock readings lie between its earlier ones and now. */
  predicate Timely(a: Author, now: int) {
    match a
    case Client(op, at) => 0 <= at <= now <= at + REQUEST_LIMIT && ApiTimes(op, at, now)
    case Delivery(step, _, at, seen) => 0 <= at <= seen <= now <= at + WORKER_LIMIT && WorkTimes(step, seen, now)
  }

  predicate Fits(a: Author, r: Record) {
    a.Delivery? ==> PhaseFits(a.phase, r)
  }

  lemma Writers(c: Cap, now: int, e: Event)
    requires Inv(c, now) && Step(c, now, e).rec != c.rec
    ensures AuthorOf(c, e).Some? && CopyOf(c, e) == c.rec
    ensures var a := AuthorOf(c, e).value;
            Written(a, c.rec) == Some(Step(c, now, e).rec) && Fits(a, c.rec) && Timely(a, now)
  {
    if e.Writes? {
      assert WriteCommits(c, now, e.i, e.op) && RequestOk(c.rec, c.quietBy, now, c.requests[e.i]);
    } else {
      assert SettleCommits(c, now, e.j, e.step) && WorkerOk(c.rec, c.quietBy, c.bucket, now, c.workers[e.j]);
    }
  }

  lemma WrittenKeepsShape(a: Author, r: Record, now: int)
    requires WellFormed(r) && Fits(a, r) && Timely(a, now) && Written(a, r).Some?
    ensures WellFormed(Written(a, r).value) && Written(a, r).value.revision == r.revision + 1
    ensures SameCapture(r, Written(a, r).value)
  {
    match a
    case Client(op, _) => ApiKeepsShape(op, r);
    case Delivery(step, phase, _, seen) => WorkKeepsShape(step, phase, r, seen, now);
  }

  /** Whoever changes the stored record held a copy of exactly that record, and raises its revision by one. */
  lemma SwapReadTheStoredRecord(w0: World, created: int, expiryBase: int, ms: seq<Move>, e: Event)
    requires Created(w0, created, expiryBase)
    requires var w := Run(w0, ms); Step(w.cap, w.now, e).rec != w.cap.rec
    ensures var w := Run(w0, ms);
            var after := Step(w.cap, w.now, e).rec;
            && AuthorOf(w.cap, e).Some? && CopyOf(w.cap, e) == w.cap.rec
            && Written(AuthorOf(w.cap, e).value, w.cap.rec) == Some(after)
            && after.revision == w.cap.rec.revision + 1
  {
    Reachable(w0, created, expiryBase, ms);
    var w := Run(w0, ms);
    Writers(w.cap, w.now, e);
    WrittenKeepsShape(AuthorOf(w.cap, e).value, w.cap.rec, w.now);
  }

  ghost predicate Overtaken(c: Cap, j: nat) {
    j in c.workers ==> c.workers[j].copy.revision < c.rec.revision
  }

  predicate Redelivers(m: Move, j: nat) {
    m.On? && m.event.Delivers? && m.event.j == j
  }

  lemma OvertakenCopyStays(c: Cap, now: int, e: Event, j: nat)
    requires Overtaken(c, j) && !(e.Delivers? && e.j == j)
    ensures var d := Step(c, now, e);
            j in d.workers ==> j in c.workers && d.workers[j].copy == c.workers[j].copy
  {
    match e
    case Writes(_, _, _) =>
    case Settles(k, step, reported) =>
      if k == j {
        assert !SettleCommits(c, now, j, step);
      }
    case _ =>
  }

  lemma OvertakenStep(w: World, m: Move, j: nat)
    requires Inv(w.cap, w.now) && Overtaken(w.cap, j) && !Redelivers(m, j)
    ensures Overtaken(Advance(w, m).cap, j)
  {
    if m.On? {
      OvertakenCopyStays(w.cap, w.now, m.event, j);
      if Step(w.cap, w.now, m.event).rec != w.cap.rec {
        Writers(w.cap, w.now, m.event);
        WrittenKeepsShape(AuthorOf(w.cap, m.event).value, w.cap.rec, w.now);
      }
    }
  }

  /**
   Once a cancel, a retry, a recovery read or any other write has replaced the record a worker
   read, nothing that worker computes reaches the table, whatever happens in between.
   */
  lemma {:induction false} OvertakenWorkerNeverLands(w: World, ms: seq<Move>, j: nat, step: WorkOp, reported: bool)
    requires Inv(w.cap, w.now) && Overtaken(w.cap, j)
    requires forall m | m in ms :: !Redelivers(m, j)
    ensures var v := Run(w, ms); Settle(v.cap, v.now, j, step, reported).rec == v.cap.rec
    decreases |ms|
  {
    if ms != [] {
      OvertakenStep(w, ms[0], j);
      MoveKeeps(w, ms[0]);
      OvertakenWorkerNeverLands(Advance(w, ms[0]), ms[1..], j, step, reported);
    }
  }

  // ---- Shape of every stored record ----

  lemma StoredRecordsAreWellFormed(w0: World, created: int, expiryBase: int, ms: seq<Move>)
    requires Created(w0, created, expiryBase)
    ensures var r := Run(w0, ms).cap.rec;
            && (r.work.Validate? <==> r.state.Finalizing?)
            && (r.work.Extract? <==> r.state.Ready? && r.extraction == Some(Pending))
            && (r.state.Ready? && r.work.Cleanup? ==> r.due == r.deleteAfter)
            && (r.work.NoWork? ==> r.state.Expired? && r.assets == [] && r.processed == [] && r.uploads == [])
            && (r.state.Expired? || r.state.Cancelled? ==> r.extraction.None? && r.reviewed.None?)
            && (RecordItem(r).ttl.Some? <==> r.work.NoWork?)
  {
    Reachable(w0, created, expiryBase, ms);
  }

  lemma AssetsWritten(a: Author, r: Record)
    requires Written(a, r).Some? && Written(a, r).value.assets != r.assets
    ensures (a.Client? && a.op.Finalize? && r.state.Uploading?) || (a.Delivery? && a.step.FinishCleanup?)
  {
  }

  /** Between finalize and the end of clean-up no write touches the pinned assets. */
  lemma PinnedAssetsStay(w0: World, created: int, expiryBase: int, ms: seq<Move>, e: Event)
    requires Created(w0, created, expiryBase)
    requires var w := Run(w0, ms); Step(w.cap, w.now, e).rec.assets != w.cap.rec.assets
    ensures (e.Writes? && e.op.Finalize? && Run(w0, ms).cap.rec.state.Uploading?) || (e.Settles? && e.step.FinishCleanup?)
  {
    Reachable(w0, created, expiryBase, ms);
    var w := Run(w0, ms);
    Writers(w.cap, w.now, e);
    AssetsWritten(AuthorOf(w.cap, e).value, w.cap.rec);
  }

  // ---- Clean-up is final ----

  /** A record without pending work is never written again. */
  lemma Finished(a: Author, r: Record)
    requires WellFormed(r) && r.work.NoWork? && Fits(a, r)
    ensures Written(a, r).None?
  {
  }

  lemma {:induction false} NothingComesBack(w: World, ms: seq<Move>)
    requires Inv(w.cap, w.now) && w.cap.rec.work.NoWork?
    ensures Run(w, ms).cap.rec == w.cap.rec && Run(w, ms).cap.bucket == Bucket({}, {})
    decreases |ms|
  {
    if ms != [] {
      if ms[0].On? && Step(w.cap, w.now, ms[0].event).rec != w.cap.rec {
        Writers(w.cap, w.now, ms[0].event);
        Finished(AuthorOf(w.cap, ms[0].event).value, w.cap.rec);
      }
      MoveKeeps(w, ms[0]);
      NothingComesBack(Advance(w, ms[0]), ms[1..]);
    }
  }

  /**
   When a run `ms` has set the pending work to nothing, no object is left under either prefix, and
   none appears in any continuation `ns`: every upload URL is dead and no worker can still write.
   */
  lemma CleanupIsFinal(w0: World, created: int, expiryBase: int, ms: seq<Move>, ns: seq<Move>)
    requires Created(w0, created, expiryBase) && Run(w0, ms).cap.rec.work.NoWork?
    ensures Run(w0, ms + ns).cap.bucket == Bucket({}, {})
    ensures Run(w0, ms + ns).cap.rec == Run(w0, ms).cap.rec
  {
    Reachable(w0, created, expiryBase, ms);
    NothingComesBack(Run(w0, ms), ns);
    RunAppend(w0, ms, ns);
  }

  /** When a worker starts to delete, uploads and processed objects can no longer appear. */
  lemma DeletionStartsInQuiet(w0: World, created: int, expiryBase: int, ms: seq<Move>, j: nat)
    requires Created(w0, created, expiryBase)
    requires var c := Run(w0, ms).cap; j in c.workers && c.workers[j].phase.Cleaning?
    ensures var w := Run(w0, ms);
            && (forall e | e in w.cap.urls :: e <= w.now)
            && (forall i | i in w.cap.requests && MaySign(w.cap.requests[i]) :: !RequestAlive(w.cap.requests[i], w.now))
            && (forall k | k in w.cap.workers && w.cap.workers[k].phase.Validating? :: !WorkerAlive(w.cap.workers[k], w.now))
  {
    Reachable(w0, created, expiryBase, ms);
    var w := Run(w0, ms);
    var c := w.cap;
    assert WorkerOk(c.rec, c.quietBy, c.bucket, w.now, c.workers[j]);
    forall i | i in c.requests && MaySign(c.requests[i]) ensures !RequestAlive(c.requests[i], w.now) {
      assert RequestOk(c.rec, c.quietBy, w.now, c.requests[i]);
    }
    forall k | k in c.workers && c.workers[k].phase.Validating? ensures !WorkerAlive(c.workers[k], w.now) {
      assert WorkerOk(c.rec, c.quietBy, c.bucket, w.now, c.workers[k]);
    }
  }

  // ---- Bounded deliveries ----

  /** No client action: requests may read, and a read may recover a stuck extraction. */
  predicate Undisturbed(m: Move) {
    m.On? && m.event.Writes? ==> m.event.op.Recover?
  }

  /** A delivery that gets past its fences and commits its first write. */
  predicate Effective(w: World, m: Move, work: Work) {
    m.On? && m.event.Settles? && SettleCommits(w.cap, w.now, m.event.j, m.event.step)
    && w.cap.workers[m.event.j].phase.Loaded? && w.cap.rec.work == work
  }

  function Effects(w: World, ms: seq<Move>, work: Work): nat
    decreases |ms|
  {
    if ms == [] then 0
    else (if Effective(w, ms[0], work) then 1 else 0) + Effects(Advance(w, ms[0]), ms[1..], work)
  }

  /** How many deliveries the record can still absorb before it settles; falls with every claim. */
  function Left(r: Record, work: Work): int {
    if work.Validate? then if r.state.Finalizing? then 4 - r.attempts else 0
    else if r.work.Extract? then 4 - r.extractionAttempts
    else if r.state.Finalizing? then 4
    else 0
  }

  lemma UsesUp(a: Author, r: Record, work: Work)
    requires WellFormed(r) && Fits(a, r) && Written(a, r).Some? && (work.Validate? || work.Extract?)
    requires a.Client? ==> a.op.Recover?
    ensures Left(Written(a, r).value, work) + (if a.Delivery? && a.phase.Loaded? && r.work == work then 1 else 0) <= Left(r, work)
  {
  }

  lemma EffectsAreWrites(w: World, m: Move, work: Work)
    requires Inv(w.cap, w.now) && Effective(w, m, work)
    ensures Step(w.cap, w.now, m.event).rec != w.cap.rec
  {
    var c, e := w.cap, m.event;
    assert WorkerOk(c.rec, c.quietBy, c.bucket, w.now, c.workers[e.j]);
    WorkKeepsShape(e.step, c.workers[e.j].phase, c.rec, c.workers[e.j].seen, w.now);
  }

  lemma LeftFalls(w: World, m: Move, work: Work)
    requires Inv(w.cap, w.now) && Undisturbed(m) && (work.Validate? || work.Extract?)
    ensures Left(Advance(w, m).cap.rec, work) + (if Effective(w, m, work) then 1 else 0) <= Left(w.cap.rec, work)
  {
    if Effective(w, m, work) {
      EffectsAreWrites(w, m, work);
    }
    if m.On? && Step(w.cap, w.now, m.event).rec != w.cap.rec {
      Writers(w.cap, w.now, m.event);
      UsesUp(AuthorOf(w.cap, m.event).value, w.cap.rec, work);
    }
  }

  lemma {:induction false} EffectsAreBounded(w: World, ms: seq<Move>, work: Work)
    requires Inv(w.cap, w.now) && (work.Validate? || work.Extract?)
    requires forall m | m in ms :: Undisturbed(m)
    ensures Left(Run(w, ms).cap.rec, work) + Effects(w, ms, work) <= Left(w.cap.rec, work)
    decreases |ms|
  {
    if ms != [] {
      LeftFalls(w, ms[0], work);
      MoveKeeps(w, ms[0]);
      EffectsAreBounded(Advance(w, ms[0]), ms[1..], work);
    }
  }

  /**
   Without client actions at most four deliveries have an effect on a finalizing record and at most
   four on a pending extraction, and the fourth settles it, even when workers die after their claim.
   */
  lemma FourDeliveriesSettle(w0: World, created: int, expiryBase: int, ms: seq<Move>, ns: seq<Move>)
    requires Created(w0, created, expiryBase) && forall m | m in ns :: Undisturbed(m)
    ensures var w := Run(w0, ms);
            && Effects(w, ns, Validate) <= 4 && Effects(w, ns, Extract) <= 4
            && (Effects(w, ns, Validate) == 4 ==> !Run(w, ns).cap.rec.state.Finalizing?)
            && (Effects(w, ns, Extract) == 4 ==> !Run(w, ns).cap.rec.work.Extract?)
  {
    Reachable(w0, created, expiryBase, ms);
    var w := Run(w0, ms);
    EffectsAreBounded(w, ns, Validate);
    EffectsAreBounded(w, ns, Extract);
    RunKeeps(w, ns);
  }

  // ---- Retention ----

  lemma BecomesReady(a: Author, r: Record, now: int)
    requires WellFormed(r) && Fits(a, r) && Timely(a, now) && !r.state.Ready?
    requires Written(a, r).Some? && Written(a, r).value.state.Ready?
    ensures a.Delivery? && a.step.Promote? && a.phase.Validating? && r.deleteAfter == 0
    ensures a.step.t1 < r.expiresAt && now < r.expiresAt + WORKER_LIMIT
    ensures Written(a, r).value.deleteAfter == a.step.t2 + RETENTION
  {
  }

  /**
   A capture becomes ready at most once, in the write that also stores its ready event; the worker
   checked the clock before the session ended and lands within its own lifetime of that check.
   */
  lemma PromotionIsInTime(w0: World, created: int, expiryBase: int, ms: seq<Move>, e: Event)
    requires Created(w0, created, expiryBase)
    requires var w := Run(w0, ms); !w.cap.rec.state.Ready? && Step(w.cap, w.now, e).rec.state.Ready?
    ensures var w := Run(w0, ms);
            var r := Step(w.cap, w.now, e).rec;
            && w.cap.outbox.promotions == 0 && Step(w.cap, w.now, e).outbox == Outbox(Some(r), 1)
            && e.Settles? && e.step.Promote? && e.step.t1 < r.expiresAt
            && w.now < r.expiresAt + WORKER_LIMIT
            && r.deleteAfter == e.step.t2 + RETENTION
  {
    Reachable(w0, created, expiryBase, ms);
    var w := Run(w0, ms);
    Writers(w.cap, w.now, e);
    BecomesReady(AuthorOf(w.cap, e).value, w.cap.rec, w.now);
    WrittenKeepsShape(AuthorOf(w.cap, e).value, w.cap.rec, w.now);
  }

  lemma {:induction false} TimesOfRecord(w: World, ms: seq<Move>)
    requires Inv(w.cap, w.now)
    ensures Run(w, ms).cap.rec.createdAt == w.cap.rec.createdAt && Run(w, ms).cap.rec.expiresAt == w.cap.rec.expiresAt
    decreases |ms|
  {
    if ms != [] {
      if ms[0].On? && Step(w.cap, w.now, ms[0].event).rec != w.cap.rec {
        Writers(w.cap, w.now, ms[0].event);
        WrittenKeepsShape(AuthorOf(w.cap, ms[0].event).value, w.cap.rec, w.now);
      }
      MoveKeeps(w, ms[0]);
      TimesOfRecord(Advance(w, ms[0]), ms[1..]);
    }
  }

  /** Every delete deadline falls inside the bucket's ten-day lifecycle, counted from the capture's creation. */
  lemma DeadlineInsideLifecycle(w0: World, created: int, expiryBase: int, ms: seq<Move>)
    requires Created(w0, created, expiryBase)
    ensures var r := Run(w0, ms).cap.rec;
            && r.deleteAfter < created + REQUEST_LIMIT + SESSION_LIFETIME + WORKER_LIMIT + RETENTION
            && r.deleteAfter < created + BUCKET_LIFECYCLE
  {
    Reachable(w0, created, expiryBase, ms);
    NewCapInv(w0, created, expiryBase);
    TimesOfRecord(w0, ms);
  }

  // ---- When a deadline stays below creation plus eight days ----

  /** The event makes the capture ready, for a worker that was invoked at `at`. */
  predicate Promotion(w: World, e: Event, at: int) {
    && e.Settles? && e.j in w.cap.workers && w.cap.workers[e.j].at == at
    && !w.cap.rec.state.Ready? && Step(w.cap, w.now, e).rec.state.Ready?
  }

  const EIGHT_DAYS := SESSION_LIFETIME + RETENTION

  lemma PromotionTimes(w0: World, created: int, expiryBase: int, ms: seq<Move>, e: Event, at: int)
    requires Created(w0, created, expiryBase) && Promotion(Run(w0, ms), e, at)
    ensures at < expiryBase + SESSION_LIFETIME
    ensures var w := Run(w0, ms); Step(w.cap, w.now, e).rec.deleteAfter <= at + WORKER_LIMIT + RETENTION
  {
    Reachable(w0, created, expiryBase, ms);
    NewCapInv(w0, created, expiryBase);
    TimesOfRecord(w0, ms);
    PromotionIsInTime(w0, created, expiryBase, ms, e);
    var w := Run(w0, ms);
    Writers(w.cap, w.now, e);
    WrittenKeepsShape(AuthorOf(w.cap, e).value, w.cap.rec, w.now);
  }

  /**
   Every promotion by a worker invoked at `at`, in whatever run of a capture created at `created`, sets a
   deadline below creation plus 24 hours plus 7 days, exactly when the worker must have ended 24 hours
   after creation, or was invoked too late to promote anything.
   */
  lemma DeadlineWithinEightDaysIff(created: int, expiryBase: int, at: int)
    requires 0 <= created <= expiryBase <= created + REQUEST_LIMIT
    ensures (forall w0, ms, e | Created(w0, created, expiryBase) && Promotion(Run(w0, ms), e, at)
               :: Step(Run(w0, ms).cap, Run(w0, ms).now, e).rec.deleteAfter < created + EIGHT_DAYS)
            <==> at + WORKER_LIMIT < created + SESSION_LIFETIME || at >= expiryBase + SESSION_LIFETIME
  {
    forall w0, ms, e | Created(w0, created, expiryBase) && Promotion(Run(w0, ms), e, at)
      ensures at < expiryBase + SESSION_LIFETIME
      ensures Step(Run(w0, ms).cap, Run(w0, ms).now, e).rec.deleteAfter <= at + WORKER_LIMIT + RETENTION
    {
      PromotionTimes(w0, created, expiryBase, ms, e, at);
    }
    if created + SESSION_LIFETIME <= at + WORKER_LIMIT && at < expiryBase + SESSION_LIFETIME {
      var w0, ms, e := DeadlineCanReachEightDays(created, expiryBase, at);
      assert Created(w0, created, expiryBase) && Promotion(Run(w0, ms), e, at);
    }
  }

  lemma OneMove(w: World, m: Move)
    ensures Run(w, [m]) == Advance(w, m)
  {
    assert Run(w, [m]) == Run(Advance(w, m), [m][1..]);
  }

  lemma ThreeMoves(w: World, m1: Move, m2: Move, m3: Move)
    ensures Run(w, [m1, m2, m3]) == Advance(Advance(Advance(w, m1), m2), m3)
  {
    OneMove(w, m1);
    OneMove(Advance(w, m1), m2);
    OneMove(Advance(Advance(w, m1), m2), m3);
    assert [m1, m2, m3] == [m1] + ([m2] + [m3]);
    RunAppend(w, [m1], [m2] + [m3]);
    RunAppend(Advance(w, m1), [m2], [m3]);
  }

  // A capture whose two sides are uploaded and finalized as soon as it exists, at time `b`.
  const FRONT := Upload("f", Front, "hf", 4, "o1")
  const BACK := Upload("b", Back, "hb", 4, "o2")
  const IDS := map[Front := "f", Back := "b"]
  const HEADS := [Asset("f", Front, "v1", "hf", 4), Asset("b", Back, "v2", "hb", 4)]

  function New(c: int, b: int): Record {
    NewRecord("c", 1, "k", "id_card", "p", "en", c, b)
  }

  function Uploaded(c: int, b: int): Record {
    New(c, b).(uploads := [FRONT] + [BACK], slots := IDS, revision := 3)
  }

  function Uploads(c: int, b: int): World {
    var w1 := Advance(World(b, NewCap(New(c, b))), On(Reads(0)));
    var w2 := Advance(w1, On(Writes(0, AddUpload(b, 1, FRONT), true)));
    Advance(w2, On(Writes(0, AddUpload(b, 2, BACK), true)))
  }

  lemma UploadsEnd(c: int, b: int)
    ensures var w := Uploads(c, b);
            && w.cap.rec == Uploaded(c, b) && w.now == b && w.cap.outbox == Outbox(None, 0)
            && w.cap.requests == map[0 := Request(Uploaded(c, b), b)] && w.cap.workers == map[]
  {
    var w1 := Advance(World(b, NewCap(New(c, b))), On(Reads(0)));
    var w2 := Advance(w1, On(Writes(0, AddUpload(b, 1, FRONT), true)));
    assert w2.cap.rec == New(c, b).(uploads := [FRONT], slots := map[Front := "f"], revision := 2);
  }

  /** Finalized at `b`, to be validated for the first time. */
  predicate JustFinalized(w: World, b: int) {
    var r := w.cap.rec;
    && w.now == b && w.cap.workers == map[] && w.cap.outbox == Outbox(None, 0)
    && AwaitsValidation(r, b) && r.attempts == 0 && r.generation == 1 && r.expiresAt == b + SESSION_LIFETIME
    && |r.assets| == 2 && r.assets[0].slot == Front && r.assets[1].slot == Back
  }

  function Finalization(b: int): ApiOp {
    Finalize(b, "done", 3, IDS, HEADS, b)
  }

  lemma FinalizeWrites(c: int, b: int)
    ensures var r := Uploaded(c, b);
            ApiAfter(Finalization(b), r) == Some(r.(assets := HEADS, finalizeKey := "done", state := Finalizing,
              work := Validate, due := b, generation := r.generation + 1, revision := r.revision + 1))
  {
    var uploads := Uploaded(c, b).uploads;
    assert uploads[1..] == [BACK];
    assert FindUpload(uploads, "b") == FindUpload([BACK], "b") == Some(BACK);
    assert FindUpload(uploads, "f") == Some(FRONT);
  }

  lemma FinalizeEnds(c: int, b: int)
    requires 0 <= b
    ensures JustFinalized(Advance(Uploads(c, b), On(Writes(0, Finalization(b), true))), b)
  {
    UploadsEnd(c, b);
    FinalizeWrites(c, b);
    assert WriteCommits(Uploads(c, b).cap, b, 0, Finalization(b));
  }

  lemma SomeRunFinalizes(c: int, b: int) returns (w0: World, ms: seq<Move>)
    requires 0 <= c <= b <= c + REQUEST_LIMIT
    ensures Created(w0, c, b) && JustFinalized(Run(w0, ms), b)
  {
    w0 := World(b, NewCap(New(c, b)));
    var m1, m2, m3 := On(Reads(0)), On(Writes(0, AddUpload(b, 1, FRONT), true)), On(Writes(0, AddUpload(b, 2, BACK), true));
    var m4 := On(Writes(0, Finalization(b), true));
    FinalizeEnds(c, b);
    ThreeMoves(w0, m1, m2, m3);
    OneMove(Uploads(c, b), m4);
    RunAppend(w0, [m1, m2, m3], [m4]);
    ms := [m1, m2, m3] + [m4];
  }

  function Claimed(w: World, wait: nat, at: int): World {
    Advance(Advance(Advance(w, Tick(wait)), On(Delivers(0, Job(1, Validate)))), On(Settles(0, ClaimValidation(at), true)))
  }

  const OUT1 := On(WritesProcessed(0, Asset("", Front, "v3", "pf", 4), "x", true))
  const OUT2 := On(WritesProcessed(0, Asset("", Back, "v4", "pb", 4), "y", true))

  lemma ClaimEnds(w: World, b: int, at: int)
    requires JustFinalized(w, b) && b <= at < b + SESSION_LIFETIME
    ensures var v := Claimed(w, at - b, at);
            && v.now == at && v.cap.rec.assets == w.cap.rec.assets && v.cap.rec.expiresAt == b + SESSION_LIFETIME && v.cap.rec.state.Finalizing?
            && v.cap.workers == map[0 := Worker(v.cap.rec, at, at, Validating([]))] && v.cap.outbox == w.cap.outbox
  {
  }

  /** The next image is written by a worker that still has time. */
  lemma ImageWritten(v: World, r: Record, at: int, written: seq<Asset>, asset: Asset, name: string)
    requires v.now == at && v.cap.rec == r && v.cap.workers == map[0 := Worker(r, at, at, Validating(written))]
    requires |written| < |r.assets| && asset.slot == r.assets[|written|].slot
    ensures Advance(v, On(WritesProcessed(0, asset, name, true)))
         == v.(cap := v.cap.(workers := map[0 := Worker(r, at, at, Validating(written + [asset]))],
                             bucket := v.cap.bucket.(processed := v.cap.bucket.processed + {name})))
  {
  }

  lemma ValidationEnds(v: World, r: Record, at: int)
    requires v.now == at && v.cap.rec == r && v.cap.workers == map[0 := Worker(r, at, at, Validating([]))]
    requires v.cap.outbox.event.None? && at < r.expiresAt && r.state.Finalizing?
    requires |r.assets| == 2 && r.assets[0].slot == Front && r.assets[1].slot == Back
    ensures var u := Advance(Advance(Advance(v, OUT1), OUT2), Tick(WORKER_LIMIT));
            var e := Settles(0, Promote(at, at + WORKER_LIMIT, at + WORKER_LIMIT, false), true);
            Promotion(u, e, at) && Step(u.cap, u.now, e).rec.deleteAfter == at + WORKER_LIMIT + RETENTION
  {
    ImageWritten(v, r, at, [], OUT1.event.asset, "x");
    assert [] + [OUT1.event.asset] == [OUT1.event.asset];
    ImageWritten(Advance(v, OUT1), r, at, [OUT1.event.asset], OUT2.event.asset, "y");
    var written := [OUT1.event.asset] + [OUT2.event.asset];
    var u := Advance(Advance(v, OUT1), OUT2);
    assert u.cap.workers == map[0 := Worker(r, at, at, Validating(written))];
    PromotesLast(u, r, at, written);
  }

  /** With both images written, the worker promotes on its last moment the record that it checked at its first. */
  lemma PromotesLast(v: World, r: Record, at: int, written: seq<Asset>)
    requires v.now == at && v.cap.rec == r && v.cap.workers == map[0 := Worker(r, at, at, Validating(written))]
    requires v.cap.outbox.event.None? && at < r.expiresAt && r.state.Finalizing? && |r.assets| == |written| == 2
    ensures var u := Advance(v, Tick(WORKER_LIMIT));
            var e := Settles(0, Promote(at, at + WORKER_LIMIT, at + WORKER_LIMIT, false), true);
            Promotion(u, e, at) && Step(u.cap, u.now, e).rec.deleteAfter == at + WORKER_LIMIT + RETENTION
  {
  }

  /** Any other worker can reach creation plus eight days: it checks the clock at once and lands with its last breath. */
  lemma DeadlineCanReachEightDays(created: int, expiryBase: int, at: int) returns (w0: World, ms: seq<Move>, e: Event)
    requires 0 <= created <= expiryBase <= created + REQUEST_LIMIT
    requires created + SESSION_LIFETIME <= at + WORKER_LIMIT && at < expiryBase + SESSION_LIFETIME
    ensures Created(w0, created, expiryBase) && Promotion(Run(w0, ms), e, at)
    ensures var w := Run(w0, ms);
            Step(w.cap, w.now, e).rec.deleteAfter == at + WORKER_LIMIT + RETENTION >= created + EIGHT_DAYS
  {
    var before;
    w0, before := SomeRunFinalizes(created, expiryBase);
    var w := Run(w0, before);
    var claim := [Tick(at - expiryBase), On(Delivers(0, Job(1, Validate))), On(Settles(0, ClaimValidation(at), true))];
    var v := Claimed(w, at - expiryBase, at);
    e := Settles(0, Promote(at, at + WORKER_LIMIT, at + WORKER_LIMIT, false), true);
    ClaimEnds(w, expiryBase, at);
    ValidationEnds(v, v.cap.rec, at);
    hide Run, Advance, Step, Promotion, JustFinalized, Created;
    ThreeMoves(w, claim[0], claim[1], claim[2]);
    ThreeMoves(v, OUT1, OUT2, Tick(WORKER_LIMIT));
    RunAppend(w, claim, [OUT1, OUT2, Tick(WORKER_LIMIT)]);
    RunAppend(w0, before, claim + [OUT1, OUT2, Tick(WORKER_LIMIT)]);
    ms := before + (claim + [OUT1, OUT2, Tick(WORKER_LIMIT)]);
  }

  lemma LeavesReady(a: Author, r: Record, now: int)
    requires WellFormed(r) && Fits(a, r) && Timely(a, now) && r.state.Ready? && now < r.deleteAfter
    requires Written(a, r).Some? && !(a.Client? && a.op.Cancel?)
    ensures Written(a, r).value.state.Ready? && Written(a, r).value.deleteAfter == r.deleteAfter
  {
  }

  lemma ReadyStays(w: World, m: Move)
    requires Inv(w.cap, w.now) && w.cap.rec.state.Ready?
    requires var v := Advance(w, m); !v.cap.everCancelled && v.now < w.cap.rec.deleteAfter
    ensures var v := Advance(w, m); v.cap.rec.state.Ready? && v.cap.rec.deleteAfter == w.cap.rec.deleteAfter
  {
    if m.On? && Step(w.cap, w.now, m.event).rec != w.cap.rec {
      Writers(w.cap, w.now, m.event);
      LeavesReady(AuthorOf(w.cap, m.event).value, w.cap.rec, w.now);
    }
  }

  /** Only clean-up deletes, and clean-up has first made the record expired. */
  lemma DeletionNeedsExpiry(w: World, m: Move)
    requires Inv(w.cap, w.now) && !w.cap.rec.state.Expired?
    ensures var v := Advance(w, m);
            w.cap.bucket.uploads <= v.cap.bucket.uploads && w.cap.bucket.processed <= v.cap.bucket.processed
  {
    if m.On? {
      if m.event.DeletesVersion? {
        NoCleaningYet(w.cap, w.now, m.event.j);
      } else {
        hide Inv;
        OnlyDeletesRemove(w.cap, w.now, m.event);
      }
    }
  }

  lemma NoCleaningYet(c: Cap, now: int, j: nat)
    requires Inv(c, now) && !c.rec.state.Expired?
    ensures forall name :: DeleteVersion(c, now, j, name) == c
  {
    if j in c.workers {
      assert WorkerOk(c.rec, c.quietBy, c.bucket, now, c.workers[j]);
    }
  }

  lemma OnlyDeletesRemove(c: Cap, now: int, e: Event)
    requires !e.DeletesVersion?
    ensures c.bucket.uploads <= Step(c, now, e).bucket.uploads && c.bucket.processed <= Step(c, now, e).bucket.processed
  {
    hide ApiAfter, WorkAfter, WorkTimes, DeleteVersion;
  }

  lemma {:induction false} ClockAndCancelOnlyRise(w: World, ms: seq<Move>)
    ensures w.now <= Run(w, ms).now && (w.cap.everCancelled ==> Run(w, ms).cap.everCancelled)
    decreases |ms|
  {
    if ms != [] {
      ClockAndCancelOnlyRise(Advance(w, ms[0]), ms[1..]);
    }
  }

  lemma {:induction false} EvidenceKept(w: World, ms: seq<Move>)
    requires Inv(w.cap, w.now) && w.cap.rec.state.Ready?
    requires !Run(w, ms).cap.everCancelled && Run(w, ms).now < w.cap.rec.deleteAfter
    ensures var v := Run(w, ms);
            && v.cap.rec.state.Ready?
            && w.cap.bucket.uploads <= v.cap.bucket.uploads && w.cap.bucket.processed <= v.cap.bucket.processed
    decreases |ms|
  {
    if ms != [] {
      ClockAndCancelOnlyRise(Advance(w, ms[0]), ms[1..]);
      ReadyStays(w, ms[0]);
      DeletionNeedsExpiry(w, ms[0]);
      MoveKeeps(w, ms[0]);
      EvidenceKept(Advance(w, ms[0]), ms[1..]);
    }
  }

  /** Ready evidence that nobody cancels keeps every one of its objects until the delete deadline. */
  lemma UncancelledEvidenceIsKept(w0: World, created: int, expiryBase: int, ms: seq<Move>, ns: seq<Move>)
    requires Created(w0, created, expiryBase)
    requires var w := Run(w0, ms);
             w.cap.rec.state.Ready? && !Run(w, ns).cap.everCancelled && Run(w, ns).now < w.cap.rec.deleteAfter
    ensures var w, v := Run(w0, ms), Run(w0, ms + ns);
            && v.cap.rec.state.Ready?
            && w.cap.bucket.uploads <= v.cap.bucket.uploads && w.cap.bucket.processed <= v.cap.bucket.processed
  {
    Reachable(w0, created, expiryBase, ms);
    EvidenceKept(Run(w0, ms), ns);
    RunAppend(w0, ms, ns);
  }
}
