/** What every run of a capture keeps. */
module CaptureInvariant {
  import opened Basics
  import opened CaptureModel
  import opened CaptureRules
  import opened CaptureWorld

  /** A copy is the stored record itself unless a later revision has replaced it. */
  ghost predicate Faithful(copy: Record, rec: Record) {
    && copy.expiresAt == rec.expiresAt && copy.createdAt == rec.createdAt && WellFormed(copy)
    && (copy.revision < rec.revision || copy == rec)
  }

  /** An upload URL can be issued from such a copy until the request ends. */
  ghost predicate MaySign(q: Request) {
    q.copy.state.Uploading? && q.at < q.copy.expiresAt
  }

  ghost predicate RequestOk(rec: Record, quietBy: int, now: int, q: Request) {
    && Faithful(q.copy, rec) && 0 <= q.at <= now
    && (MaySign(q) ==> q.at + URL_HORIZON <= quietBy)
    && (!q.copy.state.Uploading? ==> quietBy <= q.at + URL_HORIZON)
  }

  /** A worker that may still write processed objects holds the lease of the record it claimed, or is outlived by a cancellation. */
  ghost predicate ValidatorFits(rec: Record, quietBy: int, now: int, w: Worker) {
    && quietBy <= w.at + URL_HORIZON
    && w.copy.leaseUntil == w.copy.due == w.seen + LEASE
    && (|| !WorkerAlive(w, now)
        || (rec.state.Finalizing? && w.copy == rec && w.at + WORKER_LIMIT < rec.leaseUntil)
        || (rec.state.Cancelled? && w.at + WORKER_LIMIT < rec.due))
  }

  ghost predicate DeleterFits(rec: Record, quietBy: int, bucket: Bucket, now: int, w: Worker)
    requires w.phase.Cleaning?
  {
    && rec.state.Expired? && quietBy <= now
    && 0 <= w.phase.emptied <= 2
    && (w.copy == rec && w.phase.emptied >= 1 ==> bucket.uploads == {})
    && (w.copy == rec && w.phase.emptied >= 2 ==> bucket.processed == {})
  }

  ghost predicate WorkerOk(rec: Record, quietBy: int, bucket: Bucket, now: int, w: Worker) {
    && Faithful(w.copy, rec) && 0 <= w.at <= w.seen <= now && PhaseFits(w.phase, w.copy)
    && (w.phase.Loaded? && !w.copy.state.Uploading? ==> quietBy <= w.at + URL_HORIZON)
    && (w.phase.Validating? ==> ValidatorFits(rec, quietBy, now, w))
    && (w.phase.Cleaning? ==> DeleterFits(rec, quietBy, bucket, now, w))
  }

  ghost predicate Holds(rec: Record, w: Worker) {
    w.phase.Validating? && w.copy == rec
  }

  /** No two workers hold the claim that the stored record shows. */
  ghost predicate OneHolder(rec: Record, workers: map<nat, Worker>) {
    forall j, k | j in workers && k in workers && Holds(rec, workers[j]) && Holds(rec, workers[k]) :: j == k
  }

  ghost predicate RequestsOk(rec: Record, quietBy: int, now: int, requests: map<nat, Request>) {
    forall i | i in requests :: RequestOk(rec, quietBy, now, requests[i])
  }

  ghost predicate WorkersOk(rec: Record, quietBy: int, bucket: Bucket, now: int, workers: map<nat, Worker>) {
    && (forall j | j in workers :: WorkerOk(rec, quietBy, bucket, now, workers[j]))
    && OneHolder(rec, workers)
  }

  /** URLs die in time: each lives at most 300 s and none outlives `quietBy`. */
  ghost predicate UrlsOk(rec: Record, quietBy: int, urls: set<int>, now: int) {
    && (forall e | e in urls :: e <= quietBy && e <= now + UPLOAD_LIFETIME)
    && (if rec.state.Uploading? then quietBy == rec.expiresAt + URL_HORIZON else quietBy <= now + URL_HORIZON)
    && quietBy <= rec.expiresAt + URL_HORIZON
  }

  /** Three claims at growing distances put the end of uploads well before the session's end. */
  ghost predicate Spaced(rec: Record, quietBy: int) {
    var s := quietBy - URL_HORIZON;
    || s + REQUEST_LIMIT <= rec.expiresAt
    || rec.attempts == 0
    || (rec.attempts == 1 && s + 60 <= rec.due)
    || (rec.attempts == 2 && s + 180 <= rec.due)
  }

  /** On every route into clean-up the uploads are dead before the work is due. */
  ghost predicate RoutesOk(rec: Record, quietBy: int, bucket: Bucket, now: int) {
    && (rec.work.Cleanup? ==> quietBy <= rec.due)
    && (rec.state.Ready? ==> quietBy <= rec.deleteAfter)
    && (rec.state.Finalizing? ==> Spaced(rec, quietBy))
    && (rec.state.Failed? ==> quietBy - URL_HORIZON + REQUEST_LIMIT <= rec.expiresAt)
    && (rec.work.NoWork? ==> quietBy <= now && bucket == Bucket({}, {}))
  }

  ghost predicate PromotionsOk(rec: Record, outbox: Outbox, everCancelled: bool, now: int) {
    && outbox.promotions <= 1 && (outbox.event.Some? <==> outbox.promotions == 1)
    && (outbox.promotions == 1 <==> rec.deleteAfter > 0)
    && (outbox.event.Some? ==> outbox.event.value.state.Ready? && outbox.event.value.deleteAfter == rec.deleteAfter)
    && (rec.deleteAfter > 0 ==> rec.deleteAfter < rec.expiresAt + WORKER_LIMIT + RETENTION)
    && (rec.state.Cancelled? ==> everCancelled)
    && (rec.state.Expired? && rec.deleteAfter > 0 && !everCancelled ==> rec.deleteAfter <= now)
  }

  /** What the stored data alone satisfies. */
  ghost predicate Stored(c: Cap, now: int) {
    && 0 <= now && 0 <= c.rec.expiresAt && WellFormed(c.rec)
    && UrlsOk(c.rec, c.quietBy, c.urls, now)
    && RoutesOk(c.rec, c.quietBy, c.bucket, now)
    && PromotionsOk(c.rec, c.outbox, c.everCancelled, now)
  }

  ghost predicate Inv(c: Cap, now: int) {
    && Stored(c, now)
    && RequestsOk(c.rec, c.quietBy, now, c.requests)
    && WorkersOk(c.rec, c.quietBy, c.bucket, now, c.workers)
  }

  lemma NewCapInv(w: World, created: int, expiryBase: int)
    requires Created(w, created, expiryBase)
    ensures Inv(w.cap, w.now)
  {
  }

  lemma TickKeeps(c: Cap, now: int, d: nat)
    requires Inv(c, now)
    ensures Inv(c, now + d)
  {
  }

  // ---- What a committed write leaves true of the other actors ----

  ghost predicate Succeeds(rec: Record, after: Record) {
    && after.revision == rec.revision + 1 && after.expiresAt == rec.expiresAt && after.createdAt == rec.createdAt
    && WellFormed(after)
  }

  lemma RequestsSurvive(c: Cap, now: int, after: Record)
    requires Inv(c, now) && Succeeds(c.rec, after)
    ensures RequestsOk(after, Quiet(c, now, after), now, c.requests)
  {
  }

  /** A later write must not overtake a worker that can still write or delete. */
  ghost predicate Yields(now: int, after: Record, w: Worker) {
    && (w.phase.Validating? && WorkerAlive(w, now) ==> after.state.Cancelled? && w.at + WORKER_LIMIT < after.due)
    && (w.phase.Cleaning? ==> after.state.Expired?)
  }

  lemma WorkersSurvive(c: Cap, now: int, after: Record, kept: map<nat, Worker>)
    requires Inv(c, now) && Succeeds(c.rec, after)
    requires forall j | j in kept :: j in c.workers && kept[j] == c.workers[j] && Yields(now, after, kept[j])
    ensures WorkersOk(after, Quiet(c, now, after), c.bucket, now, kept)
  {
    forall j | j in kept ensures WorkerOk(after, Quiet(c, now, after), c.bucket, now, kept[j]) {
      assert WorkerOk(c.rec, c.quietBy, c.bucket, now, c.workers[j]);
    }
  }

  // ---- Requests ----

  lemma UploadRoutes(c: Cap, now: int, q: Request, op: ApiOp)
    requires Stored(c, now) && RequestOk(c.rec, c.quietBy, now, q) && q.copy == c.rec && RequestAlive(q, now)
    requires ApiTimes(op, q.at, now) && ApiAfter(op, q.copy).Some?
    requires op.AddUpload? || op.Finalize? || op.Cancel?
    ensures Stored(Commit(c, now, ApiAfter(op, q.copy).value), now)
  {
    ApiKeepsShape(op, q.copy);
  }

  lemma ReviewRoutes(c: Cap, now: int, q: Request, op: ApiOp)
    requires Stored(c, now) && RequestOk(c.rec, c.quietBy, now, q) && q.copy == c.rec && RequestAlive(q, now)
    requires ApiTimes(op, q.at, now) && ApiAfter(op, q.copy).Some?
    requires op.Recover? || op.Retry? || op.Review?
    ensures Stored(Commit(c, now, ApiAfter(op, q.copy).value), now)
  {
    ApiKeepsShape(op, q.copy);
  }

  /** A request's write leads to a record whose clean-up, if any, falls due after the last upload URL. */
  lemma WriteRoutes(c: Cap, now: int, q: Request, op: ApiOp)
    requires Stored(c, now) && RequestOk(c.rec, c.quietBy, now, q) && q.copy == c.rec && RequestAlive(q, now)
    requires ApiTimes(op, q.at, now) && ApiAfter(op, q.copy).Some?
    ensures Stored(Commit(c, now, ApiAfter(op, q.copy).value), now)
  {
    if op.AddUpload? || op.Finalize? || op.Cancel? {
      UploadRoutes(c, now, q, op);
    } else {
      ReviewRoutes(c, now, q, op);
    }
  }

  /** Only a cancellation overtakes a worker that may still write, and it outwaits that worker. */
  lemma WriteYields(c: Cap, now: int, q: Request, op: ApiOp, w: Worker)
    requires Stored(c, now) && RequestOk(c.rec, c.quietBy, now, q) && q.copy == c.rec && RequestAlive(q, now)
    requires ApiTimes(op, q.at, now) && ApiAfter(op, q.copy).Some?
    requires WorkerOk(c.rec, c.quietBy, c.bucket, now, w)
    ensures Yields(now, ApiAfter(op, q.copy).value, w)
  {
  }

  lemma RequestsJoin(rec: Record, quietBy: int, now: int, requests: map<nat, Request>, i: nat, q: Request)
    requires RequestsOk(rec, quietBy, now, requests) && RequestOk(rec, quietBy, now, q)
    ensures RequestsOk(rec, quietBy, now, requests[i := q]) && RequestsOk(rec, quietBy, now, requests - {i})
  {
  }

  lemma RequestsAfterWrite(c: Cap, now: int, i: nat, op: ApiOp)
    requires Inv(c, now) && WriteCommits(c, now, i, op)
    ensures var after := ApiAfter(op, c.requests[i].copy).value;
            RequestsOk(after, Quiet(c, now, after), now, c.requests)
  {
    assert RequestOk(c.rec, c.quietBy, now, c.requests[i]);
    ApiKeepsShape(op, c.requests[i].copy);
    RequestsSurvive(c, now, ApiAfter(op, c.requests[i].copy).value);
  }

  lemma RequestGoesOn(c: Cap, now: int, q: Request, op: ApiOp)
    requires Stored(c, now) && RequestOk(c.rec, c.quietBy, now, q) && q.copy == c.rec && Continues(op)
    requires ApiTimes(op, q.at, now) && ApiAfter(op, q.copy).Some?
    ensures var after := ApiAfter(op, q.copy).value; RequestOk(after, Quiet(c, now, after), now, q.(copy := after))
  {
    ApiKeepsShape(op, q.copy);
  }

  lemma WrittenRequests(c: Cap, now: int, i: nat, op: ApiOp, reported: bool)
    requires Inv(c, now) && WriteCommits(c, now, i, op)
    ensures var d := Write(c, now, i, op, reported); RequestsOk(d.rec, d.quietBy, now, d.requests)
  {
    var q := c.requests[i];
    var after := ApiAfter(op, q.copy).value;
    assert RequestOk(c.rec, c.quietBy, now, q);
    RequestsAfterWrite(c, now, i, op);
    if Continues(op) {
      RequestGoesOn(c, now, q, op);
      RequestsJoin(after, Quiet(c, now, after), now, c.requests, i, q.(copy := after));
    }
  }

  lemma WorkersAfterWrite(c: Cap, now: int, i: nat, op: ApiOp)
    requires Inv(c, now) && WriteCommits(c, now, i, op)
    ensures var after := ApiAfter(op, c.requests[i].copy).value;
            WorkersOk(after, Quiet(c, now, after), c.bucket, now, c.workers)
  {
    var q := c.requests[i];
    var after := ApiAfter(op, q.copy).value;
    ApiKeepsShape(op, q.copy);
    forall j | j in c.workers ensures Yields(now, after, c.workers[j]) {
      WriteYields(c, now, q, op, c.workers[j]);
    }
    WorkersSurvive(c, now, after, c.workers);
  }

  lemma WriteKeeps(c: Cap, now: int, i: nat, op: ApiOp, reported: bool)
    requires Inv(c, now)
    ensures Inv(Write(c, now, i, op, reported), now)
  {
    if WriteCommits(c, now, i, op) {
      WriteRoutes(c, now, c.requests[i], op);
      WrittenRequests(c, now, i, op, reported);
      WorkersAfterWrite(c, now, i, op);
    }
  }

  // ---- Workers ----

  lemma CleanupRoutes(c: Cap, now: int, w: Worker, step: WorkOp)
    requires Stored(c, now) && WorkerOk(c.rec, c.quietBy, c.bucket, now, w) && w.copy == c.rec && WorkerAlive(w, now)
    requires WorkTimes(step, w.seen, now) && WorkAfter(step, w.phase, w.copy).Some?
    requires step.ClaimCleanup? || step.FinishCleanup? || step.ExpireFinalizing? || step.ExpireValidated?
    ensures Stored(Settled(c, now, step, WorkAfter(step, w.phase, w.copy).value), now)
  {
    WorkKeepsShape(step, w.phase, w.copy, w.seen, now);
  }

  lemma ValidationRoutes(c: Cap, now: int, w: Worker, step: WorkOp)
    requires Stored(c, now) && WorkerOk(c.rec, c.quietBy, c.bucket, now, w) && w.copy == c.rec && WorkerAlive(w, now)
    requires WorkTimes(step, w.seen, now) && WorkAfter(step, w.phase, w.copy).Some?
    requires step.GiveUpValidation? || step.ClaimValidation? || step.Recapture? || step.ExhaustValidation? || step.RetryValidation?
    ensures Stored(Settled(c, now, step, WorkAfter(step, w.phase, w.copy).value), now)
  {
    WorkKeepsShape(step, w.phase, w.copy, w.seen, now);
  }

  lemma PromotionRoutes(c: Cap, now: int, w: Worker, step: WorkOp)
    requires Stored(c, now) && WorkerOk(c.rec, c.quietBy, c.bucket, now, w) && w.copy == c.rec && WorkerAlive(w, now)
    requires WorkTimes(step, w.seen, now) && WorkAfter(step, w.phase, w.copy).Some?
    requires step.Promote? && c.outbox.event.None?
    ensures Stored(Settled(c, now, step, WorkAfter(step, w.phase, w.copy).value), now)
  {
    WorkKeepsShape(step, w.phase, w.copy, w.seen, now);
  }

  lemma ExtractionRoutes(c: Cap, now: int, w: Worker, step: WorkOp)
    requires Stored(c, now) && WorkerOk(c.rec, c.quietBy, c.bucket, now, w) && w.copy == c.rec && WorkerAlive(w, now)
    requires WorkTimes(step, w.seen, now) && WorkAfter(step, w.phase, w.copy).Some?
    requires step.ExpireBeforeExtract? || step.GiveUpExtraction? || step.ClaimExtraction? || step.ExpireAfterExtract?
             || step.CompleteExtraction? || step.ExhaustExtraction? || step.RetryExtraction?
    ensures Stored(Settled(c, now, step, WorkAfter(step, w.phase, w.copy).value), now)
  {
    WorkKeepsShape(step, w.phase, w.copy, w.seen, now);
  }

  /** Whatever a worker settles, clean-up falls due after the last upload URL and the outbox stays in step. */
  lemma SettleRoutes(c: Cap, now: int, w: Worker, step: WorkOp)
    requires Stored(c, now) && WorkerOk(c.rec, c.quietBy, c.bucket, now, w) && w.copy == c.rec && WorkerAlive(w, now)
    requires WorkTimes(step, w.seen, now) && WorkAfter(step, w.phase, w.copy).Some?
    requires step.Promote? ==> c.outbox.event.None?
    ensures Stored(Settled(c, now, step, WorkAfter(step, w.phase, w.copy).value), now)
  {
    match step
    case ClaimCleanup(_) => CleanupRoutes(c, now, w, step);
    case FinishCleanup => CleanupRoutes(c, now, w, step);
    case ExpireFinalizing(_) => CleanupRoutes(c, now, w, step);
    case ExpireValidated(_, _) => CleanupRoutes(c, now, w, step);
    case GiveUpValidation(_) => ValidationRoutes(c, now, w, step);
    case ClaimValidation(_) => ValidationRoutes(c, now, w, step);
    case Recapture(_) => ValidationRoutes(c, now, w, step);
    case ExhaustValidation => ValidationRoutes(c, now, w, step);
    case RetryValidation(_) => ValidationRoutes(c, now, w, step);
    case Promote(_, _, _, _) => PromotionRoutes(c, now, w, step);
    case _ => ExtractionRoutes(c, now, w, step);
  }

  lemma WorkersFit(c: Cap, now: int, j: nat, k: nat)
    requires Inv(c, now) && j in c.workers && k in c.workers && k != j
    ensures WorkerOk(c.rec, c.quietBy, c.bucket, now, c.workers[j]) && WorkerOk(c.rec, c.quietBy, c.bucket, now, c.workers[k])
    ensures !(Holds(c.rec, c.workers[j]) && Holds(c.rec, c.workers[k]))
  {
  }

  lemma HolderYields(rec: Record, quietBy: int, bucket: Bucket, now: int, w: Worker, v: Worker, step: WorkOp)
    requires WorkerOk(rec, quietBy, bucket, now, w) && WorkerOk(rec, quietBy, bucket, now, v) && !(Holds(rec, w) && Holds(rec, v))
    requires WorkerAlive(w, now) && WorkTimes(step, w.seen, now) && WorkAfter(step, w.phase, w.copy).Some? && rec.revision == w.copy.revision
    ensures Yields(now, WorkAfter(step, w.phase, w.copy).value, v)
  {
  }

  /** The lease keeps workers apart: whoever settles the record finds no other writer alive. */
  lemma SettleYields(c: Cap, now: int, j: nat, step: WorkOp, k: nat)
    requires Inv(c, now) && SettleCommits(c, now, j, step) && k in c.workers && k != j
    ensures Yields(now, WorkAfter(step, c.workers[j].phase, c.workers[j].copy).value, c.workers[k])
  {
    WorkersFit(c, now, j, k);
    hide Inv, WorkerOk, Holds, WorkAfter, Yields, WorkTimes, WorkerAlive;
    HolderYields(c.rec, c.quietBy, c.bucket, now, c.workers[j], c.workers[k], step);
  }

  lemma ClaimFits(c: Cap, now: int, j: nat, step: WorkOp)
    requires Inv(c, now) && SettleCommits(c, now, j, step) && WorkNext(step).Some?
    ensures var after := WorkAfter(step, c.workers[j].phase, c.workers[j].copy).value;
            WorkerOk(after, Quiet(c, now, after), c.bucket, now,
                     Worker(after, c.workers[j].at, LastReading(step), WorkNext(step).value))
  {
    WorkKeepsShape(step, c.workers[j].phase, c.workers[j].copy, c.workers[j].seen, now);
  }

  lemma WorkerJoins(rec: Record, quietBy: int, bucket: Bucket, now: int, workers: map<nat, Worker>, j: nat, w: Worker)
    requires WorkersOk(rec, quietBy, bucket, now, workers - {j}) && WorkerOk(rec, quietBy, bucket, now, w)
    requires Holds(rec, w) ==> forall k | k in workers && k != j :: !Holds(rec, workers[k])
    ensures WorkersOk(rec, quietBy, bucket, now, workers[j := w])
  {
    var all := workers[j := w];
    forall k | k in all ensures WorkerOk(rec, quietBy, bucket, now, all[k]) {
      if k != j {
        assert k in workers - {j};
      }
    }
    forall k, l | k in all && l in all && Holds(rec, all[k]) && Holds(rec, all[l]) ensures k == l {
      if k != j && l != j {
        assert k in workers - {j} && l in workers - {j};
      }
    }
  }

  lemma WorkersLeave(rec: Record, quietBy: int, bucket: Bucket, now: int, workers: map<nat, Worker>, gone: set<nat>)
    requires WorkersOk(rec, quietBy, bucket, now, workers)
    ensures WorkersOk(rec, quietBy, bucket, now, workers - gone)
  {
  }

  lemma SettledWorkers(c: Cap, now: int, j: nat, step: WorkOp, reported: bool)
    requires Inv(c, now) && SettleCommits(c, now, j, step)
    ensures var d := Settle(c, now, j, step, reported); WorkersOk(d.rec, d.quietBy, d.bucket, now, d.workers)
  {
    var w := c.workers[j];
    var after := WorkAfter(step, w.phase, w.copy).value;
    var others := c.workers - {j};
    WorkKeepsShape(step, w.phase, w.copy, w.seen, now);
    forall k | k in others ensures Yields(now, after, others[k]) && !Holds(after, others[k]) {
      SettleYields(c, now, j, step, k);
      assert WorkerOk(c.rec, c.quietBy, c.bucket, now, c.workers[k]);
    }
    WorkersSurvive(c, now, after, others);
    if WorkNext(step).Some? {
      ClaimFits(c, now, j, step);
      var next := Worker(after, w.at, LastReading(step), WorkNext(step).value);
      WorkerJoins(after, Quiet(c, now, after), c.bucket, now, c.workers, j, next);
    }
  }

  lemma SettledStore(c: Cap, now: int, j: nat, step: WorkOp, reported: bool)
    requires Inv(c, now) && SettleCommits(c, now, j, step)
    ensures Stored(Settle(c, now, j, step, reported), now)
  {
    var w := c.workers[j];
    assert WorkerOk(c.rec, c.quietBy, c.bucket, now, w);
    SettleRoutes(c, now, w, step);
  }

  lemma SettledRequests(c: Cap, now: int, j: nat, step: WorkOp)
    requires Inv(c, now) && SettleCommits(c, now, j, step)
    ensures var after := WorkAfter(step, c.workers[j].phase, c.workers[j].copy).value;
            RequestsOk(after, Quiet(c, now, after), now, c.requests)
  {
    var w := c.workers[j];
    assert WorkerOk(c.rec, c.quietBy, c.bucket, now, w);
    WorkKeepsShape(step, w.phase, w.copy, w.seen, now);
    RequestsSurvive(c, now, WorkAfter(step, w.phase, w.copy).value);
  }

  lemma SettleKeeps(c: Cap, now: int, j: nat, step: WorkOp, reported: bool)
    requires Inv(c, now)
    ensures Inv(Settle(c, now, j, step, reported), now)
  {
    if SettleCommits(c, now, j, step) {
      SettledStore(c, now, j, step, reported);
      SettledRequests(c, now, j, step);
      SettledWorkers(c, now, j, step, reported);
    } else {
      WorkersLeave(c.rec, c.quietBy, c.bucket, now, c.workers, {j});
    }
  }

  // ---- Reads and effects on the bucket ----

  lemma ReadKeeps(c: Cap, now: int, i: nat)
    requires Inv(c, now)
    ensures Inv(Step(c, now, Reads(i)), now)
    ensures Inv(Step(c, now, EndsRequest(i)), now)
  {
  }

  lemma DeliverKeeps(c: Cap, now: int, j: nat, job: Job)
    requires Inv(c, now)
    ensures Inv(Deliver(c, now, j, job), now)
    ensures Inv(c.(workers := c.workers - {j}), now)
  {
    WorkersLeave(c.rec, c.quietBy, c.bucket, now, c.workers, {j});
    WorkerJoins(c.rec, c.quietBy, c.bucket, now, c.workers, j, Worker(c.rec, now, now, Loaded));
  }

  lemma PresignKeeps(c: Cap, now: int, i: nat, t: int, upload: string)
    requires Inv(c, now)
    ensures Inv(Presign(c, now, i, t, upload), now)
  {
  }

  /** A bucket change that no deleter's finding rules out leaves every worker as it was. */
  lemma BucketChanges(c: Cap, now: int, bucket: Bucket)
    requires Inv(c, now)
    requires c.quietBy <= now && c.rec.state.Expired? ==> bucket.uploads <= c.bucket.uploads && bucket.processed <= c.bucket.processed
    ensures WorkersOk(c.rec, c.quietBy, bucket, now, c.workers)
  {
    forall j | j in c.workers ensures WorkerOk(c.rec, c.quietBy, bucket, now, c.workers[j]) {
      assert WorkerOk(c.rec, c.quietBy, c.bucket, now, c.workers[j]);
    }
  }

  lemma PutKeeps(c: Cap, now: int, expiry: int, name: string)
    requires Inv(c, now)
    ensures Inv(PutByUrl(c, now, expiry, name), now)
  {
    BucketChanges(c, now, PutByUrl(c, now, expiry, name).bucket);
  }

  lemma WriteProcessedKeeps(c: Cap, now: int, j: nat, asset: Asset, name: string, acked: bool)
    requires Inv(c, now)
    ensures Inv(WriteProcessed(c, now, j, asset, name, acked), now)
  {
    var d := WriteProcessed(c, now, j, asset, name, acked);
    if d != c {
      var w := c.workers[j];
      assert WorkerOk(c.rec, c.quietBy, c.bucket, now, w);
      BucketChanges(c, now, d.bucket);
      if acked {
        var v := d.workers[j];
        WorkersLeave(c.rec, c.quietBy, d.bucket, now, c.workers, {j});
        forall k | k in c.workers && k != j && Holds(c.rec, v) ensures !Holds(c.rec, c.workers[k]) {
          assert Holds(c.rec, w);
        }
        WorkerJoins(c.rec, c.quietBy, d.bucket, now, c.workers, j, v);
      }
    }
  }

  lemma DeleteKeeps(c: Cap, now: int, j: nat, name: string)
    requires Inv(c, now)
    ensures Inv(DeleteVersion(c, now, j, name), now)
  {
    var d := DeleteVersion(c, now, j, name);
    if d != c {
      assert WorkerOk(c.rec, c.quietBy, c.bucket, now, c.workers[j]);
      BucketChanges(c, now, d.bucket);
    }
  }

  lemma ListKeeps(c: Cap, now: int, j: nat)
    requires Inv(c, now)
    ensures Inv(ListEmpty(c, now, j), now)
  {
    var d := ListEmpty(c, now, j);
    if d != c {
      assert WorkerOk(c.rec, c.quietBy, c.bucket, now, c.workers[j]);
      WorkersLeave(c.rec, c.quietBy, c.bucket, now, c.workers, {j});
      WorkerJoins(c.rec, c.quietBy, c.bucket, now, c.workers, j, d.workers[j]);
    }
  }

  lemma StepKeeps(c: Cap, now: int, e: Event)
    requires Inv(c, now)
    ensures Inv(Step(c, now, e), now)
  {
    match e
    case Reads(i) => ReadKeeps(c, now, i);
    case EndsRequest(i) => ReadKeeps(c, now, i);
    case Writes(i, op, reported) => WriteKeeps(c, now, i, op, reported);
    case Presigns(i, t, upload) => PresignKeeps(c, now, i, t, upload);
    case PutsByUrl(expiry, name) => PutKeeps(c, now, expiry, name);
    case Delivers(j, job) => DeliverKeeps(c, now, j, job);
    case EndsWork(j) => DeliverKeeps(c, now, j, Job(0, NoWork));
    case Settles(j, step, reported) => SettleKeeps(c, now, j, step, reported);
    case WritesProcessed(j, asset, name, acked) => WriteProcessedKeeps(c, now, j, asset, name, acked);
    case DeletesVersion(j, name) => DeleteKeeps(c, now, j, name);
    case ListsEmpty(j) => ListKeeps(c, now, j);
  }

  lemma MoveKeeps(w: World, m: Move)
    requires Inv(w.cap, w.now)
    ensures Inv(Advance(w, m).cap, Advance(w, m).now)
  {
    match m
    case Tick(d) => TickKeeps(w.cap, w.now, d);
    case On(e) => StepKeeps(w.cap, w.now, e);
  }

  lemma {:induction false} RunKeeps(w: World, ms: seq<Move>)
    requires Inv(w.cap, w.now)
    ensures Inv(Run(w, ms).cap, Run(w, ms).now)
    decreases |ms|
  {
    if ms != [] {
      MoveKeeps(w, ms[0]);
      RunKeeps(Advance(w, ms[0]), ms[1..]);
    }
  }
}
