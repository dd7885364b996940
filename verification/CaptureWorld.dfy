/**
 One capture as all its actors see it: the stored record, the objects under its two prefixes, the
 upload URLs still in circulation, the API requests and worker invocations in flight with the copies
 they read, and the clock. Every store access and every effect on the bucket is one event, so a run
 of events is any interleaving of requests, workers, URL holders, crashes and lost responses.
 */
module CaptureWorld {
  import opened Basics
  import opened CaptureModel
  import opened CaptureRules

  /** A request that read the record at time `at`; its Lambda ends by `at + REQUEST_LIMIT`. */
  datatype Request = Request(copy: Record, at: int)

  /** A worker that read the record at time `at`; its Lambda ends by `at + WORKER_LIMIT`. `seen` is its latest clock reading. */
  datatype Worker = Worker(copy: Record, at: int, seen: int, phase: Phase)

  /** The object versions under the capture's two prefixes. */
  datatype Bucket = Bucket(uploads: set<string>, processed: set<string>)

  datatype Outbox = Outbox(event: Option<Record>, promotions: nat)

  /**
   `urls` holds the expiry times of issued upload URLs; `outbox` has the ready event.
   Three fields only record history: how often the capture became ready, by when every upload URL
   is dead, and whether a client ever cancelled it.
   */
  datatype Cap = Cap(
    rec: Record,
    urls: set<int>,
    bucket: Bucket,
    requests: map<nat, Request>,
    workers: map<nat, Worker>,
    outbox: Outbox,
    quietBy: int,
    everCancelled: bool)

  datatype Event =
    | Reads(i: nat)
    | Writes(i: nat, op: ApiOp, reported: bool)
    | Presigns(i: nat, t: int, upload: string)
    | EndsRequest(i: nat)
    | PutsByUrl(expiry: int, name: string)
    | Delivers(j: nat, job: Job)
    | Settles(j: nat, step: WorkOp, reported: bool)
    | WritesProcessed(j: nat, asset: Asset, name: string, acked: bool)
    | DeletesVersion(j: nat, name: string)
    | ListsEmpty(j: nat)
    | EndsWork(j: nat)

  function NewCap(r: Record): Cap {
    Cap(r, {}, Bucket({}, {}), map[], map[], Outbox(None, 0), r.expiresAt + URL_HORIZON, false)
  }

  predicate RequestAlive(q: Request, now: int) {
    now <= q.at + REQUEST_LIMIT
  }

  predicate WorkerAlive(w: Worker, now: int) {
    now <= w.at + WORKER_LIMIT
  }

  /** The store's condition: the revision in the table is still the one that was read. */
  predicate Current(c: Cap, copy: Record) {
    c.rec.revision == copy.revision
  }

  /** When the record leaves `Uploading`, nobody can start signing URLs any more. */
  function Quiet(c: Cap, now: int, after: Record): int {
    if c.rec.state.Uploading? && !after.state.Uploading? then Min(c.rec.expiresAt, now) + URL_HORIZON else c.quietBy
  }

  function Commit(c: Cap, now: int, after: Record): Cap {
    c.(rec := after, quietBy := Quiet(c, now, after), everCancelled := c.everCancelled || after.state.Cancelled?)
  }

  predicate WriteCommits(c: Cap, now: int, i: nat, op: ApiOp) {
    i in c.requests && RequestAlive(c.requests[i], now) && ApiTimes(op, c.requests[i].at, now)
    && ApiAfter(op, c.requests[i].copy).Some? && Current(c, c.requests[i].copy)
  }

  /** Only an upload and the recovery inside `Get` leave the request with more to do. */
  predicate Continues(op: ApiOp) {
    op.Recover? || op.AddUpload?
  }

  predicate SettleCommits(c: Cap, now: int, j: nat, step: WorkOp) {
    j in c.workers && WorkerAlive(c.workers[j], now) && WorkTimes(step, c.workers[j].seen, now)
    && WorkAfter(step, c.workers[j].phase, c.workers[j].copy).Some? && Current(c, c.workers[j].copy)
    && (step.Promote? ==> c.outbox.event.None?)
  }

  function Write(c: Cap, now: int, i: nat, op: ApiOp, reported: bool): Cap {
    if !WriteCommits(c, now, i, op) then c.(requests := c.requests - {i})
    else
      var after := ApiAfter(op, c.requests[i].copy).value;
      Commit(c, now, after).(requests := if reported && Continues(op)
                                         then c.requests[i := c.requests[i].(copy := after)]
                                         else c.requests - {i})
  }

  function Presign(c: Cap, now: int, i: nat, t: int, upload: string): Cap {
    if i in c.requests && RequestAlive(c.requests[i], now) && c.requests[i].at <= t <= now
       && View(c.requests[i].copy, t).state.Uploading? && FindUpload(c.requests[i].copy.uploads, upload).Some?
    then c.(urls := c.urls + {now + UPLOAD_LIFETIME}) else c
  }

  function PutByUrl(c: Cap, now: int, expiry: int, name: string): Cap {
    if expiry in c.urls && now < expiry then c.(bucket := c.bucket.(uploads := c.bucket.uploads + {name})) else c
  }

  function Deliver(c: Cap, now: int, j: nat, job: Job): Cap {
    if c.rec.generation == job.generation && c.rec.work == job.work
    then c.(workers := c.workers[j := Worker(c.rec, now, now, Loaded)])
    else c.(workers := c.workers - {j})
  }

  /** The promotion writes the ready event in the same transaction. */
  function Settled(c: Cap, now: int, step: WorkOp, after: Record): Cap {
    var d := Commit(c, now, after);
    if step.Promote? then d.(outbox := Outbox(Some(after), c.outbox.promotions + 1)) else d
  }

  function Settle(c: Cap, now: int, j: nat, step: WorkOp, reported: bool): Cap {
    if !SettleCommits(c, now, j, step) then c.(workers := c.workers - {j})
    else
      var w := c.workers[j];
      var after := WorkAfter(step, w.phase, w.copy).value;
      Settled(c, now, step, after).(workers := if reported && WorkNext(step).Some?
                                               then c.workers[j := Worker(after, w.at, LastReading(step), WorkNext(step).value)]
                                               else c.workers - {j})
  }

  function WriteProcessed(c: Cap, now: int, j: nat, asset: Asset, name: string, acked: bool): Cap {
    if j in c.workers && WorkerAlive(c.workers[j], now) && c.workers[j].phase.Validating?
       && |c.workers[j].phase.written| < |c.workers[j].copy.assets|
       && asset.slot == c.workers[j].copy.assets[|c.workers[j].phase.written|].slot
    then
      var w := c.workers[j];
      c.(bucket := c.bucket.(processed := c.bucket.processed + {name}),
         workers := if acked then c.workers[j := w.(phase := Validating(w.phase.written + [asset]))] else c.workers)
    else c
  }

  function DeleteVersion(c: Cap, now: int, j: nat, name: string): Cap {
    if j in c.workers && WorkerAlive(c.workers[j], now) && c.workers[j].phase.Cleaning?
    then
      if c.workers[j].phase.emptied == 0 then c.(bucket := c.bucket.(uploads := c.bucket.uploads - {name}))
      else c.(bucket := c.bucket.(processed := c.bucket.processed - {name}))
    else c
  }

  function ListEmpty(c: Cap, now: int, j: nat): Cap {
    if j in c.workers && WorkerAlive(c.workers[j], now) && c.workers[j].phase.Cleaning?
       && ((c.workers[j].phase.emptied == 0 && c.bucket.uploads == {}) || (c.workers[j].phase.emptied == 1 && c.bucket.processed == {}))
    then c.(workers := c.workers[j := c.workers[j].(phase := Cleaning(c.workers[j].phase.emptied + 1))])
    else c
  }

  function Step(c: Cap, now: int, e: Event): Cap {
    match e
    case Reads(i) => c.(requests := c.requests[i := Request(c.rec, now)])
    case Writes(i, op, reported) => Write(c, now, i, op, reported)
    case Presigns(i, t, upload) => Presign(c, now, i, t, upload)
    case EndsRequest(i) => c.(requests := c.requests - {i})
    case PutsByUrl(expiry, name) => PutByUrl(c, now, expiry, name)
    case Delivers(j, job) => Deliver(c, now, j, job)
    case Settles(j, step, reported) => Settle(c, now, j, step, reported)
    case WritesProcessed(j, asset, name, acked) => WriteProcessed(c, now, j, asset, name, acked)
    case DeletesVersion(j, name) => DeleteVersion(c, now, j, name)
    case ListsEmpty(j) => ListEmpty(c, now, j)
    case EndsWork(j) => c.(workers := c.workers - {j})
  }

  // ---- Runs ----

  datatype World = World(now: int, cap: Cap)

  datatype Move = Tick(seconds: nat) | On(event: Event)

  function Advance(w: World, m: Move): World {
    match m
    case Tick(d) => w.(now := w.now + d)
    case On(e) => w.(cap := Step(w.cap, w.now, e))
  }

  function Run(w: World, ms: seq<Move>): World
    decreases |ms|
  {
    if ms == [] then w else Run(Advance(w, ms[0]), ms[1..])
  }

  lemma {:induction false} RunAppend(w: World, ms: seq<Move>, ns: seq<Move>)
    ensures Run(w, ms + ns) == Run(Run(w, ms), ns)
    decreases |ms|
  {
    if ms == [] {
      assert ms + ns == ns;
    } else {
      assert (ms + ns)[0] == ms[0] && (ms + ns)[1..] == ms[1..] + ns;
      RunAppend(Advance(w, ms[0]), ms[1..], ns);
    }
  }

  /** A capture right after `Create`, which read the clock twice: for the creation time, then for the expiry. */
  predicate Created(w: World, created: int, expiryBase: int) {
    var r := w.cap.rec;
    && 0 <= created <= expiryBase <= created + REQUEST_LIMIT && expiryBase <= w.now
    && r == NewRecord(r.id, r.evidenceVersion, r.createKey, r.documentType, r.policyVersion, r.language, created, expiryBase)
    && w.cap == NewCap(r)
  }
}
