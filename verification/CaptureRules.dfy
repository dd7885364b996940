/**
 What each service or worker operation writes over the record it read. Every clock reading an
 operation takes is an argument; `None` means that the operation returns without a write.
 */
module CaptureRules {
  import opened Basics
  import opened CaptureModel

  // ---- API requests (capture/service.go, capture/extraction.go) ----

  predicate Overdue(r: Record, t: int) {
    (r.state.Uploading? && t >= r.expiresAt) || (r.state.Ready? && r.deleteAfter > 0 && t >= r.deleteAfter)
  }

  /** Expired and cancelled captures are handed out without card data. */
  function Stripped(r: Record): Record {
    if r.state.Expired? || r.state.Cancelled? then r.(extraction := None, reviewed := None) else r
  }

  /** The copy that `Get` hands out: overdue uploads and evidence are shown as expired. */
  function View(r: Record, t: int): Record {
    Stripped(if Overdue(r, t) then r.(state := Expired) else r)
  }

  /** A ready record whose extraction can no longer be expected to finish. */
  predicate Stuck(r: Record, t2: int, t3: int) {
    r.state.Ready? &&
    (r.extraction.None? ||
     (r.extraction.value.Pending? && r.leaseUntil <= t2 && (!r.work.Extract? || t3 >= r.due + RECOVERY_GRACE)))
  }

  datatype ApiOp =
    | Recover(t1: int, t2: int, t3: int)
    | AddUpload(t1: int, revision: int, upload: Upload)
    | Finalize(t1: int, key: string, revision: int, ids: map<Slot, string>, heads: seq<Asset>, t2: int)
    | Cancel(t1: int)
    | Retry(t1: int, key: string, t2: int, t3: int)
    | Review(t1: int, revision: int, card: CardData, origin: string, t2: int)

  /** The readings an operation takes come in order, after `lo` and not after `hi`. */
  predicate ApiTimes(op: ApiOp, lo: int, hi: int) {
    match op
    case Recover(t1, t2, t3) => lo <= t1 <= t2 <= t3 <= hi
    case AddUpload(t1, _, _) => lo <= t1 <= hi
    case Finalize(t1, _, _, _, _, t2) => lo <= t1 <= t2 <= hi
    case Cancel(t1) => lo <= t1 <= hi
    case Retry(t1, _, t2, t3) => lo <= t1 <= t2 <= t3 <= hi
    case Review(t1, _, _, _, t2) => lo <= t1 <= t2 <= hi
  }

  function FindUpload(uploads: seq<Upload>, id: string): Option<Upload> {
    if uploads == [] then None
    else if uploads[0].id == id then Some(uploads[0])
    else FindUpload(uploads[1..], id)
  }

  predicate HasOperation(uploads: seq<Upload>, key: string) {
    exists u | u in uploads :: u.operationKey == key
  }

  /** What `Head` reported for one side agrees with the upload that was selected for it. */
  predicate Pins(r: Record, side: Slot, a: Asset) {
    side in r.slots &&
    var u := FindUpload(r.uploads, r.slots[side]);
    u.Some? && a.slot == side && a.uploadId == u.value.id && a.size == u.value.size && a.sha256 == u.value.sha256
    && a.versionId != "" && a.versionId != "null"
  }

  predicate Selected(r: Record, ids: map<Slot, string>) {
    r.slots == ids && Front in ids && Back in ids && ids[Front] != "" && ids[Back] != ""
  }

  function ApiAfter(op: ApiOp, copy: Record): Option<Record> {
    match op
    case Recover(t1, t2, t3) =>
      var r := View(copy, t1);
      if Stuck(r, t2, t3)
      then Some(r.(revision := r.revision + 1, leaseUntil := 0, extraction := Some(Unavailable),
                   work := Cleanup, due := r.deleteAfter))
      else None
    case AddUpload(t1, revision, u) =>
      var r := View(copy, t1);
      if r.state.Uploading? && !HasOperation(r.uploads, u.operationKey) && revision == r.revision && |r.uploads| < MAX_UPLOADS
      then Some(r.(slots := r.slots[u.slot := u.id], uploads := r.uploads + [u], revision := r.revision + 1))
      else None
    case Finalize(t1, key, revision, ids, heads, t2) =>
      var r := View(copy, t1);
      if r.finalizeKey != key && r.state.Uploading? && r.revision == revision && Selected(r, ids)
         && |heads| == 2 && Pins(r, Front, heads[0]) && Pins(r, Back, heads[1])
      then Some(r.(assets := heads, finalizeKey := key, state := Finalizing, work := Validate, due := t2,
                   generation := r.generation + 1, revision := r.revision + 1))
      else None
    case Cancel(t1) =>
      var r := copy;
      if r.state.Cancelled? || r.state.Expired? then None
      else Some(r.(state := Cancelled, extraction := None, reviewed := None, work := Cleanup,
                   due := t1 + CANCEL_DELAY, generation := r.generation + 1, leaseUntil := 0,
                   revision := r.revision + 1))
    case Retry(t1, key, t2, t3) =>
      var r := View(copy, t1);
      if r.retryKey == key then None
      else if r.state.Ready? && r.extraction == Some(Unavailable)
      then Some(r.(extraction := Some(Pending), extractionAttempts := 0, work := Extract, due := t2, retryKey := key,
                   generation := r.generation + 1, revision := r.revision + 1, leaseUntil := 0))
      else if !r.state.Failed? || t2 >= r.expiresAt then None
      else Some(r.(state := Finalizing, fault := NoFault, work := Validate, due := t3, retryKey := key,
                   generation := r.generation + 1, attempts := 0, leaseUntil := 0, revision := r.revision + 1))
    case Review(t1, revision, card, origin, t2) =>
      var r := View(copy, t1);
      if card.Valid() && !card.Empty() && r.state.Ready? && r.extraction.Some? && !r.extraction.value.Pending?
         && !(r.reviewed.Some? && r.reviewed.value.data == card && r.reviewed.value.originCountry == origin)
         && r.revision == revision
      then Some(r.(revision := r.revision + 1, reviewed := Some(Reviewed(origin, card, t2))))
      else None
  }

  // ---- Workers (capture/worker.go, capture/extraction.go) ----

  datatype Phase =
    | Loaded
    | Cleaning(emptied: int)
    | Validating(written: seq<Asset>)
    | Extracting

  datatype WorkOp =
    | ClaimCleanup(t: int)
    | FinishCleanup
    | ExpireFinalizing(t: int)
    | GiveUpValidation(t: int)
    | ClaimValidation(t: int)
    | Promote(t1: int, t2: int, t3: int, extractor: bool)
    | ExpireValidated(t1: int, t2: int)
    | Recapture(t1: int)
    | ExhaustValidation
    | RetryValidation(t1: int)
    | ExpireBeforeExtract(t: int, t1: int, t2: int)
    | GiveUpExtraction(t: int, t1: int)
    | ClaimExtraction(t: int, t1: int, t2: int)
    | ExpireAfterExtract(t1: int, t2: int)
    | CompleteExtraction(t1: int, card: CardData)
    | ExhaustExtraction(t1: int)
    | RetryExtraction(t1: int, t2: int)

  predicate WorkTimes(op: WorkOp, lo: int, hi: int) {
    match op
    case ClaimCleanup(t) => lo <= t <= hi
    case FinishCleanup => true
    case ExpireFinalizing(t) => lo <= t <= hi
    case GiveUpValidation(t) => lo <= t <= hi
    case ClaimValidation(t) => lo <= t <= hi
    case Promote(t1, t2, t3, _) => lo <= t1 <= t2 <= t3 <= hi
    case ExpireValidated(t1, t2) => lo <= t1 <= t2 <= hi
    case Recapture(t1) => lo <= t1 <= hi
    case ExhaustValidation => true
    case RetryValidation(t1) => lo <= t1 <= hi
    case ExpireBeforeExtract(t, t1, t2) => lo <= t <= t1 <= t2 <= hi
    case GiveUpExtraction(t, t1) => lo <= t <= t1 <= hi
    case ClaimExtraction(t, t1, t2) => lo <= t <= t1 <= t2 <= hi
    case ExpireAfterExtract(t1, t2) => lo <= t1 <= t2 <= hi
    case CompleteExtraction(t1, _) => lo <= t1 <= hi
    case ExhaustExtraction(t1) => lo <= t1 <= hi
    case RetryExtraction(t1, t2) => lo <= t1 <= t2 <= hi
  }

  /** `Work` goes on only when nothing else holds the lease and the work is due. */
  predicate Claimable(r: Record, t: int) {
    r.due <= t && r.leaseUntil <= t
  }

  function Expire(r: Record, due: int): Record {
    r.(extraction := None, reviewed := None, state := Expired, work := Cleanup, due := due,
       generation := r.generation + 1, revision := r.revision + 1, leaseUntil := 0)
  }

  function Fail(r: Record): Record {
    r.(state := Failed, fault := ValidationUnavailable, work := Cleanup, due := r.expiresAt + UPLOAD_LIFETIME,
       leaseUntil := 0, revision := r.revision + 1)
  }

  function EndExtraction(r: Record, result: Extraction): Record {
    r.(revision := r.revision + 1, leaseUntil := 0, extraction := Some(result), work := Cleanup, due := r.deleteAfter)
  }

  predicate AwaitsExtraction(r: Record, t: int) {
    r.work.Extract? && Claimable(r, t) && r.state.Ready? && r.extraction == Some(Pending)
  }

  predicate AwaitsValidation(r: Record, t: int) {
    r.work.Validate? && Claimable(r, t) && r.state.Finalizing?
  }

  predicate Normalized(r: Record, written: seq<Asset>) {
    |r.assets| == 2 && |written| == 2
  }

  function WorkAfter(op: WorkOp, phase: Phase, r: Record): Option<Record> {
    match (op, phase)
    case (ClaimCleanup(t), Loaded) =>
      if r.work.Cleanup? && Claimable(r, t) && !(r.state.Uploading? && t < r.expiresAt)
      then Some(r.(extraction := None, reviewed := None, state := Expired, generation := r.generation + 1,
                   revision := r.revision + 1, leaseUntil := t + LEASE))
      else None
    case (FinishCleanup, Cleaning(emptied)) =>
      if emptied < 2 then None
      else Some(r.(uploads := [], assets := [], processed := [], slots := map[], work := NoWork, due := 0,
                   leaseUntil := 0, revision := r.revision + 1))
    case (ExpireFinalizing(t), Loaded) =>
      if AwaitsValidation(r, t) && t >= r.expiresAt then Some(Expire(r, t + CANCEL_DELAY)) else None
    case (GiveUpValidation(t), Loaded) =>
      if AwaitsValidation(r, t) && t < r.expiresAt && r.attempts >= 3 then Some(Fail(r)) else None
    case (ClaimValidation(t), Loaded) =>
      if AwaitsValidation(r, t) && t < r.expiresAt && r.attempts < 3
      then Some(r.(revision := r.revision + 1, attempts := r.attempts + 1, leaseUntil := t + LEASE, due := t + LEASE))
      else None
    case (Promote(t1, t2, t3, extractor), Validating(written)) =>
      if !Normalized(r, written) || t1 >= r.expiresAt then None
      else
        var ready := r.(revision := r.revision + 1, leaseUntil := 0, processed := written, state := Ready,
                        work := Cleanup, deleteAfter := t2 + RETENTION, due := t2 + RETENTION);
        Some(if extractor then ready.(extraction := Some(Pending), work := Extract, due := t3) else ready)
    case (ExpireValidated(t1, t2), Validating(written)) =>
      if Normalized(r, written) && t1 >= r.expiresAt then Some(Expire(r, t2 + CANCEL_DELAY)) else None
    case (Recapture(t1), Validating(_)) =>
      Some(r.(revision := r.revision + 1, leaseUntil := 0, state := RequiresRecapture, fault := InvalidImage,
              work := Cleanup, due := t1 + CANCEL_DELAY))
    case (ExhaustValidation, Validating(_)) =>
      if r.attempts >= 3 then Some(Fail(r)) else None
    case (RetryValidation(t1), Validating(_)) =>
      if r.attempts >= 3 then None
      else Some(r.(revision := r.revision + 1, leaseUntil := 0, due := t1 + 60 * r.attempts))
    case (ExpireBeforeExtract(t, t1, t2), Loaded) =>
      if AwaitsExtraction(r, t) && t1 >= r.deleteAfter then Some(Expire(r, t2)) else None
    case (GiveUpExtraction(t, t1), Loaded) =>
      if AwaitsExtraction(r, t) && t1 < r.deleteAfter && r.extractionAttempts >= 3
      then Some(EndExtraction(r, Unavailable)) else None
    case (ClaimExtraction(t, t1, t2), Loaded) =>
      if AwaitsExtraction(r, t) && t1 < r.deleteAfter && r.extractionAttempts < 3
      then Some(r.(revision := r.revision + 1, extractionAttempts := r.extractionAttempts + 1,
                   leaseUntil := t2 + LEASE, due := t2 + LEASE))
      else None
    case (ExpireAfterExtract(t1, t2), Extracting) =>
      if t1 >= r.deleteAfter then Some(Expire(r, t2)) else None
    case (CompleteExtraction(t1, card), Extracting) =>
      if t1 < r.deleteAfter && card.Valid() then Some(EndExtraction(r, Complete(card))) else None
    case (ExhaustExtraction(t1), Extracting) =>
      if t1 < r.deleteAfter && r.extractionAttempts >= 3 then Some(EndExtraction(r, Unavailable)) else None
    case (RetryExtraction(t1, t2), Extracting) =>
      if t1 < r.deleteAfter && r.extractionAttempts < 3
      then Some(r.(revision := r.revision + 1, leaseUntil := 0, due := t2 + 60 * r.extractionAttempts))
      else None
    case _ => None
  }

  /** The last clock reading that a claim took. */
  function LastReading(op: WorkOp): int
    requires WorkNext(op).Some?
  {
    if op.ClaimExtraction? then op.t2 else op.t
  }

  /** Where a worker stands after its write; `None` when the operation returns. */
  function WorkNext(op: WorkOp): Option<Phase> {
    match op
    case ClaimCleanup(_) => Some(Cleaning(0))
    case ClaimValidation(_) => Some(Validating([]))
    case ClaimExtraction(_, _, _) => Some(Extracting)
    case _ => None
  }

  // ---- The shape every stored record has ----

  predicate NeverPromoted(r: Record) {
    r.deleteAfter == 0 && r.extraction.None? && r.reviewed.None? && r.processed == [] && r.extractionAttempts == 0
  }

  /** How state, pending work, due time and attached data go together in the table. */
  predicate WellFormed(r: Record) {
    && r.revision >= 1
    && (r.state.Finalizing? <==> r.work.Validate?)
    && (r.state.Ready? && r.extraction == Some(Pending) <==> r.work.Extract?)
    && (r.state.Ready? && r.work.Cleanup? ==> r.due == r.deleteAfter)
    && (r.work.NoWork? ==> r.state.Expired? && r.uploads == [] && r.assets == [] && r.processed == [] && r.slots == map[])
    && (r.state.Expired? || r.state.Cancelled? ==> r.extraction.None? && r.reviewed.None?)
    && (r.state.Uploading? ==> r.due == r.expiresAt + CANCEL_DELAY && r.attempts == 0 && r.leaseUntil == 0 && r.assets == [])
    && (r.state.Failed? ==> r.due == r.expiresAt + UPLOAD_LIFETIME)
    && (r.state.Uploading? || r.state.Finalizing? || r.state.Failed? || r.state.RequiresRecapture? ==> NeverPromoted(r))
    && (r.state.Ready? ==> r.deleteAfter > 0)
    && 0 <= r.attempts <= 3 && 0 <= r.extractionAttempts <= 3
  }

  /** What identifies a capture and bounds its session never changes. */
  predicate SameCapture(r: Record, after: Record) {
    && after.createdAt == r.createdAt && after.expiresAt == r.expiresAt
    && after.evidenceVersion == r.evidenceVersion && after.createKey == r.createKey
  }

  lemma UploadKeepsShape(op: ApiOp, r: Record)
    requires WellFormed(r) && ApiAfter(op, r).Some? && (op.AddUpload? || op.Finalize? || op.Cancel?)
    ensures var after := ApiAfter(op, r).value; WellFormed(after) && after.revision == r.revision + 1 && SameCapture(r, after)
  {
  }

  lemma RetryKeepsShape(op: ApiOp, r: Record)
    requires WellFormed(r) && ApiAfter(op, r).Some? && (op.Recover? || op.Retry? || op.Review?)
    ensures var after := ApiAfter(op, r).value; WellFormed(after) && after.revision == r.revision + 1 && SameCapture(r, after)
  {
  }

  lemma ApiKeepsShape(op: ApiOp, r: Record)
    requires WellFormed(r) && ApiAfter(op, r).Some?
    ensures WellFormed(ApiAfter(op, r).value)
    ensures ApiAfter(op, r).value.revision == r.revision + 1
    ensures SameCapture(r, ApiAfter(op, r).value)
  {
    hide WellFormed, ApiAfter, SameCapture;
    if op.AddUpload? || op.Finalize? || op.Cancel? {
      UploadKeepsShape(op, r);
    } else {
      RetryKeepsShape(op, r);
    }
  }

  /** The phase a worker has reached says what its copy of the record looks like. */
  predicate PhaseFits(phase: Phase, r: Record) {
    match phase
    case Loaded => true
    case Cleaning(_) => r.state.Expired? && r.work.Cleanup?
    case Validating(written) => r.state.Finalizing? && r.attempts >= 1 && |written| <= |r.assets|
                                && forall k | 0 <= k < |written| :: written[k].slot == r.assets[k].slot
    case Extracting => r.work.Extract? && r.extractionAttempts >= 1
  }

  lemma WorkKeepsShape(op: WorkOp, phase: Phase, r: Record, lo: int, hi: int)
    requires WellFormed(r) && PhaseFits(phase, r) && WorkAfter(op, phase, r).Some?
    requires 0 <= lo && WorkTimes(op, lo, hi)
    ensures WellFormed(WorkAfter(op, phase, r).value)
    ensures WorkAfter(op, phase, r).value.revision == r.revision + 1
    ensures SameCapture(r, WorkAfter(op, phase, r).value)
    ensures WorkNext(op).Some? ==> PhaseFits(WorkNext(op).value, WorkAfter(op, phase, r).value)
  {
  }

  /** An expired view is never the basis of a write: such requests return first. */
  lemma ExpiredViewIsNotWritten(op: ApiOp, copy: Record)
    requires ApiAfter(op, copy).Some? && !op.Cancel?
    ensures View(copy, op.t1) == copy && !copy.state.Expired? && !copy.state.Cancelled?
  {
  }
}
