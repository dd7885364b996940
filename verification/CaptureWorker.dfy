/** One delivery to the capture worker as it executes (capture/worker.go, capture/extraction.go, awscapture/transport.go). */
module CaptureWorker {
  import opened Basics
  import opened CaptureModel
  import opened CaptureRules
  import opened CaptureWorld
  import opened CaptureInvariant
  import opened CaptureService

  /** How the delivery ends; anything but `Stored` leaves the job to a later delivery or to nobody. */
  datatype Outcome = Skipped(read: Record, t: int) | Lost | Stored(record: Record)

  /** The record still asks for this work, nothing else holds its lease, and its state is one the work applies to. */
  predicate Accepts(r: Record, generation: int, work: CaptureModel.Work, t: int) {
    && r.generation == generation && r.work == work && Claimable(r, t)
    && match work
       case Cleanup => !(r.state.Uploading? && t < r.expiresAt)
       case Validate => r.state.Finalizing?
       case Extract => r.state.Ready? && r.extraction == Some(Pending)
       case NoWork => false
  }

  ghost predicate Keeps(h: Host, w: Worker)
    reads h
  {
    h.job in h.workers && h.workers[h.job] == w
  }

  lemma StepTimesLater(step: WorkOp, lo: int, hi: int, later: int)
    requires WorkTimes(step, lo, hi) && hi <= later
    ensures WorkTimes(step, lo, later)
  {
  }

  /** The worker's conditional write; it goes on only when the write committed and was answered. */
  method StoreBack(h: Host, step: WorkOp, w: Worker, next: Record) returns (o: Outcome)
    requires h.Valid() && Keeps(h, w) && WorkTimes(step, w.seen, h.now) && WorkAfter(step, w.phase, w.copy) == Some(next)
    modifies h
    ensures h.Valid() && old(h.history) <= h.history && old(h.now) <= h.now
    ensures o == Lost || (o == Stored(next) && h.rec == next && h.now <= w.at + WORKER_LIMIT)
    ensures o.Stored? && WorkNext(step).Some? ==> Keeps(h, Worker(next, w.at, LastReading(step), WorkNext(step).value))
    ensures o.Stored? && step.Promote? ==> h.outbox.event == Some(next)
  {
    hide Follows, Fair, Run, WorkAfter, WorkNext, LastReading;
    var reply := h.Await(w.at + WORKER_LIMIT);
    if reply.Killed? {
      return Lost;
    }
    StepTimesLater(step, w.seen, old(h.now), h.now);
    hide WorkTimes;
    o := WriteBack(h, step, w, next, reply.Fine?);
  }

  /** The write itself, by a worker that is still alive. */
  method WriteBack(h: Host, step: WorkOp, w: Worker, next: Record, answered: bool) returns (o: Outcome)
    requires h.Valid() && Keeps(h, w) && WorkTimes(step, w.seen, h.now) && WorkAfter(step, w.phase, w.copy) == Some(next)
    requires h.now <= w.at + WORKER_LIMIT
    modifies h`rec, h`outbox, h`quietBy, h`everCancelled, h`workers, h`history
    ensures h.Valid() && old(h.history) <= h.history
    ensures o == Lost || (o == Stored(next) && h.rec == next)
    ensures o.Stored? && WorkNext(step).Some? ==> Keeps(h, Worker(next, w.at, LastReading(step), WorkNext(step).value))
    ensures o.Stored? && step.Promote? ==> h.outbox.event == Some(next)
  {
    hide Follows, Fair, Run, WorkAfter, WorkNext, LastReading, WorkTimes;
    ghost var before := h.Whole();
    var committed := h.Swap(w.copy, next, step.Promote?);
    var goOn := committed && answered;
    h.workers := if goOn && WorkNext(step).Some? then h.workers[h.job := Worker(next, w.at, LastReading(step), WorkNext(step).value)]
                 else h.workers - {h.job};
    h.Note(before, On(Settles(h.job, step, answered)));
    o := if goOn then Stored(next) else Lost;
  }

  /** What is stored is well formed, so a record waits for validation exactly when it is finalizing. */
  lemma StoredShape(h: Host)
    requires h.Valid()
    ensures h.rec.state.Finalizing? <==> h.rec.work.Validate?
  {
    FollowsInv(h.origin, h.history, h.Whole());
  }

  method Work(h: Host, generation: int, work: CaptureModel.Work, extractor: bool, images: nat -> Image, cards: nat -> Option<CardData>)
    returns (o: Outcome)
    requires h.Valid()
    modifies h
    ensures h.Valid() && old(h.history) <= h.history
    ensures o.Stored? ==> h.rec == o.record && h.rec.leaseUntil == 0
    ensures o.Skipped? ==> !Accepts(o.read, generation, work, o.t)
  {
    hide Follows, Fair, Run;
    h.Others();
    ghost var before := h.Whole();
    var r, at := h.rec, h.now;
    if r.generation != generation || r.work != work {
      h.workers := h.workers - {h.job};
      h.Note(before, On(Delivers(h.job, Job(generation, work))));
      return Skipped(r, at);
    }
    StoredShape(h);
    h.workers := h.workers[h.job := Worker(r, at, at, Loaded)];
    h.Note(before, On(Delivers(h.job, Job(generation, work))));
    var t := h.Clock();
    if r.due > t || r.leaseUntil > t {
      return Skipped(r, t);
    }
    match r.work {
      case Extract => o := ExtractCard(h, r, at, t, cards);
      case Cleanup => o := CleanUp(h, r, at, t);
      case _ =>
        o := ValidateImages(h, r, at, t, extractor, images);
    }
  }

  // ---- Clean-up ----

  method CleanUp(h: Host, r: Record, at: int, t: int) returns (o: Outcome)
    requires h.Valid() && Keeps(h, Worker(r, at, at, Loaded)) && at <= t <= h.now && r.work.Cleanup? && Claimable(r, t)
    modifies h
    ensures h.Valid() && old(h.history) <= h.history
    ensures o.Stored? ==> h.rec == o.record && h.rec.work.NoWork? && h.rec.leaseUntil == 0
    ensures o.Skipped? ==> o == Skipped(r, t) && r.state.Uploading? && t < r.expiresAt
  {
    hide Follows, Fair, Run;
    if r.state.Uploading? && t < r.expiresAt {
      return Skipped(r, t);
    }
    var next := r;
    next := next.(extraction := None);
    next := next.(reviewed := None);
    next := next.(state := Expired);
    next := next.(generation := next.generation + 1);
    next := next.(revision := next.revision + 1);
    next := next.(leaseUntil := t + 120);
    o := StoreBack(h, ClaimCleanup(t), Worker(r, at, at, Loaded), next);
    if !o.Stored? {
      return;
    }
    var deleted := DeletePrefix(h, next, at, t, 0);
    if !deleted {
      return Lost;
    }
    deleted := DeletePrefix(h, next, at, t, 1);
    if !deleted {
      return Lost;
    }
    o := FinishClean(h, next, at, t);
  }

  method FinishClean(h: Host, r: Record, at: int, t: int) returns (o: Outcome)
    requires h.Valid() && Keeps(h, Worker(r, at, t, Cleaning(2)))
    modifies h
    ensures h.Valid() && old(h.history) <= h.history
    ensures o.Stored? ==> h.rec == o.record && h.rec.work.NoWork? && h.rec.leaseUntil == 0
    ensures !o.Skipped?
  {
    hide Follows, Fair, Run;
    var next := r;
    next := next.(uploads := []);
    next := next.(assets := []);
    next := next.(processed := []);
    next := next.(slots := map[]);
    next := next.(work := NoWork);
    next := next.(due := 0);
    next := next.(leaseUntil := 0);
    next := next.(revision := next.revision + 1);
    o := StoreBack(h, FinishCleanup, Worker(r, at, t, Cleaning(2)), next);
  }

  function Under(b: Bucket, emptied: int): set<string> {
    if emptied == 0 then b.uploads else b.processed
  }

  /** Deletes page after page; only an empty listing counts as success. */
  method DeletePrefix(h: Host, r: Record, at: int, t: int, emptied: int) returns (done: bool)
    requires h.Valid() && Keeps(h, Worker(r, at, t, Cleaning(emptied))) && 0 <= emptied <= 1
    modifies h
    ensures h.Valid() && old(h.history) <= h.history && old(h.now) <= h.now
    ensures done ==> Keeps(h, Worker(r, at, t, Cleaning(emptied + 1))) && Under(h.bucket, emptied) == {}
  {
    hide Follows, Fair, Run;
    var page := 0;
    while page < 25
      invariant h.Valid() && old(h.history) <= h.history && old(h.now) <= h.now && Keeps(h, Worker(r, at, t, Cleaning(emptied)))
    {
      var reply := h.Await(at + WORKER_LIMIT);
      if !reply.Fine? {
        return false;
      }
      var listing := Under(h.bucket, emptied);
      var objects := Listing(listing);
      if objects == [] {
        MarkEmpty(h, r, at, t, emptied);
        return true;
      }
      var deleted := DeleteObjects(h, r, at, t, emptied, objects);
      if !deleted {
        return false;
      }
      page := page + 1;
    }
    return false;
  }

  method MarkEmpty(h: Host, r: Record, at: int, t: int, emptied: int)
    requires h.Valid() && Keeps(h, Worker(r, at, t, Cleaning(emptied))) && 0 <= emptied <= 1
    requires h.now <= at + WORKER_LIMIT && Under(h.bucket, emptied) == {}
    modifies h
    ensures h.Valid() && old(h.history) <= h.history && h.now == old(h.now) && h.bucket == old(h.bucket)
    ensures Keeps(h, Worker(r, at, t, Cleaning(emptied + 1)))
  {
    hide Follows, Fair, Run;
    ghost var before := h.Whole();
    h.workers := h.workers[h.job := Worker(r, at, t, Cleaning(emptied + 1))];
    h.Note(before, On(ListsEmpty(h.job)));
  }

  /** The first page of a listing; it is empty only when the listing is. */
  method Listing(all: set<string>) returns (page: seq<string>)
    ensures page == [] <==> all == {}
    ensures forall x | x in page :: x in all
    ensures |page| <= 100
  {
    page := [];
    var rest := all;
    while rest != {} && |page| < 100
      invariant rest <= all && |page| <= 100 && (page == [] ==> rest == all) && (page != [] ==> all != {}) && forall x | x in page :: x in all
      decreases |rest|
    {
      var x :| x in rest;
      page, rest := page + [x], rest - {x};
    }
  }

  method DeleteObjects(h: Host, r: Record, at: int, t: int, emptied: int, objects: seq<string>) returns (ok: bool)
    requires h.Valid() && Keeps(h, Worker(r, at, t, Cleaning(emptied)))
    modifies h
    ensures h.Valid() && old(h.history) <= h.history && old(h.now) <= h.now && Keeps(h, Worker(r, at, t, Cleaning(emptied)))
  {
    hide Follows, Fair, Run;
    var n := 0;
    while n < |objects|
      invariant 0 <= n <= |objects|
      invariant h.Valid() && old(h.history) <= h.history && old(h.now) <= h.now && Keeps(h, Worker(r, at, t, Cleaning(emptied)))
    {
      var reply := h.Await(at + WORKER_LIMIT);
      if reply.Killed? || (reply.Broken? && !h.lands(h.turn)) {
        return false;
      }
      ghost var before := h.Whole();
      if emptied == 0 {
        h.bucket := h.bucket.(uploads := h.bucket.uploads - {objects[n]});
      } else {
        h.bucket := h.bucket.(processed := h.bucket.processed - {objects[n]});
      }
      h.Note(before, On(DeletesVersion(h.job, objects[n])));
      if !reply.Fine? {
        return false;
      }
      n := n + 1;
    }
    return true;
  }

  // ---- Validation and promotion ----

  /** What reading, checking, re-encoding and writing one image comes to. */
  datatype Image = Good(name: string, asset: Asset) | Bad | NotRead

  datatype Verdict = Fit(written: seq<Asset>) | Unfit | Undecided | Ended

  method ValidateImages(h: Host, r: Record, at: int, t: int, extractor: bool, images: nat -> Image) returns (o: Outcome)
    requires h.Valid() && Keeps(h, Worker(r, at, at, Loaded)) && at <= t <= h.now && Claimable(r, t)
    requires r.state.Finalizing? ==> r.work.Validate?
    modifies h
    ensures h.Valid() && old(h.history) <= h.history
    ensures o.Stored? ==> h.rec == o.record && h.rec.leaseUntil == 0
    ensures o.Skipped? ==> o == Skipped(r, t) && !r.state.Finalizing?
  {
    hide Follows, Fair, Run;
    var w := Worker(r, at, at, Loaded);
    if !r.state.Finalizing? {
      return Skipped(r, t);
    }
    if t >= r.expiresAt {
      o := StoreBack(h, ExpireFinalizing(t), w, Expire(r, t + 300 + 60));
      return;
    }
    if r.attempts >= 3 {
      o := StoreBack(h, GiveUpValidation(t), w, Fail(r));
      return;
    }
    var next := r;
    next := next.(revision := next.revision + 1);
    next := next.(attempts := next.attempts + 1);
    next := next.(leaseUntil := t + 120);
    next := next.(due := next.leaseUntil);
    o := StoreBack(h, ClaimValidation(t), w, next);
    if !o.Stored? {
      return;
    }
    var verdict := NormalizeImages(h, next, at, t, images);
    o := SettleValidation(h, next, at, t, verdict, extractor);
  }

  /** Normalizes the pinned images one after the other and stops at the first problem. */
  method NormalizeImages(h: Host, r: Record, at: int, t: int, images: nat -> Image) returns (v: Verdict)
    requires h.Valid() && Keeps(h, Worker(r, at, t, Validating([])))
    modifies h
    ensures h.Valid() && old(h.history) <= h.history && old(h.now) <= h.now
    ensures !v.Ended? ==> exists written :: Keeps(h, Worker(r, at, t, Validating(written))) && (v.Fit? ==> v.written == written)
    ensures v.Fit? ==> |r.assets| == 2 && |v.written| == 2
  {
    hide Follows, Fair, Run;
    var written: seq<Asset> := [];
    var n := 0;
    while n < |r.assets|
      invariant 0 <= n == |written| <= |r.assets|
      invariant h.Valid() && old(h.history) <= h.history && old(h.now) <= h.now && Keeps(h, Worker(r, at, t, Validating(written)))
    {
      var reply := h.Await(at + WORKER_LIMIT);
      if reply.Killed? {
        return Ended;
      }
      var image := images(h.turn);
      if !image.Good? {
        return if image.Bad? then Unfit else Undecided;
      }
      if reply.Broken? && !h.lands(h.turn) {
        return Undecided;
      }
      var asset := image.asset.(slot := r.assets[n].slot);
      WriteImage(h, r, at, t, written, asset, image.name, reply.Fine?);
      if !reply.Fine? {
        return Undecided;
      }
      written := written + [asset];
      n := n + 1;
    }
    return if |r.assets| != 2 then Unfit else Fit(written);
  }

  method WriteImage(h: Host, r: Record, at: int, t: int, written: seq<Asset>, asset: Asset, name: string, acked: bool)
    requires h.Valid() && Keeps(h, Worker(r, at, t, Validating(written))) && h.now <= at + WORKER_LIMIT
    requires |written| < |r.assets| && asset.slot == r.assets[|written|].slot
    modifies h
    ensures h.Valid() && old(h.history) <= h.history && h.now == old(h.now)
    ensures Keeps(h, Worker(r, at, t, Validating(if acked then written + [asset] else written)))
  {
    hide Follows, Fair, Run;
    ghost var before := h.Whole();
    h.bucket := h.bucket.(processed := h.bucket.processed + {name});
    if acked {
      h.workers := h.workers[h.job := Worker(r, at, t, Validating(written + [asset]))];
    }
    h.Note(before, On(WritesProcessed(h.job, asset, name, acked)));
  }

  method SettleValidation(h: Host, r: Record, at: int, t: int, v: Verdict, extractor: bool) returns (o: Outcome)
    requires h.Valid() && at <= t <= h.now
    requires !v.Ended? ==> exists written :: Keeps(h, Worker(r, at, t, Validating(written))) && (v.Fit? ==> v.written == written)
    requires v.Fit? ==> |r.assets| == 2 && |v.written| == 2
    modifies h
    ensures h.Valid() && old(h.history) <= h.history
    ensures o.Stored? ==> h.rec == o.record && h.rec.leaseUntil == 0
    ensures o.Stored? && o.record.state.Ready? && !r.state.Ready? ==> v.Fit? && h.rec.processed == v.written && h.outbox.event == Some(h.rec)
    ensures !o.Skipped?
  {
    hide Follows, Fair, Run;
    if v.Ended? {
      return Lost;
    }
    var w := h.workers[h.job];
    if v.Fit? {
      o := PromoteOrExpire(h, r, at, t, v.written, extractor);
      return;
    }
    var next := r;
    next := next.(revision := next.revision + 1);
    next := next.(leaseUntil := 0);
    if v.Unfit? {
      var t1 := h.Clock();
      next := next.(state := RequiresRecapture);
      next := next.(fault := InvalidImage);
      next := next.(work := Cleanup);
      next := next.(due := t1 + 300 + 60);
      o := StoreBack(h, Recapture(t1), w, next);
    } else if r.attempts >= 3 {
      next := next.(state := Failed);
      next := next.(fault := ValidationUnavailable);
      next := next.(work := Cleanup);
      next := next.(due := r.expiresAt + 300);
      o := StoreBack(h, ExhaustValidation, w, next);
    } else {
      var t1 := h.Clock();
      next := next.(due := t1 + 60 * r.attempts);
      o := StoreBack(h, RetryValidation(t1), w, next);
    }
  }

  /** Promotes the evidence unless its session has expired by the first of up to three clock readings. */
  method PromoteOrExpire(h: Host, r: Record, at: int, t: int, written: seq<Asset>, extractor: bool) returns (o: Outcome)
    requires h.Valid() && Keeps(h, Worker(r, at, t, Validating(written))) && at <= t <= h.now && |r.assets| == 2 && |written| == 2
    modifies h
    ensures h.Valid() && old(h.history) <= h.history
    ensures o.Stored? ==> h.rec == o.record && h.rec.leaseUntil == 0
    ensures o.Stored? && o.record.state.Ready? && !r.state.Ready? ==> h.rec.processed == written && h.outbox.event == Some(h.rec)
    ensures !o.Skipped?
  {
    hide Follows, Fair, Run;
    var w := Worker(r, at, t, Validating(written));
    var t1 := h.Clock();
    var t2 := h.Clock();
    if t1 >= r.expiresAt {
      o := StoreBack(h, ExpireValidated(t1, t2), w, Expire(r, t2 + 300 + 60));
      return;
    }
    var t3 := h.Clock();
    var next := Promoted(r, written, t2, t3, extractor);
    o := StoreBack(h, Promote(t1, t2, t3, extractor), w, next);
  }

  /** The ready record; with an extractor its next work is the extraction, otherwise the clean-up at its deadline. */
  method Promoted(r: Record, written: seq<Asset>, t2: int, t3: int, extractor: bool) returns (next: Record)
    requires |r.assets| == 2 && |written| == 2
    ensures forall t1, phase | phase == Validating(written) && t1 < r.expiresAt
              :: WorkAfter(Promote(t1, t2, t3, extractor), phase, r) == Some(next)
    ensures next.state.Ready? && next.leaseUntil == 0 && next.processed == written
  {
    next := r;
    next := next.(revision := next.revision + 1);
    next := next.(leaseUntil := 0);
    next := next.(processed := written);
    next := next.(state := Ready);
    next := next.(work := Cleanup);
    next := next.(deleteAfter := t2 + RETENTION);
    next := next.(due := next.deleteAfter);
    if extractor {
      next := next.(extraction := Some(Pending));
      next := next.(work := Extract);
      next := next.(due := t3);
    }
  }

  // ---- Extraction ----

  method ExtractCard(h: Host, r: Record, at: int, t: int, cards: nat -> Option<CardData>) returns (o: Outcome)
    requires h.Valid() && Keeps(h, Worker(r, at, at, Loaded)) && at <= t <= h.now && r.work.Extract? && Claimable(r, t)
    modifies h
    ensures h.Valid() && old(h.history) <= h.history
    ensures o.Stored? ==> h.rec == o.record && h.rec.leaseUntil == 0
    ensures o.Skipped? ==> o == Skipped(r, t) && (!r.state.Ready? || r.extraction != Some(Pending))
  {
    hide Follows, Fair, Run;
    var w := Worker(r, at, at, Loaded);
    if !r.state.Ready? || r.extraction != Some(Pending) {
      return Skipped(r, t);
    }
    var t1 := h.Clock();
    var t2 := h.Clock();
    if t1 >= r.deleteAfter {
      o := StoreBack(h, ExpireBeforeExtract(t, t1, t2), w, Expire(r, t2));
      return;
    }
    if r.extractionAttempts >= 3 {
      o := StoreBack(h, GiveUpExtraction(t, t1), w, EndExtraction(r, Extraction.Unavailable));
      return;
    }
    o := ClaimThenExtract(h, r, at, t, t1, t2, cards);
  }

  /** One more attempt is claimed before the extractor is asked. */
  method ClaimThenExtract(h: Host, r: Record, at: int, t: int, t1: int, t2: int, cards: nat -> Option<CardData>) returns (o: Outcome)
    requires h.Valid() && Keeps(h, Worker(r, at, at, Loaded)) && at <= t <= t1 <= t2 <= h.now && r.work.Extract? && Claimable(r, t)
    requires r.state.Ready? && r.extraction == Some(Pending) && t1 < r.deleteAfter && r.extractionAttempts < 3
    modifies h
    ensures h.Valid() && old(h.history) <= h.history
    ensures o.Stored? ==> h.rec == o.record && h.rec.leaseUntil == 0
    ensures !o.Skipped?
  {
    hide Follows, Fair, Run;
    var w := Worker(r, at, at, Loaded);
    var next := r;
    next := next.(revision := next.revision + 1);
    next := next.(extractionAttempts := next.extractionAttempts + 1);
    next := next.(leaseUntil := t2 + 120);
    next := next.(due := next.leaseUntil);
    o := StoreBack(h, ClaimExtraction(t, t1, t2), w, next);
    if o.Stored? {
      o := FinishExtraction(h, next, at, t2, cards);
    }
  }

  /** What the images and the extractor came to, then the write. */
  method FinishExtraction(h: Host, r: Record, at: int, t: int, cards: nat -> Option<CardData>) returns (o: Outcome)
    requires h.Valid() && Keeps(h, Worker(r, at, t, Extracting)) && at <= t <= h.now
    modifies h
    ensures h.Valid() && old(h.history) <= h.history
    ensures o.Stored? ==> h.rec == o.record && h.rec.leaseUntil == 0
    ensures !o.Skipped?
  {
    hide Follows, Fair, Run;
    var reply := h.Await(at + WORKER_LIMIT);
    if reply.Killed? {
      return Lost;
    }
    var card := if cards(h.turn).Some? then cards(h.turn).value else CardData([]);
    var ok := reply.Fine? && cards(h.turn).Some? && card.Valid();
    o := SettleExtraction(h, r, at, t, card, ok);
  }

  method SettleExtraction(h: Host, r: Record, at: int, t: int, card: CardData, ok: bool) returns (o: Outcome)
    requires h.Valid() && Keeps(h, Worker(r, at, t, Extracting)) && at <= t <= h.now && (ok ==> card.Valid())
    modifies h
    ensures h.Valid() && old(h.history) <= h.history
    ensures o.Stored? ==> h.rec == o.record && h.rec.leaseUntil == 0
    ensures !o.Skipped?
  {
    hide Follows, Fair, Run, CardData.Valid;
    var w := Worker(r, at, t, Extracting);
    var t1 := h.Clock();
    var t2 := h.Clock();
    if t1 >= r.deleteAfter {
      o := StoreBack(h, ExpireAfterExtract(t1, t2), w, Expire(r, t2));
    } else if ok {
      o := StoreBack(h, CompleteExtraction(t1, card), w, EndExtraction(r, Complete(card)));
    } else if r.extractionAttempts >= 3 {
      o := StoreBack(h, ExhaustExtraction(t1), w, EndExtraction(r, Extraction.Unavailable));
    } else {
      o := RetryLater(h, r, at, t, t1, t2);
    }
  }

  /** Another attempt, later by a minute for each that failed. */
  method RetryLater(h: Host, r: Record, at: int, t: int, t1: int, t2: int) returns (o: Outcome)
    requires h.Valid() && Keeps(h, Worker(r, at, t, Extracting)) && at <= t <= t1 <= t2 <= h.now
    requires t1 < r.deleteAfter && r.extractionAttempts < 3
    modifies h
    ensures h.Valid() && old(h.history) <= h.history
    ensures o.Stored? ==> h.rec == o.record && h.rec.leaseUntil == 0
    ensures !o.Skipped?
  {
    hide Follows, Fair, Run, CardData.Valid;
    var next := r;
    next := next.(revision := next.revision + 1);
    next := next.(leaseUntil := 0);
    next := next.(due := t2 + 60 * r.extractionAttempts);
    o := StoreBack(h, RetryExtraction(t1, t2), Worker(r, at, t, Extracting), next);
  }
}
