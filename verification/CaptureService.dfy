/**
 The capture service as it executes (capture/service.go, capture/extraction.go, awscapture/store.go):
 one table access at a time, while other requests, workers and URL holders go on. `history` lists what
 happened since `origin`, so every theorem about runs of a capture is one about this code.
 */
module CaptureService {
  import opened Basics
  import opened CaptureModel
  import opened CaptureRules
  import opened CaptureWorld
  import opened CaptureInvariant

  /** Events in the name of request `i` or worker `j`. */
  predicate Concerns(m: Move, i: nat, j: nat) {
    m.On? &&
    match m.event
    case Reads(n) => n == i
    case Writes(n, _, _) => n == i
    case Presigns(n, _, _) => n == i
    case EndsRequest(n) => n == i
    case PutsByUrl(_, _) => false
    case Delivers(n, _) => n == j
    case Settles(n, _, _) => n == j
    case WritesProcessed(n, _, _, _) => n == j
    case DeletesVersion(n, _) => n == j
    case ListsEmpty(n) => n == j
    case EndsWork(n) => n == j
  }

  predicate Apart(w: World, v: World, i: nat, j: nat) {
    && w.now <= v.now
    && (i in w.cap.requests ==> i in v.cap.requests && v.cap.requests[i] == w.cap.requests[i])
    && (j in w.cap.workers ==> j in v.cap.workers && v.cap.workers[j] == w.cap.workers[j])
  }

  lemma RequestApart(c: Cap, now: int, n: nat, op: ApiOp, reported: bool, i: nat, j: nat)
    requires n != i
    ensures Apart(World(now, c), World(now, Write(c, now, n, op, reported)), i, j)
  {
    hide ApiAfter, ApiTimes;
  }

  lemma WorkerApart(c: Cap, now: int, n: nat, step: WorkOp, reported: bool, i: nat, j: nat)
    requires n != j
    ensures Apart(World(now, c), World(now, Settle(c, now, n, step, reported)), i, j)
  {
    hide WorkAfter, WorkTimes;
  }

  lemma EffectApart(c: Cap, now: int, n: nat, asset: Asset, name: string, acked: bool, i: nat, j: nat)
    requires n != j
    ensures Apart(World(now, c), World(now, WriteProcessed(c, now, n, asset, name, acked)), i, j)
    ensures Apart(World(now, c), World(now, DeleteVersion(c, now, n, name)), i, j) && Apart(World(now, c), World(now, ListEmpty(c, now, n)), i, j)
  {
  }

  lemma OthersLeaveAlone(w: World, m: Move, i: nat, j: nat)
    requires !Concerns(m, i, j)
    ensures Apart(w, Advance(w, m), i, j)
  {
    hide Write, Settle, WriteProcessed, DeleteVersion, ListEmpty;
    match m
    case On(Writes(n, op, reported)) => RequestApart(w.cap, w.now, n, op, reported, i, j);
    case On(Settles(n, step, reported)) => WorkerApart(w.cap, w.now, n, step, reported, i, j);
    case On(WritesProcessed(n, asset, name, acked)) => EffectApart(w.cap, w.now, n, asset, name, acked, i, j);
    case On(DeletesVersion(n, name)) => EffectApart(w.cap, w.now, n, Asset("", Front, "", "", 0), name, true, i, j);
    case On(ListsEmpty(n)) => EffectApart(w.cap, w.now, n, Asset("", Front, "", "", 0), "", true, i, j);
    case _ =>
  }

  lemma {:induction false} OthersRun(w: World, ms: seq<Move>, i: nat, j: nat)
    requires forall m | m in ms :: !Concerns(m, i, j)
    ensures Apart(w, Run(w, ms), i, j)
    decreases |ms|
  {
    hide Advance, Concerns;
    if ms != [] {
      OthersLeaveAlone(w, ms[0], i, j);
      OthersRun(Advance(w, ms[0]), ms[1..], i, j);
    }
  }

  ghost predicate Follows(origin: World, history: seq<Move>, w: World) {
    Inv(origin.cap, origin.now) && w == Run(origin, history)
  }

  ghost predicate Fair(others: nat -> seq<Move>, i: nat, j: nat) {
    forall n, m | m in others(n) :: !Concerns(m, i, j)
  }

  lemma FollowsOn(origin: World, history: seq<Move>, w: World, ms: seq<Move>)
    requires Follows(origin, history, w)
    ensures Follows(origin, history + ms, Run(w, ms))
  {
    RunAppend(origin, history, ms);
  }

  lemma FollowsStep(origin: World, history: seq<Move>, w: World, m: Move)
    requires Follows(origin, history, w)
    ensures Follows(origin, history + [m], Advance(w, m))
  {
    FollowsOn(origin, history, w, [m]);
    assert Run(w, [m]) == Run(Advance(w, m), [m][1..]);
  }

  lemma FollowsInv(origin: World, history: seq<Move>, w: World)
    requires Follows(origin, history, w)
    ensures Inv(w.cap, w.now)
  {
    RunKeeps(origin, history);
  }

  lemma OthersTurn(others: nat -> seq<Move>, turn: nat, w: World, i: nat, j: nat)
    requires Fair(others, i, j)
    ensures Apart(w, Run(w, others(turn)), i, j)
  {
    OthersRun(w, others(turn), i, j);
  }

  datatype Reply = Fine | Broken | Killed

  /** How a request ends; `Gone` for one that the runtime ended. */
  datatype Refusal = TooLate | Conflict | Invalid | Limited | Incomplete | BadImage | NoAnswer | Gone

  class Host {
    var now: int
    var rec: Record
    var urls: set<int>
    var bucket: Bucket
    var requests: map<nat, Request>
    var workers: map<nat, Worker>
    var outbox: Outbox
    var quietBy: int
    var everCancelled: bool
    var turn: nat
    const me: nat
    const job: nat
    /** What the others do, and whether a call is answered and a failed one has landed all the same, at each turn. */
    const others: nat -> seq<Move>
    const works: nat -> bool
    const lands: nat -> bool
    ghost const origin: World
    ghost var history: seq<Move>

    function Whole(): World
      reads this
    {
      World(now, Cap(rec, urls, bucket, requests, workers, outbox, quietBy, everCancelled))
    }

    ghost predicate Valid()
      reads this
    {
      Follows(origin, history, Whole()) && Fair(others, me, job)
    }

    constructor (w: World, created: int, expiryBase: int, me: nat, job: nat, others: nat -> seq<Move>, works: nat -> bool, lands: nat -> bool)
      requires Created(w, created, expiryBase) && Fair(others, me, job)
      ensures Valid() && Whole() == w && history == []
    {
      now, rec, urls, bucket, requests, workers, outbox := w.now, w.cap.rec, w.cap.urls, w.cap.bucket, w.cap.requests, w.cap.workers, w.cap.outbox;
      quietBy, everCancelled, turn := w.cap.quietBy, w.cap.everCancelled, 0;
      this.me, this.job, this.others, this.works, this.lands := me, job, others, works, lands;
      origin, history := w, [];
      new;
      NewCapInv(w, created, expiryBase);
    }

    ghost method Note(before: World, m: Move)
      requires Follows(origin, history, before) && Whole() == Advance(before, m) && Fair(others, me, job)
      modifies this`history
      ensures Valid() && history == old(history) + [m]
    {
      hide Follows, Advance;
      FollowsStep(origin, history, before, m);
      history := history + [m];
    }

    method Become(w: World)
      modifies this
      ensures Whole() == w && turn == old(turn) && history == old(history)
    {
      now, rec, urls, bucket, requests, workers, outbox := w.now, w.cap.rec, w.cap.urls, w.cap.bucket, w.cap.requests, w.cap.workers, w.cap.outbox;
      quietBy, everCancelled := w.cap.quietBy, w.cap.everCancelled;
    }

    /** Whatever the others do next. */
    method Others()
      requires Valid()
      modifies this
      ensures Valid() && old(history) <= history && Apart(old(Whole()), Whole(), me, job)
    {
      hide Follows, Run, Fair;
      var ms := others(turn);
      OthersTurn(others, turn, Whole(), me, job);
      FollowsOn(origin, history, Whole(), ms);
      Become(Run(Whole(), ms));
      history := history + ms;
      turn := turn + 1;
    }

    method Await(end: int) returns (reply: Reply)
      requires Valid()
      modifies this
      ensures Valid() && old(history) <= history && Apart(old(Whole()), Whole(), me, job)
      ensures reply.Killed? <==> now > end
    {
      hide Follows, Fair, Run;
      Others();
      reply := if now > end then Killed else if works(turn) then Fine else Broken;
    }

    /** The clock, read after a while. */
    method Clock() returns (t: int)
      requires Valid()
      modifies this
      ensures Valid() && old(history) <= history && Apart(old(Whole()), Whole(), me, job) && t == now
    {
      hide Follows, Fair, Run;
      Others();
      t := now;
    }

    /** The table's transaction: the record's revision must be the one that was read; a ready record also writes its event, once. */
    method Swap(before: Record, after: Record, ready: bool) returns (committed: bool)
      modifies this`rec, this`outbox, this`quietBy, this`everCancelled
      ensures committed == (old(rec).revision == before.revision && (ready ==> old(outbox).event.None?))
      ensures !committed ==> Whole() == old(Whole())
      ensures committed ==> Whole().cap == Commit(old(Whole().cap), now, after).(outbox := if ready then Outbox(Some(after), old(outbox).promotions + 1) else old(outbox))
    {
      committed := rec.revision == before.revision && (ready ==> outbox.event.None?);
      if committed {
        quietBy := if rec.state.Uploading? && !after.state.Uploading? then Min(rec.expiresAt, now) + URL_HORIZON else quietBy;
        everCancelled := everCancelled || after.state.Cancelled?;
        rec := after;
        if ready {
          outbox := Outbox(Some(after), outbox.promotions + 1);
        }
      }
    }

    // ---- Requests ----

    ghost predicate Asks(copy: Record, at: int)
      reads this
    {
      me in requests && requests[me] == Request(copy, at)
    }

    method Load() returns (copy: Record)
      requires Valid()
      modifies this
      ensures Valid() && old(history) <= history && old(now) <= now && Asks(copy, now)
    {
      hide Follows, Fair, Run;
      Others();
      ghost var before := Whole();
      copy := rec;
      requests := requests[me := Request(copy, now)];
      Note(before, On(Reads(me)));
    }

    /** A request's conditional write. `None` when it did not commit, or its answer did not arrive. */
    method WriteBack(op: ApiOp, copy: Record, next: Record, at: int) returns (o: Result<Record, Refusal>)
      requires Valid() && Asks(copy, at) && ApiTimes(op, at, now) && ApiAfter(op, copy) == Some(next)
      modifies this
      ensures Valid() && old(history) <= history
      ensures o.Ok? ==> old(now) <= now <= at + REQUEST_LIMIT && o.value == next && rec == next && (Continues(op) ==> Asks(next, at))
      ensures o.Err? ==> o.error == Conflict || o.error == NoAnswer || o.error == Gone
    {
      hide Follows, Fair, Run, ApiAfter;
      var reply := Await(at + REQUEST_LIMIT);
      if reply.Killed? {
        return Err(Gone);
      }
      TimesLater(op, at, old(now), now);
      ghost var before := Whole();
      hide ApiTimes;
      var committed := Swap(copy, next, false);
      requests := if committed && reply.Fine? && Continues(op) then requests[me := Request(next, at)] else requests - {me};
      Note(before, On(Writes(me, op, reply.Fine?)));
      return if !committed then Err(Conflict) else if reply.Fine? then Ok(next) else Err(NoAnswer);
    }

    lemma TimesLater(op: ApiOp, lo: int, hi: int, later: int)
      requires ApiTimes(op, lo, hi) && hi <= later
      ensures ApiTimes(op, lo, later)
    {
    }

    /** A result of `Get`: the copy behind it, the time it is a view of, and when the request read it. */
    ghost predicate Shows(r: Record, copy: Record, t: int, at: int)
      reads this
    {
      Asks(copy, at) && at <= t <= now <= at + REQUEST_LIMIT && r == View(copy, t)
    }

    /** Reads the record; overdue ones are shown as expired, and a stuck extraction is given up in the table. */
    method Get() returns (o: Result<Record, Refusal>, copy: Record, t: int, at: int)
      requires Valid()
      modifies this
      ensures Valid() && old(history) <= history
      ensures o.Ok? ==> Shows(o.value, copy, t, at)
      ensures o.Ok? && (o.value.state.Expired? || o.value.state.Cancelled?) ==> o.value.extraction.None? && o.value.reviewed.None?
      ensures o.Err? ==> o.error == Conflict || o.error == NoAnswer || o.error == Gone
    {
      hide Follows, Fair, Run;
      copy := Load();
      at := now;
      t := Clock();
      var r := copy;
      if (r.state.Uploading? && t >= r.expiresAt) || (r.state.Ready? && r.deleteAfter > 0 && t >= r.deleteAfter) {
        r := r.(state := Expired);
      }
      var t2 := Clock();
      var t3 := Clock();
      if r.state.Ready? && (r.extraction.None? || (r.extraction.value.Pending? && r.leaseUntil <= t2 && (!r.work.Extract? || t3 >= r.due + 300))) {
        o, copy := GiveUpExtraction(r, t, t2, t3, at);
      } else {
        if r.state.Expired? || r.state.Cancelled? {
          r := r.(extraction := None);
          r := r.(reviewed := None);
        }
        o := if now > at + REQUEST_LIMIT then Err(Gone) else Ok(r);
      }
    }

    /** The recovery of a ready record whose extraction will not come any more. */
    method GiveUpExtraction(r: Record, t: int, t2: int, t3: int, at: int) returns (o: Result<Record, Refusal>, copy: Record)
      requires Valid() && Asks(r, at) && at <= t <= t2 <= t3 <= now && View(r, t) == r && Stuck(r, t2, t3)
      modifies this
      ensures Valid() && old(history) <= history
      ensures o.Ok? ==> Shows(o.value, copy, t, at) && rec == o.value && rec.extraction == Some(Extraction.Unavailable)
      ensures o.Err? ==> o.error == Conflict || o.error == NoAnswer || o.error == Gone
    {
      hide Follows, Fair, Run;
      var next := r;
      next := next.(revision := next.revision + 1);
      next := next.(leaseUntil := 0);
      next := next.(extraction := Some(Extraction.Unavailable));
      next := next.(work := Cleanup);
      next := next.(due := next.deleteAfter);
      copy := next;
      o := WriteBack(Recover(t, t2, t3), r, next, at);
    }

    /** Replays keep the upload that the operation made; a new one is stored before its URL is signed. */
    method Upload(id: string, slot: Slot, sha256: string, size: int, operationKey: string, revision: int, wellFormed: bool)
      returns (o: Result<string, Refusal>)
      requires Valid()
      modifies this
      ensures Valid() && old(history) <= history
      ensures o.Ok? ==> exists u: CaptureModel.Upload :: u.id == o.value && u.operationKey == operationKey && u.slot == slot && u.sha256 == sha256 && u.size == size
                                                     && Signed(u)
    {
      hide Follows, Fair, Run;
      var got, copy, t, at := Get();
      if got.Err? {
        return Err(got.error);
      }
      var r := got.value;
      if !r.state.Uploading? {
        return Err(if r.state.Expired? then TooLate else Conflict);
      }
      if !wellFormed || size < 4 || size > MAX_BYTES {
        return Err(Invalid);
      }
      var n := 0;
      while n < |r.uploads| && r.uploads[n].operationKey != operationKey
        invariant 0 <= n <= |r.uploads|
        invariant forall u | u in r.uploads[..n] :: u.operationKey != operationKey
      {
        assert r.uploads[..n + 1] == r.uploads[..n] + [r.uploads[n]];
        n := n + 1;
      }
      if n < |r.uploads| {
        var u := r.uploads[n];
        if u.slot != slot || u.sha256 != sha256 || u.size != size || slot !in r.slots || r.slots[slot] != u.id {
          return Err(Conflict);
        }
        o := Sign(copy, t, at, u);
        return;
      }
      assert r.uploads[..n] == r.uploads;
      if revision != r.revision {
        return Err(Conflict);
      }
      if |r.uploads| >= 20 {
        return Err(Limited);
      }
      var u := CaptureModel.Upload(id, slot, sha256, size, operationKey);
      var next := r;
      next := next.(slots := next.slots[slot := u.id]);
      next := next.(uploads := next.uploads + [u]);
      next := next.(revision := next.revision + 1);
      var written := WriteBack(AddUpload(t, revision, u), copy, next, at);
      if written.Err? {
        return Err(written.error);
      }
      o := Sign(next, t, at, u);
    }

    /** The last URL that was signed is for this upload of this request's record. */
    ghost predicate Signed(u: CaptureModel.Upload)
      reads this
    {
      now + UPLOAD_LIFETIME in urls && me in requests && u in requests[me].copy.uploads
    }

    method Sign(copy: Record, t: int, at: int, u: CaptureModel.Upload) returns (o: Result<string, Refusal>)
      requires Valid() && Asks(copy, at) && at <= t <= now && u in copy.uploads && View(copy, t).state.Uploading?
      modifies this
      ensures Valid() && old(history) <= history
      ensures o.Ok? ==> o.value == u.id && Signed(u)
    {
      hide Follows, Fair, Run;
      var reply := Await(at + REQUEST_LIMIT);
      if !reply.Fine? {
        return Err(if reply.Killed? then Gone else NoAnswer);
      }
      FoundUpload(copy.uploads, u);
      ghost var before := Whole();
      urls := urls + {now + 300};
      Note(before, On(Presigns(me, t, u.id)));
      o := Ok(u.id);
    }

    /** Pins the stored versions of both sides; a replay of the finalized operation returns the record unchanged. */
    method Finalize(key: string, revision: int, ids: map<Slot, string>, head: nat -> Asset) returns (o: Result<Record, Refusal>)
      requires Valid()
      modifies this
      ensures Valid() && old(history) <= history
      ensures o.Ok? ==> o.value.finalizeKey == key && o.value.slots == ids
    {
      hide Follows, Fair, Run, Pins;
      var got, copy, t, at := Get();
      if got.Err? {
        return Err(got.error);
      }
      var r := got.value;
      if r.finalizeKey == key {
        return if r.slots != ids then Err(Conflict) else Ok(r);
      }
      if r.state.Expired? {
        return Err(TooLate);
      }
      if !r.state.Uploading? || r.revision != revision {
        return Err(Conflict);
      }
      if Front !in ids || Back !in ids || ids[Front] == "" || ids[Back] == "" || r.slots != ids {
        return Err(Incomplete);
      }
      var front := HeadSide(r, Front, copy, at, head);
      if front.Err? {
        return Err(front.error);
      }
      var back := HeadSide(r, Back, copy, at, head);
      if back.Err? {
        return Err(back.error);
      }
      o := Pin(key, revision, ids, [front.value, back.value], copy, t, at);
    }

    /** Asks the bucket for the current version of one side's upload and compares it. */
    method HeadSide(r: Record, side: Slot, copy: Record, at: int, head: nat -> Asset) returns (o: Result<Asset, Refusal>)
      requires Valid() && Asks(copy, at) && side in r.slots
      modifies this
      ensures Valid() && old(history) <= history && old(now) <= now && Asks(copy, at)
      ensures o.Ok? ==> Pins(r, side, o.value)
    {
      hide Follows, Fair, Run;
      var u := FindUpload(r.uploads, r.slots[side]);
      if u.None? {
        return Err(Incomplete);
      }
      var reply := Await(at + REQUEST_LIMIT);
      if !reply.Fine? {
        return Err(if reply.Killed? then Gone else NoAnswer);
      }
      var a := head(turn);
      if a.versionId == "" || a.versionId == "null" || a.size != u.value.size || a.sha256 != u.value.sha256 {
        return Err(BadImage);
      }
      a := a.(uploadId := u.value.id, slot := side);
      o := Ok(a);
    }

    method Pin(key: string, revision: int, ids: map<Slot, string>, heads: seq<Asset>, r: Record, t: int, at: int) returns (o: Result<Record, Refusal>)
      requires Valid() && Asks(r, at) && at <= t <= now && View(r, t) == r
      requires r.finalizeKey != key && r.state.Uploading? && r.revision == revision && Selected(r, ids)
      requires |heads| == 2 && Pins(r, Front, heads[0]) && Pins(r, Back, heads[1])
      modifies this
      ensures Valid() && old(history) <= history
      ensures o.Ok? ==> o.value.finalizeKey == key && o.value.slots == ids
      ensures o.Ok? ==> rec == o.value && rec.state.Finalizing? && |rec.assets| == 2 && Pins(rec, Front, rec.assets[0]) && Pins(rec, Back, rec.assets[1])
    {
      hide Follows, Fair, Run;
      var t2 := Clock();
      var next := r;
      next := next.(assets := heads);
      next := next.(finalizeKey := key);
      next := next.(state := Finalizing);
      next := next.(work := Validate);
      next := next.(due := t2);
      next := next.(generation := next.generation + 1);
      next := next.(revision := next.revision + 1);
      o := WriteBack(CaptureRules.Finalize(t, key, revision, ids, heads, t2), r, next, at);
    }

    lemma LoadedShape(r: Record, at: int)
      requires Valid() && Asks(r, at)
      ensures r.state.Expired? || r.state.Cancelled? ==> r.extraction.None? && r.reviewed.None?
    {
      FollowsInv(origin, history, Whole());
      hide Run;
      assert RequestOk(rec, quietBy, now, requests[me]);
    }

    /** Ends the capture at any time; its objects are deleted once every upload URL is dead. */
    method Cancel() returns (o: Result<Record, Refusal>, wrote: bool)
      requires Valid()
      modifies this
      ensures Valid() && old(history) <= history
      ensures o.Ok? ==> (o.value.state.Cancelled? || o.value.state.Expired?) && o.value.extraction.None? && o.value.reviewed.None?
      ensures wrote ==> o.Ok? && rec == o.value && rec.state.Cancelled? && rec.work.Cleanup? && rec.extraction.None? && rec.reviewed.None?
                        && old(now) + CANCEL_DELAY <= rec.due && rec.leaseUntil == 0
    {
      hide Follows, Fair, Run;
      var r := Load();
      var at := now;
      if r.state.Cancelled? || r.state.Expired? {
        LoadedShape(r, at);
        return Ok(r), false;
      }
      var t := Clock();
      var next := r;
      next := next.(state := Cancelled);
      next := next.(extraction := None, reviewed := None);
      next := next.(work := Cleanup);
      next := next.(due := t + 300 + 60);
      next := next.(generation := next.generation + 1);
      next := next.(leaseUntil := 0);
      next := next.(revision := next.revision + 1);
      o := WriteBack(CaptureRules.Cancel(t), r, next, at);
      wrote := o.Ok?;
    }

    /** Reopens a failed validation or extraction. */
    method Retry(key: string) returns (o: Result<Record, Refusal>, wrote: bool)
      requires Valid()
      modifies this
      ensures Valid() && old(history) <= history
      ensures o.Ok? ==> o.value.retryKey == key
      ensures wrote ==> o.Ok? && rec == o.value && rec.leaseUntil == 0
                        && ((rec.state.Finalizing? && rec.work.Validate? && rec.attempts == 0 && rec.fault.NoFault?)
                            || (rec.work.Extract? && rec.extraction == Some(Pending) && rec.extractionAttempts == 0))
    {
      hide Follows, Fair, Run;
      var got, copy, t, at := Get();
      if got.Err? {
        return Err(got.error), false;
      }
      var r := got.value;
      if r.retryKey == key {
        return Ok(r), false;
      }
      if r.state.Ready? && r.extraction == Some(Extraction.Unavailable) {
        o := RetryExtraction(key, r, t, at);
        wrote := o.Ok?;
        return;
      }
      var t2 := Clock();
      if !r.state.Failed? || t2 >= r.expiresAt {
        return Err(Conflict), false;
      }
      var t3 := Clock();
      var next := r;
      next := next.(state := Finalizing);
      next := next.(fault := NoFault);
      next := next.(work := Validate);
      next := next.(due := t3);
      next := next.(retryKey := key);
      next := next.(generation := next.generation + 1);
      next := next.(attempts := 0);
      next := next.(leaseUntil := 0);
      next := next.(revision := next.revision + 1);
      o := WriteBack(CaptureRules.Retry(t, key, t2, t3), r, next, at);
      wrote := o.Ok?;
    }

    method RetryExtraction(key: string, r: Record, t: int, at: int) returns (o: Result<Record, Refusal>)
      requires Valid() && Asks(r, at) && at <= t <= now && View(r, t) == r
      requires r.retryKey != key && r.state.Ready? && r.extraction == Some(Extraction.Unavailable)
      modifies this
      ensures Valid() && old(history) <= history
      ensures o.Ok? ==> o.value.retryKey == key && rec == o.value && rec.extraction == Some(Pending) && rec.extractionAttempts == 0
                        && rec.work.Extract? && rec.leaseUntil == 0
    {
      hide Follows, Fair, Run;
      var t2 := Clock();
      var next := r;
      next := next.(extraction := Some(Pending));
      next := next.(extractionAttempts := 0);
      next := next.(work := Extract);
      next := next.(due := t2);
      next := next.(retryKey := key);
      next := next.(generation := next.generation + 1);
      next := next.(revision := next.revision + 1);
      next := next.(leaseUntil := 0);
      o := WriteBack(CaptureRules.Retry(t, key, t2, t2), r, next, at);
    }

    /** Stores what the person confirmed; an identical repetition is answered without a write. */
    method Review(card: CardData, origin_: string, revision: int) returns (o: Result<Record, Refusal>)
      requires Valid()
      modifies this
      ensures Valid() && old(history) <= history
      ensures o.Ok? ==> o.value.reviewed.Some? && o.value.reviewed.value.data == card && o.value.reviewed.value.originCountry == origin_
    {
      hide Follows, Fair, Run;
      if !card.Valid() || card.Empty() {
        return Err(Invalid);
      }
      var got, copy, t, at := Get();
      if got.Err? {
        return Err(got.error);
      }
      var r := got.value;
      if r.state.Expired? {
        return Err(TooLate);
      }
      if !r.state.Ready? || r.extraction.None? || r.extraction.value.Pending? {
        return Err(Conflict);
      }
      if r.reviewed.Some? && r.reviewed.value.data == card && r.reviewed.value.originCountry == origin_ {
        return Ok(r);
      }
      if r.revision != revision {
        return Err(Conflict);
      }
      var t2 := Clock();
      var next := r;
      next := next.(revision := next.revision + 1);
      next := next.(reviewed := Some(Reviewed(origin_, card, t2)));
      o := WriteBack(CaptureRules.Review(t, revision, card, origin_, t2), r, next, at);
    }
  }

  lemma {:induction false} FoundUpload(uploads: seq<CaptureModel.Upload>, u: CaptureModel.Upload)
    requires u in uploads
    ensures FindUpload(uploads, u.id).Some?
  {
    if uploads[0].id != u.id {
      FoundUpload(uploads[1..], u);
    }
  }
}
