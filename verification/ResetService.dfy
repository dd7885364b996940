/**
 The reset service as it executes (envreset/service.go, envreset/aws.go, envreset/store.go), one store
 access or backend effect at a time while everything else goes on. `history` lists what happened since
 `origin`; that the fields follow the events is what makes every theorem about runs one about this code.
 */
module ResetService {
  import opened Basics
  import opened ResetModel
  import opened ResetWorld
  import opened ResetInvariant

  /** Events of a worker `j` or a request `k`. */
  predicate Concerns(e: Event, j: nat, k: nat) {
    match e
    case Asks(i) => i == k
    case Loads(i) => i == j
    case Claims(i, _, _) => i == j
    case ReadsLimit(i, _) => i == j
    case Limits(i, _, _) => i == j
    case GivesUpRestore(i) => i == j
    case Deletes(i, _) => i == j
    case FindsEmpty(i) => i == j
    case Settles(i, _, _) => i == j
    case Dies(i) => i == j
    case _ => false
  }

  /** What the actors `j` and `k` rely on. */
  predicate Apart(w: World, v: World, j: nat, k: nat) {
    && v.manifest == w.manifest && w.now <= v.now
    && (j in w.workers ==> j in v.workers && v.workers[j] == w.workers[j])
    && (k in w.requests ==> k in v.requests && v.requests[k] == w.requests[k])
  }

  lemma WorkersApart(w: World, i: nat, j: nat, k: nat, t: int, name: string, flag: bool)
    requires i != j
    ensures Apart(w, Claim(w, i, t, flag), j, k) && Apart(w, ReadLimit(w, i, name), j, k) && Apart(w, SetLimit(w, i, name, flag), j, k)
  {
  }

  lemma ClearersApart(w: World, i: nat, j: nat, k: nat, name: string)
    requires i != j
    ensures Apart(w, GiveUpRestore(w, i), j, k) && Apart(w, Delete(w, i, name), j, k) && Apart(w, FindEmpty(w, i), j, k)
  {
  }

  lemma SavesApart(w: World, i: nat, j: nat, k: nat, operation: string, actor: string, t1: int, t2: int, ok: bool)
    ensures Apart(w, Start(w, i, operation, actor, t1, t2), j, k) && Apart(w, Resume(w, i, operation, actor, t1, t2), j, k)
    ensures i != j ==> Apart(w, Settle(w, i, ok, t1), j, k)
  {
  }

  lemma OthersLeaveAlone(w: World, e: Event, j: nat, k: nat)
    requires !Concerns(e, j, k)
    ensures Apart(w, Step(w, e), j, k)
  {
    hide Claim, ReadLimit, SetLimit, GiveUpRestore, Delete, FindEmpty, Start, Resume, Settle, Insert;
    match e
    case Claims(i, t, reported) => WorkersApart(w, i, j, k, t, "", reported);
    case ReadsLimit(i, name) => WorkersApart(w, i, j, k, 0, name, true);
    case Limits(i, name, acked) => WorkersApart(w, i, j, k, 0, name, acked);
    case GivesUpRestore(i) => ClearersApart(w, i, j, k, "");
    case Deletes(i, item) => ClearersApart(w, i, j, k, item);
    case FindsEmpty(i) => ClearersApart(w, i, j, k, "");
    case Starts(i, operation, actor, t1, t2) => SavesApart(w, i, j, k, operation, actor, t1, t2, true);
    case Resumes(i, operation, actor, t1, t2) => SavesApart(w, i, j, k, operation, actor, t1, t2, true);
    case Settles(i, ok, u) => SavesApart(w, i, j, k, "", "", u, u, ok);
    case _ =>
  }

  lemma {:induction false} OthersRun(w: World, es: seq<Event>, j: nat, k: nat)
    requires forall e | e in es :: !Concerns(e, j, k)
    ensures Apart(w, Run(w, es), j, k)
    decreases |es|
  {
    hide Step;
    if es != [] {
      OthersLeaveAlone(w, es[0], j, k);
      OthersRun(Step(w, es[0]), es[1..], j, k);
    }
  }

  /** How a backend call ended for its caller: `Killed` when the runtime ended the invocation meanwhile. */
  datatype Reply = Fine | Failed | Killed

  datatype Outcome =
    | NotDue(read: State, t: int)
    | Lost
    | Saved(claimed: State, t: int, answer: Answer, u: int)

  datatype Request = Request(environment: string, confirmation: string, operation: string, wellFormed: bool, actor: string)

  datatype Refusal = Disabled | Invalid | Conflict | Unavailable

  predicate UpTo(a: string, b: string) {
    a == "" || (b != "" && (a[0] < b[0] || (a[0] == b[0] && UpTo(a[1..], b[1..]))))
  }

  function Insert(name: string, sorted: seq<string>): seq<string> {
    if sorted == [] || UpTo(name, sorted[0]) then [name] + sorted else [sorted[0]] + Insert(name, sorted[1..])
  }

  /** The names in order. */
  function Sorted(names: seq<string>): seq<string> {
    if names == [] then [] else Insert(names[0], Sorted(names[1..]))
  }

  lemma HeadName(names: seq<string>)
    requires names != []
    ensures Names(names) == Names(names[1..]) + {names[0]}
  {
    assert names == [names[0]] + names[1..];
  }

  lemma {:induction false} InsertNames(name: string, sorted: seq<string>)
    ensures Names(Insert(name, sorted)) == Names(sorted) + {name}
  {
    if sorted != [] && !UpTo(name, sorted[0]) {
      InsertNames(name, sorted[1..]);
      HeadName(sorted);
      assert Insert(name, sorted)[1..] == Insert(name, sorted[1..]);
      HeadName(Insert(name, sorted));
    } else {
      assert Insert(name, sorted)[1..] == sorted;
      HeadName(Insert(name, sorted));
    }
  }

  lemma {:induction false} SortedNames(names: seq<string>)
    ensures Names(Sorted(names)) == Names(names)
  {
    if names != [] {
      SortedNames(names[1..]);
      InsertNames(names[0], Sorted(names[1..]));
      HeadName(names);
    }
  }

  ghost predicate Follows(origin: World, history: seq<Event>, w: World) {
    Inv(origin) && w == Run(origin, history)
  }

  /** The others do not act in this worker's or this request's name. */
  ghost predicate Fair(others: nat -> seq<Event>, j: nat, k: nat) {
    forall n, e | e in others(n) :: !Concerns(e, j, k)
  }

  lemma FollowsOn(origin: World, history: seq<Event>, w: World, es: seq<Event>)
    requires Follows(origin, history, w)
    ensures Follows(origin, history + es, Run(w, es))
  {
    RunAppend(origin, history, es);
  }

  lemma FollowsStep(origin: World, history: seq<Event>, w: World, e: Event)
    requires Follows(origin, history, w)
    ensures Follows(origin, history + [e], Step(w, e))
  {
    FollowsOn(origin, history, w, [e]);
    assert Run(w, [e]) == Run(Step(w, e), [e][1..]);
  }

  lemma FollowsInv(origin: World, history: seq<Event>, w: World)
    requires Follows(origin, history, w)
    ensures Inv(w)
  {
    RunKeeps(origin, history);
  }

  lemma OthersTurn(others: nat -> seq<Event>, turn: nat, w: World, j: nat, k: nat)
    requires Fair(others, j, k)
    ensures Apart(w, Run(w, others(turn)), j, k)
  {
    OthersRun(w, others(turn), j, k);
  }

  /** A page of a listing; one that is not marked as truncated is the whole listing. */
  method Page(listing: set<string>, cut: bool) returns (page: seq<string>, truncated: bool)
    ensures forall x | x in page :: x in listing
    ensures page == [] && !truncated ==> listing == {}
    ensures !cut && page == [] ==> !truncated
    ensures |page| <= 25
  {
    if cut {
      return [], true;
    }
    page := [];
    var rest := listing;
    while rest != {} && |page| < 25
      invariant rest <= listing && |page| <= 25 && (page == [] ==> rest == listing)
      invariant forall x | x in page :: x in listing
      decreases |rest|
    {
      var x :| x in rest;
      page, rest := page + [x], rest - {x};
    }
    truncated := rest != {};
  }

  class Environment {
    var now: int
    var state: State
    var limits: map<string, int>
    var data: Data
    var invocations: map<nat, Invocation>
    var urls: set<int>
    var requests: map<nat, State>
    var workers: map<nat, Worker>
    var configured: map<string, int>
    var final: (int, string)
    var turn: nat
    const manifest: Manifest
    const worker: nat
    const request: nat
    /** What the others do, and whether a call is answered and a failed one has landed all the same, at each turn. */
    const others: nat -> seq<Event>
    const works: nat -> bool
    const lands: nat -> bool
    const environment: string
    const enabled: bool
    ghost const origin: World
    ghost var history: seq<Event>

    constructor (w: World, j: nat, k: nat, others: nat -> seq<Event>, works: nat -> bool, lands: nat -> bool, name: string, enabled: bool)
      requires Fresh(w) && (forall f | f in w.configured :: w.configured[f] >= -1) && Fair(others, j, k)
      ensures Valid() && Whole() == w && history == []
    {
      now, state, limits, data, invocations, urls := w.now, w.state, w.limits, w.data, w.invocations, w.urls;
      requests, workers, configured, final := w.requests, w.workers, w.configured, w.final;
      manifest, worker, request, environment := w.manifest, j, k, name;
      this.others, this.works, this.lands, this.enabled := others, works, lands, enabled;
      turn, origin, history := 0, w, [];
      new;
      FreshInv(w);
    }

    function Whole(): World
      reads this
    {
      World(now, manifest, state, limits, data, invocations, urls, requests, workers, configured, final)
    }

    ghost predicate Valid()
      reads this
    {
      Follows(origin, history, Whole()) && Fair(others, worker, request)
    }

    lemma ValidInv()
      requires Valid()
      ensures Inv(Whole())
    {
      FollowsInv(origin, history, Whole());
    }

    ghost method Note(before: World, e: Event)
      requires Follows(origin, history, before) && Whole() == Step(before, e) && Fair(others, worker, request)
      modifies this`history
      ensures Valid() && history == old(history) + [e]
    {
      FollowsStep(origin, history, before, e);
      history := history + [e];
    }

    method Become(w: World)
      requires w.manifest == manifest
      modifies this
      ensures Whole() == w && turn == old(turn) && history == old(history)
    {
      now, state, limits, data, invocations, urls := w.now, w.state, w.limits, w.data, w.invocations, w.urls;
      requests, workers, configured, final := w.requests, w.workers, w.configured, w.final;
    }

    /** Whatever the others do next. */
    method Others()
      requires Valid()
      modifies this
      ensures Valid() && old(history) <= history && Whole() == Run(old(Whole()), others(old(turn)))
      ensures worker in old(workers) ==> worker in workers && workers[worker] == old(workers)[worker]
      ensures request in old(requests) ==> request in requests && requests[request] == old(requests)[request]
      ensures old(now) <= now
    {
      hide Follows, Run, Fair;
      var es := others(turn);
      OthersTurn(others, turn, Whole(), worker, request);
      FollowsOn(origin, history, Whole(), es);
      Become(Run(Whole(), es));
      history := history + es;
      turn := turn + 1;
    }

    /** The conditional write: it commits only when the stored revision is the one that was read. */
    method Save(read: State, next: State) returns (committed: bool)
      modifies this`state
      ensures committed == (old(state).revision == read.revision)
      ensures state == if committed then next else old(state)
    {
      committed := state.revision == read.revision;
      if committed {
        state := next;
      }
    }

    method Load() returns (r: State)
      requires Valid()
      modifies this
      ensures Valid() && old(history) <= history
      ensures old(now) <= now && r == state && worker in workers && workers[worker] == Worker(r, now, now, Loaded)
    {
      Others();
      ghost var before := Whole();
      r := state;
      workers := workers[worker := Worker(r, now, now, Loaded)];
      Note(before, Loads(worker));
    }

    // ---- Requests ----

    method Read() returns (r: State)
      requires Valid()
      modifies this
      ensures Valid() && old(history) <= history
      ensures r == state && request in requests && requests[request] == r
    {
      Others();
      ghost var before := Whole();
      r := state;
      requests := requests[request := r];
      Note(before, Asks(request));
    }

    /** `read` is the state the request loaded, `lost` whether another write came first. */
    method Start(q: Request) returns (r: Result<State, Refusal>, read: State, lost: bool)
      requires Valid()
      modifies this
      ensures Valid() && old(history) <= history
      ensures r == Err(Disabled) <==> !enabled
      ensures r == Err(Invalid) <==> enabled && !WellFormed(q)
      ensures r == Err(Conflict) ==> read.operation != q.operation && (!Idle(read) || lost)
      ensures lost ==> r == Err(Conflict) && state.revision != read.revision
      ensures r.Ok? && read.operation == q.operation ==> r.value == read
      ensures r.Ok? && read.operation != q.operation ==>
                Idle(read) && state == r.value && exists t1, t2 :: state == Started(read, q.operation, q.actor, t1, t2)
    {
      hide Follows, Fair, Run;
      read, lost := NO_STATE, false;
      if !enabled {
        return Err(Disabled), read, lost;
      }
      if q.environment != environment || q.confirmation != environment || !q.wellFormed || q.actor == "" || |q.actor| > 128 {
        return Err(Invalid), read, lost;
      }
      read := Read();
      if !works(turn) {
        return Err(Unavailable), read, lost;
      }
      if read.operation == q.operation {
        return Ok(read), read, lost;
      }
      if !read.phase.NoPhase? && !read.phase.Complete? {
        return Err(Conflict), read, lost;
      }
      r, lost := StartNew(q, read);
    }

    predicate WellFormed(q: Request) {
      q.environment == environment == q.confirmation && q.wellFormed && 0 < |q.actor| <= 128
    }

    method StartNew(q: Request, read: State) returns (r: Result<State, Refusal>, lost: bool)
      requires Valid() && request in requests && requests[request] == read && Idle(read) && read.operation != q.operation
      modifies this
      ensures Valid() && old(history) <= history
      ensures r.Err? ==> r.error == Conflict || r.error == Unavailable
      ensures lost <==> r == Err(Conflict)
      ensures lost ==> state.revision != read.revision
      ensures r.Ok? ==> state == r.value && state.operation == q.operation
                        && exists t1, t2 :: state == Started(read, q.operation, q.actor, t1, t2)
    {
      hide Follows, Fair, Run;
      Others();
      var t1 := now;
      Others();
      var t2 := now;
      Others();
      var next := State(read.revision + 1, q.operation, q.actor, Snapshot, false, t1, t2, 0, read.validAfter, 0, map[]);
      ghost var before := Whole();
      var committed := Save(read, next);
      assert next == Started(read, q.operation, q.actor, t1, t2);
      Note(before, Starts(request, q.operation, q.actor, t1, t2));
      lost := !committed;
      r := if lost then Err(Conflict) else if works(turn) then Ok(next) else Err(Unavailable);
    }

    method Resume(q: Request) returns (r: Result<State, Refusal>)
      requires Valid()
      modifies this
      ensures Valid() && old(history) <= history
      ensures r.Ok? ==> !r.value.failed && r.value.operation == q.operation && state == r.value
      ensures r == Err(Disabled) <==> !enabled
    {
      hide Follows, Fair, Run;
      if !enabled {
        return Err(Disabled);
      }
      var read := Read();
      if !works(turn) {
        return Err(Unavailable);
      }
      Others();
      var t1 := now;
      if q.environment != environment || q.confirmation != environment || q.operation != read.operation || q.actor == ""
         || !read.failed || read.leaseUntil > t1
      {
        return Err(Invalid);
      }
      var next := read;
      next := next.(failed := false);
      next := next.(revision := next.revision + 1);
      Others();
      var t2 := now;
      next := next.(updatedAt := t2);
      Others();
      var committed := SaveResumed(q, read, next, t1, t2);
      return if !committed then Err(Conflict) else if works(turn) then Ok(next) else Err(Unavailable);
    }

    method SaveResumed(q: Request, read: State, next: State, t1: int, t2: int) returns (committed: bool)
      requires Valid() && request in requests && requests[request] == read && t1 <= t2 <= now && next == Resumed(read, t2)
      requires q.operation == read.operation && q.actor != "" && read.failed && read.leaseUntil <= t1
      modifies this`state, this`history
      ensures Valid() && old(history) <= history && (committed ==> state == next)
    {
      hide Follows, Fair, Run;
      ghost var before := Whole();
      committed := Save(read, next);
      Note(before, Resumes(request, q.operation, q.actor, t1, t2));
    }

    // ---- The backend ----

    /** The worker's bookkeeping: it claimed `r` at `t` and is at `stage`. */
    ghost predicate Holding(r: State, at: int, t: int, stage: Stage)
      reads this
    {
      worker in workers && workers[worker] == Worker(r, at, t, stage) && !stage.Loaded?
    }

    /** The calling worker has not been ended by the runtime, and the functions it works on exist. */
    lemma HolderSees(r: State, at: int, t: int, stage: Stage)
      requires Valid() && Holding(r, at, t, stage) && now <= at + RESET_LIMIT
      ensures r == state && Names(manifest.functions) <= limits.Keys && t <= now
    {
      ValidInv();
      HolderFacts(Whole(), worker);
    }

    /** The caller's next moment: others act first, the runtime may have ended it, or the call may fail. */
    method Await(at: int) returns (reply: Reply)
      requires Valid()
      modifies this
      ensures Valid() && old(history) <= history && old(now) <= now
      ensures worker in old(workers) ==> worker in workers && workers[worker] == old(workers)[worker]
      ensures reply.Killed? <==> now > at + RESET_LIMIT
    {
      Others();
      reply := if now > at + RESET_LIMIT then Killed else if works(turn) then Fine else Failed;
    }

    method TakeSnapshot(r: State, at: int, t: int) returns (reply: Reply, out: map<string, int>)
      requires Valid() && Holding(r, at, t, Reading(map[]))
      modifies this
      ensures Valid() && old(history) <= history && old(now) <= now
      ensures !reply.Killed? ==> now <= at + RESET_LIMIT && exists got :: Holding(r, at, t, Reading(got))
      ensures reply.Fine? ==> Holding(r, at, t, Reading(out)) && out.Keys == Names(manifest.functions)
    {
      hide Follows, Fair, Run;
      out := map[];
      reply := Await(at);
      if !reply.Fine? {
        return;
      }
      var k := 0;
      while k < |manifest.functions|
        invariant 0 <= k <= |manifest.functions| && reply.Fine? && now <= at + RESET_LIMIT
        invariant Valid() && old(history) <= history && old(now) <= now && Holding(r, at, t, Reading(out))
        invariant out.Keys == Names(manifest.functions[..k])
      {
        reply := Await(at);
        if !reply.Fine? {
          return;
        }
        HolderSees(r, at, t, Reading(out));
        var name := manifest.functions[k];
        ghost var before := Whole();
        out := out[name := limits[name]];
        workers := workers[worker := Worker(r, at, t, Reading(out))];
        Note(before, ReadsLimit(worker, name));
        assert manifest.functions[..k + 1] == manifest.functions[..k] + [name];
        k := k + 1;
      }
      assert manifest.functions[..k] == manifest.functions;
    }

    /** One concurrency call. A call that fails may have taken effect all the same. */
    method SetConcurrency(r: State, at: int, t: int, stage: Stage, name: string, count: int) returns (reply: Reply)
      requires Valid() && Holding(r, at, t, stage) && (stage.Pausing? || stage.Repausing? || stage.Restoring?)
      requires name in manifest.functions && ValidSnapshot(r.concurrency, manifest.functions)
      requires count == Target(Worker(r, at, t, stage), name)
      modifies this
      ensures Valid() && old(history) <= history && old(now) <= now
      ensures reply.Killed? || now <= at + RESET_LIMIT
      ensures !reply.Killed? ==> Holding(r, at, t, if reply.Fine? then Counted(stage, name) else stage)
    {
      hide Follows, Fair, Run;
      reply := Await(at);
      if reply.Killed? || (reply.Failed? && !lands(turn)) {
        return;
      }
      HolderSees(r, at, t, stage);
      ghost var before := Whole();
      limits := limits[name := count];
      if reply.Fine? {
        workers := workers[worker := Worker(r, at, t, Counted(stage, name))];
      }
      Note(before, Limits(worker, name, reply.Fine?));
    }

    method ValidateSnapshot(snapshot: map<string, int>) returns (ok: bool)
      ensures ok == ValidSnapshot(snapshot, manifest.functions)
    {
      if |snapshot| != |manifest.functions| {
        return false;
      }
      var k := 0;
      while k < |manifest.functions|
        invariant 0 <= k <= |manifest.functions|
        invariant forall f | f in manifest.functions[..k] :: f in snapshot && snapshot[f] >= -1
      {
        var name := manifest.functions[k];
        if name !in snapshot || snapshot[name] < -1 {
          return false;
        }
        assert manifest.functions[..k + 1] == manifest.functions[..k] + [name];
        k := k + 1;
      }
      assert manifest.functions[..k] == manifest.functions;
      return true;
    }

    method Pause(r: State, at: int, t: int, stage: Stage) returns (reply: Reply, reached: Stage)
      requires Valid() && Holding(r, at, t, stage) && now <= at + RESET_LIMIT && (stage == Pausing({}) || stage == Repausing)
      modifies this
      ensures Valid() && old(history) <= history && old(now) <= now
      ensures !reply.Killed? ==> now <= at + RESET_LIMIT && Holding(r, at, t, reached) && (reached.Repausing? <==> stage.Repausing?)
      ensures reply.Fine? && stage.Pausing? ==> reached == Pausing(Names(manifest.functions)) && ValidSnapshot(r.concurrency, manifest.functions)
    {
      hide Follows, Fair, Run;
      reached := stage;
      var ok := ValidateSnapshot(r.concurrency);
      if !ok {
        return Failed, stage;
      }
      reply := Fine;
      var k := 0;
      while k < |manifest.functions|
        invariant 0 <= k <= |manifest.functions| && reply.Fine? && now <= at + RESET_LIMIT
        invariant Valid() && old(history) <= history && old(now) <= now && Holding(r, at, t, reached)
        invariant reached == if stage.Pausing? then Pausing(Names(manifest.functions[..k])) else stage
      {
        var name := manifest.functions[k];
        reply := SetConcurrency(r, at, t, reached, name, 0);
        if !reply.Fine? {
          return;
        }
        assert manifest.functions[..k + 1] == manifest.functions[..k] + [name];
        reached := Counted(reached, name);
        k := k + 1;
      }
      assert manifest.functions[..k] == manifest.functions;
    }

    lemma NameAt(names: seq<string>, k: nat)
      requires k < |names|
      ensures Names(names[..k + 1]) == Names(names[..k]) + {names[k]} && names[k] in Names(names)
    {
      assert names[..k + 1] == names[..k] + [names[k]];
    }

    /** Sets one function back to its saved value, where every negative value stands for no limit. */
    method RestoreOne(r: State, at: int, t: int, stage: Stage, name: string) returns (reply: Reply)
      requires Valid() && Holding(r, at, t, stage) && stage.Restoring?
      requires name in manifest.functions && ValidSnapshot(r.concurrency, manifest.functions)
      modifies this
      ensures Valid() && old(history) <= history && old(now) <= now
      ensures reply.Killed? || now <= at + RESET_LIMIT
      ensures !reply.Killed? ==> Holding(r, at, t, if reply.Fine? then Counted(stage, name) else stage)
    {
      hide Follows, Fair, Run;
      var count := if r.concurrency[name] < 0 then -1 else r.concurrency[name];
      reply := SetConcurrency(r, at, t, stage, name, count);
    }

    method Restore(r: State, at: int, t: int) returns (reply: Reply, reached: Stage)
      requires Valid() && Holding(r, at, t, Restoring({})) && now <= at + RESET_LIMIT
      modifies this
      ensures Valid() && old(history) <= history && old(now) <= now
      ensures !reply.Killed? ==> now <= at + RESET_LIMIT && Holding(r, at, t, reached) && reached.Restoring?
      ensures reply.Fine? ==> reached == Restoring(Names(manifest.functions)) && ValidSnapshot(r.concurrency, manifest.functions)
    {
      hide Follows, Fair, Run;
      reached := Restoring({});
      var ok := ValidateSnapshot(r.concurrency);
      if !ok {
        return Failed, reached;
      }
      var names := Sorted(manifest.functions);
      SortedNames(manifest.functions);
      reply := Fine;
      var k := 0;
      while k < |names|
        invariant 0 <= k <= |names| && reply.Fine? && now <= at + RESET_LIMIT
        invariant Valid() && old(history) <= history && old(now) <= now && Holding(r, at, t, reached)
        invariant reached == Restoring(Names(names[..k]))
      {
        NameAt(names, k);
        reply := RestoreOne(r, at, t, reached, names[k]);
        if !reply.Fine? {
          return;
        }
        reached := Counted(reached, names[k]);
        k := k + 1;
      }
      assert names[..k] == names;
    }

    /** Deletes listed items one by one; a failed call may have deleted its item. With `skips` an item may stay behind unreported. */
    method DeletePage(r: State, at: int, t: int, found: nat, page: seq<string>, skips: bool) returns (reply: Reply)
      requires Valid() && Holding(r, at, t, Clearing(found)) && now <= at + RESET_LIMIT && found < Listings(manifest, r.phase)
      modifies this
      ensures Valid() && old(history) <= history && old(now) <= now
      ensures !reply.Killed? ==> now <= at + RESET_LIMIT && Holding(r, at, t, Clearing(found))
    {
      hide Follows, Fair, Run, Listing;
      reply := Fine;
      var k := 0;
      while k < |page|
        invariant 0 <= k <= |page| && reply.Fine? && now <= at + RESET_LIMIT
        invariant Valid() && old(history) <= history && old(now) <= now && Holding(r, at, t, Clearing(found))
      {
        reply := Await(at);
        if reply.Killed? {
          return;
        }
        if (if reply.Fine? then !skips || lands(turn) else lands(turn)) {
          ghost var before := Whole();
          data := Remove(data, manifest, r.phase, found, page[k]);
          Note(before, Deletes(worker, page[k]));
        }
        if reply.Failed? {
          return;
        }
        k := k + 1;
      }
    }

    /** A listing was empty. */
    method Tick(r: State, at: int, t: int, found: nat)
      requires Valid() && Holding(r, at, t, Clearing(found)) && now <= at + RESET_LIMIT && found < Listings(manifest, r.phase)
      requires Listing(data, manifest, r.phase, found) == {}
      modifies this
      ensures Valid() && old(history) <= history && now == old(now)
      ensures Holding(r, at, t, Clearing(found + 1))
    {
      hide Follows, Fair, Run;
      ghost var before := Whole();
      workers := workers[worker := Worker(r, at, t, Clearing(found + 1))];
      Note(before, FindsEmpty(worker));
    }

    /** Users, or object versions, a page at a time. The bucket may answer with an empty page that is only part of its listing. */
    method ClearOne(r: State, at: int, t: int) returns (reply: Reply, done: bool)
      requires Valid() && Holding(r, at, t, Clearing(0)) && now <= at + RESET_LIMIT && (r.phase.Users? || r.phase.Objects?)
      modifies this
      ensures Valid() && old(history) <= history && old(now) <= now
      ensures !reply.Killed? ==> now <= at + RESET_LIMIT && Holding(r, at, t, Clearing(if reply.Fine? && done then 1 else 0))
    {
      hide Follows, Fair, Run;
      done := false;
      reply := Await(at);
      if !reply.Fine? {
        return;
      }
      var listing := Listing(data, manifest, r.phase, 0);
      var page, truncated := Page(listing, r.phase.Objects? && lands(turn));
      if page == [] && !truncated {
        Tick(r, at, t, 0);
        return Fine, true;
      }
      reply := DeletePage(r, at, t, 0, page, false);
    }

    /** The first table that has rows loses some of them; the phase is done when a scan finds every table empty. */
    method ClearTables(r: State, at: int, t: int) returns (reply: Reply, done: bool)
      requires Valid() && Holding(r, at, t, Clearing(0)) && now <= at + RESET_LIMIT && r.phase.Tables?
      modifies this
      ensures Valid() && old(history) <= history && old(now) <= now
      ensures !reply.Killed? ==>
                now <= at + RESET_LIMIT
                && exists found :: Holding(r, at, t, Clearing(found)) && (reply.Fine? ==> (done <==> found == |manifest.tables|))
    {
      hide Follows, Fair, Run, Listing;
      reply, done := Fine, false;
      var k := 0;
      while k < |manifest.tables|
        invariant 0 <= k <= |manifest.tables| && reply.Fine? && now <= at + RESET_LIMIT
        invariant Valid() && old(history) <= history && old(now) <= now && Holding(r, at, t, Clearing(k))
      {
        reply := Await(at);
        if !reply.Fine? {
          return;
        }
        var listing := Listing(data, manifest, r.phase, k);
        var page, truncated := Page(listing, false);
        if page != [] {
          reply := DeletePage(r, at, t, k, page, true);
          return;
        }
        Tick(r, at, t, k);
        k := k + 1;
      }
      done := true;
    }

    // ---- The worker ----

    /** The stage that was reached entitles the worker to its answer. */
    predicate Backs(stage: Stage, r: State, at: int, t: int, answer: Answer) {
      if answer.Error? then r.phase.Restore? ==> stage.Restoring?
      else Finding(manifest, Worker(r, at, t, stage)) == Some(answer)
    }

    /** The phase's work: the answer it gives for the final save, `None` when the runtime ended the invocation. */
    method Effect(r: State, at: int, t: int) returns (answer: Option<Answer>)
      requires Valid() && Holding(r, at, t, FirstStage(r.phase)) && now <= at + RESET_LIMIT && !Idle(r)
      modifies this
      ensures Valid() && old(history) <= history && old(now) <= now
      ensures answer.Some? ==> now <= at + RESET_LIMIT && exists stage :: Holding(r, at, t, stage) && Backs(stage, r, at, t, answer.value)
    {
      hide Follows, Fair, Run, Listing, ValidSnapshot;
      var reply, done, out, stage := Fine, true, map[], FirstStage(r.phase);
      match r.phase {
        case Snapshot => reply, out := TakeSnapshot(r, at, t);
        case Pause => reply, stage := Pause(r, at, t, Pausing({}));
        case Purge => reply := Await(at);
        case Users => reply, done := ClearOne(r, at, t);
        case Objects => reply, done := ClearOne(r, at, t);
        case Tables => reply, done := ClearTables(r, at, t);
        case Restore => reply, stage := Restore(r, at, t);
        case _ =>
      }
      if reply.Killed? {
        return None;
      }
      stage := workers[worker].stage;
      answer := Some(if reply.Failed? then Error else if r.phase.Snapshot? then Taken(out) else if done then Done else More);
      assert Holding(r, at, t, stage) && Backs(stage, r, at, t, answer.value);
    }

    /** One invocation of the reset worker. */
    method Work() returns (o: Outcome)
      requires Valid()
      modifies this
      ensures Valid() && old(history) <= history && old(now) <= now
      ensures o.NotDue? ==> !MayClaim(o.read, o.t)
      ensures o.Saved? ==> state == Settled(o.claimed, o.t, o.answer, o.u) && worker !in workers
    {
      hide Follows, Fair, Run;
      var r := Load();
      var at := now;
      Others();
      var t := now;
      if r.phase.NoPhase? || r.phase.Complete? || r.failed || r.leaseUntil > t || r.due > t {
        return NotDue(r, t);
      }
      var claimed := Claim(r, at, t);
      if !claimed {
        return Lost;
      }
      r := r.(revision := r.revision + 1, leaseUntil := t + RESET_LEASE);
      var answer := Effect(r, at, t);
      if answer.None? {
        return Lost;
      }
      o := Finish(r, at, t, answer.value);
    }

    method Claim(r: State, at: int, t: int) returns (claimed: bool)
      requires Valid() && worker in workers && workers[worker] == Worker(r, at, at, Loaded) && at <= t <= now && MayClaim(r, t)
      modifies this
      ensures Valid() && old(history) <= history && old(now) <= now
      ensures claimed ==> now <= at + RESET_LIMIT && Holding(ClaimedAt(r, t), at, t, FirstStage(r.phase))
    {
      hide Follows, Fair, Run;
      var reply := Await(at);
      if reply.Killed? {
        return false;
      }
      ghost var before := Whole();
      var next := r;
      next := next.(revision := next.revision + 1);
      next := next.(leaseUntil := t + 90);
      var committed := Save(r, next);
      claimed := committed && reply.Fine?;
      workers := if claimed then workers[worker := Worker(next, at, t, FirstStage(next.phase))] else workers - {worker};
      Note(before, Claims(worker, t, reply.Fine?));
    }

    /** The final save; a failed restore first tries to pause everything again. */
    method Finish(r: State, at: int, t: int, answer: Answer) returns (o: Outcome)
      requires Valid() && now <= at + RESET_LIMIT && t <= now
      requires exists stage :: Holding(r, at, t, stage) && Backs(stage, r, at, t, answer)
      modifies this
      ensures Valid() && old(history) <= history && old(now) <= now
      ensures o == Lost || (o.Saved? && o.claimed == r && o.t == t && o.answer == answer
                            && state == Settled(r, t, answer, o.u) && worker !in workers)
    {
      hide Follows, Fair, Run;
      var next := r;
      match answer {
        case Error => if r.phase.Snapshot? { next := next.(concurrency := map[]); }
        case Taken(snapshot) => next := next.(concurrency := snapshot, phase := ResetModel.Pause);
        case Done =>
          next := next.(phase := Following(r.phase));
          if r.phase.Pause? { next := next.(due := t + 420); }
          if r.phase.Purge? { next := next.(due := t + 60); }
          if r.phase.Objects? { next := next.(validAfter := t); }
        case More =>
      }
      next := next.(revision := next.revision + 1, leaseUntil := 0);
      var u := now;
      next := next.(updatedAt := u);
      if answer.Error? {
        if r.phase.Restore? {
          var killed := PauseAgain(r, at, t);
          if killed {
            return Lost;
          }
          next := next.(phase := ResetModel.Pause);
        }
        next := next.(failed := true);
      }
      o := SaveLast(r, at, t, answer, workers[worker].stage, u, next);
    }

    method PauseAgain(r: State, at: int, t: int) returns (killed: bool)
      requires Valid() && now <= at + RESET_LIMIT && t <= now
      requires exists stage :: Holding(r, at, t, stage) && stage.Restoring?
      modifies this
      ensures Valid() && old(history) <= history && old(now) <= now
      ensures !killed ==> now <= at + RESET_LIMIT && Holding(r, at, t, Repausing)
    {
      hide Follows, Fair, Run;
      ghost var before := Whole();
      workers := workers[worker := Worker(r, at, t, Repausing)];
      Note(before, GivesUpRestore(worker));
      var reply, _ := Pause(r, at, t, Repausing);
      killed := reply.Killed?;
    }

    method SaveLast(r: State, at: int, t: int, answer: Answer, stage: Stage, u: int, next: State) returns (o: Outcome)
      requires Valid() && now <= at + RESET_LIMIT && t <= u <= now
      requires Holding(r, at, t, stage) && (answer.Error? || Finding(manifest, Worker(r, at, t, stage)) == Some(answer))
      requires next == Settled(r, t, answer, u)
      modifies this
      ensures Valid() && old(history) <= history && old(now) <= now
      ensures o == Lost || (o == Saved(r, t, answer, u) && state == next && worker !in workers)
    {
      hide Follows, Fair, Run, Finding, Settled;
      var reply := Await(at);
      if reply.Killed? {
        return Lost;
      }
      var committed := SaveAndLeave(r, at, t, answer, stage, u, next);
      return if committed then Saved(r, t, answer, u) else Lost;
    }

    lemma SettleComesTo(w: World, j: nat, answer: Answer, u: int)
      requires j in w.workers && !w.workers[j].stage.Loaded? && w.now <= w.workers[j].at + RESET_LIMIT && w.workers[j].t <= u <= w.now
      requires answer.Error? || Finding(w.manifest, w.workers[j]) == Some(answer)
      ensures var v := w.workers[j];
              var next, saved := Settled(v.copy, v.t, answer, u), w.state.revision == v.copy.revision;
              Step(w, Settles(j, !answer.Error?, u))
              == w.(workers := w.workers - {j}, state := if saved then next else w.state,
                    final := if saved && next.phase.Restore? then (v.at, next.operation) else w.final)
    {
      hide Settled;
      if !answer.Error? {
        FindingIsGood(w.manifest, w.workers[j]);
      }
      hide Finding;
    }

    lemma FindingIsGood(m: Manifest, v: Worker)
      requires Finding(m, v).Some?
      ensures !Finding(m, v).value.Error?
    {
    }

    /** The save itself, by a worker that is still alive; with it the worker is done. */
    method SaveAndLeave(r: State, at: int, t: int, answer: Answer, stage: Stage, u: int, next: State) returns (committed: bool)
      requires Valid() && now <= at + RESET_LIMIT && t <= u <= now
      requires Holding(r, at, t, stage) && (answer.Error? || Finding(manifest, Worker(r, at, t, stage)) == Some(answer))
      requires next == Settled(r, t, answer, u)
      modifies this`state, this`workers, this`final, this`history
      ensures Valid() && old(history) <= history && worker !in workers
      ensures committed ==> state == next
    {
      hide Follows, Fair, Run, Finding, Settled, Step;
      SettleComesTo(Whole(), worker, answer, u);
      ghost var before := Whole();
      committed := Save(r, next);
      workers := workers - {worker};
      final := if committed && next.phase.Restore? then (at, next.operation) else final;
      Note(before, Settles(worker, !answer.Error?, u));
    }
  }
}
