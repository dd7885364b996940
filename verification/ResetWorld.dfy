/**
 An environment under reset as all its actors see it: the control item, the functions' concurrency,
 the users, rows and objects, the functions' invocations with the upload URLs they sign, the reset
 requests and the reset workers in flight. Every access and every effect is one event.
 */
module ResetWorld {
  import opened Basics
  import opened ResetModel

  /** An invocation of a listed function (no other function touches the data); those that sign upload URLs end within the request limit, the others within the worker limit. */
  datatype Invocation = Invocation(name: string, at: int, signs: bool)

  datatype Data = Data(users: set<string>, rows: map<string, set<string>>, objects: set<string>)

  datatype Stage =
    | Loaded
    | Reading(got: map<string, int>)
    | Pausing(paused: set<string>)
    | Passing
    | Clearing(found: nat)
    | Restoring(restored: set<string>)
    | Repausing

  /** A reset worker that loaded `copy` at `at`; `t` is the clock reading of its claim. */
  datatype Worker = Worker(copy: State, at: int, t: int, stage: Stage)

  /**
   Two fields only record history: `configured` is the concurrency the deployment gave each function,
   `final` when and in which operation a worker that entered the restore phase was invoked.
   */
  datatype World = World(
    now: int,
    manifest: Manifest,
    state: State,
    limits: map<string, int>,
    data: Data,
    invocations: map<nat, Invocation>,
    urls: set<int>,
    requests: map<nat, State>,
    workers: map<nat, Worker>,
    configured: map<string, int>,
    final: (int, string))

  datatype Kind = User | Row(table: string) | Object

  datatype Event =
    | Ticks(seconds: nat)
    | Configures(name: string, limit: int)
    | Invokes(i: nat, name: string, signs: bool)
    | Adds(i: nat, kind: Kind, item: string)
    | Signs(i: nat)
    | Puts(expiry: int, item: string)
    | Asks(k: nat)
    | Starts(k: nat, operation: string, actor: string, t1: int, t2: int)
    | Resumes(k: nat, operation: string, actor: string, t1: int, t2: int)
    | Loads(j: nat)
    | Claims(j: nat, t: int, reported: bool)
    | ReadsLimit(j: nat, name: string)
    | Limits(j: nat, name: string, acked: bool)
    | GivesUpRestore(j: nat)
    | Deletes(j: nat, item: string)
    | FindsEmpty(j: nat)
    | Settles(j: nat, ok: bool, u: int)
    | Dies(j: nat)

  predicate Runs(v: Invocation, now: int) {
    now <= v.at + (if v.signs then REQUEST_LIMIT else WORKER_LIMIT)
  }

  predicate Alive(w: Worker, now: int) {
    now <= w.at + RESET_LIMIT
  }

  function Insert(d: Data, kind: Kind, item: string): Data {
    match kind
    case User => d.(users := d.users + {item})
    case Row(table) => d.(rows := d.rows[table := RowsOf(d, table) + {item}])
    case Object => d.(objects := d.objects + {item})
  }

  function RowsOf(d: Data, table: string): set<string> {
    if table in d.rows then d.rows[table] else {}
  }

  /** How many listings a clearing phase looks at, and the items that the `k`-th one shows. */
  function Listings(m: Manifest, p: Phase): nat {
    if p.Tables? then |m.tables| else 1
  }

  function Listing(d: Data, m: Manifest, p: Phase, k: nat): set<string>
    requires k < Listings(m, p)
  {
    if p.Users? then d.users else if p.Tables? then RowsOf(d, m.tables[k]) else d.objects
  }

  function Remove(d: Data, m: Manifest, p: Phase, k: nat, item: string): Data
    requires k < Listings(m, p)
  {
    if p.Users? then d.(users := d.users - {item})
    else if p.Tables? then d.(rows := d.rows[m.tables[k] := RowsOf(d, m.tables[k]) - {item}])
    else d.(objects := d.objects - {item})
  }

  function FirstStage(p: Phase): Stage {
    if p.Snapshot? then Reading(map[])
    else if p.Pause? then Pausing({})
    else if Clears(p) then Clearing(0)
    else if p.Restore? then Restoring({})
    else Passing
  }

  /** The answer a worker has for its final save when nothing failed; `None` while its step is unfinished. */
  function Finding(m: Manifest, v: Worker): Option<Answer> {
    match v.stage
    case Loaded => None
    case Reading(got) => if got.Keys == Names(m.functions) then Some(Taken(got)) else None
    case Pausing(paused) => if ValidSnapshot(v.copy.concurrency, m.functions) && paused == Names(m.functions) then Some(Done) else None
    case Passing => Some(Done)
    case Clearing(found) => Some(if found == Listings(m, v.copy.phase) then Done else More)
    case Restoring(restored) => if ValidSnapshot(v.copy.concurrency, m.functions) && restored == Names(m.functions) then Some(Done) else None
    case Repausing => None
  }

  // ---- Steps ----

  function Invoke(w: World, i: nat, name: string, signs: bool): World {
    if name in w.manifest.functions && name in w.limits && w.limits[name] != 0 && i !in w.invocations
    then w.(invocations := w.invocations[i := Invocation(name, w.now, signs)])
    else w
  }

  predicate Running(w: World, i: nat) {
    i in w.invocations && Runs(w.invocations[i], w.now)
  }

  function Save(w: World, copy: State, next: State): World {
    if w.state.revision == copy.revision then w.(state := next) else w
  }

  function Start(w: World, k: nat, operation: string, actor: string, t1: int, t2: int): World {
    if k in w.requests && Idle(w.requests[k]) && w.requests[k].operation != operation && t1 <= t2 <= w.now
    then Save(w, w.requests[k], Started(w.requests[k], operation, actor, t1, t2))
    else w
  }

  function Resume(w: World, k: nat, operation: string, actor: string, t1: int, t2: int): World {
    if k in w.requests && MayResume(w.requests[k], operation, actor, t1) && t1 <= t2 <= w.now
    then Save(w, w.requests[k], Resumed(w.requests[k], t2))
    else w
  }

  predicate ClaimCommits(w: World, j: nat, t: int) {
    j in w.workers && w.workers[j].stage.Loaded? && Alive(w.workers[j], w.now) && w.workers[j].at <= t <= w.now
    && MayClaim(w.workers[j].copy, t) && w.state.revision == w.workers[j].copy.revision
  }

  function Claim(w: World, j: nat, t: int, reported: bool): World {
    if !ClaimCommits(w, j, t) then w.(workers := w.workers - {j})
    else
      var v := w.workers[j];
      var next := ClaimedAt(v.copy, t);
      w.(state := next,
         workers := if reported then w.workers[j := Worker(next, v.at, t, FirstStage(next.phase))] else w.workers - {j})
  }

  predicate Acts(w: World, j: nat) {
    j in w.workers && Alive(w.workers[j], w.now)
  }

  function ReadLimit(w: World, j: nat, name: string): World {
    if Acts(w, j) && w.workers[j].stage.Reading? && name in w.manifest.functions && name in w.limits
    then w.(workers := w.workers[j := w.workers[j].(stage := Reading(w.workers[j].stage.got[name := w.limits[name]]))])
    else w
  }

  predicate MayLimit(w: World, j: nat, name: string) {
    Acts(w, j) && name in w.manifest.functions && name in w.limits && ValidSnapshot(w.workers[j].copy.concurrency, w.manifest.functions)
    && (w.workers[j].stage.Pausing? || w.workers[j].stage.Repausing? || w.workers[j].stage.Restoring?)
  }

  /** The limit a worker sets: zero while it pauses, the saved value while it restores. */
  function Target(v: Worker, name: string): int {
    if v.stage.Restoring? && name in v.copy.concurrency
    then if v.copy.concurrency[name] < 0 then -1 else v.copy.concurrency[name]
    else 0
  }

  function Counted(stage: Stage, name: string): Stage {
    match stage
    case Pausing(paused) => Pausing(paused + {name})
    case Restoring(restored) => Restoring(restored + {name})
    case _ => stage
  }

  function SetLimit(w: World, j: nat, name: string, acked: bool): World {
    if !MayLimit(w, j, name) then w
    else
      var v := w.workers[j];
      w.(limits := w.limits[name := Target(v, name)],
         workers := if acked then w.workers[j := v.(stage := Counted(v.stage, name))] else w.workers)
  }

  function GiveUpRestore(w: World, j: nat): World {
    if Acts(w, j) && w.workers[j].stage.Restoring? then w.(workers := w.workers[j := w.workers[j].(stage := Repausing)]) else w
  }

  predicate Looks(w: World, j: nat) {
    Acts(w, j) && w.workers[j].stage.Clearing? && w.workers[j].stage.found < Listings(w.manifest, w.workers[j].copy.phase)
  }

  function Delete(w: World, j: nat, item: string): World {
    if Looks(w, j) then w.(data := Remove(w.data, w.manifest, w.workers[j].copy.phase, w.workers[j].stage.found, item)) else w
  }

  function FindEmpty(w: World, j: nat): World {
    if Looks(w, j) && Listing(w.data, w.manifest, w.workers[j].copy.phase, w.workers[j].stage.found) == {}
    then w.(workers := w.workers[j := w.workers[j].(stage := Clearing(w.workers[j].stage.found + 1))])
    else w
  }

  predicate SettleCommits(w: World, j: nat, ok: bool, u: int) {
    Acts(w, j) && !w.workers[j].stage.Loaded? && w.workers[j].t <= u <= w.now
    && (ok ==> Finding(w.manifest, w.workers[j]).Some?) && w.state.revision == w.workers[j].copy.revision
  }

  function AnswerOf(w: World, j: nat, ok: bool): Answer
    requires j in w.workers && (ok ==> Finding(w.manifest, w.workers[j]).Some?)
  {
    if ok then Finding(w.manifest, w.workers[j]).value else Error
  }

  function Settle(w: World, j: nat, ok: bool, u: int): World {
    if !SettleCommits(w, j, ok, u) then w.(workers := w.workers - {j})
    else
      var v := w.workers[j];
      var next := Settled(v.copy, v.t, AnswerOf(w, j, ok), u);
      w.(state := next, workers := w.workers - {j},
         final := if next.phase.Restore? then (v.at, next.operation) else w.final)
  }

  function Step(w: World, e: Event): World {
    match e
    case Ticks(d) => w.(now := w.now + d)
    case Configures(name, limit) =>
      if Idle(w.state) && name in w.limits && limit >= -1
      then w.(limits := w.limits[name := limit], configured := w.configured[name := limit]) else w
    case Invokes(i, name, signs) => Invoke(w, i, name, signs)
    case Adds(i, kind, item) => if Running(w, i) then w.(data := Insert(w.data, kind, item)) else w
    case Signs(i) => if Running(w, i) && w.invocations[i].signs then w.(urls := w.urls + {w.now + UPLOAD_LIFETIME}) else w
    case Puts(expiry, item) => if expiry in w.urls && w.now < expiry then w.(data := Insert(w.data, Object, item)) else w
    case Asks(k) => w.(requests := w.requests[k := w.state])
    case Starts(k, operation, actor, t1, t2) => Start(w, k, operation, actor, t1, t2)
    case Resumes(k, operation, actor, t1, t2) => Resume(w, k, operation, actor, t1, t2)
    case Loads(j) => w.(workers := w.workers[j := Worker(w.state, w.now, w.now, Loaded)])
    case Claims(j, t, reported) => Claim(w, j, t, reported)
    case ReadsLimit(j, name) => ReadLimit(w, j, name)
    case Limits(j, name, acked) => SetLimit(w, j, name, acked)
    case GivesUpRestore(j) => GiveUpRestore(w, j)
    case Deletes(j, item) => Delete(w, j, item)
    case FindsEmpty(j) => FindEmpty(w, j)
    case Settles(j, ok, u) => Settle(w, j, ok, u)
    case Dies(j) => w.(workers := w.workers - {j})
  }

  function Run(w: World, es: seq<Event>): World
    decreases |es|
  {
    if es == [] then w else Run(Step(w, es[0]), es[1..])
  }

  lemma {:induction false} RunAppend(w: World, es: seq<Event>, fs: seq<Event>)
    ensures Run(w, es + fs) == Run(Run(w, es), fs)
    decreases |es|
  {
    if es == [] {
      assert es + fs == fs;
    } else {
      assert (es + fs)[0] == es[0] && (es + fs)[1..] == es[1..] + fs;
      RunAppend(Step(w, es[0]), es[1..], fs);
    }
  }

  /** An environment that was never reset: every listed function exists and the control item does not. */
  predicate Fresh(w: World) {
    && 0 < w.now && w.state == NO_STATE && w.limits == w.configured && Names(w.manifest.functions) <= w.limits.Keys
    && w.invocations == map[] && w.urls == {} && w.requests == map[] && w.workers == map[] && w.final == (0, "")
  }
}
