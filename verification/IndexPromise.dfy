/**
 When a held lock loses its saved receipt, over all runs. Between a stale look at the receipt
 (index_client.go:274, 281), a release that removes the receipt without the .lock file
 (index_client.go:306-321) and a grant that comes after that, there are three steps that break the
 promise; every other step of every run keeps it.
 */
module IndexPromise {
  import opened Basics
  import opened Registry
  import opened IndexWorld
  import opened IndexSafety
  import opened IndexReceipts

  // ---- What every run keeps about receipts and .lock files ----

  predicate Carries(p: Client, token: string) {
    (HasReceipt(p) && p.pending.token == token) || (p.lease.Some? && p.lease.value.token == token)
  }

  /** A token is at a checkout when its saved receipt, or one of its processes, has it. */
  ghost predicate AtHome(processes: map<nat, Client>, files: map<nat, Pending>, home: nat, token: string) {
    || (home in files && files[home].token == token)
    || exists i | i in processes :: processes[i].home == home && Carries(processes[i], token)
  }

  ghost predicate Nowhere(processes: map<nat, Client>, files: map<nat, Pending>, token: string) {
    forall home :: !AtHome(processes, files, home, token)
  }

  /** No token is at two checkouts. */
  ghost predicate OneHome(processes: map<nat, Client>, files: map<nat, Pending>) {
    forall c, d, t | AtHome(processes, files, c, t) && AtHome(processes, files, d, t) :: c == d
  }

  /** Whoever has the .lock file finds its own receipt saved, or none; a release of another process may have removed it. */
  predicate OwnOrNone(p: Client, i: nat, files: map<nat, Pending>, locks: map<nat, nat>) {
    && (HasLockFile(p.at) ==> p.home in locks && locks[p.home] == i)
    && (HasLockFile(p.at) && HasReceipt(p) && p.home in files ==> files[p.home].token == p.pending.token)
    && (p.at.Drawing? ==> p.home !in files)
  }

  ghost predicate Orderly(w: World) {
    && (forall i | i in w.processes :: OwnOrNone(w.processes[i], i, w.files, w.locks))
    && OneHome(w.processes, w.files)
  }

  /** One process's turn: it writes its checkout's receipt only under the .lock file, and brings no token from elsewhere. */
  ghost predicate Turn(w: World, i: nat, p: Client, files: map<nat, Pending>, locks: map<nat, nat>) {
    && i in w.processes && p.home == w.processes[i].home
    && var h := p.home;
    && (files == w.files || files == w.files - {h} || (HasLockFile(w.processes[i].at) && h in files && files == w.files[h := files[h]]))
    && (locks == w.locks || (h !in w.locks && locks == w.locks[h := i]) || (h in w.locks && w.locks[h] == i && locks == w.locks - {h}))
    && (forall t | Carries(p, t) :: Known(w, i, t))
    && (h in files ==> Known(w, i, files[h].token))
  }

  /** The token is the process's or its checkout's, or is drawn afresh. */
  ghost predicate Known(w: World, i: nat, token: string)
    requires i in w.processes
  {
    var p := w.processes[i];
    Carries(p, token) || (p.home in w.files && w.files[p.home].token == token) || Nowhere(w.processes, w.files, token)
  }

  lemma KnownAtHome(w: World, i: nat, token: string)
    requires i in w.processes && Known(w, i, token)
    ensures AtHome(w.processes, w.files, w.processes[i].home, token) || Nowhere(w.processes, w.files, token)
  {
  }

  lemma TurnBringsNothing(w: World, i: nat, p: Client, files: map<nat, Pending>, locks: map<nat, nat>, home: nat, token: string)
    requires Turn(w, i, p, files, locks) && AtHome(w.processes[i := p], files, home, token)
    ensures AtHome(w.processes, w.files, home, token) || (home == p.home && Nowhere(w.processes, w.files, token))
  {
    var all := w.processes[i := p];
    if home in files && files[home].token == token {
      if home == p.home {
        KnownAtHome(w, i, token);
      }
    } else {
      var j :| j in all && all[j].home == home && Carries(all[j], token);
      if j == i {
        KnownAtHome(w, i, token);
      } else {
        assert w.processes[j] == all[j];
      }
    }
  }

  lemma TurnKeepsOneHome(w: World, i: nat, p: Client, files: map<nat, Pending>, locks: map<nat, nat>)
    requires OneHome(w.processes, w.files) && Turn(w, i, p, files, locks)
    ensures OneHome(w.processes[i := p], files)
  {
    hide Turn, AtHome;
    var all := w.processes[i := p];
    forall c, d, t | AtHome(all, files, c, t) && AtHome(all, files, d, t) ensures c == d {
      TurnBringsNothing(w, i, p, files, locks, c, t);
      TurnBringsNothing(w, i, p, files, locks, d, t);
    }
  }

  lemma TurnKeeps(w: World, v: World, i: nat)
    requires Orderly(w) && i in v.processes && v.processes == w.processes[i := v.processes[i]]
    requires Turn(w, i, v.processes[i], v.files, v.locks) && OwnOrNone(v.processes[i], i, v.files, v.locks)
    ensures Orderly(v)
  {
    TurnKeepsOneHome(w, i, v.processes[i], v.files, v.locks);
    hide OneHome, Carries, HasReceipt, HasLockFile, Known;
    forall j | j in v.processes ensures OwnOrNone(v.processes[j], j, v.files, v.locks) {
      if j != i {
        assert OwnOrNone(w.processes[j], j, w.files, w.locks) && OwnOrNone(w.processes[i], i, w.files, w.locks);
      }
    }
  }

  lemma OwnPlace(w: World, i: nat)
    requires Orderly(w) && i in w.processes
    ensures OwnOrNone(w.processes[i], i, w.files, w.locks)
  {
  }

  lemma FreshIsNowhere(w: World, token: string)
    requires Inv(w) && token !in w.drawn
    ensures Nowhere(w.processes, w.files, token)
  {
    forall home ensures !AtHome(w.processes, w.files, home, token) {
      forall i | i in w.processes ensures !Carries(w.processes[i], token) {
        Fits(w, i);
      }
    }
  }

  // ---- Each step keeps it ----

  lemma EnterOrderly(w: World, i: nat, goal: Goal)
    requires Orderly(w)
    ensures Orderly(Enter(w, i, goal))
  {
    if Enter(w, i, goal) != w {
      OwnPlace(w, i);
      hide Orderly, Nowhere, AtHome;
      TurnKeeps(w, Enter(w, i, goal), i);
    }
  }

  lemma LockOrderly(w: World, i: nat)
    requires Orderly(w)
    ensures Orderly(LockForSetup(w, i))
  {
    if At(w, i, Missing) {
      OwnPlace(w, i);
      hide Orderly, Nowhere, AtHome;
      TurnKeeps(w, LockForSetup(w, i), i);
    }
  }

  lemma LookOrderly(w: World, i: nat)
    requires Orderly(w)
    ensures Orderly(Look(w, i))
  {
    if i in w.processes && w.processes[i].at.Locked? {
      OwnPlace(w, i);
      hide Orderly, Nowhere, AtHome;
      TurnKeeps(w, Look(w, i), i);
    }
  }

  lemma DrawOrderly(w: World, i: nat, token: string, setup: bool)
    requires Inv(w) && Orderly(w)
    ensures Orderly(Draw(w, i, token, setup))
  {
    if MayDraw(w, i, token, setup) {
      OwnPlace(w, i);
      FreshIsNowhere(w, token);
      DrawTurn(w, i, token, setup);
      hide Orderly, Turn;
      TurnKeeps(w, Draw(w, i, token, setup), i);
    }
  }

  lemma DrawTurn(w: World, i: nat, token: string, setup: bool)
    requires MayDraw(w, i, token, setup) && OwnOrNone(w.processes[i], i, w.files, w.locks) && Nowhere(w.processes, w.files, token)
    ensures var v := Draw(w, i, token, setup);
            Turn(w, i, v.processes[i], v.files, v.locks) && OwnOrNone(v.processes[i], i, v.files, v.locks)
  {
    hide Nowhere;
    var p := w.processes[i];
    if p.lease.Some? {
      assert Carries(p, p.lease.value.token);
    }
  }


  /** A step that leaves the receipts, the .lock files and the processes alone. */
  lemma SameOrderly(w: World, v: World)
    requires Orderly(w) && v.processes == w.processes && v.files == w.files && v.locks == w.locks
    ensures Orderly(v)
  {
  }

  lemma BeginOrderly(w: World, i: nat, answered: bool)
    requires Orderly(w) && i in w.processes
    ensures Orderly(IndexWorld.Begin(w, i, answered))
  {
    OwnPlace(w, i);
    hide Orderly, Nowhere, AtHome, Process;
    if w.processes[i].at.Saved? {
      if answered {
        TurnKeeps(w, IndexWorld.Begin(w, i, answered), i);
      } else {
        SameOrderly(w, IndexWorld.Begin(w, i, answered));
      }
    }
  }

  lemma PublishOrderly(w: World, i: nat, at: string, answered: bool)
    requires Orderly(w) && i in w.processes
    ensures Orderly(IndexWorld.Publish(w, i, at, answered))
  {
    OwnPlace(w, i);
    hide Orderly, Nowhere, AtHome, Process;
    if MayPublish(w.processes[i]) {
      if answered {
        TurnKeeps(w, IndexWorld.Publish(w, i, at, answered), i);
      } else {
        SameOrderly(w, IndexWorld.Publish(w, i, at, answered));
      }
    }
  }

  lemma AbandonOrderly(w: World, i: nat, from: Point, to: Point, answered: bool)
    requires Orderly(w) && i in w.processes && ((from.Failing? && to.Cleared?) || (from.Releasing? && to.Released?))
    ensures Orderly(IndexWorld.Abandon(w, i, from, to, answered))
  {
    OwnPlace(w, i);
    hide Orderly, Nowhere, AtHome, Process;
    if w.processes[i].at == from {
      if answered {
        TurnKeeps(w, IndexWorld.Abandon(w, i, from, to, answered), i);
      } else {
        SameOrderly(w, IndexWorld.Abandon(w, i, from, to, answered));
      }
    }
  }

  lemma SaveReceiptOrderly(w: World, i: nat, saved: bool)
    requires Orderly(w)
    ensures Orderly(SaveReceipt(w, i, saved))
  {
    if i in w.processes && w.processes[i].at.Begun? {
      OwnPlace(w, i);
      hide Orderly, Nowhere, AtHome;
      assert Carries(w.processes[i], w.processes[i].pending.token);
      TurnKeeps(w, SaveReceipt(w, i, saved), i);
    }
  }

  lemma EndWorkOrderly(w: World, i: nat, ok: bool, saved: bool)
    requires Orderly(w)
    ensures Orderly(EndWork(w, i, ok, saved))
  {
    if At(w, i, Working) {
      OwnPlace(w, i);
      hide Orderly, Nowhere, AtHome;
      assert Carries(w.processes[i], w.processes[i].pending.token);
      TurnKeeps(w, EndWork(w, i, ok, saved), i);
    }
  }

  lemma PrepareOrderly(w: World, i: nat, config: string, defaults: bool, accepted: bool)
    requires Orderly(w)
    ensures Orderly(Prepare(w, i, config, defaults)) && Orderly(Sync(w, i, accepted, defaults))
  {
    if i in w.processes && w.processes[i].at.Publishing? {
      OwnPlace(w, i);
      hide Orderly, Nowhere, AtHome;
      assert Carries(w.processes[i], w.processes[i].pending.token);
      if Prepare(w, i, config, defaults) != w {
        TurnKeeps(w, Prepare(w, i, config, defaults), i);
      }
      if Sync(w, i, accepted, defaults) != w {
        TurnKeeps(w, Sync(w, i, accepted, defaults), i);
      }
    }
  }

  lemma DropsOrderly(w: World, i: nat, from: Point)
    requires Orderly(w)
    ensures Orderly(DropAt(w, i, from))
  {
    if At(w, i, from) {
      OwnPlace(w, i);
      hide Orderly, Nowhere, AtHome;
      TurnKeeps(w, DropAt(w, i, from), i);
    }
  }

  lemma DropPublishedOrderly(w: World, i: nat)
    requires Orderly(w)
    ensures Orderly(DropPublished(w, i))
  {
    if i in w.processes && w.processes[i].at.Published? {
      OwnPlace(w, i);
      hide Orderly, Nowhere, AtHome;
      DropPublishedMoves(w, i);
      TurnKeeps(w, DropPublished(w, i), i);
    }
  }

  lemma LeaveOrderly(w: World, i: nat)
    requires Orderly(w) && i in w.processes
    ensures Orderly(Leave(w, i, w.processes[i]))
  {
    OwnPlace(w, i);
    hide Orderly, Nowhere, AtHome;
    TurnKeeps(w, Leave(w, i, w.processes[i]), i);
  }

  lemma OutsideOrderly(w: World, e: Event)
    requires Orderly(w) && (e.FindsNone? || e.Releases?)
    ensures Orderly(Step(w, e))
  {
    if Step(w, e) != w {
      OwnPlace(w, e.i);
      hide Orderly, Nowhere, AtHome;
      TurnKeeps(w, Step(w, e), e.i);
    }
  }

  /** A new process carries nothing, and a dead one's .lock file may be removed. */
  lemma StartsOrderly(w: World, home: nat, i: nat)
    requires Inv(w) && Orderly(w)
    ensures Orderly(Step(w, Starts(home))) && Orderly(Step(w, Dies(i))) && Orderly(Step(w, Unlocks(home)))
  {
    FewerAtHome(w, Step(w, Starts(home)));
    FewerAtHome(w, Step(w, Dies(i)));
    hide OneHome, Carries, AtHome;
  }

  lemma FewerAtHome(w: World, v: World)
    requires OneHome(w.processes, w.files) && v.files == w.files
    requires forall i | i in v.processes :: (i in w.processes && v.processes[i] == w.processes[i]) || forall t :: !Carries(v.processes[i], t)
    ensures OneHome(v.processes, v.files)
  {
    forall c, t | AtHome(v.processes, v.files, c, t) ensures AtHome(w.processes, w.files, c, t) {
    }
    hide AtHome;
  }

  lemma StepOrderly(w: World, e: Event)
    requires Inv(w) && Orderly(w)
    ensures Orderly(Step(w, e))
  {
    hide Inv, Orderly, Enter, Look, Draw, LockForSetup, IndexWorld.Begin, SaveReceipt, EndWork, Prepare, Sync, IndexWorld.Publish, DropPublished,
      IndexWorld.Abandon, DropAt, Leave;
    match e
    case Starts(home) => StartsOrderly(w, home, 0);
    case Dies(i) => StartsOrderly(w, 0, i);
    case Unlocks(home) => StartsOrderly(w, home, 0);
    case Enters(i, work) => EnterOrderly(w, i, if work then Deploying else Nothing);
    case Looks(i) => LookOrderly(w, i);
    case Draws(i, token) => DrawOrderly(w, i, token, false);
    case FindsNone(_) => OutsideOrderly(w, e);
    case RetriesFirst(i) => EnterOrderly(w, i, SettingUp);
    case LocksForSetup(i) => LockOrderly(w, i);
    case DrawsForSetup(i, token) => DrawOrderly(w, i, token, true);
    case Begins(i, answered) => if i in w.processes { BeginOrderly(w, i, answered); } else { NobodyMoves(w, i); }
    case DropsRefused(i) => DropsOrderly(w, i, Refused);
    case SavesReceipt(i, saved) => SaveReceiptOrderly(w, i, saved);
    case EndsWork(i, ok, saved) => EndWorkOrderly(w, i, ok, saved);
    case Prepares(i, config, defaults) => PrepareOrderly(w, i, config, defaults, true);
    case Syncs(i, accepted, answered) => PrepareOrderly(w, i, "", answered, accepted);
    case Publishes(i, at, answered) => if i in w.processes { PublishOrderly(w, i, at, answered); } else { NobodyMoves(w, i); }
    case DropsPublished(i) => DropPublishedOrderly(w, i);
    case Abandons(i, answered) => if i in w.processes { AbandonOrderly(w, i, Failing, Cleared, answered); } else { NobodyMoves(w, i); }
    case DropsCleared(i) => DropsOrderly(w, i, Cleared);
    case Releases(_) => OutsideOrderly(w, e);
    case AbandonsLease(i, answered) => if i in w.processes { AbandonOrderly(w, i, Releasing, Released, answered); } else { NobodyMoves(w, i); }
    case DropsReleased(i) => DropsOrderly(w, i, Released);
    case GivesUp(i) => if i in w.processes { LeaveOrderly(w, i); }
  }

  lemma NobodyMoves(w: World, i: nat)
    requires i !in w.processes
    ensures forall answered :: IndexWorld.Begin(w, i, answered) == w
    ensures forall at, answered :: IndexWorld.Publish(w, i, at, answered) == w
    ensures forall from, to, answered :: IndexWorld.Abandon(w, i, from, to, answered) == w
  {
  }

  lemma {:induction false} RunOrderly(w: World, es: seq<Event>)
    requires Inv(w) && Orderly(w)
    ensures Inv(Run(w, es)) && Orderly(Run(w, es))
    decreases |es|
  {
    hide Inv, Orderly, Step;
    if es != [] {
      StepKeeps(w, es[0]);
      StepOrderly(w, es[0]);
      RunOrderly(Step(w, es[0]), es[1..]);
    }
  }

  lemma ReachableOrderly(es: seq<Event>)
    ensures Inv(Run(EMPTY, es)) && Orderly(Run(EMPTY, es))
  {
    EmptyInv();
    RunOrderly(EMPTY, es);
  }

  // ---- The steps that break the promise ----

  /** The registry would grant the lock anew to this token. */
  predicate Grants(r: Record, token: string) {
    token != "" && r.lock == "" && r.lastToken != token
  }

  /**
   A setup saves its fresh token over the receipt of the held lock; a release removes the receipt of the
   held lock, which another process has saved since; or the lock is granted to a token whose receipt is gone.
   */
  predicate Breaks(w: World, e: Event) {
    match e
    case DrawsForSetup(i, token) => MayDraw(w, i, token, true) && HasHeldReceipt(w, w.processes[i].home)
    case DropsReleased(i) => At(w, i, Released) && HasHeldReceipt(w, w.processes[i].home)
    case Begins(i, _) =>
      && i in w.processes && w.processes[i].at.Saved? && Grants(w.server, w.processes[i].pending.token)
      && !HasReceiptOf(w, w.processes[i].home, w.processes[i].pending.token)
    case _ => false
  }

  predicate HasReceiptOf(w: World, home: nat, token: string) {
    home in w.files && w.files[home].token == token
  }

  lemma OneFile(w: World, c: nat, d: nat)
    requires Orderly(w) && c in w.files && d in w.files && w.files[c].token == w.files[d].token
    ensures c == d
  {
    assert AtHome(w.processes, w.files, c, w.files[c].token) && AtHome(w.processes, w.files, d, w.files[c].token);
  }

  lemma SameFiles(w: World, v: World)
    requires ReceiptSaved(w) && v.files == w.files && (v.server.lock == w.server.lock || v.server.lock == "")
    ensures ReceiptSaved(v)
  {
  }

  /** A receipt that keeps its token, or that is the checkout's only one. */
  lemma Rewritten(w: World, v: World, home: nat)
    requires ReceiptSaved(w) && v.server == w.server && home in v.files && v.files == w.files[home := v.files[home]]
    requires home in w.files ==> v.files[home].token == w.files[home].token
    ensures ReceiptSaved(v)
  {
    if w.server.lock != "" {
      var c :| c in w.files && w.files[c].token == w.server.lock;
      assert c in v.files && v.files[c].token == w.server.lock;
    }
  }

  lemma Removed(w: World, v: World, home: nat)
    requires Orderly(w) && ReceiptSaved(w) && v.server == w.server && v.files == w.files - {home}
    ensures !ReceiptSaved(v) <==> HasHeldReceipt(w, home)
  {
    if w.server.lock != "" {
      var c :| c in w.files && w.files[c].token == w.server.lock;
      if c == home {
        forall d | d in v.files ensures v.files[d].token != w.server.lock {
          if v.files[d].token == w.server.lock {
            OneFile(w, c, d);
          }
        }
      } else {
        assert c in v.files && v.files[c].token == w.server.lock;
        if HasHeldReceipt(w, home) {
          OneFile(w, c, home);
        }
      }
    }
  }

  lemma DrawBreaksIff(w: World, i: nat, token: string, setup: bool)
    requires Orderly(w) && ReceiptSaved(w)
    ensures !ReceiptSaved(Draw(w, i, token, setup)) <==> setup && MayDraw(w, i, token, setup) && HasHeldReceipt(w, w.processes[i].home)
  {
    if MayDraw(w, i, token, setup) {
      OwnPlace(w, i);
      var v, home := Draw(w, i, token, setup), w.processes[i].home;
      if HasHeldReceipt(w, home) {
        forall d | d in v.files ensures v.files[d].token != w.server.lock {
          if d != home && v.files[d].token == w.server.lock {
            OneFile(w, home, d);
          }
        }
      } else if w.server.lock != "" {
        var c :| c in w.files && w.files[c].token == w.server.lock;
        assert c in v.files && v.files[c].token == w.server.lock;
      }
    }
  }

  lemma BeginBreaksIff(w: World, i: nat, answered: bool)
    requires Orderly(w) && ReceiptSaved(w)
    ensures !ReceiptSaved(IndexWorld.Begin(w, i, answered)) <==> Breaks(w, Begins(i, answered))
  {
    if i in w.processes && w.processes[i].at.Saved? {
      var v, token, home := IndexWorld.Begin(w, i, answered), w.processes[i].pending.token, w.processes[i].home;
      if Grants(w.server, token) {
        assert v.server.lock == token && v.files == w.files;
        if c :| c in w.files && w.files[c].token == token {
          assert AtHome(w.processes, w.files, c, token) && AtHome(w.processes, w.files, home, token);
        }
      } else {
        SameFiles(w, v);
      }
    }
  }

  /** Publishing and abandoning can only free the lock. */
  lemma OnlyFrees(r: Record, c: Change)
    requires c.Publish? || c.Abandon?
    ensures Process(r, c).0.lock == r.lock || Process(r, c).0.lock == ""
  {
  }

  lemma PublishSaved(w: World, i: nat, at: string, answered: bool)
    requires ReceiptSaved(w)
    ensures ReceiptSaved(IndexWorld.Publish(w, i, at, answered))
  {
    hide ReceiptSaved, Process;
    if i in w.processes && MayPublish(w.processes[i]) {
      OnlyFrees(w.server, Registry.Publish(ReceiptOf(w.processes[i].pending), w.processes[i].pending.config.value, at));
    }
    SameFiles(w, IndexWorld.Publish(w, i, at, answered));
  }

  lemma AbandonSaved(w: World, i: nat, from: Point, to: Point, answered: bool)
    requires ReceiptSaved(w)
    ensures ReceiptSaved(IndexWorld.Abandon(w, i, from, to, answered))
  {
    hide ReceiptSaved, Process;
    if At(w, i, from) {
      OnlyFrees(w.server, Registry.Abandon(ReceiptOf(w.processes[i].pending)));
    }
    SameFiles(w, IndexWorld.Abandon(w, i, from, to, answered));
  }

  lemma WritesSaved(w: World, i: nat, config: string, ok: bool, saved: bool)
    requires Orderly(w) && ReceiptSaved(w)
    ensures ReceiptSaved(SaveReceipt(w, i, saved)) && ReceiptSaved(EndWork(w, i, ok, saved)) && ReceiptSaved(Prepare(w, i, config, ok))
  {
    if i in w.processes {
      OwnPlace(w, i);
      var home := w.processes[i].home;
      hide ReceiptSaved, Orderly;
      WriteSaved(w, SaveReceipt(w, i, saved), home);
      WriteSaved(w, EndWork(w, i, ok, saved), home);
      WriteSaved(w, Prepare(w, i, config, ok), home);
    }
  }

  lemma WriteSaved(w: World, v: World, home: nat)
    requires ReceiptSaved(w) && v.server == w.server
    requires v.files == w.files || (home in v.files && v.files == w.files[home := v.files[home]])
    requires home in w.files && home in v.files ==> v.files[home].token == w.files[home].token
    ensures ReceiptSaved(v)
  {
    if v.files == w.files {
      SameFiles(w, v);
    } else {
      Rewritten(w, v, home);
    }
  }

  /** Under the .lock file a process removes only its own receipt, and the lock is not its any more. */
  lemma DropsSaved(w: World, i: nat, from: Point)
    requires Inv(w) && Orderly(w) && ReceiptSaved(w) && (from.Refused? || from.Cleared?)
    ensures ReceiptSaved(DropAt(w, i, from)) && ReceiptSaved(DropPublished(w, i))
  {
    if i in w.processes && (w.processes[i].at == from || w.processes[i].at.Published?) {
      OwnPlace(w, i);
      Fits(w, i);
      var home := w.processes[i].home;
      hide Inv, Orderly, ReceiptSaved;
      assert !HasHeldReceipt(w, home);
      if w.processes[i].at == from {
        Removed(w, DropAt(w, i, from), home);
      } else {
        DropPublishedMoves(w, i);
        Removed(w, DropPublished(w, i), home);
      }
    }
  }

  lemma ReleaseBreaksIff(w: World, i: nat)
    requires Orderly(w) && ReceiptSaved(w)
    ensures !ReceiptSaved(DropAt(w, i, Released)) <==> At(w, i, Released) && HasHeldReceipt(w, w.processes[i].home)
  {
    if At(w, i, Released) {
      hide Orderly, ReceiptSaved;
      Removed(w, DropAt(w, i, Released), w.processes[i].home);
    }
  }

  /** The steps that touch neither the receipts nor the registry. */
  lemma LocalSaved(w: World, e: Event)
    requires ReceiptSaved(w)
    requires e.Starts? || e.Dies? || e.Unlocks? || e.Enters? || e.Looks? || e.FindsNone? || e.RetriesFirst? || e.LocksForSetup? || e.Syncs?
             || e.Releases? || e.GivesUp?
    ensures ReceiptSaved(Step(w, e))
  {
    LocalLeaves(w, e);
    SameFiles(w, Step(w, e));
  }

  lemma LocalLeaves(w: World, e: Event)
    requires e.Starts? || e.Dies? || e.Unlocks? || e.Enters? || e.Looks? || e.FindsNone? || e.RetriesFirst? || e.LocksForSetup? || e.Syncs?
             || e.Releases? || e.GivesUp?
    ensures Step(w, e).files == w.files && Step(w, e).server == w.server
  {
    hide Draw, IndexWorld.Begin, SaveReceipt, EndWork, Prepare, IndexWorld.Publish, DropPublished, IndexWorld.Abandon, DropAt;
  }

  lemma StepBreaksIff(w: World, e: Event)
    requires Inv(w) && Orderly(w) && ReceiptSaved(w)
    ensures !ReceiptSaved(Step(w, e)) <==> Breaks(w, e)
  {
    hide Inv, Orderly, ReceiptSaved, HasHeldReceipt, HasReceiptOf, Grants, MayDraw, Enter, Look, Draw, LockForSetup, IndexWorld.Begin, SaveReceipt, EndWork,
      Prepare, Sync, IndexWorld.Publish, DropPublished, IndexWorld.Abandon, DropAt, Leave;
    match e
    case DrawsForSetup(i, token) => DrawBreaksIff(w, i, token, true);
    case DropsReleased(i) => ReleaseBreaksIff(w, i);
    case Begins(i, answered) => BeginBreaksIff(w, i, answered);
    case Draws(i, token) => DrawBreaksIff(w, i, token, false);
    case DropsRefused(i) => DropsSaved(w, i, Refused);
    case SavesReceipt(i, saved) => WritesSaved(w, i, "", true, saved);
    case EndsWork(i, ok, saved) => WritesSaved(w, i, "", ok, saved);
    case Prepares(i, config, defaults) => WritesSaved(w, i, config, defaults, true);
    case Publishes(i, at, answered) => PublishSaved(w, i, at, answered);
    case DropsPublished(i) => DropsSaved(w, i, Refused);
    case Abandons(i, answered) => AbandonSaved(w, i, Failing, Cleared, answered);
    case DropsCleared(i) => DropsSaved(w, i, Cleared);
    case AbandonsLease(i, answered) => AbandonSaved(w, i, Releasing, Released, answered);
    case _ => LocalSaved(w, e);
  }

  /** In whatever run the promise holds so far, the next step breaks it exactly when it is one of the three. */
  lemma PromiseBreaksIff(es: seq<Event>, e: Event)
    requires ReceiptSaved(Run(EMPTY, es))
    ensures !ReceiptSaved(Step(Run(EMPTY, es), e)) <==> Breaks(Run(EMPTY, es), e)
  {
    ReachableOrderly(es);
    StepBreaksIff(Run(EMPTY, es), e);
  }

  ghost predicate AlwaysSaved(w: World, es: seq<Event>)
    decreases |es|
  {
    ReceiptSaved(w) && (es != [] ==> AlwaysSaved(Step(w, es[0]), es[1..]))
  }

  ghost predicate NeverBreaks(w: World, es: seq<Event>)
    decreases |es|
  {
    es != [] ==> !Breaks(w, es[0]) && NeverBreaks(Step(w, es[0]), es[1..])
  }

  lemma {:induction false} AlwaysSavedFrom(w: World, es: seq<Event>)
    requires Inv(w) && Orderly(w) && ReceiptSaved(w)
    ensures AlwaysSaved(w, es) <==> NeverBreaks(w, es)
    decreases |es|
  {
    hide Inv, Orderly, ReceiptSaved, Step, Breaks;
    if es != [] {
      var v := Step(w, es[0]);
      StepBreaksIff(w, es[0]);
      StepKeeps(w, es[0]);
      StepOrderly(w, es[0]);
      if ReceiptSaved(v) {
        AlwaysSavedFrom(v, es[1..]);
      }
    }
  }

  /** The promise holds all through a run exactly when the run takes none of the three steps. */
  lemma PromiseHoldsIff(es: seq<Event>)
    ensures AlwaysSaved(EMPTY, es) <==> NeverBreaks(EMPTY, es)
  {
    ReachableOrderly([]);
    AlwaysSavedFrom(EMPTY, es);
  }

  // ---- Two runs in which no receipt is overwritten ----

  const FREED := Record(1, "", None, false, "a")
  const RELEASED := Client(0, None, Released, LEASED)
  const WAITING := Client(0, None, Saved(true), DRAWN_B)
  const REGRANTED := Record(2, "b", None, false, "a")

  const ABANDONING := LEASING.(processes := map[0 := RELEASED.(at := Releasing), 1 := STALE])
  const ABANDONED := LEASING.(server := FREED, processes := map[0 := RELEASED, 1 := STALE])
  const RELOCKED := ABANDONED.(locks := map[0 := 1], processes := map[0 := RELEASED, 1 := STALE.(at := SetupLocked)])

  /** The first setup has freed its lock but not yet removed its receipt, and the second has gone on from its stale look. */
  const OVERTAKEN := World(FREED, map[0 := DRAWN_B], map[0 := 1], map[0 := RELEASED, 1 := WAITING], map["a" := 0, "b" := 1], 2)
  const TAKEN := OVERTAKEN.(server := REGRANTED, processes := map[0 := RELEASED, 1 := Client(0, None, Begun(true), DRAWN_B.(revision := 2))])

  lemma ReleasingStep()
    ensures Step(LEASING, Releases(0)) == ABANDONING
  {
    assert LEASING.processes[0 := RELEASED.(at := Releasing)] == ABANDONING.processes;
  }

  lemma FreeingStep()
    ensures Step(ABANDONING, AbandonsLease(0, true)) == ABANDONED
  {
    assert ABANDONING.processes[0 := RELEASED] == ABANDONED.processes;
    assert Process(HELD, Registry.Abandon(ReceiptOf(LEASED))) == (FREED, Registry.Done);
    hide Process;
  }

  lemma RelockingStep()
    ensures Step(ABANDONED, LocksForSetup(1)) == RELOCKED
  {
    assert ABANDONED.processes[1 := STALE.(at := SetupLocked)] == RELOCKED.processes;
  }

  lemma OvertakingStep()
    ensures Step(RELOCKED, DrawsForSetup(1, "b")) == OVERTAKEN
  {
    assert RELOCKED.processes[1 := WAITING] == OVERTAKEN.processes;
    assert RELOCKED.files[0 := DRAWN_B] == OVERTAKEN.files;
  }

  /** The first setup frees its lock, then the second draws its token. */
  lemma Overtakes() returns (es: seq<Event>)
    ensures Run(EMPTY, es) == OVERTAKEN
  {
    es := FirstLeases();
    ReleasingStep();
    FreeingStep();
    RelockingStep();
    OvertakingStep();
    hide Run, Step;
    Then(es, Releases(0), LEASING, ABANDONING);
    es := es + [Releases(0)];
    Then(es, AbandonsLease(0, true), ABANDONING, ABANDONED);
    es := es + [AbandonsLease(0, true)];
    Then(es, LocksForSetup(1), ABANDONED, RELOCKED);
    es := es + [LocksForSetup(1)];
    Then(es, DrawsForSetup(1, "b"), RELOCKED, OVERTAKEN);
    es := es + [DrawsForSetup(1, "b")];
  }

  lemma GrantingStep()
    ensures Step(OVERTAKEN, Begins(1, true)) == TAKEN
  {
    assert OVERTAKEN.processes[1 := Client(0, None, Begun(true), DRAWN_B.(revision := 2))] == TAKEN.processes;
    assert Process(FREED, Registry.Begin("b")) == (REGRANTED, Granted(Receipt("b", 2)));
    hide Process;
  }

  lemma RemovingStep()
    ensures Step(TAKEN, DropsReleased(0)).files == map[] && Step(TAKEN, DropsReleased(0)).server == REGRANTED
  {
  }

  /** The second is granted the lock, and the first, which removes its receipt without the .lock file, removes the second's. */
  lemma ReleaseLosesReceipt() returns (es: seq<Event>)
    ensures var w, v := Run(EMPTY, es), Run(EMPTY, es + [DropsReleased(0)]);
            ReceiptSaved(w) && w.server.lock == "b" && v.server.lock == "b" && v.files == map[] && !ReceiptSaved(v)
  {
    es := Overtakes();
    GrantingStep();
    RemovingStep();
    hide Run, Step;
    Then(es, Begins(1, true), OVERTAKEN, TAKEN);
    es := es + [Begins(1, true)];
    assert TAKEN.files[0].token == "b";
    Snoc(es, DropsReleased(0));
  }

  const EMPTIED := OVERTAKEN.(files := map[], processes := map[0 := RELEASED.(at := Out), 1 := WAITING])

  lemma EmptyingStep()
    ensures Step(OVERTAKEN, DropsReleased(0)) == EMPTIED
  {
    assert OVERTAKEN.processes[0 := RELEASED.(at := Out)] == EMPTIED.processes;
    assert OVERTAKEN.files - {0} == EMPTIED.files;
  }

  lemma LateGrantStep()
    ensures Step(EMPTIED, Begins(1, true)).files == map[] && Step(EMPTIED, Begins(1, true)).server == REGRANTED
  {
    assert Process(FREED, Registry.Begin("b")).0 == REGRANTED;
    hide Process;
  }

  /** Or the first removes it before the second is granted the lock, and the grant comes without a receipt. */
  lemma GrantLacksReceipt() returns (es: seq<Event>)
    ensures var w, v := Run(EMPTY, es), Run(EMPTY, es + [Begins(1, true)]);
            ReceiptSaved(w) && w.server.lock == "" && v.server.lock == "b" && v.files == map[] && !ReceiptSaved(v)
  {
    es := Overtakes();
    EmptyingStep();
    LateGrantStep();
    hide Run, Step;
    Then(es, DropsReleased(0), OVERTAKEN, EMPTIED);
    es := es + [DropsReleased(0)];
    Snoc(es, Begins(1, true));
  }
}
