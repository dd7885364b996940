/**
 Whether a held lock always has its token in a saved receipt. `acquireSetupIndex` looks for a receipt
 before it takes the .lock file (index_client.go:274 and 281); a run in which every setup still finds
 no receipt when it draws its token keeps the promise, and a stale look can lose it. IndexPromise has
 the exact condition for all runs.
 */
module IndexReceipts {
  import opened Basics
  import opened Registry
  import opened IndexWorld
  import opened IndexSafety

  /** The promise: the token of a held lock is in some checkout's saved receipt. */
  ghost predicate ReceiptSaved(w: World) {
    w.server.lock != "" ==> exists c :: c in w.files && w.files[c].token == w.server.lock
  }

  /** The caller can check it before the step: no receipt is there when setup saves its own. */
  predicate Fresh(w: World, e: Event) {
    e.DrawsForSetup? && At(w, e.i, SetupLocked) ==> w.processes[e.i].home !in w.files
  }

  ghost predicate Careful(w: World, es: seq<Event>)
    decreases |es|
  {
    es != [] ==> Fresh(w, es[0]) && Careful(Step(w, es[0]), es[1..])
  }

  /** The checkout's saved receipt is the one of the held lock. */
  predicate HasHeldReceipt(w: World, home: nat) {
    home in w.files && w.server.lock != "" && w.files[home].token == w.server.lock
  }

  predicate HasReceipt(p: Client) {
    OwnPoint(p.at) || Finishing(p)
  }

  predicate HasLockFile(p: Point) {
    !p.Out? && !p.Missing? && !p.Releasing? && !p.Released?
  }

  /** A process's current receipt, and the one of its lease, are the saved ones of its checkout. */
  ghost predicate SavedOk(p: Client, i: nat, files: map<nat, Pending>, locks: map<nat, nat>) {
    && (HasReceipt(p) ==> p.home in files && files[p.home].token == p.pending.token)
    && (p.lease.Some? ==> p.home in files && files[p.home].token == p.lease.value.token && !files[p.home].deployed)
    && (p.at.Drawing? ==> p.home !in files)
    && (p.at.Releasing? || p.at.Released? ==> !files[p.home].deployed)
    && (HasLockFile(p.at) ==> p.home in locks && locks[p.home] == i)
  }

  ghost predicate FilesOk(w: World) {
    && (forall i | i in w.processes :: SavedOk(w.processes[i], i, w.files, w.locks))
    && (forall c, d | c in w.files && d in w.files && w.files[c].token == w.files[d].token :: c == d)
    && ReceiptSaved(w)
  }

  lemma EmptyFilesOk()
    ensures FilesOk(EMPTY)
  {
  }

  lemma FilesFit(w: World, i: nat)
    requires FilesOk(w) && i in w.processes
    ensures SavedOk(w.processes[i], i, w.files, w.locks)
  {
  }

  /** While one process of a checkout has the saved receipt, or is about to draw one, no other depends on it. */
  lemma OneOwner(w: World, i: nat, j: nat)
    requires Inv(w) && FilesOk(w) && i in w.processes && j in w.processes && i != j && w.processes[i].home == w.processes[j].home
    requires HasReceipt(w.processes[i]) || w.processes[i].at.Drawing?
    ensures !HasReceipt(w.processes[j]) && w.processes[j].lease.None? && !w.processes[j].at.Drawing?
  {
    FilesFit(w, i);
    FilesFit(w, j);
    Fits(w, i);
    Fits(w, j);
    hide Inv, FilesOk;
    var p, q := w.processes[i], w.processes[j];
    TokensUsed(p);
    TokensUsed(q);
  }

  lemma TokensUsed(p: Client)
    ensures OwnPoint(p.at) ==> Uses(p, p.pending.token)
    ensures p.lease.Some? ==> Uses(p, p.lease.value.token)
  {
  }

  /** What process `i` may do to its checkout's receipt and .lock file. */
  ghost predicate Touches(w: World, i: nat, p: Client, files: map<nat, Pending>, locks: map<nat, nat>)
    requires i in w.processes
  {
    var h := w.processes[i].home;
    && p.home == h
    && (forall c | c != h :: (c in files <==> c in w.files) && (c in files ==> files[c] == w.files[c]))
    && (forall c | c != h :: (c in locks <==> c in w.locks) && (c in locks ==> locks[c] == w.locks[c]))
    && (files == w.files || HasReceipt(w.processes[i]) || w.processes[i].at.Drawing?)
    && (locks == w.locks || h !in w.locks || w.locks[h] == i)
    && (h in files && (h in w.files ==> files[h].token != w.files[h].token) ==> forall c | c in w.files :: w.files[c].token != files[h].token)
  }

  lemma FilesMove(w: World, i: nat, p: Client, files: map<nat, Pending>, locks: map<nat, nat>)
    requires Inv(w) && FilesOk(w) && i in w.processes && Touches(w, i, p, files, locks) && SavedOk(p, i, files, locks)
    requires ReceiptSaved(w.(files := files))
    ensures FilesOk(w.(processes := w.processes[i := p], files := files, locks := locks))
  {
    var all := w.processes[i := p];
    forall j | j in all ensures SavedOk(all[j], j, files, locks) {
      if j != i {
        OtherKeepsReceipt(w, i, j, p, files, locks);
      }
    }
  }

  lemma OtherKeepsReceipt(w: World, i: nat, j: nat, p: Client, files: map<nat, Pending>, locks: map<nat, nat>)
    requires Inv(w) && FilesOk(w) && i in w.processes && j in w.processes && i != j && Touches(w, i, p, files, locks)
    ensures SavedOk(w.processes[j], j, files, locks)
  {
    FilesFit(w, j);
    hide Inv, FilesOk;
    if w.processes[j].home == w.processes[i].home && (HasReceipt(w.processes[i]) || w.processes[i].at.Drawing?) {
      OneOwner(w, i, j);
    }
  }

  /** Moves that leave the saved receipts alone. */
  lemma PlainFiles(w: World, i: nat, p: Client, locks: map<nat, nat>)
    requires FilesOk(w) && i in w.processes && Touches(w, i, p, w.files, locks) && SavedOk(p, i, w.files, locks)
    ensures FilesOk(w.(processes := w.processes[i := p], locks := locks))
  {
    var all := w.processes[i := p];
    forall j | j in all ensures SavedOk(all[j], j, w.files, locks) {
      if j != i {
        FilesFit(w, j);
      }
    }
  }

  lemma LeaveFiles(w: World, i: nat)
    requires FilesOk(w) && i in w.processes
    ensures FilesOk(Leave(w, i, w.processes[i]))
  {
    FilesFit(w, i);
    hide FilesOk;
    var p := w.processes[i];
    PlainFiles(w, i, p.(at := Out), Leave(w, i, p).locks);
  }

  lemma SavedNow(w: World)
    requires FilesOk(w)
    ensures ReceiptSaved(w)
  {
  }

  /** Removing the receipt of a token that is not the lock. */
  lemma DropFiles(w: World, i: nat, p: Client, locks: map<nat, nat>)
    requires Inv(w) && FilesOk(w) && i in w.processes && HasReceipt(w.processes[i]) && w.server.lock != w.processes[i].pending.token
    requires var h := w.processes[i].home;
             SavedOk(p, i, w.files - {h}, locks) && Touches(w, i, p, w.files - {h}, locks)
    ensures FilesOk(w.(processes := w.processes[i := p], files := w.files - {w.processes[i].home}, locks := locks))
  {
    FilesFit(w, i);
    SavedNow(w);
    var h := w.processes[i].home;
    assert ReceiptSaved(w.(files := w.files - {h})) by {
      if w.server.lock != "" {
        var c :| c in w.files && w.files[c].token == w.server.lock;
        assert c in w.files - {h} && (w.files - {h})[c].token == w.server.lock;
      }
    }
    FilesMove(w, i, p, w.files - {h}, locks);
  }

  lemma DropAtFiles(w: World, i: nat, from: Point)
    requires Inv(w) && FilesOk(w) && (from.Refused? || from.Cleared? || from.Released?)
    ensures FilesOk(DropAt(w, i, from))
  {
    if At(w, i, from) {
      FilesFit(w, i);
      Fits(w, i);
      hide Inv, FilesOk;
      var v := DropAt(w, i, from);
      NoLease(w, i);
      DropFiles(w, i, v.processes[i], v.locks);
    }
  }

  /** A process with a receipt of its own token has no lease besides: both would be the checkout's one receipt. */
  lemma NoLease(w: World, i: nat)
    requires Inv(w) && FilesOk(w) && i in w.processes && (HasReceipt(w.processes[i]) || w.processes[i].at.Drawing?)
    ensures w.processes[i].lease.None?
  {
    FilesFit(w, i);
    Fits(w, i);
    hide Inv, FilesOk;
    TokensUsed(w.processes[i]);
  }

  lemma DropPublishedTouches(w: World, i: nat)
    requires i in w.processes && w.processes[i].at.Published? && SavedOk(w.processes[i], i, w.files, w.locks) && w.processes[i].lease.None?
    ensures var v, h := DropPublished(w, i), w.processes[i].home;
            SavedOk(v.processes[i], i, w.files - {h}, v.locks) && Touches(w, i, v.processes[i], w.files - {h}, v.locks)
  {
  }

  lemma DropPublishedFiles(w: World, i: nat)
    requires Inv(w) && FilesOk(w)
    ensures FilesOk(DropPublished(w, i))
  {
    if i in w.processes && w.processes[i].at.Published? {
      FilesFit(w, i);
      Fits(w, i);
      NoLease(w, i);
      DropPublishedMoves(w, i);
      DropPublishedTouches(w, i);
      var v := DropPublished(w, i);
      hide Inv, FilesOk, DropPublished, Touches;
      DropFiles(w, i, v.processes[i], v.locks);
    }
  }

  /** Rewriting a receipt with the same token. */
  lemma RewriteFiles(w: World, i: nat, p: Client, pending: Pending, locks: map<nat, nat>)
    requires Inv(w) && FilesOk(w) && i in w.processes && HasReceipt(w.processes[i]) && pending.token == w.processes[i].pending.token
    requires var h := w.processes[i].home;
             SavedOk(p, i, w.files[h := pending], locks) && Touches(w, i, p, w.files[h := pending], locks)
    ensures FilesOk(w.(processes := w.processes[i := p], files := w.files[w.processes[i].home := pending], locks := locks))
  {
    FilesFit(w, i);
    SavedNow(w);
    var h := w.processes[i].home;
    assert ReceiptSaved(w.(files := w.files[h := pending])) by {
      if w.server.lock != "" {
        var c :| c in w.files && w.files[c].token == w.server.lock;
        assert c in w.files[h := pending] && w.files[h := pending][c].token == w.server.lock;
      }
    }
    FilesMove(w, i, p, w.files[h := pending], locks);
  }

  lemma SaveReceiptFiles(w: World, i: nat, saved: bool)
    requires Inv(w) && FilesOk(w)
    ensures FilesOk(SaveReceipt(w, i, saved))
  {
    if i in w.processes && w.processes[i].at.Begun? {
      FilesFit(w, i);
      Fits(w, i);
      NoLease(w, i);
      FileDeployed(w, i);
      SavedNow(w);
      hide Inv, FilesOk, ReceiptSaved;
      var v := SaveReceipt(w, i, saved);
      if saved {
        RewriteFiles(w, i, v.processes[i], w.processes[i].pending, v.locks);
      } else {
        FilesMove(w, i, v.processes[i], w.files, v.locks);
      }
    }
  }

  /** The saved receipt of a token in use is not marked as deployed. */
  lemma FileDeployed(w: World, i: nat)
    requires Inv(w) && FilesOk(w) && i in w.processes && OwnPoint(w.processes[i].at)
    ensures w.processes[i].home in w.files && !w.files[w.processes[i].home].deployed
  {
    FilesFit(w, i);
    FileFits(w, w.processes[i].home);
    hide Inv, FilesOk;
    assert Uses(w.processes[i], w.processes[i].pending.token);
  }

  lemma EndWorkFiles(w: World, i: nat, ok: bool, saved: bool)
    requires Inv(w) && FilesOk(w)
    ensures FilesOk(EndWork(w, i, ok, saved))
  {
    if At(w, i, Working) {
      FilesFit(w, i);
      Fits(w, i);
      NoLease(w, i);
      SavedNow(w);
      LeaveFiles(w, i);
      hide Inv, FilesOk, ReceiptSaved;
      var v := EndWork(w, i, ok, saved);
      if ok && saved {
        RewriteFiles(w, i, v.processes[i], w.processes[i].pending.(deployed := true), v.locks);
      } else if !ok {
        FilesMove(w, i, v.processes[i], w.files, v.locks);
      }
    }
  }

  lemma PrepareFiles(w: World, i: nat, config: string, defaults: bool)
    requires Inv(w) && FilesOk(w)
    ensures FilesOk(Prepare(w, i, config, defaults))
  {
    var v := Prepare(w, i, config, defaults);
    if v != w {
      FilesFit(w, i);
      Fits(w, i);
      NoLease(w, i);
      hide Inv, FilesOk;
      RewriteFiles(w, i, v.processes[i], w.processes[i].pending.(config := Some(config), defaults := defaults), v.locks);
    }
  }

  lemma DrawFiles(w: World, i: nat, token: string, setup: bool)
    requires Inv(w) && FilesOk(w) && (setup ==> Fresh(w, DrawsForSetup(i, token)))
    ensures FilesOk(Draw(w, i, token, setup))
  {
    var v := Draw(w, i, token, setup);
    if v != w {
      FilesFit(w, i);
      Fits(w, i);
      SavedNow(w);
      var h := w.processes[i].home;
      forall c | c in w.files ensures w.files[c].token != token {
        FileFits(w, c);
      }
      assert ReceiptSaved(w.(files := v.files)) by {
        if w.server.lock != "" {
          var c :| c in w.files && w.files[c].token == w.server.lock;
          assert c in v.files && v.files[c].token == w.server.lock;
        }
      }
      FilesDraw(w, i, v.processes[i], v.files);
    }
  }

  /** A first receipt in a checkout that has none. */
  lemma FilesDraw(w: World, i: nat, p: Client, files: map<nat, Pending>)
    requires Inv(w) && FilesOk(w) && i in w.processes && (w.processes[i].at.Drawing? || w.processes[i].at.SetupLocked?)
    requires var h := w.processes[i].home;
             && h !in w.files && p.home == h && files == w.files[h := p.pending] && forall c | c in w.files :: w.files[c].token != p.pending.token
    requires SavedOk(p, i, files, w.locks) && ReceiptSaved(w.(files := files))
    ensures FilesOk(w.(processes := w.processes[i := p], files := files))
  {
    var all := w.processes[i := p];
    forall j | j in all ensures SavedOk(all[j], j, files, w.locks) {
      if j != i {
        FilesFit(w, j);
        FilesFit(w, i);
      }
    }
  }

  lemma EnterFiles(w: World, i: nat, goal: Goal)
    requires FilesOk(w)
    ensures FilesOk(Enter(w, i, goal))
  {
    if Enter(w, i, goal) != w {
      FilesFit(w, i);
      hide FilesOk;
      PlainFiles(w, i, w.processes[i].(at := Locked(goal)), w.locks[w.processes[i].home := i]);
    }
  }

  lemma LookFiles(w: World, i: nat)
    requires FilesOk(w)
    ensures FilesOk(Look(w, i))
  {
    if i in w.processes && w.processes[i].at.Locked? {
      FilesFit(w, i);
      LeaveFiles(w, i);
      hide FilesOk;
      var v := Look(w, i);
      if v != Leave(w, i, w.processes[i]) {
        PlainFiles(w, i, v.processes[i], w.locks);
      }
    }
  }

  lemma FindFiles(w: World, i: nat)
    requires FilesOk(w)
    ensures FilesOk(Step(w, FindsNone(i)))
  {
    hide FilesOk;
    if Step(w, FindsNone(i)) != w {
      FilesFit(w, i);
      PlainFiles(w, i, w.processes[i].(at := Missing), w.locks);
    }
  }

  lemma ReleaseFiles(w: World, i: nat)
    requires FilesOk(w)
    ensures FilesOk(Step(w, Releases(i)))
  {
    hide FilesOk;
    if Step(w, Releases(i)) != w {
      FilesFit(w, i);
      var p := w.processes[i];
      PlainFiles(w, i, p.(at := Releasing, lease := None, pending := p.lease.value), w.locks);
    }
  }

  lemma LockFiles(w: World, i: nat)
    requires FilesOk(w)
    ensures FilesOk(LockForSetup(w, i))
  {
    hide FilesOk;
    if At(w, i, Missing) {
      FilesFit(w, i);
      var p := w.processes[i];
      if p.home in w.locks {
        PlainFiles(w, i, p.(at := Out), w.locks);
      } else {
        PlainFiles(w, i, p.(at := SetupLocked), w.locks[p.home := i]);
      }
    }
  }

  /** A processed change leaves the promise intact when its token has a saved receipt. */
  lemma ServerFiles(w: World, c: Change, i: nat)
    requires FilesOk(w) && i in w.processes && HasReceipt(w.processes[i]) && TokenOf(c) == w.processes[i].pending.token
    ensures FilesOk(w.(server := Process(w.server, c).0))
  {
    FilesFit(w, i);
    if Process(w.server, c).0 != w.server {
      OnlyTheHolderWrites(w.server, c);
    }
  }

  lemma BeginFiles(w: World, i: nat, answered: bool)
    requires FilesOk(w)
    ensures FilesOk(IndexWorld.Begin(w, i, answered))
  {
    hide FilesOk;
    if i in w.processes && w.processes[i].at.Saved? {
      var c := Registry.Begin(w.processes[i].pending.token);
      var u := w.(server := Process(w.server, c).0);
      ServerFiles(w, c, i);
      FilesFit(w, i);
      if answered {
        PlainFiles(u, i, IndexWorld.Begin(w, i, answered).processes[i], u.locks);
      }
    }
  }

  lemma SyncFiles(w: World, i: nat, accepted: bool, answered: bool)
    requires FilesOk(w)
    ensures FilesOk(Sync(w, i, accepted, answered))
  {
    hide FilesOk;
    var v := Sync(w, i, accepted, answered);
    if v != w {
      FilesFit(w, i);
      LeaveFiles(w, i);
      if accepted {
        PlainFiles(w, i, v.processes[i], w.locks);
      }
    }
  }

  lemma PublishFiles(w: World, i: nat, at: string, answered: bool)
    requires FilesOk(w)
    ensures FilesOk(IndexWorld.Publish(w, i, at, answered))
  {
    hide FilesOk;
    if i in w.processes && MayPublish(w.processes[i]) {
      var p := w.processes[i];
      var c := Registry.Publish(ReceiptOf(p.pending), p.pending.config.value, at);
      var u := w.(server := Process(w.server, c).0);
      ServerFiles(w, c, i);
      FilesFit(w, i);
      LeaveFiles(u, i);
      PlainFiles(u, i, p.(at := Published(p.at.goal)), u.locks);
    }
  }

  lemma AbandonFiles(w: World, i: nat, from: Point, to: Point, answered: bool)
    requires FilesOk(w) && ((from.Failing? && to.Cleared?) || (from.Releasing? && to.Released?))
    ensures FilesOk(IndexWorld.Abandon(w, i, from, to, answered))
  {
    hide FilesOk;
    if At(w, i, from) {
      var p := w.processes[i];
      var c := Registry.Abandon(ReceiptOf(p.pending));
      var u := w.(server := Process(w.server, c).0);
      ServerFiles(w, c, i);
      FilesFit(w, i);
      LeaveFiles(u, i);
      PlainFiles(u, i, p.(at := to), u.locks);
    }
  }

  lemma StartFiles(w: World, home: nat, i: nat)
    requires Inv(w) && FilesOk(w)
    ensures FilesOk(Step(w, Starts(home))) && FilesOk(Step(w, Dies(i))) && FilesOk(Step(w, Unlocks(home)))
  {
  }

  lemma StepFiles(w: World, e: Event)
    requires Inv(w) && FilesOk(w) && Fresh(w, e)
    ensures FilesOk(Step(w, e))
  {
    hide Inv, FilesOk, Enter, Look, Draw, LockForSetup, IndexWorld.Begin, SaveReceipt, EndWork, Prepare, Sync, IndexWorld.Publish, DropPublished,
      IndexWorld.Abandon, DropAt, Leave;
    match e
    case Starts(home) => StartFiles(w, home, 0);
    case Dies(i) => StartFiles(w, 0, i);
    case Unlocks(home) => StartFiles(w, home, 0);
    case Enters(i, work) => EnterFiles(w, i, if work then Deploying else Nothing);
    case Looks(i) => LookFiles(w, i);
    case Draws(i, token) => DrawFiles(w, i, token, false);
    case FindsNone(i) => FindFiles(w, i);
    case RetriesFirst(i) => EnterFiles(w, i, SettingUp);
    case LocksForSetup(i) => LockFiles(w, i);
    case DrawsForSetup(i, token) => DrawFiles(w, i, token, true);
    case Begins(i, answered) => BeginFiles(w, i, answered);
    case DropsRefused(i) => DropAtFiles(w, i, Refused);
    case SavesReceipt(i, saved) => SaveReceiptFiles(w, i, saved);
    case EndsWork(i, ok, saved) => EndWorkFiles(w, i, ok, saved);
    case Prepares(i, config, defaults) => PrepareFiles(w, i, config, defaults);
    case Syncs(i, accepted, answered) => SyncFiles(w, i, accepted, answered);
    case Publishes(i, at, answered) => PublishFiles(w, i, at, answered);
    case DropsPublished(i) => DropPublishedFiles(w, i);
    case Abandons(i, answered) => AbandonFiles(w, i, Failing, Cleared, answered);
    case DropsCleared(i) => DropAtFiles(w, i, Cleared);
    case Releases(i) => ReleaseFiles(w, i);
    case AbandonsLease(i, answered) => AbandonFiles(w, i, Releasing, Released, answered);
    case DropsReleased(i) => DropAtFiles(w, i, Released);
    case GivesUp(i) => if i in w.processes { LeaveFiles(w, i); }
  }

  lemma {:induction false} CarefulRunKeeps(w: World, es: seq<Event>)
    requires Inv(w) && FilesOk(w) && Careful(w, es)
    ensures Inv(Run(w, es)) && FilesOk(Run(w, es))
    decreases |es|
  {
    hide Inv, FilesOk, Step, Fresh;
    if es != [] {
      StepKeeps(w, es[0]);
      StepFiles(w, es[0]);
      CarefulRunKeeps(Step(w, es[0]), es[1..]);
    }
  }

  /** When every setup still finds no receipt as it saves its own, a held lock's token is always in a saved receipt. */
  lemma HeldLockHasReceipt(es: seq<Event>)
    requires Careful(EMPTY, es)
    ensures ReceiptSaved(Run(EMPTY, es))
  {
    EmptyInv();
    EmptyFilesOk();
    CarefulRunKeeps(EMPTY, es);
  }

  lemma Snoc(es: seq<Event>, e: Event)
    ensures Run(EMPTY, es + [e]) == Step(Run(EMPTY, es), e)
  {
    RunAppend(EMPTY, es, [e]);
    assert Run(Run(EMPTY, es), [e]) == Run(Step(Run(EMPTY, es), e), [e][1..]);
  }

  lemma Then(es: seq<Event>, e: Event, w: World, v: World)
    requires Run(EMPTY, es) == w && Step(w, e) == v
    ensures Run(EMPTY, es + [e]) == v
  {
    Snoc(es, e);
  }

  const DRAWN_A := Pending("a", 0, false, None, false)
  const LEASED := Pending("a", 1, false, None, false)
  const DRAWN_B := Pending("b", 0, false, None, false)
  const HELD := Record(1, "a", None, false, "")
  const STALE := Client(0, None, Missing, NO_PENDING)
  const SETUP := Client(0, Some(LEASED), Out, LEASED)

  /** Two processes of one checkout have looked for a receipt and found none. */
  const LOOKED := World(NO_RECORD, map[], map[], map[0 := STALE, 1 := STALE], map[], 2)
  const ENTERED := LOOKED.(locks := map[0 := 0], processes := map[0 := STALE.(at := SetupLocked), 1 := STALE])
  const DRAWN := World(NO_RECORD, map[0 := DRAWN_A], map[0 := 0], map[0 := Client(0, None, Saved(true), DRAWN_A), 1 := STALE], map["a" := 0], 2)
  const GRANTED := World(HELD, map[0 := DRAWN_A], map[0 := 0], map[0 := Client(0, None, Begun(true), LEASED), 1 := STALE], map["a" := 0], 2)

  /** The first one has the registry's lock for its setup. */
  const LEASING := World(HELD, map[0 := LEASED], map[], map[0 := SETUP, 1 := STALE], map["a" := 0], 2)

  lemma BothLook() returns (es: seq<Event>)
    ensures Run(EMPTY, es) == LOOKED
  {
    var idle := Client(0, None, Out, NO_PENDING);
    es := [] + [Starts(0)] + [Starts(0)] + [FindsNone(0)] + [FindsNone(1)];
    var w1, w2 := EMPTY.(processes := map[0 := idle], started := 1), EMPTY.(processes := map[0 := idle, 1 := idle], started := 2);
    EmptyRun();
    hide Run;
    Then([], Starts(0), EMPTY, w1);
    Then([] + [Starts(0)], Starts(0), w1, w2);
    Then([] + [Starts(0)] + [Starts(0)], FindsNone(0), w2, w2.(processes := map[0 := STALE, 1 := idle]));
    Then([] + [Starts(0)] + [Starts(0)] + [FindsNone(0)], FindsNone(1), w2.(processes := map[0 := STALE, 1 := idle]), LOOKED);
  }

  lemma EmptyRun()
    ensures Run(EMPTY, []) == EMPTY
  {
  }

  lemma FirstSteps()
    ensures Step(LOOKED, LocksForSetup(0)) == ENTERED && Step(ENTERED, DrawsForSetup(0, "a")) == DRAWN
  {
    assert ENTERED.processes[0 := Client(0, None, Saved(true), DRAWN_A)] == DRAWN.processes;
  }

  lemma GrantSteps()
    ensures Step(DRAWN, Begins(0, true)) == GRANTED && Step(GRANTED, SavesReceipt(0, true)) == LEASING
  {
    assert DRAWN.processes[0 := Client(0, None, Begun(true), LEASED)] == GRANTED.processes;
    assert GRANTED.processes[0 := SETUP] == LEASING.processes && GRANTED.locks - {0} == LEASING.locks;
  }

  lemma StaleSteps()
    ensures var w1 := Step(LEASING, LocksForSetup(1));
            var w2 := Step(w1, DrawsForSetup(1, "b"));
            w2.server == HELD && w2.files == map[0 := DRAWN_B] && w2.processes == map[0 := SETUP, 1 := Client(0, None, Saved(true), DRAWN_B)]
  {
  }

  lemma RefusedSteps(w: World)
    requires w.server == HELD && w.files == map[0 := DRAWN_B]
    requires w.processes == map[0 := SETUP, 1 := Client(0, None, Saved(true), DRAWN_B)]
    ensures var v := Step(Step(w, Begins(1, true)), DropsRefused(1));
            v.server == HELD && v.files == map[] && 0 in v.processes && v.processes[0] == SETUP
  {
  }

  /** The first setup acquires the registry's lock. */
  lemma FirstLeases() returns (es: seq<Event>)
    ensures Run(EMPTY, es) == LEASING
  {
    es := BothLook();
    FirstSteps();
    GrantSteps();
    hide Run, Step;
    Then(es, LocksForSetup(0), LOOKED, ENTERED);
    es := es + [LocksForSetup(0)];
    Then(es, DrawsForSetup(0, "a"), ENTERED, DRAWN);
    es := es + [DrawsForSetup(0, "a")];
    Then(es, Begins(0, true), DRAWN, GRANTED);
    es := es + [Begins(0, true)];
    Then(es, SavesReceipt(0, true), GRANTED, LEASING);
    es := es + [SavesReceipt(0, true)];
  }

  /** The second one goes on from what it saw, is refused, and removes the receipt file: the lock is held and no checkout has its token. */
  lemma StaleLookLosesReceipt() returns (es: seq<Event>)
    ensures var w := Run(EMPTY, es); w.server.lock == "a" && w.files == map[] && !ReceiptSaved(w)
    ensures 0 in Run(EMPTY, es).processes && Run(EMPTY, es).processes[0].lease == Some(LEASED)
  {
    es := FirstLeases();
    StaleSteps();
    hide Run, Step;
    Snoc(es, LocksForSetup(1));
    es := es + [LocksForSetup(1)];
    Snoc(es, DrawsForSetup(1, "b"));
    es := es + [DrawsForSetup(1, "b")];
    RefusedSteps(Run(EMPTY, es));
    Snoc(es, Begins(1, true));
    es := es + [Begins(1, true)];
    Snoc(es, DropsRefused(1));
    es := es + [DropsRefused(1)];
  }
}
