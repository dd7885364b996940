/** One deployment at a time, and a saved receipt for every held lock. */
module IndexSafety {
  import opened Basics
  import opened Registry
  import opened IndexWorld

  // ---- Who stands for a token ----

  /** Points at which a process works with a token that it drew itself. */
  predicate OwnPoint(p: Point) {
    p.Saved? || p.Refused? || p.Begun? || p.Working? || p.Failing? || p.Cleared? || p.Releasing? || p.Released?
  }

  /** Points at which a finished deployment is published. */
  predicate Closing(p: Point) {
    p.Publishing? || p.Announcing? || p.Published?
  }

  predicate Uses(p: Client, token: string) {
    (OwnPoint(p.at) && p.pending.token == token) || (p.lease.Some? && p.lease.value.token == token)
  }

  predicate Settles(p: Client, token: string) {
    Closing(p.at) && p.pending.token == token
  }

  predicate Drawn(token: string, i: nat, drawn: map<string, nat>) {
    token != "" && token in drawn && drawn[token] == i
  }

  ghost predicate ProcessOk(p: Client, i: nat, server: Record, drawn: map<string, nat>) {
    && (OwnPoint(p.at) ==> Drawn(p.pending.token, i, drawn) && !p.pending.deployed)
    && (Closing(p.at) ==> p.pending.token in drawn && p.pending.token != "")
    && (p.lease.Some? ==> Drawn(p.lease.value.token, i, drawn) && !p.lease.value.deployed && Holds(server, ReceiptOf(p.lease.value)))
    && (p.lease.Some? && OwnPoint(p.at) ==> p.lease.value.token != p.pending.token)
    && (p.at.Begun? || p.at.Working? ==> Holds(server, ReceiptOf(p.pending)))
    && (p.at.Refused? || p.at.Cleared? || p.at.Released? || p.at.Published? ==> server.lock != p.pending.token)
  }

  ghost predicate ProcessesOk(processes: map<nat, Client>, server: Record, drawn: map<string, nat>) {
    forall i | i in processes :: ProcessOk(processes[i], i, server, drawn)
  }

  /** A token whose deployment is done is used by nobody any more. */
  ghost predicate SettledOk(processes: map<nat, Client>, files: map<nat, Pending>) {
    && (forall i, j | i in processes && j in processes && Closing(processes[j].at)
          :: !Uses(processes[i], processes[j].pending.token))
    && (forall i, c | i in processes && c in files && files[c].deployed :: !Uses(processes[i], files[c].token))
  }

  ghost predicate TokensOk(w: World) {
    && (w.server.lock != "" ==> w.server.lock in w.drawn) && (w.server.lastToken != "" ==> w.server.lastToken in w.drawn)
    && (forall c | c in w.files :: w.files[c].token in w.drawn && w.files[c].token != "")
    && (forall t | t in w.drawn :: w.drawn[t] < w.started)
    && (forall i | i in w.processes :: i < w.started)
    && (forall c | c in w.locks :: w.locks[c] < w.started)
  }

  ghost predicate Inv(w: World) {
    TokensOk(w) && ProcessesOk(w.processes, w.server, w.drawn) && SettledOk(w.processes, w.files)
  }

  lemma EmptyInv()
    ensures Inv(EMPTY)
  {
  }

  /** Two live processes never use the same token. */
  lemma OwnersDiffer(w: World, i: nat, j: nat, token: string)
    requires Inv(w) && i in w.processes && j in w.processes && Uses(w.processes[i], token) && Uses(w.processes[j], token)
    ensures i == j
  {
    assert ProcessOk(w.processes[i], i, w.server, w.drawn) && ProcessOk(w.processes[j], j, w.server, w.drawn);
  }

  predicate Finishing(p: Client) {
    Closing(p.at)
  }

  /** Nobody but `i` uses the token. */
  ghost predicate Unshared(processes: map<nat, Client>, i: nat, token: string) {
    forall j | j in processes && j != i :: !Uses(processes[j], token)
  }

  /** Process `i` moves on with no new token, and with saved receipts of tokens that nobody needs as undeployed. */
  lemma Moves(w: World, i: nat, p: Client, files: map<nat, Pending>, locks: map<nat, nat>)
    requires Inv(w) && i in w.processes && ProcessOk(p, i, w.server, w.drawn)
    requires forall t | Uses(p, t) :: Uses(w.processes[i], t)
    requires Finishing(p) ==> Unshared(w.processes, i, p.pending.token) && !Uses(p, p.pending.token)
    requires forall c | c in files :: files[c].token in w.drawn && files[c].token != ""
    requires forall c | c in files && files[c].deployed && !(c in w.files && files[c] == w.files[c])
               :: Unshared(w.processes, i, files[c].token) && !Uses(p, files[c].token)
    requires forall c | c in locks :: locks[c] < w.started
    ensures Inv(w.(processes := w.processes[i := p], files := files, locks := locks))
  {
    hide ProcessOk;
    var all := w.processes[i := p];
    forall j, k | j in all && k in all && Finishing(all[k]) ensures !Uses(all[j], all[k].pending.token) {
      assert Uses(w.processes[i], all[k].pending.token) || !Uses(p, all[k].pending.token);
    }
    forall j, c | j in all && c in files && files[c].deployed ensures !Uses(all[j], files[c].token) {
      assert Uses(w.processes[i], files[c].token) || !Uses(p, files[c].token);
    }
  }

  /** A change that the registry processes touches only what holds its token. */
  lemma ServerMoves(w: World, c: Change, i: nat, p: Client)
    requires Inv(w) && i in w.processes && TokenOf(c) in w.drawn && Unshared(w.processes, i, TokenOf(c))
    requires var s := Process(w.server, c).0; ProcessOk(p, i, s, w.drawn)
    requires c.Begin? ==> Uses(w.processes[i], c.token)
    requires forall t | Uses(p, t) :: Uses(w.processes[i], t)
    requires Finishing(p) ==> Unshared(w.processes, i, p.pending.token) && !Uses(p, p.pending.token)
    ensures Inv(w.(server := Process(w.server, c).0, processes := w.processes[i := p]))
  {
    var s := Process(w.server, c).0;
    forall j | j in w.processes && j != i ensures ProcessOk(w.processes[j], j, s, w.drawn) {
      assert ProcessOk(w.processes[j], j, w.server, w.drawn);
      var q := w.processes[j];
      if s != w.server {
        OnlyTheHolderWrites(w.server, c);
      }
      if c.Begin? && Finishing(q) {
        assert !Uses(w.processes[i], q.pending.token);
      }
    }
    var v := w.(server := s);
    assert Inv(v.(processes := w.processes[i := p])) by {
      hide ProcessOk;
      var all := w.processes[i := p];
      forall j, k | j in all && k in all && Finishing(all[k]) ensures !Uses(all[j], all[k].pending.token) {
        assert Uses(w.processes[i], all[k].pending.token) || !Uses(p, all[k].pending.token);
      }
      forall j, d | j in all && d in w.files && w.files[d].deployed ensures !Uses(all[j], w.files[d].token) {
        assert Uses(w.processes[i], w.files[d].token) || !Uses(p, w.files[d].token);
      }
    }
  }

  lemma Fits(w: World, i: nat)
    requires Inv(w) && i in w.processes
    ensures ProcessOk(w.processes[i], i, w.server, w.drawn)
    ensures forall t | Uses(w.processes[i], t) :: Unshared(w.processes, i, t)
    ensures Finishing(w.processes[i]) ==> Unshared(w.processes, i, w.processes[i].pending.token) && !Uses(w.processes[i], w.processes[i].pending.token)
  {
    forall t, j | Uses(w.processes[i], t) && j in w.processes && j != i ensures !Uses(w.processes[j], t) {
      if Uses(w.processes[j], t) {
        OwnersDiffer(w, i, j, t);
      }
    }
  }

  lemma FileFits(w: World, c: nat)
    requires Inv(w) && c in w.files
    ensures w.files[c].token in w.drawn && w.files[c].token != ""
    ensures w.files[c].deployed ==> forall j | j in w.processes :: !Uses(w.processes[j], w.files[c].token)
  {
  }

  /** Leaving, or going to a point without a token of its own. */
  lemma LeaveKeeps(w: World, i: nat, files: map<nat, Pending>)
    requires Inv(w) && i in w.processes && forall c | c in files :: c in w.files && files[c] == w.files[c]
    ensures Inv(Leave(w.(files := files), i, w.processes[i]))
  {
    Fits(w, i);
    hide Inv, Unshared;
    LocksFit(w, files, i);
    var p := w.processes[i];
    var v := Leave(w.(files := files), i, p);
    Moves(w, i, p.(at := Out), files, v.locks);
  }

  lemma LocksFit(w: World, files: map<nat, Pending>, i: nat)
    requires Inv(w) && i in w.processes && forall c | c in files :: c in w.files && files[c] == w.files[c]
    ensures forall c | c in files :: files[c].token in w.drawn && files[c].token != ""
    ensures forall c | c in w.locks :: w.locks[c] < w.started
    ensures i < w.started
  {
  }

  lemma StartKeeps(w: World, home: nat)
    requires Inv(w)
    ensures Inv(Step(w, Starts(home)))
  {
  }

  lemma DieKeeps(w: World, i: nat, home: nat)
    requires Inv(w)
    ensures Inv(Step(w, Dies(i))) && Inv(Step(w, Unlocks(home)))
  {
  }

  lemma EnterKeeps(w: World, i: nat, goal: Goal)
    requires Inv(w)
    ensures Inv(Enter(w, i, goal))
  {
    if Enter(w, i, goal) != w {
      Fits(w, i);
      LocksFit(w, w.files, i);
      hide Inv, Unshared;
      Moves(w, i, w.processes[i].(at := Locked(goal)), w.files, w.locks[w.processes[i].home := i]);
    }
  }

  lemma LookKeeps(w: World, i: nat)
    requires Inv(w)
    ensures Inv(Look(w, i))
  {
    if i in w.processes && w.processes[i].at.Locked? {
      LeaveKeeps(w, i, w.files);
      if w.processes[i].home in w.files {
        LookFinds(w, i);
      } else {
        Fits(w, i);
        LocksFit(w, w.files, i);
        hide Inv;
        Moves(w, i, w.processes[i].(at := Drawing), w.files, w.locks);
      }
    }
  }

  lemma LookFinds(w: World, i: nat)
    requires Inv(w) && i in w.processes && w.processes[i].at.Locked? && w.processes[i].home in w.files
    ensures Inv(Look(w, i))
  {
    LeaveKeeps(w, i, w.files);
    Fits(w, i);
    LocksFit(w, w.files, i);
    var p := w.processes[i];
    var found := w.files[p.home];
    FileFits(w, p.home);
    hide Inv;
    if found.deployed {
      Moves(w, i, p.(at := Publishing(p.at.goal), pending := found), w.files, w.locks);
    } else if p.lease.Some? && SameReceipt(p.lease.value, found) && p.at.goal.Deploying? {
      Moves(w, i, p.(at := Working, lease := None, pending := found), w.files, w.locks);
    }
  }

  lemma FindKeeps(w: World, i: nat)
    requires Inv(w)
    ensures Inv(Step(w, FindsNone(i)))
  {
    if At(w, i, Out) {
      Fits(w, i);
      LocksFit(w, w.files, i);
      hide Inv, Unshared;
      Moves(w, i, w.processes[i].(at := Missing), w.files, w.locks);
    }
  }

  lemma LockForSetupKeeps(w: World, i: nat)
    requires Inv(w)
    ensures Inv(LockForSetup(w, i))
  {
    if At(w, i, Missing) {
      Fits(w, i);
      LocksFit(w, w.files, i);
      hide Inv, Unshared;
      var p := w.processes[i];
      if p.home in w.locks {
        Moves(w, i, p.(at := Out), w.files, w.locks);
      } else {
        Moves(w, i, p.(at := SetupLocked), w.files, w.locks[p.home := i]);
      }
    }
  }

  lemma DrawKeeps(w: World, i: nat, token: string, setup: bool)
    requires Inv(w)
    ensures Inv(Draw(w, i, token, setup))
  {
    var v := Draw(w, i, token, setup);
    if v != w {
      forall j | j in w.processes ensures !Uses(w.processes[j], token) && ProcessOk(v.processes[j], j, v.server, v.drawn) {
        assert ProcessOk(w.processes[j], j, w.server, w.drawn);
      }
    }
  }

  lemma BeginKeeps(w: World, i: nat, answered: bool)
    requires Inv(w)
    ensures Inv(IndexWorld.Begin(w, i, answered))
  {
    if i in w.processes && w.processes[i].at.Saved? {
      Fits(w, i);
      hide Inv, Unshared;
      var v := IndexWorld.Begin(w, i, answered);
      ServerMoves(w, Registry.Begin(w.processes[i].pending.token), i, v.processes[i]);
      assert v.processes == w.processes[i := v.processes[i]];
    }
  }

  lemma SaveReceiptKeeps(w: World, i: nat, saved: bool)
    requires Inv(w)
    ensures Inv(SaveReceipt(w, i, saved))
  {
    if i in w.processes && w.processes[i].at.Begun? {
      Fits(w, i);
      LocksFit(w, w.files, i);
      var p := w.processes[i];
      var v := SaveReceipt(w, i, saved);
      hide Inv;
      Moves(w, i, v.processes[i], v.files, v.locks);
    }
  }

  lemma EndWorkKeeps(w: World, i: nat, ok: bool, saved: bool)
    requires Inv(w)
    ensures Inv(EndWork(w, i, ok, saved))
  {
    if At(w, i, Working) {
      Fits(w, i);
      LocksFit(w, w.files, i);
      var p := w.processes[i];
      var v := EndWork(w, i, ok, saved);
      hide Inv;
      Moves(w, i, v.processes[i], v.files, v.locks);
    }
  }

  lemma PrepareKeeps(w: World, i: nat, config: string, defaults: bool)
    requires Inv(w)
    ensures Inv(Prepare(w, i, config, defaults))
  {
    if i in w.processes && w.processes[i].at.Publishing? {
      Fits(w, i);
      LocksFit(w, w.files, i);
      var v := Prepare(w, i, config, defaults);
      hide Inv;
      Moves(w, i, v.processes[i], v.files, v.locks);
      assert w.processes[i := v.processes[i]] == v.processes;
    }
  }

  lemma SyncKeeps(w: World, i: nat, accepted: bool, answered: bool)
    requires Inv(w)
    ensures Inv(Sync(w, i, accepted, answered))
  {
    var v := Sync(w, i, accepted, answered);
    if v != w {
      if accepted {
        Fits(w, i);
        LocksFit(w, w.files, i);
        hide Inv, Unshared;
        Moves(w, i, v.processes[i], w.files, w.locks);
      } else {
        LeaveKeeps(w, i, w.files);
      }
    }
  }

  lemma PublishKeeps(w: World, i: nat, at: string, answered: bool)
    requires Inv(w)
    ensures Inv(IndexWorld.Publish(w, i, at, answered))
  {
    if i in w.processes && MayPublish(w.processes[i]) {
      Fits(w, i);
      hide Inv, Unshared;
      var p := w.processes[i];
      var c := Registry.Publish(ReceiptOf(p.pending), p.pending.config.value, at);
      OwnServerChange(w, i, c);
      ServerMoves(w, c, i, p);
      assert w.processes[i := p] == w.processes;
      var v := w.(server := Process(w.server, c).0);
      if answered && Process(w.server, c).1.Done? {
        ServerMoves(w, c, i, p.(at := Published(p.at.goal)));
      } else if answered {
        LeaveKeeps(v, i, v.files);
      }
    }
  }

  /** A process whose own token is being published or abandoned loses nothing it relies on. */
  lemma OwnServerChange(w: World, i: nat, c: Change)
    requires Inv(w) && i in w.processes && (c.Publish? || c.Abandon?) && c.receipt == ReceiptOf(w.processes[i].pending)
    requires Finishing(w.processes[i]) || w.processes[i].at.Failing? || w.processes[i].at.Releasing?
    ensures ProcessOk(w.processes[i], i, Process(w.server, c).0, w.drawn)
    ensures Process(w.server, c).1.Done? ==> Process(w.server, c).0.lock != c.receipt.token
    ensures c.receipt.token in w.drawn
  {
    Fits(w, i);
  }

  /** Whatever the process goes on to, it needs no token that it did not need before. */
  lemma DropPublishedMoves(w: World, i: nat)
    requires i in w.processes && w.processes[i].at.Published?
    ensures var v := DropPublished(w, i); var p := v.processes[i];
            && v == w.(processes := w.processes[i := p], files := w.files - {w.processes[i].home}, locks := v.locks)
            && p.pending == w.processes[i].pending && p.lease == w.processes[i].lease
            && (p.at.Out? || p.at.Drawing? || p.at.Missing?)
            && (forall c | c in v.locks :: c in w.locks && v.locks[c] == w.locks[c])
  {
    assert w.processes[i := w.processes[i].(at := Out)][i := w.processes[i].(at := Missing)] == w.processes[i := w.processes[i].(at := Missing)];
  }

  lemma DropPublishedKeeps(w: World, i: nat)
    requires Inv(w)
    ensures Inv(DropPublished(w, i))
  {
    if i in w.processes && w.processes[i].at.Published? {
      Fits(w, i);
      LocksFit(w, w.files, i);
      DropPublishedMoves(w, i);
      var v := DropPublished(w, i);
      hide Inv, Unshared, DropPublished;
      Moves(w, i, v.processes[i], v.files, v.locks);
    }
  }

  lemma AbandonKeeps(w: World, i: nat, from: Point, to: Point, answered: bool)
    requires Inv(w) && ((from.Failing? && to.Cleared?) || (from.Releasing? && to.Released?))
    ensures Inv(IndexWorld.Abandon(w, i, from, to, answered))
  {
    if At(w, i, from) {
      Fits(w, i);
      hide Inv, Unshared;
      var p := w.processes[i];
      var c := Registry.Abandon(ReceiptOf(p.pending));
      OwnServerChange(w, i, c);
      ServerMoves(w, c, i, p);
      assert w.processes[i := p] == w.processes;
      var v := w.(server := Process(w.server, c).0);
      if answered && Process(w.server, c).1.Done? {
        ServerMoves(w, c, i, p.(at := to));
      } else if answered {
        LeaveKeeps(v, i, v.files);
      }
    }
  }

  lemma DropKeeps(w: World, i: nat, from: Point)
    requires Inv(w)
    ensures Inv(DropAt(w, i, from))
  {
    if At(w, i, from) {
      LeaveKeeps(w, i, w.files - {w.processes[i].home});
    }
  }

  lemma ReleaseKeeps(w: World, i: nat)
    requires Inv(w)
    ensures Inv(Step(w, Releases(i)))
  {
    if Step(w, Releases(i)) != w {
      Fits(w, i);
      LocksFit(w, w.files, i);
      var v := Step(w, Releases(i));
      hide Inv, Unshared;
      Moves(w, i, v.processes[i], v.files, v.locks);
    }
  }

  lemma StepKeeps(w: World, e: Event)
    requires Inv(w)
    ensures Inv(Step(w, e))
  {
    hide Inv, Enter, Look, Draw, LockForSetup, IndexWorld.Begin, SaveReceipt, EndWork, Prepare, Sync, IndexWorld.Publish, DropPublished, IndexWorld.Abandon,
      DropAt, Leave;
    match e
    case Starts(home) => StartKeeps(w, home);
    case Dies(i) => DieKeeps(w, i, 0);
    case Unlocks(home) => DieKeeps(w, 0, home);
    case Enters(i, work) => EnterKeeps(w, i, if work then Deploying else Nothing);
    case Looks(i) => LookKeeps(w, i);
    case Draws(i, token) => DrawKeeps(w, i, token, false);
    case FindsNone(i) => FindKeeps(w, i);
    case RetriesFirst(i) => EnterKeeps(w, i, SettingUp);
    case LocksForSetup(i) => LockForSetupKeeps(w, i);
    case DrawsForSetup(i, token) => DrawKeeps(w, i, token, true);
    case Begins(i, answered) => BeginKeeps(w, i, answered);
    case DropsRefused(i) => DropKeeps(w, i, Refused);
    case SavesReceipt(i, saved) => SaveReceiptKeeps(w, i, saved);
    case EndsWork(i, ok, saved) => EndWorkKeeps(w, i, ok, saved);
    case Prepares(i, config, defaults) => PrepareKeeps(w, i, config, defaults);
    case Syncs(i, accepted, answered) => SyncKeeps(w, i, accepted, answered);
    case Publishes(i, at, answered) => PublishKeeps(w, i, at, answered);
    case DropsPublished(i) => DropPublishedKeeps(w, i);
    case Abandons(i, answered) => AbandonKeeps(w, i, Failing, Cleared, answered);
    case DropsCleared(i) => DropKeeps(w, i, Cleared);
    case Releases(i) => ReleaseKeeps(w, i);
    case AbandonsLease(i, answered) => AbandonKeeps(w, i, Releasing, Released, answered);
    case DropsReleased(i) => DropKeeps(w, i, Released);
    case GivesUp(i) => if i in w.processes { LeaveKeeps(w, i, w.files); }
  }

  lemma {:induction false} RunKeeps(w: World, es: seq<Event>)
    requires Inv(w)
    ensures Inv(Run(w, es))
    decreases |es|
  {
    hide Inv, Step;
    if es != [] {
      StepKeeps(w, es[0]);
      RunKeeps(Step(w, es[0]), es[1..]);
    }
  }

  lemma Reachable(es: seq<Event>)
    ensures Inv(Run(EMPTY, es))
  {
    EmptyInv();
    RunKeeps(EMPTY, es);
  }

  // ---- One deployment at a time ----

  /** A process that does deployment work, is about to, or reserves the environment for its setup. */
  predicate Occupies(w: World, i: nat) {
    i in w.processes && (w.processes[i].at.Working? || w.processes[i].at.Begun? || w.processes[i].lease.Some?)
  }

  /** In no run do two processes, of the same or of different checkouts, occupy the environment at the same time. */
  lemma OneDeploymentAtATime(es: seq<Event>, i: nat, j: nat)
    requires var w := Run(EMPTY, es); Occupies(w, i) && Occupies(w, j)
    ensures i == j
  {
    Reachable(es);
    hide Run;
    var w := Run(EMPTY, es);
    assert ProcessOk(w.processes[i], i, w.server, w.drawn) && ProcessOk(w.processes[j], j, w.server, w.drawn);
  }

  /** Whoever works, or keeps a setup lease, holds the registry's lock with the revision it was granted. */
  lemma WorkerHoldsTheLock(es: seq<Event>, i: nat)
    requires i in Run(EMPTY, es).processes
    ensures var w := Run(EMPTY, es);
            var p := w.processes[i];
            && (p.at.Working? ==> Holds(w.server, ReceiptOf(p.pending)))
            && (p.lease.Some? ==> Holds(w.server, ReceiptOf(p.lease.value)))
  {
    Reachable(es);
    hide Run;
    var w := Run(EMPTY, es);
    assert ProcessOk(w.processes[i], i, w.server, w.drawn);
  }

  /** When the registry refused an acquisition, the process does not hold the lock, so it may drop its receipt. */
  lemma RefusedMeansNotHeld(es: seq<Event>, i: nat)
    requires At(Run(EMPTY, es), i, Refused)
    ensures Run(EMPTY, es).server.lock != Run(EMPTY, es).processes[i].pending.token
  {
    Reachable(es);
    hide Run;
    var w := Run(EMPTY, es);
    assert ProcessOk(w.processes[i], i, w.server, w.drawn);
  }
}
