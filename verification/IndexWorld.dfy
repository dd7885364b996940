/**
 Deployments of one environment from any number of checkouts: the registry's record, each checkout's
 saved receipt and local .lock file, and the processes, which can die at every point
 (tools/deploy/internal/workflow/index_client.go). The operator's explicit release is not a step here.
 */
module IndexWorld {
  import opened Basics
  import opened Registry

  /**
   The saved receipt; revision 0 until the registry has granted the lock, `config` once it is known what to
   publish, `defaults` when runtime defaults are to be synchronized before that.
   */
  datatype Pending = Pending(token: string, revision: int, deployed: bool, config: Option<string>, defaults: bool)

  /** What a process does after publishing a deployment that was left over. */
  datatype Goal = Nothing | Deploying | SettingUp

  datatype Point =
    | Out
    | Locked(goal: Goal)
    | Drawing
    | Missing
    | SetupLocked
    | Saved(setup: bool)
    | Refused
    | Begun(setup: bool)
    | Working
    | Failing
    | Publishing(goal: Goal)
    | Announcing(goal: Goal)
    | Published(goal: Goal)
    | Releasing
    | Cleared
    | Released

  /** `home` is the checkout; `lease` is what setup keeps in memory between its own steps. */
  datatype Client = Client(home: nat, lease: Option<Pending>, at: Point, pending: Pending)

  const NO_PENDING := Pending("", 0, false, None, false)

  /** `drawn` records which process drew each token. */
  datatype World = World(
    server: Record,
    files: map<nat, Pending>,
    locks: map<nat, nat>,
    processes: map<nat, Client>,
    drawn: map<string, nat>,
    started: nat)

  const EMPTY := World(NO_RECORD, map[], map[], map[], map[], 0)

  datatype Event =
    | Starts(home: nat)
    | Dies(i: nat)
    | Unlocks(home: nat)
    | Enters(i: nat, work: bool)
    | Looks(i: nat)
    | Draws(i: nat, token: string)
    | FindsNone(i: nat)
    | RetriesFirst(i: nat)
    | LocksForSetup(i: nat)
    | DrawsForSetup(i: nat, token: string)
    | Begins(i: nat, answered: bool)
    | DropsRefused(i: nat)
    | SavesReceipt(i: nat, saved: bool)
    | EndsWork(i: nat, ok: bool, saved: bool)
    | Prepares(i: nat, config: string, defaults: bool)
    | Syncs(i: nat, accepted: bool, answered: bool)
    | Publishes(i: nat, at: string, answered: bool)
    | DropsPublished(i: nat)
    | Abandons(i: nat, answered: bool)
    | DropsCleared(i: nat)
    | Releases(i: nat)
    | AbandonsLease(i: nat, answered: bool)
    | DropsReleased(i: nat)
    | GivesUp(i: nat)

  predicate At(w: World, i: nat, p: Point) {
    i in w.processes && w.processes[i].at == p
  }

  function Put(w: World, i: nat, p: Client): World {
    w.(processes := w.processes[i := p])
  }

  /** The process leaves: it removes the .lock file it made. */
  function Leave(w: World, i: nat, p: Client): World {
    w.(processes := w.processes[i := p.(at := Out)],
       locks := if p.home in w.locks && w.locks[p.home] == i then w.locks - {p.home} else w.locks)
  }

  function Drop(w: World, home: nat): World {
    w.(files := w.files - {home})
  }

  function Save(w: World, home: nat, pending: Pending): World {
    w.(files := w.files[home := pending])
  }

  /** Opening the .lock file succeeds only when there is none. */
  function Enter(w: World, i: nat, goal: Goal): World {
    if At(w, i, Out) && w.processes[i].home !in w.locks
    then Put(w.(locks := w.locks[w.processes[i].home := i]), i, w.processes[i].(at := Locked(goal)))
    else w
  }

  predicate SameReceipt(p: Pending, q: Pending) {
    p.token == q.token && p.revision == q.revision
  }

  function Look(w: World, i: nat): World {
    if i in w.processes && w.processes[i].at.Locked?
    then
      var p := w.processes[i];
      if p.home !in w.files then
        if p.at.goal.Deploying? then Put(w, i, p.(at := Drawing)) else Leave(w, i, p)
      else
        var found := w.files[p.home];
        if found.deployed then Put(w, i, p.(at := Publishing(p.at.goal), pending := found))
        else if p.lease.Some? && SameReceipt(p.lease.value, found) && p.at.goal.Deploying?
        then Put(w, i, p.(at := Working, lease := None, pending := found))
        else Leave(w, i, p)
    else w
  }

  /** A token is drawn at random, so nobody has used it before; it is saved before it is sent. */
  predicate MayDraw(w: World, i: nat, token: string, setup: bool) {
    At(w, i, if setup then SetupLocked else Drawing) && token != "" && token !in w.drawn && w.server.lock != token && w.server.lastToken != token
  }

  function Draw(w: World, i: nat, token: string, setup: bool): World {
    if MayDraw(w, i, token, setup)
    then
      var pending := Pending(token, 0, false, None, false);
      Put(Save(w, w.processes[i].home, pending), i, w.processes[i].(at := Saved(setup), pending := pending)).(drawn := w.drawn[token := i])
    else w
  }

  function LockForSetup(w: World, i: nat): World {
    if At(w, i, Missing)
    then
      if w.processes[i].home in w.locks then Put(w, i, w.processes[i].(at := Out))
      else Put(w.(locks := w.locks[w.processes[i].home := i]), i, w.processes[i].(at := SetupLocked))
    else w
  }

  function Begin(w: World, i: nat, answered: bool): World {
    if i in w.processes && w.processes[i].at.Saved?
    then
      var p := w.processes[i];
      var processed := Process(w.server, Registry.Begin(p.pending.token));
      var v := w.(server := processed.0);
      if !answered then v
      else if processed.1.Granted? then Put(v, i, p.(at := Begun(p.at.setup), pending := p.pending.(revision := processed.1.receipt.revision)))
      else Put(v, i, p.(at := Refused))
    else w
  }

  /** The granted receipt is saved; setup remembers it and leaves, a deployment goes on to its work. */
  function SaveReceipt(w: World, i: nat, saved: bool): World {
    if i in w.processes && w.processes[i].at.Begun?
    then
      var p := w.processes[i];
      var v := if saved then Save(w, p.home, p.pending) else w;
      if p.at.setup then Leave(v, i, p.(lease := Some(p.pending)))
      else if saved then Put(v, i, p.(at := Working))
      else Leave(v, i, p)
    else w
  }

  function EndWork(w: World, i: nat, ok: bool, saved: bool): World {
    if At(w, i, Working)
    then
      var p := w.processes[i];
      if ok && !saved then Leave(w, i, p)
      else if ok then Put(Save(w, p.home, p.pending.(deployed := true)), i, p.(at := Publishing(Nothing), pending := p.pending.(deployed := true)))
      else Put(w, i, p.(at := Failing))
    else w
  }

  function Prepare(w: World, i: nat, config: string, defaults: bool): World {
    if i in w.processes && w.processes[i].at.Publishing? && w.processes[i].pending.config.None?
    then
      var pending := w.processes[i].pending.(config := Some(config), defaults := defaults);
      Put(Save(w, w.processes[i].home, pending), i, w.processes[i].(pending := pending))
    else w
  }

  /** The runtime configuration accepts or refuses the defaults; the registry's record stays as it is. */
  function Sync(w: World, i: nat, accepted: bool, answered: bool): World {
    if i in w.processes && w.processes[i].at.Publishing? && w.processes[i].pending.config.Some? && w.processes[i].pending.defaults && answered
    then
      if accepted then Put(w, i, w.processes[i].(at := Announcing(w.processes[i].at.goal))) else Leave(w, i, w.processes[i])
    else w
  }

  /** Publication comes after the defaults, where there are any. */
  predicate MayPublish(p: Client) {
    p.pending.config.Some? && (p.at.Announcing? || (p.at.Publishing? && !p.pending.defaults))
  }

  function ReceiptOf(p: Pending): Receipt {
    Receipt(p.token, p.revision)
  }

  function Publish(w: World, i: nat, at: string, answered: bool): World {
    if i in w.processes && MayPublish(w.processes[i])
    then
      var p := w.processes[i];
      var processed := Process(w.server, Registry.Publish(ReceiptOf(p.pending), p.pending.config.value, at));
      var v := w.(server := processed.0);
      if !answered then v else if processed.1.Done? then Put(v, i, p.(at := Published(p.at.goal))) else Leave(v, i, p)
    else w
  }

  function DropPublished(w: World, i: nat): World {
    if i in w.processes && w.processes[i].at.Published?
    then
      var p := w.processes[i];
      var v := Drop(w, p.home);
      match p.at.goal
      case Nothing => Leave(v, i, p)
      case Deploying => Put(v, i, p.(at := Drawing))
      case SettingUp => Put(Leave(v, i, p), i, p.(at := Missing))
    else w
  }

  /** Abandoning with the lease, or after failed work. */
  function Abandon(w: World, i: nat, from: Point, to: Point, answered: bool): World {
    if At(w, i, from)
    then
      var p := w.processes[i];
      var processed := Process(w.server, Registry.Abandon(ReceiptOf(p.pending)));
      var v := w.(server := processed.0);
      if !answered then v else if processed.1.Done? then Put(v, i, p.(at := to)) else Leave(v, i, p)
    else w
  }

  function DropAt(w: World, i: nat, from: Point): World {
    if At(w, i, from) then Leave(Drop(w, w.processes[i].home), i, w.processes[i]) else w
  }

  function Step(w: World, e: Event): World {
    match e
    case Starts(home) => Put(w, w.started, Client(home, None, Out, NO_PENDING)).(started := w.started + 1)
    case Dies(i) => w.(processes := w.processes - {i})
    case Unlocks(home) => if home in w.locks && w.locks[home] !in w.processes then w.(locks := w.locks - {home}) else w
    case Enters(i, work) => Enter(w, i, if work then Deploying else Nothing)
    case Looks(i) => Look(w, i)
    case Draws(i, token) => Draw(w, i, token, false)
    case FindsNone(i) =>
      if At(w, i, Out) && w.processes[i].lease.None? && w.processes[i].home !in w.files then Put(w, i, w.processes[i].(at := Missing)) else w
    case RetriesFirst(i) => if i in w.processes && w.processes[i].lease.None? then Enter(w, i, SettingUp) else w
    case LocksForSetup(i) => LockForSetup(w, i)
    case DrawsForSetup(i, token) => Draw(w, i, token, true)
    case Begins(i, answered) => Begin(w, i, answered)
    case DropsRefused(i) => DropAt(w, i, Refused)
    case SavesReceipt(i, saved) => SaveReceipt(w, i, saved)
    case EndsWork(i, ok, saved) => EndWork(w, i, ok, saved)
    case Prepares(i, config, defaults) => Prepare(w, i, config, defaults)
    case Syncs(i, accepted, answered) => Sync(w, i, accepted, answered)
    case Publishes(i, at, answered) => Publish(w, i, at, answered)
    case DropsPublished(i) => DropPublished(w, i)
    case Abandons(i, answered) => Abandon(w, i, Failing, Cleared, answered)
    case DropsCleared(i) => DropAt(w, i, Cleared)
    case Releases(i) =>
      if At(w, i, Out) && w.processes[i].lease.Some?
      then Put(w, i, w.processes[i].(at := Releasing, lease := None, pending := w.processes[i].lease.value)) else w
    case AbandonsLease(i, answered) => Abandon(w, i, Releasing, Released, answered)
    case DropsReleased(i) => DropAt(w, i, Released)
    case GivesUp(i) => if i in w.processes && !w.processes[i].at.Out? && !w.processes[i].at.Working? then Leave(w, i, w.processes[i]) else w
  }

  function Run(w: World, es: seq<Event>): World
    decreases |es|
  {
    if es == [] then w else Run(Step(w, es[0]), es[1..])
  }

  lemma {:induction false} RunAppend(w: World, es: seq<Event>, fs: seq<Event>)
    ensures Run(w, es + fs) == Run(Run(w, es), fs)
    decreases |es|
  {
    if es == [] {
      assert es + fs == fs;
    } else {
      assert (es + fs)[0] == es[0] && (es + fs)[1..] == es[1..] + fs;
      RunAppend(Step(w, es[0]), es[1..], fs);
    }
  }
}
