/**
 The deployment client as it executes (tools/deploy/internal/workflow/index_client.go), one file or
 registry access at a time while other processes and checkouts go on. A crash is a history that stops.
 */
module IndexClient {
  import opened Basics
  import opened Registry
  import opened IndexWorld
  import opened IndexSafety

  function ActorOf(e: Event): Option<nat> {
    match e
    case Starts(_) => None
    case Unlocks(_) => None
    case _ => Some(e.i)
  }

  /** What the others leave alone: the process itself, its .lock file and its place in the history of tokens. */
  predicate Apart(w: World, v: World, i: nat) {
    && i in w.processes && i in v.processes && v.processes[i] == w.processes[i] && w.started <= v.started
    && (w.processes[i].home in w.locks && w.locks[w.processes[i].home] == i
        ==> w.processes[i].home in v.locks && v.locks[w.processes[i].home] == i)
  }

  lemma LocksApart(w: World, j: nat, i: nat, goal: Goal, token: string, setup: bool)
    requires i in w.processes && j != i && i < w.started
    ensures Apart(w, Enter(w, j, goal), i) && Apart(w, Look(w, j), i) && Apart(w, LockForSetup(w, j), i) && Apart(w, Draw(w, j, token, setup), i)
  {
  }

  lemma CallsApart(w: World, j: nat, i: nat, at: string, from: Point, to: Point, answered: bool)
    requires i in w.processes && j != i && i < w.started
    ensures Apart(w, IndexWorld.Begin(w, j, answered), i) && Apart(w, IndexWorld.Publish(w, j, at, answered), i)
    ensures Apart(w, IndexWorld.Abandon(w, j, from, to, answered), i)
  {
  }

  lemma SavesApart(w: World, j: nat, i: nat, config: string, ok: bool, saved: bool)
    requires i in w.processes && j != i && i < w.started
    ensures Apart(w, SaveReceipt(w, j, saved), i) && Apart(w, EndWork(w, j, ok, saved), i) && Apart(w, Prepare(w, j, config, ok), i) && Apart(w, Sync(w, j, ok, saved), i)
  {
  }

  lemma DropsApart(w: World, j: nat, i: nat, from: Point)
    requires i in w.processes && j != i && i < w.started
    ensures Apart(w, DropPublished(w, j), i) && Apart(w, DropAt(w, j, from), i)
  {
  }

  lemma RestApart(w: World, e: Event, i: nat)
    requires i in w.processes && i < w.started && ActorOf(e) != Some(i)
    requires e.Starts? || e.Dies? || e.Unlocks? || e.FindsNone? || e.Releases? || e.GivesUp?
    ensures Apart(w, Step(w, e), i)
  {
  }

  lemma EntriesApart(w: World, e: Event, i: nat)
    requires i in w.processes && i < w.started && ActorOf(e) != Some(i)
    requires e.Enters? || e.RetriesFirst? || e.Looks? || e.LocksForSetup? || e.Draws? || e.DrawsForSetup?
    ensures Apart(w, Step(w, e), i)
  {
    hide Enter, Look, LockForSetup, Draw;
    match e
    case Enters(j, work) => LocksApart(w, j, i, if work then Deploying else Nothing, "", true);
    case RetriesFirst(j) => LocksApart(w, j, i, SettingUp, "", true);
    case Looks(j) => LocksApart(w, j, i, Nothing, "", true);
    case LocksForSetup(j) => LocksApart(w, j, i, Nothing, "", true);
    case Draws(j, token) => LocksApart(w, j, i, Nothing, token, false);
    case DrawsForSetup(j, token) => LocksApart(w, j, i, Nothing, token, true);
  }

  lemma RequestsApart(w: World, e: Event, i: nat)
    requires i in w.processes && i < w.started && ActorOf(e) != Some(i)
    requires e.Begins? || e.Publishes? || e.Abandons? || e.AbandonsLease?
    ensures Apart(w, Step(w, e), i)
  {
    hide IndexWorld.Begin, IndexWorld.Publish, IndexWorld.Abandon;
    match e
    case Begins(j, answered) => CallsApart(w, j, i, "", Failing, Cleared, answered);
    case Publishes(j, at, answered) => CallsApart(w, j, i, at, Failing, Cleared, answered);
    case Abandons(j, answered) => CallsApart(w, j, i, "", Failing, Cleared, answered);
    case AbandonsLease(j, answered) => CallsApart(w, j, i, "", Releasing, Released, answered);
  }

  lemma WritesApart(w: World, e: Event, i: nat)
    requires i in w.processes && i < w.started && ActorOf(e) != Some(i)
    requires e.SavesReceipt? || e.EndsWork? || e.Prepares? || e.Syncs?
    ensures Apart(w, Step(w, e), i)
  {
    hide SaveReceipt, EndWork, Prepare, Sync;
    match e
    case SavesReceipt(j, saved) => SavesApart(w, j, i, "", true, saved);
    case EndsWork(j, ok, saved) => SavesApart(w, j, i, "", ok, saved);
    case Prepares(j, config, defaults) => SavesApart(w, j, i, config, defaults, true);
    case Syncs(j, accepted, answered) => SavesApart(w, j, i, "", accepted, answered);
  }

  lemma RemovalsApart(w: World, e: Event, i: nat)
    requires i in w.processes && i < w.started && ActorOf(e) != Some(i)
    requires e.DropsPublished? || e.DropsRefused? || e.DropsCleared? || e.DropsReleased?
    ensures Apart(w, Step(w, e), i)
  {
    hide DropPublished, DropAt;
    match e
    case DropsPublished(j) => DropsApart(w, j, i, Refused);
    case DropsRefused(j) => DropsApart(w, j, i, Refused);
    case DropsCleared(j) => DropsApart(w, j, i, Cleared);
    case DropsReleased(j) => DropsApart(w, j, i, Released);
  }

  lemma OthersLeaveAlone(w: World, e: Event, i: nat)
    requires i in w.processes && i < w.started && ActorOf(e) != Some(i)
    ensures Apart(w, Step(w, e), i)
  {
    hide Step, Apart;
    if e.Starts? || e.Dies? || e.Unlocks? || e.FindsNone? || e.Releases? || e.GivesUp? {
      RestApart(w, e, i);
    } else if e.Begins? || e.Publishes? || e.Abandons? || e.AbandonsLease? {
      RequestsApart(w, e, i);
    } else if e.Enters? || e.RetriesFirst? || e.Looks? || e.LocksForSetup? || e.Draws? || e.DrawsForSetup? {
      EntriesApart(w, e, i);
    } else if e.SavesReceipt? || e.EndsWork? || e.Prepares? || e.Syncs? {
      WritesApart(w, e, i);
    } else {
      RemovalsApart(w, e, i);
    }
  }

  lemma {:induction false} OthersRun(w: World, es: seq<Event>, i: nat)
    requires i in w.processes && i < w.started && forall e | e in es :: ActorOf(e) != Some(i)
    ensures Apart(w, Run(w, es), i)
    decreases |es|
  {
    hide Step, ActorOf;
    if es != [] {
      OthersLeaveAlone(w, es[0], i);
      OthersRun(Step(w, es[0]), es[1..], i);
    }
  }

  ghost predicate Follows(history: seq<Event>, w: World) {
    w == Run(EMPTY, history)
  }

  /** The others do not act in this process's name. */
  ghost predicate Fair(others: nat -> seq<Event>, i: nat) {
    forall n, e | e in others(n) :: ActorOf(e) != Some(i)
  }

  lemma FollowsOn(history: seq<Event>, w: World, es: seq<Event>)
    requires Follows(history, w)
    ensures Follows(history + es, Run(w, es))
  {
    RunAppend(EMPTY, history, es);
  }

  lemma FollowsStep(history: seq<Event>, w: World, e: Event)
    requires Follows(history, w)
    ensures Follows(history + [e], Step(w, e))
  {
    FollowsOn(history, w, [e]);
    assert Run(w, [e]) == Run(Step(w, e), [e][1..]);
  }

  lemma OthersTurn(others: nat -> seq<Event>, turn: nat, w: World, i: nat)
    requires Fair(others, i) && i in w.processes && i < w.started
    ensures Apart(w, Run(w, others(turn)), i)
  {
    OthersRun(w, others(turn), i);
  }

  datatype Outcome = Synchronized | NothingPending | Busy | Interrupted | Superseded | Retained | WorkFailed

  lemma StepAbandons(w: World, i: nat, lease: bool, answered: bool)
    ensures Step(w, if lease then AbandonsLease(i, answered) else Abandons(i, answered))
         == IndexWorld.Abandon(w, i, if lease then Releasing else Failing, if lease then Released else Cleared, answered)
  {
  }

  class Deployer {
    var server: Record
    var files: map<nat, Pending>
    var locks: map<nat, nat>
    var processes: map<nat, Client>
    var drawn: map<string, nat>
    var started: nat
    var turn: nat
    const me: nat
    const home: nat
    /** What the others do at each turn, and whether a call or a file access goes through, is answered, and (defaults) accepted. */
    const others: nat -> seq<Event>
    const works: nat -> bool
    const answers: nat -> bool
    const accepts: nat -> bool
    ghost var history: seq<Event>

    function Whole(): World
      reads this
    {
      World(server, files, locks, processes, drawn, started)
    }

    ghost predicate Valid()
      reads this
    {
      Follows(history, Whole()) && Fair(others, me) && me in processes && processes[me].home == home && me < started
    }

    ghost predicate Stands(p: Point)
      reads this
    {
      Valid() && processes[me].at == p && (HasLock(p) ==> home in locks && locks[home] == me)
    }

    /** The event happened at `since` or later. */
    ghost predicate Did(since: nat, e: Event)
      reads this
    {
      e in history[if since <= |history| then since else |history|..]
    }

    lemma StillDid(before: seq<Event>, since: nat, e: Event)
      requires since <= |before| && before <= history && e in before[since..]
      ensures Did(since, e)
    {
      var n :| since <= n < |before| && before[n] == e;
      assert history[since..][n - since] == e;
    }

    lemma DidEarlier(earlier: nat, since: nat, e: Event)
      requires earlier <= since <= |history| && Did(since, e)
      ensures Did(earlier, e)
    {
      var n :| since <= n < |history| && history[n] == e;
      assert history[earlier..][n - earlier] == e;
    }

    predicate HasLock(p: Point) {
      !p.Out? && !p.Missing? && !p.Releasing? && !p.Released?
    }

    ghost method Note(before: World, e: Event)
      requires Follows(history, before) && Whole() == Step(before, e) && Fair(others, me) && me in processes && processes[me].home == home && me < started
      modifies this`history
      ensures Valid() && history == old(history) + [e]
    {
      FollowsStep(history, before, e);
      history := history + [e];
    }

    method Become(w: World)
      modifies this
      ensures Whole() == w && turn == old(turn) && history == old(history)
    {
      server, files, locks, processes, drawn, started := w.server, w.files, w.locks, w.processes, w.drawn, w.started;
    }

    /** Whatever the others do next. */
    method Others()
      requires Valid()
      modifies this
      ensures Valid() && old(history) <= history && Apart(old(Whole()), Whole(), me)
    {
      hide Follows, Run, Fair;
      var es := others(turn);
      OthersTurn(others, turn, Whole(), me);
      FollowsOn(history, Whole(), es);
      Become(Run(Whole(), es));
      history := history + es;
      turn := turn + 1;
    }

    /** Goes to another point of the protocol. */
    method Go(p: Client)
      requires me in processes
      modifies this`processes
      ensures processes == old(processes)[me := p]
    {
      processes := processes[me := p];
    }

    /** Leaves the protocol; the .lock file goes with it. */
    method Quit(p: Client)
      requires me in processes && p.home == home
      modifies this`processes, this`locks
      ensures Whole() == Leave(old(Whole()), me, p)
    {
      processes := processes[me := p.(at := Out)];
      if home in locks && locks[home] == me {
        locks := locks - {home};
      }
    }

    /** Takes an answer in: a favourable one leads on to `to`, any other one out of the protocol. */
    method Conclude(p: Client, done: bool, to: Point, answered: bool)
      requires me in processes && p.home == home
      modifies this`processes, this`locks
      ensures Whole() == if !answered then old(Whole()) else if done then Put(old(Whole()), me, p.(at := to)) else Leave(old(Whole()), me, p)
    {
      if answered {
        if done {
          Go(p.(at := to));
        } else {
          Quit(p);
        }
      }
    }

    method GiveUp()
      requires Valid() && !processes[me].at.Out? && !processes[me].at.Working?
      modifies this
      ensures Stands(Out) && old(history) <= history && processes[me].lease == old(processes[me].lease)
    {
      hide Follows, Fair, Run;
      ghost var before := Whole();
      Quit(processes[me]);
      Note(before, GivesUp(me));
    }

    // ---- Calls to the registry: up to three attempts each ----

    /** `None`: no answer arrived. An unanswered attempt may have been processed. */
    method Acquire() returns (granted: Option<bool>)
      requires Valid() && processes[me].at.Saved?
      modifies this
      ensures Valid() && old(history) <= history && processes[me].lease == old(processes[me].lease)
      ensures granted == Some(true) ==> processes[me].at == Begun(old(processes[me].at.setup))
      ensures granted == Some(false) ==> processes[me].at == Refused
      ensures granted == None ==> processes[me] == old(processes[me])
    {
      hide Follows, Fair, Run, Process, Holds;
      var attempt := 0;
      while attempt < 3
        invariant Valid() && old(history) <= history && processes[me] == old(processes[me])
      {
        Others();
        if works(turn) {
          ghost var before := Whole();
          var p := processes[me];
          var processed := Process(server, Registry.Begin(p.pending.token));
          server := processed.0;
          var answered := answers(turn);
          if answered {
            Go(if processed.1.Granted? then p.(at := Begun(p.at.setup), pending := p.pending.(revision := processed.1.receipt.revision))
               else p.(at := Refused));
          }
          Note(before, Begins(me, answered));
          if answered {
            return Some(processed.1.Granted?);
          }
        }
        attempt := attempt + 1;
      }
      granted := None;
    }

    method Announce(at: string) returns (done: Option<bool>)
      requires Valid() && MayPublish(processes[me])
      modifies this
      ensures Valid() && old(history) <= history && processes[me].lease == old(processes[me].lease)
      ensures done == Some(true) ==> processes[me].at == Published(old(processes[me].at.goal)) && Did(|old(history)|, Publishes(me, at, true))
      ensures done == Some(false) ==> Stands(Out)
      ensures done == None ==> processes[me] == old(processes[me])
    {
      hide Follows, Fair, Run, Process, Holds;
      var attempt := 0;
      while attempt < 3
        invariant Valid() && old(history) <= history && processes[me] == old(processes[me])
      {
        Others();
        if works(turn) {
          ghost var before := Whole();
          var p := processes[me];
          var processed := Process(server, Registry.Publish(ReceiptOf(p.pending), p.pending.config.value, at));
          server := processed.0;
          var answered := answers(turn);
          Conclude(p, processed.1.Done?, Published(p.at.goal), answered);
          Note(before, Publishes(me, at, answered));
          assert history[|old(history)|..][|history| - 1 - |old(history)|] == Publishes(me, at, answered);
          if answered {
            return Some(processed.1.Done?);
          }
        }
        attempt := attempt + 1;
      }
      done := None;
    }

    /** Synchronizes the runtime defaults; whether they are accepted is the runtime configuration's answer. */
    method SyncDefaults() returns (done: Option<bool>)
      requires Valid() && processes[me].at.Publishing? && processes[me].pending.config.Some? && processes[me].pending.defaults
      modifies this
      ensures Valid() && old(history) <= history && processes[me].lease == old(processes[me].lease)
      ensures done == Some(true) ==> processes[me] == old(processes[me]).(at := Announcing(old(processes[me].at.goal)))
                                     && Did(|old(history)|, Syncs(me, true, true))
      ensures done == Some(false) ==> Stands(Out)
      ensures done == None ==> processes[me] == old(processes[me])
    {
      hide Follows, Fair, Run;
      var attempt := 0;
      while attempt < 3
        invariant Valid() && old(history) <= history && processes[me] == old(processes[me])
      {
        Others();
        if works(turn) && answers(turn) {
          var accepted := accepts(turn);
          ghost var before := Whole();
          var p := processes[me];
          if accepted {
            Go(p.(at := Announcing(p.at.goal)));
          } else {
            Quit(p);
          }
          Note(before, Syncs(me, accepted, true));
          assert history[|old(history)|..][|history| - 1 - |old(history)|] == Syncs(me, accepted, true);
          return Some(accepted);
        }
        attempt := attempt + 1;
      }
      done := None;
    }

    method Free(lease: bool) returns (done: Option<bool>)
      requires Valid() && processes[me].at == if lease then Releasing else Failing
      modifies this
      ensures Valid() && old(history) <= history && processes[me].lease == old(processes[me].lease)
      ensures done == Some(true) ==> processes[me].at == if lease then Released else Cleared
      ensures done == Some(false) ==> Stands(Out)
      ensures done == None ==> processes[me] == old(processes[me])
    {
      hide Follows, Fair, Run;
      var attempt := 0;
      done := None;
      while attempt < 3 && done.None?
        invariant Valid() && old(history) <= history && processes[me].lease == old(processes[me].lease)
        invariant done == Some(true) ==> processes[me].at == if lease then Released else Cleared
        invariant done == Some(false) ==> Stands(Out)
        invariant done == None ==> processes[me] == old(processes[me])
      {
        Others();
        if works(turn) {
          done := FreeOnce(lease);
        }
        attempt := attempt + 1;
      }
    }

    method FreeOnce(lease: bool) returns (done: Option<bool>)
      requires Valid() && processes[me].at == if lease then Releasing else Failing
      modifies this
      ensures Valid() && old(history) <= history && processes[me].lease == old(processes[me].lease)
      ensures done == Some(true) ==> processes[me].at == if lease then Released else Cleared
      ensures done == Some(false) ==> Stands(Out)
      ensures done == None ==> processes[me] == old(processes[me])
    {
      hide Follows, Fair, Run, Process, Holds, Step;
      ghost var before := Whole();
      var p := processes[me];
      var processed := Process(server, Registry.Abandon(ReceiptOf(p.pending)));
      server := processed.0;
      var answered := answers(turn);
      Conclude(p, processed.1.Done?, if lease then Released else Cleared, answered);
      StepAbandons(before, me, lease, answered);
      Note(before, if lease then AbandonsLease(me, answered) else Abandons(me, answered));
      return if answered then Some(processed.1.Done?) else None;
    }

    // ---- performIndexWork ----

    /** Removes the saved receipt and leaves. */
    method DropAndLeave()
      requires Valid() && (processes[me].at.Refused? || processes[me].at.Cleared? || processes[me].at.Released?)
      modifies this
      ensures Stands(Out) && old(history) <= history && home !in files && processes[me].lease == old(processes[me].lease)
    {
      hide Follows, Fair, Run;
      ghost var before := Whole();
      var p := processes[me];
      files := files - {home};
      Quit(p);
      if p.at.Refused? {
        Note(before, DropsRefused(me));
      } else if p.at.Cleared? {
        Note(before, DropsCleared(me));
      } else {
        Note(before, DropsReleased(me));
      }
    }

    method EndTheWork(ok: bool, saved: bool)
      requires Valid() && processes[me].at.Working?
      modifies this
      ensures Valid() && old(history) <= history
      ensures |history| == |old(history)| + 1 && history[|old(history)|] == EndsWork(me, ok, saved)
      ensures !ok ==> processes[me].at.Failing?
      ensures ok && saved ==> processes[me].at == Publishing(Nothing) && processes[me].pending.deployed && processes[me].pending.config.None?
                              == old(processes[me].pending.config.None?)
      ensures ok && !saved ==> processes[me].at.Out?
      ensures processes[me].lease == old(processes[me].lease)
    {
      hide Follows, Fair, Run;
      ghost var before := Whole();
      var p := processes[me];
      if !ok {
        Go(p.(at := Failing));
      } else if saved {
        var pending := p.pending;
        pending := pending.(deployed := true);
        files := files[home := pending];
        Go(p.(at := Publishing(Nothing), pending := pending));
      } else {
        Quit(p);
      }
      Note(before, EndsWork(me, ok, saved));
    }

    /** Runs the work and publishes what it deployed; a failure gives the lock back. */
    method PerformWork(ok: bool, config: string, defaults: bool, at: string) returns (o: Outcome)
      requires Valid() && processes[me].at.Working?
      modifies this
      ensures Valid() && old(history) <= history && processes[me].at.Out?
      ensures o.Synchronized? ==> ok && home !in files
      ensures o.Synchronized? ==> Did(|old(history)|, EndsWork(me, true, true)) && Did(|old(history)|, Publishes(me, at, true))
      ensures !ok ==> o.WorkFailed? && (Did(|old(history)|, EndsWork(me, false, false)) || Did(|old(history)|, EndsWork(me, false, true)))
    {
      hide Follows, Fair, Run, Did;
      Others();
      var saved := works(turn);
      EndTheWork(ok, saved);
      ghost var ended := history;
      if !ok {
        FreeAndDrop();
        NoteEnded(ended, |old(history)|, EndsWork(me, false, saved));
        return WorkFailed;
      }
      if !saved {
        return Retained;
      }
      o := PublishRest(config, defaults, at);
      if o.Synchronized? {
        NoteEnded(ended, |old(history)|, EndsWork(me, true, true));
        DidEarlier(|old(history)|, |ended|, Publishes(me, at, true));
      }
    }

    lemma NoteEnded(ended: seq<Event>, since: nat, e: Event)
      requires since < |ended| && ended[|ended| - 1] == e && ended <= history
      ensures Did(since, e)
    {
      assert ended[since..][|ended| - 1 - since] == e;
      StillDid(ended, since, e);
    }

    method FreeAndDrop()
      requires Valid() && processes[me].at.Failing?
      modifies this
      ensures Valid() && old(history) <= history && processes[me].at.Out?
    {
      hide Follows, Fair, Run;
      var freed := Free(false);
      match freed {
        case Some(done) => if done { Others(); DropAndLeave(); }
        case None => GiveUp();
      }
    }

    /** Saves what to publish, synchronizes the defaults, publishes, and removes the receipt. */
    method PublishRest(config: string, defaults: bool, at: string) returns (o: Outcome)
      requires Valid() && processes[me].at.Publishing?
      modifies this
      ensures Valid() && old(history) <= history && processes[me].lease == old(processes[me].lease)
      ensures o.Synchronized? || o.Retained?
      ensures o.Retained? ==> processes[me].at.Out?
      ensures o.Synchronized? ==> home !in files && processes[me].at == AfterPublishing(old(processes[me].at.goal))
      ensures o.Synchronized? ==> Did(|old(history)|, Publishes(me, at, true))
    {
      hide Follows, Fair, Run, Did;
      var goOn := PrepareAndSync(config, defaults);
      if !goOn {
        return Retained;
      }
      ghost var start := |history|;
      o := AnnounceAndRemove(at);
      if o.Synchronized? {
        DidEarlier(|old(history)|, start, Publishes(me, at, true));
      }
    }

    method PrepareAndSync(config: string, defaults: bool) returns (goOn: bool)
      requires Valid() && processes[me].at.Publishing?
      modifies this
      ensures Valid() && old(history) <= history && processes[me].lease == old(processes[me].lease)
      ensures goOn ==> MayPublish(processes[me]) && processes[me].at.goal == old(processes[me].at.goal)
      ensures !goOn ==> processes[me].at.Out?
    {
      hide Follows, Fair, Run, Did;
      Others();
      if processes[me].pending.config.None? {
        if !works(turn) {
          GiveUp();
          return false;
        }
        SaveConfig(config, defaults);
      }
      if !processes[me].pending.defaults {
        return true;
      }
      var synced := SyncDefaults();
      match synced {
        case Some(accepted) => goOn := accepted;
        case None =>
          GiveUp();
          goOn := false;
      }
    }

    method AnnounceAndRemove(at: string) returns (o: Outcome)
      requires Valid() && MayPublish(processes[me])
      modifies this
      ensures Valid() && old(history) <= history && processes[me].lease == old(processes[me].lease)
      ensures o.Synchronized? || o.Retained?
      ensures o.Retained? ==> processes[me].at.Out?
      ensures o.Synchronized? ==> home !in files && processes[me].at == AfterPublishing(old(processes[me].at.goal))
      ensures o.Synchronized? ==> Did(|old(history)|, Publishes(me, at, true))
    {
      hide Follows, Fair, Run;
      var done := Announce(at);
      match done {
        case Some(ok) =>
          if ok {
            ghost var announced := history;
            Others();
            RemovePublished();
            StillDid(announced, |old(history)|, Publishes(me, at, true));
          }
          o := if ok then Synchronized else Retained;
        case None =>
          GiveUp();
          o := Retained;
      }
    }

    method RemovePublished()
      requires Valid() && processes[me].at.Published?
      modifies this
      ensures Valid() && old(history) <= history && processes[me].lease == old(processes[me].lease)
      ensures home !in files && processes[me].at == AfterPublishing(old(processes[me].at.goal))
    {
      hide Follows, Fair, Run;
      ghost var before := Whole();
      var p := processes[me];
      files := files - {home};
      match p.at.goal {
        case Deploying => Go(p.(at := Drawing));
        case Nothing => Quit(p);
        case SettingUp => Quit(p); Go(p.(at := Missing));
      }
      Note(before, DropsPublished(me));
    }

    function AfterPublishing(goal: Goal): Point {
      match goal
      case Nothing => Out
      case Deploying => Drawing
      case SettingUp => Missing
    }

    method SaveConfig(config: string, defaults: bool)
      requires Valid() && processes[me].at.Publishing? && processes[me].pending.config.None?
      modifies this
      ensures Valid() && old(history) <= history && processes[me].lease == old(processes[me].lease)
      ensures processes[me].at == old(processes[me].at) && processes[me].pending.config == Some(config)
    {
      hide Follows, Fair, Run;
      ghost var before := Whole();
      var pending := processes[me].pending;
      pending := pending.(config := Some(config));
      pending := pending.(defaults := defaults);
      files := files[home := pending];
      Go(processes[me].(pending := pending));
      Note(before, Prepares(me, config, defaults));
    }

    // ---- withIndexClient, acquireSetupIndex, releaseSetupIndex ----

    /** Opens the .lock file. */
    method OpenLock(goal: Goal) returns (free: bool)
      requires Valid() && processes[me].at.Out? && (goal.SettingUp? ==> processes[me].lease.None?)
      modifies this
      ensures Valid() && old(history) <= history && processes[me].lease == old(processes[me].lease)
      ensures free ==> Stands(Locked(goal))
      ensures !free ==> processes[me].at.Out?
    {
      hide Follows, Fair, Run;
      Others();
      free := home !in locks;
      if free {
        ghost var before := Whole();
        locks := locks[home := me];
        Go(processes[me].(at := Locked(goal)));
        if goal.SettingUp? {
          Note(before, RetriesFirst(me));
        } else {
          Note(before, Enters(me, goal.Deploying?));
        }
      }
    }

    /** Reads the saved receipt and decides how to go on. */
    method ReadReceipt()
      requires Valid() && processes[me].at.Locked?
      modifies this
      ensures Valid() && old(history) <= history
      ensures var goal := old(processes[me].at.goal);
              match processes[me].at
              case Drawing => goal.Deploying?
              case Publishing(g) => g == goal
              case Working => goal.Deploying?
              case Out => true
              case _ => false
      ensures !processes[me].at.Working? ==> processes[me].lease == old(processes[me].lease)
    {
      hide Follows, Fair, Run;
      Others();
      ghost var before := Whole();
      var p := processes[me];
      var goal := p.at.goal;
      if home in files {
        var found := files[home];
        if found.deployed {
          Go(p.(at := Publishing(goal), pending := found));
        } else if p.lease.Some? && p.lease.value.token == found.token && p.lease.value.revision == found.revision && goal.Deploying? {
          Go(p.(at := Working, lease := None, pending := found));
        } else {
          Quit(p);
        }
      } else if goal.Deploying? {
        Go(p.(at := Drawing));
      } else {
        Quit(p);
      }
      Note(before, Looks(me));
    }

    /** Draws a token, saves it, and only then asks the registry for the lock. */
    method DrawAndAcquire(setup: bool, token: string) returns (granted: Option<bool>)
      requires Valid() && processes[me].at == if setup then SetupLocked else Drawing
      modifies this
      ensures Valid() && old(history) <= history && processes[me].lease == old(processes[me].lease)
      ensures granted == Some(true) ==> processes[me].at == Begun(setup)
      ensures granted != Some(true) ==> processes[me].at.Out?
    {
      hide Follows, Fair, Run;
      Others();
      if token == "" || token in drawn || server.lock == token || server.lastToken == token {
        GiveUp();  // random tokens do not repeat
        return None;
      }
      SaveToken(setup, token);
      granted := Acquire();
      match granted {
        case Some(ok) => if !ok { Others(); DropAndLeave(); }
        case None => GiveUp();
      }
    }

    method SaveToken(setup: bool, token: string)
      requires Valid() && processes[me].at == if setup then SetupLocked else Drawing
      requires token != "" && token !in drawn && server.lock != token && server.lastToken != token
      modifies this
      ensures Valid() && old(history) <= history && processes[me].lease == old(processes[me].lease)
      ensures processes[me].at == Saved(setup) && home in files && files[home] == processes[me].pending == Pending(token, 0, false, None, false)
    {
      hide Follows, Fair, Run;
      ghost var before := Whole();
      var pending := Pending(token, 0, false, None, false);
      files := files[home := pending];
      Go(processes[me].(at := Saved(setup), pending := pending));
      drawn := drawn[token := me];
      if setup {
        Note(before, DrawsForSetup(me, token));
      } else {
        Note(before, Draws(me, token));
      }
    }

    /** Saves the granted receipt. */
    method SaveGrant() returns (saved: bool)
      requires Valid() && processes[me].at.Begun?
      modifies this
      ensures Valid() && old(history) <= history
      ensures old(processes[me].at.setup) ==> processes[me].at.Out? && processes[me].lease.Some?
      ensures !old(processes[me].at.setup) ==> processes[me].at == if saved then Working else Out
    {
      hide Follows, Fair, Run;
      Others();
      saved := works(turn);
      ghost var before := Whole();
      var p := processes[me];
      if saved {
        files := files[home := p.pending];
      }
      if p.at.setup {
        Quit(p.(lease := Some(p.pending)));
      } else if saved {
        Go(p.(at := Working));
      } else {
        Quit(p);
      }
      Note(before, SavesReceipt(me, saved));
    }

    method WithIndexClient(work: bool, ok: bool, token: string, config: string, defaults: bool, at: string) returns (o: Outcome)
      requires Valid() && processes[me].at.Out?
      modifies this
      ensures Valid() && old(history) <= history && processes[me].at.Out?
      ensures o.Synchronized? ==> home !in files && Did(|old(history)|, Publishes(me, at, true))
      ensures o.Synchronized? && work ==> ok && Did(|old(history)|, EndsWork(me, true, true))
    {
      hide Follows, Fair, Run, Did;
      var free := OpenLock(if work then Deploying else Nothing);
      if !free {
        return Busy;
      }
      ReadReceipt();
      o := Interrupted;
      if processes[me].at.Publishing? {
        ghost var start := |history|;
        o := PublishRest(config, defaults, at);
        if o.Synchronized? {
          DidEarlier(|old(history)|, start, Publishes(me, at, true));
        }
      }
      if processes[me].at.Out? {
        return;
      }
      if processes[me].at.Drawing? {
        var granted := DrawAndAcquire(false, token);
        if granted != Some(true) {
          return if granted.None? then Retained else Superseded;
        }
        var saved := SaveGrant();
        if !saved {
          return Retained;
        }
      }
      ghost var start := |history|;
      o := PerformWork(ok, config, defaults, at);
      if o.Synchronized? {
        DidEarlier(|old(history)|, start, Publishes(me, at, true));
        DidEarlier(|old(history)|, start, EndsWork(me, true, true));
      }
    }

    /** Reserves the environment for setup. The look at the receipt comes before the .lock file. */
    method AcquireSetup(token: string, config: string, defaults: bool, at: string) returns (acquired: bool)
      requires Valid() && processes[me].at.Out?
      modifies this
      ensures Valid() && old(history) <= history && processes[me].at.Out?
      ensures acquired ==> processes[me].lease.Some?
    {
      hide Follows, Fair, Run;
      if processes[me].lease.Some? {
        return true;
      }
      Others();
      if home in files {
        var finished := FinishLeftover(config, defaults, at);
        if !finished {
          return false;
        }
      } else {
        ghost var before := Whole();
        Go(processes[me].(at := Missing));
        Note(before, FindsNone(me));
      }
      var locked := LockForSetup();
      if !locked {
        return false;
      }
      var granted := DrawAndAcquire(true, token);
      if granted != Some(true) {
        return false;
      }
      acquired := SaveGrant();
    }

    /** Publishes what an earlier deployment left over. */
    method FinishLeftover(config: string, defaults: bool, at: string) returns (finished: bool)
      requires Valid() && processes[me].at.Out? && processes[me].lease.None?
      modifies this
      ensures Valid() && old(history) <= history && processes[me].at == if finished then Missing else Out
    {
      hide Follows, Fair, Run;
      var free := OpenLock(SettingUp);
      if !free {
        return false;
      }
      ReadReceipt();
      if processes[me].at.Out? {
        return false;
      }
      var o := PublishRest(config, defaults, at);
      finished := o.Synchronized?;
    }

    method LockForSetup() returns (locked: bool)
      requires Valid() && processes[me].at.Missing?
      modifies this
      ensures Valid() && old(history) <= history && processes[me].at == if locked then SetupLocked else Out
    {
      hide Follows, Fair, Run;
      Others();
      ghost var before := Whole();
      locked := home !in locks;
      if locked {
        locks := locks[home := me];
        Go(processes[me].(at := SetupLocked));
      } else {
        Go(processes[me].(at := Out));
      }
      Note(before, LocksForSetup(me));
    }

    method ReleaseSetup() returns (released: bool)
      requires Valid() && processes[me].at.Out?
      modifies this
      ensures Valid() && old(history) <= history && processes[me].at.Out? && processes[me].lease.None?
      ensures released ==> home !in files
    {
      hide Follows, Fair, Run;
      if processes[me].lease.None? {
        return false;
      }
      ghost var before := Whole();
      var p := processes[me];
      Go(p.(at := Releasing, lease := None, pending := p.lease.value));
      Note(before, Releases(me));
      var freed := Free(true);
      match freed {
        case Some(done) =>
          if done {
            Others();
            DropAndLeave();
          }
          released := done;
        case None =>
          GiveUp();
          released := false;
      }
    }
  }
}
