/** A gap-free, immutable history; permanent overrides; and a manager that never gets lost. */
module ConfigSafety {
  import opened Basics
  import opened Registry
  import opened ConfigWorld

  /** What the history says: each revision up to the current one exists, and the last one is the current configuration. */
  ghost predicate GapFree(w: World) {
    if w.current.None? then w.versions == map[]
    else
      var c := w.current.value.config;
      && (forall n :: n in w.versions <==> 0 <= n <= c.revision)
      && 0 <= c.revision && Normalized(w.versions[c.revision].config) == Normalized(c)
      && (forall n | n in w.versions :: w.versions[n].config.revision == n)
  }

  /** A read that is still current by its revision saw the same content. */
  ghost predicate SyncsOk(w: World) {
    forall k | k in w.syncs && w.syncs[k].Some? ::
      && w.current.Some? && w.syncs[k].value.config.revision <= w.current.value.config.revision
      && (w.syncs[k].value.config.revision == w.current.value.config.revision
          ==> Normalized(w.syncs[k].value.config) == Normalized(w.current.value.config))
  }

  ghost predicate GrantsOk(w: World) {
    forall s | s in w.grants :: w.grants[s].revision >= 1
  }

  ghost predicate CurrentOk(w: World) {
    w.current.Some? ==> Valid(w.current.value.config) && w.current.value.config.environment == w.environment
  }

  ghost predicate Inv(w: World) {
    GapFree(w) && SyncsOk(w) && GrantsOk(w) && CurrentOk(w)
  }

  predicate SeedsZero(e: Event) {
    e.Seeds? ==> e.c.revision == 0
  }

  lemma SyncKeeps(w: World, k: nat, c: Config, f: Fence)
    requires Inv(w)
    ensures Inv(Sync(w, k, c, f))
  {
    var v := Sync(w, k, c, f);
    if v != w {
      var plan := PlanSync(w.syncs[k], c, f);
      if w.syncs[k].Some? {
        assert w.syncs[k].value.config.revision == w.current.value.config.revision;
      }
    }
  }

  lemma StepKeeps(w: World, e: Event)
    requires Inv(w) && SeedsZero(e)
    ensures Inv(Step(w, e))
  {
    match e
    case Syncs(k, c, f) => SyncKeeps(w, k, c, f);
    case _ =>
  }

  lemma {:induction false} RunKeeps(w: World, es: seq<Event>)
    requires Inv(w) && forall e | e in es :: SeedsZero(e)
    ensures Inv(Run(w, es))
    decreases |es|
  {
    hide Inv, Step;
    if es != [] {
      StepKeeps(w, es[0]);
      RunKeeps(Step(w, es[0]), es[1..]);
    }
  }

  /** After any interleaving, versions 0 to the current revision each exist, and the current configuration is its version, normalized. */
  lemma HistoryIsGapFree(environment: string, es: seq<Event>)
    requires forall e | e in es :: SeedsZero(e)
    ensures GapFree(Run(New(environment), es))
  {
    RunKeeps(New(environment), es);
  }

  /** Once there is a configuration, every read succeeds, with the content of the newest version. */
  lemma ReadsSucceed(environment: string, es: seq<Event>)
    requires (forall e | e in es :: SeedsZero(e)) && Run(New(environment), es).current.Some?
    ensures var w := Run(New(environment), es);
            Get(w).Some? && Get(w).value.revision in w.versions && Get(w).value == Normalized(w.versions[Get(w).value.revision].config)
  {
    RunKeeps(New(environment), es);
  }

  /** The seed that a run commits, if it commits one. */
  function CommittedSeed(w: World, es: seq<Event>): Option<Config>
    decreases |es|
  {
    if es == [] then None
    else if es[0].Seeds? && Seed(w, es[0].c) != w then Some(es[0].c)
    else CommittedSeed(Step(w, es[0]), es[1..])
  }

  /** After a seed at a later revision `r`, version `r` never comes into being. */
  ghost predicate Gap(w: World, r: int) {
    && r >= 1 && w.current.Some? && r <= w.current.value.config.revision && r !in w.versions
    && forall k | k in w.syncs && w.syncs[k].Some? :: r <= w.syncs[k].value.config.revision
  }

  lemma GapStaysStep(w: World, e: Event, r: int)
    requires Gap(w, r)
    ensures Gap(Step(w, e), r)
  {
  }

  lemma {:induction false} GapStays(w: World, es: seq<Event>, r: int)
    requires Gap(w, r)
    ensures Gap(Run(w, es), r)
    decreases |es|
  {
    hide Step, Gap;
    if es != [] {
      GapStaysStep(w, es[0], r);
      GapStays(Step(w, es[0]), es[1..], r);
    }
  }

  /** Before any configuration exists, nothing has read one. */
  ghost predicate Unset(w: World) {
    w.current.None? && w.versions == map[] && forall k | k in w.syncs :: w.syncs[k].None?
  }

  lemma SeedCommits(w: World, e: Event)
    requires Unset(w) && Inv(w)
    ensures e.Seeds? && Seed(w, e.c) != w && e.c.revision != 0 ==> Gap(Step(w, e), e.c.revision)
    ensures !(e.Seeds? && Seed(w, e.c) != w && e.c.revision != 0) ==> Inv(Step(w, e))
    ensures !(e.Seeds? && Seed(w, e.c) != w) && Step(w, e).current.None? ==> Unset(Step(w, e))
  {
  }

  lemma SetStays(w: World, e: Event)
    requires Inv(w) && w.current.Some?
    ensures Inv(Step(w, e)) && Step(w, e).current.Some? && (e.Seeds? ==> Seed(w, e.c) == w)
  {
    if e.Syncs? {
      SyncKeeps(w, e.k, e.c, e.f);
    } else if !e.Seeds? {
      StepKeeps(w, e);
    }
  }

  lemma {:induction false} NoSeedLater(w: World, es: seq<Event>)
    requires Inv(w) && w.current.Some?
    ensures Inv(Run(w, es)) && CommittedSeed(w, es).None?
    decreases |es|
  {
    hide Inv, Step, Seed;
    if es != [] {
      SetStays(w, es[0]);
      NoSeedLater(Step(w, es[0]), es[1..]);
    }
  }

  lemma {:induction false} SeedDecides(w: World, es: seq<Event>)
    requires Unset(w) && Inv(w)
    ensures var seed := CommittedSeed(w, es);
            if seed.Some? && seed.value.revision != 0 then Gap(Run(w, es), seed.value.revision) else Inv(Run(w, es))
    decreases |es|
  {
    hide Inv, Step, Seed, Gap, Unset;
    if es != [] {
      var e, v := es[0], Step(w, es[0]);
      SeedCommits(w, e);
      if e.Seeds? && Seed(w, e.c) != w {
        SeedSets(w, e.c);
        if e.c.revision != 0 {
          GapStays(v, es[1..], e.c.revision);
        } else {
          NoSeedLater(v, es[1..]);
        }
      } else if v.current.None? {
        SeedDecides(v, es[1..]);
      } else {
        NoSeedLater(v, es[1..]);
      }
    }
  }

  lemma SeedSets(w: World, c: Config)
    requires Seed(w, c) != w
    ensures Step(w, Seeds(c)).current.Some?
  {
  }

  /** A run's history is gap-free exactly when the seed it committed, if any, has revision 0; the store does not insist on that. */
  lemma SeedIsGapFreeIff(environment: string, es: seq<Event>)
    ensures var seed := CommittedSeed(New(environment), es);
            GapFree(Run(New(environment), es)) <==> seed.None? || seed.value.revision == 0
  {
    SeedDecides(New(environment), es);
  }

  // ---- Immutable history ----

  lemma VersionsStayStep(w: World, e: Event, n: int)
    requires n in w.versions
    ensures n in Step(w, e).versions && Step(w, e).versions[n] == w.versions[n]
  {
  }

  /** No step ever changes a version. */
  lemma {:induction false} VersionsNeverChange(w: World, es: seq<Event>, n: int)
    requires n in w.versions
    ensures n in Run(w, es).versions && Run(w, es).versions[n] == w.versions[n]
    decreases |es|
  {
    hide Step;
    if es != [] {
      VersionsStayStep(w, es[0], n);
      VersionsNeverChange(Step(w, es[0]), es[1..], n);
    }
  }

  /** Whenever the environment shows the same revision again, it shows the same content. */
  lemma EqualRevisionsEqualContent(environment: string, es: seq<Event>, fs: seq<Event>)
    requires forall e | e in es + fs :: SeedsZero(e)
    requires var w, v := Run(New(environment), es), Run(New(environment), es + fs);
             w.current.Some? && v.current.Some? && w.current.value.config.revision == v.current.value.config.revision
    ensures var w, v := Run(New(environment), es), Run(New(environment), es + fs);
            Normalized(w.current.value.config) == Normalized(v.current.value.config)
  {
    forall e | e in es ensures SeedsZero(e) {
      assert e in es + fs;
    }
    HistoryIsGapFree(environment, es);
    HistoryIsGapFree(environment, es + fs);
    RunAppend(New(environment), es, fs);
    VersionsNeverChange(Run(New(environment), es), fs, Run(New(environment), es).current.value.config.revision);
  }

  // ---- Overrides and generations ----

  predicate Overridden(w: World) {
    w.current.Some? && w.current.value.override
  }

  /** A published override is permanent, and only publications change it. */
  lemma {:induction false} OverrideSticks(w: World, es: seq<Event>)
    requires Overridden(w)
    ensures Overridden(Run(w, es))
    ensures (forall e | e in es :: !e.Publishes?) ==> Run(w, es).current == w.current
    decreases |es|
  {
    if es != [] {
      var v := Step(w, es[0]);
      assert Overridden(v) && (!es[0].Publishes? ==> v.current == w.current);
      OverrideSticks(v, es[1..]);
    }
  }

  /** A default synchronization commits only for the deployment that holds the registry's lock, above every generation before it. */
  lemma DefaultsAreFenced(w: World, k: nat, c: Config, f: Fence)
    requires Sync(w, k, c, f) != w
    ensures Holds(w.registry, Receipt(f.token, f.revision)) && !Overridden(w)
    ensures Sync(w, k, c, f).current.value.generation == Some(f.revision)
    ensures w.current.Some? && w.current.value.generation.Some? ==> w.current.value.generation.value < f.revision
  {
  }

  /** A deployment that sends its defaults again, because the answer was lost, finds them there and writes nothing. */
  lemma RetriedDefaultsAreSkipped(w: World, k: nat, c: Config, f: Fence)
    requires Sync(w, k, c, f) != w
    ensures var v := Step(Sync(w, k, c, f), ReadsForSync(k)); PlanSync(v.syncs[k], c, f) == Skip && Sync(v, k, c, f) == v
  {
  }

  predicate GenerationsRise(w: World, v: World) {
    w.current.Some? && w.current.value.generation.Some? && !Overridden(v)
    ==> v.current.Some? && v.current.value.generation.Some? && w.current.value.generation.value <= v.current.value.generation.value
  }

  /** Until an override, default generations never fall. */
  lemma {:induction false} GenerationsNeverFall(w: World, es: seq<Event>)
    ensures GenerationsRise(w, Run(w, es))
    decreases |es|
  {
    if es != [] {
      var v := Step(w, es[0]);
      GenerationsNeverFall(v, es[1..]);
      if Overridden(v) {
        OverrideSticks(v, es[1..]);
      }
    }
  }

  /** The generations of the default synchronizations that commit in a run, in order. */
  function Generations(w: World, es: seq<Event>): seq<int>
    decreases |es|
  {
    if es == [] then []
    else (if es[0].Syncs? && Step(w, es[0]) != w then [es[0].f.revision] else []) + Generations(Step(w, es[0]), es[1..])
  }

  lemma {:induction false} GenerationsAbove(w: World, es: seq<Event>)
    ensures Overridden(w) ==> Generations(w, es) == []
    ensures w.current.Some? && w.current.value.generation.Some? ==> forall g | g in Generations(w, es) :: w.current.value.generation.value < g
    decreases |es|
  {
    if es != [] {
      var v := Step(w, es[0]);
      if es[0].Syncs? && v != w {
        DefaultsAreFenced(w, es[0].k, es[0].c, es[0].f);
      }
      GenerationsAbove(v, es[1..]);
    }
  }

  lemma Prepended(g: int, gs: seq<int>)
    requires (forall m, n | 0 <= m < n < |gs| :: gs[m] < gs[n]) && forall h | h in gs :: g < h
    ensures forall m, n | 0 <= m < n < |[g] + gs| :: ([g] + gs)[m] < ([g] + gs)[n]
  {
    forall m, n | 0 <= m < n < |[g] + gs| ensures ([g] + gs)[m] < ([g] + gs)[n] {
      assert ([g] + gs)[n] == gs[n - 1] && gs[n - 1] in gs;
    }
  }

  /** In every run each committed default synchronization has a generation above every earlier one, and none commits after an override. */
  lemma {:induction false} CommittedGenerationsRise(w: World, es: seq<Event>)
    ensures var gs := Generations(w, es); forall m, n | 0 <= m < n < |gs| :: gs[m] < gs[n]
    ensures Overridden(w) ==> Generations(w, es) == []
    decreases |es|
  {
    GenerationsAbove(w, es);
    if es != [] {
      var v := Step(w, es[0]);
      CommittedGenerationsRise(v, es[1..]);
      GenerationsAbove(v, es[1..]);
      if es[0].Syncs? && v != w {
        DefaultsAreFenced(w, es[0].k, es[0].c, es[0].f);
        Prepended(es[0].f.revision, Generations(v, es[1..]));
      } else {
        assert Generations(w, es) == Generations(v, es[1..]);
      }
    }
  }

  lemma {:induction false} RegistryRises(w: World, es: seq<Event>)
    ensures w.registry.revision <= Run(w, es).registry.revision
    decreases |es|
  {
    if es != [] {
      RegistryRises(Step(w, es[0]), es[1..]);
    }
  }

  /** Once another deployment has acquired the lock, the earlier one's defaults never commit. */
  lemma SupersededDefaultsNeverCommit(w: World, es: seq<Event>, k: nat, c: Config, f: Fence)
    requires f.revision < w.registry.revision
    ensures Sync(Run(w, es), k, c, f) == Run(w, es)
  {
    RegistryRises(w, es);
  }

  // ---- Grants ----

  predicate Manager(w: World, subject: string) {
    subject in w.grants && w.grants[subject].active && w.grants[subject].manage
  }

  ghost predicate HasManager(w: World) {
    exists s :: Manager(w, s)
  }

  lemma ManagerStaysStep(w: World, e: Event)
    requires HasManager(w)
    ensures HasManager(Step(w, e))
  {
    var s :| Manager(w, s);
    var v := Step(w, e);
    if e.SetsGrant? && v != w {
      assert Manager(v, e.actor.subject);
    } else {
      assert Manager(v, s);
    }
  }

  /** Once there is an active manager, no sequence or race of grant changes removes the last one. */
  lemma {:induction false} LastManagerStays(w: World, es: seq<Event>)
    requires HasManager(w)
    ensures HasManager(Run(w, es))
    decreases |es|
  {
    if es != [] {
      ManagerStaysStep(w, es[0]);
      LastManagerStays(Step(w, es[0]), es[1..]);
    }
  }

  /** Two managers revoke each other on what they both read: whichever comes first wins, the other is refused. */
  lemma MutualRevocation(w: World, a: Grant, b: Grant)
    requires a.subject != b.subject && a.active && b.active
    requires SetGrantCommits(w, a, b.(active := false)) && SetGrantCommits(w, b, a.(active := false))
    ensures var v := SetGrant(w, a, b.(active := false));
            SetGrant(v, b, a.(active := false)) == v && Manager(v, a.subject) && !Manager(v, b.subject)
  {
  }

  /** The bootstrap never restores a grant once the environment was set up. */
  lemma {:induction false} BootstrapHappensOnce(w: World, es: seq<Event>, subject: string)
    requires w.bootstrapped
    ensures Bootstrap(Run(w, es), subject) == Run(w, es)
    decreases |es|
  {
    if es != [] {
      BootstrapHappensOnce(Step(w, es[0]), es[1..], subject);
    }
  }

  /** A publication commits only while its author's grant stands, on the revision its author had seen, and raises it by one. */
  lemma PublicationsAreGranted(w: World, g: Grant, expected: int, c: Config, source: Option<int>, at: string)
    requires ConfigWorld.Publish(w, g, expected, c, source, at) != w
    ensures g.subject in w.grants && w.grants[g.subject].active && w.grants[g.subject].revision == g.revision
    ensures w.current.Some? && w.current.value.config.revision == expected
    ensures var v := ConfigWorld.Publish(w, g, expected, c, source, at);
            Overridden(v) && v.current.value.config.revision == expected + 1 && Valid(v.current.value.config)
            && Effective(v.current.value.config) == Effective(c)
  {
  }
}
