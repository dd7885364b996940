/**
 The runtime configuration of one environment: the current item, its version history, the grants and
 the registry's record that fences default synchronization (runtimeconfig/model.go, runtimeconfig/store.go).
 Every read and every transaction is one event.
 */
module ConfigWorld {
  import opened Basics
  import opened Registry
  import Onboarding

  datatype Messages = Messages(en: string, es: string, fr: string)

  const NO_MESSAGES := Messages("", "", "")

  datatype Capture = Capture(messages: Messages, documentType: string, jurisdiction: string, purpose: string)

  datatype Config = Config(
    schemaVersion: int,
    environment: string,
    revision: int,
    updatedAt: string,
    onboarding: Option<Onboarding.Policy>,
    idCapture: bool,
    capture: Capture)

  function Effective(c: Config): Onboarding.Policy {
    if c.onboarding.Some? then c.onboarding.value
    else Onboarding.DEFAULT.(idCapture := if c.idCapture then Onboarding.Optional else Onboarding.Disabled)
  }

  function Normalized(c: Config): Config {
    c.(onboarding := Some(Effective(c)))
  }

  /** Valid but for the syntax of names, times and texts. */
  predicate Valid(c: Config) {
    && Effective(c).Valid() && (c.onboarding.Some? ==> (c.idCapture <==> !c.onboarding.value.idCapture.Disabled?))
    && c.schemaVersion == 1 && c.environment != "" && c.revision >= 0 && c.capture.documentType != ""
    && (c.idCapture ==> c.capture.documentType != "sample_card" && c.capture.purpose != "")
    && (c.capture.messages != NO_MESSAGES ==> c.capture.messages.en != "")
  }

  /** Normalizing keeps what the configuration means, is done once, and keeps it valid. */
  lemma NormalizingKeepsMeaning(c: Config)
    ensures Effective(Normalized(c)) == Effective(c) && Normalized(Normalized(c)) == Normalized(c)
    ensures Valid(c) ==> Valid(Normalized(c))
    ensures Normalized(c).idCapture == c.idCapture
  {
  }

  /** `generation` is the deployment whose defaults these are; a published override has none. */
  datatype Item = Item(config: Config, override: bool, generation: Option<int>)

  datatype Version = Version(config: Config, actor: string, action: string, source: Option<int>)

  datatype Grant = Grant(subject: string, environment: string, revision: int, active: bool, manage: bool)

  datatype Fence = Fence(environment: string, token: string, revision: int)

  datatype World = World(
    environment: string,
    current: Option<Item>,
    versions: map<int, Version>,
    grants: map<string, Grant>,
    audits: set<(string, int)>,
    bootstrapped: bool,
    registry: Record,
    syncs: map<nat, Option<Item>>)

  datatype Event =
    | Seeds(c: Config)
    | Publishes(g: Grant, expected: int, c: Config, source: Option<int>, at: string)
    | ReadsForSync(k: nat)
    | Syncs(k: nat, c: Config, f: Fence)
    | SetsGrant(actor: Grant, target: Grant)
    | Bootstraps(subject: string)
    | ChangesRegistry(change: Change)

  function New(environment: string): World {
    World(environment, None, map[], map[], {}, false, NO_RECORD, map[])
  }

  const MAX_REVISION := 0x7fff_ffff_ffff_ffff

  // ---- Seeding and publishing ----

  function Seed(w: World, c: Config): World {
    if Valid(c) && c.environment == w.environment && w.current.None? && 0 !in w.versions
    then w.(current := Some(Item(c, false, None)), versions := w.versions[0 := Version(c, "setup", "defaults", None)])
    else w
  }

  /** What a publication makes of the submitted configuration. */
  function Prepared(c: Config, expected: int, at: string, defaults: Messages): Config {
    var messages := if c.capture.messages == NO_MESSAGES then defaults else c.capture.messages;
    var policy := Effective(c);
    Config(1, c.environment, expected + 1, at, Some(policy), !policy.idCapture.Disabled?, Capture(messages, "id_card", "", messages.en))
  }

  /** Stands for the deployed texts; only that there is an English one matters. */
  const DEFAULT_MESSAGES := Messages("en", "es", "fr")

  predicate GrantStands(w: World, g: Grant, manage: bool) {
    g.subject in w.grants && w.grants[g.subject].revision == g.revision && w.grants[g.subject].active && (manage ==> w.grants[g.subject].manage)
  }

  predicate PublishCommits(w: World, g: Grant, expected: int, c: Config, at: string) {
    && 0 <= expected < MAX_REVISION && g.active && c.environment == g.environment == w.environment
    && Valid(Prepared(c, expected, at, DEFAULT_MESSAGES))
    && GrantStands(w, g, false) && w.current.Some? && w.current.value.config.revision == expected && expected + 1 !in w.versions
  }

  function Publish(w: World, g: Grant, expected: int, c: Config, source: Option<int>, at: string): World {
    if !PublishCommits(w, g, expected, c, at) then w
    else
      var next := Prepared(c, expected, at, DEFAULT_MESSAGES);
      w.(current := Some(Item(next, true, None)),
         versions := w.versions[expected + 1 := Version(next, g.subject, if source.Some? then "rollback" else "publish", source)])
  }

  // ---- Default synchronization ----

  predicate SameContent(a: Config, b: Config) {
    a.idCapture == b.idCapture && a.capture == b.capture && Effective(a) == Effective(b)
  }

  datatype Plan = Refused | Skip | Late | Write(next: Config, changed: bool)

  /** What a synchronization decides on the item it read. */
  function PlanSync(read: Option<Item>, c: Config, f: Fence): Plan {
    if c.environment != f.environment || f.token == "" || f.revision < 1 || !Valid(c) then Refused
    else if read.None? then Write(c.(revision := 0), true)
    else
      var item := read.value;
      if item.override then Skip
      else if item.generation.Some? && item.generation.value >= f.revision then
        if item.generation.value == f.revision && SameContent(item.config, c) then Skip else Late
      else if SameContent(item.config, c) then Write(c.(revision := item.config.revision, updatedAt := item.config.updatedAt), false)
      else Write(c.(revision := item.config.revision + 1), true)
  }

  /** The transaction's conditions on the registry, the current item and the history. */
  predicate SyncCommits(w: World, read: Option<Item>, plan: Plan, f: Fence)
    requires plan.Write?
  {
    && Holds(w.registry, Receipt(f.token, f.revision))
    && (if read.None? then w.current.None?
        else w.current.Some? && w.current.value.config.revision == read.value.config.revision && !w.current.value.override
             && (w.current.value.generation.None? || w.current.value.generation.value < f.revision))
    && (plan.changed ==> plan.next.revision !in w.versions)
  }

  function Sync(w: World, k: nat, c: Config, f: Fence): World {
    if k !in w.syncs || c.environment != w.environment then w
    else
      var plan := PlanSync(w.syncs[k], c, f);
      if !plan.Write? || !SyncCommits(w, w.syncs[k], plan, f) then w
      else
        w.(current := Some(Item(plan.next, false, Some(f.revision))),
           versions := if plan.changed then w.versions[plan.next.revision := Version(plan.next, "deployment", "defaults", None)] else w.versions)
  }

  // ---- Grants ----

  predicate SetGrantCommits(w: World, actor: Grant, target: Grant) {
    && actor.active && actor.manage && actor.environment == target.environment == w.environment
    && actor.subject != target.subject && 0 < |target.subject| <= 100
    && GrantStands(w, actor, true)
    && (if target.revision == 0 then target.subject !in w.grants
        else target.subject in w.grants && w.grants[target.subject].revision == target.revision)
    && (target.subject, target.revision + 1) !in w.audits
  }

  function SetGrant(w: World, actor: Grant, target: Grant): World {
    if SetGrantCommits(w, actor, target)
    then w.(grants := w.grants[target.subject := target.(revision := target.revision + 1)], audits := w.audits + {(target.subject, target.revision + 1)})
    else w
  }

  function Bootstrap(w: World, subject: string): World {
    if !w.bootstrapped && subject !in w.grants
    then w.(bootstrapped := true, grants := w.grants[subject := Grant(subject, w.environment, 1, true, true)])
    else w
  }

  /** What a client gets: the valid, normalized configuration. */
  function Get(w: World): Option<Config> {
    if w.current.Some? && Valid(w.current.value.config) && w.current.value.config.environment == w.environment
    then Some(Normalized(w.current.value.config)) else None
  }

  function Step(w: World, e: Event): World {
    match e
    case Seeds(c) => Seed(w, c)
    case Publishes(g, expected, c, source, at) => Publish(w, g, expected, c, source, at)
    case ReadsForSync(k) => w.(syncs := w.syncs[k := w.current])
    case Syncs(k, c, f) => Sync(w, k, c, f)
    case SetsGrant(actor, target) => SetGrant(w, actor, target)
    case Bootstraps(subject) => Bootstrap(w, subject)
    case ChangesRegistry(c) => w.(registry := Process(w.registry, c).0)
  }

  function Run(w: World, es: seq<Event>): World
    decreases |es|
  {
    if es == [] then w else Run(Step(w, es[0]), es[1..])
  }

  lemma {:induction false} RunAppend(w: World, es: seq<Event>, fs: seq<Event>)
    ensures Run(w, es + fs) == Run(Run(w, es), fs)
    decreases |es|
  {
    if es == [] {
      assert es + fs == fs;
    } else {
      assert (es + fs)[0] == es[0] && (es + fs)[1..] == es[1..] + fs;
      RunAppend(Step(w, es[0]), es[1..], fs);
    }
  }
}
