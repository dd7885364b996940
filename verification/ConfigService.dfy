/**
 The configuration store as it executes (runtimeconfig/model.go, runtimeconfig/store.go): single
 transactions, and a synchronization that reads first and writes later while everything else goes on.
 */
module ConfigService {
  import opened Basics
  import opened Registry
  import opened ConfigWorld
  import ConfigSafety

  ghost predicate Fair(others: nat -> seq<Event>, k: nat) {
    forall n, e | e in others(n) :: !(e.ReadsForSync? && e.k == k)
  }

  lemma SyncCopyStays(w: World, e: Event, k: nat)
    requires !(e.ReadsForSync? && e.k == k) && k in w.syncs
    ensures k in Step(w, e).syncs && Step(w, e).syncs[k] == w.syncs[k]
  {
  }

  lemma SameEnvironment(w: World, e: Event)
    ensures Step(w, e).environment == w.environment
  {
  }

  lemma {:induction false} OthersRun(w: World, es: seq<Event>, k: nat)
    requires forall e | e in es :: !(e.ReadsForSync? && e.k == k)
    ensures var v := Run(w, es); v.environment == w.environment && (k in w.syncs ==> k in v.syncs && v.syncs[k] == w.syncs[k])
    decreases |es|
  {
    hide Step;
    if es != [] {
      SameEnvironment(w, es[0]);
      if k in w.syncs {
        SyncCopyStays(w, es[0], k);
      }
      OthersRun(Step(w, es[0]), es[1..], k);
    }
  }

  datatype Refusal = BadConfig | NotAllowed | Stale

  class Store {
    const environment: string
    var current: Option<Item>
    var versions: map<int, Version>
    var grants: map<string, Grant>
    var audits: set<(string, int)>
    var bootstrapped: bool
    var registry: Record
    var syncs: map<nat, Option<Item>>
    var turn: nat
    const me: nat
    const others: nat -> seq<Event>
    ghost var history: seq<Event>

    constructor (environment: string, me: nat, others: nat -> seq<Event>)
      requires Fair(others, me)
      ensures Valid() && Whole() == New(environment) && history == []
    {
      this.environment, this.me, this.others := environment, me, others;
      current, versions, grants, audits, bootstrapped, registry, syncs := None, map[], map[], {}, false, NO_RECORD, map[];
      turn, history := 0, [];
    }

    function Whole(): World
      reads this
    {
      World(environment, current, versions, grants, audits, bootstrapped, registry, syncs)
    }

    ghost predicate Valid()
      reads this
    {
      Whole() == Run(New(environment), history) && Fair(others, me)
    }

    ghost method Note(before: World, e: Event)
      requires before == Run(New(environment), history) && Whole() == Step(before, e) && Fair(others, me)
      modifies this`history
      ensures Valid() && history == old(history) + [e]
    {
      hide Step;
      RunAppend(New(environment), history, [e]);
      assert Run(before, [e]) == Run(Step(before, e), [e][1..]);
      history := history + [e];
    }

    /** Whatever the others do next. */
    method Others()
      requires Valid()
      modifies this
      ensures Valid() && old(history) <= history
      ensures me in old(syncs) ==> me in syncs && syncs[me] == old(syncs)[me]
    {
      hide Step;
      var es := others(turn);
      assert forall e | e in es :: !(e.ReadsForSync? && e.k == me);
      OthersRun(Whole(), es, me);
      RunAppend(New(environment), history, es);
      var w := Run(Whole(), es);
      current, versions, grants, audits, bootstrapped, registry, syncs :=
        w.current, w.versions, w.grants, w.audits, w.bootstrapped, w.registry, w.syncs;
      history := history + es;
      turn := turn + 1;
    }

    method Seed(c: Config) returns (r: Option<Refusal>)
      requires Valid() && c.environment == environment
      modifies this
      ensures Valid() && old(history) <= history
      ensures r.None? ==> current == Some(Item(c, false, None)) && 0 in versions && versions[0].config == c
      ensures r == Some(BadConfig) <==> !ConfigWorld.Valid(c)
    {
      hide Run;
      if !ConfigWorld.Valid(c) {
        return Some(BadConfig);
      }
      Others();
      ghost var before := Whole();
      if current.None? && 0 !in versions {
        current := Some(Item(c, false, None));
        versions := versions[0 := Version(c, "setup", "defaults", None)];
        r := None;
      } else {
        r := Some(Stale);
      }
      Note(before, Seeds(c));
    }

    /** Checks and completes the submitted configuration, then stores it with its version, all or nothing. */
    method Publish(g: Grant, expected: int, submitted: Config, source: Option<int>, at: string) returns (r: Result<Config, Refusal>)
      requires Valid() && g.environment == environment && expected <= MAX_REVISION
      modifies this
      ensures Valid() && old(history) <= history
      ensures r.Ok? ==> current == Some(Item(r.value, true, None)) && r.value.revision == expected + 1 && Effective(r.value) == Effective(submitted)
                        && r.value.revision in versions && versions[r.value.revision].config == r.value && GrantStands(Whole(), g, false)
    {
      hide Run;
      if expected < 0 || expected == MAX_REVISION {
        return Err(BadConfig);
      }
      if !g.active || submitted.environment != g.environment {
        return Err(NotAllowed);
      }
      var c := Complete(submitted, expected, at);
      if !ConfigWorld.Valid(c) {
        return Err(BadConfig);
      }
      var published := WritePublication(g, expected, submitted, c, source, at);
      return if published then Ok(c) else Err(Stale);
    }

    /** The fields that a publication does not take from its author. */
    method Complete(submitted: Config, expected: int, at: string) returns (c: Config)
      ensures c == Prepared(submitted, expected, at, DEFAULT_MESSAGES)
    {
      c := submitted;
      c := c.(capture := c.capture.(documentType := "id_card", jurisdiction := ""));
      if c.capture.messages == NO_MESSAGES {
        c := c.(capture := c.capture.(messages := DEFAULT_MESSAGES));
      }
      c := c.(capture := c.capture.(purpose := c.capture.messages.en));
      c := Normalized(c);
      c := c.(idCapture := !c.onboarding.value.idCapture.Disabled?);
      c := c.(schemaVersion := 1);
      c := c.(revision := expected + 1);
      c := c.(updatedAt := at);
    }

    /** The transaction: the author's grant, the expected revision, and a version that does not exist yet. */
    method WritePublication(g: Grant, expected: int, submitted: Config, c: Config, source: Option<int>, at: string) returns (published: bool)
      requires Valid() && g.environment == environment && submitted.environment == g.environment && g.active && 0 <= expected < MAX_REVISION
      requires c == Prepared(submitted, expected, at, DEFAULT_MESSAGES) && ConfigWorld.Valid(c)
      modifies this
      ensures Valid() && old(history) <= history
      ensures published ==> current == Some(Item(c, true, None)) && GrantStands(Whole(), g, false)
                            && expected + 1 in versions && versions[expected + 1].config == c
    {
      hide Run, Prepared, ConfigWorld.Valid;
      Others();
      ghost var before := Whole();
      var stands := g.subject in grants && grants[g.subject].revision == g.revision && grants[g.subject].active;
      published := stands && current.Some? && current.value.config.revision == expected && expected + 1 !in versions;
      if published {
        current := Some(Item(c, true, None));
        versions := versions[expected + 1 := Version(c, g.subject, if source.Some? then "rollback" else "publish", source)];
      }
      Note(before, Publishes(g, expected, submitted, source, at));
    }

    method SyncDefaults(submitted: Config, f: Fence) returns (r: Option<Refusal>)
      requires Valid() && submitted.environment == environment
      modifies this
      ensures Valid() && old(history) <= history
      ensures r.None? ==> me in syncs && (PlanSync(syncs[me], submitted, f).Skip? || ShowsDefaults(submitted, f))
    {
      hide Run;
      if submitted.environment != f.environment || f.token == "" || f.revision < 1 || !ConfigWorld.Valid(submitted) {
        return Some(BadConfig);
      }
      Others();
      ghost var before := Whole();
      var read := current;
      syncs := syncs[me := read];
      Note(before, ReadsForSync(me));
      if read.Some? && read.value.override {
        return None;
      }
      if read.Some? && read.value.generation.Some? && read.value.generation.value >= f.revision {
        return if read.value.generation.value == f.revision && SameContent(read.value.config, submitted) then None else Some(Stale);
      }
      var c := submitted;
      var changed := read.None? || !SameContent(read.value.config, c);
      if read.Some? {
        c := c.(revision := read.value.config.revision);
        if changed {
          c := c.(revision := c.revision + 1);
        } else {
          c := c.(updatedAt := read.value.config.updatedAt);
        }
      } else {
        c := c.(revision := 0);
      }
      r := WriteDefaults(read, submitted, c, changed, f);
    }

    /** The current item holds the submitted defaults, and their deployment holds the lock. */
    predicate ShowsDefaults(submitted: Config, f: Fence)
      reads this
    {
      && current.Some? && !current.value.override && current.value.generation == Some(f.revision)
      && SameContent(current.value.config, submitted) && Holds(registry, Receipt(f.token, f.revision))
    }

    /** The transaction: the registry's lock, the item's conditions, and a new version if something changed. */
    method WriteDefaults(read: Option<Item>, submitted: Config, c: Config, changed: bool, f: Fence) returns (r: Option<Refusal>)
      requires Valid() && submitted.environment == environment && me in syncs && syncs[me] == read
      requires PlanSync(read, submitted, f) == Write(c, changed)
      modifies this
      ensures Valid() && old(history) <= history && me in syncs && syncs[me] == read
      ensures r.None? ==> current == Some(Item(c, false, Some(f.revision))) && Holds(registry, Receipt(f.token, f.revision))
    {
      hide Run;
      Others();
      ghost var before := Whole();
      var fenced := registry.revision == f.revision && registry.lock == f.token;
      var stands := if read.None? then current.None?
                    else current.Some? && current.value.config.revision == read.value.config.revision && !current.value.override
                         && (current.value.generation.None? || current.value.generation.value < f.revision);
      if fenced && stands && (!changed || c.revision !in versions) {
        current := Some(Item(c, false, Some(f.revision)));
        if changed {
          versions := versions[c.revision := Version(c, "deployment", "defaults", None)];
        }
        r := None;
      } else {
        r := Some(Stale);
      }
      Note(before, Syncs(me, submitted, f));
    }

    method SetGrant(actor: Grant, target: Grant) returns (r: Option<Refusal>)
      requires Valid() && actor.environment == environment
      modifies this
      ensures Valid() && old(history) <= history
      ensures r.None? ==> target.subject in grants && grants[target.subject] == target.(revision := target.revision + 1)
                          && ConfigSafety.Manager(Whole(), actor.subject)
    {
      hide Run;
      if !actor.active || !actor.manage || actor.environment != target.environment || actor.subject == target.subject || target.subject == ""
         || |target.subject| > 100
      {
        return Some(NotAllowed);
      }
      var expected := target.revision;
      var next := target;
      next := next.(revision := next.revision + 1);
      Others();
      ghost var before := Whole();
      var stands := actor.subject in grants && grants[actor.subject].revision == actor.revision && grants[actor.subject].active
                    && grants[actor.subject].manage;
      var seen := if expected == 0 then target.subject !in grants
                  else target.subject in grants && grants[target.subject].revision == expected;
      if stands && seen && (target.subject, next.revision) !in audits {
        grants := grants[target.subject := next];
        audits := audits + {(target.subject, next.revision)};
        r := None;
      } else {
        r := Some(Stale);
      }
      Note(before, SetsGrant(actor, target));
    }

    method BootstrapGrant(subject: string) returns (r: Option<Refusal>)
      requires Valid()
      modifies this
      ensures Valid() && old(history) <= history
      ensures r.None? ==> bootstrapped && ConfigSafety.Manager(Whole(), subject)
    {
      hide Run;
      Others();
      ghost var before := Whole();
      if !bootstrapped && subject !in grants {
        bootstrapped := true;
        grants := grants[subject := Grant(subject, environment, 1, true, true)];
        r := None;
      } else {
        r := Some(Stale);
      }
      Note(before, Bootstraps(subject));
    }
  }
}
