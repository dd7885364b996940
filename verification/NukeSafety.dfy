/** What the recovery clean-up guarantees for every sequence of provider answers, and where a failed save does not stop it. */
module NukeSafety {
  import opened NukeModel
  import opened NukeRun

  /** The log is in order, the results tell of every failure in it, and the flag of every failed save. */
  ghost predicate Good(x: Setting, s: State) {
    && Ordered(s.log, x.backends) && (Successful(s.results) ==> AllWell(s.log)) && (s.persistErr <==> FailedSave(s.log))
  }

  /** Nothing was deleted or scheduled. */
  predicate Calm(log: Log) {
    forall e | e in log :: !Touches(e.call) && !e.call.Schedule?
  }

  /** What every part of the clean-up keeps on its way from `s` to `t`. */
  ghost predicate Fine(x: Setting, s: State, t: State) {
    && Good(x, t) && s.log <= t.log && s.results <= t.results && s.keys <= t.keys
    && (Names(s.keys, s.log) ==> Names(t.keys, t.log))
  }

  /** The part of the log about other buckets than this one shows the same. */
  ghost predicate SameBut(s: Log, t: Log, bucket: string) {
    forall b | b != bucket :: ViewOf(t, b) == ViewOf(s, b)
  }

  ghost predicate Same(s: Log, t: Log) {
    forall b :: ViewOf(t, b) == ViewOf(s, b)
  }

  predicate OnBucket(c: Call) {
    c.Head? || c.ListStacks? || c.ListObjects? || c.Purge? || c.Remove?
  }

  lemma Views(log: Log, e: Entry)
    ensures !OnBucket(e.call) ==> Same(log, log + [e])
    ensures OnBucket(e.call) ==> SameBut(log, log + [e], e.call.bucket)
  {
    forall b | !OnBucket(e.call) || b != e.call.bucket ensures ViewOf(log + [e], b) == ViewOf(log, b) {
      ViewAfter(log, e, b);
    }
  }

  lemma EntryKeeps(x: Setting, s: State, e: Entry)
    requires Good(x, s) && Gate(s.log, x.backends, e.call) && !e.call.Record? && !e.call.GetEncryption?
    ensures Ordered(s.log + [e], x.backends) && (Successful(s.results) ==> AllWell(s.log + [e]))
    ensures FailedSave(s.log + [e]) <==> s.persistErr || (e.call.Persist? && !e.reply.Done?)
    ensures Names(s.keys, s.log) ==> Names(s.keys, s.log + [e])
    ensures MayTouch(s.log, x.backends) ==> MayTouch(s.log + [e], x.backends)
    ensures Calm(s.log) && !Touches(e.call) && !e.call.Schedule? ==> Calm(s.log + [e])
  {
    OrderedGrows(s.log, x.backends, e);
    FailedSaveGrows(s.log, e);
    hide Gate, Ordered, FailedSave;
    if Names(s.keys, s.log) {
      NamesGrow(s.keys, s.log, e);
    }
    hide Names;
    if MayTouch(s.log, x.backends) {
      MayTouchGrows(s.log, x.backends, e);
    }
  }

  lemma AskKeeps(x: Setting, s: State, c: Call)
    requires Good(x, s) && Gate(s.log, x.backends, c) && !c.Record? && !c.Persist? && !c.GetEncryption?
    ensures Fine(x, s, Asked(x, s, c))
    ensures MayTouch(s.log, x.backends) ==> MayTouch(Asked(x, s, c).log, x.backends)
    ensures Calm(s.log) && !Touches(c) && !c.Schedule? ==> Calm(Asked(x, s, c).log)
    ensures !OnBucket(c) ==> Same(s.log, Asked(x, s, c).log)
    ensures OnBucket(c) ==> SameBut(s.log, Asked(x, s, c).log, c.bucket)
    ensures OnBucket(c) ==> ViewOf(Asked(x, s, c).log, c.bucket) == Update(ViewOf(s.log, c.bucket), Entry(c, x.answers(|s.log|)), c.bucket)
  {
    var e := Entry(c, x.answers(|s.log|));
    EntryKeeps(x, s, e);
    Views(s.log, e);
    if OnBucket(c) {
      ViewAfter(s.log, e, c.bucket);
    }
  }

  lemma SaveKeeps(x: Setting, s: State)
    requires Good(x, s)
    ensures Fine(x, s, Saved(x, s)) && Same(s.log, Saved(x, s).log)
    ensures MayTouch(s.log, x.backends) ==> MayTouch(Saved(x, s).log, x.backends)
    ensures Calm(s.log) ==> Calm(Saved(x, s).log)
    ensures forall e | e in s.log :: e in Saved(x, s).log
  {
    var e := Entry(Persist(s.keys), x.answers(|s.log|));
    EntryKeeps(x, s, e);
    Views(s.log, e);
  }

  lemma KeysAreSaved(x: Setting, s: State)
    requires Names(s.keys, s.log) && x.answers(|s.log|) == Done
    ensures KeysSaved(Saved(x, s).log)
  {
    var e := Entry(Persist(s.keys), x.answers(|s.log|));
    NamesGrow(s.keys, s.log, e);
    assert e in s.log + [e];
  }

  lemma RecordKeeps(x: Setting, s: State, status: Status)
    requires Good(x, s)
    ensures var t := s.(results := s.results + [status], log := s.log + [Entry(Record(status), Done)]);
            && Fine(x, s, t) && Same(s.log, t.log) && (Calm(s.log) ==> Calm(t.log))
            && (MayTouch(s.log, x.backends) && Success(status) ==> MayTouch(t.log, x.backends))
            && (!Success(status) ==> !Successful(t.results)) && (Successful(s.results) && Success(status) ==> Successful(t.results))
  {
    var e := Entry(Record(status), Done);
    var results := s.results + [status];
    OrderedGrows(s.log, x.backends, e);
    FailedSaveGrows(s.log, e);
    Views(s.log, e);
    assert status in results && forall r | r in s.results :: r in results;
    if Names(s.keys, s.log) {
      NamesGrow(s.keys, s.log, e);
    }
    if MayTouch(s.log, x.backends) && Success(status) {
      MayTouchGrows(s.log, x.backends, e);
    }
  }

  lemma NoteKeeps(x: Setting, s: State, status: Status)
    requires Good(x, s)
    ensures var t := Noted(x, s, status);
            && Fine(x, s, t) && Same(s.log, t.log) && (Calm(s.log) ==> Calm(t.log)) && t.keys == s.keys
            && (MayTouch(s.log, x.backends) && Success(status) ==> MayTouch(t.log, x.backends))
            && (!Success(status) ==> !Successful(t.results)) && (Successful(s.results) && Success(status) ==> Successful(t.results))
    ensures forall e | e in s.log :: e in Noted(x, s, status).log
  {
    RecordKeeps(x, s, status);
    var t := s.(results := s.results + [status], log := s.log + [Entry(Record(status), Done)]);
    hide Good, Names, MayTouch, Calm, Successful;
    SaveKeeps(x, t);
  }

  lemma FineTwice(x: Setting, s: State, t: State, u: State, bucket: string)
    requires Fine(x, s, t) && Fine(x, t, u)
    ensures Fine(x, s, u)
    ensures Same(s.log, t.log) && Same(t.log, u.log) ==> Same(s.log, u.log)
    ensures (SameBut(s.log, t.log, bucket) || Same(s.log, t.log)) && (SameBut(t.log, u.log, bucket) || Same(t.log, u.log)) ==> SameBut(s.log, u.log, bucket)
    ensures Successful(u.results) ==> Successful(t.results)
  {
    assert forall r | r in t.results :: r in u.results;
    assert Same(s.log, t.log) && Same(t.log, u.log) ==> forall b :: ViewOf(u.log, b) == ViewOf(t.log, b) && ViewOf(t.log, b) == ViewOf(s.log, b);
    if (SameBut(s.log, t.log, bucket) || Same(s.log, t.log)) && (SameBut(t.log, u.log, bucket) || Same(t.log, u.log)) {
      forall b | b != bucket ensures ViewOf(u.log, b) == ViewOf(s.log, b) {
        assert ViewOf(t.log, b) == ViewOf(s.log, b);
      }
    }
  }

  // ---- Preflight of the buckets ----

  lemma FineGood(x: Setting, s: State, t: State)
    requires Fine(x, s, t)
    ensures Good(x, t)
  {
  }

  lemma ObjectsKeep(x: Setting, s: State, bucket: string)
    requires Good(x, s) && Calm(s.log)
    ensures var t := Asked(x, s, ListObjects(bucket));
            var u := Noted(x, t, Failed);
            var r := x.answers(|s.log|);
            && Fine(x, s, t) && Calm(t.log) && SameBut(s.log, t.log, bucket)
            && (r.Keys? && AllOurs(r.keys) ==> ViewOf(t.log, bucket) == ViewOf(s.log, bucket).(objectsOurs := true))
            && Fine(x, s, u) && Calm(u.log) && SameBut(s.log, u.log, bucket) && !Successful(u.results)
  {
    var t := Asked(x, s, ListObjects(bucket));
    AskKeeps(x, s, ListObjects(bucket));
    hide Good, Names, MayTouch, Calm, Successful, ViewOf, AllOurs;
    NoteKeeps(x, t, Failed);
    FineTwice(x, s, t, Noted(x, t, Failed), bucket);
  }

  lemma ScopeKeeps(x: Setting, s: State, bucket: string)
    requires Good(x, s) && Calm(s.log)
    ensures var r := Scoped(x, s, bucket);
            && Fine(x, s, r.0) && Calm(r.0.log) && SameBut(s.log, r.0.log, bucket)
            && (if r.1 then ViewOf(r.0.log, bucket) == ViewOf(s.log, bucket).(stacksEmpty := true, objectsOurs := true) else !Successful(r.0.results))
  {
    hide Fine, Good, Names, MayTouch, Calm, Successful, ViewOf, AllOurs, SameBut, Same, Noted;
    var s1 := Asked(x, s, ListStacks(bucket));
    AskKeeps(x, s, ListStacks(bucket));
    FineGood(x, s, s1);
    NoteKeeps(x, s1, Failed);
    FineTwice(x, s, s1, Noted(x, s1, Failed), bucket);
    if x.answers(|s.log|) == Stacks(0) {
      ObjectsKeep(x, s1, bucket);
      FineTwice(x, s, s1, Asked(x, s1, ListObjects(bucket)), bucket);
      FineTwice(x, s, s1, Noted(x, Asked(x, s1, ListObjects(bucket)), Failed), bucket);
    }
  }

  lemma {:induction false} KeysGrow(keys: seq<Key>, ids: seq<string>, region: string)
    ensures keys <= WithKeys(keys, ids, region)
    ensures forall id | id in ids && id != "" :: Key(id, region) in WithKeys(keys, ids, region)
  {
    if ids != [] {
      var n := |ids| - 1;
      KeysGrow(keys, ids[..n], region);
      var before, after := WithKeys(keys, ids[..n], region), WithKeys(keys, ids, region);
      forall id | id in ids && id != "" ensures Key(id, region) in after {
        assert id in ids[..n] || id == ids[n];
        assert forall k | k in before :: k in after;
      }
    }
  }

  lemma EncryptionKeeps(x: Setting, s: State, b: Backend, keys: seq<Key>)
    requires Good(x, s) && s.keys <= keys
    requires var e := Entry(GetEncryption(b), x.answers(|s.log|));
             e.reply.Rules? ==> forall id | id in e.reply.ids && id != "" :: Key(id, b.region) in keys
    ensures var t := Asked(x, s, GetEncryption(b)).(keys := keys);
            Fine(x, s, t) && Same(s.log, t.log) && (Calm(s.log) ==> Calm(t.log))
  {
    var e := Entry(GetEncryption(b), x.answers(|s.log|));
    OrderedGrows(s.log, x.backends, e);
    FailedSaveGrows(s.log, e);
    Views(s.log, e);
    assert forall k | k in s.keys :: k in keys;
  }

  lemma InventoryKeeps(x: Setting, s: State, b: Backend)
    requires Good(x, s) && Calm(s.log)
    ensures var t := Inventoried(x, s, b); Fine(x, s, t) && Calm(t.log) && Same(s.log, t.log)
  {
    var s1 := Asked(x, s, GetEncryption(b));
    var rules := x.answers(|s.log|);
    hide Good, Names, Calm, Successful, ViewOf;
    if rules.Rules? && rules.ids != [] {
      KeysGrow(s1.keys, rules.ids, b.region);
      EncryptionKeeps(x, s, b, WithKeys(s1.keys, rules.ids, b.region));
    } else {
      EncryptionKeeps(x, s, b, s.keys);
      assert s1.(keys := s.keys) == s1;
      if !rules.Missing? {
        NoteKeeps(x, s1, Failed);
        FineTwice(x, s, s1, Noted(x, s1, Failed), "");
      }
    }
  }

  /** Without a failure, the bucket passed its check or was answered as missing; a bucket asked for the first time, exactly one of the two. */
  lemma PreflightKeeps(x: Setting, s: State, b: Backend)
    requires Good(x, s) && Calm(s.log)
    ensures var t := Preflighted(x, s, b);
            && Fine(x, s, t) && Calm(t.log) && SameBut(s.log, t.log, b.bucket)
            && (Successful(t.results) ==> ViewOf(t.log, b.bucket).asked && (Checked(t.log, b.bucket) || ViewOf(t.log, b.bucket).missing))
            && (Successful(t.results) && ViewOf(s.log, b.bucket) == BLANK ==> (Checked(t.log, b.bucket) <==> !MissingFirst(t.log, b.bucket)))
  {
    var s1 := Asked(x, s, Head(b.bucket));
    var head := x.answers(|s.log|);
    AskKeeps(x, s, Head(b.bucket));
    hide Good, Names, MayTouch, Calm, Successful, ViewOf;
    if head.Missing? {
    } else if !head.Found? {
      NoteKeeps(x, s1, Failed);
      FineTwice(x, s, s1, Noted(x, s1, Failed), b.bucket);
    } else {
      var scoped := Scoped(x, s1, b.bucket);
      ScopeKeeps(x, s1, b.bucket);
      FineTwice(x, s, s1, scoped.0, b.bucket);
      if scoped.1 {
        var t := Inventoried(x, scoped.0, b);
        InventoryKeeps(x, scoped.0, b);
        FineTwice(x, s, scoped.0, t, b.bucket);
        assert ViewOf(t.log, b.bucket) == ViewOf(scoped.0.log, b.bucket);
      }
    }
  }

  lemma NextBucket(s: Log, t: Log, backends: seq<Backend>, n: nat)
    requires n < |backends| && SameBut(s, t, backends[n].bucket)
    requires ViewOf(t, backends[n].bucket).asked && (Checked(t, backends[n].bucket) || ViewOf(t, backends[n].bucket).missing)
    requires ViewOf(s, backends[n].bucket) == BLANK ==> (Checked(t, backends[n].bucket) <==> !MissingFirst(t, backends[n].bucket))
    ensures Passed(s, backends, n) ==> Passed(t, backends, n + 1)
    ensures DistinctBuckets(backends) && Exact(s, backends, 0, n) && NotYet(s, backends, n) ==> Exact(t, backends, 0, n + 1)
  {
    forall k | 0 <= k < n && backends[k].bucket != backends[n].bucket ensures ViewOf(t, backends[k].bucket) == ViewOf(s, backends[k].bucket) {
    }
  }

  lemma StillNotYet(s: Log, t: Log, backends: seq<Backend>, n: nat)
    requires n < |backends| && SameBut(s, t, backends[n].bucket) && DistinctBuckets(backends) && NotYet(s, backends, n)
    ensures NotYet(t, backends, n + 1)
  {
    forall k | n + 1 <= k < |backends| ensures ViewOf(t, backends[k].bucket) == BLANK {
      assert ViewOf(s, backends[k].bucket) == BLANK;
    }
  }

  /** Without a failure among the results, every bucket passed; with distinct buckets, exactly one way or the other. */
  ghost predicate BucketsPassed(x: Setting, s: State, n: nat) {
    Successful(s.results) ==> Passed(s.log, x.backends, n) && (DistinctBuckets(x.backends) ==> Exact(s.log, x.backends, 0, n))
  }

  /** The buckets up to `n` are dealt with, and the others untouched. */
  ghost predicate Underway(x: Setting, s: State, n: nat) {
    && n <= |x.backends| && Good(x, s) && Calm(s.log) && BucketsPassed(x, s, n)
    && (DistinctBuckets(x.backends) ==> NotYet(s.log, x.backends, n))
  }

  lemma PreflightNext(x: Setting, s: State, n: nat)
    requires Underway(x, s, n) && n < |x.backends|
    ensures var t := Preflighted(x, s, x.backends[n]); Fine(x, s, t) && Underway(x, t, n + 1)
  {
    hide Good, Names, Calm, Checked, MissingFirst, ViewOf, Passed, Exact, NotYet, DistinctBuckets, Preflighted, Successful;
    var b := x.backends[n];
    var t := Preflighted(x, s, b);
    PreflightKeeps(x, s, b);
    FineResults(x, s, t);
    if Successful(t.results) {
      NotYetBlank(s.log, x.backends, n);
      NextBucket(s.log, t.log, x.backends, n);
    }
    if DistinctBuckets(x.backends) {
      StillNotYet(s.log, t.log, x.backends, n);
    }
  }

  lemma {:induction false} AllPreflightedKeep(x: Setting, s: State, n: nat)
    requires Underway(x, s, n)
    ensures var t := AllPreflighted(x, s, n); Fine(x, s, t) && Calm(t.log) && BucketsPassed(x, t, |x.backends|)
    decreases |x.backends| - n
  {
    if n < |x.backends| {
      hide Underway, Fine, BucketsPassed, Calm, Good, Preflighted;
      var t := Preflighted(x, s, x.backends[n]);
      PreflightNext(x, s, n);
      AllPreflightedKeep(x, t, n + 1);
      FineTwice(x, s, t, AllPreflighted(x, t, n + 1), "");
    } else {
      FineSelf(x, s);
    }
  }

  lemma FineSelf(x: Setting, s: State)
    requires Good(x, s)
    ensures Fine(x, s, s)
  {
  }

  lemma NotYetBlank(log: Log, backends: seq<Backend>, n: nat)
    requires n < |backends|
    ensures NotYet(log, backends, n) ==> ViewOf(log, backends[n].bucket) == BLANK
  {
  }

  // ---- Preflight of the keys ----

  /** The keys' checks ask nothing about buckets. */
  ghost predicate Aside(x: Setting, s: State, t: State) {
    Fine(x, s, t) && Calm(t.log) && Same(s.log, t.log) && t.keys == s.keys && forall e | e in s.log :: e in t.log
  }

  lemma AsideTwice(x: Setting, s: State, t: State, u: State)
    requires Aside(x, s, t) && Aside(x, t, u)
    ensures Aside(x, s, u)
    ensures Successful(u.results) ==> Successful(t.results)
  {
    FineTwice(x, s, t, u, "");
  }

  lemma AsideAsk(x: Setting, s: State, c: Call)
    requires Good(x, s) && Calm(s.log) && (c.Describe? || c.Confirm?)
    ensures Aside(x, s, Asked(x, s, c)) && Entry(c, x.answers(|s.log|)) in Asked(x, s, c).log
  {
    AskKeeps(x, s, c);
    var e := Entry(c, x.answers(|s.log|));
    assert e in s.log + [e] && forall f | f in s.log :: f in s.log + [e];
  }

  lemma AsideNote(x: Setting, s: State, status: Status)
    requires Good(x, s) && Calm(s.log)
    ensures Aside(x, s, Noted(x, s, status))
  {
    NoteKeeps(x, s, status);
  }

  lemma KeyKeeps(x: Setting, s: State, key: Key)
    requires Good(x, s) && Calm(s.log)
    ensures var r := KeyChecked(x, s, key); Aside(x, s, r.0) && forall k | k in r.1 :: Entry(Confirm(k), Done) in r.0.log
  {
    hide Good, Calm, Aside, VerdictOf;
    var s1 := Asked(x, s, Describe(key));
    AsideAsk(x, s, Describe(key));
    AsideGood(x, s, s1);
    match VerdictOf(x, key, x.answers(|s.log|))
    case Reports(status) =>
      AsideNote(x, s1, status);
      AsideTwice(x, s, s1, Noted(x, s1, status));
    case NeedsConfirmation(id) =>
      var s2 := Asked(x, s1, Confirm(id));
      AsideAsk(x, s1, Confirm(id));
      AsideGood(x, s1, s2);
      AsideTwice(x, s, s1, s2);
      AsideNote(x, s2, Failed);
      AsideTwice(x, s, s2, Noted(x, s2, Failed));
  }

  lemma AsideGood(x: Setting, s: State, t: State)
    requires Aside(x, s, t)
    ensures Good(x, t) && Calm(t.log)
  {
  }

  lemma {:induction false} KeysKeep(x: Setting, s: State, n: nat, customers: seq<Key>)
    requires n <= |s.keys| && Good(x, s) && Calm(s.log) && forall k | k in customers :: Entry(Confirm(k), Done) in s.log
    ensures var r := KeysChecked(x, s, n, customers); Aside(x, s, r.0) && forall k | k in r.1 :: Entry(Confirm(k), Done) in r.0.log
    decreases |s.keys| - n
  {
    if n < |s.keys| {
      var checked := KeyChecked(x, s, s.keys[n]);
      KeyKeeps(x, s, s.keys[n]);
      AsideGood(x, s, checked.0);
      var next := if checked.1 != [] && checked.1[0] !in customers then customers + checked.1 else customers;
      hide Good, Calm, KeyChecked;
      KeysKeep(x, checked.0, n + 1, next);
      AsideTwice(x, s, checked.0, KeysChecked(x, checked.0, n + 1, next).0);
    } else {
      FineSelf(x, s);
    }
  }

  // ---- Deletion ----

  /** What a deletion step may rely on. */
  ghost predicate Ready(x: Setting, log: Log, bucket: string) {
    && MayTouch(log, x.backends) && (exists b | b in x.backends :: b.bucket == bucket) && ViewOf(log, bucket).asked
    && (DistinctBuckets(x.backends) ==> (Checked(log, bucket) <==> !MissingFirst(log, bucket)))
  }

  lemma HeadKeeps(x: Setting, s: State, bucket: string)
    requires Good(x, s) && Ready(x, s.log, bucket)
    ensures var t := Asked(x, s, Head(bucket));
            && Fine(x, s, t) && Ready(x, t.log, bucket) && SameBut(s.log, t.log, bucket)
            && ViewOf(t.log, bucket).known == KnowledgeOf(x.answers(|s.log|))
  {
    hide Good, Names, Calm, MayTouch;
    AskKeeps(x, s, Head(bucket));
  }

  lemma TouchKeeps(x: Setting, s: State, c: Call)
    requires Good(x, s) && Touches(c) && Ready(x, s.log, c.bucket) && (c.Purge? ==> ViewOf(s.log, c.bucket).known == There)
    ensures var t := Asked(x, s, c); Fine(x, s, t) && Ready(x, t.log, c.bucket) && SameBut(s.log, t.log, c.bucket)
  {
    hide Good, Names, Calm, MayTouch;
    AskKeeps(x, s, c);
  }

  lemma RemoveKeeps(x: Setting, s: State, bucket: string)
    requires Good(x, s) && Ready(x, s.log, bucket) && ViewOf(s.log, bucket).known == There
    ensures var t := Removed(x, s, bucket).0; Fine(x, s, t) && Ready(x, t.log, bucket) && SameBut(s.log, t.log, bucket)
  {
    hide Good, Ready, SameBut, Same, ViewOf, Successful;
    var s1 := Asked(x, s, Purge(bucket));
    TouchKeeps(x, s, Purge(bucket));
    FineGood(x, s, s1);
    TouchKeeps(x, s1, Remove(bucket));
    FineTwice(x, s, s1, Asked(x, s1, Remove(bucket)), bucket);
  }

  lemma StepKeeps(x: Setting, s: State, bucket: string)
    requires Good(x, s) && Ready(x, s.log, bucket)
    ensures var r := Stepped(x, s, bucket);
            && Fine(x, s, r.0) && Ready(x, r.0.log, bucket) && SameBut(s.log, r.0.log, bucket) && r.0.results == s.results
            && (Success(r.1) ==> ViewOf(r.0.log, bucket).known == Gone)
  {
    hide Good, Fine, Ready, SameBut, Same, ViewOf, Successful, Removed;
    var s1 := Asked(x, s, Head(bucket));
    HeadKeeps(x, s, bucket);
    FineGood(x, s, s1);
    if KnowledgeOf(x.answers(|s.log|)).There? {
      var s2 := Removed(x, s1, bucket).0;
      RemoveKeeps(x, s1, bucket);
      RemovedResults(x, s1, bucket);
      FineGood(x, s1, s2);
      FineTwice(x, s, s1, s2, bucket);
      HeadKeeps(x, s2, bucket);
      FineTwice(x, s, s2, Asked(x, s2, Head(bucket)), bucket);
    }
  }

  lemma RemovedResults(x: Setting, s: State, bucket: string)
    ensures Removed(x, s, bucket).0.results == s.results
  {
  }

  /** The buckets from `n` on are still as the preflight left them. */
  ghost predicate Pending(x: Setting, s: State, n: nat) {
    && Good(x, s) && MayTouch(s.log, x.backends) && Successful(s.results) && AllGone(s.log, x.backends, n)
    && (forall k | n <= k < |x.backends| :: ViewOf(s.log, x.backends[k].bucket).asked)
    && (DistinctBuckets(x.backends) ==> Exact(s.log, x.backends, n, |x.backends|))
  }

  lemma PendingReady(x: Setting, s: State, n: nat)
    requires Pending(x, s, n) && n < |x.backends|
    ensures Good(x, s) && Ready(x, s.log, x.backends[n].bucket)
  {
    assert x.backends[n] in x.backends;
  }

  lemma PendingNext(x: Setting, s: State, t: State, n: nat)
    requires Pending(x, s, n) && n < |x.backends| && SameBut(s.log, t.log, x.backends[n].bucket)
    requires Good(x, t) && MayTouch(t.log, x.backends) && Successful(t.results)
    requires ViewOf(t.log, x.backends[n].bucket).known == Gone && ViewOf(t.log, x.backends[n].bucket).asked
    ensures Pending(x, t, n + 1)
  {
    hide Good, MayTouch, Successful;
    forall k | n + 1 <= k < |x.backends| && DistinctBuckets(x.backends) ensures ViewOf(t.log, x.backends[k].bucket) == ViewOf(s.log, x.backends[k].bucket) {
    }
  }

  lemma StepThenNote(x: Setting, s: State, n: nat)
    requires Pending(x, s, n) && n < |x.backends|
    ensures var stepped := Stepped(x, s, x.backends[n].bucket);
            var t := Noted(x, stepped.0, stepped.1);
            && Fine(x, s, t) && SameBut(s.log, t.log, x.backends[n].bucket)
            && (Successful(t.results) ==> Pending(x, t, n + 1))
  {
    hide Fine, Good, MayTouch, Ready, SameBut, Same, Successful, Stepped, Pending;
    PendingReady(x, s, n);
    var bucket := x.backends[n].bucket;
    var stepped := Stepped(x, s, bucket);
    StepKeeps(x, s, bucket);
    FineGood(x, s, stepped.0);
    NoteKeeps(x, stepped.0, stepped.1);
    var t := Noted(x, stepped.0, stepped.1);
    FineTwice(x, s, stepped.0, t, bucket);
    FineGood(x, stepped.0, t);
    if Successful(t.results) {
      ReadyOpens(x, stepped.0.log, t.log, bucket);
      PendingNext(x, s, t, n);
    }
  }

  lemma ReadyOpens(x: Setting, s: Log, t: Log, bucket: string)
    requires Ready(x, s, bucket) && Same(s, t)
    ensures MayTouch(s, x.backends) && ViewOf(s, bucket).asked && ViewOf(t, bucket) == ViewOf(s, bucket)
  {
  }

  lemma {:induction false} DeletionKeeps(x: Setting, s: State, n: nat)
    requires n <= |x.backends| && Pending(x, s, n)
    ensures var r := AllDeleted(x, s, n);
            && Fine(x, s, r.0)
            && (if r.1 then Pending(x, r.0, |x.backends|) else !Successful(r.0.results) || r.0.persistErr)
    decreases |x.backends| - n
  {
    hide Fine, Good, Pending, Stepped, Noted, Successful;
    if n < |x.backends| {
      var stepped := Stepped(x, s, x.backends[n].bucket);
      var t := Noted(x, stepped.0, stepped.1);
      StepThenNote(x, s, n);
      if Successful(t.results) && !t.persistErr {
        DeletionKeeps(x, t, n + 1);
        FineTwice(x, s, t, AllDeleted(x, t, n + 1).0, "");
      }
    } else {
      PendingGood(x, s, n);
      FineSelf(x, s);
    }
  }

  lemma PendingGood(x: Setting, s: State, n: nat)
    requires Pending(x, s, n)
    ensures Good(x, s)
  {
  }

  // ---- Scheduling ----

  lemma {:induction false} SchedulingKeeps(x: Setting, s: State, customers: seq<Key>, n: nat)
    requires n <= |customers| && Good(x, s) && AllGone(s.log, x.backends, |x.backends|)
    requires forall k | k in customers :: Entry(Confirm(k), Done) in s.log
    ensures var t := AllScheduled(x, s, customers, n); Fine(x, s, t) && AllGone(t.log, x.backends, |x.backends|)
    decreases |customers| - n
  {
    if n < |customers| {
      hide Good, Successful, ScheduledOne;
      var t := ScheduledOne(x, s, customers[n]);
      ScheduleKeeps(x, s, customers[n]);
      FineGood(x, s, t);
      assert forall e | e in s.log :: e in t.log;
      SchedulingKeeps(x, t, customers, n + 1);
      FineTwice(x, s, t, AllScheduled(x, t, customers, n + 1), "");
    } else {
      FineSelf(x, s);
    }
  }

  lemma GoneStays(x: Setting, s: Log, t: Log)
    requires Same(s, t) && AllGone(s, x.backends, |x.backends|)
    ensures AllGone(t, x.backends, |x.backends|)
  {
  }

  lemma ScheduleAsk(x: Setting, s: State, key: Key)
    requires Good(x, s) && AllGone(s.log, x.backends, |x.backends|) && Entry(Confirm(key), Done) in s.log
    ensures var t := Asked(x, s, Schedule(key)); Fine(x, s, t) && Same(s.log, t.log)
  {
    hide Good, Fine, Same, MayTouch;
    GoneForAll(s.log, x.backends);
    AskKeeps(x, s, Schedule(key));
  }

  lemma DescribeAsk(x: Setting, s: State, key: Key)
    requires Good(x, s)
    ensures var t := Asked(x, s, Describe(key)); Fine(x, s, t) && Same(s.log, t.log)
  {
    hide Good, Fine, Same, MayTouch;
    AskKeeps(x, s, Describe(key));
  }

  lemma ScheduleKeeps(x: Setting, s: State, key: Key)
    requires Good(x, s) && AllGone(s.log, x.backends, |x.backends|) && Entry(Confirm(key), Done) in s.log
    ensures var t := ScheduledOne(x, s, key); Fine(x, s, t) && AllGone(t.log, x.backends, |x.backends|)
  {
    hide Good, Fine, Same, Noted, Successful, AllGone, AfterScheduling, SameBut, MayTouch, Calm;
    var s1 := Asked(x, s, Schedule(key));
    ScheduleAsk(x, s, key);
    FineGood(x, s, s1);
    var t := ScheduledOne(x, s, key);
    if x.answers(|s.log|) != Done {
      NoteKeeps(x, s1, Failed);
      FineTwice(x, s, s1, t, "");
    } else {
      var s2 := Asked(x, s1, Describe(key));
      DescribeAsk(x, s1, key);
      FineGood(x, s1, s2);
      FineTwice(x, s, s1, s2, "");
      NoteKeeps(x, s2, AfterScheduling(x.answers(|s1.log|)));
      FineTwice(x, s, s2, t, "");
    }
    GoneStays(x, s.log, t.log);
  }

  // ---- The clean-up as a whole ----

  /** The clean-up begins with an empty log and no failed save behind it. */
  predicate Begins(s: State) {
    s.log == [] && !s.persistErr
  }

  lemma BeginsGood(x: Setting, s: State)
    requires Begins(s)
    ensures Good(x, s) && Calm(s.log) && Names(s.keys, s.log) && Underway(x, s, 0)
  {
  }

  lemma PassedStays(x: Setting, s: Log, t: Log)
    requires Same(s, t) && Passed(s, x.backends, |x.backends|)
    ensures Passed(t, x.backends, |x.backends|) && (Exact(s, x.backends, 0, |x.backends|) ==> Exact(t, x.backends, 0, |x.backends|))
    ensures forall k | 0 <= k < |x.backends| :: ViewOf(t, x.backends[k].bucket).asked
  {
    forall k | 0 <= k < |x.backends| ensures ViewOf(t, x.backends[k].bucket) == ViewOf(s, x.backends[k].bucket) {
    }
  }

  lemma GoodAllWell(x: Setting, s: State)
    requires Good(x, s) && Successful(s.results)
    ensures AllWell(s.log)
  {
  }

  lemma FineNames(x: Setting, s: State, t: State)
    requires Fine(x, s, t) && Names(s.keys, s.log)
    ensures Names(t.keys, t.log)
  {
  }

  lemma FineResults(x: Setting, s: State, t: State)
    requires Fine(x, s, t)
    ensures Successful(t.results) ==> Successful(s.results)
  {
    assert forall r | r in s.results :: r in t.results;
  }

  lemma FineFromAside(x: Setting, s: State, t: State)
    requires Aside(x, s, t)
    ensures Fine(x, s, t) && Same(s.log, t.log)
  {
  }

  /** After a good preflight and a good save of the receipt, deletion may begin. */
  lemma Opens(x: Setting, s: State, t: State)
    requires Aside(x, s, t) && BucketsPassed(x, s, |x.backends|) && Names(s.keys, s.log) && Successful(t.results) && x.answers(|t.log|) == Done
    ensures Pending(x, Saved(x, t), 0)
  {
    hide Aside, Good, Fine, Same, Successful, Names, MayTouch, KeysSaved, Passed, Exact, DistinctBuckets, AllWell, Calm, SameBut;
    var u := Saved(x, t);
    AsideGood(x, s, t);
    FineFromAside(x, s, t);
    SaveKeeps(x, t);
    FineTwice(x, s, t, u, "");
    FineGood(x, t, u);
    FineNames(x, s, t);
    KeysAreSaved(x, t);
    FineResults(x, s, t);
    PassedStays(x, s.log, u.log);
    GoodAllWell(x, u);
    GateOpens(u.log, x.backends);
  }

  /** The state in which deletion begins is reached only through a good preflight. */
  lemma PreflightGood(x: Setting, s: State)
    requires Begins(s)
    ensures match Preflight(x, s)
            case NotReached(end) => Fine(x, s, end) && Calm(end.log) && (!Successful(end.results) || end.persistErr)
            case Reached(begin, customers) => Fine(x, s, begin) && Pending(x, begin, 0) && Calm(begin.log)
                                              && forall k | k in customers :: Entry(Confirm(k), Done) in begin.log
  {
    hide Aside, Good, Fine, Same, Successful, Names, BucketsPassed, Underway, Pending, Calm, AllPreflighted, KeysChecked;
    BeginsGood(x, s);
    FineSelf(x, s);
    if Successful(s.results) {
      var s1 := AllPreflighted(x, s, 0);
      AllPreflightedKeep(x, s, 0);
      FineGood(x, s, s1);
      FineNames(x, s, s1);
      if Successful(s1.results) {
        var checked := KeysChecked(x, s1, 0, []);
        KeysKeep(x, s1, 0, []);
        AsideGood(x, s1, checked.0);
        FineFromAside(x, s1, checked.0);
        FineTwice(x, s, s1, checked.0, "");
        var s3 := Saved(x, checked.0);
        SaveKeeps(x, checked.0);
        FineTwice(x, s, checked.0, s3, "");
        if Successful(checked.0.results) && x.answers(|checked.0.log|) == Done {
          Opens(x, s1, checked.0);
        }
      }
    }
  }

  /** Whatever the providers answer, the log keeps the order, and when all went well every bucket reads back as absent. */
  lemma CleanupIsOrdered(x: Setting, s: State)
    requires Begins(s)
    ensures var t := Cleanup(x, s);
            && Ordered(t.log, x.backends) && s.results <= t.results
            && (!Successful(s.results) ==> t == s)
            && (Successful(t.results) && !t.persistErr ==> forall b | b in x.backends :: ViewOf(t.log, b.bucket).known == Gone)
  {
    PreflightGood(x, s);
    match Preflight(x, s)
    case NotReached(end) => FineOrdered(x, s, end);
    case Reached(begin, customers) =>
      hide Good, Fine, Pending, Successful, Calm, AllDeleted, AllScheduled;
      DeletionKeeps(x, begin, 0);
      var deleted := AllDeleted(x, begin, 0);
      FineTwice(x, s, begin, deleted.0, "");
      FineOrdered(x, s, deleted.0);
      if deleted.1 {
        PendingGone(x, deleted.0);
        FineEntries(x, begin, deleted.0);
        SchedulingKeeps(x, deleted.0, customers, 0);
        var t := AllScheduled(x, deleted.0, customers, 0);
        FineTwice(x, s, deleted.0, t, "");
        FineOrdered(x, s, t);
        GoneForAll(t.log, x.backends);
      }
  }

  lemma FineOrdered(x: Setting, s: State, t: State)
    requires Fine(x, s, t)
    ensures Ordered(t.log, x.backends) && s.results <= t.results
  {
  }

  lemma FineEntries(x: Setting, s: State, t: State)
    requires Fine(x, s, t)
    ensures forall e | e in s.log :: e in t.log
  {
  }

  lemma PendingGone(x: Setting, s: State)
    requires Pending(x, s, |x.backends|)
    ensures Good(x, s) && AllGone(s.log, x.backends, |x.backends|)
  {
  }
}
