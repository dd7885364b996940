/** The recovery clean-up as it executes: each method leaves the receipt, the flag and the log of calls as NukeRun says. */
module NukeRecovery {
  import opened NukeModel
  import opened NukeRun
  import NukeSafety

  class Workflow {
    const backends: seq<Backend>
    const account: string
    const answers: nat -> Reply
    var results: seq<Status>
    var keys: seq<Key>
    var persistErr: bool
    var log: Log

    constructor (backends: seq<Backend>, account: string, answers: nat -> Reply, results: seq<Status>, keys: seq<Key>, persistErr: bool)
      ensures Whole() == State(results, keys, persistErr, []) && Setup() == Setting(backends, account, answers)
    {
      this.backends, this.account, this.answers, this.results, this.keys, this.persistErr := backends, account, answers, results, keys, persistErr;
      log := [];
    }

    ghost function Whole(): State
      reads this
    {
      State(results, keys, persistErr, log)
    }

    ghost function Setup(): Setting {
      Setting(backends, account, answers)
    }

    /** One call to a provider, with whatever it answers. */
    method Ask(c: Call) returns (reply: Reply)
      modifies this`log
      ensures Whole() == Asked(Setup(), old(Whole()), c) && reply == answers(|old(log)|)
    {
      reply := answers(|log|);
      log := log + [Entry(c, reply)];
    }

    /** Writes the receipt; a failure sets the flag. */
    method Save() returns (saved: bool)
      modifies this`log, this`persistErr
      ensures Whole() == Saved(Setup(), old(Whole())) && (saved <==> answers(|old(log)|) == Done)
      ensures persistErr <==> old(persistErr) || !saved
    {
      var reply := Ask(Persist(keys));
      saved := reply == Done;
      if !saved {
        persistErr := true;
      }
    }

    /** Appends a result and saves the receipt; a save that fails sets the flag that blocks what comes later. */
    method RecordResult(s: Status)
      modifies this`results, this`log, this`persistErr
      ensures Whole() == Noted(Setup(), old(Whole()), s)
      ensures results == old(results) + [s]
      ensures persistErr <==> old(persistErr) || answers(|old(log)| + 1) != Done
    {
      results := results + [s];
      log := log + [Entry(Record(s), Done)];
      var saved := Save();
    }

    // ---- Preflight of a bucket ----

    /** The scope of one bucket: its stacks and its objects. */
    method CheckScope(bucket: string) returns (passed: bool)
      modifies this`results, this`log, this`persistErr
      ensures (Whole(), passed) == Scoped(Setup(), old(Whole()), bucket)
    {
      var stacks := Ask(ListStacks(bucket));
      if stacks != Stacks(0) {
        RecordResult(Failed);
        return false;
      }
      var objects := Ask(ListObjects(bucket));
      passed := false;
      if objects.Keys? {
        passed := ObjectScope(objects.keys);
      }
      if !passed {
        RecordResult(Failed);
      }
    }

    /** Adds the keys that encrypt the bucket to the receipt's inventory. */
    method InventoryKeys(b: Backend)
      modifies this`results, this`log, this`persistErr, this`keys
      ensures Whole() == Inventoried(Setup(), old(Whole()), b)
    {
      var encryption := Ask(GetEncryption(b));
      if encryption.Missing? {
        return;
      }
      if !encryption.Rules? || |encryption.ids| == 0 {
        RecordResult(Failed);
        return;
      }
      var n := 0;
      while n < |encryption.ids|
        invariant 0 <= n <= |encryption.ids| && results == old(results) && persistErr == old(persistErr)
        invariant log == old(log) + [Entry(GetEncryption(b), encryption)]
        invariant keys == WithKeys(old(keys), encryption.ids[..n], b.region)
      {
        var id := encryption.ids[n];
        if id != "" && Key(id, b.region) !in keys {
          keys := keys + [Key(id, b.region)];
        }
        assert encryption.ids[..n + 1][..n] == encryption.ids[..n];
        n := n + 1;
      }
      assert encryption.ids[..n] == encryption.ids;
    }

    method PreflightBucket(b: Backend)
      modifies this`results, this`log, this`persistErr, this`keys
      ensures Whole() == Preflighted(Setup(), old(Whole()), b)
    {
      var head := Ask(Head(b.bucket));
      if head.Missing? {
        return;
      }
      if !head.Found? {
        RecordResult(Failed);
        return;
      }
      var passed := CheckScope(b.bucket);
      if passed {
        InventoryKeys(b);
      }
    }

    /** Asks about every bucket before anything is deleted. */
    method PreflightBuckets()
      modifies this`results, this`log, this`persistErr, this`keys
      ensures Whole() == AllPreflighted(Setup(), old(Whole()), 0)
    {
      var n := 0;
      while n < |backends|
        invariant 0 <= n <= |backends|
        invariant AllPreflighted(Setup(), Whole(), n) == AllPreflighted(Setup(), old(Whole()), 0)
      {
        PreflightBucket(backends[n]);
        n := n + 1;
      }
    }

    // ---- Preflight of the keys ----

    /** A key that is to be scheduled: a customer key of this account, in a state that allows it, and confirmed by the operator. */
    method PreflightKey(key: Key) returns (customer: seq<Key>)
      modifies this`results, this`log, this`persistErr
      ensures (Whole(), customer) == KeyChecked(Setup(), old(Whole()), key)
    {
      customer := [];
      var described := Ask(Describe(key));
      if described.Missing? {
        RecordResult(Absent);
        return;
      }
      if !described.Described? || described.metadata.arn == "" {
        RecordResult(Failed);
        return;
      }
      var m := described.metadata;
      if m.manager == "AWS" {
        RecordResult(Info);
        return;
      }
      if m.manager != "CUSTOMER" || !("arn:aws:kms:" + key.region + ":" + account + ":key/" <= m.arn) {
        RecordResult(Failed);
        return;
      }
      var id := Key(m.arn, key.region);
      if m.state.PendingDeletion? {
        RecordResult(Scheduled);
        return;
      }
      if m.state.OtherState? || m.hasReplicas {
        RecordResult(Failed);
        return;
      }
      var confirmed := Ask(Confirm(id));
      if confirmed != Done {
        RecordResult(Failed);
        return;
      }
      customer := [id];
    }

    method PreflightKeys() returns (customers: seq<Key>)
      modifies this`results, this`log, this`persistErr
      ensures (Whole(), customers) == KeysChecked(Setup(), old(Whole()), 0, [])
    {
      customers := [];
      var n := 0;
      while n < |keys|
        invariant 0 <= n <= |keys|
        invariant KeysChecked(Setup(), Whole(), n, customers) == KeysChecked(Setup(), old(Whole()), 0, [])
      {
        var customer := PreflightKey(keys[n]);
        if |customer| != 0 && customer[0] !in customers {
          customers := customers + customer;
        }
        n := n + 1;
      }
    }

    // ---- Deletion ----

    method Exists(bucket: string) returns (answer: Knowledge)
      modifies this`log
      ensures (Whole(), answer) == Existing(Setup(), old(Whole()), bucket)
    {
      var head := Ask(Head(bucket));
      answer := if head.Missing? then Gone else if head.Found? then (if head.present then There else Gone) else Unknown;
    }

    /** Deletes what is in the bucket and then the bucket. */
    method RemoveBucket(bucket: string) returns (ok: bool)
      modifies this`log
      ensures (Whole(), ok) == Removed(Setup(), old(Whole()), bucket)
    {
      var purged := Ask(Purge(bucket));
      if purged != Done {
        return false;
      }
      var removed := Ask(Remove(bucket));
      ok := removed == Done;
    }

    /** One step of the clean-up: it counts as done only when the bucket reads back as absent. */
    method Step(bucket: string) returns (s: Status)
      modifies this`log
      ensures (Whole(), s) == Stepped(Setup(), old(Whole()), bucket)
      ensures Success(s) ==> log != [] && log[|log| - 1].call == Head(bucket) && KnowledgeOf(log[|log| - 1].reply) == Gone
    {
      var found := Exists(bucket);
      if !found.There? {
        return if found.Gone? then Absent else Failed;
      }
      var removed := RemoveBucket(bucket);
      found := Exists(bucket);
      if !removed {
        return if found.Gone? then Deleted else Failed;
      }
      return match found case Gone => Deleted case There => Remains case Unknown => Unverified;
    }

    method DeleteBuckets() returns (finished: bool)
      modifies this`results, this`log, this`persistErr
      ensures (Whole(), finished) == AllDeleted(Setup(), old(Whole()), 0)
    {
      hide Stepped, Noted, Successful, Success;
      var n := 0;
      while n < |backends|
        invariant 0 <= n <= |backends|
        invariant AllDeleted(Setup(), Whole(), n) == AllDeleted(Setup(), old(Whole()), 0)
      {
        var s := Step(backends[n].bucket);
        RecordResult(s);
        var successful := AllSuccess(results);
        if !successful || persistErr {
          return false;
        }
        n := n + 1;
      }
      finished := true;
    }

    /** The allowlist of statuses: an unknown one never authorizes a deletion. */
    method AllSuccess(results: seq<Status>) returns (ok: bool)
      ensures ok == Successful(results)
    {
      var n := 0;
      while n < |results|
        invariant 0 <= n <= |results| && Successful(results[..n])
      {
        match results[n] {
          case Deleted =>
          case Absent =>
          case Scheduled =>
          case Info =>
          case _ =>
            assert results[n] in results;
            return false;
        }
        assert results[..n + 1] == results[..n] + [results[n]];
        n := n + 1;
      }
      assert results[..n] == results;
      return true;
    }

    method ScheduleKeys(customers: seq<Key>)
      modifies this`results, this`log, this`persistErr
      ensures Whole() == AllScheduled(Setup(), old(Whole()), customers, 0)
    {
      var n := 0;
      while n < |customers|
        invariant 0 <= n <= |customers|
        invariant AllScheduled(Setup(), Whole(), customers, n) == AllScheduled(Setup(), old(Whole()), customers, 0)
      {
        ScheduleKey(customers[n]);
        n := n + 1;
      }
    }

    method ScheduleKey(key: Key)
      modifies this`results, this`log, this`persistErr
      ensures Whole() == ScheduledOne(Setup(), old(Whole()), key)
    {
      var scheduled := Ask(Schedule(key));
      if scheduled != Done {
        RecordResult(Failed);
        return;
      }
      var described := Ask(Describe(key));
      if described.Missing? {
        RecordResult(Absent);
      } else if !described.Described? || described.metadata.arn == "" {
        RecordResult(Failed);
      } else if !described.metadata.state.PendingDeletion? {
        RecordResult(Unverified);
      } else {
        RecordResult(Scheduled);
      }
    }

    /**
     The whole clean-up. Whatever the providers answer, its log keeps the order: a bucket is touched only
     after all earlier results succeeded, every bucket passed its check or was answered as missing, and all
     key identities were saved; a key is scheduled only when every bucket reads back as absent.
     */
    method CleanupRecovery()
      requires log == []
      modifies this`results, this`log, this`persistErr, this`keys
      ensures Whole() == Cleanup(Setup(), old(Whole()))
      ensures Ordered(log, backends)
      ensures !old(persistErr) && Successful(results) && !persistErr ==> forall b | b in backends :: ViewOf(log, b.bucket).known == Gone
      ensures !Successful(old(results)) || old(persistErr) ==> log == []
    {
      if !persistErr {
        NukeSafety.CleanupIsOrdered(Setup(), Whole());
      }
      var successful := AllSuccess(results);
      if !successful || persistErr {
        return;
      }
      PreflightBuckets();
      successful := AllSuccess(results);
      if !successful {
        return;
      }
      var customers := PreflightKeys();
      successful := AllSuccess(results);
      if !successful {
        return;
      }
      var saved := Save();
      if !saved {
        return;
      }
      var finished := DeleteBuckets();
      if finished {
        ScheduleKeys(customers);
      }
    }
  }
}
