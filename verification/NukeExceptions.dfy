/** The two ways in which the recovery clean-up does not do what is said of it, each with its exact condition and a run. */
module NukeExceptions {
  import opened NukeModel
  import opened NukeRun
  import opened NukeSafety

  // ---- A failed save does not stop the first bucket ----

  /** Something is deleted although a save of the receipt had failed before. */
  ghost predicate AfterFailedSave(log: Log) {
    exists n :: TouchesAt(log, n) && FailedSave(log[..n])
  }

  ghost predicate TouchedSince(log: Log, from: nat) {
    exists n :: from <= n && TouchesAt(log, n)
  }

  lemma NoFailureNoException(log: Log)
    requires !FailedSave(log)
    ensures !AfterFailedSave(log)
  {
    forall n | TouchesAt(log, n) ensures !FailedSave(log[..n]) {
      assert forall e | e in log[..n] :: e in log;
    }
  }

  lemma QuietExtension(log: Log, after: Log)
    requires log <= after && !TouchedSince(after, |log|)
    ensures AfterFailedSave(after) <==> AfterFailedSave(log)
  {
    forall n | TouchesAt(after, n) ensures n < |log| && after[..n] == log[..n] {
    }
    forall n | TouchesAt(log, n) ensures TouchesAt(after, n) && after[..n] == log[..n] {
    }
  }

  lemma StepLog(x: Setting, s: State, bucket: string)
    ensures var t := Stepped(x, s, bucket).0;
            && s.log <= t.log && (TouchedSince(t.log, |s.log|) <==> x.answers(|s.log|) == Found(true))
            && (forall n | |s.log| <= n < |t.log| :: OnBucket(t.log[n].call) && t.log[n].call.bucket == bucket)
            && (FailedSave(t.log) <==> FailedSave(s.log))
  {
    var t := Stepped(x, s, bucket).0;
    StepSize(x, s, bucket);
    hide Stepped, FailedSave;
    if x.answers(|s.log|) == Found(true) {
      assert TouchesAt(t.log, |s.log| + 1);
    }
    SameFailures(s.log, t.log);
  }

  lemma StepSize(x: Setting, s: State, bucket: string)
    ensures var t := Stepped(x, s, bucket).0;
            && s.log <= t.log && (forall n | |s.log| <= n < |t.log| :: OnBucket(t.log[n].call) && t.log[n].call.bucket == bucket)
            && (if x.answers(|s.log|) == Found(true) then |t.log| > |s.log| + 1 && t.log[|s.log| + 1].call == Purge(bucket)
                else |t.log| == |s.log| + 1 && t.log[|s.log|].call == Head(bucket))
  {
  }

  lemma SameFailures(log: Log, after: Log)
    requires log <= after && forall n | |log| <= n < |after| :: !after[n].call.Persist?
    ensures FailedSave(after) <==> FailedSave(log)
  {
    assert forall e | e in log :: e in after;
    forall e | e in after && e.call.Persist? ensures e in log {
      var n :| 0 <= n < |after| && after[n] == e;
      assert after[n] == log[n];
    }
  }

  lemma NoteLog(x: Setting, s: State, status: Status)
    ensures var t := Noted(x, s, status); s.log <= t.log && !TouchedSince(t.log, |s.log|)
  {
  }

  lemma ScheduleLog(x: Setting, s: State, key: Key)
    ensures var t := ScheduledOne(x, s, key); s.log <= t.log && !TouchedSince(t.log, |s.log|)
  {
  }

  lemma QuietTwice(a: Log, b: Log, c: Log)
    requires a <= b <= c && !TouchedSince(b, |a|) && !TouchedSince(c, |b|)
    ensures !TouchedSince(c, |a|)
  {
    forall n | |a| <= n && TouchesAt(c, n) ensures false {
      if n < |b| {
        assert TouchesAt(b, n);
      }
    }
  }

  lemma {:induction false} SchedulingLog(x: Setting, s: State, customers: seq<Key>, n: nat)
    requires n <= |customers|
    ensures var t := AllScheduled(x, s, customers, n); s.log <= t.log && !TouchedSince(t.log, |s.log|)
    decreases |customers| - n
  {
    if n < |customers| {
      hide ScheduledOne, TouchedSince;
      var t := ScheduledOne(x, s, customers[n]);
      ScheduleLog(x, s, customers[n]);
      SchedulingLog(x, t, customers, n + 1);
      QuietTwice(s.log, t.log, AllScheduled(x, t, customers, n + 1).log);
    }
  }

  /** Without the flag, the deletions go on only as long as saves succeed. */
  lemma {:induction false} UnflaggedIsSafe(x: Setting, s: State, n: nat)
    requires n <= |x.backends| && Pending(x, s, n) && !s.persistErr
    ensures !AfterFailedSave(AllDeleted(x, s, n).0.log)
    decreases |x.backends| - n
  {
    hide Pending, Stepped, Noted, Successful, AfterFailedSave, FailedSave, TouchedSince;
    PendingFlag(x, s, n);
    NoFailureNoException(s.log);
    if n < |x.backends| {
      var stepped := Stepped(x, s, x.backends[n].bucket);
      var t := Noted(x, stepped.0, stepped.1);
      StepLog(x, s, x.backends[n].bucket);
      NoFailureNoException(stepped.0.log);
      NoteLog(x, stepped.0, stepped.1);
      QuietExtension(stepped.0.log, t.log);
      StepThenNote(x, s, n);
      if Successful(t.results) && !t.persistErr {
        UnflaggedIsSafe(x, t, n + 1);
      }
    }
  }

  lemma PendingFlag(x: Setting, s: State, n: nat)
    requires Pending(x, s, n)
    ensures s.persistErr <==> FailedSave(s.log)
  {
  }

  /** With the flag, the first bucket's step is still made, and then everything stops. */
  lemma FlaggedStopsAfterFirst(x: Setting, s: State)
    requires Pending(x, s, 0) && s.persistErr && Calm(s.log)
    ensures var r := AllDeleted(x, s, 0);
            && (AfterFailedSave(r.0.log) <==> |x.backends| > 0 && x.answers(|s.log|) == Found(true))
            && (forall n | TouchesAt(r.0.log, n) :: r.0.log[n].call.bucket == x.backends[0].bucket)
  {
    PendingFlag(x, s, 0);
    hide Pending, Stepped, Noted, Successful, FailedSave;
    if |x.backends| > 0 {
      var bucket := x.backends[0].bucket;
      var stepped := Stepped(x, s, bucket);
      var t := Noted(x, stepped.0, stepped.1);
      StepLog(x, s, bucket);
      NoteLog(x, stepped.0, stepped.1);
      FlagStays(x, stepped.0, stepped.1);
      SteppedFlag(x, s, bucket);
      assert AllDeleted(x, s, 0) == (t, false);
      QuietExtension(stepped.0.log, t.log);
      TouchesAfterFailure(s.log, stepped.0.log);
    }
  }

  lemma FlagStays(x: Setting, s: State, status: Status)
    ensures s.persistErr ==> Noted(x, s, status).persistErr
  {
  }

  lemma SteppedFlag(x: Setting, s: State, bucket: string)
    ensures Stepped(x, s, bucket).0.persistErr == s.persistErr
  {
  }

  lemma TouchesAfterFailure(log: Log, after: Log)
    requires log <= after && FailedSave(log) && Calm(log)
    ensures AfterFailedSave(after) <==> TouchedSince(after, |log|)
  {
    forall n | |log| <= n <= |after| ensures FailedSave(after[..n]) {
      var e :| e in log && e.call.Persist? && !e.reply.Done?;
      assert log == after[..n][..|log|] && e in after[..n];
    }
    forall n | 0 <= n < |log| ensures !TouchesAt(after, n) {
      assert log[n] in log && log[n] == after[n];
    }
  }

  /**
   Something is deleted after a failed save exactly when the flag is set as the deletions begin and the first
   bucket is found: a save of a result failed during the key checks, and the save before the deletions succeeded.
   Then that bucket is the only one touched.
   */
  lemma DeletionAfterFailedSaveIff(x: Setting, s: State)
    requires Begins(s)
    ensures var t, p := Cleanup(x, s), Preflight(x, s);
            && (AfterFailedSave(t.log) <==>
                p.Reached? && p.begin.persistErr && |x.backends| > 0 && x.answers(|p.begin.log|) == Found(true))
            && (AfterFailedSave(t.log) ==> forall n | TouchesAt(t.log, n) :: t.log[n].call.bucket == x.backends[0].bucket)
  {
    PreflightGood(x, s);
    hide Pending, Preflight, AllDeleted, AllScheduled, Fine, AfterFailedSave, FailedSave, Calm;
    match Preflight(x, s)
    case NotReached(end) => CalmIsSafe(end.log);
    case Reached(begin, customers) => DeletionFrom(x, begin, customers);
  }

  lemma DeletionFrom(x: Setting, begin: State, customers: seq<Key>)
    requires Pending(x, begin, 0) && Calm(begin.log)
    ensures var deleted := AllDeleted(x, begin, 0);
            var t := if deleted.1 then AllScheduled(x, deleted.0, customers, 0) else deleted.0;
            && (AfterFailedSave(t.log) <==> begin.persistErr && |x.backends| > 0 && x.answers(|begin.log|) == Found(true))
            && (AfterFailedSave(t.log) ==> forall n | TouchesAt(t.log, n) :: t.log[n].call.bucket == x.backends[0].bucket)
  {
    hide Pending, AllDeleted, AllScheduled, AfterFailedSave, FailedSave, Calm, TouchedSince;
    if begin.persistErr {
      FlaggedStopsAfterFirst(x, begin);
    } else {
      UnflaggedIsSafe(x, begin, 0);
    }
    var deleted := AllDeleted(x, begin, 0);
    if deleted.1 {
      SchedulingLog(x, deleted.0, customers, 0);
      var t := AllScheduled(x, deleted.0, customers, 0);
      QuietExtension(deleted.0.log, t.log);
      EarlierTouches(deleted.0.log, t.log);
    }
  }

  lemma EarlierTouches(log: Log, after: Log)
    requires log <= after && !TouchedSince(after, |log|)
    ensures forall n | TouchesAt(after, n) :: TouchesAt(log, n) && log[n] == after[n]
  {
  }

  lemma CalmIsSafe(log: Log)
    requires Calm(log)
    ensures !AfterFailedSave(log) && forall n :: !TouchesAt(log, n)
  {
    forall n ensures !TouchesAt(log, n) {
      assert 0 <= n < |log| ==> log[n] in log;
    }
  }

  // ---- Runs ----

  function Answers(replies: seq<Reply>): nat -> Reply {
    (n: nat) => if n < |replies| then replies[n] else Done
  }

  const STATE := "state"

  /** One bucket, and a key that is gone; saving that result fails, the next save succeeds. */
  const UNSAVED := Setting([Backend(STATE, "r")], "a", Answers([Found(true), Stacks(0), Keys([]), Missing, Missing, Done, Broken, Done, Found(true)]))

  const KEY := Key("k", "r")
  const LISTED := [Entry(Head(STATE), Found(true)), Entry(ListStacks(STATE), Stacks(0)), Entry(ListObjects(STATE), Keys([])),
                   Entry(GetEncryption(Backend(STATE, "r")), Missing)]
  const KEY_GONE := [Entry(Describe(KEY), Missing), Entry(Record(Absent), Done), Entry(Persist([KEY]), Broken)]

  lemma UnsavedPreflight()
    ensures Preflight(UNSAVED, State([], [KEY], false, []))
         == Reached(State([Absent], [KEY], true, LISTED + KEY_GONE + [Entry(Persist([KEY]), Done)]), [])
  {
    var s0 := State([], [KEY], false, []);
    var s1 := Preflighted(UNSAVED, s0, Backend(STATE, "r"));
    assert s1 == State([], [KEY], false, LISTED);
    assert AllPreflighted(UNSAVED, s0, 0) == AllPreflighted(UNSAVED, s1, 1) == s1;
    hide Preflighted, AllPreflighted;
    var s2 := KeyChecked(UNSAVED, s1, KEY).0;
    assert s2 == State([Absent], [KEY], true, LISTED + KEY_GONE);
    assert KeysChecked(UNSAVED, s1, 0, []) == KeysChecked(UNSAVED, s2, 1, []) == (s2, []);
    hide KeyChecked, KeysChecked;
    assert Successful([Absent]);
  }

  /** The clean-up ends after the first bucket's step, when that step fails or the flag is set. */
  lemma EndsAfterFirst(x: Setting, s: State, begin: State)
    requires s.log == [] && Preflight(x, s) == Reached(begin, []) && |x.backends| == 1
    requires var r := Stepped(x, begin, x.backends[0].bucket); begin.persistErr || !Success(r.1)
    ensures var r := Stepped(x, begin, x.backends[0].bucket); Cleanup(x, s) == Noted(x, r.0, r.1)
  {
    hide Preflight, Stepped;
    var r := Stepped(x, begin, x.backends[0].bucket);
    SteppedFlag(x, begin, x.backends[0].bucket);
    var t := Noted(x, r.0, r.1);
    assert r.1 in t.results;
  }

  /** A purge after a failed save. */
  lemma PurgeAfterFailedSave() returns (log: Log)
    ensures log == Cleanup(UNSAVED, State([], [KEY], false, [])).log && |log| > 9
    ensures log[6] == Entry(Persist([KEY]), Broken) && log[9] == Entry(Purge(STATE), Done) && AfterFailedSave(log)
  {
    var s0 := State([], [KEY], false, []);
    UnsavedPreflight();
    hide Preflight, Cleanup;
    var begin := Preflight(UNSAVED, s0).begin;
    var r := Stepped(UNSAVED, begin, STATE);
    assert r.0.log == begin.log + [Entry(Head(STATE), Found(true)), Entry(Purge(STATE), Done), Entry(Remove(STATE), Done), Entry(Head(STATE), Done)];
    hide Stepped;
    EndsAfterFirst(UNSAVED, s0, begin);
    log := Cleanup(UNSAVED, s0).log;
    assert TouchesAt(log, 9) && log[..9][6] in log[..9];
  }

  /** One bucket that is missing in the preflight and there at its deletion. */
  const BACK_AGAIN := Setting([Backend(STATE, "r")], "a", Answers([Missing, Done, Found(true)]))

  lemma BackAgainPreflight()
    ensures Preflight(BACK_AGAIN, State([], [], false, [])) == Reached(State([], [], false, [Entry(Head(STATE), Missing), Entry(Persist([]), Done)]), [])
  {
    var s0 := State([], [], false, []);
    var s1 := Preflighted(BACK_AGAIN, s0, Backend(STATE, "r"));
    assert s1 == State([], [], false, [Entry(Head(STATE), Missing)]);
    assert AllPreflighted(BACK_AGAIN, s0, 0) == AllPreflighted(BACK_AGAIN, s1, 1) == s1;
    hide Preflighted, AllPreflighted;
    assert KeysChecked(BACK_AGAIN, s1, 0, []) == (s1, []);
  }

  /** A purge of a bucket that was never checked. */
  lemma PurgeUnchecked() returns (log: Log)
    ensures log == Cleanup(BACK_AGAIN, State([], [], false, [])).log && |log| > 3
    ensures log[3] == Entry(Purge(STATE), Done) && !Checked(log[..3], STATE) && MissingFirst(log, STATE)
  {
    var s0 := State([], [], false, []);
    BackAgainPreflight();
    hide Preflight, Cleanup, Ordered;
    var begin := Preflight(BACK_AGAIN, s0).begin;
    var r := Stepped(BACK_AGAIN, begin, STATE);
    assert r.0.log == begin.log + [Entry(Head(STATE), Found(true)), Entry(Purge(STATE), Done), Entry(Remove(STATE), Done), Entry(Head(STATE), Done)];
    assert r.1 == Unverified;
    hide Stepped;
    EndsAfterFirst(BACK_AGAIN, s0, begin);
    log := Cleanup(BACK_AGAIN, s0).log;
    CleanupIsOrdered(BACK_AGAIN, s0);
    assert log[..1] == [Entry(Head(STATE), Missing)];
    assert TouchesAt(log, 3);
    FirstAnswerStays(log, 1, STATE);
    UncheckedIff(log, BACK_AGAIN.backends);
  }
}
