/** The stored state of an environment reset and what `Start`, `Resume` and `Work` write over it (envreset/service.go). */
module ResetModel {
  import opened Basics

  datatype Phase = NoPhase | Snapshot | Pause | Drain | Purge | QueueWait | Users | Tables | Objects | Restore | Complete

  /** `revision` 0 stands for an absent item; a concurrency of -1 stands for no reservation. */
  datatype State = State(
    revision: int,
    operation: string,
    actor: string,
    phase: Phase,
    failed: bool,
    startedAt: int,
    updatedAt: int,
    due: int,
    validAfter: int,
    leaseUntil: int,
    concurrency: map<string, int>)

  const NO_STATE := State(0, "", "", NoPhase, false, 0, 0, 0, 0, 0, map[])

  /** What a deployment lists as resettable. */
  datatype Manifest = Manifest(functions: seq<string>, tables: seq<string>)

  predicate Idle(s: State) {
    s.phase.NoPhase? || s.phase.Complete?
  }

  // ---- Requests ----

  function Started(r: State, operation: string, actor: string, t1: int, t2: int): State {
    State(r.revision + 1, operation, actor, Snapshot, false, t1, t2, 0, r.validAfter, 0, map[])
  }

  predicate MayResume(r: State, operation: string, actor: string, t1: int) {
    operation == r.operation && actor != "" && r.failed && r.leaseUntil <= t1
  }

  function Resumed(r: State, t2: int): State {
    r.(failed := false, revision := r.revision + 1, updatedAt := t2)
  }

  /** The gate that every token passes: no reset under way, and issued after the last cutoff. */
  predicate CheckToken(s: State, iat: int) {
    Idle(s) && (s.validAfter == 0 || iat > s.validAfter)
  }

  // ---- The worker ----

  predicate MayClaim(r: State, t: int) {
    !Idle(r) && !r.failed && r.leaseUntil <= t && r.due <= t
  }

  function ClaimedAt(r: State, t: int): State {
    r.(revision := r.revision + 1, leaseUntil := t + RESET_LEASE)
  }

  /** How the backend answered: an error, a snapshot, success, or (while clearing) data left over. */
  datatype Answer = Error | Taken(concurrency: map<string, int>) | Done | More

  predicate Clears(p: Phase) {
    p.Users? || p.Tables? || p.Objects?
  }

  /** The phase after a step that answered `Done`. */
  function Following(p: Phase): Phase {
    match p
    case Pause => Drain
    case Drain => Purge
    case Purge => QueueWait
    case QueueWait => Users
    case Users => Tables
    case Tables => Objects
    case Objects => Restore
    case Restore => Complete
    case _ => p
  }

  function Advanced(r: State, t: int, answer: Answer): State {
    match answer
    case Error => r.(phase := if r.phase.Restore? then Pause else r.phase, failed := true,
                     concurrency := if r.phase.Snapshot? then map[] else r.concurrency)
    case Taken(snapshot) => r.(phase := Pause, concurrency := snapshot)
    case Done => r.(phase := Following(r.phase),
                    due := if r.phase.Pause? then t + DRAIN else if r.phase.Purge? then t + QUEUE_WAIT else r.due,
                    validAfter := if r.phase.Objects? then t else r.validAfter)
    case More => r
  }

  /** The final save of an invocation that claimed `r` at `t`. */
  function Settled(r: State, t: int, answer: Answer, u: int): State {
    Advanced(r, t, answer).(revision := r.revision + 1, leaseUntil := 0, updatedAt := u)
  }

  // ---- Snapshots ----

  function Names(fs: seq<string>): set<string> {
    set f | f in fs
  }

  predicate ValidSnapshot(snapshot: map<string, int>, functions: seq<string>) {
    |snapshot| == |functions| && forall f | f in functions :: f in snapshot && snapshot[f] >= -1
  }

  predicate Distinct(fs: seq<string>) {
    forall i, j | 0 <= i < j < |fs| :: fs[i] != fs[j]
  }

  lemma {:induction false} CountNames(fs: seq<string>)
    ensures |Names(fs)| <= |fs| && (|Names(fs)| == |fs| <==> Distinct(fs))
  {
    if fs != [] {
      var n := |fs| - 1;
      var init := fs[..n];
      CountNames(init);
      assert fs == init + [fs[n]];
      assert Names(fs) == Names(init) + {fs[n]};
      if fs[n] in init {
        assert Names(fs) == Names(init);
        var i :| 0 <= i < |init| && init[i] == fs[n];
        assert fs[i] == fs[n] && !Distinct(fs);
      } else {
        assert |Names(fs)| == |Names(init)| + 1;
        assert Distinct(init) ==> Distinct(fs);
        assert Distinct(fs) ==> Distinct(init);
      }
    }
  }

  /** A snapshot of every listed function passes the check exactly when no function is listed twice and no value is below -1. */
  lemma SnapshotValidIff(snapshot: map<string, int>, functions: seq<string>)
    requires snapshot.Keys == Names(functions)
    ensures ValidSnapshot(snapshot, functions) <==> Distinct(functions) && forall f | f in snapshot :: snapshot[f] >= -1
  {
    CountNames(functions);
    assert |snapshot| == |snapshot.Keys|;
  }
}
