/**
 What the recovery clean-up asks of its providers, what it records, and what its log must look like
 (tools/deploy/internal/workflow/nuke_recovery.go, nuke_report.go).
 */
module NukeModel {

  datatype Status = Deleted | Absent | Scheduled | Info | Remains | Unverified | Failed

  predicate Success(s: Status) {
    s.Deleted? || s.Absent? || s.Scheduled? || s.Info?
  }

  predicate Successful(results: seq<Status>) {
    forall s | s in results :: Success(s)
  }

  datatype Key = Key(id: string, region: string)

  datatype Backend = Backend(bucket: string, region: string)

  datatype KeyState = Enabled | Inactive | PendingImport | PendingDeletion | OtherState

  datatype Metadata = Metadata(arn: string, manager: string, state: KeyState, hasReplicas: bool)

  datatype Call =
    | Head(bucket: string)
    | ListStacks(bucket: string)
    | ListObjects(bucket: string)
    | GetEncryption(backend: Backend)
    | Describe(key: Key)
    | Confirm(key: Key)
    | Persist(keys: seq<Key>)
    | Purge(bucket: string)
    | Remove(bucket: string)
    | Schedule(key: Key)
    | Record(status: Status)

  /** `Missing` is the provider's authoritative not-found, `Broken` any other error or an incomplete response. */
  datatype Reply =
    | Missing
    | Broken
    | Found(present: bool)
    | Stacks(count: nat)
    | Keys(keys: seq<string>)
    | Rules(ids: seq<string>)
    | Described(metadata: Metadata)
    | Done

  datatype Entry = Entry(call: Call, reply: Reply)

  type Log = seq<Entry>

  // ---- The scope of recovery objects ----

  const OWN_FILES := [".pulumi/meta.yaml", "meta.yaml", "bootstrap.lock", "bootstrap-ready.json", "teardown-pending.json"]
  const AREAS := ["stacks", "history", "backups", "locks"]
  const PROJECTS := ["attestra-auth-email", "attestra-index"]

  function Split(s: string): (parts: seq<string>)
    ensures |parts| >= 1
  {
    if s == "" then [""]
    else if s[0] == '/' then [""] + Split(s[1..])
    else var rest := Split(s[1..]); [[s[0]] + rest[0]] + rest[1..]
  }

  predicate KnownParts(parts: seq<string>) {
    |parts| >= 4 && parts[0] == ".pulumi" && parts[1] in AREAS && parts[2] in PROJECTS
  }

  /** What the scope check promises: one of our own files, or something below one of our projects' directories. */
  predicate Ours(key: string) {
    key in OWN_FILES || exists area, project | area in AREAS && project in PROJECTS :: ".pulumi/" + area + "/" + project + "/" <= key
  }

  predicate Plain(s: string) {
    '/' !in s
  }

  /** Splitting off a first part that has no separator in it. */
  lemma {:induction false} SplitHead(head: string, rest: string)
    requires Plain(head)
    ensures Split(head + "/" + rest) == [head] + Split(rest)
  {
    var s := head + "/" + rest;
    if head == "" {
      assert s[1..] == rest;
    } else {
      assert s[1..] == head[1..] + "/" + rest && s[0] == head[0] && head[0] in head;
      SplitHead(head[1..], rest);
      assert [head[0]] + head[1..] == head;
      assert Split(s) == [[s[0]] + Split(s[1..])[0]] + Split(s[1..])[1..];
    }
  }

  /** A string with more than one part begins with its first part and a separator. */
  lemma {:induction false} SplitBegins(s: string)
    ensures Plain(Split(s)[0])
    ensures |Split(s)| == 1 ==> s == Split(s)[0]
    ensures |Split(s)| > 1 ==> Split(s)[0] + "/" <= s && Split(s[|Split(s)[0]| + 1..]) == Split(s)[1..]
  {
    if s != "" && s[0] != '/' {
      SplitBegins(s[1..]);
      var rest := Split(s[1..]);
      if |rest| > 1 {
        assert s[|rest[0]| + 2..] == s[1..][|rest[0]| + 1..];
        assert Split(s)[0] == [s[0]] + rest[0] && Split(s)[1..] == rest[1..];
        assert Split(s)[0] + "/" == [s[0]] + (rest[0] + "/");
      }
    }
  }

  lemma PartsOfOurs(area: string, project: string, key: string)
    requires Plain(area) && Plain(project) && ".pulumi/" + area + "/" + project + "/" <= key
    ensures |Split(key)| >= 4 && Split(key)[0] == ".pulumi" && Split(key)[1] == area && Split(key)[2] == project
  {
    var tail := key[|".pulumi/" + area + "/" + project + "/"|..];
    assert key == ".pulumi" + "/" + (area + "/" + (project + "/" + tail));
    SplitHead(".pulumi", area + "/" + (project + "/" + tail));
    SplitHead(area, project + "/" + tail);
    SplitHead(project, tail);
  }

  lemma Cut(s: string) returns (tail: string)
    requires |Split(s)| > 1
    ensures s == Split(s)[0] + "/" + tail && Split(tail) == Split(s)[1..]
  {
    SplitBegins(s);
    tail := s[|Split(s)[0]| + 1..];
  }

  lemma SplitSize(key: string)
    requires KnownParts(Split(key))
    ensures |Split(key)| >= 4 && Split(key)[0] == ".pulumi"
  {
  }

  lemma OursOfParts(key: string)
    requires KnownParts(Split(key))
    ensures ".pulumi/" + Split(key)[1] + "/" + Split(key)[2] + "/" <= key
  {
    hide Split, KnownParts;
    var parts := Split(key);
    assert |parts| >= 4 && parts[0] == ".pulumi" by { SplitSize(key); }
    var k1 := Cut(key);
    var k2 := Cut(k1);
    var k3 := Cut(k2);
    assert parts[1] == Split(k1)[0] && parts[2] == Split(k1)[1] == Split(k2)[0];
    Joined(parts[1], parts[2], k3);
  }

  lemma Joined(area: string, project: string, tail: string)
    ensures ".pulumi" + "/" + (area + "/" + (project + "/" + tail)) == (".pulumi/" + area + "/" + project + "/") + tail
  {
  }

  /** The check on the parts of a name decides exactly what it promises. */
  lemma ScopeIsByDirectory(key: string)
    ensures key in OWN_FILES || KnownParts(Split(key)) <==> Ours(key)
  {
    if KnownParts(Split(key)) {
      OursOfParts(key);
    }
    if area, project :| area in AREAS && project in PROJECTS && ".pulumi/" + area + "/" + project + "/" <= key {
      PartsOfOurs(area, project, key);
    }
  }

  predicate AllOurs(keys: seq<string>) {
    forall key | key in keys :: Ours(key)
  }

  method ObjectScope(keys: seq<string>) returns (ok: bool)
    ensures ok <==> AllOurs(keys)
  {
    hide Ours, Split;
    var n := 0;
    while n < |keys|
      invariant 0 <= n <= |keys| && forall key | key in keys[..n] :: Ours(key)
    {
      var key := keys[n];
      ScopeIsByDirectory(key);
      var parts := Split(key);
      if key !in OWN_FILES && !(|parts| >= 4 && parts[0] == ".pulumi" && parts[1] in AREAS && parts[2] in PROJECTS) {
        return false;
      }
      assert keys[..n + 1] == keys[..n] + [key];
      n := n + 1;
    }
    assert keys[..n] == keys;
    return true;
  }

  // ---- What a log shows ----

  datatype Knowledge = Unknown | There | Gone

  function KnowledgeOf(head: Reply): Knowledge {
    if head.Missing? then Gone else if head.Found? then (if head.present then There else Gone) else Unknown
  }

  /**
   What a log shows of a bucket: whether its existence was asked, whether the first answer, or any, said
   that it is missing, what its scope check found, and the last thing known (nothing once it was touched again).
   */
  datatype View = View(asked: bool, missingFirst: bool, missing: bool, stacksEmpty: bool, objectsOurs: bool, known: Knowledge)

  const BLANK := View(false, false, false, false, false, Unknown)

  function Update(v: View, e: Entry, bucket: string): View {
    match e.call
    case Head(b) =>
      if b != bucket then v
      else v.(asked := true, missingFirst := if v.asked then v.missingFirst else e.reply.Missing?,
              missing := v.missing || e.reply.Missing?, known := KnowledgeOf(e.reply))
    case ListStacks(b) => if b == bucket && e.reply == Stacks(0) then v.(stacksEmpty := true) else v
    case ListObjects(b) => if b == bucket && e.reply.Keys? && AllOurs(e.reply.keys) then v.(objectsOurs := true) else v
    case Purge(b) => if b == bucket then v.(known := Unknown) else v
    case Remove(b) => if b == bucket then v.(known := Unknown) else v
    case _ => v
  }

  function ViewOf(log: Log, bucket: string): View {
    if log == [] then BLANK else Update(ViewOf(log[..|log| - 1], bucket), log[|log| - 1], bucket)
  }

  lemma ViewAfter(log: Log, e: Entry, bucket: string)
    ensures ViewOf(log + [e], bucket) == Update(ViewOf(log, bucket), e, bucket)
  {
    assert (log + [e])[..|log|] == log;
  }

  predicate Checked(log: Log, bucket: string) {
    ViewOf(log, bucket).stacksEmpty && ViewOf(log, bucket).objectsOurs
  }

  /** The provider's first answer about the bucket, in the preflight, was that it does not exist. */
  predicate MissingFirst(log: Log, bucket: string) {
    ViewOf(log, bucket).missingFirst
  }

  /** Nothing recorded so far is a failure. */
  predicate AllWell(log: Log) {
    forall e | e in log && e.call.Record? :: Success(e.call.status)
  }

  /** Some save of the receipt did not succeed. */
  predicate FailedSave(log: Log) {
    exists e | e in log :: e.call.Persist? && !e.reply.Done?
  }

  /** Every key that encrypts a bucket, as far as the log has asked, is in `keys`, with its region. */
  predicate Names(keys: seq<Key>, log: Log) {
    forall e, id | e in log && e.call.GetEncryption? && e.reply.Rules? && id in e.reply.ids && id != "" :: Key(id, e.call.backend.region) in keys
  }

  /** All the discovered keys' identities are in a receipt that was saved. */
  predicate KeysSaved(log: Log) {
    exists e | e in log :: e.call.Persist? && e.reply.Done? && Names(e.call.keys, log)
  }

  /** The gate before anything is deleted from a bucket. */
  predicate MayTouch(log: Log, backends: seq<Backend>) {
    && AllWell(log) && KeysSaved(log)
    && forall b | b in backends :: Checked(log, b.bucket) || ViewOf(log, b.bucket).missing
  }

  predicate MaySchedule(log: Log, backends: seq<Backend>, key: Key) {
    && (forall b | b in backends :: ViewOf(log, b.bucket).known == Gone)
    && Entry(Confirm(key), Done) in log
  }

  predicate Touches(c: Call) {
    c.Purge? || c.Remove?
  }

  predicate DistinctBuckets(backends: seq<Backend>) {
    forall i, j | 0 <= i < j < |backends| :: backends[i].bucket != backends[j].bucket
  }

  /** What must hold before a call is made; a bucket is purged right after it was found. */
  predicate Gate(log: Log, backends: seq<Backend>, c: Call) {
    && (Touches(c) ==>
          && MayTouch(log, backends) && (exists b | b in backends :: b.bucket == c.bucket) && ViewOf(log, c.bucket).asked
          && (c.Purge? ==> ViewOf(log, c.bucket).known == There)
          && (DistinctBuckets(backends) ==> (Checked(log, c.bucket) <==> !MissingFirst(log, c.bucket))))
    && (c.Schedule? ==> MaySchedule(log, backends, c.key))
  }

  /** The order that a log keeps: each deletion and each scheduling stands behind its gate. */
  predicate Ordered(log: Log, backends: seq<Backend>) {
    forall n | 0 <= n < |log| :: Gate(log[..n], backends, log[n].call)
  }

  lemma OrderedGrows(log: Log, backends: seq<Backend>, e: Entry)
    requires Ordered(log, backends) && Gate(log, backends, e.call)
    ensures Ordered(log + [e], backends)
  {
    var all := log + [e];
    forall n | 0 <= n < |all| ensures Gate(all[..n], backends, all[n].call) {
      if n < |log| {
        assert all[..n] == log[..n] && all[n] == log[n];
      } else {
        assert all[..n] == log;
      }
    }
  }

  // ---- Which buckets are purged unchecked ----

  /** What was answered first stays what was answered first. */
  lemma {:induction false} FirstAnswerStays(log: Log, n: nat, bucket: string)
    requires n <= |log| && ViewOf(log[..n], bucket).asked
    ensures ViewOf(log, bucket).asked && MissingFirst(log, bucket) == MissingFirst(log[..n], bucket)
    decreases |log|
  {
    if n < |log| {
      var init := log[..|log| - 1];
      assert init[..n] == log[..n];
      FirstAnswerStays(init, n, bucket);
    } else {
      assert log[..n] == log;
    }
  }

  predicate TouchesAt(log: Log, n: int) {
    0 <= n < |log| && Touches(log[n].call)
  }

  /**
   With distinct buckets, a bucket is touched without having passed its scope check exactly when the preflight
   answered that it is missing and it is touched all the same, because its deletion step finds it.
   */
  lemma UncheckedIff(log: Log, backends: seq<Backend>)
    requires Ordered(log, backends) && DistinctBuckets(backends)
    ensures forall n | TouchesAt(log, n) :: !Checked(log[..n], log[n].call.bucket) <==> MissingFirst(log, log[n].call.bucket)
    ensures (forall n | TouchesAt(log, n) :: Checked(log[..n], log[n].call.bucket))
            <==> (forall n | TouchesAt(log, n) :: !MissingFirst(log, log[n].call.bucket))
  {
    forall n | TouchesAt(log, n) ensures !Checked(log[..n], log[n].call.bucket) <==> MissingFirst(log, log[n].call.bucket) {
      assert Gate(log[..n], backends, log[n].call);
      FirstAnswerStays(log, n, log[n].call.bucket);
    }
  }

  // ---- How facts about a log last ----

  /** Entries that cannot close a gate that was open. */
  predicate Harmless(e: Entry) {
    !e.call.GetEncryption? && (e.call.Record? ==> Success(e.call.status))
  }

  lemma NamesGrow(keys: seq<Key>, log: Log, e: Entry)
    requires Names(keys, log) && !e.call.GetEncryption?
    ensures Names(keys, log + [e])
  {
  }

  lemma MayTouchGrows(log: Log, backends: seq<Backend>, e: Entry)
    requires MayTouch(log, backends) && Harmless(e)
    ensures MayTouch(log + [e], backends)
  {
    var x :| x in log && x.call.Persist? && x.reply.Done? && Names(x.call.keys, log);
    NamesGrow(x.call.keys, log, e);
    assert x in log + [e];
    forall b | b in backends ensures Checked(log + [e], b.bucket) || ViewOf(log + [e], b.bucket).missing {
      ViewAfter(log, e, b.bucket);
    }
  }

  lemma FailedSaveGrows(log: Log, e: Entry)
    ensures FailedSave(log + [e]) <==> FailedSave(log) || (e.call.Persist? && !e.reply.Done?)
  {
    assert forall x | x in log :: x in log + [e];
    assert e in log + [e];
  }

  /** The gate opens once all results are good, every bucket has passed, and the keys' identities are saved. */
  lemma GateOpens(log: Log, backends: seq<Backend>)
    requires AllWell(log) && KeysSaved(log) && Passed(log, backends, |backends|)
    ensures MayTouch(log, backends)
  {
    forall b | b in backends ensures Checked(log, b.bucket) || ViewOf(log, b.bucket).missing {
      var k :| 0 <= k < |backends| && backends[k] == b;
    }
  }

  predicate Passed(log: Log, backends: seq<Backend>, n: int) {
    forall k | 0 <= k < n && k < |backends| ::
      ViewOf(log, backends[k].bucket).asked && (Checked(log, backends[k].bucket) || ViewOf(log, backends[k].bucket).missing)
  }

  /** Each bucket from `from` on, up to `n`, passed its check or was answered as missing first, not both. */
  predicate Exact(log: Log, backends: seq<Backend>, from: int, n: int) {
    forall k | 0 <= from <= k < n && k < |backends| ::
      Checked(log, backends[k].bucket) <==> !MissingFirst(log, backends[k].bucket)
  }

  predicate NotYet(log: Log, backends: seq<Backend>, n: int) {
    forall k | 0 <= n <= k < |backends| :: ViewOf(log, backends[k].bucket) == BLANK
  }

  predicate AllGone(log: Log, backends: seq<Backend>, n: int) {
    forall k | 0 <= k < n && k < |backends| :: ViewOf(log, backends[k].bucket).known == Gone
  }

  lemma GoneForAll(log: Log, backends: seq<Backend>)
    requires AllGone(log, backends, |backends|)
    ensures forall b | b in backends :: ViewOf(log, b.bucket).known == Gone
  {
    forall b | b in backends ensures ViewOf(log, b.bucket).known == Gone {
      var k :| 0 <= k < |backends| && backends[k] == b;
    }
  }
}
