/**
 The recovery clean-up as a function of the providers' answers (tools/deploy/internal/workflow/nuke_recovery.go,
 nuke_report.go, nuke.go): every call is answered by the next answer, and goes into the log with it.
 */
module NukeRun {
  import opened NukeModel

  datatype Setting = Setting(backends: seq<Backend>, account: string, answers: nat -> Reply)

  datatype State = State(results: seq<Status>, keys: seq<Key>, persistErr: bool, log: Log)

  function Asked(x: Setting, s: State, c: Call): State {
    s.(log := s.log + [Entry(c, x.answers(|s.log|))])
  }

  function Saved(x: Setting, s: State): State {
    Asked(x, s, Persist(s.keys)).(persistErr := s.persistErr || x.answers(|s.log|) != Done)
  }

  /** Appends a result and saves the receipt; a save that fails sets the flag. */
  function Noted(x: Setting, s: State, status: Status): State {
    Saved(x, s.(results := s.results + [status], log := s.log + [Entry(Record(status), Done)]))
  }

  // ---- Preflight ----

  function Scoped(x: Setting, s: State, bucket: string): (State, bool) {
    var s1 := Asked(x, s, ListStacks(bucket));
    if x.answers(|s.log|) != Stacks(0) then (Noted(x, s1, Failed), false)
    else
      var s2 := Asked(x, s1, ListObjects(bucket));
      var objects := x.answers(|s1.log|);
      if objects.Keys? && AllOurs(objects.keys) then (s2, true) else (Noted(x, s2, Failed), false)
  }

  function WithKeys(keys: seq<Key>, ids: seq<string>, region: string): seq<Key> {
    if ids == [] then keys
    else
      var n := |ids| - 1;
      var before := WithKeys(keys, ids[..n], region);
      if ids[n] == "" || Key(ids[n], region) in before then before else before + [Key(ids[n], region)]
  }

  function Inventoried(x: Setting, s: State, b: Backend): State {
    var s1 := Asked(x, s, GetEncryption(b));
    var rules := x.answers(|s.log|);
    if rules.Missing? then s1
    else if !rules.Rules? || rules.ids == [] then Noted(x, s1, Failed)
    else s1.(keys := WithKeys(s1.keys, rules.ids, b.region))
  }

  function Preflighted(x: Setting, s: State, b: Backend): State {
    var s1 := Asked(x, s, Head(b.bucket));
    var head := x.answers(|s.log|);
    if head.Missing? then s1
    else if !head.Found? then Noted(x, s1, Failed)
    else
      var scoped := Scoped(x, s1, b.bucket);
      if scoped.1 then Inventoried(x, scoped.0, b) else scoped.0
  }

  function AllPreflighted(x: Setting, s: State, n: nat): State
    requires n <= |x.backends|
    decreases |x.backends| - n
  {
    if n == |x.backends| then s else AllPreflighted(x, Preflighted(x, s, x.backends[n]), n + 1)
  }

  /** What the description of a key calls for: a result, or the operator's confirmation of its full name. */
  datatype KeyVerdict = Reports(status: Status) | NeedsConfirmation(key: Key)

  function VerdictOf(x: Setting, key: Key, described: Reply): KeyVerdict {
    if described.Missing? then Reports(Absent)
    else if !described.Described? || described.metadata.arn == "" then Reports(Failed)
    else
      var m := described.metadata;
      if m.manager == "AWS" then Reports(Info)
      else if m.manager != "CUSTOMER" || !("arn:aws:kms:" + key.region + ":" + x.account + ":key/" <= m.arn) then Reports(Failed)
      else if m.state.PendingDeletion? then Reports(Scheduled)
      else if m.state.OtherState? || m.hasReplicas then Reports(Failed)
      else NeedsConfirmation(Key(m.arn, key.region))
  }

  function KeyChecked(x: Setting, s: State, key: Key): (State, seq<Key>) {
    var s1 := Asked(x, s, Describe(key));
    match VerdictOf(x, key, x.answers(|s.log|))
    case Reports(status) => (Noted(x, s1, status), [])
    case NeedsConfirmation(id) =>
      var s2 := Asked(x, s1, Confirm(id));
      if x.answers(|s1.log|) == Done then (s2, [id]) else (Noted(x, s2, Failed), [])
  }

  function KeysChecked(x: Setting, s: State, n: nat, customers: seq<Key>): (State, seq<Key>)
    requires n <= |s.keys|
    decreases |s.keys| - n
  {
    if n == |s.keys| then (s, customers)
    else
      var checked := KeyChecked(x, s, s.keys[n]);
      KeysChecked(x, checked.0, n + 1, if checked.1 != [] && checked.1[0] !in customers then customers + checked.1 else customers)
  }

  // ---- Deletion ----

  function Existing(x: Setting, s: State, bucket: string): (State, Knowledge) {
    (Asked(x, s, Head(bucket)), KnowledgeOf(x.answers(|s.log|)))
  }

  function Removed(x: Setting, s: State, bucket: string): (State, bool) {
    var s1 := Asked(x, s, Purge(bucket));
    if x.answers(|s.log|) != Done then (s1, false) else (Asked(x, s1, Remove(bucket)), x.answers(|s1.log|) == Done)
  }

  /** One step: it counts as done only when the bucket reads back as absent. */
  function Stepped(x: Setting, s: State, bucket: string): (State, Status) {
    var found := Existing(x, s, bucket);
    if !found.1.There? then (found.0, if found.1.Gone? then Absent else Failed)
    else
      var removed := Removed(x, found.0, bucket);
      var again := Existing(x, removed.0, bucket);
      (again.0, if !removed.1 then (if again.1.Gone? then Deleted else Failed)
                else match again.1 case Gone => Deleted case There => Remains case Unknown => Unverified)
  }

  function AllDeleted(x: Setting, s: State, n: nat): (State, bool)
    requires n <= |x.backends|
    decreases |x.backends| - n
  {
    if n == |x.backends| then (s, true)
    else
      var stepped := Stepped(x, s, x.backends[n].bucket);
      var noted := Noted(x, stepped.0, stepped.1);
      if !Successful(noted.results) || noted.persistErr then (noted, false) else AllDeleted(x, noted, n + 1)
  }

  function AfterScheduling(described: Reply): Status {
    if described.Missing? then Absent else if !described.Described? || described.metadata.arn == "" then Failed
    else if described.metadata.state.PendingDeletion? then Scheduled else Unverified
  }

  function ScheduledOne(x: Setting, s: State, key: Key): State {
    var s1 := Asked(x, s, Schedule(key));
    if x.answers(|s.log|) != Done then Noted(x, s1, Failed) else Noted(x, Asked(x, s1, Describe(key)), AfterScheduling(x.answers(|s1.log|)))
  }

  function AllScheduled(x: Setting, s: State, customers: seq<Key>, n: nat): State
    requires n <= |customers|
    decreases |customers| - n
  {
    if n == |customers| then s else AllScheduled(x, ScheduledOne(x, s, customers[n]), customers, n + 1)
  }

  /** The state in which the deletions begin, with the keys to be scheduled, when the clean-up gets there. */
  datatype Start = NotReached(end: State) | Reached(begin: State, customers: seq<Key>)

  function Preflight(x: Setting, s: State): Start
    requires s.log == []
  {
    if !Successful(s.results) || s.persistErr then NotReached(s)
    else
      var s1 := AllPreflighted(x, s, 0);
      if !Successful(s1.results) then NotReached(s1)
      else
        var checked := KeysChecked(x, s1, 0, []);
        if !Successful(checked.0.results) then NotReached(checked.0)
        else
          var s3 := Saved(x, checked.0);
          if x.answers(|checked.0.log|) != Done then NotReached(s3) else Reached(s3, checked.1)
  }

  function Cleanup(x: Setting, s: State): State
    requires s.log == []
  {
    match Preflight(x, s)
    case NotReached(end) => end
    case Reached(begin, customers) =>
      var deleted := AllDeleted(x, begin, 0);
      if deleted.1 then AllScheduled(x, deleted.0, customers, 0) else deleted.0
  }
}
