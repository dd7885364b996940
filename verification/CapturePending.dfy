/** The sweep that turns stored work into queue jobs (awscapture/store.go `Pending`). */
module CapturePending {
  import opened Basics
  import opened CaptureModel
  import opened CaptureRules
  import opened CaptureWorld

  const PAGE := 100
  const PAGES := 10

  /** The table's captures, by name. */
  type Table = map<string, Record>

  /** An index entry is due when its item has that kind of work, not later than `now`. */
  predicate DueNow(t: Table, id: string, work: Work, now: int) {
    id in t && RecordItem(t[id]).index.Some? && RecordItem(t[id]).index.value.0 == work && RecordItem(t[id]).index.value.1 <= now
  }

  /** The index lists every due capture of one kind, once, in some order. */
  ghost predicate Lists(ids: seq<string>, t: Table, work: Work, now: int) {
    && (forall id :: id in ids <==> DueNow(t, id, work, now))
    && (forall i, j | 0 <= i < j < |ids| :: ids[i] != ids[j])
  }

  datatype Sent = Sent(id: string, job: Job)

  function JobsOf(ids: seq<string>, t: Table): seq<Sent>
    requires forall id | id in ids :: id in t
  {
    if ids == [] then [] else [Sent(ids[0], Job(t[ids[0]].generation, t[ids[0]].work))] + JobsOf(ids[1..], t)
  }

  lemma {:induction false} JobsAppend(ids: seq<string>, id: string, t: Table)
    requires id in t && forall x | x in ids :: x in t
    ensures JobsOf(ids + [id], t) == JobsOf(ids, t) + [Sent(id, Job(t[id].generation, t[id].work))]
  {
    if ids == [] {
      assert ids + [id] == [id];
    } else {
      assert (ids + [id])[0] == ids[0] && (ids + [id])[1..] == ids[1..] + [id];
      JobsAppend(ids[1..], id, t);
    }
  }

  /** What one kind of work can send in one sweep. */
  function Reach(ids: seq<string>): seq<string> {
    if |ids| <= PAGE * PAGES then ids else ids[..PAGE * PAGES]
  }

  /** The first `n` jobs that a kind's sweep sends. */
  function Part(ids: seq<string>, t: Table, n: nat): seq<Sent>
    requires n <= |Reach(ids)| && forall id | id in ids :: id in t
  {
    JobsOf(Reach(ids)[..n], t)
  }

  /** Sends the items of up to ten pages; each page starts where the cursor of the one before it ended. A query or a send may fail. */
  method SweepKind(ids: seq<string>, t: Table, queries: nat -> bool, sends: nat -> bool) returns (sent: seq<Sent>, ok: bool)
    requires forall id | id in ids :: id in t
    ensures exists n: nat :: n <= |Reach(ids)| && sent == Part(ids, t, n) && (ok ==> n == |Reach(ids)|)
  {
    sent := [];
    var cursor, page := 0, 0;
    assert Reach(ids)[..0] == [];
    assert sent == Part(ids, t, 0);
    while page < PAGES
      invariant 0 <= page <= PAGES && 0 <= cursor <= |Reach(ids)|
      invariant cursor == PAGE * page
      invariant sent == Part(ids, t, cursor)
    {
      if !queries(page) {
        return sent, false;
      }
      var end := if cursor + PAGE <= |ids| then cursor + PAGE else |ids|;
      var n := cursor;
      while n < end
        invariant cursor <= n <= end <= |Reach(ids)|
        invariant sent == Part(ids, t, n)
      {
        if !sends(n) {
          return sent, false;
        }
        JobsAppend(Reach(ids)[..n], ids[n], t);
        assert Reach(ids)[..n + 1] == Reach(ids)[..n] + [ids[n]];
        sent := sent + [Sent(ids[n], Job(t[ids[n]].generation, t[ids[n]].work))];
        n := n + 1;
      }
      if end == |ids| {
        return sent, true;
      }
      cursor := end;
      page := page + 1;
    }
    ok := true;
  }

  /** One kind after the other: a later kind is begun only when the earlier ones were swept completely. */
  ghost predicate Swept(sent: seq<Sent>, t: Table, v: seq<string>, e: seq<string>, c: seq<string>, complete: bool) {
    exists i: nat, j: nat, k: nat ::
      && i <= |Reach(v)| && j <= |Reach(e)| && k <= |Reach(c)|
      && (forall id | id in v || id in e || id in c :: id in t)
      && sent == Part(v, t, i) + Part(e, t, j) + Part(c, t, k)
      && (j > 0 ==> i == |Reach(v)|) && (k > 0 ==> j == |Reach(e)|)
      && (complete ==> i == |Reach(v)| && j == |Reach(e)| && k == |Reach(c)|)
  }

  /** The whole sweep: validation, extraction, clean-up. */
  method Sweep(v: seq<string>, e: seq<string>, c: seq<string>, t: Table, queries: (Work, nat) -> bool, sends: (Work, nat) -> bool)
    returns (sent: seq<Sent>, ok: bool)
    requires forall id | id in v || id in e || id in c :: id in t
    ensures Swept(sent, t, v, e, c, ok)
  {
    sent, ok := SweepKind(v, t, (n: nat) => queries(Validate, n), (n: nat) => sends(Validate, n));
    ghost var i: nat :| i <= |Reach(v)| && sent == Part(v, t, i) && (ok ==> i == |Reach(v)|);
    assert sent == Part(v, t, i) + Part(e, t, 0) + Part(c, t, 0);
    if !ok {
      return;
    }
    var more;
    more, ok := SweepKind(e, t, (n: nat) => queries(Extract, n), (n: nat) => sends(Extract, n));
    ghost var j: nat :| j <= |Reach(e)| && more == Part(e, t, j) && (ok ==> j == |Reach(e)|);
    sent := sent + more;
    assert sent == Part(v, t, i) + Part(e, t, j) + Part(c, t, 0);
    if !ok {
      return;
    }
    more, ok := SweepKind(c, t, (n: nat) => queries(Cleanup, n), (n: nat) => sends(Cleanup, n));
    ghost var k: nat :| k <= |Reach(c)| && more == Part(c, t, k) && (ok ==> k == |Reach(c)|);
    sent := sent + more;
  }

  lemma {:induction false} JobFor(ids: seq<string>, t: Table, id: string)
    requires id in ids && forall x | x in ids :: x in t
    ensures Sent(id, Job(t[id].generation, t[id].work)) in JobsOf(ids, t)
  {
    if ids[0] != id {
      JobFor(ids[1..], t, id);
    }
  }

  /** Of the three kinds' entries, those of this kind. */
  function OfKind(work: Work, v: seq<string>, e: seq<string>, c: seq<string>): seq<string> {
    match work
    case Validate => v
    case Extract => e
    case Cleanup => c
    case NoWork => []
  }

  /**
   A complete sweep sends a job for every capture with due work, unless more than a thousand of its
   kind are due, and a worker that gets the job while the record is unchanged accepts it.
   */
  lemma DueWorkIsSent(sent: seq<Sent>, v: seq<string>, e: seq<string>, c: seq<string>, t: Table, now: int, id: string, cap: Cap, at: int, j: nat)
    requires Lists(v, t, Validate, now) && Lists(e, t, Extract, now) && Lists(c, t, Cleanup, now) && Swept(sent, t, v, e, c, true)
    requires id in t && !t[id].work.NoWork? && t[id].due <= now && cap.rec == t[id]
    requires |OfKind(t[id].work, v, e, c)| <= PAGE * PAGES
    ensures var job := Job(t[id].generation, t[id].work);
            && Sent(id, job) in sent
            && j in Deliver(cap, at, j, job).workers && Deliver(cap, at, j, job).workers[j] == Worker(t[id], at, at, Loaded)
  {
    var work := t[id].work;
    assert DueNow(t, id, work, now);
    var ids := OfKind(work, v, e, c);
    JobFor(ids, t, id);
    assert Reach(ids)[..|Reach(ids)|] == ids;
    assert sent == Part(v, t, |Reach(v)|) + Part(e, t, |Reach(e)|) + Part(c, t, |Reach(c)|);
  }
}
