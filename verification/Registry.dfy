/** The registry's record of an environment and the changes that are fenced by its lock (registry/registry.go). */
module Registry {
  import opened Basics

  /** The public configuration; its hash stands for it. */
  datatype Entry = Entry(config: string, revision: int, updatedAt: string)

  /** An empty lock or last token stands for an absent attribute. */
  datatype Record = Record(revision: int, lock: string, entry: Option<Entry>, deleted: bool, lastToken: string)

  const NO_RECORD := Record(0, "", None, false, "")

  datatype Receipt = Receipt(token: string, revision: int)

  datatype Change =
    | Begin(token: string)
    | Publish(receipt: Receipt, config: string, at: string)
    | Retire(receipt: Receipt)
    | Delete(receipt: Receipt)
    | Abandon(receipt: Receipt)

  datatype Answer = Granted(receipt: Receipt) | Done | Conflict | Invalid

  function TokenOf(c: Change): string {
    if c.Begin? then c.token else c.receipt.token
  }

  /** A repeated change whose first processing already released the lock. */
  predicate Replayed(r: Record, c: Change)
    requires !c.Begin?
  {
    r.lock == "" && r.lastToken == c.receipt.token
    && (c.Abandon? || (c.Delete? && r.deleted) || (c.Publish? && !r.deleted && r.entry.Some? && r.entry.value.config == c.config))
  }

  function EntryAfter(r: Record, c: Change): Entry
    requires c.Publish?
  {
    if r.entry.Some? && !r.deleted && r.entry.value.config == c.config then r.entry.value else Entry(c.config, c.receipt.revision, c.at)
  }

  /** The conditional update's effect once its condition holds. */
  function Updated(r: Record, c: Change): Record {
    match c
    case Begin(token) => r.(lock := token, revision := r.revision + 1)
    case Publish(receipt, _, _) => r.(lastToken := receipt.token, entry := Some(EntryAfter(r, c)), deleted := false, lock := "")
    case Retire(_) => r.(deleted := true, entry := None)
    case Delete(receipt) => r.(lastToken := receipt.token, deleted := true, lock := "", entry := None)
    case Abandon(receipt) => r.(lastToken := receipt.token, lock := "")
  }

  predicate Holds(r: Record, receipt: Receipt) {
    r.lock == receipt.token && r.revision == receipt.revision
  }

  /** A change processed in one piece: the new record and the answer. */
  function Process(r: Record, c: Change): (Record, Answer) {
    if TokenOf(c) == "" || (!c.Begin? && c.receipt.revision < 1) then (r, Invalid)
    else if c.Begin? then
      if r.lock == c.token then (r, Granted(Receipt(c.token, r.revision)))
      else if r.lock == "" && r.lastToken != c.token then (Updated(r, c), Granted(Receipt(c.token, r.revision + 1)))
      else (r, Conflict)
    else if r.revision != c.receipt.revision then (r, Conflict)
    else if Replayed(r, c) then (r, Done)
    else if Holds(r, c.receipt) then (Updated(r, c), Done)
    else (r, Conflict)
  }

  function Processed(r: Record, cs: seq<Change>): Record
    decreases |cs|
  {
    if cs == [] then r else Processed(Process(r, cs[0]).0, cs[1..])
  }

  lemma {:induction false} ProcessedAppend(r: Record, cs: seq<Change>, ds: seq<Change>)
    ensures Processed(r, cs + ds) == Processed(Processed(r, cs), ds)
    decreases |cs|
  {
    if cs == [] {
      assert cs + ds == ds;
    } else {
      assert (cs + ds)[0] == cs[0] && (cs + ds)[1..] == cs[1..] + ds;
      ProcessedAppend(Process(r, cs[0]).0, cs[1..], ds);
    }
  }

  lemma ProcessedOne(r: Record, c: Change)
    ensures Processed(r, [c]) == Process(r, c).0
  {
    assert Processed(r, [c]) == Processed(Process(r, c).0, [c][1..]);
  }

  // ---- The fence ----

  /** Apart from an acquisition, only the holder of the lock, with the revision of its acquisition, changes the record. */
  lemma OnlyTheHolderWrites(r: Record, c: Change)
    requires Process(r, c).0 != r
    ensures if c.Begin? then r.lock == "" && Process(r, c).0 == Updated(r, c) else Holds(r, c.receipt)
    ensures r.revision <= Process(r, c).0.revision <= r.revision + 1
    ensures Process(r, c).0.revision == r.revision + 1 <==> c.Begin?
  {
  }

  /** Once somebody else has acquired the lock, no change with the old receipt is ever applied again. */
  lemma {:induction false} SupersededNeverCommits(r: Record, receipt: Receipt, cs: seq<Change>, c: Change)
    requires receipt.revision < r.revision && !c.Begin? && c.receipt == receipt
    ensures var s := Processed(r, cs); Process(s, c).0 == s && (Process(s, c).1 == Conflict || Process(s, c).1 == Invalid)
    decreases |cs|
  {
    if cs != [] {
      SupersededNeverCommits(Process(r, cs[0]).0, receipt, cs[1..], c);
    }
  }

  /** Sending a change again after its answer was lost has no second effect and gets a favourable answer again. */
  lemma RetryIsHarmless(r: Record, c: Change)
    requires !Process(r, c).1.Conflict? && !Process(r, c).1.Invalid?
    ensures var once := Process(r, c); Process(once.0, c) == once
  {
  }

  /** While the lock is taken, changes by others leave the record as it is. */
  lemma {:induction false} OthersAreShutOut(r: Record, cs: seq<Change>, token: string)
    requires r.lock == token != "" && forall c | c in cs :: TokenOf(c) != token
    ensures Processed(r, cs) == r
    decreases |cs|
  {
    if cs != [] {
      assert TokenOf(cs[0]) != token;
      OthersAreShutOut(Process(r, cs[0]).0, cs[1..], token);
    }
  }

  /** A token that was used and is not the lock cannot come back. */
  lemma {:induction false} SpentTokenStaysOut(r: Record, cs: seq<Change>, token: string)
    requires r.lock != token && token != "" && forall c | c in cs :: TokenOf(c) != token
    ensures Processed(r, cs).lock != token
    decreases |cs|
  {
    if cs != [] {
      assert TokenOf(cs[0]) != token;
      SpentTokenStaysOut(Process(r, cs[0]).0, cs[1..], token);
    }
  }
}
