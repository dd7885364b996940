/**
 How the registry processes one change: a read, a conditional update and, for a failed acquisition,
 another read, with the changes of other clients in between; and how a client sends a change up to
 three times. Both come out as if every processed request had taken place in one piece.
 */
module RegistryService {
  import opened Basics
  import opened Registry

  /** Other clients do not use this client's token. */
  ghost predicate Strangers(others: nat -> seq<Change>, token: string) {
    forall n, c | c in others(n) :: TokenOf(c) != token
  }

  class Server {
    var record: Record
    var turn: nat
    const others: nat -> seq<Change>
    ghost const origin: Record
    ghost var history: seq<Change>

    constructor (r: Record, others: nat -> seq<Change>)
      ensures Valid() && record == r && history == [] && this.others == others
    {
      record, turn, origin, history := r, 0, r, [];
      this.others := others;
    }

    ghost predicate Valid()
      reads this
    {
      record == Processed(origin, history)
    }

    /** Other clients' changes. */
    method Others() returns (ghost cs: seq<Change>)
      requires Valid()
      modifies this
      ensures Valid() && record == Processed(old(record), cs) && history == old(history) + cs && cs == others(old(turn))
    {
      cs := others(turn);
      ProcessedAppend(origin, history, cs);
      record := Processed(record, others(turn));
      history := history + cs;
      turn := turn + 1;
    }

    ghost method Note(c: Change, before: Record)
      requires before == Processed(origin, history) && record == Process(before, c).0
      modifies this`history
      ensures Valid() && history == old(history) + [c]
    {
      ProcessedAppend(origin, history, [c]);
      ProcessedOne(before, c);
      history := history + [c];
    }

    /** The store's conditional update. */
    method Update(c: Change) returns (committed: bool)
      requires c.Begin? ==> c.token != ""
      modifies this`record
      ensures committed == (if c.Begin? then old(record).lock == "" && old(record).lastToken != c.token else Holds(old(record), c.receipt))
      ensures record == if committed then Updated(old(record), c) else old(record)
    {
      committed := if c.Begin? then record.lock == "" && record.lastToken != c.token else Holds(record, c.receipt);
      if !committed {
        return;
      }
      match c {
        case Begin(token) =>
          record := record.(lock := token);
          record := record.(revision := record.revision + 1);
        case Publish(receipt, config, at) =>
          var entry := Entry(config, receipt.revision, at);
          if record.entry.Some? && !record.deleted && record.entry.value.config == config {
            entry := record.entry.value;
          }
          record := record.(lastToken := receipt.token, entry := Some(entry), deleted := false);
          record := record.(lock := "");
        case Retire(_) =>
          record := record.(deleted := true);
          record := record.(entry := None);
        case Delete(receipt) =>
          record := record.(lastToken := receipt.token, deleted := true);
          record := record.(lock := "", entry := None);
        case Abandon(receipt) =>
          record := record.(lastToken := receipt.token);
          record := record.(lock := "");
      }
    }

    method Acquire(token: string) returns (a: Answer)
      requires Valid() && token != "" && Strangers(others, token)
      modifies this
      ensures Valid() && Linear(origin, old(history), history, Begin(token), a)
    {
      ghost var start, c := history, Begin(token);
      ghost var cs := Others();
      var current := record;
      if current.lock == token || current.lastToken == token {
        a := if current.lock == token then Granted(Receipt(token, current.revision)) else Conflict;
        Note(c, record);
        LinearBy(origin, start, cs, c, [], a);
        return;
      }
      ghost var more := Others();
      SpentTokenStaysOut(current, more, token);
      var committed := BeginOnce(token);
      assert start + cs + more == start + (cs + more);
      if committed {
        a := Granted(Receipt(token, record.revision));
        LinearBy(origin, start, cs + more, c, [], a);
        return;
      }
      ghost var refused := record;
      ghost var last := Others();
      SpentTokenStaysOut(refused, last, token);
      var latest := record;
      a := if latest.lock == token then Granted(Receipt(token, latest.revision)) else Conflict;
      LinearBy(origin, start, cs + more, c, last, a);
    }

    method Apply(c: Change) returns (a: Answer)
      requires Valid() && !c.Begin? && Strangers(others, c.receipt.token)
      modifies this
      ensures Valid() && Linear(origin, old(history), history, c, a)
    {
      ghost var start := history;
      ghost var cs := Others();
      var current := record;
      var known := c.receipt.token != "" && c.receipt.revision >= 1;
      if !known || current.revision != c.receipt.revision
         || (current.lock == "" && current.lastToken == c.receipt.token && Replayed(current, c))
      {
        a := if !known then Invalid else if current.revision != c.receipt.revision then Conflict else Done;
        Note(c, record);
        LinearBy(origin, start, cs, c, [], a);
        return;
      }
      ghost var more := Others();
      NotReplayed(current, more, c);
      a := UpdateOnce(c);
      assert start + cs + more == start + (cs + more);
      LinearBy(origin, start, cs + more, c, [], a);
    }

    /** The conditional update of an acquisition whose token does not hold the lock. */
    method BeginOnce(token: string) returns (committed: bool)
      requires Valid() && token != "" && record.lock != token
      modifies this`record, this`history
      ensures Valid() && history == old(history) + [Begin(token)] && record == Process(old(record), Begin(token)).0
      ensures Process(old(record), Begin(token)).1 == if committed then Granted(Receipt(token, record.revision)) else Conflict
      ensures !committed ==> record == old(record)
    {
      ghost var before := record;
      committed := Update(Begin(token));
      Note(Begin(token), before);
    }

    /** The conditional update of a change that is no replay. */
    method UpdateOnce(c: Change) returns (a: Answer)
      requires Valid() && !c.Begin? && c.receipt.token != "" && c.receipt.revision >= 1
      requires record.revision == c.receipt.revision ==> !Replayed(record, c)
      modifies this`record, this`history
      ensures Valid() && history == old(history) + [c] && a == Process(old(record), c).1
    {
      ghost var before := record;
      var committed := Update(c);
      Note(c, before);
      a := if committed then Done else Conflict;
    }
  }

  /** The change took place in one piece, between other clients' changes. */
  ghost predicate Linear(origin: Record, before: seq<Change>, history: seq<Change>, c: Change, a: Answer) {
    exists cs, ds {:trigger before + cs + [c] + ds} ::
      history == before + cs + [c] + ds && a == Process(Processed(origin, before + cs), c).1
  }

  lemma LinearBy(origin: Record, before: seq<Change>, cs: seq<Change>, c: Change, ds: seq<Change>, a: Answer)
    requires a == Process(Processed(origin, before + cs), c).1
    ensures Linear(origin, before, before + cs + [c] + ds, c, a)
  {
  }

  /** What was no replay at the read is none at the update either. */
  lemma {:induction false} NotReplayed(r: Record, cs: seq<Change>, c: Change)
    requires !c.Begin? && !Replayed(r, c) && r.revision == c.receipt.revision && c.receipt.token != ""
    requires forall d | d in cs :: TokenOf(d) != c.receipt.token
    ensures Processed(r, cs).revision == c.receipt.revision ==> !Replayed(Processed(r, cs), c)
    decreases |cs|
  {
    if cs != [] {
      assert TokenOf(cs[0]) != c.receipt.token;
      var s := Process(r, cs[0]).0;
      if s.revision == r.revision {
        NotReplayed(s, cs[1..], c);
      } else {
        RevisionsRise(s, cs[1..]);
      }
    }
  }

  lemma {:induction false} RevisionsRise(r: Record, cs: seq<Change>)
    ensures r.revision <= Processed(r, cs).revision
    decreases |cs|
  {
    if cs != [] {
      RevisionsRise(Process(r, cs[0]).0, cs[1..]);
    }
  }

  // ---- The client (tools/deploy/internal/registry/client.go) ----

  datatype Outcome = Accepted(answer: Answer) | Superseded | Rejected | Unanswered

  /** What becomes of one attempt: it may not arrive, its answer may get lost, or the registry may be unavailable. */
  datatype Fate = NotSent | AnswerLost | Answered | Unavailable

  /**
   Up to three attempts. `server` is the record as the registry processes this client's requests; other
   clients' changes between two attempts are `others`. The trace lists what the registry processed.
   */
  method Send(c: Change, server: Record, others: nat -> seq<Change>, fate: nat -> Fate)
    returns (o: Outcome, after: Record, trace: seq<Change>)
    requires Strangers(others, TokenOf(c))
    ensures after == Processed(server, trace)
    ensures o.Accepted? ==> exists cs {:trigger cs + [c]} :: cs + [c] == trace && Process(Processed(server, cs), c).1 == o.answer
    ensures o.Accepted? ==> o.answer.Granted? || o.answer.Done?
    ensures o.Superseded? ==> exists cs {:trigger cs + [c]} :: cs + [c] == trace && Process(Processed(server, cs), c).1 == Conflict
    ensures multiset(trace)[c] <= 3
    ensures forall d | d in trace :: TokenOf(d) == TokenOf(c) ==> d == c
  {
    o, after, trace := Unanswered, server, [];
    var attempt := 0;
    while attempt < 3
      invariant 0 <= attempt <= 3 && o.Unanswered?
      invariant after == Processed(server, trace)
      invariant multiset(trace)[c] <= attempt
      invariant forall d | d in trace :: TokenOf(d) == TokenOf(c) ==> d == c
    {
      var cs := others(attempt);
      ProcessedAppend(server, trace, cs);
      assert multiset(cs)[c] == 0;
      after, trace := Processed(after, cs), trace + cs;
      match fate(attempt) {
        case NotSent =>
        case Unavailable =>
        case _ =>
          var processed := Process(after, c);
          ProcessedAppend(server, trace, [c]);
          ProcessedOne(after, c);
          ghost var earlier := trace;
          after, trace := processed.0, trace + [c];
          assert earlier + [c] == trace;
          if fate(attempt).Answered? {
            match processed.1 {
              case Conflict => return Superseded, after, trace;
              case Invalid => return Rejected, after, trace;
              case _ => return Accepted(processed.1), after, trace;
            }
          }
      }
      attempt := attempt + 1;
    }
  }
}
