/**
 The e-mail service as it executes (email/service.go, awsstore/store.go, awsidentity/identity.go), one
 table access or provider call at a time while everything else goes on. `history` lists what happened
 since the empty table, so every theorem about runs is one about this code.
 */
module EmailService {
  import opened Basics
  import opened EmailModel
  import opened EmailWorld
  import opened EmailInvariant

  /** Events in the name of confirmation `i` or resend `k`. */
  predicate Concerns(e: Event, i: nat, k: nat) {
    match e
    case ReadsForResend(n, _) => n == k
    case FindsAbsentForResend(n) => n == k
    case Reads(n, _) => n == i
    case FindsAbsent(n, _, _) => n == i
    case Recovers(n, _) => n == i
    case ShowsToken(n, _) => n == i
    case ShowsCode(n, _, _, _) => n == i
    case Misses(n, _) => n == i
    case Claims(n, _, _) => n == i
    case CreatesUser(n, _, _) => n == i
    case IsRefused(n) => n == i
    case Fails(n) => n == i
    case Finishes(n, _) => n == i
    case Issues(n) => n == i
    case Ends(n) => n == i
    case _ => false
  }

  predicate Apart(w: World, v: World, i: nat, k: nat) {
    && w.now <= v.now
    && (i in w.confirmations <==> i in v.confirmations) && (i in w.confirmations ==> v.confirmations[i] == w.confirmations[i])
    && (k in w.resends ==> k in v.resends && v.resends[k] == w.resends[k])
  }

  lemma SwapApart(w: World, n: nat, next: Transaction, stage: Stage, i: nat, k: nat)
    requires n != i && n in w.confirmations
    ensures Apart(w, Swap(w, n, next, stage), i, k) && Apart(w, Move(w, n, stage), i, k)
  {
  }

  lemma SwapsApart(w: World, n: nat, i: nat, k: nat, t: int, reported: bool)
    requires n != i
    ensures Apart(w, Recover(w, n, reported), i, k) && Apart(w, Claim(w, n, t, reported), i, k)
    ensures Apart(w, Fail(w, n), i, k) && Apart(w, Finish(w, n, reported), i, k)
  {
    if n in w.confirmations {
      var r, stage := w.confirmations[n].copy, w.confirmations[n].stage;
      SwapApart(w, n, Recovered(r), if reported then Loaded else Ended, i, k);
      SwapApart(w, n, Claimed(r, t), if reported then Claiming else Ended, i, k);
      SwapApart(w, n, MarkedFailed(r), Ended, i, k);
      if stage.Created? {
        SwapApart(w, n, Done(r, stage.subject), if reported then Finished else Ended, i, k);
      }
      hide Swap;
    }
  }

  lemma MissApart(w: World, n: nat, i: nat, k: nat, reported: bool)
    requires n != i
    ensures Apart(w, Miss(w, n, reported), i, k) && Apart(w, Issue(w, n), i, k)
  {
  }

  lemma ShowsApart(w: World, n: nat, i: nat, k: nat, t: int, t2: int, subject: string, reported: bool)
    requires n != i
    ensures Apart(w, CreateUser(w, n, subject, reported), i, k)
    ensures Apart(w, FindAbsent(w, n, t, t2), i, k) && Apart(w, ShowToken(w, n, t), i, k) && Apart(w, ShowCode(w, n, t, t2, reported), i, k)
  {
  }

  lemma SignUpApart(w: World, id: string, email: string, challenge: Digest, link: string, code: string, t: int, i: nat, k: nat)
    ensures Apart(w, SignUp(w, id, email, challenge, link, code, t), i, k)
  {
  }

  lemma RotateApart(w: World, n: nat, link: string, code: string, t: int, i: nat, k: nat)
    ensures Apart(w, Rotate(w, n, link, code, t), i, k)
  {
  }

  lemma OthersLeaveAlone(w: World, e: Event, i: nat, k: nat)
    requires !Concerns(e, i, k)
    ensures Apart(w, Step(w, e), i, k)
  {
    hide FindAbsent, Recover, ShowToken, ShowCode, Miss, Claim, CreateUser, Fail, Finish, Issue, SignUp, Rotate, Charge, Acts;
    match e
    case SignsUp(id, email, challenge, link, code, t) => SignUpApart(w, id, email, challenge, link, code, t, i, k);
    case Rotates(n, link, code, t) => RotateApart(w, n, link, code, t, i, k);
    case FindsAbsent(n, t1, t2) => ShowsApart(w, n, i, k, t1, t2, "", true);
    case Recovers(n, reported) => SwapsApart(w, n, i, k, 0, reported);
    case ShowsToken(n, t) => ShowsApart(w, n, i, k, t, t, "", true);
    case ShowsCode(n, t, t2, reported) => ShowsApart(w, n, i, k, t, t2, "", reported);
    case Misses(n, reported) => MissApart(w, n, i, k, reported);
    case Claims(n, t, reported) => SwapsApart(w, n, i, k, t, reported);
    case CreatesUser(n, subject, reported) => ShowsApart(w, n, i, k, 0, 0, subject, reported);
    case Fails(n) => SwapsApart(w, n, i, k, 0, true);
    case Finishes(n, reported) => SwapsApart(w, n, i, k, 0, reported);
    case Issues(n) => MissApart(w, n, i, k, true);
    case _ =>
  }

  lemma {:induction false} OthersRun(w: World, es: seq<Event>, i: nat, k: nat)
    requires forall e | e in es :: !Concerns(e, i, k)
    ensures Apart(w, Run(w, es), i, k)
    decreases |es|
  {
    hide Step, Concerns;
    if es != [] {
      OthersLeaveAlone(w, es[0], i, k);
      OthersRun(Step(w, es[0]), es[1..], i, k);
    }
  }

  ghost predicate Follows(history: seq<Event>, w: World) {
    w == Run(EMPTY, history)
  }

  /** The others do not act in this confirmation's or this resend's name. */
  ghost predicate Fair(others: nat -> seq<Event>, i: nat, k: nat) {
    forall n, e | e in others(n) :: !Concerns(e, i, k)
  }

  lemma FollowsOn(history: seq<Event>, w: World, es: seq<Event>)
    requires Follows(history, w)
    ensures Follows(history + es, Run(w, es))
  {
    RunAppend(EMPTY, history, es);
  }

  lemma FollowsStep(history: seq<Event>, w: World, e: Event)
    requires Follows(history, w)
    ensures Follows(history + [e], Step(w, e))
  {
    FollowsOn(history, w, [e]);
    assert Run(w, [e]) == Run(Step(w, e), [e][1..]);
  }

  lemma FollowsInv(history: seq<Event>, w: World)
    requires Follows(history, w)
    ensures Inv(w)
  {
    EmptyInv();
    RunKeeps(EMPTY, history);
  }

  lemma OthersTurn(others: nat -> seq<Event>, turn: nat, w: World, i: nat, k: nat)
    requires Fair(others, i, k)
    ensures Apart(w, Run(w, others(turn)), i, k)
  {
    OthersRun(w, others(turn), i, k);
  }

  datatype Reply = Fine | Broken | Killed

  /** What `Confirm` answers; `Unavailable` stands for an operational error, `Gone` for an invocation that was ended. */
  datatype Answer =
    | Issued
    | Incorrect(remaining: int)
    | Limited
    | Invalid
    | Unusable
    | Used
    | Conflict
    | SignInRequired
    | Unavailable
    | Gone

  /** From `from` on, while confirmation `i` stands at `c`, the event is its conditional write. */
  ghost predicate Means(i: nat, c: Confirmation, from: int, e: Event, next: Transaction, stage: Stage) {
    forall w: World | i in w.confirmations && w.confirmations[i] == c && c.at <= from <= w.now && Alive(c, w.now)
      :: Step(w, e) == Swap(w, i, next, stage)
  }

  lemma MeansNow(w: World, i: nat, from: int, e: Event, next: Transaction, stage: Stage)
    requires i in w.confirmations && Means(i, w.confirmations[i], from, e, next, stage)
    requires w.confirmations[i].at <= from <= w.now && Alive(w.confirmations[i], w.now)
    ensures Step(w, e) == Swap(w, i, next, stage)
  {
  }

  class Service {
    var now: int
    var table: map<string, Transaction>
    var charges: map<(Budget, int), nat>
    var users: set<string>
    var confirmations: map<nat, Confirmation>
    var resends: map<nat, Resend>
    var log: Log
    var turn: nat
    const run: nat
    const resend: nat
    const others: nat -> seq<Event>
    const works: nat -> bool
    const lands: nat -> bool
    ghost var history: seq<Event>

    function Whole(): World
      reads this
    {
      World(now, table, charges, users, confirmations, resends, log)
    }

    ghost predicate Valid()
      reads this
    {
      Follows(history, Whole()) && Fair(others, run, resend)
    }

    constructor (i: nat, k: nat, others: nat -> seq<Event>, works: nat -> bool, lands: nat -> bool)
      requires Fair(others, i, k)
      ensures Valid() && history == [] && Whole() == EMPTY
    {
      now, table, charges, users, confirmations, resends, log := 0, map[], map[], {}, map[], map[], EMPTY.log;
      run, resend, turn, history := i, k, 0, [];
      this.others, this.works, this.lands := others, works, lands;
    }

    ghost method Note(before: World, e: Event)
      requires Follows(history, before) && Whole() == Step(before, e) && Fair(others, run, resend)
      modifies this`history
      ensures Valid() && history == old(history) + [e]
    {
      FollowsStep(history, before, e);
      history := history + [e];
    }

    method Become(w: World)
      modifies this
      ensures Whole() == w && turn == old(turn) && history == old(history)
    {
      now, table, charges, users := w.now, w.table, w.charges, w.users;
      confirmations, resends, log := w.confirmations, w.resends, w.log;
    }

    /** Whatever the others do next. */
    method Others()
      requires Valid()
      modifies this
      ensures Valid() && old(history) <= history && Apart(old(Whole()), Whole(), run, resend)
    {
      hide Follows, Run, Fair;
      var es := others(turn);
      OthersTurn(others, turn, Whole(), run, resend);
      FollowsOn(history, Whole(), es);
      Become(Run(Whole(), es));
      history := history + es;
      turn := turn + 1;
    }

    /** The caller's next moment: others act first, the runtime may have ended it, or the call may go wrong. */
    method Await(at: int) returns (reply: Reply)
      requires Valid()
      modifies this
      ensures Valid() && old(history) <= history && Apart(old(Whole()), Whole(), run, resend)
      ensures reply.Killed? <==> now > at + REQUEST_LIMIT
    {
      hide Follows, Fair, Run;
      Others();
      reply := if now > at + REQUEST_LIMIT then Killed else if works(turn) then Fine else Broken;
    }

    // ---- The table (awsstore/store.go) ----

    method Swap(copy: Transaction, next: Transaction) returns (committed: bool)
      modifies this`table
      ensures committed == (copy.id in old(table) && old(table)[copy.id].version == copy.version && old(table)[copy.id].state == copy.state)
      ensures table == if committed then old(table)[copy.id := next] else old(table)
    {
      committed := copy.id in table && table[copy.id].version == copy.version && table[copy.id].state == copy.state;
      if committed {
        table := table[copy.id := next];
      }
    }

    /** One more use of an hourly budget, unless it is used up. */
    method Charge(b: Budget, t: int) returns (allowed: bool)
      modifies this`charges
      ensures allowed == (Count(old(charges), (b, t / HOUR)) < Limit(b))
      ensures charges == if allowed then old(charges)[(b, t / HOUR) := Count(old(charges), (b, t / HOUR)) + 1] else old(charges)
    {
      var used := Count(charges, (b, t / HOUR));
      allowed := used < Limit(b);
      if allowed {
        charges := charges[(b, t / HOUR) := used + 1];
      }
    }

    method Spend(b: Budget, t: int) returns (allowed: bool)
      requires Valid()
      modifies this
      ensures Valid() && old(history) <= history && Apart(old(Whole()), Whole(), run, resend)
    {
      hide Follows, Fair, Run;
      Others();
      ghost var before := Whole();
      allowed := Charge(b, t);
      Note(before, Charges(b, t));
      allowed := allowed && works(turn);
    }

    // ---- Signing up and resending ----

    /** Both budgets, then the lookup, then the proof. The answer to the caller is the same whether or not a proof is stored. */
    method Signup(source: string, id: string, email: string, challenge: Digest, link: string, code: string) returns (stored: bool)
      requires Valid()
      modifies this
      ensures Valid() && old(history) <= history
      ensures stored ==> id in table && table[id].state.Pending? && table[id].generation == 1 && table[id].link == OfLink(link)
    {
      hide Follows, Fair, Run;
      Others();
      var t := now;
      var allowed := Spend(SignupSource(source), t);
      if !allowed {
        return false;
      }
      t := now;
      allowed := Spend(SignupEmail(email), t);
      if !allowed {
        return false;
      }
      Others();
      if email in users || !works(turn) {
        return false;
      }
      stored := StoreProof(id, email, challenge, link, code);
    }

    method StoreProof(id: string, email: string, challenge: Digest, link: string, code: string) returns (stored: bool)
      requires Valid()
      modifies this
      ensures Valid() && old(history) <= history
      ensures stored ==> id in table && table[id].state.Pending? && table[id].generation == 1 && table[id].link == OfLink(link)
    {
      hide Follows, Fair, Run;
      Others();
      var t := now;
      Others();
      if link in log.links.Values {
        return false;  // a random secret never repeats
      }
      var r := NewTransaction(id, email, challenge, link, code, t);
      ghost var before := Whole();
      stored := id !in table;
      if stored {
        table := table[id := r];
        log := log.(links := log.links[(id, 1) := link], stamps := log.stamps[id := [t]]);
      }
      Note(before, EmailWorld.SignsUp(id, email, challenge, link, code, t));
    }

    method Resend(source: string, id: string, link: string, code: string) returns (rotated: bool)
      requires Valid()
      modifies this
      ensures Valid() && old(history) <= history
      ensures rotated ==> id in table && table[id].state.Pending? && table[id].attempts == 0 && table[id].link == OfLink(link)
                          && 2 <= table[id].generation == table[id].resends + 1
    {
      hide Follows, Fair, Run;
      Others();
      var allowed := Spend(ResendSource(source), now);
      if !allowed {
        return false;
      }
      Others();
      if id !in table {
        return false;
      }
      var r := ReadForResend(id);
      Others();
      var t := now;
      if (!r.state.Pending? && !r.state.Failed?) || r.resends >= 3 || t - r.lastSent < 60 {
        return false;
      }
      if r.state.Failed? {
        var absent := LookUpForResend(r);
        if !absent {
          return false;
        }
      }
      allowed := Spend(ResendEmail(r.email), t);
      if !allowed {
        return false;
      }
      rotated := Rotate(r, link, code, t);
    }

    method ReadForResend(id: string) returns (r: Transaction)
      requires Valid() && id in table
      modifies this
      ensures Valid() && old(history) <= history
      ensures id in table && r == table[id] && r.id == id && resend in resends && resends[resend].copy == r
    {
      StoredId(id);
      hide Follows, Fair, Run;
      ghost var before := Whole();
      r := table[id];
      resends := resends[resend := EmailWorld.Resend(r, now, false)];
      Note(before, ReadsForResend(resend, id));
    }

    lemma StoredId(id: string)
      requires Valid() && id in table
      ensures table[id].id == id
    {
      hide Run;
      FollowsInv(history, Whole());
      StoredIsFaithful(Whole(), id);
    }

    method LookUpForResend(r: Transaction) returns (absent: bool)
      requires Valid() && resend in resends && resends[resend].copy == r
      modifies this
      ensures Valid() && old(history) <= history && old(now) <= now
      ensures absent ==> resend in resends && resends[resend].copy == r && resends[resend].absent
    {
      hide Follows, Fair, Run;
      Others();
      absent := r.email !in users && works(turn);
      if absent {
        ghost var before := Whole();
        resends := resends[resend := resends[resend].(absent := true)];
        Note(before, FindsAbsentForResend(resend));
      }
    }

    /** The proof's next generation: fresh secrets, no attempts, ten more minutes. */
    method Renew(r: Transaction, link: string, code: string, t: int) returns (next: Transaction)
      ensures next == Rotated(r, link, code, t)
    {
      next := r;
      next := next.(state := Pending, claimedAt := 0);
      next := next.(generation := next.generation + 1, version := next.version + 1, resends := next.resends + 1, attempts := 0);
      next := next.(link := OfLink(link), code := OfCode(r.id, next.generation, code));
      next := next.(expires := t + 600, lastSent := t);
    }

    method Rotate(r: Transaction, link: string, code: string, t: int) returns (rotated: bool)
      requires Valid() && t <= now && resend in resends && resends[resend].copy == r && MayRotate(r, resends[resend].absent, t)
      modifies this
      ensures Valid() && old(history) <= history
      ensures rotated ==> r.id in table && table[r.id] == Rotated(r, link, code, t) && r.generation == r.resends + 1 >= 1
    {
      hide Follows, Fair, Run;
      Others();
      if link in log.links.Values {
        return false;
      }
      CopyCounts(r);
      var next := Renew(r, link, code, t);
      hide Rotated, Counters;
      ghost var before := Whole();
      rotated := Swap(r, next);
      if rotated {
        log := log.(links := log.links[(r.id, r.generation + 1) := link],
                    stamps := log.stamps[r.id := (if r.id in log.stamps then log.stamps[r.id] else []) + [t]]);
      }
      Note(before, Rotates(resend, link, code, t));
    }

    lemma CopyCounts(r: Transaction)
      requires Valid() && resend in resends && resends[resend].copy == r
      ensures Counters(r)
    {
      FollowsInv(history, Whole());
      assert Faithful(r, table);
    }

    // ---- Confirming ----

    ghost predicate Holding(input: Input, r: Transaction, at: int, stage: Stage)
      reads this
    {
      run in confirmations && confirmations[run] == Confirmation(input, r, at, stage)
    }

    method LoadProof(input: Input) returns (r: Result<Transaction, Answer>, at: int)
      requires Valid() && run !in confirmations
      modifies this
      ensures Valid() && old(history) <= history
      ensures r.Ok? ==> at == now && Holding(input, r.value, at, Loaded) && r.value.id == input.id && input.id in table && table[input.id] == r.value
      ensures r.Err? ==> r.error == Unusable || r.error == Unavailable
    {
      hide Follows, Fair, Run;
      Others();
      at := now;
      if !works(turn) {
        return Err(Unavailable), at;
      }
      if input.id !in table {
        return Err(Unusable), at;
      }
      StoredId(input.id);
      ghost var before := Whole();
      confirmations := confirmations[run := Confirmation(input, table[input.id], now, Loaded)];
      Note(before, Reads(run, input));
      r := Ok(table[input.id]);
    }

    /** Takes over a confirmation that was interrupted a minute ago; without one it changes nothing. */
    method TakeOver(input: Input, r: Transaction, at: int) returns (o: Result<Transaction, Answer>)
      requires Valid() && Holding(input, r, at, Loaded) && at <= now <= at + REQUEST_LIMIT
      modifies this
      ensures Valid() && old(history) <= history
      ensures o.Ok? ==> now <= at + REQUEST_LIMIT && at <= now && Holding(input, o.value, at, Loaded)
      ensures o.Ok? && o.value != r ==> o.value == Recovered(r) && r.state.Confirming? && r.claimedAt + CLAIM_TIMEOUT <= now && r.link == OfLink(input.link)
      ensures o.Err? ==> o.error == Conflict || o.error == SignInRequired || o.error == Gone
    {
      hide Follows, Fair, Run;
      var t1 := now;
      var reply := Await(at);
      if reply.Killed? {
        return Err(Gone);
      }
      var t2 := now;
      if !(r.state.Confirming? && t1 - r.claimedAt >= 60 && r.expires > t2 && r.link == OfLink(input.link)) {
        return Ok(r);
      }
      var refused := LookUp(input, r, at, t1, t2);
      if refused.Some? {
        return Err(refused.value);
      }
      var retry := r;
      retry := retry.(state := Pending);
      retry := retry.(version := retry.version + 1);
      o := SwapOn(input, r, at, Absent, retry, Loaded, Recovers(run, true), Recovers(run, false));
    }

    method LookUp(input: Input, r: Transaction, at: int, t1: int, t2: int) returns (refused: Option<Answer>)
      requires Valid() && Holding(input, r, at, Loaded) && at <= t1 <= t2 <= now && MayRecover(r, input.link, t1, t2)
      modifies this
      ensures Valid() && old(history) <= history
      ensures refused.None? ==> old(now) <= now <= at + REQUEST_LIMIT && Holding(input, r, at, Absent)
      ensures refused.Some? ==> refused.value == Conflict || refused.value == SignInRequired || refused.value == Gone
    {
      hide Follows, Fair, Run;
      var reply := Await(at);
      if reply.Killed? {
        return Some(Gone);
      }
      if reply.Broken? {
        return Some(Conflict);
      }
      if r.email in users {
        return Some(SignInRequired);
      }
      ghost var before := Whole();
      confirmations := confirmations[run := Confirmation(input, r, at, Absent)];
      Note(before, FindsAbsent(run, t1, t2));
      refused := None;
    }

    /** A conditional write of this confirmation. It may commit and still be answered with an error. */
    method SwapOn(input: Input, r: Transaction, at: int, stage: Stage, next: Transaction, goOn: Stage, ghost done: Event, ghost lost: Event)
      returns (o: Result<Transaction, Answer>)
      requires Valid() && Holding(input, r, at, stage) && at <= now <= at + REQUEST_LIMIT
      requires Means(run, Confirmation(input, r, at, stage), now, done, next, goOn) && Means(run, Confirmation(input, r, at, stage), now, lost, next, Ended)
      modifies this
      ensures Valid() && old(history) <= history
      ensures o.Ok? ==> old(now) <= now <= at + REQUEST_LIMIT && o.value == next && Holding(input, next, at, goOn)
      ensures o.Err? ==> o.error == Conflict || o.error == Gone
      ensures o.Ok? ==> r.id in table && table[r.id] == next
    {
      hide Follows, Fair, Run, Step, Means;
      var reply := Await(at);
      if reply.Killed? {
        return Err(Gone);
      }
      ghost var before := Whole();
      MeansNow(before, run, old(now), done, next, goOn);
      MeansNow(before, run, old(now), lost, next, Ended);
      var committed := Swap(r, next);
      var stop := !committed || reply.Broken?;
      confirmations := confirmations[run := if committed then Confirmation(input, next, at, if reply.Fine? then goOn else Ended)
                                            else Confirmation(input, r, at, Ended)];
      Note(before, if reply.Fine? then done else lost);
      return if stop then Err(Conflict) else Ok(next);
    }

    /** The browser's token must match the challenge. */
    method CheckToken(input: Input, r: Transaction, at: int, t: int) returns (o: Option<Answer>)
      requires Valid() && Holding(input, r, at, Loaded) && at <= t <= now <= at + REQUEST_LIMIT && Usable(r, input.link, t) && input.second.Token?
      modifies this
      ensures Valid() && old(history) <= history && now == old(now)
      ensures o.None? ==> Holding(input, r, at, Proven)
      ensures o == None || o == Some(Unusable)
    {
      hide Follows, Fair, Run;
      if r.challenge != OfToken(input.second.token) {
        return Some(Unusable);
      }
      ghost var before := Whole();
      confirmations := confirmations[run := Confirmation(input, r, at, Proven)];
      Note(before, ShowsToken(run, t));
      o := None;
    }

    /** The mailed code: charged against the hour, compared, and a wrong one is counted before the caller learns of it. */
    method CheckCode(input: Input, r: Transaction, at: int, t: int) returns (o: Option<Answer>)
      requires Valid() && Holding(input, r, at, Loaded) && at <= t <= now <= at + REQUEST_LIMIT && Usable(r, input.link, t) && input.second.Code?
      modifies this
      ensures Valid() && old(history) <= history
      ensures o.None? ==> old(now) <= now <= at + REQUEST_LIMIT && Holding(input, r, at, Proven)
      ensures o.Some? && o.value.Incorrect? ==> r.id in table && table[r.id] == Missed(r) && o.value.remaining == 5 - table[r.id].attempts > 0
      ensures o.Some? ==> !o.value.Issued? && !o.value.Used?
    {
      hide Follows, Fair, Run;
      if !SixDigits(input.second.code) {
        return Some(Invalid);
      }
      if r.attempts >= 5 {
        return Some(Limited);
      }
      var compared := Compare(input, r, at, t);
      if compared.Err? {
        return Some(compared.error);
      }
      if compared.value {
        return None;
      }
      var next := r;
      next := next.(attempts := next.attempts + 1);
      next := next.(version := next.version + 1);
      var swapped := CountMiss(input, r, at, next);
      if !swapped {
        return Some(Conflict);
      }
      return Some(if next.attempts >= 5 then Limited else Incorrect(5 - next.attempts));
    }

    method Compare(input: Input, r: Transaction, at: int, t: int) returns (o: Result<bool, Answer>)
      requires Valid() && Holding(input, r, at, Loaded) && at <= t <= now && Usable(r, input.link, t)
      requires input.second.Code? && SixDigits(input.second.code) && r.attempts < 5
      modifies this
      ensures Valid() && old(history) <= history
      ensures o.Ok? ==> old(now) <= now <= at + REQUEST_LIMIT && Holding(input, r, at, if o.value then Proven else Wrong)
      ensures o.Ok? ==> (o.value <==> r.code == OfCode(r.id, r.generation, input.second.code))
      ensures o.Err? ==> o.error == Gone || o.error == Limited || o.error == Unavailable
    {
      hide Follows, Fair, Run, SixDigits, Usable, CountComparison;
      var t2 := now;
      var reply := Await(at);
      if reply.Killed? {
        return Err(Gone);
      }
      ghost var before := Whole();
      var allowed := Charge(CodeEmail(r.email), t2);
      var right := r.code == OfCode(r.id, r.generation, input.second.code);
      if allowed && reply.Fine? {
        log := CountComparison(log, r.email, t2 / HOUR, now / HOUR);
      }
      confirmations := confirmations[run := Confirmation(input, r, at, if !allowed || reply.Broken? then Ended else if right then Proven else Wrong)];
      Note(before, ShowsCode(run, t, t2, reply.Fine?));
      return if !allowed then Err(Limited) else if reply.Broken? then Err(Unavailable) else Ok(right);
    }

    method CountMiss(input: Input, r: Transaction, at: int, next: Transaction) returns (reported: bool)
      requires Valid() && Holding(input, r, at, Wrong) && next == Missed(r)
      modifies this
      ensures Valid() && old(history) <= history
      ensures reported ==> r.id in table && table[r.id] == next
    {
      hide Follows, Fair, Run;
      var reply := Await(at);
      if reply.Killed? {
        return false;
      }
      ghost var before := Whole();
      var committed := Swap(r, next);
      reported := committed && reply.Fine?;
      confirmations := confirmations[run := Confirmation(input, if committed then next else r, at, Ended)];
      if reported {
        log := log.(verdicts := log.verdicts[(r.id, r.generation) := Count(log.verdicts, (r.id, r.generation)) + 1]);
      }
      Note(before, Misses(run, reply.Fine?));
    }

    /** The provider's call: it creates the user unless one exists, and its answer can be lost. */
    method CreateAccount(input: Input, r: Transaction, at: int, subject: string) returns (o: Option<bool>)
      requires Valid() && Holding(input, r, at, Claiming)
      modifies this
      ensures Valid() && old(history) <= history
      ensures o.Some? ==> old(now) <= now <= at + REQUEST_LIMIT && Holding(input, r, at, if o.value then Created(subject) else Refused)
    {
      hide Follows, Fair, Run;
      var reply := Await(at);
      if reply.Killed? {
        return None;
      }
      if r.email in users || (reply.Broken? && !lands(turn)) {
        BeRefused(input, r, at);
        return Some(false);
      }
      AddUser(input, r, at, subject, reply.Fine?);
      return Some(reply.Fine?);
    }

    method BeRefused(input: Input, r: Transaction, at: int)
      requires Valid() && Holding(input, r, at, Claiming) && now <= at + REQUEST_LIMIT
      modifies this`confirmations, this`history
      ensures Valid() && old(history) <= history && Holding(input, r, at, Refused)
    {
      hide Follows, Fair, Run;
      ghost var before := Whole();
      confirmations := confirmations[run := Confirmation(input, r, at, Refused)];
      Note(before, IsRefused(run));
    }

    /** The provider adds the user, whether or not its answer arrives. */
    method AddUser(input: Input, r: Transaction, at: int, subject: string, reported: bool)
      requires Valid() && Holding(input, r, at, Claiming) && now <= at + REQUEST_LIMIT && r.email !in users
      modifies this`users, this`log, this`confirmations, this`history
      ensures Valid() && old(history) <= history && Holding(input, r, at, if reported then Created(subject) else Refused)
      ensures users == old(users) + {r.email}
    {
      hide Follows, Fair, Run;
      ghost var before := Whole();
      users := users + {r.email};
      if reported {
        log := log.(creators := log.creators[r.email := run]);
      }
      confirmations := confirmations[run := Confirmation(input, r, at, if reported then Created(subject) else Refused)];
      Note(before, CreatesUser(run, subject, reported));
    }

    method IssueSession(input: Input, r: Transaction, at: int) returns (o: Answer)
      requires Valid() && Holding(input, r, at, Finished)
      modifies this
      ensures Valid() && old(history) <= history
      ensures o == Issued || o == SignInRequired || o == Gone
      ensures o == Issued ==> run in log.sessions && log.sessions[run] == Session(r.email, r.id, input.link, r.generation)
    {
      hide Follows, Fair, Run;
      var reply := Await(at);
      if reply.Killed? {
        return Gone;
      }
      if reply.Broken? {
        return SignInRequired;
      }
      ghost var before := Whole();
      log := log.(sessions := log.sessions[run := Session(r.email, r.id, input.link, r.generation)]);
      confirmations := confirmations[run := Confirmation(input, r, at, Ended)];
      Note(before, Issues(run));
      o := Issued;
    }

    /** Claims the proven transaction, creates the account, marks it confirmed and issues the session. */
    method Complete(input: Input, r: Transaction, at: int, subject: string) returns (o: Answer)
      requires Valid() && Holding(input, r, at, Proven) && at <= now <= at + REQUEST_LIMIT
      modifies this
      ensures Valid() && old(history) <= history
      ensures o == Issued ==> run in log.sessions && log.sessions[run] == Session(r.email, r.id, input.link, r.generation)
      ensures o == Issued || o == Conflict || o == SignInRequired || o == Unusable || o == Gone
    {
      hide Follows, Fair, Run;
      var claimed := ClaimProof(input, r, at);
      if claimed.Err? {
        return claimed.error;
      }
      var claim := claimed.value;
      var created := CreateAccount(input, claim, at, subject);
      if created.None? {
        return Gone;
      }
      if !created.value {
        o := GiveUp(input, claim, at);
        return;
      }
      var finished := MarkConfirmed(input, claim, at, subject);
      if finished.Err? {
        return if finished.error.Gone? then Gone else SignInRequired;
      }
      o := IssueSession(input, finished.value, at);
    }

    method ClaimProof(input: Input, r: Transaction, at: int) returns (o: Result<Transaction, Answer>)
      requires Valid() && Holding(input, r, at, Proven) && at <= now <= at + REQUEST_LIMIT
      modifies this
      ensures Valid() && old(history) <= history
      ensures o.Ok? ==> old(now) <= now <= at + REQUEST_LIMIT && o.value == Claimed(r, old(now)) && Holding(input, o.value, at, Claiming)
      ensures o.Err? ==> o.error == Conflict || o.error == Gone
    {
      hide Follows, Fair, Run;
      var t := now;
      var claim := r;
      claim := claim.(state := Confirming);
      claim := claim.(claimedAt := t);
      claim := claim.(version := claim.version + 1);
      o := SwapOn(input, r, at, Proven, claim, Claiming, Claims(run, t, true), Claims(run, t, false));
    }

    method MarkConfirmed(input: Input, claim: Transaction, at: int, subject: string) returns (o: Result<Transaction, Answer>)
      requires Valid() && Holding(input, claim, at, Created(subject)) && at <= now <= at + REQUEST_LIMIT
      modifies this
      ensures Valid() && old(history) <= history
      ensures o.Ok? ==> old(now) <= now <= at + REQUEST_LIMIT && o.value == Done(claim, subject) && Holding(input, o.value, at, Finished)
      ensures o.Err? ==> o.error == Conflict || o.error == Gone
    {
      hide Follows, Fair, Run;
      var done := claim;
      done := done.(state := Confirmed, subject := subject);
      done := done.(link := NoDigest, code := NoDigest, challenge := NoDigest);
      done := done.(version := done.version + 1);
      o := SwapOn(input, claim, at, Created(subject), done, Finished, Finishes(run, true), Finishes(run, false));
    }

    method GiveUp(input: Input, claim: Transaction, at: int) returns (o: Answer)
      requires Valid() && Holding(input, claim, at, Refused) && at <= now <= at + REQUEST_LIMIT
      modifies this
      ensures Valid() && old(history) <= history
      ensures o == SignInRequired || o == Unusable || o == Gone
    {
      hide Follows, Fair, Run;
      var failed := claim;
      failed := failed.(state := Failed);
      failed := failed.(version := failed.version + 1);
      var marked := SwapOn(input, claim, at, Refused, failed, Ended, Fails(run), Fails(run));
      if marked.Err? && marked.error.Gone? {
        return Gone;
      }
      var reply := Await(at);
      return if reply.Killed? then Gone else if reply.Fine? && claim.email !in users then Unusable else SignInRequired;
    }

    method Confirm(input: Input, wellFormed: bool, subject: string) returns (o: Answer)
      requires Valid() && run !in confirmations
      modifies this
      ensures Valid() && old(history) <= history
      ensures !wellFormed ==> o == Invalid
      ensures o == Issued ==> run in log.sessions && log.sessions[run].id == input.id && log.sessions[run].link == input.link
      ensures o.Incorrect? ==> input.id in table && o.remaining == 5 - table[input.id].attempts > 0
      ensures o == Used ==> input.id in table && table[input.id].state.Confirmed?
    {
      hide Follows, Fair, Run;
      if !wellFormed {
        return Invalid;
      }
      var loaded, at := LoadProof(input);
      if loaded.Err? {
        return loaded.error;
      }
      if loaded.value.state.Confirmed? {
        return Used;
      }
      var current := TakeOver(input, loaded.value, at);
      if current.Err? {
        return current.error;
      }
      o := Prove(input, current.value, at, subject);
    }

    method Prove(input: Input, r: Transaction, at: int, subject: string) returns (o: Answer)
      requires Valid() && Holding(input, r, at, Loaded) && at <= now <= at + REQUEST_LIMIT
      modifies this
      ensures Valid() && old(history) <= history
      ensures o == Issued ==> run in log.sessions && log.sessions[run] == Session(r.email, r.id, input.link, r.generation)
      ensures o.Incorrect? ==> r.id in table && o.remaining == 5 - table[r.id].attempts > 0
      ensures o != Used
    {
      hide Follows, Fair, Run;
      if r.state.Confirming? {
        return Conflict;
      }
      var t := now;
      if !r.state.Pending? || r.expires <= t || r.link != OfLink(input.link) {
        return Unusable;
      }
      var refused;
      match input.second {
        case Token(_) => refused := CheckToken(input, r, at, t);
        case Code(_) => refused := CheckCode(input, r, at, t);
      }
      if refused.Some? {
        return refused.value;
      }
      o := Complete(input, r, at, subject);
    }
  }
}
