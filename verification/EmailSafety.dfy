/** What every run of the e-mail flow guarantees, whichever requests overlap, die or are recovered. */
module EmailSafety {
  import opened Basics
  import opened EmailModel
  import opened EmailWorld
  import opened EmailInvariant

  lemma Reachable(es: seq<Event>)
    ensures Inv(Run(EMPTY, es))
  {
    EmptyInv();
    RunKeeps(EMPTY, es);
  }

  // ---- Sessions ----

  /** At most one confirmation gets a session for an address, and at most one for a request id. */
  lemma OneSession(es: seq<Event>, i: nat, j: nat)
    requires var s := Run(EMPTY, es).log.sessions;
             i in s && j in s && (s[i].email == s[j].email || s[i].id == s[j].id)
    ensures i == j
  {
    Reachable(es);
    hide TableOk, BudgetsOk, ConfirmationsOk, ResendsOk, Run;
    var w := Run(EMPTY, es);
    assert SessionOk(w.log.sessions[i], i, w.table, w.users, w.log);
    assert SessionOk(w.log.sessions[j], j, w.table, w.users, w.log);
  }

  /** And that confirmation gets no second one. */
  lemma NoSecondIssue(es: seq<Event>, i: nat)
    requires i in Run(EMPTY, es).log.sessions
    ensures Issue(Run(EMPTY, es), i) == Run(EMPTY, es)
  {
    hide Run, TableOk, BudgetsOk, ConfirmationsOk, ResendsOk, SessionsOk;
    Reachable(es);
  }

  /** Whoever got the session had shown the link of the newest generation, which no resend can replace any more. */
  lemma SessionShowedNewestLink(es: seq<Event>, i: nat)
    requires i in Run(EMPTY, es).log.sessions
    ensures var w := Run(EMPTY, es);
            var s := w.log.sessions[i];
            && s.id in w.table && w.table[s.id].state.Confirmed? && w.table[s.id].generation == s.generation
            && (s.id, s.generation) in w.log.links && w.log.links[(s.id, s.generation)] == s.link
  {
    Reachable(es);
    hide TableOk, BudgetsOk, ConfirmationsOk, ResendsOk, Run;
    var w := Run(EMPTY, es);
    assert SessionOk(w.log.sessions[i], i, w.table, w.users, w.log);
  }

  predicate KeepsProof(w: World, v: World, id: string) {
    id in w.table ==> id in v.table && v.table[id] == w.table[id]
  }

  lemma RecoverKeepsConfirmed(w: World, i: nat, id: string, reported: bool)
    requires Inv(w) && id in w.table && w.table[id].state.Confirmed?
    ensures KeepsProof(w, Step(w, Recovers(i, reported)), id)
  {
    hide Inv;
    if i in w.confirmations {
      Fits(w, i);
    }
  }

  lemma MissKeepsConfirmed(w: World, i: nat, id: string, reported: bool)
    requires Inv(w) && id in w.table && w.table[id].state.Confirmed?
    ensures KeepsProof(w, Step(w, Misses(i, reported)), id)
  {
    hide Inv;
    if i in w.confirmations {
      Fits(w, i);
    }
  }

  lemma ClaimKeepsConfirmed(w: World, i: nat, id: string, t: int, reported: bool)
    requires Inv(w) && id in w.table && w.table[id].state.Confirmed?
    ensures KeepsProof(w, Step(w, Claims(i, t, reported)), id)
  {
    hide Inv;
    if i in w.confirmations {
      Fits(w, i);
    }
  }

  lemma FailKeepsConfirmed(w: World, i: nat, id: string)
    requires Inv(w) && id in w.table && w.table[id].state.Confirmed?
    ensures KeepsProof(w, Step(w, Fails(i)), id)
  {
    hide Inv;
    if i in w.confirmations {
      Fits(w, i);
    }
  }

  lemma FinishKeepsConfirmed(w: World, i: nat, id: string, reported: bool)
    requires Inv(w) && id in w.table && w.table[id].state.Confirmed?
    ensures KeepsProof(w, Step(w, Finishes(i, reported)), id)
  {
    hide Inv;
    if i in w.confirmations {
      Fits(w, i);
    }
  }

  lemma ConfirmedStaysRotate(w: World, k: nat, link: string, code: string, t: int, id: string)
    requires Inv(w) && id in w.table && w.table[id].state.Confirmed?
    ensures KeepsProof(w, Step(w, Rotates(k, link, code, t)), id)
  {
    hide Inv;
    if k in w.resends {
      StoredCopy(w, k);
    }
  }

  lemma OthersKeepConfirmed(w: World, e: Event, id: string)
    requires id in w.table && (e.SignsUp? || e.CreatesUser? || e.Issues?)
    ensures KeepsProof(w, Step(w, e), id)
  {
  }

  lemma ConfirmedStaysStep(w: World, e: Event, id: string)
    requires Inv(w) && id in w.table && w.table[id].state.Confirmed?
    ensures KeepsProof(w, Step(w, e), id)
  {
    hide Inv, Step;
    match e
    case Rotates(k, link, code, t) => ConfirmedStaysRotate(w, k, link, code, t, id);
    case Recovers(i, reported) => RecoverKeepsConfirmed(w, i, id, reported);
    case Misses(i, reported) => MissKeepsConfirmed(w, i, id, reported);
    case Claims(i, t, reported) => ClaimKeepsConfirmed(w, i, id, t, reported);
    case Fails(i) => FailKeepsConfirmed(w, i, id);
    case Finishes(i, reported) => FinishKeepsConfirmed(w, i, id, reported);
    case SignsUp(_, _, _, _, _, _) => OthersKeepConfirmed(w, e, id);
    case CreatesUser(_, _, _) => OthersKeepConfirmed(w, e, id);
    case Issues(_) => OthersKeepConfirmed(w, e, id);
    case _ => QuietKeeps(w, e);
  }

  lemma StoredCopy(w: World, k: nat)
    requires Inv(w) && k in w.resends
    ensures Faithful(w.resends[k].copy, w.table)
  {
  }

  /** A confirmed proof never changes again. */
  lemma {:induction false} ConfirmedIsFinal(w: World, es: seq<Event>, id: string)
    requires Inv(w) && id in w.table && w.table[id].state.Confirmed?
    ensures id in Run(w, es).table && Run(w, es).table[id] == w.table[id]
    decreases |es|
  {
    hide Inv, Step;
    if es != [] {
      ConfirmedStaysStep(w, es[0], id);
      StepKeeps(w, es[0]);
      ConfirmedIsFinal(Step(w, es[0]), es[1..], id);
    }
  }

  // ---- Accounts ----

  /**
   An account is created only while its creator's claim stands in the table, by a confirmation that
   showed the newest generation's link together with the browser's token or the mailed code.
   */
  lemma AccountsNeedTheProof(es: seq<Event>, i: nat, subject: string, reported: bool)
    requires var w := Run(EMPTY, es); CreateUser(w, i, subject, reported).users != w.users
    ensures var w := Run(EMPTY, es);
            var c := w.confirmations[i];
            c.input.id in w.table && var r := w.table[c.input.id];
            && r.state.Confirming? && r == c.copy
            && (c.input.id, r.generation) in w.log.links && w.log.links[(c.input.id, r.generation)] == c.input.link
            && ShowsBoth(c)
            && CreateUser(w, i, subject, reported).users == w.users + {r.email}
  {
    Reachable(es);
    hide Inv, Run;
    var w := Run(EMPTY, es);
    Fits(w, i);
    HolderIsAlone(w, i);
    LinkOf(w, w.confirmations[i].copy.id);
  }

  // ---- Rotated links ----

  /** The link belongs to an older generation of its proof. */
  ghost predicate Stale(w: World, link: string) {
    exists p :: p in w.log.links && w.log.links[p] == link && p.0 in w.table && p.1 < w.table[p.0].generation
  }

  predicate Extends(w: World, v: World) {
    && (forall p | p in w.log.links :: p in v.log.links && v.log.links[p] == w.log.links[p])
    && (forall id | id in w.table :: id in v.table && w.table[id].generation <= v.table[id].generation)
  }

  lemma RotateExtends(w: World, k: nat, link: string, code: string, t: int)
    requires Inv(w)
    ensures Extends(w, Step(w, Rotates(k, link, code, t)))
  {
    hide TableOk, BudgetsOk, ResendsOk, SessionsOk, OneHolder, ConfirmationsOk;
    if k in w.resends {
      StoredCopy(w, k);
      LinksBelow2(w, w.resends[k].copy);
    }
  }

  lemma SignUpExtends(w: World, id: string, email: string, challenge: Digest, link: string, code: string, t: int)
    requires Inv(w)
    ensures Extends(w, Step(w, SignsUp(id, email, challenge, link, code, t)))
  {
    hide TableOk, BudgetsOk, ResendsOk, SessionsOk, OneHolder, ConfirmationsOk;
    LinksHaveProofs(w);
  }

  lemma RecoverExtends(w: World, i: nat, reported: bool)
    requires Inv(w)
    ensures Extends(w, Step(w, Recovers(i, reported)))
  {
    hide Inv;
    if i in w.confirmations {
      Fits(w, i);
    }
  }

  lemma MissExtends(w: World, i: nat, reported: bool)
    requires Inv(w)
    ensures Extends(w, Step(w, Misses(i, reported)))
  {
    hide Inv;
    if i in w.confirmations {
      Fits(w, i);
    }
  }

  lemma ClaimExtends(w: World, i: nat, t: int, reported: bool)
    requires Inv(w)
    ensures Extends(w, Step(w, Claims(i, t, reported)))
  {
    hide Inv;
    if i in w.confirmations {
      Fits(w, i);
    }
  }

  lemma CreateExtends(w: World, i: nat, subject: string, reported: bool)
    requires Inv(w)
    ensures Extends(w, Step(w, CreatesUser(i, subject, reported)))
  {
    hide Inv;
    if i in w.confirmations {
      Fits(w, i);
    }
  }

  lemma FailExtends(w: World, i: nat)
    requires Inv(w)
    ensures Extends(w, Step(w, Fails(i)))
  {
    hide Inv;
    if i in w.confirmations {
      Fits(w, i);
    }
  }

  lemma FinishExtends(w: World, i: nat, reported: bool)
    requires Inv(w)
    ensures Extends(w, Step(w, Finishes(i, reported)))
  {
    hide Inv;
    if i in w.confirmations {
      Fits(w, i);
    }
  }

  lemma IssueExtends(w: World, i: nat)
    requires Inv(w)
    ensures Extends(w, Step(w, Issues(i)))
  {
    hide Inv;
    if i in w.confirmations {
      Fits(w, i);
    }
  }

  /** The events that write neither a proof nor a link. */
  predicate Quiet(e: Event) {
    e.Ticks? || e.Registers? || e.Charges? || e.ReadsForResend? || e.FindsAbsentForResend? || e.Reads? || e.FindsAbsent?
    || e.ShowsToken? || e.ShowsCode? || e.IsRefused? || e.Ends?
  }

  lemma QuietKeeps(w: World, e: Event)
    requires Quiet(e)
    ensures SameProofs(w, Step(w, e))
  {
    hide Charge, FindAbsent, ShowToken, ShowCode, SignUp, Rotate, Recover, Miss, Claim, CreateUser, Fail, Finish, Issue, Acts;
    match e
    case FindsAbsent(i, t1, t2) => QuietMoves(w, i, t1, t2);
    case ShowsToken(i, t) => QuietMoves(w, i, t, t);
    case ShowsCode(i, t, t2, reported) => QuietShow(w, i, t, t2, reported);
    case _ =>
  }

  predicate SameProofs(w: World, v: World) {
    v.table == w.table && v.log.links == w.log.links
  }

  lemma QuietMoves(w: World, i: nat, t: int, t2: int)
    ensures SameProofs(w, FindAbsent(w, i, t, t2)) && SameProofs(w, ShowToken(w, i, t))
  {
    hide Usable, MayRecover, Acts, ShownUsable;
  }

  lemma QuietShow(w: World, i: nat, t: int, t2: int, reported: bool)
    ensures SameProofs(w, ShowCode(w, i, t, t2, reported))
  {
    hide Charge, SixDigits, Up, Usable, Alive;
  }

  lemma StepExtends(w: World, e: Event)
    requires Inv(w)
    ensures Extends(w, Step(w, e))
  {
    hide Inv, Step;
    match e
    case Rotates(k, link, code, t) => RotateExtends(w, k, link, code, t);
    case SignsUp(id, email, challenge, link, code, t) => SignUpExtends(w, id, email, challenge, link, code, t);
    case Recovers(i, reported) => RecoverExtends(w, i, reported);
    case Misses(i, reported) => MissExtends(w, i, reported);
    case Claims(i, t, reported) => ClaimExtends(w, i, t, reported);
    case CreatesUser(i, subject, reported) => CreateExtends(w, i, subject, reported);
    case Fails(i) => FailExtends(w, i);
    case Finishes(i, reported) => FinishExtends(w, i, reported);
    case Issues(i) => IssueExtends(w, i);
    case _ => QuietKeeps(w, e);
  }

  lemma LinksHaveProofs(w: World)
    requires Inv(w)
    ensures forall p | p in w.log.links :: p.0 in w.table
  {
  }

  lemma LinksBelow2(w: World, copy: Transaction)
    requires Inv(w) && Faithful(copy, w.table)
    ensures copy == w.table[copy.id] ==> (copy.id, copy.generation + 1) !in w.log.links
  {
    if copy == w.table[copy.id] {
      LinksBelow(w, copy.id, copy.generation + 1);
    }
  }

  lemma {:induction false} StaysStale(w: World, es: seq<Event>, link: string)
    requires Inv(w) && Stale(w, link)
    ensures Stale(Run(w, es), link)
    decreases |es|
  {
    if es != [] {
      hide Inv, Step;
      var v := Step(w, es[0]);
      StepExtends(w, es[0]);
      var p :| p in w.log.links && w.log.links[p] == link && p.0 in w.table && p.1 < w.table[p.0].generation;
      assert p in v.log.links && v.log.links[p] == link && p.0 in v.table && p.1 < v.table[p.0].generation;
      StepKeeps(w, es[0]);
      StaysStale(v, es[1..], link);
    }
  }

  lemma StaleIsNotNewest(w: World, link: string, id: string)
    requires Inv(w) && Stale(w, link) && id in w.table && (id, w.table[id].generation) in w.log.links
    ensures w.log.links[(id, w.table[id].generation)] != link
  {
  }

  /** What the events of confirmation `i` that lead to an account and a session change. */
  predicate Achieves(w: World, i: nat, e: Event) {
    match e
    case Claims(j, _, _) => j == i && Step(w, e).table != w.table
    case CreatesUser(j, _, _) => j == i && Step(w, e).users != w.users
    case Finishes(j, _) => j == i && Step(w, e).table != w.table
    case Issues(j) => j == i && Step(w, e).log.sessions != w.log.sessions
    case _ => false
  }

  /** Once a link has been rotated away, no confirmation that shows it claims, creates, confirms or gets a session, whatever happens in between. */
  lemma RotatedLinkNeverConfirms(es: seq<Event>, fs: seq<Event>, link: string, i: nat, e: Event)
    requires Stale(Run(EMPTY, es), link)
    requires var v := Run(EMPTY, es + fs); i in v.confirmations && v.confirmations[i].input.link == link
    ensures !Achieves(Run(EMPTY, es + fs), i, e)
  {
    hide Inv, Step, Run;
    Reachable(es);
    Reachable(es + fs);
    RunAppend(EMPTY, es, fs);
    StaysStale(Run(EMPTY, es), fs, link);
    StaleAchievesNothing(Run(EMPTY, es + fs), link, i, e);
  }

  lemma StaleAchievesNothing(w: World, link: string, i: nat, e: Event)
    requires Inv(w) && Stale(w, link) && i in w.confirmations && w.confirmations[i].input.link == link
    ensures !Achieves(w, i, e)
  {
    hide Inv, Stale;
    if Achieves(w, i, e) {
      Fits(w, i);
      var id := w.confirmations[i].copy.id;
      LinkOf(w, id);
      StaleIsNotNewest(w, link, id);
    }
  }

  // ---- Guesses and resends ----

  function Verdicts(w: World, id: string, g: int): nat {
    Count(w.log.verdicts, (id, g))
  }

  /** At most five wrong-code verdicts per generation and twenty in all; there are at most four generations. */
  lemma WrongCodeVerdicts(es: seq<Event>, id: string)
    requires id in Run(EMPTY, es).table
    ensures var w := Run(EMPTY, es);
            && w.table[id].generation == w.table[id].resends + 1 <= 4
            && (forall g :: Verdicts(w, id, g) <= 5)
            && (forall g | g < 1 || 4 < g :: Verdicts(w, id, g) == 0)
            && Verdicts(w, id, 1) + Verdicts(w, id, 2) + Verdicts(w, id, 3) + Verdicts(w, id, 4) <= 20
  {
    Reachable(es);
    hide Run;
    var w := Run(EMPTY, es);
    hide LinksOk, BudgetsOk, ConfirmationsOk, ResendsOk, SessionsOk;
    assert RecordOk(id, w.table[id], w.log);
  }

  /** Codes are compared at most ten times for an address and a charged hour, over all its requests. */
  lemma ComparisonsPerHour(es: seq<Event>, email: string, hour: int)
    ensures Count(Run(EMPTY, es).log.compared, (email, hour)) <= 10
  {
    Reachable(es);
  }

  /**
   By the clock, an hour can see more than ten comparisons for an address, but only by those that were
   charged to the hour before: a request reads the clock, and compares up to 25 seconds later. The
   comparisons of an hour are those charged to it, plus the late ones it takes over, less the late ones it passes on.
   */
  lemma ComparisonsByTheClock(es: seq<Event>, email: string, hour: int)
    ensures var log := Run(EMPTY, es).log;
            var n, late, passed := Count(log.clocked, (email, hour)), Count(log.late, (email, hour)), Count(log.late, (email, hour + 1));
            && n + passed == Count(log.compared, (email, hour)) + late
            && late <= 10 && n <= 10 + late
  {
    Reachable(es);
    hide Run;
    var log := Run(EMPTY, es).log;
    hide TableOk, ConfirmationsOk, ResendsOk, SessionsOk, Spent;
    assert ClockOk(log.compared, log.clocked, log.late, email, hour) && ClockOk(log.compared, log.clocked, log.late, email, hour - 1);
    assert Count(log.compared, (email, hour - 1)) <= Count(Run(EMPTY, es).charges, (CodeEmail(email), hour - 1)) <= 10;
    assert Count(log.compared, (email, hour)) <= Count(Run(EMPTY, es).charges, (CodeEmail(email), hour)) <= 10;
  }

  /** A code of the address is shown in the hour, by a request that read the clock for its charge before the hour began. */
  predicate Straddles(w: World, e: Event, email: string, hour: int) {
    && e.ShowsCode? && e.i in w.confirmations && w.confirmations[e.i].copy.email == email
    && e.t2 / HOUR != hour && w.now / HOUR == hour
  }

  ghost predicate NoneStraddles(w: World, es: seq<Event>, email: string, hour: int)
    decreases |es|
  {
    es != [] ==> !Straddles(w, es[0], email, hour) && NoneStraddles(Step(w, es[0]), es[1..], email, hour)
  }

  lemma LateShow(w: World, i: nat, t: int, t2: int, reported: bool, email: string, hour: int)
    requires !Straddles(w, ShowsCode(i, t, t2, reported), email, hour)
    ensures Count(ShowCode(w, i, t, t2, reported).log.late, (email, hour)) == Count(w.log.late, (email, hour))
  {
    hide Charge, SixDigits, Usable, Alive;
  }

  lemma ProofsAboutLate(w: World, id: string, email: string, challenge: Digest, link: string, code: string, t: int, k: nat)
    ensures SignUp(w, id, email, challenge, link, code, t).log.late == w.log.late && Rotate(w, k, link, code, t).log.late == w.log.late
  {
    hide MayRotate, Rotated, NewTransaction, Current;
  }

  lemma MovesAboutLate(w: World, i: nat, t: int, t2: int)
    ensures FindAbsent(w, i, t, t2).log == w.log && ShowToken(w, i, t).log == w.log
  {
    hide MayRecover, Usable, Alive;
  }

  lemma SwapsAboutLate(w: World, i: nat, t: int, reported: bool)
    ensures Recover(w, i, reported).log == w.log && Claim(w, i, t, reported).log == w.log
    ensures Fail(w, i).log == w.log && Finish(w, i, reported).log == w.log
  {
    hide Current, Alive;
  }

  lemma LogsAboutLate(w: World, i: nat, subject: string, reported: bool)
    ensures Miss(w, i, reported).log.late == w.log.late && CreateUser(w, i, subject, reported).log.late == w.log.late
    ensures Issue(w, i).log.late == w.log.late
  {
    hide Current, Alive, Missed, Count;
  }

  lemma PlainAboutLate(w: World, e: Event)
    requires e.Ticks? || e.Registers? || e.Charges? || e.ReadsForResend? || e.FindsAbsentForResend? || e.Reads? || e.IsRefused? || e.Ends?
    ensures Step(w, e).log == w.log
  {
    hide Charge, Acts;
  }

  lemma OthersAboutLate(w: World, e: Event)
    requires !e.ShowsCode?
    ensures Step(w, e).log.late == w.log.late
  {
    hide SignUp, Rotate, FindAbsent, Recover, ShowToken, ShowCode, Miss, Claim, CreateUser, Fail, Finish, Issue, Charge, Acts, Move, Count;
    match e
    case SignsUp(id, address, challenge, link, code, t) => ProofsAboutLate(w, id, address, challenge, link, code, t, 0);
    case Rotates(k, link, code, t) => ProofsAboutLate(w, "", "", NoDigest, link, code, t, k);
    case FindsAbsent(i, t1, t2) => MovesAboutLate(w, i, t1, t2);
    case ShowsToken(i, t) => MovesAboutLate(w, i, t, t);
    case Recovers(i, reported) => SwapsAboutLate(w, i, 0, reported);
    case Claims(i, t, reported) => SwapsAboutLate(w, i, t, reported);
    case Fails(i) => SwapsAboutLate(w, i, 0, true);
    case Finishes(i, reported) => SwapsAboutLate(w, i, 0, reported);
    case Misses(i, reported) => LogsAboutLate(w, i, "", reported);
    case CreatesUser(i, subject, reported) => LogsAboutLate(w, i, subject, reported);
    case Issues(i) => LogsAboutLate(w, i, "", true);
    case _ => PlainAboutLate(w, e);
  }

  lemma LateStep(w: World, e: Event, email: string, hour: int)
    requires !Straddles(w, e, email, hour)
    ensures Count(Step(w, e).log.late, (email, hour)) == Count(w.log.late, (email, hour))
  {
    if e.ShowsCode? {
      hide ShowCode, Straddles, Count;
      LateShow(w, e.i, e.t, e.t2, e.reported, email, hour);
    } else {
      hide Step, Straddles, Count;
      OthersAboutLate(w, e);
    }
  }

  lemma {:induction false} LateNeedsStraddling(w: World, es: seq<Event>, email: string, hour: int)
    requires NoneStraddles(w, es, email, hour)
    ensures Count(Run(w, es).log.late, (email, hour)) == Count(w.log.late, (email, hour))
    decreases |es|
  {
    hide Step, Straddles;
    if es != [] {
      LateStep(w, es[0], email, hour);
      LateNeedsStraddling(Step(w, es[0]), es[1..], email, hour);
    }
  }

  /** Where no comparison for the address straddles the beginning of the hour, the hour sees at most ten. */
  lemma TenUnlessStraddling(es: seq<Event>, email: string, hour: int)
    requires NoneStraddles(EMPTY, es, email, hour)
    ensures Count(Run(EMPTY, es).log.clocked, (email, hour)) <= 10
  {
    ComparisonsByTheClock(es, email, hour);
    LateNeedsStraddling(EMPTY, es, email, hour);
  }

  // ---- Eleven comparisons in one hour ----

  const GUESS := Input("id", "l", Code("000000"))

  function Guesser(copy: Transaction): Confirmation {
    Confirmation(GUESS, copy, HOUR - 1, Loaded)
  }

  /** Confirmations 0 to `n - 1` wait with the proof they read one second before the hour. */
  predicate Waiting(w: World, n: nat, copy: Transaction) {
    && copy == NewTransaction("id", "a", NoDigest, "l", "111111", HOUR - 1)
    && (forall i: nat | i < n :: i in w.confirmations && w.confirmations[i] == Guesser(copy))
    && (forall i | i in w.confirmations :: i < n)
  }

  lemma {:induction false} ManyRead(n: nat) returns (es: seq<Event>, copy: Transaction)
    ensures var w := Run(EMPTY, es);
            && w.now == HOUR - 1 && Waiting(w, n, copy) && "id" in w.table && w.table["id"] == copy && w.charges == map[] && w.log.clocked == map[]
    decreases n
  {
    copy := NewTransaction("id", "a", NoDigest, "l", "111111", HOUR - 1);
    if n == 0 {
      es := [Ticks(HOUR - 1), SignsUp("id", "a", NoDigest, "l", "111111", HOUR - 1)];
      TwoSteps(EMPTY, es[0], es[1]);
    } else {
      es, copy := ManyRead(n - 1);
      hide Run;
      OneStep(Run(EMPTY, es), Reads(n - 1, GUESS));
      RunAppend(EMPTY, es, [Reads(n - 1, GUESS)]);
      es := es + [Reads(n - 1, GUESS)];
    }
  }

  lemma OneStep(w: World, e: Event)
    ensures Run(w, [e]) == Step(w, e)
  {
    assert Run(w, [e]) == Run(Step(w, e), [e][1..]);
  }

  lemma TwoSteps(w: World, e: Event, f: Event)
    ensures Run(w, [e, f]) == Step(Step(w, e), f)
  {
    OneStep(w, e);
    OneStep(Step(w, e), f);
    assert [e, f] == [e] + [f];
    RunAppend(w, [e], [f]);
  }

  /** The first `k` of the waiting ones have compared their codes after the hour struck, ten of them on the hour before's budget. */
  predicate Compared11(w: World, k: nat, copy: Transaction) {
    && w.now == HOUR && copy == NewTransaction("id", "a", NoDigest, "l", "111111", HOUR - 1)
    && (forall i: nat | k <= i < 11 :: i in w.confirmations && w.confirmations[i] == Guesser(copy))
    && Count(w.charges, (CodeEmail("a"), 0)) == (if k <= 10 then k else 10) && Count(w.charges, (CodeEmail("a"), 1)) <= (if k <= 10 then 0 else k - 10)
    && Count(w.log.clocked, ("a", 1)) == k
  }

  lemma NextCompares(w: World, k: nat, copy: Transaction) returns (e: Event)
    requires Compared11(w, k, copy) && k < 11
    ensures Compared11(Step(w, e), k + 1, copy)
  {
    var t2 := if k < 10 then HOUR - 1 else HOUR;
    e := ShowsCode(k, HOUR - 1, t2, true);
    var v := Step(w, e);
    ComparesOnce(w, k, copy, t2);
    hide Step;
    forall i: nat | k + 1 <= i < 11 ensures i in v.confirmations && v.confirmations[i] == Guesser(copy) {
      assert i in w.confirmations;
    }
  }

  lemma ComparesOnce(w: World, k: nat, copy: Transaction, t2: int)
    requires Compared11(w, k, copy) && k < 11 && t2 == if k < 10 then HOUR - 1 else HOUR
    ensures var v := Step(w, ShowsCode(k, HOUR - 1, t2, true));
            && v.now == w.now && v.charges == w.charges[(CodeEmail("a"), t2 / HOUR) := Count(w.charges, (CodeEmail("a"), t2 / HOUR)) + 1]
            && v.log.clocked == Up(w.log.clocked, ("a", 1))
            && (forall i | i in w.confirmations && i != k :: i in v.confirmations && v.confirmations[i] == w.confirmations[i])
  {
    MayCompare(w, k, copy, t2);
    hide Compared11, ShownUsable, SixDigits, Acts, Usable, NewTransaction;
  }

  lemma MayCompare(w: World, k: nat, copy: Transaction, t2: int)
    requires Compared11(w, k, copy) && k < 11 && t2 == if k < 10 then HOUR - 1 else HOUR
    ensures k in w.confirmations && w.confirmations[k] == Guesser(copy) && ShownUsable(w, k, HOUR - 1) && SixDigits(GUESS.second.code)
    ensures copy.attempts == 0 && copy.email == "a" && HOUR - 1 <= t2 <= w.now && w.now / HOUR == 1
    ensures Count(w.charges, (CodeEmail("a"), t2 / HOUR)) < 10
  {
    assert t2 / HOUR == if k < 10 then 0 else 1;
  }

  lemma {:induction false} ManyCompare(w: World, k: nat, copy: Transaction) returns (es: seq<Event>)
    requires Compared11(w, k, copy) && k <= 11
    ensures Compared11(Run(w, es), 11, copy)
    decreases 11 - k
  {
    es := [];
    if k < 11 {
      hide Compared11, Step;
      var e := NextCompares(w, k, copy);
      var rest := ManyCompare(Step(w, e), k + 1, copy);
      OneStep(w, e);
      RunAppend(w, [e], rest);
      es := [e] + rest;
    }
  }

  /** Eleven comparisons for one address within one hour. */
  lemma ElevenInAnHour() returns (es: seq<Event>)
    ensures Count(Run(EMPTY, es).log.clocked, ("a", 1)) == 11
  {
    var first, copy := ManyRead(11);
    hide Run;
    var w := Run(EMPTY, first);
    OneStep(w, Ticks(1));
    var rest := ManyCompare(Step(w, Ticks(1)), 0, copy);
    RunAppend(w, [Ticks(1)], rest);
    RunAppend(EMPTY, first, [Ticks(1)] + rest);
    es := first + ([Ticks(1)] + rest);
  }

  /** No hourly budget is ever overdrawn: three sign-up and three resend mails for an address, ten requests for a source, ten codes. */
  lemma BudgetsHold(es: seq<Event>, b: Budget, hour: int)
    ensures Count(Run(EMPTY, es).charges, (b, hour)) <= Limit(b)
  {
    Reachable(es);
  }

  /** Proofs of one request are stamped at least a minute apart. */
  lemma RotationsAreSpaced(es: seq<Event>, id: string, n: nat)
    requires var w := Run(EMPTY, es); id in w.log.stamps && id in w.table && 0 < n < |w.log.stamps[id]|
    ensures var w := Run(EMPTY, es);
            && w.log.stamps[id][n] - w.log.stamps[id][n - 1] >= 60
            && |w.log.stamps[id]| == w.table[id].generation
  {
    Reachable(es);
    hide Run, LinksOk, BudgetsOk, ConfirmationsOk, ResendsOk, SessionsOk;
    var w := Run(EMPTY, es);
    assert RecordOk(id, w.table[id], w.log);
  }
}
