/** What every run of the e-mail flow keeps. */
module EmailInvariant {
  import opened Basics
  import opened EmailModel
  import opened EmailWorld

  predicate Counters(r: Transaction) {
    && r.version >= 1 && 0 <= r.resends <= MAX_RESENDS && r.generation == r.resends + 1 && 0 <= r.attempts <= MAX_ATTEMPTS
  }

  predicate Spaced(stamps: seq<int>) {
    forall n | 0 < n < |stamps| :: stamps[n] - stamps[n - 1] >= COOLDOWN
  }

  /** What the log says about a stored proof. */
  ghost predicate LinksFit(r: Transaction, links: map<(string, int), string>) {
    && (forall g | 1 <= g <= r.generation :: (r.id, g) in links)
    && ((r.id, r.generation) in links && !r.state.Confirmed? ==> r.link == OfLink(links[(r.id, r.generation)]))
  }

  predicate StampsFit(r: Transaction, stamps: map<string, seq<int>>) {
    r.id in stamps && |stamps[r.id]| == r.generation >= 1 && Spaced(stamps[r.id]) && stamps[r.id][r.generation - 1] == r.lastSent
  }

  ghost predicate VerdictsFit(r: Transaction, verdicts: map<(string, int), nat>) {
    && (forall g :: Count(verdicts, (r.id, g)) <= MAX_ATTEMPTS)
    && (forall g | g < 1 || g > r.generation :: Count(verdicts, (r.id, g)) == 0)
    && Count(verdicts, (r.id, r.generation)) <= r.attempts
  }

  ghost predicate RecordOk(id: string, r: Transaction, log: Log) {
    r.id == id && Counters(r) && LinksFit(r, log.links) && StampsFit(r, log.stamps) && VerdictsFit(r, log.verdicts)
  }

  /** Links belong to generations of stored proofs, and no two are equal. */
  ghost predicate LinksOk(table: map<string, Transaction>, links: map<(string, int), string>) {
    && (forall p | p in links :: p.0 in table && 1 <= p.1 <= table[p.0].generation)
    && (forall p, q | p in links && q in links && links[p] == links[q] :: p == q)
  }

  ghost predicate RecordsOk(table: map<string, Transaction>, log: Log) {
    forall id | id in table :: RecordOk(id, table[id], log)
  }

  ghost predicate TableOk(table: map<string, Transaction>, log: Log) {
    RecordsOk(table, log) && LinksOk(table, log.links) && forall p | p in log.verdicts :: p.0 in table
  }

  ghost predicate BudgetsOk(charges: map<(Budget, int), nat>, compared: map<(string, int), nat>) {
    && (forall k :: Count(charges, k) <= Limit(k.0))
    && (forall k :: Count(compared, k) <= Count(charges, (CodeEmail(k.0), k.1)))
  }

  /** Comparisons of an hour are those charged to it, with the late ones of the hour before and without its own late ones. */
  ghost predicate ClocksOk(compared: map<(string, int), nat>, clocked: map<(string, int), nat>, late: map<(string, int), nat>) {
    forall email, h :: ClockOk(compared, clocked, late, email, h)
  }

  predicate ClockOk(compared: map<(string, int), nat>, clocked: map<(string, int), nat>, late: map<(string, int), nat>, email: string, h: int) {
    && Count(compared, (email, h)) == Count(clocked, (email, h)) - Count(late, (email, h)) + Count(late, (email, h + 1))
    && Count(late, (email, h)) <= Count(clocked, (email, h))
  }

  /** A copy is the stored proof itself unless a later version has replaced it. */
  ghost predicate Faithful(copy: Transaction, table: map<string, Transaction>) {
    && copy.id in table && Counters(copy) && copy.email == table[copy.id].email && copy.generation <= table[copy.id].generation
    && copy.version <= table[copy.id].version && (copy.version == table[copy.id].version ==> copy == table[copy.id])
  }

  predicate HasClaimed(stage: Stage) {
    stage.Claiming? || stage.Refused? || stage.Created?
  }

  /** Beside the link, the confirmation shows the browser's token or this generation's code. */
  predicate ShowsBoth(c: Confirmation) {
    match c.input.second
    case Token(token) => c.copy.challenge == OfToken(token)
    case Code(code) => c.copy.code == OfCode(c.copy.id, c.copy.generation, code)
  }

  /** What a confirmation has established by the stage it is at. */
  ghost predicate StageFits(c: Confirmation, i: nat, now: int, users: set<string>, creators: map<string, nat>) {
    match c.stage
    case Loaded => true
    case Absent => c.copy.state.Confirming? && c.copy.claimedAt + CLAIM_TIMEOUT <= now && c.copy.link == OfLink(c.input.link)
    case Wrong => c.copy.state.Pending? && c.copy.attempts < MAX_ATTEMPTS
    case Proven => c.copy.state.Pending? && c.copy.link == OfLink(c.input.link) && ShowsBoth(c)
    case Created(_) => c.copy.state.Confirming? && c.at <= c.copy.claimedAt && c.copy.link == OfLink(c.input.link) && ShowsBoth(c)
                       && Made(c.copy.email, i, users, creators)
    case Finished => c.copy.state.Confirmed? && Made(c.copy.email, i, users, creators)
    case Ended => true
    case _ => c.copy.state.Confirming? && c.at <= c.copy.claimedAt && c.copy.link == OfLink(c.input.link) && ShowsBoth(c)
  }

  /** Confirmation `i` created the address's account. */
  predicate Made(email: string, i: nat, users: set<string>, creators: map<string, nat>) {
    email in users && email in creators && creators[email] == i
  }

  ghost predicate ConfirmationOk(c: Confirmation, i: nat, table: map<string, Transaction>, now: int, users: set<string>, log: Log) {
    && c.at <= now && c.copy.id == c.input.id && Faithful(c.copy, table) && StageFits(c, i, now, users, log.creators)
    && (HasClaimed(c.stage) && Alive(c, now) ==> c.copy == table[c.copy.id])
    && (c.stage.Finished? ==> c.copy == table[c.copy.id] && (c.copy.id, c.copy.generation) in log.links
                              && c.input.link == log.links[(c.copy.id, c.copy.generation)])
  }

  ghost predicate Holds(c: Confirmation, table: map<string, Transaction>) {
    HasClaimed(c.stage) && c.copy.id in table && c.copy == table[c.copy.id]
  }

  ghost predicate OneHolder(confirmations: map<nat, Confirmation>, table: map<string, Transaction>) {
    forall i, j | i in confirmations && j in confirmations && Holds(confirmations[i], table) && Holds(confirmations[j], table)
                  && confirmations[i].copy.id == confirmations[j].copy.id :: i == j
  }

  ghost predicate ConfirmationsOk(confirmations: map<nat, Confirmation>, table: map<string, Transaction>, now: int, users: set<string>, log: Log) {
    && (forall i | i in confirmations :: ConfirmationOk(confirmations[i], i, table, now, users, log))
    && OneHolder(confirmations, table)
  }

  ghost predicate ResendsOk(resends: map<nat, Resend>, table: map<string, Transaction>) {
    forall k | k in resends :: Faithful(resends[k].copy, table)
  }

  /** A session's confirmation created the account, and showed the link of the generation that was the newest and stays it. */
  ghost predicate SessionOk(s: Session, i: nat, table: map<string, Transaction>, users: set<string>, log: Log) {
    && s.id in table && table[s.id].state.Confirmed? && table[s.id].generation == s.generation && table[s.id].email == s.email
    && (s.id, s.generation) in log.links && s.link == log.links[(s.id, s.generation)]
    && Made(s.email, i, users, log.creators)
  }

  ghost predicate SessionsOk(table: map<string, Transaction>, users: set<string>, log: Log) {
    forall i | i in log.sessions :: SessionOk(log.sessions[i], i, table, users, log)
  }

  /** A confirmation that got its session is over. */
  ghost predicate Spent(confirmations: map<nat, Confirmation>, sessions: map<nat, Session>) {
    forall i | i in sessions :: i in confirmations && confirmations[i].stage.Ended?
  }

  ghost predicate Inv(w: World) {
    && TableOk(w.table, w.log)
    && BudgetsOk(w.charges, w.log.compared)
    && ClocksOk(w.log.compared, w.log.clocked, w.log.late)
    && ConfirmationsOk(w.confirmations, w.table, w.now, w.users, w.log)
    && ResendsOk(w.resends, w.table)
    && SessionsOk(w.table, w.users, w.log)
    && (forall e | e in w.log.creators :: e in w.users)
    && Spent(w.confirmations, w.log.sessions)
  }

  lemma EmptyInv()
    ensures Inv(EMPTY)
  {
  }

  // ---- Steps that change no proof ----

  lemma TickKeeps(w: World, d: nat)
    requires Inv(w)
    ensures Inv(Step(w, Ticks(d)))
  {
    hide TableOk, RecordOk, BudgetsOk, SessionsOk, ResendsOk, Faithful;
  }

  lemma RegisterKeeps(w: World, email: string)
    requires Inv(w)
    ensures Inv(Step(w, Registers(email)))
  {
    hide TableOk, RecordOk, BudgetsOk, ResendsOk, Faithful;
  }

  lemma StoredIsFaithful(w: World, id: string)
    requires Inv(w) && id in w.table
    ensures Faithful(w.table[id], w.table) && w.table[id].id == id
  {
    assert RecordOk(id, w.table[id], w.log);
  }

  lemma ReadForResendKeeps(w: World, k: nat, id: string)
    requires Inv(w)
    ensures Inv(Step(w, ReadsForResend(k, id))) && Inv(Step(w, FindsAbsentForResend(k)))
  {
    hide TableOk, RecordOk, BudgetsOk, SessionsOk, ConfirmationsOk, Faithful;
    if id in w.table {
      StoredIsFaithful(w, id);
    }
  }

  /** A confirmation may take any place that fits it, but only one may hold a claim. */
  lemma Joins(w: World, i: nat, c: Confirmation)
    requires Inv(w) && ConfirmationOk(c, i, w.table, w.now, w.users, w.log)
    requires i in w.log.sessions ==> c.stage.Ended?
    requires Holds(c, w.table) ==> forall j | j in w.confirmations && j != i && w.confirmations[j].copy.id == c.copy.id :: !Holds(w.confirmations[j], w.table)
    ensures Inv(w.(confirmations := w.confirmations[i := c]))
  {
    hide TableOk, RecordOk, BudgetsOk, SessionsOk, ResendsOk, Faithful, StageFits;
    var all := w.confirmations[i := c];
    forall j | j in all ensures ConfirmationOk(all[j], j, w.table, w.now, w.users, w.log) {
      if j != i {
        assert ConfirmationOk(w.confirmations[j], j, w.table, w.now, w.users, w.log);
      }
    }
    assert OneHolder(all, w.table);
  }

  lemma ReadKeeps(w: World, i: nat, input: Input)
    requires Inv(w)
    ensures Inv(Step(w, Reads(i, input)))
  {
    hide TableOk, RecordOk, BudgetsOk, SessionsOk, ResendsOk, ConfirmationsOk, Faithful;
    if i !in w.confirmations && input.id in w.table {
      StoredIsFaithful(w, input.id);
      Joins(w, i, Confirmation(input, w.table[input.id], w.now, Loaded));
    }
  }

  lemma Fits(w: World, i: nat)
    requires Inv(w) && i in w.confirmations
    ensures ConfirmationOk(w.confirmations[i], i, w.table, w.now, w.users, w.log)
    ensures i in w.log.sessions ==> w.confirmations[i].stage.Ended?
  {
    hide TableOk, RecordOk, BudgetsOk, SessionsOk, ResendsOk, Faithful, StageFits, OneHolder;
  }

  lemma EndKeeps(w: World, i: nat)
    requires Inv(w) && i in w.confirmations
    ensures Inv(Move(w, i, Ended))
  {
    hide Inv, Faithful;
    Fits(w, i);
    Joins(w, i, w.confirmations[i].(stage := Ended));
  }

  lemma FindKeeps(w: World, i: nat, t1: int, t2: int)
    requires Inv(w)
    ensures Inv(FindAbsent(w, i, t1, t2))
  {
    hide Inv, Faithful;
    if FindAbsent(w, i, t1, t2) != w {
      Fits(w, i);
      Joins(w, i, w.confirmations[i].(stage := Absent));
    }
  }

  lemma ShowTokenKeeps(w: World, i: nat, t: int)
    requires Inv(w)
    ensures Inv(ShowToken(w, i, t))
  {
    hide Inv, Faithful;
    if ShowToken(w, i, t) != w {
      Fits(w, i);
      Joins(w, i, w.confirmations[i].(stage := Proven));
    }
  }

  /** Charging and comparing touch nothing but the counters. */
  lemma CompareKeeps(w: World, email: string, hour: int, compares: bool)
    requires Inv(w) && Charge(w, CodeEmail(email), hour).Some? && hour <= w.now / HOUR <= hour + 1
    ensures Inv(Compared(w, email, hour, compares))
  {
    hide ConfirmationsOk, ResendsOk, SessionsOk, TableOk, ClocksOk, BudgetsOk, Charge;
    var v := Compared(w, email, hour, compares);
    LogFrame(w.table, w.users, w.confirmations, w.now, w.log, v.log);
    ClockKeeps(w.log, email, hour, w.now / HOUR);
    BudgetKeeps(w, email, hour);
  }

  lemma BudgetKeeps(w: World, email: string, hour: int)
    requires BudgetsOk(w.charges, w.log.compared) && Charge(w, CodeEmail(email), hour).Some?
    ensures BudgetsOk(Charge(w, CodeEmail(email), hour).value, w.log.compared)
    ensures BudgetsOk(Charge(w, CodeEmail(email), hour).value, Up(w.log.compared, (email, hour)))
  {
    var charges := Charge(w, CodeEmail(email), hour).value;
    assert charges == w.charges[(CodeEmail(email), hour) := Count(w.charges, (CodeEmail(email), hour)) + 1];
    hide Charge;
  }

  lemma ClockKeeps(log: Log, email: string, hour: int, at: int)
    requires ClocksOk(log.compared, log.clocked, log.late) && hour <= at <= hour + 1
    ensures var after := CountComparison(log, email, hour, at); ClocksOk(after.compared, after.clocked, after.late)
  {
    var after := CountComparison(log, email, hour, at);
    forall e, h ensures ClockOk(after.compared, after.clocked, after.late, e, h) {
      assert ClockOk(log.compared, log.clocked, log.late, e, h);
    }
  }

  lemma ChargeKeeps(w: World, b: Budget, t: int)
    requires Inv(w)
    ensures Inv(Step(w, Charges(b, t)))
  {
    hide TableOk, ConfirmationsOk, ResendsOk, SessionsOk, RecordOk;
  }

  function Compared(w: World, email: string, hour: int, compares: bool): World
    requires Charge(w, CodeEmail(email), hour).Some?
  {
    w.(charges := Charge(w, CodeEmail(email), hour).value, log := if compares then CountComparison(w.log, email, hour, w.now / HOUR) else w.log)
  }

  lemma LogFrame(table: map<string, Transaction>, users: set<string>, confirmations: map<nat, Confirmation>, now: int, log: Log, after: Log)
    requires after == log.(compared := after.compared, clocked := after.clocked, late := after.late)
    ensures TableOk(table, log) ==> TableOk(table, after)
    ensures ConfirmationsOk(confirmations, table, now, users, log) ==> ConfirmationsOk(confirmations, table, now, users, after)
    ensures SessionsOk(table, users, log) ==> SessionsOk(table, users, after)
  {
    hide LinksFit, StampsFit, VerdictsFit, Faithful, StageFits, Made, OneHolder;
  }

  /** Within a request's life the clock moves on by at most one hour mark. */
  lemma HoursMeet(at: int, t: int, now: int)
    requires at <= t <= now <= at + REQUEST_LIMIT
    ensures t / HOUR <= now / HOUR <= t / HOUR + 1
  {
  }

  lemma ShowCodeKeeps(w: World, i: nat, t: int, t2: int, reported: bool)
    requires Inv(w)
    ensures Inv(ShowCode(w, i, t, t2, reported))
  {
    hide Inv, Faithful;
    if ShowCode(w, i, t, t2, reported) != w {
      Fits(w, i);
      EndKeeps(w, i);
      var c := w.confirmations[i];
      var hour := t2 / HOUR;
      if Charge(w, CodeEmail(c.copy.email), hour).Some? {
        HoursMeet(c.at, t2, w.now);
        CompareKeeps(w, c.copy.email, hour, reported);
        var v := Compared(w, c.copy.email, hour, reported);
        var stage := if !reported then Ended else if c.copy.code == OfCode(c.copy.id, c.copy.generation, c.input.second.code) then Proven else Wrong;
        Fits(v, i);
        Joins(v, i, c.(stage := stage));
      }
    }
  }

  // ---- Writes to a proof ----

  /** The next version of a stored proof that is not yet confirmed. */
  predicate Succeeds(r: Transaction, next: Transaction) {
    && !r.state.Confirmed? && next.id == r.id && next.email == r.email && next.version == r.version + 1 && r.generation <= next.generation
  }

  predicate Grows(log: Log, after: Log) {
    && after.sessions == log.sessions && after.creators == log.creators && after.compared == log.compared
    && after.clocked == log.clocked && after.late == log.late
    && (forall p | p in log.links :: p in after.links && after.links[p] == log.links[p])
  }

  lemma CopiesSurvive(copy: Transaction, table: map<string, Transaction>, id: string, next: Transaction)
    requires Faithful(copy, table) && id in table && table[id].id == id && Succeeds(table[id], next)
    ensures Faithful(copy, table[id := next])
    ensures copy.id == id ==> copy != next
  {
  }

  /** No live confirmation but those in `gone` holds a claim on the proof. */
  ghost predicate Unclaimed(w: World, id: string, gone: set<nat>) {
    forall j | j in w.confirmations && j !in gone && Holds(w.confirmations[j], w.table) && w.confirmations[j].copy.id == id
      :: !Alive(w.confirmations[j], w.now)
  }

  lemma ConfirmationSurvives(c: Confirmation, i: nat, w: World, id: string, next: Transaction, log: Log)
    requires ConfirmationOk(c, i, w.table, w.now, w.users, w.log) && Grows(w.log, log)
    requires id in w.table && w.table[id].id == id && Succeeds(w.table[id], next)
    requires HasClaimed(c.stage) && c.copy.id == id && Alive(c, w.now) ==> !Holds(c, w.table)
    ensures ConfirmationOk(c, i, w.table[id := next], w.now, w.users, log)
    ensures c.copy.id == id ==> !Holds(c, w.table[id := next])
  {
    CopiesSurvive(c.copy, w.table, id, next);
  }

  lemma SessionsSurvive(w: World, id: string, next: Transaction, log: Log)
    requires SessionsOk(w.table, w.users, w.log) && Grows(w.log, log) && id in w.table && Succeeds(w.table[id], next)
    ensures SessionsOk(w.table[id := next], w.users, log)
  {
    forall i | i in log.sessions ensures SessionOk(log.sessions[i], i, w.table[id := next], w.users, log) {
      assert SessionOk(w.log.sessions[i], i, w.table, w.users, w.log);
    }
  }

  lemma Replaces(w: World, id: string, next: Transaction, log: Log, gone: set<nat>)
    requires Inv(w) && id in w.table && w.table[id].id == id && Succeeds(w.table[id], next) && Unclaimed(w, id, gone)
    requires TableOk(w.table[id := next], log) && Grows(w.log, log) && gone !! w.log.sessions.Keys
    ensures Inv(w.(table := w.table[id := next], log := log, confirmations := w.confirmations - gone))
    ensures var kept := w.confirmations - gone;
            forall j | j in kept && kept[j].copy.id == id :: !Holds(kept[j], w.table[id := next])
  {
    hide TableOk, StageFits, Faithful, SessionsOk;
    var table, kept := w.table[id := next], w.confirmations - gone;
    forall j | j in kept
      ensures ConfirmationOk(kept[j], j, table, w.now, w.users, log) && (kept[j].copy.id == id ==> !Holds(kept[j], table))
    {
      Fits(w, j);
      ConfirmationSurvives(w.confirmations[j], j, w, id, next, log);
    }
    forall k | k in w.resends ensures Faithful(w.resends[k].copy, table) {
      CopiesSurvive(w.resends[k].copy, w.table, id, next);
    }
    SessionsSurvive(w, id, next, log);
    assert OneHolder(kept, table) by {
      forall i, j | i in kept && j in kept && Holds(kept[i], table) && Holds(kept[j], table) && kept[i].copy.id == kept[j].copy.id ensures i == j {
        assert Holds(w.confirmations[i], w.table) && Holds(w.confirmations[j], w.table);
      }
    }
  }

  /** A confirmation's write that leaves the proof's link, generation and stamps alone. */
  predicate Edits(r: Transaction, next: Transaction) {
    && Succeeds(r, next) && next.generation == r.generation && next.resends == r.resends && next.lastSent == r.lastSent
    && (next.state.Confirmed? || next.link == r.link) && r.attempts <= next.attempts <= MAX_ATTEMPTS
  }

  lemma EditsRecord(id: string, r: Transaction, next: Transaction, log: Log)
    requires RecordOk(id, r, log) && Edits(r, next)
    ensures RecordOk(id, next, log)
  {
  }

  lemma EditsTable(w: World, id: string, next: Transaction)
    requires TableOk(w.table, w.log) && id in w.table && Edits(w.table[id], next)
    ensures TableOk(w.table[id := next], w.log) && w.table[id].id == id && Counters(next)
  {
    hide LinksFit, StampsFit, VerdictsFit, Counters;
    assert RecordOk(id, w.table[id], w.log);
    EditsRecord(id, w.table[id], next, w.log);
  }

  /** While the caller works on the stored proof, no other live confirmation holds a claim on it. */
  ghost predicate Alone(w: World, i: nat) {
    i in w.confirmations && w.confirmations[i].copy.id in w.table && Unclaimed(w, w.confirmations[i].copy.id, {i})
  }

  lemma SwapKeeps(w: World, i: nat, next: Transaction, stage: Stage)
    requires Inv(w) && i in w.confirmations && !w.confirmations[i].stage.Ended? && Current(w, w.confirmations[i].copy) && Alone(w, i)
    requires Edits(w.confirmations[i].copy, next)
    requires stage.Loaded? || stage.Ended? || StageFits(w.confirmations[i].(copy := next, stage := stage), i, w.now, w.users, w.log.creators)
    requires stage.Finished? ==> w.confirmations[i].copy.link == OfLink(w.confirmations[i].input.link)
    ensures Inv(Swap(w, i, next, stage))
    ensures w.confirmations[i].copy == w.table[w.confirmations[i].copy.id]
  {
    hide TableOk, SessionsOk, ResendsOk, BudgetsOk, ConfirmationsOk;
    Fits(w, i);
    var c := w.confirmations[i];
    var id := c.copy.id;
    assert c.copy == w.table[id];
    EditsTable(w, id, next);
    Replaces(w, id, next, w.log, {i});
    var v := w.(table := w.table[id := next], confirmations := w.confirmations - {i});
    if stage.Finished? {
      LinkOf(w, id);
    }
    Joins(v, i, c.(copy := next, stage := stage));
    assert (w.confirmations - {i})[i := c.(copy := next, stage := stage)] == w.confirmations[i := c.(copy := next, stage := stage)];
  }

  lemma LinkOf(w: World, id: string)
    requires Inv(w) && id in w.table
    ensures w.table[id].id == id && Counters(w.table[id]) && (id, w.table[id].generation) in w.log.links
    ensures !w.table[id].state.Confirmed? ==> w.table[id].link == OfLink(w.log.links[(id, w.table[id].generation)])
  {
    assert RecordOk(id, w.table[id], w.log);
  }

  /** A pending or failed proof is held by no live confirmation. */
  lemma NotConfirmingIsUnclaimed(w: World, id: string)
    requires Inv(w) && id in w.table && !w.table[id].state.Confirming?
    ensures Unclaimed(w, id, {})
  {
    hide TableOk, SessionsOk, ResendsOk, BudgetsOk;
    forall j | j in w.confirmations && w.confirmations[j].copy.id == id
      ensures Holds(w.confirmations[j], w.table) ==> !Alive(w.confirmations[j], w.now)
    {
      Fits(w, j);
    }
  }

  lemma PendingIsAlone(w: World, i: nat)
    requires Inv(w) && i in w.confirmations && Current(w, w.confirmations[i].copy) && w.confirmations[i].copy.state.Pending?
    ensures Alone(w, i) && w.confirmations[i].copy == w.table[w.confirmations[i].copy.id]
  {
    hide TableOk, SessionsOk, ResendsOk, BudgetsOk, ConfirmationsOk;
    Fits(w, i);
    NotConfirmingIsUnclaimed(w, w.confirmations[i].copy.id);
  }

  /** A claim that is a minute old has outlived the confirmation that made it. */
  lemma OldClaimIsAlone(w: World, i: nat)
    requires Inv(w) && i in w.confirmations && Current(w, w.confirmations[i].copy) && w.confirmations[i].stage.Absent?
    ensures Alone(w, i) && w.confirmations[i].copy == w.table[w.confirmations[i].copy.id]
  {
    hide TableOk, SessionsOk, ResendsOk, BudgetsOk, ConfirmationsOk;
    Fits(w, i);
    forall j | j in w.confirmations && w.confirmations[j].copy.id == w.confirmations[i].copy.id
      ensures Holds(w.confirmations[j], w.table) ==> !Alive(w.confirmations[j], w.now)
    {
      Fits(w, j);
    }
  }

  lemma HolderIsAlone(w: World, i: nat)
    requires Inv(w) && i in w.confirmations && Alive(w.confirmations[i], w.now) && HasClaimed(w.confirmations[i].stage)
    ensures Alone(w, i) && w.confirmations[i].copy == w.table[w.confirmations[i].copy.id]
    ensures forall j | j in w.confirmations && j != i && w.confirmations[j].copy.id == w.confirmations[i].copy.id :: !Holds(w.confirmations[j], w.table)
  {
    hide TableOk, SessionsOk, ResendsOk, BudgetsOk, StageFits;
    Fits(w, i);
  }

  lemma RecoverKeeps(w: World, i: nat, reported: bool)
    requires Inv(w)
    ensures Inv(Recover(w, i, reported))
  {
    hide Inv;
    if Acts(w, i, Absent) {
      EndKeeps(w, i);
      if Current(w, w.confirmations[i].copy) {
        Fits(w, i);
        OldClaimIsAlone(w, i);
        SwapKeeps(w, i, Recovered(w.confirmations[i].copy), if reported then Loaded else Ended);
      }
    }
  }

  lemma ClaimKeeps(w: World, i: nat, t: int, reported: bool)
    requires Inv(w)
    ensures Inv(Claim(w, i, t, reported))
  {
    hide Inv;
    if Acts(w, i, Proven) && w.confirmations[i].at <= t <= w.now {
      EndKeeps(w, i);
      if Current(w, w.confirmations[i].copy) {
        Fits(w, i);
        PendingIsAlone(w, i);
        SwapKeeps(w, i, Claimed(w.confirmations[i].copy, t), if reported then Claiming else Ended);
      }
    }
  }

  lemma FailKeeps(w: World, i: nat)
    requires Inv(w)
    ensures Inv(Fail(w, i))
  {
    hide Inv;
    if Acts(w, i, Refused) {
      EndKeeps(w, i);
      if Current(w, w.confirmations[i].copy) {
        Fits(w, i);
        HolderIsAlone(w, i);
        SwapKeeps(w, i, MarkedFailed(w.confirmations[i].copy), Ended);
      }
    }
  }

  lemma FinishKeeps(w: World, i: nat, reported: bool)
    requires Inv(w)
    ensures Inv(Finish(w, i, reported))
  {
    hide Inv;
    if i in w.confirmations && w.confirmations[i].stage.Created? && Alive(w.confirmations[i], w.now) {
      EndKeeps(w, i);
      if Current(w, w.confirmations[i].copy) {
        Fits(w, i);
        HolderIsAlone(w, i);
        SwapKeeps(w, i, Done(w.confirmations[i].copy, w.confirmations[i].stage.subject), if reported then Finished else Ended);
      }
    }
  }

  // ---- Verdicts ----

  lemma VerdictCounts(w: World, id: string, g: int)
    requires Inv(w) && id in w.table && g == w.table[id].generation && Count(w.log.verdicts, (id, g)) < w.table[id].attempts
    ensures Inv(w.(log := w.log.(verdicts := w.log.verdicts[(id, g) := Count(w.log.verdicts, (id, g)) + 1])))
  {
    hide BudgetsOk, ResendsOk, ConfirmationsOk, SessionsOk, TableOk, Count;
    var log := w.log.(verdicts := w.log.verdicts[(id, g) := Count(w.log.verdicts, (id, g)) + 1]);
    VerdictsFrame(w, log);
    VerdictsTable(w.table, w.log, id, g);
  }

  lemma VerdictsFrame(w: World, after: Log)
    requires after == w.log.(verdicts := after.verdicts)
    ensures ConfirmationsOk(w.confirmations, w.table, w.now, w.users, w.log) ==> ConfirmationsOk(w.confirmations, w.table, w.now, w.users, after)
    ensures SessionsOk(w.table, w.users, w.log) ==> SessionsOk(w.table, w.users, after)
  {
    hide Faithful, StageFits, Made, OneHolder;
  }

  lemma VerdictsRecord(id: string, r: Transaction, log: Log, jd: string, g: int)
    requires RecordOk(id, r, log)
    requires id == jd ==> g == r.generation && Count(log.verdicts, (jd, g)) < r.attempts
    ensures RecordOk(id, r, log.(verdicts := log.verdicts[(jd, g) := Count(log.verdicts, (jd, g)) + 1]))
  {
    var after := log.verdicts[(jd, g) := Count(log.verdicts, (jd, g)) + 1];
    assert forall h :: Count(after, (id, h)) == Count(log.verdicts, (id, h)) + if id == jd && h == g then 1 else 0;
    assert forall h :: Count(log.verdicts, (r.id, h)) <= MAX_ATTEMPTS;
  }

  lemma VerdictsRecords(table: map<string, Transaction>, log: Log, id: string, g: int)
    requires RecordsOk(table, log) && id in table && g == table[id].generation && Count(log.verdicts, (id, g)) < table[id].attempts
    ensures RecordsOk(table, log.(verdicts := log.verdicts[(id, g) := Count(log.verdicts, (id, g)) + 1]))
  {
    hide RecordOk;
    var after := log.(verdicts := log.verdicts[(id, g) := Count(log.verdicts, (id, g)) + 1]);
    forall jd | jd in table ensures RecordOk(jd, table[jd], after) {
      VerdictsRecord(jd, table[jd], log, id, g);
    }
  }

  lemma VerdictsTable(table: map<string, Transaction>, log: Log, id: string, g: int)
    requires TableOk(table, log) && id in table && g == table[id].generation && Count(log.verdicts, (id, g)) < table[id].attempts
    ensures TableOk(table, log.(verdicts := log.verdicts[(id, g) := Count(log.verdicts, (id, g)) + 1]))
  {
    hide RecordsOk, LinksOk, Count;
    VerdictsRecords(table, log, id, g);
  }

  lemma VerdictsBelow(w: World, id: string)
    requires Inv(w) && id in w.table
    ensures Count(w.log.verdicts, (id, w.table[id].generation)) <= w.table[id].attempts
  {
    assert RecordOk(id, w.table[id], w.log);
  }

  lemma MissKeeps(w: World, i: nat, reported: bool)
    requires Inv(w)
    ensures Inv(Miss(w, i, reported))
  {
    hide Inv;
    if Acts(w, i, Wrong) {
      EndKeeps(w, i);
      if Current(w, w.confirmations[i].copy) {
        Fits(w, i);
        PendingIsAlone(w, i);
        var r := w.confirmations[i].copy;
        VerdictsBelow(w, r.id);
        SwapKeeps(w, i, Missed(r), Ended);
        VerdictCounts(Swap(w, i, Missed(r), Ended), r.id, r.generation);
      }
    }
  }

  // ---- Users and sessions ----

  /** A newly created user has one creator, and nobody else is taken for it. */
  lemma CreatorsGrow(w: World, email: string, creators: map<string, nat>, i: nat)
    requires Inv(w) && email !in w.users
    requires creators == w.log.creators || creators == w.log.creators[email := i]
    ensures Inv(w.(users := w.users + {email}, log := w.log.(creators := creators)))
  {
    hide TableOk, BudgetsOk, ResendsOk, Faithful, OneHolder;
    var users, log := w.users + {email}, w.log.(creators := creators);
    assert TableOk(w.table, log) by {
      LogFrame2(w.table, w.log, log);
    }
    forall j | j in w.confirmations ensures ConfirmationOk(w.confirmations[j], j, w.table, w.now, users, log) {
      assert ConfirmationOk(w.confirmations[j], j, w.table, w.now, w.users, w.log);
    }
    forall j | j in log.sessions ensures SessionOk(log.sessions[j], j, w.table, users, log) {
      assert SessionOk(w.log.sessions[j], j, w.table, w.users, w.log);
    }
  }

  lemma LogFrame2(table: map<string, Transaction>, log: Log, after: Log)
    requires after.links == log.links && after.stamps == log.stamps && after.verdicts == log.verdicts && TableOk(table, log)
    ensures TableOk(table, after)
  {
    hide LinksFit, StampsFit, VerdictsFit, Counters;
  }

  lemma CreateKeeps(w: World, i: nat, subject: string, reported: bool)
    requires Inv(w)
    ensures Inv(CreateUser(w, i, subject, reported))
  {
    hide Inv;
    var v := CreateUser(w, i, subject, reported);
    if v != w {
      Fits(w, i);
      var c := w.confirmations[i];
      var creators := if reported then w.log.creators[c.copy.email := i] else w.log.creators;
      CreatorsGrow(w, c.copy.email, creators, i);
      var u := w.(users := w.users + {c.copy.email}, log := w.log.(creators := creators));
      Fits(u, i);
      HolderIsAlone(w, i);
      Joins(u, i, c.(stage := if reported then Created(subject) else Refused));
    }
  }

  lemma RefuseKeeps(w: World, i: nat)
    requires Inv(w) && Acts(w, i, Claiming)
    ensures Inv(Move(w, i, Refused))
  {
    hide Inv;
    Fits(w, i);
    HolderIsAlone(w, i);
    Joins(w, i, w.confirmations[i].(stage := Refused));
  }

  lemma IssueKeeps(w: World, i: nat)
    requires Inv(w)
    ensures Inv(Issue(w, i))
  {
    hide Inv, Faithful;
    if Acts(w, i, Finished) {
      Fits(w, i);
      assert Faithful(w.confirmations[i].copy, w.table);
      CopyIsStored(w.confirmations[i].copy, w.table);
      LinkOf(w, w.confirmations[i].copy.id);
      var c := w.confirmations[i];
      var log := w.log.(sessions := w.log.sessions[i := Session(c.copy.email, c.copy.id, c.input.link, c.copy.generation)]);
      EndKeeps(w, i);
      SessionJoins(Move(w, i, Ended), log, i);
    }
  }

  lemma CopyIsStored(copy: Transaction, table: map<string, Transaction>)
    requires Faithful(copy, table)
    ensures copy.id in table && copy.email == table[copy.id].email
  {
  }

  lemma SessionJoins(w: World, log: Log, i: nat)
    requires Inv(w) && i in log.sessions && log == w.log.(sessions := w.log.sessions[i := log.sessions[i]])
    requires SessionOk(log.sessions[i], i, w.table, w.users, w.log) && i in w.confirmations && w.confirmations[i].stage.Ended?
    ensures Inv(w.(log := log))
  {
    hide TableOk, BudgetsOk, ResendsOk, Faithful, OneHolder, StageFits;
    LogFrame2(w.table, w.log, log);
  }

  // ---- New and rotated proofs ----

  lemma SignUpRecords(w: World, id: string, r: Transaction, log: Log)
    requires TableOk(w.table, w.log) && id !in w.table && r.id == id && Counters(r) && r.generation == 1 && r.state.Pending?
    requires r.link.OfLink? && r.link.link !in w.log.links.Values
    requires log == w.log.(links := w.log.links[(id, 1) := r.link.link], stamps := w.log.stamps[id := [r.lastSent]])
    ensures TableOk(w.table[id := r], log)
  {
    hide RecordOk;
    forall jd | jd in w.table ensures RecordOk(jd, w.table[jd], log) {
      assert RecordOk(jd, w.table[jd], w.log);
      RecordFrame(jd, w.table[jd], w.log, log, id);
    }
    NewRecord(id, r, log);
  }

  /** A log that differs only about another proof. */
  lemma RecordFrame(id: string, r: Transaction, log: Log, after: Log, jd: string)
    requires RecordOk(id, r, log) && id != jd && after.verdicts == log.verdicts
    requires forall p | p in log.links && p.0 == id :: p in after.links && after.links[p] == log.links[p]
    requires id in log.stamps ==> id in after.stamps && after.stamps[id] == log.stamps[id]
    ensures RecordOk(id, r, after)
  {
  }

  lemma NewRecord(id: string, r: Transaction, log: Log)
    requires r.id == id && Counters(r) && r.generation == 1 && r.state.Pending?
    requires (id, 1) in log.links && r.link == OfLink(log.links[(id, 1)]) && id in log.stamps && log.stamps[id] == [r.lastSent]
    requires forall p | p in log.verdicts :: p.0 != id
    ensures RecordOk(id, r, log)
  {
    assert forall g :: Count(log.verdicts, (id, g)) == 0;
    assert VerdictsFit(r, log.verdicts);
  }

  lemma SignUpKeeps(w: World, id: string, email: string, challenge: Digest, link: string, code: string, t: int)
    requires Inv(w)
    ensures Inv(SignUp(w, id, email, challenge, link, code, t))
  {
    hide TableOk, BudgetsOk, StageFits, OneHolder;
    var v := SignUp(w, id, email, challenge, link, code, t);
    if v != w {
      var r := NewTransaction(id, email, challenge, link, code, t);
      SignUpRecords(w, id, r, v.log);
      forall j | j in w.confirmations ensures ConfirmationOk(w.confirmations[j], j, v.table, v.now, v.users, v.log) {
        assert ConfirmationOk(w.confirmations[j], j, w.table, w.now, w.users, w.log);
      }
      OneHolderFrame(w.confirmations, w.table, id, r);
    }
  }

  lemma OneHolderFrame(confirmations: map<nat, Confirmation>, table: map<string, Transaction>, id: string, r: Transaction)
    requires OneHolder(confirmations, table) && id !in table && forall j | j in confirmations :: confirmations[j].copy.id in table
    ensures OneHolder(confirmations, table[id := r])
  {
  }

  lemma RotateRecord(r: Transaction, link: string, code: string, t: int, log: Log, after: Log)
    requires RecordOk(r.id, r, log) && MayRotate(r, true, t)
    requires after == log.(links := log.links[(r.id, r.generation + 1) := link], stamps := log.stamps[r.id := log.stamps[r.id] + [t]])
    ensures RecordOk(r.id, Rotated(r, link, code, t), after)
  {
    var next := Rotated(r, link, code, t);
    var stamps := log.stamps[r.id];
    forall n | 0 < n < |stamps + [t]| ensures (stamps + [t])[n] - (stamps + [t])[n - 1] >= COOLDOWN {
      if n < |stamps| {
        assert stamps[n] - stamps[n - 1] >= COOLDOWN;
      }
    }
    assert StampsFit(next, after.stamps);
    assert LinksFit(next, after.links);
    assert VerdictsFit(next, after.verdicts);
  }

  lemma RotateLinks(table: map<string, Transaction>, links: map<(string, int), string>, id: string, next: Transaction, link: string)
    requires LinksOk(table, links) && id in table && link !in links.Values
    requires next.generation == table[id].generation + 1 >= 1
    ensures LinksOk(table[id := next], links[(id, next.generation) := link])
  {
    assert forall p | p in links :: links[p] in links.Values;
  }

  lemma RotateTable(w: World, id: string, link: string, code: string, t: int, log: Log)
    requires TableOk(w.table, w.log) && id in w.table && w.table[id].id == id && MayRotate(w.table[id], true, t)
    requires link !in w.log.links.Values && id in w.log.stamps
    requires log == w.log.(links := w.log.links[(id, w.table[id].generation + 1) := link], stamps := w.log.stamps[id := w.log.stamps[id] + [t]])
    ensures TableOk(w.table[id := Rotated(w.table[id], link, code, t)], log)
  {
    hide LinksOk, LinksFit, StampsFit, VerdictsFit;
    var table := w.table[id := Rotated(w.table[id], link, code, t)];
    assert RecordOk(id, w.table[id], w.log);
    RotateLinks(w.table, w.log.links, id, Rotated(w.table[id], link, code, t), link);
    hide RecordOk;
    RotateRecord(w.table[id], link, code, t, w.log, log);
    forall jd | jd in table ensures RecordOk(jd, table[jd], log) {
      if jd != id {
        assert RecordOk(jd, w.table[jd], w.log);
        RecordFrame(jd, w.table[jd], w.log, log, id);
      }
    }
  }

  lemma RotateKeeps(w: World, k: nat, link: string, code: string, t: int)
    requires Inv(w)
    ensures Inv(Rotate(w, k, link, code, t))
  {
    hide TableOk, BudgetsOk, StageFits, ConfirmationsOk, SessionsOk;
    var v := Rotate(w, k, link, code, t);
    if v != w {
      assert Faithful(w.resends[k].copy, w.table);
      var r := w.resends[k].copy;
      assert w.table[r.id] == r;
      StampOf(w, r.id);
      RotateTable(w, r.id, link, code, t, v.log);
      NotConfirmingIsUnclaimed(w, r.id);
      LinkOf(w, r.id);
      assert (r.id, r.generation + 1) !in w.log.links by { LinksBelow(w, r.id, r.generation + 1); }
      Replaces(w, r.id, Rotated(r, link, code, t), v.log, {});
      assert w.confirmations - {} == w.confirmations;
    }
  }

  lemma StampOf(w: World, id: string)
    requires Inv(w) && id in w.table
    ensures id in w.log.stamps
  {
    assert RecordOk(id, w.table[id], w.log);
  }

  lemma LinksBelow(w: World, id: string, g: int)
    requires Inv(w) && id in w.table && g > w.table[id].generation
    ensures (id, g) !in w.log.links
  {
  }

  // ---- Every run ----

  lemma StepKeeps(w: World, e: Event)
    requires Inv(w)
    ensures Inv(Step(w, e))
  {
    hide Inv, SignUp, Rotate, FindAbsent, Recover, ShowToken, ShowCode, Miss, Claim, CreateUser, Fail, Finish, Issue;
    match e
    case Ticks(d) => TickKeeps(w, d);
    case Registers(email) => RegisterKeeps(w, email);
    case Charges(b, t) => ChargeKeeps(w, b, t);
    case SignsUp(id, email, challenge, link, code, t) => SignUpKeeps(w, id, email, challenge, link, code, t);
    case ReadsForResend(k, id) => ReadForResendKeeps(w, k, id);
    case FindsAbsentForResend(k) => ReadForResendKeeps(w, k, "");
    case Rotates(k, link, code, t) => RotateKeeps(w, k, link, code, t);
    case Reads(i, input) => ReadKeeps(w, i, input);
    case FindsAbsent(i, t1, t2) => FindKeeps(w, i, t1, t2);
    case Recovers(i, reported) => RecoverKeeps(w, i, reported);
    case ShowsToken(i, t) => ShowTokenKeeps(w, i, t);
    case ShowsCode(i, t, t2, reported) => ShowCodeKeeps(w, i, t, t2, reported);
    case Misses(i, reported) => MissKeeps(w, i, reported);
    case Claims(i, t, reported) => ClaimKeeps(w, i, t, reported);
    case CreatesUser(i, subject, reported) => CreateKeeps(w, i, subject, reported);
    case IsRefused(i) => if Acts(w, i, Claiming) { RefuseKeeps(w, i); }
    case Fails(i) => FailKeeps(w, i);
    case Finishes(i, reported) => FinishKeeps(w, i, reported);
    case Issues(i) => IssueKeeps(w, i);
    case Ends(i) => if i in w.confirmations { EndKeeps(w, i); }
  }

  lemma {:induction false} RunKeeps(w: World, es: seq<Event>)
    requires Inv(w)
    ensures Inv(Run(w, es))
    decreases |es|
  {
    hide Inv, Step;
    if es != [] {
      StepKeeps(w, es[0]);
      RunKeeps(Step(w, es[0]), es[1..]);
    }
  }
}
