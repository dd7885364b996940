/**
 The table of e-mail proofs, the hourly budgets, the identity provider and the requests in flight.
 The provider refuses to create a user that exists and never deletes one. Every table access and
 every provider call is one event.
 */
module EmailWorld {
  import opened Basics
  import opened EmailModel

  datatype Stage =
    | Loaded
    | Absent
    | Wrong
    | Proven
    | Claiming
    | Refused
    | Created(subject: string)
    | Finished
    | Ended

  /** A confirmation that read `copy` at `at`; its Lambda ends by `at + REQUEST_LIMIT`. */
  datatype Confirmation = Confirmation(input: Input, copy: Transaction, at: int, stage: Stage)

  datatype Resend = Resend(copy: Transaction, at: int, absent: bool)

  datatype Session = Session(email: string, id: string, link: string, generation: int)

  /** History: the link secret of each generation, when they were stamped, the wrong-code verdicts, the
   comparisons by the hour they were charged to and by the hour in which they took place (and how many of
   those were charged to the hour before), the confirmation whose call created a user, and the sessions issued. */
  datatype Log = Log(
    links: map<(string, int), string>,
    stamps: map<string, seq<int>>,
    verdicts: map<(string, int), nat>,
    compared: map<(string, int), nat>,
    clocked: map<(string, int), nat>,
    late: map<(string, int), nat>,
    creators: map<string, nat>,
    sessions: map<nat, Session>)

  datatype World = World(
    now: int,
    table: map<string, Transaction>,
    charges: map<(Budget, int), nat>,
    users: set<string>,
    confirmations: map<nat, Confirmation>,
    resends: map<nat, Resend>,
    log: Log)

  const EMPTY := World(0, map[], map[], {}, map[], map[], Log(map[], map[], map[], map[], map[], map[], map[], map[]))

  datatype Event =
    | Ticks(seconds: nat)
    | Registers(email: string)
    | Charges(budget: Budget, t: int)
    | SignsUp(id: string, email: string, challenge: Digest, link: string, code: string, t: int)
    | ReadsForResend(k: nat, id: string)
    | FindsAbsentForResend(k: nat)
    | Rotates(k: nat, link: string, code: string, t: int)
    | Reads(i: nat, input: Input)
    | FindsAbsent(i: nat, t1: int, t2: int)
    | Recovers(i: nat, reported: bool)
    | ShowsToken(i: nat, t: int)
    | ShowsCode(i: nat, t: int, t2: int, reported: bool)
    | Misses(i: nat, reported: bool)
    | Claims(i: nat, t: int, reported: bool)
    | CreatesUser(i: nat, subject: string, reported: bool)
    | IsRefused(i: nat)
    | Fails(i: nat)
    | Finishes(i: nat, reported: bool)
    | Issues(i: nat)
    | Ends(i: nat)

  function Count<K>(m: map<K, nat>, k: K): nat {
    if k in m then m[k] else 0
  }

  predicate Alive(c: Confirmation, now: int) {
    now <= c.at + REQUEST_LIMIT
  }

  predicate Acts(w: World, i: nat, stage: Stage) {
    i in w.confirmations && w.confirmations[i].stage == stage && Alive(w.confirmations[i], w.now)
  }

  /** The store's condition: version and state are still the ones that were read. */
  predicate Current(w: World, copy: Transaction) {
    copy.id in w.table && w.table[copy.id].version == copy.version && w.table[copy.id].state == copy.state
  }

  /** The conditional write of a confirmation, after which it goes on at `stage` with what it wrote. */
  function Swap(w: World, i: nat, next: Transaction, stage: Stage): World
    requires i in w.confirmations
  {
    var c := w.confirmations[i];
    if Current(w, c.copy)
    then w.(table := w.table[c.copy.id := next], confirmations := w.confirmations[i := c.(copy := next, stage := stage)])
    else w.(confirmations := w.confirmations[i := c.(stage := Ended)])
  }

  function Move(w: World, i: nat, stage: Stage): World
    requires i in w.confirmations
  {
    w.(confirmations := w.confirmations[i := w.confirmations[i].(stage := stage)])
  }

  function SignUp(w: World, id: string, email: string, challenge: Digest, link: string, code: string, t: int): World {
    if id !in w.table && link !in w.log.links.Values && t <= w.now
    then w.(table := w.table[id := NewTransaction(id, email, challenge, link, code, t)],
            log := w.log.(links := w.log.links[(id, 1) := link], stamps := w.log.stamps[id := [t]]))
    else w
  }

  /** The secret is drawn at random and differs from every one before it. */
  function Rotate(w: World, k: nat, link: string, code: string, t: int): World {
    if k in w.resends && MayRotate(w.resends[k].copy, w.resends[k].absent, t) && t <= w.now && link !in w.log.links.Values
       && Current(w, w.resends[k].copy)
    then
      var r := w.resends[k].copy;
      w.(table := w.table[r.id := Rotated(r, link, code, t)],
         log := w.log.(links := w.log.links[(r.id, r.generation + 1) := link],
                       stamps := w.log.stamps[r.id := (if r.id in w.log.stamps then w.log.stamps[r.id] else []) + [t]]))
    else w
  }

  function FindAbsent(w: World, i: nat, t1: int, t2: int): World {
    if Acts(w, i, Loaded) && w.confirmations[i].at <= t1 <= t2 <= w.now
       && MayRecover(w.confirmations[i].copy, w.confirmations[i].input.link, t1, t2) && w.confirmations[i].copy.email !in w.users
    then Move(w, i, Absent) else w
  }

  function Recover(w: World, i: nat, reported: bool): World {
    if Acts(w, i, Absent) then Swap(w, i, Recovered(w.confirmations[i].copy), if reported then Loaded else Ended) else w
  }

  predicate ShownUsable(w: World, i: nat, t: int) {
    Acts(w, i, Loaded) && w.confirmations[i].at <= t <= w.now && Usable(w.confirmations[i].copy, w.confirmations[i].input.link, t)
  }

  function ShowToken(w: World, i: nat, t: int): World {
    if ShownUsable(w, i, t) && w.confirmations[i].input.second.Token?
       && w.confirmations[i].copy.challenge == OfToken(w.confirmations[i].input.second.token)
    then Move(w, i, Proven) else w
  }

  /** The hourly counter: it goes up by one unless it has reached the limit. */
  function Charge(w: World, b: Budget, hour: int): Option<map<(Budget, int), nat>> {
    if Count(w.charges, (b, hour)) >= Limit(b) then None else Some(w.charges[(b, hour) := Count(w.charges, (b, hour)) + 1])
  }

  function Up(m: map<(string, int), nat>, k: (string, int)): map<(string, int), nat> {
    m[k := Count(m, k) + 1]
  }

  /** A comparison that was charged to `hour` takes place in the hour `at`. */
  function CountComparison(log: Log, email: string, hour: int, at: int): Log {
    log.(compared := Up(log.compared, (email, hour)), clocked := Up(log.clocked, (email, at)),
         late := if hour == at then log.late else Up(log.late, (email, at)))
  }

  function ShowCode(w: World, i: nat, t: int, t2: int, reported: bool): World {
    if ShownUsable(w, i, t) && w.confirmations[i].input.second.Code? && SixDigits(w.confirmations[i].input.second.code)
       && w.confirmations[i].copy.attempts < MAX_ATTEMPTS && t <= t2 <= w.now
    then
      var c := w.confirmations[i];
      var hour := t2 / HOUR;
      var charged := Charge(w, CodeEmail(c.copy.email), hour);
      if charged.None? then Move(w, i, Ended)
      else if !reported then Move(w.(charges := charged.value), i, Ended)
      else
        var right := c.copy.code == OfCode(c.copy.id, c.copy.generation, c.input.second.code);
        Move(w.(charges := charged.value, log := CountComparison(w.log, c.copy.email, hour, w.now / HOUR)),
             i, if right then Proven else Wrong)
    else w
  }

  function Miss(w: World, i: nat, reported: bool): World {
    if Acts(w, i, Wrong)
    then
      var r := w.confirmations[i].copy;
      var v := Swap(w, i, Missed(r), Ended);
      if reported && Current(w, r)
      then v.(log := v.log.(verdicts := v.log.verdicts[(r.id, r.generation) := Count(v.log.verdicts, (r.id, r.generation)) + 1]))
      else v
    else w
  }

  function Claim(w: World, i: nat, t: int, reported: bool): World {
    if Acts(w, i, Proven) && w.confirmations[i].at <= t <= w.now
    then Swap(w, i, Claimed(w.confirmations[i].copy, t), if reported then Claiming else Ended) else w
  }

  /** The provider creates the user unless it exists. A call may take effect and still be answered with an error. */
  function CreateUser(w: World, i: nat, subject: string, reported: bool): World {
    if Acts(w, i, Claiming) && w.confirmations[i].copy.email !in w.users
    then
      var c := w.confirmations[i];
      var v := Move(w, i, if reported then Created(subject) else Refused);
      v.(users := w.users + {c.copy.email},
         log := if reported then w.log.(creators := w.log.creators[c.copy.email := i]) else w.log)
    else w
  }

  function Fail(w: World, i: nat): World {
    if Acts(w, i, Refused) then Swap(w, i, MarkedFailed(w.confirmations[i].copy), Ended) else w
  }

  function Finish(w: World, i: nat, reported: bool): World {
    if i in w.confirmations && w.confirmations[i].stage.Created? && Alive(w.confirmations[i], w.now)
    then Swap(w, i, Done(w.confirmations[i].copy, w.confirmations[i].stage.subject), if reported then Finished else Ended) else w
  }

  function Issue(w: World, i: nat): World {
    if Acts(w, i, Finished)
    then
      var c := w.confirmations[i];
      Move(w.(log := w.log.(sessions := w.log.sessions[i := Session(c.copy.email, c.copy.id, c.input.link, c.copy.generation)])), i, Ended)
    else w
  }

  function Step(w: World, e: Event): World {
    match e
    case Ticks(d) => w.(now := w.now + d)
    case Registers(email) => w.(users := w.users + {email})
    case Charges(b, t) => if Charge(w, b, t / HOUR).Some? then w.(charges := Charge(w, b, t / HOUR).value) else w
    case SignsUp(id, email, challenge, link, code, t) => SignUp(w, id, email, challenge, link, code, t)
    case ReadsForResend(k, id) => if id in w.table then w.(resends := w.resends[k := Resend(w.table[id], w.now, false)]) else w
    case FindsAbsentForResend(k) =>
      if k in w.resends && w.resends[k].copy.email !in w.users then w.(resends := w.resends[k := w.resends[k].(absent := true)]) else w
    case Rotates(k, link, code, t) => Rotate(w, k, link, code, t)
    case Reads(i, input) =>
      if i !in w.confirmations && input.id in w.table
      then w.(confirmations := w.confirmations[i := Confirmation(input, w.table[input.id], w.now, Loaded)]) else w
    case FindsAbsent(i, t1, t2) => FindAbsent(w, i, t1, t2)
    case Recovers(i, reported) => Recover(w, i, reported)
    case ShowsToken(i, t) => ShowToken(w, i, t)
    case ShowsCode(i, t, t2, reported) => ShowCode(w, i, t, t2, reported)
    case Misses(i, reported) => Miss(w, i, reported)
    case Claims(i, t, reported) => Claim(w, i, t, reported)
    case CreatesUser(i, subject, reported) => CreateUser(w, i, subject, reported)
    case IsRefused(i) => if Acts(w, i, Claiming) then Move(w, i, Refused) else w
    case Fails(i) => Fail(w, i)
    case Finishes(i, reported) => Finish(w, i, reported)
    case Issues(i) => Issue(w, i)
    case Ends(i) => if i in w.confirmations then Move(w, i, Ended) else w
  }

  function Run(w: World, es: seq<Event>): World
    decreases |es|
  {
    if es == [] then w else Run(Step(w, es[0]), es[1..])
  }

  lemma {:induction false} RunAppend(w: World, es: seq<Event>, fs: seq<Event>)
    ensures Run(w, es + fs) == Run(Run(w, es), fs)
    decreases |es|
  {
    if es == [] {
      assert es + fs == fs;
    } else {
      assert (es + fs)[0] == es[0] && (es + fs)[1..] == es[1..] + fs;
      RunAppend(Step(w, es[0]), es[1..], fs);
    }
  }
}
