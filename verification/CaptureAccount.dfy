/**
 An owner's account, the captures created under it and the permanent fact that an ID was captured
 (capture/service.go `Create`, awscapture/store.go, signin/enrollment.go). Creates race with each
 other and with promotions; every account or capture access is one event.
 */
module CaptureAccount {
  import opened Basics
  import opened CaptureModel
  import opened CaptureRules
  import opened CaptureWorld
  import opened CaptureInvariant
  import opened CaptureSafety

  const PER_DAY := 5

  /** `day` is the UTC day the counter belongs to; a revision of zero stands for an absent item. */
  datatype Account = Account(idCaptured: bool, currentId: string, revision: int, version: int, day: int, createdToday: int)

  const NO_ACCOUNT := Account(false, "", 0, 0, -1, 0)

  /** A `Create` in flight: the account it read at `at`, the current capture as it read it, and whether that allows a new one. */
  datatype Draft = Draft(account: Account, at: int, seen: Option<Record>, checked: bool)

  /** What onboarding remembers for good. */
  datatype Facts = Facts(password: bool, captured: bool) {
    function Marked(password: bool, captured: bool): Facts {
      Facts(this.password || password, this.captured || captured)
    }
  }

  /**
   `byKey` is the operation-key mapping, `facts` the enrollment facts. `charged` only records history:
   the day whose budget each capture used.
   */
  datatype Owner = Owner(
    account: Account,
    caps: map<string, Cap>,
    byKey: map<string, string>,
    facts: Facts,
    charged: map<string, int>,
    drafts: map<nat, Draft>)

  const NO_OWNER := Owner(NO_ACCOUNT, map[], map[], Facts(false, false), map[], map[])

  /** What a create writes, with its three clock readings. */
  datatype Creation = Creation(id: string, key: string, kind: string, policy: string, language: string,
                               dayAt: int, createdAt: int, expiryAt: int)

  datatype Act =
    | OnCapture(id: string, event: Event)
    | ReadsAccount(k: nat)
    | ReadsCurrent(k: nat)
    | ChecksCurrent(k: nat, t: int)
    | Creates(k: nat, c: Creation)
    | Marks(password: bool, captured: bool)

  /** The account after a create, or nothing when the day's budget is used up. */
  function Charge(a: Account, c: Creation): Option<Account> {
    var today := if a.day == c.dayAt / DAY then a.createdToday else 0;
    if today >= PER_DAY then None
    else Some(Account(a.idCaptured, c.id, a.revision + 1, a.version + 1, c.dayAt / DAY, today + 1))
  }

  /** The three conditions of the create transaction, on what the request read. */
  predicate CreateCommits(o: Owner, now: int, k: nat, c: Creation) {
    && k in o.drafts && o.drafts[k].checked && now <= o.drafts[k].at + REQUEST_LIMIT
    && o.drafts[k].at <= c.dayAt <= c.createdAt <= c.expiryAt <= now
    && Charge(o.drafts[k].account, c).Some?
    && o.account.revision == o.drafts[k].account.revision && c.id !in o.caps && c.id != "" && c.key !in o.byKey
  }

  function Create(o: Owner, now: int, k: nat, c: Creation): Owner {
    if !CreateCommits(o, now, k, c) then o.(drafts := o.drafts - {k})
    else
      var account := Charge(o.drafts[k].account, c).value;
      Owner(account,
            o.caps[c.id := NewCap(NewRecord(c.id, account.version, c.key, c.kind, c.policy, c.language, c.createdAt, c.expiryAt))],
            o.byKey[c.key := c.id], o.facts, o.charged[c.id := account.day], o.drafts - {k})
  }

  function ReadCurrent(o: Owner, k: nat): Owner {
    if k in o.drafts && o.drafts[k].account.currentId in o.caps
    then o.(drafts := o.drafts[k := o.drafts[k].(seen := Some(o.caps[o.drafts[k].account.currentId].rec))]) else o
  }

  /** The current capture must not take uploads or await validation, as the request sees it at `t`. */
  function CheckCurrent(o: Owner, now: int, k: nat, t: int): Owner {
    if k !in o.drafts || !(o.drafts[k].at <= t <= now) then o
    else
      var d := o.drafts[k];
      if d.seen.None? && d.account.currentId in o.caps then o
      else if d.seen.Some? && var s := View(d.seen.value, t).state; s.Uploading? || s.Finalizing?
      then o.(drafts := o.drafts - {k})
      else o.(drafts := o.drafts[k := d.(checked := true)])
  }

  /** A promotion updates the account in the same transaction. */
  function Capture(o: Owner, now: int, id: string, e: Event): Owner {
    if id !in o.caps then o
    else
      var after := Step(o.caps[id], now, e);
      o.(caps := o.caps[id := after],
         account := if after.outbox.promotions > o.caps[id].outbox.promotions
                    then o.account.(idCaptured := true, revision := o.account.revision + 1) else o.account)
  }

  function Do(o: Owner, now: int, x: Act): Owner {
    match x
    case OnCapture(id, e) => Capture(o, now, id, e)
    case ReadsAccount(k) => o.(drafts := o.drafts[k := Draft(o.account, now, None, false)])
    case ReadsCurrent(k) => ReadCurrent(o, k)
    case ChecksCurrent(k, t) => CheckCurrent(o, now, k, t)
    case Creates(k, c) => Create(o, now, k, c)
    case Marks(password, captured) =>  // a capture is only marked once the account's flag was seen
      if captured && !o.account.idCaptured then o else o.(facts := o.facts.Marked(password, captured))
  }

  datatype Ownership = Ownership(now: int, owner: Owner)

  datatype Turn = Wait(seconds: nat) | Acts(act: Act)

  function Next(w: Ownership, m: Turn): Ownership {
    match m
    case Wait(d) => w.(now := w.now + d)
    case Acts(x) => w.(owner := Do(w.owner, w.now, x))
  }

  function Play(w: Ownership, ms: seq<Turn>): Ownership
    decreases |ms|
  {
    if ms == [] then w else Play(Next(w, ms[0]), ms[1..])
  }

  lemma {:induction false} PlayAppend(w: Ownership, ms: seq<Turn>, ns: seq<Turn>)
    ensures Play(w, ms + ns) == Play(Play(w, ms), ns)
    decreases |ms|
  {
    if ms == [] {
      assert ms + ns == ns;
    } else {
      assert (ms + ns)[0] == ms[0] && (ms + ns)[1..] == ms[1..] + ns;
      PlayAppend(Next(w, ms[0]), ms[1..], ns);
    }
  }

  // ---- The invariant ----

  /** What the account's promises depend on in a capture. */
  datatype Brief = Brief(version: int, key: string, createdAt: int, expiresAt: int, uploading: bool, promotions: nat)

  function BriefOf(c: Cap): Brief {
    Brief(c.rec.evidenceVersion, c.rec.createKey, c.rec.createdAt, c.rec.expiresAt, c.rec.state.Uploading?, c.outbox.promotions)
  }

  function Briefs(caps: map<string, Cap>): map<string, Brief> {
    map id | id in caps :: BriefOf(caps[id])
  }

  /** A capture that still takes uploads. */
  predicate Live(b: Brief, now: int) {
    b.uploading && now < b.expiresAt
  }

  function ChargedTo(charged: map<string, int>, day: int): set<string> {
    set id | id in charged && charged[id] == day
  }

  ghost predicate Identified(a: Account, bs: map<string, Brief>, byKey: map<string, string>) {
    && (forall id | id in bs :: id != "" && 1 <= bs[id].version <= a.version)
    && (forall id, jd | id in bs && jd in bs && bs[id].version == bs[jd].version :: id == jd)
    && (forall key | key in byKey :: byKey[key] in bs && bs[byKey[key]].key == key)
    && (forall id | id in bs :: bs[id].key in byKey && byKey[bs[id].key] == id)
  }

  ghost predicate OneLive(a: Account, bs: map<string, Brief>, now: int) {
    forall id | id in bs && id != a.currentId :: !Live(bs[id], now)
  }

  /** A capture that is uploading now was uploading whenever it was read. */
  predicate SeenFits(r: Record, b: Brief) {
    r.expiresAt == b.expiresAt && (b.uploading ==> r.state.Uploading?)
  }

  ghost predicate DraftOk(a: Account, bs: map<string, Brief>, now: int, d: Draft) {
    && 0 <= d.at <= now && d.account.revision <= a.revision && d.account.day <= d.at / DAY
    && (d.account.revision == a.revision ==> d.account == a && forall id | id in bs :: bs[id].createdAt <= d.at)
    && (d.account.currentId == "" || d.account.currentId in bs)
    && (d.seen.Some? ==> d.account.currentId in bs && SeenFits(d.seen.value, bs[d.account.currentId]))
    && (d.checked && d.account.currentId in bs ==> !Live(bs[d.account.currentId], now))
  }

  /** A capture charged to an earlier day than its creation is the last one charged to that day. */
  ghost predicate Budgeted(a: Account, bs: map<string, Brief>, charged: map<string, int>) {
    && charged.Keys == bs.Keys
    && (forall day :: |ChargedTo(charged, day)| <= PER_DAY)
    && |ChargedTo(charged, a.day)| == a.createdToday
    && (forall id | id in bs :: 0 <= charged[id] <= a.day && charged[id] <= bs[id].createdAt / DAY)
    && (forall id, jd | id in bs && jd in bs && bs[id].version < bs[jd].version :: bs[id].createdAt / DAY <= charged[jd])
  }

  ghost predicate Captured(a: Account, bs: map<string, Brief>, fact: bool) {
    && (a.idCaptured <==> exists id :: id in bs && bs[id].promotions == 1)
    && (fact ==> a.idCaptured)
  }

  ghost predicate DraftsOk(a: Account, bs: map<string, Brief>, now: int, drafts: map<nat, Draft>) {
    forall k | k in drafts :: DraftOk(a, bs, now, drafts[k])
  }

  ghost predicate BooksOk(o: Owner, bs: map<string, Brief>, now: int) {
    && 0 <= now && 0 <= o.account.revision && o.account.day <= now / DAY && 0 <= o.account.version
    && (o.account.currentId == "" || o.account.currentId in bs)
    && (forall id | id in bs :: bs[id].createdAt <= now && bs[id].promotions <= 1)
    && Identified(o.account, bs, o.byKey) && OneLive(o.account, bs, now) && Budgeted(o.account, bs, o.charged)
    && Captured(o.account, bs, o.facts.captured) && DraftsOk(o.account, bs, now, o.drafts)
  }

  ghost predicate CapsOk(caps: map<string, Cap>, now: int) {
    forall id | id in caps :: Inv(caps[id], now)
  }

  ghost predicate OwnerInv(o: Owner, now: int) {
    CapsOk(o.caps, now) && BooksOk(o, Briefs(o.caps), now)
  }

  // ---- Steps of a capture ----

  lemma StaysOutOfUploading(a: Author, r: Record)
    requires Written(a, r).Some? && Written(a, r).value.state.Uploading?
    ensures r.state.Uploading?
  {
  }

  /** What a capture's own events can change of what its account depends on. */
  predicate BriefStep(b: Brief, after: Brief) {
    && after.version == b.version && after.key == b.key && after.createdAt == b.createdAt && after.expiresAt == b.expiresAt
    && (after.uploading ==> b.uploading) && b.promotions <= after.promotions <= 1
  }

  lemma CaptureStep(c: Cap, now: int, e: Event)
    requires Inv(c, now)
    ensures Inv(Step(c, now, e), now) && BriefStep(BriefOf(c), BriefOf(Step(c, now, e)))
  {
    StepKeeps(c, now, e);
    if Step(c, now, e).rec != c.rec {
      Writers(c, now, e);
      WrittenKeepsShape(AuthorOf(c, e).value, c.rec, now);
      if Step(c, now, e).rec.state.Uploading? {
        StaysOutOfUploading(AuthorOf(c, e).value, c.rec);
      }
    }
  }

  function Promoted(a: Account, b: Brief, after: Brief): Account {
    if after.promotions > b.promotions then a.(idCaptured := true, revision := a.revision + 1) else a
  }

  lemma StillCaptured(a: Account, bs: map<string, Brief>, fact: bool, id: string, after: Brief)
    requires Captured(a, bs, fact) && id in bs && BriefStep(bs[id], after)
    ensures Captured(Promoted(a, bs[id], after), bs[id := after], fact)
  {
    var cs := bs[id := after];
    if jd :| jd in bs && bs[jd].promotions == 1 {
      assert jd in cs && cs[jd].promotions == 1;
    }
    if after.promotions > bs[id].promotions {
      assert id in cs && cs[id].promotions == 1;
    }
  }

  lemma StillIdentified(a: Account, bs: map<string, Brief>, byKey: map<string, string>, id: string, after: Brief)
    requires Identified(a, bs, byKey) && id in bs && BriefStep(bs[id], after)
    ensures Identified(Promoted(a, bs[id], after), bs[id := after], byKey)
  {
  }

  lemma StillBudgeted(a: Account, bs: map<string, Brief>, charged: map<string, int>, id: string, after: Brief)
    requires Budgeted(a, bs, charged) && id in bs && BriefStep(bs[id], after)
    ensures Budgeted(Promoted(a, bs[id], after), bs[id := after], charged)
  {
    assert bs[id := after].Keys == bs.Keys;
  }

  lemma StillDrafts(a: Account, bs: map<string, Brief>, now: int, drafts: map<nat, Draft>, id: string, after: Brief)
    requires DraftsOk(a, bs, now, drafts) && id in bs && BriefStep(bs[id], after)
    ensures DraftsOk(Promoted(a, bs[id], after), bs[id := after], now, drafts)
  {
    forall k | k in drafts ensures DraftOk(Promoted(a, bs[id], after), bs[id := after], now, drafts[k]) {
      assert DraftOk(a, bs, now, drafts[k]);
    }
  }

  lemma BooksAfterStep(o: Owner, bs: map<string, Brief>, now: int, id: string, after: Brief)
    requires BooksOk(o, bs, now) && id in bs && BriefStep(bs[id], after)
    ensures BooksOk(o.(account := Promoted(o.account, bs[id], after)), bs[id := after], now)
  {
    hide Captured, Identified, Budgeted, DraftsOk, ChargedTo;
    StillCaptured(o.account, bs, o.facts.captured, id, after);
    StillIdentified(o.account, bs, o.byKey, id, after);
    StillBudgeted(o.account, bs, o.charged, id, after);
    StillDrafts(o.account, bs, now, o.drafts, id, after);
  }

  lemma BriefsUpdated(caps: map<string, Cap>, id: string, c: Cap)
    ensures Briefs(caps[id := c]) == Briefs(caps)[id := BriefOf(c)]
  {
  }

  lemma CapOk(caps: map<string, Cap>, now: int, id: string)
    requires CapsOk(caps, now) && id in caps
    ensures Inv(caps[id], now)
  {
  }

  lemma CapsUpdated(caps: map<string, Cap>, now: int, id: string, c: Cap)
    requires CapsOk(caps, now) && Inv(c, now)
    ensures CapsOk(caps[id := c], now)
  {
  }

  lemma CaptureKeeps(o: Owner, now: int, id: string, e: Event)
    requires OwnerInv(o, now)
    ensures OwnerInv(Capture(o, now, id, e), now)
  {
    hide Inv, Step, BooksOk, CapsOk;
    if id in o.caps {
      CapOk(o.caps, now, id);
      var after := Step(o.caps[id], now, e);
      CaptureStep(o.caps[id], now, e);
      BooksAfterStep(o, Briefs(o.caps), now, id, BriefOf(after));
      BriefsUpdated(o.caps, id, after);
      CapsUpdated(o.caps, now, id, after);
      BooksFrame(o.(account := Promoted(o.account, BriefOf(o.caps[id]), BriefOf(after))), Briefs(o.caps[id := after]), now, o.caps[id := after]);
    }
  }

  /** The books do not look at the captures themselves. */
  lemma BooksFrame(o: Owner, bs: map<string, Brief>, now: int, caps: map<string, Cap>)
    requires BooksOk(o, bs, now)
    ensures BooksOk(o.(caps := caps), bs, now)
  {
  }

  // ---- Creates ----

  lemma DraftJoins(o: Owner, bs: map<string, Brief>, now: int, k: nat, d: Draft)
    requires BooksOk(o, bs, now) && DraftOk(o.account, bs, now, d)
    ensures BooksOk(o.(drafts := o.drafts[k := d]), bs, now)
  {
  }

  lemma DraftFits(o: Owner, bs: map<string, Brief>, now: int, k: nat)
    requires BooksOk(o, bs, now) && k in o.drafts
    ensures DraftOk(o.account, bs, now, o.drafts[k]) && 0 <= o.drafts[k].at
  {
  }

  lemma DraftLeaves(o: Owner, bs: map<string, Brief>, now: int, k: nat)
    requires BooksOk(o, bs, now)
    ensures BooksOk(o.(drafts := o.drafts - {k}), bs, now)
  {
  }

  lemma CheckPasses(o: Owner, bs: map<string, Brief>, now: int, k: nat)
    requires BooksOk(o, bs, now) && k in o.drafts
    requires o.drafts[k].account.currentId in bs ==> !Live(bs[o.drafts[k].account.currentId], now)
    ensures BooksOk(o.(drafts := o.drafts[k := o.drafts[k].(checked := true)]), bs, now)
  {
    assert DraftOk(o.account, bs, now, o.drafts[k]);
    DraftJoins(o, bs, now, k, o.drafts[k].(checked := true));
  }

  lemma ReadCurrentKeeps(o: Owner, now: int, k: nat)
    requires OwnerInv(o, now)
    ensures OwnerInv(ReadCurrent(o, k), now)
  {
    hide Inv, BooksOk, CapsOk;
    if k in o.drafts && o.drafts[k].account.currentId in o.caps {
      DraftFits(o, Briefs(o.caps), now, k);
      var id := o.drafts[k].account.currentId;
      assert Briefs(o.caps)[id] == BriefOf(o.caps[id]);
      DraftJoins(o, Briefs(o.caps), now, k, o.drafts[k].(seen := Some(o.caps[id].rec)));
    }
  }

  lemma CheckKeeps(o: Owner, now: int, k: nat, t: int)
    requires OwnerInv(o, now)
    ensures OwnerInv(CheckCurrent(o, now, k, t), now)
  {
    hide Inv, BooksOk, CapsOk;
    if k in o.drafts && o.drafts[k].at <= t <= now {
      DraftLeaves(o, Briefs(o.caps), now, k);
      DraftFits(o, Briefs(o.caps), now, k);
      var d := o.drafts[k];
      if d.seen.Some? && Live(Briefs(o.caps)[d.account.currentId], now) {
        assert View(d.seen.value, t).state.Uploading?;
      }
      if CheckCurrent(o, now, k, t) == o.(drafts := o.drafts[k := d.(checked := true)]) {
        CheckPasses(o, Briefs(o.caps), now, k);
      }
    }
  }

  lemma NewCapture(now: int, r: Record, created: int, expiryBase: int)
    requires 0 <= created <= expiryBase <= created + REQUEST_LIMIT && expiryBase <= now
    requires r == NewRecord(r.id, r.evidenceVersion, r.createKey, r.documentType, r.policyVersion, r.language, created, expiryBase)
    ensures Inv(NewCap(r), now)
  {
    NewCapInv(World(now, NewCap(r)), created, expiryBase);
  }

  lemma ChargeOnce(charged: map<string, int>, id: string, day: int, at: int)
    requires id !in charged
    ensures ChargedTo(charged[id := at], day) == if day == at then ChargedTo(charged, day) + {id} else ChargedTo(charged, day)
  {
  }

  /** The draft that commits had read the account as it still is. */
  ghost predicate Ready(o: Owner, bs: map<string, Brief>, now: int, d: Draft, c: Creation) {
    && BooksOk(o, bs, now) && DraftOk(o.account, bs, now, d) && d.checked && d.account.revision == o.account.revision
    && d.at <= c.dayAt <= c.createdAt <= c.expiryAt <= now && Charge(d.account, c).Some?
    && c.id !in bs && c.id != "" && c.key !in o.byKey
  }

  function NewBrief(c: Creation, version: int): Brief {
    Brief(version, c.key, c.createdAt, c.expiryAt + SESSION_LIFETIME, true, 0)
  }

  lemma DaysPass(s: int, t: int)
    requires s <= t
    ensures s / DAY <= t / DAY
  {
  }

  lemma CreateCounts(a: Account, bs: map<string, Brief>, charged: map<string, int>, id: string, next: Account, day: int)
    requires Budgeted(a, bs, charged) && id !in bs && a.day <= next.day
    requires next.createdToday == (if a.day == next.day then a.createdToday else 0) + 1 <= PER_DAY
    ensures var after := charged[id := next.day];
            |ChargedTo(after, day)| <= PER_DAY && (day == next.day ==> |ChargedTo(after, day)| == next.createdToday)
  {
    ChargeOnce(charged, id, day, next.day);
    assert |ChargedTo(charged, day)| <= PER_DAY;
    if day == next.day && day != a.day {
      assert ChargedTo(charged, day) == {};
    }
  }

  /** What the committing create's conditions say, without the books themselves. */
  lemma ReadyFacts(o: Owner, bs: map<string, Brief>, now: int, d: Draft, c: Creation)
    requires Ready(o, bs, now, d, c)
    ensures d.account == o.account && c.id !in bs && c.id != "" && c.key !in o.byKey && 0 <= o.account.version
    ensures o.account.day <= c.dayAt / DAY <= c.createdAt / DAY && 0 <= c.dayAt / DAY
    ensures forall id | id in bs :: bs[id].createdAt / DAY <= c.dayAt / DAY
  {
    hide Identified, OneLive, Budgeted, Captured, DraftsOk;
    DaysPass(d.at, c.dayAt);
    DaysPass(c.dayAt, c.createdAt);
    forall id | id in bs ensures bs[id].createdAt / DAY <= c.dayAt / DAY {
      DaysPass(bs[id].createdAt, c.dayAt);
    }
  }

  lemma VersionsBelow(a: Account, bs: map<string, Brief>, byKey: map<string, string>)
    requires Identified(a, bs, byKey)
    ensures forall id | id in bs :: bs[id].version <= a.version
  {
  }

  lemma BudgetAdds(a: Account, bs: map<string, Brief>, charged: map<string, int>, id: string, next: Account, b: Brief)
    requires Budgeted(a, bs, charged) && id !in bs && a.day <= next.day && 0 <= next.day <= b.createdAt / DAY
    requires next.createdToday == (if a.day == next.day then a.createdToday else 0) + 1 <= PER_DAY
    requires forall jd | jd in bs :: bs[jd].createdAt / DAY <= next.day && bs[jd].version < b.version
    ensures Budgeted(next, bs[id := b], charged[id := next.day])
  {
    var cs, after := bs[id := b], charged[id := next.day];
    hide ChargedTo;
    forall day ensures |ChargedTo(after, day)| <= PER_DAY && (day == next.day ==> |ChargedTo(after, day)| == next.createdToday) {
      CreateCounts(a, bs, charged, id, next, day);
    }
    assert after.Keys == cs.Keys;
  }

  lemma CreateBudget(o: Owner, bs: map<string, Brief>, now: int, d: Draft, c: Creation)
    requires Ready(o, bs, now, d, c)
    ensures var a := Charge(d.account, c).value;
            Budgeted(a, bs[c.id := NewBrief(c, a.version)], o.charged[c.id := a.day])
  {
    hide Identified, OneLive, Budgeted, Captured, DraftsOk, DraftOk;
    ReadyFacts(o, bs, now, d, c);
    VersionsBelow(o.account, bs, o.byKey);
    var a := Charge(d.account, c).value;
    BudgetAdds(o.account, bs, o.charged, c.id, a, NewBrief(c, a.version));
  }

  lemma IdentityAdds(a: Account, bs: map<string, Brief>, byKey: map<string, string>, id: string, next: Account, b: Brief)
    requires Identified(a, bs, byKey) && id !in bs && id != "" && b.key !in byKey && 0 <= a.version && b.version == next.version == a.version + 1
    ensures Identified(next, bs[id := b], byKey[b.key := id])
  {
    VersionsBelow(a, bs, byKey);
  }

  lemma CapturedAdds(a: Account, bs: map<string, Brief>, fact: bool, id: string, next: Account, b: Brief)
    requires Captured(a, bs, fact) && id !in bs && b.promotions == 0 && next.idCaptured == a.idCaptured
    ensures Captured(next, bs[id := b], fact)
  {
    var cs := bs[id := b];
    if jd :| jd in bs && bs[jd].promotions == 1 {
      assert jd in cs && cs[jd].promotions == 1;
    }
  }

  /** The committing create saw that the current capture takes no uploads, and nothing has replaced that capture. */
  lemma NothingLive(o: Owner, bs: map<string, Brief>, now: int, d: Draft, c: Creation)
    requires Ready(o, bs, now, d, c)
    ensures forall id | id in bs :: !Live(bs[id], now)
  {
    hide Identified, Budgeted, Captured, DraftsOk;
  }

  lemma CreateIdentity(o: Owner, bs: map<string, Brief>, now: int, d: Draft, c: Creation)
    requires Ready(o, bs, now, d, c)
    ensures var a := Charge(d.account, c).value;
            var cs := bs[c.id := NewBrief(c, a.version)];
            Identified(a, cs, o.byKey[c.key := c.id]) && OneLive(a, cs, now) && Captured(a, cs, o.facts.captured)
  {
    hide Identified, Budgeted, Captured, DraftsOk, DraftOk;
    ReadyFacts(o, bs, now, d, c);
    NothingLive(o, bs, now, d, c);
    var a := Charge(d.account, c).value;
    IdentityAdds(o.account, bs, o.byKey, c.id, a, NewBrief(c, a.version));
    CapturedAdds(o.account, bs, o.facts.captured, c.id, a, NewBrief(c, a.version));
  }

  lemma CreateDrafts(o: Owner, bs: map<string, Brief>, now: int, d: Draft, c: Creation)
    requires Ready(o, bs, now, d, c)
    ensures var a := Charge(d.account, c).value;
            DraftsOk(a, bs[c.id := NewBrief(c, a.version)], now, o.drafts)
  {
    var a := Charge(d.account, c).value;
    forall k | k in o.drafts ensures DraftOk(a, bs[c.id := NewBrief(c, a.version)], now, o.drafts[k]) {
      assert DraftOk(o.account, bs, now, o.drafts[k]);
    }
  }

  lemma CreateBooks(o: Owner, bs: map<string, Brief>, now: int, d: Draft, c: Creation)
    requires Ready(o, bs, now, d, c)
    ensures var a := Charge(d.account, c).value;
            BooksOk(o.(account := a, byKey := o.byKey[c.key := c.id], charged := o.charged[c.id := a.day]),
                    bs[c.id := NewBrief(c, a.version)], now)
  {
    CreateBudget(o, bs, now, d, c);
    CreateIdentity(o, bs, now, d, c);
    CreateDrafts(o, bs, now, d, c);
  }

  lemma CreateKeeps(o: Owner, now: int, k: nat, c: Creation)
    requires OwnerInv(o, now)
    ensures OwnerInv(Create(o, now, k, c), now)
  {
    hide Inv, CapsOk, BooksOk, DraftOk;
    DraftLeaves(o, Briefs(o.caps), now, k);
    if CreateCommits(o, now, k, c) {
      DraftFits(o, Briefs(o.caps), now, k);
      var a := Charge(o.drafts[k].account, c).value;
      var r := NewRecord(c.id, a.version, c.key, c.kind, c.policy, c.language, c.createdAt, c.expiryAt);
      NewCapture(now, r, c.createdAt, c.expiryAt);
      CreateBooks(o.(drafts := o.drafts - {k}), Briefs(o.caps), now, o.drafts[k], c);
      BriefsUpdated(o.caps, c.id, NewCap(r));
      CapsUpdated(o.caps, now, c.id, NewCap(r));
      BooksFrame(o.(drafts := o.drafts - {k}, account := a, byKey := o.byKey[c.key := c.id], charged := o.charged[c.id := a.day]),
                 Briefs(o.caps[c.id := NewCap(r)]), now, o.caps[c.id := NewCap(r)]);
    }
  }

  lemma WaitKeeps(o: Owner, now: int, d: nat)
    requires OwnerInv(o, now)
    ensures OwnerInv(o, now + d)
  {
    forall id | id in o.caps ensures Inv(o.caps[id], now + d) {
      TickKeeps(o.caps[id], now, d);
    }
    var bs := Briefs(o.caps);
    forall k | k in o.drafts ensures DraftOk(o.account, bs, now + d, o.drafts[k]) {
      assert DraftOk(o.account, bs, now, o.drafts[k]);
    }
  }

  lemma TurnKeeps(w: Ownership, m: Turn)
    requires OwnerInv(w.owner, w.now)
    ensures OwnerInv(Next(w, m).owner, Next(w, m).now)
  {
    hide Inv, CapsOk, Identified, OneLive, Budgeted, CheckCurrent, ReadCurrent, Create, Capture;
    match m
    case Wait(d) => WaitKeeps(w.owner, w.now, d);
    case Acts(OnCapture(id, e)) => CaptureKeeps(w.owner, w.now, id, e);
    case Acts(ReadsAccount(k)) => DraftJoins(w.owner, Briefs(w.owner.caps), w.now, k, Draft(w.owner.account, w.now, None, false));
    case Acts(ReadsCurrent(k)) => ReadCurrentKeeps(w.owner, w.now, k);
    case Acts(ChecksCurrent(k, t)) => CheckKeeps(w.owner, w.now, k, t);
    case Acts(Creates(k, c)) => CreateKeeps(w.owner, w.now, k, c);
    case Acts(Marks(_, _)) =>
  }

  lemma {:induction false} PlayKeeps(w: Ownership, ms: seq<Turn>)
    requires OwnerInv(w.owner, w.now)
    ensures OwnerInv(Play(w, ms).owner, Play(w, ms).now)
    decreases |ms|
  {
    if ms != [] {
      TurnKeeps(w, ms[0]);
      PlayKeeps(Next(w, ms[0]), ms[1..]);
    }
  }

  lemma PlayFromNothing(start: nat, ms: seq<Turn>)
    ensures var w := Play(Ownership(start, NO_OWNER), ms); OwnerInv(w.owner, w.now)
  {
    assert forall day :: ChargedTo(NO_OWNER.charged, day) == {};
    PlayKeeps(Ownership(start, NO_OWNER), ms);
  }
}
