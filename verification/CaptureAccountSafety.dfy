/** What an owner can rely on, under any interleaving of creates, promotions and everything else. */
module CaptureAccountSafety {
  import opened Basics
  import opened CaptureModel
  import opened CaptureRules
  import opened CaptureWorld
  import opened CaptureInvariant
  import opened CaptureSafety
  import opened CaptureAccount

  // ---- One upload at a time, one capture per operation, rising versions ----

  /** Two captures that both still take uploads are the same capture. */
  lemma OneLiveUpload(start: nat, ms: seq<Turn>, id: string, jd: string)
    requires var w := Play(Ownership(start, NO_OWNER), ms);
             id in w.owner.caps && jd in w.owner.caps
             && Live(BriefOf(w.owner.caps[id]), w.now) && Live(BriefOf(w.owner.caps[jd]), w.now)
    ensures id == jd
  {
    PlayFromNothing(start, ms);
    var w := Play(Ownership(start, NO_OWNER), ms);
    hide Inv;
    var bs := Briefs(w.owner.caps);
    assert OneLive(w.owner.account, bs, w.now) && bs[id] == BriefOf(w.owner.caps[id]) && bs[jd] == BriefOf(w.owner.caps[jd]);
  }

  /** One operation key names one capture, and evidence versions tell captures apart. */
  lemma OneCapturePerOperation(start: nat, ms: seq<Turn>, id: string, jd: string)
    requires var caps := Play(Ownership(start, NO_OWNER), ms).owner.caps;
             id in caps && jd in caps
             && (caps[id].rec.createKey == caps[jd].rec.createKey || caps[id].rec.evidenceVersion == caps[jd].rec.evidenceVersion)
    ensures id == jd
  {
    PlayFromNothing(start, ms);
    var w := Play(Ownership(start, NO_OWNER), ms);
    hide Inv;
    var bs := Briefs(w.owner.caps);
    assert Identified(w.owner.account, bs, w.owner.byKey);
    assert bs[id].key == w.owner.caps[id].rec.createKey && bs[jd].version == w.owner.caps[jd].rec.evidenceVersion;
  }

  /** A new capture gets a version above every earlier one. */
  lemma VersionsRise(start: nat, ms: seq<Turn>, k: nat, c: Creation, id: string)
    requires var w := Play(Ownership(start, NO_OWNER), ms); CreateCommits(w.owner, w.now, k, c) && id in w.owner.caps
    ensures var w := Play(Ownership(start, NO_OWNER), ms);
            var after := Create(w.owner, w.now, k, c);
            && after.caps[id] == w.owner.caps[id]
            && w.owner.caps[id].rec.evidenceVersion < after.caps[c.id].rec.evidenceVersion
  {
    PlayFromNothing(start, ms);
    var w := Play(Ownership(start, NO_OWNER), ms);
    hide Inv;
    var bs := Briefs(w.owner.caps);
    assert Identified(w.owner.account, bs, w.owner.byKey) && bs[id].version == w.owner.caps[id].rec.evidenceVersion;
    DraftFits(w.owner, bs, w.now, k);
  }

  // ---- The daily budget ----

  function CreatedOn(caps: map<string, Cap>, day: int): set<string> {
    set id | id in caps && caps[id].rec.createdAt / DAY == day
  }

  lemma SizeOfSplit(a: set<string>, b: set<string>)
    ensures |a| == |a * b| + |a - b|
  {
    assert a == a * b + (a - b);
  }

  lemma SubsetSize(a: set<string>, b: set<string>)
    requires a <= b
    ensures |a| <= |b|
  {
    SizeOfSplit(b, a);
    assert b * a == a;
  }

  /** What a turn commits: a creation, with the day reading and the creation time that its request took. */
  function Commits(w: Ownership, m: Turn): seq<Creation> {
    if m.Acts? && m.act.Creates? && CreateCommits(w.owner, w.now, m.act.k, m.act.c) then [m.act.c] else []
  }

  /** The creations of a run, in order. */
  function Committed(w: Ownership, ms: seq<Turn>): seq<Creation>
    decreases |ms|
  {
    if ms == [] then [] else Commits(w, ms[0]) + Committed(Next(w, ms[0]), ms[1..])
  }

  /** The captures are the committed creations: the version is the place in the order. */
  ghost predicate Ledger(o: Owner, cs: seq<Creation>) {
    && |cs| == o.account.version && o.charged.Keys == o.caps.Keys
    && (forall i | 0 <= i < |cs| :: InBooks(o, cs[i], i + 1))
    && (forall id | id in o.caps :: Entered(cs, o.caps[id].rec.evidenceVersion, id))
  }

  predicate Entered(cs: seq<Creation>, version: int, id: string) {
    1 <= version <= |cs| && cs[version - 1].id == id
  }

  predicate InBooks(o: Owner, c: Creation, version: int) {
    && c.id in o.caps && c.id in o.charged && o.charged[c.id] == c.dayAt / DAY
    && o.caps[c.id].rec.evidenceVersion == version && o.caps[c.id].rec.createdAt == c.createdAt
    && c.dayAt <= c.createdAt <= c.dayAt + REQUEST_LIMIT
  }

  /** The ledger sees only versions, creation times and charged days. */
  predicate SameEntries(o: Owner, after: Owner) {
    && after.caps.Keys == o.caps.Keys && after.charged == o.charged && after.account.version == o.account.version
    && forall id | id in o.caps :: SameCapture(o.caps[id].rec, after.caps[id].rec)
  }

  lemma LedgerFrame(o: Owner, after: Owner, cs: seq<Creation>)
    requires Ledger(o, cs) && SameEntries(o, after)
    ensures Ledger(after, cs)
  {
    forall i | 0 <= i < |cs| ensures InBooks(after, cs[i], i + 1) {
      assert InBooks(o, cs[i], i + 1);
    }
    forall id | id in after.caps ensures Entered(cs, after.caps[id].rec.evidenceVersion, id) {
      assert Entered(cs, o.caps[id].rec.evidenceVersion, id);
    }
  }

  lemma LedgerAdds(o: Owner, after: Owner, cs: seq<Creation>, c: Creation, cap: Cap)
    requires Ledger(o, cs) && c.id !in o.caps && after.caps == o.caps[c.id := cap] && after.charged == o.charged[c.id := c.dayAt / DAY]
    requires after.account.version == o.account.version + 1 == cap.rec.evidenceVersion && cap.rec.createdAt == c.createdAt
    requires c.dayAt <= c.createdAt <= c.dayAt + REQUEST_LIMIT
    ensures Ledger(after, cs + [c])
  {
    var all := cs + [c];
    assert |all| == after.account.version && after.charged.Keys == after.caps.Keys;
    forall i | 0 <= i < |all| ensures InBooks(after, all[i], i + 1) {
      if i < |cs| {
        assert InBooks(o, cs[i], i + 1);
        StaysInBooks(o, after, cs[i], i + 1, c.id);
      } else {
        assert all[i] == c;
      }
    }
    hide InBooks;
    forall id | id in after.caps ensures Entered(all, after.caps[id].rec.evidenceVersion, id) {
      assert id != c.id ==> Entered(cs, o.caps[id].rec.evidenceVersion, id);
    }
  }

  lemma StaysInBooks(o: Owner, after: Owner, c: Creation, version: int, id: string)
    requires InBooks(o, c, version) && id !in o.caps && id in after.caps && id in after.charged
    requires after.caps == o.caps[id := after.caps[id]] && after.charged == o.charged[id := after.charged[id]]
    ensures InBooks(after, c, version)
  {
  }

  lemma CaptureStepSame(c: Cap, now: int, e: Event)
    requires Inv(c, now)
    ensures SameCapture(c.rec, Step(c, now, e).rec)
  {
    hide Step, Inv;
    if Step(c, now, e).rec != c.rec {
      Writers(c, now, e);
      InvShape(c, now);
      WrittenKeepsShape(AuthorOf(c, e).value, c.rec, now);
    }
  }

  lemma InvShape(c: Cap, now: int)
    requires Inv(c, now)
    ensures WellFormed(c.rec)
  {
  }

  lemma CaptureKeepsLedger(w: Ownership, cs: seq<Creation>, id: string, e: Event)
    requires OwnerInv(w.owner, w.now) && Ledger(w.owner, cs)
    ensures Ledger(Capture(w.owner, w.now, id, e), cs)
  {
    hide Inv, Step, BooksOk, CapsOk, Ledger, SameCapture;
    if id in w.owner.caps {
      CapOk(w.owner.caps, w.now, id);
      CaptureStepSame(w.owner.caps[id], w.now, e);
      SameSelf(w.owner);
      LedgerFrame(w.owner, Capture(w.owner, w.now, id, e), cs);
    }
  }

  lemma SameSelf(o: Owner)
    ensures forall id | id in o.caps :: SameCapture(o.caps[id].rec, o.caps[id].rec)
  {
  }

  lemma CreateKeepsLedger(w: Ownership, cs: seq<Creation>, k: nat, c: Creation)
    requires OwnerInv(w.owner, w.now) && Ledger(w.owner, cs) && CreateCommits(w.owner, w.now, k, c)
    ensures Ledger(Create(w.owner, w.now, k, c), cs + [c])
  {
    hide Inv, BooksOk, CapsOk, Ledger;
    DraftFits(w.owner, Briefs(w.owner.caps), w.now, k);
    assert w.owner.drafts[k].account == w.owner.account;
    hide DraftOk;
    var o := Create(w.owner, w.now, k, c);
    LedgerAdds(w.owner, o, cs, c, o.caps[c.id]);
  }

  lemma {:induction false} LedgerOf(w: Ownership, ms: seq<Turn>, cs: seq<Creation>)
    requires OwnerInv(w.owner, w.now) && Ledger(w.owner, cs)
    ensures Ledger(Play(w, ms).owner, cs + Committed(w, ms))
    decreases |ms|
  {
    hide OwnerInv, Ledger, CreateCommits, Create, Capture, CheckCurrent, ReadCurrent;
    if ms == [] {
      assert cs + [] == cs;
    } else {
      var v := Next(w, ms[0]);
      TurnKeeps(w, ms[0]);
      assert Ledger(v.owner, cs + Commits(w, ms[0])) by {
        TurnLedger(w, ms[0], cs);
      }
      LedgerOf(v, ms[1..], cs + Commits(w, ms[0]));
      assert cs + Commits(w, ms[0]) + Committed(v, ms[1..]) == cs + Committed(w, ms);
    }
  }

  lemma TurnLedger(w: Ownership, m: Turn, cs: seq<Creation>)
    requires OwnerInv(w.owner, w.now) && Ledger(w.owner, cs)
    ensures Ledger(Next(w, m).owner, cs + Commits(w, m))
  {
    hide OwnerInv, Capture;
    assert cs + [] == cs;
    match m
    case Acts(OnCapture(id, e)) => CaptureKeepsLedger(w, cs, id, e);
    case Acts(Creates(k, c)) =>
      if CreateCommits(w.owner, w.now, k, c) {
        CreateKeepsLedger(w, cs, k, c);
      }
    case _ =>
  }

  /** The day was read before midnight and the creation time after it. */
  predicate Late(c: Creation, day: int) {
    c.dayAt / DAY == day - 1 && c.createdAt / DAY == day
  }

  predicate OnTime(c: Creation, day: int) {
    c.dayAt / DAY == day && c.createdAt / DAY == day
  }

  function OnTimeAfter(cs: seq<Creation>, i: int, day: int): set<string> {
    set j | 0 <= j < |cs| && i < j && OnTime(cs[j], day) :: cs[j].id
  }

  lemma DayOrNext(c: Creation, day: int)
    requires c.dayAt <= c.createdAt <= c.dayAt + REQUEST_LIMIT && c.createdAt / DAY == day
    ensures Late(c, day) || OnTime(c, day)
  {
  }

  lemma EntryOf(o: Owner, cs: seq<Creation>, id: string, day: int) returns (i: int)
    requires Ledger(o, cs) && id in CreatedOn(o.caps, day)
    ensures 0 <= i < |cs| && cs[i].id == id && InBooks(o, cs[i], i + 1) && (Late(cs[i], day) || OnTime(cs[i], day))
  {
    i := o.caps[id].rec.evidenceVersion - 1;
    assert Entered(cs, i + 1, id);
    assert InBooks(o, cs[i], i + 1);
    DayOrNext(cs[i], day);
  }

  /** A late creation precedes all that are charged to the day. */
  lemma LateComesFirst(o: Owner, now: int, cs: seq<Creation>, i: int, j: int, day: int)
    requires OwnerInv(o, now) && Ledger(o, cs) && 0 <= i < |cs| && 0 <= j < |cs| && i != j
    requires Late(cs[i], day) && cs[j].createdAt / DAY == day
    ensures i < j && !Late(cs[j], day)
  {
    hide Inv, Ledger;
    var bs := Briefs(o.caps);
    assert Budgeted(o.account, bs, o.charged);
    assert InBooks(o, cs[i], i + 1) && InBooks(o, cs[j], j + 1) by {
      LedgerEntry(o, cs, i);
      LedgerEntry(o, cs, j);
    }
    assert bs[cs[i].id].version == i + 1 && bs[cs[j].id].version == j + 1;
    assert bs[cs[i].id].createdAt == cs[i].createdAt && bs[cs[j].id].createdAt == cs[j].createdAt;
  }

  lemma LedgerEntry(o: Owner, cs: seq<Creation>, i: int)
    requires Ledger(o, cs) && 0 <= i < |cs|
    ensures InBooks(o, cs[i], i + 1)
  {
  }

  lemma WithLate(o: Owner, now: int, cs: seq<Creation>, i: int, day: int)
    requires OwnerInv(o, now) && Ledger(o, cs) && 0 <= i < |cs| && Late(cs[i], day)
    ensures CreatedOn(o.caps, day) == OnTimeAfter(cs, i, day) + {cs[i].id} && cs[i].id !in OnTimeAfter(cs, i, day)
    ensures forall j | 0 <= j < |cs| && Late(cs[j], day) :: j == i
  {
    hide OwnerInv;
    forall j | 0 <= j < |cs| ensures InBooks(o, cs[j], j + 1) {
      LedgerEntry(o, cs, j);
    }
    forall j | 0 <= j < |cs| && j != i && cs[j].createdAt / DAY == day ensures i < j && !Late(cs[j], day) {
      LateComesFirst(o, now, cs, i, j, day);
    }
    forall id | id in CreatedOn(o.caps, day) ensures id in OnTimeAfter(cs, i, day) + {cs[i].id} {
      var j := EntryOf(o, cs, id, day);
    }
  }

  lemma WithoutLate(o: Owner, cs: seq<Creation>, day: int)
    requires Ledger(o, cs) && forall i | 0 <= i < |cs| :: !Late(cs[i], day)
    ensures CreatedOn(o.caps, day) <= ChargedTo(o.charged, day)
  {
    forall id | id in CreatedOn(o.caps, day) ensures id in ChargedTo(o.charged, day) {
      var i := EntryOf(o, cs, id, day);
    }
  }

  lemma LedgerFrom(start: nat, ms: seq<Turn>)
    ensures Ledger(Play(Ownership(start, NO_OWNER), ms).owner, Committed(Ownership(start, NO_OWNER), ms))
  {
    var w0 := Ownership(start, NO_OWNER);
    PlayFromNothing(start, []);
    LedgerOf(w0, ms, []);
    assert [] + Committed(w0, ms) == Committed(w0, ms);
  }

  lemma Charges(o: Owner, now: int, day: int)
    requires OwnerInv(o, now)
    ensures |ChargedTo(o.charged, day)| <= PER_DAY
  {
    hide Inv;
    assert Budgeted(o.account, Briefs(o.caps), o.charged);
  }

  /** A create that read the day before midnight and the creation time after it came before five that took both readings on the day. */
  ghost predicate LateBeforeFive(cs: seq<Creation>, day: int) {
    exists i :: 0 <= i < |cs| && Late(cs[i], day) && |OnTimeAfter(cs, i, day)| == PER_DAY
  }

  /**
   The budget is charged to the day that a create reads first: at most five a day. By creation times
   there are at most six, and six exactly when a create that read the day before midnight and the creation
   time after it came before five that took both readings on the day.
   */
  lemma FivePerDay(start: nat, ms: seq<Turn>, day: int)
    ensures var o := Play(Ownership(start, NO_OWNER), ms).owner;
            var cs := Committed(Ownership(start, NO_OWNER), ms);
            && |ChargedTo(o.charged, day)| <= PER_DAY && |CreatedOn(o.caps, day)| <= PER_DAY + 1
            && (|CreatedOn(o.caps, day)| > PER_DAY <==> LateBeforeFive(cs, day))
            && (forall i, j | 0 <= i < |cs| && 0 <= j < |cs| && Late(cs[i], day) && Late(cs[j], day) :: i == j)
  {
    hide OwnerInv, Ledger, Play, Committed, CreatedOn, ChargedTo, OnTimeAfter, Late, LateBeforeFive;
    var w0 := Ownership(start, NO_OWNER);
    PlayFromNothing(start, ms);
    LedgerFrom(start, ms);
    FivePerLedger(Play(w0, ms).owner, Play(w0, ms).now, Committed(w0, ms), day);
  }

  lemma FivePerLedger(o: Owner, now: int, cs: seq<Creation>, day: int)
    requires OwnerInv(o, now) && Ledger(o, cs)
    ensures |ChargedTo(o.charged, day)| <= PER_DAY && |CreatedOn(o.caps, day)| <= PER_DAY + 1
    ensures |CreatedOn(o.caps, day)| > PER_DAY <==> LateBeforeFive(cs, day)
    ensures forall i, j | 0 <= i < |cs| && 0 <= j < |cs| && Late(cs[i], day) && Late(cs[j], day) :: i == j
  {
    hide OwnerInv, Ledger, CreatedOn, ChargedTo, OnTimeAfter, Late, LateBeforeFive;
    Charges(o, now, day);
    if i :| 0 <= i < |cs| && Late(cs[i], day) {
      LateCounts(o, now, cs, i, day);
      LateDecides(cs, i, day);
      var n := |OnTimeAfter(cs, i, day)|;
      assert |CreatedOn(o.caps, day)| == n + 1 <= PER_DAY + 1;
    } else {
      WithoutLate(o, cs, day);
      NoneLate(cs, day);
      SubsetSize(CreatedOn(o.caps, day), ChargedTo(o.charged, day));
    }
  }

  /** With one late creation, whether some late creation precedes five is a question about that one. */
  lemma LateDecides(cs: seq<Creation>, i: int, day: int)
    requires 0 <= i < |cs| && Late(cs[i], day) && forall j | 0 <= j < |cs| && Late(cs[j], day) :: j == i
    ensures LateBeforeFive(cs, day) <==> |OnTimeAfter(cs, i, day)| == PER_DAY
  {
  }

  lemma NoneLate(cs: seq<Creation>, day: int)
    requires forall i | 0 <= i < |cs| :: !Late(cs[i], day)
    ensures !LateBeforeFive(cs, day)
    ensures forall i, j | 0 <= i < |cs| && 0 <= j < |cs| && Late(cs[i], day) && Late(cs[j], day) :: i == j
  {
  }

  lemma LateCounts(o: Owner, now: int, cs: seq<Creation>, i: int, day: int)
    requires OwnerInv(o, now) && Ledger(o, cs) && 0 <= i < |cs| && Late(cs[i], day)
    ensures |CreatedOn(o.caps, day)| == |OnTimeAfter(cs, i, day)| + 1 && |OnTimeAfter(cs, i, day)| <= PER_DAY
    ensures forall j | 0 <= j < |cs| && Late(cs[j], day) :: j == i
  {
    hide OwnerInv;
    WithLate(o, now, cs, i, day);
    var after := OnTimeAfter(cs, i, day);
    assert after <= ChargedTo(o.charged, day) by {
      forall j | 0 <= j < |cs| ensures InBooks(o, cs[j], j + 1) {
        LedgerEntry(o, cs, j);
      }
    }
    Charges(o, now, day);
    SubsetSize(after, ChargedTo(o.charged, day));
  }

  /** Where no create straddles midnight, five is the bound by creation times too. */
  lemma FiveUnlessStraddling(start: nat, ms: seq<Turn>, day: int)
    requires forall c | c in Committed(Ownership(start, NO_OWNER), ms) :: c.dayAt / DAY == c.createdAt / DAY
    ensures |CreatedOn(Play(Ownership(start, NO_OWNER), ms).owner.caps, day)| <= PER_DAY
  {
    FivePerDay(start, ms, day);
  }

  /** Names of growing length. */
  function Name(n: nat): (s: string)
    ensures |s| == n
  {
    seq(n, _ => 'x')
  }

  /** Nothing stops a new capture: the current one is cancelled and the budget is not used up. */
  predicate Open(w: Ownership, n: nat) {
    var o := w.owner;
    && o.caps.Keys == o.byKey.Keys && (forall id | id in o.caps :: 1 <= |id| <= n)
    && (o.account.currentId in o.caps ==> o.caps[o.account.currentId].rec.state.Cancelled?)
    && (o.account.day == w.now / DAY ==> o.account.createdToday < PER_DAY)
  }

  function Draft0(n: nat, t: int, pause: nat): Creation {
    Creation(Name(n), Name(n), "id_card", "p", "en", t, t + pause, t + pause)
  }

  function CreateMoves(n: nat, t: int, pause: nat): seq<Turn> {
    [Acts(ReadsAccount(0)), Acts(ReadsCurrent(0))] + [Acts(ChecksCurrent(0, t)), Wait(pause)] + [Acts(Creates(0, Draft0(n, t, pause)))]
  }

  function CancelMoves(n: nat, t: int): seq<Turn> {
    [Acts(OnCapture(Name(n), Reads(0))), Acts(OnCapture(Name(n), Writes(0, Cancel(t), true)))]
  }

  lemma TwoTurns(w: Ownership, m1: Turn, m2: Turn)
    ensures Play(w, [m1, m2]) == Next(Next(w, m1), m2)
  {
    assert [m1, m2][1..] == [m2] && [m2][1..] == [];
    assert Play(w, [m1, m2]) == Play(Next(w, m1), [m2]) == Play(Next(Next(w, m1), m2), []);
  }

  lemma CreateGoes(w: Ownership, n: nat, pause: nat) returns (r: Record)
    requires Open(w, n) && 0 <= w.now && pause <= REQUEST_LIMIT
    ensures r.state.Uploading? && r.createdAt == w.now + pause
    ensures var v := Play(w, CreateMoves(n + 1, w.now, pause));
            && v.now == w.now + pause && Charge(w.owner.account, Draft0(n + 1, w.now, pause)) == Some(v.owner.account)
            && v.owner.caps == w.owner.caps[Name(n + 1) := NewCap(r)]
            && v.owner.byKey == w.owner.byKey[Name(n + 1) := Name(n + 1)]
  {
    hide Play, Draft0;
    var c := Draft0(n + 1, w.now, pause);
    var u := CheckGoes(w, n);
    r := CreateLands(w, u, n, pause);
    PlayCreate(w, c, n, pause);
  }

  /** The account and its current capture are read, and the check passes. */
  lemma CheckGoes(w: Ownership, n: nat) returns (u: Ownership)
    requires Open(w, n) && 0 <= w.now
    ensures u == Next(Next(Next(w, Acts(ReadsAccount(0))), Acts(ReadsCurrent(0))), Acts(ChecksCurrent(0, w.now)))
    ensures 0 in u.owner.drafts && u.now == w.now && u.owner == w.owner.(drafts := u.owner.drafts)
    ensures u.owner.drafts[0] == Draft(w.owner.account, w.now, u.owner.drafts[0].seen, true)
  {
    hide Step, Capture, Create;
    var w1 := Next(w, Acts(ReadsAccount(0)));
    assert w1.owner.drafts[0] == Draft(w.owner.account, w.now, None, false);
    var w2 := Next(w1, Acts(ReadsCurrent(0)));
    u := Next(w2, Acts(ChecksCurrent(0, w.now)));
  }

  lemma CreateLands(w: Ownership, u: Ownership, n: nat, pause: nat) returns (r: Record)
    requires Open(w, n) && 0 <= w.now && pause <= REQUEST_LIMIT
    requires 0 in u.owner.drafts && u.now == w.now && u.owner == w.owner.(drafts := u.owner.drafts)
    requires u.owner.drafts[0] == Draft(w.owner.account, w.now, u.owner.drafts[0].seen, true)
    ensures r.state.Uploading? && r.createdAt == w.now + pause
    ensures var c := Draft0(n + 1, w.now, pause);
            var v := Next(Next(u, Wait(pause)), Acts(Creates(0, c)));
            && v.now == w.now + pause && Charge(w.owner.account, c) == Some(v.owner.account)
            && v.owner.caps == w.owner.caps[Name(n + 1) := NewCap(r)]
            && v.owner.byKey == w.owner.byKey[Name(n + 1) := Name(n + 1)]
  {
    hide Step, Capture;
    var c := Draft0(n + 1, w.now, pause);
    assert c.id !in w.owner.caps && c.key !in w.owner.byKey;
    assert CreateCommits(u.owner, u.now + pause, 0, c);
    r := NewRecord(c.id, w.owner.account.version + 1, c.key, c.kind, c.policy, c.language, c.createdAt, c.expiryAt);
  }

  lemma OneTurn(w: Ownership, m: Turn)
    ensures Play(w, [m]) == Next(w, m)
  {
    assert Play(w, [m]) == Play(Next(w, m), [m][1..]);
  }

  lemma PlayCreate(w: Ownership, c: Creation, n: nat, pause: nat)
    requires c == Draft0(n + 1, w.now, pause)
    ensures Play(w, CreateMoves(n + 1, w.now, pause)) ==
            Next(Next(Next(Next(Next(w, Acts(ReadsAccount(0))), Acts(ReadsCurrent(0))), Acts(ChecksCurrent(0, w.now))), Wait(pause)), Acts(Creates(0, c)))
  {
    hide Play, Next, Draft0;
    var two := [Acts(ReadsAccount(0)), Acts(ReadsCurrent(0))];
    var four := [Acts(ChecksCurrent(0, w.now)), Wait(pause)];
    var last := Acts(Creates(0, c));
    TwoTurns(w, two[0], two[1]);
    TwoTurns(Play(w, two), four[0], four[1]);
    PlayAppend(w, two, four);
    PlayAppend(w, two + four, [last]);
    OneTurn(Play(w, two + four), last);
  }

  lemma CancelGoes(w: Ownership, n: nat, r: Record)
    requires Name(n) in w.owner.caps && w.owner.caps[Name(n)] == NewCap(r) && r.state.Uploading?
    ensures var v := Play(w, CancelMoves(n, w.now));
            && v.now == w.now && v.owner.account == w.owner.account && v.owner.byKey == w.owner.byKey
            && v.owner.caps.Keys == w.owner.caps.Keys
            && v.owner.caps[Name(n)].rec.state.Cancelled? && v.owner.caps[Name(n)].rec.createdAt == r.createdAt
            && (forall id | id in w.owner.caps && id != Name(n) :: v.owner.caps[id] == w.owner.caps[id])
  {
    var id := Name(n);
    TwoTurns(w, Acts(OnCapture(id, Reads(0))), Acts(OnCapture(id, Writes(0, Cancel(w.now), true))));
    hide Play, Name;
    NewIsCancelled(r, w.now);
    hide Step, NewCap;
    var w1 := Next(w, Acts(OnCapture(id, Reads(0))));
    assert w1.owner.caps[id] == Step(NewCap(r), w.now, Reads(0));
  }

  lemma NewIsCancelled(r: Record, now: int)
    requires r.state.Uploading?
    ensures var read := Step(NewCap(r), now, Reads(0));
            var cancelled := Step(read, now, Writes(0, Cancel(now), true));
            && cancelled.rec.state.Cancelled? && cancelled.rec.createdAt == r.createdAt
            && cancelled.outbox.promotions == read.outbox.promotions == NewCap(r).outbox.promotions
  {
    assert Step(NewCap(r), now, Reads(0)) == NewCap(r).(requests := map[0 := Request(r, now)]);
  }

  function Round(n: nat, t: int, pause: nat): seq<Turn> {
    CreateMoves(n + 1, t, pause) + CancelMoves(n + 1, t + pause)
  }

  /** Afterwards the new capture is cancelled and nothing else has changed in the other captures. */
  ghost predicate Added(before: Owner, after: Owner, id: string, createdAt: int) {
    && id !in before.caps && after.caps.Keys == before.caps.Keys + {id} && after.byKey.Keys == before.byKey.Keys + {id}
    && after.caps[id].rec.state.Cancelled? && after.caps[id].rec.createdAt == createdAt
    && (forall jd | jd in before.caps :: after.caps[jd] == before.caps[jd])
  }

  lemma AddedBy(o: Owner, u: Owner, v: Owner, id: string, c: Cap)
    requires id !in o.caps && o.byKey.Keys == o.caps.Keys && u.caps == o.caps[id := c] && u.byKey == o.byKey[id := id]
    requires v.byKey == u.byKey && v.caps.Keys == u.caps.Keys
    requires v.caps[id].rec.state.Cancelled? && v.caps[id].rec.createdAt == c.rec.createdAt
    requires forall jd | jd in u.caps && jd != id :: v.caps[jd] == u.caps[jd]
    ensures Added(o, v, id, c.rec.createdAt)
  {
  }

  lemma CreateThenCancel(w: Ownership, n: nat, pause: nat)
    requires Open(w, n) && 0 <= w.now && pause <= REQUEST_LIMIT
    ensures var v := Play(w, Round(n, w.now, pause));
            && v.now == w.now + pause && Charge(w.owner.account, Draft0(n + 1, w.now, pause)) == Some(v.owner.account)
            && Added(w.owner, v.owner, Name(n + 1), v.now)
  {
    hide Play, Charge, CreateMoves, CancelMoves, Draft0, Added;
    assert Name(n + 1) !in w.owner.caps;
    var r := CreateGoes(w, n, pause);
    hide Open;
    var u := Play(w, CreateMoves(n + 1, w.now, pause));
    CancelGoes(u, n + 1, r);
    PlayAppend(w, CreateMoves(n + 1, w.now, pause), CancelMoves(n + 1, w.now + pause));
    AddedBy(w.owner, u.owner, Play(u, CancelMoves(n + 1, u.now)).owner, Name(n + 1), NewCap(r));
  }

  lemma CreatedOnGrows(before: map<string, Cap>, after: map<string, Cap>, id: string, day: int)
    requires id !in before && after.Keys == before.Keys + {id} && after[id].rec.createdAt / DAY == day
    requires forall jd | jd in before :: after[jd] == before[jd]
    ensures CreatedOn(after, day) == CreatedOn(before, day) + {id}
  {
  }

  /** `n` captures were created on the day, and `n - 1` of them are charged to it. */
  predicate Filled(w: Ownership, n: nat) {
    && 0 <= w.now && Open(w, n) && |CreatedOn(w.owner.caps, w.now / DAY)| == n
    && (if w.owner.account.day == w.now / DAY then w.owner.account.createdToday else 0) == n - 1
  }

  /** After a create and its cancellation nothing stops the next one but the budget. */
  lemma OpenAgain(w: Ownership, v: Ownership, n: nat)
    requires Open(w, n) && Added(w.owner, v.owner, Name(n + 1), v.now) && v.owner.account.currentId == Name(n + 1)
    requires v.owner.account.day == v.now / DAY ==> v.owner.account.createdToday < PER_DAY
    ensures Open(v, n + 1)
  {
  }

  lemma ChargedAgain(a: Account, n: nat, t: int)
    requires Charge(a, Draft0(n + 1, t, 0)).Some?
    ensures var b := Charge(a, Draft0(n + 1, t, 0)).value;
            b.currentId == Name(n + 1) && b.day == t / DAY && b.createdToday == (if a.day == t / DAY then a.createdToday else 0) + 1
  {
  }

  lemma FillOne(w: Ownership, n: nat)
    requires Filled(w, n) && 1 <= n <= 5
    ensures var v := Play(w, Round(n, w.now, 0));
            && v.now == w.now && |CreatedOn(v.owner.caps, v.now / DAY)| == n + 1 && (n < 5 ==> Filled(v, n + 1))
  {
    hide Play, Round, Draft0, Charge, Open, Added, CreatedOn;
    CreateThenCancel(w, n, 0);
    var v := Play(w, Round(n, w.now, 0));
    ChargedAgain(w.owner.account, n, w.now);
    AddedCounts(w.owner, v.owner, Name(n + 1), v.now);
    if n < 5 {
      OpenAgain(w, v, n);
    }
  }

  lemma AddedCounts(o: Owner, after: Owner, id: string, t: int)
    requires Added(o, after, id, t)
    ensures |CreatedOn(after.caps, t / DAY)| == |CreatedOn(o.caps, t / DAY)| + 1
  {
    CreatedOnGrows(o.caps, after.caps, id, t / DAY);
  }

  lemma {:induction false} FillDay(w: Ownership, n: nat) returns (ms: seq<Turn>)
    requires Filled(w, n) && 1 <= n <= 5
    ensures |CreatedOn(Play(w, ms).owner.caps, w.now / DAY)| == 6
    decreases 6 - n
  {
    hide Filled, Round, CreatedOn;
    FillOne(w, n);
    ms := Round(n, w.now, 0);
    if n < 5 {
      var rest := FillDay(Play(w, ms), n + 1);
      PlayAppend(w, ms, rest);
      ms := ms + rest;
    }
  }

  /** On the first day the counter starts at one. */
  lemma FirstCharge()
    ensures Charge(NO_ACCOUNT, Draft0(1, DAY - 1, 1)) == Some(Account(false, Name(1), 1, 1, 0, 1))
  {
  }

  lemma FirstOfSix()
    ensures Filled(Play(Ownership(DAY - 1, NO_OWNER), Round(0, DAY - 1, 1)), 1)
    ensures Play(Ownership(DAY - 1, NO_OWNER), Round(0, DAY - 1, 1)).now == DAY
  {
    hide Play, Round;
    var w := Ownership(DAY - 1, NO_OWNER);
    CreateThenCancel(w, 0, 1);
    var v := Play(w, Round(0, DAY - 1, 1));
    FirstCharge();
    hide Draft0, Charge;
    CreatedOnGrows(w.owner.caps, v.owner.caps, Name(1), 1);
    assert CreatedOn(w.owner.caps, 1) == {};
  }

  /** Six captures with creation times on the same UTC day: the first create read its day just before midnight. */
  lemma SixCreatedInOneDay() returns (ms: seq<Turn>)
    ensures |CreatedOn(Play(Ownership(DAY - 1, NO_OWNER), ms).owner.caps, 1)| == PER_DAY + 1
  {
    hide Round, CreatedOn, Filled;
    FirstOfSix();
    var w := Ownership(DAY - 1, NO_OWNER);
    var rest := FillDay(Play(w, Round(0, DAY - 1, 1)), 1);
    PlayAppend(w, Round(0, DAY - 1, 1), rest);
    ms := Round(0, DAY - 1, 1) + rest;
  }

  // ---- The captured flag ----

  lemma FlagOnlyRises(w: Ownership, m: Turn)
    requires OwnerInv(w.owner, w.now)
    ensures w.owner.account.idCaptured ==> Next(w, m).owner.account.idCaptured
    ensures (w.owner.facts.captured ==> Next(w, m).owner.facts.captured) && (w.owner.facts.password ==> Next(w, m).owner.facts.password)
  {
    hide Inv, BooksOk, CapsOk, Step;
    if m.Acts? && m.act.Creates? && m.act.k in w.owner.drafts {
      DraftFits(w.owner, Briefs(w.owner.caps), w.now, m.act.k);
    }
  }

  /** Once set, the flag survives every later turn, in particular a create that had read the account before. */
  lemma {:induction false} FlagIsPermanent(w: Ownership, ms: seq<Turn>)
    requires OwnerInv(w.owner, w.now)
    ensures w.owner.account.idCaptured ==> Play(w, ms).owner.account.idCaptured
    ensures (w.owner.facts.captured ==> Play(w, ms).owner.facts.captured) && (w.owner.facts.password ==> Play(w, ms).owner.facts.password)
    decreases |ms|
  {
    hide Inv;
    if ms != [] {
      FlagOnlyRises(w, ms[0]);
      TurnKeeps(w, ms[0]);
      FlagIsPermanent(Next(w, ms[0]), ms[1..]);
    }
  }

  /** The flag says exactly that some capture of the owner has become ready, and the enrollment fact never says more. */
  lemma FlagIsTruthful(start: nat, ms: seq<Turn>)
    ensures var o := Play(Ownership(start, NO_OWNER), ms).owner;
            && (o.account.idCaptured <==> exists id :: id in o.caps && o.caps[id].outbox.event.Some?)
            && (o.facts.captured ==> o.account.idCaptured)
  {
    PlayFromNothing(start, ms);
    var w := Play(Ownership(start, NO_OWNER), ms);
    var bs := Briefs(w.owner.caps);
    forall id | id in w.owner.caps ensures bs[id].promotions == 1 <==> w.owner.caps[id].outbox.event.Some? {
      CapOk(w.owner.caps, w.now, id);
      assert PromotionsOk(w.owner.caps[id].rec, w.owner.caps[id].outbox, w.owner.caps[id].everCancelled, w.now);
    }
    hide Inv;
    assert Captured(w.owner.account, bs, w.owner.facts.captured);
  }
}
