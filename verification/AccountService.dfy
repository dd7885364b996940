/**
 Creating captures and reporting onboarding as the services execute (capture/service.go `Create`,
 awscapture/store.go `Create`, signin/enrollment.go `Status`, signin/enrollment_store.go), one table
 access at a time while promotions, other creates and everything else go on.
 */
module AccountService {
  import opened Basics
  import opened CaptureModel
  import opened CaptureRules
  import opened CaptureWorld
  import opened CaptureInvariant
  import opened CaptureAccount
  import CaptureAccountSafety
  import Onboarding

  predicate Concerns(m: Turn, k: nat) {
    m.Acts? &&
    match m.act
    case ReadsAccount(n) => n == k
    case ReadsCurrent(n) => n == k
    case ChecksCurrent(n, _) => n == k
    case Creates(n, _) => n == k
    case _ => false
  }

  /** What the others leave alone, and what never goes away. */
  predicate Apart(w: Ownership, v: Ownership, k: nat) {
    && w.now <= v.now
    && (k in w.owner.drafts ==> k in v.owner.drafts && v.owner.drafts[k] == w.owner.drafts[k])
    && w.owner.caps.Keys <= v.owner.caps.Keys
    && (forall key | key in w.owner.byKey :: key in v.owner.byKey && v.owner.byKey[key] == w.owner.byKey[key])
  }

  lemma OthersLeaveAlone(w: Ownership, m: Turn, k: nat)
    requires !Concerns(m, k)
    ensures Apart(w, Next(w, m), k)
  {
    hide Step, NewCap, Charge;
  }

  lemma {:induction false} OthersPlay(w: Ownership, ms: seq<Turn>, k: nat)
    requires forall m | m in ms :: !Concerns(m, k)
    ensures Apart(w, Play(w, ms), k)
    decreases |ms|
  {
    hide Next, Concerns;
    if ms != [] {
      OthersLeaveAlone(w, ms[0], k);
      OthersPlay(Next(w, ms[0]), ms[1..], k);
    }
  }

  ghost predicate Fair(others: nat -> seq<Turn>, k: nat) {
    forall n, m | m in others(n) :: !Concerns(m, k)
  }

  ghost predicate Follows(start: nat, history: seq<Turn>, w: Ownership) {
    w == Play(Ownership(start, NO_OWNER), history)
  }

  lemma FollowsOn(start: nat, history: seq<Turn>, w: Ownership, ms: seq<Turn>)
    requires Follows(start, history, w)
    ensures Follows(start, history + ms, Play(w, ms))
  {
    PlayAppend(Ownership(start, NO_OWNER), history, ms);
  }

  lemma FollowsNext(start: nat, history: seq<Turn>, w: Ownership, m: Turn)
    requires Follows(start, history, w)
    ensures Follows(start, history + [m], Next(w, m))
  {
    FollowsOn(start, history, w, [m]);
    CaptureAccountSafety.OneTurn(w, m);
  }

  lemma FollowsInv(start: nat, history: seq<Turn>, w: Ownership)
    requires Follows(start, history, w)
    ensures OwnerInv(w.owner, w.now)
  {
    PlayFromNothing(start, history);
  }

  lemma OthersTurn(others: nat -> seq<Turn>, turn: nat, w: Ownership, k: nat)
    requires Fair(others, k)
    ensures Apart(w, Play(w, others(turn)), k)
  {
    OthersPlay(w, others(turn), k);
  }

  lemma FlagStays(start: nat, history: seq<Turn>, w: Ownership, ms: seq<Turn>)
    requires Follows(start, history, w)
    ensures w.owner.account.idCaptured ==> Play(w, ms).owner.account.idCaptured
    ensures (w.owner.facts.captured ==> Play(w, ms).owner.facts.captured) && (w.owner.facts.password ==> Play(w, ms).owner.facts.password)
  {
    FollowsInv(start, history, w);
    CaptureAccountSafety.FlagIsPermanent(w, ms);
  }

  /** A record that is ready has set its account's flag. */
  lemma ReadyIsCaptured(start: nat, history: seq<Turn>, w: Ownership, id: string)
    requires Follows(start, history, w) && id in w.owner.caps && w.owner.caps[id].rec.state.Ready?
    ensures w.owner.account.idCaptured
  {
    FollowsInv(start, history, w);
    CaptureAccountSafety.FlagIsTruthful(start, history);
    CapOk(w.owner.caps, w.now, id);
    ReadyHasEvent(w.owner.caps[id], w.now);
  }

  lemma ReadyHasEvent(c: Cap, now: int)
    requires Inv(c, now) && c.rec.state.Ready?
    ensures c.outbox.event.Some?
  {
  }

  datatype Refusal = Invalid | NotAdmitted | Conflict | Limited | NoAnswer | Gone

  datatype Status = Status(passkey: bool, password: bool, idCaptured: bool, complete: bool)

  class Accounts {
    var now: int
    var account: Account
    var caps: map<string, Cap>
    var byKey: map<string, string>
    var facts: Facts
    var charged: map<string, int>
    var drafts: map<nat, Draft>
    var turn: nat
    const me: nat
    const others: nat -> seq<Turn>
    const works: nat -> bool
    const start: nat
    ghost var history: seq<Turn>

    constructor (start: nat, me: nat, others: nat -> seq<Turn>, works: nat -> bool)
      requires Fair(others, me)
      ensures Valid() && history == [] && Whole() == Ownership(start, NO_OWNER)
    {
      now, account, caps, byKey, facts, charged, drafts := start, NO_ACCOUNT, map[], map[], Facts(false, false), map[], map[];
      this.start, this.me, this.others, this.works := start, me, others, works;
      turn, history := 0, [];
    }

    function Whole(): Ownership
      reads this
    {
      Ownership(now, Owner(account, caps, byKey, facts, charged, drafts))
    }

    ghost predicate Valid()
      reads this
    {
      Follows(start, history, Whole()) && Fair(others, me)
    }

    ghost method Note(before: Ownership, m: Turn)
      requires Follows(start, history, before) && Whole() == Next(before, m) && Fair(others, me)
      modifies this`history
      ensures Valid() && history == old(history) + [m]
    {
      hide Follows, Next;
      FollowsNext(start, history, before, m);
      history := history + [m];
    }

    method Become(w: Ownership)
      modifies this
      ensures Whole() == w && turn == old(turn) && history == old(history)
    {
      now, account, caps, byKey, facts, charged, drafts :=
        w.now, w.owner.account, w.owner.caps, w.owner.byKey, w.owner.facts, w.owner.charged, w.owner.drafts;
    }

    /** Whatever the others do next. */
    method Others()
      requires Valid()
      modifies this
      ensures Valid() && old(history) <= history && Apart(old(Whole()), Whole(), me)
      ensures (old(account.idCaptured) ==> account.idCaptured) && (old(facts.captured) ==> facts.captured)
      ensures old(facts.password) ==> facts.password
    {
      hide Follows, Play, Fair;
      var ms := others(turn);
      OthersTurn(others, turn, Whole(), me);
      FlagStays(start, history, Whole(), ms);
      FollowsOn(start, history, Whole(), ms);
      Become(Play(Whole(), ms));
      history := history + ms;
      turn := turn + 1;
    }

    // ---- Create ----

    /** An operation that made a capture before finds it again; a new one passes the admission, the current capture and the day's budget. */
    method Create(key: string, kind: string, policy: string, language: string, wellFormed: bool, admitted: bool, id: string)
      returns (o: Result<string, Refusal>)
      requires Valid()
      modifies this
      ensures Valid() && old(history) <= history
      ensures o.Ok? ==> key in byKey && byKey[key] == o.value && o.value in caps && caps[o.value].rec.createKey == key
    {
      hide Follows, Fair, Play;
      if !wellFormed {
        return Err(Invalid);
      }
      Others();
      if !works(turn) {
        return Err(NoAnswer);
      }
      if key in byKey {
        o := Replay(key, kind, policy, language);
        return;
      }
      if !admitted {
        return Err(NotAdmitted);
      }
      var at := ReadAccount();
      var free := CheckCurrentCapture(at);
      if !free {
        return Err(Conflict);
      }
      o := Store(key, kind, policy, language, id, at);
    }

    lemma KeysNameCaptures(key: string)
      requires Valid() && key in byKey
      ensures byKey[key] in caps && caps[byKey[key]].rec.createKey == key
    {
      FollowsInv(start, history, Whole());
      hide Inv;
      var bs := Briefs(caps);
      assert Identified(account, bs, byKey);
      assert bs[byKey[key]].key == key;
    }

    method Replay(key: string, kind: string, policy: string, language: string) returns (o: Result<string, Refusal>)
      requires Valid() && key in byKey
      modifies this
      ensures Valid() && old(history) <= history
      ensures o.Ok? ==> key in byKey && byKey[key] == o.value && o.value in caps && caps[o.value].rec.createKey == key
    {
      hide Follows, Fair, Play;
      var id := byKey[key];
      Others();
      KeysNameCaptures(key);
      var r := caps[id].rec;
      return if r.documentType != kind || r.policyVersion != policy || r.language != language then Err(Conflict) else Ok(id);
    }

    method ReadAccount() returns (at: int)
      requires Valid()
      modifies this
      ensures Valid() && old(history) <= history && at == now
      ensures me in drafts && drafts[me] == Draft(account, at, None, false)
    {
      hide Follows, Fair, Play;
      Others();
      at := now;
      ghost var before := Whole();
      drafts := drafts[me := Draft(account, now, None, false)];
      Note(before, Acts(ReadsAccount(me)));
    }

    /** The account's current capture, if it exists, must not take uploads or await validation. */
    method CheckCurrentCapture(at: int) returns (free: bool)
      requires Valid() && me in drafts && drafts[me].at == at <= now && drafts[me].seen.None?
      modifies this
      ensures Valid() && old(history) <= history && old(now) <= now
      ensures free ==> me in drafts && drafts[me].checked && drafts[me].account == old(drafts[me].account) && drafts[me].at == at
    {
      hide Follows, Fair, Play;
      Others();
      var d := drafts[me];
      ghost var before := Whole();
      if d.account.currentId in caps {
        d := d.(seen := Some(caps[d.account.currentId].rec));
        drafts := drafts[me := d];
      }
      Note(before, Acts(ReadsCurrent(me)));
      free := Decide(d, at);
    }

    method Decide(d: Draft, at: int) returns (free: bool)
      requires Valid() && me in drafts && drafts[me] == d && d.at == at <= now && (d.account.currentId in caps ==> d.seen.Some?)
      modifies this
      ensures Valid() && old(history) <= history && old(now) <= now
      ensures free ==> me in drafts && drafts[me] == d.(checked := true)
    {
      hide Follows, Fair, Play;
      Others();
      if d.seen.None? && d.account.currentId in caps {
        return false;  // does not happen: an account names no capture that is still to come
      }
      var t := now;
      free := d.seen.None? || (var s := View(d.seen.value, t).state; !s.Uploading? && !s.Finalizing?);
      ghost var before := Whole();
      drafts := if free then drafts[me := d.(checked := true)] else drafts - {me};
      Note(before, Acts(ChecksCurrent(me, t)));
    }

    /** The new account, the record and the key's mapping, all or nothing. */
    method Store(key: string, kind: string, policy: string, language: string, id: string, at: int) returns (o: Result<string, Refusal>)
      requires Valid() && me in drafts && drafts[me].checked && drafts[me].at == at <= now
      modifies this
      ensures Valid() && old(history) <= history
      ensures o.Ok? ==> key in byKey && byKey[key] == o.value && o.value in caps && caps[o.value].rec.createKey == key
    {
      hide Follows, Fair, Play;
      var read := drafts[me].account;
      Others();
      var dayAt := now;
      var next := read;
      next := next.(revision := next.revision + 1);
      next := next.(version := next.version + 1);
      if next.day != dayAt / DAY {
        next := next.(day := dayAt / DAY, createdToday := 0);
      }
      if next.createdToday >= 5 {
        return Err(Limited);
      }
      next := next.(createdToday := next.createdToday + 1);
      next := next.(currentId := id);
      Others();
      var createdAt := now;
      Others();
      var expiryAt := now;
      Others();
      if now > at + REQUEST_LIMIT || id == "" {
        return Err(Gone);
      }
      o := Transact(key, kind, policy, language, id, read, next, dayAt, createdAt, expiryAt);
    }

    method Transact(key: string, kind: string, policy: string, language: string, id: string, read: Account, next: Account,
                    dayAt: int, createdAt: int, expiryAt: int) returns (o: Result<string, Refusal>)
      requires Valid() && me in drafts && drafts[me].checked && drafts[me].account == read && now <= drafts[me].at + REQUEST_LIMIT
      requires drafts[me].at <= dayAt <= createdAt <= expiryAt <= now && id != ""
      requires Charge(read, Creation(id, key, kind, policy, language, dayAt, createdAt, expiryAt)) == Some(next)
      modifies this
      ensures Valid() && old(history) <= history
      ensures o.Ok? ==> key in byKey && byKey[key] == o.value == id && id in caps && caps[id].rec.createKey == key && account == next
    {
      hide Follows, Fair, Play, Charge;
      var c := Creation(id, key, kind, policy, language, dayAt, createdAt, expiryAt);
      ghost var before := Whole();
      var committed := account.revision == read.revision && id !in caps && key !in byKey;
      drafts := drafts - {me};
      if committed {
        account := next;
        var r := NewRecord(id, next.version, key, kind, policy, language, createdAt, expiryAt);
        caps := caps[id := NewCap(r)];
        byKey := byKey[key := id];
        charged := charged[id := next.day];
      }
      Note(before, Acts(Creates(me, c)));
      return if !committed then Err(Conflict) else if works(turn) then Ok(id) else Err(NoAnswer);
    }

    // ---- Passwords and onboarding status ----

    /** The fact store's update: it sets the facts it names and leaves the others. */
    method Mark(password: bool, captured: bool)
      modifies this`facts
      ensures facts == Facts(old(facts.password) || password, old(facts.captured) || captured)
    {
      if password {
        facts := facts.(password := true);
      }
      if captured {
        facts := facts.(captured := true);
      }
    }

    method MarkSeen(password: bool, captured: bool) returns (marked: bool)
      requires Valid() && (captured ==> account.idCaptured)
      modifies this
      ensures Valid() && old(history) <= history && (old(account.idCaptured) ==> account.idCaptured)
      ensures marked ==> (password ==> facts.password) && (captured ==> facts.captured)
      ensures old(facts.password) ==> facts.password
    {
      hide Follows, Fair, Play;
      Others();
      marked := works(turn);
      if marked {
        ghost var before := Whole();
        Mark(password, captured);
        Note(before, Acts(Marks(password, captured)));
      }
    }

    /** Sets a password that the policy accepts, and then the fact; `set` says that the identity pool took it. */
    method SetPassword(policy: Onboarding.Policy, password: seq<Onboarding.Byte>) returns (ok: bool, set_: bool)
      requires Valid()
      modifies this
      ensures Valid() && old(history) <= history
      ensures set_ ==> !policy.password.Disabled? && Onboarding.Accepts(policy.passwordPolicy, password)
      ensures ok ==> set_ && facts.password
    {
      hide Follows, Fair, Play;
      if policy.password.Disabled? {
        return false, false;
      }
      var accepted := Onboarding.Check(policy.passwordPolicy, password);
      if !accepted {
        return false, false;
      }
      Others();
      if !works(turn) {
        return false, false;
      }
      ok := MarkSeen(true, false);
      set_ := true;
    }

    lemma FactIsTruthful()
      requires Valid()
      ensures facts.captured ==> account.idCaptured
    {
      CaptureAccountSafety.FlagIsTruthful(start, history);
    }

    /**
     A successful status reports the ID as captured whenever it had been captured before the call,
     never without a capture that became ready, and by then the fact is stored.
     */
    method GetStatus(policy: Onboarding.Policy, passkey: bool) returns (o: Option<Status>)
      requires Valid()
      modifies this
      ensures Valid() && old(history) <= history
      ensures o.Some? && old(account.idCaptured) ==> o.value.idCaptured
      ensures o.Some? && o.value.idCaptured ==> facts.captured && account.idCaptured && exists id :: id in caps && caps[id].outbox.event.Some?
      ensures o.Some? ==> o.value.passkey == passkey && (old(facts.password) ==> o.value.password) && (o.value.password ==> facts.password)
      ensures o.Some? ==> o.value.complete == policy.Complete(passkey, o.value.password, o.value.idCaptured)
    {
      hide Follows, Fair, Play;
      Others();
      if !works(turn) {
        return None;
      }
      FactIsTruthful();
      var captured, password := facts.captured, facts.password;
      Others();
      if !captured {
        var found := LookForCapture();
        if found.None? {
          return None;
        }
        captured := found.value;
      }
      if captured {
        SomeCaptureIsReady();
      }
      o := Some(Status(passkey, password, captured, policy.Complete(passkey, password, captured)));
    }

    lemma SomeCaptureIsReady()
      requires Valid() && account.idCaptured
      ensures exists id :: id in caps && caps[id].outbox.event.Some?
    {
      CaptureAccountSafety.FlagIsTruthful(start, history);
    }

    /** The account's flag, or else its current capture: what is found there is marked before it is reported. */
    method LookForCapture() returns (found: Option<bool>)
      requires Valid()
      modifies this
      ensures Valid() && old(history) <= history && (old(account.idCaptured) ==> account.idCaptured)
      ensures found.Some? && old(account.idCaptured) ==> found.value
      ensures found == Some(true) ==> account.idCaptured && facts.captured
      ensures old(facts.password) ==> facts.password
    {
      hide Follows, Fair, Play;
      Others();
      if !works(turn) {
        return None;
      }
      var seen := account;
      if seen.idCaptured {
        var marked := MarkSeen(false, true);
        return if marked then Some(true) else None;
      }
      if seen.currentId == "" {
        return Some(false);
      }
      Others();
      if !works(turn) {
        return None;
      }
      if seen.currentId in caps && caps[seen.currentId].rec.state.Ready? {
        ReadyIsCaptured(start, history, Whole(), seen.currentId);
        var marked := MarkSeen(false, true);
        return if marked then Some(true) else None;
      }
      found := Some(false);
    }
  }
}
