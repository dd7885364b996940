/** An e-mail proof and what each operation writes over it (email/service.go, awsstore/store.go). */
module EmailModel {
  import opened Basics

  datatype Status = Pending | Confirming | Confirmed | Failed

  /** Digests tell apart whatever they are taken of. */
  datatype Digest = NoDigest | OfLink(link: string) | OfCode(id: string, generation: int, code: string) | OfToken(token: string)

  datatype Transaction = Transaction(
    id: string,
    email: string,
    challenge: Digest,
    link: Digest,
    code: Digest,
    state: Status,
    generation: int,
    version: int,
    attempts: int,
    resends: int,
    expires: int,
    lastSent: int,
    claimedAt: int,
    subject: string)

  const MAX_ATTEMPTS := 5
  const MAX_RESENDS := 3
  const HOUR := 3600

  /** The hourly budgets and their limits. */
  datatype Budget = SignupSource(source: string) | SignupEmail(email: string) | ResendSource(source: string) | ResendEmail(email: string)
    | CodeEmail(email: string)

  function Limit(b: Budget): nat {
    if b.SignupEmail? || b.ResendEmail? then 3 else 10
  }

  /** What `Confirm` is given: the link's secret and either the browser's token or the mailed code. */
  datatype Second = Token(token: string) | Code(code: string)

  datatype Input = Input(id: string, link: string, second: Second)

  function NewTransaction(id: string, email: string, challenge: Digest, link: string, code: string, t: int): Transaction {
    Transaction(id, email, challenge, OfLink(link), OfCode(id, 1, code), Pending, 1, 1, 0, 0, t + PROOF_LIFETIME, t, 0, "")
  }

  /** A resend may replace the proof; a failed one only when the address still has no account. */
  predicate MayRotate(r: Transaction, absent: bool, t: int) {
    (r.state.Pending? || (r.state.Failed? && absent)) && r.resends < MAX_RESENDS && t - r.lastSent >= COOLDOWN
  }

  function Rotated(r: Transaction, link: string, code: string, t: int): Transaction {
    r.(state := Pending, claimedAt := 0, generation := r.generation + 1, version := r.version + 1, resends := r.resends + 1,
       attempts := 0, link := OfLink(link), code := OfCode(r.id, r.generation + 1, code), expires := t + PROOF_LIFETIME, lastSent := t)
  }

  /** An interrupted confirmation that may be taken over, once the address is known to have no account. */
  predicate MayRecover(r: Transaction, link: string, t1: int, t2: int) {
    r.state.Confirming? && t1 - r.claimedAt >= CLAIM_TIMEOUT && r.expires > t2 && r.link == OfLink(link)
  }

  function Recovered(r: Transaction): Transaction {
    r.(state := Pending, version := r.version + 1)
  }

  predicate Usable(r: Transaction, link: string, t: int) {
    r.state.Pending? && r.expires > t && r.link == OfLink(link)
  }

  predicate SixDigits(code: string) {
    |code| == 6 && forall c | c in code :: '0' <= c <= '9'
  }

  function Missed(r: Transaction): Transaction {
    r.(attempts := r.attempts + 1, version := r.version + 1)
  }

  function Claimed(r: Transaction, t: int): Transaction {
    r.(state := Confirming, claimedAt := t, version := r.version + 1)
  }

  function MarkedFailed(r: Transaction): Transaction {
    r.(state := Failed, version := r.version + 1)
  }

  function Done(r: Transaction, subject: string): Transaction {
    r.(state := Confirmed, subject := subject, link := NoDigest, code := NoDigest, challenge := NoDigest, version := r.version + 1)
  }
}
