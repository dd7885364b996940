/** The onboarding policy of an environment and the password check (runtimeconfig/onboarding.go). */
module Onboarding {

  datatype Requirement = Required | Optional | Disabled

  datatype CharacterRule = Allowed | Disallowed | Needed

  datatype Placement = Hidden | WithEmail | AfterVerification

  datatype PasswordPolicy = PasswordPolicy(minLength: int, maxLength: int, lowercase: CharacterRule, uppercase: CharacterRule,
                                           numbers: CharacterRule, symbols: CharacterRule)
  {
    function Rules(): (rules: seq<CharacterRule>)
      ensures |rules| == 4
    {
      [lowercase, uppercase, numbers, symbols]
    }

    predicate Valid() {
      && 8 <= minLength <= maxLength <= 128
      && exists k :: 0 <= k < 4 && !Rules()[k].Disallowed?
    }
  }

  datatype Policy = Policy(idCapture: Requirement, passkey: Requirement, password: Requirement, placement: Placement, passwordPolicy: PasswordPolicy)
  {
    predicate Valid() {
      (password.Disabled? <==> placement.Hidden?) && passwordPolicy.Valid()
    }

    /** Whether a person with these facts has finished. */
    predicate Complete(hasPasskey: bool, hasPassword: bool, captured: bool) {
      Valid() && (!passkey.Required? || hasPasskey) && (!password.Required? || hasPassword) && (!idCapture.Required? || captured)
    }
  }

  const DEFAULT := Policy(Required, Required, Disabled, Hidden, PasswordPolicy(12, 128, Allowed, Allowed, Allowed, Allowed))

  /** What is complete stays complete when more facts become known. */
  lemma CompleteIsMonotone(p: Policy, a: bool, b: bool, c: bool, a': bool, b': bool, c': bool)
    requires p.Complete(a, b, c) && (a ==> a') && (b ==> b') && (c ==> c')
    ensures p.Complete(a', b', c')
  {
  }

  // ---- Passwords ----

  type Byte = b: int | 0 <= b < 256

  /** The character class: lower case, upper case, digits, other printable ASCII. */
  function Class(b: Byte): (k: int)
    ensures 0 <= k < 4
  {
    if 'a' as int <= b <= 'z' as int then 0 else if 'A' as int <= b <= 'Z' as int then 1 else if '0' as int <= b <= '9' as int then 2 else 3
  }

  /** What the check promises: printable ASCII of the right length, no disallowed class, and every needed class present. */
  predicate Accepts(p: PasswordPolicy, password: seq<Byte>) {
    && p.Valid() && p.minLength <= |password| <= p.maxLength
    && (forall b | b in password :: 33 <= b <= 126 && !p.Rules()[Class(b)].Disallowed?)
    && (forall k | 0 <= k < 4 && p.Rules()[k].Needed? :: exists b :: b in password && Class(b) == k)
  }

  method Validate(p: PasswordPolicy) returns (ok: bool)
    ensures ok == p.Valid()
  {
    if p.minLength < 8 || p.maxLength > 128 || p.minLength > p.maxLength {
      return false;
    }
    var rules := p.Rules();
    var enabled := false;
    var k := 0;
    while k < |rules|
      invariant 0 <= k <= 4
      invariant enabled <==> exists j :: 0 <= j < k && !p.Rules()[j].Disallowed?
    {
      enabled := enabled || !rules[k].Disallowed?;
      k := k + 1;
    }
    return enabled;
  }

  method Check(p: PasswordPolicy, password: seq<Byte>) returns (ok: bool)
    ensures ok <==> Accepts(p, password)
  {
    var valid := Validate(p);
    if !valid || |password| < p.minLength || |password| > p.maxLength {
      return false;
    }
    var seen := new bool[4](_ => false);
    var rules := p.Rules();
    var n := 0;
    while n < |password|
      invariant 0 <= n <= |password|
      invariant forall b | b in password[..n] :: 33 <= b <= 126 && !p.Rules()[Class(b)].Disallowed?
      invariant forall k | 0 <= k < 4 :: seen[k] <==> exists b :: b in password[..n] && Class(b) == k
    {
      var c := password[n];
      assert password[..n + 1] == password[..n] + [c];
      var i := 3;
      if 'a' as int <= c <= 'z' as int {
        i := 0;
      } else if 'A' as int <= c <= 'Z' as int {
        i := 1;
      } else if '0' as int <= c <= '9' as int {
        i := 2;
      } else if c < 33 || c > 126 {
        assert c in password;
        return false;
      }
      if rules[i].Disallowed? {
        assert c in password && Class(c) == i;
        return false;
      }
      assert Class(c) == i;
      forall k | 0 <= k < 4
        ensures (if k == i then true else seen[k]) <==> exists b :: b in password[..n + 1] && Class(b) == k
      {
        if k == i {
          assert c in password[..n + 1];
        }
      }
      seen[i] := true;
      n := n + 1;
    }
    assert password[..n] == password;
    var k := 0;
    while k < |rules|
      invariant 0 <= k <= 4
      invariant forall j | 0 <= j < k && p.Rules()[j].Needed? :: seen[j]
    {
      if rules[k].Needed? && !seen[k] {
        return false;
      }
      k := k + 1;
    }
    return true;
  }

  function Example(k: int): (b: Byte)
    requires 0 <= k < 4
    ensures 33 <= b <= 126 && Class(b) == k
  {
    if k == 0 then 97 else if k == 1 then 65 else if k == 2 then 48 else 33
  }

  /** A character of class `n`, or of the class `usable` where `n` is none or not allowed. */
  function Sample(p: PasswordPolicy, usable: int, n: int): (b: Byte)
    requires 0 <= usable < 4
  {
    if 0 <= n < 4 && !p.Rules()[n].Disallowed? then Example(n) else Example(usable)
  }

  /** Every valid policy can be satisfied. */
  lemma SomePasswordFits(p: PasswordPolicy) returns (password: seq<Byte>)
    requires p.Valid()
    ensures Accepts(p, password)
  {
    var usable :| 0 <= usable < 4 && !p.Rules()[usable].Disallowed?;
    password := seq(p.minLength, n => Sample(p, usable, n));
    forall n | 0 <= n < |password| ensures 33 <= password[n] <= 126 && !p.Rules()[Class(password[n])].Disallowed? {
      assert password[n] == Sample(p, usable, n);
    }
    forall k | 0 <= k < 4 && p.Rules()[k].Needed? ensures exists b :: b in password && Class(b) == k {
      assert password[k] == Sample(p, usable, k) && password[k] in password;
    }
  }
}
