/** The sign-up form of src/pages/SignUp.tsx: the password-strength meter
    and the check that the two passwords match before the account is
    requested. The remote sign-up call is a parameter. */
module SignUp {
  import opened Wrappers
  import opened Seqs

  /** `/[A-Z]/.test(p)` */
  predicate HasUpper(p: string)
  {
    exists i :: 0 <= i < |p| && 'A' <= p[i] <= 'Z'
  }

  /** `/[a-z]/.test(p)` */
  predicate HasLower(p: string)
  {
    exists i :: 0 <= i < |p| && 'a' <= p[i] <= 'z'
  }

  /** `/[0-9]/.test(p)` */
  predicate HasDigit(p: string)
  {
    exists i :: 0 <= i < |p| && '0' <= p[i] <= '9'
  }

  const MinLength := 8

  /** The four checks, in the order of the form. */
  function PasswordChecks(p: string): (checks: seq<bool>)
    ensures |checks| == 4
  {
    [|p| >= MinLength, HasUpper(p), HasLower(p), HasDigit(p)]
  }

  function IsTrue(): bool -> bool
  {
    (b: bool) => b
  }

  /** `checks.filter(Boolean).length` */
  function PasswordStrength(p: string): nat
  {
    Count(PasswordChecks(p), IsTrue())
  }

  lemma {:induction false} CountFour(c: seq<bool>)
    requires |c| == 4
    ensures Count(c, IsTrue()) == (if c[0] then 1 else 0) + (if c[1] then 1 else 0) + (if c[2] then 1 else 0) + (if c[3] then 1 else 0)
  {
    CountCons(c);
    CountCons(c[1..]);
    CountCons(c[2..]);
    CountCons(c[3..]);
    assert c[1..][1..] == c[2..] && c[2..][1..] == c[3..] && c[3..][1..] == [];
  }

  lemma CountCons(c: seq<bool>)
    requires c != []
    ensures Count(c, IsTrue()) == (if c[0] then 1 else 0) + Count(c[1..], IsTrue())
  {
  }

  /** The strength counts the checks passed: it is at most four, four
      exactly when all pass, and zero exactly when none does. */
  lemma StrengthCountsChecks(p: string)
    ensures PasswordStrength(p) == (if |p| >= MinLength then 1 else 0) + (if HasUpper(p) then 1 else 0) +
      (if HasLower(p) then 1 else 0) + (if HasDigit(p) then 1 else 0)
    ensures PasswordStrength(p) <= 4
    ensures PasswordStrength(p) == 4 <==> |p| >= MinLength && HasUpper(p) && HasLower(p) && HasDigit(p)
    ensures PasswordStrength(p) == 0 <==> |p| < MinLength && !HasUpper(p) && !HasLower(p) && !HasDigit(p)
  {
    CountFour(PasswordChecks(p));
  }

  /** The empty password passes no check. */
  lemma EmptyStrength()
    ensures PasswordStrength("") == 0
  {
    StrengthCountsChecks("");
  }

  /** Typing more never weakens the password: each check, once passed,
      stays passed. */
  lemma StrengthMonotone(p: string, q: string)
    ensures PasswordStrength(p) <= PasswordStrength(p + q)
  {
    StrengthCountsChecks(p);
    StrengthCountsChecks(p + q);
    if HasUpper(p) {
      var i :| 0 <= i < |p| && 'A' <= p[i] <= 'Z';
      assert (p + q)[i] == p[i];
    }
    if HasLower(p) {
      var i :| 0 <= i < |p| && 'a' <= p[i] <= 'z';
      assert (p + q)[i] == p[i];
    }
    if HasDigit(p) {
      var i :| 0 <= i < |p| && '0' <= p[i] <= '9';
      assert (p + q)[i] == p[i];
    }
  }

  /** What a submission of the form ends in. */
  datatype SubmitOutcome =
    | PasswordsDiffer                  // "As senhas não coincidem", nothing requested
    | AccountNotCreated(message: string)
    | AccountCreated

  /** `onSubmit`: `signUp(email, password)` is the remote call, answering
      the message of its error or `None`. */
  function OnSubmit(email: string, password: string, confirmPassword: string,
                    signUp: (string, string) -> Option<string>): (r: SubmitOutcome)
    ensures r == PasswordsDiffer <==> password != confirmPassword
  {
    if password != confirmPassword then PasswordsDiffer
    else match signUp(email, password)
      case Some(message) => AccountNotCreated(message)
      case None => AccountCreated
  }

  /** Passwords that differ are refused before the remote call: the outcome
      is the same whatever the remote service would answer. With matching
      passwords the outcome is the service's answer to this e-mail and
      password. */
  lemma MismatchBeforeRemoteCall(email: string, password: string, confirmPassword: string,
                                 signUp: (string, string) -> Option<string>, other: (string, string) -> Option<string>)
    ensures password != confirmPassword ==> OnSubmit(email, password, confirmPassword, signUp) == OnSubmit(email, password, confirmPassword, other)
    ensures password == confirmPassword && signUp(email, password) == other(email, password) ==>
      OnSubmit(email, password, confirmPassword, signUp) == OnSubmit(email, password, confirmPassword, other)
    ensures password == confirmPassword ==>
      (OnSubmit(email, password, confirmPassword, signUp) == AccountCreated <==> signUp(email, password).None?)
  {
  }
}
