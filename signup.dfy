/** The sign-up page: the password checklist and the order of the submit checks. */
module Signup {
  import opened Wrappers
  import opened Text
  import Auth

  /**
   * The checklist, in display order: a length of at least 8 UTF-16 code units, an
   * upper-case letter, a lower-case letter, a digit.
   */
  function Requirements(password: string): (r: seq<bool>)
    ensures |r| == 4
    ensures r[0] <==> Utf16Length(password) >= 8
    ensures r[1] <==> HasUpper(password)
    ensures r[2] <==> HasLower(password)
    ensures r[3] <==> HasDigit(password)
  {
    [Utf16Length(password) >= 8, HasUpper(password), HasLower(password), HasDigit(password)]
  }

  /** `every(r => r.met)`. */
  function Every(met: seq<bool>): (r: bool)
    ensures r <==> forall i :: 0 <= i < |met| ==> met[i]
  {
    if met == [] then true
    else
      assert forall i :: 1 <= i < |met| ==> met[i] == met[1..][i - 1];
      met[0] && Every(met[1..])
  }

  predicate AllRequirementsMet(password: string) {
    Every(Requirements(password))
  }

  /** The checklist is met exactly when every one of its four items is. */
  lemma AllRequirementsMetIff(password: string)
    ensures AllRequirementsMet(password) <==>
            Utf16Length(password) >= 8 && HasUpper(password) && HasLower(password) && HasDigit(password)
  {
    var r := Requirements(password);
    assert AllRequirementsMet(password) <==> r[0] && r[1] && r[2] && r[3];
  }

  /** The confirmation equals the password and is not empty. */
  predicate PasswordsMatch(password: string, confirmation: string) {
    password == confirmation && |confirmation| > 0
  }

  /** What `handleSubmit` ends in. */
  datatype Outcome = WeakPassword | PasswordsDiffer | SignupFailed(message: string) | AccountCreated | NoAccount

  /** Whether `signUp` was called on the way to the outcome. */
  predicate CalledSignUp(o: Outcome) {
    !o.WeakPassword? && !o.PasswordsDiffer?
  }

  /** `handleSubmit`: `response` is what `signUp` would give back. */
  function HandleSubmit(password: string, confirmation: string, response: Auth.AuthResponse): (o: Outcome)
    ensures !AllRequirementsMet(password) ==> o == WeakPassword
    ensures AllRequirementsMet(password) && !PasswordsMatch(password, confirmation) ==> o == PasswordsDiffer
    ensures CalledSignUp(o) <==> AllRequirementsMet(password) && PasswordsMatch(password, confirmation)
    ensures o == AccountCreated <==> CalledSignUp(o) && response.WithUser?
  {
    if !AllRequirementsMet(password) then WeakPassword
    else if !PasswordsMatch(password, confirmation) then PasswordsDiffer
    else match response
      case AuthError(message) => SignupFailed(message)
      case NoUser => NoAccount
      case WithUser(_) => AccountCreated
  }

  /** Only a created account navigates, to the sign-in page. */
  function NavigateTo(o: Outcome): (r: Option<string>)
    ensures r.Some? <==> o == AccountCreated
    ensures r.Some? ==> r.value == "/login"
  {
    if o == AccountCreated then Some("/login") else None
  }

  /** The submit button's enabled state. */
  predicate SubmitEnabled(loading: bool, password: string, confirmation: string) {
    !loading && AllRequirementsMet(password) && PasswordsMatch(password, confirmation)
  }

  /** An enabled button always reaches `signUp`; a disabled one (when not loading) never does. */
  lemma EnabledExactlyWhenSignUpIsCalled(password: string, confirmation: string, response: Auth.AuthResponse)
    ensures SubmitEnabled(false, password, confirmation) <==> CalledSignUp(HandleSubmit(password, confirmation, response))
  {
  }

  /**
   * Six characters can pass the length check: two of them lie outside the Basic
   * Multilingual Plane and count twice.
   */
  lemma AstralCharactersCountTwice()
    ensures var p := "Ab1x\U{1F600}\U{1F600}"; |p| == 6 && AllRequirementsMet(p)
  {
    var p := "Ab1x\U{1F600}\U{1F600}";
    assert p[4..] == ['\U{1F600}'] + p[5..];
    assert Utf16Length(p[4..]) == 4;
    assert p == p[..4] + p[4..];
    assert IsUpper(p[0]) && IsLower(p[3]) && IsDigit(p[2]);
    AllRequirementsMetIff(p);
  }

  /** "Passw0rd" meets every requirement. */
  lemma StrongPasswordExample()
    ensures AllRequirementsMet("Passw0rd")
  {
    var good := "Passw0rd";
    assert IsUpper(good[0]) && IsLower(good[1]) && IsDigit(good[5]);
    AllRequirementsMetIff(good);
  }

  /** "password1" fails: it lacks an upper-case letter. */
  lemma WeakPasswordExample()
    ensures !AllRequirementsMet("password1")
  {
    var bad := "password1";
    assert !HasUpper(bad) by {
      forall i | 0 <= i < |bad| ensures !IsUpper(bad[i]) {}
    }
    AllRequirementsMetIff(bad);
  }
}
