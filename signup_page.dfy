/**
 * The sign-up page: the password-strength meter and the submit handler's validation chain, which
 * decides whether the auth context's `signup` is called.
 */
module SignupPage {
  import opened Wrappers
  import opened PageFlow

  /** The meter: a percentage, a label text and a colour class. */
  datatype Strength = Strength(strength: nat, text: string, color: string)

  function PasswordStrength(pass: string): (s: Strength)
    ensures |pass| == 0 ==> s == Strength(0, "", "")
    ensures 0 < |pass| < 6 ==> s == Strength(33, "Weak", "bg-red-500")
    ensures 6 <= |pass| < 10 ==> s == Strength(66, "Medium", "bg-yellow-500")
    ensures 10 <= |pass| ==> s == Strength(100, "Strong", "bg-green-500")
  {
    if |pass| == 0 then Strength(0, "", "")
    else if |pass| < 6 then Strength(33, "Weak", "bg-red-500")
    else if |pass| < 10 then Strength(66, "Medium", "bg-yellow-500")
    else Strength(100, "Strong", "bg-green-500")
  }

  /** A longer password never rates lower. */
  lemma StrengthMonotone(p: string, q: string)
    requires |p| <= |q|
    ensures PasswordStrength(p).strength <= PasswordStrength(q).strength
  {
  }

  /** The form's four fields. */
  datatype SignupForm = SignupForm(name: string, email: string, password: string, confirmPassword: string)

  /** The first failing check's message, or `None` when all pass. */
  function Validate(f: SignupForm): (e: Option<string>)
    ensures (f.name == "" || f.email == "" || f.password == "" || f.confirmPassword == "") ==> e == Some(FillAll)
    ensures f.name != "" && f.email != "" && f.password != "" && f.confirmPassword != "" ==>
      && (f.password != f.confirmPassword ==> e == Some("Passwords do not match"))
      && (f.password == f.confirmPassword && |f.password| < 6 ==> e == Some("Password must be at least 6 characters"))
    ensures e.None? <==> f.name != "" && f.email != "" && f.password == f.confirmPassword && |f.password| >= 6
  {
    if f.name == "" || f.email == "" || f.password == "" || f.confirmPassword == "" then Some(FillAll)
    else if f.password != f.confirmPassword then Some("Passwords do not match")
    else if |f.password| < 6 then Some("Password must be at least 6 characters")
    else None
  }

  /** The first step of the handler: reject with a message, or call `signup(name, email, password)`. */
  datatype Step = Reject(message: string) | CallSignup(name: string, email: string, password: string)

  function Submit(f: SignupForm): (s: Step)
    ensures s.Reject? <==> Validate(f).Some?
    ensures s.Reject? ==> s.message == Validate(f).value
    ensures s.CallSignup? ==> s == CallSignup(f.name, f.email, f.password)
  {
    match Validate(f)
    case Some(message) => Reject(message)
    case None => CallSignup(f.name, f.email, f.password)
  }

  /** `signup` is only ever called with a password the meter rates Medium or Strong. */
  lemma AcceptedNeverWeak(f: SignupForm)
    requires Submit(f).CallSignup?
    ensures PasswordStrength(Submit(f).password).strength >= 66
    ensures PasswordStrength(Submit(f).password).text != "Weak"
  {
  }

  /** How the `signup` call ended: its `{ success, error }` result, or a thrown error. */
  datatype SignupCall = Returned(success: bool, error: Option<string>) | Threw

  function AfterSignup(call: SignupCall): (o: Outcome)
    ensures call.Returned? && call.success ==> o == Navigate(Dashboard)
    ensures call.Returned? && !call.success ==> o == ShowError(OrElse(call.error, "An error occurred during signup."))
    ensures call.Threw? ==> o == ShowError(TryAgain)
    ensures o.ShowError? ==> o.message != ""
  {
    match call
    case Threw => ShowError(TryAgain)
    case Returned(success, error) =>
      if success then Navigate(Dashboard) else ShowError(OrElse(error, "An error occurred during signup."))
  }
}
