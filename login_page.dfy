/** The login page's submit handler: the filled-fields check, then the outcome of `login`. */
module LoginPage {
  import opened PageFlow

  /** The handler's first step: reject with a message, or call `login(email, password)`. */
  datatype Step = Reject(message: string) | CallLogin(email: string, password: string)

  function Submit(email: string, password: string): (s: Step)
    ensures s.Reject? <==> email == "" || password == ""
    ensures s.Reject? ==> s.message == FillAll
    ensures s.CallLogin? ==> s.email == email && s.password == password
  {
    if email == "" || password == "" then Reject(FillAll) else CallLogin(email, password)
  }

  /** How the `login` call ended: the boolean it resolved to, or a thrown error. */
  datatype LoginCall = Returned(success: bool) | Threw

  function AfterLogin(call: LoginCall): (o: Outcome)
    ensures o.Navigate? <==> call == Returned(true)
    ensures o.Navigate? ==> o.path == Dashboard
    ensures call == Returned(false) ==> o == ShowError("Invalid email or password")
    ensures call.Threw? ==> o == ShowError(TryAgain)
  {
    match call
    case Threw => ShowError(TryAgain)
    case Returned(success) => if success then Navigate(Dashboard) else ShowError("Invalid email or password")
  }

  /** The page reaches the dashboard only through a `login` call made with both fields filled. */
  lemma DashboardNeedsFilledFields(email: string, password: string, call: LoginCall)
    requires Submit(email, password).CallLogin? && AfterLogin(call).Navigate?
    ensures email != "" && password != "" && call == Returned(true)
  {
  }
}
