/** What a form page's submit handler ends in, and what a page renders. */
module PageFlow {

  /** The handler either navigates or shows an error message on the form. */
  datatype Outcome = Navigate(path: string) | ShowError(message: string)

  /** A page renders nothing for a logged-in user (who is being redirected), and the form otherwise. */
  datatype View = Blank | Form(error: string)

  const Dashboard: string := "/dashboard"
  const FillAll: string := "Please fill in all fields"
  const TryAgain: string := "An error occurred. Please try again."

  /** `if (user) return null`, else the form with the current error. */
  function Render(loggedIn: bool, error: string): (v: View)
    ensures loggedIn <==> v.Blank?
    ensures v.Form? ==> v.error == error
  {
    if loggedIn then Blank else Form(error)
  }
}
