/**
 * The create-gym page: the form, its required-field check, the payload it posts to `/api/gyms`
 * and what it does with the answer.
 */
module CreateGymPage {
  import opened Wrappers
  import opened PageFlow
  import Text
  import WorkingDays
  import GymsRoute

  /** The text fields of the form; the working days are kept apart, as on the page. */
  datatype GymForm = GymForm(name: string, address: string, contactNumber: string, logo: string)

  const InitialForm: GymForm := GymForm("", "", "", "")

  const Incomplete: string := "Please fill in all required fields and select working days"

  /** The text the page looks for in a refusal to tell that the caller already has a gym. */
  const AlreadyHasGymHint: string := "already owns or belongs to a gym"

  /** The check before posting: `None` when the form may be sent. */
  function Validate(form: GymForm, workingDays: seq<string>): (e: Option<string>)
    ensures e.None? <==> form.name != "" && form.address != "" && form.contactNumber != "" && |workingDays| > 0
    ensures e.Some? ==> e.value == Incomplete
  {
    if form.name == "" || form.address == "" || form.contactNumber == "" || |workingDays| == 0 then Some(Incomplete)
    else None
  }

  /** `{ ...formData, workingDays }` as the route reads it. */
  function Payload(form: GymForm, workingDays: seq<string>): (b: GymsRoute.GymBody)
    ensures b.name == Some(form.name) && b.address == Some(form.address)
    ensures b.contactNumber == Some(form.contactNumber) && b.logo == Some(form.logo)
    ensures b.workingDays == Some(workingDays)
  {
    GymsRoute.GymBody(Some(form.name), Some(form.logo), Some(form.address), Some(workingDays), Some(form.contactNumber))
  }

  /**
   * The page always sends every field, so the route can store its payload, and the gym it
   * creates holds exactly what the owner entered.
   */
  lemma CreatedGymMatchesForm(form: GymForm, workingDays: seq<string>, owner: string, createdAt: string,
                              updatedAt: string)
    ensures GymsRoute.Storable(Payload(form, workingDays))
    ensures var g := GymsRoute.NewGym(Payload(form, workingDays), owner, createdAt, updatedAt);
      && g.name == Some(form.name) && g.address == Some(form.address)
      && g.contactNumber == Some(form.contactNumber) && g.logo == form.logo
      && g.workingDays == Some(workingDays) && g.members == [owner]
  {
  }

  /**
   * After a sequence of clicks on the day buttons, the page posts exactly when the three text
   * fields are filled in and some day was clicked an odd number of times.
   */
  lemma PostsAfterClicks(form: GymForm, clicks: seq<string>)
    ensures Validate(form, WorkingDays.ToggleAll([], clicks)).None? <==>
      form.name != "" && form.address != "" && form.contactNumber != "" &&
      exists d :: multiset(clicks)[d] % 2 == 1
  {
    WorkingDays.ClicksLeaveNoDays(clicks);
  }

  /**
   * What the page does with the answer to its POST: go to the dashboard on success or when the
   * caller already has a gym, else show the server's message (or a fallback).
   */
  function AfterCreate(ok: bool, message: Option<string>): (o: Outcome)
    ensures ok ==> o == Navigate(Dashboard)
    ensures !ok && message.Some? && Text.Contains(message.value, AlreadyHasGymHint) ==>
      o == Navigate(Dashboard)
    ensures o.ShowError? <==>
      !ok && !(message.Some? && Text.Contains(message.value, AlreadyHasGymHint))
    ensures o.ShowError? ==> o.message == OrElse(message, "Failed to create gym. Please try again.")
  {
    if ok then Navigate(Dashboard)
    else if message.Some? && Text.Contains(message.value, AlreadyHasGymHint) then
      Navigate(Dashboard)
    else ShowError(OrElse(message, "Failed to create gym. Please try again."))
  }

  /** The route's refusal for a caller who already has a gym sends the page to the dashboard. */
  lemma AlreadyHasGymGoesToDashboard()
    ensures AfterCreate(false, Some(GymsRoute.AlreadyHasGym)) == Navigate(Dashboard)
  {
    var msg := GymsRoute.AlreadyHasGym;
    assert AlreadyHasGymHint == GymsRoute.AlreadyHasGymReason;
    assert msg[5..] == AlreadyHasGymHint;
    assert Text.OccursAt(msg, AlreadyHasGymHint, 5);
  }
}
