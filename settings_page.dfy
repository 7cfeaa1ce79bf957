/**
 * The settings page's form: loaded from the gym `/api/gyms` returns, then edited with the
 * working-day picker.
 */
module SettingsPage {
  import opened Wrappers
  import Lists
  import WorkingDays
  import GymsRoute

  datatype SettingsForm = SettingsForm(name: string, address: string, contactNumber: string,
                                       workingDays: seq<string>)

  /** The form filled from the fetched gym: `''` for a missing text field, `[]` for missing days. */
  function LoadForm(view: GymsRoute.GymView): (f: SettingsForm)
    ensures f.name == OrElse(view.gym.name, "") && f.address == OrElse(view.gym.address, "")
    ensures f.contactNumber == OrElse(view.gym.contactNumber, "")
    ensures view.gym.workingDays.Some? ==> f.workingDays == view.gym.workingDays.value
    ensures view.gym.workingDays.None? ==> f.workingDays == []
  {
    SettingsForm(OrElse(view.gym.name, ""), OrElse(view.gym.address, ""), OrElse(view.gym.contactNumber, ""),
                 view.gym.workingDays.GetOr([]))
  }

  /** Clicking a day button: only `workingDays` changes, and only in `day`'s membership. */
  function ToggleDay(f: SettingsForm, day: string): (g: SettingsForm)
    ensures g.name == f.name && g.address == f.address && g.contactNumber == f.contactNumber
    ensures day in g.workingDays <==> day !in f.workingDays
    ensures forall d :: d != day ==> (d in g.workingDays <==> d in f.workingDays)
  {
    f.(workingDays := WorkingDays.Toggle(f.workingDays, day))
  }

  /** The "days selected" caption's number. */
  function DaysSelected(f: SettingsForm): nat {
    |f.workingDays|
  }

  /** On a list without repeats, each click moves the caption's number by exactly one, up or down. */
  lemma CaptionFollowsClicks(f: SettingsForm, day: string)
    requires Lists.NoDup(f.workingDays)
    ensures day in f.workingDays ==> DaysSelected(ToggleDay(f, day)) == DaysSelected(f) - 1
    ensures day !in f.workingDays ==> DaysSelected(ToggleDay(f, day)) == DaysSelected(f) + 1
  {
    WorkingDays.ToggleCount(f.workingDays, day);
  }

  /** A gym created from the create-gym page loads back into the settings form unchanged. */
  lemma LoadsWhatWasCreated(view: GymsRoute.GymView, name: string, address: string, contactNumber: string,
                            days: seq<string>)
    requires view.gym.name == Some(name) && view.gym.address == Some(address)
    requires view.gym.contactNumber == Some(contactNumber) && view.gym.workingDays == Some(days)
    ensures LoadForm(view) == SettingsForm(name, address, contactNumber, days)
  {
  }
}
